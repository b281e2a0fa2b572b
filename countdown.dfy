/**
 * The capture countdown: `startCountdown` sets the counter to 3, and the countdown
 * effect arms a one-second timer while the counter is positive. The timer's callback
 * lowers the counter by one; once it reaches 0 the effect captures the photo at once
 * and clears the counter. One `Tick` is one timer firing together with the effect run
 * it causes, so the value 0 is never a resting state.
 */
module Countdown {
  import opened Wrappers

  /** The value `startCountdown` gives the counter. */
  const Start: nat := 3

  /** The counter after a step, and whether the step called `capturePhotoNow`. */
  datatype Step = Step(countdown: Option<nat>, capture: bool)

  /** One firing of the timer armed for `countdown` (none is armed when `countdown` is null). */
  function Tick(countdown: Option<nat>): (s: Step)
    ensures s.capture <==> countdown.Some? && countdown.value <= 1
    ensures s.countdown.Some? ==> countdown.Some? && s.countdown.value == countdown.value - 1 >= 1
    ensures countdown.None? ==> s.countdown.None?
    ensures countdown.Some? && countdown.value >= 2 ==> s == Step(Some(countdown.value - 1), false)
  {
    match countdown
    case None => Step(None, false)
    case Some(n) =>
      if n <= 1 then Step(None, true)   // the counter hit 0: capture, then `setCountdown(null)`
      else Step(Some(n - 1), false)
  }

  /** The counter after `k` timer firings, and how many captures they made. */
  function RunTicks(countdown: Option<nat>, k: nat): (r: (nat, Option<nat>))
    ensures countdown.None? ==> r == (0, None)
    ensures r.0 <= 1
    ensures r.1.Some? ==> countdown.Some? && r.1.value <= countdown.value
    decreases k
  {
    if k == 0 then (0, countdown)
    else
      var s := Tick(countdown);
      var rest := RunTicks(s.countdown, k - 1);
      ((if s.capture then 1 else 0) + rest.0, rest.1)
  }

  /**
   * From a counter of `n`, the first `n - 1` firings only count down, the `n`-th
   * captures exactly once and returns to idle, and nothing happens afterwards.
   */
  lemma {:induction false} CountdownCapturesOnce(n: nat, k: nat)
    requires n >= 1
    ensures RunTicks(Some(n), k) == if k < n then (0, Some(n - k)) else (1, None)
  {
    if k > 0 {
      if n >= 2 {
        CountdownCapturesOnce(n - 1, k - 1);
      }
    }
  }

  /** A countdown started by `startCountdown` captures once, on the third firing. */
  lemma StartedCountdownCapturesOnThirdTick()
    ensures forall k: nat :: k < Start ==> RunTicks(Some(Start), k) == (0, Some(Start - k))
    ensures forall k: nat :: k >= Start ==> RunTicks(Some(Start), k) == (1, None)
  {
    forall k: nat ensures RunTicks(Some(Start), k) == if k < Start then (0, Some(Start - k)) else (1, None) {
      CountdownCapturesOnce(Start, k);
    }
  }
}
