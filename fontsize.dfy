/**
 * The name-text sizing rule of the poster: `getNameFontSize` (the size used in the
 * exported image) and `getDisplayFontSize` (the size of the on-screen preview text).
 * Sizes are pixel counts; the source returns them as strings such as "120px" and reads
 * them back with `parseInt`, which is the identity on these values.
 */
module FontSize {

  /** Export font size for a name whose `length` (UTF-16 code units) is `length`. */
  function NameFontSize(length: nat): (px: nat)
    ensures px in {120, 100, 80, 75, 55, 40, 32, 28}
  {
    if length <= 4 then 120
    else if length <= 6 then 100
    else if length <= 8 then 80
    else if length <= 10 then 75
    else if length <= 14 then 55
    else if length <= 18 then 40
    else if length <= 22 then 32
    else 28
  }

  /** Each size is produced by exactly one band of lengths. */
  lemma NameFontSizeBands(length: nat)
    ensures NameFontSize(length) == 120 <==> length <= 4
    ensures NameFontSize(length) == 100 <==> 5 <= length <= 6
    ensures NameFontSize(length) == 80 <==> 7 <= length <= 8
    ensures NameFontSize(length) == 75 <==> 9 <= length <= 10
    ensures NameFontSize(length) == 55 <==> 11 <= length <= 14
    ensures NameFontSize(length) == 40 <==> 15 <= length <= 18
    ensures NameFontSize(length) == 32 <==> 19 <= length <= 22
    ensures NameFontSize(length) == 28 <==> 23 <= length
  {
  }

  /** A longer name never gets a larger font. */
  lemma NameFontSizeNonIncreasing(shorter: nat, longer: nat)
    requires shorter <= longer
    ensures NameFontSize(longer) <= NameFontSize(shorter)
  {
  }

  /** The values at the band boundaries. */
  lemma NameFontSizeAtBoundaries()
    ensures NameFontSize(4) == 120 && NameFontSize(5) == 100 && NameFontSize(6) == 100
    ensures NameFontSize(8) == 80 && NameFontSize(10) == 75 && NameFontSize(14) == 55
    ensures NameFontSize(18) == 40 && NameFontSize(22) == 32 && NameFontSize(23) == 28
  {
  }

  /**
   * JavaScript's `Math.round` applied to the rational `num / den`: the nearest integer,
   * with an exact half rounded up (towards positive infinity).
   */
  function MathRound(num: int, den: int): (r: int)
    requires den > 0
    ensures den * (2 * r - 1) <= 2 * num < den * (2 * r + 1)
  {
    var q := (2 * num + den) / (2 * den);
    var m := (2 * num + den) % (2 * den);
    assert 2 * num + den == 2 * den * q + m;
    assert den * (2 * q - 1) == 2 * den * q - den;
    assert den * (2 * q + 1) == 2 * den * q + den;
    q
  }

  /** `Math.round(fullSize * 0.659)` with 0.659 written as 659 / 1000. */
  function DisplayFontSize(length: nat): (px: nat)
    ensures 1000 * (2 * px - 1) <= 2 * 659 * NameFontSize(length) < 1000 * (2 * px + 1)
    ensures 0 < px < NameFontSize(length)
  {
    MathRound(NameFontSize(length) * 659, 1000)
  }

  /**
   * No table size times 0.659 lies on a half, so the direction in which `Math.round`
   * breaks ties never matters, and neither does the rounding of 0.659 to a double
   * (every product is at least 0.04 away from a half).
   */
  lemma DisplayFontSizeNeverATie(length: nat)
    ensures (NameFontSize(length) * 659) % 1000 <= 460 || 540 <= (NameFontSize(length) * 659) % 1000
  {
  }

  /** The preview size for every band. */
  lemma DisplayFontSizeValues()
    ensures DisplayFontSize(4) == 79 && DisplayFontSize(6) == 66 && DisplayFontSize(8) == 53
    ensures DisplayFontSize(10) == 49 && DisplayFontSize(14) == 36 && DisplayFontSize(18) == 26
    ensures DisplayFontSize(22) == 21 && DisplayFontSize(23) == 18
  {
  }
}
