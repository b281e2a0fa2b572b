/**
 * The captured-photo list (`capturedImages`) and the pure updaters the page passes to
 * `setCapturedImages`. Pixels are not modelled: a photo is the `data:` URL string that
 * `canvas.toDataURL('image/png')` returns.
 */
module Photos {

  type DataUrl = string

  /** The updater of `capturePhotoNow`: a held photo is replaced, otherwise the new one is appended. */
  function ReplaceOrAppend(prev: seq<DataUrl>, image: DataUrl): (next: seq<DataUrl>)
    ensures next == [image]
  {
    if |prev| >= 1 then [image] else prev + [image]
  }

  /**
   * What `capturePhotoNow` finds when it runs: whether `videoRef.current`,
   * `canvasRef.current` and the canvas's 2D context exist, and the `data:` URL of the
   * mirrored video frame that `toDataURL` would return.
   */
  datatype CaptureEnv = CaptureEnv(hasVideo: bool, hasCanvas: bool, hasContext: bool, snapshot: DataUrl)

  predicate CanCapture(env: CaptureEnv) {
    env.hasVideo && env.hasCanvas && env.hasContext
  }

  /** The photo list after `capturePhotoNow`. */
  function Captured(prev: seq<DataUrl>, env: CaptureEnv): (next: seq<DataUrl>)
    ensures CanCapture(env) ==> next == [env.snapshot]
    ensures !CanCapture(env) ==> next == prev
  {
    if env.hasVideo && env.hasCanvas then
      if env.hasContext then ReplaceOrAppend(prev, env.snapshot) else prev
    else prev
  }

  /**
   * `s.filter((_, i) => i !== index)` applied to the part of a list that starts at
   * position `offset`.
   */
  function KeepOthers(s: seq<DataUrl>, index: int, offset: int): (r: seq<DataUrl>)
    ensures offset <= index < offset + |s| ==> r == s[..index - offset] + s[index - offset + 1..]
    ensures !(offset <= index < offset + |s|) ==> r == s
    decreases |s|
  {
    if s == [] then []
    else
      var rest := KeepOthers(s[1..], index, offset + 1);
      if offset == index then
        assert rest == s[1..];
        rest
      else
        assert offset < index < offset + |s| ==>
          s[..index - offset] == [s[0]] + s[1..][..index - offset - 1] &&
          s[index - offset + 1..] == s[1..][index - offset..];
        [s[0]] + rest
  }

  /** The updater of `deletePhoto(index)`. */
  function DeletePhoto(prev: seq<DataUrl>, index: int): (next: seq<DataUrl>)
    ensures 0 <= index < |prev| ==> next == prev[..index] + prev[index + 1..]
    ensures 0 <= index < |prev| ==> |next| == |prev| - 1
    ensures !(0 <= index < |prev|) ==> next == prev
  {
    KeepOthers(prev, index, 0)
  }

  /** A photo list of at most one element stays so under every updater. */
  lemma UpdatersKeepCapacityOne(prev: seq<DataUrl>, env: CaptureEnv, index: int)
    requires |prev| <= 1
    ensures |Captured(prev, env)| <= 1 && |DeletePhoto(prev, index)| <= 1
  {
  }
}
