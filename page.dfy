/**
 * The page component `Camera`: its React state and refs as fields of one object, its
 * event handlers as methods, and each asynchronous continuation (camera permission,
 * image loads) and each effect run as one atomic step. Browser and fabric.js calls are
 * replaced by what they do to this state.
 */
module Page {
  import opened Wrappers
  import opened Photos
  import opened Poster
  import FontSize
  import JsString
  import Countdown

  datatype TrackState = Live | Ended

  /** A `MediaStream` returned by `getUserMedia`; only its tracks' live/ended state is kept. */
  class MediaStream {
    const tracks: array<TrackState>

    /** A stream as the browser hands it out: every track live. */
    constructor (trackCount: nat)
      ensures fresh(tracks) && tracks.Length == trackCount
      ensures AllLive()
    {
      tracks := new TrackState[trackCount](_ => Live);
    }

    /** Every track live, as `getUserMedia` hands a new stream out. */
    predicate AllLive()
      reads tracks
    {
      forall i :: 0 <= i < tracks.Length ==> tracks[i] == Live
    }

    predicate Stopped()
      reads tracks
    {
      forall i :: 0 <= i < tracks.Length ==> tracks[i] == Ended
    }

    /** `stream.getTracks().forEach(track => track.stop())`. */
    method StopTracks()
      modifies tracks
      ensures Stopped()
    {
      for i := 0 to tracks.Length
        invariant forall j :: 0 <= j < i ==> tracks[j] == Ended
      {
        tracks[i] := Ended;
      }
    }
  }

  /** The objects a `stopCamera` that sees `s` may change. */
  function TracksOf(s: MediaStream?): set<object> {
    if s == null then {} else {s.tracks}
  }

  /** How the `getUserMedia` promise settles; a grant is a new stream each time. */
  datatype CameraResult = Granted(stream: MediaStream) | Denied

  /** The objects a settlement that releases its grant may change. */
  function GrantedTracks(result: CameraResult): set<object> {
    if result.Granted? then {result.stream.tracks} else {}
  }

  const CameraErrorMessage := "Failed to access camera. Please check permissions."

  /** The view the component renders; `showNameInput` is tested before `showEditPage`. */
  datatype ViewMode = CameraView | NameEntry | Edit

  /** The step the scene initialisation is waiting on. */
  datatype InitLoad = AwaitFrame | AwaitPhoto(src: DataUrl)

  /** `capturedImages[currentEditIndex]` when it is truthy (present and non-empty). */
  function PhotoToLoad(images: seq<DataUrl>, index: nat): (r: Option<DataUrl>)
    ensures r.Some? ==> index < |images| && r.value == images[index] && r.value != ""
    ensures r.None? ==> index >= |images| || images[index] == ""
  {
    if index < |images| && images[index] != "" then Some(images[index]) else None
  }

  class Camera {
    var stream: MediaStream?
    var isCameraOn: bool
    var capturedImages: seq<DataUrl>
    var error: Option<string>
    var countdown: Option<nat>
    var isCountingDown: bool
    var showEditPage: bool
    var currentEditIndex: nat
    var userName: string
    var showNameInput: bool
    /** `fabricCanvasRef.current`. */
    var fabricCanvas: Option<Scene>
    /** The pending load of the scene effect instance whose `mounted` is still true. */
    var liveLoad: Option<InitLoad>
    /** Pending loads of scene effect instances already cleaned up (their `mounted` is false). */
    var staleLoads: nat
    /** Sticker images requested by `addSticker` whose load has not settled. */
    var pendingStickers: seq<string>
    /** `getUserMedia` requests made by `startCamera` whose promise has not settled. */
    var cameraRequests: nat

    function Mode(): (m: ViewMode)
      reads this
      ensures m == NameEntry <==> showNameInput
      ensures m == Edit <==> showEditPage && !showNameInput
    {
      if showNameInput then NameEntry else if showEditPage then Edit else CameraView
    }

    /** The Capture button is rendered (camera on) and not `disabled`. */
    function CaptureEnabled(): (enabled: bool)
      reads this
      ensures enabled <==> isCameraOn && !isCountingDown && capturedImages == []
    {
      isCameraOn && !(|capturedImages| >= 1 || isCountingDown)
    }

    /** `getNameFontSize()` read back with `parseInt`. */
    function NameFontSize(): (px: nat)
      reads this
      ensures 28 <= px <= 120
      ensures |userName| <= 2 ==> px == 120
      ensures |userName| >= 23 ==> px == 28
    {
      FontSize.NameFontSize(JsString.Utf16Length(userName))
    }

    /** `getDisplayFontSize()` read back with `parseInt`. */
    function DisplayFontSize(): (px: nat)
      reads this
      ensures 0 < px < NameFontSize()
      ensures |userName| <= 2 ==> px == 79
    {
      FontSize.DisplayFontSize(JsString.Utf16Length(userName))
    }

    /**
     * The scene, while it exists, belongs to the edit page and stacks the frame below
     * the photo; the pending initialisation step matches what is already on it.
     */
    ghost predicate SceneConsistent()
      reads this
    {
      fabricCanvas.Some? ==>
        showEditPage && !showNameInput && WellFormed(fabricCanvas.value) &&
        var fixed := Fixed(fabricCanvas.value.objects);
        FixedInOrder(fixed) &&
        (liveLoad == Some(AwaitFrame) ==> fixed == []) &&
        (liveLoad.Some? && liveLoad.value.AwaitPhoto? ==> fixed == [Frame])
    }

    /** The camera is on only while the camera view, where its video is rendered, is shown. */
    predicate CameraInView()
      reads this
    {
      isCameraOn ==> Mode() == CameraView
    }

    ghost predicate Valid()
      reads this
    {
      (isCameraOn <==> stream != null) &&
      (isCountingDown <==> countdown.Some?) &&
      (countdown.Some? ==> 1 <= countdown.value <= Countdown.Start && capturedImages == []) &&
      |capturedImages| <= 1 &&
      !(showNameInput && showEditPage) &&
      SceneConsistent()
    }

    /** The first render: camera off, no photo, no countdown, camera view, no scene. */
    constructor ()
      ensures Valid() && Mode() == CameraView
      ensures stream == null && !isCameraOn && capturedImages == [] && error.None?
      ensures countdown.None? && userName == [] && fabricCanvas.None?
      ensures liveLoad.None? && staleLoads == 0 && pendingStickers == [] && cameraRequests == 0
    {
      stream, isCameraOn, capturedImages, error := null, false, [], None;
      countdown, isCountingDown := None, false;
      showEditPage, currentEditIndex, userName, showNameInput := false, 0, [], false;
      fabricCanvas, liveLoad, staleLoads, pendingStickers := None, None, 0, [];
      cameraRequests := 0;
    }

    /**
     * `startCamera` up to its `await`: the Start Camera button (rendered while the camera
     * is off) asks for a stream. The button stays clickable while the request is pending.
     */
    method RequestCamera()
      requires Valid() && Mode() == CameraView && !isCameraOn
      modifies this`cameraRequests
      ensures Valid() && cameraRequests == old(cameraRequests) + 1
    {
      cameraRequests := cameraRequests + 1;
    }

    /**
     * A pending `getUserMedia` request settles and `startCamera` resumes as written,
     * whatever the page has done since: a grant is held and turns the camera on, and a
     * stream held before is dropped without its tracks being stopped.
     */
    method CameraSettledAsWritten(result: CameraResult)
      requires Valid() && cameraRequests > 0
      requires result.Granted? ==> result.stream != stream && result.stream.AllLive()
      modifies this`stream, this`isCameraOn, this`error, this`cameraRequests
      ensures Valid() && cameraRequests == old(cameraRequests) - 1
      ensures result.Granted? ==> stream == result.stream && isCameraOn && error.None?
      ensures result.Granted? && old(stream) != null ==> unchanged(old(stream).tracks)
      ensures result.Denied? ==>
        stream == old(stream) && isCameraOn == old(isCameraOn) && error == Some(CameraErrorMessage)
    {
      cameraRequests := cameraRequests - 1;
      match result
      case Granted(s) =>
        stream := s;
        isCameraOn := true;
        error := None;
      case Denied =>
        error := Some(CameraErrorMessage);
    }

    /**
     * A pending request settles, with a grant nobody can use released: when a stream is
     * already held or the camera view has been left, the new stream's tracks are stopped
     * at once and the page keeps its state. A held stream is thus only ever released by
     * `stopCamera`, and the camera is never on outside the camera view.
     */
    method CameraSettled(result: CameraResult)
      requires Valid() && cameraRequests > 0
      requires result.Granted? ==> result.stream != stream && result.stream.AllLive()
      modifies this`stream, this`isCameraOn, this`error, this`cameraRequests, GrantedTracks(result)
      ensures Valid() && cameraRequests == old(cameraRequests) - 1
      ensures result.Granted? && old(stream == null && Mode() == CameraView) ==>
        stream == result.stream && isCameraOn && error.None? && unchanged(result.stream.tracks)
      ensures result.Granted? && !old(stream == null && Mode() == CameraView) ==>
        result.stream.Stopped() && stream == old(stream) && isCameraOn == old(isCameraOn) && error == old(error)
      ensures result.Denied? ==>
        stream == old(stream) && isCameraOn == old(isCameraOn) && error == Some(CameraErrorMessage)
      ensures old(stream) != null ==> stream == old(stream)
      ensures old(CameraInView()) ==> CameraInView()
    {
      cameraRequests := cameraRequests - 1;
      match result
      case Granted(s) =>
        if stream != null || Mode() != CameraView {
          s.StopTracks();
          return;
        }
        stream := s;
        isCameraOn := true;
        error := None;
      case Denied =>
        error := Some(CameraErrorMessage);
    }

    /** `stopCamera` as created by a render in which `stream` was `seen`. */
    method StopCameraAsSeen(seen: MediaStream?)
      requires Valid()
      modifies this`stream, this`isCameraOn, TracksOf(seen)
      ensures Valid()
      ensures seen != null ==> stream == null && !isCameraOn && seen.Stopped()
      ensures seen == null ==> stream == old(stream) && isCameraOn == old(isCameraOn)
    {
      if seen != null {
        seen.StopTracks();
        stream := null;
        isCameraOn := false;
      }
    }

    /** `stopCamera` from the current render: releases the held stream, if any. */
    method StopCamera()
      requires Valid()
      modifies this`stream, this`isCameraOn, TracksOf(stream)
      ensures Valid() && stream == null && !isCameraOn
      ensures old(stream) != null ==> old(stream).Stopped()
      ensures old(stream) == null ==> unchanged(this)
    {
      StopCameraAsSeen(stream);
    }

    /** `startCountdown`, reachable through the enabled Capture button. */
    method StartCountdown()
      requires Valid() && Mode() == CameraView && CaptureEnabled()
      modifies this`isCountingDown, this`countdown
      ensures Valid() && isCountingDown && countdown == Some(Countdown.Start)
    {
      isCountingDown := true;
      countdown := Some(Countdown.Start);
    }

    /** `capturePhotoNow`. */
    method CapturePhotoNow(env: CaptureEnv)
      modifies this`capturedImages
      ensures capturedImages == Captured(old(capturedImages), env)
    {
      if env.hasVideo && env.hasCanvas {
        if env.hasContext {
          capturedImages := ReplaceOrAppend(capturedImages, env.snapshot);
        }
      }
    }

    /**
     * The countdown timer fires (`setCountdown(countdown - 1)`) and the countdown effect
     * runs on the new value; `captured` says whether that run called `capturePhotoNow`.
     * With no counter no timer is armed and nothing happens.
     */
    method Tick(env: CaptureEnv) returns (captured: bool)
      requires Valid()
      modifies this`countdown, this`isCountingDown, this`capturedImages
      ensures Valid()
      ensures countdown == Countdown.Tick(old(countdown)).countdown
      ensures captured == Countdown.Tick(old(countdown)).capture
      ensures capturedImages == if captured then Captured(old(capturedImages), env) else old(capturedImages)
    {
      captured := false;
      match countdown
      case None =>
      case Some(n) =>
        countdown := Some(n - 1);
        if countdown == Some(0) {
          CapturePhotoNow(env);
          countdown := None;
          isCountingDown := false;
          captured := true;
        }
    }

    /** `deletePhoto(index)`. */
    method DeletePhoto(index: int)
      requires Valid()
      modifies this`capturedImages
      ensures Valid() && capturedImages == Photos.DeletePhoto(old(capturedImages), index)
    {
      capturedImages := Photos.DeletePhoto(capturedImages, index);
    }

    /** `clearAllPhotos`. */
    method ClearAllPhotos()
      requires Valid()
      modifies this`capturedImages
      ensures Valid() && capturedImages == []
    {
      capturedImages := [];
    }

    /** `goToEdit`, the Next button of the photo sidebar (shown while a photo is held). */
    method GoToEdit()
      requires Valid() && Mode() == CameraView && capturedImages != []
      modifies this`stream, this`isCameraOn, this`showNameInput, TracksOf(stream)
      ensures Valid() && Mode() == NameEntry && stream == null && !isCameraOn
      ensures old(stream) != null ==> old(stream).Stopped()
    {
      StopCamera();
      showNameInput := true;
    }

    /** The name input's `onChange`, given the value already upper-cased by the handler. */
    method EnterName(value: string)
      requires Valid() && Mode() == NameEntry
      modifies this`userName
      ensures Valid() && userName == value
    {
      userName := value;
    }

    /**
     * `proceedToEdit` (Continue, or Enter in the name input). A name that is blank
     * after `trim` is refused with an alert and changes nothing.
     */
    method ProceedToEdit() returns (accepted: bool)
      requires Valid() && Mode() == NameEntry
      modifies this`showNameInput, this`showEditPage, this`currentEditIndex
      ensures Valid()
      ensures accepted <==> exists i :: 0 <= i < |userName| && !JsString.IsTrimmable(userName[i])
      ensures accepted ==> Mode() == Edit && !showNameInput && showEditPage && currentEditIndex == 0
      ensures !accepted ==>
        showNameInput == old(showNameInput) && showEditPage == old(showEditPage) &&
        currentEditIndex == old(currentEditIndex)
    {
      accepted := JsString.Trim(userName) != [];
      if accepted {
        showNameInput := false;
        showEditPage := true;
        currentEditIndex := 0;
      }
      assert accepted ==> !forall i :: 0 <= i < |userName| ==> JsString.IsTrimmable(userName[i]);
    }

    /** The Cancel button of the name entry. */
    method CancelNameEntry()
      requires Valid() && Mode() == NameEntry
      modifies this`showNameInput, this`userName
      ensures Valid() && Mode() == CameraView && userName == []
    {
      showNameInput := false;
      userName := [];
    }

    /** The close button of the edit page: disposes the scene, then leaves the page. */
    method CloseEditor()
      requires Valid() && Mode() == Edit
      modifies this`fabricCanvas, this`showEditPage, this`userName
      ensures Valid() && Mode() == CameraView && fabricCanvas.None? && userName == []
    {
      if fabricCanvas.Some? {
        fabricCanvas := None;   // clear(), dispose(), ref := null
      }
      showEditPage := false;
      userName := [];
    }

    /** The cleanup returned by the scene effect: `mounted = false`, then dispose and null the ref. */
    method SceneCleanup()
      requires Valid()
      modifies this`fabricCanvas, this`liveLoad, this`staleLoads
      ensures Valid() && fabricCanvas.None? && liveLoad.None?
      ensures staleLoads == old(staleLoads) + (if old(liveLoad).Some? then 1 else 0)
    {
      if liveLoad.Some? {
        staleLoads := staleLoads + 1;
        liveLoad := None;
      }
      if fabricCanvas.Some? {
        fabricCanvas := None;
      }
    }

    /**
     * The scene effect's body (`initializeCanvas` up to its first `await`), run after
     * the previous instance's cleanup. The edit page's `<canvas>` is mounted exactly
     * when the edit page is the view rendered.
     */
    method InitializeCanvas()
      requires Valid() && liveLoad.None?
      modifies this`fabricCanvas, this`liveLoad
      ensures Valid()
      ensures old(Mode() == Edit && fabricCanvas.None?) ==>
        fabricCanvas == Some(Blank) && liveLoad == Some(AwaitFrame)
      ensures !old(Mode() == Edit && fabricCanvas.None?) ==>
        fabricCanvas == old(fabricCanvas) && liveLoad.None?
    {
      if Mode() != Edit || fabricCanvas.Some? {
        return;
      }
      fabricCanvas := Some(Blank);
      liveLoad := Some(AwaitFrame);
    }

    /** The scene effect re-running because `showEditPage`, `currentEditIndex` or `capturedImages` changed. */
    method SceneEffect()
      requires Valid()
      modifies this`fabricCanvas, this`liveLoad, this`staleLoads
      ensures Valid()
      ensures Mode() == Edit ==> fabricCanvas == Some(Blank) && liveLoad == Some(AwaitFrame)
      ensures Mode() != Edit ==> fabricCanvas.None? && liveLoad.None?
      ensures staleLoads == old(staleLoads) + (if old(liveLoad).Some? then 1 else 0)
    {
      SceneCleanup();
      InitializeCanvas();
    }

    /**
     * The pending load of the mounted scene initialisation settles (`ok`: the image
     * decoded). A loaded frame is added, then the photo, if one is held, is requested;
     * a loaded photo is added on top. A failed load is caught and logged, ending the
     * initialisation. Adding to a canvas the close button already disposed shows nothing,
     * so it is modelled as no change.
     */
    method LoadSettled(ok: bool)
      requires Valid() && liveLoad.Some?
      modifies this`fabricCanvas, this`liveLoad
      ensures Valid()
      ensures !ok ==> fabricCanvas == old(fabricCanvas) && liveLoad.None?
      ensures ok && old(liveLoad) == Some(AwaitFrame) ==>
        fabricCanvas == (if old(fabricCanvas).Some? then Some(Add(old(fabricCanvas).value, Frame)) else None) &&
        liveLoad == (match PhotoToLoad(capturedImages, currentEditIndex)
                     case Some(src) => Some(AwaitPhoto(src))
                     case None => None)
      ensures ok && old(liveLoad).value.AwaitPhoto? ==>
        fabricCanvas == (if old(fabricCanvas).Some? then Some(Add(old(fabricCanvas).value, Photo(old(liveLoad).value.src))) else None) &&
        liveLoad.None?
    {
      if !ok {
        liveLoad := None;
        return;
      }
      match liveLoad.value
      case AwaitFrame =>
        if fabricCanvas.Some? {
          fabricCanvas := Some(Add(fabricCanvas.value, Frame));
        }
        var photo := PhotoToLoad(capturedImages, currentEditIndex);
        liveLoad := if photo.Some? then Some(AwaitPhoto(photo.value)) else None;
      case AwaitPhoto(src) =>
        if fabricCanvas.Some? {
          fabricCanvas := Some(Add(fabricCanvas.value, Photo(src)));
        }
        liveLoad := None;
    }

    /** A load of a cleaned-up scene effect instance settles: `if (!mounted) return`. */
    method StaleLoadSettled()
      requires Valid() && staleLoads > 0
      modifies this`staleLoads
      ensures Valid() && staleLoads == old(staleLoads) - 1
    {
      staleLoads := staleLoads - 1;
    }

    /** `addSticker(src)`, a button of the sticker gallery: requests the image if a scene exists. */
    method AddSticker(src: string)
      requires Valid() && Mode() == Edit
      modifies this`pendingStickers
      ensures Valid()
      ensures pendingStickers == if fabricCanvas.None? then old(pendingStickers) else old(pendingStickers) + [src]
    {
      if fabricCanvas.None? {
        return;
      }
      pendingStickers := pendingStickers + [src];
    }

    /**
     * The load of pending sticker `k` settles. On success the `then` callback adds it to
     * whatever canvas the ref holds now and makes it active (`?.` skips both when the ref
     * is null); a failed load runs no callback.
     */
    method StickerSettled(k: nat, ok: bool)
      requires Valid() && k < |pendingStickers|
      modifies this`pendingStickers, this`fabricCanvas
      ensures Valid()
      ensures pendingStickers == old(pendingStickers[..k] + pendingStickers[k + 1..])
      ensures fabricCanvas ==
        if ok && old(fabricCanvas).Some? then Some(Poster.AddSticker(old(fabricCanvas).value, old(pendingStickers[k])))
        else old(fabricCanvas)
    {
      var src := pendingStickers[k];
      pendingStickers := pendingStickers[..k] + pendingStickers[k + 1..];
      if ok && fabricCanvas.Some? {
        fabricCanvas := Some(Poster.AddSticker(fabricCanvas.value, src));
      }
    }

    /** The user presses the pointer on the edit canvas; `hit` is the topmost object there. */
    method PointerDown(hit: Option<nat>)
      requires Valid()
      modifies this`fabricCanvas
      ensures Valid()
      ensures fabricCanvas == if old(fabricCanvas).Some? then Some(Poster.PointerDown(old(fabricCanvas).value, hit)) else None
    {
      if fabricCanvas.Some? {
        fabricCanvas := Some(Poster.PointerDown(fabricCanvas.value, hit));
      }
    }

    /** `removeSticker`, the DELETE button of the edit page. */
    method RemoveSticker()
      requires Valid() && Mode() == Edit
      modifies this`fabricCanvas
      ensures Valid()
      ensures fabricCanvas == if old(fabricCanvas).Some? then Some(RemoveActive(old(fabricCanvas).value)) else None
    {
      if fabricCanvas.None? {
        return;
      }
      fabricCanvas := Some(RemoveActive(fabricCanvas.value));
    }

    /**
     * Unmounting as written: the scene effect's cleanup runs, then the unmount effect's,
     * whose `stopCamera` closure comes from the first render, where `stream` was null.
     */
    method UnmountAsWritten()
      requires Valid()
      modifies this`fabricCanvas, this`liveLoad, this`staleLoads, this`stream, this`isCameraOn
      ensures Valid() && fabricCanvas.None? && liveLoad.None?
      ensures stream == old(stream) && isCameraOn == old(isCameraOn)
    {
      SceneCleanup();
      StopCameraAsSeen(null);
    }

    /** Unmounting with the camera released: the stream held at unmount is stopped. */
    method Unmount()
      requires Valid()
      modifies this`fabricCanvas, this`liveLoad, this`staleLoads, this`stream, this`isCameraOn, TracksOf(stream)
      ensures Valid() && fabricCanvas.None? && liveLoad.None?
      ensures stream == null && !isCameraOn
      ensures old(stream) != null ==> old(stream).Stopped()
    {
      SceneCleanup();
      StopCamera();
    }
  }

  /** Start the camera, count down, and capture: one capture, on the third firing. */
  method CountdownScenario(env: CaptureEnv) returns (page: Camera, s: MediaStream)
    requires CanCapture(env)
    ensures fresh(page) && fresh(s) && fresh(s.tracks) && page.Valid() && page.Mode() == CameraView
    ensures page.stream == s && page.capturedImages == [env.snapshot] && page.countdown.None?
    ensures page.userName == [] && page.fabricCanvas.None? && page.liveLoad.None?
    ensures page.staleLoads == 0 && page.pendingStickers == [] && page.cameraRequests == 0
  {
    page := new Camera();
    s := new MediaStream(1);
    page.RequestCamera();
    page.CameraSettled(Granted(s));
    page.StartCountdown();
    var first := page.Tick(env);
    var second := page.Tick(env);
    assert !first && !second && page.countdown == Some(1) && page.capturedImages == [];
    var third := page.Tick(env);
    assert third && page.countdown.None? && !page.isCountingDown;
    assert page.capturedImages == [env.snapshot];
    var fourth := page.Tick(env);
    assert !fourth && page.capturedImages == [env.snapshot];
  }

  /** Capture, then enter the name "ZORO": the editor opens and the name gets the 120px font. */
  method NameEntryScenario(env: CaptureEnv) returns (page: Camera)
    requires CanCapture(env) && env.snapshot != ""
    ensures fresh(page) && page.Valid() && page.Mode() == Edit
    ensures page.capturedImages == [env.snapshot] && page.currentEditIndex == 0
    ensures page.fabricCanvas.None? && page.liveLoad.None? && page.staleLoads == 0 && page.pendingStickers == []
    ensures page.NameFontSize() == 120 && page.DisplayFontSize() == 79
  {
    var s;
    page, s := CountdownScenario(env);
    page.GoToEdit();
    assert s.Stopped() && page.Mode() == NameEntry;
    var name := "ZORO";
    assert JsString.Utf16Length(name) == 4 by {
      assert name[1..] == "ORO" && name[2..] == "RO" && name[3..] == "O" && name[4..] == "";
    }
    page.EnterName(name);
    assert !JsString.IsTrimmable(page.userName[0]);
    var accepted := page.ProceedToEdit();
    assert accepted;
  }

  /** Entering the editor builds the scene: the frame, then the held photo above it. */
  method SceneBuildScenario(env: CaptureEnv) returns (page: Camera)
    requires CanCapture(env) && env.snapshot != ""
    ensures fresh(page) && page.Valid() && page.Mode() == Edit && page.pendingStickers == []
    ensures page.fabricCanvas == Some(Scene([Frame, Photo(env.snapshot)], None))
    ensures page.capturedImages == [env.snapshot]
  {
    page := NameEntryScenario(env);
    page.SceneEffect();
    assert page.fabricCanvas == Some(Blank);
    page.LoadSettled(true);
    assert page.liveLoad == Some(AwaitPhoto(env.snapshot));
    assert page.fabricCanvas == Some(Scene([Frame], None));
    page.LoadSettled(true);
    assert page.fabricCanvas.value.objects == [Frame, Photo(env.snapshot)];
  }

  /** A sticker is added on top and selected; DELETE removes just it; closing disposes the scene. */
  method StickerScenario(env: CaptureEnv, sticker: string) returns (page: Camera)
    requires CanCapture(env) && env.snapshot != ""
    ensures fresh(page) && page.Valid() && page.Mode() == CameraView
    ensures page.fabricCanvas.None? && page.capturedImages == [env.snapshot] && page.userName == []
  {
    page := SceneBuildScenario(env);
    page.AddSticker(sticker);
    page.StickerSettled(0, true);
    assert page.fabricCanvas.value.objects == [Frame, Photo(env.snapshot), Sticker(sticker)];
    assert page.fabricCanvas.value.active == Some(2);
    page.RemoveSticker();
    assert page.fabricCanvas.value.objects == [Frame, Photo(env.snapshot)];
    page.CloseEditor();
    page.SceneEffect();
  }

  /** Capture a photo, then delete it: the list is empty and Capture is enabled again. */
  method DeletePhotoScenario(env: CaptureEnv) returns (page: Camera)
    requires CanCapture(env)
    ensures fresh(page) && page.Valid() && page.Mode() == CameraView
    ensures page.capturedImages == [] && page.CaptureEnabled()
  {
    var s;
    page, s := CountdownScenario(env);
    page.DeletePhoto(0);
  }

  /** A whitespace-only name is refused and the name entry stays open. */
  method BlankNameScenario(env: CaptureEnv) returns (page: Camera)
    requires CanCapture(env)
    ensures fresh(page) && page.Valid() && page.Mode() == NameEntry && page.userName == "   "
  {
    var s;
    page, s := CountdownScenario(env);
    page.GoToEdit();
    page.EnterName("   ");
    var accepted := page.ProceedToEdit();
    assert !accepted;
  }

  /** Closing the editor while the frame is loading: the late load returns at its `mounted` check. */
  method LateLoadScenario(env: CaptureEnv) returns (page: Camera)
    requires CanCapture(env) && env.snapshot != ""
    ensures fresh(page) && page.Valid() && page.Mode() == CameraView
    ensures page.fabricCanvas.None? && page.liveLoad.None? && page.staleLoads == 0
  {
    page := NameEntryScenario(env);
    page.SceneEffect();
    page.CloseEditor();
    page.SceneEffect();
    assert page.staleLoads == 1 && page.liveLoad.None?;
    page.StaleLoadSettled();
  }

  /** Unmounting as written leaves the camera's track live; the corrected cleanup ends it. */
  method UnmountLeavesCameraRunning() returns (s: MediaStream, t: MediaStream)
    ensures s.tracks.Length == 1 && s.tracks[0] == Live
    ensures t.tracks.Length == 1 && t.tracks[0] == Ended
  {
    var page := new Camera();
    s := new MediaStream(1);
    page.RequestCamera();
    page.CameraSettled(Granted(s));
    page.UnmountAsWritten();
    assert page.isCameraOn;

    var fixedPage := new Camera();
    t := new MediaStream(1);
    fixedPage.RequestCamera();
    fixedPage.CameraSettled(Granted(t));
    fixedPage.Unmount();
    assert !fixedPage.isCameraOn;
  }

  /**
   * Start Camera clicked twice before the permission prompt is answered, both granted,
   * then Stop: as written the first stream is dropped with its track live, and Stop ends
   * only the second.
   */
  method DoubleStartAsWritten() returns (first: MediaStream, second: MediaStream)
    ensures first.tracks.Length == 1 && first.tracks[0] == Live
    ensures second.tracks.Length == 1 && second.tracks[0] == Ended
  {
    var page := new Camera();
    first := new MediaStream(1);
    second := new MediaStream(1);
    page.RequestCamera();
    page.RequestCamera();
    page.CameraSettledAsWritten(Granted(first));
    page.CameraSettledAsWritten(Granted(second));
    page.StopCamera();
  }

  /** The same clicks with the surplus grant released: after Stop both streams are ended. */
  method DoubleStartReleased() returns (first: MediaStream, second: MediaStream)
    ensures first.tracks.Length == 1 && first.tracks[0] == Ended
    ensures second.tracks.Length == 1 && second.tracks[0] == Ended
  {
    var page := new Camera();
    first := new MediaStream(1);
    second := new MediaStream(1);
    page.RequestCamera();
    page.RequestCamera();
    page.CameraSettled(Granted(first));
    page.CameraSettled(Granted(second));
    page.StopCamera();
  }

  /**
   * With a photo held and the camera stopped, Start Camera and then Next are clicked
   * before the prompt is answered: as written the grant turns the camera on during the
   * name entry; with the grant released, the camera stays off and the stream is ended.
   */
  method LateGrantAsWritten(env: CaptureEnv) returns (page: Camera, late: MediaStream)
    requires CanCapture(env)
    ensures page.Valid() && page.Mode() == NameEntry
    ensures page.isCameraOn && page.stream == late && !page.CameraInView()
    ensures late.tracks.Length == 1 && late.tracks[0] == Live
  {
    var s;
    page, s := CountdownScenario(env);
    page.StopCamera();
    page.RequestCamera();
    page.GoToEdit();
    late := new MediaStream(1);
    page.CameraSettledAsWritten(Granted(late));
  }

  /** The same clicks with the grant released: the camera stays off during the name entry. */
  method LateGrantReleased(env: CaptureEnv) returns (page: Camera, late: MediaStream)
    requires CanCapture(env)
    ensures page.Valid() && page.Mode() == NameEntry
    ensures !page.isCameraOn && page.stream == null && page.CameraInView()
    ensures late.tracks.Length == 1 && late.tracks[0] == Ended
  {
    var s;
    page, s := CountdownScenario(env);
    page.StopCamera();
    page.RequestCamera();
    page.GoToEdit();
    late := new MediaStream(1);
    page.CameraSettled(Granted(late));
  }
}
