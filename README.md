# Photo booth page: a Dafny model

The repository is a single React page, `Camera` in `app/page.tsx`. It turns on the
webcam, counts down 3-2-1 and captures one photo. It then asks for a name and opens a
fabric.js editor. There the photo sits inside a "wanted poster" frame, and the user adds
stickers and downloads the result. This project models the logic under that page:

- `FontSize` (`fontsize.dfy`): the name-length to font-size step table (`getNameFontSize`).
  Also the preview size `Math.round(size × 0.659)` (`getDisplayFontSize`), in exact
  integer arithmetic.
- `JsString` (`jsstring.dfy`): the JavaScript string operations the page relies on.
  These are `trim` (ECMAScript WhiteSpace and LineTerminator code points) and `length`
  (UTF-16 code units).
- `Photos` (`photos.dfy`): the captured-photo list. It covers the "replace or append"
  updater of `capturePhotoNow`, the `filter` of `deletePhoto`, and the capture no-op
  when a ref or the 2D context is missing. A photo is its `data:` URL string.
- `Countdown` (`countdown.dfy`): the countdown state machine. One `Tick` is one firing of
  the one-second timer, together with the effect run that follows it.
- `Poster` (`poster.dfy`): the edit scene as a value. It holds the stacking order of
  layers (frame, photo, stickers) and the active object.
  - `Fixed` extracts the non-sticker layers.
  - `FixedInOrder` says that they are the frame and then the photo.
- `Page` (`page.dfy`): the component as the class `Page.Camera`.
  - Every `useState` value and the `fabricCanvasRef` ref is a field.
  - Every event handler is a method.
  - Every asynchronous continuation is one atomic step: camera permission, frame, photo
    and sticker image loads, and the `mounted` check.
  - `Valid()` is the invariant all of them keep:
    - the camera is on exactly when a stream is held;
    - a running counter is between 1 and 3, and no photo is held during it;
    - at most one photo is held;
    - the name entry and the edit page are never both shown;
    - a scene exists only on the edit page, is well formed, and stacks the frame below
      the photo.
  - `Mode()` derives the view from the two flags, testing `showNameInput` before
    `showEditPage` (app/page.tsx:372, app/page.tsx:445).
  - `CaptureEnabled()` is the Capture button's `disabled` condition.
  - `CameraInView()` says the camera is on only in the camera view. The code as written
    does not keep it (see Findings).
  - `NameFontSize()` and `DisplayFontSize()` are the two getters applied to `userName`.
  - `MediaStream` keeps only the live/ended state of a stream's tracks. `StopTracks` is
    the `forEach(track => track.stop())` loop.

Handlers carry as preconditions the view in which their control is rendered, since a
handler cannot run from any other view:

- `RequestCamera` (the Start Camera button) requires the camera view with the camera
  off. The settlement of a request requires only that one is pending. The button stays
  clickable while the permission prompt is open, so a request can settle after a second
  click or after the user has left the camera view.
- `StartCountdown` requires an enabled Capture button.
- `GoToEdit` requires the photo sidebar.
- `ProceedToEdit` and `CancelNameEntry` require the name entry.
- `CloseEditor`, `AddSticker` and `RemoveSticker` require the edit page.

React's effect protocol is modelled as follows:

- `SceneEffect` is the scene effect re-running: first the previous instance's cleanup
  (`SceneCleanup`), then the body (`InitializeCanvas`).
- The pending load of the instance whose `mounted` is true is `liveLoad`.
- Loads of cleaned-up instances are counted in `staleLoads`. When one settles
  (`StaleLoadSettled`), it returns at `if (!mounted) return` and changes nothing else.

The client methods at the end of `page.dfy` walk the end-to-end paths and check each
step:

- `CountdownScenario`: capture after exactly three timer firings.
- `NameEntryScenario`: the name "ZORO" opens the editor at 120px (79px on screen).
- `DeletePhotoScenario`: deleting the captured photo empties the list and enables Capture
  again.
- `BlankNameScenario`: a name of three spaces is refused.
- `SceneBuildScenario` and `StickerScenario`: the scene becomes frame then photo; a
  sticker is added on top and selected; DELETE removes only it; closing disposes the
  scene.
- `LateLoadScenario`: a load that settles after the editor was closed changes nothing.
- `UnmountLeavesCameraRunning`, `DoubleStartAsWritten` and `LateGrantAsWritten` show
  the findings below. `DoubleStartReleased` and `LateGrantReleased` show the corrected
  settlement on the same clicks.

Notes on the code:

- Closing the editor is not a full reset. The close handler clears the name and the
  scene, but the captured photo stays in the list (app/page.tsx:468-480).
- Sticker removal does not guard the frame by an explicit test. The comparison with
  `backgroundImage` (app/page.tsx:293) is against a property that is never set, because
  the frame is added with `canvas.add`. The frame and the photo are protected only
  because they are not selectable (`Poster.PointerDown`), so they can never be the
  active object.
- The stacking order is deterministic only for the frame and the photo. A sticker
  whose load settles before the frame's (app/page.tsx:273 against app/page.tsx:198) is
  appended first, so it ends up below the frame. The model keeps this append order, and its ordering invariant speaks of the
  non-sticker layers only (`Poster.Fixed`).
- `bringObjectToFront(photoImg)` (app/page.tsx:227) is a no-op in the model. `add` has
  just put the photo on top.
- If the close button has already disposed the canvas, a live continuation's
  `canvas.add` goes to that disposed canvas. Nothing of it can be seen, so the model
  treats it as no change.

## Model

| member | source | states |
|---|---|---|
| FontSize.NameFontSize | app/page.tsx:157-167 | the export font size is one of 120, 100, 80, 75, 55, 40, 32, 28 px |
| FontSize.NameFontSizeBands | app/page.tsx:157-167 | each size is produced by exactly one band of name lengths (≤4, 5-6, 7-8, 9-10, 11-14, 15-18, 19-22, ≥23), both directions |
| FontSize.NameFontSizeNonIncreasing | app/page.tsx:157-167 | a longer name never gets a larger font |
| FontSize.NameFontSizeAtBoundaries | app/page.tsx:157-167 | lengths 4,5,6,8,10,14,18,22,23 give 120,100,100,80,75,55,40,32,28 px |
| FontSize.MathRound | app/page.tsx:172 | `Math.round(num/den)` is the integer r with r - 1/2 ≤ num/den < r + 1/2 |
| FontSize.DisplayFontSize | app/page.tsx:170-173 | the preview size is `round(full × 0.659)` and is positive and strictly smaller than the full size |
| FontSize.DisplayFontSizeNeverATie | app/page.tsx:172 | no table size times 0.659 lies within 0.04 of a half, so the integer form agrees with the floating-point `Math.round` |
| FontSize.DisplayFontSizeValues | app/page.tsx:170-173 | the preview sizes are 79, 66, 53, 49, 36, 26, 21, 18 px |
| JsString.TrimStart | app/page.tsx:147 | drops exactly the leading run of trimmable characters and returns a suffix |
| JsString.TrimEnd | app/page.tsx:147 | drops exactly the trailing run of trimmable characters and returns a prefix |
| JsString.Trim | app/page.tsx:147 | `trim()` is a contiguous run of the name that neither starts nor ends with a trimmable character, with every character outside it trimmable; it is empty (falsy) exactly when every character is trimmable |
| JsString.Utf16Length | app/page.tsx:158 | `length` lies between the code-point count and twice it, and equals it exactly when no character is above U+FFFF |
| Photos.ReplaceOrAppend | app/page.tsx:119-124 | after the capture updater the list is exactly `[image]`, whatever it held |
| Photos.Captured | app/page.tsx:101-127 | when video, canvas and 2D context exist the list becomes `[snapshot]`; otherwise it is unchanged |
| Photos.KeepOthers | app/page.tsx:131 | the index filter removes exactly the element at the given position and keeps the rest in order; an absent position changes nothing |
| Photos.DeletePhoto | app/page.tsx:130-132 | `deletePhoto(i)` removes the i-th photo and keeps the others in order (one fewer); an out-of-range i leaves the list unchanged |
| Photos.UpdatersKeepCapacityOne | app/page.tsx:118-132 | capture and delete keep the list at most one long |
| Countdown.Tick | app/page.tsx:82-98 | a firing lowers a counter ≥ 2 by exactly one without capturing; at 1 it captures and goes idle; idle stays idle |
| Countdown.RunTicks | app/page.tsx:82-98 | over any number of firings at most one capture happens; from idle nothing happens; the counter never rises |
| Countdown.CountdownCapturesOnce | app/page.tsx:82-98 | from n, the first n-1 firings only count down, the n-th captures once and goes idle, and nothing happens afterwards |
| Countdown.StartedCountdownCapturesOnThirdTick | app/page.tsx:76-98 | from the start value 3, the capture comes once, exactly at the third firing |
| Poster.Add | app/page.tsx:209 | `canvas.add` stacks the object on top, keeps the selection and well-formedness, and extends the fixed layers only by a non-sticker |
| Poster.AddSticker | app/page.tsx:283-284 | the sticker is appended, made active, and the fixed layers are unchanged |
| Poster.FixedIgnoresStickerRemoval | app/page.tsx:294 | removing a sticker leaves the frame and photo and their order untouched |
| Poster.RemoveActive | app/page.tsx:290-297 | removes exactly the active object, keeps all others in order and clears the selection; no-op when nothing is active; never removes frame or photo |
| Poster.PointerDown | app/page.tsx:274-281 | only a selectable object (a sticker) can become active; elsewhere the selection is dropped |
| Page.MediaStream.constructor | app/page.tsx:45-48 | a stream returned by `getUserMedia` has all tracks live |
| Page.MediaStream.StopTracks | app/page.tsx:66 | every track of the stream is stopped |
| Page.Camera.constructor | app/page.tsx:29-38 | the initial state: camera off, no stream, no photos, no countdown, camera view, no scene |
| Page.PhotoToLoad | app/page.tsx:212 | a photo is loaded exactly when the list holds a non-empty entry at the edit index, and it is that entry |
| Page.Camera.Mode | app/page.tsx:372-445 | the name entry is shown whenever its flag is set; the edit page exactly when its flag is set and the name entry's is not |
| Page.Camera.CaptureEnabled | app/page.tsx:667 | Capture is enabled exactly when the camera is on, no countdown runs and no photo is held |
| Page.Camera.NameFontSize | app/page.tsx:157-167 | the name's export size lies in 28..120 px; a name of at most two characters gets 120 px and one of 23 or more gets 28 px |
| Page.Camera.DisplayFontSize | app/page.tsx:170-173 | the preview size is positive and smaller than the export size; 79 px for a name of at most two characters |
| Page.Camera.RequestCamera | app/page.tsx:43-45 | the Start Camera click adds one pending `getUserMedia` request |
| Page.Camera.CameraSettledAsWritten | app/page.tsx:45-61 | as written, for a grant of a new stream with every track live: a grant is held and turns the camera on in any view, and a stream held before is dropped with its tracks untouched; a denial sets only the error message |
| Page.Camera.CameraSettled | app/page.tsx:45-61 | corrected, for a grant of a new stream with every track live: a grant is held only when no stream is held and the camera view is shown, otherwise its tracks are stopped and the page is unchanged; a held stream is never replaced and the camera stays within the camera view |
| Page.Camera.StopCameraAsSeen | app/page.tsx:64-73 | `stopCamera` of a render that saw a stream stops its tracks and turns the camera off; seeing none, it changes nothing |
| Page.Camera.StopCamera | app/page.tsx:64-73 | a held stream is stopped and released and the camera is off; with none, nothing changes, so a second call is a no-op |
| Page.Camera.StartCountdown | app/page.tsx:76-79 | the counter is 3 and counting is on |
| Page.Camera.CapturePhotoNow | app/page.tsx:101-127 | the photo list becomes `Captured(old list, env)` |
| Page.Camera.Tick | app/page.tsx:82-98 | the counter follows `Countdown.Tick`, capture runs exactly when it reports one, and the invariant is kept |
| Page.Camera.DeletePhoto | app/page.tsx:130-132 | the list becomes `Photos.DeletePhoto(old list, index)` |
| Page.Camera.ClearAllPhotos | app/page.tsx:135-137 | the list is empty |
| Page.Camera.GoToEdit | app/page.tsx:140-143 | the camera is stopped (all tracks ended) and the name entry is shown |
| Page.Camera.EnterName | app/page.tsx:398 | the name becomes the typed, already upper-cased value, whatever its length |
| Page.Camera.ProceedToEdit | app/page.tsx:146-154 | accepted exactly when the name has a non-trimmable character; then the edit page is shown at index 0; otherwise every mode flag is unchanged |
| Page.Camera.CancelNameEntry | app/page.tsx:415-418 | back to the camera view with an empty name |
| Page.Camera.CloseEditor | app/page.tsx:468-480 | the scene reference is null, the view is the camera view and the name is empty |
| Page.Camera.SceneCleanup | app/page.tsx:239-251 | the pending load becomes stale (`mounted = false`) and the scene reference is null |
| Page.Camera.InitializeCanvas | app/page.tsx:184-198 | a blank scene is created, with the frame requested, exactly when the edit page is shown and no scene exists; otherwise nothing changes |
| Page.Camera.SceneEffect | app/page.tsx:181-252 | after a re-run, a blank scene awaiting its frame exists exactly on the edit page, and no scene exists elsewhere |
| Page.Camera.LoadSettled | app/page.tsx:196-233 | a loaded frame is stacked, then the held photo is requested; a loaded photo is stacked above it; a failed load ends initialisation; frame stays below photo |
| Page.Camera.StaleLoadSettled | app/page.tsx:199 | a load of a cleaned-up instance changes nothing in the scene |
| Page.Camera.AddSticker | app/page.tsx:270-273 | a sticker load is requested only when a scene exists |
| Page.Camera.StickerSettled | app/page.tsx:273-286 | a loaded sticker is appended to the current scene and made active; with no scene or a failed load nothing is added |
| Page.Camera.PointerDown | app/page.tsx:206 | the selection follows `Poster.PointerDown` on the current scene |
| Page.Camera.RemoveSticker | app/page.tsx:290-297 | the scene becomes `RemoveActive` of itself; no scene, no change |
| Page.Camera.UnmountAsWritten | app/page.tsx:254-267 | as written, unmounting leaves the stream held and the camera on |
| Page.Camera.Unmount | app/page.tsx:254-267 | corrected: unmounting stops every track of the held stream, releases it, and leaves no scene |
| Page.CountdownScenario | app/page.tsx:76-127 | started camera, 3-2-1 countdown: no capture after two firings, one capture after the third, none after |
| Page.NameEntryScenario | app/page.tsx:140-173 | after a capture, the name "ZORO" opens the editor with a 120px export and 79px preview font |
| Page.SceneBuildScenario | app/page.tsx:185-228 | entering the editor with a photo builds the scene `[frame, photo]` with nothing active |
| Page.StickerScenario | app/page.tsx:270-297 | a sticker added to the built scene, then deleted, then the editor closed: back in the camera view with no scene and the photo still held |
| Page.DeletePhotoScenario | app/page.tsx:130-132 | capture a photo, then delete it: the list is empty and the Capture button is enabled again |
| Page.BlankNameScenario | app/page.tsx:146-154 | a name of three spaces is refused and the name entry stays open |
| Page.LateLoadScenario | app/page.tsx:196-251 | closing the editor while the frame loads: the late load settles as stale and no scene is left |
| Page.UnmountLeavesCameraRunning | app/page.tsx:255-267 | unmounting as written leaves the stream's track live; the corrected cleanup ends it |
| Page.DoubleStartAsWritten | app/page.tsx:43-73 | two clicks, two grants, then Stop: the first stream's track stays live, the second's is ended |
| Page.DoubleStartReleased | app/page.tsx:43-73 | the same clicks with the corrected settlement: both tracks are ended |
| Page.LateGrantAsWritten | app/page.tsx:43-143 | Start Camera then Next before the grant: the camera is on during the name entry with its track live |
| Page.LateGrantReleased | app/page.tsx:43-143 | the same clicks with the corrected settlement: the camera stays off and the late stream is ended |

## Left out

- Device I/O: `getUserMedia`, `video.srcObject` and the `<video>` element. The permission
  outcome is the parameter of a camera settlement. A stream keeps only its tracks' live/ended
  state.
- Pixel work: the horizontal mirroring, `drawImage` and PNG encoding by `toDataURL`. The
  resulting `data:` URL is the `snapshot` parameter of a capture.
- fabric.js geometry and rendering: `scaleToWidth`/`scaleToHeight`, `scale(0.5)`, the
  positions and the 500×735 canvas size, `renderAll` and `dispose`.
  `bringObjectToFront` is a no-op here, since the photo is already on top.
  Dragging and resizing stickers is not modelled either.
- `downloadPoster`: font readiness, the 759×1117 export canvas, rasterising, the name
  text and the file download are not modelled. Only its use of `getNameFontSize` is.
- The per-photo `Download` links and the `error` banner rendering: JSX only.
- The `alert('Please enter your name!')` of `proceedToEdit` (app/page.tsx:152): a dialog
  only. `ProceedToEdit` returning `accepted == false` stands for it.
- Page.Camera.EnterName: does not model `toUpperCase` (Unicode case mapping). The caller
  passes the upper-cased value.
- The input's `maxLength={30}` (app/page.tsx:405) limits only what is typed. The
  upper-cased value can be longer (30 × "ß" becomes 60 × "S"), so the model puts no
  bound on the name.
- Poster.RemoveActive and Poster.PointerDown: group selections are not modelled. fabric
  allows selecting several objects at once, by a drag across the canvas or a
  shift-click. The active object is then a group that is not itself in the canvas's
  object list, so `canvas.remove` of it, and with it DELETE, does nothing. A scene's
  `active` names only one object.
- `backToCamera` (app/page.tsx:176-178): defined but bound to no control.
- Real timing: `setTimeout`/`clearTimeout` and React's scheduling of effects and
  batching. Each timer firing, load continuation and effect run is one atomic step. The
  order of those steps is chosen by the caller. A timer still pending at unmount is
  cleared by the effect's cleanup, and the model simply issues no further `Tick`.
- Failures of `clear()`/`dispose()` and load errors: they are only logged, so they have
  no effect on the modelled state.
- JavaScript strings can hold lone surrogates; a Dafny `string` cannot.

## Findings

| source | as written | input that shows it | evidently intended | confidence | as-written member | corrected member |
|---|---|---|---|---|---|---|
| app/page.tsx:43-61 | The Start Camera button stays clickable while the permission prompt is open, and each settlement runs `setStream` unconditionally. After two clicks and two grants, the first stream is dropped with its track live, and `stopCamera` later ends only the second. | Start Camera clicked twice, both granted, then Stop (`Page.DoubleStartAsWritten`) | every acquired stream is either the one held or stopped, so Stop leaves no track live | high; not executed | Page.Camera.CameraSettledAsWritten | Page.Camera.CameraSettled |
| app/page.tsx:43-61 | A settlement arriving after Next turns the camera on outside the camera view. `goToEdit` already ran `stopCamera`, which saw no stream, so the camera stays on during name entry and editing. | photo held, camera stopped, Start Camera then Next, then the grant (`Page.LateGrantAsWritten`) | the camera is off whenever the camera view is not shown | medium; not executed | Page.Camera.CameraSettledAsWritten | Page.Camera.CameraSettled |
| app/page.tsx:255-267 | The unmount effect has an empty dependency list. Its cleanup therefore calls the `stopCamera` closure of the first render, where `stream` is null, so nothing is stopped. | Camera started (permission granted), page unmounted: the stream stays held and its track stays live (`Page.UnmountLeavesCameraRunning`) | unmounting stops every track of the stream held at that moment | high; not executed | Page.Camera.UnmountAsWritten | Page.Camera.Unmount |
