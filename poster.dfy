/**
 * The editing scene (the fabric.js canvas held in `fabricCanvasRef`): its stacking
 * order of objects, bottom first, and the active (selected) object. The frame and the
 * photo are added with `selectable: false`, stickers with `selectable: true`, so only a
 * sticker can become active. Geometry (scaling, offsets) is not modelled.
 */
module Poster {
  import opened Wrappers
  import opened Photos

  datatype Layer = Frame | Photo(src: DataUrl) | Sticker(src: string)

  predicate Selectable(l: Layer) {
    l.Sticker?
  }

  datatype Scene = Scene(objects: seq<Layer>, active: Option<nat>)

  /** The active object, when there is one, is an object of the scene and a sticker. */
  predicate WellFormed(s: Scene) {
    s.active.Some? ==> s.active.value < |s.objects| && Selectable(s.objects[s.active.value])
  }

  /** A freshly created `fabric.Canvas`: no objects, nothing active. */
  const Blank := Scene([], None)

  /** The non-sticker objects (frame and photo), in stacking order. */
  function Fixed(objects: seq<Layer>): seq<Layer>
  {
    if objects == [] then []
    else
      var last := objects[|objects| - 1];
      Fixed(objects[..|objects| - 1]) + (if last.Sticker? then [] else [last])
  }

  /** The fixed objects of a scene are the frame, then the photo when it has loaded. */
  predicate FixedInOrder(fixed: seq<Layer>) {
    fixed == [] || fixed == [Frame] || (|fixed| == 2 && fixed[0] == Frame && fixed[1].Photo?)
  }

  /** `canvas.add(obj)`: stacks `l` on top and leaves the selection alone. */
  function Add(s: Scene, l: Layer): (r: Scene)
    ensures r.objects == s.objects + [l] && r.active == s.active
    ensures WellFormed(s) ==> WellFormed(r)
    ensures Fixed(r.objects) == Fixed(s.objects) + (if l.Sticker? then [] else [l])
  {
    var r := Scene(s.objects + [l], s.active);
    assert r.objects[..|r.objects| - 1] == s.objects;
    r
  }

  /** The `then` of `addSticker`: `add(img)` followed by `setActiveObject(img)`. */
  function AddSticker(s: Scene, src: string): (r: Scene)
    ensures r.objects == s.objects + [Sticker(src)]
    ensures r.active == Some(|s.objects|) && WellFormed(r)
    ensures Fixed(r.objects) == Fixed(s.objects)
  {
    Add(s, Sticker(src)).(active := Some(|s.objects|))
  }

  /** Removing a sticker does not touch the fixed objects or their order. */
  lemma {:induction false} FixedIgnoresStickerRemoval(objects: seq<Layer>, i: nat)
    requires i < |objects|
    ensures objects[i].Sticker? ==> Fixed(objects[..i] + objects[i + 1..]) == Fixed(objects)
    decreases |objects|
  {
    if !objects[i].Sticker? {
      return;
    }
    var n := |objects|;
    var rest := objects[..i] + objects[i + 1..];
    if i == n - 1 {
      assert rest == objects[..n - 1];
    } else {
      var init := objects[..n - 1];
      assert rest[..|rest| - 1] == init[..i] + init[i + 1..];
      assert rest[|rest| - 1] == objects[n - 1];
      FixedIgnoresStickerRemoval(init, i);
    }
  }

  /**
   * `removeSticker` on an existing canvas: the active object, if any, is removed (the
   * test against `backgroundImage` always passes, since that property is never set)
   * and fabric.js drops the selection of a removed object.
   */
  function RemoveActive(s: Scene): (r: Scene)
    ensures s.active.Some? && s.active.value < |s.objects| ==>
      r.objects == s.objects[..s.active.value] + s.objects[s.active.value + 1..] && r.active.None?
    ensures !(s.active.Some? && s.active.value < |s.objects|) ==> r == s
    ensures WellFormed(s) ==> WellFormed(r) && Fixed(r.objects) == Fixed(s.objects)
  {
    match s.active
    case Some(i) =>
      if i < |s.objects| then
        FixedIgnoresStickerRemoval(s.objects, i);
        Scene(s.objects[..i] + s.objects[i + 1..], None)
      else s
    case None => s
  }

  /**
   * A pointer press on the canvas: fabric.js looks for the topmost evented object under
   * the pointer (`hit`, its index). The frame and the photo are `evented: false`, so they
   * are skipped, and a sticker stacked below the frame can still be picked through it.
   * A selectable hit becomes active; otherwise (an empty spot, any index that is not a
   * sticker) the selection is dropped.
   */
  function PointerDown(s: Scene, hit: Option<nat>): (r: Scene)
    ensures r.objects == s.objects && WellFormed(r)
    ensures r.active.Some? <==> hit.Some? && hit.value < |s.objects| && Selectable(s.objects[hit.value])
    ensures r.active.Some? ==> r.active == hit
  {
    match hit
    case Some(i) =>
      if i < |s.objects| && Selectable(s.objects[i]) then s.(active := Some(i)) else s.(active := None)
    case None => s.(active := None)
  }
}
