/**
 * The annotation history of src/app.rs as a value: the image on screen
 * (`snapshot`) and the two deques of checkpoints (`snapshots_undo`,
 * `snapshots_redo`), with the transitions that undo, redo, a new capture and
 * the end of a pen or crop drag make. The SnapRustApp class (app.dfy) is
 * proved to make exactly these transitions on its fields.
 */
module History {
  import opened Wrappers
  import opened ToolUtils

  /** A bitmap. Its pixels are not modelled: images are only stored, compared and handed on. */
  type Image(==)

  /**
   * The history state. `undo` runs from the oldest checkpoint to the one on
   * screen (its back); `redo` holds the undone checkpoints, the most recently
   * undone at its front.
   */
  datatype Session = Session(snapshot: Option<Image>, undo: seq<Image>, redo: seq<Image>)

  function Last(s: seq<Image>): Image
    requires |s| > 0
  {
    s[|s| - 1]
  }

  /** Between edits: the image on screen is the newest checkpoint of `undo`. */
  predicate Settled(s: Session) {
    |s.undo| >= 1 && s.snapshot == Some(Last(s.undo))
  }

  /**
   * Holds in every state the application reaches: before the first capture
   * there is no image and no history, and afterwards `undo` is never empty.
   */
  predicate Consistent(s: Session) {
    if s.snapshot.None? then s.undo == [] && s.redo == [] else |s.undo| >= 1
  }

  /** The whole timeline of checkpoints, oldest first; undo and redo only move the cursor within it. */
  function Timeline(s: Session): seq<Image> {
    s.undo + s.redo
  }

  /**
   * `undo`: with more than one checkpoint, the back of `undo` moves to the
   * front of `redo` and the new back is shown; otherwise nothing changes.
   * The timeline is unchanged and `undo` is never emptied.
   */
  function Undo(s: Session): (r: Session)
    ensures |s.undo| <= 1 ==> r == s
    ensures |s.undo| > 1 ==> Timeline(r) == Timeline(s) && |r.undo| == |s.undo| - 1 && Settled(r)
    ensures |s.undo| > 1 ==> r.redo[0] == Last(s.undo)
    ensures |r.undo| >= 1 <==> |s.undo| >= 1
    ensures Consistent(s) ==> Consistent(r)
  {
    if |s.undo| > 1 then
      var undo := s.undo[..|s.undo| - 1];
      Session(Some(Last(undo)), undo, [Last(s.undo)] + s.redo)
    else s
  }

  /**
   * `redo`: with a non-empty `redo`, its front moves to the back of `undo`
   * and is shown; otherwise nothing changes. The timeline is unchanged.
   */
  function Redo(s: Session): (r: Session)
    ensures |s.redo| == 0 ==> r == s
    ensures |s.redo| > 0 ==> Timeline(r) == Timeline(s) && |r.undo| == |s.undo| + 1 && Settled(r)
    ensures |s.redo| > 0 ==> Last(r.undo) == s.redo[0]
    ensures Consistent(s) ==> Consistent(r)
  {
    if |s.redo| > 0 then
      var undo := s.undo + [s.redo[0]];
      Session(Some(Last(undo)), undo, s.redo[1..])
    else s
  }

  /**
   * Undo followed by redo puts both deques back, and shows the newest
   * checkpoint again; from a settled state that is the state itself.
   */
  lemma UndoThenRedo(s: Session)
    requires |s.undo| >= 2
    ensures Redo(Undo(s)).undo == s.undo && Redo(Undo(s)).redo == s.redo
    ensures Redo(Undo(s)).snapshot == Some(Last(s.undo))
    ensures Settled(s) ==> Redo(Undo(s)) == s
  {
    var u := Undo(s);
    assert u.redo[0] == Last(s.undo) && u.redo[1..] == s.redo;
    assert u.undo + [Last(s.undo)] == s.undo;
  }

  /** Redo followed by undo puts a settled state back exactly. */
  lemma RedoThenUndo(s: Session)
    requires Settled(s) && |s.redo| >= 1
    ensures Undo(Redo(s)) == s
  {
    var r := Redo(s);
    assert r.undo[..|r.undo| - 1] == s.undo;
    assert [Last(r.undo)] + r.redo == s.redo;
  }

  /**
   * A capture arriving: the history is reseeded with the new image as its
   * only checkpoint, whatever was there before.
   */
  function CaptureArrived(s: Session, img: Image): (r: Session)
    ensures Settled(r) && Consistent(r)
    ensures Timeline(r) == [img] && r.snapshot == Some(img)
  {
    Session(Some(img), [img], [])
  }

  /** A crop rectangle in image pixels, after the casts to `u32`. */
  datatype CropRect = CropRect(x: nat, y: nat, width: nat, height: nat)

  const U32Max: int := 0xFFFF_FFFF

  /** Rust's `as u32` from a float: saturating at both ends (the integer part is taken beforehand). */
  function AsU32(v: int): (r: nat)
    ensures r <= U32Max
    ensures 0 <= v <= U32Max ==> r == v
    ensures v < 0 ==> r == 0
    ensures v > U32Max ==> r == U32Max
  {
    if v < 0 then 0 else if v > U32Max then U32Max else v
  }

  /**
   * The corner and size of the crop dragged from `last` to `current`: the
   * size is the distance along each axis and the corner is moved back by it
   * along any axis where the drag went toward the origin.
   */
  function CropCorner(last: Point, current: Point): (r: (Point, int, int))
    ensures r.0 == (Min(last.0, current.0), Min(last.1, current.1))
    ensures r.1 == Abs(current.0 - last.0) && r.2 == Abs(current.1 - last.1)
    ensures r.0.0 + r.1 == Max(last.0, current.0) && r.0.1 + r.2 == Max(last.1, current.1)
  {
    var width := Abs(current.0 - last.0);
    var height := Abs(current.1 - last.1);
    var startX := if current.0 < last.0 then last.0 - width else last.0;
    var startY := if current.1 < last.1 then last.1 - height else last.1;
    ((startX, startY), width, height)
  }

  /** The rectangle handed to `crop_imm`. */
  function NormaliseCrop(last: Point, current: Point): CropRect {
    var corner := CropCorner(last, current);
    CropRect(AsU32(corner.0.0), AsU32(corner.0.1), AsU32(corner.1), AsU32(corner.2))
  }

  /**
   * For a drag inside the image, the rectangle starts at its top-left corner
   * whichever way it was dragged and spans both end points, so the two drag
   * directions along a diagonal give the same crop.
   */
  lemma NormaliseCropTopLeft(last: Point, current: Point)
    requires 0 <= last.0 <= U32Max && 0 <= last.1 <= U32Max
    requires 0 <= current.0 <= U32Max && 0 <= current.1 <= U32Max
    ensures NormaliseCrop(last, current).x == Min(last.0, current.0)
    ensures NormaliseCrop(last, current).y == Min(last.1, current.1)
    ensures NormaliseCrop(last, current).width == Abs(current.0 - last.0)
    ensures NormaliseCrop(last, current).height == Abs(current.1 - last.1)
    ensures NormaliseCrop(last, current) == NormaliseCrop(current, last)
  {
  }

  /**
   * The end of a drag. With the pen, the image drawn on during the drag
   * becomes a checkpoint; with the crop tool, the image is cropped to the
   * normalised rectangle and the crop becomes both the image on screen and a
   * checkpoint; either way the redo history is dropped. With no tool nothing
   * changes. `crop` stands for `crop_imm`.
   */
  function Release(s: Session, tool: Tool, rect: CropRect, crop: (Image, CropRect) -> Image): (r: Session)
    requires tool != Tool.None ==> s.snapshot.Some?
    ensures tool == Tool.None ==> r == s
    ensures tool != Tool.None ==> |r.undo| == |s.undo| + 1
    ensures tool != Tool.None ==> Settled(r) && r.redo == [] && r.undo[..|s.undo|] == s.undo
    ensures tool == Pen ==> r.snapshot == s.snapshot
    ensures tool == Crop ==> r.snapshot == Some(crop(s.snapshot.value, rect))
    ensures Consistent(s) ==> Consistent(r)
  {
    match tool
    case None => s
    case Pen => Session(s.snapshot, s.undo + [s.snapshot.value], [])
    case Crop =>
      var cropped := crop(s.snapshot.value, rect);
      Session(Some(cropped), s.undo + [cropped], [])
  }

  /**
   * Undo right after a drag ends takes the image back to the last checkpoint
   * before the stroke or the crop, which the pen's drawing during the drag
   * left untouched, and keeps the edited image for redo.
   */
  lemma UndoAfterRelease(s: Session, tool: Tool, rect: CropRect, crop: (Image, CropRect) -> Image)
    requires |s.undo| >= 1 && s.snapshot.Some? && tool != Tool.None
    ensures Undo(Release(s, tool, rect, crop)) == Session(Some(Last(s.undo)), s.undo, [Last(Release(s, tool, rect, crop).undo)])
    ensures Last(Release(s, tool, rect, crop).undo) == if tool == Pen then s.snapshot.value else crop(s.snapshot.value, rect)
  {
    var r := Release(s, tool, rect, crop);
    assert r.undo[..|r.undo| - 1] == s.undo;
  }
}
