/** The capture overlay of the renderer: a drag-selection state machine over the
    frozen screenshot, the rectangle it reports to the main process, and the
    four dimming bands drawn around the selection. Pixel coordinates are
    integers. */
module Overlay {
  import opened Wrappers
  import opened Text
  import MainProcess

  datatype Point = Point(x: int, y: int)

  /** A rectangle by its top-left corner, width and height. */
  datatype Rect = Rect(x: int, y: int, w: int, h: int)

  /** `p` lies in `r` or on its border. */
  predicate OnOrInside(r: Rect, p: Point) {
    r.x <= p.x <= r.x + r.w && r.y <= p.y <= r.y + r.h
  }

  /** The pixel at `p` is painted by `r`. */
  predicate Covers(r: Rect, p: Point) {
    r.x <= p.x < r.x + r.w && r.y <= p.y < r.y + r.h
  }

  /** The rectangle spanned by the drag start and the current pointer: the
      smaller coordinates and the absolute differences. */
  function Normalize(start: Point, cur: Point): (r: Rect)
    ensures r.w >= 0 && r.h >= 0
    ensures OnOrInside(r, start) && OnOrInside(r, cur)
    ensures (r.x == start.x || r.x == cur.x) && (r.x + r.w == start.x || r.x + r.w == cur.x)
    ensures (r.y == start.y || r.y == cur.y) && (r.y + r.h == start.y || r.y + r.h == cur.y)
  {
    Rect(Min(cur.x, start.x), Min(cur.y, start.y),
         if cur.x >= start.x then cur.x - start.x else start.x - cur.x,
         if cur.y >= start.y then cur.y - start.y else start.y - cur.y)
  }

  /** The rectangle does not depend on which end of the drag is which. */
  lemma NormalizeSymmetric(a: Point, b: Point)
    ensures Normalize(a, b) == Normalize(b, a)
  {
  }

  /** The four dimming bands for a selection on a `width` by `height` screen:
      the band above it, the strips to its left and right, and the band below. */
  function DimBands(width: int, height: int, sel: Rect): (r: seq<Rect>)
    ensures |r| == 4
    ensures r[0].y + r[0].h == sel.y && r[3].y == sel.y + sel.h
    ensures r[1].x + r[1].w == sel.x && r[2].x == sel.x + sel.w
    ensures r[0].x + r[0].w == width && r[2].x + r[2].w == width && r[3].x + r[3].w == width
    ensures r[3].y + r[3].h == height
  {
    [ Rect(0, 0, width, sel.y),
      Rect(0, sel.y, sel.x, sel.h),
      Rect(sel.x + sel.w, sel.y, width - (sel.x + sel.w), sel.h),
      Rect(0, sel.y + sel.h, width, height - (sel.y + sel.h)) ]
  }

  /** The dimming layer: nothing without a screenshot, one full-screen band
      without a selection, the four bands around a selection. */
  function DimLayer(width: int, height: int, hasImage: bool, selection: Option<Rect>): (r: seq<Rect>)
    ensures !hasImage ==> r == []
    ensures hasImage && selection.None? ==> r == [Rect(0, 0, width, height)]
    ensures hasImage && selection.Some? ==> r == DimBands(width, height, selection.value)
  {
    if !hasImage then []
    else match selection
      case None => [Rect(0, 0, width, height)]
      case Some(sel) => DimBands(width, height, sel)
  }

  /** How many of `rs` paint the pixel `p`. */
  function CoverCount(rs: seq<Rect>, p: Point): nat {
    if rs == [] then 0 else (if Covers(rs[0], p) then 1 else 0) + CoverCount(rs[1..], p)
  }

  lemma CoverCountFive(rs: seq<Rect>, p: Point)
    requires |rs| == 5
    ensures CoverCount(rs, p) == (if Covers(rs[0], p) then 1 else 0) + (if Covers(rs[1], p) then 1 else 0)
      + (if Covers(rs[2], p) then 1 else 0) + (if Covers(rs[3], p) then 1 else 0) + (if Covers(rs[4], p) then 1 else 0)
  {
    var r1 := rs[1..];
    var r2 := r1[1..];
    var r3 := r2[1..];
    var r4 := r3[1..];
    assert r4[1..] == [];
    assert r1[0] == rs[1] && r2[0] == rs[2] && r3[0] == rs[3] && r4[0] == rs[4];
    assert CoverCount(r4, p) == (if Covers(rs[4], p) then 1 else 0) + CoverCount(r4[1..], p);
    assert CoverCount(r3, p) == (if Covers(rs[3], p) then 1 else 0) + CoverCount(r4, p);
    assert CoverCount(r2, p) == (if Covers(rs[2], p) then 1 else 0) + CoverCount(r3, p);
    assert CoverCount(r1, p) == (if Covers(rs[1], p) then 1 else 0) + CoverCount(r2, p);
  }

  /** A selection on the screen and its four bands paint every pixel of the
      screen exactly once, and nothing outside it. */
  lemma {:induction false} DimBandsPartitionScreen(width: int, height: int, sel: Rect, p: Point)
    requires 0 <= sel.x && 0 <= sel.w && sel.x + sel.w <= width
    requires 0 <= sel.y && 0 <= sel.h && sel.y + sel.h <= height
    ensures CoverCount([sel] + DimBands(width, height, sel), p) ==
      (if 0 <= p.x < width && 0 <= p.y < height then 1 else 0)
  {
    CoverCountFive([sel] + DimBands(width, height, sel), p);
  }

  datatype AppMode = OverlayMode | SettingsMode

  /** The overlay component's state and refs. */
  class OverlayWindow {
    var mode: AppMode
    var imageSrc: Option<string>
    var selection: Option<Rect>
    var isSelecting: bool
    var mousePos: Point
    var showMagnifier: bool
    /** The `startPos` ref. */
    var startPos: Option<Point>

    ghost predicate Valid()
      reads this
    {
      && (isSelecting ==> startPos.Some?)
      && (selection.Some? ==> selection.value.w >= 0 && selection.value.h >= 0)
    }

    constructor ()
      ensures Valid()
      ensures mode == OverlayMode && imageSrc == None && selection == None && !isSelecting
      ensures mousePos == Point(0, 0) && showMagnifier && startPos == None
    {
      mode := OverlayMode;
      imageSrc := None;
      selection := None;
      isSelecting := false;
      mousePos := Point(0, 0);
      showMagnifier := true;
      startPos := None;
    }

    /** `imageSrc` is truthy: present and not the empty string. */
    predicate HasImage()
      reads this
    {
      imageSrc.Some? && imageSrc.value != []
    }

    /** Whether the magnifier is drawn: while a screenshot is shown, it is
        switched on, and no drag is in progress. */
    predicate MagnifierVisible()
      reads this
    {
      HasImage() && showMagnifier && !isSelecting
    }

    /** `handleMouseDown`: only the primary button over a loaded screenshot
        starts a selection, as an empty rectangle at the pointer. */
    method MouseDown(button: int, p: Point)
      requires Valid()
      modifies this
      ensures Valid()
      ensures button != 0 || !old(HasImage()) ==> unchanged(this)
      ensures button == 0 && old(HasImage()) ==>
        && isSelecting && startPos == Some(p) && selection == Some(Rect(p.x, p.y, 0, 0))
        && mode == old(mode) && imageSrc == old(imageSrc) && mousePos == old(mousePos)
        && showMagnifier == old(showMagnifier)
      ensures button == 0 && old(HasImage()) ==> !MagnifierVisible()
    {
      if button != 0 {
        return;
      }
      if !HasImage() {
        return;
      }
      isSelecting := true;
      startPos := Some(p);
      selection := Some(Rect(p.x, p.y, 0, 0));
    }

    /** `handleMouseMove`: the pointer is always tracked; the selection follows
        it only during a drag. */
    method MouseMove(p: Point)
      requires Valid()
      modifies this
      ensures Valid()
      ensures mousePos == p
      ensures selection == if old(isSelecting) && old(startPos).Some? then Some(Normalize(old(startPos).value, p)) else old(selection)
      ensures isSelecting == old(isSelecting) && startPos == old(startPos)
      ensures mode == old(mode) && imageSrc == old(imageSrc) && showMagnifier == old(showMagnifier)
    {
      mousePos := p;
      if !isSelecting || startPos.None? {
        return;
      }
      selection := Some(Normalize(startPos.value, p));
    }

    /** `handleMouseUp`: a selection wider and taller than 5 pixels is sent to
        the main process and the screenshot is dropped; anything smaller is
        discarded. Either way the drag ends. */
    method MouseUp() returns (sent: Option<MainProcess.Bounds>)
      requires Valid()
      modifies this
      ensures Valid()
      ensures !isSelecting && startPos == None
      ensures sent.Some? <==> old(selection).Some? && old(selection).value.w > 5 && old(selection).value.h > 5
      ensures sent.Some? ==>
        && sent.value == MainProcess.Bounds(old(selection).value.x, old(selection).value.y, old(selection).value.w, old(selection).value.h)
        && imageSrc == None && selection == old(selection)
      ensures sent.None? ==> selection == None && imageSrc == old(imageSrc)
      ensures sent.Some? ==> !MagnifierVisible()
      ensures sent.None? ==> (MagnifierVisible() <==> old(HasImage()) && showMagnifier)
      ensures mode == old(mode) && mousePos == old(mousePos) && showMagnifier == old(showMagnifier)
    {
      isSelecting := false;
      match selection {
        case Some(s) =>
          if s.w > 5 && s.h > 5 {
            sent := Some(MainProcess.Bounds(s.x, s.y, s.w, s.h));
            imageSrc := None;
          } else {
            sent := None;
            selection := None;
          }
        case None =>
          sent := None;
          selection := None;
      }
      startPos := None;
    }

    /** `handleContextMenu`: a right click cancels the capture. */
    method ContextMenu() returns (cancelSent: bool)
      requires Valid()
      modifies this
      ensures Valid()
      ensures cancelSent && imageSrc == None && selection == None
      ensures !MagnifierVisible()
      ensures mode == old(mode) && isSelecting == old(isSelecting) && startPos == old(startPos)
      ensures mousePos == old(mousePos) && showMagnifier == old(showMagnifier)
    {
      cancelSent := true;
      imageSrc := None;
      selection := None;
    }

    /** The window's keydown listener: Escape cancels the capture, `m` or `M`
        switches the magnifier. */
    method KeyDown(key: string) returns (cancelSent: bool)
      requires Valid()
      modifies this
      ensures Valid()
      ensures cancelSent <==> key == "Escape"
      ensures imageSrc == (if key == "Escape" then None else old(imageSrc))
      ensures selection == (if key == "Escape" then None else old(selection))
      ensures showMagnifier == (if key == "m" || key == "M" then !old(showMagnifier) else old(showMagnifier))
      ensures mode == old(mode) && isSelecting == old(isSelecting) && startPos == old(startPos)
      ensures mousePos == old(mousePos)
      ensures key == "Escape" ==> !MagnifierVisible()
      ensures (key == "m" || key == "M") && old(HasImage()) && !old(isSelecting) ==>
        MagnifierVisible() == !old(MagnifierVisible())
    {
      cancelSent := false;
      if key == "Escape" {
        cancelSent := true;
        imageSrc := None;
        selection := None;
      }
      if key == "m" || key == "M" {
        showMagnifier := !showMagnifier;
      }
    }

    /** The `show-overlay` message: a new screenshot, no selection, no drag. */
    method ShowOverlay(dataUrl: string)
      requires Valid()
      modifies this
      ensures Valid()
      ensures mode == OverlayMode && imageSrc == Some(dataUrl) && selection == None && !isSelecting
      ensures startPos == old(startPos) && mousePos == old(mousePos) && showMagnifier == old(showMagnifier)
      ensures MagnifierVisible() <==> dataUrl != [] && showMagnifier
    {
      mode := OverlayMode;
      imageSrc := Some(dataUrl);
      selection := None;
      isSelecting := false;
    }

    /** The `show-settings` message: the settings page replaces the overlay. */
    method ShowSettings()
      requires Valid()
      modifies this
      ensures Valid()
      ensures mode == SettingsMode && imageSrc == None
      ensures !MagnifierVisible()
      ensures selection == old(selection) && isSelecting == old(isSelecting) && startPos == old(startPos)
      ensures mousePos == old(mousePos) && showMagnifier == old(showMagnifier)
    {
      mode := SettingsMode;
      imageSrc := None;
    }
  }

  /** A client of the contracts above: a drag from (10, 20) to (4, 90) over a
      fresh screenshot reaches the main process as the rectangle at (4, 20)
      of size 6 by 70, which the main process accepts; two presses of `m`
      leave the magnifier as it was. */
  method DragScenario() returns (sent: Option<MainProcess.Bounds>)
    ensures sent == Some(MainProcess.Bounds(4, 20, 6, 70))
    ensures sent.value.width > 0 && sent.value.height > 0
  {
    var o := new OverlayWindow();
    o.ShowOverlay("data:image/png;base64,AAAA");
    var _ := o.KeyDown("m");
    var _ := o.KeyDown("M");
    assert o.showMagnifier;
    o.MouseDown(0, Point(10, 20));
    o.MouseMove(Point(4, 90));
    sent := o.MouseUp();
    assert !o.HasImage();
  }
}
