/** Monitor geometry: Win32 `RECT`s, `UnionRect`, the union of all monitor
    rectangles that `display_changed` accumulates, and the hidden anchor
    below the virtual desktop. */
module Geometry {

  /** A Win32 `RECT`: right and bottom are exclusive edges. */
  datatype Rect = Rect(left: int, top: int, right: int, bottom: int)

  datatype Point = Point(x: int, y: int)

  /** Distance kept between the bottom edge of the desktop and the anchor. */
  const HiddenMargin: int := 100

  /** The rectangle `SetRectEmpty` produces. */
  const EmptyRect: Rect := Rect(0, 0, 0, 0)

  /** `IsRectEmpty`: no width or no height. */
  predicate IsEmpty(r: Rect) {
    r.right <= r.left || r.bottom <= r.top
  }

  predicate Contains(outer: Rect, inner: Rect) {
    outer.left <= inner.left && outer.top <= inner.top &&
    inner.right <= outer.right && inner.bottom <= outer.bottom
  }

  /** Whether the point lies on the rectangle (right and bottom exclusive). */
  predicate Covers(r: Rect, p: Point) {
    r.left <= p.x < r.right && r.top <= p.y < r.bottom
  }

  function Min(a: int, b: int): int { if a <= b then a else b }
  function Max(a: int, b: int): int { if a <= b then b else a }

  /** Win32 `UnionRect`: an empty operand is ignored; if both are empty the
      result is the empty rectangle; otherwise the smallest rectangle
      containing both. */
  function UnionRect(a: Rect, b: Rect): (r: Rect)
    ensures IsEmpty(r) <==> IsEmpty(a) && IsEmpty(b)
    ensures IsEmpty(r) ==> r == EmptyRect
    ensures !IsEmpty(a) ==> Contains(r, a)
    ensures !IsEmpty(b) ==> Contains(r, b)
    ensures !IsEmpty(r) ==> (r.left == a.left && !IsEmpty(a)) || (r.left == b.left && !IsEmpty(b))
    ensures !IsEmpty(r) ==> (r.top == a.top && !IsEmpty(a)) || (r.top == b.top && !IsEmpty(b))
    ensures !IsEmpty(r) ==> (r.right == a.right && !IsEmpty(a)) || (r.right == b.right && !IsEmpty(b))
    ensures !IsEmpty(r) ==> (r.bottom == a.bottom && !IsEmpty(a)) || (r.bottom == b.bottom && !IsEmpty(b))
  {
    if IsEmpty(a) then
      if IsEmpty(b) then EmptyRect else b
    else if IsEmpty(b) then a
    else Rect(Min(a.left, b.left), Min(a.top, b.top), Max(a.right, b.right), Max(a.bottom, b.bottom))
  }

  /** The accumulator after the enumeration callback has run on each
      monitor in order, starting from the empty rectangle. */
  function UnionAll(monitors: seq<Rect>): Rect
  {
    if monitors == [] then EmptyRect
    else UnionRect(UnionAll(monitors[..|monitors| - 1]), monitors[|monitors| - 1])
  }

  predicate AllEmpty(monitors: seq<Rect>) {
    forall i :: 0 <= i < |monitors| ==> IsEmpty(monitors[i])
  }

  /** `u` is the bounding box of the non-empty monitors: it contains each of
      them, and each of its four edges is the edge of one of them. */
  ghost predicate BoundingBox(monitors: seq<Rect>, u: Rect) {
    && (forall i :: 0 <= i < |monitors| && !IsEmpty(monitors[i]) ==> Contains(u, monitors[i]))
    && (exists i :: 0 <= i < |monitors| && !IsEmpty(monitors[i]) && monitors[i].left == u.left)
    && (exists i :: 0 <= i < |monitors| && !IsEmpty(monitors[i]) && monitors[i].top == u.top)
    && (exists i :: 0 <= i < |monitors| && !IsEmpty(monitors[i]) && monitors[i].right == u.right)
    && (exists i :: 0 <= i < |monitors| && !IsEmpty(monitors[i]) && monitors[i].bottom == u.bottom)
  }

  /** The fold over the monitors yields the empty rectangle exactly when no
      monitor has an area, and otherwise their bounding box. */
  lemma {:induction false} UnionAllIsBoundingBox(monitors: seq<Rect>)
    ensures IsEmpty(UnionAll(monitors)) <==> AllEmpty(monitors)
    ensures AllEmpty(monitors) ==> UnionAll(monitors) == EmptyRect
    ensures !AllEmpty(monitors) ==> BoundingBox(monitors, UnionAll(monitors))
  {
    if monitors != [] {
      var n := |monitors| - 1;
      var prefix, last := monitors[..n], monitors[n];
      UnionAllIsBoundingBox(prefix);
      var p, u := UnionAll(prefix), UnionAll(monitors);
      assert u == UnionRect(p, last);
      assert forall i :: 0 <= i < n ==> prefix[i] == monitors[i];
      if !AllEmpty(monitors) {
        forall i | 0 <= i < |monitors| && !IsEmpty(monitors[i])
          ensures Contains(u, monitors[i])
        {
          if i < n { assert Contains(p, prefix[i]); }
        }
        if IsEmpty(last) {
          assert u == p;
        } else if AllEmpty(prefix) {
          assert u == last;
        } else {
          var il :| 0 <= il < n && !IsEmpty(prefix[il]) && prefix[il].left == p.left;
          var it :| 0 <= it < n && !IsEmpty(prefix[it]) && prefix[it].top == p.top;
          var ir :| 0 <= ir < n && !IsEmpty(prefix[ir]) && prefix[ir].right == p.right;
          var ib :| 0 <= ib < n && !IsEmpty(prefix[ib]) && prefix[ib].bottom == p.bottom;
          var jl := if u.left == last.left then n else il;
          var jt := if u.top == last.top then n else it;
          var jr := if u.right == last.right then n else ir;
          var jb := if u.bottom == last.bottom then n else ib;
          assert !IsEmpty(monitors[jl]) && monitors[jl].left == u.left;
          assert !IsEmpty(monitors[jt]) && monitors[jt].top == u.top;
          assert !IsEmpty(monitors[jr]) && monitors[jr].right == u.right;
          assert !IsEmpty(monitors[jb]) && monitors[jb].bottom == u.bottom;
        }
      }
    }
  }

  /** The enumeration in `display_changed`: `EnumDisplayMonitors` calls the
      callback once per monitor, which unions the monitor rectangle into the
      accumulator in place. The accumulator starts out empty (the source
      leaves it uninitialised; see README). */
  method EnumerateDisplayUnion(monitors: seq<Rect>) returns (display: Rect)
    ensures display == UnionAll(monitors)
    ensures IsEmpty(display) <==> AllEmpty(monitors)
  {
    display := EmptyRect;
    var i := 0;
    while i < |monitors|
      invariant 0 <= i <= |monitors|
      invariant display == UnionAll(monitors[..i])
    {
      assert monitors[..i + 1][..i] == monitors[..i];
      display := UnionRect(display, monitors[i]);
      i := i + 1;
    }
    assert monitors[..i] == monitors;
    UnionAllIsBoundingBox(monitors);
  }

  /** `hidden_x`/`hidden_y`: the left edge of the desktop and a margin below
      its bottom edge. */
  function AnchorBelow(display: Rect): Point
  {
    Point(display.left, display.bottom + HiddenMargin)
  }

  /** The anchor computed from the monitors lies strictly below every
      monitor with an area (at least the margin below its bottom edge), so
      no monitor shows it; its x is the leftmost monitor edge. With no
      monitor to enumerate, it is the origin moved down by the margin. */
  lemma AnchorHidesFromAllMonitors(monitors: seq<Rect>)
    ensures var p := AnchorBelow(UnionAll(monitors));
      && (forall i :: 0 <= i < |monitors| ==> !Covers(monitors[i], p))
      && (forall i :: 0 <= i < |monitors| && !IsEmpty(monitors[i]) ==>
            p.y >= monitors[i].bottom + HiddenMargin && p.x <= monitors[i].left)
      && (!AllEmpty(monitors) ==> exists i :: 0 <= i < |monitors| && !IsEmpty(monitors[i]) && monitors[i].left == p.x)
      && (AllEmpty(monitors) ==> p == Point(0, HiddenMargin))
  {
    UnionAllIsBoundingBox(monitors);
    var u := UnionAll(monitors);
    if !AllEmpty(monitors) {
      var i :| 0 <= i < |monitors| && !IsEmpty(monitors[i]) && monitors[i].left == u.left;
      assert monitors[i].left == AnchorBelow(u).x;
    }
  }

  /** Two 1920x1080 monitors side by side give the anchor (0, 1180). */
  lemma SideBySideAnchor()
    ensures AnchorBelow(UnionAll([Rect(0, 0, 1920, 1080), Rect(1920, 0, 3840, 1080)])) == Point(0, 1180)
  {
  }
}
