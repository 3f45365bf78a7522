/**
 * Viewport arithmetic of the canvas: the pan offset and zoom factor, the
 * world/screen transform, the wheel-zoom clamp, the screen-to-world
 * conversion of drag and pan gestures, and the cubic bezier of an edge.
 * Coordinates are exact reals.
 */
module Geometry {

  datatype Point = Point(x: real, y: real)

  const MinZoom: real := 0.15
  const MaxZoom: real := 2.5
  /** Zoom change per unit of wheel `deltaY` (scrolling down zooms out). */
  const WheelFactor: real := -0.001
  /** Screen anchor, from the canvas' top-left corner, of a newly added node. */
  const SpawnScreen: Point := Point(200.0, 200.0)
  /** Horizontal reach of a bezier control point, relative to the gap. */
  const CurveTension: real := 0.45

  predicate ZoomInRange(zoom: real) {
    MinZoom <= zoom <= MaxZoom
  }

  function Min(a: real, b: real): real { if a <= b then a else b }
  function Max(a: real, b: real): real { if a >= b then a else b }
  function Abs(a: real): real { if a < 0.0 then -a else a }

  /** The zoom after one wheel event: `prev + deltaY * -0.001`, clamped. */
  function WheelZoom(prev: real, deltaY: real): (z: real)
    ensures ZoomInRange(z)
    ensures ZoomInRange(prev + deltaY * WheelFactor) ==> z == prev + deltaY * WheelFactor
    ensures prev + deltaY * WheelFactor < MinZoom ==> z == MinZoom
    ensures prev + deltaY * WheelFactor > MaxZoom ==> z == MaxZoom
  {
    Min(Max(prev + deltaY * WheelFactor, MinZoom), MaxZoom)
  }

  /** Where world point `p` is drawn: `p * zoom + offset`. */
  function WorldToScreen(p: Point, offset: Point, zoom: real): Point {
    Point(p.x * zoom + offset.x, p.y * zoom + offset.y)
  }

  /** The world point drawn at screen point `p`: `(p - offset) / zoom`. */
  function ScreenToWorld(p: Point, offset: Point, zoom: real): Point
    requires zoom != 0.0
  {
    Point((p.x - offset.x) / zoom, (p.y - offset.y) / zoom)
  }

  lemma ScreenWorldScreen(p: Point, offset: Point, zoom: real)
    requires zoom != 0.0
    ensures WorldToScreen(ScreenToWorld(p, offset, zoom), offset, zoom) == p
  {
  }

  lemma WorldScreenWorld(p: Point, offset: Point, zoom: real)
    requires zoom != 0.0
    ensures ScreenToWorld(WorldToScreen(p, offset, zoom), offset, zoom) == p
  {
  }

  /** World position of a node added by the sidebar: the spawn anchor mapped
      back through the current view, so it is always drawn at (200, 200). */
  function SpawnPosition(offset: Point, zoom: real): (p: Point)
    requires zoom != 0.0
    ensures WorldToScreen(p, offset, zoom) == SpawnScreen
  {
    ScreenWorldScreen(SpawnScreen, offset, zoom);
    Point((200.0 - offset.x) / zoom, (200.0 - offset.y) / zoom)
  }

  /** New world position of a dragged node: the position it had when the
      press began, plus the pointer's screen delta divided by the zoom. */
  function DraggedPosition(startPos: Point, startX: real, startY: real,
                           clientX: real, clientY: real, zoom: real): (p: Point)
    requires zoom != 0.0
    ensures (p.x - startPos.x) * zoom == clientX - startX
    ensures (p.y - startPos.y) * zoom == clientY - startY
  {
    Point(startPos.x + (clientX - startX) / zoom, startPos.y + (clientY - startY) / zoom)
  }

  /** A dragged node follows the pointer exactly on screen, whatever the pan
      offset: its drawn position moves by the pointer's screen delta. */
  lemma DragFollowsPointer(startPos: Point, startX: real, startY: real,
                           clientX: real, clientY: real, offset: Point, zoom: real)
    requires zoom != 0.0
    ensures var s := WorldToScreen(startPos, offset, zoom);
            WorldToScreen(DraggedPosition(startPos, startX, startY, clientX, clientY, zoom), offset, zoom)
              == Point(s.x + (clientX - startX), s.y + (clientY - startY))
  {
    var p := DraggedPosition(startPos, startX, startY, clientX, clientY, zoom);
    assert p.x * zoom == startPos.x * zoom + (p.x - startPos.x) * zoom;
    assert p.y * zoom == startPos.y * zoom + (p.y - startPos.y) * zoom;
  }

  /** New pan offset: the offset when the press began plus the unscaled
      pointer delta. */
  function PannedOffset(startPos: Point, startX: real, startY: real,
                        clientX: real, clientY: real): Point
  {
    Point(startPos.x + (clientX - startX), startPos.y + (clientY - startY))
  }

  /** Panning moves every world point's drawn position by the pointer delta,
      at any zoom. */
  lemma PanShiftsScreen(p: Point, startPos: Point, startX: real, startY: real,
                        clientX: real, clientY: real, zoom: real)
    ensures var s := WorldToScreen(p, startPos, zoom);
            WorldToScreen(p, PannedOffset(startPos, startX, startY, clientX, clientY), zoom)
              == Point(s.x + (clientX - startX), s.y + (clientY - startY))
  {
  }

  /** A cubic bezier: start point, two control points, end point. */
  datatype Curve = Curve(start: Point, c1: Point, c2: Point, end: Point)

  /** The S-curve of an edge from (x1, y1) to (x2, y2): both control points
      are pushed horizontally, outward from the anchors, by 0.45 of the gap. */
  function BezierCurve(x1: real, y1: real, x2: real, y2: real): (c: Curve)
    ensures c.start == Point(x1, y1) && c.end == Point(x2, y2)
    ensures c.c1.y == y1 && c.c2.y == y2
    ensures c.c1.x >= x1 && c.c2.x <= x2
    ensures c.c1.x - x1 == x2 - c.c2.x == CurveTension * Abs(x2 - x1)
  {
    var dx := Abs(x2 - x1) * CurveTension;
    Curve(Point(x1, y1), Point(x1 + dx, y1), Point(x2 - dx, y2), Point(x2, y2))
  }

  /** The curve is point-symmetric about the midpoint of its anchors. */
  lemma CurveIsSymmetric(x1: real, y1: real, x2: real, y2: real)
    ensures var c := BezierCurve(x1, y1, x2, y2);
            c.c1.x + c.c2.x == x1 + x2 && c.c1.y + c.c2.y == y1 + y2
  {
  }

  /** With vertically aligned anchors the control points fall on the anchors,
      and the curve is a straight segment. */
  lemma CurveFlattensWhenAligned(x: real, y1: real, y2: real)
    ensures var c := BezierCurve(x, y1, x, y2);
            c.c1 == c.start && c.c2 == c.end
  {
  }
}
