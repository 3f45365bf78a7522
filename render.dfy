/**
 * Screen geometry of the edge layer: where a node's ports are drawn, and the
 * curve of each edge and of the connection preview. Every anchor goes
 * through the single world-to-screen transform of the viewport.
 */
module Render {
  import opened Collections
  import opened Geometry
  import opened Graph

  const NodeWidth: real := 320.0
  const NodeHeight: real := 440.0
  /** Ports are vertically centred on the node. */
  const PortY: real := NodeHeight / 2.0

  /** The world point of a port: the right edge for the output port, the
      left edge for the input port. */
  function PortAnchor(n: Node, isOutput: bool): Point {
    Point(if isOutput then n.position.x + NodeWidth else n.position.x, n.position.y + PortY)
  }

  /** Screen position of the port of the first node with id `id`; the
      origin when no node has that id. */
  function PortPos(nodes: seq<Node>, id: string, isOutput: bool, offset: Point, zoom: real): (p: Point)
    ensures FindNode(nodes, id).None? ==> p == Point(0.0, 0.0)
    ensures FindNode(nodes, id).Some? ==>
              p == WorldToScreen(PortAnchor(FindNode(nodes, id).value, isOutput), offset, zoom)
  {
    var found := FindNode(nodes, id);
    if found.None? then Point(0.0, 0.0)
    else WorldToScreen(PortAnchor(found.value, isOutput), offset, zoom)
  }

  /** A node just added by the sidebar under an id that no node has yet is
      drawn with its input port at screen (200, 200 + 220 zoom) and its
      output port 320 zoom to the right of that. */
  lemma {:induction false} SpawnedNodePorts(nodes: seq<Node>, id: string, kind: NodeType, offset: Point, zoom: real)
    requires zoom != 0.0
    requires FindNode(nodes, id).None?
    ensures var added := nodes + [NewNode(id, kind, SpawnPosition(offset, zoom))];
            PortPos(added, id, false, offset, zoom) == Point(200.0, 200.0 + PortY * zoom) &&
            PortPos(added, id, true, offset, zoom) == Point(200.0 + NodeWidth * zoom, 200.0 + PortY * zoom)
  {
    var n := NewNode(id, kind, SpawnPosition(offset, zoom));
    FindFirstConcat(nodes, [n], HasId(id));
    assert FindNode(nodes + [n], id) == Some(n);
    var p := n.position;
    assert p.x * zoom + offset.x == 200.0 && p.y * zoom + offset.y == 200.0;
    assert (p.x + NodeWidth) * zoom + offset.x == 200.0 + NodeWidth * zoom;
    assert (p.y + PortY) * zoom + offset.y == 200.0 + PortY * zoom;
  }

  /** Deleting a node leaves its edges in place; their ends at the deleted
      node are then drawn at the screen origin. */
  lemma DeletedEndpointAtOrigin(nodes: seq<Node>, id: string, isOutput: bool, offset: Point, zoom: real)
    ensures PortPos(RemoveNode(nodes, id), id, isOutput, offset, zoom) == Point(0.0, 0.0)
  {
    RemoveNodeExact(nodes, id);
  }

  /** Panning shifts every drawn port by the pointer delta. */
  lemma PanShiftsPorts(nodes: seq<Node>, id: string, isOutput: bool, startPos: Point,
                       startX: real, startY: real, clientX: real, clientY: real, zoom: real)
    requires FindNode(nodes, id).Some?
    ensures var before := PortPos(nodes, id, isOutput, startPos, zoom);
            PortPos(nodes, id, isOutput, PannedOffset(startPos, startX, startY, clientX, clientY), zoom)
              == Point(before.x + (clientX - startX), before.y + (clientY - startY))
  {
  }

  /** The curve drawn for an edge, from its source's output port to its
      target's input port. */
  function EdgeCurve(nodes: seq<Node>, e: Edge, offset: Point, zoom: real): Curve {
    var s := PortPos(nodes, e.from, true, offset, zoom);
    var t := PortPos(nodes, e.to, false, offset, zoom);
    BezierCurve(s.x, s.y, t.x, t.y)
  }

  /** An edge between two resolvable nodes runs from the drawn output anchor
      of its source to the drawn input anchor of its target, leaving and
      entering horizontally. */
  lemma EdgeCurveAnchors(nodes: seq<Node>, e: Edge, offset: Point, zoom: real, src: Node, dst: Node)
    requires FindNode(nodes, e.from) == Some(src) && FindNode(nodes, e.to) == Some(dst)
    ensures var c := EdgeCurve(nodes, e, offset, zoom);
            c.start == WorldToScreen(PortAnchor(src, true), offset, zoom) &&
            c.end == WorldToScreen(PortAnchor(dst, false), offset, zoom) &&
            c.c1.y == c.start.y && c.c2.y == c.end.y
  {
  }

  /** The dashed preview while a connection is being drawn: from the source's
      output port to the pointer. */
  function PreviewCurve(nodes: seq<Node>, connectingFrom: Option<string>, mouse: Point,
                        offset: Point, zoom: real): (r: Option<Curve>)
    ensures r.Some? <==> Truthy(connectingFrom)
    ensures r.Some? ==> r.value.start == PortPos(nodes, connectingFrom.value, true, offset, zoom) &&
                        r.value.end == mouse
  {
    if Truthy(connectingFrom) then
      var s := PortPos(nodes, connectingFrom.value, true, offset, zoom);
      Some(BezierCurve(s.x, s.y, mouse.x, mouse.y))
    else None
  }
}
