/**
 * The canvas page as one object: the node and edge store, the viewport, the
 * active tool, the connection in progress, the pointer position used by the
 * preview curve, and the drag record that the pointer handlers read and
 * rewrite. Each handler is one method; a pointer move is applied at once
 * (the frame coalescing of the page is not modelled).
 */
module Canvas {
  import opened Collections
  import opened Geometry
  import opened Graph
  import opened Render
  import opened Run

  datatype Tool = Select | Pan

  /** The gesture in progress: none, dragging a node, or panning. */
  datatype DragKind = DragNone | DragNode | DragPan

  /** The drag record: the gesture, the dragged node's id, the pointer's
      client position at the press, and the position being moved (a node's
      world position or the pan offset) as it was at the press. */
  datatype DragRef = DragRef(kind: DragKind, targetId: Option<string>, startX: real, startY: real, startPos: Point)

  /** The mouse button number of the middle button. */
  const MiddleButton: int := 1

  const IdleDrag: DragRef := DragRef(DragNone, None, 0.0, 0.0, Point(0.0, 0.0))

  /** The two nodes the page starts with once mounted: an image node and a
      video node, each with a prompt, labelled as the sidebar would label
      them, with no output and not loading. */
  function InitialNodes(): (r: seq<Node>)
    ensures |r| == 2 && r[0].id != r[1].id
    ensures r[0].kind == ImageGen && r[1].kind == VideoGen
    ensures forall i :: 0 <= i < |r| ==>
              && r[i].data.title == Label(r[i].kind) && r[i].data.kind == r[i].kind
              && r[i].data.output.None? && !r[i].data.loading && r[i].data.prompt != ""
  {
    [
      Node("node-1", ImageGen, Point(100.0, 150.0),
           NodeData("图像生成", ImageGen, None, "赛博朋克风格的雨夜街头", false)),
      Node("node-2", VideoGen, Point(600.0, 150.0),
           NodeData("视频合成", VideoGen, None, "镜头缓慢推近", false))
    ]
  }

  class CanvasPage {
    var nodes: seq<Node>
    var edges: seq<Edge>
    var viewOffset: Point
    var zoom: real
    var activeTool: Tool
    var connectingFromId: Option<string>
    var mousePos: Point
    var drag: DragRef

    /** Zoom stays within its bounds, and the edges have single inputs and
        no self-loops. */
    ghost predicate Valid()
      reads this
    {
      ZoomInRange(zoom) && WellFormed(edges)
    }

    constructor ()
      ensures Valid()
      ensures nodes == InitialNodes() && edges == []
      ensures viewOffset == Point(0.0, 0.0) && zoom == 1.0 && activeTool == Select
      ensures connectingFromId == None && mousePos == Point(0.0, 0.0) && drag == IdleDrag
    {
      nodes := InitialNodes();
      edges := [];
      viewOffset := Point(0.0, 0.0);
      zoom := 1.0;
      activeTool := Select;
      connectingFromId := None;
      mousePos := Point(0.0, 0.0);
      drag := IdleDrag;
    }

    /** A sidebar click: one node of that type is appended at the world point
        drawn at screen (200, 200). */
    method AddNode(kind: NodeType, freshId: string)
      requires Valid()
      modifies this`nodes
      ensures Valid()
      ensures nodes == old(nodes) + [NewNode(freshId, kind, SpawnPosition(viewOffset, zoom))]
    {
      var position := Point((200.0 - viewOffset.x) / zoom, (200.0 - viewOffset.y) / zoom);
      nodes := nodes + [NewNode(freshId, kind, position)];
    }

    /** The delete button: every node with that id goes; edges stay. */
    method DeleteNode(id: string)
      requires Valid()
      modifies this`nodes
      ensures Valid()
      ensures nodes == RemoveNode(old(nodes), id)
    {
      nodes := RemoveNode(nodes, id);
    }

    /** The prompt editor: the prompt of the nodes with that id is replaced. */
    method EditPrompt(id: string, value: string)
      requires Valid()
      modifies this`nodes
      ensures Valid()
      ensures nodes == UpdateNode(old(nodes), id, WithPrompt(value))
    {
      nodes := UpdateNode(nodes, id, WithPrompt(value));
    }

    /** Pressing a node's output port starts a connection from it, whatever
        the tool. */
    method StartConnect(id: string)
      requires Valid()
      modifies this`connectingFromId
      ensures Valid()
      ensures connectingFromId == Some(id)
    {
      connectingFromId := Some(id);
    }

    /** Releasing on a node's input port: the connect policy is applied to
        the edges and the connection in progress always ends. The event stops
        here, so the drag record is left as it was. */
    method HandleConnect(toId: string, freshId: string)
      requires Valid()
      modifies this`edges, this`connectingFromId
      ensures Valid()
      ensures edges == Connect(old(edges), old(connectingFromId), toId, freshId)
      ensures connectingFromId == None
    {
      ConnectPreservesWellFormed(edges, connectingFromId, toId, freshId);
      if Truthy(connectingFromId) && connectingFromId.value != toId {
        var from := connectingFromId.value;
        if !HasEdge(edges, from, toId) {
          edges := Filter(edges, NotInto(toId)) + [Edge(freshId, from, toId)];
        }
      }
      connectingFromId := None;
    }

    /** A wheel event over the canvas, at any point of a gesture. */
    method Wheel(deltaY: real)
      requires Valid()
      modifies this`zoom
      ensures Valid()
      ensures zoom == WheelZoom(old(zoom), deltaY)
    {
      zoom := Min(Max(zoom + deltaY * WheelFactor, MinZoom), MaxZoom);
    }

    /** The toolbar's reset button. */
    method ResetZoom()
      requires Valid()
      modifies this`zoom
      ensures Valid()
      ensures zoom == 1.0
    {
      zoom := 1.0;
    }

    /** The toolbar's hand and pointer buttons. */
    method SetTool(tool: Tool)
      requires Valid()
      modifies this`activeTool
      ensures Valid()
      ensures activeTool == tool
    {
      activeTool := tool;
    }

    /** A press on a node body. With the pan tool or the middle button it is
        swallowed: no node drag starts, and it does not reach the canvas so
        no pan starts either. Otherwise a node drag of that node starts from
        a copy of its position. */
    method OnNodeDown(button: int, clientX: real, clientY: real, node: Node)
      requires Valid()
      modifies this`drag
      ensures Valid()
      ensures activeTool == Pan || button == MiddleButton ==> drag == old(drag)
      ensures activeTool != Pan && button != MiddleButton ==>
                drag == DragRef(DragNode, Some(node.id), clientX, clientY, node.position)
    {
      if activeTool == Pan || button == MiddleButton {
        return;
      }
      drag := DragRef(DragNode, Some(node.id), clientX, clientY, node.position);
    }

    /** A press on empty canvas starts a pan from the current offset, but only
        with the pan tool or the middle button. */
    method OnCanvasDown(button: int, clientX: real, clientY: real)
      requires Valid()
      modifies this`drag
      ensures Valid()
      ensures activeTool == Pan || button == MiddleButton ==>
                drag == DragRef(DragPan, None, clientX, clientY, viewOffset)
      ensures activeTool != Pan && button != MiddleButton ==> drag == old(drag)
    {
      if activeTool == Pan || button == MiddleButton {
        drag := DragRef(DragPan, None, clientX, clientY, viewOffset);
      }
    }

    /** A pointer move at client position (clientX, clientY), with `rect` the
        canvas' top-left corner (absent when the canvas is not mounted). The
        preview pointer follows while a connection is drawn; a pan sets the
        offset to its start plus the raw delta; a node drag moves only the
        dragged id's nodes, by the delta divided by the zoom. */
    method OnMouseMove(clientX: real, clientY: real, rect: Option<Point>)
      requires Valid()
      modifies this`mousePos, this`viewOffset, this`nodes
      ensures Valid()
      ensures mousePos ==
                if rect.Some? && Truthy(connectingFromId)
                then Point(clientX - rect.value.x, clientY - rect.value.y)
                else old(mousePos)
      ensures viewOffset ==
                if rect.Some? && drag.kind == DragPan
                then PannedOffset(drag.startPos, drag.startX, drag.startY, clientX, clientY)
                else old(viewOffset)
      ensures nodes ==
                if rect.Some? && drag.kind == DragNode && Truthy(drag.targetId)
                then UpdateNode(old(nodes), drag.targetId.value,
                                MoveTo(DraggedPosition(drag.startPos, drag.startX, drag.startY, clientX, clientY, zoom)))
                else old(nodes)
    {
      if rect.None? {
        return;
      }
      if Truthy(connectingFromId) {
        mousePos := Point(clientX - rect.value.x, clientY - rect.value.y);
      }
      if drag.kind == DragNone {
        return;
      }
      if drag.kind == DragPan {
        viewOffset := PannedOffset(drag.startPos, drag.startX, drag.startY, clientX, clientY);
      } else if drag.kind == DragNode && Truthy(drag.targetId) {
        var target := DraggedPosition(drag.startPos, drag.startX, drag.startY, clientX, clientY, zoom);
        nodes := UpdateNode(nodes, drag.targetId.value, MoveTo(target));
      }
    }

    /** The window's release listener: it ends the gesture and any
        connection. A release on an input port never reaches it, because the
        port's handler stops the event's propagation (see `HandleConnect`). */
    method OnMouseUp()
      requires Valid()
      modifies this`drag, this`connectingFromId
      ensures Valid()
      ensures drag == old(drag).(kind := DragNone, targetId := None)
      ensures connectingFromId == None
    {
      drag := drag.(kind := DragNone);
      drag := drag.(targetId := None);
      connectingFromId := None;
    }

    /** The run button, up to the awaited call: returns what is sent out
        (nothing, the file picker, or a generation) and raises the loading
        flag when a generation or pause starts. */
    method StartRun(id: string) returns (req: RunRequest)
      requires Valid()
      modifies this`nodes
      ensures Valid()
      ensures req == Plan(old(nodes), edges, id)
      ensures nodes == Begin(old(nodes), id, req)
    {
      req := Plan(nodes, edges, id);
      if req.Missing? || req.PickFile? {
        return;
      }
      nodes := UpdateNode(nodes, id, SetLoading(true));
    }

    /** The rest of the run once the awaited call has ended with `outcome`. */
    method FinishRun(id: string, req: RunRequest, outcome: Outcome)
      requires Valid()
      modifies this`nodes
      ensures Valid()
      ensures nodes == Finish(old(nodes), id, req, outcome)
    {
      if Starts(req) {
        nodes := UpdateNode(nodes, id, Settle(req, outcome));
      }
    }

    /** A run whose awaited call ends before any other event. */
    method RunNode(id: string, outcome: Outcome) returns (req: RunRequest)
      requires Valid()
      modifies this`nodes
      ensures Valid()
      ensures req == Plan(old(nodes), edges, id)
      ensures nodes == Finish(Begin(old(nodes), id, req), id, req, outcome)
    {
      req := StartRun(id);
      FinishRun(id, req, outcome);
    }
  }
}
