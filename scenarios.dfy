/**
 * Client sequences of page events, proved from the handlers' contracts
 * alone: an abandoned connection, an input replaced by a second connection,
 * and a video node fed by an image node's output.
 */
module Scenarios {
  import opened Collections
  import opened Geometry
  import opened Graph
  import opened Run
  import opened Canvas

  /** Press an output port, move, release over empty canvas: no edge is
      made, nothing moves, and the page is idle again. */
  method AbandonedConnection(page: CanvasPage, sourceId: string, clientX: real, clientY: real, rect: Option<Point>)
    requires page.Valid() && page.drag.kind == DragNone
    modifies page
    ensures page.Valid()
    ensures page.edges == old(page.edges) && page.nodes == old(page.nodes)
    ensures page.viewOffset == old(page.viewOffset) && page.zoom == old(page.zoom)
    ensures page.drag.kind == DragNone && page.drag.targetId == None && page.connectingFromId == None
  {
    page.StartConnect(sourceId);
    page.OnMouseMove(clientX, clientY, rect);
    page.OnMouseUp();
  }

  /** Connect a to b, then c to b: afterwards exactly one edge ends at b, and
      it comes from c. */
  method ReplacedInput(page: CanvasPage, a: string, b: string, c: string)
    requires page.Valid()
    requires a != "" && c != "" && a != b && c != b && a != c
    modifies page
    ensures page.Valid()
    ensures Filter(page.edges, Into(b)) == [Edge("e-2", c, b)]
  {
    page.StartConnect(a);
    page.HandleConnect(b, "e-1");
    ConnectSingleInput(old(page.edges), Some(a), b, "e-1");
    var afterFirst := page.edges;
    assert Filter(afterFirst, Into(b))[0].from == a;
    assert !HasEdge(afterFirst, c, b) by {
      if HasEdge(afterFirst, c, b) {
        var k :| 0 <= k < |afterFirst| && afterFirst[k].from == c && afterFirst[k].to == b;
        SingleInputInto(afterFirst, k);
      }
    }
    page.StartConnect(c);
    page.HandleConnect(b, "e-2");
    ConnectSingleInput(afterFirst, Some(c), b, "e-2");
  }

  /** A pan released over an input port: the port's handler stops the
      event, so the window's release listener does not run and the pan goes
      on following the pointer. */
  method PortReleaseKeepsPanning(page: CanvasPage, toId: string, freshId: string,
                                 clientX: real, clientY: real, rect: Point)
    requires page.Valid() && page.drag.kind == DragPan
    modifies page
    ensures page.Valid()
    ensures page.drag == old(page.drag) && page.connectingFromId == None
    ensures page.viewOffset ==
              PannedOffset(old(page.drag).startPos, old(page.drag).startX, old(page.drag).startY, clientX, clientY)
  {
    page.HandleConnect(toId, freshId);
    page.OnMouseMove(clientX, clientY, Some(rect));
  }

  /** On a fresh page, add an image node and a video node, wire the image
      into the video, run the image node with a generation that resolves
      with "img://1", then run the video node: the video generation is sent
      "img://1" as its source, with the default prompt. */
  method UpstreamOutputReachesVideo() returns (req: RunRequest)
    ensures req == VideoJob("Dynamic", Some("img://1"))
  {
    var page := new CanvasPage();
    page.AddNode(ImageGen, "node-a");
    page.AddNode(VideoGen, "node-b");
    page.StartConnect("node-a");
    page.HandleConnect("node-b", "e-1");
    assert page.edges == [Edge("e-1", "node-a", "node-b")];
    ghost var added := page.nodes;
    assert |added| == 4 && added[2].id == "node-a" && added[3].id == "node-b";
    assert added[0].id == "node-1" && added[1].id == "node-2";
    FindNodeAt(added, "node-a", 2);
    FindNodeAt(added, "node-b", 3);
    ImageOutputFeedsVideo(added, page.edges, 0, "img://1");
    var imageReq := page.RunNode("node-a", Resolved(Some("img://1")));
    req := page.StartRun("node-b");
  }
}
