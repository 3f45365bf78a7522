# Canvas engine of the node-graph editor, in Dafny

This project models the interaction engine of the editor's canvas page
(`CanvasPage.tsx`). Users place typed nodes on a pannable, zoomable canvas,
wire them with drag-drawn connections, and run them, so that a node can
generate media from an upstream node's output. The model covers:

- **Graph store** (`graph.dfy`): nodes and edges as sequences. Operations: append a node, delete by id, per-node updates, and the connect policy. Connect rejects self-loops and already-present pairs; otherwise it drops every edge into the target and appends the new one.
- **Viewport** (`geometry.dfy`): the pan offset and zoom factor; the world-to-screen transform and its inverse; the clamped wheel zoom; how a gesture's pointer delta becomes a node position or a pan offset; and the cubic bezier of an edge. Coordinates are exact reals.
- **Edge layer** (`render.dfy`): screen positions of a node's ports, the curve of each edge, and the dashed preview curve.
- **Running a node** (`run.dfy`):
  - what is sent to the generation service, including the upstream output a video node receives;
  - the loading flag raised before the awaited call;
  - the settlement once it ends.
- **The page object** (`canvas.dfy`): class `CanvasPage` holds all mutable state, with one method per event handler:
  - sidebar add, delete, prompt edit;
  - output-port press and input-port release;
  - wheel, zoom reset, tool buttons;
  - node press, canvas press, pointer move, release;
  - run.
- **Client sequences** (`scenarios.dfy`): an abandoned connection, an input replaced by a second connection, a pan that survives a release on an input port, and an image node's output feeding a video node. Each is proved from the handlers' contracts alone.

`Collections` (`collections.dfy`) gives `filter`, `find` and the
`map(n => n.id === id ? f(n) : n)` pattern as functions, with their lemmas.

The class invariant `CanvasPage.Valid()` says two things:
- the zoom stays in [0.15, 2.5];
- at most one edge ends at any node, and no edge is a self-loop.

Every handler preserves it.

Behaviour of the code that a reader might not expect, and that the model keeps:
- Deleting a node does not remove its edges (`CanvasPage.tsx:423`). An edge end whose node is gone is drawn at the screen origin, not skipped (`CanvasPage.tsx:259`).
- A press on a node body with the pan tool, or with the middle button, does nothing. The handler stops propagation before returning, so no pan starts either (`CanvasPage.tsx:225-227`).
- A video node receives the output of the source of the *first* edge into it (`CanvasPage.tsx:155-156`). Under the single-input invariant this is the only such edge (`Run.VideoUsesConnectedOutput`).
- A failed run keeps whatever output the node had before; it does not unset it (`CanvasPage.tsx:164`).
- An image generation that resolves without an image part resolves to `undefined`, and that value overwrites the node's output. `Outcome.Resolved` therefore carries an `Option`.
- "Connection in progress" and "drag target present" are JavaScript truthiness tests on a `string | null`. They are modelled exactly: present and non-empty (`Graph.Truthy`).
- Node ids are not unique. Every per-node update touches all nodes with the id, and every lookup takes the first.
- A release on an input port stops the event's propagation (`CanvasPage.tsx:267`). The window's release listener (`CanvasPage.tsx:207-214`) therefore never sees it. A pan, or a node drag started by pressing the input port's node, goes on after such a release. `HandleConnect` leaves the drag record alone, and `Scenarios.PortReleaseKeepsPanning` shows the pan continuing.

Node and edge ids come from `Date.now()` in the source. Here the caller passes them in (`freshId`). The generation service is an `Outcome` argument. The canvas' bounding box is an argument of the move handler.

## Model

| member | source | states |
|---|---|---|
| Collections.Filter | CanvasPage.tsx:271 | the result is no longer than the input, holds only elements that pass, and every passing element of the input is in it |
| Collections.FilterConcat | CanvasPage.tsx:271 | filtering distributes over concatenation, so relative order is kept |
| Collections.FilterKeepsAll | CanvasPage.tsx:271 | a filter every element passes is the identity |
| Collections.FilterDropsAll | CanvasPage.tsx:271 | a filter no element passes gives the empty sequence |
| Collections.FilterNested | CanvasPage.tsx:271 | a finer filter applied after a coarser one sees exactly what it would see on the original sequence |
| Collections.FindFirst | CanvasPage.tsx:146 | `find` gives nothing exactly when no element matches; otherwise it gives a matching element with no match before it |
| Collections.FindFirstConcat | CanvasPage.tsx:258 | `find` on a concatenation looks in the second part only when the first part has no match |
| Collections.MapWhere | CanvasPage.tsx:198-202 | same length; matching elements are replaced by their image and all others stay in place |
| Geometry.WheelZoom | CanvasPage.tsx:355 | the new zoom is always in [0.15, 2.5]; it equals `prev - 0.001*deltaY` when that is in range, and the nearer bound otherwise |
| Geometry.WorldToScreen | CanvasPage.tsx:261-262 | `world * zoom + offset`; specified by the two round trips below and by `Geometry.PanShiftsScreen` and `DragFollowsPointer` |
| Geometry.ScreenToWorld | CanvasPage.tsx:132-133 | `(screen - offset) / zoom` for a non-zero zoom; specified by the two round trips below |
| Geometry.ScreenWorldScreen | CanvasPage.tsx:131-134 | mapping a screen point to the world and back gives the same screen point, for any offset and non-zero zoom |
| Geometry.WorldScreenWorld | CanvasPage.tsx:261-262 | mapping a world point to the screen and back gives the same world point |
| Geometry.SpawnPosition | CanvasPage.tsx:131-134 | a sidebar node's world position `((200-off)/zoom)` is drawn at screen (200, 200) under the current view |
| Geometry.DraggedPosition | CanvasPage.tsx:185-200 | the dragged position's displacement from its press-time position, times the zoom, is the pointer's screen delta |
| Geometry.DragFollowsPointer | CanvasPage.tsx:194-200 | under any pan offset, the dragged node's drawn position moves by exactly the pointer delta |
| Geometry.PannedOffset | CanvasPage.tsx:188-192 | the new pan offset; specified by `Geometry.PanShiftsScreen` and `Render.PanShiftsPorts` |
| Geometry.PanShiftsScreen | CanvasPage.tsx:188-192 | the unscaled pan delta shifts every world point's drawn position by the pointer delta, at any zoom |
| Geometry.BezierCurve | CanvasPage.tsx:252-255 | the curve starts and ends at the anchors, leaves and enters horizontally, and both control points are pushed outward by `0.45*abs(x2-x1)` |
| Geometry.CurveIsSymmetric | CanvasPage.tsx:252-255 | the control points are point-symmetric about the anchors' midpoint |
| Geometry.CurveFlattensWhenAligned | CanvasPage.tsx:252-255 | with vertically aligned anchors the control points fall on the anchors, giving a straight segment |
| Graph.Label | CanvasPage.tsx:119-126 | the label table of the sidebar; `Graph.LabelIdentifiesType` proves no two types share a label |
| Graph.LabelIdentifiesType | CanvasPage.tsx:119-126 | two types have the same label exactly when they are the same type |
| Graph.FindNodeAt | CanvasPage.tsx:146 | the node found for an id is the first one that has it |
| Graph.NewNode | CanvasPage.tsx:117-141 | a new node has the given id, type and position, the table's label for its type, no output, an empty prompt and loading off |
| Graph.RemoveNode | CanvasPage.tsx:423 | the delete filter; its meaning is stated by `Graph.RemoveNodeExact` and `Render.DeletedEndpointAtOrigin` |
| Graph.RemoveNodeExact | CanvasPage.tsx:423 | delete keeps no node with the id, keeps every other node in order, and afterwards the id resolves to nothing |
| Graph.UpdateNode | CanvasPage.tsx:442 | a per-node update changes exactly the nodes with the id, keeps the length, and leaves every other node as it was |
| Graph.UpdateNodeKeepsIds | CanvasPage.tsx:149 | an id-preserving update leaves every other id resolving to the same node, and makes the updated id resolve to the update of its old node |
| Graph.Connect | CanvasPage.tsx:266-275 | the connect policy on the edge list; specified by `Graph.ConnectCases`, `ConnectSingleInput`, `ConnectKeepsOtherTargets`, `ConnectPreservesWellFormed` and `ConnectIdempotent` |
| Graph.ConnectCases | CanvasPage.tsx:266-275 | with no connection in progress, a self-loop, or an already-present pair, the edges are unchanged; otherwise they are the edges not into the target followed by the new edge |
| Graph.SingleInputInto | CanvasPage.tsx:270 | with single inputs, the edges into a member's target are exactly that member |
| Graph.ConnectSingleInput | CanvasPage.tsx:269-272 | after an accepted or duplicate release, exactly one edge ends at the target and it comes from the connection's source; when the pair was new, it is the new edge |
| Graph.ConnectKeepsOtherTargets | CanvasPage.tsx:271 | the edges into any other target are the same edges, in the same order, as before |
| Graph.FilterSingleInput | CanvasPage.tsx:271 | filtering an edge list keeps single inputs |
| Graph.ConnectPreservesWellFormed | CanvasPage.tsx:268-272 | connect preserves "at most one edge per target" and "no self-loops" |
| Graph.ConnectIdempotent | CanvasPage.tsx:270 | releasing the same connection twice adds its edge only once |
| Render.PortAnchor | CanvasPage.tsx:261-262 | the world point of a port; `Render.PortPos` maps it through the viewport |
| Render.PortPos | CanvasPage.tsx:257-264 | an unknown id gives (0,0); otherwise the port anchor goes through the viewport transform: the right edge for output, the left edge for input, both at `y+220` |
| Render.SpawnedNodePorts | CanvasPage.tsx:128-142 | a node added under an unused id has its input port at screen (200, 200+220 zoom) and its output port 320 zoom to the right |
| Render.DeletedEndpointAtOrigin | CanvasPage.tsx:259 | after a delete, edge ends at the deleted id are drawn at the screen origin |
| Render.PanShiftsPorts | CanvasPage.tsx:261-262 | panning moves every resolvable port by the pointer delta |
| Render.EdgeCurve | CanvasPage.tsx:369-374 | the curve drawn for an edge; specified by `Render.EdgeCurveAnchors` |
| Render.EdgeCurveAnchors | CanvasPage.tsx:369-374 | an edge between resolvable nodes runs from the source's drawn output anchor to the target's drawn input anchor, with horizontal tangents |
| Render.PreviewCurve | CanvasPage.tsx:380-383 | a preview exists exactly while a connection is in progress; it runs from the source's output port to the pointer |
| Run.PromptOr | CanvasPage.tsx:152 | `prompt \|\| fallback`: the prompt itself when non-empty, the fallback otherwise |
| Run.Upstream | CanvasPage.tsx:155-156 | nothing when no edge ends at the node; a present value is the output of the existing source node of some edge into the node |
| Run.Plan | CanvasPage.tsx:145-157 | unknown id: nothing; media node: file picker only; an image job carries the node's own prompt, or "Masterpiece" when it is empty; a video job carries its own prompt, or "Dynamic", and the upstream output; the other types pause |
| Run.VideoUsesConnectedOutput | CanvasPage.tsx:155-157 | with single inputs, a video node fed by an edge is sent the output of that edge's source node |
| Run.ImageOutputFeedsVideo | CanvasPage.tsx:151-158 | after an image run that resolves with a URL, running a video node wired to it sends that URL |
| Run.Settle | CanvasPage.tsx:153-164 | the per-node settlement for each branch of the run; its meaning is stated by `Run.Finish` |
| Run.Begin | CanvasPage.tsx:149 | the loading flag is raised on the run id's nodes, and nothing else changes; nothing at all changes for an unknown id or a media node |
| Run.Finish | CanvasPage.tsx:150-165 | only the run id's nodes change: loading is cleared; the output is replaced only when an image or video generation resolved; a failure or pause keeps every output |
| Run.RunClearsLoading | CanvasPage.tsx:149-165 | after begin then finish, the run id's nodes have loading off and every other node's flag is as before |
| Run.RunWithoutGenerationIsInert | CanvasPage.tsx:146-148 | an unknown id or a media node leaves the store unchanged |
| Canvas.InitialNodes | CanvasPage.tsx:97-110 | two nodes with distinct ids, an image node then a video node, each labelled by the sidebar's table, with a prompt, no output and loading off |
| Canvas.CanvasPage.constructor | CanvasPage.tsx:70-113 | the initial state: the two initial nodes, no edges, offset (0,0), zoom 1, select tool, no connection, idle drag |
| Canvas.CanvasPage.AddNode | CanvasPage.tsx:117-143 | exactly one new node is appended at the spawn position of the current view; all else is unchanged |
| Canvas.CanvasPage.DeleteNode | CanvasPage.tsx:423 | the nodes become the old nodes without that id; the edges are not touched |
| Canvas.CanvasPage.EditPrompt | CanvasPage.tsx:442 | only the prompt of the nodes with that id changes |
| Canvas.CanvasPage.StartConnect | CanvasPage.tsx:409 | a connection from that node is in progress, and nothing else changes |
| Canvas.CanvasPage.HandleConnect | CanvasPage.tsx:266-275 | the edges follow the connect policy, the invariant is kept, the connection in progress always ends, and the drag record is not touched |
| Canvas.CanvasPage.Wheel | CanvasPage.tsx:355 | the zoom becomes the clamped wheel zoom, and nothing else changes |
| Canvas.CanvasPage.ResetZoom | CanvasPage.tsx:473 | the zoom becomes 1 |
| Canvas.CanvasPage.SetTool | CanvasPage.tsx:462-463 | the active tool becomes the chosen one |
| Canvas.CanvasPage.OnNodeDown | CanvasPage.tsx:222-236 | with the pan tool or button 1 nothing changes; otherwise a node drag starts with the node's id, the pointer position and a copy of the node's position |
| Canvas.CanvasPage.OnCanvasDown | CanvasPage.tsx:238-250 | with the pan tool or button 1 a pan starts from the current offset; otherwise nothing changes |
| Canvas.CanvasPage.OnMouseMove | CanvasPage.tsx:169-205 | with no drag, nodes and offset are unchanged; a pan sets the offset to its start plus the delta; a node drag moves only the target id's nodes, by the delta over the zoom; the preview pointer follows while connecting |
| Canvas.CanvasPage.OnMouseUp | CanvasPage.tsx:207-211 | the window's release listener: the drag becomes idle with no target, and no connection is in progress |
| Canvas.CanvasPage.StartRun | CanvasPage.tsx:145-149 | returns the planned request, and raises the loading flag exactly when a generation or pause starts |
| Canvas.CanvasPage.FinishRun | CanvasPage.tsx:150-165 | the nodes settle with the outcome as `Run.Finish` states |
| Canvas.CanvasPage.RunNode | CanvasPage.tsx:145-166 | a run whose call ends before any other event: the plan, then the loading flag up, then settled |
| Scenarios.AbandonedConnection | CanvasPage.tsx:207-211 | output-port press, move, release off any port: no edge, no moved node or view, and the page is idle |
| Scenarios.ReplacedInput | CanvasPage.tsx:266-275 | connecting a to b, then c to b, leaves exactly one edge into b, coming from c |
| Scenarios.PortReleaseKeepsPanning | CanvasPage.tsx:266-267 | a pan released over an input port keeps its drag record, and the next move still pans by the pointer delta |
| Scenarios.UpstreamOutputReachesVideo | CanvasPage.tsx:145-166 | on a fresh page, an image node's resolved `img://1` is what the wired video node's generation receives |

## Left out

- The generation service (`services/geminiService.ts`): SDK calls, the API-key dialog, the video poll loop and the fetch of the result. They are foreign network I/O, represented by `Run.RunRequest` (what is sent) and `Run.Outcome` (how it ended).
- The file picker: a media node's run only opens it (`Run.PickFile`). The page never reads the chosen file.
- Frame coalescing of pointer moves (`rafId`, `requestAnimationFrame`, `cancelAnimationFrame`), the one-second pause of other node types, and the interleaving of other events with an in-flight run. These are event-loop scheduling. Each move is applied at once. A run is two methods, `StartRun` and `FinishRun`, between which other events may be called.
- Canvas.CanvasPage.RunNode: assumes no other event happens between the start of the run and the end of the awaited call. In the source, updates made in between (a drag, a prompt edit) survive because the settlement maps over the latest nodes. The two halves `StartRun` and `FinishRun` keep that possibility.
- Canvas.CanvasPage.StartRun: accepts a node that is already loading. In the page the run button is disabled while its node loads (`CanvasPage.tsx:446`). That guard lives in the rendered button, which is not modelled.
- The copy of the node list kept for port positions (`nodesRef`). It trails the rendered list by one render and is a rendering artefact, so one store is used.
- JSX rendering, the SVG path string, stroke widths and radii, the background grid, theming, icons, and DOM event routing (`preventDefault`, `stopPropagation`). The routing's effect is modelled where it matters, for example a node press never starting a pan. The prompt box stops presses from reaching the node, so typing in it never drags; the model does not represent presses on the prompt box.
- Floating-point behaviour of coordinates: exact reals are used, so the screen/world round trip holds exactly.
- `LandingPage.tsx`, `ProjectListPage.tsx` and `App.tsx`: presentation and a page switch with no canvas logic.
- The unused `input` field of node data, and `params` fields other than the prompt, which the page never reads.
