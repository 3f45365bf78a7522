/**
 * Running a node. The generation service is not modelled: what the page
 * would send it is a `RunRequest`, and what came back is an `Outcome`
 * supplied by the caller. A run updates only the nodes with the run id.
 */
module Run {
  import opened Collections
  import opened Graph

  /** What running a node asks of the outside world: nothing (unknown id),
      the file picker (a media node), an image or a video generation, or the
      one-second pause of the other node types. */
  datatype RunRequest =
    | Missing
    | PickFile
    | ImageJob(prompt: string)
    | VideoJob(prompt: string, source: Option<string>)
    | Pause

  /** How the awaited call ended: resolved with a URL (which the image call
      may leave undefined), or rejected. */
  datatype Outcome = Resolved(url: Option<string>) | Rejected

  /** Requests that set the loading flag. */
  predicate Starts(req: RunRequest) {
    req.ImageJob? || req.VideoJob? || req.Pause?
  }

  /** JavaScript `prompt || fallback` on a string: the prompt itself unless
      it is empty. */
  function PromptOr(prompt: string, fallback: string): (r: string)
    ensures prompt != "" ==> r == prompt
    ensures prompt == "" ==> r == fallback
  {
    if prompt == "" then fallback else prompt
  }

  /** The output of the source of the first edge into `id`, if that edge and
      its source node exist. */
  function Upstream(nodes: seq<Node>, edges: seq<Edge>, id: string): (r: Option<string>)
    ensures (forall i :: 0 <= i < |edges| ==> edges[i].to != id) ==> r.None?
    ensures r.Some? ==>
              exists i :: 0 <= i < |edges| && edges[i].to == id &&
                FindNode(nodes, edges[i].from).Some? && FindNode(nodes, edges[i].from).value.data.output == r
  {
    match FindFirst(edges, Into(id))
    case None => None
    case Some(e) =>
      match FindNode(nodes, e.from)
      case None => None
      case Some(s) => s.data.output
  }

  /** What running node `id` sends out, decided on the store as it is when
      the run button is pressed. */
  function Plan(nodes: seq<Node>, edges: seq<Edge>, id: string): (r: RunRequest)
    ensures r.Missing? <==> FindNode(nodes, id).None?
    ensures r.PickFile? <==> FindNode(nodes, id).Some? && FindNode(nodes, id).value.kind == Media
    ensures r.ImageJob? <==> FindNode(nodes, id).Some? && FindNode(nodes, id).value.kind == ImageGen
    ensures r.VideoJob? <==> FindNode(nodes, id).Some? && FindNode(nodes, id).value.kind == VideoGen
    ensures r.ImageJob? ==> r.prompt == PromptOr(FindNode(nodes, id).value.data.prompt, "Masterpiece")
    ensures r.VideoJob? ==> r.prompt == PromptOr(FindNode(nodes, id).value.data.prompt, "Dynamic")
    ensures r.ImageJob? || r.VideoJob? ==> r.prompt != ""
    ensures r.VideoJob? ==> r.source == Upstream(nodes, edges, id)
  {
    match FindNode(nodes, id)
    case None => Missing
    case Some(n) =>
      match n.kind
      case Media => PickFile
      case ImageGen => ImageJob(PromptOr(n.data.prompt, "Masterpiece"))
      case VideoGen => VideoJob(PromptOr(n.data.prompt, "Dynamic"), Upstream(nodes, edges, id))
      case _ => Pause
  }

  /** With single inputs, a video node fed by an edge is sent the output of
      that edge's source node. */
  lemma VideoUsesConnectedOutput(nodes: seq<Node>, edges: seq<Edge>, k: nat, src: Node, dst: Node)
    requires SingleInput(edges) && k < |edges|
    requires FindNode(nodes, edges[k].from) == Some(src)
    requires FindNode(nodes, edges[k].to) == Some(dst) && dst.kind == VideoGen
    ensures Plan(nodes, edges, edges[k].to) == VideoJob(PromptOr(dst.data.prompt, "Dynamic"), src.data.output)
  {
    var first := FindFirst(edges, Into(edges[k].to));
    var i :| 0 <= i < |edges| && edges[i] == first.value && Into(edges[k].to)(edges[i]);
    assert i == k;
  }

  function SetLoading(b: bool): Node -> Node {
    (n: Node) => n.(data := n.data.(loading := b))
  }

  /** A node after the awaited call: loading cleared, and the output replaced
      by the resolved URL only when an image or video generation resolved. */
  function Settle(req: RunRequest, outcome: Outcome): Node -> Node {
    (n: Node) =>
      if (req.ImageJob? || req.VideoJob?) && outcome.Resolved? then
        n.(data := n.data.(output := outcome.url, loading := false))
      else
        n.(data := n.data.(loading := false))
  }

  /** The store right after the run button: the loading flag is raised on
      the run id's nodes, unless the request was `Missing` or `PickFile`. */
  function Begin(nodes: seq<Node>, id: string, req: RunRequest): (r: seq<Node>)
    ensures |r| == |nodes|
    ensures forall i :: 0 <= i < |nodes| && (nodes[i].id != id || !Starts(req)) ==> r[i] == nodes[i]
    ensures forall i :: 0 <= i < |nodes| && nodes[i].id == id && Starts(req) ==>
              r[i] == nodes[i].(data := nodes[i].data.(loading := true))
  {
    if Starts(req) then UpdateNode(nodes, id, SetLoading(true)) else nodes
  }

  /** The store once the awaited call has ended. Only the run id's nodes
      change, and of them only `loading` and `output`; loading is always
      cleared, and the output is kept unless a generation resolved. */
  function Finish(nodes: seq<Node>, id: string, req: RunRequest, outcome: Outcome): (r: seq<Node>)
    ensures |r| == |nodes|
    ensures forall i :: 0 <= i < |nodes| && (nodes[i].id != id || !Starts(req)) ==> r[i] == nodes[i]
    ensures forall i :: 0 <= i < |nodes| && nodes[i].id == id && Starts(req) ==>
              && r[i].id == nodes[i].id && r[i].kind == nodes[i].kind
              && r[i].position == nodes[i].position
              && r[i].data.title == nodes[i].data.title && r[i].data.kind == nodes[i].data.kind
              && r[i].data.prompt == nodes[i].data.prompt
              && !r[i].data.loading
              && r[i].data.output ==
                   if (req.ImageJob? || req.VideoJob?) && outcome.Resolved? then outcome.url
                   else nodes[i].data.output
    ensures outcome.Rejected? || req.Pause? ==>
              forall i :: 0 <= i < |nodes| ==> r[i].data.output == nodes[i].data.output
  {
    if Starts(req) then UpdateNode(nodes, id, Settle(req, outcome)) else nodes
  }

  /** Running an image node whose generation resolves with `url`, then
      running a video node that an edge connects it to, sends `url` to the
      video generation. */
  lemma {:induction false} ImageOutputFeedsVideo(nodes: seq<Node>, edges: seq<Edge>, k: nat, url: string)
    requires SingleInput(edges) && k < |edges|
    requires FindNode(nodes, edges[k].from).Some? && FindNode(nodes, edges[k].from).value.kind == ImageGen
    requires FindNode(nodes, edges[k].to).Some? && FindNode(nodes, edges[k].to).value.kind == VideoGen
    ensures var a := edges[k].from;
            var req := Plan(nodes, edges, a);
            var after := Finish(Begin(nodes, a, req), a, req, Resolved(Some(url)));
            Plan(after, edges, edges[k].to) ==
              VideoJob(PromptOr(FindNode(nodes, edges[k].to).value.data.prompt, "Dynamic"), Some(url))
  {
    var a, b := edges[k].from, edges[k].to;
    var req := Plan(nodes, edges, a);
    assert req.ImageJob?;
    var begun := UpdateNode(nodes, a, SetLoading(true));
    var after := UpdateNode(begun, a, Settle(req, Resolved(Some(url))));
    UpdateNodeKeepsIds(nodes, a, SetLoading(true), a);
    UpdateNodeKeepsIds(nodes, a, SetLoading(true), b);
    UpdateNodeKeepsIds(begun, a, Settle(req, Resolved(Some(url))), a);
    UpdateNodeKeepsIds(begun, a, Settle(req, Resolved(Some(url))), b);
    var src := FindNode(after, a).value;
    assert src.data.output == Some(url);
    VideoUsesConnectedOutput(after, edges, k, src, FindNode(after, b).value);
  }

  /** A whole run, begin then finish, leaves every node's loading flag as it
      was, except that the run id's nodes end with loading cleared. */
  lemma RunClearsLoading(nodes: seq<Node>, edges: seq<Edge>, id: string, outcome: Outcome)
    ensures var req := Plan(nodes, edges, id);
            var r := Finish(Begin(nodes, id, req), id, req, outcome);
            |r| == |nodes| &&
            forall i :: 0 <= i < |nodes| ==>
              r[i].data.loading == (if nodes[i].id == id && Starts(req) then false else nodes[i].data.loading)
  {
  }

  /** An unknown id or a media node leaves the store untouched. */
  lemma RunWithoutGenerationIsInert(nodes: seq<Node>, edges: seq<Edge>, id: string, outcome: Outcome)
    requires FindNode(nodes, id).None? || FindNode(nodes, id).value.kind == Media
    ensures var req := Plan(nodes, edges, id);
            Finish(Begin(nodes, id, req), id, req, outcome) == nodes
  {
  }
}
