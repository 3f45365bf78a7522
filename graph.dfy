/**
 * The canvas' graph store: typed nodes and directed edges held as
 * sequences, with the pure updates the page applies to them (append a node,
 * delete by id, per-node map updates, and connect with its single-input
 * policy). Ids are plain strings that the caller supplies.
 */
module Graph {
  import opened Collections
  import opened Geometry

  datatype NodeType = Media | ImageGen | Camera | VideoGen | ImageEdit | Analyze

  /** The sidebar's type-to-label table. */
  function Label(t: NodeType): string {
    match t
    case Media => "媒体资源"
    case ImageGen => "图像生成"
    case Camera => "虚拟相机"
    case VideoGen => "视频合成"
    case ImageEdit => "画面微调"
    case Analyze => "智能分析"
  }

  /** Every type has its own label. */
  lemma LabelIdentifiesType(a: NodeType, b: NodeType)
    ensures Label(a) == Label(b) <==> a == b
  {
  }

  /** A node's payload: display label (`label` in the source), its type, the generated output (a URL
      or data URI, or none), the prompt parameter and the loading flag. */
  datatype NodeData = NodeData(title: string, kind: NodeType, output: Option<string>,
                               prompt: string, loading: bool)

  datatype Node = Node(id: string, kind: NodeType, position: Point, data: NodeData)

  datatype Edge = Edge(id: string, from: string, to: string)

  /** JavaScript truthiness of a `string | null`: present and not empty. */
  predicate Truthy(s: Option<string>) {
    s.Some? && s.value != ""
  }

  function HasId(id: string): Node -> bool { (n: Node) => n.id == id }
  function LacksId(id: string): Node -> bool { (n: Node) => n.id != id }
  function Into(to: string): Edge -> bool { (e: Edge) => e.to == to }
  function NotInto(to: string): Edge -> bool { (e: Edge) => e.to != to }

  /** `nodes.find(n => n.id === id)`. */
  function FindNode(nodes: seq<Node>, id: string): Option<Node> {
    FindFirst(nodes, HasId(id))
  }

  /** The node found for an id is the first one that has it. */
  lemma FindNodeAt(nodes: seq<Node>, id: string, k: nat)
    requires k < |nodes| && nodes[k].id == id
    requires forall j :: 0 <= j < k ==> nodes[j].id != id
    ensures FindNode(nodes, id) == Some(nodes[k])
  {
    var r := FindNode(nodes, id);
    assert HasId(id)(nodes[k]);
    var i :| 0 <= i < |nodes| && nodes[i] == r.value && HasId(id)(nodes[i]) &&
      forall j :: 0 <= j < i ==> !HasId(id)(nodes[j]);
    assert i == k;
  }

  /** A node as the sidebar creates it. */
  function NewNode(id: string, kind: NodeType, position: Point): (n: Node)
    ensures n.id == id && n.kind == kind && n.position == position
    ensures n.data == NodeData(Label(kind), kind, None, "", false)
  {
    Node(id, kind, position, NodeData(Label(kind), kind, None, "", false))
  }

  /** `nodes.filter(n => n.id !== id)`, the delete button. */
  function RemoveNode(nodes: seq<Node>, id: string): seq<Node> {
    Filter(nodes, LacksId(id))
  }

  /** Deleting removes every node with that id, keeps every other node in
      its order, and afterwards the id no longer resolves. */
  lemma {:induction false} RemoveNodeExact(nodes: seq<Node>, id: string)
    ensures forall i :: 0 <= i < |RemoveNode(nodes, id)| ==> RemoveNode(nodes, id)[i].id != id
    ensures forall i :: 0 <= i < |nodes| && nodes[i].id != id ==> nodes[i] in RemoveNode(nodes, id)
    ensures forall a, b :: (a + b == nodes) ==> RemoveNode(nodes, id) == RemoveNode(a, id) + RemoveNode(b, id)
    ensures FindNode(RemoveNode(nodes, id), id).None?
  {
    forall a, b | a + b == nodes
      ensures RemoveNode(nodes, id) == RemoveNode(a, id) + RemoveNode(b, id)
    {
      FilterConcat(a, b, LacksId(id));
    }
    var r := RemoveNode(nodes, id);
    assert forall i :: 0 <= i < |r| ==> !HasId(id)(r[i]);
  }

  /** `nodes.map(n => n.id === id ? f(n) : n)`. */
  function UpdateNode(nodes: seq<Node>, id: string, f: Node -> Node): (r: seq<Node>)
    ensures |r| == |nodes|
    ensures forall i :: 0 <= i < |nodes| && nodes[i].id != id ==> r[i] == nodes[i]
    ensures forall i :: 0 <= i < |nodes| && nodes[i].id == id ==> r[i] == f(nodes[i])
  {
    MapWhere(nodes, HasId(id), f)
  }

  /** The prompt editor's update: only `params.prompt` changes. */
  function WithPrompt(value: string): Node -> Node {
    (n: Node) => n.(data := n.data.(prompt := value))
  }

  /** The drag update: only the position changes. */
  function MoveTo(p: Point): Node -> Node {
    (n: Node) => n.(position := p)
  }

  /** An update that keeps ids keeps which ids are present and in which
      order: every other id resolves to the same node, and the updated id
      resolves to the update of the node it resolved to before. */
  lemma {:induction false} UpdateNodeKeepsIds(nodes: seq<Node>, id: string, f: Node -> Node, other: string)
    requires forall n :: f(n).id == n.id
    ensures FindNode(UpdateNode(nodes, id, f), other).Some? == FindNode(nodes, other).Some?
    ensures other != id ==> FindNode(UpdateNode(nodes, id, f), other) == FindNode(nodes, other)
    ensures other == id ==>
              FindNode(UpdateNode(nodes, id, f), other) ==
                if FindNode(nodes, id).Some? then Some(f(FindNode(nodes, id).value)) else None
  {
    if nodes != [] {
      UpdateNodeKeepsIds(nodes[1..], id, f, other);
      var r := UpdateNode(nodes, id, f);
      assert r == [r[0]] + UpdateNode(nodes[1..], id, f);
    }
  }

  /** `edges.some(e => e.from === from && e.to === to)`. */
  predicate HasEdge(edges: seq<Edge>, from: string, to: string) {
    exists i :: 0 <= i < |edges| && edges[i].from == from && edges[i].to == to
  }

  /** At most one edge ends at any node's input port. */
  ghost predicate SingleInput(edges: seq<Edge>) {
    forall i, j :: 0 <= i < j < |edges| ==> edges[i].to != edges[j].to
  }

  ghost predicate NoSelfLoops(edges: seq<Edge>) {
    forall i :: 0 <= i < |edges| ==> edges[i].from != edges[i].to
  }

  /** The invariant the connect policy maintains. Dangling ends are allowed:
      deleting a node does not touch the edges. */
  ghost predicate WellFormed(edges: seq<Edge>) {
    SingleInput(edges) && NoSelfLoops(edges)
  }

  /** The edge list after releasing a connection drag from `from` on the
      input port of `to`: nothing when no connection is in progress or it
      would be a self-loop, nothing when the pair already exists, otherwise
      every edge into `to` is dropped and the new edge is appended. */
  function Connect(edges: seq<Edge>, from: Option<string>, to: string, freshId: string): seq<Edge> {
    if Truthy(from) && from.value != to then
      if HasEdge(edges, from.value, to) then edges
      else Filter(edges, NotInto(to)) + [Edge(freshId, from.value, to)]
    else edges
  }

  /** When the connection is accepted the result is the kept edges followed
      by the new one; in every other case the list is unchanged. */
  lemma ConnectCases(edges: seq<Edge>, from: Option<string>, to: string, freshId: string)
    ensures !Truthy(from) || from.value == to ==> Connect(edges, from, to, freshId) == edges
    ensures Truthy(from) && HasEdge(edges, from.value, to) ==> Connect(edges, from, to, freshId) == edges
    ensures Truthy(from) && from.value != to && !HasEdge(edges, from.value, to) ==>
              Connect(edges, from, to, freshId) == Filter(edges, NotInto(to)) + [Edge(freshId, from.value, to)]
  {
  }

  /** In a list with single inputs, the edges into the target of a member
      are exactly that member. */
  lemma {:induction false} SingleInputInto(edges: seq<Edge>, k: nat)
    requires SingleInput(edges) && k < |edges|
    ensures Filter(edges, Into(edges[k].to)) == [edges[k]]
  {
    var t := edges[k].to;
    var rest := edges[1..];
    assert SingleInput(rest) by {
      forall i, j | 0 <= i < j < |rest| ensures rest[i].to != rest[j].to {
        assert rest[i] == edges[i + 1] && rest[j] == edges[j + 1];
      }
    }
    if k == 0 {
      assert forall i :: 0 <= i < |rest| ==> rest[i] == edges[i + 1];
      FilterDropsAll(rest, Into(t));
    } else {
      assert edges[0].to != t;
      assert rest[k - 1] == edges[k];
      SingleInputInto(rest, k - 1);
    }
  }

  /** After a release on `to` with a connection in progress from another
      node, exactly one edge ends at `to` and it comes from `from`, whether
      the pair was new or already present. */
  lemma {:induction false} ConnectSingleInput(edges: seq<Edge>, from: Option<string>, to: string, freshId: string)
    requires WellFormed(edges)
    requires Truthy(from) && from.value != to
    ensures var into := Filter(Connect(edges, from, to, freshId), Into(to));
            |into| == 1 && into[0].from == from.value
    ensures !HasEdge(edges, from.value, to) ==>
              Filter(Connect(edges, from, to, freshId), Into(to)) == [Edge(freshId, from.value, to)]
  {
    if HasEdge(edges, from.value, to) {
      var k :| 0 <= k < |edges| && edges[k].from == from.value && edges[k].to == to;
      SingleInputInto(edges, k);
    } else {
      var kept := Filter(edges, NotInto(to));
      var e := Edge(freshId, from.value, to);
      FilterConcat(kept, [e], Into(to));
      FilterDropsAll(kept, Into(to));
      assert Filter([e], Into(to)) == [e] by {
        assert [e][1..] == [];
      }
    }
  }

  /** Edges into any other target keep their relative order, and none is
      added or lost. */
  lemma {:induction false} ConnectKeepsOtherTargets(edges: seq<Edge>, from: Option<string>, to: string,
                                                    freshId: string, other: string)
    requires other != to
    ensures Filter(Connect(edges, from, to, freshId), Into(other)) == Filter(edges, Into(other))
  {
    if Truthy(from) && from.value != to && !HasEdge(edges, from.value, to) {
      var kept := Filter(edges, NotInto(to));
      var e := Edge(freshId, from.value, to);
      FilterConcat(kept, [e], Into(other));
      FilterNested(edges, NotInto(to), Into(other));
      assert Filter([e], Into(other)) == [] by {
        assert [e][1..] == [];
      }
      assert kept + [e] == Connect(edges, from, to, freshId);
    }
  }

  /** Filtering keeps single inputs: the result is a subsequence. */
  lemma {:induction false} FilterSingleInput(edges: seq<Edge>, p: Edge -> bool)
    requires SingleInput(edges)
    ensures SingleInput(Filter(edges, p))
  {
    if edges != [] {
      var rest := edges[1..];
      assert SingleInput(rest) by {
        forall i, j | 0 <= i < j < |rest| ensures rest[i].to != rest[j].to {
          assert rest[i] == edges[i + 1] && rest[j] == edges[j + 1];
        }
      }
      FilterSingleInput(rest, p);
      if p(edges[0]) {
        var f := Filter(rest, p);
        var r := [edges[0]] + f;
        forall i, j | 0 <= i < j < |r| ensures r[i].to != r[j].to {
          if i == 0 {
            assert r[j] == f[j - 1] && f[j - 1] in rest;
            var m :| 0 <= m < |rest| && rest[m] == f[j - 1];
            assert edges[m + 1] == rest[m];
          } else {
            assert r[i] == f[i - 1] && r[j] == f[j - 1];
          }
        }
      }
    }
  }

  /** Connecting preserves single inputs and the absence of self-loops. */
  lemma {:induction false} ConnectPreservesWellFormed(edges: seq<Edge>, from: Option<string>, to: string,
                                                      freshId: string)
    requires WellFormed(edges)
    ensures WellFormed(Connect(edges, from, to, freshId))
  {
    if Truthy(from) && from.value != to && !HasEdge(edges, from.value, to) {
      var kept := Filter(edges, NotInto(to));
      var e := Edge(freshId, from.value, to);
      FilterSingleInput(edges, NotInto(to));
      var r := kept + [e];
      assert forall i :: 0 <= i < |kept| ==> kept[i].to != to;
      forall i, j | 0 <= i < j < |r| ensures r[i].to != r[j].to {
        if j == |kept| {
          assert r[i] == kept[i];
        } else {
          assert r[i] == kept[i] && r[j] == kept[j];
        }
      }
      forall i | 0 <= i < |r| ensures r[i].from != r[i].to {
        if i < |kept| {
          assert r[i] == kept[i] && kept[i] in edges;
        }
      }
    }
  }

  /** Releasing the same connection twice adds the edge once. */
  lemma ConnectIdempotent(edges: seq<Edge>, from: Option<string>, to: string, id1: string, id2: string)
    ensures var once := Connect(edges, from, to, id1);
            Connect(once, from, to, id2) == once
  {
    var once := Connect(edges, from, to, id1);
    if Truthy(from) && from.value != to && !HasEdge(edges, from.value, to) {
      var k := |once| - 1;
      assert once[k].from == from.value && once[k].to == to;
    }
  }
}
