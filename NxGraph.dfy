/** The part of networkx's `MultiDiGraph` that the builder and the fusion pass
    rely on. A graph's abstract value is its node sequence (in insertion
    order, each node with its attribute record) and its edge sequence (a
    multigraph: parallel edges allowed). `relabel_nodes` and `disjoint_union`
    are modelled by what they do to that value; the class `MultiDiGraph` is
    the mutable object the scripts update in place. */
module NxGraph {
  import opened Common
  import opened Analyzer

  /** A node key: an analyzer id, a position after `disjoint_union`, or a
      string (the FUNCTION_NAME node, and every node after relabelling). */
  datatype NodeId = Int(n: nat) | Str(s: string)

  /** `str(x)`. */
  function IdText(x: NodeId): string
  {
    match x
    case Int(n) => NatToString(n)
    case Str(s) => s
  }

  /** The attribute dictionary every CFG node carries. `sourceLines` is
      `None` where the script does not record `node_source_code_lines`. */
  datatype NodeAttrs = NodeAttrs(
    nodeLabel: string,
    nodeType: string,
    expression: Option<string>,
    irs: Option<string>,
    vulnerabilities: Option<seq<VulRecord>>,
    sourceLines: Option<seq<int>>,
    functionFullName: string,
    contractName: string,
    sourceFile: string)

  datatype Node = Node(id: NodeId, attrs: NodeAttrs)

  /** An edge's attribute dictionary: `edge_type` and `label`. */
  datatype EdgeData = EdgeData(edgeType: string, edgeLabel: string)

  datatype Edge = Edge(src: NodeId, dst: NodeId, data: EdgeData)

  function IdsOf(nodes: seq<Node>): (ids: seq<NodeId>)
    ensures |ids| == |nodes|
    ensures forall i :: 0 <= i < |nodes| ==> ids[i] == nodes[i].id
  {
    seq(|nodes|, i requires 0 <= i < |nodes| => nodes[i].id)
  }

  predicate Distinct<T(==)>(s: seq<T>)
  {
    forall i, j :: 0 <= i < j < |s| ==> s[i] != s[j]
  }

  /** The first position of `x` in `ids`, or `|ids|` when it is absent. */
  function IndexOf(ids: seq<NodeId>, x: NodeId): (k: nat)
    ensures k <= |ids|
    ensures k < |ids| ==> ids[k] == x
    ensures k == |ids| <==> x !in ids
    ensures forall j :: 0 <= j < k ==> ids[j] != x
  {
    if |ids| == 0 then 0
    else if ids[0] == x then 0
    else 1 + IndexOf(ids[1..], x)
  }

  /** The key a node gets from `relabel_nodes(g, lambda x: prefix + str(x))`. */
  function RelabelId(prefix: string, x: NodeId): NodeId
  {
    Str(prefix + IdText(x))
  }

  datatype Graph = Graph(nodes: seq<Node>, edges: seq<Edge>)
  {
    function Ids(): seq<NodeId>
    {
      IdsOf(nodes)
    }

    /** `id in g.nodes()`. */
    predicate HasNode(id: NodeId)
    {
      id in Ids()
    }

    /** What networkx maintains for every graph: node keys are unique and
        every edge joins two nodes of the graph. */
    predicate WellFormed()
    {
      && Distinct(Ids())
      && forall e :: e in edges ==> HasNode(e.src) && HasNode(e.dst)
    }

    /** No string key looks like a printed integer: every string key holds
        an underscore. */
    predicate ScopedNames()
    {
      forall i :: 0 <= i < |nodes| && nodes[i].id.Str? ==> '_' in nodes[i].id.s
    }

    /** `g.add_node(id, **attrs)`: a new key is appended; an existing key
        keeps its place and takes the new attributes. */
    function WithNode(id: NodeId, attrs: NodeAttrs): (g: Graph)
      ensures g.edges == edges
      ensures g.HasNode(id)
      ensures forall x :: HasNode(x) ==> g.HasNode(x)
      ensures forall x :: g.HasNode(x) ==> x == id || HasNode(x)
      ensures HasNode(id) ==> |g.nodes| == |nodes|
      ensures !HasNode(id) ==> g.nodes == nodes + [Node(id, attrs)]
    {
      if HasNode(id) then
        var k := IndexOf(Ids(), id);
        assert IdsOf(nodes[k := Node(id, attrs)]) == Ids();
        Graph(nodes[k := Node(id, attrs)], edges)
      else
        assert IdsOf(nodes + [Node(id, attrs)]) == Ids() + [id];
        Graph(nodes + [Node(id, attrs)], edges)
    }

    /** `g.add_edge(e.src, e.dst, **e.data)`: one more parallel edge. */
    function WithEdge(e: Edge): Graph
    {
      Graph(nodes, edges + [e])
    }

    /** `g.nodes[id]['node_type'] = t`. */
    function WithNodeType(id: NodeId, t: string): (g: Graph)
      ensures g.edges == edges && g.Ids() == Ids()
    {
      var ns := seq(|nodes|, i requires 0 <= i < |nodes| =>
                      if nodes[i].id == id then Node(id, nodes[i].attrs.(nodeType := t)) else nodes[i]);
      assert IdsOf(ns) == Ids();
      Graph(ns, edges)
    }

    /** `nx.relabel_nodes(g, lambda x: prefix + str(x), copy=False)`. */
    function Relabeled(prefix: string): (g: Graph)
      ensures |g.nodes| == |nodes| && |g.edges| == |edges|
      ensures forall i :: 0 <= i < |nodes| ==>
                g.nodes[i] == Node(RelabelId(prefix, nodes[i].id), nodes[i].attrs)
      ensures forall i :: 0 <= i < |edges| ==>
                g.edges[i] == Edge(RelabelId(prefix, edges[i].src), RelabelId(prefix, edges[i].dst), edges[i].data)
    {
      Graph(
        seq(|nodes|, i requires 0 <= i < |nodes| => Node(RelabelId(prefix, nodes[i].id), nodes[i].attrs)),
        seq(|edges|, i requires 0 <= i < |edges| =>
              Edge(RelabelId(prefix, edges[i].src), RelabelId(prefix, edges[i].dst), edges[i].data)))
    }

    /** `convert_node_labels_to_integers(g, first_label=offset)`: the node at
        position i becomes `offset + i`, edges follow their endpoints. */
    function Renumbered(offset: nat): (g: Graph)
      ensures |g.nodes| == |nodes| && |g.edges| == |edges|
    {
      Graph(
        seq(|nodes|, i requires 0 <= i < |nodes| => Node(Int(offset + i), nodes[i].attrs)),
        seq(|edges|, i requires 0 <= i < |edges| =>
              Edge(Int(offset + IndexOf(Ids(), edges[i].src)),
                   Int(offset + IndexOf(Ids(), edges[i].dst)),
                   edges[i].data)))
    }
  }

  const EmptyGraph := Graph([], [])

  /** `nx.disjoint_union(g, h)`: both graphs renumbered, `g` onto 0..n-1 and
      `h` onto n..n+m-1, then put side by side. No key of either input
      survives; the attributes do. */
  function DisjointUnion(g: Graph, h: Graph): (u: Graph)
    ensures |u.nodes| == |g.nodes| + |h.nodes|
    ensures |u.edges| == |g.edges| + |h.edges|
    ensures forall i :: 0 <= i < |u.nodes| ==> u.nodes[i].id == Int(i)
  {
    var a, b := g.Renumbered(0), h.Renumbered(|g.nodes|);
    Graph(a.nodes + b.nodes, a.edges + b.edges)
  }

  // ---------------------------------------------------------------------------
  // Lemmas

  /** `disjoint_union` keeps every node's attributes: the first operand's
      nodes come first, then the second's, each in its own order. */
  lemma UnionAttrs(g: Graph, h: Graph)
    ensures var u := DisjointUnion(g, h);
      && (forall i :: 0 <= i < |g.nodes| ==> u.nodes[i].attrs == g.nodes[i].attrs)
      && (forall j :: 0 <= j < |h.nodes| ==> u.nodes[|g.nodes| + j].attrs == h.nodes[j].attrs)
  {
  }

  lemma WithNodeWellFormed(g: Graph, id: NodeId, attrs: NodeAttrs)
    requires g.WellFormed()
    ensures g.WithNode(id, attrs).WellFormed()
  {
    var r := g.WithNode(id, attrs);
    if g.HasNode(id) {
      var k := IndexOf(g.Ids(), id);
      assert r.Ids() == g.Ids();
    } else {
      assert r.Ids() == g.Ids() + [id];
    }
  }

  lemma WithEdgeWellFormed(g: Graph, e: Edge)
    requires g.WellFormed() && g.HasNode(e.src) && g.HasNode(e.dst)
    ensures g.WithEdge(e).WellFormed()
  {
  }

  /** Relabelling keys that are distinct and scoped gives distinct keys:
      `prefix + str(x)` is injective on them. */
  lemma {:induction false} RelabelIdInjective(prefix: string, x: NodeId, y: NodeId)
    requires x != y
    requires x.Str? ==> '_' in x.s
    requires y.Str? ==> '_' in y.s
    ensures RelabelId(prefix, x) != RelabelId(prefix, y)
  {
    if RelabelId(prefix, x) == RelabelId(prefix, y) {
      var tx, ty := IdText(x), IdText(y);
      assert tx == (prefix + tx)[|prefix|..] == (prefix + ty)[|prefix|..] == ty;
      if x.Int? && y.Int? {
        NatToStringInjective(x.n, y.n);
      }
    }
  }

  /** Relabelling keeps distinct, scoped keys distinct. */
  lemma RelabeledDistinct(g: Graph, prefix: string)
    requires Distinct(g.Ids()) && g.ScopedNames()
    ensures Distinct(g.Relabeled(prefix).Ids())
  {
    var r := g.Relabeled(prefix);
    forall i, j | 0 <= i < j < |r.nodes|
      ensures r.Ids()[i] != r.Ids()[j]
    {
      assert g.Ids()[i] != g.Ids()[j];
      RelabelIdInjective(prefix, g.nodes[i].id, g.nodes[j].id);
    }
  }

  /** An edge keeps joining two nodes after relabelling. */
  lemma RelabeledEdgeEndpoints(g: Graph, prefix: string, i: nat)
    requires g.WellFormed() && i < |g.edges|
    ensures var r := g.Relabeled(prefix);
      r.HasNode(r.edges[i].src) && r.HasNode(r.edges[i].dst)
  {
    var r := g.Relabeled(prefix);
    var e := g.edges[i];
    EndpointPosition(g, i);
    var p, q := IndexOf(g.Ids(), e.src), IndexOf(g.Ids(), e.dst);
    assert r.Ids()[p] == r.edges[i].src;
    assert r.Ids()[q] == r.edges[i].dst;
  }

  /** Relabelling keeps the graph well formed. */
  lemma RelabeledWellFormed(g: Graph, prefix: string)
    requires g.WellFormed() && g.ScopedNames()
    ensures g.Relabeled(prefix).WellFormed()
  {
    var r := g.Relabeled(prefix);
    RelabeledDistinct(g, prefix);
    forall e | e in r.edges
      ensures r.HasNode(e.src) && r.HasNode(e.dst)
    {
      var i :| 0 <= i < |r.edges| && r.edges[i] == e;
      RelabeledEdgeEndpoints(g, prefix, i);
    }
  }

  /** The position of an edge endpoint, for a well-formed graph. */
  lemma EndpointPosition(g: Graph, i: nat)
    requires g.WellFormed() && i < |g.edges|
    ensures IndexOf(g.Ids(), g.edges[i].src) < |g.nodes|
    ensures IndexOf(g.Ids(), g.edges[i].dst) < |g.nodes|
  {
    assert g.edges[i] in g.edges;
  }

  /** `disjoint_union` keeps every edge between the same two nodes: an edge
      of `g` joins the renumbered positions of its endpoints in `g`, an edge
      of `h` those of its endpoints in `h` shifted by |g.nodes|, and each
      keeps its data. */
  lemma UnionEdges(g: Graph, h: Graph)
    requires g.WellFormed() && h.WellFormed()
    ensures var u := DisjointUnion(g, h);
      && (forall i :: 0 <= i < |g.edges| ==>
            && u.edges[i].src.Int? && u.edges[i].src.n < |g.nodes|
            && u.edges[i].dst.Int? && u.edges[i].dst.n < |g.nodes|
            && g.nodes[u.edges[i].src.n].id == g.edges[i].src
            && g.nodes[u.edges[i].dst.n].id == g.edges[i].dst
            && u.edges[i].data == g.edges[i].data)
      && (forall j :: 0 <= j < |h.edges| ==>
            && u.edges[|g.edges| + j].src.Int?
            && |g.nodes| <= u.edges[|g.edges| + j].src.n < |g.nodes| + |h.nodes|
            && u.edges[|g.edges| + j].dst.Int?
            && |g.nodes| <= u.edges[|g.edges| + j].dst.n < |g.nodes| + |h.nodes|
            && h.nodes[u.edges[|g.edges| + j].src.n - |g.nodes|].id == h.edges[j].src
            && h.nodes[u.edges[|g.edges| + j].dst.n - |g.nodes|].id == h.edges[j].dst
            && u.edges[|g.edges| + j].data == h.edges[j].data)
  {
    forall i | 0 <= i < |g.edges| {
      UnionEdgeLeft(g, h, i);
    }
    forall j | 0 <= j < |h.edges| {
      UnionEdgeRight(g, h, j);
    }
  }

  lemma UnionEdgeLeft(g: Graph, h: Graph, i: nat)
    requires g.WellFormed() && i < |g.edges|
    ensures var u := DisjointUnion(g, h);
      && u.edges[i].src.Int? && u.edges[i].src.n < |g.nodes|
      && u.edges[i].dst.Int? && u.edges[i].dst.n < |g.nodes|
      && g.nodes[u.edges[i].src.n].id == g.edges[i].src
      && g.nodes[u.edges[i].dst.n].id == g.edges[i].dst
      && u.edges[i].data == g.edges[i].data
  {
    EndpointPosition(g, i);
    assert DisjointUnion(g, h).edges[i] == g.Renumbered(0).edges[i];
  }

  lemma UnionEdgeRight(g: Graph, h: Graph, j: nat)
    requires h.WellFormed() && j < |h.edges|
    ensures var u := DisjointUnion(g, h);
      && u.edges[|g.edges| + j].src.Int?
      && |g.nodes| <= u.edges[|g.edges| + j].src.n < |g.nodes| + |h.nodes|
      && u.edges[|g.edges| + j].dst.Int?
      && |g.nodes| <= u.edges[|g.edges| + j].dst.n < |g.nodes| + |h.nodes|
      && h.nodes[u.edges[|g.edges| + j].src.n - |g.nodes|].id == h.edges[j].src
      && h.nodes[u.edges[|g.edges| + j].dst.n - |g.nodes|].id == h.edges[j].dst
      && u.edges[|g.edges| + j].data == h.edges[j].data
  {
    EndpointPosition(h, j);
    assert DisjointUnion(g, h).edges[|g.edges| + j] == h.Renumbered(|g.nodes|).edges[j];
  }

  /** The keys of a union are its positions, so they are distinct. */
  lemma UnionDistinct(g: Graph, h: Graph)
    ensures Distinct(DisjointUnion(g, h).Ids())
  {
    var u := DisjointUnion(g, h);
    forall i, j | 0 <= i < j < |u.nodes|
      ensures u.Ids()[i] != u.Ids()[j]
    {
      assert u.nodes[i].id == Int(i) && u.nodes[j].id == Int(j);
    }
  }

  lemma UnionEdgeEndpoints(g: Graph, h: Graph, i: nat)
    requires g.WellFormed() && h.WellFormed()
    requires i < |g.edges| + |h.edges|
    ensures DisjointUnion(g, h).edges[i].src.Int? && DisjointUnion(g, h).edges[i].src.n < |g.nodes| + |h.nodes|
    ensures DisjointUnion(g, h).edges[i].dst.Int? && DisjointUnion(g, h).edges[i].dst.n < |g.nodes| + |h.nodes|
  {
    if i < |g.edges| {
      EndpointPosition(g, i);
      assert DisjointUnion(g, h).edges[i] == g.Renumbered(0).edges[i];
    } else {
      EndpointPosition(h, i - |g.edges|);
      assert DisjointUnion(g, h).edges[i] == h.Renumbered(|g.nodes|).edges[i - |g.edges|];
    }
  }

  /** The union of two well-formed graphs is well formed. */
  lemma UnionWellFormed(g: Graph, h: Graph)
    requires g.WellFormed() && h.WellFormed()
    ensures DisjointUnion(g, h).WellFormed()
  {
    var u := DisjointUnion(g, h);
    UnionDistinct(g, h);
    forall e | e in u.edges
      ensures u.HasNode(e.src) && u.HasNode(e.dst)
    {
      var i :| 0 <= i < |u.edges| && u.edges[i] == e;
      UnionEdgeEndpoints(g, h, i);
      assert u.Ids()[e.src.n] == e.src;
      assert u.Ids()[e.dst.n] == e.dst;
    }
  }

  // ---------------------------------------------------------------------------
  // The mutable graph object

  /** A networkx `MultiDiGraph` object. */
  class MultiDiGraph {
    var nodes: seq<Node>
    var edges: seq<Edge>

    function Value(): Graph
      reads this
    {
      Graph(nodes, edges)
    }

    predicate Valid()
      reads this
    {
      Value().WellFormed()
    }

    predicate HasNode(id: NodeId)
      reads this
    {
      Value().HasNode(id)
    }

    /** `nx.MultiDiGraph()`. */
    constructor ()
      ensures Valid() && Value() == EmptyGraph
    {
      nodes, edges := [], [];
    }

    /** A new graph object holding `g`: the result of `deepcopy`,
        `disjoint_union` or `read_gpickle`. */
    constructor Of(g: Graph)
      requires g.WellFormed()
      ensures Valid() && Value() == g
    {
      nodes, edges := g.nodes, g.edges;
    }

    method AddNode(id: NodeId, attrs: NodeAttrs)
      requires Valid()
      modifies this
      ensures Valid() && Value() == old(Value()).WithNode(id, attrs)
    {
      WithNodeWellFormed(Value(), id, attrs);
      var g := Value().WithNode(id, attrs);
      nodes, edges := g.nodes, g.edges;
    }

    method AddEdge(src: NodeId, dst: NodeId, data: EdgeData)
      requires Valid() && HasNode(src) && HasNode(dst)
      modifies this
      ensures Valid() && Value() == old(Value()).WithEdge(Edge(src, dst, data))
    {
      edges := edges + [Edge(src, dst, data)];
    }

    /** `g.add_edges_from(es)` for edges between nodes already present. */
    method AddEdgesFrom(es: seq<Edge>)
      requires Valid()
      requires forall e :: e in es ==> HasNode(e.src) && HasNode(e.dst)
      modifies this
      ensures Valid() && nodes == old(nodes) && edges == old(edges) + es
    {
      edges := edges + es;
    }

    /** `nx.relabel_nodes(g, lambda x: prefix + str(x), copy=False)`. */
    method RelabelNodes(prefix: string)
      requires Valid() && Value().ScopedNames()
      modifies this
      ensures Valid() && Value() == old(Value()).Relabeled(prefix)
    {
      RelabeledWellFormed(Value(), prefix);
      var g := Value().Relabeled(prefix);
      nodes, edges := g.nodes, g.edges;
    }

    /** `g.nodes[id]['node_type'] = t`; a missing key raises in networkx. */
    method SetNodeType(id: NodeId, t: string)
      requires Valid() && HasNode(id)
      modifies this
      ensures Valid() && Value() == old(Value()).WithNodeType(id, t)
    {
      var g := Value().WithNodeType(id, t);
      nodes := g.nodes;
    }

    /** `deepcopy(g)`. */
    method Copy() returns (c: MultiDiGraph)
      requires Valid()
      ensures fresh(c) && c.Valid() && c.Value() == Value()
    {
      c := new MultiDiGraph.Of(Value());
    }
  }

  /** `nx.disjoint_union(g, h)`: a new graph object. */
  method DisjointUnionOf(g: MultiDiGraph, h: MultiDiGraph) returns (u: MultiDiGraph)
    requires g.Valid() && h.Valid()
    ensures fresh(u) && u.Valid() && u.Value() == DisjointUnion(g.Value(), h.Value())
  {
    UnionWellFormed(g.Value(), h.Value());
    u := new MultiDiGraph.Of(DisjointUnion(g.Value(), h.Value()));
  }
}
