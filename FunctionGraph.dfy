/** The per-function control-flow graph built inside
    `compress_full_smart_contracts` and `extract_graph`: one node per
    analyzer node, `if_true`/`if_false` edges out of branch nodes and `next`
    edges out of all others, a synthetic FUNCTION_NAME node pointing at node
    0, and finally every key prefixed with the contract and function names. */
module FunctionGraph {
  import opened Common
  import opened Analyzer
  import opened Vulnerabilities
  import opened NodeInfo
  import opened NxGraph

  /** What the builder knows while it handles one function: the script
      running, the file's base name, the contract, the function or modifier
      and the file's vulnerability records. */
  datatype Scope = Scope(
    script: Script,
    fileName: string,
    contractName: string,
    fn: Function,
    vul: Option<seq<VulRecord>>)

  const IfTrue := EdgeData("if_true", "True")
  const IfFalse := EdgeData("if_false", "False")
  const Next := EdgeData("next", "Next")
  const FunctionNameType := "FUNCTION_NAME"

  /** The attributes `add_node` stores for an analyzer node. */
  function AttrsOf(sc: Scope, node: NodeData): NodeAttrs
  {
    var info := GetNodeInfo(sc.script, node, sc.vul);
    NodeAttrs(info.nodeLabel, info.nodeType, info.expression, info.irs, info.vulnerabilities,
              info.sourceLines, sc.fn.fullName, sc.contractName, sc.fileName)
  }

  // ---------------------------------------------------------------------------
  // The graph after each step of the builder

  /** One successor: skip a null one; insert an unseen one; add the edge. */
  function Link(sc: Scope, g: Graph, from: nat, son: Option<NodeData>, kind: EdgeData): Graph
  {
    match son
    case None => g
    case Some(s) =>
      var g' := if g.HasNode(Int(s.id)) then g else g.WithNode(Int(s.id), AttrsOf(sc, s));
      g'.WithEdge(Edge(Int(from), Int(s.id), kind))
  }

  /** `for son_node in node.sons`, over the first |sons| sons. */
  function LinkSons(sc: Scope, g: Graph, from: nat, sons: seq<Option<NodeData>>): Graph
  {
    if |sons| == 0 then g
    else Link(sc, LinkSons(sc, g, from, sons[..|sons| - 1]), from, sons[|sons| - 1], Next)
  }

  /** The body of the loop over `function.nodes` for one node. */
  function AddAnalyzerNode(sc: Scope, g: Graph, n: AnalyzerNode): Graph
  {
    var id := n.data.id;
    var g1 := g.WithNode(Int(id), AttrsOf(sc, n.data));
    if IsBranch(n.data.nodeType) then
      Link(sc, Link(sc, g1, id, n.sonTrue, IfTrue), id, n.sonFalse, IfFalse)
    else
      LinkSons(sc, g1, id, n.sons)
  }

  function AddAnalyzerNodes(sc: Scope, g: Graph, ns: seq<AnalyzerNode>): Graph
  {
    if |ns| == 0 then g
    else AddAnalyzerNode(sc, AddAnalyzerNodes(sc, g, ns[..|ns| - 1]), ns[|ns| - 1])
  }

  /** `file_name_sc + '_' + contract.name + '_' + function.full_name`. */
  function FunctionNameId(sc: Scope): string
  {
    sc.fileName + "_" + sc.contractName + "_" + sc.fn.fullName
  }

  function FunctionNameAttrs(sc: Scope): NodeAttrs
  {
    NodeAttrs(FunctionNameId(sc), FunctionNameType, None, None,
              MatchVulnerabilities(sc.script, sc.fn.lines, sc.vul),
              if sc.script.Generator? then Some(sc.fn.lines) else None,
              sc.fn.fullName, sc.contractName, sc.fileName)
  }

  /** Add the FUNCTION_NAME node, and its `next` edge when node 0 exists. */
  function WithFunctionName(sc: Scope, g: Graph): Graph
  {
    var name := Str(FunctionNameId(sc));
    var g1 := g.WithNode(name, FunctionNameAttrs(sc));
    if g1.HasNode(Int(0)) then g1.WithEdge(Edge(name, Int(0), Next)) else g1
  }

  /** The function's graph before relabelling. */
  function FunctionGraph(sc: Scope): Graph
  {
    WithFunctionName(sc, AddAnalyzerNodes(sc, EmptyGraph, sc.fn.nodes))
  }

  /** `contract.name + '_' + function.full_name + '_'`. */
  function ScopePrefix(sc: Scope): string
  {
    sc.contractName + "_" + sc.fn.fullName + "_"
  }

  /** The function's graph as it enters the fold. */
  function ScopedFunctionGraph(sc: Scope): Graph
  {
    FunctionGraph(sc).Relabeled(ScopePrefix(sc))
  }

  // ---------------------------------------------------------------------------
  // An independent account of the edges

  /** The edge for one possibly-null successor. */
  function SonEdge(from: nat, son: Option<NodeData>, kind: EdgeData): seq<Edge>
  {
    match son
    case None => []
    case Some(s) => [Edge(Int(from), Int(s.id), kind)]
  }

  function SonEdges(from: nat, sons: seq<Option<NodeData>>): seq<Edge>
  {
    if |sons| == 0 then [] else SonEdges(from, sons[..|sons| - 1]) + SonEdge(from, sons[|sons| - 1], Next)
  }

  /** The edges one analyzer node contributes. */
  function StepEdges(n: AnalyzerNode): seq<Edge>
  {
    if IsBranch(n.data.nodeType) then SonEdge(n.data.id, n.sonTrue, IfTrue) + SonEdge(n.data.id, n.sonFalse, IfFalse)
    else SonEdges(n.data.id, n.sons)
  }

  function AllStepEdges(ns: seq<AnalyzerNode>): seq<Edge>
  {
    if |ns| == 0 then [] else AllStepEdges(ns[..|ns| - 1]) + StepEdges(ns[|ns| - 1])
  }

  /** The edges leaving `x`, in order. */
  function OutEdges(es: seq<Edge>, x: NodeId): seq<Edge>
  {
    if |es| == 0 then []
    else OutEdges(es[..|es| - 1], x) + (if es[|es| - 1].src == x then [es[|es| - 1]] else [])
  }

  /** How many edges carry the given data. */
  function CountKind(es: seq<Edge>, kind: EdgeData): nat
  {
    if |es| == 0 then 0 else CountKind(es[..|es| - 1], kind) + (if es[|es| - 1].data == kind then 1 else 0)
  }

  /** The successors that are not null, in order. */
  function PresentSons(sons: seq<Option<NodeData>>): seq<NodeData>
  {
    if |sons| == 0 then []
    else PresentSons(sons[..|sons| - 1]) + (if sons[|sons| - 1].Some? then [sons[|sons| - 1].value] else [])
  }

  // ---------------------------------------------------------------------------
  // The builder, step by step

  /** One successor: `if son: if son.node_id not in g: add_node(...);
      add_edge(...)`. */
  method AddSuccessor(g: MultiDiGraph, sc: Scope, from: nat, son: Option<NodeData>, kind: EdgeData)
    requires g.Valid() && g.HasNode(Int(from))
    modifies g
    ensures g.Valid() && g.HasNode(Int(from))
    ensures g.Value() == Link(sc, old(g.Value()), from, son, kind)
  {
    if son.Some? {
      var s := son.value;
      if !g.HasNode(Int(s.id)) {
        g.AddNode(Int(s.id), AttrsOf(sc, s));
      }
      g.AddEdge(Int(from), Int(s.id), kind);
    }
  }

  /** One pass of the loop over `function.nodes`: add the node, then its
      branch successors or its `next` successors. */
  method AddAnalyzerNodeTo(g: MultiDiGraph, sc: Scope, node: AnalyzerNode)
    requires g.Valid()
    modifies g
    ensures g.Valid()
    ensures g.Value() == AddAnalyzerNode(sc, old(g.Value()), node)
  {
    var id := node.data.id;
    g.AddNode(Int(id), AttrsOf(sc, node.data));
    if IsBranch(node.data.nodeType) {
      AddSuccessor(g, sc, id, node.sonTrue, IfTrue);
      AddSuccessor(g, sc, id, node.sonFalse, IfFalse);
    } else {
      ghost var added := g.Value();
      var j := 0;
      while j < |node.sons|
        invariant 0 <= j <= |node.sons|
        invariant g.Valid() && g.HasNode(Int(id))
        invariant g.Value() == LinkSons(sc, added, id, node.sons[..j])
      {
        AddSuccessor(g, sc, id, node.sons[j], Next);
        assert node.sons[..j + 1][..j] == node.sons[..j];
        j := j + 1;
      }
      assert node.sons[..j] == node.sons;
    }
  }

  /** The loop over `function.nodes`, on a fresh graph. */
  method AddAnalyzerNodesTo(sc: Scope) returns (g: MultiDiGraph)
    ensures fresh(g) && g.Valid()
    ensures g.Value() == AddAnalyzerNodes(sc, EmptyGraph, sc.fn.nodes)
  {
    var nodes := sc.fn.nodes;
    g := new MultiDiGraph();
    var i := 0;
    while i < |nodes|
      invariant 0 <= i <= |nodes|
      invariant fresh(g) && g.Valid()
      invariant g.Value() == AddAnalyzerNodes(sc, EmptyGraph, nodes[..i])
    {
      AddAnalyzerNodeTo(g, sc, nodes[i]);
      AddAnalyzerNodesStep(sc, nodes, i);
      i := i + 1;
    }
    assert nodes[..i] == nodes;
  }

  lemma AddAnalyzerNodesStep(sc: Scope, ns: seq<AnalyzerNode>, i: nat)
    requires i < |ns|
    ensures AddAnalyzerNodes(sc, EmptyGraph, ns[..i + 1])
            == AddAnalyzerNode(sc, AddAnalyzerNodes(sc, EmptyGraph, ns[..i]), ns[i])
  {
    assert ns[..i + 1][..i] == ns[..i];
  }

  /** The FUNCTION_NAME node and its `next` edge to node 0 when node 0
      exists. */
  method AddFunctionNameNode(g: MultiDiGraph, sc: Scope)
    requires g.Valid()
    modifies g
    ensures g.Valid()
    ensures g.Value() == WithFunctionName(sc, old(g.Value()))
  {
    var name := Str(FunctionNameId(sc));
    g.AddNode(name, FunctionNameAttrs(sc));
    if g.HasNode(Int(0)) {
      g.AddEdge(name, Int(0), Next);
    }
  }

  /** Lines 113-173 of the generator (80-135 of the merge script): build the
      function's graph, add the FUNCTION_NAME node and relabel every key. */
  method BuildFunctionGraph(sc: Scope) returns (g: MultiDiGraph)
    ensures fresh(g) && g.Valid()
    ensures g.Value() == ScopedFunctionGraph(sc)
  {
    g := AddAnalyzerNodesTo(sc);
    AddFunctionNameNode(g, sc);
    FunctionGraphScoped(sc);
    g.RelabelNodes(ScopePrefix(sc));
  }

  // ---------------------------------------------------------------------------
  // Properties

  lemma LinkFacts(sc: Scope, g: Graph, from: nat, son: Option<NodeData>, kind: EdgeData)
    requires g.WellFormed() && g.HasNode(Int(from))
    ensures var r := Link(sc, g, from, son, kind);
      && r.WellFormed() && r.HasNode(Int(from))
      && r.edges == g.edges + SonEdge(from, son, kind)
      && (forall x :: g.HasNode(x) ==> r.HasNode(x))
      && (forall x :: r.HasNode(x) ==> g.HasNode(x) || (son.Some? && x == Int(son.value.id)))
      && (son.Some? ==> r.HasNode(Int(son.value.id)))
  {
    if son.Some? {
      var s := son.value;
      var g' := if g.HasNode(Int(s.id)) then g else g.WithNode(Int(s.id), AttrsOf(sc, s));
      WithNodeWellFormed(g, Int(s.id), AttrsOf(sc, s));
      WithEdgeWellFormed(g', Edge(Int(from), Int(s.id), kind));
    }
  }

  lemma {:induction false} LinkSonsFacts(sc: Scope, g: Graph, from: nat, sons: seq<Option<NodeData>>)
    requires g.WellFormed() && g.HasNode(Int(from))
    ensures var r := LinkSons(sc, g, from, sons);
      && r.WellFormed() && r.HasNode(Int(from))
      && r.edges == g.edges + SonEdges(from, sons)
      && (forall x :: g.HasNode(x) ==> r.HasNode(x))
      && (forall x :: r.HasNode(x) ==> g.HasNode(x) || exists s :: s in PresentSons(sons) && x == Int(s.id))
  {
    if |sons| > 0 {
      var init, last := sons[..|sons| - 1], sons[|sons| - 1];
      LinkSonsFacts(sc, g, from, init);
      var mid := LinkSons(sc, g, from, init);
      LinkFacts(sc, mid, from, last, Next);
      var r := LinkSons(sc, g, from, sons);
      forall x | r.HasNode(x)
        ensures g.HasNode(x) || exists s :: s in PresentSons(sons) && x == Int(s.id)
      {
        if !mid.HasNode(x) {
          assert last.Some? && x == Int(last.value.id);
          assert last.value in PresentSons(sons);
        } else if !g.HasNode(x) {
          var s :| s in PresentSons(init) && x == Int(s.id);
          assert s in PresentSons(sons);
        }
      }
    }
  }

  lemma AddAnalyzerNodeFacts(sc: Scope, g: Graph, n: AnalyzerNode)
    requires g.WellFormed()
    ensures var r := AddAnalyzerNode(sc, g, n);
      && r.WellFormed()
      && r.edges == g.edges + StepEdges(n)
      && r.HasNode(Int(n.data.id))
      && (forall x :: g.HasNode(x) ==> r.HasNode(x))
      && (forall x :: r.HasNode(x) ==> g.HasNode(x) || x.Int?)
  {
    var id := n.data.id;
    var g1 := g.WithNode(Int(id), AttrsOf(sc, n.data));
    WithNodeWellFormed(g, Int(id), AttrsOf(sc, n.data));
    if IsBranch(n.data.nodeType) {
      LinkFacts(sc, g1, id, n.sonTrue, IfTrue);
      LinkFacts(sc, Link(sc, g1, id, n.sonTrue, IfTrue), id, n.sonFalse, IfFalse);
    } else {
      LinkSonsFacts(sc, g1, id, n.sons);
    }
  }

  /** The graph of the analyzer nodes alone: well formed, its edges exactly
      the per-node contributions in node order, every analyzer node present
      and only integer keys. */
  lemma {:induction false} AddAnalyzerNodesFacts(sc: Scope, ns: seq<AnalyzerNode>)
    ensures var r := AddAnalyzerNodes(sc, EmptyGraph, ns);
      && r.WellFormed()
      && r.edges == AllStepEdges(ns)
      && (forall k :: 0 <= k < |ns| ==> r.HasNode(Int(ns[k].data.id)))
      && (forall x :: r.HasNode(x) ==> x.Int?)
  {
    if |ns| > 0 {
      var init := ns[..|ns| - 1];
      AddAnalyzerNodesFacts(sc, init);
      AddAnalyzerNodeFacts(sc, AddAnalyzerNodes(sc, EmptyGraph, init), ns[|ns| - 1]);
      var r := AddAnalyzerNodes(sc, EmptyGraph, ns);
      forall k | 0 <= k < |ns|
        ensures r.HasNode(Int(ns[k].data.id))
      {
        if k < |ns| - 1 {
          assert ns[k] == init[k];
        }
      }
    }
  }

  /** Every key but the FUNCTION_NAME node's is an integer, so the graph is
      well formed and fit for relabelling. */
  lemma FunctionGraphScoped(sc: Scope)
    ensures FunctionGraph(sc).WellFormed() && FunctionGraph(sc).ScopedNames()
  {
    var base := AddAnalyzerNodes(sc, EmptyGraph, sc.fn.nodes);
    AddAnalyzerNodesFacts(sc, sc.fn.nodes);
    var name := Str(FunctionNameId(sc));
    var g1 := base.WithNode(name, FunctionNameAttrs(sc));
    WithNodeWellFormed(base, name, FunctionNameAttrs(sc));
    FunctionNameIdScoped(sc);
    IntKeysScoped(base);
    WithNodeScoped(base, name, FunctionNameAttrs(sc));
    assert FunctionGraph(sc).nodes == g1.nodes;
    if g1.HasNode(Int(0)) {
      WithEdgeWellFormed(g1, Edge(name, Int(0), Next));
    }
  }

  lemma FunctionNameIdScoped(sc: Scope)
    ensures '_' in FunctionNameId(sc)
  {
    assert FunctionNameId(sc)[|sc.fileName|] == '_';
  }

  /** A graph whose keys are all integers has scoped names. */
  lemma IntKeysScoped(g: Graph)
    requires forall x :: g.HasNode(x) ==> x.Int?
    ensures g.ScopedNames()
  {
    forall i | 0 <= i < |g.nodes|
      ensures g.nodes[i].id.Int?
    {
      assert g.Ids()[i] == g.nodes[i].id;
    }
  }

  /** Adding a node whose string key holds an underscore keeps the names
      scoped. */
  lemma WithNodeScoped(g: Graph, id: NodeId, attrs: NodeAttrs)
    requires g.ScopedNames() && (id.Str? ==> '_' in id.s)
    ensures g.WithNode(id, attrs).ScopedNames()
  {
    var r := g.WithNode(id, attrs);
    forall i | 0 <= i < |r.nodes| && r.nodes[i].id.Str?
      ensures '_' in r.nodes[i].id.s
    {
      var x := r.nodes[i].id;
      assert r.Ids()[i] == x;
      if x != id {
        assert g.HasNode(x);
        var j :| 0 <= j < |g.Ids()| && g.Ids()[j] == x;
        assert g.nodes[j].id == x;
      }
    }
  }

  /** Relabelling keeps the function graph well formed: the new keys are
      distinct. */
  lemma ScopedFunctionGraphWellFormed(sc: Scope)
    ensures ScopedFunctionGraph(sc).WellFormed()
  {
    FunctionGraphScoped(sc);
    RelabeledWellFormed(FunctionGraph(sc), ScopePrefix(sc));
  }

  /** The FUNCTION_NAME node: key and label are both
      `file_contract_fullname`, its type is FUNCTION_NAME, it has no
      expression and no IRs, and it comes last. */
  lemma FunctionNameNode(sc: Scope)
    ensures var g := FunctionGraph(sc);
      && |g.nodes| >= 1
      && g.nodes[|g.nodes| - 1] == Node(Str(FunctionNameId(sc)), FunctionNameAttrs(sc))
      && g.nodes[|g.nodes| - 1].attrs.nodeLabel == FunctionNameId(sc)
      && g.nodes[|g.nodes| - 1].attrs.nodeType == FunctionNameType
      && g.nodes[|g.nodes| - 1].attrs.expression.None?
      && g.nodes[|g.nodes| - 1].attrs.irs.None?
  {
    var base := AddAnalyzerNodes(sc, EmptyGraph, sc.fn.nodes);
    AddAnalyzerNodesFacts(sc, sc.fn.nodes);
    assert !base.HasNode(Str(FunctionNameId(sc)));
  }

  /** The FUNCTION_NAME node has one outgoing edge, a `next` edge to node 0,
      when node 0 exists, and none otherwise; every other edge is one of the
      analyzer nodes' contributions. */
  lemma FunctionNameEdges(sc: Scope)
    ensures var g := FunctionGraph(sc);
      var base := AddAnalyzerNodes(sc, EmptyGraph, sc.fn.nodes);
      && OutEdges(g.edges, Str(FunctionNameId(sc)))
         == (if base.HasNode(Int(0)) then [Edge(Str(FunctionNameId(sc)), Int(0), Next)] else [])
      && g.edges == AllStepEdges(sc.fn.nodes)
                    + (if base.HasNode(Int(0)) then [Edge(Str(FunctionNameId(sc)), Int(0), Next)] else [])
  {
    var base := AddAnalyzerNodes(sc, EmptyGraph, sc.fn.nodes);
    AddAnalyzerNodesFacts(sc, sc.fn.nodes);
    var name := Str(FunctionNameId(sc));
    assert OutEdges(base.edges, name) == [] by {
      NoOutEdges(base.edges, name);
    }
    var g1 := base.WithNode(name, FunctionNameAttrs(sc));
    assert g1.HasNode(Int(0)) <==> base.HasNode(Int(0));
    if base.HasNode(Int(0)) {
      var es := base.edges + [Edge(name, Int(0), Next)];
      assert es[..|es| - 1] == base.edges;
    }
  }

  /** No edge of the analyzer nodes leaves a string key. */
  lemma {:induction false} NoOutEdges(es: seq<Edge>, x: NodeId)
    requires forall e :: e in es ==> e.src != x
    ensures OutEdges(es, x) == []
  {
    if |es| > 0 {
      NoOutEdges(es[..|es| - 1], x);
    }
  }

  lemma {:induction false} StepEdgesFrom(n: AnalyzerNode)
    ensures forall e :: e in StepEdges(n) ==> e.src == Int(n.data.id)
  {
    if !IsBranch(n.data.nodeType) {
      SonEdgesFrom(n.data.id, n.sons);
    }
  }

  lemma {:induction false} SonEdgesFrom(from: nat, sons: seq<Option<NodeData>>)
    ensures forall e :: e in SonEdges(from, sons) ==> e.src == Int(from)
  {
    if |sons| > 0 {
      SonEdgesFrom(from, sons[..|sons| - 1]);
    }
  }

  lemma {:induction false} OutEdgesAppend(a: seq<Edge>, b: seq<Edge>, x: NodeId)
    ensures OutEdges(a + b, x) == OutEdges(a, x) + OutEdges(b, x)
    decreases |b|
  {
    if |b| == 0 {
      assert a + b == a;
    } else {
      var b', last := b[..|b| - 1], b[|b| - 1];
      var ab := a + b;
      assert ab[..|ab| - 1] == a + b';
      assert ab[|ab| - 1] == last;
      OutEdgesAppend(a, b', x);
      var t := if last.src == x then [last] else [];
      calc {
        OutEdges(ab, x);
        OutEdges(a + b', x) + t;
        OutEdges(a, x) + OutEdges(b', x) + t;
        OutEdges(a, x) + (OutEdges(b', x) + t);
      }
    }
  }

  lemma {:induction false} OutEdgesAll(es: seq<Edge>, x: NodeId)
    requires forall i :: 0 <= i < |es| ==> es[i].src == x
    ensures OutEdges(es, x) == es
  {
    if |es| > 0 {
      var init, last := es[..|es| - 1], es[|es| - 1];
      assert forall i :: 0 <= i < |init| ==> init[i] == es[i];
      OutEdgesAll(init, x);
      assert es == init + [last];
    }
  }

  /** The edges leaving an analyzer node's key are the contribution of that
      node, when no other analyzer node of the function has the same id. */
  lemma {:induction false} OutEdgesOfNode(ns: seq<AnalyzerNode>, k: nat)
    requires k < |ns|
    requires forall j :: 0 <= j < |ns| && j != k ==> ns[j].data.id != ns[k].data.id
    ensures OutEdges(AllStepEdges(ns), Int(ns[k].data.id)) == StepEdges(ns[k])
  {
    var x := Int(ns[k].data.id);
    var init, last := ns[..|ns| - 1], ns[|ns| - 1];
    OutEdgesAppend(AllStepEdges(init), StepEdges(last), x);
    StepEdgesFrom(last);
    if k == |ns| - 1 {
      OutEdgesAll(StepEdges(last), x);
      OutEdgesNone(init, x);
    } else {
      OutEdgesOfNode(init, k);
      assert init[k] == ns[k];
      NoOutEdges(StepEdges(last), x);
    }
  }

  lemma {:induction false} OutEdgesNone(ns: seq<AnalyzerNode>, x: NodeId)
    requires forall j :: 0 <= j < |ns| ==> Int(ns[j].data.id) != x
    ensures OutEdges(AllStepEdges(ns), x) == []
  {
    if |ns| > 0 {
      var init, last := ns[..|ns| - 1], ns[|ns| - 1];
      OutEdgesAppend(AllStepEdges(init), StepEdges(last), x);
      OutEdgesNone(init, x);
      StepEdgesFrom(last);
      NoOutEdges(StepEdges(last), x);
    }
  }

  lemma CountKindAppend(a: seq<Edge>, b: seq<Edge>, kind: EdgeData)
    ensures CountKind(a + b, kind) == CountKind(a, kind) + CountKind(b, kind)
    decreases |b|
  {
    if |b| == 0 {
      assert a + b == a;
    } else {
      var b' := b[..|b| - 1];
      assert (a + b)[..|a + b| - 1] == a + b';
      CountKindAppend(a, b', kind);
    }
  }

  /** A branch node contributes at most one `if_true` and at most one
      `if_false` edge and no `next` edge. */
  lemma BranchEdgeKinds(n: AnalyzerNode)
    requires IsBranch(n.data.nodeType)
    ensures CountKind(StepEdges(n), IfTrue) == (if n.sonTrue.Some? then 1 else 0)
    ensures CountKind(StepEdges(n), IfFalse) == (if n.sonFalse.Some? then 1 else 0)
    ensures CountKind(StepEdges(n), Next) == 0
    ensures |StepEdges(n)| <= 2
  {
    var t, f := SonEdge(n.data.id, n.sonTrue, IfTrue), SonEdge(n.data.id, n.sonFalse, IfFalse);
    assert StepEdges(n) == t + f;
    KindsDistinct();
    CountKindAppend(t, f, IfTrue);
    CountKindAppend(t, f, IfFalse);
    CountKindAppend(t, f, Next);
    SonEdgeCount(n.data.id, n.sonTrue, IfTrue, IfTrue);
    SonEdgeCount(n.data.id, n.sonTrue, IfTrue, IfFalse);
    SonEdgeCount(n.data.id, n.sonTrue, IfTrue, Next);
    SonEdgeCount(n.data.id, n.sonFalse, IfFalse, IfTrue);
    SonEdgeCount(n.data.id, n.sonFalse, IfFalse, IfFalse);
    SonEdgeCount(n.data.id, n.sonFalse, IfFalse, Next);
  }

  lemma KindsDistinct()
    ensures IfTrue != IfFalse && IfTrue != Next && IfFalse != Next
  {
    assert IfTrue.edgeType[3] != IfFalse.edgeType[3];
    assert IfTrue.edgeType[0] != Next.edgeType[0];
    assert IfFalse.edgeType[0] != Next.edgeType[0];
  }

  lemma SonEdgeCount(from: nat, son: Option<NodeData>, kind: EdgeData, k: EdgeData)
    ensures |SonEdge(from, son, kind)| == (if son.Some? then 1 else 0)
    ensures CountKind(SonEdge(from, son, kind), k) == (if son.Some? && kind == k then 1 else 0)
  {
    if son.Some? {
      assert SonEdge(from, son, kind)[..0] == [];
    }
  }

  /** Any other node contributes one `next` edge per non-null successor, to
      that successor, in order. */
  lemma {:induction false} SonEdgeKinds(from: nat, sons: seq<Option<NodeData>>)
    ensures |SonEdges(from, sons)| == |PresentSons(sons)|
    ensures forall i :: 0 <= i < |SonEdges(from, sons)| ==>
              SonEdges(from, sons)[i] == Edge(Int(from), Int(PresentSons(sons)[i].id), Next)
  {
    if |sons| > 0 {
      SonEdgeKinds(from, sons[..|sons| - 1]);
    }
  }

  /** The edges leaving an analyzer node's key in the function graph are that
      node's contribution, when its id is unique in the function. */
  lemma FunctionOutEdges(sc: Scope, k: nat)
    requires k < |sc.fn.nodes|
    requires forall j :: 0 <= j < |sc.fn.nodes| && j != k ==> sc.fn.nodes[j].data.id != sc.fn.nodes[k].data.id
    ensures OutEdges(FunctionGraph(sc).edges, Int(sc.fn.nodes[k].data.id)) == StepEdges(sc.fn.nodes[k])
  {
    var x := Int(sc.fn.nodes[k].data.id);
    var a := AllStepEdges(sc.fn.nodes);
    var es := FunctionGraph(sc).edges;
    FunctionNameEdges(sc);
    OutEdgesWithTail(a, es[|a|..], x);
    assert es == a + es[|a|..];
    OutEdgesOfNode(sc.fn.nodes, k);
  }

  /** Edges that leave other keys do not change the edges leaving `x`. */
  lemma OutEdgesWithTail(a: seq<Edge>, tail: seq<Edge>, x: NodeId)
    requires x.Int? && forall e :: e in tail ==> e.src.Str?
    ensures OutEdges(a + tail, x) == OutEdges(a, x)
  {
    OutEdgesAppend(a, tail, x);
    NoOutEdges(tail, x);
    assert OutEdges(a, x) + [] == OutEdges(a, x);
  }


  /** The kinds of edge leaving an analyzer node's key: at most one
      `if_true`, at most one `if_false` and no `next` for a branch node; one
      `next` per non-null successor, to it and in order, for any other. */
  lemma NodeOutEdges(sc: Scope, k: nat)
    requires k < |sc.fn.nodes|
    requires forall j :: 0 <= j < |sc.fn.nodes| && j != k ==> sc.fn.nodes[j].data.id != sc.fn.nodes[k].data.id
    ensures var n := sc.fn.nodes[k];
      var out := OutEdges(FunctionGraph(sc).edges, Int(n.data.id));
      && (IsBranch(n.data.nodeType) ==>
            && CountKind(out, IfTrue) <= 1 && CountKind(out, IfFalse) <= 1 && CountKind(out, Next) == 0)
      && (!IsBranch(n.data.nodeType) ==>
            && |out| == |PresentSons(n.sons)|
            && forall i :: 0 <= i < |out| ==> out[i] == Edge(Int(n.data.id), Int(PresentSons(n.sons)[i].id), Next))
  {
    var n := sc.fn.nodes[k];
    FunctionOutEdges(sc, k);
    if IsBranch(n.data.nodeType) {
      BranchEdgeKinds(n);
    } else {
      SonEdgeKinds(n.data.id, n.sons);
    }
  }

  /** After relabelling, the FUNCTION_NAME node's key carries the scope
      prefix twice over: once inside its name and once from the relabel. */
  lemma RelabeledFunctionName(sc: Scope)
    ensures var g := ScopedFunctionGraph(sc);
      && |g.nodes| >= 1
      && g.nodes[|g.nodes| - 1].id
         == Str(sc.contractName + "_" + sc.fn.fullName + "_" + sc.fileName + "_" + sc.contractName + "_" + sc.fn.fullName)
      && g.nodes[|g.nodes| - 1].attrs.nodeLabel == FunctionNameId(sc)
  {
    ScopedFunctionNameNode(sc);
    DoublePrefix(sc.contractName, sc.fn.fullName, sc.fileName);
  }

  lemma ScopedFunctionNameNode(sc: Scope)
    ensures var g := ScopedFunctionGraph(sc);
      |g.nodes| >= 1 && g.nodes[|g.nodes| - 1] == Node(Str(ScopePrefix(sc) + FunctionNameId(sc)), FunctionNameAttrs(sc))
  {
    FunctionNameNode(sc);
    RelabelLast(FunctionGraph(sc), ScopePrefix(sc));
    assert IdText(Str(FunctionNameId(sc))) == FunctionNameId(sc);
  }

  /** Relabelling keeps the last node last, with its key prefixed. */
  lemma RelabelLast(g: Graph, prefix: string)
    requires |g.nodes| >= 1
    ensures var r := g.Relabeled(prefix);
      |r.nodes| == |g.nodes| && r.nodes[|r.nodes| - 1] == Node(RelabelId(prefix, g.nodes[|g.nodes| - 1].id), g.nodes[|g.nodes| - 1].attrs)
  {
  }

  lemma DoublePrefix(c: string, f: string, file: string)
    ensures (c + "_" + f + "_") + (file + "_" + c + "_" + f) == c + "_" + f + "_" + file + "_" + c + "_" + f
  {
  }
}
