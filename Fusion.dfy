/** Fusion of a contract's control-flow graph with its call graph. The
    CFG's FUNCTION_NAME nodes and the call graph's nodes are joined on their
    `label` attribute. The result of that join is a Python dict from label
    to entry, kept here with its insertion order. Each call-graph edge
    between two joined nodes is then copied into the CFG, and each joined
    CFG node takes the call graph's node type. */
module Fusion {
  import opened Common
  import opened NxGraph
  import FunctionGraph

  /** The inner dict of one label: `cfg_node_id` and `cfg_node_type` are
      always there; the two call-graph keys only once a call-graph node with
      that label has been seen. */
  datatype LabelEntry = LabelEntry(
    cfgNodeId: NodeId,
    cfgNodeType: string,
    cgNodeId: Option<NodeId>,
    cgNodeType: Option<string>)
  {
    predicate Matched()
    {
      cgNodeId.Some? && cgNodeType.Some?
    }
  }

  /** `dict_node_label_cfg_and_cg`: the keys in insertion order and the map
      they index. */
  datatype LabelIndex = LabelIndex(keys: seq<string>, entries: map<string, LabelEntry>)
  {
    predicate Valid()
    {
      Distinct(keys) && entries.Keys == set k | k in keys
    }

    /** `d[k] = v`: a new key goes to the end, an existing key keeps its
        place. */
    function Put(k: string, v: LabelEntry): (d: LabelIndex)
      requires Valid()
      ensures d.Valid()
      ensures d.entries == entries[k := v]
      ensures d.keys == if k in entries then keys else keys + [k]
    {
      LabelIndex(if k in entries then keys else keys + [k], entries[k := v])
    }

    /** `d.pop(k, None)`. */
    function Pop(k: string): (d: LabelIndex)
      ensures d.entries == entries - {k}
    {
      LabelIndex(Remove(keys, k), entries - {k})
    }

    /** `d.values()`, in key order. */
    function Values(): (vs: seq<LabelEntry>)
      requires Valid()
      ensures |vs| == |keys|
      ensures forall i :: 0 <= i < |keys| ==> vs[i] == entries[keys[i]]
    {
      seq(|keys|, i requires 0 <= i < |keys| => entries[keys[i]])
    }
  }

  const EmptyIndex := LabelIndex([], map[])

  /** `s` without any occurrence of `x`. */
  function Remove(s: seq<string>, x: string): seq<string>
  {
    if |s| == 0 then []
    else Remove(s[..|s| - 1], x) + (if s[|s| - 1] == x then [] else [s[|s| - 1]])
  }

  lemma {:induction false} RemoveAbsent(s: seq<string>, x: string)
    requires x !in s
    ensures Remove(s, x) == s
  {
    if |s| > 0 {
      RemoveAbsent(s[..|s| - 1], x);
      assert s == s[..|s| - 1] + [s[|s| - 1]];
    }
  }

  lemma {:induction false} RemoveConcat(a: seq<string>, b: seq<string>, x: string)
    ensures Remove(a + b, x) == Remove(a, x) + Remove(b, x)
  {
    if |b| > 0 {
      var b' := b[..|b| - 1];
      RemoveConcat(a, b', x);
      assert (a + b)[..|a + b| - 1] == a + b';
    } else {
      assert a + b == a;
    }
  }

  /** Popping the only occurrence of `x` from `a + [x] + b`. */
  lemma RemoveMiddle(a: seq<string>, x: string, b: seq<string>)
    requires x !in a && x !in b
    ensures Remove(a + [x] + b, x) == a + b
  {
    var ax := a + [x];
    RemoveConcat(ax, b, x);
    assert Remove(ax, x) == Remove(a, x) by {
      assert ax[..|ax| - 1] == a;
    }
    RemoveAbsent(a, x);
    RemoveAbsent(b, x);
  }

  // ---------------------------------------------------------------------
  // Reference definitions: the last node that carries a label.
  // ---------------------------------------------------------------------

  predicate IsFunctionName(n: Node, k: string)
  {
    n.attrs.nodeType == FunctionGraph.FunctionNameType && n.attrs.nodeLabel == k
  }

  /** The position of the last FUNCTION_NAME node labelled `k`. */
  function LastFunctionName(ns: seq<Node>, k: string): (r: Option<nat>)
    ensures r.Some? ==> r.value < |ns|
  {
    if |ns| == 0 then None
    else if IsFunctionName(ns[|ns| - 1], k) then Some(|ns| - 1)
    else LastFunctionName(ns[..|ns| - 1], k)
  }

  /** The position of the last node labelled `k`, whatever its type. */
  function LastLabelled(ns: seq<Node>, k: string): (r: Option<nat>)
    ensures r.Some? ==> r.value < |ns|
  {
    if |ns| == 0 then None
    else if ns[|ns| - 1].attrs.nodeLabel == k then Some(|ns| - 1)
    else LastLabelled(ns[..|ns| - 1], k)
  }

  lemma {:induction false} LastFunctionNameFacts(ns: seq<Node>, k: string)
    ensures var r := LastFunctionName(ns, k);
            && (r.Some? ==> IsFunctionName(ns[r.value], k))
            && (r.Some? ==> forall i :: r.value < i < |ns| ==> !IsFunctionName(ns[i], k))
            && (r.None? <==> forall i :: 0 <= i < |ns| ==> !IsFunctionName(ns[i], k))
  {
    if |ns| > 0 {
      var init := ns[..|ns| - 1];
      LastFunctionNameFacts(init, k);
      assert forall i :: 0 <= i < |init| ==> init[i] == ns[i];
    }
  }

  lemma {:induction false} LastLabelledFacts(ns: seq<Node>, k: string)
    ensures var r := LastLabelled(ns, k);
            && (r.Some? ==> ns[r.value].attrs.nodeLabel == k)
            && (r.Some? ==> forall i :: r.value < i < |ns| ==> ns[i].attrs.nodeLabel != k)
            && (r.None? <==> forall i :: 0 <= i < |ns| ==> ns[i].attrs.nodeLabel != k)
  {
    if |ns| > 0 {
      var init := ns[..|ns| - 1];
      LastLabelledFacts(init, k);
      assert forall i :: 0 <= i < |init| ==> init[i] == ns[i];
    }
  }

  /** The distinct labels of the FUNCTION_NAME nodes. */
  function FunctionNameLabels(ns: seq<Node>): set<string>
  {
    set i | 0 <= i < |ns| && ns[i].attrs.nodeType == FunctionGraph.FunctionNameType :: ns[i].attrs.nodeLabel
  }

  // ---------------------------------------------------------------------
  // mapping_cfg_and_cg_node_labels
  // ---------------------------------------------------------------------

  /** The dict after the loop over the CFG nodes `ns`. */
  function IndexFunctionNames(ns: seq<Node>): (d: LabelIndex)
    ensures d.Valid()
  {
    if |ns| == 0 then EmptyIndex
    else
      var d := IndexFunctionNames(ns[..|ns| - 1]);
      var n := ns[|ns| - 1];
      if n.attrs.nodeType == FunctionGraph.FunctionNameType then
        d.Put(n.attrs.nodeLabel, LabelEntry(n.id, n.attrs.nodeType, None, None))
      else d
  }

  /** The entry `d[label]` after a call-graph node `n` with that label. */
  function WithCallGraphNode(e: LabelEntry, n: Node): LabelEntry
  {
    e.(cgNodeId := Some(n.id), cgNodeType := Some(Upper(n.attrs.nodeType)))
  }

  /** The dict after the loop over the call-graph nodes `ns`. */
  function MatchCallGraph(d: LabelIndex, ns: seq<Node>): (r: LabelIndex)
    requires d.Valid()
    ensures r.Valid()
  {
    if |ns| == 0 then d
    else
      var r := MatchCallGraph(d, ns[..|ns| - 1]);
      var n := ns[|ns| - 1];
      if n.attrs.nodeLabel in r.entries then
        r.Put(n.attrs.nodeLabel, WithCallGraphNode(r.entries[n.attrs.nodeLabel], n))
      else r
  }

  /** The keys of `ks` whose entry is matched, in order. */
  function FilterMatched(ks: seq<string>, es: map<string, LabelEntry>): seq<string>
    requires forall k :: k in ks ==> k in es
  {
    if |ks| == 0 then []
    else
      var last := ks[|ks| - 1];
      FilterMatched(ks[..|ks| - 1], es) + (if es[last].Matched() then [last] else [])
  }

  /** Filtering keeps exactly the matched keys and repeats none. */
  lemma {:induction false} FilterMatchedFacts(ks: seq<string>, es: map<string, LabelEntry>)
    requires forall k :: k in ks ==> k in es
    ensures forall k :: k in FilterMatched(ks, es) <==> k in ks && es[k].Matched()
    ensures Distinct(ks) ==> Distinct(FilterMatched(ks, es))
  {
    if |ks| > 0 {
      var init := ks[..|ks| - 1];
      FilterMatchedFacts(init, es);
      assert forall k :: k in ks <==> k in init || k == ks[|ks| - 1];
      if Distinct(ks) {
        assert Distinct(init);
        DistinctSplit(ks, |ks| - 1);
      }
    }
  }

  /** The dict after the pruning loop. */
  function Pruned(d: LabelIndex): (r: LabelIndex)
    requires d.Valid()
    ensures r.Valid()
  {
    FilterMatchedFacts(d.keys, d.entries);
    LabelIndex(FilterMatched(d.keys, d.entries),
               map k | k in d.entries && d.entries[k].Matched() :: d.entries[k])
  }

  /** What `mapping_cfg_and_cg_node_labels(cfg, call_graph)` returns. */
  function Mapping(cfg: Graph, cg: Graph): (d: LabelIndex)
    ensures d.Valid()
  {
    Pruned(MatchCallGraph(IndexFunctionNames(cfg.nodes), cg.nodes))
  }

  /** The index of the CFG's FUNCTION_NAME labels holds label `k` iff some
      FUNCTION_NAME node carries it, and then the last such node. */
  lemma {:induction false} IndexEntry(ns: seq<Node>, k: string)
    ensures k in IndexFunctionNames(ns).entries <==> LastFunctionName(ns, k).Some?
    ensures k in IndexFunctionNames(ns).entries ==>
              IndexFunctionNames(ns).entries[k]
                == LabelEntry(ns[LastFunctionName(ns, k).value].id, FunctionGraph.FunctionNameType, None, None)
  {
    if |ns| > 0 {
      var init := ns[..|ns| - 1];
      IndexEntry(init, k);
      var r := LastFunctionName(ns, k);
      if r.Some? && r.value < |init| {
        assert ns[r.value] == init[r.value];
      }
    }
  }

  /** Matching against the call graph adds and removes no key. */
  lemma {:induction false} MatchKeys(d: LabelIndex, ns: seq<Node>)
    requires d.Valid()
    ensures MatchCallGraph(d, ns).keys == d.keys
    ensures MatchCallGraph(d, ns).entries.Keys == d.entries.Keys
  {
    if |ns| > 0 {
      MatchKeys(d, ns[..|ns| - 1]);
    }
  }

  /** Matching gives entry `k` the id and upper-cased type of the last
      call-graph node labelled `k`, and leaves it alone if there is none. */
  lemma {:induction false} MatchEntry(d: LabelIndex, ns: seq<Node>, k: string)
    requires d.Valid() && k in d.entries
    ensures k in MatchCallGraph(d, ns).entries
    ensures MatchCallGraph(d, ns).entries[k]
            == if LastLabelled(ns, k).Some? then WithCallGraphNode(d.entries[k], ns[LastLabelled(ns, k).value])
               else d.entries[k]
  {
    MatchKeys(d, ns);
    if |ns| > 0 {
      var init := ns[..|ns| - 1];
      MatchEntry(d, init, k);
      MatchKeys(d, init);
      var r := LastLabelled(ns, k);
      if r.Some? && r.value < |init| {
        assert ns[r.value] == init[r.value];
      }
    }
  }

  /** The returned dict holds label `k` iff a CFG FUNCTION_NAME node and a
      call-graph node both carry it; its entry holds the last such CFG node,
      the last such call-graph node and that node's upper-cased type. */
  lemma MappingEntry(cfg: Graph, cg: Graph, k: string)
    ensures k in Mapping(cfg, cg).entries <==>
            LastFunctionName(cfg.nodes, k).Some? && LastLabelled(cg.nodes, k).Some?
    ensures k in Mapping(cfg, cg).entries ==>
              var c := cfg.nodes[LastFunctionName(cfg.nodes, k).value];
              var n := cg.nodes[LastLabelled(cg.nodes, k).value];
              Mapping(cfg, cg).entries[k]
                == LabelEntry(c.id, FunctionGraph.FunctionNameType, Some(n.id), Some(Upper(n.attrs.nodeType)))
  {
    var d0 := IndexFunctionNames(cfg.nodes);
    IndexEntry(cfg.nodes, k);
    MatchKeys(d0, cg.nodes);
    if k in d0.entries {
      MatchEntry(d0, cg.nodes, k);
    }
  }

  /** Every kept entry has both call-graph keys. */
  lemma MappingMatched(cfg: Graph, cg: Graph)
    ensures forall k :: k in Mapping(cfg, cg).entries ==> Mapping(cfg, cg).entries[k].Matched()
  {
    forall k | k in Mapping(cfg, cg).entries
      ensures Mapping(cfg, cg).entries[k].Matched()
    {
      MappingEntry(cfg, cg, k);
    }
  }

  lemma {:induction false} DistinctCard(s: seq<string>)
    requires Distinct(s)
    ensures |set x | x in s| == |s|
  {
    if |s| > 0 {
      var init := s[..|s| - 1];
      assert Distinct(init);
      DistinctCard(init);
      assert (set x | x in s) == (set x | x in init) + {s[|s| - 1]};
    }
  }

  lemma {:induction false} SubsetCard(a: set<string>, b: set<string>)
    requires a <= b
    ensures |a| <= |b|
    decreases a
  {
    if a != {} {
      var x :| x in a;
      SubsetCard(a - {x}, b - {x});
    }
  }

  /** The dict has at most one entry per distinct FUNCTION_NAME label. */
  lemma MappingSize(cfg: Graph, cg: Graph)
    ensures |Mapping(cfg, cg).keys| <= |FunctionNameLabels(cfg.nodes)|
  {
    var d := Mapping(cfg, cg);
    DistinctCard(d.keys);
    forall k | k in d.keys
      ensures k in FunctionNameLabels(cfg.nodes)
    {
      MappingEntry(cfg, cg, k);
      LastFunctionNameFacts(cfg.nodes, k);
      var i := LastFunctionName(cfg.nodes, k).value;
      assert cfg.nodes[i].attrs.nodeLabel == k;
    }
    SubsetCard((set x | x in d.keys), FunctionNameLabels(cfg.nodes));
  }

  /** In well-formed graphs no two entries share a CFG node or a call-graph
      node: each node carries one label. */
  lemma MappingInjective(cfg: Graph, cg: Graph, k1: string, k2: string)
    requires cfg.WellFormed() && cg.WellFormed()
    requires k1 in Mapping(cfg, cg).entries && k2 in Mapping(cfg, cg).entries && k1 != k2
    ensures Mapping(cfg, cg).entries[k1].cfgNodeId != Mapping(cfg, cg).entries[k2].cfgNodeId
    ensures Mapping(cfg, cg).entries[k1].cgNodeId != Mapping(cfg, cg).entries[k2].cgNodeId
  {
    MappingEntry(cfg, cg, k1);
    MappingEntry(cfg, cg, k2);
    LastFunctionNameFacts(cfg.nodes, k1);
    LastFunctionNameFacts(cfg.nodes, k2);
    LastLabelledFacts(cg.nodes, k1);
    LastLabelledFacts(cg.nodes, k2);
    var i1, i2 := LastFunctionName(cfg.nodes, k1).value, LastFunctionName(cfg.nodes, k2).value;
    var j1, j2 := LastLabelled(cg.nodes, k1).value, LastLabelled(cg.nodes, k2).value;
    assert cfg.Ids()[i1] == cfg.nodes[i1].id && cfg.Ids()[i2] == cfg.nodes[i2].id;
    assert cg.Ids()[j1] == cg.nodes[j1].id && cg.Ids()[j2] == cg.nodes[j2].id;
  }

  /** The loop over the CFG nodes (the first loop of
      `mapping_cfg_and_cg_node_labels`). */
  method IndexCfgNodes(cfg: MultiDiGraph) returns (d: LabelIndex)
    ensures d == IndexFunctionNames(cfg.nodes)
  {
    var ns := cfg.nodes;
    d := EmptyIndex;
    var i := 0;
    while i < |ns|
      invariant 0 <= i <= |ns|
      invariant d == IndexFunctionNames(ns[..i])
    {
      var n := ns[i];
      if n.attrs.nodeType == FunctionGraph.FunctionNameType {
        d := d.Put(n.attrs.nodeLabel, LabelEntry(n.id, n.attrs.nodeType, None, None));
      }
      assert ns[..i + 1][..i] == ns[..i];
      i := i + 1;
    }
    assert ns[..i] == ns;
  }

  /** The loop over the call-graph nodes. */
  method MatchCgNodes(d0: LabelIndex, cg: MultiDiGraph) returns (d: LabelIndex)
    requires d0.Valid()
    ensures d == MatchCallGraph(d0, cg.nodes)
  {
    var ns := cg.nodes;
    d := d0;
    var i := 0;
    while i < |ns|
      invariant 0 <= i <= |ns|
      invariant d == MatchCallGraph(d0, ns[..i])
    {
      var n := ns[i];
      if n.attrs.nodeLabel in d.entries {
        d := d.Put(n.attrs.nodeLabel, WithCallGraphNode(d.entries[n.attrs.nodeLabel], n));
      }
      assert ns[..i + 1][..i] == ns[..i];
      i := i + 1;
    }
    assert ns[..i] == ns;
  }

  /** The keys left after the pruning loop has visited the keys before
      `i`: those are filtered, the rest still stand. */
  function PartlyPrunedKeys(temp: LabelIndex, i: nat): seq<string>
    requires temp.Valid() && i <= |temp.keys|
  {
    FilterMatched(temp.keys[..i], temp.entries) + temp.keys[i..]
  }

  /** The entries left after the pruning loop has visited the keys before
      `i`. */
  function PartlyPruned(temp: LabelIndex, i: nat): map<string, LabelEntry>
    requires i <= |temp.keys|
  {
    map k | k in temp.entries && (k in temp.keys[i..] || temp.entries[k].Matched()) :: temp.entries[k]
  }

  /** Nothing is pruned before the loop; everything unmatched after it. */
  lemma PruneEnds(temp: LabelIndex)
    requires temp.Valid()
    ensures PartlyPrunedKeys(temp, 0) == temp.keys && PartlyPruned(temp, 0) == temp.entries
    ensures PartlyPrunedKeys(temp, |temp.keys|) == Pruned(temp).keys
    ensures PartlyPruned(temp, |temp.keys|) == Pruned(temp).entries
  {
    assert temp.keys[..0] == [] && temp.keys[0..] == temp.keys;
    assert temp.keys[..|temp.keys|] == temp.keys && temp.keys[|temp.keys|..] == [];
  }

  /** A key of a sequence without repeats occurs neither before nor after
      its own position. */
  lemma DistinctSplit(ks: seq<string>, i: nat)
    requires Distinct(ks) && i < |ks|
    ensures ks[i] !in ks[..i] && ks[i] !in ks[i + 1..]
  {
  }

  /** One step of the pruning loop on the keys: key `i` is kept when it is
      matched and popped otherwise. */
  lemma FilterStep(ks: seq<string>, es: map<string, LabelEntry>, i: nat)
    requires forall k :: k in ks ==> k in es
    requires Distinct(ks) && i < |ks|
    ensures FilterMatched(ks[..i + 1], es) + ks[i + 1..]
            == if es[ks[i]].Matched() then FilterMatched(ks[..i], es) + ks[i..]
               else Remove(FilterMatched(ks[..i], es) + ks[i..], ks[i])
  {
    var k := ks[i];
    var done := FilterMatched(ks[..i], es);
    var rest := ks[i + 1..];
    assert ks[..i + 1][..i] == ks[..i];
    assert ks[i..] == [k] + rest;
    assert done + ks[i..] == done + [k] + rest;
    if !es[k].Matched() {
      assert k !in done by {
        FilterMatchedFacts(ks[..i], es);
        DistinctSplit(ks, i);
      }
      DistinctSplit(ks, i);
      RemoveMiddle(done, k, rest);
    }
  }

  lemma PruneKeysStep(temp: LabelIndex, i: nat)
    requires temp.Valid() && i < |temp.keys|
    ensures PartlyPrunedKeys(temp, i + 1)
            == if temp.entries[temp.keys[i]].Matched() then PartlyPrunedKeys(temp, i)
               else Remove(PartlyPrunedKeys(temp, i), temp.keys[i])
  {
    FilterStep(temp.keys, temp.entries, i);
  }

  lemma PruneEntriesStep(temp: LabelIndex, i: nat)
    requires temp.Valid() && i < |temp.keys|
    ensures PartlyPruned(temp, i + 1)
            == if temp.entries[temp.keys[i]].Matched() then PartlyPruned(temp, i)
               else PartlyPruned(temp, i) - {temp.keys[i]}
  {
    var k := temp.keys[i];
    var before, after := PartlyPruned(temp, i), PartlyPruned(temp, i + 1);
    assert temp.keys[i..] == [k] + temp.keys[i + 1..];
    DistinctSplit(temp.keys, i);
    if temp.entries[k].Matched() {
      assert after.Keys == before.Keys;
    } else {
      assert after.Keys == before.Keys - {k};
    }
  }

  /** The pruning loop over a copy of the dict. */
  method PruneUnmatched(temp: LabelIndex) returns (d: LabelIndex)
    requires temp.Valid()
    ensures d == Pruned(temp)
  {
    PruneEnds(temp);
    d := temp;
    var i := 0;
    while i < |temp.keys|
      invariant 0 <= i <= |temp.keys|
      invariant d.keys == PartlyPrunedKeys(temp, i)
      invariant d.entries == PartlyPruned(temp, i)
    {
      var k := temp.keys[i];
      PruneKeysStep(temp, i);
      PruneEntriesStep(temp, i);
      if !temp.entries[k].Matched() {
        d := d.Pop(k);
      }
      i := i + 1;
    }
  }

  /** `mapping_cfg_and_cg_node_labels(cfg, call_graph)`. */
  method MappingCfgAndCgNodeLabels(cfg: MultiDiGraph, cg: MultiDiGraph) returns (d: LabelIndex)
    ensures d == Mapping(cfg.Value(), cg.Value())
  {
    var indexed := IndexCfgNodes(cfg);
    var matched := MatchCgNodes(indexed, cg);
    d := PruneUnmatched(matched);
  }

  // ---------------------------------------------------------------------
  // add_new_cfg_edges_from_call_graph
  // ---------------------------------------------------------------------

  /** The CFG id the scan over `vs` settles on for call-graph node `x`: the
      last entry whose call-graph id is `x`. */
  function LastCfgFor(vs: seq<LabelEntry>, x: NodeId): Option<NodeId>
  {
    if |vs| == 0 then None
    else if vs[|vs| - 1].cgNodeId == Some(x) then Some(vs[|vs| - 1].cfgNodeId)
    else LastCfgFor(vs[..|vs| - 1], x)
  }

  /** The scan finds a CFG id iff some entry holds `x`, and then one such
      entry's. */
  lemma {:induction false} LastCfgForFacts(vs: seq<LabelEntry>, x: NodeId)
    ensures var r := LastCfgFor(vs, x);
            && (r.Some? ==> exists i :: 0 <= i < |vs| && vs[i].cgNodeId == Some(x) && vs[i].cfgNodeId == r.value)
            && (r.None? <==> forall i :: 0 <= i < |vs| ==> vs[i].cgNodeId != Some(x))
  {
    if |vs| > 0 {
      var init := vs[..|vs| - 1];
      LastCfgForFacts(init, x);
      assert forall i :: 0 <= i < |init| ==> init[i] == vs[i];
    }
  }

  /** `list_new_edges_cfg`: the call-graph edges both of whose ends are
      mapped, moved onto the CFG ids, in call-graph edge order. */
  function Projected(vs: seq<LabelEntry>, es: seq<Edge>): seq<Edge>
  {
    if |es| == 0 then []
    else
      var e := es[|es| - 1];
      var s, t := LastCfgFor(vs, e.src), LastCfgFor(vs, e.dst);
      Projected(vs, es[..|es| - 1]) + (if s.Some? && t.Some? then [Edge(s.value, t.value, e.data)] else [])
  }

  /** `e'` is the image of call-graph edge `e`. */
  predicate ProjectsTo(vs: seq<LabelEntry>, e: Edge, e': Edge)
  {
    LastCfgFor(vs, e.src) == Some(e'.src) && LastCfgFor(vs, e.dst) == Some(e'.dst) && e'.data == e.data
  }

  /** No more new edges than call-graph edges, and each new edge joins two
      CFG ids held by the dict. */
  lemma {:induction false} ProjectedBounds(vs: seq<LabelEntry>, es: seq<Edge>)
    ensures |Projected(vs, es)| <= |es|
    ensures forall e :: e in Projected(vs, es) ==>
              (exists i :: 0 <= i < |vs| && vs[i].cfgNodeId == e.src) &&
              (exists i :: 0 <= i < |vs| && vs[i].cfgNodeId == e.dst)
  {
    if |es| > 0 {
      ProjectedBounds(vs, es[..|es| - 1]);
      LastCfgForFacts(vs, es[|es| - 1].src);
      LastCfgForFacts(vs, es[|es| - 1].dst);
    }
  }

  /** A CFG edge is added iff some call-graph edge has both ends mapped and
      projects onto it. */
  lemma {:induction false} ProjectedMembership(vs: seq<LabelEntry>, es: seq<Edge>, e': Edge)
    ensures e' in Projected(vs, es) <==> exists i :: 0 <= i < |es| && ProjectsTo(vs, es[i], e')
  {
    if |es| > 0 {
      var init := es[..|es| - 1];
      ProjectedMembership(vs, init, e');
      if exists i :: 0 <= i < |es| && ProjectsTo(vs, es[i], e') {
        var i :| 0 <= i < |es| && ProjectsTo(vs, es[i], e');
        if i < |init| {
          assert init[i] == es[i];
        }
      }
      if exists i :: 0 <= i < |init| && ProjectsTo(vs, init[i], e') {
        var i :| 0 <= i < |init| && ProjectsTo(vs, init[i], e');
        assert es[i] == init[i];
      }
    }
  }

  /** Projection keeps call-graph edge order: it distributes over
      concatenation. */
  lemma {:induction false} ProjectedConcat(vs: seq<LabelEntry>, a: seq<Edge>, b: seq<Edge>)
    ensures Projected(vs, a + b) == Projected(vs, a) + Projected(vs, b)
  {
    if |b| == 0 {
      assert a + b == a;
    } else {
      var b' := b[..|b| - 1];
      ProjectedConcat(vs, a, b');
      assert (a + b)[..|a + b| - 1] == a + b';
    }
  }

  /** An edge with an unmapped end adds nothing. */
  lemma ProjectedDropsUnmapped(vs: seq<LabelEntry>, e: Edge)
    requires LastCfgFor(vs, e.src).None? || LastCfgFor(vs, e.dst).None?
    ensures Projected(vs, [e]) == []
  {
    assert [e][..0] == [];
  }

  /** For the dict built from well-formed graphs, the scan for a mapped
      call-graph node finds exactly the entry of its label. */
  lemma MappingLookup(cfg: Graph, cg: Graph, k: string)
    requires cfg.WellFormed() && cg.WellFormed()
    requires k in Mapping(cfg, cg).entries
    ensures Mapping(cfg, cg).entries[k].cgNodeId.Some?
    ensures LastCfgFor(Mapping(cfg, cg).Values(), Mapping(cfg, cg).entries[k].cgNodeId.value)
            == Some(Mapping(cfg, cg).entries[k].cfgNodeId)
  {
    var d := Mapping(cfg, cg);
    var vs := d.Values();
    MappingMatched(cfg, cg);
    var x := d.entries[k].cgNodeId.value;
    var p :| 0 <= p < |d.keys| && d.keys[p] == k;
    assert vs[p].cgNodeId == Some(x);
    var r := LastCfgFor(vs, x);
    LastCfgForFacts(vs, x);
    var i :| 0 <= i < |vs| && vs[i].cgNodeId == Some(x) && vs[i].cfgNodeId == r.value;
    if d.keys[i] != k {
      MappingInjective(cfg, cg, d.keys[i], k);
    }
  }

  /** The scan over the dict's values for one call-graph edge: the CFG ids
      of its source and target, last match winning. */
  method ScanEntries(vs: seq<LabelEntry>, e: Edge) returns (source: Option<NodeId>, target: Option<NodeId>)
    ensures source == LastCfgFor(vs, e.src) && target == LastCfgFor(vs, e.dst)
  {
    source, target := None, None;
    var j := 0;
    while j < |vs|
      invariant 0 <= j <= |vs|
      invariant source == LastCfgFor(vs[..j], e.src)
      invariant target == LastCfgFor(vs[..j], e.dst)
    {
      if vs[j].cgNodeId == Some(e.src) {
        source := Some(vs[j].cfgNodeId);
      }
      if vs[j].cgNodeId == Some(e.dst) {
        target := Some(vs[j].cfgNodeId);
      }
      assert vs[..j + 1][..j] == vs[..j];
      j := j + 1;
    }
    assert vs[..j] == vs;
  }

  /** The loop building `list_new_edges_cfg`. */
  method ProjectEdges(vs: seq<LabelEntry>, es: seq<Edge>) returns (newEdges: seq<Edge>)
    ensures newEdges == Projected(vs, es)
  {
    newEdges := [];
    var i := 0;
    while i < |es|
      invariant 0 <= i <= |es|
      invariant newEdges == Projected(vs, es[..i])
    {
      var e := es[i];
      var source, target := ScanEntries(vs, e);
      if source.Some? && target.Some? {
        newEdges := newEdges + [Edge(source.value, target.value, e.data)];
      }
      assert es[..i + 1][..i] == es[..i];
      i := i + 1;
    }
    assert es[..i] == es;
  }

  /** `add_new_cfg_edges_from_call_graph(cfg, dict_node_label, call_graph)`.
      Every entry must hold a call-graph id (the scan reads it), and every
      CFG id must already be a CFG node. */
  method AddNewCfgEdgesFromCallGraph(cfg: MultiDiGraph, d: LabelIndex, cg: MultiDiGraph) returns (r: MultiDiGraph)
    requires cfg.Valid() && d.Valid()
    requires forall k :: k in d.entries ==> d.entries[k].cgNodeId.Some?
    requires forall k :: k in d.entries ==> cfg.HasNode(d.entries[k].cfgNodeId)
    modifies cfg
    ensures r == cfg && cfg.Valid()
    ensures cfg.nodes == old(cfg.nodes)
    ensures cfg.edges == old(cfg.edges) + Projected(d.Values(), old(cg.edges))
  {
    var vs := d.Values();
    var newEdges := ProjectEdges(vs, cg.edges);
    ProjectedBounds(vs, cg.edges);
    forall e | e in newEdges
      ensures cfg.HasNode(e.src) && cfg.HasNode(e.dst)
    {
      var a :| 0 <= a < |vs| && vs[a].cfgNodeId == e.src;
      var b :| 0 <= b < |vs| && vs[b].cfgNodeId == e.dst;
      assert d.keys[a] in d.entries && d.keys[b] in d.entries;
    }
    cfg.AddEdgesFrom(newEdges);
    r := cfg;
  }

  // ---------------------------------------------------------------------
  // update_cfg_node_types_by_call_graph_node_types
  // ---------------------------------------------------------------------

  /** The call-graph type the last entry for CFG node `id` assigns. */
  function LastTypeFor(vs: seq<LabelEntry>, id: NodeId): Option<string>
  {
    if |vs| == 0 then None
    else if vs[|vs| - 1].cfgNodeId == id then vs[|vs| - 1].cgNodeType
    else LastTypeFor(vs[..|vs| - 1], id)
  }

  /** The type found for `id` is the call-graph type of an entry for `id`;
      none is found iff no entry points at `id`. */
  lemma {:induction false} LastTypeForFacts(vs: seq<LabelEntry>, id: NodeId)
    requires forall i :: 0 <= i < |vs| ==> vs[i].cgNodeType.Some?
    ensures var r := LastTypeFor(vs, id);
            && (r.Some? ==> exists i :: 0 <= i < |vs| && vs[i].cfgNodeId == id && vs[i].cgNodeType == r)
            && (r.None? <==> forall i :: 0 <= i < |vs| ==> vs[i].cfgNodeId != id)
  {
    if |vs| > 0 {
      var init := vs[..|vs| - 1];
      LastTypeForFacts(init, id);
      assert forall i :: 0 <= i < |init| ==> init[i] == vs[i];
    }
  }

  /** The `node_type` a node ends with. */
  function NewType(vs: seq<LabelEntry>, id: NodeId, t: string): string
    requires forall i :: 0 <= i < |vs| ==> vs[i].cgNodeType.Some?
  {
    match LastTypeFor(vs, id)
    case Some(t') => t'
    case None => t
  }

  /** The CFG after the loop over `vs`. */
  function RetypeAll(g: Graph, vs: seq<LabelEntry>): (r: Graph)
    requires forall i :: 0 <= i < |vs| ==> vs[i].cgNodeType.Some?
    ensures r.edges == g.edges && r.Ids() == g.Ids()
  {
    if |vs| == 0 then g
    else
      var v := vs[|vs| - 1];
      RetypeAll(g, vs[..|vs| - 1]).WithNodeType(v.cfgNodeId, v.cgNodeType.value)
  }

  lemma RetypeStep(g: Graph, vs: seq<LabelEntry>, i: nat)
    requires forall j :: 0 <= j < |vs| ==> vs[j].cgNodeType.Some?
    requires i < |vs|
    ensures RetypeAll(g, vs[..i + 1]) == RetypeAll(g, vs[..i]).WithNodeType(vs[i].cfgNodeId, vs[i].cgNodeType.value)
  {
    assert vs[..i + 1][..i] == vs[..i];
  }

  /** Node by node: a node some entry points at takes the last such entry's
      call-graph type; its key, its other attributes, every other node and
      every edge are unchanged. */
  lemma {:induction false} RetypePointwise(g: Graph, vs: seq<LabelEntry>)
    requires forall i :: 0 <= i < |vs| ==> vs[i].cgNodeType.Some?
    ensures |RetypeAll(g, vs).nodes| == |g.nodes|
    ensures forall i :: 0 <= i < |g.nodes| ==>
              RetypeAll(g, vs).nodes[i]
                == Node(g.nodes[i].id, g.nodes[i].attrs.(nodeType := NewType(vs, g.nodes[i].id, g.nodes[i].attrs.nodeType)))
  {
    if |vs| > 0 {
      RetypePointwise(g, vs[..|vs| - 1]);
    }
  }

  /** Running the update twice with the same dict equals running it once. */
  lemma RetypeIdempotent(g: Graph, vs: seq<LabelEntry>)
    requires forall i :: 0 <= i < |vs| ==> vs[i].cgNodeType.Some?
    ensures RetypeAll(RetypeAll(g, vs), vs) == RetypeAll(g, vs)
  {
    var once := RetypeAll(g, vs);
    var twice := RetypeAll(once, vs);
    RetypePointwise(g, vs);
    RetypePointwise(once, vs);
    assert twice.nodes == once.nodes;
  }

  /** On the dict built from well-formed graphs, each joined CFG node ends
      with the upper-cased type of its call-graph node. */
  lemma FusedNodeType(cfg: Graph, cg: Graph, k: string)
    requires cfg.WellFormed() && cg.WellFormed()
    requires k in Mapping(cfg, cg).entries
    ensures forall i :: 0 <= i < |Mapping(cfg, cg).keys| ==> Mapping(cfg, cg).Values()[i].cgNodeType.Some?
    ensures LastTypeFor(Mapping(cfg, cg).Values(), Mapping(cfg, cg).entries[k].cfgNodeId)
            == Mapping(cfg, cg).entries[k].cgNodeType
  {
    var d := Mapping(cfg, cg);
    var vs := d.Values();
    MappingMatched(cfg, cg);
    var id := d.entries[k].cfgNodeId;
    var p :| 0 <= p < |d.keys| && d.keys[p] == k;
    assert vs[p].cfgNodeId == id;
    var r := LastTypeFor(vs, id);
    LastTypeForFacts(vs, id);
    var i :| 0 <= i < |vs| && vs[i].cfgNodeId == id && vs[i].cgNodeType == r;
    if d.keys[i] != k {
      MappingInjective(cfg, cg, d.keys[i], k);
    }
  }

  /** The loop of `update_cfg_node_types_by_call_graph_node_types` over
      the dict's values `vs`. */
  method RetypeNodes(cfg: MultiDiGraph, vs: seq<LabelEntry>)
    requires cfg.Valid()
    requires forall j :: 0 <= j < |vs| ==> vs[j].cgNodeType.Some? && cfg.HasNode(vs[j].cfgNodeId)
    modifies cfg
    ensures cfg.Valid()
    ensures cfg.Value() == RetypeAll(old(cfg.Value()), vs)
  {
    ghost var g0 := cfg.Value();
    var i := 0;
    while i < |vs|
      invariant 0 <= i <= |vs|
      invariant cfg.Valid() && cfg.Value().Ids() == g0.Ids()
      invariant cfg.Value() == RetypeAll(g0, vs[..i])
    {
      RetypeStep(g0, vs, i);
      assert g0.HasNode(vs[i].cfgNodeId);
      cfg.SetNodeType(vs[i].cfgNodeId, vs[i].cgNodeType.value);
      i := i + 1;
    }
    assert vs[..i] == vs;
  }

  /** `update_cfg_node_types_by_call_graph_node_types(cfg, dict_node_label)`.
      Every entry must hold a call-graph type and a CFG id that is a CFG
      node (the loop reads both). */
  method UpdateCfgNodeTypesByCallGraphNodeTypes(cfg: MultiDiGraph, d: LabelIndex)
    requires cfg.Valid() && d.Valid()
    requires forall k :: k in d.entries ==> d.entries[k].cgNodeType.Some?
    requires forall k :: k in d.entries ==> cfg.HasNode(d.entries[k].cfgNodeId)
    modifies cfg
    ensures cfg.Valid()
    ensures cfg.Value() == RetypeAll(old(cfg.Value()), d.Values())
  {
    var vs := d.Values();
    forall j | 0 <= j < |vs|
      ensures vs[j].cgNodeType.Some? && cfg.HasNode(vs[j].cfgNodeId)
    {
      assert d.keys[j] in d.entries;
    }
    RetypeNodes(cfg, vs);
  }

  // ---------------------------------------------------------------------
  // The three passes in sequence
  // ---------------------------------------------------------------------

  /** The dict built from `cfg` only names CFG nodes, and every entry holds
      both call-graph keys: what the two later passes read. */
  lemma MappingFitsCfg(cfg: Graph, cg: Graph)
    ensures forall k :: k in Mapping(cfg, cg).entries ==>
              Mapping(cfg, cg).entries[k].Matched() && cfg.HasNode(Mapping(cfg, cg).entries[k].cfgNodeId)
  {
    forall k | k in Mapping(cfg, cg).entries
      ensures Mapping(cfg, cg).entries[k].Matched() && cfg.HasNode(Mapping(cfg, cg).entries[k].cfgNodeId)
    {
      MappingEntry(cfg, cg, k);
      var i := LastFunctionName(cfg.nodes, k).value;
      assert cfg.Ids()[i] == cfg.nodes[i].id;
    }
  }

  lemma ValuesMatched(d: LabelIndex)
    requires d.Valid()
    requires forall k :: k in d.entries ==> d.entries[k].Matched()
    ensures forall i :: 0 <= i < |d.Values()| ==> d.Values()[i].Matched()
  {
    forall i | 0 <= i < |d.Values()|
      ensures d.Values()[i].Matched()
    {
      assert d.keys[i] in d.entries;
    }
  }

  /** The CFG after the three passes: the projected call-graph edges
      appended, then every joined node retyped. */
  function Fused(cfg: Graph, cg: Graph): (r: Graph)
    ensures r.Ids() == cfg.Ids()
    ensures r.edges == cfg.edges + Projected(Mapping(cfg, cg).Values(), cg.edges)
  {
    var d := Mapping(cfg, cg);
    MappingFitsCfg(cfg, cg);
    ValuesMatched(d);
    RetypeAll(Graph(cfg.nodes, cfg.edges + Projected(d.Values(), cg.edges)), d.Values())
  }

  /** The three calls of the fusion script on one pair of graphs: build the
      dict, copy the call-graph edges, retype the joined nodes. */
  method FuseGraphs(cfg: MultiDiGraph, cg: MultiDiGraph) returns (merged: MultiDiGraph)
    requires cfg.Valid()
    modifies cfg
    ensures merged == cfg && cfg.Valid()
    ensures cfg.Value() == Fused(old(cfg.Value()), old(cg.Value()))
  {
    ghost var g0, h0 := cfg.Value(), cg.Value();
    var d := MappingCfgAndCgNodeLabels(cfg, cg);
    MappingFitsCfg(g0, h0);
    merged := AddNewCfgEdgesFromCallGraph(cfg, d, cg);
    UpdateCfgNodeTypesByCallGraphNodeTypes(merged, d);
  }

  /** Node by node, the fused graph is the CFG with each node's type replaced
      by what the dict assigns to its key. */
  lemma FusedPointwise(cfg: Graph, cg: Graph, i: nat)
    requires i < |cfg.nodes|
    ensures forall j :: 0 <= j < |Mapping(cfg, cg).Values()| ==> Mapping(cfg, cg).Values()[j].cgNodeType.Some?
    ensures |Fused(cfg, cg).nodes| == |cfg.nodes|
    ensures Fused(cfg, cg).nodes[i]
            == Node(cfg.nodes[i].id,
                    cfg.nodes[i].attrs.(nodeType := NewType(Mapping(cfg, cg).Values(), cfg.nodes[i].id, cfg.nodes[i].attrs.nodeType)))
  {
    var d := Mapping(cfg, cg);
    MappingFitsCfg(cfg, cg);
    ValuesMatched(d);
    RetypePointwise(Graph(cfg.nodes, cfg.edges + Projected(d.Values(), cg.edges)), d.Values());
  }

  /** A CFG node that is not a FUNCTION_NAME node leaves the fusion as it
      entered it. */
  lemma FusedKeepsOtherNodes(cfg: Graph, cg: Graph, i: nat)
    requires cfg.WellFormed() && i < |cfg.nodes|
    requires cfg.nodes[i].attrs.nodeType != FunctionGraph.FunctionNameType
    ensures |Fused(cfg, cg).nodes| == |cfg.nodes|
    ensures Fused(cfg, cg).nodes[i] == cfg.nodes[i]
  {
    var d := Mapping(cfg, cg);
    var vs := d.Values();
    var n := cfg.nodes[i];
    FusedPointwise(cfg, cg, i);
    LastTypeForFacts(vs, n.id);
    if LastTypeFor(vs, n.id).Some? {
      var j :| 0 <= j < |vs| && vs[j].cfgNodeId == n.id && vs[j].cgNodeType == LastTypeFor(vs, n.id);
      var k := d.keys[j];
      assert k in d.entries;
      MappingEntry(cfg, cg, k);
      LastFunctionNameFacts(cfg.nodes, k);
      assert false;
    }
  }

  /** The last FUNCTION_NAME node with label `k`, when some call-graph node
      carries `k`, takes the upper-cased type of the last such call-graph
      node; its key and other attributes stay. */
  lemma FusedRetypesJoinedNode(cfg: Graph, cg: Graph, i: nat)
    requires cfg.WellFormed() && cg.WellFormed() && i < |cfg.nodes|
    requires LastFunctionName(cfg.nodes, cfg.nodes[i].attrs.nodeLabel) == Some(i)
    requires LastLabelled(cg.nodes, cfg.nodes[i].attrs.nodeLabel).Some?
    ensures |Fused(cfg, cg).nodes| == |cfg.nodes|
    ensures var n, m := cfg.nodes[i], cg.nodes[LastLabelled(cg.nodes, cfg.nodes[i].attrs.nodeLabel).value];
            Fused(cfg, cg).nodes[i] == Node(n.id, n.attrs.(nodeType := Upper(m.attrs.nodeType)))
  {
    var k := cfg.nodes[i].attrs.nodeLabel;
    FusedPointwise(cfg, cg, i);
    MappingEntry(cfg, cg, k);
    FusedNodeType(cfg, cg, k);
  }
}
