/** Folding the per-function graphs into contract, file and corpus graphs,
    as `compress_full_smart_contracts` (both scripts) and `extract_graph` do.
    Every level starts from an accumulator (`None`, or the input graph for the
    corpus) and combines with `disjoint_union`, with `None` as the identity;
    a file the analyzer cannot parse contributes `None`. */
module Corpus {
  import opened Common
  import opened Analyzer
  import opened Vulnerabilities
  import opened NodeInfo
  import opened NxGraph
  import opened FunctionGraph
  import opened SolcVersion

  /** One step of the fold: keep the accumulator when the new graph is
      `None`, take the new graph when the accumulator is `None`, and take
      their disjoint union otherwise. */
  function Combine(acc: Option<Graph>, x: Option<Graph>): (r: Option<Graph>)
    ensures r.None? <==> acc.None? && x.None?
    ensures acc.None? ==> r == x
    ensures x.None? ==> r == acc
  {
    if acc.None? then x
    else if x.None? then acc
    else Some(DisjointUnion(acc.value, x.value))
  }

  /** The accumulator after combining every element of `xs`, left to right. */
  function Fold(acc: Option<Graph>, xs: seq<Option<Graph>>): Option<Graph>
  {
    if |xs| == 0 then acc else Combine(Fold(acc, xs[..|xs| - 1]), xs[|xs| - 1])
  }

  /** What is counted: nodes or edges. */
  datatype Measure = Nodes | Edges

  /** The size of an optional graph; `None` counts as empty. */
  function Size(m: Measure, o: Option<Graph>): nat
  {
    match o
    case None => 0
    case Some(g) => if m.Nodes? then |g.nodes| else |g.edges|
  }

  function SumSize(m: Measure, xs: seq<Option<Graph>>): nat
  {
    if |xs| == 0 then 0 else SumSize(m, xs[..|xs| - 1]) + Size(m, xs[|xs| - 1])
  }

  predicate WellFormedOpt(o: Option<Graph>)
  {
    o.Some? ==> o.value.WellFormed()
  }

  /** The graphs of `xs`, without the `None`s. */
  function Present(xs: seq<Option<Graph>>): (r: seq<Option<Graph>>)
    ensures forall i :: 0 <= i < |r| ==> r[i].Some?
  {
    if |xs| == 0 then []
    else Present(xs[..|xs| - 1]) + (if xs[|xs| - 1].Some? then [xs[|xs| - 1]] else [])
  }

  // ---------------------------------------------------------------------------
  // What each level of the fold combines

  function ScopeOf(script: Script, fileName: string, vul: Option<seq<VulRecord>>, contractName: string, f: Function): Scope
  {
    Scope(script, fileName, contractName, f, vul)
  }

  /** The graphs of a contract's members, in order. */
  function FunctionGraphs(script: Script, fileName: string, vul: Option<seq<VulRecord>>, contractName: string, fns: seq<Function>): seq<Option<Graph>>
  {
    seq(|fns|, i requires 0 <= i < |fns| => Some(ScopedFunctionGraph(ScopeOf(script, fileName, vul, contractName, fns[i]))))
  }

  /** `merged_graph`: a contract's functions, then its modifiers. */
  function ContractGraph(script: Script, fileName: string, vul: Option<seq<VulRecord>>, c: Contract): Option<Graph>
  {
    Fold(None, FunctionGraphs(script, fileName, vul, c.name, c.Members()))
  }

  function ContractGraphs(script: Script, fileName: string, vul: Option<seq<VulRecord>>, cs: seq<Contract>): seq<Option<Graph>>
  {
    seq(|cs|, i requires 0 <= i < |cs| => ContractGraph(script, fileName, vul, cs[i]))
  }

  /** `merge_contract_graph` of a parsed file, annotated with the file's own
      vulnerability records. */
  function FileGraph(script: Script, file: SourceFile, report: Option<seq<VulEntry>>): Option<Graph>
    requires file.analysis.Parsed?
  {
    var name := BaseName(file.path);
    Fold(None, ContractGraphs(script, name, FileVulnerabilities(name, report), file.analysis.contracts))
  }

  /** What a file adds to the corpus: nothing when the analyzer fails on it. */
  function FileResult(script: Script, file: SourceFile, report: Option<seq<VulEntry>>): Option<Graph>
  {
    if file.analysis.ParseFailure? then None else FileGraph(script, file, report)
  }

  function FileResults(script: Script, files: seq<SourceFile>, report: Option<seq<VulEntry>>): seq<Option<Graph>>
  {
    seq(|files|, i requires 0 <= i < |files| => FileResult(script, files[i], report))
  }

  /** `full_graph`: the input graph, then every file's graph. */
  function CorpusGraph(script: Script, files: seq<SourceFile>, input: Option<Graph>, report: Option<seq<VulEntry>>): Option<Graph>
  {
    Fold(input, FileResults(script, files, report))
  }

  /** How many files the analyzer parses. */
  function SuccessCount(files: seq<SourceFile>): nat
  {
    if |files| == 0 then 0
    else SuccessCount(files[..|files| - 1]) + (if files[|files| - 1].analysis.Parsed? then 1 else 0)
  }

  /** The count is at most the number of files, and zero exactly when no
      file parses. */
  lemma {:induction false} SuccessCountFacts(files: seq<SourceFile>)
    ensures SuccessCount(files) <= |files|
    ensures SuccessCount(files) == 0 <==> forall i :: 0 <= i < |files| ==> files[i].analysis.ParseFailure?
  {
    if |files| > 0 {
      var init := files[..|files| - 1];
      SuccessCountFacts(init);
      assert forall i :: 0 <= i < |init| ==> init[i] == files[i];
    }
  }

  /** The files the analyzer parses, in order. */
  function ParsedFiles(files: seq<SourceFile>): (r: seq<SourceFile>)
    ensures |r| <= |files|
    ensures forall i :: 0 <= i < |r| ==> r[i].analysis.Parsed?
  {
    if |files| == 0 then []
    else ParsedFiles(files[..|files| - 1]) + (if files[|files| - 1].analysis.Parsed? then [files[|files| - 1]] else [])
  }

  // ---------------------------------------------------------------------------
  // The imperative fold

  /** A nullable graph object holds the given optional graph value. */
  predicate Holds(o: MultiDiGraph?, v: Option<Graph>)
    reads o
  {
    if o == null then v.None? else v.Some? && o.Valid() && o.Value() == v.value
  }

  /** `path.split('/')` has at least two parts. */
  predicate InDirectory(path: string)
  {
    '/' in path
  }

  lemma SuccessCountStep(files: seq<SourceFile>, i: nat)
    requires i < |files|
    ensures SuccessCount(files[..i + 1]) == SuccessCount(files[..i]) + (if files[i].analysis.Parsed? then 1 else 0)
  {
    assert files[..i + 1][..i] == files[..i];
  }

  /** The corpus graph of one more file combines the previous one with that
      file's result. */
  lemma CorpusGraphStep(script: Script, files: seq<SourceFile>, input: Option<Graph>, report: Option<seq<VulEntry>>, i: nat)
    requires i < |files|
    ensures CorpusGraph(script, files[..i + 1], input, report)
         == Combine(CorpusGraph(script, files[..i], input, report), FileResult(script, files[i], report))
  {
    var rs := FileResults(script, files[..i + 1], report);
    assert rs[..i] == FileResults(script, files[..i], report);
    assert rs[i] == FileResult(script, files[i], report);
    FoldStep(input, rs, i);
    assert rs[..i + 1] == rs;
  }

  lemma FoldStep(acc: Option<Graph>, xs: seq<Option<Graph>>, i: nat)
    requires i < |xs|
    ensures Fold(acc, xs[..i + 1]) == Combine(Fold(acc, xs[..i]), xs[i])
  {
    assert xs[..i + 1][..i] == xs[..i];
  }

  /** `if acc is None: acc = deepcopy(x) elif x is not None: acc =
      nx.disjoint_union(acc, x)`, the step of every level of the fold (at the
      function level `x` is never `None`, where the source omits the test). */
  method FoldInto(acc: MultiDiGraph?, x: MultiDiGraph?, ghost a: Option<Graph>, ghost b: Option<Graph>)
    returns (r: MultiDiGraph?)
    requires Holds(acc, a) && Holds(x, b)
    ensures Holds(r, Combine(a, b))
    ensures r != null ==> r == acc || fresh(r)
  {
    r := acc;
    if acc == null {
      if x != null {
        r := x.Copy();
      }
    } else if x != null {
      r := DisjointUnionOf(acc, x);
    }
  }

  /** The loop over `contract.functions + contract.modifiers`: build each
      function's graph and fold it into `merged_graph`. */
  method BuildContractGraph(script: Script, fileName: string, vul: Option<seq<VulRecord>>, c: Contract)
    returns (merged: MultiDiGraph?)
    ensures Holds(merged, ContractGraph(script, fileName, vul, c))
    ensures merged != null ==> fresh(merged)
  {
    var fns := c.Members();
    ghost var gs := FunctionGraphs(script, fileName, vul, c.name, fns);
    merged := null;
    var i := 0;
    while i < |fns|
      invariant 0 <= i <= |fns|
      invariant Holds(merged, Fold(None, gs[..i]))
      invariant merged != null ==> fresh(merged)
    {
      var g := BuildFunctionGraph(ScopeOf(script, fileName, vul, c.name, fns[i]));
      assert gs[i] == Some(ScopedFunctionGraph(ScopeOf(script, fileName, vul, c.name, fns[i])));
      FoldStep(None, gs, i);
      merged := FoldInto(merged, g, Fold(None, gs[..i]), gs[i]);
      i := i + 1;
    }
    assert gs[..i] == gs;
  }

  /** The loop over `slither.contracts`: fold every contract graph that is not
      `None` into `merge_contract_graph`. */
  method BuildFileGraph(script: Script, fileName: string, vul: Option<seq<VulRecord>>, cs: seq<Contract>)
    returns (merge: MultiDiGraph?)
    ensures Holds(merge, Fold(None, ContractGraphs(script, fileName, vul, cs)))
    ensures merge != null ==> fresh(merge)
  {
    ghost var rs := ContractGraphs(script, fileName, vul, cs);
    merge := null;
    var i := 0;
    while i < |cs|
      invariant 0 <= i <= |cs|
      invariant Holds(merge, Fold(None, rs[..i]))
      invariant merge != null ==> fresh(merge)
    {
      var merged := BuildContractGraph(script, fileName, vul, cs[i]);
      assert rs[i] == ContractGraph(script, fileName, vul, cs[i]);
      FoldStep(None, rs, i);
      merge := FoldInto(merge, merged, Fold(None, rs[..i]), rs[i]);
      i := i + 1;
    }
    assert rs[..i] == rs;
  }

  /** The body of both corpus loops for a file the analyzer parses: build
      the file's graph and fold it into `full_graph`. */
  method FoldParsedFile(script: Script, full: MultiDiGraph?, ghost acc: Option<Graph>, sc: SourceFile,
                        report: Option<seq<VulEntry>>, fileName: string, vul: Option<seq<VulRecord>>)
    returns (r: MultiDiGraph?)
    requires sc.analysis.Parsed?
    requires fileName == BaseName(sc.path) && vul == FileVulnerabilities(fileName, report)
    requires Holds(full, acc)
    ensures Holds(r, Combine(acc, FileResult(script, sc, report)))
    ensures r != null ==> r == full || fresh(r)
  {
    ghost var g := Fold(None, ContractGraphs(script, fileName, vul, sc.analysis.contracts));
    assert FileResult(script, sc, report) == g;
    var merge := BuildFileGraph(script, fileName, vul, sc.analysis.contracts);
    r := FoldInto(full, merge, acc, g);
  }

  /** One iteration of the generator's corpus loop: look up the compiler
      version and the file name, skip the file when the analyzer cannot parse
      it, otherwise fold its graph in. */
  method CompressFile(full: MultiDiGraph?, ghost acc: Option<Graph>, sc: SourceFile, report: Option<seq<VulEntry>>)
    returns (r: MultiDiGraph?, parsed: bool)
    requires Holds(full, acc)
    ensures parsed == sc.analysis.Parsed?
    ensures Holds(r, Combine(acc, FileResult(Generator, sc, report)))
    ensures r != null ==> r == full || fresh(r)
  {
    var version := GetSolcVersion(sc.text);
    var fileName := BaseName(sc.path);
    if sc.analysis.ParseFailure? {
      return full, false;
    }
    var vul := GetVulnerabilities(fileName, report);
    r := FoldParsedFile(Generator, full, acc, sc, report, fileName, vul);
    parsed := true;
  }

  /** One iteration of the merge script's corpus loop: the same, without
      the compiler version, and with the report consulted only when given. */
  method MergeFile(full: MultiDiGraph?, ghost acc: Option<Graph>, sc: SourceFile, report: Option<seq<VulEntry>>)
    returns (r: MultiDiGraph?)
    requires Holds(full, acc)
    ensures Holds(r, Combine(acc, FileResult(MergeScript, sc, report)))
    ensures r != null ==> r == full || fresh(r)
  {
    var fileName := BaseName(sc.path);
    if sc.analysis.ParseFailure? {
      return full;
    }
    var vul: Option<seq<VulRecord>> := None;
    if report.Some? {
      vul := GetVulnerabilities(fileName, report);
    }
    r := FoldParsedFile(MergeScript, full, acc, sc, report, fileName, vul);
  }

  /** The generator's `compress_full_smart_contracts`: start from the input
      graph, skip every file the analyzer cannot parse, count the others and
      fold their graphs in. `sc.split('/')[-2]` is evaluated for every file
      outside the `try`, so a path without a `/` raises there; the
      precondition excludes it. */
  method CompressFullSmartContracts(files: seq<SourceFile>, input: Option<Graph>, report: Option<seq<VulEntry>>)
    returns (full: MultiDiGraph?, count: nat)
    requires WellFormedOpt(input)
    requires forall i :: 0 <= i < |files| ==> InDirectory(files[i].path)
    ensures count == SuccessCount(files)
    ensures Holds(full, CorpusGraph(Generator, files, input, report))
    ensures full != null ==> fresh(full)
  {
    full := null;
    if input.Some? {
      full := new MultiDiGraph.Of(input.value);
    }
    count := 0;
    var i := 0;
    while i < |files|
      invariant 0 <= i <= |files|
      invariant count == SuccessCount(files[..i])
      invariant Holds(full, CorpusGraph(Generator, files[..i], input, report))
      invariant full != null ==> fresh(full)
    {
      CorpusGraphStep(Generator, files, input, report, i);
      SuccessCountStep(files, i);
      var parsed;
      full, parsed := CompressFile(full, CorpusGraph(Generator, files[..i], input, report), files[i], report);
      if parsed {
        count := count + 1;
      }
      i := i + 1;
    }
    assert files[..i] == files;
  }

  /** The merge script's `compress_full_smart_contracts`: the same fold with
      its own matcher, no input graph and no count; vulnerabilities are
      looked up only when a report is given. */
  method MergeCompressFullSmartContracts(files: seq<SourceFile>, report: Option<seq<VulEntry>>)
    returns (full: MultiDiGraph?)
    ensures Holds(full, CorpusGraph(MergeScript, files, None, report))
    ensures full != null ==> fresh(full)
  {
    full := null;
    var i := 0;
    while i < |files|
      invariant 0 <= i <= |files|
      invariant Holds(full, CorpusGraph(MergeScript, files[..i], None, report))
      invariant full != null ==> fresh(full)
    {
      CorpusGraphStep(MergeScript, files, None, report, i);
      full := MergeFile(full, CorpusGraph(MergeScript, files[..i], None, report), files[i], report);
      i := i + 1;
    }
    assert files[..i] == files;
  }

  /** `extract_graph`: 0 when the analyzer cannot parse the file; otherwise
      1, with the file's graph (`None` when it has no function). */
  method ExtractGraph(file: SourceFile, report: Option<seq<VulEntry>>)
    returns (status: int, graph: MultiDiGraph?)
    ensures status == 0 <==> file.analysis.ParseFailure?
    ensures status == 0 || status == 1
    ensures status == 0 ==> graph == null
    ensures status == 1 ==> Holds(graph, FileGraph(Generator, file, report))
  {
    var version := GetSolcVersion(file.text);
    var fileName := BaseName(file.path);
    if file.analysis.ParseFailure? {
      return 0, null;
    }
    var vul := GetVulnerabilities(fileName, report);
    graph := BuildFileGraph(Generator, fileName, vul, file.analysis.contracts);
    return 1, graph;
  }

  // ---------------------------------------------------------------------------
  // Properties of the fold

  /** Node and edge counts add up under `Combine`, and it keeps graphs well
      formed. */
  lemma CombineFacts(a: Option<Graph>, x: Option<Graph>)
    ensures Size(Nodes, Combine(a, x)) == Size(Nodes, a) + Size(Nodes, x)
    ensures Size(Edges, Combine(a, x)) == Size(Edges, a) + Size(Edges, x)
    ensures WellFormedOpt(a) && WellFormedOpt(x) ==> WellFormedOpt(Combine(a, x))
  {
    if a.Some? && x.Some? && a.value.WellFormed() && x.value.WellFormed() {
      UnionWellFormed(a.value, x.value);
    }
  }

  /** The fold's result has as many nodes (and edges) as the accumulator
      and all the elements together. */
  lemma {:induction false} FoldSize(m: Measure, acc: Option<Graph>, xs: seq<Option<Graph>>)
    ensures Size(m, Fold(acc, xs)) == Size(m, acc) + SumSize(m, xs)
  {
    if |xs| > 0 {
      FoldSize(m, acc, xs[..|xs| - 1]);
      CombineFacts(Fold(acc, xs[..|xs| - 1]), xs[|xs| - 1]);
    }
  }

  /** The fold of well-formed graphs is well formed. */
  lemma {:induction false} FoldWellFormed(acc: Option<Graph>, xs: seq<Option<Graph>>)
    requires WellFormedOpt(acc)
    requires forall i :: 0 <= i < |xs| ==> WellFormedOpt(xs[i])
    ensures WellFormedOpt(Fold(acc, xs))
  {
    if |xs| > 0 {
      FoldWellFormed(acc, xs[..|xs| - 1]);
      CombineFacts(Fold(acc, xs[..|xs| - 1]), xs[|xs| - 1]);
    }
  }

  /** The fold is `None` exactly when the accumulator and every element are. */
  lemma {:induction false} FoldNone(acc: Option<Graph>, xs: seq<Option<Graph>>)
    ensures Fold(acc, xs).None? <==> acc.None? && forall i :: 0 <= i < |xs| ==> xs[i].None?
  {
    if |xs| > 0 {
      var init := xs[..|xs| - 1];
      FoldNone(acc, init);
      assert forall i :: 0 <= i < |init| ==> init[i] == xs[i];
    }
  }

  /** `None` is the identity of the fold: dropping every `None` element does
      not change the result. */
  lemma {:induction false} FoldSkipsNone(acc: Option<Graph>, xs: seq<Option<Graph>>)
    ensures Fold(acc, xs) == Fold(acc, Present(xs))
  {
    if |xs| > 0 {
      var init, last := xs[..|xs| - 1], xs[|xs| - 1];
      FoldSkipsNone(acc, init);
      var p := Present(xs);
      if last.Some? {
        assert p == Present(init) + [last];
        assert p[..|p| - 1] == Present(init);
        assert Fold(acc, p) == Combine(Fold(acc, Present(init)), last);
      } else {
        assert p == Present(init);
        assert Fold(acc, xs) == Fold(acc, init);
      }
    }
  }

  // ---------------------------------------------------------------------------
  // Properties of the three levels

  lemma FunctionGraphsWellFormed(script: Script, fileName: string, vul: Option<seq<VulRecord>>, contractName: string, fns: seq<Function>)
    ensures forall i :: 0 <= i < |fns| ==> WellFormedOpt(FunctionGraphs(script, fileName, vul, contractName, fns)[i])
  {
    forall i | 0 <= i < |fns| {
      ScopedFunctionGraphWellFormed(ScopeOf(script, fileName, vul, contractName, fns[i]));
    }
  }

  /** A contract's graph is well formed, is `None` exactly when the contract
      has neither functions nor modifiers, and has as many nodes and edges
      as its function graphs together. */
  lemma ContractGraphFacts(script: Script, fileName: string, vul: Option<seq<VulRecord>>, c: Contract)
    ensures var r := ContractGraph(script, fileName, vul, c);
      var gs := FunctionGraphs(script, fileName, vul, c.name, c.Members());
      && WellFormedOpt(r)
      && (r.None? <==> |c.Members()| == 0)
      && Size(Nodes, r) == SumSize(Nodes, gs)
      && Size(Edges, r) == SumSize(Edges, gs)
  {
    var gs := FunctionGraphs(script, fileName, vul, c.name, c.Members());
    FunctionGraphsWellFormed(script, fileName, vul, c.name, c.Members());
    FoldWellFormed(None, gs);
    FoldNone(None, gs);
    if |c.Members()| > 0 {
      assert gs[0].Some?;
    }
    FoldSize(Nodes, None, gs);
    FoldSize(Edges, None, gs);
  }

  lemma ContractGraphsWellFormed(script: Script, fileName: string, vul: Option<seq<VulRecord>>, cs: seq<Contract>)
    ensures forall i :: 0 <= i < |cs| ==> WellFormedOpt(ContractGraphs(script, fileName, vul, cs)[i])
  {
    forall i | 0 <= i < |cs| {
      ContractGraphFacts(script, fileName, vul, cs[i]);
    }
  }

  /** A parsed file's graph is well formed, is `None` exactly when none of
      its contracts has a function or modifier, and has as many nodes and
      edges as its contract graphs together. */
  lemma FileGraphFacts(script: Script, file: SourceFile, report: Option<seq<VulEntry>>)
    requires file.analysis.Parsed?
    ensures var r := FileGraph(script, file, report);
      var name := BaseName(file.path);
      var rs := ContractGraphs(script, name, FileVulnerabilities(name, report), file.analysis.contracts);
      && WellFormedOpt(r)
      && (r.None? <==> forall i :: 0 <= i < |file.analysis.contracts| ==> |file.analysis.contracts[i].Members()| == 0)
      && Size(Nodes, r) == SumSize(Nodes, rs)
      && Size(Edges, r) == SumSize(Edges, rs)
  {
    var name := BaseName(file.path);
    var vul := FileVulnerabilities(name, report);
    var cs := file.analysis.contracts;
    var rs := ContractGraphs(script, name, vul, cs);
    ContractGraphsWellFormed(script, name, vul, cs);
    FoldWellFormed(None, rs);
    FoldNone(None, rs);
    forall i | 0 <= i < |cs|
      ensures rs[i].None? <==> |cs[i].Members()| == 0
    {
      ContractGraphFacts(script, name, vul, cs[i]);
    }
    FoldSize(Nodes, None, rs);
    FoldSize(Edges, None, rs);
  }

  /** The corpus graph is well formed and has as many nodes (and edges) as
      the input graph plus the graphs of all files; a file the analyzer
      cannot parse adds none. */
  lemma CorpusSize(script: Script, files: seq<SourceFile>, input: Option<Graph>, report: Option<seq<VulEntry>>)
    requires WellFormedOpt(input)
    ensures var rs := FileResults(script, files, report);
      && WellFormedOpt(CorpusGraph(script, files, input, report))
      && Size(Nodes, CorpusGraph(script, files, input, report)) == Size(Nodes, input) + SumSize(Nodes, rs)
      && Size(Edges, CorpusGraph(script, files, input, report)) == Size(Edges, input) + SumSize(Edges, rs)
      && forall i :: 0 <= i < |files| && files[i].analysis.ParseFailure? ==> Size(Nodes, rs[i]) == 0
  {
    var rs := FileResults(script, files, report);
    forall i | 0 <= i < |files|
      ensures WellFormedOpt(rs[i])
    {
      if files[i].analysis.Parsed? {
        FileGraphFacts(script, files[i], report);
      }
    }
    FoldWellFormed(input, rs);
    FoldSize(Nodes, input, rs);
    FoldSize(Edges, input, rs);
  }

  /** `f` applied to every file. */
  function MapFiles(f: SourceFile -> Option<Graph>, files: seq<SourceFile>): (r: seq<Option<Graph>>)
    ensures |r| == |files|
    ensures forall i :: 0 <= i < |files| ==> r[i] == f(files[i])
  {
    seq(|files|, i requires 0 <= i < |files| => f(files[i]))
  }

  /** Dropping the files `f` maps to `None` leaves the present results as
      they were. */
  lemma {:induction false} PresentOfParsedMap(f: SourceFile -> Option<Graph>, files: seq<SourceFile>)
    requires forall x: SourceFile :: x.analysis.ParseFailure? ==> f(x).None?
    ensures Present(MapFiles(f, files)) == Present(MapFiles(f, ParsedFiles(files)))
  {
    if |files| > 0 {
      var init, x := files[..|files| - 1], files[|files| - 1];
      PresentOfParsedMap(f, init);
      var rs := MapFiles(f, files);
      assert rs[..|rs| - 1] == MapFiles(f, init);
      var p := ParsedFiles(files);
      if x.analysis.Parsed? {
        var ps := MapFiles(f, p);
        assert p[..|p| - 1] == ParsedFiles(init);
        assert ps[..|ps| - 1] == MapFiles(f, ParsedFiles(init));
      } else {
        assert p == ParsedFiles(init);
      }
    }
  }

  lemma {:induction false} SuccessCountParsed(files: seq<SourceFile>)
    ensures SuccessCount(files) == |ParsedFiles(files)|
  {
    if |files| > 0 {
      SuccessCountParsed(files[..|files| - 1]);
    }
  }

  lemma PresentOfParsed(script: Script, files: seq<SourceFile>, report: Option<seq<VulEntry>>)
    ensures Present(FileResults(script, files, report)) == Present(FileResults(script, ParsedFiles(files), report))
    ensures SuccessCount(files) == |ParsedFiles(files)|
  {
    var f: SourceFile -> Option<Graph> := x => FileResult(script, x, report);
    assert FileResults(script, files, report) == MapFiles(f, files);
    assert FileResults(script, ParsedFiles(files), report) == MapFiles(f, ParsedFiles(files));
    PresentOfParsedMap(f, files);
    SuccessCountParsed(files);
  }

  /** Files the analyzer cannot parse make no difference: the corpus graph is
      the one of the parsed files alone, and the count is their number. */
  lemma ParseFailuresSkipped(script: Script, files: seq<SourceFile>, input: Option<Graph>, report: Option<seq<VulEntry>>)
    ensures CorpusGraph(script, files, input, report) == CorpusGraph(script, ParsedFiles(files), input, report)
    ensures SuccessCount(files) == |ParsedFiles(files)|
  {
    PresentOfParsed(script, files, report);
    FoldSkipsNone(input, FileResults(script, files, report));
    FoldSkipsNone(input, FileResults(script, ParsedFiles(files), report));
  }

  /** A corpus none of whose files parses yields the input graph and a count
      of zero. */
  lemma NothingParsed(script: Script, files: seq<SourceFile>, input: Option<Graph>, report: Option<seq<VulEntry>>)
    requires forall i :: 0 <= i < |files| ==> files[i].analysis.ParseFailure?
    ensures CorpusGraph(script, files, input, report) == input
    ensures SuccessCount(files) == 0
  {
    ParseFailuresSkipped(script, files, input, report);
    assert ParsedFiles(files) == [] by {
      if |ParsedFiles(files)| > 0 {
        PresentOfParsed(script, files, report);
      }
    }
    assert FileResults(script, [], report) == [];
  }
}
