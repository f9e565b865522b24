# ge-sc graph builder, in Dafny

This project models the graph-building layer of ge-sc. The layer sits between
the Slither analyzer and the graph neural networks. It has three parts.

- **CFG generator.** `process_graphs/control_flow_graph_generator.py` turns
  every function and modifier of every contract of every Solidity file into
  a control-flow graph. That graph is a networkx `MultiDiGraph` with a node
  per analyzer node, typed branch edges and one `FUNCTION_NAME` node. The
  generator relabels its keys into the function's scope and folds the
  graphs with `disjoint_union`:
  - function into contract;
  - contract into file;
  - file into corpus.

  Along the way it attaches vulnerability records to nodes by source line.
  It reads the `pragma solidity` line to pick a compiler version, and it
  counts the files the analyzer could parse.
- **Older merge script.** `merge_full_cfg_smart_contracts.py` does the same
  work with a nested-loop line matcher, without source-line attributes and
  without an input graph.
- **Fusion helper.** `process_graphs/combination_call_graph_and_control_flow_graph_helper.py`
  joins a CFG and a call graph:
  - it builds a dict from `FUNCTION_NAME` labels to the matching node of
    each graph;
  - it copies every call-graph edge whose two ends are joined into the CFG;
  - it retypes the joined CFG nodes with the upper-cased call-graph type.

Modules:

- `Common`: string helpers. These are `split`, `join`, `str(int)`,
  `str.upper` and the file name of a path.
- `Analyzer`: what the scripts read from Slither. This covers nodes and
  their types, sons, functions, contracts, a parse result per file, and the
  vulnerability report.
- `NxGraph`: the part of networkx the scripts use.
  - The datatype `Graph` is a graph's value: nodes in insertion order, and
    edges in the order they were added. Only the edge multiset is meant to
    match networkx; see "## Left out".
  - The class `MultiDiGraph` is the mutable object the scripts update in
    place, covering `add_node`, `add_edge`, `add_edges_from`,
    `relabel_nodes(copy=False)`, node attribute assignment and `deepcopy`.
  - `disjoint_union` is `DisjointUnion`.
- `NodeInfo`: `get_node_info`, covering the label text, type, expression,
  IRs, matched vulnerabilities and source lines.
- `SolcVersion`: `get_solc_version`, including the regular expression
  `\d.\d.\d+`.
- `Vulnerabilities`: `get_vulnerabilities` and both versions of
  `get_vulnerabilities_of_node_by_source_code_line`. The generator's version
  uses set intersection. The merge script's version appends once per equal
  pair of lines.
- `FunctionGraph`: the per-function graph. It covers the node loop with its
  IF/IFLOOP and sons branches, the `FUNCTION_NAME` node with its edge to
  node 0, and the relabelling.
- `Corpus`: the three levels of folding, `compress_full_smart_contracts` of
  both scripts, and `extract_graph`.
- `Fusion`: the three passes of the fusion helper and their composition.

Each method that updates a graph is proved against a function on `Graph`
values. The properties are lemmas about those functions:
- well-formedness is kept, meaning keys are unique and edges join present
  nodes;
- relabelled keys are distinct;
- each analyzer node has exactly the out-edges the branch rule gives;
- node and edge counts add up through every fold;
- files the analyzer rejects contribute nothing;
- the fusion dict joins the last `FUNCTION_NAME` node per label with the
  last call-graph node carrying it;
- each fused node takes the call-graph type of its join partner.

## Model

| member | source | states |
|---|---|---|
| Common.Split | process_graphs/control_flow_graph_generator.py:94-95 | `str.split` always returns at least one part |
| Common.SplitNoSeparator | process_graphs/control_flow_graph_generator.py:94 | a string without the separator splits into itself alone |
| Common.SplitAtFirstSeparator | process_graphs/control_flow_graph_generator.py:94-95 | splitting `x + sep + y`, where `x` has no separator, gives `x` followed by the parts of `y` |
| Common.SplitJoin | process_graphs/control_flow_graph_generator.py:41-42 | splitting the newline join of newline-free parts gives the parts back |
| Common.DigitChar | process_graphs/control_flow_graph_generator.py:173 | a value below ten prints as a decimal digit |
| Common.NatToString | process_graphs/control_flow_graph_generator.py:173 | `str(n)` is a non-empty run of decimal digits, at least two long from 10 upwards |
| Common.NatToStringInjective | process_graphs/control_flow_graph_generator.py:173 | two integers with the same `str` are equal, so relabelled integer keys stay apart |
| Common.Upper | process_graphs/combination_call_graph_and_control_flow_graph_helper.py:31 | `upper()` keeps the length and upper-cases each character in place |
| Common.BaseName | process_graphs/control_flow_graph_generator.py:94 | `split('/')[-1]` has no '/', is a suffix of the path, and is preceded by '/' when shorter than the path |
| NodeInfo.NodeLabel | process_graphs/control_flow_graph_generator.py:33-44 | the label starts with the type header. It carries the EXPRESSION section exactly when there is an expression and ends with the IRs block when there are IRs. It is the bare header exactly when there is neither, and its length is the sum of its parts |
| NodeInfo.GetNodeInfo | process_graphs/control_flow_graph_generator.py:32-49 | type text; the label is `NodeLabel` of that type, the expression and the IRs; expression as given; `node_irs` is the newline join of the IRs and is absent exactly when there are none; vulnerabilities from the script's own matcher, source lines only in the generator (the merge script's copy at merge_full_cfg_smart_contracts.py:12-29 has none) |
| Analyzer.BranchByText | process_graphs/control_flow_graph_generator.py:123 | for the node types Slither produces, `node.type in [IF, IFLOOP]` holds exactly when the printed type is IF or IF_LOOP |
| NodeInfo.IrsRoundTrip | process_graphs/control_flow_graph_generator.py:40-42 | `node_irs` split on newlines gives back the node's IR strings when none of them holds a newline |
| SolcVersion.DigitRun | process_graphs/control_flow_graph_generator.py:18 | `\d+` takes the longest run of digits from a position |
| SolcVersion.FindMatch | process_graphs/control_flow_graph_generator.py:24-25 | the first position where the pattern matches, with no match before it. It is none exactly when no position matches |
| SolcVersion.FirstVersionMatch | process_graphs/control_flow_graph_generator.py:24-25 | `findall(line)[0]` exists exactly when some position matches. It is a digit, any non-newline character, a digit, any non-newline character, then one or more digits |
| SolcVersion.GetSolcVersion | process_graphs/control_flow_graph_generator.py:19-29 | the line loop returns the version the file's text determines |
| SolcVersion.FirstPragmaLineDecides | process_graphs/control_flow_graph_generator.py:22-27 | the first `pragma solidity` line before end of file decides: its first match, or 0.4.25 when it has none |
| SolcVersion.NoPragmaDefault | process_graphs/control_flow_graph_generator.py:29 | with no pragma line before end of file the version is 0.4.25 |
| SolcVersion.LaterLinesIrrelevant | process_graphs/control_flow_graph_generator.py:25-27 | lines after the first pragma line do not change the version |
| SolcVersion.ExamplePragma | process_graphs/control_flow_graph_generator.py:18-27 | `^0.4.24;` gives 0.4.24; `^0.5;` has no match and gives 0.4.25 |
| Vulnerabilities.LastEntryFor | process_graphs/control_flow_graph_generator.py:54-56 | none exactly when no report entry has the file's name; otherwise the records of the last entry with that name |
| Vulnerabilities.GetVulnerabilities | process_graphs/control_flow_graph_generator.py:51-58 | the loop returns the last matching entry's records, and none when there is no report |
| Vulnerabilities.CommonLines | process_graphs/control_flow_graph_generator.py:69-70 | the set intersection is non-empty exactly when the record shares a line with the node |
| Vulnerabilities.SharingRecords | process_graphs/control_flow_graph_generator.py:63-71 | the kept records are never more than the records |
| Vulnerabilities.VulnerabilitiesOfNodeBySet | process_graphs/control_flow_graph_generator.py:60-81 | the loop computes the set-intersection matcher |
| Vulnerabilities.SharingRecordsCount | process_graphs/control_flow_graph_generator.py:63-71 | a record keeps its multiplicity when it shares a line and disappears otherwise |
| Vulnerabilities.MatchBySetCharacterization | process_graphs/control_flow_graph_generator.py:60-81 | none exactly when there is no report or no record shares a line; otherwise exactly the sharing records, each as often as in the report |
| Vulnerabilities.OccurrencesFacts | merge_full_cfg_smart_contracts.py:46-47 | a line occurs at most as often as the list is long, and zero times exactly when absent |
| Vulnerabilities.Repeat | merge_full_cfg_smart_contracts.py:48 | n appends of one record give n records |
| Vulnerabilities.AppendPerEqualLine | merge_full_cfg_smart_contracts.py:46-48 | the inner loop appends the record once per equal vulnerability line |
| Vulnerabilities.AppendPerEqualPair | merge_full_cfg_smart_contracts.py:45-48 | the two loops append the record once per equal pair of lines |
| Vulnerabilities.VulnerabilitiesOfNodeByLinePairs | merge_full_cfg_smart_contracts.py:40-57 | the loops compute the pair-counting matcher |
| Vulnerabilities.PairCountPositive | merge_full_cfg_smart_contracts.py:45-47 | some pair is equal exactly when the record shares a line with the node |
| Vulnerabilities.PairRecordsCount | merge_full_cfg_smart_contracts.py:43-48 | each record appears its report multiplicity times its number of equal pairs |
| Vulnerabilities.RepeatCount | merge_full_cfg_smart_contracts.py:48 | n appends of `y` hold `x` n times when `x == y`, else never |
| Vulnerabilities.MatchByLinePairsCharacterization | merge_full_cfg_smart_contracts.py:40-57 | none exactly when there is no report or no record shares a line; otherwise each record as often as in the report times its number of equal pairs |
| Vulnerabilities.DuplicateAttachment | merge_full_cfg_smart_contracts.py:45-48 | a record sharing two lines with a node is attached twice by the nested loops and once by the set matcher |
| Vulnerabilities.MatchersAgree | merge_full_cfg_smart_contracts.py:43-48 | when no record has more than one equal pair the two matchers give the same list |
| NxGraph.Graph.WithNode | process_graphs/control_flow_graph_generator.py:117-121 | `add_node`: the key is present afterwards and no other key appears. A new key is appended. An existing key keeps its place, so the count is unchanged. Edges are untouched |
| NxGraph.Graph.WithNodeType | process_graphs/combination_call_graph_and_control_flow_graph_helper.py:67 | setting `node_type` leaves keys and edges as they were |
| NxGraph.Graph.Relabeled | process_graphs/control_flow_graph_generator.py:173 | every node and edge keeps its place and attributes; every key becomes prefix + `str(key)` |
| NxGraph.DisjointUnion | process_graphs/control_flow_graph_generator.py:178 | node and edge counts add up and the keys become 0..n-1 |
| NxGraph.UnionAttrs | process_graphs/control_flow_graph_generator.py:178 | every node keeps its attributes: the left operand's nodes first, then the right's, each in order |
| NxGraph.UnionEdges | process_graphs/control_flow_graph_generator.py:178 | each left edge joins the new positions of its old endpoints. Each right edge does too, shifted past the left nodes. Edge data is kept |
| NxGraph.UnionDistinct | process_graphs/control_flow_graph_generator.py:178 | the union's keys are distinct |
| NxGraph.UnionEdgeEndpoints | process_graphs/control_flow_graph_generator.py:178 | every edge of the union joins two of its nodes |
| NxGraph.UnionWellFormed | process_graphs/control_flow_graph_generator.py:178 | the union of well-formed graphs is well formed |
| NxGraph.WithNodeWellFormed | process_graphs/control_flow_graph_generator.py:117-121 | adding a node keeps keys unique and edges attached |
| NxGraph.WithEdgeWellFormed | process_graphs/control_flow_graph_generator.py:133 | adding an edge between present nodes keeps the graph well formed |
| NxGraph.RelabelIdInjective | process_graphs/control_flow_graph_generator.py:173 | prefix + `str(x)` is injective on integer keys and keys holding an underscore |
| NxGraph.RelabeledDistinct | process_graphs/control_flow_graph_generator.py:173 | relabelling keeps distinct keys distinct |
| NxGraph.RelabeledEdgeEndpoints | process_graphs/control_flow_graph_generator.py:173 | a relabelled edge still joins two relabelled nodes |
| NxGraph.RelabeledWellFormed | process_graphs/control_flow_graph_generator.py:173 | relabelling a well-formed graph yields a well-formed graph |
| NxGraph.MultiDiGraph.constructor | process_graphs/control_flow_graph_generator.py:113 | `nx.MultiDiGraph()` is the empty graph |
| NxGraph.MultiDiGraph.Of | process_graphs/control_flow_graph_generator.py:85-86 | a graph object holding a given well-formed value (the loaded input graph) |
| NxGraph.MultiDiGraph.AddNode | process_graphs/control_flow_graph_generator.py:117-121 | the object's new value is the old one with the node added |
| NxGraph.MultiDiGraph.AddEdge | process_graphs/control_flow_graph_generator.py:133 | the object's new value is the old one with one more parallel edge |
| NxGraph.MultiDiGraph.AddEdgesFrom | process_graphs/combination_call_graph_and_control_flow_graph_helper.py:60 | nodes unchanged, the given edges appended in order |
| NxGraph.MultiDiGraph.RelabelNodes | process_graphs/control_flow_graph_generator.py:173 | in place, the new value is the relabelled old value |
| NxGraph.MultiDiGraph.SetNodeType | process_graphs/combination_call_graph_and_control_flow_graph_helper.py:67 | in place, one node's `node_type` replaced |
| NxGraph.MultiDiGraph.Copy | process_graphs/control_flow_graph_generator.py:176 | `deepcopy` is a fresh object with the same value |
| NxGraph.DisjointUnionOf | process_graphs/control_flow_graph_generator.py:178 | a fresh object holding the disjoint union of the two values |
| FunctionGraph.AddSuccessor | process_graphs/control_flow_graph_generator.py:124-133 | a present son is added unless its key exists, then one edge of the given kind from the node to it |
| FunctionGraph.AddAnalyzerNodeTo | process_graphs/control_flow_graph_generator.py:114-157 | one iteration of the node loop: the node, then its branch or `sons` successors |
| FunctionGraph.AddAnalyzerNodesTo | process_graphs/control_flow_graph_generator.py:113-157 | the node loop over a fresh graph computes the function's base graph |
| FunctionGraph.AddFunctionNameNode | process_graphs/control_flow_graph_generator.py:160-171 | the `FUNCTION_NAME` node is added, with an edge to node 0 when node 0 exists |
| FunctionGraph.BuildFunctionGraph | process_graphs/control_flow_graph_generator.py:113-173 | the whole per-function graph, relabelled into its scope |
| FunctionGraph.LinkFacts | process_graphs/control_flow_graph_generator.py:124-133 | one successor step keeps the graph well formed, adds exactly its edge and adds at most the son's key |
| FunctionGraph.LinkSonsFacts | process_graphs/control_flow_graph_generator.py:148-157 | the `sons` loop adds one Next edge per present son and no key but theirs |
| FunctionGraph.AddAnalyzerNodeFacts | process_graphs/control_flow_graph_generator.py:114-157 | one iteration keeps the graph well formed, adds the node, only adds integer keys and appends exactly the node's step edges |
| FunctionGraph.AddAnalyzerNodesFacts | process_graphs/control_flow_graph_generator.py:113-157 | the base graph is well formed, holds every analyzer node, has only integer keys and its edges are the step edges in node order |
| FunctionGraph.FunctionGraphScoped | process_graphs/control_flow_graph_generator.py:113-171 | before relabelling the graph is well formed and every string key holds an underscore |
| FunctionGraph.ScopedFunctionGraphWellFormed | process_graphs/control_flow_graph_generator.py:173 | the relabelled function graph is well formed |
| FunctionGraph.FunctionNameNode | process_graphs/control_flow_graph_generator.py:161-168 | the last node is the `FUNCTION_NAME` node: its key and label are file_contract_function, and it has no expression or IRs |
| FunctionGraph.FunctionNameEdges | process_graphs/control_flow_graph_generator.py:170-171 | the `FUNCTION_NAME` node's only out-edge is Next to node 0, present exactly when node 0 exists |
| FunctionGraph.OutEdgesOfNode | process_graphs/control_flow_graph_generator.py:123-157 | with unique analyzer ids, a node's out-edges are exactly its own step edges |
| FunctionGraph.BranchEdgeKinds | process_graphs/control_flow_graph_generator.py:123-145 | an IF/IFLOOP node has one if_true edge per true son, one if_false edge per false son and no Next edge |
| FunctionGraph.SonEdgeKinds | process_graphs/control_flow_graph_generator.py:147-157 | any other node has one Next edge per present son, in order |
| FunctionGraph.FunctionOutEdges | process_graphs/control_flow_graph_generator.py:114-171 | in the function graph, an analyzer node's out-edges are its step edges |
| FunctionGraph.NodeOutEdges | process_graphs/control_flow_graph_generator.py:123-157 | in the function graph, a branch node has at most one if_true, at most one if_false and no Next edge. Any other node has exactly one Next edge per present son |
| FunctionGraph.RelabeledFunctionName | process_graphs/control_flow_graph_generator.py:161-173 | after relabelling, the `FUNCTION_NAME` key is contract_function_file_contract_function and its label is unchanged |
| FunctionGraph.ScopedFunctionNameNode | process_graphs/control_flow_graph_generator.py:161-173 | the relabelled graph's last node is the `FUNCTION_NAME` node under its scoped key |
| Corpus.Combine | process_graphs/control_flow_graph_generator.py:185-188 | the fold step is none exactly when both sides are none; a none side leaves the other |
| Corpus.ParsedFiles | process_graphs/control_flow_graph_generator.py:96-102 | only files the analyzer parsed remain |
| Corpus.SuccessCountFacts | process_graphs/control_flow_graph_generator.py:87-98 | the count is at most the number of files, and zero exactly when no file parsed |
| Corpus.FoldInto | process_graphs/control_flow_graph_generator.py:175-178 | `deepcopy` when the accumulator is None, `disjoint_union` otherwise, as one fold step |
| Corpus.BuildContractGraph | process_graphs/control_flow_graph_generator.py:110-178 | the function loop folds every function and modifier graph |
| Corpus.BuildFileGraph | process_graphs/control_flow_graph_generator.py:108-183 | the contract loop folds every contract graph, skipping contracts without members |
| Corpus.FoldParsedFile | process_graphs/control_flow_graph_generator.py:104-188 | a parsed file's graph is folded into the corpus accumulator |
| Corpus.CompressFile | process_graphs/control_flow_graph_generator.py:89-188 | one file of the corpus loop: it reports whether the file parsed, and folds its graph or skips it |
| Corpus.MergeFile | merge_full_cfg_smart_contracts.py:62-150 | one file of the merge script's loop; the report is consulted only when there is one |
| Corpus.CompressFullSmartContracts | process_graphs/control_flow_graph_generator.py:83-195 | the corpus graph is the input graph folded with every file's graph, and the count is the number of parsed files |
| Corpus.MergeCompressFullSmartContracts | merge_full_cfg_smart_contracts.py:59-157 | the same fold, with no input graph and the merge script's node attributes |
| Corpus.ExtractGraph | process_graphs/control_flow_graph_generator.py:210-302 | 0 exactly when parsing fails, with no graph; otherwise 1 and the file's graph |
| Corpus.CombineFacts | process_graphs/control_flow_graph_generator.py:185-188 | one fold step adds node and edge counts and keeps well-formedness |
| Corpus.FoldSize | process_graphs/control_flow_graph_generator.py:175-178 | a fold's counts are the accumulator's plus the sum over the folded graphs |
| Corpus.FoldWellFormed | process_graphs/control_flow_graph_generator.py:175-178 | folding well-formed graphs gives a well-formed graph |
| Corpus.FoldNone | process_graphs/control_flow_graph_generator.py:180-183 | a fold is None exactly when the accumulator and every item are None |
| Corpus.FoldSkipsNone | process_graphs/control_flow_graph_generator.py:180-183 | None items can be dropped without changing the fold |
| Corpus.ContractGraphFacts | process_graphs/control_flow_graph_generator.py:110-178 | a contract graph is well formed, None exactly when it has no members, and its counts are the sum of its functions' |
| Corpus.FileGraphFacts | process_graphs/control_flow_graph_generator.py:108-183 | a file graph is well formed, None exactly when no contract has members, and its counts are the sum of its contracts' |
| Corpus.CorpusSize | process_graphs/control_flow_graph_generator.py:83-188 | the corpus graph is well formed, its counts are the input's plus every file's, and a failed file adds no node |
| Corpus.SuccessCountParsed | process_graphs/control_flow_graph_generator.py:96-98 | the count equals the number of parsed files |
| Corpus.PresentOfParsed | process_graphs/control_flow_graph_generator.py:96-102 | the non-empty graphs produced from all files and from the parsed files alone are the same, and the count is the number of parsed files |
| Corpus.ParseFailuresSkipped | process_graphs/control_flow_graph_generator.py:96-102 | the corpus graph is the one built from the parsed files only |
| Corpus.NothingParsed | process_graphs/control_flow_graph_generator.py:84-102 | when no file parses, the result is the input graph and the count is 0 |
| Fusion.LabelIndex.Put | process_graphs/combination_call_graph_and_control_flow_graph_helper.py:18-26 | a dict assignment: a new key is appended to the key order, an existing one keeps its place |
| Fusion.LabelIndex.Pop | process_graphs/combination_call_graph_and_control_flow_graph_helper.py:40 | `pop(key, None)` removes the key |
| Fusion.LabelIndex.Values | process_graphs/combination_call_graph_and_control_flow_graph_helper.py:50 | `values()` lists the entries in key order |
| Fusion.LastFunctionNameFacts | process_graphs/combination_call_graph_and_control_flow_graph_helper.py:16-26 | the chosen CFG node is the last `FUNCTION_NAME` node with the label, none exactly when there is no such node |
| Fusion.LastLabelledFacts | process_graphs/combination_call_graph_and_control_flow_graph_helper.py:28-31 | the chosen call-graph node is the last node with the label, none exactly when there is no such node |
| Fusion.IndexFunctionNames | process_graphs/combination_call_graph_and_control_flow_graph_helper.py:16-26 | the first loop builds a well-formed dict |
| Fusion.MatchCallGraph | process_graphs/combination_call_graph_and_control_flow_graph_helper.py:28-33 | the second loop keeps the dict well formed |
| Fusion.FilterMatchedFacts | process_graphs/combination_call_graph_and_control_flow_graph_helper.py:37-40 | a key survives pruning exactly when its entry got both call-graph fields |
| Fusion.Pruned | process_graphs/combination_call_graph_and_control_flow_graph_helper.py:36-40 | pruning keeps the dict well formed |
| Fusion.Mapping | process_graphs/combination_call_graph_and_control_flow_graph_helper.py:13-42 | the dict returned is well formed |
| Fusion.IndexEntry | process_graphs/combination_call_graph_and_control_flow_graph_helper.py:16-26 | a label is a key exactly when some `FUNCTION_NAME` node carries it, and maps to the last such node |
| Fusion.MatchKeys | process_graphs/combination_call_graph_and_control_flow_graph_helper.py:28-33 | the call-graph loop adds no key and keeps the key order |
| Fusion.MatchEntry | process_graphs/combination_call_graph_and_control_flow_graph_helper.py:28-31 | an entry gets the last call-graph node with its label and its upper-cased type, or stays as it was |
| Fusion.MappingEntry | process_graphs/combination_call_graph_and_control_flow_graph_helper.py:13-42 | a label is kept exactly when both graphs carry it. It joins the last `FUNCTION_NAME` CFG node with the last call-graph node of that label, with the upper-cased call-graph type |
| Fusion.MappingMatched | process_graphs/combination_call_graph_and_control_flow_graph_helper.py:36-40 | every remaining entry has both call-graph fields |
| Fusion.MappingSize | process_graphs/combination_call_graph_and_control_flow_graph_helper.py:13-42 | there are no more keys than distinct `FUNCTION_NAME` labels |
| Fusion.MappingInjective | process_graphs/combination_call_graph_and_control_flow_graph_helper.py:13-42 | two different labels join different CFG nodes and different call-graph nodes |
| Fusion.IndexCfgNodes | process_graphs/combination_call_graph_and_control_flow_graph_helper.py:16-26 | the CFG loop computes the first dict |
| Fusion.MatchCgNodes | process_graphs/combination_call_graph_and_control_flow_graph_helper.py:28-33 | the call-graph loop computes the matched dict |
| Fusion.PruneUnmatched | process_graphs/combination_call_graph_and_control_flow_graph_helper.py:36-40 | the pruning loop over a copy computes the pruned dict |
| Fusion.MappingCfgAndCgNodeLabels | process_graphs/combination_call_graph_and_control_flow_graph_helper.py:13-42 | the three loops compute the label mapping |
| Fusion.LastCfgForFacts | process_graphs/combination_call_graph_and_control_flow_graph_helper.py:50-55 | a found CFG node comes from an entry naming the call-graph node; none exactly when no entry names it |
| Fusion.ProjectedBounds | process_graphs/combination_call_graph_and_control_flow_graph_helper.py:57-58 | there are no more new edges than call-graph edges, and both ends of each new edge are joined CFG nodes |
| Fusion.ProjectedMembership | process_graphs/combination_call_graph_and_control_flow_graph_helper.py:46-58 | an edge is new exactly when it is the image of some call-graph edge |
| Fusion.ProjectedConcat | process_graphs/combination_call_graph_and_control_flow_graph_helper.py:46-58 | projection works edge by edge and keeps order |
| Fusion.ProjectedDropsUnmapped | process_graphs/combination_call_graph_and_control_flow_graph_helper.py:57 | an edge with an unjoined end is dropped |
| Fusion.MappingLookup | process_graphs/combination_call_graph_and_control_flow_graph_helper.py:50-55 | through the label mapping, a joined call-graph node scans to its own CFG partner |
| Fusion.ScanEntries | process_graphs/combination_call_graph_and_control_flow_graph_helper.py:50-55 | the inner loop finds both ends' CFG partners |
| Fusion.ProjectEdges | process_graphs/combination_call_graph_and_control_flow_graph_helper.py:45-58 | the edge loop collects the projected edges |
| Fusion.AddNewCfgEdgesFromCallGraph | process_graphs/combination_call_graph_and_control_flow_graph_helper.py:44-62 | in place, CFG nodes unchanged and the projected call-graph edges appended; the same object is returned |
| Fusion.LastTypeForFacts | process_graphs/combination_call_graph_and_control_flow_graph_helper.py:65-67 | a node's new type comes from an entry naming it; none exactly when no entry names it |
| Fusion.RetypeAll | process_graphs/combination_call_graph_and_control_flow_graph_helper.py:65-67 | retyping keeps keys and edges |
| Fusion.RetypePointwise | process_graphs/combination_call_graph_and_control_flow_graph_helper.py:65-67 | each node keeps its key and attributes but for `node_type`, taken from the last entry naming it |
| Fusion.RetypeIdempotent | process_graphs/combination_call_graph_and_control_flow_graph_helper.py:64-67 | retyping twice with the same dict is retyping once |
| Fusion.FusedNodeType | process_graphs/combination_call_graph_and_control_flow_graph_helper.py:64-67 | a joined CFG node ends with the type its own entry carries |
| Fusion.RetypeNodes | process_graphs/combination_call_graph_and_control_flow_graph_helper.py:65-67 | the loop over the entries computes the retyped graph in place |
| Fusion.UpdateCfgNodeTypesByCallGraphNodeTypes | process_graphs/combination_call_graph_and_control_flow_graph_helper.py:64-67 | in place, the CFG becomes its retyped value |
| Fusion.MappingFitsCfg | process_graphs/combination_call_graph_and_control_flow_graph_helper.py:89-95 | the dict only names CFG nodes and every entry is matched, which is what the two later passes read |
| Fusion.Fused | process_graphs/combination_call_graph_and_control_flow_graph_helper.py:89-95 | the fused CFG keeps the CFG's keys and gains exactly the projected call-graph edges |
| Fusion.FuseGraphs | process_graphs/combination_call_graph_and_control_flow_graph_helper.py:89-95 | the three calls in sequence turn the CFG, in place, into the fused graph |
| Fusion.FusedPointwise | process_graphs/combination_call_graph_and_control_flow_graph_helper.py:89-95 | each fused node is the CFG node with the type the dict assigns to its key |
| Fusion.FusedKeepsOtherNodes | process_graphs/combination_call_graph_and_control_flow_graph_helper.py:89-95 | a CFG node that is not `FUNCTION_NAME` leaves the fusion unchanged |
| Fusion.FusedRetypesJoinedNode | process_graphs/combination_call_graph_and_control_flow_graph_helper.py:89-95 | the last `FUNCTION_NAME` node of a label the call graph carries takes the upper-cased type of the last call-graph node with that label, keeping its key and other attributes |

## Left out

- File I/O is not modelled. This covers `open`/`readline`, `read_gpickle`, `write_gpickle` and `write_dot`, as well as `print`, `nx.info`, `tqdm` and directory listing. A file's text is a sequence of `readline` results ending at the first empty one, the input graph is a value, and nothing is written.
- The Slither analyzer is not part of this model. Its result per file is an input (`Analysis`): a parse failure, or the contracts with their functions, modifiers and nodes. Picking the `solc` binary from the version (control_flow_graph_generator.py:91-93) only feeds the analyzer and is left out. The version itself is modelled.
- `check_extract_graph` (control_flow_graph_generator.py:198-207) only reports whether the analyzer accepts a file, which is an input here.
- `print_nx_network_full_info`, the `__main__` blocks' path building and loops over bug types, `node_classifier.py` and the HAN training code are outside the modelled layer. The fusion `__main__`'s three calls are modelled by `FuseGraphs`.
- `str.upper` is modelled on ASCII letters only, and the regular expression's `\d` on ASCII digits only.
- The generator computes `bug_type` (line 95) and `sc_version` is used only for the compiler path. Neither reaches the graph. `bug_type` raises IndexError for a path without '/'. Corpus.CompressFullSmartContracts: requires every path to contain '/', instead of modelling that exception.
- Fusion.AddNewCfgEdgesFromCallGraph: requires every entry to name a CFG node and to hold a call-graph key. networkx `add_edges_from` would create missing nodes, and a missing key raises KeyError. `MappingFitsCfg` shows the dict the fusion script builds always meets both.
- Fusion.UpdateCfgNodeTypesByCallGraphNodeTypes: requires every entry to name a CFG node and to hold a call-graph type, instead of modelling KeyError. The fusion script's own dict meets this (`MappingFitsCfg`).
- NxGraph.Graph: edge order is insertion order everywhere in the model. networkx lists a `MultiDiGraph`'s edges grouped by source node in node order. `disjoint_union` re-adds edges in that grouped order, the fusion pass walks `call_graph.edges()` in it, and in-place `relabel_nodes` re-inserts each node's edges. Only the edge multiset matches networkx. So "in node order" (`AddAnalyzerNodesFacts`), "appended in order" (`AddEdgesFrom`) and "keeps order" (`ProjectedConcat`) describe the model's own edge sequence, not networkx's iteration order.
- NxGraph.MultiDiGraph.RelabelNodes: keeps the model's edge order, where networkx may reorder edges (see the line above).
- NxGraph.DisjointUnion: associativity is not proved. The scripts fold left to right, and the model folds the same way.
- The call graph is modelled with the CFG's node record. The fusion pass reads only `label` and `node_type` from it.
- `deepcopy` is modelled as a fresh object with the same value. Record lists shared between node attributes are values here, so aliasing between them is not modelled.
- NodeInfo.GetNodeInfo: a node's type, expression and IRs are the analyzer's `str` results. The model takes them as strings and does not model how Slither prints them.
