/** What the static analyzer (Slither) hands to the graph builder, and the
    vulnerability report read from JSON. Running the analyzer is not part of
    this model: its outcome for each source file is an input. */
module Analyzer {
  import opened Common

  /** Slither's `NodeType`; the builder only tells the two branch kinds apart
      from everything else. `Other` stands for every other kind, so its name
      is never "IF" or "IF_LOOP" (see `Canonical`). */
  datatype NodeType = If | IfLoop | Other(name: string)

  /** The node types Slither can produce: the two branch kinds are never
      spelled as `Other`. */
  predicate Canonical(t: NodeType)
  {
    t.Other? ==> t.name != "IF" && t.name != "IF_LOOP"
  }

  /** `str(node.type)`. */
  function TypeText(t: NodeType): string
  {
    match t
    case If => "IF"
    case IfLoop => "IF_LOOP"
    case Other(name) => name
  }

  /** `node.type in [NodeType.IF, NodeType.IFLOOP]`. */
  predicate IsBranch(t: NodeType)
  {
    t.If? || t.IfLoop?
  }

  /** For the node types Slither produces, the branch test on the enum and
      the printed type text agree. */
  lemma BranchByText(t: NodeType)
    requires Canonical(t)
    ensures IsBranch(t) <==> TypeText(t) == "IF" || TypeText(t) == "IF_LOOP"
  {
  }

  /** The part of an analyzer node that `get_node_info` reads: its integer id,
      type, optional expression, IR instructions (already rendered with `str`)
      and its source lines (`source_mapping['lines']`). */
  datatype NodeData = NodeData(
    id: nat,
    nodeType: NodeType,
    expression: Option<string>,
    irs: seq<string>,
    lines: seq<int>)

  /** One entry of `function.nodes`: its data and its successors. A successor
      reference may be null (`None`); a successor carries its own data, since
      the builder annotates an unseen successor before inserting it. */
  datatype AnalyzerNode = AnalyzerNode(
    data: NodeData,
    sons: seq<Option<NodeData>>,
    sonTrue: Option<NodeData>,
    sonFalse: Option<NodeData>)

  /** A function or modifier: `full_name`, its ordered `nodes` and the lines of
      its whole body. */
  datatype Function = Function(fullName: string, nodes: seq<AnalyzerNode>, lines: seq<int>)

  datatype Contract = Contract(name: string, functions: seq<Function>, modifiers: seq<Function>)
  {
    /** `contract.functions + contract.modifiers`. */
    function Members(): seq<Function>
    {
      functions + modifiers
    }
  }

  /** `Slither(sc)` either raises or yields the file's contracts. */
  datatype Analysis = ParseFailure | Parsed(contracts: seq<Contract>)

  /** A source file: its path, its text as `readline` returns it (each line
      with its trailing newline, the empty string only at end of file) and
      what the analyzer makes of it. */
  datatype SourceFile = SourceFile(path: string, text: seq<string>, analysis: Analysis)

  /** One vulnerability record of a file: its `lines`; the rest of the JSON
      object is carried along untouched. */
  datatype VulRecord = VulRecord(lines: seq<int>, details: string)

  /** One entry of the vulnerability report: `{name, vulnerabilities}`. */
  datatype VulEntry = VulEntry(name: string, vulnerabilities: seq<VulRecord>)
}
