/** `get_node_info`: the text label and attribute values a CFG node gets
    from its analyzer node. Both scripts build the same label; the generator
    also returns the node's source lines, and each script attaches
    vulnerabilities with its own matcher. */
module NodeInfo {
  import opened Common
  import opened Analyzer
  import opened Vulnerabilities

  /** Which of the two builder scripts runs: the generator
      (`control_flow_graph_generator.py`) or the older merge script
      (`merge_full_cfg_smart_contracts.py`). */
  datatype Script = Generator | MergeScript

  /** The script's `get_vulnerabilities_of_node_by_source_code_line`. */
  function MatchVulnerabilities(script: Script, lines: seq<int>, vul: Option<seq<VulRecord>>): Option<seq<VulRecord>>
  {
    match script
    case Generator => MatchBySet(lines, vul)
    case MergeScript => MatchByLinePairs(lines, vul)
  }

  /** The tuple `get_node_info` returns. `sourceLines` is `None` for the
      merge script, whose tuple has no such member. */
  datatype Info = Info(
    nodeLabel: string,
    nodeType: string,
    expression: Option<string>,
    irs: Option<string>,
    vulnerabilities: Option<seq<VulRecord>>,
    sourceLines: Option<seq<int>>)

  function Header(t: string): string
  {
    "Node Type: " + t + "\n"
  }

  function ExpressionSection(e: string): string
  {
    "\nEXPRESSION:\n" + e + "\n"
  }

  const IrsMarker := "\nIRs:\n"

  /** The node label: the header, then the expression section when there is
      an expression, then the IR section when there are IRs. */
  function NodeLabel(t: string, expression: Option<string>, irs: seq<string>): (r: string)
    ensures Header(t) <= r
    ensures expression.Some? ==> Header(t) + ExpressionSection(expression.value) <= r
    ensures |irs| > 0 ==> IsSuffix(IrsMarker + Join(irs, '\n'), r)
    ensures expression.None? && |irs| == 0 <==> r == Header(t)
    ensures |r| == |Header(t)|
                   + (if expression.Some? then |ExpressionSection(expression.value)| else 0)
                   + (if |irs| > 0 then |IrsMarker + Join(irs, '\n')| else 0)
  {
    var withExpression := if expression.Some? then Header(t) + ExpressionSection(expression.value) else Header(t);
    if |irs| > 0 then withExpression + IrsMarker + Join(irs, '\n') else withExpression
  }

  function GetNodeInfo(script: Script, node: NodeData, vul: Option<seq<VulRecord>>): (r: Info)
    ensures r.nodeType == TypeText(node.nodeType)
    ensures r.nodeLabel == NodeLabel(r.nodeType, node.expression, node.irs)
    ensures r.expression == node.expression
    ensures r.irs.None? <==> |node.irs| == 0
    ensures r.irs.Some? ==> r.irs.value == Join(node.irs, '\n')
    ensures r.vulnerabilities == MatchVulnerabilities(script, node.lines, vul)
    ensures r.sourceLines == if script.Generator? then Some(node.lines) else None
  {
    var t := TypeText(node.nodeType);
    var irs := if |node.irs| > 0 then Some(Join(node.irs, '\n')) else None;
    Info(NodeLabel(t, node.expression, node.irs), t, node.expression, irs,
         MatchVulnerabilities(script, node.lines, vul),
         if script.Generator? then Some(node.lines) else None)
  }

  /** `node_irs` is the newline join of the IRs: splitting it on newlines
      gives them back, as long as no IR spans several lines. */
  lemma IrsRoundTrip(script: Script, node: NodeData, vul: Option<seq<VulRecord>>)
    requires |node.irs| > 0
    requires forall i :: 0 <= i < |node.irs| ==> '\n' !in node.irs[i]
    ensures GetNodeInfo(script, node, vul).irs.Some?
    ensures Split(GetNodeInfo(script, node, vul).irs.value, '\n') == node.irs
  {
    SplitJoin(node.irs, '\n');
  }
}
