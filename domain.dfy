/**
 * The application's records: a flowchart graph and a test case.  A graph
 * comes out of `JSON.parse` unchecked, so either of its arrays may be absent.
 * (`label` is a reserved word here, so the node's label is `nodeLabel`.)
 */
module Domain {
  import opened Wrappers

  datatype FlowchartNode = FlowchartNode(id: string, nodeLabel: string, description: string)

  datatype FlowchartEdge = FlowchartEdge(source: string, target: string)

  datatype FlowchartData = FlowchartData(
    nodes: Option<seq<FlowchartNode>>,
    edges: Option<seq<FlowchartEdge>>)

  datatype TestCase = TestCase(id: string, description: string, standards: seq<string>)
}
