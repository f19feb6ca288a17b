/**
 * The static workflow graph: the four nodes with the controller action each runs,
 * the entry edge into `supervisor`, and the one edge from `conversational_agent`
 * to the end. Every other hop comes from the `goto` of a returned command.
 */
module GraphBuilder {
  import opened Wrappers

  /** An edge end: the graph's `START` or `END` marker, or a node name. */
  datatype Endpoint = Start | End | Node(name: string)

  /** The controller method a node runs. */
  datatype StepAction = RoutingDecisionStep | WebSearchStep | FootballDataStep | ResponseStep

  datatype NodeDecl = NodeDecl(name: string, action: StepAction)

  datatype Edge = Edge(source: Endpoint, target: Endpoint)

  /** What a `StateGraph` has been told: its nodes and its edges, in declaration order. */
  datatype Graph = Graph(nodes: seq<NodeDecl>, edges: seq<Edge>)

  /** The action of the first node declared under `name`, if any. */
  function Lookup(nodes: seq<NodeDecl>, name: string): (r: Option<StepAction>)
    ensures r.Some? <==> exists i :: 0 <= i < |nodes| && nodes[i].name == name
    ensures r.Some? ==> NodeDecl(name, r.value) in nodes
  {
    if nodes == [] then None
    else if nodes[0].name == name then Some(nodes[0].action)
    else Lookup(nodes[1..], name)
  }

  /** The node names that the static edges from `source` lead to, `END` left out. */
  function StaticTargets(edges: seq<Edge>, source: Endpoint): (r: seq<string>)
    ensures forall n :: n in r <==> exists i :: 0 <= i < |edges| && edges[i] == Edge(source, Node(n))
  {
    if edges == [] then []
    else
      var rest := StaticTargets(edges[1..], source);
      assert forall i :: 1 <= i < |edges| ==> edges[i] == edges[1..][i - 1];
      if edges[0].source == source && edges[0].target.Node? then [edges[0].target.name] + rest else rest
  }

  function NodeNames(nodes: seq<NodeDecl>): (r: seq<string>)
    ensures |r| == |nodes|
    ensures forall i :: 0 <= i < |nodes| ==> r[i] == nodes[i].name
  {
    if nodes == [] then [] else [nodes[0].name] + NodeNames(nodes[1..])
  }

  /** The graph `_build_workflow_graph` declares. */
  const WorkflowGraph: Graph := Graph(
    [ NodeDecl("supervisor", RoutingDecisionStep),
      NodeDecl("search_agent", WebSearchStep),
      NodeDecl("fotmob_agent", FootballDataStep),
      NodeDecl("conversational_agent", ResponseStep) ],
    [ Edge(Start, Node("supervisor")),
      Edge(Node("conversational_agent"), End) ])

  /** The four declared names, in declaration order. */
  const WorkflowNodeNames: seq<string> := ["supervisor", "search_agent", "fotmob_agent", "conversational_agent"]

  /** Exactly four nodes, with four distinct names. */
  lemma FourDistinctNodes()
    ensures NodeNames(WorkflowGraph.nodes) == WorkflowNodeNames
    ensures forall i, j :: 0 <= i < j < 4 ==> WorkflowNodeNames[i] != WorkflowNodeNames[j]
    ensures forall n :: Lookup(WorkflowGraph.nodes, n).Some? <==> n in WorkflowNodeNames
  {
  }

  /**
   * START leads only to `supervisor`; only `conversational_agent` leads to END; the
   * other three nodes have no static successor.
   */
  lemma WorkflowEdgesShape()
    ensures StaticTargets(WorkflowGraph.edges, Start) == ["supervisor"]
    ensures forall e :: e in WorkflowGraph.edges && e.target == End ==> e.source == Node("conversational_agent")
    ensures forall e :: e in WorkflowGraph.edges && e.source == Start ==> e.target == Node("supervisor")
    ensures StaticTargets(WorkflowGraph.edges, Node("supervisor")) == []
    ensures StaticTargets(WorkflowGraph.edges, Node("search_agent")) == []
    ensures StaticTargets(WorkflowGraph.edges, Node("fotmob_agent")) == []
    ensures StaticTargets(WorkflowGraph.edges, Node("conversational_agent")) == []
  {
  }

  /** LangGraph's `StateGraph`, as far as declaring nodes and edges goes. */
  class StateGraph {
    var nodes: seq<NodeDecl>
    var edges: seq<Edge>

    constructor ()
      ensures nodes == [] && edges == []
    {
      nodes, edges := [], [];
    }

    function Declared(): Graph
      reads this
    {
      Graph(nodes, edges)
    }

    /** `add_node(name, action)`. */
    method AddNode(name: string, action: StepAction)
      modifies this
      ensures nodes == old(nodes) + [NodeDecl(name, action)] && edges == old(edges)
    {
      nodes := nodes + [NodeDecl(name, action)];
    }

    /** `add_edge(source, target)`. */
    method AddEdge(source: Endpoint, target: Endpoint)
      modifies this
      ensures edges == old(edges) + [Edge(source, target)] && nodes == old(nodes)
    {
      edges := edges + [Edge(source, target)];
    }
  }

  /** `GraphBuilder`: owns the state graph and fills it in on construction. */
  class GraphBuilder {
    var stateGraph: StateGraph

    constructor ()
      ensures fresh(stateGraph)
      ensures stateGraph.Declared() == WorkflowGraph
    {
      stateGraph := new StateGraph();
      new;
      var _ := BuildWorkflowGraph();
    }

    /** `_build_workflow_graph`: declares the four nodes and the two static edges. */
    method BuildWorkflowGraph() returns (g: StateGraph)
      modifies stateGraph
      ensures g == stateGraph
      ensures stateGraph.nodes == old(stateGraph.nodes) + WorkflowGraph.nodes
      ensures stateGraph.edges == old(stateGraph.edges) + WorkflowGraph.edges
    {
      stateGraph.AddNode("supervisor", RoutingDecisionStep);
      stateGraph.AddNode("search_agent", WebSearchStep);
      stateGraph.AddNode("fotmob_agent", FootballDataStep);
      stateGraph.AddNode("conversational_agent", ResponseStep);
      stateGraph.AddEdge(Start, Node("supervisor"));
      stateGraph.AddEdge(Node("conversational_agent"), End);
      g := stateGraph;
    }
  }
}
