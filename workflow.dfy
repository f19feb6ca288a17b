/**
 * A small interpreter for the compiled workflow, in LangGraph's superstep style.
 * The nodes of one superstep all run against the same state snapshot; their
 * updates are then merged one after the other, in task order or reversed (the two
 * completion orders of a fan-out); the next superstep runs every node named by a
 * returned `goto` or by a static edge, each once. A run with no next node
 * finishes. A task naming an undeclared node stops the run with a dangling
 * target; running out of supersteps stops it at the recursion limit; a state that
 * fails the schema's validation when it is built as the next nodes' input stops it
 * as invalid.
 */
module Workflow {
  import opened Wrappers
  import opened State
  import opened Commands
  import opened GraphBuilder
  import Supervisor
  import WebSearch
  import FootballData
  import ConversationResponse
  import RouteDecision

  /**
   * The outside world of one run: the classifier, the search provider and the
   * football agent (each already returning the text the step keeps), the answer
   * generator, and the two freshly generated tool-call ids.
   */
  datatype Collaborators = Collaborators(
    classify: string -> string,
    search: string -> string,
    footballAgent: string -> string,
    generate: ConversationResponse.ResponsePrompt -> string,
    searchCallId: string,
    agentCallId: string)

  /** The command the controller method behind a node returns on a given snapshot. */
  function RunStep(action: StepAction, s: ConversationState, c: Collaborators): Command
  {
    match action
    case RoutingDecisionStep => Supervisor.RoutingStep(s, c.classify)
    case WebSearchStep => WebSearch.SearchWebContent(s, c.search, c.searchCallId)
    case FootballDataStep => FootballData.ProcessFootballQuery(s, c.footballAgent, c.agentCallId)
    case ResponseStep => ConversationResponse.GenerateResponse(s, c.generate)
  }

  /** The first task that names no declared node. */
  function FirstUndeclared(nodes: seq<NodeDecl>, tasks: seq<string>): (r: Option<string>)
    ensures r.None? <==> forall i :: 0 <= i < |tasks| ==> Lookup(nodes, tasks[i]).Some?
    ensures r.Some? ==> r.value in tasks && Lookup(nodes, r.value).None?
  {
    if tasks == [] then None
    else if Lookup(nodes, tasks[0]).None? then Some(tasks[0])
    else
      var rest := FirstUndeclared(nodes, tasks[1..]);
      assert forall i :: 1 <= i < |tasks| ==> tasks[i] == tasks[1..][i - 1];
      rest
  }

  /** The commands of one superstep's tasks, all computed on the same snapshot. */
  function TaskCommands(nodes: seq<NodeDecl>, tasks: seq<string>, s: ConversationState, c: Collaborators): (cmds: seq<Command>)
    requires forall i :: 0 <= i < |tasks| ==> Lookup(nodes, tasks[i]).Some?
    ensures |cmds| == |tasks|
  {
    if tasks == [] then []
    else [RunStep(Lookup(nodes, tasks[0]).value, s, c)] + TaskCommands(nodes, tasks[1..], s, c)
  }

  /** Each command is the step declared for its task, run on the shared snapshot. */
  lemma {:induction false} TaskCommandsRunEach(nodes: seq<NodeDecl>, tasks: seq<string>, s: ConversationState, c: Collaborators)
    requires forall i :: 0 <= i < |tasks| ==> Lookup(nodes, tasks[i]).Some?
    ensures var cmds := TaskCommands(nodes, tasks, s, c);
      forall i :: 0 <= i < |tasks| ==> cmds[i] == RunStep(Lookup(nodes, tasks[i]).value, s, c)
  {
    if tasks != [] {
      assert forall i :: 1 <= i < |tasks| ==> tasks[i] == tasks[1..][i - 1];
      TaskCommandsRunEach(nodes, tasks[1..], s, c);
    }
  }

  /** Where control goes after a superstep: each task's goto targets, then its static successors. */
  function NextTargets(edges: seq<Edge>, tasks: seq<string>, cmds: seq<Command>): (r: seq<string>)
    requires |cmds| == |tasks|
  {
    if tasks == [] then []
    else GotoTargets(cmds[0].goto) + StaticTargets(edges, Node(tasks[0])) + NextTargets(edges, tasks[1..], cmds[1..])
  }

  function Updates(cmds: seq<Command>): (us: seq<StateUpdate>)
    ensures |us| == |cmds|
    ensures forall i :: 0 <= i < |cmds| ==> us[i] == cmds[i].update
  {
    if cmds == [] then [] else [cmds[0].update] + Updates(cmds[1..])
  }

  function Reverse<T>(xs: seq<T>): (r: seq<T>)
    ensures |r| == |xs|
    ensures forall i :: 0 <= i < |xs| ==> r[i] == xs[|xs| - 1 - i]
  {
    if xs == [] then [] else Reverse(xs[1..]) + [xs[0]]
  }

  /** How many of the updates set the route decision. */
  function RouteWrites(us: seq<StateUpdate>): nat
  {
    if us == [] then 0 else (if us[0].currentRouteDecision.Some? then 1 else 0) + RouteWrites(us[1..])
  }

  /** How many of the updates set the final answer. */
  function AnswerWrites(us: seq<StateUpdate>): nat
  {
    if us == [] then 0 else (if us[0].finalAnswer.Some? then 1 else 0) + AnswerWrites(us[1..])
  }

  /** Each name once, at its first occurrence. */
  function Dedup(xs: seq<string>): (r: seq<string>)
    ensures forall x :: x in r <==> x in xs
    ensures forall i, j :: 0 <= i < j < |r| ==> r[i] != r[j]
    ensures |r| <= |xs|
  {
    if xs == [] then []
    else
      var init := Dedup(xs[..|xs| - 1]);
      var last := xs[|xs| - 1];
      assert forall x :: x in xs <==> x in xs[..|xs| - 1] || x == last;
      if last in xs[..|xs| - 1] then init else init + [last]
  }

  datatype Outcome =
    | Finished(state: ConversationState)
    | DanglingTarget(name: string, state: ConversationState)
    | ConcurrentWrite(field: string, state: ConversationState)
    | RecursionLimit(state: ConversationState)
    | InvalidState(state: ConversationState)

  /**
   * How the state schema types `current_route_decision`: as the route-decision
   * enumeration, whose values are then checked each time a node's input is built
   * from the state, or as plain text, which takes whatever token is written.
   */
  datatype DecisionField = EnumField | TextField

  /** Whether a state passes the schema's validation as a node's input. */
  predicate Validates(f: DecisionField, s: ConversationState)
  {
    match f
    case TextField => true
    case EnumField =>
      s.currentRouteDecision.None? || RouteDecision.FromValue(s.currentRouteDecision.value).Some?
  }

  /** What one superstep leads to: the next tasks on the merged state, or a stop. */
  datatype Progress =
    | Continue(next: seq<string>, state: ConversationState)
    | Stopped(outcome: Outcome)

  /**
   * One superstep of declared tasks: run them all on `s`, then merge their updates
   * and collect the next tasks. A field without a reducer may take one write per
   * superstep, as LangGraph's last-value channels require.
   */
  function Superstep(g: Graph, tasks: seq<string>, s: ConversationState, c: Collaborators, flip: bool): (p: Progress)
    requires FirstUndeclared(g.nodes, tasks).None?
    ensures p.Stopped? ==> p.outcome.ConcurrentWrite? && p.outcome.state == s
    ensures p.Continue? ==> p.state.userQuestion == s.userQuestion
    ensures p.Continue? <==>
      var us := Updates(TaskCommands(g.nodes, tasks, s, c));
      RouteWrites(us) <= 1 && AnswerWrites(us) <= 1
  {
    var cmds := TaskCommands(g.nodes, tasks, s, c);
    var us := Updates(cmds);
    if RouteWrites(us) > 1 then Stopped(ConcurrentWrite("current_route_decision", s))
    else if AnswerWrites(us) > 1 then Stopped(ConcurrentWrite("final_answer", s))
    else Continue(Dedup(NextTargets(g.edges, tasks, cmds)), ApplyAll(s, Ordered(us, flip)))
  }

  /**
   * Runs `tasks` and whatever they lead to, for at most `fuel` supersteps, with the
   * decision field typed as `f`. A state that fails validation stops the run before
   * its next superstep. Whatever the outcome, the question is the one asked.
   */
  function Run(g: Graph, tasks: seq<string>, s: ConversationState, c: Collaborators, flip: bool, f: DecisionField, fuel: nat): (o: Outcome)
    ensures o.state.userQuestion == s.userQuestion
    decreases fuel
  {
    if tasks == [] then Finished(s)
    else match FirstUndeclared(g.nodes, tasks)
      case Some(n) => DanglingTarget(n, s)
      case None =>
        if fuel == 0 then RecursionLimit(s)
        else if !Validates(f, s) then InvalidState(s)
        else match Superstep(g, tasks, s, c, flip)
          case Stopped(o) => o
          case Continue(next, t) => Run(g, next, t, c, flip, f, fuel - 1)
  }

  /** A whole run of the declared graph on a fresh state for `question`. */
  function Execute(f: DecisionField, question: string, c: Collaborators, flip: bool, fuel: nat): (o: Outcome)
    ensures o.state.userQuestion == question
  {
    Run(WorkflowGraph, StaticTargets(WorkflowGraph.edges, Start), Initial(question), c, flip, f, fuel)
  }

  /** The compiled workflow as declared, over a state whose decision field is the enumeration. */
  function ExecuteWorkflow(question: string, c: Collaborators, flip: bool, fuel: nat): (o: Outcome)
    ensures o.state.userQuestion == question
  {
    Execute(EnumField, question, c, flip, fuel)
  }

  /** The same workflow over a state whose decision field takes the routing tokens as text. */
  function ExecuteWorkflowCorrected(question: string, c: Collaborators, flip: bool, fuel: nat): (o: Outcome)
    ensures o.state.userQuestion == question
  {
    Execute(TextField, question, c, flip, fuel)
  }

  /** The decision the supervisor takes for a question. */
  function Decision(question: string, c: Collaborators): string
  {
    Supervisor.NormaliseDecision(c.classify(question))
  }

  /** The context item each retrieval step contributes. */
  function SearchItem(question: string, c: Collaborators): ContextItem
  {
    ContextItem("tool", c.search(WebSearch.FootballQuery(question)), c.searchCallId)
  }

  function AgentItem(question: string, c: Collaborators): ContextItem
  {
    ContextItem("tool", c.footballAgent(question), c.agentCallId)
  }

  // ---------------------------------------------------------------------------
  // One superstep of each node of the declared graph.

  lemma DeclaredLookups()
    ensures Lookup(WorkflowGraph.nodes, "supervisor") == Some(RoutingDecisionStep)
    ensures Lookup(WorkflowGraph.nodes, "search_agent") == Some(WebSearchStep)
    ensures Lookup(WorkflowGraph.nodes, "fotmob_agent") == Some(FootballDataStep)
    ensures Lookup(WorkflowGraph.nodes, "conversational_agent") == Some(ResponseStep)
  {
  }

  /** The order in which a superstep's updates are merged. */
  function Ordered(us: seq<StateUpdate>, flip: bool): (r: seq<StateUpdate>)
    ensures |r| == |us|
    ensures multiset(r) == multiset(us)
  {
    if flip then
      var r := Reverse(us);
      ReverseMultiset(us);
      r
    else us
  }

  lemma {:induction false} ReverseMultiset<T>(xs: seq<T>)
    ensures multiset(Reverse(xs)) == multiset(xs)
  {
    if xs != [] {
      ReverseMultiset(xs[1..]);
      assert xs == [xs[0]] + xs[1..];
    }
  }

  /** A superstep that continues hands its next tasks and its state to the rest of the run. */
  lemma RunContinues(g: Graph, tasks: seq<string>, s: ConversationState, c: Collaborators, flip: bool, f: DecisionField, fuel: nat)
    requires tasks != [] && FirstUndeclared(g.nodes, tasks).None? && fuel > 0 && Validates(f, s)
    requires Superstep(g, tasks, s, c, flip).Continue?
    ensures var p := Superstep(g, tasks, s, c, flip);
      Run(g, tasks, s, c, flip, f, fuel) == Run(g, p.next, p.state, c, flip, f, fuel - 1)
  {
  }

  /** A superstep of one declared task. */
  lemma SingleTask(g: Graph, name: string, action: StepAction, s: ConversationState, c: Collaborators)
    requires Lookup(g.nodes, name) == Some(action)
    ensures TaskCommands(g.nodes, [name], s, c) == [RunStep(action, s, c)]
    ensures var cmd := RunStep(action, s, c);
      && NextTargets(g.edges, [name], [cmd]) == GotoTargets(cmd.goto) + StaticTargets(g.edges, Node(name))
      && Updates([cmd]) == [cmd.update]
      && Ordered([cmd.update], true) == [cmd.update] && Ordered([cmd.update], false) == [cmd.update]
      && RouteWrites([cmd.update]) == (if cmd.update.currentRouteDecision.Some? then 1 else 0)
      && AnswerWrites([cmd.update]) == (if cmd.update.finalAnswer.Some? then 1 else 0)
      && ApplyAll(s, [cmd.update]) == ApplyUpdate(s, cmd.update)
      && FirstUndeclared(g.nodes, [name]).None?
  {
    var cmd := RunStep(action, s, c);
    assert [name][1..] == [];
    assert [cmd][1..] == [];
    assert [cmd.update][1..] == [];
  }

  /** The supervisor's superstep sets the decision and continues with the node(s) it names. */
  lemma SupervisorSuperstep(s: ConversationState, c: Collaborators, flip: bool)
    ensures FirstUndeclared(WorkflowGraph.nodes, ["supervisor"]).None?
    ensures var d := Decision(s.userQuestion, c);
      Superstep(WorkflowGraph, ["supervisor"], s, c, flip)
      == Continue(if d == "both" then ["search_agent", "fotmob_agent"] else [d], s.(currentRouteDecision := Some(d)))
  {
    var d := Decision(s.userQuestion, c);
    var g := WorkflowGraph;
    var cmd := Supervisor.RoutingCommand(d);
    SupervisorTask(s, c, flip);
    var targets := if d == "both" then ["search_agent", "fotmob_agent"] else [d];
    assert Dedup(NextTargets(g.edges, ["supervisor"], [cmd])) == targets by {
      if d == "both" {
        DedupPair("search_agent", "fotmob_agent");
      } else {
        DedupSingle(d);
      }
    }
  }

  lemma SupervisorTask(s: ConversationState, c: Collaborators, flip: bool)
    ensures var cmd := Supervisor.RoutingCommand(Decision(s.userQuestion, c));
      && FirstUndeclared(WorkflowGraph.nodes, ["supervisor"]).None?
      && TaskCommands(WorkflowGraph.nodes, ["supervisor"], s, c) == [cmd]
      && NextTargets(WorkflowGraph.edges, ["supervisor"], [cmd]) == GotoTargets(cmd.goto)
      && Updates([cmd]) == [cmd.update]
      && RouteWrites([cmd.update]) == 1 && AnswerWrites([cmd.update]) == 0
      && ApplyAll(s, Ordered([cmd.update], flip)) == s.(currentRouteDecision := Some(Decision(s.userQuestion, c)))
  {
    var cmd := Supervisor.RoutingCommand(Decision(s.userQuestion, c));
    assert RunStep(RoutingDecisionStep, s, c) == cmd;
    assert Lookup(WorkflowGraph.nodes, "supervisor") == Some(RoutingDecisionStep) by {
      DeclaredLookups();
    }
    SingleTask(WorkflowGraph, "supervisor", RoutingDecisionStep, s, c);
    assert StaticTargets(WorkflowGraph.edges, Node("supervisor")) == [] by {
      NoStaticNodeTargets("supervisor");
    }
    assert GotoTargets(cmd.goto) + [] == GotoTargets(cmd.goto);
  }

  lemma DedupSingle(x: string)
    ensures Dedup([x]) == [x]
  {
    assert [x][..0] == [];
  }

  lemma DedupPair(x: string, y: string)
    requires x != y
    ensures Dedup([x, y]) == [x, y]
  {
    assert [x, y][..1] == [x];
    DedupSingle(x);
  }
  /** In the declared graph no static edge leads from a node to another node. */
  lemma NoStaticNodeTargets(n: string)
    ensures StaticTargets(WorkflowGraph.edges, Node(n)) == []
  {
    var es := WorkflowGraph.edges;
    assert es[1..] == [Edge(Node("conversational_agent"), End)];
    assert es[1..][1..] == [];
    assert StaticTargets(es[1..][1..], Node(n)) == [];
    assert StaticTargets(es[1..], Node(n)) == [];
  }

  /** A superstep of one declared node of the declared graph. */
  lemma SingleSuperstep(name: string, action: StepAction, s: ConversationState, c: Collaborators, flip: bool)
    requires Lookup(WorkflowGraph.nodes, name) == Some(action)
    ensures FirstUndeclared(WorkflowGraph.nodes, [name]).None?
    ensures var cmd := RunStep(action, s, c);
      Superstep(WorkflowGraph, [name], s, c, flip) == Continue(Dedup(GotoTargets(cmd.goto)), ApplyUpdate(s, cmd.update))
  {
    var cmd := RunStep(action, s, c);
    SingleTask(WorkflowGraph, name, action, s, c);
    NoStaticNodeTargets(name);
    assert GotoTargets(cmd.goto) + [] == GotoTargets(cmd.goto);
  }

  /** The web-search superstep appends its one item and continues with the response node. */
  lemma SearchSuperstep(s: ConversationState, c: Collaborators, flip: bool)
    ensures FirstUndeclared(WorkflowGraph.nodes, ["search_agent"]).None?
    ensures Superstep(WorkflowGraph, ["search_agent"], s, c, flip)
         == Continue(["conversational_agent"], s.(retrievedContext := s.retrievedContext + [SearchItem(s.userQuestion, c)]))
  {
    var cmd := WebSearch.SearchWebContent(s, c.search, c.searchCallId);
    assert RunStep(WebSearchStep, s, c) == cmd;
    assert Lookup(WorkflowGraph.nodes, "search_agent") == Some(WebSearchStep) by {
      DeclaredLookups();
    }
    SingleSuperstep("search_agent", WebSearchStep, s, c, flip);
    assert Dedup(GotoTargets(cmd.goto)) == ["conversational_agent"] by {
      DedupSingle("conversational_agent");
    }
    WebSearch.SearchAppendsOneItem(s, s, c.search, c.searchCallId);
  }

  /** The football-data superstep appends its one item and continues with the response node. */
  lemma FootballSuperstep(s: ConversationState, c: Collaborators, flip: bool)
    ensures FirstUndeclared(WorkflowGraph.nodes, ["fotmob_agent"]).None?
    ensures Superstep(WorkflowGraph, ["fotmob_agent"], s, c, flip)
         == Continue(["conversational_agent"], s.(retrievedContext := s.retrievedContext + [AgentItem(s.userQuestion, c)]))
  {
    var cmd := FootballData.ProcessFootballQuery(s, c.footballAgent, c.agentCallId);
    assert RunStep(FootballDataStep, s, c) == cmd;
    assert Lookup(WorkflowGraph.nodes, "fotmob_agent") == Some(FootballDataStep) by {
      DeclaredLookups();
    }
    SingleSuperstep("fotmob_agent", FootballDataStep, s, c, flip);
    assert Dedup(GotoTargets(cmd.goto)) == ["conversational_agent"] by {
      DedupSingle("conversational_agent");
    }
    FootballData.FootballDataAppendsOneItem(s, s, c.footballAgent, c.agentCallId);
  }

  /** The response superstep sets the final answer and has no next task: the edge to END ends the run. */
  lemma ResponseSuperstep(s: ConversationState, c: Collaborators, flip: bool)
    ensures FirstUndeclared(WorkflowGraph.nodes, ["conversational_agent"]).None?
    ensures Superstep(WorkflowGraph, ["conversational_agent"], s, c, flip)
         == Continue([], s.(finalAnswer := Some(c.generate(ConversationResponse.ResponsePrompt(s.userQuestion, s.retrievedContext)))))
  {
    var cmd := ConversationResponse.GenerateResponse(s, c.generate);
    assert RunStep(ResponseStep, s, c) == cmd;
    assert Lookup(WorkflowGraph.nodes, "conversational_agent") == Some(ResponseStep) by {
      DeclaredLookups();
    }
    SingleSuperstep("conversational_agent", ResponseStep, s, c, flip);
    assert Dedup(GotoTargets(cmd.goto)) == [];
    ConversationResponse.ResponseSetsOnlyAnswer(s, c.generate);
  }

  /**
   * The fan-out superstep runs both retrieval nodes on the same snapshot, merges their
   * items in either order, and continues with the response node once.
   */
  lemma FanOutSuperstep(s: ConversationState, c: Collaborators, flip: bool)
    ensures FirstUndeclared(WorkflowGraph.nodes, ["search_agent", "fotmob_agent"]).None?
    ensures var si, ai := SearchItem(s.userQuestion, c), AgentItem(s.userQuestion, c);
      Superstep(WorkflowGraph, ["search_agent", "fotmob_agent"], s, c, flip)
      == Continue(["conversational_agent"], s.(retrievedContext := s.retrievedContext + (if flip then [ai, si] else [si, ai])))
  {
    var si, ai := SearchItem(s.userQuestion, c), AgentItem(s.userQuestion, c);
    FanOutTasks(s, c);
    FanOutMerge(s, si, ai, flip);
  }

  /** Merging the two retrieval updates, in either order, into one state. */
  lemma FanOutMerge(s: ConversationState, si: ContextItem, ai: ContextItem, flip: bool)
    ensures ApplyAll(s, Ordered([ContextUpdate([si]), ContextUpdate([ai])], flip))
         == s.(retrievedContext := s.retrievedContext + (if flip then [ai, si] else [si, ai]))
  {
    var us := [ContextUpdate([si]), ContextUpdate([ai])];
    if flip {
      assert Ordered(us, flip) == [ContextUpdate([ai]), ContextUpdate([si])];
      MergePair(s, ai, si);
    } else {
      MergePair(s, si, ai);
    }
  }

  lemma FanOutTasks(s: ConversationState, c: Collaborators)
    ensures var si, ai := SearchItem(s.userQuestion, c), AgentItem(s.userQuestion, c);
      var cmds := TaskCommands(WorkflowGraph.nodes, ["search_agent", "fotmob_agent"], s, c);
      && FirstUndeclared(WorkflowGraph.nodes, ["search_agent", "fotmob_agent"]).None?
      && Updates(cmds) == [ContextUpdate([si]), ContextUpdate([ai])]
      && RouteWrites(Updates(cmds)) == 0 && AnswerWrites(Updates(cmds)) == 0
      && Dedup(NextTargets(WorkflowGraph.edges, ["search_agent", "fotmob_agent"], cmds)) == ["conversational_agent"]
  {
    var si, ai := SearchItem(s.userQuestion, c), AgentItem(s.userQuestion, c);
    var tasks := ["search_agent", "fotmob_agent"];
    DeclaredLookups();
    var cs := WebSearch.SearchWebContent(s, c.search, c.searchCallId);
    var ca := FootballData.ProcessFootballQuery(s, c.footballAgent, c.agentCallId);
    assert RunStep(WebSearchStep, s, c) == cs && RunStep(FootballDataStep, s, c) == ca;
    PairTasks(WorkflowGraph, "search_agent", "fotmob_agent", WebSearchStep, FootballDataStep, s, c);
    FanOutUpdates(cs, ca, si, ai);
    FanOutNext(cs, ca);
  }

  /** A superstep of two declared tasks. */
  lemma PairTasks(g: Graph, a: string, b: string, actA: StepAction, actB: StepAction, s: ConversationState, c: Collaborators)
    requires Lookup(g.nodes, a) == Some(actA) && Lookup(g.nodes, b) == Some(actB)
    ensures FirstUndeclared(g.nodes, [a, b]).None?
    ensures TaskCommands(g.nodes, [a, b], s, c) == [RunStep(actA, s, c), RunStep(actB, s, c)]
  {
    assert [a, b][1..] == [b] && [b][1..] == [];
  }

  lemma FanOutUpdates(cs: Command, ca: Command, si: ContextItem, ai: ContextItem)
    requires cs.update == ContextUpdate([si]) && ca.update == ContextUpdate([ai])
    ensures Updates([cs, ca]) == [ContextUpdate([si]), ContextUpdate([ai])]
    ensures RouteWrites(Updates([cs, ca])) == 0 && AnswerWrites(Updates([cs, ca])) == 0
  {
    var us := Updates([cs, ca]);
    assert us == [ContextUpdate([si]), ContextUpdate([ai])];
    assert us[1..] == [ContextUpdate([ai])] && us[1..][1..] == [];
    assert RouteWrites(us[1..][1..]) == 0 && AnswerWrites(us[1..][1..]) == 0;
    assert RouteWrites(us[1..]) == 0 && AnswerWrites(us[1..]) == 0;
  }

  lemma FanOutNext(cs: Command, ca: Command)
    requires cs.goto == GotoNode("conversational_agent") && ca.goto == GotoNode("conversational_agent")
    ensures Dedup(NextTargets(WorkflowGraph.edges, ["search_agent", "fotmob_agent"], [cs, ca])) == ["conversational_agent"]
  {
    var x := "conversational_agent";
    NextTargetsPair(WorkflowGraph.edges, "search_agent", "fotmob_agent", cs, ca);
    NoStaticNodeTargets("search_agent");
    NoStaticNodeTargets("fotmob_agent");
    assert [x] + [] + [x] + [] == [x, x];
    DedupRepeat(x);
  }

  /** Where control goes after two tasks. */
  lemma NextTargetsPair(edges: seq<Edge>, a: string, b: string, x: Command, y: Command)
    ensures NextTargets(edges, [a, b], [x, y])
         == GotoTargets(x.goto) + StaticTargets(edges, Node(a)) + GotoTargets(y.goto) + StaticTargets(edges, Node(b))
  {
    assert [a, b][1..] == [b] && [b][1..] == [];
    assert [x, y][1..] == [y] && [y][1..] == [];
    var tail := GotoTargets(y.goto) + StaticTargets(edges, Node(b));
    assert NextTargets(edges, [b], [y]) == tail + [];
    assert tail + [] == tail;
  }

  lemma DedupRepeat(x: string)
    ensures Dedup([x, x]) == [x]
  {
    assert [x, x][..1] == [x];
    DedupSingle(x);
  }

  /** Two supersteps that continue, the second to no task, finish the run on the second's state. */
  lemma {:induction false} TwoSupersteps(g: Graph, t0: seq<string>, s0: ConversationState, t1: seq<string>, s1: ConversationState, s2: ConversationState,
                      c: Collaborators, flip: bool, f: DecisionField, fuel: nat)
    requires fuel >= 2
    requires t0 != [] && FirstUndeclared(g.nodes, t0).None? && Validates(f, s0)
    requires t1 != [] && FirstUndeclared(g.nodes, t1).None? && Validates(f, s1)
    requires Superstep(g, t0, s0, c, flip) == Continue(t1, s1)
    requires Superstep(g, t1, s1, c, flip) == Continue([], s2)
    ensures Run(g, t0, s0, c, flip, f, fuel) == Finished(s2)
  {
    RunContinues(g, t0, s0, c, flip, f, fuel);
    RunContinues(g, t1, s1, c, flip, f, fuel - 1);
  }

  /** Three supersteps that continue, the third to no task, finish the run on the third's state. */
  lemma {:induction false} ThreeSupersteps(g: Graph, t0: seq<string>, s0: ConversationState, t1: seq<string>, s1: ConversationState,
                        t2: seq<string>, s2: ConversationState, s3: ConversationState,
                        c: Collaborators, flip: bool, f: DecisionField, fuel: nat)
    requires fuel >= 3
    requires t0 != [] && FirstUndeclared(g.nodes, t0).None? && Validates(f, s0)
    requires Superstep(g, t0, s0, c, flip) == Continue(t1, s1)
    requires t1 != [] && FirstUndeclared(g.nodes, t1).None? && Validates(f, s1)
    requires t2 != [] && FirstUndeclared(g.nodes, t2).None? && Validates(f, s2)
    requires Superstep(g, t1, s1, c, flip) == Continue(t2, s2)
    requires Superstep(g, t2, s2, c, flip) == Continue([], s3)
    ensures Run(g, t0, s0, c, flip, f, fuel) == Finished(s3)
  {
    RunContinues(g, t0, s0, c, flip, f, fuel);
    TwoSupersteps(g, t1, s1, t2, s2, s3, c, flip, f, fuel - 1);
  }

  /** A task that names no declared node stops the run there. */
  lemma UndeclaredTaskDangles(name: string, s: ConversationState, c: Collaborators, flip: bool, f: DecisionField, fuel: nat)
    requires name !in WorkflowNodeNames
    ensures Run(WorkflowGraph, [name], s, c, flip, f, fuel) == DanglingTarget(name, s)
  {
    FourDistinctNodes();
  }

  /**
   * A superstep that leads back to the same tasks, on a state the next superstep
   * leaves as it is, repeats until the supersteps run out.
   */
  lemma {:induction false} SelfLoop(g: Graph, tasks: seq<string>, s: ConversationState, t: ConversationState, c: Collaborators, flip: bool, f: DecisionField, fuel: nat)
    requires tasks != [] && FirstUndeclared(g.nodes, tasks).None? && Validates(f, s) && Validates(f, t)
    requires Superstep(g, tasks, s, c, flip) == Continue(tasks, t)
    requires Superstep(g, tasks, t, c, flip) == Continue(tasks, t)
    ensures Run(g, tasks, s, c, flip, f, fuel).RecursionLimit?
    decreases fuel
  {
    if fuel > 0 {
      SelfLoop(g, tasks, t, t, c, flip, f, fuel - 1);
      assert Run(g, tasks, s, c, flip, f, fuel) == Run(g, tasks, t, c, flip, f, fuel - 1);
    }
  }

  /** A superstep whose only next task names no node ends the run at that dangling target. */
  lemma ContinuesToDangling(g: Graph, tasks: seq<string>, s: ConversationState, name: string, t: ConversationState, c: Collaborators, flip: bool, f: DecisionField, fuel: nat)
    requires tasks != [] && FirstUndeclared(g.nodes, tasks).None? && fuel > 0 && Validates(f, s)
    requires Superstep(g, tasks, s, c, flip) == Continue([name], t)
    requires Lookup(g.nodes, name).None?
    ensures Run(g, tasks, s, c, flip, f, fuel) == DanglingTarget(name, t)
  {
  }

  /**
   * A superstep that leads to declared tasks on a state the schema rejects ends
   * the run there, when it is built as those tasks' input.
   */
  lemma ContinuesToInvalid(g: Graph, tasks: seq<string>, s: ConversationState, next: seq<string>, t: ConversationState, c: Collaborators, flip: bool, f: DecisionField, fuel: nat)
    requires tasks != [] && FirstUndeclared(g.nodes, tasks).None? && fuel >= 2 && Validates(f, s)
    requires Superstep(g, tasks, s, c, flip) == Continue(next, t)
    requires next != [] && FirstUndeclared(g.nodes, next).None? && !Validates(f, t)
    ensures Run(g, tasks, s, c, flip, f, fuel) == InvalidState(t)
  {
  }

  /** A single task naming one of the four declared nodes is declared. */
  lemma DeclaredSingle(name: string)
    requires name in WorkflowNodeNames
    ensures FirstUndeclared(WorkflowGraph.nodes, [name]).None?
  {
    FourDistinctNodes();
  }

  /** A name outside the four declared ones finds no node. */
  lemma UndeclaredLookup(name: string)
    requires name !in WorkflowNodeNames
    ensures Lookup(WorkflowGraph.nodes, name).None?
  {
    FourDistinctNodes();
  }
}
