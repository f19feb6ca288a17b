/**
 * End-to-end runs of the declared graph, one per kind of supervisor decision.
 *
 * As declared, the state's decision field is the route-decision enumeration, while
 * the supervisor writes the routing prompt's tokens into it: the next node's input
 * then fails validation for every node name, and only `"both"`, which is also an
 * enumeration value, reaches END. With the field typed as text, exactly the four
 * tokens the routing prompt offers reach END with a final answer; `"supervisor"`
 * re-enters the supervisor until the recursion limit; every other token, the
 * enumeration's own values among them, names no node.
 */
module WorkflowRuns {
  import opened Wrappers
  import opened State
  import opened GraphBuilder
  import opened Workflow
  import ConversationResponse
  import RouteDecision

  /** The tokens whose runs reach END. */
  const FinishingTokens: seq<string> := ["conversational_agent", "search_agent", "fotmob_agent", "both"]

  function Prompt(question: string, context: seq<ContextItem>): ConversationResponse.ResponsePrompt
  {
    ConversationResponse.ResponsePrompt(question, context)
  }

  lemma EntryIsSupervisor()
    ensures StaticTargets(WorkflowGraph.edges, Start) == ["supervisor"]
  {
    WorkflowEdgesShape();
  }

  /**
   * With the decision field typed as text, `"conversational_agent"`: no context is
   * gathered, and the generator answers from none.
   */
  lemma {:induction false} ConversationRun(q: string, c: Collaborators, flip: bool, fuel: nat)
    requires Decision(q, c) == "conversational_agent" && fuel >= 2
    ensures ExecuteWorkflowCorrected(q, c, flip, fuel)
         == Finished(ConversationState(q, Some("conversational_agent"), [], Some(c.generate(Prompt(q, [])))))
  {
    var g := WorkflowGraph;
    var s0 := Initial(q);
    var s1 := s0.(currentRouteDecision := Some("conversational_agent"));
    var s2 := s1.(finalAnswer := Some(c.generate(Prompt(q, s1.retrievedContext))));
    EntryIsSupervisor();
    SupervisorSuperstep(s0, c, flip);
    ResponseSuperstep(s1, c, flip);
    TwoSupersteps(g, ["supervisor"], s0, ["conversational_agent"], s1, s2, c, flip, TextField, fuel);
  }

  /** Typed as text, `"search_agent"`: exactly the search item is gathered, and the answer is generated from it. */
  lemma {:induction false} SearchRun(q: string, c: Collaborators, flip: bool, fuel: nat)
    requires Decision(q, c) == "search_agent" && fuel >= 3
    ensures var ctx := [SearchItem(q, c)];
      ExecuteWorkflowCorrected(q, c, flip, fuel)
      == Finished(ConversationState(q, Some("search_agent"), ctx, Some(c.generate(Prompt(q, ctx)))))
  {
    var g := WorkflowGraph;
    var s0 := Initial(q);
    var s1 := s0.(currentRouteDecision := Some("search_agent"));
    var s2 := s1.(retrievedContext := s1.retrievedContext + [SearchItem(q, c)]);
    var s3 := s2.(finalAnswer := Some(c.generate(Prompt(q, s2.retrievedContext))));
    EntryIsSupervisor();
    SupervisorSuperstep(s0, c, flip);
    SearchSuperstep(s1, c, flip);
    ResponseSuperstep(s2, c, flip);
    ThreeSupersteps(g, ["supervisor"], s0, ["search_agent"], s1, ["conversational_agent"], s2, s3, c, flip, TextField, fuel);
    assert [] + [SearchItem(q, c)] == [SearchItem(q, c)];
  }

  /** Typed as text, `"fotmob_agent"`: exactly the football-data item is gathered, and the answer is generated from it. */
  lemma {:induction false} FootballRun(q: string, c: Collaborators, flip: bool, fuel: nat)
    requires Decision(q, c) == "fotmob_agent" && fuel >= 3
    ensures var ctx := [AgentItem(q, c)];
      ExecuteWorkflowCorrected(q, c, flip, fuel)
      == Finished(ConversationState(q, Some("fotmob_agent"), ctx, Some(c.generate(Prompt(q, ctx)))))
  {
    var g := WorkflowGraph;
    var s0 := Initial(q);
    var s1 := s0.(currentRouteDecision := Some("fotmob_agent"));
    var s2 := s1.(retrievedContext := s1.retrievedContext + [AgentItem(q, c)]);
    var s3 := s2.(finalAnswer := Some(c.generate(Prompt(q, s2.retrievedContext))));
    EntryIsSupervisor();
    SupervisorSuperstep(s0, c, flip);
    FootballSuperstep(s1, c, flip);
    ResponseSuperstep(s2, c, flip);
    ThreeSupersteps(g, ["supervisor"], s0, ["fotmob_agent"], s1, ["conversational_agent"], s2, s3, c, flip, TextField, fuel);
    assert [] + [AgentItem(q, c)] == [AgentItem(q, c)];
  }

  /**
   * `"both"`, however the decision field is typed (it is also the enumeration's
   * combined value): both retrieval steps contribute their item, whichever completes
   * first, the response step runs once, and its answer is generated from both items.
   */
  lemma {:induction false} BothRun(q: string, c: Collaborators, flip: bool, f: DecisionField, fuel: nat)
    requires Decision(q, c) == "both" && fuel >= 3
    ensures Execute(f, q, c, flip, fuel).Finished?
    ensures var r := Execute(f, q, c, flip, fuel).state;
      && r.userQuestion == q
      && r.currentRouteDecision == Some("both")
      && r.retrievedContext == (if flip then [AgentItem(q, c), SearchItem(q, c)] else [SearchItem(q, c), AgentItem(q, c)])
      && multiset(r.retrievedContext) == multiset{SearchItem(q, c), AgentItem(q, c)}
      && r.finalAnswer == Some(c.generate(Prompt(q, r.retrievedContext)))
  {
    var si, ai := SearchItem(q, c), AgentItem(q, c);
    var ctx := if flip then [ai, si] else [si, ai];
    BothRunState(q, c, flip, f, fuel);
    assert multiset(ctx) == multiset{si, ai};
  }

  /** The final state of a `"both"` run, field by field. */
  lemma {:induction false} BothRunState(q: string, c: Collaborators, flip: bool, f: DecisionField, fuel: nat)
    requires Decision(q, c) == "both" && fuel >= 3
    ensures var ctx := if flip then [AgentItem(q, c), SearchItem(q, c)] else [SearchItem(q, c), AgentItem(q, c)];
      Execute(f, q, c, flip, fuel) == Finished(ConversationState(q, Some("both"), ctx, Some(c.generate(Prompt(q, ctx)))))
  {
    var g := WorkflowGraph;
    var si, ai := SearchItem(q, c), AgentItem(q, c);
    var ctx := if flip then [ai, si] else [si, ai];
    var s0 := Initial(q);
    var s1 := s0.(currentRouteDecision := Some("both"));
    var s2 := s1.(retrievedContext := s1.retrievedContext + ctx);
    var s3 := s2.(finalAnswer := Some(c.generate(Prompt(q, s2.retrievedContext))));
    EntryIsSupervisor();
    BothValidates(f, s1);
    BothValidates(f, s2);
    SupervisorSuperstep(s0, c, flip);
    FanOutSuperstep(s1, c, flip);
    ResponseSuperstep(s2, c, flip);
    ThreeSupersteps(g, ["supervisor"], s0, ["search_agent", "fotmob_agent"], s1, ["conversational_agent"], s2, s3, c, flip, f, fuel);
    assert [] + ctx == ctx;
  }

  /** A state recording `"both"` passes validation either way the field is typed. */
  lemma BothValidates(f: DecisionField, s: ConversationState)
    requires s.currentRouteDecision == Some("both")
    ensures Validates(f, s)
  {
    RouteDecision.CombinedIsBoth();
  }

  /**
   * Typed as text, `"supervisor"` is a declared node: the supervisor sends control
   * back to itself, and for a classifier that keeps answering so the run never finishes.
   */
  lemma {:induction false} SupervisorLoops(s: ConversationState, c: Collaborators, flip: bool, fuel: nat)
    requires Decision(s.userQuestion, c) == "supervisor"
    ensures Run(WorkflowGraph, ["supervisor"], s, c, flip, TextField, fuel).RecursionLimit?
  {
    var t := s.(currentRouteDecision := Some("supervisor"));
    SupervisorSuperstep(s, c, flip);
    SupervisorSuperstep(t, c, flip);
    assert t.(currentRouteDecision := Some("supervisor")) == t;
    SelfLoop(WorkflowGraph, ["supervisor"], s, t, c, flip, TextField, fuel);
  }

  lemma {:induction false} SupervisorRun(q: string, c: Collaborators, flip: bool, fuel: nat)
    requires Decision(q, c) == "supervisor"
    ensures ExecuteWorkflowCorrected(q, c, flip, fuel).RecursionLimit?
  {
    EntryIsSupervisor();
    SupervisorLoops(Initial(q), c, flip, fuel);
  }

  /**
   * Any other token, however the decision field is typed, is used as a goto target
   * verbatim and names no node: the run stops at that dangling target, with the
   * token recorded as the decision.
   */
  lemma {:induction false} UnknownTokenRun(q: string, c: Collaborators, flip: bool, f: DecisionField, fuel: nat)
    requires Decision(q, c) !in WorkflowNodeNames && Decision(q, c) != "both" && fuel >= 1
    ensures Execute(f, q, c, flip, fuel)
         == DanglingTarget(Decision(q, c), Initial(q).(currentRouteDecision := Some(Decision(q, c))))
  {
    var d := Decision(q, c);
    EntryIsSupervisor();
    SupervisorSuperstep(Initial(q), c, flip);
    UndeclaredLookup(d);
    ContinuesToDangling(WorkflowGraph, ["supervisor"], Initial(q), d, Initial(q).(currentRouteDecision := Some(d)), c, flip, f, fuel);
  }

  /** No value of the route-decision enumeration is the name of a node. */
  lemma EnumValuesAreNotNodes(e: RouteDecision.WorkflowRouteDecision)
    ensures RouteDecision.Value(e) !in WorkflowNodeNames
  {
  }

  /**
   * The enumeration's values other than `"both"` are not translated into routes: a
   * classifier answering `"search"`, `"stats"` or `"conversation"` leaves a dangling target.
   */
  lemma {:induction false} EnumValueRunDangles(q: string, c: Collaborators, flip: bool, fuel: nat, e: RouteDecision.WorkflowRouteDecision)
    requires e != RouteDecision.CombinedApproach
    requires Decision(q, c) == RouteDecision.Value(e) && fuel >= 1
    ensures ExecuteWorkflow(q, c, flip, fuel).DanglingTarget?
    ensures ExecuteWorkflow(q, c, flip, fuel).name == RouteDecision.Value(e)
  {
    EnumValuesAreNotNodes(e);
    UnknownTokenRun(q, c, flip, EnumField, fuel);
  }

  /** No node name is a value of the route-decision enumeration. */
  lemma NodeNamesAreNotValues(d: string)
    requires d in WorkflowNodeNames
    ensures RouteDecision.FromValue(d).None?
  {
  }

  /**
   * As declared, a token naming a node is written into the enumeration-typed field:
   * the supervisor's own superstep completes, and the state built as the next node's
   * input fails validation.
   */
  lemma {:induction false} NodeTokenRejected(q: string, c: Collaborators, flip: bool, fuel: nat)
    requires Decision(q, c) in WorkflowNodeNames && fuel >= 2
    ensures ExecuteWorkflow(q, c, flip, fuel)
         == InvalidState(Initial(q).(currentRouteDecision := Some(Decision(q, c))))
  {
    var d := Decision(q, c);
    var t := Initial(q).(currentRouteDecision := Some(d));
    EntryIsSupervisor();
    SupervisorSuperstep(Initial(q), c, flip);
    DeclaredSingle(d);
    NodeNamesAreNotValues(d);
    ContinuesToInvalid(WorkflowGraph, ["supervisor"], Initial(q), [d], t, c, flip, EnumField, fuel);
  }

  /**
   * As declared, with enough supersteps a run finishes exactly when the decision is
   * `"both"`, and then carries a final answer.
   */
  lemma {:induction false} FinishesOnlyOnBoth(q: string, c: Collaborators, flip: bool, fuel: nat)
    requires fuel >= 3
    ensures ExecuteWorkflow(q, c, flip, fuel).Finished? <==> Decision(q, c) == "both"
    ensures ExecuteWorkflow(q, c, flip, fuel).Finished? ==> ExecuteWorkflow(q, c, flip, fuel).state.finalAnswer.Some?
  {
    var d := Decision(q, c);
    if d == "both" {
      BothRun(q, c, flip, EnumField, fuel);
    } else if d in WorkflowNodeNames {
      NodeTokenRejected(q, c, flip, fuel);
    } else {
      UnknownTokenRun(q, c, flip, EnumField, fuel);
    }
  }

  /**
   * Typed as text, with enough supersteps a run finishes exactly when the decision
   * is one of the four finishing tokens, and a finished run always carries a final answer.
   */
  lemma {:induction false} FinishesExactlyOnFinishingTokens(q: string, c: Collaborators, flip: bool, fuel: nat)
    requires fuel >= 3
    ensures ExecuteWorkflowCorrected(q, c, flip, fuel).Finished? <==> Decision(q, c) in FinishingTokens
    ensures ExecuteWorkflowCorrected(q, c, flip, fuel).Finished? ==> ExecuteWorkflowCorrected(q, c, flip, fuel).state.finalAnswer.Some?
  {
    var d := Decision(q, c);
    if d in FinishingTokens {
      FinishingTokenRun(q, c, flip, fuel);
    } else {
      OtherTokenRun(q, c, flip, fuel);
    }
  }

  lemma {:induction false} FinishingTokenRun(q: string, c: Collaborators, flip: bool, fuel: nat)
    requires fuel >= 3 && Decision(q, c) in FinishingTokens
    ensures ExecuteWorkflowCorrected(q, c, flip, fuel).Finished?
    ensures ExecuteWorkflowCorrected(q, c, flip, fuel).state.finalAnswer.Some?
  {
    var d := Decision(q, c);
    if d == "conversational_agent" {
      ConversationRun(q, c, flip, fuel);
    } else if d == "search_agent" {
      SearchRun(q, c, flip, fuel);
    } else if d == "fotmob_agent" {
      FootballRun(q, c, flip, fuel);
    } else {
      BothRun(q, c, flip, TextField, fuel);
    }
  }

  lemma {:induction false} OtherTokenRun(q: string, c: Collaborators, flip: bool, fuel: nat)
    requires fuel >= 1 && Decision(q, c) !in FinishingTokens
    ensures !ExecuteWorkflowCorrected(q, c, flip, fuel).Finished?
  {
    var d := Decision(q, c);
    if d == "supervisor" {
      SupervisorRun(q, c, flip, fuel);
    } else {
      assert d !in WorkflowNodeNames && d != "both";
      UnknownTokenRun(q, c, flip, TextField, fuel);
    }
  }
}
