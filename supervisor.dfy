/**
 * The supervisor step: it normalises the classifier's reply, records it as the
 * route decision, and turns it into the next hop. `"both"` fans out to the two
 * retrieval nodes; any other decision is used as a node name exactly as it is,
 * with no check against the enumeration and no fallback route.
 */
module Supervisor {
  import opened Wrappers
  import opened PyStr
  import opened State
  import opened Commands
  import RouteDecision

  /** `content.strip().lower()`. */
  function NormaliseDecision(reply: string): (d: string)
    ensures |d| <= |reply|
  {
    Lower(Strip(reply))
  }

  /**
   * A normalised decision has no surrounding whitespace and no capital letter, so
   * normalising it again changes nothing.
   */
  lemma NormalisedDecisionIsCanonical(reply: string)
    ensures var d := NormaliseDecision(reply);
      && Trimmed(d)
      && (forall i :: 0 <= i < |d| ==> !IsAsciiUpper(d[i]))
      && NormaliseDecision(d) == d
  {
    var t := Strip(reply);
    var d := Lower(t);
    LowerKeepsSpaces(t);
    assert Trimmed(d);
    StripTrimmed(d);
    LowerIdempotent(t);
  }

  /** Surrounding whitespace and letter case do not change the decision. */
  lemma NormaliseIgnoresPaddingAndCase(a: string, token: string, b: string)
    requires AllSpace(a) && AllSpace(b) && Trimmed(token)
    ensures NormaliseDecision(a + token + b) == Lower(token)
    ensures NormaliseDecision(a + Lower(token) + b) == Lower(token)
  {
    StripPadded(a, token, b);
    LowerKeepsSpaces(token);
    StripPadded(a, Lower(token), b);
    LowerIdempotent(token);
  }

  /** For instance, `" BOTH\n"` routes like `"both"`. */
  lemma PaddedCapitalBoth()
    ensures NormaliseDecision(" BOTH\n") == "both"
  {
    BothPieces();
    NormaliseIgnoresPaddingAndCase(" ", "BOTH", "\n");
    LowerBOTH();
  }

  lemma BothPieces()
    ensures AllSpace(" ") && AllSpace("\n") && Trimmed("BOTH")
    ensures " " + "BOTH" + "\n" == " BOTH\n"
  {
    var a, token, b := " ", "BOTH", "\n";
    assert a[0] == ' ' && b[0] == '\n';
    assert token[0] == 'B' && token[3] == 'H';
    var whole := a + token + b;
    assert |whole| == 6;
    assert whole[0] == ' ' && whole[1] == 'B' && whole[2] == 'O' && whole[3] == 'T' && whole[4] == 'H' && whole[5] == '\n';
  }

  lemma LowerBOTH()
    ensures Lower("BOTH") == "both"
  {
    var l := Lower("BOTH");
    assert l[0] == 'b' && l[1] == 'o' && l[2] == 't' && l[3] == 'h';
  }

  /** The names the supervisor fans out to on `"both"`, in order. */
  const FanOutTargets: seq<string> := ["search_agent", "fotmob_agent"]

  /** The `Command` built from a normalised decision; the combined member compares equal to `"both"`. */
  function RoutingCommand(decision: string): (cmd: Command)
    ensures cmd.update == StateUpdate(Some(decision), None, None)
    ensures decision == "both" ==> cmd.goto == GotoNodes(FanOutTargets)
    ensures decision != "both" ==> cmd.goto == GotoNode(decision)
  {
    if decision == RouteDecision.Value(RouteDecision.CombinedApproach) then
      Command(StateUpdate(Some(decision), None, None), GotoNodes(FanOutTargets))
    else
      Command(StateUpdate(Some(decision), None, None), GotoNode(decision))
  }

  /**
   * Merging the supervisor's update sets the route decision and nothing else, and
   * the targets are the two retrieval nodes for `"both"` and the decision itself otherwise.
   */
  lemma RoutingUpdateSetsOnlyDecision(s: ConversationState, decision: string)
    ensures ApplyUpdate(s, RoutingCommand(decision).update) == s.(currentRouteDecision := Some(decision))
    ensures GotoTargets(RoutingCommand(decision).goto) == if decision == "both" then ["search_agent", "fotmob_agent"] else [decision]
  {
  }

  /**
   * The enumeration's other three values, `"search"`, `"stats"` and `"conversation"`,
   * are not turned into a route: each becomes a goto to a node of that name.
   */
  lemma EnumValuesPassThrough(d: RouteDecision.WorkflowRouteDecision)
    requires d != RouteDecision.CombinedApproach
    ensures RoutingCommand(RouteDecision.Value(d)).goto == GotoNode(RouteDecision.Value(d))
  {
  }

  /** The step as a function of the state and the classifier, which sees the question. */
  function RoutingStep(s: ConversationState, classify: string -> string): (cmd: Command)
    ensures cmd.update.currentRouteDecision == Some(NormaliseDecision(classify(s.userQuestion)))
    ensures cmd.update.retrievedContext.None? && cmd.update.finalAnswer.None?
  {
    RoutingCommand(NormaliseDecision(classify(s.userQuestion)))
  }

  /**
   * `determine_routing_decision`: writes the decision into the state object it was
   * handed, then returns the routing command.
   */
  method DetermineRoutingDecision(state: StateInstance, classify: string -> string) returns (cmd: Command)
    modifies state
    ensures state.value == old(state.value).(currentRouteDecision := Some(NormaliseDecision(classify(old(state.value).userQuestion))))
    ensures cmd == RoutingStep(old(state.value), classify)
  {
    var decision := NormaliseDecision(classify(state.value.userQuestion));
    state.value := state.value.(currentRouteDecision := Some(decision));
    cmd := RoutingCommand(decision);
  }
}
