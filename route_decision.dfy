/**
 * The closed set of routing decisions, a string-valued enumeration: each member
 * is also a Python `str` and compares equal to its value.
 */
module RouteDecision {
  import opened Wrappers

  datatype WorkflowRouteDecision = WebSearch | FootballData | CombinedApproach | DirectConversation

  /** The string each member stands for. */
  function Value(d: WorkflowRouteDecision): (s: string)
    ensures |s| > 0
  {
    match d
    case WebSearch => "search"
    case FootballData => "stats"
    case CombinedApproach => "both"
    case DirectConversation => "conversation"
  }

  /**
   * `WorkflowRouteDecision(s)`: the member whose value is `s`; `None` stands for the
   * `ValueError` raised for any other string.
   */
  function FromValue(s: string): (r: Option<WorkflowRouteDecision>)
    ensures r.Some? ==> Value(r.value) == s
  {
    if s == "search" then Some(WebSearch)
    else if s == "stats" then Some(FootballData)
    else if s == "both" then Some(CombinedApproach)
    else if s == "conversation" then Some(DirectConversation)
    else None
  }

  /** The members in declaration order. */
  const AllDecisions: seq<WorkflowRouteDecision> := [WebSearch, FootballData, CombinedApproach, DirectConversation]

  /** The enumeration is closed: exactly four members, each listed once. */
  lemma AllDecisionsClosed(d: WorkflowRouteDecision)
    ensures d in AllDecisions
    ensures |AllDecisions| == 4
    ensures forall i, j :: 0 <= i < j < |AllDecisions| ==> AllDecisions[i] != AllDecisions[j]
  {
  }

  /** The four values are pairwise distinct, so a value names one member. */
  lemma ValueInjective(d: WorkflowRouteDecision, e: WorkflowRouteDecision)
    ensures Value(d) == Value(e) ==> d == e
  {
  }

  /** Looking a member up by its value finds that member, and only values are found. */
  lemma FromValueExact(s: string, d: WorkflowRouteDecision)
    ensures FromValue(Value(d)) == Some(d)
    ensures FromValue(s) == Some(d) <==> Value(d) == s
  {
  }

  /** Because the enumeration subclasses `str`, its combined member equals the plain `"both"`. */
  lemma CombinedIsBoth()
    ensures Value(CombinedApproach) == "both"
    ensures FromValue("both") == Some(CombinedApproach)
  {
  }
}
