/**
 * The web-search step: searches for the question with a football prefix and
 * hands the serialised result on as one tool message. The search provider and
 * the JSON serialisation are one collaborator, `search`, from the query to the
 * serialised payload; the generated `tool_call_id` is a parameter.
 */
module WebSearch {
  import opened Wrappers
  import opened State
  import opened Commands

  const QueryPrefix: string := "football soccer "

  /** The query sent to the search provider: the prefix, then the question unchanged. */
  function FootballQuery(question: string): (q: string)
    ensures |q| == |QueryPrefix| + |question|
    ensures q[..|QueryPrefix|] == QueryPrefix && q[|QueryPrefix|..] == question
  {
    QueryPrefix + question
  }

  /** Distinct questions give distinct queries: the question can be read back from the query. */
  lemma FootballQueryInjective(a: string, b: string)
    ensures FootballQuery(a) == FootballQuery(b) ==> a == b
  {
    if FootballQuery(a) == FootballQuery(b) {
      assert a == FootballQuery(a)[|QueryPrefix|..];
    }
  }

  /** `search_web_content`. */
  function SearchWebContent(s: ConversationState, search: string -> string, toolCallId: string): (cmd: Command)
    ensures cmd.goto == GotoNode("conversational_agent")
    ensures cmd.update.currentRouteDecision.None? && cmd.update.finalAnswer.None?
    ensures cmd.update.retrievedContext.Some? && |cmd.update.retrievedContext.value| == 1
    ensures var item := cmd.update.retrievedContext.value[0];
      item.role == "tool" && item.content == search(FootballQuery(s.userQuestion)) && item.toolCallId == toolCallId
  {
    var item := ContextItem("tool", search(FootballQuery(s.userQuestion)), toolCallId);
    Command(ContextUpdate([item]), GotoNode("conversational_agent"))
  }

  /** Merging the step's update into any state appends its one item and changes nothing else. */
  lemma SearchAppendsOneItem(s: ConversationState, t: ConversationState, search: string -> string, toolCallId: string)
    ensures ApplyUpdate(t, SearchWebContent(s, search, toolCallId).update)
         == t.(retrievedContext := t.retrievedContext + [ContextItem("tool", search(FootballQuery(s.userQuestion)), toolCallId)])
  {
  }
}
