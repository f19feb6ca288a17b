/**
 * The football-data step: hands the question to the tool-calling agent and passes
 * the serialised result on as one tool message. The agent and the JSON
 * serialisation are one collaborator, `agent`, from the question to the
 * serialised payload; the generated `tool_call_id` is a parameter.
 */
module FootballData {
  import opened Wrappers
  import opened State
  import opened Commands

  /** `process_football_query`: the agent sees the question itself, with no prefix. */
  function ProcessFootballQuery(s: ConversationState, agent: string -> string, toolCallId: string): (cmd: Command)
    ensures cmd.goto == GotoNode("conversational_agent")
    ensures cmd.update.currentRouteDecision.None? && cmd.update.finalAnswer.None?
    ensures cmd.update.retrievedContext.Some? && |cmd.update.retrievedContext.value| == 1
    ensures var item := cmd.update.retrievedContext.value[0];
      item.role == "tool" && item.content == agent(s.userQuestion) && item.toolCallId == toolCallId
  {
    var item := ContextItem("tool", agent(s.userQuestion), toolCallId);
    Command(ContextUpdate([item]), GotoNode("conversational_agent"))
  }

  /** Merging the step's update into any state appends its one item and changes nothing else. */
  lemma FootballDataAppendsOneItem(s: ConversationState, t: ConversationState, agent: string -> string, toolCallId: string)
    ensures ApplyUpdate(t, ProcessFootballQuery(s, agent, toolCallId).update)
         == t.(retrievedContext := t.retrievedContext + [ContextItem("tool", agent(s.userQuestion), toolCallId)])
  {
  }
}
