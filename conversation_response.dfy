/**
 * The terminal step: formats the question and the whole retrieved context into the
 * response prompt and returns what the generator answers as `final_answer`. The
 * instruction to reply "not relevant" on empty context is part of the prompt text
 * only: the generator is called in every case.
 */
module ConversationResponse {
  import opened Wrappers
  import opened State
  import opened Commands

  /** The two template variables of the response prompt; the wording around them is opaque. */
  datatype ResponsePrompt = ResponsePrompt(userQuestion: string, contextData: seq<ContextItem>)

  /** The reply the prompt asks for when there is no context. */
  const NotRelevantReply: string := "This question is not relevant to the system."

  /** `generate_response`: only `final_answer` is updated, and there is no goto. */
  function GenerateResponse(s: ConversationState, generate: ResponsePrompt -> string): (cmd: Command)
    ensures cmd.goto == NoGoto
    ensures cmd.update.currentRouteDecision.None? && cmd.update.retrievedContext.None?
    ensures cmd.update.finalAnswer == Some(generate(ResponsePrompt(s.userQuestion, s.retrievedContext)))
  {
    Command(StateUpdate(None, None, Some(generate(ResponsePrompt(s.userQuestion, s.retrievedContext)))), NoGoto)
  }

  /** Merging the step's update sets the final answer and leaves the other fields alone. */
  lemma ResponseSetsOnlyAnswer(s: ConversationState, generate: ResponsePrompt -> string)
    ensures ApplyUpdate(s, GenerateResponse(s, generate).update)
         == s.(finalAnswer := Some(generate(ResponsePrompt(s.userQuestion, s.retrievedContext))))
  {
  }

  /**
   * Even with an empty context the answer is whatever the generator returns, not a
   * fixed reply: two generators that differ on the prompt give different answers, and
   * a generator that does not return the prompt's not-relevant reply is not overridden by it.
   */
  lemma EmptyContextStillAsksGenerator(s: ConversationState, g1: ResponsePrompt -> string, g2: ResponsePrompt -> string)
    requires s.retrievedContext == []
    requires g1(ResponsePrompt(s.userQuestion, [])) != g2(ResponsePrompt(s.userQuestion, []))
    ensures GenerateResponse(s, g1).update.finalAnswer != GenerateResponse(s, g2).update.finalAnswer
    ensures g1(ResponsePrompt(s.userQuestion, [])) != NotRelevantReply
            ==> GenerateResponse(s, g1).update.finalAnswer != Some(NotRelevantReply)
  {
  }
}
