/**
 * The value types that the backend, the frontend store and the shared type
 * declarations have in common: the three conversation modes and the
 * structured AI response.
 */
module Conversation {
  import opened Wrappers

  /** `ConversationMode`: the three personas. */
  datatype Mode = Guide | Socrates | Hard

  /** `ActiveListening`: the heuristic reading of the user's message. */
  datatype ActiveListening = ActiveListening(intent: string, emotion: string, constraints: seq<string>)

  /** `KnowledgeSteps`: baseline answer, optional search correction, final synthesis. */
  datatype KnowledgeSteps = KnowledgeSteps(stepA: string, stepB: Option<string>, stepC: string)

  /** `NextAction`: one quick-reply option (`label` is a Dafny keyword, hence `labelText`). */
  datatype NextAction = NextAction(id: string, labelText: string, description: string)

  /** `AIResponse`; the timestamp is a clock reading in milliseconds. */
  datatype AIResponse = AIResponse(
    id: string,
    activeListening: ActiveListening,
    knowledgeSteps: KnowledgeSteps,
    feedbackRequest: string,
    nextActions: seq<NextAction>,
    mode: Mode,
    timestamp: int)
}
