/**
 * The records of the Express server (shared/schema.ts): users, chat
 * sessions, voice interactions and the chat message format with its named
 * sections. Nullable columns are optional values; timestamps are clock
 * readings in milliseconds.
 */
module Schema {
  import opened Wrappers

  /** `users` row. */
  datatype User = User(id: string, username: string, password: string)

  /** `InsertUser`: a user without its id. */
  datatype InsertUser = InsertUser(username: string, password: string)

  /** `chatMessageSchema.role`. */
  datatype ChatRole = ChatUser | ChatAssistant

  /** `chatMessageSchema.sections[].type`. */
  datatype SectionType = ActiveListeningSection | StepASection | StepBSection | StepCSection | FeedbackSection

  /** One named part of an assistant message. */
  datatype Section = Section(sectionType: SectionType, content: string, audioUrl: Option<string>)

  /** `ChatMessage`. */
  datatype ChatMessage = ChatMessage(
    id: string,
    role: ChatRole,
    content: string,
    timestamp: string,
    isVoice: Option<bool>,
    audioUrl: Option<string>,
    transcription: Option<string>,
    sections: Option<seq<Section>>)

  /** `chat_sessions` row; `messages`, `createdAt` and `updatedAt` are nullable columns. */
  datatype ChatSession = ChatSession(
    id: string,
    userId: Option<string>,
    mode: string,
    messages: Option<seq<ChatMessage>>,
    createdAt: Option<int>,
    updatedAt: Option<int>)

  /** `voice_interactions` row. */
  datatype VoiceInteraction = VoiceInteraction(
    id: string,
    sessionId: string,
    audioUrl: Option<string>,
    transcription: Option<string>,
    language: Option<string>,
    createdAt: Option<int>)

  /** A voice interaction as supplied by a caller: without `id` and `createdAt`. */
  datatype NewVoiceInteraction = NewVoiceInteraction(
    sessionId: string,
    audioUrl: Option<string>,
    transcription: Option<string>,
    language: Option<string>)

  /** What the consultant service returns for a message. */
  datatype ConsultantResponse = ConsultantResponse(
    activeListening: string,
    stepA: string,
    stepB: string,
    stepC: string,
    feedback: string,
    nextActions: seq<string>)

  /** `session.messages || []`. */
  function MessagesOf(session: ChatSession): seq<ChatMessage> {
    if session.messages.Some? then session.messages.value else []
  }
}
