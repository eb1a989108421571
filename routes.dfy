/**
 * The session and message bookkeeping of the Express routes
 * (server/routes.ts): `POST /api/sessions`, `GET /api/sessions/:id`,
 * `POST /api/chat`, `POST /api/voice/chat` and `DELETE /api/sessions/:id`.
 * The consultant and the voice pipeline are function parameters (`None`
 * when they throw); fresh ids, the clock and the ISO time stamp are
 * parameters.
 */
module Routes {
  import opened Wrappers
  import opened Schema
  import opened Storage

  /** The JSON replies of the handlers. */
  datatype Reply =
    | SessionReply(session: ChatSession)
    | ChatAnswer(sessionId: string, response: ConsultantResponse, message: ChatMessage, nextActions: seq<string>)
    | VoiceAnswer(transcription: string, response: ConsultantResponse, nextActions: seq<string>,
                  sessionId: string, userMessage: ChatMessage, aiMessage: ChatMessage)
    | DeleteReply(success: bool)
    | ErrorReply(status: int, error: string)

  /** The HTTP status of a reply. */
  function Status(r: Reply): int {
    if r.ErrorReply? then r.status else 200
  }

  // The error texts of the replies.
  const SessionNotFound: string := "Session not found"
  const ChatFailed: string := "Failed to process chat message"
  const MissingVoiceInput: string := "Missing sessionId or audioData"
  const VoiceChatFailed: string := "Failed to process voice chat"

  // ---- messages -----------------------------------------------------------

  /** The user message of a chat turn; a voice turn also keeps the text as its transcription. */
  function UserMessage(id: string, message: string, stamp: string, isVoice: bool): (m: ChatMessage)
    ensures m.role == ChatUser && m.content == message && m.isVoice == Some(isVoice)
    ensures m.transcription.Some? <==> isVoice
    ensures isVoice ==> m.transcription == Some(message)
    ensures m.sections.None? && m.audioUrl.None?
  {
    ChatMessage(id, ChatUser, message, stamp, Some(isVoice), None, if isVoice then Some(message) else None, None)
  }

  /** The order of the sections of an assistant message. */
  function SectionOrder(): seq<SectionType> {
    [ActiveListeningSection, StepASection, StepBSection, StepCSection, FeedbackSection]
  }

  /** The part of a consultant response that a section type shows. */
  function Part(response: ConsultantResponse, t: SectionType): string {
    match t
    case ActiveListeningSection => response.activeListening
    case StepASection => response.stepA
    case StepBSection => response.stepB
    case StepCSection => response.stepC
    case FeedbackSection => response.feedback
  }

  /** The five sections of an assistant message. */
  function Sections(response: ConsultantResponse): seq<Section> {
    [ Section(ActiveListeningSection, response.activeListening, None),
      Section(StepASection, response.stepA, None),
      Section(StepBSection, response.stepB, None),
      Section(StepCSection, response.stepC, None),
      Section(FeedbackSection, response.feedback, None) ]
  }

  /** The assistant message of a chat turn: the active-listening text plus its sections. */
  function AssistantMessage(id: string, response: ConsultantResponse, stamp: string): ChatMessage {
    ChatMessage(id, ChatAssistant, response.activeListening, stamp, None, None, None, Some(Sections(response)))
  }

  /**
   * An assistant message shows its active-listening text and has one section
   * per type, in the fixed order, each holding that part of the response.
   */
  lemma AssistantMessageShape(id: string, response: ConsultantResponse, stamp: string)
    ensures var m := AssistantMessage(id, response, stamp);
            && m.role == ChatAssistant && m.content == response.activeListening
            && m.sections.Some? && |m.sections.value| == |SectionOrder()|
            && (forall i :: 0 <= i < |SectionOrder()| ==>
                  m.sections.value[i].sectionType == SectionOrder()[i]
                  && m.sections.value[i].content == Part(response, SectionOrder()[i]))
  {
  }

  /** Every section type occurs exactly once in an assistant message. */
  lemma SectionTypesOnce(response: ConsultantResponse, t: SectionType)
    ensures exists i :: 0 <= i < |Sections(response)| && Sections(response)[i].sectionType == t
    ensures forall i, j :: 0 <= i < j < |Sections(response)| ==> Sections(response)[i].sectionType != Sections(response)[j].sectionType
  {
    var s := Sections(response);
    match t
    case ActiveListeningSection => assert s[0].sectionType == t;
    case StepASection => assert s[1].sectionType == t;
    case StepBSection => assert s[2].sectionType == t;
    case StepCSection => assert s[3].sectionType == t;
    case FeedbackSection => assert s[4].sectionType == t;
  }

  // ---- request parsing ----------------------------------------------------

  /** A `/api/chat` body as it arrives; absent fields are `None`. */
  datatype RawChatBody = RawChatBody(sessionId: Option<string>, message: Option<string>, mode: Option<string>, isVoice: Option<bool>)

  /** A body accepted by `chatRequestSchema`. */
  datatype ChatBody = ChatBody(sessionId: Option<string>, message: string, mode: string, isVoice: bool)

  /** The consultant modes `consultantModeSchema` accepts. */
  predicate IsConsultantMode(mode: string) {
    mode == "guide" || mode == "socrates" || mode == "hard"
  }

  /** `chatRequestSchema.parse` with `isVoice = false` as default. */
  function ParseChatBody(raw: RawChatBody): (r: Option<ChatBody>)
    ensures r.Some? <==> raw.message.Some? && raw.mode.Some? && IsConsultantMode(raw.mode.value)
    ensures r.Some? ==> && r.value.message == raw.message.value && r.value.mode == raw.mode.value
                        && r.value.sessionId == raw.sessionId
                        && r.value.isVoice == (raw.isVoice.Some? && raw.isVoice.value)
  {
    if raw.message.Some? && raw.mode.Some? && IsConsultantMode(raw.mode.value) then
      Some(ChatBody(raw.sessionId, raw.message.value, raw.mode.value, if raw.isVoice.Some? then raw.isVoice.value else false))
    else None
  }

  /** The voice pipeline's result: the transcription and the consultant response. */
  datatype VoiceChatResult = VoiceChatResult(transcription: string, response: ConsultantResponse)

  // ---- handlers -----------------------------------------------------------

  /** `POST /api/sessions`: a new session with the given mode, `guide` when none is given. */
  method CreateSessionRoute(store: MemStorage, mode: Option<string>, freshId: string, now: int) returns (reply: Reply)
    requires store.Valid() && freshId !in store.chatSessions
    modifies store
    ensures store.Valid()
    ensures reply == SessionReply(ChatSession(freshId, None, if mode.Some? then mode.value else "guide", Some([]), Some(now), Some(now)))
    ensures store.chatSessions == old(store.chatSessions)[freshId := reply.session]
    ensures store.voiceInteractions == old(store.voiceInteractions) && store.users == old(store.users)
  {
    var m := if mode.Some? then mode.value else "guide";
    var session := store.CreateChatSession(m, None, freshId, now);
    reply := SessionReply(session);
  }

  /** `GET /api/sessions/:id`: the stored session, or 404. */
  method GetSessionRoute(store: MemStorage, id: string) returns (reply: Reply)
    ensures id in store.chatSessions ==> reply == SessionReply(store.chatSessions[id])
    ensures id !in store.chatSessions ==> reply == ErrorReply(404, SessionNotFound)
  {
    var session := store.GetChatSession(id);
    if session.None? {
      return ErrorReply(404, SessionNotFound);
    }
    reply := SessionReply(session.value);
  }

  /**
   * `POST /api/chat`. A truthy but unknown session id is a 404 and changes
   * nothing; without one a session is created with the request's mode. The
   * consultant sees the history with the new user message; when it answers,
   * the session's messages become the previous ones plus the user message
   * and the assistant message, in that order.
   */
  method ChatRoute(store: MemStorage, raw: RawChatBody,
                   consult: (string, string, seq<ChatMessage>) -> Option<ConsultantResponse>,
                   freshSessionId: string, userMessageId: string, aiMessageId: string, now: int, stamp: string)
      returns (reply: Reply)
    requires store.Valid() && freshSessionId !in store.chatSessions
    modifies store
    ensures store.Valid()
    ensures store.voiceInteractions == old(store.voiceInteractions) && store.users == old(store.users)
    ensures ParseChatBody(raw).None? ==> reply == ErrorReply(500, ChatFailed) && store.chatSessions == old(store.chatSessions)
    ensures ParseChatBody(raw).Some? && Truthy(raw.sessionId) && raw.sessionId.value !in old(store.chatSessions) ==>
              reply == ErrorReply(404, SessionNotFound) && store.chatSessions == old(store.chatSessions)
    ensures ParseChatBody(raw).Some? && (!Truthy(raw.sessionId) || raw.sessionId.value in old(store.chatSessions)) ==>
              var body := ParseChatBody(raw).value;
              var session := if Truthy(raw.sessionId) then old(store.chatSessions)[raw.sessionId.value]
                             else ChatSession(freshSessionId, None, body.mode, Some([]), Some(now), Some(now));
              var history := MessagesOf(session) + [UserMessage(userMessageId, body.message, stamp, body.isVoice)];
              var answer := consult(body.message, body.mode, history);
              var created := if Truthy(raw.sessionId) then old(store.chatSessions)
                             else old(store.chatSessions)[freshSessionId := session];
              && (answer.None? ==> reply == ErrorReply(500, ChatFailed) && store.chatSessions == created)
              && (answer.Some? ==>
                    && reply == ChatAnswer(session.id, answer.value, AssistantMessage(aiMessageId, answer.value, stamp), answer.value.nextActions)
                    && store.chatSessions == created[session.id := session.(
                         messages := Some(history + [AssistantMessage(aiMessageId, answer.value, stamp)]),
                         updatedAt := Some(now))])
  {
    var parsed := ParseChatBody(raw);
    if parsed.None? {
      return ErrorReply(500, ChatFailed);
    }
    var body := parsed.value;
    var session: ChatSession;
    if Truthy(body.sessionId) {
      var found := store.GetChatSession(body.sessionId.value);
      if found.None? {
        return ErrorReply(404, SessionNotFound);
      }
      session := found.value;
    } else {
      session := store.CreateChatSession(body.mode, None, freshSessionId, now);
    }
    var userMessage := UserMessage(userMessageId, body.message, stamp, body.isVoice);
    var updatedMessages := MessagesOf(session) + [userMessage];
    var answer := consult(body.message, body.mode, updatedMessages);
    if answer.None? {
      return ErrorReply(500, ChatFailed);
    }
    var aiMessage := AssistantMessage(aiMessageId, answer.value, stamp);
    var finalMessages := updatedMessages + [aiMessage];
    var _ := store.UpdateChatSession(session.id, finalMessages, now);
    reply := ChatAnswer(session.id, answer.value, aiMessage, answer.value.nextActions);
  }

  /**
   * `POST /api/voice/chat`. Without a truthy session id and audio it is a
   * 400. After the voice pipeline answers, a missing session is created
   * under a fresh id, but the messages are written under the requested id,
   * so for a missing session that write finds nothing and is dropped.
   * The voice pipeline is the `process` parameter. Its own write through
   * `createVoiceInteraction` (server/services/voice-service.ts) is not part
   * of this model, so the clause that leaves `voiceInteractions` unchanged
   * describes the model only, not the program.
   */
  method VoiceChatRoute(store: MemStorage, sessionId: Option<string>, audioData: Option<string>, mode: Option<string>,
                        process: (string, string, string) -> Option<VoiceChatResult>,
                        freshSessionId: string, userMessageId: string, aiMessageId: string, now: int, stamp: string)
      returns (reply: Reply)
    requires store.Valid() && freshSessionId !in store.chatSessions && sessionId != Some(freshSessionId)
    modifies store
    ensures store.Valid()
    ensures store.voiceInteractions == old(store.voiceInteractions) && store.users == old(store.users)
    ensures !Truthy(sessionId) || !Truthy(audioData) ==>
              reply == ErrorReply(400, MissingVoiceInput) && store.chatSessions == old(store.chatSessions)
    ensures Truthy(sessionId) && Truthy(audioData) ==>
              var m := if mode.Some? then mode.value else "guide";
              var result := process(sessionId.value, audioData.value, m);
              && (result.None? ==> reply == ErrorReply(500, VoiceChatFailed) && store.chatSessions == old(store.chatSessions))
              && (result.Some? ==>
                    var userMessage := ChatMessage(userMessageId, ChatUser, result.value.transcription, stamp, Some(true), None,
                                                   Some(result.value.transcription), None);
                    var aiMessage := AssistantMessage(aiMessageId, result.value.response, stamp);
                    && reply == VoiceAnswer(result.value.transcription, result.value.response, result.value.response.nextActions,
                                            sessionId.value, userMessage, aiMessage)
                    && (sessionId.value in old(store.chatSessions) ==>
                          var session := old(store.chatSessions)[sessionId.value];
                          store.chatSessions == old(store.chatSessions)[sessionId.value := session.(
                            messages := Some(MessagesOf(session) + [userMessage, aiMessage]), updatedAt := Some(now))])
                    && (sessionId.value !in old(store.chatSessions) ==>
                          store.chatSessions == old(store.chatSessions)[freshSessionId := ChatSession(freshSessionId, None, m, Some([]), Some(now), Some(now))]))
  {
    if !Truthy(sessionId) || !Truthy(audioData) {
      return ErrorReply(400, MissingVoiceInput);
    }
    var m := if mode.Some? then mode.value else "guide";
    var result := process(sessionId.value, audioData.value, m);
    if result.None? {
      return ErrorReply(500, VoiceChatFailed);
    }
    var found := store.GetChatSession(sessionId.value);
    var session: ChatSession;
    if found.Some? {
      session := found.value;
    } else {
      session := store.CreateChatSession(m, None, freshSessionId, now);
    }
    var transcription := result.value.transcription;
    var userMessage := ChatMessage(userMessageId, ChatUser, transcription, stamp, Some(true), None, Some(transcription), None);
    var aiMessage := AssistantMessage(aiMessageId, result.value.response, stamp);
    var updatedMessages := MessagesOf(session) + [userMessage, aiMessage];
    var _ := store.UpdateChatSession(sessionId.value, updatedMessages, now);
    reply := VoiceAnswer(transcription, result.value.response, result.value.response.nextActions, sessionId.value, userMessage, aiMessage);
  }

  /**
   * For a voice chat on a session that does not exist, the reply names the
   * requested id, yet the requested id stays unknown and the session that
   * was created keeps no messages.
   */
  method VoiceChatOnMissingSession(store: MemStorage, sessionId: string, audioData: string, mode: Option<string>,
                                   process: (string, string, string) -> Option<VoiceChatResult>,
                                   freshSessionId: string, userMessageId: string, aiMessageId: string, now: int, stamp: string)
      returns (reply: Reply)
    requires store.Valid() && freshSessionId !in store.chatSessions && sessionId !in store.chatSessions
    requires sessionId != freshSessionId
    requires sessionId != "" && audioData != ""
    requires process(sessionId, audioData, if mode.Some? then mode.value else "guide").Some?
    modifies store
    ensures reply.VoiceAnswer? && reply.sessionId == sessionId
    ensures sessionId !in store.chatSessions
    ensures freshSessionId in store.chatSessions && store.chatSessions[freshSessionId].messages == Some([])
  {
    reply := VoiceChatRoute(store, Some(sessionId), Some(audioData), mode, process, freshSessionId, userMessageId, aiMessageId, now, stamp);
  }

  /** `DELETE /api/sessions/:id`: reports success whether or not the session existed. */
  method DeleteSessionRoute(store: MemStorage, id: string) returns (reply: Reply)
    requires store.Valid()
    modifies store
    ensures store.Valid()
    ensures reply == DeleteReply(true)
    ensures store.chatSessions == old(store.chatSessions) - {id}
    ensures store.voiceInteractions == OthersOnly(old(store.voiceInteractions), id)
  {
    store.DeleteChatSession(id);
    reply := DeleteReply(true);
  }
}
