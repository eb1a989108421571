/**
 * The chat endpoint of the Express backend
 * (backend/src/controllers/chatController.ts): request validation, finding
 * or creating the session, the quick-reply actions, the choice of the
 * conversation mode for a free-text message, and the bookkeeping of the
 * session's message list. The session store is a `Sessions.SessionService`.
 * The controller's `aiService` is a `Composer` parameter, so the controller
 * is verified for any composer; `ServiceComposer` is the one the backend
 * wires in, `AiService.GenerateResponse` for the request's response id,
 * clock and search outcome. Fresh ids, the clock and the JSON serialiser
 * are parameters as well.
 */
module ChatController {
  import opened Wrappers
  import opened Text
  import opened Conversation
  import opened Sessions
  import ModeDetector
  import AiService

  /**
   * `aiService.generateResponse(message, mode, sessionId, history)`; the
   * session id and the history are not read by the composition.
   */
  type Composer = (string, Mode) -> AIResponse

  /** The composer of the backend: `AiService.GenerateResponse` for one request. */
  function ServiceComposer(id: string, now: int, searchFailed: bool, thrown: bool, localeDate: int -> string): Composer {
    (message: string, mode: Mode) => AiService.ResponseFor(message, mode, id, now, searchFailed, thrown, localeDate)
  }

  /** The backend's composer answers in the mode it is asked for and offers its actions. */
  lemma ServiceComposerKeepsMode(id: string, now: int, searchFailed: bool, thrown: bool, localeDate: int -> string,
                                 message: string, mode: Mode)
    ensures ServiceComposer(id, now, searchFailed, thrown, localeDate)(message, mode).mode == mode
    ensures ServiceComposer(id, now, searchFailed, thrown, localeDate)(message, mode).id == id
    ensures !thrown ==> |ServiceComposer(id, now, searchFailed, thrown, localeDate)(message, mode).nextActions| == 4
  {
    AiService.ResponseKeepsMode(message, mode, id, now, searchFailed, thrown, localeDate);
  }

  /** `ChatRequest` as it arrives in the body: any field may be missing. */
  datatype ChatRequest = ChatRequest(
    message: Option<string>,
    sessionId: Option<string>,
    forceMode: Option<Mode>,
    selectedAction: Option<string>)

  /** The HTTP status and the JSON body (`ChatResponse`) of a reply. */
  datatype ChatReply = ChatReply(status: nat, success: bool, data: Option<AIResponse>, error: Option<string>, sessionId: string)

  /** What `x || ''` gives for an optional string. */
  function OrEmpty(s: Option<string>): string {
    if s.Some? then s.value else ""
  }

  /** The request names a session that the store knows. */
  predicate Known(req: ChatRequest, sessions: map<string, SessionData>) {
    Truthy(req.sessionId) && req.sessionId.value in sessions
  }

  /** The session a valid request works on: the named one, or a new `guide` session under `freshId`. */
  function StartSession(req: ChatRequest, sessions: map<string, SessionData>, freshId: string, now: int): SessionData {
    if Known(req, sessions) then sessions[req.sessionId.value] else SessionData(freshId, [], Guide, now, now)
  }

  // ---- mode resolution ----------------------------------------------------

  /**
   * The mode for a free-text message: the forced mode, else `guide` for a
   * help request, else the detected mode when its confidence exceeds 0.8
   * (eight tenths), else the current mode.
   */
  function ResolveMode(forceMode: Option<Mode>, message: string, table: ModeDetector.PhraseTable, current: Mode): Mode {
    if forceMode.Some? then forceMode.value
    else if ModeDetector.IsHelpRequest(message) then Guide
    else
      var detection := ModeDetector.Detect(table, Lower(message));
      if detection.confidence > 8 then detection.detectedMode else current
  }

  /** A forced mode always wins. */
  lemma ForceWins(mode: Mode, message: string, table: ModeDetector.PhraseTable, current: Mode)
    ensures ResolveMode(Some(mode), message, table, current) == mode
  {
  }

  /** Without a forced mode, a help request moves to `guide`. */
  lemma HelpMeansGuide(message: string, table: ModeDetector.PhraseTable, current: Mode)
    requires ModeDetector.IsHelpRequest(message)
    ensures ResolveMode(None, message, table, current) == Guide
  {
  }

  /**
   * A message without any table phrase moves to `guide`, whatever the
   * current mode: no match reports `guide` with full confidence.
   */
  lemma PlainMessageResetsToGuide(message: string, table: ModeDetector.PhraseTable, current: Mode)
    requires forall i, j :: 0 <= i < |table| && 0 <= j < |table[i].1| ==> !Contains(Lower(message), Lower(table[i].1[j]))
    ensures ResolveMode(None, message, table, current) == Guide
  {
    ModeDetector.DetectWithoutMatch(table, Lower(message));
  }

  /**
   * Otherwise the detected mode is adopted iff its confidence exceeds 0.8;
   * a confidence of exactly 0.8 keeps the current mode.
   */
  lemma DetectionThreshold(message: string, table: ModeDetector.PhraseTable, current: Mode)
    requires !ModeDetector.IsHelpRequest(message)
    ensures ModeDetector.Detect(table, Lower(message)).confidence > 8 ==>
              ResolveMode(None, message, table, current) == ModeDetector.Detect(table, Lower(message)).detectedMode
    ensures ModeDetector.Detect(table, Lower(message)).confidence == 8 ==>
              ResolveMode(None, message, table, current) == current
  {
    ModeDetector.DetectConfidenceRange(table, Lower(message));
  }

  // ---- actions ------------------------------------------------------------

  /** The next mode of `handleModeChange`: the successor in [guide, socrates, hard], cyclically. */
  function NextMode(mode: Mode): Mode {
    var modes := [Guide, Socrates, Hard];
    var currentIndex := match mode case Guide => 0 case Socrates => 1 case Hard => 2;
    modes[(currentIndex + 1) % |modes|]
  }

  /** The cycle guide → socrates → hard → guide: never the same mode, back after three steps. */
  lemma NextModeCycle(mode: Mode)
    ensures NextMode(Guide) == Socrates && NextMode(Socrates) == Hard && NextMode(Hard) == Guide
    ensures NextMode(mode) != mode
    ensures NextMode(NextMode(NextMode(mode))) == mode
  {
  }

  /** The content of the last user message of `history`, searched from the end (`reverse().find`). */
  function LastUserMessage(history: seq<OpenAIMessage>): (r: Option<string>)
    ensures r.None? <==> forall i :: 0 <= i < |history| ==> history[i].role != UserRole
    ensures r.Some? ==> exists i :: 0 <= i < |history| && history[i].role == UserRole && history[i].content == r.value
                                    && forall j :: i < j < |history| ==> history[j].role != UserRole
    decreases |history|
  {
    if history == [] then None
    else if history[|history| - 1].role == UserRole then Some(history[|history| - 1].content)
    else
      var r := LastUserMessage(history[..|history| - 1]);
      LastUserMessageStep(history, r);
      r
  }

  /** A last message that is not the user's leaves the search to the earlier messages. */
  lemma LastUserMessageStep(history: seq<OpenAIMessage>, r: Option<string>)
    requires history != [] && history[|history| - 1].role != UserRole
    requires var init := history[..|history| - 1];
             && (r.None? <==> forall i :: 0 <= i < |init| ==> init[i].role != UserRole)
             && (r.Some? ==> exists i :: 0 <= i < |init| && init[i].role == UserRole && init[i].content == r.value
                                         && forall j :: i < j < |init| ==> init[j].role != UserRole)
    ensures r.None? <==> forall i :: 0 <= i < |history| ==> history[i].role != UserRole
    ensures r.Some? ==> exists i :: 0 <= i < |history| && history[i].role == UserRole && history[i].content == r.value
                                    && forall j :: i < j < |history| ==> history[j].role != UserRole
  {
    var n := |history| - 1;
    var init := history[..n];
    assert forall i :: 0 <= i < n ==> init[i] == history[i];
    if r.Some? {
      var i :| 0 <= i < n && init[i].role == UserRole && init[i].content == r.value
               && forall j :: i < j < n ==> init[j].role != UserRole;
      assert history[i] == init[i];
      assert forall j :: i < j < |history| ==> history[j].role != UserRole;
    }
  }

  /** Messages added after the last user message do not change what retry resends, unless they are user messages. */
  lemma {:induction false} LastUserMessageAppend(history: seq<OpenAIMessage>, m: OpenAIMessage)
    ensures LastUserMessage(history + [m]) == if m.role == UserRole then Some(m.content) else LastUserMessage(history)
  {
    assert (history + [m])[..|history|] == history;
  }

  /** The prompt of `generateGenericActionResponse(actionId)`. */
  function GenericPrompt(actionId: string): string {
    "ユーザーが「" + actionId + "」アクションを選択しました"
  }

  /** The message `handleActionSelection` sends to the composer, given the session's history. */
  function ActionPrompt(actionId: string, history: seq<OpenAIMessage>): string {
    if actionId == "deep_dive" then "この話題についてさらに詳しく教えてください"
    else if actionId == "mode_change" then "違うアプローチで同じ話題を見直してください"
    else if actionId == "new_topic" then "新しいトピックについて相談したいと思います"
    else if actionId == "practical_steps" then "具体的なステップと実行計画を提示してください"
    else if actionId == "more_questions" then "さらに深く考えるための質問をしてください"
    else if actionId == "reality_check" then "より厳しい現実的な観点から分析してください"
    else if actionId == "retry" then
      match LastUserMessage(history)
      case Some(content) => content
      case None => GenericPrompt("retry")
    else GenericPrompt(actionId)
  }

  /** The mode the response to an action is composed in. */
  function ActionMode(actionId: string, mode: Mode): Mode {
    if actionId == "mode_change" then NextMode(mode) else mode
  }

  /** What an action taken in mode `mode` does to its session at clock `now`. */
  function ActionEffect(actionId: string, session: SessionData, mode: Mode, now: int): SessionData {
    if actionId == "mode_change" then session.(currentMode := NextMode(mode), updatedAt := now)
    else if actionId == "new_topic" then session.(messages := [], updatedAt := now)
    else session
  }

  /** Retry resends the last user message, or falls back to the generic prompt when there is none. */
  lemma RetryPrompt(history: seq<OpenAIMessage>)
    ensures LastUserMessage(history).Some? ==> ActionPrompt("retry", history) == LastUserMessage(history).value
    ensures LastUserMessage(history).None? ==> ActionPrompt("retry", history) == GenericPrompt("retry")
  {
  }

  /** An action id none of the handlers knows gets the generic prompt that names it. */
  lemma UnknownActionIsGeneric(actionId: string, history: seq<OpenAIMessage>, mode: Mode, session: SessionData, now: int)
    requires actionId !in {"deep_dive", "mode_change", "new_topic", "practical_steps", "more_questions", "reality_check", "retry"}
    ensures ActionPrompt(actionId, history) == GenericPrompt(actionId)
    ensures ActionMode(actionId, mode) == mode
    ensures ActionEffect(actionId, session, mode, now) == session
  {
  }

  /**
   * `handleActionSelection(actionId, sessionId, currentMode)`: only
   * `mode_change` (which persists the next mode) and `new_topic` (which
   * clears the messages) touch the session; no action adds messages.
   */
  method HandleActionSelection(store: SessionService, actionId: string, sessionId: string, currentMode: Mode,
                               now: int, compose: Composer)
    returns (response: AIResponse)
    requires store.Valid() && sessionId in store.sessions
    modifies store
    ensures store.Valid() && store.order == old(store.order)
    ensures response == compose(ActionPrompt(actionId, old(store.sessions)[sessionId].messages), ActionMode(actionId, currentMode))
    ensures store.sessions == old(store.sessions)[sessionId := ActionEffect(actionId, old(store.sessions)[sessionId], currentMode, now)]
  {
    var history := store.GetMessageHistory(sessionId);
    var prompt := ActionPrompt(actionId, history);
    var mode := ActionMode(actionId, currentMode);
    if actionId == "mode_change" {
      var _ := store.UpdateMode(sessionId, mode, now);
    } else if actionId == "new_topic" {
      var _ := store.ClearSession(sessionId, now);
    } else {
      UpdateSame(store.sessions, sessionId);
    }
    response := compose(prompt, mode);
  }

  // ---- free-text messages -------------------------------------------------

  /** The contents of a message list (`history.map(msg => msg.content)`). */
  function Contents(messages: seq<OpenAIMessage>): (r: seq<string>)
    ensures |r| == |messages|
    ensures forall i :: 0 <= i < |messages| ==> r[i] == messages[i].content
  {
    seq(|messages|, i requires 0 <= i < |messages| => messages[i].content)
  }

  /**
   * A session after one exchange: the user's message and the serialised reply
   * appended in that order, the mode set, the clock refreshed.
   */
  function Exchanged(session: SessionData, message: string, reply: string, mode: Mode, now: int): SessionData {
    session.(messages := session.messages + [OpenAIMessage(UserRole, message), OpenAIMessage(AssistantRole, reply)],
             currentMode := mode, updatedAt := now)
  }

  /**
   * The message branch of `handleChat` on the session `sessionId`: resolve the
   * mode, persist it only if it changed, append the user message, compose
   * with the history that already ends with it, append the serialised
   * response. Also returns whether the mode was persisted and the history
   * handed to the composer.
   */
  method HandleMessage(store: SessionService, message: string, forceMode: Option<Mode>, sessionId: string,
                       table: ModeDetector.PhraseTable, now: int, compose: Composer, serialize: AIResponse -> string)
    returns (response: AIResponse, modeUpdated: bool, history: seq<string>)
    requires store.Valid() && sessionId in store.sessions
    modifies store
    ensures store.Valid() && store.order == old(store.order)
    ensures modeUpdated == (ResolveMode(forceMode, message, table, old(store.sessions)[sessionId].currentMode)
                            != old(store.sessions)[sessionId].currentMode)
    ensures response == compose(message, ResolveMode(forceMode, message, table, old(store.sessions)[sessionId].currentMode))
    ensures history == Contents(old(store.sessions)[sessionId].messages) + [message]
    ensures store.sessions == old(store.sessions)[sessionId := Exchanged(old(store.sessions)[sessionId], message, serialize(response),
                                                   ResolveMode(forceMode, message, table, old(store.sessions)[sessionId].currentMode), now)]
  {
    ghost var before := store.sessions[sessionId];
    var currentMode;
    currentMode, modeUpdated, history := RecordUserMessage(store, message, forceMode, sessionId, table, now);
    response := compose(message, currentMode);
    var _ := store.AddMessage(sessionId, OpenAIMessage(AssistantRole, serialize(response)), now);
    assert before.messages + [OpenAIMessage(UserRole, message)] + [OpenAIMessage(AssistantRole, serialize(response))]
        == before.messages + [OpenAIMessage(UserRole, message), OpenAIMessage(AssistantRole, serialize(response))];
  }

  /**
   * The part of the message branch before composing: resolve the mode,
   * persist it only if it changed, append the user message, and read back
   * the history's contents.
   */
  method RecordUserMessage(store: SessionService, message: string, forceMode: Option<Mode>, sessionId: string,
                           table: ModeDetector.PhraseTable, now: int)
    returns (currentMode: Mode, modeUpdated: bool, history: seq<string>)
    requires store.Valid() && sessionId in store.sessions
    modifies store
    ensures store.Valid() && store.order == old(store.order)
    ensures currentMode == ResolveMode(forceMode, message, table, old(store.sessions)[sessionId].currentMode)
    ensures modeUpdated == (currentMode != old(store.sessions)[sessionId].currentMode)
    ensures history == Contents(old(store.sessions)[sessionId].messages) + [message]
    ensures store.sessions == old(store.sessions)[sessionId := old(store.sessions)[sessionId].(
              messages := old(store.sessions)[sessionId].messages + [OpenAIMessage(UserRole, message)],
              currentMode := currentMode, updatedAt := now)]
  {
    ghost var before := store.sessions[sessionId];
    ghost var others := store.sessions;
    currentMode := ChooseMode(forceMode, message, table, store.sessions[sessionId].currentMode);
    modeUpdated := currentMode != store.sessions[sessionId].currentMode;
    if modeUpdated {
      var _ := store.UpdateMode(sessionId, currentMode, now);
    }
    assert store.sessions == others[sessionId := before.(currentMode := currentMode, updatedAt := store.sessions[sessionId].updatedAt)];
    var _ := store.AddMessage(sessionId, OpenAIMessage(UserRole, message), now);
    ghost var withUser := before.(messages := before.messages + [OpenAIMessage(UserRole, message)], currentMode := currentMode, updatedAt := now);
    assert store.sessions == others[sessionId := withUser];
    var messages := store.GetMessageHistory(sessionId);
    history := Contents(messages);
    assert Contents(withUser.messages) == Contents(before.messages) + [message];
  }

  /** The local reassignments of `currentMode` in `handleChat`'s message branch. */
  method ChooseMode(forceMode: Option<Mode>, message: string, table: ModeDetector.PhraseTable, current: Mode)
    returns (currentMode: Mode)
    ensures currentMode == ResolveMode(forceMode, message, table, current)
  {
    currentMode := current;
    if forceMode.Some? {
      currentMode := forceMode.value;
    } else if ModeDetector.IsHelpRequest(message) {
      currentMode := Guide;
    } else {
      var modeDetection := ModeDetector.DetectMode(table, message);
      if modeDetection.confidence > 8 {
        currentMode := modeDetection.detectedMode;
      }
    }
  }

  // ---- the endpoint -------------------------------------------------------

  /** Storing a key's own value again changes nothing. */
  lemma UpdateSame(m: map<string, SessionData>, k: string)
    requires k in m
    ensures m[k := m[k]] == m
  {
  }

  /** A second update of the same key overrides the first. */
  lemma UpdateTwice(m: map<string, SessionData>, k: string, a: SessionData, b: SessionData)
    ensures m[k := a][k := b] == m[k := b]
  {
  }

  /** Finding the session a valid request names, or creating a `guide` session under `freshId`. */
  method OpenSession(store: SessionService, req: ChatRequest, freshId: string, now: int) returns (session: SessionData)
    requires store.Valid() && freshId !in store.sessions
    modifies store
    ensures store.Valid()
    ensures session == StartSession(req, old(store.sessions), freshId, now)
    ensures store.sessions == old(store.sessions)[session.sessionId := session]
    ensures Known(req, old(store.sessions)) ==> store.order == old(store.order) && session.sessionId == req.sessionId.value
    ensures !Known(req, old(store.sessions)) ==> store.order == old(store.order) + [freshId] && session.sessionId == freshId
  {
    var found: Option<SessionData> := None;
    if req.sessionId.Some? && req.sessionId.value != "" {
      found := store.GetSession(req.sessionId.value);
    }
    if found.Some? {
      session := found.value;
    } else {
      session := store.CreateSession(freshId, now);
    }
  }

  /**
   * `handleChat(req, res)`. A request with neither a message nor an action
   * is refused with 400 before any session exists; otherwise the named
   * session, or a new one under `freshId`, takes the action (which wins over
   * the message) or the message, and the reply carries that session's id.
   */
  method HandleChat(store: SessionService, req: ChatRequest, table: ModeDetector.PhraseTable, freshId: string,
                    now: int, compose: Composer, serialize: AIResponse -> string)
    returns (reply: ChatReply)
    requires store.Valid() && freshId !in store.sessions
    modifies store
    ensures store.Valid()
    ensures !Truthy(req.message) && !Truthy(req.selectedAction) ==>
              && reply == ChatReply(400, false, None, Some("Message or selectedAction is required"), OrEmpty(req.sessionId))
              && store.sessions == old(store.sessions) && store.order == old(store.order)
    ensures Truthy(req.message) || Truthy(req.selectedAction) ==>
              var start := StartSession(req, old(store.sessions), freshId, now);
              && reply.status == 200 && reply.success && reply.error.None?
              && reply.sessionId == start.sessionId
              && (Known(req, old(store.sessions)) ==> store.order == old(store.order))
              && (!Known(req, old(store.sessions)) ==> start.sessionId == freshId && store.order == old(store.order) + [freshId])
              && reply.sessionId in store.sessions
              && store.sessions == old(store.sessions)[reply.sessionId := store.sessions[reply.sessionId]]
    ensures Truthy(req.selectedAction) ==>
              var start := StartSession(req, old(store.sessions), freshId, now);
              && store.sessions[start.sessionId] == ActionEffect(req.selectedAction.value, start, start.currentMode, now)
              && reply.data == Some(compose(ActionPrompt(req.selectedAction.value, start.messages),
                                            ActionMode(req.selectedAction.value, start.currentMode)))
    ensures Truthy(req.message) && !Truthy(req.selectedAction) ==>
              var start := StartSession(req, old(store.sessions), freshId, now);
              var mode := ResolveMode(req.forceMode, req.message.value, table, start.currentMode);
              var response := compose(req.message.value, mode);
              && reply.data == Some(response)
              && store.sessions[start.sessionId] == Exchanged(start, req.message.value, serialize(response), mode, now)
  {
    var hasMessage := req.message.Some? && req.message.value != "";
    var hasAction := req.selectedAction.Some? && req.selectedAction.value != "";
    if !hasMessage && !hasAction {
      return ChatReply(400, false, None, Some("Message or selectedAction is required"), OrEmpty(req.sessionId));
    }
    var session := OpenSession(store, req, freshId, now);
    if hasAction {
      var actionResponse := HandleActionSelection(store, req.selectedAction.value, session.sessionId, session.currentMode,
                                                  now, compose);
      UpdateTwice(old(store.sessions), session.sessionId, session, store.sessions[session.sessionId]);
      return ChatReply(200, true, Some(actionResponse), None, session.sessionId);
    }
    var aiResponse, _, _ := HandleMessage(store, req.message.value, req.forceMode, session.sessionId, table,
                                          now, compose, serialize);
    UpdateTwice(old(store.sessions), session.sessionId, session, store.sessions[session.sessionId]);
    reply := ChatReply(200, true, Some(aiResponse), None, session.sessionId);
  }
}
