/**
 * The chat store of the frontend (frontend/src/lib/store.ts): a zustand
 * state holding the current conversation and the list of conversations.
 * Every action builds a new state from the old one, so each is a function
 * from state to state. The clock reading `now` (milliseconds) and the JSON
 * serialiser are parameters.
 */
module ChatStore {
  import opened Wrappers
  import opened Conversation
  import opened Decimal

  datatype MessageRole = UserRole | AssistantRole

  /** `Message`; the timestamp is a clock reading. */
  datatype Message = Message(id: string, role: MessageRole, content: string, timestamp: int, mode: Option<Mode>)

  /** `ConversationSession`. */
  datatype ConversationSession = ConversationSession(
    id: string, messages: seq<Message>, currentMode: Mode, createdAt: int, updatedAt: int)

  /** `ChatState`. */
  datatype ChatState = ChatState(
    currentSession: Option<ConversationSession>, sessions: seq<ConversationSession>, isLoading: bool, error: Option<string>)

  /** The store's initial state. */
  function InitialState(): ChatState {
    ChatState(None, [], false, None)
  }

  /** The current session, when there is one, is one of the listed sessions. */
  predicate CurrentIsListed(st: ChatState) {
    st.currentSession.Some? ==> st.currentSession.value in st.sessions
  }

  /** `session-${Date.now()}`. */
  function NewSessionId(now: nat): string {
    "session-" + NatToString(now)
  }

  /** `createNewSession`: a fresh empty `guide` session becomes current and is put first in the list. */
  function CreateNewSession(st: ChatState, now: nat): (r: ChatState)
    ensures r.currentSession == Some(ConversationSession(NewSessionId(now), [], Guide, now, now))
    ensures r.sessions == [r.currentSession.value] + st.sessions
    ensures r.isLoading == st.isLoading && r.error == st.error
    ensures CurrentIsListed(r)
  {
    var newSession := ConversationSession(NewSessionId(now), [], Guide, now, now);
    st.(currentSession := Some(newSession), sessions := [newSession] + st.sessions)
  }

  /** `sessions.map(s => s.id === updated.id ? updated : s)`. */
  function ReplaceById(sessions: seq<ConversationSession>, updated: ConversationSession): (r: seq<ConversationSession>)
    ensures |r| == |sessions|
    ensures forall i :: 0 <= i < |r| ==> r[i] == if sessions[i].id == updated.id then updated else sessions[i]
  {
    seq(|sessions|, i requires 0 <= i < |sessions| => if sessions[i].id == updated.id then updated else sessions[i])
  }

  /** Replacing keeps the list's ids, and puts `updated` in the list whenever its id was there. */
  lemma ReplaceByIdFacts(sessions: seq<ConversationSession>, updated: ConversationSession)
    ensures forall i :: 0 <= i < |sessions| ==> ReplaceById(sessions, updated)[i].id == sessions[i].id
    ensures (exists i :: 0 <= i < |sessions| && sessions[i].id == updated.id) ==> updated in ReplaceById(sessions, updated)
  {
    if exists i :: 0 <= i < |sessions| && sessions[i].id == updated.id {
      var i :| 0 <= i < |sessions| && sessions[i].id == updated.id;
      assert ReplaceById(sessions, updated)[i] == updated;
    }
  }

  /** Puts the changed current session in place, both as current and in the list. */
  function WithCurrent(st: ChatState, updated: ConversationSession): ChatState {
    st.(currentSession := Some(updated), sessions := ReplaceById(st.sessions, updated))
  }

  /** `addMessage(message)`: appended to the current session; no-op without one. */
  function AddMessage(st: ChatState, message: Message, now: int): ChatState {
    if st.currentSession.None? then st
    else
      var current := st.currentSession.value;
      WithCurrent(st, current.(messages := current.messages + [message], updatedAt := now))
  }

  /** `setCurrentMode(mode)`: only the mode and `updatedAt` change; no-op without a session. */
  function SetCurrentMode(st: ChatState, mode: Mode, now: int): ChatState {
    if st.currentSession.None? then st
    else WithCurrent(st, st.currentSession.value.(currentMode := mode, updatedAt := now))
  }

  /** `clearChat()`: the current session's messages are emptied; no-op without a session. */
  function ClearChat(st: ChatState, now: int): ChatState {
    if st.currentSession.None? then st
    else WithCurrent(st, st.currentSession.value.(messages := [], updatedAt := now))
  }

  /** The assistant message that records an AI response; `serialize` is `JSON.stringify`. */
  function AIMessage(response: AIResponse, serialize: AIResponse -> string): Message {
    Message(response.id, AssistantRole, serialize(response), response.timestamp, Some(response.mode))
  }

  /** `addAIResponse(response)`: adds the response's message, then switches to the response's mode. */
  function AddAIResponse(st: ChatState, response: AIResponse, serialize: AIResponse -> string, now: int): ChatState {
    SetCurrentMode(AddMessage(st, AIMessage(response, serialize), now), response.mode, now)
  }

  /** `sessions.find(s => s.id === id)`. */
  function FindById(sessions: seq<ConversationSession>, id: string): (r: Option<ConversationSession>)
    ensures r.None? <==> forall i :: 0 <= i < |sessions| ==> sessions[i].id != id
    ensures r.Some? ==> exists i :: 0 <= i < |sessions| && sessions[i] == r.value && r.value.id == id
                                    && forall j :: 0 <= j < i ==> sessions[j].id != id
    decreases |sessions|
  {
    if sessions == [] then None
    else if sessions[0].id == id then Some(sessions[0])
    else
      var r := FindById(sessions[1..], id);
      assert forall i :: 1 <= i < |sessions| ==> sessions[1..][i - 1] == sessions[i];
      r
  }

  /** `loadSession(id)`: the first listed session with that id becomes current; otherwise nothing changes. */
  function LoadSession(st: ChatState, id: string): ChatState {
    var found := FindById(st.sessions, id);
    if found.Some? then st.(currentSession := found) else st
  }

  /** Without a current session, the actions on it change nothing. */
  lemma NoCurrentSessionNoOp(st: ChatState, message: Message, mode: Mode, response: AIResponse,
                             serialize: AIResponse -> string, now: int)
    requires st.currentSession.None?
    ensures AddMessage(st, message, now) == st
    ensures SetCurrentMode(st, mode, now) == st
    ensures ClearChat(st, now) == st
    ensures AddAIResponse(st, response, serialize, now) == st
  {
  }

  /**
   * `addMessage` appends at the end of the current session and keeps its id
   * and mode; every listed entry with that id becomes the new session, the
   * others stay as they were.
   */
  lemma AddMessageAppends(st: ChatState, message: Message, now: int)
    requires st.currentSession.Some?
    ensures var r := AddMessage(st, message, now);
            var prev := st.currentSession.value;
            && r.currentSession.Some?
            && r.currentSession.value.messages == prev.messages + [message]
            && r.currentSession.value.id == prev.id && r.currentSession.value.currentMode == prev.currentMode
            && r.currentSession.value.createdAt == prev.createdAt && r.currentSession.value.updatedAt == now
            && |r.sessions| == |st.sessions|
            && (forall i :: 0 <= i < |st.sessions| && st.sessions[i].id != prev.id ==> r.sessions[i] == st.sessions[i])
            && (forall i :: 0 <= i < |st.sessions| && st.sessions[i].id == prev.id ==> r.sessions[i] == r.currentSession.value)
  {
  }

  /** `setCurrentMode` changes only the mode and the update time of the current session. */
  lemma SetCurrentModeOnlyMode(st: ChatState, mode: Mode, now: int)
    requires st.currentSession.Some?
    ensures SetCurrentMode(st, mode, now).currentSession == Some(st.currentSession.value.(currentMode := mode, updatedAt := now))
    ensures SetCurrentMode(st, mode, now).isLoading == st.isLoading && SetCurrentMode(st, mode, now).error == st.error
  {
  }

  /** `clearChat` empties the messages and keeps the id, the mode and the creation time. */
  lemma ClearChatKeepsIdentity(st: ChatState, now: int)
    requires st.currentSession.Some?
    ensures var c := ClearChat(st, now).currentSession;
            && c.Some? && c.value.messages == []
            && c.value.id == st.currentSession.value.id
            && c.value.currentMode == st.currentSession.value.currentMode
            && c.value.createdAt == st.currentSession.value.createdAt
  {
  }

  /**
   * `addAIResponse` appends exactly one assistant message carrying the
   * response's id, time, mode and serialised text, and leaves the session in
   * the response's mode.
   */
  lemma AddAIResponseEffect(st: ChatState, response: AIResponse, serialize: AIResponse -> string, now: int)
    requires st.currentSession.Some?
    ensures var c := AddAIResponse(st, response, serialize, now).currentSession;
            && c.Some? && c.value.id == st.currentSession.value.id
            && c.value.messages == st.currentSession.value.messages + [AIMessage(response, serialize)]
            && c.value.currentMode == response.mode
            && c.value.messages[|c.value.messages| - 1].role == AssistantRole
            && c.value.messages[|c.value.messages| - 1].content == serialize(response)
  {
  }

  /** `loadSession` takes the first session with the id, or leaves everything as it was. */
  lemma LoadSessionSpec(st: ChatState, id: string)
    ensures (forall i :: 0 <= i < |st.sessions| ==> st.sessions[i].id != id) ==> LoadSession(st, id) == st
    ensures (exists i :: 0 <= i < |st.sessions| && st.sessions[i].id == id) ==>
              exists i :: 0 <= i < |st.sessions| && st.sessions[i].id == id
                          && (forall j :: 0 <= j < i ==> st.sessions[j].id != id)
                          && LoadSession(st, id) == st.(currentSession := Some(st.sessions[i]))
  {
    var found := FindById(st.sessions, id);
    if found.Some? {
      var i :| 0 <= i < |st.sessions| && st.sessions[i] == found.value && found.value.id == id
               && forall j :: 0 <= j < i ==> st.sessions[j].id != id;
      assert LoadSession(st, id) == st.(currentSession := Some(st.sessions[i]));
    }
  }

  /** Every action keeps the current session among the listed ones. */
  lemma {:induction false} ActionsKeepCurrentListed(st: ChatState, message: Message, mode: Mode, response: AIResponse,
                                                   serialize: AIResponse -> string, id: string, now: int)
    requires CurrentIsListed(st)
    ensures CurrentIsListed(AddMessage(st, message, now))
    ensures CurrentIsListed(SetCurrentMode(st, mode, now))
    ensures CurrentIsListed(ClearChat(st, now))
    ensures CurrentIsListed(AddAIResponse(st, response, serialize, now))
    ensures CurrentIsListed(LoadSession(st, id))
  {
    if st.currentSession.Some? {
      var current := st.currentSession.value;
      var i :| 0 <= i < |st.sessions| && st.sessions[i] == current;
      ReplaceByIdFacts(st.sessions, current.(messages := current.messages + [message], updatedAt := now));
      ReplaceByIdFacts(st.sessions, current.(currentMode := mode, updatedAt := now));
      ReplaceByIdFacts(st.sessions, current.(messages := [], updatedAt := now));
      WithCurrentKeepsListed(AddMessage(st, AIMessage(response, serialize), now), response.mode, now);
    }
    var found := FindById(st.sessions, id);
  }

  /** `setCurrentMode` keeps the current session listed. */
  lemma WithCurrentKeepsListed(st: ChatState, mode: Mode, now: int)
    requires CurrentIsListed(st)
    ensures CurrentIsListed(SetCurrentMode(st, mode, now))
  {
    if st.currentSession.Some? {
      var i :| 0 <= i < |st.sessions| && st.sessions[i] == st.currentSession.value;
      ReplaceByIdFacts(st.sessions, st.currentSession.value.(currentMode := mode, updatedAt := now));
    }
  }

  /** A new session is current and listed first, and the list keeps every earlier session after it. */
  lemma CreateThenLoad(st: ChatState, now: nat)
    ensures var r := CreateNewSession(st, now);
            && LoadSession(r, NewSessionId(now)) == r
            && r.sessions[1..] == st.sessions
  {
    var r := CreateNewSession(st, now);
    assert r.sessions[0].id == NewSessionId(now);
  }
}
