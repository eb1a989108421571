/**
 * The message filter of the transcript panel
 * (client/src/components/transcript-history.tsx): which of a session's
 * messages the panel lists for a search query and a type filter, and the
 * voice and text counts it shows.
 */
module TranscriptHistory {
  import opened Wrappers
  import opened Text
  import opened Schema

  /** The panel's type filter: "all", "voice" or "text". */
  datatype FilterType = AllMessages | VoiceOnly | TextOnly

  /** `msg.isVoice` is truthy. */
  predicate IsVoice(m: ChatMessage) {
    m.isVoice == Some(true)
  }

  /** Case-insensitive search over the content, and over the transcription when it is not empty. */
  predicate MatchesSearch(m: ChatMessage, query: string) {
    || query == ""
    || Contains(Lower(m.content), Lower(query))
    || (m.transcription.Some? && m.transcription.value != "" && Contains(Lower(m.transcription.value), Lower(query)))
  }

  predicate MatchesType(m: ChatMessage, filter: FilterType) {
    match filter
    case AllMessages => true
    case VoiceOnly => IsVoice(m)
    case TextOnly => !IsVoice(m)
  }

  /** The `filteredMessages` predicate: user messages matching both the query and the type. */
  predicate Shown(m: ChatMessage, query: string, filter: FilterType) {
    m.role == ChatUser && MatchesSearch(m, query) && MatchesType(m, filter)
  }

  /** `filteredMessages`. */
  function FilteredMessages(messages: seq<ChatMessage>, query: string, filter: FilterType): seq<ChatMessage>
    decreases |messages|
  {
    if messages == [] then []
    else
      var last := messages[|messages| - 1];
      FilteredMessages(messages[..|messages| - 1], query, filter) + (if Shown(last, query, filter) then [last] else [])
  }

  /** The user messages, in order. */
  function UserMessages(messages: seq<ChatMessage>): seq<ChatMessage>
    decreases |messages|
  {
    if messages == [] then []
    else
      var last := messages[|messages| - 1];
      UserMessages(messages[..|messages| - 1]) + (if last.role == ChatUser then [last] else [])
  }

  /** `voiceCount`: user messages marked as voice. */
  function VoiceCount(messages: seq<ChatMessage>): nat
    decreases |messages|
  {
    if messages == [] then 0
    else
      var last := messages[|messages| - 1];
      VoiceCount(messages[..|messages| - 1]) + (if last.role == ChatUser && IsVoice(last) then 1 else 0)
  }

  /** `textCount`: user messages not marked as voice. */
  function TextCount(messages: seq<ChatMessage>): nat
    decreases |messages|
  {
    if messages == [] then 0
    else
      var last := messages[|messages| - 1];
      TextCount(messages[..|messages| - 1]) + (if last.role == ChatUser && !IsVoice(last) then 1 else 0)
  }

  /** The positions, ascending, of the messages the filter keeps. */
  function ShownIndices(messages: seq<ChatMessage>, query: string, filter: FilterType): (idx: seq<nat>)
    ensures forall k :: 0 <= k < |idx| ==> idx[k] < |messages|
    ensures forall k, l :: 0 <= k < l < |idx| ==> idx[k] < idx[l]
    ensures forall i :: 0 <= i < |messages| ==> (i in idx <==> Shown(messages[i], query, filter))
    decreases |messages|
  {
    if messages == [] then []
    else
      var n := |messages| - 1;
      var init := ShownIndices(messages[..n], query, filter);
      assert forall i :: 0 <= i < n ==> messages[..n][i] == messages[i];
      init + (if Shown(messages[n], query, filter) then [n] else [])
  }

  /**
   * The listed messages are exactly the shown messages taken at ascending
   * positions: an order-preserving selection of user messages, never an
   * assistant message.
   */
  lemma {:induction false} FilteredIsSelection(messages: seq<ChatMessage>, query: string, filter: FilterType)
    ensures var r := FilteredMessages(messages, query, filter);
            var idx := ShownIndices(messages, query, filter);
            |r| == |idx| && forall k :: 0 <= k < |r| ==> r[k] == messages[idx[k]]
    ensures forall m :: m in FilteredMessages(messages, query, filter) ==> m.role == ChatUser && m in messages
    decreases |messages|
  {
    FilteredMembers(messages, query, filter);
    if messages != [] {
      var n := |messages| - 1;
      var init := messages[..n];
      FilteredIsSelection(init, query, filter);
      var r0, idx0 := FilteredMessages(init, query, filter), ShownIndices(init, query, filter);
      var r, idx := FilteredMessages(messages, query, filter), ShownIndices(messages, query, filter);
      assert r == r0 + (if Shown(messages[n], query, filter) then [messages[n]] else []);
      assert idx == idx0 + (if Shown(messages[n], query, filter) then [n] else []);
      forall k | 0 <= k < |r| ensures r[k] == messages[idx[k]] {
        if k < |r0| {
          assert r[k] == r0[k] == init[idx0[k]];
        }
      }
    }
  }

  /** With an empty query and the "all" filter, the panel lists exactly the user messages. */
  lemma {:induction false} EmptyQueryListsUserMessages(messages: seq<ChatMessage>)
    ensures FilteredMessages(messages, "", AllMessages) == UserMessages(messages)
    decreases |messages|
  {
    if messages != [] {
      EmptyQueryListsUserMessages(messages[..|messages| - 1]);
    }
  }

  /** A message is listed exactly when it is one of the messages and the filter shows it. */
  lemma {:induction false} FilteredMembers(messages: seq<ChatMessage>, query: string, filter: FilterType)
    ensures forall m :: m in FilteredMessages(messages, query, filter) <==> m in messages && Shown(m, query, filter)
    decreases |messages|
  {
    if messages != [] {
      var n := |messages| - 1;
      FilteredMembers(messages[..n], query, filter);
      assert messages == messages[..n] + [messages[n]];
    }
  }

  /** The voice and text lists for a query are as long, together, as the "all" list. */
  lemma {:induction false} VoiceTextLengths(messages: seq<ChatMessage>, query: string)
    ensures |FilteredMessages(messages, query, VoiceOnly)| + |FilteredMessages(messages, query, TextOnly)|
            == |FilteredMessages(messages, query, AllMessages)|
    decreases |messages|
  {
    if messages != [] {
      VoiceTextLengths(messages[..|messages| - 1], query);
    }
  }

  /**
   * The "voice" and "text" filters split what "all" lists for the same
   * query: every listed message is in exactly one of them.
   */
  lemma VoiceTextPartition(messages: seq<ChatMessage>, query: string)
    ensures |FilteredMessages(messages, query, VoiceOnly)| + |FilteredMessages(messages, query, TextOnly)|
            == |FilteredMessages(messages, query, AllMessages)|
    ensures forall m :: m in FilteredMessages(messages, query, AllMessages) <==>
              m in FilteredMessages(messages, query, VoiceOnly) || m in FilteredMessages(messages, query, TextOnly)
    ensures forall m :: !(m in FilteredMessages(messages, query, VoiceOnly) && m in FilteredMessages(messages, query, TextOnly))
  {
    VoiceTextLengths(messages, query);
    FilteredMembers(messages, query, AllMessages);
    FilteredMembers(messages, query, VoiceOnly);
    FilteredMembers(messages, query, TextOnly);
  }

  /** The two counts add up to the number of user messages, and each is what its filter lists for an empty query. */
  lemma {:induction false} CountsAddUp(messages: seq<ChatMessage>)
    ensures VoiceCount(messages) + TextCount(messages) == |UserMessages(messages)|
    ensures VoiceCount(messages) == |FilteredMessages(messages, "", VoiceOnly)|
    ensures TextCount(messages) == |FilteredMessages(messages, "", TextOnly)|
    decreases |messages|
  {
    if messages != [] {
      CountsAddUp(messages[..|messages| - 1]);
    }
  }

  /** The search ignores ASCII case: lower-casing the query or the content does not change it. */
  lemma SearchIgnoresCase(m: ChatMessage, query: string)
    ensures MatchesSearch(m, query) <==> MatchesSearch(m, Lower(query))
    ensures MatchesSearch(m, query) <==> MatchesSearch(m.(content := Lower(m.content)), query)
  {
    LowerIdempotent(query);
    LowerIdempotent(m.content);
  }

  /** A voice message is found through its transcription even when its content does not match. */
  lemma TranscriptionIsSearched(m: ChatMessage, query: string)
    requires m.transcription.Some? && m.transcription.value != ""
    requires Contains(Lower(m.transcription.value), Lower(query))
    ensures MatchesSearch(m, query)
  {
  }
}
