/**
 * The in-memory storage of the Express server (server/storage.ts): three
 * JavaScript `Map`s of users, chat sessions and voice interactions. The
 * maps whose iteration order the code observes (users for the lookup by
 * name, voice interactions for the listing and the cascading delete) keep
 * their insertion order beside them. Fresh ids and the clock are parameters.
 */
module Storage {
  import opened Wrappers
  import opened Schema

  // ---- users --------------------------------------------------------------

  /** The first user, in insertion order, with the given name (`Array.from(values()).find`). */
  function FirstNamed(keys: seq<string>, users: map<string, User>, username: string): (r: Option<User>)
    requires forall k :: k in keys ==> k in users
    ensures r.None? <==> forall i :: 0 <= i < |keys| ==> users[keys[i]].username != username
    ensures r.Some? ==> exists i :: 0 <= i < |keys| && users[keys[i]] == r.value && r.value.username == username
                                    && forall j :: 0 <= j < i ==> users[keys[j]].username != username
    decreases |keys|
  {
    if keys == [] then None
    else if users[keys[0]].username == username then Some(users[keys[0]])
    else
      var r := FirstNamed(keys[1..], users, username);
      assert forall i :: 1 <= i < |keys| ==> keys[1..][i - 1] == keys[i];
      r
  }

  // ---- voice interactions ----------------------------------------------

  /** `createdAt?.getTime() || 0`: the sort key of an interaction. */
  function TimeKey(v: VoiceInteraction): int {
    if v.createdAt.Some? then v.createdAt.value else 0
  }

  /** Ascending by sort key. */
  predicate SortedByTime(s: seq<VoiceInteraction>) {
    forall i, j :: 0 <= i < j < |s| ==> TimeKey(s[i]) <= TimeKey(s[j])
  }

  /** Insert `x` after every element whose key is not larger: equal keys keep their order. */
  function InsertByTime(x: VoiceInteraction, s: seq<VoiceInteraction>): (r: seq<VoiceInteraction>)
    ensures multiset(r) == multiset(s) + multiset{x}
    decreases |s|
  {
    if s == [] then [x]
    else if TimeKey(s[0]) <= TimeKey(x) then
      assert s == [s[0]] + s[1..];
      [s[0]] + InsertByTime(x, s[1..])
    else [x] + s
  }

  /** Every key of `s` is at least `b`. */
  predicate KeysAtLeast(s: seq<VoiceInteraction>, b: int) {
    forall i :: 0 <= i < |s| ==> b <= TimeKey(s[i])
  }

  /** Inserting an element above a lower bound keeps every key above it. */
  lemma {:induction false} InsertKeepsBound(x: VoiceInteraction, s: seq<VoiceInteraction>, b: int)
    requires KeysAtLeast(s, b) && b <= TimeKey(x)
    ensures KeysAtLeast(InsertByTime(x, s), b)
    decreases |s|
  {
    if s != [] && TimeKey(s[0]) <= TimeKey(x) {
      InsertKeepsBound(x, s[1..], b);
      var r := InsertByTime(x, s);
      forall i | 0 <= i < |r| ensures b <= TimeKey(r[i]) {
        if i > 0 {
          assert r[i] == InsertByTime(x, s[1..])[i - 1];
        }
      }
    }
  }

  /** Inserting into a sorted sequence keeps it sorted. */
  lemma {:induction false} InsertKeepsSorted(x: VoiceInteraction, s: seq<VoiceInteraction>)
    requires SortedByTime(s)
    ensures SortedByTime(InsertByTime(x, s))
    decreases |s|
  {
    if s != [] && TimeKey(s[0]) <= TimeKey(x) {
      var rest := InsertByTime(x, s[1..]);
      InsertKeepsSorted(x, s[1..]);
      InsertKeepsBound(x, s[1..], TimeKey(s[0]));
      var r := [s[0]] + rest;
      forall i, j | 0 <= i < j < |r| ensures TimeKey(r[i]) <= TimeKey(r[j]) {
        if i == 0 {
          assert r[j] == rest[j - 1];
        } else {
          assert r[i] == rest[i - 1] && r[j] == rest[j - 1];
        }
      }
    }
  }

  /** `sort((a, b) => key(a) - key(b))`, as a stable insertion sort. */
  function SortByTime(s: seq<VoiceInteraction>): (r: seq<VoiceInteraction>)
    ensures multiset(r) == multiset(s)
    decreases |s|
  {
    if s == [] then []
    else
      assert s == s[..|s| - 1] + [s[|s| - 1]];
      InsertByTime(s[|s| - 1], SortByTime(s[..|s| - 1]))
  }

  /** The sort's result is in ascending key order. */
  lemma {:induction false} SortByTimeIsSorted(s: seq<VoiceInteraction>)
    ensures SortedByTime(SortByTime(s))
    decreases |s|
  {
    if s != [] {
      SortByTimeIsSorted(s[..|s| - 1]);
      InsertKeepsSorted(s[|s| - 1], SortByTime(s[..|s| - 1]));
    }
  }

  /** Inserting an element whose key is not below any other puts it at the end. */
  lemma {:induction false} InsertLargestAtEnd(x: VoiceInteraction, s: seq<VoiceInteraction>)
    requires forall i :: 0 <= i < |s| ==> TimeKey(s[i]) <= TimeKey(x)
    ensures InsertByTime(x, s) == s + [x]
    decreases |s|
  {
    if s != [] {
      InsertLargestAtEnd(x, s[1..]);
      assert s == [s[0]] + s[1..];
    }
  }

  /** Already in time order, the interactions keep their order: the sort only moves what is out of order. */
  lemma {:induction false} SortKeepsSortedOrder(s: seq<VoiceInteraction>)
    requires SortedByTime(s)
    ensures SortByTime(s) == s
    decreases |s|
  {
    if s != [] {
      var init := s[..|s| - 1];
      SortKeepsSortedOrder(init);
      InsertLargestAtEnd(s[|s| - 1], init);
      assert init + [s[|s| - 1]] == s;
    }
  }

  /** The interactions, in insertion order, that belong to `sessionId`. */
  function OfSession(keys: seq<string>, interactions: map<string, VoiceInteraction>, sessionId: string): seq<VoiceInteraction>
    requires forall k :: k in keys ==> k in interactions
    decreases |keys|
  {
    if keys == [] then []
    else
      OfSession(keys[..|keys| - 1], interactions, sessionId)
      + (if interactions[keys[|keys| - 1]].sessionId == sessionId then [interactions[keys[|keys| - 1]]] else [])
  }

  /** `OfSession` keeps exactly the interactions of the session. */
  lemma {:induction false} OfSessionMembers(keys: seq<string>, interactions: map<string, VoiceInteraction>, sessionId: string)
    requires forall k :: k in keys ==> k in interactions
    ensures forall v :: v in OfSession(keys, interactions, sessionId) <==>
              v.sessionId == sessionId && exists k :: k in keys && interactions[k] == v
    decreases |keys|
  {
    if keys != [] {
      var init := keys[..|keys| - 1];
      OfSessionMembers(init, interactions, sessionId);
      assert forall k :: k in keys <==> k in init || k == keys[|keys| - 1];
    }
  }

  /** The keys, in order, of the interactions that do not belong to `sessionId`. */
  function KeysOfOthers(keys: seq<string>, interactions: map<string, VoiceInteraction>, sessionId: string): seq<string>
    requires forall k :: k in keys ==> k in interactions
    decreases |keys|
  {
    if keys == [] then []
    else
      KeysOfOthers(keys[..|keys| - 1], interactions, sessionId)
      + (if interactions[keys[|keys| - 1]].sessionId == sessionId then [] else [keys[|keys| - 1]])
  }

  /** The kept keys are exactly the keys of other sessions' interactions, each once. */
  lemma {:induction false} KeysOfOthersMembers(keys: seq<string>, interactions: map<string, VoiceInteraction>, sessionId: string)
    requires forall k :: k in keys ==> k in interactions
    ensures forall k :: k in KeysOfOthers(keys, interactions, sessionId) <==> k in keys && interactions[k].sessionId != sessionId
    ensures Distinct(keys) ==> Distinct(KeysOfOthers(keys, interactions, sessionId))
    decreases |keys|
  {
    if keys != [] {
      var init := keys[..|keys| - 1];
      KeysOfOthersMembers(init, interactions, sessionId);
      assert forall k :: k in keys <==> k in init || k == keys[|keys| - 1];
    }
  }

  /** Without interactions of `sessionId`, the cascade keeps every key and every interaction. */
  lemma {:induction false} NothingToCascade(keys: seq<string>, interactions: map<string, VoiceInteraction>, sessionId: string)
    requires forall k :: k in keys ==> k in interactions
    requires forall k :: k in interactions ==> interactions[k].sessionId != sessionId
    ensures KeysOfOthers(keys, interactions, sessionId) == keys
    ensures OthersOnly(interactions, sessionId) == interactions
    decreases |keys|
  {
    if keys != [] {
      NothingToCascade(keys[..|keys| - 1], interactions, sessionId);
      assert keys[..|keys| - 1] + [keys[|keys| - 1]] == keys;
    }
  }

  /** The interactions that remain once those of `sessionId` among `visited` are deleted one by one. */
  function DeleteOfSession(interactions: map<string, VoiceInteraction>, visited: seq<string>, sessionId: string): map<string, VoiceInteraction>
    requires forall k :: k in visited ==> k in interactions
    decreases |visited|
  {
    if visited == [] then interactions
    else
      var m := DeleteOfSession(interactions, visited[..|visited| - 1], sessionId);
      var key := visited[|visited| - 1];
      if interactions[key].sessionId == sessionId then m - {key} else m
  }

  /** The interactions of other sessions, unchanged. */
  function OthersOnly(interactions: map<string, VoiceInteraction>, sessionId: string): map<string, VoiceInteraction> {
    map k | k in interactions && interactions[k].sessionId != sessionId :: interactions[k]
  }

  /** Deleting key by key over all the keys leaves exactly the other sessions' interactions. */
  lemma {:induction false} DeleteOfSessionIsOthers(interactions: map<string, VoiceInteraction>, visited: seq<string>, sessionId: string)
    requires forall k :: k in visited ==> k in interactions
    ensures DeleteOfSession(interactions, visited, sessionId)
            == map k | k in interactions && !(k in visited && interactions[k].sessionId == sessionId) :: interactions[k]
    decreases |visited|
  {
    if visited != [] {
      var init := visited[..|visited| - 1];
      DeleteOfSessionIsOthers(interactions, init, sessionId);
      assert forall k :: k in visited <==> k in init || k == visited[|visited| - 1];
    }
  }

  class MemStorage {
    var users: map<string, User>
    /** The keys of `users` in insertion order. */
    var userOrder: seq<string>
    var chatSessions: map<string, ChatSession>
    var voiceInteractions: map<string, VoiceInteraction>
    /** The keys of `voiceInteractions` in insertion order. */
    var voiceOrder: seq<string>

    /** Each order lists its map's keys once; every record is stored under its own id. */
    ghost predicate Valid()
      reads this
    {
      && Distinct(userOrder)
      && (forall k :: k in userOrder <==> k in users)
      && (forall k :: k in users ==> users[k].id == k)
      && (forall k :: k in chatSessions ==> chatSessions[k].id == k)
      && Distinct(voiceOrder)
      && (forall k :: k in voiceOrder <==> k in voiceInteractions)
      && (forall k :: k in voiceInteractions ==> voiceInteractions[k].id == k)
    }

    constructor ()
      ensures Valid()
      ensures users == map[] && userOrder == [] && chatSessions == map[] && voiceInteractions == map[] && voiceOrder == []
    {
      users := map[];
      userOrder := [];
      chatSessions := map[];
      voiceInteractions := map[];
      voiceOrder := [];
    }

    /** `getUser(id)`. */
    method GetUser(id: string) returns (r: Option<User>)
      ensures r.Some? <==> id in users
      ensures r.Some? ==> r.value == users[id]
    {
      r := if id in users then Some(users[id]) else None;
    }

    /** `getUserByUsername(username)`: the first user with that name in insertion order, if any. */
    method GetUserByUsername(username: string) returns (r: Option<User>)
      requires Valid()
      ensures r == FirstNamed(userOrder, users, username)
    {
      var i := 0;
      while i < |userOrder|
        invariant 0 <= i <= |userOrder|
        invariant FirstNamed(userOrder, users, username) == FirstNamed(userOrder[i..], users, username)
      {
        var user := users[userOrder[i]];
        assert userOrder[i..][1..] == userOrder[i + 1..];
        if user.username == username {
          return Some(user);
        }
        i := i + 1;
      }
      return None;
    }

    /** `createUser(insertUser)`: the new user is stored under the fresh id. */
    method CreateUser(insertUser: InsertUser, freshId: string) returns (user: User)
      requires Valid() && freshId !in users
      modifies this
      ensures Valid()
      ensures user == User(freshId, insertUser.username, insertUser.password)
      ensures users == old(users)[freshId := user] && userOrder == old(userOrder) + [freshId]
      ensures chatSessions == old(chatSessions) && voiceInteractions == old(voiceInteractions) && voiceOrder == old(voiceOrder)
    {
      user := User(freshId, insertUser.username, insertUser.password);
      users := users[freshId := user];
      userOrder := userOrder + [freshId];
    }

    /** `createChatSession(mode, userId)`: empty messages, both timestamps `now`, a missing or empty user id stored as null. */
    method CreateChatSession(mode: string, userId: Option<string>, freshId: string, now: int) returns (session: ChatSession)
      requires Valid() && freshId !in chatSessions
      modifies this
      ensures Valid()
      ensures session == ChatSession(freshId, if userId.Some? && userId.value != "" then userId else None, mode, Some([]), Some(now), Some(now))
      ensures chatSessions == old(chatSessions)[freshId := session]
      ensures users == old(users) && userOrder == old(userOrder)
      ensures voiceInteractions == old(voiceInteractions) && voiceOrder == old(voiceOrder)
    {
      var owner := if userId.Some? && userId.value != "" then userId else None;
      session := ChatSession(freshId, owner, mode, Some([]), Some(now), Some(now));
      chatSessions := chatSessions[freshId := session];
    }

    /** `getChatSession(id)`. */
    method GetChatSession(id: string) returns (r: Option<ChatSession>)
      ensures r.Some? <==> id in chatSessions
      ensures r.Some? ==> r.value == chatSessions[id]
    {
      r := if id in chatSessions then Some(chatSessions[id]) else None;
    }

    /**
     * `updateChatSession(id, messages)`: replaces the message list wholesale
     * and refreshes `updatedAt`; an unknown id gives undefined and no change.
     */
    method UpdateChatSession(id: string, messages: seq<ChatMessage>, now: int) returns (r: Option<ChatSession>)
      requires Valid()
      modifies this
      ensures Valid()
      ensures id !in old(chatSessions) ==> r == None && chatSessions == old(chatSessions)
      ensures id in old(chatSessions) ==>
                && r == Some(old(chatSessions)[id].(messages := Some(messages), updatedAt := Some(now)))
                && chatSessions == old(chatSessions)[id := r.value]
      ensures users == old(users) && userOrder == old(userOrder)
      ensures voiceInteractions == old(voiceInteractions) && voiceOrder == old(voiceOrder)
    {
      if id !in chatSessions {
        return None;
      }
      var updatedSession := chatSessions[id].(messages := Some(messages), updatedAt := Some(now));
      chatSessions := chatSessions[id := updatedSession];
      r := Some(updatedSession);
    }

    /**
     * `deleteChatSession(id)`: removes the session and, visiting the
     * interactions in insertion order, every interaction of that session;
     * the other interactions stay, in their order.
     */
    method DeleteChatSession(id: string)
      requires Valid()
      modifies this
      ensures Valid()
      ensures chatSessions == old(chatSessions) - {id}
      ensures voiceInteractions == OthersOnly(old(voiceInteractions), id)
      ensures voiceOrder == KeysOfOthers(old(voiceOrder), old(voiceInteractions), id)
      ensures users == old(users) && userOrder == old(userOrder)
    {
      chatSessions := chatSessions - {id};
      var keys := voiceOrder;
      var remaining, kept := DropSession(keys, voiceInteractions, id);
      KeysOfOthersMembers(keys, voiceInteractions, id);
      voiceInteractions := remaining;
      voiceOrder := kept;
    }

    /** `createVoiceInteraction(interaction)`: stored under the fresh id with `createdAt` now; nothing else changes. */
    method CreateVoiceInteraction(interaction: NewVoiceInteraction, freshId: string, now: int) returns (v: VoiceInteraction)
      requires Valid() && freshId !in voiceInteractions
      modifies this
      ensures Valid()
      ensures v == VoiceInteraction(freshId, interaction.sessionId, interaction.audioUrl, interaction.transcription,
                                    interaction.language, Some(now))
      ensures voiceInteractions == old(voiceInteractions)[freshId := v] && voiceOrder == old(voiceOrder) + [freshId]
      ensures users == old(users) && userOrder == old(userOrder) && chatSessions == old(chatSessions)
    {
      v := VoiceInteraction(freshId, interaction.sessionId, interaction.audioUrl, interaction.transcription,
                            interaction.language, Some(now));
      voiceInteractions := voiceInteractions[freshId := v];
      voiceOrder := voiceOrder + [freshId];
    }

    /**
     * `getVoiceInteractions(sessionId)`: the session's interactions, sorted by
     * ascending `createdAt` (a missing date counting as 0).
     */
    method GetVoiceInteractions(sessionId: string) returns (r: seq<VoiceInteraction>)
      requires Valid()
      ensures r == SortByTime(OfSession(voiceOrder, voiceInteractions, sessionId))
    {
      var matching: seq<VoiceInteraction> := [];
      var i := 0;
      while i < |voiceOrder|
        invariant 0 <= i <= |voiceOrder|
        invariant matching == OfSession(voiceOrder[..i], voiceInteractions, sessionId)
      {
        assert voiceOrder[..i + 1][..i] == voiceOrder[..i];
        var interaction := voiceInteractions[voiceOrder[i]];
        if interaction.sessionId == sessionId {
          matching := matching + [interaction];
        }
        i := i + 1;
      }
      assert voiceOrder[..|voiceOrder|] == voiceOrder;
      r := SortByTime(matching);
    }
  }

  /**
   * The `filter(…).forEach(delete)` of `deleteChatSession`: visits the keys in
   * order and deletes every interaction of `sessionId`.
   */
  method DropSession(keys: seq<string>, interactions: map<string, VoiceInteraction>, sessionId: string)
      returns (remaining: map<string, VoiceInteraction>, kept: seq<string>)
    requires forall k :: k in keys <==> k in interactions
    ensures remaining == OthersOnly(interactions, sessionId)
    ensures kept == KeysOfOthers(keys, interactions, sessionId)
  {
    remaining := interactions;
    kept := [];
    var i := 0;
    while i < |keys|
      invariant 0 <= i <= |keys|
      invariant remaining == DeleteOfSession(interactions, keys[..i], sessionId)
      invariant kept == KeysOfOthers(keys[..i], interactions, sessionId)
    {
      var key := keys[i];
      assert keys[..i + 1][..i] == keys[..i];
      if interactions[key].sessionId == sessionId {
        remaining := remaining - {key};
      } else {
        kept := kept + [key];
      }
      i := i + 1;
    }
    assert keys[..|keys|] == keys;
    DeleteOfSessionIsOthers(interactions, keys, sessionId);
    assert (map k | k in interactions && !(k in keys && interactions[k].sessionId == sessionId) :: interactions[k])
           == OthersOnly(interactions, sessionId);
  }

  /**
   * What `getVoiceInteractions(sessionId)` lists: sorted by time, and exactly
   * the stored interactions of that session, each as often as it is stored.
   */
  lemma VoiceInteractionsSpec(store: MemStorage, sessionId: string)
    requires store.Valid()
    ensures SortedByTime(SortByTime(OfSession(store.voiceOrder, store.voiceInteractions, sessionId)))
    ensures forall v :: v in SortByTime(OfSession(store.voiceOrder, store.voiceInteractions, sessionId)) <==>
              v.sessionId == sessionId && v.id in store.voiceInteractions && store.voiceInteractions[v.id] == v
    ensures forall v :: multiset(SortByTime(OfSession(store.voiceOrder, store.voiceInteractions, sessionId)))[v] ==
              if v.sessionId == sessionId && v.id in store.voiceInteractions && store.voiceInteractions[v.id] == v then 1 else 0
  {
    var s := OfSession(store.voiceOrder, store.voiceInteractions, sessionId);
    SortByTimeIsSorted(s);
    OfSessionMembers(store.voiceOrder, store.voiceInteractions, sessionId);
    forall v ensures v in SortByTime(s) <==> v in s {
      assert v in SortByTime(s) <==> v in multiset(SortByTime(s));
    }
    forall v ensures multiset(SortByTime(s))[v] ==
                     if v.sessionId == sessionId && v.id in store.voiceInteractions && store.voiceInteractions[v.id] == v then 1 else 0 {
      OfSessionCounts(store.voiceOrder, store.voiceInteractions, sessionId, v);
    }
  }

  /**
   * With distinct keys that are the interactions' own ids, `OfSession` lists
   * each interaction of the session exactly once and nothing else.
   */
  lemma {:induction false} OfSessionCounts(keys: seq<string>, interactions: map<string, VoiceInteraction>,
                                          sessionId: string, v: VoiceInteraction)
    requires forall k :: k in keys ==> k in interactions
    requires Distinct(keys) && forall k :: k in keys ==> interactions[k].id == k
    ensures multiset(OfSession(keys, interactions, sessionId))[v] ==
            if v.sessionId == sessionId && v.id in keys && interactions[v.id] == v then 1 else 0
    decreases |keys|
  {
    if keys != [] {
      var n := |keys| - 1;
      var init, k := keys[..n], keys[n];
      assert keys == init + [k];
      assert forall i :: 0 <= i < n ==> init[i] == keys[i];
      OfSessionCounts(init, interactions, sessionId, v);
      if v.id == k {
        assert k !in init;
      }
    }
  }

  /** A user just created is found by its id. */
  method CreateThenGetUser(store: MemStorage, insertUser: InsertUser, freshId: string) returns (found: Option<User>)
    requires store.Valid() && freshId !in store.users
    modifies store
    ensures found == Some(User(freshId, insertUser.username, insertUser.password))
  {
    var user := store.CreateUser(insertUser, freshId);
    found := store.GetUser(freshId);
  }
}
