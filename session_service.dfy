/**
 * The in-memory session store of the Express backend
 * (backend/src/services/sessionService.ts). The JavaScript `Map` is a map
 * together with the insertion order of its keys, in which `entries()` and
 * `values()` visit them. Session ids and the clock (milliseconds) are
 * parameters; a fresh id must not already be a key.
 */
module Sessions {
  import opened Wrappers
  import opened Conversation

  /** `OpenAIMessage['role']`. */
  datatype Role = SystemRole | UserRole | AssistantRole

  /** `OpenAIMessage`. */
  datatype OpenAIMessage = OpenAIMessage(role: Role, content: string)

  /** `SessionData`. */
  datatype SessionData = SessionData(
    sessionId: string,
    messages: seq<OpenAIMessage>,
    currentMode: Mode,
    createdAt: int,
    updatedAt: int)

  /** What `getSessionStats` reports. */
  datatype SessionStats = SessionStats(totalSessions: nat, activeSessions: nat, totalMessages: nat, timestamp: int)

  /** What `exportSessionData` reports for a known session. */
  datatype SessionExport = SessionExport(
    sessionId: string,
    messageCount: nat,
    currentMode: Mode,
    createdAt: int,
    updatedAt: int,
    lastMessage: Option<OpenAIMessage>)

  /** The staleness threshold: one hour in milliseconds. */
  const OneHour: int := 60 * 60 * 1000

  /** The sweep's predicate: the session was last updated more than an hour before `now`. */
  predicate IsStale(s: SessionData, now: int) {
    s.updatedAt < now - OneHour
  }

  /** `keys` without `id`, the others in their order: what deleting a `Map` key leaves of its iteration order. */
  function Without(keys: seq<string>, id: string): seq<string>
    decreases |keys|
  {
    if keys == [] then []
    else Without(keys[..|keys| - 1], id) + (if keys[|keys| - 1] == id then [] else [keys[|keys| - 1]])
  }

  /** `Without` drops exactly `id` and keeps distinct keys distinct. */
  lemma {:induction false} WithoutMembers(keys: seq<string>, id: string)
    ensures forall k :: k in Without(keys, id) <==> k in keys && k != id
    ensures Distinct(keys) ==> Distinct(Without(keys, id))
    decreases |keys|
  {
    if keys != [] {
      var init := keys[..|keys| - 1];
      WithoutMembers(init, id);
      assert forall k :: k in keys <==> k in init || k == keys[|keys| - 1];
      if Distinct(keys) {
        assert Distinct(init);
        assert keys[|keys| - 1] !in init;
      }
    }
  }

  /** Number of sessions, among `keys`, that the sweep at `now` keeps (`getSessionStats`' active count). */
  function CountActive(keys: seq<string>, sessions: map<string, SessionData>, now: int): nat
    requires forall k :: k in keys ==> k in sessions
    decreases |keys|
  {
    if keys == [] then 0
    else CountActive(keys[..|keys| - 1], sessions, now) + (if IsStale(sessions[keys[|keys| - 1]], now) then 0 else 1)
  }

  /** Number of sessions, among `keys`, that the sweep at `now` removes. */
  function CountStale(keys: seq<string>, sessions: map<string, SessionData>, now: int): nat
    requires forall k :: k in keys ==> k in sessions
    decreases |keys|
  {
    if keys == [] then 0
    else CountStale(keys[..|keys| - 1], sessions, now) + (if IsStale(sessions[keys[|keys| - 1]], now) then 1 else 0)
  }

  /** The keys, in order, whose sessions the sweep at `now` keeps. */
  function KeepFresh(keys: seq<string>, sessions: map<string, SessionData>, now: int): seq<string>
    requires forall k :: k in keys ==> k in sessions
    decreases |keys|
  {
    if keys == [] then []
    else KeepFresh(keys[..|keys| - 1], sessions, now) + (if IsStale(sessions[keys[|keys| - 1]], now) then [] else [keys[|keys| - 1]])
  }

  /** Sum of the message counts of the sessions under `keys`. */
  function TotalMessages(keys: seq<string>, sessions: map<string, SessionData>): nat
    requires forall k :: k in keys ==> k in sessions
    decreases |keys|
  {
    if keys == [] then 0
    else TotalMessages(keys[..|keys| - 1], sessions) + |sessions[keys[|keys| - 1]].messages|
  }

  /** The sessions the sweep at `now` keeps, unchanged. */
  function FreshSessions(sessions: map<string, SessionData>, now: int): map<string, SessionData> {
    map k | k in sessions && !IsStale(sessions[k], now) :: sessions[k]
  }

  /** Every session is either active or stale: the two counts add up to the number of keys. */
  lemma {:induction false} ActivePlusStale(keys: seq<string>, sessions: map<string, SessionData>, now: int)
    requires forall k :: k in keys ==> k in sessions
    ensures CountActive(keys, sessions, now) + CountStale(keys, sessions, now) == |keys|
    decreases |keys|
  {
    if keys != [] {
      ActivePlusStale(keys[..|keys| - 1], sessions, now);
    }
  }

  /** The kept keys are exactly the fresh ones, in their original order, and there are as many as `CountActive` says. */
  lemma {:induction false} KeepFreshMembers(keys: seq<string>, sessions: map<string, SessionData>, now: int)
    requires forall k :: k in keys ==> k in sessions
    ensures forall k :: k in KeepFresh(keys, sessions, now) <==> k in keys && !IsStale(sessions[k], now)
    ensures |KeepFresh(keys, sessions, now)| == CountActive(keys, sessions, now)
    ensures Distinct(keys) ==> Distinct(KeepFresh(keys, sessions, now))
    decreases |keys|
  {
    if keys != [] {
      var init := keys[..|keys| - 1];
      KeepFreshMembers(init, sessions, now);
      assert forall k :: k in keys <==> k in init || k == keys[|keys| - 1];
    }
  }

  /** Every session left after a sweep at `now` counts as active at `now`. */
  lemma {:induction false} SweptAreAllActive(keys: seq<string>, sessions: map<string, SessionData>, now: int)
    requires forall k :: k in keys ==> k in sessions && !IsStale(sessions[k], now)
    ensures CountActive(keys, sessions, now) == |keys|
    decreases |keys|
  {
    if keys != [] {
      SweptAreAllActive(keys[..|keys| - 1], sessions, now);
    }
  }

  /** Counting over the same keys gives the same result in two maps that agree on those keys. */
  lemma {:induction false} CountActiveFrame(keys: seq<string>, a: map<string, SessionData>, b: map<string, SessionData>, now: int)
    requires forall k :: k in keys ==> k in a && k in b && a[k] == b[k]
    ensures CountActive(keys, a, now) == CountActive(keys, b, now)
    decreases |keys|
  {
    if keys != [] {
      CountActiveFrame(keys[..|keys| - 1], a, b, now);
    }
  }

  /** The map after the sweep has visited the keys `visited`. */
  function SweptUpTo(sessions: map<string, SessionData>, visited: seq<string>, now: int): map<string, SessionData> {
    map k | k in sessions && !(k in visited && IsStale(sessions[k], now)) :: sessions[k]
  }

  /** The map after deleting, key by key, the stale sessions among `visited`. */
  function DeleteStale(sessions: map<string, SessionData>, visited: seq<string>, now: int): map<string, SessionData>
    requires forall k :: k in visited ==> k in sessions
    decreases |visited|
  {
    if visited == [] then sessions
    else
      var m := DeleteStale(sessions, visited[..|visited| - 1], now);
      var id := visited[|visited| - 1];
      if IsStale(sessions[id], now) then m - {id} else m
  }

  /** Deleting one key at a time removes exactly the stale sessions among the visited keys. */
  lemma {:induction false} DeleteStaleIsSwept(sessions: map<string, SessionData>, visited: seq<string>, now: int)
    requires forall k :: k in visited ==> k in sessions
    ensures DeleteStale(sessions, visited, now) == SweptUpTo(sessions, visited, now)
    decreases |visited|
  {
    if visited != [] {
      var init := visited[..|visited| - 1];
      DeleteStaleIsSwept(sessions, init, now);
      assert forall k :: k in visited <==> k in init || k == visited[|visited| - 1];
    }
  }

  /** After visiting every key, the swept map is the fresh part and the kept keys are its key order. */
  lemma SweepResult(keys: seq<string>, sessions: map<string, SessionData>, now: int)
    requires Distinct(keys)
    requires forall k :: k in keys <==> k in sessions
    requires forall k :: k in sessions ==> sessions[k].sessionId == k
    ensures SweptUpTo(sessions, keys, now) == FreshSessions(sessions, now)
    ensures Distinct(KeepFresh(keys, sessions, now))
    ensures forall k :: k in KeepFresh(keys, sessions, now) <==> k in FreshSessions(sessions, now)
    ensures forall k :: k in FreshSessions(sessions, now) ==> FreshSessions(sessions, now)[k].sessionId == k
  {
    KeepFreshMembers(keys, sessions, now);
  }

  /** A sequence of distinct keys has as many elements as its set of keys. */
  lemma {:induction false} DistinctCardinality(keys: seq<string>)
    requires Distinct(keys)
    ensures |set k | k in keys| == |keys|
    decreases |keys|
  {
    if keys != [] {
      var init := keys[..|keys| - 1];
      var last := keys[|keys| - 1];
      DistinctCardinality(init);
      assert (set k | k in keys) == (set k | k in init) + {last};
      assert last !in init;
    }
  }

  /**
   * The loop of `cleanupOldSessions`: visits the keys in order and deletes
   * every stale session, counting the deletions.
   */
  method Sweep(keys: seq<string>, sessions: map<string, SessionData>, now: int)
      returns (remaining: map<string, SessionData>, kept: seq<string>, deletedCount: nat)
    requires Distinct(keys)
    requires forall k :: k in keys <==> k in sessions
    ensures remaining == FreshSessions(sessions, now)
    ensures kept == KeepFresh(keys, sessions, now)
    ensures deletedCount == CountStale(keys, sessions, now)
  {
    remaining := sessions;
    kept := [];
    deletedCount := 0;
    var i := 0;
    while i < |keys|
      invariant 0 <= i <= |keys|
      invariant remaining == DeleteStale(sessions, keys[..i], now)
      invariant kept == KeepFresh(keys[..i], sessions, now)
      invariant deletedCount == CountStale(keys[..i], sessions, now)
    {
      var id := keys[i];
      assert keys[..i + 1][..i] == keys[..i];
      if IsStale(sessions[id], now) {
        remaining := remaining - {id};
        deletedCount := deletedCount + 1;
      } else {
        kept := kept + [id];
      }
      i := i + 1;
    }
    assert keys[..|keys|] == keys;
    DeleteStaleIsSwept(sessions, keys, now);
    assert SweptUpTo(sessions, keys, now) == FreshSessions(sessions, now);
  }

  class SessionService {
    /** `sessions`, keyed by session id. */
    var sessions: map<string, SessionData>
    /** The keys of `sessions` in insertion order, as the JavaScript `Map` iterates them. */
    var order: seq<string>

    /** The key order lists every key once; each session is stored under its own id. */
    ghost predicate Valid()
      reads this
    {
      && Distinct(order)
      && (forall k :: k in order <==> k in sessions)
      && (forall k :: k in sessions ==> sessions[k].sessionId == k)
    }

    /** Under `Valid`, the map holds exactly as many sessions as there are keys in the order. */
    lemma SizeIsOrderLength()
      requires Valid()
      ensures |sessions| == |order|
    {
      DistinctCardinality(order);
      assert sessions.Keys == set k | k in order;
    }

    constructor ()
      ensures Valid()
      ensures sessions == map[] && order == []
    {
      sessions := map[];
      order := [];
    }

    /** `createSession(initialMode)`: a new session under `id`, with no messages and both timestamps `now`. */
    method CreateSession(id: string, now: int, initialMode: Mode := Guide) returns (s: SessionData)
      requires Valid() && id !in sessions
      modifies this
      ensures Valid()
      ensures s == SessionData(id, [], initialMode, now, now)
      ensures sessions == old(sessions)[id := s]
      ensures order == old(order) + [id]
    {
      s := SessionData(id, [], initialMode, now, now);
      sessions := sessions[id := s];
      order := order + [id];
    }

    /** `getSession(id)`. */
    method GetSession(id: string) returns (r: Option<SessionData>)
      ensures id in sessions <==> r.Some?
      ensures r.Some? ==> r.value == sessions[id]
    {
      r := if id in sessions then Some(sessions[id]) else None;
    }

    /** `hasSession(id)`. */
    method HasSession(id: string) returns (b: bool)
      ensures b <==> id in sessions
    {
      b := id in sessions;
    }

    /**
     * `addMessage(id, message)`: appends at the end and refreshes `updatedAt`;
     * for an unknown id it returns null and changes nothing.
     */
    method AddMessage(id: string, message: OpenAIMessage, now: int) returns (r: Option<SessionData>)
      requires Valid()
      modifies this
      ensures Valid() && order == old(order)
      ensures id !in old(sessions) ==> r == None && sessions == old(sessions)
      ensures id in old(sessions) ==>
                && r == Some(old(sessions)[id].(messages := old(sessions)[id].messages + [message], updatedAt := now))
                && sessions == old(sessions)[id := r.value]
    {
      if id !in sessions {
        return None;
      }
      var session := sessions[id];
      session := session.(messages := session.messages + [message]);
      session := session.(updatedAt := now);
      sessions := sessions[id := session];
      r := Some(session);
    }

    /** `updateMode(id, mode)`: changes only `currentMode` and `updatedAt`; null for an unknown id. */
    method UpdateMode(id: string, mode: Mode, now: int) returns (r: Option<SessionData>)
      requires Valid()
      modifies this
      ensures Valid() && order == old(order)
      ensures id !in old(sessions) ==> r == None && sessions == old(sessions)
      ensures id in old(sessions) ==>
                && r == Some(old(sessions)[id].(currentMode := mode, updatedAt := now))
                && sessions == old(sessions)[id := r.value]
    {
      if id !in sessions {
        return None;
      }
      var session := sessions[id];
      session := session.(currentMode := mode, updatedAt := now);
      sessions := sessions[id := session];
      r := Some(session);
    }

    /** `getMessageHistory(id)`: the messages in order, or [] for an unknown id. */
    method GetMessageHistory(id: string) returns (h: seq<OpenAIMessage>)
      ensures id in sessions ==> h == sessions[id].messages
      ensures id !in sessions ==> h == []
    {
      h := if id in sessions then sessions[id].messages else [];
    }

    /**
     * `clearSession(id)`: empties the messages but keeps the session, its id
     * and its mode; false for an unknown id.
     */
    method ClearSession(id: string, now: int) returns (ok: bool)
      requires Valid()
      modifies this
      ensures Valid() && order == old(order)
      ensures ok <==> id in old(sessions)
      ensures !ok ==> sessions == old(sessions)
      ensures ok ==> sessions == old(sessions)[id := old(sessions)[id].(messages := [], updatedAt := now)]
    {
      if id !in sessions {
        return false;
      }
      var session := sessions[id];
      session := session.(messages := [], updatedAt := now);
      sessions := sessions[id := session];
      ok := true;
    }

    /** `deleteSession(id)`: true iff the id was present; afterwards it is absent and nothing else changed. */
    method DeleteSession(id: string) returns (deleted: bool)
      requires Valid()
      modifies this
      ensures Valid()
      ensures deleted <==> id in old(sessions)
      ensures sessions == old(sessions) - {id}
      ensures order == Without(old(order), id)
    {
      deleted := id in sessions;
      sessions := sessions - {id};
      var kept: seq<string> := [];
      var i := 0;
      while i < |order|
        invariant 0 <= i <= |order|
        invariant kept == Without(order[..i], id)
      {
        assert order[..i + 1][..i] == order[..i];
        if order[i] != id {
          kept := kept + [order[i]];
        }
        i := i + 1;
      }
      assert order[..|order|] == order;
      WithoutMembers(order, id);
      order := kept;
    }

    /**
     * `cleanupOldSessions()` at `now`: removes exactly the sessions last
     * updated more than an hour ago, keeps the others unchanged and in order,
     * and returns how many it removed.
     */
    method CleanupOldSessions(now: int) returns (deletedCount: nat)
      requires Valid()
      modifies this
      ensures Valid()
      ensures sessions == FreshSessions(old(sessions), now)
      ensures order == KeepFresh(old(order), old(sessions), now)
      ensures deletedCount == CountStale(old(order), old(sessions), now)
    {
      var remaining, kept;
      remaining, kept, deletedCount := Sweep(order, sessions, now);
      SweepResult(order, sessions, now);
      sessions := remaining;
      order := kept;
    }

    /**
     * `getSessionStats()` at `now`: the number of sessions, how many were
     * updated within the last hour, and the total number of messages.
     */
    method GetSessionStats(now: int) returns (stats: SessionStats)
      requires Valid()
      ensures stats.totalSessions == |sessions|
      ensures stats.activeSessions == CountActive(order, sessions, now)
      ensures stats.totalMessages == TotalMessages(order, sessions)
      ensures stats.timestamp == now
    {
      var activeSessions := 0;
      var totalMessages := 0;
      var i := 0;
      while i < |order|
        invariant 0 <= i <= |order|
        invariant activeSessions == CountActive(order[..i], sessions, now)
        invariant totalMessages == TotalMessages(order[..i], sessions)
      {
        assert order[..i + 1][..i] == order[..i];
        var session := sessions[order[i]];
        if session.updatedAt >= now - OneHour {
          activeSessions := activeSessions + 1;
        }
        totalMessages := totalMessages + |session.messages|;
        i := i + 1;
      }
      assert order[..|order|] == order;
      stats := SessionStats(|sessions|, activeSessions, totalMessages, now);
    }

    /** `exportSessionData(id)`: null for an unknown id; `lastMessage` is null iff there are no messages. */
    method ExportSessionData(id: string) returns (r: Option<SessionExport>)
      ensures r.Some? <==> id in sessions
      ensures r.Some? ==> && r.value.sessionId == sessions[id].sessionId
                          && r.value.messageCount == |sessions[id].messages|
                          && r.value.currentMode == sessions[id].currentMode
                          && r.value.createdAt == sessions[id].createdAt
                          && r.value.updatedAt == sessions[id].updatedAt
      ensures r.Some? ==> (r.value.lastMessage.None? <==> sessions[id].messages == [])
      ensures r.Some? && r.value.lastMessage.Some? ==>
                r.value.lastMessage.value == sessions[id].messages[|sessions[id].messages| - 1]
    {
      if id !in sessions {
        return None;
      }
      var session := sessions[id];
      var last := if |session.messages| > 0 then Some(session.messages[|session.messages| - 1]) else None;
      r := Some(SessionExport(session.sessionId, |session.messages|, session.currentMode,
                              session.createdAt, session.updatedAt, last));
    }
  }

  /**
   * The sweep and the statistics agree: a sweep at `now` removes as many
   * sessions as the statistics at `now` count as inactive, and afterwards
   * every remaining session is active.
   */
  method SweepMatchesStats(store: SessionService, now: int) returns (removed: nat, stats: SessionStats)
    requires store.Valid()
    modifies store
    ensures store.Valid()
    ensures removed + stats.activeSessions == old(|store.sessions|)
    ensures stats.activeSessions == stats.totalSessions
  {
    ghost var keys := store.order;
    ghost var before := store.sessions;
    store.SizeIsOrderLength();
    removed := store.CleanupOldSessions(now);
    stats := store.GetSessionStats(now);
    KeepFreshMembers(keys, before, now);
    ActivePlusStale(keys, before, now);
    SweptAreAllActive(store.order, store.sessions, now);
    store.SizeIsOrderLength();
  }
}
