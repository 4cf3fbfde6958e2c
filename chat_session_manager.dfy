/**
 * services/chatSessionManager.js: the registry from channel to ChatSession.
 * A JavaScript Map remembers insertion order; `order` holds that order.
 * Eviction removes the first-inserted key (FIFO): reading a session does not
 * move it, and re-setting an existing key keeps its place.
 */
module SessionManager {
  import opened Common
  import opened ChatSessions

  const MAX_SESSIONS: int := 100

  /** The map's key order after `getSession(key)`. */
  function GetSessionOrder(order: seq<string>, key: string, max: int): (r: seq<string>)
    ensures key in order ==> r == order
    ensures key !in order ==> |r| >= 1 && r[|r| - 1] == key
    ensures key !in order && |order| >= max && |order| > 0 ==> r == order[1..] + [key]
    ensures key !in order && |order| < max ==> r == order + [key]
  {
    if key in order then order
    else (if |order| >= max && |order| > 0 then order[1..] else order) + [key]
  }

  /** `getSession` on a sequence of keys, one after the other. */
  function GetSessionsOrder(order: seq<string>, keys: seq<string>, max: int): seq<string>
    decreases |keys|
  {
    if keys == [] then order else GetSessionsOrder(GetSessionOrder(order, keys[0], max), keys[1..], max)
  }

  /** On a new key, the registry order is a bounded buffer of keys. */
  lemma NewKeyIsBoundedAppend(order: seq<string>, key: string, max: int)
    requires key !in order && max >= 1 && |order| <= max
    ensures GetSessionOrder(order, key, max) == BoundedAppend(order, key, max)
  {
    if |order| == max {
      assert (order + [key])[1..] == order[1..] + [key];
    }
  }

  /** A key order stays bounded across getSession calls when it starts bounded. */
  lemma GetSessionKeepsBound(order: seq<string>, key: string, max: int)
    requires |order| <= max
    ensures |GetSessionOrder(order, key, max)| <= (if max < 1 then 1 else max)
  {
  }

  lemma NoDuplicatesSuffix<T>(s: seq<T>, k: nat)
    requires NoDuplicates(s) && k <= |s|
    ensures NoDuplicates(s[k..])
  {
    forall i, j | 0 <= i < j < |s[k..]| ensures s[k..][i] != s[k..][j] {
      assert s[k..][i] == s[k + i] && s[k..][j] == s[k + j];
    }
  }

  lemma FirstKeyIsNew(order: seq<string>, keys: seq<string>)
    requires NoDuplicates(order + keys) && keys != []
    ensures keys[0] !in order
  {
    forall i | 0 <= i < |order| ensures order[i] != keys[0] {
      assert (order + keys)[i] == order[i] && (order + keys)[|order|] == keys[0];
    }
  }

  lemma DistinctAfterAppend(order: seq<string>, keys: seq<string>, max: int)
    requires NoDuplicates(order + keys) && keys != []
    ensures NoDuplicates(BoundedAppend(order, keys[0], max) + keys[1..])
  {
    var order' := BoundedAppend(order, keys[0], max);
    assert order + keys == (order + [keys[0]]) + keys[1..];
    var drop := |order + [keys[0]]| - |order'|;
    assert order' + keys[1..] == (order + keys)[drop..];
    NoDuplicatesSuffix(order + keys, drop);
  }

  /**
   * FIFO across many channels: starting within capacity, a run of distinct new
   * channels leaves exactly the most recently created min(total, max) keys,
   * in creation order. The earliest ones are the ones evicted.
   */
  lemma {:induction false} DistinctKeysKeepMostRecent(order: seq<string>, keys: seq<string>, max: int)
    requires max >= 1 && |order| <= max
    requires NoDuplicates(order + keys)
    ensures GetSessionsOrder(order, keys, max) == Last(order + keys, max)
    decreases |keys|
  {
    if keys == [] {
      assert order + keys == order;
    } else {
      var k := keys[0];
      FirstKeyIsNew(order, keys);
      NewKeyIsBoundedAppend(order, k, max);
      var order' := BoundedAppend(order, k, max);
      DistinctAfterAppend(order, keys, max);
      calc {
        GetSessionsOrder(order, keys, max);
        GetSessionsOrder(order', keys[1..], max);
        { DistinctKeysKeepMostRecent(order', keys[1..], max); }
        Last(order' + keys[1..], max);
        { LastOfLast(order + [k], keys[1..], max); }
        Last(order + [k] + keys[1..], max);
        { assert order + [k] + keys[1..] == order + keys; }
        Last(order + keys, max);
      }
    }
  }

  /**
   * 101 distinct channels into an empty registry of 100: the first channel's
   * session is gone and the other 100 remain, in order.
   */
  lemma OverflowEvictsFirstChannel(keys: seq<string>)
    requires |keys| == MAX_SESSIONS + 1 && NoDuplicates(keys)
    ensures GetSessionsOrder([], keys, MAX_SESSIONS) == keys[1..]
    ensures keys[0] !in GetSessionsOrder([], keys, MAX_SESSIONS)
  {
    assert [] + keys == keys;
    DistinctKeysKeepMostRecent([], keys, MAX_SESSIONS);
    FirstNotInTail(keys);
  }

  /** `order` without `key`: what `Map.delete` does to the insertion order. */
  function Without(order: seq<string>, key: string): (r: seq<string>)
    ensures forall k :: k in r <==> k in order && k != key
    ensures key !in order ==> r == order
    decreases |order|
  {
    if order == [] then []
    else if order[0] == key then Without(order[1..], key)
    else [order[0]] + Without(order[1..], key)
  }

  /** Deleting a key from a duplicate-free order keeps it duplicate-free and one shorter. */
  lemma {:induction false} WithoutDistinct(order: seq<string>, key: string)
    requires NoDuplicates(order)
    ensures NoDuplicates(Without(order, key))
    ensures key in order ==> |Without(order, key)| == |order| - 1
    decreases |order|
  {
    if order != [] {
      NoDuplicatesSuffix(order, 1);
      WithoutDistinct(order[1..], key);
      if order[0] != key {
        FirstNotInTail(order);
        var rest := Without(order[1..], key);
        assert order[0] !in rest;
        assert Without(order, key) == [order[0]] + rest;
      }
    }
  }

  /**
   * In a duplicate-free order, deleting the key at position i removes that one
   * position and keeps every other key where it was relative to the rest, so
   * the next FIFO eviction still takes the oldest remaining key.
   */
  lemma {:induction false} WithoutRemovesPosition(order: seq<string>, i: nat)
    requires NoDuplicates(order) && i < |order|
    ensures Without(order, order[i]) == order[..i] + order[i + 1..]
    decreases i
  {
    NoDuplicatesSuffix(order, 1);
    var tail := order[1..];
    if i == 0 {
      FirstNotInTail(order);
      assert Without(order, order[0]) == Without(tail, order[0]) == tail;
      assert order[..0] + order[1..] == tail;
    } else {
      var key := order[i];
      assert tail[i - 1] == key;
      WithoutRemovesPosition(tail, i - 1);
      assert order[0] != key;
      calc {
        Without(order, key);
        [order[0]] + Without(tail, key);
        [order[0]] + (tail[..i - 1] + tail[i..]);
        { ConsSplit(order, i); }
        order[..i] + order[i + 1..];
      }
    }
  }

  lemma FirstNotInTail(order: seq<string>)
    requires NoDuplicates(order) && |order| > 0
    ensures order[0] !in order[1..]
  {
    forall j | 0 <= j < |order[1..]| ensures order[1..][j] != order[0] {
      assert order[1..][j] == order[j + 1];
    }
  }

  lemma ConsSplit(order: seq<string>, i: nat)
    requires 1 <= i < |order|
    ensures [order[0]] + (order[1..][..i - 1] + order[1..][i..]) == order[..i] + order[i + 1..]
  {
    assert [order[0]] + order[1..][..i - 1] == order[..i];
    assert order[1..][i..] == order[i + 1..];
  }

  lemma DropFirstKeepsOthers(order: seq<string>)
    requires NoDuplicates(order) && |order| > 0
    ensures NoDuplicates(order[1..])
    ensures forall k :: k in order[1..] <==> k in order && k != order[0]
  {
    NoDuplicatesSuffix(order, 1);
    forall k ensures k in order[1..] <==> k in order && k != order[0] {
      if k in order[1..] {
        var i :| 0 <= i < |order[1..]| && order[1..][i] == k;
        assert order[i + 1] == k;
      }
    }
  }

  lemma AppendNewKey(order: seq<string>, key: string)
    requires NoDuplicates(order) && key !in order
    ensures NoDuplicates(order + [key])
    ensures forall k :: k in order + [key] <==> k in order || k == key
  {
  }

  /**
   * Admitting a new key: after the optional eviction of the first key and the
   * append, the key order is still duplicate-free and matches the map's keys,
   * and it is the order `GetSessionOrder` describes.
   */
  lemma AdmitKey<V>(sessions: map<string, V>, order: seq<string>, key: string, v: V, max: int)
    requires NoDuplicates(order) && (forall k :: k in sessions <==> k in order) && key !in sessions
    ensures var evict := |sessions| >= max && |order| > 0;
            var order' := (if evict then order[1..] else order) + [key];
            var sessions' := (if evict then sessions - {order[0]} else sessions)[key := v];
            NoDuplicates(order') && (forall k :: k in sessions' <==> k in order') &&
            order' == GetSessionOrder(order, key, max)
  {
    assert key !in order;
    DistinctCount(order, sessions.Keys);
    if |sessions| >= max && |order| > 0 {
      DropFirstKeepsOthers(order);
      AppendNewKey(order[1..], key);
    } else {
      AppendNewKey(order, key);
    }
  }

  /** A duplicate-free key list has as many keys as elements. */
  lemma {:induction false} DistinctCount(order: seq<string>, keys: set<string>)
    requires NoDuplicates(order)
    requires forall k :: k in keys <==> k in order
    ensures |keys| == |order|
    decreases |order|
  {
    if order != [] {
      var last := order[|order| - 1];
      var init := order[..|order| - 1];
      assert last !in init by {
        forall i | 0 <= i < |init| ensures init[i] != last {
          assert init[i] == order[i];
        }
      }
      assert forall k :: k in keys - {last} <==> k in init by {
        forall k ensures k in keys - {last} <==> k in init {
          assert order == init + [last];
        }
      }
      DistinctCount(init, keys - {last});
    }
  }

  /** `getSessionStats` result: `exists` plus the session's statistics (zeros if absent). */
  datatype SessionReport = SessionReport(sessionExists: bool, stats: SessionStats)

  /** One element of `getAllSessionsStats().sessions`. */
  datatype ChannelStats = ChannelStats(channelId: string, stats: SessionStats)

  datatype AllSessionsStats = AllSessionsStats(totalSessions: nat, maxSessions: int, sessions: seq<ChannelStats>)

  class ChatSessionManager {
    var sessions: map<string, ChatSession>
    /** The Map's insertion order of keys. */
    var order: seq<string>
    const maxSessions: int := MAX_SESSIONS

    ghost predicate Valid()
      reads this
    {
      NoDuplicates(order) && (forall k :: k in sessions <==> k in order)
    }

    constructor ()
      ensures Valid()
      ensures sessions == map[] && order == []
    {
      sessions := map[];
      order := [];
    }

    lemma SizeIsOrderLength()
      requires Valid()
      ensures |sessions| == |order|
    {
      DistinctCount(order, sessions.Keys);
    }

    /**
     * `getSession(channelId)`: an existing session is returned and nothing
     * changes; a missing one is created empty and appended last, after the
     * first-inserted key is evicted if the registry is full.
     */
    method GetSession(channelId: string) returns (s: ChatSession)
      requires Valid()
      modifies this
      ensures Valid()
      ensures channelId in sessions && s == sessions[channelId]
      ensures order == GetSessionOrder(old(order), channelId, maxSessions)
      ensures channelId in old(sessions) ==> sessions == old(sessions) && s == old(sessions[channelId])
      ensures channelId !in old(sessions) ==>
                fresh(s) && s.State() == SessionState(channelId, DEFAULT_MAX_HISTORY, []) &&
                sessions == (if |old(sessions)| >= maxSessions && |old(order)| > 0
                             then old(sessions) - {old(order)[0]} else old(sessions))[channelId := s]
      ensures |old(sessions)| <= maxSessions ==> |sessions| <= (if maxSessions < 1 then 1 else maxSessions)
    {
      SizeIsOrderLength();
      if |order| <= maxSessions {
        GetSessionKeepsBound(order, channelId, maxSessions);
      }
      if channelId !in sessions {
        var created := new ChatSession(channelId);
        AdmitKey(sessions, order, channelId, created, maxSessions);
        if |sessions| >= maxSessions && |order| > 0 {
          sessions := sessions - {order[0]};
          order := order[1..];
        }
        sessions := sessions[channelId := created];
        order := order + [channelId];
      }
      s := sessions[channelId];
      SizeIsOrderLength();
    }

    /** `removeSession(channelId)`: only that key goes; absent keys are a no-op. */
    method RemoveSession(channelId: string)
      requires Valid()
      modifies this
      ensures Valid()
      ensures sessions == old(sessions) - {channelId}
      ensures order == Without(old(order), channelId)
      ensures channelId !in old(sessions) ==> sessions == old(sessions) && order == old(order)
    {
      if channelId in sessions {
        sessions := sessions - {channelId};
        WithoutDistinct(order, channelId);
        order := Without(order, channelId);
      }
    }

    /** `clearAllSessions()`. */
    method ClearAllSessions()
      modifies this
      ensures Valid()
      ensures sessions == map[] && order == []
    {
      sessions := map[];
      order := [];
    }

    /** `getSessionStats(channelId)`: reads only; a missing key gives zeros and `exists: false`. */
    function GetSessionStats(channelId: string): (r: SessionReport)
      reads this, sessions.Values
      ensures r.sessionExists <==> channelId in sessions
      ensures channelId !in sessions ==> r.stats == SessionStats(0, 0, 0, [])
      ensures channelId in sessions ==> r.stats == StatsOf(sessions[channelId].history)
    {
      if channelId !in sessions then SessionReport(false, SessionStats(0, 0, 0, []))
      else SessionReport(true, sessions[channelId].Stats())
    }

    /** `getAllSessionsStats()`: one entry per session, in insertion order. */
    method GetAllSessionsStats() returns (r: AllSessionsStats)
      requires Valid()
      ensures r.totalSessions == |sessions| == |r.sessions|
      ensures r.maxSessions == maxSessions
      ensures |r.sessions| == |order|
      ensures forall i :: 0 <= i < |order| ==>
                r.sessions[i] == ChannelStats(order[i], StatsOf(sessions[order[i]].history))
    {
      var list: seq<ChannelStats> := [];
      var i := 0;
      while i < |order|
        invariant 0 <= i <= |order|
        invariant |list| == i
        invariant forall j :: 0 <= j < i ==> list[j] == ChannelStats(order[j], StatsOf(sessions[order[j]].history))
      {
        var key := order[i];
        var entry := ChannelStats(key, sessions[key].Stats());
        assert entry == ChannelStats(order[i], StatsOf(sessions[order[i]].history));
        list := list + [entry];
        i := i + 1;
      }
      SizeIsOrderLength();
      r := AllSessionsStats(|sessions|, maxSessions, list);
    }

    /** `exportSession(channelId)`: null for an absent key, else the portable form. */
    function ExportSession(channelId: string): (r: Option<SessionData>)
      reads this, sessions.Values
      ensures r.None? <==> channelId !in sessions
      ensures r.Some? ==> Restored(r.value) == sessions[channelId].State()
    {
      if channelId !in sessions then None else Some(sessions[channelId].ToJson())
    }

    /**
     * `importSession(jsonData)`. `parsed` is the outcome of `JSON.parse`. A parse
     * failure returns false and changes nothing; otherwise the restored session
     * is set under its own channel, creating or overwriting with no capacity
     * check, so the registry may exceed `maxSessions`.
     */
    method ImportSession(parsed: Result<SessionData>) returns (ok: bool)
      requires Valid()
      modifies this
      ensures Valid()
      ensures ok == parsed.Ok?
      ensures !ok ==> sessions == old(sessions) && order == old(order)
      ensures ok ==>
                var id := parsed.value.channelId;
                id in sessions && fresh(sessions[id]) && sessions[id].State() == Restored(parsed.value) &&
                sessions == old(sessions)[id := sessions[id]] &&
                order == ImportOrder(old(order), id)
    {
      if parsed.Err? {
        return false;
      }
      var s := ChatSession.FromJson(parsed.value);
      if s.channelId !in sessions {
        AppendNewKey(order, s.channelId);
        order := order + [s.channelId];
      }
      sessions := sessions[s.channelId := s];
      ok := true;
    }
  }

  /** The key order after `sessions.set(id, ...)`: a new key goes last, an existing one keeps its place. */
  function ImportOrder(order: seq<string>, id: string): (r: seq<string>)
    ensures id in order ==> r == order
    ensures id !in order ==> r == order + [id]
  {
    if id in order then order else order + [id]
  }

  /**
   * Import ignores the capacity: a new channel imported into a full registry
   * makes it overfull, where getSession on the same channel would have evicted.
   */
  lemma ImportCanExceedCapacity(order: seq<string>, id: string)
    requires |order| == MAX_SESSIONS && id !in order
    ensures |ImportOrder(order, id)| == MAX_SESSIONS + 1
    ensures |GetSessionOrder(order, id, MAX_SESSIONS)| == MAX_SESSIONS
    ensures GetSessionOrder(order, id, MAX_SESSIONS) == ImportOrder(order, id)[1..]
  {
  }
}
