/**
 * services/chatSession.js: one channel's bounded history of Gemini-shaped
 * turns, with the multi-turn send, the statistics view and the portable
 * (serialised) form.
 */
module ChatSessions {
  import opened Common

  const DEFAULT_MAX_HISTORY: int := 50
  /** Default of `getGeminiHistory(limit = 10)`. */
  const GEMINI_HISTORY_LIMIT: int := 10
  /** `getStats` previews this many of the latest turns. */
  const STATS_RECENT: int := 5

  /** A stored turn `{ role, parts: [{ text }], timestamp }`; the timestamp is opaque. */
  datatype HistoryEntry = HistoryEntry(role: string, text: string, timestamp: int)

  /** One line of `recentMessages`; the timestamp is kept unformatted. */
  datatype MessagePreview = MessagePreview(role: string, content: string, timestamp: int)

  datatype SessionStats = SessionStats(
    totalMessages: nat,
    userMessages: nat,
    modelMessages: nat,
    recentMessages: seq<MessagePreview>)

  /**
   * The parsed serialised form. `toJSON` always writes every field; a record
   * read back may lack `history` or `maxHistory`.
   */
  datatype SessionData = SessionData(channelId: string, history: Option<seq<HistoryEntry>>, maxHistory: Option<int>)

  /** The three fields of a session, as a value. */
  datatype SessionState = SessionState(channelId: string, maxHistory: int, history: seq<HistoryEntry>)

  /** The API view of a stored turn: the timestamp is dropped. */
  function ToContent(e: HistoryEntry): Content {
    Content(e.role, e.text)
  }

  function ToContents(h: seq<HistoryEntry>): (r: seq<Content>)
    ensures |r| == |h|
    ensures forall i :: 0 <= i < |h| ==> r[i] == ToContent(h[i])
  {
    seq(|h|, i requires 0 <= i < |h| => ToContent(h[i]))
  }

  /** `history.filter(msg => msg.role === role).length`. */
  function CountRole(h: seq<HistoryEntry>, role: string): nat
    decreases |h|
  {
    if h == [] then 0 else (if h[0].role == role then 1 else 0) + CountRole(h[1..], role)
  }

  function Roles(h: seq<HistoryEntry>): (r: seq<string>)
    ensures |r| == |h|
    ensures forall i :: 0 <= i < |h| ==> r[i] == h[i].role
  {
    seq(|h|, i requires 0 <= i < |h| => h[i].role)
  }

  /** The role counts are exact: each is the multiplicity of that role among the turns. */
  lemma {:induction false} CountRoleIsMultiplicity(h: seq<HistoryEntry>, role: string)
    ensures CountRole(h, role) == multiset(Roles(h))[role]
    decreases |h|
  {
    if h != [] {
      CountRoleIsMultiplicity(h[1..], role);
      assert Roles(h) == [h[0].role] + Roles(h[1..]);
    }
  }

  /** User and model counts never exceed the total, and equal it when those are the only roles. */
  lemma {:induction false} CountRolesBounded(h: seq<HistoryEntry>)
    ensures CountRole(h, USER) + CountRole(h, MODEL) <= |h|
    ensures (forall i :: 0 <= i < |h| ==> h[i].role == USER || h[i].role == MODEL) ==>
              CountRole(h, USER) + CountRole(h, MODEL) == |h|
    decreases |h|
  {
    if h != [] {
      CountRolesBounded(h[1..]);
    }
  }

  function ToPreview(e: HistoryEntry): (p: MessagePreview)
    ensures p.role == e.role && p.timestamp == e.timestamp
    ensures p.content == Preview(e.text, PREVIEW_LENGTH)
  {
    MessagePreview(e.role, Preview(e.text, PREVIEW_LENGTH), e.timestamp)
  }

  /** `history.slice(-5).map(...)`: previews of the latest five turns, oldest first. */
  function RecentPreviews(h: seq<HistoryEntry>): (r: seq<MessagePreview>)
    ensures |r| == Min(STATS_RECENT, |h|)
    ensures forall i :: 0 <= i < |r| ==> r[i] == ToPreview(h[|h| - |r| + i])
  {
    var recent := Recent(h, STATS_RECENT);
    seq(|recent|, i requires 0 <= i < |recent| => ToPreview(recent[i]))
  }

  /** The statistics of a history: exact size and role counts, and the recent previews. */
  function StatsOf(h: seq<HistoryEntry>): (r: SessionStats)
    ensures r.totalMessages == |h|
    ensures r.userMessages == multiset(Roles(h))[USER]
    ensures r.modelMessages == multiset(Roles(h))[MODEL]
    ensures r.recentMessages == RecentPreviews(h)
  {
    CountRoleIsMultiplicity(h, USER);
    CountRoleIsMultiplicity(h, MODEL);
    SessionStats(|h|, CountRole(h, USER), CountRole(h, MODEL), RecentPreviews(h))
  }

  /** What `fromJSON` makes of a parsed record: absent fields take the constructor's defaults. */
  function Restored(d: SessionData): (st: SessionState)
    ensures st.channelId == d.channelId
    ensures d.maxHistory.None? ==> st.maxHistory == DEFAULT_MAX_HISTORY
    ensures d.maxHistory.Some? ==> st.maxHistory == d.maxHistory.value
    ensures d.history.None? ==> st.history == []
    ensures d.history.Some? ==> st.history == d.history.value
  {
    SessionState(d.channelId, d.maxHistory.GetOr(DEFAULT_MAX_HISTORY), d.history.GetOr([]))
  }

  /**
   * The per-session bound is not an invariant either: `fromJSON` keeps a
   * stored history longer than the stored capacity without trimming it.
   */
  lemma RestoredCanExceedCapacity(d: SessionData)
    requires d.history.Some? && d.maxHistory.Some? && |d.history.value| > d.maxHistory.value
    ensures |Restored(d).history| > Restored(d).maxHistory
  {
  }

  /** The history a successful send leaves: user turn, then (if any) the model turn, each bounded. */
  function AfterSend(h: seq<HistoryEntry>, user: HistoryEntry, reply: Result<string>, repliedAt: int, max: int): seq<HistoryEntry> {
    var withUser := BoundedAppend(h, user, max);
    if reply.Ok? then BoundedAppend(withUser, HistoryEntry(MODEL, reply.value, repliedAt), max) else withUser
  }

  /** The API view of the latest `limit` turns is, entry by entry, the API view of the history's suffix. */
  lemma ContentsOfRecent(h: seq<HistoryEntry>, limit: int)
    ensures limit >= 1 ==>
              var r := ToContents(Recent(h, limit));
              |r| == Min(limit, |h|) && forall i :: 0 <= i < |r| ==> r[i] == ToContent(h[|h| - |r| + i])
  {
    if limit >= 1 {
      var recent := Recent(h, limit);
      assert recent == h[|h| - Min(limit, |h|)..];
      var r := ToContents(recent);
      forall i | 0 <= i < |r| ensures r[i] == ToContent(h[|h| - |r| + i]) {
        assert recent[i] == h[|h| - |r| + i];
      }
    }
  }

  class ChatSession {
    var channelId: string
    var maxHistory: int
    var history: seq<HistoryEntry>

    constructor (channelId: string, maxHistory: int := DEFAULT_MAX_HISTORY)
      ensures this.channelId == channelId && this.maxHistory == maxHistory
      ensures history == []
    {
      this.channelId := channelId;
      this.maxHistory := maxHistory;
      this.history := [];
    }

    function State(): SessionState
      reads this
    {
      SessionState(channelId, maxHistory, history)
    }

    /** `addToHistory(role, content)`; `now` stands for `Date.now()`. */
    method AddToHistory(role: string, content: string, now: int)
      modifies this
      ensures channelId == old(channelId) && maxHistory == old(maxHistory)
      ensures history == BoundedAppend(old(history), HistoryEntry(role, content, now), maxHistory)
    {
      history := history + [HistoryEntry(role, content, now)];
      if |history| > maxHistory {
        // splice(0, length - maxHistory): the delete count is clamped to the length
        var drop := if |history| - maxHistory > |history| then |history| else |history| - maxHistory;
        history := history[drop..];
      }
    }

    /** `getGeminiHistory(limit)`: the recent turns without their timestamps. */
    function GeminiHistory(limit: int := GEMINI_HISTORY_LIMIT): (r: seq<Content>)
      reads this
      ensures limit >= 1 ==> |r| == Min(limit, |history|)
      ensures limit >= 1 ==> forall i :: 0 <= i < |r| ==> r[i] == ToContent(history[|history| - |r| + i])
      ensures limit == 0 ==> r == ToContents(history)
    {
      ContentsOfRecent(history, limit);
      ToContents(Recent(history, limit))
    }

    /**
     * `sendMessage(message, generateFunction)`. The user turn is recorded first;
     * `generate` receives the message and the ten most recent turns (which
     * therefore end with that message); on success the reply is recorded as a
     * model turn. A failure propagates and leaves the user turn in place.
     */
    method SendMessage(message: string, generate: (string, seq<Content>) -> Result<string>, sentAt: int, repliedAt: int)
      returns (r: Result<string>)
      modifies this
      ensures channelId == old(channelId) && maxHistory == old(maxHistory)
      ensures var withUser := BoundedAppend(old(history), HistoryEntry(USER, message, sentAt), maxHistory);
              r == generate(message, ToContents(Recent(withUser, GEMINI_HISTORY_LIMIT)))
      ensures history == AfterSend(old(history), HistoryEntry(USER, message, sentAt), r, repliedAt, maxHistory)
    {
      AddToHistory(USER, message, sentAt);
      var sent := GeminiHistory();
      r := generate(message, sent);
      if r.Ok? {
        AddToHistory(MODEL, r.value, repliedAt);
      }
    }

    /** `clearHistory()`. */
    method ClearHistory()
      modifies this
      ensures history == []
      ensures channelId == old(channelId) && maxHistory == old(maxHistory)
    {
      history := [];
    }

    /** `getStats()`. */
    function Stats(): (r: SessionStats)
      reads this
      ensures r == StatsOf(history)
    {
      StatsOf(history)
    }

    /** `toJSON()`, as the structured record; reading it back restores this session. */
    function ToJson(): (d: SessionData)
      reads this
      ensures Restored(d) == State()
      ensures d.history.Some? && d.maxHistory.Some?
    {
      SessionData(channelId, Some(history), Some(maxHistory))
    }

    /** `ChatSession.fromJSON(data)`: a new session from a parsed record. */
    static method FromJson(d: SessionData) returns (s: ChatSession)
      ensures fresh(s)
      ensures s.State() == Restored(d)
    {
      s := new ChatSession(d.channelId, d.maxHistory.GetOr(DEFAULT_MAX_HISTORY));
      s.history := d.history.GetOr([]);
    }
  }

  /** With room for at least one turn, the turns sent to the model end with the new user message. */
  lemma SentHistoryEndsWithMessage(h: seq<HistoryEntry>, message: string, sentAt: int, max: int)
    requires max >= 1
    ensures var sent := ToContents(Recent(BoundedAppend(h, HistoryEntry(USER, message, sentAt), max), GEMINI_HISTORY_LIMIT));
            |sent| >= 1 && sent[|sent| - 1] == Content(USER, message)
  {
    var withUser := BoundedAppend(h, HistoryEntry(USER, message, sentAt), max);
    var recent := Recent(withUser, GEMINI_HISTORY_LIMIT);
    assert recent[|recent| - 1] == withUser[|withUser| - 1];
  }

  lemma TwoAppendsEndWithBoth<T>(h: seq<T>, a: T, b: T, max: int)
    requires max >= 2
    ensures var r := BoundedAppend(BoundedAppend(h, a, max), b, max);
            |r| >= 2 && r[|r| - 2..] == [a, b]
  {
    var w := BoundedAppend(h, a, max);
    var r := BoundedAppend(w, b, max);
    assert |w| >= 1 && w[|w| - 1] == a;
    assert |r| >= 2 && r[|r| - 1] == b;
    var wb := w + [b];
    assert r == wb[|wb| - |r|..];
    assert r[|r| - 2] == wb[|wb| - 2] == a;
    assert r[|r| - 2..] == [r[|r| - 2], r[|r| - 1]];
  }

  /**
   * With room for two turns, a successful send leaves the history ending in
   * the user message followed by the model reply; a failed one leaves it
   * ending in the user message.
   */
  lemma AfterSendEndsWithExchange(h: seq<HistoryEntry>, message: string, sentAt: int, reply: Result<string>, repliedAt: int, max: int)
    requires max >= 2
    ensures var after := AfterSend(h, HistoryEntry(USER, message, sentAt), reply, repliedAt, max);
            if reply.Ok? then
              |after| >= 2 && after[|after| - 2..] == [HistoryEntry(USER, message, sentAt), HistoryEntry(MODEL, reply.value, repliedAt)]
            else
              |after| >= 1 && after[|after| - 1] == HistoryEntry(USER, message, sentAt)
  {
    var u := HistoryEntry(USER, message, sentAt);
    if reply.Ok? {
      TwoAppendsEndWithBoth(h, u, HistoryEntry(MODEL, reply.value, repliedAt), max);
    }
  }

  /** A failed send adds exactly the user turn; the history never holds a model turn for it. */
  lemma FailedSendKeepsOnlyUserTurn(h: seq<HistoryEntry>, message: string, sentAt: int, error: string, repliedAt: int, max: int)
    ensures AfterSend(h, HistoryEntry(USER, message, sentAt), Err(error), repliedAt, max)
            == BoundedAppend(h, HistoryEntry(USER, message, sentAt), max)
  {
  }
}
