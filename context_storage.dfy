/**
 * services/contextStorage.js: per-channel arrays of `user`/`assistant` turns
 * in one map, each bounded to 50 from the front, with the recent and the
 * Gemini-formatted views.
 */
module ContextStores {
  import opened Common

  const ASSISTANT: string := "assistant"
  const MAX_HISTORY_PER_CHANNEL: int := 50
  /** Default `limit` of the history readers. */
  const DEFAULT_LIMIT: int := 10

  /** A stored `{ role, content, timestamp }`; the timestamp is opaque. */
  datatype StoredMessage = StoredMessage(role: string, content: string, timestamp: int)

  /** A channel's array, or the empty one when the channel has none. */
  function Lookup(conversations: map<string, seq<StoredMessage>>, channelId: string): seq<StoredMessage> {
    if channelId in conversations then conversations[channelId] else []
  }

  /** The map after `addMessage`: the channel's array (created if missing) gets one bounded append. */
  function AddTo(conversations: map<string, seq<StoredMessage>>, channelId: string, m: StoredMessage, max: int):
    (r: map<string, seq<StoredMessage>>)
    ensures r.Keys == conversations.Keys + {channelId}
    ensures r[channelId] == BoundedAppend(Lookup(conversations, channelId), m, max)
    ensures forall c :: c in conversations && c != channelId ==> r[c] == conversations[c]
  {
    conversations[channelId := BoundedAppend(Lookup(conversations, channelId), m, max)]
  }

  /** `getConversationHistory(channelId, limit)` over a map value. */
  function HistoryIn(conversations: map<string, seq<StoredMessage>>, channelId: string, limit: int): (r: seq<StoredMessage>)
    ensures channelId !in conversations ==> r == []
    ensures channelId in conversations && limit >= 1 ==> r == Last(conversations[channelId], limit)
  {
    if channelId !in conversations then [] else Recent(conversations[channelId], limit)
  }

  /** The role the Gemini API gets for a stored role: `assistant` becomes `model`, anything else `user`. */
  function ApiRole(role: string): (r: string)
    ensures r == MODEL <==> role == ASSISTANT
    ensures r == USER <==> role != ASSISTANT
  {
    if role == ASSISTANT then MODEL else USER
  }

  function FormatMessage(m: StoredMessage): (c: Content)
    ensures c.role == ApiRole(m.role) && c.text == m.content
  {
    Content(ApiRole(m.role), m.content)
  }

  /** `history.map(msg => ({ role: ..., parts: [{ text: msg.content }] }))`: same length and order. */
  function Formatted(h: seq<StoredMessage>): (r: seq<Content>)
    ensures |r| == |h|
    ensures forall i :: 0 <= i < |h| ==> r[i] == FormatMessage(h[i])
  {
    seq(|h|, i requires 0 <= i < |h| => FormatMessage(h[i]))
  }

  class ContextStorage {
    var conversations: map<string, seq<StoredMessage>>
    const maxHistoryPerChannel: int := MAX_HISTORY_PER_CHANNEL

    constructor ()
      ensures conversations == map[]
    {
      conversations := map[];
    }

    /** `addMessage(channelId, role, content)`; `now` stands for `Date.now()`. */
    method AddMessage(channelId: string, role: string, content: string, now: int)
      modifies this
      ensures conversations == AddTo(old(conversations), channelId, StoredMessage(role, content, now), maxHistoryPerChannel)
      ensures ConversationCount(channelId) == Min(old(ConversationCount(channelId)) + 1, maxHistoryPerChannel)
      ensures conversations[channelId][|conversations[channelId]| - 1] == StoredMessage(role, content, now)
    {
      var m := StoredMessage(role, content, now);
      if channelId !in conversations {
        conversations := conversations[channelId := []];
      }
      var conversation := conversations[channelId] + [m];
      if |conversation| > maxHistoryPerChannel {
        conversation := conversation[|conversation| - maxHistoryPerChannel..];
      }
      assert conversation == TrimFront(Lookup(old(conversations), channelId) + [m], maxHistoryPerChannel);
      conversations := conversations[channelId := conversation];
    }

    /**
     * `getConversationHistory(channelId, limit)`: nothing for an unknown
     * channel, otherwise (limit >= 1) the last min(limit, count) turns, oldest first.
     */
    function GetConversationHistory(channelId: string, limit: int := DEFAULT_LIMIT): (r: seq<StoredMessage>)
      reads this
      ensures channelId !in conversations ==> r == []
      ensures limit >= 1 ==> |r| == Min(limit, ConversationCount(channelId))
      ensures limit >= 1 ==> r == Last(Lookup(conversations, channelId), limit)
    {
      HistoryIn(conversations, channelId, limit)
    }

    /** `clearConversationHistory(channelId)`: the channel disappears; absent is a no-op. */
    method ClearConversationHistory(channelId: string)
      modifies this
      ensures conversations == old(conversations) - {channelId}
      ensures ConversationCount(channelId) == 0
    {
      if channelId in conversations {
        conversations := conversations - {channelId};
      }
    }

    /** `clearAllConversations()`: every channel's count is 0 afterwards. */
    method ClearAllConversations()
      modifies this
      ensures conversations == map[]
      ensures forall c :: ConversationCount(c) == 0
    {
      conversations := map[];
    }

    /** `getConversationCount(channelId)`. */
    function ConversationCount(channelId: string): (n: nat)
      reads this
      ensures channelId !in conversations ==> n == 0
      ensures n == |Lookup(conversations, channelId)|
    {
      if channelId !in conversations then 0 else |conversations[channelId]|
    }

    /** `getFormattedHistory(channelId, limit)`: the recent turns in Gemini form. */
    function GetFormattedHistory(channelId: string, limit: int := DEFAULT_LIMIT): (r: seq<Content>)
      reads this
      ensures |r| == |GetConversationHistory(channelId, limit)|
      ensures forall i :: 0 <= i < |r| ==>
                var m := GetConversationHistory(channelId, limit)[i];
                r[i].text == m.content && (r[i].role == MODEL <==> m.role == ASSISTANT) &&
                (r[i].role == MODEL || r[i].role == USER)
    {
      Formatted(GetConversationHistory(channelId, limit))
    }
  }

  /**
   * Appending to one channel's array: that channel keeps its most recent
   * min(count + 1, max) turns (the new one last), and no other channel changes.
   */
  lemma AddToOnlyTouchesChannel(conversations: map<string, seq<StoredMessage>>, channelId: string, m: StoredMessage, max: int, other: string)
    requires max >= 1 && other != channelId
    ensures Lookup(AddTo(conversations, channelId, m, max), other) == Lookup(conversations, other)
    ensures |Lookup(AddTo(conversations, channelId, m, max), channelId)| == Min(|Lookup(conversations, channelId)| + 1, max)
    ensures Lookup(AddTo(conversations, channelId, m, max), channelId) == Last(Lookup(conversations, channelId) + [m], max)
  {
  }
}
