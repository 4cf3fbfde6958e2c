/**
 * services/contextManager.js: the facade the message handler uses. It owns
 * one ContextStorage, records the two sides of a dialogue and shapes the
 * statistics view.
 */
module ContextManagers {
  import opened Common
  import opened ContextStores

  /** `getConversationStats` reads this many of the latest turns. */
  const STATS_RECENT: int := 5

  /** One line of `recentMessages`; the timestamp is kept unformatted. */
  datatype RecentMessage = RecentMessage(role: string, content: string, timestamp: int)

  datatype ConversationStats = ConversationStats(totalMessages: nat, recentMessages: seq<RecentMessage>)

  function ToRecent(m: StoredMessage): (r: RecentMessage)
    ensures r.role == m.role && r.timestamp == m.timestamp
    ensures r.content == Preview(m.content, PREVIEW_LENGTH)
  {
    RecentMessage(m.role, Preview(m.content, PREVIEW_LENGTH), m.timestamp)
  }

  /** The statistics of a map of conversations for one channel. */
  function StatsIn(conversations: map<string, seq<StoredMessage>>, channelId: string): (r: ConversationStats)
    ensures r.totalMessages == |Lookup(conversations, channelId)|
    ensures |r.recentMessages| == Min(STATS_RECENT, r.totalMessages)
    ensures forall i :: 0 <= i < |r.recentMessages| ==>
              var h := Lookup(conversations, channelId);
              r.recentMessages[i] == ToRecent(h[|h| - |r.recentMessages| + i])
  {
    var h := HistoryIn(conversations, channelId, STATS_RECENT);
    ConversationStats(|Lookup(conversations, channelId)|, seq(|h|, i requires 0 <= i < |h| => ToRecent(h[i])))
  }

  class ContextManager {
    const storage: ContextStorage

    constructor ()
      ensures fresh(storage)
      ensures storage.conversations == map[]
    {
      storage := new ContextStorage();
    }

    /** `recordUserMessage(channelId, message)`: a `user` turn, in that channel only. */
    method RecordUserMessage(channelId: string, message: string, now: int)
      modifies storage
      ensures storage.conversations ==
                AddTo(old(storage.conversations), channelId, StoredMessage(USER, message, now), storage.maxHistoryPerChannel)
      ensures GetConversationHistory(channelId, 1) == [Content(USER, message)]
    {
      storage.AddMessage(channelId, USER, message, now);
    }

    /** `recordAssistantMessage(channelId, response)`: an `assistant` turn, reported as `model`. */
    method RecordAssistantMessage(channelId: string, response: string, now: int)
      modifies storage
      ensures storage.conversations ==
                AddTo(old(storage.conversations), channelId, StoredMessage(ASSISTANT, response, now), storage.maxHistoryPerChannel)
      ensures GetConversationHistory(channelId, 1) == [Content(MODEL, response)]
    {
      storage.AddMessage(channelId, ASSISTANT, response, now);
    }

    /** `getConversationHistory(channelId, limit)`: the storage's formatted history. */
    function GetConversationHistory(channelId: string, limit: int := DEFAULT_LIMIT): (r: seq<Content>)
      reads this, storage
      ensures r == Formatted(HistoryIn(storage.conversations, channelId, limit))
    {
      storage.GetFormattedHistory(channelId, limit)
    }

    /** `clearConversationHistory(channelId)`. */
    method ClearConversationHistory(channelId: string)
      modifies storage
      ensures storage.conversations == old(storage.conversations) - {channelId}
      ensures GetConversationCount(channelId) == 0
    {
      storage.ClearConversationHistory(channelId);
    }

    /** `clearAllConversations()`. */
    method ClearAllConversations()
      modifies storage
      ensures storage.conversations == map[]
    {
      storage.ClearAllConversations();
    }

    /** `getConversationCount(channelId)`. */
    function GetConversationCount(channelId: string): (n: nat)
      reads this, storage
      ensures n == |Lookup(storage.conversations, channelId)|
    {
      storage.ConversationCount(channelId)
    }

    /** `getConversationStats(channelId)`: the count and up to five truncated previews. */
    function GetConversationStats(channelId: string): (r: ConversationStats)
      reads this, storage
      ensures r == StatsIn(storage.conversations, channelId)
      ensures r.totalMessages == GetConversationCount(channelId)
      ensures |r.recentMessages| <= STATS_RECENT
      ensures forall i :: 0 <= i < |r.recentMessages| ==>
                |r.recentMessages[i].content| <= PREVIEW_LENGTH + 3
    {
      StatsIn(storage.conversations, channelId)
    }
  }
}
