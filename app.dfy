/**
 * app.js: the channel-message handler and the `/clear-context` command, as
 * steps over the shared ContextManager. Slack's `say` becomes the returned
 * reply text; the model backend is a function parameter; `Date.now()` at the
 * two recording points is passed in.
 */
module SlackApp {
  import opened Common
  import opened ContextStores
  import opened ContextManagers
  import Gemini

  /** How many formatted turns the handler fetches before calling the model. */
  const HISTORY_FETCH: int := 10
  const BOT_MESSAGE: string := "bot_message"
  const ERROR_REPLY: string := "申し訳ありませんが、エラーが発生しました: "
  const CLEARED_REPLY: string := "このチャンネルの会話履歴をクリアしました。"
  const ACTIONS_SUFFIX: string := "\n\n✅ 実行されたアクション: "

  /** The fields of an incoming message event the handler reads; `text` and `subtype` may be absent. */
  datatype SlackMessage = SlackMessage(user: string, channel: string, text: Option<string>, subtype: Option<string>)

  /** `processResponse`'s result: `{ type, message, actions }`. */
  datatype ProcessedResponse = ProcessedResponse(kind: string, message: string, actions: seq<string>)

  /** `executeAction`'s result: `{ success, message, actionType }`. */
  datatype ActionResult = ActionResult(success: bool, message: string, actionType: string)

  /** The characters `String.prototype.trim` removes: white space and line terminators. */
  predicate IsJsWhitespace(c: char) {
    ('\U{9}' <= c <= '\U{D}') || c == ' ' || c == '\U{A0}' || c == '\U{1680}' ||
    ('\U{2000}' <= c <= '\U{200A}') || c == '\U{2028}' || c == '\U{2029}' ||
    c == '\U{202F}' || c == '\U{205F}' || c == '\U{3000}' || c == '\U{FEFF}'
  }

  /** `s.trim() === ''`. */
  predicate IsBlank(s: string) {
    forall i :: 0 <= i < |s| ==> IsJsWhitespace(s[i])
  }

  /** The two early returns: a bot's own message, and a missing, empty or whitespace-only text. */
  predicate Ignored(m: SlackMessage) {
    m.subtype == Some(BOT_MESSAGE) || m.text.None? || m.text.value == "" || IsBlank(m.text.value)
  }

  /** `responseProcessor.processResponse`: the text passes through, with no actions. */
  function ProcessResponse(response: string): (p: ProcessedResponse)
    ensures p.message == response && p.actions == [] && p.kind == "normal"
  {
    ProcessedResponse("normal", response, [])
  }

  /** `actionHandlers.executeAction`: every action succeeds. */
  function ExecuteAction(actionType: string): (r: ActionResult)
    ensures r.success && r.actionType == actionType
  {
    ActionResult(true, "アクション処理は空です", actionType)
  }

  /** The `for…of` loop collecting one result per action, in order. */
  method ExecuteActions(actions: seq<string>) returns (results: seq<ActionResult>)
    ensures |results| == |actions|
    ensures forall i :: 0 <= i < |actions| ==> results[i] == ExecuteAction(actions[i])
  {
    results := [];
    var k := 0;
    while k < |actions|
      invariant 0 <= k <= |actions|
      invariant |results| == k
      invariant forall i :: 0 <= i < k ==> results[i] == ExecuteAction(actions[i])
    {
      results := results + [ExecuteAction(actions[k])];
      k := k + 1;
    }
  }

  /** `actionResults.filter(r => r.success).map(r => r.actionType)`. */
  function SuccessfulTypes(results: seq<ActionResult>): (types: seq<string>)
    ensures |types| <= |results|
    ensures types == [] <==> forall i :: 0 <= i < |results| ==> !results[i].success
    ensures forall t :: t in types <==> exists i :: 0 <= i < |results| && results[i].success && results[i].actionType == t
    ensures (forall i :: 0 <= i < |results| ==> results[i].success) ==>
              |types| == |results| && forall i :: 0 <= i < |results| ==> types[i] == results[i].actionType
    decreases |results|
  {
    if results == [] then []
    else (if results[0].success then [results[0].actionType] else []) + SuccessfulTypes(results[1..])
  }

  /** The reply: the mention, the processed message, and the action list only when one succeeded. */
  function ReplyText(user: string, message: string, results: seq<ActionResult>): (reply: string)
    ensures SuccessfulTypes(results) == [] ==> reply == "<@" + user + "> " + message
    ensures SuccessfulTypes(results) != [] ==>
              reply == "<@" + user + "> " + message + ACTIONS_SUFFIX + Join(SuccessfulTypes(results), ", ")
  {
    var types := SuccessfulTypes(results);
    "<@" + user + "> " + message + (if |types| > 0 then ACTIONS_SUFFIX + Join(types, ", ") else "")
  }

  /** The reply of the handler's `catch`: the mention and the error's message. */
  function ErrorReplyText(user: string, error: string): string {
    "<@" + user + "> " + ERROR_REPLY + error
  }

  /** The map after the user turn is recorded. */
  function WithUserTurn(conversations: map<string, seq<StoredMessage>>, channel: string, text: string, sentAt: int):
    map<string, seq<StoredMessage>>
  {
    AddTo(conversations, channel, StoredMessage(USER, text, sentAt), MAX_HISTORY_PER_CHANNEL)
  }

  /** The contents `generateResponse` hands the backend: the ten latest formatted turns, then the text. */
  function Payload(conversations: map<string, seq<StoredMessage>>, channel: string, text: string, sentAt: int): seq<Content> {
    var c1 := WithUserTurn(conversations, channel, text, sentAt);
    Gemini.BuildContents(text, Formatted(HistoryIn(c1, channel, HISTORY_FETCH)))
  }

  /**
   * The `app.message` handler. An ignored message changes nothing and gets
   * no reply. Otherwise the user turn is recorded, the ten latest turns are
   * fetched and sent with the text; a reply is recorded as an assistant turn
   * and answered with a mention, a failure is answered with the wrapped error
   * and leaves only the user turn.
   */
  method HandleMessage(cm: ContextManager, m: SlackMessage, backend: Gemini.GenerateRequest -> Result<string>,
                       sentAt: int, repliedAt: int) returns (reply: Option<string>)
    modifies cm.storage
    ensures Ignored(m) ==> reply.None? && cm.storage.conversations == old(cm.storage.conversations)
    ensures !Ignored(m) ==>
              var text := m.text.value;
              var c1 := WithUserTurn(old(cm.storage.conversations), m.channel, text, sentAt);
              var response := Gemini.GenerateResponse(text, Formatted(HistoryIn(c1, m.channel, HISTORY_FETCH)), backend);
              (response.Ok? ==>
                 cm.storage.conversations == AddTo(c1, m.channel, StoredMessage(ASSISTANT, response.value, repliedAt), MAX_HISTORY_PER_CHANNEL) &&
                 reply == Some("<@" + m.user + "> " + response.value)) &&
              (response.Err? ==>
                 cm.storage.conversations == c1 && reply == Some(ErrorReplyText(m.user, response.error)))
  {
    if m.subtype == Some(BOT_MESSAGE) {
      return None;
    }
    if m.text.None? || m.text.value == "" || IsBlank(m.text.value) {
      return None;
    }
    var text := m.text.value;
    cm.RecordUserMessage(m.channel, text, sentAt);
    var conversationHistory := cm.GetConversationHistory(m.channel, HISTORY_FETCH);
    var geminiResponse := Gemini.GenerateResponse(text, conversationHistory, backend);
    if geminiResponse.Err? {
      return Some(ErrorReplyText(m.user, geminiResponse.error));
    }
    var processed := ProcessResponse(geminiResponse.value);
    var actionResults: seq<ActionResult> := [];
    if |processed.actions| > 0 {
      actionResults := ExecuteActions(processed.actions);
    }
    cm.RecordAssistantMessage(m.channel, processed.message, repliedAt);
    reply := Some(ReplyText(m.user, processed.message, actionResults));
  }

  /** `/clear-context`: the invoking channel's history goes, and the user is told so. */
  method ClearContext(cm: ContextManager, channelId: string, userId: string) returns (reply: string)
    modifies cm.storage
    ensures cm.storage.conversations == old(cm.storage.conversations) - {channelId}
    ensures cm.GetConversationCount(channelId) == 0
    ensures reply == "<@" + userId + "> " + CLEARED_REPLY
  {
    cm.ClearConversationHistory(channelId);
    reply := "<@" + userId + "> " + CLEARED_REPLY;
  }

  /**
   * The current message reaches the model twice: it is recorded before the
   * history is fetched, so the fetched turns already end with it, and the
   * generator appends it once more.
   */
  lemma PayloadRepeatsMessage(conversations: map<string, seq<StoredMessage>>, channel: string, text: string, sentAt: int)
    ensures var p := Payload(conversations, channel, text, sentAt);
            |p| >= 2 && p[|p| - 2] == Content(USER, text) && p[|p| - 1] == Content(USER, text)
  {
    var u := StoredMessage(USER, text, sentAt);
    var c1 := WithUserTurn(conversations, channel, text, sentAt);
    var h := c1[channel];
    assert |h| >= 1 && h[|h| - 1] == u;
    var recent := HistoryIn(c1, channel, HISTORY_FETCH);
    LastKeepsFinal(h, HISTORY_FETCH);
    var f := Formatted(recent);
    assert |f| >= 1 && f[|f| - 1] == FormatMessage(u);
    assert FormatMessage(u) == Content(USER, text);
  }

  /** The last n (n >= 1) of a non-empty sequence end with its final element. */
  lemma LastKeepsFinal<T>(s: seq<T>, n: nat)
    requires n >= 1 && |s| >= 1
    ensures |Last(s, n)| >= 1 && Last(s, n)[|Last(s, n)| - 1] == s[|s| - 1]
  {
  }

  /** The payload holds at most eleven turns: ten fetched, and the message. */
  lemma PayloadIsBounded(conversations: map<string, seq<StoredMessage>>, channel: string, text: string, sentAt: int)
    ensures 2 <= |Payload(conversations, channel, text, sentAt)| <= HISTORY_FETCH + 1
  {
    PayloadRepeatsMessage(conversations, channel, text, sentAt);
  }

  /**
   * A successful exchange appends the user text and then the assistant text
   * to that channel, keeping its latest fifty turns, and touches no other channel.
   */
  lemma SuccessfulExchange(conversations: map<string, seq<StoredMessage>>, channel: string, text: string, sentAt: int,
                           response: string, repliedAt: int, other: string)
    requires other != channel
    ensures var after := AddTo(WithUserTurn(conversations, channel, text, sentAt), channel,
                               StoredMessage(ASSISTANT, response, repliedAt), MAX_HISTORY_PER_CHANNEL);
            Lookup(after, channel) ==
              Last(Lookup(conversations, channel) + [StoredMessage(USER, text, sentAt), StoredMessage(ASSISTANT, response, repliedAt)],
                   MAX_HISTORY_PER_CHANNEL) &&
            Lookup(after, other) == Lookup(conversations, other)
  {
    var u := StoredMessage(USER, text, sentAt);
    var a := StoredMessage(ASSISTANT, response, repliedAt);
    var c1 := WithUserTurn(conversations, channel, text, sentAt);
    var after := AddTo(c1, channel, a, MAX_HISTORY_PER_CHANNEL);
    AddToOnlyTouchesChannel(conversations, channel, u, MAX_HISTORY_PER_CHANNEL, other);
    AddToOnlyTouchesChannel(c1, channel, a, MAX_HISTORY_PER_CHANNEL, other);
    TwoBoundedAppends(Lookup(conversations, channel), u, a, MAX_HISTORY_PER_CHANNEL);
  }

  /** Two bounded appends keep the latest max of both appended, in order. */
  lemma TwoBoundedAppends<T>(h: seq<T>, u: T, a: T, max: nat)
    ensures BoundedAppend(BoundedAppend(h, u, max), a, max) == Last(h + [u, a], max)
  {
    LastOfLast(h + [u], [a], max);
    assert h + [u] + [a] == h + [u, a];
  }
}
