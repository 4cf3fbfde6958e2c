# Conversation context of a Slack bot relaying to Gemini

This project models the conversation-context core of a Slack bot. The bot relays channel messages to the Gemini API and can file approved suggestions as GitHub issues.

It models these parts:

- **Bounded per-channel histories**, in two variants:
  - `ChatSession` holds Gemini-shaped turns.
  - `ContextStorage` holds a channel → turns map with `user`/`assistant` roles.

  Both append and then cut from the front to a capacity of 50. Both offer "latest n" views and a view with roles normalised for the API.
- **The session registry** `ChatSessionManager`. `getSession` keeps it at 100 sessions or fewer by evicting the first-inserted channel (FIFO, not LRU); `importSession` inserts without that check and can exceed 100.
- **The `ContextManager` facade** and its statistics view, with its 50-character previews.
- **The system-instruction cache** `SystemInstructionService`. It is keyed on the file's modification time and falls back to a built-in text.
- **Payload composition and error wrapping** around the Gemini call (`GeminiService`).
- **The message handler and `/clear-context`** of `app.js`.
- **The pure parts of the approve/reject flow** in `utils/gemini-review.js`.

Each modelled part is one module.

| module | file |
|---|---|
| `Common` | `common.dfy` (shared definitions) |
| `ChatSessions` | `chat_session.dfy` |
| `SessionManager` | `chat_session_manager.dfy` |
| `ContextStores` | `context_storage.dfy` |
| `ContextManagers` | `context_manager.dfy` |
| `SystemInstructions` | `system_instruction_service.dfy` |
| `Gemini` | `gemini_service.dfy` |
| `SlackApp` | `app.dfy` |
| `GeminiReview` | `gemini_review.dfy` |

`Common` defines the shared pieces:

- `Option`, `Result`, and the `Content` turn `{role, parts: [{text}]}`.
- `Last(s, n)` is the reference meaning of "the last n elements, in order".
- `Recent` is JavaScript's `slice(-limit)`, modelled exactly: `limit` 0 gives the whole array, and a negative limit drops entries from the front.
- `TrimFront` and `BoundedAppend` are `push` followed by the front `splice`. A capacity of 0 or less empties the array.
- `Preview` is `substring(0, n) + '...'`.

Objects whose fields the source updates are Dafny classes, with `modifies` on their methods. The pure views are functions.

**Backend** — The AI backend is a function parameter `GenerateRequest -> Result<string>`. Its `Err` carries the cause's `message`.

**GitHub** — The GitHub service is a function `IssueData -> CreateOutcome`. Its three outcomes are success, a `success: false` result, and a thrown exception.

**Files** — The instruction file is a value:
- an optional content and mtime;
- error flags for stat, read and write.

`readCount` is a ghost counter of `readFile` calls.

**Time** — `Date.now()` values are parameters. So is the issue body's locale date formatting.

**JS Map order** — The insertion order of a JavaScript `Map` is an explicit `order` sequence beside the map. `Map.set` on an existing key keeps the key's position.

Where the code and the design description of the system disagree, the model follows the code:

- The message handler in `app.js` never uses the session registry or the system-instruction service. It goes through `ContextManager`. So no instruction turn is sent to the model.
- The user turn is recorded before the AI call. A failed call therefore leaves the user turn in place, and no assistant turn follows it (`SlackApp.HandleMessage`, `ChatSessions.ChatSession.SendMessage`).
- The history fetched for the model already ends with the current message. `generateResponse` then appends the message again, so the model receives it twice (`SlackApp.PayloadRepeatsMessage`).
- The registry's bound is not an invariant. `importSession` inserts without an eviction check (`SessionManager.ImportCanExceedCapacity`).
- The per-session bound is not an invariant either. `fromJSON` keeps a stored history longer than `maxHistory` untrimmed (`ChatSessions.RestoredCanExceedCapacity`).
- A failed issue creation can mean the issue exists. When the issue is created but adding it to the project fails, the GitHub service returns `success: false`, and the approval flow reports `GitHubイシュー作成に失敗しました` (`GeminiReview.ApprovalResultOf`).
- "Two loads do one read" fails when the file is empty. The empty string is falsy, so it is never served from the cache (`SystemInstructions.EmptyContentAlwaysRereads`).
- The code has no pending-decision store or expiry timer. Approve and reject take the original message and response as arguments.
- The rejection handler passes a third argument `true` to `generateContentWithHistory`, for "use the system instruction". The method declares two parameters, so the argument has no effect.

## Model

| member | source | states |
|---|---|---|
| Common.Recent | services/chatSession.js:58 | `slice(-limit)`: for limit ≥ 1 the last min(limit, n) entries in order; limit 0 is the whole array; a negative limit drops -limit entries from the front |
| Common.TrimFront | services/contextStorage.js:30-32 | the front `splice` leaves exactly the last max(0, max) entries |
| Common.BoundedAppend | services/chatSession.js:39-50 | push then trim is `Last(s + [x], max)`, of length min(n+1, max), and the new entry is last whenever max ≥ 1 |
| Common.LastOfLast | services/chatSession.js:47-49 | trimming, appending more, and trimming again is the same as trimming once at the end |
| Common.AppendAllKeepsMostRecent | services/chatSession.js:39-50 | any run of appends to a buffer within capacity keeps exactly the most recent min(total, capacity) entries, oldest first |
| Common.Preview | services/chatSession.js:83 | text of at most n characters is unchanged; longer text keeps its first n characters and gets "..." appended |
| ChatSessions.ChatSession.constructor | services/chatSession.js:6-10 | the given channel and capacity (default 50), empty history |
| ChatSessions.ChatSession.AddToHistory | services/chatSession.js:39-50 | the history becomes the bounded append of the new turn, with its role, text and time; channel and capacity unchanged |
| ChatSessions.ChatSession.GeminiHistory | services/chatSession.js:57-63 | for limit ≥ 1, the last min(limit, n) turns oldest first, same role and text, timestamp dropped; limit 0 gives all turns |
| ChatSessions.ToContents | services/chatSession.js:59-62 | the API view keeps length, order, role and text of every turn |
| ChatSessions.ChatSession.SendMessage | services/chatSession.js:18-32 | the generator is called with the message and the 10 latest turns after recording the user turn; the history becomes the user turn then, on success only, the model turn |
| ChatSessions.SentHistoryEndsWithMessage | services/chatSession.js:20-26 | with capacity ≥ 1 the turns passed to the generator end with the user message |
| ChatSessions.AfterSendEndsWithExchange | services/chatSession.js:18-31 | with capacity ≥ 2 a successful send leaves the history ending [user message, model reply]; a failed one leaves it ending with the user message |
| ChatSessions.FailedSendKeepsOnlyUserTurn | services/chatSession.js:20-29 | a failed send adds exactly the user turn and no model turn |
| ChatSessions.ChatSession.ClearHistory | services/chatSession.js:68-70 | history empty; channel and capacity unchanged |
| ChatSessions.CountRoleIsMultiplicity | services/chatSession.js:79-80 | the filter count of a role equals the role's multiplicity in the history |
| ChatSessions.CountRolesBounded | services/chatSession.js:78-80 | user + model counts ≤ total, with equality when those are the only roles |
| ChatSessions.RecentPreviews | services/chatSession.js:81-85 | min(5, n) previews, each the truncated text of the matching one of the latest turns, oldest first |
| ChatSessions.StatsOf | services/chatSession.js:76-86 | total = length, user/model counts are the exact role multiplicities, and the recent previews |
| ChatSessions.ChatSession.Stats | services/chatSession.js:76-87 | `getStats` of the session is `StatsOf` its history |
| ChatSessions.Restored | services/chatSession.js:106-111 | reading a record back keeps the channel; a present capacity or history is kept as given, a missing capacity becomes 50 and a missing history `[]` |
| ChatSessions.RestoredCanExceedCapacity | services/chatSession.js:106-111 | a stored history longer than the stored capacity is restored untrimmed, so the session holds more turns than its capacity |
| ChatSessions.ChatSession.ToJson | services/chatSession.js:93-99 | the serialised record always has every field, and reading it back restores channel, capacity and history exactly |
| ChatSessions.ChatSession.FromJson | services/chatSession.js:106-111 | a fresh session whose state is the restored record |
| SessionManager.ChatSessionManager.constructor | services/chatSessionManager.js:8-14 | empty registry, consistent key order, capacity 100 |
| SessionManager.GetSessionOrder | services/chatSessionManager.js:21-35 | an existing key leaves the order unchanged; a new key goes last, after the first key is dropped exactly when the registry is full |
| SessionManager.ChatSessionManager.GetSession | services/chatSessionManager.js:21-35 | the key is present and its session returned; an existing key changes nothing; a new key gets a fresh empty session, and when full exactly the first-inserted key is evicted; the size stays within capacity |
| SessionManager.NewKeyIsBoundedAppend | services/chatSessionManager.js:22-31 | on a new key the key order behaves as a bounded buffer of capacity 100 |
| SessionManager.GetSessionKeepsBound | services/chatSessionManager.js:24-28 | a registry within capacity stays within capacity after `getSession` |
| SessionManager.DistinctKeysKeepMostRecent | services/chatSessionManager.js:21-35 | a run of distinct new channels leaves exactly the most recently created min(total, 100) channels, in creation order |
| SessionManager.OverflowEvictsFirstChannel | services/chatSessionManager.js:24-28 | 101 distinct channels into an empty registry leave the last 100, and the first one is gone |
| SessionManager.ChatSessionManager.SizeIsOrderLength | services/chatSessionManager.js:24 | the Map's size equals the length of its key order |
| SessionManager.Without | services/chatSessionManager.js:41-46 | deleting a key keeps every other key and no more; an absent key leaves the order unchanged |
| SessionManager.WithoutRemovesPosition | services/chatSessionManager.js:43 | in a duplicate-free order, deleting the key at position i is `order[..i] + order[i+1..]`: the other keys keep their relative insertion order, so the next eviction takes the oldest remaining key |
| SessionManager.WithoutDistinct | services/chatSessionManager.js:43 | deleting keeps the key order duplicate-free and one shorter when the key was present |
| SessionManager.ChatSessionManager.RemoveSession | services/chatSessionManager.js:41-46 | only that key is removed; an absent key is a no-op |
| SessionManager.ChatSessionManager.ClearAllSessions | services/chatSessionManager.js:51-54 | no sessions and an empty key order |
| SessionManager.ChatSessionManager.GetSessionStats | services/chatSessionManager.js:61-77 | `exists` iff present; an absent key gives zero counts and no previews and creates nothing; a present one gives its session's statistics |
| SessionManager.ChatSessionManager.GetAllSessionsStats | services/chatSessionManager.js:83-98 | totalSessions = size, maxSessions 100, one entry per session in insertion order with its statistics |
| SessionManager.ChatSessionManager.ExportSession | services/chatSessionManager.js:105-111 | null iff absent; otherwise a record that restores the session's state |
| SessionManager.ImportOrder | services/chatSessionManager.js:121 | `Map.set` appends a new key last and keeps an existing key's position |
| SessionManager.ChatSessionManager.ImportSession | services/chatSessionManager.js:118-128 | a parse failure returns false and changes nothing; otherwise the restored session is set under its channel, creating or overwriting, with no eviction |
| SessionManager.ImportCanExceedCapacity | services/chatSessionManager.js:118-128 | importing a new channel into a full registry gives 101 keys, where `getSession` would have kept 100 |
| ContextStores.ContextStorage.constructor | services/contextStorage.js:6-9 | no channels; capacity 50 per channel |
| ContextStores.AddTo | services/contextStorage.js:17-33 | the channel is created if missing and gets one bounded append; every other channel keeps its array |
| ContextStores.ContextStorage.AddMessage | services/contextStorage.js:17-33 | the map becomes `AddTo` of the turn; the channel's count is min(old + 1, 50) and the new turn is last |
| ContextStores.AddToOnlyTouchesChannel | services/contextStorage.js:17-33 | another channel's history is unchanged; the channel keeps the latest min(count + 1, max) turns of its old turns plus the new one |
| ContextStores.HistoryIn | services/contextStorage.js:41-48 | `[]` for an unknown channel; otherwise, for limit ≥ 1, the last `limit` turns |
| ContextStores.ContextStorage.GetConversationHistory | services/contextStorage.js:41-48 | `[]` for an unknown channel; for limit ≥ 1 the last min(limit, count) turns, oldest first |
| ContextStores.ContextStorage.ClearConversationHistory | services/contextStorage.js:54-58 | the channel is removed and its count is 0; absent is a no-op |
| ContextStores.ContextStorage.ClearAllConversations | services/contextStorage.js:63-65 | every channel's count is 0 |
| ContextStores.ContextStorage.ConversationCount | services/contextStorage.js:72-77 | 0 for an unknown channel, otherwise the array's length |
| ContextStores.ApiRole | services/contextStorage.js:88 | `model` iff the stored role is `assistant`, `user` for every other role |
| ContextStores.Formatted | services/contextStorage.js:87-90 | same length and order; each turn has the normalised role and the content as text |
| ContextStores.ContextStorage.GetFormattedHistory | services/contextStorage.js:85-91 | as many turns as the history view; each has its content as text, and `model` exactly for `assistant` turns, else `user` |
| ContextManagers.ContextManager.constructor | services/contextManager.js:8-10 | a fresh, empty storage |
| ContextManagers.ContextManager.RecordUserMessage | services/contextManager.js:17-20 | a `user` turn appended to that channel only; the latest formatted turn is that message as `user` |
| ContextManagers.ContextManager.RecordAssistantMessage | services/contextManager.js:27-30 | an `assistant` turn appended to that channel only; the formatted history reports it as `model` |
| ContextManagers.ContextManager.GetConversationHistory | services/contextManager.js:38-40 | the storage's formatted history of the latest `limit` turns |
| ContextManagers.ContextManager.ClearConversationHistory | services/contextManager.js:46-49 | the channel is removed; its count is 0 |
| ContextManagers.ContextManager.ClearAllConversations | services/contextManager.js:54-57 | no channels remain |
| ContextManagers.ContextManager.GetConversationCount | services/contextManager.js:64-66 | the storage's count of that channel |
| ContextManagers.StatsIn | services/contextManager.js:73-85 | total = count; min(5, count) entries, each the role, truncated content and time of the matching one of the latest turns |
| ContextManagers.ContextManager.GetConversationStats | services/contextManager.js:73-85 | equals `StatsIn` of the stored map: total = the channel's count, and its min(5, count) latest turns, in order, each with its role, its 50-character preview and its time; no content longer than 53 characters |
| SystemInstructions.Load | services/systemInstructionService.js:20-54 | a cache hit (not forced, truthy cached text, same mtime) returns the cache without reading; otherwise it reads, caches content and mtime, and returns the content; a missing file or any error returns the default and leaves the cache unchanged |
| SystemInstructions.SystemInstructionService.constructor | services/systemInstructionService.js:9-13 | empty cache, no reads yet |
| SystemInstructions.SystemInstructionService.LoadSystemInstruction | services/systemInstructionService.js:20-54 | text, new cache fields and read count are exactly those of `Load` on the old cache |
| SystemInstructions.SystemInstructionService.GetDefaultSystemInstruction | services/systemInstructionService.js:60-62 | the fixed, non-empty default text |
| SystemInstructions.FormatForGeminiApi | services/systemInstructionService.js:69-74 | a `user` turn whose text is the header "システムインストラクション:\n" followed by the instruction |
| SystemInstructions.IntegrateWithConversation | services/systemInstructionService.js:82-88 | length \|h\| + 1; the head is the instruction turn and the tail is the history unchanged |
| SystemInstructions.SystemInstructionService.GetSystemInstructionInfo | services/systemInstructionService.js:94-101 | reads only; `cached` iff the cached text is non-empty; `lastModified` reported iff set and non-zero; `hasFile` always true |
| SystemInstructions.Written | services/systemInstructionService.js:115 | the written file holds the text with the write time as mtime; the error flags are kept |
| SystemInstructions.SystemInstructionService.UpdateSystemInstruction | services/systemInstructionService.js:108-128 | true iff the write succeeds; on success the file holds the text and the cache is cleared; on failure file and cache are untouched |
| SystemInstructions.SystemInstructionService.ResetSystemInstruction | services/systemInstructionService.js:134-137 | the same as an update with the default text |
| SystemInstructions.TwoLoadsReadOnce | services/systemInstructionService.js:29-43 | two loads of an unchanged readable file with non-empty content: the second does not read and returns what the first did |
| SystemInstructions.EmptyContentAlwaysRereads | services/systemInstructionService.js:30 | with empty content every load after a miss reads again |
| SystemInstructions.ChangedFileIsReloaded | services/systemInstructionService.js:26-43 | a file whose mtime differs from the cached one is read, and its new content returned and cached |
| SystemInstructions.UpdateThenLoadReturnsNewText | services/systemInstructionService.js:108-119 | after a successful update the next load reads the file and returns the new text |
| SystemInstructions.FailedLoadKeepsCache | services/systemInstructionService.js:45-53 | a missing file, or one that fails to read, yields the default and keeps the cache |
| Gemini.BuildContents | services/geminiService.js:22-28 | the history unchanged, then the message as a final `user` turn; length \|history\| + 1 |
| Gemini.WrapError | services/geminiService.js:41-44 | success passes through; a failure becomes one error "Gemini API呼び出しエラー: " followed by the cause |
| Gemini.GenerateResponse | services/geminiService.js:17-45 | succeeds iff the backend does, with its text; otherwise the prefixed cause; the request names gemini-2.5-flash and the built contents |
| Gemini.GenerateContentWithHistory | services/geminiService.js:53-81 | written with its own contents literal, it equals `generateResponse` on every input |
| Gemini.GenerateResponseForSession | services/geminiService.js:89-91 | equals `generateResponse` on every input |
| Gemini.WrapErrorIsInjective | services/geminiService.js:43 | the wrapped result determines the backend's outcome |
| SlackApp.ProcessResponse | services/responseProcessor.js:16-23 | the response passes through as the message, with type `normal` and no actions |
| SlackApp.ExecuteAction | services/actionHandlers.js:17-24 | every action succeeds and reports its type |
| SlackApp.ExecuteActions | app.js:57-63 | one result per action, in order |
| SlackApp.SuccessfulTypes | app.js:73-75 | at most one type per result; empty exactly when no action succeeded; a type appears exactly when some successful result carries it; all of them, in order, when every action succeeded |
| SlackApp.ReplyText | app.js:69-77 | the mention and the message, with the action list appended exactly when `SuccessfulTypes` is non-empty, that is, when some action succeeded |
| SlackApp.HandleMessage | app.js:22-85 | bot messages and missing or blank text change nothing and get no reply; otherwise the user turn is recorded, the model sees the 10 latest turns plus the text, a reply is recorded as an assistant turn and answered "<@user> " + reply, and a failure leaves only the user turn and answers with the wrapped error |
| SlackApp.ClearContext | app.js:88-93 | only the invoking channel's history is removed; the reply confirms it with a mention |
| SlackApp.PayloadRepeatsMessage | app.js:38-45 | the contents sent to the model end with the current message twice |
| SlackApp.PayloadIsBounded | app.js:41 | the contents hold between 2 and 11 turns |
| SlackApp.SuccessfulExchange | app.js:38-66 | a successful exchange leaves the channel with the latest 50 of its turns plus user text then assistant text, and no other channel changes |
| GeminiReview.BuildGeminiReviewBlocks | utils/gemini-review.js:20-26 | exactly two blocks: a section with the text, then Approve (`gemini_review_approve`) and Reject (`gemini_review_reject`, style `danger`) |
| GeminiReview.IssueTitle | utils/gemini-review.js:78 | "[Slack Bot] " and the message when it has at most 50 characters; otherwise its first 50 characters and "..." |
| GeminiReview.IssueBody | utils/gemini-review.js:81-99 | the fixed heading, then the original message verbatim inside the fence, then the suggestion verbatim |
| GeminiReview.IssueRequest | utils/gemini-review.js:102-107 | labels `slack-bot`, `gemini-approved`, `auto-generated`; no assignees; the title and body above |
| GeminiReview.ApprovalResultOf | utils/gemini-review.js:112-135 | success iff the service's result has `success: true`; the message carries the URL, or the error, or the thrown message |
| GeminiReview.CreateGitHubIssueFromApproval | utils/gemini-review.js:73-136 | the service receives the issue data; success iff its result has `success: true`; the issue and URL on success, the error on failure, the exception's message when it threw |
| GeminiReview.ApprovalUpdateText | utils/gemini-review.js:165-170 | "Approved" with the issue URL on success, with the error otherwise |
| GeminiReview.ApprovalTextsAreDistinct | utils/gemini-review.js:165-170 | the success and the failure update texts always differ |
| GeminiReview.HandleApprovalWithGitHub | utils/gemini-review.js:148-185 | one section reporting the result of the issue creation, with the approved fallback text |
| GeminiReview.FeedbackMessage | utils/gemini-review.js:226-231 | the feedback text embeds the original message and the rejected suggestion verbatim at fixed places |
| GeminiReview.FeedbackHistory | utils/gemini-review.js:234-248 | the history unchanged, then user original, model suggestion, user feedback |
| GeminiReview.SentHistory | utils/gemini-review.js:253 | `slice(0, -1)` of the feedback history: the history plus user original and model suggestion |
| GeminiReview.RejectionPayloadIsFeedbackHistory | utils/gemini-review.js:234-255 | the contents the model receives are the whole feedback history, ending user, model, user |
| GeminiReview.HandleRejectionWithFeedback | utils/gemini-review.js:219-311 | a new proposal is shown with the same blocks `buildGeminiReviewBlocks` builds; a failure shows the wrapped error in a single section |

## Left out

- Slack Bolt plumbing is not modelled: `App`/`ExpressReceiver`, `say`, `ack`, `client.chat.update`, action and command registration, `registerGeminiReviewActions`, the `/health` route and `app.start`. It is I/O against a framework. Replies are returned values and message updates are `ChatUpdate` values.
- The `/context-stats` reply text in app.js is left out. It only formats the statistics that `ContextManager.GetConversationStats` models.
- services/githubService.js is not part of this model. `createIssueAndAddToProject` is the abstract `CreateOutcome` parameter.
- The GoogleGenAI call is an abstract function. A `response.text` that is undefined is not modelled.
- Real `fs` calls are an abstract file value with error flags. The directory creation and the write are one step that either succeeds or fails.
- Timestamps are opaque integers. `toLocaleString('ja-JP')` and `toISOString()` are not modelled: the previews keep the raw time, and the issue body takes a formatting function.
- JSON text syntax is not modelled. `toJSON`/`fromJSON` work on the parsed record. A record with `maxHistory: null` or other malformed fields is not modelled: a missing field is `None`.
- Strings are sequences of code points. UTF-16 code units, which `substring` and `length` count, are not modelled.
- History entries hold a single text part, because every writer builds exactly one part.
- Logging is not modelled: the `console.log`/`console.error` calls only report and change no state.
- Async interleaving and concurrent handlers are not modelled. Each handler is a sequence of steps.
- The pending-decision store and its expiry timer are left out, because the code has neither.
- The outer `catch` blocks of the approve and reject handlers are left out. They handle a missing field in the Slack payload or a failing `chat.update`, both in the unmodelled plumbing. The model does cover the reject handler's catch for a failed model call.
- SystemInstructions.INSTRUCTION_PATH: the absolute path that `path.join(__dirname, ...)` resolves to is not modelled. The constant is the relative path.
