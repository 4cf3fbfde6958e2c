/**
 * utils/gemini-review.js, its pure parts: the Approve/Reject blocks, the
 * GitHub issue built from an approved suggestion and the mapping of the
 * issue service's result, the Slack update after approval, and the feedback
 * turn sent to the model after a rejection. The GitHub service, the model
 * backend and the date formatting are function parameters.
 */
module GeminiReview {
  import opened Common
  import Gemini

  const APPROVE_ACTION: string := "gemini_review_approve"
  const REJECT_ACTION: string := "gemini_review_reject"

  const TITLE_PREFIX: string := "[Slack Bot] "
  /** `originalMessage.substring(0, 50)` */
  const TITLE_LENGTH: nat := 50
  const ISSUE_LABELS: seq<string> := ["slack-bot", "gemini-approved", "auto-generated"]

  const CREATED_PREFIX: string := "GitHubイシューを作成しました: "
  const FAILED_PREFIX: string := "GitHubイシュー作成に失敗しました: "
  const THREW_PREFIX: string := "GitHubイシュー作成でエラーが発生しました: "

  const APPROVED_HEADER: string := ":white_check_mark: **Approved**"
  const REJECTED_HEADER: string := ":x: **Rejected**"
  const NEW_PROPOSAL_PREFIX: string := ":x: **Rejected**\n\n🤖 **新しい提案:**\n"
  const REJECT_ERROR_PREFIX: string := ":x: **Rejected**\n\n❌ エラーが発生しました: "

  const APPROVED_FALLBACK: string := "Gemini suggestion approved"
  const REJECTED_WITH_PROPOSAL_FALLBACK: string := "Gemini suggestion rejected with new proposal"
  const REJECTED_WITH_ERROR_FALLBACK: string := "Gemini suggestion rejected with error"

  /** The three pieces of the feedback text around the original message and the rejected proposal. */
  const FEEDBACK_HEAD: string := "ユーザーがあなたの提案を拒否しました。\n\n**元のメッセージ**: "
  const FEEDBACK_MIDDLE: string := "\n**あなたの提案**: "
  const FEEDBACK_TAIL: string := "\n\nユーザーのフィードバックを考慮して、より良い提案をしてください。"

  /** The pieces of the issue body template, in order, around the five inserted values. */
  const BODY_HEAD: string := "## 概要\nこのイシューはSlack Bot経由で承認されたGeminiの提案から自動生成されました。\n\n## 元のメッセージ\n```\n"
  const BODY_AFTER_MESSAGE: string := "\n```\n\n## Geminiの提案\n"
  const BODY_AFTER_RESPONSE: string := "\n\n## メタデータ\n- **承認者**: <@"
  const BODY_AFTER_USER: string := ">\n- **チャンネル**: <#"
  const BODY_AFTER_CHANNEL: string := ">\n- **承認日時**: "
  const BODY_TAIL: string := "\n- **自動生成**: このイシューはSlack Botによって自動的に作成されました\n\n---\n*このイシューはSlack Botの承認機能によって自動生成されました。*"

  datatype Button = Button(actionId: string, caption: string, style: Option<string>)

  /** A Block Kit block: a markdown section or a row of buttons. */
  datatype Block = Section(text: string) | Actions(elements: seq<Button>)

  /** One `client.chat.update`: the fallback text and the blocks. */
  datatype ChatUpdate = ChatUpdate(fallback: string, blocks: seq<Block>)

  const APPROVE_BUTTON: Button := Button(APPROVE_ACTION, "Approve", None)
  const REJECT_BUTTON: Button := Button(REJECT_ACTION, "Reject", Some("danger"))

  /** `buildGeminiReviewBlocks(responseMessage)`: the text, then Approve and Reject. */
  function BuildGeminiReviewBlocks(responseMessage: string): (blocks: seq<Block>)
    ensures |blocks| == 2
    ensures blocks[0] == Section(responseMessage)
    ensures blocks[1].Actions? && |blocks[1].elements| == 2
    ensures blocks[1].elements[0].actionId == APPROVE_ACTION && blocks[1].elements[1].actionId == REJECT_ACTION
    ensures blocks[1].elements[1].style == Some("danger") && blocks[1].elements[0].style.None?
  {
    [Section(responseMessage), Actions([APPROVE_BUTTON, REJECT_BUTTON])]
  }

  datatype ApprovalData = ApprovalData(originalMessage: string, geminiResponse: string, userId: string, channelId: string, timestamp: int)

  datatype IssueData = IssueData(title: string, body: string, labels: seq<string>, assignees: seq<string>)

  datatype Issue = Issue(number: int, url: string)
  datatype ProjectRef = ProjectRef(cardId: string, projectId: string)

  /**
   * What `githubService.createIssueAndAddToProject` does with the issue data:
   * a result with `success` true, one with `success` false and its `error`, or
   * a thrown exception with its `message`. `Failed` follows the flag, not the
   * issue's existence: an issue that was created but could not be added to the
   * project comes back as `success: false`, and the flow reports a failure.
   */
  datatype CreateOutcome = Succeeded(issue: Issue, project: ProjectRef) | Failed(error: string) | Threw(message: string)

  /** The object `createGitHubIssueFromApproval` resolves to. */
  datatype ApprovalResult =
    | IssueCreated(issue: Issue, project: ProjectRef, message: string)
    | IssueFailed(error: string, message: string)
  {
    predicate Success() { IssueCreated? }
  }

  /** The issue title: the prefix, the first 50 characters, and "..." exactly when the message is longer. */
  function IssueTitle(originalMessage: string): (title: string)
    ensures |originalMessage| <= TITLE_LENGTH ==> title == TITLE_PREFIX + originalMessage
    ensures |originalMessage| > TITLE_LENGTH ==>
              |title| == |TITLE_PREFIX| + TITLE_LENGTH + 3 &&
              title[..|TITLE_PREFIX|] == TITLE_PREFIX &&
              title[|TITLE_PREFIX|..|TITLE_PREFIX| + TITLE_LENGTH] == originalMessage[..TITLE_LENGTH] &&
              title[|TITLE_PREFIX| + TITLE_LENGTH..] == "..."
  {
    var cut := Preview(originalMessage, TITLE_LENGTH);
    assert (TITLE_PREFIX + cut)[|TITLE_PREFIX|..] == cut;
    TITLE_PREFIX + cut
  }

  /**
   * The issue body. `formatTime` stands for
   * `new Date(timestamp * 1000).toLocaleString('ja-JP')`.
   * The original message is quoted verbatim right after the opening fence.
   */
  function IssueBody(d: ApprovalData, formatTime: int -> string): (body: string)
    ensures |body| >= |BODY_HEAD| + |d.originalMessage| + |BODY_AFTER_MESSAGE| + |d.geminiResponse|
    ensures body[..|BODY_HEAD|] == BODY_HEAD
    ensures body[|BODY_HEAD|..|BODY_HEAD| + |d.originalMessage|] == d.originalMessage
    ensures var start := |BODY_HEAD| + |d.originalMessage| + |BODY_AFTER_MESSAGE|;
            body[start..start + |d.geminiResponse|] == d.geminiResponse
  {
    var rest := BODY_AFTER_RESPONSE + d.userId + BODY_AFTER_USER + d.channelId +
                BODY_AFTER_CHANNEL + formatTime(d.timestamp) + BODY_TAIL;
    PiecesInPlace(BODY_HEAD, d.originalMessage, BODY_AFTER_MESSAGE, d.geminiResponse, rest);
    BODY_HEAD + d.originalMessage + BODY_AFTER_MESSAGE + d.geminiResponse + rest
  }

  /** Where the first, second and fourth pieces of a five-part concatenation sit. */
  lemma PiecesInPlace<T>(a: seq<T>, b: seq<T>, c: seq<T>, e: seq<T>, rest: seq<T>)
    ensures var s := a + b + c + e + rest;
            |s| == |a| + |b| + |c| + |e| + |rest| &&
            s[..|a|] == a && s[|a|..|a| + |b|] == b &&
            s[|a| + |b| + |c|..|a| + |b| + |c| + |e|] == e
  {
    var s := a + b + c + e + rest;
    assert s == a + (b + (c + (e + rest)));
    assert s[|a|..] == b + (c + (e + rest));
    assert s[|a| + |b| + |c|..] == e + rest;
  }

  /** The `issueData` handed to the GitHub service. */
  function IssueRequest(d: ApprovalData, formatTime: int -> string): (issue: IssueData)
    ensures issue.labels == ["slack-bot", "gemini-approved", "auto-generated"]
    ensures issue.assignees == []
    ensures issue.title == IssueTitle(d.originalMessage)
    ensures issue.body == IssueBody(d, formatTime)
  {
    IssueData(IssueTitle(d.originalMessage), IssueBody(d, formatTime), ISSUE_LABELS, [])
  }

  /** The mapping of the service's outcome; a thrown exception is a failure like any other. */
  function ApprovalResultOf(outcome: CreateOutcome): (r: ApprovalResult)
    ensures r.Success() <==> outcome.Succeeded?
    ensures outcome.Succeeded? ==> r == IssueCreated(outcome.issue, outcome.project, CREATED_PREFIX + outcome.issue.url)
    ensures outcome.Failed? ==> r == IssueFailed(outcome.error, FAILED_PREFIX + outcome.error)
    ensures outcome.Threw? ==> r == IssueFailed(outcome.message, THREW_PREFIX + outcome.message)
  {
    match outcome
    case Succeeded(issue, project) => IssueCreated(issue, project, CREATED_PREFIX + issue.url)
    case Failed(error) => IssueFailed(error, FAILED_PREFIX + error)
    case Threw(message) => IssueFailed(message, THREW_PREFIX + message)
  }

  /** `createGitHubIssueFromApproval(approvalData, githubService)`. */
  function CreateGitHubIssueFromApproval(d: ApprovalData, formatTime: int -> string, github: IssueData -> CreateOutcome):
    (r: ApprovalResult)
    ensures var outcome := github(IssueRequest(d, formatTime));
            (r.Success() <==> outcome.Succeeded?) &&
            (outcome.Succeeded? ==> r.issue == outcome.issue && r.message == CREATED_PREFIX + outcome.issue.url) &&
            (outcome.Failed? ==> r.error == outcome.error && r.message == FAILED_PREFIX + outcome.error) &&
            (outcome.Threw? ==> r.error == outcome.message && r.message == THREW_PREFIX + outcome.message)
  {
    ApprovalResultOf(github(IssueRequest(d, formatTime)))
  }

  /** The section text after approval: the URL on success, the error otherwise. */
  function ApprovalUpdateText(r: ApprovalResult): (text: string)
    ensures r.Success() ==> text == APPROVED_HEADER + "\n\n✅ GitHubイシューを作成しました: " + r.issue.url
    ensures !r.Success() ==> text == APPROVED_HEADER + "\n\n❌ GitHubイシュー作成に失敗しました: " + r.error
  {
    if r.IssueCreated? then APPROVED_HEADER + "\n\n✅ GitHubイシューを作成しました: " + r.issue.url
    else APPROVED_HEADER + "\n\n❌ GitHubイシュー作成に失敗しました: " + r.error
  }

  /**
   * The message update `handleApprovalWithGitHub` makes: one section whose
   * text reports the issue's URL or the error.
   */
  function HandleApprovalWithGitHub(d: ApprovalData, formatTime: int -> string, github: IssueData -> CreateOutcome): (u: ChatUpdate)
    ensures u.fallback == APPROVED_FALLBACK
    ensures u.blocks == [Section(ApprovalUpdateText(CreateGitHubIssueFromApproval(d, formatTime, github)))]
  {
    var githubResult := CreateGitHubIssueFromApproval(d, formatTime, github);
    ChatUpdate(APPROVED_FALLBACK, [Section(ApprovalUpdateText(githubResult))])
  }

  /** The feedback turn: both the original message and the rejected proposal, verbatim, at fixed places. */
  function FeedbackMessage(originalMessage: string, geminiResponse: string): (text: string)
    ensures |text| == |FEEDBACK_HEAD| + |originalMessage| + |FEEDBACK_MIDDLE| + |geminiResponse| + |FEEDBACK_TAIL|
    ensures text[..|FEEDBACK_HEAD|] == FEEDBACK_HEAD
    ensures text[|FEEDBACK_HEAD|..|FEEDBACK_HEAD| + |originalMessage|] == originalMessage
    ensures var start := |FEEDBACK_HEAD| + |originalMessage| + |FEEDBACK_MIDDLE|;
            text[start..start + |geminiResponse|] == geminiResponse
  {
    var head := FEEDBACK_HEAD + originalMessage;
    var text := head + FEEDBACK_MIDDLE + geminiResponse + FEEDBACK_TAIL;
    assert text[..|head|] == head;
    text
  }

  /** `feedbackHistory`: the history, the rejected exchange, and the feedback turn. */
  function FeedbackHistory(history: seq<Content>, originalMessage: string, geminiResponse: string): (r: seq<Content>)
    ensures |r| == |history| + 3
    ensures r[..|history|] == history
    ensures r[|history|..] == [Content(USER, originalMessage), Content(MODEL, geminiResponse),
                               Content(USER, FeedbackMessage(originalMessage, geminiResponse))]
  {
    history + [Content(USER, originalMessage), Content(MODEL, geminiResponse),
               Content(USER, FeedbackMessage(originalMessage, geminiResponse))]
  }

  /** `feedbackHistory.slice(0, -1)`: everything but the feedback turn. */
  function SentHistory(history: seq<Content>, originalMessage: string, geminiResponse: string): (r: seq<Content>)
    ensures |r| == |history| + 2
    ensures r == history + [Content(USER, originalMessage), Content(MODEL, geminiResponse)]
  {
    var fh := FeedbackHistory(history, originalMessage, geminiResponse);
    SliceFrom(fh, 0)[..|fh| - 1]
  }

  /**
   * The message update `handleRejectionWithFeedback` makes. The model is
   * asked again with the feedback text and the history without the feedback
   * turn; a new proposal comes back with fresh Approve/Reject buttons, a
   * failure as a plain section with the wrapped error.
   */
  function HandleRejectionWithFeedback(originalMessage: string, geminiResponse: string, history: seq<Content>,
                                       backend: Gemini.GenerateRequest -> Result<string>): (u: ChatUpdate)
    ensures var newResponse := Gemini.GenerateContentWithHistory(
              FeedbackMessage(originalMessage, geminiResponse), SentHistory(history, originalMessage, geminiResponse), backend);
            (newResponse.Ok? ==>
               u == ChatUpdate(REJECTED_WITH_PROPOSAL_FALLBACK, BuildGeminiReviewBlocks(NEW_PROPOSAL_PREFIX + newResponse.value))) &&
            (newResponse.Err? ==>
               u == ChatUpdate(REJECTED_WITH_ERROR_FALLBACK, [Section(REJECT_ERROR_PREFIX + newResponse.error)]))
  {
    var feedbackMessage := FeedbackMessage(originalMessage, geminiResponse);
    var newResponse := Gemini.GenerateContentWithHistory(feedbackMessage, SentHistory(history, originalMessage, geminiResponse), backend);
    if newResponse.Ok? then
      var updateMessage := NEW_PROPOSAL_PREFIX + newResponse.value;
      ChatUpdate(REJECTED_WITH_PROPOSAL_FALLBACK, [
        Section(updateMessage),
        Actions([Button(APPROVE_ACTION, "Approve", None), Button(REJECT_ACTION, "Reject", Some("danger"))])])
    else
      ChatUpdate(REJECTED_WITH_ERROR_FALLBACK, [Section(REJECT_ERROR_PREFIX + newResponse.error)])
  }

  /**
   * The contents the model receives after a rejection are the whole feedback
   * history: the old turns, then user, model, user, the last being the feedback.
   */
  lemma RejectionPayloadIsFeedbackHistory(history: seq<Content>, originalMessage: string, geminiResponse: string)
    ensures Gemini.BuildContents(FeedbackMessage(originalMessage, geminiResponse), SentHistory(history, originalMessage, geminiResponse))
            == FeedbackHistory(history, originalMessage, geminiResponse)
    ensures var p := FeedbackHistory(history, originalMessage, geminiResponse);
            p[|p| - 3].role == USER && p[|p| - 2].role == MODEL && p[|p| - 1].role == USER
  {
    var p := FeedbackHistory(history, originalMessage, geminiResponse);
    assert p[|history|..][0] == p[|history|];
    assert p[|history|..][1] == p[|history| + 1];
    assert p[|history|..][2] == p[|history| + 2];
  }

  /** Creating and failing are told apart: the update text is the success text exactly when the issue was created. */
  lemma ApprovalTextsAreDistinct(a: ApprovalResult, b: ApprovalResult)
    requires a.Success() && !b.Success()
    ensures ApprovalUpdateText(a) != ApprovalUpdateText(b)
  {
    var k := |APPROVED_HEADER| + 2;
    assert ApprovalUpdateText(a)[k] == '✅';
    assert ApprovalUpdateText(b)[k] == '❌';
  }
}
