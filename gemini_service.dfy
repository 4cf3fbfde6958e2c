/**
 * services/geminiService.js: the `contents` payload sent to the model and
 * the rewrapping of the backend's errors. The GoogleGenAI call is a function
 * parameter that may fail; its `Err` carries the cause's `message`.
 */
module Gemini {
  import opened Common

  /** The model name every request names. */
  const GEMINI_MODEL: string := "gemini-2.5-flash"

  /** Prefix of the one error a failed call surfaces as. */
  const API_ERROR_PREFIX: string := "Gemini API呼び出しエラー: "

  /** The argument of `ai.models.generateContent`. */
  datatype GenerateRequest = GenerateRequest(model: string, contents: seq<Content>)

  /** `generateResponse`'s `contents`: a copy of the history with the message as a final `user` turn. */
  function BuildContents(message: string, history: seq<Content>): (contents: seq<Content>)
    ensures |contents| == |history| + 1
    ensures contents[..|history|] == history
    ensures contents[|history|] == Content(USER, message)
  {
    history + [Content(USER, message)]
  }

  /** The `catch` of both generators: a failure becomes one error with the prefix and the cause. */
  function WrapError(outcome: Result<string>): (r: Result<string>)
    ensures outcome.Ok? ==> r == outcome
    ensures outcome.Err? ==> r.Err? && |r.error| == |API_ERROR_PREFIX| + |outcome.error|
    ensures outcome.Err? ==> r.error[..|API_ERROR_PREFIX|] == API_ERROR_PREFIX && r.error[|API_ERROR_PREFIX|..] == outcome.error
  {
    if outcome.Ok? then outcome else Err(API_ERROR_PREFIX + outcome.error)
  }

  /**
   * `generateResponse(message, conversationHistory)`: the backend's text on
   * success, the wrapped cause otherwise.
   */
  function GenerateResponse(message: string, history: seq<Content>, backend: GenerateRequest -> Result<string>): (r: Result<string>)
    ensures var outcome := backend(GenerateRequest(GEMINI_MODEL, BuildContents(message, history)));
            (r.Ok? <==> outcome.Ok?) &&
            (r.Ok? ==> r.value == outcome.value) &&
            (r.Err? ==> r.error == API_ERROR_PREFIX + outcome.error)
  {
    WrapError(backend(GenerateRequest(GEMINI_MODEL, BuildContents(message, history))))
  }

  /**
   * `generateContentWithHistory(message, history)`: written with its own
   * array literal, it sends exactly what `generateResponse` sends.
   */
  function GenerateContentWithHistory(message: string, history: seq<Content>, backend: GenerateRequest -> Result<string>): (r: Result<string>)
    ensures r == GenerateResponse(message, history, backend)
  {
    var contents := history + [Content(USER, message)];
    var outcome := backend(GenerateRequest(GEMINI_MODEL, contents));
    if outcome.Ok? then Ok(outcome.value) else Err(API_ERROR_PREFIX + outcome.error)
  }

  /** `generateResponseForSession(message, conversationHistory)`: delegation to the multi-turn form. */
  function GenerateResponseForSession(message: string, history: seq<Content>, backend: GenerateRequest -> Result<string>): (r: Result<string>)
    ensures r == GenerateResponse(message, history, backend)
  {
    GenerateContentWithHistory(message, history, backend)
  }

  /**
   * With distinct error causes the wrapped errors stay distinct, and a
   * wrapped error is never mistaken for a reply: the outcome is recoverable.
   */
  lemma WrapErrorIsInjective(a: Result<string>, b: Result<string>)
    requires WrapError(a) == WrapError(b)
    ensures a == b
  {
    if a.Err? && b.Err? {
      assert a.error == WrapError(a).error[|API_ERROR_PREFIX|..];
      assert b.error == WrapError(b).error[|API_ERROR_PREFIX|..];
    }
  }
}
