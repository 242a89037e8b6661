/**
 * The view state of the `App` component (App.jsx:25-28) as a value, and the
 * state changes its handlers make (App.jsx:30-64), one function per setter group.
 * These functions are the specification of the methods of `AppComponent.App`.
 */
module AppState {
  import opened Wrappers
  import opened Text

  /** One agent's answer as the backend returns it; field names as read at App.jsx:182-205. */
  datatype AiResponse = AiResponse(
    ai_name: string,
    ai_description: string,
    style: string,
    response: string,
    error: bool)

  /** The four `useState` fields of `App`. */
  datatype ViewState = ViewState(
    question: string,
    responses: seq<AiResponse>,
    loading: bool,
    error: string)

  /** How the `fetch` exchange of App.jsx:39-51 settles. */
  datatype FetchOutcome =
    | Delivered(data: Option<seq<AiResponse>>)  // ok status; `data.responses` present or absent
    | NotOk                                      // `!response.ok` (App.jsx:47)
    | Rejected(message: Option<string>)          // `fetch` or `response.json()` threw; `err.message`

  /** The message thrown for a non-ok status (App.jsx:48). */
  const NotOkMessage: string := "Gagal mengirim pertanyaan"

  /** The message used when the thrown error has no message (App.jsx:54). */
  const FallbackMessage: string := "Terjadi kesalahan saat mengirim pertanyaan"

  /** The state at mount (App.jsx:25-28). */
  function Initial(): ViewState {
    ViewState("", [], false, "")
  }

  /** The text area's `onChange` (App.jsx:101). */
  function EditQuestion(s: ViewState, text: string): (r: ViewState)
    ensures r.question == text
    ensures r.responses == s.responses && r.loading == s.loading && r.error == s.error
  {
    s.(question := text)
  }

  /**
   * The synchronous part of `handleSubmit` (App.jsx:32-36). A whitespace-only
   * question changes nothing at all; any other enters loading, clears the previous
   * error and responses before the request settles, and keeps the question.
   */
  function BeginSubmit(s: ViewState): (r: ViewState)
    ensures AllWhitespace(s.question) ==> r == s
    ensures !AllWhitespace(s.question) ==>
      r.loading && r.error == "" && r.responses == [] && r.question == s.question
  {
    if IsBlank(s.question) then s
    else s.(loading := true, error := "", responses := [])
  }

  /** `err.message || 'Terjadi kesalahan ...'` (App.jsx:54). */
  function ErrorText(message: Option<string>): (r: string)
    ensures r != ""
    ensures message.Some? && message.value != "" ==> r == message.value
    ensures message.None? || message.value == "" ==> r == FallbackMessage
  {
    if message.Some? && message.value != "" then message.value else FallbackMessage
  }

  /** The success path: `setResponses(data.responses || [])` then `setLoading(false)` (App.jsx:52, 56). */
  function CompleteOk(s: ViewState, data: Option<seq<AiResponse>>): (r: ViewState)
    ensures !r.loading && r.question == s.question && r.error == s.error
    ensures data.Some? ==> r.responses == data.value
    ensures data.None? ==> r.responses == []
  {
    s.(responses := data.GetOr([]), loading := false)
  }

  /** The `catch` path: `setError(...)` then `setLoading(false)` (App.jsx:54, 56). */
  function CompleteFail(s: ViewState, message: Option<string>): (r: ViewState)
    ensures !r.loading && r.error != ""
    ensures r.question == s.question && r.responses == s.responses
  {
    s.(error := ErrorText(message), loading := false)
  }

  /** The asynchronous part of `handleSubmit` (App.jsx:38-57), by outcome. */
  function Complete(s: ViewState, outcome: FetchOutcome): (r: ViewState)
    ensures !r.loading && r.question == s.question
    ensures outcome.Delivered? ==> r.error == s.error && r.responses == outcome.data.GetOr([])
    ensures outcome.NotOk? ==> r.error == NotOkMessage && r.responses == s.responses
    ensures outcome.Rejected? ==> r.error != "" && r.responses == s.responses
  {
    match outcome
    case Delivered(data) => CompleteOk(s, data)
    case NotOk => CompleteFail(s, Some(NotOkMessage))
    case Rejected(message) => CompleteFail(s, message)
  }

  /** `clearAll` (App.jsx:60-64); it does not touch `loading`. */
  function ClearAll(s: ViewState): (r: ViewState)
    ensures r.question == "" && r.responses == [] && r.error == ""
    ensures r.loading == s.loading
  {
    s.(question := "", responses := [], error := "")
  }

  /** The text area is enabled when not loading (App.jsx:103). */
  predicate TextAreaEnabled(s: ViewState) {
    !s.loading
  }

  /** The submit button, `disabled={loading || !question.trim()}` (App.jsx:108). */
  predicate SubmitEnabled(s: ViewState)
    ensures SubmitEnabled(s) <==> !s.loading && exists i :: 0 <= i < |s.question| && !IsWhitespace(s.question[i])
  {
    BlankIffAllWhitespace(s.question);
    !(s.loading || IsBlank(s.question))
  }

  /** The clear button is enabled when not loading (App.jsx:127). */
  predicate ClearEnabled(s: ViewState) {
    !s.loading
  }

  /**
   * A submission followed by its completion: loading ends either way; success
   * stores the list (or `[]` when absent) with no error; failure stores a
   * non-empty message and no responses.
   */
  lemma SubmitThenComplete(s: ViewState, outcome: FetchOutcome)
    requires !AllWhitespace(s.question)
    ensures var t := Complete(BeginSubmit(s), outcome);
      && !t.loading
      && t.question == s.question
      && (outcome.Delivered? ==> t.error == "" && t.responses == outcome.data.GetOr([]))
      && (outcome.NotOk? ==> t.error == NotOkMessage && t.responses == [])
      && (outcome.Rejected? ==> t.error != "" && t.responses == [])
      && (outcome.Rejected? && outcome.message.Some? && outcome.message.value != "" ==>
            t.error == outcome.message.value)
      && (outcome.Rejected? && (outcome.message.None? || outcome.message.value == "") ==>
            t.error == FallbackMessage)
  {
  }

  /** A second `clearAll` changes nothing. */
  lemma ClearAllIdempotent(s: ViewState)
    ensures ClearAll(ClearAll(s)) == ClearAll(s)
  {
  }
}
