/**
 * The `App` component's state holder: its four `useState` fields, updated in
 * place by the handlers. Each setter group of the source is one method, and
 * each method's new state is the matching function of `AppState`.
 */
module AppComponent {
  import opened Wrappers
  import opened Text
  import opened AppState

  class App {
    var question: string
    var responses: seq<AiResponse>
    var loading: bool
    var error: string

    /** The current state as a value. */
    function State(): ViewState
      reads this
    {
      ViewState(question, responses, loading, error)
    }

    /** The component mounts with an empty question, no responses, not loading, no error. */
    constructor ()
      ensures State() == Initial()
    {
      question, responses, loading, error := "", [], false, "";
    }

    /** `setQuestion(e.target.value)` (App.jsx:101). */
    method OnQuestionChange(text: string)
      modifies this
      ensures State() == EditQuestion(old(State()), text)
    {
      question := text;
    }

    /**
     * The synchronous part of `handleSubmit` (App.jsx:32-44). Returns the question
     * body of the POST it issues, or `None` when the trimmed question is empty and
     * it returns early.
     */
    method HandleSubmit() returns (request: Option<string>)
      modifies this
      ensures State() == BeginSubmit(old(State()))
      ensures request.None? <==> AllWhitespace(old(question))
      ensures request.Some? ==> request.value == Trim(old(question)) && request.value != ""
    {
      var body := Trim(question);
      BlankIffAllWhitespace(question);
      if body == [] {
        return None;
      }
      loading := true;
      error := "";
      responses := [];
      request := Some(body);
    }

    /** The request settled with an ok status and a parsed body (App.jsx:51-52, 56). */
    method CompleteOk(data: Option<seq<AiResponse>>)
      modifies this
      ensures State() == AppState.CompleteOk(old(State()), data)
      ensures !loading
    {
      responses := data.GetOr([]);
      loading := false;
    }

    /** The request threw, or its status was not ok (App.jsx:47-48, 53-56). */
    method CompleteFail(message: Option<string>)
      modifies this
      ensures State() == AppState.CompleteFail(old(State()), message)
      ensures !loading && error != ""
    {
      error := ErrorText(message);
      loading := false;
    }

    /** `clearAll` (App.jsx:60-64). */
    method ClearAll()
      modifies this
      ensures State() == AppState.ClearAll(old(State()))
      ensures loading == old(loading)
    {
      question := "";
      responses := [];
      error := "";
    }
  }
}
