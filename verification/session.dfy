/**
 * One browsing session of the page: the component state together with the
 * request that may be outstanding, driven by the events the page can deliver.
 * A click or keystroke on a disabled control (App.jsx:103, 108, 127) is not
 * delivered; a request's result is applied when it settles. The component keeps
 * no request number: the disabled controls are what keep a late result from
 * landing on a state the user has changed since.
 */
module Session {
  import opened Wrappers
  import opened Text
  import opened AppState
  import opened Presenter

  datatype Event =
    | Type(text: string)             // typing in the text area
    | Submit                          // the submit button
    | Clear                           // the clear button
    | Settle(outcome: FetchOutcome)   // the outstanding request settles

  /** The component state and the question body of the outstanding POST, if any. */
  datatype Session = Session(view: ViewState, pending: Option<string>)

  function Start(): Session {
    Session(Initial(), None)
  }

  /** Whether the page delivers the event in this state. */
  predicate Enabled(s: Session, ev: Event) {
    match ev
    case Type(_) => TextAreaEnabled(s.view)
    case Submit => SubmitEnabled(s.view)
    case Clear => ClearEnabled(s.view)
    case Settle(_) => s.pending.Some?
  }

  /**
   * One event. An event the page does not deliver leaves everything as it was.
   * A delivered submit issues the request with the trimmed question and enters
   * loading; a settling ends it; typing and clearing leave the request alone.
   */
  function Step(s: Session, ev: Event): (r: Session)
    ensures !Enabled(s, ev) ==> r == s
    ensures Enabled(s, ev) && ev.Submit? ==>
      r.view.loading && r.pending == Some(Trim(s.view.question)) && r.view.question == s.view.question
    ensures Enabled(s, ev) && ev.Settle? ==>
      r.pending.None? && !r.view.loading && r.view.question == s.view.question
    ensures ev.Type? || ev.Clear? ==> r.pending == s.pending && r.view.loading == s.view.loading
    ensures Enabled(s, ev) && ev.Type? ==> r.view.question == ev.text
    ensures Enabled(s, ev) && ev.Clear? ==>
      r.view.question == "" && r.view.responses == [] && r.view.error == ""
  {
    if !Enabled(s, ev) then s
    else match ev
      case Type(text) => s.(view := EditQuestion(s.view, text))
      case Submit => Session(BeginSubmit(s.view), Some(Trim(s.view.question)))
      case Clear => s.(view := ClearAll(s.view))
      case Settle(outcome) => Session(Complete(s.view, outcome), None)
  }

  /** A sequence of events, applied in order. */
  function Run(s: Session, evs: seq<Event>): Session
    decreases |evs|
  {
    if evs == [] then s else Run(Step(s, evs[0]), evs[1..])
  }

  /**
   * What holds in every state the page can reach: loading exactly while a request
   * is outstanding; that request carries the trimmed, non-empty current question;
   * while loading nothing stale is shown; an error and answers never coexist.
   */
  predicate Inv(s: Session) {
    && (s.view.loading <==> s.pending.Some?)
    && (s.pending.Some? ==> s.pending.value == Trim(s.view.question) && s.pending.value != "")
    && (s.view.loading ==> s.view.error == "" && s.view.responses == [])
    && (s.view.error != "" ==> s.view.responses == [])
  }

  lemma StepPreservesInv(s: Session, ev: Event)
    requires Inv(s)
    ensures Inv(Step(s, ev))
  {
    if Enabled(s, ev) {
      match ev
      case Type(_) =>
      case Submit =>
        BlankIffAllWhitespace(s.view.question);
      case Clear =>
      case Settle(outcome) =>
        assert Step(s, ev).pending.None? && !Step(s, ev).view.loading;
    }
  }

  lemma {:induction false} RunPreservesInv(s: Session, evs: seq<Event>)
    requires Inv(s)
    ensures Inv(Run(s, evs))
    decreases |evs|
  {
    if evs != [] {
      StepPreservesInv(s, evs[0]);
      RunPreservesInv(Step(s, evs[0]), evs[1..]);
    }
  }

  /** Every state reached from mount by any events satisfies the invariant. */
  lemma ReachableStatesAreConsistent(evs: seq<Event>)
    ensures Inv(Run(Start(), evs))
  {
    RunPreservesInv(Start(), evs);
  }

  /**
   * While a request is outstanding, no typing, submitting or clearing changes
   * anything, so its result is applied to the very state its submission produced:
   * at most one request is outstanding and none is superseded.
   */
  lemma {:induction false} UserEventsWhilePending(s: Session, evs: seq<Event>)
    requires Inv(s) && s.pending.Some?
    requires forall i :: 0 <= i < |evs| ==> !evs[i].Settle?
    ensures Run(s, evs) == s
    decreases |evs|
  {
    if evs != [] {
      assert Step(s, evs[0]) == s;
      UserEventsWhilePending(s, evs[1..]);
    }
  }

  /**
   * Submit, succeed, clear, type a new question, submit again: nothing of the
   * first cycle's answers or error is left, and the new request carries the new
   * question.
   */
  lemma NoLeakageBetweenCycles(s: Session, answers: seq<AiResponse>, next: string)
    requires Inv(s) && s.pending.None?
    requires !AllWhitespace(s.view.question) && !AllWhitespace(next)
    ensures var t := Run(s, [Submit, Settle(Delivered(Some(answers))), Clear, Type(next), Submit]);
      && t.view == ViewState(next, [], true, "")
      && t.pending == Some(Trim(next))
  {
    BlankIffAllWhitespace(s.view.question);
    BlankIffAllWhitespace(next);
    var evs := [Submit, Settle(Delivered(Some(answers))), Clear, Type(next), Submit];
    var s1 := Step(s, Submit);
    var s2 := Step(s1, evs[1]);
    var s3 := Step(s2, Clear);
    var s4 := Step(s3, evs[3]);
    assert Run(s, evs) == Run(s1, evs[1..]);
    assert Run(s1, evs[1..]) == Run(s2, evs[2..]);
    assert Run(s2, evs[2..]) == Run(s3, evs[3..]);
    assert Run(s3, evs[3..]) == Run(s4, evs[4..]);
    assert Run(s4, evs[4..]) == Step(s4, Submit);
  }

  /**
   * In a reachable state the results region shows one thing at a time: the
   * placeholders exclude the error card and the answers, and a whole-request
   * error excludes the answers.
   */
  lemma ResultsRegionIsExclusive(s: Session)
    requires Inv(s)
    ensures var v := Render(s.view);
      && (v.placeholders != [] ==> v.errorCard.None? && v.answers.None?)
      && (v.errorCard.Some? ==> v.answers.None?)
  {
  }

  /** A successful but empty answer list leaves the results region blank, as at mount. */
  lemma EmptySuccessShowsNothing(s: Session)
    requires Inv(s) && s.pending.Some?
    ensures var v := Render(Step(s, Settle(Delivered(None))).view);
      v.errorCard.None? && v.placeholders == [] && v.answers.None?
    ensures Step(s, Settle(Delivered(Some([])))) == Step(s, Settle(Delivered(None)))
  {
  }
}
