/**
 * What the `App` component renders for a given state (App.jsx:97-216), reduced
 * to the choices it makes: which controls are enabled, whether the error card,
 * the loading placeholders and the answer cards appear, and what each card shows.
 */
module Presenter {
  import opened Wrappers
  import opened Text
  import opened Catalog
  import opened AppState

  /** One answer card (App.jsx:184-211). */
  datatype Card = Card(
    title: string,            // `response.ai_name`
    description: string,      // `response.ai_description`
    badge: string,            // `response.style`
    text: string,             // `response.response`
    icon: Icon,
    color: Option<string>,
    errorNotice: bool)        // the per-agent notice of App.jsx:205-209

  /** One loading placeholder (App.jsx:149-167); its icon is always `Bot`. */
  datatype Placeholder = Placeholder(title: string, color: Option<string>)

  /** The enabled flags of the form controls and whether the submit button shows its spinner. */
  datatype Controls = Controls(
    textAreaEnabled: bool,
    submitEnabled: bool,
    clearEnabled: bool,
    submitSpinner: bool)

  /** The answers section (App.jsx:173-216): its heading count and its cards. */
  datatype AnswerSection = AnswerSection(count: nat, cards: seq<Card>)

  datatype View = View(
    controls: Controls,
    errorCard: Option<string>,
    placeholders: seq<Placeholder>,
    answers: Option<AnswerSection>)

  /**
   * The card for one response (App.jsx:182-209): its texts come from the entry,
   * the generic icon marks an unknown name, a color class exists only for a known
   * name, and the notice follows the entry's own flag.
   */
  function CardFor(r: AiResponse): (c: Card)
    ensures c.title == r.ai_name && c.description == r.ai_description
    ensures c.badge == r.style && c.text == r.response
    ensures c.icon == Bot <==> r.ai_name !in AiIcons
    ensures c.color.Some? <==> r.ai_name in LoadingNames
    ensures c.errorNotice <==> r.error
  {
    Card(r.ai_name, r.ai_description, r.style, r.response,
         IconFor(r.ai_name), ColorFor(r.ai_name), r.error)
  }

  /** `responses.map(...)` (App.jsx:181): one card per response, in order. */
  function Cards(rs: seq<AiResponse>): (r: seq<Card>)
    ensures |r| == |rs|
    ensures forall i :: 0 <= i < |rs| ==> r[i] == CardFor(rs[i])
  {
    if rs == [] then [] else [CardFor(rs[0])] + Cards(rs[1..])
  }

  /** The four placeholders of App.jsx:146-148, shown exactly while loading. */
  function Placeholders(loading: bool): (r: seq<Placeholder>)
    ensures !loading ==> r == []
    ensures loading ==> |r| == |LoadingNames| == 4
    ensures loading ==> forall i :: 0 <= i < |r| ==>
      r[i].title == LoadingNames[i] && r[i].color.Some?
  {
    if loading then
      seq(|LoadingNames|, i requires 0 <= i < |LoadingNames| =>
        Placeholder(LoadingNames[i], ColorFor(LoadingNames[i])))
    else []
  }

  function RenderControls(s: ViewState): Controls {
    Controls(TextAreaEnabled(s), SubmitEnabled(s), ClearEnabled(s), s.loading)
  }

  /**
   * The whole render selection for one state: the error card iff there is an
   * error, showing it (App.jsx:137-140); the placeholders by `loading` alone
   * (App.jsx:146); the answers iff there is a response (App.jsx:173), counted in
   * the heading (App.jsx:176), one card per response.
   */
  function Render(s: ViewState): (v: View)
    ensures v.errorCard.Some? <==> s.error != ""
    ensures v.errorCard.Some? ==> v.errorCard.value == s.error
    ensures v.placeholders == Placeholders(s.loading)
    ensures v.answers.Some? <==> |s.responses| > 0
    ensures v.answers.Some? ==>
      v.answers.value.count == |v.answers.value.cards| == |s.responses|
  {
    View(
      RenderControls(s),
      if s.error != "" then Some(s.error) else None,
      Placeholders(s.loading),
      if |s.responses| > 0 then Some(AnswerSection(|s.responses|, Cards(s.responses))) else None)
  }

  /**
   * The controls: text area and clear are enabled iff not loading; submit iff not
   * loading and the question has a visible character (App.jsx:103, 108, 111, 127).
   */
  lemma ControlsGating(s: ViewState)
    ensures var c := Render(s).controls;
      && (c.textAreaEnabled <==> !s.loading)
      && (c.clearEnabled <==> !s.loading)
      && (c.submitEnabled <==> !s.loading && !AllWhitespace(s.question))
      && (c.submitSpinner <==> s.loading)
  {
  }

  /** While loading, exactly the four fixed names are shown, whatever the responses are. */
  lemma PlaceholdersIgnoreResponses(s: ViewState, other: seq<AiResponse>)
    ensures Render(s).placeholders == Render(s.(responses := other)).placeholders
    ensures s.loading ==>
      |Render(s).placeholders| == 4 &&
      forall i :: 0 <= i < 4 ==> Render(s).placeholders[i].title == LoadingNames[i]
  {
  }

  /**
   * Answer cards appear iff there is at least one response, one per entry in
   * order, titled and decorated by that entry (App.jsx:173-205).
   */
  lemma AnswerSelection(s: ViewState)
    ensures Render(s).answers.Some? <==> |s.responses| > 0
    ensures Render(s).answers.Some? ==>
      var a := Render(s).answers.value;
      && a.count == |a.cards| == |s.responses|
      && forall i :: 0 <= i < |s.responses| ==>
           && a.cards[i].title == s.responses[i].ai_name
           && a.cards[i].text == s.responses[i].response
           && a.cards[i].icon == IconFor(s.responses[i].ai_name)
           && a.cards[i].color == ColorFor(s.responses[i].ai_name)
  {
  }

  /**
   * The per-agent notice of card i depends on `responses[i].error` alone: the
   * cards that carry it are exactly the entries flagged as errors.
   */
  lemma ErrorNoticeIsPerEntry(rs: seq<AiResponse>, i: nat)
    requires i < |rs|
    ensures Cards(rs)[i].errorNotice <==> rs[i].error
    ensures forall other: AiResponse :: other.error == rs[i].error ==>
      Cards(rs[i := other])[i].errorNotice == Cards(rs)[i].errorNotice
    ensures forall j :: 0 <= j < |rs| && j != i ==>
      Cards(rs[i := rs[i].(error := !rs[i].error)])[j] == Cards(rs)[j]
  {
  }
}
