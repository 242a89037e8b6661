# AI Agent comparison page — view-state model

A Dafny model of the `App` component of the AI Agent front end (`App.jsx`).
The user types a question. Submitting sends it once to an aggregation backend.
The page then shows the answers of several AI agents side by side, or a single
error notice. The model covers the component's four state fields and the
handlers that update them. It also covers the enable conditions of the form
controls, the name-keyed icon and color catalogs, and which parts of the page
are rendered for a given state.

Modules:

- `Wrappers`: an `Option` type for JavaScript properties that may be absent.
- `Text`: `String.prototype.trim` over the ECMAScript whitespace set, and the
  blank test `!question.trim()`.
- `Catalog`: `AI_ICONS`, `AI_COLORS` and the four placeholder names. The icon
  lookup falls back to `Bot`. The color lookup has no fallback.
- `AppState`: the state as a value (`question`, `responses`, `loading`,
  `error`). One function per setter group of `handleSubmit` and `clearAll`.
  The three enable predicates. Lemmas on submission, completion and clearing.
- `AppComponent`: class `App` with the four fields, updated in place. Each
  method's new state is the matching `AppState` function of the old state.
- `Presenter`: `Render`, which gives the controls' flags, the error card, the
  loading placeholders and the answer cards of a state.
- `Session`: the page as an event machine. Typing, submit, clear and the
  settling of the outstanding request are the events. Events on disabled
  controls are dropped. An invariant holds over every run from mount.

The asynchronous `handleSubmit` is split in two. `HandleSubmit` is the
synchronous part up to the POST; it returns the request body, the trimmed
question. `CompleteOk` and `CompleteFail` are the two ways the request settles.
A non-ok status is `CompleteFail` with the message "Gagal mengirim pertanyaan".

Points where the code's behaviour may surprise a reader:

- The code keeps no request sequence number and never discards a result.
  What keeps a result from landing on a changed state is that the text area,
  submit and clear are all disabled while a request is outstanding.
  `Session.UserEventsWhilePending` proves that the result then lands on exactly
  the state its submission produced.
- `clearAll` does not reset `loading`. It resets only the question, the
  responses and the error.
- The color lookup has no fallback. An unknown agent name yields no color
  class (`None`).
- The state is four independent fields, not a tagged union. `Session.Inv`
  proves that reachable states still behave like one. `loading` holds exactly
  while a request is outstanding, and an error never coexists with answers.

## Model

| member | source | states |
|---|---|---|
| `Text.TrimStart` | App.jsx:32 | the result is the longest suffix of the input that does not start with whitespace; everything dropped is whitespace |
| `Text.TrimEnd` | App.jsx:32 | the result is the longest prefix of the input that does not end with whitespace; everything dropped is whitespace |
| `Text.Trim` | App.jsx:32 | the trimmed question is no longer than the input and neither starts nor ends with whitespace |
| `Text.TrimRemovesOnlyOuterWhitespace` | App.jsx:44 | the POST body `question.trim()` is an infix of the question with only whitespace before and after it |
| `Text.BlankIffAllWhitespace` | App.jsx:32 | `!question.trim()` holds exactly when every character of the question is whitespace |
| `Catalog.IconFor` | App.jsx:182 | a known name gets its `AI_ICONS` entry; the result is `Bot` exactly when the name is not in the catalog |
| `Catalog.ColorFor` | App.jsx:187 | a color class, non-empty, exists exactly for the four known names; any other name gets none |
| `Catalog.CatalogsAgree` | App.jsx:10-22 | the icon catalog, the color catalog and the placeholder list name the same four distinct agents |
| `AppState.ErrorText` | App.jsx:54 | the stored error is never empty: the thrown message when it is non-empty, otherwise the fixed fallback |
| `AppState.SubmitEnabled` | App.jsx:108 | submit is enabled iff not loading and the question has a non-whitespace character |
| `AppState.EditQuestion` | App.jsx:101 | typing replaces the question and leaves responses, loading and error as they were |
| `AppState.BeginSubmit` | App.jsx:32-36 | a whitespace-only question changes nothing at all; any other sets loading, clears error and responses, and keeps the question |
| `AppState.CompleteOk` | App.jsx:51-52 | loading ends; the responses become the returned list, or `[]` when it is absent; question and error are kept |
| `AppState.CompleteFail` | App.jsx:53-56 | loading ends and the error becomes non-empty; question and responses are kept |
| `AppState.Complete` | App.jsx:38-57 | every outcome ends loading and keeps the question; an ok status stores the list and keeps the error; a non-ok status stores the fixed message; a thrown error stores a non-empty message; failures keep the responses |
| `AppState.ClearAll` | App.jsx:60-64 | question, responses and error become empty; loading is unchanged |
| `AppState.SubmitThenComplete` | App.jsx:30-58 | after submit and completion, loading is false and the question is kept; success stores the list, or `[]` when absent, with no error; a non-ok status stores the fixed message; a thrown error stores its message or the fallback; failure leaves no responses |
| `AppState.ClearAllIdempotent` | App.jsx:60-64 | a second `clearAll` changes nothing |
| `AppComponent.App.constructor` | App.jsx:25-28 | the component mounts with an empty question, no responses, not loading and no error |
| `AppComponent.App.OnQuestionChange` | App.jsx:101 | typing replaces the question and nothing else |
| `AppComponent.App.HandleSubmit` | App.jsx:30-45 | a whitespace-only question issues no request and changes nothing; otherwise the POST body is the trimmed, non-empty question and the state enters loading with error and responses cleared |
| `AppComponent.App.CompleteOk` | App.jsx:51-56 | the responses become the returned list, or `[]` when it is absent; loading ends; question and error are kept |
| `AppComponent.App.CompleteFail` | App.jsx:47-56 | the error becomes a non-empty message; loading ends; question and responses are kept |
| `AppComponent.App.ClearAll` | App.jsx:60-64 | question, responses and error are reset; loading is unchanged |
| `Presenter.Cards` | App.jsx:181-211 | one card per response, same count, card i built from response i |
| `Presenter.Placeholders` | App.jsx:146-148 | none unless loading; while loading exactly the four names GPT-4, Claude, Gemini, Llama in order, each with a color class |
| `Presenter.CardFor` | App.jsx:182-209 | a card shows its entry's name, description, style and text; it has the `Bot` icon iff the name is unknown, a color class iff the name is known, and the per-agent notice iff the entry's `error` flag is set |
| `Presenter.Render` | App.jsx:137-216 | the error card is rendered iff the error is non-empty and shows it; the placeholders depend on loading alone; answers are rendered iff there is a response, with the heading count equal to the card count and the number of responses |
| `Presenter.ControlsGating` | App.jsx:103-127 | the text area and clear are enabled iff not loading; submit iff not loading and the question is not blank; the spinner shows iff loading |
| `Presenter.PlaceholdersIgnoreResponses` | App.jsx:146-148 | the placeholders do not depend on the responses; while loading there are exactly four, titled by the fixed names |
| `Presenter.AnswerSelection` | App.jsx:173-192 | answer cards are rendered iff there is at least one response; the heading count equals the card count; card i shows response i's name, text, icon and color |
| `Presenter.ErrorNoticeIsPerEntry` | App.jsx:205-209 | card i carries the per-agent notice iff `responses[i].error`; flipping one entry's flag changes no other card |
| `Session.Step` | App.jsx:30-64 | an event on a disabled control changes nothing; a delivered submit enters loading with the trimmed question as the outstanding request; a settling ends loading and the request; typing and clearing leave loading and the request alone |
| `Session.StepPreservesInv` | App.jsx:30-64 | every delivered event keeps the invariant: loading iff a request is outstanding; the request carries the trimmed current question; nothing stale while loading; no error beside answers |
| `Session.RunPreservesInv` | App.jsx:30-64 | the invariant holds after any sequence of events |
| `Session.ReachableStatesAreConsistent` | App.jsx:25-64 | every state reachable from mount satisfies the invariant |
| `Session.UserEventsWhilePending` | App.jsx:103-127 | while a request is outstanding, no typing, submitting or clearing changes anything |
| `Session.NoLeakageBetweenCycles` | App.jsx:30-64 | submit, success, clear, new question, submit: no answers or error survive, and the new request carries the new question |
| `Session.ResultsRegionIsExclusive` | App.jsx:137-216 | in a reachable state, placeholders exclude the error card and the answers, and an error excludes the answers |
| `Session.EmptySuccessShowsNothing` | App.jsx:52 | a successful empty or absent list shows no error, no placeholders and no cards, as at mount |

## Left out

- The `fetch` POST to the backend, its headers, `JSON.stringify` and `response.json()` (App.jsx:39-51) are network I/O and parsing by foreign code. Their result is the `FetchOutcome` parameter: a delivered optional list, a non-ok status, or a thrown error with an optional message.
- Async scheduling and React's batching of `useState` updates are left out. Each setter group is one atomic method or function.
- JSX markup, CSS classes, the lucide icons and the UI components (App.jsx:66-224) are presentation. Only the render choices are kept; an icon is a tag of the `Icon` datatype.
- `AiResponse.error` is a `bool`. In the source any JSON value is read for truthiness; absent, `null`, `false`, `0` and `""` all map to `false` here.
- `data.responses` is either a list or absent. A present but non-array value would behave differently in the source and is not modelled.
- `ai_name` is always a string. Names inherited from `Object.prototype` (`constructor`, `toString`, ...) are treated as unknown. In the source such names would find an inherited property in the catalogs.
- `Text.IsWhitespace` is the ECMAScript WhiteSpace and LineTerminator set of current Unicode. Changes to the space separator category in later Unicode versions are not tracked.
