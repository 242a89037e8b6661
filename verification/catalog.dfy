/** The static lookup tables keyed by agent name (App.jsx:10-22) and their use in rendering. */
module Catalog {
  import opened Wrappers

  /** The icon components the view can show; `Bot` is the generic one. */
  datatype Icon = Brain | Shield | Search | Sparkles | Bot

  /** `AI_ICONS` (App.jsx:10-15). */
  const AiIcons: map<string, Icon> :=
    map["GPT-4" := Brain, "Claude" := Shield, "Gemini" := Search, "Llama" := Sparkles]

  /** `AI_COLORS` (App.jsx:17-22): a background color class per agent name. */
  const AiColors: map<string, string> :=
    map["GPT-4" := "bg-blue-500", "Claude" := "bg-green-500",
        "Gemini" := "bg-purple-500", "Llama" := "bg-orange-500"]

  /** The agent names shown as placeholders while a request is outstanding (App.jsx:148). */
  const LoadingNames: seq<string> := ["GPT-4", "Claude", "Gemini", "Llama"]

  /** `AI_ICONS[name] || Bot` (App.jsx:182): the catalog icon, or `Bot` for an unknown name. */
  function IconFor(name: string): (r: Icon)
    ensures name in AiIcons ==> r == AiIcons[name]
    ensures r == Bot <==> name !in AiIcons
  {
    if name in AiIcons then AiIcons[name] else Bot
  }

  /** `AI_COLORS[name]` (App.jsx:187): no fallback, so an unknown name yields no color class. */
  function ColorFor(name: string): (r: Option<string>)
    ensures r.Some? <==> name in LoadingNames
    ensures r.Some? ==> r.value == AiColors[name] && r.value != ""
  {
    if name in AiColors then Some(AiColors[name]) else None
  }

  /** The two catalogs and the placeholder list name the same four distinct agents. */
  lemma CatalogsAgree()
    ensures AiIcons.Keys == AiColors.Keys == set n | n in LoadingNames
    ensures |LoadingNames| == 4
    ensures forall i, j :: 0 <= i < j < |LoadingNames| ==> LoadingNames[i] != LoadingNames[j]
  {
  }
}
