/** Analysis presets: the slash commands that swap the system prompt and
    the thinking level for one chat turn. */
module Presets {
  import opened Wrappers
  import opened Text
  import Validation

  /** The preset prompts, abbreviated to their opening sentence; the model
      only relies on their being distinct. */
  const REPORT_PROMPT: string := "You are a concise executive summarizer analyzing multiple data sources."
  const SYNTHESIZE_PROMPT: string := "You are a research synthesizer identifying novel insights and patterns."
  const ERROR_CHECK_PROMPT: string := "You are a meticulous fact-checker identifying contradictions and inconsistencies."

  const REPORT_ALIASES: seq<string> := ["/report", "/summarize", "/digest"]
  const SYNTHESIZE_ALIASES: seq<string> := ["/synthesize", "/theory", "/insights"]
  const ERROR_CHECK_ALIASES: seq<string> := ["/error-check", "/contradictions", "/verify"]

  /** The nine aliases recognised. */
  predicate IsAlias(c: string) {
    c in REPORT_ALIASES || c in SYNTHESIZE_ALIASES || c in ERROR_CHECK_ALIASES
  }

  /** The normalisation both lookups apply to the command: `lower().strip()`. */
  function Normalize(command: string): string {
    Strip(Lower(command))
  }

  /** `get_preset`: the preset's prompt and thinking level. */
  function GetPreset(command: string): (r: (Option<string>, Option<string>))
    ensures r.0.Some? <==> r.1.Some?
    ensures r.0.Some? <==> IsAlias(Normalize(command))
    ensures Normalize(command) in REPORT_ALIASES ==> r == (Some(REPORT_PROMPT), Some("medium"))
    ensures Normalize(command) in SYNTHESIZE_ALIASES ==> r == (Some(SYNTHESIZE_PROMPT), Some("high"))
    ensures Normalize(command) in ERROR_CHECK_ALIASES ==> r == (Some(ERROR_CHECK_PROMPT), Some("high"))
  {
    var c := Normalize(command);
    if c in REPORT_ALIASES then (Some(REPORT_PROMPT), Some("medium"))
    else if c in SYNTHESIZE_ALIASES then (Some(SYNTHESIZE_PROMPT), Some("high"))
    else if c in ERROR_CHECK_ALIASES then (Some(ERROR_CHECK_PROMPT), Some("high"))
    else (None, None)
  }

  /** `get_preset_indicator`: the label shown when a preset is used. */
  function GetPresetIndicator(command: string): (r: Option<string>)
    ensures r.Some? <==> GetPreset(command).0.Some?
  {
    var c := Normalize(command);
    if c in REPORT_ALIASES then Some("\U{1F4CB} REPORT MODE")
    else if c in SYNTHESIZE_ALIASES then Some("\U{1F52C} SYNTHESIS MODE")
    else if c in ERROR_CHECK_ALIASES then Some("\U{1F50D} ERROR-CHECK MODE")
    else None
  }

  /** The three groups are disjoint, so the order of the tests does not
      matter and each alias names one preset. */
  lemma AliasGroupsDisjoint()
    ensures forall c :: c in REPORT_ALIASES ==> c !in SYNTHESIZE_ALIASES && c !in ERROR_CHECK_ALIASES
    ensures forall c :: c in SYNTHESIZE_ALIASES ==> c !in ERROR_CHECK_ALIASES
  {
  }

  /** The lookup ignores case and surrounding whitespace: looking up the
      normalised command gives the same preset. */
  lemma GetPresetNormalized(command: string)
    ensures GetPreset(Normalize(command)) == GetPreset(command)
    ensures GetPresetIndicator(Normalize(command)) == GetPresetIndicator(command)
  {
    NormalizeIdempotent(command);
  }

  /** Every level a preset selects is accepted by the thinking-level
      validator, unchanged. */
  lemma PresetLevelsValid(command: string)
    requires GetPreset(command).1.Some?
    ensures Validation.ValidateThinkingLevel(GetPreset(command).1.value) == Ok(GetPreset(command).1.value)
  {
    var level := GetPreset(command).1.value;
    assert level == "medium" || level == "high";
    assert Lower(level) == level;
    StripUnchanged(level);
  }
}
