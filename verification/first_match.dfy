/** The shape shared by eight of the nine detectors: walk an ordered
    `(pattern, reason)` table over the lower-cased text and report the first
    row that matches, with the detector's fixed type, name and severity. */
module FirstMatch {
  import opened Wrappers
  import opened GuardrailTypes
  import opened Text

  /** Some pattern of the table matches `text`. */
  ghost predicate AnyMatches(m: Matcher, patterns: seq<string>, text: string) {
    exists i :: 0 <= i < |patterns| && m(patterns[i], text)
  }

  /** Pattern `i` matches `text` and no earlier pattern does. */
  ghost predicate IsFirstMatch(m: Matcher, patterns: seq<string>, text: string, i: int) {
    && 0 <= i < |patterns|
    && m(patterns[i], text)
    && forall j :: 0 <= j < i ==> !m(patterns[j], text)
  }

  /** The scan over a table that stops at the first matching row: the index
      of that row, if any. */
  function FirstMatchIndex(m: Matcher, patterns: seq<string>, text: string): (r: Option<nat>)
    ensures r.None? <==> !AnyMatches(m, patterns, text)
    ensures r.Some? ==> IsFirstMatch(m, patterns, text, r.value)
  {
    if |patterns| == 0 then None
    else if m(patterns[0], text) then Some(0)
    else
      match FirstMatchIndex(m, patterns[1..], text)
      case None =>
        assert forall i :: 1 <= i < |patterns| ==> patterns[i] == patterns[1..][i - 1];
        None
      case Some(k) =>
        assert forall j :: 1 <= j < k + 1 ==> patterns[j] == patterns[1..][j - 1];
        Some(k + 1)
  }

  /** A first-match detector: its `guardrail_name`, `guardrail_type`, the
      severity it reports when it fires, and its pattern table. */
  datatype Detector = Detector(name: string, guardrailType: GuardrailType, severity: Severity, rules: seq<Rule>)

  /** One run of a first-match detector over `text`. */
  function RunFirstMatch(d: Detector, m: Matcher, text: string): (r: GuardrailResult)
    ensures r.name == d.name && r.guardrailType == d.guardrailType
    ensures r.originalText == Some(text) && r.rewrittenText.None?
    ensures r.triggered <==> AnyMatches(m, RulePatterns(d.rules), Lower(text))
    ensures r.triggered ==> r.severity == d.severity
    ensures r.triggered ==>
      exists i :: IsFirstMatch(m, RulePatterns(d.rules), Lower(text), i)
        && r.reason == Some(d.rules[i].reason)
        && r.matchedPattern == Some(d.rules[i].pattern)
    ensures !r.triggered ==> Quiet(r) && r.severity == Medium
  {
    var lowered := Lower(text);
    match FirstMatchIndex(m, RulePatterns(d.rules), lowered)
    case Some(i) =>
      GuardrailResult(true, d.guardrailType, d.name, Some(d.rules[i].reason),
                      Some(d.rules[i].pattern), Some(text), None, d.severity)
    case None =>
      GuardrailResult(false, d.guardrailType, d.name, None, None, Some(text), None, Medium)
  }

  /** Detection reads the text only through its lower-cased form: two texts
      that lower-case alike get the same verdict, reason and pattern. */
  lemma RunFirstMatchCaseInsensitive(d: Detector, m: Matcher, a: string, b: string)
    requires Lower(a) == Lower(b)
    ensures RunFirstMatch(d, m, a).(originalText := None) == RunFirstMatch(d, m, b).(originalText := None)
  {
  }
}
