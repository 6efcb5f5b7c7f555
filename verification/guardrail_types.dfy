/** The data structures shared by every guardrail: the guardrail type, the
    severity scale, the result record, rule tables, and the two abstract
    regular-expression capabilities the checks are parameterised over. */
module GuardrailTypes {
  import opened Wrappers
  import opened Seqs

  /** `GuardrailType`: the category a check reports. */
  datatype GuardrailType = Advice | Panic | Overconfidence | Prediction | Injection | Compliance {
    /** The enum's `.value`, as `get_summary` lists it. */
    function Value(): string {
      match this
      case Advice => "advice"
      case Panic => "panic"
      case Overconfidence => "overconfidence"
      case Prediction => "prediction"
      case Injection => "injection"
      case Compliance => "compliance"
    }
  }

  /** The source's severity strings "critical", "high", "medium", "low". */
  datatype Severity = Critical | High | Medium | Low

  /** `GuardrailResult` without its timestamp (a clock read). Every field the
      source leaves at its default is written out: a result that did not
      trigger keeps the dataclass default severity, Medium. */
  datatype GuardrailResult = GuardrailResult(
    triggered: bool,
    guardrailType: GuardrailType,
    name: string,
    reason: Option<string>,
    matchedPattern: Option<string>,
    originalText: Option<string>,
    rewrittenText: Option<string>,
    severity: Severity)

  /** One `(pattern, reason)` row of a first-match detector table. */
  datatype Rule = Rule(pattern: string, reason: string)

  /** One `(pattern, reason, weight)` row of the panic table. */
  datatype WeightedRule = WeightedRule(pattern: string, reason: string, weight: nat)

  /** One `(pattern, replacement)` row of a sanitizer or rewriter table. */
  datatype Substitution = Substitution(pattern: string, replacement: string)

  /** The pattern column of a detector table. */
  function RulePatterns(rules: seq<Rule>): (ps: seq<string>)
    ensures |ps| == |rules|
    ensures forall i :: 0 <= i < |rules| ==> ps[i] == rules[i].pattern
  {
    seq(|rules|, i requires 0 <= i < |rules| => rules[i].pattern)
  }

  function SubstitutionPattern(s: Substitution): string { s.pattern }

  /** The pattern column of a substitution table. */
  function SubstitutionPatterns(subs: seq<Substitution>): seq<string> {
    Map(subs, SubstitutionPattern)
  }

  /** `re.search(pattern, text) is not None`, left abstract. */
  type Matcher = (string, string) -> bool

  /** `re.sub(pattern, replacement, text, flags=re.IGNORECASE)`, left abstract. */
  type Substituter = (string, string, string) -> string

  /** The record shape of a check that did not fire (the invariant the
      source's dataclass keeps: nothing explains a non-trigger). */
  ghost predicate Quiet(r: GuardrailResult) {
    !r.triggered && r.reason.None? && r.matchedPattern.None? && r.rewrittenText.None?
  }

  function IsTriggered(r: GuardrailResult): bool {
    r.triggered
  }

  /** Every triggered result, in result order, and nothing else. */
  function TriggeredOf(results: seq<GuardrailResult>): (t: seq<GuardrailResult>)
    ensures SubsequenceOf(t, results)
    ensures forall i :: 0 <= i < |t| ==> t[i].triggered && t[i] in results
    ensures forall i :: 0 <= i < |results| && results[i].triggered ==> results[i] in t
    ensures |t| == Count(results, IsTriggered)
  {
    Filter(results, IsTriggered)
  }
}
