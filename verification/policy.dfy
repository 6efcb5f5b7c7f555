/** The decision rule of `GuardrailRunner.run_pre_llm` and the audit
    summary of `GuardrailRunner.get_summary`, stated for any list of
    results. */
module Policy {
  import opened Seqs
  import opened GuardrailTypes

  /** The four actions the runner recommends: "proceed", "refuse", "calm"
      and "rewrite". */
  datatype Action = Proceed | Refuse | Calm | Rewrite

  ghost predicate AnyTriggered(results: seq<GuardrailResult>) {
    exists i :: 0 <= i < |results| && results[i].triggered
  }

  ghost predicate AnyCritical(results: seq<GuardrailResult>) {
    exists i :: 0 <= i < |results| && results[i].triggered && results[i].severity == Critical
  }

  ghost predicate AnyPanic(results: seq<GuardrailResult>) {
    exists i :: 0 <= i < |results| && results[i].triggered && results[i].guardrailType == Panic
  }

  /** The decision rule, in strict priority order: nothing triggered means
      proceed; any critical trigger means refuse (and block); otherwise any
      panic-type trigger means calm; anything else that triggered means
      rewrite. Only refusal blocks. */
  ghost predicate PriorityPolicy(results: seq<GuardrailResult>, shouldBlock: bool, action: Action) {
    && (shouldBlock <==> action == Refuse)
    && (action == Proceed <==> !AnyTriggered(results))
    && (action == Refuse <==> AnyCritical(results))
    && (action == Calm <==> !AnyCritical(results) && AnyPanic(results))
    && (action == Rewrite <==> AnyTriggered(results) && !AnyCritical(results) && !AnyPanic(results))
  }

  function IsCritical(r: GuardrailResult): bool {
    r.severity == Critical
  }

  function IsPanicType(r: GuardrailResult): bool {
    r.guardrailType == Panic
  }

  /** A filter of the triggered results is non-empty exactly when some
      triggered result satisfies the predicate. */
  lemma TriggeredFilterNonEmpty(results: seq<GuardrailResult>, p: GuardrailResult -> bool)
    ensures |Filter(TriggeredOf(results), p)| > 0 <==>
      exists i :: 0 <= i < |results| && results[i].triggered && p(results[i])
  {
    FilterTwiceEmptyIff(results, IsTriggered, p);
  }

  /** The tail of `run_pre_llm`: select the fired, the fired critical and
      the fired PANIC-type results, and return by priority. */
  function Decide(results: seq<GuardrailResult>): (d: (bool, Action))
    ensures PriorityPolicy(results, d.0, d.1)
  {
    var triggered := TriggeredOf(results);
    FilterEmptyIff(results, IsTriggered);
    TriggeredFilterNonEmpty(results, IsCritical);
    TriggeredFilterNonEmpty(results, IsPanicType);
    if |triggered| == 0 then (false, Proceed)
    else if |Filter(triggered, IsCritical)| > 0 then (true, Refuse)
    else if |Filter(triggered, IsPanicType)| > 0 then (false, Calm)
    else (false, Rewrite)
  }

  /** Under the priority policy, "rewrite" needs a firing result that is
      neither critical nor PANIC-type. */
  lemma PolicyRewriteNeedsOtherTrigger(results: seq<GuardrailResult>, block: bool, action: Action)
    requires PriorityPolicy(results, block, action)
    requires forall i :: 0 <= i < |results| && results[i].triggered ==>
      results[i].severity == Critical || results[i].guardrailType == Panic
    ensures action != Rewrite
  {
    if AnyTriggered(results) {
      var i :| 0 <= i < |results| && results[i].triggered;
      if results[i].severity == Critical {
        assert AnyCritical(results);
      } else {
        assert AnyPanic(results);
      }
    }
  }

  /** The summary dictionary of `get_summary`. */
  datatype Summary = Summary(
    totalChecks: nat,
    triggeredCount: nat,
    triggeredGuardrails: seq<string>,
    severities: seq<Severity>,
    types: seq<string>)

  function ResultName(r: GuardrailResult): string { r.name }

  function ResultSeverity(r: GuardrailResult): Severity { r.severity }

  function ResultTypeValue(r: GuardrailResult): string { r.guardrailType.Value() }

  /** `GuardrailRunner.get_summary`: counts every result and lists the name,
      severity and type of each triggered one, in result order. */
  function GetSummary(results: seq<GuardrailResult>): (s: Summary)
    ensures s.totalChecks == |results|
    ensures s.triggeredCount == Count(results, IsTriggered) <= s.totalChecks
    ensures |s.triggeredGuardrails| == |s.severities| == |s.types| == s.triggeredCount
    ensures s.triggeredCount == 0 <==> !AnyTriggered(results)
    ensures s.triggeredGuardrails == Map(TriggeredOf(results), ResultName)
    ensures s.severities == Map(TriggeredOf(results), ResultSeverity)
    ensures s.types == Map(TriggeredOf(results), ResultTypeValue)
  {
    var triggered := TriggeredOf(results);
    FilterEmptyIff(results, IsTriggered);
    Summary(|results|, |triggered|, Map(triggered, ResultName),
            Map(triggered, ResultSeverity), Map(triggered, ResultTypeValue))
  }

  /** Entry k of the three summary lists describes one and the same
      triggered result. */
  lemma SummaryEntriesDescribeTriggered(results: seq<GuardrailResult>, k: nat)
    requires k < GetSummary(results).triggeredCount
    ensures exists i ::
      (&& 0 <= i < |results| && results[i].triggered
       && GetSummary(results).triggeredGuardrails[k] == results[i].name
       && GetSummary(results).severities[k] == results[i].severity
       && GetSummary(results).types[k] == results[i].guardrailType.Value())
  {
    var t := TriggeredOf(results);
    assert t[k] in results;
    var i :| 0 <= i < |results| && results[i] == t[k];
    assert results[i].triggered;
  }
}
