/** `GuardrailRunner` with its shipped check lists, and the convenience
    functions built on it: the seven pre-checks run unconditionally and the
    priority policy picks the action; the two post-checks run for audit
    while the output is always sanitized. */
module Runner {
  import opened Seqs
  import opened Text
  import opened GuardrailTypes
  import opened FirstMatch
  import opened Scoring
  import opened Panic
  import opened Detectors
  import opened Sanitizer
  import opened Policy

  /** The functions listed in `PRE_LLM_GUARDRAILS`. */
  datatype PreCheck =
    | BuyAdviceCheck | SellAdviceCheck | TimingAdviceCheck | PanicCheck | UrgencyCheck
    | GuaranteeCheck | PredictionRequestCheck

  /** The pre-checks that refuse on their own: everything but the two
      PANIC-category ones. */
  predicate IsCriticalPreCheck(id: PreCheck) {
    !(id == PanicCheck || id == UrgencyCheck)
  }

  /** The table behind each first-match pre-check; the panic check is the
      weighted one and has none. */
  function PreDetector(id: PreCheck): (d: Detector)
    requires id != PanicCheck
    ensures IsCriticalPreCheck(id) ==> d.severity == Critical && d.guardrailType != Panic
    ensures id == UrgencyCheck ==> d.guardrailType == Panic && d.severity == Medium
  {
    match id
    case BuyAdviceCheck => BuyAdvice
    case SellAdviceCheck => SellAdvice
    case TimingAdviceCheck => TimingAdvice
    case UrgencyCheck => Urgency
    case GuaranteeCheck => GuaranteeRequest
    case PredictionRequestCheck => PredictionRequest
  }

  /** One pre-check on the query. With the shipped tables a critical check is not PANIC-type and is critical
      when it fires, and the two PANIC-category checks are PANIC-type and
      never critical. */
  function RunPreCheck(id: PreCheck, m: Matcher, text: string): (r: GuardrailResult)
    ensures IsCriticalPreCheck(id) ==> r.guardrailType != Panic
    ensures IsCriticalPreCheck(id) && r.triggered ==> r.severity == Critical
    ensures !IsCriticalPreCheck(id) ==> r.guardrailType == Panic && r.severity != Critical
  {
    if id == PanicCheck then ScoreDetect(PanicRules, m, text)
    else RunFirstMatch(PreDetector(id), m, text)
  }

  /** Each pre-check is exactly the detector function of the same name. */
  lemma PreChecksRunTheirDetectors(m: Matcher, text: string)
    ensures RunPreCheck(BuyAdviceCheck, m, text) == DetectBuyAdviceRequest(m, text)
    ensures RunPreCheck(SellAdviceCheck, m, text) == DetectSellAdviceRequest(m, text)
    ensures RunPreCheck(TimingAdviceCheck, m, text) == DetectTimingAdviceRequest(m, text)
    ensures RunPreCheck(PanicCheck, m, text) == DetectPanicLanguage(m, text)
    ensures RunPreCheck(UrgencyCheck, m, text) == DetectUrgencyLanguage(m, text)
    ensures RunPreCheck(GuaranteeCheck, m, text) == DetectGuaranteeRequest(m, text)
    ensures RunPreCheck(PredictionRequestCheck, m, text) == DetectPredictionRequest(m, text)
  {
    assert PreDetector(BuyAdviceCheck) == BuyAdvice;
    assert PreDetector(SellAdviceCheck) == SellAdvice;
    assert PreDetector(TimingAdviceCheck) == TimingAdvice;
    assert PreDetector(UrgencyCheck) == Urgency;
    assert PreDetector(GuaranteeCheck) == GuaranteeRequest;
    assert PreDetector(PredictionRequestCheck) == PredictionRequest;
  }

  /** `PRE_LLM_GUARDRAILS`, in order. */
  const PreLlmGuardrails: seq<PreCheck> := [
    BuyAdviceCheck, SellAdviceCheck, TimingAdviceCheck, PanicCheck, UrgencyCheck,
    GuaranteeCheck, PredictionRequestCheck]

  /** Every pre-check has its place in the list. */
  function PreCheckIndex(id: PreCheck): (k: nat)
    ensures k < |PreLlmGuardrails| && PreLlmGuardrails[k] == id
  {
    match id
    case BuyAdviceCheck => 0
    case SellAdviceCheck => 1
    case TimingAdviceCheck => 2
    case PanicCheck => 3
    case UrgencyCheck => 4
    case GuaranteeCheck => 5
    case PredictionRequestCheck => 6
  }

  /** The functions listed in `POST_LLM_GUARDRAILS`. */
  datatype PostCheck = OverconfidenceOutputCheck | PredictionOutputCheck

  /** The table behind each post-check. */
  function PostDetector(id: PostCheck): Detector {
    match id
    case OverconfidenceOutputCheck => OverconfidenceOutput
    case PredictionOutputCheck => PredictionOutput
  }

  /** One post-check on the model's output: the overconfidence check is
      OVERCONFIDENCE-type and "high" when it fires, the prediction check
      PREDICTION-type and critical; each fires iff its table matches. */
  function RunPostCheck(id: PostCheck, m: Matcher, text: string): (r: GuardrailResult)
    ensures r.triggered <==> AnyMatches(m, RulePatterns(PostDetector(id).rules), Lower(text))
    ensures id == OverconfidenceOutputCheck ==>
      && r.name == "overconfidence_output_detector" && r.guardrailType == Overconfidence
      && (r.triggered ==> r.severity == High)
    ensures id == PredictionOutputCheck ==>
      && r.name == "prediction_output_detector" && r.guardrailType == Prediction
      && (r.triggered ==> r.severity == Critical)
    ensures !r.triggered ==> Quiet(r)
  {
    match id
    case OverconfidenceOutputCheck => DetectOverconfidenceInOutput(m, text)
    case PredictionOutputCheck => DetectPredictionInOutput(m, text)
  }

  /** `POST_LLM_GUARDRAILS`, in order. */
  const PostLlmGuardrails: seq<PostCheck> := [OverconfidenceOutputCheck, PredictionOutputCheck]

  /** The loop of `run_pre_llm`: every listed check runs, in list order,
      whatever the earlier ones reported. `run` stands for calling one
      guardrail on the query. */
  function RunAll(ids: seq<PreCheck>, run: PreCheck -> GuardrailResult): (rs: seq<GuardrailResult>)
    ensures |rs| == |ids|
    ensures forall k :: 0 <= k < |ids| ==> rs[k] == run(ids[k])
  {
    if |ids| == 0 then [] else [run(ids[0])] + RunAll(ids[1..], run)
  }

  /** `(results, should_block, action)`. */
  datatype PreOutcome = PreOutcome(results: seq<GuardrailResult>, shouldBlock: bool, action: Action)

  /** `GuardrailRunner.run_pre_llm`: exactly seven results, one per
      pre-check in list order, and the action the priority policy picks. */
  function RunPreLlm(m: Matcher, text: string): (o: PreOutcome)
    ensures |o.results| == |PreLlmGuardrails| == 7
    ensures forall k :: 0 <= k < 7 ==> o.results[k] == RunPreCheck(PreLlmGuardrails[k], m, text)
    ensures PriorityPolicy(o.results, o.shouldBlock, o.action)
  {
    var results := RunAll(PreLlmGuardrails, id => RunPreCheck(id, m, text));
    var (block, action) := Decide(results);
    PreOutcome(results, block, action)
  }

  /** `rs` holds the outcome `f` gives each pre-check, in list order. */
  ghost predicate ListsPreChecks(rs: seq<GuardrailResult>, f: PreCheck -> GuardrailResult) {
    |rs| == |PreLlmGuardrails| && forall k :: 0 <= k < |rs| ==> rs[k] == f(PreLlmGuardrails[k])
  }

  /** The shape `RunPreCheck` guarantees: a firing critical check is
      critical, and the PANIC-category checks are PANIC-type, never critical. */
  ghost predicate PreCheckShape(f: PreCheck -> GuardrailResult) {
    forall id ::
      && (IsCriticalPreCheck(id) ==> f(id).guardrailType != Panic)
      && (IsCriticalPreCheck(id) && f(id).triggered ==> f(id).severity == Critical)
      && (!IsCriticalPreCheck(id) ==> f(id).guardrailType == Panic && f(id).severity != Critical)
  }

  /** For any list of pre-check outcomes: some entry fired iff some check
      fires. */
  lemma ListedTriggered(rs: seq<GuardrailResult>, f: PreCheck -> GuardrailResult)
    requires ListsPreChecks(rs, f)
    ensures AnyTriggered(rs) <==> exists id :: f(id).triggered
  {
    if exists id :: f(id).triggered {
      var id :| f(id).triggered;
      assert rs[PreCheckIndex(id)].triggered;
    }
  }

  /** For any well-shaped list: some entry fired at critical severity iff
      some critical check fires. */
  lemma ListedCritical(rs: seq<GuardrailResult>, f: PreCheck -> GuardrailResult)
    requires ListsPreChecks(rs, f) && PreCheckShape(f)
    ensures AnyCritical(rs) <==> exists id :: IsCriticalPreCheck(id) && f(id).triggered
  {
    if AnyCritical(rs) {
      var k :| 0 <= k < |rs| && rs[k].triggered && rs[k].severity == Critical;
      assert IsCriticalPreCheck(PreLlmGuardrails[k]);
    }
    if exists id :: IsCriticalPreCheck(id) && f(id).triggered {
      var id :| IsCriticalPreCheck(id) && f(id).triggered;
      assert rs[PreCheckIndex(id)].severity == Critical;
    }
  }

  /** For any well-shaped list: some fired entry is PANIC-type iff the panic
      or the urgency check fires. */
  lemma ListedPanic(rs: seq<GuardrailResult>, f: PreCheck -> GuardrailResult)
    requires ListsPreChecks(rs, f) && PreCheckShape(f)
    ensures AnyPanic(rs) <==> f(PanicCheck).triggered || f(UrgencyCheck).triggered
  {
    if AnyPanic(rs) {
      var k :| 0 <= k < |rs| && rs[k].triggered && rs[k].guardrailType == Panic;
      assert !IsCriticalPreCheck(PreLlmGuardrails[k]);
    }
    assert rs[3] == f(PanicCheck) && rs[4] == f(UrgencyCheck);
  }

  /** For any well-shaped list: every fired entry is critical or PANIC-type. */
  lemma ListedFiringIsCriticalOrPanic(rs: seq<GuardrailResult>, f: PreCheck -> GuardrailResult)
    requires ListsPreChecks(rs, f) && PreCheckShape(f)
    ensures forall i :: 0 <= i < |rs| && rs[i].triggered ==>
      rs[i].severity == Critical || rs[i].guardrailType == Panic
  {
    forall i | 0 <= i < |rs| && rs[i].triggered
      ensures rs[i].severity == Critical || rs[i].guardrailType == Panic
    {
      assert rs[i] == f(PreLlmGuardrails[i]);
    }
  }

  /** The pre-run's results, as a list over `RunPreCheck`. */
  lemma PreRunLists(m: Matcher, text: string)
    ensures ListsPreChecks(RunPreLlm(m, text).results, id => RunPreCheck(id, m, text))
  {
  }

  /** `RunPreCheck` has the shape the priority argument needs. */
  lemma PreChecksShaped(m: Matcher, text: string)
    ensures PreCheckShape(id => RunPreCheck(id, m, text))
  {
  }

  /** Some pre-run result fired exactly when some pre-check fires. */
  lemma PreResultsTriggered(m: Matcher, text: string)
    ensures AnyTriggered(RunPreLlm(m, text).results) <==>
      exists id :: RunPreCheck(id, m, text).triggered
  {
    var rs := RunPreLlm(m, text).results;
    var f := id => RunPreCheck(id, m, text);
    PreRunLists(m, text);
    ListedTriggered(rs, f);
    if AnyTriggered(rs) {
      var id :| f(id).triggered;
      assert RunPreCheck(id, m, text).triggered;
    }
    if exists id :: RunPreCheck(id, m, text).triggered {
      var id :| RunPreCheck(id, m, text).triggered;
      assert f(id).triggered;
    }
  }

  /** Some pre-run result is critical exactly when some critical pre-check
      fires. */
  lemma PreResultsCritical(m: Matcher, text: string)
    ensures AnyCritical(RunPreLlm(m, text).results) <==>
      exists id :: IsCriticalPreCheck(id) && RunPreCheck(id, m, text).triggered
  {
    PreRunLists(m, text);
    PreChecksShaped(m, text);
    ListedCritical(RunPreLlm(m, text).results, id => RunPreCheck(id, m, text));
  }

  /** Some pre-run result is PANIC-type and fired exactly when the panic or
      the urgency check fires. */
  lemma PreResultsPanic(m: Matcher, text: string)
    ensures AnyPanic(RunPreLlm(m, text).results) <==>
      RunPreCheck(PanicCheck, m, text).triggered || RunPreCheck(UrgencyCheck, m, text).triggered
  {
    PreRunLists(m, text);
    PreChecksShaped(m, text);
    ListedPanic(RunPreLlm(m, text).results, id => RunPreCheck(id, m, text));
  }

  /** Since every firing pre-check is critical or PANIC-type, the "rewrite"
      branch of `run_pre_llm` is dead with the shipped tables. */
  lemma RewriteIsUnreachable(m: Matcher, text: string)
    ensures RunPreLlm(m, text).action != Rewrite
  {
    var o := RunPreLlm(m, text);
    PreRunLists(m, text);
    PreChecksShaped(m, text);
    ListedFiringIsCriticalOrPanic(o.results, id => RunPreCheck(id, m, text));
    PolicyRewriteNeedsOtherTrigger(o.results, o.shouldBlock, o.action);
  }

  /** A firing critical pre-check forces a blocking refusal, whatever else
      fired alongside it. */
  lemma CriticalPreCheckRefuses(m: Matcher, text: string, id: PreCheck)
    requires IsCriticalPreCheck(id) && RunPreCheck(id, m, text).triggered
    ensures RunPreLlm(m, text).action == Refuse && RunPreLlm(m, text).shouldBlock
  {
    PreResultsCritical(m, text);
  }

  /** A panicking buy-advice request is refused, not calmed: refusal outranks
      calming in the priority order. */
  lemma AdviceRequestRefusedEvenWhenPanicking(m: Matcher, text: string)
    requires AnyMatches(m, RulePatterns(BuyAdvice.rules), Lower(text))
    requires PanicScore(m, text) >= PanicThreshold
    ensures DetectPanicLanguage(m, text).triggered
    ensures RunPreLlm(m, text).action == Refuse && RunPreLlm(m, text).shouldBlock
  {
    CriticalPreCheckRefuses(m, text, BuyAdviceCheck);
  }

  /** When no critical pre-check fires but the panic detector does, the
      runner calms without blocking. */
  lemma PanicWithoutCriticalCalms(m: Matcher, text: string)
    requires PanicScore(m, text) >= PanicThreshold
    requires forall id :: IsCriticalPreCheck(id) ==> !RunPreCheck(id, m, text).triggered
    ensures RunPreLlm(m, text).action == Calm && !RunPreLlm(m, text).shouldBlock
  {
    PreResultsCritical(m, text);
    PreResultsPanic(m, text);
    assert RunPreCheck(PanicCheck, m, text).triggered;
  }

  /** `(results, sanitized_text)`. */
  datatype PostOutcome = PostOutcome(results: seq<GuardrailResult>, sanitized: string)

  /** `GuardrailRunner.run_post_llm`: the two post-checks, in order, for
      audit, and the sanitized text, which does not depend on them. */
  function RunPostLlm(m: Matcher, sub: Substituter, text: string): (o: PostOutcome)
    ensures |o.results| == |PostLlmGuardrails| == 2
    ensures forall k :: 0 <= k < 2 ==> o.results[k] == RunPostCheck(PostLlmGuardrails[k], m, text)
    ensures o.sanitized == SanitizeOutput(sub, text).text
  {
    var results := [RunPostCheck(PostLlmGuardrails[0], m, text), RunPostCheck(PostLlmGuardrails[1], m, text)];
    PostOutcome(results, SanitizeOutput(sub, text).text)
  }

  /** The summary of a pre-run counts seven checks, and reports none
      triggered exactly when the runner proceeds. */
  lemma PreRunSummaryAgreesWithAction(m: Matcher, text: string)
    ensures GetSummary(RunPreLlm(m, text).results).totalChecks == 7
    ensures GetSummary(RunPreLlm(m, text).results).triggeredCount == 0 <==>
      RunPreLlm(m, text).action == Proceed
  {
    var o := RunPreLlm(m, text);
    var s := GetSummary(o.results);
    assert s.triggeredCount == 0 <==> !AnyTriggered(o.results);
  }

  /** `is_safe_query`: `not should_block`, which holds exactly when no
      critical pre-check fires. */
  function IsSafeQuery(m: Matcher, text: string): (safe: bool)
    ensures safe <==> RunPreLlm(m, text).action != Refuse
    ensures safe <==> forall id :: IsCriticalPreCheck(id) ==> !RunPreCheck(id, m, text).triggered
  {
    PreResultsCritical(m, text);
    !RunPreLlm(m, text).shouldBlock
  }

  /** `get_query_action`: never "rewrite" with the shipped tables. */
  function GetQueryAction(m: Matcher, text: string): (a: Action)
    ensures a == RunPreLlm(m, text).action
    ensures a != Rewrite
    ensures a == Refuse <==> !IsSafeQuery(m, text)
    ensures a == Proceed <==> forall id :: !RunPreCheck(id, m, text).triggered
  {
    RewriteIsUnreachable(m, text);
    PreResultsTriggered(m, text);
    PreResultsCritical(m, text);
    RunPreLlm(m, text).action
  }

  /** `safe_process_output`: the sanitized text of the post pass, which is
      the three sanitizer passes composed. */
  function SafeProcessOutput(m: Matcher, sub: Substituter, text: string): (r: string)
    ensures r == SanitizeOutput(sub, text).text
    ensures r == SanitizeOverconfidenceLanguage(sub,
                   SanitizePredictionLanguage(sub, SanitizeAdviceLanguage(sub, text)))
  {
    RunPostLlm(m, sub, text).sanitized
  }

}
