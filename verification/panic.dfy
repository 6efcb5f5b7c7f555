/** `detect_panic_language`: the fourteen-row weighted panic table run
    through `Scoring`. */
module Panic {
  import opened Wrappers
  import opened Seqs
  import opened Text
  import opened GuardrailTypes
  import opened Scoring

  /** The weighted panic table, in source order. */
  const PanicRules: seq<WeightedRule> := [
    WeightedRule("\\bcrash(ing|ed)?\\b", "Crash language", 2),
    WeightedRule("\\bpanic(king)?\\b", "Panic language", 3),
    WeightedRule("\\blost\\s+everything\\b", "Total loss fear", 3),
    WeightedRule("\\bwipe(d)?\\s+out\\b", "Wipeout fear", 3),
    WeightedRule("\\bdisaster\\b", "Disaster language", 2),
    WeightedRule("\\bcatastroph(e|ic)\\b", "Catastrophe language", 2),
    WeightedRule("\\bscared\\b", "Fear expression", 2),
    WeightedRule("\\bterrified\\b", "Terror expression", 3),
    WeightedRule("\\bfreaking\\s+out\\b", "Panic expression", 3),
    WeightedRule("\\bcan\'?t\\s+sleep\\b", "Anxiety indicator", 2),
    WeightedRule("\\bworried\\s+sick\\b", "Severe worry", 2),
    WeightedRule("\\bwhat\\s+do\\s+i\\s+do\\?*\\!*$", "Helpless question", 2),
    WeightedRule("\\bhelp\\s*\\!+\\b", "Urgent help request", 2),
    WeightedRule("\\bmarket\\s+(is\\s+)?(falling|tanking|bleeding)\\b", "Market fear", 2)]

  /** The panic score of a text: the weights of ALL matching rows, summed. */
  function PanicScore(m: Matcher, text: string): nat {
    WeightSum(Matching(m, PanicRules, Lower(text)))
  }

  /** `detect_panic_language`: fires iff the panic score reaches 2, is "high"
      iff it reaches 4, and names the first matching pattern. */
  function DetectPanicLanguage(m: Matcher, text: string): (r: GuardrailResult)
    ensures r.name == "panic_language_detector" && r.guardrailType == Panic
    ensures r.triggered <==> PanicScore(m, text) >= PanicThreshold
    ensures r.triggered ==> (r.severity == High <==> PanicScore(m, text) >= HighPanicScore)
    ensures r.triggered ==> r.severity == High || r.severity == Medium
    ensures r.triggered ==>
      exists i :: IsFirstWeightedMatch(m, PanicRules, Lower(text), i)
        && r.matchedPattern == Some(PanicRules[i].pattern)
    ensures r.triggered ==>
      && |Matching(m, PanicRules, Lower(text))| > 0
      && r.reason == Some(PanicReason(PanicScore(m, text), Matching(m, PanicRules, Lower(text))[0].reason))
    ensures !r.triggered ==> Quiet(r) && r.severity == Medium
  {
    ScoreDetect(PanicRules, m, text)
  }

  /** Every row of the panic table weighs at least the threshold. */
  lemma PanicWeightsReachThreshold()
    ensures forall i :: 0 <= i < |PanicRules| ==> PanicRules[i].weight >= PanicThreshold
  {
  }

  /** Because every weight is at least 2, the panic detector fires exactly
      when at least one panic pattern matches the lower-cased text. */
  lemma PanicTriggersIffAnyPatternMatches(m: Matcher, text: string)
    ensures DetectPanicLanguage(m, text).triggered <==>
      exists i :: 0 <= i < |PanicRules| && m(PanicRules[i].pattern, Lower(text))
  {
    PanicWeightsReachThreshold();
    ThresholdIffAnyMatch(PanicRules, m, Lower(text));
  }

  /** Two different panic patterns matching together always escalate the
      detector to "high": their weights add up to at least 4. */
  lemma TwoPanicSignalsEscalate(m: Matcher, text: string, i: nat, j: nat)
    requires i < j < |PanicRules|
    requires m(PanicRules[i].pattern, Lower(text)) && m(PanicRules[j].pattern, Lower(text))
    ensures PanicScore(m, text) >= PanicRules[i].weight + PanicRules[j].weight
    ensures DetectPanicLanguage(m, text).triggered
    ensures DetectPanicLanguage(m, text).severity == High
  {
    PanicWeightsReachThreshold();
    FilteredSumCoversTwoRows(PanicRules, (w: WeightedRule) => m(w.pattern, Lower(text)), i, j);
  }

  /** The threshold is inclusive: a lone match of a weight-2 pattern (score
      exactly 2) already fires, at "medium". */
  lemma SingleWeakSignalTriggers(m: Matcher, text: string, i: nat)
    requires i < |PanicRules| && PanicRules[i].weight == 2
    requires m(PanicRules[i].pattern, Lower(text))
    requires forall j :: 0 <= j < |PanicRules| && j != i ==> !m(PanicRules[j].pattern, Lower(text))
    ensures PanicScore(m, text) == 2
    ensures DetectPanicLanguage(m, text).triggered
    ensures DetectPanicLanguage(m, text).severity == Medium
  {
    LoneMatchScore(PanicRules, m, Lower(text), i);
  }
}
