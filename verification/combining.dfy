/** How `detect_any_advice_request` and `detect_emotional_distress` merge
    the results of several detectors: the fired ones when there are any,
    otherwise all of them. Stated for any detectors. */
module Combining {
  import opened Seqs
  import opened Text
  import opened GuardrailTypes
  import opened FirstMatch
  import opened Scoring

  /** What the two combined detectors return: whether anything fired, and
      the results they report. */
  datatype Combined = Combined(anyTriggered: bool, results: seq<GuardrailResult>)

  /** The fired results, in order, when something fired; all results
      otherwise. */
  function Combine(all: seq<GuardrailResult>): (c: Combined)
    ensures c.anyTriggered <==> exists i :: 0 <= i < |all| && all[i].triggered
    ensures c.anyTriggered ==>
      && SubsequenceOf(c.results, all)
      && (forall i :: 0 <= i < |c.results| ==> c.results[i].triggered)
      && (forall i :: 0 <= i < |all| && all[i].triggered ==> all[i] in c.results)
    ensures c.anyTriggered ==> c.results == TriggeredOf(all)
    ensures !c.anyTriggered ==> c.results == all
    ensures |all| > 0 ==> 0 < |c.results|
    ensures |c.results| <= |all|
    ensures forall i :: 0 <= i < |c.results| ==> c.results[i] in all
  {
    var triggered := TriggeredOf(all);
    FilterEmptyIff(all, IsTriggered);
    Combined(|triggered| > 0, if |triggered| > 0 then triggered else all)
  }

  /** Combining results of one category yields results of that category. */
  lemma CombineKeepsCategory(all: seq<GuardrailResult>, t: GuardrailType)
    requires forall i :: 0 <= i < |all| ==> all[i].guardrailType == t
    ensures forall i :: 0 <= i < |Combine(all).results| ==> Combine(all).results[i].guardrailType == t
  {
    var c := Combine(all);
    forall i | 0 <= i < |c.results|
      ensures c.results[i].guardrailType == t
    {
      assert c.results[i] in all;
    }
  }

  /** Some one of three results fired exactly when the first, the second or
      the third did. */
  lemma SomeOfThree(a: GuardrailResult, b: GuardrailResult, c: GuardrailResult)
    ensures (exists i :: 0 <= i < |[a, b, c]| && [a, b, c][i].triggered)
      <==> a.triggered || b.triggered || c.triggered
  {
    var all := [a, b, c];
    if a.triggered { assert all[0].triggered; }
    else if b.triggered { assert all[1].triggered; }
    else if c.triggered { assert all[2].triggered; }
  }

  /** Some one of two results fired exactly when the first or the second
      did. */
  lemma SomeOfTwo(a: GuardrailResult, b: GuardrailResult)
    ensures (exists i :: 0 <= i < |[a, b]| && [a, b][i].triggered) <==> a.triggered || b.triggered
  {
    var all := [a, b];
    if a.triggered { assert all[0].triggered; }
    else if b.triggered { assert all[1].triggered; }
  }

  /** Three first-match detectors of one type, run and combined. */
  function CombineThree(d1: Detector, d2: Detector, d3: Detector, t: GuardrailType,
                        m: Matcher, text: string): (c: Combined)
    requires d1.guardrailType == t && d2.guardrailType == t && d3.guardrailType == t
    ensures c.anyTriggered <==>
      AnyMatches(m, RulePatterns(d1.rules), Lower(text))
      || AnyMatches(m, RulePatterns(d2.rules), Lower(text))
      || AnyMatches(m, RulePatterns(d3.rules), Lower(text))
    ensures 0 < |c.results| <= 3
    ensures forall i :: 0 <= i < |c.results| ==> c.results[i].guardrailType == t
    ensures c.anyTriggered ==> forall i :: 0 <= i < |c.results| ==> c.results[i].triggered
    ensures !c.anyTriggered ==>
      |c.results| == 3 && Quiet(c.results[0]) && Quiet(c.results[1]) && Quiet(c.results[2])
    ensures c.anyTriggered ==>
      c.results == TriggeredOf([RunFirstMatch(d1, m, text), RunFirstMatch(d2, m, text), RunFirstMatch(d3, m, text)])
    ensures !c.anyTriggered ==>
      c.results == [RunFirstMatch(d1, m, text), RunFirstMatch(d2, m, text), RunFirstMatch(d3, m, text)]
  {
    var r1 := RunFirstMatch(d1, m, text);
    var r2 := RunFirstMatch(d2, m, text);
    var r3 := RunFirstMatch(d3, m, text);
    SomeOfThree(r1, r2, r3);
    CombineKeepsCategory([r1, r2, r3], t);
    Combine([r1, r2, r3])
  }

  /** A weighted detector and a first-match detector of the PANIC category,
      run and combined. */
  function CombineScoreAndFirst(rules: seq<WeightedRule>, d: Detector, m: Matcher, text: string): (c: Combined)
    requires d.guardrailType == Panic
    ensures c.anyTriggered <==>
      WeightSum(Matching(m, rules, Lower(text))) >= PanicThreshold || AnyMatches(m, RulePatterns(d.rules), Lower(text))
    ensures 0 < |c.results| <= 2
    ensures forall i :: 0 <= i < |c.results| ==> c.results[i].guardrailType == Panic
    ensures c.anyTriggered ==> forall i :: 0 <= i < |c.results| ==> c.results[i].triggered
    ensures !c.anyTriggered ==> |c.results| == 2 && Quiet(c.results[0]) && Quiet(c.results[1])
    ensures c.anyTriggered ==> c.results == TriggeredOf([ScoreDetect(rules, m, text), RunFirstMatch(d, m, text)])
    ensures !c.anyTriggered ==> c.results == [ScoreDetect(rules, m, text), RunFirstMatch(d, m, text)]
  {
    var r1 := ScoreDetect(rules, m, text);
    var r2 := RunFirstMatch(d, m, text);
    SomeOfTwo(r1, r2);
    CombineKeepsCategory([r1, r2], Panic);
    Combine([r1, r2])
  }
}
