/** Cumulative weighted scoring, the scheme behind `detect_panic_language`:
    unlike the first-match detectors it does not stop at the first hit.
    Every matching row adds its weight to a score; the detector fires at
    score 2 and reports "high" from score 4. Everything here is stated for
    any weighted table. */
module Scoring {
  import opened Wrappers
  import opened Seqs
  import opened Text
  import opened GuardrailTypes

  /** The threshold at which the panic detector fires. */
  const PanicThreshold: nat := 2

  /** The score from which a panic trigger is reported as "high". */
  const HighPanicScore: nat := 4

  function WeightSum(s: seq<WeightedRule>): nat {
    if |s| == 0 then 0 else s[0].weight + WeightSum(s[1..])
  }

  /** The rows of `rules` whose pattern matches `text`, in table order. */
  function Matching(m: Matcher, rules: seq<WeightedRule>, text: string): seq<WeightedRule> {
    Filter(rules, (w: WeightedRule) => m(w.pattern, text))
  }

  /** Row `i` is the first row of `rules` that matches `text`. */
  ghost predicate IsFirstWeightedMatch(m: Matcher, rules: seq<WeightedRule>, text: string, i: int) {
    && 0 <= i < |rules|
    && m(rules[i].pattern, text)
    && forall j :: 0 <= j < i ==> !m(rules[j].pattern, text)
  }

  /** Peeling row `i` off the front of a suffix of the table. */
  lemma MatchingStep(m: Matcher, rules: seq<WeightedRule>, text: string, i: nat)
    requires i < |rules|
    ensures Matching(m, rules[i..], text) ==
      (if m(rules[i].pattern, text) then [rules[i]] else []) + Matching(m, rules[i + 1..], text)
  {
    assert rules[i..][1..] == rules[i + 1..];
  }

  /** The scoring loop of `detect_panic_language`, from row `i` on,
      carrying the running score and the matched rows. It ends with the
      score of every matching row added and the matched rows listed in
      table order. */
  function PanicScan(m: Matcher, rules: seq<WeightedRule>, text: string, i: nat,
                     score: nat, matched: seq<WeightedRule>): (r: (nat, seq<WeightedRule>))
    requires i <= |rules|
    ensures r.0 == score + WeightSum(Matching(m, rules[i..], text))
    ensures r.1 == matched + Matching(m, rules[i..], text)
    decreases |rules| - i
  {
    if i == |rules| then
      assert rules[i..] == [];
      (score, matched)
    else
      MatchingStep(m, rules, text, i);
      var rest := Matching(m, rules[i + 1..], text);
      if m(rules[i].pattern, text) then
        assert WeightSum([rules[i]] + rest) == rules[i].weight + WeightSum(rest) by {
          assert ([rules[i]] + rest)[1..] == rest;
        }
        assert (matched + [rules[i]]) + rest == matched + ([rules[i]] + rest);
        PanicScan(m, rules, text, i + 1, score + rules[i].weight, matched + [rules[i]])
      else
        assert [] + rest == rest;
        PanicScan(m, rules, text, i + 1, score, matched)
  }

  /** The explanation a firing panic check gives: its score in decimal and
      the reason of its first matching row. */
  function PanicReason(score: nat, primary: string): string {
    "Panic indicators detected (score: " + NatToDecimal(score) + "). Primary: " + primary
  }

  /** The body of `detect_panic_language` over any weighted table. */
  function ScoreDetect(rules: seq<WeightedRule>, m: Matcher, text: string): (r: GuardrailResult)
    ensures r.name == "panic_language_detector" && r.guardrailType == Panic
    ensures r.originalText == Some(text) && r.rewrittenText.None?
    ensures r.triggered <==> WeightSum(Matching(m, rules, Lower(text))) >= PanicThreshold
    ensures r.triggered ==>
      (r.severity == High <==> WeightSum(Matching(m, rules, Lower(text))) >= HighPanicScore)
    ensures r.triggered ==> r.severity == High || r.severity == Medium
    ensures r.triggered ==>
      exists i :: IsFirstWeightedMatch(m, rules, Lower(text), i)
        && r.matchedPattern == Some(rules[i].pattern)
    ensures r.triggered ==>
      && |Matching(m, rules, Lower(text))| > 0
      && r.reason == Some(PanicReason(WeightSum(Matching(m, rules, Lower(text))),
                                      Matching(m, rules, Lower(text))[0].reason))
    ensures !r.triggered ==> Quiet(r) && r.severity == Medium
  {
    var lowered := Lower(text);
    var (score, matched) := PanicScan(m, rules, lowered, 0, 0, []);
    assert rules[0..] == rules;
    assert [] + Matching(m, rules, lowered) == Matching(m, rules, lowered);
    if score >= PanicThreshold then
      WeightSumPositive(matched);
      FirstOfFilter(rules, (w: WeightedRule) => m(w.pattern, lowered));
      var primaryPattern := if |matched| > 0 then Some(matched[0].pattern) else None;
      var primaryReason := if |matched| > 0 then matched[0].reason else "None";
      GuardrailResult(
        true, Panic, "panic_language_detector",
        Some(PanicReason(score, primaryReason)),
        primaryPattern, Some(text), None,
        if score >= HighPanicScore then High else Medium)
    else
      GuardrailResult(false, Panic, "panic_language_detector", None, None, Some(text), None, Medium)
  }

  /** The head of a non-empty filter is the first element satisfying the
      predicate. */
  lemma {:induction false} FirstOfFilter(s: seq<WeightedRule>, p: WeightedRule -> bool)
    ensures |Filter(s, p)| > 0 ==>
      exists i :: 0 <= i < |s| && Filter(s, p)[0] == s[i] && p(s[i])
        && forall j :: 0 <= j < i ==> !p(s[j])
  {
    if |s| > 0 && !p(s[0]) {
      FirstOfFilter(s[1..], p);
      if |Filter(s, p)| > 0 {
        var k :| 0 <= k < |s[1..]| && Filter(s[1..], p)[0] == s[1..][k] && p(s[1..][k])
          && forall j :: 0 <= j < k ==> !p(s[1..][j]);
        assert forall j :: 1 <= j < k + 1 ==> s[j] == s[1..][j - 1];
      }
    }
  }

  /** A sum of weights that are all non-zero is non-zero exactly when
      something was summed; with every weight at least 2 it then reaches 2. */
  lemma WeightSumPositive(s: seq<WeightedRule>)
    ensures |s| > 0 ==> WeightSum(s) >= s[0].weight
    ensures |s| == 0 ==> WeightSum(s) == 0
  {
  }

  /** Over a table whose weights all reach the threshold, the score reaches
      the threshold exactly when some row matches. */
  lemma ThresholdIffAnyMatch(rules: seq<WeightedRule>, m: Matcher, text: string)
    requires forall i :: 0 <= i < |rules| ==> rules[i].weight >= PanicThreshold
    ensures WeightSum(Matching(m, rules, text)) >= PanicThreshold <==>
      exists i :: 0 <= i < |rules| && m(rules[i].pattern, text)
  {
    var p := (w: WeightedRule) => m(w.pattern, text);
    var matched := Matching(m, rules, text);
    FilterEmptyIff(rules, p);
    if |matched| > 0 {
      WeightSumPositive(matched);
      assert matched[0] in rules;
    }
  }

  /** A matching row contributes its whole weight to the filtered sum. */
  lemma {:induction false} FilteredSumCoversRow(s: seq<WeightedRule>, p: WeightedRule -> bool, i: nat)
    requires i < |s| && p(s[i])
    ensures WeightSum(Filter(s, p)) >= s[i].weight
  {
    if i > 0 {
      FilteredSumCoversRow(s[1..], p, i - 1);
    }
  }

  /** Two matching rows both contribute: the score is cumulative, not the
      weight of the first hit. */
  lemma {:induction false} FilteredSumCoversTwoRows(s: seq<WeightedRule>, p: WeightedRule -> bool, i: nat, j: nat)
    requires i < j < |s| && p(s[i]) && p(s[j])
    ensures WeightSum(Filter(s, p)) >= s[i].weight + s[j].weight
  {
    if i == 0 {
      FilteredSumCoversRow(s[1..], p, j - 1);
    } else {
      FilteredSumCoversTwoRows(s[1..], p, i - 1, j - 1);
    }
  }

  /** A filter that keeps exactly one row is that row alone. */
  lemma {:induction false} FilterSingle(s: seq<WeightedRule>, p: WeightedRule -> bool, i: nat)
    requires i < |s| && p(s[i])
    requires forall j :: 0 <= j < |s| && j != i ==> !p(s[j])
    ensures Filter(s, p) == [s[i]]
  {
    if i == 0 {
      assert forall j :: 0 <= j < |s[1..]| ==> !p(s[1..][j]) by {
        forall j | 0 <= j < |s[1..]| ensures !p(s[1..][j]) {
          assert s[1..][j] == s[j + 1];
        }
      }
      FilterEmptyIff(s[1..], p);
    } else {
      assert forall j :: 0 <= j < |s[1..]| && j != i - 1 ==> !p(s[1..][j]) by {
        forall j | 0 <= j < |s[1..]| && j != i - 1 ensures !p(s[1..][j]) {
          assert s[1..][j] == s[j + 1];
        }
      }
      FilterSingle(s[1..], p, i - 1);
    }
  }

  /** When exactly one row matches, the score is that row's weight. */
  lemma LoneMatchScore(rules: seq<WeightedRule>, m: Matcher, text: string, i: nat)
    requires i < |rules| && m(rules[i].pattern, text)
    requires forall j :: 0 <= j < |rules| && j != i ==> !m(rules[j].pattern, text)
    ensures WeightSum(Matching(m, rules, text)) == rules[i].weight
  {
    var p := (w: WeightedRule) => m(w.pattern, text);
    FilterSingle(rules, p, i);
    var row := rules[i];
    assert Matching(m, rules, text) == [row];
    assert WeightSum([row]) == row.weight by {
      assert [row][1..] == [];
    }
  }
}
