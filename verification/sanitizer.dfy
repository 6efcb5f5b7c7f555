/** The output sanitizer: three substitution tables, each folded once over
    the text in table order, run advice -> prediction -> overconfidence, with
    an audit list of the passes that changed the text. */
module Sanitizer {
  import opened Seqs
  import opened Text
  import opened GuardrailTypes

  /** `sanitize_advice_language`'s table. */
  const AdviceReplacements: seq<Substitution> := [
    Substitution("\\byou\\s+should\\s+(buy|sell|invest|exit)\\b", "you might consider"),
    Substitution("\\bi\\s+recommend\\s+(buying|selling|investing)\\b", "one approach could be"),
    Substitution("\\bi\\s+advise\\s+(you\\s+to)?\\b", "you could consider"),
    Substitution("\\bmy\\s+advice\\s+is\\b", "one perspective is"),
    Substitution("\\bbuy\\s+this\\b", "consider this"),
    Substitution("\\bsell\\s+this\\b", "review this"),
    Substitution("\\byou\\s+must\\s+(buy|sell|invest)\\b", "you might want to consider")]

  /** `sanitize_prediction_language`'s table. */
  const PredictionReplacements: seq<Substitution> := [
    Substitution("\\bwill\\s+(definitely|certainly)\\s+(go\\s+up|rise)\\b", "may potentially increase"),
    Substitution("\\bwill\\s+(definitely|certainly)\\s+(go\\s+down|fall)\\b", "may potentially decrease"),
    Substitution("\\bwill\\s+(go\\s+up|rise|increase)\\b", "may fluctuate"),
    Substitution("\\bwill\\s+(go\\s+down|fall|decrease)\\b", "may fluctuate"),
    Substitution("\\bexpect(ed)?\\s+to\\s+reach\\s+(\\d+)\\b", "historically has been around \\2"),
    Substitution("\\bshould\\s+reach\\s+(\\d+)\\b", "has varied around \\1")]

  /** `sanitize_overconfidence_language`'s table. */
  const OverconfidenceReplacements: seq<Substitution> := [
    Substitution("\\bdefinitely\\b", "likely"),
    Substitution("\\bcertainly\\b", "probably"),
    Substitution("\\bguaranteed\\b", "expected"),
    Substitution("\\babsolutely\\b", "generally"),
    Substitution("\\bwithout\\s+(a\\s+)?doubt\\b", "in most cases"),
    Substitution("\\b100%\\b", "very likely"),
    Substitution("\\bno\\s+risk\\b", "lower risk"),
    Substitution("\\bcan\'?t\\s+go\\s+wrong\\b", "has historically performed well"),
    Substitution("\\bsure\\s+thing\\b", "reasonable option")]

  /** One pass over a replacement table: each row's substitution applied to
      the output of the row before it, left to right, once, with no
      repetition to a fixpoint. */
  function ApplyAll(sub: Substituter, rules: seq<Substitution>, text: string): string
  {
    if |rules| == 0 then text
    else ApplyAll(sub, rules[1..], sub(rules[0].pattern, rules[0].replacement, text))
  }

  /** Folding a concatenated table is folding the first part, then the
      second: each row sees exactly the output of the row before it. */
  lemma {:induction false} ApplyAllAppend(sub: Substituter, first: seq<Substitution>,
                                          second: seq<Substitution>, text: string)
    ensures ApplyAll(sub, first + second, text) == ApplyAll(sub, second, ApplyAll(sub, first, text))
  {
    if |first| > 0 {
      assert (first + second)[1..] == first[1..] + second;
      ApplyAllAppend(sub, first[1..], second, sub(first[0].pattern, first[0].replacement, text));
    } else {
      assert first + second == second;
    }
  }

  /** A substitution leaves a text alone when its pattern does not match
      (case-insensitively, that is, on the lower-cased text). */
  ghost predicate Inert(m: Matcher, sub: Substituter, s: Substitution) {
    forall t :: !m(s.pattern, Lower(t)) ==> sub(s.pattern, s.replacement, t) == t
  }

  /** After the substitution its own pattern no longer matches. */
  ghost predicate Eliminates(m: Matcher, sub: Substituter, s: Substitution) {
    forall t :: !m(s.pattern, Lower(sub(s.pattern, s.replacement, t)))
  }

  /** The substitution never creates a match of `p` that was not there. */
  ghost predicate Preserves(m: Matcher, sub: Substituter, p: string, s: Substitution) {
    forall t :: !m(p, Lower(t)) ==> !m(p, Lower(sub(s.pattern, s.replacement, t)))
  }

  /** Every row removes its own pattern and no later row brings an earlier
      row's pattern back. */
  ghost predicate ClearsTable(m: Matcher, sub: Substituter, rules: seq<Substitution>) {
    && (forall i :: 0 <= i < |rules| ==> Eliminates(m, sub, rules[i]))
    && (forall i, j :: 0 <= i < j < |rules| ==> Preserves(m, sub, rules[i].pattern, rules[j]))
  }

  /** When no row's pattern matches the text, folding the table leaves it
      unchanged. */
  lemma {:induction false} ApplyAllUnchanged(m: Matcher, sub: Substituter, rules: seq<Substitution>, text: string)
    requires forall i :: 0 <= i < |rules| ==> Inert(m, sub, rules[i])
    requires forall i :: 0 <= i < |rules| ==> !m(rules[i].pattern, Lower(text))
    ensures ApplyAll(sub, rules, text) == text
  {
    if |rules| > 0 {
      assert sub(rules[0].pattern, rules[0].replacement, text) == text;
      assert forall i :: 0 <= i < |rules[1..]| ==> rules[1..][i] == rules[i + 1];
      ApplyAllUnchanged(m, sub, rules[1..], text);
    }
  }

  /** A pattern that every row preserves and that does not match the input
      does not match the output. */
  lemma {:induction false} PreservedThroughFold(m: Matcher, sub: Substituter, p: string,
                                                rules: seq<Substitution>, text: string)
    requires forall j :: 0 <= j < |rules| ==> Preserves(m, sub, p, rules[j])
    requires !m(p, Lower(text))
    ensures !m(p, Lower(ApplyAll(sub, rules, text)))
  {
    if |rules| > 0 {
      var next := sub(rules[0].pattern, rules[0].replacement, text);
      assert Preserves(m, sub, p, rules[0]);
      assert !m(p, Lower(next));
      assert forall j :: 0 <= j < |rules[1..]| ==> rules[1..][j] == rules[j + 1];
      PreservedThroughFold(m, sub, p, rules[1..], next);
    }
  }

  /** Under `ClearsTable`, no pattern of the table matches the result of
      one pass. */
  lemma {:induction false} FoldClearsTable(m: Matcher, sub: Substituter, rules: seq<Substitution>, text: string)
    requires ClearsTable(m, sub, rules)
    ensures forall i :: 0 <= i < |rules| ==> !m(rules[i].pattern, Lower(ApplyAll(sub, rules, text)))
  {
    if |rules| > 0 {
      var next := sub(rules[0].pattern, rules[0].replacement, text);
      var rest := rules[1..];
      assert forall j :: 0 <= j < |rest| ==> rest[j] == rules[j + 1];
      assert ClearsTable(m, sub, rest) by {
        forall i, j | 0 <= i < j < |rest|
          ensures Preserves(m, sub, rest[i].pattern, rest[j])
        {
          assert rest[i] == rules[i + 1] && rest[j] == rules[j + 1];
        }
      }
      FoldClearsTable(m, sub, rest, next);
      assert Eliminates(m, sub, rules[0]);
      assert !m(rules[0].pattern, Lower(next));
      forall j | 0 <= j < |rest|
        ensures Preserves(m, sub, rules[0].pattern, rest[j])
      {
        assert rest[j] == rules[j + 1];
      }
      PreservedThroughFold(m, sub, rules[0].pattern, rest, next);
      forall i | 0 <= i < |rules|
        ensures !m(rules[i].pattern, Lower(ApplyAll(sub, rules, text)))
      {
        if i > 0 {
          assert rules[i] == rest[i - 1];
        }
      }
    }
  }

  /** `sanitize_advice_language`. */
  function SanitizeAdviceLanguage(sub: Substituter, text: string): string {
    ApplyAll(sub, AdviceReplacements, text)
  }

  /** `sanitize_prediction_language`. */
  function SanitizePredictionLanguage(sub: Substituter, text: string): string {
    ApplyAll(sub, PredictionReplacements, text)
  }

  /** `sanitize_overconfidence_language`. */
  function SanitizeOverconfidenceLanguage(sub: Substituter, text: string): string {
    ApplyAll(sub, OverconfidenceReplacements, text)
  }

  /** After the advice pass none of its patterns (`you should buy`,
      `my advice is`, ...) matches, for any regex engine meeting
      `ClearsTable` on this table. */
  lemma AdvicePassClears(m: Matcher, sub: Substituter, text: string)
    requires ClearsTable(m, sub, AdviceReplacements)
    ensures forall i :: 0 <= i < |AdviceReplacements| ==>
      !m(AdviceReplacements[i].pattern, Lower(SanitizeAdviceLanguage(sub, text)))
  {
    FoldClearsTable(m, sub, AdviceReplacements, text);
  }

  /** After the prediction pass none of its patterns (`will go up`,
      `expected to reach N`, ...) matches. */
  lemma PredictionPassClears(m: Matcher, sub: Substituter, text: string)
    requires ClearsTable(m, sub, PredictionReplacements)
    ensures forall i :: 0 <= i < |PredictionReplacements| ==>
      !m(PredictionReplacements[i].pattern, Lower(SanitizePredictionLanguage(sub, text)))
  {
    FoldClearsTable(m, sub, PredictionReplacements, text);
  }

  /** After the overconfidence pass none of its patterns (`definitely`,
      `guaranteed`, `100%`, `can't go wrong`, ...) matches. */
  lemma OverconfidencePassClears(m: Matcher, sub: Substituter, text: string)
    requires ClearsTable(m, sub, OverconfidenceReplacements)
    ensures forall i :: 0 <= i < |OverconfidenceReplacements| ==>
      !m(OverconfidenceReplacements[i].pattern, Lower(SanitizeOverconfidenceLanguage(sub, text)))
  {
    FoldClearsTable(m, sub, OverconfidenceReplacements, text);
  }

  const AdviceLabel: string := "advice_language"
  const PredictionLabel: string := "prediction_language"
  const OverconfidenceLabel: string := "overconfidence_language"

  /** The audit labels in pass order. */
  const SanitizationLabels: seq<string> := [AdviceLabel, PredictionLabel, OverconfidenceLabel]

  /** `(sanitized_text, list_of_sanitizations_applied)`. */
  datatype Sanitized = Sanitized(text: string, applied: seq<string>)

  /** One block of `sanitize_output`: if the pass changed the text, record
      its label and adopt its output; otherwise keep everything. */
  function Record(acc: Sanitized, next: string, tag: string): Sanitized {
    if next != acc.text then Sanitized(next, acc.applied + [tag]) else acc
  }

  /** The audit list for a given choice of changing passes. */
  function Selection(advice: bool, prediction: bool, overconfidence: bool): seq<string> {
    (if advice then [AdviceLabel] else [])
    + (if prediction then [PredictionLabel] else [])
    + (if overconfidence then [OverconfidenceLabel] else [])
  }

  /** Every selection keeps the labels in pass order, and names a pass iff
      that pass was chosen. */
  lemma SelectionInOrder(advice: bool, prediction: bool, overconfidence: bool)
    ensures SubsequenceOf(Selection(advice, prediction, overconfidence), SanitizationLabels)
    ensures AdviceLabel in Selection(advice, prediction, overconfidence) <==> advice
    ensures PredictionLabel in Selection(advice, prediction, overconfidence) <==> prediction
    ensures OverconfidenceLabel in Selection(advice, prediction, overconfidence) <==> overconfidence
  {
    assert AdviceLabel[0] != PredictionLabel[0] && AdviceLabel[0] != OverconfidenceLabel[0];
    assert PredictionLabel[0] != OverconfidenceLabel[0];
    var labels := SanitizationLabels;
    assert labels[1..] == [PredictionLabel, OverconfidenceLabel];
    assert labels[1..][1..] == [OverconfidenceLabel];
    assert labels[1..][1..][1..] == [];
    var sel := Selection(advice, prediction, overconfidence);
    var tail := Selection(false, prediction, overconfidence);
    var last := Selection(false, false, overconfidence);
    assert SubsequenceOf(last, labels[1..][1..]);
    assert SubsequenceOf(last, labels[1..]);
    assert SubsequenceOf(tail, labels[1..]);
    if advice {
      assert sel == [AdviceLabel] + tail;
      assert sel[1..] == tail;
    } else {
      assert sel == tail;
      if prediction {
        assert sel[1..] == last;
      } else {
        assert SubsequenceOf(last, labels);
      }
    }
  }

  /** `sanitize_output`. Its text is always the three passes composed in
      order, whatever was recorded; its labels are an in-order selection of
      the three, each present exactly when its pass changed its own input. */
  function SanitizeOutput(sub: Substituter, text: string): (r: Sanitized)
    ensures r.text == SanitizeOverconfidenceLanguage(sub,
                        SanitizePredictionLanguage(sub, SanitizeAdviceLanguage(sub, text)))
    ensures SubsequenceOf(r.applied, SanitizationLabels)
    ensures AdviceLabel in r.applied <==> SanitizeAdviceLanguage(sub, text) != text
    ensures var a := SanitizeAdviceLanguage(sub, text);
      PredictionLabel in r.applied <==> SanitizePredictionLanguage(sub, a) != a
    ensures var p := SanitizePredictionLanguage(sub, SanitizeAdviceLanguage(sub, text));
      OverconfidenceLabel in r.applied <==> SanitizeOverconfidenceLanguage(sub, p) != p
    ensures r.applied == [] ==> r.text == text
  {
    var start := Sanitized(text, []);
    var afterAdvice := Record(start, SanitizeAdviceLanguage(sub, start.text), AdviceLabel);
    var afterPrediction := Record(afterAdvice, SanitizePredictionLanguage(sub, afterAdvice.text), PredictionLabel);
    var r := Record(afterPrediction, SanitizeOverconfidenceLanguage(sub, afterPrediction.text), OverconfidenceLabel);
    var a := SanitizeAdviceLanguage(sub, text);
    var p := SanitizePredictionLanguage(sub, a);
    var o := SanitizeOverconfidenceLanguage(sub, p);
    assert r.applied == Selection(a != text, p != a, o != p);
    SelectionInOrder(a != text, p != a, o != p);
    r
  }

  /** No pattern of the table matches the lower-cased text. */
  ghost predicate NoneMatch(m: Matcher, rules: seq<Substitution>, text: string) {
    forall i :: 0 <= i < |rules| ==> !m(rules[i].pattern, Lower(text))
  }

  /** Every row of the table is `Inert`. */
  ghost predicate TableInert(m: Matcher, sub: Substituter, rules: seq<Substitution>) {
    forall i :: 0 <= i < |rules| ==> Inert(m, sub, rules[i])
  }

  /** Text that no sanitizer pattern matches comes back as it went in, with
      an empty audit list. */
  lemma CleanTextPassesThrough(m: Matcher, sub: Substituter, text: string)
    requires TableInert(m, sub, AdviceReplacements)
    requires TableInert(m, sub, PredictionReplacements)
    requires TableInert(m, sub, OverconfidenceReplacements)
    requires NoneMatch(m, AdviceReplacements, text)
    requires NoneMatch(m, PredictionReplacements, text)
    requires NoneMatch(m, OverconfidenceReplacements, text)
    ensures SanitizeOutput(sub, text) == Sanitized(text, [])
  {
    ApplyAllUnchanged(m, sub, AdviceReplacements, text);
    ApplyAllUnchanged(m, sub, PredictionReplacements, text);
    ApplyAllUnchanged(m, sub, OverconfidenceReplacements, text);
  }
}
