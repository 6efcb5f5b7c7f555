/** The query rewriters: the first-match advice rewriter, which turns an
    advice request into an educational question, and the panic rewriter,
    which prepends an instruction and keeps the user's text intact. */
module Rewriter {
  import opened Wrappers
  import opened Text
  import opened GuardrailTypes
  import opened FirstMatch

  /** `rewrite_advice_query`'s `(pattern, replacement)` table. */
  const AdviceRewrites: seq<Substitution> := [
    Substitution("should\\s+i\\s+buy\\s+(.+?)(\\?|$)",
                 "Can you help me understand the risks and considerations when evaluating \\1?"),
    Substitution("should\\s+i\\s+sell\\s+(.+?)(\\?|$)",
                 "Can you help me understand how \\1 fits in my portfolio and what factors to consider?"),
    Substitution("(what|which)\\s+is\\s+the\\s+best\\s+(stock|fund|investment)",
                 "Can you help me understand how to evaluate different \\2 options based on my goals?"),
    Substitution("when\\s+should\\s+i\\s+(buy|sell|invest)",
                 "Can you help me understand what factors influence \\1 decisions?"),
    Substitution("will\\s+(.+?)\\s+(go\\s+up|rise|fall|crash)",
                 "Can you help me understand what factors might influence \\1\'s performance?")]

  /** The fixed annotation `rewrite_panic_query` puts in front of the query. */
  const PanicAcknowledgment: string :=
    "[USER CONTEXT: The user appears anxious or concerned. "
    + "Please acknowledge their feelings first before providing information.]\n\n"

  /** `(rewritten_text, was_rewritten)`. */
  datatype Rewrite = Rewrite(text: string, wasRewritten: bool)

  /** The body of `rewrite_advice_query` over any table: the first rule whose
      pattern matches the lower-cased query is substituted into the
      lower-cased query and the result capitalised; with no match the query
      comes back untouched. */
  function RewriteWith(rules: seq<Substitution>, m: Matcher, sub: Substituter, text: string): (r: Rewrite)
    ensures r.wasRewritten <==> AnyMatches(m, SubstitutionPatterns(rules), Lower(text))
    ensures !r.wasRewritten ==> r.text == text
    ensures r.wasRewritten ==>
      exists i :: IsFirstMatch(m, SubstitutionPatterns(rules), Lower(text), i)
        && r.text == Capitalize(sub(rules[i].pattern, rules[i].replacement, Lower(text)))
  {
    var lowered := Lower(text);
    match FirstMatchIndex(m, SubstitutionPatterns(rules), lowered)
    case Some(i) => Rewrite(Capitalize(sub(rules[i].pattern, rules[i].replacement, lowered)), true)
    case None => Rewrite(text, false)
  }

  /** `rewrite_advice_query`. */
  function RewriteAdviceQuery(m: Matcher, sub: Substituter, text: string): (r: Rewrite)
    ensures r.wasRewritten <==> AnyMatches(m, SubstitutionPatterns(AdviceRewrites), Lower(text))
    ensures !r.wasRewritten ==> r.text == text
    ensures r.wasRewritten ==>
      exists i :: IsFirstMatch(m, SubstitutionPatterns(AdviceRewrites), Lower(text), i)
        && r.text == Capitalize(sub(AdviceRewrites[i].pattern, AdviceRewrites[i].replacement, Lower(text)))
  {
    RewriteWith(AdviceRewrites, m, sub, text)
  }

  /** `rewrite_panic_query`: the acknowledgment, then the query verbatim.
      `userName` is accepted and, as in the source, not used. */
  function RewritePanicQuery(text: string, userName: string): (r: string)
    ensures |r| == |PanicAcknowledgment| + |text|
    ensures r[..|PanicAcknowledgment|] == PanicAcknowledgment
    ensures r[|PanicAcknowledgment|..] == text
  {
    PanicAcknowledgment + text
  }

  /** Recovers the user's query from an annotated one, if it carries the
      acknowledgment. */
  function StripAcknowledgment(annotated: string): (r: Option<string>)
    ensures r.Some? ==> PanicAcknowledgment + r.value == annotated
    ensures r.None? ==> !(|PanicAcknowledgment| <= |annotated|
                          && annotated[..|PanicAcknowledgment|] == PanicAcknowledgment)
  {
    if |PanicAcknowledgment| <= |annotated| && annotated[..|PanicAcknowledgment|] == PanicAcknowledgment
    then Some(annotated[|PanicAcknowledgment|..])
    else None
  }

  /** The panic rewrite loses nothing: the original query is always
      recovered from its annotated form, whatever the user name. */
  lemma PanicRewriteRoundTrip(text: string, userName: string)
    ensures StripAcknowledgment(RewritePanicQuery(text, userName)) == Some(text)
  {
    var r := RewritePanicQuery(text, userName);
    assert r[..|PanicAcknowledgment|] == PanicAcknowledgment;
  }
}
