# Guardrail engine — a Dafny model

This project models the deterministic guardrail engine of a financial
co-pilot (`ai/copilot/guardrail_functions.py`). The engine sits in front
of, and behind, a language model. It keeps the model from giving buy, sell
or timing advice, promising returns or predicting prices, and it
recognises panicking users. Everything in it is pure and table-driven:

- **First-match detectors.** Buy, sell and timing advice, urgency,
  guarantee requests, prediction requests, and overconfidence or
  predictions in model output. Each walks an ordered `(pattern, reason)`
  table over the lower-cased text. It reports the first hit, with a fixed
  severity and category.
- **The panic detector.** It adds up the weights of *every* matching
  pattern. It fires at a score of 2 and reports "high" from 4.
- **`GuardrailRunner`.** It runs all seven pre-checks and picks `proceed`,
  `refuse`, `calm` or `rewrite` by a fixed priority. It runs the two
  post-checks for audit and always sanitizes the output. It also
  summarises any list of results.
- **The output sanitizer.** Three substitution tables each run once, in a
  fixed order. An audit list records which passes changed the text.
- **The query rewriters.** A first-match advice rewriter, and a panic
  rewriter that prepends a fixed instruction.

Regular expressions are not modelled. Matching is an abstract
`Matcher = (pattern, text) -> bool`, standing for `re.search`.
Substitution is an abstract `Substituter = (pattern, replacement, text) ->
string`, standing for case-insensitive `re.sub`. Every property is proved
for all matchers and substituters, or under a named hypothesis about them
(`ClearsTable`, `Inert`). The tables themselves are copied verbatim: every
pattern string, reason, weight, replacement, severity and name is the
source's.

Files (one module each):

- `wrappers.dfy`: `Option`.
- `seqs.dfy`: order-preserving `Filter`, `Map`, `Count` and `SubsequenceOf`.
- `text.dfy`: ASCII `Lower` and `Capitalize`, and decimal rendering.
- `guardrail_types.dfy`: the two enums, the result record and the table rows.
- `first_match.dfy`: the first-match scan shared by the eight detectors.
- `scoring.dfy`: the weighted scan and threshold shared by the panic detector.
- `panic.dfy`: the panic table and detector.
- `combining.dfy`: the merge used by the two combined detectors.
- `detectors.dfy`: the eight tables and the two combined detectors.
- `sanitizer.dfy`: the three passes and `sanitize_output`.
- `rewriter.dfy`: the two rewriters.
- `policy.dfy`: the priority policy and the result summary.
- `runner.dfy`: the runner's check lists, its two passes and the convenience functions.

## Model

| member | source | states |
|---|---|---|
| GuardrailTypes.TriggeredOf | ai/copilot/guardrail_functions.py:975 | `[r for r in results if r.triggered]` keeps result order, keeps exactly the triggered results, and has as many entries as there are triggered results |
| FirstMatch.FirstMatchIndex | ai/copilot/guardrail_functions.py:173-174 | the scan finds nothing iff no pattern matches; otherwise it returns the least matching index |
| FirstMatch.RunFirstMatch | ai/copilot/guardrail_functions.py:171-192 | a detector fires iff some table pattern matches the lower-cased text; when it fires, reason and pattern come from the first matching row and severity is the detector's constant; when it does not fire, reason, pattern and rewrite are all absent and severity stays at the "medium" default; the original text is always kept |
| FirstMatch.RunFirstMatchCaseInsensitive | ai/copilot/guardrail_functions.py:171-174 | two queries that differ only in letter case get the same verdict, reason, pattern and severity |
| Detectors.DetectBuyAdviceRequest | ai/copilot/guardrail_functions.py:139-192 | fires iff a buy-advice pattern matches the lower-cased text; category ADVICE, severity critical when firing, no explanation when silent |
| Detectors.DetectSellAdviceRequest | ai/copilot/guardrail_functions.py:195-247 | the same for the sell/exit table, critical |
| Detectors.DetectTimingAdviceRequest | ai/copilot/guardrail_functions.py:250-303 | the same for the market-timing table, critical |
| Detectors.DetectUrgencyLanguage | ai/copilot/guardrail_functions.py:408-463 | the same for the urgency table; category PANIC, severity medium |
| Detectors.DetectGuaranteeRequest | ai/copilot/guardrail_functions.py:495-551 | the same for the guaranteed-returns table; category OVERCONFIDENCE, critical |
| Detectors.DetectOverconfidenceInOutput | ai/copilot/guardrail_functions.py:554-609 | the same for overconfident output; category OVERCONFIDENCE, severity high |
| Detectors.DetectPredictionRequest | ai/copilot/guardrail_functions.py:616-672 | the same for prediction requests; category PREDICTION, critical |
| Detectors.DetectPredictionInOutput | ai/copilot/guardrail_functions.py:675-720 | the same for predictions in output; category PREDICTION, critical |
| Combining.Combine | ai/copilot/guardrail_functions.py:327-330 | the flag holds iff some result fired; if so the list is exactly `TriggeredOf` of the results (every fired result, in order, repeats included), otherwise it is every result; the list is never empty for non-empty input |
| Combining.CombineThree | ai/copilot/guardrail_functions.py:321-330 | for any three first-match detectors of one category: fires iff one of their tables matches the lower-cased text; when it fires, the list is exactly the fired ones among the three detectors' results, in call order; when it does not, it is all three results, in call order |
| Combining.CombineScoreAndFirst | ai/copilot/guardrail_functions.py:480-488 | the same for a weighted PANIC detector followed by a first-match PANIC detector: fires iff the score reaches 2 or a pattern matches; the list is the fired ones of the two results in order, or both results when neither fired |
| Detectors.DetectAnyAdviceRequest | ai/copilot/guardrail_functions.py:306-330 | fires iff one of the buy, sell or timing tables matches; when it fires, the list is exactly those of `detect_buy_advice_request`, `detect_sell_advice_request` and `detect_timing_advice_request` (in that order) that fired; when it does not, it is all three of their results |
| Detectors.DetectEmotionalDistress | ai/copilot/guardrail_functions.py:466-488 | fires iff the panic score reaches 2 or an urgency pattern matches; the list is exactly those of `detect_panic_language` and `detect_urgency_language` (in that order) that fired, or both of their results when neither fired |
| Scoring.PanicScan | ai/copilot/guardrail_functions.py:376-384 | the scoring loop ends with the weights of *all* matching rows added and the matched rows listed in table order |
| Scoring.ScoreDetect | ai/copilot/guardrail_functions.py:386-404 | over any weighted table: fires iff the cumulative score is at least 2; "high" iff the score is at least 4, otherwise "medium"; when it fires, the pattern is the first matching row's and the reason is "Panic indicators detected (score: N). Primary: R" with N the score in decimal and R the first matching row's reason; silent results carry nothing |
| Panic.DetectPanicLanguage | ai/copilot/guardrail_functions.py:337-405 | the same for the fourteen-row panic table, with the score taken over the lower-cased text, including the reason built from the score and the first matching row |
| Scoring.ThresholdIffAnyMatch | ai/copilot/guardrail_functions.py:386 | when every weight reaches the threshold, the score reaches it iff some row matches |
| Panic.PanicTriggersIffAnyPatternMatches | ai/copilot/guardrail_functions.py:359-386 | since every panic weight is 2 or 3, the panic detector fires iff at least one panic pattern matches |
| Panic.TwoPanicSignalsEscalate | ai/copilot/guardrail_functions.py:380-395 | two matching panic patterns add their weights, so the detector fires at "high" |
| Panic.SingleWeakSignalTriggers | ai/copilot/guardrail_functions.py:385-395 | the threshold is inclusive: one weight-2 pattern alone scores exactly 2 and fires at "medium" |
| Rewriter.RewriteWith | ai/copilot/guardrail_functions.py:767-780 | over any table: rewritten iff some pattern matches the lower-cased query; if so, the first matching rule is applied to the lower-cased query and the result capitalised; if not, the query is returned unchanged |
| Rewriter.RewriteAdviceQuery | ai/copilot/guardrail_functions.py:727-780 | the same for the five-rule advice table |
| Rewriter.RewritePanicQuery | ai/copilot/guardrail_functions.py:783-799 | the result is the fixed acknowledgment followed by the query, intact; the user name plays no part |
| Rewriter.PanicRewriteRoundTrip | ai/copilot/guardrail_functions.py:795-799 | stripping the acknowledgment from a panic rewrite gives back exactly the original query |
| Sanitizer.ApplyAllAppend | ai/copilot/guardrail_functions.py:826-829 | of `ApplyAll`, the one-pass fold each `sanitize_*` function runs: folding a table is folding its first part, then its second, so each row sees the output of the row before it |
| Sanitizer.ApplyAllUnchanged | ai/copilot/guardrail_functions.py:826-830 | of `ApplyAll`: a pass leaves the text unchanged when none of its patterns match (for substitutions that do nothing without a match) |
| Sanitizer.FoldClearsTable | ai/copilot/guardrail_functions.py:827-830 | if each row removes its own pattern and no later row reintroduces an earlier one, then after one pass no pattern of the table matches |
| Sanitizer.AdvicePassClears | ai/copilot/guardrail_functions.py:806-830 | of `SanitizeAdviceLanguage` (`sanitize_advice_language`, `ApplyAll` over the advice table): after the pass none of its patterns ("you should buy", "my advice is", …) match, under that hypothesis |
| Sanitizer.PredictionPassClears | ai/copilot/guardrail_functions.py:833-856 | of `SanitizePredictionLanguage` (`sanitize_prediction_language`): the same for the prediction pass ("will go up", "expected to reach", …) |
| Sanitizer.OverconfidencePassClears | ai/copilot/guardrail_functions.py:859-885 | of `SanitizeOverconfidenceLanguage` (`sanitize_overconfidence_language`): the same for the overconfidence pass ("definitely", "guaranteed", "100%", "can't go wrong", …) |
| Sanitizer.SelectionInOrder | ai/copilot/guardrail_functions.py:897-917 | any choice of changing passes yields labels in pass order, each present iff its pass was chosen |
| Sanitizer.SanitizeOutput | ai/copilot/guardrail_functions.py:888-922 | the text is the advice, prediction and overconfidence passes composed in that order; the audit list is an in-order subsequence of the three labels and contains a label iff that pass changed its own input; an empty audit list means the text is unchanged |
| Sanitizer.CleanTextPassesThrough | ai/copilot/guardrail_functions.py:888-922 | text that no sanitizer pattern matches comes back unchanged, with an empty audit list |
| Runner.PreDetector | ai/copilot/guardrail_functions.py:938-946 | the table behind each first-match pre-check: the buy, sell, timing, guarantee and prediction-request detectors are critical and not PANIC-type; the urgency detector is PANIC-type at medium |
| Runner.RunPreCheck | ai/copilot/guardrail_functions.py:938-946 | each listed pre-check, with the shipped tables: a critical check is never PANIC-type and is critical when it fires; the panic and urgency checks are PANIC-type and never critical |
| Runner.PreChecksRunTheirDetectors | ai/copilot/guardrail_functions.py:938-946 | each entry of `PRE_LLM_GUARDRAILS` is exactly the detector function of its name: buy, sell and timing advice, panic, urgency, guarantee and prediction request |
| Runner.PreCheckIndex | ai/copilot/guardrail_functions.py:938-946 | every pre-check has a place in `PRE_LLM_GUARDRAILS` |
| Runner.RunAll | ai/copilot/guardrail_functions.py:968-972 | for any way of running a check: every listed check runs, in list order, one result each, the k-th being the k-th check's, whatever earlier ones reported |
| Policy.Decide | ai/copilot/guardrail_functions.py:974-991 | priority policy: no trigger means proceed; any critical trigger means refuse; otherwise any PANIC-type trigger means calm; otherwise rewrite; only refusal blocks |
| Runner.RunPreLlm | ai/copilot/guardrail_functions.py:938-991 | exactly seven results, the k-th being the k-th pre-check on the text, plus the action and block flag of the priority policy |
| Policy.PolicyRewriteNeedsOtherTrigger | ai/copilot/guardrail_functions.py:974-991 | under the policy, "rewrite" requires a trigger that is neither critical nor PANIC-type |
| Runner.ListedTriggered | ai/copilot/guardrail_functions.py:970-978 | for any outcome per pre-check listed in `PRE_LLM_GUARDRAILS` order: some listed result fired iff some check fires |
| Runner.ListedCritical | ai/copilot/guardrail_functions.py:970-983 | for outcomes shaped as the shipped checks are (critical checks never PANIC-type and critical when firing; the other two PANIC-type and never critical): some listed result fired critical iff some critical check fires |
| Runner.ListedPanic | ai/copilot/guardrail_functions.py:970-988 | for such outcomes: some fired listed result is PANIC-type iff the panic or the urgency check fires |
| Runner.PreResultsTriggered | ai/copilot/guardrail_functions.py:970-978 | some pre-run result fired iff some pre-check fires on the text |
| Runner.PreResultsCritical | ai/copilot/guardrail_functions.py:970-983 | some pre-run result fired at critical severity iff a buy, sell, timing, guarantee or prediction-request check fires |
| Runner.PreResultsPanic | ai/copilot/guardrail_functions.py:970-988 | some fired pre-run result is PANIC-type iff the panic or the urgency check fires |
| Runner.RewriteIsUnreachable | ai/copilot/guardrail_functions.py:990-991 | so `run_pre_llm` never answers "rewrite" |
| Runner.CriticalPreCheckRefuses | ai/copilot/guardrail_functions.py:980-983 | a firing buy, sell, timing, guarantee or prediction-request check forces a blocking "refuse", whatever else fired |
| Runner.AdviceRequestRefusedEvenWhenPanicking | ai/copilot/guardrail_functions.py:980-988 | a panicking buy-advice request is refused, not calmed |
| Runner.PanicWithoutCriticalCalms | ai/copilot/guardrail_functions.py:985-988 | when the panic detector fires and no critical pre-check does, the runner calms without blocking |
| Runner.RunPostCheck | ai/copilot/guardrail_functions.py:949-952 | each entry of `POST_LLM_GUARDRAILS`: the overconfidence check is OVERCONFIDENCE-type, named `overconfidence_output_detector` and "high" when it fires; the prediction check is PREDICTION-type, named `prediction_output_detector` and critical when it fires; each fires iff its table matches the lower-cased output, and a silent one explains nothing |
| Runner.RunPostLlm | ai/copilot/guardrail_functions.py:994-1013 | exactly two results, overconfidence then prediction, and always the sanitized text, whatever the checks reported |
| Policy.GetSummary | ai/copilot/guardrail_functions.py:1016-1034 | `total_checks` is the number of results; `triggered_count` is the number fired and at most the total, and is 0 iff nothing fired; the name, severity and type lists are exactly the names, severities and type values of the fired results (`TriggeredOf`), in result order |
| Policy.SummaryEntriesDescribeTriggered | ai/copilot/guardrail_functions.py:1026-1034 | entry k of the three lists describes one and the same fired result |
| Runner.PreRunSummaryAgreesWithAction | ai/copilot/guardrail_functions.py:1016-1034 | the summary of a pre-run counts seven checks and reports none fired iff the action is "proceed" |
| Runner.IsSafeQuery | ai/copilot/guardrail_functions.py:1041-1052 | safe iff the action is not "refuse", iff no pre-check fires at critical severity |
| Runner.GetQueryAction | ai/copilot/guardrail_functions.py:1055-1066 | the runner's action; "refuse" iff the query is not safe; "proceed" iff no pre-check fires |
| Runner.SafeProcessOutput | ai/copilot/guardrail_functions.py:1069-1080 | the sanitized text of the post pass, that is, the three sanitizer passes composed |

## Left out

- Regular-expression semantics (`\b`, `\s+`, lazy `.+?`, `$`, back-references in replacements) are not modelled. Matching and substitution are abstract parameters, and the sanitizer's "pattern absent afterwards" results assume the `ClearsTable` hypothesis about them.
- `str.lower()` and `str.upper()` are modelled on ASCII letters only. Unicode case mapping is not modelled.
- Rewriter.RewriteAdviceQuery: with an empty substitution result, the source raises `IndexError` at `rewritten[0]`, while the model returns the empty string. The real substitution always inserts a non-empty replacement, so that case needs an abstract substituter that real `re.sub` is not.
- The exact text produced by the advice rewriter is the substituter's. Only which rule is applied, and the capitalisation of the first character, are modelled.
- Logging is not modelled: `guardrail_logger`, `log_guardrail_trigger` and the "Query rewritten" / "Output sanitized" messages are side effects with no effect on results.
- `GuardrailResult.timestamp`, `__post_init__`'s `datetime.now()` and `to_log_dict` are left out: they are a clock read and a log format.
- The runner's check lists are modelled as the enumerations `PreCheck` and `PostCheck` rather than as lists of callables; a list of other callables cannot be expressed.
- The orchestrator (`CopilotOrchestrator`, intent classification, response templates) is not part of this model. `orchestrator.py` is not part of this model either.
- Idempotence of `sanitize_output` is not stated, because the code does not have it. "guaranteed to reach 500" becomes "expected to reach 500" after one run, and the prediction table then rewrites that on a second run.
- `GuardrailType.INJECTION` and `COMPLIANCE` are declared but no modelled function produces them, as in the source.
