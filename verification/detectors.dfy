/** The eight first-match detectors, each a fixed table run through
    `FirstMatch.RunFirstMatch`, and the two convenience combinations
    `detect_any_advice_request` and `detect_emotional_distress`. */
module Detectors {
  import opened Wrappers
  import opened Seqs
  import opened Text
  import opened GuardrailTypes
  import opened FirstMatch
  import opened Scoring
  import opened Panic
  import opened Combining

  /** Buy recommendation requests: "should I buy", "what stock to buy", "good buy", a Hindi phrasing. */
  const BuyAdvice: Detector := Detector("buy_advice_detector", Advice, Critical, [
    Rule("\\bshould\\s+i\\s+buy\\b", "Direct buy advice request"),
    Rule("\\b(what|which)\\s+(stock|share|fund|investment)\\s+(should|to)\\s+buy\\b", "Stock/fund recommendation request"),
    Rule("\\brecommend\\s+(a\\s+)?(stock|share|fund|investment)\\s+to\\s+buy\\b", "Buy recommendation request"),
    Rule("\\b(is|are)\\s+.+\\s+(a\\s+)?good\\s+buy\\b", "Buy evaluation request"),
    Rule("\\bbest\\s+(stock|share|fund)\\s+to\\s+buy\\b", "Best buy request"),
    Rule("\\bgive\\s+me\\s+(a\\s+)?buy\\s+(tip|recommendation)\\b", "Buy tip request"),
    Rule("\\bwhat\\s+to\\s+buy\\b", "General buy advice"),
    Rule("\\bbuy\\s+karna\\s+chahiye\\b", "Hindi buy advice request")])

  /** `detect_buy_advice_request`: fires iff some row of its table matches the lower-cased
      text; a firing result is critical, a silent one carries no explanation. */
  function DetectBuyAdviceRequest(m: Matcher, text: string): (r: GuardrailResult)
    ensures r.name == "buy_advice_detector" && r.guardrailType == Advice
    ensures r.triggered <==> AnyMatches(m, RulePatterns(BuyAdvice.rules), Lower(text))
    ensures r.triggered ==> r.severity == Critical
    ensures !r.triggered ==> Quiet(r) && r.severity == Medium
  {
    RunFirstMatch(BuyAdvice, m, text)
  }

  /** Sell, exit and profit-booking requests. */
  const SellAdvice: Detector := Detector("sell_advice_detector", Advice, Critical, [
    Rule("\\bshould\\s+i\\s+sell\\b", "Direct sell advice request"),
    Rule("\\bshould\\s+i\\s+(exit|redeem|withdraw)\\b", "Exit advice request"),
    Rule("\\b(is\\s+it|time)\\s+to\\s+sell\\b", "Timing sell request"),
    Rule("\\bbook\\s+(my\\s+)?profits?\\b", "Profit booking advice"),
    Rule("\\bcut\\s+(my\\s+)?loss(es)?\\b", "Loss cutting advice"),
    Rule("\\bsell\\s+karna\\s+chahiye\\b", "Hindi sell advice request"),
    Rule("\\bexit\\s+karna\\s+chahiye\\b", "Hindi exit advice request")])

  /** `detect_sell_advice_request`: fires iff some row of its table matches the lower-cased
      text; a firing result is critical, a silent one carries no explanation. */
  function DetectSellAdviceRequest(m: Matcher, text: string): (r: GuardrailResult)
    ensures r.name == "sell_advice_detector" && r.guardrailType == Advice
    ensures r.triggered <==> AnyMatches(m, RulePatterns(SellAdvice.rules), Lower(text))
    ensures r.triggered ==> r.severity == Critical
    ensures !r.triggered ==> Quiet(r) && r.severity == Medium
  {
    RunFirstMatch(SellAdvice, m, text)
  }

  /** Market-timing requests: "when should I", "right time to", "buy the dip". */
  const TimingAdvice: Detector := Detector("timing_advice_detector", Advice, Critical, [
    Rule("\\bwhen\\s+should\\s+i\\s+(buy|sell|invest|exit)\\b", "Timing advice request"),
    Rule("\\b(good|right|best)\\s+time\\s+to\\s+(buy|sell|invest|enter|exit)\\b", "Market timing request"),
    Rule("\\bwait\\s+for\\s+(a\\s+)?(dip|correction|crash)\\b", "Dip timing request"),
    Rule("\\bwait\\s+and\\s+watch\\b", "Wait advice request"),
    Rule("\\btime\\s+the\\s+market\\b", "Market timing request"),
    Rule("\\bbuy\\s+the\\s+dip\\b", "Dip buying advice"),
    Rule("\\bentry\\s+point\\b", "Entry timing request"),
    Rule("\\bexit\\s+point\\b", "Exit timing request")])

  /** `detect_timing_advice_request`: fires iff some row of its table matches the lower-cased
      text; a firing result is critical, a silent one carries no explanation. */
  function DetectTimingAdviceRequest(m: Matcher, text: string): (r: GuardrailResult)
    ensures r.name == "timing_advice_detector" && r.guardrailType == Advice
    ensures r.triggered <==> AnyMatches(m, RulePatterns(TimingAdvice.rules), Lower(text))
    ensures r.triggered ==> r.severity == Critical
    ensures !r.triggered ==> Quiet(r) && r.severity == Medium
  {
    RunFirstMatch(TimingAdvice, m, text)
  }

  /** Urgency: "immediately", "ASAP", "now or never", two or more exclamation marks. */
  const Urgency: Detector := Detector("urgency_language_detector", Panic, Medium, [
    Rule("\\bimmediately\\b", "Immediate action request"),
    Rule("\\bright\\s+now\\b", "Right now urgency"),
    Rule("\\basap\\b", "ASAP urgency"),
    Rule("\\burgent(ly)?\\b", "Urgent language"),
    Rule("\\bquick(ly)?\\b", "Quick action request"),
    Rule("\\bhurry\\b", "Hurry language"),
    Rule("\\bbefore\\s+it\'?s\\s+too\\s+late\\b", "Time pressure"),
    Rule("\\blast\\s+chance\\b", "Last chance urgency"),
    Rule("\\bnow\\s+or\\s+never\\b", "Now or never pressure"),
    Rule("\\!{2,}", "Multiple exclamation marks")])

  /** `detect_urgency_language`: fires iff some row of its table matches the lower-cased
      text; a firing result is medium, a silent one carries no explanation. */
  function DetectUrgencyLanguage(m: Matcher, text: string): (r: GuardrailResult)
    ensures r.name == "urgency_language_detector" && r.guardrailType == Panic
    ensures r.triggered <==> AnyMatches(m, RulePatterns(Urgency.rules), Lower(text))
    ensures r.triggered ==> r.severity == Medium
    ensures !r.triggered ==> Quiet(r) && r.severity == Medium
  {
    RunFirstMatch(Urgency, m, text)
  }

  /** Requests for guaranteed, assured, fixed or risk-free returns. */
  const GuaranteeRequest: Detector := Detector("guarantee_request_detector", Overconfidence, Critical, [
    Rule("\\bguarantee(d)?\\s+(return|profit|gain)s?\\b", "Guaranteed returns request"),
    Rule("\\bguaranteed\\s+returns?\\b", "Guaranteed returns request"),
    Rule("\\bgive\\s+me\\s+guaranteed\\b", "Guaranteed request"),
    Rule("\\bassured\\s+(return|profit|gain)s?\\b", "Assured returns request"),
    Rule("\\bfixed\\s+returns?\\b", "Fixed return request"),
    Rule("\\brisk[- ]?free\\s+(return|investment|option)\\b", "Risk-free request"),
    Rule("\\b100\\s*%\\s*safe\\b", "100% safe request"),
    Rule("\\bno\\s+(risk|loss)\\b", "No risk request"),
    Rule("\\bzero\\s+risk\\b", "Zero risk request"),
    Rule("\\bsafe\\s+investment\\s+with\\s+high\\s+return\\b", "Safe high return request"),
    Rule("\\bdouble\\s+(my|your)\\s+money\\b", "Double money request")])

  /** `detect_guarantee_request`: fires iff some row of its table matches the lower-cased
      text; a firing result is critical, a silent one carries no explanation. */
  function DetectGuaranteeRequest(m: Matcher, text: string): (r: GuardrailResult)
    ensures r.name == "guarantee_request_detector" && r.guardrailType == Overconfidence
    ensures r.triggered <==> AnyMatches(m, RulePatterns(GuaranteeRequest.rules), Lower(text))
    ensures r.triggered ==> r.severity == Critical
    ensures !r.triggered ==> Quiet(r) && r.severity == Medium
  {
    RunFirstMatch(GuaranteeRequest, m, text)
  }

  /** Certainty language in model output: "will definitely", "100%", "sure thing". */
  const OverconfidenceOutput: Detector := Detector("overconfidence_output_detector", Overconfidence, High, [
    Rule("\\bwill\\s+definitely\\b", "Definite prediction"),
    Rule("\\bwill\\s+certainly\\b", "Certain prediction"),
    Rule("\\bguaranteed\\s+to\\b", "Guarantee language"),
    Rule("\\bcertain\\s+to\\b", "Certainty language"),
    Rule("\\bwithout\\s+(a\\s+)?doubt\\b", "No doubt language"),
    Rule("\\b100\\s*%\\b", "100% certainty"),
    Rule("\\bno\\s+risk\\b", "No risk claim"),
    Rule("\\bcan\'?t\\s+(go\\s+)?wrong\\b", "Can\'t go wrong claim"),
    Rule("\\bsure\\s+thing\\b", "Sure thing language"),
    Rule("\\babsolutely\\s+(will|certain)\\b", "Absolute certainty")])

  /** `detect_overconfidence_in_output`: fires iff some row of its table matches the lower-cased
      text; a firing result is high, a silent one carries no explanation. */
  function DetectOverconfidenceInOutput(m: Matcher, text: string): (r: GuardrailResult)
    ensures r.name == "overconfidence_output_detector" && r.guardrailType == Overconfidence
    ensures r.triggered <==> AnyMatches(m, RulePatterns(OverconfidenceOutput.rules), Lower(text))
    ensures r.triggered ==> r.severity == High
    ensures !r.triggered ==> Quiet(r) && r.severity == Medium
  {
    RunFirstMatch(OverconfidenceOutput, m, text)
  }

  /** Requests for market direction, price targets and forecasts. */
  const PredictionRequest: Detector := Detector("prediction_request_detector", Prediction, Critical, [
    Rule("\\bwill\\s+(the\\s+)?(nifty|sensex|market|stock)\\s+(go\\s+)?(up|down|rise|fall|crash)\\b", "Market direction prediction"),
    Rule("\\bwill\\s+(the\\s+)?market\\s+go\\s+(up|down)\\b", "Market direction prediction"),
    Rule("\\bwill\\s+.+\\s+go\\s+up\\b", "Go up prediction"),
    Rule("\\bwhere\\s+will\\s+.+\\s+(be|go|reach)\\b", "Price target prediction"),
    Rule("\\bpredict\\s+(the\\s+)?(market|stock|price)\\b", "Direct prediction request"),
    Rule("\\bforecast\\b", "Forecast request"),
    Rule("\\btarget\\s+price\\b", "Target price request"),
    Rule("\\bprice\\s+target\\b", "Price target request"),
    Rule("\\bwhat\\s+will\\s+.+\\s+(be|reach)\\s+in\\b", "Future value prediction"),
    Rule("\\bhow\\s+(much|high|low)\\s+will\\s+.+\\s+(go|reach)\\b", "Price level prediction"),
    Rule("\\bexpected\\s+(return|price|growth)\\b", "Expected return request")])

  /** `detect_prediction_request`: fires iff some row of its table matches the lower-cased
      text; a firing result is critical, a silent one carries no explanation. */
  function DetectPredictionRequest(m: Matcher, text: string): (r: GuardrailResult)
    ensures r.name == "prediction_request_detector" && r.guardrailType == Prediction
    ensures r.triggered <==> AnyMatches(m, RulePatterns(PredictionRequest.rules), Lower(text))
    ensures r.triggered ==> r.severity == Critical
    ensures !r.triggered ==> Quiet(r) && r.severity == Medium
  {
    RunFirstMatch(PredictionRequest, m, text)
  }

  /** Predictions in model output: "will go up", "expected to reach". */
  const PredictionOutput: Detector := Detector("prediction_output_detector", Prediction, Critical, [
    Rule("\\bwill\\s+(go\\s+)?(up|rise|increase|grow)\\b", "Upward prediction"),
    Rule("\\bwill\\s+(go\\s+)?(down|fall|decrease|drop|crash)\\b", "Downward prediction"),
    Rule("\\bexpect(ed)?\\s+to\\s+(reach|hit|cross)\\b", "Price expectation"),
    Rule("\\bshould\\s+(reach|hit|cross)\\s+\\d+\\b", "Price target"),
    Rule("\\blikely\\s+to\\s+(reach|hit|go)\\b", "Likely prediction"),
    Rule("\\bprobably\\s+will\\s+(rise|fall|go)\\b", "Probable prediction")])

  /** `detect_prediction_in_output`: fires iff some row of its table matches the lower-cased
      text; a firing result is critical, a silent one carries no explanation. */
  function DetectPredictionInOutput(m: Matcher, text: string): (r: GuardrailResult)
    ensures r.name == "prediction_output_detector" && r.guardrailType == Prediction
    ensures r.triggered <==> AnyMatches(m, RulePatterns(PredictionOutput.rules), Lower(text))
    ensures r.triggered ==> r.severity == Critical
    ensures !r.triggered ==> Quiet(r) && r.severity == Medium
  {
    RunFirstMatch(PredictionOutput, m, text)
  }

  /** `detect_any_advice_request`: buy, sell and timing, combined. It
      reports "triggered" iff one of the three advice tables matches, and
      never returns an empty list. */
  function DetectAnyAdviceRequest(m: Matcher, text: string): (c: Combined)
    ensures c.anyTriggered <==>
      AnyMatches(m, RulePatterns(BuyAdvice.rules), Lower(text))
      || AnyMatches(m, RulePatterns(SellAdvice.rules), Lower(text))
      || AnyMatches(m, RulePatterns(TimingAdvice.rules), Lower(text))
    ensures 0 < |c.results| <= 3
    ensures forall i :: 0 <= i < |c.results| ==> c.results[i].guardrailType == Advice
    ensures c.anyTriggered ==> forall i :: 0 <= i < |c.results| ==> c.results[i].triggered
    ensures !c.anyTriggered ==>
      |c.results| == 3 && Quiet(c.results[0]) && Quiet(c.results[1]) && Quiet(c.results[2])
    ensures c.anyTriggered ==>
      c.results == TriggeredOf([DetectBuyAdviceRequest(m, text), DetectSellAdviceRequest(m, text),
                                DetectTimingAdviceRequest(m, text)])
    ensures !c.anyTriggered ==>
      c.results == [DetectBuyAdviceRequest(m, text), DetectSellAdviceRequest(m, text),
                    DetectTimingAdviceRequest(m, text)]
  {
    CombineThree(BuyAdvice, SellAdvice, TimingAdvice, Advice, m, text)
  }

  /** `detect_emotional_distress`: panic language and urgency, combined. */
  function DetectEmotionalDistress(m: Matcher, text: string): (c: Combined)
    ensures c.anyTriggered <==>
      PanicScore(m, text) >= PanicThreshold || AnyMatches(m, RulePatterns(Urgency.rules), Lower(text))
    ensures 0 < |c.results| <= 2
    ensures forall i :: 0 <= i < |c.results| ==> c.results[i].guardrailType == Panic
    ensures c.anyTriggered ==> forall i :: 0 <= i < |c.results| ==> c.results[i].triggered
    ensures !c.anyTriggered ==> |c.results| == 2 && Quiet(c.results[0]) && Quiet(c.results[1])
    ensures c.anyTriggered ==>
      c.results == TriggeredOf([DetectPanicLanguage(m, text), DetectUrgencyLanguage(m, text)])
    ensures !c.anyTriggered ==> c.results == [DetectPanicLanguage(m, text), DetectUrgencyLanguage(m, text)]
  {
    CombineScoreAndFirst(PanicRules, Urgency, m, text)
  }
}
