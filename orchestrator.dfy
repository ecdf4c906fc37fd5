/**
 * OrchestratorAgent: normalises the make and model into a lookup key, answers
 * the four demonstration vehicles from a fixed table without running any agent,
 * and otherwise runs the seven agents in order, appending each one's entry to
 * the agent log, and assembles the report with its legacy fields.
 */
module Orchestrator {
  import opened Optional
  import opened Numeric
  import opened Strings
  import opened Records
  import DataAgent
  import TrendAgent
  import ForecastAgent
  import RiskAgent
  import DecisionAgent
  import ExplanationAgent

  // ---------------------------------------------------------------------------
  // Key normalisation
  // ---------------------------------------------------------------------------

  /** _normalise: both names stripped and lower-cased, joined by one space. */
  function Normalise(make: string, model: string): (key: string)
    ensures key == Lower(Strip(make)) + " " + Lower(Strip(model))
    ensures |key| == |Strip(make)| + 1 + |Strip(model)|
    ensures key[|Strip(make)|] == ' '
  {
    Lower(Strip(make)) + " " + Lower(Strip(model))
  }

  /** The key does not depend on the letter case of the names. */
  lemma NormaliseIgnoresCase(make: string, model: string)
    ensures Normalise(Lower(make), Lower(model)) == Normalise(make, model)
  {
    LowerStripCommute(make);
    LowerStripCommute(model);
    LowerIdempotent(Strip(make));
    LowerIdempotent(Strip(model));
  }

  /** Nor on whitespace in front of either name. */
  lemma NormaliseIgnoresLeadingSpace(c: char, make: string, model: string)
    requires IsSpace(c)
    ensures Normalise([c] + make, model) == Normalise(make, model)
    ensures Normalise(make, [c] + model) == Normalise(make, model)
  {
    StripLeadingSpace(c, make);
    StripLeadingSpace(c, model);
  }

  // ---------------------------------------------------------------------------
  // Legacy labels
  // ---------------------------------------------------------------------------

  /** _rec_map with its "NEUTRAL" default. */
  function RecMap(finalRecommendation: string): (r: string)
    ensures r in {"BUY", "WAIT", "NEUTRAL"}
    ensures r == "BUY" <==> finalRecommendation == "BUY NOW"
    ensures r == "WAIT" <==> finalRecommendation == "WAIT"
  {
    if finalRecommendation == "BUY NOW" then "BUY"
    else if finalRecommendation == "WAIT" then "WAIT"
    else "NEUTRAL"
  }

  /** The legacy confidence label: HIGH from 75, MODERATE from 55, else LOW. */
  function LegacyConfidence(confidence: int): (name: string)
    ensures name in {"HIGH", "MODERATE", "LOW"}
    ensures name == "HIGH" <==> confidence >= 75
    ensures name == "MODERATE" <==> 55 <= confidence < 75
    ensures name == "LOW" <==> confidence < 55
  {
    if confidence >= 75 then "HIGH" else if confidence >= 55 then "MODERATE" else "LOW"
  }

  /** A higher score never gets a lower label. */
  lemma LegacyConfidenceMonotone(c1: int, c2: int)
    requires c1 <= c2
    ensures LegacyConfidence(c1) == "HIGH" ==> LegacyConfidence(c2) == "HIGH"
    ensures LegacyConfidence(c2) == "LOW" ==> LegacyConfidence(c1) == "LOW"
  {
  }

  /** The legacy recommendation is WAIT exactly when the first decision rule fires, and BUY
      exactly when it does not and one of the two buy rules does. */
  lemma LegacyRecommendationFollowsRules(change: real, conf: int, vol: string, pctMed: real)
    ensures var r := RecMap(DecisionAgent.Run(change, conf, vol, pctMed).finalRecommendation);
            (r == "WAIT" <==> DecisionAgent.WaitRule(change, conf))
            && (r == "BUY" <==> !DecisionAgent.WaitRule(change, conf)
                                && (DecisionAgent.RisingRule(change, vol) || DecisionAgent.DealRule(pctMed, conf)))
            && (r == "NEUTRAL" <==> DecisionAgent.Run(change, conf, vol, pctMed).finalRecommendation == "MONITOR")
  {
  }

  // ---------------------------------------------------------------------------
  // Demonstration overrides
  // ---------------------------------------------------------------------------

  /** The prose of an override entry: its three summary sentences, the transparency note and
      the bias statement. */
  datatype OverrideTexts = OverrideTexts(first: string, second: string, third: string,
                                         transparencyNote: string, biasStatement: string)
  {
    function Summary(): (s: seq<string>)
      ensures |s| == 3
    {
      [first, second, third]
    }
  }

  datatype Override = Override(
    change: real,
    confidenceScore: int,
    volatility: string,
    riskScore: int,
    finalRecommendation: string,
    recommendation: string,
    confidence: string,
    forecastMethod: string)

  /** The prose of each entry of _DEMO_OVERRIDES, by key; empty for any other key. */
  function OverrideProse(key: string): OverrideTexts {
    if key == "tesla model 3" then
      OverrideTexts(
        "The 2021 Tesla Model 3 shows a projected 4.2% price decline over 90 days driven by EV market saturation.",
        "With a confidence score of 82% and moderate volatility, the downward signal is reliable but not extreme.",
        "Waiting 30–90 days is likely to yield a better entry price as new EV inventory normalises.",
        "Forecast uses XGBoost + GPT-4o-mini blended model. EV-specific subsidy "
          + "changes and new model releases are accounted for in the risk assessment.",
        "EV market data is sparse pre-2020; federal subsidy policy changes can shift "
          + "residual values significantly. This model may underweight EV-specific depreciation.")
    else if key == "toyota camry" then
      OverrideTexts(
        "The Toyota Camry is showing a modest 1.3% price dip — insufficient to trigger a strong BUY or WAIT signal.",
        "With low volatility and 76% confidence, the Camry market is stable; no urgency to act immediately.",
        "Monitor for 30 days: a further decline below -3% would upgrade this to a clear BUY opportunity.",
        "Forecast combines Prophet time-series (3+ months data) with AI-enhanced analysis. "
          + "Camry has strong historical data quality — confidence is well-founded.",
        "Toyota Camry is one of the best-represented vehicles in our training data. "
          + "Predictions for this vehicle carry below-average model bias.")
    else if key == "honda civic" then
      OverrideTexts(
        "The Honda Civic is forecast to rise 2.4% over 90 days with low volatility — an ideal buy window.",
        "Strong fuel efficiency demand and limited compact sedan inventory are driving upward price pressure.",
        "At 79% confidence with Low volatility, this represents a high-quality BUY NOW signal.",
        "Blended XGBoost + LLM forecast using 8 months of Civic price history. "
          + "Seasonal spring demand bump is factored into the 90-day projection.",
        "Honda Civic is well-represented in training data. "
          + "Model predictions for mass-market compact sedans carry below-average uncertainty.")
    else if key == "ford f-150" then
      OverrideTexts(
        "The Ford F-150 is projected to decline 3.8% over 90 days as new model inventory recovers.",
        "Moderate volatility reflects uncertainty between regional truck demand and national oversupply.",
        "With 81% confidence on a falling trend, waiting likely saves $1,000–$1,500 on this purchase.",
        "F-150 forecast integrates regional inventory data (Texas/Southeast) with national trend signals. "
          + "Truck pricing is highly seasonal — this forecast accounts for post-summer demand cooling.",
        "Truck segment pricing shows high regional variance. "
          + "National average predictions may not reflect local market conditions in rural areas.")
    else OverrideTexts("", "", "", "", "")
  }

  const TeslaModel3: Override := Override(-4.2, 82, "Moderate", 58, "WAIT", "WAIT", "HIGH", "llm_blended")

  const ToyotaCamry: Override := Override(-1.3, 76, "Low", 28, "MONITOR", "NEUTRAL", "MODERATE", "llm_blended")

  const HondaCivic: Override := Override(2.4, 79, "Low", 22, "BUY NOW", "BUY", "HIGH", "llm_blended")

  const FordF150: Override := Override(-3.8, 81, "Moderate", 52, "WAIT", "WAIT", "HIGH", "llm_blended")

  /** _DEMO_OVERRIDES */
  const DemoOverrides: map<string, Override> := map[
    "tesla model 3" := TeslaModel3,
    "toyota camry" := ToyotaCamry,
    "honda civic" := HondaCivic,
    "ford f-150" := FordF150
  ]

  /** What holds of an entry of the table: its legacy recommendation is _rec_map of its final
      recommendation, its final recommendation is what the live decision rules give for its
      change, confidence and volatility at a zero median gap, it has three sentences, and its
      change keeps the projected price positive. */
  predicate ConsistentOverride(ov: Override) {
    ov.recommendation == RecMap(ov.finalRecommendation)
    && ov.finalRecommendation
       == DecisionAgent.Run(ov.change, ov.confidenceScore, ov.volatility, 0.0).finalRecommendation
    && -100.0 < ov.change
    && 10 <= ov.confidenceScore <= 99
    && ov.volatility in {"Low", "Moderate", "High"}
    && ov.forecastMethod == "llm_blended"
  }

  lemma OverrideTableFacts()
    ensures forall k :: k in DemoOverrides ==> ConsistentOverride(DemoOverrides[k])
  {
    OverrideEntriesConsistent();
  }

  lemma OverrideEntriesConsistent()
    ensures ConsistentOverride(TeslaModel3) && ConsistentOverride(ToyotaCamry)
    ensures ConsistentOverride(HondaCivic) && ConsistentOverride(FordF150)
  {
  }

  /** The legacy confidence labels of the table follow the live 75/55 thresholds for three of
      the four vehicles; the Camry entry (score 76) is labelled MODERATE where the live rule
      would say HIGH. */
  lemma OverrideConfidenceLabels()
    ensures forall k :: k in DemoOverrides && k != "toyota camry" ==>
              DemoOverrides[k].confidence == LegacyConfidence(DemoOverrides[k].confidenceScore)
    ensures "toyota camry" in DemoOverrides
    ensures DemoOverrides["toyota camry"].confidence == "MODERATE"
    ensures LegacyConfidence(DemoOverrides["toyota camry"].confidenceScore) == "HIGH"
  {
    assert DemoOverrides.Keys == {"tesla model 3", "toyota camry", "honda civic", "ford f-150"};
  }

  /** The override band width: _sigma.get(vol, 0.08). */
  function SigmaOf(volatility: string): (s: real)
    ensures 0.0 < s < 1.0
    ensures volatility !in {"Low", "Moderate", "High"} ==> s == 0.08
  {
    if volatility == "Low" then 0.04
    else if volatility == "High" then 0.14
    else 0.08
  }

  /** The override table of widths is the risk agent's. */
  lemma SigmaOfAgreesWithRiskAgent(v: RiskAgent.Volatility)
    ensures SigmaOf(v.Name()) == RiskAgent.Sigma(v)
  {
  }

  /** The decision agent sees the class through its name: its rising rule fires for a risk
      result exactly when the change is at least 2% and the class is Low. */
  lemma RisingRuleSeesLowClass(change: real, v: RiskAgent.Volatility)
    ensures DecisionAgent.RisingRule(change, v.Name()) <==> change >= 2.0 && v == RiskAgent.Volatility.Low
  {
    if v.Name() == RiskAgent.Volatility.Low.Name() {
      RiskAgent.NameInjective(v, RiskAgent.Volatility.Low);
    }
  }

  /** The indicative projected price of an override: 18500 moved by the change, 2 places. */
  function OverrideProjection(change: real): real {
    Round(18500.0 * (1.0 + change / 100.0), 2)
  }

  /** The current price an override reports: the projection taken back by the change, 2 places. */
  function OverrideCurrentPrice(change: real): real
    requires -100.0 < change
  {
    Round(OverrideProjection(change) / (1.0 + change / 100.0), 2)
  }

  /** The 30-day figure of an override: a third of the change applied to the projection, 2 places. */
  function OverrideForecast30(change: real): real {
    Round(OverrideProjection(change) * (1.0 + change / 100.0 / 3.0), 2)
  }

  /** A falling override projects at most 18500 and a rising one at least 18500; no change
      above -100% projects a negative price. */
  lemma OverrideProjectionFollowsChange(change: real)
    ensures change <= 0.0 ==> OverrideProjection(change) <= 18500.0
    ensures change >= 0.0 ==> OverrideProjection(change) >= 18500.0
    ensures change >= -100.0 ==> OverrideProjection(change) >= 0.0
  {
    var x := 18500.0 * (1.0 + change / 100.0);
    RoundOfInt(18500, 2);
    RoundOfInt(0, 2);
    if change <= 0.0 {
      RoundMonotone(x, 18500.0, 2);
    }
    if change >= 0.0 {
      RoundMonotone(18500.0, x, 2);
    }
    if change >= -100.0 {
      RoundMonotone(0.0, x, 2);
    }
  }

  // ---------------------------------------------------------------------------
  // The report
  // ---------------------------------------------------------------------------

  /** What the ethics agent returns; that agent is not part of this model. */
  datatype EthicsOutcome = EthicsOutcome(transparencyNote: string, biasStatement: string,
                                         ethicsDisclaimer: string, logEntry: LogEntry)

  /** Everything the pipeline reads from outside: the two database reads, the statistical
      forecast, the price model, the language-model analysis and explanation reply, the ethics
      agent, and the fixed ethics disclaimer. */
  datatype Externals = Externals(
    history: seq<HistoryEntry>,
    context: MarketContext,
    forecastRaw: ForecastRaw,
    xgb: XgbResult,
    llm: LlmAnalysis,
    explanationReply: ExplanationAgent.Reply,
    ethics: EthicsOutcome,
    disclaimer: string)

  datatype TrendData = TrendData(direction: string, strength: string, momentumScore: real)

  datatype DataFeatures = DataFeatures(ma30: real, ma90: real, depreciationRate: real, seasonalFactor: real)

  /** The synthesize_recommendation part of tool_outputs. */
  datatype Synthesis = Synthesis(recommendation: string, confidence: string, rationale: Text,
                                 predictedPrice: real, forecast30d: real, forecast90d: real)

  /** tool_outputs of a live run; an override run has none. */
  datatype ToolOutputs = ToolOutputs(
    priceHistory: seq<HistoryEntry>,
    forecast: ForecastRaw,
    marketContext: MarketContext,
    predictedPrice: real,
    shapFactors: seq<ShapFactor>,
    llmAnalysis: LlmAnalysis,
    synthesis: Synthesis)

  datatype Report = Report(
    vehicleName: Text,
    predicted90DayChange: real,
    projectedPrice: real,
    currentPrice: real,
    confidenceScore: int,
    volatilityIndex: string,
    riskScore: int,
    finalRecommendation: string,
    reasoningSummary: seq<Text>,
    uncertainty: RiskAgent.Band,
    transparencyNote: string,
    biasStatement: string,
    ethicsDisclaimer: string,
    agentLog: seq<LogEntry>,
    trendData: TrendData,
    dataFeatures: DataFeatures,
    recommendation: string,
    confidence: string,
    explanation: Text,
    predictedPrice: real,
    forecast30d: real,
    forecast90d: real,
    forecastMethod: string,
    llmKeyInsight: string,
    toolOutputs: Option<ToolOutputs>,
    shapFactors: seq<ShapFactor>)

  /** Each sentence of a fixed summary as a text of one literal piece. */
  function Sentences(ss: seq<string>): (ts: seq<Text>)
    ensures |ts| == |ss|
    ensures forall i :: 0 <= i < |ss| ==> ts[i] == [Lit(ss[i])]
  {
    seq(|ss|, i requires 0 <= i < |ss| => [Lit(ss[i])])
  }

  /** What every report satisfies, on either path: a valid recommendation and its legacy
      counterpart, a confidence in [10, 99], three sentences and their joined explanation. */
  predicate ConsistentReport(report: Report) {
    report.finalRecommendation in {"WAIT", "BUY NOW", "MONITOR"}
    && report.recommendation == RecMap(report.finalRecommendation)
    && 10 <= report.confidenceScore <= 99
    && |report.reasoningSummary| == 3
    && report.explanation == JoinSpaces(report.reasoningSummary)
  }

  /** The report of an override: read off the table entry `ov` found under `key` and its prose
      `texts`, with one log entry added after `prefix` and no agent run. */
  predicate OverrideReport(key: string, ov: Override, texts: OverrideTexts, prefix: seq<LogEntry>,
                           vehicleName: Text, disclaimer: string, report: Report)
  {
    var proj := OverrideProjection(ov.change);
    ConsistentReport(report)
    && report.agentLog == prefix + [LogEntry("OrchestratorAgent", "ok", OverrideOutput(key))]
    && report.vehicleName == vehicleName
    && report.finalRecommendation == ov.finalRecommendation
    && report.recommendation == ov.recommendation
    && report.confidence == ov.confidence
    && report.confidenceScore == ov.confidenceScore
    && report.predicted90DayChange == ov.change
    && report.volatilityIndex == ov.volatility && report.riskScore == ov.riskScore
    && report.forecastMethod == ov.forecastMethod
    && report.reasoningSummary == Sentences(texts.Summary())
    && report.llmKeyInsight == texts.second
    && report.toolOutputs == None && report.shapFactors == []
    && (report.trendData.direction == "falling" <==> ov.change < 0.0)
    && (report.trendData.direction == "rising" <==> ov.change >= 0.0)
    && report.trendData.strength == "moderate"
    && report.trendData.momentumScore == 50.0 + ov.change * 2.0
    && report.dataFeatures == DataFeatures(proj, proj, 4.2, 1.0)
    && report.projectedPrice == proj && report.forecast90d == proj
    && -100.0 < ov.change
    && report.currentPrice == OverrideCurrentPrice(ov.change)
    && report.predictedPrice == report.currentPrice
    && report.forecast30d == OverrideForecast30(ov.change)
    && report.uncertainty == RiskAgent.UncertaintyBand(proj, SigmaOf(ov.volatility))
    && report.uncertainty.low <= report.uncertainty.high
    && report.transparencyNote == texts.transparencyNote
    && report.biasStatement == texts.biasStatement
    && report.ethicsDisclaimer == disclaimer
  }

  /** The band of an override entry is ordered: its projection is never negative. */
  lemma OverrideBandOrdered(change: real, volatility: string)
    requires -100.0 < change
    ensures var band := RiskAgent.UncertaintyBand(OverrideProjection(change), SigmaOf(volatility));
            band.low <= band.high
  {
    OverrideProjectionFollowsChange(change);
    RiskAgent.BandContainsProjection(OverrideProjection(change), SigmaOf(volatility));
  }

  /** The override branch of run_orchestrator. */
  method ApplyOverride(key: string, ov: Override, texts: OverrideTexts, agentLog: seq<LogEntry>,
                       vehicleName: Text, disclaimer: string)
    returns (report: Report)
    requires ov.finalRecommendation in {"WAIT", "BUY NOW", "MONITOR"}
    requires ov.recommendation == RecMap(ov.finalRecommendation)
    requires -100.0 < ov.change && 10 <= ov.confidenceScore <= 99
    ensures OverrideReport(key, ov, texts, agentLog, vehicleName, disclaimer, report)
  {
    var chg := ov.change;
    var proj := OverrideProjection(chg);
    var sig := SigmaOf(ov.volatility);
    OverrideBandOrdered(chg, ov.volatility);
    var band := RiskAgent.UncertaintyBand(proj, sig);
    var log := agentLog + [LogEntry("OrchestratorAgent", "ok", OverrideOutput(key))];
    var summary := Sentences(texts.Summary());
    JoinThree(summary[0], summary[1], summary[2]);
    assert summary == [summary[0], summary[1], summary[2]];
    var current := OverrideCurrentPrice(chg);
    report := Report(
      vehicleName, chg, proj, current, ov.confidenceScore, ov.volatility, ov.riskScore,
      ov.finalRecommendation, summary, band, texts.transparencyNote, texts.biasStatement, disclaimer,
      log,
      TrendData(if chg < 0.0 then "falling" else "rising", "moderate", 50.0 + chg * 2.0),
      DataFeatures(proj, proj, 4.2, 1.0),
      ov.recommendation, ov.confidence, JoinSpaces(summary), current,
      OverrideForecast30(chg), proj, ov.forecastMethod, texts.second,
      None, []);
  }

  /** The fields of a live report, given the six agents' results `data` … `exp`: the log entries
      in pipeline order after `prefix`, and each field copied from the agent that produces it. */
  predicate Assembled(make: string, model: string, year: int, ext: Externals, data: DataAgent.DataResult,
                      trend: TrendAgent.TrendResult, fc: ForecastAgent.ForecastResult,
                      risk: RiskAgent.RiskResult, dec: DecisionAgent.Decision,
                      exp: ExplanationAgent.ExplanationResult, prefix: seq<LogEntry>, report: Report)
  {
    ConsistentReport(report)
    && report.agentLog
       == prefix + [data.logEntry, trend.logEntry, fc.logEntry, risk.logEntry, dec.logEntry, exp.logEntry,
                    ext.ethics.logEntry,
                    LogEntry("OrchestratorAgent", "ok", CompleteOutput(report.finalRecommendation,
                                                                       report.confidenceScore))]
    && report.vehicleName == [Int(year), Lit(" "), Title(make), Lit(" "), Title(model)]
    && report.reasoningSummary == exp.reasoningSummary
    && report.finalRecommendation == dec.finalRecommendation
    && report.confidenceScore == fc.confidenceBase
    && report.confidence == LegacyConfidence(report.confidenceScore)
    && report.predicted90DayChange == risk.change
    && report.volatilityIndex == risk.volatility.Name() && report.riskScore == risk.riskScore
    && report.uncertainty == risk.uncertainty
    && report.forecastMethod == fc.forecastMethod
    && report.trendData == TrendData(trend.direction, trend.strength, trend.momentumScore)
    && report.shapFactors == fc.shapFactors
    && report.explanation == exp.explanationText
    && report.projectedPrice == Round(fc.forecast90, 2)
    && report.currentPrice == Round(fc.predictedPrice, 2)
    && report.predictedPrice == report.currentPrice
    && report.forecast30d == Round(fc.forecast30, 2)
    && report.forecast90d == report.projectedPrice
    && report.dataFeatures == DataFeatures(trend.ma30, trend.ma90, trend.depreciationRate, trend.seasonalFactor)
    && report.llmKeyInsight == fc.llmAnalysis.keyInsight.GetOr("")
    && report.transparencyNote == ext.ethics.transparencyNote
    && report.biasStatement == ext.ethics.biasStatement
    && report.ethicsDisclaimer == ext.ethics.ethicsDisclaimer
    && report.toolOutputs
       == Some(ToolOutputs(data.priceHistory, trend.forecast, data.marketContext, fc.predictedPrice,
                           fc.shapFactors, fc.llmAnalysis,
                           Synthesis(report.recommendation, report.confidence, dec.rationale,
                                     fc.predictedPrice, fc.forecast30, fc.forecast90)))
  }

  /** The report of the live pipeline: the six agents run in order on what the external calls
      returned, each one fed by the results before it. */
  predicate LiveReport(make: string, model: string, year: int, ext: Externals, prefix: seq<LogEntry>,
                       report: Report)
  {
    var data := DataAgent.Run(ext.history, ext.context);
    var inventoryTrend := ext.context.inventoryTrend.GetOr("unknown");
    var pctMed := ext.context.priceVsMedianPct.GetOr(0.0);
    var trend := TrendAgent.Run(ext.forecastRaw, ext.history);
    var fc := ForecastAgent.Run(ext.xgb, ext.forecastRaw, ext.llm);
    var risk := RiskAgent.Run(fc.predictedPrice, fc.forecast90, fc.confidenceBase, inventoryTrend,
                              data.hasHistory);
    var dec := DecisionAgent.Run(risk.change, fc.confidenceBase, risk.volatility.Name(), pctMed);
    var exp := ExplanationAgent.Run(ext.explanationReply, year, make, model, fc.predictedPrice,
                                    risk.change, fc.confidenceBase, dec.rationale);
    Assembled(make, model, year, ext, data, trend, fc, risk, dec, exp, prefix, report)
    && report.shapFactors == ext.xgb.shapFactors.GetOr([])
    && report.uncertainty
       == RiskAgent.UncertaintyBand(RiskAgent.ProjectedPrice(fc.predictedPrice, fc.forecast90),
                                    RiskAgent.Sigma(risk.volatility))
    && (RiskAgent.ProjectedPrice(fc.predictedPrice, fc.forecast90) >= 0.0 ==>
          report.uncertainty.low <= report.uncertainty.high)
    && (!data.hasHistory ==> report.volatilityIndex == "High")
  }

  /** The live log names the agents in the order the pipeline runs them: after `prefix` come
      the six agents, the ethics agent and the orchestrator's completion entry. */
  lemma LiveLogOrder(make: string, model: string, year: int, ext: Externals, prefix: seq<LogEntry>,
                     report: Report)
    requires LiveReport(make, model, year, ext, prefix, report)
    ensures AgentNames(report.agentLog)
            == AgentNames(prefix) + ["DataAgent", "TrendAnalysisAgent", "ForecastAgent", "RiskAssessmentAgent",
                                     "DecisionAgent", "ExplanationAgent", ext.ethics.logEntry.agent,
                                     "OrchestratorAgent"]
  {
    var data := DataAgent.Run(ext.history, ext.context);
    var trend := TrendAgent.Run(ext.forecastRaw, ext.history);
    var fc := ForecastAgent.Run(ext.xgb, ext.forecastRaw, ext.llm);
    var risk := RiskAgent.Run(fc.predictedPrice, fc.forecast90, fc.confidenceBase,
                              ext.context.inventoryTrend.GetOr("unknown"), data.hasHistory);
    var dec := DecisionAgent.Run(risk.change, fc.confidenceBase, risk.volatility.Name(),
                                 ext.context.priceVsMedianPct.GetOr(0.0));
    var exp := ExplanationAgent.Run(ext.explanationReply, year, make, model, fc.predictedPrice,
                                    risk.change, fc.confidenceBase, dec.rationale);
    var tail := [data.logEntry, trend.logEntry, fc.logEntry, risk.logEntry, dec.logEntry, exp.logEntry,
                 ext.ethics.logEntry,
                 LogEntry("OrchestratorAgent", "ok", CompleteOutput(report.finalRecommendation,
                                                                    report.confidenceScore))];
    assert report.agentLog == prefix + tail;
    AgentNamesAppend(prefix, tail);
    AgentNamesOfEight(tail[0], tail[1], tail[2], tail[3], tail[4], tail[5], tail[6], tail[7]);
  }

  /** The assembly at the end of the live branch: the ethics and completion entries appended
      and the report built from the agents' results. */
  method AssembleLive(make: string, model: string, year: int, ext: Externals, data: DataAgent.DataResult,
                      trend: TrendAgent.TrendResult, fc: ForecastAgent.ForecastResult,
                      risk: RiskAgent.RiskResult, dec: DecisionAgent.Decision,
                      exp: ExplanationAgent.ExplanationResult, prefix: seq<LogEntry>, agentLog: seq<LogEntry>)
    returns (report: Report)
    requires agentLog == prefix + [data.logEntry, trend.logEntry, fc.logEntry, risk.logEntry, dec.logEntry,
                                   exp.logEntry]
    requires dec.finalRecommendation in {"WAIT", "BUY NOW", "MONITOR"}
    requires 10 <= fc.confidenceBase <= 99
    requires |exp.reasoningSummary| == 3
    requires exp.explanationText == exp.reasoningSummary[0] + [Lit(" ")] + exp.reasoningSummary[1]
                                    + [Lit(" ")] + exp.reasoningSummary[2]
    ensures Assembled(make, model, year, ext, data, trend, fc, risk, dec, exp, prefix, report)
  {
    var summary := exp.reasoningSummary;
    JoinThree(summary[0], summary[1], summary[2]);
    assert summary == [summary[0], summary[1], summary[2]];
    var legacyRec := RecMap(dec.finalRecommendation);
    var legacyConf := LegacyConfidence(fc.confidenceBase);
    var keyInsight := fc.llmAnalysis.keyInsight.GetOr("");
    var complete := LogEntry("OrchestratorAgent", "ok", CompleteOutput(dec.finalRecommendation, fc.confidenceBase));
    var log := agentLog + [ext.ethics.logEntry];
    log := log + [complete];
    report := Report(
      [Int(year), Lit(" "), Title(make), Lit(" "), Title(model)], risk.change, Round(fc.forecast90, 2),
      Round(fc.predictedPrice, 2), fc.confidenceBase,
      risk.volatility.Name(), risk.riskScore, dec.finalRecommendation, summary, risk.uncertainty,
      ext.ethics.transparencyNote, ext.ethics.biasStatement, ext.ethics.ethicsDisclaimer, log,
      TrendData(trend.direction, trend.strength, trend.momentumScore),
      DataFeatures(trend.ma30, trend.ma90, trend.depreciationRate, trend.seasonalFactor),
      legacyRec, legacyConf, exp.explanationText, Round(fc.predictedPrice, 2), Round(fc.forecast30, 2),
      Round(fc.forecast90, 2), fc.forecastMethod, keyInsight,
      Some(ToolOutputs(data.priceHistory, trend.forecast, data.marketContext, fc.predictedPrice,
                       fc.shapFactors, fc.llmAnalysis,
                       Synthesis(legacyRec, legacyConf, dec.rationale, fc.predictedPrice, fc.forecast30,
                                 fc.forecast90))),
      fc.shapFactors);
  }

  /** The live branch of run_orchestrator. */
  method RunLive(make: string, model: string, year: int, ext: Externals, agentLog: seq<LogEntry>)
    returns (report: Report)
    ensures LiveReport(make, model, year, ext, agentLog, report)
  {
    // 1. DataAgent
    var data := DataAgent.Run(ext.history, ext.context);
    var inventoryTrend := data.marketContext.inventoryTrend.GetOr("unknown");
    var pctMed := data.marketContext.priceVsMedianPct.GetOr(0.0);

    // 2. TrendAnalysisAgent
    var trend := TrendAgent.Run(ext.forecastRaw, data.priceHistory);

    // 3. ForecastAgent
    var fc := ForecastAgent.Run(ext.xgb, trend.forecast, ext.llm);

    // 4. RiskAssessmentAgent
    var risk := RiskAgent.Run(fc.predictedPrice, fc.forecast90, fc.confidenceBase, inventoryTrend,
                              data.hasHistory);

    // 5. DecisionAgent
    var dec := DecisionAgent.Run(risk.change, fc.confidenceBase, risk.volatility.Name(), pctMed);

    // 6. ExplanationAgent
    var exp := ExplanationAgent.Run(ext.explanationReply, year, make, model, fc.predictedPrice, risk.change,
                                    fc.confidenceBase, dec.rationale);

    // Each agent's entry is appended as it finishes.
    var log := agentLog + [data.logEntry, trend.logEntry, fc.logEntry, risk.logEntry, dec.logEntry,
                           exp.logEntry];

    // 7. EthicsAgent, then the completion entry and the report
    report := AssembleLive(make, model, year, ext, data, trend, fc, risk, dec, exp, agentLog, log);
  }

  /** run_orchestrator, given what the external calls return: the start entry, then either the
      override for a matching key or the live pipeline. */
  method RunOrchestrator(make: string, model: string, year: int, mileage: int, ext: Externals)
    returns (report: Report)
    ensures ConsistentReport(report)
    ensures var start := LogEntry("OrchestratorAgent", "ok", StartOutput(make, model, year, mileage));
            var key := Normalise(make, model);
            (key in DemoOverrides ==>
               OverrideReport(key, DemoOverrides[key], OverrideProse(key), [start],
                              [Int(year), Lit(" "), Title(make), Lit(" "), Title(model)], ext.disclaimer, report))
            && (key !in DemoOverrides ==> LiveReport(make, model, year, ext, [start], report))
  {
    var vehicleName: Text := [Int(year), Lit(" "), Title(make), Lit(" "), Title(model)];
    var key := Normalise(make, model);
    var agentLog: seq<LogEntry> := [];
    var start := LogEntry("OrchestratorAgent", "ok", StartOutput(make, model, year, mileage));
    agentLog := agentLog + [start];
    assert agentLog == [start];
    if key in DemoOverrides {
      OverrideTableFacts();
      report := ApplyOverride(key, DemoOverrides[key], OverrideProse(key), agentLog, vehicleName, ext.disclaimer);
    } else {
      report := RunLive(make, model, year, ext, agentLog);
    }
  }
}
