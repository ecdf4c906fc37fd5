/**
 * ForecastAgent, after its two external calls: the statistical 30/90-day
 * forecasts are blended with the language model's (40/60 and 30/70) when both
 * 30-day values are positive, and a base confidence is read from a table keyed
 * by the raw forecast method, then adjusted for agreement on the trend
 * direction and for the model's buying-time signal.
 */
module ForecastAgent {
  import opened Optional
  import opened Records
  import opened Numeric
  import opened Smoothing

  datatype Blend = Blend(forecast30: real, forecast90: real, methodName: string)

  predicate Blends(llm30: real, stat30: real) {
    llm30 > 0.0 && stat30 > 0.0
  }

  /** The 40/60 and 30/70 blend, or the statistical values alone. */
  function BlendForecasts(stat30: real, stat90: real, llm30: real, llm90: real,
                          rawMethod: Option<string>): (b: Blend)
    ensures Blends(llm30, stat30) ==>
              b.methodName == "llm_blended"
              && b.forecast30 == Round(0.4 * stat30 + 0.6 * llm30, 2)
              && b.forecast90 == Round(0.3 * stat90 + 0.7 * llm90, 2)
    ensures !Blends(llm30, stat30) ==>
              b == Blend(Round(stat30, 2), Round(stat90, 2), rawMethod.GetOr("statistical"))
  {
    if llm30 > 0.0 && stat30 > 0.0 then
      Blend(Round(0.4 * stat30 + 0.6 * llm30, 2), Round(0.3 * stat90 + 0.7 * llm90, 2), "llm_blended")
    else
      Blend(Round(stat30, 2), Round(stat90, 2), rawMethod.GetOr("statistical"))
  }

  /** The "llm_blended" label without a blend only comes from the raw method itself. */
  lemma BlendedLabel(stat30: real, stat90: real, llm30: real, llm90: real, rawMethod: Option<string>)
    ensures BlendForecasts(stat30, stat90, llm30, llm90, rawMethod).methodName == "llm_blended"
            <==> Blends(llm30, stat30) || rawMethod == Some("llm_blended")
  {
  }

  /** A weighted mean, rounded, lies between its two inputs rounded. */
  lemma WeightedBetween(s: real, l: real, w: real)
    requires 0.0 <= w <= 1.0
    ensures MinR(Round(s, 2), Round(l, 2)) <= Round(w * l + (1.0 - w) * s, 2)
                                           <= MaxR(Round(s, 2), Round(l, 2))
  {
    var lo, hi := MinR(s, l), MaxR(s, l);
    ConvexBetween(l, s, w, lo, hi);
    RoundMonotone(lo, w * l + (1.0 - w) * s, 2);
    RoundMonotone(w * l + (1.0 - w) * s, hi, 2);
  }

  /** Each blended value lies between its statistical and its model input (both rounded). */
  lemma BlendBetweenInputs(stat30: real, stat90: real, llm30: real, llm90: real,
                           rawMethod: Option<string>)
    requires Blends(llm30, stat30)
    ensures var b := BlendForecasts(stat30, stat90, llm30, llm90, rawMethod);
            MinR(Round(stat30, 2), Round(llm30, 2)) <= b.forecast30 <= MaxR(Round(stat30, 2), Round(llm30, 2))
            && MinR(Round(stat90, 2), Round(llm90, 2)) <= b.forecast90 <= MaxR(Round(stat90, 2), Round(llm90, 2))
  {
    WeightedBetween(stat30, llm30, 0.6);
    WeightedBetween(stat90, llm90, 0.7);
    assert 0.6 * llm30 + (1.0 - 0.6) * stat30 == 0.4 * stat30 + 0.6 * llm30;
    assert 0.7 * llm90 + (1.0 - 0.7) * stat90 == 0.3 * stat90 + 0.7 * llm90;
  }

  /** Base confidence of each forecast method; any other method gets 65. */
  function MethodConfidence(m: string): (c: int)
    ensures 58 <= c <= 80
    ensures m == "prophet" ==> c == 80
    ensures m == "statistical" ==> c == 75
  {
    if m == "prophet" then 80
    else if m == "llm_blended" then 78
    else if m == "linear" then 72
    else if m == "statistical" then 75
    else if m == "market_avg" then 68
    else if m == "industry_default" then 58
    else 65
  }

  /** The base confidence after both adjustments. A missing method counts as "market_avg". */
  function Confidence(rawMethod: Option<string>, trendDir: string, llmDir: string,
                      bestTime: string): (c: int)
    ensures 10 <= c <= 99
  {
    var base := MethodConfidence(rawMethod.GetOr("market_avg"));
    var agreed := if llmDir == trendDir then Min(99, base + 5) else Max(10, base - 5);
    if bestTime == "now" || bestTime == "30_days" then Min(99, agreed + 3) else agreed
  }

  /** Neither clamp is ever reached: the result is the table value +5 or -5, plus 3 for an
      early buying signal. */
  lemma ConfidenceExact(rawMethod: Option<string>, trendDir: string, llmDir: string, bestTime: string)
    ensures var base := MethodConfidence(rawMethod.GetOr("market_avg"));
            var timing := if bestTime == "now" || bestTime == "30_days" then 3 else 0;
            Confidence(rawMethod, trendDir, llmDir, bestTime)
              == base + (if llmDir == trendDir then 5 else -5) + timing
    ensures 53 <= Confidence(rawMethod, trendDir, llmDir, bestTime) <= 88
  {
  }

  /** Agreement on the trend direction always gives more confidence than disagreement. */
  lemma AgreementRaisesConfidence(rawMethod: Option<string>, dir: string, other: string, bestTime: string)
    requires dir != other
    ensures Confidence(rawMethod, dir, dir, bestTime) > Confidence(rawMethod, dir, other, bestTime)
  {
    ConfidenceExact(rawMethod, dir, dir, bestTime);
    ConfidenceExact(rawMethod, dir, other, bestTime);
  }

  datatype ForecastResult = ForecastResult(
    predictedPrice: real,
    forecast30: real,
    forecast90: real,
    forecastMethod: string,
    confidenceBase: int,
    shapFactors: seq<ShapFactor>,
    llmAnalysis: LlmAnalysis,
    logEntry: LogEntry)

  /** forecast_agent.run, given the price model's result and the language model's analysis. */
  function Run(xgb: XgbResult, forecast: ForecastRaw, llm: LlmAnalysis): (r: ForecastResult)
    ensures r.predictedPrice == xgb.predictedPrice.GetOr(0.0)
    ensures var stat30 := forecast.forecast30d.GetOr(r.predictedPrice);
            var stat90 := forecast.forecast90d.GetOr(r.predictedPrice);
            var llm30 := llm.forecast30d.GetOr(stat30);
            Blend(r.forecast30, r.forecast90, r.forecastMethod)
              == BlendForecasts(stat30, stat90, llm30, llm.forecast90d.GetOr(stat90), forecast.forecastMethod)
    ensures var trendDir := forecast.trendDirection.GetOr("stable");
            r.confidenceBase == Confidence(forecast.forecastMethod, trendDir,
                                           llm.trendDirection.GetOr(trendDir),
                                           llm.bestTimeToBuy.GetOr("neutral"))
    ensures 10 <= r.confidenceBase <= 99
    ensures r.shapFactors == xgb.shapFactors.GetOr([]) && r.llmAnalysis == llm
    ensures r.logEntry == LogEntry("ForecastAgent", "ok",
              ForecastOutput(r.predictedPrice, r.forecast30, r.forecast90, r.forecastMethod,
                             r.confidenceBase, llm.bestTimeToBuy.GetOr("neutral")))
  {
    var predicted := xgb.predictedPrice.GetOr(0.0);
    var stat30 := forecast.forecast30d.GetOr(predicted);
    var stat90 := forecast.forecast90d.GetOr(predicted);
    var trendDir := forecast.trendDirection.GetOr("stable");
    var b := BlendForecasts(stat30, stat90, llm.forecast30d.GetOr(stat30), llm.forecast90d.GetOr(stat90),
                            forecast.forecastMethod);
    var bestTime := llm.bestTimeToBuy.GetOr("neutral");
    var conf := Confidence(forecast.forecastMethod, trendDir, llm.trendDirection.GetOr(trendDir), bestTime);
    ForecastResult(predicted, b.forecast30, b.forecast90, b.methodName, conf, xgb.shapFactors.GetOr([]), llm,
                   LogEntry("ForecastAgent", "ok",
                            ForecastOutput(predicted, b.forecast30, b.forecast90, b.methodName, conf, bestTime)))
  }

  /** Without model forecasts the model values default to the statistical ones; when the
      30-day one is positive the blend mixes each value with itself, so the forecasts are the
      statistical ones rounded while the method still reads "llm_blended". */
  lemma MissingModelForecastBlendsWithItself(xgb: XgbResult, forecast: ForecastRaw, llm: LlmAnalysis)
    requires llm.forecast30d.None? && llm.forecast90d.None?
    requires forecast.forecast30d.GetOr(xgb.predictedPrice.GetOr(0.0)) > 0.0
    ensures var r := Run(xgb, forecast, llm);
            var p := xgb.predictedPrice.GetOr(0.0);
            r.forecastMethod == "llm_blended"
            && r.forecast30 == Round(forecast.forecast30d.GetOr(p), 2)
            && r.forecast90 == Round(forecast.forecast90d.GetOr(p), 2)
  {
    var p := xgb.predictedPrice.GetOr(0.0);
    var s30, s90 := forecast.forecast30d.GetOr(p), forecast.forecast90d.GetOr(p);
    assert 0.4 * s30 + 0.6 * s30 == s30;
    assert 0.3 * s90 + 0.7 * s90 == s90;
  }
}
