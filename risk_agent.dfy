/**
 * RiskAssessmentAgent: the projected 90-day change in percent, the volatility
 * class, a risk score clamped to [5, 95] and an uncertainty band around the
 * projected price.
 */
module RiskAgent {
  import opened Records
  import opened Numeric
  import opened Smoothing

  datatype Volatility = Low | Moderate | High {
    /** The class as the agent reports it. */
    function Name(): (s: string)
      ensures s in {"Low", "Moderate", "High"}
    {
      match this
      case Low => "Low"
      case Moderate => "Moderate"
      case High => "High"
    }
  }

  lemma NameInjective(v: Volatility, w: Volatility)
    requires v.Name() == w.Name()
    ensures v == w
  {
  }

  /** Predicted 90-day change in percent, rounded to 2 places; 0 when there is no positive
      predicted price. */
  function ChangePct(predicted: real, forecast90: real): (c: real)
    ensures predicted <= 0.0 ==> c == 0.0
  {
    if predicted > 0.0 then Round((forecast90 - predicted) / predicted * 100.0, 2) else 0.0
  }

  /** The change has the sign of forecast90 - predicted, and a non-negative forecast never
      shows a fall of more than 100%. */
  lemma ChangePctSign(predicted: real, forecast90: real)
    requires predicted > 0.0
    ensures forecast90 >= predicted ==> ChangePct(predicted, forecast90) >= 0.0
    ensures forecast90 <= predicted ==> ChangePct(predicted, forecast90) <= 0.0
    ensures forecast90 >= 0.0 ==> ChangePct(predicted, forecast90) >= -100.0
  {
    var q := (forecast90 - predicted) / predicted;
    var x := q * 100.0;
    RoundOfInt(0, 2);
    RoundOfInt(-100, 2);
    if forecast90 >= predicted {
      DivMonotone(0.0, forecast90 - predicted, predicted);
      MulMonotone(0.0, q, 100.0);
      RoundMonotone(0.0, x, 2);
    }
    if forecast90 <= predicted {
      DivMonotone(forecast90 - predicted, 0.0, predicted);
      MulMonotone(q, 0.0, 100.0);
      RoundMonotone(x, 0.0, 2);
    }
    if forecast90 >= 0.0 {
      DivMonotone(-predicted, forecast90 - predicted, predicted);
      DivSelf(predicted);
      MulMonotone(-1.0, q, 100.0);
      RoundMonotone(-100.0, x, 2);
    }
  }

  /** The volatility class. */
  function Classify(hasHistory: bool, absChange: real, inventoryTrend: string): (v: Volatility)
    ensures !hasHistory ==> v == High
    ensures v == High <==> !hasHistory || absChange > 5.0
    ensures v == Moderate <==> hasHistory && absChange <= 5.0
                               && (absChange > 2.0 || inventoryTrend == "unknown")
    ensures v == Low <==> hasHistory && absChange <= 2.0 && inventoryTrend != "unknown"
  {
    if !hasHistory then High
    else if absChange > 5.0 then High
    else if absChange > 2.0 || inventoryTrend == "unknown" then Moderate
    else Low
  }

  /** Base risk of each class. */
  function RiskBase(v: Volatility): (b: int)
    ensures 20 <= b <= 75
  {
    match v
    case Low => 20
    case Moderate => 50
    case High => 75
  }

  /** Confidence above 50 lowers the risk, below 50 raises it, 15 points per 50. */
  function ConfReduction(confidenceBase: int): int {
    RoundHalfEven((confidenceBase - 50) as real / 50.0 * 15.0)
  }

  lemma ConfReductionMonotone(c1: int, c2: int)
    requires c1 <= c2
    ensures ConfReduction(c1) <= ConfReduction(c2)
  {
    var x1 := (c1 - 50) as real / 50.0;
    var x2 := (c2 - 50) as real / 50.0;
    DivMonotone((c1 - 50) as real, (c2 - 50) as real, 50.0);
    MulMonotone(x1, x2, 15.0);
    RoundHalfEvenMonotone(x1 * 15.0, x2 * 15.0);
  }

  /** int(bound(risk_base - conf_reduction, 5, 95)) */
  function RiskScore(v: Volatility, confidenceBase: int): (r: int)
    ensures 5 <= r <= 95
  {
    Bound((RiskBase(v) - ConfReduction(confidenceBase)) as real, 5.0, 95.0).Floor
  }

  /** More confidence never raises the risk score. */
  lemma RiskScoreMonotone(v: Volatility, c1: int, c2: int)
    requires c1 <= c2
    ensures RiskScore(v, c2) <= RiskScore(v, c1)
  {
    ConfReductionMonotone(c1, c2);
    BoundMonotone((RiskBase(v) - ConfReduction(c2)) as real,
                  (RiskBase(v) - ConfReduction(c1)) as real, 5.0, 95.0);
  }

  /** A more volatile class never has a lower risk score. */
  lemma RiskScoreOrderedByVolatility(c: int)
    ensures RiskScore(Low, c) <= RiskScore(Moderate, c) <= RiskScore(High, c)
  {
    var red := ConfReduction(c) as real;
    BoundMonotone(20.0 - red, 50.0 - red, 5.0, 95.0);
    BoundMonotone(50.0 - red, 75.0 - red, 5.0, 95.0);
  }

  /** The relative width of the uncertainty band of each class. */
  function Sigma(v: Volatility): (s: real)
    ensures 0.0 < s < 1.0
  {
    match v
    case Low => 0.04
    case Moderate => 0.08
    case High => 0.14
  }

  /** The price the band is centred on: the 90-day forecast when positive, else the prediction. */
  function ProjectedPrice(predicted: real, forecast90: real): (p: real)
    ensures p == forecast90 || p == predicted
    ensures forecast90 > 0.0 ==> p == forecast90
  {
    if forecast90 > 0.0 then forecast90 else predicted
  }

  datatype Band = Band(low: real, high: real)

  /** The projection scaled by 1 - sigma and 1 + sigma, each rounded to 2 places; a
      non-negative projection and width give an ordered band. */
  function UncertaintyBand(projected: real, sigma: real): (b: Band)
    ensures projected >= 0.0 && sigma >= 0.0 ==> b.low <= b.high
    ensures sigma == 0.0 ==> b.low == b.high == Round(projected, 2)
  {
    var lo := projected * (1.0 - sigma);
    var hi := projected * (1.0 + sigma);
    if sigma == 0.0 then
      assert lo == projected && hi == projected;
      Band(Round(lo, 2), Round(hi, 2))
    else if projected >= 0.0 && sigma >= 0.0 then
      MulMonotone(1.0 - sigma, 1.0 + sigma, projected);
      RoundMonotone(lo, hi, 2);
      Band(Round(lo, 2), Round(hi, 2))
    else Band(Round(lo, 2), Round(hi, 2))
  }

  /** For a non-negative projection and sigma in [0, 1], low <= round(projection, 2) <= high. */
  lemma BandContainsProjection(projected: real, sigma: real)
    requires projected >= 0.0 && 0.0 <= sigma <= 1.0
    ensures UncertaintyBand(projected, sigma).low <= Round(projected, 2)
                                                  <= UncertaintyBand(projected, sigma).high
  {
    MulMonotone(1.0 - sigma, 1.0, projected);
    MulMonotone(1.0, 1.0 + sigma, projected);
    assert projected * (1.0 - sigma) <= projected;
    assert projected <= projected * (1.0 + sigma);
    RoundMonotone(projected * (1.0 - sigma), projected, 2);
    RoundMonotone(projected, projected * (1.0 + sigma), 2);
  }

  datatype RiskResult = RiskResult(
    volatility: Volatility,
    riskScore: int,
    uncertainty: Band,
    change: real,
    logEntry: LogEntry)

  /** risk_agent.run */
  function Run(predicted: real, forecast90: real, confidenceBase: int, inventoryTrend: string,
               hasHistory: bool): (r: RiskResult)
    ensures r.change == ChangePct(predicted, forecast90)
    ensures r.volatility == Classify(hasHistory, Abs(r.change), inventoryTrend)
    ensures r.riskScore == RiskScore(r.volatility, confidenceBase) && 5 <= r.riskScore <= 95
    ensures !hasHistory ==> r.volatility == High
    ensures r.volatility == Low ==> hasHistory && Abs(r.change) <= 2.0 && inventoryTrend != "unknown"
    ensures predicted <= 0.0 ==> r.change == 0.0
    ensures r.uncertainty == UncertaintyBand(ProjectedPrice(predicted, forecast90), Sigma(r.volatility))
    ensures ProjectedPrice(predicted, forecast90) >= 0.0 ==>
              r.uncertainty.low <= Round(ProjectedPrice(predicted, forecast90), 2) <= r.uncertainty.high
    ensures r.logEntry == LogEntry("RiskAssessmentAgent", "ok",
              RiskOutput(r.volatility.Name(), r.riskScore, r.change, r.uncertainty.low, r.uncertainty.high))
  {
    var change := ChangePct(predicted, forecast90);
    var vol := Classify(hasHistory, Abs(change), inventoryTrend);
    var score := RiskScore(vol, confidenceBase);
    var projected := ProjectedPrice(predicted, forecast90);
    var band := UncertaintyBand(projected, Sigma(vol));
    var r := RiskResult(vol, score, band, change,
      LogEntry("RiskAssessmentAgent", "ok", RiskOutput(vol.Name(), score, change, band.low, band.high)));
    if projected >= 0.0 then BandContainsProjection(projected, Sigma(vol)); r else r
  }
}
