/**
 * TrendAnalysisAgent, after its call to the statistical forecast: the strength
 * of the 30-day trend, a momentum score, moving averages of the price history
 * with a fallback to the forecasts, an annualised depreciation rate and a
 * seasonal factor.
 */
module TrendAgent {
  import opened Optional
  import opened Records
  import opened Numeric
  import opened Smoothing

  /** "strong" from 3% up, "moderate" from 1%, else "weak" (either direction). */
  function Strength(trendPct: real): (s: string)
    ensures s in {"strong", "moderate", "weak"}
    ensures s == "strong" <==> Abs(trendPct) >= 3.0
    ensures s == "moderate" <==> 1.0 <= Abs(trendPct) < 3.0
    ensures s == "weak" <==> Abs(trendPct) < 1.0
  {
    var a := Abs(trendPct);
    if a >= 3.0 then "strong" else if a >= 1.0 then "moderate" else "weak"
  }

  /** 50 for a flat market, 5 points per percent of trend, clamped to [0, 100], one decimal. */
  function Momentum(trendPct: real): (m: real)
    ensures 0.0 <= m <= 100.0
  {
    var clamped := Bound(50.0 + trendPct * 5.0, 0.0, 100.0);
    RoundWithin(clamped, 1, 0, 100);
    Round(clamped, 1)
  }

  lemma MomentumFlat()
    ensures Momentum(0.0) == 50.0
  {
    RoundOfInt(50, 1);
  }

  lemma MomentumMonotone(t1: real, t2: real)
    requires t1 <= t2
    ensures Momentum(t1) <= Momentum(t2)
  {
    BoundMonotone(50.0 + t1 * 5.0, 50.0 + t2 * 5.0, 0.0, 100.0);
    RoundMonotone(Bound(50.0 + t1 * 5.0, 0.0, 100.0), Bound(50.0 + t2 * 5.0, 0.0, 100.0), 1);
  }

  /** An entry's avg_price is truthy: present and not zero. */
  predicate HasPrice(e: HistoryEntry) {
    e.avgPrice.Some? && e.avgPrice.value != 0.0
  }

  /** The truthy avg_price values, in order. */
  function TruthyPrices(history: seq<HistoryEntry>): (ps: seq<real>)
    ensures |ps| <= |history|
    ensures forall i :: 0 <= i < |ps| ==> ps[i] != 0.0
    ensures forall x :: x in ps <==> exists e :: e in history && HasPrice(e) && e.avgPrice.value == x
    ensures (forall e :: e in history ==> HasPrice(e)) ==> |ps| == |history|
  {
    if history == [] then []
    else
      var rest := TruthyPrices(history[1..]);
      assert forall e :: e in history <==> e == history[0] || e in history[1..];
      if HasPrice(history[0]) then [history[0].avgPrice.value] + rest else rest
  }

  /** The prices the agent works with: none unless the history is non-empty and its first
      entry carries no error. */
  function Prices(history: seq<HistoryEntry>): (ps: seq<real>)
    ensures history == [] || history[0].hasError ==> ps == []
    ensures |ps| <= |history| && forall i :: 0 <= i < |ps| ==> ps[i] != 0.0
  {
    if history != [] && !history[0].hasError then TruthyPrices(history) else []
  }

  /** The forecast used when run_forecast gives none: the last known price, or 18500 when
      that is 0 or missing. */
  function FallbackPrice(forecast: ForecastRaw): (p: real)
    ensures p != 0.0
    ensures forecast.lastKnownPrice.GetOr(0.0) != 0.0 ==> p == forecast.lastKnownPrice.value
  {
    var last := forecast.lastKnownPrice.GetOr(0.0);
    if last != 0.0 then last else 18500.0
  }

  function Last(s: seq<real>): real
    requires |s| > 0
  {
    s[|s| - 1]
  }

  /** The last moving average of a list is the mean of its last `window` values. */
  lemma MovingAverageLast(values: seq<real>, window: int)
    requires 0 < window <= |values|
    ensures Last(MovingAverageOf(values, window)) == Mean(values[|values| - window..])
  {
    assert Window(values, window, |values| - 1) == values[|values| - window..];
  }

  datatype Averages = Averages(ma30: real, ma90: real)

  /** ma_30 / ma_90: the last 3-window and min(9, n)-window moving averages when there are at
      least 3 prices, else the two forecasts; all rounded to 2 places. */
  function MovingAverages(prices: seq<real>, fc30: real, fc90: real): (a: Averages)
    ensures |prices| < 3 ==> a == Averages(Round(fc30, 2), Round(fc90, 2))
    ensures |prices| >= 3 ==>
              a.ma30 == Round(Mean(prices[|prices| - 3..]), 2)
              && a.ma90 == Round(Mean(prices[|prices| - Min(9, |prices|)..]), 2)
  {
    if |prices| >= 3 then
      MovingAverageLast(prices, 3);
      MovingAverageLast(prices, Min(9, |prices|));
      Averages(Round(Last(MovingAverageOf(prices, 3)), 2),
               Round(Last(MovingAverageOf(prices, Min(9, |prices|))), 2))
    else
      Averages(Round(fc30, 2), Round(fc90, 2))
  }

  /** The smallest value of a suffix is at least the smallest value of the whole list, and
      likewise for the largest. */
  lemma SuffixExtremes(s: seq<real>, k: nat)
    requires k < |s|
    ensures SeqMin(s) <= SeqMin(s[k..]) && SeqMax(s[k..]) <= SeqMax(s)
  {
    var lo, hi := SeqMin(s[k..]), SeqMax(s[k..]);
    var i :| 0 <= i < |s[k..]| && s[k..][i] == lo;
    var j :| 0 <= j < |s[k..]| && s[k..][j] == hi;
    assert s[k + i] == lo && s[k + j] == hi;
    assert s[k + i] in s && s[k + j] in s;
  }

  /** With at least 3 prices both averages lie between the smallest and the largest price
      (rounded). */
  lemma AveragesWithinPrices(prices: seq<real>, fc30: real, fc90: real)
    requires |prices| >= 3
    ensures var a := MovingAverages(prices, fc30, fc90);
            Round(SeqMin(prices), 2) <= a.ma30 <= Round(SeqMax(prices), 2)
            && Round(SeqMin(prices), 2) <= a.ma90 <= Round(SeqMax(prices), 2)
  {
    var n := |prices|;
    var w := Min(9, n);
    var lo, hi := SeqMin(prices), SeqMax(prices);
    SuffixExtremes(prices, n - 3);
    MeanBetween(prices[n - 3..]);
    RoundMonotone(lo, Mean(prices[n - 3..]), 2);
    RoundMonotone(Mean(prices[n - 3..]), hi, 2);
    SuffixExtremes(prices, n - w);
    MeanBetween(prices[n - w..]);
    RoundMonotone(lo, Mean(prices[n - w..]), 2);
    RoundMonotone(Mean(prices[n - w..]), hi, 2);
  }

  /** Annualised depreciation in percent: 0 unless the last price is positive and there are
      at least 2 prices; the years are n / 12, at least 1. */
  function DepreciationRate(prices: seq<real>, lastPrice: real): real
    requires forall i :: 0 <= i < |prices| ==> prices[i] != 0.0
  {
    if lastPrice > 0.0 && |prices| >= 2 then
      var oldest := prices[0];
      var years := MaxR(|prices| as real / 12.0, 1.0);
      Round((oldest - lastPrice) / oldest / years * 100.0, 2)
    else 0.0
  }

  /** A price that fell from a positive oldest price gives a non-negative rate, one that rose
      a non-positive rate. */
  lemma DepreciationSign(prices: seq<real>, lastPrice: real)
    requires forall i :: 0 <= i < |prices| ==> prices[i] != 0.0
    requires |prices| >= 2 && prices[0] > 0.0 && lastPrice > 0.0
    ensures lastPrice <= prices[0] ==> DepreciationRate(prices, lastPrice) >= 0.0
    ensures lastPrice >= prices[0] ==> DepreciationRate(prices, lastPrice) <= 0.0
  {
    var oldest := prices[0];
    var years := MaxR(|prices| as real / 12.0, 1.0);
    var x := (oldest - lastPrice) / oldest / years * 100.0;
    RoundOfInt(0, 2);
    if lastPrice <= oldest {
      assert (oldest - lastPrice) / oldest >= 0.0;
      assert (oldest - lastPrice) / oldest / years >= 0.0;
      RoundMonotone(0.0, x, 2);
    }
    if lastPrice >= oldest {
      assert (oldest - lastPrice) / oldest <= 0.0;
      assert (oldest - lastPrice) / oldest / years <= 0.0;
      RoundMonotone(x, 0.0, 2);
    }
  }

  /** The last price relative to ma_90, to 3 places; 1.0 when ma_90 is not positive. */
  function SeasonalFactor(lastPrice: real, ma90: real): (f: real)
    ensures ma90 <= 0.0 ==> f == 1.0
  {
    if ma90 > 0.0 then Round(lastPrice / ma90, 3) else 1.0
  }

  /** A last price equal to ma_90 gives factor 1, a higher one a factor of at least 1. */
  lemma SeasonalFactorAtAverage(lastPrice: real, ma90: real)
    requires ma90 > 0.0 && lastPrice >= ma90
    ensures SeasonalFactor(lastPrice, ma90) >= 1.0
    ensures lastPrice == ma90 ==> SeasonalFactor(lastPrice, ma90) == 1.0
  {
    RoundOfInt(1, 3);
    DivMonotone(ma90, lastPrice, ma90);
    RoundMonotone(1.0, lastPrice / ma90, 3);
  }

  datatype TrendResult = TrendResult(
    forecast: ForecastRaw,
    direction: string,
    strength: string,
    momentumScore: real,
    ma30: real,
    ma90: real,
    depreciationRate: real,
    seasonalFactor: real,
    logEntry: LogEntry)

  /** trend_agent.run, given run_forecast's result. */
  function Run(forecast: ForecastRaw, history: seq<HistoryEntry>): (r: TrendResult)
    ensures r.forecast == forecast
    ensures r.direction == forecast.trendDirection.GetOr("stable")
    ensures r.strength == Strength(forecast.trendPctChange.GetOr(0.0))
    ensures 0.0 <= r.momentumScore <= 100.0
    ensures forecast.trendPctChange.GetOr(0.0) == 0.0 ==> r.momentumScore == 50.0
    ensures |Prices(history)| < 3 ==>
              r.ma30 == Round(forecast.forecast30d.GetOr(FallbackPrice(forecast)), 2)
              && r.ma90 == Round(forecast.forecast90d.GetOr(FallbackPrice(forecast)), 2)
    ensures r.momentumScore == Momentum(forecast.trendPctChange.GetOr(0.0))
    ensures var ps := Prices(history);
            |ps| >= 3 ==>
              r.ma30 == Round(Mean(ps[|ps| - 3..]), 2)
              && r.ma90 == Round(Mean(ps[|ps| - Min(9, |ps|)..]), 2)
    ensures r.depreciationRate == DepreciationRate(Prices(history), forecast.lastKnownPrice.GetOr(0.0))
    ensures !(forecast.lastKnownPrice.GetOr(0.0) > 0.0 && |Prices(history)| >= 2) ==>
              r.depreciationRate == 0.0
    ensures r.seasonalFactor == SeasonalFactor(forecast.lastKnownPrice.GetOr(0.0), r.ma90)
    ensures r.ma90 <= 0.0 ==> r.seasonalFactor == 1.0
    ensures r.logEntry == LogEntry("TrendAnalysisAgent", "ok",
              TrendOutput(r.direction, r.strength, r.momentumScore, forecast.forecastMethod.GetOr("market_avg"),
                          forecast.trendPctChange.GetOr(0.0), forecast.trendPct90d.GetOr(0.0)))
  {
    var trendPct := forecast.trendPctChange.GetOr(0.0);
    var direction := forecast.trendDirection.GetOr("stable");
    var strength := Strength(trendPct);
    var momentum := Momentum(trendPct);
    var prices := Prices(history);
    var lastPrice := forecast.lastKnownPrice.GetOr(0.0);
    var fc30 := forecast.forecast30d.GetOr(FallbackPrice(forecast));
    var fc90 := forecast.forecast90d.GetOr(FallbackPrice(forecast));
    var a := MovingAverages(prices, fc30, fc90);
    var dep := DepreciationRate(prices, lastPrice);
    var seasonal := SeasonalFactor(lastPrice, a.ma90);
    MomentumFlat();
    TrendResult(forecast, direction, strength, momentum, a.ma30, a.ma90, dep, seasonal,
                LogEntry("TrendAnalysisAgent", "ok",
                         TrendOutput(direction, strength, momentum, forecast.forecastMethod.GetOr("market_avg"),
                                     trendPct, forecast.trendPct90d.GetOr(0.0))))
  }
}
