/**
 * The market page's state and derived data: loading the overview and
 * re-seeding it, the market heat score with its hot/cool/balanced reading,
 * the colour ramp of the seasonality bars, the forecast-method badge and the
 * seed-data banner.
 */
module MarketPage {
  import opened Optional
  import opened Numeric
  import opened JsValues
  import ForecastAgent

  // ---------------------------------------------------------------------------
  // Market heat
  // ---------------------------------------------------------------------------

  /** heatScore: 50 plus five points per percent of month-on-month change, rounded the
      JavaScript way and clamped to [0, 100]; a missing change counts as 0. */
  function HeatScore(momChangePct: Option<real>): (h: int)
    ensures 0 <= h <= 100
    ensures momChangePct.None? ==> h == 50
    ensures momChangePct.Some? && 0.0 <= 50.0 + momChangePct.value * 5.0 <= 100.0 ==>
              h == JsRound(50.0 + momChangePct.value * 5.0)
  {
    Min(100, Max(0, JsRound(50.0 + momChangePct.GetOr(0.0) * 5.0)))
  }

  /** A larger month-on-month change never gives a lower score. */
  lemma HeatScoreMonotone(m1: real, m2: real)
    requires m1 <= m2
    ensures HeatScore(Some(m1)) <= HeatScore(Some(m2))
  {
    JsRoundMonotone(50.0 + m1 * 5.0, 50.0 + m2 * 5.0);
  }

  datatype Heat = Hot | Cool | Balanced {
    /** The headline under the gauge. */
    function Label(): string {
      match this
      case Hot => "Hot — seller's market"
      case Cool => "Cool — buyer's market"
      case Balanced => "Balanced market"
    }

    /** The text colour of the score. */
    function Colour(): string {
      match this
      case Hot => "text-red-400"
      case Cool => "text-blue-400"
      case Balanced => "text-amber-400"
    }

    /** The colour of the gauge bar. */
    function BarColour(): string {
      match this
      case Hot => "bg-red-500"
      case Cool => "bg-blue-500"
      case Balanced => "bg-amber-500"
    }
  }

  /** isHot / isCool: above 65 is hot, below 35 cool, anything else balanced. */
  function Classify(score: int): (h: Heat)
    ensures h == Hot <==> score > 65
    ensures h == Cool <==> score < 35
    ensures h == Balanced <==> 35 <= score <= 65
  {
    if score > 65 then Hot else if score < 35 then Cool else Balanced
  }

  /** In terms of the change itself: hot from +3.1% up, cool strictly below -3.1%. The
      rounding makes the two ends asymmetric: exactly -3.1% is balanced. */
  lemma HeatThresholds(m: real)
    ensures Classify(HeatScore(Some(m))) == Hot <==> m >= 3.1
    ensures Classify(HeatScore(Some(m))) == Cool <==> m < -3.1
    ensures Classify(HeatScore(None)) == Balanced
  {
    var x := 50.0 + m * 5.0;
    var r := JsRound(x);
    assert r >= 66 <==> x >= 65.5;
    assert r <= 34 <==> x < 34.5;
  }

  // ---------------------------------------------------------------------------
  // Seasonality colours
  // ---------------------------------------------------------------------------

  datatype Rgb = Rgb(r: int, g: int, b: int)

  /** seasonColor: a blue-to-red ramp, rgb(59,130,246) at the minimum and rgb(239,68,68) at
      the maximum, each channel rounded; the midpoint when all values are equal. */
  function SeasonColour(value: real, lo: real, hi: real): (c: Rgb)
    ensures hi == lo ==> c == Rgb(149, 99, 157)
    ensures hi != lo && value == lo ==> c == Rgb(59, 130, 246)
    ensures hi != lo && value == hi ==> c == Rgb(239, 68, 68)
    ensures lo < hi && lo <= value <= hi ==>
              59 <= c.r <= 239 && 68 <= c.g <= 130 && 68 <= c.b <= 246
  {
    var ratio := if hi == lo then 0.5 else (value - lo) / (hi - lo);
    RatioFacts(value, lo, hi);
    Rgb(JsRound(59.0 + ratio * 180.0), JsRound(130.0 + ratio * -62.0), JsRound(246.0 + ratio * -178.0))
  }

  /** The position of value between lo and hi: 0 at lo, 1 at hi, within [0, 1] between. */
  lemma RatioFacts(value: real, lo: real, hi: real)
    ensures hi != lo && value == lo ==> (value - lo) / (hi - lo) == 0.0
    ensures hi != lo && value == hi ==> (value - lo) / (hi - lo) == 1.0
    ensures lo < hi && lo <= value <= hi ==> 0.0 <= (value - lo) / (hi - lo) <= 1.0
  {
    if lo < hi && lo <= value <= hi {
      DivMonotone(0.0, value - lo, hi - lo);
      DivMonotone(value - lo, hi - lo, hi - lo);
    }
    if hi != lo && value == hi {
      var d := hi - lo;
      assert d / d == 1.0;
    }
  }

  /** A higher bar is never bluer: red grows, green and blue shrink. */
  lemma SeasonColourMonotone(v1: real, v2: real, lo: real, hi: real)
    requires lo < hi && v1 <= v2
    ensures SeasonColour(v1, lo, hi).r <= SeasonColour(v2, lo, hi).r
    ensures SeasonColour(v1, lo, hi).g >= SeasonColour(v2, lo, hi).g
    ensures SeasonColour(v1, lo, hi).b >= SeasonColour(v2, lo, hi).b
  {
    var r1, r2 := (v1 - lo) / (hi - lo), (v2 - lo) / (hi - lo);
    DivMonotone(v1 - lo, v2 - lo, hi - lo);
    JsRoundMonotone(59.0 + r1 * 180.0, 59.0 + r2 * 180.0);
    JsRoundMonotone(130.0 + r2 * -62.0, 130.0 + r1 * -62.0);
    JsRoundMonotone(246.0 + r2 * -178.0, 246.0 + r1 * -178.0);
  }

  /** The ends of the ramp: Math.min and Math.max of the monthly prices, or 0 and 1 when the
      data has no seasonality. An empty list gives +Infinity and -Infinity, here Unbounded. */
  datatype Extent = Bounds(lo: real, hi: real) | Unbounded

  function SeasonExtent(prices: Option<seq<real>>): (e: Extent)
    ensures prices.None? ==> e == Bounds(0.0, 1.0)
    ensures prices == Some([]) ==> e == Unbounded
    ensures prices.Some? && prices.value != [] ==>
              e.Bounds? && e.lo in prices.value && e.hi in prices.value
              && forall p :: p in prices.value ==> e.lo <= p <= e.hi
  {
    match prices
    case None => Bounds(0.0, 1.0)
    case Some(ps) => if ps == [] then Unbounded else Bounds(SeqMin(ps), SeqMax(ps))
  }

  /** Every seasonality bar is coloured on the ramp, the cheapest month bluest and the dearest
      reddest. */
  lemma BarsOnRamp(prices: seq<real>, i: int)
    requires 0 <= i < |prices|
    ensures var e := SeasonExtent(Some(prices));
            var c := SeasonColour(prices[i], e.lo, e.hi);
            59 <= c.r <= 239 && 68 <= c.g <= 130 && 68 <= c.b <= 246
            && c.r <= SeasonColour(e.hi, e.lo, e.hi).r
            && c.r >= SeasonColour(e.lo, e.lo, e.hi).r
  {
    var e := SeasonExtent(Some(prices));
    assert prices[i] in prices;
    if e.lo < e.hi {
      SeasonColourMonotone(prices[i], e.hi, e.lo, e.hi);
      SeasonColourMonotone(e.lo, prices[i], e.lo, e.hi);
    }
  }

  // ---------------------------------------------------------------------------
  // Badge and banner
  // ---------------------------------------------------------------------------

  const BadgeLabels: map<string, string> := map[
    "llm_blended" := "AI Enhanced", "statistical" := "Statistical", "prophet" := "Prophet",
    "linear" := "Extrapolated", "market_avg" := "Market Avg", "industry_default" := "Industry Est"]

  /** ForecastBadge: nothing without a method, the table's label for a known one, and the
      method's own name otherwise. */
  function BadgeLabel(forecastMethod: Option<string>): (badge: Option<string>)
    ensures badge.None? <==> forecastMethod.None? || forecastMethod.value == ""
    ensures badge.Some? && forecastMethod.value in BadgeLabels ==> badge.value == BadgeLabels[forecastMethod.value]
    ensures badge.Some? && forecastMethod.value !in BadgeLabels ==> badge.value == forecastMethod.value
    ensures badge.Some? ==> badge.value != ""
  {
    match forecastMethod
    case None => None
    case Some(m) => if m == "" then None else if m in BadgeLabels then Some(BadgeLabels[m]) else Some(m)
  }

  /** The badge table names exactly the methods the forecast agent gives a confidence of its
      own; every other method gets the default confidence and is shown under its own name. */
  lemma BadgeKnownIffRanked(m: string)
    ensures m in BadgeLabels <==> ForecastAgent.MethodConfidence(m) != 65
  {
  }

  /** Array.prototype.some over the is_seed flags. */
  function AnySeed(flags: seq<JsValue>): (r: bool)
    ensures r <==> exists i :: 0 <= i < |flags| && Truthy(flags[i])
  {
    if flags == [] then false
    else
      assert forall i :: 0 < i < |flags| ==> flags[i] == flags[1..][i - 1];
      Truthy(flags[0]) || AnySeed(flags[1..])
  }

  /** hasSeedData: some top-buy row is flagged as seed data (false when there are no rows). */
  function HasSeedData(topBuys: Option<seq<JsValue>>): (r: bool)
    ensures r <==> topBuys.Some? && exists i :: 0 <= i < |topBuys.value| && Truthy(topBuys.value[i])
  {
    topBuys.Some? && AnySeed(topBuys.value)
  }

  // ---------------------------------------------------------------------------
  // Page state
  // ---------------------------------------------------------------------------

  /** The parts of the market overview the page derives values from. */
  datatype Overview = Overview(
    seasonality: Option<seq<real>>,
    momChangePct: Option<real>,
    topBuySeedFlags: Option<seq<JsValue>>)

  datatype LoadOutcome = Loaded(data: Overview) | LoadFailed(err: RequestError)

  class MarketView {
    var data: Option<Overview>
    var loading: bool
    var error: JsValue
    var seeding: bool

    constructor()
      ensures data == None && loading && error == Null && !seeding
    {
      data := None;
      loading := true;
      error := Null;
      seeding := false;
    }

    /** loadMarket, given how the overview request settled. A failure keeps the data already
        shown. */
    method LoadMarket(outcome: LoadOutcome)
      modifies this
      ensures !loading && seeding == old(seeding)
      ensures outcome.Loaded? ==> data == Some(outcome.data) && error == Null
      ensures outcome.LoadFailed? ==> data == old(data) && error == MarketErrorText(outcome.err)
    {
      loading := true;
      error := Null;
      match outcome {
        case Loaded(d) =>
          data := Some(d);
        case LoadFailed(e) =>
          error := MarketErrorText(e);
      }
      loading := false;
    }

    /** handleReseed, given whether seeding succeeded and how the reload then settled: the
        page reloads only after a successful seed, and the seeding flag is down afterwards
        either way. */
    method HandleReseed(seeded: bool, reload: LoadOutcome)
      modifies this
      ensures !seeding
      ensures seeded ==> !loading
                         && (reload.Loaded? ==> data == Some(reload.data) && error == Null)
                         && (reload.LoadFailed? ==> data == old(data) && error == MarketErrorText(reload.err))
      ensures !seeded ==> data == old(data) && loading == old(loading) && error == old(error)
    {
      seeding := true;
      if seeded {
        LoadMarket(reload);
      }
      seeding := false;
    }
  }
}
