/**
 * The analyze page's state and derived data: the cascading make/model/year
 * option lists, the form handlers that keep them consistent, the `analyze`
 * request cycle with its progress stage, the history/forecast chart join, the
 * feature-impact bars and the confidence gauge.
 */
module AnalyzePage {
  import opened Optional
  import opened Numeric
  import opened Strings
  import opened Sorting
  import opened JsValues
  import opened Records
  import Orchestrator

  // ---------------------------------------------------------------------------
  // Catalogue options
  // ---------------------------------------------------------------------------

  /** One catalogue record, as the cars endpoint lists it. */
  datatype Car = Car(make: string, model: string, year: int)

  /** Array.prototype.sort's default order on strings. */
  function StringOrder(): (string, string) -> bool {
    (a: string, b: string) => LexLess(a, b)
  }

  lemma StringOrderIsStrictTotal()
    ensures IsStrictTotalOrder(StringOrder())
  {
    forall a ensures !LexLess(a, a) { LexLessIrreflexive(a); }
    forall a, b, c | LexLess(a, b) && LexLess(b, c) ensures LexLess(a, c) { LexLessTransitive(a, b, c); }
    forall a, b ensures a == b || LexLess(a, b) || LexLess(b, a) { LexLessTotal(a, b); }
  }

  /** The comparator (a, b) => b - a: larger years first. */
  function Descending(): (lt: (int, int) -> bool)
    ensures IsStrictTotalOrder(lt)
    ensures forall a, b :: lt(a, b) == (a > b)
  {
    (a: int, b: int) => a > b
  }

  function MakesOf(cars: seq<Car>): seq<string> {
    seq(|cars|, i requires 0 <= i < |cars| => cars[i].make)
  }

  function ModelsOf(cars: seq<Car>, make: string): seq<string> {
    if cars == [] then []
    else ModelsOf(cars[..|cars| - 1], make)
         + (if cars[|cars| - 1].make == make then [cars[|cars| - 1].model] else [])
  }

  function YearsOf(cars: seq<Car>, make: string, model: string): seq<int> {
    if cars == [] then []
    else YearsOf(cars[..|cars| - 1], make, model)
         + (if cars[|cars| - 1].make == make && cars[|cars| - 1].model == model
            then [cars[|cars| - 1].year] else [])
  }

  lemma MakesOfExact(cars: seq<Car>)
    ensures forall m :: m in MakesOf(cars) <==> exists c :: c in cars && c.make == m
  {
    forall m ensures m in MakesOf(cars) <==> exists c :: c in cars && c.make == m {
      if m in MakesOf(cars) {
        var i :| 0 <= i < |cars| && MakesOf(cars)[i] == m;
        assert cars[i] in cars;
      }
      if c :| c in cars && c.make == m {
        var i :| 0 <= i < |cars| && cars[i] == c;
        assert MakesOf(cars)[i] == m;
      }
    }
  }

  lemma {:induction false} ModelsOfExact(cars: seq<Car>, make: string)
    ensures forall m :: m in ModelsOf(cars, make) <==> exists c :: c in cars && c.make == make && c.model == m
  {
    if cars != [] {
      var init, last := cars[..|cars| - 1], cars[|cars| - 1];
      ModelsOfExact(init, make);
      assert cars == init + [last];
      assert forall c :: c in cars <==> c in init || c == last;
    }
  }

  lemma {:induction false} YearsOfExact(cars: seq<Car>, make: string, model: string)
    ensures forall y :: y in YearsOf(cars, make, model)
                        <==> exists c :: c in cars && c.make == make && c.model == model && c.year == y
  {
    if cars != [] {
      var init, last := cars[..|cars| - 1], cars[|cars| - 1];
      YearsOfExact(init, make, model);
      assert cars == init + [last];
      assert forall c :: c in cars <==> c in init || c == last;
    }
  }

  /** makes: the distinct makes of the catalogue, in ascending order. */
  function MakeOptions(cars: seq<Car>): (r: seq<string>)
    ensures StrictlySorted(r, StringOrder())
    ensures forall m :: m in r <==> exists c :: c in cars && c.make == m
  {
    StringOrderIsStrictTotal();
    MakesOfExact(cars);
    SortDistinct(MakesOf(cars), StringOrder())
  }

  /** models: the distinct models of the chosen make, in ascending order; none for a make
      the catalogue does not have. */
  function ModelOptions(cars: seq<Car>, make: string): (r: seq<string>)
    ensures StrictlySorted(r, StringOrder())
    ensures forall m :: m in r <==> exists c :: c in cars && c.make == make && c.model == m
    ensures make !in MakeOptions(cars) ==> r == []
  {
    StringOrderIsStrictTotal();
    ModelsOfExact(cars, make);
    var r := SortDistinct(ModelsOf(cars, make), StringOrder());
    assert r != [] ==> r[0] in r;
    r
  }

  /** years: the distinct years of the chosen make and model, newest first. */
  function YearOptions(cars: seq<Car>, make: string, model: string): (r: seq<int>)
    ensures StrictlySorted(r, Descending())
    ensures forall i, j :: 0 <= i < j < |r| ==> r[i] > r[j]
    ensures forall y :: y in r <==> exists c :: c in cars && c.make == make && c.model == model && c.year == y
  {
    YearsOfExact(cars, make, model);
    SortDistinct(YearsOf(cars, make, model), Descending())
  }

  /** Every offered year belongs to an offered model of an offered make. */
  lemma YearsWithinModels(cars: seq<Car>, make: string, model: string)
    requires YearOptions(cars, make, model) != []
    ensures make in MakeOptions(cars)
    ensures model in ModelOptions(cars, make)
  {
    var y := YearOptions(cars, make, model)[0];
    assert y in YearOptions(cars, make, model);
    var c :| c in cars && c.make == make && c.model == model && c.year == y;
  }

  // ---------------------------------------------------------------------------
  // Chart join
  // ---------------------------------------------------------------------------

  /** One entry of the price history as the page receives it. */
  datatype HistoryPoint = HistoryPoint(date: JsValue, avgPrice: JsValue)

  /** The run_forecast tool output (all undefined when it is missing or falsy). */
  datatype ForecastView = ForecastView(lastKnownPrice: JsValue, forecast30d: JsValue, forecast90d: JsValue)

  /** The parts of the prediction response the page reads. `priceHistory` is None when the
      tool output is not an array. */
  datatype Prediction = Prediction(
    priceHistory: Option<seq<HistoryPoint>>,
    runForecast: ForecastView,
    forecast30d: JsValue,
    forecast90d: JsValue,
    confidence: JsValue,
    shapFactors: seq<ShapFactor>)

  datatype ChartPoint = ChartPoint(date: JsValue, historical: JsValue, forecast: JsValue)

  /** The history drawn: the tool output when it is an array, otherwise nothing. */
  function History(result: Option<Prediction>): (hist: seq<HistoryPoint>)
    ensures result.None? || result.value.priceHistory.None? ==> hist == []
    ensures result.Some? && result.value.priceHistory.Some? ==> hist == result.value.priceHistory.value
  {
    if result.Some? && result.value.priceHistory.Some? then result.value.priceHistory.value else []
  }

  function RunForecast(result: Option<Prediction>): ForecastView {
    if result.Some? then result.value.runForecast else ForecastView(Undefined, Undefined, Undefined)
  }

  /** The 30-day point: the blended top-level value unless it is falsy, then the raw forecast's. */
  function Forecast30(result: Option<Prediction>): (f: JsValue)
    ensures result.Some? && Truthy(result.value.forecast30d) ==> f == result.value.forecast30d
    ensures (result.None? || !Truthy(result.value.forecast30d)) ==> f == RunForecast(result).forecast30d
  {
    Or(if result.Some? then result.value.forecast30d else Undefined, RunForecast(result).forecast30d)
  }

  /** The 90-day point, chosen the same way. */
  function Forecast90(result: Option<Prediction>): (f: JsValue)
    ensures result.Some? && Truthy(result.value.forecast90d) ==> f == result.value.forecast90d
    ensures (result.None? || !Truthy(result.value.forecast90d)) ==> f == RunForecast(result).forecast90d
  {
    Or(if result.Some? then result.value.forecast90d else Undefined, RunForecast(result).forecast90d)
  }

  /** Whether the forecast segment is drawn: a last known price and at least one forecast. */
  predicate Joined(result: Option<Prediction>) {
    Truthy(RunForecast(result).lastKnownPrice) && (Truthy(Forecast30(result)) || Truthy(Forecast90(result)))
  }

  /** chartData: one point per history entry; when the forecast segment is drawn, the last
      historical point also starts the forecast line and three points follow (Now, +30d, +90d). */
  method BuildChartData(result: Option<Prediction>) returns (pts: seq<ChartPoint>)
    ensures var hist := History(result);
            |pts| == |hist| + (if Joined(result) then 3 else 0)
            && (forall i :: 0 <= i < |hist| ==>
                  pts[i].date == hist[i].date && pts[i].historical == hist[i].avgPrice
                  && pts[i].forecast == (if Joined(result) && i == |hist| - 1 then hist[i].avgPrice else Null))
            && (Joined(result) ==>
                  pts[|hist|] == ChartPoint(Str("Now"), Null, RunForecast(result).lastKnownPrice)
                  && pts[|hist| + 1] == ChartPoint(Str("+30d"), Null, Forecast30(result))
                  && pts[|hist| + 2] == ChartPoint(Str("+90d"), Null, Forecast90(result)))
  {
    var hist := History(result);
    var fc := RunForecast(result);
    var forecast30 := Forecast30(result);
    var forecast90 := Forecast90(result);
    pts := [];
    var i := 0;
    while i < |hist|
      invariant 0 <= i <= |hist| && |pts| == i
      invariant forall k :: 0 <= k < i ==> pts[k] == ChartPoint(hist[k].date, hist[k].avgPrice, Null)
    {
      pts := pts + [ChartPoint(hist[i].date, hist[i].avgPrice, Null)];
      i := i + 1;
    }
    if Truthy(fc.lastKnownPrice) && (Truthy(forecast30) || Truthy(forecast90)) {
      if |pts| > 0 {
        var last := |pts| - 1;
        pts := pts[last := pts[last].(forecast := pts[last].historical)];
      }
      pts := pts + [ChartPoint(Str("Now"), Null, fc.lastKnownPrice)];
      pts := pts + [ChartPoint(Str("+30d"), Null, forecast30)];
      pts := pts + [ChartPoint(Str("+90d"), Null, forecast90)];
    }
  }

  // ---------------------------------------------------------------------------
  // Feature-impact bars and confidence gauge
  // ---------------------------------------------------------------------------

  datatype Bar = Bar(name: string, impact: real, dir: string)

  /** feature.replace(/_/g, ' ') */
  function ReplaceUnderscores(s: string): (r: string)
    ensures |r| == |s|
    ensures forall i :: 0 <= i < |s| ==> r[i] == (if s[i] == '_' then ' ' else s[i])
  {
    seq(|s|, i requires 0 <= i < |s| => if s[i] == '_' then ' ' else s[i])
  }

  function ToBar(f: ShapFactor): (b: Bar)
    ensures b.impact >= 0.0 && b.impact == Abs(f.impact)
  {
    Bar(ReplaceUnderscores(f.feature), Abs(f.impact), f.direction)
  }

  predicate NonIncreasing(bars: seq<Bar>) {
    forall i, j :: 0 <= i < j < |bars| ==> bars[i].impact >= bars[j].impact
  }

  /** Places b after every bar of `sorted` at least as large, ahead of the smaller ones. */
  function InsertByImpact(b: Bar, sorted: seq<Bar>): (r: seq<Bar>)
    requires NonIncreasing(sorted)
    ensures NonIncreasing(r)
    ensures multiset(r) == multiset(sorted) + multiset{b}
    ensures |r| == |sorted| + 1
    ensures r[0] == b || (sorted != [] && r[0] == sorted[0])
  {
    if sorted == [] then [b]
    else if sorted[0].impact < b.impact then [b] + sorted
    else
      var rest := InsertByImpact(b, sorted[1..]);
      assert sorted == [sorted[0]] + sorted[1..];
      ConsNonIncreasing(sorted[0], rest);
      [sorted[0]] + rest
  }

  lemma ConsNonIncreasing(x: Bar, bars: seq<Bar>)
    requires NonIncreasing(bars) && (bars == [] || x.impact >= bars[0].impact)
    ensures NonIncreasing([x] + bars)
  {
    forall i, j | 0 <= i < j < |bars| + 1 ensures ([x] + bars)[i].impact >= ([x] + bars)[j].impact {
      if i == 0 {
        assert bars[0].impact >= bars[j - 1].impact || j == 1;
      }
    }
  }

  /** sort((a, b) => b.impact - a.impact) */
  function SortByImpact(bars: seq<Bar>): (r: seq<Bar>)
    ensures NonIncreasing(r)
    ensures multiset(r) == multiset(bars)
  {
    if bars == [] then []
    else
      assert bars == bars[..|bars| - 1] + [bars[|bars| - 1]];
      InsertByImpact(bars[|bars| - 1], SortByImpact(bars[..|bars| - 1]))
  }

  function Bars(shap: seq<ShapFactor>): (bars: seq<Bar>)
    ensures |bars| == |shap|
    ensures forall i :: 0 <= i < |shap| ==> bars[i] == ToBar(shap[i])
  {
    seq(|shap|, i requires 0 <= i < |shap| => ToBar(shap[i]))
  }

  /** shapChartData: one bar per factor, by absolute impact, largest first. */
  function ShapChartData(shap: seq<ShapFactor>): (r: seq<Bar>)
    ensures |r| == |shap|
    ensures NonIncreasing(r)
    ensures multiset(r) == multiset(Bars(shap))
    ensures forall i :: 0 <= i < |r| ==> r[i].impact >= 0.0
  {
    var r := SortByImpact(Bars(shap));
    assert |r| == |multiset(r)|;
    forall i | 0 <= i < |r| ensures r[i].impact >= 0.0 {
      assert r[i] in multiset(Bars(shap));
    }
    r
  }

  /** The largest bar comes first: no factor has a larger absolute impact. */
  lemma LargestImpactFirst(shap: seq<ShapFactor>, k: int)
    requires 0 <= k < |shap|
    ensures ShapChartData(shap)[0].impact >= Abs(shap[k].impact)
  {
    var r := ShapChartData(shap);
    assert ToBar(shap[k]) == Bars(shap)[k];
    assert ToBar(shap[k]) in multiset(r);
    var j :| 0 <= j < |r| && r[j] == ToBar(shap[k]);
  }

  /** confPct: the gauge filling for the confidence label. */
  function ConfPct(conf: JsValue): (p: int)
    ensures p == 90 <==> conf == Str("HIGH")
    ensures p == 60 <==> conf == Str("MODERATE")
    ensures p == 30 <==> conf != Str("HIGH") && conf != Str("MODERATE")
  {
    if conf == Str("HIGH") then 90 else if conf == Str("MODERATE") then 60 else 30
  }

  /** On the label the orchestrator produces, the gauge fills 90 from a score of 75, 60 from
      55, and 30 below, and never less for a higher score. */
  lemma ConfPctOfScore(score1: int, score2: int)
    requires score1 <= score2
    ensures var p := ConfPct(Str(Orchestrator.LegacyConfidence(score1)));
            p == (if score1 >= 75 then 90 else if score1 >= 55 then 60 else 30)
    ensures ConfPct(Str(Orchestrator.LegacyConfidence(score1)))
            <= ConfPct(Str(Orchestrator.LegacyConfidence(score2)))
  {
  }

  // ---------------------------------------------------------------------------
  // Page state
  // ---------------------------------------------------------------------------

  const AnalysisStages: seq<string> := [
    "Fetching price history…", "Running 90-day forecast…", "Predicting fair market value…",
    "Analyzing market context…", "Running AI price analysis…", "Synthesizing recommendation…"]

  datatype Form = Form(make: string, model: string, year: JsValue, mileage: JsValue, condition: string,
                       region: string)

  const InitialForm: Form := Form("", "", Str(""), Num(50000.0), "good", "california")

  /** How the prediction request settled. */
  datatype Outcome = Success(data: Prediction) | Failure(err: RequestError)

  class AnalyzeView {
    var cars: seq<Car>
    var form: Form
    var result: Option<Prediction>
    var loading: bool
    var error: JsValue
    var stage: int

    /** The progress stage always names one of the stages. */
    ghost predicate Valid()
      reads this
    {
      0 <= stage < |AnalysisStages|
    }

    /** All three of make, model and year are chosen. */
    predicate Ready()
      reads this
    {
      form.make != "" && form.model != "" && Truthy(form.year)
    }

    constructor()
      ensures Valid()
      ensures cars == [] && form == InitialForm && result == None && !loading && error == Null && stage == 0
      ensures !Ready()
    {
      cars := [];
      form := InitialForm;
      result := None;
      loading := false;
      error := Null;
      stage := 0;
    }

    /** The catalogue arrives. */
    method SetCatalogue(catalogue: seq<Car>)
      modifies this
      ensures cars == catalogue
      ensures form == old(form) && result == old(result) && loading == old(loading)
      ensures error == old(error) && stage == old(stage)
    {
      cars := catalogue;
    }

    /** Choosing a make clears the model and the year. */
    method SelectMake(make: string)
      modifies this
      ensures form == old(form).(make := make, model := "", year := Str(""))
      ensures cars == old(cars) && result == old(result) && loading == old(loading)
      ensures error == old(error) && stage == old(stage)
      ensures !Ready()
    {
      form := form.(make := make);
      form := form.(model := "");
      form := form.(year := Str(""));
    }

    /** Choosing a model clears the year. */
    method SelectModel(model: string)
      modifies this
      ensures form == old(form).(model := model, year := Str(""))
      ensures cars == old(cars) && result == old(result) && loading == old(loading)
      ensures error == old(error) && stage == old(stage)
      ensures !Ready()
    {
      form := form.(model := model);
      form := form.(year := Str(""));
    }

    method SelectYear(year: string)
      modifies this
      ensures form == old(form).(year := Str(year))
      ensures cars == old(cars) && result == old(result) && loading == old(loading)
      ensures error == old(error) && stage == old(stage)
    {
      form := form.(year := Str(year));
    }

    /** The URL parameters fill the form only when make, model and year are all present and
        non-empty; the year is converted with `+`. */
    method PrefillFromUrl(make: Option<string>, model: Option<string>, year: Option<string>)
      modifies this
      ensures make.Some? && make.value != "" && model.Some? && model.value != "" && year.Some? && year.value != ""
              ==> form == old(form).(make := make.value, model := model.value, year := ToNumber(year.value))
      ensures !(make.Some? && make.value != "" && model.Some? && model.value != "" && year.Some? && year.value != "")
              ==> form == old(form)
      ensures cars == old(cars) && result == old(result) && loading == old(loading)
      ensures error == old(error) && stage == old(stage)
    {
      if make.Some? && make.value != "" && model.Some? && model.value != "" && year.Some? && year.value != "" {
        form := form.(make := make.value, model := model.value, year := ToNumber(year.value));
      }
    }

    /** analyze, given how many times the 2.5-second progress timer fired before the request
        settled and how it settled. Without make, model and year nothing changes. */
    method Analyze(ticks: nat, outcome: Outcome)
      requires Valid()
      modifies this
      ensures Valid()
      ensures cars == old(cars) && form == old(form)
      ensures !old(Ready()) ==>
                result == old(result) && loading == old(loading) && error == old(error) && stage == old(stage)
      ensures old(Ready()) ==>
                !loading
                && stage == Min(ticks, |AnalysisStages| - 1)
                && (outcome.Success? ==> result == Some(outcome.data) && error == Null)
                && (outcome.Failure? ==> result == None && error == AnalyzeErrorText(outcome.err))
    {
      if !(form.make != "" && form.model != "" && Truthy(form.year)) {
        return;
      }
      loading := true;
      error := Null;
      result := None;
      stage := 0;
      var fired := 0;
      while fired < ticks
        invariant 0 <= fired <= ticks
        invariant stage == Min(fired, |AnalysisStages| - 1)
        invariant loading && error == Null && result == None
        invariant cars == old(cars) && form == old(form)
      {
        stage := Min(stage + 1, |AnalysisStages| - 1);
        fired := fired + 1;
      }
      match outcome {
        case Success(data) =>
          result := Some(data);
        case Failure(err) =>
          error := AnalyzeErrorText(err);
      }
      loading := false;
    }
  }
}
