/**
 * Shapes shared by the backend agents: the dictionaries that the external
 * data sources return (a key that may be missing is an Option), the texts the
 * agents format, and the entries of the agent log.
 */
module Records {
  import opened Optional

  /** One month of price history as the history source returns it. `avgPrice` is None when
      the key is missing; `hasError` says whether the entry carries an "error" key. */
  datatype HistoryEntry = HistoryEntry(date: string, avgPrice: Option<real>, hasError: bool)

  /** The market-context dictionary. */
  datatype MarketContext = MarketContext(
    inventoryCount: Option<int>,
    inventoryTrend: Option<string>,
    priceVsMedianPct: Option<real>)

  /** The dictionary returned by the statistical forecast (run_forecast). */
  datatype ForecastRaw = ForecastRaw(
    trendPctChange: Option<real>,
    trendPct90d: Option<real>,
    trendDirection: Option<string>,
    forecastMethod: Option<string>,
    lastKnownPrice: Option<real>,
    forecast30d: Option<real>,
    forecast90d: Option<real>)

  /** The dictionary returned by the language-model price analysis (run_llm_price_analysis). */
  datatype LlmAnalysis = LlmAnalysis(
    forecast30d: Option<real>,
    forecast90d: Option<real>,
    trendDirection: Option<string>,
    bestTimeToBuy: Option<string>,
    keyInsight: Option<string>)

  /** One SHAP feature contribution of the price model. */
  datatype ShapFactor = ShapFactor(feature: string, impact: real, direction: string)

  /** The dictionary returned by the price model (run_price_prediction). */
  datatype XgbResult = XgbResult(predictedPrice: Option<real>, shapFactors: Option<seq<ShapFactor>>)

  /**
   * A formatted text: literal pieces and typed slots for the values an f-string
   * interpolates. `Fixed1` is `{x:.1f}`, `Signed1` is `{x:+.1f}`, `Money` is
   * `{x:,.0f}`, `Int` is `{n}` and `Title` is `{s.title()}`; how the slots are
   * rendered into characters is not part of the model.
   */
  datatype Fragment = Lit(s: string) | Fixed1(x: real) | Signed1(x: real) | Money(x: real)
                    | Int(n: int) | Title(t: string)

  type Text = seq<Fragment>

  /** `" ".join(texts)`. */
  function JoinSpaces(texts: seq<Text>): (r: Text)
    ensures texts == [] ==> r == []
    ensures |texts| == 1 ==> r == texts[0]
  {
    if texts == [] then []
    else if |texts| == 1 then texts[0]
    else texts[0] + [Lit(" ")] + JoinSpaces(texts[1..])
  }

  lemma JoinThree(a: Text, b: Text, c: Text)
    ensures JoinSpaces([a, b, c]) == a + [Lit(" ")] + b + [Lit(" ")] + c
  {
    assert [a, b, c][1..] == [b, c];
    assert [b, c][1..] == [c];
  }

  /** The typed "output" dictionary of each agent's log entry. */
  datatype LogOutput =
    | StartOutput(make: string, model: string, year: int, mileage: int)
    | OverrideOutput(overrideKey: string)
    | DataOutput(nMonths: nat, inventoryCount: int, inventoryTrend: string, priceVsMedian: real)
    | TrendOutput(direction: string, strength: string, momentumScore: real, forecastMethod: string,
                  trendPct30d: real, trendPct90d: real)
    | ForecastOutput(predictedPrice: real, forecast30d: real, forecast90d: real,
                     forecastMethod: string, confidenceBase: int, llmBestTime: string)
    | RiskOutput(volatilityIndex: string, riskScore: int, change: real,
                 uncertaintyLow: real, uncertaintyHigh: real)
    | DecisionOutput(finalRecommendation: string, change: real, confidenceScore: int,
                     volatilityIndex: string)
    | ExplanationOutput(reasoningSummary: seq<Text>)
    | EthicsOutput(fields: map<string, string>)
    | CompleteOutput(finalRecommendation: string, confidenceScore: int)

  /** An agent_log entry: the agent's name, its status and its output. */
  datatype LogEntry = LogEntry(agent: string, status: string, output: LogOutput)

  /** The agent names of a log, in order. */
  function AgentNames(log: seq<LogEntry>): (names: seq<string>)
    ensures |names| == |log|
    ensures forall i :: 0 <= i < |log| ==> names[i] == log[i].agent
  {
    if log == [] then [] else [log[0].agent] + AgentNames(log[1..])
  }

  /** The names of a log of eight entries, one by one. */
  lemma AgentNamesOfEight(e0: LogEntry, e1: LogEntry, e2: LogEntry, e3: LogEntry, e4: LogEntry,
                          e5: LogEntry, e6: LogEntry, e7: LogEntry)
    ensures AgentNames([e0, e1, e2, e3, e4, e5, e6, e7])
            == [e0.agent, e1.agent, e2.agent, e3.agent, e4.agent, e5.agent, e6.agent, e7.agent]
  {
  }

  /** The names of a joined log are the names of its parts, joined. */
  lemma {:induction false} AgentNamesAppend(a: seq<LogEntry>, b: seq<LogEntry>)
    ensures AgentNames(a + b) == AgentNames(a) + AgentNames(b)
  {
    if a != [] {
      assert (a + b)[1..] == a[1..] + b;
      AgentNamesAppend(a[1..], b);
    }
  }
}
