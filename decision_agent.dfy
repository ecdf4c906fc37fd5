/**
 * DecisionAgent: three rules, tried in priority order, turn the projected
 * 90-day change, the confidence score, the volatility class and the gap to the
 * market median into WAIT, BUY NOW or MONITOR.
 */
module DecisionAgent {
  import opened Records
  import opened Numeric

  /** Rule 1: a fall of at least 3% predicted with confidence of at least 75. */
  predicate WaitRule(change: real, conf: int) {
    change <= -3.0 && conf >= 75
  }

  /** Rule 2: a rise of at least 2% in a low-volatility market. */
  predicate RisingRule(change: real, vol: string) {
    change >= 2.0 && vol == "Low"
  }

  /** Rule 3: at least 10% under the market median, with confidence of at least 75. */
  predicate DealRule(pctMed: real, conf: int) {
    pctMed <= -10.0 && conf >= 75
  }

  datatype Decision = Decision(finalRecommendation: string, rationale: Text, logEntry: LogEntry)

  /** The recommendation of the first rule that applies, MONITOR when none does. */
  function Recommend(change: real, conf: int, vol: string, pctMed: real): (rec: string)
    ensures rec in {"WAIT", "BUY NOW", "MONITOR"}
    ensures rec == "WAIT" <==> WaitRule(change, conf)
    ensures rec == "BUY NOW" <==> !WaitRule(change, conf) && (RisingRule(change, vol) || DealRule(pctMed, conf))
    ensures rec == "MONITOR" <==> !WaitRule(change, conf) && !RisingRule(change, vol) && !DealRule(pctMed, conf)
  {
    if WaitRule(change, conf) then "WAIT"
    else if RisingRule(change, vol) || DealRule(pctMed, conf) then "BUY NOW"
    else "MONITOR"
  }

  /** The sentence explaining the rule that applied. */
  function Rationale(change: real, conf: int, vol: string, pctMed: real): (t: Text)
    ensures t != []
  {
    if WaitRule(change, conf) then
      [Lit("Prices projected to fall "), Fixed1(Abs(change)), Lit("% over 90 days (confidence "), Int(conf),
       Lit("%). Waiting likely saves money.")]
    else if RisingRule(change, vol) then
      [Lit("Prices rising "), Fixed1(change),
       Lit("% with low volatility — a stable upward trend signals a good time to buy.")]
    else if DealRule(pctMed, conf) then
      [Lit("Listing is "), Fixed1(Abs(pctMed)), Lit("% below market median — a compelling value deal with "),
       Int(conf), Lit("% confidence.")]
    else
      [Lit("No strong buy or sell signal: "), Signed1(change), Lit("% projected change, "), Lit(vol),
       Lit(" volatility. Continue monitoring for a better entry point.")]
  }

  /** decision_agent.run */
  function Run(change: real, conf: int, vol: string, pctMed: real): (d: Decision)
    ensures d.finalRecommendation in {"WAIT", "BUY NOW", "MONITOR"}
    ensures d.finalRecommendation == "WAIT" <==> WaitRule(change, conf)
    ensures d.finalRecommendation == "BUY NOW" <==>
              !WaitRule(change, conf) && (RisingRule(change, vol) || DealRule(pctMed, conf))
    ensures d.finalRecommendation == "MONITOR" <==>
              !WaitRule(change, conf) && !RisingRule(change, vol) && !DealRule(pctMed, conf)
    ensures d.logEntry == LogEntry("DecisionAgent", "ok",
                                   DecisionOutput(d.finalRecommendation, change, conf, vol))
    ensures d.rationale != []
  {
    var rec := Recommend(change, conf, vol, pctMed);
    Decision(rec, Rationale(change, conf, vol, pctMed),
             LogEntry("DecisionAgent", "ok", DecisionOutput(rec, change, conf, vol)))
  }

  /** A confident fall means WAIT whatever the volatility and the median gap. */
  lemma WaitDominates(change: real, conf: int, vol1: string, pctMed1: real, vol2: string, pctMed2: real)
    requires WaitRule(change, conf)
    ensures Run(change, conf, vol1, pctMed1).finalRecommendation
         == Run(change, conf, vol2, pctMed2).finalRecommendation == "WAIT"
  {
  }

  // ---------------------------------------------------------------------------
  // The rules table as the product's documentation page states it: each row is a
  // conjunction of threshold conditions and a result; the first row whose
  // conditions all hold decides. The last row has no condition.
  // ---------------------------------------------------------------------------

  datatype Condition =
    | ChangeAtMost(limit: real)
    | ChangeAtLeast(limit: real)
    | ConfidenceAtLeast(min: int)
    | VolatilityIs(vol: string)
    | MedianGapAtMost(limit: real)

  datatype TableRule = TableRule(conditions: seq<Condition>, result: string)

  datatype Inputs = Inputs(change: real, conf: int, vol: string, pctMed: real)

  const RulesTable: seq<TableRule> := [
    TableRule([ChangeAtMost(-3.0), ConfidenceAtLeast(75)], "WAIT"),
    TableRule([ChangeAtLeast(2.0), VolatilityIs("Low")], "BUY NOW"),
    TableRule([MedianGapAtMost(-10.0), ConfidenceAtLeast(75)], "BUY NOW"),
    TableRule([], "MONITOR")
  ]

  predicate Holds(c: Condition, x: Inputs) {
    match c
    case ChangeAtMost(limit) => x.change <= limit
    case ChangeAtLeast(limit) => x.change >= limit
    case ConfidenceAtLeast(min) => x.conf >= min
    case VolatilityIs(vol) => x.vol == vol
    case MedianGapAtMost(limit) => x.pctMed <= limit
  }

  predicate AllHold(cs: seq<Condition>, x: Inputs) {
    forall i :: 0 <= i < |cs| ==> Holds(cs[i], x)
  }

  lemma AllHoldPair(a: Condition, b: Condition, x: Inputs)
    ensures AllHold([a, b], x) <==> Holds(a, x) && Holds(b, x)
  {
    assert [a, b][0] == a && [a, b][1] == b;
  }

  /** The result of the first row whose conditions all hold; None when no row applies. */
  function FirstMatch(rules: seq<TableRule>, x: Inputs): (r: Optional.Option<string>)
    ensures r.Some? <==> exists i :: 0 <= i < |rules| && AllHold(rules[i].conditions, x)
    ensures r.Some? ==> exists i :: 0 <= i < |rules| && AllHold(rules[i].conditions, x)
                                    && r.value == rules[i].result
                                    && forall j :: 0 <= j < i ==> !AllHold(rules[j].conditions, x)
  {
    if rules == [] then Optional.None
    else if AllHold(rules[0].conditions, x) then Optional.Some(rules[0].result)
    else
      var r := FirstMatch(rules[1..], x);
      assert forall i :: 1 <= i < |rules| ==> rules[i] == rules[1..][i - 1];
      r
  }

  /** The agent decides exactly as the published rules table does. */
  lemma {:induction false} RunFollowsRulesTable(change: real, conf: int, vol: string, pctMed: real)
    ensures FirstMatch(RulesTable, Inputs(change, conf, vol, pctMed))
         == Optional.Some(Run(change, conf, vol, pctMed).finalRecommendation)
  {
    var x := Inputs(change, conf, vol, pctMed);
    assert AllHold(RulesTable[0].conditions, x) <==> WaitRule(change, conf) by {
      AllHoldPair(ChangeAtMost(-3.0), ConfidenceAtLeast(75), x);
    }
    assert AllHold(RulesTable[1].conditions, x) <==> RisingRule(change, vol) by {
      AllHoldPair(ChangeAtLeast(2.0), VolatilityIs("Low"), x);
    }
    assert AllHold(RulesTable[2].conditions, x) <==> DealRule(pctMed, conf) by {
      AllHoldPair(MedianGapAtMost(-10.0), ConfidenceAtLeast(75), x);
    }
    var rest1, rest2, rest3 := RulesTable[1..], RulesTable[2..], RulesTable[3..];
    assert rest1[1..] == rest2 && rest2[1..] == rest3;
    assert AllHold(rest3[0].conditions, x);
    if !WaitRule(change, conf) {
      assert FirstMatch(RulesTable, x) == FirstMatch(rest1, x);
      if !RisingRule(change, vol) {
        assert FirstMatch(rest1, x) == FirstMatch(rest2, x);
        if !DealRule(pctMed, conf) {
          assert FirstMatch(rest2, x) == FirstMatch(rest3, x);
        }
      }
    }
  }
}
