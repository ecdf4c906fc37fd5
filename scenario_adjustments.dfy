/**
 * What-if scenarios: each named scenario shifts the 90-day change by a fixed
 * number of points and the confidence by a fixed delta, clamped to [10, 99].
 */
module ScenarioAdjustments {
  import opened Optional
  import opened Numeric

  datatype Scenario = Scenario(changeDelta: real, confidenceDelta: int, name: string, description: string)

  /** The scenario table. */
  const Scenarios: map<string, Scenario> := map[
    "interest_rate_hike" := Scenario(-2.5, -3, "Interest Rate Hike",
                                     "Fed raises rates by 0.5%: reduces buyer purchasing power."),
    "fuel_spike" := Scenario(-1.8, -2, "Fuel Price Spike",
                             "Gas prices surge 30%: mild shift away from ICE vehicles."),
    "ev_subsidy" := Scenario(1.5, 2, "EV Federal Subsidy",
                             "New $4,000 used-EV tax credit: boosts EV resale demand."),
    "supply_chain" := Scenario(3.2, -4, "Supply Chain Crunch",
                               "Chip shortage cuts new car production: used prices spike.")
  ]

  /** Every scenario moves the confidence by at most 4 points. */
  lemma ScenarioDeltasSmall()
    ensures forall k :: k in Scenarios ==> -4 <= Scenarios[k].confidenceDelta <= 4
    ensures |Scenarios| == 4
  {
    assert Scenarios.Keys == {"interest_rate_hike", "fuel_spike", "ev_subsidy", "supply_chain"};
  }

  /** int(max(10, min(99, base + delta))) */
  function ClampConfidence(conf: int): (c: int)
    ensures 10 <= c <= 99
    ensures 10 <= conf <= 99 ==> c == conf
  {
    Max(10, Min(99, conf))
  }

  datatype Adjusted = Adjusted(changePct: real, confidenceScore: int, name: Option<string>,
                               description: Option<string>)

  /** apply_scenario */
  function ApplyScenario(baseChange: real, baseConfidence: int, key: string): (r: Adjusted)
    ensures key !in Scenarios ==> r == Adjusted(baseChange, baseConfidence, None, None)
    ensures key in Scenarios ==>
              r.changePct == Round(baseChange + Scenarios[key].changeDelta, 2)
              && 10 <= r.confidenceScore <= 99
              && r.confidenceScore == ClampConfidence(baseConfidence + Scenarios[key].confidenceDelta)
              && r.name == Some(Scenarios[key].name)
              && r.description == Some(Scenarios[key].description)
  {
    if key !in Scenarios then Adjusted(baseChange, baseConfidence, None, None)
    else
      var s := Scenarios[key];
      Adjusted(Round(baseChange + s.changeDelta, 2), ClampConfidence(baseConfidence + s.confidenceDelta),
               Some(s.name), Some(s.description))
  }

  /** A higher base confidence never gives a lower adjusted confidence, and a higher base
      change never a lower adjusted change. */
  lemma ApplyScenarioMonotone(c1: real, c2: real, conf1: int, conf2: int, key: string)
    requires c1 <= c2 && conf1 <= conf2
    ensures ApplyScenario(c1, conf1, key).confidenceScore <= ApplyScenario(c2, conf2, key).confidenceScore
    ensures ApplyScenario(c1, conf1, key).changePct <= ApplyScenario(c2, conf2, key).changePct
  {
    if key in Scenarios {
      RoundMonotone(c1 + Scenarios[key].changeDelta, c2 + Scenarios[key].changeDelta, 2);
    }
  }

  /** For a base confidence the pipeline can produce (in [10, 99]), a known scenario moves it
      by at most the scenario's delta, and so by at most 4 points. */
  lemma ConfidenceMovesAtMostDelta(baseChange: real, baseConfidence: int, key: string)
    requires key in Scenarios && 10 <= baseConfidence <= 99
    ensures var d := ApplyScenario(baseChange, baseConfidence, key).confidenceScore - baseConfidence;
            Abs(d as real) <= Abs(Scenarios[key].confidenceDelta as real) && -4 <= d <= 4
  {
    ScenarioDeltasSmall();
  }
}
