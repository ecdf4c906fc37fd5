/**
 * ExplanationAgent: a three-sentence reasoning summary, taken from the
 * language model's reply when that has the expected shape, and otherwise built
 * from a fixed template whose third sentence is the decision rationale.
 */
module ExplanationAgent {
  import opened Records
  import opened Numeric

  /** What came of the model call: a failure (the call or the JSON parsing raised), or a
      parsed object whose "reasoning" key is missing, is not a list, or is a list (each item
      already passed through str()). */
  datatype Reply = Failed | Parsed(reasoning: Reasoning)
  datatype Reasoning = Missing | NotAList | Items(items: seq<string>)

  /** The reply is used exactly when it holds a list of at least three items. */
  predicate Usable(reply: Reply) {
    reply.Parsed? && reply.reasoning.Items? && |reply.reasoning.items| >= 3
  }

  /** The direction word of the template: "rise" for a positive change, else "fall". */
  function DirectionWord(change: real): (w: string)
    ensures w == "rise" <==> change > 0.0
    ensures w == "fall" <==> change <= 0.0
  {
    if change > 0.0 then "rise" else "fall"
  }

  /** The deterministic three sentences. */
  function Fallback(year: int, make: string, model: string, predictedPrice: real, change: real,
                    confidence: int, rationale: Text): (s: seq<Text>)
    ensures |s| == 3 && s[2] == rationale
    ensures |s[1]| > 1 && s[1][1] == Lit(DirectionWord(change))
  {
    [ [Lit("Fair market value for this "), Int(year), Lit(" "), Title(make), Lit(" "), Title(model),
       Lit(" is $"), Money(predictedPrice), Lit(".")],
      [Lit("Prices are forecast to "), Lit(DirectionWord(change)), Lit(" "), Fixed1(Abs(change)),
       Lit("% over 90 days with "), Int(confidence), Lit("% confidence.")],
      rationale ]
  }

  /** reasoning_summary */
  function Summary(reply: Reply, year: int, make: string, model: string, predictedPrice: real,
                   change: real, confidence: int, rationale: Text): (s: seq<Text>)
    ensures |s| == 3
    ensures Usable(reply) ==>
              forall i :: 0 <= i < 3 ==> s[i] == [Lit(reply.reasoning.items[i])]
    ensures !Usable(reply) ==>
              s == Fallback(year, make, model, predictedPrice, change, confidence, rationale)
  {
    if Usable(reply) then
      var items := reply.reasoning.items;
      [[Lit(items[0])], [Lit(items[1])], [Lit(items[2])]]
    else
      Fallback(year, make, model, predictedPrice, change, confidence, rationale)
  }

  datatype ExplanationResult = ExplanationResult(
    reasoningSummary: seq<Text>,
    explanationText: Text,
    logEntry: LogEntry)

  /** explanation_agent.run, given the outcome of the model call. */
  function Run(reply: Reply, year: int, make: string, model: string, predictedPrice: real,
               change: real, confidence: int, rationale: Text): (r: ExplanationResult)
    ensures |r.reasoningSummary| == 3
    ensures r.reasoningSummary == Summary(reply, year, make, model, predictedPrice, change,
                                          confidence, rationale)
    ensures r.explanationText == r.reasoningSummary[0] + [Lit(" ")] + r.reasoningSummary[1]
                                 + [Lit(" ")] + r.reasoningSummary[2]
    ensures !Usable(reply) ==> r.reasoningSummary[2] == rationale
    ensures r.logEntry == LogEntry("ExplanationAgent", "ok", ExplanationOutput(r.reasoningSummary))
  {
    var summary := Summary(reply, year, make, model, predictedPrice, change, confidence, rationale);
    JoinThree(summary[0], summary[1], summary[2]);
    assert summary == [summary[0], summary[1], summary[2]];
    ExplanationResult(summary, JoinSpaces(summary),
                      LogEntry("ExplanationAgent", "ok", ExplanationOutput(summary)))
  }

  /** A zero change is reported as a fall. */
  lemma ZeroChangeIsFall(year: int, make: string, model: string, predictedPrice: real,
                         confidence: int, rationale: Text)
    ensures Fallback(year, make, model, predictedPrice, 0.0, confidence, rationale)[1][1] == Lit("fall")
  {
  }
}
