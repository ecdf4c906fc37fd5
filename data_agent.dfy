/**
 * DataAgent, after its two database reads: whether usable price history
 * exists, how many months it covers, and the log entry with the market-context
 * defaults.
 */
module DataAgent {
  import opened Optional
  import opened Records

  /** Usable history: non-empty, and its first entry carries no "error" key. */
  predicate HasHistory(history: seq<HistoryEntry>) {
    history != [] && !history[0].hasError
  }

  datatype DataResult = DataResult(
    priceHistory: seq<HistoryEntry>,
    marketContext: MarketContext,
    hasHistory: bool,
    nMonths: nat,
    logEntry: LogEntry)

  /** data_agent.run, given what the two reads returned. */
  function Run(history: seq<HistoryEntry>, context: MarketContext): (r: DataResult)
    ensures r.priceHistory == history && r.marketContext == context
    ensures r.hasHistory <==> history != [] && !history[0].hasError
    ensures r.nMonths == (if r.hasHistory then |history| else 0)
    ensures r.logEntry.agent == "DataAgent"
    ensures r.logEntry.status == (if r.hasHistory then "ok" else "fallback")
    ensures r.logEntry.output == DataOutput(r.nMonths, context.inventoryCount.GetOr(0),
                                            context.inventoryTrend.GetOr("unknown"),
                                            context.priceVsMedianPct.GetOr(0.0))
  {
    var has := HasHistory(history);
    var months := if has then |history| else 0;
    DataResult(history, context, has, months,
               LogEntry("DataAgent", if has then "ok" else "fallback",
                        DataOutput(months, context.inventoryCount.GetOr(0),
                                   context.inventoryTrend.GetOr("unknown"),
                                   context.priceVsMedianPct.GetOr(0.0))))
  }

  /** A fallback run reports no months, and a run with history reports at least one. */
  lemma MonthsMatchStatus(history: seq<HistoryEntry>, context: MarketContext)
    ensures var r := Run(history, context);
            (r.logEntry.status == "fallback" <==> r.nMonths == 0)
            && (r.logEntry.status == "ok" <==> r.nMonths >= 1)
  {
  }
}
