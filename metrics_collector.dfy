// The metrics collector object. Its aggregate attributes (the bounded
// history, the running totals and the per-category counters) are held as
// one `Totals` value that each operation replaces as a whole.
module MetricsCollector {
  import opened Metrics

  class Collector {
    var maxHistory: nat
    var totals: Totals
    /** Every record since the last reset, of which the history keeps the newest. */
    ghost var recorded: seq<QueryMetrics>

    ghost predicate Valid()
      reads this
    {
      Consistent(totals, recorded, maxHistory)
    }

    constructor (maxHistory: nat)
      ensures Valid() && this.maxHistory == maxHistory && totals == Initial && recorded == []
    {
      this.maxHistory := maxHistory;
      totals := Initial;
      recorded := [];
    }

    /** `record_query`: the totals move to `Recorded`, and the record joins those kept track of. */
    method RecordQuery(m: QueryMetrics)
      modifies this
      requires Valid()
      ensures totals == Recorded(old(totals), m, maxHistory)
      ensures Valid() && recorded == old(recorded) + [m] && maxHistory == old(maxHistory)
    {
      var next := RecordTotals(totals, m, maxHistory);
      ghost var all := recorded + [m];
      RecordedConsistent(totals, recorded, m, maxHistory);
      assert Consistent(next, all, maxHistory);
      totals := next;
      recorded := all;
    }

    function GetSummary(): (r: Summary)
      reads this
      ensures r == SummaryOf(totals)
    {
      SummaryOf(totals)
    }

    function GetRecentQueries(count: int): (r: seq<RecentEntry>)
      reads this
      ensures r == RecentEntries(totals.history, count)
    {
      RecentEntries(totals.history, count)
    }

    function GetPerformancePercentiles(): (r: Percentiles)
      reads this
      ensures r == PercentilesOf(totals.history)
    {
      PercentilesOf(totals.history)
    }

    /** `get_cost_breakdown`: the running total, and each retained model's cost summed in one pass over the history. */
    method GetCostBreakdown() returns (total: real, byModelCost: map<string, real>)
      ensures total == totals.totalCost && byModelCost == CostByModel(totals.history)
    {
      var history := totals.history;
      var costs: map<string, real> := map[];
      var i := 0;
      while i < |history|
        invariant 0 <= i <= |history|
        invariant costs == CostByModel(history[..i])
      {
        assert history[..i + 1][..i] == history[..i];
        var m := history[i];
        costs := costs[m.modelUsed := (if m.modelUsed in costs then costs[m.modelUsed] else 0.0) + m.cost];
        i := i + 1;
      }
      assert history[..i] == history;
      total := totals.totalCost;
      byModelCost := costs;
    }

    /** `reset`: every total and counter back to its initial value and the history emptied. */
    method Reset()
      modifies this
      ensures totals == Initial && Valid() && recorded == [] && maxHistory == old(maxHistory)
    {
      totals := Initial;
      recorded := [];
    }
  }
}
