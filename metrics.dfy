// The metrics collector: per-query records in a bounded history, running
// totals and per-category counters, and the summaries read from them.
// Rounding of the reported figures is not part of this model, and the
// counters are maps (their key order is not kept).
module Metrics {
  import opened Wrappers
  import opened Seqs

  datatype QueryMetrics = QueryMetrics(
    queryId: string,
    sessionId: string,
    timestamp: string,
    complexity: string,
    responseTimeMs: real,
    tokenCount: int,
    cost: real,
    modelUsed: string,
    toolsUsed: seq<string>,
    mode: string,
    success: bool,
    error: Option<string>)

  // ---------------------------------------------------------------------
  // Counters

  /** A `defaultdict(int)` read: 0 for a key never counted. */
  function Count(counts: map<string, int>, key: string): int
  {
    if key in counts then counts[key] else 0
  }

  function Bump(counts: map<string, int>, key: string): (r: map<string, int>)
    ensures Count(r, key) == Count(counts, key) + 1
    ensures forall k :: k != key ==> Count(r, k) == Count(counts, k)
    ensures r.Keys == counts.Keys + {key}
  {
    counts[key := Count(counts, key) + 1]
  }

  /** The tool counters after counting every listed tool once per occurrence. */
  function AddTools(counts: map<string, int>, tools: seq<string>): map<string, int>
  {
    if tools == [] then counts else Bump(AddTools(counts, tools[..|tools| - 1]), tools[|tools| - 1])
  }

  /** Each tool's count rises by the number of times the tool is listed. */
  lemma {:induction false} AddToolsCounts(counts: map<string, int>, tools: seq<string>, t: string)
    ensures Count(AddTools(counts, tools), t) == Count(counts, t) + multiset(tools)[t]
  {
    if tools != [] {
      var init := tools[..|tools| - 1];
      AddToolsCounts(counts, init, t);
      assert tools == init + [tools[|tools| - 1]];
    }
  }

  // ---------------------------------------------------------------------
  // History

  /** Appending to a bounded history and trimming is trimming the whole record. */
  lemma LastNSnoc<T>(xs: seq<T>, x: T, limit: nat)
    ensures LastN(LastN(xs, limit) + [x], limit) == LastN(xs + [x], limit)
  {
    var h := LastN(xs, limit);
    var all := xs + [x];
    if |all| > limit {
      assert (h + [x])[|h + [x]| - limit..] == all[|all| - limit..];
    }
  }

  function SumCost(xs: seq<QueryMetrics>): real
  {
    if xs == [] then 0.0 else SumCost(xs[..|xs| - 1]) + xs[|xs| - 1].cost
  }

  function SumTokens(xs: seq<QueryMetrics>): int
  {
    if xs == [] then 0 else SumTokens(xs[..|xs| - 1]) + xs[|xs| - 1].tokenCount
  }

  function SumTime(xs: seq<QueryMetrics>): real
  {
    if xs == [] then 0.0 else SumTime(xs[..|xs| - 1]) + xs[|xs| - 1].responseTimeMs
  }

  function Failures(xs: seq<QueryMetrics>): nat
  {
    if xs == [] then 0 else Failures(xs[..|xs| - 1]) + (if xs[|xs| - 1].success then 0 else 1)
  }

  /** The cost of each model over a run of records. */
  function CostByModel(xs: seq<QueryMetrics>): map<string, real>
  {
    if xs == [] then map[]
    else
      var m := CostByModel(xs[..|xs| - 1]);
      var last := xs[|xs| - 1];
      m[last.modelUsed := (if last.modelUsed in m then m[last.modelUsed] else 0.0) + last.cost]
  }

  /** The records of one model. */
  function OfModel(xs: seq<QueryMetrics>, model: string): (r: seq<QueryMetrics>)
    ensures forall m :: m in r ==> m in xs && m.modelUsed == model
  {
    if xs == [] then []
    else OfModel(xs[..|xs| - 1], model) + (if xs[|xs| - 1].modelUsed == model then [xs[|xs| - 1]] else [])
  }

  /** The breakdown lists exactly the models seen, each with the sum of its own records' costs. */
  lemma {:induction false} CostByModelSums(xs: seq<QueryMetrics>, model: string)
    ensures model in CostByModel(xs) <==> exists m :: m in xs && m.modelUsed == model
    ensures model in CostByModel(xs) ==> CostByModel(xs)[model] == SumCost(OfModel(xs, model))
    ensures model !in CostByModel(xs) ==> SumCost(OfModel(xs, model)) == 0.0
  {
    if xs != [] {
      var init := xs[..|xs| - 1];
      var last := xs[|xs| - 1];
      CostByModelSums(init, model);
      var o := OfModel(init, model);
      if last.modelUsed == model {
        assert OfModel(xs, model) == o + [last];
        assert (o + [last])[..|o + [last]| - 1] == o;
      } else {
        assert OfModel(xs, model) == o;
      }
      if exists m :: m in init && m.modelUsed == model {
        var m :| m in init && m.modelUsed == model;
        assert m in xs;
      }
      if last.modelUsed == model {
        assert last in xs;
      }
      forall m | m in xs && m.modelUsed == model && last.modelUsed != model
        ensures m in init
      {
        assert xs == init + [last];
      }
    }
  }

  /** While nothing has been evicted, the retained records' costs add up to the running total. */
  lemma SumCostLastN(xs: seq<QueryMetrics>, limit: nat)
    requires |xs| <= limit
    ensures SumCost(LastN(xs, limit)) == SumCost(xs)
  {
  }

  // ---------------------------------------------------------------------
  // Percentiles

  predicate SortedReals(xs: seq<real>)
  {
    forall i, j :: 0 <= i < j < |xs| ==> xs[i] <= xs[j]
  }

  function Insert(x: real, xs: seq<real>): (r: seq<real>)
    requires SortedReals(xs)
    ensures |r| == |xs| + 1 && SortedReals(r) && multiset(r) == multiset(xs) + multiset{x}
    ensures r[0] == if xs == [] || x <= xs[0] then x else xs[0]
  {
    if xs == [] || x <= xs[0] then [x] + xs
    else
      assert xs == [xs[0]] + xs[1..];
      [xs[0]] + Insert(x, xs[1..])
  }

  /** `sorted(...)`: ascending, with the same elements. */
  function Sort(xs: seq<real>): (r: seq<real>)
    ensures SortedReals(r) && multiset(r) == multiset(xs)
  {
    if xs == [] then []
    else
      assert xs == xs[..|xs| - 1] + [xs[|xs| - 1]];
      Insert(xs[|xs| - 1], Sort(xs[..|xs| - 1]))
  }

  function ResponseTimes(xs: seq<QueryMetrics>): (r: seq<real>)
    ensures |r| == |xs| && forall i :: 0 <= i < |xs| ==> r[i] == xs[i].responseTimeMs
  {
    seq(|xs|, i requires 0 <= i < |xs| => xs[i].responseTimeMs)
  }

  /** Position `min(int(n·p/100), n−1)` of the sorted times. */
  function PercentileIndex(n: nat, p: nat): (i: nat)
    requires n > 0
    ensures i < n
    ensures i <= n * p / 100
  {
    if n * p / 100 < n - 1 then n * p / 100 else n - 1
  }

  /** A higher percentile never comes from an earlier position. */
  lemma PercentileIndexMonotone(n: nat, p: nat, q: nat)
    requires n > 0 && p <= q
    ensures PercentileIndex(n, p) <= PercentileIndex(n, q)
  {
    assert n * p <= n * q by {
      assert n * q - n * p == n * (q - p);
    }
  }

  datatype Percentiles = Percentiles(p50: real, p90: real, p95: real, p99: real)

  /** `get_performance_percentiles`: all zeros for an empty history. */
  function PercentilesOf(xs: seq<QueryMetrics>): (r: Percentiles)
    ensures xs == [] ==> r == Percentiles(0.0, 0.0, 0.0, 0.0)
  {
    if xs == [] then Percentiles(0.0, 0.0, 0.0, 0.0)
    else
      var sorted := Sort(ResponseTimes(xs));
      var n := |sorted|;
      Percentiles(sorted[PercentileIndex(n, 50)], sorted[PercentileIndex(n, 90)],
                  sorted[PercentileIndex(n, 95)], sorted[PercentileIndex(n, 99)])
  }

  /** The percentiles are response times of retained records, in ascending order. */
  lemma PercentilesOrdered(xs: seq<QueryMetrics>)
    requires xs != []
    ensures var r := PercentilesOf(xs); r.p50 <= r.p90 <= r.p95 <= r.p99
    ensures PercentilesOf(xs).p99 in ResponseTimes(xs) && PercentilesOf(xs).p50 in ResponseTimes(xs)
  {
    var sorted := Sort(ResponseTimes(xs));
    var n := |sorted|;
    PercentileIndexMonotone(n, 50, 90);
    PercentileIndexMonotone(n, 90, 95);
    PercentileIndexMonotone(n, 95, 99);
    assert sorted[PercentileIndex(n, 99)] in multiset(sorted);
    assert sorted[PercentileIndex(n, 50)] in multiset(sorted);
  }

  // ---------------------------------------------------------------------
  // Summary and recent queries

  datatype Summary =
    | NoQueries
    | Summary(totalQueries: int, totalCost: real, totalTokens: int, avgResponseTimeMs: real, avgCostPerQuery: real,
              avgTokensPerQuery: real, errorRatePct: real, complexity: map<string, int>, models: map<string, int>,
              modes: map<string, int>, tools: map<string, int>)

  /** What `get_recent_queries` reports of one record. */
  datatype RecentEntry = RecentEntry(queryId: string, timestamp: string, complexity: string, responseTimeMs: real,
                                     cost: real, model: string, tools: seq<string>, mode: string, success: bool)

  function Recent(m: QueryMetrics): RecentEntry
  {
    RecentEntry(m.queryId, m.timestamp, m.complexity, m.responseTimeMs, m.cost, m.modelUsed, m.toolsUsed, m.mode, m.success)
  }

  /** Python's `xs[-count:]`: the last `count` for a positive count, all of them for 0, all but the first `-count` for a negative one. */
  function LastSlice<T>(xs: seq<T>, count: int): (r: seq<T>)
    ensures |r| <= |xs| && r == xs[|xs| - |r|..]
    ensures count > 0 ==> |r| == if count < |xs| then count else |xs|
    ensures count == 0 ==> |r| == |xs|
    ensures count < 0 ==> |r| == if -count < |xs| then |xs| + count else 0
  {
    if count > 0 then xs[|xs| - (if count < |xs| then count else |xs|)..]
    else if count == 0 then xs
    else xs[(if -count < |xs| then -count else |xs|)..]
  }

  function RecentEntries(xs: seq<QueryMetrics>, count: int): (r: seq<RecentEntry>)
    ensures var s := LastSlice(xs, count); |r| == |s| && forall i :: 0 <= i < |s| ==> r[i] == Recent(s[i])
  {
    var s := LastSlice(xs, count);
    seq(|s|, i requires 0 <= i < |s| => Recent(s[i]))
  }

  /** A positive count gives the newest `count` records, oldest first, as a suffix of the history. */
  lemma RecentIsNewest(xs: seq<QueryMetrics>, count: nat)
    requires 0 < count <= |xs|
    ensures |RecentEntries(xs, count)| == count
    ensures forall i :: 0 <= i < count ==> RecentEntries(xs, count)[i] == Recent(xs[|xs| - count + i])
  {
  }

  /** The running sums over the records after one more record. */
  lemma SumsSnoc(xs: seq<QueryMetrics>, m: QueryMetrics)
    ensures SumCost(xs + [m]) == SumCost(xs) + m.cost && SumTokens(xs + [m]) == SumTokens(xs) + m.tokenCount
    ensures SumTime(xs + [m]) == SumTime(xs) + m.responseTimeMs
    ensures Failures(xs + [m]) == Failures(xs) + (if m.success then 0 else 1)
  {
    assert (xs + [m])[..|xs|] == xs;
  }

  /** The collector's history, totals and counters, as one value. */
  datatype Totals = Totals(
    history: seq<QueryMetrics>,
    totalQueries: int,
    totalCost: real,
    totalTokens: int,
    totalResponseTimeMs: real,
    byComplexity: map<string, int>,
    byModel: map<string, int>,
    byMode: map<string, int>,
    toolUsage: map<string, int>,
    errorCount: int)

  /** The state of a new or reset collector. */
  const Initial := Totals([], 0, 0.0, 0, 0.0, map[], map[], map[], map[], 0)

  /** The state after `record_query(m)`. */
  function Recorded(t: Totals, m: QueryMetrics, maxHistory: nat): Totals
  {
    Totals(LastN(t.history + [m], maxHistory), t.totalQueries + 1, t.totalCost + m.cost,
           t.totalTokens + m.tokenCount, t.totalResponseTimeMs + m.responseTimeMs,
           Bump(t.byComplexity, m.complexity), Bump(t.byModel, m.modelUsed), Bump(t.byMode, m.mode),
           AddTools(t.toolUsage, m.toolsUsed), t.errorCount + (if m.success then 0 else 1))
  }

  /** The totals are those of every record, and the history is the newest `maxHistory` of them. */
  predicate Consistent(t: Totals, recorded: seq<QueryMetrics>, maxHistory: nat)
  {
    t.history == LastN(recorded, maxHistory)
    && t.totalQueries == |recorded| && t.totalCost == SumCost(recorded) && t.totalTokens == SumTokens(recorded)
    && t.totalResponseTimeMs == SumTime(recorded) && t.errorCount == Failures(recorded)
  }

  lemma InitialConsistent(maxHistory: nat)
    ensures Consistent(Initial, [], maxHistory)
  {
  }

  /** Recording keeps the totals those of every record and the history the newest of them. */
  lemma RecordedConsistent(t: Totals, recorded: seq<QueryMetrics>, m: QueryMetrics, maxHistory: nat)
    requires Consistent(t, recorded, maxHistory)
    ensures Consistent(Recorded(t, m, maxHistory), recorded + [m], maxHistory)
  {
    LastNSnoc(recorded, m, maxHistory);
    SumsSnoc(recorded, m);
  }

  /**
   * One query counts once in its complexity, model and mode, once per
   * listing in each tool, and as an error exactly when it failed; no other
   * key's count moves.
   */
  lemma RecordedCounts(t: Totals, m: QueryMetrics, maxHistory: nat, key: string)
    ensures var r := Recorded(t, m, maxHistory);
      r.totalQueries == t.totalQueries + 1
      && Count(r.byComplexity, key) == Count(t.byComplexity, key) + (if key == m.complexity then 1 else 0)
      && Count(r.byModel, key) == Count(t.byModel, key) + (if key == m.modelUsed then 1 else 0)
      && Count(r.byMode, key) == Count(t.byMode, key) + (if key == m.mode then 1 else 0)
      && Count(r.toolUsage, key) == Count(t.toolUsage, key) + multiset(m.toolsUsed)[key]
      && (r.errorCount == t.errorCount + 1 <==> !m.success)
  {
    AddToolsCounts(t.toolUsage, m.toolsUsed, key);
  }

  /** The history stays within `maxHistory`, ends with the new record when it can hold any, and keeps the newest of the old ones. */
  lemma RecordedHistory(t: Totals, m: QueryMetrics, maxHistory: nat)
    ensures var h := Recorded(t, m, maxHistory).history;
      |h| <= maxHistory
      && (maxHistory > 0 ==> h[|h| - 1] == m && h[..|h| - 1] == t.history[|t.history| + 1 - |h|..])
      && (|t.history| < maxHistory ==> h == t.history + [m])
  {
    LastNSnocShape(t.history, m, maxHistory);
  }

  lemma LastNSnocShape<T>(xs: seq<T>, x: T, limit: nat)
    ensures var h := LastN(xs + [x], limit);
      |h| <= limit
      && (limit > 0 ==> h[|h| - 1] == x && h[..|h| - 1] == xs[|xs| + 1 - |h|..])
      && (|xs| < limit ==> h == xs + [x])
  {
    var all := xs + [x];
    var h := LastN(all, limit);
    if limit > 0 {
      var d := |all| - |h|;
      assert h == all[d..];
      assert h[|h| - 1] == all[|all| - 1] == x;
      assert h[..|h| - 1] == all[d..|all| - 1];
      assert all[..|xs|] == xs;
      assert all[d..|all| - 1] == xs[d..];
    }
  }

  /** The `for tool in tools_used` loop of `record_query`. */
  method CountTools(counts: map<string, int>, tools: seq<string>) returns (usage: map<string, int>)
    ensures usage == AddTools(counts, tools)
  {
    usage := counts;
    var i := 0;
    while i < |tools|
      invariant 0 <= i <= |tools|
      invariant usage == AddTools(counts, tools[..i])
    {
      assert tools[..i + 1][..i] == tools[..i];
      usage := Bump(usage, tools[i]);
      i := i + 1;
    }
    assert tools[..i] == tools;
  }

  /** The aggregate and counter updates of `record_query`, the tool loop included. */
  method RecordTotals(t: Totals, m: QueryMetrics, maxHistory: nat) returns (next: Totals)
    ensures next == Recorded(t, m, maxHistory)
  {
    var usage := CountTools(t.toolUsage, m.toolsUsed);
    next := Recorded(t, m, maxHistory).(toolUsage := usage);
  }

  /** `get_summary`: only the no-queries message before the first query; averages over every query after. */
  function SummaryOf(t: Totals): (r: Summary)
    ensures t.totalQueries == 0 <==> r == NoQueries
    ensures t.totalQueries != 0 ==>
      (r.totalQueries == t.totalQueries && r.totalCost == t.totalCost && r.totalTokens == t.totalTokens
       && r.avgResponseTimeMs * t.totalQueries as real == t.totalResponseTimeMs
       && r.avgCostPerQuery * t.totalQueries as real == t.totalCost
       && r.avgTokensPerQuery * t.totalQueries as real == t.totalTokens as real
       && r.errorRatePct * t.totalQueries as real == t.errorCount as real * 100.0
       && r.complexity == t.byComplexity && r.models == t.byModel && r.modes == t.byMode && r.tools == t.toolUsage)
  {
    if t.totalQueries == 0 then NoQueries
    else
      var n := t.totalQueries as real;
      Summary(t.totalQueries, t.totalCost, t.totalTokens, t.totalResponseTimeMs / n, t.totalCost / n,
              t.totalTokens as real / n, (t.errorCount as real / n) * 100.0,
              t.byComplexity, t.byModel, t.byMode, t.toolUsage)
  }

  /** A count of 0 reports the whole history, and a negative count all but that many of the oldest. */
  lemma RecentNonPositive(xs: seq<QueryMetrics>, count: int)
    requires count <= 0
    ensures count == 0 ==> |RecentEntries(xs, count)| == |xs|
    ensures count < 0 && -count < |xs| ==> RecentEntries(xs, count)[0] == Recent(xs[-count])
    ensures -count >= |xs| ==> RecentEntries(xs, count) == []
  {
  }

  /** Once a record has been evicted, the breakdown no longer sees it, though the total still counts it. */
  lemma EvictedCostLeavesBreakdown()
    ensures var a := QueryMetrics("a", "", "", "simple", 0.0, 0, 1.0, "local", [], "concise", true, None);
      var b := QueryMetrics("b", "", "", "simple", 0.0, 0, 2.0, "local", [], "concise", true, None);
      var recorded := [a, b];
      SumCost(LastN(recorded, 1)) == 2.0 && SumCost(recorded) == 3.0
  {
    var a := QueryMetrics("a", "", "", "simple", 0.0, 0, 1.0, "local", [], "concise", true, None);
    var b := QueryMetrics("b", "", "", "simple", 0.0, 0, 2.0, "local", [], "concise", true, None);
    assert LastN([a, b], 1) == [b];
    assert [b][..0] == [];
    assert [a, b][..1] == [a];
    assert [a][..0] == [];
  }
}
