// The spend tracker: every query's cost is recorded, per session and in
// total, and compared with a hard limit and a soft threshold (a fraction of
// the limit). A session of None or "" selects the total, as Python's
// `if session_id:` does. The record's timestamp (`datetime.utcnow()`) is the
// parameter `now`.
module CostTracker {
  import opened Wrappers
  import opened Seqs

  datatype CostRecord = CostRecord(
    queryId: string,
    sessionId: string,
    modelId: string,
    inputTokens: int,
    outputTokens: int,
    cost: real,
    timestamp: int)

  /** `calculate_cost`: tokens per thousand times the rate, input plus output. */
  function CalculateCost(inputTokens: int, outputTokens: int, ratePer1kIn: real, ratePer1kOut: real): (r: real)
    ensures inputTokens >= 0 && outputTokens >= 0 && ratePer1kIn >= 0.0 && ratePer1kOut >= 0.0 ==> r >= 0.0
  {
    var inputCost := (inputTokens as real / 1000.0) * ratePer1kIn;
    var outputCost := (outputTokens as real / 1000.0) * ratePer1kOut;
    assert inputTokens >= 0 && ratePer1kIn >= 0.0 ==> inputCost >= 0.0;
    assert outputTokens >= 0 && ratePer1kOut >= 0.0 ==> outputCost >= 0.0;
    inputCost + outputCost
  }

  /** The cost is additive in the token counts: two queries cost what their combined tokens cost. */
  lemma CalculateCostLinear(in1: int, out1: int, in2: int, out2: int, ratePer1kIn: real, ratePer1kOut: real)
    ensures CalculateCost(in1 + in2, out1 + out2, ratePer1kIn, ratePer1kOut)
      == CalculateCost(in1, out1, ratePer1kIn, ratePer1kOut) + CalculateCost(in2, out2, ratePer1kIn, ratePer1kOut)
  {
    assert (in1 + in2) as real / 1000.0 == in1 as real / 1000.0 + in2 as real / 1000.0;
    assert (out1 + out2) as real / 1000.0 == out1 as real / 1000.0 + out2 as real / 1000.0;
  }

  /** The cost of all the records. */
  function SumCosts(rs: seq<CostRecord>): real
  {
    if rs == [] then 0.0 else SumCosts(rs[..|rs| - 1]) + rs[|rs| - 1].cost
  }

  /** The cost of the records of one session. */
  function SessionSum(rs: seq<CostRecord>, s: string): real
  {
    if rs == [] then 0.0
    else SessionSum(rs[..|rs| - 1], s) + (if rs[|rs| - 1].sessionId == s then rs[|rs| - 1].cost else 0.0)
  }

  /** `[r for r in records if r.session_id == s]`. */
  function SessionRecords(rs: seq<CostRecord>, s: string): (r: seq<CostRecord>)
    ensures |r| <= |rs|
    ensures forall x :: x in r <==> x in rs && x.sessionId == s
  {
    if rs == [] then []
    else SessionRecords(rs[..|rs| - 1], s) + (if rs[|rs| - 1].sessionId == s then [rs[|rs| - 1]] else [])
  }

  function SessionsOf(rs: seq<CostRecord>): set<string>
  {
    set r | r in rs :: r.sessionId
  }

  /** The sum of `m[k]` over the listed keys. */
  function SumValues(m: map<string, real>, keys: seq<string>): real
    requires forall k :: k in keys ==> k in m
  {
    if keys == [] then 0.0 else m[keys[0]] + SumValues(m, keys[1..])
  }

  /** Summing over a list of keys in which `x` occurs once: `c` for `x`, 0 elsewhere, totals `c`. */
  lemma {:induction false} SumIndicator(rs: seq<CostRecord>, r: CostRecord, keys: seq<string>)
    requires Distinct(keys)
    ensures forall k :: k in keys ==> SessionSum(rs + [r], k) == SessionSum(rs, k) + (if r.sessionId == k then r.cost else 0.0)
    ensures SumSessions(rs + [r], keys) == SumSessions(rs, keys) + (if r.sessionId in keys then r.cost else 0.0)
  {
    var all := rs + [r];
    assert all[..|all| - 1] == rs;
    if keys != [] {
      SumIndicator(rs, r, keys[1..]);
      assert forall k :: k in keys[1..] ==> k in keys;
      assert keys[0] !in keys[1..];
      assert r.sessionId in keys <==> r.sessionId == keys[0] || r.sessionId in keys[1..];
    }
  }

  /** The sum of the session totals over the listed sessions. */
  function SumSessions(rs: seq<CostRecord>, keys: seq<string>): real
  {
    if keys == [] then 0.0 else SessionSum(rs, keys[0]) + SumSessions(rs, keys[1..])
  }

  /**
   * The total of all records is the sum of the session totals, over any
   * repetition-free list of session ids that includes every recorded one.
   */
  lemma {:induction false} TotalIsSumOfSessions(rs: seq<CostRecord>, keys: seq<string>)
    requires Distinct(keys)
    requires forall r :: r in rs ==> r.sessionId in keys
    ensures SumCosts(rs) == SumSessions(rs, keys)
  {
    if rs == [] {
      ZeroSessions(keys);
    } else {
      var init := rs[..|rs| - 1];
      var last := rs[|rs| - 1];
      assert rs == init + [last];
      TotalIsSumOfSessions(init, keys);
      SumIndicator(init, last, keys);
    }
  }

  lemma {:induction false} ZeroSessions(keys: seq<string>)
    ensures SumSessions([], keys) == 0.0
  {
    if keys != [] {
      ZeroSessions(keys[1..]);
    }
  }

  /** Running totals that agree with the records: the total, and one entry per recorded session. */
  ghost predicate Consistent(total: real, costs: map<string, real>, rs: seq<CostRecord>)
  {
    total == SumCosts(rs)
    && costs.Keys == SessionsOf(rs)
    && forall s :: s in costs ==> costs[s] == SessionSum(rs, s)
  }

  /** Recording one more query keeps the totals consistent. */
  lemma TrackPreserves(total: real, costs: map<string, real>, rs: seq<CostRecord>, r: CostRecord)
    requires Consistent(total, costs, rs)
    ensures var previous := if r.sessionId in costs then costs[r.sessionId] else 0.0;
      Consistent(total + r.cost, costs[r.sessionId := previous + r.cost], rs + [r])
  {
    RecordSnoc(rs, r);
    if r.sessionId !in costs {
      NoRecordsNoCost(rs, r.sessionId);
    }
  }

  /** Whether a session argument selects one session or the total. */
  predicate Selects(session: Option<string>)
  {
    session.Some? && session.value != ""
  }

  datatype CostSummary = CostSummary(
    totalCost: real,
    queryCount: nat,
    limit: real,
    remaining: real,
    softCapReached: bool,
    hardCapReached: bool,
    manualOverrideEnabled: bool)

  class Tracker {
    var totalLimit: real
    var softCapThreshold: real
    var manualOverride: bool
    var sessionCosts: map<string, real>
    var queryRecords: seq<CostRecord>
    var totalCost: real

    /** The running totals agree with the records. */
    ghost predicate Valid()
      reads this
    {
      Consistent(totalCost, sessionCosts, queryRecords)
    }

    /** `CostTracker(cost_limit, soft_cap_threshold)`: nothing spent yet, override off. */
    constructor (costLimit: real, threshold: real)
      ensures Valid()
      ensures totalLimit == costLimit && softCapThreshold == threshold && !manualOverride
      ensures sessionCosts == map[] && queryRecords == [] && totalCost == 0.0
      ensures costLimit > 0.0 && threshold > 0.0 ==> !IsSoftCapReached(None) && !IsHardCapReached(None)
    {
      totalLimit := costLimit;
      softCapThreshold := threshold;
      manualOverride := false;
      sessionCosts := map[];
      queryRecords := [];
      totalCost := 0.0;
    }

    /** `get_session_cost`: 0 for a session with no records. */
    function SessionCost(s: string): real
      reads this
    {
      if s in sessionCosts then sessionCosts[s] else 0.0
    }

    /** A session's cost is the sum of its records, whether or not it has any. */
    lemma SessionCostIsSum(s: string)
      requires Valid()
      ensures SessionCost(s) == SessionSum(queryRecords, s)
    {
      if s !in sessionCosts {
        NoRecordsNoCost(queryRecords, s);
      }
    }

    /** The cost the cap checks compare: the session's when one is selected, otherwise the total. */
    function CostOf(session: Option<string>): real
      reads this
    {
      if Selects(session) then SessionCost(session.value) else totalCost
    }

    /** `track_query`: one more record, its cost added to the total and to its session. */
    method TrackQuery(queryId: string, sessionId: string, modelId: string, inputTokens: int, outputTokens: int,
                      cost: real, now: int)
      requires Valid()
      modifies this
      ensures Valid()
      ensures queryRecords == old(queryRecords) + [CostRecord(queryId, sessionId, modelId, inputTokens, outputTokens, cost, now)]
      ensures totalCost == old(totalCost) + cost
      ensures sessionCosts == old(sessionCosts)[sessionId := old(SessionCost(sessionId)) + cost]
      ensures forall s :: s != sessionId ==> SessionCost(s) == old(SessionCost(s))
      ensures totalLimit == old(totalLimit) && softCapThreshold == old(softCapThreshold)
      ensures manualOverride == old(manualOverride)
    {
      var record := CostRecord(queryId, sessionId, modelId, inputTokens, outputTokens, cost, now);
      var previous := SessionCost(sessionId);
      TrackPreserves(totalCost, sessionCosts, queryRecords, record);
      queryRecords, totalCost, sessionCosts := queryRecords + [record], totalCost + cost, sessionCosts[sessionId := previous + cost];
    }

    /** `is_soft_cap_reached`. */
    predicate IsSoftCapReached(session: Option<string>)
      reads this
    {
      CostOf(session) >= totalLimit * softCapThreshold
    }

    /** `is_hard_cap_reached`. */
    predicate IsHardCapReached(session: Option<string>)
      reads this
    {
      CostOf(session) >= totalLimit
    }

    /** With a threshold of at most 1 and a nonnegative limit, the hard cap implies the soft cap. */
    lemma HardCapImpliesSoftCap(session: Option<string>)
      requires 0.0 <= softCapThreshold <= 1.0 && totalLimit >= 0.0
      ensures IsHardCapReached(session) ==> IsSoftCapReached(session)
    {
      assert totalLimit * softCapThreshold <= totalLimit;
    }

    /**
     * `can_proceed`: a projected cost at the limit is refused unless the
     * query is critical and the override is on; at the soft threshold it
     * proceeds with a warning; otherwise it proceeds.
     */
    function CanProceed(sessionId: string, estimatedCost: real, isCritical: bool): (r: (bool, string))
      reads this
      ensures var projected := SessionCost(sessionId) + estimatedCost;
        (!r.0 <==> projected >= totalLimit && !(isCritical && manualOverride))
        && (r.1 == "hard_cap_exceeded" <==> !r.0)
        && (r.1 == "manual_override" <==> projected >= totalLimit && isCritical && manualOverride)
        && (r.1 == "soft_cap_warning" <==> totalLimit * softCapThreshold <= projected < totalLimit)
        && (r.1 == "ok" <==> projected < totalLimit && projected < totalLimit * softCapThreshold)
    {
      var projected := SessionCost(sessionId) + estimatedCost;
      if projected >= totalLimit then
        if isCritical && manualOverride then (true, "manual_override") else (false, "hard_cap_exceeded")
      else if projected >= totalLimit * softCapThreshold then (true, "soft_cap_warning")
      else (true, "ok")
    }

    /** A refused query always has a session already at, or an estimate reaching, the limit. */
    lemma RefusalNeedsLimit(sessionId: string, estimatedCost: real, isCritical: bool)
      requires estimatedCost <= 0.0 && !IsHardCapReached(Some(sessionId)) && sessionId != ""
      ensures CanProceed(sessionId, estimatedCost, isCritical).0
    {
    }

    /** `enable_manual_override`. */
    method EnableManualOverride(enabled: bool)
      modifies this
      ensures manualOverride == enabled
      ensures totalLimit == old(totalLimit) && softCapThreshold == old(softCapThreshold)
      ensures sessionCosts == old(sessionCosts) && queryRecords == old(queryRecords) && totalCost == old(totalCost)
    {
      manualOverride := enabled;
    }

    /** `get_remaining_budget`: never negative, and zero exactly when the hard cap is reached. */
    function RemainingBudget(session: Option<string>): (r: real)
      reads this
      ensures r >= 0.0
      ensures r == 0.0 <==> IsHardCapReached(session)
      ensures r > 0.0 ==> r + CostOf(session) == totalLimit
    {
      var cost := CostOf(session);
      if totalLimit - cost > 0.0 then totalLimit - cost else 0.0
    }

    /** `get_cost_summary`. */
    function Summary(session: Option<string>): (r: CostSummary)
      reads this
      ensures r.queryCount == if Selects(session) then |SessionRecords(queryRecords, session.value)| else |queryRecords|
      ensures r.totalCost == CostOf(session) && r.limit == totalLimit
      ensures r.remaining == RemainingBudget(session)
      ensures r.softCapReached == IsSoftCapReached(session) && r.hardCapReached == IsHardCapReached(session)
      ensures r.manualOverrideEnabled == manualOverride
    {
      var records := if Selects(session) then SessionRecords(queryRecords, session.value) else queryRecords;
      CostSummary(CostOf(session), |records|, totalLimit, RemainingBudget(session),
                  IsSoftCapReached(session), IsHardCapReached(session), manualOverride)
    }

    /**
     * The tracked total equals the sum of the session totals, listed in any
     * order without repetition.
     */
    lemma TotalEqualsSessionTotals(keys: seq<string>)
      requires Valid()
      requires Distinct(keys) && Elems(keys) == sessionCosts.Keys
      ensures forall k :: k in keys ==> k in sessionCosts
      ensures totalCost == SumValues(sessionCosts, keys)
    {
      assert forall r :: r in queryRecords ==> r.sessionId in SessionsOf(queryRecords);
      assert forall r :: r in queryRecords ==> r.sessionId in keys;
      TotalIsSumOfSessions(queryRecords, keys);
      SessionsMatch(sessionCosts, queryRecords, keys);
    }
  }

  /** A session absent from the records has spent nothing. */
  lemma {:induction false} NoRecordsNoCost(rs: seq<CostRecord>, s: string)
    requires s !in SessionsOf(rs)
    ensures SessionSum(rs, s) == 0.0
  {
    if rs != [] {
      var init := rs[..|rs| - 1];
      assert SessionsOf(init) <= SessionsOf(rs);
      assert rs[|rs| - 1].sessionId in SessionsOf(rs);
      NoRecordsNoCost(init, s);
    }
  }

  /** Appending one record: the totals and the set of sessions move by that record alone. */
  lemma RecordSnoc(rs: seq<CostRecord>, r: CostRecord)
    ensures SumCosts(rs + [r]) == SumCosts(rs) + r.cost
    ensures SessionsOf(rs + [r]) == SessionsOf(rs) + {r.sessionId}
    ensures forall s :: SessionSum(rs + [r], s) == SessionSum(rs, s) + (if r.sessionId == s then r.cost else 0.0)
  {
    var all := rs + [r];
    assert all[..|all| - 1] == rs;
    assert forall x :: x in all <==> x in rs || x == r;
  }

  lemma {:induction false} SessionsMatch(m: map<string, real>, rs: seq<CostRecord>, keys: seq<string>)
    requires forall k :: k in keys ==> k in m
    requires forall s :: s in m ==> m[s] == SessionSum(rs, s)
    ensures SumValues(m, keys) == SumSessions(rs, keys)
  {
    if keys != [] {
      SessionsMatch(m, rs, keys[1..]);
    }
  }
}
