// The token-bucket rate limiter for external calls and the per-service
// registry of limiters. Clock readings enter as `now`; the polling
// `wait_for_token` and the asyncio lock are not part of this model.
module RateLimiter {
  import opened Wrappers
  import opened Json

  const HistoryLimit: nat := 1000

  function Min(a: real, b: real): real { if a <= b then a else b }

  /** `burst_size or calls_per_minute`: a missing or zero burst is the per-minute rate. */
  function EffectiveBurst(callsPerMinute: int, burstSize: Option<int>): (b: int)
    ensures burstSize.Some? && burstSize.value != 0 ==> b == burstSize.value
    ensures burstSize.None? || burstSize.value == 0 ==> b == callsPerMinute
  {
    if burstSize.Some? && burstSize.value != 0 then burstSize.value else callsPerMinute
  }

  /** The tokens that `elapsed` seconds earn at `callsPerMinute` per minute. */
  function Earned(callsPerMinute: int, lastRefill: real, now: real): real
  {
    (now - lastRefill) * (callsPerMinute as real / 60.0)
  }

  /** `_refill_tokens`: the new token count and refill time; a refill of less than one whole token is not made. */
  function Refill(tokens: real, burst: int, callsPerMinute: int, lastRefill: real, now: real): (r: (real, real))
    ensures Earned(callsPerMinute, lastRefill, now) >= 1.0 ==>
      r.0 == Min(burst as real, tokens + Earned(callsPerMinute, lastRefill, now)) && r.1 == now
    ensures Earned(callsPerMinute, lastRefill, now) < 1.0 ==> r == (tokens, lastRefill)
  {
    var earned := Earned(callsPerMinute, lastRefill, now);
    if earned >= 1.0 then (Min(burst as real, tokens + earned), now) else (tokens, lastRefill)
  }

  /** A refill keeps the bucket within [0, burst] and never takes tokens away. */
  lemma RefillBounded(tokens: real, burst: int, callsPerMinute: int, lastRefill: real, now: real)
    requires 0.0 <= tokens <= burst as real
    ensures var r := Refill(tokens, burst, callsPerMinute, lastRefill, now);
      tokens <= r.0 <= burst as real
  {
  }

  /** A full bucket stays full whatever time has passed. */
  lemma FullStaysFull(burst: int, callsPerMinute: int, lastRefill: real, now: real)
    ensures Refill(burst as real, burst, callsPerMinute, lastRefill, now).0 == burst as real
  {
  }

  /** The call history after recording `t`: the most recent readings, at most 1000 of them. */
  function Record(history: seq<real>, t: real): (h: seq<real>)
    ensures |h| == if |history| < HistoryLimit then |history| + 1 else HistoryLimit
    ensures h == (history + [t])[|history| + 1 - |h|..]
  {
    var all := history + [t];
    if |all| <= HistoryLimit then all else all[|all| - HistoryLimit..]
  }

  /** Recording keeps the newest reading last and never holds more than 1000. */
  lemma RecordShape(history: seq<real>, t: real)
    ensures var h := Record(history, t); |h| <= HistoryLimit && h[|h| - 1] == t
    ensures |history| < HistoryLimit ==> Record(history, t) == history + [t]
  {
  }

  /** The calls recorded less than a minute before `now`. */
  function RecentCalls(history: seq<real>, now: real): (n: nat)
    ensures n <= |history|
  {
    if history == [] then 0
    else RecentCalls(history[..|history| - 1], now) + (if now - history[|history| - 1] < 60.0 then 1 else 0)
  }

  /** Recording a reading adds one recent call when the history is below its limit. */
  lemma RecentCallsRecord(history: seq<real>, now: real)
    requires |history| < HistoryLimit
    ensures RecentCalls(Record(history, now), now) == RecentCalls(history, now) + 1
  {
    assert Record(history, now)[..|history|] == history;
  }

  datatype Stats = Stats(availableTokens: int, burstSize: int, callsPerMinute: int, recentCalls: nat, utilizationPct: real)

  /** `get_stats`; a limiter with a zero rate divides by zero. */
  function StatsOf(tokens: real, burst: int, callsPerMinute: int, history: seq<real>, now: real): (r: Result<Stats>)
    ensures r.Err? <==> callsPerMinute == 0
    ensures r.Ok? ==>
      r.value.recentCalls == RecentCalls(history, now)
      && r.value.utilizationPct * callsPerMinute as real == r.value.recentCalls as real * 100.0
    ensures r.Ok? && tokens >= 0.0 ==> r.value.availableTokens as real <= tokens < r.value.availableTokens as real + 1.0
  {
    if callsPerMinute == 0 then Err("ZeroDivisionError")
    else
      var recent := RecentCalls(history, now);
      Ok(Stats(TruncToInt(tokens), burst, callsPerMinute, recent, (recent as real / callsPerMinute as real) * 100.0))
  }

  class Limiter {
    var callsPerMinute: int
    var burstSize: int
    var tokens: real
    var lastRefill: real
    var callHistory: seq<real>

    /** The bucket holds between none and a burst of tokens, and the history at most 1000 readings. */
    predicate Valid()
      reads this
    {
      0.0 <= tokens <= burstSize as real && |callHistory| <= HistoryLimit
    }

    /** A new limiter starts full. */
    constructor (callsPerMinute: int, burstSize: Option<int>, now: real)
      ensures this.callsPerMinute == callsPerMinute
      ensures this.burstSize == EffectiveBurst(callsPerMinute, burstSize)
      ensures tokens == this.burstSize as real && lastRefill == now && callHistory == []
      ensures this.burstSize >= 0 ==> Valid()
    {
      var burst := EffectiveBurst(callsPerMinute, burstSize);
      this.callsPerMinute := callsPerMinute;
      this.burstSize := burst;
      tokens := burst as real;
      lastRefill := now;
      callHistory := [];
    }

    /** `_refill_tokens`. */
    method RefillTokens(now: real)
      modifies this
      ensures (tokens, lastRefill) == Refill(old(tokens), burstSize, callsPerMinute, old(lastRefill), now)
      ensures callsPerMinute == old(callsPerMinute) && burstSize == old(burstSize) && callHistory == old(callHistory)
    {
      var earned := (now - lastRefill) * (callsPerMinute as real / 60.0);
      if earned >= 1.0 {
        tokens := Min(burstSize as real, tokens + earned);
        lastRefill := now;
      }
    }

    /**
     * `acquire`: after a refill, take `n` tokens and record the call when
     * that many are there; otherwise change nothing but the refill.
     */
    method Acquire(n: int, now: real) returns (ok: bool)
      modifies this
      ensures var (refilled, refillTime) := Refill(old(tokens), old(burstSize), old(callsPerMinute), old(lastRefill), now);
        (ok <==> refilled >= n as real)
        && lastRefill == refillTime
        && (ok ==> tokens == refilled - n as real && callHistory == Record(old(callHistory), now))
        && (!ok ==> tokens == refilled && callHistory == old(callHistory))
      ensures callsPerMinute == old(callsPerMinute) && burstSize == old(burstSize)
      ensures old(Valid()) && n >= 0 ==> Valid()
    {
      ghost var before := tokens;
      RefillTokens(now);
      if old(Valid()) {
        RefillBounded(before, burstSize, callsPerMinute, old(lastRefill), now);
      }
      if tokens >= n as real {
        tokens := tokens - n as real;
        var all := callHistory + [now];
        callHistory := if |all| <= HistoryLimit then all else all[|all| - HistoryLimit..];
        ok := true;
      } else {
        ok := false;
      }
    }

    function GetStats(now: real): (r: Result<Stats>)
      reads this
    {
      StatsOf(tokens, burstSize, callsPerMinute, callHistory, now)
    }
  }

  /** A successful acquire of n from a valid bucket takes exactly n of the refilled tokens; a refused one was short of n. */
  lemma AcquireAccounting(tokens: real, burst: int, callsPerMinute: int, lastRefill: real, now: real, n: nat)
    requires 0.0 <= tokens <= burst as real
    ensures var refilled := Refill(tokens, burst, callsPerMinute, lastRefill, now).0;
      (refilled >= n as real ==> 0.0 <= refilled - n as real <= burst as real)
      && (n as real > burst as real ==> refilled < n as real)
  {
    RefillBounded(tokens, burst, callsPerMinute, lastRefill, now);
  }

  /** The registry of per-service limiters. */
  class MultiService {
    var limiters: map<string, Limiter>

    constructor ()
      ensures limiters == map[]
    {
      limiters := map[];
    }

    /** `add_service`: a fresh, full limiter under the name, replacing any earlier one. */
    method AddService(serviceName: string, callsPerMinute: int, burstSize: Option<int>, now: real)
      modifies this
      ensures serviceName in limiters && fresh(limiters[serviceName])
      ensures limiters == old(limiters)[serviceName := limiters[serviceName]]
      ensures limiters[serviceName].callsPerMinute == callsPerMinute
      ensures limiters[serviceName].burstSize == EffectiveBurst(callsPerMinute, burstSize)
      ensures limiters[serviceName].tokens == limiters[serviceName].burstSize as real
      ensures limiters[serviceName].callHistory == []
    {
      var limiter := new Limiter(callsPerMinute, burstSize, now);
      limiters := limiters[serviceName := limiter];
    }

    /** `acquire`: an unknown service is let through and nothing changes; a known one asks its limiter. */
    method Acquire(serviceName: string, n: int, now: real) returns (ok: bool)
      modifies if serviceName in limiters then {limiters[serviceName]} else {}
      ensures serviceName !in limiters ==> ok
      ensures limiters == old(limiters)
      ensures serviceName in limiters ==>
        var l := limiters[serviceName];
        var (refilled, refillTime) := Refill(old(l.tokens), old(l.burstSize), old(l.callsPerMinute), old(l.lastRefill), now);
        (ok <==> refilled >= n as real)
        && l.lastRefill == refillTime
        && (ok ==> l.tokens == refilled - n as real && l.callHistory == Record(old(l.callHistory), now))
        && (!ok ==> l.tokens == refilled && l.callHistory == old(l.callHistory))
        && l.callsPerMinute == old(l.callsPerMinute) && l.burstSize == old(l.burstSize)
        && (old(l.Valid()) && n >= 0 ==> l.Valid())
    {
      if serviceName !in limiters {
        ok := true;
      } else {
        ok := limiters[serviceName].Acquire(n, now);
      }
    }

    /** `get_all_stats`: each service's statistics under its name. */
    function AllStats(now: real): (r: map<string, Result<Stats>>)
      reads this, limiters.Values
      ensures r.Keys == limiters.Keys
      ensures forall s :: s in r ==> r[s] == limiters[s].GetStats(now)
    {
      map s | s in limiters :: limiters[s].GetStats(now)
    }
  }
}
