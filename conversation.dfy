// A conversation session: its running cost against a limit, whether it has
// ended, and the context window of recent messages, trimmed to a token
// budget. Clock readings enter as `now` (seconds); the tokenizer, when one
// is available, enters as `encoder`.
module Conversation {
  import opened Wrappers

  /** A chat message as the model sees it: `{"role": ..., "content": ...}`. */
  datatype Message = Message(role: string, content: string)

  /** The `timestamp` of a context entry: missing, present but falsy (`None`, `""`), or a time. */
  datatype Stamp = NoStamp | EmptyStamp | At(seconds: real)

  /** A context-window entry; `None` is a missing key. */
  datatype Entry = Entry(role: Option<string>, content: Option<string>, timestamp: Stamp, tokenCount: Option<int>)

  /** `count_tokens`: the tokenizer's count when there is one, else a quarter of the length, rounded down. */
  function CountTokens(text: string, encoder: Option<string -> nat>): (n: nat)
    ensures encoder.None? ==> 4 * n <= |text| < 4 * n + 4
  {
    if encoder.Some? then encoder.value(text) else |text| / 4
  }

  /** The entry as `add_to_context` stores it: a missing timestamp or token count is filled in, present ones are kept. */
  function Filled(m: Entry, now: real, encoder: Option<string -> nat>): (e: Entry)
    ensures e.role == m.role && e.content == m.content
    ensures e.timestamp == (if m.timestamp.NoStamp? then At(now) else m.timestamp)
    ensures m.tokenCount.Some? ==> e.tokenCount == m.tokenCount
    ensures m.tokenCount.None? ==>
      e.tokenCount == (if m.content.Some? then Some(CountTokens(m.content.value, encoder) as int) else None)
  {
    var stamped := if m.timestamp.NoStamp? then m.(timestamp := At(now)) else m;
    if m.tokenCount.None? && m.content.Some? then stamped.(tokenCount := Some(CountTokens(m.content.value, encoder)))
    else stamped
  }

  /** `msg.get("token_count", 0)`. */
  function Tokens(e: Entry): int
  {
    if e.tokenCount.Some? then e.tokenCount.value else 0
  }

  function TokenSum(window: seq<Entry>): int
  {
    if window == [] then 0 else Tokens(window[0]) + TokenSum(window[1..])
  }

  /**
   * How many of the oldest entries the trimming loop drops: it goes on while
   * the window is over the budget and holds more than one entry.
   */
  function DropCount(window: seq<Entry>, maxTokens: int): (k: nat)
    ensures window == [] ==> k == 0
    ensures window != [] ==> k < |window|
    ensures forall j :: 0 <= j < k ==> TokenSum(window[j..]) > maxTokens
    ensures k < |window| ==> TokenSum(window[k..]) <= maxTokens || k == |window| - 1
    decreases |window|
  {
    if |window| > 1 && TokenSum(window) > maxTokens then
      var k := 1 + DropCount(window[1..], maxTokens);
      assert forall j :: 1 <= j <= k ==> window[1..][j - 1..] == window[j..];
      k
    else 0
  }

  /** After trimming, the window fits the budget or holds just one entry, and the newest entry is the last one. */
  lemma TrimmedShape(window: seq<Entry>, newest: Entry, maxTokens: int)
    ensures var w := window + [newest];
      var r := w[DropCount(w, maxTokens)..];
      (TokenSum(r) <= maxTokens || |r| == 1) && r != [] && r[|r| - 1] == newest
  {
  }

  /** A window already within the budget loses nothing. */
  lemma WithinBudgetKept(window: seq<Entry>, maxTokens: int)
    requires TokenSum(window) <= maxTokens
    ensures DropCount(window, maxTokens) == 0
  {
  }

  /** Dropping fewer entries would leave the window over the budget: the oldest are removed only as far as needed. */
  lemma DropsNoMoreThanNeeded(window: seq<Entry>, maxTokens: int)
    requires DropCount(window, maxTokens) > 0
    ensures TokenSum(window[DropCount(window, maxTokens) - 1..]) > maxTokens
  {
  }

  /** `age_minutes > time_threshold_minutes` for an entry with a time stamp. */
  predicate Stale(e: Entry, thresholdMinutes: int, now: real)
  {
    e.timestamp.At? && (now - e.timestamp.seconds) / 60.0 > thresholdMinutes as real
  }

  /** The entries `get_context_messages` keeps, in window order. */
  function Visible(window: seq<Entry>, includeOld: bool, thresholdMinutes: int, now: real): (r: seq<Entry>)
    ensures |r| <= |window|
    ensures forall e :: e in r ==> e in window && (includeOld || !Stale(e, thresholdMinutes, now))
  {
    if window == [] then []
    else
      var init := Visible(window[..|window| - 1], includeOld, thresholdMinutes, now);
      var e := window[|window| - 1];
      assert forall x :: x in window[..|window| - 1] ==> x in window;
      if !includeOld && Stale(e, thresholdMinutes, now) then init else init + [e]
  }

  /** With `include_old` every entry is kept, in order. */
  lemma {:induction false} IncludeOldKeepsAll(window: seq<Entry>, thresholdMinutes: int, now: real)
    ensures Visible(window, true, thresholdMinutes, now) == window
  {
    if window != [] {
      IncludeOldKeepsAll(window[..|window| - 1], thresholdMinutes, now);
    }
  }

  /** A recent or unstamped entry is always kept. */
  lemma {:induction false} FreshEntriesKept(window: seq<Entry>, includeOld: bool, thresholdMinutes: int, now: real, i: nat)
    requires i < |window| && !Stale(window[i], thresholdMinutes, now)
    ensures window[i] in Visible(window, includeOld, thresholdMinutes, now)
  {
    var n := |window| - 1;
    if i < n {
      assert window[..n][i] == window[i];
      FreshEntriesKept(window[..n], includeOld, thresholdMinutes, now, i);
    }
  }

  /** `{"role": msg["role"], "content": msg["content"]}` for each entry; a missing key is a `KeyError`. */
  function AsMessages(entries: seq<Entry>): (r: Result<seq<Message>>)
    ensures r.Ok? <==> forall i :: 0 <= i < |entries| ==> entries[i].role.Some? && entries[i].content.Some?
    ensures r.Err? ==> r == Err("KeyError")
    ensures r.Ok? ==> |r.value| == |entries| && forall i :: 0 <= i < |entries| ==>
      r.value[i] == Message(entries[i].role.value, entries[i].content.value)
  {
    if entries == [] then Ok([])
    else
      var init := AsMessages(entries[..|entries| - 1]);
      var e := entries[|entries| - 1];
      assert forall i :: 0 <= i < |entries| - 1 ==> entries[..|entries| - 1][i] == entries[i];
      if init.Err? then init
      else if e.role.None? || e.content.None? then Err("KeyError")
      else Ok(init.value + [Message(e.role.value, e.content.value)])
  }

  lemma AsMessagesSnoc(entries: seq<Entry>, e: Entry)
    ensures AsMessages(entries + [e]) ==
      if AsMessages(entries).Err? then AsMessages(entries)
      else if e.role.None? || e.content.None? then Err("KeyError")
      else Ok(AsMessages(entries).value + [Message(e.role.value, e.content.value)])
  {
    assert (entries + [e])[..|entries|] == entries;
  }

  lemma VisibleSnoc(window: seq<Entry>, e: Entry, includeOld: bool, thresholdMinutes: int, now: real)
    ensures Visible(window + [e], includeOld, thresholdMinutes, now) ==
      if !includeOld && Stale(e, thresholdMinutes, now) then Visible(window, includeOld, thresholdMinutes, now)
      else Visible(window, includeOld, thresholdMinutes, now) + [e]
  {
    assert (window + [e])[..|window|] == window;
  }

  class Session {
    var sessionId: string
    var userId: string
    var startedAt: real
    var endedAt: Option<real>
    var lastActivity: real
    var requestSource: string
    var totalCost: real
    var costLimit: real
    var messageCount: int
    var activeTools: seq<string>
    var contextWindow: seq<Entry>

    /** A new session: nothing spent, limit 1.0, no messages, started and last active `now`. */
    constructor (sessionId: string, userId: string, now: real)
      ensures this.sessionId == sessionId && this.userId == userId
      ensures startedAt == now && lastActivity == now && endedAt.None?
      ensures requestSource == "cli" && totalCost == 0.0 && costLimit == 1.0 && messageCount == 0
      ensures activeTools == [] && contextWindow == []
    {
      this.sessionId := sessionId;
      this.userId := userId;
      startedAt := now;
      endedAt := None;
      lastActivity := now;
      requestSource := "cli";
      totalCost := 0.0;
      costLimit := 1.0;
      messageCount := 0;
      activeTools := [];
      contextWindow := [];
    }

    /** `add_cost`: the cost is added and one more message counted; nothing else changes. */
    method AddCost(cost: real)
      modifies this
      ensures totalCost == old(totalCost) + cost && messageCount == old(messageCount) + 1
      ensures costLimit == old(costLimit) && endedAt == old(endedAt) && contextWindow == old(contextWindow)
      ensures lastActivity == old(lastActivity) && activeTools == old(activeTools)
      ensures sessionId == old(sessionId) && userId == old(userId) && startedAt == old(startedAt)
      ensures requestSource == old(requestSource)
    {
      totalCost := totalCost + cost;
      messageCount := messageCount + 1;
    }

    /** `is_within_limit`. */
    predicate IsWithinLimit()
      reads this
    {
      WithinLimit(totalCost, costLimit)
    }

    /** `approaching_limit`. */
    predicate ApproachingLimit(threshold: real)
      reads this
    {
      Approaching(totalCost, costLimit, threshold)
    }

    /** `end_session`: the session records when it ended and is no longer active. */
    method EndSession(now: real)
      modifies this
      ensures endedAt == Some(now) && !IsActive()
      ensures totalCost == old(totalCost) && costLimit == old(costLimit) && messageCount == old(messageCount)
      ensures contextWindow == old(contextWindow) && lastActivity == old(lastActivity)
      ensures activeTools == old(activeTools) && sessionId == old(sessionId) && userId == old(userId)
      ensures startedAt == old(startedAt) && requestSource == old(requestSource)
    {
      endedAt := Some(now);
    }

    /** `is_active`: exactly the sessions that have not ended. */
    predicate IsActive()
      reads this
    {
      endedAt.None?
    }

    /**
     * `add_to_context`: the filled-in message is appended and the oldest
     * entries are popped while the window is over `maxTokens` and holds more
     * than one entry.
     */
    method AddToContext(message: Entry, maxTokens: int, now: real, encoder: Option<string -> nat>)
      modifies this
      ensures var w := old(contextWindow) + [Filled(message, now, encoder)];
        contextWindow == w[DropCount(w, maxTokens)..]
      ensures contextWindow != [] && contextWindow[|contextWindow| - 1] == Filled(message, now, encoder)
      ensures TokenSum(contextWindow) <= maxTokens || |contextWindow| == 1
      ensures lastActivity == now
      ensures totalCost == old(totalCost) && costLimit == old(costLimit) && messageCount == old(messageCount)
      ensures endedAt == old(endedAt) && activeTools == old(activeTools) && sessionId == old(sessionId)
      ensures userId == old(userId) && startedAt == old(startedAt) && requestSource == old(requestSource)
    {
      var entry := Filled(message, now, encoder);
      var w := contextWindow + [entry];
      lastActivity := now;
      var window := w;
      var total := TokenSum(window);
      ghost var dropped := 0;
      while total > maxTokens && |window| > 1
        invariant 0 <= dropped < |w| && window == w[dropped..]
        invariant total == TokenSum(window)
        invariant DropCount(w, maxTokens) == dropped + DropCount(window, maxTokens)
        decreases |window|
      {
        var removed := window[0];
        assert w[dropped..][1..] == w[dropped + 1..];
        window := window[1..];
        total := total - Tokens(removed);
        dropped := dropped + 1;
      }
      contextWindow := window;
      TrimmedShape(old(contextWindow), entry, maxTokens);
    }

    /** `get_context_messages`: the kept entries as role/content messages, in window order. */
    method GetContextMessages(includeOld: bool, thresholdMinutes: int, now: real) returns (r: Result<seq<Message>>)
      ensures r == AsMessages(Visible(contextWindow, includeOld, thresholdMinutes, now))
    {
      var messages: seq<Message> := [];
      var i := 0;
      while i < |contextWindow|
        invariant 0 <= i <= |contextWindow|
        invariant AsMessages(Visible(contextWindow[..i], includeOld, thresholdMinutes, now)) == Ok(messages)
      {
        var msg := contextWindow[i];
        var kept := Visible(contextWindow[..i], includeOld, thresholdMinutes, now);
        assert contextWindow[..i + 1] == contextWindow[..i] + [msg];
        VisibleSnoc(contextWindow[..i], msg, includeOld, thresholdMinutes, now);
        if !includeOld && Stale(msg, thresholdMinutes, now) {
          i := i + 1;
          continue;
        }
        AsMessagesSnoc(kept, msg);
        if msg.role.None? || msg.content.None? {
          assert AsMessages(Visible(contextWindow[..i + 1], includeOld, thresholdMinutes, now)).Err?;
          VisibleFailurePersists(contextWindow, includeOld, thresholdMinutes, now, i + 1);
          return Err("KeyError");
        }
        messages := messages + [Message(msg.role.value, msg.content.value)];
        i := i + 1;
      }
      assert contextWindow[..i] == contextWindow;
      return Ok(messages);
    }
  }

  /** Once a kept entry lacks its role or content, the whole listing fails. */
  lemma {:induction false} VisibleFailurePersists(window: seq<Entry>, includeOld: bool, thresholdMinutes: int, now: real, i: nat)
    requires i <= |window| && AsMessages(Visible(window[..i], includeOld, thresholdMinutes, now)).Err?
    ensures AsMessages(Visible(window, includeOld, thresholdMinutes, now)).Err?
    decreases |window| - i
  {
    if i < |window| {
      var kept := Visible(window[..i], includeOld, thresholdMinutes, now);
      assert window[..i + 1] == window[..i] + [window[i]];
      VisibleSnoc(window[..i], window[i], includeOld, thresholdMinutes, now);
      AsMessagesSnoc(kept, window[i]);
      VisibleFailurePersists(window, includeOld, thresholdMinutes, now, i + 1);
    } else {
      assert window[..i] == window;
    }
  }

  /** `total_cost < cost_limit`. */
  predicate WithinLimit(total: real, limit: real)
  {
    total < limit
  }

  /** `total_cost >= cost_limit * threshold`. */
  predicate Approaching(total: real, limit: real, threshold: real)
  {
    total >= limit * threshold
  }

  /** With a threshold of at most 1 and a non-negative limit, a session past its limit is also approaching it. */
  lemma OverLimitIsApproaching(total: real, limit: real, threshold: real)
    requires !WithinLimit(total, limit) && threshold <= 1.0 && limit >= 0.0
    ensures Approaching(total, limit, threshold)
  {
  }

  /** Adding a non-negative cost never brings a session back under its limit. */
  lemma CostOnlyGrows(total: real, limit: real, cost: real)
    requires cost >= 0.0 && !WithinLimit(total, limit)
    ensures !WithinLimit(total + cost, limit)
  {
  }
}
