// The tiered model router: a cost-cap gate, the rule ladder from the local
// model up to Grok-4-Fast, Claude Sonnet and Claude Opus, the connector
// search for an external tier, and the cost status report. The current total
// cost is a parameter (the cost tracker's `get_total_cost`), connectors are
// named by their key in the router's connector dict, and `fmt2` is Python's
// `f"{x:.2f}"`.
module ModelRouter {
  import opened Wrappers
  import opened Json
  import opened Text

  /** The connector a decision carries. */
  datatype Conn = LocalConn | ExternalConn(id: string)

  datatype RoutingDecision = RoutingDecision(
    modelId: string,
    modelName: string,
    connector: Conn,
    estimatedCost: real,
    routingTier: string,
    reasoning: string)

  /** The router's configuration; `external` lists the connector dict's keys in order. */
  datatype Router = Router(external: seq<string>, monthlyCap: real, softCapThreshold: real)

  const LocalModelName := "qwen2.5:3b-instruct-q5_K_M"

  /** The external rows of the tier table: model name and cost. */
  function TierInfo(tier: string): (r: Option<(string, real)>)
    ensures r.Some? ==> r.value.1 > 0.0
    ensures r.Some? <==> tier in {"grok_fast", "sonnet", "opus"}
  {
    if tier == "grok_fast" then Some(("x-ai/grok-4-fast", 0.002))
    else if tier == "sonnet" then Some(("anthropic/claude-sonnet-4.5", 0.01))
    else if tier == "opus" then Some(("anthropic/claude-opus-4.1", 0.05))
    else None
  }

  /**
   * What Python's `x in v` searches for a string `x`: a list's items, a
   * string's text (a substring test), a dict's keys. None, a number or a
   * boolean cannot be searched: `in` raises TypeError.
   */
  datatype Container = Items(items: seq<Json>) | Chars(text: string) | KeysOf(keys: seq<string>) | Unsearchable

  function ContainerOf(v: Json): (c: Container)
    ensures c.Unsearchable? <==> v.JNull? || v.JNum? || v.JBool?
  {
    match v
    case JArr(xs) => Items(xs)
    case JStr(text) => Chars(text)
    case JObj(fs) => KeysOf(Keys(fs))
    case _ => Unsearchable
  }

  /** `x in c`, where it does not raise. */
  predicate Holds(c: Container, x: string)
  {
    match c
    case Items(xs) => JStr(x) in xs
    case Chars(text) => Contains(text, x)
    case KeysOf(ks) => x in ks
    case Unsearchable => false
  }

  /**
   * The fields of the query analysis the router reads. `score` is the
   * complexity score as a number, or None where it cannot be compared with
   * one (anything but a number or a bool): the first comparison the route
   * reaches then raises TypeError.
   */
  datatype RouteInput = RouteInput(
    score: Option<real>,
    level: Json,
    intentTags: Container,
    capabilities: Container,
    multiHop: bool)

  /**
   * `analysis.get(key, default)` for the five fields. Reading never raises;
   * a bool score compares as 0 or 1.
   */
  function InputOf(analysis: seq<(string, Json)>): (r: RouteInput)
    ensures analysis == [] ==> r == RouteInput(Some(0.5), JStr("moderate"), Items([]), Items([]), false)
    ensures r.score.None? <==>
      Lookup(analysis, "complexity_score").Some? && !Lookup(analysis, "complexity_score").value.JNum?
      && !Lookup(analysis, "complexity_score").value.JBool?
  {
    var score := GetOr(analysis, "complexity_score", JNum(0.5));
    RouteInput(
      if score.JNum? then Some(score.n)
      else if score.JBool? then Some(if score.b then 1.0 else 0.0)
      else None,
      GetOr(analysis, "complexity_level", JStr("moderate")),
      ContainerOf(GetOr(analysis, "intent_tags", JArr([]))),
      ContainerOf(GetOr(analysis, "required_capabilities", JArr([]))),
      Truthy(GetOr(analysis, "requires_multi_hop", JBool(false))))
  }

  /** `complexity_score < bound`, where it does not raise. */
  predicate Below(a: RouteInput, bound: real)
  {
    a.score.Some? && a.score.value < bound
  }

  /** `complexity_score >= bound`, where it does not raise. */
  predicate AtLeast(a: RouteInput, bound: real)
  {
    a.score.Some? && a.score.value >= bound
  }

  predicate Tagged(a: RouteInput, tags: seq<string>)
  {
    exists t :: t in tags && Holds(a.intentTags, t)
  }

  predicate HasCapability(a: RouteInput, cap: string)
  {
    Holds(a.capabilities, cap)
  }

  const HeavyTags := ["planning", "strategy", "deep_reasoning", "creative", "critical", "complex_analysis"]
  const PlanningTags := ["planning", "strategy", "thinking"]
  const DeepTags := ["deep_reasoning", "analogy", "creative"]

  // ---- cost caps ----

  /** `current_cost / monthly_cap`, or 0 without a cap. */
  function CapPercentage(r: Router, currentCost: real): real
  {
    if r.monthlyCap > 0.0 then currentCost / r.monthlyCap else 0.0
  }

  /** The cap gate: the hard cap or the soft cap forces the local model. */
  predicate CapForcesLocal(r: Router, currentCost: real)
  {
    var pct := CapPercentage(r, currentCost);
    pct >= 1.0 || pct >= r.softCapThreshold
  }

  datatype CostStatus = CostStatus(
    currentCost: real,
    monthlyCap: real,
    capPercentage: real,
    softCapReached: bool,
    hardCapReached: bool,
    forceLocal: bool)

  function CheckCostStatus(r: Router, currentCost: real): (s: CostStatus)
    ensures s.forceLocal == s.softCapReached
    ensures s.hardCapReached <==> s.capPercentage >= 1.0
    ensures s.softCapReached <==> s.capPercentage >= r.softCapThreshold
    ensures r.monthlyCap <= 0.0 ==> s.capPercentage == 0.0 && !s.hardCapReached
    ensures s.currentCost == currentCost && s.monthlyCap == r.monthlyCap
  {
    var pct := CapPercentage(r, currentCost);
    CostStatus(currentCost, r.monthlyCap, pct, pct >= r.softCapThreshold, pct >= 1.0, pct >= r.softCapThreshold)
  }

  // ---- decisions ----

  function LocalDecision(reasoning: string): (d: RoutingDecision)
    ensures d.modelId == "local_fast" && d.routingTier == "local_fast"
    ensures d.connector == LocalConn && d.estimatedCost == 0.0 && d.reasoning == reasoning
  {
    RoutingDecision("local_fast", LocalModelName, LocalConn, 0.0, "local_fast", reasoning)
  }

  /** `model_name.split("/")[-1]`. */
  function LastSegment(name: string): string
  {
    name[RFindChar(name, '/') + 1..]
  }

  predicate ServesModel(id: string, name: string)
  {
    Contains(id, name) || Contains(id, LastSegment(name))
  }

  /** The first connector whose key names the model, in dict order. */
  function FindConnector(ids: seq<string>, name: string): (r: Option<string>)
    ensures r.Some? ==> r.value in ids && ServesModel(r.value, name)
    ensures r.None? <==> forall i :: 0 <= i < |ids| ==> !ServesModel(ids[i], name)
  {
    if ids == [] then None
    else if ServesModel(ids[0], name) then Some(ids[0])
    else
      assert forall i :: 1 <= i < |ids| ==> ids[i] == ids[1..][i - 1];
      FindConnector(ids[1..], name)
  }

  /** The keys before the one found do not name the model. */
  lemma {:induction false} FindConnectorFirst(ids: seq<string>, name: string)
    requires FindConnector(ids, name).Some?
    ensures exists k ::
      (0 <= k < |ids| && ids[k] == FindConnector(ids, name).value
       && forall j :: 0 <= j < k ==> !ServesModel(ids[j], name))
  {
    if !ServesModel(ids[0], name) {
      FindConnectorFirst(ids[1..], name);
      var k :| 0 <= k < |ids[1..]| && ids[1..][k] == FindConnector(ids[1..], name).value &&
        forall j :: 0 <= j < k ==> !ServesModel(ids[1..][j], name);
      assert ids[k + 1] == FindConnector(ids, name).value;
      assert forall j :: 1 <= j < k + 1 ==> ids[j] == ids[1..][j - 1];
    } else {
      assert ids[0] == FindConnector(ids, name).value;
    }
  }

  /** The connector search loop of `_create_external_decision`. */
  method FindConnectorScan(ids: seq<string>, name: string) returns (connector: Option<string>)
    ensures connector == FindConnector(ids, name)
  {
    connector := None;
    var i := 0;
    while i < |ids|
      invariant 0 <= i <= |ids|
      invariant FindConnector(ids, name) == FindConnector(ids[i..], name)
    {
      if ServesModel(ids[i], name) {
        connector := Some(ids[i]);
        break;
      }
      assert ids[i..][1..] == ids[i + 1..];
      i := i + 1;
    }
    if connector.None? {
      assert ids[i..] == [];
    }
  }

  /**
   * `_create_external_decision`. The local row of the tier table has no
   * model name, and matching it against connector keys would raise.
   */
  function ExternalDecision(r: Router, tier: string, reasoning: string): (d: RoutingDecision)
    requires tier != "local_fast"
    ensures d.modelId == tier || d.modelId == "local_fast"
    ensures d.modelId == tier <==> TierInfo(tier).Some? && FindConnector(r.external, TierInfo(tier).value.0).Some?
    ensures d.modelId == tier ==>
      d.connector == ExternalConn(FindConnector(r.external, TierInfo(tier).value.0).value)
      && d.estimatedCost == TierInfo(tier).value.1 && d.routingTier == tier
      && d.modelName == TierInfo(tier).value.0 && d.reasoning == reasoning
  {
    var info := TierInfo(tier);
    if info.None? then LocalDecision("Unknown tier fallback: " + reasoning)
    else
      var connector := FindConnector(r.external, info.value.0);
      if connector.None? then LocalDecision("External model unavailable: " + reasoning)
      else RoutingDecision(tier, info.value.0, ExternalConn(connector.value), info.value.1, tier, reasoning)
  }

  // ---- route ----

  /** The rules that pick the local model before any external tier is considered. */
  predicate StaysLocalEarly(query: string, a: RouteInput)
  {
    (!Tagged(a, HeavyTags) && Below(a, 0.6))
    || ShortGreeting(query, a)
    || (HasCapability(a, "code_exec") && !a.multiHop)
    || (HasCapability(a, "web_search") && Below(a, 0.6))
  }

  /** The casual-greeting rule: a simple level and fewer than ten words. */
  predicate ShortGreeting(query: string, a: RouteInput)
  {
    a.level == JStr("simple") && |Words(query)| < 10
  }

  /** The reason recorded for the first local rule that applies. */
  function EarlyLocalReason(query: string, a: RouteInput, fmt2: real -> string): string
  {
    if !Tagged(a, HeavyTags) && Below(a, 0.6) then
      "Simple query without heavy keywords (complexity=" + fmt2(a.score.value) + ")"
    else if ShortGreeting(query, a) then "Casual greeting or short message"
    else if HasCapability(a, "code_exec") && !a.multiHop then "Math/code execution handled locally with sandbox"
    else "Simple fact question with quick search"
  }

  /** The external ladder, as written: the 0.75 rule comes before the Opus rule. */
  function TierLadder(r: Router, a: RouteInput, fmt2: real -> string): RoutingDecision
    requires LadderReadsScore(a) ==> a.score.Some?
  {
    if Tagged(a, PlanningTags) then ExternalDecision(r, "grok_fast", "Planning/strategy query requires Grok-4-Fast")
    else if Tagged(a, DeepTags) then ExternalDecision(r, "sonnet", "Deep reasoning query requires Claude Sonnet")
    else if a.score.value >= 0.75 then
      ExternalDecision(r, "sonnet", "High complexity score (" + fmt2(a.score.value) + ") requires Sonnet")
    else if Holds(a.intentTags, "critical") || a.score.value >= 0.9 then
      ExternalDecision(r, "opus", "Critical task requires Claude Opus")
    else LocalDecision("Default routing (complexity=" + fmt2(a.score.value) + ")")
  }

  /** The ladder compares the score unless a planning or deep-reasoning tag decides first. */
  predicate LadderReadsScore(a: RouteInput)
  {
    !Tagged(a, PlanningTags) && !Tagged(a, DeepTags)
  }

  /**
   * Where `route` raises TypeError: past the cap gate, intent tags that
   * cannot be searched; past the first two local rules, such capabilities;
   * or a score that cannot be compared, once a comparison is reached.
   */
  predicate RouteRaises(r: Router, query: string, a: RouteInput, currentCost: real, forceLocal: bool)
  {
    !(forceLocal || CapForcesLocal(r, currentCost))
    && (a.intentTags.Unsearchable?
        || (!(!Tagged(a, HeavyTags) && Below(a, 0.6)) && !ShortGreeting(query, a) && a.capabilities.Unsearchable?)
        || (a.score.None? && ScoreCompared(query, a)))
  }

  /**
   * Whether the route compares the score: the no-heavy-keyword rule does,
   * and so, past the greeting and code rules, do the quick-search rule and
   * the ladder unless a planning or deep-reasoning tag decides first.
   */
  predicate ScoreCompared(query: string, a: RouteInput)
  {
    !Tagged(a, HeavyTags)
    || (!ShortGreeting(query, a) && !a.capabilities.Unsearchable? && !(HasCapability(a, "code_exec") && !a.multiHop)
        && (HasCapability(a, "web_search") || LadderReadsScore(a)))
  }

  /** The decision where `route` does not raise. */
  function Decide(r: Router, query: string, a: RouteInput, currentCost: real, forceLocal: bool,
                  fmt2: real -> string): (d: RoutingDecision)
    requires !RouteRaises(r, query, a, currentCost, forceLocal)
    ensures d.modelId in {"local_fast", "grok_fast", "sonnet", "opus"}
    ensures forceLocal || CapForcesLocal(r, currentCost) ==> d.modelId == "local_fast"
  {
    if forceLocal || CapForcesLocal(r, currentCost) then LocalDecision("Force local due to cost cap or user preference")
    else if StaysLocalEarly(query, a) then LocalDecision(EarlyLocalReason(query, a, fmt2))
    else TierLadder(r, a, fmt2)
  }

  /**
   * `route`: the decision, or the TypeError of an `in` on a value that
   * cannot be searched or of a comparison with a score that is not a number.
   */
  function Route(r: Router, query: string, a: RouteInput, currentCost: real, forceLocal: bool,
                 fmt2: real -> string): (d: Result<RoutingDecision>)
    ensures d.Err? <==> RouteRaises(r, query, a, currentCost, forceLocal)
    ensures d.Err? ==> d.error == "TypeError"
    ensures d.Ok? ==> d.value.modelId in {"local_fast", "grok_fast", "sonnet", "opus"}
    ensures forceLocal || CapForcesLocal(r, currentCost) ==> d.Ok? && d.value.modelId == "local_fast"
  {
    if RouteRaises(r, query, a, currentCost, forceLocal) then Err("TypeError")
    else Ok(Decide(r, query, a, currentCost, forceLocal, fmt2))
  }

  /** Intent tags of None, a number or a boolean make every route past the cap gate raise. */
  lemma UnsearchableTagsRaise(r: Router, query: string, a: RouteInput, currentCost: real, fmt2: real -> string)
    requires !CapForcesLocal(r, currentCost) && a.intentTags.Unsearchable?
    ensures Route(r, query, a, currentCost, false, fmt2) == Err("TypeError")
  {
  }

  /**
   * A score that is not a number is never read behind the forced-local gate:
   * `{"complexity_score": "high"}` with `force_local` stays local.
   */
  lemma TextScoreForcedLocal(r: Router, query: string, currentCost: real, fmt2: real -> string)
    ensures InputOf([("complexity_score", JStr("high"))]).score.None?
    ensures Route(r, query, InputOf([("complexity_score", JStr("high"))]), currentCost, true, fmt2)
      == Ok(LocalDecision("Force local due to cost cap or user preference"))
  {
  }

  /**
   * Past the gate, a score that is not a number raises at the first rule
   * once no heavy intent tag is present, and is ignored when a planning or
   * deep-reasoning tag decides the ladder and no quick-search rule reads it.
   */
  lemma IncomparableScore(r: Router, query: string, a: RouteInput, currentCost: real, fmt2: real -> string)
    requires !CapForcesLocal(r, currentCost) && a.score.None?
    requires !a.intentTags.Unsearchable? && !a.capabilities.Unsearchable?
    ensures !Tagged(a, HeavyTags) ==> Route(r, query, a, currentCost, false, fmt2) == Err("TypeError")
    ensures Tagged(a, HeavyTags) && !HasCapability(a, "web_search") && !LadderReadsScore(a) ==>
      Route(r, query, a, currentCost, false, fmt2).Ok?
  {
  }

  /** Intent tags given as a string are searched as text: a tag is present when it occurs anywhere in it. */
  lemma TagsAsText(a: RouteInput, text: string, tags: seq<string>)
    requires a.intentTags == Chars(text)
    ensures Tagged(a, tags) <==> exists t :: t in tags && Contains(text, t)
  {
  }

  /**
   * A local decision is free and uses the local connector; an external one
   * costs its tier's price and uses a configured connector whose key names
   * the tier's model.
   */
  lemma RouteDecisionShape(r: Router, query: string, a: RouteInput, currentCost: real, forceLocal: bool,
                           fmt2: real -> string)
    ensures Route(r, query, a, currentCost, forceLocal, fmt2).Ok? ==>
      WellFormedDecision(r, Route(r, query, a, currentCost, forceLocal, fmt2).value)
  {
    if !RouteRaises(r, query, a, currentCost, forceLocal)
       && !(forceLocal || CapForcesLocal(r, currentCost)) && !StaysLocalEarly(query, a) {
      LadderShape(r, a, fmt2);
    }
  }

  predicate WellFormedDecision(r: Router, d: RoutingDecision)
  {
    (d.modelId == "local_fast" <==> d.connector == LocalConn)
    && (d.modelId == "local_fast" ==> d.estimatedCost == 0.0)
    && (d.connector.ExternalConn? ==>
          TierInfo(d.modelId).Some? && d.estimatedCost == TierInfo(d.modelId).value.1
          && d.connector.id in r.external && ServesModel(d.connector.id, TierInfo(d.modelId).value.0))
  }

  lemma ExternalShape(r: Router, tier: string, reasoning: string)
    requires tier != "local_fast"
    ensures WellFormedDecision(r, ExternalDecision(r, tier, reasoning))
  {
  }

  lemma LadderShape(r: Router, a: RouteInput, fmt2: real -> string)
    requires LadderReadsScore(a) ==> a.score.Some?
    ensures WellFormedDecision(r, TierLadder(r, a, fmt2))
  {
    if Tagged(a, PlanningTags) {
      ExternalShape(r, "grok_fast", "Planning/strategy query requires Grok-4-Fast");
    } else if Tagged(a, DeepTags) {
      ExternalShape(r, "sonnet", "Deep reasoning query requires Claude Sonnet");
    } else if a.score.value >= 0.75 {
      ExternalShape(r, "sonnet", "High complexity score (" + fmt2(a.score.value) + ") requires Sonnet");
    } else if Holds(a.intentTags, "critical") || a.score.value >= 0.9 {
      ExternalShape(r, "opus", "Critical task requires Claude Opus");
    }
  }

  /** A light query (no heavy intent tag, score below 0.6) never leaves the local model. */
  lemma LightQueryStaysLocal(r: Router, query: string, a: RouteInput, currentCost: real, forceLocal: bool,
                             fmt2: real -> string)
    requires !a.intentTags.Unsearchable? && !Tagged(a, HeavyTags) && Below(a, 0.6)
    ensures Route(r, query, a, currentCost, forceLocal, fmt2).Ok?
    ensures Route(r, query, a, currentCost, forceLocal, fmt2).value.modelId == "local_fast"
  {
  }

  /** Code execution without multi-hop reasoning is handled by the local model and its sandbox. */
  lemma CodeExecStaysLocal(r: Router, query: string, a: RouteInput, currentCost: real, forceLocal: bool,
                           fmt2: real -> string)
    requires !a.intentTags.Unsearchable? && HasCapability(a, "code_exec") && !a.multiHop
    requires a.score.None? && !Tagged(a, HeavyTags) ==> forceLocal || CapForcesLocal(r, currentCost)
    ensures Route(r, query, a, currentCost, forceLocal, fmt2) == Ok(
      LocalDecision(
        if forceLocal || CapForcesLocal(r, currentCost) then "Force local due to cost cap or user preference"
        else EarlyLocalReason(query, a, fmt2)))
  {
  }

  /** Past the local rules, a planning tag asks for Grok-4-Fast before anything else. */
  lemma PlanningGoesToGrok(r: Router, query: string, a: RouteInput, currentCost: real, fmt2: real -> string)
    requires !CapForcesLocal(r, currentCost) && !StaysLocalEarly(query, a)
    requires Tagged(a, PlanningTags) && !a.capabilities.Unsearchable?
    requires a.score.None? ==> Tagged(a, HeavyTags) && !HasCapability(a, "web_search")
    requires FindConnector(r.external, "x-ai/grok-4-fast").Some?
    ensures Route(r, query, a, currentCost, false, fmt2).Ok?
    ensures Route(r, query, a, currentCost, false, fmt2).value.modelId == "grok_fast"
  {
  }

  /** Without a matching connector an external tier falls back to the local model. */
  lemma NoConnectorFallsBack(r: Router, tier: string, reasoning: string)
    requires TierInfo(tier).Some? && forall i :: 0 <= i < |r.external| ==> !ServesModel(r.external[i], TierInfo(tier).value.0)
    ensures ExternalDecision(r, tier, reasoning) == LocalDecision("External model unavailable: " + reasoning)
  {
  }

  // ---- the Opus rule ----

  /**
   * As written, Opus is reachable only through the critical tag: every score
   * of 0.9 or more is at least 0.75 and is sent to Sonnet first.
   */
  lemma OpusOnlyWhenCritical(r: Router, query: string, a: RouteInput, currentCost: real, forceLocal: bool,
                             fmt2: real -> string)
    ensures var d := Route(r, query, a, currentCost, forceLocal, fmt2);
      d.Ok? && d.value.modelId == "opus" ==> Holds(a.intentTags, "critical")
  {
  }

  /** A concrete input: score 0.95 with no tags goes to Sonnet, not Opus. */
  lemma VeryComplexGoesToSonnet(r: Router, query: string, a: RouteInput, fmt2: real -> string)
    requires a == RouteInput(Some(0.95), JStr("complex"), Items([]), Items([]), false)
    requires r.monthlyCap == 3.0 && r.softCapThreshold == 0.8
    requires r.external == ["anthropic/claude-sonnet-4.5", "anthropic/claude-opus-4.1"]
    ensures Route(r, query, a, 0.0, false, fmt2).Ok?
    ensures Route(r, query, a, 0.0, false, fmt2).value.modelId == "sonnet"
  {
    assert !Tagged(a, PlanningTags) && !Tagged(a, DeepTags);
    assert !HasCapability(a, "code_exec") && !HasCapability(a, "web_search");
    assert MatchAt(r.external[0], "anthropic/claude-sonnet-4.5", 0);
  }

  /** The ladder with the Opus rule checked before the 0.75 rule, as the tier table describes. */
  function TierLadderOpusFirst(r: Router, a: RouteInput, fmt2: real -> string): RoutingDecision
    requires LadderReadsScore(a) ==> a.score.Some?
  {
    if Tagged(a, PlanningTags) then ExternalDecision(r, "grok_fast", "Planning/strategy query requires Grok-4-Fast")
    else if Tagged(a, DeepTags) then ExternalDecision(r, "sonnet", "Deep reasoning query requires Claude Sonnet")
    else if Holds(a.intentTags, "critical") || a.score.value >= 0.9 then
      ExternalDecision(r, "opus", "Critical task requires Claude Opus")
    else if a.score.value >= 0.75 then
      ExternalDecision(r, "sonnet", "High complexity score (" + fmt2(a.score.value) + ") requires Sonnet")
    else LocalDecision("Default routing (complexity=" + fmt2(a.score.value) + ")")
  }

  function RouteOpusFirst(r: Router, query: string, a: RouteInput, currentCost: real, forceLocal: bool,
                          fmt2: real -> string): (d: Result<RoutingDecision>)
    ensures d.Err? <==> RouteRaises(r, query, a, currentCost, forceLocal)
    ensures d.Ok? ==> d.value.modelId in {"local_fast", "grok_fast", "sonnet", "opus"}
    ensures forceLocal || CapForcesLocal(r, currentCost) ==> d.Ok? && d.value.modelId == "local_fast"
  {
    if RouteRaises(r, query, a, currentCost, forceLocal) then Err("TypeError")
    else if forceLocal || CapForcesLocal(r, currentCost) then Ok(LocalDecision("Force local due to cost cap or user preference"))
    else if StaysLocalEarly(query, a) then Ok(LocalDecision(EarlyLocalReason(query, a, fmt2)))
    else Ok(TierLadderOpusFirst(r, a, fmt2))
  }

  /**
   * With the Opus rule first, a very complex query that passes the local
   * rules and carries no planning or deep-reasoning tag goes to Opus whenever
   * an Opus connector is configured.
   */
  lemma VeryComplexGoesToOpus(r: Router, query: string, a: RouteInput, currentCost: real, fmt2: real -> string)
    requires !CapForcesLocal(r, currentCost) && !StaysLocalEarly(query, a)
    requires !Tagged(a, PlanningTags) && !Tagged(a, DeepTags) && AtLeast(a, 0.9)
    requires !a.intentTags.Unsearchable? && !a.capabilities.Unsearchable?
    requires FindConnector(r.external, "anthropic/claude-opus-4.1").Some?
    ensures RouteOpusFirst(r, query, a, currentCost, false, fmt2).Ok?
    ensures RouteOpusFirst(r, query, a, currentCost, false, fmt2).value.modelId == "opus"
  {
    OpusFirstReachesLadder(r, query, a, currentCost, fmt2);
    OpusFirstLadderOpus(r, a, fmt2);
  }

  /** Past the cost gate and the early local rules, the Opus-first routing is its tier ladder. */
  lemma OpusFirstReachesLadder(r: Router, query: string, a: RouteInput, currentCost: real, fmt2: real -> string)
    requires !CapForcesLocal(r, currentCost) && !StaysLocalEarly(query, a)
    requires !a.intentTags.Unsearchable? && !a.capabilities.Unsearchable?
    requires !(a.score.None? && ScoreCompared(query, a))
    ensures RouteOpusFirst(r, query, a, currentCost, false, fmt2) == Ok(TierLadderOpusFirst(r, a, fmt2))
  {
    assert !RouteRaises(r, query, a, currentCost, false);
  }

  /** The Opus-first ladder sends an untagged score of 0.9 or more to a configured Opus. */
  lemma OpusFirstLadderOpus(r: Router, a: RouteInput, fmt2: real -> string)
    requires !Tagged(a, PlanningTags) && !Tagged(a, DeepTags) && AtLeast(a, 0.9)
    requires FindConnector(r.external, "anthropic/claude-opus-4.1").Some?
    ensures TierLadderOpusFirst(r, a, fmt2).modelId == "opus"
  {
    assert TierLadderOpusFirst(r, a, fmt2) == ExternalDecision(r, "opus", "Critical task requires Claude Opus");
    OpusConfigured(r, "opus", "Critical task requires Claude Opus");
  }

  /** An external decision for the Opus tier stays on Opus when its connector is configured. */
  lemma OpusConfigured(r: Router, tier: string, reasoning: string)
    requires tier == "opus" && FindConnector(r.external, "anthropic/claude-opus-4.1").Some?
    ensures ExternalDecision(r, tier, reasoning).modelId == tier
  {
    assert TierInfo(tier) == Some(("anthropic/claude-opus-4.1", 0.05));
  }

  /** Both ladders agree on every query whose score is not 0.75 or more. */
  lemma LaddersAgreeBelowThreshold(r: Router, query: string, a: RouteInput, currentCost: real, forceLocal: bool,
                                   fmt2: real -> string)
    requires !AtLeast(a, 0.75)
    ensures RouteOpusFirst(r, query, a, currentCost, forceLocal, fmt2) == Route(r, query, a, currentCost, forceLocal, fmt2)
  {
  }
}
