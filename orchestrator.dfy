// The orchestrator's decision helpers: the cost-aware four-tier routing,
// the per-capability tool runs, the prompt assembly and the explicit mode
// override. Connectors are named by their key in `external_connectors`;
// the cost tracker and the capability spec are the models of their own
// modules. Python's `str()` of a JSON value is the parameter `show`.
module Orchestrator {
  import opened Wrappers
  import opened Json
  import opened Text
  import opened BaseTool
  import opened ToolInvocation
  import opened CostTracker
  import opened CapabilitySpecs
  import Conversation

  // ---------------------------------------------------------------------
  // Routing

  const GrokCost: real := 0.001
  const SonnetCost: real := 0.005
  const OpusCost: real := 0.02

  /** The spec id the local tier consults. */
  const LocalSpecId: string := "granite4-micro"

  /** The model ids a routing decision can name. */
  predicate KnownModel(id: string)
  {
    id == "local" || id == "grok-fast" || id == "claude-sonnet" || id == "claude-opus"
  }

  /** The estimate the routing passes to `can_proceed` for an external model. */
  function EstimateFor(id: string): real
  {
    if id == "grok-fast" then GrokCost else if id == "claude-sonnet" then SonnetCost else OpusCost
  }

  /** `can_proceed(session_id, estimated_cost=…, is_critical=…)` says yes. */
  predicate Approved(tracker: Tracker, sessionId: string, cost: real, critical: bool)
    reads tracker
  {
    tracker.CanProceed(sessionId, cost, critical).0
  }

  /**
   * Tier 1. With the local spec: the complexity is within its range, the spec
   * prefers the local model, or the soft cap is reached. Without it: a score
   * below 0.5, or below 0.85 once the soft cap is reached.
   */
  predicate LocalFirst(tracker: Tracker, spec: Option<Spec>, score: real, sessionId: string, capabilities: seq<string>)
    reads tracker
  {
    var soft := tracker.IsSoftCapReached(Some(sessionId));
    if spec.Some? then
      CanHandle(spec.value, score, |capabilities| > 0)
      || ShouldPrefer(spec.value, score, "web_search" in capabilities, "code_exec" in capabilities)
      || soft
    else
      score < 0.5 || (soft && score < 0.85)
  }

  /** The critical cascade after Opus: Sonnet, then Grok Fast, each as a critical query, then local. */
  function CriticalCascade(tracker: Tracker, external: set<string>, sessionId: string): (id: string)
    reads tracker
    ensures id == "local" || id == "claude-sonnet" || id == "grok-fast"
    ensures id != "local" ==> id in external && Approved(tracker, sessionId, EstimateFor(id), true)
    ensures id == "local" <==>
      !("claude-sonnet" in external && Approved(tracker, sessionId, SonnetCost, true))
      && !("grok-fast" in external && Approved(tracker, sessionId, GrokCost, true))
  {
    if "claude-sonnet" in external && Approved(tracker, sessionId, SonnetCost, true) then "claude-sonnet"
    else if "grok-fast" in external && Approved(tracker, sessionId, GrokCost, true) then "grok-fast"
    else "local"
  }

  /** `_make_routing_decision`, returning the model id; the connector is the one configured under that id. */
  function MakeRoutingDecision(tracker: Tracker, spec: Option<Spec>, external: set<string>, score: real,
                               sessionId: string, capabilities: seq<string>): (id: string)
    reads tracker
    ensures KnownModel(id)
    ensures id != "local" ==> id in external
    ensures id != "local" ==>
      Approved(tracker, sessionId, EstimateFor(id), false) || Approved(tracker, sessionId, EstimateFor(id), true)
    ensures tracker.IsHardCapReached(Some(sessionId)) ==> id == "local"
    ensures LocalFirst(tracker, spec, score, sessionId, capabilities) ==> id == "local"
  {
    if tracker.IsHardCapReached(Some(sessionId)) then "local"
    else if LocalFirst(tracker, spec, score, sessionId, capabilities) then "local"
    else if score < 0.7 && "grok-fast" in external then
      if Approved(tracker, sessionId, GrokCost, false) then "grok-fast" else "local"
    else if score < 0.85 && "claude-sonnet" in external then
      if Approved(tracker, sessionId, SonnetCost, false) then "claude-sonnet"
      else if "grok-fast" in external && Approved(tracker, sessionId, GrokCost, false) then "grok-fast"
      else "local"
    else if score < 0.85 && "grok-fast" in external && Approved(tracker, sessionId, GrokCost, false) then "grok-fast"
    else if "claude-opus" in external && Approved(tracker, sessionId, OpusCost, true) then "claude-opus"
    else CriticalCascade(tracker, external, sessionId)
  }

  /** With no external connector configured every query is answered locally. */
  lemma NoExternalsStaysLocal(tracker: Tracker, spec: Option<Spec>, score: real, sessionId: string, capabilities: seq<string>)
    ensures MakeRoutingDecision(tracker, spec, {}, score, sessionId, capabilities) == "local"
  {
  }

  /** A spec with the default ranges sends every score from 0 to 1 to the local model. */
  lemma DefaultSpecAlwaysLocal(tracker: Tracker, data: SpecData, external: set<string>, score: real,
                               sessionId: string, capabilities: seq<string>)
    requires data.optimalRange.None? && data.withToolsRange.None?
    requires 0.0 <= score <= 1.0
    ensures MakeRoutingDecision(tracker, Some(NewSpec(LocalSpecId, data)), external, score, sessionId, capabilities) == "local"
  {
    DefaultRangesHandleUnit(LocalSpecId, data, score, |capabilities| > 0);
  }

  /** Without a spec, any score below 0.5 stays local. */
  lemma SpeclessLowScoreLocal(tracker: Tracker, external: set<string>, score: real, sessionId: string, capabilities: seq<string>)
    requires score < 0.5
    ensures MakeRoutingDecision(tracker, None, external, score, sessionId, capabilities) == "local"
  {
  }

  /**
   * A moderate query past tier 1 with Grok Fast configured goes to Grok Fast
   * exactly when the budget allows it, and to the local model otherwise:
   * a refusal does not try Sonnet.
   */
  lemma ModerateQueryGrokOrLocal(tracker: Tracker, spec: Option<Spec>, external: set<string>, score: real,
                                 sessionId: string, capabilities: seq<string>)
    requires !tracker.IsHardCapReached(Some(sessionId)) && !LocalFirst(tracker, spec, score, sessionId, capabilities)
    requires score < 0.7 && "grok-fast" in external
    ensures var id := MakeRoutingDecision(tracker, spec, external, score, sessionId, capabilities);
      (id == "grok-fast" <==> Approved(tracker, sessionId, GrokCost, false)) && (id == "grok-fast" || id == "local")
  {
  }

  /** A complex query past tier 1 never reaches Opus while Sonnet is configured and affordable. */
  lemma ComplexQueryPrefersSonnet(tracker: Tracker, spec: Option<Spec>, external: set<string>, score: real,
                                  sessionId: string, capabilities: seq<string>)
    requires !tracker.IsHardCapReached(Some(sessionId)) && !LocalFirst(tracker, spec, score, sessionId, capabilities)
    requires 0.7 <= score < 0.85 && "claude-sonnet" in external && Approved(tracker, sessionId, SonnetCost, false)
    ensures MakeRoutingDecision(tracker, spec, external, score, sessionId, capabilities) == "claude-sonnet"
  {
  }

  /** A query at 0.85 or above goes to Opus when it is configured and the budget allows a critical query. */
  lemma CriticalQueryGetsOpus(tracker: Tracker, spec: Option<Spec>, external: set<string>, score: real,
                              sessionId: string, capabilities: seq<string>)
    requires !tracker.IsHardCapReached(Some(sessionId)) && !LocalFirst(tracker, spec, score, sessionId, capabilities)
    requires score >= 0.85 && "claude-opus" in external && Approved(tracker, sessionId, OpusCost, true)
    ensures MakeRoutingDecision(tracker, spec, external, score, sessionId, capabilities) == "claude-opus"
  {
  }

  datatype Connector = Local | External(id: string)

  /** `_select_connector`: only the "external_opus" suggestion with Opus configured leaves the local connector. */
  function SelectConnector(routing: string, external: set<string>): (c: Connector)
    ensures c.External? <==> routing == "external_opus" && "claude-opus" in external
    ensures c.External? ==> c.id == "claude-opus"
  {
    if routing == "local" then Local
    else if routing == "external_opus" && "claude-opus" in external then External("claude-opus")
    else Local
  }

  // ---------------------------------------------------------------------
  // Tool execution

  datatype QueryInfo = QueryInfo(queryId: string, sessionId: string, rawText: string, requiredCapabilities: seq<string>)

  /** The code generator: whether a query is recognised, and the code it writes (`None` or "" on failure). */
  datatype CodeGenerator = CodeGenerator(canAutoGenerate: string -> bool, generate: string -> Option<string>)

  /** The uuid and timestamp of the record made for the capability at a position. */
  type Stamps = nat -> (string, string)

  const UnavailableError: string := "Tool not available (disabled or not configured)"

  /** The parameters a capability's tool is called with; `None` skips the capability. */
  function ToolParameters(q: QueryInfo, capability: string, gen: CodeGenerator): (p: Option<seq<(string, Json)>>)
    ensures capability == "web_search" ==> p == Some([("query", JStr(q.rawText))])
    ensures capability == "code_exec" && !gen.canAutoGenerate(q.rawText) ==> p.None?
    ensures capability == "code_exec" && p.Some? ==>
      gen.generate(q.rawText).Some? && p.value == [("code", JStr(gen.generate(q.rawText).value)), ("auto_generated", JBool(true))]
      && gen.generate(q.rawText).value != ""
  {
    if capability == "web_search" then Some([("query", JStr(q.rawText))])
    else if capability == "rag" then
      Some([("action", JStr("search")), ("user_id", JStr(q.sessionId)), ("query", JStr(q.rawText)), ("top_k", JNum(3.0))])
    else if capability == "code_exec" then
      if gen.canAutoGenerate(q.rawText) then
        var code := gen.generate(q.rawText);
        if code.Some? && code.value != "" then Some([("code", JStr(code.value)), ("auto_generated", JBool(true))])
        else None
      else None
    else Some([])
  }

  /** The record of a capability with no configured tool. */
  function UnavailableRecord(q: QueryInfo, capability: string, stamp: (string, string)): Invocation
  {
    Invocation(stamp.0, q.queryId, capability, stamp.1, [], None, Some(UnavailableError), 0, "failed", false)
  }

  /** The record of a tool run: the data is kept only on success. */
  function RunRecord(q: QueryInfo, capability: string, parameters: seq<(string, Json)>, res: ToolResult,
                     stamp: (string, string)): Invocation
  {
    var ok := res.status == Success;
    Invocation(stamp.0, q.queryId, capability, stamp.1, parameters, if ok then res.data else None,
      res.error, res.executionTimeMs, if ok then "success" else "failed", res.fallbackUsed)
  }

  /** What one capability adds: nothing, one record, or the exception that ends the loop. */
  function Outcome(q: QueryInfo, capability: string, tools: seq<(string, Tool)>, gen: CodeGenerator,
                   stamp: (string, string)): (r: Result<seq<Invocation>>)
    ensures r.Ok? ==> |r.value| <= 1
    ensures !HasKey(tools, capability) ==> r == Ok([UnavailableRecord(q, capability, stamp)])
  {
    var tool := Lookup(tools, capability);
    if tool.None? then Ok([UnavailableRecord(q, capability, stamp)])
    else
      var parameters := ToolParameters(q, capability, gen);
      if parameters.None? then Ok([])
      else
        var res := ExecuteWithFallback(tool.value, parameters.value);
        if res.Err? then Err(res.error)
        else Ok([RunRecord(q, capability, parameters.value, res.value, stamp)])
  }

  /** The records of the capabilities in order, or the first exception a tool raised. */
  function Invocations(q: QueryInfo, capabilities: seq<string>, tools: seq<(string, Tool)>, gen: CodeGenerator,
                       stamps: Stamps): (r: Result<seq<Invocation>>)
    ensures r.Ok? ==> |r.value| <= |capabilities|
  {
    if capabilities == [] then Ok([])
    else
      var n := |capabilities| - 1;
      var prev := Invocations(q, capabilities[..n], tools, gen, stamps);
      if prev.Err? then prev
      else
        var next := Outcome(q, capabilities[n], tools, gen, stamps(n));
        if next.Err? then Err(next.error) else Ok(prev.value + next.value)
  }

  /** `_execute_tools`: one pass over the required capabilities. */
  method ExecuteTools(q: QueryInfo, tools: seq<(string, Tool)>, gen: CodeGenerator, stamps: Stamps)
    returns (r: Result<seq<Invocation>>)
    ensures r == Invocations(q, q.requiredCapabilities, tools, gen, stamps)
  {
    var caps := q.requiredCapabilities;
    var invocations: seq<Invocation> := [];
    var i := 0;
    while i < |caps|
      invariant 0 <= i <= |caps|
      invariant Invocations(q, caps[..i], tools, gen, stamps) == Ok(invocations)
    {
      var stamp := stamps(i);
      var capability := caps[i];
      ghost var next := Outcome(q, capability, tools, gen, stamp);
      ghost var before := invocations;
      InvocationsSnoc(q, caps, tools, gen, stamps, i, before);
      var tool := Lookup(tools, capability);
      if tool.None? {
        assert next == Ok([UnavailableRecord(q, capability, stamp)]);
        invocations := invocations + [UnavailableRecord(q, capability, stamp)];
      } else {
        var parameters := ToolParameters(q, capability, gen);
        if parameters.Some? {
          var res := ExecuteWithFallback(tool.value, parameters.value);
          if res.Err? {
            assert next.Err?;
            InvocationsFailurePersists(q, caps, tools, gen, stamps, i + 1);
            return Err(res.error);
          }
          assert next == Ok([RunRecord(q, capability, parameters.value, res.value, stamp)]);
          invocations := invocations + [RunRecord(q, capability, parameters.value, res.value, stamp)];
        } else {
          assert next == Ok([]);
        }
      }
      assert next.Ok? && invocations == before + next.value;
      i := i + 1;
    }
    assert caps[..i] == caps;
    return Ok(invocations);
  }

  /** One more capability extends the records by its outcome. */
  lemma InvocationsSnoc(q: QueryInfo, capabilities: seq<string>, tools: seq<(string, Tool)>,
                        gen: CodeGenerator, stamps: Stamps, i: nat, before: seq<Invocation>)
    requires i < |capabilities| && Invocations(q, capabilities[..i], tools, gen, stamps) == Ok(before)
    ensures var next := Outcome(q, capabilities[i], tools, gen, stamps(i));
      Invocations(q, capabilities[..i + 1], tools, gen, stamps)
      == if next.Err? then Err(next.error) else Ok(before + next.value)
  {
    assert capabilities[..i + 1][..i] == capabilities[..i];
    assert capabilities[..i + 1][i] == capabilities[i];
  }

  /** Once a tool raises, the whole pass raises with that exception. */
  lemma {:induction false} InvocationsFailurePersists(q: QueryInfo, capabilities: seq<string>, tools: seq<(string, Tool)>,
                                                      gen: CodeGenerator, stamps: Stamps, i: nat)
    requires i <= |capabilities| && Invocations(q, capabilities[..i], tools, gen, stamps).Err?
    ensures Invocations(q, capabilities, tools, gen, stamps) == Invocations(q, capabilities[..i], tools, gen, stamps)
    decreases |capabilities| - i
  {
    if i < |capabilities| {
      assert capabilities[..i + 1][..i] == capabilities[..i];
      InvocationsFailurePersists(q, capabilities, tools, gen, stamps, i + 1);
    } else {
      assert capabilities[..i] == capabilities;
    }
  }

  /** Every record names one of the capabilities and the query, and is a success only when a configured tool succeeded. */
  predicate WellFormedRecord(q: QueryInfo, capabilities: seq<string>, tools: seq<(string, Tool)>, v: Invocation)
  {
    v.toolName in capabilities && v.queryMessageId == q.queryId
    && (v.status == "success" || v.status == "failed")
    && (v.status == "success" ==> HasKey(tools, v.toolName))
    && (v.result.Some? ==> v.status == "success")
  }

  lemma {:induction false} InvocationsWellFormed(q: QueryInfo, capabilities: seq<string>, tools: seq<(string, Tool)>,
                                                 gen: CodeGenerator, stamps: Stamps)
    ensures var r := Invocations(q, capabilities, tools, gen, stamps);
      r.Ok? ==> forall v :: v in r.value ==> WellFormedRecord(q, capabilities, tools, v)
  {
    if capabilities != [] {
      var n := |capabilities| - 1;
      var init := capabilities[..n];
      InvocationsWellFormed(q, init, tools, gen, stamps);
      var prev := Invocations(q, init, tools, gen, stamps);
      if prev.Ok? {
        forall v | v in prev.value
          ensures WellFormedRecord(q, capabilities, tools, v)
        {
          assert WellFormedRecord(q, init, tools, v);
          assert v.toolName in capabilities;
        }
      }
    }
  }

  /** A capability without a tool is recorded as failed, with the "not available" error and no parameters. */
  lemma {:induction false} UnavailableRecorded(q: QueryInfo, capabilities: seq<string>, tools: seq<(string, Tool)>,
                                               gen: CodeGenerator, stamps: Stamps, k: nat)
    requires k < |capabilities| && !HasKey(tools, capabilities[k])
    ensures var r := Invocations(q, capabilities, tools, gen, stamps);
      r.Ok? ==> UnavailableRecord(q, capabilities[k], stamps(k)) in r.value
  {
    var n := |capabilities| - 1;
    var init := capabilities[..n];
    if k < n {
      assert init[k] == capabilities[k];
      UnavailableRecorded(q, init, tools, gen, stamps, k);
    }
  }

  /** Code execution without a recognised pattern adds no record. */
  lemma CodeExecWithoutGenerationSkipped(q: QueryInfo, tools: seq<(string, Tool)>, gen: CodeGenerator, stamp: (string, string))
    requires HasKey(tools, "code_exec") && !gen.canAutoGenerate(q.rawText)
    ensures Outcome(q, "code_exec", tools, gen, stamp) == Ok([])
  {
  }

  // ---------------------------------------------------------------------
  // Tool results in the prompt

  /** `citation.get(key, 'N/A')`, shown with `str()`. */
  function CitationField(c: seq<(string, Json)>, key: string, show: Json -> string): string
  {
    var v := Lookup(c, key);
    if v.Some? then Shown(v.value, show) else "N/A"
  }

  /** One numbered citation: title, snippet and source on three lines. */
  function CitationText(c: seq<(string, Json)>, n: nat, show: Json -> string): (r: string)
    ensures StartsWith(r, NatToString(n) + ". ")
  {
    var head := NatToString(n) + ". ";
    var r := head + (CitationField(c, "title", show) + "\n   " + CitationField(c, "snippet", show)
      + "\n   Source: " + CitationField(c, "url", show));
    assert r[..|head|] == head;
    r
  }

  /** The first three citations, numbered from 1; `None` when one of them is not a dict (Python raises). */
  function CitationLines(citations: seq<Json>, show: Json -> string): (r: Option<seq<string>>)
    ensures r.Some? ==> |r.value| == if |citations| < 3 then |citations| else 3
    ensures r.Some? ==> forall k :: 0 <= k < |r.value| ==> StartsWith(r.value[k], NatToString(k + 1) + ". ")
  {
    var top := if |citations| < 3 then citations else citations[..3];
    if forall k :: 0 <= k < |top| ==> top[k].JObj? then
      Some(seq(|top|, k requires 0 <= k < |top| => CitationText(top[k].fields, k + 1, show)))
    else None
  }

  const AttributeError: string := "AttributeError"
  const TypeError: string := "TypeError"
  const WebHeading: string := "\nWeb Search Results:"

  /**
   * The lines a web search adds: a heading and its numbered citations, read
   * from `result["data"]["citations"][:3]`. Python raises AttributeError
   * when the result is missing, the data is not a dict, or a citation has no
   * `get` (a string's characters, for instance), and TypeError when the
   * citations cannot be sliced (None, a number, a boolean or a dict). An
   * empty string slices to nothing, as an empty list does.
   */
  function WebSearchLines(result: Option<seq<(string, Json)>>, show: Json -> string): (r: Result<seq<string>>)
    ensures r.Ok? ==> 1 <= |r.value| <= 4 && r.value[0] == WebHeading
  {
    if result.None? then Err(AttributeError)
    else
      var data := GetOr(result.value, "data", JObj([]));
      if !data.JObj? then Err(AttributeError)
      else
        match GetOr(data.fields, "citations", JArr([]))
        case JArr(items) =>
          var lines := CitationLines(items, show);
          if lines.None? then Err(AttributeError) else Ok([WebHeading] + lines.value)
        case JStr(text) => if text == "" then Ok([WebHeading]) else Err(AttributeError)
        case _ => Err(TypeError)
  }

  /** The web-search lines by the kind of the citations value. */
  lemma WebSearchCitations(result: seq<(string, Json)>, show: Json -> string)
    requires Lookup(result, "data").Some? && Lookup(result, "data").value.JObj?
    ensures var citations := GetOr(Lookup(result, "data").value.fields, "citations", JArr([]));
      var r := WebSearchLines(Some(result), show);
      (citations == JArr([]) || citations == JStr("") ==> r == Ok([WebHeading]))
      && (citations.JStr? && citations.s != "" ==> r == Err(AttributeError))
      && (!citations.JArr? && !citations.JStr? ==> r == Err(TypeError))
      && (citations.JArr? && (forall k :: 0 <= k < |citations.items| ==> citations.items[k].JObj?) ==>
            r.Ok? && |r.value| == 1 + (if |citations.items| < 3 then |citations.items| else 3))
  {
    var lines := CitationLines([], show);
    assert lines.Some? && [WebHeading] + lines.value == [WebHeading];
  }

  /** The lines one invocation adds: none unless it succeeded. */
  function InvocationLines(v: Invocation, show: Json -> string): (r: Result<seq<string>>)
    ensures !IsSuccessful(v) ==> r == Ok([])
  {
    if !IsSuccessful(v) then Ok([])
    else if v.toolName == "web_search" then WebSearchLines(v.result, show)
    else Ok(["\n" + v.toolName + ": " + show(OptObj(v.result))])
  }

  /** All lines, in invocation order, or the first exception. */
  function FormattedLines(invocations: seq<Invocation>, show: Json -> string): Result<seq<string>>
  {
    if invocations == [] then Ok([])
    else
      var n := |invocations| - 1;
      var prev := FormattedLines(invocations[..n], show);
      if prev.Err? then prev
      else
        var next := InvocationLines(invocations[n], show);
        if next.Err? then next else Ok(prev.value + next.value)
  }

  /** `_format_tool_results`: the lines joined by newlines. */
  method FormatToolResults(invocations: seq<Invocation>, show: Json -> string) returns (r: Result<string>)
    ensures r.Ok? <==> FormattedLines(invocations, show).Ok?
    ensures r.Ok? ==> r.value == Join(FormattedLines(invocations, show).value, "\n")
  {
    var formatted: seq<string> := [];
    var i := 0;
    while i < |invocations|
      invariant 0 <= i <= |invocations|
      invariant FormattedLines(invocations[..i], show) == Ok(formatted)
    {
      assert invocations[..i + 1][..i] == invocations[..i];
      var lines := InvocationLines(invocations[i], show);
      if lines.Err? {
        assert invocations[..i + 1] == invocations[..i] + [invocations[i]];
        FailurePersists(invocations, show, i + 1);
        return Err(lines.error);
      }
      formatted := formatted + lines.value;
      i := i + 1;
    }
    assert invocations[..i] == invocations;
    return Ok(Join(formatted, "\n"));
  }

  /** Once a prefix raises, so does every longer prefix. */
  lemma {:induction false} FailurePersists(invocations: seq<Invocation>, show: Json -> string, i: nat)
    requires i <= |invocations| && FormattedLines(invocations[..i], show).Err?
    ensures FormattedLines(invocations, show).Err?
    decreases |invocations| - i
  {
    if i < |invocations| {
      assert invocations[..i + 1][..i] == invocations[..i];
      FailurePersists(invocations, show, i + 1);
    } else {
      assert invocations[..i] == invocations;
    }
  }

  /** Without a successful invocation there is nothing to format. */
  lemma {:induction false} NoSuccessNoLines(invocations: seq<Invocation>, show: Json -> string)
    requires forall k :: 0 <= k < |invocations| ==> !IsSuccessful(invocations[k])
    ensures FormattedLines(invocations, show) == Ok([])
  {
    if invocations != [] {
      var n := |invocations| - 1;
      assert forall k :: 0 <= k < n ==> invocations[..n][k] == invocations[k];
      NoSuccessNoLines(invocations[..n], show);
      assert InvocationLines(invocations[n], show) == Ok([]);
      var prev := FormattedLines(invocations[..n], show);
      assert prev.value + [] == [];
    }
  }

  // ---------------------------------------------------------------------
  // Prompt assembly

  /** The prompt's messages are the conversation's role/content messages. */
  type Message = Conversation.Message

  const SystemPrompt: string :=
    "You are a helpful AI assistant. Provide clear, concise, and accurate responses. For simple questions, keep answers to 1-2 sentences unless more detail is requested."

  /** The tool-results message: present when there were invocations and their text is not empty. */
  function ToolMessage(toolText: Option<string>): seq<Message>
  {
    if toolText.Some? && toolText.value != "" then [Conversation.Message("system", "Tool Results:\n" + toolText.value)] else []
  }

  /** The messages before the query: system prompt, context, tool results. */
  function Preamble(context: seq<Message>, toolText: Option<string>): (m: seq<Message>)
    ensures |m| >= 1 && m[0] == Conversation.Message("system", SystemPrompt)
  {
    [Conversation.Message("system", SystemPrompt)] + context + ToolMessage(toolText)
  }

  /** The whole prompt: the query is appended unless the last message already carries it. */
  function Prompt(queryText: string, context: seq<Message>, toolText: Option<string>): seq<Message>
  {
    var pre := Preamble(context, toolText);
    if pre[|pre| - 1].content != queryText then pre + [Conversation.Message("user", queryText)] else pre
  }

  /**
   * `_prepare_messages`: `toolText` is the formatted text when there were
   * invocations, `None` when there were none; an exception while formatting
   * is passed on.
   */
  method PrepareMessages(queryText: string, context: seq<Message>, invocations: seq<Invocation>, show: Json -> string)
    returns (r: Result<seq<Message>>)
    ensures r.Err? <==> invocations != [] && FormattedLines(invocations, show).Err?
    ensures r.Ok? ==> r.value == Prompt(queryText, context,
      if invocations == [] then None else Some(Join(FormattedLines(invocations, show).value, "\n")))
  {
    var messages := [Conversation.Message("system", SystemPrompt)];
    var i := 0;
    while i < |context|
      invariant 0 <= i <= |context|
      invariant messages == [Conversation.Message("system", SystemPrompt)] + context[..i]
    {
      messages := messages + [context[i]];
      i := i + 1;
    }
    assert context[..i] == context;
    var toolText: Option<string> := None;
    if invocations != [] {
      var text := FormatToolResults(invocations, show);
      if text.Err? {
        return Err(text.error);
      }
      toolText := Some(text.value);
      if text.value != "" {
        messages := messages + [Conversation.Message("system", "Tool Results:\n" + text.value)];
      }
    }
    if messages[|messages| - 1].content != queryText {
      messages := messages + [Conversation.Message("user", queryText)];
    }
    return Ok(messages);
  }

  /** The prompt opens with the system prompt, keeps the context in order, and ends with the query. */
  lemma PromptShape(queryText: string, context: seq<Message>, toolText: Option<string>)
    ensures var m := Prompt(queryText, context, toolText);
      m[0] == Conversation.Message("system", SystemPrompt)
      && m[1..|context| + 1] == context
      && m[|m| - 1].content == queryText
      && |m| <= |context| + 3
  {
    var pre := Preamble(context, toolText);
    assert pre[1..|context| + 1] == context;
  }

  /** The query is added as a user message exactly when the last message before it differs from it. */
  lemma QueryAddedUnlessRepeated(queryText: string, context: seq<Message>)
    ensures var m := Prompt(queryText, context, None);
      (m[|m| - 1] == Conversation.Message("user", queryText) && |m| == |context| + 2)
      <==> (if context == [] then SystemPrompt else context[|context| - 1].content) != queryText
  {
    var pre := Preamble(context, None);
    assert pre == [Conversation.Message("system", SystemPrompt)] + context;
  }

  // ---------------------------------------------------------------------
  // Mode override

  const ConcisePhrases: seq<string> :=
    ["just the quick answer", "give me the short version", "brief answer", "tldr", "in a nutshell", "quick summary"]
  const ExpertPhrases: seq<string> :=
    ["explain in detail", "give me a detailed", "break it down", "step by step", "comprehensive analysis"]
  const AdvisorPhrases: seq<string> := ["help me decide", "what should i do", "advise me", "guide me"]

  predicate AsksConcise(lowered: string) { ContainsAny(lowered, ConcisePhrases) }
  predicate AsksExpert(lowered: string) { ContainsAny(lowered, ExpertPhrases) }
  predicate AsksAdvisor(lowered: string) { ContainsAny(lowered, AdvisorPhrases) }

  /** `_detect_mode_override`: concise phrases win over expert ones, which win over advisor ones. */
  function DetectModeOverride(queryText: string): (r: Option<string>)
    ensures r == Some("concise") <==> AsksConcise(Lower(queryText))
    ensures r == Some("expert") <==> !AsksConcise(Lower(queryText)) && AsksExpert(Lower(queryText))
    ensures r == Some("advisor") <==>
      !AsksConcise(Lower(queryText)) && !AsksExpert(Lower(queryText)) && AsksAdvisor(Lower(queryText))
    ensures r.None? <==>
      !AsksConcise(Lower(queryText)) && !AsksExpert(Lower(queryText)) && !AsksAdvisor(Lower(queryText))
  {
    var t := Lower(queryText);
    if AsksConcise(t) then Some("concise")
    else if AsksExpert(t) then Some("expert")
    else if AsksAdvisor(t) then Some("advisor")
    else None
  }

  /** The override ignores letter case. */
  lemma ModeOverrideIgnoresCase(queryText: string)
    ensures DetectModeOverride(Lower(queryText)) == DetectModeOverride(queryText)
  {
    LowerIdempotent(queryText);
  }
}
