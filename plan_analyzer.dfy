// The planner: asks the local model for a JSON plan, decodes it layer by
// layer, fills every missing field with its default, and falls back to a
// plan built from the detected capabilities whenever anything goes wrong.
// The model call is the parameter `generate` (None meaning it raised), the
// plan id (a fresh uuid4) is the parameter `planId`, and `json.loads` is
// `parse`.
module PlanAnalyzer {
  import opened Wrappers
  import opened Json
  import opened Text
  import opened Seqs
  import opened PlanTypes
  import opened JsonExtract
  import QueryAnalyzer

  // ---- the prompt ----

  /**
   * One `role: content` line of a history message, the content cut to 200
   * (a string to 200 characters, a list to 200 items). None where Python
   * raises before the try: a message that is not a dict (no `get`), or a
   * content that cannot be sliced (None, a number, a boolean, a dict).
   */
  function HistoryLine(m: Json, show: Json -> string): (r: Option<string>)
    ensures r.None? <==> !m.JObj? || !(GetOr(m.fields, "content", JStr("")).JStr? || GetOr(m.fields, "content", JStr("")).JArr?)
  {
    if !m.JObj? then None
    else
      var role := Shown(GetOr(m.fields, "role", JStr("unknown")), show);
      match GetOr(m.fields, "content", JStr(""))
      case JStr(text) => Some(role + ": " + Take(text, 200) + "\n")
      case JArr(xs) => Some(role + ": " + show(JArr(if |xs| <= 200 then xs else xs[..200])) + "\n")
      case _ => None
  }

  /** The lines of the messages, when none of them raises. */
  function HistoryLines(ms: seq<Json>, show: Json -> string): (r: Option<seq<string>>)
    ensures r.Some? <==> forall i :: 0 <= i < |ms| ==> HistoryLine(ms[i], show).Some?
    ensures r.Some? ==> |r.value| == |ms| && forall i :: 0 <= i < |ms| ==> r.value[i] == HistoryLine(ms[i], show).value
  {
    if forall i :: 0 <= i < |ms| ==> HistoryLine(ms[i], show).Some? then
      Some(seq(|ms|, i requires 0 <= i < |ms| => HistoryLine(ms[i], show).value))
    else None
  }

  function Concat(parts: seq<string>): string
  {
    if parts == [] then "" else parts[0] + Concat(parts[1..])
  }

  /**
   * The user message sent to the planner: the query, preceded by the last
   * three history entries when there is any history; None where reading
   * one of those entries raises.
   */
  function UserContent(query: string, history: seq<Json>, show: Json -> string): (r: Option<string>)
  {
    if history == [] then Some(query)
    else
      var lines := HistoryLines(LastN(history, 3), show);
      if lines.None? then None
      else Some("\n\nRecent conversation:\n" + Concat(lines.value) + "\nCurrent query: " + query)
  }

  /**
   * Only the last three history entries are read: they alone decide whether
   * building the prompt raises, and each gives one line.
   */
  lemma UserContentHistory(query: string, history: seq<Json>, show: Json -> string)
    requires history != []
    ensures var shown := LastN(history, 3);
      |shown| <= 3 && shown == history[|history| - |shown|..]
      && (UserContent(query, history, show).None? <==> exists i :: 0 <= i < |shown| && HistoryLine(shown[i], show).None?)
      && (UserContent(query, history, show).Some? ==>
            UserContent(query, history, show).value
              == "\n\nRecent conversation:\n" + Concat(HistoryLines(shown, show).value) + "\nCurrent query: " + query)
  {
  }

  /** A message with a string content gives its role and at most 200 characters of that content. */
  lemma HistoryLineText(m: Json, show: Json -> string)
    requires m.JObj? && GetOr(m.fields, "content", JStr("")).JStr?
    ensures var text := GetOr(m.fields, "content", JStr("")).s;
      HistoryLine(m, show) == Some(Shown(GetOr(m.fields, "role", JStr("unknown")), show) + ": " + Take(text, 200) + "\n")
      && |Take(text, 200)| <= 200
  {
  }

  /** A malformed entry older than the last three is never read. */
  lemma OlderEntriesIgnored(query: string, history: seq<Json>, older: seq<Json>, show: Json -> string)
    requires |history| >= 3
    ensures UserContent(query, older + history, show) == UserContent(query, history, show)
  {
    var all := older + history;
    assert LastN(all, 3) == LastN(history, 3) by {
      assert all[|all| - 3..] == history[|history| - 3..];
    }
  }

  lemma NoHistoryContent(query: string, show: Json -> string)
    ensures UserContent(query, [], show) == Some(query)
  {
  }

  // ---- decoding a plan dict ----

  /** A list of strings: a JSON array whose items are all strings. */
  function StrArray(v: Json): (r: Option<seq<string>>)
    ensures r.Some? ==> v.JArr? && StrList(r.value) == v.items
  {
    if v.JArr? && forall i :: 0 <= i < |v.items| ==> v.items[i].JStr? then
      var xs := seq(|v.items|, i requires 0 <= i < |v.items| => v.items[i].s);
      assert StrList(xs) == v.items;
      Some(xs)
    else None
  }

  /** A string-valued field read with a default; a value of another type cannot be held by the record. */
  function StrField(d: seq<(string, Json)>, key: string, default: string): (r: Result<string>)
    ensures !HasKey(d, key) ==> r == Ok(default)
    ensures HasKey(d, key) ==> (r.Ok? <==> Lookup(d, key).value.JStr?)
    ensures HasKey(d, key) && r.Ok? ==> Lookup(d, key).value == JStr(r.value)
  {
    var v: Option<Json> := Lookup(d, key);
    if v.None? then Ok(default)
    else if v.value.JStr? then Ok(v.value.s)
    else Err("field " + key + " is not a string")
  }

  /** `d.get(key)` for an optional string: missing or null is None. */
  function OptStrField(d: seq<(string, Json)>, key: string): (r: Result<Option<string>>)
    ensures r == Ok(None) <==> Lookup(d, key).None? || Lookup(d, key) == Some(JNull)
    ensures (exists s :: r == Ok(Some(s))) <==> Lookup(d, key).Some? && Lookup(d, key).value.JStr?
  {
    var v: Option<Json> := Lookup(d, key);
    if v.None? || v.value.JNull? then Ok(None)
    else if v.value.JStr? then Ok(Some(v.value.s))
    else Err("field " + key + " is not a string")
  }

  /** A list-of-strings field with default `[]`. */
  function StrListField(d: seq<(string, Json)>, key: string): (r: Result<seq<string>>)
    ensures !HasKey(d, key) ==> r == Ok([])
  {
    match Lookup(d, key)
    case None => Ok([])
    case Some(v) => if StrArray(v).Some? then Ok(StrArray(v).value) else Err("field " + key + " is not a list of strings")
  }

  /** A flag read with a default; the executor only ever tests its truth value. */
  function FlagField(d: seq<(string, Json)>, key: string, default: bool): (r: bool)
    ensures !HasKey(d, key) ==> r == default
    ensures HasKey(d, key) ==> r == Truthy(Lookup(d, key).value)
  {
    match Lookup(d, key)
    case None => default
    case Some(v) => Truthy(v)
  }

  /** `plan_dict.get(key, default)` decoded by an enum, an invalid value becoming the fallback member. */
  function StepTypeOf(d: seq<(string, Json)>): (t: StepType)
    ensures ParseStepType(GetOr(d, "type", JStr("tool_call"))).Some? ==> t == ParseStepType(GetOr(d, "type", JStr("tool_call"))).value
    ensures ParseStepType(GetOr(d, "type", JStr("tool_call"))).None? ==> t == ToolCall
    ensures !HasKey(d, "type") ==> t == ToolCall
  {
    ParseStepType(GetOr(d, "type", JStr("tool_call"))).GetOr(ToolCall)
  }

  /** `PlanStep(...)` from one entry of `steps`; `index` is the number of steps already decoded. */
  function DictToStep(d: seq<(string, Json)>, index: nat): Result<PlanStep>
  {
    var id := StrField(d, "id", "step_" + NatToString(index));
    var tool := OptStrField(d, "tool");
    var model := OptStrField(d, "model");
    var description := StrField(d, "description", "");
    var input := GetOr(d, "input", JObj([]));
    var dependsOn := StrListField(d, "depends_on");
    if id.Err? then Err(id.error)
    else if tool.Err? then Err(tool.error)
    else if model.Err? then Err(model.error)
    else if description.Err? then Err(description.error)
    else if !input.JObj? then Err("field input is not a dict")
    else if dependsOn.Err? then Err(dependsOn.error)
    else Ok(PlanStep(id.value, StepTypeOf(d), tool.value, model.value, description.value,
                     input.fields, dependsOn.value, FlagField(d, "required", true),
                     FlagField(d, "can_skip_if_unavailable", false)))
  }

  /**
   * Step defaults: type TOOL_CALL unless a valid type is given, id
   * `step_<index>`, no tool or model, empty description, input and
   * dependencies, required, not skippable.
   */
  lemma DictToStepDefaults(d: seq<(string, Json)>, index: nat)
    requires DictToStep(d, index).Ok?
    ensures var r := DictToStep(d, index).value;
      r.stepType == StepTypeOf(d)
      && (!HasKey(d, "id") ==> r.id == "step_" + NatToString(index))
      && r.required == FlagField(d, "required", true)
      && r.canSkipIfUnavailable == FlagField(d, "can_skip_if_unavailable", false)
      && (!HasKey(d, "input") ==> r.input == [])
      && (!HasKey(d, "depends_on") ==> r.dependsOn == [])
      && (!HasKey(d, "description") ==> r.description == "")
      && (!HasKey(d, "tool") ==> r.tool.None?)
      && (!HasKey(d, "model") ==> r.model.None?)
  {
  }

  /** A step entry that only names its id and type decodes to the record with every other default. */
  lemma MinimalStepDict(id: string, t: StepType, index: nat)
    ensures DictToStep([("id", JStr(id)), ("type", JStr(StepTypeValue(t)))], index) == Ok(NewStep(id, t))
  {
    var d := [("id", JStr(id)), ("type", JStr(StepTypeValue(t)))];
    assert Lookup(d, "id") == Some(JStr(id));
    assert Lookup(d, "type") == Some(JStr(StepTypeValue(t)));
    assert !HasKey(d, "tool") && !HasKey(d, "model") && !HasKey(d, "description");
    assert !HasKey(d, "input") && !HasKey(d, "depends_on");
    assert !HasKey(d, "required") && !HasKey(d, "can_skip_if_unavailable");
  }

  /** The entries decoded one by one, each with its position as default id. */
  function DecodeSteps(dicts: seq<Json>): (r: seq<Result<PlanStep>>)
    requires forall i :: 0 <= i < |dicts| ==> dicts[i].JObj?
    ensures |r| == |dicts| && forall i :: 0 <= i < |dicts| ==> r[i] == DictToStep(dicts[i].fields, i)
  {
    seq(|dicts|, i requires 0 <= i < |dicts| => DictToStep(dicts[i].fields, i))
  }

  /** The loop of `_dict_to_plan`: the first entry that raises ends it. */
  function Collect<T>(rs: seq<Result<T>>): Result<seq<T>>
  {
    if rs == [] then Ok([])
    else if rs[0].Err? then Err(rs[0].error)
    else
      var rest := Collect(rs[1..]);
      if rest.Err? then Err(rest.error) else Ok([rs[0].value] + rest.value)
  }

  /** The loop succeeds exactly when every entry does, and then keeps all the values in order. */
  lemma {:induction false} CollectEach<T>(rs: seq<Result<T>>)
    ensures Collect(rs).Ok? <==> forall i :: 0 <= i < |rs| ==> rs[i].Ok?
    ensures Collect(rs).Ok? ==> |Collect(rs).value| == |rs| && forall i :: 0 <= i < |rs| ==> Collect(rs).value[i] == rs[i].value
  {
    if rs != [] {
      CollectEach(rs[1..]);
      if rs[0].Ok? && Collect(rs[1..]).Ok? {
        forall i | 0 <= i < |rs| ensures Collect(rs).value[i] == rs[i].value {
          if i > 0 { assert rs[1..][i - 1] == rs[i]; }
        }
      }
      if Collect(rs[1..]).Err? {
        var j :| 0 <= j < |rs[1..]| && rs[1..][j].Err?;
        assert rs[j + 1].Err?;
      }
    }
  }

  /**
   * `_dict_to_plan`: missing or invalid complexity is MODERATE, safety
   * NORMAL, step type TOOL_CALL; intent defaults to "unknown"; an entry
   * without id is named after its position. Err where the source would
   * raise (steps not iterable as dicts) or the value cannot be held in a
   * plan field (see the README).
   */
  function DictToPlan(d: seq<(string, Json)>, query: string, source: string, planId: string): (r: Result<Plan>)
    ensures r.Ok? ==> r.value.planId == planId && r.value.userQuery == query && r.value.source == source
    ensures r.Ok? ==> r.value.version == "1.0" && r.value.priority == "normal" && r.value.budget == DefaultBudget
    ensures r.Ok? ==> r.value.complexity == ParseComplexity(GetOr(d, "complexity", JStr("moderate"))).GetOr(Moderate)
    ensures r.Ok? ==> r.value.safety == ParseSafety(GetOr(d, "safety_level", JStr("normal"))).GetOr(Normal)
    ensures r.Ok? && !HasKey(d, "intent") ==> r.value.intent == "unknown"
    ensures r.Ok? && !HasKey(d, "steps") ==> r.value.steps == []
    ensures r.Ok? && !HasKey(d, "capabilities") ==> r.value.capabilities == []
  {
    var intent := StrField(d, "intent", "unknown");
    var caps := StrListField(d, "capabilities");
    var dicts := IterDicts(GetOr(d, "steps", JArr([])));
    if intent.Err? then Err(intent.error)
    else if caps.Err? then Err(caps.error)
    else if dicts.None? then Err("steps is not a list of dicts")
    else
      var steps := Collect(DecodeSteps(dicts.value));
      if steps.Err? then Err(steps.error)
      else Ok(Plan(planId, "1.0", query, source, intent.value,
                   ParseComplexity(GetOr(d, "complexity", JStr("moderate"))).GetOr(Moderate),
                   "normal",
                   ParseSafety(GetOr(d, "safety_level", JStr("normal"))).GetOr(Normal),
                   DefaultBudget, caps.value, steps.value))
  }

  /** Each decoded step is the decoding of the entry at its position, with that position as default id. */
  lemma DictToPlanSteps(d: seq<(string, Json)>, query: string, source: string, planId: string, k: nat)
    requires DictToPlan(d, query, source, planId).Ok?
    ensures var dicts := IterDicts(GetOr(d, "steps", JArr([])));
      dicts.Some? && |DictToPlan(d, query, source, planId).value.steps| == |dicts.value|
      && (k < |dicts.value| ==>
            DictToStep(dicts.value[k].fields, k).Ok?
            && DictToPlan(d, query, source, planId).value.steps[k] == DictToStep(dicts.value[k].fields, k).value)
  {
    CollectEach(DecodeSteps(IterDicts(GetOr(d, "steps", JArr([]))).value));
  }

  // ---- the fallback plan ----

  /** The code-execution step of the fallback plan. */
  function FallbackCodeStep(query: string): (s: PlanStep)
    ensures s.id == "code_exec_1" && s.stepType == ToolCall && s.tool == Some("code_exec")
  {
    PlanStep("code_exec_1", ToolCall, Some("code_exec"), Some("granite"), "Execute calculation",
             [("language", JStr("python")), ("mode", JStr("task")), ("task", JStr("generic_math")),
              ("variables", JObj([("query", JStr(query))]))],
             [], true, false)
  }

  /** The web-search step of the fallback plan, numbered by the running counter. */
  function FallbackSearchStep(query: string, counter: nat): (s: PlanStep)
    ensures s.id == "web_search_" + NatToString(counter) && s.stepType == ToolCall && s.tool == Some("web_search")
  {
    PlanStep("web_search_" + NatToString(counter), ToolCall, Some("web_search"), Some("granite"),
             "Search for information", [("query", JStr(query))], [], true, false)
  }

  /** The closing step: it waits for every step before it. */
  function FinalizeStep(query: string, before: seq<PlanStep>): (s: PlanStep)
    ensures s.id == "finalize" && s.stepType == Finalization && s.dependsOn == Ids(before)
  {
    PlanStep("finalize", Finalization, None, Some("granite"), "Present results",
             [("query", JStr(query))], Ids(before), true, false)
  }

  function FallbackTools(query: string, caps: seq<string>): seq<PlanStep>
  {
    var code := if "code_exec" in caps then [FallbackCodeStep(query)] else [];
    var search := if "web_search" in caps then [FallbackSearchStep(query, |code| + 1)] else [];
    code + search
  }

  /** `_create_fallback_plan`, given the capabilities the query analyzer detected. */
  function FallbackPlan(query: string, source: string, caps: seq<string>, planId: string): (p: Plan)
    ensures p.planId == planId && p.userQuery == query && p.source == source
    ensures p.intent == "answer_query" && p.complexity == Simple && p.safety == Normal
    ensures p.capabilities == caps && p.version == "1.0" && p.priority == "normal"
  {
    var tools := FallbackTools(query, caps);
    Plan(planId, "1.0", query, source, "answer_query", Simple, "normal", Normal, DefaultBudget, caps,
         tools + [FinalizeStep(query, tools)])
  }

  /**
   * The fallback plan always ends in the finalization step `finalize`,
   * which depends on all the steps before it, in order.
   */
  lemma FallbackEndsInFinalize(query: string, source: string, caps: seq<string>, planId: string)
    ensures var steps := FallbackPlan(query, source, caps, planId).steps;
      |steps| >= 1 && steps[|steps| - 1].id == "finalize"
      && steps[|steps| - 1].stepType == Finalization
      && steps[|steps| - 1].dependsOn == Ids(steps[..|steps| - 1])
  {
    var tools := FallbackTools(query, caps);
    var steps := FallbackPlan(query, source, caps, planId).steps;
    assert steps[..|steps| - 1] == tools;
  }

  /**
   * The tool steps: code_exec_1 iff code execution was detected, and a web
   * search iff it was detected, after it, numbered 2 when code_exec_1 exists
   * and 1 otherwise.
   */
  lemma FallbackToolSteps(query: string, source: string, caps: seq<string>, planId: string)
    ensures var steps := FallbackPlan(query, source, caps, planId).steps;
      |steps| == 1 + (if "code_exec" in caps then 1 else 0) + (if "web_search" in caps then 1 else 0)
      && ("code_exec" in caps ==> steps[0] == FallbackCodeStep(query))
      && ("web_search" in caps && "code_exec" in caps ==> steps[1] == FallbackSearchStep(query, 2) && steps[1].id == "web_search_2")
      && ("web_search" in caps && "code_exec" !in caps ==> steps[0] == FallbackSearchStep(query, 1) && steps[0].id == "web_search_1")
  {
    assert NatToString(1) == "1" && NatToString(2) == "2";
  }

  /** The fallback plan's step ids are distinct and it is orderable with no step waiting on a missing one. */
  lemma FallbackIdsDistinct(query: string, source: string, caps: seq<string>, planId: string)
    ensures Distinct(Ids(FallbackPlan(query, source, caps, planId).steps))
  {
    var steps := FallbackPlan(query, source, caps, planId).steps;
    FallbackToolSteps(query, source, caps, planId);
    FallbackEndsInFinalize(query, source, caps, planId);
    assert NatToString(1) == "1" && NatToString(2) == "2";
    var ids := Ids(steps);
    forall i, j | 0 <= i < j < |ids| ensures ids[i] != ids[j] {
      if j == |ids| - 1 {
        assert ids[j] == "finalize";
        assert ids[i] == "code_exec_1" || ids[i] == "web_search_1" || ids[i] == "web_search_2";
      } else {
        assert ids[i] == "code_exec_1" && ids[j] == "web_search_2";
      }
    }
  }

  // ---- analyze ----

  /** `required_capabilities` of the query analyzer's analysis, which the fallback plan is built from. */
  function Detected(search: (string, string) -> bool, query: string): seq<string>
  {
    QueryAnalyzer.Capabilities(search, Lower(query))
  }

  /** The planner's reply turned into a plan: the decoded dict when it is a non-empty dict that converts. */
  function PlanFromReply(parse: string -> Option<Json>, reply: string, query: string, source: string, planId: string): (r: Option<Plan>)
    ensures r.Some? ==> var j := ParseLayered(parse, reply);
      j.Some? && j.value.JObj? && j.value.fields != [] && DictToPlan(j.value.fields, query, source, planId) == Ok(r.value)
  {
    match ParseLayered(parse, reply)
    case None => None
    case Some(j) =>
      if !Truthy(j) then None
      else if !j.JObj? then None
      else
        match DictToPlan(j.fields, query, source, planId)
        case Ok(p) => Some(p)
        case Err(_) => None
  }

  /**
   * `analyze`: None only where the prompt cannot be built, since the history
   * is read before the `try`. Otherwise the plan decoded from the reply when
   * there is one; the fallback plan when the call raised, the reply did not
   * decode to a non-empty dict, or converting it raised.
   */
  function Analyze(generate: string -> Option<string>, parse: string -> Option<Json>, query: string,
                   source: string, history: seq<Json>, show: Json -> string, search: (string, string) -> bool,
                   planId: string): (p: Option<Plan>)
    ensures p.None? <==> UserContent(query, history, show).None?
    ensures p.Some? ==> p.value.planId == planId && p.value.userQuery == query && p.value.source == source
    ensures p.Some? ==> var reply := generate(UserContent(query, history, show).value);
      (reply.Some? && PlanFromReply(parse, reply.value, query, source, planId).Some? ==>
         p.value == PlanFromReply(parse, reply.value, query, source, planId).value)
      && (reply.None? || PlanFromReply(parse, reply.value, query, source, planId).None? ==>
         p.value == FallbackPlan(query, source, Detected(search, query), planId))
  {
    var content := UserContent(query, history, show);
    if content.None? then None
    else
      var reply := generate(content.value);
      if reply.None? then Some(FallbackPlan(query, source, Detected(search, query), planId))
      else
        match PlanFromReply(parse, reply.value, query, source, planId)
        case Some(p) => Some(p)
        case None => Some(FallbackPlan(query, source, Detected(search, query), planId))
  }

  /** A reply with no decodable JSON at all always yields the fallback plan, ending in `finalize`. */
  lemma UnparseableReplyFallsBack(generate: string -> Option<string>, parse: string -> Option<Json>, query: string,
                                  source: string, history: seq<Json>, show: Json -> string,
                                  search: (string, string) -> bool, planId: string)
    requires UserContent(query, history, show).Some?
    requires var reply := generate(UserContent(query, history, show).value); reply.Some? ==> ParseLayered(parse, reply.value).None?
    ensures Analyze(generate, parse, query, source, history, show, search, planId)
      == Some(FallbackPlan(query, source, Detected(search, query), planId))
    ensures var p := Analyze(generate, parse, query, source, history, show, search, planId).value;
      |p.steps| >= 1 && p.steps[|p.steps| - 1].id == "finalize" && p.intent == "answer_query"
  {
    var reply := generate(UserContent(query, history, show).value);
    if reply.Some? {
      assert PlanFromReply(parse, reply.value, query, source, planId).None?;
    }
    FallbackEndsInFinalize(query, source, Detected(search, query), planId);
  }

  /** A well-formed JSON reply is decoded as it is, with no other strategy tried. */
  lemma WellFormedReplyDecoded(generate: string -> Option<string>, parse: string -> Option<Json>, query: string,
                               source: string, history: seq<Json>, show: Json -> string,
                               search: (string, string) -> bool, planId: string)
    requires UserContent(query, history, show).Some?
    requires var reply := generate(UserContent(query, history, show).value);
      reply.Some? && parse(reply.value).Some? && parse(reply.value).value.JObj? && parse(reply.value).value.fields != []
      && DictToPlan(parse(reply.value).value.fields, query, source, planId).Ok?
    ensures var reply := generate(UserContent(query, history, show).value);
      Analyze(generate, parse, query, source, history, show, search, planId)
        == Some(DictToPlan(parse(reply.value).value.fields, query, source, planId).value)
  {
    var reply := generate(UserContent(query, history, show).value).value;
    var j := parse(reply).value;
    ParseLayeredWholeText(parse, reply);
    assert ParseLayered(parse, reply) == Some(j);
    assert Truthy(j);
    assert PlanFromReply(parse, reply, query, source, planId) == Some(DictToPlan(j.fields, query, source, planId).value);
  }
}
