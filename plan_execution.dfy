// The executor's plan validation, `FROM_<id>` input resolution, tool step and
// step loop. Tools, the sanity checker and the specialist verifier are the
// executor's collaborators and enter as values of `Env`; Python's `str()` of
// a decoded value is the opaque `str`. An exception that escapes `execute`
// is an `Err`.
module PlanExecution {
  import opened Wrappers
  import opened Json
  import opened Text
  import opened Seqs
  import opened PlanTypes
  import opened PlanOrder
  import opened PlanExecutor
  import opened BaseTool

  // ---- _validate_plan ----

  datatype ValidationError =
    | MissingLanguage(stepId: string)
    | MissingMode(stepId: string)
    | BadMode(stepId: string, mode: Json)
    | MissingTask(stepId: string)
    | MissingCode(stepId: string)

  /** The message `_validate_plan` returns for each failure. */
  function ValidationMessage(e: ValidationError, str: Json -> string): string
  {
    match e
    case MissingLanguage(id) => "Step '" + id + "': code_exec missing 'language' field"
    case MissingMode(id) => "Step '" + id + "': code_exec missing 'mode' field"
    case BadMode(id, mode) => "Step '" + id + "': code_exec mode must be 'task' or 'raw_code', got '" + str(mode) + "'"
    case MissingTask(id) => "Step '" + id + "': code_exec mode='task' requires 'task' field"
    case MissingCode(id) => "Step '" + id + "': code_exec mode='raw_code' requires 'code' field"
  }

  predicate IsCodeExec(s: PlanStep)
  {
    s.stepType == ToolCall && s.tool == Some("code_exec")
  }

  /** A code_exec input that names a language and a valid mode, with the field that mode needs. */
  predicate CanonicalInput(input: seq<(string, Json)>)
  {
    HasKey(input, "language") && HasKey(input, "mode")
    && (Lookup(input, "mode") == Some(JStr("task")) || Lookup(input, "mode") == Some(JStr("raw_code")))
    && (Lookup(input, "mode") == Some(JStr("task")) ==> HasKey(input, "task"))
    && (Lookup(input, "mode") == Some(JStr("raw_code")) ==> HasKey(input, "code"))
  }

  /** The schema checks for one code_exec step, in the source's order. */
  function CheckCodeExec(s: PlanStep): (r: Option<ValidationError>)
    ensures r.None? <==> CanonicalInput(s.input)
    ensures r.Some? ==> r.value.stepId == s.id
    ensures r == Some(MissingLanguage(s.id)) <==> !HasKey(s.input, "language")
    ensures r == Some(MissingMode(s.id)) <==> HasKey(s.input, "language") && !HasKey(s.input, "mode")
  {
    var input := s.input;
    if !HasKey(input, "language") then Some(MissingLanguage(s.id))
    else if !HasKey(input, "mode") then Some(MissingMode(s.id))
    else
      var mode := Lookup(input, "mode").value;
      if mode != JStr("task") && mode != JStr("raw_code") then Some(BadMode(s.id, mode))
      else if mode == JStr("task") && !HasKey(input, "task") then Some(MissingTask(s.id))
      else if mode == JStr("raw_code") && !HasKey(input, "code") then Some(MissingCode(s.id))
      else None
  }

  /** The loop over the steps: the first failing code_exec step's error. */
  function FirstInvalid(steps: seq<PlanStep>): (r: Option<ValidationError>)
  {
    if steps == [] then None
    else if IsCodeExec(steps[0]) && CheckCodeExec(steps[0]).Some? then CheckCodeExec(steps[0])
    else FirstInvalid(steps[1..])
  }

  /**
   * `_validate_plan`. The check for a math-looking query without a code_exec
   * step only logs a warning, so it does not enter the result.
   */
  function ValidatePlan(plan: Plan): Option<ValidationError>
  {
    FirstInvalid(plan.steps)
  }

  /**
   * Validation passes exactly when every code_exec step has a canonical
   * input; a failure is the error of the first code_exec step that does not.
   */
  lemma {:induction false} FirstInvalidSpec(steps: seq<PlanStep>)
    ensures FirstInvalid(steps).None? <==>
      forall k :: 0 <= k < |steps| && IsCodeExec(steps[k]) ==> CanonicalInput(steps[k].input)
    ensures FirstInvalid(steps).Some? ==>
      exists k :: 0 <= k < |steps| && IsCodeExec(steps[k]) && FirstInvalid(steps) == CheckCodeExec(steps[k])
        && forall j :: 0 <= j < k && IsCodeExec(steps[j]) ==> CanonicalInput(steps[j].input)
  {
    if steps != [] {
      var tail := steps[1..];
      FirstInvalidSpec(tail);
      if !(IsCodeExec(steps[0]) && CheckCodeExec(steps[0]).Some?) {
        if FirstInvalid(tail).Some? {
          var k :| 0 <= k < |tail| && IsCodeExec(tail[k]) && FirstInvalid(tail) == CheckCodeExec(tail[k])
            && forall j :: 0 <= j < k && IsCodeExec(tail[j]) ==> CanonicalInput(tail[j].input);
          assert steps[k + 1] == tail[k];
          forall j | 0 <= j < k + 1 && IsCodeExec(steps[j]) ensures CanonicalInput(steps[j].input) {
            if j > 0 {
              assert steps[j] == tail[j - 1];
            }
          }
        } else {
          forall k | 0 <= k < |steps| && IsCodeExec(steps[k]) ensures CanonicalInput(steps[k].input) {
            if k > 0 {
              assert steps[k] == tail[k - 1];
            }
          }
        }
      }
    }
  }

  // ---- _prepare_tool_input ----

  /** The dict of a step result stored under `id`, when a value names it as `FROM_<id>`. */
  predicate IsReference(v: Json)
  {
    v.JStr? && StartsWith(v.s, "FROM_")
  }

  /** One input value: a reference to a recorded result becomes that result's `data`, or the whole result. */
  function ResolveValue(v: Json, previous: seq<(string, seq<(string, Json)>)>): (r: Json)
    ensures !IsReference(v) ==> r == v
    ensures IsReference(v) && !HasKey(previous, v.s[5..]) ==> r == v
    ensures IsReference(v) && HasKey(previous, v.s[5..]) ==>
      var res := Lookup(previous, v.s[5..]).value;
      r == (if HasKey(res, "data") then Lookup(res, "data").value else JObj(res))
  {
    if IsReference(v) then
      var id := v.s[5..];
      match Lookup(previous, id)
      case Some(res) => if HasKey(res, "data") then Lookup(res, "data").value else JObj(res)
      case None => v
    else v
  }

  /** The `resolved` dict after the loop has seen `input`. */
  function ResolvedInput(input: seq<(string, Json)>, previous: seq<(string, seq<(string, Json)>)>): seq<(string, Json)>
  {
    if input == [] then []
    else
      var last := input[|input| - 1];
      Put(ResolvedInput(input[..|input| - 1], previous), last.0, ResolveValue(last.1, previous))
  }

  /** Every key is kept, in order, and only its value is resolved. */
  lemma {:induction false} ResolvedInputShape(input: seq<(string, Json)>, previous: seq<(string, seq<(string, Json)>)>)
    requires Distinct(Keys(input))
    ensures |ResolvedInput(input, previous)| == |input|
    ensures forall i :: 0 <= i < |input| ==>
      ResolvedInput(input, previous)[i] == (input[i].0, ResolveValue(input[i].1, previous))
  {
    if input != [] {
      var init := input[..|input| - 1];
      var last := input[|input| - 1];
      assert Keys(init) == Keys(input)[..|input| - 1];
      ResolvedInputShape(init, previous);
      var prior := ResolvedInput(init, previous);
      ResolvedInputAppends(input, previous, prior);
      var r := ResolvedInput(input, previous);
      forall i | 0 <= i < |input|
        ensures r[i] == (input[i].0, ResolveValue(input[i].1, previous))
      {
        if i < |init| {
          assert input[i] == init[i];
        }
      }
    }
  }

  /** With distinct keys the last key of `input` is new, so its `Put` appends. */
  lemma ResolvedInputAppends(input: seq<(string, Json)>, previous: seq<(string, seq<(string, Json)>)>,
                             prior: seq<(string, Json)>)
    requires input != [] && Distinct(Keys(input))
    requires prior == ResolvedInput(input[..|input| - 1], previous)
    requires |prior| == |input| - 1 && forall i :: 0 <= i < |prior| ==> prior[i].0 == input[i].0
    ensures ResolvedInput(input, previous) == prior + [(input[|input| - 1].0, ResolveValue(input[|input| - 1].1, previous))]
  {
    var last := input[|input| - 1];
    assert last.0 == Keys(input)[|input| - 1];
    assert !HasKey(prior, last.0) by {
      forall i | 0 <= i < |prior|
        ensures Keys(prior)[i] != last.0
      {
        assert Keys(prior)[i] == Keys(input)[i];
      }
    }
    PutNew(prior, last.0, ResolveValue(last.1, previous));
  }

  method PrepareToolInput(input: seq<(string, Json)>, previous: seq<(string, seq<(string, Json)>)>)
    returns (resolved: seq<(string, Json)>)
    ensures resolved == ResolvedInput(input, previous)
  {
    resolved := [];
    var j := 0;
    while j < |input|
      invariant 0 <= j <= |input|
      invariant resolved == ResolvedInput(input[..j], previous)
    {
      var (key, value) := input[j];
      assert input[..j + 1][..j] == input[..j];
      resolved := Put(resolved, key, ResolveValue(value, previous));
      j := j + 1;
    }
    assert input[..j] == input;
  }

  // ---- _execute_tool_step ----

  function FailedResult(message: string): seq<(string, Json)>
  {
    [("status", JStr("failed")), ("error", JStr(message)), ("data", JObj([]))]
  }

  function SkippedResult(message: string): seq<(string, Json)>
  {
    [("status", JStr("skipped")), ("error", JStr(message)), ("data", JObj([]))]
  }

  /** The dict built from a tool's own result. */
  function ToolResultDict(res: ToolResult): seq<(string, Json)>
  {
    [("status", JStr(if res.status == Success then "success" else "failed")),
     ("data", if res.data.Some? then JObj(res.data.value) else JNull),
     ("error", if res.error.Some? then JStr(res.error.value) else JNull),
     ("execution_time_ms", JNum(res.executionTimeMs as real))]
  }

  /** `not tool_name or tool_name not in self.tools`. */
  predicate Unavailable(step: PlanStep, tools: seq<(string, Tool)>)
  {
    step.tool.None? || step.tool.value == "" || !HasKey(tools, step.tool.value)
  }

  /** The f-string form of the step's tool name. */
  function ToolLabel(t: Option<string>): string
  {
    if t.Some? then t.value else "None"
  }

  /**
   * The result of one tool step, given its input already resolved. A missing
   * tool is `failed` when the step is required and may not be skipped, and
   * `skipped` otherwise; an exception from the tool is `failed`.
   */
  function ToolOutcome(step: PlanStep, input: seq<(string, Json)>, tools: seq<(string, Tool)>): (r: seq<(string, Json)>)
    ensures Unavailable(step, tools) ==>
      Lookup(r, "status") == Some(JStr(if step.required && !step.canSkipIfUnavailable then "failed" else "skipped"))
    ensures !Unavailable(step, tools) ==>
      var outcome := ExecuteWithFallback(Lookup(tools, step.tool.value).value, input);
      Lookup(r, "status") == Some(JStr(if outcome.Ok? && outcome.value.status == Success then "success" else "failed"))
    ensures Lookup(r, "status") in {Some(JStr("success")), Some(JStr("failed")), Some(JStr("skipped"))}
  {
    if Unavailable(step, tools) then
      var name := ToolLabel(step.tool);
      if step.required && !step.canSkipIfUnavailable then
        FailedResult("Required tool '" + name + "' not available. Available tools: " + ShowStrList(Keys(tools)))
      else
        SkippedResult("Optional tool '" + name + "' not available")
    else
      match ExecuteWithFallback(Lookup(tools, step.tool.value).value, input)
      case Ok(res) => ToolResultDict(res)
      case Err(message) => FailedResult(message)
  }

  method ExecuteToolStep(step: PlanStep, previous: seq<(string, seq<(string, Json)>)>, tools: seq<(string, Tool)>)
    returns (r: seq<(string, Json)>)
    ensures r == ToolOutcome(step, ResolvedInput(step.input, previous), tools)
  {
    if Unavailable(step, tools) {
      r := ToolOutcome(step, [], tools);
    } else {
      var input := PrepareToolInput(step.input, previous);
      r := ToolOutcome(step, input, tools);
    }
  }

  // ---- _execute_sanity_step ----

  /** The text one successful result contributes: `data["stdout"]`, else `str(data["results"])`. */
  function DataText(data: Json, str: Json -> string): Result<Option<string>>
  {
    match data
    case JObj(fields) =>
      if HasKey(fields, "stdout") then
        var out := Lookup(fields, "stdout").value;
        if out.JStr? then Ok(Some(out.s)) else Err(TypeError)
      else if HasKey(fields, "results") then Ok(Some(str(Lookup(fields, "results").value)))
      else Ok(None)
    case JStr(s) => if Contains(s, "stdout") || Contains(s, "results") then Err(TypeError) else Ok(None)
    case JArr(items) => if JStr("stdout") in items || JStr("results") in items then Err(TypeError) else Ok(None)
    case _ => Err(TypeError)
  }

  /** What one context id adds to the response parts; a list or dict id is unhashable. */
  function PartFor(id: Json, results: seq<(string, seq<(string, Json)>)>, str: Json -> string): Result<Option<string>>
  {
    if id.JArr? || id.JObj? then Err(TypeError)
    else if id.JStr? && HasKey(results, id.s) then
      var res := Lookup(results, id.s).value;
      if Lookup(res, "status") == Some(JStr("success")) then DataText(GetOr(res, "data", JObj([])), str)
      else Ok(None)
    else Ok(None)
  }

  /** The response parts collected from the first ids, or the exception raised on the way. */
  function Parts(ids: seq<Json>, results: seq<(string, seq<(string, Json)>)>, str: Json -> string): Result<seq<string>>
  {
    if ids == [] then Ok([])
    else
      match Parts(ids[..|ids| - 1], results, str)
      case Err(e) => Err(e)
      case Ok(ps) =>
        match PartFor(ids[|ids| - 1], results, str)
        case Err(e) => Err(e)
        case Ok(p) => Ok(ps + (if p.Some? then [p.value] else []))
  }

  /** The response text a sanity step checks. */
  function SanityText(step: PlanStep, results: seq<(string, seq<(string, Json)>)>, str: Json -> string): Result<string>
  {
    match Iterated(GetOr(step.input, "context_step_ids", JArr([])))
    case Err(e) => Err(e)
    case Ok(ids) =>
      match Parts(ids, results, str)
      case Err(e) => Err(e)
      case Ok(ps) => Ok(Join(ps, "\n"))
  }

  /** Only successful results contribute text; failed, skipped and unrecorded ones add nothing. */
  lemma OnlySuccessContributes(id: Json, results: seq<(string, seq<(string, Json)>)>, str: Json -> string)
    requires id.JStr?
    requires !HasKey(results, id.s) || Lookup(Lookup(results, id.s).value, "status") != Some(JStr("success"))
    ensures PartFor(id, results, str) == Ok(None)
  {
  }

  method CollectResponse(step: PlanStep, results: seq<(string, seq<(string, Json)>)>, str: Json -> string)
    returns (r: Result<string>)
    ensures r == SanityText(step, results, str)
  {
    var ids := Iterated(GetOr(step.input, "context_step_ids", JArr([])));
    if ids.Err? {
      return Err(ids.error);
    }
    var parts: seq<string> := [];
    var j := 0;
    while j < |ids.value|
      invariant 0 <= j <= |ids.value|
      invariant Parts(ids.value[..j], results, str) == Ok(parts)
    {
      var p := PartFor(ids.value[j], results, str);
      PartsSnoc(ids.value, results, str, j);
      if p.Err? {
        PartsErr(ids.value, results, str, j + 1);
        return Err(p.error);
      }
      var extra: seq<string> := if p.value.Some? then [p.value.value] else [];
      parts := parts + extra;
      j := j + 1;
    }
    assert ids.value[..j] == ids.value;
    r := Ok(Join(parts, "\n"));
  }

  lemma PartsSnoc(ids: seq<Json>, results: seq<(string, seq<(string, Json)>)>, str: Json -> string, j: nat)
    requires j < |ids|
    ensures var p := PartFor(ids[j], results, str);
      Parts(ids[..j + 1], results, str) ==
        if Parts(ids[..j], results, str).Err? then Parts(ids[..j], results, str)
        else if p.Err? then Err(p.error)
        else Ok(Parts(ids[..j], results, str).value + if p.value.Some? then [p.value.value] else [])
  {
    assert ids[..j + 1][..j] == ids[..j];
  }

  /** Once collecting raises, the whole collection raises the same exception. */
  lemma {:induction false} PartsErr(ids: seq<Json>, results: seq<(string, seq<(string, Json)>)>, str: Json -> string, j: nat)
    requires j <= |ids| && Parts(ids[..j], results, str).Err?
    ensures Parts(ids, results, str) == Parts(ids[..j], results, str)
    decreases |ids| - j
  {
    if j < |ids| {
      assert ids[..j + 1][..j] == ids[..j];
      PartsErr(ids, results, str, j + 1);
    } else {
      assert ids[..j] == ids;
    }
  }

  // ---- execute ----

  /** An entry of `specialist_results`: a verifier result, or the circular-dependency error. */
  datatype Specialist = Verified(result: VerificationResult) | Failure(kind: string, message: string)

  /** The executor's collaborators. */
  datatype Env = Env(
    tools: seq<(string, Tool)>,
    sanity: (string, string) -> seq<(string, Json)>,
    verify: (string, Json, seq<(string, seq<(string, Json)>)>, seq<(string, Json)>, bool) -> VerificationResult,
    str: Json -> string)

  datatype RunState = RunState(
    toolResults: seq<(string, seq<(string, Json)>)>,
    specialists: seq<(string, Specialist)>,
    sanity: Option<seq<(string, Json)>>)

  const Start := RunState([], [], None)

  datatype Outcome = Outcome(toolResults: seq<(string, seq<(string, Json)>)>, specialists: seq<(string, Specialist)>)

  /** The strong specialist after a suspicious sanity check: a raised safety level, or high severity. */
  predicate StrongAfterSanity(safety: SafetyLevel, sanity: seq<(string, Json)>)
  {
    safety != Normal || Lookup(sanity, "severity") == Some(JStr("high"))
  }

  /** `sanity_result or {"suspicious": False, "issues": []}`. */
  function SanityArgument(sanity: Option<seq<(string, Json)>>): seq<(string, Json)>
  {
    if sanity.Some? && sanity.value != [] then sanity.value
    else [("suspicious", JBool(false)), ("issues", JArr([]))]
  }

  predicate Suspicious(sanity: seq<(string, Json)>)
  {
    Truthy(GetOr(sanity, "suspicious", JBool(false)))
  }

  /** One iteration of the step loop. */
  function RunStep(plan: Plan, env: Env, st: RunState, step: PlanStep): Result<RunState>
  {
    match step.stepType
    case ToolCall =>
      Ok(st.(toolResults := Put(st.toolResults, step.id, ToolOutcome(step, ResolvedInput(step.input, st.toolResults), env.tools))))
    case SanityCheck =>
      (match SanityText(step, st.toolResults, env.str)
       case Err(e) => Err(e)
       case Ok(text) =>
         var sr := env.sanity(text, plan.userQuery);
         var results := Put(st.toolResults, step.id, sr);
         if Suspicious(sr) then
           var v := env.verify(plan.userQuery, PlanToDict(plan), results, sr, StrongAfterSanity(plan.safety, sr));
           Ok(RunState(results, Put(st.specialists, "verification", Verified(v)), Some(sr)))
         else Ok(RunState(results, st.specialists, Some(sr))))
    case ModelCall =>
      var v := env.verify(plan.userQuery, PlanToDict(plan), st.toolResults, SanityArgument(st.sanity), plan.safety != Normal);
      Ok(st.(specialists := Put(st.specialists, step.id, Verified(v))))
    case Finalization => Ok(st)
  }

  /** The loop over the first steps of the order. */
  function RunSteps(plan: Plan, env: Env, steps: seq<PlanStep>): Result<RunState>
  {
    if steps == [] then Ok(Start)
    else
      match RunSteps(plan, env, steps[..|steps| - 1])
      case Err(e) => Err(e)
      case Ok(st) => RunStep(plan, env, st, steps[|steps| - 1])
  }

  function Finish(r: Result<RunState>): Result<Outcome>
  {
    match r
    case Ok(st) => Ok(Outcome(st.toolResults, st.specialists))
    case Err(e) => Err(e)
  }

  function ValidationFailed(message: string): Outcome
  {
    Outcome([("validation_error", FailedResult(message))], [])
  }

  const CircularFailure := Outcome([], [("error", Failure("circular_dependency", "Plan contains circular dependencies"))])

  /** Steps cannot be ordered: `_topological_sort` gives None, or an empty (falsy) list. */
  ghost predicate Unorderable(steps: seq<PlanStep>)
  {
    steps == [] || !Distinct(Ids(steps)) || forall o :: !ValidOrder(steps, o)
  }

  /**
   * `execute`: a failing validation returns only the validation error; a
   * plan whose steps cannot be ordered returns only the circular-dependency
   * error; otherwise the steps run in an order where each follows its
   * dependencies, ready steps first in declaration order.
   */
  method Execute(plan: Plan, env: Env) returns (r: Result<Outcome>, ghost order: seq<PlanStep>)
    ensures ValidatePlan(plan).Some? ==> r == Ok(ValidationFailed(ValidationMessage(ValidatePlan(plan).value, env.str)))
    ensures ValidatePlan(plan).None? && Unorderable(plan.steps) ==> r == Ok(CircularFailure)
    ensures ValidatePlan(plan).None? && !Unorderable(plan.steps) ==>
      ValidOrder(plan.steps, order)
      && |Roots(plan.steps)| <= |order| && order[..|Roots(plan.steps)|] == Roots(plan.steps)
      && r == Finish(RunSteps(plan, env, order))
  {
    order := [];
    var invalid := ValidatePlan(plan);
    if invalid.Some? {
      return Ok(ValidationFailed(ValidationMessage(invalid.value, env.str))), order;
    }
    var sorted := TopologicalSort(plan.steps);
    if sorted.None? || sorted.value == [] {
      if sorted.Some? {
        assert multiset(plan.steps) == multiset(sorted.value);
        assert plan.steps == [];
      }
      return Ok(CircularFailure), order;
    }
    var ordered := sorted.value;
    order := ordered;
    assert plan.steps != [] by {
      assert |multiset(plan.steps)| == |multiset(ordered)|;
    }
    var run := RunLoop(plan, env, ordered);
    r := Finish(run);
  }

  /** The `for step in ordered_steps` loop. */
  method RunLoop(plan: Plan, env: Env, ordered: seq<PlanStep>) returns (r: Result<RunState>)
    ensures r == RunSteps(plan, env, ordered)
  {
    var st := Start;
    var i := 0;
    while i < |ordered|
      invariant 0 <= i <= |ordered|
      invariant RunSteps(plan, env, ordered[..i]) == Ok(st)
    {
      var step := ordered[i];
      assert ordered[..i + 1][..i] == ordered[..i];
      var next := ExecuteStep(plan, env, st, step);
      if next.Err? {
        RunStepsErr(plan, env, ordered, i + 1);
        return next;
      }
      st := next.value;
      i := i + 1;
    }
    assert ordered[..i] == ordered;
    r := Ok(st);
  }

  /** The body of the step loop, by step type. */
  method ExecuteStep(plan: Plan, env: Env, st: RunState, step: PlanStep) returns (r: Result<RunState>)
    ensures r == RunStep(plan, env, st, step)
  {
    match step.stepType {
      case ToolCall =>
        var res := ExecuteToolStep(step, st.toolResults, env.tools);
        r := Ok(st.(toolResults := Put(st.toolResults, step.id, res)));
      case SanityCheck =>
        var text := CollectResponse(step, st.toolResults, env.str);
        if text.Err? {
          return Err(text.error);
        }
        var sr := env.sanity(text.value, plan.userQuery);
        var results := Put(st.toolResults, step.id, sr);
        var specialists := st.specialists;
        if Suspicious(sr) {
          var useStrong := plan.safety != Normal || Lookup(sr, "severity") == Some(JStr("high"));
          var v := env.verify(plan.userQuery, PlanToDict(plan), results, sr, useStrong);
          specialists := Put(specialists, "verification", Verified(v));
        }
        r := Ok(RunState(results, specialists, Some(sr)));
      case ModelCall =>
        var useStrong := plan.safety != Normal;
        var v := env.verify(plan.userQuery, PlanToDict(plan), st.toolResults, SanityArgument(st.sanity), useStrong);
        r := Ok(st.(specialists := Put(st.specialists, step.id, Verified(v))));
      case Finalization =>
        r := Ok(st);
    }
  }

  /** An exception in one step ends the loop: the whole run raises it. */
  lemma {:induction false} RunStepsErr(plan: Plan, env: Env, steps: seq<PlanStep>, j: nat)
    requires j <= |steps| && RunSteps(plan, env, steps[..j]).Err?
    ensures RunSteps(plan, env, steps) == RunSteps(plan, env, steps[..j])
    decreases |steps| - j
  {
    if j < |steps| {
      assert steps[..j + 1][..j] == steps[..j];
      RunStepsErr(plan, env, steps, j + 1);
    } else {
      assert steps[..j] == steps;
    }
  }

  /** Tool and sanity steps record their result under their id. */
  predicate Records(s: PlanStep)
  {
    s.stepType == ToolCall || s.stepType == SanityCheck
  }

  /** The steps of `steps` that record a result, in order. */
  function Recorded(steps: seq<PlanStep>): (r: seq<PlanStep>)
    ensures forall s :: s in r <==> s in steps && Records(s)
  {
    if steps == [] then []
    else
      var last := steps[|steps| - 1];
      assert steps == steps[..|steps| - 1] + [last];
      Recorded(steps[..|steps| - 1]) + (if Records(last) then [last] else [])
  }

  /** One step adds its id to the recorded keys when it is a tool or sanity step, and nothing otherwise. */
  lemma RunStepKeys(plan: Plan, env: Env, st: RunState, step: PlanStep, st': RunState)
    requires RunStep(plan, env, st, step) == Ok(st')
    ensures Elems(Keys(st'.toolResults)) == Elems(Keys(st.toolResults)) + (if Records(step) then {step.id} else {})
  {
    if Records(step) {
      var v := Lookup(st'.toolResults, step.id).value;
      assert st'.toolResults == Put(st.toolResults, step.id, v);
      PutKeys(st.toolResults, step.id, v);
    }
  }

  /** A successful run of `steps` is the run of all but the last, then the last. */
  lemma RunStepsLast(plan: Plan, env: Env, steps: seq<PlanStep>)
    requires steps != [] && RunSteps(plan, env, steps).Ok?
    ensures RunSteps(plan, env, steps[..|steps| - 1]).Ok?
    ensures RunStep(plan, env, RunSteps(plan, env, steps[..|steps| - 1]).value, steps[|steps| - 1])
      == RunSteps(plan, env, steps)
  {
  }

  /** The recorded ids of `steps` are those of all but the last, and the last's when it records. */
  lemma RecordedIdsLast(steps: seq<PlanStep>)
    requires steps != []
    ensures Elems(Ids(Recorded(steps))) == Elems(Ids(Recorded(steps[..|steps| - 1])))
      + (if Records(steps[|steps| - 1]) then {steps[|steps| - 1].id} else {})
  {
    var last := steps[|steps| - 1];
    assert Recorded(steps) == Recorded(steps[..|steps| - 1]) + (if Records(last) then [last] else []);
    IdsSnoc(Recorded(steps[..|steps| - 1]), last, Records(last));
  }

  lemma IdsSnoc(a: seq<PlanStep>, last: PlanStep, keep: bool)
    ensures Elems(Ids(a + (if keep then [last] else []))) == Elems(Ids(a)) + (if keep then {last.id} else {})
  {
    var rest: seq<PlanStep> := if keep then [last] else [];
    IdsConcat(a, rest);
    ElemsConcat(Ids(a), Ids(rest));
    if keep {
      assert Ids(rest) == [last.id];
      assert Elems([last.id]) == {last.id};
    } else {
      assert Elems(Ids(rest)) == {};
    }
  }

  /**
   * Over a successful run, whatever the dependencies, retries and orders, the
   * recorded tool results are keyed by exactly the ids of the tool and
   * sanity steps that ran.
   */
  lemma {:induction false} RunStepsKeys(plan: Plan, env: Env, steps: seq<PlanStep>)
    requires RunSteps(plan, env, steps).Ok?
    ensures Elems(Keys(RunSteps(plan, env, steps).value.toolResults)) == Elems(Ids(Recorded(steps)))
  {
    if steps != [] {
      var init := steps[..|steps| - 1];
      RunStepsLast(plan, env, steps);
      RunStepsKeys(plan, env, init);
      RunStepKeys(plan, env, RunSteps(plan, env, init).value, steps[|steps| - 1], RunSteps(plan, env, steps).value);
      RecordedIdsLast(steps);
    }
  }

  /**
   * Escalation after a suspicious sanity check: the verification entry is
   * the strong specialist's answer iff the safety level is raised or the
   * severity is high, and the weak one's otherwise (observable whenever
   * the two answers differ); no other specialist entry changes.
   */
  lemma SanityEscalation(plan: Plan, env: Env, st: RunState, step: PlanStep)
    requires step.stepType == SanityCheck && SanityText(step, st.toolResults, env.str).Ok?
    requires var sr := env.sanity(SanityText(step, st.toolResults, env.str).value, plan.userQuery);
      var results := Put(st.toolResults, step.id, sr);
      Suspicious(sr)
      && env.verify(plan.userQuery, PlanToDict(plan), results, sr, true)
         != env.verify(plan.userQuery, PlanToDict(plan), results, sr, false)
    ensures RunStep(plan, env, st, step).Ok?
    ensures var sr := env.sanity(SanityText(step, st.toolResults, env.str).value, plan.userQuery);
      var results := Put(st.toolResults, step.id, sr);
      var next := RunStep(plan, env, st, step).value;
      var strong := env.verify(plan.userQuery, PlanToDict(plan), results, sr, true);
      var weak := env.verify(plan.userQuery, PlanToDict(plan), results, sr, false);
      var high := Lookup(sr, "severity") == Some(JStr("high"));
      (Lookup(next.specialists, "verification") == Some(Verified(strong)) <==> plan.safety != Normal || high)
      && (Lookup(next.specialists, "verification") == Some(Verified(weak)) <==> plan.safety == Normal && !high)
      && next.toolResults == results && next.sanity == Some(sr)
    ensures forall k :: k != "verification" ==>
      Lookup(RunStep(plan, env, st, step).value.specialists, k) == Lookup(st.specialists, k)
  {
    var sr := env.sanity(SanityText(step, st.toolResults, env.str).value, plan.userQuery);
    var results := Put(st.toolResults, step.id, sr);
    var v := env.verify(plan.userQuery, PlanToDict(plan), results, sr, StrongAfterSanity(plan.safety, sr));
    forall k | k != "verification"
      ensures Lookup(Put(st.specialists, "verification", Verified(v)), k) == Lookup(st.specialists, k)
    {
      PutOther(st.specialists, "verification", Verified(v), k);
    }
  }

  /** A sanity check that finds nothing suspicious records its result and consults no specialist. */
  lemma CalmSanityCheck(plan: Plan, env: Env, st: RunState, step: PlanStep)
    requires step.stepType == SanityCheck && SanityText(step, st.toolResults, env.str).Ok?
    requires !Suspicious(env.sanity(SanityText(step, st.toolResults, env.str).value, plan.userQuery))
    ensures var sr := env.sanity(SanityText(step, st.toolResults, env.str).value, plan.userQuery);
      RunStep(plan, env, st, step) == Ok(RunState(Put(st.toolResults, step.id, sr), st.specialists, Some(sr)))
      && Lookup(RunStep(plan, env, st, step).value.toolResults, step.id) == Some(sr)
  {
  }

  /**
   * A model step's entry is the strong specialist's answer iff the safety
   * level is raised (observable whenever the two answers differ); the
   * severity of an earlier sanity check plays no part, and no other
   * specialist entry changes.
   */
  lemma ModelCallEscalation(plan: Plan, env: Env, st: RunState, step: PlanStep)
    requires step.stepType == ModelCall
    requires env.verify(plan.userQuery, PlanToDict(plan), st.toolResults, SanityArgument(st.sanity), true)
             != env.verify(plan.userQuery, PlanToDict(plan), st.toolResults, SanityArgument(st.sanity), false)
    ensures RunStep(plan, env, st, step).Ok?
    ensures var next := RunStep(plan, env, st, step).value;
      var strong := env.verify(plan.userQuery, PlanToDict(plan), st.toolResults, SanityArgument(st.sanity), true);
      (Lookup(next.specialists, step.id) == Some(Verified(strong)) <==> plan.safety != Normal)
      && next.toolResults == st.toolResults && next.sanity == st.sanity
    ensures forall k :: k != step.id ==>
      Lookup(RunStep(plan, env, st, step).value.specialists, k) == Lookup(st.specialists, k)
  {
    var v := env.verify(plan.userQuery, PlanToDict(plan), st.toolResults, SanityArgument(st.sanity), plan.safety != Normal);
    forall k | k != step.id
      ensures Lookup(Put(st.specialists, step.id, Verified(v)), k) == Lookup(st.specialists, k)
    {
      PutOther(st.specialists, step.id, Verified(v), k);
    }
  }

  /** Finalization changes nothing. */
  lemma FinalizationIdle(plan: Plan, env: Env, st: RunState, step: PlanStep)
    requires step.stepType == Finalization
    ensures RunStep(plan, env, st, step) == Ok(st)
  {
  }
}
