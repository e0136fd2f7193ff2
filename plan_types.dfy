// The structured values passed between the planner, the executor, the
// specialist verifier and the presenter: step and plan records with their
// dictionary form, and the specialist's verification result.
module PlanTypes {
  import opened Wrappers
  import opened Json

  datatype StepType = ToolCall | SanityCheck | ModelCall | Finalization

  function StepTypeValue(t: StepType): string
  {
    match t
    case ToolCall => "tool_call"
    case SanityCheck => "sanity_check"
    case ModelCall => "model_call"
    case Finalization => "finalization"
  }

  /** `StepType(v)`: the member whose value is `v`, if any. */
  function ParseStepType(v: Json): (r: Option<StepType>)
    ensures r.Some? <==> v.JStr? && v.s in {"tool_call", "sanity_check", "model_call", "finalization"}
    ensures r.Some? ==> v == JStr(StepTypeValue(r.value))
  {
    if v == JStr("tool_call") then Some(ToolCall)
    else if v == JStr("sanity_check") then Some(SanityCheck)
    else if v == JStr("model_call") then Some(ModelCall)
    else if v == JStr("finalization") then Some(Finalization)
    else None
  }

  /** Step kinds are exactly the four values, each decoding back to itself. */
  lemma StepTypeRoundTrip(t: StepType)
    ensures ParseStepType(JStr(StepTypeValue(t))) == Some(t)
  {
  }

  datatype ComplexityLevel = Simple | Moderate | Complex

  function ComplexityValue(c: ComplexityLevel): string
  {
    match c
    case Simple => "simple"
    case Moderate => "moderate"
    case Complex => "complex"
  }

  function ParseComplexity(v: Json): (r: Option<ComplexityLevel>)
    ensures r.Some? <==> v.JStr? && v.s in {"simple", "moderate", "complex"}
    ensures r.Some? ==> v == JStr(ComplexityValue(r.value))
  {
    if v == JStr("simple") then Some(Simple)
    else if v == JStr("moderate") then Some(Moderate)
    else if v == JStr("complex") then Some(Complex)
    else None
  }

  datatype SafetyLevel = Normal | High | Critical

  function SafetyValue(s: SafetyLevel): string
  {
    match s
    case Normal => "normal"
    case High => "high"
    case Critical => "critical"
  }

  function ParseSafety(v: Json): (r: Option<SafetyLevel>)
    ensures r.Some? <==> v.JStr? && v.s in {"normal", "high", "critical"}
    ensures r.Some? ==> v == JStr(SafetyValue(r.value))
  {
    if v == JStr("normal") then Some(Normal)
    else if v == JStr("high") then Some(High)
    else if v == JStr("critical") then Some(Critical)
    else None
  }

  /** The three-valued scale shared by ConfidenceLevel and TrustLevel. */
  datatype Level = Low | Medium | HighLevel

  function LevelValue(l: Level): string
  {
    match l
    case Low => "low"
    case Medium => "medium"
    case HighLevel => "high"
  }

  function ParseLevel(v: Json): (r: Option<Level>)
    ensures r.Some? <==> v.JStr? && v.s in {"low", "medium", "high"}
    ensures r.Some? ==> v == JStr(LevelValue(r.value))
  {
    if v == JStr("low") then Some(Low)
    else if v == JStr("medium") then Some(Medium)
    else if v == JStr("high") then Some(HighLevel)
    else None
  }

  datatype Budget = Budget(maxExternalUsd: real, latencyTier: string)

  const DefaultBudget := Budget(0.03, "balanced")

  datatype PlanStep = PlanStep(
    id: string,
    stepType: StepType,
    tool: Option<string>,
    model: Option<string>,
    description: string,
    input: seq<(string, Json)>,
    dependsOn: seq<string>,
    required: bool,
    canSkipIfUnavailable: bool)

  /** `PlanStep(id=..., type=...)` with every other field left at its default. */
  function NewStep(id: string, t: StepType): (s: PlanStep)
    ensures s.id == id && s.stepType == t
    ensures s.tool.None? && s.model.None? && s.description == ""
    ensures s.input == [] && s.dependsOn == []
    ensures s.required && !s.canSkipIfUnavailable
  {
    PlanStep(id, t, None, None, "", [], [], true, false)
  }

  /** The ids of the steps, in order. */
  function Ids(steps: seq<PlanStep>): (r: seq<string>)
    ensures |r| == |steps|
    ensures forall i :: 0 <= i < |steps| ==> r[i] == steps[i].id
  {
    seq(|steps|, i requires 0 <= i < |steps| => steps[i].id)
  }

  lemma IdsConcat(a: seq<PlanStep>, b: seq<PlanStep>)
    ensures Ids(a + b) == Ids(a) + Ids(b)
  {
    assert forall i :: 0 <= i < |a + b| ==> Ids(a + b)[i] == (Ids(a) + Ids(b))[i];
  }

  datatype Plan = Plan(
    planId: string,
    version: string,
    userQuery: string,
    source: string,
    intent: string,
    complexity: ComplexityLevel,
    priority: string,
    safety: SafetyLevel,
    budget: Budget,
    capabilities: seq<string>,
    steps: seq<PlanStep>)

  /** `Plan(plan_id=...)` with every other field left at its default. */
  function NewPlan(planId: string): (p: Plan)
    ensures p.planId == planId && p.version == "1.0" && p.userQuery == "" && p.source == "api"
    ensures p.intent == "" && p.complexity == Simple && p.priority == "normal"
    ensures p.safety == Normal && p.budget == DefaultBudget
    ensures p.capabilities == [] && p.steps == []
  {
    Plan(planId, "1.0", "", "api", "", Simple, "normal", Normal, DefaultBudget, [], [])
  }

  function OptStr(o: Option<string>): Json
  {
    if o.Some? then JStr(o.value) else JNull
  }

  function StepToDict(s: PlanStep): Json
  {
    JObj([
      ("id", JStr(s.id)),
      ("type", JStr(StepTypeValue(s.stepType))),
      ("tool", OptStr(s.tool)),
      ("model", OptStr(s.model)),
      ("description", JStr(s.description)),
      ("input", JObj(s.input)),
      ("depends_on", JArr(StrList(s.dependsOn))),
      ("required", JBool(s.required)),
      ("can_skip_if_unavailable", JBool(s.canSkipIfUnavailable))
    ])
  }

  function StepsToDicts(steps: seq<PlanStep>): (r: seq<Json>)
    ensures |r| == |steps|
    ensures forall k :: 0 <= k < |steps| ==> r[k] == StepToDict(steps[k])
  {
    if steps == [] then [] else [StepToDict(steps[0])] + StepsToDicts(steps[1..])
  }

  /** `Plan.to_dict()`. */
  function PlanToDict(p: Plan): Json
  {
    JObj([
      ("plan_id", JStr(p.planId)),
      ("version", JStr(p.version)),
      ("user_query", JStr(p.userQuery)),
      ("source", JStr(p.source)),
      ("intent", JStr(p.intent)),
      ("complexity", JStr(ComplexityValue(p.complexity))),
      ("priority", JStr(p.priority)),
      ("safety_level", JStr(SafetyValue(p.safety))),
      ("budget", JObj([("max_external_usd", JNum(p.budget.maxExternalUsd)),
                       ("latency_tier", JStr(p.budget.latencyTier))])),
      ("capabilities", JArr(StrList(p.capabilities))),
      ("steps", JArr(StepsToDicts(p.steps)))
    ])
  }

  /**
   * The dictionary form lists the steps in plan order, and each entry keeps
   * the step's id, type value, dependencies and both availability flags.
   */
  lemma PlanToDictSteps(p: Plan, k: nat)
    requires k < |p.steps|
    ensures var d := PlanToDict(p).fields[10];
      d.0 == "steps" && d.1.JArr? && |d.1.items| == |p.steps|
      && var e := d.1.items[k].fields;
      e[0] == ("id", JStr(p.steps[k].id))
      && e[1] == ("type", JStr(StepTypeValue(p.steps[k].stepType)))
      && e[6] == ("depends_on", JArr(StrList(p.steps[k].dependsOn)))
      && e[7] == ("required", JBool(p.steps[k].required))
      && e[8] == ("can_skip_if_unavailable", JBool(p.steps[k].canSkipIfUnavailable))
  {
  }

  // ---- specialist verification result ----

  /** A cited source; label, url and type are copied from the decoded JSON as they are. */
  datatype Source = Source(sourceLabel: Json, url: Json, sourceType: Json, trust: Level)

  datatype VerifiedSpecs = VerifiedSpecs(
    cellType: Json,
    nominalVoltageV: real,
    nominalCapacityAh: real,
    allowedCapacityRangeAh: Json,
    sources: seq<Source>)

  datatype PackCalculation = PackCalculation(
    seriesCells: int,
    parallelCells: int,
    packNominalVoltageV: real,
    packTotalAh: real,
    packTotalWh: real,
    packTotalKwh: real)

  datatype RangeEstimate = RangeEstimate(
    usableWh: real,
    runtimeHours: real,
    idealRangeMiles: real,
    realisticRangeMiles: real)

  datatype Issue = Issue(field: Json, problem: Json, severity: Json)

  datatype Confidence = Confidence(overall: Level, specs: Level, math: Level, range: Level)

  datatype VerificationResult = VerificationResult(
    verifiedSpecs: Option<VerifiedSpecs>,
    packCalculation: Option<PackCalculation>,
    rangeEstimate: Option<RangeEstimate>,
    issues: seq<Issue>,
    confidence: Confidence,
    error: Option<Json>)

  const AllMedium := Confidence(Medium, Medium, Medium, Medium)

  /** `VerificationResult()`: nothing verified, no issues, medium confidence everywhere. */
  const DefaultVerification := VerificationResult(None, None, None, [], AllMedium, None)

  /** `VerificationResult(error=e)`. */
  function ErrorResult(e: Json): (r: VerificationResult)
    ensures r.error == Some(e)
    ensures r.verifiedSpecs.None? && r.packCalculation.None? && r.rangeEstimate.None?
    ensures r.issues == [] && r.confidence == AllMedium
  {
    DefaultVerification.(error := Some(e))
  }

  function SourceToDict(s: Source): Json
  {
    JObj([("label", s.sourceLabel), ("url", s.url), ("type", s.sourceType),
          ("trust_level", JStr(LevelValue(s.trust)))])
  }

  function SourcesToDicts(ss: seq<Source>): (r: seq<Json>)
    ensures |r| == |ss|
    ensures forall k :: 0 <= k < |ss| ==> r[k] == SourceToDict(ss[k])
  {
    if ss == [] then [] else [SourceToDict(ss[0])] + SourcesToDicts(ss[1..])
  }

  function IssueToDict(i: Issue): Json
  {
    JObj([("field", i.field), ("problem", i.problem), ("severity", i.severity)])
  }

  function IssuesToDicts(xs: seq<Issue>): (r: seq<Json>)
    ensures |r| == |xs|
    ensures forall k :: 0 <= k < |xs| ==> r[k] == IssueToDict(xs[k])
  {
    if xs == [] then [] else [IssueToDict(xs[0])] + IssuesToDicts(xs[1..])
  }

  function ConfidenceToDict(c: Confidence): Json
  {
    JObj([("overall", JStr(LevelValue(c.overall))), ("specs", JStr(LevelValue(c.specs))),
          ("math", JStr(LevelValue(c.math))), ("range", JStr(LevelValue(c.range)))])
  }

  function SpecsToDict(v: VerifiedSpecs): Json
  {
    JObj([("cell_type", v.cellType),
          ("nominal_voltage_v", JNum(v.nominalVoltageV)),
          ("nominal_capacity_ah", JNum(v.nominalCapacityAh)),
          ("allowed_capacity_range_ah", v.allowedCapacityRangeAh),
          ("sources", JArr(SourcesToDicts(v.sources)))])
  }

  function PackToDict(p: PackCalculation): Json
  {
    JObj([("series_cells", JNum(p.seriesCells as real)),
          ("parallel_cells", JNum(p.parallelCells as real)),
          ("pack_nominal_voltage_v", JNum(p.packNominalVoltageV)),
          ("pack_total_ah", JNum(p.packTotalAh)),
          ("pack_total_wh", JNum(p.packTotalWh)),
          ("pack_total_kwh", JNum(p.packTotalKwh))])
  }

  function RangeToDict(e: RangeEstimate): Json
  {
    JObj([("usable_wh", JNum(e.usableWh)),
          ("runtime_hours", JNum(e.runtimeHours)),
          ("ideal_range_miles", JNum(e.idealRangeMiles)),
          ("realistic_range_miles", JNum(e.realisticRangeMiles))])
  }

  /** `VerificationResult.to_dict()`: optional parts appear only when set (the error only when truthy). */
  function VerificationToDict(v: VerificationResult): Json
  {
    JObj([("issues", JArr(IssuesToDicts(v.issues))), ("confidence", ConfidenceToDict(v.confidence))]
      + (if v.verifiedSpecs.Some? then [("verified_specs", SpecsToDict(v.verifiedSpecs.value))] else [])
      + (if v.packCalculation.Some? then [("pack_calculation", PackToDict(v.packCalculation.value))] else [])
      + (if v.rangeEstimate.Some? then [("range_estimate", RangeToDict(v.rangeEstimate.value))] else [])
      + (if v.error.Some? && Truthy(v.error.value) then [("error", v.error.value)] else []))
  }

  /**
   * `issues` and `confidence` are always present; each optional key is
   * present exactly when its field is set, and `error` only when it is truthy.
   */
  lemma VerificationToDictKeys(v: VerificationResult)
    ensures VerificationToDict(v).JObj?
    ensures Keys(VerificationToDict(v).fields) == ["issues", "confidence"]
      + (if v.verifiedSpecs.Some? then ["verified_specs"] else [])
      + (if v.packCalculation.Some? then ["pack_calculation"] else [])
      + (if v.rangeEstimate.Some? then ["range_estimate"] else [])
      + (if v.error.Some? && Truthy(v.error.value) then ["error"] else [])
  {
    var base: seq<(string, Json)> := [("issues", JArr(IssuesToDicts(v.issues))), ("confidence", ConfidenceToDict(v.confidence))];
    var p1: seq<(string, Json)> := if v.verifiedSpecs.Some? then [("verified_specs", SpecsToDict(v.verifiedSpecs.value))] else [];
    var p2: seq<(string, Json)> := if v.packCalculation.Some? then [("pack_calculation", PackToDict(v.packCalculation.value))] else [];
    var p3: seq<(string, Json)> := if v.rangeEstimate.Some? then [("range_estimate", RangeToDict(v.rangeEstimate.value))] else [];
    var p4: seq<(string, Json)> := if v.error.Some? && Truthy(v.error.value) then [("error", v.error.value)] else [];
    assert VerificationToDict(v).fields == base + p1 + p2 + p3 + p4;
    assert Keys(base) == ["issues", "confidence"];
    assert Keys(p1) == if v.verifiedSpecs.Some? then ["verified_specs"] else [];
    assert Keys(p2) == if v.packCalculation.Some? then ["pack_calculation"] else [];
    assert Keys(p3) == if v.rangeEstimate.Some? then ["range_estimate"] else [];
    assert Keys(p4) == if v.error.Some? && Truthy(v.error.value) then ["error"] else [];
    KeysConcat(base, p1);
    KeysConcat(base + p1, p2);
    KeysConcat(base + p1 + p2, p3);
    KeysConcat(base + p1 + p2 + p3, p4);
  }

  /** The default result's dictionary form: no issues and medium confidence in all four aspects. */
  lemma DefaultVerificationDict()
    ensures VerificationToDict(DefaultVerification) == JObj([
      ("issues", JArr([])),
      ("confidence", JObj([("overall", JStr("medium")), ("specs", JStr("medium")),
                           ("math", JStr("medium")), ("range", JStr("medium"))]))])
  {
  }

  /** The presenter's output record. */
  datatype FinalizationOutput = FinalizationOutput(
    finalAnswer: Json,
    shortSummary: Json,
    citationsUsed: Json,
    debugInfo: seq<(string, Json)>)
}
