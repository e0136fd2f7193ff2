// A model's configuration with the metadata routing reads: its
// capabilities, cost rates and complexity floor, and its dictionary form.
module ModelConfig {
  import opened Wrappers
  import opened Json

  datatype Capability = Concise | WebSearch | Rag | Expert | Advisor | CodeExec | ComplexReasoning
  {
    function Value(): string
    {
      match this
      case Concise => "concise"
      case WebSearch => "web_search"
      case Rag => "rag"
      case Expert => "expert"
      case Advisor => "advisor"
      case CodeExec => "code_exec"
      case ComplexReasoning => "complex_reasoning"
    }
  }

  /** `ModelCapability(value)`: the member with that value; any other value raises ValueError. */
  function CapabilityOf(v: Json): (r: Result<Capability>)
    ensures r.Ok? ==> v == JStr(r.value.Value())
  {
    if v == JStr("concise") then Ok(Concise)
    else if v == JStr("web_search") then Ok(WebSearch)
    else if v == JStr("rag") then Ok(Rag)
    else if v == JStr("expert") then Ok(Expert)
    else if v == JStr("advisor") then Ok(Advisor)
    else if v == JStr("code_exec") then Ok(CodeExec)
    else if v == JStr("complex_reasoning") then Ok(ComplexReasoning)
    else Err("ValueError")
  }

  /** Every capability's value names it back. */
  lemma CapabilityRoundTrip(c: Capability)
    ensures CapabilityOf(JStr(c.Value())) == Ok(c)
  {
  }

  datatype Provider = Ollama | OpenRouter
  {
    function Value(): string
    {
      match this
      case Ollama => "ollama"
      case OpenRouter => "openrouter"
    }
  }

  /** `ModelProvider(value)`. */
  function ProviderOf(v: Json): (r: Result<Provider>)
    ensures r.Ok? ==> v == JStr(r.value.Value())
  {
    if v == JStr("ollama") then Ok(Ollama)
    else if v == JStr("openrouter") then Ok(OpenRouter)
    else Err("ValueError")
  }

  lemma ProviderRoundTrip(p: Provider)
    ensures ProviderOf(JStr(p.Value())) == Ok(p)
  {
  }

  datatype Config = Config(
    modelId: string,
    modelName: string,
    provider: Provider,
    capabilities: seq<Capability>,
    contextWindow: int,
    speedCategory: string,
    costPer1kInput: real,
    costPer1kOutput: real,
    isLocal: bool,
    routingPriority: int,
    minComplexityScore: real,
    maxCostPerQuery: real,
    active: bool)

  /** The dataclass constructor with every defaulted field left at its default. */
  function NewConfig(modelId: string, modelName: string, provider: Provider, capabilities: seq<Capability>,
                     contextWindow: int): (c: Config)
    ensures c.speedCategory == "fast" && c.costPer1kInput == 0.0 && c.costPer1kOutput == 0.0 && c.isLocal
    ensures c.routingPriority == 100 && c.minComplexityScore == 0.0 && c.maxCostPerQuery == 1.0 && c.active
  {
    Config(modelId, modelName, provider, capabilities, contextWindow, "fast", 0.0, 0.0, true, 100, 0.0, 1.0, true)
  }

  predicate HasCapability(c: Config, cap: Capability)
  {
    cap in c.capabilities
  }

  predicate CanHandleComplexity(c: Config, complexityScore: real)
  {
    complexityScore >= c.minComplexityScore
  }

  function Max(a: real, b: real): real
  {
    if a >= b then a else b
  }

  /** `is_cost_effective`: the tokens priced at the dearer of the two rates stay within the per-query cap. */
  predicate IsCostEffective(c: Config, estimatedTokens: int)
  {
    (estimatedTokens as real / 1000.0) * Max(c.costPer1kInput, c.costPer1kOutput) <= c.maxCostPerQuery
  }

  /** `get_estimated_cost`: each side's tokens priced per thousand at its own rate. */
  function EstimatedCost(c: Config, inputTokens: int, outputTokens: int): (r: real)
    ensures c.costPer1kInput == 0.0 && c.costPer1kOutput == 0.0 ==> r == 0.0
    ensures c.costPer1kInput >= 0.0 && c.costPer1kOutput >= 0.0 && inputTokens >= 0 && outputTokens >= 0 ==> r >= 0.0
  {
    (inputTokens as real / 1000.0) * c.costPer1kInput + (outputTokens as real / 1000.0) * c.costPer1kOutput
  }

  lemma ScaleLe(x: real, a: real, b: real)
    requires x >= 0.0 && a <= b
    ensures x * a <= x * b
  {
  }

  /**
   * A query whose total tokens pass `is_cost_effective` costs, split into
   * any input and output share, no more than the per-query cap.
   */
  lemma CostEffectiveBoundsEstimate(c: Config, inputTokens: nat, outputTokens: nat)
    requires IsCostEffective(c, inputTokens + outputTokens)
    ensures EstimatedCost(c, inputTokens, outputTokens) <= c.maxCostPerQuery
  {
    var m := Max(c.costPer1kInput, c.costPer1kOutput);
    var x, y := inputTokens as real / 1000.0, outputTokens as real / 1000.0;
    ScaleLe(x, c.costPer1kInput, m);
    ScaleLe(y, c.costPer1kOutput, m);
    assert (inputTokens + outputTokens) as real / 1000.0 == x + y;
    assert (x + y) * m == x * m + y * m;
  }

  function CapabilityValues(caps: seq<Capability>): (r: seq<Json>)
    ensures |r| == |caps| && forall i :: 0 <= i < |caps| ==> r[i] == JStr(caps[i].Value())
  {
    seq(|caps|, i requires 0 <= i < |caps| => JStr(caps[i].Value()))
  }

  const ConfigKeys: seq<string> := ["model_id", "model_name", "provider", "capabilities", "context_window",
    "speed_category", "cost_per_1k_input", "cost_per_1k_output", "is_local", "routing_priority",
    "min_complexity_score", "max_cost_per_query", "active"]

  /** `to_dict`: every field under its own name, the enums by their values. */
  function ToDict(c: Config): (d: seq<(string, Json)>)
    ensures Keys(d) == ConfigKeys
  {
    Zip(ConfigKeys, [JStr(c.modelId), JStr(c.modelName), JStr(c.provider.Value()),
      JArr(CapabilityValues(c.capabilities)), JNum(c.contextWindow as real), JStr(c.speedCategory),
      JNum(c.costPer1kInput), JNum(c.costPer1kOutput), JBool(c.isLocal), JNum(c.routingPriority as real),
      JNum(c.minComplexityScore), JNum(c.maxCostPerQuery), JBool(c.active)])
  }

  /** `[ModelCapability(c) for c in value]`: the first element that names no capability raises. */
  function CapabilitiesOf(items: seq<Json>): (r: Result<seq<Capability>>)
    ensures r.Ok? ==> |r.value| == |items| && forall i :: 0 <= i < |items| ==> items[i] == JStr(r.value[i].Value())
  {
    if items == [] then Ok([])
    else
      var first := CapabilityOf(items[0]);
      var rest := CapabilitiesOf(items[1..]);
      if first.Err? then Err(first.error)
      else if rest.Err? then Err(rest.error)
      else Ok([first.value] + rest.value)
  }

  /** A string field's value. */
  function Str(v: Json): Result<string>
  {
    if v.JStr? then Ok(v.s) else Err(TypeError)
  }

  /** An int field's value: a whole JSON number. */
  function Int(v: Json): Result<int>
  {
    if v.JNum? && v.n == v.n.Floor as real then Ok(v.n.Floor) else Err(TypeError)
  }

  /** A float field's value. */
  function Num(v: Json): Result<real>
  {
    if v.JNum? then Ok(v.n) else Err(TypeError)
  }

  function Bool(v: Json): Result<bool>
  {
    if v.JBool? then Ok(v.b) else Err(TypeError)
  }

  /** The five fields `from_dict` reads with `data[...]`, the enums among them converted. */
  datatype Required = Required(modelId: Json, modelName: Json, provider: Provider, capabilities: seq<Capability>,
                               contextWindow: Json)

  /**
   * The `data[...]` reads of `from_dict`, in argument order: the first
   * missing key raises KeyError, and the provider and every capability must
   * name a member.
   */
  function RequiredOf(d: seq<(string, Json)>): (r: Result<Required>)
    ensures r.Ok? ==>
      HasKey(d, "model_id") && HasKey(d, "model_name") && HasKey(d, "provider")
      && HasKey(d, "capabilities") && HasKey(d, "context_window")
    ensures !HasKey(d, "model_id") ==> r.Err?
  {
    var modelId := Lookup(d, "model_id");
    if modelId.None? then Err("KeyError: model_id") else
    var modelName := Lookup(d, "model_name");
    if modelName.None? then Err("KeyError: model_name") else
    var provider := Lookup(d, "provider");
    if provider.None? then Err("KeyError: provider") else
    var providerValue := ProviderOf(provider.value);
    if providerValue.Err? then Err(providerValue.error) else
    var capabilities := Lookup(d, "capabilities");
    if capabilities.None? then Err("KeyError: capabilities") else
    var items := Iterated(capabilities.value);
    if items.Err? then Err(items.error) else
    var caps := CapabilitiesOf(items.value);
    if caps.Err? then Err(caps.error) else
    var contextWindow := Lookup(d, "context_window");
    if contextWindow.None? then Err("KeyError: context_window") else
    Ok(Required(modelId.value, modelName.value, providerValue.value, caps.value, contextWindow.value))
  }

  /** The eight `data.get(key, default)` reads of `from_dict`, in field order. */
  function Defaulted(d: seq<(string, Json)>): (r: seq<Json>)
    ensures |r| == 8
    ensures !HasKey(d, "speed_category") ==> r[0] == JStr("fast")
    ensures !HasKey(d, "cost_per_1k_input") ==> r[1] == JNum(0.0)
    ensures !HasKey(d, "cost_per_1k_output") ==> r[2] == JNum(0.0)
    ensures !HasKey(d, "is_local") ==> r[3] == JBool(true)
    ensures !HasKey(d, "routing_priority") ==> r[4] == JNum(100.0)
    ensures !HasKey(d, "min_complexity_score") ==> r[5] == JNum(0.0)
    ensures !HasKey(d, "max_cost_per_query") ==> r[6] == JNum(1.0)
    ensures !HasKey(d, "active") ==> r[7] == JBool(true)
  {
    [GetOr(d, "speed_category", JStr("fast")), GetOr(d, "cost_per_1k_input", JNum(0.0)),
     GetOr(d, "cost_per_1k_output", JNum(0.0)), GetOr(d, "is_local", JBool(true)),
     GetOr(d, "routing_priority", JNum(100.0)), GetOr(d, "min_complexity_score", JNum(0.0)),
     GetOr(d, "max_cost_per_query", JNum(1.0)), GetOr(d, "active", JBool(true))]
  }

  /** The config from the values read, each of its field's JSON type. */
  function Build(q: Required, opt: seq<Json>): (r: Result<Config>)
    requires |opt| == 8
    ensures r.Ok? ==> r.value.provider == q.provider && r.value.capabilities == q.capabilities
    ensures r.Ok? ==>
      JStr(r.value.speedCategory) == opt[0] && JNum(r.value.costPer1kInput) == opt[1]
      && JNum(r.value.costPer1kOutput) == opt[2] && JBool(r.value.isLocal) == opt[3]
      && JNum(r.value.routingPriority as real) == opt[4] && JNum(r.value.minComplexityScore) == opt[5]
      && JNum(r.value.maxCostPerQuery) == opt[6] && JBool(r.value.active) == opt[7]
  {
    var id, name, window := Str(q.modelId), Str(q.modelName), Int(q.contextWindow);
    var speed, costIn, costOut, isLocal := Str(opt[0]), Num(opt[1]), Num(opt[2]), Bool(opt[3]);
    var priority, minScore, maxCost, active := Int(opt[4]), Num(opt[5]), Num(opt[6]), Bool(opt[7]);
    if id.Err? || name.Err? || window.Err? || speed.Err? || costIn.Err? || costOut.Err? || isLocal.Err?
       || priority.Err? || minScore.Err? || maxCost.Err? || active.Err?
    then Err(TypeError)
    else Ok(Config(id.value, name.value, q.provider, q.capabilities, window.value, speed.value,
                   costIn.value, costOut.value, isLocal.value, priority.value, minScore.value, maxCost.value,
                   active.value))
  }

  /**
   * `from_dict`. The five fields without a default are read with
   * `data[...]`; every other field falls back to its dataclass default when
   * absent.
   */
  function FromDict(d: seq<(string, Json)>): (r: Result<Config>)
    ensures r.Ok? ==> RequiredOf(d).Ok?
    ensures r.Ok? && !HasKey(d, "speed_category") ==> r.value.speedCategory == "fast"
    ensures r.Ok? && !HasKey(d, "cost_per_1k_input") ==> r.value.costPer1kInput == 0.0
    ensures r.Ok? && !HasKey(d, "cost_per_1k_output") ==> r.value.costPer1kOutput == 0.0
    ensures r.Ok? && !HasKey(d, "is_local") ==> r.value.isLocal
    ensures r.Ok? && !HasKey(d, "routing_priority") ==> r.value.routingPriority == 100
    ensures r.Ok? && !HasKey(d, "min_complexity_score") ==> r.value.minComplexityScore == 0.0
    ensures r.Ok? && !HasKey(d, "max_cost_per_query") ==> r.value.maxCostPerQuery == 1.0
    ensures r.Ok? && !HasKey(d, "active") ==> r.value.active
  {
    var q := RequiredOf(d);
    if q.Err? then Err(q.error) else Build(q.value, Defaulted(d))
  }

  /** The list `to_dict` writes reads back as the same capabilities. */
  lemma {:induction false} CapabilitiesRoundTrip(caps: seq<Capability>)
    ensures CapabilitiesOf(CapabilityValues(caps)) == Ok(caps)
  {
    if caps != [] {
      assert caps == [caps[0]] + caps[1..];
      CapabilityRoundTrip(caps[0]);
      assert CapabilityValues(caps)[1..] == CapabilityValues(caps[1..]);
      CapabilitiesRoundTrip(caps[1..]);
    }
  }

  /** No key of the dictionary form repeats. */
  lemma ConfigKeysDistinct()
    ensures forall i, j :: 0 <= j < i < |ConfigKeys| ==> ConfigKeys[j] != ConfigKeys[i]
  {
  }

  /** Each key of `to_dict(c)` holds the value written under it. */
  lemma ToDictLookup(c: Config, i: nat)
    requires i < |ConfigKeys|
    ensures Lookup(ToDict(c), ConfigKeys[i]) == Some(ToDict(c)[i].1)
  {
    ConfigKeysDistinct();
    LookupAt(ToDict(c), ConfigKeys[i], i);
  }

  /** The dictionary holding, under each key, the value `to_dict(c)` writes there. */
  predicate Holds(d: seq<(string, Json)>, c: Config)
  {
    Lookup(d, "model_id") == Some(JStr(c.modelId)) && Lookup(d, "model_name") == Some(JStr(c.modelName))
    && Lookup(d, "provider") == Some(JStr(c.provider.Value()))
    && Lookup(d, "capabilities") == Some(JArr(CapabilityValues(c.capabilities)))
    && Lookup(d, "context_window") == Some(JNum(c.contextWindow as real))
    && Lookup(d, "speed_category") == Some(JStr(c.speedCategory))
    && Lookup(d, "cost_per_1k_input") == Some(JNum(c.costPer1kInput))
    && Lookup(d, "cost_per_1k_output") == Some(JNum(c.costPer1kOutput))
    && Lookup(d, "is_local") == Some(JBool(c.isLocal))
    && Lookup(d, "routing_priority") == Some(JNum(c.routingPriority as real))
    && Lookup(d, "min_complexity_score") == Some(JNum(c.minComplexityScore))
    && Lookup(d, "max_cost_per_query") == Some(JNum(c.maxCostPerQuery))
    && Lookup(d, "active") == Some(JBool(c.active))
  }

  lemma ToDictHolds(c: Config)
    ensures Holds(ToDict(c), c)
  {
    ToDictLookup(c, 0);
    ToDictLookup(c, 1);
    ToDictLookup(c, 2);
    ToDictLookup(c, 3);
    ToDictLookup(c, 4);
    ToDictLookup(c, 5);
    ToDictLookup(c, 6);
    ToDictLookup(c, 7);
    ToDictLookup(c, 8);
    ToDictLookup(c, 9);
    ToDictLookup(c, 10);
    ToDictLookup(c, 11);
    ToDictLookup(c, 12);
  }

  lemma RequiredHolds(d: seq<(string, Json)>, c: Config) returns (q: Required)
    requires Holds(d, c)
    ensures q == Required(JStr(c.modelId), JStr(c.modelName), c.provider, c.capabilities, JNum(c.contextWindow as real))
    ensures RequiredOf(d) == Ok(q)
  {
    q := Required(JStr(c.modelId), JStr(c.modelName), c.provider, c.capabilities, JNum(c.contextWindow as real));
    ProviderRoundTrip(c.provider);
    CapabilitiesRoundTrip(c.capabilities);
  }

  /** Distinct capabilities have distinct values. */
  lemma ValueInjective(a: Capability, b: Capability)
    requires a.Value() == b.Value()
    ensures a == b
  {
    CapabilityRoundTrip(a);
    CapabilityRoundTrip(b);
  }

  lemma FromDictCapabilities(d: seq<(string, Json)>) returns (caps: seq<Capability>)
    requires FromDict(d).Ok? && Lookup(d, "capabilities").Some? && Lookup(d, "capabilities").value.JArr?
    ensures caps == FromDict(d).value.capabilities
    ensures CapabilitiesOf(Lookup(d, "capabilities").value.items) == Ok(caps)
  {
    caps := RequiredOf(d).value.capabilities;
  }

  /**
   * A config read from a dict has a capability exactly when the dict's
   * capability list names it.
   */
  lemma HasCapabilityFromDict(d: seq<(string, Json)>, cap: Capability)
    requires FromDict(d).Ok? && Lookup(d, "capabilities").Some? && Lookup(d, "capabilities").value.JArr?
    ensures HasCapability(FromDict(d).value, cap) <==> JStr(cap.Value()) in Lookup(d, "capabilities").value.items
  {
    var items := Lookup(d, "capabilities").value.items;
    var caps := FromDictCapabilities(d);
    if JStr(cap.Value()) in items {
      var i :| 0 <= i < |items| && items[i] == JStr(cap.Value());
      ValueInjective(cap, caps[i]);
    }
  }

  /** The optional fields of `c` in `Defaulted` order. */
  function OptionalValues(c: Config): seq<Json>
  {
    [JStr(c.speedCategory), JNum(c.costPer1kInput), JNum(c.costPer1kOutput), JBool(c.isLocal),
     JNum(c.routingPriority as real), JNum(c.minComplexityScore), JNum(c.maxCostPerQuery), JBool(c.active)]
  }

  lemma DefaultedHolds(d: seq<(string, Json)>, c: Config)
    requires Holds(d, c)
    ensures Defaulted(d) == OptionalValues(c)
  {
  }

  lemma BuildValues(c: Config)
    ensures Build(Required(JStr(c.modelId), JStr(c.modelName), c.provider, c.capabilities, JNum(c.contextWindow as real)),
                  OptionalValues(c)) == Ok(c)
  {
    assert (c.contextWindow as real).Floor == c.contextWindow;
    assert (c.routingPriority as real).Floor == c.routingPriority;
  }

  /** Any dictionary holding `c`'s values under the keys reads back as `c`. */
  lemma FromDictHolds(d: seq<(string, Json)>, c: Config)
    requires Holds(d, c)
    ensures FromDict(d) == Ok(c)
  {
    var q := RequiredHolds(d, c);
    DefaultedHolds(d, c);
    BuildValues(c);
  }

  /** `from_dict(to_dict(c))` is `c` again, field by field. */
  lemma FromDictToDict(c: Config)
    ensures FromDict(ToDict(c)) == Ok(c)
  {
    ToDictHolds(c);
    FromDictHolds(ToDict(c), c);
  }
}
