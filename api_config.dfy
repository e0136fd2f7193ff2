// The API server's configuration: a nested dict loaded from the YAML file
// (or the built-in defaults) with dot-path lookups and the model-mapping
// queries built on them. Reading the file and the environment is left to
// the caller: the loaded document and the OpenRouter key are parameters.
module ApiConfig {
  import opened Wrappers
  import opened Json
  import opened Text

  const AttributeError := "AttributeError"

  /** `_load_defaults`. */
  function Defaults(): Json
  {
    JObj([
      ("server", JObj([("host", JStr("0.0.0.0")), ("port", JNum(9000.0)), ("workers", JNum(4.0)), ("reload", JBool(false))])),
      ("auth", JObj([("enabled", JBool(false)), ("allow_no_auth", JBool(true))])),
      ("model_mapping", JObj([("granite-local", GraniteEntry())])),
      ("default_model", JStr("qwen-local")),
      ("cors", JObj([("enabled", JBool(true)), ("allow_origins", JArr([JStr("*")])),
                     ("allow_methods", JArr([JStr("GET"), JStr("POST"), JStr("OPTIONS")])),
                     ("allow_headers", JArr([JStr("Content-Type"), JStr("Authorization")]))])),
      ("rate_limiting", JObj([("enabled", JBool(false)), ("default_limit", JStr("60/minute"))])),
      ("logging", JObj([("level", JStr("INFO")), ("log_requests", JBool(true)), ("log_responses", JBool(false))]))
    ])
  }

  /**
   * The value a walk along `keys` reaches, or None where `get` gives up
   * and returns its default: a segment missing or stored as None, or a
   * segment applied to something that is not a dict.
   */
  function Walk(v: Json, keys: seq<string>): (r: Option<Json>)
    ensures keys != [] && r.Some? ==> !r.value.JNull?
    decreases |keys|
  {
    if keys == [] then Some(v)
    else if !v.JObj? then None
    else
      var next := Lookup(v.fields, keys[0]);
      if next.None? || next.value.JNull? then None else Walk(next.value, keys[1..])
  }

  /** Walking a path in two parts is walking the first part and then the second from where it lands. */
  lemma {:induction false} WalkConcat(v: Json, a: seq<string>, b: seq<string>)
    ensures Walk(v, a + b) == if Walk(v, a).None? then None else Walk(Walk(v, a).value, b)
    decreases |a|
  {
    if a != [] {
      assert (a + b)[0] == a[0] && (a + b)[1..] == a[1..] + b;
      if v.JObj? {
        var next := Lookup(v.fields, a[0]);
        if next.Some? && !next.value.JNull? {
          WalkConcat(next.value, a[1..], b);
        }
      }
    } else {
      assert a + b == b;
    }
  }

  /** A one-segment walk finds exactly the non-None value stored under the key. */
  lemma WalkOne(fields: seq<(string, Json)>, k: string)
    ensures Walk(JObj(fields), [k]).Some? <==> HasKey(fields, k) && !Lookup(fields, k).value.JNull?
    ensures Walk(JObj(fields), [k]).Some? ==> (k, Walk(JObj(fields), [k]).value) in fields
  {
    if HasKey(fields, k) {
      LookupIn(fields, k);
    }
  }

  /** `get` on a path already split into its segments. */
  function GetPath(config: Json, keys: seq<string>, default: Json): Json
  {
    Walk(config, keys).GetOr(default)
  }

  class Config {
    var config: Json

    /**
     * A missing or unreadable file loads the defaults; a document that
     * loads as something false (an empty file) becomes the empty dict.
     */
    constructor (loaded: Option<Json>)
      ensures loaded.None? ==> config == Defaults()
      ensures loaded.Some? ==> config == if Truthy(loaded.value) then loaded.value else JObj([])
    {
      if loaded.None? {
        config := Defaults();
      } else if Truthy(loaded.value) {
        config := loaded.value;
      } else {
        config := JObj([]);
      }
    }

    /** `get`: follow the dot-separated key segment by segment. */
    method Get(key: string, default: Json) returns (r: Json)
      ensures r == GetPath(config, Split(key, "."), default)
    {
      var keys := Split(key, ".");
      var value := config;
      var i := 0;
      while i < |keys|
        invariant 0 <= i <= |keys|
        invariant Walk(config, keys) == Walk(value, keys[i..])
      {
        assert keys[i..][0] == keys[i] && keys[i..][1..] == keys[i + 1..];
        if value.JObj? {
          var next := Lookup(value.fields, keys[i]);
          if next.None? || next.value.JNull? {
            return default;
          }
          value := next.value;
        } else {
          return default;
        }
        i := i + 1;
      }
      assert keys[i..] == [];
      r := value;
    }

    /** The `model_mapping` section, or `{}` when there is none (a key without dots is one segment). */
    function Mappings(): Json
      reads this
    {
      GetPath(config, ["model_mapping"], JObj([]))
    }

    /**
     * `get_model_mapping`: the entry stored under the exact name, None
     * (JNull) when there is none; a mapping section that is not a dict
     * has no `.get`.
     */
    function ModelMapping(modelName: string): (r: Result<Json>)
      reads this
      ensures r.Ok? <==> Mappings().JObj?
      ensures r.Ok? && HasKey(Mappings().fields, modelName) ==> (modelName, r.value) in Mappings().fields
      ensures r.Ok? && !HasKey(Mappings().fields, modelName) ==> r.value == JNull
      ensures r.Err? ==> r.error == AttributeError
    {
      var m := Mappings();
      if !m.JObj? then Err(AttributeError)
      else
        var e := Lookup(m.fields, modelName);
        if e.Some? then
          LookupIn(m.fields, modelName);
          Ok(e.value)
        else Ok(JNull)
    }

    /** `list_available_models`: the names in the mapping section, in order. */
    function ListAvailableModels(): (r: Result<seq<string>>)
      reads this
      ensures r.Ok? <==> Mappings().JObj?
      ensures r.Ok? ==> |r.value| == |Mappings().fields|
    {
      var m := Mappings();
      if m.JObj? then Ok(Keys(m.fields)) else Err(AttributeError)
    }

    /** `get_default_model`. */
    function DefaultModel(): Json
      reads this
    {
      GetPath(config, ["default_model"], JStr("qwen-local"))
    }

    /**
     * `is_model_available`: no entry (or a false one) is unavailable; an
     * ollama entry is always available, an openrouter entry only with an
     * API key, and any other provider never.
     */
    function IsModelAvailable(modelName: string, apiKey: Option<string>): (r: Result<bool>)
      reads this
      ensures ModelMapping(modelName).Err? ==> r.Err?
      ensures r == Ok(true) ==>
        var e := ModelMapping(modelName).value;
        e.JObj? && (Lookup(e.fields, "provider") == Some(JStr("ollama"))
                    || (Lookup(e.fields, "provider") == Some(JStr("openrouter")) && apiKey.Some? && apiKey.value != ""))
      ensures ModelMapping(modelName).Ok? && !Truthy(ModelMapping(modelName).value) ==> r == Ok(false)
    {
      var mapping := ModelMapping(modelName);
      if mapping.Err? then Err(mapping.error)
      else if !Truthy(mapping.value) then Ok(false)
      else if !mapping.value.JObj? then Err(AttributeError)
      else
        var provider := Lookup(mapping.value.fields, "provider");
        if provider == Some(JStr("ollama")) then Ok(true)
        else if provider == Some(JStr("openrouter")) then Ok(apiKey.Some? && apiKey.value != "")
        else Ok(false)
    }
  }

  /** Every listed model name has a mapping; a name that is not listed has none. */
  lemma ListedIffMapped(c: Config, modelName: string)
    requires c.ListAvailableModels().Ok?
    ensures c.ModelMapping(modelName).Ok?
    ensures modelName !in c.ListAvailableModels().value ==> c.ModelMapping(modelName).value == JNull
    ensures modelName in c.ListAvailableModels().value ==> (modelName, c.ModelMapping(modelName).value) in c.Mappings().fields
  {
  }

  /** An openrouter entry is available exactly when a non-empty key is set. */
  lemma OpenRouterNeedsKey(c: Config, modelName: string, apiKey: Option<string>)
    requires c.ModelMapping(modelName).Ok? && c.ModelMapping(modelName).value.JObj?
    requires Lookup(c.ModelMapping(modelName).value.fields, "provider") == Some(JStr("openrouter"))
    ensures c.IsModelAvailable(modelName, apiKey) == Ok(apiKey.Some? && apiKey.value != "")
  {
  }

  /** The default mapping section: "granite-local" on ollama. */
  function GraniteEntry(): Json
  {
    JObj([("provider", JStr("ollama")), ("model", JStr("granite4:tiny-h"))])
  }

  lemma WalkFound(fields: seq<(string, Json)>, k: string, x: Json)
    requires Lookup(fields, k) == Some(x) && !x.JNull?
    ensures Walk(JObj(fields), [k]) == Some(x)
  {
    assert [k][1..] == [];
  }

  lemma DefaultMappingSection()
    ensures Walk(Defaults(), ["model_mapping"]) == Some(JObj([("granite-local", GraniteEntry())]))
  {
    var d := Defaults().fields;
    LookupAt(d, "model_mapping", 2);
    WalkFound(d, "model_mapping", d[2].1);
  }

  lemma DefaultModelSection()
    ensures Walk(Defaults(), ["default_model"]) == Some(JStr("qwen-local"))
  {
    var d := Defaults().fields;
    LookupAt(d, "default_model", 3);
    WalkFound(d, "default_model", d[3].1);
  }

  /** With the defaults, "granite-local" is served by ollama and so is available; the default model is "qwen-local". */
  lemma DefaultsServeGranite(c: Config, apiKey: Option<string>)
    requires c.config == Defaults()
    ensures c.ModelMapping("granite-local") == Ok(GraniteEntry())
    ensures c.IsModelAvailable("granite-local", apiKey) == Ok(true)
    ensures c.DefaultModel() == JStr("qwen-local")
  {
    DefaultMappingSection();
    DefaultModelSection();
    assert c.ModelMapping("granite-local") == Ok(GraniteEntry());
    assert Lookup(GraniteEntry().fields, "provider") == Some(JStr("ollama"));
  }

  /** The default model has no entry in the default mapping, so it reports unavailable. */
  lemma DefaultModelUnmapped(c: Config, apiKey: Option<string>)
    requires c.config == Defaults()
    ensures c.IsModelAvailable("qwen-local", apiKey) == Ok(false)
  {
    DefaultMappingSection();
    assert Lookup([("granite-local", GraniteEntry())], "qwen-local") == None;
  }
}
