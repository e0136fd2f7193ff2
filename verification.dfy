// The specialist verifier: sends the query, the plan, the tool results and
// the sanity report to the fast or the strong external model, decodes its
// JSON reply with the layered parser, and turns it into a verification
// result, filling defaults for missing or invalid values. Each connector is
// a function from the request payload to the reply text, Err carrying the
// text of an exception it raised; `json.loads` is `parse`.
module Verification {
  import opened Wrappers
  import opened Json
  import opened PlanTypes
  import opened JsonExtract

  type Connector = Json -> Result<string>

  /** An error record `{"type": ..., "message": ..., "suggested_action": ...}`. */
  function ErrorRecord(kind: string, message: string, action: string): Json
  {
    JObj([("type", JStr(kind)), ("message", JStr(message)), ("suggested_action", JStr(action))])
  }

  const NoConnectorError := ErrorRecord("no_connector", "External model not configured",
                                        "Answer with available data and note uncertainty")
  const ParseError := ErrorRecord("parse_error", "Specialist returned invalid JSON",
                                  "Use available data with uncertainty note")

  function ExceptionError(message: string): Json
  {
    ErrorRecord("exception", message, "Answer with available data and note uncertainty")
  }

  /** The `type` entry of an error record. */
  function ErrorKind(e: Json): Option<Json>
  {
    Get(e, "type")
  }

  // ---- decoding ----

  /** One cited source; an invalid trust level is MEDIUM. */
  function DecodeSource(src: seq<(string, Json)>): (s: Source)
    ensures ParseLevel(GetOr(src, "trust_level", JStr("medium"))).None? ==> s.trust == Medium
    ensures !HasKey(src, "trust_level") ==> s.trust == Medium
    ensures !HasKey(src, "label") ==> s.sourceLabel == JStr("")
    ensures !HasKey(src, "url") ==> s.url == JStr("")
    ensures !HasKey(src, "type") ==> s.sourceType == JStr("other")
  {
    Source(GetOr(src, "label", JStr("")), GetOr(src, "url", JStr("")), GetOr(src, "type", JStr("other")),
           ParseLevel(GetOr(src, "trust_level", JStr("medium"))).GetOr(Medium))
  }

  function DecodeSourceList(ds: seq<Json>): (r: seq<Source>)
    requires forall i :: 0 <= i < |ds| ==> ds[i].JObj?
    ensures |r| == |ds| && forall i :: 0 <= i < |ds| ==> r[i] == DecodeSource(ds[i].fields)
  {
    seq(|ds|, i requires 0 <= i < |ds| => DecodeSource(ds[i].fields))
  }

  /** `verified_specs`: a dict; missing numerics are 0; the sources keep their order. */
  function DecodeSpecs(v: Json, np: NumParse): (r: Result<VerifiedSpecs>)
    ensures r.Ok? ==> v.JObj?
    ensures r.Ok? && !HasKey(v.fields, "nominal_voltage_v") ==> r.value.nominalVoltageV == 0.0
    ensures r.Ok? && !HasKey(v.fields, "nominal_capacity_ah") ==> r.value.nominalCapacityAh == 0.0
    ensures r.Ok? && !HasKey(v.fields, "sources") ==> r.value.sources == []
  {
    if !v.JObj? then Err("'verified_specs' is not a dict")
    else
      var d := v.fields;
      var srcs := IterDicts(GetOr(d, "sources", JArr([])));
      var voltage := AsReal(GetOr(d, "nominal_voltage_v", JNum(0.0)), np);
      var capacity := AsReal(GetOr(d, "nominal_capacity_ah", JNum(0.0)), np);
      if srcs.None? then Err("sources are not dicts")
      else if voltage.Err? then Err(voltage.error)
      else if capacity.Err? then Err(capacity.error)
      else Ok(VerifiedSpecs(GetOr(d, "cell_type", JStr("")), voltage.value, capacity.value,
                            GetOr(d, "allowed_capacity_range_ah", JObj([])), DecodeSourceList(srcs.value)))
  }

  function RealField(d: seq<(string, Json)>, key: string, np: NumParse): (r: Result<real>)
    ensures !HasKey(d, key) ==> r == Ok(0.0)
  {
    AsReal(GetOr(d, key, JNum(0.0)), np)
  }

  function IntField(d: seq<(string, Json)>, key: string, np: NumParse): (r: Result<int>)
    ensures !HasKey(d, key) ==> r == Ok(0)
  {
    AsInt(GetOr(d, key, JNum(0.0)), np)
  }

  /** `pack_calculation`: a dict; each missing numeric is 0. */
  function DecodePack(v: Json, np: NumParse): (r: Result<PackCalculation>)
    ensures r.Ok? ==> v.JObj?
  {
    if !v.JObj? then Err("'pack_calculation' is not a dict")
    else
      var d := v.fields;
      var s := IntField(d, "series_cells", np);
      var p := IntField(d, "parallel_cells", np);
      var volts := RealField(d, "pack_nominal_voltage_v", np);
      var ah := RealField(d, "pack_total_ah", np);
      var wh := RealField(d, "pack_total_wh", np);
      var kwh := RealField(d, "pack_total_kwh", np);
      if s.Err? then Err(s.error)
      else if p.Err? then Err(p.error)
      else if volts.Err? then Err(volts.error)
      else if ah.Err? then Err(ah.error)
      else if wh.Err? then Err(wh.error)
      else if kwh.Err? then Err(kwh.error)
      else Ok(PackCalculation(s.value, p.value, volts.value, ah.value, wh.value, kwh.value))
  }

  /** An empty `pack_calculation` decodes to all zeros. */
  lemma EmptyPackIsZero(np: NumParse)
    ensures DecodePack(JObj([]), np) == Ok(PackCalculation(0, 0, 0.0, 0.0, 0.0, 0.0))
  {
  }

  /** `range_estimate`: a dict; each missing numeric is 0. */
  function DecodeRange(v: Json, np: NumParse): (r: Result<RangeEstimate>)
    ensures r.Ok? ==> v.JObj?
  {
    if !v.JObj? then Err("'range_estimate' is not a dict")
    else
      var d := v.fields;
      var usable := RealField(d, "usable_wh", np);
      var hours := RealField(d, "runtime_hours", np);
      var ideal := RealField(d, "ideal_range_miles", np);
      var realistic := RealField(d, "realistic_range_miles", np);
      if usable.Err? then Err(usable.error)
      else if hours.Err? then Err(hours.error)
      else if ideal.Err? then Err(ideal.error)
      else if realistic.Err? then Err(realistic.error)
      else Ok(RangeEstimate(usable.value, hours.value, ideal.value, realistic.value))
  }

  /** An empty `range_estimate` decodes to all zeros. */
  lemma EmptyRangeIsZero(np: NumParse)
    ensures DecodeRange(JObj([]), np) == Ok(RangeEstimate(0.0, 0.0, 0.0, 0.0))
  {
  }

  /** One issue; severity defaults to "info". */
  function DecodeIssue(d: seq<(string, Json)>): (i: Issue)
    ensures !HasKey(d, "severity") ==> i.severity == JStr("info")
    ensures !HasKey(d, "field") ==> i.field == JStr("")
    ensures !HasKey(d, "problem") ==> i.problem == JStr("")
  {
    Issue(GetOr(d, "field", JStr("")), GetOr(d, "problem", JStr("")), GetOr(d, "severity", JStr("info")))
  }

  function DecodeIssueList(ds: seq<Json>): (r: seq<Issue>)
    requires forall i :: 0 <= i < |ds| ==> ds[i].JObj?
    ensures |r| == |ds| && forall i :: 0 <= i < |ds| ==> r[i] == DecodeIssue(ds[i].fields)
  {
    seq(|ds|, i requires 0 <= i < |ds| => DecodeIssue(ds[i].fields))
  }

  function Aspect(d: seq<(string, Json)>, key: string): Option<Level>
  {
    ParseLevel(GetOr(d, key, JStr("medium")))
  }

  predicate AllAspectsValid(d: seq<(string, Json)>)
  {
    Aspect(d, "overall").Some? && Aspect(d, "specs").Some? && Aspect(d, "math").Some? && Aspect(d, "range").Some?
  }

  /** `confidence`: a dict; if any of the four aspects is invalid, all four are MEDIUM. */
  function DecodeConfidence(v: Json): (r: Result<Confidence>)
    ensures r.Ok? <==> v.JObj?
    ensures r.Ok? && !AllAspectsValid(v.fields) ==> r.value == AllMedium
    ensures r.Ok? && AllAspectsValid(v.fields) ==>
      r.value == Confidence(Aspect(v.fields, "overall").value, Aspect(v.fields, "specs").value,
                            Aspect(v.fields, "math").value, Aspect(v.fields, "range").value)
  {
    if !v.JObj? then Err("'confidence' is not a dict")
    else
      var o := Aspect(v.fields, "overall");
      var s := Aspect(v.fields, "specs");
      var m := Aspect(v.fields, "math");
      var g := Aspect(v.fields, "range");
      if o.Some? && s.Some? && m.Some? && g.Some? then Ok(Confidence(o.value, s.value, m.value, g.value))
      else Ok(AllMedium)
  }

  /** `d["key"]` decoded when the key is present. */
  function Optional<T>(d: seq<(string, Json)>, key: string, decode: Json -> Result<T>): (r: Result<Option<T>>)
    ensures !HasKey(d, key) ==> r == Ok(None)
    ensures HasKey(d, key) ==> (r.Ok? <==> decode(Lookup(d, key).value).Ok?)
    ensures HasKey(d, key) && r.Ok? ==> r.value == Some(decode(Lookup(d, key).value).value)
  {
    match Lookup(d, key)
    case None => Ok(None)
    case Some(v) => var x := decode(v); if x.Ok? then Ok(Some(x.value)) else Err(x.error)
  }

  /**
   * `_dict_to_verification_result`: the three optional parts are decoded
   * only when their keys are present; Err where decoding raises.
   */
  function DictToVerification(d: seq<(string, Json)>, np: NumParse): (r: Result<VerificationResult>)
    ensures r.Ok? ==> r.value.error.None?
    ensures r.Ok? ==> (r.value.verifiedSpecs.Some? <==> HasKey(d, "verified_specs"))
    ensures r.Ok? ==> (r.value.packCalculation.Some? <==> HasKey(d, "pack_calculation"))
    ensures r.Ok? ==> (r.value.rangeEstimate.Some? <==> HasKey(d, "range_estimate"))
    ensures r.Ok? && !HasKey(d, "confidence") ==> r.value.confidence == AllMedium
    ensures r.Ok? && !HasKey(d, "issues") ==> r.value.issues == []
  {
    var specs := Optional(d, "verified_specs", v => DecodeSpecs(v, np));
    var pack := Optional(d, "pack_calculation", v => DecodePack(v, np));
    var range := Optional(d, "range_estimate", v => DecodeRange(v, np));
    var issues := IterDicts(GetOr(d, "issues", JArr([])));
    var confidence := Optional(d, "confidence", DecodeConfidence);
    if specs.Err? then Err(specs.error)
    else if pack.Err? then Err(pack.error)
    else if range.Err? then Err(range.error)
    else if issues.None? then Err("issues are not dicts")
    else if confidence.Err? then Err(confidence.error)
    else Ok(VerificationResult(specs.value, pack.value, range.value, DecodeIssueList(issues.value),
                               confidence.value.GetOr(AllMedium), None))
  }

  /** A decoded result's issues are the decoded dicts of the `issues` list. */
  lemma VerificationIssues(d: seq<(string, Json)>, np: NumParse)
    requires DictToVerification(d, np).Ok?
    ensures IterDicts(GetOr(d, "issues", JArr([]))).Some?
    ensures DictToVerification(d, np).value.issues == DecodeIssueList(IterDicts(GetOr(d, "issues", JArr([]))).value)
  {
  }

  /** The issues keep the order in which the specialist listed them. */
  lemma IssueOrderPreserved(d: seq<(string, Json)>, np: NumParse, k: nat)
    requires DictToVerification(d, np).Ok? && HasKey(d, "issues") && Lookup(d, "issues").value.JArr?
    requires k < |Lookup(d, "issues").value.items|
    ensures var items := Lookup(d, "issues").value.items;
      |DictToVerification(d, np).value.issues| == |items| && items[k].JObj?
      && DictToVerification(d, np).value.issues[k] == DecodeIssue(items[k].fields)
  {
    var items := Lookup(d, "issues").value.items;
    VerificationIssues(d, np);
    assert GetOr(d, "issues", JArr([])) == JArr(items);
    assert IterDicts(JArr(items)).Some?;
  }

  // ---- verify ----

  /** The request sent to the specialist. */
  function Payload(query: string, plan: Json, toolResults: seq<(string, seq<(string, Json)>)>,
                   sanity: seq<(string, Json)>): Json
  {
    JObj([
      ("task", JStr("verify_and_correct_battery_analysis")),
      ("mode", JStr("json_only")),
      ("original_query", JStr(query)),
      ("plan", plan),
      ("tool_results", JObj(ResultsJson(toolResults))),
      ("sanity", JObj(sanity)),
      ("constraints", JObj([("response_format", JStr("json")), ("no_prose", JBool(true)),
                            ("max_tokens", JNum(800.0)), ("strict_fields", JBool(true))]))])
  }

  function ResultsJson(rs: seq<(string, seq<(string, Json)>)>): (r: seq<(string, Json)>)
    ensures |r| == |rs| && forall i :: 0 <= i < |rs| ==> r[i] == (rs[i].0, JObj(rs[i].1))
  {
    seq(|rs|, i requires 0 <= i < |rs| => (rs[i].0, JObj(rs[i].1)))
  }

  /** The decoded reply turned into a result: an `error` entry is passed on as it is. */
  function FromReply(j: Option<Json>, np: NumParse): (r: VerificationResult)
    ensures j.None? || !Truthy(j.value) ==> r == ErrorResult(ParseError)
    ensures j.Some? && j.value.JObj? && HasKey(j.value.fields, "error") ==>
      r == ErrorResult(Lookup(j.value.fields, "error").value)
  {
    if j.None? || !Truthy(j.value) then ErrorResult(ParseError)
    else if !j.value.JObj? then ErrorResult(ExceptionError("the specialist's JSON is not a dict"))
    else
      var d := j.value.fields;
      match Lookup(d, "error")
      case Some(e) => ErrorResult(e)
      case None =>
        match DictToVerification(d, np)
        case Ok(v) => v
        case Err(m) => ErrorResult(ExceptionError(m))
  }

  /**
   * `verify`: the strong connector iff `useStrong`; without it, a
   * `no_connector` error and no call; an exception from the call becomes an
   * `exception` error carrying its text.
   */
  function Verify(fast: Option<Connector>, strong: Option<Connector>, parse: string -> Option<Json>, np: NumParse,
                  query: string, plan: Json, toolResults: seq<(string, seq<(string, Json)>)>,
                  sanity: seq<(string, Json)>, useStrong: bool): (r: VerificationResult)
    ensures var c := if useStrong then strong else fast;
      (c.None? ==> r == ErrorResult(NoConnectorError))
      && (c.Some? && c.value(Payload(query, plan, toolResults, sanity)).Err? ==>
          r == ErrorResult(ExceptionError(c.value(Payload(query, plan, toolResults, sanity)).error)))
      && (c.Some? && c.value(Payload(query, plan, toolResults, sanity)).Ok? ==>
          r == FromReply(ParseLayered(parse, c.value(Payload(query, plan, toolResults, sanity)).value), np))
  {
    var connector := if useStrong then strong else fast;
    if connector.None? then ErrorResult(NoConnectorError)
    else
      match connector.value(Payload(query, plan, toolResults, sanity))
      case Err(m) => ErrorResult(ExceptionError(m))
      case Ok(reply) => FromReply(ParseLayered(parse, reply), np)
  }

  /**
   * Every error decoded from a reply is either tagged parse_error or
   * exception by the verifier, or is the reply's own `error` entry.
   */
  lemma FromReplyErrors(j: Option<Json>, np: NumParse)
    ensures var r := FromReply(j, np);
      r.error.Some? ==>
        ErrorKind(r.error.value) in {Some(JStr("parse_error")), Some(JStr("exception"))}
        || (j.Some? && j.value.JObj? && Lookup(j.value.fields, "error") == r.error)
  {
    if j.Some? && Truthy(j.value) && j.value.JObj? && Lookup(j.value.fields, "error").None? {
      var d := j.value.fields;
      if DictToVerification(d, np).Err? {
        assert ErrorKind(ExceptionError(DictToVerification(d, np).error)) == Some(JStr("exception"));
      }
    }
  }

  /** Free text that holds no JSON object is never passed off as a verification. */
  lemma FreeTextIsParseError(fast: Option<Connector>, strong: Option<Connector>, parse: string -> Option<Json>, np: NumParse,
                             query: string, plan: Json, toolResults: seq<(string, seq<(string, Json)>)>,
                             sanity: seq<(string, Json)>, useStrong: bool)
    requires var c := if useStrong then strong else fast;
      c.Some? && c.value(Payload(query, plan, toolResults, sanity)).Ok?
      && ParseLayered(parse, c.value(Payload(query, plan, toolResults, sanity)).value).None?
    ensures var r := Verify(fast, strong, parse, np, query, plan, toolResults, sanity, useStrong);
      r == ErrorResult(ParseError) && ErrorKind(r.error.value) == Some(JStr("parse_error"))
      && r.verifiedSpecs.None? && r.packCalculation.None? && r.rangeEstimate.None? && r.issues == []
  {
  }
}
