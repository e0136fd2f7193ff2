// The adapter between the OpenAI chat-completion format and the
// orchestrator: request and response conversion, stream chunks, and the
// query, history and token totals of an invocation. The orchestrator, the
// streaming connectors and the clock enter as parameters.
module Adapter {
  import opened Wrappers
  import opened Json
  import opened Seqs
  import ApiConfig
  import Text

  type Dict = seq<(string, Json)>

  /** A value that the final `None` filter keeps. */
  function NonNull(v: Json): Option<Json>
  {
    if v.JNull? then None else Some(v)
  }

  // ---------------------------------------------------------------------
  // convert_request

  /** The keys `convert_request` always writes, in order; the sampling parameters stand at 3 to 8. */
  const BaseKeys: seq<string> :=
    ["messages", "provider", "model", "temperature", "max_tokens", "top_p", "frequency_penalty", "presence_penalty", "stop", "stream"]

  /** The values `convert_request` puts under the base keys, in order. */
  function BaseValues(req: Dict, provider: Json, backendModel: Json): (vs: seq<Json>)
    ensures |vs| == |BaseKeys|
  {
    [GetOr(req, "messages", JArr([])), provider, backendModel,
     GetOr(req, "temperature", JNull), GetOr(req, "max_tokens", JNull), GetOr(req, "top_p", JNull),
     GetOr(req, "frequency_penalty", JNull), GetOr(req, "presence_penalty", JNull), GetOr(req, "stop", JNull),
     GetOr(req, "stream", JBool(false))]
  }

  /** The tools and the tool choice, copied only when the request has the key. */
  function Extras(req: Dict): (fs: Dict)
    ensures Keys(fs) == (if HasKey(req, "tools") then ["tools"] else []) + (if HasKey(req, "tool_choice") then ["tool_choice"] else [])
  {
    (if HasKey(req, "tools") then [("tools", Lookup(req, "tools").value)] else [])
    + (if HasKey(req, "tool_choice") then [("tool_choice", Lookup(req, "tool_choice").value)] else [])
  }

  /** The orchestrator request before the None values are dropped. */
  function Unfiltered(req: Dict, provider: Json, backendModel: Json): (fs: Dict)
  {
    Zip(BaseKeys, BaseValues(req, provider, backendModel)) + Extras(req)
  }

  /** The dict comprehension that drops every None value, keeping the order of the rest. */
  function DropNulls(fs: Dict): (r: Dict)
    ensures |r| <= |fs|
    ensures forall i :: 0 <= i < |r| ==> r[i].1 != JNull
    ensures forall p :: p in r <==> p in fs && p.1 != JNull
  {
    if fs == [] then []
    else
      var rest := DropNulls(fs[1..]);
      assert forall p :: p in fs <==> p == fs[0] || p in fs[1..];
      if fs[0].1.JNull? then rest else [fs[0]] + rest
  }

  /** Dropping the None values of a dict with distinct keys keeps every other key's value. */
  lemma {:induction false} DropNullsLookup(fs: Dict, k: string)
    requires Distinct(Keys(fs))
    ensures Lookup(DropNulls(fs), k) == if HasKey(fs, k) then NonNull(Lookup(fs, k).value) else None
  {
    if fs != [] {
      var rest := DropNulls(fs[1..]);
      assert Keys(fs[1..]) == Keys(fs)[1..];
      DropNullsLookup(fs[1..], k);
      if fs[0].0 == k {
        if fs[0].1.JNull? {
          assert k !in Keys(fs[1..]);
          assert !HasKey(fs[1..], k);
        } else {
          assert ([fs[0]] + rest)[0] == fs[0];
        }
      } else {
        if !fs[0].1.JNull? {
          assert ([fs[0]] + rest)[1..] == rest;
        }
      }
    }
  }

  /** `convert_request`: no key of the result holds None. */
  function ConvertRequest(req: Dict, provider: Json, backendModel: Json): (r: Dict)
    ensures forall i :: 0 <= i < |r| ==> r[i].1 != JNull
  {
    DropNulls(Unfiltered(req, provider, backendModel))
  }

  lemma OutKeysDistinct(tools: bool, choice: bool)
    ensures Distinct(BaseKeys + (if tools then ["tools"] else []) + (if choice then ["tool_choice"] else []))
  {
  }

  lemma ToolKeysNotBase()
    ensures "tools" !in BaseKeys && "tool_choice" !in BaseKeys
  {
  }

  /** The value of a key of a dict without repeated keys is the one stored with it. */
  lemma {:induction false} LookupDistinct(fs: Dict, i: nat)
    requires Distinct(Keys(fs)) && i < |fs|
    ensures Lookup(fs, fs[i].0) == Some(fs[i].1)
  {
    LookupAt(fs, fs[i].0, i);
  }

  /** The keys of the unfiltered request: the base keys, then the tool keys the request has. */
  lemma UnfilteredKeys(req: Dict, provider: Json, backendModel: Json)
    ensures var fs := Unfiltered(req, provider, backendModel);
      Keys(fs) == BaseKeys + Keys(Extras(req)) && Distinct(Keys(fs))
  {
    var fs := Unfiltered(req, provider, backendModel);
    KeysConcat(Zip(BaseKeys, BaseValues(req, provider, backendModel)), Extras(req));
    assert Keys(fs) == BaseKeys + Keys(Extras(req));
    OutKeysDistinct(HasKey(req, "tools"), HasKey(req, "tool_choice"));
  }

  /**
   * Each base key holds its value unless that value is None: in particular
   * each sampling parameter (keys 3 to 8) is present exactly when the
   * request gives it a value, and then with that value.
   */
  lemma BaseField(req: Dict, provider: Json, backendModel: Json, i: nat)
    requires i < |BaseKeys|
    ensures Lookup(ConvertRequest(req, provider, backendModel), BaseKeys[i]) == NonNull(BaseValues(req, provider, backendModel)[i])
  {
    var fs := Unfiltered(req, provider, backendModel);
    var z := Zip(BaseKeys, BaseValues(req, provider, backendModel));
    UnfilteredKeys(req, provider, backendModel);
    assert fs[i] == z[i];
    assert Keys(fs)[i] == BaseKeys[i];
    DropNullsLookup(fs, BaseKeys[i]);
    LookupDistinct(fs, i);
  }

  /** The tools and the tool choice are present exactly when the request has them, not None. */
  lemma ExtraField(req: Dict, provider: Json, backendModel: Json, k: string)
    requires k == "tools" || k == "tool_choice"
    ensures Lookup(ConvertRequest(req, provider, backendModel), k) == NonNull(GetOr(req, k, JNull))
  {
    var fs := Unfiltered(req, provider, backendModel);
    var z := Zip(BaseKeys, BaseValues(req, provider, backendModel));
    var e := Extras(req);
    UnfilteredKeys(req, provider, backendModel);
    DropNullsLookup(fs, k);
    ToolKeysNotBase();
    if HasKey(req, k) {
      var j := if k == "tools" then 0 else |Keys(e)| - 1;
      assert e[j] == (k, Lookup(req, k).value);
      assert fs[|z| + j] == e[j];
      LookupDistinct(fs, |z| + j);
    } else {
      assert k !in Keys(e);
      assert k !in Keys(fs);
    }
  }

  /** A key that is neither a base key nor a tool key never appears. */
  lemma OtherField(req: Dict, provider: Json, backendModel: Json, k: string)
    requires k !in BaseKeys && k != "tools" && k != "tool_choice"
    ensures Lookup(ConvertRequest(req, provider, backendModel), k).None?
  {
    var fs := Unfiltered(req, provider, backendModel);
    UnfilteredKeys(req, provider, backendModel);
    DropNullsLookup(fs, k);
    assert k !in Keys(fs);
  }

  /**
   * What the converted request holds: the provider and the backend model
   * (unless None), `messages` defaulting to [] and `stream` to false.
   */
  lemma ConvertRequestDefaults(req: Dict, provider: Json, backendModel: Json)
    ensures var r := ConvertRequest(req, provider, backendModel);
      Lookup(r, "provider") == NonNull(provider) && Lookup(r, "model") == NonNull(backendModel)
      && (Lookup(req, "messages").None? ==> Lookup(r, "messages") == Some(JArr([])))
      && (Lookup(req, "stream").None? ==> Lookup(r, "stream") == Some(JBool(false)))
      && (Lookup(req, "stream").Some? ==> Lookup(r, "stream") == NonNull(Lookup(req, "stream").value))
  {
    var vs := BaseValues(req, provider, backendModel);
    assert BaseKeys[0] == "messages" && vs[0] == GetOr(req, "messages", JArr([]));
    assert BaseKeys[1] == "provider" && vs[1] == provider;
    assert BaseKeys[2] == "model" && vs[2] == backendModel;
    assert BaseKeys[9] == "stream" && vs[9] == GetOr(req, "stream", JBool(false));
    BaseField(req, provider, backendModel, 0);
    BaseField(req, provider, backendModel, 1);
    BaseField(req, provider, backendModel, 2);
    BaseField(req, provider, backendModel, 9);

  }

  // ---------------------------------------------------------------------
  // convert_response

  /** A dict written out with distinct literal keys finds each value at its key. */
  lemma LookupZip(keys: seq<string>, vs: seq<Json>, i: nat)
    requires |keys| == |vs| && Distinct(keys) && i < |keys|
    ensures Lookup(Zip(keys, vs), keys[i]) == Some(vs[i])
  {
    LookupDistinct(Zip(keys, vs), i);
  }

  const MessageKeys: seq<string> := ["role", "content", "tool_calls"]
  const UsageKeys: seq<string> := ["prompt_tokens", "completion_tokens", "total_tokens"]
  const ChoiceKeys: seq<string> := ["index", "message", "finish_reason"]
  const ChunkChoiceKeys: seq<string> := ["index", "delta", "finish_reason"]
  const ResponseKeys: seq<string> := ["id", "object", "created", "model", "choices", "usage", "_metadata"]
  const DeltaKeys: seq<string> := ["content", "role", "tool_calls"]

  lemma LiteralKeysDistinct()
    ensures Distinct(MessageKeys) && Distinct(UsageKeys) && Distinct(ChoiceKeys) && Distinct(ChunkChoiceKeys)
    ensures Distinct(ResponseKeys) && Distinct(DeltaKeys)
  {
  }

  /** The assistant message: role and content, and the tool calls when the orchestrator gave any. */
  function ResponseMessage(resp: Dict): (m: Dict)
    ensures Lookup(m, "role") == Some(JStr("assistant"))
    ensures Lookup(m, "content") == Some(GetOr(resp, "content", JStr("")))
    ensures HasKey(m, "tool_calls") <==> HasKey(resp, "tool_calls")
    ensures HasKey(resp, "tool_calls") ==> Lookup(m, "tool_calls") == Lookup(resp, "tool_calls")
  {
    var vs := [JStr("assistant"), GetOr(resp, "content", JStr(""))];
    LiteralKeysDistinct();
    if HasKey(resp, "tool_calls") then
      var all := vs + [Lookup(resp, "tool_calls").value];
      LookupZip(MessageKeys, all, 1);
      LookupZip(MessageKeys, all, 2);
      Zip(MessageKeys, all)
    else
      var keys := MessageKeys[..2];
      LookupZip(keys, vs, 1);
      assert "tool_calls" !in keys;
      Zip(keys, vs)
  }

  /** The usage block: each count as the orchestrator gave it, 0 when absent. */
  function Usage(resp: Dict): (u: Dict)
    ensures Lookup(u, "prompt_tokens") == Some(GetOr(resp, "prompt_tokens", JNum(0.0)))
    ensures Lookup(u, "completion_tokens") == Some(GetOr(resp, "completion_tokens", JNum(0.0)))
    ensures Lookup(u, "total_tokens") == Some(GetOr(resp, "total_tokens", JNum(0.0)))
  {
    var vs := [GetOr(resp, "prompt_tokens", JNum(0.0)), GetOr(resp, "completion_tokens", JNum(0.0)),
               GetOr(resp, "total_tokens", JNum(0.0))];
    LiteralKeysDistinct();
    LookupZip(UsageKeys, vs, 1);
    LookupZip(UsageKeys, vs, 2);
    Zip(UsageKeys, vs)
  }

  /** The single choice of a response: index 0, the message, and "stop" unless told otherwise. */
  function ResponseChoice(resp: Dict): (c: Dict)
    ensures Lookup(c, "index") == Some(JNum(0.0))
    ensures Lookup(c, "message") == Some(JObj(ResponseMessage(resp)))
    ensures Lookup(c, "finish_reason") == Some(GetOr(resp, "finish_reason", JStr("stop")))
  {
    var vs := [JNum(0.0), JObj(ResponseMessage(resp)), GetOr(resp, "finish_reason", JStr("stop"))];
    LiteralKeysDistinct();
    LookupZip(ChoiceKeys, vs, 1);
    LookupZip(ChoiceKeys, vs, 2);
    Zip(ChoiceKeys, vs)
  }

  /** `convert_response`; `created` is the clock reading in whole seconds. */
  function ConvertResponse(resp: Dict, modelName: string, requestId: string, created: int): (r: Dict)
    ensures Lookup(r, "id") == Some(JStr(requestId))
    ensures Lookup(r, "object") == Some(JStr("chat.completion"))
    ensures Lookup(r, "model") == Some(JStr(modelName))
    ensures Lookup(r, "choices") == Some(JArr([JObj(ResponseChoice(resp))]))
    ensures Lookup(r, "usage") == Some(JObj(Usage(resp)))
    ensures Lookup(r, "created") == Some(JNum(created as real))
    ensures Lookup(r, "_metadata") ==
      Some(JObj([("cost", GetOr(resp, "cost", JNum(0.0))), ("model_used", GetOr(resp, "model_used", JStr(modelName)))]))
    ensures Keys(r) == ResponseKeys
  {
    var metadata := [("cost", GetOr(resp, "cost", JNum(0.0))), ("model_used", GetOr(resp, "model_used", JStr(modelName)))];
    var vs := [JStr(requestId), JStr("chat.completion"), JNum(created as real), JStr(modelName),
               JArr([JObj(ResponseChoice(resp))]), JObj(Usage(resp)), JObj(metadata)];
    LiteralKeysDistinct();
    LookupZip(ResponseKeys, vs, 1);
    LookupZip(ResponseKeys, vs, 3);
    LookupZip(ResponseKeys, vs, 4);
    LookupZip(ResponseKeys, vs, 2);
    LookupZip(ResponseKeys, vs, 5);
    LookupZip(ResponseKeys, vs, 6);
    Zip(ResponseKeys, vs)
  }

  /** The one choice of an OpenAI response, when it has exactly one. */
  function OnlyChoice(r: Dict): Option<Dict>
  {
    var cs := Lookup(r, "choices");
    if cs.Some? && cs.value.JArr? && |cs.value.items| == 1 && cs.value.items[0].JObj? then Some(cs.value.items[0].fields)
    else None
  }

  /**
   * A converted response has exactly one choice, with index 0 and an
   * assistant message carrying the content; the finish reason defaults to
   * "stop" and the counts to 0; tool calls appear exactly when the
   * orchestrator gave some.
   */
  lemma ConvertResponseShape(resp: Dict, modelName: string, requestId: string, created: int)
    ensures var c := OnlyChoice(ConvertResponse(resp, modelName, requestId, created));
      c.Some? && Lookup(c.value, "index") == Some(JNum(0.0))
      && Lookup(c.value, "finish_reason") == Some(GetOr(resp, "finish_reason", JStr("stop")))
      && (!HasKey(resp, "finish_reason") ==> Lookup(c.value, "finish_reason") == Some(JStr("stop")))
      && var m := Lookup(c.value, "message");
      m.Some? && m.value.JObj?
      && Lookup(m.value.fields, "role") == Some(JStr("assistant"))
      && Lookup(m.value.fields, "content") == Some(GetOr(resp, "content", JStr("")))
      && (HasKey(m.value.fields, "tool_calls") <==> HasKey(resp, "tool_calls"))
  {
    var r := ConvertResponse(resp, modelName, requestId, created);
    var choice := ResponseChoice(resp);
    assert OnlyChoice(r) == Some(choice);
    assert Lookup(choice, "message") == Some(JObj(ResponseMessage(resp)));
  }

  /** Absent counts read as 0. */
  lemma UsageDefaults(resp: Dict)
    ensures !HasKey(resp, "prompt_tokens") ==> Lookup(Usage(resp), "prompt_tokens") == Some(JNum(0.0))
    ensures !HasKey(resp, "completion_tokens") ==> Lookup(Usage(resp), "completion_tokens") == Some(JNum(0.0))
    ensures !HasKey(resp, "total_tokens") ==> Lookup(Usage(resp), "total_tokens") == Some(JNum(0.0))
  {
  }

  // ---------------------------------------------------------------------
  // convert_stream_chunk

  /**
   * The delta of a stream chunk: the content only when the chunk's delta is
   * non-empty, the role only on a chunk marked first, and its tool calls.
   */
  function StreamDelta(chunk: Dict): (d: Dict)
    ensures HasKey(d, "content") <==> Truthy(GetOr(chunk, "delta", JStr("")))
    ensures HasKey(d, "content") ==> Lookup(d, "content") == Some(GetOr(chunk, "delta", JStr("")))
    ensures HasKey(d, "role") <==> Truthy(GetOr(chunk, "is_first_chunk", JNull))
    ensures HasKey(d, "role") ==> Lookup(d, "role") == Some(JStr("assistant"))
    ensures HasKey(d, "tool_calls") <==> HasKey(chunk, "tool_calls")
  {
    var content := GetOr(chunk, "delta", JStr(""));
    var a := if Truthy(content) then [("content", content)] else [];
    var b := if Truthy(GetOr(chunk, "is_first_chunk", JNull)) then [("role", JStr("assistant"))] else [];
    var c := if HasKey(chunk, "tool_calls") then [("tool_calls", Lookup(chunk, "tool_calls").value)] else [];
    Slots(a, b, c, "content", "role", "tool_calls");
    a + b + c
  }

  /** Three optional entries under three different keys, joined: each key is there exactly when its entry is. */
  lemma Slots<V>(a: seq<(string, V)>, b: seq<(string, V)>, c: seq<(string, V)>, ka: string, kb: string, kc: string)
    requires ka != kb && kb != kc && ka != kc
    requires |a| <= 1 && |b| <= 1 && |c| <= 1
    requires (a != [] ==> a[0].0 == ka) && (b != [] ==> b[0].0 == kb) && (c != [] ==> c[0].0 == kc)
    ensures var d := a + b + c;
      (HasKey(d, ka) <==> a != []) && (HasKey(d, kb) <==> b != []) && (HasKey(d, kc) <==> c != [])
      && (a != [] ==> Lookup(d, ka) == Some(a[0].1))
      && (b != [] ==> Lookup(d, kb) == Some(b[0].1))
      && (c != [] ==> Lookup(d, kc) == Some(c[0].1))
  {
    assert Keys(a) == (if a == [] then [] else [ka]);
    assert Keys(b) == (if b == [] then [] else [kb]);
    assert Keys(c) == (if c == [] then [] else [kc]);
    var ks := [ka, kb, kc];
    forall i | 0 <= i < 3
      ensures Lookup(a + b + c, ks[i]) == if HasKey(a, ks[i]) then Lookup(a, ks[i]) else if HasKey(b, ks[i]) then Lookup(b, ks[i]) else Lookup(c, ks[i])
    {
      LookupConcat(a + b, c, ks[i]);
      LookupConcat(a, b, ks[i]);
    }
    assert ks[0] == ka && ks[1] == kb && ks[2] == kc;
  }

  /** `convert_stream_chunk`: one choice with index 0, the delta and the chunk's finish reason (None when absent). */
  function ConvertStreamChunk(chunk: Dict, modelName: string, requestId: string, created: int): (r: Dict)
    ensures Lookup(r, "object") == Some(JStr("chat.completion.chunk"))
    ensures Lookup(r, "choices") == Some(JArr([JObj(Zip(ChunkChoiceKeys, [JNum(0.0), JObj(StreamDelta(chunk)),
                                                                           GetOr(chunk, "finish_reason", JNull)]))]))
  {
    var choice := Zip(ChunkChoiceKeys, [JNum(0.0), JObj(StreamDelta(chunk)), GetOr(chunk, "finish_reason", JNull)]);
    var vs := [JStr(requestId), JStr("chat.completion.chunk"), JNum(created as real), JStr(modelName), JArr([JObj(choice)])];
    var keys := ResponseKeys[..5];
    LiteralKeysDistinct();
    LookupZip(keys, vs, 1);
    LookupZip(keys, vs, 4);
    Zip(keys, vs)
  }

  // ---------------------------------------------------------------------
  // invoke_orchestrator and invoke_orchestrator_stream

  const NoMessages := "No messages in request"
  const NoUserMessage := "No user message found in request"

  predicate IsUser(m: Dict)
  {
    Lookup(m, "role") == Some(JStr("user"))
  }

  /** The messages of a request as dicts, when every item is one. */
  function Dicts(items: seq<Json>): (r: Option<seq<Dict>>)
    ensures r.Some? ==> |r.value| == |items| && forall i :: 0 <= i < |items| ==> items[i] == JObj(r.value[i])
    ensures r.None? ==> exists i :: 0 <= i < |items| && !items[i].JObj?
  {
    if items == [] then Some([])
    else if !items[0].JObj? then None
    else
      var rest := Dicts(items[1..]);
      if rest.None? then
        var i :| 0 <= i < |items[1..]| && !items[1..][i].JObj?;
        assert !items[i + 1].JObj?;
        None
      else Some([items[0].fields] + rest.value)
  }

  /** Dicts wrapped as JSON objects. */
  function Objs(ds: seq<Dict>): (js: seq<Json>)
    ensures |js| == |ds| && forall i :: 0 <= i < |ds| ==> js[i] == JObj(ds[i])
  {
    seq(|ds|, i requires 0 <= i < |ds| => JObj(ds[i]))
  }

  lemma {:induction false} DictsObjs(ds: seq<Dict>)
    ensures Dicts(Objs(ds)) == Some(ds)
  {
    if ds != [] {
      assert Objs(ds)[1..] == Objs(ds[1..]);
      DictsObjs(ds[1..]);
      assert [ds[0]] + ds[1..] == ds;
    }
  }

  /** The position of the last user message, scanning from the end. */
  function LastUser(ms: seq<Dict>): (r: Option<nat>)
    ensures r.Some? ==> r.value < |ms| && IsUser(ms[r.value]) && forall j :: r.value < j < |ms| ==> !IsUser(ms[j])
    ensures r.None? <==> forall j :: 0 <= j < |ms| ==> !IsUser(ms[j])
  {
    if ms == [] then None
    else if IsUser(ms[|ms| - 1]) then Some(|ms| - 1)
    else LastUser(ms[..|ms| - 1])
  }

  /** The query of an invocation: the content of the last user message, which must not be empty. */
  function QueryOf(ms: seq<Dict>): (r: Result<Json>)
  {
    if ms == [] then Err(NoMessages)
    else
      var i := LastUser(ms);
      if i.None? || !Truthy(GetOr(ms[i.value], "content", JStr(""))) then Err(NoUserMessage)
      else Ok(GetOr(ms[i.value], "content", JStr("")))
  }

  /**
   * The query is the content of the last user message; the request is
   * refused when there are no messages, no user message, or the last user
   * message is empty, even when an earlier one is not.
   */
  lemma QueryIsLastUser(ms: seq<Dict>)
    ensures QueryOf(ms) == Err(NoMessages) <==> ms == []
    ensures QueryOf(ms).Ok? <==>
      exists i :: 0 <= i < |ms| && IsUser(ms[i]) && (forall j :: i < j < |ms| ==> !IsUser(ms[j]))
                  && Truthy(GetOr(ms[i], "content", JStr("")))
    ensures forall i :: 0 <= i < |ms| && IsUser(ms[i]) && (forall j :: i < j < |ms| ==> !IsUser(ms[j])) ==>
      (QueryOf(ms).Ok? ==> QueryOf(ms).value == GetOr(ms[i], "content", JStr("")))
  {
    var l := LastUser(ms);
    forall i | 0 <= i < |ms| && IsUser(ms[i]) && (forall j :: i < j < |ms| ==> !IsUser(ms[j]))
      ensures l == Some(i)
    {
      assert l.Some?;
    }
  }

  /** The reversed loop of `invoke_orchestrator` that finds the query. */
  method QueryText(ms: seq<Dict>) returns (r: Result<Json>)
    ensures r == QueryOf(ms)
  {
    if ms == [] {
      return Err(NoMessages);
    }
    var i := |ms|;
    while i > 0
      invariant 0 <= i <= |ms|
      invariant forall j :: i <= j < |ms| ==> !IsUser(ms[j])
    {
      i := i - 1;
      if IsUser(ms[i]) {
        assert LastUser(ms) == Some(i) by {
          var l := LastUser(ms);
          assert l.Some? && l.value >= i;
        }
        var query := GetOr(ms[i], "content", JStr(""));
        if !Truthy(query) {
          return Err(NoUserMessage);
        }
        return Ok(query);
      }
    }
    return Err(NoUserMessage);
  }

  /** Each message as (role, content), with the defaults "user" and "". */
  function RoleContent(ms: seq<Dict>): (h: seq<(Json, Json)>)
    ensures |h| == |ms|
    ensures forall i :: 0 <= i < |ms| ==> h[i] == (GetOr(ms[i], "role", JStr("user")), GetOr(ms[i], "content", JStr("")))
  {
    seq(|ms|, i requires 0 <= i < |ms| => (GetOr(ms[i], "role", JStr("user")), GetOr(ms[i], "content", JStr(""))))
  }

  /** The loop that seeds a fresh session with every message except the final one. */
  method SeedHistory(ms: seq<Dict>) returns (h: seq<(Json, Json)>)
    requires ms != []
    ensures h == RoleContent(ms[..|ms| - 1])
  {
    h := [];
    var i := 0;
    while i < |ms| - 1
      invariant 0 <= i <= |ms| - 1
      invariant h == RoleContent(ms[..i])
    {
      h := h + [(GetOr(ms[i], "role", JStr("user")), GetOr(ms[i], "content", JStr("")))];
      i := i + 1;
    }
  }

  /**
   * One message's share of the prompt estimate: its `token_count` (a bool
   * counts as 0 or 1, anything else but a number cannot be summed), else a
   * quarter of its content's length, rounded down.
   */
  function MessageTokens(m: Dict, repr: Json -> string): (r: Result<real>)
    ensures !HasKey(m, "token_count") ==> r == Ok((|Shown(GetOr(m, "content", JStr("")), repr)| / 4) as real)
    ensures Lookup(m, "token_count").Some? && Lookup(m, "token_count").value.JNum? ==> r == Ok(Lookup(m, "token_count").value.n)
    ensures Lookup(m, "token_count") == Some(JNull) ==> r == Err(TypeError)
    ensures r.Err? ==> r.error == TypeError
  {
    var tc := Lookup(m, "token_count");
    if tc.None? then Ok((|Shown(GetOr(m, "content", JStr("")), repr)| / 4) as real)
    else
      match tc.value
      case JNum(n) => Ok(n)
      case JBool(b) => Ok(if b then 1.0 else 0.0)
      case _ => Err(TypeError)
  }

  /** Python's `sum` of counts, in order: the first count that cannot be added (it raises) is the result. */
  function SumOk<T>(xs: seq<T>, count: T -> Result<real>): (r: Result<real>)
  {
    if xs == [] then Ok(0.0)
    else
      var head := count(xs[0]);
      var rest := SumOk(xs[1..], count);
      if head.Err? then head else if rest.Err? then rest else Ok(head.value + rest.value)
  }

  /** A failed sum fails with the error of one of its counts. */
  lemma {:induction false} SumOkFailsAt<T>(xs: seq<T>, count: T -> Result<real>)
    requires SumOk(xs, count).Err?
    ensures exists i :: 0 <= i < |xs| && count(xs[i]) == SumOk(xs, count)
  {
    if count(xs[0]).Ok? {
      SumOkFailsAt(xs[1..], count);
      var i :| 0 <= i < |xs[1..]| && count(xs[1..][i]) == SumOk(xs[1..], count);
      assert count(xs[i + 1]) == SumOk(xs, count);
    }
  }

  /** The sum succeeds exactly when every count does. */
  lemma {:induction false} SumOkOk<T>(xs: seq<T>, count: T -> Result<real>)
    ensures SumOk(xs, count).Ok? <==> forall i :: 0 <= i < |xs| ==> count(xs[i]).Ok?
  {
    if xs != [] {
      SumOkOk(xs[1..], count);
      assert forall i :: 1 <= i < |xs| ==> xs[i] == xs[1..][i - 1];
    }
  }

  /** The sum of a concatenation is the sum of the sums of its parts. */
  lemma {:induction false} SumOkConcat<T>(a: seq<T>, b: seq<T>, count: T -> Result<real>)
    requires SumOk(a, count).Ok? && SumOk(b, count).Ok?
    ensures SumOk(a + b, count) == Ok(SumOk(a, count).value + SumOk(b, count).value)
  {
    if a != [] {
      var ab := a + b;
      assert ab[1..] == a[1..] + b && ab[0] == a[0];
      SumOkConcat(a[1..], b, count);
    } else {
      assert a + b == b;
    }
  }

  /** One message's count as a function value. */
  function Counter(repr: Json -> string): Dict -> Result<real>
  {
    m => MessageTokens(m, repr)
  }

  /** The prompt estimate: the sum over the messages; a message that cannot be counted fails it with TypeError. */
  function PromptTokens(ms: seq<Dict>, repr: Json -> string): (r: Result<real>)
    ensures r.Err? ==> r.error == TypeError
  {
    var r := SumOk(ms, Counter(repr));
    if r.Err? then SumOkFailsAt(ms, Counter(repr)); r else r
  }

  /** The estimate raises exactly when some message's count does. */
  lemma PromptTokensOk(ms: seq<Dict>, repr: Json -> string)
    ensures PromptTokens(ms, repr).Ok? <==> forall i :: 0 <= i < |ms| ==> MessageTokens(ms[i], repr).Ok?
  {
    SumOkOk(ms, Counter(repr));
  }

  /** The estimate of a conversation is the sum of the estimates of its parts. */
  lemma PromptTokensConcat(a: seq<Dict>, b: seq<Dict>, repr: Json -> string)
    requires PromptTokens(a, repr).Ok? && PromptTokens(b, repr).Ok?
    ensures PromptTokens(a + b, repr) == Ok(PromptTokens(a, repr).value + PromptTokens(b, repr).value)
  {
    SumOkConcat(a, b, Counter(repr));
  }

  /** What `process_query` answers: the response text, its token count (0 when unknown) and its cost. */
  datatype Reply = Reply(content: string, tokenCount: int, cost: real)

  /**
   * `process_query`, given the query and the session history; Err carries
   * the text of what it raises.
   */
  type Process = (Json, Option<seq<(Json, Json)>>) -> Result<Reply>

  /** The completion count: the reply's own, else a quarter of its length. */
  function CompletionTokens(reply: Reply): (n: int)
    ensures reply.tokenCount != 0 ==> n == reply.tokenCount
    ensures reply.tokenCount == 0 ==> 0 <= n <= |reply.content|
  {
    if reply.tokenCount != 0 then reply.tokenCount else |reply.content| / 4
  }

  const TotalsKeys: seq<string> := ["content", "finish_reason", "prompt_tokens", "completion_tokens", "total_tokens", "cost", "model_used"]

  lemma TotalsKeysDistinct()
    ensures Distinct(TotalsKeys)
  {
  }

  /** The dict `invoke_orchestrator` returns: the total is the prompt estimate plus the completion count. */
  function Totals(reply: Reply, prompt: real, modelUsed: Json): (t: Dict)
    ensures Lookup(t, "content") == Some(JStr(reply.content))
    ensures Lookup(t, "finish_reason") == Some(JStr("stop"))
    ensures Lookup(t, "prompt_tokens") == Some(JNum(prompt))
    ensures Lookup(t, "completion_tokens") == Some(JNum(CompletionTokens(reply) as real))
    ensures Lookup(t, "total_tokens") == Some(JNum(prompt + CompletionTokens(reply) as real))
  {
    var c := CompletionTokens(reply) as real;
    var vs := [JStr(reply.content), JStr("stop"), JNum(prompt), JNum(c), JNum(prompt + c), JNum(reply.cost), modelUsed];
    TotalsKeysDistinct();
    LookupZip(TotalsKeys, vs, 1);
    LookupZip(TotalsKeys, vs, 2);
    LookupZip(TotalsKeys, vs, 3);
    LookupZip(TotalsKeys, vs, 4);
    Zip(TotalsKeys, vs)
  }

  /** `reversed(messages)` on a value that is not a list of dicts fails. */
  function NotAList(messages: Json): string
  {
    if messages.JNum? || messages.JBool? then TypeError else ApiConfig.AttributeError
  }

  /** The conversation the query runs in: the request's own (None here) or a fresh one seeded with the history. */
  function Seeded(request: Dict, ms: seq<Dict>): Option<seq<(Json, Json)>>
    requires ms != []
  {
    if Truthy(GetOr(request, "_conversation", JNull)) then None else Some(RoleContent(ms[..|ms| - 1]))
  }

  /**
   * The checks both invocations make before anything else: there are
   * messages, they are a list of dicts, and they hold a query.
   */
  function Checked(request: Dict): (r: Result<(seq<Dict>, Json)>)
    ensures r.Ok? ==> r.value.0 != [] && QueryOf(r.value.0) == Ok(r.value.1)
  {
    var messages := GetOr(request, "messages", JArr([]));
    if !Truthy(messages) then Err(NoMessages)
    else if !messages.JArr? then Err(NotAList(messages))
    else
      var ms := Dicts(messages.items);
      if ms.None? then Err(ApiConfig.AttributeError)
      else
        var q := QueryOf(ms.value);
        if q.Err? then Err(q.error) else Ok((ms.value, q.value))
  }

  /** A request whose messages are a non-empty list of dicts is checked by its query alone. */
  lemma CheckedObjs(request: Dict, ms: seq<Dict>)
    requires Lookup(request, "messages") == Some(JArr(Objs(ms))) && ms != []
    ensures Checked(request) == if QueryOf(ms).Err? then Err(QueryOf(ms).error) else Ok((ms, QueryOf(ms).value))
  {
    var items := Objs(ms);
    assert GetOr(request, "messages", JArr([])) == JArr(items);
    assert |items| == |ms|;
    DictsObjs(ms);
  }

  /** A last user message without content leaves no query. */
  lemma EmptyLastUser(ms: seq<Dict>, l: nat)
    requires LastUser(ms) == Some(l) && !HasKey(ms[l], "content")
    ensures QueryOf(ms) == Err(NoUserMessage)
  {
  }

  /**
   * What `invoke_orchestrator` returns; an error `process` raises passes
   * through.
   */
  function Invoked(request: Dict, process: Process, repr: Json -> string): (r: Result<Dict>)
  {
    var c := Checked(request);
    if c.Err? then Err(c.error)
    else
      var (ms, query) := c.value;
      var reply := process(query, Seeded(request, ms));
      if reply.Err? then Err(reply.error)
      else
        var prompt := PromptTokens(ms, repr);
        if prompt.Err? then Err(prompt.error)
        else Ok(Totals(reply.value, prompt.value, GetOr(request, "model", JStr("unknown"))))
  }

  /** `invoke_orchestrator`, with its two loops. */
  method InvokeOrchestrator(request: Dict, process: Process, repr: Json -> string)
    returns (r: Result<Dict>)
    ensures r == Invoked(request, process, repr)
  {
    var messages := GetOr(request, "messages", JArr([]));
    if !Truthy(messages) {
      return Err(NoMessages);
    }
    if !messages.JArr? {
      return Err(NotAList(messages));
    }
    var ms := Dicts(messages.items);
    if ms.None? {
      return Err(ApiConfig.AttributeError);
    }
    var q := QueryText(ms.value);
    if q.Err? {
      return Err(q.error);
    }
    var history: Option<seq<(Json, Json)>> := None;
    if !Truthy(GetOr(request, "_conversation", JNull)) {
      var h := SeedHistory(ms.value);
      history := Some(h);
    }
    var reply := process(q.value, history);
    if reply.Err? {
      return Err(reply.error);
    }
    var prompt := PromptTokens(ms.value, repr);
    if prompt.Err? {
      return Err(prompt.error);
    }
    r := Ok(Totals(reply.value, prompt.value, GetOr(request, "model", JStr("unknown"))));
  }

  /** An answered invocation reports a total that is its prompt count plus its completion count. */
  lemma InvokedTotals(request: Dict, process: Process, repr: Json -> string)
    requires Invoked(request, process, repr).Ok?
    ensures var t := Invoked(request, process, repr).value;
      exists p: real, c: real :: Lookup(t, "prompt_tokens") == Some(JNum(p)) && Lookup(t, "completion_tokens") == Some(JNum(c))
                                 && Lookup(t, "total_tokens") == Some(JNum(p + c))
  {
    var (ms, q) := Checked(request).value;
    var reply := process(q, Seeded(request, ms)).value;
    var p := PromptTokens(ms, repr).value;
    var c := CompletionTokens(reply) as real;
    var t := Invoked(request, process, repr).value;
    assert Lookup(t, "prompt_tokens") == Some(JNum(p)) && Lookup(t, "completion_tokens") == Some(JNum(c));
  }

  /** Once the request's messages pass, what `process_query` raises is what the call raises. */
  lemma InvokedRaises(request: Dict, process: Process, repr: Json -> string, e: string)
    requires Checked(request).Ok?
    requires process(Checked(request).value.1, Seeded(request, Checked(request).value.0)) == Err(e)
    ensures Invoked(request, process, repr) == Err(e)
  {
  }

  /** The backend a streamed request goes to. */
  datatype Backend = LocalBackend | ExternalBackend(name: string)

  /**
   * The connector for the request's provider (default "ollama"): the local
   * one for ollama when there is one, else an external one of that name.
   */
  function PickBackend(request: Dict, hasLocal: bool, external: seq<string>, repr: Json -> string): (r: Result<Backend>)
    ensures r.Ok? && r.value.LocalBackend? ==> hasLocal && GetOr(request, "provider", JStr("ollama")) == JStr("ollama")
    ensures r.Ok? && r.value.ExternalBackend? ==> GetOr(request, "provider", JStr("ollama")) == JStr(r.value.name) && r.value.name in external
  {
    var provider := GetOr(request, "provider", JStr("ollama"));
    if provider == JStr("ollama") && hasLocal then Ok(LocalBackend)
    else if provider.JArr? || provider.JObj? then Err(TypeError)
    else if provider.JStr? && provider.s in external then Ok(ExternalBackend(provider.s))
    else Err("Provider " + Shown(provider, repr) + " not available")
  }

  /** What a connector streams: the pieces it produced, and the error it stopped with, if any. */
  datatype StreamReply = StreamReply(pieces: seq<string>, failure: Option<string>)

  /** What `invoke_orchestrator_stream` yields, and the error it raises at the end, if any. */
  datatype StreamOut = StreamOut(chunks: seq<Dict>, failure: Option<string>)

  /** One streamed piece; every one is marked as not the first. */
  function PieceChunk(piece: string): Dict
  {
    [("delta", JStr(piece)), ("is_first_chunk", JBool(false))]
  }

  function PieceChunks(pieces: seq<string>): (cs: seq<Dict>)
    ensures |cs| == |pieces| && forall i :: 0 <= i < |pieces| ==> cs[i] == PieceChunk(pieces[i])
  {
    seq(|pieces|, i requires 0 <= i < |pieces| => PieceChunk(pieces[i]))
  }

  const FinalChunk: Dict := [("delta", JStr("")), ("finish_reason", JStr("stop"))]

  /**
   * `invoke_orchestrator_stream`: the same message checks as the
   * non-streaming call, then the chosen connector's pieces and a final
   * "stop" chunk; a connector error ends the stream. `generate` stands for
   * the connector, given every message as (role, content), the temperature
   * (default 0.7) and the token limit.
   */
  function InvokedStream(request: Dict, hasLocal: bool, external: seq<string>,
                         generate: (Backend, seq<(Json, Json)>, Json, Json) -> StreamReply,
                         repr: Json -> string): (out: StreamOut)
  {
    var c := Checked(request);
    if c.Err? then StreamOut([], Some(c.error))
    else
      var backend := PickBackend(request, hasLocal, external, repr);
      if backend.Err? then StreamOut([], Some(backend.error))
      else
        var g := generate(backend.value, RoleContent(c.value.0), GetOr(request, "temperature", JNum(0.7)),
                          GetOr(request, "max_tokens", JNull));
        var chunks := PieceChunks(g.pieces);
        if g.failure.Some? then StreamOut(chunks, Some("Failed to stream response: " + g.failure.value))
        else StreamOut(chunks + [FinalChunk], None)
  }

  /**
   * The streaming call refuses a request for exactly the reasons the plain
   * call does, before it streams anything; once those checks pass, neither
   * fails for a message reason.
   */
  lemma StreamChecksAlike(request: Dict, process: Process, hasLocal: bool,
                          external: seq<string>, generate: (Backend, seq<(Json, Json)>, Json, Json) -> StreamReply,
                          repr: Json -> string)
    ensures Checked(request).Err? ==>
      Invoked(request, process, repr) == Err(Checked(request).error)
      && InvokedStream(request, hasLocal, external, generate, repr) == StreamOut([], Some(Checked(request).error))
    ensures Checked(request).Ok? ==>
      (process(Checked(request).value.1, Seeded(request, Checked(request).value.0)).Ok? ==>
         Invoked(request, process, repr) != Err(NoMessages) && Invoked(request, process, repr) != Err(NoUserMessage))
      && InvokedStream(request, hasLocal, external, generate, repr).failure != Some(NoMessages)
      && InvokedStream(request, hasLocal, external, generate, repr).failure != Some(NoUserMessage)
  {
    if Checked(request).Ok? {
      var ms := Checked(request).value.0;
      var p := PromptTokens(ms, repr);
      assert NoMessages[0] == 'N' && NoUserMessage[0] == 'N' && TypeError[0] == 'T';
      var b := PickBackend(request, hasLocal, external, repr);
      if b.Err? && b.error != TypeError {
        assert b.error[0] == 'P';
      }
      var out := InvokedStream(request, hasLocal, external, generate, repr);
      if b.Ok? && out.failure.Some? {
        assert out.failure.value[0] == 'F';
      }
    }
  }

  /**
   * No streamed chunk is ever marked first, so no converted chunk carries
   * the assistant role; an unbroken stream ends with a "stop" chunk whose
   * delta is empty.
   */
  lemma StreamNeverSendsRole(request: Dict, hasLocal: bool, external: seq<string>,
                             generate: (Backend, seq<(Json, Json)>, Json, Json) -> StreamReply, repr: Json -> string)
    ensures var out := InvokedStream(request, hasLocal, external, generate, repr);
      (forall i :: 0 <= i < |out.chunks| ==> !HasKey(StreamDelta(out.chunks[i]), "role"))
      && (out.failure.None? ==> out.chunks != [] && out.chunks[|out.chunks| - 1] == FinalChunk
                                && GetOr(FinalChunk, "finish_reason", JNull) == JStr("stop")
                                && !HasKey(StreamDelta(FinalChunk), "content"))
  {
    FinalChunkFacts();
    var c := Checked(request);
    if c.Ok? {
      var b := PickBackend(request, hasLocal, external, repr);
      if b.Ok? {
        var g := generate(b.value, RoleContent(c.value.0), GetOr(request, "temperature", JNum(0.7)),
                          GetOr(request, "max_tokens", JNull));
        var cs := PieceChunks(g.pieces);
        PieceChunksNoRole(g.pieces);
        if g.failure.None? {
          FinalNoRole(cs);
        }
      }
    }
  }

  /** No piece chunk names a role. */
  lemma PieceChunksNoRole(pieces: seq<string>)
    ensures var cs := PieceChunks(pieces); forall i :: 0 <= i < |cs| ==> !HasKey(StreamDelta(cs[i]), "role")
  {
    var cs := PieceChunks(pieces);
    forall i | 0 <= i < |cs|
      ensures !HasKey(StreamDelta(cs[i]), "role")
    {
      PieceChunkNoRole(pieces[i]);
    }
  }

  /** Appending the final chunk adds no role. */
  lemma FinalNoRole(cs: seq<Dict>)
    requires forall i :: 0 <= i < |cs| ==> !HasKey(StreamDelta(cs[i]), "role")
    ensures var all := cs + [FinalChunk]; forall i :: 0 <= i < |all| ==> !HasKey(StreamDelta(all[i]), "role")
  {
    FinalChunkFacts();
  }

  lemma PieceChunkNoRole(piece: string)
    ensures !HasKey(StreamDelta(PieceChunk(piece)), "role")
  {
    LookupAt(PieceChunk(piece), "is_first_chunk", 1);
  }

  lemma FinalChunkFacts()
    ensures GetOr(FinalChunk, "finish_reason", JNull) == JStr("stop")
    ensures !HasKey(StreamDelta(FinalChunk), "content") && !HasKey(StreamDelta(FinalChunk), "role")
  {
    assert Keys(FinalChunk) == ["delta", "finish_reason"];
    assert !HasKey(FinalChunk, "is_first_chunk");
    LookupAt(FinalChunk, "finish_reason", 1);
  }
}
