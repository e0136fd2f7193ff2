// The chat-completions handler: request ids, the checks both the plain and
// the streaming path make in the same order, and the hand-off to the
// adapter. The uuid, the clock, the connectors, the orchestrator and the
// API key enter as parameters.
module ChatHandler {
  import opened Wrappers
  import opened Json
  import opened Text
  import ApiConfig
  import Adapter

  type Dict = Adapter.Dict

  const IdPrefix := "chatcmpl-"

  predicate IsHexDigit(c: char)
  {
    '0' <= c <= '9' || 'a' <= c <= 'f'
  }

  predicate IsHex(s: string)
  {
    forall i :: 0 <= i < |s| ==> IsHexDigit(s[i])
  }

  /** A uuid in its 32-digit hexadecimal form. */
  predicate IsUuidHex(hex: string)
  {
    |hex| == 32 && IsHex(hex)
  }

  /** `generate_request_id`: the prefix and the first 24 digits of a uuid. */
  function RequestId(hex: string): (id: string)
    requires IsUuidHex(hex)
    ensures |id| == |IdPrefix| + 24 && id[..|IdPrefix|] == IdPrefix && IsHex(id[|IdPrefix|..])
  {
    var id := IdPrefix + hex[..24];
    assert id[|IdPrefix|..] == hex[..24];
    id
  }

  /** Two uuids give the same request id exactly when they agree on their first 24 digits. */
  lemma RequestIdInjective(a: string, b: string)
    requires IsUuidHex(a) && IsUuidHex(b)
    ensures RequestId(a) == RequestId(b) <==> a[..24] == b[..24]
  {
    if RequestId(a) == RequestId(b) {
      assert a[..24] == RequestId(a)[|IdPrefix|..];
    }
  }

  /** A request message: its role and its content, which may be absent. */
  datatype Message = Message(role: string, content: Option<string>)

  /** A validated request: the model name, the messages and the other parameters that are set. */
  datatype ChatRequest = ChatRequest(model: string, messages: seq<Message>, params: Dict)

  /** A message dumped without its unset fields. */
  function MessageDump(m: Message): (d: Dict)
    ensures Lookup(d, "role") == Some(JStr(m.role))
    ensures Lookup(d, "content") == if m.content.Some? then Some(JStr(m.content.value)) else None
  {
    [("role", JStr(m.role))] + (if m.content.Some? then [("content", JStr(m.content.value))] else [])
  }

  function Dumps(ms: seq<Message>): (ds: seq<Dict>)
    ensures |ds| == |ms| && forall i :: 0 <= i < |ms| ==> ds[i] == MessageDump(ms[i])
  {
    seq(|ms|, i requires 0 <= i < |ms| => MessageDump(ms[i]))
  }

  /** `model_dump(exclude_none=True)`. */
  function Dump(req: ChatRequest): (d: Dict)
    ensures Lookup(d, "messages") == Some(JArr(Adapter.Objs(Dumps(req.messages))))
  {
    [("model", JStr(req.model)), ("messages", JArr(Adapter.Objs(Dumps(req.messages))))] + req.params
  }

  /** Why a request was refused, by the Python exception it raises. */
  datatype Failure =
    | ValueError(msg: string)
    | RuntimeError(msg: string)
    | KeyError(key: string)
    | Raised(name: string)

  datatype Outcome<T> = Done(value: T) | Failed(failure: Failure)

  const NoMessagesMsg := "At least one message is required"
  const NoUserMsg := "At least one user message is required"
  const GenerateFailed := "Failed to generate response: "
  const StreamFailed := "Failed to stream response: "

  function NotFoundMsg(model: string, available: seq<string>): string
  {
    "Model '" + model + "' not found. Available models: " + Join(available, ", ")
  }

  function UnavailableMsg(model: string): string
  {
    "Model '" + model + "' is configured but not available. Check that required API keys or services are configured."
  }

  predicate HasUser(ms: seq<Message>)
  {
    exists i :: 0 <= i < |ms| && ms[i].role == "user"
  }

  /**
   * The checks of both paths, in order, each raising on the first failure:
   * messages, a user message, a known model, an available model; then the
   * mapping's provider and backend model.
   */
  function Validate(c: ApiConfig.Config, req: ChatRequest, apiKey: Option<string>): (r: Outcome<(Json, Json)>)
    reads c
  {
    if req.messages == [] then Failed(ValueError(NoMessagesMsg))
    else if !HasUser(req.messages) then Failed(ValueError(NoUserMsg))
    else
      var mapping := c.ModelMapping(req.model);
      if mapping.Err? then Failed(Raised(mapping.error))
      else if !Truthy(mapping.value) then Failed(ValueError(NotFoundMsg(req.model, c.ListAvailableModels().value)))
      else
        var available := c.IsModelAvailable(req.model, apiKey);
        if available.Err? then Failed(Raised(available.error))
        else if !available.value then Failed(ValueError(UnavailableMsg(req.model)))
        else
          var fields := mapping.value.fields;
          if !HasKey(fields, "model") then Failed(KeyError("model"))
          else Done((Lookup(fields, "provider").value, Lookup(fields, "model").value))
  }

  /**
   * The first failing check decides: the message checks come before the
   * configuration is consulted, an unlisted model is reported with the
   * listed names, and a request passes only for an available model.
   */
  lemma ValidationOrder(c: ApiConfig.Config, req: ChatRequest, apiKey: Option<string>)
    ensures req.messages == [] ==> Validate(c, req, apiKey) == Failed(ValueError(NoMessagesMsg))
    ensures req.messages != [] && !HasUser(req.messages) ==> Validate(c, req, apiKey) == Failed(ValueError(NoUserMsg))
    ensures HasUser(req.messages) && c.ListAvailableModels().Ok? && req.model !in c.ListAvailableModels().value ==>
      Validate(c, req, apiKey) == Failed(ValueError(NotFoundMsg(req.model, c.ListAvailableModels().value)))
    ensures HasUser(req.messages) && c.ModelMapping(req.model).Ok? && Truthy(c.ModelMapping(req.model).value)
            && c.IsModelAvailable(req.model, apiKey) == Ok(false) ==>
      Validate(c, req, apiKey) == Failed(ValueError(UnavailableMsg(req.model)))
    ensures Validate(c, req, apiKey).Done? ==>
      HasUser(req.messages) && c.IsModelAvailable(req.model, apiKey) == Ok(true)
      && req.model in c.ListAvailableModels().value
  {
    if HasUser(req.messages) && c.ListAvailableModels().Ok? {
      ApiConfig.ListedIffMapped(c, req.model);
    }
    if Validate(c, req, apiKey).Done? {
      ApiConfig.ListedIffMapped(c, req.model);
    }
  }

  /** The message checks do not depend on the configuration or the key. */
  lemma MessageChecksFirst(c1: ApiConfig.Config, c2: ApiConfig.Config, req: ChatRequest, k1: Option<string>, k2: Option<string>)
    requires req.messages == [] || !HasUser(req.messages)
    ensures Validate(c1, req, k1) == Validate(c2, req, k2)
  {
  }

  /** `process_chat_completion`; `process` and `repr` are those of the adapter. */
  function ProcessChat(c: ApiConfig.Config, req: ChatRequest, apiKey: Option<string>, hex: string, created: int,
                       process: Adapter.Process, repr: Json -> string): (r: Outcome<Dict>)
    requires IsUuidHex(hex)
    reads c
  {
    var v := Validate(c, req, apiKey);
    if v.Failed? then Failed(v.failure)
    else
      var orchestratorRequest := Adapter.ConvertRequest(Dump(req), v.value.0, v.value.1);
      var answer := Adapter.Invoked(orchestratorRequest, process, repr);
      if answer.Err? then Failed(RuntimeError(GenerateFailed + answer.error))
      else Done(Adapter.ConvertResponse(answer.value, req.model, RequestId(hex), created))
  }

  /** What the streaming path yields: converted chunks, then the end marker. */
  datatype Item = Chunk(chunk: Dict) | DoneMarker

  datatype Stream = Stream(items: seq<Item>, failure: Option<Failure>)

  /** `convert_stream_chunk` for one request; chunk `i` is stamped with the clock reading `clock(i)`. */
  function Converter(model: string, id: string, clock: nat -> int): (Dict, nat) -> Dict
  {
    (d: Dict, i: nat) => Adapter.ConvertStreamChunk(d, model, id, clock(i))
  }

  /** Each orchestrator chunk converted, in order. */
  function ChunkItems(cs: seq<Dict>, convert: (Dict, nat) -> Dict): (items: seq<Item>)
    ensures |items| == |cs|
    ensures forall i :: 0 <= i < |cs| ==> items[i] == Chunk(convert(cs[i], i))
  {
    seq(|cs|, i requires 0 <= i < |cs| => Chunk(convert(cs[i], i)))
  }

  lemma ChunkItemsSnoc(cs: seq<Dict>, i: nat, convert: (Dict, nat) -> Dict)
    requires i < |cs|
    ensures ChunkItems(cs[..i + 1], convert) == ChunkItems(cs[..i], convert) + [Chunk(convert(cs[i], i))]
  {
    var a := ChunkItems(cs[..i + 1], convert);
    var b := ChunkItems(cs[..i], convert) + [Chunk(convert(cs[i], i))];
    forall j | 0 <= j < |a|
      ensures a[j] == b[j]
    {
      assert cs[..i + 1][j] == cs[j];
    }
  }

  /**
   * `process_chat_completion_stream`: the same checks, then the adapter's
   * chunks converted one by one and "[DONE]"; an adapter error ends the
   * stream with a RuntimeError.
   */
  function Streamed(c: ApiConfig.Config, req: ChatRequest, apiKey: Option<string>, hex: string, clock: nat -> int,
                    hasLocal: bool, external: seq<string>,
                    generate: (Adapter.Backend, seq<(Json, Json)>, Json, Json) -> Adapter.StreamReply,
                    repr: Json -> string): (s: Stream)
    requires IsUuidHex(hex)
    reads c
  {
    var v := Validate(c, req, apiKey);
    if v.Failed? then Stream([], Some(v.failure))
    else
      var orchestratorRequest := Adapter.ConvertRequest(Dump(req), v.value.0, v.value.1);
      var out := Adapter.InvokedStream(orchestratorRequest, hasLocal, external, generate, repr);
      var items := ChunkItems(out.chunks, Converter(req.model, RequestId(hex), clock));
      if out.failure.Some? then Stream(items, Some(RuntimeError(StreamFailed + out.failure.value)))
      else Stream(items + [DoneMarker], None)
  }

  /** The streaming loop: every chunk converted as it arrives, then the marker. */
  method ProcessStream(c: ApiConfig.Config, req: ChatRequest, apiKey: Option<string>, hex: string, clock: nat -> int,
                       hasLocal: bool, external: seq<string>,
                       generate: (Adapter.Backend, seq<(Json, Json)>, Json, Json) -> Adapter.StreamReply,
                       repr: Json -> string) returns (s: Stream)
    requires IsUuidHex(hex)
    ensures s == Streamed(c, req, apiKey, hex, clock, hasLocal, external, generate, repr)
  {
    var v := Validate(c, req, apiKey);
    if v.Failed? {
      return Stream([], Some(v.failure));
    }
    var id := RequestId(hex);
    var orchestratorRequest := Adapter.ConvertRequest(Dump(req), v.value.0, v.value.1);
    var out := Adapter.InvokedStream(orchestratorRequest, hasLocal, external, generate, repr);
    var convert := Converter(req.model, id, clock);
    var items: seq<Item> := [];
    var i := 0;
    while i < |out.chunks|
      invariant 0 <= i <= |out.chunks|
      invariant items == ChunkItems(out.chunks[..i], convert)
    {
      ChunkItemsSnoc(out.chunks, i, convert);
      items := items + [Chunk(convert(out.chunks[i], i))];
      i := i + 1;
    }
    assert out.chunks[..i] == out.chunks;
    if out.failure.Some? {
      return Stream(items, Some(RuntimeError(StreamFailed + out.failure.value)));
    }
    s := Stream(items + [DoneMarker], None);
  }

  /** Both paths refuse a request the same way, and the stream refuses it before yielding anything. */
  lemma PathsValidateAlike(c: ApiConfig.Config, req: ChatRequest, apiKey: Option<string>, hex: string, created: int,
                           clock: nat -> int, process: Adapter.Process,
                           hasLocal: bool, external: seq<string>,
                           generate: (Adapter.Backend, seq<(Json, Json)>, Json, Json) -> Adapter.StreamReply,
                           repr: Json -> string)
    requires IsUuidHex(hex)
    requires Validate(c, req, apiKey).Failed?
    ensures ProcessChat(c, req, apiKey, hex, created, process, repr) == Failed(Validate(c, req, apiKey).failure)
    ensures Streamed(c, req, apiKey, hex, clock, hasLocal, external, generate, repr)
            == Stream([], Some(Validate(c, req, apiKey).failure))
  {
  }

  /** The position of the last message with the user role. */
  function LastUserMessage(ms: seq<Message>): (r: Option<nat>)
    ensures r.Some? ==> r.value < |ms| && ms[r.value].role == "user" && forall j :: r.value < j < |ms| ==> ms[j].role != "user"
    ensures r.None? <==> !HasUser(ms)
  {
    if ms == [] then None
    else if ms[|ms| - 1].role == "user" then Some(|ms| - 1)
    else
      var r := LastUserMessage(ms[..|ms| - 1]);
      assert r.None? ==> forall j :: 0 <= j < |ms| ==> ms[j].role != "user" by {
        if r.None? {
          forall j | 0 <= j < |ms|
            ensures ms[j].role != "user"
          {
            if j < |ms| - 1 {
              assert ms[j] == ms[..|ms| - 1][j];
            }
          }
        }
      }
      r
  }

  /** Two scans for the last user message agree when they agree on who is a user. */
  lemma SameLastUser(ds: seq<Dict>, ms: seq<Message>)
    requires |ds| == |ms| && forall i :: 0 <= i < |ms| ==> (Adapter.IsUser(ds[i]) <==> ms[i].role == "user")
    ensures Adapter.LastUser(ds) == LastUserMessage(ms)
  {
    var a := Adapter.LastUser(ds);
    var b := LastUserMessage(ms);
    if a.Some? {
      assert b.Some? && b.value >= a.value;
    }
    if b.Some? {
      assert a.Some? && a.value >= b.value;
    }
  }

  /** On dumped messages, the adapter finds the same last user message. */
  lemma DumpedLastUser(ms: seq<Message>)
    ensures Adapter.Dicts(Adapter.Objs(Dumps(ms))) == Some(Dumps(ms))
    ensures Adapter.LastUser(Dumps(ms)) == LastUserMessage(ms)
  {
    var ds := Dumps(ms);
    Adapter.DictsObjs(ds);
    forall i | 0 <= i < |ms|
      ensures Adapter.IsUser(ds[i]) <==> ms[i].role == "user"
    {
      assert Lookup(ds[i], "role") == Some(JStr(ms[i].role));
    }
    SameLastUser(ds, ms);
  }

  /**
   * A request that passes validation but whose last user message has no
   * content fails in the orchestrator, and is answered as a generation
   * failure.
   */
  lemma LastUserWithoutContent(c: ApiConfig.Config, req: ChatRequest, apiKey: Option<string>, hex: string, created: int,
                               process: Adapter.Process, repr: Json -> string)
    requires IsUuidHex(hex)
    requires Validate(c, req, apiKey).Done?
    requires LastUserMessage(req.messages).Some? && req.messages[LastUserMessage(req.messages).value].content.None?
    ensures ProcessChat(c, req, apiKey, hex, created, process, repr) == Failed(RuntimeError(GenerateFailed + Adapter.NoUserMessage))
  {
    var v := Validate(c, req, apiKey).value;
    var orq := Adapter.ConvertRequest(Dump(req), v.0, v.1);
    assert Adapter.Checked(orq) == Err(Adapter.NoUserMessage) by {
      Adapter.BaseField(Dump(req), v.0, v.1, 0);
      assert Adapter.BaseKeys[0] == "messages";
      assert Lookup(orq, "messages") == Some(JArr(Adapter.Objs(Dumps(req.messages))));
      DumpedLastUser(req.messages);
      var ds := Dumps(req.messages);
      var l := LastUserMessage(req.messages).value;
      assert !HasKey(ds[l], "content");
      Adapter.EmptyLastUser(ds, l);
      Adapter.CheckedObjs(orq, ds);
    }
    GenerationFails(c, req, apiKey, hex, created, process, repr, Adapter.NoUserMessage);
  }

  /** An orchestrator error after validation is answered as a generation failure carrying its text. */
  lemma GenerationFails(c: ApiConfig.Config, req: ChatRequest, apiKey: Option<string>, hex: string, created: int,
                        process: Adapter.Process, repr: Json -> string, e: string)
    requires IsUuidHex(hex)
    requires Validate(c, req, apiKey).Done?
    requires var v := Validate(c, req, apiKey).value;
      Adapter.Checked(Adapter.ConvertRequest(Dump(req), v.0, v.1)) == Err(e)
    ensures ProcessChat(c, req, apiKey, hex, created, process, repr) == Failed(RuntimeError(GenerateFailed + e))
  {
  }

  /**
   * When the orchestrator raises on a validated request, the handler answers
   * with a generation failure carrying what it raised.
   */
  lemma OrchestratorRaises(c: ApiConfig.Config, req: ChatRequest, apiKey: Option<string>, hex: string, created: int,
                           process: Adapter.Process, repr: Json -> string, e: string)
    requires IsUuidHex(hex)
    requires Validate(c, req, apiKey).Done?
    requires var v := Validate(c, req, apiKey).value;
      var orq := Adapter.ConvertRequest(Dump(req), v.0, v.1);
      Adapter.Checked(orq).Ok?
      && process(Adapter.Checked(orq).value.1, Adapter.Seeded(orq, Adapter.Checked(orq).value.0)) == Err(e)
    ensures ProcessChat(c, req, apiKey, hex, created, process, repr) == Failed(RuntimeError(GenerateFailed + e))
  {
    var v := Validate(c, req, apiKey).value;
    Adapter.InvokedRaises(Adapter.ConvertRequest(Dump(req), v.0, v.1), process, repr, e);
  }

  /** An answered request reports a usage total that is its prompt count plus its completion count. */
  lemma UsageAddsUp(c: ApiConfig.Config, req: ChatRequest, apiKey: Option<string>, hex: string, created: int,
                    process: Adapter.Process, repr: Json -> string)
    requires IsUuidHex(hex)
    requires ProcessChat(c, req, apiKey, hex, created, process, repr).Done?
    ensures var resp := ProcessChat(c, req, apiKey, hex, created, process, repr).value;
      Lookup(resp, "id") == Some(JStr(RequestId(hex)))
      && exists u: Dict, p: real, q: real ::
           Lookup(resp, "usage") == Some(JObj(u)) && Lookup(u, "prompt_tokens") == Some(JNum(p))
           && Lookup(u, "completion_tokens") == Some(JNum(q)) && Lookup(u, "total_tokens") == Some(JNum(p + q))
  {
    var v := Validate(c, req, apiKey).value;
    var orq := Adapter.ConvertRequest(Dump(req), v.0, v.1);
    var t := Adapter.Invoked(orq, process, repr).value;
    Adapter.InvokedTotals(orq, process, repr);
    var p: real, q: real :| Lookup(t, "prompt_tokens") == Some(JNum(p)) && Lookup(t, "completion_tokens") == Some(JNum(q))
                            && Lookup(t, "total_tokens") == Some(JNum(p + q));
    var u := Adapter.Usage(t);
    assert Lookup(u, "prompt_tokens") == Some(JNum(p));
  }

  /** A converted chunk's single choice has a delta without the assistant role. */
  predicate AnnouncesNoRole(chunk: Dict)
  {
    var choices := Lookup(chunk, "choices");
    choices.Some? && choices.value.JArr? && |choices.value.items| == 1 && choices.value.items[0].JObj?
    && var delta := Lookup(choices.value.items[0].fields, "delta");
       delta.Some? && delta.value.JObj? && !HasKey(delta.value.fields, "role")
  }

  /**
   * A stream never announces the assistant role, and an unbroken stream
   * ends with the "[DONE]" marker right after the last chunk.
   */
  lemma StreamShape(c: ApiConfig.Config, req: ChatRequest, apiKey: Option<string>, hex: string, clock: nat -> int,
                    hasLocal: bool, external: seq<string>,
                    generate: (Adapter.Backend, seq<(Json, Json)>, Json, Json) -> Adapter.StreamReply,
                    repr: Json -> string)
    requires IsUuidHex(hex)
    ensures WellEnded(Streamed(c, req, apiKey, hex, clock, hasLocal, external, generate, repr))
  {
    var v := Validate(c, req, apiKey);
    if v.Failed? {
      assert Streamed(c, req, apiKey, hex, clock, hasLocal, external, generate, repr) == Stream([], Some(v.failure));
    } else {
      var orq := Adapter.ConvertRequest(Dump(req), v.value.0, v.value.1);
      var out := Adapter.InvokedStream(orq, hasLocal, external, generate, repr);
      Adapter.StreamNeverSendsRole(orq, hasLocal, external, generate, repr);
      var id := RequestId(hex);
      var items := ChunkItems(out.chunks, Converter(req.model, id, clock));
      ItemsAnnounceNoRole(out.chunks, req.model, id, clock);
      var s := Streamed(c, req, apiKey, hex, clock, hasLocal, external, generate, repr);
      assert s.items == (if out.failure.Some? then items else items + [DoneMarker]) && (s.failure.None? <==> out.failure.None?);
      EndsDone(items, out.failure.Some?, s);
    }
  }

  /** The stream's items: the converted chunks, followed by the marker when nothing failed. */
  lemma EndsDone(items: seq<Item>, failed: bool, s: Stream)
    requires NoRoleItems(items)
    requires !failed ==> items != [] && items[|items| - 1].Chunk?
    requires s.items == (if failed then items else items + [DoneMarker]) && (s.failure.None? <==> !failed)
    ensures WellEnded(s)
  {
    NoRoleDone(items);
  }

  /** No item announces the role, and an unbroken stream ends with a chunk and then the marker. */
  predicate WellEnded(s: Stream)
  {
    (s.failure.None? ==> |s.items| >= 2 && s.items[|s.items| - 1] == DoneMarker && s.items[|s.items| - 2].Chunk?)
    && NoRoleItems(s.items)
  }

  predicate NoRoleItems(items: seq<Item>)
  {
    forall i :: 0 <= i < |items| && items[i].Chunk? ==> AnnouncesNoRole(items[i].chunk)
  }

  lemma NoRoleDone(items: seq<Item>)
    requires NoRoleItems(items)
    ensures NoRoleItems(items + [DoneMarker])
  {
  }

  lemma ItemsAnnounceNoRole(cs: seq<Dict>, model: string, id: string, clock: nat -> int)
    requires forall i :: 0 <= i < |cs| ==> !HasKey(Adapter.StreamDelta(cs[i]), "role")
    ensures NoRoleItems(ChunkItems(cs, Converter(model, id, clock)))
  {
    forall i | 0 <= i < |cs|
      ensures AnnouncesNoRole(ChunkItems(cs, Converter(model, id, clock))[i].chunk)
    {
      ChunkDelta(cs[i], model, id, clock(i));
    }
  }

  lemma ChunkDelta(chunk: Dict, model: string, id: string, created: int)
    requires !HasKey(Adapter.StreamDelta(chunk), "role")
    ensures AnnouncesNoRole(Adapter.ConvertStreamChunk(chunk, model, id, created))
  {
    var vs := [JNum(0.0), JObj(Adapter.StreamDelta(chunk)), GetOr(chunk, "finish_reason", JNull)];
    var d := Zip(Adapter.ChunkChoiceKeys, vs);
    Adapter.LiteralKeysDistinct();
    Adapter.LookupZip(Adapter.ChunkChoiceKeys, vs, 1);
    assert Adapter.ChunkChoiceKeys[1] == "delta";
    assert Lookup(d, "delta") == Some(JObj(Adapter.StreamDelta(chunk)));
  }
}
