// The record of one tool run kept by the orchestrator.
module ToolInvocation {
  import opened Wrappers
  import opened Json

  datatype Invocation = Invocation(
    invocationId: string,
    queryMessageId: string,
    toolName: string,
    timestamp: string,
    parameters: seq<(string, Json)>,
    result: Option<seq<(string, Json)>>,
    error: Option<string>,
    executionTimeMs: int,
    status: string,
    fallbackUsed: bool)

  /** A fresh invocation: `id` and `now` stand for the generated uuid and the current time. */
  function NewInvocation(id: string, now: string): (v: Invocation)
    ensures v.status == "pending" && v.parameters == [] && v.result.None? && v.error.None?
    ensures v.executionTimeMs == 0 && !v.fallbackUsed
    ensures !IsSuccessful(v) && !IsFailed(v)
  {
    Invocation(id, "", "", now, [], None, None, 0, "pending", false)
  }

  predicate IsSuccessful(v: Invocation)
  {
    v.status == "success"
  }

  predicate IsFailed(v: Invocation)
  {
    v.status in ["failed", "timeout"]
  }

  /** A run never counts as both a success and a failure. */
  lemma SuccessExcludesFailure(v: Invocation)
    ensures !(IsSuccessful(v) && IsFailed(v))
    ensures IsFailed(v) <==> v.status == "failed" || v.status == "timeout"
  {
  }

  function OptObj(o: Option<seq<(string, Json)>>): Json
  {
    if o.Some? then JObj(o.value) else JNull
  }

  function OptText(o: Option<string>): Json
  {
    if o.Some? then JStr(o.value) else JNull
  }

  /** `to_dict()`. */
  function ToDict(v: Invocation): (r: seq<(string, Json)>)
    ensures Keys(r) == ["invocation_id", "query_message_id", "tool_name", "timestamp", "parameters",
                        "result", "error", "execution_time_ms", "status", "fallback_used"]
  {
    [("invocation_id", JStr(v.invocationId)),
     ("query_message_id", JStr(v.queryMessageId)),
     ("tool_name", JStr(v.toolName)),
     ("timestamp", JStr(v.timestamp)),
     ("parameters", JObj(v.parameters)),
     ("result", OptObj(v.result)),
     ("error", OptText(v.error)),
     ("execution_time_ms", JNum(v.executionTimeMs as real)),
     ("status", JStr(v.status)),
     ("fallback_used", JBool(v.fallbackUsed))]
  }

  /** Reads an invocation back out of its dictionary form. */
  function FromDict(d: seq<(string, Json)>): Option<Invocation>
  {
    var f := seq(|d|, i requires 0 <= i < |d| => d[i].1);
    if |d| == 10 && f[0].JStr? && f[1].JStr? && f[2].JStr? && f[3].JStr? && f[4].JObj?
      && (f[5].JObj? || f[5].JNull?) && (f[6].JStr? || f[6].JNull?) && f[7].JNum? && f[8].JStr? && f[9].JBool?
    then
      Some(Invocation(f[0].s, f[1].s, f[2].s, f[3].s, f[4].fields,
        if f[5].JObj? then Some(f[5].fields) else None,
        if f[6].JStr? then Some(f[6].s) else None,
        f[7].n.Floor, f[8].s, f[9].b))
    else None
  }

  /** `to_dict` carries every field unchanged: the record can be read back from it. */
  lemma ToDictRoundTrip(v: Invocation)
    ensures FromDict(ToDict(v)) == Some(v)
  {
  }
}
