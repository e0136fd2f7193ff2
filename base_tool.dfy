// The tool interface: a tool result, the primary-then-fallback call, and the
// required-parameter check. A tool's `execute` and `fallback` are opaque
// functions; an exception they raise is an `Err` carrying its message.
module BaseTool {
  import opened Wrappers
  import opened Json
  import opened Text

  datatype ToolStatus = Pending | Running | Success | Failed | Timeout

  function ToolStatusValue(s: ToolStatus): string
  {
    match s
    case Pending => "pending"
    case Running => "running"
    case Success => "success"
    case Failed => "failed"
    case Timeout => "timeout"
  }

  datatype ToolResult = ToolResult(
    toolName: string,
    status: ToolStatus,
    data: Option<seq<(string, Json)>>,
    error: Option<string>,
    executionTimeMs: int,
    fallbackUsed: bool)

  /** A concrete tool: its class name, its primary call and its fallback. */
  datatype Tool = Tool(
    toolName: string,
    execute: seq<(string, Json)> -> Result<ToolResult>,
    fallback: (seq<(string, Json)>, string) -> Result<ToolResult>)

  /**
   * `execute_with_fallback`: the primary result when `execute` returns, else
   * the fallback's outcome. It is only a dispatcher between the two, so its
   * contract names which of them answers; what each answer holds is stated
   * by the tools' own `execute` and `fallback`.
   */
  function ExecuteWithFallback(tool: Tool, parameters: seq<(string, Json)>): (r: Result<ToolResult>)
    ensures tool.execute(parameters).Ok? ==> r == tool.execute(parameters)
    ensures tool.execute(parameters).Err? ==> r == tool.fallback(parameters, tool.execute(parameters).error)
  {
    var primary := tool.execute(parameters);
    if primary.Ok? then primary else tool.fallback(parameters, primary.error)
  }

  /** The required fields absent from `parameters`, in the order they are required. */
  function Missing(parameters: seq<(string, Json)>, required: seq<string>): (r: seq<string>)
    ensures forall f :: f in r <==> f in required && !HasKey(parameters, f)
    ensures |r| <= |required|
  {
    if required == [] then []
    else (if HasKey(parameters, required[0]) then [] else [required[0]]) + Missing(parameters, required[1..])
  }

  /** Missing fields are listed in the order they are required: the check distributes over concatenation. */
  lemma {:induction false} MissingConcat(parameters: seq<(string, Json)>, a: seq<string>, b: seq<string>)
    ensures Missing(parameters, a + b) == Missing(parameters, a) + Missing(parameters, b)
  {
    if a != [] {
      assert (a + b)[0] == a[0] && (a + b)[1..] == a[1..] + b;
      MissingConcat(parameters, a[1..], b);
      var head: seq<string> := if HasKey(parameters, a[0]) then [] else [a[0]];
      assert Missing(parameters, a + b) == head + Missing(parameters, a[1..] + b);
      assert Missing(parameters, a) == head + Missing(parameters, a[1..]);
    } else {
      assert a + b == b;
    }
  }

  /** `validate_parameters`: ValueError listing the missing fields exactly when some are missing. */
  function ValidateParameters(parameters: seq<(string, Json)>, required: seq<string>): (r: Result<()>)
    ensures r.Err? <==> exists f :: f in required && !HasKey(parameters, f)
    ensures r.Err? ==> r.error == "Missing required parameters: " + ShowStrList(Missing(parameters, required))
  {
    var missing := Missing(parameters, required);
    if missing != [] then
      assert missing[0] in missing;
      Err("Missing required parameters: " + ShowStrList(missing))
    else Ok(())
  }
}
