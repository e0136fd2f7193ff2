// The sandboxed code executor: the empty-code guard, the split of the
// container's combined log into stdout and stderr, and the timeout,
// execution-failure and unavailability fallbacks. The container itself is a
// `Sandbox`: whether a client is available and what running a program gives.
module CodeExecutor {
  import opened Wrappers
  import opened Json
  import opened Text
  import opened BaseTool

  const ExecutorName: string := "CodeExecutorTool"

  // ---------------------------------------------------------------------
  // Container logs

  const ErrorMarkers: seq<string> := ["error", "traceback", "exception", "warning"]

  /** A log line is routed to stderr when it mentions an error marker, in any case. */
  predicate IsErrorLine(line: string)
  {
    ContainsAny(Lower(line), ErrorMarkers)
  }

  /** The lines of a stripped log. */
  function LogLines(logs: string): (r: seq<string>)
    ensures |r| >= 1
  {
    Split(Strip(logs), "\n")
  }

  /** The lines that are (`toErr`) or are not error lines, in their original order. */
  function Keep(lines: seq<string>, toErr: bool): (r: seq<string>)
    ensures |r| <= |lines|
  {
    if lines == [] then []
    else
      var last := lines[|lines| - 1];
      Keep(lines[..|lines| - 1], toErr) + (if IsErrorLine(last) == toErr then [last] else [])
  }

  /** The two streams `_parse_container_logs` returns. */
  function LogStreams(logs: string): (string, string)
  {
    var lines := LogLines(logs);
    (Join(Keep(lines, false), "\n"), Join(Keep(lines, true), "\n"))
  }

  /** `_parse_container_logs`: one pass over the lines, appending each to one list. */
  method ParseContainerLogs(logs: string) returns (stdout: string, stderr: string)
    ensures (stdout, stderr) == LogStreams(logs)
  {
    var lines := Split(Strip(logs), "\n");
    var outLines: seq<string> := [];
    var errLines: seq<string> := [];
    var i := 0;
    while i < |lines|
      invariant 0 <= i <= |lines|
      invariant outLines == Keep(lines[..i], false)
      invariant errLines == Keep(lines[..i], true)
    {
      assert lines[..i + 1][..i] == lines[..i];
      var line := lines[i];
      if IsErrorLine(line) {
        errLines := errLines + [line];
      } else {
        outLines := outLines + [line];
      }
      i := i + 1;
    }
    assert lines[..|lines|] == lines;
    stdout := Join(outLines, "\n");
    stderr := Join(errLines, "\n");
  }

  /** Each stream holds only its own kind of line. */
  lemma {:induction false} KeepSorts(lines: seq<string>, toErr: bool)
    ensures forall l :: l in Keep(lines, toErr) ==> l in lines && IsErrorLine(l) == toErr
  {
    if lines != [] {
      KeepSorts(lines[..|lines| - 1], toErr);
    }
  }

  /** Every line goes to exactly one of the two streams: the streams together are the lines, as a multiset. */
  lemma {:induction false} KeepPartitions(lines: seq<string>)
    ensures multiset(Keep(lines, false)) + multiset(Keep(lines, true)) == multiset(lines)
    ensures |Keep(lines, false)| + |Keep(lines, true)| == |lines|
  {
    if lines != [] {
      var init := lines[..|lines| - 1];
      var last := lines[|lines| - 1];
      KeepPartitions(init);
      assert lines == init + [last];
      assert multiset(lines) == multiset(init) + multiset{last};
      if IsErrorLine(last) {
        assert Keep(lines, true) == Keep(init, true) + [last];
        assert Keep(lines, false) == Keep(init, false);
      } else {
        assert Keep(lines, false) == Keep(init, false) + [last];
        assert Keep(lines, true) == Keep(init, true);
      }
    }
  }

  /** Selection distributes over concatenation, so each stream keeps the lines' relative order. */
  lemma {:induction false} KeepConcat(a: seq<string>, b: seq<string>, toErr: bool)
    ensures Keep(a + b, toErr) == Keep(a, toErr) + Keep(b, toErr)
    decreases |b|
  {
    if b == [] {
      assert a + b == a;
    } else {
      var init := b[..|b| - 1];
      var last := b[|b| - 1];
      assert a + b == (a + init) + [last];
      assert (a + b)[..|a + b| - 1] == a + init;
      KeepConcat(a, init, toErr);
    }
  }

  // ---------------------------------------------------------------------
  // Execution and fallbacks

  /** What running a program in a container gives: an exit code with the combined log, a timeout, or an exception. */
  datatype RunOutcome = Exited(exitCode: int, logs: string) | TimedOut | Raised(message: string)

  /** The container runtime: whether a client could be created, and what running a program gives. */
  datatype Sandbox = Sandbox(clientAvailable: bool, run: string -> RunOutcome)

  const DockerMissingError: string :=
    "Docker client not available. Please ensure:\n1. Docker is installed and running\n2. Your user has Docker permissions\nFix with: ./scripts/fix_docker_permissions.sh"
  const NoCodeError: string := "No code provided for execution"
  const SnippetLength: nat := 200

  /** The kinds of advice an execution failure can carry. */
  datatype Hint = ImportHint | SyntaxHint | MemoryHint | GenericHint

  function HintText(h: Hint): string
  {
    match h
    case ImportHint => "The code tried to import a module that's not available in the sandbox. Only standard library modules are supported."
    case SyntaxHint => "Check the code syntax for errors."
    case MemoryHint => "The code used too much memory. Try processing less data."
    case GenericHint => "Try rewriting the code with error handling."
  }

  function Failure(error: string, data: Option<seq<(string, Json)>>, fallbackUsed: bool): ToolResult
  {
    ToolResult(ExecutorName, Failed, data, Some(error), 0, fallbackUsed)
  }

  /** `_timeout_fallback`: a timeout result carrying at most the first 200 characters of the code. */
  function TimeoutFallback(code: string, timeoutSeconds: nat): (r: ToolResult)
    ensures r.status == Timeout && r.fallbackUsed && r.toolName == ExecutorName
    ensures r.error == Some("Code execution timed out after " + NatToString(timeoutSeconds) + "s")
    ensures r.data.Some? && Lookup(r.data.value, "code") == Some(JStr(Take(code, SnippetLength)))
    ensures |Take(code, SnippetLength)| <= SnippetLength && Take(code, SnippetLength) == code[..|Take(code, SnippetLength)|]
  {
    var data := [("suggestion", JStr("Try simplifying the code or breaking it into smaller steps")),
                 ("code", JStr(Take(code, SnippetLength)))];
    assert Lookup(data, "code") == Some(data[1].1) by { LookupAt(data, "code", 1); }
    ToolResult(ExecutorName, Timeout, Some(data), Some("Code execution timed out after " + NatToString(timeoutSeconds) + "s"), 0, true)
  }

  /** The one suggestion for an execution error: import problems first, then syntax, then memory. */
  function Suggestion(errorMessage: string): (h: Hint)
  {
    if Contains(errorMessage, "ModuleNotFoundError") || Contains(errorMessage, "ImportError") then ImportHint
    else if Contains(errorMessage, "SyntaxError") then SyntaxHint
    else if Contains(errorMessage, "MemoryError") then MemoryHint
    else GenericHint
  }

  /** The suggestion is chosen by the first matching kind of error, in the fixed order import, syntax, memory. */
  lemma SuggestionPrecedence(errorMessage: string)
    ensures var importErr := Contains(errorMessage, "ModuleNotFoundError") || Contains(errorMessage, "ImportError");
      var h := Suggestion(errorMessage);
      (h == ImportHint <==> importErr)
      && (h == SyntaxHint <==> !importErr && Contains(errorMessage, "SyntaxError"))
      && (h == MemoryHint <==> !importErr && !Contains(errorMessage, "SyntaxError") && Contains(errorMessage, "MemoryError"))
      && (h == GenericHint <==> !importErr && !Contains(errorMessage, "SyntaxError") && !Contains(errorMessage, "MemoryError"))
  {
  }

  /** `_execution_fallback`: a failed result with exactly one suggestion and the code snippet. */
  function ExecutionFallback(code: string, errorMessage: string): (r: ToolResult)
    ensures r.status == Failed && r.fallbackUsed
    ensures r.error == Some("Code execution failed: " + errorMessage)
    ensures r.data.Some? && Lookup(r.data.value, "suggestions") == Some(JArr([JStr(HintText(Suggestion(errorMessage)))]))
    ensures Lookup(r.data.value, "code") == Some(JStr(Take(code, SnippetLength)))
  {
    Failure("Code execution failed: " + errorMessage, Some(FallbackData(code, Suggestion(errorMessage))), true)
  }

  /** The data of an execution failure: the hint, then the start of the code. */
  function FallbackData(code: string, hint: Hint): (data: seq<(string, Json)>)
    ensures Lookup(data, "suggestions") == Some(JArr([JStr(HintText(hint))]))
    ensures Lookup(data, "code") == Some(JStr(Take(code, SnippetLength)))
  {
    var data := [("suggestions", JArr([JStr(HintText(hint))])), ("code", JStr(Take(code, SnippetLength)))];
    assert Lookup(data, "code") == Some(data[1].1) by { LookupAt(data, "code", 1); }
    data
  }

  /** The result of a program that ran to completion in the container. */
  function ContainerResult(exitCode: int, logs: string): (r: ToolResult)
    ensures r.status == (if exitCode == 0 then Success else Failed)
    ensures r.error.None? <==> exitCode == 0
    ensures r.data == Some([("stdout", JStr(LogStreams(logs).0)), ("stderr", JStr(LogStreams(logs).1)),
                            ("exit_code", JNum(exitCode as real))])
  {
    var (stdout, stderr) := LogStreams(logs);
    var data := Some([("stdout", JStr(stdout)), ("stderr", JStr(stderr)), ("exit_code", JNum(exitCode as real))]);
    if exitCode == 0 then ToolResult(ExecutorName, Success, data, None, 0, false)
    else Failure("Code execution failed with exit code " + IntToString(exitCode), data, false)
  }

  /** `parameters.get("code", "").strip()`; a non-string code has no `strip` and raises. */
  function CodeOf(parameters: seq<(string, Json)>): (r: Result<string>)
    ensures !HasKey(parameters, "code") ==> r == Ok("")
    ensures r.Ok? ==> r.value == Strip(r.value)
  {
    var v := Lookup(parameters, "code");
    if v.None? then Ok("")
    else if v.value.JStr? then StripIdempotent(v.value.s); Ok(Strip(v.value.s))
    else Err("AttributeError")
  }

  /** `execute`: no client, then no code, are reported before any container is run. */
  function Execute(parameters: seq<(string, Json)>, sandbox: Sandbox, timeoutSeconds: nat): (r: Result<ToolResult>)
    ensures !sandbox.clientAvailable ==> r == Ok(Failure(DockerMissingError, None, true))
    ensures sandbox.clientAvailable && CodeOf(parameters) == Ok("") ==> r == Ok(Failure(NoCodeError, None, false))
    ensures sandbox.clientAvailable && CodeOf(parameters).Err? ==> r.Err?
  {
    if !sandbox.clientAvailable then Ok(Failure(DockerMissingError, None, true))
    else
      match CodeOf(parameters)
      case Err(e) => Err(e)
      case Ok(code) =>
        if code == "" then Ok(Failure(NoCodeError, None, false))
        else
          match sandbox.run(code)
          case Exited(exitCode, logs) => Ok(ContainerResult(exitCode, logs))
          case TimedOut => Ok(TimeoutFallback(code, timeoutSeconds))
          case Raised(message) => Ok(ExecutionFallback(code, message))
  }

  /** Empty or whitespace-only code never reaches the container: the result does not depend on what running would give. */
  lemma EmptyCodeNeverRuns(parameters: seq<(string, Json)>, s1: Sandbox, s2: Sandbox, timeoutSeconds: nat)
    requires s1.clientAvailable && s2.clientAvailable
    requires Lookup(parameters, "code").Some? && Lookup(parameters, "code").value.JStr?
    requires Strip(Lookup(parameters, "code").value.s) == ""
    ensures Execute(parameters, s1, timeoutSeconds) == Execute(parameters, s2, timeoutSeconds)
    ensures Execute(parameters, s1, timeoutSeconds) == Ok(Failure(NoCodeError, None, false))
  {
  }

  /** A program that runs is run as the stripped code, and its outcome decides the result. */
  lemma RunOutcomes(parameters: seq<(string, Json)>, sandbox: Sandbox, timeoutSeconds: nat)
    requires sandbox.clientAvailable && CodeOf(parameters).Ok? && CodeOf(parameters).value != ""
    ensures var code := CodeOf(parameters).value; var r := Execute(parameters, sandbox, timeoutSeconds);
      r.Ok?
      && (sandbox.run(code).TimedOut? ==> r.value.status == Timeout && r.value.fallbackUsed)
      && (sandbox.run(code).Raised? ==> r.value.status == Failed && r.value.fallbackUsed)
      && (sandbox.run(code).Exited? ==> (r.value.status == Success <==> sandbox.run(code).exitCode == 0) && !r.value.fallbackUsed)
  {
  }

  /** `fallback`: the service is unavailable, and the original error is reported. */
  function Fallback(parameters: seq<(string, Json)>, error: string): (r: ToolResult)
    ensures r.status == Failed && r.fallbackUsed && r.error == Some("Code execution unavailable - Docker service is not running")
    ensures r.data.Some? && Lookup(r.data.value, "original_error") == Some(JStr(error))
  {
    var data := [("suggestion", JStr("Start Docker service to enable code execution")), ("original_error", JStr(error))];
    assert Lookup(data, "original_error") == Some(data[1].1) by { LookupAt(data, "original_error", 1); }
    Failure("Code execution unavailable - Docker service is not running", Some(data), true)
  }
}
