// The presenter that turns the executed plan into the final answer: the
// numbered citation map, the fallback answer, and the finalisation flow
// around one model call. The model's reply (or the exception the call
// raised) is a parameter, and so are `json.loads` and Python's `str()`.
module GranitePresenter {
  import opened Wrappers
  import opened Json
  import opened Text
  import opened PlanTypes
  import opened PlanExecution
  import opened JsonExtract

  const AttributeError: string := "AttributeError"

  datatype Citation = Citation(id: int, sourceLabel: Json, url: Json)

  // ---------------------------------------------------------------------
  // Citation map

  /** The entries, numbered consecutively from `start`. */
  function Numbered(entries: seq<(Json, Json)>, start: int): (r: seq<Citation>)
    ensures |r| == |entries|
    ensures forall k :: 0 <= k < |r| ==> r[k] == Citation(start + k, entries[k].0, entries[k].1)
  {
    seq(|entries|, k requires 0 <= k < |entries| => Citation(start + k, entries[k].0, entries[k].1))
  }

  /** Numbering a concatenation continues where the first part stopped. */
  lemma NumberedAppend(a: seq<(Json, Json)>, b: seq<(Json, Json)>, start: int)
    ensures Numbered(a + b, start) == Numbered(a, start) + Numbered(b, start + |a|)
  {
  }

  /** Label (`title`, default "Source") and url (default "") of each citation; one that is not a dict has no `get`. */
  function CitationEntries(items: seq<Json>): (r: Result<seq<(Json, Json)>>)
    ensures r.Ok? ==> |r.value| == |items|
  {
    if forall k :: 0 <= k < |items| ==> items[k].JObj? then
      Ok(seq(|items|, k requires 0 <= k < |items| =>
        (GetOr(items[k].fields, "title", JStr("Source")), GetOr(items[k].fields, "url", JStr("")))))
    else Err(AttributeError)
  }

  predicate Succeeded(res: seq<(string, Json)>)
  {
    Lookup(res, "status") == Some(JStr("success"))
  }

  /**
   * The citations one tool result contributes: none unless it succeeded;
   * otherwise `data["citations"]` when `"citations" in data`. The membership
   * test and the subscript raise on data that is not a dict.
   */
  function ResultEntries(res: seq<(string, Json)>): (r: Result<seq<(Json, Json)>>)
    ensures !Succeeded(res) ==> r == Ok([])
  {
    if !Succeeded(res) then Ok([])
    else
      match GetOr(res, "data", JObj([]))
      case JObj(fields) =>
        if HasKey(fields, "citations") then
          var items := Iterated(Lookup(fields, "citations").value);
          if items.Err? then Err(items.error) else CitationEntries(items.value)
        else Ok([])
      case JStr(s) => if Contains(s, "citations") then Err(TypeError) else Ok([])
      case JArr(items) => if JStr("citations") in items then Err(TypeError) else Ok([])
      case _ => Err(TypeError)
  }

  /** The tool citations, result by result, or the first exception. */
  function ToolEntries(results: seq<(string, seq<(string, Json)>)>): Result<seq<(Json, Json)>>
  {
    if results == [] then Ok([])
    else
      var n := |results| - 1;
      var prev := ToolEntries(results[..n]);
      if prev.Err? then prev
      else
        var next := ResultEntries(results[n].1);
        if next.Err? then next else Ok(prev.value + next.value)
  }

  /** The verification sources, when a verifier result with verified specs is stored under "verification". */
  function SourceEntries(specialists: seq<(string, Specialist)>): seq<(Json, Json)>
  {
    var v := Lookup(specialists, "verification");
    if v.Some? && v.value.Verified? && v.value.result.verifiedSpecs.Some? then
      var sources := v.value.result.verifiedSpecs.value.sources;
      seq(|sources|, k requires 0 <= k < |sources| => (sources[k].sourceLabel, sources[k].url))
    else []
  }

  /** `_build_citation_map`: tool citations first, then verification sources, numbered from 1. */
  function CitationMap(results: seq<(string, seq<(string, Json)>)>, specialists: seq<(string, Specialist)>): (r: Result<seq<Citation>>)
    ensures r.Ok? <==> ToolEntries(results).Ok?
    ensures r.Ok? ==> forall k :: 0 <= k < |r.value| ==> r.value[k].id == k + 1
  {
    var tools := ToolEntries(results);
    if tools.Err? then Err(tools.error) else Ok(Numbered(tools.value + SourceEntries(specialists), 1))
  }

  /** Appends entries with a running id. */
  method AppendNumbered(citations: seq<Citation>, entries: seq<(Json, Json)>, id: int) returns (r: seq<Citation>, next: int)
    ensures r == citations + Numbered(entries, id)
    ensures next == id + |entries|
  {
    r, next := citations, id;
    var k := 0;
    while k < |entries|
      invariant 0 <= k <= |entries|
      invariant r == citations + Numbered(entries[..k], id) && next == id + k
    {
      assert Numbered(entries[..k + 1], id) == Numbered(entries[..k], id) + [Citation(next, entries[k].0, entries[k].1)];
      r := r + [Citation(next, entries[k].0, entries[k].1)];
      next := next + 1;
      k := k + 1;
    }
    assert entries[..k] == entries;
  }

  /** The loops of `_build_citation_map`. */
  method BuildCitationMap(results: seq<(string, seq<(string, Json)>)>, specialists: seq<(string, Specialist)>)
    returns (r: Result<seq<Citation>>)
    ensures r == CitationMap(results, specialists)
  {
    var citations: seq<Citation> := [];
    var id := 1;
    var i := 0;
    ghost var seen: seq<(Json, Json)> := [];
    while i < |results|
      invariant 0 <= i <= |results|
      invariant ToolEntries(results[..i]) == Ok(seen)
      invariant citations == Numbered(seen, 1) && id == 1 + |seen|
    {
      var entries := ResultEntries(results[i].1);
      if entries.Err? {
        ToolEntriesSnoc(results, i);
        ToolEntriesFailurePersists(results, i + 1);
        return Err(entries.error);
      }
      CitationStep(results, i, seen, entries.value);
      citations, id := AppendNumbered(citations, entries.value, id);
      seen := seen + entries.value;
      i := i + 1;
    }
    assert results[..i] == results;
    citations, id := AppendNumbered(citations, SourceEntries(specialists), id);
    CitationMapParts(results, specialists, seen);
    return Ok(citations);
  }

  /** One more successful step extends both the entries and their numbering. */
  lemma CitationStep(results: seq<(string, seq<(string, Json)>)>, i: nat, seen: seq<(Json, Json)>, entries: seq<(Json, Json)>)
    requires i < |results| && ToolEntries(results[..i]) == Ok(seen) && ResultEntries(results[i].1) == Ok(entries)
    ensures ToolEntries(results[..i + 1]) == Ok(seen + entries)
    ensures Numbered(seen + entries, 1) == Numbered(seen, 1) + Numbered(entries, 1 + |seen|)
  {
    ToolEntriesSnoc(results, i);
    NumberedAppend(seen, entries, 1);
  }

  /** The map is the numbered tool citations followed by the sources numbered after them. */
  lemma CitationMapParts(results: seq<(string, seq<(string, Json)>)>, specialists: seq<(string, Specialist)>,
                         tools: seq<(Json, Json)>)
    requires ToolEntries(results) == Ok(tools)
    ensures CitationMap(results, specialists) == Ok(Numbered(tools, 1) + Numbered(SourceEntries(specialists), 1 + |tools|))
  {
    NumberedAppend(tools, SourceEntries(specialists), 1);
  }

  lemma ToolEntriesSnoc(results: seq<(string, seq<(string, Json)>)>, i: nat)
    requires i < |results|
    ensures var prev := ToolEntries(results[..i]); var next := ResultEntries(results[i].1);
      ToolEntries(results[..i + 1]) == if prev.Err? then prev else if next.Err? then next else Ok(prev.value + next.value)
  {
    assert results[..i + 1][..i] == results[..i];
  }

  lemma {:induction false} ToolEntriesFailurePersists(results: seq<(string, seq<(string, Json)>)>, i: nat)
    requires i <= |results| && ToolEntries(results[..i]).Err?
    ensures ToolEntries(results) == ToolEntries(results[..i])
    decreases |results| - i
  {
    if i < |results| {
      ToolEntriesSnoc(results, i);
      ToolEntriesFailurePersists(results, i + 1);
    } else {
      assert results[..i] == results;
    }
  }

  /** The results that succeeded, in order. */
  function Successful(results: seq<(string, seq<(string, Json)>)>): (r: seq<(string, seq<(string, Json)>)>)
    ensures |r| <= |results|
  {
    if results == [] then []
    else
      var n := |results| - 1;
      Successful(results[..n]) + (if Succeeded(results[n].1) then [results[n]] else [])
  }

  /** Results that did not succeed contribute no citations: only the successful ones count. */
  lemma {:induction false} OnlySuccessfulCite(results: seq<(string, seq<(string, Json)>)>)
    ensures ToolEntries(results) == ToolEntries(Successful(results))
  {
    if results != [] {
      var n := |results| - 1;
      var init := results[..n];
      OnlySuccessfulCite(init);
      var s := Successful(init);
      var prev := ToolEntries(init);
      if Succeeded(results[n].1) {
        var t := s + [results[n]];
        assert t[..|t| - 1] == s && t[|t| - 1] == results[n];
        assert Successful(results) == t;
      } else {
        assert Successful(results) == s;
        assert prev.Ok? ==> prev.value + [] == prev.value;
      }
    }
  }

  /** The verification sources follow the tool citations, with their labels and urls, numbered after them. */
  lemma SourcesFollowTools(results: seq<(string, seq<(string, Json)>)>, specialists: seq<(string, Specialist)>, k: nat)
    requires ToolEntries(results).Ok? && k < |SourceEntries(specialists)|
    ensures var m := CitationMap(results, specialists).value; var t := |ToolEntries(results).value|;
      t + k < |m| && m[t + k] == Citation(t + k + 1, SourceEntries(specialists)[k].0, SourceEntries(specialists)[k].1)
  {
  }

  // ---------------------------------------------------------------------
  // Fallback output

  /** What one result adds to the fallback answer: `data["stdout"]` of a success; joining needs strings. */
  function StdoutPart(res: seq<(string, Json)>): (r: Result<seq<string>>)
    ensures !Succeeded(res) ==> r == Ok([])
    ensures r.Ok? ==> |r.value| <= 1
  {
    if !Succeeded(res) then Ok([])
    else
      match GetOr(res, "data", JObj([]))
      case JObj(fields) =>
        if HasKey(fields, "stdout") then
          var out := Lookup(fields, "stdout").value;
          if out.JStr? then Ok([out.s]) else Err(TypeError)
        else Ok([])
      case JStr(s) => if Contains(s, "stdout") then Err(TypeError) else Ok([])
      case JArr(items) => if JStr("stdout") in items then Err(TypeError) else Ok([])
      case _ => Err(TypeError)
  }

  function StdoutParts(results: seq<(string, seq<(string, Json)>)>): (r: Result<seq<string>>)
    ensures r.Ok? ==> |r.value| <= |results|
  {
    if results == [] then Ok([])
    else
      var n := |results| - 1;
      var prev := StdoutParts(results[..n]);
      if prev.Err? then prev
      else
        var next := StdoutPart(results[n].1);
        if next.Err? then next else Ok(prev.value + next.value)
  }

  /** The verification note: the error's message (default "Verification unavailable") when the verifier reported an error. */
  function VerificationNote(specialists: seq<(string, Specialist)>, show: Json -> string): (r: Result<seq<string>>)
    ensures r.Ok? ==> |r.value| <= 1
  {
    var v := Lookup(specialists, "verification");
    if v.Some? && v.value.Verified? && v.value.result.error.Some? && Truthy(v.value.result.error.value) then
      var e := v.value.result.error.value;
      if e.JObj? then Ok(["Note: " + Shown(GetOr(e.fields, "message", JStr("Verification unavailable")), show)])
      else Err(AttributeError)
    else Ok([])
  }

  const FallbackApology: string :=
    "I encountered an issue generating the final answer. The underlying computation may have completed, but I cannot present it reliably right now."

  /** The answer parts, in order: stdout of the successful results, then the verification note. */
  function FallbackParts(results: seq<(string, seq<(string, Json)>)>, specialists: seq<(string, Specialist)>,
                         show: Json -> string): (r: Result<seq<string>>)
    ensures r.Ok? <==> StdoutParts(results).Ok? && VerificationNote(specialists, show).Ok?
  {
    var outs := StdoutParts(results);
    var note := VerificationNote(specialists, show);
    if outs.Err? then outs else if note.Err? then note else Ok(outs.value + note.value)
  }

  /**
   * `_create_fallback_output`: the parts joined by a blank line, or a fixed
   * apology when there are none; never any citation; flagged as a fallback.
   */
  function FallbackOutput(results: seq<(string, seq<(string, Json)>)>, specialists: seq<(string, Specialist)>,
                          show: Json -> string): (r: Result<FinalizationOutput>)
    ensures r.Ok? <==> FallbackParts(results, specialists, show).Ok?
    ensures r.Ok? ==> r.value.citationsUsed == JArr([])
    ensures r.Ok? ==> r.value.debugInfo == [("fallback", JBool(true)), ("tool_count", JNum(|results| as real))]
    ensures r.Ok? ==> var parts := FallbackParts(results, specialists, show).value;
      if parts != [] then
        r.value.finalAnswer == JStr(Join(parts, "\n\n")) && r.value.shortSummary == JStr("Results computed successfully.")
      else
        r.value.finalAnswer == JStr(FallbackApology) && r.value.shortSummary == JStr("Answer generation failed.")
  {
    var parts := FallbackParts(results, specialists, show);
    if parts.Err? then Err(parts.error)
    else
      var debug := [("fallback", JBool(true)), ("tool_count", JNum(|results| as real))];
      if parts.value != [] then
        Ok(FinalizationOutput(JStr(Join(parts.value, "\n\n")), JStr("Results computed successfully."), JArr([]), debug))
      else
        Ok(FinalizationOutput(JStr(FallbackApology), JStr("Answer generation failed."), JArr([]), debug))
  }

  /** The parts loop of `_create_fallback_output`. */
  method CollectFallbackParts(results: seq<(string, seq<(string, Json)>)>, specialists: seq<(string, Specialist)>,
                              show: Json -> string) returns (r: Result<seq<string>>)
    ensures r == FallbackParts(results, specialists, show)
  {
    var parts: seq<string> := [];
    var i := 0;
    while i < |results|
      invariant 0 <= i <= |results|
      invariant StdoutParts(results[..i]) == Ok(parts)
    {
      StdoutSnoc(results, i);
      var part := StdoutPart(results[i].1);
      if part.Err? {
        StdoutFailurePersists(results, i + 1);
        return Err(part.error);
      }
      parts := parts + part.value;
      i := i + 1;
    }
    assert results[..i] == results;
    var note := VerificationNote(specialists, show);
    if note.Err? {
      return Err(note.error);
    }
    return Ok(parts + note.value);
  }

  lemma StdoutSnoc(results: seq<(string, seq<(string, Json)>)>, i: nat)
    requires i < |results|
    ensures var prev := StdoutParts(results[..i]); var next := StdoutPart(results[i].1);
      StdoutParts(results[..i + 1]) == if prev.Err? then prev else if next.Err? then next else Ok(prev.value + next.value)
  {
    assert results[..i + 1][..i] == results[..i];
  }

  lemma {:induction false} StdoutFailurePersists(results: seq<(string, seq<(string, Json)>)>, i: nat)
    requires i <= |results| && StdoutParts(results[..i]).Err?
    ensures StdoutParts(results) == StdoutParts(results[..i])
    decreases |results| - i
  {
    if i < |results| {
      StdoutSnoc(results, i);
      StdoutFailurePersists(results, i + 1);
    } else {
      assert results[..i] == results;
    }
  }

  /** With nothing to report the fallback answer is the apology. */
  lemma {:induction false} NoSuccessApologises(results: seq<(string, seq<(string, Json)>)>, specialists: seq<(string, Specialist)>,
                                               show: Json -> string)
    requires forall k :: 0 <= k < |results| ==> !Succeeded(results[k].1)
    requires !HasKey(specialists, "verification")
    ensures FallbackOutput(results, specialists, show)
      == Ok(FinalizationOutput(JStr(FallbackApology), JStr("Answer generation failed."), JArr([]),
                               [("fallback", JBool(true)), ("tool_count", JNum(|results| as real))]))
  {
    NoSuccessNoStdout(results);
  }

  lemma {:induction false} NoSuccessNoStdout(results: seq<(string, seq<(string, Json)>)>)
    requires forall k :: 0 <= k < |results| ==> !Succeeded(results[k].1)
    ensures StdoutParts(results) == Ok([])
  {
    if results != [] {
      var n := |results| - 1;
      assert forall k :: 0 <= k < n ==> results[..n][k] == results[k];
      NoSuccessNoStdout(results[..n]);
      var prev := StdoutParts(results[..n]);
      assert prev.value + [] == [];
    }
  }

  // ---------------------------------------------------------------------
  // Finalisation

  /** The output built from a decoded reply: missing fields default to "", "" and []. */
  function ParsedOutput(fields: seq<(string, Json)>, results: seq<(string, seq<(string, Json)>)>,
                        specialists: seq<(string, Specialist)>, citations: seq<Citation>): (r: FinalizationOutput)
    ensures r.finalAnswer == GetOr(fields, "final_answer", JStr(""))
    ensures r.shortSummary == GetOr(fields, "short_summary", JStr(""))
    ensures r.citationsUsed == GetOr(fields, "citations_used", JArr([]))
    ensures Lookup(r.debugInfo, "used_tools") == Some(JArr(StrList(Keys(results))))
    ensures Lookup(r.debugInfo, "citation_count") == Some(JNum(|citations| as real))
  {
    var debug := [("used_tools", JArr(StrList(Keys(results)))),
                  ("used_specialists", JArr(StrList(Keys(specialists)))),
                  ("citation_count", JNum(|citations| as real))];
    assert Lookup(debug, "citation_count") == Lookup(debug[1..], "citation_count") == Lookup(debug[1..][1..], "citation_count");
    FinalizationOutput(GetOr(fields, "final_answer", JStr("")), GetOr(fields, "short_summary", JStr("")),
      GetOr(fields, "citations_used", JArr([])), debug)
  }

  /**
   * `finalize`. The citation map is built before the guarded call, so its
   * exception escapes; after that, a failed call, an unparsable reply, a
   * falsy reply or one that is not a dict gives the fallback output.
   */
  function Finalize(results: seq<(string, seq<(string, Json)>)>, specialists: seq<(string, Specialist)>,
                    reply: Result<string>, parse: string -> Option<Json>, show: Json -> string): (r: Result<FinalizationOutput>)
    ensures r.Err? ==> CitationMap(results, specialists).Err? || FallbackOutput(results, specialists, show).Err?
  {
    var citations := CitationMap(results, specialists);
    if citations.Err? then Err(citations.error)
    else if reply.Err? then FallbackOutput(results, specialists, show)
    else
      var decoded := ParseLayered(parse, reply.value);
      if decoded.Some? && decoded.value.JObj? && decoded.value.fields != [] then
        Ok(ParsedOutput(decoded.value.fields, results, specialists, citations.value))
      else FallbackOutput(results, specialists, show)
  }

  /** A reply that decodes to a non-empty dict is used; anything else gives the fallback. */
  lemma FinalizeUsesReply(results: seq<(string, seq<(string, Json)>)>, specialists: seq<(string, Specialist)>,
                          reply: Result<string>, parse: string -> Option<Json>, show: Json -> string)
    requires CitationMap(results, specialists).Ok?
    ensures var r := Finalize(results, specialists, reply, parse, show);
      var decoded := if reply.Ok? then ParseLayered(parse, reply.value) else None;
      if decoded.Some? && decoded.value.JObj? && decoded.value.fields != [] then
        r == Ok(ParsedOutput(decoded.value.fields, results, specialists, CitationMap(results, specialists).value))
      else
        r == FallbackOutput(results, specialists, show)
  {
  }

  /** When the call fails, the answer never cites anything. */
  lemma FailedCallCitesNothing(results: seq<(string, seq<(string, Json)>)>, specialists: seq<(string, Specialist)>,
                               e: string, parse: string -> Option<Json>, show: Json -> string)
    requires Finalize(results, specialists, Err(e), parse, show).Ok?
    ensures Finalize(results, specialists, Err(e), parse, show).value.citationsUsed == JArr([])
  {
  }
}
