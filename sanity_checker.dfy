// The sanity checker: physical-limit checks on the numbers a response claims
// (cell capacities, vehicle ranges, battery energy), the severity of what was
// found, and the escalation decision. The regular-expression engine is the
// parameter `finditer`, which gives the first group of every match of a
// pattern in a text, in order; Python's formatting of a float inside an
// f-string is the parameter `fmt`.
module SanityChecker {
  import opened Wrappers
  import opened Json
  import opened Text
  import PlanTypes
  import PlanExecution

  datatype Scanner = Scanner(finditer: (string, string) -> seq<string>, fmt: real -> string)

  // ---- PHYSICAL_LIMITS ----

  const Cell21700Min: real := 2.5
  const Cell21700Max: real := 6.0
  const Cell18650Max: real := 3.6
  const EbikeRangeMax: real := 100.0
  const EscooterRangeMax: real := 60.0
  const BatteryWhMax: real := 10000.0

  const CapacityPattern := @"(\d+(?:\.\d+)?)\s*ah"
  const RangePattern := @"(\d+(?:\.\d+)?)\s*(?:miles?|mi\b)"
  const WhPattern := @"(\d+(?:,\d+)?(?:\.\d+)?)\s*wh"

  const EbikeWords := ["e-bike", "ebike", "electric bike"]
  const ScooterWords := ["scooter", "e-scooter", "escooter"]

  /** The limit a matched number is held against. */
  datatype Check =
    | Cell21700
    | Cell18650
    | Range(ebike: bool)
    | Energy

  /** `float(match.group(1))`; the energy check removes thousands separators first. */
  function Value(check: Check, group: string): Option<real>
  {
    if check == Energy then DecimalOf(RemoveCommas(group)) else DecimalOf(group)
  }

  /** The limit a check holds a claimed value against is exceeded. */
  predicate OutOfLimits(check: Check, v: real)
  {
    match check
    case Cell21700 => v > Cell21700Max || v < Cell21700Min
    case Cell18650 => v > Cell18650Max
    case Range(ebike) => v > (if ebike then EbikeRangeMax else EscooterRangeMax)
    case Energy => v > BatteryWhMax
  }

  // The messages that `HighIssue` inspects are written as concatenations
  // around the words it looks for, so that the lemmas below can point at them.

  function HighCellMessage(fmt: real -> string, v: real): string
  {
    "Unrealistic" + (" 21700 " + "cell" + (" capacity: " + fmt(v)
    + "Ah (realistic range: 2.5-6.0Ah). Highest production cells are ~5.5Ah."))
  }

  function LowCellMessage(fmt: real -> string, v: real): string
  {
    "Suspiciously low 21700 cell capacity: " + fmt(v) + "Ah (typical range: 2.5-6.0Ah)"
  }

  function High18650Message(fmt: real -> string, v: real): string
  {
    "Unrealistic 18650 cell capacity: " + fmt(v) + "Ah (realistic range: 1.5-3.6Ah)"
  }

  function RangeMessage(fmt: real -> string, vehicle: string, limits: string, v: real): string
  {
    "Unrealistic" + (" " + vehicle + " " + "range" + (": " + fmt(v) + " miles (typical range: " + limits
    + " miles). Double-check battery capacity and motor power."))
  }

  function EnergyMessage(fmt: real -> string, v: real): string
  {
    "Unusually high battery capacity: " + fmt(v)
    + "Wh. Verify the calculation (typical consumer range: 100-10000Wh)"
  }

  /** The issue one claimed value raises under a check, if any. */
  function Flag(check: Check, fmt: real -> string, v: real): Option<string>
  {
    match check
    case Cell21700 =>
      if v > Cell21700Max then Some(HighCellMessage(fmt, v))
      else if v < Cell21700Min then Some(LowCellMessage(fmt, v))
      else None
    case Cell18650 =>
      if v > Cell18650Max then Some(High18650Message(fmt, v)) else None
    case Range(ebike) =>
      if v > (if ebike then EbikeRangeMax else EscooterRangeMax) then Some(RangeMessage(fmt, if ebike then "e-bike" else "e-scooter", if ebike then "10-100" else "5-60", v)) else None
    case Energy =>
      if v > BatteryWhMax then Some(EnergyMessage(fmt, v)) else None
  }

  /** A value raises an issue exactly when it is outside its limits. */
  lemma FlagIff(check: Check, fmt: real -> string, v: real)
    ensures Flag(check, fmt, v).Some? <==> OutOfLimits(check, v)
  {
  }

  /** The issue one match raises: nothing when its group is not a numeral. */
  function GroupIssue(check: Check, fmt: real -> string, group: string): Option<string>
  {
    var v := Value(check, group);
    if v.Some? then Flag(check, fmt, v.value) else None
  }

  /** The per-match issue of a check, as one function value shared by the loop and its specification. */
  function IssueOf(check: Check, fmt: real -> string): string -> Option<string>
  {
    g => GroupIssue(check, fmt, g)
  }

  function AsList(o: Option<string>): seq<string>
  {
    if o.Some? then [o.value] else []
  }

  /** The issues of a run of matches, in match order. */
  function Flagged(groups: seq<string>, issue: string -> Option<string>): (r: seq<string>)
    ensures |r| <= |groups|
  {
    if groups == [] then []
    else Flagged(groups[..|groups| - 1], issue) + AsList(issue(groups[|groups| - 1]))
  }

  /** Matches contribute their issues independently and in order. */
  lemma {:induction false} FlaggedAppend(a: seq<string>, b: seq<string>, issue: string -> Option<string>)
    ensures Flagged(a + b, issue) == Flagged(a, issue) + Flagged(b, issue)
    decreases |b|
  {
    if b == [] {
      assert a + b == a;
    } else {
      var b' := b[..|b| - 1];
      assert (a + b)[..|a + b| - 1] == a + b';
      assert (a + b)[|a + b| - 1] == b[|b| - 1];
      FlaggedAppend(a, b', issue);
    }
  }

  /** No issue exactly when no match raises one. */
  lemma {:induction false} FlaggedEmpty(groups: seq<string>, issue: string -> Option<string>)
    ensures Flagged(groups, issue) == [] <==> forall i :: 0 <= i < |groups| ==> issue(groups[i]).None?
  {
    if groups != [] {
      var init := groups[..|groups| - 1];
      FlaggedEmpty(init, issue);
      assert forall i :: 0 <= i < |init| ==> init[i] == groups[i];
    }
  }

  /** Every issue comes from some match, and every match that raises one is reported. */
  lemma {:induction false} FlaggedMembers(groups: seq<string>, issue: string -> Option<string>, m: string)
    ensures m in Flagged(groups, issue) <==> exists i :: 0 <= i < |groups| && issue(groups[i]) == Some(m)
  {
    if groups != [] {
      var init := groups[..|groups| - 1];
      FlaggedMembers(init, issue, m);
      assert forall i :: 0 <= i < |init| ==> init[i] == groups[i];
      if issue(groups[|groups| - 1]) == Some(m) {
        assert m in Flagged(groups, issue);
      }
    }
  }

  /** The loop of one `_check_*` helper over the matches of its pattern. */
  method CollectIssues(groups: seq<string>, issue: string -> Option<string>) returns (issues: seq<string>)
    ensures issues == Flagged(groups, issue)
  {
    issues := [];
    var i := 0;
    while i < |groups|
      invariant 0 <= i <= |groups|
      invariant issues == Flagged(groups[..i], issue)
    {
      assert groups[..i + 1][..i] == groups[..i];
      var found := issue(groups[i]);
      if found.Some? {
        issues := issues + [found.value];
      }
      i := i + 1;
    }
    assert groups[..i] == groups;
  }

  // ---- _check_battery_cells, _check_range_values, _check_energy_values ----

  /** The query or the response names a cell format. */
  predicate Mentions(response: string, query: string, cell: string)
  {
    Contains(Lower(query), cell) || Contains(Lower(response), cell)
  }

  function CellIssues(sc: Scanner, response: string, query: string): seq<string>
  {
    var groups := sc.finditer(CapacityPattern, Lower(response));
    (if Mentions(response, query, "21700") then Flagged(groups, IssueOf(Cell21700, sc.fmt)) else [])
    + (if Mentions(response, query, "18650") then Flagged(groups, IssueOf(Cell18650, sc.fmt)) else [])
  }

  predicate EbikeContext(query: string)
  {
    ContainsAny(Lower(query), EbikeWords)
  }

  predicate ScooterContext(query: string)
  {
    ContainsAny(Lower(query), ScooterWords)
  }

  function RangeIssues(sc: Scanner, response: string, query: string): seq<string>
  {
    var ebike := EbikeContext(query);
    var scooter := ScooterContext(query);
    if ebike || scooter then Flagged(sc.finditer(RangePattern, Lower(response)), IssueOf(Range(ebike), sc.fmt))
    else []
  }

  function EnergyIssues(sc: Scanner, response: string): seq<string>
  {
    Flagged(sc.finditer(WhPattern, Lower(response)), IssueOf(Energy, sc.fmt))
  }

  method CheckBatteryCells(sc: Scanner, response: string, query: string) returns (issues: seq<string>)
    ensures issues == CellIssues(sc, response, query)
  {
    var resp := Lower(response);
    issues := [];
    if Mentions(response, query, "21700") {
      var found := CollectIssues(sc.finditer(CapacityPattern, resp), IssueOf(Cell21700, sc.fmt));
      issues := issues + found;
    }
    if Mentions(response, query, "18650") {
      var found := CollectIssues(sc.finditer(CapacityPattern, resp), IssueOf(Cell18650, sc.fmt));
      issues := issues + found;
    }
  }

  method CheckRangeValues(sc: Scanner, response: string, query: string) returns (issues: seq<string>)
    ensures issues == RangeIssues(sc, response, query)
  {
    var ebike := EbikeContext(query);
    var scooter := ScooterContext(query);
    issues := [];
    if ebike || scooter {
      issues := CollectIssues(sc.finditer(RangePattern, Lower(response)), IssueOf(Range(ebike), sc.fmt));
    }
  }

  method CheckEnergyValues(sc: Scanner, response: string) returns (issues: seq<string>)
    ensures issues == EnergyIssues(sc, response)
  {
    issues := CollectIssues(sc.finditer(WhPattern, Lower(response)), IssueOf(Energy, sc.fmt));
  }

  // ---- check_response, should_escalate ----

  /** An issue that makes the severity high on its own. */
  predicate HighIssue(issue: string)
  {
    var l := Lower(issue);
    (Contains(l, "cell") && Contains(l, "unrealistic")) || (Contains(l, "range") && Contains(l, "unrealistic"))
  }

  function Severity(issues: seq<string>): (s: string)
    ensures s in {"none", "medium", "high"}
  {
    if |issues| == 0 then "none"
    else if exists i :: 0 <= i < |issues| && HighIssue(issues[i]) then "high"
    else if |issues| > 1 then "high"
    else "medium"
  }

  /** The severity rules, each in both directions. */
  lemma SeverityRules(issues: seq<string>)
    ensures Severity(issues) == "none" <==> issues == []
    ensures Severity(issues) == "high" <==>
      issues != [] && ((exists i :: 0 <= i < |issues| && HighIssue(issues[i])) || |issues| > 1)
    ensures Severity(issues) == "medium" <==> |issues| == 1 && !HighIssue(issues[0])
  {
  }

  datatype SanityReport = SanityReport(suspicious: bool, issues: seq<string>, severity: string)

  function Report(issues: seq<string>): (r: SanityReport)
    ensures r.issues == issues
    ensures r.suspicious <==> issues != []
    ensures r.severity in {"none", "medium", "high"}
  {
    SanityReport(|issues| > 0, issues, Severity(issues))
  }

  /** Cell issues first, then range issues, then energy issues. */
  function Issues(sc: Scanner, response: string, query: string): seq<string>
  {
    CellIssues(sc, response, query) + RangeIssues(sc, response, query) + EnergyIssues(sc, response)
  }

  method CheckResponse(sc: Scanner, response: string, query: string) returns (r: SanityReport)
    ensures r == Report(Issues(sc, response, query))
  {
    var issues: seq<string> := [];
    var cells := CheckBatteryCells(sc, response, query);
    if cells != [] {
      issues := issues + cells;
    }
    assert issues == cells;
    var ranges := CheckRangeValues(sc, response, query);
    if ranges != [] {
      issues := issues + ranges;
    }
    assert issues == cells + ranges;
    var energy := CheckEnergyValues(sc, response);
    if energy != [] {
      issues := issues + energy;
    }
    assert issues == cells + ranges + energy;
    var severity := Severity(issues);
    r := SanityReport(|issues| > 0, issues, severity);
  }

  predicate ShouldEscalate(r: SanityReport)
  {
    r.suspicious && r.severity == "high"
  }

  /** A report escalates exactly when one issue is high on its own or there are several. */
  lemma EscalateIff(issues: seq<string>)
    ensures ShouldEscalate(Report(issues)) <==>
      (exists i :: 0 <= i < |issues| && HighIssue(issues[i])) || |issues| > 1
  {
    SeverityRules(issues);
  }

  lemma LowerWords()
    ensures Lower("Unrealistic") == "unrealistic"
    ensures Lower("cell") == "cell" && Lower("range") == "range"
  {
  }

  /** An over-capacity 21700 claim is high severity by itself. */
  lemma UnrealisticCellIsHigh(fmt: real -> string, v: real)
    ensures HighIssue(HighCellMessage(fmt, v))
  {
    var rest := " capacity: " + fmt(v) + "Ah (realistic range: 2.5-6.0Ah). Highest production cells are ~5.5Ah.";
    var tail := " 21700 " + "cell" + rest;
    var l := Lower(HighCellMessage(fmt, v));
    LowerWords();
    assert Contains(l, "unrealistic") by {
      LoweredOccurs([], "Unrealistic", tail);
      assert [] + "Unrealistic" + tail == HighCellMessage(fmt, v);
    }
    assert Contains(l, "cell") by {
      LoweredOccursAfter("Unrealistic", " 21700 ", "cell", rest);
    }
  }

  /** An over-limit range claim is high severity by itself. */
  lemma UnrealisticRangeIsHigh(fmt: real -> string, vehicle: string, limits: string, v: real)
    ensures HighIssue(RangeMessage(fmt, vehicle, limits, v))
  {
    var pre := " " + vehicle + " ";
    var rest := ": " + fmt(v) + " miles (typical range: " + limits
      + " miles). Double-check battery capacity and motor power.";
    var tail := pre + "range" + rest;
    var l := Lower(RangeMessage(fmt, vehicle, limits, v));
    LowerWords();
    assert Contains(l, "unrealistic") by {
      LoweredOccurs([], "Unrealistic", tail);
      assert [] + "Unrealistic" + tail == RangeMessage(fmt, vehicle, limits, v);
    }
    assert Contains(l, "range") by {
      LoweredOccursAfter("Unrealistic", pre, "range", rest);
    }
  }

  /** E-bike limits win when the query mentions both an e-bike and a scooter. */
  lemma EbikeLimitsWin(sc: Scanner, response: string, query: string)
    requires EbikeContext(query)
    ensures RangeIssues(sc, response, query) == Flagged(sc.finditer(RangePattern, Lower(response)), IssueOf(Range(true), sc.fmt))
  {
  }

  /** Without an e-bike or scooter in the query, no range claim is questioned. */
  lemma NoVehicleNoRangeIssues(sc: Scanner, response: string, query: string)
    requires !ContainsAny(Lower(query), EbikeWords + ScooterWords)
    ensures RangeIssues(sc, response, query) == []
  {
  }

  /** One over-capacity claim about a 21700 cell is enough to escalate. */
  lemma OverCapacityEscalates(sc: Scanner, response: string, query: string, g: string)
    requires Mentions(response, query, "21700")
    requires sc.finditer(CapacityPattern, Lower(response)) == [g]
    requires Value(Cell21700, g).Some? && Value(Cell21700, g).value > Cell21700Max
    ensures ShouldEscalate(Report(Issues(sc, response, query)))
  {
    var m := HighCellMessage(sc.fmt, Value(Cell21700, g).value);
    assert Flagged([g], IssueOf(Cell21700, sc.fmt)) == [m] by {
      assert [g][..0] == [];
    }
    UnrealisticCellIsHigh(sc.fmt, Value(Cell21700, g).value);
    var issues := Issues(sc, response, query);
    assert issues[0] == m;
    EscalateIff(issues);
  }

  /** "Samsung 50E has 25Ah capacity." in answer to a question about a 21700 cell escalates. */
  lemma TwentyFiveAhEscalates(sc: Scanner, response: string, query: string)
    requires response == "Samsung 50E has 25Ah capacity." && query == "Samsung 50E 21700 specs?"
    requires sc.finditer(CapacityPattern, Lower(response)) == ["25"]
    ensures ShouldEscalate(Report(Issues(sc, response, query)))
  {
    NamesCell(response, query);
    ReadsTwentyFive();
    OverCapacityEscalates(sc, response, query, "25");
  }

  lemma NamesCell(response: string, query: string)
    requires query == "Samsung 50E 21700 specs?"
    ensures Mentions(response, query, "21700")
  {
    assert MatchAt(Lower(query), "21700", 12);
  }

  lemma ReadsTwentyFive()
    ensures Value(Cell21700, "25") == Some(25.0)
  {
    DecimalOfDigits("25");
    assert "25"[..1] == "2" && "2"[..0] == [];
  }

  /** A thousands separator in a Wh figure is ignored: "25,000" reads as 25000. */
  lemma SeparatedEnergyValue(a: string, b: string)
    requires a != [] && AllDigits(a) && AllDigits(b)
    ensures AllDigits(a + b)
    ensures Value(Energy, a + "," + b) == Some(DigitsValue(a + b) as real)
  {
    RemoveSeparator(a, b);
    DecimalOfDigits(a + b);
  }

  /** A separated Wh figure above the consumer limit makes the response suspicious. */
  lemma SeparatedEnergyFlagged(sc: Scanner, response: string, query: string, a: string, b: string)
    requires a != [] && AllDigits(a) && AllDigits(b) && DigitsValue(a + b) > 10000
    requires sc.finditer(WhPattern, Lower(response)) == [a + "," + b]
    ensures Report(Issues(sc, response, query)).suspicious
  {
    SeparatedEnergyValue(a, b);
    var g := a + "," + b;
    assert IssueOf(Energy, sc.fmt)(g).Some?;
    assert [g][..0] == [];
    assert Flagged([g], IssueOf(Energy, sc.fmt)) != [];
  }

  // ---- the report as the executor sees it ----

  /** The dict `check_response` returns. */
  function ToDict(r: SanityReport): seq<(string, Json)>
  {
    [("suspicious", JBool(r.suspicious)),
     ("issues", JArr(seq(|r.issues|, i requires 0 <= i < |r.issues| => JStr(r.issues[i])))),
     ("severity", JStr(r.severity))]
  }

  /**
   * The executor reads the same decision from the dict: it calls the
   * verifier after a sanity step exactly when the report is suspicious, and
   * at the normal safety level picks the strong specialist exactly when
   * `should_escalate` holds.
   */
  lemma ExecutorAgrees(r: SanityReport)
    ensures PlanExecution.Suspicious(ToDict(r)) <==> r.suspicious
    ensures r.suspicious ==>
      (PlanExecution.StrongAfterSanity(PlanTypes.Normal, ToDict(r)) <==> ShouldEscalate(r))
  {
    var d := ToDict(r);
    assert d[0].0 == "suspicious" && d[1].0 == "issues";
    assert Lookup(d[1..][1..], "severity") == Some(JStr(r.severity));
    assert Lookup(d[1..], "severity") == Some(JStr(r.severity));
    assert Lookup(d, "severity") == Some(JStr(r.severity));
    assert Lookup(d, "suspicious") == Some(JBool(r.suspicious));
  }
}
