// The pure side of rage training: the three reactions, the rule text each
// produces, the record a reaction stores, the weekly tally and its top
// entry, and which vault lines a reset keeps.
module RageRules {
  import opened Wrappers
  import opened Json
  import opened Text
  import opened MemoryVault
  import opened Seqs

  /** The three reactions `REACTIONS` knows, by the reaction type they record. */
  datatype Reaction = TooLong | OverExplaining | ToneWrong
  {
    function Emoji(): string
    {
      match this
      case TooLong => "\U{1F62D}"
      case OverExplaining => "\U{1F913}"
      case ToneWrong => "\U{1F480}"
    }

    function Type(): string
    {
      match this
      case TooLong => "too_long"
      case OverExplaining => "over_explaining"
      case ToneWrong => "tone_wrong"
    }
  }

  /** The emoji a shrug stands for when the top type is not a known reaction. */
  const Shrug: string := "\U{1F937}"

  /** `REACTIONS.get(emoji)`. */
  function ReactionOf(emoji: string): (r: Option<Reaction>)
    ensures r.Some? ==> r.value.Emoji() == emoji
    ensures r.None? ==> forall x: Reaction :: x.Emoji() != emoji
  {
    if emoji == "\U{1F62D}" then Some(TooLong)
    else if emoji == "\U{1F913}" then Some(OverExplaining)
    else if emoji == "\U{1F480}" then Some(ToneWrong)
    else None
  }

  /** The inverted table: the emoji of a reaction type, if the type is one of the three. */
  function EmojiOf(rtype: string): (r: Option<string>)
    ensures r.None? ==> forall x: Reaction :: x.Type() != rtype
    ensures forall x: Reaction :: x.Type() == rtype ==> r == Some(x.Emoji())
  {
    if rtype == "too_long" then Some(TooLong.Emoji())
    else if rtype == "over_explaining" then Some(OverExplaining.Emoji())
    else if rtype == "tone_wrong" then Some(ToneWrong.Emoji())
    else None
  }

  /** Inverting the table gives back each reaction's own emoji. */
  lemma EmojiRoundTrip(x: Reaction)
    ensures EmojiOf(x.Type()) == Some(x.Emoji()) && ReactionOf(x.Emoji()) == Some(x)
  {
  }

  /** How much of the offending text a rule quotes. */
  const RuleQuote: int := 100
  const Dash: string := "\U{2014}"

  /** The text around the quote in each reaction's rule; the generic rule has nothing after it. */
  function Template(rtype: string): (t: (string, string))
    ensures EmojiOf(rtype).None? ==> t == ("User rejected: ", "")
  {
    if rtype == "too_long" then ("NEVER be verbose like this again: '", "...' " + Dash + " user wants SHORT answers")
    else if rtype == "over_explaining" then ("STOP over-explaining. User hated this nerdy response: '", "...' " + Dash + " be concise")
    else if rtype == "tone_wrong" then ("WRONG TONE. User rejected: '", "...' " + Dash + " match their energy, don't be cringe")
    else ("User rejected: ", "")
  }

  /** `_generate_rule`: the reaction type's template around the quoted text, or a generic rule. */
  function GenerateRule(rtype: string, offending: string): (rule: string)
    ensures Contains(rule, Take(offending, RuleQuote))
    ensures StartsWith(rule, Template(rtype).0)
    ensures EmojiOf(rtype).None? ==> rule == "User rejected: " + Take(offending, RuleQuote)
  {
    var q := Take(offending, RuleQuote);
    var t := Template(rtype);
    Surrounded(t.0, q, t.1);
    t.0 + q + t.1
  }

  /** A text placed between two others occurs in the result, which starts with the first. */
  lemma Surrounded(pre: string, q: string, post: string)
    ensures MatchAt(pre + q + post, q, |pre|) && Contains(pre + q + post, q)
    ensures StartsWith(pre + q + post, pre)
    ensures post == "" ==> pre + q + post == pre + q
  {
    if post == "" {
      assert pre + q + post == pre + q;
    }
    var s := pre + q + post;
    assert s[|pre|..|pre| + |q|] == q;
    assert s[..|pre|] == pre;
    assert MatchAt(s, q, |pre|);
  }

  /** How much of the offending text a record keeps, and how much of it the rule is made from. */
  const StoredOffense: int := 200
  const RuleSource: int := 500
  const SummaryRule: int := 100
  const RageWeight: real := 10.0

  /** `self.last_response or context`: the last response unless it is missing or empty. */
  function Offending(lastResponse: Option<string>, context: string): (t: string)
    ensures lastResponse.Some? && lastResponse.value != "" ==> t == lastResponse.value
    ensures lastResponse.None? || lastResponse.value == "" ==> t == context
  {
    if lastResponse.Some? && lastResponse.value != "" then lastResponse.value else context
  }

  /** The payload `record_reaction` stores. */
  function RagePayload(rule: string, x: Reaction, offending: string): (p: seq<(string, Json)>)
    ensures Keys(p) == ["rule", "source", "reaction_type", "offending_text", "distillation_weight"]
    ensures Lookup(p, "rule") == Some(JStr(rule)) && Lookup(p, "source") == Some(JStr("rage_training"))
    ensures Lookup(p, "offending_text") == Some(JStr(Take(offending, StoredOffense)))
  {
    var p := [("rule", JStr(rule)), ("source", JStr("rage_training")), ("reaction_type", JStr(x.Type())),
              ("offending_text", JStr(Take(offending, StoredOffense))), ("distillation_weight", JNum(RageWeight))];
    assert Lookup(p, "source") == Some(p[1].1) by { LookupAt(p, "source", 1); }
    assert Lookup(p, "offending_text") == Some(p[3].1) by { LookupAt(p, "offending_text", 3); }
    p
  }

  /** The record a reaction adds to the checklist file. */
  function RageRecord(x: Reaction, offending: string, id: string, now: string): (r: Record)
    ensures r.mtype == Checklist.Name() && r.confidence == Some(1.0) && r.ttlDays.None?
    ensures r.tags == ["rage_training", x.Type(), "permanent"] && r.createdAt == Some(now)
    ensures r.id == id && r.lastUsedAt.None?
    ensures r.payload == RagePayload(GenerateRule(x.Type(), Take(offending, RuleSource)), x, offending)
    ensures r.summary == Some("Rage feedback (" + x.Emoji() + "): " + Take(GenerateRule(x.Type(), Take(offending, RuleSource)), SummaryRule))
  {
    var rule := GenerateRule(x.Type(), Take(offending, RuleSource));
    NewRecord(id, Checklist.Name(), now, RagePayload(rule, x, offending),
              Some("Rage feedback (" + x.Emoji() + "): " + Take(rule, SummaryRule)), Some(1.0), None,
              Some(["rage_training", x.Type(), "permanent"]))
  }

  /** Cutting at 500 characters and then at 100 is cutting at 100. */
  lemma TakeTake(s: string)
    ensures Take(Take(s, RuleSource), RuleQuote) == Take(s, RuleQuote)
  {
  }

  /** The rule a reaction records quotes the first 100 characters of the offending text itself. */
  lemma RuleQuotesOffense(x: Reaction, offending: string)
    ensures Contains(GenerateRule(x.Type(), Take(offending, RuleSource)), Take(offending, RuleQuote))
  {
    TakeTake(offending);
  }

  /** The record `handle_never_command` adds, and the rule it holds. */
  function NeverRecord(what: string, id: string, now: string): (r: Record)
    ensures r.mtype == Checklist.Name() && r.confidence == Some(1.0) && r.ttlDays.None?
    ensures r.tags == ["never_command", "permanent"] && r.createdAt == Some(now)
    ensures r.id == id && r.lastUsedAt.None?
    ensures Lookup(r.payload, "rule") == Some(JStr("NEVER " + what))
    ensures Lookup(r.payload, "source") == Some(JStr("never_command"))
  {
    var p := [("rule", JStr("NEVER " + what)), ("source", JStr("never_command")), ("distillation_weight", JNum(RageWeight))];
    assert Lookup(p, "source") == Some(p[1].1) by { LookupAt(p, "source", 1); }
    NewRecord(id, Checklist.Name(), now, p, Some("Never command: " + Take("NEVER " + what, SummaryRule)), Some(1.0), None,
              Some(["never_command", "permanent"]))
  }

  // ---------------------------------------------------------------------
  // handle_regen

  const RegenRules: nat := 10

  /** A string field of a record's payload, or the default when absent or not a string. */
  function PayloadStr(r: Record, key: string, default: string): string
  {
    var v := Lookup(r.payload, key);
    if v.Some? && v.value.JStr? then v.value.s else default
  }

  /** The bullet lines of the rules a regeneration applies. */
  function RuleLines(rules: seq<Record>): (r: seq<string>)
    ensures |r| == |rules| && forall i :: 0 <= i < |rules| ==> r[i] == "- " + PayloadStr(rules[i], "rule", "")
  {
    seq(|rules|, i requires 0 <= i < |rules| => "- " + PayloadStr(rules[i], "rule", ""))
  }

  /** What `handle_regen` returns. */
  datatype Regen =
    | NoResponse
    | Regen(instruction: string, rejected: string, applyRules: string, forceExternal: bool)

  const NoResponseError: string := "No previous response to regenerate"

  /** The regeneration context: the rejected response and, as bullets, at most the ten newest rage rules. */
  function RegenFor(lastResponse: Option<string>, rules: seq<Record>, forceExternal: bool): (g: Regen)
    ensures g.NoResponse? <==> lastResponse.None? || lastResponse.value == ""
    ensures g.Regen? ==>
      g.rejected == Take(lastResponse.value, RuleSource) && g.forceExternal == forceExternal
      && g.applyRules == Join(RuleLines(LastN(rules, RegenRules)), "\n")
      && |LastN(rules, RegenRules)| <= RegenRules
  {
    if lastResponse.None? || lastResponse.value == "" then NoResponse
    else Regen("USER HATED THE LAST ONE " + Dash + " DO NOT REPEAT", Take(lastResponse.value, RuleSource),
               Join(RuleLines(LastN(rules, RegenRules)), "\n"), forceExternal)
  }

  // ---------------------------------------------------------------------
  // get_weekly_summary

  const WeekDays: int := 7

  /** The creation time of a record, when it has one that parses. */
  function CreatedAt(r: Record, parse: DateParse): Option<Instant>
  {
    if r.createdAt.Some? then parse(r.createdAt.value) else None
  }

  /** A record's creation time can be compared with `cutoff`: it parses and agrees with it on awareness. */
  predicate Comparable(r: Record, cutoff: Instant, parse: DateParse)
  {
    CreatedAt(r, parse).Some? && CreatedAt(r, parse).value.aware == cutoff.aware
  }

  /**
   * The records created after `cutoff`; a record whose creation time is
   * missing or does not parse raises ValueError, and one naive where the
   * cutoff is aware (or the reverse) raises TypeError.
   */
  function InWindow(rs: seq<Record>, cutoff: Instant, parse: DateParse): (r: Result<seq<Record>>)
    ensures r.Ok? <==> forall i :: 0 <= i < |rs| ==> Comparable(rs[i], cutoff, parse)
    ensures r.Ok? ==> forall x :: x in r.value <==> x in rs && CreatedAt(x, parse).value.micros > cutoff.micros
    ensures r.Err? ==> r.error == "ValueError" || r.error == "TypeError"
  {
    if rs == [] then Ok([])
    else
      var rest := InWindow(rs[1..], cutoff, parse);
      assert forall i :: 1 <= i < |rs| ==> rs[i] == rs[1..][i - 1];
      var t := CreatedAt(rs[0], parse);
      if t.None? then Err("ValueError")
      else if t.value.aware != cutoff.aware then Err("TypeError")
      else if rest.Err? then
        assert !Comparable(rs[1..][0], cutoff, parse) || exists i :: 0 <= i < |rs[1..]| && !Comparable(rs[1..][i], cutoff, parse);
        rest
      else Ok((if t.value.micros > cutoff.micros then [rs[0]] else []) + rest.value)
  }

  /** Records that all parse, first one naive where the cutoff is aware: TypeError. */
  lemma {:induction false} InWindowMixed(rs: seq<Record>, cutoff: Instant, parse: DateParse)
    requires rs != [] && CreatedAt(rs[0], parse).Some? && CreatedAt(rs[0], parse).value.aware != cutoff.aware
    ensures InWindow(rs, cutoff, parse) == Err("TypeError")
  {
  }

  /** `payload.get("reaction_type", "unknown")`. */
  function ReactionType(r: Record): string
  {
    PayloadStr(r, "reaction_type", "unknown")
  }

  /** How often a type occurs. */
  function Occurrences(ts: seq<string>, t: string): (n: nat)
    ensures n <= |ts| && (n == 0 <==> t !in ts)
  {
    if ts == [] then 0
    else Occurrences(ts[..|ts| - 1], t) + (if ts[|ts| - 1] == t then 1 else 0)
  }

  function CountOr(counts: seq<(string, int)>, t: string): int
  {
    var v := Lookup(counts, t);
    if v.Some? then v.value else 0
  }

  /** `counts[t] = counts.get(t, 0) + 1`. */
  function Bump(counts: seq<(string, int)>, t: string): seq<(string, int)>
  {
    Put(counts, t, CountOr(counts, t) + 1)
  }

  /** Counting a type adds one to its count, or sets it to one when it is new, and touches no other key. */
  lemma BumpLookup(counts: seq<(string, int)>, t: string, k: string)
    ensures Lookup(Bump(counts, t), k) == if k == t then Some(CountOr(counts, t) + 1) else Lookup(counts, k)
    ensures Keys(Bump(counts, t)) == if HasKey(counts, t) then Keys(counts) else Keys(counts) + [t]
  {
    if k != t {
      PutOther(counts, t, CountOr(counts, t) + 1, k);
    }
    PutKeys(counts, t, CountOr(counts, t) + 1);
  }

  /** The dict the counting loop builds, one `Bump` per type. */
  function Tally(ts: seq<string>): seq<(string, int)>
  {
    if ts == [] then [] else Bump(Tally(ts[..|ts| - 1]), ts[|ts| - 1])
  }

  /** Every type seen is counted exactly as often as it occurs, and no other key is present. */
  lemma {:induction false} TallyCounts(ts: seq<string>, t: string)
    ensures Lookup(Tally(ts), t) == if t in ts then Some(Occurrences(ts, t)) else None
  {
    if ts != [] {
      var init := ts[..|ts| - 1];
      TallyCounts(init, t);
      TallyStep(Tally(init), init, ts, t);
    }
  }

  /** One counting step keeps the tally exact; the dict is any exact tally of the shorter list. */
  lemma TallyStep(d: seq<(string, int)>, init: seq<string>, ts: seq<string>, t: string)
    requires ts != [] && init == ts[..|ts| - 1]
    requires Lookup(d, t) == if t in init then Some(Occurrences(init, t)) else None
    ensures Lookup(Bump(d, ts[|ts| - 1]), t) == if t in ts then Some(Occurrences(ts, t)) else None
  {
    var last := ts[|ts| - 1];
    LastOccurrence(ts, t);
    BumpLookup(d, last, t);
    if t == last {
      assert t in ts;
      assert CountOr(d, t) == Occurrences(init, t);
    } else {
      assert Lookup(Bump(d, last), t) == Lookup(d, t);
      assert Occurrences(ts, t) == Occurrences(init, t);
      assert t in ts <==> t in init;
    }
  }

  /** The last type counts once more for itself, and membership splits the same way. */
  lemma LastOccurrence(ts: seq<string>, t: string)
    requires ts != []
    ensures Occurrences(ts, t) == Occurrences(ts[..|ts| - 1], t) + (if ts[|ts| - 1] == t then 1 else 0)
    ensures t in ts <==> t in ts[..|ts| - 1] || t == ts[|ts| - 1]
  {
    assert ts == ts[..|ts| - 1] + [ts[|ts| - 1]];
  }

  /** The dict the tally builds is non-empty when there was something to count. */
  lemma {:induction false} TallyNonEmpty(ts: seq<string>)
    requires ts != []
    ensures Tally(ts) != []
  {
    TallyCounts(ts, ts[|ts| - 1]);
  }

  /**
   * `max(counts.items(), key=count)`: the position of the first entry with
   * the largest count (Python's max keeps the first of equal keys).
   */
  function TopIndex(counts: seq<(string, int)>): (k: nat)
    requires counts != []
    ensures k < |counts|
    ensures forall j :: 0 <= j < |counts| ==> counts[j].1 <= counts[k].1
    ensures forall j :: 0 <= j < k ==> counts[j].1 < counts[k].1
  {
    if |counts| == 1 then 0
    else
      var rest := TopIndex(counts[1..]);
      assert forall j :: 1 <= j < |counts| ==> counts[j] == counts[1..][j - 1];
      if counts[rest + 1].1 > counts[0].1 then rest + 1 else 0
  }

  /** What the weekly summary reports. */
  datatype Summary =
    | NoRage
    | Weekly(newLearnings: nat, topType: string, topEmoji: string, topCount: int, worstOffense: string)

  const NoRageMessage: string := "no rage this week. you must be tolerating my bullshit."
  const WorstOffense: int := 150

  /** The summary of the week's records from the dict of their counts, as the counting loop leaves it. */
  function SummaryOf(week: seq<Record>, counts: seq<(string, int)>): (s: Summary)
    requires week == [] || counts != []
    ensures s.NoRage? <==> week == []
  {
    if week == [] then NoRage
    else
      var top := counts[TopIndex(counts)];
      var e := EmojiOf(top.0);
      Weekly(|week|, top.0, if e.Some? then e.value else Shrug, top.1,
             Take(PayloadStr(week[|week| - 1], "offending_text", "nothing specific"), WorstOffense))
  }

  /** The types of the records, in order. */
  function Types(rs: seq<Record>): (ts: seq<string>)
    ensures |ts| == |rs| && forall i :: 0 <= i < |rs| ==> ts[i] == ReactionType(rs[i])
  {
    seq(|rs|, i requires 0 <= i < |rs| => ReactionType(rs[i]))
  }

  /** A tally never repeats a key: a seen type is counted in place, a new one goes last. */
  lemma {:induction false} TallyDistinct(ts: seq<string>)
    ensures Distinct(Keys(Tally(ts)))
  {
    if ts != [] {
      var init := Tally(ts[..|ts| - 1]);
      var last := ts[|ts| - 1];
      TallyDistinct(ts[..|ts| - 1]);
      BumpLookup(init, last, last);
      if !HasKey(init, last) {
        DistinctSnoc(Keys(init), last);
      }
    }
  }

  /** With distinct keys, the value found under an entry's key is that entry's. */
  lemma DistinctLookup(counts: seq<(string, int)>, k: nat)
    requires Distinct(Keys(counts)) && k < |counts|
    ensures Lookup(counts, counts[k].0) == Some(counts[k].1)
  {
    var ks := Keys(counts);
    forall j | 0 <= j < k
      ensures counts[j].0 != counts[k].0
    {
      assert ks[j] != ks[k];
    }
    LookupAt(counts, counts[k].0, k);
  }

  /**
   * The top type of a week is one of its types, counted as often as it
   * occurs, and no type occurs more often; the worst offense is the newest record's.
   */
  lemma TopIsMostFrequent(week: seq<Record>, t: string)
    requires week != []
    ensures Tally(Types(week)) != []
    ensures var s := SummaryOf(week, Tally(Types(week)));
      s.topType in Types(week) && s.topCount == Occurrences(Types(week), s.topType) && s.newLearnings == |week|
      && Occurrences(Types(week), t) <= s.topCount
      && s.worstOffense == Take(PayloadStr(week[|week| - 1], "offending_text", "nothing specific"), WorstOffense)
  {
    var ts := Types(week);
    var counts := Tally(ts);
    TallyNonEmpty(ts);
    TallyDistinct(ts);
    var k := TopIndex(counts);
    DistinctLookup(counts, k);
    TallyCounts(ts, counts[k].0);
    if t in ts {
      TallyCounts(ts, t);
      var j :| 0 <= j < |counts| && Keys(counts)[j] == t;
      DistinctLookup(counts, j);
    }
  }

  // ---------------------------------------------------------------------
  // nuclear_reset

  /** The files a reset rewrites, in the order it visits them. */
  const ResetTypes: seq<MemType> := [Preference, Checklist, Prompt, Semantic]
  const LearnedSources: seq<string> := ["distillation", "rage_training", "never_command", "chatgpt_import"]

  /** A record is learned when its payload's source is one of the learning channels. */
  predicate Learned(r: Record)
  {
    var src := Lookup(r.payload, "source");
    src.Some? && src.value.JStr? && src.value.s in LearnedSources
  }

  /** The lines a reset writes back: every line except learned records; malformed lines stay. */
  function Spared(lines: seq<Line>): (r: seq<Line>)
    ensures |r| <= |lines|
  {
    if lines == [] then []
    else
      var last := lines[|lines| - 1];
      Spared(lines[..|lines| - 1]) + (if last.Rec? && Learned(last.rec) then [] else [last])
  }

  /** The learned records of a file. */
  function Wiped(lines: seq<Line>): (n: nat)
    ensures n <= |lines|
  {
    if lines == [] then 0
    else
      var last := lines[|lines| - 1];
      Wiped(lines[..|lines| - 1]) + (if last.Rec? && Learned(last.rec) then 1 else 0)
  }

  /** Every line is either written back or counted as deleted. */
  lemma {:induction false} ResetAccounting(lines: seq<Line>)
    ensures |Spared(lines)| + Wiped(lines) == |lines|
  {
    if lines != [] {
      ResetAccounting(lines[..|lines| - 1]);
    }
  }

  /** A line survives a reset iff it is malformed or not learned. */
  lemma {:induction false} SparedMembers(lines: seq<Line>, l: Line)
    ensures l in Spared(lines) <==> l in lines && (l.Malformed? || !Learned(l.rec))
  {
    if lines != [] {
      SparedMembers(lines[..|lines| - 1], l);
      assert lines == lines[..|lines| - 1] + [lines[|lines| - 1]];
    }
  }

  /** The vault after the first `j` reset types have been rewritten. */
  function ResetUpTo(files: Files, j: nat): Files
    requires j <= |ResetTypes|
  {
    if j == 0 then files
    else
      var t := ResetTypes[j - 1];
      var f := ResetUpTo(files, j - 1);
      if t in files then f[t := Spared(files[t])] else f
  }

  /** The learned records deleted from the first `j` reset types. */
  function DeletedUpTo(files: Files, j: nat): nat
    requires j <= |ResetTypes|
  {
    if j == 0 then 0 else DeletedUpTo(files, j - 1) + Wiped(LinesOf(files, ResetTypes[j - 1]))
  }

  /** A type not yet visited still has its original file. */
  lemma {:induction false} ResetUpToUntouched(files: Files, j: nat, t: MemType)
    requires j <= |ResetTypes| && t !in ResetTypes[..j]
    ensures (t in ResetUpTo(files, j) <==> t in files) && (t in files ==> ResetUpTo(files, j)[t] == files[t])
  {
    if j > 0 {
      assert ResetTypes[..j - 1] <= ResetTypes[..j];
      ResetUpToUntouched(files, j - 1, t);
    }
  }

  /** A visited type holds its spared lines, and the vault has the same files. */
  lemma {:induction false} ResetUpToVisited(files: Files, j: nat, t: MemType)
    requires j <= |ResetTypes|
    ensures t in ResetUpTo(files, j) <==> t in files
    ensures t in files && t in ResetTypes[..j] ==> ResetUpTo(files, j)[t] == Spared(files[t])
    ensures t in files && t !in ResetTypes[..j] ==> ResetUpTo(files, j)[t] == files[t]
  {
    if j > 0 {
      ResetUpToVisited(files, j - 1, t);
      assert ResetTypes[..j] == ResetTypes[..j - 1] + [ResetTypes[j - 1]];
    }
  }

  /** After a reset no learned record is left in the four rewritten files, every other file is as it was, and malformed lines stay. */
  lemma ResetEffect(files: Files, t: MemType, l: Line)
    requires t in files
    ensures t in ResetUpTo(files, |ResetTypes|)
    ensures var after := ResetUpTo(files, |ResetTypes|)[t];
      (t in ResetTypes ==> (l in after <==> l in files[t] && (l.Malformed? || !Learned(l.rec))))
      && (t !in ResetTypes ==> after == files[t])
  {
    ResetUpToVisited(files, |ResetTypes|, t);
    assert ResetTypes[..|ResetTypes|] == ResetTypes;
    SparedMembers(files[t], l);
  }
}
