// The rage trainer: it remembers the last response, turns a reaction or a
// "never" command into a permanent checklist rule in the vault, builds the
// context for a regeneration, summarises the week and wipes what was
// learned. The clock and the record ids enter as parameters.
module RageTrainer {
  import opened Wrappers
  import opened Json
  import opened Text
  import opened MemoryVault
  import opened RageRules
  import opened Seqs

  const WeekMicros: int := WeekDays * Day

  /** What a confirmed reaction answers. */
  function ReactionReply(emoji: string): string
  {
    "got it. never doing that again. (" + emoji + ")"
  }

  function ResetReply(deleted: nat): string
  {
    "reset complete. deleted " + NatToString(deleted) + " learned behaviors. back to baseline."
  }

  /** A week before `now`, with `now`'s awareness. */
  function WeekBefore(now: Instant): (c: Instant)
    ensures c.aware == now.aware && c.micros == now.micros - WeekMicros
  {
    Instant(now.micros - WeekMicros, now.aware)
  }

  /**
   * What `get_weekly_summary` returns for the records `list` gives, `now`
   * being the clock it reads (`datetime.now(UTC)` is aware).
   */
  function WeeklyOf(rs: seq<Record>, now: Instant, parse: DateParse): (r: Result<Summary>)
    ensures r.Err? <==> InWindow(rs, WeekBefore(now), parse).Err?
  {
    var w := InWindow(rs, WeekBefore(now), parse);
    if w.Err? then Err(w.error)
    else
      var ts := Types(w.value);
      assert w.value != [] ==> Tally(ts) != [] by {
        if w.value != [] {
          TallyNonEmpty(ts);
        }
      }
      Ok(SummaryOf(w.value, Tally(ts)))
  }

  /**
   * As written, the aware `datetime.now(UTC)` is compared with the naive
   * times `add` writes, so any rage record in the vault makes the summary
   * raise TypeError.
   */
  lemma WeeklyRaisesOnVaultTimes(rs: seq<Record>, now: Instant, parse: DateParse)
    requires now.aware && rs != [] && rs[0].createdAt.Some? && NaiveStamp(parse, rs[0].createdAt.value)
    ensures WeeklyOf(rs, now, parse) == Err("TypeError")
  {
    InWindowMixed(rs, WeekBefore(now), parse);
  }

  /**
   * With a naive clock (`datetime.utcnow()`, as `add` uses), records written
   * by the vault never raise, and the summary covers exactly those created
   * within the week.
   */
  lemma WeeklyNaiveClock(rs: seq<Record>, now: Instant, parse: DateParse)
    requires !now.aware
    requires forall i :: 0 <= i < |rs| ==> rs[i].createdAt.Some? && NaiveStamp(parse, rs[i].createdAt.value)
    ensures WeeklyOf(rs, now, parse).Ok?
    ensures var w := InWindow(rs, WeekBefore(now), parse);
      w.Ok? && WeeklyOf(rs, now, parse).value == SummaryOf(w.value, Tally(Types(w.value)))
      && forall x :: x in w.value <==> x in rs && now.micros - CreatedAt(x, parse).value.micros < WeekMicros
  {
    assert forall i :: 0 <= i < |rs| ==> Comparable(rs[i], WeekBefore(now), parse);
  }

  /** The records `list(mtype="checklist", tag="rage_training")` gives. */
  function RageList(files: Files): (rs: seq<Record>)
  {
    ListedOfType(files, Checklist, None, Some("rage_training"));
    Listed(files, Some(Checklist.Name()), None, Some("rage_training")).value
  }

  /** `format_weekly_message`. */
  function FormatWeekly(s: Summary): (m: string)
    ensures s.NoRage? ==> m == NoRageMessage
    ensures s.Weekly? ==> EndsWith(m, "\"" + s.worstOffense + "\"")
  {
    match s
    case NoRage => NoRageMessage
    case Weekly(n, _, emoji, count, worst) =>
      var head := "this week i permanently learned " + NatToString(n) + " things about you. top rage: " + emoji
                  + " (" + IntToString(count) + " times). worst offense i'll never repeat again: ";
      var tail := "\"" + worst + "\"";
      assert (head + tail)[|head + tail| - |tail|..] == tail;
      head + tail
  }

  class Trainer {
    const vault: Vault
    var lastResponse: Option<string>
    var lastResponseTime: Option<string>
    var pendingRegen: bool

    constructor (vault: Vault)
      ensures this.vault == vault && lastResponse.None? && lastResponseTime.None? && !pendingRegen
    {
      this.vault := vault;
      lastResponse := None;
      lastResponseTime := None;
      pendingRegen := false;
    }

    /** `capture_response`: the response and the time it was given. */
    method CaptureResponse(text: string, now: string)
      modifies this
      ensures lastResponse == Some(text) && lastResponseTime == Some(now) && pendingRegen == old(pendingRegen)
    {
      lastResponse := Some(text);
      lastResponseTime := Some(now);
    }

    /**
     * `record_reaction`: an unknown emoji writes nothing; a known one appends
     * exactly one rage rule to the checklist file.
     */
    method RecordReaction(emoji: string, context: string, id: string, now: string) returns (msg: string)
      modifies vault
      ensures ReactionOf(emoji).None? ==> msg == "" && vault.files == old(vault.files)
      ensures ReactionOf(emoji).Some? ==>
        var rec := RageRecord(ReactionOf(emoji).value, Offending(lastResponse, context), id, now);
        msg == ReactionReply(emoji)
        && vault.files == old(vault.files)[Checklist := LinesOf(old(vault.files), Checklist) + [Rec(rec)]]
    {
      var x := ReactionOf(emoji);
      if x.None? {
        return "";
      }
      var rec := RageRecord(x.value, Offending(lastResponse, context), id, now);
      PathOfName(Checklist);
      var added := vault.Add(rec.mtype, rec.payload, rec.summary, rec.confidence, rec.ttlDays, Some(rec.tags), id, now);
      Rebuilt(rec, id, now);
      msg := ReactionReply(emoji);
    }

    /** `handle_never_command`: one permanent "NEVER ..." rule appended to the checklist file. */
    method HandleNeverCommand(what: string, id: string, now: string) returns (msg: string)
      modifies vault
      ensures vault.files == old(vault.files)[Checklist := LinesOf(old(vault.files), Checklist) + [Rec(NeverRecord(what, id, now))]]
      ensures msg == "understood. i will never " + what + " again."
    {
      var rec := NeverRecord(what, id, now);
      PathOfName(Checklist);
      var added := vault.Add(rec.mtype, rec.payload, rec.summary, rec.confidence, rec.ttlDays, Some(rec.tags), id, now);
      Rebuilt(rec, id, now);
      msg := "understood. i will never " + what + " again.";
    }

    /** `handle_regen`: no context without a last response; otherwise the newest rage rules. */
    method HandleRegen(forceExternal: bool) returns (g: Regen)
      ensures g == RegenFor(lastResponse, RageList(vault.files), forceExternal)
    {
      if lastResponse.None? || lastResponse.value == "" {
        return NoResponse;
      }
      var rules := vault.List(Some(Checklist.Name()), None, Some("rage_training"));
      g := RegenFor(lastResponse, rules.value, forceExternal);
    }

    /** `get_weekly_summary`: the week's records counted per reaction type in a loop. */
    method WeeklySummary(now: Instant, parse: DateParse) returns (r: Result<Summary>)
      ensures r == WeeklyOf(RageList(vault.files), now, parse)
    {
      var all := vault.List(Some(Checklist.Name()), None, Some("rage_training"));
      var window := InWindow(all.value, WeekBefore(now), parse);
      if window.Err? {
        return Err(window.error);
      }
      var week := window.value;
      if week == [] {
        return Ok(NoRage);
      }
      var counts: seq<(string, int)> := [];
      var i := 0;
      while i < |week|
        invariant 0 <= i <= |week|
        invariant counts == Tally(Types(week[..i]))
      {
        var rtype := ReactionType(week[i]);
        TypesSnoc(week, i);
        TallySnoc(Types(week[..i]), rtype);
        counts := Bump(counts, rtype);
        i := i + 1;
      }
      assert week[..i] == week;
      TallyNonEmpty(Types(week));
      r := Ok(SummaryOf(week, counts));
    }

    /**
     * `nuclear_reset`: the preference, checklist, prompt and semantic files
     * rewritten without their learned records; the reply gives how many went.
     */
    method NuclearReset() returns (msg: string)
      modifies vault
      ensures vault.files == ResetUpTo(old(vault.files), |ResetTypes|)
      ensures msg == ResetReply(DeletedUpTo(old(vault.files), |ResetTypes|))
    {
      var deleted := 0;
      var j := 0;
      while j < |ResetTypes|
        invariant 0 <= j <= |ResetTypes|
        invariant vault.files == ResetUpTo(old(vault.files), j)
        invariant deleted == DeletedUpTo(old(vault.files), j)
      {
        var t := ResetTypes[j];
        ResetNext(old(vault.files), j);
        if t in vault.files {
          var kept, n := ResetLines(vault.files[t]);
          vault.files := vault.files[t := kept];
          deleted := deleted + n;
        }
        j := j + 1;
      }
      msg := ResetReply(deleted);
    }
  }

  /** The scan of one file: the lines written back and the learned records dropped. */
  method ResetLines(lines: seq<Line>) returns (kept: seq<Line>, deleted: nat)
    ensures kept == Spared(lines) && deleted == Wiped(lines)
  {
    kept := [];
    deleted := 0;
    var i := 0;
    while i < |lines|
      invariant 0 <= i <= |lines|
      invariant kept == Spared(lines[..i]) && deleted == Wiped(lines[..i])
    {
      ResetStep(lines, i);
      if lines[i].Rec? && Learned(lines[i].rec) {
        deleted := deleted + 1;
      } else {
        kept := kept + [lines[i]];
      }
      i := i + 1;
    }
    assert lines[..i] == lines;
  }

  /** One more reset type rewritten: its file, if present, loses its learned records. */
  lemma ResetNext(files: Files, j: nat)
    requires j < |ResetTypes|
    ensures var t := ResetTypes[j];
      var cur := ResetUpTo(files, j);
      (t in cur <==> t in files)
      && ResetUpTo(files, j + 1) == (if t in cur then cur[t := Spared(cur[t])] else cur)
      && DeletedUpTo(files, j + 1) == DeletedUpTo(files, j) + (if t in cur then Wiped(cur[t]) else 0)
  {
    var t := ResetTypes[j];
    assert t !in ResetTypes[..j];
    ResetUpToUntouched(files, j, t);
  }

  /** `add` given a record's own fields builds that same record. */
  lemma Rebuilt(r: Record, id: string, now: string)
    requires r.id == id && r.createdAt == Some(now) && r.lastUsedAt.None?
    ensures NewRecord(id, r.mtype, now, r.payload, r.summary, r.confidence, r.ttlDays, Some(r.tags)) == r
  {
  }

  lemma ResetStep(lines: seq<Line>, i: nat)
    requires i < |lines|
    ensures var drop := lines[i].Rec? && Learned(lines[i].rec);
      Spared(lines[..i + 1]) == Spared(lines[..i]) + (if drop then [] else [lines[i]])
      && Wiped(lines[..i + 1]) == Wiped(lines[..i]) + (if drop then 1 else 0)
  {
    assert lines[..i + 1][..i] == lines[..i];
  }

  lemma TypesSnoc(rs: seq<Record>, i: nat)
    requires i < |rs|
    ensures Types(rs[..i + 1]) == Types(rs[..i]) + [ReactionType(rs[i])]
  {
  }

  lemma TallySnoc(ts: seq<string>, t: string)
    ensures Tally(ts + [t]) == Bump(Tally(ts), t)
  {
    assert (ts + [t])[..|ts|] == ts;
  }

  /** Listing the checklist type reads exactly the checklist file. */
  lemma ListedChecklist(files: Files, tag: Option<string>)
    ensures Listed(files, Some(Checklist.Name()), None, tag) == Ok(Keep(LinesOf(files, Checklist), tag))
  {
    PathOfName(Checklist);
    assert ListPaths(Some(Checklist.Name())) == Ok([Checklist]);
    assert [Checklist][..0] == [];
    var kept := Keep(LinesOf(files, Checklist), tag);
    assert Matching(files, [Checklist], tag) == Matching(files, [], tag) + kept;
    assert Matching(files, [], tag) + kept == kept;
    assert Capped(kept, None) == kept;
  }

  /** A reaction just recorded is the newest rule the next regeneration applies. */
  lemma ReactionFeedsRegen(files: Files, rec: Record)
    requires "rage_training" in rec.tags
    ensures var after := RageList(files[Checklist := LinesOf(files, Checklist) + [Rec(rec)]]);
      after == RageList(files) + [rec]
      && LastN(after, RegenRules)[|LastN(after, RegenRules)| - 1] == rec
  {
    var tag := Some("rage_training");
    var lines := LinesOf(files, Checklist);
    var files' := files[Checklist := lines + [Rec(rec)]];
    ListedChecklist(files, tag);
    ListedChecklist(files', tag);
    assert LinesOf(files', Checklist) == lines + [Rec(rec)];
    assert (lines + [Rec(rec)])[..|lines|] == lines;
    assert Keep(lines + [Rec(rec)], tag) == Keep(lines, tag) + [rec];
    var after := RageList(files');
    assert after == Keep(lines + [Rec(rec)], tag);
    var newest := LastN(after, RegenRules);
    assert newest[|newest| - 1] == after[|after| - 1];
  }

}
