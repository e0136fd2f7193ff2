// The reflection agent: it asks the model to reflect on one episode and
// stores the reflection in the vault, and it distils recent episodes and
// reflections into rules, prompt patterns and checklist steps. The model
// call is a parameter (`Err` where `generate` raises), as are
// `json.loads`, `str()` of a value, `datetime.fromisoformat` and the
// clock; `uuid4` and the time stamps of new records come from `newId` and
// `stamp`, indexed by how many records the call has added before.
module ReflectionAgent {
  import opened Wrappers
  import opened Json
  import opened Text
  import opened MemoryVault
  import opened ReflectionParse
  import opened Seqs

  /** `llm.generate` on one user message: the reply's content, or the error it raises. */
  type Llm = string -> Result<string>

  /** `str()` of a value, as an f-string renders it. */
  type Show = Json -> string

  // ---- reflect_on_episode ----

  const ReflectionTtlDays: int := 180
  const ReflectionConfidence: real := 0.7

  /** An f-string of `success`: "True", "False", or "unknown" when it is None. */
  function SuccessText(success: Option<bool>): string
  {
    if success.None? then "unknown" else if success.value then "True" else "False"
  }

  /** `EPISODE_REFLECTION` cut at its four placeholders. */
  const EpisodeTemplate: seq<string> := [
    "Analyze this conversation episode and extract key learnings.\n\nEpisode:\nUser: ",
    "\nAssistant: ",
    "\nSuccess: ",
    "\nMode: ",
    "\n\nProvide:\n1. What went well?\n2. What could be improved?\n3. Any patterns or rules we should remember?\n4. Suggested prompt improvements?\n\nBe concise and actionable."]

  /** `EPISODE_REFLECTION` filled in with the first 500 characters of each side. */
  function EpisodePrompt(userText: string, assistantText: string, success: Option<bool>, mode: string): (p: string)
    ensures Contains(p, Take(userText, 500)) && Contains(p, Take(assistantText, 500)) && Contains(p, mode)
  {
    var values := [Take(userText, 500), Take(assistantText, 500), SuccessText(success), mode];
    FillContains(EpisodeTemplate, values, 0);
    FillContains(EpisodeTemplate, values, 1);
    FillContains(EpisodeTemplate, values, 3);
    Fill(EpisodeTemplate, values)
  }

  /** `tools_used or []`. */
  function ToolsOf(toolsUsed: Option<seq<string>>): seq<string>
  {
    if toolsUsed.Some? then toolsUsed.value else []
  }

  const ReflectionKeys: seq<string> :=
    ["episode_id", "user_text", "assistant_text", "success", "mode", "tools_used", "reflection", "learnings"]

  /** The payload stored for a reflection: the episode, its first 200 characters per side, the reply and its learnings. */
  function ReflectionPayload(episodeId: string, userText: string, assistantText: string, success: Option<bool>,
                             mode: string, toolsUsed: Option<seq<string>>, reflection: string, learnings: Json)
    : (p: seq<(string, Json)>)
    ensures Keys(p) == ReflectionKeys
    ensures p[1].1 == JStr(Take(userText, 200)) && p[2].1 == JStr(Take(assistantText, 200))
    ensures p[6].1 == JStr(reflection) && p[7].1 == learnings
  {
    Zip(ReflectionKeys, [JStr(episodeId), JStr(Take(userText, 200)), JStr(Take(assistantText, 200)),
                         if success.Some? then JBool(success.value) else JNull,
                         JStr(mode), JArr(StrList(ToolsOf(toolsUsed))), JStr(reflection), learnings])
  }

  /** The reflection record for a model reply `reply`. */
  function ReflectionRecord(id: string, createdAt: string, episodeId: string, userText: string, assistantText: string,
                            success: Option<bool>, mode: string, toolsUsed: Option<seq<string>>, reply: string): (r: Record)
    ensures r.mtype == Reflection.Name() && r.createdAt == Some(createdAt) && r.id == id
    ensures r.confidence == Some(ReflectionConfidence) && r.ttlDays == Some(ReflectionTtlDays)
    ensures r.summary == Some("Reflection on " + mode + " response")
    ensures r.tags == ["auto-generated", mode] + ToolsOf(toolsUsed)
    ensures r.payload == ReflectionPayload(episodeId, userText, assistantText, success, mode, toolsUsed, Strip(reply),
                                           LearningsJson(Learnings(Strip(reply))))
  {
    NewRecord(id, Reflection.Name(), createdAt,
              ReflectionPayload(episodeId, userText, assistantText, success, mode, toolsUsed, Strip(reply),
                                LearningsJson(Learnings(Strip(reply)))),
              Some("Reflection on " + mode + " response"), Some(ReflectionConfidence), Some(ReflectionTtlDays),
              Some(["auto-generated", mode] + ToolsOf(toolsUsed)))
  }

  /**
   * `reflect_on_episode`: a failing model call returns None and stores
   * nothing; otherwise the reflection is appended to the reflections file
   * and returned.
   */
  method ReflectOnEpisode(vault: Vault, llm: Llm, episodeId: string, userText: string, assistantText: string,
                          success: Option<bool>, mode: string, toolsUsed: Option<seq<string>>,
                          id: string, createdAt: string) returns (r: Option<Record>)
    modifies vault
    ensures llm(EpisodePrompt(userText, assistantText, success, mode)).Err? ==> r.None? && vault.files == old(vault.files)
    ensures llm(EpisodePrompt(userText, assistantText, success, mode)).Ok? ==>
      var reply := llm(EpisodePrompt(userText, assistantText, success, mode)).value;
      r == Some(ReflectionRecord(id, createdAt, episodeId, userText, assistantText, success, mode, toolsUsed, reply))
      && vault.files == old(vault.files)[Reflection := LinesOf(old(vault.files), Reflection) + [Rec(r.value)]]
  {
    var prompt := EpisodePrompt(userText, assistantText, success, mode);
    var response := llm(prompt);
    if response.Err? {
      return None;
    }
    var text := Strip(response.value);
    var learnings := ExtractLearnings(text);
    var payload := ReflectionPayload(episodeId, userText, assistantText, success, mode, toolsUsed, text,
                                     LearningsJson(learnings));
    PathOfName(Reflection);
    var added := vault.Add(Reflection.Name(), payload, Some("Reflection on " + mode + " response"),
                           Some(ReflectionConfidence), Some(ReflectionTtlDays),
                           Some(["auto-generated", mode] + ToolsOf(toolsUsed)), id, createdAt);
    r := Some(added.value);
  }

  /** A reflection outlives the episodes: pruning removes it exactly once 180 days have passed. */
  lemma ReflectionLifetime(r: Record, now: int, parse: DateParse, created: int)
    requires r.confidence == Some(ReflectionConfidence) && r.ttlDays == Some(ReflectionTtlDays)
    requires r.createdAt.Some? && r.createdAt.value != "" && parse(r.createdAt.value) == Some(Instant(created, false))
    ensures Removable(r, now, parse) <==> now - created > 180 * Day
    ensures now - created <= 180 * Day ==> !Expired(r, now, parse)
  {
  }

  // ---- distillation_sweep ----

  /** The outcome dict of a sweep. */
  datatype SweepResult =
    | Skipped
    | Completed(episodesAnalyzed: nat, reflectionsAnalyzed: nat, distilled: seq<(string, Json)>)
    | Failed(error: string)

  const KeyError := "'created_at'"

  /** What `str` gives for the TypeError of comparing a naive with an aware datetime. */
  const CompareError := "can't compare offset-naive and offset-aware datetimes"

  /**
   * The records created after the cutoff; a missing or unreadable creation
   * time raises and ends the sweep, and so does one whose awareness differs
   * from the cutoff's.
   */
  function Recent(records: seq<Record>, cutoff: Instant, parse: DateParse): (r: Result<seq<Record>>)
    ensures r.Ok? ==> forall x :: x in records ==>
      x.createdAt.Some? && parse(x.createdAt.value).Some? && parse(x.createdAt.value).value.aware == cutoff.aware
    ensures r.Ok? ==> |r.value| <= |records|
    ensures r.Ok? ==> forall x :: x in r.value ==> x in records && parse(x.createdAt.value).value.micros > cutoff.micros
    ensures r.Ok? ==> forall x :: x in records && parse(x.createdAt.value).value.micros > cutoff.micros ==> x in r.value
  {
    if records == [] then Ok([])
    else
      var x := records[0];
      if x.createdAt.None? then Err(KeyError)
      else if parse(x.createdAt.value).None? then Err("Invalid isoformat string: '" + x.createdAt.value + "'")
      else if parse(x.createdAt.value).value.aware != cutoff.aware then Err(CompareError)
      else
        var rest := Recent(records[1..], cutoff, parse);
        if rest.Err? then rest
        else if parse(x.createdAt.value).value.micros > cutoff.micros then Ok([x] + rest.value)
        else rest
  }

  /** Every record readable and of the cutoff's awareness: the filter succeeds. */
  lemma {:induction false} RecentSucceeds(records: seq<Record>, cutoff: Instant, parse: DateParse)
    requires forall i :: 0 <= i < |records| ==>
      records[i].createdAt.Some? && parse(records[i].createdAt.value).Some?
      && parse(records[i].createdAt.value).value.aware == cutoff.aware
    ensures Recent(records, cutoff, parse).Ok?
  {
    if records != [] {
      assert forall i :: 1 <= i < |records| ==> records[i] == records[1..][i - 1];
      RecentSucceeds(records[1..], cutoff, parse);
    }
  }

  /** `', '.join(v[:2])` for the rules of a reflection: the first two strings of a list, or the first two characters of a string. */
  function FirstTwoRules(v: Json): (r: Result<string>)
    ensures v.JArr? && |v.items| >= 2 && v.items[0].JStr? && v.items[1].JStr? ==>
      r == Ok(v.items[0].s + ", " + v.items[1].s)
  {
    match v
    case JArr(xs) =>
      var firstTwo := if |xs| < 2 then xs else xs[..2];
      if forall i :: 0 <= i < |firstTwo| ==> firstTwo[i].JStr? then
        var strs := seq(|firstTwo|, i requires 0 <= i < |firstTwo| && firstTwo[i].JStr? => firstTwo[i].s);
        assert |firstTwo| == 2 ==> Join(strs, ", ") == strs[0] + ", " + strs[1] by {
          if |firstTwo| == 2 {
            assert strs[1..] == [strs[1]];
          }
        }
        Ok(Join(strs, ", "))
      else Err(TypeError)
    case JStr(s) =>
      var cs := Take(s, 2);
      Ok(Join(seq(|cs|, i requires 0 <= i < |cs| => [cs[i]]), ", "))
    case _ => Err(TypeError)
  }

  /** The summary lines of one reflection: its first two rules when it has any, then its summary when non-empty. */
  function ReflectionLines(refl: Record): (r: Result<seq<string>>)
    ensures r.Ok? ==> |r.value| <= 2
    ensures r.Ok? && refl.summary.Some? && refl.summary.value != "" ==>
      |r.value| > 0 && r.value[|r.value| - 1] == "- " + refl.summary.value
  {
    var learnings := Lookup(refl.payload, "learnings").GetOr(JObj([]));
    if !learnings.JObj? then Err("AttributeError")
    else
      var rules := Lookup(learnings.fields, "rules");
      var first: Result<seq<string>> :=
        if rules.Some? && Truthy(rules.value) then
          (var t := FirstTwoRules(rules.value); if t.Err? then Err(t.error) else Ok(["Rules: " + t.value]))
        else Ok([]);
      if first.Err? then first
      else Ok(first.value + (if refl.summary.Some? && refl.summary.value != "" then ["- " + refl.summary.value] else []))
  }

  /** The summary lines of the reflections in order; the first failing reflection ends the sweep. */
  function Summaries(refls: seq<Record>): (r: Result<seq<string>>)
    ensures r.Ok? ==> |r.value| <= 2 * |refls|
    decreases |refls|
  {
    if refls == [] then Ok([])
    else
      var prev := Summaries(refls[..|refls| - 1]);
      if prev.Err? then prev
      else
        var lines := ReflectionLines(refls[|refls| - 1]);
        if lines.Err? then Err(lines.error) else Ok(prev.value + lines.value)
  }

  lemma SummariesNext(refls: seq<Record>, i: nat, prev: seq<string>)
    requires i < |refls| && Summaries(refls[..i]) == Ok(prev)
    ensures var lines := ReflectionLines(refls[i]);
      Summaries(refls[..i + 1]) == if lines.Err? then Err(lines.error) else Ok(prev + lines.value)
  {
    TakeSnoc(refls, i);
    assert refls[..i + 1][..i] == refls[..i];
  }

  /** Once a reflection has failed, the later ones change nothing. */
  lemma {:induction false} SummariesSticky(refls: seq<Record>, j: nat)
    requires j <= |refls| && Summaries(refls[..j]).Err?
    ensures Summaries(refls) == Summaries(refls[..j])
    decreases |refls|
  {
    if j == |refls| {
      assert refls[..j] == refls;
    } else {
      var init := refls[..|refls| - 1];
      assert init[..j] == refls[..j];
      SummariesSticky(init, j);
    }
  }

  /** The loop over `reflections[:20]`. */
  method BuildSummaries(refls: seq<Record>) returns (r: Result<seq<string>>)
    ensures r == Summaries(refls)
  {
    var summaries: seq<string> := [];
    var i := 0;
    while i < |refls|
      invariant 0 <= i <= |refls|
      invariant Summaries(refls[..i]) == Ok(summaries)
    {
      SummariesNext(refls, i, summaries);
      var lines := ReflectionLines(refls[i]);
      if lines.Err? {
        SummariesSticky(refls, i + 1);
        return Err(lines.error);
      }
      summaries := summaries + lines.value;
      i := i + 1;
    }
    assert refls[..i] == refls;
    r := Ok(summaries);
  }

  function SummaryText(summaries: seq<string>): string
  {
    if summaries == [] then "No significant patterns" else Join(summaries, "\n")
  }

  /** How many characters of the summaries the sweep prompt carries. */
  const SummaryLimit: nat := 1000

  /** `DISTILLATION_SWEEP` cut at its two placeholders. */
  const SweepTemplate: seq<string> := [
    "Analyze these ",
    " recent episodes and reflections to distill key learnings.\n\nRecent patterns:\n",
    "\n\nGenerate:\n1. New rules learned (if any)\n2. Common failure patterns (if any)\n3. Successful prompt patterns (if any)\n4. Procedural steps to add to checklists (if any)\n\nFormat as JSON with keys: rules, failures, prompts, procedures"]

  /** `DISTILLATION_SWEEP` filled in with the episode count and the (already truncated) summaries. */
  function SweepPrompt(count: nat, summaries: string): (p: string)
    ensures Contains(p, NatToString(count)) && Contains(p, summaries)
  {
    var values := [NatToString(count), summaries];
    FillContains(SweepTemplate, values, 0);
    FillContains(SweepTemplate, values, 1);
    Fill(SweepTemplate, values)
  }

  /** The three kinds of distilled knowledge the sweep stores. */
  datatype Kind = Rules | Prompts | Procedures
  {
    /** The key of the distilled dict. */
    function Key(): string
    {
      match this
      case Rules => "rules"
      case Prompts => "prompts"
      case Procedures => "procedures"
    }

    /** How many items are stored at most. */
    function Limit(): nat
    {
      match this
      case Rules => 5
      case Prompts => 3
      case Procedures => 3
    }

    function Type(): MemType
    {
      match this
      case Rules => Semantic
      case Prompts => Prompt
      case Procedures => Checklist
    }

    /** The keys a dict item's text is taken from, in order of preference. */
    function TextKeys(): seq<string>
    {
      match this
      case Rules => ["rule"]
      case Prompts => ["prompt", "pattern"]
      case Procedures => ["procedure", "step"]
    }

    /** The payload key of the stored text. */
    function PayloadKey(): string
    {
      match this
      case Rules => "rule"
      case Prompts => "pattern"
      case Procedures => "step"
    }

    function Prefix(): string
    {
      match this
      case Rules => "Rule: "
      case Prompts => "Prompt pattern: "
      case Procedures => "Procedure: "
    }

    function Confidence(): real
    {
      match this
      case Rules => 0.8
      case Prompts => 0.7
      case Procedures => 0.7
    }

    function Tags(): seq<string>
    {
      match this
      case Rules => ["rule", "distilled"]
      case Prompts => ["prompt", "distilled"]
      case Procedures => ["procedure", "distilled"]
    }
  }

  /** The value stored under the first of `keys` a dict holds, `default` when it holds none. */
  function FirstOf(fields: seq<(string, Json)>, keys: seq<string>, default: Json): (r: Json)
    ensures (forall k :: k in keys ==> !HasKey(fields, k)) ==> r == default
    ensures keys != [] && HasKey(fields, keys[0]) ==> Some(r) == Lookup(fields, keys[0])
  {
    if keys == [] then default
    else if HasKey(fields, keys[0]) then Lookup(fields, keys[0]).value
    else FirstOf(fields, keys[1..], default)
  }

  /** The text of an item: a dict's text field (or the dict rendered), a string itself, anything else rendered. */
  function ItemText(kind: Kind, item: Json, show: Show): (r: Json)
    ensures !item.JObj? ==> r.JStr?
    ensures item.JStr? ==> r == item
  {
    if item.JObj? then FirstOf(item.fields, kind.TextKeys(), JStr(show(item)))
    else if item.JStr? then item
    else JStr(show(item))
  }

  /** How much of an item's text its summary keeps. */
  const SummaryCut: nat := 100

  /** `text[:100]` in an f-string: a string's first 100 characters, a list's first 100 elements rendered; other values raise. */
  function Cut(v: Json, show: Show): (r: Result<string>)
    ensures v.JStr? ==> r == Ok(Take(v.s, SummaryCut))
    ensures r.Ok? <==> v.JStr? || v.JArr?
  {
    match v
    case JStr(s) => Ok(Take(s, SummaryCut))
    case JArr(xs) => Ok(show(JArr(if |xs| <= SummaryCut then xs else xs[..SummaryCut])))
    case _ => Err(TypeError)
  }

  /** The payload and summary stored for one item. */
  function Entry(kind: Kind, item: Json, show: Show): Result<(seq<(string, Json)>, string)>
  {
    var text := ItemText(kind, item, show);
    var cut := Cut(text, show);
    if cut.Err? then Err(cut.error)
    else Ok(([(kind.PayloadKey(), text), ("source", JStr("distillation"))], kind.Prefix() + cut.value))
  }

  /**
   * An entry's payload holds the kind's text field and the source; its
   * summary starts with the kind's prefix; a string item is stored as it
   * is, summarised by its first 100 characters.
   */
  lemma EntryShape(kind: Kind, item: Json, show: Show)
    ensures var r := Entry(kind, item, show);
      r.Ok? ==>
        Keys(r.value.0) == [kind.PayloadKey(), "source"] && r.value.0[0].1 == ItemText(kind, item, show)
        && StartsWith(r.value.1, kind.Prefix())
    ensures item.JStr? ==>
      Entry(kind, item, show) == Ok(([(kind.PayloadKey(), item), ("source", JStr("distillation"))], kind.Prefix() + Take(item.s, SummaryCut)))
  {
    var cut := Cut(ItemText(kind, item, show), show);
    if cut.Ok? {
      assert (kind.Prefix() + cut.value)[..|kind.Prefix()|] == kind.Prefix();
    }
  }

  /** `v[:n]` iterated: a list's first elements or a string's first characters; slicing anything else raises. */
  function Items(v: Json, n: nat): (r: Result<seq<Json>>)
    ensures r.Ok? ==> |r.value| <= n
    ensures v.JArr? ==> r == Ok(if |v.items| <= n then v.items else v.items[..n])
  {
    match v
    case JArr(xs) => Ok(if |xs| <= n then xs else xs[..n])
    case JStr(s) =>
      var cs := Take(s, n);
      Ok(seq(|cs|, i requires 0 <= i < |cs| => JStr([cs[i]])))
    case _ => Err(TypeError)
  }

  /** The vault after storing a run of items, how many were stored, and the error that stopped the run, if any. */
  datatype Outcome = Outcome(files: Files, added: nat, error: Option<string>)

  /** The record stored for the `k`-th addition of the call. */
  function DistilledRecord(kind: Kind, entry: (seq<(string, Json)>, string), k: nat,
                           newId: nat -> string, stamp: nat -> string): Record
  {
    NewRecord(newId(k), kind.Type().Name(), stamp(k), entry.0, Some(entry.1), Some(kind.Confidence()), None, Some(kind.Tags()))
  }

  /** The record carries the kind's type, tags and confidence, the entry's payload and summary, and no expiry. */
  lemma DistilledShape(kind: Kind, entry: (seq<(string, Json)>, string), k: nat, newId: nat -> string, stamp: nat -> string)
    ensures var r := DistilledRecord(kind, entry, k, newId, stamp);
      r.mtype == kind.Type().Name() && r.tags == kind.Tags() && r.confidence == Some(kind.Confidence())
      && r.ttlDays.None? && r.payload == entry.0 && r.summary == Some(entry.1)
  {
  }

  /** The vault after `add` appends `rec` to the file of type `t`. */
  function AddTo(files: Files, t: MemType, rec: Record): Files
  {
    files[t := LinesOf(files, t) + [Rec(rec)]]
  }

  /** The entries of a run of items, computed one item at a time. */
  function Entries(kind: Kind, items: seq<Json>, show: Show): (es: seq<Result<(seq<(string, Json)>, string)>>)
    ensures |es| == |items| && forall i :: 0 <= i < |items| ==> es[i] == Entry(kind, items[i], show)
  {
    seq(|items|, i requires 0 <= i < |items| => Entry(kind, items[i], show))
  }

  /** One item of a run: nothing once an item has raised, otherwise its record is added or its error recorded. */
  function StoreStep(o: Outcome, kind: Kind, e: Result<(seq<(string, Json)>, string)>, newId: nat -> string,
                     stamp: nat -> string, k: nat): Outcome
  {
    if o.error.Some? then o
    else
      if e.Err? then Outcome(o.files, o.added, Some(e.error))
      else Outcome(AddTo(o.files, kind.Type(), DistilledRecord(kind, e.value, k + o.added, newId, stamp)), o.added + 1, None)
  }

  /** Store the entries in order into the file of `kind`, numbering the additions from `k`; the first entry that raised stops the run. */
  function StoreRun(files: Files, kind: Kind, es: seq<Result<(seq<(string, Json)>, string)>>, newId: nat -> string,
                    stamp: nat -> string, k: nat): (o: Outcome)
    ensures o.added <= |es|
    ensures o.error.None? ==> o.added == |es|
  {
    if es == [] then Outcome(files, 0, None)
    else StoreStep(StoreRun(files, kind, es[..|es| - 1], newId, stamp, k), kind, es[|es| - 1], newId, stamp, k)
  }

  lemma StoreRunNext(files: Files, kind: Kind, es: seq<Result<(seq<(string, Json)>, string)>>, i: nat,
                     newId: nat -> string, stamp: nat -> string, k: nat)
    requires i < |es|
    ensures StoreRun(files, kind, es[..i + 1], newId, stamp, k)
         == StoreStep(StoreRun(files, kind, es[..i], newId, stamp, k), kind, es[i], newId, stamp, k)
  {
    TakeSnoc(es, i);
    assert es[..i + 1][..i] == es[..i];
  }

  /** Once an entry has raised, the later ones change nothing. */
  lemma {:induction false} StoreRunSticky(files: Files, kind: Kind, es: seq<Result<(seq<(string, Json)>, string)>>, j: nat,
                                          newId: nat -> string, stamp: nat -> string, k: nat)
    requires j <= |es| && StoreRun(files, kind, es[..j], newId, stamp, k).error.Some?
    ensures StoreRun(files, kind, es, newId, stamp, k) == StoreRun(files, kind, es[..j], newId, stamp, k)
    decreases |es|
  {
    if j == |es| {
      assert es[..j] == es;
    } else {
      var init := es[..|es| - 1];
      assert init[..j] == es[..j];
      StoreRunSticky(files, kind, init, j, newId, stamp, k);
    }
  }

  /** An entry that computed extends the run by its record. */
  lemma StoreRunAdded(files: Files, kind: Kind, es: seq<Result<(seq<(string, Json)>, string)>>, i: nat,
                      newId: nat -> string, stamp: nat -> string, k: nat, before: Files, added: nat,
                      e: (seq<(string, Json)>, string), after: Files)
    requires i < |es| && StoreRun(files, kind, es[..i], newId, stamp, k) == Outcome(before, added, None)
    requires es[i] == Ok(e)
    requires after == AddTo(before, kind.Type(), DistilledRecord(kind, e, k + added, newId, stamp))
    ensures StoreRun(files, kind, es[..i + 1], newId, stamp, k) == Outcome(after, added + 1, None)
  {
    StoreRunNext(files, kind, es, i, newId, stamp, k);
  }

  /** An entry that raised ends the whole run with its error. */
  lemma StoreRunFails(files: Files, kind: Kind, es: seq<Result<(seq<(string, Json)>, string)>>, i: nat,
                      newId: nat -> string, stamp: nat -> string, k: nat, before: Files, added: nat)
    requires i < |es| && StoreRun(files, kind, es[..i], newId, stamp, k) == Outcome(before, added, None)
    requires es[i].Err?
    ensures StoreRun(files, kind, es, newId, stamp, k) == Outcome(before, added, Some(es[i].error))
  {
    StoreRunNext(files, kind, es, i, newId, stamp, k);
    StoreRunSticky(files, kind, es, i + 1, newId, stamp, k);
  }

  /** One kind of the distilled dict: skipped when its value is false, stored item by item otherwise. */
  function StoreKind(files: Files, kind: Kind, distilled: seq<(string, Json)>, show: Show,
                     newId: nat -> string, stamp: nat -> string, k: nat): (o: Outcome)
    ensures o.added <= kind.Limit()
  {
    var v := GetOr(distilled, kind.Key(), JNull);
    if !Truthy(v) then Outcome(files, 0, None)
    else
      var items := Items(v, kind.Limit());
      if items.Err? then Outcome(files, 0, Some(items.error))
      else StoreRun(files, kind, Entries(kind, items.value, show), newId, stamp, k)
  }

  /** Everything a sweep depends on besides the vault. */
  datatype SweepEnv = SweepEnv(llm: Llm, loads: JsonLoads, show: Show, parse: DateParse,
                               newId: nat -> string, stamp: nat -> string)

  /** How far a sweep gets before it stores anything: an early result, or the counts and the model's reply. */
  datatype Stage = Early(result: SweepResult) | Ready(episodes: nat, reflections: nat, reply: string)

  /** How many records of each type the sweep lists, and how many reflections it summarises. */
  const SweepListLimit: nat := 100
  const SweepReflections: nat := 20

  /** Everything up to the parsed distillation: listing, date filter, the minimum, the summaries and the model call. */
  function Prepare(files: Files, env: SweepEnv, cutoff: Instant, minEpisodes: int): (s: Stage)
    ensures s.Early? ==> !s.result.Completed?
    ensures s.Ready? ==> minEpisodes <= s.episodes <= SweepListLimit && s.reflections <= SweepListLimit
  {
    ListedOfType(files, Episodic, Some(SweepListLimit), None);
    ListedOfType(files, Reflection, Some(SweepListLimit), None);
    Filtered(Listed(files, Some(Episodic.Name()), Some(SweepListLimit), None).value,
             Listed(files, Some(Reflection.Name()), Some(SweepListLimit), None).value, cutoff, env, minEpisodes)
  }

  /** `Prepare` in terms of the two listings. */
  lemma PrepareIs(files: Files, env: SweepEnv, cutoff: Instant, minEpisodes: int,
                  eps: seq<Record>, refls: seq<Record>, stage: Stage)
    requires Listed(files, Some(Episodic.Name()), Some(SweepListLimit), None) == Ok(eps)
    requires Listed(files, Some(Reflection.Name()), Some(SweepListLimit), None) == Ok(refls)
    requires stage == Filtered(eps, refls, cutoff, env, minEpisodes)
    ensures stage == Prepare(files, env, cutoff, minEpisodes)
  {
  }

  /** The listed episodes and reflections filtered by date, then analysed. */
  function Filtered(eps: seq<Record>, refls: seq<Record>, cutoff: Instant, env: SweepEnv, minEpisodes: int): (s: Stage)
    ensures s.Early? ==> !s.result.Completed?
    ensures s.Ready? ==> minEpisodes <= s.episodes <= |eps| && s.reflections <= |refls|
  {
    var episodes := Recent(eps, cutoff, env.parse);
    if episodes.Err? then Early(Failed(episodes.error))
    else
      var reflections := Recent(refls, cutoff, env.parse);
      if reflections.Err? then Early(Failed(reflections.error))
      else Analyze(|episodes.value|, reflections.value, env, minEpisodes)
  }

  /** After the date filter: the minimum, the summaries of the first 20 reflections, the model call and its parse. */
  function Analyze(episodes: nat, reflections: seq<Record>, env: SweepEnv, minEpisodes: int): (s: Stage)
    ensures s.Early? ==> !s.result.Completed?
    ensures s.Ready? ==> minEpisodes <= s.episodes == episodes && s.reflections == |reflections|
  {
    if episodes < minEpisodes then Early(Skipped)
    else
      var summaries := Summaries(if |reflections| <= SweepReflections then reflections else reflections[..SweepReflections]);
      if summaries.Err? then Early(Failed(summaries.error))
      else
        var reply := env.llm(SweepPrompt(episodes, Take(SummaryText(summaries.value), SummaryLimit)));
        if reply.Err? then Early(Failed(reply.error))
        else Ready(episodes, |reflections|, reply.value)
  }

  /** One kind's store loop run on a vault, numbering its records from a running count. */
  type Store = (Files, Kind, nat) -> Outcome

  function KindStore(distilled: seq<(string, Json)>, env: SweepEnv): Store
  {
    (f: Files, kind: Kind, k: nat) => StoreKind(f, kind, distilled, env.show, env.newId, env.stamp, k)
  }

  /** The kinds in the order the sweep stores them. */
  const Kinds: seq<Kind> := [Rules, Prompts, Procedures]

  /** The next kind's store loop after the earlier ones; nothing once one of them has raised. */
  function StoreNext(o: Outcome, kind: Kind, store: Store): Outcome
  {
    if o.error.Some? then o
    else
      var next := store(o.files, kind, o.added);
      Outcome(next.files, o.added + next.added, next.error)
  }

  /** The store loops of `kinds` in order; the first error stops them with what was stored so far. */
  function StoreKinds(files: Files, kinds: seq<Kind>, store: Store): Outcome
    decreases |kinds|
  {
    if kinds == [] then Outcome(files, 0, None)
    else StoreNext(StoreKinds(files, kinds[..|kinds| - 1], store), kinds[|kinds| - 1], store)
  }

  /** The sweep's three store loops. */
  function StoreAll(files: Files, store: Store): Outcome
  {
    StoreKinds(files, Kinds, store)
  }

  lemma StoreKindsNext(files: Files, kinds: seq<Kind>, i: nat, store: Store, before: Files, added: nat, o: Outcome)
    requires i < |kinds| && StoreKinds(files, kinds[..i], store) == Outcome(before, added, None)
    requires o == store(before, kinds[i], added) && o.error.None?
    ensures StoreKinds(files, kinds[..i + 1], store) == Outcome(o.files, added + o.added, None)
  {
    TakeSnoc(kinds, i);
    assert kinds[..i + 1][..i] == kinds[..i];
  }

  /** Once a store has raised, the later kinds change nothing. */
  lemma {:induction false} StoreKindsSticky(files: Files, kinds: seq<Kind>, j: nat, store: Store)
    requires j <= |kinds| && StoreKinds(files, kinds[..j], store).error.Some?
    ensures StoreKinds(files, kinds, store) == StoreKinds(files, kinds[..j], store)
    decreases |kinds|
  {
    if j == |kinds| {
      assert kinds[..j] == kinds;
    } else {
      var init := kinds[..|kinds| - 1];
      assert init[..j] == kinds[..j];
      StoreKindsSticky(files, init, j, store);
    }
  }

  lemma StoreKindsFails(files: Files, kinds: seq<Kind>, i: nat, store: Store, before: Files, added: nat, o: Outcome)
    requires i < |kinds| && StoreKinds(files, kinds[..i], store) == Outcome(before, added, None)
    requires o == store(before, kinds[i], added) && o.error.Some?
    ensures StoreKinds(files, kinds, store) == Outcome(o.files, added + o.added, o.error)
  {
    TakeSnoc(kinds, i);
    assert kinds[..i + 1][..i] == kinds[..i];
    StoreKindsSticky(files, kinds, i + 1, store);
  }

  /** Whether `len` accepts the value: strings, lists and dicts have a length; None, booleans and numbers raise TypeError. */
  predicate Sized(v: Json)
  {
    v.JStr? || v.JArr? || v.JObj?
  }

  /**
   * Whether the closing log line, which takes `len(distilled.get(key, []))`
   * of the rules, prompts and procedures, can be built.
   */
  predicate CountsLoggable(distilled: seq<(string, Json)>)
  {
    Sized(GetOr(distilled, "rules", JArr([]))) && Sized(GetOr(distilled, "prompts", JArr([])))
    && Sized(GetOr(distilled, "procedures", JArr([])))
  }

  /** The sweep's result once the store loops are done: their error, the log line's TypeError, or completion. */
  function Closing(episodes: nat, reflections: nat, distilled: seq<(string, Json)>, error: Option<string>): (r: SweepResult)
    ensures r.Completed? <==> error.None? && CountsLoggable(distilled)
    ensures r.Completed? ==> r == Completed(episodes, reflections, distilled)
    ensures r.Failed? && error.None? ==> r.error == "TypeError"
  {
    if error.Some? then Failed(error.value)
    else if !CountsLoggable(distilled) then Failed("TypeError")
    else Completed(episodes, reflections, distilled)
  }

  /**
   * `distillation_sweep` over the records created after `cutoff`: the result
   * and the vault after it. After the store loops, a kind whose value has no
   * length makes the log line raise, and the sweep fails keeping what it stored.
   */
  function Sweep(files: Files, env: SweepEnv, cutoff: Instant, minEpisodes: int): (r: (SweepResult, Files))
  {
    match Prepare(files, env, cutoff, minEpisodes)
    case Early(result) => (result, files)
    case Ready(episodes, reflections, reply) =>
      var distilled := Distilled(reply, env.loads);
      var stored := StoreAll(files, KindStore(distilled, env));
      (Closing(episodes, reflections, distilled, stored.error), stored.files)
  }

  /** One `vault.add` of the sweep. */
  method StoreOne(vault: Vault, kind: Kind, entry: (seq<(string, Json)>, string), k: nat,
                  newId: nat -> string, stamp: nat -> string)
    modifies vault
    ensures vault.files == AddTo(old(vault.files), kind.Type(), DistilledRecord(kind, entry, k, newId, stamp))
  {
    PathOfName(kind.Type());
    var res := vault.Add(kind.Type().Name(), entry.0, Some(entry.1), Some(kind.Confidence()), None,
                         Some(kind.Tags()), newId(k), stamp(k));
  }

  /** One pass of the store loop: item `i`'s record added, or its error, which ends the run. */
  method StoreAt(vault: Vault, kind: Kind, es: seq<Result<(seq<(string, Json)>, string)>>, i: nat,
                 newId: nat -> string, stamp: nat -> string, k: nat, added: nat, ghost f0: Files)
    returns (added': nat, error: Option<string>)
    requires i < |es| && StoreRun(f0, kind, es[..i], newId, stamp, k) == Outcome(vault.files, added, None)
    modifies vault
    ensures error.None? ==> StoreRun(f0, kind, es[..i + 1], newId, stamp, k) == Outcome(vault.files, added', None)
    ensures error.Some? ==> StoreRun(f0, kind, es, newId, stamp, k) == Outcome(vault.files, added', error)
  {
    var entry := es[i];
    if entry.Err? {
      StoreRunFails(f0, kind, es, i, newId, stamp, k, vault.files, added);
      return added, Some(entry.error);
    }
    ghost var before := vault.files;
    StoreOne(vault, kind, entry.value, k + added, newId, stamp);
    ghost var after := vault.files;
    StoreRunAdded(f0, kind, es, i, newId, stamp, k, before, added, entry.value, after);
    return added + 1, None;
  }

  /** The store loop of one kind, adding through the vault. */
  method StoreItems(vault: Vault, kind: Kind, items: seq<Json>, show: Show, newId: nat -> string, stamp: nat -> string,
                    k: nat) returns (added: nat, error: Option<string>)
    modifies vault
    ensures Outcome(vault.files, added, error) == StoreRun(old(vault.files), kind, Entries(kind, items, show), newId, stamp, k)
  {
    ghost var f0 := vault.files;
    var es := Entries(kind, items, show);
    added, error := 0, None;
    var i := 0;
    while i < |items|
      invariant 0 <= i <= |items|
      invariant error.None? && StoreRun(f0, kind, es[..i], newId, stamp, k) == Outcome(vault.files, added, None)
    {
      added, error := StoreAt(vault, kind, es, i, newId, stamp, k, added, f0);
      if error.Some? {
        return;
      }
      i := i + 1;
    }
    assert es[..i] == es;
  }

  /** One kind of the distilled dict, stored through the vault. */
  method StoreDistilled(vault: Vault, kind: Kind, distilled: seq<(string, Json)>, show: Show,
                        newId: nat -> string, stamp: nat -> string, k: nat) returns (added: nat, error: Option<string>)
    modifies vault
    ensures Outcome(vault.files, added, error) == StoreKind(old(vault.files), kind, distilled, show, newId, stamp, k)
  {
    var v := GetOr(distilled, kind.Key(), JNull);
    if !Truthy(v) {
      return 0, None;
    }
    var items := Items(v, kind.Limit());
    if items.Err? {
      return 0, Some(items.error);
    }
    added, error := StoreItems(vault, kind, items.value, show, newId, stamp, k);
  }

  /** The sweep up to the parsed distillation; it reads the vault and changes nothing. */
  method PrepareSweep(vault: Vault, env: SweepEnv, cutoff: Instant, minEpisodes: int) returns (stage: Stage)
    ensures stage == Prepare(old(vault.files), env, cutoff, minEpisodes)
  {
    ghost var files := vault.files;
    ListedOfType(files, Episodic, Some(SweepListLimit), None);
    ListedOfType(files, Reflection, Some(SweepListLimit), None);
    var eps := vault.List(Some(Episodic.Name()), Some(SweepListLimit), None);
    var refls := vault.List(Some(Reflection.Name()), Some(SweepListLimit), None);
    stage := PrepareListed(eps.value, refls.value, env, cutoff, minEpisodes, files);
  }

  /** The sweep from the two listings on. */
  method PrepareListed(eps: seq<Record>, refls: seq<Record>, env: SweepEnv, cutoff: Instant, minEpisodes: int,
                       ghost files: Files) returns (stage: Stage)
    requires Listed(files, Some(Episodic.Name()), Some(SweepListLimit), None) == Ok(eps)
    requires Listed(files, Some(Reflection.Name()), Some(SweepListLimit), None) == Ok(refls)
    ensures stage == Prepare(files, env, cutoff, minEpisodes)
  {
    stage := FilterSweep(eps, refls, cutoff, env, minEpisodes);
    PrepareIs(files, env, cutoff, minEpisodes, eps, refls, stage);
  }

  /** The date filter on the listed records, then the analysis. */
  method FilterSweep(eps: seq<Record>, refls: seq<Record>, cutoff: Instant, env: SweepEnv, minEpisodes: int) returns (stage: Stage)
    ensures stage == Filtered(eps, refls, cutoff, env, minEpisodes)
  {
    var episodes := Recent(eps, cutoff, env.parse);
    if episodes.Err? {
      return Early(Failed(episodes.error));
    }
    var reflections := Recent(refls, cutoff, env.parse);
    if reflections.Err? {
      return Early(Failed(reflections.error));
    }
    stage := AnalyzeSweep(|episodes.value|, reflections.value, env, minEpisodes);
  }

  /** The sweep after the date filter. */
  method AnalyzeSweep(episodes: nat, reflections: seq<Record>, env: SweepEnv, minEpisodes: int) returns (stage: Stage)
    ensures stage == Analyze(episodes, reflections, env, minEpisodes)
  {
    if episodes < minEpisodes {
      return Early(Skipped);
    }
    var firstRefls := if |reflections| <= SweepReflections then reflections else reflections[..SweepReflections];
    var summaries := BuildSummaries(firstRefls);
    if summaries.Err? {
      return Early(Failed(summaries.error));
    }
    var reply := env.llm(SweepPrompt(episodes, Take(SummaryText(summaries.value), SummaryLimit)));
    if reply.Err? {
      return Early(Failed(reply.error));
    }
    stage := Ready(episodes, |reflections|, reply.value);
  }

  /** The three store loops on the vault. */
  method StoreSweep(vault: Vault, distilled: seq<(string, Json)>, env: SweepEnv) returns (error: Option<string>)
    modifies vault
    ensures error == StoreAll(old(vault.files), KindStore(distilled, env)).error
    ensures vault.files == StoreAll(old(vault.files), KindStore(distilled, env)).files
  {
    var added := 0;
    var i := 0;
    while i < |Kinds|
      invariant 0 <= i <= |Kinds|
      invariant StoreKinds(old(vault.files), Kinds[..i], KindStore(distilled, env)) == Outcome(vault.files, added, None)
    {
      ghost var before := vault.files;
      var n, e := StoreDistilled(vault, Kinds[i], distilled, env.show, env.newId, env.stamp, added);
      KindStoreIs(distilled, env, before, Kinds[i], added);
      if e.Some? {
        StoreKindsFails(old(vault.files), Kinds, i, KindStore(distilled, env), before, added, Outcome(vault.files, n, e));
        return e;
      }
      StoreKindsNext(old(vault.files), Kinds, i, KindStore(distilled, env), before, added, Outcome(vault.files, n, e));
      added := added + n;
      i := i + 1;
    }
    assert Kinds[..i] == Kinds;
    error := None;
  }

  /** Running a kind's store is `StoreKind` on the sweep's distilled dict and environment. */
  lemma KindStoreIs(distilled: seq<(string, Json)>, env: SweepEnv, f: Files, kind: Kind, k: nat)
    ensures KindStore(distilled, env)(f, kind, k) == StoreKind(f, kind, distilled, env.show, env.newId, env.stamp, k)
  {
  }

  /**
   * `distillation_sweep` on the vault. The cutoff, `days_back` days before
   * the clock's now, is the caller's; as written it is aware, from
   * `datetime.now(UTC)`.
   */
  method DistillationSweep(vault: Vault, env: SweepEnv, cutoff: Instant, minEpisodes: int) returns (r: SweepResult)
    modifies vault
    ensures (r, vault.files) == Sweep(old(vault.files), env, cutoff, minEpisodes)
  {
    var stage := PrepareSweep(vault, env, cutoff, minEpisodes);
    if stage.Early? {
      return stage.result;
    }
    var distilled := ParseDistillation(stage.reply, env.loads);
    var error := StoreSweep(vault, distilled, env);
    r := Closing(stage.episodes, stage.reflections, distilled, error);
  }

  // ---- what a sweep may change ----

  /** `after` is `before` and then `n` records of `kind`. */
  predicate Grew(before: seq<Line>, after: seq<Line>, n: nat, kind: Kind)
  {
    |after| == |before| + n && after[..|before|] == before
    && forall i :: |before| <= i < |after| ==> after[i].Rec? && OfKind(after[i].rec, kind)
  }

  /** A record as the sweep stores it for `kind`: its type, its tags, its confidence and no ttl. */
  predicate OfKind(r: Record, kind: Kind)
  {
    r.mtype == kind.Type().Name() && r.tags == kind.Tags() && r.confidence == Some(kind.Confidence()) && r.ttlDays.None?
  }

  lemma GrewStep(before: seq<Line>, mid: seq<Line>, n: nat, kind: Kind, rec: Record)
    requires Grew(before, mid, n, kind) && OfKind(rec, kind)
    ensures Grew(before, mid + [Rec(rec)], n + 1, kind)
  {
    assert (mid + [Rec(rec)])[..|before|] == mid[..|before|];
  }

  lemma AddToOthers(files: Files, t: MemType, rec: Record)
    ensures SameExcept(files, AddTo(files, t, rec), {t})
    ensures LinesOf(AddTo(files, t, rec), t) == LinesOf(files, t) + [Rec(rec)]
  {
  }

  lemma SameExceptTrans(a: Files, b: Files, c: Files, ts: set<MemType>)
    requires SameExcept(a, b, ts) && SameExcept(b, c, ts)
    ensures SameExcept(a, c, ts)
  {
  }

  /** The vaults agree on every type outside `ts`. */
  predicate SameExcept(before: Files, after: Files, ts: set<MemType>)
  {
    forall t :: t !in ts ==> (t in after <==> t in before) && (t in before ==> after[t] == before[t])
  }

  /** A run of stores only appends records of its kind to its kind's file. */
  lemma {:induction false} StoreRunShape(files: Files, kind: Kind, es: seq<Result<(seq<(string, Json)>, string)>>,
                                         newId: nat -> string, stamp: nat -> string, k: nat)
    decreases |es|
    ensures var o := StoreRun(files, kind, es, newId, stamp, k);
      SameExcept(files, o.files, {kind.Type()}) && Grew(LinesOf(files, kind.Type()), LinesOf(o.files, kind.Type()), o.added, kind)
  {
    var t := kind.Type();
    if es == [] {
      assert LinesOf(files, t)[..|LinesOf(files, t)|] == LinesOf(files, t);
    } else {
      var init := es[..|es| - 1];
      var prev := StoreRun(files, kind, init, newId, stamp, k);
      StoreRunShape(files, kind, init, newId, stamp, k);
      StoreStepShape(files, prev, kind, es[|es| - 1], newId, stamp, k);
    }
  }

  /** One store keeps the shape of the run so far. */
  lemma StoreStepShape(files: Files, prev: Outcome, kind: Kind, entry: Result<(seq<(string, Json)>, string)>,
                       newId: nat -> string, stamp: nat -> string, k: nat)
    requires SameExcept(files, prev.files, {kind.Type()})
    requires Grew(LinesOf(files, kind.Type()), LinesOf(prev.files, kind.Type()), prev.added, kind)
    ensures var o := StoreStep(prev, kind, entry, newId, stamp, k);
      SameExcept(files, o.files, {kind.Type()}) && Grew(LinesOf(files, kind.Type()), LinesOf(o.files, kind.Type()), o.added, kind)
  {
    var t := kind.Type();
    if prev.error.None? && entry.Ok? {
      var rec := DistilledRecord(kind, entry.value, k + prev.added, newId, stamp);
      AddToOthers(prev.files, t, rec);
      SameExceptTrans(files, prev.files, AddTo(prev.files, t, rec), {t});
      GrewStep(LinesOf(files, t), LinesOf(prev.files, t), prev.added, kind, rec);
    }
  }

  /** `o` only appended records of `kind`, at most its limit, to the file of `kind`. */
  predicate KindShaped(before: Files, o: Outcome, kind: Kind)
  {
    SameExcept(before, o.files, {kind.Type()}) && Grew(LinesOf(before, kind.Type()), LinesOf(o.files, kind.Type()), o.added, kind)
    && o.added <= kind.Limit()
  }

  lemma StoreKindShape(files: Files, kind: Kind, distilled: seq<(string, Json)>, show: Show,
                       newId: nat -> string, stamp: nat -> string, k: nat)
    ensures KindShaped(files, StoreKind(files, kind, distilled, show, newId, stamp, k), kind)
  {
    var v := GetOr(distilled, kind.Key(), JNull);
    if Truthy(v) {
      var items := Items(v, kind.Limit());
      if items.Ok? {
        StoreRunShape(files, kind, Entries(kind, items.value, show), newId, stamp, k);
      }
    }
  }

  /** Every run of `store` only appends records of its kind to its kind's file. */
  ghost predicate StoreShaped(store: Store)
  {
    forall f: Files, kind: Kind, k: nat :: KindShaped(f, store(f, kind, k), kind)
  }

  lemma KindStoreShaped(distilled: seq<(string, Json)>, env: SweepEnv)
    ensures StoreShaped(KindStore(distilled, env))
  {
    forall f: Files, kind: Kind, k: nat
      ensures KindShaped(f, KindStore(distilled, env)(f, kind, k), kind)
    {
      StoreKindShape(f, kind, distilled, env.show, env.newId, env.stamp, k);
    }
  }

  lemma SameExceptLines(before: Files, after: Files, ts: set<MemType>, t: MemType)
    requires SameExcept(before, after, ts) && t !in ts
    ensures LinesOf(after, t) == LinesOf(before, t)
  {
  }

  /** The three kinds' stores together only append to their own files. */
  lemma GrewNone(lines: seq<Line>, kind: Kind)
    ensures Grew(lines, lines, 0, kind)
  {
    assert lines[..|lines|] == lines;
  }

  lemma SameExceptWiden(a: Files, b: Files, small: set<MemType>, large: set<MemType>)
    requires SameExcept(a, b, small) && small <= large
    ensures SameExcept(a, b, large)
  {
  }

  /** `after` is `before` with `rules` rules, `prompts` prompt patterns and `procedures` checklist steps appended, and nothing else changed. */
  predicate Appended(before: Files, after: Files, rules: nat, prompts: nat, procedures: nat)
  {
    SameExcept(before, after, {Semantic, Prompt, Checklist})
    && rules <= 5 && Grew(LinesOf(before, Semantic), LinesOf(after, Semantic), rules, Rules)
    && prompts <= 3 && Grew(LinesOf(before, Prompt), LinesOf(after, Prompt), prompts, Prompts)
    && procedures <= 3 && Grew(LinesOf(before, Checklist), LinesOf(after, Checklist), procedures, Procedures)
  }

  lemma NothingAppended(files: Files)
    ensures Appended(files, files, 0, 0, 0)
  {
    GrewNone(LinesOf(files, Semantic), Rules);
    GrewNone(LinesOf(files, Prompt), Prompts);
    GrewNone(LinesOf(files, Checklist), Procedures);
  }

  /** After the rules are stored, the vault differs from before only by appended rules. */
  lemma RulesAppended(files: Files, o1: Outcome)
    requires KindShaped(files, o1, Rules)
    ensures Appended(files, o1.files, o1.added, 0, 0)
  {
    SameExceptWiden(files, o1.files, {Semantic}, {Semantic, Prompt, Checklist});
    SameExceptLines(files, o1.files, {Semantic}, Prompt);
    SameExceptLines(files, o1.files, {Semantic}, Checklist);
    GrewNone(LinesOf(files, Prompt), Prompts);
    GrewNone(LinesOf(files, Checklist), Procedures);
  }

  /** Storing prompt patterns after the rules adds only prompt records. */
  lemma PromptsAppended(files: Files, mid: Files, o2: Outcome, rules: nat)
    requires Appended(files, mid, rules, 0, 0)
    requires KindShaped(mid, o2, Prompts)
    ensures Appended(files, o2.files, rules, o2.added, 0)
  {
    SameExceptWiden(mid, o2.files, {Prompt}, {Semantic, Prompt, Checklist});
    SameExceptTrans(files, mid, o2.files, {Semantic, Prompt, Checklist});
    SameExceptLines(mid, o2.files, {Prompt}, Semantic);
    SameExceptLines(mid, o2.files, {Prompt}, Checklist);
    assert LinesOf(mid, Prompt) == LinesOf(files, Prompt) by {
      assert |LinesOf(mid, Prompt)| == |LinesOf(files, Prompt)|;
      assert LinesOf(mid, Prompt)[..|LinesOf(files, Prompt)|] == LinesOf(files, Prompt);
    }
  }

  /** Storing procedures last adds only checklist records. */
  lemma ProceduresAppended(files: Files, mid: Files, o3: Outcome, rules: nat, prompts: nat)
    requires Appended(files, mid, rules, prompts, 0)
    requires KindShaped(mid, o3, Procedures)
    ensures Appended(files, o3.files, rules, prompts, o3.added)
  {
    SameExceptWiden(mid, o3.files, {Checklist}, {Semantic, Prompt, Checklist});
    SameExceptTrans(files, mid, o3.files, {Semantic, Prompt, Checklist});
    SameExceptLines(mid, o3.files, {Checklist}, Semantic);
    SameExceptLines(mid, o3.files, {Checklist}, Prompt);
    assert LinesOf(mid, Checklist) == LinesOf(files, Checklist) by {
      assert |LinesOf(mid, Checklist)| == |LinesOf(files, Checklist)|;
      assert LinesOf(mid, Checklist)[..|LinesOf(files, Checklist)|] == LinesOf(files, Checklist);
    }
  }

  /** The sweep's stores, kind by kind. */
  lemma StoreAllSteps(files: Files, store: Store)
    ensures StoreAll(files, store)
         == StoreNext(StoreNext(StoreNext(Outcome(files, 0, None), Rules, store), Prompts, store), Procedures, store)
  {
    assert Kinds[..2] == [Rules, Prompts] && [Rules, Prompts][..1] == [Rules] && [Rules][..0] == [];
  }

  /** The three kinds' stores together only append records of their kinds to their own files. */
  lemma StoreAllShape(files: Files, store: Store) returns (rules: nat, prompts: nat, procedures: nat)
    requires StoreShaped(store)
    ensures Appended(files, StoreAll(files, store).files, rules, prompts, procedures)
  {
    StoreAllSteps(files, store);
    var s1 := StoreNext(Outcome(files, 0, None), Rules, store);
    var s2 := StoreNext(s1, Prompts, store);
    var s3 := StoreNext(s2, Procedures, store);
    var o1 := store(files, Rules, 0);
    RulesAppended(files, o1);
    assert s1.files == o1.files && s1.added == o1.added && s1.error == o1.error;
    rules, prompts, procedures := o1.added, 0, 0;
    if o1.error.None? {
      var o2 := store(o1.files, Prompts, o1.added);
      PromptsAppended(files, o1.files, o2, o1.added);
      assert s2.files == o2.files && s2.added == o1.added + o2.added && s2.error == o2.error;
      prompts := o2.added;
      if o2.error.None? {
        var o3 := store(o2.files, Procedures, o1.added + o2.added);
        ProceduresAppended(files, o2.files, o3, o1.added, o2.added);
        assert s3.files == o3.files;
        procedures := o3.added;
      } else {
        assert s3 == s2;
      }
    } else {
      assert s3 == s1;
    }
  }

  /**
   * A sweep touches only the semantic, prompt and checklist files, and
   * only by appending: at most 5 rules, 3 prompt patterns and 3
   * procedures, each tagged with its kind and "distilled".
   */
  lemma SweepOnlyAppends(files: Files, env: SweepEnv, cutoff: Instant, minEpisodes: int)
    returns (rules: nat, prompts: nat, procedures: nat)
    ensures Appended(files, Sweep(files, env, cutoff, minEpisodes).1, rules, prompts, procedures)
  {
    var stage := Prepare(files, env, cutoff, minEpisodes);
    if stage.Ready? {
      var distilled := Distilled(stage.reply, env.loads);
      KindStoreShaped(distilled, env);
      rules, prompts, procedures := StoreAllShape(files, KindStore(distilled, env));
    } else {
      NothingAppended(files);
      rules, prompts, procedures := 0, 0, 0;
    }
  }

  /** A skipped sweep leaves the vault as it was. */
  lemma EarlyEndsChangeNothing(files: Files, env: SweepEnv, cutoff: Instant, minEpisodes: int)
    requires Sweep(files, env, cutoff, minEpisodes).0.Skipped?
    ensures Sweep(files, env, cutoff, minEpisodes).1 == files
  {
  }

  /** A completed sweep analysed at least `min_episodes` episodes and at most 100 of each. */
  lemma CompletedBounds(files: Files, env: SweepEnv, cutoff: Instant, minEpisodes: int)
    requires Sweep(files, env, cutoff, minEpisodes).0.Completed?
    ensures var r := Sweep(files, env, cutoff, minEpisodes).0;
      minEpisodes <= r.episodesAnalyzed <= SweepListLimit && r.reflectionsAnalyzed <= SweepListLimit
  {
  }

  /** A completed sweep's rules, prompts and procedures all have a length. */
  lemma CompletedCountsLoggable(files: Files, env: SweepEnv, cutoff: Instant, minEpisodes: int)
    requires Sweep(files, env, cutoff, minEpisodes).0.Completed?
    ensures CountsLoggable(Sweep(files, env, cutoff, minEpisodes).0.distilled)
  {
  }

  /**
   * A ready sweep fails when a distilled kind has no length: `{"rules": null}`
   * (or false, or 0) is skipped by the store loop's truthiness test and then
   * raises at the log line.
   */
  lemma UnloggableFails(files: Files, env: SweepEnv, cutoff: Instant, minEpisodes: int, episodes: nat, reflections: nat, reply: string)
    requires Prepare(files, env, cutoff, minEpisodes) == Ready(episodes, reflections, reply)
    requires !CountsLoggable(Distilled(reply, env.loads))
    ensures Sweep(files, env, cutoff, minEpisodes).0.Failed?
  {
  }

  /**
   * As written, the sweep compares the aware cutoff with the naive times
   * `add` writes: once one episode is listed, the sweep fails with the
   * TypeError's text and stores nothing.
   */
  lemma SweepFailsOnVaultTimes(files: Files, env: SweepEnv, cutoff: Instant, minEpisodes: int, eps: seq<Record>)
    requires cutoff.aware
    requires Listed(files, Some(Episodic.Name()), Some(SweepListLimit), None) == Ok(eps)
    requires eps != [] && eps[0].createdAt.Some? && NaiveStamp(env.parse, eps[0].createdAt.value)
    ensures Sweep(files, env, cutoff, minEpisodes) == (Failed(CompareError), files)
  {
    ListedOfType(files, Reflection, Some(SweepListLimit), None);
  }

  /**
   * With a naive cutoff (from `datetime.utcnow()`, as `add` uses), the date
   * filter passes vault-written records and the sweep goes on to the
   * analysis of the recent ones.
   */
  lemma SweepNaiveCutoff(eps: seq<Record>, refls: seq<Record>, cutoff: Instant, env: SweepEnv, minEpisodes: int)
    requires !cutoff.aware
    requires forall i :: 0 <= i < |eps| ==> eps[i].createdAt.Some? && NaiveStamp(env.parse, eps[i].createdAt.value)
    requires forall i :: 0 <= i < |refls| ==> refls[i].createdAt.Some? && NaiveStamp(env.parse, refls[i].createdAt.value)
    ensures Recent(eps, cutoff, env.parse).Ok? && Recent(refls, cutoff, env.parse).Ok?
    ensures Filtered(eps, refls, cutoff, env, minEpisodes)
      == Analyze(|Recent(eps, cutoff, env.parse).value|, Recent(refls, cutoff, env.parse).value, env, minEpisodes)
  {
    RecentSucceeds(eps, cutoff, env.parse);
    RecentSucceeds(refls, cutoff, env.parse);
  }
}
