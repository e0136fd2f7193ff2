// The user-owned memory vault: one JSONL file per memory type under the
// user's directory. A file is a sequence of lines, each either a decoded
// record or a line that does not decode. The clock, `uuid4` and
// `datetime.fromisoformat` enter as parameters; instants are integer
// microseconds, the resolution of Python's datetime.
module MemoryVault {
  import opened Wrappers
  import opened Json

  /** The keys of `MEMORY_TYPES`, each with the file that holds its records. */
  datatype MemType = Episodic | Semantic | Preference | BugFix | Reflection | Prompt | Checklist
  {
    function Name(): string
    {
      match this
      case Episodic => "episodic"
      case Semantic => "semantic"
      case Preference => "preference"
      case BugFix => "bug_fix"
      case Reflection => "reflection"
      case Prompt => "prompt"
      case Checklist => "checklist"
    }

    function FileName(): string
    {
      match this
      case Episodic => "episodic.jsonl"
      case Semantic => "semantic.jsonl"
      case Preference => "preferences.jsonl"
      case BugFix => "bugs.jsonl"
      case Reflection => "reflections.jsonl"
      case Prompt => "prompts.jsonl"
      case Checklist => "checklists.jsonl"
    }

    /** The type's position in `MEMORY_TYPES`. */
    function Index(): nat
    {
      match this
      case Episodic => 0
      case Semantic => 1
      case Preference => 2
      case BugFix => 3
      case Reflection => 4
      case Prompt => 5
      case Checklist => 6
    }
  }

  /** The types in `MEMORY_TYPES` order. */
  const AllTypes: seq<MemType> := [Episodic, Semantic, Preference, BugFix, Reflection, Prompt, Checklist]

  lemma AllTypesComplete(t: MemType)
    ensures t.Index() < |AllTypes| && AllTypes[t.Index()] == t
  {
  }

  /** The `j`-th type is the only one at position `j`. */
  lemma IndexOfType(j: nat)
    requires j < |AllTypes|
    ensures AllTypes[j].Index() == j
    ensures forall t: MemType :: t.Index() == j ==> t == AllTypes[j]
  {
  }

  /** The `MEMORY_TYPES` key a type string names, if any. */
  function TypeOf(mtype: string): (r: Option<MemType>)
    ensures r.Some? ==> r.value.Name() == mtype
    ensures r.None? ==> forall t: MemType :: t.Name() != mtype
  {
    if mtype == "episodic" then Some(Episodic)
    else if mtype == "semantic" then Some(Semantic)
    else if mtype == "preference" then Some(Preference)
    else if mtype == "bug_fix" then Some(BugFix)
    else if mtype == "reflection" then Some(Reflection)
    else if mtype == "prompt" then Some(Prompt)
    else if mtype == "checklist" then Some(Checklist)
    else None
  }

  const Day: int := 86_400_000_000
  const EpisodeTtlDays: int := 90
  const StaleDays: int := 30
  const LowConfidence: real := 0.2

  datatype Record = Record(
    id: string,
    mtype: string,
    createdAt: Option<string>,
    lastUsedAt: Option<string>,
    confidence: Option<real>,
    ttlDays: Option<int>,
    tags: seq<string>,
    summary: Option<string>,
    payload: seq<(string, Json)>)

  /** A line of a vault file: a record, or text `json.loads` rejects. */
  datatype Line = Rec(rec: Record) | Malformed(text: string)

  /** `_path_for_type`: the type whose file holds the records, or ValueError for a type the vault does not keep. */
  function PathForType(mtype: string): (r: Result<MemType>)
    ensures r.Ok? ==> r.value.Name() == mtype
    ensures r.Err? <==> forall t: MemType :: t.Name() != mtype
    ensures r.Err? ==> r.error == "Unsupported memory type: " + mtype
  {
    var t := TypeOf(mtype);
    if t.Some? then Ok(t.value) else Err("Unsupported memory type: " + mtype)
  }

  /** Every type's own name resolves back to it. */
  lemma PathOfName(t: MemType)
    ensures PathForType(t.Name()) == Ok(t)
  {
  }

  /** The directory of a vault: each type's lines; a type that is not a key has no file yet. */
  type Files = map<MemType, seq<Line>>

  /** The lines of a type's file, an absent file read as empty. */
  function LinesOf(files: Files, t: MemType): seq<Line>
  {
    if t in files then files[t] else []
  }

  // ---- list ----

  /** The tag filter: a missing or empty tag keeps every record. */
  predicate Tagged(r: Record, tag: Option<string>)
  {
    tag.None? || tag.value == "" || tag.value in r.tags
  }

  /** The records of `lines` that pass the tag filter, in file order. */
  function Keep(lines: seq<Line>, tag: Option<string>): (r: seq<Record>)
    ensures |r| <= |lines|
  {
    if lines == [] then []
    else
      var last := lines[|lines| - 1];
      Keep(lines[..|lines| - 1], tag) + (if last.Rec? && Tagged(last.rec, tag) then [last.rec] else [])
  }

  lemma {:induction false} KeepConcat(a: seq<Line>, b: seq<Line>, tag: Option<string>)
    ensures Keep(a + b, tag) == Keep(a, tag) + Keep(b, tag)
  {
    if b == [] {
      assert a + b == a;
    } else {
      assert (a + b)[..|a + b| - 1] == a + b[..|b| - 1];
      assert (a + b)[|a + b| - 1] == b[|b| - 1];
      KeepConcat(a, b[..|b| - 1], tag);
    }
  }

  /** Exactly the decoded, tagged records of the file are kept. */
  lemma {:induction false} KeepMembers(lines: seq<Line>, tag: Option<string>, r: Record)
    ensures r in Keep(lines, tag) <==> Rec(r) in lines && Tagged(r, tag)
  {
    if lines != [] {
      KeepMembers(lines[..|lines| - 1], tag, r);
      assert lines == lines[..|lines| - 1] + [lines[|lines| - 1]];
    }
  }

  /** The kept records of every existing file among `paths`, in path order. */
  function Matching(files: Files, paths: seq<MemType>, tag: Option<string>): seq<Record>
  {
    if paths == [] then []
    else Matching(files, paths[..|paths| - 1], tag) + Keep(LinesOf(files, paths[|paths| - 1]), tag)
  }

  lemma {:induction false} MatchingConcat(files: Files, a: seq<MemType>, b: seq<MemType>, tag: Option<string>)
    ensures Matching(files, a + b, tag) == Matching(files, a, tag) + Matching(files, b, tag)
  {
    if b == [] {
      assert a + b == a;
    } else {
      assert (a + b)[..|a + b| - 1] == a + b[..|b| - 1];
      assert (a + b)[|a + b| - 1] == b[|b| - 1];
      MatchingConcat(files, a, b[..|b| - 1], tag);
    }
  }

  /** Whether `limit` stops the listing once `n` records are collected (`limit` of None or 0 never does). */
  predicate Full(n: int, limit: Option<int>)
  {
    limit.Some? && limit.value != 0 && n >= limit.value
  }

  /** The number of records a listing stops at: the first append already meets a negative limit. */
  function Cap(limit: int): int
  {
    if limit >= 1 then limit else 1
  }

  /** The listing cut at the limit: the first `Cap` records once there are that many. */
  function Capped(xs: seq<Record>, limit: Option<int>): (r: seq<Record>)
    ensures limit.Some? && limit.value > 0 ==> |r| <= limit.value
    ensures r <= xs
  {
    if limit.Some? && limit.value != 0 && |xs| >= Cap(limit.value) then xs[..Cap(limit.value)] else xs
  }

  /** The files `list` reads: the named type's file, or every type's when no type is named. */
  function ListPaths(mtype: Option<string>): (r: Result<seq<MemType>>)
    ensures mtype.None? || mtype.value == "" ==> r == Ok(AllTypes)
    ensures mtype.Some? && mtype.value != "" ==>
      (r.Err? <==> PathForType(mtype.value).Err?) && (r.Ok? ==> r.value == [PathForType(mtype.value).value])
  {
    if mtype.Some? && mtype.value != "" then
      var p := PathForType(mtype.value);
      if p.Err? then Err(p.error) else Ok([p.value])
    else Ok(AllTypes)
  }

  /** What `list` returns. */
  function Listed(files: Files, mtype: Option<string>, limit: Option<int>, tag: Option<string>): Result<seq<Record>>
  {
    var paths := ListPaths(mtype);
    if paths.Err? then Err(paths.error) else Ok(Capped(Matching(files, paths.value, tag), limit))
  }

  /** Listing one type by its own name never fails. */
  lemma ListedOfType(files: Files, t: MemType, limit: Option<int>, tag: Option<string>)
    ensures Listed(files, Some(t.Name()), limit, tag).Ok?
  {
    PathOfName(t);
  }

  /** Every listed record is a decoded line of one of the files read, and carries the tag. */
  lemma ListedSound(files: Files, mtype: Option<string>, limit: Option<int>, tag: Option<string>, r: Record)
    requires Listed(files, mtype, limit, tag).Ok?
    requires r in Listed(files, mtype, limit, tag).value
    ensures Tagged(r, tag)
    ensures exists t :: t in ListPaths(mtype).value && t in files && Rec(r) in files[t]
  {
    var paths := ListPaths(mtype).value;
    var t := MatchedIn(files, paths, tag, r);
    KeepMembers(LinesOf(files, t), tag, r);
  }

  lemma {:induction false} MatchedIn(files: Files, paths: seq<MemType>, tag: Option<string>, r: Record) returns (t: MemType)
    requires r in Matching(files, paths, tag)
    ensures t in paths && r in Keep(LinesOf(files, t), tag)
  {
    var last := paths[|paths| - 1];
    if r in Keep(LinesOf(files, last), tag) {
      t := last;
    } else {
      t := MatchedIn(files, paths[..|paths| - 1], tag, r);
    }
  }

  /** A tagged record in the file of one of `paths` is among the matching records. */
  lemma {:induction false} MatchingMembers(files: Files, paths: seq<MemType>, tag: Option<string>, t: MemType, r: Record)
    requires t in paths && t in files && Rec(r) in files[t] && Tagged(r, tag)
    ensures r in Matching(files, paths, tag)
  {
    var init := paths[..|paths| - 1];
    if paths[|paths| - 1] == t {
      KeepMembers(files[t], tag, r);
    } else {
      assert paths == init + [paths[|paths| - 1]];
      MatchingMembers(files, init, tag, t, r);
    }
  }

  /** Without a limit, every tagged record of every type's file is listed. */
  lemma ListedComplete(files: Files, tag: Option<string>, t: MemType, r: Record)
    requires t in files && Rec(r) in files[t] && Tagged(r, tag)
    ensures Listed(files, None, None, tag).Ok? && r in Listed(files, None, None, tag).value
  {
    AllTypesComplete(t);
    MatchingMembers(files, AllTypes, tag, t, r);
  }

  // ---- prune ----

  /** A `datetime`: its instant in microseconds, and whether it carries a UTC offset (aware) or not (naive). */
  datatype Instant = Instant(micros: int, aware: bool)

  /** `datetime.fromisoformat`: the time a string names, None where it raises. */
  type DateParse = string -> Option<Instant>

  /**
   * Python's `now - t` between datetimes, in microseconds; None where it
   * raises TypeError because one is naive and the other aware.
   */
  function Elapsed(now: Instant, t: Instant): (r: Option<int>)
    ensures r.Some? <==> now.aware == t.aware
    ensures r.Some? ==> r.value == now.micros - t.micros
  {
    if now.aware != t.aware then None else Some(now.micros - t.micros)
  }

  /** A time as `add` writes it, `datetime.utcnow().isoformat()`: readable and naive. */
  predicate NaiveStamp(parse: DateParse, s: string)
  {
    parse(s).Some? && !parse(s).value.aware
  }

  /**
   * The ttl rule against the naive `utcnow()`: a set, non-zero ttl and a
   * readable creation time more than ttl days ago; an aware creation time
   * raises inside the `try` and does not expire the record.
   */
  predicate Expired(r: Record, now: int, parse: DateParse)
  {
    r.ttlDays.Some? && r.ttlDays.value != 0
    && r.createdAt.Some? && r.createdAt.value != ""
    && parse(r.createdAt.value).Some?
    && Elapsed(Instant(now, false), parse(r.createdAt.value).value).Some?
    && Elapsed(Instant(now, false), parse(r.createdAt.value).value).value > r.ttlDays.value * Day
  }

  /** The time the staleness rule looks at: the last use when set, else the creation. */
  function LastTouch(r: Record): Option<string>
  {
    if r.lastUsedAt.Some? && r.lastUsedAt.value != "" then r.lastUsedAt else r.createdAt
  }

  /**
   * The low-confidence rule: below 0.2 and untouched for more than 30 days,
   * or with a time that raises (missing, unreadable, or aware).
   */
  predicate Stale(r: Record, now: int, parse: DateParse)
  {
    r.confidence.Some? && r.confidence.value < LowConfidence
    && (LastTouch(r).None?
        || parse(LastTouch(r).value).None?
        || Elapsed(Instant(now, false), parse(LastTouch(r).value).value).None?
        || Elapsed(Instant(now, false), parse(LastTouch(r).value).value).value > StaleDays * Day)
  }

  predicate Removable(r: Record, now: int, parse: DateParse)
  {
    Expired(r, now, parse) || Stale(r, now, parse)
  }

  /** The removal rule as a value, so that the per-file scan can take it as a parameter. */
  function Drop(now: int, parse: DateParse): Record -> bool
  {
    r => Removable(r, now, parse)
  }

  /** The lines a rewrite keeps: records the rule does not drop (a malformed line is not written back). */
  function KeptBy(lines: seq<Line>, drop: Record -> bool): (r: seq<Line>)
    ensures |r| <= |lines|
  {
    if lines == [] then []
    else
      var last := lines[|lines| - 1];
      KeptBy(lines[..|lines| - 1], drop) + (if last.Rec? && !drop(last.rec) then [last] else [])
  }

  /** The records the rule drops. */
  function CountBy(lines: seq<Line>, drop: Record -> bool): (n: nat)
    ensures n <= |lines|
  {
    if lines == [] then 0
    else
      var last := lines[|lines| - 1];
      CountBy(lines[..|lines| - 1], drop) + (if last.Rec? && drop(last.rec) then 1 else 0)
  }

  /** The scan of one file: the lines to write back and the number removed. */
  method PruneLines(lines: seq<Line>, drop: Record -> bool) returns (kept: seq<Line>, removed: int)
    ensures kept == KeptBy(lines, drop) && removed == CountBy(lines, drop)
  {
    kept := [];
    removed := 0;
    var i := 0;
    while i < |lines|
      invariant 0 <= i <= |lines|
      invariant kept == KeptBy(lines[..i], drop) && removed == CountBy(lines[..i], drop)
    {
      assert lines[..i + 1][..i] == lines[..i];
      match lines[i] {
        case Malformed(_) =>
        case Rec(obj) =>
          if drop(obj) {
            removed := removed + 1;
          } else {
            kept := kept + [lines[i]];
          }
      }
      i := i + 1;
    }
    assert lines[..i] == lines;
  }

  /** Kept lines are decoded records of the file that the rule keeps, and keep their order across any split. */
  lemma {:induction false} KeptByConcat(a: seq<Line>, b: seq<Line>, drop: Record -> bool)
    ensures KeptBy(a + b, drop) == KeptBy(a, drop) + KeptBy(b, drop)
  {
    if b == [] {
      assert a + b == a;
    } else {
      assert (a + b)[..|a + b| - 1] == a + b[..|b| - 1];
      assert (a + b)[|a + b| - 1] == b[|b| - 1];
      KeptByConcat(a, b[..|b| - 1], drop);
    }
  }

  /** A record line survives the scan iff the rule keeps it; a malformed line never does. */
  lemma {:induction false} KeptByMembers(lines: seq<Line>, drop: Record -> bool, l: Line)
    ensures l in KeptBy(lines, drop) <==> l in lines && l.Rec? && !drop(l.rec)
  {
    if lines != [] {
      KeptByMembers(lines[..|lines| - 1], drop, l);
      assert lines == lines[..|lines| - 1] + [lines[|lines| - 1]];
    }
  }

  function NumMalformed(lines: seq<Line>): (n: nat)
  {
    if lines == [] then 0
    else NumMalformed(lines[..|lines| - 1]) + (if lines[|lines| - 1].Malformed? then 1 else 0)
  }

  /** Every line is written back, counted as removed, or malformed. */
  lemma {:induction false} KeptByAccounting(lines: seq<Line>, drop: Record -> bool)
    ensures |KeptBy(lines, drop)| + CountBy(lines, drop) + NumMalformed(lines) == |lines|
  {
    if lines != [] {
      KeptByAccounting(lines[..|lines| - 1], drop);
    }
  }

  /** A file after `prune`: rewritten with its kept lines when something was removed, untouched otherwise. */
  function PruneFile(lines: seq<Line>, drop: Record -> bool): (r: seq<Line>)
    ensures CountBy(lines, drop) == 0 ==> r == lines
  {
    if CountBy(lines, drop) > 0 then KeptBy(lines, drop) else lines
  }

  /** The vault after `prune`: every type's file pruned, nothing else touched. */
  function Pruned(files: Files, drop: Record -> bool): (r: Files)
    ensures r.Keys == files.Keys
  {
    map t | t in files :: PruneFile(files[t], drop)
  }

  /** The vault once the first `j` types of `MEMORY_TYPES` have been pruned. */
  function PrunedUpTo(files: Files, j: nat, drop: Record -> bool): Files
    requires j <= |AllTypes|
  {
    if j == 0 then files
    else
      var m := PrunedUpTo(files, j - 1, drop);
      var t := AllTypes[j - 1];
      if t in m then m[t := PruneFile(m[t], drop)] else m
  }

  lemma {:induction false} PrunedUpToAt(files: Files, j: nat, drop: Record -> bool, t: MemType)
    requires j <= |AllTypes|
    ensures t in PrunedUpTo(files, j, drop) <==> t in files
    ensures t in files ==>
      PrunedUpTo(files, j, drop)[t] == if t.Index() < j then PruneFile(files[t], drop) else files[t]
  {
    if j > 0 {
      PrunedUpToAt(files, j - 1, drop, t);
      IndexOfType(j - 1);
    }
  }

  lemma PrunedUpToAll(files: Files, drop: Record -> bool)
    ensures PrunedUpTo(files, |AllTypes|, drop) == Pruned(files, drop)
  {
    var m := PrunedUpTo(files, |AllTypes|, drop);
    forall t: MemType
      ensures (t in m <==> t in files) && (t in files ==> m[t] == PruneFile(files[t], drop))
    {
      PrunedUpToAt(files, |AllTypes|, drop, t);
      AllTypesComplete(t);
    }
  }

  /** The counts once the first `j` types have been scanned: untouched types still count 0. */
  function CountsUpTo(files: Files, j: nat, drop: Record -> bool): map<MemType, int>
    requires j <= |AllTypes|
  {
    if j == 0 then map t | t in AllTypes :: 0
    else
      var m := CountsUpTo(files, j - 1, drop);
      var t := AllTypes[j - 1];
      if t in files then m[t := CountBy(files[t], drop)] else m
  }

  lemma {:induction false} CountsUpToAt(files: Files, j: nat, drop: Record -> bool, t: MemType)
    requires j <= |AllTypes|
    ensures t in CountsUpTo(files, j, drop)
    ensures CountsUpTo(files, j, drop)[t] == if t.Index() < j then RemovedIn(files, t, drop) else 0
  {
    if j == 0 {
      AllTypesComplete(t);
    } else {
      CountsUpToAt(files, j - 1, drop, t);
      IndexOfType(j - 1);
    }
  }

  lemma CountsUpToAll(files: Files, drop: Record -> bool)
    ensures forall t :: (t in CountsUpTo(files, |AllTypes|, drop)
      && CountsUpTo(files, |AllTypes|, drop)[t] == RemovedIn(files, t, drop))
  {
    forall t: MemType
      ensures t in CountsUpTo(files, |AllTypes|, drop) && CountsUpTo(files, |AllTypes|, drop)[t] == RemovedIn(files, t, drop)
    {
      CountsUpToAt(files, |AllTypes|, drop, t);
      AllTypesComplete(t);
    }
  }

  /** The count `prune` reports for a type: the records its rule removes from the type's file. */
  function RemovedIn(files: Files, t: MemType, drop: Record -> bool): nat
  {
    CountBy(LinesOf(files, t), drop)
  }

  /** An episode whose confidence is unset or not low lives exactly 90 days from a readable creation time. */
  lemma EpisodeLifetime(r: Record, now: int, parse: DateParse, created: int)
    requires r.ttlDays == Some(EpisodeTtlDays) && r.createdAt.Some? && r.createdAt.value != ""
    requires parse(r.createdAt.value) == Some(Instant(created, false))
    requires r.confidence.None? || r.confidence.value >= LowConfidence
    ensures Removable(r, now, parse) <==> now - created > 90 * Day
  {
  }

  /** A record without a confidence or a ttl is never pruned. */
  lemma KeptForever(r: Record, now: int, parse: DateParse)
    requires r.confidence.None? && r.ttlDays.None?
    ensures !Removable(r, now, parse)
  {
  }

  /** A low-confidence record with no readable time, or an aware one, is pruned at once. */
  lemma UnreadableLowConfidence(r: Record, now: int, parse: DateParse)
    requires r.confidence.Some? && r.confidence.value < LowConfidence
    requires LastTouch(r).None? || parse(LastTouch(r).value).None? || parse(LastTouch(r).value).value.aware
    ensures Removable(r, now, parse)
  {
  }

  /** A record whose creation time is aware never expires by its ttl: the subtraction raises and is ignored. */
  lemma AwareNeverExpires(r: Record, now: int, parse: DateParse)
    requires r.createdAt.Some? && parse(r.createdAt.value).Some? && parse(r.createdAt.value).value.aware
    ensures !Expired(r, now, parse)
  {
  }

  // ---- add ----

  /** The record `add` builds; `tags or []` turns a missing tag list into the empty one. */
  function NewRecord(id: string, mtype: string, createdAt: string, payload: seq<(string, Json)>,
                     summary: Option<string>, confidence: Option<real>, ttlDays: Option<int>,
                     tags: Option<seq<string>>): (r: Record)
    ensures r.id == id && r.mtype == mtype && r.createdAt == Some(createdAt) && r.lastUsedAt.None?
    ensures r.tags == (if tags.Some? then tags.value else [])
    ensures r.payload == payload && r.summary == summary && r.confidence == confidence && r.ttlDays == ttlDays
  {
    Record(id, mtype, Some(createdAt), None, confidence, ttlDays,
           if tags.Some? then tags.value else [], summary, payload)
  }

  /** The payload of an episode: the session and both sides of the exchange, and its outcome (None when unknown). */
  function EpisodePayload(sessionId: string, userText: string, assistantText: string, success: Option<bool>): (p: seq<(string, Json)>)
    ensures Keys(p) == ["session_id", "user", "assistant", "success"]
    ensures p[0].1 == JStr(sessionId) && p[1].1 == JStr(userText) && p[2].1 == JStr(assistantText)
    ensures p[3].1 == if success.Some? then JBool(success.value) else JNull
  {
    [("session_id", JStr(sessionId)), ("user", JStr(userText)), ("assistant", JStr(assistantText)),
     ("success", if success.Some? then JBool(success.value) else JNull)]
  }

  class Vault {
    /** The vault directory. */
    var files: Files

    /** Opening a vault keeps whatever files its directory already holds. */
    constructor (existing: Files)
      ensures files == existing
    {
      files := existing;
    }

    /**
     * `add`: the new record, with the given id and creation time and no
     * last use, appended to its type's file (created when absent); an
     * unsupported type raises before anything is written.
     */
    method Add(mtype: string, payload: seq<(string, Json)>, summary: Option<string>, confidence: Option<real>,
               ttlDays: Option<int>, tags: Option<seq<string>>, id: string, createdAt: string) returns (r: Result<Record>)
      modifies this
      ensures r.Err? <==> PathForType(mtype).Err?
      ensures r.Err? ==> files == old(files) && r.error == PathForType(mtype).error
      ensures r.Ok? ==>
        var t := PathForType(mtype).value;
        r.value == NewRecord(id, mtype, createdAt, payload, summary, confidence, ttlDays, tags)
        && files == old(files)[t := LinesOf(old(files), t) + [Rec(r.value)]]
    {
      var rec := NewRecord(id, mtype, createdAt, payload, summary, confidence, ttlDays, tags);
      var path := PathForType(mtype);
      if path.Err? {
        return Err(path.error);
      }
      files := files[path.value := LinesOf(files, path.value) + [Rec(rec)]];
      r := Ok(rec);
    }

    /** `add_episode`: an episodic record with a 90-day ttl and the exchange as its payload. */
    method AddEpisode(sessionId: string, userText: string, assistantText: string, success: Option<bool>,
                      summary: Option<string>, confidence: Option<real>, tags: Option<seq<string>>,
                      id: string, createdAt: string) returns (r: Record)
      modifies this
      ensures r == NewRecord(id, "episodic", createdAt, EpisodePayload(sessionId, userText, assistantText, success),
                             summary, confidence, Some(EpisodeTtlDays), tags)
      ensures files == old(files)[Episodic := LinesOf(old(files), Episodic) + [Rec(r)]]
    {
      var payload := EpisodePayload(sessionId, userText, assistantText, success);
      var res := Add("episodic", payload, summary, confidence, Some(EpisodeTtlDays), tags, id, createdAt);
      r := res.value;
    }

    /** `list`: the decoded records of the chosen files in order, tag-filtered and cut at the limit. */
    method List(mtype: Option<string>, limit: Option<int>, tag: Option<string>) returns (r: Result<seq<Record>>)
      ensures r == Listed(files, mtype, limit, tag)
    {
      var paths := ListPaths(mtype);
      if paths.Err? {
        return Err(paths.error);
      }
      var results: seq<Record> := [];
      var pi := 0;
      while pi < |paths.value|
        invariant 0 <= pi <= |paths.value|
        invariant results == Matching(files, paths.value[..pi], tag)
        invariant results == [] || !Full(|results|, limit)
      {
        var stop;
        results, stop := ListFile(files, paths.value, pi, tag, limit, results);
        if stop {
          return Ok(results);
        }
        pi := pi + 1;
      }
      assert paths.value[..pi] == paths.value;
      r := Ok(results);
    }

    /**
     * `prune`: for each type in order, scan its file, count the records the
     * ttl and staleness rules remove, and rewrite the file with the kept
     * lines only when one was removed. Every type gets a count.
     */
    method Prune(now: int, parse: DateParse) returns (removed: map<MemType, int>)
      modifies this
      ensures forall t :: t in removed && removed[t] == RemovedIn(old(files), t, Drop(now, parse))
      ensures files == Pruned(old(files), Drop(now, parse))
    {
      removed := map t | t in AllTypes :: 0;
      var drop := Drop(now, parse);
      var j := 0;
      while j < |AllTypes|
        invariant 0 <= j <= |AllTypes|
        invariant files == PrunedUpTo(old(files), j, drop)
        invariant removed == CountsUpTo(old(files), j, drop)
      {
        var t := AllTypes[j];
        PrunedUpToAt(old(files), j, drop, t);
        IndexOfType(j);
        if t in files {
          var kept, count := PruneLines(files[t], drop);
          removed := removed[t := count];
          if count > 0 {
            files := files[t := kept];
          }
        }
        j := j + 1;
      }
      PrunedUpToAll(old(files), drop);
      CountsUpToAll(old(files), drop);
    }
  }

  /** One type of `list`: its file's tagged records appended, or the capped listing when the limit is reached. */
  method ListFile(files: Files, all: seq<MemType>, pi: nat, tag: Option<string>, limit: Option<int>, acc: seq<Record>)
    returns (results: seq<Record>, stop: bool)
    requires pi < |all| && acc == Matching(files, all[..pi], tag) && (acc == [] || !Full(|acc|, limit))
    ensures stop ==> results == Capped(Matching(files, all, tag), limit)
    ensures !stop ==> results == Matching(files, all[..pi + 1], tag) && (results == [] || !Full(|results|, limit))
  {
    var t := all[pi];
    ListStep(files, all, pi, tag);
    if t in files {
      var lines := files[t];
      ghost var li;
      results, stop, li := ScanLines(lines, tag, limit, acc);
      if stop {
        ListStops(files, all, pi, lines, li, tag, limit, acc, results);
        return;
      }
      assert LinesOf(files, t) == lines;
    } else {
      assert LinesOf(files, t) == [];
      assert Matching(files, all[..pi], tag) + [] == acc;
      results, stop := acc, false;
    }
  }

  /**
   * The scan of one file inside `list`: append its tagged records to
   * `acc`, stopping right after the append that reaches the limit.
   */
  method ScanLines(lines: seq<Line>, tag: Option<string>, limit: Option<int>, acc: seq<Record>)
    returns (results: seq<Record>, stop: bool, ghost li: nat)
    requires acc == [] || !Full(|acc|, limit)
    ensures !stop ==> results == acc + Keep(lines, tag) && (results == [] || !Full(|results|, limit))
    ensures stop ==>
      li < |lines| && results == acc + Keep(lines[..li + 1], tag)
      && limit.Some? && limit.value != 0 && |results| >= limit.value && |results| >= 1
      && |results| - 1 < Cap(limit.value)
  {
    results := acc;
    var i := 0;
    while i < |lines|
      invariant 0 <= i <= |lines|
      invariant results == acc + Keep(lines[..i], tag)
      invariant results == [] || !Full(|results|, limit)
    {
      KeepStep(lines, i, tag);
      if lines[i].Rec? && Tagged(lines[i].rec, tag) {
        SnocAssoc(acc, Keep(lines[..i], tag), lines[i].rec);
        results := results + [lines[i].rec];
        if limit.Some? && limit.value != 0 && |results| >= limit.value {
          return results, true, i;
        }
      }
      assert results == acc + Keep(lines[..i + 1], tag);
      i := i + 1;
    }
    assert lines[..i] == lines;
    return results, false, 0;
  }

  /** Reading one more line extends the file's kept records by it when it is a tagged record. */
  lemma KeepStep(lines: seq<Line>, li: nat, tag: Option<string>)
    requires li < |lines|
    ensures Keep(lines[..li + 1], tag)
      == Keep(lines[..li], tag) + (if lines[li].Rec? && Tagged(lines[li].rec, tag) then [lines[li].rec] else [])
  {
    assert lines[..li + 1][..li] == lines[..li];
  }

  /** Reading one more file extends the listing by that file's kept records. */
  lemma ListStep(files: Files, all: seq<MemType>, pi: nat, tag: Option<string>)
    requires pi < |all|
    ensures Matching(files, all[..pi + 1], tag) == Matching(files, all[..pi], tag) + Keep(LinesOf(files, all[pi]), tag)
  {
    assert all[..pi + 1][..pi] == all[..pi];
  }

  /** An early return of `list` hands back exactly the capped listing. */
  lemma ListStops(files: Files, all: seq<MemType>, pi: nat, lines: seq<Line>, li: nat,
                  tag: Option<string>, limit: Option<int>, before: seq<Record>, results: seq<Record>)
    requires pi < |all| && all[pi] in files && lines == files[all[pi]] && li < |lines|
    requires before == Matching(files, all[..pi], tag)
    requires results == before + Keep(lines[..li + 1], tag)
    requires limit.Some? && limit.value != 0 && |results| >= limit.value && |results| >= 1
    requires |results| - 1 < Cap(limit.value)
    ensures results == Capped(Matching(files, all, tag), limit)
  {
    var rest := MatchingAround(files, all, pi, lines, li, tag);
    assert |results| == Cap(limit.value);
    assert (results + rest)[..|results|] == results;
  }

  /** The matching records of `all` around the first `li + 1` lines of the file of `all[pi]`. */
  lemma MatchingAround(files: Files, all: seq<MemType>, pi: nat, lines: seq<Line>, li: nat, tag: Option<string>)
    returns (rest: seq<Record>)
    requires pi < |all| && all[pi] in files && lines == files[all[pi]] && li < |lines|
    ensures Matching(files, all, tag) == Matching(files, all[..pi], tag) + Keep(lines[..li + 1], tag) + rest
  {
    var pre, x, post := all[..pi], all[pi], all[pi + 1..];
    assert all == (pre + [x]) + post;
    MatchingConcat(files, pre + [x], post, tag);
    ListStep(files, all, pi, tag);
    assert all[..pi + 1] == pre + [x];
    assert LinesOf(files, x) == lines;
    assert lines == lines[..li + 1] + lines[li + 1..];
    KeepConcat(lines[..li + 1], lines[li + 1..], tag);
    rest := Keep(lines[li + 1..], tag) + Matching(files, post, tag);
    Regroup(Matching(files, pre, tag), Keep(lines[..li + 1], tag), Keep(lines[li + 1..], tag), Matching(files, post, tag));
  }

  lemma Regroup<T>(a: seq<T>, b: seq<T>, c: seq<T>, d: seq<T>)
    ensures a + (b + c) + d == (a + b) + (c + d)
  {
  }

  lemma SnocAssoc<T>(a: seq<T>, b: seq<T>, x: T)
    ensures (a + b) + [x] == a + (b + [x])
  {
  }
}
