// The memory-vault HTTP endpoints: list, search, stats, delete and add.
// The list, search, stats and delete handlers read a type's records with
// `vault.get_all(type)` and remove one with `vault.delete(id, type)`. The
// vault class defines neither method, so the two calls enter here as
// parameters; `ShippedVault` is the behaviour of the vault as it stands,
// where each call raises AttributeError.
module MemoryVaultApi {
  import opened Wrappers
  import opened Json
  import opened Text
  import opened Sorting
  import MemoryVault

  type Record = MemoryVault.Record

  /** The exceptions the handlers tell apart; any other one is OtherError. */
  datatype Exc = ValueError | FileNotFoundError | OtherError

  /** What `get_all(type)` gives back: the type's records, or the exception it raised and its text. */
  datatype Fetched = Records(records: seq<Record>) | Raised(exc: Exc, message: string)

  type Fetch = string -> Fetched

  /** `delete(id, type)`: None when it returns, else the exception it raised. */
  type Remove = (string, string) -> Option<(Exc, string)>

  /** A handler's answer: status 200 with a body, or an HTTPException. */
  datatype Response<T> = Success(body: T) | HttpError(status: int, detail: string)

  /** FastAPI's answer to a query parameter outside its declared bounds. */
  const Unprocessable: int := 422

  const NoGetAll: string := "'MemoryVault' object has no attribute 'get_all'"

  /** The vault as it stands: `get_all` does not exist. */
  function ShippedVault(): Fetch
  {
    (name: string) => Raised(OtherError, NoGetAll)
  }

  /** The keys of `MEMORY_TYPES`, in order. */
  const TypeNames: seq<string> := ["episodic", "semantic", "preference", "bug_fix", "reflection", "prompt", "checklist"]

  lemma TypeNamesAreTypes(i: nat)
    requires i < |TypeNames|
    ensures |TypeNames| == |MemoryVault.AllTypes|
    ensures TypeNames[i] == MemoryVault.AllTypes[i].Name()
  {
  }

  /** `[type] if type else list(MEMORY_TYPES.keys())`: a missing or empty type means every type. */
  function TypesToFetch(mtype: Option<string>): (r: seq<string>)
    ensures mtype.Some? && mtype.value != "" ==> r == [mtype.value]
    ensures mtype.None? || mtype.value == "" ==> r == TypeNames
  {
    if mtype.Some? && mtype.value != "" then [mtype.value] else TypeNames
  }

  // ---- gathering records ----

  /** A fetch that `except ValueError: continue` passes over without stopping. */
  predicate Skippable(f: Fetched)
  {
    f.Raised? && f.exc == ValueError
  }

  /**
   * The records of `names` in order, a type whose fetch raises ValueError
   * skipped; the first other exception ends the handler with that exception.
   */
  function Gathered(fetch: Fetch, names: seq<string>): (r: Fetched)
    ensures r.Raised? ==> r.exc != ValueError && exists i :: 0 <= i < |names| && fetch(names[i]) == r
    ensures (forall i :: 0 <= i < |names| ==> fetch(names[i]).Records? || Skippable(fetch(names[i]))) ==> r.Records?
  {
    if names == [] then Records([])
    else
      var prior := Gathered(fetch, names[..|names| - 1]);
      var last := fetch(names[|names| - 1]);
      assert forall i :: 0 <= i < |names| - 1 ==> names[..|names| - 1][i] == names[i];
      if prior.Raised? then prior
      else if last.Records? then Records(prior.records + last.records)
      else if last.exc == ValueError then prior
      else last
  }

  /** Once a prefix of the types has raised, the rest are never fetched. */
  lemma {:induction false} GatheredStops(fetch: Fetch, names: seq<string>, k: nat)
    requires k <= |names| && Gathered(fetch, names[..k]).Raised?
    ensures Gathered(fetch, names) == Gathered(fetch, names[..k])
    decreases |names| - k
  {
    if k < |names| {
      assert names[..k + 1][..k] == names[..k];
      GatheredStops(fetch, names, k + 1);
    } else {
      assert names[..k] == names;
    }
  }

  /** A gathered record is a record of one of the fetched types, and every record of every fetched type is gathered. */
  lemma {:induction false} GatheredMembers(fetch: Fetch, names: seq<string>, rec: Record)
    requires Gathered(fetch, names).Records?
    ensures rec in Gathered(fetch, names).records <==>
      exists i :: 0 <= i < |names| && fetch(names[i]).Records? && rec in fetch(names[i]).records
  {
    if names != [] {
      var init := names[..|names| - 1];
      var last := fetch(names[|names| - 1]);
      GatheredMembers(fetch, init, rec);
      assert forall i :: 0 <= i < |init| ==> init[i] == names[i];
      if rec in Gathered(fetch, names).records && !(rec in Gathered(fetch, init).records) {
        assert fetch(names[|names| - 1]).Records? && rec in last.records;
      }
    }
  }

  /** The loop over the types: `all_memories.extend(vault.get_all(t))` for each, ValueError skipped. */
  method Gather(fetch: Fetch, names: seq<string>) returns (r: Fetched)
    ensures r == Gathered(fetch, names)
  {
    var all: seq<Record> := [];
    var i := 0;
    while i < |names|
      invariant 0 <= i <= |names|
      invariant Gathered(fetch, names[..i]) == Records(all)
    {
      assert names[..i + 1][..i] == names[..i];
      var f := fetch(names[i]);
      if f.Records? {
        all := all + f.records;
      } else if f.exc != ValueError {
        GatheredStops(fetch, names, i + 1);
        return f;
      }
      i := i + 1;
    }
    assert names[..i] == names;
    r := Records(all);
  }

  // ---- list ----

  /** `all(tag in m.tags for tag in tags)`. */
  predicate HasAllTags(r: Record, tags: seq<string>)
  {
    forall t :: t in tags ==> t in r.tags
  }

  /** The records that carry every tag, in order. */
  function WithAllTags(rs: seq<Record>, tags: seq<string>): (r: seq<Record>)
    ensures |r| <= |rs|
    ensures forall x :: x in r <==> x in rs && HasAllTags(x, tags)
  {
    if rs == [] then []
    else
      var rest := WithAllTags(rs[1..], tags);
      assert forall x :: x in rs <==> x == rs[0] || x in rs[1..];
      if HasAllTags(rs[0], tags) then [rs[0]] + rest else rest
  }

  /** `if tags:` — a missing or empty tag list keeps every record. */
  function FilterTags(rs: seq<Record>, tags: Option<seq<string>>): (r: seq<Record>)
    ensures tags.None? || tags.value == [] ==> r == rs
    ensures tags.Some? ==> forall x :: x in r <==> x in rs && HasAllTags(x, tags.value)
  {
    if tags.None? || tags.value == [] then rs else WithAllTags(rs, tags.value)
  }

  /** The sort key `created_at`; a record without one has None, which does not compare. */
  function CreatedKey(r: Record): string
  {
    if r.createdAt.Some? then r.createdAt.value else ""
  }

  predicate AllDated(rs: seq<Record>)
  {
    forall i :: 0 <= i < |rs| ==> rs[i].createdAt.Some?
  }

  const UndatedCompare: string := "'<' not supported between instances of 'NoneType' and 'str'"

  /**
   * `sort(key=lambda x: x.created_at, reverse=True)`: a stable sort, newest
   * first. With two or more records every record takes part in a comparison,
   * and one without a creation time makes that comparison raise TypeError.
   */
  function SortNewest(rs: seq<Record>): (r: Result<seq<Record>>)
    ensures r.Err? <==> |rs| >= 2 && !AllDated(rs)
  {
    if |rs| >= 2 && !AllDated(rs) then Err(UndatedCompare)
    else Ok(SortDesc(rs, ByStrKey(CreatedKey)))
  }

  /** The sorted records are the input's, each created no earlier than the ones after it. */
  lemma SortNewestOrder(rs: seq<Record>)
    requires SortNewest(rs).Ok?
    ensures multiset(SortNewest(rs).value) == multiset(rs)
    ensures Descending(SortNewest(rs).value, ByStrKey(CreatedKey))
  {
    StrKeyStrictWeak(CreatedKey);
    SortDescSorted(rs, ByStrKey(CreatedKey));
  }

  /** The pagination block of a listing, and the page itself. */
  datatype Page = Page(memories: seq<Record>, total: nat, limit: int, offset: int, hasMore: bool)

  function Min(a: int, b: int): int
  {
    if a <= b then a else b
  }

  /** `all_memories[offset:offset + limit]`, the total counted before the cut. */
  function Paginate(rs: seq<Record>, limit: int, offset: int): (p: Page)
    requires 1 <= limit && 0 <= offset
    ensures p.total == |rs| && p.limit == limit && p.offset == offset
    ensures p.hasMore <==> offset + limit < |rs|
    ensures |p.memories| == if offset >= |rs| then 0 else Min(limit, |rs| - offset)
    ensures forall i :: 0 <= i < |p.memories| ==> p.memories[i] == rs[offset + i]
  {
    var page := if offset >= |rs| then [] else rs[offset..Min(offset + limit, |rs|)];
    Page(page, |rs|, limit, offset, offset + limit < |rs|)
  }

  /** `has_more` says exactly that the next page is not empty. */
  lemma HasMoreIffNextPage(rs: seq<Record>, limit: int, offset: int)
    requires 1 <= limit && 0 <= offset
    ensures Paginate(rs, limit, offset).hasMore <==> Paginate(rs, limit, offset + limit).memories != []
  {
  }

  /** Two consecutive pages are the page that covers both. */
  lemma PagesTile(rs: seq<Record>, a: int, b: int, offset: int)
    requires 1 <= a && 1 <= b && 0 <= offset
    ensures Paginate(rs, a, offset).memories + Paginate(rs, b, offset + a).memories == Paginate(rs, a + b, offset).memories
  {
    var p := Paginate(rs, a, offset).memories;
    var q := Paginate(rs, b, offset + a).memories;
    var w := Paginate(rs, a + b, offset).memories;
    assert |p + q| == |w|;
    forall i | 0 <= i < |w|
      ensures (p + q)[i] == w[i]
    {
      if i >= |p| {
        assert (p + q)[i] == q[i - |p|];
      }
    }
  }

  /** `/v1/memory/list`: the tagged records of the chosen types, newest first, one page of them. */
  function ListResponse(fetch: Fetch, mtype: Option<string>, tags: Option<seq<string>>, limit: int, offset: int): (r: Response<Page>)
    ensures r.HttpError? && r.status == Unprocessable <==> !(1 <= limit <= 1000 && 0 <= offset)
    ensures r.Success? ==> r.body.limit == limit && r.body.offset == offset
  {
    if !(1 <= limit <= 1000 && 0 <= offset) then HttpError(Unprocessable, "validation error")
    else
      var gathered := Gathered(fetch, TypesToFetch(mtype));
      if gathered.Raised? then HttpError(500, gathered.message)
      else
        var sorted := SortNewest(FilterTags(gathered.records, tags));
        if sorted.Err? then HttpError(500, sorted.error)
        else Success(Paginate(sorted.value, limit, offset))
  }

  /**
   * A listed record was read from one of the chosen types and carries every
   * requested tag; the total counts exactly the records that pass the filter.
   */
  lemma ListedSound(fetch: Fetch, mtype: Option<string>, tags: Option<seq<string>>, limit: int, offset: int, rec: Record)
    requires ListResponse(fetch, mtype, tags, limit, offset).Success?
    requires rec in ListResponse(fetch, mtype, tags, limit, offset).body.memories
    ensures tags.Some? ==> HasAllTags(rec, tags.value)
    ensures exists i :: 0 <= i < |TypesToFetch(mtype)| && fetch(TypesToFetch(mtype)[i]).Records?
                        && rec in fetch(TypesToFetch(mtype)[i]).records
  {
    var names := TypesToFetch(mtype);
    var kept := FilterTags(Gathered(fetch, names).records, tags);
    assert rec in kept by {
      PagedFromKept(kept, limit, offset, rec);
    }
    GatheredMembers(fetch, names, rec);
  }

  /** A record on a page of the sorted records is one of the records sorted. */
  lemma PagedFromKept(kept: seq<Record>, limit: int, offset: int, rec: Record)
    requires SortNewest(kept).Ok? && 1 <= limit && 0 <= offset
    requires rec in Paginate(SortNewest(kept).value, limit, offset).memories
    ensures rec in kept
  {
    var sorted := SortNewest(kept).value;
    var page := Paginate(sorted, limit, offset).memories;
    var k :| 0 <= k < |page| && page[k] == rec;
    assert rec == sorted[offset + k];
    assert rec in multiset(sorted);
    SortNewestOrder(kept);
  }

  /** A page lists its records newest first, and `total` counts the filtered records. */
  lemma ListedOrder(fetch: Fetch, mtype: Option<string>, tags: Option<seq<string>>, limit: int, offset: int)
    requires ListResponse(fetch, mtype, tags, limit, offset).Success?
    ensures ListResponse(fetch, mtype, tags, limit, offset).body.total
            == |FilterTags(Gathered(fetch, TypesToFetch(mtype)).records, tags)|
    ensures Descending(ListResponse(fetch, mtype, tags, limit, offset).body.memories, ByStrKey(CreatedKey))
  {
    var kept := FilterTags(Gathered(fetch, TypesToFetch(mtype)).records, tags);
    var sorted := SortNewest(kept).value;
    var page := ListResponse(fetch, mtype, tags, limit, offset).body.memories;
    SortNewestOrder(kept);
    forall i, j | 0 <= i < j < |page|
      ensures !ByStrKey(CreatedKey)(page[i], page[j])
    {
      assert page[i] == sorted[offset + i] && page[j] == sorted[offset + j];
    }
  }

  /** The handler: fetch in a loop, then filter, sort and cut. */
  method ListMemories(fetch: Fetch, mtype: Option<string>, tags: Option<seq<string>>, limit: int, offset: int)
    returns (r: Response<Page>)
    ensures r == ListResponse(fetch, mtype, tags, limit, offset)
  {
    if !(1 <= limit <= 1000 && 0 <= offset) {
      return HttpError(Unprocessable, "validation error");
    }
    var gathered := Gather(fetch, TypesToFetch(mtype));
    if gathered.Raised? {
      return HttpError(500, gathered.message);
    }
    var sorted := SortNewest(FilterTags(gathered.records, tags));
    if sorted.Err? {
      return HttpError(500, sorted.error);
    }
    r := Success(Paginate(sorted.value, limit, offset));
  }

  // ---- search ----

  /** `memory.summary and query_lower in memory.summary.lower()`. */
  predicate SummaryHit(r: Record, q: string)
  {
    r.summary.Some? && r.summary.value != "" && Contains(Lower(r.summary.value), q)
  }

  /** The number of tags whose lower-cased text contains the query. */
  function TagHits(tags: seq<string>, q: string): (n: nat)
    ensures n <= |tags|
    ensures n == 0 <==> forall i :: 0 <= i < |tags| ==> !Contains(Lower(tags[i]), q)
  {
    if tags == [] then 0
    else
      var rest := TagHits(tags[..|tags| - 1], q);
      assert forall i :: 0 <= i < |tags| - 1 ==> tags[..|tags| - 1][i] == tags[i];
      rest + if Contains(Lower(tags[|tags| - 1]), q) then 1 else 0
  }

  /** The tag loop: five points per matching tag. */
  method CountTagHits(tags: seq<string>, q: string) returns (n: nat)
    ensures n == TagHits(tags, q)
  {
    n := 0;
    var i := 0;
    while i < |tags|
      invariant 0 <= i <= |tags|
      invariant n == TagHits(tags[..i], q)
    {
      assert tags[..i + 1][..i] == tags[..i];
      if Contains(Lower(tags[i]), q) {
        n := n + 1;
      }
      i := i + 1;
    }
    assert tags[..i] == tags;
  }

  /** `str(memory.payload)` is the payload's Python repr, which enters as a parameter. */
  type Repr = seq<(string, Json)> -> string

  /** Ten points for the summary, five per tag, three for the payload's repr. */
  function Score(r: Record, q: string, repr: Repr): (s: nat)
  {
    (if SummaryHit(r, q) then 10 else 0) + 5 * TagHits(r.tags, q)
    + (if Contains(Lower(repr(r.payload)), q) then 3 else 0)
  }

  /** A record scores when, and only when, one of its three places contains the query. */
  lemma ScorePositive(r: Record, q: string, repr: Repr)
    ensures Score(r, q, repr) > 0 <==>
      SummaryHit(r, q) || (exists i :: 0 <= i < |r.tags| && Contains(Lower(r.tags[i]), q))
      || Contains(Lower(repr(r.payload)), q)
  {
  }

  /** The empty string is in every string, so an empty query scores every record. */
  lemma EmptyQueryScores(r: Record, repr: Repr)
    ensures Score(r, "", repr) >= 3
  {
    assert MatchAt(Lower(repr(r.payload)), "", 0);
  }

  /** `matches`: each scoring record with its score, in order. */
  function Scored(rs: seq<Record>, q: string, repr: Repr): (m: seq<(int, Record)>)
    ensures |m| <= |rs|
    ensures forall i :: 0 <= i < |m| ==> m[i].0 == Score(m[i].1, q, repr) && m[i].0 > 0 && m[i].1 in rs
  {
    if rs == [] then []
    else
      var init := rs[..|rs| - 1];
      var prior := Scored(init, q, repr);
      var last := rs[|rs| - 1];
      var s := Score(last, q, repr);
      assert forall x :: x in init ==> x in rs;
      if s > 0 then prior + [(s, last)] else prior
  }

  /** Every scoring record is among the matches. */
  lemma {:induction false} ScoredComplete(rs: seq<Record>, q: string, repr: Repr, i: nat)
    requires i < |rs| && Score(rs[i], q, repr) > 0
    ensures (Score(rs[i], q, repr), rs[i]) in Scored(rs, q, repr)
  {
    if i < |rs| - 1 {
      var init := rs[..|rs| - 1];
      assert init[i] == rs[i];
      ScoredComplete(init, q, repr, i);
    }
  }

  /** With an empty query every record is a match. */
  lemma {:induction false} EmptyQueryMatchesAll(rs: seq<Record>, repr: Repr)
    ensures |Scored(rs, "", repr)| == |rs|
  {
    if rs != [] {
      EmptyQueryMatchesAll(rs[..|rs| - 1], repr);
      EmptyQueryScores(rs[|rs| - 1], repr);
    }
  }

  /** One record's score, summed as the handler does. */
  method ScoreOf(r: Record, q: string, repr: Repr) returns (score: nat)
    ensures score == Score(r, q, repr)
  {
    score := 0;
    if SummaryHit(r, q) {
      score := score + 10;
    }
    var hits := CountTagHits(r.tags, q);
    score := score + 5 * hits;
    if Contains(Lower(repr(r.payload)), q) {
      score := score + 3;
    }
  }

  /** The scoring loop of the handler. */
  method ScoreAll(rs: seq<Record>, q: string, repr: Repr) returns (m: seq<(int, Record)>)
    ensures m == Scored(rs, q, repr)
  {
    m := [];
    var i := 0;
    while i < |rs|
      invariant 0 <= i <= |rs|
      invariant m == Scored(rs[..i], q, repr)
    {
      assert rs[..i + 1][..i] == rs[..i];
      var score := ScoreOf(rs[i], q, repr);
      if score > 0 {
        m := m + [(score, rs[i])];
      }
      i := i + 1;
    }
    assert rs[..i] == rs;
  }

  function MatchScore(m: (int, Record)): int
  {
    m.0
  }

  datatype Found = Found(query: string, results: seq<Record>, total: nat)

  /** `matches.sort(key=lambda x: x[0], reverse=True)` and `matches[:limit]`. */
  function Ranked(matches: seq<(int, Record)>, limit: nat): (top: seq<(int, Record)>)
    ensures |top| == Min(limit, |matches|)
  {
    var sorted := SortDesc(matches, ByIntKey(MatchScore));
    sorted[..Min(limit, |sorted|)]
  }

  /** The top matches are matches, best score first. */
  lemma RankedOrder(matches: seq<(int, Record)>, limit: nat)
    ensures forall i :: 0 <= i < |Ranked(matches, limit)| ==> Ranked(matches, limit)[i] in matches
    ensures forall i, j :: 0 <= i < j < |Ranked(matches, limit)| ==>
              Ranked(matches, limit)[i].0 >= Ranked(matches, limit)[j].0
  {
    var sorted := SortDesc(matches, ByIntKey(MatchScore));
    IntKeyStrictWeak(MatchScore);
    SortDescSorted(matches, ByIntKey(MatchScore));
    var top := Ranked(matches, limit);
    forall i | 0 <= i < |top|
      ensures top[i] in matches
    {
      assert top[i] == sorted[i];
      assert sorted[i] in multiset(sorted);
    }
    forall i, j | 0 <= i < j < |top|
      ensures top[i].0 >= top[j].0
    {
      assert top[i] == sorted[i] && top[j] == sorted[j];
      assert !ByIntKey(MatchScore)(sorted[i], sorted[j]);
      assert ByIntKey(MatchScore)(sorted[i], sorted[j]) == (MatchScore(sorted[i]) < MatchScore(sorted[j]));
    }
  }

  function Seconds(top: seq<(int, Record)>): (r: seq<Record>)
    ensures |r| == |top| && forall i :: 0 <= i < |r| ==> r[i] == top[i].1
  {
    seq(|top|, i requires 0 <= i < |top| => top[i].1)
  }

  /** `/v1/memory/search`: the best-scoring records of the chosen types, at most `limit` of them. */
  function SearchResponse(fetch: Fetch, query: string, mtype: Option<string>, limit: int, repr: Repr): (r: Response<Found>)
    ensures r.HttpError? && r.status == Unprocessable <==> !(1 <= limit <= 100)
    ensures r.Success? ==> r.body.query == query && r.body.total == |r.body.results| <= limit
  {
    if !(1 <= limit <= 100) then HttpError(Unprocessable, "validation error")
    else
      var gathered := Gathered(fetch, TypesToFetch(mtype));
      if gathered.Raised? then HttpError(500, gathered.message)
      else
        var top := Seconds(Ranked(Scored(gathered.records, Lower(query), repr), limit));
        Success(Found(query, top, |top|))
  }

  /**
   * Every result scores, comes from a chosen type, and scores no less than
   * the results after it; there are as many as the limit allows.
   */
  lemma SearchRanked(fetch: Fetch, query: string, mtype: Option<string>, limit: int, repr: Repr)
    requires SearchResponse(fetch, query, mtype, limit, repr).Success?
    ensures var res := SearchResponse(fetch, query, mtype, limit, repr).body.results;
      var all := Gathered(fetch, TypesToFetch(mtype)).records;
      && |res| == Min(limit, |Scored(all, Lower(query), repr)|)
      && (forall i :: 0 <= i < |res| ==> Score(res[i], Lower(query), repr) > 0 && res[i] in all)
      && (forall i, j :: 0 <= i < j < |res| ==> Score(res[i], Lower(query), repr) >= Score(res[j], Lower(query), repr))
  {
    var all := Gathered(fetch, TypesToFetch(mtype)).records;
    var matches := Scored(all, Lower(query), repr);
    RankedOrder(matches, limit);
  }

  /** The empty query returns the first `limit` records of the chosen types, whatever they hold. */
  lemma EmptySearchReturnsAll(fetch: Fetch, mtype: Option<string>, limit: int, repr: Repr)
    requires SearchResponse(fetch, "", mtype, limit, repr).Success?
    ensures |SearchResponse(fetch, "", mtype, limit, repr).body.results|
            == Min(limit, |Gathered(fetch, TypesToFetch(mtype)).records|)
  {
    assert Lower("") == "";
    EmptyQueryMatchesAll(Gathered(fetch, TypesToFetch(mtype)).records, repr);
  }

  /** The handler: fetch and score in loops, then rank. */
  method SearchMemories(fetch: Fetch, query: string, mtype: Option<string>, limit: int, repr: Repr)
    returns (r: Response<Found>)
    ensures r == SearchResponse(fetch, query, mtype, limit, repr)
  {
    if !(1 <= limit <= 100) {
      return HttpError(Unprocessable, "validation error");
    }
    var gathered := Gather(fetch, TypesToFetch(mtype));
    if gathered.Raised? {
      return HttpError(500, gathered.message);
    }
    var matches := ScoreAll(gathered.records, Lower(query), repr);
    var top := Seconds(Ranked(matches, limit));
    r := Success(Found(query, top, |top|));
  }

  // ---- stats ----

  datatype Stats = Stats(total: nat, byType: seq<(string, int)>)

  /** The stats loop over `names`: each type's count, 0 for one that raises ValueError. */
  function Tally(fetch: Fetch, names: seq<string>): (r: Response<Stats>)
    ensures r.Success? ==> Keys(r.body.byType) == names
  {
    if names == [] then Success(Stats(0, []))
    else
      var prior := Tally(fetch, names[..|names| - 1]);
      var name := names[|names| - 1];
      var f := fetch(name);
      if prior.HttpError? then prior
      else if f.Records? then Success(Stats(prior.body.total + |f.records|, prior.body.byType + [(name, |f.records|)]))
      else if f.exc == ValueError then Success(Stats(prior.body.total, prior.body.byType + [(name, 0)]))
      else HttpError(500, f.message)
  }

  /** Stats and listing fail alike, and the stats total is the number of records a listing of every type gathers. */
  lemma {:induction false} TallyMatchesGather(fetch: Fetch, names: seq<string>)
    ensures Tally(fetch, names).Success? <==> Gathered(fetch, names).Records?
    ensures Tally(fetch, names).Success? ==> Tally(fetch, names).body.total == |Gathered(fetch, names).records|
    ensures Tally(fetch, names).HttpError? ==>
      Tally(fetch, names).status == 500 && Tally(fetch, names).detail == Gathered(fetch, names).message
  {
    if names != [] {
      TallyMatchesGather(fetch, names[..|names| - 1]);
    }
  }

  /** `/v1/memory/stats`. */
  method GetStats(fetch: Fetch) returns (r: Response<Stats>)
    ensures r == Tally(fetch, TypeNames)
  {
    var total: nat := 0;
    var byType: seq<(string, int)> := [];
    var i := 0;
    while i < |TypeNames|
      invariant 0 <= i <= |TypeNames|
      invariant Tally(fetch, TypeNames[..i]) == Success(Stats(total, byType))
    {
      assert TypeNames[..i + 1][..i] == TypeNames[..i];
      var name := TypeNames[i];
      var f := fetch(name);
      if f.Records? {
        byType := byType + [(name, |f.records|)];
        total := total + |f.records|;
      } else if f.exc == ValueError {
        byType := byType + [(name, 0)];
      } else {
        TallyStops(fetch, TypeNames, i + 1);
        return HttpError(500, f.message);
      }
      i := i + 1;
    }
    assert TypeNames[..i] == TypeNames;
    r := Success(Stats(total, byType));
  }

  lemma {:induction false} TallyStops(fetch: Fetch, names: seq<string>, k: nat)
    requires k <= |names| && Tally(fetch, names[..k]).HttpError?
    ensures Tally(fetch, names) == Tally(fetch, names[..k])
    decreases |names| - k
  {
    if k < |names| {
      assert names[..k + 1][..k] == names[..k];
      TallyStops(fetch, names, k + 1);
    } else {
      assert names[..k] == names;
    }
  }

  // ---- delete ----

  /** `next((m for m in memories if m.id == memory_id), None)` finds one. */
  predicate HoldsId(rs: seq<Record>, id: string)
  {
    exists i :: 0 <= i < |rs| && rs[i].id == id
  }

  /** Where the search over the types ends. */
  datatype Deletion = Removed(mtype: string) | NotFound | Failed(message: string)

  /** A fetch or a `delete` that raises ValueError or FileNotFoundError moves on to the next type. */
  predicate Passes(e: Exc)
  {
    e == ValueError || e == FileNotFoundError
  }

  /** The first type whose file holds the id and whose `delete` returns; other exceptions end the search. */
  function DeleteFrom(fetch: Fetch, remove: Remove, id: string, names: seq<string>): (r: Deletion)
    ensures r.Removed? ==> r.mtype in names && fetch(r.mtype).Records? && HoldsId(fetch(r.mtype).records, id)
                           && remove(id, r.mtype).None?
  {
    if names == [] then NotFound
    else
      var f := fetch(names[0]);
      if f.Raised? then
        if Passes(f.exc) then DeleteFrom(fetch, remove, id, names[1..]) else Failed(f.message)
      else if !HoldsId(f.records, id) then DeleteFrom(fetch, remove, id, names[1..])
      else
        var d := remove(id, names[0]);
        if d.None? then Removed(names[0])
        else if Passes(d.value.0) then DeleteFrom(fetch, remove, id, names[1..])
        else Failed(d.value.1)
  }

  /** 404 exactly when no type can give the id up: each one raised a passing exception, lacks the id, or its delete raised one. */
  lemma {:induction false} NotFoundIff(fetch: Fetch, remove: Remove, id: string, names: seq<string>)
    ensures DeleteFrom(fetch, remove, id, names).NotFound? <==>
      forall i :: 0 <= i < |names| ==>
        var f := fetch(names[i]);
        (f.Raised? && Passes(f.exc)) || (f.Records? && !HoldsId(f.records, id))
        || (f.Records? && remove(id, names[i]).Some? && Passes(remove(id, names[i]).value.0))
  {
    if names != [] {
      NotFoundIff(fetch, remove, id, names[1..]);
      assert forall i :: 0 < i < |names| ==> names[1..][i - 1] == names[i];
    }
  }

  /** The answer the handler gives for a deletion. */
  function DeleteResponse(d: Deletion, id: string): (r: Response<string>)
    ensures r.Success? <==> d.Removed?
    ensures r.HttpError? && r.status == 404 <==> d.NotFound?
  {
    match d
    case Removed(_) => Success("Memory " + id + " deleted")
    case NotFound => HttpError(404, "Memory not found")
    case Failed(m) => HttpError(500, m)
  }

  /** `/v1/memory/{memory_id}`: the search over every type, stopping at the first deletion. */
  method DeleteMemory(fetch: Fetch, remove: Remove, id: string) returns (r: Response<string>)
    ensures r == DeleteResponse(DeleteFrom(fetch, remove, id, TypeNames), id)
  {
    var i := 0;
    while i < |TypeNames|
      invariant 0 <= i <= |TypeNames|
      invariant DeleteFrom(fetch, remove, id, TypeNames) == DeleteFrom(fetch, remove, id, TypeNames[i..])
    {
      var name := TypeNames[i];
      assert TypeNames[i..][1..] == TypeNames[i + 1..];
      var f := fetch(name);
      if f.Raised? {
        if !Passes(f.exc) {
          return HttpError(500, f.message);
        }
      } else if HoldsId(f.records, id) {
        var d := remove(id, name);
        if d.None? {
          return Success("Memory " + id + " deleted");
        } else if !Passes(d.value.0) {
          return HttpError(500, d.value.1);
        }
      }
      i := i + 1;
    }
    r := HttpError(404, "Memory not found");
  }

  // ---- the vault as it stands ----

  /** With the vault as it stands, list, search and stats answer 500 and delete never finds a record. */
  lemma ShippedVaultFails(mtype: Option<string>, tags: Option<seq<string>>, limit: int, offset: int,
                          query: string, repr: Repr, remove: Remove, id: string)
    requires 1 <= limit <= 100 && 0 <= offset
    ensures ListResponse(ShippedVault(), mtype, tags, limit, offset) == HttpError(500, NoGetAll)
    ensures SearchResponse(ShippedVault(), query, mtype, limit, repr) == HttpError(500, NoGetAll)
    ensures Tally(ShippedVault(), TypeNames) == HttpError(500, NoGetAll)
    ensures DeleteFrom(ShippedVault(), remove, id, TypeNames) == Failed(NoGetAll)
  {
    var names := TypesToFetch(mtype);
    assert names[..1] == [names[0]];
    assert Gathered(ShippedVault(), names[..1]) == Raised(OtherError, NoGetAll);
    GatheredStops(ShippedVault(), names, 1);
    assert TypeNames[..1] == [TypeNames[0]];
    TallyStops(ShippedVault(), TypeNames, 1);
  }

  // ---- add ----

  /** `/v1/memory/add`: the vault's `add`, its ValueError answered with 400. */
  method AddMemory(vault: MemoryVault.Vault, mtype: string, payload: seq<(string, Json)>, summary: Option<string>,
                   tags: Option<seq<string>>, confidence: Option<real>, ttlDays: Option<int>,
                   id: string, createdAt: string) returns (r: Response<Record>)
    modifies vault
    ensures r.HttpError? <==> MemoryVault.PathForType(mtype).Err?
    ensures r.HttpError? ==> r.status == 400 && r.detail == MemoryVault.PathForType(mtype).error && vault.files == old(vault.files)
    ensures r.Success? ==>
      var t := MemoryVault.PathForType(mtype).value;
      r.body == MemoryVault.NewRecord(id, mtype, createdAt, payload, summary, confidence, ttlDays,
                                      Some(if tags.Some? then tags.value else []))
      && vault.files == old(vault.files)[t := MemoryVault.LinesOf(old(vault.files), t) + [MemoryVault.Rec(r.body)]]
  {
    var res := vault.Add(mtype, payload, summary, confidence, ttlDays,
                         Some(if tags.Some? then tags.value else []), id, createdAt);
    if res.Err? {
      return HttpError(400, res.error);
    }
    r := Success(res.value);
  }
}
