// The memory subsystem's pure parts: text normalisation and tokens, the
// Jaccard overlap, the TTL table, the dedup hash input, score fusion and
// min-max normalisation, the stored rows and the prepared item, the recall
// ranking and the context packing. The clock, sha256, the embedder, cosine
// similarity, `exp` and `json.dumps` enter as parameters.
module MemoryStore {
  import opened Wrappers
  import opened Json
  import opened Text
  import opened Seqs
  import opened MemoryScores
  import Sorting

  // ---------------------------------------------------------------------
  // Text

  /** `_normalize_text`: the stripped text's words, joined by single spaces, lower-cased. */
  function NormalizeText(t: string): string
  {
    Lower(Join(Words(Strip(t)), " "))
  }

  /** The normalised text is the lowered words joined by single spaces. */
  lemma NormalizedJoin(t: string)
    ensures NormalizeText(t) == Join(LowerAll(Words(Strip(t))), " ")
    ensures forall k :: 0 <= k < |Words(Strip(t))| ==> IsWord(LowerAll(Words(Strip(t)))[k])
  {
    var ws := Words(Strip(t));
    WordsAreWords(Strip(t));
    forall k | 0 <= k < |ws|
      ensures IsWord(LowerAll(ws)[k])
    {
      LowerWord(ws[k]);
    }
    assert Lower(" ") == " ";
    LowerJoin(ws, " ");
  }

  /** The words of the normalised text are the text's words, lower-cased. */
  lemma NormalizeWords(t: string)
    ensures Words(NormalizeText(t)) == LowerAll(Words(Strip(t)))
  {
    NormalizedJoin(t);
    WordsOfJoin(LowerAll(Words(Strip(t))));
  }

  /** Normalising twice is normalising once. */
  lemma NormalizeIdempotent(t: string)
    ensures NormalizeText(NormalizeText(t)) == NormalizeText(t)
  {
    var n := NormalizeText(t);
    var lw := LowerAll(Words(Strip(t)));
    NormalizedJoin(t);
    JoinWordsStripped(lw);
    WordsOfJoin(lw);
    LowerIdempotent(Join(Words(Strip(t)), " "));
    assert Strip(n) == n;
    assert Words(n) == lw;
  }

  /** `_tokenize`: the normalised text's words (`split()` yields no empty word to drop). */
  function Tokenize(text: string): seq<string>
  {
    Words(NormalizeText(text))
  }

  /** The tokens are the text's words lower-cased, and none is empty. */
  lemma TokensAreLoweredWords(text: string)
    ensures Tokenize(text) == LowerAll(Words(Strip(text)))
    ensures forall k :: 0 <= k < |Tokenize(text)| ==> Tokenize(text)[k] != ""
  {
    NormalizeWords(text);
    WordsAreWords(NormalizeText(text));
  }

  /** `split()` after `strip()` sees the same words as `split()` alone. */
  lemma NormalizeIgnoresStrip(t: string)
    ensures NormalizeText(t) == Lower(Join(Words(t), " "))
  {
    WordsOfStrip(t);
  }

  /** Spacing does not matter: any whitespace run between two parts reads as one space. */
  lemma NormalizeSpacing(a: string, sp: string, b: string)
    requires sp != [] && forall k :: 0 <= k < |sp| ==> IsSpace(sp[k])
    ensures NormalizeText(a + sp + b) == NormalizeText(a + " " + b)
  {
    assert Words(a + sp + b) == Words(a + " " + b) by {
      WordsSeparated(a, sp, b);
      WordsSeparated(a, " ", b);
    }
    NormalizeIgnoresStrip(a + sp + b);
    NormalizeIgnoresStrip(a + " " + b);
  }

  /** Whitespace around the text is dropped. */
  lemma NormalizePadding(sp: string, b: string)
    requires forall k :: 0 <= k < |sp| ==> IsSpace(sp[k])
    ensures NormalizeText(sp + b + sp) == NormalizeText(b)
  {
    assert Words(sp + b + sp) == Words(b) by {
      assert sp + b + sp == sp + (b + sp);
      WordsAfterSpaces(sp, b + sp);
      WordsBeforeSpaces(b, sp);
    }
    NormalizeIgnoresStrip(sp + b + sp);
    NormalizeIgnoresStrip(b);
  }

  // ---------------------------------------------------------------------
  // Jaccard overlap

  /** `_jaccard_score`: none for an empty token set, else the shared tokens over all tokens. */
  function Jaccard(a: seq<string>, b: seq<string>): (r: real)
    ensures 0.0 <= r <= 1.0
    ensures Elems(a) == {} || Elems(b) == {} ==> r == 0.0
    ensures Elems(a) != {} && Elems(b) != {} ==>
      r * (|Elems(a) + Elems(b)| as real) == |Elems(a) * Elems(b)| as real
  {
    var sa := Elems(a);
    var sb := Elems(b);
    if sa == {} || sb == {} then 0.0
    else
      SubsetCard(sa * sb, sa + sb);
      var x :| x in sa;
      assert x in sa + sb;
      var num := |sa * sb| as real;
      var den := |sa + sb| as real;
      assert 0.0 < den && num <= den;
      Ratio(num, den)
  }

  /** The overlap does not depend on which side is the query. */
  lemma JaccardSymmetric(a: seq<string>, b: seq<string>)
    ensures Jaccard(a, b) == Jaccard(b, a)
  {
    assert Elems(a) * Elems(b) == Elems(b) * Elems(a);
    assert Elems(a) + Elems(b) == Elems(b) + Elems(a);
  }

  /** A non-empty token list overlaps itself fully. */
  lemma JaccardSelf(a: seq<string>)
    requires a != []
    ensures Jaccard(a, a) == 1.0
  {
    assert a[0] in Elems(a);
    assert Elems(a) * Elems(a) == Elems(a) + Elems(a);
  }

  /** Token lists with no token in common do not overlap at all. */
  lemma JaccardDisjoint(a: seq<string>, b: seq<string>)
    requires forall t :: t in a ==> t !in b
    ensures Jaccard(a, b) == 0.0
  {
    assert Elems(a) * Elems(b) == {};
  }

  // ---------------------------------------------------------------------
  // TTL defaults

  /** Seconds of lifetime per memory type: 10 and 5 years, 30, 7, 90 and 30 days, and 2 hours. */
  const TtlDefaults: seq<(string, real)> := [
    ("FACT", 315360000.0),
    ("PERSONAL_PREF", 157680000.0),
    ("SESSION", 2592000.0),
    ("TRANSCRIPT", 604800.0),
    ("TASK", 7776000.0),
    ("TOOL_OUTPUT", 2592000.0),
    ("SCRATCH", 7200.0)]

  /** `_default_ttl_for`: the table entry for the upper-cased type, None for any other type. */
  function DefaultTtl(itemType: string): (r: Option<real>)
    ensures r.Some? <==> Upper(itemType) in Keys(TtlDefaults)
    ensures r.Some? ==> r.value >= 7200.0
  {
    var r := Lookup(TtlDefaults, Upper(itemType));
    if r.Some? then LookupIn(TtlDefaults, Upper(itemType)); r else r
  }

  /** The type is matched without regard to case: `fact` lives ten years. */
  lemma DefaultTtlFact()
    ensures DefaultTtl("fact") == Some(315360000.0)
  {
    assert Upper("fact") == "FACT";
    LookupAt(TtlDefaults, "FACT", 0);
  }

  /** `Scratch` lives two hours. */
  lemma DefaultTtlScratch()
    ensures DefaultTtl("Scratch") == Some(7200.0)
  {
    assert Upper("Scratch") == "SCRATCH";
    LookupAt(TtlDefaults, "SCRATCH", 6);
  }

  /** A type outside the table, such as `episodic`, has no default. */
  lemma DefaultTtlUnknown()
    ensures DefaultTtl("episodic") == None
  {
    assert Upper("episodic") == "EPISODIC";
  }

  /** Lower-casing a type first does not change its default. */
  lemma DefaultTtlIgnoresCase(itemType: string)
    ensures DefaultTtl(Lower(itemType)) == DefaultTtl(itemType)
  {
    UpperOfLower(itemType);
  }

  // ---------------------------------------------------------------------
  // Dedup hash

  /** The text `_make_hash` digests: type, normalised text and anchors, one per line, each stripped and lower-cased. */
  function HashInput(itemType: string, text: string, anchors: seq<string>): (r: string)
  {
    Join([Lower(Strip(itemType)), NormalizeText(text)] + LowerAll(StripAll(anchors)), "\n")
  }

  function StripAll(xs: seq<string>): (r: seq<string>)
    ensures |r| == |xs| && forall k :: 0 <= k < |xs| ==> r[k] == Strip(xs[k])
  {
    seq(|xs|, k requires 0 <= k < |xs| => Strip(xs[k]))
  }

  /** Items whose texts have the same words up to case, with the same type and anchors, hash alike. */
  lemma DedupKey(itemType: string, t1: string, t2: string, anchors: seq<string>)
    requires LowerAll(Words(t1)) == LowerAll(Words(t2))
    ensures HashInput(itemType, t1, anchors) == HashInput(itemType, t2, anchors)
  {
    WordsOfStrip(t1);
    WordsOfStrip(t2);
    NormalizedJoin(t1);
    NormalizedJoin(t2);
  }

  /** Re-spacing the text, as in "The sky is blue." against "  The   sky is   blue. ", keeps the hash input. */
  lemma DedupIgnoresSpacing(itemType: string, a: string, sp: string, b: string, anchors: seq<string>)
    requires sp != [] && forall k :: 0 <= k < |sp| ==> IsSpace(sp[k])
    ensures HashInput(itemType, a + sp + b, anchors) == HashInput(itemType, a + " " + b, anchors)
    ensures HashInput(itemType, sp + b + sp, anchors) == HashInput(itemType, b, anchors)
  {
    NormalizeSpacing(a, sp, b);
    NormalizePadding(sp, b);
  }

  // ---------------------------------------------------------------------
  // Scores

  /** `d.get(id, 0.0)`. */
  function ScoreOf(m: seq<(string, real)>, id: string): (r: real)
    ensures !HasKey(m, id) ==> r == 0.0
  {
    Lookup(m, id).GetOr(0.0)
  }

  // ---------------------------------------------------------------------
  // Stored rows and incoming items

  /** A stored memory: the table's columns, with the metadata and the embedding decoded. */
  datatype Row = Row(
    id: string,
    itemType: string,
    text: string,
    metadata: seq<(string, Json)>,
    createdAt: real,
    lastSeen: real,
    ttl: Option<real>,
    decay: real,
    source: Option<string>,
    hash: Option<string>,
    embedding: seq<real>)

  /** A `MemoryItem` as its caller builds it; None marks a field left unset. */
  datatype Item = Item(
    id: Option<string>,
    itemType: string,
    text: string,
    metadata: seq<(string, Json)>,
    createdAt: Option<real>,
    lastSeen: Option<real>,
    ttl: Option<real>,
    decay: real,
    source: Option<string>,
    hash: Option<string>,
    embedding: Option<seq<real>>)

  /** Python truthiness of an optional string: neither None nor "". */
  predicate Filled(s: Option<string>)
  {
    s.Some? && s.value != ""
  }

  /** Python truthiness of an optional number: neither None nor 0. */
  predicate Nonzero(x: Option<real>)
  {
    x.Some? && x.value != 0.0
  }

  /**
   * The field defaults `remember` fills in before it looks for a duplicate:
   * the hash of type, text and anchors, the creation time, the last-seen
   * time (the creation time), the type's TTL and the text's embedding.
   */
  function Prepare(item: Item, anchors: seq<string>, now: real,
                   digest: string -> string, embed: string -> seq<real>): (p: Item)
    ensures p.hash.Some?
    ensures Filled(item.hash) ==> p.hash == item.hash
    ensures !Filled(item.hash) ==> p.hash == Some(digest(HashInput(item.itemType, item.text, anchors)))
    ensures p.createdAt == if Nonzero(item.createdAt) then item.createdAt else Some(now)
    ensures p.lastSeen == if Nonzero(item.lastSeen) then item.lastSeen else p.createdAt
    ensures item.ttl.None? ==> p.ttl == DefaultTtl(item.itemType)
    ensures item.ttl.Some? ==> p.ttl == item.ttl
    ensures p.embedding.Some?
    ensures p.id == item.id && p.itemType == item.itemType && p.text == item.text && p.metadata == item.metadata
  {
    var created := if Nonzero(item.createdAt) then item.createdAt else Some(now);
    item.(
      hash := if Filled(item.hash) then item.hash else Some(digest(HashInput(item.itemType, item.text, anchors))),
      createdAt := created,
      lastSeen := if Nonzero(item.lastSeen) then item.lastSeen else created,
      ttl := if item.ttl.None? then DefaultTtl(item.itemType) else item.ttl,
      embedding := if item.embedding.None? then Some(embed(item.text)) else item.embedding)
  }

  /** The row `upsert` writes: a missing id is the hash, or else a random one; unset times are now. */
  function ToRow(item: Item, now: real, randomId: string): (r: Row)
    ensures r.id == if Filled(item.id) then item.id.value else if Filled(item.hash) then item.hash.value else randomId
    ensures r.hash == item.hash && r.ttl == item.ttl && r.metadata == item.metadata
  {
    Row(
      if Filled(item.id) then item.id.value else if Filled(item.hash) then item.hash.value else randomId,
      item.itemType,
      item.text,
      item.metadata,
      if Nonzero(item.createdAt) then item.createdAt.value else now,
      if Nonzero(item.lastSeen) then item.lastSeen.value else now,
      item.ttl,
      item.decay,
      item.source,
      item.hash,
      item.embedding.GetOr([]))
  }

  // ---------------------------------------------------------------------
  // The table

  /** The table's primary key: no two rows share an id. */
  predicate UniqueIds(rows: seq<Row>)
  {
    forall i, j :: 0 <= i < j < |rows| ==> rows[i].id != rows[j].id
  }

  predicate HasId(rows: seq<Row>, id: string)
  {
    exists k :: 0 <= k < |rows| && rows[k].id == id
  }

  /** `SELECT ... WHERE hash = ? LIMIT 1`: the position of the first row with the hash. */
  function FindHash(rows: seq<Row>, h: string): (r: Option<nat>)
    ensures r.Some? ==> (r.value < |rows| && rows[r.value].hash == Some(h)
      && forall k :: 0 <= k < r.value ==> rows[k].hash != Some(h))
    ensures r.None? ==> forall k :: 0 <= k < |rows| ==> rows[k].hash != Some(h)
  {
    FindHashFrom(rows, h, 0)
  }

  function FindHashFrom(rows: seq<Row>, h: string, i: nat): (r: Option<nat>)
    requires i <= |rows|
    requires forall k :: 0 <= k < i ==> rows[k].hash != Some(h)
    ensures r.Some? ==> (r.value < |rows| && rows[r.value].hash == Some(h)
      && forall k :: 0 <= k < r.value ==> rows[k].hash != Some(h))
    ensures r.None? ==> forall k :: 0 <= k < |rows| ==> rows[k].hash != Some(h)
    decreases |rows| - i
  {
    if i == |rows| then None
    else if rows[i].hash == Some(h) then Some(i)
    else FindHashFrom(rows, h, i + 1)
  }

  /** Two tables with the same hashes in the same places find a hash at the same place. */
  lemma FindHashSameHashes(a: seq<Row>, b: seq<Row>, h: string)
    requires |a| == |b| && forall k :: 0 <= k < |a| ==> a[k].hash == b[k].hash
    ensures FindHash(a, h) == FindHash(b, h)
  {
    var ra := FindHash(a, h);
    var rb := FindHash(b, h);
    if ra.Some? {
      assert b[ra.value].hash == Some(h);
    }
    if rb.Some? {
      assert a[rb.value].hash == Some(h);
    }
  }

  /** `DELETE ... WHERE id = ?`: every row with the id goes, the rest keep their order. */
  function RemoveId(rows: seq<Row>, id: string): (r: seq<Row>)
    ensures |r| <= |rows|
    ensures forall k :: 0 <= k < |r| ==> r[k].id != id && r[k] in rows
    ensures !HasId(rows, id) ==> r == rows
    ensures HasId(rows, id) ==> |r| < |rows|
  {
    if rows == [] then []
    else
      var rest := RemoveId(rows[1..], id);
      if rows[0].id == id then rest
      else
        assert HasId(rows, id) ==> HasId(rows[1..], id) by {
          if HasId(rows, id) {
            var k :| 0 <= k < |rows| && rows[k].id == id;
            assert rows[1..][k - 1].id == id;
          }
        }
        assert !HasId(rows[1..], id) ==> !HasId(rows, id) by {
          if HasId(rows, id) {
            var k :| 0 <= k < |rows| && rows[k].id == id;
            assert rows[1..][k - 1].id == id;
          }
        }
        assert rows == [rows[0]] + rows[1..];
        [rows[0]] + rest
  }

  lemma {:induction false} RemoveIdConcat(a: seq<Row>, b: seq<Row>, id: string)
    ensures RemoveId(a + b, id) == RemoveId(a, id) + RemoveId(b, id)
  {
    if a != [] {
      assert (a + b)[1..] == a[1..] + b;
      RemoveIdConcat(a[1..], b, id);
    } else {
      assert a + b == b;
    }
  }

  /** Removing ids keeps the ids unique. */
  lemma {:induction false} RemoveIdUnique(rows: seq<Row>, id: string)
    requires UniqueIds(rows)
    ensures UniqueIds(RemoveId(rows, id))
  {
    if rows != [] {
      RemoveIdUnique(rows[1..], id);
      var rest := RemoveId(rows[1..], id);
      forall k | 0 <= k < |rest|
        ensures rest[k].id != rows[0].id
      {
        var m :| 0 <= m < |rows[1..]| && rows[1..][m] == rest[k];
        assert rows[m + 1] == rest[k];
      }
    }
  }

  /** `UPDATE ... WHERE id = ?` of the last-seen time and, when given, the metadata. */
  function Refresh(rows: seq<Row>, id: string, lastSeen: real, metadata: Option<seq<(string, Json)>>): (r: seq<Row>)
    ensures |r| == |rows|
    ensures forall k :: 0 <= k < |rows| ==> (r[k] ==
      if rows[k].id == id then rows[k].(lastSeen := lastSeen, metadata := metadata.GetOr(rows[k].metadata)) else rows[k])
  {
    seq(|rows|, k requires 0 <= k < |rows| =>
      if rows[k].id == id then rows[k].(lastSeen := lastSeen, metadata := metadata.GetOr(rows[k].metadata)) else rows[k])
  }

  /** `dict(base)` updated with `update`: the update's keys override, every other key stays. */
  function MergeMeta(base: seq<(string, Json)>, update: seq<(string, Json)>): seq<(string, Json)>
    decreases |update|
  {
    if update == [] then base else MergeMeta(Put(base, update[0].0, update[0].1), update[1..])
  }

  /** After a merge a key holds the update's value when the update has it, and the base value otherwise. */
  lemma {:induction false} MergeMetaLookup(base: seq<(string, Json)>, update: seq<(string, Json)>, k: string)
    requires Distinct(Keys(update))
    ensures Lookup(MergeMeta(base, update), k) == if HasKey(update, k) then Lookup(update, k) else Lookup(base, k)
    decreases |update|
  {
    if update != [] {
      var tail := update[1..];
      var (key, value) := update[0];
      DistinctKeysTail(update, k);
      var put := Put(base, key, value);
      MergeMetaLookup(put, tail, k);
      if k != key {
        PutOther(base, key, value, k);
      }
    }
  }

  /** The first key of an update with distinct keys is not among the rest, and a key is in it when first or in the rest. */
  lemma DistinctKeysTail(update: seq<(string, Json)>, k: string)
    requires Distinct(Keys(update)) && update != []
    ensures Distinct(Keys(update[1..]))
    ensures HasKey(update, k) <==> k == update[0].0 || HasKey(update[1..], k)
    ensures k == update[0].0 ==> !HasKey(update[1..], k)
  {
    var tail := update[1..];
    assert Keys(update) == [update[0].0] + Keys(tail);
  }

  // ---------------------------------------------------------------------
  // remember

  /**
   * `remember`: a row with the prepared hash is refreshed (last seen now,
   * metadata merged) and keeps its id; otherwise the item is written as a
   * new row whose id defaults to the hash. Gives the new table and the id.
   */
  function Remembered(rows: seq<Row>, item: Item, anchors: seq<string>, now: real,
                      digest: string -> string, embed: string -> seq<real>, randomId: string): (r: (seq<Row>, string))
  {
    var p := Prepare(item, anchors, now, digest, embed);
    var h := p.hash.value;
    var found := FindHash(rows, h);
    if found.Some? then
      var e := rows[found.value];
      (Refresh(rows, e.id, now, Some(MergeMeta(e.metadata, p.metadata))), e.id)
    else
      var row := ToRow(if Filled(p.id) then p else p.(id := Some(h)), now, randomId);
      (RemoveId(rows, row.id) + [row], row.id)
  }

  /** The hash `remember` deduplicates on. */
  function DedupHash(item: Item, anchors: seq<string>, digest: string -> string): string
  {
    if Filled(item.hash) then item.hash.value else digest(HashInput(item.itemType, item.text, anchors))
  }

  /** After `remember`, the first row with the item's hash carries the returned id. */
  lemma RememberedFindsHash(rows: seq<Row>, item: Item, anchors: seq<string>, now: real,
                            digest: string -> string, embed: string -> seq<real>, randomId: string)
    ensures var (rows1, id) := Remembered(rows, item, anchors, now, digest, embed, randomId);
      var f := FindHash(rows1, DedupHash(item, anchors, digest));
      f.Some? && rows1[f.value].id == id
  {
    var p := Prepare(item, anchors, now, digest, embed);
    var h := p.hash.value;
    assert h == DedupHash(item, anchors, digest);
    var found := FindHash(rows, h);
    var (rows1, id) := Remembered(rows, item, anchors, now, digest, embed, randomId);
    if found.Some? {
      var e := rows[found.value];
      FindHashSameHashes(rows, rows1, h);
    } else {
      var row := ToRow(if Filled(p.id) then p else p.(id := Some(h)), now, randomId);
      var kept := RemoveId(rows, row.id);
      assert rows1 == kept + [row];
      forall k | 0 <= k < |kept|
        ensures kept[k].hash != Some(h)
      {
        var m :| 0 <= m < |rows| && rows[m] == kept[k];
      }
      var f := FindHash(rows1, h);
      assert rows1[|kept|].hash == Some(h);
      assert f.Some? && f.value == |kept|;
    }
  }

  /**
   * Deduplication: remembering a second item with the same hash (the same
   * type, normalised text and anchors) returns the first one's id and adds
   * no row.
   */
  lemma RememberDedup(rows: seq<Row>, item1: Item, item2: Item, anchors: seq<string>,
                      now1: real, now2: real, digest: string -> string, embed: string -> seq<real>,
                      random1: string, random2: string)
    requires DedupHash(item2, anchors, digest) == DedupHash(item1, anchors, digest)
    ensures var (rows1, id1) := Remembered(rows, item1, anchors, now1, digest, embed, random1);
      var (rows2, id2) := Remembered(rows1, item2, anchors, now2, digest, embed, random2);
      id2 == id1 && |rows2| == |rows1|
  {
    RememberedFindsHash(rows, item1, anchors, now1, digest, embed, random1);
  }

  /** A duplicate's row is seen now and carries the merged metadata, new keys overriding. */
  lemma RememberMergesMetadata(rows: seq<Row>, item: Item, anchors: seq<string>, now: real,
                               digest: string -> string, embed: string -> seq<real>, randomId: string, k: string)
    requires FindHash(rows, DedupHash(item, anchors, digest)).Some?
    requires Distinct(Keys(item.metadata))
    ensures var i := FindHash(rows, DedupHash(item, anchors, digest)).value;
      var (rows1, id) := Remembered(rows, item, anchors, now, digest, embed, randomId);
      id == rows[i].id && rows1[i].lastSeen == now
      && Lookup(rows1[i].metadata, k) ==
        if HasKey(item.metadata, k) then Lookup(item.metadata, k) else Lookup(rows[i].metadata, k)
  {
    var i := FindHash(rows, DedupHash(item, anchors, digest)).value;
    MergeMetaLookup(rows[i].metadata, item.metadata, k);
  }

  /** A new item without an id is stored under its hash, as the table's last row. */
  lemma RememberNewUsesHash(rows: seq<Row>, item: Item, anchors: seq<string>, now: real,
                            digest: string -> string, embed: string -> seq<real>, randomId: string)
    requires FindHash(rows, DedupHash(item, anchors, digest)).None?
    requires !Filled(item.id) && DedupHash(item, anchors, digest) != ""
    ensures var (rows1, id) := Remembered(rows, item, anchors, now, digest, embed, randomId);
      id == DedupHash(item, anchors, digest) && rows1[|rows1| - 1].id == id
      && rows1[|rows1| - 1].ttl == (if item.ttl.None? then DefaultTtl(item.itemType) else item.ttl)
  {
  }

  /** `remember` keeps the ids unique. */
  lemma RememberUnique(rows: seq<Row>, item: Item, anchors: seq<string>, now: real,
                       digest: string -> string, embed: string -> seq<real>, randomId: string)
    requires UniqueIds(rows)
    ensures UniqueIds(Remembered(rows, item, anchors, now, digest, embed, randomId).0)
  {
    var p := Prepare(item, anchors, now, digest, embed);
    var found := FindHash(rows, p.hash.value);
    if found.None? {
      var row := ToRow(if Filled(p.id) then p else p.(id := Some(p.hash.value)), now, randomId);
      RemoveIdUnique(rows, row.id);
    }
  }

  // ---------------------------------------------------------------------
  // gc

  /** A row whose TTL has run out: more than `ttl` seconds since it was created. */
  predicate Expired(r: Row, now: real)
  {
    r.ttl.Some? && now - r.createdAt > r.ttl.value
  }

  function NumExpired(rows: seq<Row>, now: real): (n: nat)
    ensures n <= |rows|
  {
    if rows == [] then 0
    else NumExpired(rows[..|rows| - 1], now) + (if Expired(rows[|rows| - 1], now) then 1 else 0)
  }

  /** The rows `gc` leaves: the unexpired ones, in their order. */
  function Kept(rows: seq<Row>, now: real): (r: seq<Row>)
    ensures |r| + NumExpired(rows, now) == |rows|
  {
    if rows == [] then []
    else
      var last := rows[|rows| - 1];
      Kept(rows[..|rows| - 1], now) + (if Expired(last, now) then [] else [last])
  }

  /** Every row `gc` leaves was in the table and has not expired. */
  lemma {:induction false} KeptSound(rows: seq<Row>, now: real)
    ensures forall k :: 0 <= k < |Kept(rows, now)| ==> Kept(rows, now)[k] in rows && !Expired(Kept(rows, now)[k], now)
  {
    if rows != [] {
      var init := rows[..|rows| - 1];
      KeptSound(init, now);
      var r := Kept(rows, now);
      forall k | 0 <= k < |r|
        ensures r[k] in rows && !Expired(r[k], now)
      {
        if k < |Kept(init, now)| {
          assert r[k] == Kept(init, now)[k];
          assert r[k] in init;
        }
      }
    }
  }

  /** `gc` removes exactly the expired rows: every unexpired row stays. */
  lemma {:induction false} KeptComplete(rows: seq<Row>, now: real, j: nat)
    requires j < |rows| && !Expired(rows[j], now)
    ensures rows[j] in Kept(rows, now)
  {
    if j < |rows| - 1 {
      KeptComplete(rows[..|rows| - 1], now, j);
    }
  }

  /** `gc` keeps the ids unique. */
  lemma {:induction false} KeptUnique(rows: seq<Row>, now: real)
    requires UniqueIds(rows)
    ensures UniqueIds(Kept(rows, now))
  {
    if rows != [] {
      var init := rows[..|rows| - 1];
      var last := rows[|rows| - 1];
      KeptUnique(init, now);
      KeptSound(init, now);
      var ki := Kept(init, now);
      forall k | 0 <= k < |ki|
        ensures ki[k].id != last.id
      {
        var m :| 0 <= m < |init| && init[m] == ki[k];
        assert rows[m] == ki[k];
      }
    }
  }

  /** A table holding an expired row loses at least one row to `gc`. */
  lemma {:induction false} ExpiredIsCounted(rows: seq<Row>, now: real, j: nat)
    requires j < |rows| && Expired(rows[j], now)
    ensures NumExpired(rows, now) >= 1 && |Kept(rows, now)| < |rows|
  {
    if j < |rows| - 1 {
      ExpiredIsCounted(rows[..|rows| - 1], now, j);
    }
  }

  /** In a table of unique ids, the rows kept before position `i` do not hold the id at `i`. */
  lemma KeptLacksNext(all: seq<Row>, i: nat, now: real)
    requires i < |all| && UniqueIds(all)
    ensures !HasId(Kept(all[..i], now), all[i].id)
  {
    var kept := Kept(all[..i], now);
    KeptSound(all[..i], now);
    forall k | 0 <= k < |kept|
      ensures kept[k].id != all[i].id
    {
      var m :| 0 <= m < |all[..i]| && all[..i][m] == kept[k];
      assert all[m] == kept[k];
    }
  }

  /** In a table of unique ids, the rows after position `i` do not hold the id at `i`. */
  lemma TailLacksNext(all: seq<Row>, i: nat)
    requires i < |all| && UniqueIds(all)
    ensures !HasId(all[i + 1..], all[i].id)
  {
    var tail := all[i + 1..];
    forall k | 0 <= k < |tail|
      ensures tail[k].id != all[i].id
    {
      assert tail[k] == all[i + 1 + k];
    }
  }

  /** Deleting the next row to check, when it is expired, from a table of unique ids. */
  lemma GcStepExpired(all: seq<Row>, i: nat, now: real)
    requires i < |all| && UniqueIds(all) && Expired(all[i], now)
    ensures RemoveId(Kept(all[..i], now) + all[i..], all[i].id) == Kept(all[..i + 1], now) + all[i + 1..]
  {
    RemoveNext(all, i, now);
    KeptStep(all, i, now);
  }

  /** Deleting the id at position `i` from the rows kept so far and the rows still to check leaves both without it. */
  lemma RemoveNext(all: seq<Row>, i: nat, now: real)
    requires i < |all| && UniqueIds(all)
    ensures RemoveId(Kept(all[..i], now) + all[i..], all[i].id) == Kept(all[..i], now) + all[i + 1..]
  {
    var kept := Kept(all[..i], now);
    var id := all[i].id;
    var tail := all[i + 1..];
    assert all[i..] == [all[i]] + tail;
    assert RemoveId(kept, id) == kept by {
      KeptLacksNext(all, i, now);
    }
    assert RemoveId(tail, id) == tail by {
      TailLacksNext(all, i);
    }
    assert RemoveId([all[i]] + tail, id) == tail by {
      RemoveIdConcat([all[i]], tail, id);
      assert RemoveId([all[i]], id) == [];
    }
    RemoveIdConcat(kept, [all[i]] + tail, id);
  }

  /** Checking one more row keeps it exactly when it has not expired. */
  lemma KeptStep(all: seq<Row>, i: nat, now: real)
    requires i < |all|
    ensures Kept(all[..i + 1], now) == Kept(all[..i], now) + (if Expired(all[i], now) then [] else [all[i]])
  {
    assert all[..i + 1][..i] == all[..i];
  }

  /** The row about to be checked is still in the table `gc` is working on. */
  lemma NextStillThere(all: seq<Row>, i: nat, now: real)
    requires i < |all|
    ensures HasId(Kept(all[..i], now) + all[i..], all[i].id)
  {
    assert (Kept(all[..i], now) + all[i..])[|Kept(all[..i], now)|] == all[i];
  }

  /** Checking one more row counts it when it has expired. */
  lemma NumExpiredStep(all: seq<Row>, i: nat, now: real)
    requires i < |all|
    ensures NumExpired(all[..i + 1], now) == NumExpired(all[..i], now) + (if Expired(all[i], now) then 1 else 0)
  {
    assert all[..i + 1][..i] == all[..i];
  }

  /** Passing over the next row to check, when it has not expired. */
  lemma GcStepKept(all: seq<Row>, i: nat, now: real)
    requires i < |all| && !Expired(all[i], now)
    ensures Kept(all[..i], now) + all[i..] == Kept(all[..i + 1], now) + all[i + 1..]
  {
    KeptStep(all, i, now);
    assert all[i..] == [all[i]] + all[i + 1..];
  }

  // ---------------------------------------------------------------------
  // recall

  /** The dense score of every row: the cosine of the query's embedding and the row's. */
  function DenseScores(rows: seq<Row>, qEmb: seq<real>, cosine: (seq<real>, seq<real>) -> real): (m: seq<(string, real)>)
    ensures |m| == |rows| && forall k :: 0 <= k < |rows| ==> m[k] == (rows[k].id, cosine(qEmb, rows[k].embedding))
  {
    seq(|rows|, k requires 0 <= k < |rows| => (rows[k].id, cosine(qEmb, rows[k].embedding)))
  }

  /** How many rows the token-overlap fallback of `query_text_match` reads. */
  const SparseLimit: nat := 200

  /** The rows' overlap with the query tokens, over their text and metadata text; rows with none are dropped. */
  function SparseOf(rows: seq<Row>, qTokens: seq<string>, dumps: seq<(string, Json)> -> string): (m: seq<(string, real)>)
    ensures |m| <= |rows|
    ensures forall k :: 0 <= k < |m| ==> 0.0 < m[k].1 <= 1.0
  {
    if rows == [] then []
    else
      var r := rows[0];
      var score := Jaccard(qTokens, Tokenize(r.text + " " + dumps(r.metadata)));
      (if score > 0.0 then [(r.id, score)] else []) + SparseOf(rows[1..], qTokens, dumps)
  }

  /** `query_text_match(query, limit=200)` without a full-text index. */
  function SparseScores(rows: seq<Row>, query: string, dumps: seq<(string, Json)> -> string): (m: seq<(string, real)>)
  {
    SparseOf(if |rows| <= SparseLimit then rows else rows[..SparseLimit], Tokenize(query), dumps)
  }

  /** `recall`'s filters: a type to match, and metadata entries the row must hold. */
  function PassesFilters(r: Row, filters: seq<(string, Json)>): (res: Result<bool>)
    ensures filters == [] ==> res == Ok(true)
    ensures res.Err? <==> (filters != [] && !(Truthy(GetOr(filters, "type", JNull)) && JStr(r.itemType) != GetOr(filters, "type", JNull))
      && Truthy(GetOr(filters, "metadata_contains", JNull)) && !GetOr(filters, "metadata_contains", JNull).JObj?)
  {
    if filters == [] then Ok(true)
    else
      var typ := GetOr(filters, "type", JNull);
      if Truthy(typ) && JStr(r.itemType) != typ then Ok(false)
      else
        var wanted := GetOr(filters, "metadata_contains", JNull);
        if !Truthy(wanted) then Ok(true)
        else if !wanted.JObj? then Err("AttributeError: 'metadata_contains' has no items()")
        else Ok(MetaContains(r.metadata, wanted.fields))
  }

  /** Every wanted entry is in the metadata; a missing key reads as None. */
  predicate MetaContains(metadata: seq<(string, Json)>, wanted: seq<(string, Json)>)
  {
    forall k :: 0 <= k < |wanted| ==> GetOr(metadata, wanted[k].0, JNull) == wanted[k].1
  }

  /** A row `recall` may return: it passes the filters and has not expired. */
  predicate Admitted(r: Row, filters: seq<(string, Json)>, now: real)
  {
    PassesFilters(r, filters) == Ok(true) && !Expired(r, now)
  }

  /** The time decay counts from: last seen, else created, else now. */
  function SeenAt(r: Row, now: real): real
  {
    if r.lastSeen != 0.0 then r.lastSeen else if r.createdAt != 0.0 then r.createdAt else now
  }

  /** `_days_since`: whole and partial days since `ts`, never negative. */
  function DaysSince(ts: real, now: real): (d: real)
    ensures d >= 0.0
  {
    if (now - ts) / 86400.0 >= 0.0 then (now - ts) / 86400.0 else 0.0
  }

  /** `_apply_time_decay`: a positive per-day decay scales the score by `exp(-decay * days)`. */
  function Decayed(base: real, r: Row, now: real, exp: real -> real): (s: real)
    ensures r.decay <= 0.0 ==> s == base
  {
    if r.decay > 0.0 then base * exp(-r.decay * DaysSince(SeenAt(r, now), now)) else base
  }

  /** With an `exp` that stays in [0, 1] for non-positive arguments, decay never raises a non-negative score. */
  lemma DecayNeverRaises(base: real, r: Row, now: real, exp: real -> real)
    requires base >= 0.0
    requires forall x :: x <= 0.0 ==> 0.0 <= exp(x) <= 1.0
    ensures 0.0 <= Decayed(base, r, now, exp) <= base
  {
    if r.decay > 0.0 {
      var days := DaysSince(SeenAt(r, now), now);
      MulNonneg(r.decay, days);
      var x := -r.decay * days;
      assert x <= 0.0;
      Scale(base, exp(x));
    }
  }

  /**
   * The scored candidates, in table order: each admitted row with its fused
   * (0.7 dense, 0.3 sparse) and decayed score; a `metadata_contains` that
   * is not a dict raises.
   */
  function Scored(rows: seq<Row>, nd: seq<(string, real)>, ns: seq<(string, real)>,
                  filters: seq<(string, Json)>, now: real, exp: real -> real): (res: Result<seq<(Row, real)>>)
    ensures res.Err? <==> FilterFails(rows, filters)
  {
    if rows == [] then Ok([])
    else
      var r := rows[0];
      var pass := PassesFilters(r, filters);
      var rest := Scored(rows[1..], nd, ns, filters, now, exp);
      if pass.Err? then Err(pass.error)
      else if rest.Err? then rest
      else if !Admitted(r, filters, now) then rest
      else
        var fused := FusionScore(ScoreOf(nd, r.id), ScoreOf(ns, r.id), Alpha);
        Ok([(r, Decayed(fused, r, now, exp))] + rest.value)
  }

  /** The scored candidates are the admitted rows, in table order. */
  lemma {:induction false} ScoredRows(rows: seq<Row>, nd: seq<(string, real)>, ns: seq<(string, real)>,
                                      filters: seq<(string, Json)>, now: real, exp: real -> real)
    ensures var res := Scored(rows, nd, ns, filters, now, exp);
      res.Ok? ==> FirstsOf(res.value) == AdmittedRows(rows, filters, now)
  {
    if rows != [] {
      ScoredRows(rows[1..], nd, ns, filters, now, exp);
      var res := Scored(rows, nd, ns, filters, now, exp);
      var rest := Scored(rows[1..], nd, ns, filters, now, exp);
      if res.Ok? && Admitted(rows[0], filters, now) {
        assert res.value == [res.value[0]] + rest.value;
        assert FirstsOf(res.value) == [rows[0]] + FirstsOf(rest.value);
      }
    }
  }

  /** Some row, in table order, reaches a filter that raises. */
  predicate FilterFails(rows: seq<Row>, filters: seq<(string, Json)>)
  {
    rows != [] && (PassesFilters(rows[0], filters).Err? || FilterFails(rows[1..], filters))
  }

  /** A filter fails on the table exactly when it fails on one of its rows. */
  lemma {:induction false} FilterFailsSome(rows: seq<Row>, filters: seq<(string, Json)>)
    ensures FilterFails(rows, filters) <==> exists j :: 0 <= j < |rows| && PassesFilters(rows[j], filters).Err?
  {
    if rows != [] {
      FilterFailsSome(rows[1..], filters);
      if exists j :: 0 <= j < |rows| && PassesFilters(rows[j], filters).Err? {
        var j :| 0 <= j < |rows| && PassesFilters(rows[j], filters).Err?;
        if j > 0 {
          assert rows[1..][j - 1] == rows[j];
        }
      }
      if exists j :: 0 <= j < |rows[1..]| && PassesFilters(rows[1..][j], filters).Err? {
        var j :| 0 <= j < |rows[1..]| && PassesFilters(rows[1..][j], filters).Err?;
        assert rows[j + 1] == rows[1..][j];
      }
    }
  }

  /** The admitted rows, in table order. */
  function AdmittedRows(rows: seq<Row>, filters: seq<(string, Json)>, now: real): (r: seq<Row>)
    ensures |r| <= |rows|
    ensures forall k :: 0 <= k < |r| ==> r[k] in rows && Admitted(r[k], filters, now)
  {
    if rows == [] then []
    else (if Admitted(rows[0], filters, now) then [rows[0]] else []) + AdmittedRows(rows[1..], filters, now)
  }

  /** Every admitted row is a candidate. */
  lemma {:induction false} AdmittedComplete(rows: seq<Row>, filters: seq<(string, Json)>, now: real, j: nat)
    requires j < |rows| && Admitted(rows[j], filters, now)
    ensures rows[j] in AdmittedRows(rows, filters, now)
  {
    if j > 0 {
      assert rows[1..][j - 1] == rows[j];
      AdmittedComplete(rows[1..], filters, now, j - 1);
    }
  }

  /** Without filters `recall` cannot raise. */
  lemma ScoredWithoutFilters(rows: seq<Row>, nd: seq<(string, real)>, ns: seq<(string, real)>, now: real, exp: real -> real)
    ensures Scored(rows, nd, ns, [], now, exp).Ok?
  {
  }

  /** Without filters `recall` always returns. */
  lemma RecalledWithoutFilters(rows: seq<Row>, query: string, k: int, now: real,
                               qEmb: seq<real>, cosine: (seq<real>, seq<real>) -> real,
                               dumps: seq<(string, Json)> -> string, exp: real -> real)
    ensures Recalled(rows, query, k, [], now, qEmb, cosine, dumps, exp).Ok?
  {
    ScoredWithoutFilters(rows, NormMap(DenseScores(rows, qEmb, cosine)), NormMap(SparseScores(rows, query, dumps)), now, exp);
  }

  predicate SortedDesc(xs: seq<(Row, real)>)
  {
    forall i, j :: 0 <= i < j < |xs| ==> xs[i].1 >= xs[j].1
  }

  /** The sort key of a scored candidate. */
  function CandidateScore(x: (Row, real)): real
  {
    x.1
  }

  /** `scored.sort(key=score, reverse=True)`: highest score first, the same entries, ties in their first order. */
  function SortDesc(xs: seq<(Row, real)>): (r: seq<(Row, real)>)
    ensures |r| == |xs| && SortedDesc(r) && multiset(r) == multiset(xs)
  {
    Sorting.RealKeyStrictWeak(CandidateScore);
    Sorting.SortDescSorted(xs, Sorting.ByRealKey(CandidateScore));
    ScoreDescending(Sorting.SortDesc(xs, Sorting.ByRealKey(CandidateScore)));
    Sorting.SortDesc(xs, Sorting.ByRealKey(CandidateScore))
  }

  /** Descending by the score key is descending by score. */
  lemma ScoreDescending(xs: seq<(Row, real)>)
    requires Sorting.Descending(xs, Sorting.ByRealKey(CandidateScore))
    ensures SortedDesc(xs)
  {
    forall i, j | 0 <= i < j < |xs|
      ensures xs[i].1 >= xs[j].1
    {
      assert !Sorting.ByRealKey(CandidateScore)(xs[i], xs[j]);
      assert Sorting.ByRealKey(CandidateScore)(xs[i], xs[j]) == (CandidateScore(xs[i]) < CandidateScore(xs[j]));
    }
  }

  /** Python's `xs[:k]`; a negative `k` drops that many from the end. */
  function PyHead<T>(xs: seq<T>, k: int): (r: seq<T>)
    ensures |r| <= |xs| && r == xs[..|r|]
    ensures k >= 0 ==> |r| == if k < |xs| then k else |xs|
    ensures k < 0 ==> |r| == if |xs| + k > 0 then |xs| + k else 0
  {
    if k >= 0 then (if k < |xs| then xs[..k] else xs)
    else if |xs| + k > 0 then xs[..|xs| + k] else []
  }

  /**
   * `recall`: the admitted rows, best first, at most `k` of them, each with
   * its score. The dense and sparse scores are normalised before they fuse.
   */
  function Recalled(rows: seq<Row>, query: string, k: int, filters: seq<(string, Json)>, now: real,
                    qEmb: seq<real>, cosine: (seq<real>, seq<real>) -> real,
                    dumps: seq<(string, Json)> -> string, exp: real -> real): (res: Result<seq<(Row, real)>>)
  {
    var nd := NormMap(DenseScores(rows, qEmb, cosine));
    var ns := NormMap(SparseScores(rows, query, dumps));
    var scored := Scored(rows, nd, ns, filters, now, exp);
    if scored.Err? then Err(scored.error) else Ok(PyHead(SortDesc(scored.value), k))
  }

  /**
   * What `recall` returns: at most `k` rows, in descending score, each
   * admitted (it passes the filters and has not expired); every candidate
   * left out scores no higher than any returned.
   */
  lemma RecallSound(rows: seq<Row>, query: string, k: int, filters: seq<(string, Json)>, now: real,
                    qEmb: seq<real>, cosine: (seq<real>, seq<real>) -> real,
                    dumps: seq<(string, Json)> -> string, exp: real -> real)
    ensures var res := Recalled(rows, query, k, filters, now, qEmb, cosine, dumps, exp);
      res.Ok? ==>
        (k >= 0 ==> |res.value| <= k)
        && SortedDesc(res.value)
        && (forall i :: 0 <= i < |res.value| ==> res.value[i].0 in rows && Admitted(res.value[i].0, filters, now))
  {
    var nd := NormMap(DenseScores(rows, qEmb, cosine));
    var ns := NormMap(SparseScores(rows, query, dumps));
    var scored := Scored(rows, nd, ns, filters, now, exp);
    if scored.Ok? {
      var top := PyHead(SortDesc(scored.value), k);
      assert Recalled(rows, query, k, filters, now, qEmb, cosine, dumps, exp) == Ok(top);
      forall i | 0 <= i < |top|
        ensures top[i].0 in rows && Admitted(top[i].0, filters, now)
      {
        TopAdmitted(scored.value, rows, k, filters, now, i) by {
          ScoredRows(rows, nd, ns, filters, now, exp);
        }
      }
    }
  }

  /** The best `k` of candidates that are admitted rows are admitted rows. */
  lemma TopAdmitted(scored: seq<(Row, real)>, rows: seq<Row>, k: int, filters: seq<(string, Json)>, now: real, i: nat)
    requires FirstsOf(scored) == AdmittedRows(rows, filters, now)
    requires i < |PyHead(SortDesc(scored), k)|
    ensures PyHead(SortDesc(scored), k)[i].0 in rows && Admitted(PyHead(SortDesc(scored), k)[i].0, filters, now)
  {
    var m := TopFromCandidates(scored, k, i);
    assert scored[m].0 == FirstsOf(scored)[m];
  }

  /** Every entry `recall` keeps is one of the scored candidates. */
  lemma TopFromCandidates(scored: seq<(Row, real)>, k: int, i: nat) returns (m: nat)
    requires i < |PyHead(SortDesc(scored), k)|
    ensures m < |scored| && scored[m] == PyHead(SortDesc(scored), k)[i]
  {
    var sorted := SortDesc(scored);
    assert PyHead(sorted, k)[i] == sorted[i];
    assert sorted[i] in multiset(scored);
    m :| 0 <= m < |scored| && scored[m] == sorted[i];
  }

  /** `recall` raises exactly when some row reaches a `metadata_contains` that is not a dict. */
  lemma RecallErrors(rows: seq<Row>, query: string, k: int, filters: seq<(string, Json)>, now: real,
                     qEmb: seq<real>, cosine: (seq<real>, seq<real>) -> real,
                     dumps: seq<(string, Json)> -> string, exp: real -> real)
    ensures Recalled(rows, query, k, filters, now, qEmb, cosine, dumps, exp).Err? <==>
      exists j :: 0 <= j < |rows| && PassesFilters(rows[j], filters).Err?
  {
    FilterFailsSome(rows, filters);
  }

  /** The candidates `recall` leaves out score no higher than the ones it returns. */
  lemma RecallTopK(scored: seq<(Row, real)>, k: int, i: nat, j: nat)
    requires i < |PyHead(SortDesc(scored), k)| <= j < |scored|
    ensures PyHead(SortDesc(scored), k)[i].1 >= SortDesc(scored)[j].1
  {
  }

  function FirstsOf(xs: seq<(Row, real)>): (r: seq<Row>)
    ensures |r| == |xs| && forall k :: 0 <= k < |xs| ==> r[k] == xs[k].0
  {
    seq(|xs|, k requires 0 <= k < |xs| => xs[k].0)
  }

  /** Every row with one of the ids marked as seen now. */
  function Touched(rows: seq<Row>, ids: seq<string>, now: real): (r: seq<Row>)
    ensures |r| == |rows|
    ensures forall k :: 0 <= k < |rows| ==> r[k] == if rows[k].id in ids then rows[k].(lastSeen := now) else rows[k]
  {
    seq(|rows|, k requires 0 <= k < |rows| => if rows[k].id in ids then rows[k].(lastSeen := now) else rows[k])
  }

  function IdsOf(rs: seq<Row>): (r: seq<string>)
    ensures |r| == |rs| && forall k :: 0 <= k < |rs| ==> r[k] == rs[k].id
  {
    seq(|rs|, k requires 0 <= k < |rs| => rs[k].id)
  }

  /** Refreshing one more id is touching it too; nothing but the last-seen time changes. */
  lemma TouchedStep(rows: seq<Row>, ids: seq<string>, i: nat, now: real)
    requires i < |ids|
    ensures Refresh(Touched(rows, ids[..i], now), ids[i], now, None) == Touched(rows, ids[..i + 1], now)
  {
    assert ids[..i + 1] == ids[..i] + [ids[i]];
    var a := Refresh(Touched(rows, ids[..i], now), ids[i], now, None);
    var b := Touched(rows, ids[..i + 1], now);
    forall k | 0 <= k < |rows|
      ensures a[k] == b[k]
    {
      assert rows[k].id in ids[..i + 1] <==> rows[k].id in ids[..i] || rows[k].id == ids[i];
    }
  }

  /** Touching keeps every row's id and hash where it was. */
  lemma TouchedKeepsIds(rows: seq<Row>, ids: seq<string>, now: real)
    ensures IdsOf(Touched(rows, ids, now)) == IdsOf(rows)
    ensures forall k :: 0 <= k < |rows| ==> Touched(rows, ids, now)[k].hash == rows[k].hash
  {
  }
}
