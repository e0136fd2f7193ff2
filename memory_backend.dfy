// The memory table as one object: the SQLite backend's rows, updated in
// place by `remember`, `forget`, `gc` and `recall`. The clock, the random
// id, the digest, the embedder, `math.exp`, the cosine and `json.dumps`
// enter as parameters.
module MemoryBackend {
  import opened Wrappers
  import opened Json
  import opened MemoryStore
  import opened MemoryInject

  class Store {
    /** The rows of the `memories` table, in insertion order. */
    var rows: seq<Row>

    /** `id` is the table's primary key. */
    ghost predicate Valid()
      reads this
    {
      UniqueIds(rows)
    }

    constructor ()
      ensures rows == [] && Valid()
    {
      rows := [];
    }

    /** `find_by_hash`: the first row with the hash, if any. */
    function FindByHash(h: string): (r: Option<Row>)
      reads this
      ensures r.Some? ==> r.value in rows && r.value.hash == Some(h)
      ensures r.None? ==> forall k :: 0 <= k < |rows| ==> rows[k].hash != Some(h)
    {
      var f := FindHash(rows, h);
      if f.Some? then Some(rows[f.value]) else None
    }

    /** `upsert` (INSERT OR REPLACE): the item's row replaces any row with its id and goes last. */
    method Upsert(item: Item, now: real, randomId: string) returns (id: string)
      modifies this
      ensures id == ToRow(item, now, randomId).id
      ensures rows == RemoveId(old(rows), id) + [ToRow(item, now, randomId)]
      ensures old(Valid()) ==> Valid()
    {
      var row := ToRow(item, now, randomId);
      ghost var before := rows;
      rows := RemoveId(rows, row.id) + [row];
      id := row.id;
      if UniqueIds(before) {
        RemoveIdUnique(before, row.id);
      }
    }

    /** `update_fields` with a last-seen time and possibly new metadata: true when the id is in the table. */
    method UpdateFields(id: string, lastSeen: real, metadata: Option<seq<(string, Json)>>) returns (updated: bool)
      modifies this
      ensures updated <==> HasId(old(rows), id)
      ensures rows == Refresh(old(rows), id, lastSeen, metadata)
      ensures old(Valid()) ==> Valid()
    {
      ghost var before := rows;
      updated := exists k :: 0 <= k < |rows| && rows[k].id == id;
      rows := Refresh(rows, id, lastSeen, metadata);
      assert IdsOf(rows) == IdsOf(before) by {
        forall k | 0 <= k < |rows|
          ensures rows[k].id == before[k].id
        {
        }
      }
      if UniqueIds(before) {
        forall i, j | 0 <= i < j < |rows|
          ensures rows[i].id != rows[j].id
        {
          assert rows[i].id == before[i].id && rows[j].id == before[j].id;
        }
      }
    }

    /** `delete` and `forget`: the row with the id goes; true when there was one. The ids stay unique by `RemoveIdUnique`. */
    method Forget(id: string) returns (deleted: bool)
      modifies this
      ensures deleted <==> HasId(old(rows), id)
      ensures rows == RemoveId(old(rows), id)
    {
      deleted := exists k :: 0 <= k < |rows| && rows[k].id == id;
      rows := RemoveId(rows, id);
    }

    /**
     * `remember`: a row with the item's hash is refreshed (seen now, its
     * metadata merged with the item's) and keeps its id; otherwise the
     * prepared item is written, under its hash when it has no id.
     */
    method Remember(item: Item, anchors: seq<string>, now: real,
                    digest: string -> string, embed: string -> seq<real>, randomId: string) returns (id: string)
      modifies this
      ensures (rows, id) == Remembered(old(rows), item, anchors, now, digest, embed, randomId)
      ensures old(Valid()) ==> Valid()
    {
      var p := Prepare(item, anchors, now, digest, embed);
      var existing := FindByHash(p.hash.value);
      if existing.Some? {
        var e := existing.value;
        var _ := UpdateFields(e.id, now, Some(MergeMeta(e.metadata, p.metadata)));
        id := e.id;
      } else {
        var toWrite := if Filled(p.id) then p else p.(id := Some(p.hash.value));
        id := Upsert(toWrite, now, randomId);
      }
    }

    /** `gc`: every expired row is deleted; the result is how many were. */
    method Gc(now: real) returns (deleted: int)
      requires Valid()
      modifies this
      ensures rows == Kept(old(rows), now)
      ensures deleted == NumExpired(old(rows), now)
      ensures Valid()
    {
      var all := rows;
      deleted := 0;
      var i := 0;
      assert all[..0] == [];
      while i < |all|
        invariant 0 <= i <= |all|
        invariant rows == Kept(all[..i], now) + all[i..]
        invariant deleted == NumExpired(all[..i], now)
      {
        var item := all[i];
        ghost var next := Kept(all[..i + 1], now) + all[i + 1..];
        NumExpiredStep(all, i, now);
        if Expired(item, now) {
          GcStepExpired(all, i, now);
          NextStillThere(all, i, now);
          var gone := Forget(item.id);
          if gone {
            deleted := deleted + 1;
          }
        } else {
          GcStepKept(all, i, now);
        }
        assert rows == next;
        i := i + 1;
      }
      assert all[..i] == all;
      KeptUnique(all, now);
    }

    /**
     * `recall`: the best `k` admitted rows, as they were before the call;
     * each returned row is then marked as seen now. A filter that raises
     * changes nothing.
     */
    method Recall(query: string, k: int, filters: seq<(string, Json)>, now: real,
                  qEmb: seq<real>, cosine: (seq<real>, seq<real>) -> real,
                  dumps: seq<(string, Json)> -> string, exp: real -> real) returns (res: Result<seq<Row>>)
      modifies this
      ensures var rec := Recalled(old(rows), query, k, filters, now, qEmb, cosine, dumps, exp);
        (rec.Err? ==> res.Err? && rows == old(rows))
        && (rec.Ok? ==> res == Ok(FirstsOf(rec.value)) && rows == Touched(old(rows), IdsOf(FirstsOf(rec.value)), now))
      ensures old(Valid()) ==> Valid()
    {
      var rec := Recalled(rows, query, k, filters, now, qEmb, cosine, dumps, exp);
      if rec.Err? {
        res := Err(rec.error);
        return;
      }
      var top := FirstsOf(rec.value);
      ghost var ids := IdsOf(top);
      ghost var before := rows;
      assert rows == Touched(before, ids[..0], now);
      var i := 0;
      while i < |top|
        invariant 0 <= i <= |top|
        invariant rows == Touched(before, ids[..i], now)
        invariant UniqueIds(before) ==> Valid()
      {
        TouchedStep(before, ids, i, now);
        var _ := UpdateFields(top[i].id, now, None);
        i := i + 1;
      }
      assert ids[..i] == ids;
      res := Ok(top);
    }

    /**
     * `inject_relevant_memory`: the lines of `recall(turn, k=20)`, packed
     * while they fit the token budget; the recalled rows are marked as seen.
     */
    method InjectRelevantMemory(turn: string, budget: int, now: real,
                                qEmb: seq<real>, cosine: (seq<real>, seq<real>) -> real,
                                dumps: seq<(string, Json)> -> string, exp: real -> real) returns (block: string)
      modifies this
      ensures var rec := Recalled(old(rows), turn, InjectCandidates, [], now, qEmb, cosine, dumps, exp);
        rec.Ok? && block == Context(FirstsOf(rec.value), budget)
        && rows == Touched(old(rows), IdsOf(FirstsOf(rec.value)), now)
      ensures old(Valid()) ==> Valid()
    {
      RecalledWithoutFilters(rows, turn, InjectCandidates, now, qEmb, cosine, dumps, exp);
      var res := Recall(turn, InjectCandidates, [], now, qEmb, cosine, dumps, exp);
      block := PackContext(res.value, budget, TokCount);
    }
  }
}
