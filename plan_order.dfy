// The dependency graph that the executor's topological sort builds from a
// plan's steps, described by functions of the step list, and the facts the
// sort's proof rests on.
module PlanOrder {
  import opened PlanTypes
  import opened Seqs

  /** All dependencies recorded against the id `x`: the depends_on lists of every step with that id, in order. */
  function InEdges(steps: seq<PlanStep>, x: string): seq<string>
  {
    if steps == [] then []
    else
      var last := steps[|steps| - 1];
      InEdges(steps[..|steps| - 1], x) + (if last.id == x then last.dependsOn else [])
  }

  /** The id `id` once for every entry of `deps` equal to `c`. */
  function Hits(deps: seq<string>, c: string, id: string): seq<string>
  {
    if deps == [] then []
    else Hits(deps[..|deps| - 1], c, id) + (if deps[|deps| - 1] == c then [id] else [])
  }

  lemma HitsSnoc(deps: seq<string>, j: nat, c: string, id: string)
    requires j < |deps|
    ensures Hits(deps[..j + 1], c, id) == Hits(deps[..j], c, id) + (if deps[j] == c then [id] else [])
  {
    assert deps[..j + 1][..j] == deps[..j];
  }

  /** `graph[c]` once the build loop has seen `steps`: one entry per (step, dependency `c`) pair. */
  function Dependents(steps: seq<PlanStep>, c: string): seq<string>
  {
    if steps == [] then []
    else
      var last := steps[|steps| - 1];
      Dependents(steps[..|steps| - 1], c) + Hits(last.dependsOn, c, last.id)
  }

  /** How many entries of `xs` lie outside `done`. */
  function Outside(xs: seq<string>, done: set<string>): (r: nat)
    ensures r == 0 <==> forall d :: d in xs ==> d in done
  {
    if xs == [] then 0
    else Outside(xs[..|xs| - 1], done) + (if xs[|xs| - 1] in done then 0 else 1)
  }

  /** `{step.id: step for step in steps}`: a later step overwrites an earlier one with the same id. */
  function StepMap(steps: seq<PlanStep>): (m: map<string, PlanStep>)
    ensures m.Keys == Elems(Ids(steps))
    ensures forall x :: x in m ==> m[x].id == x && m[x] in steps
  {
    if steps == [] then map[]
    else
      var last := steps[|steps| - 1];
      assert Ids(steps) == Ids(steps[..|steps| - 1]) + [last.id];
      StepMap(steps[..|steps| - 1])[last.id := last]
  }

  /** The keys of that map, in first-insertion order. */
  function KeyOrder(ids: seq<string>): (r: seq<string>)
    ensures Distinct(r) && Elems(r) == Elems(ids)
    ensures Distinct(ids) ==> r == ids
  {
    if ids == [] then []
    else
      var k := KeyOrder(ids[..|ids| - 1]);
      var last := ids[|ids| - 1];
      assert ids == ids[..|ids| - 1] + [last];
      assert Distinct(ids) ==> Distinct(ids[..|ids| - 1]) && last !in ids[..|ids| - 1];
      assert Elems(ids) == Elems(ids[..|ids| - 1]) + {last};
      assert last in k <==> last in Elems(k);
      if last in k then k else k + [last]
  }

  /** The steps with no dependencies, in declaration order. */
  function Roots(steps: seq<PlanStep>): (r: seq<PlanStep>)
    ensures forall s :: s in r <==> s in steps && s.dependsOn == []
  {
    if steps == [] then []
    else
      var last := steps[|steps| - 1];
      Roots(steps[..|steps| - 1]) + (if last.dependsOn == [] then [last] else [])
  }

  /** The initial queue: the keys, in order, whose in-degree is zero. */
  function Ready(keys: seq<string>, inDegree: map<string, int>): (r: seq<string>)
    requires forall k :: k in keys ==> k in inDegree
    ensures forall x :: x in r <==> x in keys && inDegree[x] == 0
    ensures Distinct(keys) ==> Distinct(r)
  {
    if keys == [] then []
    else
      var last := keys[|keys| - 1];
      Ready(keys[..|keys| - 1], inDegree) + (if inDegree[last] == 0 then [last] else [])
  }

  /** Every dependency of a step is an earlier step's id. */
  predicate DepsBefore(order: seq<PlanStep>)
  {
    forall i, d :: 0 <= i < |order| && d in order[i].dependsOn ==> d in Ids(order[..i])
  }

  /** An execution order for the plan: a rearrangement of its steps in which dependencies come first. */
  predicate ValidOrder(steps: seq<PlanStep>, order: seq<PlanStep>)
  {
    multiset(order) == multiset(steps) && DepsBefore(order)
  }

  // ---- facts about the graph ----

  lemma {:induction false} HitsCount(deps: seq<string>, c: string, id: string, x: string)
    ensures multiset(Hits(deps, c, id))[x] == if id == x then multiset(deps)[c] else 0
  {
    if deps != [] {
      var init := deps[..|deps| - 1];
      HitsCount(init, c, id, x);
      assert deps == init + [deps[|deps| - 1]];
    }
  }

  /** `x` appears in `graph[c]` as often as `c` appears among the dependencies of `x`. */
  lemma {:induction false} DependentsCount(steps: seq<PlanStep>, c: string, x: string)
    ensures multiset(Dependents(steps, c))[x] == multiset(InEdges(steps, x))[c]
  {
    if steps != [] {
      var last := steps[|steps| - 1];
      DependentsCount(steps[..|steps| - 1], c, x);
      HitsCount(last.dependsOn, c, last.id, x);
    }
  }

  lemma {:induction false} HitsIds(deps: seq<string>, c: string, id: string)
    ensures forall y :: y in Hits(deps, c, id) ==> y == id
  {
    if deps != [] {
      HitsIds(deps[..|deps| - 1], c, id);
    }
  }

  /** Everything in `graph[c]` is the id of some step. */
  lemma {:induction false} DependentsAreIds(steps: seq<PlanStep>, c: string)
    ensures forall y :: y in Dependents(steps, c) ==> y in Ids(steps)
  {
    if steps != [] {
      var init := steps[..|steps| - 1];
      var last := steps[|steps| - 1];
      DependentsAreIds(init, c);
      HitsIds(last.dependsOn, c, last.id);
      assert Ids(steps) == Ids(init) + [last.id];
    }
  }

  lemma {:induction false} OutsideEmpty(xs: seq<string>)
    ensures Outside(xs, {}) == |xs|
  {
    if xs != [] {
      OutsideEmpty(xs[..|xs| - 1]);
    }
  }

  /** Retiring one more finished step `c` lowers the count by the occurrences of `c`. */
  lemma {:induction false} OutsideRetire(xs: seq<string>, done: set<string>, c: string)
    requires c !in done
    ensures Outside(xs, done) == Outside(xs, done + {c}) + multiset(xs)[c]
  {
    if xs != [] {
      var init := xs[..|xs| - 1];
      OutsideRetire(init, done, c);
      assert xs == init + [xs[|xs| - 1]];
    }
  }

  /** A step's own dependencies are among those recorded against its id. */
  lemma {:induction false} DepsInEdges(steps: seq<PlanStep>, s: PlanStep)
    requires s in steps
    ensures forall d :: d in s.dependsOn ==> d in InEdges(steps, s.id)
  {
    var last := steps[|steps| - 1];
    if s != last {
      assert steps == steps[..|steps| - 1] + [last];
      DepsInEdges(steps[..|steps| - 1], s);
    }
  }

  /** With unique ids, a step is the only one recorded under its id. */
  lemma {:induction false} UniqueIdEdges(steps: seq<PlanStep>, i: nat)
    requires Distinct(Ids(steps)) && i < |steps|
    ensures InEdges(steps, steps[i].id) == steps[i].dependsOn
    ensures StepMap(steps)[steps[i].id] == steps[i]
  {
    var n := |steps| - 1;
    var init := steps[..n];
    assert Ids(init) == Ids(steps)[..n];
    MissingIdEdges(init, steps[i].id);
    if i < n {
      assert init[i] == steps[i];
      UniqueIdEdges(init, i);
      assert steps[n].id != steps[i].id by { assert Ids(steps)[i] != Ids(steps)[n]; }
    } else {
      assert steps[i].id !in Ids(init);
    }
  }

  lemma {:induction false} MissingIdEdges(steps: seq<PlanStep>, x: string)
    ensures x !in Ids(steps) ==> InEdges(steps, x) == []
  {
    if steps != [] {
      var init := steps[..|steps| - 1];
      assert Ids(steps) == Ids(init) + [steps[|steps| - 1].id];
      MissingIdEdges(init, x);
    }
  }

  /** With unique ids and in-degrees equal to the dependency counts, the initial queue lists the roots' ids. */
  lemma {:induction false} ReadyRoots(steps: seq<PlanStep>, inDegree: map<string, int>)
    requires forall i :: 0 <= i < |steps| ==> steps[i].id in inDegree && inDegree[steps[i].id] == |steps[i].dependsOn|
    ensures Ready(Ids(steps), inDegree) == Ids(Roots(steps))
  {
    if steps != [] {
      var init := steps[..|steps| - 1];
      assert Ids(init) == Ids(steps)[..|steps| - 1];
      ReadyRoots(init, inDegree);
      var last := steps[|steps| - 1];
      assert Ids(Roots(steps)) == Ids(Roots(init)) + (if last.dependsOn == [] then [last.id] else []);
    }
  }

  /** A step of a valid order whose predecessors are all finished has all its dependencies finished. */
  lemma NextDone(steps: seq<PlanStep>, order: seq<PlanStep>, done: set<string>, k: nat)
    requires Distinct(Ids(steps)) && ValidOrder(steps, order) && k < |order|
    requires forall j :: 0 <= j < k ==> order[j].id in done
    ensures order[k].id in Ids(steps)
    ensures forall d :: d in InEdges(steps, order[k].id) ==> d in done
  {
    var s := order[k];
    assert s in multiset(steps);
    var i :| 0 <= i < |steps| && steps[i] == s;
    UniqueIdEdges(steps, i);
    forall d | d in s.dependsOn ensures d in done {
      assert d in Ids(order[..k]);
      var j :| 0 <= j < k && Ids(order[..k])[j] == d;
      assert order[j].id == d;
    }
  }

  /**
   * Completeness of Kahn's algorithm: if a valid order exists, then a set
   * of ids closed under "all dependencies finished, so finished" holds every
   * step's id.
   */
  lemma {:induction false} ClosedSetHoldsAll(steps: seq<PlanStep>, order: seq<PlanStep>, done: set<string>)
    requires Distinct(Ids(steps)) && ValidOrder(steps, order)
    requires forall x :: x in Ids(steps) && (forall d :: d in InEdges(steps, x) ==> d in done) ==> x in done
    ensures forall s :: s in steps ==> s.id in done
  {
    var k := 0;
    while k < |order|
      invariant 0 <= k <= |order|
      invariant forall j :: 0 <= j < k ==> order[j].id in done
    {
      NextDone(steps, order, done, k);
      k := k + 1;
    }
    forall s | s in steps ensures s.id in done {
      assert s in multiset(order);
      var j :| 0 <= j < |order| && order[j] == s;
    }
  }

  /** Steps looked up in the step map under distinct ids, covering every id, are a rearrangement of the steps. */
  lemma EmittedPermutation(steps: seq<PlanStep>, result: seq<PlanStep>)
    requires Distinct(Ids(steps)) && Distinct(Ids(result)) && Elems(Ids(result)) == Elems(Ids(steps))
    requires forall m :: 0 <= m < |result| ==> result[m].id in StepMap(steps) && result[m] == StepMap(steps)[result[m].id]
    ensures multiset(result) == multiset(steps)
  {
    assert Distinct(steps) by {
      forall i, j | 0 <= i < j < |steps| ensures steps[i] != steps[j] {
        assert Ids(steps)[i] != Ids(steps)[j];
      }
    }
    assert Distinct(result) by {
      forall i, j | 0 <= i < j < |result| ensures result[i] != result[j] {
        assert Ids(result)[i] != Ids(result)[j];
      }
    }
    forall s | s in steps ensures s in result {
      var k :| 0 <= k < |steps| && steps[k] == s;
      UniqueIdEdges(steps, k);
      assert Ids(steps)[k] == s.id;
      assert s.id in Elems(Ids(result));
      var m :| 0 <= m < |result| && Ids(result)[m] == s.id;
      assert result[m] == s;
    }
    SameSetPermutation(result, steps);
  }

  /** If each step's recorded dependencies were emitted before it, the steps have their dependencies first. */
  lemma EmittedDepsBefore(steps: seq<PlanStep>, result: seq<PlanStep>)
    requires Distinct(Ids(steps))
    requires forall m :: 0 <= m < |result| ==> result[m].id in StepMap(steps) && result[m] == StepMap(steps)[result[m].id]
    requires forall m, d :: 0 <= m < |result| && d in InEdges(steps, result[m].id) ==> d in Ids(result[..m])
    ensures DepsBefore(result)
  {
    forall i, d | 0 <= i < |result| && d in result[i].dependsOn ensures d in Ids(result[..i]) {
      var k :| 0 <= k < |steps| && steps[k] == result[i];
      UniqueIdEdges(steps, k);
    }
  }

  /** The steps emitted first, straight from the initial queue, are the roots in declaration order. */
  lemma EmittedRoots(steps: seq<PlanStep>, first: seq<string>, result: seq<PlanStep>)
    requires Distinct(Ids(steps)) && first == Ids(Roots(steps)) && |first| <= |result|
    requires forall m :: 0 <= m < |first| ==> first[m] in StepMap(steps) && result[m] == StepMap(steps)[first[m]]
    ensures result[..|Roots(steps)|] == Roots(steps)
  {
    var roots := Roots(steps);
    forall m | 0 <= m < |roots| ensures result[m] == roots[m] {
      var k :| 0 <= k < |steps| && steps[k] == roots[m];
      UniqueIdEdges(steps, k);
    }
  }
}
