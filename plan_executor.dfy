// The plan executor: plan validation, Kahn's topological sort of the steps,
// `FROM_<id>` input resolution, and the step loop that runs tools, sanity
// checks and specialist calls. Tools, the sanity checker and the specialist
// verifier are parameters; the steps run one after another.
module PlanExecutor {
  import opened Wrappers
  import opened Json
  import opened Text
  import opened Seqs
  import opened PlanTypes
  import opened PlanOrder

  /** `graph[c]` on a defaultdict(list). */
  function Look(graph: map<string, seq<string>>, c: string): seq<string>
  {
    if c in graph then graph[c] else []
  }

  /** The graph after `graph[dep].append(id)` for each `dep` of `deps` in turn. */
  function Appended(graph: map<string, seq<string>>, deps: seq<string>, id: string): map<string, seq<string>>
  {
    if deps == [] then graph
    else
      var g := Appended(graph, deps[..|deps| - 1], id);
      var dep := deps[|deps| - 1];
      g[dep := Look(g, dep) + [id]]
  }

  lemma {:induction false} AppendedLook(graph: map<string, seq<string>>, deps: seq<string>, id: string, c: string)
    ensures Look(Appended(graph, deps, id), c) == Look(graph, c) + Hits(deps, c, id)
  {
    if deps != [] {
      AppendedLook(graph, deps[..|deps| - 1], id, c);
    }
  }

  /** The inner loop over one step's dependencies: `graph[dep].append(id)` and `in_degree[id] += 1` for each. */
  method AddEdges(graph: map<string, seq<string>>, inDegree: map<string, int>, id: string, deps: seq<string>)
    returns (g: map<string, seq<string>>, deg: map<string, int>)
    requires id in inDegree
    ensures deg == inDegree[id := inDegree[id] + |deps|]
    ensures g == Appended(graph, deps, id)
  {
    g, deg := graph, inDegree;
    var j := 0;
    while j < |deps|
      invariant 0 <= j <= |deps|
      invariant deg == inDegree[id := inDegree[id] + j]
      invariant g == Appended(graph, deps[..j], id)
    {
      var dep := deps[j];
      assert deps[..j + 1][..j] == deps[..j];
      g := g[dep := Look(g, dep) + [id]];
      deg := deg[id := deg[id] + 1];
      j := j + 1;
    }
    assert deps[..j] == deps;
  }

  /** The graph once the build loop has seen `steps`. */
  function Graph(steps: seq<PlanStep>): map<string, seq<string>>
  {
    if steps == [] then map[]
    else
      var last := steps[|steps| - 1];
      Appended(Graph(steps[..|steps| - 1]), last.dependsOn, last.id)
  }

  lemma {:induction false} GraphLook(steps: seq<PlanStep>, c: string)
    ensures Look(Graph(steps), c) == Dependents(steps, c)
  {
    if steps != [] {
      var last := steps[|steps| - 1];
      GraphLook(steps[..|steps| - 1], c);
      AppendedLook(Graph(steps[..|steps| - 1]), last.dependsOn, last.id, c);
    }
  }

  /** `inDegree` has one entry per id of `steps`, counting that id's dependencies. */
  ghost predicate Degrees(inDegree: map<string, int>, steps: seq<PlanStep>)
  {
    inDegree.Keys == Elems(Ids(steps))
    && forall x :: x in inDegree ==> inDegree[x] == |InEdges(steps, x)|
  }

  lemma DegreesSnoc(inDegree: map<string, int>, steps: seq<PlanStep>, step: PlanStep, deg: map<string, int>)
    requires Degrees(inDegree, steps)
    requires var d0 := if step.id in inDegree then inDegree else inDegree[step.id := 0];
      deg == d0[step.id := d0[step.id] + |step.dependsOn|]
    ensures Degrees(deg, steps + [step])
  {
    var all := steps + [step];
    assert all[..|all| - 1] == steps;
    assert Ids(all) == Ids(steps) + [step.id];
    MissingIdEdges(steps, step.id);
  }

  /** The first loop of `_topological_sort`: `graph[dep]` lists dependent ids, `in_degree[id]` counts dependencies. */
  method BuildGraph(steps: seq<PlanStep>) returns (graph: map<string, seq<string>>, inDegree: map<string, int>)
    ensures inDegree.Keys == Elems(Ids(steps))
    ensures forall x :: x in inDegree ==> inDegree[x] == |InEdges(steps, x)|
    ensures forall c :: Look(graph, c) == Dependents(steps, c)
  {
    graph := map[];
    inDegree := map[];
    var i := 0;
    while i < |steps|
      invariant 0 <= i <= |steps|
      invariant Degrees(inDegree, steps[..i])
      invariant graph == Graph(steps[..i])
    {
      var step := steps[i];
      ghost var deg0 := inDegree;
      assert steps[..i + 1] == steps[..i] + [step];
      if step.id !in inDegree {
        inDegree := inDegree[step.id := 0];
      }
      graph, inDegree := AddEdges(graph, inDegree, step.id, step.dependsOn);
      DegreesSnoc(deg0, steps[..i], step, inDegree);
      i := i + 1;
    }
    assert steps[..i] == steps;
    forall c ensures Look(graph, c) == Dependents(steps, c) {
      GraphLook(steps, c);
    }
  }

  /**
   * The inner loop of the queue phase: one decrement per entry of
   * `graph[current]`, queueing each id whose count reaches zero. `added`
   * lists the ids queued here, in the order they were queued.
   */
  method Release(nbrs: seq<string>, inDegree: map<string, int>, queue: seq<string>)
    returns (deg: map<string, int>, q: seq<string>, ghost added: seq<string>)
    requires forall y :: y in nbrs ==> y in inDegree
    requires forall y :: y in inDegree ==> multiset(nbrs)[y] <= inDegree[y]
    ensures deg.Keys == inDegree.Keys
    ensures forall y :: y in deg ==> deg[y] == inDegree[y] - multiset(nbrs)[y]
    ensures q == queue + added && Distinct(added)
    ensures forall y :: y in added <==> y in inDegree && inDegree[y] != 0 && deg[y] == 0
  {
    deg, q, added := inDegree, queue, [];
    var j := 0;
    while j < |nbrs|
      invariant 0 <= j <= |nbrs|
      invariant deg.Keys == inDegree.Keys
      invariant forall y :: y in deg ==> deg[y] == inDegree[y] - multiset(nbrs)[y] + multiset(nbrs[j..])[y]
      invariant q == queue + added && Distinct(added)
      invariant forall y :: y in added <==> y in inDegree && inDegree[y] != 0 && deg[y] == 0
    {
      var nb := nbrs[j];
      assert nbrs[j..] == [nb] + nbrs[j + 1..];
      deg := deg[nb := deg[nb] - 1];
      if deg[nb] == 0 {
        q := q + [nb];
        DistinctSnoc(added, nb);
        added := added + [nb];
      }
      j := j + 1;
    }
  }

  /** The queue places after `added` enters the queue at place `base`. */
  ghost function Enter(pos: map<string, int>, added: seq<string>, base: int): (p: map<string, int>)
    requires Distinct(added)
    ensures forall y :: y in p <==> y in pos || y in added
    ensures forall y :: y in pos && y !in added ==> p[y] == pos[y]
    ensures forall k :: 0 <= k < |added| ==> p[added[k]] == base + k
  {
    if added == [] then pos
    else
      var init := added[..|added| - 1];
      var last := added[|added| - 1];
      assert forall k :: 0 <= k < |init| ==> init[k] == added[k];
      Enter(pos, init, base)[last := base + |init|]
  }

  /** What one release does to the ghost bookkeeping of the queue phase. */
  lemma ReleaseEffect(nbrs: seq<string>, deg1: map<string, int>, deg: map<string, int>, added: seq<string>,
                      pos: map<string, int>, base: int)
    requires Distinct(added) && deg.Keys == deg1.Keys
    requires forall y :: y in deg1 ==> (y in pos <==> deg1[y] == 0)
    requires forall y :: y in deg1 ==> multiset(nbrs)[y] <= deg1[y]
    requires forall y :: y in deg ==> deg[y] == deg1[y] - multiset(nbrs)[y]
    requires forall y :: y in added <==> y in deg1 && deg1[y] != 0 && deg[y] == 0
    requires forall y :: y in pos ==> y in deg1
    ensures var pos' := Enter(pos, added, base);
      (forall y :: y in deg ==> (y in pos' <==> deg[y] == 0))
      && (forall y :: y in pos ==> y in pos' && pos'[y] == pos[y])
      && (forall y :: y in pos' ==> y in pos || y in added)
      && (forall k :: 0 <= k < |added| ==> added[k] in deg && added[k] !in pos && added[k] in pos' && pos'[added[k]] == base + k)
  {
    var pos' := Enter(pos, added, base);
    forall y | y in deg ensures y in pos' <==> deg[y] == 0 {
      if deg[y] == 0 && y !in added {
        assert deg1[y] == 0;
      }
    }
  }

  // Ghost bookkeeping of the queue phase: `pos[x]` is the place at which id
  // `x` entered the queue, `n` ids have left it so far, and `done` holds them.

  ghost predicate QueuePlaced(queue: seq<string>, n: int, pos: map<string, int>)
  {
    (forall k :: 0 <= k < |queue| ==> queue[k] in pos && pos[queue[k]] == n + k)
    && (forall x :: x in pos && pos[x] >= n ==> pos[x] < n + |queue| && queue[pos[x] - n] == x)
  }

  ghost predicate ResultPlaced(result: seq<PlanStep>, pos: map<string, int>)
  {
    (forall m :: 0 <= m < |result| ==> result[m].id in pos && pos[result[m].id] == m)
    && (forall x :: x in pos && 0 <= pos[x] < |result| ==> result[pos[x]].id == x)
  }

  ghost predicate FromMap(result: seq<PlanStep>, stepMap: map<string, PlanStep>)
  {
    forall m :: 0 <= m < |result| ==> result[m].id in stepMap && result[m] == stepMap[result[m].id]
  }

  ghost predicate Counting(inDegree: map<string, int>, edges: map<string, seq<string>>, done: set<string>)
  {
    inDegree.Keys == edges.Keys && forall x :: x in edges ==> inDegree[x] == Outside(edges[x], done)
  }

  ghost predicate Ordered(pos: map<string, int>, edges: map<string, seq<string>>, inDegree: map<string, int>,
                          done: set<string>, n: int)
  {
    (forall x :: x in pos ==> x in edges && 0 <= pos[x])
    && (forall x :: x in done <==> x in pos && pos[x] < n)
    && (forall x :: x in edges && x in inDegree ==> (x in pos <==> inDegree[x] == 0))
    && (forall x, d :: x in pos && d in edges[x] ==> d in pos && pos[d] < pos[x])
  }

  ghost predicate Seeded(queue0: seq<string>, pos: map<string, int>)
  {
    forall k :: 0 <= k < |queue0| ==> queue0[k] in pos && pos[queue0[k]] == k
  }

  /** `graph[c]` holds `x` once per occurrence of `c` among the dependencies recorded against `x`. */
  ghost predicate GraphOf(graph: map<string, seq<string>>, edges: map<string, seq<string>>)
  {
    (forall c, x :: x in edges ==> multiset(Look(graph, c))[x] == multiset(edges[x])[c])
    && (forall c, y :: y in Look(graph, c) ==> y in edges)
  }

  lemma PopFront(queue: seq<string>, n: int, pos: map<string, int>, edges: map<string, seq<string>>,
                 inDegree: map<string, int>, done: set<string>)
    requires queue != [] && QueuePlaced(queue, n, pos) && Ordered(pos, edges, inDegree, done, n)
    ensures queue[0] in pos && pos[queue[0]] == n && queue[0] in edges && queue[0] !in done
    ensures forall x :: x in pos && pos[x] == n ==> x == queue[0]
  {
  }

  lemma PopRelease(graph: map<string, seq<string>>, edges: map<string, seq<string>>, inDegree: map<string, int>,
                   pos: map<string, int>, done: set<string>, n: int, c: string)
    requires GraphOf(graph, edges) && Counting(inDegree, edges, done) && Ordered(pos, edges, inDegree, done, n)
    requires c !in done
    ensures forall y :: y in Look(graph, c) ==> y in inDegree
    ensures forall y :: y in inDegree ==> multiset(Look(graph, c))[y] <= inDegree[y]
    ensures forall y :: y in inDegree ==> (y in pos <==> inDegree[y] == 0)
    ensures forall y :: y in edges ==> Outside(edges[y], done) == Outside(edges[y], done + {c}) + multiset(Look(graph, c))[y]
  {
    forall y | y in edges
      ensures Outside(edges[y], done) == Outside(edges[y], done + {c}) + multiset(Look(graph, c))[y]
    {
      OutsideRetire(edges[y], done, c);
    }
  }

  lemma CountingAdvance(deg1: map<string, int>, deg: map<string, int>, edges: map<string, seq<string>>,
                        done: set<string>, c: string, nbrs: seq<string>)
    requires Counting(deg1, edges, done)
    requires deg.Keys == deg1.Keys && forall y :: y in deg ==> deg[y] == deg1[y] - multiset(nbrs)[y]
    requires forall y :: y in edges ==> Outside(edges[y], done) == Outside(edges[y], done + {c}) + multiset(nbrs)[y]
    ensures Counting(deg, edges, done + {c})
  {
  }

  /** After one pop and release, queue entries keep their places in queue order. */
  lemma QueueAdvance(queue: seq<string>, n: int, pos: map<string, int>,
                     q: seq<string>, added: seq<string>, pos': map<string, int>, n1: int)
    requires queue != [] && QueuePlaced(queue, n, pos) && n1 == n + 1
    requires q == queue[1..] + added
    requires forall y :: y in pos ==> y in pos' && pos'[y] == pos[y]
    requires forall y :: y in pos' ==> y in pos || y in added
    requires forall k :: 0 <= k < |added| ==> added[k] !in pos && added[k] in pos' && pos'[added[k]] == n + |queue| + k
    ensures QueuePlaced(q, n1, pos')
  {
    forall k | 0 <= k < |q| ensures q[k] in pos' && pos'[q[k]] == n + 1 + k {
      if k < |queue| - 1 {
        assert q[k] == queue[k + 1];
      } else {
        assert q[k] == added[k - |queue| + 1];
      }
    }
    forall x | x in pos' && pos'[x] >= n + 1 ensures pos'[x] < n + 1 + |q| && q[pos'[x] - n - 1] == x {
      if x in pos {
        assert queue[pos[x] - n] == x;
      } else {
        var k :| 0 <= k < |added| && added[k] == x;
        assert q[|queue| - 1 + k] == added[k];
      }
    }
  }

  /** After one pop and release, emitted steps keep their places in emission order. */
  lemma ResultAdvance(result: seq<PlanStep>, s: PlanStep, pos: map<string, int>,
                      added: seq<string>, pos': map<string, int>, base: int)
    requires ResultPlaced(result, pos) && s.id in pos && pos[s.id] == |result| && base > |result|
    requires forall x :: x in pos && pos[x] == |result| ==> x == s.id
    requires forall y :: y in pos ==> y in pos' && pos'[y] == pos[y]
    requires forall y :: y in pos' ==> y in pos || y in added
    requires forall k :: 0 <= k < |added| ==> added[k] !in pos && added[k] in pos' && pos'[added[k]] == base + k
    ensures ResultPlaced(result + [s], pos')
  {
    forall x | x in pos' && x !in pos ensures pos'[x] >= base {
      var k :| 0 <= k < |added| && added[k] == x;
    }
  }

  lemma OrderedAdvance(pos: map<string, int>, edges: map<string, seq<string>>, deg1: map<string, int>,
                       deg: map<string, int>, done: set<string>, n: int, c: string,
                       added: seq<string>, pos': map<string, int>, done': set<string>, n1: int)
    requires Ordered(pos, edges, deg1, done, n) && c in pos && pos[c] == n && n1 == n + 1 && done' == done + {c}
    requires forall x :: x in pos && pos[x] == n ==> x == c
    requires Counting(deg, edges, done + {c})
    requires forall y :: y in deg ==> (y in pos' <==> deg[y] == 0)
    requires forall y :: y in pos ==> y in pos' && pos'[y] == pos[y]
    requires forall y :: y in pos' ==> y in pos || y in added
    requires forall k :: 0 <= k < |added| ==> added[k] in edges && added[k] !in pos && added[k] in pos' && pos'[added[k]] > n
    ensures Ordered(pos', edges, deg, done', n1)
  {
    forall x | x in pos' ensures x in edges && 0 <= pos'[x] && (x !in pos ==> pos'[x] > n) {
      if x !in pos {
        var k :| 0 <= k < |added| && added[k] == x;
      }
    }
    forall x | true ensures x in done + {c} <==> x in pos' && pos'[x] < n + 1 {
      if x in pos' && x !in pos {
        var k :| 0 <= k < |added| && added[k] == x;
      }
    }
    forall x, d | x in pos' && d in edges[x] ensures d in pos' && pos'[d] < pos'[x] {
      if x !in pos {
        assert deg[x] == 0;
        assert d in done + {c};
      }
    }
  }

  lemma SeededAdvance(queue0: seq<string>, pos: map<string, int>, pos': map<string, int>)
    requires Seeded(queue0, pos)
    requires forall y :: y in pos ==> y in pos' && pos'[y] == pos[y]
    ensures Seeded(queue0, pos')
  {
  }

  /**
   * What the queue phase leaves behind: steps taken from `stepMap`, no id
   * twice, every id whose recorded dependencies were all emitted emitted
   * too, each step after its dependencies, and the seed queue first.
   */
  ghost predicate Drained(result: seq<PlanStep>, stepMap: map<string, PlanStep>,
                          edges: map<string, seq<string>>, queue0: seq<string>)
  {
    FromMap(result, stepMap) && DrainedIn(result, edges) && DrainedClosed(result, edges)
    && DrainedDeps(result, edges) && DrainedSeed(result, queue0)
  }

  ghost predicate DrainedIn(result: seq<PlanStep>, edges: map<string, seq<string>>)
  {
    Distinct(Ids(result)) && forall x :: x in Ids(result) ==> x in edges
  }

  ghost predicate DrainedClosed(result: seq<PlanStep>, edges: map<string, seq<string>>)
  {
    forall x :: x in edges && (forall d :: d in edges[x] ==> d in Ids(result)) ==> x in Ids(result)
  }

  ghost predicate DrainedDeps(result: seq<PlanStep>, edges: map<string, seq<string>>)
  {
    forall m, d :: 0 <= m < |result| && result[m].id in edges && d in edges[result[m].id] ==> d in Ids(result[..m])
  }

  ghost predicate DrainedSeed(result: seq<PlanStep>, queue0: seq<string>)
  {
    |queue0| <= |result| && Ids(result[..|queue0|]) == queue0
  }

  lemma DrainStart(queue0: seq<string>, inDegree0: map<string, int>, edges: map<string, seq<string>>,
                   pos: map<string, int>)
    requires inDegree0.Keys == edges.Keys
    requires Distinct(queue0) && forall x :: x in queue0 ==> x in edges
    requires forall x :: x in edges ==> inDegree0[x] == |edges[x]| && (x in queue0 <==> inDegree0[x] == 0)
    requires pos.Keys == Elems(queue0) && forall k :: 0 <= k < |queue0| ==> pos[queue0[k]] == k
    ensures QueuePlaced(queue0, 0, pos) && ResultPlaced([], pos) && Seeded(queue0, pos)
    ensures Counting(inDegree0, edges, {}) && Ordered(pos, edges, inDegree0, {}, 0)
  {
    forall x | x in edges ensures inDegree0[x] == Outside(edges[x], {}) {
      OutsideEmpty(edges[x]);
    }
    forall x | x in pos ensures 0 <= pos[x] < |queue0| && queue0[pos[x]] == x {
      var k :| 0 <= k < |queue0| && queue0[k] == x;
    }
    forall x | x in pos ensures edges[x] == [] {
      assert inDegree0[x] == 0;
    }
  }

  lemma FromMapSnoc(result: seq<PlanStep>, stepMap: map<string, PlanStep>, c: string)
    requires FromMap(result, stepMap) && c in stepMap && stepMap[c].id == c
    ensures FromMap(result + [stepMap[c]], stepMap)
  {
  }

  /** Once the queue is empty, the emitted ids are distinct and each came after its dependencies. */
  lemma EmptyQueueOrder(result: seq<PlanStep>, pos: map<string, int>, edges: map<string, seq<string>>,
                        inDegree: map<string, int>, done: set<string>)
    requires QueuePlaced([], |result|, pos) && ResultPlaced(result, pos)
    requires Ordered(pos, edges, inDegree, done, |result|)
    ensures DrainedIn(result, edges) && DrainedDeps(result, edges)
  {
    forall m, d | 0 <= m < |result| && result[m].id in edges && d in edges[result[m].id] ensures d in Ids(result[..m]) {
      assert result[pos[d]].id == d;
      assert Ids(result[..m])[pos[d]] == d;
    }
  }

  /** Once the queue is empty, every id whose dependencies were all emitted was emitted too. */
  lemma EmptyQueueClosed(result: seq<PlanStep>, pos: map<string, int>, edges: map<string, seq<string>>,
                         inDegree: map<string, int>, done: set<string>)
    requires QueuePlaced([], |result|, pos) && ResultPlaced(result, pos)
    requires Ordered(pos, edges, inDegree, done, |result|) && Counting(inDegree, edges, done)
    ensures DrainedClosed(result, edges)
  {
    forall x | x in edges && (forall d :: d in edges[x] ==> d in Ids(result)) ensures x in Ids(result) {
      forall d | d in edges[x] ensures d in done {
        assert d in Ids(result);
        var m :| 0 <= m < |result| && Ids(result)[m] == d;
        assert result[m].id == d;
      }
      assert inDegree[x] == 0;
      assert result[pos[x]].id == x;
      assert Ids(result)[pos[x]] == x;
    }
  }

  /** Once the queue is empty, the emitted ids start with the seed queue. */
  lemma EmptyQueueSeed(result: seq<PlanStep>, pos: map<string, int>, queue0: seq<string>)
    requires QueuePlaced([], |result|, pos) && ResultPlaced(result, pos) && Seeded(queue0, pos)
    ensures DrainedSeed(result, queue0)
  {
    if queue0 != [] {
      assert pos[queue0[|queue0| - 1]] < |result|;
    }
    forall k | 0 <= k < |queue0| ensures Ids(result[..|queue0|])[k] == queue0[k] {
      assert result[pos[queue0[k]]].id == queue0[k];
    }
  }

  /**
   * The queue phase of `_topological_sort`, on the graph in abstract form:
   * `edges[x]` lists the dependencies recorded against `x`, `graph[c]` holds
   * `x` once per occurrence of `c` there, and `in_degree[x]` starts at their
   * number. Ids leave the queue in the order they entered it.
   */
  method Drain(queue0: seq<string>, graph: map<string, seq<string>>, inDegree0: map<string, int>,
               stepMap: map<string, PlanStep>, ghost edges: map<string, seq<string>>)
    returns (result: seq<PlanStep>)
    requires inDegree0.Keys == edges.Keys && edges.Keys <= stepMap.Keys
    requires forall x :: x in stepMap ==> stepMap[x].id == x
    requires Distinct(queue0) && forall x :: x in queue0 ==> x in edges
    requires forall x :: x in edges ==> inDegree0[x] == |edges[x]| && (x in queue0 <==> inDegree0[x] == 0)
    requires GraphOf(graph, edges)
    ensures Drained(result, stepMap, edges, queue0)
  {
    var queue := queue0;
    var inDegree := inDegree0;
    result := [];
    ghost var pos: map<string, int> := map k | 0 <= k < |queue0| :: queue0[k] := k;
    ghost var done: set<string> := {};
    assert forall k :: 0 <= k < |queue0| ==> queue0[k] in pos && pos[queue0[k]] == k;
    DrainStart(queue0, inDegree0, edges, pos);
    while queue != []
      invariant QueuePlaced(queue, |result|, pos) && ResultPlaced(result, pos) && FromMap(result, stepMap)
      invariant Counting(inDegree, edges, done) && Ordered(pos, edges, inDegree, done, |result|)
      invariant Seeded(queue0, pos)
      decreases edges.Keys - done
    {
      ghost var n, queue1, result1, pos1, done1, deg1 := |result|, queue, result, pos, done, inDegree;
      var c := queue[0];
      PopFront(queue, n, pos, edges, inDegree, done);
      var nbrs := Look(graph, c);
      PopRelease(graph, edges, inDegree, pos, done, n, c);
      ghost var added;
      inDegree, queue, added := Release(nbrs, inDegree, queue[1..]);
      ReleaseEffect(nbrs, deg1, inDegree, added, pos1, n + |queue1|);
      pos := Enter(pos1, added, n + |queue1|);
      result := result + [stepMap[c]];
      done := done + {c};
      CountingAdvance(deg1, inDegree, edges, done1, c, nbrs);
      QueueAdvance(queue1, n, pos1, queue, added, pos, |result|);
      ResultAdvance(result1, stepMap[c], pos1, added, pos, n + |queue1|);
      OrderedAdvance(pos1, edges, deg1, inDegree, done1, n, c, added, pos, done, |result|);
      SeededAdvance(queue0, pos1, pos);
      FromMapSnoc(result1, stepMap, c);
    }
    EmptyQueueOrder(result, pos, edges, inDegree, done);
    EmptyQueueClosed(result, pos, edges, inDegree, done);
    EmptyQueueSeed(result, pos, queue0);
  }

  /** The graph in abstract form: the dependencies recorded against each id. */
  ghost function EdgeMap(steps: seq<PlanStep>): (e: map<string, seq<string>>)
    ensures e.Keys == Elems(Ids(steps))
    ensures forall x :: x in e ==> e[x] == InEdges(steps, x)
  {
    map x | x in Elems(Ids(steps)) :: InEdges(steps, x)
  }

  lemma SortGraph(steps: seq<PlanStep>, graph: map<string, seq<string>>)
    requires forall c :: Look(graph, c) == Dependents(steps, c)
    ensures GraphOf(graph, EdgeMap(steps))
  {
    var edges := EdgeMap(steps);
    forall c, y | y in Look(graph, c) ensures y in edges {
      DependentsAreIds(steps, c);
    }
    forall c, x | x in edges ensures multiset(Look(graph, c))[x] == multiset(edges[x])[c] {
      DependentsCount(steps, c, x);
    }
  }

  lemma SortSeed(steps: seq<PlanStep>, inDegree: map<string, int>, queue: seq<string>)
    requires inDegree.Keys == Elems(Ids(steps))
    requires forall x :: x in inDegree ==> inDegree[x] == |InEdges(steps, x)|
    requires queue == Ready(KeyOrder(Ids(steps)), inDegree)
    ensures Distinct(queue) && forall x :: x in queue ==> x in EdgeMap(steps)
    ensures forall x :: x in EdgeMap(steps) ==> inDegree[x] == |EdgeMap(steps)[x]| && (x in queue <==> inDegree[x] == 0)
  {
    var keys := KeyOrder(Ids(steps));
    forall x | x in queue ensures x in EdgeMap(steps) {
      assert x in Elems(keys);
    }
    forall x | x in EdgeMap(steps) ensures x in queue <==> inDegree[x] == 0 {
      assert x in Elems(keys);
    }
  }

  /** The emitted ids are ids of steps. */
  lemma DrainedIds(steps: seq<PlanStep>, result: seq<PlanStep>)
    requires DrainedIn(result, EdgeMap(steps))
    ensures Distinct(Ids(result)) && Elems(Ids(result)) <= Elems(Ids(steps))
    ensures |result| <= |steps|
    ensures |result| == |steps| ==> Elems(Ids(result)) == Elems(Ids(steps)) && Distinct(Ids(steps))
  {
    var all := Ids(result);
    var keySet := Elems(Ids(steps));
    forall x | x in Elems(all) ensures x in keySet {
      assert x in all;
    }
    SetCard(all);
    SubsetCard(Elems(all), keySet);
    SetCard(Ids(steps));
    if |result| == |steps| {
      SubsetEqCard(Elems(all), keySet);
    }
  }

  lemma ClosureOnSteps(steps: seq<PlanStep>, done: set<string>)
    requires forall x :: x in EdgeMap(steps) && (forall d :: d in EdgeMap(steps)[x] ==> d in done) ==> x in done
    ensures forall x :: x in Ids(steps) && (forall d :: d in InEdges(steps, x) ==> d in done) ==> x in done
  {
    var edges := EdgeMap(steps);
    forall x | x in Ids(steps) && (forall d :: d in InEdges(steps, x) ==> d in done) ensures x in done {
      assert x in Elems(Ids(steps));
      assert edges[x] == InEdges(steps, x);
    }
  }

  lemma DrainedClosure(result: seq<PlanStep>, edges: map<string, seq<string>>)
    requires DrainedClosed(result, edges)
    ensures forall x :: x in edges && (forall d :: d in edges[x] ==> d in Elems(Ids(result))) ==> x in Elems(Ids(result))
  {
    forall x | x in edges && (forall d :: d in edges[x] ==> d in Elems(Ids(result))) ensures x in Elems(Ids(result)) {
      forall d | d in edges[x] ensures d in Ids(result) {
        assert d in Elems(Ids(result));
      }
      assert x in Ids(result);
    }
  }

  /** A short result means the ids repeat or no order is valid. */
  lemma DrainedShort(steps: seq<PlanStep>, result: seq<PlanStep>)
    requires DrainedIn(result, EdgeMap(steps)) && DrainedClosed(result, EdgeMap(steps)) && |result| != |steps|
    ensures !Distinct(Ids(steps)) || forall o :: !ValidOrder(steps, o)
  {
    var all := Ids(result);
    DrainedIds(steps, result);
    DrainedClosure(result, EdgeMap(steps));
    ClosureOnSteps(steps, Elems(all));
    SetCard(Ids(steps));
    if Distinct(Ids(steps)) {
      forall o | ValidOrder(steps, o) ensures false {
        ClosedSetHoldsAll(steps, o, Elems(all));
        assert Elems(Ids(steps)) <= Elems(all);
        SubsetCard(Elems(Ids(steps)), Elems(all));
        SetCard(all);
      }
    }
  }

  lemma FromStepMap(steps: seq<PlanStep>, result: seq<PlanStep>)
    requires FromMap(result, StepMap(steps))
    ensures forall m :: 0 <= m < |result| ==> result[m].id in StepMap(steps) && result[m] == StepMap(steps)[result[m].id]
  {
  }

  lemma LookedUpPermutation(steps: seq<PlanStep>, result: seq<PlanStep>)
    requires Distinct(Ids(steps)) && Distinct(Ids(result)) && Elems(Ids(result)) == Elems(Ids(steps))
    requires FromMap(result, StepMap(steps))
    ensures multiset(result) == multiset(steps)
  {
    FromStepMap(steps, result);
    EmittedPermutation(steps, result);
  }

  lemma DrainedPermutation(steps: seq<PlanStep>, result: seq<PlanStep>)
    requires FromMap(result, StepMap(steps)) && DrainedIn(result, EdgeMap(steps)) && |result| == |steps|
    ensures Distinct(Ids(steps)) && multiset(result) == multiset(steps)
  {
    DrainedIds(steps, result);
    LookedUpPermutation(steps, result);
  }

  lemma DrainedDepsBefore(steps: seq<PlanStep>, result: seq<PlanStep>)
    requires FromMap(result, StepMap(steps)) && DrainedIn(result, EdgeMap(steps)) && DrainedDeps(result, EdgeMap(steps))
    requires Distinct(Ids(steps))
    ensures DepsBefore(result)
  {
    var edges := EdgeMap(steps);
    forall m, d | 0 <= m < |result| && d in InEdges(steps, result[m].id) ensures d in Ids(result[..m]) {
      assert Ids(result)[m] == result[m].id;
      assert result[m].id in edges;
    }
    EmittedDepsBefore(steps, result);
  }

  /** A full result is a valid order of steps with distinct ids. */
  lemma DrainedFull(steps: seq<PlanStep>, result: seq<PlanStep>, queue: seq<string>)
    requires Drained(result, StepMap(steps), EdgeMap(steps), queue) && |result| == |steps|
    ensures Distinct(Ids(steps)) && ValidOrder(steps, result)
  {
    DrainedPermutation(steps, result);
    DrainedDepsBefore(steps, result);
  }

  lemma SeedIsRoots(steps: seq<PlanStep>, inDegree: map<string, int>, queue: seq<string>)
    requires Distinct(Ids(steps)) && inDegree.Keys == Elems(Ids(steps))
    requires forall x :: x in inDegree ==> inDegree[x] == |InEdges(steps, x)|
    requires queue == Ready(KeyOrder(Ids(steps)), inDegree)
    ensures queue == Ids(Roots(steps))
  {
    StepDegrees(steps, inDegree);
    ReadyRoots(steps, inDegree);
  }

  lemma StepDegrees(steps: seq<PlanStep>, inDegree: map<string, int>)
    requires Distinct(Ids(steps)) && inDegree.Keys == Elems(Ids(steps))
    requires forall x :: x in inDegree ==> inDegree[x] == |InEdges(steps, x)|
    ensures forall k :: 0 <= k < |steps| ==> steps[k].id in inDegree && inDegree[steps[k].id] == |steps[k].dependsOn|
  {
    forall k | 0 <= k < |steps| ensures steps[k].id in inDegree && inDegree[steps[k].id] == |steps[k].dependsOn| {
      UniqueIdEdges(steps, k);
      assert Ids(steps)[k] == steps[k].id;
    }
  }

  /** With distinct ids, the seed queue is the dependency-free steps, so a full result starts with them. */
  lemma DrainedRoots(steps: seq<PlanStep>, inDegree: map<string, int>, result: seq<PlanStep>, queue: seq<string>)
    requires Distinct(Ids(steps)) && FromMap(result, StepMap(steps)) && DrainedSeed(result, queue)
    requires inDegree.Keys == Elems(Ids(steps))
    requires forall x :: x in inDegree ==> inDegree[x] == |InEdges(steps, x)|
    requires queue == Ready(KeyOrder(Ids(steps)), inDegree)
    ensures |Roots(steps)| <= |result| && result[..|Roots(steps)|] == Roots(steps)
  {
    SeedIsRoots(steps, inDegree, queue);
    var sm := StepMap(steps);
    forall m | 0 <= m < |queue| ensures queue[m] in sm && result[m] == sm[queue[m]] {
      assert Ids(result[..|queue|])[m] == queue[m];
    }
    assert forall m :: 0 <= m < |queue| ==> queue[m] in StepMap(steps) && result[m] == StepMap(steps)[queue[m]];
    EmittedRoots(steps, queue, result);
  }

  /**
   * `_topological_sort`: Kahn's algorithm with a FIFO queue seeded with the
   * zero in-degree ids in step order. It returns None exactly when the ids
   * repeat or no valid order exists (a cycle, or a dependency naming no
   * step); otherwise a valid order that starts with the dependency-free
   * steps in declaration order.
   */
  method TopologicalSort(steps: seq<PlanStep>) returns (r: Option<seq<PlanStep>>)
    ensures r.Some? ==> Distinct(Ids(steps)) && ValidOrder(steps, r.value)
    ensures r.Some? ==> |Roots(steps)| <= |r.value| && r.value[..|Roots(steps)|] == Roots(steps)
    ensures r.None? <==> !Distinct(Ids(steps)) || forall o :: !ValidOrder(steps, o)
  {
    var graph, inDegree := BuildGraph(steps);
    var stepMap := StepMap(steps);
    var keys := KeyOrder(Ids(steps));
    var queue := Ready(keys, inDegree);
    SortGraph(steps, graph);
    SortSeed(steps, inDegree, queue);
    var result := Drain(queue, graph, inDegree, stepMap, EdgeMap(steps));
    if |result| != |steps| {
      DrainedShort(steps, result);
      return None;
    }
    DrainedFull(steps, result, queue);
    DrainedRoots(steps, inDegree, result, queue);
    return Some(result);
  }
}
