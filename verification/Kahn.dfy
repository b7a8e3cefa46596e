/** The repository's three cycle checks: the planner's (jobsmith/dag/planner.py), the plan check of the
    evaluations (evals/scoring.py) and the strict probe's (evals/strict_probe.py). Each answers whether
    the graph has a topological order, so they agree. */
module Kahn {
  import opened Sequences
  import opened Ir
  import opened Graphs

  // ---------- what is still waited for ----------

  /** How many entries of `deps` are not in `done` yet. */
  ghost function Waiting(deps: seq<Id>, done: seq<Id>): nat {
    if deps == [] then 0 else (if deps[0] in done then 0 else 1) + Waiting(deps[1..], done)
  }

  lemma {:induction false} WaitingAfter(deps: seq<Id>, done: seq<Id>, n: Id)
    requires n !in done
    ensures Waiting(deps, done) == Waiting(deps, done + [n]) + multiset(deps)[n]
  {
    if deps != [] {
      WaitingAfter(deps[1..], done, n);
      assert deps == [deps[0]] + deps[1..];
    }
  }

  lemma {:induction false} WaitingForNothing(deps: seq<Id>, done: seq<Id>)
    ensures Waiting(deps, done) == 0 <==> forall d :: d in deps ==> d in done
  {
    if deps != [] {
      WaitingForNothing(deps[1..], done);
      assert deps == [deps[0]] + deps[1..];
    }
  }

  lemma {:induction false} WaitingForAll(deps: seq<Id>)
    ensures Waiting(deps, []) == |deps|
  {
    if deps != [] { WaitingForAll(deps[1..]); }
  }

  // ---------- the loop the planner and the scorer share ----------

  type Table = map<Id, seq<Id>>

  ghost predicate ClosedTable(deps: Table) {
    forall m, d :: m in deps && d in deps[m] ==> d in deps
  }

  /** `list` names each step once for every time it waits for `n`. */
  ghost predicate Lists(deps: Table, n: Id, list: seq<Id>) {
    && (forall m :: m in deps ==> multiset(list)[m] == multiset(deps[m])[n])
    && forall m :: m in list ==> m in deps
  }

  ghost predicate Adjacency(deps: Table, adj: Table) {
    adj.Keys == deps.Keys && forall n :: n in adj ==> Lists(deps, n, adj[n])
  }

  /** Everything in `order` comes after what it waits for. */
  ghost predicate Ordered(deps: Table, order: seq<Id>) {
    && Distinct(order)
    && (forall i :: 0 <= i < |order| ==> order[i] in deps)
    && forall i, d :: 0 <= i < |order| && d in deps[order[i]] ==> d in order[..i]
  }

  ghost predicate QueueIs(queue: seq<Id>, indeg: map<Id, int>, order: seq<Id>) {
    && Distinct(queue)
    && forall m :: m in queue <==> m in indeg && m !in order && indeg[m] == 0
  }

  ghost predicate Counts(deps: Table, indeg: map<Id, int>, order: seq<Id>) {
    && indeg.Keys == deps.Keys
    && forall m :: m in deps ==> indeg[m] == Waiting(deps[m], order)
  }

  ghost predicate HalfCounts(deps: Table, indeg: map<Id, int>, order: seq<Id>, left: seq<Id>) {
    && indeg.Keys == deps.Keys
    && forall m :: m in deps ==> indeg[m] == Waiting(deps[m], order) + multiset(left)[m]
  }

  lemma PopCounts(deps: Table, adj: Table, indeg: map<Id, int>, order: seq<Id>, n: Id)
    requires Adjacency(deps, adj) && Counts(deps, indeg, order) && n in deps && n !in order
    ensures HalfCounts(deps, indeg, order + [n], adj[n])
  {
    assert Lists(deps, n, adj[n]);
    forall m | m in deps
      ensures indeg[m] == Waiting(deps[m], order + [n]) + multiset(adj[n])[m]
    {
      WaitingAfter(deps[m], order, n);
    }
  }

  lemma PopOrdered(deps: Table, indeg: map<Id, int>, order: seq<Id>, n: Id)
    requires Ordered(deps, order) && Counts(deps, indeg, order) && n in deps && n !in order && indeg[n] == 0
    ensures Ordered(deps, order + [n])
  {
    WaitingForNothing(deps[n], order);
    var next := order + [n];
    forall i, d | 0 <= i < |next| && d in deps[next[i]]
      ensures d in next[..i]
    {
      if i < |order| {
        assert next[..i] == order[..i];
      } else {
        assert next[..i] == order;
      }
    }
  }

  /** A name that waited for the one just popped has not been popped itself. */
  lemma StillOut(deps: Table, adj: Table, order: seq<Id>, n: Id, m: Id)
    requires Adjacency(deps, adj) && Ordered(deps, order + [n]) && n in adj && m in adj[n]
    ensures m in deps && m !in order + [n]
  {
    assert Lists(deps, n, adj[n]);
    assert multiset(adj[n])[m] > 0;
    assert n in deps[m];
    var next := order + [n];
    forall i | 0 <= i < |next| ensures next[i] != m {
      assert next[|order|] == n && n !in next[..i];
    }
  }

  lemma StillOutAll(deps: Table, adj: Table, order: seq<Id>, n: Id)
    requires Adjacency(deps, adj) && Ordered(deps, order + [n]) && n in adj
    ensures forall m :: m in adj[n] ==> m in deps && m !in order + [n]
  {
    forall m | m in adj[n] ensures m in deps && m !in order + [n] {
      StillOut(deps, adj, order, n, m);
    }
  }

  lemma Decrement(deps: Table, indeg: map<Id, int>, order: seq<Id>, m: Id, rest: seq<Id>, queue: seq<Id>)
    returns (next: map<Id, int>, queue': seq<Id>)
    requires HalfCounts(deps, indeg, order, [m] + rest) && QueueIs(queue, indeg, order)
    requires m in deps && m !in order
    ensures next == indeg[m := indeg[m] - 1] && queue' == if next[m] == 0 then queue + [m] else queue
    ensures HalfCounts(deps, next, order, rest) && QueueIs(queue', next, order)
  {
    next := indeg[m := indeg[m] - 1];
    queue' := if next[m] == 0 then queue + [m] else queue;
    assert multiset([m] + rest) == multiset{m} + multiset(rest);
    assert indeg[m] > 0 && m !in queue;
  }

  /** Names left over after the queue ran dry, each waiting for another of them. */
  ghost predicate Blocked(deps: Table, order: seq<Id>, m: Id)
    requires m in deps
  {
    exists d :: d in deps[m] && d !in order
  }

  ghost predicate RestBlocked(deps: Table, order: seq<Id>) {
    forall m {:trigger Blocked(deps, order, m)} :: m in deps && m !in order ==> Blocked(deps, order, m)
  }

  lemma DryMeansBlocked(deps: Table, indeg: map<Id, int>, order: seq<Id>)
    requires Counts(deps, indeg, order) && QueueIs([], indeg, order)
    ensures RestBlocked(deps, order)
  {
    forall m | m in deps && m !in order ensures Blocked(deps, order, m) {
      assert m !in [];
      WaitingForNothing(deps[m], order);
    }
  }

  lemma PrefixNext<T>(s: seq<T>, j: nat)
    requires j < |s|
    ensures s[..j] + [s[j]] == s[..j + 1]
  {
  }

  lemma HeadOfRest<T>(s: seq<T>, j: nat)
    requires j < |s|
    ensures s[j..] == [s[j]] + s[j + 1..]
  {
  }

  /** Takes `n`, just popped, off the count of everything that waits for it. */
  method Release(ghost deps: Table, adj: Table, indeg0: map<Id, int>, queue0: seq<Id>, n: Id, ghost order: seq<Id>)
    returns (indeg: map<Id, int>, queue: seq<Id>)
    requires Adjacency(deps, adj) && n in adj && Ordered(deps, order + [n])
    requires HalfCounts(deps, indeg0, order + [n], adj[n]) && QueueIs(queue0, indeg0, order + [n])
    ensures Counts(deps, indeg, order + [n]) && QueueIs(queue, indeg, order + [n])
  {
    indeg, queue := indeg0, queue0;
    var waiting := adj[n];
    ghost var popped := order + [n];
    StillOutAll(deps, adj, order, n);
    var j := 0;
    while j < |waiting|
      invariant j <= |waiting|
      invariant HalfCounts(deps, indeg, popped, waiting[j..])
      invariant QueueIs(queue, indeg, popped)
    {
      var m := waiting[j];
      HeadOfRest(waiting, j);
      ghost var next, queue' := Decrement(deps, indeg, popped, m, waiting[j + 1..], queue);
      indeg := indeg[m := indeg[m] - 1];
      if indeg[m] == 0 {
        queue := queue + [m];
      }
      j := j + 1;
    }
    assert waiting[j..] == [];
  }

  /** Pops ready names until none is ready. */
  method Drain(ghost deps: Table, indeg0: map<Id, int>, adj: Table, queue0: seq<Id>)
    returns (visited: nat, ghost order: seq<Id>)
    requires Adjacency(deps, adj) && Counts(deps, indeg0, []) && QueueIs(queue0, indeg0, [])
    ensures Ordered(deps, order) && visited == |order| && RestBlocked(deps, order)
  {
    var indeg, queue := indeg0, queue0;
    visited, order := 0, [];
    while queue != []
      invariant Counts(deps, indeg, order) && QueueIs(queue, indeg, order)
      invariant Ordered(deps, order) && visited == |order|
      decreases |deps.Keys - set x | x in order|
    {
      var n := queue[|queue| - 1];
      assert n in queue;
      PopCounts(deps, adj, indeg, order, n);
      PopOrdered(deps, indeg, order, n);
      PopQueue(queue, indeg, order);
      Shrinks(deps, order, n);
      indeg, queue := Release(deps, adj, indeg, queue[..|queue| - 1], n, order);
      visited, order := visited + 1, order + [n];
    }
    DryMeansBlocked(deps, indeg, order);
  }

  lemma PopQueue(queue: seq<Id>, indeg: map<Id, int>, order: seq<Id>)
    requires queue != [] && QueueIs(queue, indeg, order)
    ensures QueueIs(queue[..|queue| - 1], indeg, order + [queue[|queue| - 1]])
  {
  }

  lemma Shrinks(deps: Table, order: seq<Id>, n: Id)
    requires n in deps && n !in order
    ensures |deps.Keys - (set x | x in order + [n])| < |deps.Keys - set x | x in order|
  {
    var before, after := deps.Keys - (set x | x in order), deps.Keys - (set x | x in order + [n]);
    assert after == before - {n};
  }

  // ---------- from the table back to the rows ----------

  /** What each row waits for, as a table, dependencies on absent names left out. */
  ghost predicate TableOf(rows: seq<Row>, deps: Table) {
    && deps.Keys == Ids(rows)
    && forall k :: 0 <= k < |rows| ==>
         forall d :: d in deps[rows[k].id] <==> d in rows[k].deps && d in Ids(rows)
  }

  lemma EdgesOfTable(rows: seq<Row>, deps: Table, a: Id, b: Id)
    requires UniqueIds(rows) && TableOf(rows, deps) && a in Ids(rows)
    ensures Edge(rows, a, b) <==> b in deps && a in deps[b]
  {
  }

  lemma FullOrderIsTopological(rows: seq<Row>, deps: Table, order: seq<Id>)
    requires UniqueIds(rows) && TableOf(rows, deps) && Ordered(deps, order)
    requires (set x | x in order) == Ids(rows)
    ensures Topological(rows, order)
  {
  }

  lemma LeftOversAreStuck(rows: seq<Row>, deps: Table, order: seq<Id>, u: set<Id>)
    requires UniqueIds(rows) && TableOf(rows, deps) && RestBlocked(deps, order)
    requires u == Ids(rows) - (set x | x in order) && u != {}
    ensures Stuck(rows, u)
  {
    forall b | b in u ensures WaitsWithin(rows, u, b) {
      assert Blocked(deps, order, b);
      var d :| d in deps[b] && d !in order;
      var k :| 0 <= k < |rows| && rows[k].id == b;
      EdgesOfTable(rows, deps, d, b);
    }
  }

  /** Everything was popped exactly when the graph is acyclic. */
  lemma DrainedMeansAcyclic(rows: seq<Row>, deps: Table, order: seq<Id>)
    requires UniqueIds(rows) && TableOf(rows, deps) && Ordered(deps, order) && RestBlocked(deps, order)
    ensures |order| == |rows| <==> Acyclic(rows)
    ensures |order| == |rows| ==> Topological(rows, order)
    ensures |order| <= |rows|
  {
    var popped := set x | x in order;
    DistinctCount(order);
    IdsCount(rows);
    SubsetCount(popped, Ids(rows));
    var u := Ids(rows) - popped;
    if u == {} {
      assert forall x :: x in Ids(rows) ==> x in popped by { assert forall x :: x in Ids(rows) && x !in popped ==> x in u; }
      FullOrderIsTopological(rows, deps, order);
    } else {
      LeftOversAreStuck(rows, deps, order, u);
      StuckMeansCyclic(rows, u);
    }
  }

  // ---------- building the table ----------

  /** The entries that name a row. */
  function Present(deps: seq<Id>, names: set<Id>): (r: seq<Id>)
    ensures forall d :: d in r <==> d in deps && d in names
  {
    if deps == [] then []
    else (if deps[0] in names then [deps[0]] else []) + Present(deps[1..], names)
  }

  ghost predicate Effective(rows: seq<Row>, names: set<Id>, n: nat, eff: Table)
    requires n <= |rows|
  {
    && (forall m :: m in eff <==> exists k :: 0 <= k < n && rows[k].id == m)
    && forall k :: 0 <= k < n ==> rows[k].id in eff && eff[rows[k].id] == Present(rows[k].deps, names)
  }

  lemma EffectiveIsTable(rows: seq<Row>, eff: Table)
    requires UniqueIds(rows) && Effective(rows, Ids(rows), |rows|, eff)
    ensures TableOf(rows, eff) && ClosedTable(eff)
  {
  }

  /** The list of `n` once the steps in `seen` are entered, and `part` of what `cur` waits for. */
  ghost predicate HalfLists(eff: Table, n: Id, list: seq<Id>, seen: set<Id>, cur: Id, part: seq<Id>) {
    && (forall m :: m in eff ==>
          multiset(list)[m] ==
            if m in seen then multiset(eff[m])[n] else if m == cur then multiset(part)[n] else 0)
    && forall m :: m in list ==> m in eff
  }

  ghost predicate HalfAdjacency(eff: Table, adj: Table, seen: set<Id>, cur: Id, part: seq<Id>) {
    adj.Keys == eff.Keys && forall n :: n in adj ==> HalfLists(eff, n, adj[n], seen, cur, part)
  }

  lemma EnterEdge(eff: Table, adj: Table, seen: set<Id>, cur: Id, part: seq<Id>, d: Id)
    requires HalfAdjacency(eff, adj, seen, cur, part) && cur in eff && cur !in seen && d in eff
    ensures HalfAdjacency(eff, adj[d := adj[d] + [cur]], seen, cur, part + [d])
  {
    var next := adj[d := adj[d] + [cur]];
    forall n | n in next ensures HalfLists(eff, n, next[n], seen, cur, part + [d]) {
      assert HalfLists(eff, n, adj[n], seen, cur, part);
    }
  }

  lemma EnterStep(eff: Table, adj: Table, seen: set<Id>, cur: Id, next: Id)
    requires cur in eff && HalfAdjacency(eff, adj, seen, cur, eff[cur])
    ensures HalfAdjacency(eff, adj, seen + {cur}, next, [])
  {
    forall n | n in adj ensures HalfLists(eff, n, adj[n], seen + {cur}, next, []) {
      assert HalfLists(eff, n, adj[n], seen, cur, eff[cur]);
    }
  }

  lemma AllEntered(eff: Table, adj: Table, cur: Id)
    requires HalfAdjacency(eff, adj, eff.Keys, cur, [])
    ensures Adjacency(eff, adj)
  {
  }

  /** Enters what `cur` waits for. */
  method EnterDeps(ghost eff: Table, adj0: Table, cur: Id, ds: seq<Id>, ghost seen: set<Id>)
    returns (adj: Table)
    requires HalfAdjacency(eff, adj0, seen, cur, []) && cur in eff && cur !in seen && eff[cur] == ds
    requires forall d :: d in ds ==> d in eff
    ensures HalfAdjacency(eff, adj, seen, cur, ds)
  {
    adj := adj0;
    var j := 0;
    assert ds[..0] == [];
    while j < |ds|
      invariant j <= |ds| && HalfAdjacency(eff, adj, seen, cur, ds[..j])
    {
      EnterEdge(eff, adj, seen, cur, ds[..j], ds[j]);
      PrefixNext(ds, j);
      adj := adj[ds[j] := adj[ds[j]] + [cur]];
      j := j + 1;
    }
    assert ds[..j] == ds;
  }

  method BuildTable(rows: seq<Row>) returns (eff: Table, indeg: map<Id, int>)
    requires UniqueIds(rows)
    ensures TableOf(rows, eff) && ClosedTable(eff) && Counts(eff, indeg, [])
  {
    var names := Ids(rows);
    eff, indeg := map[], map[];
    var k := 0;
    while k < |rows|
      invariant k <= |rows| && Effective(rows, names, k, eff)
      invariant indeg.Keys == eff.Keys && forall m :: m in eff ==> indeg[m] == |eff[m]|
    {
      var here := Present(rows[k].deps, names);
      NextEffective(rows, names, k, eff);
      eff, indeg := eff[rows[k].id := here], indeg[rows[k].id := |here|];
      k := k + 1;
    }
    EffectiveIsTable(rows, eff);
    FreshCounts(eff, indeg);
  }

  lemma FreshCounts(eff: Table, indeg: map<Id, int>)
    requires indeg.Keys == eff.Keys && forall m :: m in eff ==> indeg[m] == |eff[m]|
    ensures Counts(eff, indeg, [])
  {
    forall m | m in eff ensures indeg[m] == Waiting(eff[m], []) { WaitingForAll(eff[m]); }
  }

  lemma NextEffective(rows: seq<Row>, names: set<Id>, n: nat, eff: Table)
    requires UniqueIds(rows) && n < |rows| && Effective(rows, names, n, eff)
    ensures Effective(rows, names, n + 1, eff[rows[n].id := Present(rows[n].deps, names)])
  {
    var eff' := eff[rows[n].id := Present(rows[n].deps, names)];
    forall k | 0 <= k < n + 1 ensures rows[k].id in eff' && eff'[rows[k].id] == Present(rows[k].deps, names) {
      if k < n { assert rows[k].id != rows[n].id; }
    }
    forall m ensures m in eff' <==> exists k :: 0 <= k < n + 1 && rows[k].id == m {
      if m in eff { var k :| 0 <= k < n && rows[k].id == m; }
    }
  }

  method BuildAdjacency(rows: seq<Row>, eff: Table) returns (adj: Table)
    requires UniqueIds(rows) && eff.Keys == Ids(rows) && ClosedTable(eff)
    ensures Adjacency(eff, adj)
  {
    adj := map m | m in eff :: [];
    assert HalfAdjacency(eff, adj, {}, if 0 < |rows| then rows[0].id else "", []);
    var k := 0;
    while k < |rows|
      invariant k <= |rows|
      invariant HalfAdjacency(eff, adj, Before(rows, k), if k < |rows| then rows[k].id else "", [])
    {
      var cur := rows[k].id;
      NotBefore(rows, k);
      adj := EnterDeps(eff, adj, cur, eff[cur], Before(rows, k));
      EnterStep(eff, adj, Before(rows, k), cur, if k + 1 < |rows| then rows[k + 1].id else "");
      k := k + 1;
    }
    BeforeAll(rows);
    AllEntered(eff, adj, "");
  }

  method FirstQueue(rows: seq<Row>, indeg: map<Id, int>) returns (queue: seq<Id>)
    requires UniqueIds(rows) && indeg.Keys == Ids(rows)
    ensures QueueIs(queue, indeg, [])
  {
    queue := [];
    var k := 0;
    while k < |rows|
      invariant k <= |rows| && Distinct(queue)
      invariant forall m :: m in queue <==> m in Before(rows, k) && m in indeg && indeg[m] == 0
    {
      NotBefore(rows, k);
      if indeg[rows[k].id] == 0 {
        queue := queue + [rows[k].id];
      }
      k := k + 1;
    }
    BeforeAll(rows);
  }

  /** Kahn's algorithm over the rows: how many names it visits. It visits all of them exactly when a
      topological order exists, and then the order of its visits is one. */
  method Visits(rows: seq<Row>) returns (visited: nat, ghost order: seq<Id>)
    requires UniqueIds(rows)
    ensures visited == |rows| <==> Acyclic(rows)
    ensures visited == |rows| ==> Topological(rows, order)
    ensures visited <= |rows|
  {
    var eff, indeg := BuildTable(rows);
    var adj := BuildAdjacency(rows, eff);
    var queue := FirstQueue(rows, indeg);
    visited, order := Drain(eff, indeg, adj, queue);
    DrainedMeansAcyclic(rows, eff, order);
  }

  /** The evaluations' check that a plan has no cycle. */
  method CheckPlanAcyclic(rows: seq<Row>) returns (passed: bool)
    requires UniqueIds(rows)
    ensures passed <==> Acyclic(rows)
  {
    var visited, _ := Visits(rows);
    passed := visited == |rows|;
  }

  // ---------- the strict probe's check: sets of edges, every step scanned ----------

  function Waits(edges: map<Id, set<Id>>, i: Id): set<Id> {
    if i in edges then edges[i] else {}
  }

  /** The rows the probe's ids and edges stand for. */
  ghost predicate SameGraph(rows: seq<Row>, ids: seq<Id>, edges: map<Id, set<Id>>) {
    && |rows| == |ids|
    && forall k :: 0 <= k < |ids| ==>
         && rows[k].id == ids[k]
         && forall d :: d in rows[k].deps <==> d in Waits(edges, ids[k])
  }

  ghost function Popped(order: seq<Id>): set<Id> {
    set x | x in order
  }

  ghost predicate SetCounts(inner: map<Id, set<Id>>, indeg: map<Id, int>, order: seq<Id>) {
    && indeg.Keys == inner.Keys
    && forall m :: m in inner ==> indeg[m] == |inner[m] - Popped(order)|
  }

  /** The counts when `n` has been taken off those in `seen` only. */
  ghost predicate HalfSetCounts(
    inner: map<Id, set<Id>>, indeg: map<Id, int>, order: seq<Id>, n: Id, seen: set<Id>)
  {
    && indeg.Keys == inner.Keys
    && forall m :: m in inner ==>
         indeg[m] == if m in seen then |inner[m] - Popped(order + [n])| else |inner[m] - Popped(order)|
  }

  lemma OneLess(waits: set<Id>, order: seq<Id>, n: Id)
    requires n !in order
    ensures |waits - Popped(order + [n])| == |waits - Popped(order)| - if n in waits then 1 else 0
  {
    if n in waits {
      assert waits - Popped(order) == (waits - Popped(order + [n])) + {n};
    } else {
      assert waits - Popped(order) == waits - Popped(order + [n]);
    }
  }

  lemma ScanStep(inner: map<Id, set<Id>>, indeg: map<Id, int>, order: seq<Id>, n: Id, seen: set<Id>, other: Id,
                 next: map<Id, int>)
    requires HalfSetCounts(inner, indeg, order, n, seen) && n !in order && other in inner && other !in seen
    requires next == if n in inner[other] then indeg[other := indeg[other] - 1] else indeg
    ensures HalfSetCounts(inner, next, order, n, seen + {other})
    ensures n in inner[other] ==> indeg[other] > 0
  {
    OneLess(inner[other], order, n);
  }

  lemma ReadyStep(indeg: map<Id, int>, ready: seq<Id>, order: seq<Id>, other: Id, next: map<Id, int>)
    requires QueueIs(ready, indeg, order) && other in indeg && other !in order && indeg[other] > 0
    requires next == indeg[other := indeg[other] - 1]
    ensures QueueIs(if next[other] == 0 then ready + [other] else ready, next, order)
  {
  }

  lemma PoppedNext(ids: seq<Id>, k: nat)
    requires Distinct(ids) && k < |ids|
    ensures ids[k] !in Popped(ids[..k])
    ensures Popped(ids[..k + 1]) == Popped(ids[..k]) + {ids[k]}
  {
  }

  lemma AllScanned(inner: map<Id, set<Id>>, indeg: map<Id, int>, order: seq<Id>, n: Id, ids: seq<Id>)
    requires HalfSetCounts(inner, indeg, order, n, Popped(ids)) && forall m :: m in ids <==> m in inner
    ensures SetCounts(inner, indeg, order + [n])
  {
  }

  /** Scans every step once for those that wait for `n`. */
  method Scan(ids: seq<Id>, inner: map<Id, set<Id>>, indeg0: map<Id, int>, ready0: seq<Id>, n: Id,
              ghost order: seq<Id>)
    returns (indeg: map<Id, int>, ready: seq<Id>)
    requires Distinct(ids) && (forall m :: m in ids <==> m in inner)
    requires n !in order && (forall m :: m in inner && m in order + [n] ==> n !in inner[m])
    requires SetCounts(inner, indeg0, order) && QueueIs(ready0, indeg0, order + [n])
    ensures SetCounts(inner, indeg, order + [n]) && QueueIs(ready, indeg, order + [n])
  {
    indeg, ready := indeg0, ready0;
    var k := 0;
    while k < |ids|
      invariant k <= |ids| && HalfSetCounts(inner, indeg, order, n, Popped(ids[..k]))
      invariant QueueIs(ready, indeg, order + [n])
    {
      var other := ids[k];
      assert other in ids;
      PoppedNext(ids, k);
      ghost var next := if n in inner[other] then indeg[other := indeg[other] - 1] else indeg;
      ScanStep(inner, indeg, order, n, Popped(ids[..k]), other, next);
      if n in inner[other] {
        ReadyStep(indeg, ready, order + [n], other, next);
        indeg := indeg[other := indeg[other] - 1];
        if indeg[other] == 0 {
          ready := ready + [other];
        }
      }
      k := k + 1;
    }
    assert ids[..k] == ids;
    AllScanned(inner, indeg, order, n, ids);
  }

  lemma SetPopOrdered(deps: Table, inner: map<Id, set<Id>>, order: seq<Id>, n: Id)
    requires Ordered(deps, order) && n in deps && n !in order
    requires inner.Keys == deps.Keys && forall m, d :: m in deps ==> (d in inner[m] <==> d in deps[m])
    requires |inner[n] - Popped(order)| == 0
    ensures Ordered(deps, order + [n])
    ensures forall m :: m in deps && m in order + [n] ==> n !in inner[m]
  {
    assert inner[n] - Popped(order) == {};
    var next := order + [n];
    forall i, d | 0 <= i < |next| && d in deps[next[i]] ensures d in next[..i] {
      if i < |order| {
        assert next[..i] == order[..i];
      } else {
        assert next[..i] == order;
        assert d in inner[n];
        assert d in Popped(order) by { assert d !in inner[n] - Popped(order); }
      }
    }
    forall m | m in deps && m in next ensures n !in inner[m] {
      var i :| 0 <= i < |next| && next[i] == m;
      assert n !in next[..i];
    }
  }

  method ProbeDrain(ids: seq<Id>, inner: map<Id, set<Id>>, indeg0: map<Id, int>, ready0: seq<Id>, ghost deps: Table)
    returns (seen: nat, ghost order: seq<Id>)
    requires Distinct(ids) && (forall m :: m in ids <==> m in inner)
    requires inner.Keys == deps.Keys && forall m, d :: m in deps ==> (d in inner[m] <==> d in deps[m])
    requires SetCounts(inner, indeg0, []) && QueueIs(ready0, indeg0, [])
    ensures Ordered(deps, order) && seen == |order| && RestBlocked(deps, order)
  {
    var indeg, ready := indeg0, ready0;
    seen, order := 0, [];
    while ready != []
      invariant SetCounts(inner, indeg, order) && QueueIs(ready, indeg, order)
      invariant Ordered(deps, order) && seen == |order|
      decreases |deps.Keys - Popped(order)|
    {
      var n := ready[|ready| - 1];
      assert n in ready;
      SetPopOrdered(deps, inner, order, n);
      PopQueue(ready, indeg, order);
      Shrinks(deps, order, n);
      indeg, ready := Scan(ids, inner, indeg, ready[..|ready| - 1], n, order);
      seen, order := seen + 1, order + [n];
    }
    forall m | m in deps && m !in order ensures Blocked(deps, order, m) {
      assert m !in ready;
      assert inner[m] - Popped(order) != {};
      var d :| d in inner[m] - Popped(order);
      assert d in deps[m];
    }
  }

  /** The edges among the steps themselves. */
  ghost predicate Cut(ids: seq<Id>, edges: map<Id, set<Id>>, inner: map<Id, set<Id>>) {
    && inner.Keys == Popped(ids)
    && forall m :: m in inner ==> inner[m] == Waits(edges, m) * Popped(ids)
  }

  function CutEdges(ids: seq<Id>, edges: map<Id, set<Id>>): (inner: map<Id, set<Id>>)
    ensures Cut(ids, edges, inner)
  {
    var names := set x | x in ids;
    map i | i in names :: Waits(edges, i) * names
  }

  lemma StartCounts(inner: map<Id, set<Id>>, indeg: map<Id, int>)
    requires indeg.Keys == inner.Keys && forall m :: m in inner ==> indeg[m] == |inner[m]|
    ensures SetCounts(inner, indeg, [])
  {
  }

  method FirstReady(ids: seq<Id>, indeg: map<Id, int>) returns (ready: seq<Id>)
    requires Distinct(ids) && forall m :: m in ids <==> m in indeg
    ensures QueueIs(ready, indeg, [])
  {
    ready := [];
    var k := 0;
    while k < |ids|
      invariant k <= |ids| && Distinct(ready)
      invariant forall m :: m in ready <==> m in Popped(ids[..k]) && m in indeg && indeg[m] == 0
    {
      PoppedNext(ids, k);
      assert ids[k] in ids;
      if indeg[ids[k]] == 0 {
        ready := ready + [ids[k]];
      }
      k := k + 1;
    }
    assert ids[..k] == ids;
  }

  lemma ProbeTable(rows: seq<Row>, ids: seq<Id>, edges: map<Id, set<Id>>, inner: map<Id, set<Id>>, deps: Table)
    requires Distinct(ids) && SameGraph(rows, ids, edges) && UniqueIds(rows) && TableOf(rows, deps)
    requires Cut(ids, edges, inner)
    ensures inner.Keys == deps.Keys && forall m, d :: m in deps ==> (d in inner[m] <==> d in deps[m])
  {
  }

  lemma {:induction false} EffectiveExists(rows: seq<Row>, n: nat) returns (eff: Table)
    requires UniqueIds(rows) && n <= |rows|
    ensures Effective(rows, Ids(rows), n, eff)
  {
    if n == 0 {
      eff := map[];
    } else {
      eff := EffectiveExists(rows, n - 1);
      eff := eff[rows[n - 1].id := Present(rows[n - 1].deps, Ids(rows))];
    }
  }

  /** The strict probe's check. */
  method ProbeCyclic(ids: seq<Id>, edges: map<Id, set<Id>>, ghost rows: seq<Row>) returns (cyclic: bool)
    requires Distinct(ids) && SameGraph(rows, ids, edges)
    ensures cyclic <==> !Acyclic(rows)
  {
    var inner := CutEdges(ids, edges);
    var indeg := map i | i in inner :: |inner[i]|;
    StartCounts(inner, indeg);
    var ready := FirstReady(ids, indeg);
    ghost var deps := EffectiveExists(rows, |rows|);
    EffectiveIsTable(rows, deps);
    ProbeTable(rows, ids, edges, inner, deps);
    var seen, order := ProbeDrain(ids, inner, indeg, ready, deps);
    DrainedMeansAcyclic(rows, deps, order);
    DistinctCount(ids);
    cyclic := seen < |set x | x in ids|;
  }
}
