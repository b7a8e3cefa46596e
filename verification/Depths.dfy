/** Fixpoints over a plan's edges: the column each step is drawn in (jobsmith/dag/state.py), and what is
    downstream of a step (evals/scoring.py). */
module Depths {
  import opened Sequences
  import opened Ir
  import opened Graphs

  // ---------- paths ----------

  /** Names of the plan, each waiting for the one before it. */
  ghost predicate IsPath(rows: seq<Row>, p: seq<Id>) {
    && p != []
    && (forall i :: 0 <= i < |p| ==> p[i] in Ids(rows))
    && forall i :: 0 <= i < |p| - 1 ==> Edge(rows, p[i], p[i + 1])
  }

  ghost predicate PathTo(rows: seq<Row>, p: seq<Id>, n: Id) {
    IsPath(rows, p) && p[|p| - 1] == n
  }

  lemma PathExtends(rows: seq<Row>, p: seq<Id>, a: Id, b: Id)
    requires PathTo(rows, p, a) && Edge(rows, a, b) && b in Ids(rows)
    ensures PathTo(rows, p + [b], b)
  {
  }

  lemma PathShortens(rows: seq<Row>, p: seq<Id>, n: Id)
    requires PathTo(rows, p, n) && |p| > 1
    ensures PathTo(rows, p[..|p| - 1], p[|p| - 2]) && Edge(rows, p[|p| - 2], n)
  {
  }

  /** A path visits a topological order no faster than one place at a time. */
  lemma {:induction false} PathPosition(rows: seq<Row>, order: seq<Id>, p: seq<Id>, i: nat) returns (pos: nat)
    requires Topological(rows, order) && IsPath(rows, p) && i < |p|
    ensures i <= pos < |order| && order[pos] == p[i]
  {
    assert p[i] in order;
    pos :| 0 <= pos < |order| && order[pos] == p[i];
    if i > 0 {
      var before := PathPosition(rows, order, p, i - 1);
      assert Edge(rows, p[i - 1], p[i - 1 + 1]);
    }
  }

  lemma PathsAreShort(rows: seq<Row>, p: seq<Id>)
    requires Acyclic(rows) && IsPath(rows, p)
    ensures |p| <= |rows|
  {
    var order :| Topological(rows, order);
    var pos := PathPosition(rows, order, p, |p| - 1);
    DistinctCount(order);
    assert (set x | x in order) == Ids(rows);
    FewIds(rows);
  }

  lemma FewIds(rows: seq<Row>)
    ensures |Ids(rows)| <= |rows|
  {
    BeforeAll(rows);
    BeforeCount(rows, |rows|);
  }

  lemma {:induction false} BeforeCount(rows: seq<Row>, n: nat)
    requires n <= |rows|
    ensures |Before(rows, n)| <= n
  {
    if n > 0 { BeforeCount(rows, n - 1); }
  }

  // ---------- the longest-path depth ----------

  /** `d` is the length of the longest path to each name. */
  ghost predicate LongestDepths(rows: seq<Row>, d: map<Id, nat>) {
    && d.Keys == Ids(rows)
    && (forall n {:trigger Attained(rows, d, n)} :: n in d ==> Attained(rows, d, n))
    && forall n, p :: n in d && PathTo(rows, p, n) ==> |p| - 1 <= d[n]
  }

  ghost predicate Attained(rows: seq<Row>, d: map<Id, nat>, n: Id)
    requires n in d
  {
    exists p :: PathTo(rows, p, n) && |p| - 1 == d[n]
  }

  /** Every path of at most `k` edges is accounted for. */
  ghost predicate CoversUpTo(rows: seq<Row>, d: map<Id, nat>, k: nat) {
    forall n, p :: n in d && PathTo(rows, p, n) && |p| - 1 <= k ==> |p| - 1 <= d[n]
  }

  ghost predicate AllAttained(rows: seq<Row>, d: map<Id, nat>) {
    d.Keys == Ids(rows) && forall n {:trigger Attained(rows, d, n)} :: n in d ==> Attained(rows, d, n)
  }

  /** One pass over all edges: no depth fell, and every edge was pulled on. */
  ghost predicate Relaxed(rows: seq<Row>, before: map<Id, nat>, after: map<Id, nat>) {
    && after.Keys == before.Keys
    && (forall n :: n in before ==> before[n] <= after[n])
    && forall a, b :: a in before && b in before && Edge(rows, a, b) ==> before[a] + 1 <= after[b]
  }

  lemma RelaxingCovers(rows: seq<Row>, before: map<Id, nat>, after: map<Id, nat>, k: nat)
    requires before.Keys == Ids(rows) && CoversUpTo(rows, before, k) && Relaxed(rows, before, after)
    ensures CoversUpTo(rows, after, k + 1)
  {
    forall n, p | n in after && PathTo(rows, p, n) && |p| - 1 <= k + 1 ensures |p| - 1 <= after[n] {
      if |p| > 1 {
        PathShortens(rows, p, n);
        assert p[|p| - 2] in Ids(rows);
      }
    }
  }

  lemma {:induction false} FixpointCovers(rows: seq<Row>, d: map<Id, nat>, k: nat)
    requires d.Keys == Ids(rows) && Relaxed(rows, d, d)
    ensures CoversUpTo(rows, d, k)
  {
    if k > 0 {
      FixpointCovers(rows, d, k - 1);
      RelaxingCovers(rows, d, d, k - 1);
    }
  }

  lemma PullKeepsAttained(rows: seq<Row>, d: map<Id, nat>, a: Id, b: Id)
    requires AllAttained(rows, d) && a in d && b in d && Edge(rows, a, b)
    ensures AllAttained(rows, d[b := d[a] + 1])
  {
    assert Attained(rows, d, a);
    var p :| PathTo(rows, p, a) && |p| - 1 == d[a];
    PathExtends(rows, p, a, b);
    var next := d[b := d[a] + 1];
    forall n | n in next ensures Attained(rows, next, n) {
      if n == b {
        assert PathTo(rows, p + [b], b) && |p + [b]| - 1 == next[b];
      } else {
        assert Attained(rows, d, n);
      }
    }
  }

  /** Every edge of the first `n` rows was pulled on. */
  ghost predicate PulledRows(rows: seq<Row>, start: map<Id, nat>, d: map<Id, nat>, n: nat)
    requires n <= |rows|
  {
    && d.Keys == start.Keys
    && (forall x :: x in start ==> start[x] <= d[x])
    && forall k :: 0 <= k < n && rows[k].id in d ==> PulledDeps(rows[k].deps, start, d[rows[k].id])
  }

  ghost predicate PulledDeps(deps: seq<Id>, start: map<Id, nat>, depth: nat) {
    forall a :: a in deps && a in start ==> start[a] + 1 <= depth
  }

  method RelaxRow(ghost rows: seq<Row>, row: Row, ghost start: map<Id, nat>, d0: map<Id, nat>)
    returns (d: map<Id, nat>, changed: bool)
    requires row in rows && AllAttained(rows, d0) && d0.Keys == start.Keys
    requires forall x :: x in start ==> start[x] <= d0[x]
    ensures AllAttained(rows, d) && d.Keys == d0.Keys && forall x :: x in d0 ==> d0[x] <= d[x]
    ensures row.id in d && PulledDeps(row.deps, start, d[row.id])
    ensures !changed ==> d == d0
  {
    d, changed := d0, false;
    var j := 0;
    assert row.id in Ids(rows);
    while j < |row.deps|
      invariant j <= |row.deps| && AllAttained(rows, d) && d.Keys == d0.Keys
      invariant forall x :: x in d0 ==> d0[x] <= d[x]
      invariant PulledDeps(row.deps[..j], start, d[row.id])
      invariant !changed ==> d == d0
    {
      var dep := row.deps[j];
      assert row.deps[..j + 1] == row.deps[..j] + [dep];
      if dep in d && d[dep] + 1 > d[row.id] {
        ghost var k :| 0 <= k < |rows| && rows[k] == row;
        assert dep in rows[k].deps;
        PullKeepsAttained(rows, d, dep, row.id);
        d, changed := d[row.id := d[dep] + 1], true;
      }
      j := j + 1;
    }
    assert row.deps[..j] == row.deps;
  }

  method Relax(rows: seq<Row>, d0: map<Id, nat>) returns (d: map<Id, nat>, changed: bool)
    requires AllAttained(rows, d0)
    ensures AllAttained(rows, d) && Relaxed(rows, d0, d)
    ensures !changed ==> d == d0
  {
    d, changed := d0, false;
    var k := 0;
    while k < |rows|
      invariant k <= |rows| && AllAttained(rows, d) && PulledRows(rows, d0, d, k)
      invariant !changed ==> d == d0
    {
      ghost var before := d;
      var moved;
      d, moved := RelaxRow(rows, rows[k], d0, d);
      PullMore(rows, d0, before, d, k);
      changed := changed || moved;
      k := k + 1;
    }
    PulledIsRelaxed(rows, d0, d);
  }

  lemma PullMore(rows: seq<Row>, start: map<Id, nat>, before: map<Id, nat>, d: map<Id, nat>, k: nat)
    requires k < |rows| && PulledRows(rows, start, before, k)
    requires d.Keys == before.Keys && forall x :: x in before ==> before[x] <= d[x]
    requires rows[k].id in d && PulledDeps(rows[k].deps, start, d[rows[k].id])
    ensures PulledRows(rows, start, d, k + 1)
  {
  }

  lemma PulledIsRelaxed(rows: seq<Row>, start: map<Id, nat>, d: map<Id, nat>)
    requires PulledRows(rows, start, d, |rows|)
    ensures Relaxed(rows, start, d)
  {
  }

  /** Depth by relaxation, in at most as many rounds as there are rows: the longest-path depth of every
      step of an acyclic plan, whatever order its steps are listed in. */
  method PlanDepths(rows: seq<Row>) returns (d: map<Id, nat>)
    ensures d.Keys == Ids(rows)
    ensures Acyclic(rows) ==> LongestDepths(rows, d)
  {
    d := map n | n in Ids(rows) :: 0;
    StartAttained(rows, d);
    var round := 0;
    while round < |rows|
      invariant round <= |rows| && AllAttained(rows, d) && CoversUpTo(rows, d, round)
    {
      ghost var before := d;
      var changed;
      d, changed := Relax(rows, d);
      RelaxingCovers(rows, before, d, round);
      round := round + 1;
      if !changed {
        FixpointCovers(rows, d, |rows|);
        break;
      }
    }
    if Acyclic(rows) {
      forall n, p | n in d && PathTo(rows, p, n) ensures |p| - 1 <= d[n] {
        PathsAreShort(rows, p);
      }
    }
  }

  lemma StartAttained(rows: seq<Row>, d: map<Id, nat>)
    requires d.Keys == Ids(rows) && forall n :: n in d ==> d[n] == 0
    ensures AllAttained(rows, d) && CoversUpTo(rows, d, 0)
  {
    forall n | n in d ensures Attained(rows, d, n) {
      assert PathTo(rows, [n], n);
    }
  }

  /** Every edge goes from a column to a later one. */
  lemma EdgesGoRight(rows: seq<Row>, d: map<Id, nat>, a: Id, b: Id)
    requires LongestDepths(rows, d) && a in d && b in d && Edge(rows, a, b)
    ensures d[a] < d[b]
  {
    assert Attained(rows, d, a);
    var p :| PathTo(rows, p, a) && |p| - 1 == d[a];
    PathExtends(rows, p, a, b);
  }

  ghost predicate SameEdges(rows: seq<Row>, other: seq<Row>) {
    Ids(rows) == Ids(other) && forall a, b :: Edge(rows, a, b) <==> Edge(other, a, b)
  }

  lemma SamePaths(rows: seq<Row>, other: seq<Row>, p: seq<Id>, n: Id)
    requires SameEdges(rows, other) && PathTo(rows, p, n)
    ensures PathTo(other, p, n)
  {
  }

  /** The depths are the graph's: two listings of the same edges are drawn in the same columns. */
  lemma ListingOrderNeverShows(rows: seq<Row>, other: seq<Row>, d: map<Id, nat>, e: map<Id, nat>)
    requires SameEdges(rows, other) && LongestDepths(rows, d) && LongestDepths(other, e)
    ensures d == e
  {
    forall n | n in d ensures n in e && d[n] == e[n] {
      assert Attained(rows, d, n) && Attained(other, e, n);
      var p :| PathTo(rows, p, n) && |p| - 1 == d[n];
      var q :| PathTo(other, q, n) && |q| - 1 == e[n];
      SamePaths(rows, other, p, n);
      SamePaths(other, rows, q, n);
    }
  }

  // ---------- the columns ----------

  /** The names at depth `k`, in plan order. */
  function Column(rows: seq<Row>, d: map<Id, nat>, k: nat): seq<Id> {
    if rows == [] then []
    else
      var last := rows[|rows| - 1].id;
      Column(rows[..|rows| - 1], d, k) + if last in d && d[last] == k then [last] else []
  }

  /** The names of the rows, as they are listed. */
  function Names(rows: seq<Row>): seq<Id> {
    if rows == [] then [] else [rows[0].id] + Names(rows[1..])
  }

  lemma {:induction false} NamesOfOneMore(rows: seq<Row>, last: Row)
    ensures Names(rows + [last]) == Names(rows) + [last.id]
  {
    if rows == [] {
      assert rows + [last] == [last];
    } else {
      assert (rows + [last])[1..] == rows[1..] + [last];
      NamesOfOneMore(rows[1..], last);
    }
  }

  /** A column is what of the plan is at its depth, in the order the plan lists it. */
  lemma {:induction false} ColumnIsInPlanOrder(rows: seq<Row>, d: map<Id, nat>, k: nat)
    ensures Column(rows, d, k) == Filter(Names(rows), (n: Id) => n in d && d[n] == k)
  {
    if rows != [] {
      var init, last := rows[..|rows| - 1], rows[|rows| - 1];
      assert rows == init + [last];
      ColumnIsInPlanOrder(init, d, k);
      NamesOfOneMore(init, last);
      FilterOneMore(Names(init), last.id, (n: Id) => n in d && d[n] == k);
    }
  }

  /** One more than the deepest. */
  ghost predicate Width(rows: seq<Row>, d: map<Id, nat>, width: nat) {
    && (forall n :: n in d ==> d[n] < width)
    && (width > 0 ==> exists n :: n in d && d[n] == width - 1)
  }

  method Widest(rows: seq<Row>, d: map<Id, nat>) returns (width: nat)
    requires d.Keys == Ids(rows)
    ensures Width(rows, d, width)
  {
    width := 0;
    var k := 0;
    while k < |rows|
      invariant k <= |rows|
      invariant forall n :: n in Before(rows, k) ==> n in d && d[n] < width
      invariant width > 0 ==> exists n :: n in d && d[n] == width - 1
    {
      if d[rows[k].id] + 1 > width {
        width := d[rows[k].id] + 1;
      }
      k := k + 1;
    }
    BeforeAll(rows);
  }

  /** One column for each depth there is, each in plan order. */
  ghost predicate DrawnBy(rows: seq<Row>, d: map<Id, nat>, waves: seq<seq<Id>>) {
    && d.Keys == Ids(rows) && Width(rows, d, |waves|)
    && forall k :: 0 <= k < |waves| ==> waves[k] == Column(rows, d, k)
  }

  /** The steps grouped by depth, each group in plan order. */
  method PlanWaves(rows: seq<Row>) returns (waves: seq<seq<Id>>)
    ensures exists d :: DrawnBy(rows, d, waves) && (Acyclic(rows) ==> LongestDepths(rows, d))
  {
    var depth := PlanDepths(rows);
    var width := Widest(rows, depth);
    waves := seq(width, i => []);
    var k := 0;
    while k < |rows|
      invariant k <= |rows| && |waves| == width
      invariant forall c :: 0 <= c < width ==> waves[c] == Column(rows[..k], depth, c)
    {
      var name := rows[k].id;
      assert rows[..k + 1][..k] == rows[..k];
      waves := waves[depth[name] := waves[depth[name]] + [name]];
      k := k + 1;
    }
    assert rows[..k] == rows;
    assert DrawnBy(rows, depth, waves);
  }

  lemma {:induction false} ColumnIs(rows: seq<Row>, d: map<Id, nat>, k: nat)
    ensures forall n :: n in Column(rows, d, k) <==> n in Ids(rows) && n in d && d[n] == k
    ensures UniqueIds(rows) ==> Distinct(Column(rows, d, k))
  {
    if rows != [] {
      var init, last := rows[..|rows| - 1], rows[|rows| - 1].id;
      ColumnIs(init, d, k);
      forall n ensures n in Ids(rows) <==> n in Ids(init) || n == last {
        if n in Ids(rows) { var i :| 0 <= i < |rows| && rows[i].id == n; if i < |init| { assert init[i].id == n; } }
        if n in Ids(init) { var i :| 0 <= i < |init| && init[i].id == n; assert rows[i].id == n; }
        if n == last { assert rows[|rows| - 1].id == n; }
      }
    }
  }

  /** The columns partition the steps: `n` is in column `k` exactly when `k` is its depth, once if ids are
      unique, and there is a column for it; and no column is empty. */
  lemma WavesPartition(rows: seq<Row>, d: map<Id, nat>, width: nat, n: Id, k: nat)
    requires LongestDepths(rows, d) && Width(rows, d, width)
    ensures n in Column(rows, d, k) <==> n in Ids(rows) && d[n] == k
    ensures n in Ids(rows) ==> d[n] < width
    ensures UniqueIds(rows) ==> Distinct(Column(rows, d, k))
    ensures k < width ==> Column(rows, d, k) != []
  {
    ColumnIs(rows, d, k);
    if k < width { NoEmptyColumn(rows, d, width, k); }
  }

  lemma NoEmptyColumn(rows: seq<Row>, d: map<Id, nat>, width: nat, k: nat)
    requires LongestDepths(rows, d) && Width(rows, d, width) && k < width
    ensures Column(rows, d, k) != []
  {
    var n :| n in d && d[n] == width - 1;
    assert Attained(rows, d, n);
    var p :| PathTo(rows, p, n) && |p| - 1 == d[n];
    ExactAlong(rows, d, p, n, k);
    ColumnIs(rows, d, k);
    assert p[k] in Column(rows, d, k);
  }

  lemma PathPrefix(rows: seq<Row>, p: seq<Id>, k: nat)
    requires IsPath(rows, p) && k < |p|
    ensures PathTo(rows, p[..k + 1], p[k])
  {
  }

  /** Along a longest path each name sits at its own place. */
  lemma {:induction false} ExactAlong(rows: seq<Row>, d: map<Id, nat>, p: seq<Id>, n: Id, k: nat)
    requires LongestDepths(rows, d) && PathTo(rows, p, n) && n in d && |p| - 1 == d[n] && k < |p|
    ensures p[k] in d && d[p[k]] == k
    decreases |p| - k
  {
    if k < |p| - 1 {
      ExactAlong(rows, d, p, n, k + 1);
      assert Edge(rows, p[k], p[k + 1]);
      EdgesGoRight(rows, d, p[k], p[k + 1]);
      PathPrefix(rows, p, k);
    }
  }

  // ---------- downstream ----------

  ghost predicate ClosedOver(rows: seq<Row>, s: set<Id>) {
    forall k :: 0 <= k < |rows| && (exists a :: a in rows[k].deps && a in s) ==> rows[k].id in s
  }

  /** A chain of edges from a source. */
  ghost predicate ChainFrom(rows: seq<Row>, sources: set<Id>, p: seq<Id>, n: Id) {
    && p != [] && p[0] in sources && p[|p| - 1] == n
    && forall i :: 0 <= i < |p| - 1 ==> Edge(rows, p[i], p[i + 1])
  }

  ghost predicate Reachable(rows: seq<Row>, sources: set<Id>, n: Id) {
    exists p :: ChainFrom(rows, sources, p, n)
  }

  lemma ReachesFurther(rows: seq<Row>, sources: set<Id>, a: Id, b: Id)
    requires Reachable(rows, sources, a) && Edge(rows, a, b)
    ensures Reachable(rows, sources, b)
  {
    var p :| ChainFrom(rows, sources, p, a);
    var q := p + [b];
    forall i | 0 <= i < |q| - 1 ensures Edge(rows, q[i], q[i + 1]) {
      if i < |p| - 1 { assert Edge(rows, p[i], p[i + 1]); }
    }
    assert ChainFrom(rows, sources, q, b);
  }

  lemma {:induction false} ClosedHoldsChains(rows: seq<Row>, sources: set<Id>, s: set<Id>, p: seq<Id>, n: Id)
    requires ClosedOver(rows, s) && sources <= s && ChainFrom(rows, sources, p, n)
    ensures n in s
    decreases |p|
  {
    if |p| > 1 {
      var q := p[..|p| - 1];
      assert Edge(rows, p[|p| - 2], p[|p| - 2 + 1]);
      forall i | 0 <= i < |q| - 1 ensures Edge(rows, q[i], q[i + 1]) { assert Edge(rows, p[i], p[i + 1]); }
      ClosedHoldsChains(rows, sources, s, q, p[|p| - 2]);
      var k :| 0 <= k < |rows| && rows[k].id == n && p[|p| - 2] in rows[k].deps;
    }
  }

  ghost predicate AllReachable(rows: seq<Row>, sources: set<Id>, s: set<Id>) {
    forall n {:trigger Reachable(rows, sources, n)} :: n in s ==> Reachable(rows, sources, n)
  }

  predicate Touches(deps: seq<Id>, s: set<Id>) {
    exists a :: a in deps && a in s
  }

  lemma TouchedIsReachable(rows: seq<Row>, sources: set<Id>, s: set<Id>, k: nat)
    requires k < |rows| && AllReachable(rows, sources, s) && Touches(rows[k].deps, s)
    ensures AllReachable(rows, sources, s + {rows[k].id})
  {
    var a :| a in rows[k].deps && a in s;
    assert Reachable(rows, sources, a);
    assert Edge(rows, a, rows[k].id);
    ReachesFurther(rows, sources, a, rows[k].id);
  }

  /** One round over the steps: adds nothing only when nothing is left to add. */
  method ReachRound(rows: seq<Row>, reached0: set<Id>, ghost sources: set<Id>) returns (reached: set<Id>)
    requires AllReachable(rows, sources, reached0)
    ensures AllReachable(rows, sources, reached) && reached0 <= reached <= reached0 + Ids(rows)
    ensures reached == reached0 <==> ClosedOver(rows, reached0)
  {
    reached := reached0;
    var k := 0;
    while k < |rows|
      invariant k <= |rows| && AllReachable(rows, sources, reached)
      invariant reached0 <= reached <= reached0 + Ids(rows)
      invariant ClosedOver(rows, reached0) ==> reached == reached0
      invariant reached == reached0 ==> forall i :: 0 <= i < k && Touches(rows[i].deps, reached0) ==> rows[i].id in reached0
    {
      if Touches(rows[k].deps, reached) {
        TouchedIsReachable(rows, sources, reached, k);
        assert rows[k].id in Ids(rows);
        reached := reached + {rows[k].id};
      }
      k := k + 1;
    }
    if reached == reached0 {
      assert forall i :: 0 <= i < |rows| && (exists a :: a in rows[i].deps && a in reached) ==> Touches(rows[i].deps, reached0);
    }
  }

  /** The steps of a set, in plan order. */
  function Listed(rows: seq<Row>, s: set<Id>): seq<Id> {
    if rows == [] then []
    else Listed(rows[..|rows| - 1], s) + if rows[|rows| - 1].id in s then [rows[|rows| - 1].id] else []
  }

  /** What is listed of a set is in the order the plan lists it. */
  lemma {:induction false} ListedIsInPlanOrder(rows: seq<Row>, s: set<Id>)
    ensures Listed(rows, s) == Filter(Names(rows), (n: Id) => n in s)
  {
    if rows != [] {
      var init, last := rows[..|rows| - 1], rows[|rows| - 1];
      assert rows == init + [last];
      ListedIsInPlanOrder(init, s);
      NamesOfOneMore(init, last);
      FilterOneMore(Names(init), last.id, (n: Id) => n in s);
    }
  }

  /** The steps after `sources`, in plan order: as many rounds as there are steps close over every chain
      of edges, on any plan, and the sources themselves are left out. */
  method DownstreamOf(rows: seq<Row>, sources: set<Id>) returns (found: seq<Id>)
    ensures forall n :: n in found <==> n in Ids(rows) && n !in sources && Reachable(rows, sources, n)
    ensures exists s :: found == Listed(rows, s)
  {
    var reached := sources;
    SourcesReachable(rows, sources);
    var round := 0;
    while round < |rows|
      invariant round <= |rows| && sources <= reached <= sources + Ids(rows) && AllReachable(rows, sources, reached)
      invariant ClosedOver(rows, reached) || |reached - sources| >= round
    {
      var before := reached;
      reached := ReachRound(rows, reached, sources);
      Growth(rows, sources, before, reached);
      round := round + 1;
    }
    EnoughRounds(rows, sources, reached);
    found := [];
    var k := 0;
    while k < |rows|
      invariant k <= |rows|
      invariant forall n :: n in found <==> n in Before(rows, k) && n in reached && n !in sources
      invariant found == Listed(rows[..k], reached - sources)
    {
      assert rows[..k + 1][..k] == rows[..k];
      if rows[k].id in reached && rows[k].id !in sources {
        found := found + [rows[k].id];
      }
      k := k + 1;
    }
    BeforeAll(rows);
    assert rows[..k] == rows;
    forall n ensures n in reached <==> Reachable(rows, sources, n) {
      if Reachable(rows, sources, n) {
        var p :| ChainFrom(rows, sources, p, n);
        ClosedHoldsChains(rows, sources, reached, p, n);
      }
    }
  }

  lemma SourcesReachable(rows: seq<Row>, sources: set<Id>)
    ensures AllReachable(rows, sources, sources)
  {
    forall n | n in sources ensures Reachable(rows, sources, n) {
      assert ChainFrom(rows, sources, [n], n);
    }
  }

  lemma Growth(rows: seq<Row>, sources: set<Id>, before: set<Id>, after: set<Id>)
    requires sources <= before <= after && (after == before <==> ClosedOver(rows, before))
    ensures ClosedOver(rows, after) || |after - sources| > |before - sources|
    ensures ClosedOver(rows, before) ==> ClosedOver(rows, after)
  {
    if after != before {
      var x :| x in after && x !in before;
      SubsetCount(before - sources, (after - sources) - {x});
    }
  }

  lemma EnoughRounds(rows: seq<Row>, sources: set<Id>, reached: set<Id>)
    requires sources <= reached <= sources + Ids(rows)
    requires ClosedOver(rows, reached) || |reached - sources| >= |rows|
    ensures ClosedOver(rows, reached)
  {
    if |reached - sources| >= |rows| {
      FewIds(rows);
      SubsetCount(reached - sources, Ids(rows));
      assert reached - sources == Ids(rows);
    }
  }
}
