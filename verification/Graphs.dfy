/** Dependency graphs, written as the source does: rows of a name and the names it waits for.
    A dependency on a name no row has is an edge from nowhere and is ignored. */
module Graphs {
  import opened Sequences
  import opened Ir

  datatype Row = Row(id: Id, deps: seq<Id>)

  function Ids(rows: seq<Row>): (s: set<Id>)
    ensures forall x :: x in s <==> exists k :: 0 <= k < |rows| && rows[k].id == x
  {
    set k | 0 <= k < |rows| :: rows[k].id
  }

  ghost predicate UniqueIds(rows: seq<Row>) {
    forall i, j :: 0 <= i < j < |rows| ==> rows[i].id != rows[j].id
  }

  /** The names of the first `n` rows. */
  function Before(rows: seq<Row>, n: nat): (s: set<Id>)
    requires n <= |rows|
  {
    if n == 0 then {} else Before(rows, n - 1) + {rows[n - 1].id}
  }

  lemma {:induction false} BeforeIs(rows: seq<Row>, n: nat)
    requires n <= |rows|
    ensures forall x :: x in Before(rows, n) <==> exists k :: 0 <= k < n && rows[k].id == x
  {
    if n > 0 { BeforeIs(rows, n - 1); }
  }

  lemma NotBefore(rows: seq<Row>, n: nat)
    requires UniqueIds(rows) && n < |rows|
    ensures rows[n].id !in Before(rows, n)
  {
    BeforeIs(rows, n);
  }

  lemma BeforeAll(rows: seq<Row>)
    ensures Before(rows, |rows|) == Ids(rows)
  {
    BeforeIs(rows, |rows|);
  }

  /** `b` waits for `a`. */
  ghost predicate Edge(rows: seq<Row>, a: Id, b: Id) {
    exists k :: 0 <= k < |rows| && rows[k].id == b && a in rows[k].deps
  }

  /** An order of all the rows' names in which nothing comes before what it waits for. */
  ghost predicate Topological(rows: seq<Row>, order: seq<Id>) {
    && Distinct(order)
    && (forall x :: x in order <==> x in Ids(rows))
    && forall i, j :: 0 <= i < |order| && 0 <= j < |order| && Edge(rows, order[j], order[i]) ==> j < i
  }

  ghost predicate Acyclic(rows: seq<Row>) {
    exists order: seq<Id> :: Topological(rows, order)
  }

  /** Names that all wait for one another: what a cycle leaves when everything else has run. */
  ghost predicate Stuck(rows: seq<Row>, u: set<Id>) {
    u != {} && u <= Ids(rows) && forall b {:trigger WaitsWithin(rows, u, b)} :: b in u ==> WaitsWithin(rows, u, b)
  }

  ghost predicate WaitsWithin(rows: seq<Row>, u: set<Id>, b: Id) {
    exists a :: a in u && Edge(rows, a, b)
  }

  lemma EarlierStuck(rows: seq<Row>, order: seq<Id>, u: set<Id>, i: nat) returns (j: nat)
    requires Topological(rows, order) && Stuck(rows, u) && i < |order| && order[i] in u
    ensures j < i && order[j] in u
  {
    assert WaitsWithin(rows, u, order[i]);
    var a :| a in u && Edge(rows, a, order[i]);
    assert a in order;
    j :| 0 <= j < |order| && order[j] == a;
  }

  /** Nothing in a topological order is stuck: before it there would be another stuck name. */
  lemma {:induction false} NothingStuckAt(rows: seq<Row>, order: seq<Id>, u: set<Id>, i: nat)
    requires Topological(rows, order) && Stuck(rows, u) && i < |order|
    ensures order[i] !in u
    decreases i
  {
    if order[i] in u {
      var j := EarlierStuck(rows, order, u, i);
      NothingStuckAt(rows, order, u, j);
    }
  }

  /** A graph with a stuck set of names has no topological order. */
  lemma StuckMeansCyclic(rows: seq<Row>, u: set<Id>)
    requires Stuck(rows, u)
    ensures !Acyclic(rows)
  {
    forall order | Topological(rows, order) ensures false {
      var b :| b in u;
      assert b in order;
      var i :| 0 <= i < |order| && order[i] == b;
      NothingStuckAt(rows, order, u, i);
    }
  }

  /** Distinct names number as many as their set. */
  lemma {:induction false} DistinctCount<T>(s: seq<T>)
    requires Distinct(s)
    ensures |(set x | x in s)| == |s|
  {
    if s == [] {
      assert (set x | x in s) == {};
    } else {
      var init, last := s[..|s| - 1], s[|s| - 1];
      DistinctCount(init);
      assert (set x | x in s) == (set x | x in init) + {last};
    }
  }

  lemma {:induction false} SubsetCount<T>(a: set<T>, b: set<T>)
    requires a <= b
    ensures |a| <= |b|
    ensures |a| == |b| ==> a == b
  {
    assert |b| == |a| + |b - a| by { assert b == a + (b - a); }
    if |a| == |b| { assert b - a == {}; }
  }

  lemma IdsCount(rows: seq<Row>)
    requires UniqueIds(rows)
    ensures |Ids(rows)| == |rows|
  {
    var names := seq(|rows|, i requires 0 <= i < |rows| => rows[i].id);
    DistinctCount(names);
    assert forall k :: 0 <= k < |rows| ==> names[k] == rows[k].id;
    assert (set x | x in names) == Ids(rows);
  }
}
