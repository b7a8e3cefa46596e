/** What a job spends: the tally of its model calls, the ledger they are booked in, and the total carried
    from one attempt to the next (jobsmith/engine/usage.py, jobsmith/engine/manager.py). */
module Usages {
  import opened Sequences
  import opened Options

  datatype Usage = Usage(input: nat, output: nat, cached: nat, calls: nat, cost: Option<real>, models: seq<string>)

  function Zero(): Usage {
    Usage(0, 0, 0, 0, None, [])
  }

  function Priced(cost: Option<real>): real {
    if cost.Some? then cost.value else 0.0
  }

  function Unlisted(more: seq<string>, models: seq<string>): seq<string> {
    if more == [] then []
    else if more[0] in models then Unlisted(more[1..], models)
    else [more[0]] + Unlisted(more[1..], models)
  }

  function Plus(a: Usage, b: Usage): Usage {
    Usage(a.input + b.input, a.output + b.output, a.cached + b.cached, a.calls + b.calls,
          if a.cost.None? && b.cost.None? then None else Some(Priced(a.cost) + Priced(b.cost)),
          a.models + Unlisted(b.models, a.models))
  }

  // ---------- addition ----------

  lemma {:induction false} UnlistedMembers(more: seq<string>, models: seq<string>, m: string)
    ensures m in Unlisted(more, models) <==> m in more && m !in models
  {
    if more != [] {
      UnlistedMembers(more[1..], models, m);
      assert m in more <==> m == more[0] || m in more[1..];
    }
  }

  lemma {:induction false} UnlistedOfBoth(a: seq<string>, b: seq<string>, models: seq<string>)
    ensures Unlisted(a + b, models) == Unlisted(a, models) + Unlisted(b, models)
  {
    if a == [] {
      assert a + b == b;
    } else {
      assert (a + b)[1..] == a[1..] + b;
      UnlistedOfBoth(a[1..], b, models);
    }
  }

  lemma {:induction false} UnlistedTwice(c: seq<string>, a: seq<string>, b: seq<string>)
    ensures Unlisted(Unlisted(c, b), a) == Unlisted(c, a + Unlisted(b, a))
  {
    if c != [] {
      UnlistedMembers(b, a, c[0]);
      UnlistedTwice(c[1..], a, b);
      if c[0] !in b {
        assert ([c[0]] + Unlisted(c[1..], b))[1..] == Unlisted(c[1..], b);
      }
    }
  }

  lemma {:induction false} UnlistedFromNone(models: seq<string>)
    ensures Unlisted(models, []) == models
  {
    if models != [] { UnlistedFromNone(models[1..]); }
  }

  lemma ListingModelsAssociates(a: seq<string>, b: seq<string>, c: seq<string>)
    ensures a + Unlisted(b, a) + Unlisted(c, a + Unlisted(b, a)) == a + Unlisted(b + Unlisted(c, b), a)
  {
    UnlistedOfBoth(b, Unlisted(c, b), a);
    UnlistedTwice(c, a, b);
  }

  /** Adding tallies is associative, the listing of the models included. */
  lemma PlusAssociates(a: Usage, b: Usage, c: Usage)
    ensures Plus(Plus(a, b), c) == Plus(a, Plus(b, c))
  {
    ListingModelsAssociates(a.models, b.models, c.models);
    assert Priced(Plus(a, b).cost) == Priced(a.cost) + Priced(b.cost);
    assert Priced(Plus(b, c).cost) == Priced(b.cost) + Priced(c.cost);
  }

  /** The empty tally is its zero. */
  lemma ZeroIsNeutral(a: Usage)
    ensures Plus(Zero(), a) == a && Plus(a, Zero()) == a
  {
    UnlistedFromNone(a.models);
  }

  /** The spend of a tally: the order its models were first used in does not count. */
  datatype Spend = Spend(input: nat, output: nat, cached: nat, calls: nat, priced: bool, cost: real, models: set<string>)

  function SpendOf(u: Usage): Spend {
    Spend(u.input, u.output, u.cached, u.calls, u.cost.Some?, Priced(u.cost), set m | m in u.models)
  }

  function Both(s: Spend, t: Spend): Spend {
    Spend(s.input + t.input, s.output + t.output, s.cached + t.cached, s.calls + t.calls, s.priced || t.priced,
          s.cost + t.cost, s.models + t.models)
  }

  /** Addition adds spends; so it is commutative up to the order of the models. */
  lemma PlusAddsSpends(a: Usage, b: Usage)
    ensures SpendOf(Plus(a, b)) == Both(SpendOf(a), SpendOf(b))
    ensures SpendOf(Plus(a, b)) == SpendOf(Plus(b, a))
  {
    forall m ensures m in Plus(a, b).models <==> m in a.models || m in b.models {
      UnlistedMembers(b.models, a.models, m);
    }
    forall m ensures m in Plus(b, a).models <==> m in a.models || m in b.models {
      UnlistedMembers(a.models, b.models, m);
    }
  }

  lemma BothIsAnyOrder(s: Spend, t: Spend, u: Spend)
    ensures Both(Both(s, t), u) == Both(Both(s, u), t)
    ensures Both(s, Both(t, u)) == Both(Both(s, t), u)
  {
  }

  // ---------- the ledger ----------

  /** All that was spent in these calls, whatever the scopes they were booked under. */
  function Spent(calls: seq<Usage>): Spend {
    if calls == [] then SpendOf(Zero())
    else Both(Spent(calls[..|calls| - 1]), SpendOf(calls[|calls| - 1]))
  }

  function TotalOf(scopes: seq<string>, booked: map<string, Usage>): Usage
    requires forall x :: x in scopes ==> x in booked
  {
    if scopes == [] then Zero()
    else Plus(TotalOf(scopes[..|scopes| - 1], booked), booked[scopes[|scopes| - 1]])
  }

  lemma {:induction false} ElsewhereIsNoMatter(scopes: seq<string>, booked: map<string, Usage>, scope: string, u: Usage)
    requires scope !in scopes && forall x :: x in scopes ==> x in booked
    ensures TotalOf(scopes, booked[scope := u]) == TotalOf(scopes, booked)
  {
    if scopes != [] { ElsewhereIsNoMatter(scopes[..|scopes| - 1], booked, scope, u); }
  }

  lemma TotalOfOneMore(scopes: seq<string>, booked: map<string, Usage>)
    requires scopes != [] && forall x :: x in scopes ==> x in booked
    ensures var n := |scopes| - 1;
            SpendOf(TotalOf(scopes, booked)) == Both(SpendOf(TotalOf(scopes[..n], booked)), SpendOf(booked[scopes[n]]))
  {
    PlusAddsSpends(TotalOf(scopes[..|scopes| - 1], booked), booked[scopes[|scopes| - 1]]);
  }

  /** Booking under a scope adds to the total, wherever the scope stands. */
  lemma {:induction false} BookingAdds(scopes: seq<string>, booked: map<string, Usage>, scope: string, u: Usage)
    requires Distinct(scopes) && scope in scopes && forall x :: x in scopes ==> x in booked
    ensures SpendOf(TotalOf(scopes, booked[scope := Plus(booked[scope], u)]))
         == Both(SpendOf(TotalOf(scopes, booked)), SpendOf(u))
  {
    var n := |scopes| - 1;
    var after := booked[scope := Plus(booked[scope], u)];
    TotalOfOneMore(scopes, booked);
    TotalOfOneMore(scopes, after);
    var t, last := SpendOf(TotalOf(scopes[..n], booked)), SpendOf(booked[scopes[n]]);
    if scopes[n] == scope {
      ElsewhereIsNoMatter(scopes[..n], booked, scope, Plus(booked[scope], u));
      PlusAddsSpends(booked[scope], u);
      BothIsAnyOrder(t, last, SpendOf(u));
    } else {
      BookingAdds(scopes[..n], booked, scope, u);
      BothIsAnyOrder(t, SpendOf(u), last);
    }
  }

  /** A new scope starts from nothing. */
  lemma OpeningAScope(scopes: seq<string>, booked: map<string, Usage>, scope: string, u: Usage)
    requires scope !in scopes && forall x :: x in scopes ==> x in booked
    ensures SpendOf(TotalOf(scopes + [scope], booked[scope := Plus(Zero(), u)]))
         == Both(SpendOf(TotalOf(scopes, booked)), SpendOf(u))
  {
    ZeroIsNeutral(u);
    ElsewhereIsNoMatter(scopes, booked, scope, u);
    assert (scopes + [scope])[..|scopes|] == scopes;
    PlusAddsSpends(TotalOf(scopes, booked), u);
  }

  ghost predicate InOrder(scopes: seq<string>, booked: map<string, Usage>, calls: seq<Usage>) {
    && Distinct(scopes) && (forall x :: x in scopes <==> x in booked)
    && SpendOf(TotalOf(scopes, booked)) == Spent(calls)
  }

  lemma BookingKeeps(scopes: seq<string>, booked: map<string, Usage>, calls: seq<Usage>, scope: string, u: Usage)
    requires InOrder(scopes, booked, calls)
    ensures scope in booked ==> InOrder(scopes, booked[scope := Plus(booked[scope], u)], calls + [u])
    ensures scope !in booked ==> InOrder(scopes + [scope], booked[scope := Plus(Zero(), u)], calls + [u])
  {
    assert (calls + [u])[..|calls|] == calls;
    if scope in booked {
      BookingAdds(scopes, booked, scope, u);
    } else {
      OpeningAScope(scopes, booked, scope, u);
    }
  }

  /** Per-scope accumulation for one run; `calls` is what was booked, in order. */
  class UsageLedger {
    var scopes: seq<string>             // the dictionary's keys, in the order they came
    var booked: map<string, Usage>
    ghost var calls: seq<Usage>

    ghost predicate Valid()
      reads this
    {
      InOrder(scopes, booked, calls)
    }

    constructor ()
      ensures Valid() && calls == [] && booked == map[]
    {
      scopes, booked, calls := [], map[], [];
    }

    method Get(scope: string) returns (u: Usage)
      ensures u == if scope in booked then booked[scope] else Zero()
    {
      u := if scope in booked then booked[scope] else Zero();
    }

    method Add(scope: string, usage: Usage)
      requires Valid()
      modifies this
      ensures Valid() && calls == old(calls) + [usage]
      ensures booked == old(booked)[scope := Plus(if scope in old(booked) then old(booked)[scope] else Zero(), usage)]
    {
      BookingKeeps(scopes, booked, calls, scope, usage);
      var had := Get(scope);
      if scope !in booked {
        scopes := scopes + [scope];
      }
      booked := booked[scope := Plus(had, usage)];
      calls := calls + [usage];
    }

    /** The total is everything that was booked, whichever scope each call was booked under. */
    method Total() returns (total: Usage)
      requires Valid()
      ensures SpendOf(total) == Spent(calls)
    {
      total := Zero();
      var i := 0;
      while i < |scopes|
        invariant 0 <= i <= |scopes|
        invariant total == TotalOf(scopes[..i], booked)
      {
        assert scopes[..i + 1][..i] == scopes[..i];
        total := Plus(total, booked[scopes[i]]);
        i := i + 1;
      }
      assert scopes[..i] == scopes;
    }
  }

  lemma {:induction false} SpentOfBoth(a: seq<Usage>, b: seq<Usage>)
    ensures Spent(a + b) == Both(Spent(a), Spent(b))
  {
    if b == [] {
      assert a + b == a;
      assert Spent(a).models + {} == Spent(a).models;
      assert SpendOf(Zero()).models == {};
    } else {
      var n := |b| - 1;
      assert (a + b)[..|a| + n] == a + b[..n];
      SpentOfBoth(a, b[..n]);
      BothIsAnyOrder(Spent(a), Spent(b[..n]), SpendOf(b[n]));
    }
  }

  lemma SpentOfOne(u: Usage)
    ensures Spent([u]) == SpendOf(u)
  {
  }

  /** A call's share does not depend on when it was booked. */
  lemma SpentAround(a: seq<Usage>, u: Usage, b: seq<Usage>)
    ensures Spent(a + [u] + b) == Both(Spent(a + b), SpendOf(u))
  {
    SpentOfBoth(a + [u], b);
    SpentOfBoth(a, [u]);
    SpentOfBoth(a, b);
    SpentOfOne(u);
    BothIsAnyOrder(Spent(a), SpendOf(u), Spent(b));
  }

  lemma WithoutOne(b: seq<Usage>, i: nat)
    requires i < |b|
    ensures b == b[..i] + [b[i]] + b[i + 1..]
    ensures multiset(b[..i] + b[i + 1..]) == multiset(b) - multiset{b[i]}
  {
  }

  lemma TheSameCall(a: seq<Usage>, b: seq<Usage>) returns (i: nat)
    requires a != [] && multiset(a) == multiset(b)
    ensures i < |b| && b[i] == a[|a| - 1]
    ensures multiset(a[..|a| - 1]) == multiset(b[..i] + b[i + 1..])
  {
    var n := |a| - 1;
    assert a[n] in multiset(a) && a[n] in multiset(b);
    i :| 0 <= i < |b| && b[i] == a[n];
    WithoutOne(b, i);
    WithoutOne(a, n);
    assert a[..n] + a[n + 1..] == a[..n];
  }

  /** The same calls spend the same in any order, as parallel branches book them. */
  lemma {:induction false} SpentInAnyOrder(a: seq<Usage>, b: seq<Usage>)
    requires multiset(a) == multiset(b)
    ensures Spent(a) == Spent(b)
    decreases |a|
  {
    if a == [] {
      assert |b| == |multiset(b)| == 0;
    } else {
      var i := TheSameCall(a, b);
      SpentInAnyOrder(a[..|a| - 1], b[..i] + b[i + 1..]);
      SpentAround(b[..i], b[i], b[i + 1..]);
      assert b == b[..i] + [b[i]] + b[i + 1..];
    }
  }

  // ---------- the stored form ----------

  datatype Json = Null | Count(n: nat) | Dollars(d: real) | Names(names: seq<string>)

  function ToDict(u: Usage): map<string, Json> {
    map["input_tokens" := Count(u.input), "output_tokens" := Count(u.output), "cached_input_tokens" := Count(u.cached),
        "calls" := Count(u.calls), "cost_usd" := if u.cost.Some? then Dollars(u.cost.value) else Null,
        "models" := Names(u.models)]
  }

  function CountAt(data: map<string, Json>, key: string): nat {
    if key in data && data[key].Count? then data[key].n else 0
  }

  /** Absent, empty or null fields read as nothing spent. */
  function FromDict(data: map<string, Json>): Usage {
    Usage(CountAt(data, "input_tokens"), CountAt(data, "output_tokens"), CountAt(data, "cached_input_tokens"),
          CountAt(data, "calls"),
          if "cost_usd" in data && data["cost_usd"].Dollars? then Some(data["cost_usd"].d) else None,
          if "models" in data && data["models"].Names? then data["models"].names else [])
  }

  lemma StoredAndReadBack(u: Usage)
    ensures FromDict(ToDict(u)) == u && FromDict(map[]) == Zero()
  {
  }

  // ---------- across attempts ----------

  /** What happens in an attempt, as far as its spend goes: a call is booked, or the record is persisted. */
  datatype Event = Call(scope: string, usage: Usage) | Persist

  /** The calls of an attempt, in order. */
  function Calls(attempt: seq<Event>): seq<Usage> {
    if attempt == [] then []
    else
      var n := |attempt| - 1;
      Calls(attempt[..n]) + if attempt[n].Call? then [attempt[n].usage] else []
  }

  /** Those that reached the record: booked by the last persist. */
  function Reached(attempt: seq<Event>): seq<Usage> {
    if attempt == [] then []
    else
      var n := |attempt| - 1;
      if attempt[n].Persist? then Calls(attempt[..n]) else Reached(attempt[..n])
  }

  const EARLIER_ATTEMPTS := "earlier attempts"

  /** The record's usage went from `before` to `after` with the calls of the attempt that reached it. */
  ghost predicate Carried(before: map<string, Json>, attempt: seq<Event>, after: map<string, Json>) {
    SpendOf(FromDict(after)) == Both(SpendOf(FromDict(before)), Spent(Reached(attempt)))
  }

  /** A fresh ledger, seeded with what earlier attempts spent. */
  method Seeded(usage: map<string, Json>, resumed: bool) returns (ledger: UsageLedger)
    requires !resumed ==> usage == map[]
    ensures fresh(ledger) && ledger.Valid() && Spent(ledger.calls) == SpendOf(FromDict(usage))
  {
    ledger := new UsageLedger();
    StoredAndReadBack(Zero());
    if resumed && usage != map[] {
      ledger.Add(EARLIER_ATTEMPTS, FromDict(usage));
      assert ledger.calls == [FromDict(usage)];
      SpentOfOne(FromDict(usage));
    }
  }

  lemma OneMoreCall(seed: seq<Usage>, attempt: seq<Event>, i: nat)
    requires i < |attempt|
    ensures attempt[i].Call? ==> seed + Calls(attempt[..i + 1]) == seed + Calls(attempt[..i]) + [attempt[i].usage]
    ensures attempt[i].Persist? ==> seed + Calls(attempt[..i + 1]) == seed + Calls(attempt[..i])
  {
    assert attempt[..i + 1][..i] == attempt[..i];
  }

  lemma EventCarries(usage: map<string, Json>, attempt: seq<Event>, i: nat, seed: seq<Usage>,
                     before: map<string, Json>, after: map<string, Json>)
    requires i < |attempt| && Spent(seed) == SpendOf(FromDict(usage)) && Carried(usage, attempt[..i], before)
    requires attempt[i].Call? ==> after == before
    requires attempt[i].Persist? ==> SpendOf(FromDict(after)) == Spent(seed + Calls(attempt[..i]))
    ensures Carried(usage, attempt[..i + 1], after)
  {
    SpentOfBoth(seed, Calls(attempt[..i]));
    assert attempt[..i + 1][..i] == attempt[..i];
  }

  lemma NothingCarried(usage: map<string, Json>, attempt: seq<Event>)
    requires attempt == []
    ensures Carried(usage, attempt, usage) && Calls(attempt) == []
  {
    var spend := SpendOf(FromDict(usage));
    assert spend.models + SpendOf(Zero()).models == spend.models;
  }

  /** A call is booked in the ledger; a persist writes the ledger's total, over what the record said of the spend. */
  method Happen(ledger: UsageLedger, e: Event, before: map<string, Json>) returns (after: map<string, Json>)
    requires ledger.Valid()
    modifies ledger
    ensures ledger.Valid()
    ensures e.Call? ==> ledger.calls == old(ledger.calls) + [e.usage] && after == before
    ensures e.Persist? ==> ledger.calls == old(ledger.calls) && SpendOf(FromDict(after)) == Spent(ledger.calls)
  {
    after := before;
    match e {
      case Call(scope, usage) =>
        ledger.Add(scope, usage);
      case Persist =>
        var total := ledger.Total();
        StoredAndReadBack(total);
        after := ToDict(total);
    }
  }

  /** Where an attempt stands after some of its events. */
  ghost predicate StandsAt(usage: map<string, Json>, seed: seq<Usage>, attempt: seq<Event>, i: nat,
                           calls: seq<Usage>, after: map<string, Json>)
  {
    i <= |attempt| && Spent(seed) == SpendOf(FromDict(usage)) && calls == seed + Calls(attempt[..i])
    && Carried(usage, attempt[..i], after)
  }

  lemma StandsAtFirst(usage: map<string, Json>, seed: seq<Usage>, attempt: seq<Event>)
    requires Spent(seed) == SpendOf(FromDict(usage))
    ensures StandsAt(usage, seed, attempt, 0, seed, usage)
  {
    NothingCarried(usage, attempt[..0]);
    assert seed + Calls(attempt[..0]) == seed;
  }

  lemma StandsAtNext(usage: map<string, Json>, seed: seq<Usage>, attempt: seq<Event>, i: nat, calls: seq<Usage>,
                     before: map<string, Json>, calls': seq<Usage>, after: map<string, Json>)
    requires i < |attempt| && StandsAt(usage, seed, attempt, i, calls, before)
    requires attempt[i].Call? ==> calls' == calls + [attempt[i].usage] && after == before
    requires attempt[i].Persist? ==> calls' == calls && SpendOf(FromDict(after)) == Spent(calls')
    ensures StandsAt(usage, seed, attempt, i + 1, calls', after)
  {
    OneMoreCall(seed, attempt, i);
    EventCarries(usage, attempt, i, seed, before, after);
  }

  /** An attempt of a job whose record says `usage`: each call is booked as it is made, and every persist
      writes the total so far. Returns what the record says after the attempt. */
  method Drive(usage: map<string, Json>, attempt: seq<Event>, resumed: bool) returns (after: map<string, Json>)
    requires !resumed ==> usage == map[]
    ensures Carried(usage, attempt, after)
  {
    var ledger := Seeded(usage, resumed);
    ghost var seed := ledger.calls;
    after := usage;
    StandsAtFirst(usage, seed, attempt);
    for i := 0 to |attempt|
      invariant fresh(ledger) && ledger.Valid() && StandsAt(usage, seed, attempt, i, ledger.calls, after)
    {
      ghost var calls, before := ledger.calls, after;
      after := Happen(ledger, attempt[i], after);
      StandsAtNext(usage, seed, attempt, i, calls, before, ledger.calls, after);
    }
    assert attempt[..|attempt|] == attempt;
  }

  /** Every call is followed by a persist, as when the ending of a run is persisted after its last call. */
  ghost predicate PersistsLast(attempt: seq<Event>) {
    forall i :: 0 <= i < |attempt| && attempt[i].Call? ==> exists j :: i < j < |attempt| && attempt[j].Persist?
  }

  lemma {:induction false} ReachedIsCalls(attempt: seq<Event>)
    ensures |Reached(attempt)| <= |Calls(attempt)| && Reached(attempt) == Calls(attempt)[..|Reached(attempt)|]
  {
    if attempt != [] { ReachedIsCalls(attempt[..|attempt| - 1]); }
  }

  /** All the calls of an attempt reach the record if and only if none comes after its last persist. */
  lemma {:induction false} AllReachExactlyWhen(attempt: seq<Event>)
    ensures Reached(attempt) == Calls(attempt) <==> PersistsLast(attempt)
  {
    if attempt != [] {
      var n := |attempt| - 1;
      ReachedIsCalls(attempt[..n]);
      AllReachExactlyWhen(attempt[..n]);
      if attempt[n].Persist? {
        forall i | 0 <= i < |attempt| && attempt[i].Call? ensures exists j :: i < j < |attempt| && attempt[j].Persist? {
          assert attempt[n].Persist?;
        }
      }
    }
  }

  /** What reached the record, over all attempts; and what was spent in them. */
  function Kept(attempts: seq<seq<Event>>): seq<Usage> {
    if attempts == [] then [] else Kept(attempts[..|attempts| - 1]) + Reached(attempts[|attempts| - 1])
  }

  function Made(attempts: seq<seq<Event>>): seq<Usage> {
    if attempts == [] then [] else Made(attempts[..|attempts| - 1]) + Calls(attempts[|attempts| - 1])
  }

  /** What the record said before the first attempt, and after each. */
  ghost predicate IsHistory(records: seq<map<string, Json>>, attempts: seq<seq<Event>>) {
    && |records| == |attempts| + 1 && records[0] == map[]
    && forall i :: 0 <= i < |attempts| ==> Carried(records[i], attempts[i], records[i + 1])
  }

  /** A job's usage is the sum of every call of every attempt, but for what a crashed attempt had booked since
      its last persist. */
  lemma {:induction false} SpendIsConserved(records: seq<map<string, Json>>, attempts: seq<seq<Event>>)
    requires IsHistory(records, attempts)
    ensures SpendOf(FromDict(records[|attempts|])) == Spent(Kept(attempts))
    decreases |attempts|
  {
    StoredAndReadBack(Zero());
    if attempts != [] {
      var n := |attempts| - 1;
      SpendIsConserved(records[..n + 1], attempts[..n]);
      SpentOfBoth(Kept(attempts[..n]), Reached(attempts[n]));
    }
  }

  lemma {:induction false} KeptIsOfMade(attempts: seq<seq<Event>>)
    ensures |Kept(attempts)| <= |Made(attempts)|
    ensures |Kept(attempts)| == |Made(attempts)| <==> forall a :: a in attempts ==> PersistsLast(a)
    ensures (forall a :: a in attempts ==> PersistsLast(a)) ==> Kept(attempts) == Made(attempts)
  {
    if attempts != [] {
      var n := |attempts| - 1;
      KeptIsOfMade(attempts[..n]);
      ReachedIsCalls(attempts[n]);
      AllReachExactlyWhen(attempts[n]);
      assert forall a :: a in attempts <==> a in attempts[..n] || a == attempts[n];
    }
  }

  /** No call of any attempt is missing from what reached the record if and only if each attempt persisted after its
      last call; and then the record is the sum of every call of every attempt. */
  lemma NothingIsLostExactlyWhen(records: seq<map<string, Json>>, attempts: seq<seq<Event>>)
    requires IsHistory(records, attempts)
    ensures Kept(attempts) == Made(attempts) <==> forall a :: a in attempts ==> PersistsLast(a)
    ensures (forall a :: a in attempts ==> PersistsLast(a)) ==>
              SpendOf(FromDict(records[|attempts|])) == Spent(Made(attempts))
  {
    KeptIsOfMade(attempts);
    SpendIsConserved(records, attempts);
  }

  // ---------- prices ----------

  predicate StartsWith(s: string, prefix: string): (r: bool)
    ensures r <==> prefix <= s
  {
    |prefix| <= |s| && s[..|prefix|] == prefix
  }

  /** The longest key that starts the model's name. */
  function LongestPrefix(keys: seq<string>, model: string): (found: Option<string>)
    ensures found.None? <==> forall k :: k in keys ==> !StartsWith(model, k)
    ensures found.Some? ==>
      && found.value in keys && StartsWith(model, found.value)
      && forall k :: k in keys && StartsWith(model, k) ==> |k| <= |found.value|
  {
    if keys == [] then None
    else
      var n := |keys| - 1;
      var best := LongestPrefix(keys[..n], model);
      assert forall k :: k in keys <==> k in keys[..n] || k == keys[n];
      if StartsWith(model, keys[n]) && (best.None? || |keys[n]| > |best.value|) then Some(keys[n]) else best
  }

  /** An empty key never prices anything. */
  function PriceKey(keys: seq<string>, model: string): (found: Option<string>)
    ensures found.None? <==> forall k :: k in keys && StartsWith(model, k) ==> k == ""
    ensures found.Some? ==>
      && found.value in keys && StartsWith(model, found.value) && found.value != ""
      && forall k :: k in keys && StartsWith(model, k) && |k| >= |found.value| ==> k == found.value
  {
    var best := LongestPrefix(keys, model);
    if best.None? || best.value == "" then None else best
  }
}
