/** What the dispatch loop computes: the least set of steps that must fail. */
module Dispatching {
  import opened Ir
  import opened Graphs
  import opened Plans
  import opened Executor

  /** Every step with a result has run. */
  ghost predicate Consistent(s: State) {
    forall id :: id in s.results ==> id in s.completed
  }

  /** `f` holds every unfinished step whose arguments cannot be had and which waits only for finished
      steps and steps of `f`. */
  ghost predicate Closed(w: World, s: State, f: set<Id>) {
    forall k :: 0 <= k < |s.steps| && MustFail(w, s, f, s.steps[k]) ==> s.steps[k].id in f
  }

  ghost predicate MustFail(w: World, s: State, f: set<Id>, step: PlanStep) {
    && step.id !in Done(w, s)
    && (forall d :: d in step.dependsOn ==> d in Done(w, s) + f)
    && Arguments(w, s.results, step).Unresolved?
  }

  /** Failing an unfinished step changes what no other step can read. */
  ghost predicate SameReading(a: map<Id, Result>, b: map<Id, Result>) {
    forall id :: Handed(a, id) == Handed(b, id)
  }

  lemma SameArguments(w: World, a: map<Id, Result>, b: map<Id, Result>, step: PlanStep)
    requires SameReading(a, b)
    ensures Arguments(w, a, step) == Arguments(w, b, step)
  {
    ResolveReadsOnlyItsReferences(step.args, a, b, w.inputs);
  }

  /** What failing the steps `ids` does: finishes exactly them, and leaves every reading as it was. */
  ghost predicate Failed(w: World, s: State, s': State, ids: set<Id>) {
    && s'.steps == s.steps
    && Consistent(s')
    && Done(w, s') == Done(w, s) + ids
    && SameReading(s.results, s'.results)
    && (forall id :: id !in ids ==> Runs(s', id) == Runs(s, id))
    && (forall id :: id !in ids ==> (id in s'.results <==> id in s.results))
    && forall id :: id in s.results && id !in ids ==> s'.results[id] == s.results[id]
  }

  lemma FailOne(w: World, s: State, u: Update, id: Id)
    requires Consistent(s) && id !in Done(w, s) && IsFailure(u, id)
    ensures Failed(w, s, Merge(s, u), {id})
  {
  }

  ghost predicate FailedWith(s: State, id: Id, why: Reason) {
    id in s.results && s.results[id] == Result.Failed(why, false)
  }

  lemma FailTwice(w: World, s: State, s1: State, s2: State, id: Id, ids: set<Id>)
    requires Failed(w, s, s1, {id}) && Failed(w, s1, s2, ids)
    ensures Failed(w, s, s2, {id} + ids)
  {
  }

  lemma HeadIds(list: seq<PlanStep>)
    requires list != [] && UniqueSteps(list)
    ensures StepIds(list) == {list[0].id} + StepIds(list[1..]) && list[0].id !in StepIds(list[1..])
    ensures UniqueSteps(list[1..])
  {
  }

  lemma {:induction false} FailAll(w: World, s: State, list: seq<PlanStep>, whys: seq<Reason>, us: seq<Update>)
    requires Consistent(s) && UniqueSteps(list) && |us| == |whys| == |list|
    requires forall k :: 0 <= k < |list| ==> list[k].id !in Done(w, s)
    requires forall k :: 0 <= k < |list| ==> us[k] == FailUpdate(list[k], whys[k])
    ensures Failed(w, s, Land(s, us), StepIds(list))
    ensures forall k :: 0 <= k < |list| ==> FailedWith(Land(s, us), list[k].id, whys[k])
    decreases |list|
  {
    if list == [] {
      assert Failed(w, s, s, {});
    } else {
      var s1 := Merge(s, us[0]);
      FailOne(w, s, us[0], list[0].id);
      HeadIds(list);
      forall k | 0 <= k < |list[1..]| ensures list[1..][k].id !in Done(w, s1) {
        assert list[1..][k].id in StepIds(list[1..]);
      }
      FailAll(w, s1, list[1..], whys[1..], us[1..]);
      FailTwice(w, s, s1, Land(s, us), list[0].id, StepIds(list[1..]));
      assert FailedWith(s1, list[0].id, whys[0]);
      AllFailedWith(Land(s, us), list, whys);
    }
  }

  lemma AllFailedWith(s: State, list: seq<PlanStep>, whys: seq<Reason>)
    requires list != [] && |whys| == |list| && FailedWith(s, list[0].id, whys[0])
    requires forall k :: 0 <= k < |list[1..]| ==> FailedWith(s, list[1..][k].id, whys[1..][k])
    ensures forall k :: 0 <= k < |list| ==> FailedWith(s, list[k].id, whys[k])
  {
    forall k | 0 <= k < |list| ensures FailedWith(s, list[k].id, whys[k]) {
      if k > 0 { assert FailedWith(s, list[1..][k - 1].id, whys[1..][k - 1]); }
    }
  }

  /** One turn of the loop fails exactly the steps refused now, each with its own reason. */
  lemma TurnFails(w: World, s: State)
    requires Consistent(s) && UniqueSteps(s.steps)
    ensures Failed(w, s, FailRefused(w, s), StepIds(RefusedNow(w, s)))
    ensures forall step :: step in RefusedNow(w, s) ==>
              FailedWith(FailRefused(w, s), step.id, WhyOf(Arguments(w, s.results, step)))
  {
    var refused := RefusedNow(w, s);
    ReadyAre(s.steps, Done(w, s));
    RefusedAre(w, s.results, Ready(w, s));
    forall k | 0 <= k < |refused| ensures refused[k].id !in Done(w, s) {
      RefusedIsReady(w, s, refused[k]);
    }
    var whys := seq(|refused|, i requires 0 <= i < |refused| => WhyOf(Arguments(w, s.results, refused[i])));
    FailAll(w, s, refused, whys, FailUpdates(w, s.results, refused));
    forall step | step in refused
      ensures FailedWith(FailRefused(w, s), step.id, WhyOf(Arguments(w, s.results, step)))
    {
      var k :| 0 <= k < |refused| && refused[k] == step;
      assert FailedWith(FailRefused(w, s), refused[k].id, whys[k]);
    }
  }

  // ---------- least ----------

  /** The steps dispatch fails. */
  ghost function FailedBy(w: World, s: State): set<Id> {
    Done(w, Dispatched(w, s)) - Done(w, s)
  }

  lemma {:induction false} DispatchFails(w: World, s: State)
    requires Consistent(s) && UniqueSteps(s.steps)
    ensures Failed(w, s, Dispatched(w, s), FailedBy(w, s)) && Done(w, s) <= Done(w, Dispatched(w, s))
    decreases Undone(w, s)
  {
    if RefusedNow(w, s) == [] {
      assert Failed(w, s, s, {});
      assert FailedBy(w, s) == {};
    } else {
      TurnMakesProgress(w, s);
      TurnFails(w, s);
      var s1, ids := FailRefused(w, s), StepIds(RefusedNow(w, s));
      DispatchFails(w, s1);
      FailedByTurns(w, s, s1, ids);
      FailBoth(w, s, s1, Dispatched(w, s), ids, FailedBy(w, s1));
    }
  }

  lemma FailedByTurns(w: World, s: State, s1: State, ids: set<Id>)
    requires RefusedNow(w, s) != [] && s1 == FailRefused(w, s) && ids == StepIds(RefusedNow(w, s))
    requires Done(w, s1) == Done(w, s) + ids && Done(w, s1) <= Done(w, Dispatched(w, s1))
    ensures Dispatched(w, s) == Dispatched(w, s1) && FailedBy(w, s) == ids + FailedBy(w, s1)
  {
    RefusedOpen(w, s);
  }

  lemma {:induction false} DispatchWithin(w: World, s: State, g: set<Id>)
    requires Consistent(s) && UniqueSteps(s.steps) && Closed(w, s, g)
    ensures FailedBy(w, s) <= g
    decreases Undone(w, s)
  {
    if RefusedNow(w, s) == [] {
      assert FailedBy(w, s) == {};
    } else {
      TurnMakesProgress(w, s);
      TurnFails(w, s);
      var s1, ids := FailRefused(w, s), StepIds(RefusedNow(w, s));
      RefusedWithin(w, s, g);
      ClosedAfterTurn(w, s, s1, ids, g);
      DispatchWithin(w, s1, g);
      DispatchFails(w, s1);
      FailedByTurns(w, s, s1, ids);
    }
  }

  lemma RefusedOpen(w: World, s: State)
    ensures StepIds(RefusedNow(w, s)) !! Done(w, s)
  {
    forall x | x in StepIds(RefusedNow(w, s)) ensures x !in Done(w, s) {
      var k :| 0 <= k < |RefusedNow(w, s)| && RefusedNow(w, s)[k].id == x;
      RefusedIsReady(w, s, RefusedNow(w, s)[k]);
    }
  }

  lemma FailBoth(w: World, s: State, s1: State, s2: State, a: set<Id>, b: set<Id>)
    requires Failed(w, s, s1, a) && Failed(w, s1, s2, b)
    ensures Failed(w, s, s2, a + b)
  {
  }

  lemma RefusedWithin(w: World, s: State, g: set<Id>)
    requires Closed(w, s, g)
    ensures StepIds(RefusedNow(w, s)) <= g
  {
    var refused := RefusedNow(w, s);
    forall x | x in StepIds(refused) ensures x in g {
      var k :| 0 <= k < |refused| && refused[k].id == x;
      RefusedIsReady(w, s, refused[k]);
      var i :| 0 <= i < |s.steps| && s.steps[i] == refused[k];
      assert MustFail(w, s, g, s.steps[i]);
    }
  }

  lemma ClosedAfterTurn(w: World, s: State, s1: State, ids: set<Id>, g: set<Id>)
    requires Closed(w, s, g) && Failed(w, s, s1, ids) && ids <= g
    ensures Closed(w, s1, g)
  {
    forall k | 0 <= k < |s1.steps| && MustFail(w, s1, g, s1.steps[k]) ensures s1.steps[k].id in g {
      SameArguments(w, s.results, s1.results, s1.steps[k]);
      assert MustFail(w, s, g, s.steps[k]);
    }
  }

  /** Dispatch fails exactly the least set of steps that must fail: an unfinished step whose arguments
      cannot be had, all of whose dependencies are finished or must fail too. Nothing else changes. */
  lemma DispatchFailsTheLeastSet(w: World, s: State, g: set<Id>)
    requires Consistent(s) && UniqueSteps(s.steps)
    ensures Failed(w, s, Dispatched(w, s), FailedBy(w, s))
    ensures Closed(w, s, FailedBy(w, s))
    ensures Closed(w, s, g) ==> FailedBy(w, s) <= g
  {
    DispatchFails(w, s);
    if Closed(w, s, g) { DispatchWithin(w, s, g); }
    var d, f := Dispatched(w, s), FailedBy(w, s);
    forall k | 0 <= k < |s.steps| && MustFail(w, s, f, s.steps[k]) ensures s.steps[k].id in f {
      var step := s.steps[k];
      SameArguments(w, s.results, d.results, step);
      ReadyAre(d.steps, Done(w, d));
      RefusedAre(w, d.results, Ready(w, d));
      assert step in d.steps && step !in RefusedNow(w, d);
    }
  }

  lemma ReadyHasArguments(w: World, d: State, step: PlanStep)
    requires RefusedNow(w, d) == [] && step in Ready(w, d)
    ensures step in d.steps && MayStart(w, d, step) && Carries(w, d, SendOf(w, d, step), step)
  {
    ReadyAre(d.steps, Done(w, d));
    RefusedAre(w, d.results, Ready(w, d));
    assert step !in RefusedNow(w, d);
  }

  /** After dispatch, what `route` sends is the steps that may run, each once, to its own node, with what its own
      arguments resolve to. */
  lemma TheWaveIsSent(w: World, d: State)
    requires UniqueSteps(d.steps) && RefusedNow(w, d) == [] && RouteOf(w, d).Sends?
    ensures IsTheWave(w, d, RouteOf(w, d).wave)
  {
    var ready, wave := Ready(w, d), RouteOf(w, d).wave;
    ReadyAre(d.steps, Done(w, d));
    forall i | 0 <= i < |wave| ensures exists step :: step in d.steps && Carries(w, d, wave[i], step) {
      ReadyHasArguments(w, d, ready[i]);
    }
    forall step | step in d.steps ensures SentIn(wave, step.id) <==> MayStart(w, d, step) {
      if MayStart(w, d, step) {
        assert step in ready;
        var i :| 0 <= i < |ready| && ready[i] == step;
        assert wave[i].id == step.id;
      }
      if i :| 0 <= i < |wave| && wave[i].id == step.id {
        assert ready[i] in ready;
        ReadyHasArguments(w, d, ready[i]);
        OneStepAnId(d.steps, ready[i], step);
      }
    }
  }

  // ---------- the node itself ----------

  /** The dispatch node: its update, merged, is the dispatched state. */
  method Dispatch(w: World, s: State) returns (u: Update)
    ensures Merge(s, u) == Dispatched(w, s)
  {
    u := Update(map[], [], []);
    assert Merge(s, u) == s;
    while true
      invariant Dispatched(w, Merge(s, u)) == Dispatched(w, s)
      decreases Undone(w, Merge(s, u))
    {
      var view := Merge(s, u);
      var refused := RefusedNow(w, view);
      if refused == [] {
        break;
      }
      TurnMakesProgress(w, view);
      u := FailEach(w, s, u, refused);
    }
  }

  method FailEach(w: World, s: State, u0: Update, refused: seq<PlanStep>) returns (u: Update)
    ensures Merge(s, u) == Land(Merge(s, u0), FailUpdates(w, Merge(s, u0).results, refused))
  {
    u := u0;
    var view := Merge(s, u0);
    ghost var us := FailUpdates(w, view.results, refused);
    var k := 0;
    while k < |refused|
      invariant k <= |refused| && Merge(s, u) == Land(view, us[..k])
    {
      var step := refused[k];
      var why := WhyOf(Arguments(w, view.results, step));
      FailNext(s, u, view, us, k, step, why);
      u := Append(u, step, why);
      k := k + 1;
    }
    assert us[..k] == us;
  }

  /** A failed step added to the update. */
  function Append(u: Update, step: PlanStep, why: Reason): Update {
    Update(u.results[step.id := Result.Failed(why, false)], u.completed + [step.id],
           u.errors + [NodeError(step.capability, true)])
  }

  lemma FailNext(s: State, u: Update, view: State, us: seq<Update>, k: nat, step: PlanStep, why: Reason)
    requires k < |us| && us[k] == FailUpdate(step, why) && Merge(s, u) == Land(view, us[..k])
    ensures Merge(s, Append(u, step, why)) == Land(view, us[..k + 1])
  {
    assert us[..k + 1] == us[..k] + [us[k]];
    LandConcat(view, us[..k], [us[k]]);
    MergeAgain(s, u, us[k]);
    assert u.results + us[k].results == u.results[step.id := Result.Failed(why, false)];
    LandOne(Land(view, us[..k]), us[k]);
  }

  lemma LandOne(s: State, u: Update)
    ensures Land(s, [u]) == Merge(s, u)
  {
  }

  lemma MergeAgain(s: State, u: Update, v: Update)
    ensures Merge(Merge(s, u), v)
         == Merge(s, Update(u.results + v.results, u.completed + v.completed, u.errors + v.errors))
  {
  }
}
