/** Whole runs of the interpreter: from the start of a plan, through its waves, to where it is routed;
    and a run whose plan loses steps on the way (jobsmith/dag/executor.py, jobsmith/dag/jobs.py). */
module WaveRuns {
  import opened Ir
  import opened Graphs
  import opened Plans
  import opened Executor
  import opened Sequential
  import opened Refinement
  import Dispatching

  /** Dispatch, then one wave landing in the order `arrivals`. */
  function Step(w: World, s: State, arrivals: seq<Send>): State {
    AfterWave(w, Dispatched(w, s), arrivals)
  }

  /** Each element of `waves` is the wave `route` sent at that point, in the order it landed. */
  ghost predicate IsRun(w: World, s: State, waves: seq<seq<Send>>)
    decreases |waves|
  {
    waves == [] ||
    (Arrive(w, Dispatched(w, s), waves[0])
     && IsRun(w, Step(w, s, waves[0]), waves[1..]))
  }

  function EndOf(w: World, s: State, waves: seq<seq<Send>>): State
    decreases |waves|
  {
    if waves == [] then s else EndOf(w, Step(w, s, waves[0]), waves[1..])
  }

  // ---------- errors tell which runs went beyond recovery ----------

  ghost predicate WentBad(w: World, final: map<Id, Result>, s: State) {
    exists id, k: nat :: id in StepIds(s.steps) && k <= Runs(s, id) && BadRun(w, final, StepOf(s.steps, id), k)
  }

  ghost predicate ErrorsTell(w: World, final: map<Id, Result>, s: State) {
    HasUnrecoverable(s) <==> WentBad(w, final, s)
  }

  lemma AppendedErrors(s: State, u: Update)
    ensures HasUnrecoverable(Merge(s, u)) <==>
              HasUnrecoverable(s) || exists k :: 0 <= k < |u.errors| && !u.errors[k].recoverable
  {
    var s' := Merge(s, u);
    if HasUnrecoverable(s) {
      var k :| 0 <= k < |s.errors| && !s.errors[k].recoverable;
      assert !s'.errors[k].recoverable;
    }
    if k :| 0 <= k < |u.errors| && !u.errors[k].recoverable {
      assert !s'.errors[|s.errors| + k].recoverable;
    }
  }

  lemma RightUpdateErrors(w: World, final: map<Id, Result>, step: PlanStep, n: nat)
    requires n >= 1
    ensures (exists k :: 0 <= k < |RightUpdate(w, final, step, n).errors|
                         && !RightUpdate(w, final, step, n).errors[k].recoverable)
            <==> BadRun(w, final, step, n)
  {
    var u := RightUpdate(w, final, step, n);
    if BadRun(w, final, step, n) { assert !u.errors[0].recoverable; }
  }

  lemma LandingTells(w: World, final: map<Id, Result>, s: State, id: Id, u: Update)
    requires ErrorsTell(w, final, s) && id in StepIds(s.steps) && OneRunLater(w, s, Merge(s, u), id)
    requires u == RightUpdate(w, final, StepOf(s.steps, id), Runs(s, id) + 1)
    ensures ErrorsTell(w, final, Merge(s, u))
  {
    var s' := Merge(s, u);
    AppendedErrors(s, u);
    RightUpdateErrors(w, final, StepOf(s.steps, id), Runs(s, id) + 1);
    if WentBad(w, final, s) {
      var x, k: nat :| x in StepIds(s.steps) && k <= Runs(s, x) && BadRun(w, final, StepOf(s.steps, x), k);
      assert k <= Runs(s', x) && BadRun(w, final, StepOf(s'.steps, x), k);
    }
    if WentBad(w, final, s') {
      var x, k: nat :| x in StepIds(s'.steps) && k <= Runs(s', x) && BadRun(w, final, StepOf(s'.steps, x), k);
      if x != id || k <= Runs(s, id) { assert WentBad(w, final, s); }
    }
    if BadRun(w, final, StepOf(s.steps, id), Runs(s, id) + 1) {
      assert Runs(s, id) + 1 <= Runs(s', id);
    }
  }

  lemma FirstLandingTells(w: World, final: map<Id, Result>, s: State, ids: seq<Id>, us: seq<Update>)
    requires Inv(w, final, s) && RightUpdates(w, final, s, ids, us) && ErrorsTell(w, final, s) && ids != []
    ensures var s' := Merge(s, us[0]);
            Inv(w, final, s') && ErrorsTell(w, final, s') && RightUpdates(w, final, s', ids[1..], us[1..])
  {
    assert RightAt(w, final, s, ids[0], us[0]);
    LandingKeepsInv(w, final, s, ids[0], us[0]);
    StillRight(w, final, s, ids, us);
    LandingTells(w, final, s, ids[0], us[0]);
  }

  lemma {:induction false} LandingsTell(w: World, final: map<Id, Result>, s: State, ids: seq<Id>, us: seq<Update>)
    requires Inv(w, final, s) && RightUpdates(w, final, s, ids, us) && ErrorsTell(w, final, s)
    ensures ErrorsTell(w, final, Land(s, us))
    decreases |ids|
  {
    if ids != [] {
      FirstLandingTells(w, final, s, ids, us);
      LandingsTell(w, final, Merge(s, us[0]), ids[1..], us[1..]);
    }
  }

  lemma {:induction false} DispatchTells(w: World, final: map<Id, Result>, s: State)
    requires Inv(w, final, s) && ErrorsTell(w, final, s)
    ensures ErrorsTell(w, final, Dispatched(w, s))
    decreases Undone(w, s)
  {
    if RefusedNow(w, s) != [] {
      var ids, us := IdSeq(RefusedNow(w, s)), FailUpdates(w, s.results, RefusedNow(w, s));
      TurnIsRight(w, final, s);
      ManyLandings(w, final, s, ids, us);
      LandingsTell(w, final, s, ids, us);
      TurnMakesProgress(w, s);
      DispatchTells(w, final, FailRefused(w, s));
    }
  }

  // ---------- a run keeps the invariant and spends its budget ----------

  ghost predicate Good(w: World, final: map<Id, Result>, s: State) {
    Inv(w, final, s) && ErrorsTell(w, final, s)
  }

  lemma GoodStart(w: World, final: map<Id, Result>, steps: seq<PlanStep>)
    requires UniqueSteps(steps) && Linked(steps) && Final(w, steps, final)
    ensures Good(w, final, Start(steps))
  {
  }

  lemma GoodDispatched(w: World, final: map<Id, Result>, s: State)
    requires Good(w, final, s)
    ensures Good(w, final, Dispatched(w, s)) && Grows(w, s, Dispatched(w, s))
    ensures Budget(w, Dispatched(w, s), s.steps) <= Budget(w, s, s.steps)
  {
    DispatchKeepsInv(w, final, s);
    DispatchTells(w, final, s);
  }

  /** Dispatch, and as much of a wave as lands. */
  lemma GoodLanding(w: World, final: map<Id, Result>, s: State, landed: seq<Send>)
    requires Good(w, final, s) && LandOf(w, Dispatched(w, s), landed)
    ensures Good(w, final, Step(w, s, landed)) && Grows(w, s, Step(w, s, landed))
    ensures Budget(w, Step(w, s, landed), s.steps) + |landed| <= Budget(w, s, s.steps)
  {
    var d := Dispatched(w, s);
    GoodDispatched(w, final, s);
    WaveIsRight(w, final, d, landed);
    ManyLandings(w, final, d, SentIds(landed), BranchUpdates(w, d, landed));
    LandingsTell(w, final, d, SentIds(landed), BranchUpdates(w, d, landed));
    GrowsTwice(w, s, d, Step(w, s, landed));
  }

  lemma GoodStep(w: World, final: map<Id, Result>, s: State, arrivals: seq<Send>)
    requires Good(w, final, s) && Arrive(w, Dispatched(w, s), arrivals)
    ensures Good(w, final, Step(w, s, arrivals)) && Grows(w, s, Step(w, s, arrivals))
    ensures Budget(w, Step(w, s, arrivals), s.steps) < Budget(w, s, s.steps)
  {
    GoodDispatched(w, final, s);
    Dispatching.TheWaveIsSent(w, Dispatched(w, s));
    assert |multiset(arrivals)| == |multiset(RouteOf(w, Dispatched(w, s)).wave)|;
    GoodLanding(w, final, s, arrivals);
  }

  lemma {:induction false} GoodRun(w: World, final: map<Id, Result>, s: State, waves: seq<seq<Send>>)
    requires Good(w, final, s) && IsRun(w, s, waves)
    ensures Good(w, final, EndOf(w, s, waves)) && Grows(w, s, EndOf(w, s, waves))
    ensures Budget(w, EndOf(w, s, waves), s.steps) + |waves| <= Budget(w, s, s.steps)
    decreases |waves|
  {
    if waves == [] {
      forall x | x in Done(w, s) ensures x in s.results { DoneIsFinal(w, final, s, x); }
    } else {
      GoodStep(w, final, s, waves[0]);
      GoodRun(w, final, Step(w, s, waves[0]), waves[1..]);
      GrowsTwice(w, s, Step(w, s, waves[0]), EndOf(w, s, waves));
    }
  }

  /** Finished is for good: through any run a finished step keeps its result and is not run again. */
  lemma FinishedForGood(w: World, final: map<Id, Result>, s: State, waves: seq<seq<Send>>, id: Id)
    requires Good(w, final, s) && IsRun(w, s, waves) && id in Done(w, s)
    ensures var e := EndOf(w, s, waves);
            id in Done(w, e) && id in s.results && id in e.results
            && e.results[id] == s.results[id] && Runs(e, id) == Runs(s, id)
  {
    GoodRun(w, final, s, waves);
  }

  // ---------- where a dispatched state is routed ----------

  lemma StepsCount(steps: seq<PlanStep>)
    requires UniqueSteps(steps)
    ensures |StepIds(steps)| == |steps|
  {
    RowsKeepIds(steps);
    IdsCount(Rows(steps));
  }

  /** The cardinality test says that every step is done. */
  lemma AllDoneIsExact(w: World, final: map<Id, Result>, s: State)
    requires Inv(w, final, s)
    ensures AllDone(w, s) <==> Done(w, s) == StepIds(s.steps)
  {
    StepsCount(s.steps);
    assert Done(w, s) <= StepIds(s.steps);
    SubsetCount(Done(w, s), StepIds(s.steps));
  }

  lemma {:induction false} FirstUndone(w: World, s: State, order: seq<Id>, n: nat) returns (i: nat)
    requires n < |order| && order[n] !in Done(w, s)
    ensures i <= n && order[i] !in Done(w, s) && forall j :: 0 <= j < i ==> order[j] in Done(w, s)
    decreases n
  {
    if j :| 0 <= j < n && order[j] !in Done(w, s) {
      i := FirstUndone(w, s, order, j);
    } else {
      i := n;
    }
  }

  /** While a step is unfinished some step is ready: the executor cannot deadlock. */
  lemma NoDeadlock(w: World, final: map<Id, Result>, s: State, order: seq<Id>)
    requires Inv(w, final, s) && Runnable(s.steps, order) && !AllDone(w, s)
    ensures Ready(w, s) != []
  {
    AllDoneIsExact(w, final, s);
    assert Done(w, s) <= StepIds(s.steps);
    var x :| x in StepIds(s.steps) && x !in Done(w, s);
    assert x in order;
    var n :| 0 <= n < |order| && order[n] == x;
    var i := FirstUndone(w, s, order, n);
    assert AfterItsDeps(s.steps, order, i);
    var step := StepOf(s.steps, order[i]);
    forall d | d in step.dependsOn ensures d in Done(w, s) {
      var j :| 0 <= j < i && order[j] == d;
    }
    ReadyAre(s.steps, Done(w, s));
    assert step in Ready(w, s);
  }

  /** With every step done, the results are the evaluator's. */
  lemma AllDoneIsFinal(w: World, final: map<Id, Result>, s: State)
    requires Inv(w, final, s) && Done(w, s) == StepIds(s.steps)
    ensures s.results == final
  {
    forall x | x in StepIds(s.steps) ensures x in s.results && x in final && s.results[x] == final[x] {
      DoneIsFinal(w, final, s, x);
    }
    assert s.results.Keys == final.Keys;
  }

  lemma RunsWithinTries(w: World, final: map<Id, Result>, s: State, id: Id)
    requires Inv(w, final, s) && id in StepIds(s.steps)
    ensures Runs(s, id) <= w.maxRetries + 1
    ensures var a := Arguments(w, final, StepOf(s.steps, id));
            a.Have? ==> (Runs(s, id) <= LastTry(w, id, 1, a.value)
                         && (id in Done(w, s) ==> Runs(s, id) == LastTry(w, id, 1, a.value)))
  {
    var step := StepOf(s.steps, id);
    assert Fits(w, final, s, step);
    var a := Arguments(w, final, step);
    if a.Have? {
      LastTryBounds(w, id, 1, a.value);
      if Runs(s, id) > 0 {
        AttemptsReach(w, id, a.value, 1, Runs(s, id));
        LastTryBounds(w, id, Runs(s, id), a.value);
        if id in Done(w, s) { RanToIsFinal(w, final, step, Runs(s, id), s.results[id]); }
      } else if id in Done(w, s) {
        DoneIsFinal(w, final, s, id);
      }
    }
  }

  lemma BadMeansTrouble(w: World, final: map<Id, Result>, s: State)
    requires Inv(w, final, s)
    ensures WentBad(w, final, s) ==> MeetsTrouble(w, s.steps, final)
    ensures Done(w, s) == StepIds(s.steps) && MeetsTrouble(w, s.steps, final) ==> WentBad(w, final, s)
  {
    if WentBad(w, final, s) {
      var id, k: nat :| id in StepIds(s.steps) && k <= Runs(s, id) && BadRun(w, final, StepOf(s.steps, id), k);
      RunsWithinTries(w, final, s, id);
    }
    if Done(w, s) == StepIds(s.steps) && MeetsTrouble(w, s.steps, final) {
      var id, k: nat :| id in StepIds(s.steps) && BadRun(w, final, StepOf(s.steps, id), k)
                        && k <= LastTry(w, id, 1, Arguments(w, final, StepOf(s.steps, id)).value);
      RunsWithinTries(w, final, s, id);
    }
  }

  /** What a route decides, of any state a good run reaches. */
  ghost predicate RoutedRight(w: World, final: map<Id, Result>, d: State) {
    match RouteOf(w, d)
    case MergeResults => d.results == final && !MeetsTrouble(w, d.steps, final)
    case ExecutionError => MeetsTrouble(w, d.steps, final)
    case Sends(wave) => IsTheWave(w, d, wave)
  }

  lemma RouteIsRight(w: World, final: map<Id, Result>, d: State, order: seq<Id>)
    requires Good(w, final, d) && Runnable(d.steps, order) && RefusedNow(w, d) == []
    ensures RoutedRight(w, final, d)
  {
    if RouteOf(w, d).Sends? { Dispatching.TheWaveIsSent(w, d); }
    AllDoneIsExact(w, final, d);
    BadMeansTrouble(w, final, d);
    if AllDone(w, d) {
      AllDoneIsFinal(w, final, d);
    } else {
      NoDeadlock(w, final, d, order);
    }
  }

  // ---------- the theorems ----------

  /** Every run of a valid plan, with its branches landing in any order: it makes at most as many waves
      as there are tries, each step runs at most `maxRetries + 1` times, and where it is routed it has
      exactly the results the sequential evaluator computes (and then no run of any step went beyond
      recovery), or the evaluator too meets a failure beyond recovery, or there is a next wave. */
  lemma EveryRunRefinesTheEvaluator(w: World, steps: seq<PlanStep>, order: seq<Id>, waves: seq<seq<Send>>)
    requires UniqueSteps(steps) && Linked(steps) && Runnable(steps, order) && IsRun(w, Start(steps), waves)
    ensures InPlan(steps, order)
    ensures |waves| <= |steps| * (w.maxRetries + 1)
    ensures var d := Dispatched(w, EndOf(w, Start(steps), waves));
            && d.steps == steps
            && (forall id :: id in StepIds(steps) ==> Runs(d, id) <= w.maxRetries + 1)
            && RoutedRight(w, Evaluate(w, steps, order), d)
  {
    EvaluateIsFinal(w, steps, order);
    var final := Evaluate(w, steps, order);
    GoodStart(w, final, steps);
    GoodRun(w, final, Start(steps), waves);
    BudgetAtMost(w, Start(steps), steps);
    var e := EndOf(w, Start(steps), waves);
    GoodDispatched(w, final, e);
    var d := Dispatched(w, e);
    forall id | id in StepIds(steps) ensures Runs(d, id) <= w.maxRetries + 1 {
      RunsWithinTries(w, final, d, id);
    }
    RouteIsRight(w, final, d, order);
  }

  lemma {:induction false} RunOn(w: World, final: map<Id, Result>, s: State) returns (waves: seq<seq<Send>>)
    requires Good(w, final, s)
    ensures IsRun(w, s, waves) && !RouteOf(w, Dispatched(w, EndOf(w, s, waves))).Sends?
    decreases Budget(w, s, s.steps)
  {
    waves := [];
    if RouteOf(w, Dispatched(w, s)).Sends? {
      var arrivals := RouteOf(w, Dispatched(w, s)).wave;
      GoodStep(w, final, s, arrivals);
      var rest := RunOn(w, final, Step(w, s, arrivals));
      waves := [arrivals] + rest;
      assert waves[1..] == rest;
    }
  }

  /** Every valid plan is run to its end: wave after wave, until it merges the evaluator's results or meets
      the failure beyond recovery the evaluator meets. */
  lemma EveryPlanFinishes(w: World, steps: seq<PlanStep>, order: seq<Id>) returns (waves: seq<seq<Send>>)
    requires UniqueSteps(steps) && Linked(steps) && Runnable(steps, order)
    ensures InPlan(steps, order) && IsRun(w, Start(steps), waves)
    ensures var d := Dispatched(w, EndOf(w, Start(steps), waves));
            if RouteOf(w, d).MergeResults? then d.results == Evaluate(w, steps, order)
            else RouteOf(w, d).ExecutionError? && MeetsTrouble(w, steps, Evaluate(w, steps, order))
  {
    EvaluateIsFinal(w, steps, order);
    GoodStart(w, Evaluate(w, steps, order), steps);
    waves := RunOn(w, Evaluate(w, steps, order), Start(steps));
    EveryRunRefinesTheEvaluator(w, steps, order, waves);
  }

  /** Neither the order the branches landed in nor the order the steps are evaluated in shows in the
      results. */
  lemma ArrivalOrderNeverShows(w: World, steps: seq<PlanStep>, a: seq<seq<Send>>, b: seq<seq<Send>>)
    requires ValidSteps(steps) && IsRun(w, Start(steps), a) && IsRun(w, Start(steps), b)
    requires !RouteOf(w, Dispatched(w, EndOf(w, Start(steps), a))).Sends?
    requires !RouteOf(w, Dispatched(w, EndOf(w, Start(steps), b))).Sends?
    ensures var ra, rb := Dispatched(w, EndOf(w, Start(steps), a)), Dispatched(w, EndOf(w, Start(steps), b));
            RouteOf(w, ra) == RouteOf(w, rb) && (RouteOf(w, ra).MergeResults? ==> ra.results == rb.results)
  {
    var order :| Topological(Rows(steps), order);
    TopologicalIsRunnable(steps, order);
    EveryRunRefinesTheEvaluator(w, steps, order, a);
    EveryRunRefinesTheEvaluator(w, steps, order, b);
  }

  // ---------- a running plan that loses steps ----------

  function Amended(s: State, gone: set<Id>): State {
    s.(steps := StepsWithout(s.steps, gone))
  }

  /** A step that has run waits for nothing that is gone, so it is the same step of the amended plan. */
  lemma RanIsUntouched(w: World, final: map<Id, Result>, s: State, gone: set<Id>, id: Id)
    requires Inv(w, final, s) && id in StepIds(s.steps) && Runs(s, id) > 0
    requires forall x :: x in gone ==> x !in s.completed
    ensures id !in gone && id in StepIds(StepsWithout(s.steps, gone))
    ensures var step := StepOf(StepsWithout(s.steps, gone), id);
            step.args == StepOf(s.steps, id).args && step.capability == StepOf(s.steps, id).capability
            && step.dependsOn == StepOf(s.steps, id).dependsOn
    ensures forall d :: d in StepOf(s.steps, id).dependsOn ==> d in StepIds(s.steps) && Runs(s, d) > 0
  {
    assert multiset(s.completed)[id] > 0;
    StepOfWithout(s.steps, gone, id);
    var step := StepOf(s.steps, id);
    assert Fits(w, final, s, step);
    forall d | d in step.dependsOn ensures d in StepIds(s.steps) && Runs(s, d) > 0 && d !in gone {
      assert d in Done(w, s);
      DoneIsFinal(w, final, s, d);
    }
    NothingGone(step.dependsOn, gone);
  }

  lemma {:induction false} NothingGone(ids: seq<Id>, gone: set<Id>)
    requires forall d :: d in ids ==> d !in gone
    ensures Except(ids, gone) == ids
  {
    if ids != [] {
      assert ids == ids[..|ids| - 1] + [ids[|ids| - 1]];
      NothingGone(ids[..|ids| - 1], gone);
    }
  }

  ghost predicate Alike(final: map<Id, Result>, final': map<Id, Result>, id: Id) {
    id in final && id in final' && final'[id] == final[id]
  }

  ghost predicate AlikeUpTo(final: map<Id, Result>, final': map<Id, Result>, s: State, order: seq<Id>, n: nat)
    requires n <= |order|
  {
    forall i :: 0 <= i < n && Runs(s, order[i]) > 0 ==> Alike(final, final', order[i])
  }

  /** The steps that have run come to the same in the amended plan as in the plan they were run for. */
  lemma {:induction false} RanComesToTheSame(
      w: World, final: map<Id, Result>, final': map<Id, Result>, s: State, gone: set<Id>, order: seq<Id>, n: nat)
    requires Inv(w, final, s) && Runnable(s.steps, order) && n <= |order|
    requires forall x :: x in gone ==> x !in s.completed
    requires Final(w, StepsWithout(s.steps, gone), final')
    ensures AlikeUpTo(final, final', s, order, n)
  {
    if n > 0 {
      RanComesToTheSame(w, final, final', s, gone, order, n - 1);
      var id := order[n - 1];
      if Runs(s, id) > 0 {
        SameInBoth(w, final, final', s, gone, order, n - 1);
      }
    }
  }

  /** Read from results that agree on what it waits for, an untouched step has the same arguments. */
  lemma SameArgumentsInBoth(w: World, final: map<Id, Result>, final': map<Id, Result>, ids: set<Id>,
                            step: PlanStep, step': PlanStep)
    requires WellLinked(step, ids) && final.Keys <= ids && final'.Keys <= ids
    requires step'.args == step.args && step'.capability == step.capability
    requires forall d :: d in step.dependsOn ==> Handed(final', d) == Handed(final, d)
    ensures Arguments(w, final', step') == Arguments(w, final, step)
  {
    ReferencesAlike(step, ids, final', final);
    ResolveReadsOnlyItsReferences(step.args, final', final, w.inputs);
  }

  lemma SameInBoth(
      w: World, final: map<Id, Result>, final': map<Id, Result>, s: State, gone: set<Id>, order: seq<Id>, n: nat)
    requires Inv(w, final, s) && Runnable(s.steps, order) && n < |order| && Runs(s, order[n]) > 0
    requires forall x :: x in gone ==> x !in s.completed
    requires Final(w, StepsWithout(s.steps, gone), final')
    requires AlikeUpTo(final, final', s, order, n)
    ensures order[n] in StepIds(s.steps) && order[n] in StepIds(StepsWithout(s.steps, gone))
    ensures Arguments(w, final', StepOf(StepsWithout(s.steps, gone), order[n]))
         == Arguments(w, final, StepOf(s.steps, order[n]))
    ensures Alike(final, final', order[n])
  {
    var id, left := order[n], StepsWithout(s.steps, gone);
    assert AfterItsDeps(s.steps, order, n);
    RanIsUntouched(w, final, s, gone, id);
    IdsWithout(s.steps, gone);
    var step, step' := StepOf(s.steps, id), StepOf(left, id);
    AlikeBefore(final, final', s, order, n, step);
    StepIsLinked(s.steps, id);
    SameArgumentsInBoth(w, final, final', StepIds(s.steps), step, step');
    assert FinalAt(w, s.steps, final, id) && FinalAt(w, left, final', id);
  }

  lemma AlikeBefore(final: map<Id, Result>, final': map<Id, Result>, s: State, order: seq<Id>, n: nat, step: PlanStep)
    requires n < |order|
    requires forall d :: d in step.dependsOn ==> d in order[..n] && Runs(s, d) > 0
    requires AlikeUpTo(final, final', s, order, n)
    ensures forall d :: d in step.dependsOn ==> Handed(final', d) == Handed(final, d)
  {
  }

  lemma AmendedFits(
      w: World, final: map<Id, Result>, final': map<Id, Result>, s: State, gone: set<Id>, order: seq<Id>, id: Id)
    requires Inv(w, final, s) && Runnable(s.steps, order)
    requires forall x :: x in gone ==> x !in s.completed
    requires Final(w, StepsWithout(s.steps, gone), final')
    requires id in StepIds(s.steps) && id !in gone && id in StepIds(StepsWithout(s.steps, gone))
    ensures Fits(w, final', Amended(s, gone), StepOf(StepsWithout(s.steps, gone), id))
  {
    assert Fits(w, final, s, StepOf(s.steps, id));
    if Runs(s, id) > 0 {
      assert id in order;
      var n :| 0 <= n < |order| && order[n] == id;
      RanComesToTheSame(w, final, final', s, gone, order, n);
      SameInBoth(w, final, final', s, gone, order, n);
      RanIsUntouched(w, final, s, gone, id);
    }
  }

  /** Taking steps that have not run out of a running plan leaves the run where a run of the amended
      plan could be, so `_all_done`'s count still means that every step is done. */
  lemma DroppingKeepsTheRun(w: World, s: State, final: map<Id, Result>, gone: set<Id>, order: seq<Id>)
    requires Inv(w, final, s) && Runnable(s.steps, order)
    requires forall x :: x in gone ==> x !in s.completed
    ensures var left, rest := StepsWithout(s.steps, gone), Except(order, gone);
            Runnable(left, rest) && InPlan(left, rest) && Inv(w, Evaluate(w, left, rest), Amended(s, gone))
  {
    var left, rest := StepsWithout(s.steps, gone), Except(order, gone);
    RunnableWithout(s.steps, gone, order);
    StepsWithoutAre(s.steps, gone);
    LinkedWithout(s.steps, gone);
    IdsWithout(s.steps, gone);
    EvaluateIsFinal(w, left, rest);
    var final' := Evaluate(w, left, rest);
    forall x | x in s.completed ensures x in StepIds(left) {}
    forall x | x in s.results ensures x in StepIds(left) {
      assert Fits(w, final, s, StepOf(s.steps, x));
      assert x in s.completed <==> multiset(s.completed)[x] > 0;
    }
    forall id | id in StepIds(left) ensures Fits(w, final', Amended(s, gone), StepOf(left, id)) {
      AmendedFits(w, final, final', s, gone, order, id);
    }
  }

  lemma DroppingKeepsErrors(
      w: World, final: map<Id, Result>, final': map<Id, Result>, s: State, gone: set<Id>, order: seq<Id>)
    requires Good(w, final, s) && Runnable(s.steps, order)
    requires forall x :: x in gone ==> x !in s.completed
    requires Final(w, StepsWithout(s.steps, gone), final')
    ensures ErrorsTell(w, final', Amended(s, gone))
  {
    var left := StepsWithout(s.steps, gone);
    IdsWithout(s.steps, gone);
    forall id, k: nat | id in StepIds(s.steps) && 1 <= k <= Runs(s, id)
      ensures id in StepIds(left) && (BadRun(w, final, StepOf(s.steps, id), k) <==> BadRun(w, final', StepOf(left, id), k))
    {
      assert id in order;
      var n :| 0 <= n < |order| && order[n] == id;
      RanComesToTheSame(w, final, final', s, gone, order, n);
      SameInBoth(w, final, final', s, gone, order, n);
    }
    if WentBad(w, final, s) {
      var id, k: nat :| id in StepIds(s.steps) && k <= Runs(s, id) && BadRun(w, final, StepOf(s.steps, id), k);
      assert BadRun(w, final', StepOf(left, id), k);
    }
    if WentBad(w, final', Amended(s, gone)) {
      var id, k: nat :| id in StepIds(left) && k <= Runs(s, id) && BadRun(w, final', StepOf(left, id), k);
      assert BadRun(w, final, StepOf(s.steps, id), k);
    }
  }
}
