/** Every run of the wave interpreter, whatever order its branches land in, computes what the sequential
    evaluator computes; it cannot deadlock and it ends. */
module Refinement {
  import opened Sequences
  import opened Ir
  import opened Graphs
  import opened Plans
  import opened Executor
  import opened Sequential
  import Dispatching

  // ---------- the invariant ----------

  ghost predicate DepsDone(w: World, s: State, step: PlanStep) {
    forall d :: d in step.dependsOn ==> d in Done(w, s)
  }

  /** `r` is what `n` runs of the step leave when all but the last failed transiently. */
  ghost predicate RanTo(w: World, final: map<Id, Result>, step: PlanStep, n: nat, r: Result) {
    match Arguments(w, final, step)
    case Unresolved(why) => n == 1 && r == Failed(why, false)
    case Have(args) =>
      1 <= n <= w.maxRetries + 1 && r == w.run(step.id, n, args).result && TransientUntil(w, step.id, args, 1, n)
  }

  /** A step has either not run, or run, after all it waits for was finished, on its final arguments. */
  ghost predicate Fits(w: World, final: map<Id, Result>, s: State, step: PlanStep) {
    if Runs(s, step.id) == 0 then step.id !in s.results
    else step.id in s.results && DepsDone(w, s, step) && RanTo(w, final, step, Runs(s, step.id), s.results[step.id])
  }

  ghost predicate Inv(w: World, final: map<Id, Result>, s: State) {
    && UniqueSteps(s.steps) && Linked(s.steps) && Final(w, s.steps, final)
    && (forall x :: x in s.completed ==> x in StepIds(s.steps))
    && s.results.Keys <= StepIds(s.steps)
    && AllFit(w, final, s)
  }

  ghost predicate AllFit(w: World, final: map<Id, Result>, s: State) {
    forall id {:trigger StepOf(s.steps, id)} :: id in StepIds(s.steps) ==> Fits(w, final, s, StepOf(s.steps, id))
  }

  function Start(steps: seq<PlanStep>): State {
    State(steps, map[], [], [])
  }

  // ---------- a finished step has its final result ----------

  lemma RanToIsFinal(w: World, final: map<Id, Result>, step: PlanStep, n: nat, r: Result)
    requires RanTo(w, final, step, n, r) && !(Transient(r) && n <= w.maxRetries)
    ensures r == Finish(w, final, step)
    ensures Arguments(w, final, step).Have? ==> n == LastTry(w, step.id, 1, Arguments(w, final, step).value)
  {
    var a := Arguments(w, final, step);
    if a.Have? { AttemptsReach(w, step.id, a.value, 1, n); }
  }

  lemma DoneIsFinal(w: World, final: map<Id, Result>, s: State, id: Id)
    requires Inv(w, final, s) && id in Done(w, s)
    ensures id in s.results && id in final && s.results[id] == final[id]
    ensures Runs(s, id) > 0
  {
    var step := StepOf(s.steps, id);
    assert Fits(w, final, s, step);
    RanToIsFinal(w, final, step, Runs(s, id), s.results[id]);
    assert FinalAt(w, s.steps, final, id);
  }

  /** When what a step waits for is finished, its arguments are its final ones: on its first run and on
      every retry. */
  lemma ReadyReadsFinal(w: World, final: map<Id, Result>, s: State, id: Id)
    requires Inv(w, final, s) && id in StepIds(s.steps) && DepsDone(w, s, StepOf(s.steps, id))
    ensures Arguments(w, s.results, StepOf(s.steps, id)) == Arguments(w, final, StepOf(s.steps, id))
  {
    forall d | d in StepOf(s.steps, id).dependsOn ensures Handed(s.results, d) == Handed(final, d) {
      DoneIsFinal(w, final, s, d);
    }
    ReadsAlike(w, s.steps, id, s.results, final);
  }

  // ---------- one landing ----------

  /** What the next run of a step must hand back. */
  ghost function RightUpdate(w: World, final: map<Id, Result>, step: PlanStep, n: nat): Update {
    match Arguments(w, final, step)
    case Unresolved(why) => FailUpdate(step, why)
    case Have(args) => RunUpdate(w, step.capability, step.id, n, args)
  }

  ghost predicate MayRun(w: World, s: State, id: Id) {
    id in StepIds(s.steps) && id !in Done(w, s) && DepsDone(w, s, StepOf(s.steps, id))
  }

  /** What was finished stays as it was. */
  ghost predicate Grows(w: World, s: State, s': State) {
    && s'.steps == s.steps
    && Done(w, s) <= Done(w, s')
    && forall x {:trigger x in Done(w, s)} :: x in Done(w, s) ==>
         Runs(s', x) == Runs(s, x) && x in s.results && x in s'.results && s'.results[x] == s.results[x]
  }

  /** `s'` is `s` but for one more run of `id`. */
  ghost predicate OneRunLater(w: World, s: State, s': State, id: Id) {
    && s'.steps == s.steps
    && Runs(s', id) == Runs(s, id) + 1
    && id in s'.results
    && forall x :: x != id ==>
         Runs(s', x) == Runs(s, x)
         && (x in s'.results <==> x in s.results) && (x in s.results ==> s'.results[x] == s.results[x])
  }

  lemma MergedOneRun(w: World, final: map<Id, Result>, s: State, id: Id)
    requires id in StepIds(s.steps)
    ensures var u := RightUpdate(w, final, StepOf(s.steps, id), Runs(s, id) + 1);
            OneRunLater(w, s, Merge(s, u), id) && Merge(s, u).results[id] == u.results[id]
  {
  }

  lemma StaysDone(w: World, s: State, s': State, id: Id, x: Id)
    requires OneRunLater(w, s, s', id) && x in Done(w, s) && x != id
    ensures x in Done(w, s')
  {
  }

  lemma OneRunGrows(w: World, final: map<Id, Result>, s: State, s': State, id: Id)
    requires Inv(w, final, s) && MayRun(w, s, id) && OneRunLater(w, s, s', id)
    ensures Grows(w, s, s')
  {
    forall x | x in Done(w, s)
      ensures x in Done(w, s') && Runs(s', x) == Runs(s, x)
      ensures x in s.results && x in s'.results && s'.results[x] == s.results[x]
    {
      DoneIsFinal(w, final, s, x);
      StaysDone(w, s, s', id, x);
    }
  }

  lemma AllStillFit(w: World, final: map<Id, Result>, s: State, s': State, id: Id)
    requires AllFit(w, final, s) && MayRun(w, s, id) && OneRunLater(w, s, s', id) && Grows(w, s, s')
    requires s'.results[id] == RightUpdate(w, final, StepOf(s.steps, id), Runs(s, id) + 1).results[id]
    ensures AllFit(w, final, s')
  {
  }

  /** Landing the right update of a step that may run keeps the invariant. */
  lemma LandingKeepsInv(w: World, final: map<Id, Result>, s: State, id: Id, u: Update)
    requires Inv(w, final, s) && MayRun(w, s, id)
    requires u == RightUpdate(w, final, StepOf(s.steps, id), Runs(s, id) + 1)
    ensures Inv(w, final, Merge(s, u)) && Grows(w, s, Merge(s, u)) && OneRunLater(w, s, Merge(s, u), id)
  {
    var s' := Merge(s, u);
    MergedOneRun(w, final, s, id);
    OneRunGrows(w, final, s, s', id);
    AllStillFit(w, final, s, s', id);
    OnlyItsOwnKey(w, final, StepOf(s.steps, id), Runs(s, id) + 1);
  }

  /** A branch writes its own key and appends its own id, once. */
  lemma OnlyItsOwnKey(w: World, final: map<Id, Result>, step: PlanStep, n: nat)
    ensures RightUpdate(w, final, step, n).completed == [step.id]
    ensures RightUpdate(w, final, step, n).results.Keys == {step.id}
    ensures forall e :: e in RightUpdate(w, final, step, n).errors ==> e.source == step.capability
  {
  }

  // ---------- the measure ----------

  /** How many more times a step may run. */
  ghost function Left(w: World, s: State, id: Id): nat {
    if id in Done(w, s) || Runs(s, id) > w.maxRetries + 1 then 0 else w.maxRetries + 1 - Runs(s, id)
  }

  ghost function Budget(w: World, s: State, steps: seq<PlanStep>): nat {
    if steps == [] then 0 else Left(w, s, steps[0].id) + Budget(w, s, steps[1..])
  }

  lemma RunSpends(w: World, final: map<Id, Result>, s: State, s': State, id: Id)
    requires Inv(w, final, s) && MayRun(w, s, id) && OneRunLater(w, s, s', id) && Grows(w, s, s')
    ensures Left(w, s', id) < Left(w, s, id)
    ensures forall x :: x != id ==> Left(w, s', x) <= Left(w, s, x)
  {
  }

  lemma {:induction false} BudgetShrinks(w: World, s: State, s': State, id: Id, steps: seq<PlanStep>)
    requires Left(w, s', id) < Left(w, s, id) && forall x :: x != id ==> Left(w, s', x) <= Left(w, s, x)
    ensures Budget(w, s', steps) <= Budget(w, s, steps)
    ensures id in StepIds(steps) ==> Budget(w, s', steps) < Budget(w, s, steps)
  {
    if steps != [] {
      BudgetShrinks(w, s, s', id, steps[1..]);
      if id in StepIds(steps) && steps[0].id != id {
        var k :| 0 <= k < |steps| && steps[k].id == id;
        assert steps[1..][k - 1].id == id;
      }
    }
  }

  lemma OneMore(n: nat, m: nat)
    ensures (n + 1) * m == n * m + m
  {
  }

  lemma {:induction false} BudgetAtMost(w: World, s: State, steps: seq<PlanStep>)
    ensures Budget(w, s, steps) <= |steps| * (w.maxRetries + 1)
  {
    if steps != [] {
      BudgetAtMost(w, s, steps[1..]);
      OneMore(|steps[1..]|, w.maxRetries + 1);
    }
  }

  // ---------- many landings ----------

  ghost predicate RightUpdates(w: World, final: map<Id, Result>, s: State, ids: seq<Id>, us: seq<Update>) {
    && |us| == |ids| && Distinct(ids)
    && forall k :: 0 <= k < |ids| ==> RightAt(w, final, s, ids[k], us[k])
  }

  ghost predicate RightAt(w: World, final: map<Id, Result>, s: State, id: Id, u: Update) {
    MayRun(w, s, id) && u == RightUpdate(w, final, StepOf(s.steps, id), Runs(s, id) + 1)
  }

  lemma StillRightAt(w: World, final: map<Id, Result>, s: State, s': State, id: Id, x: Id, u: Update)
    requires RightAt(w, final, s, x, u) && OneRunLater(w, s, s', id) && Grows(w, s, s') && x != id
    ensures RightAt(w, final, s', x, u)
  {
  }

  lemma StillRight(w: World, final: map<Id, Result>, s: State, ids: seq<Id>, us: seq<Update>)
    requires RightUpdates(w, final, s, ids, us) && ids != []
    requires OneRunLater(w, s, Merge(s, us[0]), ids[0]) && Grows(w, s, Merge(s, us[0]))
    ensures RightUpdates(w, final, Merge(s, us[0]), ids[1..], us[1..])
  {
    var s' := Merge(s, us[0]);
    forall k | 0 <= k < |ids[1..]| ensures RightAt(w, final, s', ids[1..][k], us[1..][k]) {
      assert RightAt(w, final, s, ids[k + 1], us[k + 1]);
      StillRightAt(w, final, s, s', ids[0], ids[k + 1], us[k + 1]);
    }
  }

  lemma LandingSpends(w: World, final: map<Id, Result>, s: State, id: Id, u: Update)
    requires Inv(w, final, s) && RightAt(w, final, s, id, u)
    ensures var s' := Merge(s, u);
            Inv(w, final, s') && Grows(w, s, s') && OneRunLater(w, s, s', id)
            && Budget(w, s', s.steps) < Budget(w, s, s.steps)
  {
    LandingKeepsInv(w, final, s, id, u);
    RunSpends(w, final, s, Merge(s, u), id);
    BudgetShrinks(w, s, Merge(s, u), id, s.steps);
  }

  lemma FirstLanding(w: World, final: map<Id, Result>, s: State, ids: seq<Id>, us: seq<Update>)
    requires Inv(w, final, s) && RightUpdates(w, final, s, ids, us) && ids != []
    ensures var s' := Merge(s, us[0]);
            && Inv(w, final, s') && Grows(w, s, s') && RightUpdates(w, final, s', ids[1..], us[1..])
            && Budget(w, s', s.steps) < Budget(w, s, s.steps)
  {
    assert RightAt(w, final, s, ids[0], us[0]);
    LandingSpends(w, final, s, ids[0], us[0]);
    StillRight(w, final, s, ids, us);
  }

  lemma {:induction false} ManyLandings(w: World, final: map<Id, Result>, s: State, ids: seq<Id>, us: seq<Update>)
    requires Inv(w, final, s) && RightUpdates(w, final, s, ids, us)
    ensures Inv(w, final, Land(s, us)) && Grows(w, s, Land(s, us))
    ensures Budget(w, Land(s, us), s.steps) + |ids| <= Budget(w, s, s.steps)
    decreases |ids|
  {
    if ids == [] {
      forall x | x in Done(w, s) ensures x in s.results { DoneIsFinal(w, final, s, x); }
    } else {
      var s' := Merge(s, us[0]);
      FirstLanding(w, final, s, ids, us);
      ManyLandings(w, final, s', ids[1..], us[1..]);
      GrowsTwice(w, s, s', Land(s, us));
    }
  }

  lemma GrowsTwice(w: World, a: State, b: State, c: State)
    requires Grows(w, a, b) && Grows(w, b, c)
    ensures Grows(w, a, c)
  {
  }

  // ---------- dispatch and waves are landings ----------

  function IdSeq(steps: seq<PlanStep>): (ids: seq<Id>)
    ensures |ids| == |steps|
    ensures forall k :: 0 <= k < |ids| ==> ids[k] == steps[k].id
  {
    seq(|steps|, i requires 0 <= i < |steps| => steps[i].id)
  }

  lemma MemberStep(steps: seq<PlanStep>, step: PlanStep)
    requires UniqueSteps(steps) && step in steps
    ensures step.id in StepIds(steps) && StepOf(steps, step.id) == step
  {
  }

  lemma TurnIsRight(w: World, final: map<Id, Result>, s: State)
    requires Inv(w, final, s)
    ensures RightUpdates(w, final, s, IdSeq(RefusedNow(w, s)), FailUpdates(w, s.results, RefusedNow(w, s)))
  {
    var refused := RefusedNow(w, s);
    ReadyAre(s.steps, Done(w, s));
    RefusedAre(w, s.results, Ready(w, s));
    var us := FailUpdates(w, s.results, refused);
    forall k | 0 <= k < |refused|
      ensures RightAt(w, final, s, refused[k].id, us[k])
    {
      RefusedIsReady(w, s, refused[k]);
      MemberStep(s.steps, refused[k]);
      ReadyReadsFinal(w, final, s, refused[k].id);
    }
  }

  lemma {:induction false} DispatchKeepsInv(w: World, final: map<Id, Result>, s: State)
    requires Inv(w, final, s)
    ensures Inv(w, final, Dispatched(w, s)) && Grows(w, s, Dispatched(w, s))
    ensures Budget(w, Dispatched(w, s), s.steps) <= Budget(w, s, s.steps)
    decreases Undone(w, s)
  {
    if RefusedNow(w, s) == [] {
      forall x | x in Done(w, s) ensures x in s.results { DoneIsFinal(w, final, s, x); }
    } else {
      TurnIsRight(w, final, s);
      ManyLandings(w, final, s, IdSeq(RefusedNow(w, s)), FailUpdates(w, s.results, RefusedNow(w, s)));
      TurnMakesProgress(w, s);
      DispatchKeepsInv(w, final, FailRefused(w, s));
      GrowsTwice(w, s, FailRefused(w, s), Dispatched(w, s));
    }
  }

  function SentIds(sent: seq<Send>): (ids: seq<Id>)
    ensures |ids| == |sent|
    ensures forall k :: 0 <= k < |ids| ==> ids[k] == sent[k].id
  {
    seq(|sent|, i requires 0 <= i < |sent| => sent[i].id)
  }

  lemma {:induction false} OnceSent(wave: seq<Send>, e: Send)
    requires forall i, j :: 0 <= i < j < |wave| ==> wave[i].id != wave[j].id
    ensures multiset(wave)[e] <= 1
  {
    if wave != [] {
      OnceSent(wave[1..], e);
      assert wave == [wave[0]] + wave[1..];
      forall k | 0 <= k < |wave[1..]| ensures wave[1..][k] != wave[0] {
        assert wave[1..][k] == wave[k + 1];
      }
    }
  }

  lemma TwiceIn<T>(s: seq<T>, i: nat, j: nat)
    requires i < j < |s| && s[i] == s[j]
    ensures multiset(s)[s[i]] >= 2
  {
    assert s == s[..j] + s[j..];
    assert s[i] in s[..j] && s[j] in s[j..];
    assert multiset(s[..j])[s[i]] >= 1 && multiset(s[j..])[s[i]] >= 1;
  }

  /** What lands of a wave was sent in it, each branch once. */
  lemma LandedOnce(wave: seq<Send>, landed: seq<Send>)
    requires forall i, j :: 0 <= i < j < |wave| ==> wave[i].id != wave[j].id
    requires multiset(landed) <= multiset(wave)
    ensures forall e :: e in landed ==> e in wave
    ensures Distinct(SentIds(landed))
  {
    forall e | e in landed ensures e in wave {
      assert e in multiset(landed) && e in multiset(wave);
    }
    forall i, j | 0 <= i < j < |landed| ensures SentIds(landed)[i] != SentIds(landed)[j] {
      if landed[i].id == landed[j].id {
        assert landed[i] in wave && landed[j] in wave;
        TwiceIn(landed, i, j);
        OnceSent(wave, landed[i]);
      }
    }
  }

  /** A branch of the wave that was sent returns what the next run of its step must. */
  lemma BranchIsRight(w: World, final: map<Id, Result>, d: State, sent: Send)
    requires Inv(w, final, d) && RefusedNow(w, d) == [] && RouteOf(w, d).Sends? && sent in RouteOf(w, d).wave
    ensures RightAt(w, final, d, sent.id, BranchUpdate(w, d, sent))
  {
    Dispatching.TheWaveIsSent(w, d);
    var wave := RouteOf(w, d).wave;
    var i :| 0 <= i < |wave| && wave[i] == sent;
    var step :| step in d.steps && Carries(w, d, wave[i], step);
    assert SentIn(wave, step.id);
    OpenIsRight(w, final, d, step, sent);
  }

  lemma OpenIsRight(w: World, final: map<Id, Result>, d: State, step: PlanStep, sent: Send)
    requires Inv(w, final, d) && step in d.steps && MayStart(w, d, step) && Carries(w, d, sent, step)
    ensures RightAt(w, final, d, step.id, BranchUpdate(w, d, sent))
  {
    MemberStep(d.steps, step);
    ReadyReadsFinal(w, final, d, step.id);
  }

  lemma WaveIsRight(w: World, final: map<Id, Result>, d: State, landed: seq<Send>)
    requires Inv(w, final, d) && RefusedNow(w, d) == [] && LandOf(w, d, landed)
    ensures RightUpdates(w, final, d, SentIds(landed), BranchUpdates(w, d, landed))
  {
    Dispatching.TheWaveIsSent(w, d);
    LandedOnce(RouteOf(w, d).wave, landed);
    forall k | 0 <= k < |landed|
      ensures RightAt(w, final, d, SentIds(landed)[k], BranchUpdates(w, d, landed)[k])
    {
      BranchIsRight(w, final, d, landed[k]);
    }
  }
}
