/** The plain evaluator the wave interpreter is measured against: the steps one after the other in an
    order they can run in, each tried until it is finished. */
module Sequential {
  import opened Sequences
  import opened Ir
  import opened Graphs
  import opened Plans
  import opened Executor

  /** The n-th run of a step and, while it fails transiently and may be tried again, the next. */
  function Attempts(w: World, id: Id, n: nat, args: Value): Result
    decreases if n <= w.maxRetries then w.maxRetries + 1 - n else 0
  {
    var r := w.run(id, n, args).result;
    if Transient(r) && n <= w.maxRetries then Attempts(w, id, n + 1, args) else r
  }

  /** Which run is the last. */
  function LastTry(w: World, id: Id, n: nat, args: Value): nat
    decreases if n <= w.maxRetries then w.maxRetries + 1 - n else 0
  {
    if Transient(w.run(id, n, args).result) && n <= w.maxRetries then LastTry(w, id, n + 1, args) else n
  }

  /** What becomes of a step once what it waits for is in `results`. */
  function Finish(w: World, results: map<Id, Result>, step: PlanStep): Result {
    match Arguments(w, results, step)
    case Unresolved(why) => Failed(why, false)
    case Have(args) => Attempts(w, step.id, 1, args)
  }

  ghost predicate InPlan(steps: seq<PlanStep>, order: seq<Id>) {
    forall x :: x in order ==> x in StepIds(steps)
  }

  ghost function Evaluate(w: World, steps: seq<PlanStep>, order: seq<Id>): map<Id, Result>
    requires InPlan(steps, order)
  {
    if order == [] then map[]
    else
      var id := order[|order| - 1];
      assert id in order;
      assert InPlan(steps, order[..|order| - 1]);
      var before := Evaluate(w, steps, order[..|order| - 1]);
      before[id := Finish(w, before, StepOf(steps, id))]
  }

  /** Each step's result is what its own arguments, read from these results, make of it. */
  ghost predicate Final(w: World, steps: seq<PlanStep>, r: map<Id, Result>) {
    r.Keys == StepIds(steps) &&
    forall id {:trigger FinalAt(w, steps, r, id)} :: id in StepIds(steps) ==> FinalAt(w, steps, r, id)
  }

  ghost predicate FinalAt(w: World, steps: seq<PlanStep>, r: map<Id, Result>, id: Id)
    requires id in StepIds(steps)
  {
    id in r && r[id] == Finish(w, r, StepOf(steps, id))
  }

  lemma {:induction false} EvaluateKeeps(w: World, steps: seq<PlanStep>, order: seq<Id>, i: nat)
    requires InPlan(steps, order) && Distinct(order) && i <= |order|
    ensures InPlan(steps, order[..i])
    ensures forall x :: x in Evaluate(w, steps, order[..i]) <==> x in order[..i]
    ensures forall x :: x in order[..i] ==>
              x in Evaluate(w, steps, order) && Evaluate(w, steps, order)[x] == Evaluate(w, steps, order[..i])[x]
    decreases |order|
  {
    if i == |order| {
      assert order[..i] == order;
      if i > 0 {
        EvaluateKeeps(w, steps, order[..i - 1], i - 1);
        assert order[..i - 1][..i - 1] == order[..i - 1];
      }
    } else {
      var init := order[..|order| - 1];
      EvaluateKeeps(w, steps, init, i);
      assert init[..i] == order[..i];
      assert order[|order| - 1] !in order[..i];
    }
  }

  lemma ReferencesAlike(step: PlanStep, ids: set<Id>, a: map<Id, Result>, b: map<Id, Result>)
    requires WellLinked(step, ids) && a.Keys <= ids && b.Keys <= ids
    requires forall d :: d in step.dependsOn ==> Handed(a, d) == Handed(b, d)
    ensures SameFor(RefsIn(step.args), a, b)
  {
    var refs := RefsIn(step.args);
    forall r | r in refs && r.Ref? && r.head.FromStep?
      ensures Handed(a, r.head.id) == Handed(b, r.head.id)
    {
      StepHeadsOf(refs, r.head.id);
    }
  }

  lemma StepIsLinked(steps: seq<PlanStep>, id: Id)
    requires Linked(steps) && id in StepIds(steps)
    ensures WellLinked(StepOf(steps, id), StepIds(steps))
  {
  }

  /** Results a step of the plan reads alike: they agree on what it waits for, and neither knows any
      step outside the plan. */
  lemma ReadsAlike(w: World, steps: seq<PlanStep>, id: Id, a: map<Id, Result>, b: map<Id, Result>)
    requires Linked(steps) && id in StepIds(steps)
    requires a.Keys <= StepIds(steps) && b.Keys <= StepIds(steps)
    requires forall d :: d in StepOf(steps, id).dependsOn ==> Handed(a, d) == Handed(b, d)
    ensures Arguments(w, a, StepOf(steps, id)) == Arguments(w, b, StepOf(steps, id))
  {
    StepIsLinked(steps, id);
    ReferencesAlike(StepOf(steps, id), StepIds(steps), a, b);
    ResolveReadsOnlyItsReferences(StepOf(steps, id).args, a, b, w.inputs);
  }

  /** What the evaluator computes satisfies every step's own equation at once, whatever the order. */
  lemma EvaluateIsFinal(w: World, steps: seq<PlanStep>, order: seq<Id>)
    requires UniqueSteps(steps) && Linked(steps) && Runnable(steps, order)
    ensures InPlan(steps, order) && Final(w, steps, Evaluate(w, steps, order))
  {
    var r := Evaluate(w, steps, order);
    EvaluateKeeps(w, steps, order, |order|);
    assert order[..|order|] == order;
    forall id | id in StepIds(steps) ensures FinalAt(w, steps, r, id) {
      assert id in order;
      var i :| 0 <= i < |order| && order[i] == id;
      EvaluatedAt(w, steps, order, i);
    }
    assert forall x :: x in r <==> x in StepIds(steps);
  }

  lemma EvaluatedThen(w: World, steps: seq<PlanStep>, order: seq<Id>, i: nat)
    requires InPlan(steps, order) && Distinct(order) && i < |order|
    ensures InPlan(steps, order[..i]) && order[i] in StepIds(steps)
    ensures order[i] in Evaluate(w, steps, order)
    ensures Evaluate(w, steps, order)[order[i]]
         == Finish(w, Evaluate(w, steps, order[..i]), StepOf(steps, order[i]))
  {
    EvaluateKeeps(w, steps, order, i);
    EvaluateKeeps(w, steps, order, i + 1);
    assert order[i] in order;
    assert order[..i + 1][..i] == order[..i] && order[i] in order[..i + 1];
  }

  lemma EvaluatedAt(w: World, steps: seq<PlanStep>, order: seq<Id>, i: nat)
    requires Linked(steps) && Runnable(steps, order) && i < |order|
    ensures InPlan(steps, order) && order[i] in StepIds(steps)
    ensures FinalAt(w, steps, Evaluate(w, steps, order), order[i])
  {
    assert AfterItsDeps(steps, order, i);
    EvaluatedThen(w, steps, order, i);
    EvaluateKeeps(w, steps, order, i);
    EvaluateKeys(w, steps, order);
    EvaluateKeys(w, steps, order[..i]);
    ReadsAlike(w, steps, order[i], Evaluate(w, steps, order[..i]), Evaluate(w, steps, order));
  }

  lemma EvaluateKeys(w: World, steps: seq<PlanStep>, order: seq<Id>)
    requires InPlan(steps, order) && Distinct(order)
    ensures Evaluate(w, steps, order).Keys <= StepIds(steps)
  {
  }

  /** Runs `m` up to `n` all fail transiently. */
  ghost predicate TransientUntil(w: World, id: Id, args: Value, m: nat, n: nat) {
    forall k :: m <= k < n ==> Transient(w.run(id, k, args).result)
  }

  lemma {:induction false} AttemptsReach(w: World, id: Id, args: Value, m: nat, n: nat)
    requires m <= n <= w.maxRetries + 1 && TransientUntil(w, id, args, m, n)
    ensures Attempts(w, id, m, args) == Attempts(w, id, n, args)
    ensures LastTry(w, id, m, args) == LastTry(w, id, n, args)
    decreases n - m
  {
    if m < n {
      assert Transient(w.run(id, m, args).result);
      AttemptsReach(w, id, args, m + 1, n);
    }
  }

  lemma {:induction false} LastTryBounds(w: World, id: Id, n: nat, args: Value)
    requires n <= w.maxRetries + 1
    ensures n <= LastTry(w, id, n, args) <= w.maxRetries + 1
    decreases w.maxRetries + 1 - n
  {
    if Transient(w.run(id, n, args).result) && n <= w.maxRetries { LastTryBounds(w, id, n + 1, args); }
  }

  /** A run of the step, one the evaluator makes, that fails beyond recovery. */
  ghost predicate BadRun(w: World, r: map<Id, Result>, step: PlanStep, k: nat) {
    && 1 <= k
    && Arguments(w, r, step).Have?
    && var o := w.run(step.id, k, Arguments(w, r, step).value);
       o.result.Failed? && !o.recoverable
  }

  ghost predicate MeetsTrouble(w: World, steps: seq<PlanStep>, r: map<Id, Result>) {
    exists id, k: nat :: id in StepIds(steps) && BadRun(w, r, StepOf(steps, id), k)
                         && k <= LastTry(w, id, 1, Arguments(w, r, StepOf(steps, id)).value)
  }
}
