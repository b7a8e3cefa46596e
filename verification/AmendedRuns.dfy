/** Runs that lose steps on the way, any number of times (jobsmith/dag/jobs.py, jobsmith/dag/planner.py). */
module AmendedRuns {
  import opened Options
  import opened Ir
  import opened Graphs
  import opened Plans
  import opened Executor
  import opened Sequential
  import opened Refinement
  import opened WaveRuns

  /** A wave, or as much of it as landed before the run was stopped; or steps taken out of the stopped run's plan. */
  datatype Event = Wave(landed: seq<Send>) | Drop(gone: set<Id>)

  function After(w: World, s: State, e: Event): State {
    match e
    case Wave(landed) => WaveRuns.Step(w, s, landed)
    case Drop(gone) => Amended(s, gone)
  }

  /** Steps that have run are not dropped. */
  ghost predicate Happens(w: World, s: State, e: Event) {
    match e
    case Wave(landed) => LandOf(w, Dispatched(w, s), landed)
    case Drop(gone) => forall x :: x in gone ==> x !in s.completed
  }

  ghost predicate IsAmendedRun(w: World, s: State, events: seq<Event>)
    decreases |events|
  {
    events == [] || (Happens(w, s, events[0]) && IsAmendedRun(w, After(w, s, events[0]), events[1..]))
  }

  function StateAfter(w: World, s: State, events: seq<Event>): State
    decreases |events|
  {
    if events == [] then s else StateAfter(w, After(w, s, events[0]), events[1..])
  }

  function Dropped(events: seq<Event>): set<Id> {
    if events == [] then {} else (if events[0].Drop? then events[0].gone else {}) + Dropped(events[1..])
  }

  /** The state is one a run of its own plan could be in, and its plan can run in `order`. */
  ghost predicate OnCourse(w: World, s: State, order: seq<Id>) {
    Runnable(s.steps, order) && InPlan(s.steps, order) && Good(w, Evaluate(w, s.steps, order), s)
  }

  lemma PruneNothing(step: PlanStep)
    ensures Pruned(step, {}) == step
  {
    NothingGone(step.dependsOn, {});
    NothingGone(step.after, {});
  }

  lemma {:induction false} DropNothing(steps: seq<PlanStep>)
    ensures StepsWithout(steps, {}) == steps
  {
    if steps != [] {
      DropNothing(steps[..|steps| - 1]);
      PruneNothing(steps[|steps| - 1]);
      assert steps == steps[..|steps| - 1] + [steps[|steps| - 1]];
    }
  }

  lemma WaveStaysOnCourse(w: World, s: State, order: seq<Id>, landed: seq<Send>)
    requires OnCourse(w, s, order) && Happens(w, s, Wave(landed))
    ensures OnCourse(w, After(w, s, Wave(landed)), order) && After(w, s, Wave(landed)).steps == s.steps
  {
    GoodLanding(w, Evaluate(w, s.steps, order), s, landed);
  }

  lemma DropStaysOnCourse(w: World, s: State, order: seq<Id>, gone: set<Id>)
    requires OnCourse(w, s, order) && Happens(w, s, Drop(gone))
    ensures OnCourse(w, After(w, s, Drop(gone)), Except(order, gone))
  {
    var final := Evaluate(w, s.steps, order);
    DroppingKeepsTheRun(w, s, final, gone, order);
    DroppingKeepsErrors(w, final, Evaluate(w, StepsWithout(s.steps, gone), Except(order, gone)), s, gone, order);
  }

  lemma {:induction false} StaysOnCourse(w: World, s: State, order: seq<Id>, events: seq<Event>)
    requires OnCourse(w, s, order) && IsAmendedRun(w, s, events)
    ensures OnCourse(w, StateAfter(w, s, events), Except(order, Dropped(events)))
    ensures StateAfter(w, s, events).steps == StepsWithout(s.steps, Dropped(events))
    decreases |events|
  {
    if events == [] {
      NothingGone(order, {});
      DropNothing(s.steps);
    } else {
      var next, rest := After(w, s, events[0]), Dropped(events[1..]);
      match events[0] {
        case Wave(landed) =>
          WaveStaysOnCourse(w, s, order, landed);
          StaysOnCourse(w, next, order, events[1..]);
          assert Dropped(events) == rest;
        case Drop(gone) =>
          DropStaysOnCourse(w, s, order, gone);
          StaysOnCourse(w, next, Except(order, gone), events[1..]);
          ExceptTwice(order, gone, rest);
          StepsWithoutTwice(s.steps, gone, rest);
      }
    }
  }

  /** A run that is stopped and loses steps on the way, any number of times and in the middle of a wave, ends as if
      the plan without them had been the plan from the start: with the results the sequential evaluator computes of
      it, or the error it meets. */
  lemma AmendedRunsRefineTheAmendedPlan(w: World, steps: seq<PlanStep>, order: seq<Id>, events: seq<Event>)
    requires UniqueSteps(steps) && Linked(steps) && Runnable(steps, order) && IsAmendedRun(w, Start(steps), events)
    ensures var left, rest := StepsWithout(steps, Dropped(events)), Except(order, Dropped(events));
            && Runnable(left, rest) && InPlan(left, rest)
            && StateAfter(w, Start(steps), events).steps == left
            && RoutedRight(w, Evaluate(w, left, rest), Dispatched(w, StateAfter(w, Start(steps), events)))
  {
    EvaluateIsFinal(w, steps, order);
    GoodStart(w, Evaluate(w, steps, order), steps);
    StaysOnCourse(w, Start(steps), order, events);
    var e, rest := StateAfter(w, Start(steps), events), Except(order, Dropped(events));
    GoodDispatched(w, Evaluate(w, e.steps, rest), e);
    RouteIsRight(w, Evaluate(w, e.steps, rest), Dispatched(w, e), rest);
  }
}
