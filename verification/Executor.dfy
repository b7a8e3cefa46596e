/** The wave interpreter (jobsmith/dag/executor.py) and the reducers that merge what its parallel branches
    return (jobsmith/dag/state.py, jobsmith/dag/capability.py). */
module Executor {
  import opened Options
  import opened Ir
  import opened Graphs
  import opened Plans

  datatype NodeError = NodeError(source: string, recoverable: bool)

  /** What one run of a step comes to; `recoverable` matters only when it failed. */
  datatype Outcome = Outcome(result: Result, recoverable: bool)

  /** What a run is given: the job's inputs, what each op's input model refuses, what the n-th run of a
      step on resolved arguments comes to, and how many more times a transient failure is tried. */
  datatype World = World(
    inputs: map<string, Value>,
    refusal: (string, Value) -> Option<string>,
    run: (Id, nat, Value) -> Outcome,
    maxRetries: nat)

  datatype State = State(
    steps: seq<PlanStep>,
    results: map<Id, Result>,
    completed: seq<Id>,
    errors: seq<NodeError>)

  /** What a node returns: one entry for each of the channels that have a reducer. */
  datatype Update = Update(results: map<Id, Result>, completed: seq<Id>, errors: seq<NodeError>)

  /** The reducers: union of the results, right wins; the other two channels append. */
  function Merge(s: State, u: Update): State {
    s.(results := s.results + u.results, completed := s.completed + u.completed, errors := s.errors + u.errors)
  }

  function Land(s: State, us: seq<Update>): State
    decreases |us|
  {
    if us == [] then s else Land(Merge(s, us[0]), us[1..])
  }

  // ---------- where a run stands ----------

  function Runs(s: State, id: Id): nat {
    multiset(s.completed)[id]
  }

  predicate Transient(r: Result) {
    r.Failed? && r.retryable
  }

  predicate HasUnrecoverable(s: State) {
    exists k :: 0 <= k < |s.errors| && !s.errors[k].recoverable
  }

  function ToRetry(w: World, s: State): set<Id> {
    set id | id in s.results && Transient(s.results[id]) && Runs(s, id) <= w.maxRetries
  }

  /** Finished for good. */
  function Done(w: World, s: State): set<Id> {
    (set id | id in s.completed) - ToRetry(w, s)
  }

  function ReadyAmong(steps: seq<PlanStep>, done: set<Id>): seq<PlanStep> {
    if steps == [] then []
    else
      (if steps[0].id !in done && (forall d | d in steps[0].dependsOn :: d in done) then [steps[0]] else [])
      + ReadyAmong(steps[1..], done)
  }

  function Ready(w: World, s: State): seq<PlanStep> {
    ReadyAmong(s.steps, Done(w, s))
  }

  predicate AllDone(w: World, s: State) {
    |Done(w, s)| >= |s.steps|
  }

  // ---------- arguments ----------

  /** A step's arguments with every reference resolved, or why they cannot be had. */
  function Arguments(w: World, results: map<Id, Result>, step: PlanStep): Resolution<Value> {
    match Resolve(step.args, results, w.inputs)
    case Unresolved(why) => Unresolved(why)
    case Have(args) =>
      match w.refusal(step.capability, args)
      case None => Have(args)
      case Some(detail) => Unresolved(Refused(detail))
  }

  /** A step's arguments are had exactly when each of its references is, at any depth, and its op takes what they
      resolve to; otherwise the first reference that names nothing says why, or the op. */
  lemma ArgumentsExactlyWhen(w: World, results: map<Id, Result>, step: PlanStep)
    ensures var a, r := Arguments(w, results, step), Resolve(step.args, results, w.inputs);
            if EveryRefFetches(RefsIn(step.args), results, w.inputs) then
              && r.Have?
              && (a.Have? <==> w.refusal(step.capability, r.value).None?) && (a.Have? ==> a.value == r.value)
              && (a.Unresolved? ==> a.why == Refused(w.refusal(step.capability, r.value).value))
            else a.Unresolved? && FirstRefused(RefsIn(step.args), a.why, results, w.inputs)
  {
    ResolvesExactlyWhenItsReferencesDo(step.args, results, w.inputs);
    TheFirstReferenceSaysWhy(step.args, results, w.inputs);
  }

  /** The update of a step whose arguments cannot be had: it fails, recoverably, and is not retried. */
  function FailUpdate(step: PlanStep, why: Reason): Update {
    Update(map[step.id := Failed(why, false)], [step.id], [NodeError(step.capability, true)])
  }

  /** The update of the n-th run of a step: its own key, its id once, and an error if it failed. */
  function RunUpdate(w: World, capability: string, id: Id, n: nat, args: Value): Update {
    var o := w.run(id, n, args);
    Update(map[id := o.result], [id], if o.result.Ok? then [] else [NodeError(capability, o.recoverable)])
  }

  // ---------- dispatch ----------

  /** The ready steps whose arguments cannot be had. */
  function RefusedAmong(w: World, results: map<Id, Result>, ready: seq<PlanStep>): seq<PlanStep> {
    if ready == [] then []
    else
      (if Arguments(w, results, ready[0]).Unresolved? then [ready[0]] else [])
      + RefusedAmong(w, results, ready[1..])
  }

  function RefusedNow(w: World, s: State): seq<PlanStep> {
    RefusedAmong(w, s.results, Ready(w, s))
  }

  function WhyOf(r: Resolution<Value>): Reason {
    if r.Unresolved? then r.why else Refused("")
  }

  function FailUpdates(w: World, results: map<Id, Result>, refused: seq<PlanStep>): (us: seq<Update>)
    ensures |us| == |refused|
  {
    seq(|refused|, i requires 0 <= i < |refused| =>
      FailUpdate(refused[i], WhyOf(Arguments(w, results, refused[i]))))
  }

  /** One turn of the dispatch loop. */
  function FailRefused(w: World, s: State): State {
    Land(s, FailUpdates(w, s.results, RefusedNow(w, s)))
  }

  function Undone(w: World, s: State): nat {
    |StepIds(s.steps) - Done(w, s)|
  }

  /** The state `dispatch` leaves: ready steps that cannot run have failed, then their dependents made
      ready by it, until none is left. */
  function Dispatched(w: World, s: State): (d: State)
    ensures RefusedNow(w, d) == []
    ensures d.steps == s.steps
    decreases Undone(w, s)
  {
    if RefusedNow(w, s) == [] then s
    else
      TurnMakesProgress(w, s);
      Dispatched(w, FailRefused(w, s))
  }

  // ---------- route ----------

  /** What a branch is sent: the node it runs at, and the step's identity and arguments. */
  datatype Send = Send(node: string, id: Id, capability: string, args: Value)

  datatype Route = ExecutionError | MergeResults | Sends(wave: seq<Send>)

  function SendOf(w: World, s: State, step: PlanStep): Send {
    var a := Arguments(w, s.results, step);
    Send("cap_" + step.capability, step.id, step.capability, if a.Have? then a.value else Dict([]))
  }

  function RouteOf(w: World, s: State): Route {
    if HasUnrecoverable(s) then ExecutionError
    else if AllDone(w, s) then MergeResults
    else
      var ready := Ready(w, s);
      if ready == [] then ExecutionError
      else Sends(seq(|ready|, i requires 0 <= i < |ready| => SendOf(w, s, ready[i])))
  }

  /** The update a branch returns: its run is one more than the runs already counted. */
  function BranchUpdate(w: World, s: State, sent: Send): Update {
    RunUpdate(w, sent.capability, sent.id, Runs(s, sent.id) + 1, sent.args)
  }

  function BranchUpdates(w: World, s: State, arrivals: seq<Send>): (us: seq<Update>)
    ensures |us| == |arrivals|
  {
    seq(|arrivals|, i requires 0 <= i < |arrivals| => BranchUpdate(w, s, arrivals[i]))
  }

  /** One wave from `d`, its branches landing in the order `arrivals`. */
  function AfterWave(w: World, d: State, arrivals: seq<Send>): State {
    Land(d, BranchUpdates(w, d, arrivals))
  }

  /** `arrivals` is the wave that was sent, in some order. */
  ghost predicate Arrive(w: World, d: State, arrivals: seq<Send>) {
    RouteOf(w, d).Sends? && multiset(arrivals) == multiset(RouteOf(w, d).wave)
  }

  /** `landed` is as much of it as landed, in some order: a run may be stopped in the middle of a wave. */
  ghost predicate LandOf(w: World, d: State, landed: seq<Send>) {
    RouteOf(w, d).Sends? && multiset(landed) <= multiset(RouteOf(w, d).wave)
  }

  /** `sent` is the step's own: to its capability's node, under its id, with what its arguments resolve to. */
  ghost predicate Carries(w: World, d: State, sent: Send, step: PlanStep) {
    && sent.id == step.id && sent.capability == step.capability && sent.node == "cap_" + step.capability
    && Resolve(step.args, d.results, w.inputs) == Have(sent.args) && w.refusal(step.capability, sent.args).None?
  }

  /** A step may run: it is unfinished, and all it waits for is finished. */
  ghost predicate MayStart(w: World, d: State, step: PlanStep) {
    step.id !in Done(w, d) && forall x :: x in step.dependsOn ==> x in Done(w, d)
  }

  ghost predicate SentIn(wave: seq<Send>, id: Id) {
    exists i :: 0 <= i < |wave| && wave[i].id == id
  }

  /** The steps of the plan that may run, each sent once and as its own. */
  ghost predicate IsTheWave(w: World, d: State, wave: seq<Send>) {
    && wave != []
    && (forall i, j :: 0 <= i < j < |wave| ==> wave[i].id != wave[j].id)
    && (forall step :: step in d.steps ==> (SentIn(wave, step.id) <==> MayStart(w, d, step)))
    && forall i :: 0 <= i < |wave| ==> exists step :: step in d.steps && Carries(w, d, wave[i], step)
  }

  // ---------- what merging does ----------

  lemma {:induction false} LandConcat(s: State, us: seq<Update>, vs: seq<Update>)
    ensures Land(s, us + vs) == Land(Land(s, us), vs)
    decreases |us|
  {
    if us == [] {
      assert us + vs == vs;
    } else {
      assert (us + vs)[1..] == us[1..] + vs;
      LandConcat(Merge(s, us[0]), us[1..], vs);
    }
  }

  lemma {:induction false} ReadyAre(steps: seq<PlanStep>, done: set<Id>)
    ensures forall s :: s in ReadyAmong(steps, done) <==>
              s in steps && s.id !in done && forall d :: d in s.dependsOn ==> d in done
    ensures UniqueSteps(steps) ==> UniqueSteps(ReadyAmong(steps, done))
  {
    if steps != [] {
      assert steps == [steps[0]] + steps[1..];
      ReadyAre(steps[1..], done);
      var rest := ReadyAmong(steps[1..], done);
      if UniqueSteps(steps) {
        forall i | 0 <= i < |rest| ensures rest[i].id != steps[0].id {
          assert rest[i] in rest;
          var j :| 0 <= j < |steps[1..]| && steps[1..][j] == rest[i];
          assert steps[j + 1] == rest[i];
        }
      }
    }
  }

  lemma {:induction false} RefusedAre(w: World, results: map<Id, Result>, ready: seq<PlanStep>)
    ensures forall s :: s in RefusedAmong(w, results, ready) <==>
              s in ready && Arguments(w, results, s).Unresolved?
    ensures UniqueSteps(ready) ==> UniqueSteps(RefusedAmong(w, results, ready))
  {
    if ready != [] {
      assert ready == [ready[0]] + ready[1..];
      RefusedAre(w, results, ready[1..]);
      var rest := RefusedAmong(w, results, ready[1..]);
      if UniqueSteps(ready) {
        forall i | 0 <= i < |rest| ensures rest[i].id != ready[0].id {
          assert rest[i] in rest;
          var j :| 0 <= j < |ready[1..]| && ready[1..][j] == rest[i];
          assert ready[j + 1] == rest[i];
        }
      }
    }
  }

  ghost predicate IsFailure(u: Update, id: Id) {
    u.completed == [id] && u.results.Keys == {id} && u.results[id].Failed? && !u.results[id].retryable
  }

  lemma FailingFinishesOne(w: World, s: State, u: Update, id: Id)
    requires IsFailure(u, id)
    ensures Done(w, s) + {id} <= Done(w, Merge(s, u))
  {
  }

  /** Failing steps whose arguments cannot be had finishes them and unfinishes nothing. */
  lemma {:induction false} FailingFinishes(w: World, s: State, refused: seq<PlanStep>, us: seq<Update>)
    requires |us| == |refused|
    requires forall k :: 0 <= k < |us| ==> IsFailure(us[k], refused[k].id)
    ensures Land(s, us).steps == s.steps
    ensures Done(w, s) <= Done(w, Land(s, us))
    ensures forall k :: 0 <= k < |refused| ==> refused[k].id in Done(w, Land(s, us))
    decreases |us|
  {
    if us != [] {
      var s' := Merge(s, us[0]);
      FailingFinishesOne(w, s, us[0], refused[0].id);
      forall k | 0 <= k < |us[1..]| ensures IsFailure(us[1..][k], refused[1..][k].id) {
        assert us[1..][k] == us[k + 1] && refused[1..][k] == refused[k + 1];
      }
      FailingFinishes(w, s', refused[1..], us[1..]);
      forall k | 0 <= k < |refused| ensures refused[k].id in Done(w, Land(s', us[1..])) {
        if k > 0 { assert refused[k] == refused[1..][k - 1]; }
      }
    }
  }

  /** A step refused now is a step of the plan, ready, whose arguments cannot be had. */
  lemma RefusedIsReady(w: World, s: State, step: PlanStep)
    requires step in RefusedNow(w, s)
    ensures step in s.steps && step.id !in Done(w, s) && forall d :: d in step.dependsOn ==> d in Done(w, s)
    ensures Arguments(w, s.results, step).Unresolved?
  {
    ReadyAre(s.steps, Done(w, s));
    RefusedAre(w, s.results, Ready(w, s));
  }

  lemma LessLeft(ids: set<Id>, before: set<Id>, after: set<Id>, x: Id)
    requires before <= after && x in ids && x in after && x !in before
    ensures |ids - after| < |ids - before|
  {
    SubsetCount(ids - after, (ids - before) - {x});
  }

  lemma TurnMakesProgress(w: World, s: State)
    requires RefusedNow(w, s) != []
    ensures FailRefused(w, s).steps == s.steps
    ensures Undone(w, FailRefused(w, s)) < Undone(w, s)
  {
    var refused := RefusedNow(w, s);
    var us := FailUpdates(w, s.results, refused);
    FailingFinishes(w, s, refused, us);
    RefusedIsReady(w, s, refused[0]);
    var k :| 0 <= k < |s.steps| && s.steps[k] == refused[0];
    LessLeft(StepIds(s.steps), Done(w, s), Done(w, Land(s, us)), refused[0].id);
  }
}
