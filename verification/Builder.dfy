/** The whole graph as the builder wires it (jobsmith/dag/builder.py): every run reaches its end, by the
    four terminals and no other, with the refine cycle and the executor's waves both bounded. */
module Builder {
  import opened Options
  import opened Ir
  import Graphs
  import opened Plans
  import opened Executor
  import opened Sequential
  import opened Refinement
  import opened WaveRuns

  datatype Node =
    | ValidateInput | DocumentIntent | Triage | Planning | DirectAnswer | Dispatching
    | MergingResults | Generation | ValidateOutput | Refine | PostProcess | UnansweredNode
    | WriteDocument | ExecutionErrorNode | Escalate | UserErrorNode | End

  datatype Kind = Answer | Unanswered | UserError | Escalated

  /** The channels the routes read. `plan` is absent until the planner wrote one; the executor's own
      channels, the errors of every node among them, are in `exec`. */
  datatype Graph = Graph(
    at: Node,
    inputValid: bool,
    plan: Option<seq<PlanStep>>,
    exec: Executor.State,
    answered: bool,
    outputValid: bool,
    refineCount: nat,
    maxRefine: int,
    terminalKind: Option<Kind>,
    generations: nat)

  function Entry(maxRefine: int): Graph {
    Graph(ValidateInput, false, None, Start([]), true, false, 0, maxRefine, None, 0)
  }

  function FatalError(source: string): NodeError {
    NodeError(source, false)
  }

  function WithError(g: Graph, source: string): Graph {
    g.(exec := g.exec.(errors := g.exec.errors + [FatalError(source)]))
  }

  // ---------- the conditional edges ----------

  predicate Fatal(g: Graph) {
    HasUnrecoverable(g.exec)
  }

  function RouteValidateInput(g: Graph): Node {
    if g.inputValid then DocumentIntent else UserErrorNode
  }

  function RouteAfterPlanner(g: Graph): Node {
    if g.plan.None? || Fatal(g) then ExecutionErrorNode
    else if g.plan.value == [] then DirectAnswer
    else Node.Dispatching
  }

  function RouteValidateOutput(g: Graph): Node {
    if Fatal(g) then ExecutionErrorNode
    else if !g.answered then UnansweredNode
    else if g.outputValid then PostProcess
    else if g.refineCount >= g.maxRefine then ExecutionErrorNode
    else Refine
  }

  predicate HasPartial(g: Graph) {
    exists id :: id in g.exec.results && g.exec.results[id].Ok?
  }

  function RouteExecutionError(g: Graph): Node {
    if HasPartial(g) then Escalate else UserErrorNode
  }

  // ---------- the nodes ----------

  /** One step of the graph: a node runs, to whatever it may come to, and its edge is taken. */
  ghost predicate Next(w: World, g: Graph, h: Graph) {
    match g.at
    case ValidateInput =>
      exists valid :: var k := g.(inputValid := valid); h == k.(at := RouteValidateInput(k))
    case DocumentIntent => h == g.(at := Triage)
    case Triage => h == g.(at := Planning) || h == g.(at := DirectAnswer)
    case Planning => PlannerNext(g, h)
    case DirectAnswer => h == g.(at := ValidateOutput) || h == WithError(g, "direct_answer").(at := ValidateOutput)
    case Dispatching => DispatchNext(w, g, h)
    case MergingResults => h == g.(at := Generation)
    case Generation =>
      var k := g.(at := ValidateOutput, generations := g.generations + 1);
      h == WithError(k, "generation") || exists answered :: h == k.(answered := answered)
    case ValidateOutput =>
      exists valid :: var k := g.(outputValid := valid); h == k.(at := RouteValidateOutput(k))
    case Refine =>
      h == g.(at := Generation, refineCount := g.refineCount + 1) || h == WithError(g, "refine").(at := Generation)
    case PostProcess => h == g.(at := WriteDocument, terminalKind := Some(Answer))
    case UnansweredNode => h == g.(at := WriteDocument, terminalKind := Some(Unanswered))
    case WriteDocument => h == g.(at := End)
    case ExecutionErrorNode => h == g.(at := RouteExecutionError(g))
    case Escalate => h == g.(at := End, terminalKind := Some(Escalated))
    case UserErrorNode => h == g.(at := End, terminalKind := Some(UserError))
    case End => h == g
  }

  ghost predicate PlannerNext(g: Graph, h: Graph) {
    || (var k := WithError(g, "planner"); h == k.(at := RouteAfterPlanner(k)))
    || exists steps :: ValidSteps(steps) &&
         (var k := g.(plan := Some(steps), exec := g.exec.(steps := steps)); h == k.(at := RouteAfterPlanner(k)))
  }

  /** Dispatch, then where `route` says: a wave comes back to dispatch, in any arrival order. */
  ghost predicate DispatchNext(w: World, g: Graph, h: Graph) {
    var d := Dispatched(w, g.exec);
    match RouteOf(w, d)
    case ExecutionError => h == g.(at := ExecutionErrorNode, exec := d)
    case MergeResults => h == g.(at := MergingResults, exec := d)
    case Sends(_) => exists arrivals :: Arrive(w, d, arrivals) && h == g.(exec := AfterWave(w, d, arrivals))
  }

  // ---------- what every reachable state keeps ----------

  function Cap(g: Graph): nat {
    if g.maxRefine > 0 then g.maxRefine else 0
  }

  ghost predicate GoodExec(w: World, g: Graph) {
    ValidSteps(g.exec.steps) && exists final :: Good(w, final, g.exec)
  }

  /** Once past the executor with a plan, the results are final: those of the sequential evaluator. */
  ghost predicate Evaluated(w: World, g: Graph) {
    forall order :: Runnable(g.exec.steps, order) ==>
      InPlan(g.exec.steps, order) && g.exec.results == Evaluate(w, g.exec.steps, order)
  }

  ghost predicate Fresh(g: Graph) {
    g.plan.None? && g.exec == Start([]) && g.generations == 0 && g.refineCount == 0 && g.answered
  }

  ghost predicate PlanRan(w: World, g: Graph) {
    g.plan.Some? && g.plan.value != [] ==> g.exec.steps == g.plan.value && Evaluated(w, g)
  }

  ghost predicate KeptSoFar(w: World, g: Graph) {
    Admitted(g) && KeptAt(w, g)
  }

  /** Past its validation, a request is valid, or on its way to be told that it is not. */
  predicate Admitted(g: Graph) {
    g.at in {ValidateInput, UserErrorNode, End} || g.inputValid
  }

  ghost predicate KeptAt(w: World, g: Graph) {
    match g.at
    case ValidateInput | DocumentIntent | Triage | Planning => Fresh(g) && g.terminalKind.None?
    case DirectAnswer =>
      !Fatal(g) && g.generations == 0 && g.refineCount == 0 && g.answered && g.terminalKind.None?
      && (g.plan.Some? ==> g.plan.value == [])
    case Dispatching =>
      g.exec.steps != [] && GoodExec(w, g) && g.generations == 0 && g.refineCount == 0 && g.answered && g.terminalKind.None?
      && g.plan == Some(g.exec.steps)
    case MergingResults =>
      !Fatal(g) && PlanRan(w, g) && g.generations == 0 && g.refineCount == 0 && g.answered && g.terminalKind.None?
    case Generation =>
      PlanRan(w, g) && g.refineCount <= Cap(g) && g.answered && g.terminalKind.None?
      && (if Fatal(g) then g.generations <= g.refineCount + 1 <= Cap(g) else g.generations <= g.refineCount)
    case ValidateOutput =>
      PlanRan(w, g) && g.refineCount <= Cap(g) && g.generations <= Cap(g) + 1 && g.terminalKind.None?
      && (!Fatal(g) ==> g.generations <= g.refineCount + 1)
    case Refine =>
      PlanRan(w, g) && !Fatal(g) && g.answered && g.refineCount < g.maxRefine
      && g.generations <= g.refineCount + 1 && g.terminalKind.None?
    case PostProcess =>
      PlanRan(w, g) && !Fatal(g) && g.answered && g.outputValid && g.generations <= Cap(g) + 1 && g.terminalKind.None?
    case UnansweredNode =>
      PlanRan(w, g) && !Fatal(g) && !g.answered && g.generations <= Cap(g) + 1 && g.terminalKind.None?
    case WriteDocument => g.generations <= Cap(g) + 1 && g.terminalKind.Some? && Ended(w, g)
                          && (g.terminalKind.value.Answer? || g.terminalKind.value.Unanswered?)
    case ExecutionErrorNode => g.generations <= Cap(g) + 1 && g.terminalKind.None? && WentWrong(g)
    case Escalate => g.generations <= Cap(g) + 1 && WentWrong(g) && HasPartial(g)
    case UserErrorNode => g.generations <= Cap(g) + 1 && (!g.inputValid || (WentWrong(g) && !HasPartial(g)))
    case End => g.generations <= Cap(g) + 1 && g.terminalKind.Some? && Ended(w, g)
  }

  /** Something failed beyond recovery, or no draft was good enough within the refine budget. */
  ghost predicate WentWrong(g: Graph) {
    Fatal(g) || (g.answered && !g.outputValid && g.refineCount >= g.maxRefine)
  }

  /** What each ending says of the run. */
  ghost predicate Ended(w: World, g: Graph) {
    match g.terminalKind
    case None => false
    case Some(Answer) => g.inputValid && PlanRan(w, g) && !Fatal(g) && g.answered && g.outputValid
    case Some(Unanswered) => g.inputValid && PlanRan(w, g) && !Fatal(g) && !g.answered
    case Some(Escalated) => g.inputValid && WentWrong(g) && HasPartial(g)
    case Some(UserError) => !g.inputValid || (WentWrong(g) && !HasPartial(g))
  }

  // ---------- the measure ----------

  function Phase(g: Graph): nat {
    match g.at
    case ValidateInput => 9
    case DocumentIntent => 8
    case Triage => 7
    case Planning => 6
    case Dispatching => 5
    case MergingResults | DirectAnswer => 4
    case Generation | ValidateOutput | Refine => 3
    case ExecutionErrorNode | PostProcess | UnansweredNode => 2
    case Escalate | UserErrorNode | WriteDocument => 1
    case End => 0
  }

  /** What is left within a phase: the executor's tries, or the rounds of the refine cycle. */
  ghost function Amount(w: World, g: Graph): nat {
    var left := if g.refineCount <= Cap(g) then Cap(g) - g.refineCount else 0;
    match g.at
    case Dispatching => Budget(w, g.exec, g.exec.steps)
    case Generation => if Fatal(g) then 2 else 3 * left + 5
    case ValidateOutput => if Fatal(g) then 1 else 3 * left + 4
    case Refine => 3 * left + 3
    case _ => 0
  }

  ghost predicate Nearer(w: World, h: Graph, g: Graph) {
    Phase(h) < Phase(g) || (Phase(h) == Phase(g) && Amount(w, h) < Amount(w, g))
  }

  ghost predicate Advances(w: World, g: Graph, h: Graph) {
    KeptSoFar(w, h) && (g.at != End ==> Nearer(w, h, g))
  }

  // ---------- one step ----------

  lemma EntryIsKept(w: World, maxRefine: int)
    ensures KeptSoFar(w, Entry(maxRefine))
  {
  }

  lemma ErrorIsFatal(g: Graph, source: string)
    ensures Fatal(WithError(g, source))
  {
    var errors := WithError(g, source).exec.errors;
    assert !errors[|errors| - 1].recoverable;
  }

  lemma PlannedIsGood(w: World, g: Graph, steps: seq<PlanStep>)
    requires Fresh(g) && ValidSteps(steps)
    ensures GoodExec(w, g.(plan := Some(steps), exec := g.exec.(steps := steps))) && !Fatal(g)
  {
    var order :| Graphs.Topological(Rows(steps), order);
    TopologicalIsRunnable(steps, order);
    EvaluateIsFinal(w, steps, order);
    GoodStart(w, Evaluate(w, steps, order), steps);
    assert g.exec.(steps := steps) == Start(steps);
  }

  lemma PlannerKeeps(w: World, g: Graph, h: Graph)
    requires g.at == Planning && KeptSoFar(w, g) && PlannerNext(g, h)
    ensures Advances(w, g, h)
  {
    ErrorIsFatal(g, "planner");
    if h != WithError(g, "planner").(at := RouteAfterPlanner(WithError(g, "planner"))) {
      var steps :| ValidSteps(steps) &&
        (var k := g.(plan := Some(steps), exec := g.exec.(steps := steps)); h == k.(at := RouteAfterPlanner(k)));
      PlannedIsGood(w, g, steps);
    }
  }

  /** Any set of results that satisfies every step's own equation, of a finished run, is the evaluator's. */
  lemma MergedIsEvaluated(w: World, final: map<Id, Result>, d: Executor.State, order: seq<Id>)
    requires Good(w, final, d) && Done(w, d) == StepIds(d.steps) && Runnable(d.steps, order)
    ensures InPlan(d.steps, order) && d.results == Evaluate(w, d.steps, order)
  {
    EvaluateIsFinal(w, d.steps, order);
    FinalIsUnique(w, d.steps, order, final, Evaluate(w, d.steps, order), |order|);
    AllDoneIsFinal(w, final, d);
    forall x | x in StepIds(d.steps) ensures final[x] == Evaluate(w, d.steps, order)[x] {
      assert x in order;
      var i :| 0 <= i < |order| && order[i] == x;
    }
    assert d.results.Keys == Evaluate(w, d.steps, order).Keys;
  }

  lemma {:induction false} FinalIsUnique(
      w: World, steps: seq<PlanStep>, order: seq<Id>, a: map<Id, Result>, b: map<Id, Result>, n: nat)
    requires UniqueSteps(steps) && Linked(steps) && Runnable(steps, order) && n <= |order|
    requires Final(w, steps, a) && Final(w, steps, b)
    ensures forall i :: 0 <= i < n ==> order[i] in a && order[i] in b && a[order[i]] == b[order[i]]
  {
    if n > 0 {
      FinalIsUnique(w, steps, order, a, b, n - 1);
      assert AfterItsDeps(steps, order, n - 1);
      UniqueNext(w, steps, order, a, b, n - 1);
    }
  }

  lemma UniqueNext(w: World, steps: seq<PlanStep>, order: seq<Id>, a: map<Id, Result>, b: map<Id, Result>, n: nat)
    requires Linked(steps) && n < |order| && AfterItsDeps(steps, order, n)
    requires Final(w, steps, a) && Final(w, steps, b)
    requires forall i :: 0 <= i < n ==> order[i] in a && order[i] in b && a[order[i]] == b[order[i]]
    ensures order[n] in a && order[n] in b && a[order[n]] == b[order[n]]
  {
    var id := order[n];
    forall d | d in StepOf(steps, id).dependsOn ensures Handed(a, d) == Handed(b, d) {
      var i :| 0 <= i < n && order[i] == d;
    }
    ReadsAlike(w, steps, id, a, b);
    assert FinalAt(w, steps, a, id) && FinalAt(w, steps, b, id);
  }

  /** A wave lands, and the run is back at dispatch. */
  lemma WaveAdvances(w: World, final: map<Id, Result>, g: Graph, arrivals: seq<Send>)
    requires g.at == Node.Dispatching && KeptSoFar(w, g) && Good(w, final, g.exec)
    requires Arrive(w, Dispatched(w, g.exec), arrivals)
    ensures Advances(w, g, g.(exec := AfterWave(w, Dispatched(w, g.exec), arrivals)))
  {
    GoodStep(w, final, g.exec, arrivals);
  }

  /** Where every step is done, the run leaves for the merge with the evaluator's results. */
  lemma MergeAdvances(w: World, final: map<Id, Result>, g: Graph)
    requires g.at == Node.Dispatching && KeptSoFar(w, g) && Good(w, final, g.exec)
    requires RouteOf(w, Dispatched(w, g.exec)).MergeResults?
    ensures Advances(w, g, g.(at := MergingResults, exec := Dispatched(w, g.exec)))
  {
    MergedIsFinal(w, final, g);
    LeavesForTheMerge(w, g, g.(at := MergingResults, exec := Dispatched(w, g.exec)));
  }

  lemma MergedIsFinal(w: World, final: map<Id, Result>, g: Graph)
    requires Good(w, final, g.exec) && RouteOf(w, Dispatched(w, g.exec)).MergeResults?
    ensures Evaluated(w, g.(exec := Dispatched(w, g.exec))) && !HasUnrecoverable(Dispatched(w, g.exec))
  {
    var d := Dispatched(w, g.exec);
    GoodDispatched(w, final, g.exec);
    AllDoneIsExact(w, final, d);
    forall o | Runnable(d.steps, o) ensures InPlan(d.steps, o) && d.results == Evaluate(w, d.steps, o) {
      MergedIsEvaluated(w, final, d, o);
    }
  }

  lemma LeavesForTheMerge(w: World, g: Graph, h: Graph)
    requires g.at == Node.Dispatching && KeptSoFar(w, g) && h == g.(at := MergingResults, exec := h.exec)
    requires h.exec.steps == g.exec.steps && Evaluated(w, h) && !Fatal(h)
    ensures Advances(w, g, h)
  {
  }

  lemma LeavesForTheError(w: World, g: Graph, h: Graph)
    requires g.at == Node.Dispatching && KeptSoFar(w, g) && h == g.(at := ExecutionErrorNode, exec := h.exec)
    requires Fatal(h)
    ensures Advances(w, g, h)
  {
  }

  /** It leaves for the error only after a failure beyond recovery: it is never stuck. */
  lemma ErrorAdvances(w: World, final: map<Id, Result>, g: Graph, order: seq<Id>)
    requires g.at == Node.Dispatching && KeptSoFar(w, g) && Good(w, final, g.exec) && Runnable(g.exec.steps, order)
    requires RouteOf(w, Dispatched(w, g.exec)).ExecutionError?
    ensures Advances(w, g, g.(at := ExecutionErrorNode, exec := Dispatched(w, g.exec)))
  {
    ErrorIsBeyond(w, final, g.exec, order);
    LeavesForTheError(w, g, g.(at := ExecutionErrorNode, exec := Dispatched(w, g.exec)));
  }

  lemma ErrorIsBeyond(w: World, final: map<Id, Result>, s: Executor.State, order: seq<Id>)
    requires Good(w, final, s) && Runnable(s.steps, order) && RouteOf(w, Dispatched(w, s)).ExecutionError?
    ensures HasUnrecoverable(Dispatched(w, s))
  {
    var d := Dispatched(w, s);
    GoodDispatched(w, final, s);
    if !AllDone(w, d) { NoDeadlock(w, final, d, order); }
  }

  lemma DispatchKeeps(w: World, g: Graph, h: Graph)
    requires g.at == Node.Dispatching && KeptSoFar(w, g) && DispatchNext(w, g, h)
    ensures Advances(w, g, h)
  {
    var final :| Good(w, final, g.exec);
    var order :| Graphs.Topological(Rows(g.exec.steps), order);
    TopologicalIsRunnable(g.exec.steps, order);
    var d := Dispatched(w, g.exec);
    match RouteOf(w, d) {
      case ExecutionError =>
        ErrorAdvances(w, final, g, order);
      case MergeResults =>
        MergeAdvances(w, final, g);
      case Sends(_) =>
        var arrivals :| Arrive(w, d, arrivals) && h == g.(exec := AfterWave(w, d, arrivals));
        WaveAdvances(w, final, g, arrivals);
    }
  }

  lemma SamePlanRan(w: World, g: Graph, h: Graph)
    requires PlanRan(w, g) && h.plan == g.plan
    requires h.exec.steps == g.exec.steps && h.exec.results == g.exec.results
    ensures PlanRan(w, h)
  {
  }

  predicate BeforeTheLoop(at: Node) {
    at in {ValidateInput, DocumentIntent, Triage, DirectAnswer}
  }

  lemma FrontKeeps(w: World, g: Graph, h: Graph)
    requires BeforeTheLoop(g.at) && KeptSoFar(w, g) && Next(w, g, h)
    ensures Advances(w, g, h)
  {
    if g.at == DirectAnswer { ErrorIsFatal(g, "direct_answer"); }
  }

  lemma GenerationKeeps(w: World, g: Graph, h: Graph)
    requires g.at in {MergingResults, Generation} && KeptSoFar(w, g) && Next(w, g, h)
    ensures Advances(w, g, h)
  {
    SamePlanRan(w, g, h);
    ErrorIsFatal(g.(at := ValidateOutput, generations := g.generations + 1), "generation");
  }

  lemma RefiningKeeps(w: World, g: Graph, h: Graph)
    requires g.at == Refine && KeptSoFar(w, g) && Next(w, g, h)
    ensures Advances(w, g, h)
  {
    SamePlanRan(w, g, h);
    ErrorIsFatal(g, "refine");
  }

  lemma ValidationKeeps(w: World, g: Graph, h: Graph)
    requires g.at == ValidateOutput && KeptSoFar(w, g) && Next(w, g, h)
    ensures Advances(w, g, h)
  {
  }

  lemma EndingKeeps(w: World, g: Graph, h: Graph)
    requires g.at in {PostProcess, UnansweredNode, WriteDocument, ExecutionErrorNode, Escalate, UserErrorNode, End}
    requires KeptSoFar(w, g) && Next(w, g, h)
    ensures Advances(w, g, h)
  {
    if g.at in {PostProcess, UnansweredNode, WriteDocument, End} && g.at != End && !g.terminalKind.Some? {
      SamePlanRan(w, g, h);
    }
  }

  /** Every step keeps what is known of the run so far, and brings the end nearer. */
  lemma NextKeeps(w: World, g: Graph, h: Graph)
    requires KeptSoFar(w, g) && Next(w, g, h)
    ensures Advances(w, g, h)
  {
    match g.at {
      case ValidateInput | DocumentIntent | Triage | DirectAnswer => FrontKeeps(w, g, h);
      case Planning => PlannerKeeps(w, g, h);
      case Dispatching => DispatchKeeps(w, g, h);
      case MergingResults | Generation => GenerationKeeps(w, g, h);
      case Refine => RefiningKeeps(w, g, h);
      case ValidateOutput => ValidationKeeps(w, g, h);
      case _ => EndingKeeps(w, g, h);
    }
  }

  // ---------- the theorems ----------

  /** A run of the graph: its states, one step apart; once ended it stays there. */
  ghost predicate IsGraphRun(w: World, maxRefine: int, f: nat -> Graph) {
    f(0) == Entry(maxRefine) && forall i: nat {:trigger StepAt(w, f, i)} :: StepAt(w, f, i)
  }

  ghost predicate StepAt(w: World, f: nat -> Graph, i: nat) {
    Next(w, f(i), f(i + 1))
  }

  lemma {:induction false} RunKeeps(w: World, maxRefine: int, f: nat -> Graph, n: nat)
    requires IsGraphRun(w, maxRefine, f)
    ensures KeptSoFar(w, f(n))
  {
    if n == 0 {
      EntryIsKept(w, maxRefine);
    } else {
      RunKeeps(w, maxRefine, f, n - 1);
      assert StepAt(w, f, n - 1);
      NextKeeps(w, f(n - 1), f(n));
    }
  }

  lemma {:induction false} EndIsReachedFrom(w: World, maxRefine: int, f: nat -> Graph, n: nat) returns (end: nat)
    requires IsGraphRun(w, maxRefine, f)
    ensures f(end).at == End
    decreases Phase(f(n)), Amount(w, f(n))
  {
    if f(n).at == End {
      end := n;
    } else {
      RunKeeps(w, maxRefine, f, n);
      assert StepAt(w, f, n);
      NextKeeps(w, f(n), f(n + 1));
      end := EndIsReachedFrom(w, maxRefine, f, n + 1);
    }
  }

  /** An ending says what happened, in terms of the channels alone. */
  ghost predicate SaysWhatHappened(w: World, g: Graph) {
    var beyond := exists k :: 0 <= k < |g.exec.errors| && !g.exec.errors[k].recoverable;
    var wrong := beyond || (g.answered && !g.outputValid && g.refineCount >= g.maxRefine);
    var partial := exists id :: id in g.exec.results && g.exec.results[id].Ok?;
    var final := g.plan.Some? && g.plan.value != [] ==>
                   forall order :: Runnable(g.plan.value, order) ==>
                     InPlan(g.plan.value, order) && g.exec.results == Evaluate(w, g.plan.value, order);
    match g.terminalKind
    case None => false
    case Some(Answer) => g.inputValid && final && !beyond && g.answered && g.outputValid
    case Some(Unanswered) => g.inputValid && final && !beyond && !g.answered
    case Some(Escalated) => g.inputValid && wrong && partial
    case Some(UserError) => !g.inputValid || (wrong && !partial)
  }

  lemma EndedSays(w: World, g: Graph)
    requires Ended(w, g)
    ensures SaysWhatHappened(w, g)
  {
  }

  /** Every run ends. Generation has then run at most once more than the refine budget, and the ending
      is exactly one of four, each of which says what happened: an answer has no fatal error, a valid
      draft and, when there was a plan, exactly the evaluator's results; the errors mean that something
      went wrong, escalated when there is a partial result to hand over. A plan with no step is never dispatched. */
  lemma EveryRunEnds(w: World, maxRefine: int, f: nat -> Graph) returns (end: nat)
    requires IsGraphRun(w, maxRefine, f)
    ensures f(end).at == End && f(end).terminalKind.Some? && SaysWhatHappened(w, f(end))
    ensures forall n: nat :: f(n).at == Node.Dispatching ==> f(n).exec.steps != []
    ensures f(end).generations <= Cap(f(end)) + 1
  {
    end := EndIsReachedFrom(w, maxRefine, f, 0);
    RunKeeps(w, maxRefine, f, end);
    EndedSays(w, f(end));
    forall n: nat | f(n).at == Node.Dispatching ensures f(n).exec.steps != [] {
      RunKeeps(w, maxRefine, f, n);
    }
  }

  /** The document is written only by a run that answered, or that declared it could not. */
  lemma DocumentsAreOfDeliveredRuns(w: World, maxRefine: int, f: nat -> Graph, n: nat)
    requires IsGraphRun(w, maxRefine, f) && f(n).at == WriteDocument
    ensures f(n).terminalKind == Some(Answer) || f(n).terminalKind == Some(Unanswered)
    ensures !Fatal(f(n)) && PlanRan(w, f(n))
  {
    RunKeeps(w, maxRefine, f, n);
  }

  // ---------- the wiring ----------

  /** The edges of the graph as it is built; the executor's branches come back to its dispatch. */
  predicate Wired(a: Node, b: Node) {
    match a
    case ValidateInput => b in {DocumentIntent, UserErrorNode}
    case DocumentIntent => b == Triage
    case Triage => b in {Planning, DirectAnswer}
    case DirectAnswer => b == ValidateOutput
    case Planning => b in {Node.Dispatching, DirectAnswer, ExecutionErrorNode}
    case Dispatching => b in {MergingResults, ExecutionErrorNode, Node.Dispatching}
    case MergingResults => b == Generation
    case Generation => b == ValidateOutput
    case ValidateOutput => b in {PostProcess, UnansweredNode, Refine, ExecutionErrorNode}
    case Refine => b == Generation
    case PostProcess => b == WriteDocument
    case UnansweredNode => b == WriteDocument
    case WriteDocument => b == End
    case ExecutionErrorNode => b in {Escalate, UserErrorNode}
    case Escalate => b == End
    case UserErrorNode => b == End
    case End => b == End
  }

  /** A run goes along the edges of the graph. */
  lemma RunsAlongTheEdges(w: World, g: Graph, h: Graph)
    requires Next(w, g, h)
    ensures Wired(g.at, h.at)
  {
    if g.at in {Planning, Node.Dispatching} {
      TheExecutorsEdges(w, g, h);
    } else if g.at == ValidateInput {
      var valid :| var k := g.(inputValid := valid); h == k.(at := RouteValidateInput(k));
    } else if g.at == ValidateOutput {
      var valid :| var k := g.(outputValid := valid); h == k.(at := RouteValidateOutput(k));
    }
  }

  lemma TheExecutorsEdges(w: World, g: Graph, h: Graph)
    requires g.at in {Planning, Node.Dispatching} && Next(w, g, h)
    ensures Wired(g.at, h.at)
  {
  }

  /** A model's node may fail beyond recovery, and may not; generation may declare that it cannot answer. */
  lemma AModelMayFail(w: World, g: Graph, fails: bool, answered: bool) returns (h: Graph)
    requires g.at in {Planning, DirectAnswer, Generation, Refine}
    ensures Next(w, g, h) && (fails ==> Fatal(h)) && (!fails ==> h.exec.errors == g.exec.errors)
    ensures g.at == Generation && !fails ==> h.answered == answered
  {
    if g.at == Planning {
      ErrorIsFatal(g, "planner");
      var planned := g.(plan := Some([]), exec := g.exec.(steps := []));
      NoStepsAreValid();
      var failed := WithError(g, "planner");
      h := if fails then failed.(at := RouteAfterPlanner(failed)) else planned.(at := RouteAfterPlanner(planned));
    } else if g.at == DirectAnswer {
      ErrorIsFatal(g, "direct_answer");
      h := (if fails then WithError(g, "direct_answer") else g).(at := ValidateOutput);
    } else if g.at == Generation {
      var k := g.(at := ValidateOutput, generations := g.generations + 1);
      ErrorIsFatal(k, "generation");
      h := if fails then WithError(k, "generation") else k.(answered := answered);
    } else {
      ErrorIsFatal(g, "refine");
      h := if fails then WithError(g, "refine").(at := Generation) else g.(at := Generation, refineCount := g.refineCount + 1);
    }
  }

  lemma NoStepsAreValid()
    ensures ValidSteps([])
  {
    var none: seq<Id> := [];
    assert Graphs.Topological(Rows([]), none);
  }

  /** An input and a draft may be valid or not, and triage may go either way. */
  lemma AChoiceIsOpen(w: World, g: Graph, either: bool) returns (h: Graph)
    requires g.at in {ValidateInput, Triage, ValidateOutput}
    ensures Next(w, g, h)
    ensures g.at == ValidateInput ==> h.inputValid == either && h.at == (if either then DocumentIntent else UserErrorNode)
    ensures g.at == Triage ==> h.at == (if either then Planning else DirectAnswer)
    ensures g.at == ValidateOutput ==> h.outputValid == either
  {
    if g.at == ValidateInput {
      var k := g.(inputValid := either);
      h := k.(at := RouteValidateInput(k));
    } else if g.at == Triage {
      h := g.(at := if either then Planning else DirectAnswer);
    } else {
      var k := g.(outputValid := either);
      h := k.(at := RouteValidateOutput(k));
    }
  }

  /** No node is a dead end. */
  lemma SomethingFollows(w: World, g: Graph) returns (h: Graph)
    ensures Next(w, g, h)
  {
    match g.at {
      case ValidateInput =>
        var k := g.(inputValid := true);
        h := k.(at := RouteValidateInput(k));
      case DocumentIntent => h := g.(at := Triage);
      case Triage => h := g.(at := Planning);
      case Planning =>
        var k := WithError(g, "planner");
        h := k.(at := RouteAfterPlanner(k));
      case DirectAnswer => h := g.(at := ValidateOutput);
      case Dispatching =>
        var d := Dispatched(w, g.exec);
        match RouteOf(w, d) {
          case ExecutionError => h := g.(at := ExecutionErrorNode, exec := d);
          case MergeResults => h := g.(at := MergingResults, exec := d);
          case Sends(wave) =>
            assert Arrive(w, d, wave);
            h := g.(exec := AfterWave(w, d, wave));
        }
      case MergingResults => h := g.(at := Generation);
      case Generation => h := WithError(g.(at := ValidateOutput, generations := g.generations + 1), "generation");
      case ValidateOutput =>
        var k := g.(outputValid := true);
        h := k.(at := RouteValidateOutput(k));
      case Refine => h := g.(at := Generation, refineCount := g.refineCount + 1);
      case PostProcess => h := g.(at := WriteDocument, terminalKind := Some(Answer));
      case UnansweredNode => h := g.(at := WriteDocument, terminalKind := Some(Unanswered));
      case WriteDocument => h := g.(at := End);
      case ExecutionErrorNode => h := g.(at := RouteExecutionError(g));
      case Escalate => h := g.(at := End, terminalKind := Some(Escalated));
      case UserErrorNode => h := g.(at := End, terminalKind := Some(UserError));
      case End => h := g;
    }
  }
}
