/** One job's record over all sequences of use cases (jobsmith/engine/manager.py): how a run is concluded,
    failed, resumed, relaunched and delivered. */
module Lifecycle {
  import opened Options
  import opened Jobs

  datatype Kind = Raised | Interrupted | Declared | NoResult | Unreadable

  datatype Failure = Failure(kind: Kind, pending: seq<string>, retryable: bool)

  /** A value a run gives back; only JSON goes into a record, and a repr always is. */
  datatype Value = Json(text: string) | NotJson(repr: string)

  datatype Record = Record(status: Status, error: Option<string>, failure: Option<Failure>, result: Option<Value>,
                           asked: seq<Value>, attempt: nat, delivered: bool)

  /** Where the job's ending goes. */
  datatype Address = Nobody | Pulled | Pushed

  /** What the graph's `result` makes of what the run returned. */
  datatype Reading = Reads(value: Value) | SaysFailed(reason: string, result: Value) | Breaks(repr: string)

  function Or(text: string, otherwise: string): string {
    if text != "" then text else otherwise
  }

  // ---------- the engine's own steps, on the record ----------

  function FailedAs(r: Record, kind: Kind, error: string, pending: seq<string>): Record {
    r.(status := Failed, error := Some(error), failure := Some(Failure(kind, pending, pending != [])))
  }

  function IfJson(v: Value): Option<Value> {
    if v.Json? then Some(v) else None
  }

  function Readable(asked: seq<Value>): (r: seq<Value>)
    ensures |r| == |asked| && forall v :: v in r ==> v.Json?
    ensures (forall v :: v in asked ==> v.Json?) ==> r == asked
  {
    if forall v :: v in asked ==> v.Json? then asked
    else seq(|asked|, i requires 0 <= i < |asked| => Json(if asked[i].Json? then asked[i].text else asked[i].repr))
  }

  function Concluded(r: Record, returned: Option<Reading>, asked: Option<seq<Value>>): Record {
    if asked.Some? then r.(status := NeedsInput, asked := Readable(asked.value))
    else
      match returned
      case None => FailedAs(r, NoResult, "the run ended without returning", [])
      case Some(SaysFailed(reason, result)) =>
        FailedAs(r, Declared, Or(reason, "the run declared it failed"), []).(result := IfJson(result))
      case Some(Breaks(repr)) => FailedAs(r, Unreadable, "its result could not be read: " + repr, [])
      case Some(Reads(value)) =>
        if value.Json? then r.(status := Done, result := Some(value))
        else FailedAs(r, Unreadable, "its result is not JSON", [])
  }

  /** An ending nobody waits for is delivered as it is persisted, unless the job is being amended. */
  function Persisted(r: Record, to: Address, amending: bool): Record {
    if Settled(r.status) && !r.delivered && !amending && to == Nobody then r.(delivered := true) else r
  }

  function Reopened(r: Record): Record {
    Record(Running, None, None, None, [], r.attempt + 1, false)
  }

  /** A job as the engine holds it while it works on it. */
  class Job {
    var status: Status
    var error: Option<string>
    var failure: Option<Failure>
    var result: Option<Value>
    var asked: seq<Value>
    var attempt: nat
    var delivered: bool

    function Now(): Record
      reads this
    {
      Record(status, error, failure, result, asked, attempt, delivered)
    }

    constructor ()
      ensures Now() == Record(Queued, None, None, None, [], 1, false)
    {
      status, error, failure, result, asked, attempt, delivered := Queued, None, None, None, [], 1, false;
    }

    method Fail(kind: Kind, why: string, pending: seq<string>)
      modifies this
      ensures Now() == FailedAs(old(Now()), kind, why, pending)
      ensures status == Failed && error == Some(why) && failure.Some?
      ensures failure.value.kind == kind && (failure.value.retryable <==> pending != [])
      ensures result == old(result) && asked == old(asked) && attempt == old(attempt) && delivered == old(delivered)
    {
      status, error := Failed, Some(why);
      failure := Some(Failure(kind, pending, |pending| > 0));
    }

    method Conclude(returned: Option<Reading>, questions: Option<seq<Value>>)
      modifies this
      ensures Now() == Concluded(old(Now()), returned, questions)
      ensures status == NeedsInput <==> questions.Some?
      ensures status == Done <==> questions.None? && returned.Some? && returned.value.Reads? && returned.value.value.Json?
      ensures status == NeedsInput || status == Done || status == Failed
      ensures status == Done ==> result == Some(returned.value.value) && error == old(error)
      ensures status == Failed ==> error.Some? && |error.value| > 0 && failure.Some? && !failure.value.retryable
      ensures status == NeedsInput ==> result == old(result) && error == old(error) && forall v :: v in asked ==> v.Json?
      ensures old(result.None? || result.value.Json?) ==> result.None? || result.value.Json?
      ensures attempt == old(attempt) && delivered == old(delivered)
    {
      if questions.Some? {
        status := NeedsInput;
        asked := Readable(questions.value);
        return;
      }
      match returned {
        case None => Fail(NoResult, "the run ended without returning", []);
        case Some(SaysFailed(reason, value)) =>
          Fail(Declared, Or(reason, "the run declared it failed"), []);
          result := if value.Json? then Some(value) else None;
        case Some(Breaks(repr)) =>
          var why := "its result could not be read: " + repr;
          assert |why| > 0;
          Fail(Unreadable, why, []);
        case Some(Reads(value)) =>
          if !value.Json? {
            Fail(Unreadable, "its result is not JSON", []);
          } else {
            status, result := Done, Some(value);
          }
      }
    }

    method Persist(to: Address, amending: bool)
      modifies this
      ensures Now() == Persisted(old(Now()), to, amending)
      ensures delivered != old(delivered) <==> Settled(status) && !old(delivered) && !amending && to == Nobody
      ensures Now() == old(Now()).(delivered := delivered) && (old(delivered) ==> delivered)
    {
      if Settled(status) && !delivered && !amending {
        if to == Nobody {
          delivered := true;
        }
      }
    }

    /** Refused unless the job has one of the `from` statuses and its checkpoint has something left to run. */
    method BeginResume(from: set<Status>, pending: seq<string>) returns (ok: bool)
      modifies this
      ensures ok <==> old(status) in from && pending != []
      ensures Now() == if ok then Reopened(old(Now())) else old(Now())
      ensures ok ==> error.None? && failure.None? && result.None? && asked == [] && !delivered
      ensures ok ==> status == Running && attempt == old(attempt) + 1
    {
      ok := status in from && |pending| > 0;
      if ok {
        error, result, asked, failure, delivered := None, None, [], None, false;
        attempt := attempt + 1;
        status := Running;
      }
    }
  }

  /** A resume forgets all of the ending but which attempt it was. */
  lemma ReopeningForgets(a: Record, b: Record)
    ensures Reopened(a) == Reopened(b) <==> a.attempt == b.attempt
  {
  }

  /** Saving an ending again stamps nothing more, unless an amendment kept the stamp back. */
  lemma PersistingAgainAddsNothing(r: Record, to: Address, amending: bool, later: bool)
    ensures Persisted(Persisted(r, to, amending), to, later) ==
              Persisted(r, to, if Settled(r.status) then amending && later else amending)
  {
  }

  // ---------- all sequences of use cases ----------

  /** A job's record; whether it is being amended; and, only said of it, whether its present ending was saved
      while it was. */
  datatype Life = Life(record: Record, amending: bool, under: bool)

  /** `pending` is what the checkpoint would run next, asked when the step needs it. */
  datatype Step =
    | Run
    | Finish(returned: Option<Reading>, asked: Option<seq<Value>>)
    | Raise(text: string, exception: string, pending: seq<string>)
    | Stop
    | Cancel
    | TakenOver(pending: seq<string>)
    | CancelledDead
    | Resume(pending: seq<string>)
    | Answer(pending: seq<string>)
    | Relaunch(pending: seq<string>)
    | Amend
    | AmendOn(pending: seq<string>)
    | AmendRefused(pending: seq<string>)
    | PushArrives(attempt: nat)
    | ReceiverHasIt

  /** How a job of a graph is handled: where its endings go, and how often it is relaunched unasked. */
  datatype Spec = Spec(to: Address, relaunch: nat)

  predicate Relaunchable(spec: Spec, r: Record) {
    && r.status == Failed && r.attempt <= spec.relaunch
    && r.failure.Some? && r.failure.value.kind == Interrupted && r.failure.value.retryable
  }

  predicate Enabled(spec: Spec, life: Life, step: Step) {
    var r := life.record;
    match step
    case Run => r.status == Queued
    case Finish(_, _) => r.status == Running
    case Raise(_, exception, _) => r.status == Running && exception != ""
    case Stop => r.status == Running
    case Cancel => r.status == Queued || r.status == NeedsInput
    case TakenOver(_) => r.status == Running
    case CancelledDead => r.status == Running
    case Resume(pending) => Resumable(r.status) && pending != []
    case Answer(pending) => r.status == NeedsInput && pending != []
    case Relaunch(pending) => Relaunchable(spec, r) && pending != []
    case Amend => !life.amending
    case AmendOn(pending) => life.amending && Resumable(r.status) && pending != []
    case AmendRefused(pending) => life.amending && !(Resumable(r.status) && pending != [])
    case PushArrives(attempt) => spec.to == Pushed && r.attempt == attempt && Settled(r.status) && !r.delivered
    case ReceiverHasIt => spec.to == Pulled && Settled(r.status) && !r.delivered
  }

  /** The record a step is about to save, when it stops the run. */
  function Stopping(r: Record, step: Step): Option<Record> {
    match step
    case Finish(returned, asked) => Some(Concluded(r, returned, asked))
    case Raise(text, exception, pending) => Some(FailedAs(r, Raised, Or(text, exception), pending))
    case Stop => Some(r.(status := Cancelled))
    case Cancel => Some(r.(status := Cancelled))
    case TakenOver(pending) =>
      Some(FailedAs(r, Interrupted, "interrupted: the process running this job stopped", pending))
    case CancelledDead =>
      Some(r.(status := Cancelled, error := Some("cancelled after the process running it had already stopped")))
    case _ => None
  }

  predicate Reopens(step: Step) {
    step.Resume? || step.Answer? || step.Relaunch? || step.AmendOn?
  }

  function Apply(spec: Spec, life: Life, step: Step): Life {
    var r := life.record;
    var stopping := Stopping(r, step);
    if stopping.Some? then Life(Persisted(stopping.value, spec.to, life.amending), life.amending, life.amending)
    else if Reopens(step) then Life(Reopened(r), life.amending && !step.AmendOn?, false)
    else if step.Run? then life.(record := r.(status := Running))
    else if step.Amend? then life.(amending := true)
    else if step.AmendRefused? then life.(amending := false)
    else life.(record := r.(delivered := true))
  }

  function Created(): Life {
    Life(Record(Queued, None, None, None, [], 1, false), false, false)
  }

  /** A failure says why, and whether a resume would take it; a result is there and is JSON. */
  predicate SaysItAll(r: Record) {
    && r.attempt >= 1
    && (r.status == Failed ==> r.error.Some? && r.error.value != "" && r.failure.Some?)
    && (r.failure.Some? ==> (r.failure.value.retryable <==> r.failure.value.pending != []))
    && (r.status == Done ==> r.result.Some?)
    && (r.result.Some? ==> r.result.value.Json?) && (forall v :: v in r.asked ==> v.Json?)
  }

  /** What a stored record always is: only an ending is ever delivered, a pause never; and one nobody waits for is
      delivered exactly when it was not saved while the job was being amended. */
  predicate Sound(spec: Spec, life: Life) {
    && SaysItAll(life.record) && (life.record.delivered ==> Settled(life.record.status))
    && (spec.to == Nobody && Settled(life.record.status) ==> (life.record.delivered <==> !life.under))
  }

  ghost predicate IsRun(spec: Spec, life: Life, steps: seq<Step>)
    decreases |steps|
  {
    steps == [] || (Enabled(spec, life, steps[0]) && IsRun(spec, Apply(spec, life, steps[0]), steps[1..]))
  }

  ghost function EndOf(spec: Spec, life: Life, steps: seq<Step>): Life
    decreases |steps|
  {
    if steps == [] then life else EndOf(spec, Apply(spec, life, steps[0]), steps[1..])
  }

  function Reopenings(steps: seq<Step>): nat {
    if steps == [] then 0
    else (if Reopens(steps[0]) then 1 else 0) + Reopenings(steps[1..])
  }

  function Relaunches(steps: seq<Step>): nat {
    if steps == [] then 0 else (if steps[0].Relaunch? then 1 else 0) + Relaunches(steps[1..])
  }

  lemma FailingKeeps(r: Record, kind: Kind, why: string, pending: seq<string>)
    requires SaysItAll(r) && why != ""
    ensures SaysItAll(FailedAs(r, kind, why, pending))
  {
  }

  lemma ConcludingKeeps(r: Record, returned: Option<Reading>, asked: Option<seq<Value>>)
    requires SaysItAll(r)
    ensures SaysItAll(Concluded(r, returned, asked))
    ensures Concluded(r, returned, asked).attempt == r.attempt && Concluded(r, returned, asked).delivered == r.delivered
  {
    match returned {
      case Some(Breaks(repr)) =>
        var why := "its result could not be read: " + repr;
        assert |why| > 0;
        FailingKeeps(r, Unreadable, why, []);
      case _ =>
    }
  }

  /** What is about to be saved says it all, of the same attempt. */
  ghost predicate GoesOn(r: Record, saved: Record) {
    SaysItAll(saved) && saved.attempt == r.attempt && saved.delivered == r.delivered
  }

  lemma TakingOverKeeps(r: Record, pending: seq<string>)
    requires SaysItAll(r)
    ensures GoesOn(r, Stopping(r, TakenOver(pending)).value)
  {
    var why := "interrupted: the process running this job stopped";
    assert |why| > 0;
    FailingKeeps(r, Interrupted, why, pending);
  }

  lemma StoppingKeeps(spec: Spec, life: Life, step: Step)
    requires SaysItAll(life.record) && Enabled(spec, life, step) && Stopping(life.record, step).Some?
    ensures GoesOn(life.record, Stopping(life.record, step).value)
  {
    match step {
      case Finish(returned, asked) => ConcludingKeeps(life.record, returned, asked);
      case Raise(text, exception, pending) => FailingKeeps(life.record, Raised, Or(text, exception), pending);
      case TakenOver(pending) => TakingOverKeeps(life.record, pending);
      case _ =>
    }
  }

  /** Only a run that is not over is stopped. */
  lemma StopsWhatRuns(spec: Spec, life: Life, step: Step)
    requires Enabled(spec, life, step) && Stopping(life.record, step).Some?
    ensures !Settled(life.record.status)
  {
  }

  lemma SavingKeeps(spec: Spec, saved: Record, amending: bool)
    requires SaysItAll(saved) && !saved.delivered
    ensures Sound(spec, Life(Persisted(saved, spec.to, amending), amending, amending))
  {
  }

  lemma GoingOnKeeps(spec: Spec, life: Life, step: Step)
    requires Sound(spec, life) && Enabled(spec, life, step) && Stopping(life.record, step).None?
    ensures var r, r' := life.record, Apply(spec, life, step).record;
            && Sound(spec, Apply(spec, life, step)) && (r.status == Done ==> r' == r.(delivered := r'.delivered))
            && r'.attempt == r.attempt + if Reopens(step) then 1 else 0
  {
  }

  lemma StepKeeps(spec: Spec, life: Life, step: Step)
    requires Sound(spec, life) && Enabled(spec, life, step)
    ensures var r, r' := life.record, Apply(spec, life, step).record;
            && Sound(spec, Apply(spec, life, step)) && (r.status == Done ==> r' == r.(delivered := r'.delivered))
            && r'.attempt == r.attempt + if Reopens(step) then 1 else 0
  {
    if Stopping(life.record, step).Some? {
      StoppingKeeps(spec, life, step);
      StopsWhatRuns(spec, life, step);
      SavingKeeps(spec, Stopping(life.record, step).value, life.amending);
    } else {
      GoingOnKeeps(spec, life, step);
    }
  }

  /** Over every sequence of use cases, amendments that go through and that do not among them: a FAILED record says
      why and whether a resume would take it, DONE has a result and stays, a pause is never delivered, an ending
      nobody waits for is delivered if and only if it was not saved while the job was being amended, the attempt
      counts the resumes; and a job is relaunched unasked at most as often as its graph allows. */
  lemma {:induction false} EveryLifeIsSound(spec: Spec, life: Life, steps: seq<Step>)
    requires Sound(spec, life) && IsRun(spec, life, steps)
    ensures var r, r' := life.record, EndOf(spec, life, steps).record;
            && Sound(spec, EndOf(spec, life, steps)) && r'.attempt == r.attempt + Reopenings(steps)
            && (r.status == Done ==> r' == r.(delivered := r'.delivered))
            && Relaunches(steps) <= (if r.attempt <= spec.relaunch then spec.relaunch - r.attempt + 1 else 0)
    decreases |steps|
  {
    if steps != [] {
      StepKeeps(spec, life, steps[0]);
      EveryLifeIsSound(spec, Apply(spec, life, steps[0]), steps[1..]);
    }
  }

  /** Created once, and whatever happens: at most `relaunch` relaunches. */
  lemma RelaunchesAreBounded(spec: Spec, steps: seq<Step>)
    requires IsRun(spec, Created(), steps)
    ensures Relaunches(steps) <= spec.relaunch && Sound(spec, EndOf(spec, Created(), steps))
  {
    EveryLifeIsSound(spec, Created(), steps);
  }

  // ---------- what an ending is recorded as ----------

  /** How the conclusion of a run fails it, if it does. */
  ghost predicate ConcludesAs(returned: Option<Reading>, kind: Kind) {
    match kind
    case Declared => returned.Some? && returned.value.SaysFailed?
    case NoResult => returned.None?
    case Unreadable =>
      returned.Some? && (returned.value.Breaks? || (returned.value.Reads? && returned.value.value.NotJson?))
    case _ => false
  }

  ghost predicate IsFailure(r: Record, kind: Kind, pending: seq<string>) {
    r.status == Failed && r.failure == Some(Failure(kind, pending, pending != []))
  }

  /** A run that ends without a question is DONE with its result, or failed for what its conclusion was. */
  lemma ConclusionsAreRecorded(r: Record, returned: Option<Reading>, kind: Kind)
    ensures var c := Concluded(r, returned, None);
            && (ConcludesAs(returned, kind) ==> IsFailure(c, kind, []))
            && (returned.Some? && returned.value.Reads? && returned.value.value.Json? ==>
                  c.status == Done && c.result == Some(returned.value.value))
            && (ConcludesAs(returned, Declared) && returned.value.reason != "" ==>
                  c.error == Some(returned.value.reason))
  {
    match returned {
      case Some(Reads(_)) =>
      case Some(Breaks(_)) =>
      case Some(SaysFailed(_, _)) =>
      case None =>
    }
  }

  /** And each other step that stops it is recorded as what it was: a takeover as an interruption, a raise as that and
      with what it said, a question as a pause, a cancel as no failure at all; with what was left to run. */
  ghost predicate IsRecorded(r: Record, step: Step, saved: Record) {
    match step
    case Finish(returned, Some(asked)) => saved.status == NeedsInput && saved.asked == Readable(asked)
    case Finish(returned, None) => saved == Concluded(r, returned, None)
    case Raise(text, exception, pending) =>
      IsFailure(saved, Raised, pending) && saved.error == Some(if text != "" then text else exception)
    case TakenOver(pending) => IsFailure(saved, Interrupted, pending)
    case CancelledDead => saved.status == Cancelled && saved.error.Some? && saved.error.value != ""
    case _ => saved.status == Cancelled && saved.error == r.error
  }

  lemma StoppingIsRecorded(r: Record, step: Step)
    requires Stopping(r, step).Some?
    ensures IsRecorded(r, step, Stopping(r, step).value) && Stopping(r, step).value.attempt == r.attempt
  {
    var why := "cancelled after the process running it had already stopped";
    assert |why| > 0;
  }

  /** Saving changes nothing of that. */
  lemma AnEndingIsRecordedAsItWas(spec: Spec, life: Life, step: Step)
    requires Enabled(spec, life, step) && Stopping(life.record, step).Some?
    ensures var saved := Apply(spec, life, step).record;
            IsRecorded(life.record, step, saved.(delivered := life.record.delivered)) && saved.attempt == life.record.attempt
  {
    StoppingIsRecorded(life.record, step);
    StoppingSaves(spec, life, step);
  }

  lemma DeliveredStays(r: Record, step: Step)
    requires Stopping(r, step).Some?
    ensures Stopping(r, step).value.delivered == r.delivered
  {
    if step.Finish? {
      match step.returned {
        case Some(Reads(_)) =>
        case Some(Breaks(_)) =>
        case Some(SaysFailed(_, _)) =>
        case None =>
      }
    }
  }

  lemma StoppingSaves(spec: Spec, life: Life, step: Step)
    requires Stopping(life.record, step).Some?
    ensures Apply(spec, life, step).record.(delivered := life.record.delivered) == Stopping(life.record, step).value
  {
    DeliveredStays(life.record, step);
  }

  lemma RelaunchLooksAt(spec: Spec, life: Life, delivered: bool, next: seq<string>)
    requires next != []
    ensures Enabled(spec, life, Relaunch(next)) <==> Relaunchable(spec, life.record.(delivered := delivered))
  {
  }

  lemma OnlyTakeoversInterrupt(r: Record, step: Step)
    requires Stopping(r, step).Some?
    ensures var saved := Stopping(r, step).value;
            saved.status == Failed && saved.failure.Some? && saved.failure.value.kind == Interrupted <==> step.TakenOver?
  {
    StoppingIsRecorded(r, step);
    if step.Finish? && step.asked.None? {
      ConclusionsAreRecorded(r, step.returned, NoResult);
      ConclusionsAreRecorded(r, step.returned, Declared);
      ConclusionsAreRecorded(r, step.returned, Unreadable);
    }
  }

  lemma RelaunchableWhenTakenOver(spec: Spec, r: Record, step: Step)
    requires Stopping(r, step).Some?
    ensures Relaunchable(spec, Stopping(r, step).value) <==>
              step.TakenOver? && step.pending != [] && r.attempt <= spec.relaunch
  {
    OnlyTakeoversInterrupt(r, step);
    StoppingIsRecorded(r, step);
  }

  /** Only a takeover lets a job be relaunched unasked: and exactly when it left something to run, in an attempt the
      graph still relaunches. */
  lemma RelaunchedExactlyWhenTakenOver(spec: Spec, life: Life, step: Step, next: seq<string>)
    requires Enabled(spec, life, step) && Stopping(life.record, step).Some? && next != []
    ensures Enabled(spec, Apply(spec, life, step), Relaunch(next)) <==>
              step.TakenOver? && step.pending != [] && life.record.attempt <= spec.relaunch
  {
    RelaunchableWhenTakenOver(spec, life.record, step);
    StoppingSaves(spec, life, step);
    RelaunchLooksAt(spec, Apply(spec, life, step), life.record.delivered, next);
  }

  /** Taken over and relaunched, again and again. */
  function Interruptions(n: nat): seq<Step> {
    if n == 0 then [] else [TakenOver(["step"]), Relaunch(["step"])] + Interruptions(n - 1)
  }

  lemma {:induction false} InterruptionsRun(spec: Spec, life: Life, n: nat)
    requires life.record.status == Running && life.record.attempt + n <= spec.relaunch + 1
    ensures IsRun(spec, life, Interruptions(n)) && Relaunches(Interruptions(n)) == n
    decreases n
  {
    if n > 0 {
      var taken := Apply(spec, life, TakenOver(["step"]));
      RelaunchedExactlyWhenTakenOver(spec, life, TakenOver(["step"]), ["step"]);
      InterruptionsRun(spec, Apply(spec, taken, Relaunch(["step"])), n - 1);
      var rest := [Relaunch(["step"])] + Interruptions(n - 1);
      Then(spec, taken, Relaunch(["step"]), Interruptions(n - 1));
      Then(spec, life, TakenOver(["step"]), rest);
      assert Interruptions(n) == [TakenOver(["step"])] + rest;
      assert rest[1..] == Interruptions(n - 1) && Interruptions(n)[1..] == rest;
    }
  }

  /** And the bound is met: for every graph some job is relaunched as often as it says. */
  lemma RelaunchesReachTheBound(spec: Spec) returns (steps: seq<Step>)
    ensures IsRun(spec, Created(), steps) && Relaunches(steps) == spec.relaunch
  {
    var running := Apply(spec, Created(), Run);
    InterruptionsRun(spec, running, spec.relaunch);
    Then(spec, Created(), Run, Interruptions(spec.relaunch));
    steps := [Run] + Interruptions(spec.relaunch);
    assert steps[1..] == Interruptions(spec.relaunch);
  }

  // ---------- what may follow what ----------

  /** Told of its ending: by a push of this very attempt, or pulled. */
  predicate Delivers(spec: Spec, r: Record, step: Step) {
    !r.delivered && ((spec.to == Pulled && step.ReceiverHasIt?) || (spec.to == Pushed && step == PushArrives(r.attempt)))
  }

  /** Taken up again, with something left to run. */
  predicate TakesUpAgain(spec: Spec, life: Life, step: Step) {
    || (step.Resume? && step.pending != [])
    || (step.AmendOn? && life.amending && step.pending != [])
    || (step.Relaunch? && step.pending != [] && Relaunchable(spec, life.record))
  }

  /** In each state of a job exactly these use cases are taken, and every other is refused. */
  lemma WhatMayFollow(spec: Spec, life: Life, step: Step)
    requires !step.Amend? && !step.AmendRefused?
    ensures Enabled(spec, life, step) <==>
              match life.record.status
              case Queued => step.Run? || step.Cancel?
              case Running =>
                step.Finish? || (step.Raise? && step.exception != "") || step.Stop? || step.TakenOver?
                || step.CancelledDead?
              case NeedsInput => step.Cancel? || (step.Answer? && step.pending != [])
              case Done => Delivers(spec, life.record, step)
              case _ => Delivers(spec, life.record, step) || TakesUpAgain(spec, life, step)
  {
  }

  /** An ending is stamped by whoever is told of it, once. */
  lemma AnEndingIsStampedOnce(spec: Spec, life: Life, step: Step, again: Step)
    requires Enabled(spec, life, step) && (step.PushArrives? || step.ReceiverHasIt?)
    requires again.PushArrives? || again.ReceiverHasIt?
    ensures Apply(spec, life, step) == life.(record := life.record.(delivered := true)) && !life.record.delivered
    ensures !Enabled(spec, Apply(spec, life, step), again)
  {
  }

  lemma Finishes(spec: Spec, life: Life) returns (steps: seq<Step>)
    requires life.record.status == Running
    ensures |steps| == 1 && IsRun(spec, life, steps) && EndOf(spec, life, steps).record.status == Done
  {
    var done := Finish(Some(Reads(Json("result"))), None);
    Then(spec, life, done, []);
    steps := [done];
    assert [done] + [] == [done];
  }

  /** No job is lost: whatever became of it, as long as there is something left to run it can still be DONE. */
  lemma EveryJobCanStillBeDone(spec: Spec, life: Life) returns (steps: seq<Step>)
    ensures IsRun(spec, life, steps) && |steps| <= 2 && EndOf(spec, life, steps).record.status == Done
  {
    var status := life.record.status;
    if status == Done {
      steps := [];
    } else if status == Running {
      steps := Finishes(spec, life);
    } else {
      var first := if status == Queued then Run else if status == NeedsInput then Answer(["step"]) else Resume(["step"]);
      var rest := Finishes(spec, Apply(spec, life, first));
      Then(spec, life, first, rest);
      steps := [first] + rest;
    }
  }

  // ---------- an amendment that is refused ----------

  /** An amendment stops the run and is then refused, because nothing is left to run: the stop is an ending after
      all, which nobody waits for, and it is never stamped. */
  lemma ARefusedAmendmentIsForgotten()
    ensures exists steps ::
              && IsRun(Spec(Nobody, 0), Created(), steps)
              && var life := EndOf(Spec(Nobody, 0), Created(), steps);
                 life.record.status == Cancelled && !life.record.delivered && !life.amending
  {
    var spec := Spec(Nobody, 0);
    var l1 := Apply(spec, Created(), Run);
    var l2 := Apply(spec, l1, Amend);
    var l3 := Apply(spec, l2, Stop);
    Then(spec, l3, AmendRefused([]), []);
    Then(spec, l2, Stop, [AmendRefused([])]);
    Then(spec, l1, Amend, [Stop, AmendRefused([])]);
    Then(spec, Created(), Run, [Amend, Stop, AmendRefused([])]);
  }

  lemma Then(spec: Spec, life: Life, step: Step, steps: seq<Step>)
    requires Enabled(spec, life, step) && IsRun(spec, Apply(spec, life, step), steps)
    ensures IsRun(spec, life, [step] + steps)
    ensures EndOf(spec, life, [step] + steps) == EndOf(spec, Apply(spec, life, step), steps)
  {
    assert ([step] + steps)[1..] == steps;
  }

}
