/** Whole runs of the lease protocol (jobsmith/engine/manager.py, ownership.py): exactly when a job that reads
    RUNNING has a lease, when a record read without one is final, and what a cancel request and a second
    lease come to. Nothing is asked of the runs but what a theorem names. */
module LeaseRuns {
  import opened Options
  import opened Jobs
  import opened Ownership
  import opened Leases

  /** A run: steps taken one after the other, crashes and the clock included. */
  ghost predicate IsRun(c: Config, s: State, steps: seq<Step>)
    decreases |steps|
  {
    steps == [] || (Enabled(c, s, steps[0]) && IsRun(c, Apply(c, s, steps[0]), steps[1..]))
  }

  ghost function EndOf(c: Config, s: State, steps: seq<Step>): State
    requires IsRun(c, s, steps)
    decreases |steps|
  {
    if steps == [] then s else EndOf(c, Apply(c, s, steps[0]), steps[1..])
  }

  lemma OneStepRun(c: Config, s: State, step: Step)
    requires Enabled(c, s, step)
    ensures IsRun(c, s, [step]) && EndOf(c, s, [step]) == Apply(c, s, step)
  {
    assert [step][1..] == [];
  }

  lemma {:induction false} RunIsSound(c: Config, s: State, steps: seq<Step>)
    requires Sound(s) && IsRun(c, s, steps)
    ensures Sound(EndOf(c, s, steps))
    decreases |steps|
  {
    if steps != [] {
      StepIsSound(c, s, steps[0]);
      RunIsSound(c, Apply(c, s, steps[0]), steps[1..]);
    }
  }

  /** No state of the run is so. */
  ghost predicate NeverAt(c: Config, s: State, steps: seq<Step>, bad: State -> bool)
    requires IsRun(c, s, steps)
    decreases |steps|
  {
    !bad(s) && (steps == [] || NeverAt(c, Apply(c, s, steps[0]), steps[1..], bad))
  }

  /** No step of the run is such. */
  ghost predicate NeverTakes(c: Config, s: State, steps: seq<Step>, bad: (Config, State, Step) -> bool)
    requires IsRun(c, s, steps)
    decreases |steps|
  {
    steps == [] || (!bad(c, s, steps[0]) && NeverTakes(c, Apply(c, s, steps[0]), steps[1..], bad))
  }

  ghost predicate WellNamed(c: Config) {
    forall p :: c.who(p).token == p
  }

  // ---------- RUNNING has a lease ----------

  /** Nothing is left between the process and a RUNNING written. */
  predicate MayAnnounce(m: Mode, cancel: bool) {
    m.Starts? || (m.Drives? && m.job.status == Running) || (m.Checks? && !cancel)
  }

  ghost predicate OthersMayAnnounce(s: State, p: Proc) {
    exists q :: q in s.procs && q != p && MayAnnounce(s.procs[q], s.cancel)
  }

  /** RUNNING without a lease, or about to be. */
  ghost predicate Exposed(s: State) {
    s.lease.None? &&
    (s.rec.status == Running || exists q :: q in s.procs && MayAnnounce(s.procs[q], s.cancel))
  }

  /** The steps that bring it about: a lease let go while the record reads RUNNING or another process may
      announce it, or a request cleared that alone kept an opener without a lease from announcing. */
  ghost predicate Uncovers(c: Config, s: State, step: Step) {
    || (LetsGo(step) && (s.rec.status == Running || OthersMayAnnounce(s, step.p)))
    || (step.ClearCancel? && s.lease.None? && exists q :: q in s.procs && q != step.p && s.procs[q].Checks?)
  }

  lemma LettingGoExposes(c: Config, s: State, step: Step)
    requires Sound(s) && Enabled(c, s, step) && LetsGo(step)
    ensures Exposed(Apply(c, s, step)) <==> Uncovers(c, s, step)
  {
    var s' := Apply(c, s, step);
    assert Sane(s.procs[step.p]);
    assert forall q :: q in s.procs && q != step.p ==> s'.procs[q] == s.procs[q];
    assert !MayAnnounce(s'.procs[step.p], s'.cancel);
  }

  lemma ClearingExposes(c: Config, s: State, step: Step)
    requires Enabled(c, s, step) && step.ClearCancel? && !Exposed(s)
    ensures Exposed(Apply(c, s, step)) <==> Uncovers(c, s, step)
  {
    var s' := Apply(c, s, step);
    assert forall q :: q in s.procs && q != step.p ==> s'.procs[q] == s.procs[q];
    if Uncovers(c, s, step) {
      var q :| q in s.procs && q != step.p && s.procs[q].Checks?;
      assert MayAnnounce(s'.procs[q], s'.cancel);
    }
  }

  /** Without a lease, nobody comes nearer to announcing who was not as near. */
  lemma NoNearer(c: Config, s: State, step: Step)
    requires Enabled(c, s, step) && s.lease.None? && !step.Advance? && !step.Crash?
    requires step.Join? || Sane(s.procs[step.p])
    requires !step.SaveLease? && !step.ClearCancel? && !LetsGo(step)
    requires s.rec.status != Running && (step.Join? || !MayAnnounce(s.procs[step.p], s.cancel))
    ensures !MayAnnounce(Apply(c, s, step).procs[step.p], Apply(c, s, step).cancel)
    ensures Apply(c, s, step).rec.status != Running
  {
  }

  lemma OthersStandStill(c: Config, s: State, step: Step, q: Proc)
    requires Enabled(c, s, step) && q in Apply(c, s, step).procs && (step.Advance? || q != step.p)
    ensures q in s.procs
    ensures Apply(c, s, step).procs[q] == if step.TickWrite? then Answered(s.procs[q], step.p) else s.procs[q]
  {
  }

  /** Out of the reach of RUNNING-without-a-lease, a step brings the job within it if and only if it is one
      of those. */
  lemma ExposesExactlyWhen(c: Config, s: State, step: Step)
    requires Sound(s) && Enabled(c, s, step) && !Exposed(s)
    ensures Exposed(Apply(c, s, step)) <==> Uncovers(c, s, step)
  {
    var s' := Apply(c, s, step);
    if LetsGo(step) {
      LettingGoExposes(c, s, step);
    } else if step.ClearCancel? {
      ClearingExposes(c, s, step);
    } else if s'.lease.None? {
      if !step.Advance? && !step.Crash? {
        assert step.Join? || Sane(s.procs[step.p]);
        NoNearer(c, s, step);
      }
      forall q | q in s'.procs ensures !MayAnnounce(s'.procs[q], s'.cancel) {
        if step.Advance? || q != step.p { OthersStandStill(c, s, step, q); }
      }
    }
  }

  lemma {:induction false} CoveredExactlyWhen(c: Config, s: State, steps: seq<Step>)
    requires Sound(s) && IsRun(c, s, steps) && !Exposed(s)
    ensures NeverAt(c, s, steps, Exposed) <==> NeverTakes(c, s, steps, Uncovers)
    ensures NeverTakes(c, s, steps, Uncovers) ==> !Exposed(EndOf(c, s, steps))
    decreases |steps|
  {
    if steps != [] {
      StepIsSound(c, s, steps[0]);
      ExposesExactlyWhen(c, s, steps[0]);
      if !Uncovers(c, s, steps[0]) { CoveredExactlyWhen(c, Apply(c, s, steps[0]), steps[1..]); }
    }
  }

  /** From there RUNNING without a lease is at most two steps away, whatever anybody else does not do. */
  lemma ExposedComesToIt(c: Config, s: State) returns (steps: seq<Step>)
    requires Sound(s) && Exposed(s)
    ensures IsRun(c, s, steps) && |steps| <= 2
    ensures EndOf(c, s, steps).rec.status == Running && EndOf(c, s, steps).lease.None?
  {
    if s.rec.status == Running {
      return [];
    }
    var q :| q in s.procs && MayAnnounce(s.procs[q], s.cancel);
    assert Sane(s.procs[q]);
    if s.procs[q].Starts? {
      OneStepRun(c, s, PersistRunning(q));
      steps := [PersistRunning(q)];
    } else if s.procs[q].Drives? {
      OneStepRun(c, s, Progress(q));
      steps := [Progress(q)];
    } else {
      OneStepRun(c, Apply(c, s, CheckCancel(q)), PersistRunning(q));
      steps := [CheckCancel(q), PersistRunning(q)];
      assert steps[1..] == [PersistRunning(q)];
    }
  }

  /** On every run, whatever the interleaving and whoever crashed, and with nothing asked of how attempts are
      opened or watched: the job is never RUNNING, or about to be, without a lease, if and only if no lease
      is let go (nor a request cleared) in front of somebody who may announce it. */
  lemma RunningHasALeaseExactlyWhen(c: Config, steps: seq<Step>)
    requires IsRun(c, Start(), steps)
    ensures NeverAt(c, Start(), steps, Exposed) <==> NeverTakes(c, Start(), steps, Uncovers)
    ensures NeverTakes(c, Start(), steps, Uncovers) ==>
              (EndOf(c, Start(), steps).rec.status == Running ==> EndOf(c, Start(), steps).lease.Some?)
  {
    CoveredExactlyWhen(c, Start(), steps);
  }

  // ---------- a record read without a lease ----------

  /** Nobody says RUNNING, and nobody who drives will. */
  ghost predicate Still(s: State) {
    s.rec.status != Running && forall q :: q in s.procs && s.procs[q].Drives? ==> s.procs[q].job.status != Running
  }

  lemma DrivesWhatWasAnnounced(c: Config, s: State, step: Step, m: Mode)
    requires !step.Advance? && InPlace(c, s, step, m) && Sane(m) && !step.PersistRunning?
    requires m.Drives? ==> m.job.status != Running
    ensures Place(c, s, step, m).Drives? ==> Place(c, s, step, m).job.status != Running
  {
  }

  lemma StillExactlyUnlessAnnounced(c: Config, s: State, step: Step)
    requires Sound(s) && Enabled(c, s, step) && Still(s)
    ensures step.PersistRunning? ==> Apply(c, s, step).rec.status == Running
    ensures !step.PersistRunning? ==> Still(Apply(c, s, step))
  {
    var s' := Apply(c, s, step);
    if !step.Advance? && !step.Crash? && !step.Join? {
      assert Sane(s.procs[step.p]);
      if !step.PersistRunning? { DrivesWhatWasAnnounced(c, s, step, s.procs[step.p]); }
    }
    if !step.PersistRunning? {
      forall q | q in s'.procs && s'.procs[q].Drives? ensures s'.procs[q].job.status != Running {
        if step.Advance? || q != step.p { OthersStandStill(c, s, step, q); }
      }
    }
  }

  predicate IsRunning(s: State) {
    s.rec.status == Running
  }

  predicate Announces(steps: seq<Step>) {
    exists i :: 0 <= i < |steps| && steps[i].PersistRunning?
  }

  lemma AnnouncesNext(steps: seq<Step>)
    requires steps != []
    ensures Announces(steps) <==> steps[0].PersistRunning? || Announces(steps[1..])
  {
    if Announces(steps) {
      var i :| 0 <= i < |steps| && steps[i].PersistRunning?;
      if i > 0 { assert steps[1..][i - 1].PersistRunning?; }
    }
    if Announces(steps[1..]) {
      var i :| 0 <= i < |steps[1..]| && steps[1..][i].PersistRunning?;
      assert steps[i + 1].PersistRunning?;
    }
  }

  lemma {:induction false} StillUnlessAnnounced(c: Config, s: State, steps: seq<Step>)
    requires Sound(s) && IsRun(c, s, steps) && Still(s)
    ensures NeverAt(c, s, steps, IsRunning) <==> !Announces(steps)
    ensures !Announces(steps) ==> Still(EndOf(c, s, steps))
    decreases |steps|
  {
    if steps != [] {
      AnnouncesNext(steps);
      StepIsSound(c, s, steps[0]);
      StillExactlyUnlessAnnounced(c, s, steps[0]);
      if !steps[0].PersistRunning? { StillUnlessAnnounced(c, Apply(c, s, steps[0]), steps[1..]); }
    }
  }

  lemma StillWithoutALease(s: State)
    requires s.lease.None? && !Exposed(s)
    ensures Still(s)
  {
  }

  lemma FinalFrom(c: Config, s: State, p: Proc, between: seq<Step>)
    requires Sound(s) && !Exposed(s) && s.lease.None? && Enabled(c, s, AwaitControl(p))
    requires IsRun(c, Apply(c, s, AwaitControl(p)), between)
    ensures var s1 := Apply(c, s, AwaitControl(p));
            && (NeverAt(c, s1, between, IsRunning) <==> !Announces(between))
            && (!Announces(between) ==> EndOf(c, s1, between).rec.status != Running)
  {
    StillWithoutALease(s);
    StepIsSound(c, s, AwaitControl(p));
    StillExactlyUnlessAnnounced(c, s, AwaitControl(p));
    StillUnlessAnnounced(c, Apply(c, s, AwaitControl(p)), between);
  }

  /** What a canceller does with a summary that does not read RUNNING. */
  lemma LeavesWhatIsFinal(c: Config, s: State, p: Proc, pids: set<int>)
    requires Enabled(c, s, AwaitSummary(p, pids)) && s.rec.status != Running
    ensures var s' := Apply(c, s, AwaitSummary(p, pids));
            s'.procs[p] == Idle && s'.rec == s.rec && s'.lease == s.lease && s'.endings == s.endings
  {
  }

  /** A canceller reads the control record and finds no lease. Whatever happens before it reads the summary,
      the job does not read RUNNING in between if and only if no attempt is announced in between; and then
      what it reads is final: it stops there and leaves it. */
  lemma FinalExactlyUnlessAnnounced(c: Config, steps: seq<Step>, p: Proc, between: seq<Step>, pids: set<int>)
    requires IsRun(c, Start(), steps) && NeverTakes(c, Start(), steps, Uncovers)
    requires var s := EndOf(c, Start(), steps);
             Enabled(c, s, AwaitControl(p)) && s.lease.None? && IsRun(c, Apply(c, s, AwaitControl(p)), between)
    ensures var s1 := Apply(c, EndOf(c, Start(), steps), AwaitControl(p));
            var s2 := EndOf(c, s1, between);
            && (NeverAt(c, s1, between, IsRunning) <==> !Announces(between))
            && (!Announces(between) && Enabled(c, s2, AwaitSummary(p, pids)) ==>
                  Apply(c, s2, AwaitSummary(p, pids)).procs[p] == Idle
                  && Apply(c, s2, AwaitSummary(p, pids)).rec == s2.rec)
  {
    CoveredExactlyWhen(c, Start(), steps);
    RunIsSound(c, Start(), steps);
    var s := EndOf(c, Start(), steps);
    FinalFrom(c, s, p, between);
    var s2 := EndOf(c, Apply(c, s, AwaitControl(p)), between);
    if !Announces(between) && Enabled(c, s2, AwaitSummary(p, pids)) { LeavesWhatIsFinal(c, s2, p, pids); }
  }

  // ---------- a cancel request is never lost ----------

  /** The process has not passed its check, and is not driving what it announced. */
  predicate NotAnnouncing(m: Mode) {
    !m.Starts? && !(m.Drives? && m.job.status == Running)
  }

  /** It cannot be driving the job either, nor come to drive it: a resume past its clear still may, refused. */
  predicate Heard(m: Mode) {
    !m.Drives? && !m.Starts? && !((m.Begins? || m.Checks? || m.Refused? || m.RefusalWritten?) && m.resumed)
  }

  ghost predicate Has(s: State, p: Proc, what: Mode -> bool) {
    p !in s.procs || what(s.procs[p])
  }

  lemma RequestIsHeard(c: Config, s: State, step: Step, m: Mode)
    requires s.cancel && !step.Advance? && !step.ClearCancel? && InPlace(c, s, step, m) && Sane(m)
    ensures NotAnnouncing(m) ==> NotAnnouncing(Place(c, s, step, m)) && !step.PersistRunning?
    ensures Heard(m) || step.TickRead? ==> Heard(Place(c, s, step, m))
  {
  }

  lemma RequestStands(c: Config, s: State, step: Step, p: Proc)
    requires Sound(s) && s.cancel && Enabled(c, s, step) && !step.ClearCancel?
    ensures Apply(c, s, step).cancel
    ensures Has(s, p, NotAnnouncing) ==> Has(Apply(c, s, step), p, NotAnnouncing) && step != PersistRunning(p)
    ensures Has(s, p, Heard) || step == TickRead(p) ==> Has(Apply(c, s, step), p, Heard)
  {
    if p in Apply(c, s, step).procs {
      if step.Advance? || p != step.p {
        OthersStandStill(c, s, step, p);
      } else if !step.Join? {
        assert Sane(s.procs[p]);
        RequestIsHeard(c, s, step, s.procs[p]);
      }
    }
  }

  /** From a request until a resume clears it, on every run: it stands; a process that had not passed its
      check by then never announces RUNNING, the resumes past their clear included; a process that was not
      opening a resume never comes to drive; and whoever drives never does after its next heartbeat. */
  lemma {:induction false} CancelIsNeverLost(c: Config, s: State, steps: seq<Step>, p: Proc)
    requires Sound(s) && s.cancel && IsRun(c, s, steps)
    requires forall i :: 0 <= i < |steps| ==> !steps[i].ClearCancel?
    ensures EndOf(c, s, steps).cancel
    ensures Has(s, p, NotAnnouncing) ==> Has(EndOf(c, s, steps), p, NotAnnouncing) && PersistRunning(p) !in steps
    ensures Has(s, p, Heard) || TickRead(p) in steps ==> Has(EndOf(c, s, steps), p, Heard)
    decreases |steps|
  {
    if steps != [] {
      StepIsSound(c, s, steps[0]);
      RequestStands(c, s, steps[0], p);
      CancelIsNeverLost(c, Apply(c, s, steps[0]), steps[1..], p);
      assert forall t :: t in steps ==> t == steps[0] || t in steps[1..];
    }
  }

  // ---------- a resume that is refused ----------

  /** A request came after the last clear, or there was one and no clear. */
  function Asked(cancel: bool, steps: seq<Step>): bool
    decreases |steps|
  {
    if steps == [] then cancel
    else Asked(steps[0].RequestCancel? || (cancel && !steps[0].ClearCancel?), steps[1..])
  }

  lemma {:induction false} AskedIsKnown(c: Config, s: State, steps: seq<Step>)
    requires IsRun(c, s, steps)
    ensures EndOf(c, s, steps).cancel == Asked(s.cancel, steps)
    decreases |steps|
  {
    if steps != [] { AskedIsKnown(c, Apply(c, s, steps[0]), steps[1..]); }
  }

  /** What becomes of an opener at its check, taken to where it drives, starts or gives up. */
  ghost function Checked(c: Config, s: State, p: Proc): State
    requires Enabled(c, s, CheckCancel(p))
  {
    var s1 := Apply(c, s, CheckCancel(p));
    if s1.procs[p].Starts? then s1
    else
      var s2 := Apply(c, s1, PersistRefusal(p));
      Apply(c, s2, ReleaseRefusal(p))
  }

  /** A resume has cleared the request and stands anywhere before its check; then, through any run, it comes
      to it. It drives after being refused (CANCELLED written, its lease let go) if and only if a stop was
      requested in between and not cleared again; else it is about to announce RUNNING. */
  lemma ARefusedResumeIsDrivenExactlyWhen(c: Config, s: State, p: Proc, steps: seq<Step>)
    requires Enabled(c, s, ClearCancel(p)) && IsRun(c, Apply(c, s, ClearCancel(p)), steps)
    requires var s' := EndOf(c, Apply(c, s, ClearCancel(p)), steps);
             Enabled(c, s', CheckCancel(p)) && s'.procs[p].resumed
    ensures var s' := EndOf(c, Apply(c, s, ClearCancel(p)), steps);
            var after := Checked(c, s', p);
            && (after.procs[p].Drives? <==> Asked(false, steps))
            && (after.procs[p].Drives? ==>
                  after.rec == Rec(Cancelled, s'.procs[p].job.attempt) && after.lease.None?
                  && after.procs[p].job == after.rec)
            && (!after.procs[p].Drives? ==> after.procs[p].Starts?)
  {
    AskedIsKnown(c, Apply(c, s, ClearCancel(p)), steps);
  }

  // ---------- a second lease ----------

  /** The lease was let go since, and nobody has written one. */
  function GivenUp(given: bool, steps: seq<Step>): bool
    decreases |steps|
  {
    if steps == [] then given
    else
      GivenUp(LetsGo(steps[0]) || (given && !steps[0].SaveLease? && !steps[0].TickWrite? && !steps[0].Fence?),
              steps[1..])
  }

  /** `p` drives and is between two heartbeats; what lease there is is another's. */
  ghost predicate Outbid(s: State, p: Proc) {
    p in s.procs && s.procs[p].Drives? && s.procs[p].beat.Quiet? && (s.lease.Some? ==> s.lease.value.owner != p)
  }

  /** Steps of other processes, and of `p` only progress. */
  predicate BetweenBeats(p: Proc, steps: seq<Step>) {
    forall i :: 0 <= i < |steps| ==> steps[i].Advance? || steps[i].p != p || steps[i].Progress?
  }

  lemma StaysOutbid(c: Config, s: State, p: Proc, step: Step)
    requires Enabled(c, s, step) && Outbid(s, p) && WellNamed(c)
    requires step.Advance? || step.p != p || step.Progress?
    ensures Outbid(Apply(c, s, step), p)
    ensures Apply(c, s, step).lease.None? <==> GivenUp(s.lease.None?, [step])
  {
    assert [step][1..] == [];
    if step.Advance? || step.p != p { OthersStandStill(c, s, step, p); }
  }

  lemma {:induction false} StaysOutbidThrough(c: Config, s: State, p: Proc, steps: seq<Step>)
    requires IsRun(c, s, steps) && Outbid(s, p) && WellNamed(c) && BetweenBeats(p, steps)
    ensures Outbid(EndOf(c, s, steps), p)
    ensures EndOf(c, s, steps).lease.None? <==> GivenUp(s.lease.None?, steps)
    decreases |steps|
  {
    if steps != [] {
      assert [steps[0]][1..] == [];
      StaysOutbid(c, s, p, steps[0]);
      StaysOutbidThrough(c, Apply(c, s, steps[0]), p, steps[1..]);
    }
  }

  /** A lease is written over the owner's by a second opener, whose reading no comparison follows, or by a taker. The
      later lease wins: the process that drives and did not write it stops at its next heartbeat, writing nothing, if
      and only if the last thing done to the lease by then is not that somebody let it go. */
  lemma TheLaterLeaseWinsExactlyUnlessLetGo(c: Config, s: State, p: Proc, take: Step, steps: seq<Step>)
    requires WellNamed(c) && (take.SaveLease? || take.Fence?) && take.p != p && Enabled(c, s, take)
    requires p in s.procs && s.procs[p].Drives? && s.procs[p].beat.Quiet?
    requires IsRun(c, Apply(c, s, take), steps) && BetweenBeats(p, steps)
    ensures var s1 := EndOf(c, Apply(c, s, take), steps);
            Enabled(c, s1, TickRead(p)) && (Apply(c, s1, TickRead(p)).procs[p] == Idle <==> !GivenUp(false, steps))
  {
    OthersStandStill(c, s, take, p);
    StaysOutbidThrough(c, Apply(c, s, take), p, steps);
  }

  // ---------- a wait ----------

  predicate TouchesLease(step: Step) {
    step.SaveLease? || step.TickWrite? || step.Fence? || LetsGo(step)
  }

  /** `q` waits for an answer. */
  ghost predicate AtWait(s: State, q: Proc) {
    q in s.procs && s.procs[q].Waits?
  }

  lemma {:induction false} WaitsThrough(c: Config, s: State, q: Proc, steps: seq<Step>)
    requires WellNamed(c) && AtWait(s, q) && IsRun(c, s, steps)
    requires forall i :: 0 <= i < |steps| ==> steps[i].Advance? || steps[i].p != q
    ensures var e := EndOf(c, s, steps);
            && AtWait(e, q) && e.procs[q].job == s.procs[q].job && e.procs[q].ending == s.procs[q].ending
            && (forall p :: p in e.procs[q].answered <==> p in s.procs[q].answered || TickWrite(p) in steps)
            && (e.lease.Some? && e.lease.value.owner == q <==>
                  s.lease.Some? && s.lease.value.owner == q && forall i :: 0 <= i < |steps| ==> !TouchesLease(steps[i]))
    decreases |steps|
  {
    if steps != [] {
      WaitsOnce(c, s, q, steps[0]);
      WaitsThrough(c, Apply(c, s, steps[0]), q, steps[1..]);
      assert forall i :: 1 <= i < |steps| ==> steps[i] == steps[1..][i - 1];
      assert forall i :: 0 <= i < |steps[1..]| ==> steps[1..][i] == steps[i + 1];
      assert forall t :: t in steps <==> t == steps[0] || t in steps[1..];
    }
  }

  lemma WaitsOnce(c: Config, s: State, q: Proc, step: Step)
    requires WellNamed(c) && AtWait(s, q) && Enabled(c, s, step) && (step.Advance? || step.p != q)
    ensures var e := Apply(c, s, step);
            && AtWait(e, q) && e.procs[q].job == s.procs[q].job && e.procs[q].ending == s.procs[q].ending
            && (forall p :: p in e.procs[q].answered <==> p in s.procs[q].answered || step == TickWrite(p))
            && (e.lease.Some? && e.lease.value.owner == q <==>
                  s.lease.Some? && s.lease.value.owner == q && !TouchesLease(step))
  {
    OthersStandStill(c, s, step, q);
  }

  /** And the other half. A taker that is not certain waits; through any run of the others it then comes to settle, and
      leaves the job to its owner otherwise (a canceller waiting on for it), if and only if nobody renewed, wrote or let
      go a lease in the meantime. */
  lemma AWaitIsHeededExactlyWhen(c: Config, s: State, q: Proc, pids: set<int>, steps: seq<Step>)
    requires WellNamed(c) && Enabled(c, s, Fence(q, pids)) && !DeathIsCertain(s.procs[q].seen, c.who(q), pids)
    requires IsRun(c, Apply(c, s, Fence(q, pids)), steps)
    requires forall i :: 0 <= i < |steps| ==> steps[i].Advance? || steps[i].p != q
    ensures var e := EndOf(c, Apply(c, s, Fence(q, pids)), steps);
            && Enabled(c, e, WaitOver(q))
            && var m := Apply(c, e, WaitOver(q)).procs[q];
            if exists i :: 0 <= i < |steps| && TouchesLease(steps[i]) then
              m == (if s.procs[q].ending == Cancelled then Awaits else Idle)
            else m == Settles(s.procs[q].job, s.procs[q].ending)
  {
    WaitsThrough(c, Apply(c, s, Fence(q, pids)), q, steps);
  }

  // ---------- heartbeats ----------

  /** A driver at its heartbeat: it stops if the lease is another's; it ends CANCELLED if a stop is requested; and
      otherwise it drives on, and its next call renews the lease, from the time it is then. */
  lemma AHeartbeatHearsOrRenews(c: Config, s: State, p: Proc, later: nat)
    requires WellNamed(c) && Enabled(c, s, TickRead(p)) && s.now <= later
    ensures var s1 := Apply(c, s, TickRead(p));
            if s.lease.Some? && s.lease.value.owner != p then s1.procs[p] == Idle
            else if s.cancel then
              s1.procs[p] == Ends(Rec(Cancelled, s.procs[p].job.attempt), s.procs[p].job.status == Running)
            else
              && Enabled(c, s1, Advance(later)) && Enabled(c, Apply(c, s1, Advance(later)), TickWrite(p))
              && var s3 := Apply(c, Apply(c, s1, Advance(later)), TickWrite(p));
                 s3.procs[p] == Drives(s.procs[p].job, Quiet) && s3.rec == s.rec
                 && s3.lease == Some(LeaseFor(c.who(p), later, c.ttl))
  {
  }

  function ReadingsBy(p: Proc, steps: seq<Step>): nat {
    if steps == [] then 0 else (if steps[0] == TickRead(p) then 1 else 0) + ReadingsBy(p, steps[1..])
  }

  function RenewalsBy(p: Proc, steps: seq<Step>): nat {
    if steps == [] then 0 else (if steps[0] == TickWrite(p) then 1 else 0) + RenewalsBy(p, steps[1..])
  }

  predicate HasRead(s: State, p: Proc) {
    p in s.procs && s.procs[p].Drives? && s.procs[p].beat.Renewing?
  }

  lemma RenewsOnceRead(c: Config, s: State, step: Step, p: Proc)
    requires Enabled(c, s, step)
    ensures step == TickWrite(p) ==> HasRead(s, p) && !HasRead(Apply(c, s, step), p)
    ensures step == TickRead(p) ==> !HasRead(s, p)
    ensures HasRead(Apply(c, s, step), p) ==> HasRead(s, p) || step == TickRead(p)
  {
    if p in Apply(c, s, step).procs && (step.Advance? || step.p != p) { OthersStandStill(c, s, step, p); }
  }

  /** No lease is renewed unread: on every run each renewal of a process has a reading of its own before it. */
  lemma {:induction false} EachRenewalIsRead(c: Config, s: State, steps: seq<Step>, p: Proc)
    requires IsRun(c, s, steps)
    ensures RenewalsBy(p, steps) <= ReadingsBy(p, steps) + if HasRead(s, p) then 1 else 0
    decreases |steps|
  {
    if steps != [] {
      RenewsOnceRead(c, s, steps[0], p);
      EachRenewalIsRead(c, Apply(c, s, steps[0]), steps[1..], p);
    }
  }
}
