/** Interleavings that the lease protocol does not exclude (jobsmith/engine/manager.py), each shown by a run from
    the start: one for each kind of step the theorems of LeaseRuns, Attempts and Takeovers find at fault. */
module LeaseRaces {
  import opened Options
  import opened Jobs
  import opened Ownership
  import opened Leases
  import opened LeaseRuns

  /** Processes on one machine, their pids their own names, and the ttl of the default policy. */
  function OneMachine(): Config {
    Config(30, (p: Proc) => Identity(p, "host", p, "ns"))
  }

  ghost predicate ClosedUnderSteps(states: State -> bool) {
    forall s, step :: states(s) && Enabled(OneMachine(), s, step) ==> states(Apply(OneMachine(), s, step))
  }

  /** In every set of states that holds the start and all that follows. */
  ghost predicate Reachable(s: State) {
    forall states: State -> bool {:trigger ClosedUnderSteps(states)} ::
      states(Start()) && ClosedUnderSteps(states) ==> states(s)
  }

  ghost predicate HasARun(s: State) {
    exists steps :: IsRun(OneMachine(), Start(), steps) && EndOf(OneMachine(), Start(), steps) == s
  }

  lemma {:induction false} OneStepMore(c: Config, s: State, steps: seq<Step>, step: Step)
    requires IsRun(c, s, steps) && Enabled(c, EndOf(c, s, steps), step)
    ensures IsRun(c, s, steps + [step])
    ensures EndOf(c, s, steps + [step]) == Apply(c, EndOf(c, s, steps), step)
    decreases |steps|
  {
    if steps == [] {
      assert steps + [step] == [step];
      OneStepRun(c, s, step);
    } else {
      OneStepMore(c, Apply(c, s, steps[0]), steps[1..], step);
      assert (steps + [step])[1..] == steps[1..] + [step];
    }
  }

  /** What is reachable is where some run ends. */
  lemma ReachableByARun(s: State)
    requires Reachable(s)
    ensures HasARun(s)
  {
    assert IsRun(OneMachine(), Start(), []) && EndOf(OneMachine(), Start(), []) == Start();
    forall t, step | HasARun(t) && Enabled(OneMachine(), t, step) ensures HasARun(Apply(OneMachine(), t, step)) {
      var steps :| IsRun(OneMachine(), Start(), steps) && EndOf(OneMachine(), Start(), steps) == t;
      OneStepMore(OneMachine(), Start(), steps, step);
    }
    assert ClosedUnderSteps(HasARun);
  }

  lemma Go(s: State, step: Step) returns (s': State)
    requires Reachable(s) && Enabled(OneMachine(), s, step)
    ensures s' == Apply(OneMachine(), s, step) && Reachable(s')
  {
    s' := Apply(OneMachine(), s, step);
  }

  /** A step that leaves the record alone. */
  lemma Turn(s: State, step: Step) returns (s': State)
    requires Reachable(s) && Enabled(OneMachine(), s, step)
    requires !step.Advance? && !step.Crash? && !step.Join? && !step.TickWrite? && Writes(OneMachine(), s, step).None?
    ensures Reachable(s') && s'.rec == s.rec && s'.lease == LeaseAfter(OneMachine(), s, step)
    ensures s'.cancel == CancelAfter(s, step) && s'.now == s.now && s'.gone == s.gone && s'.endings == s.endings
    ensures s'.procs == s.procs[step.p := Place(OneMachine(), s, step, s.procs[step.p])]
  {
    s' := Go(s, step);
  }

  /** The ending a summary is, when a step that may end an attempt saves it. */
  function EndingsOf(saved: Rec, p: Proc): seq<Ending> {
    if Settled(saved.status) then [Ending(saved.attempt, p, saved.status)] else []
  }

  /** A step that saves a summary. */
  lemma Save(s: State, step: Step, saved: Rec) returns (s': State)
    requires Reachable(s) && Enabled(OneMachine(), s, step) && Writes(OneMachine(), s, step) == Some(saved)
    ensures Reachable(s') && s'.rec == saved && s'.lease == s.lease
    ensures s'.cancel == s.cancel && s'.now == s.now && s'.gone == s.gone
    ensures s'.endings == s.endings + if EndsAttempt(step) then EndingsOf(saved, step.p) else []
    ensures s'.procs == s.procs[step.p := Place(OneMachine(), s, step, s.procs[step.p])]
  {
    s' := Go(s, step);
  }

  /** The same but for the record, the lease and where the processes stand. */
  ghost predicate Alike(s: State, s': State) {
    s'.now == s.now && s'.cancel == s.cancel && s'.gone == s.gone && s'.endings == s.endings
  }

  lemma Begin() returns (s: State)
    ensures Reachable(s) && Alike(Start(), s) && s.rec == Rec(Queued, 1) && s.lease == None
    ensures s.procs == map[0 := Idle, 1 := Idle]
  {
    s := Go(Start(), Join(0));
    s := Go(s, Join(1));
  }

  /** A process that took the job up from QUEUED, on its way to announce it. */
  lemma Opens(s: State, p: Proc) returns (s': State)
    requires Reachable(s) && s.rec == Rec(Queued, 1) && !s.cancel && p in s.procs && s.procs[p] == Idle
    ensures Reachable(s') && Alike(s, s') && s'.rec == s.rec
    ensures s'.lease == Some(LeaseFor(OneMachine().who(p), s.now, 30))
    ensures s'.procs == s.procs[p := Starts(Rec(Running, 1))]
  {
    s' := Turn(s, RunJob(p));
    s' := Turn(s', SaveLease(p));
    s' := Turn(s', CheckCancel(p));
  }

  lemma Announce(s: State, p: Proc) returns (s': State)
    requires Reachable(s) && p in s.procs && s.procs[p].Starts?
    ensures Reachable(s') && Alike(s, s') && s'.rec == s.procs[p].job && s'.lease == s.lease
    ensures s'.procs == s.procs[p := Drives(s.procs[p].job, Quiet)]
  {
    s' := Save(s, PersistRunning(p), s.procs[p].job);
  }

  lemma Launch(s: State) returns (s': State)
    requires Reachable(s) && s.rec == Rec(Queued, 1) && !s.cancel && 0 in s.procs && s.procs[0] == Idle
    ensures Reachable(s') && Alike(s, s') && s'.rec == Rec(Running, 1)
    ensures s'.lease == Some(LeaseFor(OneMachine().who(0), s.now, 30))
    ensures s'.procs == s.procs[0 := Drives(Rec(Running, 1), Quiet)]
  {
    s' := Opens(s, 0);
    s' := Announce(s', 0);
  }

  /** A run ends, and its ending is written. */
  lemma EndIt(s: State, p: Proc, status: Status) returns (s': State)
    requires Reachable(s) && Stopped(status) && p in s.procs && s.procs[p] == Drives(Rec(Running, 1), Quiet)
    ensures Reachable(s') && Alike(s, s'.(endings := s.endings)) && s'.rec == Rec(status, 1) && s'.lease == s.lease
    ensures s'.procs == s.procs[p := Releases(Rec(status, 1))] && s'.endings == s.endings + EndingsOf(s'.rec, p)
  {
    s' := Turn(s, Finish(p, status));
    s' := Save(s', PersistEnding(p), s'.procs[p].job);
  }

  /** A process opens the next attempt and announces it. */
  lemma Resume(s: State, p: Proc) returns (s': State)
    requires Reachable(s) && Reopenable(s.rec.status) && p in s.procs && s.procs[p] == Idle
    ensures Reachable(s') && Alike(s.(cancel := false), s') && s'.rec == Rec(Running, s.rec.attempt + 1)
    ensures s'.lease == Some(LeaseFor(OneMachine().who(p), s.now, 30))
    ensures s'.procs == s.procs[p := Drives(s'.rec, Quiet)]
  {
    s' := Turn(s, ResumeJob(p));
    s' := Turn(s', ClearCancel(p));
    s' := Turn(s', SaveLease(p));
    s' := Turn(s', CheckCancel(p));
    s' := Announce(s', p);
  }

  // ---------- a lease let go ----------

  /** An ended run gives its lease up after its ending is written, and does not look whose lease it is: when
      the job is resumed elsewhere in between, the new attempt is left RUNNING without one. */
  lemma AReleaseCanTakeTheNextLease()
    ensures exists s :: Reachable(s) && s.rec == Rec(Running, 2) && s.lease.None?
  {
    var s := Begin();
    s := Launch(s);
    s := EndIt(s, 0, Failed);
    s := Resume(s, 1);
    s := Turn(s, Release(0));
  }

  // ---------- what was read before ----------

  /** Two processes read QUEUED: one runs the job to its end, the other runs it again. */
  lemma TwoOpenersEndOneAttemptTwice()
    ensures exists s :: Reachable(s) && s.endings == [Ending(1, 0, Done), Ending(1, 1, Failed)]
  {
    var s := TwoOpeners();
    s := Announce(s, 1);
    s := EndIt(s, 1, Failed);
  }

  /** And between the two, RUNNING is written over DONE. */
  lemma ASecondOpenerCanCoverDone()
    ensures exists s :: Reachable(s) && s.rec == Rec(Done, 1) && Enabled(OneMachine(), s, PersistRunning(1))
                        && Apply(OneMachine(), s, PersistRunning(1)).rec == Rec(Running, 1)
  {
    var s := TwoOpeners();
  }

  lemma TwoOpeners() returns (s: State)
    ensures Reachable(s) && s.rec == Rec(Done, 1) && s.endings == [Ending(1, 0, Done)]
    ensures 1 in s.procs && s.procs[1] == Starts(Rec(Running, 1))
  {
    s := Begin();
    s := Opens(s, 1);
    s := Launch(s);
    s := EndIt(s, 0, Done);
  }

  /** A canceller that read QUEUED writes its CANCELLED over whatever is there by then, and ends the attempt again:
      a failure that was its owner's ending, or DONE. */
  lemma ATombstoneCanCoverAnEnding(ending: Status)
    requires ending == Failed || ending == Done
    ensures exists s :: Reachable(s) && s.rec == Rec(Cancelled, 1)
                        && s.endings == [Ending(1, 0, ending), Ending(1, 1, Cancelled)]
  {
    var s := Begin();
    s := Turn(s, CancelCall(1));
    s := Launch(s);
    s := EndIt(s, 0, ending);
    s := Turn(s, RequestCancel(1));
    s := Save(s, WriteTombstone(1), Rec(Cancelled, 1));
  }

  /** One that read NEEDS_INPUT writes it over the next attempt, which runs on. */
  lemma ATombstoneCanTakeTheAttemptBack()
    ensures exists s :: Reachable(s) && s.rec == Rec(Cancelled, 1) && 0 in s.procs
                        && s.procs[0] == Drives(Rec(Running, 2), Quiet)
  {
    var s := Begin();
    s := Launch(s);
    s := EndIt(s, 0, NeedsInput);
    s := Turn(s, Release(0));
    s := Turn(s, CancelCall(1));
    s := Resume(s, 0);
    s := Save(s, WriteTombstone(1), s.procs[1].job.(status := Cancelled));
  }

  // ---------- a resume that is refused ----------

  /** A resume does not look at `_begin`'s refusal: a stop requested after the old one was cleared is
      written down, and the run is driven all the same, without a lease, until its first heartbeat. */
  lemma ARefusedResumeIsDriven()
    ensures exists s :: Reachable(s) && s.rec == Rec(Cancelled, 2) && s.lease.None? && 0 in s.procs
                        && s.procs[0] == Drives(Rec(Cancelled, 2), Quiet)
  {
    var s := RefusedResume();
  }

  /** And ends its attempt a second time. */
  lemma ARefusedResumeEndsTwice()
    ensures exists s :: Reachable(s) && s.rec == Rec(Failed, 2)
                        && s.endings == [Ending(1, 0, Failed), Ending(2, 0, Cancelled), Ending(2, 0, Failed)]
  {
    var s := RefusedResume();
    s := Turn(s, Finish(0, Failed));
    s := Save(s, PersistEnding(0), Rec(Failed, 2));
  }

  lemma RefusedResume() returns (s: State)
    ensures Reachable(s) && s.rec == Rec(Cancelled, 2) && s.lease.None? && 0 in s.procs
    ensures s.procs[0] == Drives(Rec(Cancelled, 2), Quiet)
    ensures s.endings == [Ending(1, 0, Failed), Ending(2, 0, Cancelled)]
  {
    s := FailsUnderACanceller();
    s := Turn(s, Release(0));
    s := Turn(s, ResumeJob(0));
    s := RefusedThen(s);
  }

  /** A run fails while a canceller that read QUEUED has not yet requested the stop. */
  lemma FailsUnderACanceller() returns (s: State)
    ensures Reachable(s) && s.rec == Rec(Failed, 1) && s.endings == [Ending(1, 0, Failed)]
    ensures s.procs == map[0 := Releases(Rec(Failed, 1)), 1 := Asks(Rec(Queued, 1))]
  {
    s := Begin();
    s := Turn(s, CancelCall(1));
    s := Launch(s);
    s := EndIt(s, 0, Failed);
  }

  lemma RefusedThen(s: State) returns (s': State)
    requires Reachable(s) && 0 in s.procs && s.procs[0] == Clears(Rec(Failed, 2))
    requires 1 in s.procs && s.procs[1] == Asks(Rec(Queued, 1))
    ensures Reachable(s') && s'.rec == Rec(Cancelled, 2) && s'.lease.None? && 0 in s'.procs
    ensures s'.procs[0] == Drives(Rec(Cancelled, 2), Quiet) && s'.endings == s.endings + [Ending(2, 0, Cancelled)]
  {
    s' := Turn(s, ClearCancel(0));
    s' := Turn(s', RequestCancel(1));
    s' := Turn(s', SaveLease(0));
    s' := RefusedAtItsCheck(s');
  }

  lemma RefusedAtItsCheck(s: State) returns (s': State)
    requires Reachable(s) && s.cancel && 0 in s.procs && s.procs[0] == Checks(Rec(Failed, 2), true)
    ensures Reachable(s') && s'.rec == Rec(Cancelled, 2) && s'.lease.None? && 0 in s'.procs
    ensures s'.procs[0] == Drives(Rec(Cancelled, 2), Quiet) && s'.endings == s.endings + [Ending(2, 0, Cancelled)]
  {
    s' := Turn(s, CheckCancel(0));
    s' := Save(s', PersistRefusal(0), Rec(Cancelled, 2));
    s' := Turn(s', ReleaseRefusal(0));
  }

  // ---------- takeovers ----------

  /** A canceller finds no lease, because the owner has just ended and let it go; before it reads the summary the
      job is resumed and announced. It holds the new run's owner for dead beyond doubt, and settles over it. */
  lemma AResumeBetweenTwoReadsIsCondemned()
    ensures exists s, s' :: Reachable(s) && Reachable(s') && 1 in s.procs && s.procs[1] == AwaitsSummary(None)
              && s.rec == Rec(Running, 2)
              && s'.rec == Rec(Cancelled, 2) && 0 in s'.procs && s'.procs[0] == Drives(Rec(Running, 2), Quiet)
  {
    var s := Begin();
    s := Launch(s);
    s := AwaitsWithoutALease(s);
    s := Resume(s, 0);
    var s' := Condemns(s);
  }

  lemma AwaitsWithoutALease(s: State) returns (s': State)
    requires Reachable(s) && s.rec == Rec(Running, 1) && s.procs == map[0 := Drives(Rec(Running, 1), Quiet), 1 := Idle]
    ensures Reachable(s') && s'.rec == Rec(Failed, 1) && s'.lease.None?
    ensures s'.procs == map[0 := Idle, 1 := AwaitsSummary(None)]
  {
    s' := Turn(s, CancelCall(1));
    s' := Turn(s', RequestCancel(1));
    s' := FailsAndLetsGo(s');
    s' := Turn(s', AwaitControl(1));
  }

  lemma FailsAndLetsGo(s: State) returns (s': State)
    requires Reachable(s) && s.procs == map[0 := Drives(Rec(Running, 1), Quiet), 1 := Awaits]
    ensures Reachable(s') && s'.rec == Rec(Failed, 1) && s'.lease.None?
    ensures s'.procs == map[0 := Idle, 1 := Awaits]
  {
    s' := EndIt(s, 0, Failed);
    s' := Turn(s', Release(0));
  }

  lemma Condemns(s: State) returns (s': State)
    requires Reachable(s) && s.rec == Rec(Running, 2) && s.procs.Keys == {0, 1}
    requires s.procs[0] == Drives(Rec(Running, 2), Quiet) && s.procs[1] == AwaitsSummary(None)
    ensures Reachable(s') && s'.rec == Rec(Cancelled, 2) && 0 in s'.procs
    ensures s'.procs[0] == Drives(Rec(Running, 2), Quiet)
  {
    s' := Turn(s, AwaitSummary(1, {0, 1}));
    s' := FencesAtOnce(s');
  }

  lemma FencesAtOnce(s: State) returns (s': State)
    requires Reachable(s) && s.rec == Rec(Running, 2) && s.procs.Keys == {0, 1}
    requires s.procs[1] == Fences(Rec(Running, 2), None, Cancelled)
    ensures Reachable(s') && s'.rec == Rec(Cancelled, 2) && 0 in s'.procs && s'.procs[0] == s.procs[0]
  {
    s' := Turn(s, Fence(1, {0, 1}));
    s' := Save(s', Settle(1), Rec(Cancelled, 2));
  }

  /** A process that starts up finds the lease of a job that reads RUNNING expired, and fences it. */
  lemma Fenced(s: State, p: Proc, pids: set<int>) returns (s': State)
    requires Reachable(s) && s.rec == Rec(Running, 1) && p in s.procs && s.procs[p] == Idle
    requires s.lease.Some? && Expired(s.lease.value, s.now) && TruePids(OneMachine(), s, p, pids)
    ensures Reachable(s') && Alike(s, s') && s'.rec == s.rec
    ensures s'.lease == Some(LeaseFor(OneMachine().who(p), s.now, 0))
    ensures s'.procs == s.procs[p := if DeathIsCertain(s.lease, OneMachine().who(p), pids) then Settles(s.rec, Failed)
                                     else Waits(s.rec, Failed, {})]
  {
    s' := Turn(s, RecoverRead(p));
    s' := Turn(s', RecoverControl(p, pids));
    s' := Turn(s', Fence(p, pids));
  }

  /** Process 1 fences a stalled owner and dies waiting for it. */
  lemma AFencerDies(s: State) returns (s': State)
    requires Reachable(s) && s.now == 0 && s.rec == Rec(Running, 1) && s.gone == {} && s.endings == []
    requires s.lease == Some(LeaseFor(OneMachine().who(0), 0, 30))
    requires s.procs == map[0 := Drives(Rec(Running, 1), Quiet), 1 := Idle]
    ensures Reachable(s') && s'.now == 30 && s'.rec == s.rec && s'.gone == {1} && s'.endings == []
    ensures s'.lease == Some(LeaseFor(OneMachine().who(1), 30, 0))
    ensures s'.procs == map[0 := Drives(Rec(Running, 1), Quiet)]
  {
    s' := Go(s, Advance(30));
    s' := Fenced(s', 1, {0, 1});
    s' := Go(s', Crash(1));
    assert s'.procs == map[0 := Drives(Rec(Running, 1), Quiet)];
  }

  /** The lease a fencer leaves names the fencer: once that one is dead, its missing pid reads as proof that
      the owner is. The next takeover settles without waiting, and a live owner ends the attempt again. */
  lemma ADeadFencerReadsAsADeadOwner()
    ensures exists s :: Reachable(s) && s.endings == [Ending(1, 2, Failed), Ending(1, 0, Done)]
  {
    var s := Begin();
    s := Launch(s);
    s := AFencerDies(s);
    s := Go(s, Join(2));
    s := Fenced(s, 2, {0, 2});
    s := SettledThenEnded(s, 2);
  }

  lemma SettledThenEnded(s: State, p: Proc) returns (s': State)
    requires Reachable(s) && s.rec == Rec(Running, 1) && s.endings == [] && p != 0 && p in s.procs && 0 in s.procs
    requires s.procs[p] == Settles(Rec(Running, 1), Failed) && s.procs[0] == Drives(Rec(Running, 1), Quiet)
    ensures Reachable(s') && s'.endings == [Ending(1, p, Failed), Ending(1, 0, Done)]
  {
    s' := Save(s, Settle(p), s.procs[p].job.(status := s.procs[p].ending));
    s' := EndIt(s', 0, Done);
  }

  /** A live owner that does not tick within the wait is settled over too. */
  lemma ASlowOwnerIsSettledOver()
    ensures exists s :: Reachable(s) && s.endings == [Ending(1, 1, Failed), Ending(1, 0, Done)]
  {
    var s := Begin();
    s := Launch(s);
    s := Go(s, Advance(30));
    s := Fenced(s, 1, {0, 1});
    s := Turn(s, WaitOver(1));
    s := SettledThenEnded(s, 1);
  }
}
