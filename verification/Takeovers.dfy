/** Taking a job over (jobsmith/engine/manager.py, ownership.py): exactly when a death held for certain is that
    of a live run, and the protocol of leases, fences and answers settling each attempt once. */
module Takeovers {
  import opened Options
  import opened Jobs
  import opened Ownership
  import opened Leases
  import opened LeaseRuns
  import opened Attempts
  import opened Endings

  // ---------- whose leases there are ----------

  /** A lease is its owner's own, and its owner lives or has lived. */
  ghost predicate Owns(c: Config, s: State, lease: Option<Lease>) {
    lease.Some? ==> Owned(lease.value, c.who(lease.value.owner)) && lease.value.owner in s.procs.Keys + s.gone
  }

  ghost predicate Leased(c: Config, s: State) {
    && WellNamed(c) && Owns(c, s, s.lease) && s.procs.Keys !! s.gone
    && forall p {:trigger s.procs[p]} :: p in s.procs && Judging(s.procs[p]) ==>
         Owns(c, s, s.procs[p].seen)
  }

  lemma NobodyComesBack(c: Config, s: State, step: Step)
    requires Enabled(c, s, step) && s.procs.Keys !! s.gone
    ensures Apply(c, s, step).procs.Keys !! Apply(c, s, step).gone
    ensures s.procs.Keys + s.gone <= Apply(c, s, step).procs.Keys + Apply(c, s, step).gone
    ensures forall p :: p in Apply(c, s, step).procs && p in s.procs.Keys + s.gone ==> p in s.procs
  {
  }

  predicate Judging(m: Mode) {
    m.AwaitsSummary? || m.Fences?
  }

  lemma SeesAStoredLease(c: Config, s: State, step: Step, m: Mode)
    requires !step.Advance? && InPlace(c, s, step, m) && Judging(Place(c, s, step, m))
    ensures Place(c, s, step, m).seen == s.lease || (Judging(m) && Place(c, s, step, m).seen == m.seen)
  {
  }

  lemma StepIsLeased(c: Config, s: State, step: Step)
    requires Leased(c, s) && Enabled(c, s, step)
    ensures Leased(c, Apply(c, s, step))
  {
    var s' := Apply(c, s, step);
    NobodyComesBack(c, s, step);
    forall q | q in s'.procs && Judging(s'.procs[q]) ensures Owns(c, s', s'.procs[q].seen) {
      if step.Advance? || q != step.p {
        OthersStandStill(c, s, step, q);
      } else if !step.Join? {
        SeesAStoredLease(c, s, step, s.procs[q]);
      }
    }
  }

  // ---------- a lease that misleads ----------

  ghost predicate OthersDrive(s: State, p: Proc) {
    exists q :: q in s.procs && q != p && Driving(s.procs[q])
  }

  /** A run is alive, and the lease over it is nobody's, or a dead process's. */
  ghost predicate Haunted(s: State) {
    (s.lease.None? || s.lease.value.owner !in s.procs) && exists q :: q in s.procs && Driving(s.procs[q])
  }

  /** The steps that bring it about: the holder of the lease dies while another drives, a lease is let go while
      another drives (or by a resume that was refused, and drives), or a run is announced under such a lease. */
  ghost predicate Haunts(c: Config, s: State, step: Step) {
    || (step.Crash? && s.lease.Some? && s.lease.value.owner == step.p && OthersDrive(s, step.p))
    || (LetsGo(step) && OthersDrive(s, step.p))
    || (step.ReleaseRefusal? && step.p in s.procs && s.procs[step.p].RefusalWritten? && s.procs[step.p].resumed)
    || (step.PersistRunning? && (s.lease.None? || s.lease.value.owner !in s.procs))
  }

  lemma DrivesOnlyFrom(c: Config, s: State, step: Step, m: Mode)
    requires !step.Advance? && InPlace(c, s, step, m) && Driving(Place(c, s, step, m))
    ensures Driving(m) || step.PersistRunning? || (step.ReleaseRefusal? && m.resumed)
  {
  }

  /** A step leaves a live run under a lease that misleads if and only if it is one of those. */
  lemma HauntsExactlyWhen(c: Config, s: State, step: Step)
    requires WellNamed(c) && Enabled(c, s, step) && !Haunted(s)
    ensures Haunted(Apply(c, s, step)) <==> Haunts(c, s, step)
  {
    var s' := Apply(c, s, step);
    if Haunted(s') {
      var q :| q in s'.procs && Driving(s'.procs[q]);
      if step.Advance? || q != step.p {
        OthersStandStill(c, s, step, q);
      } else {
        DrivesOnlyFrom(c, s, step, if step.Join? then Idle else s.procs[q]);
      }
    }
    if Haunts(c, s, step) { HauntingHaunts(c, s, step); }
  }

  lemma HauntingHaunts(c: Config, s: State, step: Step)
    requires WellNamed(c) && Enabled(c, s, step) && Haunts(c, s, step)
    ensures Haunted(Apply(c, s, step))
  {
    var s' := Apply(c, s, step);
    if q :| q in s.procs && q != step.p && Driving(s.procs[q]) && (step.Crash? || LetsGo(step)) {
      assert s'.procs[q] == s.procs[q];
    } else {
      assert Driving(s'.procs[step.p]);
    }
  }

  /** A fence that overwrites the lease it judged, while another process drives: the death is held for certain
      if and only if that lease is gone, or is that of a dead process of this machine whose pid is free. */
  lemma CertainExactlyWhen(c: Config, s: State, p: Proc, pids: set<int>)
    requires Leased(c, s) && Enabled(c, s, Fence(p, pids)) && s.procs[p].seen == s.lease && OthersDrive(s, p)
    ensures DeathIsCertain(s.lease, c.who(p), pids) <==>
              s.lease.None? || (s.lease.value.owner !in s.procs && SameMachine(s.lease.value, c.who(p))
                                && s.lease.value.pid !in pids)
    ensures DeathIsCertain(s.lease, c.who(p), pids) ==> Haunted(s)
  {
    assert !Driving(s.procs[p]);
  }

  /** A process that starts up, and finds the owner gone. */
  lemma FindsItGone(c: Config, s: State, r: Proc, pids: set<int>)
    requires s.rec.status == Running && r in s.procs && s.procs[r] == Idle && TruePids(c, s, r, pids)
    requires DeathIsCertain(s.lease, c.who(r), pids)
    ensures var steps := [RecoverRead(r), RecoverControl(r, pids)];
            IsRun(c, s, steps) &&
            var s' := EndOf(c, s, steps);
            && s'.procs == s.procs[r := Fences(s.rec, s.lease, Failed)] && s'.rec == s.rec && s'.lease == s.lease
  {
    var s1 := Apply(c, s, RecoverRead(r));
    OneStepRun(c, s1, RecoverControl(r, pids));
    OneMoreBefore(c, s, RecoverRead(r), [RecoverControl(r, pids)]);
  }

  /** And there it can be: a process that starts up on that machine settles over the live run without waiting. */
  lemma TheHauntedIsCondemned(c: Config, s: State, q: Proc, r: Proc, pids: set<int>)
    requires s.rec.status == Running && q in s.procs && Driving(s.procs[q]) && r in s.procs && s.procs[r] == Idle
    requires TruePids(c, s, r, pids)
    requires s.lease.None? || (SameMachine(s.lease.value, c.who(r)) && s.lease.value.pid !in pids)
    ensures var steps := [RecoverRead(r), RecoverControl(r, pids)];
            IsRun(c, s, steps) && Enabled(c, EndOf(c, s, steps), Fence(r, pids)) &&
            var s' := Apply(c, EndOf(c, s, steps), Fence(r, pids));
            q in s'.procs && s'.procs[q] == s.procs[q] && s'.procs[r] == Settles(s.rec, Failed)
  {
    FindsItGone(c, s, r, pids);
  }

  lemma OneMoreBefore(c: Config, s: State, step: Step, steps: seq<Step>)
    requires Enabled(c, s, step) && IsRun(c, Apply(c, s, step), steps)
    ensures IsRun(c, s, [step] + steps) && EndOf(c, s, [step] + steps) == EndOf(c, Apply(c, s, step), steps)
  {
    assert ([step] + steps)[1..] == steps;
  }

  /** A fence that overwrites the lease it judged, and holds a death for certain while another process drives. */
  ghost predicate SkipsItsWait(c: Config, s: State, step: Step) {
    step.Fence? && Enabled(c, s, step) && s.procs[step.p].seen == s.lease && OthersDrive(s, step.p)
    && DeathIsCertain(s.lease, c.who(step.p), step.pids)
  }

  /** Along a whole run no live run is ever under a lease that misleads, if and only if no step brings it about;
      and then no fence that overwrites the lease it judged skips its wait while a run is alive. */
  lemma {:induction false} NeverHauntedExactlyWhen(c: Config, s: State, steps: seq<Step>)
    requires Leased(c, s) && IsRun(c, s, steps) && !Haunted(s)
    ensures NeverAt(c, s, steps, Haunted) <==> NeverTakes(c, s, steps, Haunts)
    ensures NeverTakes(c, s, steps, Haunts) ==> NeverTakes(c, s, steps, SkipsItsWait)
    decreases |steps|
  {
    if steps != [] {
      StepIsLeased(c, s, steps[0]);
      HauntsExactlyWhen(c, s, steps[0]);
      if SkipsItsWait(c, s, steps[0]) { CertainExactlyWhen(c, s, steps[0].p, steps[0].pids); }
      if !Haunts(c, s, steps[0]) { NeverHauntedExactlyWhen(c, Apply(c, s, steps[0]), steps[1..]); }
    }
  }

  // ---------- settled once, by the protocol as it is ----------

  /** An opener or a canceller saves over a record it has not read; a taker, over a later attempt. */
  ghost predicate SavesOverAnother(c: Config, s: State, step: Step) {
    && Saves(c, s, step)
    && (if step.Settle? then s.procs[step.p].job.attempt != s.rec.attempt
        else (step.PersistRunning? || step.PersistRefusal? || step.WriteTombstone?) && !UpToDate(s, step.p))
  }

  /** A taker overwrites another lease than the one it judged. */
  ghost predicate FencesAnother(c: Config, s: State, step: Step) {
    step.Fence? && Enabled(c, s, step) && s.procs[step.p].seen != s.lease
  }

  /** A taker's wait is over, its fence stands, and a live owner has neither renewed nor stopped. */
  ghost predicate GoesUnanswered(c: Config, s: State, step: Step) {
    && step.WaitOver? && Enabled(c, s, step) && s.lease.Some? && s.lease.value.owner == step.p
    && exists q :: q in s.procs && q != step.p && Driving(s.procs[q]) && q !in s.procs[step.p].answered
  }

  /** What the protocol does not exclude, and each attempt being settled once needs excluded. */
  ghost predicate Disorderly(c: Config, s: State, step: Step) {
    SavesOverAnother(c, s, step) || Haunts(c, s, step) || FencesAnother(c, s, step) || GoesUnanswered(c, s, step)
    || RefusesAResume(c, s, step)
  }

  predicate Taking(m: Mode) {
    m.Recovers? || m.Fences? || m.Waits? || m.Settles?
  }

  ghost predicate SelfOrder(s: State, p: Proc, m: Mode) {
    && (Driving(m) ==> s.rec == Rec(Running, m.job.attempt) && (m.Drives? ==> m.job.status == Running))
    && (m.Refused? || m.RefusalWritten? ==> !m.resumed)
    && (Taking(m) ==> m.job.attempt <= s.rec.attempt && s.rec.status != Queued)
    && (m.Waits? && s.lease.Some? && s.lease.value.owner == p ==> m.answered == {})
  }

  /** At most one process drives; a taker that settles has left older attempts only behind. */
  ghost predicate PairOrder(a: Mode, b: Mode) {
    !(Driving(a) && Driving(b)) && (b.Settles? && Driving(a) ==> b.job.attempt < a.job.attempt)
  }

  ghost predicate InOrder(c: Config, s: State) {
    && Sound(s) && Leased(c, s) && !Haunted(s) && Increasing(s.endings) && NotAhead(s)
    && (forall p {:trigger s.procs[p]} :: p in s.procs ==> SelfOrder(s, p, s.procs[p]))
    && forall p, q {:trigger s.procs[p], s.procs[q]} ::
         p in s.procs && q in s.procs && p != q ==> PairOrder(s.procs[p], s.procs[q])
  }

  ghost predicate Ready(c: Config, s: State, step: Step) {
    InOrder(c, s) && Enabled(c, s, step) && !Disorderly(c, s, step)
  }

  /** In order, whoever saves goes on from the record, up to date or not; and never over another's run. */
  lemma SavesInOrder(c: Config, s: State, step: Step)
    requires Ready(c, s, step) && Saves(c, s, step)
    ensures GoesOn(Writes(c, s, step).value, s.rec)
    ensures Settled(Writes(c, s, step).value.status) ==> EndingOf(c, s, step).Some?
    ensures EndingOf(c, s, step).Some? && Settled(s.rec.status) ==> Writes(c, s, step).value.attempt == s.rec.attempt + 1
    ensures Writes(c, s, step).value.status == NeedsInput ==> !Settled(s.rec.status)
  {
    var m := s.procs[step.p];
    assert Sane(m) && SelfOrder(s, step.p, m);
    if UpToDate(s, step.p) { UpToDateGoesOn(c, s, step); }
  }

  lemma EndsInOrder(c: Config, s: State, step: Step)
    requires Ready(c, s, step)
    ensures Increasing(Apply(c, s, step).endings) && NotAhead(Apply(c, s, step))
    ensures s.rec.attempt <= Apply(c, s, step).rec.attempt
  {
    if Saves(c, s, step) { SavesInOrder(c, s, step); }
    EndingsStayInOrder(c, s, step);
  }

  lemma NobodySavesOverARun(c: Config, s: State, step: Step, q: Proc)
    requires Ready(c, s, step) && q in s.procs && !step.Advance? && q != step.p && Driving(s.procs[q])
    ensures !Saves(c, s, step)
  {
    if step.p in s.procs {
      var m := s.procs[step.p];
      assert Sane(m) && SelfOrder(s, step.p, m) && (UpToDate(s, step.p) ==> Matches(m, s.rec));
      assert SelfOrder(s, q, s.procs[q]) && PairOrder(s.procs[q], m);
    }
  }

  lemma NobodySavesQueued(c: Config, s: State, step: Step)
    requires Sound(s) && Saves(c, s, step)
    ensures Apply(c, s, step).rec.status != Queued
  {
    SavesNoQueued(c, s, step, s.procs[step.p]);
    SavingIsWritten(c, s, step);
  }

  lemma SavesNoQueued(c: Config, s: State, step: Step, m: Mode)
    requires Saves(c, s, step) && Sane(m) && m == s.procs[step.p]
    ensures Writes(c, s, step).value.status != Queued
  {
  }

  lemma OthersStayInOrder(c: Config, s: State, step: Step, q: Proc)
    requires Ready(c, s, step) && q in Apply(c, s, step).procs && (step.Advance? || q != step.p)
    ensures SelfOrder(Apply(c, s, step), q, Apply(c, s, step).procs[q])
  {
    OthersStandStill(c, s, step, q);
    EndsInOrder(c, s, step);
    assert SelfOrder(s, q, s.procs[q]);
    SavingIsWritten(c, s, step);
    if Saves(c, s, step) { NobodySavesQueued(c, s, step); }
    if Driving(s.procs[q]) && !step.Advance? { NobodySavesOverARun(c, s, step, q); }
  }

  /** A process comes to drive, or to hold what it will write, only with the record as it must be. */
  lemma DrivesInOrder(c: Config, s: State, step: Step)
    requires Ready(c, s, step) && !step.Advance? && !step.Crash? && !step.Join?
    requires Driving(Place(c, s, step, s.procs[step.p]))
    ensures Apply(c, s, step).rec == Rec(Running, Place(c, s, step, s.procs[step.p]).job.attempt)
    ensures Place(c, s, step, s.procs[step.p]).Drives? ==> Place(c, s, step, s.procs[step.p]).job.status == Running
  {
    assert Sane(s.procs[step.p]) && SelfOrder(s, step.p, s.procs[step.p]);
    DrivesOnlyFrom(c, s, step, s.procs[step.p]);
  }

  lemma TakesInOrder(c: Config, s: State, step: Step, m: Mode)
    requires !step.Advance? && InPlace(c, s, step, m) && Taking(Place(c, s, step, m))
    requires Taking(m) ==> m.job.attempt <= s.rec.attempt && s.rec.status != Queued
    ensures Place(c, s, step, m).job.attempt <= s.rec.attempt && s.rec.status != Queued
    ensures Place(c, s, step, m).Waits? ==> Place(c, s, step, m).answered == {}
  {
  }

  lemma RefusesInOrder(c: Config, s: State, step: Step, m: Mode)
    requires !step.Advance? && InPlace(c, s, step, m) && (m.Refused? || m.RefusalWritten? ==> !m.resumed)
    requires step.CheckCancel? ==> !(m.resumed && s.cancel)
    ensures Place(c, s, step, m).Refused? || Place(c, s, step, m).RefusalWritten? ==> !Place(c, s, step, m).resumed
  {
  }

  lemma MovesInOrder(c: Config, s: State, step: Step)
    requires Ready(c, s, step) && !step.Advance? && !step.Crash? && !step.Join?
    ensures SelfOrder(Apply(c, s, step), step.p, Apply(c, s, step).procs[step.p])
  {
    var m := s.procs[step.p];
    assert SelfOrder(s, step.p, m);
    RefusesInOrder(c, s, step, m);
    if Driving(Place(c, s, step, m)) {
      DrivesInOrder(c, s, step);
    } else if Taking(Place(c, s, step, m)) {
      TakesInOrder(c, s, step, m);
      assert !Saves(c, s, step);
    }
  }

  /** A run is announced over a record that reads otherwise, so over no other run. */
  lemma AnnouncedAlone(c: Config, s: State, p: Proc, q: Proc)
    requires Ready(c, s, PersistRunning(p)) && q in s.procs && q != p
    ensures !Driving(s.procs[q])
    ensures s.procs[q].Settles? ==> s.procs[q].job.attempt < s.procs[p].job.attempt
  {
    assert Sane(s.procs[p]) && SelfOrder(s, q, s.procs[q]) && Matches(s.procs[p], s.rec);
  }

  /** A taker comes to settle only when no run is alive. */
  lemma SettlesAlone(c: Config, s: State, step: Step, q: Proc)
    requires Ready(c, s, step) && (step.Fence? || step.WaitOver?) && q in s.procs && q != step.p
    requires Place(c, s, step, s.procs[step.p]).Settles?
    ensures !Driving(s.procs[q])
  {
    assert SelfOrder(s, step.p, s.procs[step.p]);
    if step.Fence? && Driving(s.procs[q]) { CertainExactlyWhen(c, s, step.p, step.pids); }
  }

  lemma PairsStayInOrder(c: Config, s: State, step: Step, q: Proc)
    requires Ready(c, s, step) && !step.Advance? && !step.Crash? && !step.Join? && q in s.procs && q != step.p
    ensures var m := Place(c, s, step, s.procs[step.p]);
            PairOrder(m, s.procs[q]) && PairOrder(s.procs[q], m)
  {
    var p, m := step.p, s.procs[step.p];
    assert PairOrder(m, s.procs[q]) && PairOrder(s.procs[q], m) && SelfOrder(s, p, m);
    if Driving(Place(c, s, step, m)) { DrivesOnlyFrom(c, s, step, m); }
    if step.PersistRunning? { AnnouncedAlone(c, s, p, q); }
    if Place(c, s, step, m).Settles? && (step.Fence? || step.WaitOver?) { SettlesAlone(c, s, step, q); }
  }

  lemma StepStaysInOrder(c: Config, s: State, step: Step)
    requires Ready(c, s, step)
    ensures InOrder(c, Apply(c, s, step))
  {
    var s' := Apply(c, s, step);
    StepIsSound(c, s, step);
    StepIsLeased(c, s, step);
    HauntsExactlyWhen(c, s, step);
    EndsInOrder(c, s, step);
    forall q | q in s'.procs ensures SelfOrder(s', q, s'.procs[q]) {
      if step.Advance? || q != step.p { OthersStayInOrder(c, s, step, q); }
      else if !step.Join? { MovesInOrder(c, s, step); }
    }
    forall q, r | q in s'.procs && r in s'.procs && q != r ensures PairOrder(s'.procs[q], s'.procs[r]) {
      PairsAfter(c, s, step, q, r);
    }
  }

  lemma PairsAfter(c: Config, s: State, step: Step, q: Proc, r: Proc)
    requires Ready(c, s, step) && q in Apply(c, s, step).procs && r in Apply(c, s, step).procs && q != r
    ensures PairOrder(Apply(c, s, step).procs[q], Apply(c, s, step).procs[r])
  {
    if step.Advance? || q != step.p { OthersStandStill(c, s, step, q); }
    if step.Advance? || r != step.p { OthersStandStill(c, s, step, r); }
    if step.Advance? || step.Crash? || step.Join? || (q != step.p && r != step.p) {
      if q in s.procs && r in s.procs { assert PairOrder(s.procs[q], s.procs[r]); }
    } else {
      PairsStayInOrder(c, s, step, if q == step.p then r else q);
    }
  }

  lemma {:induction false} RunStaysInOrder(c: Config, s: State, steps: seq<Step>)
    requires InOrder(c, s) && IsRun(c, s, steps) && NeverTakes(c, s, steps, Disorderly)
    ensures InOrder(c, EndOf(c, s, steps))
    ensures NeverTakes(c, s, steps, GoesBack)
    decreases |steps|
  {
    if steps != [] {
      StepStaysInOrder(c, s, steps[0]);
      OrderNeverGoesBack(c, s, steps[0]);
      RunStaysInOrder(c, Apply(c, s, steps[0]), steps[1..]);
    }
  }

  /** The owner compares nothing before it writes; the protocol sees to it that it is never behind. */
  lemma OrderNeverGoesBack(c: Config, s: State, step: Step)
    requires Ready(c, s, step)
    ensures !GoesBack(c, s, step)
  {
    SavingIsWritten(c, s, step);
    if Saves(c, s, step) { SavesInOrder(c, s, step); }
  }

  ghost predicate SettlesPresent(s: State, p: Proc) {
    p in s.procs && s.procs[p].Settles? && s.procs[p].job.attempt == s.rec.attempt
  }

  /** However openings, watches and takeovers overlap and whoever crashes: as long as no step is disorderly, each
      attempt is settled once, by its owner or by one taker; the attempt never goes down and DONE is for good;
      one process at a time drives, with the record RUNNING for it and a lease over it; and while a taker
      settles the present attempt nobody drives. */
  lemma EachAttemptEndsOnce(c: Config, steps: seq<Step>)
    requires WellNamed(c) && IsRun(c, Start(), steps) && NeverTakes(c, Start(), steps, Disorderly)
    ensures NeverTakes(c, Start(), steps, GoesBack)
    ensures var s := EndOf(c, Start(), steps);
            && (forall i, j :: 0 <= i < j < |s.endings| ==> s.endings[i].attempt < s.endings[j].attempt)
            && (forall p, q :: p in s.procs && q in s.procs && Driving(s.procs[p]) && Driving(s.procs[q]) ==> p == q)
            && (forall p :: p in s.procs && Driving(s.procs[p]) ==>
                  s.rec == Rec(Running, s.procs[p].job.attempt) && s.lease.Some? && Top(s.endings) < s.rec.attempt)
            && forall p, q :: p in s.procs && q in s.procs && p != q && SettlesPresent(s, p) ==> !Driving(s.procs[q])
  {
    RunStaysInOrder(c, Start(), steps);
    var s := EndOf(c, Start(), steps);
    forall p | p in s.procs && Driving(s.procs[p])
      ensures s.rec == Rec(Running, s.procs[p].job.attempt) && s.lease.Some? && Top(s.endings) < s.rec.attempt
    {
      assert SelfOrder(s, p, s.procs[p]);
    }
    forall p, q | p in s.procs && q in s.procs && p != q && SettlesPresent(s, p) ensures !Driving(s.procs[q]) {
      assert PairOrder(s.procs[q], s.procs[p]) && SelfOrder(s, q, s.procs[q]);
    }
  }
}
