/** An owner that renews in time (jobsmith/engine/ownership.py, jobsmith/engine/manager.py): nobody fences it, and
    with each store call that opens, fences or lets go looking at what it acts on, no takeover has to wait. */
module Renewals {
  import opened Options
  import opened Jobs
  import opened Ownership
  import opened Leases
  import opened LeaseRuns
  import opened Attempts
  import opened Endings
  import opened Takeovers

  /** The process must be renewing its lease: it drives, or is about to. */
  predicate Holds(m: Mode) {
    m.Checks? || m.Starts? || Driving(m)
  }

  ghost predicate HeldByALiveOne(s: State) {
    s.lease.Some? && s.lease.value.owner in s.procs && Holds(s.procs[s.lease.value.owner])
  }

  /** Renewals come too late: the clock passes the expiry of a lease whose owner holds it. */
  ghost predicate PassesExpiry(c: Config, s: State, step: Step) {
    step.Advance? && HeldByALiveOne(s) && Expired(s.lease.value, step.to)
  }

  ghost predicate FencesALiveOwner(c: Config, s: State, step: Step) {
    step.Fence? && Enabled(c, s, step) && HeldByALiveOne(s)
  }

  /** Whoever is to be fenced on the strength of a living process's lease let that lease expire. */
  ghost predicate Condemned(s: State, p: Proc) {
    p in s.procs && s.procs[p].Fences? && s.procs[p].seen.Some? && s.procs[p].seen.value.owner in s.procs ==>
      Expired(s.procs[p].seen.value, s.now)
  }

  ghost predicate InTime(c: Config, s: State) {
    && c.ttl > 0 && Leased(c, s)
    && (HeldByALiveOne(s) ==> !Expired(s.lease.value, s.now))
    && forall p {:trigger Condemned(s, p)} :: Condemned(s, p)
  }

  /** A lease of a living process is judged gone exactly when it has expired. */
  lemma GoneExactlyWhenExpired(c: Config, s: State, p: Proc, lease: Lease, pids: set<int>)
    requires WellNamed(c) && Owns(c, s, Some(lease)) && lease.owner in s.procs && TruePids(c, s, p, pids)
    ensures OwnerIsGone(Some(lease), c.who(p), s.now, pids) <==> Expired(lease, s.now)
  {
  }

  lemma JudgesInTime(c: Config, s: State, step: Step)
    requires InTime(c, s) && Enabled(c, s, step) && (step.AwaitSummary? || step.RecoverControl?)
    ensures Condemned(Apply(c, s, step), step.p)
  {
    var p := step.p;
    var lease := if step.AwaitSummary? then s.procs[p].seen else s.lease;
    if lease.Some? && lease.value.owner in s.procs { GoneExactlyWhenExpired(c, s, p, lease.value, step.pids); }
  }

  lemma CondemnsOnlyFrom(c: Config, s: State, step: Step, m: Mode)
    requires !step.Advance? && InPlace(c, s, step, m) && Place(c, s, step, m).Fences?
    ensures step.AwaitSummary? || step.RecoverControl?
  {
  }

  lemma StaysCondemned(c: Config, s: State, step: Step, q: Proc)
    requires InTime(c, s) && Enabled(c, s, step)
    ensures Condemned(Apply(c, s, step), q)
  {
    var s' := Apply(c, s, step);
    if q in s'.procs && s'.procs[q].Fences? {
      if step.Advance? || q != step.p {
        OthersStandStill(c, s, step, q);
        NobodyComesBack(c, s, step);
        assert Condemned(s, q);
      } else {
        CondemnsOnlyFrom(c, s, step, if step.Join? then Idle else s.procs[q]);
        JudgesInTime(c, s, step);
      }
    }
  }

  lemma HoldsInTime(c: Config, s: State, step: Step)
    requires InTime(c, s) && Enabled(c, s, step) && !PassesExpiry(c, s, step)
    ensures HeldByALiveOne(Apply(c, s, step)) ==> !Expired(Apply(c, s, step).lease.value, Apply(c, s, step).now)
  {
    var s' := Apply(c, s, step);
    if HeldByALiveOne(s') {
      var q := s'.lease.value.owner;
      if step.Advance? || q != step.p { OthersStandStill(c, s, step, q); }
    }
  }

  lemma StepInTime(c: Config, s: State, step: Step)
    requires InTime(c, s) && Enabled(c, s, step) && !PassesExpiry(c, s, step)
    ensures InTime(c, Apply(c, s, step))
    ensures FencesALiveOwner(c, s, step) ==> FencesAnother(c, s, step)
  {
    StepIsLeased(c, s, step);
    HoldsInTime(c, s, step);
    forall q ensures Condemned(Apply(c, s, step), q) {
      StaysCondemned(c, s, step, q);
    }
    if FencesALiveOwner(c, s, step) { assert Condemned(s, step.p); }
  }

  /** On every run whose renewals come in time, and with nothing else asked of it: the lease of a live owner is
      fenced by nobody but a taker that judged another lease than the one it overwrites. */
  lemma {:induction false} NoLiveOwnerIsFencedInTime(c: Config, s: State, steps: seq<Step>)
    requires InTime(c, s) && IsRun(c, s, steps) && NeverTakes(c, s, steps, PassesExpiry)
    ensures NeverTakes(c, s, steps, FencesAnother) ==> NeverTakes(c, s, steps, FencesALiveOwner)
    decreases |steps|
  {
    if steps != [] {
      StepInTime(c, s, steps[0]);
      NoLiveOwnerIsFencedInTime(c, Apply(c, s, steps[0]), steps[1..]);
    }
  }

  // ---------- without waiting ----------

  /** An opener leases, or announces, or a process lets go, without looking at whose the job and the lease are. */
  ghost predicate ActsUnseeing(c: Config, s: State, step: Step) {
    && Enabled(c, s, step)
    && (|| (step.SaveLease? && !UpToDate(s, step.p))
        || (step.PersistRunning? && (s.lease.None? || s.lease.value.owner != step.p))
        || (LetsGo(step) && s.lease.Some? && s.lease.value.owner != step.p))
  }

  ghost predicate Careless(c: Config, s: State, step: Step) {
    SavesOverAnother(c, s, step) || FencesAnother(c, s, step) || RefusesAResume(c, s, step) || ActsUnseeing(c, s, step)
    || PassesExpiry(c, s, step)
  }

  /** Whoever drives holds the lease. */
  ghost predicate DrivesUnderItsOwn(s: State) {
    forall q {:trigger s.procs[q]} :: q in s.procs && Driving(s.procs[q]) ==>
      s.lease.Some? && s.lease.value.owner == q
  }

  ghost predicate Careful(c: Config, s: State) {
    InOrder(c, s) && InTime(c, s) && DrivesUnderItsOwn(s)
  }

  /** What a takeover would have to wait for holds without: in time and with care, no step is disorderly. */
  lemma CarefulIsOrderly(c: Config, s: State, step: Step)
    requires Careful(c, s) && Enabled(c, s, step) && !Careless(c, s, step)
    ensures !Disorderly(c, s, step)
  {
    if step.ReleaseRefusal? { assert SelfOrder(s, step.p, s.procs[step.p]); }
  }

  /** Nobody leases a job that somebody drives. */
  lemma NobodyLeasesOverARun(c: Config, s: State, p: Proc, q: Proc)
    requires Careful(c, s) && Enabled(c, s, SaveLease(p)) && UpToDate(s, p) && q in s.procs
    ensures !Driving(s.procs[q])
  {
    assert Matches(s.procs[p], s.rec) && SelfOrder(s, q, s.procs[q]);
  }

  lemma LeaseOfARunStays(c: Config, s: State, step: Step, q: Proc)
    requires Careful(c, s) && Enabled(c, s, step) && !Careless(c, s, step)
    requires q in s.procs && Driving(s.procs[q]) && (step.Advance? || q != step.p)
    ensures Apply(c, s, step).lease.Some? && Apply(c, s, step).lease.value.owner == q
  {
    if step.SaveLease? { NobodyLeasesOverARun(c, s, step.p, q); }
    if step.Fence? {
      StepInTime(c, s, step);
    }
  }

  lemma CarefulStep(c: Config, s: State, step: Step)
    requires Careful(c, s) && Enabled(c, s, step) && !Careless(c, s, step)
    ensures Careful(c, Apply(c, s, step))
  {
    var s' := Apply(c, s, step);
    CarefulIsOrderly(c, s, step);
    StepStaysInOrder(c, s, step);
    StepInTime(c, s, step);
    forall q | q in s'.procs && Driving(s'.procs[q]) ensures s'.lease.Some? && s'.lease.value.owner == q {
      if step.Advance? || q != step.p {
        OthersStandStill(c, s, step, q);
        LeaseOfARunStays(c, s, step, q);
      } else {
        DriverKeepsItsLease(c, s, step);
      }
    }
  }

  lemma DriverKeepsItsLease(c: Config, s: State, step: Step)
    requires Careful(c, s) && Enabled(c, s, step) && !Careless(c, s, step) && !step.Advance? && !step.Crash?
    requires step.p in Apply(c, s, step).procs && Driving(Apply(c, s, step).procs[step.p])
    ensures Apply(c, s, step).lease.Some? && Apply(c, s, step).lease.value.owner == step.p
  {
    if !step.Join? {
      DrivesOnlyFrom(c, s, step, s.procs[step.p]);
      assert SelfOrder(s, step.p, s.procs[step.p]);
    }
  }

  lemma {:induction false} CarefulRun(c: Config, s: State, steps: seq<Step>)
    requires Careful(c, s) && IsRun(c, s, steps) && NeverTakes(c, s, steps, Careless)
    ensures NeverTakes(c, s, steps, Disorderly) && NeverTakes(c, s, steps, FencesALiveOwner)
    ensures Careful(c, EndOf(c, s, steps))
    decreases |steps|
  {
    if steps != [] {
      CarefulIsOrderly(c, s, steps[0]);
      StepInTime(c, s, steps[0]);
      CarefulStep(c, s, steps[0]);
      CarefulRun(c, Apply(c, s, steps[0]), steps[1..]);
    }
  }

  /** Renewals in time, and each store call that opens, announces, fences or lets go looking at what it acts on:
      no live owner is ever fenced, its lease is its own and current as long as it drives, and the run is an
      orderly one, so each attempt is settled once, with nothing asked of who dies or of how long a taker
      waits. */
  lemma RenewingOwnersKeepTheirJobs(c: Config, steps: seq<Step>)
    requires c.ttl > 0 && WellNamed(c) && IsRun(c, Start(), steps) && NeverTakes(c, Start(), steps, Careless)
    ensures NeverTakes(c, Start(), steps, FencesALiveOwner) && NeverTakes(c, Start(), steps, Disorderly)
    ensures var s := EndOf(c, Start(), steps);
            forall q :: q in s.procs && Driving(s.procs[q]) ==>
              s.lease.Some? && s.lease.value.owner == q && !Expired(s.lease.value, s.now)
  {
    CarefulRun(c, Start(), steps);
  }
}
