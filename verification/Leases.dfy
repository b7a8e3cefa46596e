/** The job engine as several processes run it on one shared store (jobsmith/engine/manager.py,
    ownership.py, repository.py): one job's record, its lease and its cancel request, every store call
    one atomic step, processes interleaved at will and free to crash between any two steps. */
module Leases {
  import opened Options
  import opened Jobs
  import opened Ownership

  type Proc = nat

  /** The summary, as far as ownership goes. */
  datatype Rec = Rec(status: Status, attempt: nat)

  datatype Beat = Quiet | Renewing

  /** Where a process stands with the job: between which two of its store calls, and what it holds. */
  datatype Mode =
    | Idle
    // -- opening an attempt
    | Clears(job: Rec)                      // resumable: to clear the old cancel request
    | Begins(job: Rec, resumed: bool)       // to write its lease
    | Checks(job: Rec, resumed: bool)       // to read the cancel request
    | Refused(job: Rec, resumed: bool)      // heard one: to write CANCELLED
    | RefusalWritten(job: Rec, resumed: bool)  // to release
    | Starts(job: Rec)                      // to write RUNNING
    // -- driving it
    | Drives(job: Rec, beat: Beat)
    | Ends(job: Rec, announced: bool)       // heartbeat stopped: to write the ending
    | Releases(job: Rec)                    // to release the lease
    // -- cancelling it from elsewhere
    | Asks(job: Rec)                        // read the summary: to request the stop
    | Tombstones(job: Rec)                  // to write CANCELLED over a job that runs nowhere
    | Awaits                                // to read the control record
    | AwaitsSummary(seen: Option<Lease>)    // to read the summary after it
    // -- taking it over
    | Recovers(job: Rec)                    // read RUNNING: to read the control record
    | Fences(job: Rec, seen: Option<Lease>, ending: Status)   // judged the owner gone: to fence it
    | Waits(job: Rec, ending: Status, answered: set<Proc>)    // one heartbeat, for the owner to answer
    | Settles(job: Rec, ending: Status)     // to write the ending, unless there is one

  /** An attempt's ending, and who wrote it. */
  datatype Ending = Ending(attempt: nat, writer: Proc, status: Status)

  /** The store, the processes, and what is only said of them: the summaries saved so far, how many of them
      there were when each process last read or saved one, and the endings among them, in order. */
  datatype State = State(
    now: nat,
    rec: Rec,
    saved: seq<Rec>,
    lease: Option<Lease>,
    cancel: bool,
    procs: map<Proc, Mode>,       // the live processes
    read: map<Proc, nat>,
    gone: set<Proc>,              // the dead ones
    endings: seq<Ending>)

  datatype Config = Config(ttl: nat, who: Proc -> Identity)

  datatype Step =
    | Join(p: Proc) | Crash(p: Proc) | Advance(to: nat)
    | RunJob(p: Proc) | ResumeJob(p: Proc) | ClearCancel(p: Proc)
    | SaveLease(p: Proc) | CheckCancel(p: Proc) | PersistRefusal(p: Proc) | ReleaseRefusal(p: Proc)
    | PersistRunning(p: Proc) | Progress(p: Proc) | TickRead(p: Proc) | TickWrite(p: Proc)
    | Finish(p: Proc, status: Status) | PersistEnding(p: Proc) | Release(p: Proc)
    | CancelCall(p: Proc) | RequestCancel(p: Proc) | WriteTombstone(p: Proc)
    | AwaitControl(p: Proc) | AwaitSummary(p: Proc, pids: set<int>) | GiveUp(p: Proc)
    | RecoverRead(p: Proc) | RecoverControl(p: Proc, pids: set<int>)
    | Fence(p: Proc, pids: set<int>) | WaitOver(p: Proc) | Settle(p: Proc)

  /** A run stops in an ending, or in a pause. */
  predicate Stopped(status: Status) {
    Settled(status) || status == NeedsInput
  }

  /** What may be resumed, or answered. */
  predicate Reopenable(status: Status) {
    Resumable(status) || status == NeedsInput
  }

  /** What a machine says of its processes: every live one of ours on it exists. */
  ghost predicate TruePids(c: Config, s: State, here: Proc, pids: set<int>) {
    forall q :: q in s.procs && c.who(q).host == c.who(here).host && c.who(q).pidns == c.who(here).pidns ==>
                c.who(q).pid in pids
  }

  ghost predicate Enabled(c: Config, s: State, step: Step) {
    if step.Join? then step.p !in s.procs && step.p !in s.gone
    else if step.Advance? then s.now <= step.to
    else step.p in s.procs && InPlace(c, s, step, s.procs[step.p])
  }

  /** The process stands where the step is taken, and the record is what the step needs. */
  ghost predicate InPlace(c: Config, s: State, step: Step, m: Mode)
    requires !step.Advance?
  {
    match step
    case RunJob(_) => m.Idle? && s.rec.status == Queued
    case ResumeJob(_) => m.Idle? && Reopenable(s.rec.status)
    case ClearCancel(_) => m.Clears?
    case SaveLease(_) => m.Begins?
    case CheckCancel(_) => m.Checks?
    case PersistRefusal(_) => m.Refused?
    case ReleaseRefusal(_) => m.RefusalWritten?
    case PersistRunning(_) => m.Starts?
    case Progress(_) => m.Drives?
    case TickRead(_) => m.Drives? && m.beat.Quiet?
    case TickWrite(_) => m.Drives? && m.beat.Renewing?
    case Finish(_, status) => m.Drives? && Stopped(status)
    case PersistEnding(_) => m.Ends?
    case Release(_) => m.Releases?
    case CancelCall(_) => m.Idle? && s.rec.status in {Queued, Running, NeedsInput}
    case RequestCancel(_) => m.Asks?
    case WriteTombstone(_) => m.Tombstones?
    case AwaitControl(_) => m.Awaits?
    case AwaitSummary(p, pids) => m.AwaitsSummary? && TruePids(c, s, p, pids)
    case GiveUp(_) => m.Awaits?
    case RecoverRead(_) => m.Idle? && s.rec.status == Running
    case RecoverControl(p, pids) => m.Recovers? && TruePids(c, s, p, pids)
    case Fence(p, pids) => m.Fences? && TruePids(c, s, p, pids)
    case WaitOver(_) => m.Waits?
    case Settle(_) => m.Settles?
    case _ => true
  }

  // ---------- what a step does to the process ----------

  /** A taker that found the owner alive: a canceller goes on waiting, a start-up leaves the job to it. */
  function LeftToIt(ending: Status): Mode {
    if ending == Cancelled then Awaits else Idle
  }

  /** The process at its next store call. */
  ghost function Place(c: Config, s: State, step: Step, m: Mode): Mode
    requires !step.Advance? && InPlace(c, s, step, m)
  {
    match step
    case RunJob(_) => Begins(s.rec, false)
    case ResumeJob(_) => Clears(Rec(s.rec.status, s.rec.attempt + 1))
    case ClearCancel(_) => Begins(m.job, true)
    case SaveLease(_) => Checks(m.job, m.resumed)
    case CheckCancel(_) =>
      if s.cancel then Refused(m.job.(status := Cancelled), m.resumed) else Starts(m.job.(status := Running))
    case PersistRefusal(_) => RefusalWritten(m.job, m.resumed)
    case ReleaseRefusal(_) =>
      // a resume does not look at the refusal: it drives the run all the same
      if m.resumed then Drives(m.job, Quiet) else Idle
    case PersistRunning(_) => Drives(m.job, Quiet)
    case Progress(_) => m
    case TickRead(p) =>
      if s.lease.Some? && s.lease.value.owner != p then Idle
      else if s.cancel then Ends(m.job.(status := Cancelled), m.job.status == Running)
      else Drives(m.job, Renewing)
    case TickWrite(_) => Drives(m.job, Quiet)
    case Finish(_, status) => Ends(m.job.(status := status), m.job.status == Running)
    case PersistEnding(_) => Releases(m.job)
    case CancelCall(_) => if s.rec.status == NeedsInput then Tombstones(s.rec) else Asks(s.rec)
    case RequestCancel(_) => if m.job.status == Running then Awaits else Tombstones(m.job)
    case AwaitControl(_) => AwaitsSummary(s.lease)
    case AwaitSummary(p, pids) =>
      if s.rec.status != Running then Idle
      else if OwnerIsGone(m.seen, c.who(p), s.now, pids) then Fences(s.rec, m.seen, Cancelled)
      else Awaits
    case RecoverRead(_) => Recovers(s.rec)
    case RecoverControl(p, pids) =>
      if OwnerIsGone(s.lease, c.who(p), s.now, pids) then Fences(m.job, s.lease, Failed) else Idle
    case Fence(p, pids) =>
      if DeathIsCertain(m.seen, c.who(p), pids) then Settles(m.job, m.ending) else Waits(m.job, m.ending, {})
    case WaitOver(p) =>
      if s.lease.Some? && s.lease.value.owner == p then Settles(m.job, m.ending) else LeftToIt(m.ending)
    case _ => Idle  // Join, Crash, Release, WriteTombstone, GiveUp, Settle
  }

  /** `p` renewed its lease: whoever waits for its answer has it. */
  function Answered(m: Mode, p: Proc): Mode {
    if m.Waits? then m.(answered := m.answered + {p}) else m
  }

  ghost function ProcsAfter(c: Config, s: State, step: Step): map<Proc, Mode>
    requires Enabled(c, s, step)
  {
    if step.Advance? then s.procs
    else if step.Crash? then s.procs - {step.p}
    else if step.Join? then s.procs[step.p := Idle]
    else if step.TickWrite? then
      (map q | q in s.procs :: Answered(s.procs[q], step.p))[step.p := Place(c, s, step, s.procs[step.p])]
    else s.procs[step.p := Place(c, s, step, s.procs[step.p])]
  }

  // ---------- what a step does to the store ----------

  /** The summary a step saves, if it saves one. */
  ghost function Writes(c: Config, s: State, step: Step): Option<Rec>
    requires Enabled(c, s, step)
  {
    if step.PersistRefusal? || step.PersistRunning? || step.Progress? || step.PersistEnding? then
      Some(s.procs[step.p].job)
    else if step.WriteTombstone? then Some(s.procs[step.p].job.(status := Cancelled))
    else if step.Settle? && InFlight(s.rec.status) then
      Some(s.procs[step.p].job.(status := s.procs[step.p].ending))
    else None
  }

  /** The saves an attempt may end with, the CANCELLED written over a job that runs nowhere among them. */
  predicate EndsAttempt(step: Step) {
    step.PersistRefusal? || step.PersistEnding? || step.Settle? || step.WriteTombstone?
  }

  /** The ending a step writes, if it writes one: a pause is none. */
  ghost function EndingOf(c: Config, s: State, step: Step): Option<Ending>
    requires Enabled(c, s, step)
  {
    var saves := Writes(c, s, step);
    if saves.Some? && EndsAttempt(step) && Settled(saves.value.status)
    then Some(Ending(saves.value.attempt, step.p, saves.value.status))
    else None
  }

  predicate ReadsSummary(step: Step) {
    step.RunJob? || step.ResumeJob? || step.CancelCall? || step.RecoverRead? || step.AwaitSummary?
  }

  predicate LetsGo(step: Step) {
    step.Release? || step.ReleaseRefusal?
  }

  function LeaseAfter(c: Config, s: State, step: Step): Option<Lease> {
    if step.SaveLease? || step.TickWrite? then Some(LeaseFor(c.who(step.p), s.now, c.ttl))
    else if step.Fence? then Some(LeaseFor(c.who(step.p), s.now, 0))
    else if LetsGo(step) then None
    else s.lease
  }

  function CancelAfter(s: State, step: Step): bool {
    step.RequestCancel? || (s.cancel && !step.ClearCancel?)
  }

  ghost function Apply(c: Config, s: State, step: Step): State
    requires Enabled(c, s, step)
  {
    var saves, ending := Writes(c, s, step), EndingOf(c, s, step);
    var saved := if saves.Some? then s.saved + [saves.value] else s.saved;
    State(
      if step.Advance? then step.to else s.now,
      if saves.Some? then saves.value else s.rec,
      saved,
      LeaseAfter(c, s, step),
      CancelAfter(s, step),
      ProcsAfter(c, s, step),
      if saves.Some? || ReadsSummary(step) then s.read[step.p := |saved|] else s.read,
      if step.Crash? then s.gone + {step.p} else s.gone,
      if ending.Some? then s.endings + [ending.value] else s.endings)
  }

  function Start(): State {
    State(0, Rec(Queued, 1), [], None, false, map[], map[], {}, [])
  }

  // ---------- what every step keeps, with nothing asked of anybody ----------

  predicate Opening(m: Mode) {
    m.Clears? || m.Begins? || m.Checks? || m.Refused? || m.RefusalWritten? || m.Starts?
  }

  predicate Driving(m: Mode) {
    m.Drives? || m.Ends?
  }

  /** What a process that holds a job means to write. */
  predicate Sane(m: Mode) {
    match m
    case Clears(job) => Reopenable(job.status)
    case Begins(job, resumed) => if resumed then Reopenable(job.status) else job.status == Queued
    case Checks(job, resumed) => if resumed then Reopenable(job.status) else job.status == Queued
    case Refused(job, _) => job.status == Cancelled
    case RefusalWritten(job, _) => job.status == Cancelled
    case Starts(job) => job.status == Running
    case Drives(job, _) => job.status == Running || job.status == Cancelled
    case Ends(job, _) => Stopped(job.status)
    case Releases(job) => Stopped(job.status)
    case Asks(job) => InFlight(job.status)
    case Tombstones(job) => job.status == Queued || job.status == NeedsInput
    case Recovers(job) => job.status == Running
    case Fences(job, _, ending) => job.status == Running && (ending == Failed || ending == Cancelled)
    case Waits(job, ending, _) => job.status == Running && (ending == Failed || ending == Cancelled)
    case Settles(job, ending) => job.status == Running && (ending == Failed || ending == Cancelled)
    case _ => true
  }

  /** The record an attempt is opened from: the job QUEUED, or stopped one attempt before. */
  predicate OpenedFrom(rec: Rec, job: Rec) {
    rec == Rec(Queued, job.attempt) || (Reopenable(rec.status) && rec.attempt + 1 == job.attempt)
  }

  /** What the record is, for a process that has not missed a write of it. */
  predicate Matches(m: Mode, rec: Rec) {
    match m
    case RefusalWritten(job, _) => rec == job
    case Drives(job, _) => rec == job
    case Ends(job, announced) => rec == Rec(if announced then Running else Cancelled, job.attempt)
    case Releases(job) => rec == job
    case Asks(job) => rec == job
    case Tombstones(job) => rec == job
    case Recovers(job) => rec == job
    case Fences(job, _, _) => rec == job
    case Waits(job, _, _) => rec == job
    case Settles(job, _) => rec == job
    case _ => Opening(m) ==> OpenedFrom(rec, m.job)
  }

  /** The process has seen the record as it now is. */
  predicate UpToDate(s: State, p: Proc) {
    p in s.read && s.read[p] == |s.saved|
  }

  /** The record is what was saved last. */
  function LastSaved(saved: seq<Rec>): Rec {
    if saved == [] then Rec(Queued, 1) else saved[|saved| - 1]
  }

  ghost predicate Sound(s: State) {
    && (forall p :: p in s.read ==> s.read[p] <= |s.saved|)
    && s.rec == LastSaved(s.saved)
    && (forall p {:trigger s.procs[p]} :: p in s.procs && !s.procs[p].Idle? ==> p in s.read)
    && (forall p {:trigger s.procs[p]} :: p in s.procs ==> Sane(s.procs[p]))
    && (forall p {:trigger UpToDate(s, p)} :: p in s.procs && UpToDate(s, p) ==> Matches(s.procs[p], s.rec))
  }

  lemma PlaceIsSane(c: Config, s: State, step: Step, m: Mode)
    requires !step.Advance? && InPlace(c, s, step, m) && Sane(m)
    ensures Sane(Place(c, s, step, m))
  {
  }

  /** A process that has just read the record knows it. */
  lemma ReadingMatches(c: Config, s: State, step: Step)
    requires Enabled(c, s, step) && ReadsSummary(step)
    ensures Matches(Place(c, s, step, s.procs[step.p]), s.rec)
  {
  }

  /** A process that has just written the record knows it. */
  lemma WritingMatches(c: Config, s: State, step: Step)
    requires Enabled(c, s, step) && Writes(c, s, step).Some? && Sane(s.procs[step.p])
    ensures Matches(Place(c, s, step, s.procs[step.p]), Writes(c, s, step).value)
  {
  }

  /** And goes on knowing it until it is written again. */
  lemma MovingMatches(c: Config, s: State, step: Step, m: Mode)
    requires !step.Advance? && InPlace(c, s, step, m) && Sane(m) && Matches(m, s.rec)
    requires !step.PersistRefusal? && !step.PersistRunning? && !step.Progress? && !step.PersistEnding?
    ensures Matches(Place(c, s, step, m), s.rec)
  {
  }

  lemma MovingIsSound(c: Config, s: State, step: Step)
    requires Sound(s) && Enabled(c, s, step) && !step.Advance? && !step.Crash?
    ensures var s' := Apply(c, s, step);
            Sane(s'.procs[step.p]) && (UpToDate(s', step.p) ==> Matches(s'.procs[step.p], s'.rec))
  {
    if !step.Join? {
      var m := s.procs[step.p];
      PlaceIsSane(c, s, step, m);
      if Writes(c, s, step).Some? {
        WritingMatches(c, s, step);
      } else if ReadsSummary(step) {
        ReadingMatches(c, s, step);
      } else if UpToDate(s, step.p) {
        MovingMatches(c, s, step, m);
      }
    }
  }

  lemma HistoryIsKept(c: Config, s: State, step: Step)
    requires Sound(s) && Enabled(c, s, step)
    ensures var s' := Apply(c, s, step);
            && s'.rec == LastSaved(s'.saved)
            && (forall p :: p in s'.read ==> s'.read[p] <= |s'.saved|)
            && forall p {:trigger s'.procs[p]} :: p in s'.procs && !s'.procs[p].Idle? ==> p in s'.read
  {
  }

  lemma StepIsSound(c: Config, s: State, step: Step)
    requires Sound(s) && Enabled(c, s, step)
    ensures Sound(Apply(c, s, step))
  {
    var s' := Apply(c, s, step);
    HistoryIsKept(c, s, step);
    if !step.Advance? && !step.Crash? { MovingIsSound(c, s, step); }
    forall q | q in s'.procs ensures Sane(s'.procs[q]) && (UpToDate(s', q) ==> Matches(s'.procs[q], s'.rec)) {
      if step.Advance? || q != step.p {
        assert Sane(s.procs[q]) && (UpToDate(s, q) ==> Matches(s.procs[q], s.rec));
      }
    }
  }
}
