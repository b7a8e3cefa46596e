/** How often an attempt ends (jobsmith/engine/manager.py): exactly when each ends once, on any run; and what a
    comparison before each write of the record would give. */
module Endings {
  import opened Options
  import opened Jobs
  import opened Ownership
  import opened Leases
  import opened LeaseRuns
  import opened Attempts

  predicate Ended(endings: seq<Ending>, attempt: nat) {
    exists i :: 0 <= i < |endings| && endings[i].attempt == attempt
  }

  /** Writes the ending of an attempt that has one. */
  ghost predicate EndsAgain(c: Config, s: State, step: Step) {
    Enabled(c, s, step) && EndingOf(c, s, step).Some? && Ended(s.endings, EndingOf(c, s, step).value.attempt)
  }

  // ---------- processes that will end what has ended ----------

  /** Left to itself, the process can end its attempt, whatever the record is. */
  predicate CanEnd(m: Mode) {
    || m.Clears? || m.Begins? || m.Checks? || m.Refused? || m.Starts? || m.Drives? || m.Tombstones?
    || (m.RefusalWritten? && m.resumed)
    || (m.Ends? && Settled(m.job.status))
    || (m.Asks? && m.job.status != Running)
  }

  ghost predicate HoldsEnded(s: State, p: Proc) {
    p in s.procs && var m := s.procs[p];
    || (CanEnd(m) && Ended(s.endings, m.job.attempt))
    || (m.Settles? && InFlight(s.rec.status) && Ended(s.endings, m.job.attempt))
  }

  /** Some process has only to go on, and an attempt is ended that has ended. */
  ghost predicate Doomed(s: State) {
    exists p :: HoldsEnded(s, p)
  }

  ghost predicate OtherCanEnd(s: State, p: Proc, attempt: nat) {
    exists q :: q in s.procs && q != p && CanEnd(s.procs[q]) && s.procs[q].job.attempt == attempt
  }

  /** An ending is saved while another process can end the same attempt, or by a resume that was refused. */
  ghost predicate EndsBesideAnother(c: Config, s: State, step: Step) {
    && Enabled(c, s, step) && EndingOf(c, s, step).Some?
    && (OtherCanEnd(s, step.p, EndingOf(c, s, step).value.attempt)
        || (step.PersistRefusal? && s.procs[step.p].resumed))
  }

  /** A resume opens, or a canceller takes up, an attempt that has ended. */
  ghost predicate TakesUpEnded(c: Config, s: State, step: Step) {
    && Enabled(c, s, step)
    && (|| (step.ResumeJob? && Ended(s.endings, s.rec.attempt + 1))
        || ((step.RunJob? || (step.CancelCall? && s.rec.status != Running)) && Ended(s.endings, s.rec.attempt)))
  }

  /** A taker is done with its fence, or its wait, while the record is in flight and its attempt has ended. */
  ghost predicate ComesToSettleEnded(c: Config, s: State, step: Step) {
    && (step.Fence? || step.WaitOver?) && Enabled(c, s, step) && Place(c, s, step, s.procs[step.p]).Settles?
    && InFlight(s.rec.status) && Ended(s.endings, s.procs[step.p].job.attempt)
  }

  /** The record is put in flight in front of a taker that is about to settle an attempt that has ended. */
  ghost predicate RevivesBeforeATaker(c: Config, s: State, step: Step) {
    && Saves(c, s, step) && InFlight(Writes(c, s, step).value.status)
    && exists q :: q in s.procs && q != step.p && s.procs[q].Settles? && Ended(s.endings, s.procs[q].job.attempt)
  }

  ghost predicate Dooms(c: Config, s: State, step: Step) {
    || EndsBesideAnother(c, s, step) || TakesUpEnded(c, s, step) || ComesToSettleEnded(c, s, step)
    || RevivesBeforeATaker(c, s, step)
  }

  lemma EndingIsAdded(c: Config, s: State, step: Step, attempt: nat)
    requires Enabled(c, s, step)
    ensures Ended(Apply(c, s, step).endings, attempt) <==>
              Ended(s.endings, attempt) || (EndingOf(c, s, step).Some? && EndingOf(c, s, step).value.attempt == attempt)
  {
    var e, e' := s.endings, Apply(c, s, step).endings;
    if Ended(s.endings, attempt) {
      var i :| 0 <= i < |e| && e[i].attempt == attempt;
      assert e'[i] == e[i];
    }
    if EndingOf(c, s, step).Some? { assert e'[|e|] == EndingOf(c, s, step).value; }
  }

  /** Where a process stands that can end its attempt, it could before; or it took the attempt up. */
  lemma CanEndFrom(c: Config, s: State, step: Step, m: Mode)
    requires !step.Advance? && InPlace(c, s, step, m) && Sane(m) && CanEnd(Place(c, s, step, m))
    ensures step.RunJob? || step.CancelCall? ==>
              Place(c, s, step, m).job == s.rec && (step.CancelCall? ==> s.rec.status != Running)
    ensures step.ResumeJob? ==> Place(c, s, step, m).job.attempt == s.rec.attempt + 1
    ensures !step.RunJob? && !step.CancelCall? && !step.ResumeJob? ==>
              CanEnd(m) && Place(c, s, step, m).job.attempt == m.job.attempt
  {
  }

  /** Nobody holds an ended attempt, and the step is taken by another. */
  lemma OthersHold(c: Config, s: State, step: Step, q: Proc)
    requires Sound(s) && Enabled(c, s, step) && !Doomed(s) && !Dooms(c, s, step)
    requires q in Apply(c, s, step).procs && (step.Advance? || q != step.p)
    ensures !HoldsEnded(Apply(c, s, step), q)
  {
    OthersStandStill(c, s, step, q);
    assert !HoldsEnded(s, q);
    var m := s.procs[q];
    if CanEnd(m) || m.Settles? { EndingIsAdded(c, s, step, m.job.attempt); }
    SavingIsWritten(c, s, step);
  }

  lemma ItselfHolds(c: Config, s: State, step: Step)
    requires Sound(s) && Enabled(c, s, step) && !Doomed(s) && !Dooms(c, s, step)
    requires !step.Advance? && !step.Crash? && !step.Join?
    ensures !HoldsEnded(Apply(c, s, step), step.p)
  {
    var p, m := step.p, s.procs[step.p];
    var m' := Place(c, s, step, m);
    assert !HoldsEnded(s, p) && Sane(m);
    if CanEnd(m') {
      CanEndFrom(c, s, step, m);
      EndingIsAdded(c, s, step, m'.job.attempt);
      if EndsAttempt(step) { EndersGoIdle(c, s, step, m); }
    } else if m'.Settles? {
      EndingIsAdded(c, s, step, m'.job.attempt);
      SettlesOnlyFrom(c, s, step, m);
    }
  }

  lemma EndersGoIdle(c: Config, s: State, step: Step, m: Mode)
    requires EndsAttempt(step) && InPlace(c, s, step, m) && CanEnd(Place(c, s, step, m))
    ensures step.PersistRefusal? && m.resumed
  {
  }

  lemma SettlesOnlyFrom(c: Config, s: State, step: Step, m: Mode)
    requires !step.Advance? && InPlace(c, s, step, m) && Place(c, s, step, m).Settles?
    ensures (step.Fence? || step.WaitOver?) && Place(c, s, step, m).job == m.job
  {
  }

  lemma EndingBesideDooms(c: Config, s: State, step: Step)
    requires EndsBesideAnother(c, s, step)
    ensures Doomed(Apply(c, s, step))
  {
    var s', attempt := Apply(c, s, step), EndingOf(c, s, step).value.attempt;
    EndingIsAdded(c, s, step, attempt);
    if q :| q in s.procs && q != step.p && CanEnd(s.procs[q]) && s.procs[q].job.attempt == attempt {
      OthersStandStill(c, s, step, q);
      assert HoldsEnded(s', q);
    } else {
      assert HoldsEnded(s', step.p);
    }
  }

  lemma RevivingDooms(c: Config, s: State, step: Step)
    requires RevivesBeforeATaker(c, s, step)
    ensures Doomed(Apply(c, s, step))
  {
    var q :| q in s.procs && q != step.p && s.procs[q].Settles? && Ended(s.endings, s.procs[q].job.attempt);
    OthersStandStill(c, s, step, q);
    EndingIsAdded(c, s, step, s.procs[q].job.attempt);
    SavingIsWritten(c, s, step);
    assert HoldsEnded(Apply(c, s, step), q);
  }

  lemma TakingUpDooms(c: Config, s: State, step: Step)
    requires Sound(s) && (TakesUpEnded(c, s, step) || ComesToSettleEnded(c, s, step))
    ensures Doomed(Apply(c, s, step))
  {
    var m' := Apply(c, s, step).procs[step.p];
    if ComesToSettleEnded(c, s, step) { SettlesOnlyFrom(c, s, step, s.procs[step.p]); }
    EndingIsAdded(c, s, step, m'.job.attempt);
    assert HoldsEnded(Apply(c, s, step), step.p);
  }

  /** A step brings it about that somebody can end again what has ended, if and only if it is one of those. */
  lemma DoomsExactlyWhen(c: Config, s: State, step: Step)
    requires Sound(s) && Enabled(c, s, step) && !Doomed(s)
    ensures Doomed(Apply(c, s, step)) <==> Dooms(c, s, step)
  {
    if EndsBesideAnother(c, s, step) {
      EndingBesideDooms(c, s, step);
    } else if RevivesBeforeATaker(c, s, step) {
      RevivingDooms(c, s, step);
    } else if Dooms(c, s, step) {
      TakingUpDooms(c, s, step);
    } else {
      forall q ensures !HoldsEnded(Apply(c, s, step), q) {
        if q in Apply(c, s, step).procs {
          if step.Advance? || q != step.p { OthersHold(c, s, step, q); }
          else if !step.Join? { ItselfHolds(c, s, step); }
        }
      }
    }
  }

  /** As long as nobody can, nobody does. */
  lemma OnlyTheDoomedEndAgain(c: Config, s: State, step: Step)
    requires Sound(s) && EndsAgain(c, s, step)
    ensures HoldsEnded(s, step.p)
  {
    assert Sane(s.procs[step.p]);
  }

  ghost predicate EachEndsOnce(endings: seq<Ending>) {
    forall i, j :: 0 <= i < j < |endings| ==> endings[i].attempt != endings[j].attempt
  }

  lemma EndsOnceOrAgain(c: Config, s: State, step: Step)
    requires Enabled(c, s, step) && EachEndsOnce(s.endings)
    ensures EachEndsOnce(Apply(c, s, step).endings) <==> !EndsAgain(c, s, step)
  {
    var e, e' := s.endings, Apply(c, s, step).endings;
    if EndsAgain(c, s, step) {
      var i :| 0 <= i < |e| && e[i].attempt == EndingOf(c, s, step).value.attempt;
      assert e'[i].attempt == e'[|e|].attempt;
    }
  }

  /** On every run, whatever the interleaving: nobody ever has only to go on to end an attempt again, if and only if
      no step is one of those; and then each attempt ends once. */
  lemma {:induction false} EndsOnceExactlyUnlessDoomed(c: Config, s: State, steps: seq<Step>)
    requires Sound(s) && !Doomed(s) && EachEndsOnce(s.endings) && IsRun(c, s, steps)
    ensures NeverAt(c, s, steps, Doomed) <==> NeverTakes(c, s, steps, Dooms)
    ensures NeverTakes(c, s, steps, Dooms) ==>
              NeverTakes(c, s, steps, EndsAgain) && EachEndsOnce(EndOf(c, s, steps).endings)
    decreases |steps|
  {
    if steps != [] {
      StepIsSound(c, s, steps[0]);
      DoomsExactlyWhen(c, s, steps[0]);
      EndsOnceOrAgain(c, s, steps[0]);
      if EndsAgain(c, s, steps[0]) { OnlyTheDoomedEndAgain(c, s, steps[0]); }
      if !Dooms(c, s, steps[0]) { EndsOnceExactlyUnlessDoomed(c, Apply(c, s, steps[0]), steps[1..]); }
    }
  }

  // ---------- and it comes to it ----------

  /** The next store call of a process that can end its attempt, on its way there. */
  function NextCall(p: Proc, m: Mode): Step
    requires CanEnd(m) || m.Settles?
  {
    match m
    case Clears(_) => ClearCancel(p)
    case Begins(_, _) => SaveLease(p)
    case Checks(_, _) => CheckCancel(p)
    case Refused(_, _) => PersistRefusal(p)
    case RefusalWritten(_, _) => ReleaseRefusal(p)
    case Starts(_) => PersistRunning(p)
    case Drives(_, _) => Finish(p, Failed)
    case Ends(_, _) => PersistEnding(p)
    case Asks(_) => RequestCancel(p)
    case Tombstones(_) => WriteTombstone(p)
    case Settles(_, _) => Settle(p)
  }

  function CallsLeft(m: Mode): nat {
    match m
    case Clears(_) => 6
    case Begins(_, _) => 5
    case Checks(_, _) => 4
    case Starts(_) => 3
    case RefusalWritten(_, _) => 3
    case Drives(_, _) => 2
    case Asks(_) => 2
    case _ => 1
  }

  lemma GoesOnToEnd(c: Config, s: State, p: Proc)
    requires Sound(s) && HoldsEnded(s, p)
    ensures var step := NextCall(p, s.procs[p]);
            && Enabled(c, s, step)
            && (EndsAgain(c, s, step)
                || (HoldsEnded(Apply(c, s, step), p) && CallsLeft(Apply(c, s, step).procs[p]) < CallsLeft(s.procs[p])))
  {
    var m := s.procs[p];
    assert Sane(m);
    EndingIsAdded(c, s, NextCall(p, m), m.job.attempt);
  }

  /** From there it is ended again after at most six store calls of that process alone. */
  lemma {:induction false} TheDoomedComeToIt(c: Config, s: State, p: Proc) returns (steps: seq<Step>, last: Step)
    requires Sound(s) && HoldsEnded(s, p)
    ensures |steps| < CallsLeft(s.procs[p]) <= 6
    ensures forall i :: 0 <= i < |steps| ==> !steps[i].Advance? && steps[i].p == p
    ensures !last.Advance? && last.p == p && IsRun(c, s, steps) && EndsAgain(c, EndOf(c, s, steps), last)
    decreases CallsLeft(s.procs[p])
  {
    var step := NextCall(p, s.procs[p]);
    GoesOnToEnd(c, s, p);
    if EndsAgain(c, s, step) {
      return [], step;
    }
    StepIsSound(c, s, step);
    var rest;
    rest, last := TheDoomedComeToIt(c, Apply(c, s, step), p);
    steps := [step] + rest;
    assert steps[1..] == rest;
  }

  // ---------- by a comparison before each write ----------

  /** The last attempt that ended. */
  function Top(endings: seq<Ending>): int {
    if endings == [] then 0 else endings[|endings| - 1].attempt
  }

  /** In order, each attempt once: or twice, refused to a resume first, and then ended by that same process, or by a
      canceller over the pause it came to. */
  ghost predicate OnceButForRefusals(endings: seq<Ending>) {
    forall i, j :: 0 <= i < j < |endings| ==>
      endings[i].attempt < endings[j].attempt
      || (endings[i].attempt == endings[j].attempt && j == i + 1 && endings[i].status == Cancelled
          && (endings[i].writer == endings[j].writer || endings[j].status == Cancelled))
  }

  /** The last attempt that ended was refused to a resume, and has not ended since. */
  predicate LastRefused(endings: seq<Ending>) {
    endings != [] && endings[|endings| - 1].status == Cancelled
    && (|endings| > 1 ==> endings[|endings| - 2].attempt < Top(endings))
  }

  lemma OneMoreEnding(endings: seq<Ending>, e: Ending)
    requires OnceButForRefusals(endings)
    requires || Top(endings) < e.attempt
             || (LastRefused(endings) && Top(endings) == e.attempt
                 && (endings[|endings| - 1].writer == e.writer || e.status == Cancelled))
    ensures OnceButForRefusals(endings + [e])
    ensures Top(endings) < e.attempt && e.status == Cancelled ==> LastRefused(endings + [e])
  {
    var n := |endings|;
    if endings != [] && Top(endings) == e.attempt {
      forall i | 0 <= i < n - 1 ensures endings[i].attempt < e.attempt {
        if i < n - 2 { assert endings[i].attempt <= endings[n - 2].attempt; }
      }
    } else if endings != [] {
      forall i | 0 <= i < n ensures endings[i].attempt < e.attempt {
        if i < n - 1 { assert endings[i].attempt <= endings[n - 1].attempt; }
      }
    }
  }

  /** No ending of an attempt that is not over, but that of a refused resume that came to a pause. */
  ghost predicate HardlyAhead(s: State) {
    && Top(s.endings) <= s.rec.attempt
    && (!Settled(s.rec.status) && Top(s.endings) == s.rec.attempt ==>
          s.rec.status == NeedsInput && LastRefused(s.endings))
  }

  ghost predicate OwnRefusal(s: State, p: Proc) {
    p in s.procs && UpToDate(s, p) && DrivesRefused(s.procs[p]) ==>
      LastRefused(s.endings) && s.endings[|s.endings| - 1] == Ending(s.procs[p].job.attempt, p, Cancelled)
  }

  ghost predicate Compared(s: State) {
    OnceButForRefusals(s.endings) && HardlyAhead(s) && forall p {:trigger OwnRefusal(s, p)} :: OwnRefusal(s, p)
  }

  /** The record is written by a process that has not seen it as it is. */
  ghost predicate SavesUnread(c: Config, s: State, step: Step) {
    Saves(c, s, step) && !UpToDate(s, step.p)
  }

  /** Over a pause, of those that have seen it, only a canceller ends that same attempt. */
  lemma OverAPause(c: Config, s: State, step: Step)
    requires Sound(s) && Saves(c, s, step) && UpToDate(s, step.p) && s.rec.status == NeedsInput
    ensures Writes(c, s, step).value.attempt == s.rec.attempt ==> Writes(c, s, step).value.status == Cancelled
    ensures Writes(c, s, step).value.attempt == s.rec.attempt ==> EndingOf(c, s, step).Some?
  {
    assert Sane(s.procs[step.p]) && Matches(s.procs[step.p], s.rec);
  }

  lemma ComparedEndings(c: Config, s: State, step: Step)
    requires Sound(s) && Compared(s) && Enabled(c, s, step) && !SavesUnread(c, s, step)
    ensures OnceButForRefusals(Apply(c, s, step).endings) && HardlyAhead(Apply(c, s, step))
  {
    SavingIsWritten(c, s, step);
    if Saves(c, s, step) {
      UpToDateGoesOn(c, s, step);
      assert OwnRefusal(s, step.p);
      if s.rec.status == NeedsInput { OverAPause(c, s, step); }
      if EndingOf(c, s, step).Some? {
        OneMoreEnding(s.endings, EndingOf(c, s, step).value);
      } else {
        PausesItsOwn(c, s, step);
      }
    }
  }

  /** What is saved and no ending: a run announced or going on, or a pause; over an ending, by the process it was
      refused to. */
  lemma PausesItsOwn(c: Config, s: State, step: Step)
    requires Sound(s) && Saves(c, s, step) && UpToDate(s, step.p) && EndingOf(c, s, step).None?
    ensures var saves := Writes(c, s, step).value;
            || saves.attempt > s.rec.attempt || InFlight(s.rec.status) || Settled(saves.status)
            || (DrivesRefused(s.procs[step.p]) && saves == Rec(NeedsInput, s.procs[step.p].job.attempt))
  {
    assert Sane(s.procs[step.p]) && Matches(s.procs[step.p], s.rec);
  }

  /** What a process that was refused and goes on holds. */
  lemma RefusedOnlyFrom(c: Config, s: State, step: Step, m: Mode)
    requires !step.Advance? && InPlace(c, s, step, m) && Sane(m) && DrivesRefused(Place(c, s, step, m))
    ensures Place(c, s, step, m).job.attempt == m.job.attempt
    ensures step.PersistRefusal? || (DrivesRefused(m) && !EndsAttempt(step) && !ReadsSummary(step))
  {
  }

  /** An opener that has seen the record refuses an attempt that has not ended. */
  lemma RefusesTheNext(c: Config, s: State, p: Proc)
    requires Sound(s) && Compared(s) && Enabled(c, s, PersistRefusal(p)) && UpToDate(s, p)
    ensures Top(s.endings) < s.procs[p].job.attempt
    ensures EndingOf(c, s, PersistRefusal(p)) == Some(Ending(s.procs[p].job.attempt, p, Cancelled))
    ensures LastRefused(Apply(c, s, PersistRefusal(p)).endings)
  {
    assert Sane(s.procs[p]) && Matches(s.procs[p], s.rec);
    OneMoreEnding(s.endings, Ending(s.procs[p].job.attempt, p, Cancelled));
  }

  lemma RefusalIsItsOwn(c: Config, s: State, step: Step)
    requires Sound(s) && Compared(s) && Enabled(c, s, step) && !step.Advance? && !step.Crash? && !step.Join?
    requires !SavesUnread(c, s, step)
    ensures OwnRefusal(Apply(c, s, step), step.p)
  {
    var m := s.procs[step.p];
    assert Sane(m) && OwnRefusal(s, step.p);
    if DrivesRefused(Place(c, s, step, m)) {
      RefusedOnlyFrom(c, s, step, m);
      if step.PersistRefusal? {
        RefusesTheNext(c, s, step.p);
      } else if !Saves(c, s, step) {
        assert Apply(c, s, step).read == s.read;
      }
    }
  }

  lemma ComparedStep(c: Config, s: State, step: Step)
    requires Sound(s) && Compared(s) && Enabled(c, s, step) && !SavesUnread(c, s, step)
    ensures Compared(Apply(c, s, step))
  {
    ComparedEndings(c, s, step);
    forall q ensures OwnRefusal(Apply(c, s, step), q) {
      if q in Apply(c, s, step).procs {
        if step.Advance? || q != step.p { OthersOwnTheirs(c, s, step, q); }
        else if !step.Join? { RefusalIsItsOwn(c, s, step); }
      }
    }
  }

  /** A process that still knows the record after another's step knew it before, and nothing was saved. */
  lemma OthersOwnTheirs(c: Config, s: State, step: Step, q: Proc)
    requires Sound(s) && OwnRefusal(s, q) && Enabled(c, s, step)
    requires q in Apply(c, s, step).procs && (step.Advance? || q != step.p)
    ensures OwnRefusal(Apply(c, s, step), q)
  {
    OthersStandStill(c, s, step, q);
    SavingIsWritten(c, s, step);
  }

  lemma {:induction false} ComparedRun(c: Config, s: State, steps: seq<Step>)
    requires Sound(s) && Compared(s) && IsRun(c, s, steps) && NeverTakes(c, s, steps, SavesUnread)
    ensures Compared(EndOf(c, s, steps)) && NeverTakes(c, s, steps, GoesBack)
    decreases |steps|
  {
    if steps != [] {
      StepIsSound(c, s, steps[0]);
      ComparedStep(c, s, steps[0]);
      NeverBackWhenRead(c, s, steps[0]);
      ComparedRun(c, Apply(c, s, steps[0]), steps[1..]);
    }
  }

  lemma NeverBackWhenRead(c: Config, s: State, step: Step)
    requires Sound(s) && Enabled(c, s, step) && !SavesUnread(c, s, step)
    ensures !GoesBack(c, s, step)
  {
    SavingIsWritten(c, s, step);
    if Saves(c, s, step) { UpToDateGoesOn(c, s, step); }
  }

  // ---------- and without refused resumes ----------

  ghost predicate Increasing(endings: seq<Ending>) {
    forall i, j :: 0 <= i < j < |endings| ==> endings[i].attempt < endings[j].attempt
  }

  /** No ending of an attempt that is not over. */
  ghost predicate NotAhead(s: State) {
    Top(s.endings) <= s.rec.attempt && (!Settled(s.rec.status) ==> Top(s.endings) < s.rec.attempt)
  }

  /** A resume finds a stop requested after it cleared the old one. */
  ghost predicate RefusesAResume(c: Config, s: State, step: Step) {
    step.CheckCancel? && Enabled(c, s, step) && s.procs[step.p].resumed && s.cancel
  }

  /** It has not been refused a resume, and drives nothing it was refused. */
  predicate Unrefused(m: Mode) {
    && (m.Refused? || m.RefusalWritten? ==> !m.resumed)
    && (m.Drives? ==> m.job.status == Running) && (m.Ends? ==> m.announced)
  }

  lemma StaysUnrefused(c: Config, s: State, step: Step, m: Mode)
    requires !step.Advance? && InPlace(c, s, step, m) && Sane(m) && Unrefused(m)
    requires step.CheckCancel? ==> !(m.resumed && s.cancel)
    ensures Unrefused(Place(c, s, step, m))
  {
  }

  /** What goes on from the record, and ends what had not ended, keeps the endings in order. */
  lemma EndingsStayInOrder(c: Config, s: State, step: Step)
    requires Enabled(c, s, step) && Increasing(s.endings) && NotAhead(s)
    requires Saves(c, s, step) ==>
               GoesOn(Writes(c, s, step).value, s.rec)
               && (Settled(Writes(c, s, step).value.status) ==> EndingOf(c, s, step).Some?)
               && (EndingOf(c, s, step).Some? && Settled(s.rec.status) ==>
                     Writes(c, s, step).value.attempt == s.rec.attempt + 1)
               && (Writes(c, s, step).value.status == NeedsInput ==> !Settled(s.rec.status))
    ensures Increasing(Apply(c, s, step).endings) && NotAhead(Apply(c, s, step))
  {
    SavingIsWritten(c, s, step);
    if Saves(c, s, step) && EndingOf(c, s, step).Some? {
      forall i | 0 <= i < |s.endings| ensures s.endings[i].attempt <= Top(s.endings) {
        if i < |s.endings| - 1 { assert s.endings[i].attempt < s.endings[|s.endings| - 1].attempt; }
      }
    }
  }

  ghost predicate ComparedUnrefused(s: State) {
    Increasing(s.endings) && NotAhead(s) && forall p {:trigger s.procs[p]} :: p in s.procs ==> Unrefused(s.procs[p])
  }

  lemma UnrefusedEndings(c: Config, s: State, step: Step)
    requires Sound(s) && ComparedUnrefused(s) && Enabled(c, s, step) && !SavesUnread(c, s, step)
    ensures Increasing(Apply(c, s, step).endings) && NotAhead(Apply(c, s, step))
  {
    if Saves(c, s, step) {
      UpToDateGoesOn(c, s, step);
      assert Unrefused(s.procs[step.p]) && Sane(s.procs[step.p]) && Matches(s.procs[step.p], s.rec);
    }
    EndingsStayInOrder(c, s, step);
  }

  lemma {:induction false} UnrefusedRun(c: Config, s: State, steps: seq<Step>)
    requires Sound(s) && ComparedUnrefused(s) && IsRun(c, s, steps)
    requires NeverTakes(c, s, steps, SavesUnread) && NeverTakes(c, s, steps, RefusesAResume)
    ensures Increasing(EndOf(c, s, steps).endings)
    decreases |steps|
  {
    if steps != [] {
      var s' := Apply(c, s, steps[0]);
      StepIsSound(c, s, steps[0]);
      UnrefusedEndings(c, s, steps[0]);
      forall q | q in s'.procs ensures Unrefused(s'.procs[q]) {
        StaysUnrefusedThen(c, s, steps[0], q);
      }
      UnrefusedRun(c, s', steps[1..]);
    }
  }

  lemma StaysUnrefusedThen(c: Config, s: State, step: Step, q: Proc)
    requires Sound(s) && ComparedUnrefused(s) && Enabled(c, s, step) && !RefusesAResume(c, s, step)
    requires q in Apply(c, s, step).procs
    ensures Unrefused(Apply(c, s, step).procs[q])
  {
    if step.Advance? || q != step.p {
      OthersStandStill(c, s, step, q);
    } else if !step.Join? {
      assert Sane(s.procs[q]);
      StaysUnrefused(c, s, step, s.procs[q]);
    }
  }

  /** A comparison before each write of the record is enough by itself. However openings overlap, leases are fenced and
      let go, takers wait or do not, and whoever crashes: each attempt is ended once, but for resumes that were
      refused (and once where none was); the attempt never goes down, and DONE is for good. */
  lemma ComparingSettlesOnce(c: Config, steps: seq<Step>)
    requires IsRun(c, Start(), steps) && NeverTakes(c, Start(), steps, SavesUnread)
    ensures OnceButForRefusals(EndOf(c, Start(), steps).endings) && NeverTakes(c, Start(), steps, GoesBack)
    ensures NeverTakes(c, Start(), steps, RefusesAResume) ==> Increasing(EndOf(c, Start(), steps).endings)
  {
    ComparedRun(c, Start(), steps);
    if NeverTakes(c, Start(), steps, RefusesAResume) { UnrefusedRun(c, Start(), steps); }
  }
}
