/** What is written over what (jobsmith/engine/manager.py): exactly when the record goes back to an earlier attempt,
    or from DONE, and when a canceller's CANCELLED covers an ending. */
module Attempts {
  import opened Options
  import opened Jobs
  import opened Ownership
  import opened Leases
  import opened LeaseRuns

  /** The attempt goes down, or DONE is written over. */
  ghost predicate GoesBack(c: Config, s: State, step: Step) {
    Enabled(c, s, step) &&
    var rec := Apply(c, s, step).rec;
    rec.attempt < s.rec.attempt || (s.rec.status == Done && rec != s.rec)
  }

  predicate Behind(saves: Rec, rec: Rec) {
    saves.attempt < rec.attempt || (rec.status == Done && saves != rec)
  }

  ghost predicate Saves(c: Config, s: State, step: Step) {
    Enabled(c, s, step) && Writes(c, s, step).Some?
  }

  /** Since it last read or saved the record, somebody saved a later attempt than it saves, or a DONE it is not. */
  ghost predicate SavesOvertaken(c: Config, s: State, step: Step) {
    Saves(c, s, step) && step.p in s.read
    && exists j :: s.read[step.p] <= j < |s.saved| && Behind(Writes(c, s, step).value, s.saved[j])
  }

  /** Nothing saved so far went back from what was saved before it. */
  ghost predicate InSequence(saved: seq<Rec>) {
    forall i, j :: 0 <= i < j < |saved| ==> !Behind(saved[j], saved[i])
  }

  // ---------- what a process that has missed nothing saves ----------

  /** It has written its refusal, and drives or is about to. */
  predicate DrivesRefused(m: Mode) {
    m.RefusalWritten? || (m.Drives? && m.job.status == Cancelled) || (m.Ends? && !m.announced)
  }

  /** How what is saved goes on from the record: the same attempt or the next, and DONE is not gone on from. */
  ghost predicate GoesOn(saves: Rec, rec: Rec) {
    && rec.status != Done && (saves.attempt == rec.attempt || saves.attempt == rec.attempt + 1)
    && (InFlight(saves.status) ==> InFlight(rec.status) || saves.attempt == rec.attempt + 1)
  }

  /** A process that has seen the record as it is saves what goes on from it; and it ends an attempt that had
      not settled, or the next, or one it was itself refused. */
  lemma UpToDateGoesOn(c: Config, s: State, step: Step)
    requires Sound(s) && Saves(c, s, step) && UpToDate(s, step.p)
    ensures GoesOn(Writes(c, s, step).value, s.rec)
    ensures EndsAttempt(step) ==>
              !Settled(s.rec.status) || Writes(c, s, step).value.attempt == s.rec.attempt + 1
              || (DrivesRefused(s.procs[step.p]) && Writes(c, s, step).value.attempt == s.procs[step.p].job.attempt)
  {
    assert Sane(s.procs[step.p]) && Matches(s.procs[step.p], s.rec);
  }

  lemma SavingIsWritten(c: Config, s: State, step: Step)
    requires Enabled(c, s, step)
    ensures Saves(c, s, step) ==>
              Apply(c, s, step).rec == Writes(c, s, step).value
              && Apply(c, s, step).saved == s.saved + [Writes(c, s, step).value]
    ensures !Saves(c, s, step) ==> Apply(c, s, step).rec == s.rec && Apply(c, s, step).saved == s.saved
  {
  }

  // ---------- exactly when the record goes back ----------

  lemma LooksBeforeItSaves(c: Config, s: State, step: Step)
    requires Sound(s) && Saves(c, s, step)
    ensures step.p in s.read && s.read[step.p] <= |s.saved| && s.procs[step.p] != Idle
  {
  }

  /** What is behind anything saved before is behind the record, as long as nothing went back. */
  lemma BehindTheLast(saved: seq<Rec>, j: nat, saves: Rec)
    requires InSequence(saved) && j < |saved| && Behind(saves, saved[j])
    ensures Behind(saves, LastSaved(saved))
  {
  }

  /** Nothing has gone back yet: the next step goes back if and only if its process was overtaken. */
  lemma GoesBackExactlyWhenOvertaken(c: Config, s: State, step: Step)
    requires Sound(s) && InSequence(s.saved) && Enabled(c, s, step)
    ensures GoesBack(c, s, step) <==> SavesOvertaken(c, s, step)
  {
    BackMeansBehind(c, s, step);
    if GoesBack(c, s, step) {
      BackMeansOvertaken(c, s, step);
    } else if SavesOvertaken(c, s, step) {
      OvertakenMeansBehind(c, s, step);
    }
  }

  lemma BackMeansBehind(c: Config, s: State, step: Step)
    requires Enabled(c, s, step)
    ensures GoesBack(c, s, step) <==> Saves(c, s, step) && Behind(Writes(c, s, step).value, s.rec)
  {
    SavingIsWritten(c, s, step);
  }

  lemma OvertakenMeansBehind(c: Config, s: State, step: Step)
    requires Sound(s) && InSequence(s.saved) && SavesOvertaken(c, s, step)
    ensures Behind(Writes(c, s, step).value, s.rec)
  {
    var saves := Writes(c, s, step).value;
    var j :| s.read[step.p] <= j < |s.saved| && Behind(saves, s.saved[j]);
    BehindTheLast(s.saved, j, saves);
  }

  lemma BackMeansOvertaken(c: Config, s: State, step: Step)
    requires Sound(s) && Saves(c, s, step) && Behind(Writes(c, s, step).value, s.rec)
    ensures SavesOvertaken(c, s, step)
  {
    LooksBeforeItSaves(c, s, step);
    if UpToDate(s, step.p) {
      UpToDateGoesOn(c, s, step);
    } else {
      assert Behind(Writes(c, s, step).value, s.saved[|s.saved| - 1]);
    }
  }

  lemma StaysInSequence(c: Config, s: State, step: Step)
    requires Sound(s) && InSequence(s.saved) && Enabled(c, s, step) && !GoesBack(c, s, step)
    ensures InSequence(Apply(c, s, step).saved)
  {
    SavingIsWritten(c, s, step);
    if Saves(c, s, step) {
      forall j | 0 <= j < |s.saved| ensures !Behind(Writes(c, s, step).value, s.saved[j]) {
        if Behind(Writes(c, s, step).value, s.saved[j]) { BehindTheLast(s.saved, j, Writes(c, s, step).value); }
      }
    }
  }

  /** Along a whole run the attempt never goes down and DONE is for good, if and only if nobody who was overtaken
      saves. */
  lemma {:induction false} DoneIsForGoodExactlyWhen(c: Config, s: State, steps: seq<Step>)
    requires Sound(s) && InSequence(s.saved) && IsRun(c, s, steps)
    ensures NeverTakes(c, s, steps, GoesBack) <==> NeverTakes(c, s, steps, SavesOvertaken)
    ensures NeverTakes(c, s, steps, SavesOvertaken) ==>
              s.rec.attempt <= EndOf(c, s, steps).rec.attempt
              && (s.rec.status == Done ==> EndOf(c, s, steps).rec == s.rec)
              && InSequence(EndOf(c, s, steps).saved)
    decreases |steps|
  {
    if steps != [] {
      GoesBackExactlyWhenOvertaken(c, s, steps[0]);
      StepIsSound(c, s, steps[0]);
      if !GoesBack(c, s, steps[0]) {
        StaysInSequence(c, s, steps[0]);
        DoneIsForGoodExactlyWhen(c, Apply(c, s, steps[0]), steps[1..]);
      }
    }
  }

  // ---------- what was saved since a process looked ----------

  /** The steps by which a process comes to know the record. */
  predicate Looks(step: Step, p: Proc) {
    !step.Advance? && step.p == p &&
    (ReadsSummary(step) || EndsAttempt(step) || step.PersistRunning? || step.Progress?)
  }

  ghost function SavedBy(c: Config, s: State, step: Step): seq<Rec>
    requires Enabled(c, s, step)
  {
    if Saves(c, s, step) then [Writes(c, s, step).value] else []
  }

  /** The summaries a run saves, in order. */
  ghost function SavedAlong(c: Config, s: State, steps: seq<Step>): seq<Rec>
    requires IsRun(c, s, steps)
    decreases |steps|
  {
    if steps == [] then [] else SavedBy(c, s, steps[0]) + SavedAlong(c, Apply(c, s, steps[0]), steps[1..])
  }

  lemma OneMoreSaved(c: Config, s: State, step: Step, rest: seq<Rec>)
    requires Enabled(c, s, step)
    ensures Apply(c, s, step).saved + rest == s.saved + (SavedBy(c, s, step) + rest)
  {
    assert Apply(c, s, step).saved == s.saved + SavedBy(c, s, step);
  }

  lemma {:induction false} SavedIsKnown(c: Config, s: State, steps: seq<Step>)
    requires IsRun(c, s, steps)
    ensures EndOf(c, s, steps).saved == s.saved + SavedAlong(c, s, steps)
    decreases |steps|
  {
    if steps != [] {
      var s' := Apply(c, s, steps[0]);
      OneMoreSaved(c, s, steps[0], SavedAlong(c, s', steps[1..]));
      SavedIsKnown(c, s', steps[1..]);
    }
  }

  lemma {:induction false} ReadStays(c: Config, s: State, p: Proc, steps: seq<Step>)
    requires IsRun(c, s, steps) && p in s.read
    requires forall i :: 0 <= i < |steps| ==> !Looks(steps[i], p)
    ensures p in EndOf(c, s, steps).read && EndOf(c, s, steps).read[p] == s.read[p]
    decreases |steps|
  {
    if steps != [] {
      ReadStaysOnce(c, s, p, steps[0]);
      ReadStays(c, Apply(c, s, steps[0]), p, steps[1..]);
    }
  }

  lemma ReadStaysOnce(c: Config, s: State, p: Proc, step: Step)
    requires Enabled(c, s, step) && !Looks(step, p) && p in s.read
    ensures p in Apply(c, s, step).read && Apply(c, s, step).read[p] == s.read[p]
  {
  }

  /** A process has just looked. Through any run in which it does not look again, and in which nothing goes back:
      its save then goes back if and only if a later attempt than it saves, or a DONE it is not, was saved in
      between. */
  lemma GoesBackExactlyWhenPassed(c: Config, s: State, p: Proc, steps: seq<Step>, step: Step)
    requires Sound(s) && InSequence(s.saved) && UpToDate(s, p) && IsRun(c, s, steps)
    requires forall i :: 0 <= i < |steps| ==> !Looks(steps[i], p)
    requires NeverTakes(c, s, steps, GoesBack)
    requires !step.Advance? && step.p == p && Saves(c, EndOf(c, s, steps), step)
    ensures GoesBack(c, EndOf(c, s, steps), step) <==>
              exists rec :: rec in SavedAlong(c, s, steps) && Behind(Writes(c, EndOf(c, s, steps), step).value, rec)
  {
    var e := EndOf(c, s, steps);
    RunIsSound(c, s, steps);
    DoneIsForGoodExactlyWhen(c, s, steps);
    GoesBackExactlyWhenOvertaken(c, e, step);
    SavedIsKnown(c, s, steps);
    ReadStays(c, s, p, steps);
    BehindOneOf(s.saved, SavedAlong(c, s, steps), Writes(c, e, step).value);
  }

  lemma BehindOneOf(before: seq<Rec>, between: seq<Rec>, saves: Rec)
    ensures (exists j :: |before| <= j < |before + between| && Behind(saves, (before + between)[j])) <==>
              exists rec :: rec in between && Behind(saves, rec)
  {
    forall rec | rec in between && Behind(saves, rec)
      ensures exists j :: |before| <= j < |before + between| && Behind(saves, (before + between)[j])
    {
      var i :| 0 <= i < |between| && between[i] == rec;
      assert (before + between)[|before| + i] == rec;
    }
  }

  /** Whoever takes a summary up to act on it has just read it. */
  lemma TakingUpIsReading(c: Config, s: State, step: Step)
    requires Enabled(c, s, step)
    requires step.RunJob? || step.ResumeJob? || step.CancelCall? || step.RecoverRead? || step.AwaitSummary?
    ensures UpToDate(Apply(c, s, step), step.p)
  {
  }

  /** A process that knew the record has missed something, some steps of others later, if and only if the record
      was written in between. */
  lemma StaleExactlyWhenWrittenSince(c: Config, s: State, p: Proc, steps: seq<Step>)
    requires Sound(s) && IsRun(c, s, steps) && p in s.read
    requires forall i :: 0 <= i < |steps| ==> !Looks(steps[i], p)
    ensures UpToDate(EndOf(c, s, steps), p) <==> UpToDate(s, p) && SavedAlong(c, s, steps) == []
  {
    SavedIsKnown(c, s, steps);
    ReadStays(c, s, p, steps);
  }

  // ---------- a canceller's CANCELLED ----------

  /** On every run: a canceller writes its CANCELLED over an ending if and only if the last summary saved since its
      reading is one. */
  lemma ACancellerCoversExactlyWhen(c: Config, s: State, p: Proc)
    requires Sound(s) && Enabled(c, s, WriteTombstone(p))
    ensures p in s.read
    ensures Settled(s.rec.status) <==> s.read[p] < |s.saved| && Settled(s.saved[|s.saved| - 1].status)
  {
    assert Sane(s.procs[p]);
    if UpToDate(s, p) { assert Matches(s.procs[p], s.rec); }
  }
}
