/** Telling a conversation of its jobs' endings, exactly once in its thread (jobsmith/adapters/langchain/
    delivery.py and launch.py, over jobsmith/engine/manager.py): the store's records, the thread's
    checkpoint, and a turn that may die at any point. */
module Delivery {
  import opened Options
  import opened Jobs

  type JobId = string
  type Manager = nat

  /** A job addressed to the thread. `stopped`: this ending is the stop of that manager's amendment, under way. */
  datatype Job = Job(status: Status, attempt: nat, delivered: bool, stopped: Option<Manager>)

  /** What a notice, or a launch tool's result, says of a job; and what it does not say: whose amendment had
      stopped the job when it was read. */
  datatype News = News(attempt: nat, status: Status, stopped: Option<Manager>)

  /** A stop made to amend a job: whose, and of which attempt. */
  datatype Stop = Stop(m: Manager, id: JobId, attempt: nat)

  /** One message that told of an ending: a model's answer to a notice, or a launch tool's result. */
  datatype Telling = Telling(id: JobId, news: News, byModel: bool)

  /** Where the turn is. `Holding`: the model has been told, or the tool has answered, and the update is not
      checkpointed; `Marking`: it is, and the stamps are being written. */
  datatype Turn = Idle | Launching(id: JobId) | Holding(news: map<JobId, News>, byModel: bool) | Marking

  datatype State = State(
    jobs: map<JobId, Job>,
    amending: set<(Manager, JobId)>,   // each manager's own
    record: map<JobId, nat>,           // the thread's channel: job id to attempt
    told: multiset<Telling>,           // the messages in the thread's checkpoint
    turn: Turn,
    stops: set<Stop>,                  // those another attempt followed
    kept: set<Stop>)                   // those that became endings: the amendment was refused

  datatype Step =
    | Create(id: JobId) | Run(id: JobId) | Settle(id: JobId, status: Status) | Cancel(id: JobId)
    | Resume(id: JobId) | Answer(id: JobId)
    | Amend(m: Manager, id: JobId) | StopToAmend(m: Manager, id: JobId) | AmendOn(m: Manager, id: JobId)
    | AmendRefused(m: Manager, id: JobId)
    | Launch(id: JobId) | LaunchEnds | CallModel | Checkpoint | Mark(id: JobId) | EndTurn | CrashTurn

  predicate Told(id: JobId, attempt: nat, record: map<JobId, nat>) {
    id in record && record[id] >= attempt
  }

  /** What a receiver that pulls through manager `here` has still to take. */
  predicate Pending(s: State, here: Manager, id: JobId) {
    id in s.jobs && Settled(s.jobs[id].status) && !s.jobs[id].delivered && (here, id) !in s.amending
  }

  function NewsOf(job: Job): News {
    News(job.attempt, job.status, job.stopped)
  }

  /** The endings the next model call tells of. */
  function Notice(s: State, here: Manager): (news: map<JobId, News>)
    ensures forall id :: id in news <==> Pending(s, here, id) && !Told(id, s.jobs[id].attempt, s.record)
    ensures forall id :: id in news ==> id in s.jobs && news[id] == NewsOf(s.jobs[id])
  {
    map id | id in s.jobs && Pending(s, here, id) && !Told(id, s.jobs[id].attempt, s.record) :: NewsOf(s.jobs[id])
  }

  /** The channel's reducer. */
  function Merge(record: map<JobId, nat>, news: map<JobId, News>): map<JobId, nat> {
    record + map id | id in news :: news[id].attempt
  }

  function Tellings(news: map<JobId, News>, byModel: bool): (r: set<Telling>)
    ensures forall t :: t in r <==> t.id in news && news[t.id] == t.news && t.byModel == byModel
  {
    set id | id in news :: Telling(id, news[id], byModel)
  }

  predicate Enabled(s: State, here: Manager, step: Step) {
    match step
    case Create(id) => id !in s.jobs
    case Run(id) => id in s.jobs && s.jobs[id].status == Queued
    case Settle(id, status) => id in s.jobs && s.jobs[id].status == Running && !InFlight(status)
    case Cancel(id) => id in s.jobs && (s.jobs[id].status == Queued || s.jobs[id].status == NeedsInput)
    case Resume(id) => id in s.jobs && Resumable(s.jobs[id].status)
    case Answer(id) => id in s.jobs && s.jobs[id].status == NeedsInput
    case Amend(m, id) => id in s.jobs && forall k: (Manager, JobId) :: k in s.amending ==> k.1 != id
    case StopToAmend(m, id) => (m, id) in s.amending && id in s.jobs && s.jobs[id].status == Running
    case AmendOn(m, id) => (m, id) in s.amending && id in s.jobs && Resumable(s.jobs[id].status)
    case AmendRefused(m, id) => (m, id) in s.amending && id in s.jobs
    case Launch(id) => s.turn == Idle && id !in s.jobs
    case LaunchEnds => s.turn.Launching? && s.turn.id in s.jobs
    case CallModel => s.turn == Idle
    case Checkpoint => s.turn.Holding?
    case Mark(id) => s.turn == Marking && Pending(s, here, id) && Told(id, s.jobs[id].attempt, s.record)
    case EndTurn => s.turn == Marking
    case CrashTurn => true
  }

  function StopOf(id: JobId, job: Job): set<Stop> {
    if job.stopped.Some? then {Stop(job.stopped.value, id, job.attempt)} else {}
  }

  function With(s: State, id: JobId, job: Job): State {
    s.(jobs := s.jobs[id := job])
  }

  /** A new attempt: the stop it follows, if an amendment made it, is no ending, and its stamp is cleared. */
  function Reopened(s: State, id: JobId): State
    requires id in s.jobs
  {
    var job := s.jobs[id];
    With(s, id, Job(Running, job.attempt + 1, false, None))
      .(stops := s.stops + StopOf(id, job))
  }

  function Apply(s: State, here: Manager, step: Step): State
    requires Enabled(s, here, step)
  {
    match step
    case Create(id) => With(s, id, Job(Queued, 1, false, None))
    case Run(id) => With(s, id, s.jobs[id].(status := Running))
    case Settle(id, status) => With(s, id, s.jobs[id].(status := status))
    case Cancel(id) => With(s, id, s.jobs[id].(status := Cancelled))
    case Resume(id) => Reopened(s, id)
    case Answer(id) => Reopened(s, id)
    case Amend(m, id) => s.(amending := s.amending + {(m, id)})
    case StopToAmend(m, id) => With(s, id, s.jobs[id].(status := Cancelled, stopped := Some(m)))
    case AmendOn(m, id) => Reopened(s, id).(amending := s.amending - {(m, id)})
    case AmendRefused(m, id) =>
      With(s, id, s.jobs[id].(stopped := None))
        .(amending := s.amending - {(m, id)}, kept := s.kept + StopOf(id, s.jobs[id]))
    case Launch(id) => With(s, id, Job(Queued, 1, false, None)).(turn := Launching(id))
    case LaunchEnds =>
      var id := s.turn.id;
      s.(turn := if InFlight(s.jobs[id].status) then Idle else Holding(map[id := NewsOf(s.jobs[id])], false))
    case CallModel => s.(turn := Holding(Notice(s, here), true))
    case Checkpoint =>
      s.(record := Merge(s.record, s.turn.news), told := s.told + multiset(Tellings(s.turn.news, s.turn.byModel)),
         turn := if s.turn.byModel then Marking else Idle)
    case Mark(id) => With(s, id, s.jobs[id].(delivered := true))
    case EndTurn => s.(turn := Idle)
    case CrashTurn => s.(turn := Idle)
  }

  function Start(): State {
    State(map[], {}, map[], multiset{}, Idle, {}, {})
  }

  ghost predicate IsRun(s: State, here: Manager, steps: seq<Step>)
    decreases |steps|
  {
    steps == [] || (Enabled(s, here, steps[0]) && IsRun(Apply(s, here, steps[0]), here, steps[1..]))
  }

  ghost function EndOf(s: State, here: Manager, steps: seq<Step>): State
    requires IsRun(s, here, steps)
    decreases |steps|
  {
    if steps == [] then s else EndOf(Apply(s, here, steps[0]), here, steps[1..])
  }

  // ---------- the invariant ----------

  /** A piece of news is at most what the job has become since: an attempt that ended, or a pause. */
  ghost predicate Fits(id: JobId, news: News, jobs: map<JobId, Job>) {
    && id in jobs && news.attempt <= jobs[id].attempt && !InFlight(news.status)
    && (news.attempt == jobs[id].attempt ==>
          jobs[id].status == news.status || (news.status == NeedsInput && jobs[id].status == Cancelled))
  }

  /** The attempt was stopped by `m` only to amend the job: another followed, or is about to. */
  ghost predicate OfAStop(stop: Stop, jobs: map<JobId, Job>, stops: set<Stop>) {
    stop in stops || (stop.id in jobs && stop in StopOf(stop.id, jobs[stop.id]))
  }

  /** News is of a stop exactly when it was read while the job was stopped, and the stop is not kept. */
  ghost predicate TellsTheStop(id: JobId, news: News, s: State) {
    forall m: Manager :: OfAStop(Stop(m, id, news.attempt), s.jobs, s.stops) <==>
                         news.stopped == Some(m) && Stop(m, id, news.attempt) !in s.kept
  }

  ghost predicate JobOk(id: JobId, s: State) {
    && id in s.jobs
    && (InFlight(s.jobs[id].status) ==> !s.jobs[id].delivered && s.jobs[id].stopped.None?)
    && (s.jobs[id].stopped.Some? ==> s.jobs[id].status == Cancelled && (s.jobs[id].stopped.value, id) in s.amending)
    && (s.jobs[id].delivered ==> Told(id, s.jobs[id].attempt, s.record))
  }

  ghost predicate TellingOk(t: Telling, s: State, here: Manager) {
    && Fits(t.id, t.news, s.jobs) && s.told[t] == 1 && Told(t.id, t.news.attempt, s.record)
    && TellsTheStop(t.id, t.news, s) && (t.byModel ==> t.news.stopped != Some(here))
  }

  ghost predicate TurnOk(s: State, here: Manager) {
    match s.turn
    case Launching(id) => id in s.jobs && id !in s.record
    case Holding(news, byModel) =>
      forall id :: id in news ==>
        && Fits(id, news[id], s.jobs) && !Told(id, news[id].attempt, s.record)
        && TellsTheStop(id, news[id], s) && (byModel ==> news[id].stopped != Some(here))
    case _ => true
  }

  ghost predicate Recorded(id: JobId, attempt: nat, told: multiset<Telling>) {
    exists t :: t in told && t.id == id && t.news.attempt == attempt
  }

  ghost predicate AmendingOk(amending: set<(Manager, JobId)>) {
    forall k, l :: k in amending && l in amending && k.1 == l.1 ==> k == l
  }

  /** An ending that no amendment can stop any more. */
  predicate Over(job: Job) {
    !InFlight(job.status) && job.stopped.None?
  }

  ghost predicate Inv(s: State, here: Manager) {
    && (forall id {:trigger s.jobs[id]} :: id in s.jobs ==> JobOk(id, s))
    && (forall t :: t in s.told ==> TellingOk(t, s, here))
    && (forall t, u :: t in s.told && u in s.told && t.id == u.id && t.news.attempt == u.news.attempt ==> t == u)
    && (forall id :: id in s.record ==> Recorded(id, s.record[id], s.told))
    && (forall k :: k in s.stops ==> k.id in s.jobs && k.attempt < s.jobs[k.id].attempt && k !in s.kept)
    && (forall k :: k in s.kept ==> k.id in s.jobs && k.attempt <= s.jobs[k.id].attempt
                                    && (k.attempt == s.jobs[k.id].attempt ==> Over(s.jobs[k.id])))
    && TurnOk(s, here) && AmendingOk(s.amending)
  }

  // ---------- it is kept ----------

  /** A job that moved on: whatever was or is about to be said of it still fits. */
  ghost predicate MovedOn(was: Job, job: Job) {
    || job.attempt == was.attempt + 1
    || (job.attempt == was.attempt
        && (job.status == was.status || InFlight(was.status) || (was.status == NeedsInput && job.status == Cancelled)))
  }

  /** What a step does to a job's stop: nothing, or it stops the run, goes on from the stop, or keeps it. */
  ghost predicate StopMoves(s: State, s': State, id: JobId) {
    && id in s'.jobs
    && if id !in s.jobs then s'.jobs[id].stopped.None? && s'.stops == s.stops && s'.kept == s.kept
       else
         var was, job := s.jobs[id], s'.jobs[id];
         || (job.stopped == was.stopped && job.attempt == was.attempt && s'.stops == s.stops && s'.kept == s.kept
             && (InFlight(job.status) ==> InFlight(was.status)))
         || (InFlight(was.status) && job.attempt == was.attempt && s'.stops == s.stops && s'.kept == s.kept)
         || (job.attempt == was.attempt + 1 && job.stopped.None? && s'.stops == s.stops + StopOf(id, was)
             && s'.kept == s.kept)
         || (job == was.(stopped := None) && s'.stops == s.stops && s'.kept == s.kept + StopOf(id, was))
  }

  lemma StopsKeep(s: State, s': State, here: Manager, id: JobId)
    requires Inv(s, here) && id in s'.jobs && s'.jobs == s.jobs[id := s'.jobs[id]]
    requires StopMoves(s, s', id) && JobOk(id, s')
    ensures forall k :: k in s'.stops ==> k.id in s'.jobs && k.attempt < s'.jobs[k.id].attempt && k !in s'.kept
    ensures forall k :: k in s'.kept ==> k.id in s'.jobs && k.attempt <= s'.jobs[k.id].attempt
                                         && (k.attempt == s'.jobs[k.id].attempt ==> Over(s'.jobs[k.id]))
  {
    if id in s.jobs { assert JobOk(id, s); }
  }

  lemma JobStepKeeps(s: State, s': State, here: Manager, id: JobId)
    requires Inv(s, here) && id in s'.jobs && s'.jobs == s.jobs[id := s'.jobs[id]]
    requires s'.record == s.record && s'.told == s.told && s'.turn == s.turn && AmendingOk(s'.amending)
    requires forall k :: k in s.amending && k.1 != id ==> k in s'.amending
    requires JobOk(id, s') && (id in s.jobs ==> MovedOn(s.jobs[id], s'.jobs[id])) && StopMoves(s, s', id)
    ensures Inv(s', here)
  {
    StopsKeep(s, s', here, id);
    forall j | j in s'.jobs ensures JobOk(j, s') {
      if j != id { assert s'.jobs[j] == s.jobs[j] && JobOk(j, s); }
    }
    forall t | t in s'.told ensures TellingOk(t, s', here) {
      assert TellingOk(t, s, here);
      NewsStays(s, s', here, id, t.id, t.news);
    }
    if s'.turn.Holding? {
      forall j | j in s'.turn.news
        ensures Fits(j, s'.turn.news[j], s'.jobs) && TellsTheStop(j, s'.turn.news[j], s')
        ensures !Told(j, s'.turn.news[j].attempt, s'.record) && (s'.turn.byModel ==> s'.turn.news[j].stopped != Some(here))
      {
        NewsStays(s, s', here, id, j, s'.turn.news[j]);
      }
    }
  }

  /** News that fitted still does, and is of a stop exactly when it was. */
  lemma NewsStays(s: State, s': State, here: Manager, id: JobId, j: JobId, news: News)
    requires Inv(s, here) && id in s'.jobs && s'.jobs == s.jobs[id := s'.jobs[id]] && JobOk(id, s')
    requires Fits(j, news, s.jobs) && TellsTheStop(j, news, s)
    requires (id in s.jobs ==> MovedOn(s.jobs[id], s'.jobs[id])) && StopMoves(s, s', id)
    ensures Fits(j, news, s'.jobs) && TellsTheStop(j, news, s')
  {
    if id in s.jobs { assert JobOk(id, s); }
    forall m: Manager ensures OfAStop(Stop(m, j, news.attempt), s'.jobs, s'.stops) <==>
                              news.stopped == Some(m) && Stop(m, j, news.attempt) !in s'.kept
    {
      assert OfAStop(Stop(m, j, news.attempt), s.jobs, s.stops) <==>
             news.stopped == Some(m) && Stop(m, j, news.attempt) !in s.kept;
    }
  }

  lemma LifeKeeps(s: State, here: Manager, step: Step)
    requires Inv(s, here) && Enabled(s, here, step)
    requires step.Create? || step.Run? || step.Settle? || step.Cancel?
    ensures Inv(Apply(s, here, step), here)
  {
    if step.id in s.jobs { assert JobOk(step.id, s); }
    JobStepKeeps(s, Apply(s, here, step), here, step.id);
  }

  lemma ReopenKeeps(s: State, here: Manager, step: Step)
    requires Inv(s, here) && Enabled(s, here, step)
    requires step.Resume? || step.Answer? || step.AmendOn?
    ensures Inv(Apply(s, here, step), here)
  {
    assert JobOk(step.id, s);
    JobStepKeeps(s, Apply(s, here, step), here, step.id);
  }

  lemma AmendKeeps(s: State, here: Manager, step: Step)
    requires Inv(s, here) && Enabled(s, here, step)
    requires step.Amend? || step.StopToAmend? || step.AmendRefused?
    ensures Inv(Apply(s, here, step), here)
  {
    assert JobOk(step.id, s);
    var s' := Apply(s, here, step);
    assert s'.jobs == s.jobs[step.id := s'.jobs[step.id]];
    JobStepKeeps(s, s', here, step.id);
  }

  lemma MarkKeeps(s: State, here: Manager, id: JobId)
    requires Inv(s, here) && Enabled(s, here, Mark(id))
    ensures Inv(Apply(s, here, Mark(id)), here)
  {
    assert JobOk(id, s);
    JobStepKeeps(s, Apply(s, here, Mark(id)), here, id);
  }

  lemma RecordedJobsExist(s: State, here: Manager, id: JobId)
    requires Inv(s, here) && id in s.record
    ensures id in s.jobs && s.record[id] <= s.jobs[id].attempt
  {
  }

  lemma LaunchKeeps(s: State, here: Manager, id: JobId)
    requires Inv(s, here) && Enabled(s, here, Launch(id))
    ensures Inv(Apply(s, here, Launch(id)), here)
  {
    LifeKeeps(s, here, Create(id));
    var s1 := Apply(s, here, Create(id));
    assert Apply(s, here, Launch(id)) == s1.(turn := Launching(id));
    assert id !in s.record by {
      if id in s.record { RecordedJobsExist(s, here, id); }
    }
    TurnKeeps(s1, here, Launching(id));
  }

  lemma TurnKeeps(s: State, here: Manager, turn: Turn)
    requires Inv(s, here) && TurnOk(s.(turn := turn), here)
    ensures Inv(s.(turn := turn), here)
  {
  }

  /** What is read of a job as it stands. */
  lemma ReadingFits(s: State, here: Manager, id: JobId)
    requires Inv(s, here) && id in s.jobs && !InFlight(s.jobs[id].status)
    ensures Fits(id, NewsOf(s.jobs[id]), s.jobs) && TellsTheStop(id, NewsOf(s.jobs[id]), s)
  {
    assert JobOk(id, s);
  }

  lemma CallingKeeps(s: State, here: Manager)
    requires Inv(s, here) && s.turn == Idle
    ensures Inv(Apply(s, here, CallModel), here)
  {
    forall id | id in Notice(s, here)
      ensures Fits(id, NewsOf(s.jobs[id]), s.jobs) && TellsTheStop(id, NewsOf(s.jobs[id]), s)
      ensures NewsOf(s.jobs[id]).stopped != Some(here)
    {
      ReadingFits(s, here, id);
      assert JobOk(id, s);
    }
    TurnKeeps(s, here, Holding(Notice(s, here), true));
  }

  lemma TurnStepKeeps(s: State, here: Manager, step: Step)
    requires Inv(s, here) && Enabled(s, here, step)
    requires step.LaunchEnds? || step.EndTurn? || step.CrashTurn?
    ensures Inv(Apply(s, here, step), here)
  {
    if step.LaunchEnds? && !InFlight(s.jobs[s.turn.id].status) { ReadingFits(s, here, s.turn.id); }
    TurnKeeps(s, here, Apply(s, here, step).turn);
  }

  /** What is about to be checkpointed was not told before. */
  lemma HeldIsNew(s: State, here: Manager, t: Telling)
    requires Inv(s, here) && s.turn.Holding? && t in s.told
    ensures t !in Tellings(s.turn.news, s.turn.byModel)
    ensures t.id in s.turn.news ==> t.news.attempt < s.turn.news[t.id].attempt
  {
  }

  lemma CheckpointTells(s: State, here: Manager, t: Telling)
    requires Inv(s, here) && s.turn.Holding? && t in Apply(s, here, Checkpoint).told
    ensures TellingOk(t, Apply(s, here, Checkpoint), here)
  {
    if t in s.told {
      HeldIsNew(s, here, t);
      assert TellingOk(t, s, here);
    }
  }

  lemma CheckpointRecords(s: State, here: Manager, id: JobId)
    requires Inv(s, here) && s.turn.Holding? && id in Apply(s, here, Checkpoint).record
    ensures Recorded(id, Apply(s, here, Checkpoint).record[id], Apply(s, here, Checkpoint).told)
  {
    var s' := Apply(s, here, Checkpoint);
    if id in s.turn.news {
      assert Telling(id, s.turn.news[id], s.turn.byModel) in s'.told;
    } else {
      assert Recorded(id, s.record[id], s.told);
      var t :| t in s.told && t.id == id && t.news.attempt == s.record[id];
      assert t in s'.told;
    }
  }

  lemma CheckpointKeepsJobs(s: State, here: Manager, id: JobId)
    requires Inv(s, here) && s.turn.Holding? && id in s.jobs
    ensures JobOk(id, Apply(s, here, Checkpoint))
  {
  }

  /** A checkpoint takes the update whole: the messages, and the record of what they told. */
  lemma CheckpointKeeps(s: State, here: Manager)
    requires Inv(s, here) && s.turn.Holding?
    ensures Inv(Apply(s, here, Checkpoint), here)
  {
    var s' := Apply(s, here, Checkpoint);
    forall id | id in s'.jobs ensures JobOk(id, s') {
      CheckpointKeepsJobs(s, here, id);
    }
    forall t | t in s'.told ensures TellingOk(t, s', here) {
      CheckpointTells(s, here, t);
    }
    forall t, u | t in s'.told && u in s'.told && t.id == u.id && t.news.attempt == u.news.attempt ensures t == u {
      if t in s.told { HeldIsNew(s, here, t); }
      if u in s.told { HeldIsNew(s, here, u); }
    }
    forall id | id in s'.record ensures Recorded(id, s'.record[id], s'.told) {
      CheckpointRecords(s, here, id);
    }
  }

  lemma StepKeeps(s: State, here: Manager, step: Step)
    requires Inv(s, here) && Enabled(s, here, step)
    ensures Inv(Apply(s, here, step), here)
  {
    match step {
      case Create(_) | Run(_) | Settle(_, _) | Cancel(_) => LifeKeeps(s, here, step);
      case Resume(_) | Answer(_) | AmendOn(_, _) => ReopenKeeps(s, here, step);
      case Amend(_, _) | StopToAmend(_, _) | AmendRefused(_, _) => AmendKeeps(s, here, step);
      case Launch(id) => LaunchKeeps(s, here, id);
      case CallModel => CallingKeeps(s, here);
      case LaunchEnds | EndTurn | CrashTurn => TurnStepKeeps(s, here, step);
      case Checkpoint => CheckpointKeeps(s, here);
      case Mark(id) => MarkKeeps(s, here, id);
    }
  }

  lemma {:induction false} RunKeeps(s: State, here: Manager, steps: seq<Step>)
    requires Inv(s, here) && IsRun(s, here, steps)
    ensures Inv(EndOf(s, here, steps), here)
    decreases |steps|
  {
    if steps != [] {
      StepKeeps(s, here, steps[0]);
      RunKeeps(Apply(s, here, steps[0]), here, steps[1..]);
    }
  }

  // ---------- what every run gives ----------

  /** In the checkpointed thread each ending is told at most once, whatever crashed and whenever; and the
      record has an attempt exactly when a message told it. */
  lemma ToldAtMostOnce(here: Manager, steps: seq<Step>)
    requires IsRun(Start(), here, steps)
    ensures var s := EndOf(Start(), here, steps);
            && (forall t :: t in s.told ==> s.told[t] == 1)
            && (forall t, u :: t in s.told && u in s.told && t.id == u.id && t.news.attempt == u.news.attempt ==> t == u)
            && (forall t :: t in s.told ==> t.id in s.record && t.news.attempt <= s.record[t.id])
            && forall id :: id in s.record ==> Recorded(id, s.record[id], s.told)
  {
    RunKeeps(Start(), here, steps);
    var s := EndOf(Start(), here, steps);
    forall t | t in s.told ensures s.told[t] == 1 && t.id in s.record && t.news.attempt <= s.record[t.id] {
      assert TellingOk(t, s, here);
    }
  }

  /** `delivered_at` is never ahead of the thread: a stamped job's present attempt is on the record, and was
      told in a message of the checkpoint. */
  lemma StampedIsTold(here: Manager, steps: seq<Step>, id: JobId)
    requires IsRun(Start(), here, steps)
    requires id in EndOf(Start(), here, steps).jobs && EndOf(Start(), here, steps).jobs[id].delivered
    ensures var s := EndOf(Start(), here, steps);
            id in s.record && s.record[id] == s.jobs[id].attempt && Recorded(id, s.jobs[id].attempt, s.told)
  {
    RunKeeps(Start(), here, steps);
    var s := EndOf(Start(), here, steps);
    assert JobOk(id, s);
    RecordedJobsExist(s, here, id);
  }

  /** The turn dies, wherever it is: what it held is lost, and nothing else. */
  ghost function Died(s: State, here: Manager): State {
    Apply(s, here, CrashTurn)
  }

  lemma DyingLosesTheTurnOnly(s: State, here: Manager)
    ensures Died(s, here) == s.(turn := Idle)
  {
  }

  /** An ending no message told of is in the next notice, wherever the turn before it died; a turn that gets to its
      checkpoint tells it once, stamps it, and ends. */
  lemma NoEndingIsLost(here: Manager, steps: seq<Step>, id: JobId)
    requires IsRun(Start(), here, steps)
    requires var s := EndOf(Start(), here, steps);
             && id in s.jobs && Settled(s.jobs[id].status) && (here, id) !in s.amending
             && !Recorded(id, s.jobs[id].attempt, s.told)
    ensures var s, d := EndOf(Start(), here, steps), Died(EndOf(Start(), here, steps), here);
            && d == s.(turn := Idle) && id in Notice(d, here)
            && AfterTurn(d, here).told[Telling(id, NewsOf(s.jobs[id]), true)] == 1
            && IsStampedBy(AfterTurn(d, here), here, id)
  {
    RunKeeps(Start(), here, steps);
    var s := EndOf(Start(), here, steps);
    DyingLosesTheTurnOnly(s, here);
    StepKeeps(s, here, CrashTurn);
    var d := Died(s, here);
    UntoldIsPending(d, here, id);
    assert TellingIsNew(d, id);
    NoticeTells(d, here, id);
    NoticeStamps(d, here, id);
  }

  ghost predicate TellingIsNew(s: State, id: JobId)
    requires id in s.jobs
  {
    Telling(id, NewsOf(s.jobs[id]), true) !in s.told
  }

  lemma UntoldIsPending(s: State, here: Manager, id: JobId)
    requires Inv(s, here) && id in s.jobs && Settled(s.jobs[id].status) && (here, id) !in s.amending
    requires !Recorded(id, s.jobs[id].attempt, s.told)
    ensures Pending(s, here, id) && !Told(id, s.jobs[id].attempt, s.record)
  {
  }

  /** The state after a model call and its checkpoint. */
  ghost function AfterTurn(s: State, here: Manager): State
    requires s.turn == Idle
  {
    Apply(Apply(s, here, CallModel), here, Checkpoint)
  }

  ghost predicate IsStampedBy(s: State, here: Manager, id: JobId) {
    Enabled(s, here, Mark(id)) &&
    var s' := Apply(s, here, Mark(id));
    id in s'.jobs && s'.jobs[id].delivered && Enabled(s', here, EndTurn) && Apply(s', here, EndTurn) == s'.(turn := Idle)
  }

  lemma NoticeTells(s: State, here: Manager, id: JobId)
    requires s.turn == Idle && id in s.jobs && id in Notice(s, here)
    requires Telling(id, NewsOf(s.jobs[id]), true) !in s.told
    ensures AfterTurn(s, here).told[Telling(id, NewsOf(s.jobs[id]), true)] == 1
  {
    assert Telling(id, NewsOf(s.jobs[id]), true) in Tellings(Notice(s, here), true);
  }

  lemma NoticeStamps(s: State, here: Manager, id: JobId)
    requires s.turn == Idle && id in s.jobs && id in Notice(s, here)
    ensures IsStampedBy(AfterTurn(s, here), here, id)
  {
  }

  // ---------- what becomes of a job ----------

  lemma ReopenedOnlyWhenStopped(s: State, here: Manager, step: Step, id: JobId)
    requires Enabled(s, here, step) && id in s.jobs && s.jobs[id].status == Done
    ensures id in Apply(s, here, step).jobs
    ensures Apply(s, here, step).jobs[id].status == Done && Apply(s, here, step).jobs[id].attempt == s.jobs[id].attempt
  {
  }

  /** DONE is for good: no use case takes a job that is DONE up again. */
  lemma {:induction false} DoneStays(s: State, here: Manager, steps: seq<Step>, id: JobId)
    requires IsRun(s, here, steps) && id in s.jobs && s.jobs[id].status == Done
    ensures var e := EndOf(s, here, steps);
            id in e.jobs && e.jobs[id].status == Done && e.jobs[id].attempt == s.jobs[id].attempt
    decreases |steps|
  {
    if steps != [] {
      ReopenedOnlyWhenStopped(s, here, steps[0], id);
      DoneStays(Apply(s, here, steps[0]), here, steps[1..], id);
    }
  }

  /** A run ends in an ending or a pause; a job that runs nowhere is cancelled where it is; and an amendment under way
      can always be refused. */
  lemma WhatMayFollow(s: State, here: Manager, id: JobId, status: Status, m: Manager)
    requires id in s.jobs
    ensures Enabled(s, here, Settle(id, status)) <==>
              s.jobs[id].status == Running && status in {Done, Failed, Cancelled, NeedsInput}
    ensures Enabled(s, here, Cancel(id)) <==> s.jobs[id].status in {Queued, NeedsInput}
    ensures Enabled(s, here, AmendRefused(m, id)) <==> (m, id) in s.amending
  {
  }

  /** A job that is taken up again runs its next attempt, which can end in any way, and whose ending is news again. */
  lemma TakenUpItEndsAgain(s: State, here: Manager, step: Step, status: Status)
    requires Enabled(s, here, step) && (step.Resume? || step.Answer? || step.AmendOn?) && Settled(status)
    requires forall m: Manager :: (m, step.id) in s.amending ==> step == AmendOn(m, step.id)
    ensures var s' := Apply(s, here, step);
            && Enabled(s', here, Settle(step.id, status))
            && var e := Apply(s', here, Settle(step.id, status));
               Pending(e, here, step.id) && e.jobs[step.id] == Job(status, s.jobs[step.id].attempt + 1, false, None)
  {
  }

  /** The manager began to amend the job and has neither gone on nor been refused since. */
  function Amends(was: bool, steps: seq<Step>, m: Manager, id: JobId): bool
    decreases |steps|
  {
    if steps == [] then was
    else
      Amends(steps[0] == Amend(m, id) || (was && steps[0] != AmendOn(m, id) && steps[0] != AmendRefused(m, id)),
             steps[1..], m, id)
  }

  /** Exactly as long is an ending of the job kept from the manager's own notices. */
  lemma {:induction false} AmendingIsKnown(s: State, here: Manager, steps: seq<Step>, m: Manager, id: JobId)
    requires IsRun(s, here, steps)
    ensures (m, id) in EndOf(s, here, steps).amending <==> Amends((m, id) in s.amending, steps, m, id)
    decreases |steps|
  {
    if steps != [] { AmendingIsKnown(Apply(s, here, steps[0]), here, steps[1..], m, id); }
  }

  /** A telling is of an amendment's stop exactly when the job was read while it was stopped to be amended, and
      the amendment was not refused after all; and who reads so is a launch tool, or another manager's notice. */
  lemma AStopIsToldExactlyWhen(here: Manager, steps: seq<Step>, t: Telling, m: Manager)
    requires IsRun(Start(), here, steps) && t in EndOf(Start(), here, steps).told
    ensures var s := EndOf(Start(), here, steps);
            var stop := Stop(m, t.id, t.news.attempt);
            && (OfAStop(stop, s.jobs, s.stops) <==> t.news.stopped == Some(m) && stop !in s.kept)
            && (OfAStop(stop, s.jobs, s.stops) && t.byModel ==> m != here)
  {
    RunKeeps(Start(), here, steps);
    assert TellingOk(t, EndOf(Start(), here, steps), here);
  }

  /** And they do: while a job is stopped to be amended, and not told of, a launch tool that waited for it takes
      it for its ending; a notice does exactly when its manager is not the one amending. */
  lemma AStopIsReadExactlyBy(here: Manager, steps: seq<Step>, id: JobId, m: Manager)
    requires IsRun(Start(), here, steps)
    requires var s := EndOf(Start(), here, steps); id in s.jobs && s.jobs[id].stopped == Some(m)
    ensures var s := EndOf(Start(), here, steps);
            && (id in Notice(s, here) <==> m != here && !Told(id, s.jobs[id].attempt, s.record))
            && (id in Notice(s, here) ==> Notice(s, here)[id].stopped == Some(m))
            && (s.turn == Launching(id) ==>
                  Apply(s, here, LaunchEnds).turn == Holding(map[id := NewsOf(s.jobs[id])], false)
                  && NewsOf(s.jobs[id]).stopped == Some(m))
  {
    RunKeeps(Start(), here, steps);
    assert JobOk(id, EndOf(Start(), here, steps));
  }

  /** What was told of an attempt is what became of it, unless a launch tool told of a pause and the pause
      was then cancelled. */
  lemma WhatIsToldIsTheEnding(here: Manager, steps: seq<Step>, t: Telling)
    requires IsRun(Start(), here, steps) && t in EndOf(Start(), here, steps).told
    ensures var s := EndOf(Start(), here, steps);
            t.id in s.jobs && (t.news.attempt == s.jobs[t.id].attempt ==>
              (t.news.status != s.jobs[t.id].status <==> t.news.status == NeedsInput && s.jobs[t.id].status == Cancelled))
  {
    RunKeeps(Start(), here, steps);
    assert TellingOk(t, EndOf(Start(), here, steps), here);
  }

  // ---------- what it does not give ----------

  ghost predicate ClosedUnderSteps(here: Manager, states: State -> bool) {
    forall s, step :: states(s) && Enabled(s, here, step) ==> states(Apply(s, here, step))
  }

  /** In every set of states that holds the start and all that follows. */
  ghost predicate Reachable(s: State, here: Manager) {
    forall states: State -> bool {:trigger ClosedUnderSteps(here, states)} ::
      states(Start()) && ClosedUnderSteps(here, states) ==> states(s)
  }

  ghost predicate HasARun(s: State, here: Manager) {
    exists steps :: IsRun(Start(), here, steps) && EndOf(Start(), here, steps) == s
  }

  lemma {:induction false} OneStepMore(s: State, here: Manager, steps: seq<Step>, step: Step)
    requires IsRun(s, here, steps) && Enabled(EndOf(s, here, steps), here, step)
    ensures IsRun(s, here, steps + [step])
    ensures EndOf(s, here, steps + [step]) == Apply(EndOf(s, here, steps), here, step)
    decreases |steps|
  {
    if steps == [] {
      assert steps + [step] == [step];
      assert [step][1..] == [];
    } else {
      OneStepMore(Apply(s, here, steps[0]), here, steps[1..], step);
      assert (steps + [step])[1..] == steps[1..] + [step];
    }
  }

  /** What is reachable is where some run ends. */
  lemma ReachableByARun(s: State, here: Manager)
    requires Reachable(s, here)
    ensures HasARun(s, here)
  {
    var states := (t: State) => HasARun(t, here);
    assert IsRun(Start(), here, []) && EndOf(Start(), here, []) == Start();
    forall t, step | HasARun(t, here) && Enabled(t, here, step) ensures HasARun(Apply(t, here, step), here) {
      var steps :| IsRun(Start(), here, steps) && EndOf(Start(), here, steps) == t;
      OneStepMore(Start(), here, steps, step);
    }
    assert ClosedUnderSteps(here, states);
  }

  lemma Go(s: State, here: Manager, step: Step) returns (s': State)
    requires Reachable(s, here) && Enabled(s, here, step)
    ensures s' == Apply(s, here, step) && Reachable(s', here)
  {
    s' := Apply(s, here, step);
  }

  lemma Begin(here: Manager) returns (s: State)
    ensures s == Start() && Reachable(s, here)
  {
    s := Start();
  }

  lemma Launched() returns (s: State)
    ensures Reachable(s, 0)
    ensures s == State(map["job" := Job(Running, 1, false, None)], {}, map[], multiset{}, Launching("job"), {}, {})
  {
    s := Begin(0);
    s := Go(s, 0, Launch("job"));
    s := Go(s, 0, Run("job"));
  }

  /** A launch tool that waits for a job tells of the stop when the job is amended under it. */
  lemma ALaunchTellsOfAnAmendment()
    ensures exists s :: Reachable(s, 0) && Telling("job", News(1, Cancelled, Some(0)), false) in s.told
                        && Stop(0, "job", 1) in s.stops
  {
    var s := Launched();
    s := Go(s, 0, Amend(0, "job"));
    s := Go(s, 0, StopToAmend(0, "job"));
    s := Go(s, 0, LaunchEnds);
    s := Go(s, 0, Checkpoint);
    s := Go(s, 0, AmendOn(0, "job"));
  }

  /** An amendment is known to its own manager only: another one's notice tells of the stop. */
  lemma AnotherManagerTellsOfIt()
    ensures exists s :: Reachable(s, 0) && Telling("job", News(1, Cancelled, Some(1)), true) in s.told
                        && Stop(1, "job", 1) in s.stops
  {
    var s := Begin(0);
    s := Go(s, 0, Create("job"));
    s := Go(s, 0, Run("job"));
    s := Go(s, 0, Amend(1, "job"));
    s := Go(s, 0, StopToAmend(1, "job"));
    s := Go(s, 0, CallModel);
    s := Go(s, 0, Checkpoint);
    s := Go(s, 0, AmendOn(1, "job"));
  }

  /** A pause the launch tool told of counts as the attempt's ending: cancelled later, the job is stamped
      delivered and no message ever says it was cancelled. */
  lemma ACancelledPauseIsNeverTold()
    ensures exists s :: Reachable(s, 0) && s.told == multiset{Telling("job", News(1, NeedsInput, None), false)}
                        && "job" in s.jobs && s.jobs["job"] == Job(Cancelled, 1, true, None)
  {
    var s := APauseIsTold();
    s := Go(s, 0, Cancel("job"));
    s := NothingToTell(s);
    s := Go(s, 0, Mark("job"));
  }

  lemma APauseIsTold() returns (s: State)
    ensures Reachable(s, 0) && s.told == multiset{Telling("job", News(1, NeedsInput, None), false)}
    ensures s.jobs == map["job" := Job(NeedsInput, 1, false, None)] && s.turn == Idle && s.amending == {}
    ensures Told("job", 1, s.record)
  {
    s := Launched();
    s := Go(s, 0, Settle("job", NeedsInput));
    s := Go(s, 0, LaunchEnds);
    assert Tellings(s.turn.news, false) == {Telling("job", News(1, NeedsInput, None), false)};
    s := Go(s, 0, Checkpoint);
  }

  lemma NothingToTell(s: State) returns (s': State)
    requires Reachable(s, 0) && s.turn == Idle && s.jobs.Keys == {"job"} && Told("job", s.jobs["job"].attempt, s.record)
    ensures Reachable(s', 0) && s' == s.(turn := Marking)
  {
    assert Notice(s, 0) == map[];
    s' := Go(s, 0, CallModel);
    s' := Go(s', 0, Checkpoint);
    assert Tellings(map[], true) == {};
    assert Merge(s.record, map[]) == s.record;
  }
}
