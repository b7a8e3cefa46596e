/** The incremental change watch over a shared database: it reads only what moved since its last look, and
    agrees with a reading of everything (jobsmith/engine/events.py). */
module Watch {
  import opened Options
  import opened Sequences

  type JobId = string
  type Time = nat

  /** A job as a look finds it: its id, and the `updated_at` of its last version. */
  datatype Row = Row(id: JobId, at: Time)

  /** The database: the last version of each job, and the time of the last commit. */
  datatype Store = Store(rows: map<JobId, Time>, clock: Time)

  /** The watch, and all it has fanned out so far. */
  datatype View = View(seen: map<JobId, Time>, watermark: Option<Time>, published: seq<Row>)

  // ---------- the watch's steps ----------

  /** A job of another process, as it is found: recorded, and told unless quietly or seen already. */
  function Moved(v: View, r: Row, quietly: bool): View {
    if r.id in v.seen && v.seen[r.id] == r.at then v
    else v.(seen := v.seen[r.id := r.at], published := if quietly then v.published else v.published + [r])
  }

  function Looked(v: View, r: Row, quietBefore: Time): View {
    Moved(v, r, r.at < quietBefore)
      .(watermark := if v.watermark.None? || r.at > v.watermark.value then Some(r.at) else v.watermark)
  }

  /** A look: every row read, in the order the database gave them. */
  function Refreshed(v: View, rows: seq<Row>, quietBefore: Time): View {
    if rows == [] then v
    else Looked(Refreshed(v, rows[..|rows| - 1], quietBefore), rows[|rows| - 1], quietBefore)
  }

  /** This process's own persist, published as it commits. */
  function Told(v: View, r: Row): View {
    v.(seen := v.seen[r.id := r.at], published := v.published + [r])
  }

  class WatchedEvents {
    var seen: map<JobId, Time>
    var watermark: Option<Time>
    ghost var published: seq<Row>

    ghost function Now(): View
      reads this
    {
      View(seen, watermark, published)
    }

    constructor ()
      ensures Now() == View(map[], None, [])
    {
      seen, watermark, published := map[], None, [];
    }

    method Publish(r: Row)
      modifies this
      ensures Now() == Told(old(Now()), r)
      ensures r.id in seen && seen[r.id] == r.at && r in published && watermark == old(watermark)
    {
      seen := seen[r.id := r.at];
      published := published + [r];
    }

    method PublishMoved(r: Row, quietly: bool)
      modifies this
      ensures Now() == Moved(old(Now()), r, quietly)
      ensures r.id in seen && seen[r.id] == r.at && watermark == old(watermark)
      ensures published == old(published) || published == old(published) + [r]
      ensures published != old(published) <==> !quietly && !(r.id in old(seen) && old(seen)[r.id] == r.at)
      ensures forall id :: id != r.id ==> (id in seen <==> id in old(seen)) && (id in seen ==> seen[id] == old(seen)[id])
    {
      if r.id in seen && seen[r.id] == r.at {
        return;
      }
      seen := seen[r.id := r.at];
      if !quietly {
        published := published + [r];
      }
    }

    method Refresh(rows: seq<Row>, quietBefore: Time)
      modifies this
      ensures Now() == Refreshed(old(Now()), rows, quietBefore)
    {
      for i := 0 to |rows|
        invariant Now() == Refreshed(old(Now()), rows[..i], quietBefore)
      {
        assert rows[..i + 1][..i] == rows[..i];
        PublishMoved(rows[i], rows[i].at < quietBefore);
        if watermark.None? || rows[i].at > watermark.value {
          watermark := Some(rows[i].at);
        }
      }
      assert rows[..|rows|] == rows;
    }
  }

  // ---------- what a look comes to ----------

  ghost predicate OneRowEach(rows: seq<Row>) {
    forall q, r :: q in rows && r in rows && q.id == r.id ==> q == r
  }

  predicate Saw(v: View, r: Row) {
    r.id in v.seen && v.seen[r.id] == r.at
  }

  predicate Tells(v: View, r: Row, quietBefore: Time) {
    !Saw(v, r) && r.at >= quietBefore
  }

  /** Of the jobs that were read, what is seen is what was read, whatever was seen before; of the others nothing
      changes. */
  lemma {:induction false} SeenIsWhatWasRead(v: View, rows: seq<Row>, quietBefore: Time)
    requires OneRowEach(rows)
    ensures var v' := Refreshed(v, rows, quietBefore);
            && (forall r :: r in rows ==> Saw(v', r))
            && (forall id :: (id in v'.seen <==> id in v.seen || exists r :: r in rows && r.id == id))
            && forall id :: id in v.seen && (forall r :: r in rows ==> r.id != id) ==> v'.seen[id] == v.seen[id]
  {
    if rows != [] {
      assert forall r :: r in rows <==> r in rows[..|rows| - 1] || r == rows[|rows| - 1];
      SeenIsWhatWasRead(v, rows[..|rows| - 1], quietBefore);
    }
  }

  /** A look tells exactly the rows that were not seen and are not older than the subscription, each once; so what it
      tells is told again if and only if it had been told. */
  lemma {:induction false} ALookTells(v: View, rows: seq<Row>, quietBefore: Time)
    requires OneRowEach(rows)
    ensures var v' := Refreshed(v, rows, quietBefore);
            && v.published <= v'.published
            && (forall r :: r in v'.published <==> r in v.published || (r in rows && Tells(v, r, quietBefore)))
            && (Distinct(v'.published) <==>
                  Distinct(v.published) && forall r :: r in rows && Tells(v, r, quietBefore) ==> r !in v.published)
  {
    if rows != [] {
      var before, last := rows[..|rows| - 1], rows[|rows| - 1];
      assert forall r :: r in rows <==> r in before || r == last;
      ALookTells(v, before, quietBefore);
      SeenIsWhatWasRead(v, before, quietBefore);
      OneMoreTold(v, Refreshed(v, before, quietBefore), before, last, quietBefore);
    }
  }

  /** The last row is told if and only if it is new to the watch, and was not read twice. */
  lemma OneMoreTold(v: View, u: View, before: seq<Row>, last: Row, quietBefore: Time)
    requires forall r :: r in before && r.id == last.id ==> r == last
    requires forall r :: r in before ==> Saw(u, r)
    requires last.id in u.seen <==> last.id in v.seen || exists r :: r in before && r.id == last.id
    requires last.id in v.seen && (forall r :: r in before ==> r.id != last.id) ==> u.seen[last.id] == v.seen[last.id]
    requires forall r :: r in u.published <==> r in v.published || (r in before && Tells(v, r, quietBefore))
    ensures var u' := Looked(u, last, quietBefore);
            && u'.published == u.published + (if last !in before && Tells(v, last, quietBefore) then [last] else [])
            && (Distinct(u'.published) <==>
                  Distinct(u.published) && (last !in before && Tells(v, last, quietBefore) ==> last !in v.published))
  {
    if last !in before && Tells(v, last, quietBefore) {
      OneMoreIsDistinct(u.published, last);
    }
  }

  lemma {:induction false} WatermarkRises(v: View, rows: seq<Row>, quietBefore: Time, bound: Time)
    requires v.watermark.Some? ==> v.watermark.value <= bound
    requires forall r :: r in rows ==> r.at <= bound
    ensures var v' := Refreshed(v, rows, quietBefore);
            && (v'.watermark.Some? ==> v'.watermark.value <= bound)
            && (forall r :: r in rows ==> v'.watermark.Some? && r.at <= v'.watermark.value)
            && (v.watermark.Some? ==> v'.watermark.Some? && v.watermark.value <= v'.watermark.value)
  {
    if rows != [] {
      assert forall r :: r in rows <==> r in rows[..|rows| - 1] || r == rows[|rows| - 1];
      WatermarkRises(v, rows[..|rows| - 1], quietBefore, bound);
    }
  }

  // ---------- the watch, the database, and a look under way ----------

  /** What a look has read and not yet gone through, and how far the commits were when it did. */
  datatype Look = Look(rows: seq<Row>, quietBefore: Time, at: Time)

  datatype State = State(v: View, store: Store, look: Option<Look>)

  /** Commits are ordered by `updated_at`, and each version of a job is later than the one before it. */
  ghost predicate Commits(store: Store, r: Row) {
    r.at >= store.clock && (r.id in store.rows ==> r.at > store.rows[r.id])
  }

  function Committed(store: Store, r: Row): Store {
    Store(store.rows[r.id := r.at], r.at)
  }

  predicate Holds(store: Store, r: Row) {
    r.id in store.rows && store.rows[r.id] == r.at
  }

  /** What `$gte` reads, in any order. */
  ghost predicate Reads(rows: seq<Row>, store: Store, from: Option<Time>) {
    forall r :: r in rows <==> Holds(store, r) && (from.Some? ==> r.at >= from.value)
  }

  /** A step of the whole: another process commits, this one does and tells, or the watch reads what moved; or goes
      through what it read. */
  datatype Step = Foreign(r: Row) | Own(r: Row) | Read(rows: seq<Row>, quietBefore: Time) | GoThrough

  ghost predicate Enabled(s: State, step: Step) {
    match step
    case Foreign(r) => Commits(s.store, r)
    case Own(r) => Commits(s.store, r)
    case Read(rows, _) => s.look.None? && Reads(rows, s.store, s.v.watermark)
    case GoThrough => s.look.Some?
  }

  ghost function Apply(s: State, step: Step): State
    requires Enabled(s, step)
  {
    match step
    case Foreign(r) => s.(store := Committed(s.store, r))
    case Own(r) => s.(store := Committed(s.store, r), v := Told(s.v, r))
    case Read(rows, quietBefore) => s.(look := Some(Look(rows, quietBefore, s.store.clock)))
    case GoThrough => s.(v := Refreshed(s.v, s.look.value.rows, s.look.value.quietBefore), look := None)
  }

  // ---------- what every step keeps, with nothing asked of anybody ----------

  ghost predicate Agrees(s: State, id: JobId) {
    id in s.store.rows && Saw(s.v, Row(id, s.store.rows[id]))
  }

  /** Nothing is seen or told that was not there. */
  ghost predicate Past(s: State) {
    && (forall id :: id in s.v.seen ==> id in s.store.rows && s.v.seen[id] <= s.store.rows[id])
    && (forall r :: r in s.v.published ==> r.id in s.store.rows && r.at <= s.store.rows[r.id])
    && (forall id :: id in s.store.rows ==> s.store.rows[id] <= s.store.clock)
    && (s.v.watermark.Some? ==> s.v.watermark.value <= s.store.clock)
  }

  ghost predicate ReadOf(look: Look, id: JobId) {
    exists r :: r in look.rows && r.id == id
  }

  /** A job the watch does not agree on is one the next look reads. */
  ghost predicate Caught(s: State, id: JobId)
    requires id in s.store.rows
  {
    Agrees(s, id) || (s.v.watermark.Some? ==> s.store.rows[id] >= s.v.watermark.value)
  }

  /** A job's last version was read by the look under way, or committed since, or it had been seen. */
  ghost predicate CaughtBy(s: State, look: Look, id: JobId)
    requires id in s.store.rows
  {
    || Row(id, s.store.rows[id]) in look.rows
    || s.store.rows[id] >= look.at
    || (Agrees(s, id) && !ReadOf(look, id))
  }

  ghost predicate LookIsPast(s: State, look: Look) {
    && OneRowEach(look.rows) && look.at <= s.store.clock
    && (s.v.watermark.Some? ==> s.v.watermark.value <= look.at)
    && (forall r :: r in look.rows ==> r.at <= look.at && r.id in s.store.rows && r.at <= s.store.rows[r.id])
    && (forall r :: r in look.rows && r.id in s.v.seen && s.v.seen[r.id] > r.at ==>
          Row(r.id, s.v.seen[r.id]) in s.v.published)
    && forall id :: id in s.store.rows ==> CaughtBy(s, look, id)
  }

  ghost predicate Inv(s: State) {
    && Past(s) && (forall id :: id in s.store.rows ==> Caught(s, id))
    && (s.look.Some? ==> LookIsPast(s, s.look.value))
  }

  lemma CommittingKeeps(s: State, step: Step)
    requires Inv(s) && Enabled(s, step) && (step.Foreign? || step.Own?)
    ensures Inv(Apply(s, step))
  {
    var s' := Apply(s, step);
    forall id | id in s'.store.rows
      ensures Caught(s', id) && (s'.look.Some? ==> CaughtBy(s', s'.look.value, id))
    {
      if id != step.r.id {
        assert Caught(s, id) && (s.look.Some? ==> CaughtBy(s, s.look.value, id));
        assert Agrees(s', id) <==> Agrees(s, id);
      }
    }
  }

  lemma ReadingKeeps(s: State, rows: seq<Row>, quietBefore: Time)
    requires Inv(s) && Enabled(s, Read(rows, quietBefore))
    ensures Inv(Apply(s, Read(rows, quietBefore)))
  {
    var s' := Apply(s, Read(rows, quietBefore));
    forall id | id in s'.store.rows ensures CaughtBy(s', s'.look.value, id) {
      assert Caught(s, id);
      assert Row(id, s.store.rows[id]) in rows || !ReadOf(s'.look.value, id);
    }
  }

  lemma GoingThroughKeeps(s: State)
    requires Inv(s) && Enabled(s, GoThrough)
    ensures Inv(Apply(s, GoThrough))
  {
    var s', look := Apply(s, GoThrough), s.look.value;
    SeenIsWhatWasRead(s.v, look.rows, look.quietBefore);
    ALookTells(s.v, look.rows, look.quietBefore);
    WatermarkRises(s.v, look.rows, look.quietBefore, look.at);
    forall id | id in s'.store.rows ensures Caught(s', id) {
      assert CaughtBy(s, look, id);
    }
    forall id | id in s'.v.seen ensures id in s'.store.rows && s'.v.seen[id] <= s'.store.rows[id] {
      if r :| r in look.rows && r.id == id { assert Saw(s'.v, r); }
    }
  }

  /** Every step: nothing is seen or told that was not there, and what the watch does not agree on it will read. */
  lemma StepKeeps(s: State, step: Step)
    requires Inv(s) && Enabled(s, step)
    ensures Inv(Apply(s, step)) && s.v.published <= Apply(s, step).v.published
  {
    match step {
      case Foreign(_) => CommittingKeeps(s, step);
      case Own(_) => CommittingKeeps(s, step);
      case Read(rows, quietBefore) => ReadingKeeps(s, rows, quietBefore);
      case GoThrough =>
        GoingThroughKeeps(s);
        ALookTells(s.v, s.look.value.rows, s.look.value.quietBefore);
    }
  }

  // ---------- a version told again ----------

  /** Going through what was read tells the row again, or puts the watch back behind the version that is there. */
  ghost predicate Undoes(s: State, look: Look, r: Row) {
    || (r in s.v.published && Tells(s.v, r, look.quietBefore))
    || (Agrees(s, r.id) && s.v.seen[r.id] > r.at)
  }

  /** Left to itself, the watch tells a version of the job again: it will undo, or it has been put back behind a version
      that is there and was told. */
  ghost predicate WillRepeat(s: State, id: JobId) {
    && id in s.store.rows
    && (|| (s.look.Some? && exists r :: r in s.look.value.rows && r.id == id && Undoes(s, s.look.value, r))
        || (Row(id, s.store.rows[id]) in s.v.published && !Agrees(s, id)
            && !(s.look.Some? && Row(id, s.store.rows[id]) in s.look.value.rows)))
  }

  ghost predicate Repeating(s: State) {
    exists id :: WillRepeat(s, id)
  }

  /** This process persists a job that a look under way has read. */
  ghost predicate PersistsWhatIsRead(s: State, step: Step) {
    step.Own? && s.look.Some? && ReadOf(s.look.value, step.r.id)
  }

  lemma PersistingRepeats(s: State, step: Step)
    requires Inv(s) && Enabled(s, step) && PersistsWhatIsRead(s, step)
    ensures Repeating(Apply(s, step))
  {
    var r :| r in s.look.value.rows && r.id == step.r.id;
    assert r in Apply(s, step).look.value.rows && Agrees(Apply(s, step), r.id);
    assert Undoes(Apply(s, step), s.look.value, r);
    assert WillRepeat(Apply(s, step), r.id);
  }

  lemma CommittingRepeatsNothing(s: State, step: Step, id: JobId)
    requires Inv(s) && Enabled(s, step) && (step.Foreign? || step.Own?) && !WillRepeat(s, id)
    requires !PersistsWhatIsRead(s, step)
    ensures !WillRepeat(Apply(s, step), id)
  {
    var s' := Apply(s, step);
    if id != step.r.id && id in s.store.rows { assert Agrees(s', id) <==> Agrees(s, id); }
  }

  lemma ReadingRepeatsNothing(s: State, rows: seq<Row>, quietBefore: Time, id: JobId)
    requires Inv(s) && Enabled(s, Read(rows, quietBefore)) && !WillRepeat(s, id)
    ensures !WillRepeat(Apply(s, Read(rows, quietBefore)), id)
  {
  }

  lemma GoingThroughRepeatsNothing(s: State, id: JobId)
    requires Inv(s) && Enabled(s, GoThrough) && !WillRepeat(s, id)
    ensures !WillRepeat(Apply(s, GoThrough), id)
  {
    var s', look := Apply(s, GoThrough), s.look.value;
    SeenIsWhatWasRead(s.v, look.rows, look.quietBefore);
    ALookTells(s.v, look.rows, look.quietBefore);
    if id in s.store.rows && Row(id, s.store.rows[id]) in s'.v.published {
      assert CaughtBy(s, look, id);
      if r :| r in look.rows && r.id == id { assert Saw(s'.v, r); }
    }
  }

  /** A step brings it about that a version will be told again if and only if it is a persist of this process over
      what a look under way has read. */
  lemma RepeatsExactlyWhen(s: State, step: Step)
    requires Inv(s) && Enabled(s, step) && !Repeating(s)
    ensures Repeating(Apply(s, step)) <==> PersistsWhatIsRead(s, step)
  {
    if PersistsWhatIsRead(s, step) {
      PersistingRepeats(s, step);
    } else {
      forall id ensures !WillRepeat(Apply(s, step), id) {
        match step {
          case Foreign(_) => CommittingRepeatsNothing(s, step, id);
          case Own(_) => CommittingRepeatsNothing(s, step, id);
          case Read(rows, quietBefore) => ReadingRepeatsNothing(s, rows, quietBefore, id);
          case GoThrough => GoingThroughRepeatsNothing(s, id);
        }
      }
    }
  }

  /** Until then no version is told twice. */
  lemma TellsOnce(s: State, step: Step)
    requires Inv(s) && Enabled(s, step) && !Repeating(s) && Distinct(s.v.published)
    ensures Distinct(Apply(s, step).v.published)
  {
    if step.Own? {
      OneMoreIsDistinct(s.v.published, step.r);
    } else if step.GoThrough? {
      var look := s.look.value;
      ALookTells(s.v, look.rows, look.quietBefore);
      forall r | r in look.rows && Tells(s.v, r, look.quietBefore) ensures r !in s.v.published {
        assert !WillRepeat(s, r.id);
      }
    }
  }

  // ---------- whole runs ----------

  ghost predicate IsRun(s: State, steps: seq<Step>)
    decreases |steps|
  {
    steps == [] || (Enabled(s, steps[0]) && IsRun(Apply(s, steps[0]), steps[1..]))
  }

  ghost function EndOf(s: State, steps: seq<Step>): State
    requires IsRun(s, steps)
    decreases |steps|
  {
    if steps == [] then s else EndOf(Apply(s, steps[0]), steps[1..])
  }

  ghost predicate NeverRepeating(s: State, steps: seq<Step>)
    requires IsRun(s, steps)
    decreases |steps|
  {
    !Repeating(s) && (steps == [] || NeverRepeating(Apply(s, steps[0]), steps[1..]))
  }

  ghost predicate NeverPersistsWhatIsRead(s: State, steps: seq<Step>)
    requires IsRun(s, steps)
    decreases |steps|
  {
    steps == [] || (!PersistsWhatIsRead(s, steps[0]) && NeverPersistsWhatIsRead(Apply(s, steps[0]), steps[1..]))
  }

  lemma {:induction false} RunKeeps(s: State, steps: seq<Step>)
    requires Inv(s) && IsRun(s, steps)
    ensures Inv(EndOf(s, steps)) && s.v.published <= EndOf(s, steps).v.published
    decreases |steps|
  {
    if steps != [] {
      StepKeeps(s, steps[0]);
      RunKeeps(Apply(s, steps[0]), steps[1..]);
    }
  }

  lemma {:induction false} NeverToldTwiceExactlyWhen(s: State, steps: seq<Step>)
    requires Inv(s) && !Repeating(s) && Distinct(s.v.published) && IsRun(s, steps)
    ensures NeverRepeating(s, steps) <==> NeverPersistsWhatIsRead(s, steps)
    ensures NeverPersistsWhatIsRead(s, steps) ==> Distinct(EndOf(s, steps).v.published) && !Repeating(EndOf(s, steps))
    decreases |steps|
  {
    if steps != [] {
      StepKeeps(s, steps[0]);
      RepeatsExactlyWhen(s, steps[0]);
      TellsOnce(s, steps[0]);
      if !PersistsWhatIsRead(s, steps[0]) { NeverToldTwiceExactlyWhen(Apply(s, steps[0]), steps[1..]); }
    }
  }

  ghost predicate Ordered(store: Store) {
    forall id :: id in store.rows ==> store.rows[id] <= store.clock
  }

  function Start(store: Store): State {
    State(View(map[], None, []), store, None)
  }

  /** From a watch that starts on any database, through any commits and any looks, commits landing in the middle of
      looks included: it is never on its way to tell a version again, if and only if this process never persists a
      job that a look under way has read; and then no version is told twice. */
  lemma TheWatchTellsOnceExactlyWhen(store: Store, steps: seq<Step>)
    requires Ordered(store) && IsRun(Start(store), steps)
    ensures NeverRepeating(Start(store), steps) <==> NeverPersistsWhatIsRead(Start(store), steps)
    ensures NeverPersistsWhatIsRead(Start(store), steps) ==> Distinct(EndOf(Start(store), steps).v.published)
  {
    NeverToldTwiceExactlyWhen(Start(store), steps);
  }

  /** And whatever happened before: a look that nothing lands in leaves the watch agreeing with a reading of everything,
      although it read only the rows at or above its watermark, which it leaves at or above every row there is, so the
      next one reads what moved; what it had not seen is told by it, unless it moved before the subscription. */
  lemma ALookAgreesWithAFullReading(store: Store, steps: seq<Step>, rows: seq<Row>, quietBefore: Time)
    requires Ordered(store) && IsRun(Start(store), steps)
    requires Enabled(EndOf(Start(store), steps), Read(rows, quietBefore))
    ensures var s := EndOf(Start(store), steps);
            var v' := Refreshed(s.v, rows, quietBefore);
            && v'.seen == s.store.rows && s.v.published <= v'.published
            && (forall id :: id in s.store.rows ==>
                  v'.watermark.Some? && s.store.rows[id] <= v'.watermark.value <= s.store.clock)
            && forall id :: id in s.store.rows && !Agrees(s, id) && s.store.rows[id] >= quietBefore ==>
                 Row(id, s.store.rows[id]) in v'.published
  {
    RunKeeps(Start(store), steps);
    LookingAtRest(EndOf(Start(store), steps), rows, quietBefore);
  }

  lemma LookingAtRest(s: State, rows: seq<Row>, quietBefore: Time)
    requires Inv(s) && Enabled(s, Read(rows, quietBefore))
    ensures var v' := Refreshed(s.v, rows, quietBefore);
            && v'.seen == s.store.rows && s.v.published <= v'.published
            && (forall id :: id in s.store.rows ==>
                  v'.watermark.Some? && s.store.rows[id] <= v'.watermark.value <= s.store.clock)
            && forall id :: id in s.store.rows && !Agrees(s, id) && s.store.rows[id] >= quietBefore ==>
                 Row(id, s.store.rows[id]) in v'.published
  {
    var v' := Refreshed(s.v, rows, quietBefore);
    SeenIsWhatWasRead(s.v, rows, quietBefore);
    ALookTells(s.v, rows, quietBefore);
    WatermarkRises(s.v, rows, quietBefore, s.store.clock);
    forall id | id in s.store.rows
      ensures id in v'.seen && v'.seen[id] == s.store.rows[id]
      ensures v'.watermark.Some? && s.store.rows[id] <= v'.watermark.value <= s.store.clock
      ensures !Agrees(s, id) && s.store.rows[id] >= quietBefore ==> Row(id, s.store.rows[id]) in v'.published
    {
      assert Caught(s, id);
      if Row(id, s.store.rows[id]) in rows { assert Saw(v', Row(id, s.store.rows[id])); }
    }
    assert v'.seen == s.store.rows;
  }

  // ---------- and it comes to it ----------

  lemma {:induction false} RowsOf(store: Store, ids: set<JobId>, from: Option<Time>) returns (rows: seq<Row>)
    requires ids <= store.rows.Keys
    ensures forall r :: r in rows <==> r.id in ids && Holds(store, r) && (from.Some? ==> r.at >= from.value)
    decreases |ids|
  {
    rows := [];
    if ids != {} {
      var id :| id in ids;
      var rest := RowsOf(store, ids - {id}, from);
      rows := if from.Some? && store.rows[id] < from.value then rest else rest + [Row(id, store.rows[id])];
    }
  }

  /** It was put back behind a version that is there and was told, and no look is under way. */
  ghost predicate PutBack(s: State, id: JobId) {
    s.look.None? && id in s.store.rows && Row(id, s.store.rows[id]) in s.v.published && !Agrees(s, id)
  }

  lemma PutBackRepeats(s: State, id: JobId) returns (steps: seq<Step>)
    requires Inv(s) && PutBack(s, id)
    ensures IsRun(s, steps) && |steps| == 2 && steps[0].Read? && steps[1].GoThrough?
    ensures !Distinct(EndOf(s, steps).v.published)
  {
    var rows := RowsOf(s.store, s.store.rows.Keys, s.v.watermark);
    var s' := Apply(s, Read(rows, 0));
    steps := [Read(rows, 0), GoThrough];
    assert Caught(s, id);
    assert Row(id, s.store.rows[id]) in rows;
    StepKeeps(s, Read(rows, 0));
    ALookTells(s.v, rows, 0);
    TwoSteps(s, Read(rows, 0), GoThrough);
  }

  lemma TwoSteps(s: State, a: Step, b: Step)
    requires Enabled(s, a) && Enabled(Apply(s, a), b)
    ensures IsRun(s, [a, b]) && EndOf(s, [a, b]) == Apply(Apply(s, a), b)
  {
    OneMoreBefore(Apply(s, a), b, []);
    OneMoreBefore(s, a, [b]);
    assert [b] + [] == [b] && [a] + [b] == [a, b];
  }

  lemma GoesThroughToPutBack(s: State, id: JobId)
    requires Inv(s) && s.look.Some? && WillRepeat(s, id) && Distinct(Apply(s, GoThrough).v.published)
    ensures PutBack(Apply(s, GoThrough), id)
  {
    var s', look := Apply(s, GoThrough), s.look.value;
    SeenIsWhatWasRead(s.v, look.rows, look.quietBefore);
    ALookTells(s.v, look.rows, look.quietBefore);
    if r :| r in look.rows && r.id == id { assert Saw(s'.v, r); }
  }

  lemma OneMoreBefore(s: State, step: Step, rest: seq<Step>)
    requires Enabled(s, step) && IsRun(Apply(s, step), rest)
    ensures IsRun(s, [step] + rest) && EndOf(s, [step] + rest) == EndOf(Apply(s, step), rest)
  {
    assert ([step] + rest)[1..] == rest;
  }

  lemma ItComesToRepeatAfter(s: State, id: JobId) returns (rest: seq<Step>)
    requires Inv(s) && s.look.Some? && WillRepeat(s, id)
    ensures IsRun(Apply(s, GoThrough), rest) && |rest| <= 2
    ensures forall i :: 0 <= i < |rest| ==> rest[i].Read? || rest[i].GoThrough?
    ensures !Distinct(EndOf(Apply(s, GoThrough), rest).v.published)
  {
    rest := [];
    if Distinct(Apply(s, GoThrough).v.published) {
      GoesThroughToPutBack(s, id);
      StepKeeps(s, GoThrough);
      rest := PutBackRepeats(Apply(s, GoThrough), id);
    }
  }

  /** From there, nobody committing, three steps of the watch tell a version twice. */
  lemma ItComesToRepeat(s: State, id: JobId) returns (steps: seq<Step>)
    requires Inv(s) && WillRepeat(s, id)
    ensures IsRun(s, steps) && |steps| <= 3 && forall i :: 0 <= i < |steps| ==> steps[i].Read? || steps[i].GoThrough?
    ensures !Distinct(EndOf(s, steps).v.published)
  {
    if s.look.None? {
      steps := PutBackRepeats(s, id);
    } else {
      var rest := ItComesToRepeatAfter(s, id);
      OneMoreBefore(s, GoThrough, rest);
      steps := [GoThrough] + rest;
    }
  }

  /** A run from the start that tells a version twice: another process commits a job, a look reads it, this process
      persists it before the look goes through what it read. */
  lemma APersistUnderALookIsToldTwice() returns (steps: seq<Step>)
    ensures IsRun(Start(Store(map[], 0)), steps) && !Distinct(EndOf(Start(Store(map[], 0)), steps).v.published)
  {
    var s, first, later := Start(Store(map[], 0)), Row("job", 1), Row("job", 2);
    var s1 := Apply(s, Foreign(first));
    var s2 := Apply(s1, Read([first], 0));
    StepKeeps(s, Foreign(first));
    StepKeeps(s1, Read([first], 0));
    assert first in s2.look.value.rows;
    var rest := APersistComesToRepeat(s2, later);
    OneMoreBefore(s2, Own(later), rest);
    OneMoreBefore(s1, Read([first], 0), [Own(later)] + rest);
    OneMoreBefore(s, Foreign(first), [Read([first], 0)] + ([Own(later)] + rest));
    steps := [Foreign(first)] + ([Read([first], 0)] + ([Own(later)] + rest));
  }

  lemma APersistComesToRepeat(s: State, r: Row) returns (rest: seq<Step>)
    requires Inv(s) && Enabled(s, Own(r)) && PersistsWhatIsRead(s, Own(r))
    ensures IsRun(Apply(s, Own(r)), rest) && !Distinct(EndOf(Apply(s, Own(r)), rest).v.published)
  {
    PersistingRepeats(s, Own(r));
    StepKeeps(s, Own(r));
    var id :| WillRepeat(Apply(s, Own(r)), id);
    rest := ItComesToRepeat(Apply(s, Own(r)), id);
  }
}
