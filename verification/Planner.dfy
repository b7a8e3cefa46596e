/** Validating what a planner wrote (jobsmith/dag/planner.py, jobsmith/dag/ir.py): prune the steps that
    cannot run here, close the rest over their dependencies, and refuse a cycle. */
module Planner {
  import opened Options
  import opened Sequences
  import opened Ir
  import opened Graphs
  import opened Plans
  import Kahn

  /** A step as a planner wrote it: the program's own form, or a capability and what it depends on. */
  datatype RawStep =
    | Written(id: Id, op: string, args: Value, after: seq<Id>)
    | Named(givenId: Option<Id>, capability: string, dependsOn: seq<Id>)

  /** An op with no id of its own goes by its name; `dependsOn` is order with no data. */
  function Read(raw: RawStep): Step {
    match raw
    case Written(id, op, args, after) => Step(id, op, args, after)
    case Named(given, capability, dependsOn) =>
      Step(if given.Some? && given.value != "" then given.value else capability, capability, Dict([]), dependsOn)
  }

  function ReadAll(raw: seq<RawStep>): (program: seq<Step>)
    ensures |program| == |raw|
  {
    seq(|raw|, i requires 0 <= i < |raw| => Read(raw[i]))
  }

  datatype PlanError =
    | MissingSteps
    | EmptySteps
    | UnknownCapability(op: string)
    | DuplicateStep(id: Id)
    | ReferencesInapplicable(step: Id, dep: Id)
    | UnknownDependency(dep: Id)
    | BadMaterial(ref: Value)
    | ContainsCycle

  datatype Verdict = Accepted(plan: Plan) | Rejected(why: PlanError)

  // ---------- what validation is for ----------

  /** The steps that can run here, in order, and the ids of those that cannot. */
  function Kept(program: seq<Step>, applicable: string -> bool): seq<Step> {
    if program == [] then []
    else
      Kept(program[..|program| - 1], applicable)
      + if applicable(program[|program| - 1].op) then [program[|program| - 1]] else []
  }

  function IdsOf(program: seq<Step>): (s: set<Id>)
    ensures forall x :: x in s <==> exists k :: 0 <= k < |program| && program[k].id == x
  {
    set k | 0 <= k < |program| :: program[k].id
  }

  function DroppedIds(program: seq<Step>, applicable: string -> bool): set<Id> {
    if program == [] then {}
    else
      DroppedIds(program[..|program| - 1], applicable)
      + if applicable(program[|program| - 1].op) then {} else {program[|program| - 1].id}
  }

  function Cleaned(step: Step, dropped: set<Id>): Step {
    step.(after := Except(step.after, dropped))
  }

  function StoredAll(kept: seq<Step>, dropped: set<Id>): (steps: seq<PlanStep>)
    ensures |steps| == |kept|
    ensures forall k :: 0 <= k < |kept| ==> steps[k] == Stored(Cleaned(kept[k], dropped))
  {
    seq(|kept|, i requires 0 <= i < |kept| => Stored(Cleaned(kept[i], dropped)))
  }

  /** The plan a program stands for. */
  function PlanOf(program: seq<Step>, material: Option<seq<Value>>, applicable: string -> bool): Plan {
    var dropped := DroppedIds(program, applicable);
    Plan(StoredAll(Kept(program, applicable), dropped),
         match material case None => None case Some(m) => Some(MaterialWithout(m, dropped)))
  }

  ghost predicate UniqueProgram(program: seq<Step>) {
    forall i, j :: 0 <= i < j < |program| ==> program[i].id != program[j].id
  }

  /** Every step it references can run here, and every step it comes after is in the program. */
  ghost predicate Satisfiable(step: Step, kept: set<Id>, dropped: set<Id>) {
    && (forall d :: d in StepHeads(RefsIn(step.args)) ==> d in kept)
    && forall d :: d in step.after ==> d in kept || d in dropped
  }

  /** Material names a whole step of the program; one that cannot run here is let go. */
  predicate NamesStep(ref: Value, kept: set<Id>, dropped: set<Id>) {
    ref.Ref? && (NameOf(ref.head) in dropped || (NameOf(ref.head) in kept && ref.path == []))
  }

  ghost predicate SatisfiableAll(steps: seq<Step>, kept: set<Id>, dropped: set<Id>) {
    forall k :: 0 <= k < |steps| ==> Satisfiable(steps[k], kept, dropped)
  }

  ghost predicate NameSteps(refs: seq<Value>, kept: set<Id>, dropped: set<Id>) {
    forall k :: 0 <= k < |refs| ==> NamesStep(refs[k], kept, dropped)
  }

  ghost predicate KnownOps(program: seq<Step>, allowed: set<string>) {
    forall k :: 0 <= k < |program| ==> program[k].op in allowed
  }

  /** What a program must be to be planned. */
  ghost predicate Acceptable(
    program: seq<Step>, material: Option<seq<Value>>, allowed: set<string>, applicable: string -> bool)
  {
    var kept, dropped := IdsOf(Kept(program, applicable)), DroppedIds(program, applicable);
    && program != []
    && KnownOps(program, allowed)
    && UniqueProgram(program)
    && SatisfiableAll(Kept(program, applicable), kept, dropped)
    && (material.Some? ==> NameSteps(material.value, kept, dropped))
    && Acyclic(Rows(PlanOf(program, material, applicable).steps))
  }

  ghost predicate Repeats(program: seq<Step>, id: Id) {
    exists i, j :: 0 <= i < j < |program| && program[i].id == id && program[j].id == id
  }

  /** Some step waits for `dep`, once those that cannot run here are pruned from what it only comes after. */
  ghost predicate Awaited(steps: seq<Step>, dropped: set<Id>, dep: Id) {
    exists k :: 0 <= k < |steps| && dep in Dependencies(Cleaned(steps[k], dropped))
  }

  ghost predicate AwaitedBy(steps: seq<Step>, dropped: set<Id>, id: Id, dep: Id) {
    exists k :: 0 <= k < |steps| && steps[k].id == id && dep in Dependencies(Cleaned(steps[k], dropped))
  }

  ghost predicate Uses(program: seq<Step>, op: string) {
    exists k :: 0 <= k < |program| && program[k].op == op
  }

  /** The checks run in stages, and a refusal is of the first stage the program fails. */
  ghost predicate TrulyRefused(
    why: PlanError, program: seq<Step>, material: Option<seq<Value>>, allowed: set<string>, applicable: string -> bool)
  {
    var kept, dropped := IdsOf(Kept(program, applicable)), DroppedIds(program, applicable);
    var sifted := program != [] && KnownOps(program, allowed) && UniqueProgram(program);
    var closed := sifted && SatisfiableAll(Kept(program, applicable), kept, dropped);
    var named := closed && (material.Some? ==> NameSteps(material.value, kept, dropped));
    match why
    case MissingSteps => false
    case EmptySteps => program == []
    case UnknownCapability(op) => op !in allowed && Uses(program, op)
    case DuplicateStep(id) => Repeats(program, id)
    case ReferencesInapplicable(id, dep) =>
      sifted && !closed && dep in dropped && AwaitedBy(Kept(program, applicable), dropped, id, dep)
    case UnknownDependency(dep) =>
      sifted && !closed && dep !in kept && dep !in dropped && Awaited(Kept(program, applicable), dropped, dep)
    case BadMaterial(ref) => closed && material.Some? && ref in material.value && !NamesStep(ref, kept, dropped)
    case ContainsCycle => named && !Acyclic(Rows(PlanOf(program, material, applicable).steps))
  }

  // ---------- kept and dropped ----------

  lemma {:induction false} KeptOrDropped(program: seq<Step>, applicable: string -> bool)
    ensures forall s :: s in Kept(program, applicable) <==> s in program && applicable(s.op)
    ensures forall x :: x in DroppedIds(program, applicable) <==>
              exists k :: 0 <= k < |program| && program[k].id == x && !applicable(program[k].op)
  {
    if program != [] {
      var init, last := program[..|program| - 1], program[|program| - 1];
      assert program == init + [last];
      KeptOrDropped(init, applicable);
    }
  }

  lemma {:induction false} KeptUnique(program: seq<Step>, applicable: string -> bool)
    requires UniqueProgram(program)
    ensures UniqueProgram(Kept(program, applicable))
  {
    if program != [] {
      var init, last := program[..|program| - 1], program[|program| - 1];
      KeptUnique(init, applicable);
      KeptOrDropped(init, applicable);
      var rest := Kept(init, applicable);
      forall i | 0 <= i < |rest| ensures rest[i].id != last.id {
        assert rest[i] in rest;
      }
    }
  }

  lemma IdsSplit(program: seq<Step>, applicable: string -> bool)
    ensures IdsOf(program) == IdsOf(Kept(program, applicable)) + DroppedIds(program, applicable)
  {
    KeptOrDropped(program, applicable);
    var kept := Kept(program, applicable);
    forall x ensures x in IdsOf(program) <==> x in IdsOf(kept) + DroppedIds(program, applicable) {
      if x in IdsOf(program) {
        var k :| 0 <= k < |program| && program[k].id == x;
        if applicable(program[k].op) {
          assert program[k] in kept;
          var i :| 0 <= i < |kept| && kept[i] == program[k];
        }
      }
      if x in IdsOf(kept) {
        var k :| 0 <= k < |kept| && kept[k].id == x;
        assert kept[k] in program;
        var i :| 0 <= i < |program| && program[i] == kept[k];
      }
    }
  }

  /** The ids of the first `k` steps do not hold the next one's, when every id is unique. */
  lemma NewId(program: seq<Step>, k: nat)
    requires k < |program|
    ensures UniqueProgram(program[..k]) && program[k].id !in IdsOf(program[..k]) ==> UniqueProgram(program[..k + 1])
    ensures program[k].id in IdsOf(program[..k]) ==> Repeats(program, program[k].id)
  {
  }

  lemma MetBefore(program: seq<Step>, k: nat, applicable: string -> bool)
    requires k < |program| && UniqueProgram(program[..k])
    ensures var id := program[k].id;
            if id in IdsOf(Kept(program[..k], applicable)) || id in DroppedIds(program[..k], applicable)
            then Repeats(program, id) else UniqueProgram(program[..k + 1])
  {
    IdsSplit(program[..k], applicable);
    NewId(program, k);
  }

  // ---------- the checks, as the source makes them ----------

  /** Splits the program into the steps that can run and those that cannot, refusing an unknown
      capability or an id met twice. */
  method Sift(program: seq<Step>, allowed: set<string>, applicable: string -> bool)
    returns (kept: seq<Step>, seen: set<Id>, dropped: set<Id>, error: Option<PlanError>)
    ensures error.None? <==> KnownOps(program, allowed) && UniqueProgram(program)
    ensures error.None? ==> kept == Kept(program, applicable) && seen == IdsOf(kept)
                            && dropped == DroppedIds(program, applicable)
    ensures error.Some? ==>
              || (error.value.UnknownCapability? && error.value.op !in allowed && Uses(program, error.value.op))
              || (error.value.DuplicateStep? && Repeats(program, error.value.id))
  {
    kept, seen, dropped, error := [], {}, {}, None;
    var k := 0;
    while k < |program|
      invariant k <= |program| && error.None?
      invariant kept == Kept(program[..k], applicable) && dropped == DroppedIds(program[..k], applicable)
      invariant seen == IdsOf(kept)
      invariant KnownOps(program[..k], allowed) && UniqueProgram(program[..k])
    {
      var step := program[k];
      if step.op !in allowed {
        error := Some(UnknownCapability(step.op));
        return;
      }
      MetBefore(program, k, applicable);
      if step.id in seen || step.id in dropped {
        error := Some(DuplicateStep(step.id));
        return;
      }
      assert program[..k + 1][..k] == program[..k];
      if !applicable(step.op) {
        dropped := dropped + {step.id};
      } else {
        NextIds(kept, step);
        seen, kept := seen + {step.id}, kept + [step];
      }
      k := k + 1;
    }
    assert program[..k] == program;
  }

  lemma NextIds(kept: seq<Step>, step: Step)
    ensures IdsOf(kept + [step]) == IdsOf(kept) + {step.id}
  {
    forall x ensures x in IdsOf(kept + [step]) <==> x in IdsOf(kept) + {step.id} {
      if x in IdsOf(kept) { var k :| 0 <= k < |kept| && kept[k].id == x; assert (kept + [step])[k].id == x; }
      if x == step.id { assert (kept + [step])[|kept|].id == x; }
    }
  }

  /** A step's cleaned dependencies can all run exactly when it is satisfiable. */
  lemma CleanedDeps(step: Step, kept: set<Id>, dropped: set<Id>)
    requires kept !! dropped
    ensures (forall d :: d in Dependencies(Cleaned(step, dropped)) ==> d in kept) <==> Satisfiable(step, kept, dropped)
  {
  }

  method CheckDeps(step: Step, seen: set<Id>, dropped: set<Id>) returns (error: Option<PlanError>)
    requires seen !! dropped
    ensures error.None? <==> Satisfiable(step, seen, dropped)
    ensures error.Some? ==> match error.value
                            case ReferencesInapplicable(id, dep) =>
                              id == step.id && dep in dropped && dep in Dependencies(Cleaned(step, dropped))
                            case UnknownDependency(dep) =>
                              dep !in seen && dep !in dropped && dep in Dependencies(Cleaned(step, dropped))
                            case _ => false
  {
    var deps := Dependencies(Cleaned(step, dropped));
    CleanedDeps(step, seen, dropped);
    var j := 0;
    while j < |deps|
      invariant j <= |deps| && forall i :: 0 <= i < j ==> deps[i] in seen
    {
      if deps[j] in dropped {
        assert deps[j] in deps;
        return Some(ReferencesInapplicable(step.id, deps[j]));
      }
      if deps[j] !in seen {
        assert deps[j] in deps;
        return Some(UnknownDependency(deps[j]));
      }
      j := j + 1;
    }
    error := None;
  }

  method CheckMaterial(refs: seq<Value>, seen: set<Id>, dropped: set<Id>)
    returns (kept: seq<Value>, error: Option<PlanError>)
    ensures error.None? <==> NameSteps(refs, seen, dropped)
    ensures error.None? ==> kept == MaterialWithout(refs, dropped)
    ensures error.Some? ==> exists k :: 0 <= k < |refs| && error.value == BadMaterial(refs[k])
                                        && !NamesStep(refs[k], seen, dropped)
  {
    kept, error := [], None;
    var k := 0;
    while k < |refs|
      invariant k <= |refs| && error.None? && NameSteps(refs[..k], seen, dropped)
      invariant kept == MaterialWithout(refs[..k], dropped)
    {
      var ref := refs[k];
      assert refs[..k + 1][..k] == refs[..k];
      if ref.Ref? && NameOf(ref.head) in dropped {
      } else if !(ref.Ref? && NameOf(ref.head) in seen) || ref.path != [] {
        assert !NamesStep(refs[k], seen, dropped);
        return kept, Some(BadMaterial(ref));
      } else {
        kept := kept + [ref];
      }
      k := k + 1;
    }
    assert refs[..k] == refs;
  }

  lemma NextStored(kept: seq<Step>, k: nat, dropped: set<Id>)
    requires k < |kept|
    ensures StoredAll(kept[..k + 1], dropped) == StoredAll(kept[..k], dropped) + [Stored(Cleaned(kept[k], dropped))]
  {
  }

  /** Prunes each kept step of the steps that cannot run, refusing what cannot be satisfied. */
  method CloseSteps(kept: seq<Step>, seen: set<Id>, dropped: set<Id>)
    returns (steps: seq<PlanStep>, error: Option<PlanError>)
    requires seen !! dropped
    ensures error.None? <==> SatisfiableAll(kept, seen, dropped)
    ensures error.None? ==> steps == StoredAll(kept, dropped)
    ensures error.Some? ==> match error.value
                            case ReferencesInapplicable(id, dep) => dep in dropped && AwaitedBy(kept, dropped, id, dep)
                            case UnknownDependency(dep) => dep !in seen && dep !in dropped && Awaited(kept, dropped, dep)
                            case _ => false
  {
    steps, error := [], None;
    var k := 0;
    while k < |kept|
      invariant k <= |kept| && error.None?
      invariant forall i :: 0 <= i < k ==> Satisfiable(kept[i], seen, dropped)
      invariant steps == StoredAll(kept[..k], dropped)
    {
      error := CheckDeps(kept[k], seen, dropped);
      if error.Some? {
        return;
      }
      NextStored(kept, k, dropped);
      steps := steps + [Stored(Cleaned(kept[k], dropped))];
      k := k + 1;
    }
    assert kept[..k] == kept;
  }

  lemma SiftedApart(program: seq<Step>, applicable: string -> bool)
    requires UniqueProgram(program)
    ensures IdsOf(Kept(program, applicable)) !! DroppedIds(program, applicable)
  {
    KeptOrDropped(program, applicable);
    var kept, dropped := Kept(program, applicable), DroppedIds(program, applicable);
    forall x | x in IdsOf(kept) ensures x !in dropped {
      var k :| 0 <= k < |kept| && kept[k].id == x;
      assert kept[k] in program;
      var i :| 0 <= i < |program| && program[i] == kept[k];
    }
  }

  lemma StoredIds(kept: seq<Step>, dropped: set<Id>)
    ensures StepIds(StoredAll(kept, dropped)) == IdsOf(kept)
    ensures UniqueProgram(kept) ==> UniqueSteps(StoredAll(kept, dropped))
  {
  }

  lemma StoredIsWellLinked(step: Step, kept: set<Id>, dropped: set<Id>)
    requires kept !! dropped && Satisfiable(step, kept, dropped)
    ensures WellLinked(Stored(Cleaned(step, dropped)), kept)
  {
  }

  /** A program whose steps are unique and satisfiable makes a linked plan of unique steps. */
  lemma StoredIsLinked(program: seq<Step>, material: Option<seq<Value>>, applicable: string -> bool)
    requires UniqueProgram(program)
    requires SatisfiableAll(Kept(program, applicable), IdsOf(Kept(program, applicable)), DroppedIds(program, applicable))
    ensures UniqueSteps(PlanOf(program, material, applicable).steps)
    ensures Linked(PlanOf(program, material, applicable).steps)
  {
    var kept, dropped := Kept(program, applicable), DroppedIds(program, applicable);
    var steps := StoredAll(kept, dropped);
    KeptUnique(program, applicable);
    SiftedApart(program, applicable);
    StoredIds(kept, dropped);
    forall k | 0 <= k < |steps| ensures WellLinked(steps[k], StepIds(steps)) {
      StoredIsWellLinked(kept[k], IdsOf(kept), dropped);
    }
  }

  // ---------- the same, of what the planner wrote ----------

  function OpOf(raw: RawStep): string {
    match raw
    case Written(_, op, _, _) => op
    case Named(_, capability, _) => capability
  }

  /** The step goes by the id it was given, or by its op's name when it was given none, or an empty one. */
  ghost predicate GoesBy(raw: RawStep, id: Id) {
    match raw
    case Written(given, _, _, _) => id == given
    case Named(None, capability, _) => id == capability
    case Named(Some(given), capability, _) => if given == "" then id == capability else id == given
  }

  /** What it comes after as it was written: order, with no data. */
  function OrderOf(raw: RawStep): seq<Id> {
    match raw
    case Written(_, _, _, after) => after
    case Named(_, _, dependsOn) => dependsOn
  }

  ghost predicate References(raw: RawStep, id: Id) {
    raw.Written? && exists r :: r in RefsIn(raw.args) && r.Ref? && r.head == FromStep(id)
  }

  ghost predicate WaitsFor(raw: RawStep, id: Id) {
    References(raw, id) || id in OrderOf(raw)
  }

  ghost predicate CanRun(raws: seq<RawStep>, applicable: string -> bool, id: Id) {
    exists k :: 0 <= k < |raws| && GoesBy(raws[k], id) && applicable(OpOf(raws[k]))
  }

  ghost predicate CannotRun(raws: seq<RawStep>, applicable: string -> bool, id: Id) {
    exists k :: 0 <= k < |raws| && GoesBy(raws[k], id) && !applicable(OpOf(raws[k]))
  }

  /** `step` is what the planner wrote, waiting for what it said, less what cannot run here. */
  ghost predicate IsAsWritten(raws: seq<RawStep>, applicable: string -> bool, raw: RawStep, step: PlanStep) {
    && GoesBy(raw, step.id) && step.capability == OpOf(raw) && step.args == (if raw.Written? then raw.args else Dict([]))
    && (forall id :: id in step.dependsOn <==> WaitsFor(raw, id) && !CannotRun(raws, applicable, id))
    && forall id :: id in step.after <==> id in OrderOf(raw) && !CannotRun(raws, applicable, id)
  }

  ghost predicate AreAsWritten(raws: seq<RawStep>, applicable: string -> bool, runs: seq<RawStep>, steps: seq<PlanStep>) {
    |steps| == |runs| && forall i :: 0 <= i < |runs| ==> IsAsWritten(raws, applicable, runs[i], steps[i])
  }

  /** What the step comes after is there, and what it references can run. */
  ghost predicate ClosedAt(raws: seq<RawStep>, applicable: string -> bool, raw: RawStep) {
    && (forall id :: References(raw, id) ==> CanRun(raws, applicable, id))
    && forall id :: id in OrderOf(raw) ==> CanRun(raws, applicable, id) || CannotRun(raws, applicable, id)
  }

  ghost predicate IsClosed(raws: seq<RawStep>, applicable: string -> bool) {
    forall k :: 0 <= k < |raws| && applicable(OpOf(raws[k])) ==> ClosedAt(raws, applicable, raws[k])
  }

  lemma ReadIs(raw: RawStep)
    ensures GoesBy(raw, Read(raw).id) && forall id :: GoesBy(raw, id) ==> id == Read(raw).id
    ensures Read(raw).op == OpOf(raw) && Read(raw).args == (if raw.Written? then raw.args else Dict([]))
    ensures forall id :: id in Read(raw).after <==> id in OrderOf(raw)
    ensures forall id :: id in StepHeads(RefsIn(Read(raw).args)) <==> References(raw, id)
  {
    forall id ensures id in StepHeads(RefsIn(Read(raw).args)) <==> References(raw, id) {
      StepHeadsOf(RefsIn(Read(raw).args), id);
    }
  }

  lemma ReadIsOne(raws: seq<RawStep>, applicable: string -> bool, id: Id)
    ensures id in DroppedIds(ReadAll(raws), applicable) <==> CannotRun(raws, applicable, id)
    ensures id in IdsOf(Kept(ReadAll(raws), applicable)) <==> CanRun(raws, applicable, id)
  {
    var program := ReadAll(raws);
    KeptOrDropped(program, applicable);
    forall k | 0 <= k < |raws|
      ensures (GoesBy(raws[k], id) <==> program[k].id == id) && program[k].op == OpOf(raws[k])
    {
      ReadIs(raws[k]);
    }
    KeptId(program, applicable, id);
  }

  lemma KeptId(program: seq<Step>, applicable: string -> bool, id: Id)
    ensures id in IdsOf(Kept(program, applicable)) <==>
              exists k :: 0 <= k < |program| && program[k].id == id && applicable(program[k].op)
  {
    KeptOrDropped(program, applicable);
    var kept := Kept(program, applicable);
    if id in IdsOf(kept) {
      var i :| 0 <= i < |kept| && kept[i].id == id;
      assert kept[i] in program;
    }
    if k :| 0 <= k < |program| && program[k].id == id && applicable(program[k].op) {
      assert program[k] in kept;
    }
  }

  ghost predicate EachRead(runs: seq<RawStep>, steps: seq<Step>) {
    |steps| == |runs| && forall i :: 0 <= i < |runs| ==> steps[i] == Read(runs[i])
  }

  lemma {:induction false} KeptIsTheRest(raws: seq<RawStep>, applicable: string -> bool)
    ensures EachRead(Filter(raws, (r: RawStep) => applicable(OpOf(r))), Kept(ReadAll(raws), applicable))
  {
    if raws != [] {
      var init, last := raws[..|raws| - 1], raws[|raws| - 1];
      KeptIsTheRest(init, applicable);
      FilterOneMore(init, last, (r: RawStep) => applicable(OpOf(r)));
      ReadIs(last);
      assert raws == init + [last];
      assert ReadAll(raws)[..|raws| - 1] == ReadAll(init);
    }
  }

  lemma StoredAsWritten(raws: seq<RawStep>, applicable: string -> bool, raw: RawStep)
    requires Satisfiable(Read(raw), IdsOf(Kept(ReadAll(raws), applicable)), DroppedIds(ReadAll(raws), applicable))
    requires UniqueProgram(ReadAll(raws))
    ensures IsAsWritten(raws, applicable, raw, Stored(Cleaned(Read(raw), DroppedIds(ReadAll(raws), applicable))))
  {
    var step, dropped := Read(raw), DroppedIds(ReadAll(raws), applicable);
    var stored := Stored(Cleaned(step, dropped));
    ReadIs(raw);
    SiftedApart(ReadAll(raws), applicable);
    forall id ensures id in stored.dependsOn <==> WaitsFor(raw, id) && !CannotRun(raws, applicable, id) {
      DependenciesAreDerived(Cleaned(step, dropped), id);
      StepHeadsOf(RefsIn(step.args), id);
      ReadIsOne(raws, applicable, id);
    }
    forall id ensures id in stored.after <==> id in OrderOf(raw) && !CannotRun(raws, applicable, id) {
      ReadIsOne(raws, applicable, id);
    }
  }

  /** The plan of an acceptable program is the steps that can run, in order, as they were written. */
  lemma PlannedAsWritten(raws: seq<RawStep>, material: Option<seq<Value>>, applicable: string -> bool)
    requires UniqueProgram(ReadAll(raws))
    requires SatisfiableAll(Kept(ReadAll(raws), applicable), IdsOf(Kept(ReadAll(raws), applicable)),
                            DroppedIds(ReadAll(raws), applicable))
    ensures AreAsWritten(raws, applicable, Filter(raws, (r: RawStep) => applicable(OpOf(r))),
                         PlanOf(ReadAll(raws), material, applicable).steps)
  {
    var runs, kept := Filter(raws, (r: RawStep) => applicable(OpOf(r))), Kept(ReadAll(raws), applicable);
    KeptIsTheRest(raws, applicable);
    var steps := PlanOf(ReadAll(raws), material, applicable).steps;
    forall i | 0 <= i < |runs| ensures IsAsWritten(raws, applicable, runs[i], steps[i]) {
      assert Satisfiable(kept[i], IdsOf(kept), DroppedIds(ReadAll(raws), applicable));
      StoredAsWritten(raws, applicable, runs[i]);
    }
  }

  /** What runs of the program can be satisfied exactly when everything it waits for is there. */
  lemma SatisfiableMeansClosed(raws: seq<RawStep>, applicable: string -> bool)
    requires UniqueProgram(ReadAll(raws))
    ensures var kept, dropped := Kept(ReadAll(raws), applicable), DroppedIds(ReadAll(raws), applicable);
            SatisfiableAll(kept, IdsOf(kept), dropped) <==> IsClosed(raws, applicable)
  {
    var program := ReadAll(raws);
    var kept, dropped := Kept(program, applicable), DroppedIds(program, applicable);
    KeptOrDropped(program, applicable);
    SiftedApart(program, applicable);
    forall id ensures id in dropped <==> CannotRun(raws, applicable, id)
              ensures id in IdsOf(kept) <==> CanRun(raws, applicable, id)
    {
      ReadIsOne(raws, applicable, id);
    }
    forall k | 0 <= k < |raws|
      ensures applicable(OpOf(raws[k])) <==> program[k] in kept
      ensures Satisfiable(program[k], IdsOf(kept), dropped) <==> ClosedAt(raws, applicable, raws[k])
    {
      ReadIs(raws[k]);
    }
    if IsClosed(raws, applicable) {
      forall i | 0 <= i < |kept| ensures Satisfiable(kept[i], IdsOf(kept), dropped) {
        assert kept[i] in program;
        var k :| 0 <= k < |program| && program[k] == kept[i];
        assert ClosedAt(raws, applicable, raws[k]);
      }
    }
  }

  ghost predicate IsMaterial(raws: seq<RawStep>, applicable: string -> bool, v: Value) {
    v.Ref? && (CannotRun(raws, applicable, NameOf(v.head)) || (CanRun(raws, applicable, NameOf(v.head)) && v.path == []))
  }

  /** What a planner must have written for a plan to come of it. */
  ghost predicate AcceptableAsWritten(
    raws: seq<RawStep>, material: Option<seq<Value>>, allowed: set<string>, applicable: string -> bool)
  {
    && raws != []
    && (forall k :: 0 <= k < |raws| ==> OpOf(raws[k]) in allowed)
    && (forall i, j, id :: 0 <= i < j < |raws| && GoesBy(raws[i], id) ==> !GoesBy(raws[j], id))
    && IsClosed(raws, applicable)
    && (material.Some? ==> forall k :: 0 <= k < |material.value| ==> IsMaterial(raws, applicable, material.value[k]))
    && exists steps :: AreAsWritten(raws, applicable, Filter(raws, (r: RawStep) => applicable(OpOf(r))), steps)
                       && Acyclic(Rows(steps))
  }

  lemma ReadsUniqueAndKnown(raws: seq<RawStep>, allowed: set<string>)
    ensures KnownOps(ReadAll(raws), allowed) <==> forall k :: 0 <= k < |raws| ==> OpOf(raws[k]) in allowed
    ensures UniqueProgram(ReadAll(raws)) <==>
              forall i, j, id :: 0 <= i < j < |raws| && GoesBy(raws[i], id) ==> !GoesBy(raws[j], id)
  {
    var program := ReadAll(raws);
    forall k | 0 <= k < |raws| ensures program[k].op == OpOf(raws[k]) && GoesBy(raws[k], program[k].id)
                               ensures forall id :: GoesBy(raws[k], id) ==> id == program[k].id
    {
      ReadIs(raws[k]);
    }
  }

  lemma NamesAsWritten(raws: seq<RawStep>, refs: seq<Value>, applicable: string -> bool)
    ensures NameSteps(refs, IdsOf(Kept(ReadAll(raws), applicable)), DroppedIds(ReadAll(raws), applicable)) <==>
            forall k :: 0 <= k < |refs| ==> IsMaterial(raws, applicable, refs[k])
  {
    forall k | 0 <= k < |refs|
      ensures NamesStep(refs[k], IdsOf(Kept(ReadAll(raws), applicable)), DroppedIds(ReadAll(raws), applicable))
              <==> IsMaterial(raws, applicable, refs[k])
    {
      if refs[k].Ref? { ReadIsOne(raws, applicable, NameOf(refs[k].head)); }
    }
  }

  /** What is written leaves no choice of ids and of what is waited for. */
  lemma SameGraph(raws: seq<RawStep>, applicable: string -> bool, runs: seq<RawStep>, a: seq<PlanStep>, b: seq<PlanStep>)
    requires AreAsWritten(raws, applicable, runs, a) && AreAsWritten(raws, applicable, runs, b) && Acyclic(Rows(a))
    ensures Acyclic(Rows(b))
  {
    forall k | 0 <= k < |runs|
      ensures a[k].id == b[k].id && forall id :: id in a[k].dependsOn <==> id in b[k].dependsOn
    {
      assert IsAsWritten(raws, applicable, runs[k], a[k]) && IsAsWritten(raws, applicable, runs[k], b[k]);
    }
    RowsKeepIds(a);
    RowsKeepIds(b);
    var order :| Topological(Rows(a), order);
    forall x ensures x in Ids(Rows(b)) <==> x in Ids(Rows(a)) {}
    forall i, j | 0 <= i < |order| && 0 <= j < |order| && Edge(Rows(b), order[j], order[i]) ensures j < i {
      var k :| 0 <= k < |Rows(b)| && Rows(b)[k].id == order[i] && order[j] in Rows(b)[k].deps;
      assert Rows(a)[k].id == order[i] && order[j] in Rows(a)[k].deps;
    }
    assert Topological(Rows(b), order);
  }

  lemma AcceptableExactlyAsWritten(
      raws: seq<RawStep>, material: Option<seq<Value>>, allowed: set<string>, applicable: string -> bool)
    ensures Acceptable(ReadAll(raws), material, allowed, applicable) <==>
            AcceptableAsWritten(raws, material, allowed, applicable)
  {
    var runs := Filter(raws, (r: RawStep) => applicable(OpOf(r)));
    var program := ReadAll(raws);
    ReadsUniqueAndKnown(raws, allowed);
    if material.Some? { NamesAsWritten(raws, material.value, applicable); }
    if UniqueProgram(program) {
      SatisfiableMeansClosed(raws, applicable);
      if IsClosed(raws, applicable) {
        PlannedAsWritten(raws, material, applicable);
        forall steps | AreAsWritten(raws, applicable, runs, steps) && Acyclic(Rows(steps))
          ensures Acyclic(Rows(PlanOf(program, material, applicable).steps))
        {
          SameGraph(raws, applicable, runs, steps, PlanOf(program, material, applicable).steps);
        }
      }
    }
  }

  /** The steps that can run, in order, as they were written; and the material, less what names one that cannot. */
  ghost predicate IsPlanAsWritten(
    raws: seq<RawStep>, material: Option<seq<Value>>, applicable: string -> bool, plan: Plan)
  {
    && AreAsWritten(raws, applicable, Filter(raws, (r: RawStep) => applicable(OpOf(r))), plan.steps)
    && (plan.material.Some? <==> material.Some?)
    && forall v :: material.Some? ==>
         (v in plan.material.value <==>
            v in material.value && !(v.Ref? && CannotRun(raws, applicable, NameOf(v.head))))
  }

  lemma AcceptedAsWritten(
      raws: seq<RawStep>, material: Option<seq<Value>>, allowed: set<string>, applicable: string -> bool)
    requires Acceptable(ReadAll(raws), material, allowed, applicable)
    ensures IsPlanAsWritten(raws, material, applicable, PlanOf(ReadAll(raws), material, applicable))
  {
    PlannedAsWritten(raws, material, applicable);
    if material.Some? {
      var dropped := DroppedIds(ReadAll(raws), applicable);
      MaterialFilters(material.value, dropped);
      FilterHolds(material.value, (v: Value) => !(v.Ref? && NameOf(v.head) in dropped));
      forall v: Value | v.Ref? ensures NameOf(v.head) in dropped <==> CannotRun(raws, applicable, NameOf(v.head)) {
        ReadIsOne(raws, applicable, NameOf(v.head));
      }
    }
  }

  /** Accepts exactly what a planner may write, and plans it as it was written: the steps that can run, in order, each
      under its id with its op and arguments, waiting for what it said less what cannot run here. The plan is valid;
      a refusal names something the program really has. */
  method Validate(raw: Option<seq<RawStep>>, material: Option<seq<Value>>, allowed: set<string>,
                  applicable: string -> bool)
    returns (r: Verdict)
    ensures r.Accepted? <==> raw.Some? && AcceptableAsWritten(raw.value, material, allowed, applicable)
    ensures r.Accepted? ==> r.plan == PlanOf(ReadAll(raw.value), material, applicable) && ValidSteps(r.plan.steps)
    ensures r.Accepted? ==> IsPlanAsWritten(raw.value, material, applicable, r.plan)
    ensures r.Rejected? ==>
              if raw.None? then r.why == MissingSteps
              else TrulyRefused(r.why, ReadAll(raw.value), material, allowed, applicable)
  {
    if raw.None? {
      return Rejected(MissingSteps);
    }
    if raw.value == [] {
      return Rejected(EmptySteps);
    }
    var program := ReadAll(raw.value);
    AcceptableExactlyAsWritten(raw.value, material, allowed, applicable);
    var kept, seen, dropped, error := Sift(program, allowed, applicable);
    if error.Some? {
      return Rejected(error.value);
    }
    SiftedApart(program, applicable);
    var steps;
    steps, error := CloseSteps(kept, seen, dropped);
    if error.Some? {
      return Rejected(error.value);
    }
    var named := None;
    if material.Some? {
      var refs, bad := CheckMaterial(material.value, seen, dropped);
      if bad.Some? {
        return Rejected(bad.value);
      }
      named := Some(refs);
    }
    assert steps == PlanOf(program, material, applicable).steps;
    StoredIsLinked(program, material, applicable);
    RowsKeepIds(steps);
    var visited, order := Kahn.Visits(Rows(steps));
    if visited != |steps| {
      return Rejected(ContainsCycle);
    }
    r := Accepted(Plan(steps, named));
    AcceptedAsWritten(raw.value, material, allowed, applicable);
  }

  /** Only a program with no step that can run here makes an empty plan. */
  lemma EmptyPlanMeansNothingApplies(program: seq<Step>, material: Option<seq<Value>>, applicable: string -> bool)
    ensures PlanOf(program, material, applicable).steps == [] <==> forall s :: s in program ==> !applicable(s.op)
  {
    KeptOrDropped(program, applicable);
    var kept := Kept(program, applicable);
    if kept != [] { assert kept[0] in kept; }
  }
}
