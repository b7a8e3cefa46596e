/** A stored plan, what makes one valid, and taking steps out of it (jobsmith/dag/planner.py, jobs.py). */
module Plans {
  import opened Sequences
  import opened Options
  import opened Ir
  import opened Graphs

  /** The steps, and the answer slot's material when it names any. */
  datatype Plan = Plan(steps: seq<PlanStep>, material: Option<seq<Value>>)

  function Rows(steps: seq<PlanStep>): (rows: seq<Row>)
    ensures |rows| == |steps|
  {
    seq(|steps|, i requires 0 <= i < |steps| => Row(steps[i].id, steps[i].dependsOn))
  }

  function StepIds(steps: seq<PlanStep>): (s: set<Id>)
    ensures forall x :: x in s <==> exists k :: 0 <= k < |steps| && steps[k].id == x
  {
    set k | 0 <= k < |steps| :: steps[k].id
  }

  ghost predicate UniqueSteps(steps: seq<PlanStep>) {
    forall i, j :: 0 <= i < j < |steps| ==> steps[i].id != steps[j].id
  }

  /** A step waits only for steps of the plan, and for every step of the plan its arguments reference.
      (A reference to a step taken out of a running plan stays, and cannot be resolved.) */
  ghost predicate WellLinked(step: PlanStep, ids: set<Id>) {
    && (forall d :: d in step.dependsOn ==> d in ids)
    && forall d :: d in StepHeads(RefsIn(step.args)) && d in ids ==> d in step.dependsOn
  }

  ghost predicate Linked(steps: seq<PlanStep>) {
    forall k :: 0 <= k < |steps| ==> WellLinked(steps[k], StepIds(steps))
  }

  /** A plan the interpreter may be given. */
  ghost predicate ValidSteps(steps: seq<PlanStep>) {
    UniqueSteps(steps) && Linked(steps) && Acyclic(Rows(steps))
  }

  ghost function StepOf(steps: seq<PlanStep>, id: Id): (s: PlanStep)
    requires id in StepIds(steps)
    ensures s in steps && s.id == id
  {
    var k :| 0 <= k < |steps| && steps[k].id == id;
    steps[k]
  }

  lemma StepOfIs(steps: seq<PlanStep>, k: nat)
    requires UniqueSteps(steps) && k < |steps|
    ensures steps[k].id in StepIds(steps) && StepOf(steps, steps[k].id) == steps[k]
  {
  }

  lemma OneStepAnId(steps: seq<PlanStep>, a: PlanStep, b: PlanStep)
    requires UniqueSteps(steps) && a in steps && b in steps && a.id == b.id
    ensures a == b
  {
  }

  lemma RowsKeepIds(steps: seq<PlanStep>)
    ensures Ids(Rows(steps)) == StepIds(steps)
    ensures UniqueSteps(steps) ==> UniqueIds(Rows(steps))
  {
    forall x ensures x in Ids(Rows(steps)) <==> x in StepIds(steps) {
      if x in StepIds(steps) { var k :| 0 <= k < |steps| && steps[k].id == x; assert Rows(steps)[k].id == x; }
    }
  }

  // ---------- an order the steps can run in ----------

  /** Every step of the plan once, each after everything it waits for. */
  ghost predicate Runnable(steps: seq<PlanStep>, order: seq<Id>) {
    && Distinct(order)
    && (forall x :: x in order <==> x in StepIds(steps))
    && forall i :: 0 <= i < |order| ==> AfterItsDeps(steps, order, i)
  }

  ghost predicate AfterItsDeps(steps: seq<PlanStep>, order: seq<Id>, i: nat)
    requires i < |order|
  {
    order[i] in StepIds(steps) && forall d :: d in StepOf(steps, order[i]).dependsOn ==> d in order[..i]
  }

  lemma TopologicalIsRunnable(steps: seq<PlanStep>, order: seq<Id>)
    requires UniqueSteps(steps) && Linked(steps) && Topological(Rows(steps), order)
    ensures Runnable(steps, order)
  {
    RowsKeepIds(steps);
    forall i | 0 <= i < |order| ensures AfterItsDeps(steps, order, i) {
      assert order[i] in order;
      forall d | d in StepOf(steps, order[i]).dependsOn ensures d in order[..i] {
        EdgeOf(steps, d, order[i]);
        assert d in order;
        var j :| 0 <= j < |order| && order[j] == d;
      }
    }
  }

  lemma EdgeOf(steps: seq<PlanStep>, d: Id, b: Id)
    requires UniqueSteps(steps) && Linked(steps) && b in StepIds(steps) && d in StepOf(steps, b).dependsOn
    ensures Edge(Rows(steps), d, b) && d in StepIds(steps)
  {
    var s := StepOf(steps, b);
    var k :| 0 <= k < |steps| && steps[k] == s;
    assert Rows(steps)[k].id == b && d in Rows(steps)[k].deps;
    assert WellLinked(steps[k], StepIds(steps));
  }

  lemma RunnableIsTopological(steps: seq<PlanStep>, order: seq<Id>)
    requires UniqueSteps(steps) && Runnable(steps, order)
    ensures Topological(Rows(steps), order)
  {
    RowsKeepIds(steps);
    forall i, j | 0 <= i < |order| && 0 <= j < |order| && Edge(Rows(steps), order[j], order[i])
      ensures j < i
    {
      var k :| 0 <= k < |steps| && Rows(steps)[k].id == order[i] && order[j] in Rows(steps)[k].deps;
      StepOfIs(steps, k);
      assert AfterItsDeps(steps, order, i);
      assert order[j] in order[..i];
    }
  }

  // ---------- dropping steps ----------

  function Except(ids: seq<Id>, gone: set<Id>): (r: seq<Id>)
    ensures forall x :: x in r <==> x in ids && x !in gone
  {
    if ids == [] then []
    else
      assert ids == ids[..|ids| - 1] + [ids[|ids| - 1]];
      Except(ids[..|ids| - 1], gone) + if ids[|ids| - 1] in gone then [] else [ids[|ids| - 1]]
  }

  function Pruned(step: PlanStep, gone: set<Id>): PlanStep {
    step.(dependsOn := Except(step.dependsOn, gone), after := Except(step.after, gone))
  }

  function StepsWithout(steps: seq<PlanStep>, gone: set<Id>): seq<PlanStep> {
    if steps == [] then []
    else
      StepsWithout(steps[..|steps| - 1], gone)
      + if steps[|steps| - 1].id in gone then [] else [Pruned(steps[|steps| - 1], gone)]
  }

  function MaterialWithout(material: seq<Value>, gone: set<Id>): seq<Value> {
    if material == [] then []
    else
      var last := material[|material| - 1];
      MaterialWithout(material[..|material| - 1], gone)
      + if last.Ref? && NameOf(last.head) in gone then [] else [last]
  }

  /** The plan with the steps `gone` out of it, and every mention of them pruned. */
  function Without(plan: Plan, gone: set<Id>): Plan {
    Plan(StepsWithout(plan.steps, gone),
         match plan.material case None => None case Some(m) => Some(MaterialWithout(m, gone)))
  }

  method WithoutSteps(plan: Plan, ids: seq<Id>) returns (amended: Plan)
    ensures amended == Without(plan, set x | x in ids)
  {
    var gone := set x | x in ids;
    var steps := [];
    var k := 0;
    while k < |plan.steps|
      invariant k <= |plan.steps| && steps == StepsWithout(plan.steps[..k], gone)
    {
      assert plan.steps[..k + 1][..k] == plan.steps[..k];
      if plan.steps[k].id !in gone {
        steps := steps + [Pruned(plan.steps[k], gone)];
      }
      k := k + 1;
    }
    assert plan.steps[..k] == plan.steps;
    amended := plan.(steps := steps);
    if plan.material.Some? {
      var kept := [];
      var i := 0;
      while i < |plan.material.value|
        invariant i <= |plan.material.value| && kept == MaterialWithout(plan.material.value[..i], gone)
      {
        var ref := plan.material.value[i];
        assert plan.material.value[..i + 1][..i] == plan.material.value[..i];
        if !(ref.Ref? && NameOf(ref.head) in gone) {
          kept := kept + [ref];
        }
        i := i + 1;
      }
      assert plan.material.value[..i] == plan.material.value;
      amended := amended.(material := Some(kept));
    }
  }

  lemma {:induction false} ExceptTwice(ids: seq<Id>, a: set<Id>, b: set<Id>)
    ensures Except(Except(ids, a), b) == Except(ids, a + b)
  {
    if ids != [] {
      var init, last := ids[..|ids| - 1], ids[|ids| - 1];
      ExceptTwice(init, a, b);
      if last !in a {
        assert (Except(init, a) + [last])[..|Except(init, a)|] == Except(init, a);
      } else {
        assert Except(ids, a) == Except(init, a);
      }
    }
  }

  lemma {:induction false} StepsWithoutTwice(steps: seq<PlanStep>, a: set<Id>, b: set<Id>)
    ensures StepsWithout(StepsWithout(steps, a), b) == StepsWithout(steps, a + b)
  {
    if steps != [] {
      var init, last := steps[..|steps| - 1], steps[|steps| - 1];
      StepsWithoutTwice(init, a, b);
      if last.id !in a {
        ExceptTwice(last.dependsOn, a, b);
        ExceptTwice(last.after, a, b);
        assert (StepsWithout(init, a) + [Pruned(last, a)])[..|StepsWithout(init, a)|] == StepsWithout(init, a);
      } else {
        assert StepsWithout(steps, a) == StepsWithout(init, a);
      }
    }
  }

  lemma {:induction false} MaterialWithoutTwice(m: seq<Value>, a: set<Id>, b: set<Id>)
    ensures MaterialWithout(MaterialWithout(m, a), b) == MaterialWithout(m, a + b)
  {
    if m != [] {
      var init, last := m[..|m| - 1], m[|m| - 1];
      MaterialWithoutTwice(init, a, b);
      if last.Ref? && NameOf(last.head) in a {
        assert MaterialWithout(m, a) == MaterialWithout(init, a);
      } else {
        assert (MaterialWithout(init, a) + [last])[..|MaterialWithout(init, a)|] == MaterialWithout(init, a);
      }
    }
  }

  /** Dropping some steps and then others is dropping them all at once. */
  lemma DroppingComposes(plan: Plan, a: set<Id>, b: set<Id>)
    ensures Without(Without(plan, a), b) == Without(plan, a + b)
  {
    StepsWithoutTwice(plan.steps, a, b);
    if plan.material.Some? { MaterialWithoutTwice(plan.material.value, a, b); }
  }

  /** What is left: the steps not gone, in their order, each pruned. */
  lemma {:induction false} StepsWithoutAre(steps: seq<PlanStep>, gone: set<Id>)
    ensures forall s :: s in StepsWithout(steps, gone) <==>
              exists t :: t in steps && t.id !in gone && s == Pruned(t, gone)
    ensures UniqueSteps(steps) ==> UniqueSteps(StepsWithout(steps, gone))
  {
    if steps != [] {
      var init, last := steps[..|steps| - 1], steps[|steps| - 1];
      assert steps == init + [last];
      StepsWithoutAre(init, gone);
      if UniqueSteps(steps) && last.id !in gone {
        var rest := StepsWithout(init, gone);
        forall i | 0 <= i < |rest| ensures rest[i].id != last.id {
          assert rest[i] in rest;
        }
      }
    }
  }

  lemma IdsWithout(steps: seq<PlanStep>, gone: set<Id>)
    ensures StepIds(StepsWithout(steps, gone)) == StepIds(steps) - gone
  {
    StepsWithoutAre(steps, gone);
    var left := StepsWithout(steps, gone);
    forall x ensures x in StepIds(left) <==> x in StepIds(steps) && x !in gone {
      if x in StepIds(left) {
        var k :| 0 <= k < |left| && left[k].id == x;
        assert left[k] in left;
      }
      if x in StepIds(steps) && x !in gone {
        var k :| 0 <= k < |steps| && steps[k].id == x;
        assert Pruned(steps[k], gone) in left;
        var i :| 0 <= i < |left| && left[i] == Pruned(steps[k], gone);
      }
    }
  }

  lemma StepOfWithout(steps: seq<PlanStep>, gone: set<Id>, id: Id)
    requires UniqueSteps(steps) && id in StepIds(steps) && id !in gone
    ensures id in StepIds(StepsWithout(steps, gone))
    ensures StepOf(StepsWithout(steps, gone), id) == Pruned(StepOf(steps, id), gone)
  {
    IdsWithout(steps, gone);
    StepsWithoutAre(steps, gone);
    var left := StepsWithout(steps, gone);
    var s := StepOf(left, id);
    var t :| t in steps && t.id !in gone && s == Pruned(t, gone);
    var k :| 0 <= k < |steps| && steps[k] == t;
    StepOfIs(steps, k);
  }

  lemma LinkedWithout(steps: seq<PlanStep>, gone: set<Id>)
    requires Linked(steps)
    ensures Linked(StepsWithout(steps, gone))
  {
    IdsWithout(steps, gone);
    StepsWithoutAre(steps, gone);
    var left := StepsWithout(steps, gone);
    forall k | 0 <= k < |left| ensures WellLinked(left[k], StepIds(left)) {
      assert left[k] in left;
      var t :| t in steps && t.id !in gone && left[k] == Pruned(t, gone);
      var i :| 0 <= i < |steps| && steps[i] == t;
      assert WellLinked(steps[i], StepIds(steps));
    }
  }

  lemma {:induction false} ExceptPosition(order: seq<Id>, gone: set<Id>, i: nat) returns (k: nat)
    requires i < |Except(order, gone)|
    ensures k < |order| && order[k] == Except(order, gone)[i]
    ensures Except(order, gone)[..i] == Except(order[..k], gone)
  {
    var init := order[..|order| - 1];
    var rest := Except(init, gone);
    if i < |rest| {
      k := ExceptPosition(init, gone, i);
      assert init[..k] == order[..k] && Except(order, gone)[..i] == rest[..i];
    } else {
      k := |init|;
      assert Except(order, gone)[..i] == rest;
    }
  }

  lemma {:induction false} ExceptDistinct(order: seq<Id>, gone: set<Id>)
    requires Distinct(order)
    ensures Distinct(Except(order, gone))
  {
    if order != [] {
      var init, last := order[..|order| - 1], order[|order| - 1];
      assert order == init + [last];
      ExceptDistinct(init, gone);
      assert last !in Except(init, gone);
    }
  }

  /** What is left of a run order is a run order of what is left. */
  lemma RunnableWithout(steps: seq<PlanStep>, gone: set<Id>, order: seq<Id>)
    requires UniqueSteps(steps) && Runnable(steps, order)
    ensures Runnable(StepsWithout(steps, gone), Except(order, gone))
  {
    var left, rest := StepsWithout(steps, gone), Except(order, gone);
    IdsWithout(steps, gone);
    ExceptDistinct(order, gone);
    forall i | 0 <= i < |rest| ensures AfterItsDeps(left, rest, i) {
      var k := ExceptPosition(order, gone, i);
      assert rest[i] in rest;
      assert AfterItsDeps(steps, order, k);
      StepOfWithout(steps, gone, order[k]);
    }
  }

  /** Dropping steps keeps a plan valid: unique ids, closed and referenced dependencies, no cycle. */
  lemma DroppingKeepsValid(plan: Plan, gone: set<Id>)
    requires ValidSteps(plan.steps)
    ensures ValidSteps(Without(plan, gone).steps)
    ensures StepIds(Without(plan, gone).steps) == StepIds(plan.steps) - gone
  {
    var order :| Topological(Rows(plan.steps), order);
    TopologicalIsRunnable(plan.steps, order);
    RunnableWithout(plan.steps, gone, order);
    StepsWithoutAre(plan.steps, gone);
    LinkedWithout(plan.steps, gone);
    IdsWithout(plan.steps, gone);
    RunnableIsTopological(StepsWithout(plan.steps, gone), Except(order, gone));
  }

  // ---------- what is left, element by element ----------

  lemma {:induction false} ExceptFilters(ids: seq<Id>, gone: set<Id>)
    ensures Except(ids, gone) == Filter(ids, (d: Id) => d !in gone)
  {
    if ids != [] {
      var init, last := ids[..|ids| - 1], ids[|ids| - 1];
      ExceptFilters(init, gone);
      FilterOneMore(init, last, (d: Id) => d !in gone);
      assert ids == init + [last];
    }
  }

  lemma {:induction false} MaterialFilters(material: seq<Value>, gone: set<Id>)
    ensures MaterialWithout(material, gone) == Filter(material, (v: Value) => !(v.Ref? && NameOf(v.head) in gone))
  {
    if material != [] {
      var init, last := material[..|material| - 1], material[|material| - 1];
      MaterialFilters(init, gone);
      FilterOneMore(init, last, (v: Value) => !(v.Ref? && NameOf(v.head) in gone));
      assert material == init + [last];
    }
  }

  /** The same step, less what is gone of what it waits for and of what it only comes after. */
  ghost predicate IsPruned(step: PlanStep, left: PlanStep, gone: set<Id>) {
    && left.id == step.id && left.capability == step.capability && left.args == step.args
    && left.dependsOn == Filter(step.dependsOn, (d: Id) => d !in gone)
    && left.after == Filter(step.after, (d: Id) => d !in gone)
  }

  ghost predicate EachPruned(steps: seq<PlanStep>, left: seq<PlanStep>, gone: set<Id>) {
    |left| == |steps| && forall i :: 0 <= i < |steps| ==> IsPruned(steps[i], left[i], gone)
  }

  lemma PrunedIs(step: PlanStep, gone: set<Id>)
    ensures IsPruned(step, Pruned(step, gone), gone)
  {
    ExceptFilters(step.dependsOn, gone);
    ExceptFilters(step.after, gone);
  }

  /** The steps that are not gone, in order, each the same but for what is gone. */
  lemma {:induction false} StepsAreTheRest(steps: seq<PlanStep>, gone: set<Id>)
    ensures EachPruned(Filter(steps, (s: PlanStep) => s.id !in gone), StepsWithout(steps, gone), gone)
  {
    if steps != [] {
      var init, last := steps[..|steps| - 1], steps[|steps| - 1];
      StepsAreTheRest(init, gone);
      FilterOneMore(init, last, (s: PlanStep) => s.id !in gone);
      PrunedIs(last, gone);
      assert steps == init + [last];
      EachPrunedNext(Filter(init, (s: PlanStep) => s.id !in gone), StepsWithout(init, gone), last, gone);
    }
  }

  lemma EachPrunedNext(steps: seq<PlanStep>, left: seq<PlanStep>, last: PlanStep, gone: set<Id>)
    requires EachPruned(steps, left, gone) && IsPruned(last, Pruned(last, gone), gone)
    ensures EachPruned(steps + [last], left + [Pruned(last, gone)], gone)
    ensures EachPruned(steps + [], left + [], gone)
  {
    assert steps + [] == steps && left + [] == left;
  }

  /** What dropping leaves is what was there, in order, less the steps that are gone, and less what names them in what
      a step waits for, in what it only comes after and in the answer's material; nothing else of it changes. */
  lemma WithoutIsTheRest(plan: Plan, gone: set<Id>)
    ensures var left := Without(plan, gone);
            && EachPruned(Filter(plan.steps, (s: PlanStep) => s.id !in gone), left.steps, gone)
            && left.material == match plan.material
                                case None => None
                                case Some(m) => Some(Filter(m, (v: Value) => !(v.Ref? && NameOf(v.head) in gone)))
  {
    StepsAreTheRest(plan.steps, gone);
    if plan.material.Some? { MaterialFilters(plan.material.value, gone); }
  }
}
