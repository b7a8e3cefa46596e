/** The program's values, its references, and how a reference is resolved (jobsmith/dag/ir.py). */
module Ir {
  import opened Options

  type Id = string

  /** What a reference names first: the job's inputs, the element of a map, or a step. */
  datatype Head = FromInput | FromItem | FromStep(id: Id)

  /** The name a reference starts with, as it is written. */
  function NameOf(head: Head): Id {
    match head
    case FromInput => "input"
    case FromItem => "item"
    case FromStep(id) => id
  }

  /** A JSON value. `Ref` is a string that is a whole reference, already parsed; every other scalar is
      a `Literal`. The fields of a `Dict` keep their insertion order. */
  datatype Value =
    | Literal(text: string)
    | Ref(head: Head, path: seq<string>)
    | List(items: seq<Value>)
    | Dict(fields: seq<Entry>)

  datatype Entry = Entry(key: string, value: Value)

  /** One work step as the planner's model holds it: its arguments, and what it waits for with no data. */
  datatype Step = Step(id: Id, op: string, args: Value, after: seq<Id>)

  /** A step as the plan channel stores it, with its derived dependencies. */
  datatype PlanStep = PlanStep(id: Id, capability: string, dependsOn: seq<Id>, args: Value, after: seq<Id>)

  // ---------- references and dependencies ----------

  /** Every reference in an argument value, in order, at any depth. */
  function RefsIn(v: Value): seq<Value>
    decreases v, 0
  {
    match v
    case Literal(_) => []
    case Ref(_, _) => [v]
    case List(items) => RefsInItems(items)
    case Dict(fields) => RefsInFields(fields)
  }

  function RefsInItems(items: seq<Value>): seq<Value>
    decreases items, 1
  {
    if items == [] then [] else RefsIn(items[0]) + RefsInItems(items[1..])
  }

  function RefsInFields(fields: seq<Entry>): seq<Value>
    decreases fields, 1
  {
    if fields == [] then [] else RefsIn(fields[0].value) + RefsInFields(fields[1..])
  }

  /** The steps a list of references names, in order. */
  function StepHeads(refs: seq<Value>): seq<Id> {
    if refs == [] then []
    else (if refs[0].Ref? && refs[0].head.FromStep? then [refs[0].head.id] else []) + StepHeads(refs[1..])
  }

  /** The sequence with each element kept where it first occurs. */
  function Once(ids: seq<Id>): (r: seq<Id>)
    ensures forall x :: x in r <==> x in ids
    ensures forall i, j :: 0 <= i < j < |r| ==> r[i] != r[j]
  {
    if ids == [] then []
    else
      var rest := Once(ids[..|ids| - 1]);
      var last := ids[|ids| - 1];
      assert ids == ids[..|ids| - 1] + [last];
      if last in rest then rest else rest + [last]
  }

  /** The step ids `step` waits for: those its arguments reference, then `after`, each once. */
  function Dependencies(step: Step): seq<Id> {
    Once(StepHeads(RefsIn(step.args)) + step.after)
  }

  function Stored(step: Step): PlanStep {
    PlanStep(step.id, step.op, Dependencies(step), step.args, step.after)
  }

  lemma {:induction false} StepHeadsOf(refs: seq<Value>, id: Id)
    ensures id in StepHeads(refs) <==> exists r :: r in refs && r.Ref? && r.head == FromStep(id)
  {
    if refs != [] {
      StepHeadsOf(refs[1..], id);
      assert refs == [refs[0]] + refs[1..];
    }
  }

  /** A step waits for exactly the steps its arguments name and the steps it is put after. */
  lemma DependenciesAreDerived(step: Step, id: Id)
    ensures id in Dependencies(step) <==>
            id in step.after || exists r :: r in RefsIn(step.args) && r.Ref? && r.head == FromStep(id)
  {
    StepHeadsOf(RefsIn(step.args), id);
  }

  // ---------- resolution ----------

  /** Why a step has no successful result. */
  datatype Reason =
    | ItemOutsideMap(ref: Value)
    | NoSuchInput(ref: Value)
    | NoSuccessfulResult(ref: Value)
    | NoField(ref: Value, field: string)
    | Refused(detail: string)
    | Reported(detail: string)

  /** What a step left behind; a failed one may say that another try is worth it. */
  datatype Result = Ok(data: Value) | Failed(error: Reason, retryable: bool)

  datatype Resolution<+T> = Have(value: T) | Unresolved(why: Reason)

  function Field(fields: seq<Entry>, name: string): Option<Value> {
    if fields == [] then None
    else if fields[0].key == name then Some(fields[0].value)
    else Field(fields[1..], name)
  }

  function Walk(current: Value, path: seq<string>, ref: Value): Resolution<Value>
    decreases |path|
  {
    if path == [] then Have(current)
    else if !current.Dict? then Unresolved(NoField(ref, path[0]))
    else
      match Field(current.fields, path[0])
      case None => Unresolved(NoField(ref, path[0]))
      case Some(v) => Walk(v, path[1..], ref)
  }

  /** What a truth test takes for nothing; a literal is its JSON text. */
  predicate Falsy(data: Value) {
    data == List([]) || data == Dict([])
    || data in {Literal("null"), Literal("false"), Literal("0"), Literal("-0"), Literal("0.0"), Literal("-0.0"), Literal("\"\"")}
  }

  /** The data a step handed over, if it succeeded; nothing is an empty object. */
  function Handed(results: map<Id, Result>, id: Id): Option<Value> {
    if id in results && results[id].Ok? then Some(if Falsy(results[id].data) then Dict([]) else results[id].data)
    else None
  }

  function Fetch(ref: Value, results: map<Id, Result>, inputs: map<string, Value>): Resolution<Value>
    requires ref.Ref?
  {
    match ref.head
    case FromItem => Unresolved(ItemOutsideMap(ref))
    case FromInput =>
      if ref.path == [] || ref.path[0] !in inputs then Unresolved(NoSuchInput(ref))
      else Walk(inputs[ref.path[0]], ref.path[1..], ref)
    case FromStep(id) =>
      match Handed(results, id)
      case None => Unresolved(NoSuccessfulResult(ref))
      case Some(data) => Walk(data, ref.path, ref)
  }

  /** `v` with every reference replaced by what it names, or the first reference that names nothing. */
  function Resolve(v: Value, results: map<Id, Result>, inputs: map<string, Value>): Resolution<Value>
    decreases v, 0
  {
    match v
    case Literal(_) => Have(v)
    case Ref(_, _) => Fetch(v, results, inputs)
    case List(items) =>
      (match ResolveItems(items, results, inputs)
       case Unresolved(why) => Unresolved(why)
       case Have(vs) => Have(List(vs)))
    case Dict(fields) =>
      (match ResolveFields(fields, results, inputs)
       case Unresolved(why) => Unresolved(why)
       case Have(fs) => Have(Dict(fs)))
  }

  function ResolveItems(items: seq<Value>, results: map<Id, Result>, inputs: map<string, Value>)
    : Resolution<seq<Value>>
    decreases items, 1
  {
    if items == [] then Have([])
    else
      match Resolve(items[0], results, inputs)
      case Unresolved(why) => Unresolved(why)
      case Have(v) =>
        match ResolveItems(items[1..], results, inputs)
        case Unresolved(why) => Unresolved(why)
        case Have(vs) => Have([v] + vs)
  }

  function ResolveFields(fields: seq<Entry>, results: map<Id, Result>, inputs: map<string, Value>)
    : Resolution<seq<Entry>>
    decreases fields, 1
  {
    if fields == [] then Have([])
    else
      match Resolve(fields[0].value, results, inputs)
      case Unresolved(why) => Unresolved(why)
      case Have(v) =>
        match ResolveFields(fields[1..], results, inputs)
        case Unresolved(why) => Unresolved(why)
        case Have(fs) => Have([Entry(fields[0].key, v)] + fs)
  }

  // ---------- what a reference names ----------

  /** `v` is the value of the first field of that name. */
  ghost predicate IsField(fields: seq<Entry>, name: string, v: Value) {
    exists i :: 0 <= i < |fields| && fields[i].key == name && fields[i].value == v
                && forall j :: 0 <= j < i ==> fields[j].key != name
  }

  lemma FirstFieldOrLater(fields: seq<Entry>, name: string, v: Value)
    requires fields != []
    ensures IsField(fields, name, v) <==>
              if fields[0].key == name then fields[0].value == v else IsField(fields[1..], name, v)
  {
    if IsField(fields, name, v) {
      var i :| 0 <= i < |fields| && fields[i].key == name && fields[i].value == v
               && forall j :: 0 <= j < i ==> fields[j].key != name;
      if i > 0 {
        assert fields[1..][i - 1] == fields[i];
        assert forall j :: 0 <= j < i - 1 ==> fields[1..][j] == fields[j + 1];
      }
    }
    if fields[0].key != name && IsField(fields[1..], name, v) {
      var i :| 0 <= i < |fields[1..]| && fields[1..][i].key == name && fields[1..][i].value == v
               && forall j :: 0 <= j < i ==> fields[1..][j].key != name;
      assert fields[i + 1] == fields[1..][i];
      assert forall j :: 0 < j < i + 1 ==> fields[j] == fields[1..][j - 1];
    }
  }

  lemma {:induction false} FieldIsFirst(fields: seq<Entry>, name: string, v: Value)
    ensures Field(fields, name) == Some(v) <==> IsField(fields, name, v)
    ensures Field(fields, name).None? <==> forall j :: 0 <= j < |fields| ==> fields[j].key != name
  {
    if fields != [] {
      FieldIsFirst(fields[1..], name, v);
      FirstFieldOrLater(fields, name, v);
      assert forall j :: 0 < j < |fields| ==> fields[j] == fields[1..][j - 1];
      assert forall j :: 0 <= j < |fields[1..]| ==> fields[1..][j] == fields[j + 1];
    }
  }

  /** A walk one name longer. */
  lemma {:induction false} WalkFurther(current: Value, path: seq<string>, name: string, ref: Value, ref': Value)
    ensures match Walk(current, path, ref)
            case Have(Dict(fields)) =>
              && (forall v :: Walk(current, path + [name], ref') == Have(v) <==> IsField(fields, name, v))
              && ((forall j :: 0 <= j < |fields| ==> fields[j].key != name) ==>
                    Walk(current, path + [name], ref') == Unresolved(NoField(ref', name)))
            case Have(_) => Walk(current, path + [name], ref') == Unresolved(NoField(ref', name))
            case Unresolved(_) => Walk(current, path + [name], ref').Unresolved?
    decreases |path|
  {
    if path == [] {
      assert ([] + [name])[1..] == [];
      if current.Dict? {
        forall v ensures Walk(current, [] + [name], ref') == Have(v) <==> IsField(current.fields, name, v) {
          FieldIsFirst(current.fields, name, v);
        }
        FieldIsFirst(current.fields, name, current);
      }
      assert path + [name] == [] + [name];
    } else {
      assert (path + [name])[1..] == path[1..] + [name];
      if current.Dict? && Field(current.fields, path[0]).Some? {
        WalkFurther(Field(current.fields, path[0]).value, path[1..], name, ref, ref');
      }
    }
  }

  /** A reference with no path is what the step handed over; an input's first name is the input; one to the element
      of a map is never had. */
  lemma FetchStartsAt(id: Id, name: string, path: seq<string>, results: map<Id, Result>, inputs: map<string, Value>)
    ensures Fetch(Ref(FromStep(id), []), results, inputs) ==
              if id in results && results[id].Ok? then
                Have(if Falsy(results[id].data) then Dict([]) else results[id].data)
              else Unresolved(NoSuccessfulResult(Ref(FromStep(id), [])))
    ensures Fetch(Ref(FromInput, [name]), results, inputs) ==
              if name in inputs then Have(inputs[name]) else Unresolved(NoSuchInput(Ref(FromInput, [name])))
    ensures Fetch(Ref(FromInput, []), results, inputs) == Unresolved(NoSuchInput(Ref(FromInput, [])))
    ensures Fetch(Ref(FromItem, path), results, inputs) == Unresolved(ItemOutsideMap(Ref(FromItem, path)))
  {
  }

  /** A list or an object is handed over as it is, an empty list as an empty object. */
  lemma NothingIsAnEmptyObject(id: Id, results: map<Id, Result>)
    requires id in results && results[id].Ok?
    ensures results[id].data.List? ==>
              Handed(results, id) == Some(if results[id].data.items == [] then Dict([]) else results[id].data)
    ensures results[id].data.Dict? ==> Handed(results, id) == Some(results[id].data)
    ensures results[id].data.Literal? && results[id].data.text in {"true", "1", "\"text\""} ==>
              Handed(results, id) == Some(results[id].data)
    ensures results[id].data.Literal? && results[id].data.text in {"null", "false", "0", "\"\""} ==>
              Handed(results, id) == Some(Dict([]))
  {
  }

  /** One name further, a reference is had exactly when it names a field of the object the shorter one is, and it
      is that field's value; where the shorter one is had and has no such field, that is why. */
  lemma FetchGoesOn(head: Head, path: seq<string>, name: string, results: map<Id, Result>, inputs: map<string, Value>)
    requires head.FromStep? || (head.FromInput? && path != [])
    ensures var longer := Fetch(Ref(head, path + [name]), results, inputs);
            match Fetch(Ref(head, path), results, inputs)
            case Have(Dict(fields)) =>
              && (forall v :: longer == Have(v) <==> IsField(fields, name, v))
              && ((forall j :: 0 <= j < |fields| ==> fields[j].key != name) ==>
                    longer == Unresolved(NoField(Ref(head, path + [name]), name)))
            case Have(_) => longer == Unresolved(NoField(Ref(head, path + [name]), name))
            case Unresolved(_) => longer.Unresolved?
  {
    var ref, ref' := Ref(head, path), Ref(head, path + [name]);
    match head
    case FromStep(id) =>
      if Handed(results, id).Some? { WalkFurther(Handed(results, id).value, path, name, ref, ref'); }
    case FromInput =>
      assert (path + [name])[1..] == path[1..] + [name];
      if path[0] in inputs { WalkFurther(inputs[path[0]], path[1..], name, ref, ref'); }
  }

  // ---------- what resolving leaves as it was ----------

  lemma {:induction false} ItemsResolveEach(items: seq<Value>, results: map<Id, Result>, inputs: map<string, Value>,
                                            vs: seq<Value>)
    ensures ResolveItems(items, results, inputs) == Have(vs) <==>
              |vs| == |items| && forall i :: 0 <= i < |items| ==> Resolve(items[i], results, inputs) == Have(vs[i])
    decreases |items|
  {
    if items != [] {
      if vs != [] { ItemsResolveEach(items[1..], results, inputs, vs[1..]); }
      if ResolveItems(items[1..], results, inputs).Have? {
        ItemsResolveEach(items[1..], results, inputs, ResolveItems(items[1..], results, inputs).value);
      }
      assert forall i :: 0 <= i < |items[1..]| ==> items[1..][i] == items[i + 1];
      assert vs != [] ==> vs == [vs[0]] + vs[1..];
    }
  }

  lemma {:induction false} FieldsResolveEach(fields: seq<Entry>, results: map<Id, Result>, inputs: map<string, Value>,
                                             fs: seq<Entry>)
    ensures ResolveFields(fields, results, inputs) == Have(fs) <==>
              |fs| == |fields| && forall i :: 0 <= i < |fields| ==>
                fs[i].key == fields[i].key && Resolve(fields[i].value, results, inputs) == Have(fs[i].value)
    decreases |fields|
  {
    if fields != [] {
      if fs != [] { FieldsResolveEach(fields[1..], results, inputs, fs[1..]); }
      if ResolveFields(fields[1..], results, inputs).Have? {
        FieldsResolveEach(fields[1..], results, inputs, ResolveFields(fields[1..], results, inputs).value);
      }
      assert forall i :: 0 <= i < |fields[1..]| ==> fields[1..][i] == fields[i + 1];
      assert fs != [] ==> fs == [fs[0]] + fs[1..];
    }
  }

  /** A list resolves to a list as long, an object to one with the same keys in the same order, each element to what
      it resolves to by itself; a literal to itself. */
  lemma ResolvingKeepsTheShape(v: Value, r: Value, results: map<Id, Result>, inputs: map<string, Value>)
    requires !v.Ref?
    ensures Resolve(v, results, inputs) == Have(r) <==>
              match v
              case Literal(_) => r == v
              case List(items) =>
                r.List? && |r.items| == |items|
                && forall i :: 0 <= i < |items| ==> Resolve(items[i], results, inputs) == Have(r.items[i])
              case Dict(fields) =>
                r.Dict? && |r.fields| == |fields|
                && forall i :: 0 <= i < |fields| ==>
                     r.fields[i].key == fields[i].key && Resolve(fields[i].value, results, inputs) == Have(r.fields[i].value)
  {
    if v.List? && r.List? { ItemsResolveEach(v.items, results, inputs, r.items); }
    if v.Dict? && r.Dict? { FieldsResolveEach(v.fields, results, inputs, r.fields); }
  }

  /** Two sets of results a list of references cannot tell apart. */
  ghost predicate SameFor(refs: seq<Value>, a: map<Id, Result>, b: map<Id, Result>) {
    forall r :: r in refs && r.Ref? && r.head.FromStep? ==> Handed(a, r.head.id) == Handed(b, r.head.id)
  }

  /** Resolution reads nothing but the successful results of the steps the value references: not
      whether another step failed or has yet to run. */
  lemma {:induction false} ResolveReadsOnlyItsReferences(
      v: Value, a: map<Id, Result>, b: map<Id, Result>, inputs: map<string, Value>)
    requires SameFor(RefsIn(v), a, b)
    ensures Resolve(v, a, inputs) == Resolve(v, b, inputs)
    decreases v, 0
  {
    match v
    case Literal(_) =>
    case Ref(_, _) => assert v in RefsIn(v);
    case List(items) => ResolveItemsReadsOnly(items, a, b, inputs);
    case Dict(fields) => ResolveFieldsReadsOnly(fields, a, b, inputs);
  }

  lemma {:induction false} ResolveItemsReadsOnly(
      items: seq<Value>, a: map<Id, Result>, b: map<Id, Result>, inputs: map<string, Value>)
    requires SameFor(RefsInItems(items), a, b)
    ensures ResolveItems(items, a, inputs) == ResolveItems(items, b, inputs)
    decreases items, 1
  {
    if items != [] {
      assert forall r :: r in RefsIn(items[0]) ==> r in RefsInItems(items);
      ResolveReadsOnlyItsReferences(items[0], a, b, inputs);
      assert forall r :: r in RefsInItems(items[1..]) ==> r in RefsInItems(items);
      ResolveItemsReadsOnly(items[1..], a, b, inputs);
    }
  }

  lemma {:induction false} ResolveFieldsReadsOnly(
      fields: seq<Entry>, a: map<Id, Result>, b: map<Id, Result>, inputs: map<string, Value>)
    requires SameFor(RefsInFields(fields), a, b)
    ensures ResolveFields(fields, a, inputs) == ResolveFields(fields, b, inputs)
    decreases fields, 1
  {
    if fields != [] {
      assert forall r :: r in RefsIn(fields[0].value) ==> r in RefsInFields(fields);
      ResolveReadsOnlyItsReferences(fields[0].value, a, b, inputs);
      assert forall r :: r in RefsInFields(fields[1..]) ==> r in RefsInFields(fields);
      ResolveFieldsReadsOnly(fields[1..], a, b, inputs);
    }
  }

  ghost predicate EveryRefFetches(refs: seq<Value>, results: map<Id, Result>, inputs: map<string, Value>) {
    forall r :: r in refs && r.Ref? ==> Fetch(r, results, inputs).Have?
  }

  /** `why` is what the first reference that names nothing was refused for. */
  ghost predicate FirstRefused(refs: seq<Value>, why: Reason, results: map<Id, Result>, inputs: map<string, Value>) {
    exists k :: 0 <= k < |refs| && refs[k].Ref? && Fetch(refs[k], results, inputs) == Unresolved(why)
                && EveryRefFetches(refs[..k], results, inputs)
  }

  lemma FirstOfTwo(a: seq<Value>, b: seq<Value>, why: Reason, results: map<Id, Result>, inputs: map<string, Value>)
    ensures FirstRefused(a, why, results, inputs) ==> FirstRefused(a + b, why, results, inputs)
    ensures EveryRefFetches(a, results, inputs) && FirstRefused(b, why, results, inputs) ==>
              FirstRefused(a + b, why, results, inputs)
  {
    if FirstRefused(a, why, results, inputs) {
      var k :| 0 <= k < |a| && a[k].Ref? && Fetch(a[k], results, inputs) == Unresolved(why)
               && EveryRefFetches(a[..k], results, inputs);
      assert (a + b)[k] == a[k] && (a + b)[..k] == a[..k];
    }
    if EveryRefFetches(a, results, inputs) && FirstRefused(b, why, results, inputs) {
      var k :| 0 <= k < |b| && b[k].Ref? && Fetch(b[k], results, inputs) == Unresolved(why)
               && EveryRefFetches(b[..k], results, inputs);
      assert (a + b)[|a| + k] == b[k] && (a + b)[..|a| + k] == a + b[..k];
    }
  }

  /** Where a value does not resolve, the first of its references that names nothing says why. */
  lemma {:induction false} TheFirstReferenceSaysWhy(v: Value, results: map<Id, Result>, inputs: map<string, Value>)
    ensures var r := Resolve(v, results, inputs); r.Unresolved? ==> FirstRefused(RefsIn(v), r.why, results, inputs)
    decreases v, 0
  {
    match v
    case Literal(_) =>
    case Ref(_, _) => assert RefsIn(v)[0] == v && RefsIn(v)[..0] == [];
    case List(items) => TheFirstItemSaysWhy(items, results, inputs);
    case Dict(fields) => TheFirstFieldSaysWhy(fields, results, inputs);
  }

  lemma {:induction false} TheFirstItemSaysWhy(items: seq<Value>, results: map<Id, Result>, inputs: map<string, Value>)
    ensures var r := ResolveItems(items, results, inputs);
            r.Unresolved? ==> FirstRefused(RefsInItems(items), r.why, results, inputs)
    decreases items, 1
  {
    if items != [] && ResolveItems(items, results, inputs).Unresolved? {
      var why := ResolveItems(items, results, inputs).why;
      TheFirstReferenceSaysWhy(items[0], results, inputs);
      ResolvesExactlyWhenItsReferencesDo(items[0], results, inputs);
      TheFirstItemSaysWhy(items[1..], results, inputs);
      FirstOfTwo(RefsIn(items[0]), RefsInItems(items[1..]), why, results, inputs);
    }
  }

  lemma {:induction false} TheFirstFieldSaysWhy(fields: seq<Entry>, results: map<Id, Result>, inputs: map<string, Value>)
    ensures var r := ResolveFields(fields, results, inputs);
            r.Unresolved? ==> FirstRefused(RefsInFields(fields), r.why, results, inputs)
    decreases fields, 1
  {
    if fields != [] && ResolveFields(fields, results, inputs).Unresolved? {
      var why := ResolveFields(fields, results, inputs).why;
      TheFirstReferenceSaysWhy(fields[0].value, results, inputs);
      ResolvesExactlyWhenItsReferencesDo(fields[0].value, results, inputs);
      TheFirstFieldSaysWhy(fields[1..], results, inputs);
      FirstOfTwo(RefsIn(fields[0].value), RefsInFields(fields[1..]), why, results, inputs);
    }
  }

  /** A value resolves exactly when each reference in it, at any depth, names something the run has;
      and a value with no reference is returned as it is. */
  lemma {:induction false} ResolvesExactlyWhenItsReferencesDo(
      v: Value, results: map<Id, Result>, inputs: map<string, Value>)
    ensures Resolve(v, results, inputs).Have? <==> EveryRefFetches(RefsIn(v), results, inputs)
    ensures RefsIn(v) == [] ==> Resolve(v, results, inputs) == Have(v)
    decreases v, 0
  {
    match v
    case Literal(_) =>
    case Ref(_, _) => assert v in RefsIn(v);
    case List(items) => ItemsResolveExactly(items, results, inputs);
    case Dict(fields) => FieldsResolveExactly(fields, results, inputs);
  }

  lemma {:induction false} ItemsResolveExactly(
      items: seq<Value>, results: map<Id, Result>, inputs: map<string, Value>)
    ensures ResolveItems(items, results, inputs).Have? <==> EveryRefFetches(RefsInItems(items), results, inputs)
    ensures RefsInItems(items) == [] ==> ResolveItems(items, results, inputs) == Have(items)
    decreases items, 1
  {
    if items != [] {
      ResolvesExactlyWhenItsReferencesDo(items[0], results, inputs);
      ItemsResolveExactly(items[1..], results, inputs);
      assert items == [items[0]] + items[1..];
    }
  }

  lemma {:induction false} FieldsResolveExactly(
      fields: seq<Entry>, results: map<Id, Result>, inputs: map<string, Value>)
    ensures ResolveFields(fields, results, inputs).Have? <==> EveryRefFetches(RefsInFields(fields), results, inputs)
    ensures RefsInFields(fields) == [] ==> ResolveFields(fields, results, inputs) == Have(fields)
    decreases fields, 1
  {
    if fields != [] {
      ResolvesExactlyWhenItsReferencesDo(fields[0].value, results, inputs);
      FieldsResolveExactly(fields[1..], results, inputs);
      assert fields == [fields[0]] + fields[1..];
    }
  }
}
