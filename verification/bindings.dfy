/** Bindings, primitive values and shared objects, as the value-versus-reference
    section of javascript/module2/data_types_and_constants.js describes them.

    A binding holds a `Value`. A primitive is held by value. An object or array
    is held through a handle, which is an index into the store's heap. Copying a
    binding copies its `Value`. For a primitive that is an independent copy. For
    an object it is the handle, so both names then reach one heap cell. */
module Bindings {
  import opened Results

  /** A JavaScript value as a binding holds it. Numbers are integers here. */
  datatype Value =
    | Undefined
    | Null
    | Num(n: int)
    | Str(s: string)
    | Bool(b: bool)
    | Ref(handle: nat)
  {
    predicate IsPrimitive() {
      !Ref?
    }
  }

  /** The dynamic type of a value. It belongs to the value, not to the binding. */
  datatype Kind = UndefinedKind | NullKind | NumberKind | StringKind | BooleanKind | ObjectKind

  function KindOf(v: Value): (k: Kind)
    ensures k == ObjectKind <==> !v.IsPrimitive()
    ensures k == NumberKind <==> v.Num?
    ensures k == BooleanKind <==> v.Bool?
    ensures k == UndefinedKind <==> v == Undefined
  {
    match v
    case Undefined => UndefinedKind
    case Null => NullKind
    case Num(_) => NumberKind
    case Str(_) => StringKind
    case Bool(_) => BooleanKind
    case Ref(_) => ObjectKind
  }

  /** A mutable aggregate: a record with named fields, or an array. */
  datatype Aggregate = Record(fields: map<string, Value>) | Array(elems: seq<Value>)

  /** The names in scope and the heap of aggregates their handles point into. */
  datatype Store = Store(env: map<string, Value>, heap: seq<Aggregate>)

  const EmptyStore := Store(map[], [])

  /** `v` is a primitive or a handle below `n`. */
  predicate ValueBelow(v: Value, n: nat) {
    v.Ref? ==> v.handle < n
  }

  predicate AggregateBelow(a: Aggregate, n: nat) {
    match a
    case Record(fields) => forall k :: k in fields ==> ValueBelow(fields[k], n)
    case Array(elems) => forall i :: 0 <= i < |elems| ==> ValueBelow(elems[i], n)
  }

  /** Every handle, held by a binding or stored inside an aggregate, designates a heap cell. */
  predicate Valid(st: Store) {
    && (forall name :: name in st.env ==> ValueBelow(st.env[name], |st.heap|))
    && (forall h :: 0 <= h < |st.heap| ==> AggregateBelow(st.heap[h], |st.heap|))
  }

  /** Reading a name: the value it holds, or UnboundName if it was never declared. */
  function Read(st: Store, name: string): Result<Value> {
    if name in st.env then Ok(st.env[name]) else Err(UnboundName(name))
  }

  /** `let name = v;` — a new binding holding `v` itself: a primitive is copied,
      a handle is shared. No other binding and no aggregate changes. */
  function Declare(st: Store, name: string, v: Value): (r: Store)
    requires Valid(st) && ValueBelow(v, |st.heap|)
    ensures Valid(r)
    ensures r.heap == st.heap
    ensures Read(r, name) == Ok(v)
    ensures forall other :: other != name ==> Read(r, other) == Read(st, other)
  {
    st.(env := st.env[name := v])
  }

  /** `var name;` — a fresh binding declared without a value reads as undefined;
      redeclaring a name that is already bound keeps the value it holds. */
  function DeclareUnassigned(st: Store, name: string): (r: Store)
    requires Valid(st)
    ensures Valid(r)
    ensures r.heap == st.heap
    ensures name !in st.env ==> Read(r, name) == Ok(Undefined)
    ensures name in st.env ==> Read(r, name) == Read(st, name)
    ensures Read(r, name).Ok?
    ensures forall other :: other != name ==> Read(r, other) == Read(st, other)
  {
    if name in st.env then st else Declare(st, name, Undefined)
  }

  /** `name = v;` on an existing binding. Only that binding changes: the
      aggregate it used to reach is untouched, and so is every other name. */
  function Assign(st: Store, name: string, v: Value): (r: Result<Store>)
    requires Valid(st) && ValueBelow(v, |st.heap|)
    ensures name !in st.env ==> r == Err(UnboundName(name))
    ensures name in st.env ==> r.Ok? && Valid(r.value) && r.value.heap == st.heap
    ensures r.Ok? ==> Read(r.value, name) == Ok(v)
    ensures r.Ok? ==> forall other :: other != name ==> Read(r.value, other) == Read(st, other)
  {
    if name !in st.env then Err(UnboundName(name))
    else Ok(st.(env := st.env[name := v]))
  }

  /** `let dst = src;` — the new name receives what `src` holds: a copy of a
      primitive or the same handle, so that the two names are strictly equal. */
  function CopyBinding(st: Store, dst: string, src: string): (r: Result<Store>)
    requires Valid(st)
    ensures src !in st.env ==> r == Err(UnboundName(src))
    ensures src in st.env ==> r.Ok? && Valid(r.value) && r.value.heap == st.heap
    ensures r.Ok? ==> Read(r.value, dst) == Read(st, src)
    ensures r.Ok? ==> src in r.value.env && dst in r.value.env && StrictEquals(r.value.env[dst], r.value.env[src])
    ensures r.Ok? ==> forall other :: other != dst ==> Read(r.value, other) == Read(st, other)
  {
    var v :- Read(st, src);
    Ok(Declare(st, dst, v))
  }

  /** JavaScript's `===` on the modelled values: primitives compare by value,
      objects by identity (the handle), and a primitive never equals an object. */
  function StrictEquals(a: Value, b: Value): (r: bool)
    ensures a.Ref? && b.Ref? ==> (r <==> a.handle == b.handle)
    ensures a.IsPrimitive() != b.IsPrimitive() ==> !r
    ensures a.IsPrimitive() && b.IsPrimitive() ==> (r <==> a == b)
  {
    a == b
  }

  /** An object or array literal: a fresh heap cell that no binding reaches yet. */
  function Alloc(st: Store, agg: Aggregate): (r: (Store, Value))
    requires Valid(st) && AggregateBelow(agg, |st.heap|)
    ensures Valid(r.0)
    ensures r.0.env == st.env
    ensures r.1 == Ref(|st.heap|)
    ensures r.0.heap == st.heap + [agg]
    ensures forall name :: name in st.env ==> !StrictEquals(st.env[name], r.1)
  {
    (Store(st.env, st.heap + [agg]), Ref(|st.heap|))
  }

  /** The aggregate a value designates; a primitive designates none. */
  function Deref(st: Store, target: Value): Result<Aggregate>
    requires ValueBelow(target, |st.heap|)
  {
    if target.Ref? then Ok(st.heap[target.handle]) else Err(NotAnObject)
  }

  /** `target.key` on a record: the field's value, undefined for a missing field.
      Named fields of arrays and primitives are outside the model, which refuses
      them instead of reading undefined as JavaScript does. */
  function GetField(st: Store, target: Value, key: string): (r: Result<Value>)
    requires ValueBelow(target, |st.heap|)
    ensures target.IsPrimitive() ==> r == Err(NotAnObject)
    ensures target.Ref? && st.heap[target.handle].Array? ==> r == Err(WrongKind)
    ensures target.Ref? && st.heap[target.handle].Record? ==>
      r == Ok(if key in st.heap[target.handle].fields then st.heap[target.handle].fields[key] else Undefined)
  {
    var agg :- Deref(st, target);
    match agg
    case Record(fields) => Ok(if key in fields then fields[key] else Undefined)
    case Array(_) => Err(WrongKind)
  }

  /** `target.key = v;` on a record. The write lands in the heap cell, so every
      name holding the same handle observes it; bindings are untouched. Writes
      to a named field of an array or of a primitive are outside the model and
      refused. */
  function SetField(st: Store, target: Value, key: string, v: Value): (r: Result<Store>)
    requires Valid(st) && ValueBelow(target, |st.heap|) && ValueBelow(v, |st.heap|)
    ensures target.IsPrimitive() ==> r == Err(NotAnObject)
    ensures target.Ref? && st.heap[target.handle].Array? ==> r == Err(WrongKind)
    ensures target.Ref? && st.heap[target.handle].Record? ==> r.Ok?
    ensures r.Ok? ==> && Valid(r.value)
                      && r.value.env == st.env
                      && |r.value.heap| == |st.heap|
                      && r.value.heap[target.handle] == Record(st.heap[target.handle].fields[key := v])
                      && forall h :: 0 <= h < |st.heap| && h != target.handle ==> r.value.heap[h] == st.heap[h]
  {
    var agg :- Deref(st, target);
    match agg
    case Record(fields) => Ok(st.(heap := st.heap[target.handle := Record(fields[key := v])]))
    case Array(_) => Err(WrongKind)
  }

  /** `target.push(v1, ..., vn)`: appends the arguments in order, in place, and
      yields the new length. Pushing onto a record is an error and changes nothing. */
  function Push(st: Store, target: Value, vs: seq<Value>): (r: Result<(Store, nat)>)
    requires Valid(st) && ValueBelow(target, |st.heap|)
    requires forall i :: 0 <= i < |vs| ==> ValueBelow(vs[i], |st.heap|)
    ensures target.IsPrimitive() ==> r == Err(NotAnObject)
    ensures target.Ref? && st.heap[target.handle].Record? ==> r == Err(WrongKind)
    ensures target.Ref? && st.heap[target.handle].Array? ==> r.Ok?
    ensures r.Ok? ==> var (st', len) := r.value;
                      && Valid(st')
                      && st'.env == st.env
                      && |st'.heap| == |st.heap|
                      && st.heap[target.handle].Array?
                      && st'.heap[target.handle] == Array(st.heap[target.handle].elems + vs)
                      && len == |st.heap[target.handle].elems| + |vs|
                      && forall h :: 0 <= h < |st.heap| && h != target.handle ==> st'.heap[h] == st.heap[h]
  {
    var agg :- Deref(st, target);
    match agg
    case Array(elems) => Ok((st.(heap := st.heap[target.handle := Array(elems + vs)]), |elems| + |vs|))
    case Record(_) => Err(WrongKind)
  }

  /** What reading a name shows: a primitive itself, or the current contents of
      the aggregate its handle designates. */
  datatype View = PrimitiveView(v: Value) | RecordView(fields: map<string, Value>) | ArrayView(elems: seq<Value>)

  function ViewOf(st: Store, name: string): Result<View>
    requires Valid(st)
  {
    var v :- Read(st, name);
    if v.IsPrimitive() then Ok(PrimitiveView(v))
    else match st.heap[v.handle]
      case Record(f) => Ok(RecordView(f))
      case Array(e) => Ok(ArrayView(e))
  }

  /** Two names alias one aggregate when they hold the same handle. */
  predicate Aliased(st: Store, a: string, b: string) {
    a in st.env && b in st.env && st.env[a].Ref? && st.env[a] == st.env[b]
  }

  // ---------------------------------------------------------------------------
  // Copy versus share
  // ---------------------------------------------------------------------------

  /** After `let b = a;` and a later `a = later;`, `b` still holds what `a` held
      before: rebinding one name never reaches another. */
  lemma CopyThenRebindKeepsCopy(st: Store, a: string, b: string, later: Value)
    requires Valid(st) && a in st.env && a != b && ValueBelow(later, |st.heap|)
    ensures var st1 := CopyBinding(st, b, a).value;
            var st2 := Assign(st1, a, later).value;
            && Read(st2, b) == Ok(st.env[a])
            && Read(st2, a) == Ok(later)
            && st2.heap == st.heap
  {
  }

  /** A name holding a primitive shows the same thing after any field write:
      there is no aggregate behind it for the write to reach. */
  lemma FieldWriteNeverReachesPrimitive(st: Store, b: string, target: Value, key: string, v: Value)
    requires Valid(st) && ValueBelow(target, |st.heap|) && ValueBelow(v, |st.heap|)
    requires b in st.env && st.env[b].IsPrimitive()
    requires SetField(st, target, key, v).Ok?
    ensures ViewOf(SetField(st, target, key, v).value, b) == ViewOf(st, b)
  {
  }

  /** A name holding a primitive shows the same thing after any push. */
  lemma PushNeverReachesPrimitive(st: Store, b: string, target: Value, vs: seq<Value>)
    requires Valid(st) && ValueBelow(target, |st.heap|)
    requires forall i :: 0 <= i < |vs| ==> ValueBelow(vs[i], |st.heap|)
    requires b in st.env && st.env[b].IsPrimitive()
    requires Push(st, target, vs).Ok?
    ensures ViewOf(Push(st, target, vs).value.0, b) == ViewOf(st, b)
  {
  }

  /** A field write through one alias is observed, with the new value, through
      every other alias of the same object. */
  lemma FieldWriteVisibleThroughAlias(st: Store, a: string, b: string, key: string, v: Value)
    requires Valid(st) && Aliased(st, a, b) && ValueBelow(v, |st.heap|)
    requires st.heap[st.env[a].handle].Record?
    ensures SetField(st, st.env[a], key, v).Ok?
    ensures var st' := SetField(st, st.env[a], key, v).value;
            && ViewOf(st', b) == ViewOf(st', a)
            && ViewOf(st', b) == Ok(RecordView(st.heap[st.env[a].handle].fields[key := v]))
            && GetField(st', st'.env[b], key) == Ok(v)
  {
  }

  /** A push through one alias is observed through every other alias: the
      shared array grows by exactly the pushed elements. */
  lemma PushVisibleThroughAlias(st: Store, a: string, b: string, vs: seq<Value>)
    requires Valid(st) && Aliased(st, a, b)
    requires forall i :: 0 <= i < |vs| ==> ValueBelow(vs[i], |st.heap|)
    requires st.heap[st.env[a].handle].Array?
    ensures Push(st, st.env[a], vs).Ok?
    ensures var st' := Push(st, st.env[a], vs).value.0;
            && ViewOf(st', b) == ViewOf(st', a)
            && ViewOf(st', b) == Ok(ArrayView(st.heap[st.env[a].handle].elems + vs))
  {
  }

  /** Rebinding one alias to something else does not alter the shared object,
      and the other alias keeps showing it. */
  lemma RebindLeavesOtherAlias(st: Store, a: string, b: string, v: Value)
    requires Valid(st) && Aliased(st, a, b) && a != b && ValueBelow(v, |st.heap|)
    ensures var st' := Assign(st, a, v).value;
            && st'.heap == st.heap
            && Read(st', b) == Read(st, b)
            && ViewOf(st', b) == ViewOf(st, b)
  {
  }

  // ---------------------------------------------------------------------------
  // The script's own steps, with its constants
  // ---------------------------------------------------------------------------

  /** `var x;` then `let y = 10;` then `y = true;`: x reads undefined and y's
      dynamic type moves from number to boolean. */
  method RetypingScenario() returns (x: Value, kindBefore: Kind, kindAfter: Kind)
    ensures x == Undefined
    ensures kindBefore == NumberKind && kindAfter == BooleanKind
  {
    var st := DeclareUnassigned(EmptyStore, "x");
    x := Read(st, "x").value;
    st := Declare(st, "y", Num(10));
    kindBefore := KindOf(Read(st, "y").value);
    var r := Assign(st, "y", Bool(true));
    st := r.value;
    kindAfter := KindOf(Read(st, "y").value);
  }

  /** `let a1 = "var a1"; let a2 = a1; a1 = "var a1 modified";` */
  method PrimitiveAssignmentScenario() returns (a1: Value, a2: Value)
    ensures a1 == Str("var a1 modified")
    ensures a2 == Str("var a1")
  {
    var st := Declare(EmptyStore, "a1", Str("var a1"));
    st := CopyBinding(st, "a2", "a1").value;
    st := Assign(st, "a1", Str("var a1 modified")).value;
    a1 := Read(st, "a1").value;
    a2 := Read(st, "a2").value;
  }

  /** `let obj1 = { sensor: "lidar", range_m: 10 }; let obj2 = obj1;
      obj1.range_m = 25;` */
  method ReferenceAssignmentScenario() returns (same: bool, range1: Value, range2: Value)
    ensures same
    ensures range1 == Num(25) && range2 == Num(25)
  {
    var (st, obj) := Alloc(EmptyStore, Record(map["sensor" := Str("lidar"), "range_m" := Num(10)]));
    st := Declare(st, "obj1", obj);
    st := CopyBinding(st, "obj2", "obj1").value;
    same := StrictEquals(st.env["obj1"], st.env["obj2"]);
    FieldWriteVisibleThroughAlias(st, "obj1", "obj2", "range_m", Num(25));
    st := SetField(st, st.env["obj1"], "range_m", Num(25)).value;
    range1 := GetField(st, st.env["obj1"], "range_m").value;
    range2 := GetField(st, st.env["obj2"], "range_m").value;
  }
}
