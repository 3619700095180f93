/** When two sets of bindings expose the same affordances and triggers. */
module BindingShapes {
  import opened JsonText
  import opened StableKey
  import opened TextOrder
  import opened Collections

  /** A binding of a virtual Thing; an absent trigger is undefined or null. */
  datatype Binding = Binding(affordanceType: Text, affordanceName: Text, kind: Text, trigger: Value)

  ghost predicate ValidBinding(b: Binding) { WellFormed(b.trigger) }

  function TriggerOrNull(v: Value): Value {
    if v.Undefined? then Null else v
  }

  /** The JSON tree that `JSON.stringify` writes: an undefined member is dropped, and an
      undefined item and an out-of-range number are null. */
  function Json(v: Value): Value
    decreases v
  {
    match v
    case Undefined => Null
    case NonFinite => Null
    case Array(items) => Array(seq(|items|, i requires 0 <= i < |items| => Json(items[i])))
    case Object(ms) => Object(JsonMembers(ms))
    case _ => v
  }

  function JsonMembers(ms: seq<Member>): seq<Member>
    decreases ms
  {
    if ms == [] then []
    else
      var m, rest := ms[0], JsonMembers(ms[1..]);
      if m.value.Undefined? then rest else [Member(m.key, Json(m.value))] + rest
  }

  function BindingTuple(b: Binding): Value {
    Array([String(b.affordanceType), String(b.affordanceName), String(b.kind), TriggerOrNull(b.trigger)])
  }

  /** The printed shape of a binding. */
  function BindingShapeKey(b: Binding): Text {
    Print(Json(BindingTuple(b)))
  }

  function KeysOfBindings(bs: seq<Binding>): (r: seq<Text>)
    ensures |r| == |bs| && forall i :: 0 <= i < |bs| ==> r[i] == BindingShapeKey(bs[i])
  {
    seq(|bs|, i requires 0 <= i < |bs| => BindingShapeKey(bs[i]))
  }

  predicate BindingsShapeEqual(a: seq<Binding>, b: seq<Binding>) {
    && |a| == |b|
    && var left, right := SortTexts(KeysOfBindings(a)), SortTexts(KeysOfBindings(b));
       forall i :: 0 <= i < |left| ==> i < |right| && left[i] == right[i]
  }

  // ---------------------------------------------------------------- JSON trees

  /** No part is undefined or out of range. */
  ghost predicate IsJson(v: Value) {
    match v
    case Undefined => false
    case NonFinite => false
    case Array(items) => forall i :: 0 <= i < |items| ==> IsJson(items[i])
    case Object(ms) => forall i :: 0 <= i < |ms| ==> IsJson(ms[i].value)
    case _ => true
  }

  lemma {:induction false} JsonIsJson(v: Value)
    requires WellFormed(v)
    ensures WellFormed(Json(v)) && IsJson(Json(v)) && (IsJson(v) ==> Json(v) == v)
    decreases v, 1
  {
    match v
    case Array(items) =>
      forall i | 0 <= i < |items| { JsonIsJson(items[i]); }
      if IsJson(v) { assert Json(v).items == items; }
    case Object(ms) => JsonMembersAreJson(ms);
    case _ =>
  }

  lemma {:induction false} JsonKey(ms: seq<Member>, j: nat)
    requires j < |JsonMembers(ms)|
    ensures exists i :: 0 <= i < |ms| && ms[i].key == JsonMembers(ms)[j].key
  {
    if ms[0].value.Undefined? || j > 0 {
      var k := if ms[0].value.Undefined? then j else j - 1;
      JsonKey(ms[1..], k);
      var i :| 0 <= i < |ms[1..]| && ms[1..][i].key == JsonMembers(ms[1..])[k].key;
      assert ms[i + 1].key == JsonMembers(ms)[j].key;
    }
  }

  lemma JsonKeysDistinct(ms: seq<Member>)
    requires ms != [] && DistinctKeys(ms) && DistinctKeys(JsonMembers(ms[1..]))
    ensures DistinctKeys(JsonMembers(ms))
  {
    var js := JsonMembers(ms[1..]);
    forall j | 0 <= j < |js| ensures js[j].key != ms[0].key {
      JsonKey(ms[1..], j);
    }
  }

  lemma {:induction false} JsonMembersAreJson(ms: seq<Member>)
    requires DistinctKeys(ms) && forall i :: 0 <= i < |ms| ==> WellFormed(ms[i].value)
    ensures var js := JsonMembers(ms);
      && DistinctKeys(js) && (forall i :: 0 <= i < |js| ==> WellFormed(js[i].value) && IsJson(js[i].value))
      && ((forall i :: 0 <= i < |ms| ==> IsJson(ms[i].value)) ==> js == ms)
    decreases ms, 0
  {
    if ms != [] {
      JsonMembersAreJson(ms[1..]);
      JsonKeysDistinct(ms);
      if !ms[0].value.Undefined? {
        assert ms[0].value < ms[0];
        JsonIsJson(ms[0].value);
      }
    }
  }

  lemma {:induction false} JsonIsClean(v: Value)
    requires IsJson(v)
    ensures Clean(v)
    decreases v
  {
    match v
    case Array(items) =>
      assert items == [Undefined] ==> !IsJson(items[0]);
      forall i | 0 <= i < |items| { JsonIsClean(items[i]); }
    case Object(ms) =>
      forall i | 0 <= i < |ms| { JsonIsClean(ms[i].value); }
    case _ =>
  }

  // ------------------------------------------------------------------------ shapes

  /** What a binding exposes: its affordance, its kind and its trigger. */
  datatype Shape = Shape(affordanceType: Text, affordanceName: Text, kind: Text, trigger: Value)

  function ShapeOf(b: Binding): Shape {
    Shape(b.affordanceType, b.affordanceName, b.kind, Json(TriggerOrNull(b.trigger)))
  }

  function ShapesOf(bs: seq<Binding>): (r: seq<Shape>)
    ensures |r| == |bs| && forall i :: 0 <= i < |bs| ==> r[i] == ShapeOf(bs[i])
  {
    seq(|bs|, i requires 0 <= i < |bs| => ShapeOf(bs[i]))
  }

  lemma TupleOfShape(b: Binding)
    requires ValidBinding(b)
    ensures WellFormed(Json(BindingTuple(b))) && Clean(Json(BindingTuple(b)))
    ensures var s := ShapeOf(b);
      Json(BindingTuple(b)) == Array([String(s.affordanceType), String(s.affordanceName), String(s.kind), s.trigger])
  {
    var items := BindingTuple(b).items;
    assert forall i :: 0 <= i < 4 ==> WellFormed(items[i]);
    JsonIsJson(BindingTuple(b));
    JsonIsClean(Json(BindingTuple(b)));
    var s := ShapeOf(b);
    assert Json(BindingTuple(b)).items == [String(s.affordanceType), String(s.affordanceName), String(s.kind), s.trigger];
  }

  /** Two bindings have one key exactly when they have one shape. */
  lemma ShapeKeyExact(a: Binding, b: Binding)
    requires ValidBinding(a) && ValidBinding(b)
    ensures BindingShapeKey(a) == BindingShapeKey(b) <==> ShapeOf(a) == ShapeOf(b)
  {
    TupleOfShape(a);
    TupleOfShape(b);
    if BindingShapeKey(a) == BindingShapeKey(b) {
      var x, y := Json(BindingTuple(a)), Json(BindingTuple(b));
      PrintInjective(x, y);
      assert x.items[0] == y.items[0] && x.items[1] == y.items[1] && x.items[2] == y.items[2] && x.items[3] == y.items[3];
    }
  }

  /** The shape keeps a trigger as it is, if it is a JSON tree of numbers in range. */
  lemma ShapeKeepsJson(b: Binding)
    requires ValidBinding(b) && IsJson(b.trigger)
    ensures ShapeOf(b).trigger == b.trigger
  {
    JsonIsJson(b.trigger);
  }

  // ---------------------------------------------------- keys and shapes, with repetition

  /** Counting by key is counting by shape. */
  lemma {:induction false} SameCounts(bs: seq<Binding>, b: Binding)
    requires ValidBinding(b) && forall i :: 0 <= i < |bs| ==> ValidBinding(bs[i])
    ensures multiset(KeysOfBindings(bs))[BindingShapeKey(b)] == multiset(ShapesOf(bs))[ShapeOf(b)]
  {
    if bs == [] {
      assert KeysOfBindings(bs) == [] && ShapesOf(bs) == [];
    } else {
      var n := |bs| - 1;
      SameCounts(bs[..n], b);
      ShapeKeyExact(bs[n], b);
      LastBinding(bs);
    }
  }

  lemma LastBinding(bs: seq<Binding>)
    requires bs != []
    ensures var n := |bs| - 1;
      && KeysOfBindings(bs) == KeysOfBindings(bs[..n]) + [BindingShapeKey(bs[n])]
      && ShapesOf(bs) == ShapesOf(bs[..n]) + [ShapeOf(bs[n])]
  {
  }

  ghost predicate AllValid(bs: seq<Binding>) {
    forall i :: 0 <= i < |bs| ==> ValidBinding(bs[i])
  }

  lemma SameShapesSameKeys(a: seq<Binding>, b: seq<Binding>)
    requires AllValid(a) && AllValid(b) && multiset(ShapesOf(a)) == multiset(ShapesOf(b))
    ensures multiset(KeysOfBindings(a)) == multiset(KeysOfBindings(b))
  {
    forall k ensures multiset(KeysOfBindings(a))[k] == multiset(KeysOfBindings(b))[k] {
      if i :| 0 <= i < |a| && KeysOfBindings(a)[i] == k {
        SameCounts(a, a[i]);
        SameCounts(b, a[i]);
      } else if i :| 0 <= i < |b| && KeysOfBindings(b)[i] == k {
        SameCounts(b, b[i]);
        SameCounts(a, b[i]);
      }
    }
  }

  lemma SameKeysSameShapes(a: seq<Binding>, b: seq<Binding>)
    requires AllValid(a) && AllValid(b) && multiset(KeysOfBindings(a)) == multiset(KeysOfBindings(b))
    ensures multiset(ShapesOf(a)) == multiset(ShapesOf(b))
  {
    forall s ensures multiset(ShapesOf(a))[s] == multiset(ShapesOf(b))[s] {
      if i :| 0 <= i < |a| && ShapesOf(a)[i] == s {
        SameCounts(a, a[i]);
        SameCounts(b, a[i]);
      } else if i :| 0 <= i < |b| && ShapesOf(b)[i] == s {
        SameCounts(b, b[i]);
        SameCounts(a, b[i]);
      }
    }
  }

  /** The binding sets count as equal exactly when each shape occurs equally often in both,
      in whatever order. */
  lemma BindingsShapeEqualExact(a: seq<Binding>, b: seq<Binding>)
    requires AllValid(a) && AllValid(b)
    ensures BindingsShapeEqual(a, b) <==> multiset(ShapesOf(a)) == multiset(ShapesOf(b))
  {
    var ka, kb := KeysOfBindings(a), KeysOfBindings(b);
    SortInOrder(ka);
    SortInOrder(kb);
    SameLength(SortTexts(ka), ka);
    SameLength(SortTexts(kb), kb);
    if BindingsShapeEqual(a, b) {
      assert SortTexts(ka) == SortTexts(kb);
      SameKeysSameShapes(a, b);
    } else if multiset(ShapesOf(a)) == multiset(ShapesOf(b)) {
      SameShapesSameKeys(a, b);
      SameLength(ka, kb);
      OneListing(SortTexts(ka), SortTexts(kb));
    }
  }
}
