/** The canonical key of a subscription: `stableSerialize` and `buildSubscriptionKey`
    of the WoT runtime.  Two values get the same text exactly when they agree up to
    the order of object keys at every depth. */
module StableKey {
  import opened JsonText
  import opened TextOrder
  import opened Collections

  // ----------------------------------------------------------- sorted object keys

  ghost predicate Sorted(ts: seq<Text>) {
    InOrder(ts) && Distinct(ts)
  }

  ghost function Elements(ts: seq<Text>): set<Text> { set t | t in ts }

  lemma SortTextsSorted(ts: seq<Text>)
    requires Distinct(ts)
    ensures Sorted(SortTexts(ts)) && Elements(SortTexts(ts)) == Elements(ts)
  {
    SortInOrder(ts);
    DistinctCounts(ts);
    DistinctCounts(SortTexts(ts));
    assert forall t :: t in ts <==> t in multiset(ts);
    assert forall t :: t in SortTexts(ts) <==> t in multiset(SortTexts(ts));
  }

  /** A set of keys has one sorted listing. */
  lemma SortedUnique(a: seq<Text>, b: seq<Text>)
    requires Sorted(a) && Sorted(b) && Elements(a) == Elements(b)
    ensures a == b
  {
    DistinctCounts(a);
    DistinctCounts(b);
    forall t ensures multiset(a)[t] == multiset(b)[t] {
      assert t in multiset(a) <==> t in Elements(a);
      assert t in multiset(b) <==> t in Elements(b);
    }
    OneListing(a, b);
  }

  // ------------------------------------------------------------ stableSerialize

  function KeysOf(ms: seq<Member>): (ks: seq<Text>)
    ensures |ks| == |ms| && forall i :: 0 <= i < |ms| ==> ks[i] == ms[i].key
  {
    seq(|ms|, i requires 0 <= i < |ms| => ms[i].key)
  }

  /** Where `value[key]` finds its member. */
  function IndexOf(ms: seq<Member>, k: Text): (i: nat)
    requires k in KeysOf(ms)
    ensures i < |ms| && ms[i].key == k
  {
    IndexFrom(ms, k, 0)
  }

  function IndexFrom(ms: seq<Member>, k: Text, from: nat): (i: nat)
    requires exists j :: from <= j < |ms| && ms[j].key == k
    ensures i < |ms| && ms[i].key == k
    decreases |ms| - from
  {
    if ms[from].key == k then from else IndexFrom(ms, k, from + 1)
  }

  function SortedKeys(ms: seq<Member>): (ks: seq<Text>) { SortTexts(KeysOf(ms)) }

  lemma SortedKeysOf(ms: seq<Member>)
    requires DistinctKeys(ms)
    ensures Sorted(SortedKeys(ms)) && Elements(SortedKeys(ms)) == Elements(KeysOf(ms))
    ensures forall k :: k in SortedKeys(ms) <==> k in KeysOf(ms)
  {
    SortTextsSorted(KeysOf(ms));
    forall k ensures k in SortedKeys(ms) <==> k in KeysOf(ms) {
      assert k in SortedKeys(ms) <==> k in Elements(SortedKeys(ms));
      assert k in KeysOf(ms) <==> k in Elements(KeysOf(ms));
    }
  }

  function StableSerialize(v: Value): Text
    decreases v, 1
  {
    match v
    case Array(items) => [LBRACKET] + StableItems(items) + [RBRACKET]
    case Object(ms) => [LBRACE] + StableMembers(v, SortedKeys(ms)) + [RBRACE]
    case _ => Print(v)
  }

  function StableItem(v: Value): Text
    decreases v, 2
  {
    if v.Undefined? then [] else StableSerialize(v)
  }

  function StableItems(items: seq<Value>): Text
    decreases items, 0
  {
    if items == [] then []
    else if |items| == 1 then StableItem(items[0])
    else StableItem(items[0]) + [COMMA] + StableItems(items[1..])
  }

  /** The members of `o` named by `keys`; a name without a member prints as undefined. */
  function StableMembers(o: Value, keys: seq<Text>): Text
    requires o.Object?
    decreases o, 0, |keys|
  {
    if keys == [] then []
    else if |keys| == 1 then StableMember(o, keys[0])
    else StableMember(o, keys[0]) + [COMMA] + StableMembers(o, keys[1..])
  }

  function StableMember(o: Value, key: Text): Text
    requires o.Object?
    decreases o, 0, 0
  {
    Quote(key) + [COLON] +
    (if key in KeysOf(o.members) then StableSerialize(o.members[IndexOf(o.members, key)].value) else UNDEFINED_TEXT)
  }

  // ----------------------------------------------------------- canonical values

  /** The value with the members of every object listed in key order. */
  function SortKeys(v: Value): Value
    decreases v, 0
  {
    match v
    case Array(items) => Array(seq(|items|, i requires 0 <= i < |items| => SortKeys(items[i])))
    case Object(ms) =>
      var ks := SortedKeys(ms);
      Object(seq(|ks|, i requires 0 <= i < |ks| =>
        Member(ks[i], if ks[i] in KeysOf(ms) then SortKeys(ms[IndexOf(ms, ks[i])].value) else Undefined)))
    case _ => v
  }

  /** Equal up to the order of object keys, at every depth. */
  ghost predicate Same(a: Value, b: Value)
    decreases a
  {
    match a
    case Array(items) =>
      b.Array? && |items| == |b.items| && forall i :: 0 <= i < |items| ==> Same(items[i], b.items[i])
    case Object(ms) =>
      b.Object? && Elements(KeysOf(ms)) == Elements(KeysOf(b.members)) &&
      forall i, j :: 0 <= i < |ms| && 0 <= j < |b.members| && ms[i].key == b.members[j].key ==>
        Same(ms[i].value, b.members[j].value)
    case _ => a == b
  }

  lemma {:induction false} SortKeysWellFormed(v: Value)
    requires WellFormed(v)
    ensures WellFormed(SortKeys(v))
    ensures Clean(v) ==> Clean(SortKeys(v))
    ensures v.Undefined? <==> SortKeys(v).Undefined?
    decreases v
  {
    match v
    case Array(items) =>
      forall i | 0 <= i < |items| { SortKeysWellFormed(items[i]); }
      if |items| == 1 {
        assert items == [items[0]];
        assert SortKeys(v).items[0] == SortKeys(items[0]);
      }
    case Object(ms) =>
      SortedKeysOf(ms);
      forall i | 0 <= i < |ms| { SortKeysWellFormed(ms[i].value); }
    case _ =>
  }

  /** Canonical values are equal exactly when the values are the same up to key order. */
  lemma {:induction false} SortKeysSame(a: Value, b: Value)
    requires WellFormed(a) && WellFormed(b)
    ensures SortKeys(a) == SortKeys(b) <==> Same(a, b)
    decreases a
  {
    match a
    case Array(items) =>
      if b.Array? {
        assert |SortKeys(a).items| == |items| && |SortKeys(b).items| == |b.items|;
      }
      if b.Array? && |items| == |b.items| {
        var x, y := SortKeys(a).items, SortKeys(b).items;
        forall i | 0 <= i < |items| ensures x[i] == y[i] <==> Same(items[i], b.items[i]) {
          SortKeysSame(items[i], b.items[i]);
        }
        if Same(a, b) { assert x == y; }
        if SortKeys(a) == SortKeys(b) { assert forall i :: 0 <= i < |items| ==> x[i] == y[i]; }
      }
    case Object(ms) =>
      if b.Object? {
        forall i, j | 0 <= i < |ms| && 0 <= j < |b.members| ensures SortKeysSameAt(ms, b.members, i, j) {
          SortKeysSame(ms[i].value, b.members[j].value);
        }
        if Same(a, b) { SameMembersSort(a, b); }
        if SortKeys(a) == SortKeys(b) { SortedMembersSame(a, b); }
      }
    case _ =>
  }

  ghost predicate SortKeysSameAt(ms: seq<Member>, ns: seq<Member>, i: nat, j: nat)
    requires i < |ms| && j < |ns|
  {
    SortKeys(ms[i].value) == SortKeys(ns[j].value) <==> Same(ms[i].value, ns[j].value)
  }

  /** The object case of `SortKeysSame`, given that it holds of the member values. */
  lemma SameMembersSort(a: Value, b: Value)
    requires a.Object? && b.Object? && DistinctKeys(a.members) && DistinctKeys(b.members)
    requires forall i, j :: 0 <= i < |a.members| && 0 <= j < |b.members| ==> SortKeysSameAt(a.members, b.members, i, j)
    requires Same(a, b)
    ensures SortKeys(a) == SortKeys(b)
  {
    var ms, ns := a.members, b.members;
    var x, y := SortKeys(a).members, SortKeys(b).members;
    var ks, ls := SortedKeys(ms), SortedKeys(ns);
    SortedKeysOf(ms);
    SortedKeysOf(ns);
    SortedUnique(ks, ls);
    forall i | 0 <= i < |x| ensures x[i] == y[i] {
      var p, q := IndexOf(ms, ks[i]), IndexOf(ns, ks[i]);
      assert SortKeysSameAt(ms, ns, p, q);
    }
    assert x == y;
  }

  lemma SortedMembersSame(a: Value, b: Value)
    requires a.Object? && b.Object? && DistinctKeys(a.members) && DistinctKeys(b.members)
    requires forall i, j :: 0 <= i < |a.members| && 0 <= j < |b.members| ==> SortKeysSameAt(a.members, b.members, i, j)
    requires SortKeys(a) == SortKeys(b)
    ensures Same(a, b)
  {
    var ms, ns := a.members, b.members;
    var x, y := SortKeys(a).members, SortKeys(b).members;
    var ks, ls := SortedKeys(ms), SortedKeys(ns);
    SortedKeysOf(ms);
    SortedKeysOf(ns);
    assert |ks| == |ls| && forall i :: 0 <= i < |ks| ==> x[i].key == ks[i] && y[i].key == ls[i];
    assert ks == ls;
    forall i, j | 0 <= i < |ms| && 0 <= j < |ns| && ms[i].key == ns[j].key
      ensures Same(ms[i].value, ns[j].value)
    {
      assert KeysOf(ms)[i] in ks;
      var k :| 0 <= k < |ks| && ks[k] == ms[i].key;
      assert x[k] == y[k];
      assert IndexOf(ms, ks[k]) == i && IndexOf(ns, ks[k]) == j;
      assert SortKeysSameAt(ms, ns, i, j);
    }
  }

  // ------------------------------------------ serializing is printing canonically

  lemma {:induction false} StableIsPrint(v: Value)
    requires WellFormed(v)
    ensures StableSerialize(v) == Print(SortKeys(v))
    decreases v, 1
  {
    match v
    case Array(items) => StableItemsIsPrint(items, SortKeys(v).items);
    case Object(ms) =>
      SortedKeysOf(ms);
      forall i | 0 <= i < |ms| ensures StableSerialize(ms[i].value) == Print(SortKeys(ms[i].value)) {
        StableIsPrint(ms[i].value);
      }
      StableMembersIsPrint(v, SortedKeys(ms), SortKeys(v).members);
    case _ =>
  }

  lemma {:induction false} StableItemsIsPrint(items: seq<Value>, sorted: seq<Value>)
    requires forall i :: 0 <= i < |items| ==> WellFormed(items[i])
    requires |sorted| == |items| && forall i :: 0 <= i < |items| ==> sorted[i] == SortKeys(items[i])
    ensures StableItems(items) == PrintItems(sorted)
    decreases items, 0
  {
    if items != [] {
      StableIsPrint(items[0]);
      SortKeysWellFormed(items[0]);
      assert StableItem(items[0]) == PrintItem(sorted[0]);
      if |items| > 1 { StableItemsIsPrint(items[1..], sorted[1..]); }
    }
  }

  lemma {:induction false} StableMembersIsPrint(o: Value, keys: seq<Text>, sorted: seq<Member>)
    requires o.Object? && |keys| == |sorted|
    requires forall i :: 0 <= i < |o.members| ==> StableSerialize(o.members[i].value) == Print(SortKeys(o.members[i].value))
    requires forall i :: 0 <= i < |keys| ==> keys[i] in KeysOf(o.members)
    requires forall i :: 0 <= i < |keys| ==> sorted[i] == Member(keys[i], SortKeys(o.members[IndexOf(o.members, keys[i])].value))
    ensures StableMembers(o, keys) == PrintMembers(sorted)
    decreases |keys|
  {
    if keys != [] {
      assert StableMember(o, keys[0]) == PrintMember(sorted[0]);
      if |keys| > 1 { StableMembersIsPrint(o, keys[1..], sorted[1..]); }
    }
  }

  // ------------------------------------------------------- the exact collisions

  /** Replaces what prints like something else by what it prints like. */
  function Collapse(v: Value): Value
    decreases v
  {
    match v
    case NonFinite => Null
    case Array(items) =>
      if items == [Undefined] then Array([])
      else Array(seq(|items|, i requires 0 <= i < |items| => Collapse(items[i])))
    case Object(ms) =>
      Object(seq(|ms|, i requires 0 <= i < |ms| => Member(ms[i].key, Collapse(ms[i].value))))
    case _ => v
  }

  lemma {:induction false} CollapseClean(v: Value)
    requires WellFormed(v)
    ensures WellFormed(Collapse(v)) && Clean(Collapse(v))
    ensures v.Undefined? <==> Collapse(v).Undefined?
    ensures Clean(v) ==> Collapse(v) == v
    decreases v
  {
    match v
    case Array(items) =>
      forall i | 0 <= i < |items| { CollapseClean(items[i]); }
      if items != [Undefined] && |items| == 1 {
        assert items == [items[0]];
        assert Collapse(v).items[0] == Collapse(items[0]);
      }
      if Clean(v) { assert Collapse(v).items == items; }
    case Object(ms) =>
      forall i | 0 <= i < |ms| { CollapseClean(ms[i].value); }
      if Clean(v) { assert Collapse(v).members == ms; }
    case _ =>
  }

  lemma {:induction false} CollapsePrints(v: Value)
    requires WellFormed(v)
    ensures StableSerialize(Collapse(v)) == StableSerialize(v)
    decreases v, 1
  {
    match v
    case Array(items) =>
      if items == [Undefined] {
        assert StableItem(Undefined) == [];
        assert StableItems(items) == StableItem(items[0]);
      } else {
        CollapseItems(items, Collapse(v).items);
      }
    case Object(ms) =>
      var ns := Collapse(v).members;
      assert KeysOf(ns) == KeysOf(ms);
      forall i | 0 <= i < |ms| ensures StableSerialize(ns[i].value) == StableSerialize(ms[i].value) {
        CollapsePrints(ms[i].value);
      }
      CollapseMembers(v, Collapse(v), SortedKeys(ms));
    case _ =>
  }

  lemma {:induction false} CollapseItems(items: seq<Value>, others: seq<Value>)
    requires forall i :: 0 <= i < |items| ==> WellFormed(items[i])
    requires |others| == |items| && forall i :: 0 <= i < |items| ==> others[i] == Collapse(items[i])
    ensures StableItems(others) == StableItems(items)
    decreases items, 0
  {
    if items != [] {
      CollapsePrints(items[0]);
      CollapseClean(items[0]);
      assert StableItem(items[0]) == StableItem(others[0]);
      if |items| > 1 { CollapseItems(items[1..], others[1..]); }
    }
  }

  lemma {:induction false} CollapseMembers(o: Value, p: Value, keys: seq<Text>)
    requires o.Object? && p.Object? && KeysOf(o.members) == KeysOf(p.members)
    requires DistinctKeys(o.members)
    requires forall i :: 0 <= i < |o.members| ==> StableSerialize(p.members[i].value) == StableSerialize(o.members[i].value)
    ensures StableMembers(p, keys) == StableMembers(o, keys)
    decreases |keys|
  {
    if keys != [] {
      if keys[0] in KeysOf(o.members) {
        var i, j := IndexOf(o.members, keys[0]), IndexOf(p.members, keys[0]);
        assert KeysOf(p.members)[j] == keys[0] == KeysOf(o.members)[i];
        assert i == j;
      }
      assert StableMember(p, keys[0]) == StableMember(o, keys[0]);
      if |keys| > 1 { CollapseMembers(o, p, keys[1..]); }
    }
  }

  /** Exactly when two values get one text, over all values the runtime can hold. */
  lemma StableSerializeExact(a: Value, b: Value)
    requires WellFormed(a) && WellFormed(b)
    ensures StableSerialize(a) == StableSerialize(b) <==> Same(Collapse(a), Collapse(b))
  {
    var x, y := Collapse(a), Collapse(b);
    CollapseClean(a);
    CollapseClean(b);
    CollapsePrints(a);
    CollapsePrints(b);
    StableIsPrint(x);
    StableIsPrint(y);
    SortKeysWellFormed(x);
    SortKeysWellFormed(y);
    SortKeysSame(x, y);
    if Print(SortKeys(x)) == Print(SortKeys(y)) {
      PrintInjective(SortKeys(x), SortKeys(y));
    }
  }

  /** On clean values, and so on every JSON tree of finite numbers, one text means the
      same value up to key order. */
  lemma StableSerializeCanonical(a: Value, b: Value)
    requires WellFormed(a) && WellFormed(b) && Clean(a) && Clean(b)
    ensures StableSerialize(a) == StableSerialize(b) <==> Same(a, b)
  {
    StableSerializeExact(a, b);
    CollapseClean(a);
    CollapseClean(b);
  }

  /** The two families that collide: an array holding one `undefined` prints like the
      empty array, and a number out of range prints like null. */
  lemma Collisions()
    ensures StableSerialize(Array([Undefined])) == StableSerialize(Array([]))
    ensures !Same(Array([Undefined]), Array([]))
    ensures StableSerialize(NonFinite) == StableSerialize(Null) && !Same(NonFinite, Null)
  {
    assert StableItems([Undefined]) == [] == StableItems([]);
  }

  // -------------------------------------------------------- buildSubscriptionKey

  datatype Operation = ObserveProperty | SubscribeEvent

  /** A request, its names trimmed and its payload envelopes decoded. */
  datatype Request = Request(
    thingId: Text,
    name: Text,
    operation: Operation,
    namespace: Text,
    uriVariables: Value,
    formSelector: Value,
    extraData: Value)

  ghost predicate ValidRequest(r: Request) {
    && r.uriVariables.Object? && WellFormed(r.uriVariables)
    && WellFormed(r.formSelector) && WellFormed(r.extraData)
  }

  const THING_ID: Text := [116, 104, 105, 110, 103, 73, 100]
  const NAME: Text := [110, 97, 109, 101]
  const OPERATION_NAME: Text := [111, 112, 101, 114, 97, 116, 105, 111, 110, 78, 97, 109, 101]
  const NAMESPACE: Text := [110, 97, 109, 101, 115, 112, 97, 99, 101]
  const URI_VARIABLES: Text := [117, 114, 105, 86, 97, 114, 105, 97, 98, 108, 101, 115]
  const FORM_SELECTOR: Text := [102, 111, 114, 109, 83, 101, 108, 101, 99, 116, 111, 114]
  const EXTRA_DATA: Text := [101, 120, 116, 114, 97, 68, 97, 116, 97]

  const OBSERVE_PROPERTY: Text := [111, 98, 115, 101, 114, 118, 101, 112, 114, 111, 112, 101, 114, 116, 121]
  const SUBSCRIBE_EVENT: Text := [115, 117, 98, 115, 99, 114, 105, 98, 101, 101, 118, 101, 110, 116]

  function OperationName(op: Operation): Text {
    match op case ObserveProperty => OBSERVE_PROPERTY case SubscribeEvent => SUBSCRIBE_EVENT
  }

  /** `request?.formSelector || null`: an empty or zero-like selector counts as none. */
  function SelectorOrNull(v: Value): Value {
    if v == Undefined || v == Bool(false) || v == String([]) || v == Number([48]) then Null else v
  }

  function KeyObject(r: Request): Value {
    Object([
      Member(THING_ID, String(r.thingId)),
      Member(NAME, String(r.name)),
      Member(OPERATION_NAME, String(OperationName(r.operation))),
      Member(NAMESPACE, String(r.namespace)),
      Member(URI_VARIABLES, r.uriVariables),
      Member(FORM_SELECTOR, SelectorOrNull(r.formSelector)),
      Member(EXTRA_DATA, r.extraData)])
  }

  function BuildSubscriptionKey(r: Request): Text {
    StableSerialize(KeyObject(r))
  }

  /** A form selector that selects nothing: it is absent or falsy, or prints like null. */
  ghost predicate NoSelector(v: Value) {
    match v
    case Undefined => true
    case Null => true
    case NonFinite => true
    case Bool(b) => !b
    case Number(text) => text == [48]
    case String(s) => s == []
    case Array(_) => false
    case Object(_) => false
  }

  ghost predicate SameSelector(a: Value, b: Value) {
    if NoSelector(a) || NoSelector(b) then NoSelector(a) && NoSelector(b) else Same(Collapse(a), Collapse(b))
  }

  /** Two requests share a subscription exactly when they name the same Thing,
      affordance, operation and namespace, and agree on variables, form and input up
      to key order. */
  ghost predicate SameSubscription(a: Request, b: Request) {
    && a.thingId == b.thingId && a.name == b.name
    && a.operation == b.operation && a.namespace == b.namespace
    && Same(Collapse(a.uriVariables), Collapse(b.uriVariables))
    && SameSelector(a.formSelector, b.formSelector)
    && Same(Collapse(a.extraData), Collapse(b.extraData))
  }

  lemma SelectorsSame(a: Value, b: Value)
    requires WellFormed(a) && WellFormed(b)
    ensures Same(Collapse(SelectorOrNull(a)), Collapse(SelectorOrNull(b))) <==> SameSelector(a, b)
  {
  }

  lemma KeyNamesDistinct()
    ensures forall i, j :: 0 <= i < j < 7 ==> KeyNames()[i] != KeyNames()[j]
  {
    var ks := KeyNames();
    assert |ks[0]| == 7 && |ks[1]| == 4 && |ks[2]| == 13 && |ks[3]| == 9 && |ks[4]| == 12 && |ks[5]| == 12 && |ks[6]| == 9;
    assert ks[3][0] != ks[6][0] && ks[4][0] != ks[5][0];
  }

  function KeyNames(): (ks: seq<Text>)
    ensures |ks| == 7
  {
    [THING_ID, NAME, OPERATION_NAME, NAMESPACE, URI_VARIABLES, FORM_SELECTOR, EXTRA_DATA]
  }

  lemma KeyObjectWellFormed(r: Request)
    requires ValidRequest(r)
    ensures WellFormed(KeyObject(r))
    ensures KeysOf(KeyObject(r).members) == KeyNames()
    ensures forall i :: 0 <= i < 7 ==> Collapse(KeyObject(r)).members[i] == Member(KeyNames()[i], Collapse(KeyObject(r).members[i].value))
  {
    KeyNamesDistinct();
    var ms := KeyObject(r).members;
    forall i | 0 <= i < 7 ensures ms[i].key == KeyNames()[i] && WellFormed(ms[i].value) {}
  }

  lemma KeyObjectsSame(a: Request, b: Request)
    requires ValidRequest(a) && ValidRequest(b)
    requires Same(Collapse(KeyObject(a)), Collapse(KeyObject(b)))
    ensures SameSubscription(a, b)
  {
    KeyMembersSame(a, b);
    var x, y := KeyObject(a).members, KeyObject(b).members;
    assert |OperationName(ObserveProperty)| != |OperationName(SubscribeEvent)|;
    assert Same(Collapse(x[0].value), Collapse(y[0].value)) && Same(Collapse(x[1].value), Collapse(y[1].value));
    assert Same(Collapse(x[2].value), Collapse(y[2].value)) && Same(Collapse(x[3].value), Collapse(y[3].value));
    assert Same(Collapse(x[4].value), Collapse(y[4].value)) && Same(Collapse(x[5].value), Collapse(y[5].value));
    assert Same(Collapse(x[6].value), Collapse(y[6].value));
    SelectorsSame(a.formSelector, b.formSelector);
  }

  lemma KeyMembersSame(a: Request, b: Request)
    requires ValidRequest(a) && ValidRequest(b)
    requires Same(Collapse(KeyObject(a)), Collapse(KeyObject(b)))
    ensures forall i :: 0 <= i < 7 ==> Same(Collapse(KeyObject(a).members[i].value), Collapse(KeyObject(b).members[i].value))
  {
    KeyObjectWellFormed(a);
    KeyObjectWellFormed(b);
    var x, y := Collapse(KeyObject(a)).members, Collapse(KeyObject(b)).members;
    forall i | 0 <= i < 7 ensures Same(x[i].value, y[i].value) {
      assert x[i].key == y[i].key;
    }
  }

  lemma SameKeyObjects(a: Request, b: Request)
    requires ValidRequest(a) && ValidRequest(b)
    requires SameSubscription(a, b)
    ensures Same(Collapse(KeyObject(a)), Collapse(KeyObject(b)))
  {
    KeyObjectWellFormed(a);
    KeyObjectWellFormed(b);
    KeyNamesDistinct();
    SelectorsSame(a.formSelector, b.formSelector);
    var x, y := Collapse(KeyObject(a)).members, Collapse(KeyObject(b)).members;
    assert KeysOf(x) == KeyNames() == KeysOf(y);
    forall i, j | 0 <= i < 7 && 0 <= j < 7 && x[i].key == y[j].key
      ensures Same(x[i].value, y[j].value)
    {
      assert i == j;
      assert x[i].value == Collapse(KeyObject(a).members[i].value);
      assert y[i].value == Collapse(KeyObject(b).members[i].value);
    }
  }

  /** One key, one subscription: the exact meaning of equal subscription keys. */
  lemma SubscriptionKeyExact(a: Request, b: Request)
    requires ValidRequest(a) && ValidRequest(b)
    ensures BuildSubscriptionKey(a) == BuildSubscriptionKey(b) <==> SameSubscription(a, b)
  {
    KeyObjectWellFormed(a);
    KeyObjectWellFormed(b);
    StableSerializeExact(KeyObject(a), KeyObject(b));
    if Same(Collapse(KeyObject(a)), Collapse(KeyObject(b))) { KeyObjectsSame(a, b); }
    if SameSubscription(a, b) { SameKeyObjects(a, b); }
  }

  /** Requests with different form selectors never share a key: two selectors that are objects
      of finite numbers share one only if they are equal up to key order, and an object never
      shares one with a selector that is absent. */
  lemma SelectorsSeparate(a: Request, b: Request)
    requires ValidRequest(a) && ValidRequest(b) && a.formSelector.Object? && Clean(a.formSelector)
    requires BuildSubscriptionKey(a) == BuildSubscriptionKey(b)
    ensures b.formSelector.Object? && (Clean(b.formSelector) ==> Same(a.formSelector, b.formSelector))
  {
    SubscriptionKeyExact(a, b);
    CollapseClean(a.formSelector);
    CollapseClean(b.formSelector);
  }
}
