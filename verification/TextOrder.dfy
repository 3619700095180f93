/** Texts in the order of their code units, and sorting them. */
module TextOrder {
  import opened JsonText
  import opened Collections

  /** `a` sorts no later than `b` in the default order of `Array.prototype.sort`. */
  predicate Before(a: Text, b: Text) {
    a == [] || (b != [] && (a[0] < b[0] || (a[0] == b[0] && Before(a[1..], b[1..]))))
  }

  lemma {:induction false} BeforeTotal(a: Text, b: Text)
    ensures Before(a, b) || Before(b, a)
  {
    if a != [] && b != [] { BeforeTotal(a[1..], b[1..]); }
  }

  lemma {:induction false} BeforeAntisymmetric(a: Text, b: Text)
    requires Before(a, b) && Before(b, a)
    ensures a == b
  {
    if a != [] {
      BeforeAntisymmetric(a[1..], b[1..]);
      assert a == [a[0]] + a[1..] && b == [b[0]] + b[1..];
    }
  }

  lemma {:induction false} BeforeTransitive(a: Text, b: Text, c: Text)
    requires Before(a, b) && Before(b, c)
    ensures Before(a, c)
  {
    if a != [] && a[0] == b[0] == c[0] { BeforeTransitive(a[1..], b[1..], c[1..]); }
  }

  function InsertKey(k: Text, ts: seq<Text>): seq<Text> {
    if ts == [] || Before(k, ts[0]) then [k] + ts else [ts[0]] + InsertKey(k, ts[1..])
  }

  function SortTexts(ts: seq<Text>): seq<Text> {
    if ts == [] then [] else InsertKey(ts[0], SortTexts(ts[1..]))
  }

  predicate InOrder(ts: seq<Text>) {
    forall i, j :: 0 <= i < j < |ts| ==> Before(ts[i], ts[j])
  }

  lemma BeforeReflexive(a: Text)
    ensures Before(a, a)
  {
    BeforeTotal(a, a);
  }

  lemma {:induction false} InsertCounts(k: Text, ts: seq<Text>)
    ensures multiset(InsertKey(k, ts)) == multiset(ts) + multiset{k}
  {
    if ts != [] && !Before(k, ts[0]) {
      InsertCounts(k, ts[1..]);
      assert ts == [ts[0]] + ts[1..];
    }
  }

  lemma {:induction false} InsertInOrder(k: Text, ts: seq<Text>)
    requires InOrder(ts)
    ensures InOrder(InsertKey(k, ts))
  {
    if ts != [] {
      if Before(k, ts[0]) {
        forall j | 0 <= j < |ts| ensures Before(k, ts[j]) { if j > 0 { BeforeTransitive(k, ts[0], ts[j]); } }
      } else {
        BeforeTotal(k, ts[0]);
        InsertInOrder(k, ts[1..]);
        InsertCounts(k, ts[1..]);
        var rest := InsertKey(k, ts[1..]);
        forall j | 0 <= j < |rest| ensures Before(ts[0], rest[j]) {
          assert rest[j] in multiset(rest);
        }
      }
    }
  }

  lemma {:induction false} SortInOrder(ts: seq<Text>)
    ensures InOrder(SortTexts(ts)) && multiset(SortTexts(ts)) == multiset(ts)
  {
    if ts != [] {
      SortInOrder(ts[1..]);
      InsertInOrder(ts[0], SortTexts(ts[1..]));
      InsertCounts(ts[0], SortTexts(ts[1..]));
      assert ts == [ts[0]] + ts[1..];
    }
  }

  /** A multiset of texts has one listing in order. */
  lemma {:induction false} OneListing(a: seq<Text>, b: seq<Text>)
    requires InOrder(a) && InOrder(b) && multiset(a) == multiset(b)
    ensures a == b
  {
    SameLength(a, b);
    if a != [] {
      FirstSame(a, b);
      TailCounts(a);
      TailCounts(b);
      OneListing(a[1..], b[1..]);
      assert a == [a[0]] + a[1..] && b == [b[0]] + b[1..];
    }
  }

  lemma TailCounts(a: seq<Text>)
    requires a != []
    ensures multiset(a[1..]) == multiset(a) - multiset{a[0]}
  {
    assert a == [a[0]] + a[1..];
  }

  lemma FirstSame(a: seq<Text>, b: seq<Text>)
    requires a != [] && b != [] && InOrder(a) && InOrder(b) && multiset(a) == multiset(b)
    ensures a[0] == b[0]
  {
    assert b[0] in multiset(b) && a[0] in multiset(a);
    FirstIsLeast(a, b[0]);
    FirstIsLeast(b, a[0]);
    BeforeAntisymmetric(a[0], b[0]);
  }

  lemma FirstIsLeast(a: seq<Text>, t: Text)
    requires InOrder(a) && t in multiset(a)
    ensures a != [] && Before(a[0], t)
  {
    var i :| 0 <= i < |a| && a[i] == t;
    if i == 0 { BeforeReflexive(t); }
  }
}
