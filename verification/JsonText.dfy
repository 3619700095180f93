/** JSON values as `JSON.parse` builds them, and their printed form.

    Strings are sequences of UTF-16 code units, as in ECMAScript, and quoted as in
    section 7 of RFC 8259.  The main result is that the printed form is uniquely
    decodable: a printed value, followed by anything that may follow a value, can
    only be read back in one way. */
module JsonText {
  import opened Collections

  type CodeUnit = x: int | 0 <= x < 0x1_0000
  type Text = seq<CodeUnit>

  const QUOTE: CodeUnit := 34
  const COMMA: CodeUnit := 44
  const COLON: CodeUnit := 58
  const LBRACKET: CodeUnit := 91
  const BACKSLASH: CodeUnit := 92
  const RBRACKET: CodeUnit := 93
  const LBRACE: CodeUnit := 123
  const RBRACE: CodeUnit := 125

  const NULL_TEXT: Text := [110, 117, 108, 108]
  const TRUE_TEXT: Text := [116, 114, 117, 101]
  const FALSE_TEXT: Text := [102, 97, 108, 115, 101]
  const UNDEFINED_TEXT: Text := [117, 110, 100, 101, 102, 105, 110, 101, 100]

  /** A value of the printed kind.  `Number` carries the shortest decimal text of a
      finite number, `NonFinite` is what an out-of-range literal parses to, and
      `Undefined` stands for an absent optional part. */
  datatype Value =
    | Undefined
    | Null
    | NonFinite
    | Bool(b: bool)
    | Number(text: Text)
    | String(s: Text)
    | Array(items: seq<Value>)
    | Object(members: seq<Member>)

  datatype Member = Member(key: Text, value: Value)

  predicate IsNumeral(c: CodeUnit) {
    48 <= c <= 57 || c == 43 || c == 45 || c == 46 || c == 101
  }

  predicate IsNumeralText(t: Text) {
    t != [] && 48 <= t[|t| - 1] <= 57 && (48 <= t[0] <= 57 || t[0] == 45) && forall i :: 0 <= i < |t| ==> IsNumeral(t[i])
  }

  predicate DistinctKeys(ms: seq<Member>) {
    forall i, j :: 0 <= i < j < |ms| ==> ms[i].key != ms[j].key
  }

  /** What the JavaScript runtime guarantees of any value: numbers have a numeral
      text and the keys of an object are distinct. */
  ghost predicate WellFormed(v: Value) {
    match v
    case Number(t) => IsNumeralText(t)
    case Array(items) => forall i :: 0 <= i < |items| ==> WellFormed(items[i])
    case Object(ms) => DistinctKeys(ms) && forall i :: 0 <= i < |ms| ==> WellFormed(ms[i].value)
    case _ => true
  }

  /** No part that prints like a different value: no non-finite number and no
      one-element array holding `undefined`. */
  ghost predicate Clean(v: Value) {
    match v
    case NonFinite => false
    case Array(items) => items != [Undefined] && forall i :: 0 <= i < |items| ==> Clean(items[i])
    case Object(ms) => forall i :: 0 <= i < |ms| ==> Clean(ms[i].value)
    case _ => true
  }

  // ---------------------------------------------------------------- quoting

  predicate IsHigh(c: CodeUnit) { 0xD800 <= c < 0xDC00 }
  predicate IsLow(c: CodeUnit) { 0xDC00 <= c < 0xE000 }

  function HexDigit(d: int): (c: CodeUnit)
    requires 0 <= d < 16
  {
    if d < 10 then 48 + d else 87 + d
  }

  function UnicodeEscape(u: CodeUnit): Text {
    [BACKSLASH, 117, HexDigit(u / 4096), HexDigit(u / 256 % 16), HexDigit(u / 16 % 16), HexDigit(u % 16)]
  }

  /** The text of one code unit inside a quoted string; `lone` marks a surrogate
      that is not half of a pair. */
  function QuoteUnit(u: CodeUnit, lone: bool): Text {
    if u == 8 then [BACKSLASH, 98]
    else if u == 9 then [BACKSLASH, 116]
    else if u == 10 then [BACKSLASH, 110]
    else if u == 12 then [BACKSLASH, 102]
    else if u == 13 then [BACKSLASH, 114]
    else if u == QUOTE then [BACKSLASH, QUOTE]
    else if u == BACKSLASH then [BACKSLASH, BACKSLASH]
    else if u < 32 || lone then UnicodeEscape(u)
    else [u]
  }

  /** The quoted text of `s`, the unit before which was a high surrogate iff `afterHigh`. */
  function QuoteBody(s: Text, afterHigh: bool): Text {
    if s == [] then []
    else
      var lone := if IsHigh(s[0]) then |s| == 1 || !IsLow(s[1]) else IsLow(s[0]) && !afterHigh;
      QuoteUnit(s[0], lone) + QuoteBody(s[1..], IsHigh(s[0]))
  }

  function Quote(s: Text): Text {
    [QUOTE] + QuoteBody(s, false) + [QUOTE]
  }

  // --------------------------------------------------------------- printing

  /** The printed form of a value, members in the order they are listed. */
  function Print(v: Value): Text
    decreases v, 1
  {
    match v
    case Undefined => UNDEFINED_TEXT
    case Null => NULL_TEXT
    case NonFinite => NULL_TEXT
    case Bool(b) => if b then TRUE_TEXT else FALSE_TEXT
    case Number(t) => t
    case String(s) => Quote(s)
    case Array(items) => [LBRACKET] + PrintItems(items) + [RBRACKET]
    case Object(ms) => [LBRACE] + PrintMembers(ms) + [RBRACE]
  }

  /** `join` prints an undefined item as nothing. */
  function PrintItem(v: Value): Text
    decreases v, 2
  {
    if v.Undefined? then [] else Print(v)
  }

  function PrintItems(items: seq<Value>): Text
    decreases items, 0
  {
    if items == [] then []
    else if |items| == 1 then PrintItem(items[0])
    else PrintItem(items[0]) + [COMMA] + PrintItems(items[1..])
  }

  function PrintMember(m: Member): Text
    decreases m, 2
  {
    Quote(m.key) + [COLON] + Print(m.value)
  }

  function PrintMembers(ms: seq<Member>): Text
    decreases ms, 0
  {
    if ms == [] then []
    else if |ms| == 1 then PrintMember(ms[0])
    else PrintMember(ms[0]) + [COMMA] + PrintMembers(ms[1..])
  }

  // ----------------------------------------------------- unique decodability

  /** What may follow a printed value. */
  predicate Follows(r: Text) {
    r == [] || r[0] == COMMA || r[0] == RBRACKET || r[0] == RBRACE
  }

  lemma CancelHead(x: Text, r: Text, y: Text, s: Text)
    requires |x| == |y| && x + r == y + s
    ensures x == y && r == s
  {
    assert x == (x + r)[..|x|] == (y + s)[..|y|] == y;
    assert r == (x + r)[|x|..] == (y + s)[|y|..] == s;
  }

  lemma HexDigits(u: CodeUnit)
    ensures u == 4096 * (u / 4096) + 256 * (u / 256 % 16) + 16 * (u / 16 % 16) + u % 16
  {
    var d1, d2, d3 := u / 16, u / 256, u / 4096;
    assert d2 == d1 / 16;
    assert d3 == d2 / 16;
  }

  lemma HexCancel(u: CodeUnit, v: CodeUnit)
    requires UnicodeEscape(u) == UnicodeEscape(v)
    ensures u == v
  {
    var x, y := UnicodeEscape(u), UnicodeEscape(v);
    assert x[2] == y[2] && x[3] == y[3] && x[4] == y[4] && x[5] == y[5];
    HexDigits(u);
    HexDigits(v);
  }

  lemma Assoc3(x: Text, y: Text, z: Text, r: Text)
    ensures x + y + z + r == x + (y + z + r)
  {
    Associate(x, y, z);
    Associate(x, y + z, r);
  }

  lemma SplitAround(x: Text, sep: Text, y: Text, close: Text, r: Text)
    ensures x + sep + y + close + r == x + (sep + (y + close + r))
  {
    Associate(x, sep, y);
    Associate(x, sep + y, close);
    Associate(x, sep + y + close, r);
    Associate(sep, y, close);
    Associate(sep, y + close, r);
  }

  /** One quoted unit can be read back in one way, whatever follows. */
  lemma UnitCancel(u: CodeUnit, l: bool, r: Text, v: CodeUnit, m: bool, s: Text)
    requires QuoteUnit(u, l) + r == QuoteUnit(v, m) + s
    ensures u == v && r == s
  {
    var x, y := QuoteUnit(u, l), QuoteUnit(v, m);
    assert (x + r)[0] == x[0] && (y + s)[0] == y[0];
    if |x| > 1 && |y| > 1 {
      assert (x + r)[1] == x[1] && (y + s)[1] == y[1];
    }
    CancelHead(x, r, y, s);
    if |x| == 6 { HexCancel(u, v); }
  }

  lemma BodyLead(a: Text, p: bool, r: Text)
    ensures (QuoteBody(a, p) + [QUOTE] + r)[0] == QUOTE <==> a == []
    ensures a == [] ==> QuoteBody(a, p) + [QUOTE] + r == [QUOTE] + r
  {
    if a != [] {
      var lone := if IsHigh(a[0]) then |a| == 1 || !IsLow(a[1]) else IsLow(a[0]) && !p;
      assert QuoteBody(a, p)[0] == QuoteUnit(a[0], lone)[0];
    } else {
      assert QuoteBody(a, p) + [QUOTE] + r == [QUOTE] + r;
    }
  }

  lemma {:induction false} BodyCancel(a: Text, p: bool, r: Text, b: Text, q: bool, s: Text)
    requires QuoteBody(a, p) + [QUOTE] + r == QuoteBody(b, q) + [QUOTE] + s
    ensures a == b && r == s
  {
    BodyLead(a, p, r);
    BodyLead(b, q, s);
    if a == [] {
      CancelHead([QUOTE], r, [QUOTE], s);
    } else {
      var l := if IsHigh(a[0]) then |a| == 1 || !IsLow(a[1]) else IsLow(a[0]) && !p;
      var m := if IsHigh(b[0]) then |b| == 1 || !IsLow(b[1]) else IsLow(b[0]) && !q;
      var a', b' := QuoteBody(a[1..], IsHigh(a[0])), QuoteBody(b[1..], IsHigh(b[0]));
      Assoc3(QuoteUnit(a[0], l), a', [QUOTE], r);
      Assoc3(QuoteUnit(b[0], m), b', [QUOTE], s);
      UnitCancel(a[0], l, a' + [QUOTE] + r, b[0], m, b' + [QUOTE] + s);
      BodyCancel(a[1..], IsHigh(a[0]), r, b[1..], IsHigh(b[0]), s);
      assert a == [a[0]] + a[1..] && b == [b[0]] + b[1..];
    }
  }

  /** A quoted string can be read back in one way, whatever follows. */
  lemma QuoteCancel(a: Text, r: Text, b: Text, s: Text)
    requires Quote(a) + r == Quote(b) + s
    ensures a == b && r == s
  {
    Assoc3([QUOTE], QuoteBody(a, false), [QUOTE], r);
    Assoc3([QUOTE], QuoteBody(b, false), [QUOTE], s);
    CancelHead([QUOTE], QuoteBody(a, false) + [QUOTE] + r, [QUOTE], QuoteBody(b, false) + [QUOTE] + s);
    BodyCancel(a, false, r, b, false, s);
  }

  /** How many numeral units a text starts with. */
  function NumeralSpan(t: Text): (n: nat) {
    if t == [] || !IsNumeral(t[0]) then 0 else 1 + NumeralSpan(t[1..])
  }

  lemma {:induction false} SpanOfNumeral(x: Text, r: Text)
    requires forall i :: 0 <= i < |x| ==> IsNumeral(x[i])
    requires Follows(r)
    ensures NumeralSpan(x + r) == |x|
  {
    if x == [] {
      assert x + r == r;
    } else {
      assert (x + r)[1..] == x[1..] + r;
      SpanOfNumeral(x[1..], r);
    }
  }

  /** A numeral can be read back in one way when no numeral unit follows it. */
  lemma NumeralCancel(x: Text, r: Text, y: Text, s: Text)
    requires forall i :: 0 <= i < |x| ==> IsNumeral(x[i])
    requires forall i :: 0 <= i < |y| ==> IsNumeral(y[i])
    requires Follows(r) && Follows(s) && x + r == y + s
    ensures x == y && r == s
  {
    SpanOfNumeral(x, r);
    SpanOfNumeral(y, s);
    CancelHead(x, r, y, s);
  }

  /** The first unit of a printed value tells its constructor. */
  function Lead(v: Value): int {
    match v
    case Undefined => 117
    case Null => 110
    case NonFinite => 110
    case Bool(b) => if b then 116 else 102
    case Number(t) => 45
    case String(s) => QUOTE
    case Array(items) => LBRACKET
    case Object(ms) => LBRACE
  }

  lemma PrintLead(v: Value, r: Text)
    requires WellFormed(v)
    ensures |Print(v)| > 0 && (Print(v) + r)[0] == Print(v)[0]
    ensures v.Number? ==> IsNumeral(Print(v)[0])
    ensures !v.Number? ==> Print(v)[0] == Lead(v)
    ensures Print(v)[0] != COMMA && Print(v)[0] != RBRACKET && Print(v)[0] != RBRACE
  {
  }

  /** Unique decodability: a printed value followed by anything that may follow a
      value determines both the value and what follows. */
  lemma {:induction false} PrintCancel(a: Value, r: Text, b: Value, s: Text)
    requires WellFormed(a) && Clean(a) && WellFormed(b) && Clean(b)
    requires Follows(r) && Follows(s)
    requires Print(a) + r == Print(b) + s
    ensures a == b && r == s
    decreases a, 1
  {
    PrintLead(a, r);
    PrintLead(b, s);
    match a
    case Number(t) => NumeralCancel(t, r, b.text, s);
    case String(t) => QuoteCancel(t, r, b.s, s);
    case Array(items) =>
      ArrayCancel(items, r, b.items, s);
    case Object(ms) =>
      ObjectCancel(ms, r, b.members, s);
    case _ => CancelHead(Print(a), r, Print(b), s);
  }

  lemma {:induction false} ArrayCancel(a: seq<Value>, r: Text, b: seq<Value>, s: Text)
    requires a != [Undefined] && b != [Undefined]
    requires forall i :: 0 <= i < |a| ==> WellFormed(a[i]) && Clean(a[i])
    requires forall i :: 0 <= i < |b| ==> WellFormed(b[i]) && Clean(b[i])
    requires [LBRACKET] + PrintItems(a) + [RBRACKET] + r == [LBRACKET] + PrintItems(b) + [RBRACKET] + s
    ensures a == b && r == s
    decreases a, 1
  {
    var x, y := PrintItems(a) + [RBRACKET] + r, PrintItems(b) + [RBRACKET] + s;
    Assoc3([LBRACKET], PrintItems(a), [RBRACKET], r);
    Assoc3([LBRACKET], PrintItems(b), [RBRACKET], s);
    CancelHead([LBRACKET], x, [LBRACKET], y);
    if a == [] || b == [] {
      EmptyItems(a, r, b, s);
    } else {
      ItemsCancel(a, r, b, s);
    }
  }

  lemma {:induction false} ObjectCancel(a: seq<Member>, r: Text, b: seq<Member>, s: Text)
    requires forall i :: 0 <= i < |a| ==> WellFormed(a[i].value) && Clean(a[i].value)
    requires forall i :: 0 <= i < |b| ==> WellFormed(b[i].value) && Clean(b[i].value)
    requires [LBRACE] + PrintMembers(a) + [RBRACE] + r == [LBRACE] + PrintMembers(b) + [RBRACE] + s
    ensures a == b && r == s
    decreases a, 1
  {
    var x, y := PrintMembers(a) + [RBRACE] + r, PrintMembers(b) + [RBRACE] + s;
    Assoc3([LBRACE], PrintMembers(a), [RBRACE], r);
    Assoc3([LBRACE], PrintMembers(b), [RBRACE], s);
    CancelHead([LBRACE], x, [LBRACE], y);
    MembersLead(a, r);
    MembersLead(b, s);
    if a == [] {
      CancelHead([RBRACE], r, [RBRACE], s);
    } else {
      MembersCancel(a, r, b, s);
    }
  }

  /** An empty array shares its text with no other clean array. */
  lemma EmptyItems(a: seq<Value>, r: Text, b: seq<Value>, s: Text)
    requires a == [] || b == []
    requires a != [Undefined] && b != [Undefined]
    requires forall i :: 0 <= i < |a| ==> WellFormed(a[i])
    requires forall i :: 0 <= i < |b| ==> WellFormed(b[i])
    requires PrintItems(a) + [RBRACKET] + r == PrintItems(b) + [RBRACKET] + s
    ensures a == b && r == s
  {
    NoItems(r);
    NoItems(s);
    if a == [] && b == [] {
      CancelHead([RBRACKET], r, [RBRACKET], s);
    } else if a == [] {
      ItemsNotEmpty(b, s);
    } else {
      ItemsNotEmpty(a, r);
    }
  }

  lemma NoItems(r: Text)
    ensures PrintItems([]) + [RBRACKET] + r == [RBRACKET] + r
  {
    assert [] + [RBRACKET] == [RBRACKET];
  }

  /** The text of some items never starts like the text of none, unless there is just
      one undefined item. */
  lemma ItemsNotEmpty(a: seq<Value>, r: Text)
    requires a != [] && a != [Undefined] && WellFormed(a[0])
    ensures forall s: Text :: PrintItems(a) + [RBRACKET] + r != [RBRACKET] + s
  {
    var rest := AfterItem(a, r);
    ItemsSplit(a, r);
    assert a[0].Undefined? ==> |a| != 1 by {
      if |a| == 1 { assert a == [a[0]]; }
    }
    ItemNotBracket(a[0], rest);
  }

  lemma ItemNotBracket(v: Value, rest: Text)
    requires WellFormed(v) && rest != []
    requires v.Undefined? ==> rest[0] == COMMA
    ensures PrintItem(v) + rest != [] && (PrintItem(v) + rest)[0] != RBRACKET
  {
    PrintLead(v, rest);
  }

  /** What follows the first item of a printed array. */
  function AfterItem(a: seq<Value>, r: Text): Text
    requires a != []
  {
    if |a| == 1 then [RBRACKET] + r else [COMMA] + (PrintItems(a[1..]) + [RBRACKET] + r)
  }

  lemma ItemsSplit(a: seq<Value>, r: Text)
    requires a != []
    ensures PrintItems(a) + [RBRACKET] + r == PrintItem(a[0]) + AfterItem(a, r)
    ensures Follows(AfterItem(a, r))
  {
    var first := PrintItem(a[0]);
    if |a| == 1 {
      Associate(first, [RBRACKET], r);
    } else {
      SplitAround(first, [COMMA], PrintItems(a[1..]), [RBRACKET], r);
    }
  }

  lemma MembersLead(a: seq<Member>, r: Text)
    ensures (PrintMembers(a) + [RBRACE] + r)[0] == (if a == [] then RBRACE else QUOTE)
    ensures a == [] ==> PrintMembers(a) + [RBRACE] + r == [RBRACE] + r
  {
    if a != [] {
      assert PrintMember(a[0])[0] == QUOTE;
      assert PrintMembers(a)[0] == QUOTE;
    }
  }

  lemma ItemLead(a: Value, r: Text)
    requires WellFormed(a) && r != [] && Follows(r)
    ensures PrintItem(a) + r != []
    ensures a.Undefined? ==> PrintItem(a) + r == r
    ensures a.Undefined? <==> Follows(PrintItem(a) + r)
  {
    PrintLead(a, r);
  }

  lemma {:induction false} ItemsCancel(a: seq<Value>, r: Text, b: seq<Value>, s: Text)
    requires a != [] && b != []
    requires forall i :: 0 <= i < |a| ==> WellFormed(a[i]) && Clean(a[i])
    requires forall i :: 0 <= i < |b| ==> WellFormed(b[i]) && Clean(b[i])
    requires PrintItems(a) + [RBRACKET] + r == PrintItems(b) + [RBRACKET] + s
    ensures a == b && r == s
    decreases a, 0
  {
    var x, y := AfterItem(a, r), AfterItem(b, s);
    ItemsSplit(a, r);
    ItemsSplit(b, s);
    ItemCancel(a[0], x, b[0], y);
    assert x[0] == y[0];
    assert a == [a[0]] + a[1..] && b == [b[0]] + b[1..];
    if |a| == 1 {
      CancelHead([RBRACKET], r, [RBRACKET], s);
    } else {
      CancelHead([COMMA], PrintItems(a[1..]) + [RBRACKET] + r, [COMMA], PrintItems(b[1..]) + [RBRACKET] + s);
      ItemsCancel(a[1..], r, b[1..], s);
    }
  }

  lemma {:induction false} ItemCancel(a: Value, r: Text, b: Value, s: Text)
    requires WellFormed(a) && Clean(a) && WellFormed(b) && Clean(b)
    requires r != [] && s != [] && Follows(r) && Follows(s)
    requires PrintItem(a) + r == PrintItem(b) + s
    ensures a == b && r == s
    decreases a, 2
  {
    ItemLead(a, r);
    ItemLead(b, s);
    if !a.Undefined? {
      PrintCancel(a, r, b, s);
    }
  }

  lemma {:induction false} MembersCancel(a: seq<Member>, r: Text, b: seq<Member>, s: Text)
    requires a != [] && b != []
    requires forall i :: 0 <= i < |a| ==> WellFormed(a[i].value) && Clean(a[i].value)
    requires forall i :: 0 <= i < |b| ==> WellFormed(b[i].value) && Clean(b[i].value)
    requires PrintMembers(a) + [RBRACE] + r == PrintMembers(b) + [RBRACE] + s
    ensures a == b && r == s
    decreases a, 0
  {
    var x, y := AfterMember(a, r), AfterMember(b, s);
    AfterFirst(a, r);
    AfterFirst(b, s);
    QuoteCancel(a[0].key, [COLON] + (Print(a[0].value) + x), b[0].key, [COLON] + (Print(b[0].value) + y));
    CancelHead([COLON], Print(a[0].value) + x, [COLON], Print(b[0].value) + y);
    PrintCancel(a[0].value, x, b[0].value, y);
    assert x[0] == y[0];
    assert a == [a[0]] + a[1..] && b == [b[0]] + b[1..];
    if |a| == 1 {
      CancelHead([RBRACE], r, [RBRACE], s);
    } else {
      CancelHead([COMMA], PrintMembers(a[1..]) + [RBRACE] + r, [COMMA], PrintMembers(b[1..]) + [RBRACE] + s);
      MembersCancel(a[1..], r, b[1..], s);
    }
  }

  /** What follows the first member of a printed object. */
  function AfterMember(a: seq<Member>, r: Text): Text
    requires a != []
  {
    if |a| == 1 then [RBRACE] + r else [COMMA] + (PrintMembers(a[1..]) + [RBRACE] + r)
  }

  lemma AfterFirst(a: seq<Member>, r: Text)
    requires a != []
    ensures PrintMembers(a) + [RBRACE] + r == Quote(a[0].key) + ([COLON] + (Print(a[0].value) + AfterMember(a, r)))
    ensures Follows(AfterMember(a, r))
  {
    var first := PrintMember(a[0]);
    if |a| == 1 {
      Associate(first, [RBRACE], r);
    } else {
      SplitAround(first, [COMMA], PrintMembers(a[1..]), [RBRACE], r);
    }
    assert PrintMembers(a) + [RBRACE] + r == first + AfterMember(a, r);
    MemberSplit(Quote(a[0].key), Print(a[0].value), AfterMember(a, r));
  }

  lemma MemberSplit(key: Text, value: Text, after: Text)
    ensures key + [COLON] + value + after == key + ([COLON] + (value + after))
  {
    Associate(key, [COLON], value);
    Associate(key, [COLON] + value, after);
    Associate([COLON], value, after);
  }

  /** Printing is injective on clean values. */
  lemma PrintInjective(a: Value, b: Value)
    requires WellFormed(a) && Clean(a) && WellFormed(b) && Clean(b)
    requires Print(a) == Print(b)
    ensures a == b
  {
    assert Print(a) + [] == Print(b) + [];
    PrintCancel(a, [], b, []);
  }
}
