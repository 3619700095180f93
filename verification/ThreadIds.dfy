/** Every tool-call part of a conversion has an id of its own. */
module ThreadIds {
  import opened Options
  import opened ThreadModel

  // ------------------------------------------------------- candidates are distinct

  lemma {:induction false} DecimalInjective(a: nat, b: nat)
    requires Decimal(a) == Decimal(b)
    ensures a == b
  {
    DecimalLength(a);
    DecimalLength(b);
    if a >= 10 && b >= 10 {
      var x, y := Decimal(a / 10), Decimal(b / 10);
      assert Decimal(a)[..|x|] == x && Decimal(b)[..|y|] == y;
      assert Decimal(a)[|x|] == Digit(a % 10) && Decimal(b)[|y|] == Digit(b % 10);
      DecimalInjective(a / 10, b / 10);
    }
  }

  lemma {:induction false} DecimalLength(n: nat)
    ensures |Decimal(n)| >= 1 && (|Decimal(n)| == 1 <==> n < 10)
  {
    if n >= 10 { DecimalLength(n / 10); }
  }

  lemma CandidateInjective(id: string, n: nat, m: nat)
    requires 1 <= n && 1 <= m && Candidate(id, n) == Candidate(id, m)
    ensures n == m
  {
    if n > 1 && m > 1 {
      var x, y := Decimal(n), Decimal(m);
      assert (id + ":" + x)[|id| + 1..] == x;
      assert (id + ":" + y)[|id| + 1..] == y;
      DecimalInjective(n, m);
    }
  }

  /** The renaming loop ends within one try more than there are ids in use, on the
      first candidate that is free. */
  lemma {:induction false} FirstFreeIsFree(id: string, used: set<string>, n: nat)
    requires n >= 1
    ensures var r := FirstFree(id, used, n);
      && n <= r <= n + |used|
      && Candidate(id, r) !in used
      && forall k :: n <= k < r ==> Candidate(id, k) in used
    decreases |used|
  {
    if Candidate(id, n) in used {
      var rest := used - {Candidate(id, n)};
      FirstFreeIsFree(id, rest, n + 1);
      var r := FirstFree(id, rest, n + 1);
      if Candidate(id, r) == Candidate(id, n) { CandidateInjective(id, r, n); }
    }
  }

  lemma UniqueIdIsFree(id: string, used: set<string>)
    ensures UniqueId(id, used) !in used
    ensures id !in used ==> UniqueId(id, used) == id
  {
    FirstFreeIsFree(id, used, 1);
  }

  // --------------------------------------------------------------- counting ids

  /** How often each id occurs among the tool-call parts. */
  ghost function Ids(calls: seq<ToolCall>, parts: seq<Part>): multiset<string> {
    if parts == [] then multiset{}
    else Ids(calls, parts[..|parts| - 1]) + IdOf(calls, parts[|parts| - 1])
  }

  ghost function IdOf(calls: seq<ToolCall>, p: Part): multiset<string> {
    if CallOf(calls, p).Some? then multiset{CallOf(calls, p).value.id} else multiset{}
  }

  ghost function AllIds(calls: seq<ToolCall>, messages: seq<ThreadMessage>): multiset<string> {
    if messages == [] then multiset{}
    else AllIds(calls, messages[..|messages| - 1]) + Ids(calls, messages[|messages| - 1].parts)
  }

  lemma {:induction false} IdsConcat(calls: seq<ToolCall>, a: seq<Part>, b: seq<Part>)
    ensures Ids(calls, a + b) == Ids(calls, a) + Ids(calls, b)
  {
    if b == [] {
      assert a + b == a;
    } else {
      assert (a + b)[..|a + b| - 1] == a + b[..|b| - 1];
      IdsConcat(calls, a, b[..|b| - 1]);
    }
  }

  lemma IdsOne(calls: seq<ToolCall>, p: Part)
    ensures Ids(calls, [p]) == IdOf(calls, p)
  {
    assert [p][..0] == [];
  }

  lemma IdsPush(calls: seq<ToolCall>, a: seq<Part>, p: Part)
    ensures Ids(calls, a + [p]) == Ids(calls, a) + IdOf(calls, p)
  {
    IdsConcat(calls, a, [p]);
    IdsOne(calls, p);
  }

  lemma AllIdsPush(calls: seq<ToolCall>, a: seq<ThreadMessage>, m: ThreadMessage)
    ensures AllIds(calls, a + [m]) == AllIds(calls, a) + Ids(calls, m.parts)
  {
    assert (a + [m])[..|a|] == a;
  }

  /** Ids do not depend on anything but the ids in the table of calls. */
  ghost predicate SameIds(a: seq<ToolCall>, b: seq<ToolCall>) {
    |a| <= |b| && forall k :: 0 <= k < |a| ==> a[k].id == b[k].id
  }

  lemma {:induction false} IdsStable(a: seq<ToolCall>, b: seq<ToolCall>, parts: seq<Part>)
    requires SameIds(a, b) && RefsOk(a, parts)
    ensures Ids(a, parts) == Ids(b, parts)
  {
    if parts != [] {
      IdsStable(a, b, parts[..|parts| - 1]);
      assert RefOk(a, parts[|parts| - 1]);
    }
  }

  lemma {:induction false} AllIdsStable(a: seq<ToolCall>, b: seq<ToolCall>, messages: seq<ThreadMessage>)
    requires SameIds(a, b) && forall i :: 0 <= i < |messages| ==> RefsOk(a, messages[i].parts)
    ensures AllIds(a, messages) == AllIds(b, messages)
  {
    if messages != [] {
      AllIdsStable(a, b, messages[..|messages| - 1]);
      IdsStable(a, b, messages[|messages| - 1].parts);
    }
  }

  // ------------------------------------------------------------------ invariant

  ghost function TurnIds(s: State): multiset<string> {
    if s.turn.Some? then Ids(s.calls, s.turn.value.parts) else multiset{}
  }

  ghost function StateIds(s: State): multiset<string> { AllIds(s.calls, s.result) + TurnIds(s) }

  /** No id occurs twice, and every id that occurs is in use. */
  ghost predicate Distinct(ids: multiset<string>, used: set<string>) {
    forall x :: x in ids ==> ids[x] == 1 && x in used
  }

  ghost predicate Refs(s: State) {
    && (forall i :: 0 <= i < |s.result| ==> RefsOk(s.calls, s.result[i].parts))
    && (s.turn.Some? ==> RefsOk(s.calls, s.turn.value.parts))
  }

  ghost predicate IdInv(s: State) {
    Refs(s) && Distinct(StateIds(s), s.used)
  }

  lemma AddFresh(ids: multiset<string>, used: set<string>, id: string)
    requires Distinct(ids, used) && id !in used
    ensures Distinct(ids + multiset{id}, used + {id})
  {
  }

  lemma RefsConcat(calls: seq<ToolCall>, x: seq<Part>, y: seq<Part>)
    ensures RefsOk(calls, x + y) <==> RefsOk(calls, x) && RefsOk(calls, y)
  {
    if RefsOk(calls, x + y) {
      assert forall i :: 0 <= i < |x| ==> x[i] == (x + y)[i];
      assert forall i :: 0 <= i < |y| ==> y[i] == (x + y)[|x| + i];
    }
  }

  lemma PlacedConcat(calls: seq<ToolCall>, a: seq<Placed>, b: seq<Placed>)
    ensures Ids(calls, PartsOf(a + b)) == Ids(calls, PartsOf(a)) + Ids(calls, PartsOf(b))
    ensures RefsOk(calls, PartsOf(a + b)) <==> RefsOk(calls, PartsOf(a)) && RefsOk(calls, PartsOf(b))
  {
    PartsOfConcat(a, b);
    IdsConcat(calls, PartsOf(a), PartsOf(b));
    RefsConcat(calls, PartsOf(a), PartsOf(b));
  }

  lemma PartsOfConcat(a: seq<Placed>, b: seq<Placed>)
    ensures PartsOf(a + b) == PartsOf(a) + PartsOf(b)
  {
  }

  lemma PlacedOne(calls: seq<ToolCall>, p: Placed)
    ensures Ids(calls, PartsOf([p])) == IdOf(calls, p.part)
    ensures RefsOk(calls, PartsOf([p])) <==> RefOk(calls, p.part)
  {
    assert PartsOf([p]) == [p.part];
    IdsOne(calls, p.part);
  }

  /** Placing one more part adds the ids of the part and of its view. */
  lemma PlaceOneIds(calls: seq<ToolCall>, part: Part, n: nat, st: Placing)
    requires RefOk(calls, part) && RefsOk(calls, PartsOf(st.placed + st.pending))
    ensures var st' := PlaceOne(calls, part, n, st);
      && RefsOk(calls, PartsOf(st'.placed + st'.pending))
      && Ids(calls, PartsOf(st'.placed + st'.pending)) ==
         Ids(calls, PartsOf(st.placed + st.pending)) + IdOf(calls, part) + Ids(calls, PartsOf(ViewMade(calls, part, st.used, n)))
  {
    var view, p := ViewMade(calls, part, st.used, n), Placed(part, Original(n));
    if view != [] { PlacedOne(calls, view[0]); }
    assert RefsOk(calls, PartsOf(view));
    PlacedOne(calls, p);
    if EndsRun(calls, part) {
      JoinFour(calls, st.placed, st.pending, p, view);
    } else {
      JoinAside(calls, st.placed, st.pending, p, view);
    }
  }

  lemma JoinAside(calls: seq<ToolCall>, a: seq<Placed>, b: seq<Placed>, p: Placed, c: seq<Placed>)
    ensures var all := a + [p] + (b + c);
      && Ids(calls, PartsOf(all)) == Ids(calls, PartsOf(a + b)) + IdOf(calls, p.part) + Ids(calls, PartsOf(c))
      && (RefsOk(calls, PartsOf(all)) <==> RefsOk(calls, PartsOf(a + b)) && RefOk(calls, p.part) && RefsOk(calls, PartsOf(c)))
  {
    PlacedConcat(calls, a, b);
    PlacedConcat(calls, b, c);
    PlacedConcat(calls, a, [p]);
    PlacedConcat(calls, a + [p], b + c);
    PlacedOne(calls, p);
  }

  lemma JoinFour(calls: seq<ToolCall>, a: seq<Placed>, b: seq<Placed>, p: Placed, c: seq<Placed>)
    ensures var all := a + b + [p] + c;
      && Ids(calls, PartsOf(all)) == Ids(calls, PartsOf(a + b)) + IdOf(calls, p.part) + Ids(calls, PartsOf(c))
      && (RefsOk(calls, PartsOf(all)) <==> RefsOk(calls, PartsOf(a + b)) && RefOk(calls, p.part) && RefsOk(calls, PartsOf(c)))
  {
    PlacedConcat(calls, a + b, [p]);
    PlacedConcat(calls, a + b + [p], c);
    PlacedOne(calls, p);
  }

  lemma ViewIds(calls: seq<ToolCall>, part: Part, used: set<string>, n: nat, ids: multiset<string>)
    requires Distinct(ids, used)
    ensures Distinct(ids + Ids(calls, PartsOf(ViewMade(calls, part, used, n))), UsedAfter(calls, part, used))
  {
    var view := ViewMade(calls, part, used, n);
    if MakesArtifact(calls, part) {
      var wanted := "artifact:" + CallOf(calls, part).value.id;
      UniqueIdIsFree(wanted, used);
      PlacedOne(calls, view[0]);
      AddFresh(ids, used, UniqueId(wanted, used));
    } else {
      assert PartsOf(view) == [];
    }
  }

  lemma PlacingStepIds(calls: seq<ToolCall>, part: Part, n: nat, st: Placing, others: multiset<string>, rest: multiset<string>)
    requires RefOk(calls, part) && RefsOk(calls, PartsOf(st.placed + st.pending))
    requires Distinct(others + Ids(calls, PartsOf(st.placed + st.pending)) + (IdOf(calls, part) + rest), st.used)
    ensures var st' := PlaceOne(calls, part, n, st);
      && RefsOk(calls, PartsOf(st'.placed + st'.pending))
      && Distinct(others + Ids(calls, PartsOf(st'.placed + st'.pending)) + rest, st'.used)
  {
    var before := Ids(calls, PartsOf(st.placed + st.pending));
    var view := Ids(calls, PartsOf(ViewMade(calls, part, st.used, n)));
    PlaceOneIds(calls, part, n, st);
    ViewIds(calls, part, st.used, n, others + before + (IdOf(calls, part) + rest));
    RegroupCounts(others, before, IdOf(calls, part), view, rest);
  }

  /** Placing the parts of a turn adds the ids of its artifact views, all of them new. */
  lemma {:induction false} PlacingIds(calls: seq<ToolCall>, parts: seq<Part>, used: set<string>, n: nat, others: multiset<string>)
    requires n <= |parts| && RefsOk(calls, parts)
    requires Distinct(others + Ids(calls, parts), used)
    ensures PlacedDistinct(calls, parts, used, n, others, Ids(calls, parts[n..]))
  {
    if n == 0 {
      NothingPlaced(calls, parts, used, others);
    } else {
      PlacingIds(calls, parts, used, n - 1, others);
      FirstIds(calls, parts, n - 1);
      PlacingNextIds(calls, parts, used, n - 1, others, Ids(calls, parts[n - 1..]), Ids(calls, parts[n..]));
    }
  }

  /** With the first `n` parts placed, all ids are different, those of the rest included. */
  ghost predicate PlacedDistinct(calls: seq<ToolCall>, parts: seq<Part>, used: set<string>, n: nat, others: multiset<string>, rest: multiset<string>)
    requires n <= |parts|
  {
    var st := PlaceUpTo(calls, parts, used, n);
    && RefsOk(calls, PartsOf(st.placed + st.pending))
    && Distinct(others + Ids(calls, PartsOf(st.placed + st.pending)) + rest, st.used)
  }

  lemma PlacingNextIds(calls: seq<ToolCall>, parts: seq<Part>, used: set<string>, n: nat, others: multiset<string>,
                       tail: multiset<string>, rest: multiset<string>)
    requires n < |parts| && RefsOk(calls, parts) && tail == IdOf(calls, parts[n]) + rest
    requires PlacedDistinct(calls, parts, used, n, others, tail)
    ensures PlacedDistinct(calls, parts, used, n + 1, others, rest)
  {
    var st := PlaceUpTo(calls, parts, used, n);
    assert PlaceUpTo(calls, parts, used, n + 1) == PlaceOne(calls, parts[n], n, st);
    assert RefOk(calls, parts[n]);
    PlacingStepIds(calls, parts[n], n, st, others, rest);
  }

  lemma NothingPlaced(calls: seq<ToolCall>, parts: seq<Part>, used: set<string>, others: multiset<string>)
    requires Distinct(others + Ids(calls, parts), used)
    ensures PlacedDistinct(calls, parts, used, 0, others, Ids(calls, parts[0..]))
  {
    assert PartsOf([]) == [] && parts[0..] == parts;
    assert others + Ids(calls, PartsOf([])) + Ids(calls, parts[0..]) == others + Ids(calls, parts);
  }

  lemma FirstIds(calls: seq<ToolCall>, parts: seq<Part>, n: nat)
    requires n < |parts|
    ensures Ids(calls, parts[n..]) == IdOf(calls, parts[n]) + Ids(calls, parts[n + 1..])
  {
    assert parts[n..] == [parts[n]] + parts[n + 1..];
    IdsConcat(calls, [parts[n]], parts[n + 1..]);
    IdsOne(calls, parts[n]);
  }

  lemma RegroupCounts(o: multiset<string>, x: multiset<string>, p: multiset<string>, v: multiset<string>, rest: multiset<string>)
    ensures o + (x + p + v) + rest == o + x + (p + rest) + v
  {
  }

  lemma FilesOneIds(d: Readers, calls: seq<ToolCall>, placed: seq<Placed>, used: set<string>, n: nat, ids: multiset<string>)
    requires 0 < n <= |placed| && MakesFiles(d, calls, placed[n - 1].part)
    requires var st := FilesUpTo(d, calls, placed, used, n - 1);
      RefsOk(calls, PartsOf(st.views)) && Distinct(ids + Ids(calls, PartsOf(st.views)), st.used)
    ensures var st := FilesUpTo(d, calls, placed, used, n);
      RefsOk(calls, PartsOf(st.views)) && Distinct(ids + Ids(calls, PartsOf(st.views)), st.used)
  {
    var before, c := FilesUpTo(d, calls, placed, used, n - 1), CallOf(calls, placed[n - 1].part).value;
    var wanted := "files:" + c.id;
    var last := Placed(FixedPart(FileView(c, UniqueId(wanted, before.used))), Files(placed[n - 1].origin.i));
    UniqueIdIsFree(wanted, before.used);
    PlacedConcat(calls, before.views, [last]);
    PlacedOne(calls, last);
    AddFresh(ids + Ids(calls, PartsOf(before.views)), before.used, UniqueId(wanted, before.used));
    assert ids + Ids(calls, PartsOf(before.views + [last])) ==
      ids + Ids(calls, PartsOf(before.views)) + multiset{UniqueId(wanted, before.used)};
  }

  lemma {:induction false} FilesIds(d: Readers, calls: seq<ToolCall>, placed: seq<Placed>, used: set<string>, n: nat, ids: multiset<string>)
    requires n <= |placed| && Distinct(ids, used)
    ensures var st := FilesUpTo(d, calls, placed, used, n);
      RefsOk(calls, PartsOf(st.views)) && Distinct(ids + Ids(calls, PartsOf(st.views)), st.used)
  {
    if n == 0 {
      assert PartsOf([]) == [];
    } else {
      FilesIds(d, calls, placed, used, n - 1, ids);
      if MakesFiles(d, calls, placed[n - 1].part) {
        FilesOneIds(d, calls, placed, used, n, ids);
      } else {
        var views := FilesUpTo(d, calls, placed, used, n - 1).views;
        assert views + [] == views;
      }
    }
  }

  lemma Splice(calls: seq<ToolCall>, placed: seq<Placed>, views: seq<Placed>, end: nat)
    requires end <= |placed|
    ensures Ids(calls, PartsOf(placed[..end] + views + placed[end..])) == Ids(calls, PartsOf(placed)) + Ids(calls, PartsOf(views))
    ensures RefsOk(calls, PartsOf(placed)) && RefsOk(calls, PartsOf(views)) ==>
      RefsOk(calls, PartsOf(placed[..end] + views + placed[end..]))
  {
    var a, b := placed[..end], placed[end..];
    assert placed == a + b;
    PlacedConcat(calls, a, b);
    PlacedConcat(calls, a, views);
    PlacedConcat(calls, a + views, b);
  }

  lemma PlaceAllIds(d: Readers, calls: seq<ToolCall>, parts: seq<Part>, used: set<string>, others: multiset<string>)
    requires RefsOk(calls, parts) && Distinct(others + Ids(calls, parts), used)
    ensures var all := PlaceAll(d, calls, parts, used);
      RefsOk(calls, PartsOf(all.views)) && Distinct(others + Ids(calls, PartsOf(all.views)), all.used)
  {
    var st := PlaceUpTo(calls, parts, used, |parts|);
    var placed := st.placed + st.pending;
    var files := FilesUpTo(d, calls, placed, st.used, |placed|);
    PlacingIds(calls, parts, used, |parts|, others);
    assert parts[|parts|..] == [];
    var ids := others + Ids(calls, PartsOf(placed));
    assert ids + Ids(calls, parts[|parts|..]) == ids;
    FilesIds(d, calls, placed, st.used, |placed|, ids);
    Splice(calls, placed, files.views, TrailingStart(calls, placed, |placed|));
    assert others + (Ids(calls, PartsOf(placed)) + Ids(calls, PartsOf(files.views))) == ids + Ids(calls, PartsOf(files.views));
  }

  /** A finished message brings the ids of its parts. */
  lemma AddMessage(s: State, m: ThreadMessage, used: set<string>)
    requires Refs(s) && s.turn.None? && RefsOk(s.calls, m.parts)
    requires Distinct(AllIds(s.calls, s.result) + Ids(s.calls, m.parts), used)
    ensures IdInv(s.(result := s.result + [m], used := used))
  {
    var s' := s.(result := s.result + [m], used := used);
    AllIdsPush(s.calls, s.result, m);
    assert StateIds(s') == AllIds(s.calls, s.result) + Ids(s.calls, m.parts);
  }

  lemma CloseTurnIds(d: Readers, s: State)
    requires IdInv(s)
    ensures IdInv(CloseTurn(d, s))
  {
    if s.turn.Some? {
      var all := PlaceAll(d, s.calls, s.turn.value.parts, s.used);
      PlaceAllIds(d, s.calls, s.turn.value.parts, s.used, AllIds(s.calls, s.result));
      if all.views == [] {
        assert AllIds(s.calls, s.result) + Ids(s.calls, PartsOf([])) == StateIds(CloseTurn(d, s));
      } else {
        AddMessage(s.(turn := None), ThreadMessage(Assistant, s.turn.value.id, PartsOf(all.views)), all.used);
      }
    }
  }

  /** Parts without ids of their own leave the ids as they are. */
  lemma {:induction false} PlainParts(calls: seq<ToolCall>, parts: seq<Part>)
    requires forall i :: 0 <= i < |parts| ==> parts[i].TextPart? || parts[i].ReasoningPart?
    ensures Ids(calls, parts) == multiset{} && RefsOk(calls, parts)
  {
    if parts != [] { PlainParts(calls, parts[..|parts| - 1]); }
  }

  lemma {:induction false} BlockPartsPlain(blocks: seq<Block>)
    ensures forall i :: 0 <= i < |BlockParts(blocks)| ==> BlockParts(blocks)[i].TextPart? || BlockParts(blocks)[i].ReasoningPart?
  {
    if blocks != [] { BlockPartsPlain(blocks[..|blocks| - 1]); }
  }

  lemma ContentPartsPlain(calls: seq<ToolCall>, content: Content)
    ensures Ids(calls, ContentParts(content)) == multiset{} && RefsOk(calls, ContentParts(content))
  {
    if content.BlockContent? { BlockPartsPlain(content.blocks); }
    PlainParts(calls, ContentParts(content));
  }

  lemma StepOwnIds(d: Readers, s: State, m: Message, role: Role)
    requires IdInv(s)
    ensures IdInv(StepOwn(d, s, m, role))
  {
    CloseTurnIds(d, s);
    var closed := CloseTurn(d, s);
    ContentPartsPlain(s.calls, m.content);
    if ContentParts(m.content) != [] {
      assert StateIds(closed) == AllIds(s.calls, closed.result) + Ids(s.calls, ContentParts(m.content));
      AddMessage(closed, ThreadMessage(role, Truthy(m.id), ContentParts(m.content)), closed.used);
    }
  }

  lemma AddPartsIds(s: State, id: Option<string>, parts: seq<Part>, extra: set<string>)
    requires IdInv(s) && RefsOk(s.calls, parts)
    requires Distinct(StateIds(s) + Ids(s.calls, parts), s.used + extra)
    ensures IdInv(AddParts(s, id, parts).(used := s.used + extra))
  {
    var t := OpenTurn(s, id);
    IdsConcat(s.calls, t.parts, parts);
  }

  lemma EmitOneIds(s: State, c: WireCall)
    requires IdInv(s) && s.turn.Some?
    ensures IdInv(EmitOne(s, c))
  {
    UniqueIdIsFree(c.id, s.used);
    AddFresh(StateIds(s), s.used, UniqueId(c.id, s.used));
    EmitOneCount(s, c);
  }

  lemma EmitOneCount(s: State, c: WireCall)
    requires Refs(s) && s.turn.Some?
    ensures Refs(EmitOne(s, c))
    ensures StateIds(EmitOne(s, c)) == StateIds(s) + multiset{UniqueId(c.id, s.used)}
  {
    var calls, parts, k := EmitOne(s, c).calls, s.turn.value.parts, |s.calls|;
    AllIdsStable(s.calls, calls, s.result);
    IdsStable(s.calls, calls, parts);
    IdsPush(calls, parts, CallPart(k));
    assert IdOf(calls, CallPart(k)) == multiset{UniqueId(c.id, s.used)};
  }

  lemma {:induction false} EmitIds(s: State, calls: seq<WireCall>, n: nat)
    requires n <= |calls| && IdInv(s) && s.turn.Some?
    ensures IdInv(EmitUpTo(s, calls, n))
  {
    if n > 0 {
      EmitIds(s, calls, n - 1);
      EmitOneIds(EmitUpTo(s, calls, n - 1), calls[n - 1]);
    }
  }

  lemma StepSummaryIds(s: State, m: Message, interactions: seq<nat>)
    requires IdInv(s)
    ensures IdInv(StepSummary(s, m, interactions))
  {
    var id := UniqueId(SummaryId(s, m), s.used);
    var part := FixedPart(ToolCall(id, SUMMARY_NAME, Interactions(interactions), Undefined, false));
    UniqueIdIsFree(SummaryId(s, m), s.used);
    IdsOne(s.calls, part);
    AddFresh(StateIds(s), s.used, id);
    AddPartsIds(s, m.id, [part], {id});
  }

  lemma ProsePlain(calls: seq<ToolCall>, m: Message)
    ensures Ids(calls, ReasoningParts(m) + ContentParts(m.content)) == multiset{}
    ensures RefsOk(calls, ReasoningParts(m) + ContentParts(m.content))
  {
    var a, b := ReasoningParts(m), ContentParts(m.content);
    ContentPartsPlain(calls, m.content);
    PlainParts(calls, a);
    IdsConcat(calls, a, b);
    RefsConcat(calls, a, b);
  }

  lemma ProseIds(s: State, m: Message)
    requires IdInv(s)
    ensures IdInv(AddParts(s, m.id, ReasoningParts(m) + ContentParts(m.content)))
  {
    var parts := ReasoningParts(m) + ContentParts(m.content);
    ProsePlain(s.calls, m);
    AddNothing(s, m.id, parts);
  }

  lemma AddNothing(s: State, id: Option<string>, parts: seq<Part>)
    requires IdInv(s) && RefsOk(s.calls, parts) && Ids(s.calls, parts) == multiset{}
    ensures IdInv(AddParts(s, id, parts))
  {
    AddPartsIds(s, id, parts, {});
    assert AddParts(s, id, parts).(used := s.used + {}) == AddParts(s, id, parts);
  }

  lemma StepAssistantIds(d: Readers, s: State, m: Message)
    requires IdInv(s)
    ensures IdInv(StepAssistant(d, s, m))
  {
    var interactions := d.parseSummary(m.content);
    if |interactions| > 0 {
      StepSummaryIds(s, m, interactions);
    } else if !d.looksLikeSummary(m.content) {
      var s1 := AddParts(s, m.id, ReasoningParts(m) + ContentParts(m.content));
      ProseIds(s, m);
      EmitIds(s1, ToolCalls(m.calls), |ToolCalls(m.calls)|);
    }
  }

  lemma StepToolIds(d: Readers, s: State, m: Message)
    requires IdInv(s)
    ensures IdInv(StepTool(d, s, m))
  {
    var s' := StepTool(d, s, m);
    AllIdsStable(s.calls, s'.calls, s.result);
    if s.turn.Some? { IdsStable(s.calls, s'.calls, s.turn.value.parts); }
  }

  lemma StepIds(d: Readers, s: State, m: Message)
    requires IdInv(s)
    ensures IdInv(Step(d, s, m))
  {
    if IsTool(m) { StepToolIds(d, s, m); }
    else if IsUser(m) { StepOwnIds(d, s, m, User); }
    else if IsAssistant(m) { StepAssistantIds(d, s, m); }
    else if IsSystem(m) { StepOwnIds(d, s, m, System); }
  }

  lemma {:induction false} FoldIds(d: Readers, s: State, messages: seq<Message>)
    requires IdInv(s)
    ensures IdInv(FoldMessages(d, s, messages))
  {
    if messages != [] {
      FoldIds(d, s, messages[..|messages| - 1]);
      StepIds(d, FoldMessages(d, s, messages[..|messages| - 1]), messages[|messages| - 1]);
    }
  }

  // ------------------------------------------------------------------- theorem

  predicate HasId(calls: seq<ToolCall>, p: Part, id: string) {
    CallOf(calls, p).Some? && CallOf(calls, p).value.id == id
  }

  lemma {:induction false} IdOccurs(calls: seq<ToolCall>, parts: seq<Part>, i: nat, j: nat, id: string)
    requires i < |parts| && j < |parts| && HasId(calls, parts[i], id) && HasId(calls, parts[j], id)
    ensures Ids(calls, parts)[id] >= (if i == j then 1 else 2)
  {
    var n := |parts| - 1;
    if i == n && j == n {
    } else if i == n {
      IdOccurs(calls, parts[..n], j, j, id);
    } else if j == n {
      IdOccurs(calls, parts[..n], i, i, id);
    } else {
      IdOccurs(calls, parts[..n], i, j, id);
    }
  }

  lemma LastCount(calls: seq<ToolCall>, messages: seq<ThreadMessage>, id: string)
    requires messages != []
    ensures var n := |messages| - 1;
      AllIds(calls, messages)[id] == AllIds(calls, messages[..n])[id] + Ids(calls, messages[n].parts)[id]
  {
  }

  lemma IdOccursOnce(calls: seq<ToolCall>, messages: seq<ThreadMessage>, a: nat, i: nat, id: string)
    requires a < |messages| && i < |messages[a].parts| && HasId(calls, messages[a].parts[i], id)
    ensures AllIds(calls, messages)[id] >= 1
  {
    CountAt(calls, messages, a, id);
    IdOccurs(calls, messages[a].parts, i, i, id);
  }

  /** The first messages hold no more of an id than all of them. */
  lemma {:induction false} CountMonotone(calls: seq<ToolCall>, messages: seq<ThreadMessage>, n: nat, id: string)
    requires n <= |messages|
    ensures AllIds(calls, messages[..n])[id] <= AllIds(calls, messages)[id]
    decreases |messages| - n
  {
    if n == |messages| {
      assert messages[..n] == messages;
    } else {
      assert messages[..n + 1][..n] == messages[..n];
      LastCount(calls, messages[..n + 1], id);
      CountMonotone(calls, messages, n + 1, id);
    }
  }

  lemma CountAt(calls: seq<ToolCall>, messages: seq<ThreadMessage>, a: nat, id: string)
    requires a < |messages|
    ensures AllIds(calls, messages)[id] >= AllIds(calls, messages[..a])[id] + Ids(calls, messages[a].parts)[id]
  {
    assert messages[..a + 1][..a] == messages[..a];
    LastCount(calls, messages[..a + 1], id);
    CountMonotone(calls, messages, a + 1, id);
  }

  lemma IdOccursTwice(calls: seq<ToolCall>, messages: seq<ThreadMessage>, a: nat, i: nat, b: nat, j: nat, id: string)
    requires a < |messages| && b < |messages| && i < |messages[a].parts| && j < |messages[b].parts|
    requires a < b || (a == b && i != j)
    requires HasId(calls, messages[a].parts[i], id) && HasId(calls, messages[b].parts[j], id)
    ensures AllIds(calls, messages)[id] >= 2
  {
    CountAt(calls, messages, b, id);
    if a < b {
      IdOccurs(calls, messages[b].parts, j, j, id);
      IdOccursOnce(calls, messages[..b], a, i, id);
    } else {
      IdOccurs(calls, messages[b].parts, i, j, id);
    }
  }

  lemma CountAtMostOne(s: State, id: string)
    requires IdInv(s) && s.turn.None?
    ensures AllIds(s.calls, s.result)[id] <= 1
  {
    assert StateIds(s) == AllIds(s.calls, s.result);
    if id in StateIds(s) { assert StateIds(s)[id] == 1; }
  }

  lemma DistinctPlaces(s: State, a: nat, i: nat, b: nat, j: nat)
    requires IdInv(s) && s.turn.None? && (a < b || (a == b && i != j))
    requires a < |s.result| && b < |s.result| && i < |s.result[a].parts| && j < |s.result[b].parts|
    requires CallOf(s.calls, s.result[a].parts[i]).Some? && CallOf(s.calls, s.result[b].parts[j]).Some?
    ensures CallOf(s.calls, s.result[a].parts[i]).value.id != CallOf(s.calls, s.result[b].parts[j]).value.id
  {
    var id := CallOf(s.calls, s.result[a].parts[i]).value.id;
    CountAtMostOne(s, id);
    if CallOf(s.calls, s.result[b].parts[j]).value.id == id {
      IdOccursTwice(s.calls, s.result, a, i, b, j, id);
    }
  }

  lemma ClosedIds(d: Readers, messages: seq<Message>)
    ensures var s := CloseTurn(d, FoldMessages(d, START, messages)); IdInv(s) && s.turn.None?
  {
    FoldIds(d, START, messages);
    CloseTurnIds(d, FoldMessages(d, START, messages));
  }

  /** In the conversion of any message list, the tool-call parts at any two places,
      synthetic ones included, have different ids. */
  lemma UniquePartIds(d: Readers, messages: seq<Message>, a: nat, i: nat, b: nat, j: nat)
    ensures var out := ToThreadMessages(d, messages);
      a < |out| && b < |out| && i < |out[a].parts| && j < |out[b].parts| && (a, i) != (b, j)
      && out[a].parts[i].FixedPart? && out[b].parts[j].FixedPart? ==>
        out[a].parts[i].call.id != out[b].parts[j].call.id
  {
    var s := CloseTurn(d, FoldMessages(d, START, messages));
    ClosedIds(d, messages);
    var out := ToThreadMessages(d, messages);
    if a < |out| && b < |out| && i < |out[a].parts| && j < |out[b].parts| && (a, i) != (b, j)
       && out[a].parts[i].FixedPart? && out[b].parts[j].FixedPart?
    {
      if a < b || a == b { DistinctPlaces(s, a, i, b, j); } else { DistinctPlaces(s, b, j, a, i); }
    }
  }
}
