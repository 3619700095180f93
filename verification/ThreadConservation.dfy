/** Reading a conversion from front to back: it neither loses, nor repeats, nor reorders
    anything the messages say, and every call stands with its own result. */
module ThreadConservation {
  import opened Options
  import opened ThreadModel
  import opened ThreadMeaning
  import opened ThreadTheorems
  import opened Collections
  import ThreadIds
  import ThreadPlacement

  // --------------------------------------------------------- what a conversion shows

  /** A view says nothing of its own. */
  function EntryOf(role: Role, p: Part): seq<Entry> {
    match p
    case TextPart(t) => [Entry(role, Said(t))]
    case ReasoningPart(t) => [Entry(role, Thought(t))]
    case CallPart(k) => [Entry(role, CallNo(k))]
    case FixedPart(c) => if c.name == SUMMARY_NAME then [Entry(role, Summed(c.args))] else []
  }

  function EntriesOf(role: Role, parts: seq<Part>): seq<Entry> {
    if parts == [] then []
    else EntriesOf(role, parts[..|parts| - 1]) + EntryOf(role, parts[|parts| - 1])
  }

  function Flat(messages: seq<ThreadMessage>): seq<Entry> {
    if messages == [] then []
    else
      var last := messages[|messages| - 1];
      Flat(messages[..|messages| - 1]) + EntriesOf(last.role, last.parts)
  }

  function TurnEntries(s: State): seq<Entry> {
    if s.turn.Some? then EntriesOf(Assistant, s.turn.value.parts) else []
  }

  function StateEntries(s: State): seq<Entry> {
    Flat(s.result) + TurnEntries(s)
  }

  // ------------------------------------------------------------------- small steps

  lemma {:induction false} EntriesConcat(role: Role, a: seq<Part>, b: seq<Part>)
    ensures EntriesOf(role, a + b) == EntriesOf(role, a) + EntriesOf(role, b)
  {
    if b == [] {
      assert a + b == a;
    } else {
      assert (a + b)[..|a + b| - 1] == a + b[..|b| - 1];
      EntriesConcat(role, a, b[..|b| - 1]);
    }
  }

  lemma EntriesOne(role: Role, p: Part)
    ensures EntriesOf(role, [p]) == EntryOf(role, p)
  {
    assert [p][..0] == [];
  }

  lemma FlatPush(messages: seq<ThreadMessage>, m: ThreadMessage)
    ensures Flat(messages + [m]) == Flat(messages) + EntriesOf(m.role, m.parts)
  {
    assert (messages + [m])[..|messages|] == messages;
  }

  // ------------------------------------------------------------------ closing a turn

  /** A view in a closed turn says nothing, so the turn says what its own parts say. */
  lemma {:induction false} OwnSays(d: Readers, calls: seq<ToolCall>, parts: seq<Part>, placed: seq<Placed>)
    requires ThreadPlacement.AllGenuine(d, calls, parts, placed)
    ensures EntriesOf(Assistant, PartsOf(placed)) == EntriesOf(Assistant, ThreadPlacement.Own(placed))
  {
    if placed != [] {
      var n := |placed| - 1;
      OwnSays(d, calls, parts, placed[..n]);
      assert PartsOf(placed)[..n] == PartsOf(placed[..n]);
      assert ThreadPlacement.Genuine(d, calls, parts, placed[n]);
      LastSays(Assistant, ThreadPlacement.Own(placed[..n]), placed[n].part);
      ViewSaysNothing(d, calls, parts, placed[n]);
      if !placed[n].origin.Original? { assert ThreadPlacement.Own(placed[..n]) + [] == ThreadPlacement.Own(placed[..n]); }
    }
  }

  lemma LastSays(role: Role, parts: seq<Part>, p: Part)
    ensures EntriesOf(role, parts + [p]) == EntriesOf(role, parts) + EntryOf(role, p)
  {
    EntriesConcat(role, parts, [p]);
    EntriesOne(role, p);
  }

  lemma ViewSaysNothing(d: Readers, calls: seq<ToolCall>, parts: seq<Part>, p: Placed)
    requires ThreadPlacement.Genuine(d, calls, parts, p)
    ensures !p.origin.Original? ==> EntryOf(Assistant, p.part) == []
  {
  }

  lemma ClosedTurnSays(d: Readers, calls: seq<ToolCall>, parts: seq<Part>, used: set<string>)
    ensures EntriesOf(Assistant, PartsOf(PlaceAll(d, calls, parts, used).views)) == EntriesOf(Assistant, parts)
  {
    ThreadPlacement.ClosedTurnRanked(d, calls, parts, used);
    ThreadPlacement.Conservative(d, calls, parts, used);
    OwnSays(d, calls, parts, PlaceAll(d, calls, parts, used).views);
  }

  lemma CloseTurnSays(d: Readers, s: State)
    ensures StateEntries(CloseTurn(d, s)) == StateEntries(s)
  {
    if s.turn.Some? {
      var views := PlaceAll(d, s.calls, s.turn.value.parts, s.used).views;
      ClosedTurnSays(d, s.calls, s.turn.value.parts, s.used);
      if views == [] {
        assert PartsOf(views) == [];
      } else {
        FlatPush(s.result, ThreadMessage(Assistant, s.turn.value.id, PartsOf(views)));
      }
    }
  }

  // -------------------------------------------------------------------- one message

  lemma {:induction false} BlocksSayLast(role: Role, blocks: seq<Block>, b: Block)
    ensures BlocksSay(role, blocks + [b]) == BlocksSay(role, blocks) + BlockSays(role, b)
  {
    if blocks == [] {
      assert BlocksSay(role, [b][1..]) == [];
    } else {
      assert (blocks + [b])[1..] == blocks[1..] + [b];
      BlocksSayLast(role, blocks[1..], b);
      Associate(BlockSays(role, blocks[0]), BlocksSay(role, blocks[1..]), BlockSays(role, b));
    }
  }

  lemma BlockPartsLast(blocks: seq<Block>, b: Block)
    ensures BlockParts(blocks + [b]) == BlockParts(blocks) + BlockParts([b])
    ensures BlockParts([b]) ==
      match b
      case StringBlock(t) => (if t == "" then [] else [TextPart(t)])
      case TextBlock(t) => (if t == "" then [] else [TextPart(t)])
      case ReasoningBlock(t) => (if t == "" then [] else [ReasoningPart(t)])
      case OtherBlock => []
  {
    assert (blocks + [b])[..|blocks|] == blocks && [b][..0] == [];
  }

  lemma BlockAgrees(role: Role, b: Block)
    ensures EntriesOf(role, BlockParts([b])) == BlockSays(role, b)
  {
    BlockPartsLast([], b);
    match b
    case StringBlock(t) => EntriesOne(role, TextPart(t));
    case TextBlock(t) => EntriesOne(role, TextPart(t));
    case ReasoningBlock(t) => EntriesOne(role, ReasoningPart(t));
    case OtherBlock =>
  }

  /** The parts made of content blocks say what the blocks say. */
  lemma {:induction false} BlocksAgree(role: Role, blocks: seq<Block>)
    ensures EntriesOf(role, BlockParts(blocks)) == BlocksSay(role, blocks)
  {
    if blocks != [] {
      var n := |blocks| - 1;
      BlocksAgree(role, blocks[..n]);
      BlocksSayLast(role, blocks[..n], blocks[n]);
      BlockPartsLast(blocks[..n], blocks[n]);
      EntriesConcat(role, BlockParts(blocks[..n]), BlockParts([blocks[n]]));
      BlockAgrees(role, blocks[n]);
      assert blocks == blocks[..n] + [blocks[n]];
    }
  }

  lemma ContentAgrees(role: Role, content: Content)
    ensures EntriesOf(role, ContentParts(content)) == ContentSays(role, content)
  {
    match content
    case TextContent(t) => EntriesOne(role, TextPart(t));
    case BlockContent(blocks, _) => BlocksAgree(role, blocks);
    case OtherContent(_) =>
  }

  lemma ProseAgrees(m: Message)
    ensures EntriesOf(Assistant, ReasoningParts(m) + ContentParts(m.content)) ==
      Inward(Assistant, m.reasoning) + ContentSays(Assistant, m.content)
  {
    EntriesConcat(Assistant, ReasoningParts(m), ContentParts(m.content));
    EntriesOne(Assistant, ReasoningPart(m.reasoning));
    ContentAgrees(Assistant, m.content);
  }

  lemma AddPartsSays(s: State, id: Option<string>, parts: seq<Part>)
    ensures StateEntries(AddParts(s, id, parts)) == StateEntries(s) + EntriesOf(Assistant, parts)
  {
    var t := OpenTurn(s, id);
    EntriesConcat(Assistant, t.parts, parts);
    Associate(Flat(s.result), TurnEntries(s), EntriesOf(Assistant, parts));
  }

  lemma EmitOneSays(s: State, c: WireCall)
    requires s.turn.Some?
    ensures StateEntries(EmitOne(s, c)) == StateEntries(s) + [Entry(Assistant, CallNo(|s.calls|))]
  {
    EntriesConcat(Assistant, s.turn.value.parts, [CallPart(|s.calls|)]);
    EntriesOne(Assistant, CallPart(|s.calls|));
  }

  lemma {:induction false} EmitSays(s: State, calls: seq<WireCall>, n: nat)
    requires n <= |calls| && s.turn.Some?
    ensures var s' := EmitUpTo(s, calls, n);
      |s'.calls| == |s.calls| + n && StateEntries(s') == StateEntries(s) + CallEntries(|s.calls|, n)
  {
    if n == 0 {
      assert StateEntries(s) + CallEntries(|s.calls|, 0) == StateEntries(s);
    } else {
      EmitSays(s, calls, n - 1);
      assert EmitUpTo(s, calls, n) == EmitOne(EmitUpTo(s, calls, n - 1), calls[n - 1]);
      EmitNextSays(StateEntries(s), |s.calls|, EmitUpTo(s, calls, n - 1), calls[n - 1], n);
    }
  }

  lemma EmitNextSays(before: seq<Entry>, from: nat, s: State, c: WireCall, n: nat)
    requires n > 0 && s.turn.Some? && |s.calls| == from + n - 1
    requires StateEntries(s) == before + CallEntries(from, n - 1)
    ensures StateEntries(EmitOne(s, c)) == before + CallEntries(from, n)
  {
    EmitOneSays(s, c);
    Associate(before, CallEntries(from, n - 1), [Entry(Assistant, CallNo(|s.calls|))]);
  }

  lemma StepOwnSays(d: Readers, s: State, m: Message, role: Role)
    ensures StateEntries(StepOwn(d, s, m, role)) == StateEntries(s) + ContentSays(role, m.content)
  {
    var closed, content := CloseTurn(d, s), ContentParts(m.content);
    CloseTurnSays(d, s);
    ContentAgrees(role, m.content);
    if content == [] {
      assert StateEntries(s) + [] == StateEntries(s);
    } else {
      OwnMessageSays(closed, ThreadMessage(role, Truthy(m.id), content));
    }
  }

  lemma OwnMessageSays(s: State, m: ThreadMessage)
    requires s.turn.None?
    ensures StateEntries(s.(result := s.result + [m])) == StateEntries(s) + EntriesOf(m.role, m.parts)
  {
    FlatPush(s.result, m);
  }

  lemma ProseSays(s: State, m: Message)
    ensures var prose, calls := ReasoningParts(m) + ContentParts(m.content), ToolCalls(m.calls);
      StateEntries(EmitUpTo(AddParts(s, m.id, prose), calls, |calls|)) ==
        StateEntries(s) + (Inward(Assistant, m.reasoning) + ContentSays(Assistant, m.content) + CallEntries(|s.calls|, |Named(m.calls)|))
  {
    var prose, calls := ReasoningParts(m) + ContentParts(m.content), ToolCalls(m.calls);
    ProseAgrees(m);
    CallsAgree(m.calls);
    AddPartsSays(s, m.id, prose);
    EmitSays(AddParts(s, m.id, prose), calls, |calls|);
    Associate(StateEntries(s), EntriesOf(Assistant, prose), CallEntries(|s.calls|, |calls|));
  }

  lemma SummarySays(s: State, m: Message, interactions: seq<nat>)
    ensures StateEntries(StepSummary(s, m, interactions)) == StateEntries(s) + [Entry(Assistant, Summed(Interactions(interactions)))]
  {
    var part := FixedPart(ToolCall(UniqueId(SummaryId(s, m), s.used), SUMMARY_NAME, Interactions(interactions), Undefined, false));
    AddPartsSays(s, m.id, [part]);
    EntriesOne(Assistant, part);
  }

  lemma StepAssistantSays(d: Readers, s: State, m: Message)
    requires Speaker(m.kind) == Some(Assistant)
    ensures StateEntries(StepAssistant(d, s, m)) == StateEntries(s) + MessageEntries(d, m, |s.calls|)
  {
    var interactions := d.parseSummary(m.content);
    if |interactions| > 0 {
      SummarySays(s, m, interactions);
    } else if d.looksLikeSummary(m.content) {
      assert StateEntries(s) + [] == StateEntries(s);
    } else {
      ProseSays(s, m);
    }
  }

  lemma StepToolSays(d: Readers, s: State, m: Message)
    ensures StateEntries(StepTool(d, s, m)) == StateEntries(s)
  {
  }

  lemma StepSays(d: Readers, s: State, m: Message)
    ensures StateEntries(Step(d, s, m)) == StateEntries(s) + MessageEntries(d, m, |s.calls|)
  {
    StepBySpeaker(d, s, m);
    match Speaker(m.kind)
    case None => {
      StepToolSays(d, s, m);
      assert StateEntries(s) + [] == StateEntries(s);
    }
    case Some(role) =>
      if role == Assistant { StepAssistantSays(d, s, m); } else { StepOwnSays(d, s, m, role); }
  }

  lemma {:induction false} FoldSays(d: Readers, messages: seq<Message>)
    ensures StateEntries(FoldMessages(d, START, messages)) == AllEntries(d, messages)
  {
    if messages != [] {
      var before := messages[..|messages| - 1];
      FoldSays(d, before);
      FoldTable(d, before);
      StepSays(d, FoldMessages(d, START, before), messages[|messages| - 1]);
    }
  }

  // ------------------------------------------------------- every call is said once

  function CallNumbers(entries: seq<Entry>): seq<nat> {
    if entries == [] then []
    else
      var last := entries[|entries| - 1].item;
      CallNumbers(entries[..|entries| - 1]) + (if last.CallNo? then [last.k] else [])
  }

  function Count(from: nat, count: nat): (r: seq<nat>)
    ensures |r| == count && forall i :: 0 <= i < count ==> r[i] == from + i
  {
    seq(count, i requires 0 <= i < count => from + i)
  }

  lemma {:induction false} NumbersConcat(a: seq<Entry>, b: seq<Entry>)
    ensures CallNumbers(a + b) == CallNumbers(a) + CallNumbers(b)
  {
    if b == [] {
      assert a + b == a;
    } else {
      assert (a + b)[..|a + b| - 1] == a + b[..|b| - 1];
      NumbersConcat(a, b[..|b| - 1]);
    }
  }

  lemma {:induction false} NumbersOfCalls(from: nat, count: nat)
    ensures CallNumbers(CallEntries(from, count)) == Count(from, count)
  {
    if count > 0 {
      NumbersOfCalls(from, count - 1);
      assert CallEntries(from, count)[..count - 1] == CallEntries(from, count - 1);
    }
  }

  ghost predicate NoCalls(entries: seq<Entry>) {
    forall i :: 0 <= i < |entries| ==> !entries[i].item.CallNo?
  }

  lemma {:induction false} NoNumbers(entries: seq<Entry>)
    requires NoCalls(entries)
    ensures CallNumbers(entries) == []
  {
    if entries != [] { NoNumbers(entries[..|entries| - 1]); }
  }

  lemma {:induction false} BlocksSayNoCalls(role: Role, blocks: seq<Block>)
    ensures NoCalls(BlocksSay(role, blocks))
  {
    if blocks != [] { BlocksSayNoCalls(role, blocks[1..]); }
  }

  lemma ContentSaysNoCalls(role: Role, content: Content)
    ensures NoCalls(ContentSays(role, content))
  {
    if content.BlockContent? { BlocksSayNoCalls(role, content.blocks); }
  }

  lemma ContentIsPlain(m: Message)
    ensures var parts := ReasoningParts(m) + ContentParts(m.content);
      forall i :: 0 <= i < |parts| ==> parts[i].TextPart? || parts[i].ReasoningPart?
    ensures forall i :: 0 <= i < |ContentParts(m.content)| ==> ContentParts(m.content)[i].TextPart? || ContentParts(m.content)[i].ReasoningPart?
  {
    if m.content.BlockContent? { ThreadIds.BlockPartsPlain(m.content.blocks); }
  }

  lemma MessageNumbers(d: Readers, m: Message, from: nat)
    ensures CallNumbers(MessageEntries(d, m, from)) == Count(from, |Emitted(d, m)|)
  {
    match Speaker(m.kind)
    case None =>
    case Some(role) =>
      if Emitted(d, m) != [] || (role == Assistant && |d.parseSummary(m.content)| == 0 && !d.looksLikeSummary(m.content)) {
        ProseNumbers(m, from, |Emitted(d, m)|);
      } else {
        ContentSaysNoCalls(role, m.content);
        NoNumbers(MessageEntries(d, m, from));
      }
  }

  lemma ProseNumbers(m: Message, from: nat, count: nat)
    ensures CallNumbers(Inward(Assistant, m.reasoning) + ContentSays(Assistant, m.content) + CallEntries(from, count)) == Count(from, count)
  {
    var prose := Inward(Assistant, m.reasoning) + ContentSays(Assistant, m.content);
    ContentSaysNoCalls(Assistant, m.content);
    NoNumbers(prose);
    NumbersOfCalls(from, count);
    NumbersConcat(prose, CallEntries(from, count));
  }

  /** Every emitted call is said exactly once, and in the order of emission. */
  lemma {:induction false} CallsSaidOnce(d: Readers, messages: seq<Message>)
    ensures CallNumbers(AllEntries(d, messages)) == Count(0, |Emissions(d, messages)|)
  {
    if messages != [] {
      var n := |messages| - 1;
      var from := |Emissions(d, messages[..n])|;
      CallsSaidOnce(d, messages[..n]);
      MessageNumbers(d, messages[n], from);
      NumbersConcat(AllEntries(d, messages[..n]), MessageEntries(d, messages[n], from));
      CountJoin(from, |Emitted(d, messages[n])|);
    }
  }

  lemma CountJoin(a: nat, b: nat)
    ensures Count(0, a) + Count(a, b) == Count(0, a + b)
  {
  }

  // ----------------------------------------------------------------- where it is said

  datatype Place = Place(message: nat, part: nat)

  predicate Earlier(a: Place, b: Place) {
    a.message < b.message || (a.message == b.message && a.part < b.part)
  }

  predicate InRange(messages: seq<ThreadMessage>, p: Place) {
    p.message < |messages| && p.part < |messages[p.message].parts|
  }

  function PartPlaces(a: nat, role: Role, parts: seq<Part>): seq<Place> {
    if parts == [] then []
    else
      var n := |parts| - 1;
      PartPlaces(a, role, parts[..n]) + (if EntryOf(role, parts[n]) == [] then [] else [Place(a, n)])
  }

  function PlacesOf(messages: seq<ThreadMessage>): seq<Place> {
    if messages == [] then []
    else
      var n := |messages| - 1;
      PlacesOf(messages[..n]) + PartPlaces(n, messages[n].role, messages[n].parts)
  }

  /** The places of one message, alone in its list position. */
  ghost predicate PartsMatch(a: nat, role: Role, parts: seq<Part>, places: seq<Place>, entries: seq<Entry>) {
    && |places| == |entries|
    && (forall j :: 0 <= j < |places| ==> places[j].message == a && places[j].part < |parts|
                                          && EntryOf(role, parts[places[j].part]) == [entries[j]])
    && (forall j, k :: 0 <= j < k < |places| ==> places[j].part < places[k].part)
    && (forall i :: 0 <= i < |parts| && EntryOf(role, parts[i]) != [] ==> Place(a, i) in places)
  }

  lemma {:induction false} PartPlacesMatch(a: nat, role: Role, parts: seq<Part>)
    ensures PartsMatch(a, role, parts, PartPlaces(a, role, parts), EntriesOf(role, parts))
  {
    if parts != [] {
      var n := |parts| - 1;
      PartPlacesMatch(a, role, parts[..n]);
      assert parts == parts[..n] + [parts[n]];
      OnePartMore(a, role, parts[..n], parts[n], PartPlaces(a, role, parts[..n]), EntriesOf(role, parts[..n]));
    }
  }

  lemma OnePartMore(a: nat, role: Role, parts: seq<Part>, p: Part, places: seq<Place>, entries: seq<Entry>)
    requires PartsMatch(a, role, parts, places, entries)
    ensures PartsMatch(a, role, parts + [p], places + (if EntryOf(role, p) == [] then [] else [Place(a, |parts|)]),
                       entries + EntryOf(role, p))
  {
    var longer := parts + [p];
    var all := places + (if EntryOf(role, p) == [] then [] else [Place(a, |parts|)]);
    forall i | 0 <= i < |longer| && EntryOf(role, longer[i]) != [] ensures Place(a, i) in all {
      if i < |parts| { assert longer[i] == parts[i] && Place(a, i) in places; }
    }
  }

  function PartAt(messages: seq<ThreadMessage>, p: Place): Part
    requires InRange(messages, p)
  {
    messages[p.message].parts[p.part]
  }

  function Says(messages: seq<ThreadMessage>, p: Place): seq<Entry>
    requires InRange(messages, p)
  {
    EntryOf(messages[p.message].role, PartAt(messages, p))
  }

  ghost predicate ReadingOrder(messages: seq<ThreadMessage>, places: seq<Place>) {
    && (forall j :: 0 <= j < |places| ==> InRange(messages, places[j]))
    && (forall j, k :: 0 <= j < k < |places| ==> Earlier(places[j], places[k]))
  }

  /** Read at these places the messages say these entries, and at no other place anything. */
  ghost predicate Matches(messages: seq<ThreadMessage>, places: seq<Place>, entries: seq<Entry>) {
    && ReadingOrder(messages, places) && |places| == |entries|
    && (forall j :: 0 <= j < |places| ==> Says(messages, places[j]) == [entries[j]])
    && (forall p :: InRange(messages, p) && Says(messages, p) != [] ==> p in places)
  }

  lemma {:induction false} PlacesMatch(messages: seq<ThreadMessage>)
    ensures Matches(messages, PlacesOf(messages), Flat(messages))
  {
    if messages != [] {
      var n := |messages| - 1;
      PlacesMatch(messages[..n]);
      PartPlacesMatch(n, messages[n].role, messages[n].parts);
      assert messages == messages[..n] + [messages[n]];
      MatchesJoin(messages[..n], messages[n], PlacesOf(messages[..n]), Flat(messages[..n]),
                  PartPlaces(n, messages[n].role, messages[n].parts), EntriesOf(messages[n].role, messages[n].parts));
    }
  }

  lemma SaysStill(messages: seq<ThreadMessage>, m: ThreadMessage, p: Place)
    requires InRange(messages, p)
    ensures InRange(messages + [m], p) && Says(messages + [m], p) == Says(messages, p)
  {
  }

  lemma SaysLast(messages: seq<ThreadMessage>, m: ThreadMessage, p: Place)
    requires p.message == |messages| && p.part < |m.parts|
    ensures InRange(messages + [m], p) && Says(messages + [m], p) == EntryOf(m.role, m.parts[p.part])
  {
  }

  lemma MatchesJoin(messages: seq<ThreadMessage>, m: ThreadMessage, places: seq<Place>, entries: seq<Entry>,
                    more: seq<Place>, others: seq<Entry>)
    requires Matches(messages, places, entries) && PartsMatch(|messages|, m.role, m.parts, more, others)
    ensures Matches(messages + [m], places + more, entries + others)
  {
    var longer, all := messages + [m], places + more;
    forall j | 0 <= j < |all| ensures InRange(longer, all[j]) && Says(longer, all[j]) == [(entries + others)[j]] {
      if j < |places| { SaysStill(messages, m, places[j]); } else { SaysLast(messages, m, more[j - |places|]); }
    }
    forall p | InRange(longer, p) && Says(longer, p) != [] ensures p in all {
      if p.message < |messages| {
        assert InRange(messages, p);
        SaysStill(messages, m, p);
      } else {
        SaysLast(messages, m, p);
        assert p == Place(|messages|, p.part);
      }
    }
  }

  // -------------------------------------------------------------- what else is shown

  /** A fixed part is a summary or a view. */
  predicate Synthetic(p: Part) {
    p.FixedPart? ==> p.call.name == SUMMARY_NAME || IsView(p)
  }

  predicate IsView(p: Part) {
    p.FixedPart? && (p.call.name == ARTIFACT_VIEW_NAME || p.call.name == FILE_VIEW_NAME)
  }

  ghost predicate AllSynthetic(parts: seq<Part>) {
    forall i :: 0 <= i < |parts| ==> Synthetic(parts[i])
  }

  ghost predicate SyntheticState(s: State) {
    && (forall a :: 0 <= a < |s.result| ==> AllSynthetic(s.result[a].parts))
    && (s.turn.Some? ==> AllSpoken(s.turn.value.parts))
  }

  /** A turn that is still open holds no views. */
  ghost predicate AllSpoken(parts: seq<Part>) {
    forall i :: 0 <= i < |parts| ==> (parts[i].FixedPart? ==> parts[i].call.name == SUMMARY_NAME)
  }

  lemma CloseTurnSynthetic(d: Readers, s: State)
    requires SyntheticState(s)
    ensures SyntheticState(CloseTurn(d, s))
  {
    if s.turn.Some? {
      var views := PlaceAll(d, s.calls, s.turn.value.parts, s.used).views;
      ThreadPlacement.ClosedTurnRanked(d, s.calls, s.turn.value.parts, s.used);
      forall i | 0 <= i < |views| ensures Synthetic(views[i].part) {
        assert ThreadPlacement.Genuine(d, s.calls, s.turn.value.parts, views[i]);
      }
    }
  }

  lemma {:induction false} EmitSynthetic(s: State, calls: seq<WireCall>, n: nat)
    requires n <= |calls| && s.turn.Some? && SyntheticState(s)
    ensures SyntheticState(EmitUpTo(s, calls, n))
  {
    if n > 0 { EmitSynthetic(s, calls, n - 1); }
  }

  lemma StepSynthetic(d: Readers, s: State, m: Message)
    requires SyntheticState(s)
    ensures SyntheticState(Step(d, s, m))
  {
    if IsUser(m) || IsSystem(m) {
      OwnSynthetic(d, s, m);
    } else if IsAssistant(m) {
      AssistantSynthetic(d, s, m);
    }
  }

  lemma OwnSynthetic(d: Readers, s: State, m: Message)
    requires SyntheticState(s)
    ensures forall role :: SyntheticState(StepOwn(d, s, m, role))
  {
    ContentIsPlain(m);
    CloseTurnSynthetic(d, s);
  }

  lemma AddSynthetic(s: State, id: Option<string>, parts: seq<Part>)
    requires SyntheticState(s) && AllSpoken(parts)
    ensures SyntheticState(AddParts(s, id, parts))
  {
  }

  lemma AssistantSynthetic(d: Readers, s: State, m: Message)
    requires SyntheticState(s)
    ensures SyntheticState(StepAssistant(d, s, m))
  {
    var prose, interactions := ReasoningParts(m) + ContentParts(m.content), d.parseSummary(m.content);
    if |interactions| > 0 {
      AddSynthetic(s, m.id, [FixedPart(ToolCall(UniqueId(SummaryId(s, m), s.used), SUMMARY_NAME, Interactions(interactions), Undefined, false))]);
    } else if !d.looksLikeSummary(m.content) {
      ContentIsPlain(m);
      AddSynthetic(s, m.id, prose);
      EmitSynthetic(AddParts(s, m.id, prose), ToolCalls(m.calls), |ToolCalls(m.calls)|);
    }
  }

  lemma {:induction false} FoldSynthetic(d: Readers, messages: seq<Message>)
    ensures SyntheticState(FoldMessages(d, START, messages))
  {
    if messages != [] {
      FoldSynthetic(d, messages[..|messages| - 1]);
      StepSynthetic(d, FoldMessages(d, START, messages[..|messages| - 1]), messages[|messages| - 1]);
    }
  }

  // ------------------------------------------------------------------------ theorems

  /** A part of the output shows an entry: the text, the reasoning, the summary, or the
      very call that was emitted under this number. */
  ghost predicate Shows(d: Readers, messages: seq<Message>, part: Part, item: Item) {
    match item
    case Said(t) => part == TextPart(t)
    case Thought(t) => part == ReasoningPart(t)
    case Summed(args) => part.FixedPart? && part.call.name == SUMMARY_NAME && part.call.args == args
    case CallNo(k) => part.FixedPart? && k < |Emissions(d, messages)| && SameCall(part.call, Emissions(d, messages)[k].call)
  }

  /** Read at these places, in reading order, the output says exactly what the messages say,
      under the same roles; everything else in it is an artifact or file view. */
  ghost predicate Reads(d: Readers, messages: seq<Message>, out: seq<ThreadMessage>, places: seq<Place>) {
    var entries := AllEntries(d, messages);
    && ReadingOrder(out, places) && |places| == |entries|
    && (forall j :: 0 <= j < |places| ==>
          out[places[j].message].role == entries[j].role && Shows(d, messages, PartAt(out, places[j]), entries[j].item))
    && (forall p :: InRange(out, p) && p !in places ==> IsView(PartAt(out, p)))
  }

  /** The call emitted as the `k`-th carries at its place what the messages after it and
      before the next call under its wire id report. */
  ghost predicate CallJoined(d: Readers, messages: seq<Message>, out: seq<ThreadMessage>, place: Place, k: nat, q: nat)
    requires NextReuse(Emissions(d, messages), k, q) && InRange(out, place)
  {
    var emissions := Emissions(d, messages);
    PartAt(out, place).FixedPart?
    && Joined(d, messages, emissions[k].call.id, emissions[k].message, HandedOver(emissions, q, |messages|), PartAt(out, place).call)
  }

  /** Every call joined, each at the place where its own emission is read. */
  ghost predicate Joins(d: Readers, messages: seq<Message>, out: seq<ThreadMessage>, places: seq<Place>) {
    var entries := AllEntries(d, messages);
    && |places| == |entries| && (forall j :: 0 <= j < |places| ==> InRange(out, places[j]))
    && forall j, k: nat, q: nat :: 0 <= j < |places| && entries[j].item == CallNo(k) && NextReuse(Emissions(d, messages), k, q) ==>
         CallJoined(d, messages, out, places[j], k, q)
  }

  /** A part of the state and what it resolves to. */
  lemma ResolvedPart(d: Readers, messages: seq<Message>, s: State, role: Role, part: Part, entry: Entry)
    requires s.calls == FoldMessages(d, START, messages).calls && EntryOf(role, part) == [entry] && Synthetic(part)
    requires RefOk(s.calls, part)
    ensures role == entry.role && Shows(d, messages, Resolve(s.calls, part), entry.item)
    ensures entry.item.CallNo? ==>
      entry.item.k < |s.calls| && Resolve(s.calls, part) == FixedPart(s.calls[entry.item.k])
  {
    FoldTable(d, messages);
  }

  /** The closed state at one of its places. */
  lemma ReadAt(d: Readers, messages: seq<Message>, j: nat)
    requires var s := CloseTurn(d, FoldMessages(d, START, messages)); j < |PlacesOf(s.result)|
    ensures var s := CloseTurn(d, FoldMessages(d, START, messages)); var p := PlacesOf(s.result)[j];
      var out, entry := ToThreadMessages(d, messages), AllEntries(d, messages);
      && InRange(out, p) && j < |entry|
      && out[p.message].role == entry[j].role && Shows(d, messages, PartAt(out, p), entry[j].item)
      && (entry[j].item.CallNo? ==> entry[j].item.k < |s.calls| && PartAt(out, p) == FixedPart(s.calls[entry[j].item.k]))
  {
    var s := CloseTurn(d, FoldMessages(d, START, messages));
    var p := PlacesOf(s.result)[j];
    ClosedSays(d, messages);
    PlacesMatch(s.result);
    CloseTurnKeeps(d, FoldMessages(d, START, messages));
    ThreadIds.ClosedIds(d, messages);
    FoldSynthetic(d, messages);
    CloseTurnSynthetic(d, FoldMessages(d, START, messages));
    assert Synthetic(PartAt(s.result, p)) && RefOk(s.calls, PartAt(s.result, p));
    ResolvedPart(d, messages, s, s.result[p.message].role, PartAt(s.result, p), AllEntries(d, messages)[j]);
  }

  lemma ClosedSays(d: Readers, messages: seq<Message>)
    ensures Flat(CloseTurn(d, FoldMessages(d, START, messages)).result) == AllEntries(d, messages)
  {
    FoldSays(d, messages);
    CloseTurnSays(d, FoldMessages(d, START, messages));
  }

  lemma ViewAt(d: Readers, messages: seq<Message>, p: Place)
    requires var s := CloseTurn(d, FoldMessages(d, START, messages)); InRange(s.result, p) && p !in PlacesOf(s.result)
    ensures InRange(ToThreadMessages(d, messages), p) && IsView(PartAt(ToThreadMessages(d, messages), p))
  {
    var s := CloseTurn(d, FoldMessages(d, START, messages));
    PlacesMatch(s.result);
    FoldSynthetic(d, messages);
    CloseTurnSynthetic(d, FoldMessages(d, START, messages));
    assert Says(s.result, p) == [] && Synthetic(PartAt(s.result, p));
  }

  lemma PlacesRead(d: Readers, messages: seq<Message>)
    ensures Reads(d, messages, ToThreadMessages(d, messages), PlacesOf(CloseTurn(d, FoldMessages(d, START, messages)).result))
  {
    var s, out := CloseTurn(d, FoldMessages(d, START, messages)), ToThreadMessages(d, messages);
    var places := PlacesOf(s.result);
    PlacesMatch(s.result);
    ClosedSays(d, messages);
    forall j | 0 <= j < |places|
      ensures InRange(out, places[j]) && out[places[j].message].role == AllEntries(d, messages)[j].role
      ensures Shows(d, messages, PartAt(out, places[j]), AllEntries(d, messages)[j].item)
    {
      ReadAt(d, messages, j);
    }
    forall p | InRange(out, p) && p !in places ensures IsView(PartAt(out, p)) {
      ViewAt(d, messages, p);
    }
  }

  lemma PlaceJoined(d: Readers, messages: seq<Message>, j: nat, k: nat, q: nat)
    requires NextReuse(Emissions(d, messages), k, q)
    requires var places := PlacesOf(CloseTurn(d, FoldMessages(d, START, messages)).result);
      j < |places| && j < |AllEntries(d, messages)| && AllEntries(d, messages)[j].item == CallNo(k)
      && InRange(ToThreadMessages(d, messages), places[j])
    ensures var places := PlacesOf(CloseTurn(d, FoldMessages(d, START, messages)).result);
      CallJoined(d, messages, ToThreadMessages(d, messages), places[j], k, q)
  {
    ReadAt(d, messages, j);
    FoldJoins(d, messages, k, q);
    CloseTurnKeeps(d, FoldMessages(d, START, messages));
  }

  /** Read from front to back, the conversion of any message list says exactly what its
      messages say: texts, reasoning, summaries and calls, in their order and under the same
      roles.  Everything else in it is an artifact or file view. */
  lemma NothingLostOrReordered(d: Readers, messages: seq<Message>)
    ensures exists places :: Reads(d, messages, ToThreadMessages(d, messages), places)
  {
    PlacesRead(d, messages);
  }

  /** Each emitted call is shown at its own place in that reading, with what the messages
      after it and before the next call under the same wire id report: the last decoded
      result, none if there is no report, an error if any report failed. */
  lemma ResultJoin(d: Readers, messages: seq<Message>)
    ensures exists places :: Reads(d, messages, ToThreadMessages(d, messages), places)
                             && Joins(d, messages, ToThreadMessages(d, messages), places)
  {
    var out, places := ToThreadMessages(d, messages), PlacesOf(CloseTurn(d, FoldMessages(d, START, messages)).result);
    PlacesRead(d, messages);
    forall j, k: nat, q: nat | 0 <= j < |places| && AllEntries(d, messages)[j].item == CallNo(k) && NextReuse(Emissions(d, messages), k, q)
      ensures CallJoined(d, messages, out, places[j], k, q)
    {
      PlaceJoined(d, messages, j, k, q);
    }
    assert Joins(d, messages, out, places);
  }
}
