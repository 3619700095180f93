/** One conversion, in place: turns are assembled, closed and written to as the messages
    are read, and each step ends in the state the plain conversion describes. */
module ThreadConversion {
  import opened Options
  import opened ThreadModel
  import opened ThreadHeap
  import ThreadIds
  import ThreadPlacement

  // ---------------------------------------------------------------- reading content

  /** Reads results and summaries, and may keep what it read for each message object. */
  class Reader {
    const d: Readers
    const remembers: bool
    var results: map<WireMessage, Val>
    var summaries: map<WireMessage, Obj>

    constructor (d: Readers, remembers: bool)
      ensures this.d == d && this.remembers == remembers && Valid()
    {
      this.d := d;
      this.remembers := remembers;
      results := map[];
      summaries := map[];
    }

    ghost predicate Valid()
      reads this
    {
      && (forall m :: m in results ==> Deep(results[m]) == d.decode(m.content.content))
      && (forall m :: m in summaries ==> summaries[m].tree == Items(d.parseSummary(m.content.content)))
    }

    /** Decoding gives a new object unless the result is a text or another scalar. */
    method Decode(content: Content) returns (v: Val)
      ensures Deep(v) == d.decode(content)
    {
      match d.decode(content)
      case Undefined => v := Nothing;
      case Decoded(tree) =>
        if tree.Words? || tree.Scalar? {
          v := Plain(tree);
        } else {
          var o := new Obj(tree, map[]);
          v := Ref(o);
        }
    }

    method ReadResult(m: WireMessage) returns (v: Val)
      requires Valid()
      modifies this
      ensures Valid() && Deep(v) == d.decode(m.content.content)
      ensures remembers ==> m in results && results[m] == v
      ensures m in old(results) ==> (remembers ==> v == old(results[m]))
    {
      if remembers && m in results {
        v := results[m];
      } else {
        v := Decode(m.content.content);
        if remembers { results := results[m := v]; }
      }
    }

    method ReadSummary(m: WireMessage) returns (o: Obj)
      requires Valid()
      modifies this
      ensures Valid() && o.tree == Items(d.parseSummary(m.content.content))
    {
      if remembers && m in summaries {
        o := summaries[m];
      } else {
        o := new Obj(Items(d.parseSummary(m.content.content)), map[]);
        if remembers { summaries := summaries[m := o]; }
      }
    }
  }

  // -------------------------------------------------------- parts under construction

  /** A part under construction stands for a part of the state: an emitted call is the very
      object in the table. */
  ghost predicate Refers(calls: seq<ToolCallPart>, p: OutPart, q: Part) {
    match q
    case TextPart(t) => p == Text(t)
    case ReasoningPart(t) => p == Reasoning(t)
    case CallPart(k) => k < |calls| && p == Call(calls[k])
    case FixedPart(c) => p.View? && p.view.Shows(c)
  }

  ghost predicate PartsRefer(calls: seq<ToolCallPart>, parts: seq<OutPart>, shown: seq<Part>) {
    |parts| == |shown| && forall i :: 0 <= i < |parts| ==> Refers(calls, parts[i], shown[i])
  }

  ghost predicate MessageRefers(calls: seq<ToolCallPart>, m: OutMessage, shown: ThreadMessage) {
    m.role == shown.role && m.id == shown.id && PartsRefer(calls, m.parts, shown.parts)
  }

  ghost predicate MessagesRefer(calls: seq<ToolCallPart>, messages: seq<OutMessage>, shown: seq<ThreadMessage>) {
    |messages| == |shown| && forall i :: 0 <= i < |messages| ==> MessageRefers(calls, messages[i], shown[i])
  }

  ghost predicate CallsShow(calls: seq<ToolCallPart>, table: seq<ToolCall>)
    reads calls
  {
    |calls| == |table| && forall k :: 0 <= k < |calls| ==> calls[k].Shows(table[k])
  }

  ghost predicate Different(calls: seq<ToolCallPart>) {
    forall j, k :: 0 <= j < k < |calls| ==> calls[j] != calls[k]
  }

  /** What can be read off a part is what the table holds for it. */
  lemma Looks(calls: seq<ToolCallPart>, table: seq<ToolCall>, p: OutPart, q: Part)
    requires CallsShow(calls, table) && Refers(calls, p, q)
    ensures IsToolCall(p) <==> CallOf(table, q).Some?
    ensures p.Text? <==> q.TextPart?
    ensures IsToolCall(p) ==>
      var c := CallOf(table, q).value;
      && IdOf(p) == c.id && NameOf(p) == c.name && ArgsOf(p).IsRecord(c.args)
      && Deep(ResultOf(p)) == c.result && (IsErrorOf(p) <==> c.isError)
  {
  }

  lemma PlacedReferConcat(calls: seq<ToolCallPart>, a: seq<OutPart>, b: seq<OutPart>, a': seq<Placed>, b': seq<Placed>)
    requires PartsRefer(calls, a, PartsOf(a')) && PartsRefer(calls, b, PartsOf(b'))
    ensures PartsRefer(calls, a + b, PartsOf(a' + b'))
  {
    assert PartsOf(a' + b') == PartsOf(a') + PartsOf(b');
  }

  lemma PartsReferGrow(calls: seq<ToolCallPart>, more: seq<ToolCallPart>, parts: seq<OutPart>, shown: seq<Part>)
    requires PartsRefer(calls, parts, shown)
    ensures PartsRefer(calls + more, parts, shown)
  {
    forall i | 0 <= i < |parts| ensures Refers(calls + more, parts[i], shown[i]) {
      assert Refers(calls, parts[i], shown[i]);
    }
  }

  lemma MessagesReferGrow(calls: seq<ToolCallPart>, more: seq<ToolCallPart>, messages: seq<OutMessage>, shown: seq<ThreadMessage>)
    requires MessagesRefer(calls, messages, shown)
    ensures MessagesRefer(calls + more, messages, shown)
  {
    forall i | 0 <= i < |messages| ensures MessageRefers(calls + more, messages[i], shown[i]) {
      PartsReferGrow(calls, more, messages[i].parts, shown[i].parts);
    }
  }

  /** Text and reasoning parts are what they show. */
  ghost predicate PlainParts(parts: seq<OutPart>, shown: seq<Part>) {
    && |parts| == |shown|
    && forall i :: 0 <= i < |parts| ==>
         match shown[i]
         case TextPart(t) => parts[i] == Text(t)
         case ReasoningPart(t) => parts[i] == Reasoning(t)
         case _ => false
  }

  /** The text and reasoning of a content, block by block. */
  method ToContentParts(content: Content) returns (parts: seq<OutPart>)
    ensures PlainParts(parts, ContentParts(content))
  {
    parts := [];
    match content
    case TextContent(t) =>
      if t != "" { parts := [Text(t)]; }
    case OtherContent(_) =>
    case BlockContent(blocks, _) =>
      for i := 0 to |blocks|
        invariant PlainParts(parts, BlockParts(blocks[..i]))
      {
        assert blocks[..i + 1][..i] == blocks[..i];
        match blocks[i]
        case StringBlock(t) => if t != "" { parts := parts + [Text(t)]; }
        case TextBlock(t) => if t != "" { parts := parts + [Text(t)]; }
        case ReasoningBlock(t) => if t != "" { parts := parts + [Reasoning(t)]; }
        case OtherBlock =>
      }
      assert blocks[..|blocks|] == blocks;
  }

  method ToDetachedReasoningParts(m: Message) returns (parts: seq<OutPart>)
    ensures PlainParts(parts, ReasoningParts(m))
  {
    parts := if m.reasoning == "" then [] else [Reasoning(m.reasoning)];
  }

  function Unanswered(wire: WireCall): ToolCall {
    ToolCall(wire.id, wire.name, wire.args, Undefined, false)
  }

  /** The parts of calls that nobody has answered yet. */
  ghost predicate AllUnanswered(parts: seq<ToolCallPart>, wires: seq<WireCall>)
    reads parts
  {
    |parts| == |wires| && forall i :: 0 <= i < |parts| ==> parts[i].Shows(Unanswered(wires[i]))
  }

  lemma OneMoreCall(calls: seq<WireCall>, i: nat)
    requires i < |calls|
    ensures ToolCalls(calls[..i + 1]) ==
      ToolCalls(calls[..i]) + (if calls[i].id == "" || calls[i].name == "" then [] else [calls[i]])
  {
    assert calls[..i + 1][..i] == calls[..i];
  }

  method NewCallPart(m: WireMessage, i: nat) returns (part: ToolCallPart)
    requires m.Valid() && i < |m.content.calls|
    ensures fresh(part) && part.Shows(Unanswered(m.content.calls[i]))
  {
    var args;
    if m.args[i].Some? {
      args := m.args[i].value;
    } else {
      args := new Obj(Fields(NO_ARGS), map[]);
    }
    part := new ToolCallPart(m.content.calls[i].id, m.content.calls[i].name, args);
  }

  /** A new part for each call that has an id and a name. */
  method ToToolCallParts(m: WireMessage) returns (parts: seq<ToolCallPart>)
    requires m.Valid()
    ensures fresh(parts) && Different(parts)
    ensures AllUnanswered(parts, ToolCalls(m.content.calls))
  {
    parts := [];
    for i := 0 to |m.content.calls|
      invariant fresh(parts) && Different(parts)
      invariant AllUnanswered(parts, ToolCalls(m.content.calls[..i]))
    {
      var call := m.content.calls[i];
      OneMoreCall(m.content.calls, i);
      if call.id != "" && call.name != "" {
        var part := NewCallPart(m, i);
        parts := parts + [part];
      }
    }
    assert m.content.calls[..|m.content.calls|] == m.content.calls;
  }

  /** The state after one result for the `k`-th call. */
  function Answered(s: State, k: nat, value: Data, failed: bool): State
    requires k < |s.calls|
  {
    s.(calls := s.calls[k := s.calls[k].(result := value, isError := s.calls[k].isError || failed)])
  }

  method SummaryView(id: string, interactions: Obj) returns (view: ViewPart)
    requires interactions.tree.Items?
    ensures view.Shows(ToolCall(id, SUMMARY_NAME, Interactions(interactions.tree.items), Undefined, false))
  {
    var args := new Obj(Fields(map["interactions" := interactions.tree]), map["interactions" := Ref(interactions)]);
    view := new ViewPart(id, SUMMARY_NAME, args, Nothing);
  }

  datatype OutTurn = OutTurn(id: Option<string>, parts: seq<OutPart>)

  class Conversion {
    const reader: Reader
    var result: seq<OutMessage>
    var turn: Option<OutTurn>
    var callsById: map<string, ToolCallPart>
    var partIds: set<string>
    /** The parts of the emitted calls in order, and the state they stand for. */
    ghost var calls: seq<ToolCallPart>
    ghost var state: State

    constructor (reader: Reader)
      ensures this.reader == reader && Valid() && calls == [] && state == START
    {
      this.reader := reader;
      result := [];
      turn := None;
      callsById := map[];
      partIds := {};
      calls := [];
      state := START;
    }

    ghost predicate TurnRefers()
      reads this
    {
      match turn
      case None => state.turn.None?
      case Some(t) => state.turn.Some? && t.id == state.turn.value.id && PartsRefer(calls, t.parts, state.turn.value.parts)
    }

    ghost predicate WiresRefer()
      reads this
    {
      && callsById.Keys == state.byWire.Keys
      && forall w :: w in callsById ==> state.byWire[w] < |calls| && callsById[w] == calls[state.byWire[w]]
    }

    ghost predicate Valid()
      reads this, calls
    {
      && partIds == state.used
      && MessagesRefer(calls, result, state.result)
      && TurnRefers()
      && WiresRefer()
      && Different(calls)
      && CallsShow(calls, state.calls)
    }

    // ------------------------------------------------------------------ unique ids

    method UniquePartId(id: string) returns (candidate: string)
      modifies this`partIds
      ensures candidate == UniqueId(id, old(partIds)) && partIds == old(partIds) + {candidate}
    {
      ghost var free := FirstFree(id, partIds, 1);
      ThreadIds.FirstFreeIsFree(id, partIds, 1);
      candidate := id;
      var occurrence := 1;
      while candidate in partIds
        invariant partIds == old(partIds)
        invariant 1 <= occurrence <= free && candidate == Candidate(id, occurrence)
        decreases free - occurrence
      {
        occurrence := occurrence + 1;
        candidate := id + ":" + Decimal(occurrence);
      }
      partIds := partIds + {candidate};
    }

    // -------------------------------------------------------------- closing a turn

    /** The artifact view of a call that has one to show. */
    method ArtifactViews(part: OutPart, ghost table: seq<ToolCall>, ghost q: Part, ghost n: nat) returns (views: seq<OutPart>)
      requires CallsShow(calls, table) && Refers(calls, part, q)
      modifies this`partIds
      ensures PartsRefer(calls, views, PartsOf(ViewMade(table, q, old(partIds), n)))
      ensures partIds == UsedAfter(table, q, old(partIds))
    {
      Looks(calls, table, part, q);
      views := [];
      if IsToolCall(part) && NameOf(part) != SUMMARY_NAME
         && (NameOf(part) == RUN_CODE || NameOf(part) == CREATE_WEB_INTERFACE) && ResultOf(part) != Nothing
      {
        var id := UniquePartId("artifact:" + IdOf(part));
        var args := new Obj(
          Fields(map["source" := Words(NameOf(part)), "sourceArgs" := ArgsOf(part).tree]),
          map["source" := Plain(Words(NameOf(part))), "sourceArgs" := Ref(ArgsOf(part))]);
        var view := new ViewPart(id, ARTIFACT_VIEW_NAME, args, ResultOf(part));
        views := [View(view)];
      }
    }

    /** The file view of a successful call with files. */
    method FileViews(part: OutPart, ghost table: seq<ToolCall>, ghost p: Placed) returns (views: seq<OutPart>)
      requires CallsShow(calls, table) && Refers(calls, part, p.part)
      modifies this`partIds
      ensures PartsRefer(calls, views, PartsOf(DownloadMade(reader.d, table, p, old(partIds))))
      ensures partIds == UsedAfterDownload(reader.d, table, p, old(partIds))
    {
      Looks(calls, table, part, p.part);
      views := [];
      if IsToolCall(part) && NameOf(part) == RUN_CODE && !IsErrorOf(part) && reader.d.hasFiles(Deep(ResultOf(part))) {
        var id := UniquePartId("files:" + IdOf(part));
        var args := new Obj(Fields(NO_ARGS), map[]);
        var view := new ViewPart(id, FILE_VIEW_NAME, args, ResultOf(part));
        views := [View(view)];
      }
    }

    /** The parts in their places, each run of calls followed by its artifact views. */
    method PlaceParts(parts: seq<OutPart>, ghost table: seq<ToolCall>, ghost shown: seq<Part>) returns (placed: seq<OutPart>)
      requires CallsShow(calls, table) && PartsRefer(calls, parts, shown)
      modifies this`partIds
      ensures PartsRefer(calls, placed, PartsOf(ThreadPlacement.Full(table, shown, old(partIds), |shown|)))
      ensures partIds == PlaceUpTo(table, shown, old(partIds), |shown|).used
    {
      placed := [];
      var pending: seq<OutPart> := [];
      for i := 0 to |parts|
        invariant CallsShow(calls, table)
        invariant PlacingRefers(calls, placed, pending, PlaceUpTo(table, shown, old(partIds), i))
        invariant partIds == PlaceUpTo(table, shown, old(partIds), i).used
      {
        ghost var st := PlaceUpTo(table, shown, old(partIds), i);
        ghost var placed0, pending0 := placed, pending;
        Looks(calls, table, parts[i], shown[i]);
        if parts[i].Text? || (IsToolCall(parts[i]) && NameOf(parts[i]) == SUMMARY_NAME) {
          placed := placed + pending;
          pending := [];
        }
        placed := placed + [parts[i]];
        var views := ArtifactViews(parts[i], table, shown[i], i);
        PlacedOneRefers(calls, table, parts[i], shown[i], i, views, st, placed0, pending0);
        pending := pending + views;
        assert PlaceUpTo(table, shown, old(partIds), i + 1) == PlaceOne(table, shown[i], i, st);
      }
      PlacedReferConcat(calls, placed, pending, PlaceUpTo(table, shown, old(partIds), |parts|).placed,
                        PlaceUpTo(table, shown, old(partIds), |parts|).pending);
      placed := placed + pending;
    }

    method CollectDownloads(placed: seq<OutPart>, ghost table: seq<ToolCall>, ghost shown: seq<Placed>)
      returns (downloads: seq<OutPart>)
      requires CallsShow(calls, table) && PartsRefer(calls, placed, PartsOf(shown))
      modifies this`partIds
      ensures var files := FilesUpTo(reader.d, table, shown, old(partIds), |shown|);
        PartsRefer(calls, downloads, PartsOf(files.views)) && partIds == files.used
    {
      downloads := [];
      for i := 0 to |placed|
        invariant CallsShow(calls, table)
        invariant var files := FilesUpTo(reader.d, table, shown, old(partIds), i);
          PartsRefer(calls, downloads, PartsOf(files.views)) && partIds == files.used
      {
        ghost var st := FilesUpTo(reader.d, table, shown, old(partIds), i);
        var views := FileViews(placed[i], table, shown[i]);
        PlacedReferConcat(calls, downloads, views, st.views, DownloadMade(reader.d, table, shown[i], st.used));
        downloads := downloads + views;
      }
    }

    method TrailingSummaries(placed: seq<OutPart>, ghost table: seq<ToolCall>, ghost shown: seq<Placed>) returns (end: nat)
      requires CallsShow(calls, table) && PartsRefer(calls, placed, PartsOf(shown))
      ensures end == TrailingStart(table, shown, |shown|)
    {
      end := |placed|;
      if end > 0 { Looks(calls, table, placed[end - 1], PartsOf(shown)[end - 1]); }
      while end > 0 && IsToolCall(placed[end - 1]) && NameOf(placed[end - 1]) == SUMMARY_NAME
        invariant end <= |placed|
        invariant TrailingStart(table, shown, end) == TrailingStart(table, shown, |shown|)
        invariant end > 0 ==> (IsToolCall(placed[end - 1]) && NameOf(placed[end - 1]) == SUMMARY_NAME <==> IsSummary(table, shown[end - 1].part))
      {
        end := end - 1;
        if end > 0 { Looks(calls, table, placed[end - 1], PartsOf(shown)[end - 1]); }
      }
    }

    /** The parts of the turn as they are shown once it is closed. */
    method FinishedParts(parts: seq<OutPart>, ghost table: seq<ToolCall>, ghost shown: seq<Part>) returns (finished: seq<OutPart>)
      requires CallsShow(calls, table) && PartsRefer(calls, parts, shown)
      modifies this`partIds
      ensures var all := PlaceAll(reader.d, table, shown, old(partIds));
        PartsRefer(calls, finished, PartsOf(all.views)) && partIds == all.used
    {
      var placed := PlaceParts(parts, table, shown);
      ghost var full := ThreadPlacement.Full(table, shown, old(partIds), |shown|);
      var downloads := CollectDownloads(placed, table, full);
      var end := TrailingSummaries(placed, table, full);
      finished := placed[..end] + downloads + placed[end..];
      SpliceRefers(calls, placed, downloads, full,
                   ThreadPlacement.Views(reader.d, table, shown, old(partIds)), end);
    }

    method CloseTurn()
      requires Valid()
      modifies this
      ensures Valid() && state == ThreadModel.CloseTurn(reader.d, old(state))
      ensures calls == old(calls)
    {
      if turn.Some? {
        var parts := FinishedParts(turn.value.parts, state.calls, state.turn.value.parts);
        if |parts| > 0 {
          result := result + [OutMessage(Assistant, turn.value.id, parts)];
        }
      }
      turn := None;
      state := ThreadModel.CloseTurn(reader.d, state);
    }

    // ------------------------------------------------------------- reading messages

    /** A report lands on the call it answers, wherever that call is by now. */
    method Report(m: WireMessage)
      requires Valid() && reader.Valid()
      modifies this`state, reader, calls
      ensures Valid() && reader.Valid() && state == StepTool(reader.d, old(state), m.content)
      ensures calls == old(calls)
    {
      if m.content.callId != "" && m.content.callId in callsById {
        ReportOn(state.byWire[m.content.callId], callsById[m.content.callId], m);
      }
    }

    method ReportOn(ghost k: nat, call: ToolCallPart, m: WireMessage)
      requires Valid() && reader.Valid() && k < |calls| && call == calls[k]
      modifies this`state, reader, call
      ensures Valid() && reader.Valid() && calls == old(calls)
      ensures state == Answered(old(state), k, reader.d.decode(m.content.content), m.content.failed)
    {
      var value := reader.ReadResult(m);
      Answer(k, call, value, m.content.failed);
    }

    method Answer(ghost k: nat, call: ToolCallPart, value: Val, failed: bool)
      requires Valid() && k < |calls| && call == calls[k]
      modifies this`state, call
      ensures Valid() && state == Answered(old(state), k, Deep(value), failed)
    {
      call.result := value;
      if failed { call.isError := true; }
      state := Answered(state, k, Deep(value), failed);
    }

    /** A message that stands on its own. */
    method Own(m: Message, role: Role)
      requires Valid()
      modifies this
      ensures Valid() && state == StepOwn(reader.d, old(state), m, role)
      ensures calls == old(calls)
    {
      CloseTurn();
      var content := ToContentParts(m.content);
      if |content| > 0 {
        result := result + [OutMessage(role, Truthy(m.id), content)];
        state := state.(result := state.result + [ThreadMessage(role, Truthy(m.id), ContentParts(m.content))]);
      }
    }

    method Push(id: Option<string>, parts: seq<OutPart>, ghost shown: seq<Part>)
      requires Valid() && PartsRefer(calls, parts, shown)
      modifies this`turn, this`state
      ensures Valid() && state == AddParts(old(state), id, shown) && turn.Some?
    {
      var t := if turn.Some? then turn.value else OutTurn(Truthy(id), []);
      turn := Some(t.(parts := t.parts + parts));
      state := AddParts(state, id, shown);
    }

    method Summary(m: WireMessage, interactions: Obj)
      requires Valid() && interactions.tree.Items?
      modifies this
      ensures Valid() && state == StepSummary(old(state), m.content, interactions.tree.items)
      ensures calls == old(calls)
    {
      var id := UniquePartId("wot:" + (if m.content.id.Some? then m.content.id.value else Decimal(|result|)));
      ghost var call := ToolCall(id, SUMMARY_NAME, Interactions(interactions.tree.items), Undefined, false);
      state := state.(used := state.used + {id});
      var view := SummaryView(id, interactions);
      Push(m.content.id, [View(view)], [FixedPart(call)]);
    }

    /** An emitted call joins the table under its wire id, and gets an id of its own. */
    method EmitCall(call: ToolCallPart, ghost wire: WireCall)
      requires Valid() && turn.Some? && call !in calls
      requires call.Shows(Unanswered(wire))
      modifies this, call
      ensures Valid() && turn.Some? && calls == old(calls) + [call]
      ensures state == EmitOne(old(state), wire)
    {
      callsById := callsById[call.id := call];
      call.id := UniquePartId(call.id);
      PartsReferGrow(calls, [call], turn.value.parts, state.turn.value.parts);
      MessagesReferGrow(calls, [call], result, state.result);
      turn := Some(turn.value.(parts := turn.value.parts + [Call(call)]));
      calls := calls + [call];
      state := EmitOne(state, wire);
    }

    /** From the `i`-th on, the emitted calls are unanswered and not in the table. */
    ghost predicate Waiting(emitted: seq<ToolCallPart>, wires: seq<WireCall>, i: nat)
      reads this, emitted
    {
      && |emitted| == |wires|
      && forall k :: i <= k < |emitted| ==> emitted[k].Shows(Unanswered(wires[k])) && emitted[k] !in calls
    }

    method EmitNext(emitted: seq<ToolCallPart>, ghost wires: seq<WireCall>, i: nat)
      requires Valid() && turn.Some? && Different(emitted) && Waiting(emitted, wires, i) && i < |emitted|
      modifies this, emitted
      ensures Valid() && turn.Some? && Waiting(emitted, wires, i + 1)
      ensures calls == old(calls) + [emitted[i]] && state == EmitOne(old(state), wires[i])
    {
      EmitCall(emitted[i], wires[i]);
    }

    /** The `i`-th call, after those before it. */
    method EmitAfter(emitted: seq<ToolCallPart>, ghost wires: seq<WireCall>, i: nat, ghost s: State, ghost before: seq<ToolCallPart>)
      requires Valid() && turn.Some? && Different(emitted) && Waiting(emitted, wires, i) && i < |emitted| && s.turn.Some?
      requires state == EmitUpTo(s, wires, i) && calls == before + emitted[..i]
      modifies this, emitted
      ensures Valid() && turn.Some? && Waiting(emitted, wires, i + 1)
      ensures state == EmitUpTo(s, wires, i + 1) && calls == before + emitted[..i + 1]
    {
      EmitNext(emitted, wires, i);
    }

    method EmitCalls(emitted: seq<ToolCallPart>, ghost wires: seq<WireCall>)
      requires Valid() && turn.Some? && Different(emitted) && Waiting(emitted, wires, 0)
      modifies this, emitted
      ensures Valid() && state == EmitUpTo(old(state), wires, |wires|)
      ensures calls == old(calls) + emitted
    {
      ghost var s, before := state, calls;
      for i := 0 to |emitted|
        invariant Valid() && turn.Some? && Waiting(emitted, wires, i)
        invariant state == EmitUpTo(s, wires, i)
        invariant calls == before + emitted[..i]
      {
        EmitAfter(emitted, wires, i, s, before);
      }
    }

    /** An assistant message adds its prose and its calls to the turn. */
    method Prose(m: WireMessage) returns (emitted: seq<ToolCallPart>)
      requires Valid() && m.Valid()
      modifies this
      ensures Valid() && fresh(emitted) && calls == old(calls) + emitted
      ensures var s1 := AddParts(old(state), m.content.id, ReasoningParts(m.content) + ContentParts(m.content.content));
        state == EmitUpTo(s1, ToolCalls(m.content.calls), |ToolCalls(m.content.calls)|)
    {
      var reasoning := ToDetachedReasoningParts(m.content);
      var content := ToContentParts(m.content.content);
      Push(m.content.id, reasoning + content, ReasoningParts(m.content) + ContentParts(m.content.content));
      emitted := ToToolCallParts(m);
      EmitCalls(emitted, ToolCalls(m.content.calls));
    }

    method AddStep(m: WireMessage)
      requires Valid() && m.Valid() && reader.Valid()
      modifies this, reader
      ensures Valid() && reader.Valid() && state == StepAssistant(reader.d, old(state), m.content)
      ensures |old(calls)| <= |calls| && calls[..|old(calls)|] == old(calls) && fresh(calls[|old(calls)|..])
    {
      var interactions := reader.ReadSummary(m);
      if |interactions.tree.items| > 0 {
        Summary(m, interactions);
      } else if !reader.d.looksLikeSummary(m.content.content) {
        var emitted := Prose(m);
      }
    }

    /** Reading one message is the step of the plain conversion. */
    method Read(m: WireMessage)
      requires Valid() && m.Valid() && reader.Valid()
      modifies this, reader, calls
      ensures Valid() && reader.Valid() && state == Step(reader.d, old(state), m.content)
      ensures |old(calls)| <= |calls| && calls[..|old(calls)|] == old(calls) && fresh(calls[|old(calls)|..])
    {
      var type_ := m.content.kind;
      if type_ == "tool" {
        Report(m);
      } else if type_ == "human" || type_ == "user" {
        Own(m.content, User);
      } else if type_ == "ai" || type_ == "assistant" || type_ == "AIMessageChunk" {
        AddStep(m);
      } else if type_ == "system" {
        Own(m.content, System);
      }
    }

    method ReadNext(messages: seq<WireMessage>, i: nat)
      requires Valid() && reader.Valid() && i < |messages| && messages[i].Valid()
      requires state == FoldMessages(reader.d, START, ContentsOf(messages[..i]))
      modifies this, reader, calls
      ensures Valid() && reader.Valid() && state == FoldMessages(reader.d, START, ContentsOf(messages[..i + 1]))
      ensures |old(calls)| <= |calls| && forall k :: 0 <= k < |old(calls)| ==> calls[k] == old(calls[k])
      ensures forall k :: |old(calls)| <= k < |calls| ==> fresh(calls[k])
    {
      OneMore(reader.d, messages, i);
      ghost var n := |calls|;
      Read(messages[i]);
      ghost var more := calls[n..];
      forall k | n <= k < |calls| ensures fresh(calls[k]) {
        assert calls[k] == more[k - n];
      }
    }

    method ReadAll(messages: seq<WireMessage>)
      requires Valid() && reader.Valid() && AllValid(messages) && calls == [] && state == START
      modifies this, reader
      ensures Valid() && reader.Valid() && fresh(calls)
      ensures state == FoldMessages(reader.d, START, ContentsOf(messages))
    {
      for i := 0 to |messages|
        invariant Valid() && reader.Valid() && forall k :: 0 <= k < |calls| ==> fresh(calls[k])
        invariant state == FoldMessages(reader.d, START, ContentsOf(messages[..i]))
      {
        ReadNext(messages, i);
      }
      assert messages[..|messages|] == messages;
    }
  }

  function ContentsOf(messages: seq<WireMessage>): (r: seq<Message>)
    ensures |r| == |messages| && forall i :: 0 <= i < |messages| ==> r[i] == messages[i].content
  {
    seq(|messages|, i requires 0 <= i < |messages| => messages[i].content)
  }

  ghost predicate AllValid(messages: seq<WireMessage>) {
    forall m :: m in messages ==> m.Valid()
  }

  /** The conversion shows what the plain conversion gives, and writes to no object that
      was there before. */
  method ConvertThreadMessages(messages: seq<WireMessage>, reader: Reader) returns (result: seq<OutMessage>)
    requires AllValid(messages) && reader.Valid()
    modifies reader
    ensures reader.Valid()
    ensures MessagesShow(result, ToThreadMessages(reader.d, ContentsOf(messages)))
    ensures fresh(CallsOf(result))
  {
    if |messages| == 0 {
      return [];
    }
    var conversion := new Conversion(reader);
    conversion.ReadAll(messages);
    conversion.CloseTurn();
    result := conversion.result;
    Resolved(conversion.calls, conversion.state.calls, result, conversion.state.result);
  }

  lemma OneMore(d: Readers, messages: seq<WireMessage>, i: nat)
    requires i < |messages|
    ensures FoldMessages(d, START, ContentsOf(messages[..i + 1])) ==
      Step(d, FoldMessages(d, START, ContentsOf(messages[..i])), messages[i].content)
  {
    var longer, shorter := ContentsOf(messages[..i + 1]), ContentsOf(messages[..i]);
    assert longer[..|longer| - 1] == shorter;
  }

  /** Parts that stand for the state show what the state resolves to. */
  lemma Resolved(calls: seq<ToolCallPart>, table: seq<ToolCall>, messages: seq<OutMessage>, shown: seq<ThreadMessage>)
    requires CallsShow(calls, table) && MessagesRefer(calls, messages, shown)
    ensures MessagesShow(messages, ResolveAll(table, shown))
    ensures forall c :: c in CallsOf(messages) ==> c in calls
  {
    forall i | 0 <= i < |messages| ensures MessageShows(messages[i], ResolveAll(table, shown)[i]) {
      ResolvedParts(calls, table, messages[i].parts, shown[i].parts);
    }
    forall c | c in CallsOf(messages) ensures c in calls {
      var m :| m in messages && c in CallsIn(m.parts);
      var i :| 0 <= i < |messages| && messages[i] == m;
      ResolvedParts(calls, table, messages[i].parts, shown[i].parts);
    }
  }

  lemma ResolvedParts(calls: seq<ToolCallPart>, table: seq<ToolCall>, parts: seq<OutPart>, shown: seq<Part>)
    requires CallsShow(calls, table) && PartsRefer(calls, parts, shown)
    ensures PartsShow(parts, ResolveParts(table, shown))
    ensures forall c :: c in CallsIn(parts) ==> c in calls
  {
    forall i | 0 <= i < |parts| ensures Shows(parts[i], Resolve(table, shown[i])) {
      assert Refers(calls, parts[i], shown[i]);
    }
    forall c | c in CallsIn(parts) ensures c in calls {
      var i :| 0 <= i < |parts| && parts[i] == Call(c);
      assert Refers(calls, parts[i], shown[i]);
    }
  }

  ghost predicate PlacingRefers(calls: seq<ToolCallPart>, placed: seq<OutPart>, pending: seq<OutPart>, st: Placing) {
    PartsRefer(calls, placed, PartsOf(st.placed)) && PartsRefer(calls, pending, PartsOf(st.pending))
  }

  /** Placing one part: the flushed views and the part are placed, its view waits. */
  lemma PlacedOneRefers(calls: seq<ToolCallPart>, table: seq<ToolCall>, part: OutPart, q: Part, n: nat, views: seq<OutPart>,
                        st: Placing, placed: seq<OutPart>, pending: seq<OutPart>)
    requires Refers(calls, part, q) && PartsRefer(calls, views, PartsOf(ViewMade(table, q, st.used, n)))
    requires PlacingRefers(calls, placed, pending, st)
    ensures PlacingRefers(calls, (if EndsRun(table, q) then placed + pending else placed) + [part],
                          (if EndsRun(table, q) then [] else pending) + views, PlaceOne(table, q, n, st))
  {
    var p, made := Placed(q, Original(n)), ViewMade(table, q, st.used, n);
    assert PartsOf([p]) == [q];
    if EndsRun(table, q) {
      PlacedReferConcat(calls, placed, pending, st.placed, st.pending);
      PlacedReferConcat(calls, placed + pending, [part], st.placed + st.pending, [p]);
      assert [] + views == views;
    } else {
      PlacedReferConcat(calls, placed, [part], st.placed, [p]);
      PlacedReferConcat(calls, pending, views, st.pending, made);
    }
  }

  lemma SpliceRefers(calls: seq<ToolCallPart>, placed: seq<OutPart>, downloads: seq<OutPart>, full: seq<Placed>, views: seq<Placed>, end: nat)
    requires PartsRefer(calls, placed, PartsOf(full)) && PartsRefer(calls, downloads, PartsOf(views)) && end <= |full|
    ensures PartsRefer(calls, placed[..end] + downloads + placed[end..], PartsOf(full[..end] + views + full[end..]))
  {
    PlacedReferConcat(calls, placed[..end], downloads, full[..end], views);
    PlacedReferConcat(calls, placed[..end] + downloads, placed[end..], full[..end] + views, full[end..]);
  }
}
