/** Which wire messages are shown as one message of the chat, and under which id. */
module ThreadOutline {
  import opened Options
  import opened ThreadModel
  import opened ThreadMeaning
  import opened ThreadTheorems
  import opened ThreadConservation
  import ThreadIds
  import ThreadPlacement

  // ------------------------------------------------------------- what a state shows

  function BubbleOf(m: ThreadMessage): Bubble {
    Bubble(m.role, m.id, EntriesOf(m.role, m.parts))
  }

  function Bubbles(messages: seq<ThreadMessage>): (r: seq<Bubble>)
    ensures |r| == |messages| && forall i :: 0 <= i < |messages| ==> r[i] == BubbleOf(messages[i])
  {
    seq(|messages|, i requires 0 <= i < |messages| => BubbleOf(messages[i]))
  }

  /** Where the turn that is open after `n` messages began, at the earliest. */
  function Since(messages: seq<Message>, n: nat): (from: nat)
    requires n <= |messages|
    ensures from <= n
  {
    var k := LastAlone(messages, n);
    if k == n then 0 else k + 1
  }

  /** What is shown up to and including the last message that stands on its own. */
  function ShownBefore(d: Readers, messages: seq<Message>, n: nat): seq<Bubble>
    requires n <= |messages|
  {
    var k := LastAlone(messages, n);
    if k == n then []
    else
      var m := messages[k];
      Outline(d, messages, k) + Shown(Bubble(Speaker(m.kind).value, IdOf(m), ContentSays(Speaker(m.kind).value, m.content)))
  }

  /** The state after `n` messages: what is closed, and the turn that is open. */
  ghost predicate Open(d: Readers, messages: seq<Message>, n: nat, s: State)
    requires n <= |messages|
  {
    var from := Since(messages, n);
    && Bubbles(s.result) == ShownBefore(d, messages, n)
    && TurnEntries(s) == SaysBetween(d, messages, from, n)
    && match FirstVoice(d, messages, from, n)
       case None => s.turn.None?
       case Some(v) => s.turn.Some? && s.turn.value.id == IdOf(messages[v])
  }

  lemma OutlineIs(d: Readers, messages: seq<Message>, n: nat)
    requires n <= |messages|
    ensures Outline(d, messages, n) == ShownBefore(d, messages, n) + TurnShown(d, messages, Since(messages, n), n)
  {
  }

  lemma {:induction false} VoiceNext(d: Readers, messages: seq<Message>, from: nat, n: nat)
    requires from <= n < |messages|
    ensures FirstVoice(d, messages, from, n + 1) ==
      if FirstVoice(d, messages, from, n).Some? then FirstVoice(d, messages, from, n)
      else if Speaker(messages[n].kind) == Some(Assistant) && !Hidden(d, messages[n]) then Some(n) else None
    decreases n - from
  {
    if from < n {
      VoiceNext(d, messages, from + 1, n);
    } else {
      assert FirstVoice(d, messages, n + 1, n + 1) == None;
    }
  }

  /** What one more message makes of all this. */
  lemma NextMessage(d: Readers, messages: seq<Message>, n: nat)
    requires n < |messages|
    ensures var m := messages[n];
      if StandsAlone(m) then
        && Since(messages, n + 1) == n + 1
        && ShownBefore(d, messages, n + 1) == Outline(d, messages, n)
             + Shown(Bubble(Speaker(m.kind).value, IdOf(m), ContentSays(Speaker(m.kind).value, m.content)))
      else Since(messages, n + 1) == Since(messages, n) && ShownBefore(d, messages, n + 1) == ShownBefore(d, messages, n)
  {
  }

  lemma SaysNext(d: Readers, messages: seq<Message>, from: nat, n: nat)
    requires from <= n < |messages|
    ensures SaysBetween(d, messages, from, n + 1) ==
      SaysBetween(d, messages, from, n) + MessageEntries(d, messages[n], |Emissions(d, messages[..n])|)
  {
  }

  // ---------------------------------------------------------------- closing the turn

  lemma BubblesPush(messages: seq<ThreadMessage>, m: ThreadMessage)
    ensures Bubbles(messages + [m]) == Bubbles(messages) + [BubbleOf(m)]
  {
  }

  /** A turn that shows anything says something. */
  lemma SomethingSaid(d: Readers, calls: seq<ToolCall>, parts: seq<Part>, used: set<string>)
    requires AllSpoken(parts)
    ensures PlaceAll(d, calls, parts, used).views != [] <==> EntriesOf(Assistant, parts) != []
  {
    var views := PlaceAll(d, calls, parts, used).views;
    ThreadPlacement.ClosedTurnRanked(d, calls, parts, used);
    if views != [] {
      assert ThreadPlacement.Genuine(d, calls, parts, views[0]);
    }
    if parts != [] {
      var n := |parts| - 1;
      ThreadPlacement.ClosedTurnComplete(d, calls, parts, used, Original(n));
      assert EntryOf(Assistant, parts[n]) != [];
    }
  }

  lemma CloseShows(d: Readers, s: State)
    requires SyntheticState(s)
    ensures Bubbles(CloseTurn(d, s).result) == Bubbles(s.result) +
      (if s.turn.Some? then Shown(Bubble(Assistant, s.turn.value.id, TurnEntries(s))) else [])
  {
    if s.turn.Some? {
      var parts := s.turn.value.parts;
      var views := PlaceAll(d, s.calls, parts, s.used).views;
      SomethingSaid(d, s.calls, parts, s.used);
      ClosedTurnSays(d, s.calls, parts, s.used);
      BubblesPush(s.result, ThreadMessage(Assistant, s.turn.value.id, PartsOf(views)));
    }
  }

  /** Closing the open turn shows everything so far. */
  lemma ClosedShows(d: Readers, messages: seq<Message>, n: nat, s: State)
    requires n <= |messages| && Open(d, messages, n, s) && SyntheticState(s)
    ensures Bubbles(CloseTurn(d, s).result) == Outline(d, messages, n)
  {
    CloseShows(d, s);
    OutlineIs(d, messages, n);
    if s.turn.None? { assert Bubbles(s.result) + [] == Bubbles(s.result); }
  }

  // -------------------------------------------------------------------- one message

  lemma OwnShows(d: Readers, s: State, m: Message, role: Role)
    ensures var s' := StepOwn(d, s, m, role);
      && s'.turn.None?
      && Bubbles(s'.result) == Bubbles(CloseTurn(d, s).result) + Shown(Bubble(role, IdOf(m), ContentSays(role, m.content)))
  {
    var closed, content := CloseTurn(d, s), ContentParts(m.content);
    ContentAgrees(role, m.content);
    OwnSaysSomething(role, m.content);
    if content != [] {
      BubblesPush(closed.result, ThreadMessage(role, Truthy(m.id), content));
    } else {
      assert Bubbles(closed.result) + [] == Bubbles(closed.result);
    }
  }

  lemma AloneShows(d: Readers, messages: seq<Message>, n: nat, s: State)
    requires n < |messages| && Open(d, messages, n, s) && SyntheticState(s) && StandsAlone(messages[n])
    ensures Open(d, messages, n + 1, Step(d, s, messages[n]))
  {
    var m := messages[n];
    StepBySpeaker(d, s, m);
    ClosedShows(d, messages, n, s);
    OwnShows(d, s, m, Speaker(m.kind).value);
    NextMessage(d, messages, n);
  }

  lemma OwnSaysSomething(role: Role, content: Content)
    ensures ContentParts(content) != [] <==> ContentSays(role, content) != []
  {
    ContentAgrees(role, content);
    if ContentParts(content) != [] {
      var n := |ContentParts(content)| - 1;
      if content.BlockContent? { ThreadIds.BlockPartsPlain(content.blocks); }
      assert EntryOf(role, ContentParts(content)[n]) != [];
    }
  }

  lemma QuietShows(d: Readers, messages: seq<Message>, n: nat, s: State, s': State)
    requires n < |messages| && Open(d, messages, n, s) && !StandsAlone(messages[n])
    requires Speaker(messages[n].kind) == Some(Assistant) ==> Hidden(d, messages[n])
    requires s'.result == s.result && s'.turn == s.turn
    ensures Open(d, messages, n + 1, s')
  {
    var from := Since(messages, n);
    NextMessage(d, messages, n);
    SaysNext(d, messages, from, n);
    VoiceNext(d, messages, from, n);
    assert MessageEntries(d, messages[n], |Emissions(d, messages[..n])|) == [];
    assert SaysBetween(d, messages, from, n) + [] == SaysBetween(d, messages, from, n);
  }

  lemma AssistantKeeps(d: Readers, s: State, m: Message)
    requires Speaker(m.kind) == Some(Assistant) && !Hidden(d, m)
    ensures var s' := StepAssistant(d, s, m);
      && s'.result == s.result && s'.turn.Some?
      && s'.turn.value.id == if s.turn.Some? then s.turn.value.id else IdOf(m)
  {
    if |d.parseSummary(m.content)| == 0 {
      var s1 := AddParts(s, m.id, ReasoningParts(m) + ContentParts(m.content));
      EmitKeeps(s1, ToolCalls(m.calls), |ToolCalls(m.calls)|);
      EmitKeepsId(s1, ToolCalls(m.calls), |ToolCalls(m.calls)|);
    }
  }

  lemma {:induction false} EmitKeepsId(s: State, calls: seq<WireCall>, n: nat)
    requires n <= |calls| && s.turn.Some?
    ensures EmitUpTo(s, calls, n).turn.value.id == s.turn.value.id
  {
    if n > 0 { EmitKeepsId(s, calls, n - 1); }
  }

  lemma VoiceShows(d: Readers, messages: seq<Message>, n: nat, s: State)
    requires n < |messages| && Open(d, messages, n, s) && |s.calls| == |Emissions(d, messages[..n])|
    requires Speaker(messages[n].kind) == Some(Assistant) && !Hidden(d, messages[n])
    ensures Open(d, messages, n + 1, Step(d, s, messages[n]))
  {
    var m, from := messages[n], Since(messages, n);
    var s' := Step(d, s, m);
    StepBySpeaker(d, s, m);
    StepSays(d, s, m);
    AssistantKeeps(d, s, m);
    NextMessage(d, messages, n);
    SaysNext(d, messages, from, n);
    VoiceNext(d, messages, from, n);
    SamePrefix(Flat(s.result), TurnEntries(s'), TurnEntries(s) + MessageEntries(d, m, |s.calls|), TurnEntries(s), MessageEntries(d, m, |s.calls|));
  }

  lemma SamePrefix(a: seq<Entry>, b: seq<Entry>, c: seq<Entry>, x: seq<Entry>, y: seq<Entry>)
    requires a + b == (a + x) + y && c == x + y
    ensures b == c
  {
    assert (a + b)[|a|..] == b;
    assert ((a + x) + y)[|a|..] == x + y;
  }

  lemma StepShows(d: Readers, messages: seq<Message>, n: nat, s: State)
    requires n < |messages| && Open(d, messages, n, s) && SyntheticState(s) && |s.calls| == |Emissions(d, messages[..n])|
    ensures Open(d, messages, n + 1, Step(d, s, messages[n]))
  {
    var m := messages[n];
    StepBySpeaker(d, s, m);
    if StandsAlone(m) {
      AloneShows(d, messages, n, s);
    } else if Speaker(m.kind) == Some(Assistant) && !Hidden(d, m) {
      VoiceShows(d, messages, n, s);
    } else {
      QuietShows(d, messages, n, s, Step(d, s, m));
    }
  }

  lemma FirstState(d: Readers, messages: seq<Message>)
    ensures Open(d, messages, 0, FoldMessages(d, START, messages[..0]))
  {
    assert messages[..0] == [];
    assert LastAlone(messages, 0) == 0 && FirstVoice(d, messages, 0, 0) == None;
  }

  lemma FoldNext(d: Readers, messages: seq<Message>, n: nat)
    requires n < |messages|
    ensures FoldMessages(d, START, messages[..n + 1]) == Step(d, FoldMessages(d, START, messages[..n]), messages[n])
  {
    assert messages[..n + 1] == messages[..n] + [messages[n]];
    FoldOne(d, messages[..n], messages[n]);
  }

  lemma {:induction false} FoldShows(d: Readers, messages: seq<Message>, n: nat)
    requires n <= |messages|
    ensures Open(d, messages, n, FoldMessages(d, START, messages[..n]))
  {
    if n > 0 {
      FoldShows(d, messages, n - 1);
      FoldSynthetic(d, messages[..n - 1]);
      FoldTable(d, messages[..n - 1]);
      FoldNext(d, messages, n - 1);
      StepShows(d, messages, n - 1, FoldMessages(d, START, messages[..n - 1]));
    } else {
      FirstState(d, messages);
    }
  }

  // ------------------------------------------------------------------------ theorem

  /** How many things are said before bubble `a`. */
  function Start(outline: seq<Bubble>, a: nat): nat
    requires a <= |outline|
  {
    if a == 0 then 0 else Start(outline, a - 1) + |outline[a - 1].says|
  }

  /** The messages have these roles and ids, and each holds the places of what it says. */
  ghost predicate Grouped(out: seq<ThreadMessage>, places: seq<Place>, outline: seq<Bubble>) {
    && |out| == |outline| && |places| == Start(outline, |outline|)
    && (forall a :: 0 <= a < |out| ==> out[a].role == outline[a].role && out[a].id == outline[a].id)
    && (forall j :: 0 <= j < |places| ==> HoldsAt(outline, places[j].message, j))
  }

  /** The `j`-th of all things said is said in bubble `a`. */
  ghost predicate HoldsAt(outline: seq<Bubble>, a: nat, j: nat) {
    a < |outline| && Start(outline, a) <= j < Start(outline, a) + |outline[a].says|
  }

  lemma {:induction false} StartOfLonger(outline: seq<Bubble>, b: Bubble, a: nat)
    requires a <= |outline|
    ensures Start(outline + [b], a) == Start(outline, a)
  {
    if a > 0 { StartOfLonger(outline, b, a - 1); }
  }

  lemma GroupedNext(messages: seq<ThreadMessage>, m: ThreadMessage, places: seq<Place>, more: seq<Place>)
    requires Grouped(messages, places, Bubbles(messages)) && |more| == |EntriesOf(m.role, m.parts)|
    requires forall j :: 0 <= j < |more| ==> more[j].message == |messages|
    ensures Grouped(messages + [m], places + more, Bubbles(messages + [m]))
  {
    var outline, longer := Bubbles(messages), Bubbles(messages + [m]);
    BubblesPush(messages, m);
    StartOfLonger(outline, BubbleOf(m), |messages|);
    forall j | 0 <= j < |places + more| ensures HoldsAt(longer, (places + more)[j].message, j) {
      if j < |places| {
        assert HoldsAt(outline, places[j].message, j);
        StartOfLonger(outline, BubbleOf(m), places[j].message);
      }
    }
  }

  lemma {:induction false} PlacesGrouped(messages: seq<ThreadMessage>)
    ensures Grouped(messages, PlacesOf(messages), Bubbles(messages))
  {
    if messages != [] {
      var n := |messages| - 1;
      PlacesGrouped(messages[..n]);
      PartPlacesMatch(n, messages[n].role, messages[n].parts);
      assert messages == messages[..n] + [messages[n]];
      GroupedNext(messages[..n], messages[n], PlacesOf(messages[..n]), PartPlaces(n, messages[n].role, messages[n].parts));
    }
  }

  lemma ClosedOutline(d: Readers, messages: seq<Message>)
    ensures Bubbles(CloseTurn(d, FoldMessages(d, START, messages)).result) == Outline(d, messages, |messages|)
  {
    assert messages[..|messages|] == messages;
    FoldShows(d, messages, |messages|);
    FoldSynthetic(d, messages);
    ClosedShows(d, messages, |messages|, FoldMessages(d, START, messages));
  }

  /** The output has one message for each message that stands on its own and says something,
      under its role and id, and one for all the assistant says between two of them, under the
      id of the first message in which it does; and each holds, in order, what those messages
      say, with nothing in between but artifact and file views. */
  lemma ShownTogether(d: Readers, messages: seq<Message>)
    ensures var out := ToThreadMessages(d, messages);
      exists places :: Reads(d, messages, out, places) && Grouped(out, places, Outline(d, messages, |messages|))
  {
    var closed := CloseTurn(d, FoldMessages(d, START, messages));
    ClosedOutline(d, messages);
    PlacesGrouped(closed.result);
    PlacesRead(d, messages);
    assert Grouped(ToThreadMessages(d, messages), PlacesOf(closed.result), Outline(d, messages, |messages|));
  }
}
