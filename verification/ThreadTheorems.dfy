/** Which result a call ends up with, and which part of a conversion later messages
    leave alone. */
module ThreadTheorems {
  import opened Options
  import opened ThreadModel
  import opened ThreadMeaning
  import ThreadIds
  import ThreadPlacement

  /** `q` is the next emission after `k` under the same wire id, or the end. */
  ghost predicate NextReuse(emissions: seq<Emission>, k: nat, q: nat) {
    && k < q <= |emissions|
    && (forall i :: k < i < q ==> emissions[i].call.id != emissions[k].call.id)
    && (q < |emissions| ==> emissions[q].call.id == emissions[k].call.id)
  }

  /** The message at which the wire id of a call passes to another call, or the end. */
  function HandedOver(emissions: seq<Emission>, q: nat, end: nat): nat {
    if q < |emissions| then emissions[q].message else end
  }

  /** Message `t` reports on the wire id between the two given messages. */
  ghost predicate Answers(messages: seq<Message>, id: string, from: nat, to: nat, t: nat) {
    from < t < to && t < |messages| && messages[t].kind == "tool" && messages[t].callId == id
  }

  ghost predicate LastAnswer(messages: seq<Message>, id: string, from: nat, to: nat, t: nat) {
    Answers(messages, id, from, to, t) && forall u: nat :: Answers(messages, id, from, to, u) ==> u <= t
  }

  /** A call carries the decoded content of the last message that reports on it, nothing
      when there is none, and an error once any of them does. */
  ghost predicate Joined(d: Readers, messages: seq<Message>, id: string, from: nat, to: nat, call: ToolCall) {
    && (forall t: nat :: LastAnswer(messages, id, from, to, t) ==> call.result == d.decode(messages[t].content))
    && ((forall t: nat :: !Answers(messages, id, from, to, t)) ==> call.result == Undefined)
    && (call.isError <==> exists t: nat :: Answers(messages, id, from, to, t) && messages[t].failed)
  }

  // --------------------------------------------------------------- the table of calls

  ghost predicate WireTable(emissions: seq<Emission>, byWire: map<string, nat>) {
    && (forall w :: w in byWire ==> byWire[w] < |emissions| && emissions[byWire[w]].call.id == w
                                    && forall k :: byWire[w] < k < |emissions| ==> emissions[k].call.id != w)
    && (forall k :: 0 <= k < |emissions| ==> emissions[k].call.id in byWire)
  }

  ghost predicate SameCall(call: ToolCall, wire: WireCall) {
    && call.name == wire.name && call.args == wire.args
    && exists r: nat :: r >= 1 && call.id == Candidate(wire.id, r)
  }

  ghost predicate Table(emissions: seq<Emission>, s: State) {
    && |s.calls| == |emissions|
    && (forall k :: 0 <= k < |emissions| ==> emissions[k].call.id != "" && SameCall(s.calls[k], emissions[k].call))
    && WireTable(emissions, s.byWire)
  }

  lemma WireTableAdd(emissions: seq<Emission>, byWire: map<string, nat>, e: Emission)
    requires WireTable(emissions, byWire)
    ensures WireTable(emissions + [e], byWire[e.call.id := |emissions|])
  {
    var after := emissions + [e];
    forall k | 0 <= k < |after| ensures after[k].call.id in byWire[e.call.id := |emissions|] {
      if k < |emissions| { assert emissions[k].call.id in byWire; }
    }
  }

  lemma UniqueIdCandidate(id: string, used: set<string>)
    ensures exists r: nat :: r >= 1 && UniqueId(id, used) == Candidate(id, r)
  {
    ThreadIds.FirstFreeIsFree(id, used, 1);
    var r := FirstFree(id, used, 1);
    assert UniqueId(id, used) == Candidate(id, r);
  }

  lemma EmitOneTable(emissions: seq<Emission>, s: State, c: WireCall, n: nat)
    requires Table(emissions, s) && s.turn.Some? && c.id != ""
    ensures var s' := EmitOne(s, c);
      Table(emissions + [Emission(n, c)], s') && s'.calls[..|s.calls|] == s.calls
      && s'.calls[|s.calls|].result == Undefined && !s'.calls[|s.calls|].isError
  {
    UniqueIdCandidate(c.id, s.used);
    WireTableAdd(emissions, s.byWire, Emission(n, c));
  }

  ghost predicate Fresh(calls: seq<ToolCall>, from: nat) {
    forall k :: from <= k < |calls| ==> calls[k].result == Undefined && !calls[k].isError
  }

  lemma {:induction false} EmitTable(emissions: seq<Emission>, s: State, calls: seq<WireCall>, n: nat, message: nat)
    requires n <= |calls| && Table(emissions, s) && s.turn.Some?
    requires forall i :: 0 <= i < |calls| ==> calls[i].id != ""
    ensures var s' := EmitUpTo(s, calls, n);
      && Table(emissions + At(calls[..n], message), s')
      && |s.calls| <= |s'.calls| && s'.calls[..|s.calls|] == s.calls && Fresh(s'.calls, |s.calls|)
  {
    if n == 0 {
      assert emissions + At(calls[..0], message) == emissions;
    } else {
      EmitTable(emissions, s, calls, n - 1, message);
      assert EmitUpTo(s, calls, n) == EmitOne(EmitUpTo(s, calls, n - 1), calls[n - 1]);
      EmitNext(emissions + At(calls[..n - 1], message), s.calls, EmitUpTo(s, calls, n - 1), calls[n - 1], message);
      AtNext(emissions, calls, n, message);
    }
  }

  lemma AtNext(emissions: seq<Emission>, calls: seq<WireCall>, n: nat, message: nat)
    requires 0 < n <= |calls|
    ensures emissions + At(calls[..n], message) == emissions + At(calls[..n - 1], message) + [Emission(message, calls[n - 1])]
  {
  }

  lemma EmitNext(emissions: seq<Emission>, calls: seq<ToolCall>, s: State, c: WireCall, message: nat)
    requires Table(emissions, s) && s.turn.Some? && c.id != ""
    requires |calls| <= |s.calls| && s.calls[..|calls|] == calls && Fresh(s.calls, |calls|)
    ensures var s' := EmitOne(s, c);
      && Table(emissions + [Emission(message, c)], s')
      && |calls| <= |s'.calls| && s'.calls[..|calls|] == calls && Fresh(s'.calls, |calls|)
  {
    EmitOneTable(emissions, s, c, message);
    AppendKeeps(s.calls, EmitOne(s, c).calls, |calls|);
  }

  lemma AppendKeeps(before: seq<ToolCall>, after: seq<ToolCall>, from: nat)
    requires from <= |before| && |after| == |before| + 1 && after[..|before|] == before && Fresh(before, from)
    requires after[|before|].result == Undefined && !after[|before|].isError
    ensures after[..from] == before[..from] && Fresh(after, from)
  {
    forall k | 0 <= k < |before| ensures after[k] == before[k] { assert after[..|before|][k] == before[k]; }
  }

  lemma AddedTable(emissions: seq<Emission>, s: State, id: Option<string>, parts: seq<Part>)
    requires Table(emissions, s)
    ensures Table(emissions, AddParts(s, id, parts)) && AddParts(s, id, parts).calls == s.calls && AddParts(s, id, parts).turn.Some?
  {
  }

  lemma StepToolTable(d: Readers, emissions: seq<Emission>, s: State, m: Message)
    requires Table(emissions, s)
    ensures Table(emissions, StepTool(d, s, m)) && |StepTool(d, s, m).calls| == |s.calls|
    ensures forall k :: 0 <= k < |s.calls| ==>
      StepTool(d, s, m).calls[k] ==
        if emissions[k].call.id == m.callId && s.byWire[m.callId] == k
        then s.calls[k].(result := d.decode(m.content), isError := s.calls[k].isError || m.failed)
        else s.calls[k]
  {
  }

  /** A device summary joins the turn as a part of its own, keyed by its message, or by the
      number of messages so far if that has no id. */
  lemma SummaryJoins(s: State, m: Message, interactions: seq<nat>)
    ensures var s' := StepSummary(s, m, interactions);
      && s'.turn.Some? && s'.turn.value.parts != [] && s'.result == s.result && s'.calls == s.calls
      && match s'.turn.value.parts[|s'.turn.value.parts| - 1]
         case FixedPart(c) => (
           && c.name == "__wotbot_wot_summary__" && c.args == map["interactions" := Items(interactions)]
           && c.result == Undefined && !c.isError && c.id in s'.used && c.id !in s.used
           && exists r: nat :: r >= 1 && c.id == Candidate(SummaryKey(m, |s.result|), r))
         case _ => false
  {
    UniqueIdCandidate(SummaryKey(m, |s.result|), s.used);
    ThreadIds.FirstFreeIsFree(SummaryKey(m, |s.result|), s.used, 1);
  }

  /** What one message does to the calls already emitted, and what it emits. */
  lemma StepTable(d: Readers, emissions: seq<Emission>, s: State, m: Message, n: nat)
    requires Table(emissions, s)
    ensures var s' := Step(d, s, m);
      && Table(emissions + At(Emitted(d, m), n), s')
      && |s.calls| <= |s'.calls| && Fresh(s'.calls, |s.calls|)
      && (m.kind != "tool" ==> s'.calls[..|s.calls|] == s.calls)
  {
    KindsAgree(m);
    if Emitted(d, m) != [] {
      var s1 := AddParts(s, m.id, ReasoningParts(m) + ContentParts(m.content));
      var calls := ToolCalls(m.calls);
      CallsAgree(m.calls);
      AddedTable(emissions, s, m.id, ReasoningParts(m) + ContentParts(m.content));
      EmitTable(emissions, s1, calls, |calls|, n);
      assert calls[..|calls|] == calls;
    } else {
      assert emissions + At([], n) == emissions;
      StepQuiet(d, emissions, s, m);
    }
  }

  lemma StepQuiet(d: Readers, emissions: seq<Emission>, s: State, m: Message)
    requires Table(emissions, s) && Emitted(d, m) == []
    ensures Table(emissions, Step(d, s, m)) && |Step(d, s, m).calls| == |s.calls|
    ensures m.kind != "tool" ==> Step(d, s, m).calls == s.calls
  {
    KindsAgree(m);
    CallsAgree(m.calls);
    if m.kind == "tool" {
      StepToolTable(d, emissions, s, m);
    } else if IsUser(m) {
      CloseTurnKeeps(d, s);
    } else if IsAssistant(m) {
      AddedTable(emissions, s, m.id, ReasoningParts(m) + ContentParts(m.content));
    } else if IsSystem(m) {
      CloseTurnKeeps(d, s);
    }
  }

  lemma {:induction false} FoldTable(d: Readers, messages: seq<Message>)
    ensures Table(Emissions(d, messages), FoldMessages(d, START, messages))
  {
    if messages != [] {
      var n := |messages| - 1;
      FoldTable(d, messages[..n]);
      StepTable(d, Emissions(d, messages[..n]), FoldMessages(d, START, messages[..n]), messages[n], n);
    }
  }

  // ------------------------------------------------------------------ result join

  /** Where an emission comes from never lies beyond the messages. */
  lemma {:induction false} EmissionPlaces(d: Readers, messages: seq<Message>)
    ensures forall k :: 0 <= k < |Emissions(d, messages)| ==> Emissions(d, messages)[k].message < |messages|
  {
    if messages != [] { EmissionPlaces(d, messages[..|messages| - 1]); }
  }

  /** One more message beyond the window of a call leaves the window alone. */
  lemma JoinedBeyond(d: Readers, messages: seq<Message>, m: Message, id: string, from: nat, to: nat, call: ToolCall)
    requires to <= |messages| && Joined(d, messages, id, from, to, call)
    ensures Joined(d, messages + [m], id, from, to, call)
  {
    var longer := messages + [m];
    assert forall t: nat :: Answers(longer, id, from, to, t) <==> Answers(messages, id, from, to, t);
    forall t: nat | LastAnswer(longer, id, from, to, t) ensures call.result == d.decode(longer[t].content) {
      assert LastAnswer(messages, id, from, to, t);
    }
    if t: nat :| Answers(messages, id, from, to, t) && messages[t].failed {
      assert Answers(longer, id, from, to, t) && longer[t].failed;
    }
  }

  /** One more message in the window that does not report on the call changes nothing. */
  lemma JoinedQuiet(d: Readers, messages: seq<Message>, m: Message, id: string, from: nat, call: ToolCall)
    requires Joined(d, messages, id, from, |messages|, call) && !(m.kind == "tool" && m.callId == id)
    ensures Joined(d, messages + [m], id, from, |messages| + 1, call)
  {
    var longer, n := messages + [m], |messages|;
    assert forall t: nat :: Answers(longer, id, from, n + 1, t) <==> Answers(messages, id, from, n, t);
    forall t: nat | LastAnswer(longer, id, from, n + 1, t) ensures call.result == d.decode(longer[t].content) {
      assert LastAnswer(messages, id, from, n, t);
    }
    if t: nat :| Answers(messages, id, from, n, t) && messages[t].failed {
      assert Answers(longer, id, from, n + 1, t) && longer[t].failed;
    }
  }

  /** One more report replaces the result, and keeps or sets the error. */
  lemma JoinedReport(d: Readers, messages: seq<Message>, m: Message, id: string, from: nat, call: ToolCall)
    requires from < |messages| && Joined(d, messages, id, from, |messages|, call) && m.kind == "tool" && m.callId == id
    ensures Joined(d, messages + [m], id, from, |messages| + 1,
                   call.(result := d.decode(m.content), isError := call.isError || m.failed))
  {
    var longer, n := messages + [m], |messages|;
    ReportWindow(messages, m, id, from);
    var call' := call.(result := d.decode(m.content), isError := call.isError || m.failed);
    forall t: nat | LastAnswer(longer, id, from, n + 1, t) ensures call'.result == d.decode(longer[t].content) {
      assert Answers(longer, id, from, n + 1, n) && t == n;
    }
    if m.failed {
      assert Answers(longer, id, from, n + 1, n) && longer[n].failed;
    } else if call.isError {
      var t: nat :| Answers(messages, id, from, n, t) && messages[t].failed;
      assert Answers(longer, id, from, n + 1, t) && longer[t].failed;
    } else {
      assert forall t: nat :: Answers(longer, id, from, n + 1, t) ==> !longer[t].failed;
    }
  }

  lemma ReportWindow(messages: seq<Message>, m: Message, id: string, from: nat)
    requires from < |messages| && m.kind == "tool" && m.callId == id
    ensures var longer, n := messages + [m], |messages|;
      && Answers(longer, id, from, n + 1, n) && longer[n] == m
      && (forall t: nat :: Answers(longer, id, from, n + 1, t) <==> Answers(messages, id, from, n, t) || t == n)
      && (forall t: nat :: Answers(messages, id, from, n, t) ==> longer[t] == messages[t])
  {
  }

  /** Cutting the emissions of the last message off a window. */
  lemma CutReuse(before: seq<Emission>, more: seq<Emission>, k: nat, q: nat)
    requires k < |before| && NextReuse(before + more, k, q)
    ensures NextReuse(before, k, if q < |before| then q else |before|)
  {
    var all := before + more;
    assert forall i :: 0 <= i < |before| ==> all[i] == before[i];
  }

  /** While its window is open, the table leads from the wire id to the call, afterwards not. */
  lemma OpenWindow(emissions: seq<Emission>, byWire: map<string, nat>, k: nat, q: nat)
    requires WireTable(emissions, byWire) && NextReuse(emissions, k, q)
    ensures emissions[k].call.id in byWire && (byWire[emissions[k].call.id] == k <==> q == |emissions|)
  {
    var w := emissions[k].call.id;
    assert w in byWire;
    var last := byWire[w];
    assert emissions[last].call.id == w;
  }

  ghost predicate JoinedAt(d: Readers, messages: seq<Message>, k: nat, q: nat)
    requires NextReuse(Emissions(d, messages), k, q)
  {
    var emissions, s := Emissions(d, messages), FoldMessages(d, START, messages);
    && k < |s.calls|
    && Joined(d, messages, emissions[k].call.id, emissions[k].message, HandedOver(emissions, q, |messages|), s.calls[k])
  }

  lemma NewCallJoined(d: Readers, messages: seq<Message>, m: Message, k: nat, q: nat)
    requires NextReuse(Emissions(d, messages + [m]), k, q) && |Emissions(d, messages)| <= k
    ensures JoinedAt(d, messages + [m], k, q)
  {
    var before, longer, s := Emissions(d, messages), messages + [m], FoldMessages(d, START, messages);
    assert longer[..|messages|] == messages;
    FoldTable(d, messages);
    StepTable(d, before, s, m, |messages|);
    EmissionPlaces(d, longer);
    var all := Emissions(d, longer);
  }

  /** A call keeps its result through a message that is not a report. */
  lemma OldCallQuiet(d: Readers, messages: seq<Message>, m: Message, k: nat, q: nat)
    requires k < |Emissions(d, messages)| && NextReuse(Emissions(d, messages + [m]), k, q)
    requires var before := Emissions(d, messages); var cut := if q < |before| then q else |before|;
      NextReuse(before, k, cut) && JoinedAt(d, messages, k, cut)
    requires m.kind != "tool"
    ensures JoinedAt(d, messages + [m], k, q)
  {
    var before, longer, s := Emissions(d, messages), messages + [m], FoldMessages(d, START, messages);
    var all := Emissions(d, longer);
    assert longer[..|messages|] == messages;
    FoldTable(d, messages);
    StepTable(d, before, s, m, |messages|);
    EmissionPlaces(d, messages);
    var s' := FoldMessages(d, START, longer);
    assert s'.calls[k] == s'.calls[..|s.calls|][k] == s.calls[k];
    assert all[k] == before[k];
    if q == |all| {
      JoinedQuiet(d, messages, m, before[k].call.id, before[k].message, s.calls[k]);
    } else if q < |before| {
      assert all[q] == before[q];
      JoinedBeyond(d, messages, m, before[k].call.id, before[k].message, before[q].message, s.calls[k]);
    } else {
      JoinedBeyond(d, messages, m, before[k].call.id, before[k].message, |messages|, s.calls[k]);
    }
  }

  /** A report reaches a call exactly while its window is open. */
  lemma ReportReaches(d: Readers, messages: seq<Message>, before: seq<Emission>, s: State, m: Message, k: nat, q: nat)
    requires Table(before, s) && NextReuse(before, k, q) && m.kind == "tool"
    requires forall i :: 0 <= i < |before| ==> before[i].message < |messages|
    requires Joined(d, messages, before[k].call.id, before[k].message, HandedOver(before, q, |messages|), s.calls[k])
    ensures |StepTool(d, s, m).calls| == |s.calls|
    ensures Joined(d, messages + [m], before[k].call.id, before[k].message, HandedOver(before, q, |messages| + 1),
                   StepTool(d, s, m).calls[k])
  {
    var id, from := before[k].call.id, before[k].message;
    StepToolTable(d, before, s, m);
    OpenWindow(before, s.byWire, k, q);
    if q < |before| {
      JoinedBeyond(d, messages, m, id, from, before[q].message, s.calls[k]);
    } else if m.callId == id {
      JoinedReport(d, messages, m, id, from, s.calls[k]);
    } else {
      JoinedQuiet(d, messages, m, id, from, s.calls[k]);
    }
  }

  lemma ReportStep(d: Readers, messages: seq<Message>, m: Message)
    requires m.kind == "tool"
    ensures Emissions(d, messages + [m]) == Emissions(d, messages)
    ensures FoldMessages(d, START, messages + [m]) == StepTool(d, FoldMessages(d, START, messages), m)
  {
    EmissionsOne(d, messages, m);
    assert Emissions(d, messages) + At([], |messages|) == Emissions(d, messages);
    FoldOne(d, messages, m);
    StepBySpeaker(d, FoldMessages(d, START, messages), m);
  }

  lemma OldCallReport(d: Readers, messages: seq<Message>, m: Message, k: nat, q: nat)
    requires k < |Emissions(d, messages)| && NextReuse(Emissions(d, messages), k, q) && JoinedAt(d, messages, k, q)
    requires m.kind == "tool"
    ensures Emissions(d, messages + [m]) == Emissions(d, messages) && JoinedAt(d, messages + [m], k, q)
  {
    ReportStep(d, messages, m);
    FoldTable(d, messages);
    EmissionPlaces(d, messages);
    ReportReaches(d, messages, Emissions(d, messages), FoldMessages(d, START, messages), m, k, q);
  }

  lemma {:induction false} FoldJoins(d: Readers, messages: seq<Message>, k: nat, q: nat)
    requires NextReuse(Emissions(d, messages), k, q)
    ensures JoinedAt(d, messages, k, q)
  {
    var n := |messages| - 1;
    var shorter, m := messages[..n], messages[n];
    assert messages == shorter + [m];
    var before := Emissions(d, shorter);
    if |before| <= k {
      NewCallJoined(d, shorter, m, k, q);
    } else {
      CutReuse(before, At(Emitted(d, m), n), k, q);
      FoldJoins(d, shorter, k, if q < |before| then q else |before|);
      if m.kind == "tool" {
        assert At(Emitted(d, m), n) == [];
        OldCallReport(d, shorter, m, k, q);
      } else {
        OldCallQuiet(d, shorter, m, k, q);
      }
    }
  }

  /** Every emission is followed by another under its wire id or by the end. */
  lemma {:induction false} SomeReuse(emissions: seq<Emission>, k: nat, from: nat)
    requires k < from <= |emissions| && forall i :: k < i < from ==> emissions[i].call.id != emissions[k].call.id
    ensures exists q: nat :: NextReuse(emissions, k, q)
    decreases |emissions| - from
  {
    if from == |emissions| || emissions[from].call.id == emissions[k].call.id {
      assert NextReuse(emissions, k, from);
    } else {
      SomeReuse(emissions, k, from + 1);
    }
  }

  // --------------------------------------------------------------- prefix stability

  /** The wire id was emitted by one of the messages. */
  ghost predicate Issued(d: Readers, messages: seq<Message>, id: string) {
    Bears(Emissions(d, messages), id)
  }

  ghost predicate Bears(emissions: seq<Emission>, id: string) {
    exists k :: 0 <= k < |emissions| && emissions[k].call.id == id
  }

  /** Every report answers a call issued before it in `later`, or no call of `earlier`. */
  ghost predicate SelfContained(d: Readers, earlier: seq<Message>, later: seq<Message>) {
    forall t :: 0 <= t < |later| && later[t].kind == "tool" ==>
      Issued(d, later[..t], later[t].callId) || !Issued(d, earlier, later[t].callId)
  }

  ghost predicate IsPrefix<T>(a: seq<T>, b: seq<T>) {
    |a| <= |b| && b[..|a|] == a
  }

  lemma PrefixMore<T>(a: seq<T>, b: seq<T>, c: seq<T>)
    requires IsPrefix(a, b) && IsPrefix(b, c)
    ensures IsPrefix(a, c)
  {
    assert c[..|a|] == c[..|b|][..|a|];
  }

  /** `all` is the calls of `a`, then those of `b`. */
  ghost predicate Follows(a: seq<Emission>, b: seq<Emission>, all: seq<Emission>) {
    |all| == |a| + |b| && IsPrefix(a, all) && forall j :: 0 <= j < |b| ==> all[|a| + j].call == b[j].call
  }

  lemma {:induction false} EmissionsConcat(d: Readers, xs: seq<Message>, ys: seq<Message>)
    ensures Follows(Emissions(d, xs), Emissions(d, ys), Emissions(d, xs + ys))
  {
    if ys == [] {
      assert xs + ys == xs;
      assert Follows(Emissions(d, xs), [], Emissions(d, xs));
    } else {
      var n := |ys| - 1;
      EmissionsConcat(d, xs, ys[..n]);
      assert ys == ys[..n] + [ys[n]];
      EmissionsNext(d, xs, ys[..n], ys[n]);
    }
  }

  lemma EmissionsNext(d: Readers, xs: seq<Message>, ys: seq<Message>, m: Message)
    requires Follows(Emissions(d, xs), Emissions(d, ys), Emissions(d, xs + ys))
    ensures Follows(Emissions(d, xs), Emissions(d, ys + [m]), Emissions(d, xs + (ys + [m])))
  {
    var zs, zs' := xs + ys, xs + (ys + [m]);
    assert zs' == zs + [m];
    EmissionsOne(d, zs, m);
    EmissionsOne(d, ys, m);
    SameCallsJoin(Emissions(d, xs), Emissions(d, ys), Emissions(d, zs), Emitted(d, m), |zs|, |ys|,
                  Emissions(d, ys + [m]), Emissions(d, zs'));
  }

  lemma EmissionsOne(d: Readers, messages: seq<Message>, m: Message)
    ensures Emissions(d, messages + [m]) == Emissions(d, messages) + At(Emitted(d, m), |messages|)
  {
    assert (messages + [m])[..|messages|] == messages;
  }

  lemma SameCallsJoin(a: seq<Emission>, b: seq<Emission>, all: seq<Emission>, calls: seq<WireCall>, m: nat, n: nat,
                      b': seq<Emission>, all': seq<Emission>)
    requires Follows(a, b, all) && b' == b + At(calls, n) && all' == all + At(calls, m)
    ensures Follows(a, b', all')
  {
  }

  lemma CloseTurnKeeps(d: Readers, s: State)
    ensures CloseTurn(d, s).calls == s.calls && IsPrefix(s.result, CloseTurn(d, s).result)
  {
  }

  lemma {:induction false} EmitKeeps(s: State, calls: seq<WireCall>, n: nat)
    requires n <= |calls| && s.turn.Some?
    ensures EmitUpTo(s, calls, n).result == s.result
  {
    if n > 0 { EmitKeeps(s, calls, n - 1); }
  }

  /** What is closed is never reopened. */
  lemma StepKeeps(d: Readers, s: State, m: Message)
    ensures IsPrefix(s.result, Step(d, s, m).result)
  {
    CloseTurnKeeps(d, s);
    if IsAssistant(m) {
      var s1 := AddParts(s, m.id, ReasoningParts(m) + ContentParts(m.content));
      EmitKeeps(s1, ToolCalls(m.calls), |ToolCalls(m.calls)|);
    }
  }

  /** A report that answers no earlier call leaves the earlier calls alone. */
  lemma ReportPasses(d: Readers, all: seq<Emission>, a: seq<Emission>, b: seq<Emission>, s: State, m: Message)
    requires Table(all, s) && Follows(a, b, all)
    requires Bears(b, m.callId) || !Bears(a, m.callId)
    ensures |StepTool(d, s, m).calls| == |s.calls| && StepTool(d, s, m).calls[..|a|] == s.calls[..|a|]
  {
    StepToolTable(d, all, s, m);
    forall k | 0 <= k < |a| ensures StepTool(d, s, m).calls[k] == s.calls[k] {
      NotReached(all, a, b, s.byWire, m.callId, k);
    }
  }

  /** A wire id that a later call bears, or no earlier one, does not lead to an earlier call. */
  lemma NotReached(all: seq<Emission>, a: seq<Emission>, b: seq<Emission>, byWire: map<string, nat>, id: string, k: nat)
    requires WireTable(all, byWire) && k < |a| && Follows(a, b, all)
    requires Bears(b, id) || !Bears(a, id)
    ensures !(all[k].call.id == id && byWire[id] == k)
  {
    assert all[..|a|][k] == a[k];
    if Bears(b, id) {
      var j :| 0 <= j < |b| && b[j].call.id == id;
      assert all[|a| + j].call.id == id;
    }
  }

  lemma {:induction false} CallsKept(d: Readers, xs: seq<Message>, ys: seq<Message>)
    requires SelfContained(d, xs, ys)
    ensures IsPrefix(FoldMessages(d, START, xs).calls, FoldMessages(d, START, xs + ys).calls)
  {
    if ys == [] {
      assert xs + ys == xs;
    } else {
      var n := |ys| - 1;
      SelfContainedBefore(d, xs, ys, n);
      CallsKept(d, xs, ys[..n]);
      assert xs + ys == xs + ys[..n] + [ys[n]];
      FoldOne(d, xs + ys[..n], ys[n]);
      CallsKeptNext(d, xs, ys[..n], ys[n]);
    }
  }

  lemma SelfContainedBefore(d: Readers, xs: seq<Message>, ys: seq<Message>, n: nat)
    requires n <= |ys| && SelfContained(d, xs, ys)
    ensures SelfContained(d, xs, ys[..n])
  {
    assert forall t :: 0 <= t < n ==> ys[..n][..t] == ys[..t];
  }

  lemma CallsKeptNext(d: Readers, xs: seq<Message>, ys: seq<Message>, m: Message)
    requires IsPrefix(FoldMessages(d, START, xs).calls, FoldMessages(d, START, xs + ys).calls)
    requires m.kind == "tool" ==> Issued(d, ys, m.callId) || !Issued(d, xs, m.callId)
    ensures IsPrefix(FoldMessages(d, START, xs).calls, Step(d, FoldMessages(d, START, xs + ys), m).calls)
  {
    var base, s, all := FoldMessages(d, START, xs).calls, FoldMessages(d, START, xs + ys), Emissions(d, xs + ys);
    FoldTable(d, xs);
    FoldTable(d, xs + ys);
    if m.kind == "tool" {
      EmissionsConcat(d, xs, ys);
      ReportPasses(d, all, Emissions(d, xs), Emissions(d, ys), s, m);
    } else {
      StepTable(d, all, s, m, |xs + ys|);
      PrefixMore(base, s.calls, Step(d, s, m).calls);
    }
  }

  /** After a message that stands on its own, the closed turns of the earlier messages
      stay in front. */
  lemma {:induction false} ResultKept(d: Readers, xs: seq<Message>, own: Message, ys: seq<Message>)
    requires StandsAlone(own)
    ensures IsPrefix(CloseTurn(d, FoldMessages(d, START, xs)).result, FoldMessages(d, START, xs + [own] + ys).result)
  {
    var closed := CloseTurn(d, FoldMessages(d, START, xs)).result;
    if ys == [] {
      assert xs + [own] + ys == xs + [own];
      FoldOne(d, xs, own);
    } else {
      var n := |ys| - 1;
      ResultKept(d, xs, own, ys[..n]);
      var s := FoldMessages(d, START, xs + [own] + ys[..n]);
      assert xs + [own] + ys == xs + [own] + ys[..n] + [ys[n]];
      FoldOne(d, xs + [own] + ys[..n], ys[n]);
      StepKeeps(d, s, ys[n]);
      PrefixMore(closed, s.result, Step(d, s, ys[n]).result);
    }
  }

  lemma FoldOne(d: Readers, messages: seq<Message>, m: Message)
    ensures FoldMessages(d, START, messages + [m]) == Step(d, FoldMessages(d, START, messages), m)
  {
    assert (messages + [m])[..|messages|] == messages;
  }

  lemma ResolvedPrefix(a: seq<ToolCall>, b: seq<ToolCall>, xs: seq<ThreadMessage>, ys: seq<ThreadMessage>)
    requires IsPrefix(a, b) && IsPrefix(xs, ys)
    requires forall i :: 0 <= i < |xs| ==> ThreadModel.RefsOk(a, xs[i].parts)
    ensures IsPrefix(ResolveAll(a, xs), ResolveAll(b, ys))
  {
    forall i | 0 <= i < |xs| ensures ResolveAll(b, ys)[i] == ResolveAll(a, xs)[i] {
      assert ys[i] == ys[..|xs|][i];
      ResolvedParts(a, b, xs[i].parts);
    }
  }

  lemma ResolvedParts(a: seq<ToolCall>, b: seq<ToolCall>, parts: seq<Part>)
    requires IsPrefix(a, b) && RefsOk(a, parts)
    ensures ResolveParts(a, parts) == ResolveParts(b, parts)
  {
    forall i | 0 <= i < |parts| ensures Resolve(a, parts[i]) == Resolve(b, parts[i]) {
      assert RefOk(a, parts[i]);
      if parts[i].CallPart? { assert b[..|a|][parts[i].ref] == a[parts[i].ref]; }
    }
  }

  /** A list followed by a human or system message, and then by messages whose reports
      answer their own calls, converts to a prefix of the longer conversion. */
  lemma PrefixStability(d: Readers, xs: seq<Message>, own: Message, ys: seq<Message>)
    requires StandsAlone(own)
    requires SelfContained(d, xs, [own] + ys)
    ensures IsPrefix(ToThreadMessages(d, xs), ToThreadMessages(d, xs + [own] + ys))
  {
    var s, s' := FoldMessages(d, START, xs), FoldMessages(d, START, xs + [own] + ys);
    assert xs + [own] + ys == xs + ([own] + ys);
    CallsKept(d, xs, [own] + ys);
    ResultKept(d, xs, own, ys);
    CloseTurnKeeps(d, s);
    CloseTurnKeeps(d, s');
    PrefixMore(CloseTurn(d, s).result, s'.result, CloseTurn(d, s').result);
    ThreadIds.ClosedIds(d, xs);
    ResolvedPrefix(s.calls, s'.calls, CloseTurn(d, s).result, CloseTurn(d, s').result);
  }
}
