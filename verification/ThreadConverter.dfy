/** The converter of a running chat.  It decodes each message object once and hands out old
    parts and messages again where the new ones are the same, and still shows, after every
    call of any history, what the plain conversion of the current snapshot gives. */
module ThreadConverter {
  import opened Options
  import opened ThreadModel
  import opened ThreadHeap
  import opened ThreadConversion

  class Converter {
    const reader: Reader
    var previous: seq<OutMessage>
    /** What the previous messages show. */
    ghost var shown: seq<ThreadMessage>

    constructor (d: Readers)
      ensures Valid() && fresh(reader) && reader.d == d && reader.remembers && previous == []
    {
      reader := new Reader(d, true);
      previous := [];
      shown := [];
    }

    ghost predicate Valid()
      reads this, reader, CallsOf(previous)
    {
      reader.Valid() && MessagesShow(previous, shown)
    }

    /** The next messages, with old messages and parts reused, show the current snapshot. */
    method Convert(messages: seq<WireMessage>) returns (next: seq<OutMessage>)
      requires Valid() && AllValid(messages)
      modifies this, reader
      ensures Valid() && next == previous
      ensures shown == ToThreadMessages(reader.d, ContentsOf(messages))
      ensures MessagesShow(next, ToThreadMessages(reader.d, ContentsOf(messages)))
    {
      var converted := ConvertThreadMessages(messages, reader);
      ghost var target := ToThreadMessages(reader.d, ContentsOf(messages));
      next := ReuseAll(previous, converted, shown, target);
      if |next| == |previous| && forall i :: 0 <= i < |next| ==> next[i] == previous[i] {
        next := previous;
      }
      previous := next;
      shown := target;
    }
  }

  lemma OneMoreShown(next: seq<OutMessage>, target: seq<ThreadMessage>, i: nat, message: OutMessage)
    requires i < |target| && MessagesShow(next, target[..i]) && MessageShows(message, target[i])
    ensures MessagesShow(next + [message], target[..i + 1])
  {
    forall k | 0 <= k <= i ensures MessageShows((next + [message])[k], target[..i + 1][k]) {
      if k < i { assert MessageShows(next[k], target[..i][k]); }
    }
  }

  predicate SameHeader(before: OutMessage, message: OutMessage) {
    before.role == message.role && before.id == message.id
  }

  /** The new message with each part that is the same as the old one at its place taken over. */
  predicate Reused(before: OutMessage, message: OutMessage, m: OutMessage)
    reads CallsIn(before.parts), CallsIn(message.parts)
  {
    && m.role == message.role && m.id == message.id && |m.parts| == |message.parts|
    && forall i :: 0 <= i < |message.parts| ==>
         m.parts[i] == if i < |before.parts| && SamePart(before.parts[i], message.parts[i]) then before.parts[i] else message.parts[i]
  }

  /** Message by message, what the previous messages have that is the same. */
  method ReuseAll(previous: seq<OutMessage>, converted: seq<OutMessage>, ghost shown: seq<ThreadMessage>, ghost target: seq<ThreadMessage>)
    returns (next: seq<OutMessage>)
    requires MessagesShow(previous, shown) && MessagesShow(converted, target)
    ensures MessagesShow(next, target) && |next| == |converted|
    ensures forall i :: 0 <= i < |next| ==>
      if i < |previous| && SameHeader(previous[i], converted[i]) then Reused(previous[i], converted[i], next[i])
      else next[i] == converted[i]
  {
    next := [];
    for i := 0 to |converted|
      invariant MessagesShow(next, target[..i])
      invariant |next| == i && forall k :: 0 <= k < i ==>
        if k < |previous| && SameHeader(previous[k], converted[k]) then Reused(previous[k], converted[k], next[k])
        else next[k] == converted[k]
    {
      var message := converted[i];
      if i < |previous| {
        message := Reuse(previous[i], message, shown[i], target[i]);
      }
      OneMoreShown(next, target, i, message);
      next := next + [message];
    }
    assert target[..|converted|] == target;
  }

  /** The message at the same place, if it is the same; otherwise the new one with every
      part that is the same taken over. */
  method Reuse(before: OutMessage, message: OutMessage, ghost shown: ThreadMessage, ghost target: ThreadMessage)
    returns (m: OutMessage)
    requires MessageShows(before, shown) && MessageShows(message, target)
    ensures MessageShows(m, target)
    ensures if SameHeader(before, message) then Reused(before, message, m) else m == message
  {
    if before.id != message.id || before.role != message.role { return message; }
    var content: seq<OutPart> := [];
    for i := 0 to |message.parts|
      invariant |content| == i
      invariant forall k :: 0 <= k < i ==>
        content[k] == if k < |before.parts| && SamePart(before.parts[k], message.parts[k]) then before.parts[k] else message.parts[k]
    {
      content := content +
        [if i < |before.parts| && SamePart(before.parts[i], message.parts[i]) then before.parts[i] else message.parts[i]];
    }
    ReusedShows(before.parts, message.parts, content, shown.parts, target.parts);
    if |content| == |before.parts| && forall i :: 0 <= i < |content| ==> content[i] == before.parts[i] {
      return before;
    }
    return message.(parts := content);
  }

  /** Parts taken over because they are the same show the same. */
  lemma ReusedShows(before: seq<OutPart>, parts: seq<OutPart>, content: seq<OutPart>, shown: seq<Part>, target: seq<Part>)
    requires PartsShow(before, shown) && PartsShow(parts, target) && |content| == |parts|
    requires forall k :: 0 <= k < |parts| ==>
      content[k] == if k < |before| && SamePart(before[k], parts[k]) then before[k] else parts[k]
    ensures PartsShow(content, target)
  {
    forall k | 0 <= k < |parts| ensures Shows(content[k], target[k]) {
      if k < |before| && SamePart(before[k], parts[k]) {
        SamePartShows(before[k], parts[k], shown[k], target[k]);
      }
    }
  }

  /** A whole history of snapshots: at its end every result handed out along the way still
      shows the plain conversion of its own snapshot. */
  method ConvertHistory(d: Readers, history: seq<seq<WireMessage>>) returns (results: seq<seq<OutMessage>>)
    requires forall k :: 0 <= k < |history| ==> AllValid(history[k])
    ensures |results| == |history|
    ensures forall k :: 0 <= k < |history| ==> MessagesShow(results[k], ToThreadMessages(d, ContentsOf(history[k])))
  {
    var converter := new Converter(d);
    results := [];
    for i := 0 to |history|
      invariant fresh(converter) && fresh(converter.reader) && converter.reader.d == d && converter.Valid()
      invariant |results| == i
      invariant forall k :: 0 <= k < i ==> MessagesShow(results[k], ToThreadMessages(d, ContentsOf(history[k])))
    {
      var next := converter.Convert(history[i]);
      results := results + [next];
    }
  }

  /** The conversion without a memory. */
  method ConvertOnce(d: Readers, messages: seq<WireMessage>) returns (result: seq<OutMessage>)
    requires AllValid(messages)
    ensures MessagesShow(result, ToThreadMessages(d, ContentsOf(messages)))
  {
    var reader := new Reader(d, false);
    result := ConvertThreadMessages(messages, reader);
  }
}
