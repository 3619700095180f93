/** What a list of wire messages means, told without the conversion: who says what, in which
    order, under which message, and which calls leave something to show. */
module ThreadMeaning {
  import opened Options
  import opened ThreadModel

  /** One thing said, and who said it; calls go by the number of their emission. */
  datatype Item = Said(text: string) | Thought(text: string) | CallNo(k: nat) | Summed(args: Args)

  datatype Entry = Entry(role: Role, item: Item)

  // ---------------------------------------------------------------- one message

  /** Who speaks in a message; a tool reports and does not speak, and neither does anybody else. */
  function Speaker(kind: string): Option<Role> {
    if kind in {"human", "user"} then Some(User)
    else if kind in {"ai", "assistant", "AIMessageChunk"} then Some(Assistant)
    else if kind in {"system"} then Some(System)
    else None
  }

  /** A message that stands on its own. */
  predicate StandsAlone(m: Message) {
    Speaker(m.kind) == Some(User) || Speaker(m.kind) == Some(System)
  }

  function Aloud(role: Role, text: string): seq<Entry> {
    if |text| > 0 then [Entry(role, Said(text))] else []
  }

  function Inward(role: Role, text: string): seq<Entry> {
    if |text| > 0 then [Entry(role, Thought(text))] else []
  }

  function BlockSays(role: Role, b: Block): seq<Entry> {
    match b
    case StringBlock(text) => Aloud(role, text)
    case TextBlock(text) => Aloud(role, text)
    case ReasoningBlock(text) => Inward(role, text)
    case OtherBlock => []
  }

  function BlocksSay(role: Role, blocks: seq<Block>): seq<Entry> {
    if blocks == [] then [] else BlockSays(role, blocks[0]) + BlocksSay(role, blocks[1..])
  }

  function ContentSays(role: Role, content: Content): seq<Entry> {
    match content
    case TextContent(text) => Aloud(role, text)
    case BlockContent(blocks, _) => BlocksSay(role, blocks)
    case OtherContent(_) => []
  }

  /** The calls that have both an id and a name. */
  function Named(calls: seq<WireCall>): seq<WireCall> {
    if calls == [] then []
    else (if |calls[0].id| > 0 && |calls[0].name| > 0 then [calls[0]] else []) + Named(calls[1..])
  }

  /** A device summary that cannot be read. */
  predicate Hidden(d: Readers, m: Message) {
    |d.parseSummary(m.content)| == 0 && d.looksLikeSummary(m.content)
  }

  /** The calls a message emits: a summary, or what looks like one, emits none. */
  function Emitted(d: Readers, m: Message): seq<WireCall> {
    if Speaker(m.kind) == Some(Assistant) && |d.parseSummary(m.content)| == 0 && !d.looksLikeSummary(m.content)
    then Named(m.calls) else []
  }

  function CallEntries(from: nat, count: nat): (r: seq<Entry>)
    ensures |r| == count && forall i :: 0 <= i < count ==> r[i] == Entry(Assistant, CallNo(from + i))
  {
    seq(count, i requires 0 <= i < count => Entry(Assistant, CallNo(from + i)))
  }

  /** What a message says, when `from` calls were emitted before it: its detached reasoning,
      then its content, then its calls; or a summary alone. */
  function MessageEntries(d: Readers, m: Message, from: nat): seq<Entry> {
    match Speaker(m.kind)
    case None => []
    case Some(role) =>
      if role != Assistant then ContentSays(role, m.content)
      else if |d.parseSummary(m.content)| > 0 then [Entry(Assistant, Summed(map["interactions" := Items(d.parseSummary(m.content))]))]
      else if d.looksLikeSummary(m.content) then []
      else Inward(Assistant, m.reasoning) + ContentSays(Assistant, m.content) + CallEntries(from, |Emitted(d, m)|)
  }

  /** What the key of a device summary is made from. */
  function SummaryKey(m: Message, messages: nat): string {
    match m.id case Some(id) => "wot:" + id case None => "wot:" + Decimal(messages)
  }

  // ------------------------------------------------------------------ all messages

  datatype Emission = Emission(message: nat, call: WireCall)

  function At(calls: seq<WireCall>, message: nat): (r: seq<Emission>)
    ensures |r| == |calls| && forall i :: 0 <= i < |calls| ==> r[i] == Emission(message, calls[i])
  {
    seq(|calls|, i requires 0 <= i < |calls| => Emission(message, calls[i]))
  }

  /** All emitted calls, in order, with the message each comes from. */
  function Emissions(d: Readers, messages: seq<Message>): seq<Emission> {
    if messages == [] then []
    else
      var n := |messages| - 1;
      Emissions(d, messages[..n]) + At(Emitted(d, messages[n]), n)
  }

  function AllEntries(d: Readers, messages: seq<Message>): seq<Entry> {
    if messages == [] then []
    else
      var before := messages[..|messages| - 1];
      AllEntries(d, before) + MessageEntries(d, messages[|messages| - 1], |Emissions(d, before)|)
  }

  // ------------------------------------------------- which messages are shown as one

  /** One message of the chat: who says what in it, and under which id. */
  datatype Bubble = Bubble(role: Role, id: Option<string>, says: seq<Entry>)

  function IdOf(m: Message): Option<string> {
    match m.id case Some(id) => (if |id| > 0 then Some(id) else None) case None => None
  }

  function Shown(b: Bubble): seq<Bubble> {
    if |b.says| > 0 then [b] else []
  }

  /** The last message that stands on its own among the first `n`; `n` if there is none. */
  function LastAlone(messages: seq<Message>, n: nat): (k: nat)
    requires n <= |messages|
    ensures k <= n && (k < n ==> StandsAlone(messages[k]))
    ensures forall i :: k < i < n ==> !StandsAlone(messages[i])
  {
    if n == 0 then 0
    else if StandsAlone(messages[n - 1]) then n - 1
    else
      var k := LastAlone(messages, n - 1);
      if k == n - 1 then n else k
  }

  /** The first message from the `from`-th on in which the assistant speaks and is not hidden. */
  function FirstVoice(d: Readers, messages: seq<Message>, from: nat, n: nat): (v: Option<nat>)
    requires from <= n <= |messages|
    ensures v.Some? ==> from <= v.value < n
    decreases n - from
  {
    if from == n then None
    else if Speaker(messages[from].kind) == Some(Assistant) && !Hidden(d, messages[from]) then Some(from)
    else FirstVoice(d, messages, from + 1, n)
  }

  /** What the messages from the `from`-th to before the `n`-th say. */
  function SaysBetween(d: Readers, messages: seq<Message>, from: nat, n: nat): seq<Entry>
    requires from <= n <= |messages|
    decreases n - from
  {
    if from == n then []
    else SaysBetween(d, messages, from, n - 1) + MessageEntries(d, messages[n - 1], |Emissions(d, messages[..n - 1])|)
  }

  /** The turn of the assistant after the last message that stands on its own: all it says
      there, under the id of the first message in which it speaks. */
  function TurnShown(d: Readers, messages: seq<Message>, from: nat, n: nat): seq<Bubble>
    requires from <= n <= |messages|
  {
    match FirstVoice(d, messages, from, n)
    case None => []
    case Some(v) => Shown(Bubble(Assistant, IdOf(messages[v]), SaysBetween(d, messages, from, n)))
  }

  /** Messages that stand on their own are shown each by itself, and what the assistant says
      between two of them as one; what says nothing is not shown. */
  function Outline(d: Readers, messages: seq<Message>, n: nat): seq<Bubble>
    requires n <= |messages|
  {
    var k := LastAlone(messages, n);
    if k == n then TurnShown(d, messages, 0, n)
    else
      var m := messages[k];
      Outline(d, messages, k)
      + Shown(Bubble(Speaker(m.kind).value, IdOf(m), ContentSays(Speaker(m.kind).value, m.content)))
      + TurnShown(d, messages, k + 1, n)
  }

  // ---------------------------------------------------------- what calls leave to show

  /** The call a part stands for. */
  function CallShown(calls: seq<ToolCall>, p: Part): Option<ToolCall> {
    match p
    case TextPart(_) => None
    case ReasoningPart(_) => None
    case CallPart(k) => if 0 <= k < |calls| then Some(calls[k]) else None
    case FixedPart(c) => Some(c)
  }

  /** A device summary. */
  predicate Summary(calls: seq<ToolCall>, p: Part) {
    match CallShown(calls, p) case Some(c) => c.name == "__wotbot_wot_summary__" case None => false
  }

  /** Text, or a device summary: what ends a run of calls. */
  predicate TextOrSummary(calls: seq<ToolCall>, p: Part) {
    match p case TextPart(_) => true case _ => Summary(calls, p)
  }

  /** A finished call of a tool that makes something to look at. */
  predicate DueArtifact(calls: seq<ToolCall>, p: Part) {
    match CallShown(calls, p)
    case Some(c) => c.name in {"run_code", "create_web_interface"} && c.result.Decoded?
    case None => false
  }

  /** A call that ran code, did not fail, and made files. */
  predicate DueFiles(d: Readers, calls: seq<ToolCall>, p: Part) {
    match CallShown(calls, p)
    case Some(c) => c.name == "run_code" && c.isError == false && d.hasFiles(c.result)
    case None => false
  }

  /** The view of an artifact: the result, with the tool and the arguments it came from. */
  ghost predicate IsArtifactOf(c: ToolCall, p: Part) {
    match p
    case FixedPart(v) =>
      && v.name == "__wotbot_artifact__" && v.result == c.result && !v.isError
      && v.args == map["source" := Words(c.name), "sourceArgs" := Fields(c.args)]
      && exists r: nat :: r >= 1 && v.id == Candidate("artifact:" + c.id, r)
    case _ => false
  }

  /** The view of the files of a call. */
  ghost predicate IsFilesOf(c: ToolCall, p: Part) {
    match p
    case FixedPart(v) =>
      && v.name == "__wotbot_files__" && v.result == c.result && !v.isError && v.args == map[]
      && exists r: nat :: r >= 1 && v.id == Candidate("files:" + c.id, r)
    case _ => false
  }

  // ------------------------------------------------------------ the conversion agrees

  lemma KindsAgree(m: Message)
    ensures IsTool(m) <==> m.kind == "tool"
    ensures IsTool(m) ==> Speaker(m.kind) == None
    ensures !IsTool(m) && IsUser(m) <==> Speaker(m.kind) == Some(User)
    ensures !IsTool(m) && !IsUser(m) && IsAssistant(m) <==> Speaker(m.kind) == Some(Assistant)
    ensures !IsTool(m) && !IsUser(m) && !IsAssistant(m) && IsSystem(m) <==> Speaker(m.kind) == Some(System)
  {
  }

  /** What one message does, by who speaks in it. */
  lemma StepBySpeaker(d: Readers, s: State, m: Message)
    ensures Step(d, s, m) ==
      match Speaker(m.kind)
      case Some(role) => (if role == Assistant then StepAssistant(d, s, m) else StepOwn(d, s, m, role))
      case None => if m.kind == "tool" then StepTool(d, s, m) else s
  {
  }

  lemma {:induction false} NamedLast(calls: seq<WireCall>, c: WireCall)
    ensures Named(calls + [c]) == Named(calls) + (if |c.id| > 0 && |c.name| > 0 then [c] else [])
  {
    if calls == [] {
      assert Named([c][1..]) == [];
    } else {
      assert (calls + [c])[1..] == calls[1..] + [c];
      NamedLast(calls[1..], c);
    }
  }

  lemma {:induction false} CallsAgree(calls: seq<WireCall>)
    ensures ToolCalls(calls) == Named(calls)
  {
    if calls != [] {
      var n := |calls| - 1;
      CallsAgree(calls[..n]);
      NamedLast(calls[..n], calls[n]);
      assert calls == calls[..n] + [calls[n]];
    }
  }
}
