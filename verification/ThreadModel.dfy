/** How the chat folds wire messages into turns.

    The conversion is a fold over the messages.  The tool calls it emits live in a table
    of their own, because a later tool message still writes its result onto a call whose
    turn may have been closed long ago. */
module ThreadModel {
  import opened Options

  // ------------------------------------------------------------------ messages

  /** A value by its content alone: a text, another scalar, an opaque structure, a list of
      device interactions, or a record. */
  datatype Tree =
    | Words(text: string)
    | Scalar(token: nat)
    | Structure(token: nat)
    | Items(items: seq<nat>)
    | Fields(fields: Args)

  type Args = map<string, Tree>

  /** A decoded tool result: nothing, or a value. */
  datatype Data = Undefined | Decoded(tree: Tree)

  const NO_ARGS: Args := map[]

  function Interactions(items: seq<nat>): Args {
    map["interactions" := Items(items)]
  }

  function ViewArgs(source: string, args: Args): Args {
    map["source" := Words(source), "sourceArgs" := Fields(args)]
  }

  /** A content block; the reasoning kinds carry whichever of `text` and `thinking` is set. */
  datatype Block = StringBlock(text: string) | TextBlock(text: string) | ReasoningBlock(text: string) | OtherBlock

  /** What a message says.  The tokens stand for all that is not shown: what blocks say
      besides, and a content that is neither text nor blocks. */
  datatype Content = TextContent(text: string) | BlockContent(blocks: seq<Block>, rest: nat) | OtherContent(token: nat)

  /** A requested call; a missing id or name is empty. */
  datatype WireCall = WireCall(id: string, name: string, args: Args)

  /** A wire message.  `callId` is empty when absent, `reasoning` when absent or blank. */
  datatype Message = Message(
    kind: string,
    content: Content,
    id: Option<string>,
    calls: seq<WireCall>,
    callId: string,
    failed: bool,
    reasoning: string)

  /** The readers the conversion is given, and the pure tests it makes. */
  datatype Readers = Readers(
    decode: Content -> Data,
    parseSummary: Content -> seq<nat>,
    looksLikeSummary: Content -> bool,
    hasFiles: Data -> bool)

  // -------------------------------------------------------------------- output

  datatype ToolCall = ToolCall(id: string, name: string, args: Args, result: Data, isError: bool)

  /** A part of a turn.  `CallPart` refers to the table of emitted calls; a `FixedPart`
      is a tool-call part nobody writes to any more. */
  datatype Part =
    | TextPart(text: string)
    | ReasoningPart(text: string)
    | CallPart(ref: nat)
    | FixedPart(call: ToolCall)

  datatype Role = User | Assistant | System

  datatype ThreadMessage = ThreadMessage(role: Role, id: Option<string>, parts: seq<Part>)

  datatype Turn = Turn(id: Option<string>, parts: seq<Part>)

  datatype State = State(
    result: seq<ThreadMessage>,
    turn: Option<Turn>,
    calls: seq<ToolCall>,
    byWire: map<string, nat>,
    used: set<string>)

  const START := State([], None, [], map[], {})

  const SUMMARY_NAME := "__wotbot_wot_summary__"
  const ARTIFACT_VIEW_NAME := "__wotbot_artifact__"
  const FILE_VIEW_NAME := "__wotbot_files__"
  const RUN_CODE := "run_code"
  const CREATE_WEB_INTERFACE := "create_web_interface"

  // --------------------------------------------------------------- unique ids

  function Digit(d: nat): char
    requires d < 10
  {
    ['0', '1', '2', '3', '4', '5', '6', '7', '8', '9'][d]
  }

  function Decimal(n: nat): (t: string) {
    if n < 10 then [Digit(n)] else Decimal(n / 10) + [Digit(n % 10)]
  }

  /** The `n`-th id tried for `id`: itself, then `id:2`, `id:3` and so on. */
  function Candidate(id: string, n: nat): string {
    if n <= 1 then id else id + ":" + Decimal(n)
  }

  /** The first candidate from the `n`-th on that is not in use. */
  function FirstFree(id: string, used: set<string>, n: nat): nat
    decreases |used|
  {
    if Candidate(id, n) !in used then n else FirstFree(id, used - {Candidate(id, n)}, n + 1)
  }

  function UniqueId(id: string, used: set<string>): string {
    Candidate(id, FirstFree(id, used, 1))
  }

  // ------------------------------------------------------------ part shapes

  predicate RefOk(calls: seq<ToolCall>, p: Part) {
    p.CallPart? ==> p.ref < |calls|
  }

  predicate RefsOk(calls: seq<ToolCall>, parts: seq<Part>) {
    forall i :: 0 <= i < |parts| ==> RefOk(calls, parts[i])
  }

  function CallOf(calls: seq<ToolCall>, p: Part): Option<ToolCall> {
    match p
    case CallPart(k) => if k < |calls| then Some(calls[k]) else None
    case FixedPart(c) => Some(c)
    case _ => None
  }

  predicate IsSummary(calls: seq<ToolCall>, p: Part) {
    CallOf(calls, p).Some? && CallOf(calls, p).value.name == SUMMARY_NAME
  }

  /** A part that ends a run of calls: text, or a summary.  Reasoning does not. */
  predicate EndsRun(calls: seq<ToolCall>, p: Part) {
    p.TextPart? || IsSummary(calls, p)
  }

  predicate MakesArtifact(calls: seq<ToolCall>, p: Part) {
    && CallOf(calls, p).Some?
    && (CallOf(calls, p).value.name == RUN_CODE || CallOf(calls, p).value.name == CREATE_WEB_INTERFACE)
    && CallOf(calls, p).value.result != Undefined
  }

  predicate MakesFiles(d: Readers, calls: seq<ToolCall>, p: Part) {
    && CallOf(calls, p).Some?
    && CallOf(calls, p).value.name == RUN_CODE
    && !CallOf(calls, p).value.isError
    && d.hasFiles(CallOf(calls, p).value.result)
  }

  function ArtifactView(c: ToolCall, id: string): ToolCall {
    ToolCall(id, ARTIFACT_VIEW_NAME, ViewArgs(c.name, c.args), c.result, false)
  }

  function FileView(c: ToolCall, id: string): ToolCall {
    ToolCall(id, FILE_VIEW_NAME, NO_ARGS, c.result, false)
  }

  // -------------------------------------------------------------- closing a turn

  /** Where a placed part comes from: the turn itself, or a view of one of its calls. */
  datatype Origin = Original(i: nat) | Artifact(i: nat) | Files(i: nat)

  datatype Placed = Placed(part: Part, origin: Origin)

  datatype Placing = Placing(placed: seq<Placed>, pending: seq<Placed>, used: set<string>)

  /** The artifact view a part makes, if any, when it is placed as the `n`-th. */
  function ViewMade(calls: seq<ToolCall>, part: Part, used: set<string>, n: nat): seq<Placed> {
    if MakesArtifact(calls, part) then
      var c := CallOf(calls, part).value;
      [Placed(FixedPart(ArtifactView(c, UniqueId("artifact:" + c.id, used))), Artifact(n))]
    else []
  }

  function UsedAfter(calls: seq<ToolCall>, part: Part, used: set<string>): set<string> {
    if MakesArtifact(calls, part) then used + {UniqueId("artifact:" + CallOf(calls, part).value.id, used)} else used
  }

  /** Placing the first `n` parts: artifact views wait in `pending` for their run to end. */
  function PlaceUpTo(calls: seq<ToolCall>, parts: seq<Part>, used: set<string>, n: nat): Placing
    requires n <= |parts|
  {
    if n == 0 then Placing([], [], used)
    else PlaceOne(calls, parts[n - 1], n - 1, PlaceUpTo(calls, parts, used, n - 1))
  }

  function PlaceOne(calls: seq<ToolCall>, part: Part, n: nat, st: Placing): Placing {
    var view := ViewMade(calls, part, st.used, n);
    var used := UsedAfter(calls, part, st.used);
    if EndsRun(calls, part) then Placing(st.placed + st.pending + [Placed(part, Original(n))], view, used)
    else Placing(st.placed + [Placed(part, Original(n))], st.pending + view, used)
  }

  datatype Downloads = Downloads(views: seq<Placed>, used: set<string>)

  /** The file view a placed part makes, if any. */
  function DownloadMade(d: Readers, calls: seq<ToolCall>, p: Placed, used: set<string>): seq<Placed> {
    if MakesFiles(d, calls, p.part) then
      var c := CallOf(calls, p.part).value;
      [Placed(FixedPart(FileView(c, UniqueId("files:" + c.id, used))), Files(p.origin.i))]
    else []
  }

  function UsedAfterDownload(d: Readers, calls: seq<ToolCall>, p: Placed, used: set<string>): set<string> {
    if MakesFiles(d, calls, p.part) then used + {UniqueId("files:" + CallOf(calls, p.part).value.id, used)} else used
  }

  /** The file views of the first `n` placed parts. */
  function FilesUpTo(d: Readers, calls: seq<ToolCall>, placed: seq<Placed>, used: set<string>, n: nat): Downloads
    requires n <= |placed|
  {
    if n == 0 then Downloads([], used)
    else
      var st := FilesUpTo(d, calls, placed, used, n - 1);
      Downloads(st.views + DownloadMade(d, calls, placed[n - 1], st.used), UsedAfterDownload(d, calls, placed[n - 1], st.used))
  }

  /** Where the trailing run of summaries starts. */
  function TrailingStart(calls: seq<ToolCall>, placed: seq<Placed>, end: nat): (e: nat)
    requires end <= |placed|
    ensures e <= end
  {
    if end > 0 && IsSummary(calls, placed[end - 1].part) then TrailingStart(calls, placed, end - 1) else end
  }

  function PlaceAll(d: Readers, calls: seq<ToolCall>, parts: seq<Part>, used: set<string>): Downloads {
    var st := PlaceUpTo(calls, parts, used, |parts|);
    var placed := st.placed + st.pending;
    var files := FilesUpTo(d, calls, placed, st.used, |placed|);
    var end := TrailingStart(calls, placed, |placed|);
    Downloads(placed[..end] + files.views + placed[end..], files.used)
  }

  function PartsOf(placed: seq<Placed>): (parts: seq<Part>)
    ensures |parts| == |placed| && forall i :: 0 <= i < |placed| ==> parts[i] == placed[i].part
  {
    seq(|placed|, i requires 0 <= i < |placed| => placed[i].part)
  }

  /** An empty id counts as no id. */
  function Truthy(id: Option<string>): Option<string> {
    if id == Some("") then None else id
  }

  function CloseTurn(d: Readers, s: State): State {
    if s.turn.None? then s
    else
      var turn := s.turn.value;
      var placed := PlaceAll(d, s.calls, turn.parts, s.used);
      s.(result := if placed.views == [] then s.result
                   else s.result + [ThreadMessage(Assistant, turn.id, PartsOf(placed.views))],
         turn := None,
         used := placed.used)
  }

  // ---------------------------------------------------------------- one message

  function BlockParts(blocks: seq<Block>): seq<Part> {
    if blocks == [] then []
    else
      BlockParts(blocks[..|blocks| - 1]) +
      match blocks[|blocks| - 1]
      case StringBlock(t) => (if t == "" then [] else [TextPart(t)])
      case TextBlock(t) => (if t == "" then [] else [TextPart(t)])
      case ReasoningBlock(t) => (if t == "" then [] else [ReasoningPart(t)])
      case OtherBlock => []
  }

  function ContentParts(content: Content): seq<Part> {
    match content
    case TextContent(t) => if t == "" then [] else [TextPart(t)]
    case BlockContent(blocks, _) => BlockParts(blocks)
    case OtherContent(_) => []
  }

  function ReasoningParts(m: Message): seq<Part> {
    if m.reasoning == "" then [] else [ReasoningPart(m.reasoning)]
  }

  /** Calls without an id or a name are not emitted: no result could ever join them. */
  function ToolCalls(calls: seq<WireCall>): (r: seq<WireCall>)
    ensures forall i :: 0 <= i < |r| ==> r[i].id != ""
  {
    if calls == [] then []
    else
      var last := calls[|calls| - 1];
      ToolCalls(calls[..|calls| - 1]) + (if last.id == "" || last.name == "" then [] else [last])
  }

  function OpenTurn(s: State, id: Option<string>): Turn {
    if s.turn.Some? then s.turn.value else Turn(Truthy(id), [])
  }

  function AddParts(s: State, id: Option<string>, parts: seq<Part>): State {
    var t := OpenTurn(s, id);
    s.(turn := Some(t.(parts := t.parts + parts)))
  }

  /** An emitted call gets an id of its own, and takes over its wire id. */
  function EmitOne(s: State, c: WireCall): State
    requires s.turn.Some?
  {
    var id := UniqueId(c.id, s.used);
    var k := |s.calls|;
    s.(turn := Some(s.turn.value.(parts := s.turn.value.parts + [CallPart(k)])),
       calls := s.calls + [ToolCall(id, c.name, c.args, Undefined, false)],
       byWire := s.byWire[c.id := k],
       used := s.used + {id})
  }

  /** Emits the first `n` of the calls of a message. */
  function EmitUpTo(s: State, calls: seq<WireCall>, n: nat): State
    requires n <= |calls| && s.turn.Some?
    ensures EmitUpTo(s, calls, n).turn.Some?
  {
    if n == 0 then s else EmitOne(EmitUpTo(s, calls, n - 1), calls[n - 1])
  }

  predicate IsTool(m: Message) { m.kind == "tool" }
  predicate IsUser(m: Message) { m.kind == "human" || m.kind == "user" }
  predicate IsAssistant(m: Message) { m.kind == "ai" || m.kind == "assistant" || m.kind == "AIMessageChunk" }
  predicate IsSystem(m: Message) { m.kind == "system" }

  function StepTool(d: Readers, s: State, m: Message): State {
    if m.callId != "" && m.callId in s.byWire && s.byWire[m.callId] < |s.calls| then
      var k := s.byWire[m.callId];
      s.(calls := s.calls[k := s.calls[k].(result := d.decode(m.content), isError := s.calls[k].isError || m.failed)])
    else s
  }

  /** A message that stands on its own ends the current turn. */
  function StepOwn(d: Readers, s: State, m: Message, role: Role): State {
    var closed := CloseTurn(d, s);
    var content := ContentParts(m.content);
    if content == [] then closed
    else closed.(result := closed.result + [ThreadMessage(role, Truthy(m.id), content)])
  }

  function SummaryId(s: State, m: Message): string {
    "wot:" + (if m.id.Some? then m.id.value else Decimal(|s.result|))
  }

  function StepSummary(s: State, m: Message, interactions: seq<nat>): State {
    var id := UniqueId(SummaryId(s, m), s.used);
    AddParts(s, m.id, [FixedPart(ToolCall(id, SUMMARY_NAME, Interactions(interactions), Undefined, false))]).(used := s.used + {id})
  }

  function StepAssistant(d: Readers, s: State, m: Message): State {
    var interactions := d.parseSummary(m.content);
    if |interactions| > 0 then StepSummary(s, m, interactions)
    else if d.looksLikeSummary(m.content) then s
    else
      var s1 := AddParts(s, m.id, ReasoningParts(m) + ContentParts(m.content));
      EmitUpTo(s1, ToolCalls(m.calls), |ToolCalls(m.calls)|)
  }

  function Step(d: Readers, s: State, m: Message): State {
    if IsTool(m) then StepTool(d, s, m)
    else if IsUser(m) then StepOwn(d, s, m, User)
    else if IsAssistant(m) then StepAssistant(d, s, m)
    else if IsSystem(m) then StepOwn(d, s, m, System)
    else s
  }

  function FoldMessages(d: Readers, s: State, messages: seq<Message>): State {
    if messages == [] then s
    else Step(d, FoldMessages(d, s, messages[..|messages| - 1]), messages[|messages| - 1])
  }

  function Resolve(calls: seq<ToolCall>, p: Part): Part {
    match p
    case CallPart(k) => if k < |calls| then FixedPart(calls[k]) else p
    case _ => p
  }

  function ResolveParts(calls: seq<ToolCall>, parts: seq<Part>): (r: seq<Part>)
    ensures |r| == |parts| && forall i :: 0 <= i < |parts| ==> r[i] == Resolve(calls, parts[i])
  {
    seq(|parts|, i requires 0 <= i < |parts| => Resolve(calls, parts[i]))
  }

  function ResolveAll(calls: seq<ToolCall>, messages: seq<ThreadMessage>): (r: seq<ThreadMessage>)
    ensures |r| == |messages|
    ensures forall i :: 0 <= i < |messages| ==> r[i] == messages[i].(parts := ResolveParts(calls, messages[i].parts))
  {
    seq(|messages|, i requires 0 <= i < |messages| => messages[i].(parts := ResolveParts(calls, messages[i].parts)))
  }

  /** The plain conversion: every call shows the result it ended up with. */
  function ToThreadMessages(d: Readers, messages: seq<Message>): seq<ThreadMessage> {
    var s := CloseTurn(d, FoldMessages(d, START, messages));
    ResolveAll(s.calls, s.result)
  }
}
