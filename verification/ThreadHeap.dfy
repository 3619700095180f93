/** The objects the conversion works on: wire messages and their values, which never
    change, and the tool-call parts of emitted calls, whose result is written later. */
module ThreadHeap {
  import opened Options
  import opened ThreadModel
  import opened Collections

  /** A value in memory: nothing, something compared by content, or an object compared
      by identity. */
  datatype Val = Nothing | Plain(tree: Tree) | Ref(object: Obj)

  function Deep(v: Val): Data {
    match v
    case Nothing => Undefined
    case Plain(t) => Decoded(t)
    case Ref(o) => Decoded(o.tree)
  }

  /** An immutable object.  `tree` is its whole content, `members` the members of a record. */
  class Obj {
    const tree: Tree
    const members: map<string, Val>

    constructor (tree: Tree, members: map<string, Val>)
      ensures this.tree == tree && this.members == members
    {
      this.tree := tree;
      this.members := members;
    }

    ghost predicate IsRecord(args: Args) {
      tree == Fields(args) && MembersShow(members, args)
    }
  }

  /** The members of a record are the values of its content. */
  ghost predicate MembersShow(members: map<string, Val>, args: Args) {
    && members.Keys == args.Keys
    && forall k :: k in members ==> Deep(members[k]) == Decoded(args[k])
  }

  /** A wire message with the argument records its calls hold. */
  class WireMessage {
    const content: Message
    const args: seq<Option<Obj>>

    constructor (content: Message, args: seq<Option<Obj>>)
      ensures this.content == content && this.args == args
    {
      this.content := content;
      this.args := args;
    }

    /** A call without an argument record is a call with an empty one. */
    ghost predicate Valid() {
      && |args| == |content.calls|
      && forall i :: 0 <= i < |args| ==>
           match args[i] case Some(o) => o.IsRecord(content.calls[i].args) case None => content.calls[i].args == NO_ARGS
    }
  }

  /** The part of an emitted call. */
  class ToolCallPart {
    var id: string
    const name: string
    const args: Obj
    var result: Val
    var isError: bool

    constructor (id: string, name: string, args: Obj)
      ensures this.id == id && this.name == name && this.args == args && result == Nothing && !isError
    {
      this.id := id;
      this.name := name;
      this.args := args;
      result := Nothing;
      isError := false;
    }

    ghost predicate Shows(call: ToolCall)
      reads this
    {
      && id == call.id && name == call.name && args.IsRecord(call.args)
      && Deep(result) == call.result && isError == call.isError
    }
  }

  /** The part of a summary, an artifact view or a file view: nobody writes to it. */
  class ViewPart {
    const id: string
    const name: string
    const args: Obj
    const result: Val

    constructor (id: string, name: string, args: Obj, result: Val)
      ensures this.id == id && this.name == name && this.args == args && this.result == result
    {
      this.id := id;
      this.name := name;
      this.args := args;
      this.result := result;
    }

    ghost predicate Shows(call: ToolCall) {
      && id == call.id && name == call.name && args.IsRecord(call.args)
      && Deep(result) == call.result && !call.isError
    }
  }

  datatype OutPart = Text(text: string) | Reasoning(text: string) | Call(call: ToolCallPart) | View(view: ViewPart)

  datatype OutMessage = OutMessage(role: Role, id: Option<string>, parts: seq<OutPart>)

  // ------------------------------------------------------------- what a part shows

  function IdOf(p: OutPart): string
    reads if p.Call? then {p.call} else {}
  {
    match p case Call(c) => c.id case View(v) => v.id case _ => ""
  }

  function NameOf(p: OutPart): string {
    match p case Call(c) => c.name case View(v) => v.name case _ => ""
  }

  function ResultOf(p: OutPart): Val
    reads if p.Call? then {p.call} else {}
  {
    match p case Call(c) => c.result case View(v) => v.result case _ => Nothing
  }

  predicate IsErrorOf(p: OutPart)
    reads if p.Call? then {p.call} else {}
  {
    p.Call? && p.call.isError
  }

  predicate IsToolCall(p: OutPart) { p.Call? || p.View? }

  /** A part shows, by its content alone, the given part of the plain conversion. */
  ghost predicate Shows(p: OutPart, q: Part)
    reads if p.Call? then {p.call} else {}
  {
    match q
    case TextPart(t) => p == Text(t)
    case ReasoningPart(t) => p == Reasoning(t)
    case CallPart(_) => false
    case FixedPart(c) => (p.Call? && p.call.Shows(c)) || (p.View? && p.view.Shows(c))
  }

  function CallsIn(parts: seq<OutPart>): set<ToolCallPart> {
    set p | p in parts && p.Call? :: p.call
  }

  ghost predicate PartsShow(parts: seq<OutPart>, shown: seq<Part>)
    reads CallsIn(parts)
  {
    |parts| == |shown| && forall i :: 0 <= i < |parts| ==> Shows(parts[i], shown[i])
  }

  function CallsOf(messages: seq<OutMessage>): set<ToolCallPart> {
    set m, c | m in messages && c in CallsIn(m.parts) :: c
  }

  ghost predicate MessageShows(m: OutMessage, shown: ThreadMessage)
    reads CallsIn(m.parts)
  {
    m.role == shown.role && m.id == shown.id && PartsShow(m.parts, shown.parts)
  }

  ghost predicate MessagesShow(messages: seq<OutMessage>, shown: seq<ThreadMessage>)
    reads CallsOf(messages)
  {
    |messages| == |shown| && forall i :: 0 <= i < |messages| ==> MessageShows(messages[i], shown[i])
  }

  // ---------------------------------------------------------------- same parts

  /** The same keys, and the same value under each: scalars by content, objects by identity. */
  predicate ShallowEqual(a: map<string, Val>, b: map<string, Val>) {
    |a.Keys| == |b.Keys| && forall k :: k in a ==> k in b && a[k] == b[k]
  }

  predicate SamePart(a: OutPart, b: OutPart)
    reads if a.Call? then {a.call} else {}
    reads if b.Call? then {b.call} else {}
  {
    if !IsToolCall(a) || !IsToolCall(b) then a == b
    else
      && IdOf(a) == IdOf(b)
      && NameOf(a) == NameOf(b)
      && ResultOf(a) == ResultOf(b)
      && IsErrorOf(a) == IsErrorOf(b)
      && ShallowEqual(ArgsOf(a).members, ArgsOf(b).members)
  }

  function ArgsOf(p: OutPart): Obj
    requires IsToolCall(p)
  {
    if p.Call? then p.call.args else p.view.args
  }

  lemma ShallowEqualIsEqual(a: map<string, Val>, b: map<string, Val>)
    requires ShallowEqual(a, b)
    ensures a == b
  {
    if exists k :: k in b && k !in a {
      var k :| k in b && k !in a;
      SmallerSet(a.Keys, b.Keys, k);
    }
  }

  lemma SmallerSet(a: set<string>, b: set<string>, k: string)
    requires a <= b && k in b && k !in a
    ensures |a| < |b|
  {
    SubsetSize(a, b - {k});
  }

  /** Records with equal members have equal content. */
  lemma SameMembers(a: Obj, b: Obj, args: Args, args': Args)
    requires a.IsRecord(args) && b.IsRecord(args') && a.members == b.members
    ensures args == args'
  {
    assert args.Keys == args'.Keys;
    forall k | k in args ensures args[k] == args'[k] {
      assert Deep(a.members[k]) == Decoded(args[k]) && Deep(b.members[k]) == Decoded(args'[k]);
    }
  }

  /** When parts are taken for the same: texts by content; calls and views if id, name and error
      agree, the result is the very same value, and so is each argument. */
  lemma SamePartExactly(a: OutPart, b: OutPart)
    ensures SamePart(a, b) <==>
      match (a, b)
      case (Text(s), Text(t)) => s == t
      case (Reasoning(s), Reasoning(t)) => s == t
      case (Call(c), Call(e)) =>
        c.id == e.id && c.name == e.name && c.result == e.result && c.isError == e.isError && c.args.members == e.args.members
      case (Call(c), View(v)) => c.id == v.id && c.name == v.name && c.result == v.result && !c.isError && c.args.members == v.args.members
      case (View(v), Call(c)) => c.id == v.id && c.name == v.name && c.result == v.result && !c.isError && c.args.members == v.args.members
      case (View(v), View(w)) => v.id == w.id && v.name == w.name && v.result == w.result && v.args.members == w.args.members
      case _ => false
  {
    if IsToolCall(a) && IsToolCall(b) && ShallowEqual(ArgsOf(a).members, ArgsOf(b).members) {
      ShallowEqualIsEqual(ArgsOf(a).members, ArgsOf(b).members);
    }
  }

  /** Parts taken for the same show the same. */
  lemma SamePartShows(a: OutPart, b: OutPart, shown: Part, shown': Part)
    requires Shows(a, shown) && Shows(b, shown') && SamePart(a, b)
    ensures Shows(a, shown')
  {
    if IsToolCall(a) && IsToolCall(b) {
      ShallowEqualIsEqual(ArgsOf(a).members, ArgsOf(b).members);
      SameMembers(ArgsOf(a), ArgsOf(b), shown.call.args, shown'.call.args);
    }
  }
}
