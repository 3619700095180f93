/** The processes of one code-execution session.

    Each request forks.  A child that succeeds keeps the session and the parent exits;
    a child that fails, crashes or runs out of time leaves the parent in charge.  All
    processes share one end of the request pipe, so the model keeps every live process,
    the dead ones nobody has reaped, the pipe contents and the unread results of the
    children. */
module WorkerFamily {
  import opened Options

  type Pid = nat
  type ExecId = nat

  // Opaque tokens: a program text, and a state of the session's globals.
  type Code = nat
  type Environment = nat

  /** How a program ended; a result the child cannot send makes it fail.  A result is sent
      by pickling it, and can hold an object that its reader cannot rebuild: `relayMayFail`
      says that the parent may raise when it reads the result or passes it on,
      `replyMayFail` that the pool may raise something other than a pipe error when it
      reads the reply.  `interrupts` says that the program, whether it succeeded or not,
      leaves something in its process that may raise there at any later time, an alarm
      with a handler that raises for one; forking does not pass an alarm on. */
  datatype Outcome = Outcome(ok: bool, env: Environment, relayMayFail: bool, replyMayFail: bool, interrupts: bool)

  /** Running a program is an arbitrary function of the program and the environment. */
  type Semantics = (Code, Environment) -> Outcome

  /** No successful result can make its parent raise. */
  ghost predicate RelaySound(run: Semantics) {
    forall c, env :: run(c, env).ok ==> !run(c, env).relayMayFail
  }

  /** No program leaves an interruption behind. */
  ghost predicate Calm(run: Semantics) {
    forall c, env :: !run(c, env).interrupts
  }

  /** Nor can any successful result make one of its readers raise. */
  ghost predicate Sound(run: Semantics) {
    Calm(run) && RelaySound(run) && forall c, env :: run(c, env).ok ==> !run(c, env).replyMayFail
  }

  datatype Request = Execute(code: Code, exec: ExecId) | Shutdown

  datatype Status = Ok | Failed | NoStatus

  /** What a worker sends back: `owner` names the promoted child, `answers` is the
      execution the reply is about, if any, which the wire format leaves out, and `mayFail`
      says that reading the reply may raise. */
  datatype Reply = Reply(status: Status, owner: Option<Pid>, answers: Option<ExecId>, mayFail: bool)

  /** An error made by the worker itself, which is plain text. */
  function ErrorReply(exec: ExecId): Reply {
    Reply(NoStatus, None, Some(exec), false)
  }

  /** The error a worker sends when it is interrupted and no request is waiting for it. */
  const UNASKED: Reply := Reply(NoStatus, None, None, false)

  datatype Proc =
    /** blocked in `recv` on the request pipe */
    | Receiving(env: Environment)
    /** a parent waiting for the result of its forked child */
    | Supervising(env: Environment, code: Code, exec: ExecId, child: Pid)
    /** a parent killing and reaping a child that ran out of time */
    | Terminating(env: Environment, code: Code, exec: ExecId, child: Pid)
    /** about to send its reply */
    | Replying(env: Environment, code: Code, exec: ExecId, reply: Reply)
    /** a forked child running the program */
    | Running(env: Environment, code: Code, exec: ExecId)
    /** a parent whose child took over, on its way out */
    | Exiting(env: Environment)

  /** One reply as it was sent, with the program it reports on. */
  datatype Sent = Sent(code: Code, reply: Reply)

  /** `armed` are the processes that may be interrupted. */
  datatype Family = Family(
    procs: map<Pid, Proc>,
    unreaped: set<Pid>,
    armed: set<Pid>,
    results: map<Pid, bool>,
    used: set<Pid>,
    requests: seq<Request>,
    replies: seq<Reply>,
    closed: bool,
    sent: seq<Sent>)

  function NewFamily(p: Pid, env: Environment): Family {
    Family(map[p := Receiving(env)], {}, {}, map[], {p}, [], [], false, [])
  }

  // -------------------------------------------------------------------- steps

  datatype WorkerStep =
    | Receive(p: Pid, child: Pid)
    | ForkFails(p: Pid)
    | ReceiveEof(p: Pid)
    | ChildFinishes(p: Pid)
    | Dies(p: Pid)
    | SeeResult(p: Pid)
    | SeeExit(p: Pid)
    | TimesOut(p: Pid)
    | ChildKilled(p: Pid)
    | ReadRaises(p: Pid)
    | SendRaises(p: Pid)
    | ReceiveRaises(p: Pid)
    | Interrupted(p: Pid)
    | ChildRaises(p: Pid, told: bool)
    | SendReply(p: Pid)
    | Exits(p: Pid)
    | Reaped(p: Pid)

  predicate WorkerEnabled(run: Semantics, f: Family, a: WorkerStep) {
    (if a.Reaped? then a.p in f.unreaped else a.p in f.procs) &&
    match a
    case Receive(p, child) => f.procs[p].Receiving? && f.requests != [] && child !in f.used
    case ForkFails(p) => f.procs[p].Receiving? && f.requests != [] && f.requests[0].Execute?
    case ReceiveEof(p) => f.procs[p].Receiving? && f.requests == [] && f.closed
    case ChildFinishes(p) => f.procs[p].Running?
    case Dies(p) => true
    case SeeResult(p) => f.procs[p].Supervising? && ResultReady(f, f.procs[p].child)
    case SeeExit(p) => f.procs[p].Supervising? && f.procs[p].child !in f.procs
    case TimesOut(p) => f.procs[p].Supervising?
    case ChildKilled(p) => f.procs[p].Terminating?
    case ReadRaises(p) => f.procs[p].Supervising? && f.procs[p].child in f.results && MayFail(run, f.procs[p])
    case SendRaises(p) => f.procs[p].Replying? && f.procs[p].reply.status != NoStatus && MayFail(run, f.procs[p])
    case ReceiveRaises(p) => f.procs[p].Receiving? && p in f.armed
    case Interrupted(p) => Busy(f.procs[p]) && p in f.armed
    case ChildRaises(p, _) => f.procs[p].Running? && run(f.procs[p].code, f.procs[p].env).interrupts
    case SendReply(p) => f.procs[p].Replying?
    case Exits(p) => f.procs[p].Exiting?
    case Reaped(p) => true
  }

  /** A parent that has read a failure waits for its child to exit. */
  predicate ResultReady(f: Family, child: Pid) {
    child in f.results && (f.results[child] || child !in f.procs)
  }

  /** Between taking a request and the next one. */
  predicate Busy(q: Proc) { q.Supervising? || q.Terminating? || q.Replying? || q.Exiting? }

  /** Some parent still reads the child's result pipe; writing to it fails otherwise. */
  predicate HasReader(f: Family, child: Pid) {
    exists p :: p in f.procs && (f.procs[p].Supervising? || f.procs[p].Terminating?) && f.procs[p].child == child
  }

  /** The result of the program a parent is busy with may make it raise. */
  predicate MayFail(run: Semantics, q: Proc)
    requires q.Supervising? || q.Replying?
  {
    run(q.code, q.env).relayMayFail
  }

  /** The reply a parent makes of what it found on its child's result pipe: only a
      success that the parent itself has read promotes the child. */
  function ReplyTo(result: Option<bool>, exited: bool, child: Pid, exec: ExecId, mayFail: bool): Reply {
    match result
    case Some(true) => if exited then ErrorReply(exec) else Reply(Ok, Some(child), Some(exec), mayFail)
    case Some(false) => Reply(Failed, None, Some(exec), mayFail)
    case None => ErrorReply(exec)
  }

  function ResultOf(f: Family, child: Pid): Option<bool> {
    if child in f.results then Some(f.results[child]) else None
  }

  function Fork(f: Family, p: Pid, child: Pid): Family
    requires p in f.procs && f.procs[p].Receiving? && f.requests != [] && f.requests[0].Execute?
  {
    var env, code, exec := f.procs[p].env, f.requests[0].code, f.requests[0].exec;
    f.(procs := f.procs[p := Supervising(env, code, exec, child)][child := Running(env, code, exec)],
       used := f.used + {child},
       requests := f.requests[1..])
  }

  /** The child reports to its parent; when it cannot, it counts as failed and exits. */
  function Finish(run: Semantics, f: Family, p: Pid): Family
    requires p in f.procs && f.procs[p].Running?
  {
    var out := run(f.procs[p].code, f.procs[p].env);
    if !HasReader(f, p) then Gone(f, p)
    else if out.ok then
      f.(procs := f.procs[p := Receiving(out.env)],
         armed := if out.interrupts then f.armed + {p} else f.armed,
         results := f.results[p := true])
    else Gone(f, p).(results := f.results[p := false])
  }

  /** A child interrupted after its program ended, before or after it told its parent: it
      says so on the request pipe and then receives, succeeded or not. */
  function Stray(run: Semantics, f: Family, p: Pid, told: bool): Family
    requires p in f.procs && f.procs[p].Running?
  {
    var out := run(f.procs[p].code, f.procs[p].env);
    var results := if told && HasReader(f, p) then f.results[p := out.ok] else f.results;
    SendUnasked(f.(armed := f.armed + {p}, results := results), p, out.env)
  }

  /** An error nobody asked for, and back to receiving. */
  function SendUnasked(f: Family, p: Pid, env: Environment): Family {
    if f.closed then Gone(f, p)
    else f.(procs := f.procs[p := Receiving(env)], replies := f.replies + [UNASKED])
  }

  /** A parent interrupted after the fork says so and leaves its child alone; one that has
      handed over already speaks up again, and stays. */
  function Interrupt(f: Family, p: Pid): Family
    requires p in f.procs && Busy(f.procs[p])
  {
    var q := f.procs[p];
    match q
    case Exiting(env) => SendUnasked(f, p, env)
    case Replying(_, _, exec, _) => f.(procs := f.procs[p := q.(reply := ErrorReply(exec))])
    case _ => Answer(f, p, ErrorReply(q.exec))
  }

  /** A process ends, and stays in the process table until somebody reaps it. */
  function Gone(f: Family, p: Pid): Family {
    f.(procs := f.procs - {p}, unreaped := f.unreaped + {p})
  }

  /** The child that ran out of time is killed and reaped. */
  function KillChild(f: Family, p: Pid): (g: Family)
    requires p in f.procs && f.procs[p].Terminating?
    ensures p in g.procs && g.procs[p] == f.procs[p]
  {
    var child := f.procs[p].child;
    f.(procs := f.procs - ({child} - {p}), unreaped := f.unreaped - {child})
  }

  /** What a parent does with the result it found, and a child that has ended is reaped. */
  function Report(run: Semantics, f: Family, p: Pid, exited: bool): Family
    requires p in f.procs && f.procs[p].Supervising?
  {
    var q := f.procs[p];
    var reply := ReplyTo(ResultOf(f, q.child), exited, q.child, q.exec, run(q.code, q.env).replyMayFail);
    var answered := Answer(f, p, reply);
    if reply.owner.None? then answered.(unreaped := answered.unreaped - {q.child}) else answered
  }

  function Answer(f: Family, p: Pid, reply: Reply): Family
    requires p in f.procs && (f.procs[p].Supervising? || f.procs[p].Terminating?)
  {
    var q := f.procs[p];
    f.(procs := f.procs[p := Replying(q.env, q.code, q.exec, reply)], results := f.results - {q.child})
  }

  function Deliver(f: Family, p: Pid): Family
    requires p in f.procs && f.procs[p].Replying?
  {
    var q := f.procs[p];
    if f.closed then Gone(f, p)
    else
      f.(procs := f.procs[p := if q.reply.owner.Some? then Exiting(q.env) else Receiving(q.env)],
         replies := f.replies + [q.reply],
         sent := f.sent + [Sent(q.code, q.reply)])
  }

  function StepWorker(run: Semantics, f: Family, a: WorkerStep): Family {
    if !WorkerEnabled(run, f, a) then f
    else
      match a
      case Receive(p, child) =>
        if f.requests[0].Shutdown? then Gone(f, p).(requests := f.requests[1..]) else Fork(f, p, child)
      case ForkFails(p) =>
        var r := f.requests[0];
        f.(procs := f.procs[p := Replying(f.procs[p].env, r.code, r.exec, ErrorReply(r.exec))],
           requests := f.requests[1..])
      case ReceiveEof(p) => Gone(f, p)
      case ChildFinishes(p) => Finish(run, f, p)
      case Dies(p) => Gone(f, p)
      case SeeResult(p) => Report(run, f, p, false)
      case SeeExit(p) => Report(run, f, p, true)
      case TimesOut(p) =>
        var q := f.procs[p];
        f.(procs := f.procs[p := Terminating(q.env, q.code, q.exec, q.child)])
      case ChildKilled(p) =>
        Answer(KillChild(f, p), p, ErrorReply(f.procs[p].exec))
      case ReadRaises(p) => Answer(f, p, ErrorReply(f.procs[p].exec)) // the child is left alone
      case SendRaises(p) => f.(procs := f.procs[p := f.procs[p].(reply := ErrorReply(f.procs[p].exec))])
      case ReceiveRaises(p) => SendUnasked(f, p, f.procs[p].env)
      case Interrupted(p) => Interrupt(f, p)
      case ChildRaises(p, told) => Stray(run, f, p, told)
      case SendReply(p) => Deliver(f, p)
      case Exits(p) => Gone(f, p)
      case Reaped(p) => f.(unreaped := f.unreaped - {p})
  }

  // --------------------------------------------------------------- discipline

  /** The child a parent may have to give way to. */
  function ChildOf(q: Proc): Option<Pid> {
    match q
    case Supervising(_, _, _, c) => Some(c)
    case Terminating(_, _, _, c) => Some(c)
    case Replying(_, _, _, r) => r.owner
    case _ => None
  }

  ghost predicate ParentOf(procs: map<Pid, Proc>, p: Pid, c: Pid) {
    && p in procs && c in procs
    && ChildOf(procs[p]) == Some(c)
    && (procs[c].Running? || procs[c].Receiving?)
  }

  ghost predicate Live(f: Family, p: Pid) {
    p in f.procs && !f.procs[p].Exiting?
  }

  predicate Resting(q: Proc) { q.Receiving? || q.Exiting? }

  /** Of any two processes one is at rest, or they are a parent and the child it waits for. */
  ghost predicate Attended(procs: map<Pid, Proc>) {
    forall p, q :: p in procs && q in procs && p != q ==>
      Resting(procs[p]) || Resting(procs[q]) || ParentOf(procs, p, q) || ParentOf(procs, q, p)
  }

  ghost predicate PidsUsed(f: Family) {
    && f.procs.Keys <= f.used && f.results.Keys <= f.used && f.unreaped <= f.used
    && f.procs.Keys !! f.unreaped
    && (forall p :: p in f.procs && ChildOf(f.procs[p]).Some? ==>
          ChildOf(f.procs[p]).value in f.used && ChildOf(f.procs[p]).value != p)
  }

  /** A child whose result is on its way, or has been promoted, is done with its program. */
  ghost predicate ChildrenDone(f: Family) {
    && (forall c :: c in f.results && !f.results[c] ==> c !in f.procs)
    && (forall c :: c in f.results && c in f.procs ==> !f.procs[c].Running?)
    && (forall p :: p in f.procs && f.procs[p].Replying? ==> Promoted(f.procs, f.procs[p].reply))
  }

  ghost predicate Promoted(procs: map<Pid, Proc>, r: Reply) {
    r.owner.Some? && r.owner.value in procs ==> !procs[r.owner.value].Running?
  }

  /** No process is in the middle of an execution. */
  ghost predicate AtRest(f: Family) {
    forall p :: p in f.procs ==> Resting(f.procs[p])
  }

  ghost predicate NoExecute(requests: seq<Request>) {
    forall i :: 0 <= i < |requests| ==> !requests[i].Execute?
  }

  /** At most one execution is queued, and only while no other is going on. */
  ghost predicate QueueDiscipline(f: Family) {
    && (forall i, j :: 0 <= i < j < |f.requests| ==> !(f.requests[i].Execute? && f.requests[j].Execute?))
    && (NoExecute(f.requests) || AtRest(f))
  }

  /** What holds of processes nobody interrupts, whatever their results do to their readers. */
  ghost predicate FamilyInv(f: Family) {
    Attended(f.procs) && PidsUsed(f) && ChildrenDone(f) && QueueDiscipline(f) && f.armed == {}
  }

  /** Any two live processes are a parent and the child it waits for. */
  ghost predicate Paired(procs: map<Pid, Proc>) {
    forall p, q :: p in procs && q in procs && p != q ==>
      procs[p].Exiting? || procs[q].Exiting? || ParentOf(procs, p, q) || ParentOf(procs, q, p)
  }

  /** The results on their way are those of the programs their parents are busy with. */
  ghost predicate ResultsTrue(run: Semantics, f: Family) {
    forall p :: p in f.procs ==>
      match f.procs[p]
      case Supervising(env, code, exec, child) => (
        && (child in f.results ==> f.results[child] == run(code, env).ok)
        && (child in f.procs && f.procs[child].Running? ==> f.procs[child] == Running(env, code, exec)))
      case Replying(env, code, _, reply) => reply.owner.Some? ==> run(code, env).ok
      case _ => true
  }

  /** What holds besides when no successful result makes its parent raise. */
  ghost predicate Handover(run: Semantics, f: Family) {
    Paired(f.procs) && ResultsTrue(run, f)
  }

  lemma DropRequest(requests: seq<Request>)
    requires requests != []
    requires forall i, j :: 0 <= i < j < |requests| ==> !(requests[i].Execute? && requests[j].Execute?)
    ensures forall i, j :: 0 <= i < j < |requests[1..]| ==> !(requests[1..][i].Execute? && requests[1..][j].Execute?)
    ensures requests[0].Execute? || NoExecute(requests) ==> NoExecute(requests[1..])
  {
    forall i | 0 <= i < |requests[1..]| ensures requests[1..][i] == requests[i + 1] {}
    if requests[0].Execute? {
      forall i | 0 <= i < |requests[1..]| ensures !requests[1..][i].Execute? {
        assert !(requests[0].Execute? && requests[i + 1].Execute?);
      }
    }
  }

  // ------------------------------------------------- one process at work, at most

  lemma WorkingAlone(f: Family, p: Pid, q: Pid)
    requires FamilyInv(f) && p in f.procs && q in f.procs && p != q
    requires f.procs[p].Replying? || (f.procs[p].Supervising? && f.procs[p].child in f.results)
             || (f.procs[p].Supervising? && f.procs[p].child !in f.procs)
    ensures Resting(f.procs[q])
  {
    assert Resting(f.procs[p]) || Resting(f.procs[q]) || ParentOf(f.procs, p, q) || ParentOf(f.procs, q, p);
  }

  /** With everybody else at rest, one process may do anything. */
  lemma AloneKeepsAttended(procs: map<Pid, Proc>, p: Pid, q: Proc)
    requires forall k :: k in procs && k != p ==> Resting(procs[k])
    ensures Attended(procs[p := q])
  {
  }

  lemma ReplyKeepsAttended(run: Semantics, f: Family, a: WorkerStep)
    requires Calm(run) && FamilyInv(f) && WorkerEnabled(run, f, a)
    requires a.SeeResult? || a.SeeExit? || a.ReadRaises? || a.SendRaises? || a.SendReply?
    ensures Attended(StepWorker(run, f, a).procs)
  {
    forall q | q in f.procs && q != a.p ensures Resting(f.procs[q]) { WorkingAlone(f, a.p, q); }
    var procs := StepWorker(run, f, a).procs;
    if a.p in procs {
      AloneKeepsAttended(f.procs, a.p, procs[a.p]);
      assert procs == f.procs[a.p := procs[a.p]];
    }
  }

  lemma TakeUpKeepsAttended(run: Semantics, f: Family, a: WorkerStep)
    requires FamilyInv(f) && WorkerEnabled(run, f, a) && (a.Receive? || a.ForkFails?)
    ensures Attended(StepWorker(run, f, a).procs)
  {
  }

  /** A process may move on while it plays the same part for the others. */
  lemma RelabelKeepsAttended(procs: map<Pid, Proc>, p: Pid, q: Proc)
    requires Attended(procs) && p in procs && ChildOf(q) == ChildOf(procs[p])
    requires Resting(procs[p]) ==> Resting(q)
    requires procs[p].Running? ==> q.Running? || q.Receiving?
    requires procs[p].Receiving? ==> q.Receiving?
    ensures Attended(procs[p := q])
  {
    forall k, l | k in procs && l in procs && k != l
      ensures var after := procs[p := q];
        Resting(after[k]) || Resting(after[l]) || ParentOf(after, k, l) || ParentOf(after, l, k)
    {
      assert Resting(procs[k]) || Resting(procs[l]) || ParentOf(procs, k, l) || ParentOf(procs, l, k);
    }
  }

  lemma FinishKeepsAttended(run: Semantics, f: Family, p: Pid)
    requires FamilyInv(f) && p in f.procs && f.procs[p].Running?
    ensures Attended(Finish(run, f, p).procs)
  {
    RelabelKeepsAttended(f.procs, p, Receiving(run(f.procs[p].code, f.procs[p].env).env));
    LeaveKeepsAttended(f.procs, p);
  }

  lemma ChildKilledKeepsAttended(f: Family, p: Pid)
    requires FamilyInv(f) && p in f.procs && f.procs[p].Terminating?
    ensures Attended(Answer(KillChild(f, p), p, ErrorReply(f.procs[p].exec)).procs)
  {
    var q, procs := f.procs[p], KillChild(f, p).procs;
    forall k | k in procs && k != p ensures Resting(procs[k]) {
      assert Resting(f.procs[k]) || ParentOf(f.procs, p, k) || ParentOf(f.procs, k, p);
    }
    AloneKeepsAttended(procs, p, Replying(q.env, q.code, q.exec, ErrorReply(q.exec)));
  }

  lemma LeaveKeepsAttended(procs: map<Pid, Proc>, p: Pid)
    requires Attended(procs)
    ensures Attended(procs - {p})
  {
  }

  lemma StepKeepsAttended(run: Semantics, f: Family, a: WorkerStep)
    requires Calm(run) && FamilyInv(f)
    ensures Attended(StepWorker(run, f, a).procs)
  {
    if WorkerEnabled(run, f, a) {
      match a
      case Receive(_, _) => TakeUpKeepsAttended(run, f, a);
      case ForkFails(_) => TakeUpKeepsAttended(run, f, a);
      case ReceiveEof(p) => LeaveKeepsAttended(f.procs, p);
      case Dies(p) => LeaveKeepsAttended(f.procs, p);
      case Exits(p) => LeaveKeepsAttended(f.procs, p);
      case ChildFinishes(p) => FinishKeepsAttended(run, f, p);
      case TimesOut(p) =>
        var q := f.procs[p];
        RelabelKeepsAttended(f.procs, p, Terminating(q.env, q.code, q.exec, q.child));
      case ChildKilled(p) => ChildKilledKeepsAttended(f, p);
      case Reaped(_) =>
      case _ =>
        if !a.ReceiveRaises? && !a.Interrupted? && !a.ChildRaises? { ReplyKeepsAttended(run, f, a); }
    }
  }

  lemma TakeUpKeepsPids(run: Semantics, f: Family, a: WorkerStep)
    requires FamilyInv(f) && WorkerEnabled(run, f, a) && (a.Receive? || a.ForkFails?)
    ensures PidsUsed(StepWorker(run, f, a))
  {
  }

  lemma StepKeepsPids(run: Semantics, f: Family, a: WorkerStep)
    requires Calm(run) && FamilyInv(f)
    ensures PidsUsed(StepWorker(run, f, a))
  {
    if WorkerEnabled(run, f, a) && (a.Receive? || a.ForkFails?) { TakeUpKeepsPids(run, f, a); }
  }

  lemma StepKeepsChildren(run: Semantics, f: Family, a: WorkerStep)
    requires Calm(run) && FamilyInv(f)
    ensures ChildrenDone(StepWorker(run, f, a))
  {
    if WorkerEnabled(run, f, a) {
      if a.SeeResult? || a.SeeExit? {
        ReportKeepsChildren(run, f, a.p, a.SeeExit?);
      } else if a.ChildFinishes? {
        FinishKeepsChildren(run, f, a.p);
      }
    }
  }

  lemma FinishKeepsChildren(run: Semantics, f: Family, p: Pid)
    requires FamilyInv(f) && p in f.procs && f.procs[p].Running?
    ensures ChildrenDone(Finish(run, f, p))
  {
  }

  lemma ReportKeepsChildren(run: Semantics, f: Family, p: Pid, exited: bool)
    requires FamilyInv(f) && p in f.procs && f.procs[p].Supervising?
    requires if exited then f.procs[p].child !in f.procs else f.procs[p].child in f.results
    ensures ChildrenDone(Report(run, f, p, exited))
  {
  }

  lemma StepKeepsQueue(run: Semantics, f: Family, a: WorkerStep)
    requires Calm(run) && FamilyInv(f)
    ensures QueueDiscipline(StepWorker(run, f, a))
  {
    if f.requests != [] { DropRequest(f.requests); }
  }

  /** Every step of the processes keeps the discipline. */
  lemma StepKeepsFamily(run: Semantics, f: Family, a: WorkerStep)
    requires Calm(run) && FamilyInv(f)
    ensures FamilyInv(StepWorker(run, f, a))
  {
    StepKeepsAttended(run, f, a);
    StepKeepsPids(run, f, a);
    StepKeepsChildren(run, f, a);
    StepKeepsQueue(run, f, a);
  }

  // ------------------------------------------- handing over, with readable results

  lemma RemovalKeepsPairs(procs: map<Pid, Proc>, gone: set<Pid>)
    requires Paired(procs)
    ensures Paired(procs - gone)
  {
  }

  /** A process may move on while it plays the same part for the others. */
  lemma RelabelKeepsPairs(procs: map<Pid, Proc>, p: Pid, q: Proc)
    requires Paired(procs) && p in procs && !procs[p].Exiting?
    requires ChildOf(q) == ChildOf(procs[p])
    requires (q.Running? || q.Receiving?) == (procs[p].Running? || procs[p].Receiving?)
    ensures Paired(procs[p := q])
  {
  }

  /** A parent may answer without promoting anyone once its child is gone. */
  lemma AnswerKeepsPairs(procs: map<Pid, Proc>, p: Pid, q: Proc)
    requires Paired(procs) && p in procs && (procs[p].Supervising? || procs[p].Terminating?) && q.Replying?
    requires q.reply.owner == Some(procs[p].child) || (q.reply.owner == None && procs[p].child !in procs)
    ensures Paired(procs[p := q])
  {
  }

  /** Nobody is at work beside a process that takes up a queued execution. */
  lemma TakeUpKeepsPairs(run: Semantics, f: Family, a: WorkerStep)
    requires FamilyInv(f) && Paired(f.procs) && WorkerEnabled(run, f, a)
    requires (a.Receive? && f.requests[0].Execute?) || a.ForkFails?
    ensures Paired(StepWorker(run, f, a).procs)
  {
    assert AtRest(f);
    forall q | q in f.procs && q != a.p ensures f.procs[q].Exiting? {
      assert f.procs[q].Exiting? || ParentOf(f.procs, a.p, q) || ParentOf(f.procs, q, a.p);
    }
  }

  lemma FinishKeepsPairs(run: Semantics, f: Family, p: Pid)
    requires Paired(f.procs) && p in f.procs && f.procs[p].Running?
    ensures Paired(Finish(run, f, p).procs)
  {
    var out := run(f.procs[p].code, f.procs[p].env);
    RelabelKeepsPairs(f.procs, p, Receiving(out.env));
    RemovalKeepsPairs(f.procs, {p});
  }

  lemma DeliverKeepsPairs(f: Family, p: Pid)
    requires Paired(f.procs) && p in f.procs && f.procs[p].Replying?
    ensures Paired(Deliver(f, p).procs)
  {
    RemovalKeepsPairs(f.procs, {p});
  }

  lemma ChildKilledKeepsPairs(f: Family, p: Pid)
    requires FamilyInv(f) && Paired(f.procs) && p in f.procs && f.procs[p].Terminating?
    ensures Paired(Answer(KillChild(f, p), p, ErrorReply(f.procs[p].exec)).procs)
  {
    var q, g := f.procs[p], KillChild(f, p);
    RemovalKeepsPairs(f.procs, {q.child} - {p});
    AnswerKeepsPairs(g.procs, p, Replying(q.env, q.code, q.exec, ErrorReply(q.exec)));
  }

  lemma RaiseKeepsPairs(run: Semantics, f: Family, a: WorkerStep)
    requires Calm(run) && RelaySound(run) && FamilyInv(f) && Handover(run, f) && WorkerEnabled(run, f, a)
    requires a.ReadRaises? || a.SendRaises?
    ensures Paired(StepWorker(run, f, a).procs)
  {
    var q := f.procs[a.p];
    if a.ReadRaises? {
      assert !f.results[q.child];
      AnswerKeepsPairs(f.procs, a.p, Replying(q.env, q.code, q.exec, ErrorReply(q.exec)));
    } else {
      RelabelKeepsPairs(f.procs, a.p, q.(reply := ErrorReply(q.exec)));
    }
  }

  lemma ReportKeepsPairs(run: Semantics, f: Family, p: Pid, exited: bool)
    requires FamilyInv(f) && Handover(run, f) && p in f.procs && f.procs[p].Supervising?
    requires if exited then f.procs[p].child !in f.procs else f.procs[p].child in f.results
    ensures Paired(Report(run, f, p, exited).procs)
  {
    var q := f.procs[p];
    var reply := ReplyTo(ResultOf(f, q.child), exited, q.child, q.exec, run(q.code, q.env).replyMayFail);
    AnswerKeepsPairs(f.procs, p, Replying(q.env, q.code, q.exec, reply));
  }

  lemma StepKeepsPairs(run: Semantics, f: Family, a: WorkerStep)
    requires Calm(run) && RelaySound(run) && FamilyInv(f) && Handover(run, f)
    ensures Paired(StepWorker(run, f, a).procs)
  {
    if WorkerEnabled(run, f, a) {
      match a
      case Receive(p, child) =>
        if f.requests[0].Execute? { TakeUpKeepsPairs(run, f, a); } else { RemovalKeepsPairs(f.procs, {p}); }
      case ForkFails(_) => TakeUpKeepsPairs(run, f, a);
      case ReceiveEof(p) => RemovalKeepsPairs(f.procs, {p});
      case ChildFinishes(p) => FinishKeepsPairs(run, f, p);
      case Dies(p) => RemovalKeepsPairs(f.procs, {p});
      case SeeResult(p) => ReportKeepsPairs(run, f, p, false);
      case SeeExit(p) => ReportKeepsPairs(run, f, p, true);
      case TimesOut(p) =>
        var q := f.procs[p];
        RelabelKeepsPairs(f.procs, p, Terminating(q.env, q.code, q.exec, q.child));
      case ChildKilled(p) => ChildKilledKeepsPairs(f, p);
      case ReadRaises(_) => RaiseKeepsPairs(run, f, a);
      case SendRaises(_) => RaiseKeepsPairs(run, f, a);
      case SendReply(p) => DeliverKeepsPairs(f, p);
      case Exits(p) => RemovalKeepsPairs(f.procs, {p});
      case _ =>
    }
  }

  lemma TakeUpKeepsResults(run: Semantics, f: Family, a: WorkerStep)
    requires FamilyInv(f) && Handover(run, f) && WorkerEnabled(run, f, a) && (a.Receive? || a.ForkFails?)
    ensures ResultsTrue(run, StepWorker(run, f, a))
  {
  }

  lemma StepKeepsResults(run: Semantics, f: Family, a: WorkerStep)
    requires Calm(run) && FamilyInv(f) && Handover(run, f)
    ensures ResultsTrue(run, StepWorker(run, f, a))
  {
    if WorkerEnabled(run, f, a) {
      if a.ChildFinishes? {
        FinishKeepsResults(run, f, a.p);
      } else if a.Receive? || a.ForkFails? {
        TakeUpKeepsResults(run, f, a);
      }
    }
  }

  lemma FinishKeepsResults(run: Semantics, f: Family, p: Pid)
    requires FamilyInv(f) && Handover(run, f) && p in f.procs && f.procs[p].Running?
    ensures ResultsTrue(run, Finish(run, f, p))
  {
  }

  /** While no successful result makes its parent raise, every step keeps processes paired. */
  lemma StepKeepsHandover(run: Semantics, f: Family, a: WorkerStep)
    requires Calm(run) && RelaySound(run) && FamilyInv(f) && Handover(run, f)
    ensures Handover(run, StepWorker(run, f, a))
  {
    StepKeepsPairs(run, f, a);
    StepKeepsResults(run, f, a);
  }

  /** At most one live process can consume the next request; and while an execution is
      queued, it is the only live process there is. */
  lemma SingleOwner(run: Semantics, f: Family, p: Pid, q: Pid)
    requires FamilyInv(f) && Handover(run, f) && p in f.procs && q in f.procs
    ensures f.procs[p].Receiving? && f.procs[q].Receiving? ==> p == q
    ensures !NoExecute(f.requests) && Live(f, p) && Live(f, q) ==> p == q && f.procs[p].Receiving?
  {
    assert AtRest(f) || NoExecute(f.requests);
  }
}
