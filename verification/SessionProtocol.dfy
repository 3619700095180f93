/** The session pool and its worker families as one transition system.

    One action is a section of the pool's code between two suspension points, a step
    of the thread that talks to the pipe, or a step of a worker process.  Callers may
    be cancelled at any time and sessions shut down at any time. */
module SessionProtocol {
  import opened Options
  import opened WorkerFamily

  type SessionId = nat
  type EntryId = nat

  /** Where the holder of an entry's execution lock is; the lock is free when Idle.
      Sending: admitted, the request not yet written.
      Waiting: the request written, the reply not yet read.
      Got: the reply read.
      Raised: the reply taken off the pipe, but reading it has raised.
      Broken: the exchange failed, the entry still has to be retired.
      Abandoned: the entry has been retired, the caller still has to be told. */
  datatype Phase =
    | Idle
    | Sending(code: Code, exec: ExecId)
    | Waiting(code: Code, exec: ExecId)
    | Got(code: Code, exec: ExecId, reply: Reply)
    | Raised
    | Broken
    | Abandoned

  /** `initial` is the environment the first worker started with. */
  datatype Entry = Entry(workerPid: Pid, phase: Phase, cancelled: bool, initial: Environment, family: Family)

  datatype Pool = Pool(sessions: map<SessionId, EntryId>, entries: map<EntryId, Entry>, maxSessions: nat)

  function EmptyPool(maxSessions: nat): Pool { Pool(map[], map[], maxSessions) }

  /** The owner a reply leaves behind: the promoted child, or else the same worker. */
  function NextPid(workerPid: Pid, r: Reply): Pid {
    if r.owner.Some? then r.owner.value else workerPid
  }

  datatype CallerResult = Returned(status: Status) | Cancellation | Error

  /** What the caller of `execute` sees when the exchange settles. */
  function ResultFor(e: Entry): CallerResult {
    if e.cancelled then Cancellation
    else
      match e.phase
      case Got(_, _, r) => if r.status == NoStatus then Error else Returned(r.status)
      case _ => Error
  }

  // ------------------------------------------------------------------- actions

  datatype Action =
    | GetOrCreate(session: SessionId, newEntry: EntryId, pid: Pid, env: Environment)
    | Begin(session: SessionId, e: EntryId, code: Code, exec: ExecId)
    | Send(e: EntryId)
    | Take(e: EntryId)
    | TakeRaises(e: EntryId)
    | Watchdog(e: EntryId)
    | PipeFails(e: EntryId)
    | Retire(e: EntryId)
    | Settle(e: EntryId)
    | Cancel(e: EntryId)
    | ShutDown(session: SessionId)
    | Terminate(e: EntryId)
    | Work(e: EntryId, step: WorkerStep)

  predicate Enabled(s: Pool, a: Action) {
    match a
    case GetOrCreate(_, e, _, _) => e !in s.entries
    case Begin(_, e, _, _) => e in s.entries && s.entries[e].phase.Idle?
    case Send(e) => e in s.entries && s.entries[e].phase.Sending?
    case Take(e) =>
      e in s.entries && s.entries[e].phase.Waiting? && s.entries[e].family.replies != [] && !s.entries[e].family.closed
    case TakeRaises(e) =>
      e in s.entries && s.entries[e].phase.Waiting? && s.entries[e].family.replies != [] && !s.entries[e].family.closed
      && s.entries[e].family.replies[0].mayFail
    case Watchdog(e) => e in s.entries && s.entries[e].phase.Waiting?
    case PipeFails(e) => e in s.entries && (s.entries[e].phase.Waiting? || s.entries[e].phase.Sending?)
    case Retire(e) => e in s.entries && s.entries[e].phase.Broken?
    case Settle(e) => e in s.entries && Ended(s.entries[e].phase)
    case Cancel(e) => e in s.entries && !s.entries[e].phase.Idle?
    case ShutDown(session) => session in s.sessions && s.sessions[session] in s.entries
    case Terminate(e) => e in s.entries && e !in s.sessions.Values
    case Work(e, _) => e in s.entries
  }

  /** Nothing is left to do but to tell the caller. */
  predicate Ended(p: Phase) { p.Got? || p.Raised? || p.Abandoned? }

  function Update(s: Pool, e: EntryId, entry: Entry): Pool {
    s.(entries := s.entries[e := entry])
  }

  function WithPhase(s: Pool, e: EntryId, phase: Phase): Pool
    requires e in s.entries
  {
    Update(s, e, s.entries[e].(phase := phase))
  }

  /** What the system says of the worker pid: a dead process nobody has reaped yet still
      counts as alive. */
  function PidIsAlive(e: Entry): bool { e.workerPid in e.family.procs || e.workerPid in e.family.unreaped }

  /** The pool's end of the pipe asks the worker to stop. */
  function AskToStop(f: Family): Family {
    if f.closed then f else f.(requests := f.requests + [Shutdown])
  }

  function Kill(f: Family, p: Pid): Family {
    (if p in f.procs then Gone(f, p) else f).(closed := true)
  }

  /** Admission under the execution lock.  The caller found the entry before it waited for
      the lock: when the session has another entry by now it starts over, an entry whose
      worker is gone is dropped, and otherwise the exchange begins. */
  function Admit(s: Pool, session: SessionId, e: EntryId, code: Code, exec: ExecId): Pool
    requires e in s.entries
  {
    var entry := s.entries[e];
    if !(session in s.sessions && s.sessions[session] == e) then s
    else if PidIsAlive(entry) then Update(s, e, entry.(phase := Sending(code, exec), cancelled := false))
    else s.(sessions := s.sessions - {session}, entries := s.entries[e := entry.(family := entry.family.(closed := true))])
  }

  function DropSessionsOf(s: Pool, e: EntryId): map<SessionId, EntryId> {
    map k | k in s.sessions && s.sessions[k] != e :: s.sessions[k]
  }

  /** Takes an entry out of the pool and asks its worker to stop, unless somebody else
      has done so already. */
  function RetireEntry(s: Pool, e: EntryId): Pool
    requires e in s.entries
  {
    if e in s.sessions.Values then
      s.(sessions := DropSessionsOf(s, e),
         entries := s.entries[e := s.entries[e].(phase := Abandoned, family := AskToStop(s.entries[e].family))])
    else WithPhase(s, e, Abandoned)
  }

  function SettleEntry(entry: Entry): Entry {
    match entry.phase
    case Got(_, _, r) => entry.(workerPid := NextPid(entry.workerPid, r), phase := Idle)
    case _ => entry.(phase := Idle)
  }

  function Step(run: Semantics, s: Pool, a: Action): Pool {
    if !Enabled(s, a) then s
    else
      match a
      case GetOrCreate(session, e, pid, env) =>
        if session in s.sessions || |s.sessions| >= s.maxSessions then s
        else s.(sessions := s.sessions[session := e], entries := s.entries[e := Entry(pid, Idle, false, env, NewFamily(pid, env))])
      case Begin(session, e, code, exec) => Admit(s, session, e, code, exec)
      case Send(e) =>
        var entry := s.entries[e];
        if entry.family.closed then WithPhase(s, e, Broken)
        else
          var r := Execute(entry.phase.code, entry.phase.exec);
          Update(s, e, entry.(phase := Waiting(entry.phase.code, entry.phase.exec),
                              family := entry.family.(requests := entry.family.requests + [r])))
      case Take(e) =>
        var entry := s.entries[e];
        Update(s, e, entry.(phase := Got(entry.phase.code, entry.phase.exec, entry.family.replies[0]),
                            family := entry.family.(replies := entry.family.replies[1..])))
      case TakeRaises(e) =>
        var entry := s.entries[e];
        Update(s, e, entry.(phase := Raised, family := entry.family.(replies := entry.family.replies[1..])))
      case Watchdog(e) => WithPhase(s, e, Broken)
      case PipeFails(e) => WithPhase(s, e, Broken)
      case Retire(e) => RetireEntry(s, e)
      case Settle(e) => Update(s, e, SettleEntry(s.entries[e]))
      case Cancel(e) => Update(s, e, s.entries[e].(cancelled := true))
      case ShutDown(session) =>
        var e := s.sessions[session];
        s.(sessions := s.sessions - {session},
           entries := s.entries[e := s.entries[e].(family := AskToStop(s.entries[e].family))])
      case Terminate(e) => Update(s, e, s.entries[e].(family := Kill(s.entries[e].family, s.entries[e].workerPid)))
      case Work(e, step) => Update(s, e, s.entries[e].(family := StepWorker(run, s.entries[e].family, step)))
  }

  function Run(run: Semantics, s: Pool, actions: seq<Action>): Pool
    decreases actions
  {
    if actions == [] then s else Run(run, Step(run, s, actions[0]), actions[1..])
  }

  // ------------------------------------------------------ the fold of successes

  /** The programs reported as ok, applied in order to the first environment. */
  function Fold(run: Semantics, env: Environment, sent: seq<Sent>): Environment {
    if sent == [] then env
    else
      var before := Fold(run, env, sent[..|sent| - 1]);
      var last := sent[|sent| - 1];
      if last.reply.status == Ok then run(last.code, before).env else before
  }

  /** Only a program that did succeed, in the environment it was run in, is reported ok. */
  ghost predicate ReportsTrue(run: Semantics, env: Environment, sent: seq<Sent>) {
    forall i :: 0 <= i < |sent| && sent[i].reply.status == Ok ==> run(sent[i].code, Fold(run, env, sent[..i])).ok
  }

  function Base(run: Semantics, e: Entry): Environment {
    Fold(run, e.initial, e.family.sent)
  }

  // ------------------ what holds of every entry ever, when no program leaves an interruption

  ghost predicate ProcTagged(q: Proc, x: ExecId) {
    match q
    case Supervising(_, _, exec, _) => exec == x
    case Terminating(_, _, exec, _) => exec == x
    case Replying(_, _, exec, r) => exec == x && r.answers == Some(x)
    case Running(_, _, exec) => exec == x
    case _ => true
  }

  /** Everything under way in the family is about execution `x`. */
  ghost predicate Tagged(f: Family, x: ExecId) {
    && (forall p :: p in f.procs ==> ProcTagged(f.procs[p], x))
    && (forall i :: 0 <= i < |f.requests| && f.requests[i].Execute? ==> f.requests[i].exec == x)
    && (forall i :: 0 <= i < |f.replies| ==> f.replies[i].answers == Some(x))
  }

  ghost predicate EntryInv(run: Semantics, e: Entry) {
    && FamilyInv(e.family)
    && (RelaySound(run) ==> Handover(run, e.family))
    && PhaseInv(e)
  }

  ghost predicate PhaseInv(e: Entry) {
    match e.phase
    case Sending(_, _) => NoExecute(e.family.requests) && AtRest(e.family) && e.family.replies == []
    case Waiting(_, x) => Tagged(e.family, x)
    case Got(_, x, r) => r.answers == Some(x)
    case _ => true
  }

  // --------------------------------------- what holds of an entry in the pool

  /** Nothing is on the pipe and nobody is at work. */
  ghost predicate Quiet(f: Family) {
    f.requests == [] && f.replies == [] && AtRest(f)
  }

  /** The request is queued, or somebody is at work on it, or its one reply is there. */
  ghost predicate OneExchange(f: Family, c: Code, x: ExecId) {
    || (f.requests == [Execute(c, x)] && f.replies == [] && AtRest(f))
    || (f.requests == [] && f.replies == [])
    || (f.requests == [] && |f.replies| == 1 && AtRest(f))
  }

  /** The pipe of an entry in the pool, whatever results do to their readers. */
  ghost predicate PipeInv(e: Entry) {
    && !e.family.closed
    && match e.phase
       case Waiting(c, x) => OneExchange(e.family, c, x)
       case Broken => true
       case Abandoned => false
       case _ => Quiet(e.family)
  }

  /** Apart from processes on their way out, only `p` is there, at rest in `env`. */
  ghost predicate OwnedBy(f: Family, p: Pid, env: Environment) {
    forall q :: q in f.procs ==> if q == p then f.procs[q] == Receiving(env) else f.procs[q].Exiting?
  }

  ghost predicate ChildAtWork(f: Family, child: Pid) {
    child in f.procs ==> f.procs[child].Running? || f.procs[child].Receiving?
  }

  /** A process in the middle of running `c` as execution `x` in environment `base`. */
  ghost predicate ProcWorks(run: Semantics, f: Family, p: Pid, q: Proc, workerPid: Pid, base: Environment, c: Code, x: ExecId) {
    match q
    case Receiving(env) => run(c, base).ok && env == run(c, base).env
    case Supervising(env, c', x', child) =>
      p == workerPid && env == base && c' == c && x' == x
      && ChildAtWork(f, child) && (child in f.results ==> f.results[child] == run(c, base).ok)
    case Terminating(env, c', x', child) => p == workerPid && env == base && c' == c && x' == x
    case Replying(env, c', x', r) =>
      p == workerPid && env == base && c' == c && x' == x && r.answers == Some(x)
      && (r.status == Ok <==> r.owner.Some?) && (r.status == Ok ==> run(c, base).ok && !r.mayFail)
      && (r.status == Failed ==> !run(c, base).ok)
      && (r.owner.Some? && r.owner.value in f.procs ==> f.procs[r.owner.value].Receiving?)
    case Running(env, c', x') => env == base && c' == c && x' == x
    case Exiting(_) => true
  }

  ghost predicate Working(run: Semantics, f: Family, workerPid: Pid, base: Environment, c: Code, x: ExecId) {
    forall p :: p in f.procs ==> ProcWorks(run, f, p, f.procs[p], workerPid, base, c, x)
  }

  ghost predicate Answered(run: Semantics, f: Family, workerPid: Pid, base: Environment, c: Code, x: ExecId, r: Reply) {
    && r.answers == Some(x) && OwnedBy(f, NextPid(workerPid, r), base)
    && (r.status == Ok <==> r.owner.Some?) && (r.status == Ok ==> !r.mayFail)
    && (r.status == Failed ==> !run(c, base).ok)
    && f.sent != [] && f.sent[|f.sent| - 1] == Sent(c, r)
  }

  ghost predicate WaitingInv(run: Semantics, f: Family, workerPid: Pid, base: Environment, c: Code, x: ExecId) {
    || (f.requests == [Execute(c, x)] && f.replies == [] && OwnedBy(f, workerPid, base))
    || (f.requests == [] && f.replies == [] && Working(run, f, workerPid, base, c, x))
    || (f.requests == [] && |f.replies| == 1 && Answered(run, f, workerPid, base, c, x, f.replies[0]))
  }

  /** Who owns an entry in the pool, when no successful result makes a reader raise. */
  ghost predicate OwnedInv(run: Semantics, e: Entry) {
    var f, base := e.family, Base(run, e);
    && (e.phase.Broken? || ReportsTrue(run, e.initial, f.sent))
    && match e.phase
       case Waiting(c, x) => WaitingInv(run, f, e.workerPid, base, c, x)
       case Got(c, x, r) => Answered(run, f, e.workerPid, base, c, x, r)
       case Raised => OwnedBy(f, e.workerPid, base) && f.sent != [] && f.sent[|f.sent| - 1].reply.status != Ok
       case Broken => true
       case _ => OwnedBy(f, e.workerPid, base)
  }

  ghost predicate PooledInv(run: Semantics, e: Entry) {
    PipeInv(e) && (Sound(run) ==> OwnedInv(run, e))
  }

  /** The pool's own order: no more sessions than allowed, no entry shared by two
      sessions, `pooled` of every entry in the pool and `always` of every entry ever. */
  ghost predicate InOrder(s: Pool, always: Entry -> bool, pooled: Entry -> bool) {
    && |s.sessions| <= s.maxSessions
    && (forall k :: k in s.sessions ==> s.sessions[k] in s.entries && pooled(s.entries[s.sessions[k]]))
    && (forall k, l :: k in s.sessions && l in s.sessions && s.sessions[k] == s.sessions[l] ==> k == l)
    && (forall e :: e in s.entries ==> always(s.entries[e]))
  }

  ghost function Always(run: Semantics): Entry -> bool { e => EntryInv(run, e) }

  ghost function Pooled(run: Semantics): Entry -> bool { e => PooledInv(run, e) }

  ghost predicate Inv(run: Semantics, s: Pool) {
    InOrder(s, Always(run), Pooled(run))
  }
}
