/** Concrete runs of the session pool: what goes wrong when a worker dies unreaped, when a
    result makes its reader raise, and when a program leaves an interruption behind. */
module SessionRuns {
  import opened Options
  import opened WorkerFamily
  import opened SessionProtocol
  import opened SessionTheorems

  // ------------------------------------------------------------------- one session

  /** A pool with one session. */
  function Single(max: nat, e: Entry): Pool {
    Pool(map[0 := 0], map[0 := e], max)
  }

  lemma {:induction false} RunThen(run: Semantics, s: Pool, a: seq<Action>, b: seq<Action>)
    ensures Run(run, s, a + b) == Run(run, Run(run, s, a), b)
    decreases a
  {
    if a == [] {
      assert a + b == b;
    } else {
      assert (a + b)[1..] == a[1..] + b;
      RunThen(run, Step(run, s, a[0]), a[1..], b);
    }
  }

  lemma RunOne(run: Semantics, s: Pool, a: seq<Action>, last: Action)
    ensures Run(run, s, a + [last]) == Step(run, Run(run, s, a), last)
  {
    RunThen(run, s, a, [last]);
    assert Run(run, Step(run, Run(run, s, a), last), [last][1..]) == Step(run, Run(run, s, a), last);
  }

  function New(env: Environment): Entry {
    Entry(0, Idle, false, env, NewFamily(0, env))
  }

  function Created(env: Environment): seq<Action> {
    [GetOrCreate(0, 0, 0, env)]
  }

  lemma CreatedRun(run: Semantics, max: nat, env: Environment)
    requires max > 0
    ensures Run(run, EmptyPool(max), Created(env)) == Single(max, New(env))
  {
    assert Created(env) == [] + [GetOrCreate(0, 0, 0, env)];
    RunOne(run, EmptyPool(max), [], GetOrCreate(0, 0, 0, env));
  }

  /** A worker step of the one session. */
  lemma WorkOne(run: Semantics, max: nat, a: seq<Action>, e: Entry, step: WorkerStep, f: Family)
    requires Run(run, EmptyPool(max), a) == Single(max, e) && StepWorker(run, e.family, step) == f
    ensures Run(run, EmptyPool(max), a + [Work(0, step)]) == Single(max, e.(family := f))
  {
    RunOne(run, EmptyPool(max), a, Work(0, step));
  }

  /** A step of the pool that only changes the entry. */
  lemma PoolOne(run: Semantics, max: nat, a: seq<Action>, e: Entry, step: Action, e': Entry)
    requires Run(run, EmptyPool(max), a) == Single(max, e) && Step(run, Single(max, e), step) == Single(max, e')
    ensures Run(run, EmptyPool(max), a + [step]) == Single(max, e')
  {
    RunOne(run, EmptyPool(max), a, step);
  }

  lemma SettleOne(run: Semantics, max: nat, a: seq<Action>, e: Entry)
    requires Run(run, EmptyPool(max), a) == Single(max, e) && Ended(e.phase)
    ensures Run(run, EmptyPool(max), a + [Settle(0)]) == Single(max, SettleEntry(e))
  {
    PoolOne(run, max, a, e, Settle(0), SettleEntry(e));
  }

  /** The first worker dies before anything ran. */
  function DeadWorker(env: Environment): seq<Action> {
    Created(env) + [Work(0, Dies(0))]
  }

  function ReapedWorker(env: Environment): seq<Action> {
    DeadWorker(env) + [Work(0, WorkerStep.Reaped(0))]
  }

  function Dead(env: Environment, unreaped: set<Pid>): Entry {
    New(env).(family := NewFamily(0, env).(procs := map[], unreaped := unreaped))
  }

  lemma DeadFamily(run: Semantics, env: Environment)
    ensures StepWorker(run, New(env).family, Dies(0)) == Dead(env, {0}).family
    ensures StepWorker(run, Dead(env, {0}).family, WorkerStep.Reaped(0)) == Dead(env, {}).family
  {
  }

  lemma DeadWorkerRun(run: Semantics, max: nat, env: Environment)
    requires max > 0
    ensures Run(run, EmptyPool(max), DeadWorker(env)) == Single(max, Dead(env, {0}))
    ensures Run(run, EmptyPool(max), ReapedWorker(env)) == Single(max, Dead(env, {}))
  {
    CreatedRun(run, max, env);
    DeadFamily(run, env);
    WorkOne(run, max, Created(env), New(env), Dies(0), Dead(env, {0}).family);
    WorkOne(run, max, DeadWorker(env), Dead(env, {0}), WorkerStep.Reaped(0), Dead(env, {}).family);
  }

  /** Nobody owns the session of the dead worker.  Unreaped, it is kept, and an exchange with
      it begins; reaped, it is dropped. */
  lemma UnreapedWorkerIsKept(run: Semantics, max: nat, env: Environment, code: Code, exec: ExecId)
    requires max > 0
    ensures var s := Run(run, EmptyPool(max), DeadWorker(env)); var s' := Step(run, s, Begin(0, 0, code, exec));
      && 0 in s.entries && !Owned(s.entries[0]) && !Drops(s, 0, 0)
      && 0 in s'.sessions && 0 in s'.entries && s'.entries[0].phase == Sending(code, exec)
    ensures var s := Run(run, EmptyPool(max), ReapedWorker(env));
      0 in s.entries && !Owned(s.entries[0]) && Drops(s, 0, 0)
  {
    DeadWorkerRun(run, max, env);
    assert 0 in Admit(Single(max, Dead(env, {0})), 0, 0, 0, 0).sessions;
  }

  /** A program has run and succeeded, and its result is on the way to the parent. */
  function Succeeded(c: Code, env: Environment): seq<Action> {
    Created(env) + [Begin(0, 0, c, 0)] + [Send(0)] + [Work(0, Receive(0, 1))] + [Work(0, ChildFinishes(1))]
  }

  /** The child is armed if its program leaves an interruption. */
  function Armed(run: Semantics, c: Code, env: Environment): set<Pid> {
    if run(c, env).interrupts then {1} else {}
  }

  function SucceededEntry(run: Semantics, c: Code, env: Environment): Entry {
    var procs: map<Pid, Proc> := map[0 := Supervising(env, c, 0, 1), 1 := Receiving(run(c, env).env)];
    Entry(0, Waiting(c, 0), false, env, Family(procs, {}, Armed(run, c, env), map[1 := true], {0, 1}, [], [], false, []))
  }

  lemma SentRun(run: Semantics, max: nat, c: Code, env: Environment)
    requires max > 0
    ensures Run(run, EmptyPool(max), Created(env) + [Begin(0, 0, c, 0)] + [Send(0)]) ==
      Single(max, New(env).(phase := Waiting(c, 0), family := NewFamily(0, env).(requests := [Execute(c, 0)])))
  {
    var e0 := New(env);
    var e1 := e0.(phase := Sending(c, 0));
    CreatedRun(run, max, env);
    PoolOne(run, max, Created(env), e0, Begin(0, 0, c, 0), e1);
    assert e1.family.requests + [Execute(c, 0)] == [Execute(c, 0)];
    PoolOne(run, max, Created(env) + [Begin(0, 0, c, 0)], e1, Send(0),
            e1.(phase := Waiting(c, 0), family := e1.family.(requests := [Execute(c, 0)])));
  }

  /** A child is running the program of the request just taken up. */
  function Forked(c: Code, env: Environment): seq<Action> {
    Created(env) + [Begin(0, 0, c, 0)] + [Send(0)] + [Work(0, Receive(0, 1))]
  }

  function ForkedEntry(c: Code, env: Environment): Entry {
    var procs: map<Pid, Proc> := map[0 := Supervising(env, c, 0, 1), 1 := Running(env, c, 0)];
    Entry(0, Waiting(c, 0), false, env, Family(procs, {}, {}, map[], {0, 1}, [], [], false, []))
  }

  lemma ForkedRun(run: Semantics, max: nat, c: Code, env: Environment)
    requires max > 0
    ensures Run(run, EmptyPool(max), Forked(c, env)) == Single(max, ForkedEntry(c, env))
  {
    var e2 := New(env).(phase := Waiting(c, 0), family := NewFamily(0, env).(requests := [Execute(c, 0)]));
    SentRun(run, max, c, env);
    assert e2.family.requests[1..] == [];
    WorkOne(run, max, Created(env) + [Begin(0, 0, c, 0)] + [Send(0)], e2, Receive(0, 1), ForkedEntry(c, env).family);
  }

  lemma SucceededRun(run: Semantics, max: nat, c: Code, env: Environment)
    requires max > 0 && run(c, env).ok
    ensures Run(run, EmptyPool(max), Succeeded(c, env)) == Single(max, SucceededEntry(run, c, env))
  {
    var f := ForkedEntry(c, env).family;
    ForkedRun(run, max, c, env);
    assert HasReader(f, 1) by { assert f.procs[0].child == 1; }
    WorkOne(run, max, Forked(c, env), ForkedEntry(c, env), ChildFinishes(1), SucceededEntry(run, c, env).family);
  }

  /** The parent has a reply for the program that succeeded, whatever became of its result. */
  function Answering(run: Semantics, c: Code, env: Environment, r: Reply): Family {
    var procs: map<Pid, Proc> := map[0 := Replying(env, c, 0, r), 1 := Receiving(run(c, env).env)];
    Family(procs, {}, Armed(run, c, env), map[], {0, 1}, [], [], false, [])
  }

  function AfterReply(run: Semantics, c: Code, env: Environment, r: Reply, replies: seq<Reply>): Family {
    var parent: Proc := if r.owner.Some? then Exiting(env) else Receiving(env);
    var procs: map<Pid, Proc> := map[0 := parent, 1 := Receiving(run(c, env).env)];
    Family(procs, {}, Armed(run, c, env), map[], {0, 1}, [], replies, false, [Sent(c, r)])
  }

  lemma ReplyRun(run: Semantics, max: nat, c: Code, env: Environment, a: seq<Action>, r: Reply)
    requires Run(run, EmptyPool(max), a) == Single(max, SucceededEntry(run, c, env).(family := Answering(run, c, env, r)))
    ensures Run(run, EmptyPool(max), a + [Work(0, SendReply(0))]) ==
      Single(max, SucceededEntry(run, c, env).(family := AfterReply(run, c, env, r, [r])))
  {
    assert StepWorker(run, Answering(run, c, env, r), SendReply(0)) == AfterReply(run, c, env, r, [r]);
    WorkOne(run, max, a, SucceededEntry(run, c, env).(family := Answering(run, c, env, r)), SendReply(0), AfterReply(run, c, env, r, [r]));
  }

  /** The parent raises when it reads the result, and says that it failed. */
  function RaisingParent(c: Code, env: Environment): seq<Action> {
    Succeeded(c, env) + [Work(0, ReadRaises(0))] + [Work(0, SendReply(0))] + [Take(0)] + [Settle(0)]
  }

  function TwoReceivers(run: Semantics, c: Code, env: Environment): Entry {
    Entry(0, Idle, false, env, AfterReply(run, c, env, ErrorReply(0), []))
  }

  lemma RaisingParentRun(run: Semantics, max: nat, c: Code, env: Environment)
    requires max > 0 && run(c, env).ok && run(c, env).relayMayFail
    ensures Run(run, EmptyPool(max), RaisingParent(c, env)) == Single(max, TwoReceivers(run, c, env))
  {
    var a5 := Succeeded(c, env) + [Work(0, ReadRaises(0))];
    var a6 := a5 + [Work(0, SendReply(0))];
    var e4, r := SucceededEntry(run, c, env), ErrorReply(0);
    SucceededRun(run, max, c, env);
    assert StepWorker(run, e4.family, ReadRaises(0)) == Answering(run, c, env, r);
    WorkOne(run, max, Succeeded(c, env), e4, ReadRaises(0), Answering(run, c, env, r));
    ReplyRun(run, max, c, env, a5, r);
    TakenRun(run, max, c, env, a6, r, Take(0), Got(c, 0, r));
  }

  /** The reply is taken off the pipe and the exchange settles. */
  lemma TakenRun(run: Semantics, max: nat, c: Code, env: Environment, a: seq<Action>, r: Reply, take: Action, phase: Phase)
    requires Run(run, EmptyPool(max), a) == Single(max, SucceededEntry(run, c, env).(family := AfterReply(run, c, env, r, [r])))
    requires (take == Take(0) && phase == Got(c, 0, r) && r.owner.None?) || (take == TakeRaises(0) && phase == Raised && r.mayFail)
    ensures Run(run, EmptyPool(max), a + [take] + [Settle(0)]) ==
      Single(max, Entry(0, Idle, false, env, AfterReply(run, c, env, r, [])))
  {
    var e6 := SucceededEntry(run, c, env).(family := AfterReply(run, c, env, r, [r]));
    var e7 := SucceededEntry(run, c, env).(phase := phase, family := AfterReply(run, c, env, r, []));
    TakeOne(run, max, c, env, r, take, phase);
    PoolOne(run, max, a, e6, take, e7);
    PoolOne(run, max, a + [take], e7, Settle(0), e7.(phase := Idle));
  }

  lemma TakeOne(run: Semantics, max: nat, c: Code, env: Environment, r: Reply, take: Action, phase: Phase)
    requires (take == Take(0) && phase == Got(c, 0, r)) || (take == TakeRaises(0) && phase == Raised && r.mayFail)
    ensures Step(run, Single(max, SucceededEntry(run, c, env).(family := AfterReply(run, c, env, r, [r]))), take) ==
      Single(max, SucceededEntry(run, c, env).(phase := phase, family := AfterReply(run, c, env, r, [])))
  {
    assert [r][1..] == [];
  }

  /** The pool raises when it reads the reply that names the new owner. */
  function RaisingPool(c: Code, env: Environment): seq<Action> {
    Reported(c, env) + [TakeRaises(0)] + [Settle(0)]
  }

  function StaleOwner(run: Semantics, c: Code, env: Environment): Entry {
    Entry(0, Idle, false, env, AfterReply(run, c, env, Reply(Ok, Some(1), Some(0), true), []))
  }

  function OkReply(run: Semantics, c: Code, env: Environment, child: Pid, exec: ExecId): Reply {
    Reply(Ok, Some(child), Some(exec), run(c, env).replyMayFail)
  }

  /** The parent has reported the success and is on its way out. */
  function Reported(c: Code, env: Environment): seq<Action> {
    Succeeded(c, env) + [Work(0, SeeResult(0))] + [Work(0, SendReply(0))]
  }

  lemma ReportedRun(run: Semantics, max: nat, c: Code, env: Environment)
    requires max > 0 && run(c, env).ok
    ensures var r := OkReply(run, c, env, 1, 0);
      Run(run, EmptyPool(max), Reported(c, env)) == Single(max, SucceededEntry(run, c, env).(family := AfterReply(run, c, env, r, [r])))
  {
    var e4, r := SucceededEntry(run, c, env), OkReply(run, c, env, 1, 0);
    SucceededRun(run, max, c, env);
    assert StepWorker(run, e4.family, SeeResult(0)) == Answering(run, c, env, r);
    WorkOne(run, max, Succeeded(c, env), e4, SeeResult(0), Answering(run, c, env, r));
    ReplyRun(run, max, c, env, Succeeded(c, env) + [Work(0, SeeResult(0))], r);
  }

  lemma RaisingPoolRun(run: Semantics, max: nat, c: Code, env: Environment)
    requires max > 0 && run(c, env).ok && run(c, env).replyMayFail
    ensures Run(run, EmptyPool(max), RaisingPool(c, env)) == Single(max, StaleOwner(run, c, env))
  {
    ReportedRun(run, max, c, env);
    TakenRun(run, max, c, env, Reported(c, env), OkReply(run, c, env, 1, 0), TakeRaises(0), Raised);
  }

  // ------------------------------------------------ executions that leave no trace

  /** The parent, alone again, has a reply for a program that was not applied. */
  function Alone(c: Code, env: Environment, r: Reply, phase: Phase, parent: Proc, replies: seq<Reply>, sent: seq<Sent>): Entry {
    Entry(0, phase, false, env, Family(map[0 := parent], {}, {}, map[], {0, 1}, [], replies, false, sent))
  }

  /** The program runs out of time, and is killed. */
  function TimedOut(c: Code, env: Environment): seq<Action> {
    Forked(c, env) + [Work(0, TimesOut(0))] + [Work(0, ChildKilled(0))]
  }

  /** The process running the program dies. */
  function Crashed(c: Code, env: Environment): seq<Action> {
    Forked(c, env) + [Work(0, Dies(1))] + [Work(0, SeeExit(0))]
  }

  /** The program fails, and says so. */
  function FailedProgram(c: Code, env: Environment): seq<Action> {
    Forked(c, env) + [Work(0, ChildFinishes(1))] + [Work(0, SeeResult(0))]
  }

  function Replied(a: seq<Action>): seq<Action> { a + [Work(0, SendReply(0))] + [Take(0)] }

  lemma TimedOutRun(run: Semantics, max: nat, c: Code, env: Environment)
    requires max > 0
    ensures Run(run, EmptyPool(max), TimedOut(c, env)) ==
      Single(max, Alone(c, env, ErrorReply(0), Waiting(c, 0), Replying(env, c, 0, ErrorReply(0)), [], []))
  {
    var e := ForkedEntry(c, env);
    var f := e.family.(procs := map[0 := Terminating(env, c, 0, 1), 1 := Running(env, c, 0)]);
    ForkedRun(run, max, c, env);
    assert StepWorker(run, e.family, TimesOut(0)) == f;
    WorkOne(run, max, Forked(c, env), e, TimesOut(0), f);
    KilledFamily(run, c, env);
    WorkOne(run, max, Forked(c, env) + [Work(0, TimesOut(0))], e.(family := f), ChildKilled(0),
            Alone(c, env, ErrorReply(0), Waiting(c, 0), Replying(env, c, 0, ErrorReply(0)), [], []).family);
  }

  lemma KilledFamily(run: Semantics, c: Code, env: Environment)
    ensures var f := ForkedEntry(c, env).family.(procs := map[0 := Terminating(env, c, 0, 1), 1 := Running(env, c, 0)]);
      StepWorker(run, f, ChildKilled(0)) ==
        Alone(c, env, ErrorReply(0), Waiting(c, 0), Replying(env, c, 0, ErrorReply(0)), [], []).family
  {
  }

  lemma CrashedRun(run: Semantics, max: nat, c: Code, env: Environment)
    requires max > 0
    ensures Run(run, EmptyPool(max), Crashed(c, env)) ==
      Single(max, Alone(c, env, ErrorReply(0), Waiting(c, 0), Replying(env, c, 0, ErrorReply(0)), [], []))
  {
    var e := ForkedEntry(c, env);
    var f := e.family.(procs := map[0 := Supervising(env, c, 0, 1)], unreaped := {1});
    ForkedRun(run, max, c, env);
    assert StepWorker(run, e.family, Dies(1)) == f;
    WorkOne(run, max, Forked(c, env), e, Dies(1), f);
    ReportedFamily(run, c, env, map[], ErrorReply(0), SeeExit(0));
    WorkOne(run, max, Forked(c, env) + [Work(0, Dies(1))], e.(family := f), SeeExit(0),
            Alone(c, env, ErrorReply(0), Waiting(c, 0), Replying(env, c, 0, ErrorReply(0)), [], []).family);
  }

  /** What the parent makes of a child that is gone. */
  lemma ReportedFamily(run: Semantics, c: Code, env: Environment, results: map<Pid, bool>, r: Reply, step: WorkerStep)
    requires (results == map[] && r == ErrorReply(0) && step == SeeExit(0))
             || (results == map[1 := false] && r == Reply(Failed, None, Some(0), run(c, env).replyMayFail) && step == SeeResult(0))
    ensures var f := ForkedEntry(c, env).family.(procs := map[0 := Supervising(env, c, 0, 1)], unreaped := {1}, results := results);
      StepWorker(run, f, step) == Alone(c, env, r, Waiting(c, 0), Replying(env, c, 0, r), [], []).family
  {
  }

  lemma FailedProgramRun(run: Semantics, max: nat, c: Code, env: Environment)
    requires max > 0 && !run(c, env).ok
    ensures var r := Reply(Failed, None, Some(0), run(c, env).replyMayFail);
      Run(run, EmptyPool(max), FailedProgram(c, env)) == Single(max, Alone(c, env, r, Waiting(c, 0), Replying(env, c, 0, r), [], []))
  {
    var e, r := ForkedEntry(c, env), Reply(Failed, None, Some(0), run(c, env).replyMayFail);
    var f := e.family.(procs := map[0 := Supervising(env, c, 0, 1)], unreaped := {1}, results := map[1 := false]);
    ForkedRun(run, max, c, env);
    assert HasReader(e.family, 1) by { assert e.family.procs[0].child == 1; }
    assert StepWorker(run, e.family, ChildFinishes(1)) == f;
    WorkOne(run, max, Forked(c, env), e, ChildFinishes(1), f);
    ReportedFamily(run, c, env, map[1 := false], r, SeeResult(0));
    WorkOne(run, max, Forked(c, env) + [Work(0, ChildFinishes(1))], e.(family := f), SeeResult(0),
            Alone(c, env, r, Waiting(c, 0), Replying(env, c, 0, r), [], []).family);
  }

  lemma AloneReplies(run: Semantics, max: nat, c: Code, env: Environment, a: seq<Action>, r: Reply)
    requires Run(run, EmptyPool(max), a) == Single(max, Alone(c, env, r, Waiting(c, 0), Replying(env, c, 0, r), [], []))
    requires r.owner.None?
    ensures Run(run, EmptyPool(max), Replied(a)) == Single(max, Alone(c, env, r, Got(c, 0, r), Receiving(env), [], [Sent(c, r)]))
    ensures Run(run, EmptyPool(max), Replied(a) + [Settle(0)]) == Single(max, Alone(c, env, r, Idle, Receiving(env), [], [Sent(c, r)]))
  {
    var e := Alone(c, env, r, Waiting(c, 0), Replying(env, c, 0, r), [], []);
    var sent := Alone(c, env, r, Waiting(c, 0), Receiving(env), [r], [Sent(c, r)]);
    var got := Alone(c, env, r, Got(c, 0, r), Receiving(env), [], [Sent(c, r)]);
    AloneDelivers(run, c, env, r);
    WorkOne(run, max, a, e, SendReply(0), sent.family);
    assert [r][1..] == [];
    PoolOne(run, max, a + [Work(0, SendReply(0))], sent, Take(0), got);
    SettleOne(run, max, Replied(a), got);
  }

  lemma AloneDelivers(run: Semantics, c: Code, env: Environment, r: Reply)
    requires r.owner.None?
    ensures StepWorker(run, Alone(c, env, r, Waiting(c, 0), Replying(env, c, 0, r), [], []).family, SendReply(0)) ==
      Alone(c, env, r, Waiting(c, 0), Receiving(env), [r], [Sent(c, r)]).family
  {
  }

  datatype Ending = OutOfTime | Death | Failure

  function UpToReply(x: Ending, c: Code, env: Environment): seq<Action> {
    match x case OutOfTime => TimedOut(c, env) case Death => Crashed(c, env) case Failure => FailedProgram(c, env)
  }

  /** A program that runs out of time or whose process dies: its caller is told of an error; one
      that fails: its caller is told so.  In every case the session goes on with the worker and
      the environment it had. */
  lemma NothingApplied(run: Semantics, max: nat, c: Code, env: Environment, x: Ending)
    requires max > 0 && (x.Failure? ==> !run(c, env).ok)
    ensures var s := Run(run, EmptyPool(max), Replied(UpToReply(x, c, env)));
      0 in s.entries && s.entries[0].phase.Got? && ResultFor(s.entries[0]) == if x.Failure? then Returned(Failed) else Error
    ensures var s := Run(run, EmptyPool(max), Replied(UpToReply(x, c, env)) + [Settle(0)]);
      && 0 in s.sessions && s.sessions[0] == 0 && 0 in s.entries && s.entries[0].phase.Idle? && s.entries[0].workerPid == 0
      && s.entries[0].family.procs == map[0 := Receiving(env)] && PipeEmpty(s.entries[0])
  {
    var r := if x.Failure? then Reply(Failed, None, Some(0), run(c, env).replyMayFail) else ErrorReply(0);
    match x {
      case OutOfTime => TimedOutRun(run, max, c, env);
      case Death => CrashedRun(run, max, c, env);
      case Failure => FailedProgramRun(run, max, c, env);
    }
    AloneReplies(run, max, c, env, UpToReply(x, c, env), r);
  }

  // ------------------------------------------------------- interrupted processes

  /** A child is interrupted once its program has ended, and says so on the request pipe. */
  function StrayChild(c: Code, env: Environment): seq<Action> {
    Forked(c, env) + [Work(0, ChildRaises(1, false))]
  }

  function Strayed(run: Semantics, c: Code, env: Environment, phase: Phase, requests: seq<Request>, replies: seq<Reply>): Entry {
    var procs: map<Pid, Proc> := map[0 := Supervising(env, c, 0, 1), 1 := Receiving(run(c, env).env)];
    Entry(0, phase, false, env, Family(procs, {}, {1}, map[], {0, 1}, requests, replies, false, []))
  }

  lemma StrayChildRun(run: Semantics, max: nat, c: Code, env: Environment)
    requires max > 0 && run(c, env).interrupts
    ensures Run(run, EmptyPool(max), StrayChild(c, env)) == Single(max, Strayed(run, c, env, Waiting(c, 0), [], [UNASKED]))
  {
    ForkedRun(run, max, c, env);
    WorkOne(run, max, Forked(c, env), ForkedEntry(c, env), ChildRaises(1, false),
            Strayed(run, c, env, Waiting(c, 0), [], [UNASKED]).family);
  }

  /** The error nobody asked for is taken for the reply. */
  function StrayTaken(c: Code, env: Environment): seq<Action> { StrayChild(c, env) + [Take(0)] }

  function StraySettled(c: Code, env: Environment): seq<Action> { StrayTaken(c, env) + [Settle(0)] }

  lemma StraySettledRun(run: Semantics, max: nat, c: Code, env: Environment)
    requires max > 0 && run(c, env).interrupts
    ensures Run(run, EmptyPool(max), StrayTaken(c, env)) == Single(max, Strayed(run, c, env, Got(c, 0, UNASKED), [], []))
    ensures Run(run, EmptyPool(max), StraySettled(c, env)) == Single(max, Strayed(run, c, env, Idle, [], []))
  {
    StrayChildRun(run, max, c, env);
    var e := Strayed(run, c, env, Waiting(c, 0), [], [UNASKED]);
    assert [UNASKED][1..] == [];
    PoolOne(run, max, StrayChild(c, env), e, Take(0), Strayed(run, c, env, Got(c, 0, UNASKED), [], []));
    PoolOne(run, max, StrayTaken(c, env), Strayed(run, c, env, Got(c, 0, UNASKED), [], []), Settle(0), Strayed(run, c, env, Idle, [], []));
  }

  /** The process is interrupted again, with the lock free. */
  function StrayAgain(c: Code, env: Environment): seq<Action> { StraySettled(c, env) + [Work(0, ReceiveRaises(1))] }

  /** Or the next program is queued, with the first worker still waiting for its child. */
  function StrayQueued(c: Code, env: Environment): seq<Action> { StraySettled(c, env) + [Begin(0, 0, c, 1)] + [Send(0)] }

  lemma StrayAgainRun(run: Semantics, max: nat, c: Code, env: Environment)
    requires max > 0 && run(c, env).interrupts
    ensures Run(run, EmptyPool(max), StrayAgain(c, env)) == Single(max, Strayed(run, c, env, Idle, [], [UNASKED]))
  {
    StraySettledRun(run, max, c, env);
    var e := Strayed(run, c, env, Idle, [], []);
    assert StepWorker(run, e.family, ReceiveRaises(1)) == Strayed(run, c, env, Idle, [], [UNASKED]).family;
    WorkOne(run, max, StraySettled(c, env), e, ReceiveRaises(1), Strayed(run, c, env, Idle, [], [UNASKED]).family);
  }

  lemma StrayQueuedRun(run: Semantics, max: nat, c: Code, env: Environment)
    requires max > 0 && run(c, env).interrupts
    ensures Run(run, EmptyPool(max), StrayQueued(c, env)) == Single(max, Strayed(run, c, env, Waiting(c, 1), [Execute(c, 1)], []))
  {
    StraySettledRun(run, max, c, env);
    var e, e' := Strayed(run, c, env, Idle, [], []), Strayed(run, c, env, Sending(c, 1), [], []);
    PoolOne(run, max, StraySettled(c, env), e, Begin(0, 0, c, 1), e');
    assert e'.family.requests + [Execute(c, 1)] == [Execute(c, 1)];
    PoolOne(run, max, StraySettled(c, env) + [Begin(0, 0, c, 1)], e', Send(0), Strayed(run, c, env, Waiting(c, 1), [Execute(c, 1)], []));
  }

  // --------------------------------------------------------- replies that come late

  /** A program succeeds and its process takes over, interruption and all. */
  function HandedOver(c: Code, env: Environment): seq<Action> {
    Reported(c, env) + [Take(0)] + [Settle(0)]
  }

  /** The new owner is the process 1, in `phase`. */
  function Owned1(run: Semantics, c: Code, env: Environment, phase: Phase, requests: seq<Request>, replies: seq<Reply>): Entry {
    var f := AfterReply(run, c, env, OkReply(run, c, env, 1, 0), replies);
    Entry(1, phase, false, env, f.(requests := requests))
  }

  lemma HandedOverRun(run: Semantics, max: nat, c: Code, env: Environment)
    requires max > 0 && run(c, env).ok
    ensures Run(run, EmptyPool(max), HandedOver(c, env)) == Single(max, Owned1(run, c, env, Idle, [], []))
  {
    var r := OkReply(run, c, env, 1, 0);
    var e6 := SucceededEntry(run, c, env).(family := AfterReply(run, c, env, r, [r]));
    var e7 := SucceededEntry(run, c, env).(phase := Got(c, 0, r), family := AfterReply(run, c, env, r, []));
    ReportedRun(run, max, c, env);
    TakeOne(run, max, c, env, r, Take(0), Got(c, 0, r));
    PoolOne(run, max, Reported(c, env), e6, Take(0), e7);
    SettleOne(run, max, Reported(c, env) + [Take(0)], e7);
  }

  /** At rest in the pool, the owner is interrupted in `recv` and says so. */
  function StaleReply(c: Code, env: Environment): seq<Action> {
    HandedOver(c, env) + [Work(0, ReceiveRaises(1))]
  }

  lemma StaleReplyRun(run: Semantics, max: nat, c: Code, env: Environment)
    requires max > 0 && run(c, env).ok && run(c, env).interrupts
    ensures Run(run, EmptyPool(max), StaleReply(c, env)) == Single(max, Owned1(run, c, env, Idle, [], [UNASKED]))
  {
    HandedOverRun(run, max, c, env);
    WorkOne(run, max, HandedOver(c, env), Owned1(run, c, env, Idle, [], []), ReceiveRaises(1),
            Owned1(run, c, env, Idle, [], [UNASKED]).family);
  }

  /** The next caller takes it for the reply to its own program, still in the queue. */
  function StaleTaken(c: Code, c2: Code, env: Environment): seq<Action> {
    StaleReply(c, env) + [Begin(0, 0, c2, 1)] + [Send(0)] + [Take(0)]
  }

  lemma StaleTakenRun(run: Semantics, max: nat, c: Code, c2: Code, env: Environment)
    requires max > 0 && run(c, env).ok && run(c, env).interrupts
    ensures Run(run, EmptyPool(max), StaleTaken(c, c2, env)) ==
      Single(max, Owned1(run, c, env, Got(c2, 1, UNASKED), [Execute(c2, 1)], []))
  {
    StaleReplyRun(run, max, c, env);
    var e, e1 := Owned1(run, c, env, Idle, [], [UNASKED]), Owned1(run, c, env, Sending(c2, 1), [], [UNASKED]);
    var e2 := Owned1(run, c, env, Waiting(c2, 1), [Execute(c2, 1)], [UNASKED]);
    PoolOne(run, max, StaleReply(c, env), e, Begin(0, 0, c2, 1), e1);
    assert e1.family.requests + [Execute(c2, 1)] == [Execute(c2, 1)] && [UNASKED][1..] == [];
    PoolOne(run, max, StaleReply(c, env) + [Begin(0, 0, c2, 1)], e1, Send(0), e2);
    PoolOne(run, max, StaleReply(c, env) + [Begin(0, 0, c2, 1)] + [Send(0)], e2, Take(0),
            Owned1(run, c, env, Got(c2, 1, UNASKED), [Execute(c2, 1)], []));
  }

  /** That caller is told of an error, and then its program runs, succeeds and takes over. */
  function RunsLate(c: Code, c2: Code, env: Environment): seq<Action> {
    StaleTaken(c, c2, env) + [Settle(0)] + [Work(0, Receive(1, 2))] + [Work(0, ChildFinishes(2))]
    + [Work(0, SeeResult(1))] + [Work(0, SendReply(1))]
  }

  /** Process 2 has run `c2` where process 1, now in `parent`, has run `c`. */
  function LateFamily(run: Semantics, c: Code, c2: Code, env: Environment, parent: Proc, results: map<Pid, bool>,
                      replies: seq<Reply>, sent: seq<Sent>): Family {
    var next := run(c2, run(c, env).env);
    var procs: map<Pid, Proc> := map[0 := Exiting(env), 1 := parent, 2 := Receiving(next.env)];
    Family(procs, {}, if next.interrupts then {1, 2} else {1}, results, {0, 1, 2}, [], replies, false, sent)
  }

  function LateEntry(run: Semantics, c: Code, c2: Code, env: Environment, phase: Phase, requests: seq<Request>, replies: seq<Reply>): Entry {
    var env1 := run(c, env).env;
    var r2 := OkReply(run, c2, env1, 2, 1);
    var f := LateFamily(run, c, c2, env, Exiting(env1), map[], replies, [Sent(c, OkReply(run, c, env, 1, 0)), Sent(c2, r2)]);
    Entry(1, phase, false, env, f.(requests := requests))
  }

  function LateFork(run: Semantics, c: Code, c2: Code, env: Environment): Family {
    var f, env1 := Owned1(run, c, env, Idle, [], []).family, run(c, env).env;
    f.(procs := f.procs[1 := Supervising(env1, c2, 1, 2)][2 := Running(env1, c2, 1)], used := {0, 1, 2})
  }

  lemma LateForked(run: Semantics, c: Code, c2: Code, env: Environment)
    ensures StepWorker(run, Owned1(run, c, env, Idle, [Execute(c2, 1)], []).family, Receive(1, 2)) == LateFork(run, c, c2, env)
  {
    assert [Execute(c2, 1)][1..] == [];
  }

  lemma LateFinish(run: Semantics, c: Code, c2: Code, env: Environment)
    requires run(c, env).interrupts && run(c2, run(c, env).env).ok
    ensures StepWorker(run, LateFork(run, c, c2, env), ChildFinishes(2)) ==
      LateFamily(run, c, c2, env, Supervising(run(c, env).env, c2, 1, 2), map[2 := true], [], [Sent(c, OkReply(run, c, env, 1, 0))])
  {
    var f := LateFork(run, c, c2, env);
    assert HasReader(f, 2) by { assert f.procs[1].child == 2; }
  }

  lemma LateForkRun(run: Semantics, max: nat, c: Code, c2: Code, env: Environment, a: seq<Action>)
    requires Run(run, EmptyPool(max), a) == Single(max, Owned1(run, c, env, Idle, [Execute(c2, 1)], []))
    requires run(c, env).ok && run(c, env).interrupts && run(c2, run(c, env).env).ok
    ensures Run(run, EmptyPool(max), a + [Work(0, Receive(1, 2))] + [Work(0, ChildFinishes(2))]) ==
      Single(max, Owned1(run, c, env, Idle, [], []).(
        family := LateFamily(run, c, c2, env, Supervising(run(c, env).env, c2, 1, 2), map[2 := true], [],
                             [Sent(c, OkReply(run, c, env, 1, 0))])))
  {
    var e, env1 := Owned1(run, c, env, Idle, [Execute(c2, 1)], []), run(c, env).env;
    var f := LateFork(run, c, c2, env);
    LateForked(run, c, c2, env);
    WorkOne(run, max, a, e, Receive(1, 2), f);
    LateFinish(run, c, c2, env);
    WorkOne(run, max, a + [Work(0, Receive(1, 2))], e.(family := f), ChildFinishes(2),
            LateFamily(run, c, c2, env, Supervising(env1, c2, 1, 2), map[2 := true], [], [Sent(c, OkReply(run, c, env, 1, 0))]));
  }

  lemma LateReport(run: Semantics, c: Code, c2: Code, env: Environment)
    ensures var env1, sent := run(c, env).env, [Sent(c, OkReply(run, c, env, 1, 0))];
      StepWorker(run, LateFamily(run, c, c2, env, Supervising(env1, c2, 1, 2), map[2 := true], [], sent), SeeResult(1)) ==
        LateFamily(run, c, c2, env, Replying(env1, c2, 1, OkReply(run, c2, env1, 2, 1)), map[], [], sent)
  {
  }

  lemma LateDeliver(run: Semantics, c: Code, c2: Code, env: Environment)
    ensures var env1, sent := run(c, env).env, [Sent(c, OkReply(run, c, env, 1, 0))]; var r2 := OkReply(run, c2, env1, 2, 1);
      StepWorker(run, LateFamily(run, c, c2, env, Replying(env1, c2, 1, r2), map[], [], sent), SendReply(1)) ==
        LateEntry(run, c, c2, env, Idle, [], [r2]).family
  {
  }

  lemma LateReplyRun(run: Semantics, max: nat, c: Code, c2: Code, env: Environment, a: seq<Action>)
    requires Run(run, EmptyPool(max), a) == Single(max, Owned1(run, c, env, Idle, [], []).(
        family := LateFamily(run, c, c2, env, Supervising(run(c, env).env, c2, 1, 2), map[2 := true], [],
                             [Sent(c, OkReply(run, c, env, 1, 0))])))
    ensures Run(run, EmptyPool(max), a + [Work(0, SeeResult(1))] + [Work(0, SendReply(1))]) ==
      Single(max, LateEntry(run, c, c2, env, Idle, [], [OkReply(run, c2, run(c, env).env, 2, 1)]))
  {
    var env1 := run(c, env).env;
    var r1, r2 := OkReply(run, c, env, 1, 0), OkReply(run, c2, env1, 2, 1);
    var f := LateFamily(run, c, c2, env, Supervising(env1, c2, 1, 2), map[2 := true], [], [Sent(c, r1)]);
    var f' := LateFamily(run, c, c2, env, Replying(env1, c2, 1, r2), map[], [], [Sent(c, r1)]);
    var e := Owned1(run, c, env, Idle, [], []).(family := f);
    LateReport(run, c, c2, env);
    LateDeliver(run, c, c2, env);
    WorkOne(run, max, a, e, SeeResult(1), f');
    WorkOne(run, max, a + [Work(0, SeeResult(1))], e.(family := f'), SendReply(1),
            LateEntry(run, c, c2, env, Idle, [], [r2]).family);
  }

  lemma RunsLateRun(run: Semantics, max: nat, c: Code, c2: Code, env: Environment)
    requires max > 0 && run(c, env).ok && run(c, env).interrupts && run(c2, run(c, env).env).ok
    ensures Run(run, EmptyPool(max), RunsLate(c, c2, env)) ==
      Single(max, LateEntry(run, c, c2, env, Idle, [], [OkReply(run, c2, run(c, env).env, 2, 1)]))
  {
    var a := StaleTaken(c, c2, env) + [Settle(0)];
    StaleTakenRun(run, max, c, c2, env);
    PoolOne(run, max, StaleTaken(c, c2, env), Owned1(run, c, env, Got(c2, 1, UNASKED), [Execute(c2, 1)], []), Settle(0),
            Owned1(run, c, env, Idle, [Execute(c2, 1)], []));
    LateForkRun(run, max, c, c2, env, a);
    LateReplyRun(run, max, c, c2, env, a + [Work(0, Receive(1, 2))] + [Work(0, ChildFinishes(2))]);
  }

  /** The caller after that reads its predecessor's reply. */
  function ReadsPredecessor(c: Code, c2: Code, c3: Code, env: Environment): seq<Action> {
    RunsLate(c, c2, env) + [Begin(0, 0, c3, 2)] + [Send(0)] + [Take(0)]
  }

  lemma ReadsPredecessorRun(run: Semantics, max: nat, c: Code, c2: Code, c3: Code, env: Environment)
    requires max > 0 && run(c, env).ok && run(c, env).interrupts && run(c2, run(c, env).env).ok
    ensures Run(run, EmptyPool(max), ReadsPredecessor(c, c2, c3, env)) ==
      Single(max, LateEntry(run, c, c2, env, Got(c3, 2, OkReply(run, c2, run(c, env).env, 2, 1)), [Execute(c3, 2)], []))
  {
    var a, r2 := RunsLate(c, c2, env), OkReply(run, c2, run(c, env).env, 2, 1);
    RunsLateRun(run, max, c, c2, env);
    var e, e1 := LateEntry(run, c, c2, env, Idle, [], [r2]), LateEntry(run, c, c2, env, Sending(c3, 2), [], [r2]);
    var e2 := LateEntry(run, c, c2, env, Waiting(c3, 2), [Execute(c3, 2)], [r2]);
    PoolOne(run, max, a, e, Begin(0, 0, c3, 2), e1);
    assert e1.family.requests + [Execute(c3, 2)] == [Execute(c3, 2)] && [r2][1..] == [];
    PoolOne(run, max, a + [Begin(0, 0, c3, 2)], e1, Send(0), e2);
    PoolOne(run, max, a + [Begin(0, 0, c3, 2)] + [Send(0)], e2, Take(0),
            LateEntry(run, c, c2, env, Got(c3, 2, r2), [Execute(c3, 2)], []));
  }

  /** What an alarm left by a successful program does.  The lock is free with a reply on the
      pipe that nobody asked for; the next caller takes it and is told of an error; the
      program of that caller runs and takes over all the same; and the caller after that is
      told, with status ok, what became of its predecessor's program. */
  lemma StaleReplies(run: Semantics, max: nat, c: Code, c2: Code, c3: Code, env: Environment)
    requires max > 0 && run(c, env).ok && run(c, env).interrupts && run(c2, run(c, env).env).ok
    ensures !Clean(Run(run, EmptyPool(max), StaleReply(c, env)), 0)
    ensures var s := Run(run, EmptyPool(max), StaleTaken(c, c2, env));
      0 in s.entries && s.entries[0].phase == Got(c2, 1, UNASKED) && ResultFor(s.entries[0]) == Error
    ensures var s := Run(run, EmptyPool(max), RunsLate(c, c2, env));
      0 in s.entries && 2 in s.entries[0].family.procs
      && s.entries[0].family.procs[2] == Receiving(run(c2, run(c, env).env).env)
    ensures var s := Run(run, EmptyPool(max), ReadsPredecessor(c, c2, c3, env));
      0 in s.entries && s.entries[0].phase.Got? && s.entries[0].phase.exec == 2
      && s.entries[0].phase.reply.answers == Some(1) && ResultFor(s.entries[0]) == Returned(Ok)
  {
    StaleReplyRun(run, max, c, env);
    StaleTakenRun(run, max, c, c2, env);
    RunsLateRun(run, max, c, c2, env);
    ReadsPredecessorRun(run, max, c, c2, c3, env);
    assert !PipeEmpty(Owned1(run, c, env, Idle, [], [UNASKED]));
    assert Single(max, Owned1(run, c, env, Idle, [], [UNASKED])).sessions[0] == 0;
  }
}
