/** What the caller of `execute` is told, case by case, and what leaves the pool for good. */
module SessionAnswers {
  import opened Options
  import opened WorkerFamily
  import opened SessionProtocol
  import opened SessionInvariant
  import opened SessionTheorems

  // ------------------------------------------------------------ what callers are told

  /** A cancelled caller is told so; any other is told the status of the reply, failures
      included, and of an error exactly if no reply was read or it carries no status. */
  lemma ToldByStatus(e: Entry)
    requires Ended(e.phase)
    ensures ResultFor(e) == Cancellation <==> e.cancelled
    ensures forall status :: status != NoStatus ==>
      (ResultFor(e) == Returned(status) <==> !e.cancelled && e.phase.Got? && e.phase.reply.status == status)
    ensures ResultFor(e) == Error <==> !e.cancelled && (e.phase.Got? ==> e.phase.reply.status == NoStatus)
  {
  }

  /** In every run, with readable results and no interruptions, a caller is told that its
      program failed only if it did, and that it succeeded only if it did, each in the
      environment the session had before; a cancelled caller, and one without a status, is
      told neither. */
  lemma CallerTold(run: Semantics, max: nat, actions: seq<Action>, session: SessionId)
    requires Sound(run)
    ensures var s := Run(run, EmptyPool(max), actions);
      session in s.sessions ==>
        && s.sessions[session] in s.entries
        && var e := s.entries[s.sessions[session]];
           (e.phase.Got? ==>
             && e.family.sent != []
             && var out := run(e.phase.code, Fold(run, e.initial, e.family.sent[..|e.family.sent| - 1]));
             && (ResultFor(e) == Returned(Ok) ==> out.ok)
             && (ResultFor(e) == Returned(Failed) ==> !out.ok)
             && (ResultFor(e) == Returned(Failed) <==> !e.cancelled && e.phase.reply.status == Failed)
             && (ResultFor(e) == Error <==> !e.cancelled && e.phase.reply.status == NoStatus)
             && (ResultFor(e) == Cancellation <==> e.cancelled))
  {
    var s := Run(run, EmptyPool(max), actions);
    Reachable(run, max, actions);
    if session in s.sessions {
      SessionOf(run, s, session);
      var e := s.entries[s.sessions[session]];
      if e.phase.Got? {
        GotEffect(run, e);
        ToldByStatus(e);
      }
    }
  }

  lemma GotEffect(run: Semantics, e: Entry)
    requires OwnedInv(run, e) && e.phase.Got?
    ensures e.family.sent != []
    ensures var out := run(e.phase.code, Fold(run, e.initial, e.family.sent[..|e.family.sent| - 1]));
      (e.phase.reply.status == Ok ==> out.ok) && (e.phase.reply.status == Failed ==> !out.ok)
  {
    var sent := e.family.sent;
    assert sent[|sent| - 1] == Sent(e.phase.code, e.phase.reply);
  }

  // ----------------------------------------------- nothing but the program itself fails

  /** No process dies or runs out of time, and nothing raises but the program itself. */
  predicate Untroubled(a: Action) {
    a.Work? ==> !(a.step.ForkFails? || a.step.Dies? || a.step.TimesOut? || a.step.ReadRaises? || a.step.SendRaises?)
  }

  ghost predicate PromptProc(f: Family, q: Proc) {
    match q
    case Supervising(_, _, _, child) =>
      if child in f.procs
      then f.procs[child].Running? || (f.procs[child].Receiving? && child in f.results && f.results[child])
      else child in f.results && !f.results[child]
    case Terminating(_, _, _, _) => false
    case Replying(_, _, _, r) => r.status != NoStatus
    case _ => true
  }

  /** Everybody at work, and every reply on the way, is about to tell how the program ended. */
  ghost predicate Prompt(f: Family) {
    && (forall p :: p in f.procs ==> PromptProc(f, f.procs[p]))
    && (forall i :: 0 <= i < |f.replies| ==> f.replies[i].status != NoStatus)
  }

  ghost predicate PromptEntry(e: Entry) {
    e.phase.Broken? || (Prompt(e.family) && (e.phase.Got? ==> e.phase.reply.status != NoStatus))
  }

  ghost predicate AllPrompt(s: Pool) {
    forall k :: k in s.sessions && s.sessions[k] in s.entries ==> PromptEntry(s.entries[s.sessions[k]])
  }

  ghost predicate NoShutdown(requests: seq<Request>) {
    forall i :: 0 <= i < |requests| ==> requests[i].Execute?
  }

  lemma ReceivePrompt(run: Semantics, f: Family, a: WorkerStep)
    requires FamilyInv(f) && Prompt(f) && NoShutdown(f.requests) && a.Receive? && WorkerEnabled(run, f, a)
    ensures Prompt(StepWorker(run, f, a))
  {
    assert f.requests[0].Execute?;
    assert !NoExecute(f.requests);
    assert AtRest(f);
  }

  lemma FinishPrompt(run: Semantics, f: Family, p: Pid)
    requires FamilyInv(f) && Prompt(f) && p in f.procs && f.procs[p].Running?
    ensures Prompt(Finish(run, f, p))
  {
    var f' := Finish(run, f, p);
    forall k | k in f'.procs ensures PromptProc(f', f'.procs[k]) {
      if k != p {
        assert PromptProc(f, f.procs[k]);
        if f.procs[k].Supervising? && f.procs[k].child == p { assert HasReader(f, p); }
      }
    }
  }

  lemma ReportPrompt(run: Semantics, f: Family, p: Pid, exited: bool)
    requires FamilyInv(f) && Prompt(f) && p in f.procs && f.procs[p].Supervising?
    requires if exited then f.procs[p].child !in f.procs else f.procs[p].child in f.results
    ensures Prompt(Report(run, f, p, exited))
  {
    var f' := Report(run, f, p, exited);
    assert PromptProc(f, f.procs[p]);
    forall k | k in f'.procs && k != p ensures PromptProc(f', f'.procs[k]) {
      WorkingAlone(f, p, k);
    }
  }

  lemma ExitPrompt(f: Family, p: Pid)
    requires Prompt(f) && p in f.procs && f.procs[p].Exiting?
    ensures Prompt(Gone(f, p))
  {
    forall k | k in f.procs && k != p ensures PromptProc(Gone(f, p), f.procs[k]) {
      assert PromptProc(f, f.procs[k]);
    }
  }

  lemma DeliverPrompt(f: Family, p: Pid)
    requires FamilyInv(f) && Prompt(f) && !f.closed && p in f.procs && f.procs[p].Replying?
    ensures Prompt(Deliver(f, p))
  {
    assert PromptProc(f, f.procs[p]);
    forall k | k in f.procs && k != p ensures Resting(f.procs[k]) { WorkingAlone(f, p, k); }
  }

  lemma WorkPrompt(run: Semantics, f: Family, a: WorkerStep)
    requires Calm(run) && FamilyInv(f) && Prompt(f) && !f.closed && NoShutdown(f.requests) && Untroubled(Work(0, a))
    ensures Prompt(StepWorker(run, f, a))
  {
    if WorkerEnabled(run, f, a) {
      match a
      case Receive(_, _) => ReceivePrompt(run, f, a);
      case ChildFinishes(p) => FinishPrompt(run, f, p);
      case SeeResult(p) => ReportPrompt(run, f, p, false);
      case SeeExit(p) => ReportPrompt(run, f, p, true);
      case SendReply(p) => DeliverPrompt(f, p);
      case Exits(p) => ExitPrompt(f, p);
      case _ =>
    }
  }

  lemma PooledRequests(e: Entry)
    requires PipeInv(e) && !e.phase.Broken?
    ensures !e.family.closed && NoShutdown(e.family.requests)
  {
  }

  /** An action leaves the entries it is not about alone, and keeps the one it is about. */
  lemma EntryPrompt(run: Semantics, s: Pool, a: Action, k: SessionId)
    requires Calm(run) && Inv(run, s) && AllPrompt(s) && Enabled(s, a) && Untroubled(a)
    requires var s' := Step(run, s, a); k in s'.sessions && k in s.sessions && s'.sessions[k] == s.sessions[k]
    ensures s.sessions[k] in Step(run, s, a).entries && PromptEntry(Step(run, s, a).entries[s.sessions[k]])
  {
    var e := s.sessions[k];
    SessionOf(run, s, k);
    assert PromptEntry(s.entries[e]);
    if a.Work? && a.e == e {
      if !s.entries[e].phase.Broken? {
        PooledRequests(s.entries[e]);
        WorkPrompt(run, s.entries[e].family, a.step);
      }
    } else {
      OtherPrompt(run, s, a, e);
    }
  }

  /** The steps of an exchange, and the admission that begins it. */
  lemma ExchangePrompt(run: Semantics, s: Pool, a: Action, e: EntryId)
    requires Enabled(s, a) && e in s.entries && PromptEntry(s.entries[e])
    requires a == Send(e) || a == Take(e) || a == TakeRaises(e) || a == Watchdog(e) || a == PipeFails(e) || a == Settle(e) || a == Cancel(e)
    ensures PromptEntry(Step(run, s, a).entries[e])
  {
  }

  lemma AdmitPrompt(s: Pool, session: SessionId, e: EntryId, code: Code, exec: ExecId, k: EntryId)
    requires e in s.entries && k in s.entries && PromptEntry(s.entries[k]) && s.entries[e].phase.Idle?
    ensures PromptEntry(Admit(s, session, e, code, exec).entries[k])
  {
  }

  lemma RetirePrompt(s: Pool, e: EntryId, k: EntryId)
    requires e in s.entries && k in s.entries && PromptEntry(s.entries[k])
    requires k in s.sessions.Values && k in RetireEntry(s, e).sessions.Values
    ensures PromptEntry(RetireEntry(s, e).entries[k])
  {
    assert k != e;
  }

  lemma ShutDownPrompt(run: Semantics, s: Pool, session: SessionId, k: EntryId)
    requires Enabled(s, ShutDown(session)) && k in s.entries && PromptEntry(s.entries[k])
    ensures PromptEntry(Step(run, s, ShutDown(session)).entries[k])
  {
  }

  predicate OfExchange(a: Action) {
    a.Send? || a.Take? || a.TakeRaises? || a.Watchdog? || a.PipeFails? || a.Settle? || a.Cancel?
  }

  lemma Untouched(run: Semantics, s: Pool, a: Action, e: EntryId)
    requires Enabled(s, a) && e in s.entries
    requires a.GetOrCreate? || ((OfExchange(a) || a.Work?) && a.e != e)
    ensures e in Step(run, s, a).entries && Step(run, s, a).entries[e] == s.entries[e]
  {
  }

  lemma OtherPrompt(run: Semantics, s: Pool, a: Action, e: EntryId)
    requires Enabled(s, a) && e in s.entries && PromptEntry(s.entries[e])
    requires !(a.Work? && a.e == e) && e in s.sessions.Values && e in Step(run, s, a).sessions.Values
    ensures e in Step(run, s, a).entries && PromptEntry(Step(run, s, a).entries[e])
  {
    if a.GetOrCreate? || ((OfExchange(a) || a.Work?) && a.e != e) {
      Untouched(run, s, a, e);
    } else if OfExchange(a) {
      ExchangePrompt(run, s, a, e);
    } else {
      match a
      case Begin(session, k, code, exec) => AdmitPrompt(s, session, k, code, exec, e);
      case Retire(k) => RetirePrompt(s, k, e);
      case ShutDown(session) => ShutDownPrompt(run, s, session, e);
      case Terminate(k) =>
    }
  }

  lemma StepPrompt(run: Semantics, s: Pool, a: Action)
    requires Calm(run) && Inv(run, s) && AllPrompt(s) && Untroubled(a)
    ensures AllPrompt(Step(run, s, a))
  {
    if Enabled(s, a) {
      var s' := Step(run, s, a);
      forall k | k in s'.sessions && s'.sessions[k] in s'.entries ensures PromptEntry(s'.entries[s'.sessions[k]]) {
        if a.GetOrCreate? {
          if k in s.sessions { SessionOf(run, s, k); }
        } else {
          NothingAdded(run, s, a);
          EntryPrompt(run, s, a, k);
        }
      }
    }
  }

  lemma {:induction false} RunPrompt(run: Semantics, s: Pool, actions: seq<Action>)
    requires Calm(run) && Inv(run, s) && AllPrompt(s) && forall i :: 0 <= i < |actions| ==> Untroubled(actions[i])
    ensures AllPrompt(Run(run, s, actions))
    decreases actions
  {
    if actions != [] {
      StepPrompt(run, s, actions[0]);
      InvStep(run, s, actions[0]);
      RunPrompt(run, Step(run, s, actions[0]), actions[1..]);
    }
  }

  /** While nothing but programs fails, a caller who is not cancelled is told exactly whether
      its program succeeded, whoever else was cancelled or shut down. */
  lemma ToldExactly(run: Semantics, max: nat, actions: seq<Action>, session: SessionId)
    requires Sound(run) && forall i :: 0 <= i < |actions| ==> Untroubled(actions[i])
    ensures var s := Run(run, EmptyPool(max), actions);
      session in s.sessions ==>
        && s.sessions[session] in s.entries
        && var e := s.entries[s.sessions[session]];
           (e.phase.Got? && !e.cancelled ==>
             && e.family.sent != []
             && var out := run(e.phase.code, Fold(run, e.initial, e.family.sent[..|e.family.sent| - 1]));
             ResultFor(e) == Returned(if out.ok then Ok else Failed))
  {
    var s := Run(run, EmptyPool(max), actions);
    Reachable(run, max, actions);
    RunPrompt(run, EmptyPool(max), actions);
    if session in s.sessions {
      SessionOf(run, s, session);
      CallerTold(run, max, actions, session);
      ToldPrompt(run, s.entries[s.sessions[session]]);
    }
  }

  lemma ToldPrompt(run: Semantics, e: Entry)
    requires OwnedInv(run, e) && PromptEntry(e)
    ensures e.phase.Got? && !e.cancelled ==>
      && e.family.sent != []
      && var out := run(e.phase.code, Fold(run, e.initial, e.family.sent[..|e.family.sent| - 1]));
      ResultFor(e) == Returned(if out.ok then Ok else Failed)
  {
    if e.phase.Got? { GotEffect(run, e); }
  }

  // ---------------------------------------------------------- entering and leaving the pool

  /** A session is given a worker of its own if and only if it has none and there is room. */
  lemma CreatedWhileRoom(run: Semantics, s: Pool, session: SessionId, e: EntryId, pid: Pid, env: Environment)
    requires e !in s.entries
    ensures var s' := Step(run, s, GetOrCreate(session, e, pid, env));
      && (session in s'.sessions <==> session in s.sessions || |s.sessions| < s.maxSessions)
      && (session in s.sessions || |s.sessions| >= s.maxSessions ==> s' == s)
      && (session !in s.sessions && |s.sessions| < s.maxSessions ==>
           && s'.sessions == s.sessions[session := e] && e in s'.entries
           && s'.entries[e].workerPid == pid && s'.entries[e].phase.Idle? && s'.entries[e].family.procs == map[pid := Receiving(env)]
           && s'.entries[e].family.requests == [] && s'.entries[e].family.replies == [] && !s'.entries[e].family.closed)
  {
  }

  lemma RetiredStays(run: Semantics, s: Pool, a: Action, e: EntryId)
    requires e in s.entries && e !in s.sessions.Values
    ensures e in Step(run, s, a).entries && e !in Step(run, s, a).sessions.Values
  {
    if Enabled(s, a) && !a.GetOrCreate? {
      NothingAdded(run, s, a);
      var s' := Step(run, s, a);
      forall k | k in s'.sessions ensures s'.sessions[k] != e { assert s.sessions[k] in s.sessions.Values; }
    }
  }

  /** An entry that has left the pool never comes back. */
  lemma {:induction false} RetiredForGood(run: Semantics, s: Pool, actions: seq<Action>, e: EntryId)
    requires e in s.entries && e !in s.sessions.Values
    ensures e in Run(run, s, actions).entries && e !in Run(run, s, actions).sessions.Values
    decreases actions
  {
    if actions != [] {
      RetiredStays(run, s, actions[0], e);
      RetiredForGood(run, Step(run, s, actions[0]), actions[1..], e);
    }
  }

  /** Shutting a session down: it leaves the pool, the others stay, the worker is asked to stop
      unless the pipe is closed, and the exchange under way, if any, is left alone. */
  lemma ShutDownLeaves(run: Semantics, s: Pool, session: SessionId)
    requires Capacity(s) && session in s.sessions
    ensures var e := s.sessions[session]; var s' := Step(run, s, ShutDown(session));
      && s'.sessions == s.sessions - {session} && e in s.entries && e !in s'.sessions.Values
      && s'.entries == s.entries[e := AskedToStop(s.entries[e])]
  {
    assert s.sessions[session] in s.sessions.Values;
  }

  /** The entry with one more request on its pipe, if that is open. */
  function AskedToStop(e: Entry): Entry {
    if e.family.closed then e else e.(family := e.family.(requests := e.family.requests + [Shutdown]))
  }

  /** And once the owner of an idle session has read that, nobody owns it. */
  lemma ShutDownEnds(run: Semantics, s: Pool, session: SessionId, p: Pid, child: Pid)
    requires Sound(run) && Inv(run, s) && session in s.sessions && s.sessions[session] in s.entries
    requires var e := s.entries[s.sessions[session]]; e.phase.Idle? && Owner(e, p) && child !in e.family.used
    ensures var e := AskedToStop(s.entries[s.sessions[session]]);
      var f := StepWorker(run, e.family, Receive(p, child));
      f.requests == [] && !Owned(e.(family := f))
  {
    SessionOf(run, s, session);
    StopsOwner(run, s.entries[s.sessions[session]], p, child);
  }

  lemma StopsOwner(run: Semantics, e: Entry, p: Pid, child: Pid)
    requires PipeInv(e) && OwnedInv(run, e) && e.phase.Idle? && Owner(e, p) && child !in e.family.used
    ensures var f := StepWorker(run, AskedToStop(e).family, Receive(p, child));
      f.requests == [] && forall q :: q in f.procs ==> !f.procs[q].Receiving?
  {
    assert e.family.requests + [Shutdown] == [Shutdown] && [Shutdown][1..] == [];
  }

  /** Admission under the execution lock: if the session has this entry, either an exchange
      begins, not cancelled, because the system knows the worker, or the session is dropped and
      the pipe closed; if it has another entry or none, nothing happens. */
  lemma AdmittedExactly(run: Semantics, s: Pool, session: SessionId, e: EntryId, code: Code, exec: ExecId)
    requires e in s.entries && s.entries[e].phase.Idle?
    ensures var entry := s.entries[e]; var s' := Step(run, s, Begin(session, e, code, exec));
      var known := entry.workerPid in entry.family.procs || entry.workerPid in entry.family.unreaped;
      if session !in s.sessions || s.sessions[session] != e then s' == s
      else if known then
        s' == s.(entries := s.entries[e := Entry(entry.workerPid, Sending(code, exec), false, entry.initial, entry.family)])
      else
        && s'.sessions == s.sessions - {session}
        && s'.entries == s.entries[e := entry.(family := entry.family.(closed := true))]
  {
  }

  /** A caller can be cancelled at any time until it has been told; that is noted and changes
      nothing else. */
  lemma CancellationNoted(run: Semantics, s: Pool, e: EntryId)
    requires e in s.entries && !s.entries[e].phase.Idle?
    ensures var s' := Step(run, s, Cancel(e));
      s'.sessions == s.sessions && s'.entries == s.entries[e := s.entries[e].(cancelled := true)]
  {
  }

  /** How an exchange fails: the watchdog, or the pipe while the request is written or the reply
      awaited. */
  predicate GivesUp(s: Pool, e: EntryId, a: Action) {
    && e in s.entries
    && ((a == Watchdog(e) && s.entries[e].phase.Waiting?)
        || (a == PipeFails(e) && (s.entries[e].phase.Waiting? || s.entries[e].phase.Sending?))
        || (a == Send(e) && s.entries[e].phase.Sending? && s.entries[e].family.closed))
  }

  /** What then happens: the entry leaves the pool, its worker is asked to stop if it was still
      there and the pipe is open, the caller is told of an error, or of its cancellation, and the
      lock is free again. */
  lemma FailedExchangeRetires(run: Semantics, s: Pool, e: EntryId, a: Action)
    requires GivesUp(s, e, a)
    ensures var s1 := Step(run, s, a); var s2 := Step(run, s1, Retire(e)); var s3 := Step(run, s2, Settle(e));
      && e in s2.entries && s2.entries[e].phase.Abandoned? && ResultFor(s2.entries[e]) == (if s.entries[e].cancelled then Cancellation else Error)
      && e in s3.entries && s3.entries[e].phase.Idle? && e !in s3.sessions.Values
      && (forall k :: k in s3.sessions <==> k in s.sessions && s.sessions[k] != e)
      && (forall k :: k in s3.sessions ==> s3.sessions[k] == s.sessions[k])
      && s3.entries[e].family.requests == s.entries[e].family.requests +
           (if e in s.sessions.Values && !s.entries[e].family.closed then [Shutdown] else [])
  {
    var f := s.entries[e].family;
    assert f.requests + [] == f.requests;
    var s1 := Step(run, s, a);
    assert s1 == s.(entries := s.entries[e := s.entries[e].(phase := Broken)]);
    RetiresBroken(run, s1, e);
  }

  lemma RetiresBroken(run: Semantics, s: Pool, e: EntryId)
    requires e in s.entries && s.entries[e].phase.Broken?
    ensures var s' := Step(run, s, Retire(e)); var f := s.entries[e].family;
      && e in s'.entries && e !in s'.sessions.Values
      && (forall k :: k in s'.sessions <==> k in s.sessions && s.sessions[k] != e)
      && (forall k :: k in s'.sessions ==> s'.sessions[k] == s.sessions[k])
      && s'.entries[e] == s.entries[e].(phase := Abandoned, family := f.(
           requests := if e in s.sessions.Values && !f.closed then f.requests + [Shutdown] else f.requests))
  {
    if e !in s.sessions.Values {
      forall k | k in s.sessions ensures s.sessions[k] != e { assert s.sessions[k] in s.sessions.Values; }
    } else {
      forall k | k in DropSessionsOf(s, e) ensures DropSessionsOf(s, e)[k] != e {}
    }
  }

  /** A retired worker can be killed: it is gone, and its pipe closed. */
  lemma TerminatedEnds(run: Semantics, s: Pool, e: EntryId)
    requires e in s.entries && e !in s.sessions.Values
    ensures var entry := s.entries[e]; var s' := Step(run, s, Terminate(e));
      && s'.sessions == s.sessions && s'.entries.Keys == s.entries.Keys && s'.entries[e].family.closed
      && s'.entries[e].family.procs == entry.family.procs - {entry.workerPid}
      && (entry.workerPid in entry.family.procs ==> entry.workerPid in s'.entries[e].family.unreaped)
  {
  }

  /** A receiver that finds its pipe closed and empty ends; a request still in it is served
      first. */
  lemma ClosedPipeEnds(run: Semantics, f: Family, p: Pid)
    requires p in f.procs && f.procs[p].Receiving? && f.closed
    ensures var f' := StepWorker(run, f, ReceiveEof(p));
      if f.requests == [] then f' == f.(procs := f.procs - {p}, unreaped := f.unreaped + {p}) else f' == f
  {
  }

  /** What an interruption does, wherever it finds a process: at rest, or on its way out after
      handing over, the process sends an error nobody asked for, and receives; in the middle of
      an execution it is about to answer that with an error, and leaves its child alone. */
  lemma InterruptedAnywhere(run: Semantics, f: Family, p: Pid)
    requires p in f.procs && p in f.armed && !f.closed
    ensures match f.procs[p]
      case Running(_, _, _) => true
      case Receiving(env) => (
        var f' := StepWorker(run, f, ReceiveRaises(p));
        f'.procs == f.procs[p := Receiving(env)] && f'.replies == f.replies + [Reply(NoStatus, None, None, false)])
      case Exiting(env) => (
        var f' := StepWorker(run, f, Interrupted(p));
        f'.procs == f.procs[p := Receiving(env)] && f'.replies == f.replies + [Reply(NoStatus, None, None, false)])
      case Supervising(env, code, exec, _) => (
        var f' := StepWorker(run, f, Interrupted(p));
        f'.procs == f.procs[p := Replying(env, code, exec, Reply(NoStatus, None, Some(exec), false))] && f'.replies == f.replies)
      case Terminating(env, code, exec, _) => (
        var f' := StepWorker(run, f, Interrupted(p));
        f'.procs == f.procs[p := Replying(env, code, exec, Reply(NoStatus, None, Some(exec), false))] && f'.replies == f.replies)
      case Replying(env, code, exec, _) => (
        var f' := StepWorker(run, f, Interrupted(p));
        f'.procs == f.procs[p := Replying(env, code, exec, Reply(NoStatus, None, Some(exec), false))] && f'.replies == f.replies)
  {
  }

  /** What a parent answers, by what it found: the child is promoted if it reported success and
      is still there; a failure is passed on; anything else is an error.  Unless it takes over,
      the child is reaped. */
  lemma ParentAnswers(run: Semantics, f: Family, p: Pid, exited: bool)
    requires p in f.procs && f.procs[p].Supervising?
    requires WorkerEnabled(run, f, if exited then SeeExit(p) else SeeResult(p))
    ensures var q := f.procs[p]; var f' := StepWorker(run, f, if exited then SeeExit(p) else SeeResult(p));
      && p in f'.procs && f'.procs[p].Replying? && f'.procs[p].exec == q.exec && f'.procs[p].code == q.code
      && var r := f'.procs[p].reply;
         && r.answers == Some(q.exec)
         && (r.status == Ok <==> q.child in f.results && f.results[q.child] && !exited)
         && (r.status == Failed <==> q.child in f.results && !f.results[q.child])
         && (r.status == Ok ==> r.owner == Some(q.child)) && (r.status != Ok ==> r.owner == None && q.child !in f'.unreaped)
  {
  }

  /** A child that ran out of time is killed and reaped, and its parent answers with an error. */
  lemma KilledAndReaped(run: Semantics, f: Family, p: Pid)
    requires p in f.procs && f.procs[p].Terminating? && f.procs[p].child != p
    ensures var q := f.procs[p]; var f' := StepWorker(run, f, ChildKilled(p));
      && q.child !in f'.procs && q.child !in f'.unreaped
      && p in f'.procs && f'.procs[p] == Replying(q.env, q.code, q.exec, Reply(NoStatus, None, Some(q.exec), false))
  {
  }

  /** How a child ends: it goes on with the session if its program succeeded and its parent
      still reads its result, and otherwise exits; the parent, if it is there, has the result. */
  lemma ChildEnds(run: Semantics, f: Family, p: Pid)
    requires p in f.procs && f.procs[p].Running?
    ensures var out := run(f.procs[p].code, f.procs[p].env); var f' := StepWorker(run, f, ChildFinishes(p));
      && (p in f'.procs <==> out.ok && HasReader(f, p)) && (p in f'.procs ==> f'.procs[p] == Receiving(out.env))
      && (HasReader(f, p) ==> p in f'.results && f'.results[p] == out.ok) && (!HasReader(f, p) ==> f'.results == f.results)
      && (p !in f'.procs ==> p in f'.unreaped)
  {
  }

  /** And if it is interrupted once its program has ended: it receives requests, whether or not
      the program succeeded, and has sent an error nobody asked for; on a closed pipe it ends. */
  lemma ChildStrays(run: Semantics, f: Family, p: Pid, told: bool)
    requires p in f.procs && f.procs[p].Running? && run(f.procs[p].code, f.procs[p].env).interrupts
    ensures var out := run(f.procs[p].code, f.procs[p].env); var f' := StepWorker(run, f, ChildRaises(p, told));
      && (if f.closed then p !in f'.procs && f'.replies == f.replies
          else p in f'.procs && f'.procs[p] == Receiving(out.env) && p in f'.armed
               && f'.replies == f.replies + [Reply(NoStatus, None, None, false)])
      && f'.results == if told && HasReader(f, p) then f.results[p := out.ok] else f.results
  {
  }

  /** Sending the reply: the parent hands over if the reply promotes its child, and receives
      again if not; on a closed pipe it ends. */
  lemma ReplySent(run: Semantics, f: Family, p: Pid)
    requires p in f.procs && f.procs[p].Replying?
    ensures var q := f.procs[p]; var f' := StepWorker(run, f, SendReply(p));
      if f.closed then p !in f'.procs && f'.replies == f.replies
      else
        && f'.replies == f.replies + [q.reply] && p in f'.procs
        && f'.procs[p] == if q.reply.owner == None then Receiving(q.env) else Exiting(q.env)
  {
  }

  /** A parent that has handed over exits; a process may die at any time; either is in the
      process table until it is reaped. */
  lemma ProcessesEnd(run: Semantics, f: Family, p: Pid)
    requires p in f.procs
    ensures var f' := StepWorker(run, f, Dies(p)); f'.procs == f.procs - {p} && f'.unreaped == f.unreaped + {p}
    ensures f.procs[p].Exiting? ==>
      var f' := StepWorker(run, f, Exits(p)); f'.procs == f.procs - {p} && f'.unreaped == f.unreaped + {p}
  {
  }

  /** A parent that raises, when it reads the result of its child or passes it on, answers with
      an error that names no owner, and leaves the child alone. */
  lemma RaisingParents(run: Semantics, f: Family, p: Pid)
    requires p in f.procs && (f.procs[p].Supervising? || f.procs[p].Replying?) && MayFail(run, f.procs[p])
    requires f.procs[p].Supervising? ==> f.procs[p].child in f.results
    requires f.procs[p].Replying? ==> f.procs[p].reply.status != NoStatus
    ensures var q := f.procs[p]; var f' := StepWorker(run, f, if q.Supervising? then ReadRaises(p) else SendRaises(p));
      f'.procs == f.procs[p := Replying(q.env, q.code, q.exec, Reply(NoStatus, None, Some(q.exec), false))]
      && f'.unreaped == f.unreaped && f'.replies == f.replies
  {
  }
}
