/** The invariant of the session pool, kept by every action while no program leaves an
    interruption behind. */
module SessionInvariant {
  import opened Options
  import opened WorkerFamily
  import opened SessionProtocol
  import opened Collections

  // ------------------------------------------------ worker steps, every entry

  lemma RestIsKept(run: Semantics, f: Family, a: WorkerStep)
    requires f.armed == {} && NoExecute(f.requests) && AtRest(f)
    ensures var f' := StepWorker(run, f, a); NoExecute(f'.requests) && AtRest(f') && f'.replies == f.replies
  {
  }

  lemma TagsAreKept(run: Semantics, f: Family, a: WorkerStep, x: ExecId)
    requires Calm(run) && f.armed == {} && Tagged(f, x)
    ensures Tagged(StepWorker(run, f, a), x)
  {
  }

  lemma WorkKeepsPhase(run: Semantics, e: Entry, a: WorkerStep)
    requires Calm(run) && e.family.armed == {} && PhaseInv(e)
    ensures PhaseInv(e.(family := StepWorker(run, e.family, a)))
  {
    match e.phase
    case Sending(_, _) => RestIsKept(run, e.family, a);
    case Waiting(_, x) => TagsAreKept(run, e.family, a, x);
    case _ =>
  }

  lemma WorkKeepsEntry(run: Semantics, e: Entry, a: WorkerStep)
    requires Calm(run) && EntryInv(run, e)
    ensures EntryInv(run, e.(family := StepWorker(run, e.family, a)))
  {
    StepKeepsFamily(run, e.family, a);
    if RelaySound(run) { StepKeepsHandover(run, e.family, a); }
    WorkKeepsPhase(run, e, a);
  }

  // ------------------------------------------------- worker steps, the pooled pipe

  lemma QuietIsKept(run: Semantics, f: Family, a: WorkerStep)
    requires f.armed == {} && Quiet(f) && !f.closed
    ensures Quiet(StepWorker(run, f, a)) && StepWorker(run, f, a).sent == f.sent
  {
  }

  /** One reply at a time: when it goes out, everybody else is at rest. */
  lemma ExchangeIsKept(run: Semantics, f: Family, a: WorkerStep, c: Code, x: ExecId)
    requires Calm(run) && FamilyInv(f) && !f.closed && OneExchange(f, c, x)
    ensures OneExchange(StepWorker(run, f, a), c, x)
  {
    if a.SendReply? && WorkerEnabled(run, f, a) {
      forall q | q in f.procs && q != a.p ensures Resting(f.procs[q]) { WorkingAlone(f, a.p, q); }
    }
  }

  lemma WorkKeepsPipe(run: Semantics, e: Entry, a: WorkerStep)
    requires Calm(run) && FamilyInv(e.family) && PipeInv(e)
    ensures PipeInv(e.(family := StepWorker(run, e.family, a)))
  {
    StaysOpen(run, e.family, a);
    match e.phase
    case Waiting(c, x) => ExchangeIsKept(run, e.family, a, c, x);
    case Broken =>
    case Abandoned =>
    case _ => QuietIsKept(run, e.family, a);
  }

  // ------------------------------------------- worker steps, who owns a pooled entry

  lemma OwnedIsKept(run: Semantics, f: Family, a: WorkerStep, p: Pid, env: Environment)
    requires f.armed == {} && OwnedBy(f, p, env) && f.requests == [] && !f.closed
    ensures var f' := StepWorker(run, f, a);
      OwnedBy(f', p, env) && f'.requests == [] && !f'.closed && f'.replies == f.replies && f'.sent == f.sent
  {
  }

  lemma FoldStep(run: Semantics, env: Environment, sent: seq<Sent>, last: Sent)
    ensures Fold(run, env, sent + [last]) ==
      if last.reply.status == Ok then run(last.code, Fold(run, env, sent)).env else Fold(run, env, sent)
  {
    assert (sent + [last])[..|sent|] == sent;
  }

  /** A worker picks up the queued request: it forks, or fails to and says so. */
  lemma QueuedStep(run: Semantics, f: Family, a: WorkerStep, w: Pid, b: Environment, c: Code, x: ExecId)
    requires Sound(run) && FamilyInv(f) && !f.closed && f.replies == []
    requires f.requests == [Execute(c, x)] && OwnedBy(f, w, b)
    ensures var f' := StepWorker(run, f, a);
      && WaitingInv(run, f', w, b, c, x) && !f'.closed && f'.sent == f.sent
  {
  }

  /** Beside a parent about to hand over there is only the child it promotes. */
  lemma OnlyTheChild(run: Semantics, f: Family, p: Pid, q: Pid, w: Pid, b: Environment, c: Code, x: ExecId)
    requires Paired(f.procs) && Working(run, f, w, b, c, x)
    requires p in f.procs && f.procs[p].Replying? && q in f.procs && q != p
    ensures f.procs[q].Exiting? || f.procs[p].reply.owner == Some(q)
    ensures f.procs[p].reply.owner == Some(q) ==> f.procs[q] == Receiving(run(c, b).env)
  {
    assert f.procs[q].Exiting? || ParentOf(f.procs, p, q) || ParentOf(f.procs, q, p);
    assert ProcWorks(run, f, p, f.procs[p], w, b, c, x);
    assert ProcWorks(run, f, q, f.procs[q], w, b, c, x);
  }

  lemma DeliverPromoted(run: Semantics, f: Family, p: Pid, initial: Environment, w: Pid, c: Code, x: ExecId)
    requires Paired(f.procs) && !f.closed && f.requests == [] && f.replies == []
    requires Working(run, f, w, Fold(run, initial, f.sent), c, x)
    requires p in f.procs && f.procs[p].Replying? && f.procs[p].reply.owner.Some?
    ensures var f' := Deliver(f, p); Answered(run, f', w, Fold(run, initial, f'.sent), c, x, f'.replies[0])
  {
    var r, b := f.procs[p].reply, Fold(run, initial, f.sent);
    assert ProcWorks(run, f, p, f.procs[p], w, b, c, x);
    assert r.owner.value != p;
    FoldStep(run, initial, f.sent, Sent(c, r));
    forall q | q in f.procs && q != p
      ensures if q == r.owner.value then f.procs[q] == Receiving(run(c, b).env) else f.procs[q].Exiting?
    {
      OnlyTheChild(run, f, p, q, w, b, c, x);
    }
  }

  lemma DeliverPlain(run: Semantics, f: Family, p: Pid, initial: Environment, w: Pid, c: Code, x: ExecId)
    requires Paired(f.procs) && !f.closed && f.requests == [] && f.replies == []
    requires Working(run, f, w, Fold(run, initial, f.sent), c, x)
    requires p in f.procs && f.procs[p].Replying? && f.procs[p].reply.owner.None?
    ensures var f' := Deliver(f, p); Answered(run, f', w, Fold(run, initial, f'.sent), c, x, f'.replies[0])
  {
    var r, b := f.procs[p].reply, Fold(run, initial, f.sent);
    assert ProcWorks(run, f, p, f.procs[p], w, b, c, x);
    FoldStep(run, initial, f.sent, Sent(c, r));
    PlainOwned(run, f, p, w, b, c, x);
  }

  lemma PlainOwned(run: Semantics, f: Family, p: Pid, w: Pid, b: Environment, c: Code, x: ExecId)
    requires Paired(f.procs) && !f.closed && Working(run, f, w, b, c, x)
    requires p in f.procs && f.procs[p].Replying? && f.procs[p].reply.owner.None?
    ensures p == w && OwnedBy(Deliver(f, p), w, b)
  {
    assert ProcWorks(run, f, p, f.procs[p], w, b, c, x);
    forall q | q in f.procs && q != p ensures f.procs[q].Exiting? {
      OnlyTheChild(run, f, p, q, w, b, c, x);
    }
  }

  /** Until a reply goes out, the processes keep working on the one execution. */
  lemma WorkingStep(run: Semantics, f: Family, a: WorkerStep, w: Pid, b: Environment, c: Code, x: ExecId)
    requires Sound(run) && FamilyInv(f) && !f.closed && f.requests == [] && f.replies == []
    requires Working(run, f, w, b, c, x) && !a.SendReply?
    ensures var f' := StepWorker(run, f, a);
      && Working(run, f', w, b, c, x) && !f'.closed && f'.requests == [] && f'.replies == [] && f'.sent == f.sent
  {
  }

  lemma WorkKeepsPooled(run: Semantics, e: Entry, a: WorkerStep)
    requires Calm(run) && EntryInv(run, e) && PooledInv(run, e)
    ensures PooledInv(run, e.(family := StepWorker(run, e.family, a)))
  {
    WorkKeepsPipe(run, e, a);
    if Sound(run) { WorkKeepsOwned(run, e, a); }
  }

  lemma WorkKeepsOwned(run: Semantics, e: Entry, a: WorkerStep)
    requires Sound(run) && EntryInv(run, e) && PipeInv(e) && OwnedInv(run, e)
    ensures OwnedInv(run, e.(family := StepWorker(run, e.family, a)))
  {
    var f, w, b := e.family, e.workerPid, Base(run, e);
    match e.phase
    case Waiting(c, x) => WaitingStep(run, e, a, c, x);
    case Got(c, x, r) => OwnedIsKept(run, f, a, NextPid(w, r), b);
    case Broken =>
    case _ => OwnedIsKept(run, f, a, w, b);
  }

  lemma StaysOpen(run: Semantics, f: Family, a: WorkerStep)
    ensures StepWorker(run, f, a).closed == f.closed
  {
  }

  lemma ReportKeepsTrue(run: Semantics, env: Environment, sent: seq<Sent>, last: Sent)
    requires ReportsTrue(run, env, sent)
    requires last.reply.status == Ok ==> run(last.code, Fold(run, env, sent)).ok
    ensures ReportsTrue(run, env, sent + [last])
  {
    forall i | 0 <= i < |sent + [last]| && (sent + [last])[i].reply.status == Ok
      ensures run((sent + [last])[i].code, Fold(run, env, (sent + [last])[..i])).ok
    {
      assert (sent + [last])[..i] == sent[..i];
      if i == |sent| { assert sent[..i] == sent; }
    }
  }

  lemma WaitingStep(run: Semantics, e: Entry, a: WorkerStep, c: Code, x: ExecId)
    requires Sound(run) && EntryInv(run, e) && PipeInv(e) && OwnedInv(run, e) && e.phase == Waiting(c, x)
    ensures OwnedInv(run, e.(family := StepWorker(run, e.family, a)))
  {
    var f, w, b := e.family, e.workerPid, Base(run, e);
    StaysOpen(run, f, a);
    if f.requests == [Execute(c, x)] && f.replies == [] && OwnedBy(f, w, b) {
      QueuedStep(run, f, a, w, b, c, x);
    } else if f.requests == [] && f.replies == [] && Working(run, f, w, b, c, x) {
      if a.SendReply? && WorkerEnabled(run, f, a) {
        ReportKeepsTrue(run, e.initial, f.sent, Sent(c, f.procs[a.p].reply));
        if f.procs[a.p].reply.owner.Some? {
          DeliverPromoted(run, f, a.p, e.initial, w, c, x);
        } else {
          DeliverPlain(run, f, a.p, e.initial, w, c, x);
        }
      } else if !a.SendReply? {
        WorkingStep(run, f, a, w, b, c, x);
      }
    } else {
      OwnedIsKept(run, f, a, NextPid(w, f.replies[0]), b);
    }
  }

  // -------------------------------------------------------- the pool's own steps

  lemma AskKeepsFamily(run: Semantics, f: Family)
    requires FamilyInv(f)
    ensures FamilyInv(AskToStop(f)) && (NoExecute(f.requests) ==> NoExecute(AskToStop(f).requests))
    ensures Handover(run, f) ==> Handover(run, AskToStop(f))
    ensures forall x :: Tagged(f, x) ==> Tagged(AskToStop(f), x)
    ensures AskToStop(f).procs == f.procs && AskToStop(f).replies == f.replies
  {
    if Handover(run, f) && !f.closed { assert ResultsTrue(run, AskToStop(f)); }
  }

  lemma AskKeepsEntry(run: Semantics, e: Entry, phase: Phase)
    requires EntryInv(run, e) && (phase == e.phase || phase == Abandoned)
    ensures EntryInv(run, e.(phase := phase, family := AskToStop(e.family)))
  {
    AskKeepsFamily(run, e.family);
    assert AtRest(e.family) ==> AtRest(AskToStop(e.family));
  }

  lemma KillKeepsEntry(run: Semantics, e: Entry)
    requires EntryInv(run, e)
    ensures EntryInv(run, e.(family := Kill(e.family, e.workerPid)))
  {
    if RelaySound(run) { RemovalKeepsPairs(e.family.procs, {e.workerPid}); }
  }

  lemma QueueKeepsPooled(run: Semantics, e: Entry)
    requires EntryInv(run, e) && PooledInv(run, e) && e.phase.Sending?
    ensures var r := Execute(e.phase.code, e.phase.exec);
      PooledInv(run, e.(phase := Waiting(e.phase.code, e.phase.exec), family := e.family.(requests := e.family.requests + [r])))
  {
    assert e.family.requests + [Execute(e.phase.code, e.phase.exec)] == [Execute(e.phase.code, e.phase.exec)];
  }

  /** The entry once its reply has been taken off the pipe. */
  function Taken(e: Entry, phase: Phase): Entry
    requires e.family.replies != []
  {
    e.(phase := phase, family := e.family.(replies := e.family.replies[1..]))
  }

  lemma TakeKeeps(run: Semantics, e: Entry)
    requires EntryInv(run, e) && e.phase.Waiting? && e.family.replies != []
    ensures var e' := Taken(e, Got(e.phase.code, e.phase.exec, e.family.replies[0]));
      EntryInv(run, e') && (PooledInv(run, e) ==> PooledInv(run, e'))
  {
  }

  lemma TakeRaisesKeeps(run: Semantics, e: Entry)
    requires EntryInv(run, e) && e.phase.Waiting? && e.family.replies != [] && e.family.replies[0].mayFail
    ensures EntryInv(run, Taken(e, Raised)) && (PooledInv(run, e) ==> PooledInv(run, Taken(e, Raised)))
  {
  }

  lemma SettleKeeps(run: Semantics, e: Entry)
    requires EntryInv(run, e) && Ended(e.phase)
    ensures EntryInv(run, SettleEntry(e)) && (PooledInv(run, e) ==> PooledInv(run, SettleEntry(e)))
  {
  }

  /** Changing one entry keeps the pool in order when that entry stays in order. */
  lemma UpdateKeepsOrder(s: Pool, e: EntryId, entry: Entry, always: Entry -> bool, pooled: Entry -> bool)
    requires InOrder(s, always, pooled) && e in s.entries && always(entry)
    requires e in s.sessions.Values ==> pooled(entry)
    ensures InOrder(Update(s, e, entry), always, pooled)
  {
    forall k | k in s.sessions && s.sessions[k] == e ensures pooled(entry) {
      assert s.sessions[k] in s.sessions.Values;
    }
  }

  /** So does dropping sessions, whatever becomes of the entry they pointed to. */
  lemma DropKeepsOrder(s: Pool, sessions: map<SessionId, EntryId>, e: EntryId, entry: Entry, always: Entry -> bool, pooled: Entry -> bool)
    requires InOrder(s, always, pooled) && e in s.entries && always(entry)
    requires forall k :: k in sessions ==> k in s.sessions && sessions[k] == s.sessions[k] && sessions[k] != e
    ensures InOrder(s.(sessions := sessions, entries := s.entries[e := entry]), always, pooled)
  {
    SmallerMap(sessions, s.sessions);
  }

  lemma AddKeepsOrder(s: Pool, session: SessionId, e: EntryId, entry: Entry, always: Entry -> bool, pooled: Entry -> bool)
    requires InOrder(s, always, pooled) && e !in s.entries && always(entry) && pooled(entry)
    requires session !in s.sessions && |s.sessions| < s.maxSessions
    ensures InOrder(s.(sessions := s.sessions[session := e], entries := s.entries[e := entry]), always, pooled)
  {
    assert |s.sessions[session := e]| == |s.sessions| + 1;
  }

  lemma UpdateKeeps(run: Semantics, s: Pool, e: EntryId, entry: Entry)
    requires Inv(run, s) && e in s.entries && EntryInv(run, entry)
    requires e in s.sessions.Values ==> PooledInv(run, entry)
    ensures Inv(run, Update(s, e, entry))
  {
    UpdateKeepsOrder(s, e, entry, Always(run), Pooled(run));
  }

  lemma SmallerMap(a: map<SessionId, EntryId>, b: map<SessionId, EntryId>)
    requires forall k :: k in a ==> k in b
    ensures |a| <= |b|
  {
    assert a.Keys <= b.Keys;
    SubsetSize(a.Keys, b.Keys);
    assert |a.Keys| == |a| && |b.Keys| == |b|;
  }

  lemma EntryOf(run: Semantics, s: Pool, e: EntryId)
    requires Inv(run, s) && e in s.entries
    ensures EntryInv(run, s.entries[e])
    ensures e in s.sessions.Values ==> PooledInv(run, s.entries[e])
  {
    assert Always(run)(s.entries[e]);
    assert e in s.sessions.Values ==> Pooled(run)(s.entries[e]);
  }

  lemma SessionOf(run: Semantics, s: Pool, session: SessionId)
    requires Inv(run, s) && session in s.sessions
    ensures s.sessions[session] in s.entries && s.sessions[session] in s.sessions.Values
    ensures EntryInv(run, s.entries[s.sessions[session]]) && PooledInv(run, s.entries[s.sessions[session]])
    ensures forall k :: k in s.sessions && k != session ==> s.sessions[k] != s.sessions[session]
  {
    EntryOf(run, s, s.sessions[session]);
  }

  lemma NewEntryInv(run: Semantics, pid: Pid, env: Environment)
    ensures var entry := Entry(pid, Idle, false, env, NewFamily(pid, env)); EntryInv(run, entry) && PooledInv(run, entry)
  {
  }

  lemma CreateKeeps(run: Semantics, s: Pool, session: SessionId, e: EntryId, pid: Pid, env: Environment)
    requires Inv(run, s) && e !in s.entries
    ensures Inv(run, Step(run, s, GetOrCreate(session, e, pid, env)))
  {
    var entry := Entry(pid, Idle, false, env, NewFamily(pid, env));
    if session !in s.sessions && |s.sessions| < s.maxSessions {
      NewEntryInv(run, pid, env);
      AddKeepsOrder(s, session, e, entry, Always(run), Pooled(run));
    }
  }

  lemma ClosingKeepsEntry(run: Semantics, e: Entry)
    requires EntryInv(run, e)
    ensures EntryInv(run, e.(family := e.family.(closed := true)))
  {
  }

  lemma DropDeadKeeps(run: Semantics, s: Pool, session: SessionId, e: EntryId)
    requires Inv(run, s) && session in s.sessions && s.sessions[session] == e && e in s.entries && EntryInv(run, s.entries[e])
    ensures var closed := s.entries[e].(family := s.entries[e].family.(closed := true));
      Inv(run, s.(sessions := s.sessions - {session}, entries := s.entries[e := closed]))
  {
    var closed := s.entries[e].(family := s.entries[e].family.(closed := true));
    ClosingKeepsEntry(run, s.entries[e]);
    DropKeepsOrder(s, s.sessions - {session}, e, closed, Always(run), Pooled(run));
  }

  lemma AdmitKeeps(run: Semantics, s: Pool, session: SessionId, e: EntryId, code: Code, exec: ExecId)
    requires Inv(run, s) && Enabled(s, Begin(session, e, code, exec))
    ensures Inv(run, Admit(s, session, e, code, exec))
  {
    if session in s.sessions && s.sessions[session] == e {
      var entry := s.entries[e];
      SessionOf(run, s, session);
      if PidIsAlive(entry) {
        UpdateKeeps(run, s, e, entry.(phase := Sending(code, exec), cancelled := false));
      } else {
        DropDeadKeeps(run, s, session, e);
      }
    }
  }

  lemma RetireKeeps(run: Semantics, s: Pool, e: EntryId)
    requires Inv(run, s) && e in s.entries && s.entries[e].phase.Broken?
    ensures Inv(run, RetireEntry(s, e))
  {
    EntryOf(run, s, e);
    if e in s.sessions.Values {
      AskKeepsEntry(run, s.entries[e], Abandoned);
      DropKeepsOrder(s, DropSessionsOf(s, e), e, s.entries[e].(phase := Abandoned, family := AskToStop(s.entries[e].family)),
                     Always(run), Pooled(run));
    } else {
      UpdateKeeps(run, s, e, s.entries[e].(phase := Abandoned));
    }
  }

  lemma ShutDownKeeps(run: Semantics, s: Pool, session: SessionId)
    requires Inv(run, s) && Enabled(s, ShutDown(session))
    ensures Inv(run, Step(run, s, ShutDown(session)))
  {
    var e := s.sessions[session];
    SessionOf(run, s, session);
    AskKeepsEntry(run, s.entries[e], s.entries[e].phase);
    DropKeepsOrder(s, s.sessions - {session}, e, s.entries[e].(family := AskToStop(s.entries[e].family)), Always(run), Pooled(run));
  }

  /** What one action leaves of the entry it is about, where it only changes that entry. */
  lemma EntryKeeps(run: Semantics, s: Pool, a: Action, e: EntryId)
    requires Enabled(s, a) && e in s.entries && EntryInv(run, s.entries[e])
    requires a == Send(e) || a == Take(e) || a == TakeRaises(e) || a == Watchdog(e) || a == PipeFails(e) || a == Settle(e) || a == Cancel(e)
    ensures var e' := Step(run, s, a).entries[e];
      && Step(run, s, a) == Update(s, e, e') && EntryInv(run, e')
      && (PooledInv(run, s.entries[e]) ==> PooledInv(run, e'))
  {
    var entry := s.entries[e];
    match a
    case Send(_) =>
      if !entry.family.closed {
        if PooledInv(run, entry) { QueueKeepsPooled(run, entry); }
      }
    case Take(_) => TakeKeeps(run, entry);
    case TakeRaises(_) => TakeRaisesKeeps(run, entry);
    case Settle(_) => SettleKeeps(run, entry);
    case _ =>
  }

  lemma WorkerStepKeeps(run: Semantics, e: Entry, step: WorkerStep, family: Family)
    requires Calm(run) && EntryInv(run, e) && family == StepWorker(run, e.family, step)
    ensures EntryInv(run, e.(family := family)) && (PooledInv(run, e) ==> PooledInv(run, e.(family := family)))
  {
    WorkKeepsEntry(run, e, step);
    if PooledInv(run, e) { WorkKeepsPooled(run, e, step); }
  }

  lemma WorkKeeps(run: Semantics, s: Pool, e: EntryId, family: Family)
    requires Inv(run, s) && e in s.entries
    requires EntryInv(run, s.entries[e].(family := family))
    requires PooledInv(run, s.entries[e]) ==> PooledInv(run, s.entries[e].(family := family))
    ensures Inv(run, Update(s, e, s.entries[e].(family := family)))
  {
    EntryOf(run, s, e);
    UpdateKeeps(run, s, e, s.entries[e].(family := family));
  }

  lemma FamilyStepKeeps(run: Semantics, s: Pool, e: EntryId, step: WorkerStep)
    requires Calm(run) && Inv(run, s) && e in s.entries
    ensures Inv(run, Update(s, e, s.entries[e].(family := StepWorker(run, s.entries[e].family, step))))
  {
    EntryOf(run, s, e);
    WorkerStepKeeps(run, s.entries[e], step, StepWorker(run, s.entries[e].family, step));
    WorkKeeps(run, s, e, StepWorker(run, s.entries[e].family, step));
  }

  lemma TerminateKeeps(run: Semantics, s: Pool, e: EntryId)
    requires Inv(run, s) && Enabled(s, Terminate(e))
    ensures Inv(run, Step(run, s, Terminate(e)))
  {
    EntryOf(run, s, e);
    KillKeepsEntry(run, s.entries[e]);
    UpdateKeeps(run, s, e, s.entries[e].(family := Kill(s.entries[e].family, s.entries[e].workerPid)));
  }

  lemma ExchangeKeeps(run: Semantics, s: Pool, a: Action, e: EntryId)
    requires Inv(run, s) && Enabled(s, a) && e in s.entries
    requires a == Send(e) || a == Take(e) || a == TakeRaises(e) || a == Watchdog(e) || a == PipeFails(e) || a == Settle(e) || a == Cancel(e)
    ensures Inv(run, Step(run, s, a))
  {
    EntryOf(run, s, e);
    EntryKeeps(run, s, a, e);
    UpdateKeeps(run, s, e, Step(run, s, a).entries[e]);
  }

  lemma PoolActionKeeps(run: Semantics, s: Pool, a: Action)
    requires Calm(run) && Inv(run, s) && Enabled(s, a)
    requires a.GetOrCreate? || a.Begin? || a.Retire? || a.ShutDown? || a.Terminate? || a.Work?
    ensures Inv(run, Step(run, s, a))
  {
    match a
    case GetOrCreate(session, e, pid, env) => CreateKeeps(run, s, session, e, pid, env);
    case Begin(session, e, code, exec) => AdmitKeeps(run, s, session, e, code, exec);
    case Retire(e) => RetireKeeps(run, s, e);
    case ShutDown(session) => ShutDownKeeps(run, s, session);
    case Terminate(e) => TerminateKeeps(run, s, e);
    case Work(e, step) => FamilyStepKeeps(run, s, e, step);
  }

  /** Every action keeps the invariant. */
  lemma InvStep(run: Semantics, s: Pool, a: Action)
    requires Calm(run) && Inv(run, s)
    ensures Inv(run, Step(run, s, a))
  {
    if Enabled(s, a) {
      match a
      case Send(e) => ExchangeKeeps(run, s, a, e);
      case Take(e) => ExchangeKeeps(run, s, a, e);
      case TakeRaises(e) => ExchangeKeeps(run, s, a, e);
      case Watchdog(e) => ExchangeKeeps(run, s, a, e);
      case PipeFails(e) => ExchangeKeeps(run, s, a, e);
      case Settle(e) => ExchangeKeeps(run, s, a, e);
      case Cancel(e) => ExchangeKeeps(run, s, a, e);
      case _ => PoolActionKeeps(run, s, a);
    }
  }

  lemma {:induction false} RunKeepsInv(run: Semantics, s: Pool, actions: seq<Action>)
    requires Calm(run) && Inv(run, s)
    ensures Inv(run, Run(run, s, actions))
    decreases actions
  {
    if actions != [] {
      InvStep(run, s, actions[0]);
      RunKeepsInv(run, Step(run, s, actions[0]), actions[1..]);
    }
  }
}
