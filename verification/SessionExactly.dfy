/** The exact conditions: over all runs, what a program may leave behind and what a result may
    do to its readers. */
module SessionExactly {
  import opened Options
  import opened WorkerFamily
  import opened SessionProtocol
  import opened SessionInvariant
  import opened SessionTheorems
  import opened SessionRuns

  // ------------------------------------------------------ replies and the lock

  /** Every reply read, in any run, answers the execution just sent, if and only if no program
      leaves an interruption behind. */
  lemma ReplyPairingExactly(run: Semantics)
    ensures (forall max, actions, e :: Pairs(run, max, actions, e)) <==> Calm(run)
  {
    if Calm(run) {
      forall max, actions, e ensures Pairs(run, max, actions, e) { ReplyPairing(run, max, actions, e); }
    } else {
      var c, env :| run(c, env).interrupts;
      StraySettledRun(run, 1, c, env);
      assert !Pairs(run, 1, StrayTaken(c, env), 0);
    }
  }

  /** The lock is always released, and found free in the pool, with an empty pipe, under the
      same condition. */
  lemma LockCleanExactly(run: Semantics)
    ensures (forall max, actions, e :: Clean(Run(run, EmptyPool(max), actions), e)) <==> Calm(run)
  {
    if Calm(run) {
      forall max, actions, e ensures Clean(Run(run, EmptyPool(max), actions), e) {
        LockReleasedClean(run, max, actions, e);
      }
    } else {
      var c, env :| run(c, env).interrupts;
      var e := Strayed(run, c, env, Idle, [], [UNASKED]);
      StrayAgainRun(run, 1, c, env);
      assert !PipeEmpty(e) && Single(1, e).sessions[0] == 0;
      assert !Clean(Run(run, EmptyPool(1), StrayAgain(c, env)), 0);
    }
  }

  // ---------------------------------------------------------------- who owns it

  ghost predicate Sole(run: Semantics, max: nat, actions: seq<Action>, e: EntryId) {
    var s := Run(run, EmptyPool(max), actions);
    e in s.entries ==> SoleOwner(s.entries[e])
  }

  /** No run has two processes of one session that can consume a request, or one at work
      while another can, if and only if no program leaves an interruption behind and no
      successful result can make its parent raise. */
  lemma OwnerExactly(run: Semantics)
    ensures (forall max, actions, e :: Sole(run, max, actions, e)) <==> Calm(run) && RelaySound(run)
  {
    if Calm(run) && RelaySound(run) {
      forall max, actions, e ensures Sole(run, max, actions, e) { OneOwner(run, max, actions, e); }
    } else if !Calm(run) {
      var c, env :| run(c, env).interrupts;
      StrayQueuedRun(run, 1, c, env);
      WorkerAndStray(run, c, env);
      assert !Sole(run, 1, StrayQueued(c, env), 0);
    } else {
      var c, env :| run(c, env).ok && run(c, env).relayMayFail;
      var e := TwoReceivers(run, c, env);
      RaisingParentRun(run, 1, c, env);
      assert Owner(e, 0) && Owner(e, 1);
      assert !Sole(run, 1, RaisingParent(c, env), 0);
    }
  }

  lemma WorkerAndStray(run: Semantics, c: Code, env: Environment)
    ensures !SoleOwner(Strayed(run, c, env, Waiting(c, 1), [Execute(c, 1)], []))
  {
    var e := Strayed(run, c, env, Waiting(c, 1), [Execute(c, 1)], []);
    assert Live(e.family, 0) && Live(e.family, 1) && e.family.requests[0].Execute?;
  }

  /** Between exchanges the worker pid of a session names whoever can consume a request, and
      the environment is the fold of the programs reported as ok, all of which succeeded. */
  ghost predicate Faithful(run: Semantics, max: nat, actions: seq<Action>, session: SessionId) {
    var s := Run(run, EmptyPool(max), actions);
    session in s.sessions ==>
      && s.sessions[session] in s.entries
      && (s.entries[s.sessions[session]].phase.Idle? ==> FaithfulEntry(run, s.entries[s.sessions[session]]))
  }

  ghost predicate FaithfulEntry(run: Semantics, e: Entry) {
    && (forall p :: Owner(e, p) ==> p == e.workerPid && e.family.procs[p].env == Fold(run, e.initial, e.family.sent))
    && ReportsTrue(run, e.initial, e.family.sent)
  }

  /** The entry is free, its worker pid is 0, and process 1 can consume a request. */
  ghost predicate Mistaken(e: Entry) {
    && e.workerPid == 0 && e.phase.Idle? && e.family.unreaped == {}
    && e.family.procs.Keys == {0, 1} && e.family.procs[1].Receiving?
  }

  /** The run that leads there: an interruption, a parent that raises, or a pool that does. */
  lemma Mislaid(run: Semantics) returns (actions: seq<Action>, e: Entry)
    requires !Sound(run)
    ensures Run(run, EmptyPool(1), actions) == Single(1, e) && Mistaken(e)
  {
    if !Calm(run) {
      var c, env :| run(c, env).interrupts;
      StraySettledRun(run, 1, c, env);
      actions, e := StraySettled(c, env), Strayed(run, c, env, Idle, [], []);
    } else if !RelaySound(run) {
      var c, env :| run(c, env).ok && run(c, env).relayMayFail;
      RaisingParentRun(run, 1, c, env);
      actions, e := RaisingParent(c, env), TwoReceivers(run, c, env);
    } else {
      var c, env :| run(c, env).ok && run(c, env).replyMayFail;
      RaisingPoolRun(run, 1, c, env);
      actions, e := RaisingPool(c, env), StaleOwner(run, c, env);
    }
  }

  lemma SoundIsFaithful(run: Semantics, max: nat, actions: seq<Action>, session: SessionId)
    requires Sound(run)
    ensures Faithful(run, max, actions, session)
  {
    Reachable(run, max, actions);
    var s := Run(run, EmptyPool(max), actions);
    if session in s.sessions { SessionOf(run, s, session); }
  }

  /** Every run is faithful if and only if no program leaves an interruption behind and no
      successful result can make one of its readers raise: otherwise a program reported as
      failed stays applied in a second owner, or the pool loses track of the owner. */
  lemma FaithfulExactly(run: Semantics)
    ensures (forall max, actions, session :: Faithful(run, max, actions, session)) <==> Sound(run)
  {
    if Sound(run) {
      forall max, actions, session ensures Faithful(run, max, actions, session) {
        SoundIsFaithful(run, max, actions, session);
      }
    } else {
      var actions, e := Mislaid(run);
      assert Owner(e, 1) && Single(1, e).sessions[0] == 0;
      assert !FaithfulEntry(run, e);
      assert !Faithful(run, 1, actions, 0);
    }
  }
  // ------------------------------------------------- when an owned session is dropped

  ghost predicate DropsOwned(run: Semantics, max: nat, actions: seq<Action>, session: SessionId, e: EntryId) {
    var s := Run(run, EmptyPool(max), actions);
    Drops(s, session, e) && Owned(s.entries[e])
  }

  /** The first worker is gone, and the other process is still there. */
  function Orphaned(e: Entry, unreaped: set<Pid>): Entry
    requires Mistaken(e)
  {
    e.(family := e.family.(procs := map[1 := e.family.procs[1]], unreaped := unreaped))
  }

  lemma LeaveStep(run: Semantics, e: Entry)
    requires Mistaken(e)
    ensures StepWorker(run, e.family, Dies(0)) == Orphaned(e, {0}).family
    ensures StepWorker(run, Orphaned(e, {0}).family, WorkerStep.Reaped(0)) == Orphaned(e, {}).family
  {
    assert e.family.procs - {0} == map[1 := e.family.procs[1]];
  }

  lemma OrphanedDropped(e: Entry)
    requires Mistaken(e)
    ensures Drops(Single(1, Orphaned(e, {})), 0, 0) && Owned(Orphaned(e, {}))
  {
    assert Owner(Orphaned(e, {}), 1);
  }

  lemma WorkerLeaves(run: Semantics, a: seq<Action>, e: Entry)
    requires Run(run, EmptyPool(1), a) == Single(1, e) && Mistaken(e)
    ensures DropsOwned(run, 1, a + [Work(0, Dies(0))] + [Work(0, WorkerStep.Reaped(0))], 0, 0)
  {
    LeaveStep(run, e);
    WorkOne(run, 1, a, e, Dies(0), Orphaned(e, {0}).family);
    WorkOne(run, 1, a + [Work(0, Dies(0))], Orphaned(e, {0}), WorkerStep.Reaped(0), Orphaned(e, {}).family);
    OrphanedDropped(e);
  }

  /** No run ever drops a session that somebody owns if and only if no program leaves an
      interruption behind and no successful result can make one of its readers raise. */
  lemma OwnedKeptExactly(run: Semantics)
    ensures (forall max, actions, session, e :: !DropsOwned(run, max, actions, session, e)) <==> Sound(run)
  {
    if Sound(run) {
      forall max, actions, session, e ensures !DropsOwned(run, max, actions, session, e) {
        OwnedSessionIsKept(run, max, actions, session, e);
      }
    } else {
      var actions, e := Mislaid(run);
      WorkerLeaves(run, actions, e);
    }
  }
}
