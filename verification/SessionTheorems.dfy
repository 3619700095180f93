/** What every run of the session pool guarantees, whatever callers, processes and
    shutdowns do and in whatever order.

    Replies are paired and the pipe is clean when no program leaves an interruption behind;
    who owns a session is settled when besides no successful result makes one of its readers
    raise.  `SessionExactly` says that these are the exact conditions. */
module SessionTheorems {
  import opened Options
  import opened WorkerFamily
  import opened SessionProtocol
  import opened SessionInvariant

  /** A process that owns the session state of an entry: it can consume the next request. */
  ghost predicate Owner(e: Entry, p: Pid) {
    p in e.family.procs && e.family.procs[p].Receiving?
  }

  ghost predicate PipeEmpty(e: Entry) {
    e.family.requests == [] && e.family.replies == []
  }

  // ------------------------------------------------------------------- every run

  /** No run exceeds the session limit, and no two sessions share a worker family. */
  lemma CapacityAndIsolation(run: Semantics, max: nat, actions: seq<Action>, k: SessionId, l: SessionId)
    ensures var s := Run(run, EmptyPool(max), actions);
      |s.sessions| <= max && (k in s.sessions && l in s.sessions && s.sessions[k] == s.sessions[l] ==> k == l)
  {
    RunKeepsCapacity(run, EmptyPool(max), actions);
  }

  ghost predicate Capacity(s: Pool) {
    && |s.sessions| <= s.maxSessions && s.sessions.Values <= s.entries.Keys
    && forall k, l :: k in s.sessions && l in s.sessions && s.sessions[k] == s.sessions[l] ==> k == l
  }

  lemma FewerKeepCapacity(s: Pool, s': Pool)
    requires Capacity(s) && s'.maxSessions == s.maxSessions && s.entries.Keys <= s'.entries.Keys
    requires forall k :: k in s'.sessions ==> k in s.sessions && s'.sessions[k] == s.sessions[k]
    ensures Capacity(s')
  {
    SmallerMap(s'.sessions, s.sessions);
    forall k | k in s'.sessions ensures s'.sessions[k] in s'.entries.Keys {
      assert s.sessions[k] in s.sessions.Values;
    }
  }

  lemma CreateKeepsCapacity(run: Semantics, s: Pool, session: SessionId, e: EntryId, pid: Pid, env: Environment)
    requires Capacity(s) && e !in s.entries
    ensures Capacity(Step(run, s, GetOrCreate(session, e, pid, env)))
  {
    assert |s.sessions[session := e]| <= |s.sessions| + 1;
    forall k | k in s.sessions ensures s.sessions[k] in s.entries {
      assert s.sessions[k] in s.sessions.Values;
    }
  }

  /** No action but creating a session adds one, and none forgets an entry. */
  lemma NothingAdded(run: Semantics, s: Pool, a: Action)
    requires Enabled(s, a) && !a.GetOrCreate?
    ensures var s' := Step(run, s, a);
      && s'.maxSessions == s.maxSessions && s.entries.Keys <= s'.entries.Keys
      && forall k :: k in s'.sessions ==> k in s.sessions && s'.sessions[k] == s.sessions[k]
  {
  }

  lemma StepKeepsCapacity(run: Semantics, s: Pool, a: Action)
    requires Capacity(s)
    ensures Capacity(Step(run, s, a)) && Step(run, s, a).maxSessions == s.maxSessions
  {
    if Enabled(s, a) {
      if a.GetOrCreate? {
        CreateKeepsCapacity(run, s, a.session, a.newEntry, a.pid, a.env);
      } else {
        NothingAdded(run, s, a);
        FewerKeepCapacity(s, Step(run, s, a));
      }
    }
  }

  lemma {:induction false} RunKeepsCapacity(run: Semantics, s: Pool, actions: seq<Action>)
    requires Capacity(s)
    ensures Capacity(Run(run, s, actions)) && Run(run, s, actions).maxSessions == s.maxSessions
    decreases actions
  {
    if actions != [] {
      StepKeepsCapacity(run, s, actions[0]);
      RunKeepsCapacity(run, Step(run, s, actions[0]), actions[1..]);
    }
  }

  // ---------------------------------------------------- runs without interruptions

  lemma Reachable(run: Semantics, max: nat, actions: seq<Action>)
    requires Calm(run)
    ensures Inv(run, Run(run, EmptyPool(max), actions))
  {
    RunKeepsInv(run, EmptyPool(max), actions);
  }

  ghost predicate Pairs(run: Semantics, max: nat, actions: seq<Action>, e: EntryId) {
    var s := Run(run, EmptyPool(max), actions);
    e in s.entries && s.entries[e].phase.Got? ==> s.entries[e].phase.reply.answers == Some(s.entries[e].phase.exec)
  }

  /** Reply pairing: a reply read from a pipe answers the execution just sent on it, in
      every entry, whoever was cancelled, whether or not it has been retired, and whatever
      results did to their readers. */
  lemma ReplyPairing(run: Semantics, max: nat, actions: seq<Action>, e: EntryId)
    requires Calm(run)
    ensures Pairs(run, max, actions, e)
  {
    Reachable(run, max, actions);
    if e in Run(run, EmptyPool(max), actions).entries { EntryOf(run, Run(run, EmptyPool(max), actions), e); }
  }

  /** Whether the lock is about to be released, or free, only with an empty pipe or with the
      entry out of the pool. */
  ghost predicate Clean(s: Pool, e: EntryId) {
    e in s.entries && (Ended(s.entries[e].phase) || s.entries[e].phase.Idle?) ==>
      PipeEmpty(s.entries[e]) || e !in s.sessions.Values
  }

  /** The execution lock is released only when the pipe is empty or the entry has left
      the pool; and an entry found free in the pool has an empty pipe. */
  lemma LockReleasedClean(run: Semantics, max: nat, actions: seq<Action>, e: EntryId)
    requires Calm(run)
    ensures Clean(Run(run, EmptyPool(max), actions), e)
  {
    Reachable(run, max, actions);
    PooledPipe(run, Run(run, EmptyPool(max), actions), e);
  }

  lemma PooledPipe(run: Semantics, s: Pool, e: EntryId)
    requires Inv(run, s)
    ensures Clean(s, e)
  {
    if e in s.entries { EntryOf(run, s, e); }
  }

  // ------------------------------------------------- runs with readable results

  /** At most one process can consume a request, and while a program is queued nobody else
      is at work. */
  ghost predicate SoleOwner(e: Entry) {
    && (forall p, q :: Owner(e, p) && Owner(e, q) ==> p == q)
    && (!NoExecute(e.family.requests) ==> forall p, q :: Live(e.family, p) && Live(e.family, q) ==> p == q && Owner(e, p))
  }

  lemma HandoverOwner(run: Semantics, e: Entry)
    requires FamilyInv(e.family) && Handover(run, e.family)
    ensures SoleOwner(e)
  {
    var f := e.family;
    forall p, q | p in f.procs && q in f.procs
      ensures f.procs[p].Receiving? && f.procs[q].Receiving? ==> p == q
      ensures !NoExecute(f.requests) && Live(f, p) && Live(f, q) ==> p == q && f.procs[p].Receiving?
    {
      SingleOwner(run, f, p, q);
    }
  }

  /** At most one process of a session, in the pool or retired, can consume a request. */
  lemma OneOwner(run: Semantics, max: nat, actions: seq<Action>, e: EntryId)
    requires Calm(run) && RelaySound(run)
    ensures var s := Run(run, EmptyPool(max), actions); e in s.entries ==> SoleOwner(s.entries[e])
  {
    var s := Run(run, EmptyPool(max), actions);
    Reachable(run, max, actions);
    if e in s.entries {
      EntryOf(run, s, e);
      HandoverOwner(run, s.entries[e]);
    }
  }

  /** Rollback refinement: between exchanges, the environment of the owner is the fold,
      in order, of exactly the programs reported as ok, and each of those did succeed.
      A failed, crashed or timed-out execution leaves no trace. */
  lemma RollbackRefinement(run: Semantics, max: nat, actions: seq<Action>, session: SessionId, p: Pid)
    requires Sound(run)
    ensures var s := Run(run, EmptyPool(max), actions);
      session in s.sessions ==>
        && s.sessions[session] in s.entries
        && var e := s.entries[s.sessions[session]];
           (e.phase.Idle? ==>
             && (Owner(e, p) ==> e.family.procs[p].env == Fold(run, e.initial, e.family.sent))
             && ReportsTrue(run, e.initial, e.family.sent))
  {
    var s := Run(run, EmptyPool(max), actions);
    Reachable(run, max, actions);
    if session in s.sessions { SessionOf(run, s, session); }
  }

  /** What one execution did, when its caller is about to be told: exactly its own
      program was applied if it is reported ok, and nothing otherwise; the process the
      next request goes to is already the one named by the reply. */
  lemma ExecutionEffect(run: Semantics, max: nat, actions: seq<Action>, session: SessionId, p: Pid)
    requires Sound(run)
    ensures var s := Run(run, EmptyPool(max), actions);
      session in s.sessions ==>
        && s.sessions[session] in s.entries
        && var e := s.entries[s.sessions[session]];
           (e.phase.Got? ==>
             && e.family.sent != []
             && (var before := Fold(run, e.initial, e.family.sent[..|e.family.sent| - 1]);
                 var applied := run(e.phase.code, before);
                 && (e.phase.reply.status == Ok ==> applied.ok)
                 && (Owner(e, p) ==> e.family.procs[p].env == (if e.phase.reply.status == Ok then applied.env else before)))
             && (Owner(e, p) ==> p == SettleEntry(e).workerPid)
             && (ResultFor(e) == Returned(Ok) <==> !e.cancelled && e.phase.reply.status == Ok))
  {
    var s := Run(run, EmptyPool(max), actions);
    Reachable(run, max, actions);
    if session in s.sessions {
      SessionOf(run, s, session);
      var e := s.entries[s.sessions[session]];
      if e.phase.Got? {
        var sent := e.family.sent;
        assert sent[|sent| - 1] == Sent(e.phase.code, e.phase.reply);
      }
    }
  }

  /** A caller who is told of an error because reading the reply raised: nothing was applied. */
  lemma RaisedEffect(run: Semantics, max: nat, actions: seq<Action>, session: SessionId, p: Pid)
    requires Sound(run)
    ensures var s := Run(run, EmptyPool(max), actions);
      session in s.sessions ==>
        && s.sessions[session] in s.entries
        && var e := s.entries[s.sessions[session]];
           (e.phase.Raised? ==>
             && e.family.sent != []
             && (Owner(e, p) ==> p == e.workerPid)
             && (Owner(e, p) ==> e.family.procs[p].env == Fold(run, e.initial, e.family.sent[..|e.family.sent| - 1])))
  {
    Reachable(run, max, actions);
    var s := Run(run, EmptyPool(max), actions);
    if session in s.sessions {
      SessionOf(run, s, session);
      if s.entries[s.sessions[session]].phase.Raised? { RaisedEntry(run, s.entries[s.sessions[session]], p); }
    }
  }

  lemma RaisedEntry(run: Semantics, e: Entry, p: Pid)
    requires OwnedInv(run, e) && e.phase.Raised?
    ensures e.family.sent != []
    ensures Owner(e, p) ==> p == e.workerPid
    ensures Owner(e, p) ==> e.family.procs[p].env == Fold(run, e.initial, e.family.sent[..|e.family.sent| - 1])
  {
  }

  /** Owner tracking: when the lock of an entry in the pool is free, its worker pid names
      the owner, if there is one. */
  lemma OwnerTracked(run: Semantics, max: nat, actions: seq<Action>, session: SessionId)
    requires Sound(run)
    ensures var s := Run(run, EmptyPool(max), actions);
      session in s.sessions ==>
        && s.sessions[session] in s.entries
        && var e := s.entries[s.sessions[session]];
           (e.phase.Idle? ==>
             && (forall p :: Owner(e, p) ==> p == e.workerPid)
             && (PidIsAlive(e) <==> Owner(e, e.workerPid) || e.workerPid in e.family.unreaped))
  {
    var s := Run(run, EmptyPool(max), actions);
    Reachable(run, max, actions);
    if session in s.sessions { SessionOf(run, s, session); }
  }

  // ------------------------------------------------------------ the liveness check

  /** Whether the caller of `execute` finds its session dropped. */
  ghost predicate Drops(s: Pool, session: SessionId, e: EntryId) {
    e in s.entries && session in s.sessions && s.sessions[session] == e && s.entries[e].phase.Idle?
    && forall code, exec :: session !in Admit(s, session, e, code, exec).sessions
  }

  ghost predicate Owned(e: Entry) {
    exists p :: Owner(e, p)
  }

  /** The liveness check never drops a session whose owner is alive. */
  lemma OwnedSessionIsKept(run: Semantics, max: nat, actions: seq<Action>, session: SessionId, e: EntryId)
    requires Sound(run)
    ensures var s := Run(run, EmptyPool(max), actions);
      Drops(s, session, e) ==> !Owned(s.entries[e])
  {
    OwnerTracked(run, max, actions, session);
    var s := Run(run, EmptyPool(max), actions);
    if Drops(s, session, e) { assert session !in Admit(s, session, e, 0, 0).sessions; }
  }

  /** It drops exactly the sessions nobody owns if and only if the dead worker, if it is
      dead, has been reaped. */
  lemma DropsExactly(run: Semantics, max: nat, actions: seq<Action>, session: SessionId, e: EntryId)
    requires Sound(run)
    requires var s := Run(run, EmptyPool(max), actions);
      e in s.entries && session in s.sessions && s.sessions[session] == e && s.entries[e].phase.Idle?
    ensures var s := Run(run, EmptyPool(max), actions); var entry := s.entries[e];
      (Drops(s, session, e) <==> !Owned(entry)) <==> entry.workerPid !in entry.family.unreaped
  {
    var s := Run(run, EmptyPool(max), actions);
    var entry := s.entries[e];
    OwnerTracked(run, max, actions, session);
    Reachable(run, max, actions);
    EntryOf(run, s, e);
    assert Drops(s, session, e) <==> !PidIsAlive(entry) by {
      if Drops(s, session, e) { assert session !in Admit(s, session, e, 0, 0).sessions; }
    }
    if Owner(entry, entry.workerPid) { assert Owned(entry); }
  }
}
