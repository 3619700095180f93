/** The session pool as the executor keeps it: a dictionary of entries whose fields are
    updated under two kinds of lock.  Each method is one section of the code between
    suspension points, proved to take the step of `SessionProtocol` that describes it. */
module SessionPool {
  import opened Options
  import opened WorkerFamily
  import opened SessionProtocol

  /** A session entry; tasks keep it after it has left the pool.  `phase` says how far
      the holder of the execution lock has come. */
  class SessionEntry {
    var workerPid: Pid
    var phase: Phase
    var cancelled: bool
    ghost var initial: Environment
    ghost var family: Family

    constructor (pid: Pid, ghost env: Environment)
      ensures View() == Entry(pid, Idle, false, env, NewFamily(pid, env))
    {
      workerPid, phase, cancelled, initial, family := pid, Idle, false, env, NewFamily(pid, env);
    }

    ghost function View(): Entry
      reads this
    {
      Entry(workerPid, phase, cancelled, initial, family)
    }
  }

  class Pool {
    const maxSessions: nat
    var sessions: map<SessionId, SessionEntry>

    /** Every entry ever created, under a number of its own. */
    ghost var known: map<EntryId, SessionEntry>
    ghost var ids: map<SessionEntry, EntryId>

    ghost function Entries(): set<SessionEntry>
      reads this`known
    {
      set e | e in known :: known[e]
    }

    ghost predicate Valid()
      reads this
    {
      && (forall e :: e in known ==> known[e] in ids && ids[known[e]] == e)
      && ids.Keys == Entries()
      && (forall k :: k in sessions ==> sessions[k] in ids && ids[sessions[k]] in known && known[ids[sessions[k]]] == sessions[k])
    }

    ghost predicate Knows(entry: SessionEntry)
      reads this`known, this`ids
    {
      entry in ids && ids[entry] in known && known[ids[entry]] == entry
    }

    ghost function SessionIds(): map<SessionId, EntryId>
      requires Valid()
      reads this
    {
      map k | k in sessions :: ids[sessions[k]]
    }

    ghost function Views(): map<EntryId, Entry>
      reads this`known, Entries()
    {
      map e | e in known :: known[e].View()
    }

    ghost function State(): SessionProtocol.Pool
      requires Valid()
      reads this, Entries()
    {
      SessionProtocol.Pool.Pool(SessionIds(), Views(), maxSessions)
    }

    constructor (maxSessions: nat)
      ensures Valid() && State() == EmptyPool(maxSessions)
    {
      this.maxSessions := maxSessions;
      sessions, known, ids := map[], map[], map[];
    }

    /** Returns the entry of a session, creating it while there is room. */
    method GetOrCreateSession(session: SessionId, ghost id: EntryId, pid: Pid, ghost env: Environment) returns (entry: Option<SessionEntry>)
      requires Valid() && id !in known
      modifies this
      ensures Valid() && fresh(Entries() - old(Entries()))
      ensures forall run :: State() == Step(run, old(State()), GetOrCreate(session, id, pid, env))
      ensures entry == if session in sessions then Some(sessions[session]) else None
    {
      if session in sessions {
        return Some(sessions[session]);
      }
      if |sessions| >= maxSessions {
        SessionCount();
        return None;
      }
      SessionCount();
      var created := new SessionEntry(pid, env);
      AddSession(session, created, id);
      entry := Some(created);
    }

    method AddSession(session: SessionId, created: SessionEntry, ghost id: EntryId)
      requires Valid() && id !in known && created !in ids
      modifies this
      ensures Valid() && known == old(known)[id := created] && sessions == old(sessions)[session := created]
      ensures State() == old(State()).(sessions := old(State()).sessions[session := id],
                                       entries := old(State()).entries[id := created.View()])
    {
      known := known[id := created];
      ids := ids[created := id];
      sessions := sessions[session := created];
      assert Entries() == old(Entries()) + {created} by {
        assert known[id] == created;
        forall e | e in old(known) ensures known[e] == old(known)[e] {}
      }
      assert SessionIds() == old(SessionIds())[session := id];
      assert Views() == old(Views())[id := created.View()];
    }

    lemma SessionCount()
      requires Valid()
      ensures |SessionIds()| == |sessions|
    {
      assert SessionIds().Keys == sessions.Keys;
      assert |SessionIds().Keys| == |SessionIds()| && |sessions.Keys| == |sessions|;
    }

    /** One entry has changed and nothing else. */
    twostate lemma OneChanged(entry: SessionEntry)
      requires old(Valid()) && old(Knows(entry)) && unchanged(this)
      requires forall e :: e in known && known[e] != entry ==> unchanged(known[e])
      ensures Valid() && Knows(entry)
      ensures State() == Update(old(State()), ids[entry], entry.View())
    {
      assert SessionIds() == old(SessionIds());
      assert Views() == old(Views())[ids[entry] := entry.View()];
    }

    /** Under the execution lock of the entry the caller found: starts over when the session
        has another entry by now, drops the session when its worker is gone, and begins the
        exchange otherwise.  `alive` is what the operating system says of the pid, which
        is yes for a dead process that nobody has reaped. */
    method BeginExecution(session: SessionId, entry: SessionEntry, code: Code, exec: ExecId, alive: bool) returns (admitted: bool)
      requires Valid() && Knows(entry) && entry.phase.Idle?
      requires alive == PidIsAlive(entry.View())
      modifies this, entry
      ensures Valid() && State() == Admit(old(State()), session, old(ids[entry]), code, exec)
      ensures admitted == (session in old(sessions) && old(sessions[session]) == entry && alive)
    {
      SameEntry(session, entry);
      if !(session in sessions && sessions[session] == entry) {
        return false;
      }
      admitted := WorkerIsAvailable(session, entry, alive);
      if admitted {
        entry.phase := Sending(code, exec);
        entry.cancelled := false;
        OneChanged(entry);
      }
    }

    lemma SameEntry(session: SessionId, entry: SessionEntry)
      requires Valid() && Knows(entry)
      ensures session in sessions ==> (sessions[session] == entry <==> SessionIds()[session] == ids[entry])
    {
    }

    method WorkerIsAvailable(session: SessionId, entry: SessionEntry, alive: bool) returns (available: bool)
      requires Valid() && session in sessions && sessions[session] == entry
      modifies this`sessions, entry`family
      ensures Valid() && available == alive
      ensures alive ==> unchanged(this) && unchanged(entry)
      ensures !alive ==>
        var s := old(State()); var e := s.sessions[session];
        State() == s.(sessions := s.sessions - {session},
                      entries := s.entries[e := s.entries[e].(family := s.entries[e].family.(closed := true))])
    {
      if alive {
        return true;
      }
      entry.family := entry.family.(closed := true);
      OneChanged(entry);
      Drop(session);
      available := false;
    }

    method Drop(session: SessionId)
      requires Valid()
      modifies this`sessions
      ensures Valid() && State() == old(State()).(sessions := old(State()).sessions - {session})
      ensures sessions == old(sessions) - {session}
    {
      sessions := sessions - {session};
      assert SessionIds() == old(SessionIds()) - {session};
    }

    /** A cancellation only leaves a note: the exchange goes on until it settles. */
    method NoteCancellation(entry: SessionEntry)
      requires Valid() && Knows(entry) && !entry.phase.Idle?
      modifies entry`cancelled
      ensures Valid() && forall run :: State() == Step(run, old(State()), Cancel(ids[entry]))
    {
      entry.cancelled := true;
      OneChanged(entry);
    }

    /** The exchange has ended: the owner named by the reply is recorded before anything
        else, also for a cancelled caller, and the lock is released. */
    method SettleExchange(entry: SessionEntry) returns (result: CallerResult)
      requires Valid() && Knows(entry) && Ended(entry.phase)
      modifies entry`workerPid, entry`phase
      ensures Valid() && State() == Update(old(State()), ids[entry], SettleEntry(old(entry.View())))
      ensures result == ResultFor(old(entry.View()))
    {
      if !entry.phase.Got? {
        result := if entry.cancelled then Cancellation else Error;
      } else {
        var reply := entry.phase.reply;
        if reply.owner.Some? {
          entry.workerPid := reply.owner.value;
        }
        result := if entry.cancelled then Cancellation else if reply.status == NoStatus then Error else Returned(reply.status);
      }
      entry.phase := Idle;
      OneChanged(entry);
    }

    /** Removes a session and asks its worker to stop. */
    method ShutdownSession(session: SessionId)
      requires Valid()
      modifies this`sessions, Entries()
      ensures Valid() && forall run :: State() == Step(run, old(State()), ShutDown(session))
    {
      if session in sessions {
        var entry := sessions[session];
        entry.family := AskToStop(entry.family);
        OneChanged(entry);
        Drop(session);
      }
    }

    /** Retires an entry after a broken exchange: its session is looked up in the whole
        dictionary and removed, unless somebody else has removed it already. */
    method ShutdownByEntry(entry: SessionEntry)
      requires Valid() && Knows(entry) && entry.phase.Broken?
      requires forall k, l :: k in sessions && l in sessions && sessions[k] == sessions[l] ==> k == l
      modifies this`sessions, entry
      ensures Valid() && forall run :: State() == Step(run, old(State()), Retire(ids[entry]))
    {
      var found: Option<SessionId> := None;
      var todo := sessions.Keys;
      while todo != {} && found.None?
        invariant todo <= sessions.Keys
        invariant forall k :: k in sessions && k !in todo && found != Some(k) ==> sessions[k] != entry
        invariant found.Some? ==> found.value in sessions && sessions[found.value] == entry
        decreases todo
      {
        var k :| k in todo;
        todo := todo - {k};
        if sessions[k] == entry {
          found := Some(k);
        }
      }
      RetireFound(entry, found);
    }

    method RetireFound(entry: SessionEntry, found: Option<SessionId>)
      requires Valid() && Knows(entry) && entry.phase.Broken?
      requires found.Some? ==> found.value in sessions && sessions[found.value] == entry
      requires forall k :: k in sessions && found != Some(k) ==> sessions[k] != entry
      modifies this`sessions, entry
      ensures Valid() && State() == RetireEntry(old(State()), ids[entry])
    {
      ghost var s0 := State();
      SessionsOfEntry(entry);
      if found.Some? {
        entry.family := AskToStop(entry.family);
      }
      entry.phase := Abandoned;
      OneChanged(entry);
      if found.Some? {
        Drop(found.value);
        assert s0.sessions - {found.value} == DropSessionsOf(s0, ids[entry]);
      }
    }

    lemma SessionsOfEntry(entry: SessionEntry)
      requires Valid() && Knows(entry)
      ensures forall k :: k in sessions ==> (sessions[k] == entry <==> SessionIds()[k] == ids[entry])
      ensures ids[entry] in SessionIds().Values <==> exists k :: k in sessions && sessions[k] == entry
    {
    }
  }
}
