/** The subscription table as the runtime keeps it: two maps, and pending records that
    a setup and the table share.  Every method is the code between two awaits, proved
    to take the step of `SubscriptionProtocol` that describes it. */
module SubscriptionTable {
  import opened JsonText
  import opened Options
  import opened StableKey
  import opened SubscriptionProtocol

  /** A subscription being established.  Its setup keeps this object after it has left
      the table, and learns from `cancelled` that nobody wants the result. */
  class PendingSubscription {
    const record: Record
    var cancelled: bool

    constructor (record: Record)
      ensures this.record == record && !cancelled
    {
      this.record := record;
      cancelled := false;
    }
  }

  /** A table entry: the shared pending object, or a new record holding a device
      subscription. */
  datatype Entry = PendingEntry(pending: PendingSubscription) | ActiveEntry(record: Record)

  class SubscriptionRuntime {
    const timeoutMs: int
    var subscriptionsById: map<Id, Entry>
    var subscriptionsByKey: map<Text, Id>

    // What the setups are waiting for, and what has happened outside the table.
    ghost var pendings: map<Id, PendingSubscription>
    ghost var phases: map<Id, Phase>
    ghost var activated: set<Id>
    ghost var devices: map<DeviceId, Device>
    ghost var teardowns: map<Id, Teardown>
    ghost var events: seq<Event>

    ghost function Objects(): set<PendingSubscription>
      reads this`pendings
    {
      set id | id in pendings :: pendings[id]
    }

    ghost predicate Valid()
      reads this
    {
      && phases.Keys == pendings.Keys
      && (forall id :: id in pendings ==> pendings[id].record.id == id && pendings[id].record.status == Pending)
      && (forall id :: id in subscriptionsById ==> Tracked(id, subscriptionsById[id]))
    }

    ghost predicate Tracked(id: Id, e: Entry)
      reads this`pendings
    {
      match e
      case PendingEntry(p) => id in pendings && pendings[id] == p
      case ActiveEntry(r) => r.status.Active?
    }

    ghost function Table(): map<Id, Record>
      reads this`subscriptionsById
    {
      map id | id in subscriptionsById :: RecordOf(subscriptionsById[id])
    }

    ghost function Setups(): map<Id, Setup>
      requires phases.Keys == pendings.Keys
      reads this`pendings, this`phases, this`activated, Objects()
    {
      map id | id in pendings :: Setup(pendings[id].record, pendings[id].cancelled, phases[id], id in activated)
    }

    ghost function State(): State
      requires Valid()
      reads this, Objects()
    {
      SubscriptionProtocol.State.State(Table(), subscriptionsByKey, Setups(), devices, teardowns, events)
    }

    static function RecordOf(e: Entry): Record {
      match e case PendingEntry(p) => p.record case ActiveEntry(r) => r
    }

    constructor (timeoutMs: int)
      ensures Valid() && State() == INITIAL && this.timeoutMs == timeoutMs
    {
      this.timeoutMs := timeoutMs;
      subscriptionsById, subscriptionsByKey := map[], map[];
      pendings, phases, activated := map[], map[], {};
      devices, teardowns, events := map[], map[], [];
    }

    method RememberPending(p: PendingSubscription)
      requires Valid() && p.record.status == Pending && p.record.id in pendings && pendings[p.record.id] == p
      modifies this`subscriptionsById, this`subscriptionsByKey
      ensures Valid() && State() == Remember(old(State()), p.record)
    {
      subscriptionsById := subscriptionsById[p.record.id := PendingEntry(p)];
      subscriptionsByKey := subscriptionsByKey[p.record.key := p.record.id];
      assert Table() == old(Table())[p.record.id := p.record];
    }

    method RememberActive(r: Record)
      requires Valid() && r.status.Active?
      modifies this`subscriptionsById, this`subscriptionsByKey
      ensures Valid() && State() == Remember(old(State()), r)
    {
      subscriptionsById := subscriptionsById[r.id := ActiveEntry(r)];
      subscriptionsByKey := subscriptionsByKey[r.key := r.id];
      assert Table() == old(Table())[r.id := r];
    }

    method ForgetSubscription(id: Id) returns (entry: Option<Entry>)
      requires Valid()
      modifies this`subscriptionsById, this`subscriptionsByKey
      ensures Valid() && State() == Forget(old(State()), id)
      ensures entry == if id in old(subscriptionsById) then Some(old(subscriptionsById[id])) else None
    {
      if id !in subscriptionsById {
        return None;
      }
      entry := Some(subscriptionsById[id]);
      var key := RecordOf(entry.value).key;
      subscriptionsById := subscriptionsById - {id};
      if key in subscriptionsByKey && subscriptionsByKey[key] == id {
        subscriptionsByKey := subscriptionsByKey - {key};
      }
      assert Table() == old(Table()) - {id};
    }

    /** The ensure operations: an existing subscription is returned, otherwise a
        pending one is stored and its setup begins. */
    method EnsureSubscription(request: Request, newId: Id) returns (response: Response)
      requires Valid() && newId !in pendings
      modifies this
      ensures Valid() && fresh(Objects() - old(Objects()))
      ensures (State(), response) == Ensure(old(State()), TargetOf(request), newId)
    {
      response := EnsureTarget(TargetOf(request), newId);
    }

    method EnsureTarget(target: Target, newId: Id) returns (response: Response)
      requires Valid() && newId !in pendings
      modifies this
      ensures Valid() && fresh(Objects() - old(Objects()))
      ensures (State(), response) == Ensure(old(State()), target, newId)
    {
      if target.thingId == [] || target.name == [] {
        return InvalidArgument;
      }
      if target.key in subscriptionsByKey && subscriptionsByKey[target.key] in subscriptionsById {
        var id := subscriptionsByKey[target.key];
        return Response(id, false, RecordOf(subscriptionsById[id]).status);
      }
      var pending := new PendingSubscription(Record(newId, target.key, target.thingId, target.name, target.operation, Pending));
      BeginSetup(pending);
      RememberPending(pending);
      response := Response(newId, true, Pending);
    }

    ghost method BeginSetup(p: PendingSubscription)
      requires Valid() && p.record.id !in pendings && p.record.status == Pending && !p.cancelled
      modifies this`pendings, this`phases, this`activated
      ensures Valid() && pendings == old(pendings)[p.record.id := p]
      ensures State() == old(State()).(setups := old(State()).setups[p.record.id := Setup(p.record, false, Connecting, false)])
    {
      assert forall k :: k in subscriptionsById ==> Tracked(k, subscriptionsById[k]);
      AddSetup(p);
    }

    /** The setups with one more. */
    ghost method AddSetup(p: PendingSubscription)
      requires phases.Keys == pendings.Keys && p.record.id !in pendings && !p.cancelled
      modifies this`pendings, this`phases, this`activated
      ensures phases.Keys == pendings.Keys && pendings == old(pendings)[p.record.id := p]
      ensures Setups() == old(Setups())[p.record.id := Setup(p.record, false, Connecting, false)]
    {
      var id := p.record.id;
      pendings := pendings[id := p];
      phases := phases[id := Connecting];
      activated := activated - {id};
    }

    ghost predicate Owns(p: PendingSubscription)
      reads this
    {
      p.record.id in pendings && pendings[p.record.id] == p
    }

    /** Whether the table still holds this very pending object. */
    predicate IsCurrent(p: PendingSubscription)
      reads this`subscriptionsById
    {
      p.record.id in subscriptionsById && subscriptionsById[p.record.id] == PendingEntry(p)
    }

    lemma CurrentIsPending(p: PendingSubscription)
      requires Valid() && Owns(p)
      ensures IsCurrent(p) == StillPending(State(), p.record.id)
    {
      if p.record.id in subscriptionsById { assert Tracked(p.record.id, subscriptionsById[p.record.id]); }
    }

    ghost method EnterPhase(p: PendingSubscription, phase: Phase)
      requires Valid() && Owns(p)
      modifies this`phases
      ensures Valid() && State() == SetPhase(old(State()), p.record.id, phase)
    {
      phases := phases[p.record.id := phase];
      assert Setups() == old(Setups())[p.record.id := old(Setups())[p.record.id].(phase := phase)];
    }

    ghost method PublishEvent(e: Event, ok: bool)
      requires Valid()
      modifies this`events
      ensures Valid() && State() == Publish(old(State()), e, ok)
    {
      if ok { events := events + [e]; }
    }

    ghost method CallStop(d: DeviceId)
      requires Valid()
      modifies this`devices
      ensures Valid() && State() == StopDevice(old(State()), d)
    {
      if d in devices { devices := devices[d := devices[d].(stops := devices[d].stops + 1)]; }
    }

    /** The catch block of a setup. */
    method FailSetup(p: PendingSubscription, ghost published: bool)
      requires Valid() && Owns(p)
      requires phases[p.record.id].Connecting? || phases[p.record.id].Announcing?
      modifies this
      ensures Valid() && State() == Catch(old(State()), p.record.id, published)
      ensures Objects() == old(Objects())
    {
      SetupOf(p);
      var cancelled := p.cancelled;
      ForgetIfCurrent(p);
      EnterPhase(p, Finished);
      if cancelled {
        return;
      }
      PublishEvent(Failed(p.record.id), published);
    }

    lemma SetupOf(p: PendingSubscription)
      requires Valid() && Owns(p)
      ensures p.record.id in State().setups
      ensures State().setups[p.record.id].record == p.record && State().setups[p.record.id].cancelled == p.cancelled
    {
    }

    method ForgetIfCurrent(p: PendingSubscription)
      requires Valid() && Owns(p)
      modifies this`subscriptionsById, this`subscriptionsByKey
      ensures Valid()
      ensures State() == if StillPending(old(State()), p.record.id) then Forget(old(State()), p.record.id) else old(State())
    {
      CurrentIsPending(p);
      var current := IsCurrent(p);
      if current {
        var _ := ForgetSubscription(p.record.id);
      }
    }

    /** The device answers while the setup waits for it. */
    ghost method DeviceAnswers(p: PendingSubscription, d: DeviceId)
      requires Valid() && Owns(p) && phases[p.record.id].Connecting? && d !in devices
      modifies this`devices, this`phases
      ensures Valid() && State() == Step(timeoutMs, old(State()), DeviceOpens(p.record.id, d))
    {
      devices := devices[d := Device(p.record.id, 0)];
      EnterPhase(p, Opened(d));
    }

    /** The setup resumes with the device subscription it waited for: it is stopped if
        the pending record has left the table, and becomes the active one otherwise. */
    method ResumeSetup(p: PendingSubscription, subscription: DeviceId)
      requires Valid() && Owns(p) && phases[p.record.id] == Opened(subscription)
      modifies this
      ensures Valid() && State() == Resume(old(State()), p.record.id, subscription)
      ensures Objects() == old(Objects())
    {
      SetupOf(p);
      CurrentIsPending(p);
      var current := IsCurrent(p);
      if !current || p.cancelled {
        StopUnwanted(p, subscription, current);
        return;
      }
      PromotePending(p, subscription);
    }

    method StopUnwanted(p: PendingSubscription, subscription: DeviceId, current: bool)
      requires Valid() && Owns(p)
      modifies this`devices, this`phases
      ensures Valid()
      ensures State() == SetPhase(StopDevice(old(State()), subscription), p.record.id, Stopping(current))
    {
      CallStop(subscription);
      EnterPhase(p, Stopping(current));
    }

    /** A new active record replaces the pending one. */
    method PromotePending(p: PendingSubscription, subscription: DeviceId)
      requires Valid() && Owns(p)
      modifies this
      ensures Valid() && pendings == old(pendings)
      ensures State() == Promote(old(State()), p.record.id, subscription)
    {
      SetupOf(p);
      RememberActive(p.record.(status := Active(subscription)));
      Activate(p);
    }

    ghost method Activate(p: PendingSubscription)
      requires Valid() && Owns(p)
      modifies this`phases, this`activated
      ensures Valid()
      ensures var s := old(State()); var id := p.record.id;
        State() == s.(setups := s.setups[id := s.setups[id].(phase := Announcing, activated := true)])
    {
      activated := activated + {p.record.id};
      phases := phases[p.record.id := Announcing];
      var id := p.record.id;
      assert Setups() == old(Setups())[id := old(Setups())[id].(phase := Announcing, activated := true)];
    }

    method Cancel(p: PendingSubscription)
      requires Valid() && Owns(p)
      modifies p
      ensures Valid()
      ensures var s := old(State()); var id := p.record.id;
        State() == s.(setups := s.setups[id := s.setups[id].(cancelled := true)])
    {
      p.cancelled := true;
      var id := p.record.id;
      assert Setups() == old(Setups())[id := old(Setups())[id].(cancelled := true)];
    }

    /** `stop` on an unwanted device subscription has settled. */
    method StopSettled(p: PendingSubscription, current: bool)
      requires Valid() && Owns(p) && phases[p.record.id] == Stopping(current)
      modifies this
      ensures Valid() && State() == Step(timeoutMs, old(State()), StopSettles(p.record.id))
      ensures Objects() == old(Objects())
    {
      if current {
        var _ := ForgetSubscription(p.record.id);
      }
      EnterPhase(p, Finished);
    }

    /** Publishing `subscription_started` has settled. */
    method AnnounceSettled(p: PendingSubscription, ok: bool, ghost published: bool)
      requires Valid() && Owns(p) && phases[p.record.id].Announcing?
      modifies this
      ensures Valid() && State() == Step(timeoutMs, old(State()), AnnounceSettles(p.record.id, ok, published))
      ensures Objects() == old(Objects())
    {
      if ok {
        EnterPhase(p, Finished);
        PublishEvent(Started(p.record.id), true);
      } else {
        FailSetup(p, published);
      }
    }

    /** Removes a subscription: a pending one is cancelled, an active one is stopped. */
    method RemoveSubscription(id: Id) returns (removed: bool)
      requires Valid()
      modifies this, Objects()
      ensures Valid() && (State(), removed) == Remove(old(State()), id)
      ensures Objects() == old(Objects())
    {
      ghost var s0 := State();
      var entry := ForgetSubscription(id);
      assert entry.Some? ==> s0.byId[id] == RecordOf(entry.value);
      if entry.None? {
        return false;
      }
      removed := true;
      match entry.value {
        case PendingEntry(p) =>
          Cancel(p);
        case ActiveEntry(r) =>
          CallStop(r.status.device);
          teardowns := teardowns[id := Teardown(false)];
      }
    }

    method StopEntry(id: Id, entry: Entry)
      requires Valid() && Tracked(id, entry)
      modifies this`devices, this`teardowns, Objects()
      ensures Valid()
      ensures RecordOf(entry).status.Pending? ==> id in old(State()).setups
      ensures State() == Stopped1(old(State()), id, RecordOf(entry).status)
    {
      match entry {
        case PendingEntry(p) =>
          Cancel(p);
        case ActiveEntry(r) =>
          CallStop(r.status.device);
          teardowns := teardowns[id := Teardown(true)];
      }
    }

    ghost predicate ToStop(s: State, id: Id, e: Entry)
      reads this`pendings
    {
      Tracked(id, e) && Stoppable(s, id) && s.byId[id] == RecordOf(e)
    }

    method StopEach(records: map<Id, Entry>, ghost s0: State)
      requires Valid() && State() == StoppedSoFar(s0, {})
      requires forall id :: id in records ==> ToStop(s0, id, records[id])
      modifies this`devices, this`teardowns, Objects()
      ensures Valid() && State() == StoppedSoFar(s0, records.Keys)
    {
      var todo := records.Keys;
      ghost var done: set<Id> := {};
      while todo != {}
        invariant Partition(records.Keys, done, todo)
        invariant Valid() && State() == StoppedSoFar(s0, done)
        decreases todo
      {
        var id :| id in todo;
        Advance(records.Keys, done, todo, id);
        StopsNext(s0, done, id);
        assert ToStop(s0, id, records[id]);
        StopEntry(id, records[id]);
        done, todo := done + {id}, todo - {id};
      }
      assert done == records.Keys;
    }

    /** Takes everything out of the table, cancels what is pending and stops what is
        active. */
    method StopAllSubscriptions()
      requires Valid() && Inv(timeoutMs, State())
      modifies this, Objects()
      ensures Valid() && State() == StopAll(old(State()))
    {
      ghost var s0 := State();
      var records := TakeAll();
      StopEach(records, s0);
      StopEverything(s0);
    }

    lemma AllToStop()
      requires Valid() && Inv(timeoutMs, State())
      ensures forall id :: id in subscriptionsById ==> ToStop(State(), id, subscriptionsById[id])
    {
    }

    method TakeAll() returns (records: map<Id, Entry>)
      requires Valid() && Inv(timeoutMs, State())
      modifies this`subscriptionsById, this`subscriptionsByKey
      ensures Valid() && State() == StoppedSoFar(old(State()), {})
      ensures records.Keys == old(State()).byId.Keys
      ensures forall id :: id in records ==> ToStop(old(State()), id, records[id])
    {
      AllToStop();
      StopNothing(State());
      records := subscriptionsById;
      subscriptionsById, subscriptionsByKey := map[], map[];
      assert Table() == map[];
    }
  }

  ghost predicate Partition(all: set<Id>, done: set<Id>, todo: set<Id>) {
    done + todo == all && done !! todo
  }

  lemma Advance(all: set<Id>, done: set<Id>, todo: set<Id>, id: Id)
    requires Partition(all, done, todo) && id in todo
    ensures Partition(all, done + {id}, todo - {id}) && id in all && id !in done
  {
  }

  lemma StopsNext(s: State, done: set<Id>, id: Id)
    requires Stoppable(s, id) && id !in done
    ensures s.byId[id].status.Pending? ==> id in StoppedSoFar(s, done).setups
    ensures StoppedSoFar(s, done + {id}) == Stopped1(StoppedSoFar(s, done), id, s.byId[id].status)
  {
    match s.byId[id].status
    case Pending => CancelOneMore(s, done, id);
    case Active(d) => StopOneMore(s, done, id, d);
  }

  /** Stop-all after it has dealt with the records of `done`. */
  ghost function StoppedSoFar(s: State, done: set<Id>): State {
    s.(byId := map[], byKey := map[],
       setups := map id | id in s.setups ::
         if id in done && StillPending(s, id) then s.setups[id].(cancelled := true) else s.setups[id],
       devices := map d | d in s.devices ::
         if s.devices[d].owner in done && HeldBy(s, s.devices[d].owner, d) then s.devices[d].(stops := s.devices[d].stops + 1)
         else s.devices[d],
       teardowns := map id | id in s.teardowns.Keys + s.byId.Keys && (id in s.teardowns || (id in done && s.byId[id].status.Active?)) ::
         if id in done && id in s.byId && s.byId[id].status.Active? then Teardown(true) else s.teardowns[id])
  }

  lemma StopNothing(s: State)
    ensures StoppedSoFar(s, {}) == s.(byId := map[], byKey := map[])
  {
    var s' := StoppedSoFar(s, {});
    assert s'.setups == s.setups && s'.devices == s.devices && s'.teardowns == s.teardowns;
  }

  lemma StopEverything(s: State)
    ensures StoppedSoFar(s, s.byId.Keys) == StopAll(s)
  {
    var x, y := StoppedSoFar(s, s.byId.Keys), StopAll(s);
    assert x.setups == y.setups && x.devices == y.devices && x.teardowns == y.teardowns;
  }

  /** What stop-all does about one record. */
  ghost function Stopped1(s: State, id: Id, status: Status): State
    requires status.Pending? ==> id in s.setups
  {
    match status
    case Pending => s.(setups := s.setups[id := s.setups[id].(cancelled := true)])
    case Active(d) => StopDevice(s, d).(teardowns := s.teardowns[id := Teardown(true)])
  }

  ghost predicate Stoppable(s: State, id: Id) {
    && id in s.byId && id in s.setups
    && (s.byId[id].status.Active? ==>
          s.byId[id].status.device in s.devices && s.devices[s.byId[id].status.device].owner == id)
  }

  lemma CancelOneMore(s: State, done: set<Id>, id: Id)
    requires id in s.byId && id in s.setups && id !in done && s.byId[id].status.Pending?
    ensures StoppedSoFar(s, done + {id}) == Stopped1(StoppedSoFar(s, done), id, Pending)
  {
    var x, y := StoppedSoFar(s, done), StoppedSoFar(s, done + {id});
    assert y.setups == x.setups[id := x.setups[id].(cancelled := true)];
    assert y.devices == x.devices;
    assert y.teardowns == x.teardowns;
  }

  lemma StopOneMore(s: State, done: set<Id>, id: Id, d: DeviceId)
    requires id in s.byId && id !in done && s.byId[id].status == Active(d)
    requires d in s.devices && s.devices[d].owner == id
    ensures StoppedSoFar(s, done + {id}) == Stopped1(StoppedSoFar(s, done), id, Active(d))
  {
    var x, y := StoppedSoFar(s, done), StoppedSoFar(s, done + {id});
    assert y.setups == x.setups;
    assert y.devices == StopDevice(x, d).devices;
    assert y.teardowns == x.teardowns[id := Teardown(true)];
  }
}
