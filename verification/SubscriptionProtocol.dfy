/** The subscription table of the WoT runtime as a transition system.

    One action is the code between two awaits.  Ensure, the stages of an asynchronous
    setup, remove and stop-all interleave in any order.  Every device subscription
    ever opened is recorded together with how often `stop` was called on it. */
module SubscriptionProtocol {
  import opened JsonText
  import opened StableKey

  /** What an ensure request asks for, under its subscription key. */
  datatype Target = Target(key: Text, thingId: Text, name: Text, operation: Operation)

  function TargetOf(r: Request): Target {
    Target(BuildSubscriptionKey(r), r.thingId, r.name, r.operation)
  }

  type Id = nat
  type DeviceId = nat

  datatype Status = Pending | Active(device: DeviceId)

  datatype Record = Record(id: Id, key: Text, thingId: Text, name: Text, operation: Operation, status: Status)

  /** Where the setup of a subscription is waiting.
      Connecting: fetching, consuming, or waiting for the device to answer.
      Opened: the device has opened a subscription, the setup has not resumed yet.
      Stopping: `stop` was called on a subscription nobody wants; `forget` remembers
      whether the record was still the pending one when that was decided.
      Announcing: the record is active and `subscription_started` is being published.
      TimedOut: the wait was given up, the device may still answer. */
  datatype Phase = Connecting | Opened(device: DeviceId) | Stopping(forget: bool) | Announcing | TimedOut | Finished

  /** The setup of one subscription and the pending record it closes over. */
  datatype Setup = Setup(record: Record, cancelled: bool, phase: Phase, activated: bool)

  datatype Device = Device(owner: Id, stops: nat)

  /** Taking down an active record: waiting for `stop`, then publishing.  Only
      stop-all publishes when `stop` failed. */
  datatype Teardown = Teardown(evenIfStopFails: bool)

  datatype Event = Started(id: Id) | Failed(id: Id) | Stopped(id: Id)

  datatype State = State(
    byId: map<Id, Record>,
    byKey: map<Text, Id>,
    setups: map<Id, Setup>,
    devices: map<DeviceId, Device>,
    teardowns: map<Id, Teardown>,
    events: seq<Event>)

  const INITIAL := State(map[], map[], map[], map[], map[], [])

  datatype Response = Response(id: Id, created: bool, status: Status) | InvalidArgument

  // ------------------------------------------------------------- table updates

  function Remember(s: State, r: Record): State {
    s.(byId := s.byId[r.id := r], byKey := s.byKey[r.key := r.id])
  }

  function Forget(s: State, id: Id): State {
    if id !in s.byId then s
    else
      var key := s.byId[id].key;
      s.(byId := s.byId - {id},
         byKey := if key in s.byKey && s.byKey[key] == id then s.byKey - {key} else s.byKey)
  }

  /** The record found under `id` is the very pending record of its setup. */
  predicate StillPending(s: State, id: Id) {
    id in s.byId && s.byId[id].status.Pending?
  }

  function StopDevice(s: State, d: DeviceId): State {
    if d in s.devices then s.(devices := s.devices[d := s.devices[d].(stops := s.devices[d].stops + 1)]) else s
  }

  function SetPhase(s: State, id: Id, p: Phase): State
    requires id in s.setups
  {
    s.(setups := s.setups[id := s.setups[id].(phase := p)])
  }

  function Publish(s: State, e: Event, ok: bool): State {
    if ok then s.(events := s.events + [e]) else s
  }

  // ------------------------------------------------------------------- actions

  function GetExisting(s: State, key: Text): (id: Id)
    requires key in s.byKey && s.byKey[key] in s.byId
  {
    s.byKey[key]
  }

  predicate Exists(s: State, key: Text) {
    key in s.byKey && s.byKey[key] in s.byId
  }

  function Ensure(s: State, r: Target, newId: Id): (State, Response) {
    if r.thingId == [] || r.name == [] then (s, InvalidArgument)
    else
      if Exists(s, r.key) then (s, Response(GetExisting(s, r.key), false, s.byId[GetExisting(s, r.key)].status))
      else
        var pending := Record(newId, r.key, r.thingId, r.name, r.operation, Pending);
        (Remember(s, pending).(setups := s.setups[newId := Setup(pending, false, Connecting, false)]),
         Response(newId, true, Pending))
  }

  /** The setup gives up: its record is forgotten if it is still the pending one. */
  function GiveUp(s: State, id: Id): State
    requires id in s.setups
  {
    SetPhase(if StillPending(s, id) then Forget(s, id) else s, id, Finished)
  }

  /** The catch block of a setup. */
  function Catch(s: State, id: Id, published: bool): State
    requires id in s.setups
  {
    Publish(GiveUp(s, id), Failed(id), published && !s.setups[id].cancelled)
  }

  /** The setup resumes with the device subscription it waited for. */
  function Resume(s: State, id: Id, d: DeviceId): State
    requires id in s.setups
  {
    if !StillPending(s, id) || s.setups[id].cancelled then
      SetPhase(StopDevice(s, d), id, Stopping(StillPending(s, id)))
    else Promote(s, id, d)
  }

  /** A new active record replaces the pending one. */
  function Promote(s: State, id: Id, d: DeviceId): State
    requires id in s.setups
  {
    Remember(s, s.setups[id].record.(status := Active(d))).(
      setups := s.setups[id := s.setups[id].(phase := Announcing, activated := true)])
  }

  function Remove(s: State, id: Id): (State, bool) {
    if id !in s.byId then (s, false)
    else
      var s1 := Forget(s, id);
      match s.byId[id].status
      case Pending =>
        (if id in s.setups then s1.(setups := s.setups[id := s.setups[id].(cancelled := true)]) else s1, true)
      case Active(d) => (StopDevice(s1, d).(teardowns := s.teardowns[id := Teardown(false)]), true)
  }

  /** Stop-all takes every record out of the table at once, cancels the pending ones
      and calls `stop` on the device subscription of every active one. */
  function StopAll(s: State): State {
    s.(byId := map[], byKey := map[],
       setups := map id | id in s.setups :: if StillPending(s, id) then s.setups[id].(cancelled := true) else s.setups[id],
       devices := map d | d in s.devices ::
         if HeldBy(s, s.devices[d].owner, d) then s.devices[d].(stops := s.devices[d].stops + 1) else s.devices[d],
       teardowns := map id | id in s.teardowns.Keys + s.byId.Keys && (id in s.teardowns || s.byId[id].status.Active?) ::
         if id in s.byId && s.byId[id].status.Active? then Teardown(true) else s.teardowns[id])
  }

  /** The record of `id` is active and holds device subscription `d`. */
  predicate HeldBy(s: State, id: Id, d: DeviceId) {
    id in s.byId && s.byId[id].status == Active(d)
  }

  datatype Action =
    | DoEnsure(target: Target, newId: Id)
    | SetupFails(id: Id, published: bool)
    | SetupTimesOut(id: Id, published: bool)
    | DeviceOpens(id: Id, device: DeviceId)
    | SetupResumes(id: Id)
    | StopSettles(id: Id)
    | AnnounceSettles(id: Id, ok: bool, published: bool)
    | DoRemove(id: Id)
    | DoStopAll
    | TeardownSettles(id: Id, stopOk: bool, published: bool)

  /** When an action can happen.  A wait can only time out when a timeout is set. */
  predicate Enabled(timeoutMs: int, s: State, a: Action) {
    match a
    case DoEnsure(r, newId) => newId !in s.setups
    case SetupFails(id, _) => id in s.setups && s.setups[id].phase.Connecting?
    case SetupTimesOut(id, _) => timeoutMs > 0 && id in s.setups && s.setups[id].phase.Connecting?
    case DeviceOpens(id, d) =>
      d !in s.devices && id in s.setups && (s.setups[id].phase.Connecting? || s.setups[id].phase.TimedOut?)
    case SetupResumes(id) => id in s.setups && s.setups[id].phase.Opened?
    case StopSettles(id) => id in s.setups && s.setups[id].phase.Stopping?
    case AnnounceSettles(id, _, _) => id in s.setups && s.setups[id].phase.Announcing?
    case DoRemove(id) => true
    case DoStopAll => true
    case TeardownSettles(id, _, _) => id in s.teardowns
  }

  function Step(timeoutMs: int, s: State, a: Action): State {
    if !Enabled(timeoutMs, s, a) then s
    else
      match a
      case DoEnsure(r, newId) => Ensure(s, r, newId).0
      case SetupFails(id, published) => Catch(s, id, published)
      case SetupTimesOut(id, published) => SetPhase(Catch(s, id, published), id, TimedOut)
      case DeviceOpens(id, d) =>
        // A late device subscription reaches nobody: its setup has already ended.
        SetPhase(s.(devices := s.devices[d := Device(id, 0)]), id,
                 if s.setups[id].phase.TimedOut? then Finished else Opened(d))
      case SetupResumes(id) => Resume(s, id, s.setups[id].phase.device)
      case StopSettles(id) => SetPhase(if s.setups[id].phase.forget then Forget(s, id) else s, id, Finished)
      case AnnounceSettles(id, ok, published) =>
        if ok then Publish(SetPhase(s, id, Finished), Started(id), true) else Catch(s, id, published)
      case DoRemove(id) => Remove(s, id).0
      case DoStopAll => StopAll(s)
      case TeardownSettles(id, stopOk, published) =>
        Publish(s.(teardowns := s.teardowns - {id}), Stopped(id),
                published && (stopOk || s.teardowns[id].evenIfStopFails))
  }

  function Run(timeoutMs: int, s: State, actions: seq<Action>): State
    decreases actions
  {
    if actions == [] then s else Run(timeoutMs, Step(timeoutMs, s, actions[0]), actions[1..])
  }

  // ----------------------------------------------------------------- invariant

  /** The two maps are in bijection. */
  ghost predicate IndexAgreement(byId: map<Id, Record>, byKey: map<Text, Id>) {
    && (forall id :: id in byId ==> byId[id].id == id && byId[id].key in byKey && byKey[byId[id].key] == id)
    && (forall k :: k in byKey ==> byKey[k] in byId && byId[byKey[k]].key == k)
  }

  /** A record in the table belongs to a live setup in the matching phase. */
  ghost predicate RecordOk(r: Record, u: Setup) {
    && r.key == u.record.key && r.thingId == u.record.thingId && r.name == u.record.name
    && r.operation == u.record.operation
    && !u.cancelled
    && (r.status.Pending? ==> (u.phase.Connecting? || u.phase.Opened?) && !u.activated)
    && (r.status.Active? ==> (u.phase.Announcing? || u.phase.Finished?) && u.activated)
  }

  ghost predicate RecordsMatchSetups(s: State) {
    forall id :: id in s.byId ==> id in s.setups && RecordOk(s.byId[id], s.setups[id])
  }

  /** A setup outside the table is finished, winding down, or cancelled. */
  ghost predicate SetupOk(timeoutMs: int, id: Id, u: Setup, stillPending: bool) {
    && u.record.id == id
    && u.record.status == Pending
    && (u.phase.Connecting? || u.phase.Opened? ==> !u.activated && (u.cancelled || stillPending))
    && (u.phase.Stopping? ==> !u.phase.forget && u.cancelled && !u.activated)
    && (u.phase.Announcing? ==> u.activated && !u.cancelled)
    && (u.phase.TimedOut? ==> timeoutMs > 0 && !u.activated)
  }

  ghost predicate SetupsMatchRecords(timeoutMs: int, s: State) {
    forall id :: id in s.setups ==> SetupOk(timeoutMs, id, s.setups[id], StillPending(s, id))
  }

  /** An active record, and a setup about to resume, hold a running device subscription. */
  ghost predicate HoldersHaveDevices(s: State) {
    && (forall id :: id in s.byId && s.byId[id].status.Active? ==>
          s.byId[id].status.device in s.devices && s.devices[s.byId[id].status.device] == Device(id, 0))
    && (forall id :: id in s.setups && s.setups[id].phase.Opened? ==>
          s.setups[id].phase.device in s.devices && s.devices[s.setups[id].phase.device] == Device(id, 0))
  }

  /** `stop` is called at most once on a device subscription, and until then the
      subscription is in the hands of its setup or of an active record. */
  ghost predicate DevicesAccounted(timeoutMs: int, s: State) {
    forall d :: d in s.devices ==>
      && s.devices[d].owner in s.setups
      && s.devices[d].stops <= 1
      && (s.devices[d].stops == 0 ==>
            timeoutMs > 0 || s.setups[s.devices[d].owner].phase == Opened(d) || HeldBy(s, s.devices[d].owner, d))
  }

  ghost predicate TeardownsAccounted(s: State) {
    && (forall id :: id in s.teardowns ==> id !in s.byId && id in s.setups && s.setups[id].activated)
    && (forall i :: 0 <= i < |s.events| && s.events[i].Stopped? ==>
          s.events[i].id !in s.byId && s.events[i].id !in s.teardowns
          && s.events[i].id in s.setups && s.setups[s.events[i].id].activated)
    && (forall i, j :: 0 <= i < j < |s.events| && s.events[i].Stopped? ==> s.events[i] != s.events[j])
  }

  /** The two indexes and the setups agree. */
  ghost predicate TableInv(timeoutMs: int, s: State) {
    IndexAgreement(s.byId, s.byKey) && RecordsMatchSetups(s) && SetupsMatchRecords(timeoutMs, s)
  }

  /** Device subscriptions and events are accounted for. */
  ghost predicate WorldInv(timeoutMs: int, s: State) {
    HoldersHaveDevices(s) && DevicesAccounted(timeoutMs, s) && TeardownsAccounted(s)
  }

  ghost predicate Inv(timeoutMs: int, s: State) {
    TableInv(timeoutMs, s) && WorldInv(timeoutMs, s)
  }

  lemma ForgetAgrees(s: State, id: Id)
    requires IndexAgreement(s.byId, s.byKey)
    ensures IndexAgreement(Forget(s, id).byId, Forget(s, id).byKey)
  {
  }

  lemma RememberAgrees(s: State, r: Record)
    requires IndexAgreement(s.byId, s.byKey)
    requires r.id in s.byId ==> s.byId[r.id].key == r.key
    requires r.id !in s.byId ==> r.key !in s.byKey
    ensures IndexAgreement(Remember(s, r).byId, Remember(s, r).byKey)
  {
  }

  lemma EnsureKeepsSetups(t: int, s: State, r: Target, newId: Id)
    requires Inv(t, s) && newId !in s.setups
    ensures SetupsMatchRecords(t, Ensure(s, r, newId).0)
  {
  }

  lemma EnsureKeepsTable(t: int, s: State, r: Target, newId: Id)
    requires Inv(t, s)
    requires newId !in s.setups
    ensures TableInv(t, Ensure(s, r, newId).0)
  {
    EnsureKeepsSetups(t, s, r, newId);
    EnsureKeepsIndex(t, s, r, newId);
  }

  lemma EnsureKeepsIndex(t: int, s: State, r: Target, newId: Id)
    requires Inv(t, s) && newId !in s.setups
    ensures IndexAgreement(Ensure(s, r, newId).0.byId, Ensure(s, r, newId).0.byKey)
  {
    if r.thingId != [] && r.name != [] && !Exists(s, r.key) {
      RememberAgrees(s, Record(newId, r.key, r.thingId, r.name, r.operation, Pending));
    }
  }

  lemma EnsureKeepsEvents(t: int, s: State, r: Target, newId: Id)
    requires Inv(t, s) && newId !in s.setups
    ensures TeardownsAccounted(Ensure(s, r, newId).0)
  {
  }

  lemma EnsureKeepsWorld(t: int, s: State, r: Target, newId: Id)
    requires Inv(t, s)
    requires newId !in s.setups
    ensures WorldInv(t, Ensure(s, r, newId).0)
  {
    EnsureKeepsEvents(t, s, r, newId);
  }

  lemma EnsureKeepsInv(t: int, s: State, r: Target, newId: Id)
    requires Inv(t, s)
    requires newId !in s.setups
    ensures Inv(t, Ensure(s, r, newId).0)
  {
    EnsureKeepsTable(t, s, r, newId);
    EnsureKeepsWorld(t, s, r, newId);
  }

  lemma GiveUpKeepsSetups(t: int, s: State, id: Id)
    requires Inv(t, s)
    requires id in s.setups && (s.setups[id].phase.Connecting? || s.setups[id].phase.Announcing?)
    ensures SetupsMatchRecords(t, GiveUp(s, id))
  {
  }

  lemma GiveUpKeepsTable(t: int, s: State, id: Id)
    requires Inv(t, s)
    requires id in s.setups && (s.setups[id].phase.Connecting? || s.setups[id].phase.Announcing?)
    ensures TableInv(t, GiveUp(s, id))
  {
    GiveUpKeepsSetups(t, s, id);
    ForgetAgrees(s, id);
  }

  lemma GiveUpKeepsEvents(t: int, s: State, id: Id)
    requires Inv(t, s)
    requires id in s.setups && (s.setups[id].phase.Connecting? || s.setups[id].phase.Announcing?)
    ensures TeardownsAccounted(GiveUp(s, id))
  {
  }

  lemma GiveUpKeepsWorld(t: int, s: State, id: Id)
    requires Inv(t, s)
    requires id in s.setups && (s.setups[id].phase.Connecting? || s.setups[id].phase.Announcing?)
    ensures WorldInv(t, GiveUp(s, id))
  {
    GiveUpKeepsEvents(t, s, id);
  }

  lemma GiveUpKeepsInv(t: int, s: State, id: Id)
    requires Inv(t, s)
    requires id in s.setups && (s.setups[id].phase.Connecting? || s.setups[id].phase.Announcing?)
    ensures Inv(t, GiveUp(s, id))
  {
    GiveUpKeepsTable(t, s, id);
    GiveUpKeepsWorld(t, s, id);
  }

  lemma CatchKeepsInv(t: int, s: State, id: Id, published: bool)
    requires Inv(t, s)
    requires id in s.setups && (s.setups[id].phase.Connecting? || s.setups[id].phase.Announcing?)
    ensures Inv(t, Catch(s, id, published))
  {
    GiveUpKeepsInv(t, s, id);
    PublishKeepsInv(t, GiveUp(s, id), Failed(id), published && !s.setups[id].cancelled);
  }

  lemma DeviceOpensKeepsTable(t: int, s: State, id: Id, d: DeviceId)
    requires Inv(t, s)
    requires Enabled(t, s, DeviceOpens(id, d))
    ensures TableInv(t, Step(t, s, DeviceOpens(id, d)))
  {
  }

  lemma DeviceOpensKeepsWorld(t: int, s: State, id: Id, d: DeviceId)
    requires Inv(t, s)
    requires Enabled(t, s, DeviceOpens(id, d))
    ensures WorldInv(t, Step(t, s, DeviceOpens(id, d)))
  {
  }

  lemma DeviceOpensKeepsInv(t: int, s: State, id: Id, d: DeviceId)
    requires Inv(t, s)
    requires Enabled(t, s, DeviceOpens(id, d))
    ensures Inv(t, Step(t, s, DeviceOpens(id, d)))
  {
    DeviceOpensKeepsTable(t, s, id, d);
    DeviceOpensKeepsWorld(t, s, id, d);
  }

  lemma ResumeKeepsTable(t: int, s: State, id: Id)
    requires Inv(t, s)
    requires id in s.setups && s.setups[id].phase.Opened?
    ensures TableInv(t, Resume(s, id, s.setups[id].phase.device))
  {
    if StillPending(s, id) {
      RememberAgrees(s, s.setups[id].record.(status := Active(s.setups[id].phase.device)));
    }
  }

  lemma ResumeKeepsWorld(t: int, s: State, id: Id)
    requires Inv(t, s)
    requires id in s.setups && s.setups[id].phase.Opened?
    ensures WorldInv(t, Resume(s, id, s.setups[id].phase.device))
  {
    ResumeKeepsDevices(t, s, id);
  }

  lemma ResumeKeepsDevices(t: int, s: State, id: Id)
    requires Inv(t, s)
    requires id in s.setups && s.setups[id].phase.Opened?
    ensures DevicesAccounted(t, Resume(s, id, s.setups[id].phase.device))
  {
  }

  lemma ResumeKeepsInv(t: int, s: State, id: Id)
    requires Inv(t, s)
    requires id in s.setups && s.setups[id].phase.Opened?
    ensures Inv(t, Resume(s, id, s.setups[id].phase.device))
  {
    ResumeKeepsTable(t, s, id);
    ResumeKeepsWorld(t, s, id);
  }

  lemma RemoveKeepsTable(t: int, s: State, id: Id)
    requires Inv(t, s)
    ensures TableInv(t, Remove(s, id).0)
  {
    ForgetAgrees(s, id);
  }

  lemma RemoveKeepsEvents(t: int, s: State, id: Id)
    requires Inv(t, s)
    ensures TeardownsAccounted(Remove(s, id).0)
  {
  }

  lemma RemoveKeepsWorld(t: int, s: State, id: Id)
    requires Inv(t, s)
    ensures WorldInv(t, Remove(s, id).0)
  {
    RemoveKeepsEvents(t, s, id);
    RemoveKeepsDevices(t, s, id);
  }

  lemma RemoveKeepsDevices(t: int, s: State, id: Id)
    requires Inv(t, s)
    ensures DevicesAccounted(t, Remove(s, id).0)
  {
    var s' := Remove(s, id).0;
    forall d | d in s'.devices
      ensures s'.devices[d].owner in s'.setups && s'.devices[d].stops <= 1
      ensures s'.devices[d].stops == 0 ==>
        t > 0 || s'.setups[s'.devices[d].owner].phase == Opened(d) || HeldBy(s', s'.devices[d].owner, d)
    {
      RemoveKeepsDevice(t, s, id, d);
    }
  }

  lemma RemoveKeepsInv(t: int, s: State, id: Id)
    requires Inv(t, s)
    ensures Inv(t, Remove(s, id).0)
  {
    RemoveKeepsTable(t, s, id);
    RemoveKeepsWorld(t, s, id);
  }

  lemma RemoveKeepsDevice(t: int, s: State, id: Id, d: DeviceId)
    requires Inv(t, s) && d in s.devices
    ensures var s' := Remove(s, id).0;
      && d in s'.devices && s'.devices[d].owner in s'.setups && s'.devices[d].stops <= 1
      && (s'.devices[d].stops == 0 ==>
            t > 0 || s'.setups[s'.devices[d].owner].phase == Opened(d) || HeldBy(s', s'.devices[d].owner, d))
  {
  }

  lemma StopAllKeepsTable(t: int, s: State)
    requires Inv(t, s)
    ensures TableInv(t, StopAll(s))
  {
  }

  lemma StopAllKeepsEvents(t: int, s: State)
    requires Inv(t, s)
    ensures TeardownsAccounted(StopAll(s))
  {
  }

  lemma StopAllKeepsWorld(t: int, s: State)
    requires Inv(t, s)
    ensures WorldInv(t, StopAll(s))
  {
    StopAllKeepsEvents(t, s);
  }

  lemma StopAllKeepsInv(t: int, s: State)
    requires Inv(t, s)
    ensures Inv(t, StopAll(s))
  {
    StopAllKeepsTable(t, s);
    StopAllKeepsWorld(t, s);
  }

  lemma TimedOutKeepsInv(t: int, s: State, id: Id)
    requires Inv(t, s) && t > 0
    requires id in s.setups && s.setups[id].phase.Finished? && !s.setups[id].activated && id !in s.byId
    ensures Inv(t, SetPhase(s, id, TimedOut))
  {
  }

  lemma StopSettlesKeepsInv(t: int, s: State, id: Id)
    requires Inv(t, s) && Enabled(t, s, StopSettles(id))
    ensures Inv(t, SetPhase(s, id, Finished))
  {
  }

  lemma AnnouncedKeepsInv(t: int, s: State, id: Id)
    requires Inv(t, s) && id in s.setups && s.setups[id].phase.Announcing?
    ensures Inv(t, SetPhase(s, id, Finished))
  {
  }

  lemma PublishKeepsInv(t: int, s: State, e: Event, ok: bool)
    requires Inv(t, s)
    requires e.Stopped? ==> e.id !in s.byId && e.id !in s.teardowns && e.id in s.setups && s.setups[e.id].activated
    requires e.Stopped? ==> forall i :: 0 <= i < |s.events| ==> s.events[i] != e
    ensures Inv(t, Publish(s, e, ok))
  {
  }

  lemma TeardownKeepsInv(t: int, s: State, id: Id, published: bool)
    requires Inv(t, s) && id in s.teardowns
    ensures Inv(t, Publish(s.(teardowns := s.teardowns - {id}), Stopped(id), published))
  {
    PublishKeepsInv(t, s.(teardowns := s.teardowns - {id}), Stopped(id), published);
  }

  /** Every action keeps the invariant. */
  lemma InvStep(t: int, s: State, a: Action)
    requires Inv(t, s)
    ensures Inv(t, Step(t, s, a))
  {
    if Enabled(t, s, a) {
      match a
      case DoEnsure(r, newId) => EnsureKeepsInv(t, s, r, newId);
      case SetupFails(id, published) => CatchKeepsInv(t, s, id, published);
      case SetupTimesOut(id, published) =>
        CatchKeepsInv(t, s, id, published);
        TimedOutKeepsInv(t, Catch(s, id, published), id);
      case DeviceOpens(id, d) => DeviceOpensKeepsInv(t, s, id, d);
      case SetupResumes(id) => ResumeKeepsInv(t, s, id);
      case StopSettles(id) => StopSettlesKeepsInv(t, s, id);
      case AnnounceSettles(id, ok, published) =>
        CatchKeepsInv(t, s, id, published);
        AnnouncedKeepsInv(t, s, id);
        PublishKeepsInv(t, SetPhase(s, id, Finished), Started(id), true);
      case DoRemove(id) => RemoveKeepsInv(t, s, id);
      case DoStopAll => StopAllKeepsInv(t, s);
      case TeardownSettles(id, stopOk, published) =>
        TeardownKeepsInv(t, s, id, published && (stopOk || s.teardowns[id].evenIfStopFails));
    }
  }
}
