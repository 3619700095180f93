/** What is published about a subscription, and what removing one and stopping all do. */
module SubscriptionEvents {
  import opened Options
  import opened JsonText
  import opened StableKey
  import opened SubscriptionProtocol
  import opened SubscriptionTheorems

  // ------------------------------------------------------------------------- ensure

  /** A request without a Thing or a name is refused and changes nothing; any other gets an id
      that leads to a record with its own key. */
  lemma EnsureAnswers(t: int, s: State, r: Target, newId: Id)
    requires Inv(t, s) && newId !in s.setups
    ensures var (s', response) := Ensure(s, r, newId);
      && (response.InvalidArgument? <==> |r.thingId| == 0 || |r.name| == 0)
      && (response.InvalidArgument? ==> s' == s)
      && (response.Response? ==>
           && response.id in s'.byId && s'.byId[response.id].key == r.key && s'.byId[response.id].status == response.status
           && (response.created <==> response.id !in s.byId) && (response.created ==> response.id == newId))
  {
  }

  /** What is recorded is what was requested, and the setup of the new subscription waits. */
  lemma RequestRecorded(t: int, s: State, r: Request, newId: Id)
    requires Inv(t, s) && newId !in s.setups && Ensure(s, TargetOf(r), newId).1.Response? && Ensure(s, TargetOf(r), newId).1.created
    ensures var s' := Ensure(s, TargetOf(r), newId).0;
      && newId in s'.byId && newId in s'.setups
      && s'.byId[newId] == Record(newId, BuildSubscriptionKey(r), r.thingId, r.name, r.operation, Pending)
      && s'.setups[newId].phase.Connecting? && !s'.setups[newId].cancelled && s'.events == s.events && s'.devices == s.devices
  {
  }

  // ------------------------------------------------------------- removing, stopping all

  /** Removing answers whether the id was in the table.  It leaves the table and its key is
      free; a pending setup is cancelled, and on the device subscription of an active one `stop`
      is called; nothing else changes.  Whatever happens later, removing it again answers no. */
  lemma RemovedForGood(t: int, s: State, id: Id, actions: seq<Action>)
    requires Inv(t, s)
    ensures var (s', removed) := Remove(s, id);
      && (removed <==> id in s.byId)
      && id !in s'.byId && (forall k :: k != id ==> (k in s'.byId <==> k in s.byId) && (k in s.byId ==> s'.byId[k] == s.byId[k]))
      && (id in s.byId ==> s.byId[id].key !in s'.byKey && id in s'.setups)
      && (id in s.byId && s.byId[id].status.Pending? ==> s'.setups[id].cancelled && s'.devices == s.devices)
      && (id in s.byId && s.byId[id].status.Active? ==>
           s.byId[id].status.device in s'.devices && s'.devices[s.byId[id].status.device].stops == 1 && id in s'.teardowns)
    ensures id in s.byId ==>
      var later := Run(t, Remove(s, id).0, actions); id !in later.byId && Remove(later, id) == (later, false)
  {
    if id in s.byId {
      InvStep(t, s, DoRemove(id));
      assert Step(t, s, DoRemove(id)) == Remove(s, id).0;
      NoResurrection(t, Remove(s, id).0, actions, id);
    }
  }

  /** Stop-all leaves an empty table.  Every pending setup is cancelled, and `stop` is called on
      every device subscription held. */
  lemma StopAllEmpties(t: int, s: State)
    requires Inv(t, s)
    ensures var s' := Step(t, s, DoStopAll);
      && s'.byId == map[] && s'.byKey == map[] && s'.events == s.events
      && (forall id :: id in s.byId && s.byId[id].status.Pending? ==> id in s'.setups && s'.setups[id].cancelled)
      && (forall id :: id in s.byId && s.byId[id].status.Active? ==>
           var d := s.byId[id].status.device; d in s'.devices && s'.devices[d].stops == 1 && id in s'.teardowns)
      && (forall id :: id in s.teardowns ==> id in s'.teardowns && s'.teardowns[id] == s.teardowns[id])
  {
  }

  /** A setup that waits for its device may fail at any time, and time out if a timeout is set. */
  lemma SetupsMayFail(t: int, s: State, id: Id, published: bool)
    requires id in s.setups && s.setups[id].phase.Connecting?
    ensures Enabled(t, s, SetupFails(id, published)) && (Enabled(t, s, SetupTimesOut(id, published)) <==> t > 0)
  {
  }

  lemma {:induction false} StaysEmpty(t: int, s: State, actions: seq<Action>)
    requires Inv(t, s) && s.byId == map[] && forall i :: 0 <= i < |actions| ==> !actions[i].DoEnsure?
    ensures Run(t, s, actions).byId == map[]
    decreases actions
  {
    if actions != [] {
      InvStep(t, s, actions[0]);
      NothingEnsured(t, s, actions[0]);
      StaysEmpty(t, Step(t, s, actions[0]), actions[1..]);
    }
  }

  lemma NothingEnsured(t: int, s: State, a: Action)
    requires Inv(t, s) && s.byId == map[] && !a.DoEnsure?
    ensures Step(t, s, a).byId == map[]
  {
    var s' := Step(t, s, a);
    forall id ensures id !in s'.byId {
      if id in s.setups { StepMonotone(t, s, a, id); } else { OnlyKnown(t, s, a, id); }
    }
  }

  lemma OnlyKnown(t: int, s: State, a: Action, id: Id)
    requires Inv(t, s) && !a.DoEnsure? && id !in s.setups
    ensures id !in Step(t, s, a).byId
  {
    InvStep(t, s, a);
    SameSetups(t, s, a);
  }

  lemma SameSetups(t: int, s: State, a: Action)
    requires !a.DoEnsure?
    ensures Step(t, s, a).setups.Keys == s.setups.Keys
  {
    if Enabled(t, s, a) {
      match a
      case SetupResumes(id) => ResumeSetups(s, id);
      case DoRemove(id) => RemoveSetups(s, id);
      case DoStopAll => RemoveSetups(s, 0);
      case _ =>
    }
  }

  lemma ResumeSetups(s: State, id: Id)
    requires id in s.setups && s.setups[id].phase.Opened?
    ensures Resume(s, id, s.setups[id].phase.device).setups.Keys == s.setups.Keys
  {
  }

  lemma RemoveSetups(s: State, id: Id)
    ensures Remove(s, id).0.setups.Keys == s.setups.Keys && StopAll(s).setups.Keys == s.setups.Keys
  {
  }

  /** After stop-all, as long as nobody ensures anything, the table stays empty; and without a
      setup timeout, once nothing is about to be picked up, every device subscription ever
      opened has been stopped exactly once. */
  lemma ShutdownIsFinal(t: int, before: seq<Action>, after: seq<Action>)
    requires forall i :: 0 <= i < |after| ==> !after[i].DoEnsure?
    ensures var s := Run(t, Step(t, Run(t, INITIAL, before), DoStopAll), after);
      && s.byId == map[] && s.byKey == map[]
      && (t <= 0 && Quiet(s) ==> forall d :: d in s.devices ==> s.devices[d].stops == 1)
  {
    var mid := Run(t, INITIAL, before);
    ReachableInv(t, before);
    InvStep(t, mid, DoStopAll);
    StopAllEmpties(t, mid);
    StaysEmpty(t, Step(t, mid, DoStopAll), after);
    RunKeepsInv(t, Step(t, mid, DoStopAll), after);
  }

  /** Only stop-all publishes that a subscription has stopped although `stop` failed. */
  lemma StopFailurePublished(t: int, s: State, id: Id, stopOk: bool, published: bool)
    requires Inv(t, s) && id in s.byId && s.byId[id].status.Active?
    ensures Step(t, Step(t, s, DoRemove(id)), TeardownSettles(id, stopOk, published)).events ==
      s.events + if stopOk && published then [Stopped(id)] else []
    ensures Step(t, Step(t, s, DoStopAll), TeardownSettles(id, stopOk, published)).events ==
      s.events + if published then [Stopped(id)] else []
  {
    var removed, emptied := Step(t, s, DoRemove(id)), Step(t, s, DoStopAll);
    TornDown(t, s, id);
    PublishedExactly(t, removed, TeardownSettles(id, stopOk, published));
    PublishedExactly(t, emptied, TeardownSettles(id, stopOk, published));
  }

  lemma TornDown(t: int, s: State, id: Id)
    requires Inv(t, s) && id in s.byId && s.byId[id].status.Active?
    ensures var s' := Step(t, s, DoRemove(id)); id in s'.teardowns && s'.teardowns[id] == Teardown(false) && s'.events == s.events
    ensures var s' := Step(t, s, DoStopAll); id in s'.teardowns && s'.teardowns[id] == Teardown(true) && s'.events == s.events
  {
  }

  // ------------------------------------------------------------------ what is published

  /** A setup that was cancelled publishes nothing; and only one that has ended, and became
      active, has published that it started. */
  ghost predicate Discreet(s: State) {
    forall i :: 0 <= i < |s.events| ==>
      && s.events[i].id in s.setups
      && var u := s.setups[s.events[i].id];
         && (s.events[i].Started? ==> u.activated && u.phase.Finished? && !u.cancelled)
         && (s.events[i].Failed? ==> !u.cancelled && (u.phase.Finished? || u.phase.TimedOut?))
  }

  /** What one step publishes. */
  function Published(s: State, a: Action): seq<Event> {
    match a
    case SetupFails(id, published) =>
      if published && id in s.setups && !s.setups[id].cancelled then [Failed(id)] else []
    case SetupTimesOut(id, published) =>
      if published && id in s.setups && !s.setups[id].cancelled then [Failed(id)] else []
    case AnnounceSettles(id, ok, published) =>
      if ok then [Started(id)] else if published && id in s.setups && !s.setups[id].cancelled then [Failed(id)] else []
    case TeardownSettles(id, stopOk, published) =>
      if published && id in s.teardowns && (stopOk || s.teardowns[id] == Teardown(true)) then [Stopped(id)] else []
    case _ => []
  }

  /** A setup that failed or timed out publishes its failure, one whose announcement succeeded
      its start, and a finished teardown the stop; a cancelled setup and all other steps
      publish nothing. */
  lemma PublishedExactly(t: int, s: State, a: Action)
    ensures Step(t, s, a).events == s.events + if Enabled(t, s, a) then Published(s, a) else []
  {
    assert s.events + [] == s.events;
  }

  /** How far a setup has come is never undone. */
  ghost predicate Settled(u: Setup, v: Setup) {
    && (u.activated ==> v.activated) && (u.phase.Finished? ==> v.phase.Finished?)
    && (u.phase.TimedOut? ==> v.phase.TimedOut? || v.phase.Finished?)
    && (u.phase.Finished? || u.phase.TimedOut? || u.activated ==> v.cancelled == u.cancelled)
  }

  lemma CatchSettles(t: int, s: State, other: Id, published: bool, id: Id)
    requires Inv(t, s) && id in s.setups && other in s.setups
    ensures id in Catch(s, other, published).setups && Settled(s.setups[id], Catch(s, other, published).setups[id])
  {
  }

  lemma ResumeSettles(t: int, s: State, other: Id, id: Id)
    requires Inv(t, s) && id in s.setups && Enabled(t, s, SetupResumes(other))
    ensures var s' := Step(t, s, SetupResumes(other)); id in s'.setups && Settled(s.setups[id], s'.setups[id])
  {
  }

  lemma RemoveSettles(t: int, s: State, other: Id, id: Id)
    requires Inv(t, s) && id in s.setups
    ensures id in Remove(s, other).0.setups && Settled(s.setups[id], Remove(s, other).0.setups[id])
    ensures id in StopAll(s).setups && Settled(s.setups[id], StopAll(s).setups[id])
  {
  }

  lemma StepSettles(t: int, s: State, a: Action, id: Id)
    requires Inv(t, s) && id in s.setups
    ensures id in Step(t, s, a).setups && Settled(s.setups[id], Step(t, s, a).setups[id])
  {
    if Enabled(t, s, a) {
      match a
      case SetupFails(other, published) => CatchSettles(t, s, other, published, id);
      case SetupTimesOut(other, published) => CatchSettles(t, s, other, published, id);
      case AnnounceSettles(other, _, published) => CatchSettles(t, s, other, published, id);
      case SetupResumes(other) => ResumeSettles(t, s, other, id);
      case DoRemove(other) => RemoveSettles(t, s, other, id);
      case DoStopAll => RemoveSettles(t, s, id, id);
      case DoEnsure(_, _) => EnsureSettles(t, s, a, id);
      case _ => WaitSettles(t, s, a, id);
    }
  }

  lemma EnsureSettles(t: int, s: State, a: Action, id: Id)
    requires id in s.setups && a.DoEnsure? && Enabled(t, s, a)
    ensures id in Step(t, s, a).setups && Settled(s.setups[id], Step(t, s, a).setups[id])
  {
  }

  lemma WaitSettles(t: int, s: State, a: Action, id: Id)
    requires Inv(t, s) && id in s.setups && Enabled(t, s, a) && (a.DeviceOpens? || a.StopSettles? || a.TeardownSettles?)
    ensures id in Step(t, s, a).setups && Settled(s.setups[id], Step(t, s, a).setups[id])
  {
  }

  lemma DiscreetStep(t: int, s: State, a: Action)
    requires Inv(t, s) && Discreet(s)
    ensures Discreet(Step(t, s, a))
  {
    var s' := Step(t, s, a);
    PublishedExactly(t, s, a);
    forall i | 0 <= i < |s.events|
      ensures s.events[i].id in s'.setups && Settled(s.setups[s.events[i].id], s'.setups[s.events[i].id])
    {
      StepSettles(t, s, a, s.events[i].id);
    }
    if |s'.events| > |s.events| { NewEvent(t, s, a); }
  }

  lemma NewEvent(t: int, s: State, a: Action)
    requires Inv(t, s) && Enabled(t, s, a) && Published(s, a) != []
    ensures var e, s' := Published(s, a)[0], Step(t, s, a);
      && e.id in s'.setups
      && (e.Started? ==> s'.setups[e.id].activated && s'.setups[e.id].phase.Finished? && !s'.setups[e.id].cancelled)
      && (e.Failed? ==> !s'.setups[e.id].cancelled && (s'.setups[e.id].phase.Finished? || s'.setups[e.id].phase.TimedOut?))
  {
  }

  lemma {:induction false} RunDiscreet(t: int, s: State, actions: seq<Action>)
    requires Inv(t, s) && Discreet(s)
    ensures Discreet(Run(t, s, actions))
    decreases actions
  {
    if actions != [] {
      InvStep(t, s, actions[0]);
      DiscreetStep(t, s, actions[0]);
      RunDiscreet(t, Step(t, s, actions[0]), actions[1..]);
    }
  }

  /** In every run, whatever fails: a cancelled setup has published nothing, and a start is
      published only for a subscription that became active and was announced. */
  lemma CancelledIsSilent(t: int, actions: seq<Action>, id: Id)
    ensures var s := Run(t, INITIAL, actions);
      id in s.setups ==>
        && (s.setups[id].cancelled ==> Started(id) !in s.events && Failed(id) !in s.events)
        && (Started(id) in s.events ==> s.setups[id].activated && s.setups[id].phase.Finished?)
  {
    RunDiscreet(t, INITIAL, actions);
  }

  // ----------------------------------------------------- when everything is published

  /** No publication fails, and no `stop`. */
  predicate Reliable(a: Action) {
    match a
    case SetupFails(_, published) => published
    case SetupTimesOut(_, published) => published
    case AnnounceSettles(_, ok, _) => ok
    case TeardownSettles(_, stopOk, published) => stopOk && published
    case _ => true
  }

  /** The events about one subscription say exactly how far it has come. */
  ghost predicate Told(s: State, id: Id)
    requires id in s.setups
  {
    var u := s.setups[id];
    && (Started(id) in s.events <==> u.activated && u.phase.Finished?)
    && (Failed(id) in s.events <==> !u.activated && !u.cancelled && (u.phase.Finished? || u.phase.TimedOut?))
    && (Stopped(id) in s.events <==> u.activated && id !in s.byId && id !in s.teardowns)
  }

  /** What happens to one subscription at a step about another, or that publishes nothing. */
  ghost predicate SameProgress(s: State, s': State, id: Id)
    requires id in s.setups
  {
    && id in s'.setups
    && var u, v := s.setups[id], s'.setups[id];
       && (u.activated && u.phase.Finished? <==> v.activated && v.phase.Finished?)
       && (!u.activated && !u.cancelled && (u.phase.Finished? || u.phase.TimedOut?) <==>
           !v.activated && !v.cancelled && (v.phase.Finished? || v.phase.TimedOut?))
       && (u.activated && id !in s.byId && id !in s.teardowns <==> v.activated && id !in s'.byId && id !in s'.teardowns)
  }

  lemma CatchProgress(t: int, s: State, other: Id, published: bool, id: Id)
    requires Inv(t, s) && id in s.setups && other in s.setups && other != id
    ensures SameProgress(s, Catch(s, other, published), id) && SameProgress(s, SetPhase(Catch(s, other, published), other, TimedOut), id)
  {
  }

  lemma RemoveProgress(t: int, s: State, other: Id, id: Id)
    requires Inv(t, s) && id in s.setups
    ensures SameProgress(s, Remove(s, other).0, id) && SameProgress(s, StopAll(s), id)
  {
  }

  lemma ResumeProgress(t: int, s: State, other: Id, id: Id)
    requires Inv(t, s) && id in s.setups && Enabled(t, s, SetupResumes(other))
    ensures SameProgress(s, Step(t, s, SetupResumes(other)), id)
  {
  }

  lemma QuietProgress(t: int, s: State, a: Action, id: Id)
    requires Inv(t, s) && Enabled(t, s, a) && id in s.setups
    requires a.DoEnsure? || a.DeviceOpens? || a.StopSettles?
             || ((a.AnnounceSettles? || a.TeardownSettles?) && a.id != id && Reliable(a))
    ensures SameProgress(s, Step(t, s, a), id)
  {
    if a.StopSettles? { StopProgress(t, s, a.id, id); }
  }

  lemma StopProgress(t: int, s: State, other: Id, id: Id)
    requires Inv(t, s) && Enabled(t, s, StopSettles(other)) && id in s.setups
    ensures SameProgress(s, Step(t, s, StopSettles(other)), id)
  {
  }

  lemma OtherProgress(t: int, s: State, a: Action, id: Id)
    requires Inv(t, s) && Enabled(t, s, a) && id in s.setups && Reliable(a)
    requires (a.SetupFails? || a.SetupTimesOut? || a.AnnounceSettles? || a.TeardownSettles?) ==> a.id != id
    ensures SameProgress(s, Step(t, s, a), id)
  {
    match a
    case SetupFails(other, published) => CatchProgress(t, s, other, published, id);
    case SetupTimesOut(other, published) => CatchProgress(t, s, other, published, id);
    case SetupResumes(other) => ResumeProgress(t, s, other, id);
    case DoRemove(other) => RemoveProgress(t, s, other, id);
    case DoStopAll => RemoveProgress(t, s, id, id);
    case _ => QuietProgress(t, s, a, id);
  }

  lemma OwnProgress(t: int, s: State, a: Action, id: Id)
    requires Inv(t, s) && Enabled(t, s, a) && id in s.setups && Reliable(a)
    requires (a.SetupFails? || a.SetupTimesOut? || a.AnnounceSettles? || a.TeardownSettles?) && a.id == id
    ensures id in Step(t, s, a).setups
    ensures var s' := Step(t, s, a); var u, v := s.setups[id], s'.setups[id];
      && v.activated == u.activated && v.cancelled == u.cancelled
      && (a.TeardownSettles? ==> v == u && u.activated && id !in s.byId && id in s.teardowns && id !in s'.byId && id !in s'.teardowns)
      && (a.AnnounceSettles? ==> u.activated && u.phase.Announcing? && v.phase.Finished? && s'.byId == s.byId && s'.teardowns == s.teardowns)
      && (a.SetupFails? || a.SetupTimesOut? ==> !u.activated && u.phase.Connecting? && (v.phase.Finished? || v.phase.TimedOut?))
  {
  }

  lemma ToldStep(t: int, s: State, a: Action, id: Id)
    requires Inv(t, s) && Reliable(a) && Enabled(t, s, a) && id in s.setups && Told(s, id)
    ensures id in Step(t, s, a).setups && Told(Step(t, s, a), id)
  {
    PublishedExactly(t, s, a);
    var s' := Step(t, s, a);
    if (a.SetupFails? || a.SetupTimesOut? || a.AnnounceSettles? || a.TeardownSettles?) && a.id == id {
      OwnProgress(t, s, a, id);
      OwnTold(s, a, s', id);
    } else {
      OtherProgress(t, s, a, id);
      OtherTold(s, a, s', id);
    }
  }

  lemma OwnTold(s: State, a: Action, s': State, id: Id)
    requires id in s.setups && id in s'.setups && Told(s, id) && Reliable(a) && s'.events == s.events + Published(s, a)
    requires (a.SetupFails? || a.SetupTimesOut? || a.AnnounceSettles? || a.TeardownSettles?) && a.id == id
    requires var u, v := s.setups[id], s'.setups[id];
      && v.activated == u.activated && v.cancelled == u.cancelled
      && (a.TeardownSettles? ==> v == u && u.activated && id !in s.byId && id in s.teardowns && id !in s'.byId && id !in s'.teardowns)
      && (a.AnnounceSettles? ==> u.activated && u.phase.Announcing? && v.phase.Finished? && s'.byId == s.byId && s'.teardowns == s.teardowns)
      && (a.SetupFails? || a.SetupTimesOut? ==> !u.activated && u.phase.Connecting? && (v.phase.Finished? || v.phase.TimedOut?))
    ensures Told(s', id)
  {
  }

  lemma OtherTold(s: State, a: Action, s': State, id: Id)
    requires id in s.setups && Told(s, id) && SameProgress(s, s', id) && s'.events == s.events + Published(s, a)
    requires (a.SetupFails? || a.SetupTimesOut? || a.AnnounceSettles? || a.TeardownSettles?) ==> a.id != id
    ensures Told(s', id)
  {
  }

  lemma ToldNew(t: int, s: State, a: Action, id: Id)
    requires Inv(t, s) && Discreet(s) && id !in s.setups && id in Step(t, s, a).setups
    ensures Told(Step(t, s, a), id)
  {
    NewSetup(t, s, a, id);
    forall i | 0 <= i < |s.events| ensures s.events[i].id != id {}
  }

  lemma NewSetup(t: int, s: State, a: Action, id: Id)
    requires id !in s.setups && id in Step(t, s, a).setups
    ensures var s' := Step(t, s, a);
      id in s'.byId && !s'.setups[id].activated && s'.setups[id].phase.Connecting? && s'.events == s.events
  {
    if !a.DoEnsure? { SameSetups(t, s, a); }
  }

  ghost predicate AllTold(s: State) {
    forall id :: id in s.setups ==> Told(s, id)
  }

  lemma AllToldStep(t: int, s: State, a: Action)
    requires Inv(t, s) && Discreet(s) && AllTold(s) && Reliable(a)
    ensures AllTold(Step(t, s, a))
  {
    if Enabled(t, s, a) {
      forall id | id in Step(t, s, a).setups ensures Told(Step(t, s, a), id) {
        if id in s.setups { ToldStep(t, s, a, id); } else { ToldNew(t, s, a, id); }
      }
    }
  }

  lemma {:induction false} RunTold(t: int, s: State, actions: seq<Action>)
    requires Inv(t, s) && Discreet(s) && AllTold(s) && forall i :: 0 <= i < |actions| ==> Reliable(actions[i])
    ensures AllTold(Run(t, s, actions))
    decreases actions
  {
    if actions != [] {
      InvStep(t, s, actions[0]);
      DiscreetStep(t, s, actions[0]);
      AllToldStep(t, s, actions[0]);
      RunTold(t, Step(t, s, actions[0]), actions[1..]);
    }
  }

  /** In every run in which no publication and no `stop` fails, the events about a
      subscription say exactly how far it has come: that it started if it became active and was
      announced; that it failed if its setup ended without, and was not cancelled; that it
      stopped if it was active, left the table and was taken down. */
  lemma EventsTellAll(t: int, actions: seq<Action>, id: Id)
    requires forall i :: 0 <= i < |actions| ==> Reliable(actions[i])
    ensures var s := Run(t, INITIAL, actions); id in s.setups ==> Told(s, id)
  {
    RunTold(t, INITIAL, actions);
  }
}
