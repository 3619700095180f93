/** What every run of the subscription table guarantees. */
module SubscriptionTheorems {
  import opened JsonText
  import opened StableKey
  import opened SubscriptionProtocol

  lemma {:induction false} RunKeepsInv(t: int, s: State, actions: seq<Action>)
    requires Inv(t, s)
    ensures Inv(t, Run(t, s, actions))
    decreases actions
  {
    if actions != [] {
      InvStep(t, s, actions[0]);
      RunKeepsInv(t, Step(t, s, actions[0]), actions[1..]);
    }
  }

  lemma ReachableInv(t: int, actions: seq<Action>)
    ensures Inv(t, Run(t, INITIAL, actions))
  {
    RunKeepsInv(t, INITIAL, actions);
  }

  /** In every reachable state the two indexes are a bijection: the key of each record
      leads to its id, and each key leads to a record that has it. */
  lemma IndexesAgree(t: int, actions: seq<Action>)
    ensures var s := Run(t, INITIAL, actions);
      && (forall id :: id in s.byId ==> s.byId[id].id == id && s.byId[id].key in s.byKey && s.byKey[s.byId[id].key] == id)
      && (forall k :: k in s.byKey ==> s.byKey[k] in s.byId && s.byId[s.byKey[k]].key == k)
  {
    ReachableInv(t, actions);
  }

  // ------------------------------------------------------------- no orphans

  /** A device subscription that runs on although no active record holds it and no
      setup is about to pick it up. */
  ghost predicate Orphan(s: State, d: DeviceId) {
    && d in s.devices && s.devices[d].stops == 0
    && !HeldBy(s, s.devices[d].owner, d)
    && !(s.devices[d].owner in s.setups && s.setups[s.devices[d].owner].phase == Opened(d))
  }

  /** Nothing is between a device opening a subscription and its setup resuming. */
  ghost predicate Quiet(s: State) {
    forall id :: id in s.setups ==> !s.setups[id].phase.Opened?
  }

  /** With the setup timeout off, every running device subscription of a quiet state
      is the one its active record holds, and there is at most one per key. */
  lemma NoOrphans(t: int, actions: seq<Action>)
    requires t <= 0
    ensures var s := Run(t, INITIAL, actions);
      && (forall d :: !Orphan(s, d))
      && (Quiet(s) ==> forall d :: d in s.devices && s.devices[d].stops == 0 ==> HeldBy(s, s.devices[d].owner, d))
      && (forall d, e | d in s.devices && e in s.devices && d != e ::
            HeldBy(s, s.devices[d].owner, d) && HeldBy(s, s.devices[e].owner, e) ==>
              s.byId[s.devices[d].owner].key != s.byId[s.devices[e].owner].key)
  {
    ReachableInv(t, actions);
  }

  /** The run that leaks: the wait times out, then the device answers. */
  function LateAnswer(r: Target): seq<Action> {
    [DoEnsure(r, 0), SetupTimesOut(0, true), DeviceOpens(0, 0)]
  }

  lemma LateAnswerLeaks(t: int, r: Target)
    requires t > 0 && r.thingId != [] && r.name != []
    ensures Orphan(Run(t, INITIAL, LateAnswer(r)), 0)
  {
    var a := LateAnswer(r);
    var s1 := Step(t, INITIAL, a[0]);
    var s2 := Step(t, s1, a[1]);
    var s3 := Step(t, s2, a[2]);
    assert s1.setups[0].phase == Connecting;
    assert s2.setups[0].phase == TimedOut && 0 !in s2.byId;
    assert a[1..] == [a[1], a[2]] && a[1..][1..] == [a[2]] && a[1..][1..][1..] == [];
    assert Run(t, s2, [a[2]]) == Run(t, s3, [a[2]][1..]) == s3;
    assert Run(t, s1, a[1..]) == Run(t, s2, [a[2]]);
  }

  ghost predicate Leaks(t: int, actions: seq<Action>, d: DeviceId) {
    Orphan(Run(t, INITIAL, actions), d)
  }

  /** No run ever leaks a device subscription exactly when no setup timeout is set. */
  lemma OrphanFreeExactly(t: int)
    ensures (forall actions, d :: !Leaks(t, actions, d)) <==> t <= 0
  {
    if t <= 0 {
      forall actions, d ensures !Leaks(t, actions, d) { NoOrphans(t, actions); }
    } else {
      var r := Target([], [65], [65], ObserveProperty);
      LateAnswerLeaks(t, r);
      assert Leaks(t, LateAnswer(r), 0);
    }
  }

  /** `stop` is called at most once per device subscription; and once the table is
      empty and nothing is in flight, exactly once on each ever opened. */
  lemma StoppedExactlyOnce(t: int, actions: seq<Action>)
    ensures var s := Run(t, INITIAL, actions);
      && (forall d :: d in s.devices ==> s.devices[d].stops <= 1)
      && (t <= 0 && s.byId == map[] && Quiet(s) ==> forall d :: d in s.devices ==> s.devices[d].stops == 1)
  {
    ReachableInv(t, actions);
  }

  /** By the definition of the resume step: after stop-all, whatever is still in flight
      ends stopped when it resumes. */
  lemma LateDeviceIsStopped(t: int, s: State, id: Id)
    requires Inv(t, s) && id in s.setups && s.setups[id].phase.Opened? && id !in s.byId
    ensures var d := s.setups[id].phase.device; var s' := Step(t, s, SetupResumes(id));
      s'.devices[d].stops == 1 && s'.byId == s.byId && s'.byKey == s.byKey && s'.setups[id].phase == Stopping(false)
  {
  }

  // -------------------------------------------------------- no resurrection

  /** What one step can do to the table entry of a subscription it already knows. */
  ghost predicate Monotone(s: State, s': State, id: Id) {
    && id in s'.setups
    && (id !in s.byId ==> id !in s'.byId)
    && (id in s.byId && id in s'.byId ==>
          s'.byId[id] == s.byId[id] || (s.byId[id].status.Pending? && s'.byId[id] == s.byId[id].(status := s'.byId[id].status)))
  }

  lemma CatchMonotone(t: int, s: State, other: Id, published: bool, id: Id)
    requires Inv(t, s) && id in s.setups && other in s.setups
    ensures Monotone(s, Catch(s, other, published), id)
  {
  }

  lemma ResumeMonotone(t: int, s: State, other: Id, id: Id)
    requires Inv(t, s) && id in s.setups && other in s.setups && s.setups[other].phase.Opened?
    ensures Monotone(s, Resume(s, other, s.setups[other].phase.device), id)
  {
    assert s.setups[other].record.id == other;
  }

  lemma EnsureMonotone(t: int, s: State, r: Target, newId: Id, id: Id)
    requires Inv(t, s) && id in s.setups && newId !in s.setups
    ensures Monotone(s, Ensure(s, r, newId).0, id)
  {
  }

  lemma RemoveMonotone(t: int, s: State, other: Id, id: Id)
    requires Inv(t, s) && id in s.setups
    ensures Monotone(s, Remove(s, other).0, id)
  {
  }

  lemma StopAllMonotone(t: int, s: State, id: Id)
    requires Inv(t, s) && id in s.setups
    ensures Monotone(s, StopAll(s), id)
  {
  }

  lemma StepMonotone(t: int, s: State, a: Action, id: Id)
    requires Inv(t, s) && id in s.setups
    ensures Monotone(s, Step(t, s, a), id)
  {
    if Enabled(t, s, a) {
      match a
      case SetupFails(other, published) => CatchMonotone(t, s, other, published, id);
      case SetupTimesOut(other, published) => CatchMonotone(t, s, other, published, id);
      case AnnounceSettles(other, ok, published) => CatchMonotone(t, s, other, published, id);
      case SetupResumes(other) => ResumeMonotone(t, s, other, id);
      case DoEnsure(r, newId) => EnsureMonotone(t, s, r, newId, id);
      case DoRemove(other) => RemoveMonotone(t, s, other, id);
      case DoStopAll => StopAllMonotone(t, s, id);
      case _ =>
    }
  }

  /** Once removed, an id never returns, even if its setup completes later; and a
      status only moves from pending to active. */
  lemma {:induction false} NoResurrection(t: int, s: State, actions: seq<Action>, id: Id)
    requires Inv(t, s) && id in s.setups
    ensures Monotone(s, Run(t, s, actions), id)
    decreases actions
  {
    if actions != [] {
      StepMonotone(t, s, actions[0], id);
      InvStep(t, s, actions[0]);
      NoResurrection(t, Step(t, s, actions[0]), actions[1..], id);
    }
  }

  lemma {:induction false} RunSplit(t: int, s: State, a: seq<Action>, b: seq<Action>)
    ensures Run(t, s, a + b) == Run(t, Run(t, s, a), b)
    decreases a
  {
    if a == [] {
      assert a + b == b;
    } else {
      assert (a + b)[1..] == a[1..] + b;
      RunSplit(t, Step(t, s, a[0]), a[1..], b);
    }
  }

  /** While a subscription stays in the table, every ensure under its key returns its
      id, reports nothing created and changes nothing. */
  lemma EnsuredOnce(t: int, s: State, before: seq<Action>, after: seq<Action>, id: Id, r: Target)
    requires Inv(t, s) && id in s.byId && r.key == s.byId[id].key
    requires r.thingId != [] && r.name != []
    requires id in Run(t, s, before + after).byId
    ensures var m := Run(t, s, before); id in m.byId && Ensure(m, r, 0) == (m, Response(id, false, m.byId[id].status))
    ensures forall newId :: Ensure(Run(t, s, before), r, newId) == Ensure(Run(t, s, before), r, 0)
  {
    RunSplit(t, s, before, after);
    RunKeepsInv(t, s, before);
    NoResurrection(t, s, before, id);
    NoResurrection(t, Run(t, s, before), after, id);
  }

  /** By the definition of the ensure step and the agreement of the indexes: the ensure that
      does create is the first under its key. */
  lemma CreatedOnlyIfAbsent(t: int, s: State, r: Target, newId: Id)
    requires Inv(t, s) && newId !in s.setups && r.thingId != [] && r.name != []
    ensures var (s', response) := Ensure(s, r, newId);
      && (response.created <==> forall id :: id in s.byId ==> s.byId[id].key != r.key)
      && (response.created ==> response.id == newId && s'.byId == s.byId[newId := Record(newId, r.key, r.thingId, r.name, r.operation, Pending)])
      && s'.byKey == s.byKey[r.key := response.id]
  {
    if Exists(s, r.key) {
      assert s.byId[s.byKey[r.key]].key == r.key;
    }
  }

  /** Two requests share one subscription exactly when they ask for the same one. */
  lemma RequestsShareSubscription(t: int, s: State, a: Request, b: Request, i: Id, j: Id)
    requires Inv(t, s) && ValidRequest(a) && ValidRequest(b)
    requires a.thingId != [] && a.name != [] && b.thingId != [] && b.name != []
    requires i !in s.setups && j !in s.setups && i != j
    ensures var (s1, first) := Ensure(s, TargetOf(a), i); var (_, second) := Ensure(s1, TargetOf(b), j);
      first.id == second.id <==> SameSubscription(a, b)
  {
    SubscriptionKeyExact(a, b);
  }

  // ----------------------------------------------------------------- events

  /** `subscription_stopped` is published at most once per id, and only for an id that
      became active and has left the table. */
  lemma StoppedOnce(t: int, actions: seq<Action>, i: nat, j: nat)
    ensures var s := Run(t, INITIAL, actions);
      && (i < j < |s.events| && s.events[i].Stopped? ==> s.events[i] != s.events[j])
      && (i < |s.events| && s.events[i].Stopped? ==>
            s.events[i].id in s.setups && s.setups[s.events[i].id].activated && s.events[i].id !in s.byId)
  {
    ReachableInv(t, actions);
  }

  /** By the definition of the announce step, a failure event does not mean the
      subscription is gone: when publishing
      `subscription_started` fails, the record stays active. */
  lemma FailedStaysActive(t: int, s: State, id: Id)
    requires Inv(t, s) && id in s.byId && id in s.setups && s.setups[id].phase.Announcing?
    ensures var s' := Step(t, s, AnnounceSettles(id, false, true));
      Failed(id) in s'.events && id in s'.byId && s'.byId[id].status.Active? && s'.byId == s.byId
  {
    var s' := Step(t, s, AnnounceSettles(id, false, true));
    assert s'.events[|s.events|] == Failed(id);
  }
}
