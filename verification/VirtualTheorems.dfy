/** Nothing is leaked by any run, and a pass without failures converges. */
module VirtualTheorems {
  import opened Options
  import opened BindingShapes
  import opened VirtualModel

  // -------------------------------------------------------------- nothing is leaked

  lemma {:induction false} HandlesRange(from: nat, count: nat, h: nat)
    ensures h in Handles(from, count) <==> from <= h < from + count
  {
    if count > 0 { HandlesRange(from, count - 1, h); }
  }

  lemma ForgetOwned(s: State, id: string)
    requires Owned(s)
    ensures Owned(Forget(s, id))
  {
    var s' := Forget(s, id);
    if id in s.tracked {
      forall h ensures h in s'.running <==> exists k :: k in s'.tracked && h in s'.tracked[k].triggers {
        if h in s'.running {
          var k :| k in s.tracked && h in s.tracked[k].triggers;
          assert k != id && k in s'.tracked && h in s'.tracked[k].triggers;
        }
        if k :| k in s'.tracked && h in s'.tracked[k].triggers {
          assert k in s.tracked && k != id && h in s.tracked[k].triggers;
        }
      }
    }
  }

  lemma StopOwned(env: Env, s: State, id: string)
    requires Owned(s)
    ensures Owned(Stop(env, s, id))
  {
    ForgetOwned(s, id);
  }

  /** What the Things of `ids` hold is not held by others. */
  lemma OthersStay(s: State, ids: set<string>, k: string)
    requires Owned(s) && k in s.tracked && k !in ids
    ensures s.tracked[k].triggers !! TriggersOf(s, ids) && s.tracked[k].thing !in ThingsOf(s, ids)
  {
    forall h | h in TriggersOf(s, ids) ensures h !in s.tracked[k].triggers {
      var j :| j in ids && j in s.tracked && h in s.tracked[j].triggers;
    }
    forall t | t in ThingsOf(s, ids) ensures t != s.tracked[k].thing {
      var j :| j in ids && j in s.tracked && t == s.tracked[j].thing;
    }
  }

  lemma StopAllOwned(env: Env, s: State, ids: set<string>)
    requires Owned(s)
    ensures Owned(StopAll(env, s, ids))
  {
    var s' := StopAll(env, s, ids);
    forall h ensures h in s'.running <==> exists k :: k in s'.tracked && h in s'.tracked[k].triggers {
      if h in s'.running {
        var k :| k in s.tracked && h in s.tracked[k].triggers;
        assert k !in ids;
        assert k in s'.tracked && h in s'.tracked[k].triggers;
      }
      if k :| k in s'.tracked && h in s'.tracked[k].triggers {
        assert k in s.tracked && h in s.tracked[k].triggers;
        OthersStay(s, ids, k);
      }
    }
    forall k | k in s'.tracked ensures s'.tracked[k].thing in s'.produced {
      OthersStay(s, ids, k);
    }
  }

  lemma MetadataOwned(env: Env, s: State, d: Definition)
    requires Owned(s) && d.id in s.tracked
    ensures Owned(UpdateMetadata(env, s, d).state)
  {
    var s' := UpdateMetadata(env, s, d).state;
    forall h ensures h in s'.running <==> exists k :: k in s'.tracked && h in s'.tracked[k].triggers {
      if h in s'.running {
        var k :| k in s.tracked && h in s.tracked[k].triggers;
        assert k in s'.tracked && h in s'.tracked[k].triggers;
      }
      if k :| k in s'.tracked && h in s'.tracked[k].triggers {
        assert k in s.tracked && h in s.tracked[k].triggers;
      }
    }
  }

  lemma NewHandles(s: State, triggers: set<nat>, count: nat)
    requires Owned(s) && triggers == Handles(s.next, count)
    ensures forall h :: h in triggers ==> h < s.next + count
    ensures forall k :: k in s.tracked ==> s.tracked[k].triggers !! triggers
  {
    forall h | h in triggers ensures s.next <= h < s.next + count { HandlesRange(s.next, count, h); }
    forall k | k in s.tracked ensures s.tracked[k].triggers !! triggers {
      forall h | h in s.tracked[k].triggers ensures h < s.next { assert h in s.running; }
    }
  }

  /** Tracking one more Thing, with new handles. */
  lemma TrackOwned(s: State, id: string, t: Tracked, count: nat)
    requires Owned(s) && id !in s.tracked && t.triggers == Handles(s.next, count)
    requires t.thing in s.produced && forall k :: k in s.tracked ==> s.tracked[k].thing != t.thing
    ensures Owned(s.(tracked := s.tracked[id := t], running := s.running + t.triggers, next := s.next + count))
  {
    NewHandles(s, t.triggers, count);
    TrackRunning(s, id, t);
    TrackApart(s, id, t);
  }

  lemma TrackApart(s: State, id: string, t: Tracked)
    requires Owned(s) && id !in s.tracked && t.thing in s.produced
    requires forall k :: k in s.tracked ==> s.tracked[k].thing != t.thing && s.tracked[k].triggers !! t.triggers
    ensures var tracked := s.tracked[id := t];
      && (forall a, b :: a in tracked && b in tracked && a != b ==>
           tracked[a].thing != tracked[b].thing && tracked[a].triggers !! tracked[b].triggers)
      && forall k :: k in tracked ==> tracked[k].thing in s.produced
  {
  }

  lemma TrackRunning(s: State, id: string, t: Tracked)
    requires Owned(s) && id !in s.tracked
    ensures var tracked := s.tracked[id := t];
      forall h :: h in s.running + t.triggers <==> exists k :: k in tracked && h in tracked[k].triggers
  {
    var s' := s.(tracked := s.tracked[id := t], running := s.running + t.triggers);
    forall h ensures h in s'.running <==> exists k :: k in s'.tracked && h in s'.tracked[k].triggers {
      if h in s.running {
        var k :| k in s.tracked && h in s.tracked[k].triggers;
        assert k in s'.tracked && h in s'.tracked[k].triggers;
      }
      if h in t.triggers { assert id in s'.tracked && h in s'.tracked[id].triggers; }
      if k :| k in s'.tracked && h in s'.tracked[k].triggers {
        if k != id { assert k in s.tracked && h in s.tracked[k].triggers; }
      }
    }
  }

  lemma ProduceOwned(s: State, d: Definition)
    requires Owned(s)
    ensures Owned(s.(produced := s.produced[s.next := d], next := s.next + 1))
    ensures s.next !in s.produced && forall k :: k in s.tracked ==> s.tracked[k].thing != s.next
  {
    forall k | k in s.tracked ensures s.tracked[k].thing < s.next { assert s.tracked[k].thing in s.produced; }
  }

  lemma DestroyOwned(s: State, thing: nat)
    requires Owned(s) && forall k :: k in s.tracked ==> s.tracked[k].thing != thing
    ensures Owned(s.(produced := s.produced - {thing}))
  {
  }

  /** The Thing being replaced is gone and the new one is produced, under a new handle. */
  function Made(s: State, d: Definition): State {
    var stopped := Forget(s, d.id);
    stopped.(produced := stopped.produced[stopped.next := d], next := stopped.next + 1)
  }

  lemma MadeOwned(s: State, d: Definition)
    requires Owned(s)
    ensures Owned(Made(s, d)) && d.id !in Made(s, d).tracked && s.next in Made(s, d).produced
    ensures forall k :: k in Made(s, d).tracked ==> Made(s, d).tracked[k].thing != s.next
  {
    ForgetOwned(s, d.id);
    ProduceOwned(Forget(s, d.id), d);
  }

  lemma ExposeOwned(env: Env, s: State, d: Definition, thing: nat)
    requires Owned(s) && d.id !in s.tracked && thing in s.produced && forall k :: k in s.tracked ==> s.tracked[k].thing != thing
    ensures Owned(Expose(env, s, d, thing).state)
  {
    TrackOwned(s, d.id, Tracked(d, d.version, env.concreteTd(d), thing, Handles(s.next, env.triggerCount(d))), env.triggerCount(d));
  }

  lemma ReproduceOwned(env: Env, s: State, d: Definition)
    requires Owned(s)
    ensures Owned(Reproduce(env, s, d).state)
  {
    Reproduced(env, s, d);
    ForgetOwned(s, d.id);
    MadeOwned(s, d);
    DestroyOwned(Made(s, d), s.next);
    ExposeOwned(env, Made(s, d), d, s.next);
  }

  /** The states a Thing being made anew can end in. */
  lemma Reproduced(env: Env, s: State, d: Definition)
    ensures var made := Made(s, d);
      Reproduce(env, s, d).state ==
        if env.produceFails(d) then Forget(s, d.id)
        else if env.handlersFail(d) then made
        else if !env.canaryOk(d) then DeleteFromCatalog(env, made.(produced := made.produced - {s.next}), d.id)
        else if env.exposeFails(d) then made
        else Expose(env, made, d, s.next).state
  {
  }

  lemma ReconcileOwned(env: Env, s: State, d: Definition)
    requires Owned(s)
    ensures Owned(Reconcile(env, s, d).state)
  {
    StopOwned(env, s, d.id);
    if MetadataOnly(s, d) { MetadataOwned(env, s, d); }
    ReproduceOwned(env, s, d);
  }

  lemma {:induction false} SweepKeeps(env: Env, s: State, ids: seq<string>, defined: set<string>, n: nat)
    requires n <= |ids|
    ensures var s' := SweepUpTo(env, s, ids, defined, n).state; s' == s.(catalog := s'.catalog)
  {
    if n > 0 { SweepKeeps(env, s, ids, defined, n - 1); }
  }

  lemma {:induction false} ReconcileUpToOwned(env: Env, s: State, ds: seq<Definition>, n: nat)
    requires n <= |ds| && Owned(s)
    ensures Owned(ReconcileUpTo(env, s, ds, n).state)
  {
    if n > 0 {
      ReconcileUpToOwned(env, s, ds, n - 1);
      ReconcileOwned(env, ReconcileUpTo(env, s, ds, n - 1).state, ds[n - 1]);
    }
  }

  lemma SweepOwned(env: Env, s: State, defined: set<string>)
    requires Owned(s)
    ensures Owned(Sweep(env, s, defined).state)
  {
    if env.listed.Some? {
      var ids := env.listed.value(s.catalog);
      SweepKeeps(env, s, ids, defined, |ids|);
    }
  }

  lemma ReconcileAllOwned(env: Env, s: State, ds: seq<Definition>)
    requires Owned(s)
    ensures Owned(ReconcileAll(env, s, ds).state)
  {
    var stopped := StopAll(env, s, s.tracked.Keys - ActiveIds(ds));
    StopAllOwned(env, s, s.tracked.Keys - ActiveIds(ds));
    SweepOwned(env, stopped, DefinedIds(ds));
    ReconcileUpToOwned(env, Sweep(env, stopped, DefinedIds(ds)).state, ds, |ds|);
  }

  /** One thing the controller does, with what the world answers meanwhile. */
  datatype Event =
    | Pass(env: Env, definitions: seq<Definition>)
    | Change(env: Env, definition: Option<Definition>, id: string)
    | Shutdown(env: Env)

  function Handle(s: State, e: Event): State {
    match e
    case Pass(env, ds) => ReconcileAll(env, s, ds).state
    case Change(env, d, id) => ReconcileOne(env, s, d, id).state
    case Shutdown(env) => StopAll(env, s, s.tracked.Keys)
  }

  function HandleAll(s: State, events: seq<Event>): State {
    if events == [] then s else Handle(HandleAll(s, events[..|events| - 1]), events[|events| - 1])
  }

  /** Over any run, whatever fails, exactly the timers and subscriptions of tracked Things
      are running, and no two tracked Things share one. */
  lemma {:induction false} NothingRunsUntracked(s: State, events: seq<Event>)
    requires Owned(s)
    ensures Owned(HandleAll(s, events))
  {
    if events != [] {
      var before := HandleAll(s, events[..|events| - 1]);
      NothingRunsUntracked(s, events[..|events| - 1]);
      match events[|events| - 1]
      case Pass(env, ds) => ReconcileAllOwned(env, before, ds);
      case Change(env, d, id) => {
        StopOwned(env, before, id);
        if d.Some? { ReconcileOwned(env, before, d.value); }
      }
      case Shutdown(env) => StopAllOwned(env, before, before.tracked.Keys);
    }
  }

  /** After a shutdown nothing is running and nothing is tracked. */
  lemma ShutdownStopsAll(s: State, events: seq<Event>, env: Env)
    requires Owned(s)
    ensures var s' := HandleAll(s, events + [Shutdown(env)]); s'.tracked == map[] && s'.running == {}
  {
    NothingRunsUntracked(s, events + [Shutdown(env)]);
    assert (events + [Shutdown(env)])[..|events|] == events;
    var s' := HandleAll(s, events + [Shutdown(env)]);
    assert s'.tracked == map[];
    forall h ensures h !in s'.running { }
  }

  // -------------------------------------------------------------------- convergence

  /** Nothing fails, except that a canary may. */
  ghost predicate FailureFree(env: Env) {
    && env.listed.Some? && Lists(env)
    && (forall d :: !env.produceFails(d) && !env.handlersFail(d) && !env.exposeFails(d) && !env.triggersFail(d) && !env.upsertFails(d))
    && (forall id :: !env.deleteFails(id) && !env.fetchFails(id))
  }

  ghost predicate DistinctIds(ds: seq<Definition>) {
    forall i, j :: 0 <= i < j < |ds| ==> ds[i].id != ds[j].id
  }

  /** The definition makes the controller produce its Thing anew. */
  predicate NeedsThing(s: State, d: Definition) {
    d.active && !UpToDate(s, d) && !MetadataOnly(s, d)
  }

  /** Whether a definition ends up as a tracked Thing. */
  predicate Survives(env: Env, s: State, d: Definition) {
    d.active && (NeedsThing(s, d) ==> env.canaryOk(d))
  }

  /** What a pass makes of the entries under one id. */
  ghost predicate Settled(env: Env, s: State, s': State, d: Definition) {
    && (d.id in s'.tracked <==> Survives(env, s, d))
    && (d.id in s'.tracked ==> s'.tracked[d.id].version == d.version)
    && (d.id in s'.catalog <==> Survives(env, s, d) && (UpToDate(s, d) ==> d.id in s.catalog))
    && (d.id in s'.tracked && !UpToDate(s, d) ==>
         s'.tracked[d.id].definition == d && s'.catalog[d.id] == s'.tracked[d.id].catalogTd)
  }

  /** The entries under an id are the same. */
  ghost predicate SameAt(s: State, s': State, id: string) {
    && (id in s.tracked <==> id in s'.tracked) && (id in s.tracked ==> s'.tracked[id] == s.tracked[id])
    && (id in s.catalog <==> id in s'.catalog) && (id in s.catalog ==> s'.catalog[id] == s.catalog[id])
  }

  lemma ReconcileElsewhere(env: Env, s: State, d: Definition, id: string)
    requires id != d.id
    ensures SameAt(s, Reconcile(env, s, d).state, id)
  {
  }

  lemma {:induction false} ReconcileUpToElsewhere(env: Env, s: State, ds: seq<Definition>, n: nat, id: string)
    requires n <= |ds| && forall i :: 0 <= i < n ==> ds[i].id != id
    ensures SameAt(s, ReconcileUpTo(env, s, ds, n).state, id)
  {
    if n > 0 {
      ReconcileUpToElsewhere(env, s, ds, n - 1, id);
      ReconcileElsewhere(env, ReconcileUpTo(env, s, ds, n - 1).state, ds[n - 1], id);
    }
  }

  lemma SameAtSettles(env: Env, s: State, t: State, s': State, d: Definition)
    requires SameAt(s, t, d.id) && Settled(env, t, s', d)
    ensures Settled(env, s, s', d)
  {
  }

  lemma SettledStays(env: Env, s: State, t: State, s': State, d: Definition)
    requires Settled(env, s, t, d) && SameAt(t, s', d.id)
    ensures Settled(env, s, s', d)
  {
  }

  /** Each definition in turn settles its own entries and leaves the others. */
  lemma {:induction false} ReconcileUpToSettles(env: Env, s: State, ds: seq<Definition>, n: nat, k: nat)
    requires FailureFree(env) && DistinctIds(ds) && k < n <= |ds|
    ensures var r := ReconcileUpTo(env, s, ds, n); r.ok && Settled(env, s, r.state, ds[k])
  {
    ReconcileUpToOk(env, s, ds, n - 1);
    var before := ReconcileUpTo(env, s, ds, n - 1);
    if k == n - 1 {
      ReconcileUpToElsewhere(env, s, ds, n - 1, ds[k].id);
      SameAtSettles(env, s, before.state, ReconcileUpTo(env, s, ds, n).state, ds[k]);
    } else {
      ReconcileUpToSettles(env, s, ds, n - 1, k);
      ReconcileElsewhere(env, before.state, ds[n - 1], ds[k].id);
      SettledStays(env, s, before.state, ReconcileUpTo(env, s, ds, n).state, ds[k]);
    }
  }

  lemma {:induction false} ReconcileUpToOk(env: Env, s: State, ds: seq<Definition>, n: nat)
    requires FailureFree(env) && n <= |ds|
    ensures ReconcileUpTo(env, s, ds, n).ok
  {
    if n > 0 {
      ReconcileUpToOk(env, s, ds, n - 1);
    }
  }

  /** Sweeping removes exactly the undefined ids it looks at that are not stored. */
  lemma {:induction false} SweepRemoves(env: Env, s: State, ids: seq<string>, defined: set<string>, n: nat, id: string)
    requires FailureFree(env) && n <= |ids|
    ensures var r := SweepUpTo(env, s, ids, defined, n);
      && r.ok
      && (id in r.state.catalog <==> id in s.catalog && !(id in ids[..n] && id !in defined && !env.stored(id)))
      && (id in r.state.catalog ==> r.state.catalog[id] == s.catalog[id])
  {
    if n > 0 {
      SweepRemoves(env, s, ids, defined, n - 1, id);
      assert ids[..n] == ids[..n - 1] + [ids[n - 1]];
    }
  }

  /** What the first two parts of a pass leave of the entries under an id. */
  ghost predicate Swept(env: Env, s: State, s': State, ds: seq<Definition>, id: string) {
    var stale := id in s.tracked && id !in ActiveIds(ds);
    var orphan := IsVirtual(id) && id !in DefinedIds(ds) && !env.stored(id);
    && (id in s'.tracked <==> id in s.tracked && !stale) && (id in s'.tracked ==> s'.tracked[id] == s.tracked[id])
    && (id in s'.catalog <==> id in s.catalog && !stale && !orphan) && (id in s'.catalog ==> s'.catalog[id] == s.catalog[id])
  }

  function AfterSweep(env: Env, s: State, ds: seq<Definition>): Result {
    Sweep(env, StopAll(env, s, s.tracked.Keys - ActiveIds(ds)), DefinedIds(ds))
  }

  lemma SweepLeaves(env: Env, s: State, ds: seq<Definition>, id: string)
    requires FailureFree(env)
    ensures AfterSweep(env, s, ds).ok && Swept(env, s, AfterSweep(env, s, ds).state, ds, id)
  {
    var stopped := StopAll(env, s, s.tracked.Keys - ActiveIds(ds));
    var ids := env.listed.value(stopped.catalog);
    SweepRemoves(env, stopped, ids, DefinedIds(ds), |ids|, id);
    SweepKeeps(env, stopped, ids, DefinedIds(ds), |ids|);
    assert ids[..|ids|] == ids;
    assert id in ids <==> id in stopped.catalog && IsVirtual(id);
  }

  /** A pass settles the entries of every definition. */
  lemma PassSettles(env: Env, s: State, ds: seq<Definition>, k: nat)
    requires FailureFree(env) && DistinctIds(ds) && k < |ds|
    ensures ReconcileAll(env, s, ds).ok && Settled(env, s, ReconcileAll(env, s, ds).state, ds[k])
  {
    var d, swept := ds[k], AfterSweep(env, s, ds);
    SweepLeaves(env, s, ds, d.id);
    ReconcileUpToSettles(env, swept.state, ds, |ds|, k);
    ActiveOnce(ds, k);
    if d.active { SameAtSettles(env, s, swept.state, ReconcileAll(env, s, ds).state, d); }
  }

  lemma ActiveOnce(ds: seq<Definition>, k: nat)
    requires DistinctIds(ds) && k < |ds|
    ensures ds[k].id in DefinedIds(ds) && (ds[k].id in ActiveIds(ds) <==> ds[k].active)
  {
  }

  /** It leaves the entries under other ids as stopping and sweeping left them. */
  lemma PassElsewhere(env: Env, s: State, ds: seq<Definition>, id: string)
    requires FailureFree(env) && id !in DefinedIds(ds)
    ensures Swept(env, s, ReconcileAll(env, s, ds).state, ds, id)
    ensures id !in ReconcileAll(env, s, ds).state.tracked
  {
    SweepLeaves(env, s, ds, id);
    ReconcileUpToElsewhere(env, AfterSweep(env, s, ds).state, ds, |ds|, id);
  }

  function SurvivorIds(env: Env, s: State, ds: seq<Definition>): set<string> {
    set i | 0 <= i < |ds| && Survives(env, s, ds[i]) :: ds[i].id
  }

  function VirtualIds(catalog: map<string, nat>): set<string> {
    set id | id in catalog && IsVirtual(id)
  }

  /** A pass without failures over definitions with distinct ids ends well, tracking exactly
      the active definitions whose canary did not have to run or did not fail, each at the
      version of its definition. */
  lemma Converges(env: Env, s: State, ds: seq<Definition>)
    requires FailureFree(env) && DistinctIds(ds)
    ensures var r := ReconcileAll(env, s, ds);
      && r.ok && r.state.tracked.Keys == SurvivorIds(env, s, ds)
      && forall k :: 0 <= k < |ds| && ds[k].id in r.state.tracked ==> r.state.tracked[ds[k].id].version == ds[k].version
  {
    var r := ReconcileAll(env, s, ds);
    forall k | 0 <= k < |ds| ensures r.ok && Settled(env, s, r.state, ds[k]) { PassSettles(env, s, ds, k); }
    forall id ensures id in r.state.tracked <==> id in SurvivorIds(env, s, ds) {
      if id in DefinedIds(ds) {
        var k :| 0 <= k < |ds| && ds[k].id == id;
        assert Settled(env, s, r.state, ds[k]);
      } else {
        PassElsewhere(env, s, ds, id);
      }
    }
    ReconcileUpToOk(env, AfterSweep(env, s, ds).state, ds, |ds|);
    SweepLeaves(env, s, ds, "");
  }

  /** What the catalog must hold, and must not, before a pass. */
  ghost predicate CatalogSound(env: Env, s: State, ds: seq<Definition>) {
    && (forall k :: 0 <= k < |ds| && UpToDate(s, ds[k]) ==> ds[k].id in s.catalog)
    && (forall id :: id in s.catalog && IsVirtual(id) && id !in DefinedIds(ds) && id !in s.tracked ==> !env.stored(id))
  }

  /** Afterwards the virtual ids of the catalog are the tracked ones exactly if, before, every
      Thing tracked at its current version was in it, and no untracked virtual id in it had
      a definition that the list of definitions lacks. */
  lemma CatalogConverges(env: Env, s: State, ds: seq<Definition>)
    requires FailureFree(env) && DistinctIds(ds) && forall k :: 0 <= k < |ds| ==> IsVirtual(ds[k].id)
    ensures var s' := ReconcileAll(env, s, ds).state;
      VirtualIds(s'.catalog) == s'.tracked.Keys <==> CatalogSound(env, s, ds)
  {
    var s' := ReconcileAll(env, s, ds).state;
    forall k | 0 <= k < |ds| ensures Settled(env, s, s', ds[k]) { PassSettles(env, s, ds, k); }
    forall id | id !in DefinedIds(ds) ensures Swept(env, s, s', ds, id) && id !in s'.tracked { PassElsewhere(env, s, ds, id); }
    if CatalogSound(env, s, ds) { SoundCatalog(env, s, s', ds); }
    if VirtualIds(s'.catalog) == s'.tracked.Keys { CatalogWasSound(env, s, s', ds); }
  }

  ghost predicate PassResult(env: Env, s: State, s': State, ds: seq<Definition>) {
    && (forall k :: 0 <= k < |ds| ==> IsVirtual(ds[k].id) && Settled(env, s, s', ds[k]))
    && (forall id :: id !in DefinedIds(ds) ==> Swept(env, s, s', ds, id) && id !in s'.tracked)
  }

  lemma SoundCatalog(env: Env, s: State, s': State, ds: seq<Definition>)
    requires PassResult(env, s, s', ds) && CatalogSound(env, s, ds)
    ensures VirtualIds(s'.catalog) == s'.tracked.Keys
  {
    forall id ensures id in VirtualIds(s'.catalog) <==> id in s'.tracked {
      if id in DefinedIds(ds) {
        var k :| 0 <= k < |ds| && ds[k].id == id;
        assert Settled(env, s, s', ds[k]);
      } else {
        assert Swept(env, s, s', ds, id);
        assert id !in ActiveIds(ds);
      }
    }
  }

  lemma CatalogWasSound(env: Env, s: State, s': State, ds: seq<Definition>)
    requires PassResult(env, s, s', ds) && VirtualIds(s'.catalog) == s'.tracked.Keys
    ensures CatalogSound(env, s, ds)
  {
    forall k | 0 <= k < |ds| && UpToDate(s, ds[k]) ensures ds[k].id in s.catalog {
      assert Settled(env, s, s', ds[k]);
      assert ds[k].id in VirtualIds(s'.catalog);
    }
    forall id | id in s.catalog && IsVirtual(id) && id !in DefinedIds(ds) && id !in s.tracked ensures !env.stored(id) {
      assert Swept(env, s, s', ds, id);
      assert id !in VirtualIds(s'.catalog);
    }
  }

  // ------------------------------------------------------- no Thing is left behind

  /** A Thing that is produced and not tracked. */
  ghost predicate Stray(s: State, h: nat) {
    h in s.produced && forall id :: id in s.tracked ==> s.tracked[id].thing != h
  }

  /** Every stray of `s` is one of `t`. */
  ghost predicate StraysStay(s: State, t: State) {
    forall h :: Stray(s, h) ==> Stray(t, h)
  }

  lemma SameStrays(s: State, t: State)
    requires StraysStay(s, t) && StraysStay(t, s)
    ensures AllTracked(s) <==> AllTracked(t)
  {
    if !AllTracked(s) {
      var h :| h in s.produced && !exists id :: id in s.tracked && s.tracked[id].thing == h;
      assert Stray(s, h) && Stray(t, h);
    }
    if !AllTracked(t) {
      var h :| h in t.produced && !exists id :: id in t.tracked && t.tracked[id].thing == h;
      assert Stray(t, h) && Stray(s, h);
    }
  }

  lemma ForgetStrays(s: State, id: string)
    ensures StraysStay(s, Forget(s, id)) && StraysStay(Forget(s, id), s)
  {
    var t := Forget(s, id);
    if id in s.tracked {
      forall h | Stray(t, h) ensures Stray(s, h) {
        forall k | k in s.tracked ensures s.tracked[k].thing != h {
          if k != id { assert k in t.tracked && t.tracked[k] == s.tracked[k]; }
        }
      }
    }
  }

  lemma StopAllStrays(env: Env, s: State, ids: set<string>)
    ensures StraysStay(s, StopAll(env, s, ids)) && StraysStay(StopAll(env, s, ids), s)
  {
    var t := StopAll(env, s, ids);
    forall h | Stray(t, h) ensures Stray(s, h) {
      forall k | k in s.tracked ensures s.tracked[k].thing != h {
        if k !in ids { assert k in t.tracked && t.tracked[k] == s.tracked[k]; }
      }
    }
  }

  lemma MetadataStrays(env: Env, s: State, d: Definition)
    requires d.id in s.tracked
    ensures var t := UpdateMetadata(env, s, d).state; StraysStay(s, t) && StraysStay(t, s)
  {
    var t := UpdateMetadata(env, s, d).state;
    forall h | Stray(t, h) ensures Stray(s, h) {
      forall k | k in s.tracked ensures s.tracked[k].thing != h {
        assert k in t.tracked && t.tracked[k].thing == s.tracked[k].thing;
      }
    }
  }

  /** Producing fails once there is a Thing and before it is tracked, other than by its canary. */
  predicate Abandons(env: Env, s: State, d: Definition) {
    NeedsThing(s, d) && !env.produceFails(d) && (env.handlersFail(d) || (env.canaryOk(d) && env.exposeFails(d)))
  }

  lemma MadeStrays(env: Env, s: State, d: Definition)
    requires Owned(s) && Abandons(env, s, d)
    ensures !AllTracked(Reproduce(env, s, d).state)
  {
    var stopped := Forget(s, d.id);
    ForgetOwned(s, d.id);
    ProduceOwned(stopped, d);
    assert Stray(Reproduce(env, s, d).state, stopped.next);
  }

  lemma ExposeStrays(env: Env, s: State, d: Definition, thing: nat)
    requires d.id !in s.tracked && Stray(s, thing)
    ensures var t := Expose(env, s, d, thing).state;
      (forall h :: Stray(t, h) <==> Stray(s, h) && h != thing) && t.produced == s.produced
  {
    var t := Expose(env, s, d, thing).state;
    assert t.tracked[d.id].thing == thing && t.produced == s.produced;
    forall h ensures Stray(t, h) <==> Stray(s, h) && h != thing {
      if Stray(t, h) {
        forall k | k in s.tracked ensures s.tracked[k].thing != h {
          assert k in t.tracked && t.tracked[k] == s.tracked[k];
        }
      }
    }
  }

  lemma WithdrawStrays(env: Env, s: State, d: Definition)
    requires Owned(s)
    ensures var made := Made(s, d); var t := DeleteFromCatalog(env, made.(produced := made.produced - {s.next}), d.id);
      StraysStay(Forget(s, d.id), t) && StraysStay(t, Forget(s, d.id))
  {
    var made := Made(s, d);
    ForgetOwned(s, d.id);
    ProduceOwned(Forget(s, d.id), d);
    assert made.produced - {s.next} == Forget(s, d.id).produced;
  }

  lemma ReproduceStrays(env: Env, s: State, d: Definition)
    requires Owned(s) && NeedsThing(s, d) && !Abandons(env, s, d)
    ensures var t := Reproduce(env, s, d).state; var stopped := Forget(s, d.id); StraysStay(stopped, t) && StraysStay(t, stopped)
  {
    var stopped, made := Forget(s, d.id), Made(s, d);
    if !env.produceFails(d) {
      if env.canaryOk(d) {
        ForgetOwned(s, d.id);
        ProduceOwned(stopped, d);
        assert Stray(made, stopped.next);
        ExposeStrays(env, made, d, stopped.next);
      } else {
        WithdrawStrays(env, s, d);
      }
    }
  }

  /** Reconciling a definition leaves a Thing behind exactly if it abandons one, and never
      picks up one left behind before. */
  lemma ReconcileTracking(env: Env, s: State, d: Definition)
    requires Owned(s)
    ensures AllTracked(Reconcile(env, s, d).state) <==> AllTracked(s) && !Abandons(env, s, d)
  {
    var t := Reconcile(env, s, d).state;
    ForgetStrays(s, d.id);
    if NeedsThing(s, d) {
      if Abandons(env, s, d) {
        MadeStrays(env, s, d);
      } else {
        ReproduceStrays(env, s, d);
        SameStrays(s, t);
      }
    } else {
      if MetadataOnly(s, d) { MetadataStrays(env, s, d); }
      SameStrays(s, t);
    }
  }

  /** Some definition that its turn comes to abandons a Thing. */
  ghost predicate SomeAbandons(env: Env, s: State, ds: seq<Definition>, n: nat)
    requires n <= |ds|
  {
    exists k :: 0 <= k < n && ReconcileUpTo(env, s, ds, k).ok && Abandons(env, ReconcileUpTo(env, s, ds, k).state, ds[k])
  }

  lemma {:induction false} ReconcileUpToTracking(env: Env, s: State, ds: seq<Definition>, n: nat)
    requires n <= |ds| && Owned(s)
    ensures AllTracked(ReconcileUpTo(env, s, ds, n).state) <==> AllTracked(s) && !SomeAbandons(env, s, ds, n)
  {
    if n > 0 {
      var before := ReconcileUpTo(env, s, ds, n - 1);
      ReconcileUpToTracking(env, s, ds, n - 1);
      ReconcileUpToOwned(env, s, ds, n - 1);
      ReconcileTracking(env, before.state, ds[n - 1]);
      assert SomeAbandons(env, s, ds, n) <==>
        SomeAbandons(env, s, ds, n - 1) || (before.ok && Abandons(env, before.state, ds[n - 1]));
    }
  }

  lemma PassTracking(env: Env, s: State, ds: seq<Definition>)
    requires Owned(s)
    ensures var swept := AfterSweep(env, s, ds);
      AllTracked(ReconcileAll(env, s, ds).state) <==> AllTracked(s) && !(swept.ok && SomeAbandons(env, swept.state, ds, |ds|))
  {
    var stale := s.tracked.Keys - ActiveIds(ds);
    var stopped, swept := StopAll(env, s, stale), AfterSweep(env, s, ds).state;
    StopAllOwned(env, s, stale);
    StopAllStrays(env, s, stale);
    SameStrays(s, stopped);
    SweepOwned(env, stopped, DefinedIds(ds));
    if env.listed.Some? {
      SweepKeeps(env, stopped, env.listed.value(stopped.catalog), DefinedIds(ds), |env.listed.value(stopped.catalog)|);
    }
    SameStrays(stopped, swept);
    ReconcileUpToTracking(env, swept, ds, |ds|);
  }

  /** What the controller does leaves a Thing behind. */
  ghost predicate LeavesBehind(s: State, e: Event) {
    match e
    case Pass(env, ds) => AfterSweep(env, s, ds).ok && SomeAbandons(env, AfterSweep(env, s, ds).state, ds, |ds|)
    case Change(env, d, _) => d.Some? && Abandons(env, s, d.value)
    case Shutdown(_) => false
  }

  lemma HandleTracking(s: State, e: Event)
    requires Owned(s)
    ensures AllTracked(Handle(s, e)) <==> AllTracked(s) && !LeavesBehind(s, e)
  {
    match e
    case Pass(env, ds) => PassTracking(env, s, ds);
    case Change(env, d, id) => {
      if d.Some? {
        ReconcileTracking(env, s, d.value);
      } else {
        ForgetStrays(s, id);
        SameStrays(s, Handle(s, e));
      }
    }
    case Shutdown(env) => {
      StopAllStrays(env, s, s.tracked.Keys);
      SameStrays(s, Handle(s, e));
    }
  }

  /** Nothing the controller did along the way left a Thing behind. */
  ghost predicate NothingLeft(s: State, events: seq<Event>) {
    forall i :: 0 <= i < |events| ==> !LeavesBehind(HandleAll(s, events[..i]), events[i])
  }

  lemma LastLeaves(s: State, events: seq<Event>)
    requires events != []
    ensures var n := |events| - 1;
      NothingLeft(s, events) <==> NothingLeft(s, events[..n]) && !LeavesBehind(HandleAll(s, events[..n]), events[n])
  {
    var n := |events| - 1;
    forall i | 0 <= i < n ensures events[..n][..i] == events[..i] {}
  }

  /** Over any run, whatever fails, every Thing produced and not destroyed is tracked if and
      only if nothing the controller did along the way left one behind: a handler could not be
      set, or the Thing not be exposed.  No later pass and no shutdown makes up for it. */
  lemma {:induction false} NoThingLeftBehind(s: State, events: seq<Event>)
    requires Owned(s)
    ensures AllTracked(HandleAll(s, events)) <==> AllTracked(s) && NothingLeft(s, events)
  {
    if events != [] {
      var n := |events| - 1;
      NoThingLeftBehind(s, events[..n]);
      NothingRunsUntracked(s, events[..n]);
      HandleTracking(HandleAll(s, events[..n]), events[n]);
      LastLeaves(s, events);
    }
  }

  // ------------------------------------------------ the registration that is not repaired

  const NOTHING: State := State(map[], map[], map[], {}, 0)

  /** The world in which registering a Thing in the catalog fails. */
  function Unregistering(env: Env): Env {
    env.(upsertFails := (d: Definition) => true)
  }

  lemma NoneIn(ids: seq<string>)
    ensures (forall id :: id !in ids) ==> ids == []
  {
    if ids != [] { assert ids[0] in ids; }
  }

  lemma UpsertFailsPass(env: Env, d: Definition)
    requires FailureFree(env) && d.active && env.canaryOk(d)
    ensures var r := ReconcileAll(Unregistering(env), NOTHING, [d]);
      && !r.ok && r.state.tracked.Keys == {d.id} && r.state.tracked[d.id].version == d.version
      && r.state.catalog == map[]
  {
    var bad, ds := Unregistering(env), [d];
    StopNothing(bad, NOTHING, NOTHING.tracked.Keys - ActiveIds(ds));
    var ids := bad.listed.value(NOTHING.catalog);
    NoneIn(ids);
    assert Sweep(bad, NOTHING, DefinedIds(ds)) == Result(NOTHING, true);
    assert ReconcileUpTo(bad, NOTHING, ds, 0) == Result(NOTHING, true);
    assert ReconcileUpTo(bad, NOTHING, ds, 1) == Reconcile(bad, NOTHING, d);
  }

  /** A registration can fail after the Thing is tracked, and no later pass repairs it: the
      Thing is tracked at its version, so even a pass without failures leaves the catalog
      without it. */
  lemma UnregisteredForGood(env: Env, d: Definition)
    requires FailureFree(env) && d.active && env.canaryOk(d) && IsVirtual(d.id)
    ensures var s := ReconcileAll(Unregistering(env), NOTHING, [d]).state; var s' := ReconcileAll(env, s, [d]).state;
      && s'.tracked.Keys == {d.id} && d.id !in s'.catalog && VirtualIds(s'.catalog) != s'.tracked.Keys
  {
    UpsertFailsPass(env, d);
    var s := ReconcileAll(Unregistering(env), NOTHING, [d]).state;
    PassSettles(env, s, [d], 0);
    Converges(env, s, [d]);
    assert SurvivorIds(env, s, [d]) == {d.id} by { assert Survives(env, s, [d][0]); }
    assert d.id !in VirtualIds(ReconcileAll(env, s, [d]).state.catalog);
  }

  // -------------------------------------------------------------- doing it again

  lemma StopNothing(env: Env, s: State, ids: set<string>)
    requires ids == {}
    ensures StopAll(env, s, ids) == s
  {
    var none: set<string> := {};
    assert s.tracked - none == s.tracked;
    assert ThingsOf(s, none) == {} && TriggersOf(s, none) == {};
    assert (set id | id in none && !env.deleteFails(id)) == none && s.catalog - none == s.catalog;
  }

  lemma {:induction false} SweepIdle(env: Env, s: State, ids: seq<string>, defined: set<string>, n: nat)
    requires n <= |ids| && FailureFree(env) && forall i :: 0 <= i < n ==> ids[i] in defined || env.stored(ids[i])
    ensures SweepUpTo(env, s, ids, defined, n) == Result(s, true)
  {
    if n > 0 { SweepIdle(env, s, ids, defined, n - 1); }
  }

  /** An inactive definition has no entries, and an active one is up to date. */
  ghost predicate InPlace(s: State, d: Definition) {
    if d.active then UpToDate(s, d) else d.id !in s.tracked && d.id !in s.catalog
  }

  lemma ReconcileIdle(env: Env, s: State, d: Definition)
    requires InPlace(s, d)
    ensures Reconcile(env, s, d) == Result(s, true)
  {
    if !d.active { assert s.catalog - {d.id} == s.catalog; }
  }

  /** A definition whose canary failed has no entries, and its canary fails again. */
  ghost predicate Withdrawn(env: Env, s: State, d: Definition) {
    d.active && d.id !in s.tracked && d.id !in s.catalog && !env.canaryOk(d)
  }

  /** How many of the first `n` definitions make their Thing anew and fail their canary. */
  function CanaryFailures(env: Env, s: State, ds: seq<Definition>, n: nat): nat
    requires n <= |ds|
  {
    if n == 0 then 0
    else CanaryFailures(env, s, ds, n - 1) + if NeedsThing(s, ds[n - 1]) && !env.canaryOk(ds[n - 1]) then 1 else 0
  }

  /** `n` Things have been produced and destroyed. */
  function Spent(s: State, n: nat): State {
    s.(next := s.next + n, produced := s.produced - Handles(s.next, n))
  }

  lemma ReconcileWithdrawn(env: Env, s: State, d: Definition, n: nat)
    requires FailureFree(env) && Withdrawn(env, s, d)
    ensures Reconcile(env, Spent(s, n), d) == Result(Spent(s, n + 1), true)
  {
    var t := Spent(s, n);
    var made := t.(produced := t.produced[t.next := d], next := t.next + 1);
    assert Forget(t, d.id) == t && t.catalog - {d.id} == t.catalog;
    assert made.produced - {t.next} == s.produced - Handles(s.next, n + 1);
  }

  lemma {:induction false} ReconcileUpToRepeats(env: Env, s: State, ds: seq<Definition>, n: nat)
    requires n <= |ds| && FailureFree(env)
    requires forall k :: 0 <= k < n ==> InPlace(s, ds[k]) || Withdrawn(env, s, ds[k])
    ensures ReconcileUpTo(env, s, ds, n) == Result(Spent(s, CanaryFailures(env, s, ds, n)), true)
  {
    if n > 0 {
      var m, d := CanaryFailures(env, s, ds, n - 1), ds[n - 1];
      ReconcileUpToRepeats(env, s, ds, n - 1);
      if InPlace(s, d) {
        assert InPlace(Spent(s, m), d);
        ReconcileIdle(env, Spent(s, m), d);
      } else {
        ReconcileWithdrawn(env, s, d, m);
      }
    } else {
      assert s.produced - Handles(s.next, 0) == s.produced;
    }
  }

  lemma PassRepeats(env: Env, s: State, ds: seq<Definition>)
    requires FailureFree(env) && s.tracked.Keys <= ActiveIds(ds)
    requires forall k :: 0 <= k < |ds| ==> InPlace(s, ds[k]) || Withdrawn(env, s, ds[k])
    requires forall id :: id in s.catalog && IsVirtual(id) && id !in DefinedIds(ds) ==> env.stored(id)
    ensures ReconcileAll(env, s, ds) == Result(Spent(s, CanaryFailures(env, s, ds, |ds|)), true)
  {
    assert s.tracked.Keys - ActiveIds(ds) == {};
    StopNothing(env, s, s.tracked.Keys - ActiveIds(ds));
    var ids := env.listed.value(s.catalog);
    forall i | 0 <= i < |ids| ensures ids[i] in DefinedIds(ds) || env.stored(ids[i]) {
      assert ids[i] in ids;
    }
    SweepIdle(env, s, ids, DefinedIds(ds), |ids|);
    ReconcileUpToRepeats(env, s, ds, |ds|);
  }

  /** The canaries that fail in the second pass are those that failed in the first. */
  lemma {:induction false} SameFailures(env: Env, s: State, s': State, ds: seq<Definition>, n: nat)
    requires n <= |ds| && forall k :: 0 <= k < n ==> Settled(env, s, s', ds[k])
    ensures CanaryFailures(env, s', ds, n) == CanaryFailures(env, s, ds, n)
    ensures CanaryFailures(env, s, ds, n) == 0 <==> forall k :: 0 <= k < n && NeedsThing(s, ds[k]) ==> env.canaryOk(ds[k])
  {
    if n > 0 {
      SameFailures(env, s, s', ds, n - 1);
      assert Settled(env, s, s', ds[n - 1]);
    }
  }

  lemma UnusedHandles(s: State, n: nat)
    requires Owned(s)
    ensures Spent(s, n) == s.(next := s.next + n)
  {
    forall h | h in Handles(s.next, n) ensures h !in s.produced { HandlesRange(s.next, n, h); }
    assert s.produced - Handles(s.next, n) == s.produced;
  }

  /** What a pass leaves for the next. */
  lemma PassLeaves(env: Env, s: State, ds: seq<Definition>)
    requires FailureFree(env) && DistinctIds(ds)
    ensures var s' := ReconcileAll(env, s, ds).state;
      && s'.tracked.Keys <= ActiveIds(ds)
      && (forall k :: 0 <= k < |ds| ==> Settled(env, s, s', ds[k]))
      && (forall k :: 0 <= k < |ds| ==> InPlace(s', ds[k]) || Withdrawn(env, s', ds[k]))
      && (forall id :: id in s'.catalog && IsVirtual(id) && id !in DefinedIds(ds) ==> env.stored(id))
  {
    var s' := ReconcileAll(env, s, ds).state;
    Converges(env, s, ds);
    SurvivorsActive(env, s, ds);
    forall k | 0 <= k < |ds| ensures Settled(env, s, s', ds[k]) && (InPlace(s', ds[k]) || Withdrawn(env, s', ds[k])) {
      PassSettles(env, s, ds, k);
    }
    forall id | id in s'.catalog && IsVirtual(id) && id !in DefinedIds(ds) ensures env.stored(id) {
      PassElsewhere(env, s, ds, id);
    }
  }

  /** A second pass produces one Thing, and destroys it, for each canary that failed in the
      first, and does nothing else: nothing at all exactly if none failed. */
  lemma SecondPassIdle(env: Env, s: State, ds: seq<Definition>)
    requires FailureFree(env) && DistinctIds(ds)
    ensures var s' := ReconcileAll(env, s, ds).state; var n := CanaryFailures(env, s, ds, |ds|);
      && ReconcileAll(env, s', ds) == Result(Spent(s', n), true)
      && (Owned(s) ==> Spent(s', n) == s'.(next := s'.next + n))
      && (ReconcileAll(env, s', ds) == Result(s', true) <==>
          forall k :: 0 <= k < |ds| && NeedsThing(s, ds[k]) ==> env.canaryOk(ds[k]))
  {
    var s' := ReconcileAll(env, s, ds).state;
    PassLeaves(env, s, ds);
    PassRepeats(env, s', ds);
    SameFailures(env, s, s', ds, |ds|);
    if Owned(s) {
      ReconcileAllOwned(env, s, ds);
      UnusedHandles(s', CanaryFailures(env, s, ds, |ds|));
    }
  }

  lemma SurvivorsActive(env: Env, s: State, ds: seq<Definition>)
    ensures SurvivorIds(env, s, ds) <= ActiveIds(ds)
  {
    forall id | id in SurvivorIds(env, s, ds) ensures id in ActiveIds(ds) {
      var i :| 0 <= i < |ds| && Survives(env, s, ds[i]) && ds[i].id == id;
      assert ds[i].active;
    }
  }

  // ------------------------------------------------- what a pass never takes away

  lemma {:induction false} SweepSpares(env: Env, s: State, ids: seq<string>, defined: set<string>, n: nat, id: string)
    requires n <= |ids| && id in s.catalog && (env.stored(id) || env.fetchFails(id) || id !in ids)
    ensures var s' := SweepUpTo(env, s, ids, defined, n).state; id in s'.catalog && s'.catalog[id] == s.catalog[id]
  {
    if n > 0 { SweepSpares(env, s, ids, defined, n - 1, id); }
  }

  /** Whatever fails and whatever list of definitions comes back, an entry that is not
      tracked and not in the list stays in the catalog as it is, if it is no virtual Thing,
      or if its definition is still stored or cannot be looked up. */
  lemma PassSpares(env: Env, s: State, ds: seq<Definition>, id: string)
    requires Lists(env) && id in s.catalog && id !in s.tracked && id !in DefinedIds(ds)
    requires !IsVirtual(id) || env.stored(id) || env.fetchFails(id)
    ensures var s' := ReconcileAll(env, s, ds).state; id in s'.catalog && s'.catalog[id] == s.catalog[id]
  {
    var stopped := StopAll(env, s, s.tracked.Keys - ActiveIds(ds));
    assert id in stopped.catalog && stopped.catalog[id] == s.catalog[id];
    var swept := Sweep(env, stopped, DefinedIds(ds));
    if env.listed.Some? {
      var ids := env.listed.value(stopped.catalog);
      assert id in ids ==> IsVirtual(id);
      SweepSpares(env, stopped, ids, DefinedIds(ds), |ids|, id);
    }
    ReconcileUpToElsewhere(env, swept.state, ds, |ds|, id);
  }
}
