/** What reconciling does to the Thing of one definition, and that the Things being tracked
    were made from bindings of the shapes their definitions have. */
module VirtualLaws {
  import opened Options
  import opened BindingShapes
  import opened VirtualModel
  import opened VirtualTheorems

  /** The same shapes equally often, in any order. */
  ghost predicate SameShapes(a: seq<Binding>, b: seq<Binding>) {
    multiset(ShapesOf(a)) == multiset(ShapesOf(b))
  }

  /** Nothing fails for this definition. */
  ghost predicate Smooth(env: Env, d: Definition) {
    && !env.produceFails(d) && !env.handlersFail(d) && env.canaryOk(d) && !env.exposeFails(d)
    && !env.triggersFail(d) && !env.upsertFails(d)
  }

  // ------------------------------------------------------------ one changed definition

  /** The entries under an id are tracked as before, but for version, definition and TD. */
  ghost predicate KeepsThing(s: State, s': State, id: string) {
    && id in s.tracked && id in s'.tracked
    && s'.tracked[id].thing == s.tracked[id].thing && s'.tracked[id].triggers == s.tracked[id].triggers
    && s'.produced == s.produced && s'.running == s.running
  }

  /** The old Thing is destroyed and nothing of it runs; a new one, made from `d`, is tracked. */
  ghost predicate ReplacesThing(s: State, s': State, d: Definition) {
    && d.id in s'.tracked && s'.tracked[d.id].definition == d
    && s'.tracked[d.id].thing in s'.produced && s'.produced[s'.tracked[d.id].thing] == d
    && s'.tracked[d.id].thing !in s.produced
    && (d.id in s.tracked ==> s.tracked[d.id].thing !in s'.produced && s.tracked[d.id].triggers !! s'.running)
  }

  lemma Exposed(env: Env, s: State, d: Definition, thing: nat)
    requires !env.triggersFail(d) && !env.upsertFails(d)
    ensures var r := Expose(env, s, d, thing);
      && r.ok && r.state.produced == s.produced && r.state.running == s.running + Handles(s.next, env.triggerCount(d))
      && d.id in r.state.tracked && r.state.tracked[d.id].definition == d && r.state.tracked[d.id].thing == thing
  {
  }

  lemma MadeNew(s: State, d: Definition)
    requires Owned(s)
    ensures var made := Made(s, d);
      && made.next == s.next + 1 && s.next in made.produced && made.produced[s.next] == d && s.next !in s.produced
      && (d.id in s.tracked ==> s.tracked[d.id].thing !in made.produced && s.tracked[d.id].triggers !! made.running)
  {
    ProduceOwned(s, d);
  }

  lemma ReplacedThing(env: Env, s: State, d: Definition)
    requires Owned(s) && Smooth(env, d)
    ensures ReplacesThing(s, Reproduce(env, s, d).state, d)
  {
    ProduceOwned(s, d);
    Exposed(env, Made(s, d), d, s.next);
    MadeNew(s, d);
    if d.id in s.tracked { OldTriggers(s, d, env.triggerCount(d)); }
  }

  lemma OldTriggers(s: State, d: Definition, count: nat)
    requires Owned(s) && d.id in s.tracked
    ensures s.tracked[d.id].triggers !! Handles(s.next + 1, count)
  {
    forall h | h in s.tracked[d.id].triggers ensures h !in Handles(s.next + 1, count) {
      assert h in s.running;
      HandlesRange(s.next + 1, count, h);
    }
  }

  /** An active definition that is tracked under another version, with nothing failing: the
      produced Thing with its timers and subscriptions is kept if and only if each shape of
      binding occurs as often as before; otherwise it is replaced. */
  lemma KeptExactly(env: Env, s: State, d: Definition)
    requires Owned(s) && Smooth(env, d) && d.active
    requires d.id in s.tracked && s.tracked[d.id].version != d.version
    requires AllValid(d.bindings) && AllValid(s.tracked[d.id].definition.bindings)
    ensures var r := Reconcile(env, s, d); var same := SameShapes(s.tracked[d.id].definition.bindings, d.bindings);
      && r.ok && d.id in r.state.tracked && r.state.tracked[d.id].version == d.version && r.state.tracked[d.id].definition == d
      && (KeepsThing(s, r.state, d.id) <==> same) && (ReplacesThing(s, r.state, d) <==> !same)
  {
    BindingsShapeEqualExact(s.tracked[d.id].definition.bindings, d.bindings);
    ReplacedThing(env, s, d);
  }

  /** An active definition that is not tracked, with nothing failing, gets a Thing made from
      it; one tracked at its version is left alone, and so is everything else. */
  lemma ProducedExactly(env: Env, s: State, d: Definition)
    requires Owned(s) && Smooth(env, d) && d.active
    ensures var r := Reconcile(env, s, d);
      && (d.id !in s.tracked ==> r.ok && ReplacesThing(s, r.state, d) && r.state.tracked[d.id].version == d.version)
      && (d.id in s.tracked && s.tracked[d.id].version == d.version ==> r == Result(s, true))
  {
    ReplacedThing(env, s, d);
  }

  /** A definition that is deleted or no longer active: its Thing is destroyed, nothing of it
      runs, it leaves the catalog unless deleting it there fails, and nothing else changes. */
  ghost predicate Ended(env: Env, s: State, s': State, id: string) {
    && id !in s'.tracked && (id in s.tracked ==> s.tracked[id].thing !in s'.produced && s.tracked[id].triggers !! s'.running)
    && (id in s'.catalog <==> id in s.catalog && env.deleteFails(id))
    && (forall k :: k != id ==> (k in s'.tracked <==> k in s.tracked) && (k in s.tracked ==> s'.tracked[k] == s.tracked[k]))
    && (forall k :: k != id ==> (k in s'.catalog <==> k in s.catalog) && (k in s.catalog ==> s'.catalog[k] == s.catalog[k]))
    && (forall k :: k in s'.tracked ==> s'.tracked[k].thing in s'.produced && s'.tracked[k].triggers <= s'.running)
  }

  lemma DeletedEnds(env: Env, s: State, id: string)
    requires Owned(s)
    ensures var r := ReconcileOne(env, s, None, id); r.ok && Ended(env, s, r.state, id)
    ensures forall d: Definition :: !d.active ==> ReconcileOne(env, s, Some(d), d.id).ok && Ended(env, s, ReconcileOne(env, s, Some(d), d.id).state, d.id)
  {
    StoppedEnds(env, s, id);
    forall d: Definition | !d.active ensures Ended(env, s, ReconcileOne(env, s, Some(d), d.id).state, d.id) {
      StoppedEnds(env, s, d.id);
    }
  }

  lemma StoppedEnds(env: Env, s: State, id: string)
    requires Owned(s)
    ensures Ended(env, s, Stop(env, s, id), id)
  {
    var s' := Stop(env, s, id);
    StopOwned(env, s, id);
    forall k | k in s'.tracked ensures s'.tracked[k].triggers <= s'.running {
      forall h | h in s'.tracked[k].triggers ensures h in s'.running {}
    }
  }

  /** A registration that fails leaves a tracked Thing of the same shapes as it was, under its
      old version, so that it is tried again. */
  lemma FailedUpdateRetried(env: Env, s: State, d: Definition)
    requires d.active && d.id in s.tracked && s.tracked[d.id].version != d.version && env.upsertFails(d)
    requires AllValid(d.bindings) && AllValid(s.tracked[d.id].definition.bindings)
    requires SameShapes(s.tracked[d.id].definition.bindings, d.bindings)
    ensures Reconcile(env, s, d) == Result(s, false)
  {
    BindingsShapeEqualExact(s.tracked[d.id].definition.bindings, d.bindings);
  }

  /** Where making a Thing anew can fail, and what is tracked and listed then.  A failed canary
      is no failure of the pass: the Thing is withdrawn.  Once triggers are started, or the Thing
      is to be registered, it stays tracked. */
  lemma ReproduceFails(env: Env, s: State, d: Definition)
    ensures var r := Reproduce(env, s, d);
      && (r.ok <==>
           && !env.produceFails(d) && !env.handlersFail(d)
           && (env.canaryOk(d) ==> !env.exposeFails(d) && !env.triggersFail(d) && !env.upsertFails(d)))
      && (d.id in r.state.tracked <==>
           !env.produceFails(d) && !env.handlersFail(d) && env.canaryOk(d) && !env.exposeFails(d))
      && (r.ok && d.id in r.state.tracked ==> d.id in r.state.catalog && r.state.catalog[d.id] == env.concreteTd(d))
      && (!r.ok ==> r.state.catalog == s.catalog)
      && (r.ok && d.id !in r.state.tracked ==>
           r.state.catalog == if env.deleteFails(d.id) then s.catalog else s.catalog - {d.id})
  {
  }

  /** The ids of virtual Things are those under their prefix. */
  lemma VirtualNames(id: string)
    ensures IsVirtual(id) <==> |id| >= 15 && id[..15] == "virtual:things:"
  {
  }

  /** Looking up an id that is listed and not defined can fail; the pass then ends without
      reconciling anything, and that id keeps its entry. */
  lemma {:induction false} SweepFails(env: Env, s: State, ids: seq<string>, defined: set<string>, n: nat, i: nat)
    requires i < n <= |ids| && ids[i] !in defined && env.fetchFails(ids[i])
    ensures !SweepUpTo(env, s, ids, defined, n).ok
  {
    if i < n - 1 { SweepFails(env, s, ids, defined, n - 1, i); }
  }

  lemma {:induction false} SweepWorks(env: Env, s: State, ids: seq<string>, defined: set<string>, n: nat)
    requires n <= |ids| && forall i :: 0 <= i < n ==> ids[i] in defined || !env.fetchFails(ids[i])
    ensures SweepUpTo(env, s, ids, defined, n).ok
  {
    if n > 0 { SweepWorks(env, s, ids, defined, n - 1); }
  }

  lemma FailedSweepEndsPass(env: Env, s: State, ds: seq<Definition>)
    ensures var stopped := StopAll(env, s, s.tracked.Keys - ActiveIds(ds)); var r := ReconcileAll(env, s, ds);
      env.listed.Some? && (exists id :: id in env.listed.value(stopped.catalog) && id !in DefinedIds(ds) && env.fetchFails(id)) ==>
        !r.ok && r.state == stopped.(catalog := r.state.catalog)
  {
    var stopped := StopAll(env, s, s.tracked.Keys - ActiveIds(ds));
    if env.listed.Some? {
      var ids := env.listed.value(stopped.catalog);
      SweepKeeps(env, stopped, ids, DefinedIds(ds), |ids|);
      if id :| id in ids && id !in DefinedIds(ds) && env.fetchFails(id) {
        var i :| 0 <= i < |ids| && ids[i] == id;
        SweepFails(env, stopped, ids, DefinedIds(ds), |ids|, i);
      }
    }
  }

  /** Stopping a set of Things takes exactly those out of the catalog whose deletion there does
      not fail. */
  lemma StopAllListed(env: Env, s: State, ids: set<string>)
    ensures var s' := StopAll(env, s, ids);
      s'.tracked == s.tracked - ids
      && forall id :: (id in s'.catalog <==> id in s.catalog && (id in ids ==> env.deleteFails(id)))
                      && (id in s'.catalog ==> s'.catalog[id] == s.catalog[id])
  {
  }

  // ------------------------------------------------------------------------ all runs

  /** Every tracked Thing was made from bindings of the shapes its definition has. */
  ghost predicate ShapesTrue(s: State) {
    forall id :: id in s.tracked ==>
      var t := s.tracked[id];
      && AllValid(t.definition.bindings) && t.thing in s.produced && AllValid(s.produced[t.thing].bindings)
      && SameShapes(s.produced[t.thing].bindings, t.definition.bindings)
  }

  /** Every definition that comes in has bindings that are values of the runtime. */
  ghost predicate ValidEvent(e: Event) {
    match e
    case Pass(_, ds) => forall i :: 0 <= i < |ds| ==> AllValid(ds[i].bindings)
    case Change(_, d, _) => d.Some? ==> AllValid(d.value.bindings)
    case Shutdown(_) => true
  }

  lemma ForgetShapes(s: State, id: string)
    requires Owned(s) && ShapesTrue(s)
    ensures ShapesTrue(Forget(s, id))
  {
  }

  lemma StopAllShapes(env: Env, s: State, ids: set<string>)
    requires Owned(s) && ShapesTrue(s)
    ensures ShapesTrue(StopAll(env, s, ids))
  {
    var s' := StopAll(env, s, ids);
    forall id | id in s'.tracked ensures s'.tracked[id].thing in s'.produced { OthersStay(s, ids, id); }
  }

  lemma MadeShapes(s: State, d: Definition)
    requires Owned(s) && ShapesTrue(s)
    ensures ShapesTrue(Made(s, d)) && ShapesTrue(Made(s, d).(produced := Made(s, d).produced - {s.next}))
    ensures d.id !in Made(s, d).tracked && Made(s, d).produced[s.next] == d
  {
    ForgetOwned(s, d.id);
    ForgetShapes(s, d.id);
    ProduceOwned(Forget(s, d.id), d);
  }

  lemma ExposeShapes(env: Env, s: State, d: Definition, thing: nat)
    requires ShapesTrue(s) && thing in s.produced && s.produced[thing] == d && AllValid(d.bindings)
    ensures ShapesTrue(Expose(env, s, d, thing).state)
  {
  }

  lemma ReproduceShapes(env: Env, s: State, d: Definition)
    requires Owned(s) && ShapesTrue(s) && AllValid(d.bindings)
    ensures ShapesTrue(Reproduce(env, s, d).state)
  {
    ForgetShapes(s, d.id);
    MadeShapes(s, d);
    if !env.produceFails(d) && !env.handlersFail(d) && env.canaryOk(d) && !env.exposeFails(d) {
      ExposeShapes(env, Made(s, d), d, s.next);
    }
  }

  lemma ReconcileShapes(env: Env, s: State, d: Definition)
    requires Owned(s) && ShapesTrue(s) && AllValid(d.bindings)
    ensures ShapesTrue(Reconcile(env, s, d).state)
  {
    if !d.active {
      ForgetShapes(s, d.id);
    } else if MetadataOnly(s, d) {
      BindingsShapeEqualExact(s.tracked[d.id].definition.bindings, d.bindings);
    } else if !UpToDate(s, d) {
      ReproduceShapes(env, s, d);
    }
  }

  lemma {:induction false} ReconcileUpToShapes(env: Env, s: State, ds: seq<Definition>, n: nat)
    requires n <= |ds| && Owned(s) && ShapesTrue(s) && forall i :: 0 <= i < |ds| ==> AllValid(ds[i].bindings)
    ensures ShapesTrue(ReconcileUpTo(env, s, ds, n).state)
  {
    if n > 0 {
      ReconcileUpToShapes(env, s, ds, n - 1);
      ReconcileUpToOwned(env, s, ds, n - 1);
      ReconcileShapes(env, ReconcileUpTo(env, s, ds, n - 1).state, ds[n - 1]);
    }
  }

  lemma PassShapes(env: Env, s: State, ds: seq<Definition>)
    requires Owned(s) && ShapesTrue(s) && forall i :: 0 <= i < |ds| ==> AllValid(ds[i].bindings)
    ensures ShapesTrue(ReconcileAll(env, s, ds).state)
  {
    var stale := s.tracked.Keys - ActiveIds(ds);
    var stopped, swept := StopAll(env, s, stale), AfterSweep(env, s, ds).state;
    StopAllOwned(env, s, stale);
    StopAllShapes(env, s, stale);
    SweepOwned(env, stopped, DefinedIds(ds));
    if env.listed.Some? {
      SweepKeeps(env, stopped, env.listed.value(stopped.catalog), DefinedIds(ds), |env.listed.value(stopped.catalog)|);
    }
    ReconcileUpToShapes(env, swept, ds, |ds|);
  }

  lemma HandleShapes(s: State, e: Event)
    requires Owned(s) && ShapesTrue(s) && ValidEvent(e)
    ensures ShapesTrue(Handle(s, e))
  {
    match e
    case Pass(env, ds) => PassShapes(env, s, ds);
    case Change(env, d, id) => {
      ForgetShapes(s, id);
      if d.Some? { ReconcileShapes(env, s, d.value); }
    }
    case Shutdown(env) => StopAllShapes(env, s, s.tracked.Keys);
  }

  /** Over any run, whatever fails, every tracked Thing was made from bindings of exactly the
      shapes its current definition has: however often its metadata changed, all its
      affordances have the handlers they were given when it was produced. */
  lemma {:induction false} ThingsFitDefinitions(s: State, events: seq<Event>)
    requires Owned(s) && ShapesTrue(s) && forall i :: 0 <= i < |events| ==> ValidEvent(events[i])
    ensures ShapesTrue(HandleAll(s, events))
  {
    if events != [] {
      var n := |events| - 1;
      ThingsFitDefinitions(s, events[..n]);
      NothingRunsUntracked(s, events[..n]);
      HandleShapes(HandleAll(s, events[..n]), events[n]);
    }
  }
}
