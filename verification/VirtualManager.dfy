/** The controller as it runs, with its map of active Things changed in place. */
module VirtualManager {
  import opened Options
  import opened BindingShapes
  import opened VirtualModel
  import VirtualTheorems

  /** A produced Thing and what keeps it going. */
  class ActiveThing {
    const thing: nat
    var triggers: set<nat>
    var version: int
    var definition: Definition
    var catalogTd: nat

    constructor (thing: nat, definition: Definition, catalogTd: nat)
      ensures this.thing == thing && triggers == {} && version == definition.version
      ensures this.definition == definition && this.catalogTd == catalogTd
    {
      this.thing := thing;
      triggers := {};
      version := definition.version;
      this.definition := definition;
      this.catalogTd := catalogTd;
    }

    function Shown(): Tracked
      reads this
    {
      Tracked(definition, version, catalogTd, thing, triggers)
    }
  }

  class Manager {
    var activeThings: map<string, ActiveThing>
    var catalog: map<string, nat>
    var produced: map<nat, Definition>
    var running: set<nat>
    var next: nat

    constructor ()
      ensures Valid() && State() == VirtualModel.State(map[], map[], map[], {}, 0)
    {
      activeThings := map[];
      catalog := map[];
      produced := map[];
      running := {};
      next := 0;
    }

    /** No two ids share an active Thing. */
    ghost predicate Valid()
      reads this
    {
      forall a, b :: a in activeThings && b in activeThings && a != b ==> activeThings[a] != activeThings[b]
    }

    function State(): State
      reads this, activeThings.Values
    {
      VirtualModel.State(map id | id in activeThings :: activeThings[id].Shown(), catalog, produced, running, next)
    }

    // ------------------------------------------------------------------- stopping

    method ForgetThing(id: string)
      requires Valid()
      modifies this`activeThings, this`produced, this`running
      ensures Valid() && State() == Forget(old(State()), id)
      ensures activeThings == old(activeThings) - {id}
    {
      if id in activeThings {
        var active := activeThings[id];
        activeThings := activeThings - {id};
        running := running - active.triggers;
        produced := produced - {active.thing};
      }
    }

    method DeleteCatalogThing(env: Env, id: string)
      modifies this`catalog
      ensures catalog == if env.deleteFails(id) then old(catalog) else old(catalog) - {id}
    {
      if !env.deleteFails(id) { catalog := catalog - {id}; }
    }

    method StopActiveThing(env: Env, id: string, keepCatalog: bool)
      requires Valid()
      modifies this`activeThings, this`produced, this`running, this`catalog
      ensures Valid() && State() == if keepCatalog then Forget(old(State()), id) else Stop(env, old(State()), id)
      ensures activeThings == old(activeThings) - {id}
    {
      ForgetThing(id);
      if keepCatalog { return; }
      DeleteCatalogThing(env, id);
    }

    // ----------------------------------------------------------------- reconciling

    method ApplyMetadataOnlyChange(env: Env, active: ActiveThing, d: Definition) returns (ok: bool)
      requires Valid() && d.id in activeThings && activeThings[d.id] == active
      modifies this`catalog, active
      ensures Valid() && Result(State(), ok) == UpdateMetadata(env, old(State()), d)
    {
      var td := env.mergedTd(active.catalogTd, d);
      if env.upsertFails(d) { return false; }
      catalog := catalog[d.id := td];
      active.version := d.version;
      active.definition := d;
      active.catalogTd := td;
      ok := true;
    }

    /** Each trigger's handle is kept as soon as it is started. */
    method StartTriggers(env: Env, d: Definition, active: ActiveThing) returns (ok: bool)
      requires active.triggers == {}
      modifies this`running, this`next, active`triggers
      ensures ok == !env.triggersFail(d)
      ensures active.triggers == Handles(old(next), env.triggerCount(d))
      ensures running == old(running) + active.triggers && next == old(next) + env.triggerCount(d)
    {
      for i := 0 to env.triggerCount(d)
        invariant next == old(next) + i && active.triggers == Handles(old(next), i)
        invariant running == old(running) + active.triggers
      {
        running := running + {next};
        active.triggers := active.triggers + {next};
        next := next + 1;
      }
      ok := !env.triggersFail(d);
    }

    method Track(d: Definition, td: nat, thing: nat) returns (active: ActiveThing)
      requires Valid()
      modifies this`activeThings
      ensures Valid() && fresh(active) && activeThings == old(activeThings)[d.id := active]
      ensures active.Shown() == Tracked(d, d.version, td, thing, {})
    {
      active := new ActiveThing(thing, d, td);
      activeThings := activeThings[d.id := active];
    }

    /** Tracks the Thing, then starts its triggers. */
    method TrackAndStart(env: Env, d: Definition, td: nat, thing: nat) returns (ok: bool)
      requires Valid()
      modifies this`activeThings, this`running, this`next
      ensures Valid() && ok == !env.triggersFail(d)
      ensures var triggers := Handles(old(next), env.triggerCount(d));
        && activeThings.Keys == old(activeThings).Keys + {d.id} && fresh(activeThings[d.id])
        && (forall id :: id in old(activeThings) && id != d.id ==> activeThings[id] == old(activeThings)[id])
        && activeThings[d.id].Shown() == Tracked(d, d.version, td, thing, triggers)
        && running == old(running) + triggers && next == old(next) + env.triggerCount(d)
    {
      var active := Track(d, td, thing);
      ok := StartTriggers(env, d, active);
    }

    /** Tracks the Thing, starts its triggers, then registers its TD. */
    method ExposeThing(env: Env, d: Definition, thing: nat) returns (ok: bool)
      requires Valid()
      modifies this`activeThings, this`running, this`next, this`catalog
      ensures Valid() && Result(State(), ok) == Expose(env, old(State()), d, thing)
      ensures fresh(activeThings.Values - old(activeThings.Values))
    {
      var td := env.concreteTd(d);
      ok := TrackAndStart(env, d, td, thing);
      assert State().tracked == old(State().tracked)[d.id := activeThings[d.id].Shown()];
      if ok {
        if env.upsertFails(d) { return false; }
        catalog := catalog[d.id := td];
      }
    }

    /** A new Thing with its handlers, under a new handle. */
    method Produce(env: Env, d: Definition) returns (thing: Option<nat>)
      requires Valid()
      modifies this`produced, this`next
      ensures Valid() && thing == if env.produceFails(d) then None else Some(old(next))
      ensures State() == if thing.None? then old(State()) else
        old(State()).(produced := old(produced)[old(next) := d], next := old(next) + 1)
    {
      if env.produceFails(d) { return None; }
      thing := Some(next);
      produced := produced[next := d];
      next := next + 1;
    }

    /** A Thing whose canary failed is destroyed, and taken out of the catalog. */
    method Withdraw(env: Env, id: string, thing: nat)
      requires Valid()
      modifies this`produced, this`catalog
      ensures Valid() && State() == DeleteFromCatalog(env, old(State()).(produced := old(produced) - {thing}), id)
    {
      produced := produced - {thing};
      DeleteCatalogThing(env, id);
    }

    method ReproduceThing(env: Env, d: Definition) returns (ok: bool)
      requires Valid()
      modifies this
      ensures Valid() && Result(State(), ok) == Reproduce(env, old(State()), d)
      ensures fresh(activeThings.Values - old(activeThings.Values))
    {
      StopActiveThing(env, d.id, true);
      var thing := Produce(env, d);
      if thing.None? || env.handlersFail(d) { return false; }
      if !env.canaryOk(d) {
        Withdraw(env, d.id, thing.value);
        return true;
      }
      if env.exposeFails(d) { return false; }
      ok := ExposeThing(env, d, thing.value);
    }

    method ReconcileDefinition(env: Env, d: Option<Definition>, id: string) returns (ok: bool)
      requires Valid()
      modifies this, activeThings.Values
      ensures Valid() && Result(State(), ok) == ReconcileOne(env, old(State()), d, id)
      ensures fresh(activeThings.Values - old(activeThings.Values))
    {
      if d.None? {
        StopActiveThing(env, id, false);
        return true;
      }
      var definition := d.value;
      if !definition.active {
        StopActiveThing(env, definition.id, false);
        return true;
      }
      if definition.id in activeThings {
        var current := activeThings[definition.id];
        if current.version == definition.version { return true; }
        if BindingsShapeEqual(current.definition.bindings, definition.bindings) {
          ok := ApplyMetadataOnlyChange(env, current, definition);
          return;
        }
      }
      ok := ReproduceThing(env, definition);
    }

    // ---------------------------------------------------------------- a whole pass

    method StopStale(env: Env, stale: set<string>)
      requires Valid() && stale <= activeThings.Keys
      modifies this`activeThings, this`produced, this`running, this`catalog
      ensures Valid() && State() == StopAll(env, old(State()), stale)
      ensures activeThings.Values <= old(activeThings.Values)
    {
      ghost var s := State();
      var todo := stale;
      ghost var gone: set<string> := {};
      VirtualTheorems.StopNothing(env, s, {});
      while todo != {}
        invariant Valid() && gone + todo == stale && gone !! todo
        invariant State() == StopAll(env, s, gone)
        invariant activeThings.Values <= old(activeThings.Values)
        decreases todo
      {
        var id :| id in todo;
        StopActiveThing(env, id, false);
        StopOneMore(env, s, gone, id);
        todo := todo - {id};
        gone := gone + {id};
      }
      assert gone == stale;
    }

    method SweepOrphanCatalogThings(env: Env, defined: set<string>) returns (ok: bool)
      modifies this`catalog
      ensures Result(State(), ok) == Sweep(env, old(State()), defined)
    {
      if env.listed.None? { return true; }
      var ids := env.listed.value(catalog);
      ghost var s := State();
      for i := 0 to |ids|
        invariant Result(State(), true) == SweepUpTo(env, s, ids, defined, i)
      {
        if ids[i] !in defined {
          if env.fetchFails(ids[i]) {
            SweepStopped(env, s, ids, defined, i + 1, |ids|);
            return false;
          }
          if !env.stored(ids[i]) { DeleteCatalogThing(env, ids[i]); }
        }
      }
      ok := true;
    }

    method ReconcileEach(env: Env, ds: seq<Definition>) returns (ok: bool)
      requires Valid()
      modifies this, activeThings.Values
      ensures Valid() && Result(State(), ok) == ReconcileUpTo(env, old(State()), ds, |ds|)
    {
      ghost var s := State();
      for i := 0 to |ds|
        invariant Valid() && Result(State(), true) == ReconcileUpTo(env, s, ds, i)
        invariant fresh(activeThings.Values - old(activeThings.Values))
      {
        ok := ReconcileDefinition(env, Some(ds[i]), ds[i].id);
        if !ok {
          ReconcileStopped(env, s, ds, i + 1, |ds|);
          return;
        }
      }
      ok := true;
    }

    /** Stops stale Things, sweeps orphans and reconciles every definition. */
    method ReconcileEverything(env: Env, ds: seq<Definition>) returns (ok: bool)
      requires Valid()
      modifies this, activeThings.Values
      ensures Valid() && Result(State(), ok) == ReconcileAll(env, old(State()), ds)
    {
      assert State().tracked.Keys == activeThings.Keys;
      StopStale(env, activeThings.Keys - ActiveIds(ds));
      ok := SweepOrphanCatalogThings(env, DefinedIds(ds));
      if ok { ok := ReconcileEach(env, ds); }
    }
  }

  /** Stopping one Thing after a set of others is stopping the larger set. */
  lemma StopOneMore(env: Env, s: State, gone: set<string>, id: string)
    requires id in s.tracked && id !in gone
    ensures Stop(env, StopAll(env, s, gone), id) == StopAll(env, s, gone + {id})
  {
    var t, all := s.tracked[id], gone + {id};
    assert ThingsOf(s, all) == ThingsOf(s, gone) + {t.thing};
    assert TriggersOf(s, all) == TriggersOf(s, gone) + t.triggers;
    var mid := StopAll(env, s, gone);
    assert mid.tracked[id] == t;
    assert mid.tracked - {id} == s.tracked - all;
    assert mid.produced - {t.thing} == s.produced - ThingsOf(s, all);
    assert mid.running - t.triggers == s.running - TriggersOf(s, all);
    assert Stop(env, mid, id).catalog == StopAll(env, s, all).catalog;
  }

  lemma {:induction false} SweepStopped(env: Env, s: State, ids: seq<string>, defined: set<string>, n: nat, m: nat)
    requires n <= m <= |ids| && !SweepUpTo(env, s, ids, defined, n).ok
    ensures SweepUpTo(env, s, ids, defined, m) == SweepUpTo(env, s, ids, defined, n)
  {
    if n < m { SweepStopped(env, s, ids, defined, n, m - 1); }
  }

  lemma {:induction false} ReconcileStopped(env: Env, s: State, ds: seq<Definition>, n: nat, m: nat)
    requires n <= m <= |ds| && !ReconcileUpTo(env, s, ds, n).ok
    ensures ReconcileUpTo(env, s, ds, m) == ReconcileUpTo(env, s, ds, n)
  {
    if n < m { ReconcileStopped(env, s, ds, n, m - 1); }
  }
}
