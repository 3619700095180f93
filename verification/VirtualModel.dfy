/** How the controller of virtual Things drives its produced Things and the catalog towards
    the stored definitions. */
module VirtualModel {
  import opened Options
  import opened BindingShapes

  /** A stored definition; `content` stands for its title and Thing Description. */
  datatype Definition = Definition(id: string, active: bool, version: int, bindings: seq<Binding>, content: nat)

  /** A produced Thing being tracked: its handle, and those of its timers and subscriptions. */
  datatype Tracked = Tracked(definition: Definition, version: int, catalogTd: nat, thing: nat, triggers: set<nat>)

  /** `produced` are the Things produced and not destroyed, each with the definition it was
      given its affordances and handlers from, `running` the timers and subscriptions started
      and not stopped; handles from `next` on are unused. */
  datatype State = State(
    tracked: map<string, Tracked>,
    catalog: map<string, nat>,
    produced: map<nat, Definition>,
    running: set<nat>,
    next: nat)

  /** What the world answers.  `triggerCount` is how many timers and subscriptions are
      started before starting them ends or fails. */
  datatype Env = Env(
    canaryOk: Definition -> bool,
    produceFails: Definition -> bool,
    handlersFail: Definition -> bool,
    exposeFails: Definition -> bool,
    triggersFail: Definition -> bool,
    triggerCount: Definition -> nat,
    upsertFails: Definition -> bool,
    deleteFails: string -> bool,
    listed: Option<map<string, nat> -> seq<string>>,
    fetchFails: string -> bool,
    stored: string -> bool,
    concreteTd: Definition -> nat,
    mergedTd: (nat, Definition) -> nat)

  const PREFIX := "virtual:things:"

  predicate IsVirtual(id: string) {
    PREFIX <= id
  }

  /** The catalog lists its virtual ids, each once. */
  ghost predicate Lists(env: Env) {
    env.listed.Some? ==>
      forall catalog: map<string, nat> ::
        var ids := env.listed.value(catalog);
        forall id :: id in ids <==> id in catalog && IsVirtual(id)
  }

  datatype Result = Result(state: State, ok: bool)

  // ------------------------------------------------------------------ operations

  function Forget(s: State, id: string): State {
    if id in s.tracked then
      s.(tracked := s.tracked - {id},
         produced := s.produced - {s.tracked[id].thing},
         running := s.running - s.tracked[id].triggers)
    else s
  }

  /** A failed deletion is only logged. */
  function DeleteFromCatalog(env: Env, s: State, id: string): State {
    if env.deleteFails(id) then s else s.(catalog := s.catalog - {id})
  }

  function Stop(env: Env, s: State, id: string): State {
    DeleteFromCatalog(env, Forget(s, id), id)
  }

  function UpdateMetadata(env: Env, s: State, d: Definition): Result
    requires d.id in s.tracked
  {
    var td := env.mergedTd(s.tracked[d.id].catalogTd, d);
    if env.upsertFails(d) then Result(s, false)
    else
      Result(s.(catalog := s.catalog[d.id := td],
                tracked := s.tracked[d.id := s.tracked[d.id].(version := d.version, definition := d, catalogTd := td)]), true)
  }

  function Handles(from: nat, count: nat): set<nat> {
    if count == 0 then {} else Handles(from, count - 1) + {from + count - 1}
  }

  /** The Thing is exposed: it is tracked before its triggers start and before its TD is
      in the catalog. */
  function Expose(env: Env, s: State, d: Definition, thing: nat): Result {
    var triggers := Handles(s.next, env.triggerCount(d));
    var td := env.concreteTd(d);
    var tracked := s.(tracked := s.tracked[d.id := Tracked(d, d.version, td, thing, triggers)],
                      running := s.running + triggers,
                      next := s.next + env.triggerCount(d));
    if env.triggersFail(d) || env.upsertFails(d) then Result(tracked, false)
    else Result(tracked.(catalog := s.catalog[d.id := td]), true)
  }

  function Reproduce(env: Env, s: State, d: Definition): Result {
    var stopped := Forget(s, d.id);
    if env.produceFails(d) then Result(stopped, false)
    else
      var thing := stopped.next;
      var made := stopped.(produced := stopped.produced[thing := d], next := thing + 1);
      if env.handlersFail(d) then Result(made, false)
      else if !env.canaryOk(d) then Result(DeleteFromCatalog(env, made.(produced := made.produced - {thing}), d.id), true)
      else if env.exposeFails(d) then Result(made, false)
      else Expose(env, made, d, thing)
  }

  predicate UpToDate(s: State, d: Definition) {
    d.active && d.id in s.tracked && s.tracked[d.id].version == d.version
  }

  /** The same affordances and triggers are tracked, under another version. */
  predicate MetadataOnly(s: State, d: Definition) {
    && d.active && d.id in s.tracked && s.tracked[d.id].version != d.version
    && BindingsShapeEqual(s.tracked[d.id].definition.bindings, d.bindings)
  }

  function Reconcile(env: Env, s: State, d: Definition): Result {
    if !d.active then Result(Stop(env, s, d.id), true)
    else if UpToDate(s, d) then Result(s, true)
    else if MetadataOnly(s, d) then UpdateMetadata(env, s, d)
    else Reproduce(env, s, d)
  }

  /** One changed definition: a deleted one is stopped. */
  function ReconcileOne(env: Env, s: State, d: Option<Definition>, id: string): Result {
    match d
    case None => Result(Stop(env, s, id), true)
    case Some(d) => Reconcile(env, s, d)
  }

  function ActiveIds(ds: seq<Definition>): set<string> {
    set i | 0 <= i < |ds| && ds[i].active :: ds[i].id
  }

  function DefinedIds(ds: seq<Definition>): set<string> {
    set i | 0 <= i < |ds| :: ds[i].id
  }

  function ThingsOf(s: State, ids: set<string>): set<nat> {
    set id | id in ids && id in s.tracked :: s.tracked[id].thing
  }

  function TriggersOf(s: State, ids: set<string>): set<nat> {
    set id, h | id in ids && id in s.tracked && h in s.tracked[id].triggers :: h
  }

  /** Stopping a set of Things, in any order. */
  function StopAll(env: Env, s: State, ids: set<string>): State {
    s.(tracked := s.tracked - ids,
       produced := s.produced - ThingsOf(s, ids),
       running := s.running - TriggersOf(s, ids),
       catalog := s.catalog - (set id | id in ids && !env.deleteFails(id)))
  }

  /** Looking at the first `n` listed ids; each is checked again before it is removed. */
  function SweepUpTo(env: Env, s: State, ids: seq<string>, defined: set<string>, n: nat): Result
    requires n <= |ids|
  {
    if n == 0 then Result(s, true)
    else
      var before := SweepUpTo(env, s, ids, defined, n - 1);
      var id := ids[n - 1];
      if !before.ok || id in defined then before
      else if env.fetchFails(id) then before.(ok := false)
      else if env.stored(id) then before
      else before.(state := DeleteFromCatalog(env, before.state, id))
  }

  function Sweep(env: Env, s: State, defined: set<string>): Result {
    match env.listed
    case None => Result(s, true)
    case Some(list) => SweepUpTo(env, s, list(s.catalog), defined, |list(s.catalog)|)
  }

  function ReconcileUpTo(env: Env, s: State, ds: seq<Definition>, n: nat): Result
    requires n <= |ds|
  {
    if n == 0 then Result(s, true)
    else
      var before := ReconcileUpTo(env, s, ds, n - 1);
      if before.ok then Reconcile(env, before.state, ds[n - 1]) else before
  }

  /** Stale Things are stopped, orphans swept, and every definition reconciled in turn. */
  function ReconcileAll(env: Env, s: State, ds: seq<Definition>): Result {
    var stopped := StopAll(env, s, s.tracked.Keys - ActiveIds(ds));
    var swept := Sweep(env, stopped, DefinedIds(ds));
    if swept.ok then ReconcileUpTo(env, swept.state, ds, |ds|) else swept
  }

  // -------------------------------------------------------------- nothing is leaked

  /** The timers and subscriptions running are those of tracked Things, each held once. */
  ghost predicate Owned(s: State) {
    && (forall h :: h in s.running <==> exists id :: id in s.tracked && h in s.tracked[id].triggers)
    && (forall a, b :: a in s.tracked && b in s.tracked && a != b ==>
         s.tracked[a].thing != s.tracked[b].thing && s.tracked[a].triggers !! s.tracked[b].triggers)
    && (forall id :: id in s.tracked ==> s.tracked[id].thing in s.produced)
    && (forall h :: h in s.running || h in s.produced ==> h < s.next)
  }

  /** Moreover no Thing is left produced without being tracked. */
  ghost predicate AllTracked(s: State) {
    forall h :: h in s.produced ==> exists id :: id in s.tracked && s.tracked[id].thing == h
  }
}
