/** Removing what has expired, and what cleaning up does not change. */
module FileCleanup {
  import opened Options
  import opened FileStore
  import opened FileSave
  import FilePublish

  predicate Expired(g: Settings, n: Node<Bytes>, now: int) {
    n.File? && n.mtime <= now - g.fileTtl
  }

  /** Whether an entry is a regular file, or a link to one. */
  predicate LeadsToFile(files: map<string, Node<Bytes>>, id: string) {
    id in files && (files[id].File? || files[id].target.Some?)
  }

  /** A live execution may exceed a short retention time. */
  predicate Abandoned(g: Settings, stage: Stage, now: int) {
    stage.StageDir? && stage.mtime < now - Max(g.artifactsTtl, g.executionTimeout + 60)
  }

  function FilesKept(g: Settings, files: map<string, Node<Bytes>>, now: int): map<string, Node<Bytes>> {
    map id | id in files && !Expired(g, files[id], now) :: files[id]
  }

  /** Expired files go, then manifests without a file, then abandoned stages. */
  function CleanedUp(g: Settings, s: Store, now: int, later: int): Store {
    var files := FilesKept(g, s.files, now);
    Store(
      map e | e in s.staging && !Abandoned(g, s.staging[e], later) :: s.staging[e],
      files,
      map id | id in s.manifests && LeadsToFile(files, id) :: s.manifests[id],
      s.legacy)
  }

  /** Nobody can tell the two results apart but by the kind of refusal. */
  predicate SameView(a: Lookup, b: Lookup) {
    a == b || (!a.Found? && !b.Found?)
  }

  /** The manifest of `id` is dropped although something older lies under the same name. */
  predicate Uncovers(g: Settings, s: Store, id: string, now: int) {
    && ValidId(id) && id in s.manifests && IsFile(s.legacy, id)
    && (!LeadsToFile(s.files, id) || Expired(g, s.files[id], now))
  }

  /** What can be read from now on is the same before and after cleaning up, except that an
      older file may come to light under the name of an artifact that was dropped. */
  lemma CleanupInvisible(g: Settings, s: Store, now: int, later: int, id: string, time: int)
    requires now <= time
    ensures SameView(Path(g, CleanedUp(g, s, now, later), id, time), Path(g, s, id, time)) <==> !Uncovers(g, s, id, now)
  {
    var s' := CleanedUp(g, s, now, later);
    assert id in s'.manifests <==> id in s.manifests && LeadsToFile(s.files, id) && !Expired(g, s.files[id], now);
    if id in s.manifests && id in s'.manifests {
      assert s'.manifests[id] == s.manifests[id] && s'.files[id] == s.files[id];
    }
  }

  /** Nothing expired, no manifest without its file and no abandoned stage is left, and
      cleaning up again finds nothing to do. */
  lemma CleanupComplete(g: Settings, s: Store, now: int, later: int)
    ensures var s' := CleanedUp(g, s, now, later);
      && (forall id :: id in s'.files ==> !Expired(g, s'.files[id], now))
      && (forall id :: id in s'.manifests ==> LeadsToFile(s'.files, id))
      && (forall e :: e in s'.staging ==> !Abandoned(g, s'.staging[e], later))
      && CleanedUp(g, s', now, later) == s'
  {
    var s' := CleanedUp(g, s, now, later);
    assert FilesKept(g, s'.files, now) == s'.files;
    assert CleanedUp(g, s', now, later).manifests == s'.manifests;
    assert CleanedUp(g, s', now, later).staging == s'.staging;
  }

  /** Exactly the regular files older than the retention time go, links never; and a manifest
      goes unless its name still leads to a regular file, which a dangling link does not. */
  lemma EntriesKept(g: Settings, s: Store, now: int, later: int, id: string)
    ensures var s' := CleanedUp(g, s, now, later);
      && (id in s'.files <==> id in s.files && (match s.files[id] case File(_, mtime) => now < mtime + g.fileTtl case Link(_) => true))
      && (id in s'.files ==> s'.files[id] == s.files[id])
      && (id in s'.manifests <==>
           && id in s.manifests && id in s.files
           && (match s.files[id] case File(_, mtime) => now < mtime + g.fileTtl case Link(target) => target != None))
      && (id in s'.manifests ==> s'.manifests[id] == s.manifests[id])
      && s'.legacy == s.legacy
  {
  }

  /** A stage is kept as it is while its execution may still be under way, or its files
      retained, whichever is longer; one older than both is removed, and links stay. */
  lemma StagesKept(g: Settings, s: Store, now: int, later: int, execution: string)
    requires execution in s.staging
    ensures var stage, s' := s.staging[execution], CleanedUp(g, s, now, later);
      && (execution in s'.staging <==>
          stage.StageLink? || later <= stage.mtime + g.executionTimeout + 60 || later <= stage.mtime + g.artifactsTtl)
      && (execution in s'.staging ==> s'.staging[execution] == stage)
  {
  }

  /** A stage in which a file was just saved survives every cleaning up while its execution may
      be under way. */
  lemma SavedStageSurvives(g: Settings, s: Store, execution: string, r: Request, now: int, later: int)
    requires SaveStore(g, s, execution, r).1.Ok? && later <= r.now + g.executionTimeout + 60
    ensures var s' := SaveStore(g, s, execution, r).0;
      execution in s'.staging && execution in CleanedUp(g, s', now, later).staging
      && CleanedUp(g, s', now, later).staging[execution] == s'.staging[execution]
  {
    SaveStaysInStage(g, s, execution, r);
    SaveSucceedsExactly(g, StageOf(s, execution, r.now), r);
    StagesKept(g, SaveStore(g, s, execution, r).0, now, later, execution);
  }

  /** Cleaning up between the saves and the publication of an execution inside its timeout
      does not change whether it is published, nor how its files are described. */
  lemma LiveStagePublished(g: Settings, s: Store, job: FilePublish.Job, now: int, later: int)
    requires job.execution in s.staging && s.staging[job.execution].StageDir?
    requires later <= s.staging[job.execution].mtime + g.executionTimeout + 60
    ensures FilePublish.Publish(g, CleanedUp(g, s, now, later), job).outcome == FilePublish.Publish(g, s, job).outcome
  {
    StagesKept(g, s, now, later, job.execution);
    FilePublish.OutcomeOfStage(g, s, CleanedUp(g, s, now, later), job);
  }

  /** A published artifact can be read, with the bytes that were staged, through any
      cleaning up before it expires. */
  lemma PublishedSurvives(g: Settings, s: Store, job: FilePublish.Job, k: nat, now: int, later: int, time: int)
    requires FilePublish.Publish(g, s, job).outcome.Ok? && k < |job.ids|
    requires now <= time < job.clock(FilePublish.STEPS * k + 1) + g.fileTtl
    ensures var s', id := FilePublish.Publish(g, s, job).store, job.ids[k];
      && id in FilePublish.DataOf(s, job.execution) && FilePublish.DataOf(s, job.execution)[id].File?
      && Path(g, CleanedUp(g, s', now, later), id, time) ==
         Found(FilePublish.DataOf(s, job.execution)[id].content, job.clock(FilePublish.STEPS * k + 1), true)
  {
    var s', id := FilePublish.Publish(g, s, job).store, job.ids[k];
    FilePublish.PublishedAll(g, s, job, k, time);
    CleanupInvisible(g, s', now, later, id, time);
    FilePublish.PublishedAll(g, s, job, k, now);
  }

  /** What was saved and then published is described with the size and digest of the bytes
      that are read back, as the save reported it. */
  lemma SavedPublishedDescribed(g: Settings, s: Store, r: Request, d: Descriptor, s': Store, job: FilePublish.Job, k: nat, now: int)
    requires SaveStore(g, s, job.execution, r) == (s', Ok(d))
    requires FilePublish.Publish(g, s', job).outcome.Ok? && k < |job.ids| && job.ids[k] == r.id
    requires now < job.clock(FilePublish.STEPS * k + 1) + g.fileTtl
    ensures var p := FilePublish.Publish(g, s', job);
      && k < |p.outcome.value| && p.outcome.value[k].descriptor == d
      && var found := Path(g, p.store, r.id, now);
      && found.Found? && d.size == |found.content| && d.digest == g.hash(found.content)
  {
    FilePublish.PublishedAll(g, s', job, k, now);
  }

  /** What a failed save leaves behind is never published. */
  lemma LeftoverNotPublished(g: Settings, s: Store, r: Request, s': Store, job: FilePublish.Job)
    requires SaveStore(g, s, job.execution, r) == (s', Failed) && r.id in job.ids
    requires r.id !in FilePublish.DataOf(s, job.execution) && r.id !in FilePublish.ManifestsOf(s, job.execution)
    ensures FilePublish.Publish(g, s', job).outcome.Failed?
  {
    if FilePublish.Publish(g, s', job).outcome.Ok? {
      var k :| 0 <= k < |job.ids| && job.ids[k] == r.id;
      FilePublish.PublishedManifest(g, s', job, k);
      LeftoverManifest(g, s, r, s', job.execution);
    }
  }

  lemma LeftoverManifest(g: Settings, s: Store, r: Request, s': Store, execution: string)
    requires SaveStore(g, s, execution, r) == (s', Failed)
    requires r.id !in FilePublish.DataOf(s, execution) && r.id !in FilePublish.ManifestsOf(s, execution)
    ensures var manifests := FilePublish.ManifestsOf(s', execution);
      r.id in manifests ==> manifests[r.id].File? && manifests[r.id].content.Malformed?
  {
    if r.named && !r.source.Unreadable? && StageOk(s, execution) { FailedSaveUndone(g, StageOf(s, execution, r.now), r); }
  }

  /** The first save of an execution, of bytes that fit. */
  ghost predicate FirstSave(g: Settings, s: Store, execution: string, r: Request) {
    && ValidExecution(execution) && execution !in s.staging
    && r.named && r.source.Literal? && !r.openFails && r.manifest.Written? && (forall k: nat :: !r.writeFails(k))
    && |r.source.bytes| <= g.maxBytes && |r.source.bytes| <= g.maxExecutionBytes && 0 < g.maxFiles
  }

  lemma FirstSaved(g: Settings, s: Store, execution: string, r: Request)
    requires FirstSave(g, s, execution, r)
    ensures var s' := SaveStore(g, s, execution, r).0;
      && FilePublish.DataOf(s', execution) == map[r.id := File(r.source.bytes, r.now)]
      && FilePublish.ManifestsOf(s', execution) ==
         map[r.id := File(Descriptor(r.id, |r.source.bytes|, g.hash(r.source.bytes), r.info), r.now)]
      && s'.legacy == s.legacy
  {
    SaveBytesExact(g, StageDir(map[], map[], r.now), r, r.source.bytes);
  }

  /** The store after that save and its publication. */
  ghost function FirstPublished(g: Settings, s: Store, execution: string, r: Request, clock: nat -> int): FilePublish.Publication {
    FilePublish.Publish(g, SaveStore(g, s, execution, r).0, FilePublish.Job(execution, [r.id], clock, None, None))
  }

  lemma FirstReady(g: Settings, s: Store, execution: string, r: Request, clock: nat -> int)
    requires FirstSave(g, s, execution, r) && ValidId(r.id) && clock(5) < clock(1) + g.fileTtl
    ensures FilePublish.Ready(g, SaveStore(g, s, execution, r).0, FilePublish.Job(execution, [r.id], clock, None, None))
  {
    FirstSaved(g, s, execution, r);
  }

  lemma ReadyReadable(g: Settings, s: Store, job: FilePublish.Job, k: nat, now: int)
    requires FilePublish.Ready(g, s, job) && job.fault.None? && k < |job.ids|
    ensures var p := FilePublish.Publish(g, s, job); var id := job.ids[k];
      && p.outcome.Ok? && p.store.legacy == s.legacy && IsFile(p.store.manifests, id) && IsFile(p.store.files, id)
      && var modified := job.clock(FilePublish.STEPS * k + 1);
      Path(g, p.store, id, now) ==
        if now < modified + g.fileTtl then Found(FilePublish.DataOf(s, job.execution)[id].content, modified, true) else Missing
  {
    FilePublish.PublishSucceedsExactly(g, s, job);
    FilePublish.PublishedAll(g, s, job, k, now);
    FilePublish.LegacyKept(g, s, job);
    FilePublish.PublishedFile(g, s, job, k);
  }

  lemma FirstReadable(g: Settings, s: Store, execution: string, r: Request, clock: nat -> int, now: int)
    requires FirstSave(g, s, execution, r) && ValidId(r.id) && clock(5) < clock(1) + g.fileTtl
    ensures var p := FirstPublished(g, s, execution, r, clock);
      && p.outcome.Ok? && p.store.legacy == s.legacy && IsFile(p.store.manifests, r.id) && IsFile(p.store.files, r.id)
      && Path(g, p.store, r.id, now) == if now < clock(1) + g.fileTtl then Found(r.source.bytes, clock(1), true) else Missing
  {
    FirstReady(g, s, execution, r, clock);
    FirstSaved(g, s, execution, r);
    ReadyReadable(g, SaveStore(g, s, execution, r).0, FilePublish.Job(execution, [r.id], clock, None, None), 0, now);
  }

  /** Cleaning up can uncover an older file: bytes are saved and published under the name of
      one, and once they have expired that name reads as the older file again. */
  lemma OlderFileUncovered(g: Settings, s: Store, execution: string, r: Request, clock: nat -> int, now: int, later: int)
    requires FirstSave(g, s, execution, r) && ValidId(r.id) && IsFile(s.legacy, r.id)
    requires clock(5) < clock(1) + g.fileTtl <= now
    ensures var p := FirstPublished(g, s, execution, r, clock);
      && p.outcome.Ok? && Uncovers(g, p.store, r.id, now)
      && Path(g, p.store, r.id, clock(5)) == Found(r.source.bytes, clock(1), true)
      && Path(g, p.store, r.id, now) == Missing
      && Path(g, CleanedUp(g, p.store, now, later), r.id, now) == Found(s.legacy[r.id].content, s.legacy[r.id].mtime, false)
  {
    FirstReadable(g, s, execution, r, clock, clock(5));
    FirstReadable(g, s, execution, r, clock, now);
  }
}
