/** The artifact store as the executor keeps it, changed in place. */
module FileArtifacts {
  import opened Options
  import opened FileStore
  import opened FileSave
  import opened FilePublish
  import opened FileCleanup

  class FileArtifacts {
    const settings: Settings
    var staging: map<string, Stage>
    var files: map<string, Node<Bytes>>
    var manifests: map<string, Node<Descriptor>>
    var legacy: map<string, Node<Bytes>>

    constructor (settings: Settings, s: Store)
      ensures this.settings == settings && State() == s
    {
      this.settings := settings;
      staging := s.staging;
      files := s.files;
      manifests := s.manifests;
      legacy := s.legacy;
    }

    function State(): Store
      reads this
    {
      Store(staging, files, manifests, legacy)
    }

    // ------------------------------------------------------------------------ save

    /** The sum of the sizes in a stage, unless one cannot be measured. */
    method Measure(data: map<string, Node<Bytes>>) returns (total: Option<nat>)
      ensures total.Some? <==> Measurable(data)
      ensures total.Some? ==> total.value == Total(data)
    {
      var rest := data;
      var sum := 0;
      while rest != map[]
        invariant rest.Keys <= data.Keys && forall k :: k in rest ==> rest[k] == data[k]
        invariant forall k :: k in data && k !in rest ==> SizeOf(data[k]).Some?
        invariant Measurable(data) ==> sum + Total(rest) == Total(data)
        decreases rest.Keys
      {
        var k :| k in rest;
        if SizeOf(rest[k]).None? { return None; }
        if Measurable(data) { TotalWithout(rest, k); }
        sum := sum + SizeOf(rest[k]).value;
        rest := rest - {k};
      }
      total := Some(sum);
    }

    /** Copies the stream into the staged file, chunk by chunk. */
    method Fill(execution: string, r: Request, limit: int) returns (done: bool, content: Bytes, ghost consumed: nat)
      requires execution in staging && staging[execution].StageDir?
      requires IsFile(staging[execution].data, r.id) && staging[execution].data[r.id] == File([], r.now)
      modifies this`staging
      ensures var drained := Drain(r.source, limit, r.writeFails, [], 0);
        && consumed == drained.consumed && content == drained.written && done == drained.content.Some?
      ensures staging == WithContent(old(staging), execution, r.id, content, r.now)
    {
      content := [];
      var call := 0;
      consumed := 0;
      WithContentSame(staging, execution, r.id, [], r.now);
      while true
        invariant |content| <= Max(0, limit)
        invariant staging == WithContent(old(staging), execution, r.id, content, r.now)
        invariant Drain(r.source, limit, r.writeFails, content, call) == Drain(r.source, limit, r.writeFails, [], 0)
        decreases Max(0, limit) - |content|
      {
        var chunk := Read(r.source, |content|, call, Want(limit, |content|));
        if !chunk.Chunk? { return false, content, |content|; }
        if chunk.bytes == [] { return true, content, |content|; }
        if |content| + |chunk.bytes| > limit || r.writeFails(call) {
          return false, content, |content| + |chunk.bytes|;
        }
        Append(execution, r.id, chunk.bytes, r.now);
        WithContentTwice(old(staging), execution, r.id, content, content + chunk.bytes, r.now);
        content := content + chunk.bytes;
        call := call + 1;
      }
    }

    method Append(execution: string, id: string, bytes: Bytes, now: int)
      requires execution in staging && staging[execution].StageDir? && IsFile(staging[execution].data, id)
      modifies this`staging
      ensures staging == WithContent(old(staging), execution, id, old(staging[execution].data[id].content) + bytes, now)
    {
      var stage := staging[execution];
      staging := staging[execution := stage.(data := stage.data[id := File(stage.data[id].content + bytes, now)])];
    }

    /** Creates the file, fills it and writes its manifest; removes both if anything fails. */
    method Create(execution: string, r: Request, limit: int) returns (out: Outcome<Descriptor>, ghost consumed: nat)
      requires execution in staging && staging[execution].StageDir? && r.id !in staging[execution].data
      requires Measurable(staging[execution].data) && |staging[execution].data| < settings.maxFiles && !r.openFails
      requires limit == Limit(settings, staging[execution].data)
      modifies this`staging
      ensures var saving := FileSave.Save(settings, old(staging[execution]), r);
        && staging == old(staging)[execution := saving.stage]
        && out == saving.outcome && consumed == saving.consumed
    {
      var stage := staging[execution];
      staging := staging[execution := stage.(data := stage.data[r.id := File([], r.now)], mtime := r.now)];
      var done, content;
      done, content, consumed := Fill(execution, r, limit);
      assert staging[execution] == stage.(data := stage.data[r.id := File(content, r.now)], mtime := r.now);
      out := Failed;
      if done { out := WriteManifest(execution, r, Descriptor(r.id, |content|, settings.hash(content), r.info)); }
      if out.Failed? { RemoveBoth(execution, r); }
    }

    method WriteManifest(execution: string, r: Request, d: Descriptor) returns (out: Outcome<Descriptor>)
      requires execution in staging && staging[execution].StageDir?
      modifies this`staging
      ensures out == if r.manifest.Written? then Ok(d) else Failed
      ensures staging == if r.manifest.NotOpened? then old(staging) else
        old(staging)[execution := WithManifest(old(staging[execution]), r.id, if r.manifest.Written? then d else Malformed, r.now)]
    {
      out := Failed;
      if !r.manifest.NotOpened? {
        var stage := staging[execution];
        var text := if r.manifest.Written? then d else Malformed;
        staging := staging[execution := stage.(manifests := stage.manifests[r.id := File(text, r.now)], mtime := r.now)];
        if r.manifest.Written? { out := Ok(d); }
      }
    }

    /** Undoes a failed save: the file goes, then the manifest, up to the removal that raises. */
    method RemoveBoth(execution: string, r: Request)
      requires execution in staging && staging[execution].StageDir?
      modifies this`staging
      ensures staging == old(staging)[execution := Removed(old(staging[execution]), r.id, r.now, r.undoFault)]
    {
      assert staging == staging[execution := staging[execution]];
      if r.undoFault == Some(0) { return; }
      var stage := staging[execution];
      if r.id in stage.data { staging := staging[execution := stage.(data := stage.data - {r.id}, mtime := r.now)]; }
      if r.undoFault == Some(1) { return; }
      stage := staging[execution];
      if r.id in stage.manifests { staging := staging[execution := stage.(manifests := stage.manifests - {r.id}, mtime := r.now)]; }
    }

    /** Saving a file in the stage of an execution. */
    method Save(execution: string, r: Request) returns (out: Outcome<Descriptor>, ghost consumed: nat)
      modifies this`staging
      ensures (State(), out) == SaveStore(settings, old(State()), execution, r)
      ensures r.named && !r.source.Unreadable? && StageOk(old(State()), execution) ==>
        consumed == FileSave.Save(settings, StageOf(old(State()), execution, r.now), r).consumed
    {
      consumed := 0;
      if !r.named || r.source.Unreadable? || !StageOk(State(), execution) { return Failed, 0; }
      var stage := StageOf(State(), execution, r.now);
      staging := staging[execution := stage];
      out, consumed := SaveInto(execution, r);
      assert staging == old(staging)[execution := FileSave.Save(settings, stage, r).stage];
    }

    /** The same, once the directory is there. */
    method SaveInto(execution: string, r: Request) returns (out: Outcome<Descriptor>, ghost consumed: nat)
      requires execution in staging && staging[execution].StageDir?
      modifies this`staging
      ensures var saving := FileSave.Save(settings, old(staging[execution]), r);
        && staging == old(staging)[execution := saving.stage]
        && out == saving.outcome && consumed == saving.consumed
    {
      var stage := staging[execution];
      assert staging == staging[execution := stage];
      if |stage.data| >= settings.maxFiles { return Failed, 0; }
      var total := Measure(stage.data);
      if total.None? { return Failed, 0; }
      if r.openFails || r.id in stage.data {
        RemoveBoth(execution, r);
        return Failed, 0;
      }
      out, consumed := Create(execution, r, Min(settings.maxBytes, settings.maxExecutionBytes - total.value));
    }

    // --------------------------------------------------------------------- publish

    /** Step `n`, unless an exception arrives or it fails. */
    method PublishStep(job: Job, n: nat, published: seq<string>, ghost s: Store) returns (ok: bool, recorded: seq<string>)
      requires n < STEPS * |job.ids| && StageOk(State(), job.execution)
      requires AdvanceTo(s, job, n) == Progress(State(), published, false, n)
      modifies this`staging, this`files, this`manifests
      ensures AdvanceTo(s, job, n + 1) == Progress(State(), recorded, !ok, if ok then n + 1 else n)
      ensures StageOk(State(), job.execution)
    {
      var id, r := job.ids[n / STEPS], n % STEPS;
      if job.fault == Some(n) || !StepOk(State(), job.execution, id, r) { return false, published; }
      ok := true;
      recorded := Perform(job, id, r, n, published);
    }

    method Perform(job: Job, id: string, r: nat, n: nat, published: seq<string>) returns (recorded: seq<string>)
      requires r < STEPS && StageOk(State(), job.execution) && StepOk(State(), job.execution, id, r)
      modifies this`staging, this`files, this`manifests
      ensures Progress(State(), recorded, false, n + 1) ==
        Advance(job, Progress(old(State()), published, false, n), id, r, job.clock(n))
      ensures StageOk(State(), job.execution)
    {
      recorded := published;
      if r == 1 || r == 2 || r == 4 {
        var stage := staging[job.execution];
        if r == 1 {
          if stage.data[id].File? {
            staging := staging[job.execution := stage.(data := stage.data[id := stage.data[id].(mtime := job.clock(n))])];
          }
        } else if r == 2 {
          files := files[id := stage.data[id]];
          staging := staging[job.execution := stage.(data := stage.data - {id}, mtime := job.clock(n))];
        } else {
          manifests := manifests[id := stage.manifests[id]];
          staging := staging[job.execution := stage.(manifests := stage.manifests - {id}, mtime := job.clock(n))];
        }
      } else if r == 3 {
        recorded := published + [id];
      }
    }

    /** All steps of all items, up to the first that fails. */
    method PublishItems(job: Job, ghost s: Store) returns (ok: bool, published: seq<string>)
      requires StageOk(State(), job.execution) && s == State()
      modifies this`staging, this`files, this`manifests
      ensures var pr := AdvanceTo(s, job, STEPS * |job.ids|);
        pr.store == State() && pr.published == published && pr.failed == !ok
    {
      published := [];
      for n := 0 to STEPS * |job.ids|
        invariant StageOk(State(), job.execution)
        invariant AdvanceTo(s, job, n) == Progress(State(), published, false, n)
      {
        ok, published := PublishStep(job, n, published, s);
        if !ok {
          FailedStays(s, job, n + 1, STEPS * |job.ids|);
          return;
        }
      }
      ok := true;
    }

    /** Removes what was published, up to the removal that raises. */
    method UndoPublished(job: Job, published: seq<string>)
      modifies this`files, this`manifests
      ensures State() == Undo(old(State()), job, published)
    {
      for k := 0 to |published|
        invariant State() == UndoTo(old(State()), published, 2 * k) && UndoReaches(job, 2 * k)
      {
        if job.undoFault == Some(2 * k) { return; }
        files := files - {published[k]};
        assert State() == UndoTo(old(State()), published, 2 * k + 1);
        if job.undoFault == Some(2 * k + 1) { return; }
        manifests := manifests - {published[k]};
      }
    }

    /** Publishing the staged files of an execution, undoing what was done if anything fails. */
    method Publish(job: Job) returns (out: Outcome<seq<Description>>)
      modifies this`staging, this`files, this`manifests
      ensures if StageOk(old(State()), job.execution)
        then Publication(State(), out) == FilePublish.Publish(settings, old(State()), job)
        else State() == old(State()) && out == Failed
    {
      if !StageOk(State(), job.execution) { return Failed; }
      var ok, published := PublishItems(job, State());
      out := Failed;
      if ok { out := DescribeAll(job); }
      if out.Failed? { UndoPublished(job, published); }
    }

    method DescribeAll(job: Job) returns (out: Outcome<seq<Description>>)
      ensures out == DescribeUpTo(settings, State(), job, |job.ids|)
    {
      var described: seq<Description> := [];
      for j := 0 to |job.ids|
        invariant DescribeUpTo(settings, State(), job, j) == Ok(described)
      {
        var step := STEPS * |job.ids| + j;
        var d := Describe(settings, State(), job.ids[j], job.clock(step));
        if job.fault == Some(step) || d.Failed? {
          DescribeStops(settings, State(), job, j + 1, |job.ids|);
          return Failed;
        }
        described := described + [d.value];
      }
      out := Ok(described);
    }

    // ------------------------------------------------------------ discard and clean up

    /** Throws the stage of an execution away. */
    method Discard(execution: string) returns (ok: bool)
      modifies this`staging
      ensures ok <==> StageOk(old(State()), execution)
      ensures State() == if ok then old(State()).(staging := old(staging) - {execution}) else old(State())
    {
      if !StageOk(State(), execution) { return false; }
      staging := staging - {execution};
      ok := true;
    }

    method ReapFiles(now: int)
      modifies this`files, this`manifests
      ensures files == FilesKept(settings, old(files), now)
      ensures manifests == old(manifests) - (old(files).Keys - files.Keys)
    {
      var todo := files.Keys;
      while todo != {}
        invariant todo <= old(files).Keys
        invariant files == map id | id in old(files) && (id in todo || !Expired(settings, old(files)[id], now)) :: old(files)[id]
        invariant manifests == old(manifests) - (old(files).Keys - files.Keys)
        decreases todo
      {
        var id :| id in todo;
        if Expired(settings, files[id], now) {
          files := files - {id};
          manifests := manifests - {id};
        }
        todo := todo - {id};
      }
    }

    method ReapManifests()
      modifies this`manifests
      ensures manifests == map id | id in old(manifests) && LeadsToFile(files, id) :: old(manifests)[id]
    {
      var todo := manifests.Keys;
      while todo != {}
        invariant todo <= old(manifests).Keys
        invariant manifests == map id | id in old(manifests) && (id in todo || LeadsToFile(files, id)) :: old(manifests)[id]
        decreases todo
      {
        var id :| id in todo;
        if !LeadsToFile(files, id) { manifests := manifests - {id}; }
        todo := todo - {id};
      }
    }

    method ReapStages(now: int)
      modifies this`staging
      ensures staging == map e | e in old(staging) && !Abandoned(settings, old(staging)[e], now) :: old(staging)[e]
    {
      var todo := staging.Keys;
      while todo != {}
        invariant todo <= old(staging).Keys
        invariant staging == map e | e in old(staging) && (e in todo || !Abandoned(settings, old(staging)[e], now)) :: old(staging)[e]
        decreases todo
      {
        var e :| e in todo;
        if Abandoned(settings, staging[e], now) { staging := staging - {e}; }
        todo := todo - {e};
      }
    }

    /** Removes what has expired, at the two times the clock is read. */
    method Cleanup(now: int, later: int)
      modifies this`staging, this`files, this`manifests
      ensures State() == CleanedUp(settings, old(State()), now, later)
    {
      ReapFiles(now);
      ReapManifests();
      ReapStages(later);
      assert manifests == map id | id in old(manifests) && LeadsToFile(files, id) :: old(manifests)[id];
    }
  }

  lemma {:induction false} FailedStays(s: Store, job: Job, n: nat, m: nat)
    requires n <= m <= STEPS * |job.ids| && AdvanceTo(s, job, n).failed
    ensures AdvanceTo(s, job, m) == AdvanceTo(s, job, n)
  {
    if n < m { FailedStays(s, job, n, m - 1); }
  }

  lemma {:induction false} DescribeStops(g: Settings, s: Store, job: Job, n: nat, m: nat)
    requires n <= m <= |job.ids| && DescribeUpTo(g, s, job, n).Failed?
    ensures DescribeUpTo(g, s, job, m).Failed?
  {
    if n < m { DescribeStops(g, s, job, n, m - 1); }
  }

  /** The stages with one staged file holding the given content. */
  function WithContent(staging: map<string, Stage>, execution: string, id: string, content: Bytes, now: int): map<string, Stage>
    requires execution in staging && staging[execution].StageDir?
  {
    staging[execution := staging[execution].(data := staging[execution].data[id := File(content, now)])]
  }

  lemma WithContentSame(staging: map<string, Stage>, execution: string, id: string, content: Bytes, now: int)
    requires execution in staging && staging[execution].StageDir?
    requires id in staging[execution].data && staging[execution].data[id] == File(content, now)
    ensures WithContent(staging, execution, id, content, now) == staging
  {
    var stage := staging[execution];
    assert stage.data[id := File(content, now)] == stage.data;
  }

  lemma WithContentTwice(staging: map<string, Stage>, execution: string, id: string, content: Bytes, more: Bytes, now: int)
    requires execution in staging && staging[execution].StageDir?
    ensures WithContent(WithContent(staging, execution, id, content, now), execution, id, more, now) ==
      WithContent(staging, execution, id, more, now)
  {
    var stage := staging[execution];
    assert stage.data[id := File(content, now)][id := File(more, now)] == stage.data[id := File(more, now)];
  }
}
