/** Publishing the staged files of an execution, step by step, with an exception possible
    at any step. */
module FilePublish {
  import opened Options
  import opened FileStore

  function DataOf(s: Store, execution: string): map<string, Node<Bytes>> {
    if execution in s.staging && s.staging[execution].StageDir? then s.staging[execution].data else map[]
  }

  function ManifestsOf(s: Store, execution: string): map<string, Node<Descriptor>> {
    if execution in s.staging && s.staging[execution].StageDir? then s.staging[execution].manifests else map[]
  }

  /** What one publication is given: the ids, the time at each step, and the step, if any,
      at which an exception arrives, of publishing and of undoing. */
  datatype Job = Job(execution: string, ids: seq<string>, clock: nat -> int, fault: Option<nat>, undoFault: Option<nat>)

  /** An item takes five steps: check the names, touch the data, move the data, record the
      id as published, and move the manifest. */
  const STEPS := 5

  datatype Progress = Progress(store: Store, published: seq<string>, failed: bool, done: nat)

  predicate StepOk(s: Store, execution: string, id: string, r: nat) {
    match r
    case 0 => ValidId(id) && !IsLink(DataOf(s, execution), id) && !IsLink(ManifestsOf(s, execution), id)
    case 1 => id in DataOf(s, execution)
    case 2 => id in DataOf(s, execution)
    case 4 => id in ManifestsOf(s, execution)
    case _ => true
  }

  function TouchData(s: Store, execution: string, id: string, now: int): Store
    requires id in DataOf(s, execution)
  {
    var stage := s.staging[execution];
    if stage.data[id].File? then s.(staging := s.staging[execution := stage.(data := stage.data[id := stage.data[id].(mtime := now)])])
    else s
  }

  function MoveData(s: Store, execution: string, id: string, now: int): Store
    requires id in DataOf(s, execution)
  {
    var stage := s.staging[execution];
    s.(files := s.files[id := stage.data[id]],
       staging := s.staging[execution := stage.(data := stage.data - {id}, mtime := now)])
  }

  function MoveManifest(s: Store, execution: string, id: string, now: int): Store
    requires id in ManifestsOf(s, execution)
  {
    var stage := s.staging[execution];
    s.(manifests := s.manifests[id := stage.manifests[id]],
       staging := s.staging[execution := stage.(manifests := stage.manifests - {id}, mtime := now)])
  }

  function Advance(job: Job, pr: Progress, id: string, r: nat, now: int): Progress
    requires StepOk(pr.store, job.execution, id, r)
  {
    var next := pr.(done := pr.done + 1);
    match r
    case 1 => next.(store := TouchData(pr.store, job.execution, id, now))
    case 2 => next.(store := MoveData(pr.store, job.execution, id, now))
    case 3 => next.(published := pr.published + [id])
    case 4 => next.(store := MoveManifest(pr.store, job.execution, id, now))
    case _ => next
  }

  /** The first `n` steps. */
  function AdvanceTo(s: Store, job: Job, n: nat): Progress
    requires n <= STEPS * |job.ids|
  {
    if n == 0 then Progress(s, [], false, 0)
    else Next(job, AdvanceTo(s, job, n - 1), n - 1)
  }

  /** Step `n`, unless an earlier one failed, or an exception arrives, or it fails itself. */
  function Next(job: Job, pr: Progress, n: nat): Progress
    requires n < STEPS * |job.ids|
  {
    var id, r := job.ids[n / STEPS], n % STEPS;
    if pr.failed then pr
    else if job.fault == Some(n) || !StepOk(pr.store, job.execution, id, r) then pr.(failed := true)
    else Advance(job, pr, id, r, job.clock(n))
  }

  /** Undoing: for each recorded id the file is removed, then its manifest. */
  function UndoTo(s: Store, published: seq<string>, n: nat): Store
    requires n <= 2 * |published|
  {
    if n == 0 then s
    else
      var before := UndoTo(s, published, n - 1);
      var id := published[(n - 1) / 2];
      if n % 2 == 1 then before.(files := before.files - {id}) else before.(manifests := before.manifests - {id})
  }

  /** How far the undo gets: an exception ends it. */
  function UndoSteps(job: Job, published: seq<string>): (n: nat)
    ensures n <= 2 * |published|
  {
    match job.undoFault
    case Some(f) => if f < 2 * |published| then f else 2 * |published|
    case None => 2 * |published|
  }

  function Undo(s: Store, job: Job, published: seq<string>): Store {
    UndoTo(s, published, UndoSteps(job, published))
  }

  /** Describing the first `n` items, each at its own time. */
  function DescribeUpTo(g: Settings, s: Store, job: Job, n: nat): Outcome<seq<Description>>
    requires n <= |job.ids|
  {
    if n == 0 then Ok([])
    else
      var step := STEPS * |job.ids| + n - 1;
      var before := DescribeUpTo(g, s, job, n - 1);
      var last := Describe(g, s, job.ids[n - 1], job.clock(step));
      if before.Failed? || job.fault == Some(step) || last.Failed? then Failed
      else Ok(before.value + [last.value])
  }

  datatype Publication = Publication(store: Store, outcome: Outcome<seq<Description>>)

  function Publish(g: Settings, s: Store, job: Job): Publication {
    var pr := AdvanceTo(s, job, STEPS * |job.ids|);
    var described := if pr.failed then Failed else DescribeUpTo(g, pr.store, job, |job.ids|);
    if described.Failed? then Publication(Undo(pr.store, job, pr.published), Failed)
    else Publication(pr.store, described)
  }

  // -------------------------------------------------------------- where it stands

  // After `r` steps of item `i`, the data of `Moved` items has moved, `Recorded` ids are
  // recorded, and the manifests of the first `i` items have moved.

  function Moved(i: nat, r: nat): nat { if r >= 3 then i + 1 else i }
  function Recorded(i: nat, r: nat): nat { if r >= 4 then i + 1 else i }

  predicate At(job: Job, i: nat, r: nat) {
    r < STEPS && i <= |job.ids| && (i == |job.ids| ==> r == 0)
  }

  /** The files once the data of the first `j` items has moved. */
  function FilesAfter(s: Store, job: Job, j: nat): map<string, Node<Bytes>>
    requires j <= |job.ids|
  {
    if j == 0 then s.files
    else
      var id, data := job.ids[j - 1], DataOf(s, job.execution);
      if IsFile(data, id) then FilesAfter(s, job, j - 1)[id := File(data[id].content, job.clock(STEPS * (j - 1) + 1))]
      else FilesAfter(s, job, j - 1)
  }

  function ManifestsAfter(s: Store, job: Job, j: nat): map<string, Node<Descriptor>>
    requires j <= |job.ids|
  {
    if j == 0 then s.manifests
    else
      var id, manifests := job.ids[j - 1], ManifestsOf(s, job.execution);
      if IsFile(manifests, id) then ManifestsAfter(s, job, j - 1)[id := manifests[id]]
      else ManifestsAfter(s, job, j - 1)
  }

  function IdsUpTo(ids: seq<string>, j: nat): set<string>
    requires j <= |ids|
  {
    set i | 0 <= i < j :: ids[i]
  }

  /** What is left of the staged data: the item that was touched has a new time. */
  function DataLeft(s: Store, job: Job, i: nat, r: nat): map<string, Node<Bytes>>
    requires At(job, i, r)
  {
    var left := DataOf(s, job.execution) - IdsUpTo(job.ids, Moved(i, r));
    if r == 2 && IsFile(left, job.ids[i]) then
      left[job.ids[i] := File(left[job.ids[i]].content, job.clock(STEPS * i + 1))]
    else left
  }

  function ManifestsLeft(s: Store, job: Job, i: nat): map<string, Node<Descriptor>>
    requires i <= |job.ids|
  {
    ManifestsOf(s, job.execution) - IdsUpTo(job.ids, i)
  }

  /** The items before `j` were staged as regular files under valid ids. */
  predicate Staged(s: Store, job: Job, j: nat)
    requires j <= |job.ids|
  {
    forall k :: 0 <= k < j ==> ValidId(job.ids[k]) && IsFile(DataOf(s, job.execution), job.ids[k])
  }

  predicate ManifestsStaged(s: Store, job: Job, j: nat)
    requires j <= |job.ids|
  {
    forall k :: 0 <= k < j ==> IsFile(ManifestsOf(s, job.execution), job.ids[k])
  }

  predicate Different(ids: seq<string>, j: nat)
    requires j <= |ids|
  {
    forall a, b :: 0 <= a < b < j ==> ids[a] != ids[b]
  }

  predicate Checked(s: Store, job: Job, i: nat, r: nat)
    requires At(job, i, r)
  {
    r >= 1 ==>
      var id := job.ids[i];
      && ValidId(id) && !IsLink(DataLeft(s, job, i, r), id) && !IsLink(ManifestsLeft(s, job, i), id)
      && (r == 2 ==> IsFile(DataOf(s, job.execution), id) && id in DataLeft(s, job, i, r))
  }

  predicate Elsewhere(s: Store, s': Store, execution: string) {
    s'.legacy == s.legacy && s'.staging - {execution} == s.staging - {execution}
  }

  predicate StageStands(s: Store, job: Job, store: Store, i: nat, r: nat)
    requires At(job, i, r)
  {
    && DataOf(store, job.execution) == DataLeft(s, job, i, r)
    && ManifestsOf(store, job.execution) == ManifestsLeft(s, job, i)
    && Elsewhere(s, store, job.execution)
  }

  predicate StoreStands(s: Store, job: Job, store: Store, i: nat, r: nat)
    requires At(job, i, r)
  {
    && store.files == FilesAfter(s, job, Moved(i, r))
    && store.manifests == ManifestsAfter(s, job, i)
    && Staged(s, job, Moved(i, r)) && ManifestsStaged(s, job, i) && Different(job.ids, Moved(i, r))
  }

  /** The state after `r` good steps of item `i`. */
  predicate StandsAt(s: Store, job: Job, pr: Progress, i: nat, r: nat) {
    && At(job, i, r) && pr.done == STEPS * i + r
    && pr.published == job.ids[..Recorded(i, r)]
    && StoreStands(s, job, pr.store, i, r) && StageStands(s, job, pr.store, i, r) && Checked(s, job, i, r)
  }

  predicate Stands(s: Store, job: Job, pr: Progress) {
    StandsAt(s, job, pr, pr.done / STEPS, pr.done % STEPS)
  }

  lemma Counts(n: nat, i: nat, r: nat)
    requires n == STEPS * i + r && r < STEPS
    ensures n / STEPS == i && n % STEPS == r
  {
  }

  lemma OneMoreId(ids: seq<string>, j: nat)
    requires j < |ids|
    ensures IdsUpTo(ids, j + 1) == IdsUpTo(ids, j) + {ids[j]} && ids[..j + 1] == ids[..j] + [ids[j]]
  {
  }

  lemma StandsCheck(s: Store, job: Job, pr: Progress, i: nat)
    requires StandsAt(s, job, pr, i, 0) && i < |job.ids| && StepOk(pr.store, job.execution, job.ids[i], 0)
    ensures StandsAt(s, job, Advance(job, pr, job.ids[i], 0, job.clock(pr.done)), i, 1)
  {
  }

  lemma TouchParts(s: Store, execution: string, id: string, now: int)
    requires id in DataOf(s, execution)
    ensures var s' := TouchData(s, execution, id, now); var data := DataOf(s, execution);
      && DataOf(s', execution) == (if data[id].File? then data[id := File(data[id].content, now)] else data)
      && ManifestsOf(s', execution) == ManifestsOf(s, execution)
      && s'.files == s.files && s'.manifests == s.manifests && Elsewhere(s, s', execution)
  {
  }

  lemma StandsTouch(s: Store, job: Job, pr: Progress, i: nat)
    requires StandsAt(s, job, pr, i, 1) && StepOk(pr.store, job.execution, job.ids[i], 1)
    ensures StandsAt(s, job, Advance(job, pr, job.ids[i], 1, job.clock(pr.done)), i, 2)
  {
    TouchParts(pr.store, job.execution, job.ids[i], job.clock(pr.done));
  }

  lemma MovedStage(s: Store, job: Job, i: nat)
    requires At(job, i, 2)
    ensures DataLeft(s, job, i, 2) - {job.ids[i]} == DataLeft(s, job, i, 3)
  {
    OneMoreId(job.ids, i);
  }

  /** Moving something out of a stage changes its time. */
  lemma MovesTouchStage(s: Store, execution: string, id: string, now: int)
    ensures id in DataOf(s, execution) ==>
      var s' := MoveData(s, execution, id, now); s'.staging[execution].StageDir? && s'.staging[execution].mtime == now
    ensures id in ManifestsOf(s, execution) ==>
      var s' := MoveManifest(s, execution, id, now); s'.staging[execution].StageDir? && s'.staging[execution].mtime == now
  {
  }

  lemma StandsMove(s: Store, job: Job, pr: Progress, i: nat)
    requires StandsAt(s, job, pr, i, 2) && StepOk(pr.store, job.execution, job.ids[i], 2)
    ensures StandsAt(s, job, Advance(job, pr, job.ids[i], 2, job.clock(pr.done)), i, 3)
  {
    MovedStage(s, job, i);
    assert DataLeft(s, job, i, 2)[job.ids[i]] == File(DataOf(s, job.execution)[job.ids[i]].content, job.clock(STEPS * i + 1));
  }

  lemma StandsRecord(s: Store, job: Job, pr: Progress, i: nat)
    requires StandsAt(s, job, pr, i, 3)
    ensures StandsAt(s, job, Advance(job, pr, job.ids[i], 3, job.clock(pr.done)), i, 4)
  {
    OneMoreId(job.ids, i);
  }

  lemma MovedManifests(s: Store, job: Job, i: nat)
    requires i < |job.ids|
    ensures ManifestsLeft(s, job, i) - {job.ids[i]} == ManifestsLeft(s, job, i + 1)
  {
    OneMoreId(job.ids, i);
  }

  lemma StandsManifest(s: Store, job: Job, pr: Progress, i: nat)
    requires StandsAt(s, job, pr, i, 4) && StepOk(pr.store, job.execution, job.ids[i], 4)
    ensures StandsAt(s, job, Advance(job, pr, job.ids[i], 4, job.clock(pr.done)), i + 1, 0)
  {
    MovedManifests(s, job, i);
    assert ManifestsLeft(s, job, i)[job.ids[i]] == ManifestsOf(s, job.execution)[job.ids[i]];
  }

  lemma StandsStep(s: Store, job: Job, pr: Progress, i: nat, r: nat)
    requires StandsAt(s, job, pr, i, r) && i < |job.ids| && StepOk(pr.store, job.execution, job.ids[i], r)
    ensures Stands(s, job, Advance(job, pr, job.ids[i], r, job.clock(pr.done)))
  {
    var done := pr.done + 1;
    match r
    case 0 => StandsCheck(s, job, pr, i); Counts(done, i, 1);
    case 1 => StandsTouch(s, job, pr, i); Counts(done, i, 2);
    case 2 => StandsMove(s, job, pr, i); Counts(done, i, 3);
    case 3 => StandsRecord(s, job, pr, i); Counts(done, i, 4);
    case _ => StandsManifest(s, job, pr, i); Counts(done, i + 1, 0);
  }

  /** After any number of steps, failed or not, the store is the one its good steps leave. */
  lemma {:induction false} AdvanceStands(s: Store, job: Job, n: nat)
    requires n <= STEPS * |job.ids|
    ensures var pr := AdvanceTo(s, job, n); Stands(s, job, pr) && pr.done <= n && (!pr.failed ==> pr.done == n)
  {
    if n == 0 {
      StandsAtFirst(s, job);
    } else {
      AdvanceStands(s, job, n - 1);
      NextStands(s, job, AdvanceTo(s, job, n - 1), n - 1);
    }
  }

  lemma NextStands(s: Store, job: Job, pr: Progress, n: nat)
    requires n < STEPS * |job.ids| && Stands(s, job, pr) && pr.done <= n && (!pr.failed ==> pr.done == n)
    ensures var pr' := Next(job, pr, n); Stands(s, job, pr') && pr'.done <= n + 1 && (!pr'.failed ==> pr'.done == n + 1)
  {
    var i, r := n / STEPS, n % STEPS;
    if !pr.failed && job.fault != Some(n) && StepOk(pr.store, job.execution, job.ids[i], r) {
      StandsStep(s, job, pr, i, r);
    }
  }

  lemma StandsAtFirst(s: Store, job: Job)
    ensures Stands(s, job, Progress(s, [], false, 0))
  {
    var none := IdsUpTo(job.ids, 0);
    assert none == {};
    assert DataOf(s, job.execution) - none == DataOf(s, job.execution);
    assert ManifestsOf(s, job.execution) - none == ManifestsOf(s, job.execution);
  }

  // ------------------------------------------------------- what has been published

  lemma {:induction false} FilesAfterOther(s: Store, job: Job, j: nat, id: string)
    requires j <= |job.ids| && id !in IdsUpTo(job.ids, j)
    ensures id in FilesAfter(s, job, j) <==> id in s.files
    ensures id in s.files ==> FilesAfter(s, job, j)[id] == s.files[id]
  {
    if j > 0 {
      OneMoreId(job.ids, j - 1);
      FilesAfterOther(s, job, j - 1, id);
    }
  }

  lemma {:induction false} FilesAfterOf(s: Store, job: Job, j: nat, k: nat)
    requires k < j <= |job.ids| && Staged(s, job, j) && Different(job.ids, j)
    ensures var id := job.ids[k];
      id in FilesAfter(s, job, j)
      && FilesAfter(s, job, j)[id] == File(DataOf(s, job.execution)[id].content, job.clock(STEPS * k + 1))
  {
    if k < j - 1 { FilesAfterOf(s, job, j - 1, k); }
  }

  lemma {:induction false} ManifestsAfterOther(s: Store, job: Job, j: nat, id: string)
    requires j <= |job.ids| && id !in IdsUpTo(job.ids, j)
    ensures id in ManifestsAfter(s, job, j) <==> id in s.manifests
    ensures id in s.manifests ==> ManifestsAfter(s, job, j)[id] == s.manifests[id]
  {
    if j > 0 {
      OneMoreId(job.ids, j - 1);
      ManifestsAfterOther(s, job, j - 1, id);
    }
  }

  lemma {:induction false} ManifestsAfterOf(s: Store, job: Job, j: nat, k: nat)
    requires k < j <= |job.ids| && ManifestsStaged(s, job, j)
    ensures var id := job.ids[k];
      id in ManifestsAfter(s, job, j) && ManifestsAfter(s, job, j)[id] == ManifestsOf(s, job.execution)[id]
  {
    if k < j - 1 { ManifestsAfterOf(s, job, j - 1, k); }
  }

  /** The ids are new to the store. */
  predicate Fresh(s: Store, ids: seq<string>) {
    forall i :: 0 <= i < |ids| ==> ids[i] !in s.files && ids[i] !in s.manifests && ids[i] !in s.legacy
  }

  lemma FreshRemoved(s: Store, job: Job, i: nat, j: nat)
    requires i <= |job.ids| && j <= |job.ids| && Fresh(s, job.ids)
    ensures j <= i ==> FilesAfter(s, job, j) - IdsUpTo(job.ids, i) == s.files
    ensures j <= i ==> ManifestsAfter(s, job, j) - IdsUpTo(job.ids, i) == s.manifests
  {
    if j <= i {
      forall id | id !in IdsUpTo(job.ids, i)
        ensures id in FilesAfter(s, job, j) <==> id in s.files
        ensures id in s.files ==> FilesAfter(s, job, j)[id] == s.files[id]
        ensures id in ManifestsAfter(s, job, j) <==> id in s.manifests
        ensures id in s.manifests ==> ManifestsAfter(s, job, j)[id] == s.manifests[id]
      {
        FilesAfterOther(s, job, j, id);
        ManifestsAfterOther(s, job, j, id);
      }
    }
  }

  // ------------------------------------------------------------------------ undoing

  lemma {:induction false} UndoRemoves(s: Store, published: seq<string>, n: nat)
    requires n <= 2 * |published|
    ensures var s' := UndoTo(s, published, n);
      && s'.files == s.files - IdsUpTo(published, (n + 1) / 2)
      && s'.manifests == s.manifests - IdsUpTo(published, n / 2)
      && s'.staging == s.staging && s'.legacy == s.legacy
  {
    if n == 0 {
      assert s.files - IdsUpTo(published, 0) == s.files && s.manifests - IdsUpTo(published, 0) == s.manifests;
    } else {
      UndoRemoves(s, published, n - 1);
      OneMoreId(published, (n - 1) / 2);
      var before, id := UndoTo(s, published, n - 1), published[(n - 1) / 2];
      if n % 2 == 1 {
        assert before.files - {id} == s.files - IdsUpTo(published, (n + 1) / 2);
      } else {
        assert before.manifests - {id} == s.manifests - IdsUpTo(published, n / 2);
      }
    }
  }

  lemma PrefixOf(ids: seq<string>, m: nat, n: nat)
    requires n <= m <= |ids|
    ensures IdsUpTo(ids[..m], n) == IdsUpTo(ids, n)
  {
  }

  /** The first `u` of `j` new files removed: the old files are back if and only if that was
      all of them. */
  lemma FilesBack(s: Store, job: Job, j: nat, u: nat)
    requires j <= |job.ids| && u <= |job.ids| && Fresh(s, job.ids) && Staged(s, job, j) && Different(job.ids, j)
    ensures FilesAfter(s, job, j) - IdsUpTo(job.ids, u) == s.files <==> j <= u
  {
    FreshRemoved(s, job, u, j);
    if u < j {
      FilesAfterOf(s, job, j, u);
      assert job.ids[u] in FilesAfter(s, job, j) - IdsUpTo(job.ids, u);
    }
  }

  lemma ManifestsBack(s: Store, job: Job, j: nat, u: nat)
    requires j <= |job.ids| && u <= |job.ids| && Fresh(s, job.ids) && ManifestsStaged(s, job, j) && Different(job.ids, j)
    ensures ManifestsAfter(s, job, j) - IdsUpTo(job.ids, u) == s.manifests <==> j <= u
  {
    FreshRemoved(s, job, u, j);
    if u < j {
      ManifestsAfterOf(s, job, j, u);
      assert job.ids[u] in ManifestsAfter(s, job, j) - IdsUpTo(job.ids, u);
    }
  }

  /** `n` steps of undoing what stood after `r` steps of item `i`. */
  predicate UndoneAt(s: Store, job: Job, s': Store, i: nat, r: nat, n: nat)
    requires At(job, i, r) && n <= 2 * Recorded(i, r)
  {
    && s'.files == FilesAfter(s, job, Moved(i, r)) - IdsUpTo(job.ids, (n + 1) / 2)
    && s'.manifests == ManifestsAfter(s, job, i) - IdsUpTo(job.ids, n / 2)
    && s'.legacy == s.legacy
    && Staged(s, job, Moved(i, r)) && ManifestsStaged(s, job, i) && Different(job.ids, Moved(i, r))
  }

  lemma UndoStands(s: Store, job: Job, pr: Progress, i: nat, r: nat)
    requires StandsAt(s, job, pr, i, r)
    ensures UndoneAt(s, job, Undo(pr.store, job, pr.published), i, r, UndoSteps(job, pr.published))
  {
    var n := UndoSteps(job, pr.published);
    UndoRemoves(pr.store, pr.published, n);
    PrefixOf(job.ids, Recorded(i, r), (n + 1) / 2);
    PrefixOf(job.ids, Recorded(i, r), n / 2);
  }

  /** What an undo that stops after `n` steps leaves readable: the items whose manifests had
      moved, from the first whose file was not removed. */
  lemma UndoLeaves(g: Settings, s: Store, job: Job, s': Store, i: nat, r: nat, n: nat, k: nat, now: int)
    requires At(job, i, r) && n <= 2 * Recorded(i, r) && UndoneAt(s, job, s', i, r, n) && Fresh(s, job.ids) && k < |job.ids|
    ensures (n + 1) / 2 <= k < i ==>
      var modified := job.clock(STEPS * k + 1);
      Path(g, s', job.ids[k], now) ==
        if now < modified + g.fileTtl then Found(DataOf(s, job.execution)[job.ids[k]].content, modified, true) else Missing
    ensures i <= (n + 1) / 2 ==> !Path(g, s', job.ids[k], now).Found?
  {
    if (n + 1) / 2 <= k < i {
      FilesAfterOf(s, job, Moved(i, r), k);
      ManifestsAfterOf(s, job, i, k);
    } else if job.ids[k] !in IdsUpTo(job.ids, i) {
      ManifestsAfterOther(s, job, i, job.ids[k]);
    }
  }

  // What the two stores hold of an unfinished publication is settled by where it stopped.

  /** How many items had been moved whole, data and manifest. */
  function Whole(s: Store, job: Job): nat {
    AdvanceTo(s, job, STEPS * |job.ids|).done / STEPS
  }

  /** How many steps of the undo have something to remove. */
  function ToUndo(s: Store, job: Job): nat {
    2 * Whole(s, job) + if AdvanceTo(s, job, STEPS * |job.ids|).done % STEPS == 4 then 1 else 0
  }

  /** No exception arrives in the first `n` steps of the undo. */
  predicate UndoReaches(job: Job, n: int) {
    job.undoFault.None? || n <= job.undoFault.value
  }

  // ----------------------------------------------------------------- where it failed

  /** `pr` stopped at step `pr.done`, where an exception arrived or the step itself failed. */
  predicate StoppedAt(s: Store, job: Job, pr: Progress)
    requires pr.done < STEPS * |job.ids|
  {
    && AdvanceTo(s, job, pr.done) == pr.(failed := false)
    && (job.fault == Some(pr.done) || !StepOk(pr.store, job.execution, job.ids[pr.done / STEPS], pr.done % STEPS))
  }

  /** A failed run stopped at its first failing step. */
  lemma {:induction false} FailedAt(s: Store, job: Job, n: nat)
    requires n <= STEPS * |job.ids|
    ensures var pr := AdvanceTo(s, job, n); if pr.failed then pr.done < n && StoppedAt(s, job, pr) else pr.done == n
  {
    if n > 0 {
      FailedAt(s, job, n - 1);
      var before := AdvanceTo(s, job, n - 1);
      if before.failed {
        assert AdvanceTo(s, job, n) == before;
      } else {
        NextFails(job, before, n - 1);
      }
    }
  }

  lemma NextFails(job: Job, pr: Progress, n: nat)
    requires n < STEPS * |job.ids| && !pr.failed && pr.done == n
    ensures var next := Next(job, pr, n);
      if next.failed then
        && next.done == n && next.(failed := false) == pr
        && (job.fault == Some(n) || !StepOk(pr.store, job.execution, job.ids[n / STEPS], n % STEPS))
      else next.done == n + 1
  {
  }

  lemma {:induction false} FaultStops(s: Store, job: Job, f: nat, n: nat)
    requires job.fault == Some(f) && f < n <= STEPS * |job.ids| && !AdvanceTo(s, job, f).failed
    ensures AdvanceTo(s, job, n) == AdvanceTo(s, job, f).(failed := true)
  {
    if n > f + 1 { FaultStops(s, job, f, n - 1); }
  }

  /** The exception arrives after the data of an item has moved and before its id is recorded. */
  predicate Interrupted(s: Store, job: Job) {
    && job.fault.Some? && job.fault.value < STEPS * |job.ids| && job.fault.value % STEPS == 3
    && !AdvanceTo(s, job, job.fault.value).failed
  }

  lemma InterruptedAt(s: Store, job: Job)
    ensures var pr := AdvanceTo(s, job, STEPS * |job.ids|);
      pr.failed && pr.done % STEPS == 3 <==> Interrupted(s, job)
  {
    FailedAt(s, job, STEPS * |job.ids|);
    if Interrupted(s, job) {
      FailedAt(s, job, job.fault.value);
      FaultStops(s, job, job.fault.value, STEPS * |job.ids|);
    }
  }

  // ------------------------------------------------------------------------ theorems

  lemma {:induction false} Described(g: Settings, s: Store, job: Job, n: nat, k: nat)
    requires k < n <= |job.ids| && DescribeUpTo(g, s, job, n).Ok?
    ensures var time := job.clock(STEPS * |job.ids| + k);
      |DescribeUpTo(g, s, job, n).value| == n && Describe(g, s, job.ids[k], time) == Ok(DescribeUpTo(g, s, job, n).value[k])
  {
    DescribedLength(g, s, job, n - 1);
    if k < n - 1 { Described(g, s, job, n - 1, k); }
  }

  lemma {:induction false} DescribedLength(g: Settings, s: Store, job: Job, n: nat)
    requires n <= |job.ids|
    ensures DescribeUpTo(g, s, job, n).Ok? ==> |DescribeUpTo(g, s, job, n).value| == n
  {
    if n > 0 { DescribedLength(g, s, job, n - 1); }
  }

  /** Once every step has been taken, each id reads as the bytes that were staged until it
      expires, and its manifest is the staged one. */
  lemma FinalStore(g: Settings, s: Store, job: Job, k: nat, now: int)
    requires !AdvanceTo(s, job, STEPS * |job.ids|).failed && k < |job.ids|
    ensures var id, s' := job.ids[k], AdvanceTo(s, job, STEPS * |job.ids|).store;
      && IsFile(DataOf(s, job.execution), id) && IsFile(ManifestsOf(s, job.execution), id)
      && id in s'.manifests && s'.manifests[id] == ManifestsOf(s, job.execution)[id]
      && var modified := job.clock(STEPS * k + 1);
      Path(g, s', id, now) ==
        if now < modified + g.fileTtl then Found(DataOf(s, job.execution)[id].content, modified, true) else Missing
  {
    var n := STEPS * |job.ids|;
    AdvanceStands(s, job, n);
    Counts(n, |job.ids|, 0);
    FilesAfterOf(s, job, |job.ids|, k);
    ManifestsAfterOf(s, job, |job.ids|, k);
  }

  /** A successful publication makes every listed artifact readable, with the bytes that were
      staged, from the time it was published until it expires, and describes it so. */
  lemma PublishedAll(g: Settings, s: Store, job: Job, k: nat, now: int)
    requires Publish(g, s, job).outcome.Ok? && k < |job.ids|
    ensures var id, s', out := job.ids[k], Publish(g, s, job).store, Publish(g, s, job).outcome.value;
      && IsFile(DataOf(s, job.execution), id) && IsFile(ManifestsOf(s, job.execution), id)
      && var modified := job.clock(STEPS * k + 1);
      && Path(g, s', id, now) ==
           (if now < modified + g.fileTtl then Found(DataOf(s, job.execution)[id].content, modified, true) else Missing)
      && |out| == |job.ids|
      && out[k] == Description(ManifestsOf(s, job.execution)[id].content, g.fileTtl, modified, modified + g.fileTtl)
  {
    var pr := AdvanceTo(s, job, STEPS * |job.ids|);
    FinalStore(g, s, job, k, now);
    FinalStore(g, s, job, k, job.clock(STEPS * |job.ids| + k));
    Described(g, pr.store, job, |job.ids|, k);
  }

  /** Every item is staged once, as a regular file with a readable manifest, and described
      before it expires. */
  predicate Ready(g: Settings, s: Store, job: Job) {
    && StagedOnce(s, job, |job.ids|)
    && forall k :: 0 <= k < |job.ids| ==> InTime(g, job, k) && !ManifestsOf(s, job.execution)[job.ids[k]].content.Malformed?
  }

  /** No exception arrives in the first `n` steps, the describing of items included. */
  predicate Undisturbed(job: Job, n: nat) {
    match job.fault case None => true case Some(f) => n <= f
  }

  predicate InTime(g: Settings, job: Job, k: nat) {
    job.clock(STEPS * |job.ids| + k) < job.clock(STEPS * k + 1) + g.fileTtl
  }

  /** The first `n` items are staged once, data and manifest. */
  predicate StagedOnce(s: Store, job: Job, n: nat)
    requires n <= |job.ids|
  {
    Different(job.ids, n) && Staged(s, job, n) && ManifestsStaged(s, job, n)
  }

  lemma ReadyStep(s: Store, job: Job, pr: Progress, i: nat, r: nat)
    requires StandsAt(s, job, pr, i, r) && i < |job.ids| && StagedOnce(s, job, i + 1)
    ensures StepOk(pr.store, job.execution, job.ids[i], r)
  {
  }

  /** No step of a ready publication fails by itself. */
  lemma ReadyAdvances(g: Settings, s: Store, job: Job, n: nat)
    requires Ready(g, s, job) && Undisturbed(job, n) && n <= STEPS * |job.ids|
    ensures !AdvanceTo(s, job, n).failed
  {
    FailedAt(s, job, n);
    AdvanceStands(s, job, n);
    ReadyAt(g, s, job, AdvanceTo(s, job, n));
  }

  lemma ReadyAt(g: Settings, s: Store, job: Job, pr: Progress)
    requires Ready(g, s, job) && Stands(s, job, pr)
    ensures pr.done < STEPS * |job.ids| ==> StepOk(pr.store, job.execution, job.ids[pr.done / STEPS], pr.done % STEPS)
  {
    if pr.done < STEPS * |job.ids| { ReadyStep(s, job, pr, pr.done / STEPS, pr.done % STEPS); }
  }

  lemma {:induction false} AllDescribed(g: Settings, s: Store, job: Job, n: nat)
    requires n <= |job.ids| && Undisturbed(job, STEPS * |job.ids| + n)
    requires forall k :: 0 <= k < n ==> Describe(g, s, job.ids[k], job.clock(STEPS * |job.ids| + k)).Ok?
    ensures DescribeUpTo(g, s, job, n).Ok?
  {
    if n > 0 { AllDescribed(g, s, job, n - 1); }
  }

  lemma ReadyDescribes(g: Settings, s: Store, job: Job)
    requires Ready(g, s, job) && Undisturbed(job, STEPS * |job.ids| + |job.ids|) && !AdvanceTo(s, job, STEPS * |job.ids|).failed
    ensures DescribeUpTo(g, AdvanceTo(s, job, STEPS * |job.ids|).store, job, |job.ids|).Ok?
  {
    forall k | 0 <= k < |job.ids|
      ensures Describe(g, AdvanceTo(s, job, STEPS * |job.ids|).store, job.ids[k], job.clock(STEPS * |job.ids| + k)).Ok?
    {
      ReadyDescribed(g, s, job, k);
    }
    AllDescribed(g, AdvanceTo(s, job, STEPS * |job.ids|).store, job, |job.ids|);
  }

  lemma ReadyDescribed(g: Settings, s: Store, job: Job, k: nat)
    requires Ready(g, s, job) && k < |job.ids| && !AdvanceTo(s, job, STEPS * |job.ids|).failed
    ensures Describe(g, AdvanceTo(s, job, STEPS * |job.ids|).store, job.ids[k], job.clock(STEPS * |job.ids| + k)).Ok?
  {
    FinalStore(g, s, job, k, job.clock(STEPS * |job.ids| + k));
    assert InTime(g, job, k);
  }

  /** A publication succeeds if and only if every item is ready and no exception arrives in
      any of its steps, one for describing each item included. */
  lemma PublishSucceedsExactly(g: Settings, s: Store, job: Job)
    ensures Publish(g, s, job).outcome.Ok? <==> Ready(g, s, job) && Undisturbed(job, STEPS * |job.ids| + |job.ids|)
  {
    var n := STEPS * |job.ids|;
    if Ready(g, s, job) && Undisturbed(job, n + |job.ids|) {
      ReadyAdvances(g, s, job, n);
      ReadyDescribes(g, s, job);
    }
    if Publish(g, s, job).outcome.Ok? {
      AdvanceStands(s, job, n);
      Counts(n, |job.ids|, 0);
      forall k | 0 <= k < |job.ids| ensures InTime(g, job, k) && !ManifestsOf(s, job.execution)[job.ids[k]].content.Malformed? {
        var time := job.clock(STEPS * |job.ids| + k);
        FinalStore(g, s, job, k, time);
        Described(g, AdvanceTo(s, job, n).store, job, |job.ids|, k);
      }
      NotDisturbed(g, s, job);
    }
  }

  lemma NotDisturbed(g: Settings, s: Store, job: Job)
    requires Publish(g, s, job).outcome.Ok?
    ensures Undisturbed(job, STEPS * |job.ids| + |job.ids|)
  {
    var n := STEPS * |job.ids|;
    if job.fault.Some? && job.fault.value < n {
      FailedAt(s, job, job.fault.value);
      if AdvanceTo(s, job, job.fault.value).failed {
        FailedGoesOn(s, job, job.fault.value, n);
      } else {
        FaultStops(s, job, job.fault.value, n);
      }
    } else if job.fault.Some? && job.fault.value < n + |job.ids| {
      DescribingStops(g, AdvanceTo(s, job, n).store, job, job.fault.value - n, |job.ids|);
    }
  }

  lemma {:induction false} FailedGoesOn(s: Store, job: Job, n: nat, m: nat)
    requires n <= m <= STEPS * |job.ids| && AdvanceTo(s, job, n).failed
    ensures AdvanceTo(s, job, m).failed
  {
    if n < m { FailedGoesOn(s, job, n, m - 1); }
  }

  lemma {:induction false} DescribingStops(g: Settings, s: Store, job: Job, k: nat, n: nat)
    requires k < n <= |job.ids| && job.fault == Some(STEPS * |job.ids| + k)
    ensures DescribeUpTo(g, s, job, n).Failed?
  {
    if k < n - 1 { DescribingStops(g, s, job, k, n - 1); }
  }

  /** A failed publication of new ids leaves both stores as they were if and only if it was not
      interrupted between moving and recording a file and the undo removed all there was.  It
      leaves none of the ids readable if and only if the undo got to the file of every item
      that had been moved whole. */
  lemma PublishedNone(g: Settings, s: Store, job: Job)
    requires Fresh(s, job.ids) && Publish(g, s, job).outcome.Failed?
    ensures var s' := Publish(g, s, job).store;
      && s'.legacy == s.legacy
      && (s'.files == s.files && s'.manifests == s.manifests <==> !Interrupted(s, job) && UndoReaches(job, ToUndo(s, job)))
      && ((forall k, now :: 0 <= k < |job.ids| ==> !Path(g, s', job.ids[k], now).Found?) <==>
          UndoReaches(job, 2 * Whole(s, job) - 1))
  {
    var n, s' := STEPS * |job.ids|, Publish(g, s, job).store;
    var pr := AdvanceTo(s, job, n);
    var i, r, m := pr.done / STEPS, pr.done % STEPS, UndoSteps(job, pr.published);
    AdvanceStands(s, job, n);
    StoppedInPart(s, job);
    UndoStands(s, job, pr, i, r);
    StoresBack(s, job, s', i, r, m);
    NoneReadable(g, s, job, s', i, r, m);
  }

  lemma StoppedInPart(s: Store, job: Job)
    ensures AdvanceTo(s, job, STEPS * |job.ids|).done % STEPS == 3 <==> Interrupted(s, job)
  {
    FailedAt(s, job, STEPS * |job.ids|);
    InterruptedAt(s, job);
    Counts(STEPS * |job.ids|, |job.ids|, 0);
  }

  lemma StoresBack(s: Store, job: Job, s': Store, i: nat, r: nat, n: nat)
    requires At(job, i, r) && n <= 2 * Recorded(i, r) && UndoneAt(s, job, s', i, r, n) && Fresh(s, job.ids)
    ensures s'.files == s.files && s'.manifests == s.manifests <==> r != 3 && 2 * i + (if r == 4 then 1 else 0) <= n
  {
    FilesBack(s, job, Moved(i, r), (n + 1) / 2);
    ManifestsBack(s, job, i, n / 2);
  }

  lemma NoneReadable(g: Settings, s: Store, job: Job, s': Store, i: nat, r: nat, n: nat)
    requires At(job, i, r) && n <= 2 * Recorded(i, r) && UndoneAt(s, job, s', i, r, n) && Fresh(s, job.ids)
    ensures (forall k, now :: 0 <= k < |job.ids| ==> !Path(g, s', job.ids[k], now).Found?) <==> i <= (n + 1) / 2
  {
    if i <= (n + 1) / 2 {
      forall k, now | 0 <= k < |job.ids| ensures !Path(g, s', job.ids[k], now).Found? {
        UndoLeaves(g, s, job, s', i, r, n, k, now);
      }
    } else {
      var k := (n + 1) / 2;
      var last := job.clock(STEPS * k + 1) + g.fileTtl - 1;
      UndoLeaves(g, s, job, s', i, r, n, k, last);
      assert Path(g, s', job.ids[k], last).Found?;
    }
  }

  /** What a failed publication does leave readable is whole: the bytes that were staged, until
      they expire. */
  lemma LeftReadable(g: Settings, s: Store, job: Job, k: nat, now: int)
    requires Fresh(s, job.ids) && Publish(g, s, job).outcome.Failed?
    requires job.undoFault.Some? && job.undoFault.value < 2 * k + 1 && k < Whole(s, job)
    ensures k < |job.ids| && IsFile(DataOf(s, job.execution), job.ids[k])
    ensures var modified := job.clock(STEPS * k + 1);
      Path(g, Publish(g, s, job).store, job.ids[k], now) ==
        if now < modified + g.fileTtl then Found(DataOf(s, job.execution)[job.ids[k]].content, modified, true) else Missing
  {
    var n := STEPS * |job.ids|;
    var pr := AdvanceTo(s, job, n);
    AdvanceStands(s, job, n);
    UndoStands(s, job, pr, pr.done / STEPS, pr.done % STEPS);
    UndoLeaves(g, s, job, Publish(g, s, job).store, pr.done / STEPS, pr.done % STEPS, UndoSteps(job, pr.published), k, now);
  }

  /** An exception can arrive between moving and recording: with one staged file, after three
      steps. */
  lemma InterruptedOnce(g: Settings, s: Store, execution: string, id: string, clock: nat -> int)
    requires ValidId(id) && IsFile(DataOf(s, execution), id) && !IsLink(ManifestsOf(s, execution), id) && Fresh(s, [id])
    ensures var p := Publish(g, s, Job(execution, [id], clock, Some(3), None));
      p.outcome.Failed? && p.store.files != s.files && !Path(g, p.store, id, clock(3)).Found?
  {
    var job := Job(execution, [id], clock, Some(3), None);
    assert AdvanceTo(s, job, 1) == Next(job, AdvanceTo(s, job, 0), 0);
    TouchParts(s, execution, id, clock(1));
    assert AdvanceTo(s, job, 2) == Next(job, AdvanceTo(s, job, 1), 1);
    assert AdvanceTo(s, job, 3) == Next(job, AdvanceTo(s, job, 2), 2);
    FaultStops(s, job, 3, STEPS);
    PublishedNone(g, s, job);
    assert job.ids[0] == id;
  }

  /** An exception in the undo leaves an artifact readable: one item is good, the next has an
      invalid id, and removing the good one raises. */
  lemma UndoInterrupted(g: Settings, s: Store, execution: string, id: string, bad: string, clock: nat -> int, now: int)
    requires ValidId(id) && IsFile(DataOf(s, execution), id) && IsFile(ManifestsOf(s, execution), id)
    requires !ValidId(bad) && Fresh(s, [id, bad]) && now < clock(1) + g.fileTtl
    ensures var job := Job(execution, [id, bad], clock, None, Some(0)); var p := Publish(g, s, job);
      && p.outcome.Failed? && !Interrupted(s, job)
      && Path(g, p.store, id, now) == Found(DataOf(s, execution)[id].content, clock(1), true)
  {
    var job := Job(execution, [id, bad], clock, None, Some(0));
    BadSecond(s, job);
    LeftReadable(g, s, job, 0, now);
  }

  lemma BadSecond(s: Store, job: Job)
    requires |job.ids| == 2 && StagedOnce(s, job, 1) && !ValidId(job.ids[1]) && job.fault.None?
    ensures var pr := AdvanceTo(s, job, STEPS * |job.ids|); pr.failed && pr.done == STEPS
  {
    var pr := AdvanceTo(s, job, STEPS * |job.ids|);
    AdvanceStands(s, job, STEPS * |job.ids|);
    FailedAt(s, job, STEPS * |job.ids|);
    if pr.done < STEPS { ReadyStep(s, job, pr, 0, pr.done); }
  }

  /** At no step of a publication, and at no step of undoing it, is a new id readable before
      its data has moved, or with other bytes than those staged. */
  lemma NothingEarly(g: Settings, s: Store, job: Job, n: nat, m: nat, k: nat, now: int)
    requires Fresh(s, job.ids) && n <= STEPS * |job.ids| && k < |job.ids|
    requires m <= 2 * |AdvanceTo(s, job, n).published|
    ensures var pr := AdvanceTo(s, job, n); var id := job.ids[k];
      var found := Path(g, UndoTo(pr.store, pr.published, m), id, now);
      found.Found? ==>
        && Stands(s, job, pr) && id in IdsUpTo(job.ids, Moved(pr.done / STEPS, pr.done % STEPS))
        && IsFile(DataOf(s, job.execution), id) && found.content == DataOf(s, job.execution)[id].content
  {
    var pr, id := AdvanceTo(s, job, n), job.ids[k];
    AdvanceStands(s, job, n);
    UndoRemoves(pr.store, pr.published, m);
    var moved := Moved(pr.done / STEPS, pr.done % STEPS);
    if id in IdsUpTo(job.ids, moved) {
      var j :| 0 <= j < moved && job.ids[j] == id;
      FilesAfterOf(s, job, moved, j);
    } else {
      FilesAfterOther(s, job, moved, id);
    }
  }

  /** Nothing is published without a manifest that can be read. */
  lemma PublishedManifest(g: Settings, s: Store, job: Job, k: nat)
    requires Publish(g, s, job).outcome.Ok? && k < |job.ids|
    ensures var manifests := ManifestsOf(s, job.execution);
      IsFile(manifests, job.ids[k]) && !manifests[job.ids[k]].content.Malformed?
  {
    FinalStore(g, s, job, k, job.clock(STEPS * |job.ids| + k));
    Described(g, Publish(g, s, job).store, job, |job.ids|, k);
  }

  lemma PublishedFile(g: Settings, s: Store, job: Job, k: nat)
    requires Publish(g, s, job).outcome.Ok? && k < |job.ids|
    ensures IsFile(Publish(g, s, job).store.files, job.ids[k]) && IsFile(Publish(g, s, job).store.manifests, job.ids[k])
  {
    AdvanceStands(s, job, STEPS * |job.ids|);
    Counts(STEPS * |job.ids|, |job.ids|, 0);
    FilesAfterOf(s, job, |job.ids|, k);
    ManifestsAfterOf(s, job, |job.ids|, k);
  }

  lemma LegacyKept(g: Settings, s: Store, job: Job)
    ensures Publish(g, s, job).store.legacy == s.legacy
  {
    var pr := AdvanceTo(s, job, STEPS * |job.ids|);
    AdvanceStands(s, job, STEPS * |job.ids|);
    UndoRemoves(pr.store, pr.published, UndoSteps(job, pr.published));
  }

  /** Two publications that have come equally far from the same stage. */
  ghost predicate InStep(a: Progress, b: Progress, execution: string) {
    && a.published == b.published && a.failed == b.failed && a.done == b.done
    && (execution in a.store.staging <==> execution in b.store.staging)
    && (execution in a.store.staging ==> a.store.staging[execution] == b.store.staging[execution])
  }

  lemma NextInStep(job: Job, a: Progress, b: Progress, n: nat)
    requires n < STEPS * |job.ids| && InStep(a, b, job.execution)
    ensures InStep(Next(job, a, n), Next(job, b, n), job.execution)
  {
    assert DataOf(a.store, job.execution) == DataOf(b.store, job.execution);
    assert ManifestsOf(a.store, job.execution) == ManifestsOf(b.store, job.execution);
  }

  lemma AdvanceNext(s: Store, job: Job, n: nat)
    requires 0 < n <= STEPS * |job.ids|
    ensures AdvanceTo(s, job, n) == Next(job, AdvanceTo(s, job, n - 1), n - 1)
  {
  }

  lemma StaysInStep(s: Store, t: Store, job: Job, n: nat)
    requires n < STEPS * |job.ids| && InStep(AdvanceTo(s, job, n), AdvanceTo(t, job, n), job.execution)
    ensures InStep(AdvanceTo(s, job, n + 1), AdvanceTo(t, job, n + 1), job.execution)
  {
    AdvanceNext(s, job, n + 1);
    AdvanceNext(t, job, n + 1);
    NextInStep(job, AdvanceTo(s, job, n), AdvanceTo(t, job, n), n);
  }

  lemma {:induction false} AdvanceInStep(s: Store, t: Store, job: Job, n: nat)
    requires n <= STEPS * |job.ids| && InStep(AdvanceTo(s, job, 0), AdvanceTo(t, job, 0), job.execution)
    ensures InStep(AdvanceTo(s, job, n), AdvanceTo(t, job, n), job.execution)
  {
    if n > 0 {
      AdvanceInStep(s, t, job, n - 1);
      StaysInStep(s, t, job, n - 1);
    }
  }

  lemma {:induction false} DescribedAlike(g: Settings, s: Store, t: Store, job: Job, n: nat)
    requires n <= |job.ids| && forall k :: 0 <= k < n ==>
      Describe(g, s, job.ids[k], job.clock(STEPS * |job.ids| + k)) == Describe(g, t, job.ids[k], job.clock(STEPS * |job.ids| + k))
    ensures DescribeUpTo(g, s, job, n) == DescribeUpTo(g, t, job, n)
  {
    if n > 0 { DescribedAlike(g, s, t, job, n - 1); }
  }

  /** Whether a publication succeeds, and what it says, depends on nothing but the stage. */
  lemma OutcomeOfStage(g: Settings, s: Store, t: Store, job: Job)
    requires job.execution in s.staging && job.execution in t.staging && s.staging[job.execution] == t.staging[job.execution]
    ensures Publish(g, s, job).outcome == Publish(g, t, job).outcome
  {
    var n := STEPS * |job.ids|;
    var a, b := AdvanceTo(s, job, n), AdvanceTo(t, job, n);
    AdvanceInStep(s, t, job, n);
    if !a.failed {
      forall k | 0 <= k < |job.ids|
        ensures Describe(g, a.store, job.ids[k], job.clock(n + k)) == Describe(g, b.store, job.ids[k], job.clock(n + k))
      {
        OneAlike(g, s, t, job, k, job.clock(n + k));
      }
      DescribedAlike(g, a.store, b.store, job, |job.ids|);
    }
  }

  lemma OneAlike(g: Settings, s: Store, t: Store, job: Job, k: nat, now: int)
    requires job.execution in s.staging && job.execution in t.staging && s.staging[job.execution] == t.staging[job.execution]
    requires k < |job.ids| && !AdvanceTo(s, job, STEPS * |job.ids|).failed && !AdvanceTo(t, job, STEPS * |job.ids|).failed
    ensures Describe(g, AdvanceTo(s, job, STEPS * |job.ids|).store, job.ids[k], now) ==
      Describe(g, AdvanceTo(t, job, STEPS * |job.ids|).store, job.ids[k], now)
  {
    FinalStore(g, s, job, k, now);
    FinalStore(g, t, job, k, now);
  }

  /** A publication touches nothing of other executions, and no other artifact. */
  lemma PublishElsewhere(g: Settings, s: Store, job: Job, id: string)
    requires id !in job.ids
    ensures var s' := Publish(g, s, job).store;
      && Elsewhere(s, s', job.execution)
      && (id in s'.files <==> id in s.files) && (id in s.files ==> s'.files[id] == s.files[id])
      && (id in s'.manifests <==> id in s.manifests) && (id in s.manifests ==> s'.manifests[id] == s.manifests[id])
  {
    var n := STEPS * |job.ids|;
    var pr := AdvanceTo(s, job, n);
    AdvanceStands(s, job, n);
    var i, r := pr.done / STEPS, pr.done % STEPS;
    FilesAfterOther(s, job, Moved(i, r), id);
    ManifestsAfterOther(s, job, i, id);
    UndoRemoves(pr.store, pr.published, UndoSteps(job, pr.published));
  }
}
