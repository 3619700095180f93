/** Saving a file in the stage of an execution, within its three limits. */
module FileSave {
  import opened Options
  import opened FileStore

  /** One answer of a stream. */
  datatype Answer = Chunk(bytes: Bytes) | NotBytes | Raises

  /** What is to be saved.  Text is the bytes of its encoding.  A stream answers depending on
      what it has handed out, how often it was asked, and how much is wanted. */
  datatype Source = Literal(bytes: Bytes) | Stream(read: (nat, nat, nat) -> Answer) | Unreadable

  /** What becomes of the manifest: written, not opened, or opened and cut short. */
  datatype ManifestWrite = Written | NotOpened | CutShort

  /** `named`: the filename is a string and the MIME type is well formed.  The failures are
      those of the file system: opening the file, writing a chunk, writing the manifest, and,
      when a failed save is undone, the first or the second of two removals. */
  datatype Request = Request(
    named: bool,
    info: nat,
    source: Source,
    id: string,
    now: int,
    openFails: bool,
    writeFails: nat -> bool,
    manifest: ManifestWrite,
    undoFault: Option<nat>)

  function Min(a: int, b: int): int { if a <= b then a else b }
  function Max(a: int, b: int): int { if a >= b then a else b }

  function Read(source: Source, consumed: nat, call: nat, want: nat): Answer {
    match source
    case Literal(bytes) => Chunk(if consumed <= |bytes| then bytes[consumed..Min(consumed + want, |bytes|)] else [])
    case Stream(read) => read(consumed, call, want)
    case Unreadable => Raises
  }

  /** How many bytes are asked for: at most one more than what is left. */
  function Want(limit: int, size: nat): nat {
    Min(65536, Max(1, limit - size + 1))
  }

  /** The whole content, if it was read to its end, and the bytes in the file in any case. */
  datatype Drained = Drained(content: Option<Bytes>, written: Bytes, consumed: nat)

  /** Reading the stream to its end, or up to the first byte beyond the limit. */
  function Drain(source: Source, limit: int, writeFails: nat -> bool, content: Bytes, call: nat): Drained
    requires |content| <= Max(0, limit)
    decreases Max(0, limit) - |content|
  {
    match Read(source, |content|, call, Want(limit, |content|))
    case NotBytes => Drained(None, content, |content|)
    case Raises => Drained(None, content, |content|)
    case Chunk(bytes) =>
      if bytes == [] then Drained(Some(content), content, |content|)
      else if |content| + |bytes| > limit || writeFails(call) then Drained(None, content, |content| + |bytes|)
      else Drain(source, limit, writeFails, content + bytes, call + 1)
  }

  // ----------------------------------------------------------------- the stage's size

  /** The size of an entry; a link that leads nowhere has none. */
  function SizeOf(n: Node<Bytes>): Option<nat> {
    match n case File(content, _) => Some(|content|) case Link(target) => target
  }

  predicate Measurable(data: map<string, Node<Bytes>>) {
    forall k :: k in data ==> SizeOf(data[k]).Some?
  }

  ghost function Total(data: map<string, Node<Bytes>>): nat
    requires Measurable(data)
  {
    if data == map[] then 0
    else
      var k :| k in data;
      SizeOf(data[k]).value + Total(data - {k})
  }

  lemma {:induction false} TotalWithout(data: map<string, Node<Bytes>>, k: string)
    requires Measurable(data) && k in data
    ensures Total(data) == SizeOf(data[k]).value + Total(data - {k})
  {
    var j :| j in data && Total(data) == SizeOf(data[j]).value + Total(data - {j});
    if j != k {
      TotalWithout(data - {j}, k);
      TotalWithout(data - {k}, j);
      assert data - {j} - {k} == data - {k} - {j};
    }
  }

  // -------------------------------------------------------------------------- saving

  datatype Saving = Saving(stage: Stage, outcome: Outcome<Descriptor>, consumed: nat)

  ghost function Limit(g: Settings, data: map<string, Node<Bytes>>): int
    requires Measurable(data)
  {
    Min(g.maxBytes, g.maxExecutionBytes - Total(data))
  }

  /** What a save does to its stage. */
  ghost function Save(g: Settings, stage: Stage, r: Request): Saving
    requires stage.StageDir?
  {
    if |stage.data| >= g.maxFiles || !Measurable(stage.data) then Saving(stage, Failed, 0)
    else if r.openFails || r.id in stage.data then Saving(Removed(stage, r.id, r.now, r.undoFault), Failed, 0)
    else
      var drained := Drain(r.source, Limit(g, stage.data), r.writeFails, [], 0);
      var filled := stage.(data := stage.data[r.id := File(drained.written, r.now)], mtime := r.now);
      if drained.content.None? || r.manifest.NotOpened? then
        Saving(Removed(filled, r.id, r.now, r.undoFault), Failed, drained.consumed)
      else if r.manifest.CutShort? then
        Saving(Removed(WithManifest(filled, r.id, Malformed, r.now), r.id, r.now, r.undoFault), Failed, drained.consumed)
      else
        var d := Descriptor(r.id, |drained.written|, g.hash(drained.written), r.info);
        Saving(WithManifest(filled, r.id, d, r.now), Ok(d), drained.consumed)
  }

  function WithManifest(stage: Stage, id: string, d: Descriptor, now: int): (r: Stage)
    requires stage.StageDir?
    ensures r.StageDir?
  {
    stage.(manifests := stage.manifests[id := File(d, now)], mtime := now)
  }

  // Removing an entry changes the time of its directory.

  function WithoutData(stage: Stage, id: string, now: int): (r: Stage)
    requires stage.StageDir?
    ensures r.StageDir?
  {
    if id in stage.data then stage.(data := stage.data - {id}, mtime := now) else stage
  }

  function WithoutManifest(stage: Stage, id: string, now: int): (r: Stage)
    requires stage.StageDir?
    ensures r.StageDir?
  {
    if id in stage.manifests then stage.(manifests := stage.manifests - {id}, mtime := now) else stage
  }

  /** The file is removed, then its manifest, up to the removal that raises. */
  function Removed(stage: Stage, id: string, now: int, fault: Option<nat>): (r: Stage)
    requires stage.StageDir?
    ensures r.StageDir?
  {
    if fault == Some(0) then stage
    else if fault == Some(1) then WithoutData(stage, id, now)
    else WithoutManifest(WithoutData(stage, id, now), id, now)
  }

  /** What a save does to the store; a bad request does not touch it. */
  ghost function SaveStore(g: Settings, s: Store, execution: string, r: Request): (Store, Outcome<Descriptor>) {
    if !r.named || r.source.Unreadable? || !StageOk(s, execution) then (s, Failed)
    else
      var saving := Save(g, StageOf(s, execution, r.now), r);
      (s.(staging := s.staging[execution := saving.stage]), saving.outcome)
  }

  // ------------------------------------------------------------------------- quotas

  /** The count, each file and the sum are within the limits. */
  ghost predicate WithinQuota(g: Settings, stage: Stage) {
    && stage.StageDir?
    && |stage.data| <= g.maxFiles
    && Measurable(stage.data)
    && (forall k :: k in stage.data ==> SizeOf(stage.data[k]).value <= g.maxBytes)
    && Total(stage.data) <= g.maxExecutionBytes
  }

  /** A drained content fits the limit. */
  lemma {:induction false} DrainFits(source: Source, limit: int, writeFails: nat -> bool, content: Bytes, call: nat)
    requires |content| <= Max(0, limit)
    ensures var d := Drain(source, limit, writeFails, content, call);
      |d.written| <= Max(0, limit) && (d.content.Some? ==> d.content.value == d.written && d.consumed == |d.written|)
    decreases Max(0, limit) - |content|
  {
    match Read(source, |content|, call, Want(limit, |content|))
    case Chunk(bytes) =>
      if bytes != [] && |content| + |bytes| <= limit && !writeFails(call) {
        DrainFits(source, limit, writeFails, content + bytes, call + 1);
      }
    case _ =>
  }

  /** A stream that hands out no more than it is asked for. */
  ghost predicate Honours(source: Source) {
    forall consumed: nat, call: nat, want: nat ::
      Read(source, consumed, call, want).Chunk? ==> |Read(source, consumed, call, want).bytes| <= want
  }

  /** Such a stream is read at most one byte beyond the limit. */
  lemma {:induction false} DrainStopsEarly(source: Source, limit: int, writeFails: nat -> bool, content: Bytes, call: nat)
    requires |content| <= Max(0, limit) && Honours(source)
    ensures Drain(source, limit, writeFails, content, call).consumed <= Max(0, limit) + 1
    decreases Max(0, limit) - |content|
  {
    match Read(source, |content|, call, Want(limit, |content|))
    case Chunk(bytes) =>
      if bytes != [] && |content| + |bytes| <= limit && !writeFails(call) {
        DrainStopsEarly(source, limit, writeFails, content + bytes, call + 1);
      }
    case _ =>
  }

  /** A source that hands out these bytes, in chunks of any sizes: after the first `n` of them
      some of the others, no more than wanted, and nothing once there are none left. */
  ghost predicate HandsOut(source: Source, bytes: Bytes) {
    match source
    case Literal(b) => b == bytes
    case Stream(read) => forall n: nat, call: nat, want: nat :: n <= |bytes| && want > 0 ==> HandsOn(bytes, n, want, read(n, call, want))
    case Unreadable => false
  }

  ghost predicate HandsOn(bytes: Bytes, n: nat, want: nat, answer: Answer)
    requires n <= |bytes|
  {
    && answer.Chunk? && |answer.bytes| <= want && n + |answer.bytes| <= |bytes|
    && answer.bytes == bytes[n..n + |answer.bytes|] && (n < |bytes| && want > 0 ==> answer.bytes != [])
  }

  lemma ReadsOn(source: Source, bytes: Bytes, n: nat, call: nat, want: nat)
    requires HandsOut(source, bytes) && n <= |bytes| && want > 0
    ensures HandsOn(bytes, n, want, Read(source, n, call, want))
  {
  }

  /** Such bytes are drained to the last one if they fit, and refused otherwise. */
  lemma {:induction false} DrainWhole(source: Source, bytes: Bytes, limit: int, writeFails: nat -> bool, n: nat, call: nat)
    requires HandsOut(source, bytes) && n <= |bytes| && n <= Max(0, limit) && forall k: nat :: !writeFails(k)
    ensures Drain(source, limit, writeFails, bytes[..n], call).content ==
      if |bytes| <= Max(0, limit) then Some(bytes) else None
    decreases Max(0, limit) - n
  {
    var answer := Read(source, n, call, Want(limit, n));
    ReadsOn(source, bytes, n, call, Want(limit, n));
    var m := n + |answer.bytes|;
    assert bytes[..n] + bytes[n..m] == bytes[..m];
    if n < |bytes| && m <= limit {
      DrainWhole(source, bytes, limit, writeFails, m, call + 1);
    } else if n == |bytes| {
      assert bytes[..n] == bytes;
    }
  }

  /** A request for bytes asks for at least one and at most 65536, and for no more than one byte
      beyond the limit. */
  lemma AsksForLittle(limit: int, size: nat)
    ensures 1 <= Want(limit, size) <= 65536
    ensures limit - size + 1 >= 1 ==> Want(limit, size) <= limit - size + 1
    ensures 1 <= limit - size + 1 <= 65536 ==> Want(limit, size) == limit - size + 1
    ensures limit - size >= 65536 ==> Want(limit, size) == 65536
  {
  }

  lemma TotalWith(data: map<string, Node<Bytes>>, k: string, n: Node<Bytes>)
    requires Measurable(data) && k !in data && SizeOf(n).Some?
    ensures Measurable(data[k := n]) && Total(data[k := n]) == Total(data) + SizeOf(n).value
    ensures |data[k := n]| == |data| + 1
  {
    TotalWithout(data[k := n], k);
    assert data[k := n] - {k} == data;
    assert data[k := n].Keys == data.Keys + {k};
  }

  lemma RemovedShrinks(g: Settings, stage: Stage, id: string, now: int, fault: Option<nat>)
    requires WithinQuota(g, stage)
    ensures WithinQuota(g, Removed(stage, id, now, fault))
  {
    if id in stage.data {
      TotalWithout(stage.data, id);
      assert (stage.data - {id}).Keys == stage.data.Keys - {id};
    }
  }

  /** Every save keeps the stage within its quotas, even if what it wrote is not removed. */
  lemma SaveKeepsQuota(g: Settings, stage: Stage, r: Request)
    requires WithinQuota(g, stage)
    ensures WithinQuota(g, Save(g, stage, r).stage)
  {
    if |stage.data| < g.maxFiles {
      if r.id in stage.data || r.openFails {
        RemovedShrinks(g, stage, r.id, r.now, r.undoFault);
      } else {
        var drained := Drain(r.source, Limit(g, stage.data), r.writeFails, [], 0);
        FilledKeepsQuota(g, stage, r, drained);
        var filled := stage.(data := stage.data[r.id := File(drained.written, r.now)], mtime := r.now);
        RemovedShrinks(g, filled, r.id, r.now, r.undoFault);
        RemovedShrinks(g, WithManifest(filled, r.id, Malformed, r.now), r.id, r.now, r.undoFault);
      }
    }
  }

  lemma FilledKeepsQuota(g: Settings, stage: Stage, r: Request, drained: Drained)
    requires WithinQuota(g, stage) && |stage.data| < g.maxFiles && r.id !in stage.data
    requires drained == Drain(r.source, Limit(g, stage.data), r.writeFails, [], 0)
    ensures WithinQuota(g, stage.(data := stage.data[r.id := File(drained.written, r.now)], mtime := r.now))
  {
    DrainFits(r.source, Limit(g, stage.data), r.writeFails, [], 0);
    TotalWith(stage.data, r.id, File(drained.written, r.now));
  }

  /** The file was created before the save failed, or the manifest was too. */
  ghost predicate FileLeft(g: Settings, stage: Stage, r: Request)
    requires stage.StageDir?
  {
    |stage.data| < g.maxFiles && Measurable(stage.data) && !r.openFails
  }

  ghost predicate ManifestLeft(g: Settings, stage: Stage, r: Request)
    requires stage.StageDir?
  {
    FileLeft(g, stage, r) && r.manifest.CutShort? && Drain(r.source, Limit(g, stage.data), r.writeFails, [], 0).content.Some?
  }

  /** A failed save under a fresh id leaves the files of the stage as they were if and only if
      no removal of what it had created raised; and if one did, the stage holds besides only
      a file of that id and no manifest that can be read. */
  lemma FailedSaveUndone(g: Settings, stage: Stage, r: Request)
    requires stage.StageDir? && r.id !in stage.data && r.id !in stage.manifests
    requires Save(g, stage, r).outcome.Failed?
    ensures var s' := Save(g, stage, r).stage;
      && (s'.data == stage.data && s'.manifests == stage.manifests <==>
          !(r.undoFault == Some(0) && FileLeft(g, stage, r)) && !(r.undoFault == Some(1) && ManifestLeft(g, stage, r)))
      && s'.data - {r.id} == stage.data && s'.manifests - {r.id} == stage.manifests
      && (r.id in s'.manifests ==> s'.manifests[r.id] == File(Malformed, r.now))
  {
    RemovedNothing(stage, r);
    if FileLeft(g, stage, r) {
      var written := Drain(r.source, Limit(g, stage.data), r.writeFails, [], 0).written;
      RemovedFile(stage, r, written);
      RemovedBoth(stage, r, written);
    }
  }

  lemma RemovedNothing(stage: Stage, r: Request)
    requires stage.StageDir? && r.id !in stage.data && r.id !in stage.manifests
    ensures Removed(stage, r.id, r.now, r.undoFault) == stage
    ensures stage.data - {r.id} == stage.data && stage.manifests - {r.id} == stage.manifests
  {
  }

  lemma RemovedFile(stage: Stage, r: Request, written: Bytes)
    requires stage.StageDir? && r.id !in stage.data && r.id !in stage.manifests
    ensures var filled := stage.(data := stage.data[r.id := File(written, r.now)], mtime := r.now);
      var left := Removed(filled, r.id, r.now, r.undoFault);
      && (left.data == stage.data <==> r.undoFault != Some(0))
      && left.data - {r.id} == stage.data && left.manifests == stage.manifests
  {
    assert stage.data - {r.id} == stage.data;
    assert stage.data[r.id := File(written, r.now)] - {r.id} == stage.data;
  }

  lemma RemovedBoth(stage: Stage, r: Request, written: Bytes)
    requires stage.StageDir? && r.id !in stage.data && r.id !in stage.manifests
    ensures var filled := stage.(data := stage.data[r.id := File(written, r.now)], mtime := r.now);
      var left := Removed(WithManifest(filled, r.id, Malformed, r.now), r.id, r.now, r.undoFault);
      && (left.data == stage.data <==> r.undoFault != Some(0))
      && (left.manifests == stage.manifests <==> r.undoFault != Some(0) && r.undoFault != Some(1))
      && left.data - {r.id} == stage.data && left.manifests - {r.id} == stage.manifests
      && (r.id in left.manifests ==> left.manifests[r.id] == File(Malformed, r.now))
  {
    RemovedFile(stage, r, written);
    assert stage.manifests - {r.id} == stage.manifests;
    assert stage.manifests[r.id := File(Malformed, r.now)] - {r.id} == stage.manifests;
  }

  /** Whatever is saved, a stream that hands out no more than it is asked for is read at
      most one byte beyond what the limits leave. */
  lemma SaveReadsLittle(g: Settings, stage: Stage, r: Request)
    requires WithinQuota(g, stage) && Honours(r.source)
    ensures Save(g, stage, r).consumed <= Limit(g, stage.data) + 1
  {
    DrainStopsEarly(r.source, Limit(g, stage.data), r.writeFails, [], 0);
  }

  /** A save that is malformed, or whose stage is refused, does nothing to the store; any other
      saves into the stage of its execution as it is, or a new one, and changes nothing else. */
  lemma SaveStaysInStage(g: Settings, s: Store, execution: string, r: Request)
    ensures var (s', out) := SaveStore(g, s, execution, r);
      && s'.files == s.files && s'.manifests == s.manifests && s'.legacy == s.legacy
      && (forall e :: e != execution ==> (e in s'.staging <==> e in s.staging) && (e in s.staging ==> s'.staging[e] == s.staging[e]))
      && if !r.named || r.source.Unreadable? || !ValidExecution(execution) || (execution in s.staging && s.staging[execution].StageLink?)
         then s' == s && out == Failed
         else
           var saved := Save(g, if execution in s.staging then s.staging[execution] else StageDir(map[], map[], r.now), r);
           execution in s'.staging && s'.staging[execution] == saved.stage && out == saved.outcome
  {
  }

  /** Bytes under a fresh id, on a file system that does not fail, are saved exactly as they
      are if the count and both sizes leave room, and refused otherwise, in whatever chunks they
      come. */
  lemma SaveBytesExact(g: Settings, stage: Stage, r: Request, bytes: Bytes)
    requires WithinQuota(g, stage) && HandsOut(r.source, bytes) && r.id !in stage.data
    requires !r.openFails && r.manifest.Written? && forall k: nat :: !r.writeFails(k)
    ensures var saved := Save(g, stage, r);
      if |stage.data| < g.maxFiles && |bytes| <= g.maxBytes && Total(stage.data) + |bytes| <= g.maxExecutionBytes
      then saved.outcome == Ok(Descriptor(r.id, |bytes|, g.hash(bytes), r.info))
           && saved.stage.data == stage.data[r.id := File(bytes, r.now)]
      else saved.outcome.Failed?
  {
    DrainWhole(r.source, bytes, Limit(g, stage.data), r.writeFails, 0, 0);
    DrainFits(r.source, Limit(g, stage.data), r.writeFails, [], 0);
  }

  /** A save succeeds if and only if there is room for one more file, the file can be opened
      under a fresh id, the stream is read to its end within the limits and the manifest is
      written.  Then the stage holds the file and its manifest, and whenever it changes, failed or
      not, it bears the time of the save; a stream
      is not touched if there is no room, or the file cannot be opened. */
  lemma SaveSucceedsExactly(g: Settings, stage: Stage, r: Request)
    requires stage.StageDir?
    ensures var saved := Save(g, stage, r);
      && (saved.outcome.Ok? <==>
           && |stage.data| < g.maxFiles && Measurable(stage.data) && !r.openFails && r.id !in stage.data && r.manifest == Written
           && Drain(r.source, Limit(g, stage.data), r.writeFails, [], 0).content.Some?)
      && (saved.outcome.Ok? ==>
           && saved.stage.mtime == r.now && r.id in saved.stage.data && r.id in saved.stage.manifests
           && saved.stage.manifests[r.id] == File(saved.outcome.value, r.now))
      && (saved.stage != stage ==> saved.stage.StageDir? && saved.stage.mtime == r.now)
      && (|stage.data| >= g.maxFiles || r.openFails || r.id in stage.data ==> saved.consumed == 0)
  {
    if Measurable(stage.data) { DrainFits(r.source, Limit(g, stage.data), r.writeFails, [], 0); }
  }

  /** No save touches another file of the stage, or its manifest. */
  lemma SaveKeepsOthers(g: Settings, stage: Stage, r: Request, id: string)
    requires stage.StageDir? && id != r.id
    ensures var s' := Save(g, stage, r).stage;
      && (id in s'.data <==> id in stage.data) && (id in stage.data ==> s'.data[id] == stage.data[id])
      && (id in s'.manifests <==> id in stage.manifests) && (id in stage.manifests ==> s'.manifests[id] == stage.manifests[id])
  {
  }

  /** The stage after a sequence of saves, whatever each of them did. */
  ghost function SaveAll(g: Settings, stage: Stage, requests: seq<Request>): Stage
    requires stage.StageDir?
    ensures SaveAll(g, stage, requests).StageDir?
  {
    if requests == [] then stage
    else Save(g, SaveAll(g, stage, requests[..|requests| - 1]), requests[|requests| - 1]).stage
  }

  /** After any sequence of saves the stage of an execution is within its quotas. */
  lemma {:induction false} QuotaOverRuns(g: Settings, stage: Stage, requests: seq<Request>)
    requires WithinQuota(g, stage)
    ensures WithinQuota(g, SaveAll(g, stage, requests))
  {
    if requests != [] {
      QuotaOverRuns(g, stage, requests[..|requests| - 1]);
      SaveKeepsQuota(g, SaveAll(g, stage, requests[..|requests| - 1]), requests[|requests| - 1]);
    }
  }
}
