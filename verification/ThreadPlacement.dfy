/** Where a closed turn puts its parts, its artifact views and its file views.

    The reference description is a rank on origins: parts fall into runs, each run-ending
    part opening the next one; inside a run the parts come first and the artifact views of
    the run after them; the file views close the last run before the trailing summaries.
    A closed turn is the one list of exactly these origins in strictly increasing rank. */
module ThreadPlacement {
  import opened Options
  import opened ThreadModel
  import opened ThreadMeaning

  // ------------------------------------------------------------------ reference

  /** How many of the first `n` parts end a run. */
  function Runs(calls: seq<ToolCall>, parts: seq<Part>, n: nat): nat
    requires n <= |parts|
  {
    if n == 0 then 0 else Runs(calls, parts, n - 1) + (if TextOrSummary(calls, parts[n - 1]) then 1 else 0)
  }

  /** The last run among the first `n` parts, not counting a trailing run of summaries. */
  function LastRun(calls: seq<ToolCall>, parts: seq<Part>, n: nat): nat
    requires n <= |parts|
  {
    if n > 0 && Summary(calls, parts[n - 1]) then LastRun(calls, parts, n - 1) else Runs(calls, parts, n)
  }

  datatype Rank = Rank(run: nat, kind: nat, i: nat)

  predicate Less(a: Rank, b: Rank) {
    a.run < b.run || (a.run == b.run && (a.kind < b.kind || (a.kind == b.kind && a.i < b.i)))
  }

  function RankOf(calls: seq<ToolCall>, parts: seq<Part>, o: Origin): Rank
    requires o.i < |parts|
  {
    match o
    case Original(i) => Rank(Runs(calls, parts, i + 1), 0, i)
    case Artifact(i) => Rank(Runs(calls, parts, i + 1), 1, i)
    case Files(i) => Rank(LastRun(calls, parts, |parts|), 2, i)
  }

  /** A placed part is what its origin says: the part itself, or the view of its call. */
  ghost predicate Genuine(d: Readers, calls: seq<ToolCall>, parts: seq<Part>, p: Placed) {
    p.origin.i < |parts| && GenuineFor(d, calls, parts[p.origin.i], p)
  }

  ghost predicate GenuineFor(d: Readers, calls: seq<ToolCall>, part: Part, p: Placed) {
    match p.origin
    case Original(_) => p.part == part
    case Artifact(_) => DueArtifact(calls, part) && IsArtifactOf(CallShown(calls, part).value, p.part)
    case Files(_) => DueFiles(d, calls, part) && IsFilesOf(CallShown(calls, part).value, p.part)
  }

  ghost predicate AllGenuine(d: Readers, calls: seq<ToolCall>, parts: seq<Part>, placed: seq<Placed>) {
    forall q :: 0 <= q < |placed| ==> Genuine(d, calls, parts, placed[q])
  }

  ghost predicate Increasing(d: Readers, calls: seq<ToolCall>, parts: seq<Part>, placed: seq<Placed>)
    requires AllGenuine(d, calls, parts, placed)
  {
    forall q, r :: 0 <= q < r < |placed| ==>
      Less(RankOf(calls, parts, placed[q].origin), RankOf(calls, parts, placed[r].origin))
  }

  predicate Has(placed: seq<Placed>, o: Origin) {
    exists q :: 0 <= q < |placed| && placed[q].origin == o
  }

  /** The origins of the first `n` parts that belong in the turn, in any order. */
  predicate Belongs(d: Readers, calls: seq<ToolCall>, parts: seq<Part>, n: nat, o: Origin)
    requires n <= |parts|
  {
    && o.i < n
    && match o
       case Original(_) => true
       case Artifact(i) => DueArtifact(calls, parts[i])
       case Files(i) => DueFiles(d, calls, parts[i])
  }

  // ---------------------------------------------------------------- small steps

  lemma {:induction false} RunsMonotone(calls: seq<ToolCall>, parts: seq<Part>, n: nat, m: nat)
    requires n <= m <= |parts|
    ensures Runs(calls, parts, n) <= Runs(calls, parts, m)
  {
    if n < m { RunsMonotone(calls, parts, n, m - 1); }
  }

  lemma {:induction false} LastRunBound(calls: seq<ToolCall>, parts: seq<Part>, n: nat)
    requires n <= |parts|
    ensures LastRun(calls, parts, n) <= Runs(calls, parts, n)
  {
    if n > 0 && IsSummary(calls, parts[n - 1]) { LastRunBound(calls, parts, n - 1); }
  }

  lemma HasConcat(a: seq<Placed>, b: seq<Placed>, o: Origin)
    ensures Has(a + b, o) <==> Has(a, o) || Has(b, o)
  {
    if Has(a, o) {
      var q :| 0 <= q < |a| && a[q].origin == o;
      assert (a + b)[q].origin == o;
    }
    if Has(b, o) {
      var q :| 0 <= q < |b| && b[q].origin == o;
      assert (a + b)[|a| + q].origin == o;
    }
  }

  lemma HasOne(p: Placed, o: Origin)
    ensures Has([p], o) <==> p.origin == o
  {
    assert [p][0] == p;
  }

  /** Lists whose ranks stay on either side of a bound join into an increasing list. */
  predicate UpTo(calls: seq<ToolCall>, parts: seq<Part>, placed: seq<Placed>, bound: Rank) {
    forall q :: 0 <= q < |placed| ==> placed[q].origin.i < |parts| && Less(RankOf(calls, parts, placed[q].origin), bound)
  }

  predicate From(calls: seq<ToolCall>, parts: seq<Part>, placed: seq<Placed>, bound: Rank) {
    forall q :: 0 <= q < |placed| ==> placed[q].origin.i < |parts| && !Less(RankOf(calls, parts, placed[q].origin), bound)
  }

  lemma Join(d: Readers, calls: seq<ToolCall>, parts: seq<Part>, a: seq<Placed>, b: seq<Placed>, bound: Rank)
    requires AllGenuine(d, calls, parts, a) && AllGenuine(d, calls, parts, b)
    requires Increasing(d, calls, parts, a) && Increasing(d, calls, parts, b)
    requires UpTo(calls, parts, a, bound) && From(calls, parts, b, bound)
    ensures AllGenuine(d, calls, parts, a + b) && Increasing(d, calls, parts, a + b)
  {
  }

  // ------------------------------------------------------ placing the first parts

  /** What is placed belongs to earlier runs or is a part of this one; what waits is the
      artifact views of this run. */
  predicate Placing0(calls: seq<ToolCall>, parts: seq<Part>, n: nat, st: Placing)
    requires n <= |parts|
  {
    && UpTo(calls, parts, st.placed, Rank(Runs(calls, parts, n), 0, n))
    && From(calls, parts, st.pending, Rank(Runs(calls, parts, n), 1, 0))
    && UpTo(calls, parts, st.pending, Rank(Runs(calls, parts, n), 1, n))
  }

  ghost predicate PlacingInv(d: Readers, calls: seq<ToolCall>, parts: seq<Part>, n: nat, st: Placing)
    requires n <= |parts|
  {
    && AllGenuine(d, calls, parts, st.placed) && AllGenuine(d, calls, parts, st.pending)
    && Increasing(d, calls, parts, st.placed) && Increasing(d, calls, parts, st.pending)
    && Placing0(calls, parts, n, st)
  }

  lemma UpToConcat(calls: seq<ToolCall>, parts: seq<Part>, a: seq<Placed>, b: seq<Placed>, bound: Rank)
    ensures UpTo(calls, parts, a + b, bound) <==> UpTo(calls, parts, a, bound) && UpTo(calls, parts, b, bound)
    ensures From(calls, parts, a + b, bound) <==> From(calls, parts, a, bound) && From(calls, parts, b, bound)
  {
    assert forall q :: 0 <= q < |a| ==> a[q] == (a + b)[q];
    assert forall q :: 0 <= q < |b| ==> b[q] == (a + b)[|a| + q];
  }

  /** The part itself goes after everything placed. */
  lemma PutPart(d: Readers, calls: seq<ToolCall>, parts: seq<Part>, n: nat, st: Placing)
    requires n < |parts| && PlacingInv(d, calls, parts, n, st)
    ensures var p := Placed(parts[n], Original(n));
      var placed := (if EndsRun(calls, parts[n]) then st.placed + st.pending else st.placed) + [p];
      && AllGenuine(d, calls, parts, placed) && Increasing(d, calls, parts, placed)
      && UpTo(calls, parts, placed, Rank(Runs(calls, parts, n + 1), 0, n + 1))
  {
    var run, next := Runs(calls, parts, n), Runs(calls, parts, n + 1);
    var p := Placed(parts[n], Original(n));
    var flushed := st.placed;
    if EndsRun(calls, parts[n]) {
      flushed := st.placed + st.pending;
      Join(d, calls, parts, st.placed, st.pending, Rank(run, 1, 0));
      UpToConcat(calls, parts, st.placed, st.pending, Rank(next, 0, n));
    }
    Join(d, calls, parts, flushed, [p], Rank(next, 0, n));
    UpToConcat(calls, parts, flushed, [p], Rank(next, 0, n + 1));
  }

  /** Its view waits behind the views of the same run. */
  lemma PutView(d: Readers, calls: seq<ToolCall>, parts: seq<Part>, n: nat, waiting: seq<Placed>, view: seq<Placed>)
    requires n < |parts| && AllGenuine(d, calls, parts, waiting) && Increasing(d, calls, parts, waiting)
    requires var run := Runs(calls, parts, n + 1);
      From(calls, parts, waiting, Rank(run, 1, 0)) && UpTo(calls, parts, waiting, Rank(run, 1, n))
    requires view == [] || (|view| == 1 && view[0].origin == Artifact(n) && Genuine(d, calls, parts, view[0]))
    ensures var run := Runs(calls, parts, n + 1); var pending := waiting + view;
      && AllGenuine(d, calls, parts, pending) && Increasing(d, calls, parts, pending)
      && From(calls, parts, pending, Rank(run, 1, 0)) && UpTo(calls, parts, pending, Rank(run, 1, n + 1))
  {
    var run := Runs(calls, parts, n + 1);
    Join(d, calls, parts, waiting, view, Rank(run, 1, n));
    UpToConcat(calls, parts, waiting, view, Rank(run, 1, 0));
    UpToConcat(calls, parts, waiting, view, Rank(run, 1, n + 1));
  }

  lemma {:induction false} PlacingKeepsRanks(d: Readers, calls: seq<ToolCall>, parts: seq<Part>, used: set<string>, n: nat)
    requires n <= |parts|
    ensures PlacingInv(d, calls, parts, n, PlaceUpTo(calls, parts, used, n))
  {
    if n == 0 {
      NothingPlaced(d, calls, parts, used);
    } else {
      PlacingKeepsRanks(d, calls, parts, used, n - 1);
      assert PlaceUpTo(calls, parts, used, n) == PlaceOne(calls, parts[n - 1], n - 1, PlaceUpTo(calls, parts, used, n - 1));
      PlacingStep(d, calls, parts, n - 1, PlaceUpTo(calls, parts, used, n - 1));
    }
  }

  lemma NothingPlaced(d: Readers, calls: seq<ToolCall>, parts: seq<Part>, used: set<string>)
    ensures PlacingInv(d, calls, parts, 0, Placing([], [], used))
  {
  }

  lemma PlacingStep(d: Readers, calls: seq<ToolCall>, parts: seq<Part>, n: nat, st: Placing)
    requires n < |parts| && PlacingInv(d, calls, parts, n, st)
    ensures PlacingInv(d, calls, parts, n + 1, PlaceOne(calls, parts[n], n, st))
  {
    var view := ViewMade(calls, parts[n], st.used, n);
    PutPart(d, calls, parts, n, st);
    if EndsRun(calls, parts[n]) {
      PutView(d, calls, parts, n, [], view);
      assert [] + view == view;
    } else {
      PutView(d, calls, parts, n, st.pending, view);
    }
  }

  /** Everything placed so far, waiting views included. */
  function Full(calls: seq<ToolCall>, parts: seq<Part>, used: set<string>, n: nat): seq<Placed>
    requires n <= |parts|
  {
    var st := PlaceUpTo(calls, parts, used, n);
    st.placed + st.pending
  }

  lemma FullRanks(d: Readers, calls: seq<ToolCall>, parts: seq<Part>, used: set<string>, n: nat)
    requires n <= |parts|
    ensures var full := Full(calls, parts, used, n);
      && AllGenuine(d, calls, parts, full) && Increasing(d, calls, parts, full)
      && UpTo(calls, parts, full, Rank(Runs(calls, parts, n), 2, 0))
  {
    var st, run := PlaceUpTo(calls, parts, used, n), Runs(calls, parts, n);
    PlacingKeepsRanks(d, calls, parts, used, n);
    Join(d, calls, parts, st.placed, st.pending, Rank(run, 1, 0));
    UpToConcat(calls, parts, st.placed, st.pending, Rank(run, 2, 0));
  }

  lemma FullNext(calls: seq<ToolCall>, parts: seq<Part>, used: set<string>, n: nat, o: Origin)
    requires n < |parts|
    ensures var view := ViewMade(calls, parts[n], PlaceUpTo(calls, parts, used, n).used, n);
      Has(Full(calls, parts, used, n + 1), o) <==>
        Has(Full(calls, parts, used, n), o) || o == Original(n) || Has(view, o)
  {
    var st := PlaceUpTo(calls, parts, used, n);
    var view, p := ViewMade(calls, parts[n], st.used, n), Placed(parts[n], Original(n));
    HasOne(p, o);
    HasConcat(st.placed, st.pending, o);
    HasConcat(st.placed + st.pending, [p], o);
    HasConcat(st.placed + st.pending + [p], [] + view, o);
    HasConcat(st.placed, [p], o);
    HasConcat(st.pending, view, o);
    HasConcat(st.placed + [p], st.pending + view, o);
    assert [] + view == view;
  }

  /** Exactly the parts and the views of the calls that make one are placed. */
  lemma {:induction false} FullComplete(d: Readers, calls: seq<ToolCall>, parts: seq<Part>, used: set<string>, n: nat, o: Origin)
    requires n <= |parts| && !o.Files?
    ensures Has(Full(calls, parts, used, n), o) <==> Belongs(d, calls, parts, n, o)
  {
    if n > 0 {
      FullComplete(d, calls, parts, used, n - 1, o);
      FullNext(calls, parts, used, n - 1, o);
      ViewHas(calls, parts[n - 1], PlaceUpTo(calls, parts, used, n - 1).used, n - 1, o);
    }
  }

  lemma ViewHas(calls: seq<ToolCall>, part: Part, used: set<string>, n: nat, o: Origin)
    ensures Has(ViewMade(calls, part, used, n), o) <==> o == Artifact(n) && MakesArtifact(calls, part)
  {
    var view := ViewMade(calls, part, used, n);
    if view != [] { HasOne(view[0], o); }
  }

  // --------------------------------------------------------- the trailing summaries

  lemma FullSummary(calls: seq<ToolCall>, parts: seq<Part>, used: set<string>, n: nat)
    requires n < |parts|
    ensures var full := Full(calls, parts, used, n + 1);
      if IsSummary(calls, parts[n]) then full == Full(calls, parts, used, n) + [Placed(parts[n], Original(n))]
      else full != [] && !IsSummary(calls, full[|full| - 1].part)
  {
    var st, st' := PlaceUpTo(calls, parts, used, n), PlaceUpTo(calls, parts, used, n + 1);
    var full := Full(calls, parts, used, n + 1);
    if !IsSummary(calls, parts[n]) {
      if st'.pending == [] {
        assert full[|full| - 1] == Placed(parts[n], Original(n));
      } else {
        WaitingViews(calls, parts, used, n + 1);
        assert full[|full| - 1] == st'.pending[|st'.pending| - 1];
      }
    }
  }

  lemma {:induction false} WaitingViews(calls: seq<ToolCall>, parts: seq<Part>, used: set<string>, n: nat)
    requires n <= |parts|
    ensures forall q :: 0 <= q < |PlaceUpTo(calls, parts, used, n).pending| ==>
      !IsSummary(calls, PlaceUpTo(calls, parts, used, n).pending[q].part)
  {
    if n > 0 {
      WaitingViews(calls, parts, used, n - 1);
    }
  }

  lemma {:induction false} TrailingPrefix(calls: seq<ToolCall>, a: seq<Placed>, b: seq<Placed>, end: nat)
    requires end <= |a|
    ensures TrailingStart(calls, a + b, end) == TrailingStart(calls, a, end)
  {
    if end > 0 && IsSummary(calls, a[end - 1].part) { TrailingPrefix(calls, a, b, end - 1); }
  }

  /** Everything before the trailing summaries is in the given run or earlier, everything
      after in later runs. */
  predicate SplitAtRun(calls: seq<ToolCall>, parts: seq<Part>, full: seq<Placed>, run: nat) {
    var end := TrailingStart(calls, full, |full|);
    UpTo(calls, parts, full[..end], Rank(run, 2, 0)) && From(calls, parts, full[end..], Rank(run + 1, 0, 0))
  }

  lemma {:induction false} TrailingRanks(d: Readers, calls: seq<ToolCall>, parts: seq<Part>, used: set<string>, n: nat)
    requires n <= |parts|
    ensures SplitAtRun(calls, parts, Full(calls, parts, used, n), LastRun(calls, parts, n))
  {
    if n > 0 { FullSummary(calls, parts, used, n - 1); }
    if n > 0 && IsSummary(calls, parts[n - 1]) {
      TrailingRanks(d, calls, parts, used, n - 1);
      LastRunBound(calls, parts, n - 1);
      TrailingStep(calls, parts, Full(calls, parts, used, n - 1), Placed(parts[n - 1], Original(n - 1)), LastRun(calls, parts, n));
    } else {
      FullRanks(d, calls, parts, used, n);
      WholeTurn(calls, parts, Full(calls, parts, used, n), Runs(calls, parts, n));
    }
  }

  lemma TrailingStep(calls: seq<ToolCall>, parts: seq<Part>, before: seq<Placed>, last: Placed, run: nat)
    requires IsSummary(calls, last.part) && last.origin.i < |parts|
    requires RankOf(calls, parts, last.origin).run > run
    requires SplitAtRun(calls, parts, before, run)
    ensures SplitAtRun(calls, parts, before + [last], run)
  {
    var full, end := before + [last], TrailingStart(calls, before, |before|);
    TrailingPrefix(calls, before, [last], |before|);
    assert full[..end] == before[..end] && full[end..] == before[end..] + [last];
    UpToConcat(calls, parts, before[end..], [last], Rank(run + 1, 0, 0));
  }

  lemma WholeTurn(calls: seq<ToolCall>, parts: seq<Part>, full: seq<Placed>, run: nat)
    requires full == [] || !IsSummary(calls, full[|full| - 1].part)
    requires UpTo(calls, parts, full, Rank(run, 2, 0))
    ensures SplitAtRun(calls, parts, full, run)
  {
    assert full[..|full|] == full && full[|full|..] == [];
  }

  // ------------------------------------------------------------------ file views

  /** File views so far belong to originals up to the `n`-th placed part. */
  ghost predicate FilesInv(d: Readers, calls: seq<ToolCall>, parts: seq<Part>, placed: seq<Placed>, n: nat, views: seq<Placed>)
    requires n <= |placed|
  {
    && AllGenuine(d, calls, parts, views) && Increasing(d, calls, parts, views)
    && (forall k :: 0 <= k < |views| ==> views[k].origin.Files? && Has(placed[..n], Original(views[k].origin.i)))
  }

  lemma OriginalOrder(calls: seq<ToolCall>, parts: seq<Part>, i: nat, j: nat)
    requires i < |parts| && j < |parts|
    requires Less(RankOf(calls, parts, Original(i)), RankOf(calls, parts, Original(j)))
    ensures i < j
  {
    if j < i { RunsMonotone(calls, parts, j + 1, i + 1); }
  }

  /** A placed part with files is one of the turn's own. */
  lemma FilesOfOriginal(d: Readers, calls: seq<ToolCall>, parts: seq<Part>, p: Placed)
    requires Genuine(d, calls, parts, p) && MakesFiles(d, calls, p.part)
    ensures p.origin.Original? && MakesFiles(d, calls, parts[p.origin.i])
  {
  }

  lemma HasBefore(placed: seq<Placed>, n: nat, o: Origin)
    requires 0 < n <= |placed|
    ensures Has(placed[..n], o) <==> Has(placed[..n - 1], o) || placed[n - 1].origin == o
  {
    assert placed[..n] == placed[..n - 1] + [placed[n - 1]];
    HasConcat(placed[..n - 1], [placed[n - 1]], o);
    HasOne(placed[n - 1], o);
  }

  /** The file view of the next placed part is of a later call than those before. */
  lemma FilesLater(d: Readers, calls: seq<ToolCall>, parts: seq<Part>, placed: seq<Placed>, n: nat, i: nat)
    requires n < |placed| && AllGenuine(d, calls, parts, placed) && Increasing(d, calls, parts, placed)
    requires Has(placed[..n], Original(i)) && placed[n].origin.Original?
    ensures i < placed[n].origin.i
  {
    var q :| 0 <= q < n && placed[..n][q].origin == Original(i);
    assert placed[q].origin == Original(i);
    OriginalOrder(calls, parts, i, placed[n].origin.i);
  }

  lemma FilesStep(d: Readers, calls: seq<ToolCall>, parts: seq<Part>, placed: seq<Placed>, n: nat, views: seq<Placed>, view: Placed)
    requires n < |placed| && AllGenuine(d, calls, parts, placed) && Increasing(d, calls, parts, placed)
    requires FilesInv(d, calls, parts, placed, n, views)
    requires Genuine(d, calls, parts, view) && placed[n].origin.Original? && view.origin == Files(placed[n].origin.i)
    ensures FilesInv(d, calls, parts, placed, n + 1, views + [view])
  {
    forall k | 0 <= k < |views|
      ensures views[k].origin.i < view.origin.i && Has(placed[..n + 1], Original(views[k].origin.i))
    {
      FilesLater(d, calls, parts, placed, n, views[k].origin.i);
      HasBefore(placed, n + 1, Original(views[k].origin.i));
    }
    HasBefore(placed, n + 1, placed[n].origin);
    var last := LastRun(calls, parts, |parts|);
    Join(d, calls, parts, views, [view], Rank(last, 2, view.origin.i));
  }

  lemma FilesSkip(d: Readers, calls: seq<ToolCall>, parts: seq<Part>, placed: seq<Placed>, n: nat, views: seq<Placed>)
    requires n < |placed| && FilesInv(d, calls, parts, placed, n, views)
    ensures FilesInv(d, calls, parts, placed, n + 1, views)
  {
    forall k | 0 <= k < |views| ensures Has(placed[..n + 1], Original(views[k].origin.i)) {
      HasBefore(placed, n + 1, Original(views[k].origin.i));
    }
  }

  lemma {:induction false} FilesKeepRanks(d: Readers, calls: seq<ToolCall>, parts: seq<Part>, placed: seq<Placed>, used: set<string>, n: nat)
    requires n <= |placed| && AllGenuine(d, calls, parts, placed) && Increasing(d, calls, parts, placed)
    ensures FilesInv(d, calls, parts, placed, n, FilesUpTo(d, calls, placed, used, n).views)
  {
    if n == 0 {
      NoFilesPlaced(d, calls, parts, placed);
    } else {
      FilesKeepRanks(d, calls, parts, placed, used, n - 1);
      var st := FilesUpTo(d, calls, placed, used, n - 1);
      FilesOne(d, calls, parts, placed, n - 1, st.views, st.used);
    }
  }

  lemma NoFilesPlaced(d: Readers, calls: seq<ToolCall>, parts: seq<Part>, placed: seq<Placed>)
    ensures FilesInv(d, calls, parts, placed, 0, [])
  {
  }

  lemma FilesOne(d: Readers, calls: seq<ToolCall>, parts: seq<Part>, placed: seq<Placed>, n: nat, views: seq<Placed>, used: set<string>)
    requires n < |placed| && AllGenuine(d, calls, parts, placed) && Increasing(d, calls, parts, placed)
    requires FilesInv(d, calls, parts, placed, n, views)
    ensures FilesInv(d, calls, parts, placed, n + 1, views + DownloadMade(d, calls, placed[n], used))
  {
    if MakesFiles(d, calls, placed[n].part) {
      FilesOfOriginal(d, calls, parts, placed[n]);
      FilesStep(d, calls, parts, placed, n, views, DownloadMade(d, calls, placed[n], used)[0]);
    } else {
      FilesSkip(d, calls, parts, placed, n, views);
      assert views + DownloadMade(d, calls, placed[n], used) == views;
    }
  }

  lemma {:induction false} FilesComplete(d: Readers, calls: seq<ToolCall>, parts: seq<Part>, placed: seq<Placed>, used: set<string>, n: nat, i: nat)
    requires n <= |placed| && AllGenuine(d, calls, parts, placed) && i < |parts|
    ensures Has(FilesUpTo(d, calls, placed, used, n).views, Files(i)) <==>
      Has(placed[..n], Original(i)) && MakesFiles(d, calls, parts[i])
  {
    if n > 0 {
      var st, p := FilesUpTo(d, calls, placed, used, n - 1), placed[n - 1];
      FilesComplete(d, calls, parts, placed, used, n - 1, i);
      HasBefore(placed, n, Original(i));
      var view := DownloadMade(d, calls, p, st.used);
      HasConcat(st.views, view, Files(i));
      if MakesFiles(d, calls, p.part) {
        FilesOfOriginal(d, calls, parts, p);
        HasOne(view[0], Files(i));
      }
    }
  }

  // ---------------------------------------------------------------- the closed turn

  /** The parts before the file views, the file views, and the trailing summaries. */
  function Before(calls: seq<ToolCall>, parts: seq<Part>, used: set<string>): seq<Placed> {
    var full := Full(calls, parts, used, |parts|);
    full[..TrailingStart(calls, full, |full|)]
  }

  function After(calls: seq<ToolCall>, parts: seq<Part>, used: set<string>): seq<Placed> {
    var full := Full(calls, parts, used, |parts|);
    full[TrailingStart(calls, full, |full|)..]
  }

  function Views(d: Readers, calls: seq<ToolCall>, parts: seq<Part>, used: set<string>): seq<Placed> {
    var full := Full(calls, parts, used, |parts|);
    FilesUpTo(d, calls, full, PlaceUpTo(calls, parts, used, |parts|).used, |full|).views
  }

  lemma ThreePieces(d: Readers, calls: seq<ToolCall>, parts: seq<Part>, used: set<string>)
    ensures PlaceAll(d, calls, parts, used).views ==
      Before(calls, parts, used) + Views(d, calls, parts, used) + After(calls, parts, used)
    ensures Full(calls, parts, used, |parts|) == Before(calls, parts, used) + After(calls, parts, used)
  {
  }

  lemma ViewsRanks(d: Readers, calls: seq<ToolCall>, parts: seq<Part>, used: set<string>)
    ensures var views := Views(d, calls, parts, used);
      && AllGenuine(d, calls, parts, views) && Increasing(d, calls, parts, views)
      && From(calls, parts, views, Rank(LastRun(calls, parts, |parts|), 2, 0))
      && UpTo(calls, parts, views, Rank(LastRun(calls, parts, |parts|) + 1, 0, 0))
      && forall k :: 0 <= k < |views| ==> views[k].origin.Files?
  {
    var full := Full(calls, parts, used, |parts|);
    FullRanks(d, calls, parts, used, |parts|);
    FilesKeepRanks(d, calls, parts, full, PlaceUpTo(calls, parts, used, |parts|).used, |full|);
  }

  lemma PieceRanks(d: Readers, calls: seq<ToolCall>, parts: seq<Part>, used: set<string>)
    ensures var a, b := Before(calls, parts, used), After(calls, parts, used);
      && AllGenuine(d, calls, parts, a) && Increasing(d, calls, parts, a)
      && AllGenuine(d, calls, parts, b) && Increasing(d, calls, parts, b)
      && UpTo(calls, parts, a, Rank(LastRun(calls, parts, |parts|), 2, 0))
      && From(calls, parts, b, Rank(LastRun(calls, parts, |parts|) + 1, 0, 0))
  {
    FullRanks(d, calls, parts, used, |parts|);
    TrailingRanks(d, calls, parts, used, |parts|);
    var full := Full(calls, parts, used, |parts|);
  }

  /** A closed turn is the list, in strictly increasing rank, of genuine parts and views. */
  lemma ClosedTurnRanked(d: Readers, calls: seq<ToolCall>, parts: seq<Part>, used: set<string>)
    ensures var views := PlaceAll(d, calls, parts, used).views;
      AllGenuine(d, calls, parts, views) && Increasing(d, calls, parts, views)
  {
    var a, v, b := Before(calls, parts, used), Views(d, calls, parts, used), After(calls, parts, used);
    var last := LastRun(calls, parts, |parts|);
    ThreePieces(d, calls, parts, used);
    PieceRanks(d, calls, parts, used);
    ViewsRanks(d, calls, parts, used);
    Join(d, calls, parts, a, v, Rank(last, 2, 0));
    UpToConcat(calls, parts, a, v, Rank(last + 1, 0, 0));
    Join(d, calls, parts, a + v, b, Rank(last + 1, 0, 0));
  }

  predicate NoFiles(placed: seq<Placed>) {
    forall q :: 0 <= q < |placed| ==> !placed[q].origin.Files?
  }

  lemma NoFilesYet(calls: seq<ToolCall>, parts: seq<Part>, used: set<string>)
    ensures NoFiles(Full(calls, parts, used, |parts|))
  {
    NoFilesIn(calls, parts, used, |parts|);
  }

  lemma {:induction false} NoFilesIn(calls: seq<ToolCall>, parts: seq<Part>, used: set<string>, n: nat)
    requires n <= |parts|
    ensures var st := PlaceUpTo(calls, parts, used, n);
      NoFiles(st.placed) && NoFiles(st.pending)
  {
    if n > 0 {
      NoFilesIn(calls, parts, used, n - 1);
      assert PlaceUpTo(calls, parts, used, n) == PlaceOne(calls, parts[n - 1], n - 1, PlaceUpTo(calls, parts, used, n - 1));
    }
  }

  /** It holds every part, the artifact view of exactly the finished artifact calls, and
      the file view of exactly the successful calls with files. */
  lemma ClosedTurnComplete(d: Readers, calls: seq<ToolCall>, parts: seq<Part>, used: set<string>, o: Origin)
    ensures Has(PlaceAll(d, calls, parts, used).views, o) <==> Belongs(d, calls, parts, |parts|, o)
  {
    var a, v, b := Before(calls, parts, used), Views(d, calls, parts, used), After(calls, parts, used);
    var full := Full(calls, parts, used, |parts|);
    ThreePieces(d, calls, parts, used);
    HasConcat(a, v, o);
    HasConcat(a + v, b, o);
    HasConcat(a, b, o);
    ViewsRanks(d, calls, parts, used);
    if !o.Files? {
      FullComplete(d, calls, parts, used, |parts|, o);
    } else {
      NoFilesYet(calls, parts, used);
      if o.i < |parts| {
        FullRanks(d, calls, parts, used, |parts|);
        FullComplete(d, calls, parts, used, |parts|, Original(o.i));
        FilesComplete(d, calls, parts, full, PlaceUpTo(calls, parts, used, |parts|).used, |full|, o.i);
        assert full[..|full|] == full;
      }
    }
  }

  // ------------------------------------------------------------- what it comes to

  /** The parts that are the turn's own. */
  function Own(placed: seq<Placed>): seq<Part> {
    if placed == [] then []
    else Own(placed[..|placed| - 1]) + (if placed[|placed| - 1].origin.Original? then [placed[|placed| - 1].part] else [])
  }

  lemma {:induction false} OwnConcat(a: seq<Placed>, b: seq<Placed>)
    ensures Own(a + b) == Own(a) + Own(b)
  {
    if b == [] {
      assert a + b == a;
    } else {
      assert (a + b)[..|a + b| - 1] == a + b[..|b| - 1];
      OwnConcat(a, b[..|b| - 1]);
    }
  }

  lemma {:induction false} OwnOfViews(placed: seq<Placed>)
    requires NoneOwn(placed)
    ensures Own(placed) == []
  {
    if placed != [] { OwnOfViews(placed[..|placed| - 1]); }
  }

  lemma OwnPart(p: Placed)
    requires p.origin.Original?
    ensures Own([p]) == [p.part]
  {
    assert [p][..0] == [];
  }

  lemma {:induction false} OwnUpTo(calls: seq<ToolCall>, parts: seq<Part>, used: set<string>, n: nat)
    requires n <= |parts|
    ensures Own(Full(calls, parts, used, n)) == parts[..n]
  {
    if n == 0 {
      assert Full(calls, parts, used, 0) == [];
    } else {
      OwnUpTo(calls, parts, used, n - 1);
      OwnNext(calls, parts, used, n - 1);
      assert parts[..n] == parts[..n - 1] + [parts[n - 1]];
    }
  }

  predicate NoneOwn(placed: seq<Placed>) {
    forall q :: 0 <= q < |placed| ==> !placed[q].origin.Original?
  }

  lemma {:induction false} WaitingNotOwn(calls: seq<ToolCall>, parts: seq<Part>, used: set<string>, n: nat)
    requires n <= |parts|
    ensures NoneOwn(PlaceUpTo(calls, parts, used, n).pending)
  {
    if n > 0 {
      WaitingNotOwn(calls, parts, used, n - 1);
    }
  }

  lemma OwnNext(calls: seq<ToolCall>, parts: seq<Part>, used: set<string>, n: nat)
    requires n < |parts|
    ensures Own(Full(calls, parts, used, n + 1)) == Own(Full(calls, parts, used, n)) + [parts[n]]
  {
    var st, p := PlaceUpTo(calls, parts, used, n), Placed(parts[n], Original(n));
    var st' := PlaceUpTo(calls, parts, used, n + 1);
    var flushed := if EndsRun(calls, parts[n]) then st.placed + st.pending else st.placed;
    WaitingNotOwn(calls, parts, used, n);
    WaitingNotOwn(calls, parts, used, n + 1);
    OwnOfViews(st.pending);
    OwnOfViews(st'.pending);
    OwnConcat(st.placed, st.pending);
    OwnConcat(flushed, [p]);
    OwnConcat(st'.placed, st'.pending);
    OwnPart(p);
  }

  /** Leaving out the artifact and file views of a closed turn gives back the turn. */
  lemma Conservative(d: Readers, calls: seq<ToolCall>, parts: seq<Part>, used: set<string>)
    ensures Own(PlaceAll(d, calls, parts, used).views) == parts
  {
    ThreePieces(d, calls, parts, used);
    OwnUpTo(calls, parts, used, |parts|);
    assert parts[..|parts|] == parts;
    ViewsRanks(d, calls, parts, used);
    OwnAround(Before(calls, parts, used), Views(d, calls, parts, used), After(calls, parts, used));
  }

  lemma OwnAround(a: seq<Placed>, v: seq<Placed>, b: seq<Placed>)
    requires NoneOwn(v)
    ensures Own(a + v + b) == Own(a + b)
  {
    OwnOfViews(v);
    OwnConcat(a + v, b);
    OwnConcat(a, v);
    OwnConcat(a, b);
  }

  /** An artifact view sits after its own call and before the next text or summary: at any
      two places `q` and `r` of a closed turn holding the view of part `i` and part `j`,
      the view is after the part when `j <= i`, and before it when the part ends the run. */
  lemma ArtifactSits(d: Readers, calls: seq<ToolCall>, parts: seq<Part>, used: set<string>, q: nat, r: nat)
    ensures var views := PlaceAll(d, calls, parts, used).views;
      q < |views| && r < |views| && views[q].origin.Artifact? && views[r].origin.Original? ==>
        var i, j := views[q].origin.i, views[r].origin.i;
        && (j <= i ==> r < q)
        && (j > i && TextOrSummary(calls, views[r].part) ==> q < r)
  {
    var views := PlaceAll(d, calls, parts, used).views;
    ClosedTurnRanked(d, calls, parts, used);
    if q < |views| && r < |views| && views[q].origin.Artifact? && views[r].origin.Original? {
      var i, j := views[q].origin.i, views[r].origin.i;
      assert Genuine(d, calls, parts, views[q]) && Genuine(d, calls, parts, views[r]);
      if j <= i {
        RunsMonotone(calls, parts, j + 1, i + 1);
      } else if TextOrSummary(calls, views[r].part) {
        RunsMonotone(calls, parts, i + 1, j);
      }
    }
  }

  /** From `a` to `b` there are file views only, and from `b` on summaries only; neither a
      file view nor a summary stands right before `a`. */
  predicate ClosesTurn(calls: seq<ToolCall>, views: seq<Placed>, a: nat, b: nat) {
    && a <= b <= |views|
    && (forall q :: 0 <= q < |views| ==> (views[q].origin.Files? <==> a <= q < b))
    && (forall q :: b <= q < |views| ==> Summary(calls, views[q].part))
    && (a > 0 ==> !Summary(calls, views[a - 1].part))
  }

  lemma {:induction false} TrailingSummaries(calls: seq<ToolCall>, placed: seq<Placed>, end: nat)
    requires end <= |placed|
    ensures var e := TrailingStart(calls, placed, end);
      (forall q :: e <= q < end ==> IsSummary(calls, placed[q].part)) && (e > 0 ==> !IsSummary(calls, placed[e - 1].part))
  {
    if end > 0 && IsSummary(calls, placed[end - 1].part) { TrailingSummaries(calls, placed, end - 1); }
  }

  lemma PiecesClose(calls: seq<ToolCall>, a: seq<Placed>, v: seq<Placed>, b: seq<Placed>)
    requires NoFiles(a) && NoFiles(b) && forall q :: 0 <= q < |v| ==> v[q].origin.Files?
    requires forall q :: 0 <= q < |b| ==> Summary(calls, b[q].part)
    requires a != [] ==> !Summary(calls, a[|a| - 1].part)
    ensures ClosesTurn(calls, a + v + b, |a|, |a| + |v|)
  {
  }

  /** The file views sit immediately before the maximal trailing run of summaries. */
  lemma FilesSit(d: Readers, calls: seq<ToolCall>, parts: seq<Part>, used: set<string>)
    ensures var a := |Before(calls, parts, used)|;
      ClosesTurn(calls, PlaceAll(d, calls, parts, used).views, a, a + |Views(d, calls, parts, used)|)
  {
    ThreePieces(d, calls, parts, used);
    ViewsRanks(d, calls, parts, used);
    PieceSummaries(calls, parts, used);
    PiecesClose(calls, Before(calls, parts, used), Views(d, calls, parts, used), After(calls, parts, used));
  }

  lemma PieceSummaries(calls: seq<ToolCall>, parts: seq<Part>, used: set<string>)
    ensures var a, b := Before(calls, parts, used), After(calls, parts, used);
      && NoFiles(a) && NoFiles(b)
      && (forall q :: 0 <= q < |b| ==> Summary(calls, b[q].part))
      && (a != [] ==> !Summary(calls, a[|a| - 1].part))
  {
    var full := Full(calls, parts, used, |parts|);
    TrailingSummaries(calls, full, |full|);
    NoFilesYet(calls, parts, used);
  }

  /** What a turn is closed into: a list of its own parts and of the views due, each of them
      once, in increasing rank. */
  ghost predicate Closed(d: Readers, calls: seq<ToolCall>, parts: seq<Part>, shown: seq<Part>, placed: seq<Placed>) {
    && AllGenuine(d, calls, parts, placed) && Increasing(d, calls, parts, placed)
    && (forall o :: Has(placed, o) <==> Belongs(d, calls, parts, |parts|, o))
    && |shown| == |placed| && forall i :: 0 <= i < |placed| ==> shown[i] == placed[i].part
  }

  /** Closing a turn puts one message under its id behind the others: the turn with its views;
      an empty turn leaves none. */
  lemma TurnCloses(d: Readers, s: State)
    requires s.turn.Some?
    ensures var s', turn := CloseTurn(d, s), s.turn.value;
      && s'.turn.None? && s'.calls == s.calls
      && (turn.parts == [] ==> s'.result == s.result)
      && (turn.parts != [] ==>
           && |s'.result| == |s.result| + 1 && s'.result[..|s.result|] == s.result
           && s'.result[|s.result|].role == Assistant && s'.result[|s.result|].id == turn.id
           && exists placed :: Closed(d, s.calls, turn.parts, s'.result[|s.result|].parts, placed))
  {
    var turn := s.turn.value;
    var views := PlaceAll(d, s.calls, turn.parts, s.used).views;
    ClosedTurnRanked(d, s.calls, turn.parts, s.used);
    forall o ensures Has(views, o) <==> Belongs(d, s.calls, turn.parts, |turn.parts|, o) {
      ClosedTurnComplete(d, s.calls, turn.parts, s.used, o);
    }
    assert Closed(d, s.calls, turn.parts, PartsOf(views), views);
    if turn.parts != [] { assert Has(views, Original(0)); }
  }
}
