/** One retry sweeps everything; and the one way in which a file can be forgotten. */
module TrashRetry {
  import opened Options
  import opened TrashModel
  import opened TrashSafety
  import opened TrashSweep
  import TrashService

  // ------------------------------------------------------- one whole retry

  /** The file's sweep list is still to come, or is being worked off. */
  ghost predicate Pursued(s: State, f: FilePath) {
    Orphan(s.w, s.log, f) && s.log.owner[f] in s.log.purgedBy ==>
      var found := PurgeOf(s.w.manifest.purges, s.log.purgedBy[s.log.owner[f]]);
      (found.Some? && found.value in InHand(s.op)) || (s.op.Removing? && s.op.id == s.log.purgedBy[s.log.owner[f]])
  }

  ghost predicate Retried(s: State) {
    Inv(s) && Sweepable(s)
    && (s.op.Retrying? || (s.op.Removing? && s.op.next.Some?) || s.op.Idle?)
    && forall f :: Pursued(s, f)
  }

  /** What a retry does when the remover never fails. */
  predicate Sweeping(step: Step) { step.RetryNext? || step.RemoveFile? || step.ClearEntry? || step.EndRetry? }

  lemma RetryBegins(s: State)
    requires Inv(s) && Sweepable(s) && s.op.Idle?
    ensures Retried(Next(s, BeginRetry))
  {
    var s' := Next(s, BeginRetry);
    QuietKeeps(s, BeginRetry);
    QuietSweeps(s, BeginRetry);
    forall f ensures Pursued(s', f) {
      assert OrphanFits(s.w, s.log, f);
    }
  }

  lemma RetryNextPursues(s: State)
    requires Retried(s) && Enabled(s, RetryNext)
    ensures Retried(Next(s, RetryNext))
  {
    var s' := Next(s, RetryNext);
    var first := s.op.rest[0];
    RetryNextKeeps(s);
    QuietSweeps(s, RetryNext);
    forall f ensures Pursued(s', f) {
      assert Pursued(s, f) && OrphanFits(s.w, s.log, f);
      if Orphan(s.w, s.log, f) {
        var e := PurgeOf(s.w.manifest.purges, s.log.purgedBy[s.log.owner[f]]).value;
        assert EntryStands(s, e);
        RipeIsTaken(s.w, s.log, e);
        assert s.op.rest == [first] + s.op.rest[1..];
      }
    }
  }

  lemma RemovePursues(s: State, path: FilePath)
    requires Retried(s) && Enabled(s, RemoveFile(path))
    ensures Retried(Next(s, RemoveFile(path)))
  {
    var s' := Next(s, RemoveFile(path));
    RemoveFileKeeps(s, path);
    RemoveFileSweeps(s, path);
    forall f ensures Pursued(s', f) {
      assert Pursued(s, f);
    }
  }

  lemma ClearPursues(s: State)
    requires Retried(s) && Enabled(s, ClearEntry)
    ensures Retried(Next(s, ClearEntry))
  {
    var s' := Next(s, ClearEntry);
    ClearKeeps(s);
    ClearSweeps(s);
    forall f ensures Pursued(s', f) {
      assert Pursued(s, f) && OrphanFits(s.w, s.log, f) && OrphanFits(s'.w, s'.log, f);
      if Orphan(s'.w, s'.log, f) {
        PurgeOfShrinks(s.w.manifest.purges, s.op.id, s.log.purgedBy[s.log.owner[f]]);
      }
    }
  }

  lemma EndPursues(s: State)
    requires Retried(s) && Enabled(s, EndRetry)
    ensures Retried(Next(s, EndRetry))
  {
    var s' := Next(s, EndRetry);
    QuietKeeps(s, EndRetry);
    QuietSweeps(s, EndRetry);
    forall f ensures Pursued(s', f) {
      assert Pursued(s, f);
    }
  }

  lemma {:induction false} SweepingPursues(s: State, steps: seq<Step>)
    requires Retried(s) && forall i :: 0 <= i < |steps| ==> Sweeping(steps[i])
    ensures Retried(Run(s, steps))
    decreases |steps|
  {
    if |steps| > 0 {
      var step := steps[0];
      assert Sweeping(step);
      if Enabled(s, step) {
        if step.RetryNext? {
          RetryNextPursues(s);
        } else if step.RemoveFile? {
          RemovePursues(s, step.path);
        } else if step.ClearEntry? {
          ClearPursues(s);
        } else {
          EndPursues(s);
        }
      }
      SweepingPursues(Do(s, step), steps[1..]);
    }
  }

  ghost predicate Swept(s: State) { forall f :: !Orphan(s.w, s.log, f) }

  lemma RetrySweepsFrom(s: State, steps: seq<Step>)
    requires Inv(s) && Sweepable(s) && s.op.Idle?
    requires forall i :: 0 <= i < |steps| ==> Sweeping(steps[i])
    requires Run(Next(s, BeginRetry), steps).op.Idle?
    ensures Swept(Run(Next(s, BeginRetry), steps))
  {
    RetryBegins(s);
    SweepingPursues(Next(s, BeginRetry), steps);
    var s' := Run(Next(s, BeginRetry), steps);
    forall f ensures !Orphan(s'.w, s'.log, f) {
      assert Pursued(s', f) && OrphanFits(s'.w, s'.log, f);
    }
  }

  lemma CarefulRunsFit(s: State, before: seq<Step>)
    requires CarefulRun(INITIAL, before) && s == Run(INITIAL, before)
    ensures Inv(s) && Sweepable(s)
  {
    InitFits();
    InitSweeps();
    RunSweeps(INITIAL, before);
  }

  /** A retry that runs to its end without a failing removal leaves no file behind that has lost its row. */
  lemma OneRetrySweepsAll(s: State, before: seq<Step>, steps: seq<Step>)
    requires CarefulRun(INITIAL, before) && s == Run(INITIAL, before) && s.op.Idle?
    requires forall i :: 0 <= i < |steps| ==> Sweeping(steps[i])
    requires Run(Next(s, BeginRetry), steps).op.Idle?
    ensures Swept(Run(Next(s, BeginRetry), steps))
  {
    CarefulRunsFit(s, before);
    RetrySweepsFrom(s, steps);
  }

  /** So does the service's own retry, whenever it is called between two operations. */
  lemma ServiceRetrySweepsAll(s: State, before: seq<Step>, f: FilePath)
    requires CarefulRun(INITIAL, before) && s == Run(INITIAL, before)
    ensures !Orphan(TrashService.RetryAll(s.w, s.w.manifest.purges), s.log, f)
  {
    CarefulRunsFit(s, before);
    SweepableMeansNamed(s);
    TrashService.RetryKeepsRows(s.w, s.w.manifest.purges);
    TrashService.RetryTakes(s.w, s.w.manifest.purges, f, Pending(Issued(""), {}));
    if Orphan(s.w, s.log, f) {
      assert Named(s.w, f);
      var e :| e in s.w.manifest.purges && f in e.targets && !StillAlive(s.w, e);
    }
  }

  /** In the middle of a retry there is always a next call: it can be carried to its end. */
  lemma RetryCanGoOn(s: State)
    requires s.op.Retrying? || s.op.Removing?
    ensures exists step :: Sweeping(step) && Enabled(s, step)
  {
    if s.op.Retrying? {
      var step := if |s.op.rest| > 0 then RetryNext else EndRetry;
      assert Sweeping(step) && Enabled(s, step);
    } else if s.op.left == {} {
      assert Sweeping(ClearEntry) && Enabled(s, ClearEntry);
    } else {
      var path :| path in s.op.left;
      assert Sweeping(RemoveFile(path)) && Enabled(s, RemoveFile(path));
    }
  }

  // ------------------------------------------------------- a second purge of the same batch

  ghost predicate NamedElsewhere(w: World, id: BatchId, f: FilePath) {
    exists e :: e in w.manifest.purges && e.id != id && f in e.targets && !StillAlive(w, e)
  }

  lemma RecordingChangesNoGuard(w: World, id: BatchId, targets: set<FilePath>, e: Pending)
    ensures StillAlive(RecordPurge(w, id, targets), e) == StillAlive(w, e)
  {
    assert FindBatch(RecordPurge(w, id, targets), e.id) == FindBatch(w, e.id);
  }

  lemma NamesThatStay(w: World, id: BatchId, f: FilePath)
    requires FindBatch(w, id).Some? && !HasRow(w, id)
    ensures Named(RecordPurge(w, id, Targets(w.pages, FindBatch(w, id).value.pages)), f) <==> NamedElsewhere(w, id, f)
  {
    var targets := Targets(w.pages, FindBatch(w, id).value.pages);
    var w' := RecordPurge(w, id, targets);
    if Named(w', f) {
      var e :| e in w'.manifest.purges && f in e.targets && !StillAlive(w', e);
      WithoutPurgeIs(w.manifest.purges, id, e);
      RecordingChangesNoGuard(w, id, targets, e);
    }
    if NamedElsewhere(w, id, f) {
      var e :| e in w.manifest.purges && e.id != id && f in e.targets && !StillAlive(w, e);
      WithoutPurgeIs(w.manifest.purges, id, e);
      RecordingChangesNoGuard(w, id, targets, e);
      assert e in w'.manifest.purges;
    }
  }

  /**
   Starting a purge forgets nothing exactly when its batch still has a row, or whatever waits under the batch's id is
   named by the list of another batch too.
   */
  lemma PurgeForgetsNothingExactlyWhen(s: State, id: BatchId)
    requires Inv(s) && Sweepable(s) && Enabled(s, BeginPurge(id))
    ensures OrphansNamed(Next(s, BeginPurge(id))) <==>
            HasRow(s.w, id) || forall f :: Orphan(s.w, s.log, f) ==> NamedElsewhere(s.w, id, f)
  {
    var s' := Next(s, BeginPurge(id));
    if HasRow(s.w, id) {
      BeginPurgeKeeps(s, id);
      PurgeSweeps(s, id);
      SweepableMeansNamed(s');
    } else {
      forall f ensures Named(s'.w, f) <==> NamedElsewhere(s.w, id, f) {
        NamesThatStay(s.w, id, f);
      }
      forall f ensures Orphan(s'.w, s'.log, f) <==> Orphan(s.w, s.log, f) {
      }
    }
  }

  // ------------------------------------------------------- the run that forgets

  /** One page is imported, deleted and purged; the process dies with the rows gone and the batch still listed. */
  function UntilCrash(p: PageId, c: Chapter, f: FilePath, id: BatchId, stamp: Stamp): seq<Step> {
    [Import(p, c, f), BeginDelete(id, c, {p}, stamp), EndDelete, BeginPurge(id), PurgeTheRows, Crash]
  }

  /** The same batch once more: its sweep list is empty now, so it is cleared at once. */
  function PurgeAgain(id: BatchId): seq<Step> { [BeginPurge(id), PurgeTheRows, DropPurged, ClearEntry] }

  lemma RunStarts(s: State, steps: seq<Step>, mid: State)
    requires |steps| > 0 && Do(s, steps[0]) == mid
    ensures Run(s, steps) == Run(mid, steps[1..])
  {
  }

  function Row(c: Chapter, f: FilePath, deletedAt: Option<Stamp>): Page { Page(c, deletedAt, f, {}) }

  function Imported(p: PageId, c: Chapter, f: FilePath): State {
    State(World(map[p := Row(c, f, None)], {f}, Manifest([], [], [])), Idle, Log(map[f := p], {p}, {}, {}, map[]))
  }

  function Known(p: PageId, f: FilePath, id: BatchId, stamp: Stamp, purgedBy: map<PageId, BatchId>): Log {
    Log(map[f := p], {p}, {id}, {stamp}, purgedBy)
  }

  function Trashed(p: PageId, c: Chapter, f: FilePath, id: BatchId, stamp: Stamp, m: Manifest, op: Op): State {
    State(World(map[p := Row(c, f, Some(stamp))], {f}, m), op, Known(p, f, id, stamp, map[]))
  }

  function Rowless(p: PageId, f: FilePath, id: BatchId, stamp: Stamp, m: Manifest, op: Op): State {
    State(World(map[], {f}, m), op, Known(p, f, id, stamp, map[p := id]))
  }

  lemma Deletes(p: PageId, c: Chapter, f: FilePath, id: BatchId, stamp: Stamp)
    requires id.Issued?
    ensures Do(INITIAL, Import(p, c, f)) == Imported(p, c, f)
    ensures Do(Imported(p, c, f), BeginDelete(id, c, {p}, stamp)) ==
            Trashed(p, c, f, id, stamp, Manifest([], [], []), RowsMarked(id, c, {p}, stamp))
  {
    assert Deleted(map[p := Row(c, f, None)], {p}, stamp) == map[p := Row(c, f, Some(stamp))];
    assert Listed(Imported(p, c, f).w) == {};
  }

  lemma Lists(p: PageId, c: Chapter, f: FilePath, id: BatchId, stamp: Stamp, batch: Batch)
    requires batch == Batch(id, c, stamp, {p})
    ensures Do(Trashed(p, c, f, id, stamp, Manifest([], [], []), RowsMarked(id, c, {p}, stamp)), EndDelete) ==
            Trashed(p, c, f, id, stamp, Manifest([batch], [], []), Idle)
  {
    var w := Trashed(p, c, f, id, stamp, Manifest([], [], []), Idle).w;
    assert p in Caught(w, {p}, stamp);
    assert Caught(w, {p}, stamp) == {p};
    assert [] + [batch] == [batch];
  }

  lemma Purges(p: PageId, c: Chapter, f: FilePath, id: BatchId, stamp: Stamp, batch: Batch, m: Manifest)
    requires batch == Batch(id, c, stamp, {p}) && m == Manifest([batch], [Pending(id, {f})], [])
    ensures Do(Trashed(p, c, f, id, stamp, Manifest([batch], [], []), Idle), BeginPurge(id)) ==
            Trashed(p, c, f, id, stamp, m, PurgeRecorded(id, {p}, {f}))
    ensures Do(Trashed(p, c, f, id, stamp, m, PurgeRecorded(id, {p}, {f})), PurgeTheRows) ==
            Rowless(p, f, id, stamp, m, RowsPurged(id, {f}))
    ensures Do(Rowless(p, f, id, stamp, m, RowsPurged(id, {f})), Crash) == Rowless(p, f, id, stamp, m, Idle)
  {
    var w := Trashed(p, c, f, id, stamp, Manifest([batch], [], []), Idle).w;
    assert InLedger([batch], id) == Some(batch);
    assert f in FilesOf(w.pages[p]) && FilesOf(w.pages[p]) == {f};
    assert Targets(w.pages, {p}) == {f};
    assert WithoutPurge([], id) + [Pending(id, {f})] == [Pending(id, {f})];
    assert Purged(w.pages, {p}) == map[];
  }

  lemma PurgesAgain(p: PageId, f: FilePath, id: BatchId, stamp: Stamp, batch: Batch, m: Manifest, m': Manifest)
    requires batch.id == id && batch.pages == {p}
    requires m == Manifest([batch], [Pending(id, {f})], []) && m' == Manifest([batch], [Pending(id, {})], [])
    ensures Do(Rowless(p, f, id, stamp, m, Idle), BeginPurge(id)) ==
            Rowless(p, f, id, stamp, m', PurgeRecorded(id, {p}, {}))
    ensures Do(Rowless(p, f, id, stamp, m', PurgeRecorded(id, {p}, {})), PurgeTheRows) ==
            Rowless(p, f, id, stamp, m', RowsPurged(id, {}))
  {
    assert InLedger([batch], id) == Some(batch);
    assert Targets(map[], {p}) == {};
    assert WithoutPurge(m.purges[1..], id) == [];
    assert WithoutPurge(m.purges, id) + [Pending(id, {})] == [Pending(id, {})];
    assert Purged(map[], {p}) == map[];
  }

  lemma Clears(p: PageId, f: FilePath, id: BatchId, stamp: Stamp, batch: Batch, m: Manifest, m': Manifest)
    requires batch.id == id && m == Manifest([batch], [Pending(id, {})], [])
    requires m' == Manifest([], [Pending(id, {})], [])
    ensures Do(Rowless(p, f, id, stamp, m, RowsPurged(id, {})), DropPurged) ==
            Rowless(p, f, id, stamp, m', Removing(id, {}, None))
    ensures Do(Rowless(p, f, id, stamp, m', Removing(id, {}, None)), ClearEntry) ==
            Rowless(p, f, id, stamp, Manifest([], [], []), Idle)
  {
    assert WithoutBatch(m.batches[1..], id) == [] && WithoutBatch(m.batches, id) == [];
    assert WithoutPurge(m'.purges[1..], id) == [] && WithoutPurge(m'.purges, id) == [];
  }

  lemma ReachesCrash(p: PageId, c: Chapter, f: FilePath, id: BatchId, stamp: Stamp, batch: Batch, m: Manifest)
    requires id.Issued?
    requires batch == Batch(id, c, stamp, {p}) && m == Manifest([batch], [Pending(id, {f})], [])
    ensures Run(INITIAL, UntilCrash(p, c, f, id, stamp)) == Rowless(p, f, id, stamp, m, Idle)
  {
    var steps := UntilCrash(p, c, f, id, stamp);
    Deletes(p, c, f, id, stamp);
    Lists(p, c, f, id, stamp, batch);
    Purges(p, c, f, id, stamp, batch, m);
    var s1 := Imported(p, c, f);
    var s2 := Trashed(p, c, f, id, stamp, Manifest([], [], []), RowsMarked(id, c, {p}, stamp));
    var s3 := Trashed(p, c, f, id, stamp, Manifest([batch], [], []), Idle);
    var s4 := Trashed(p, c, f, id, stamp, m, PurgeRecorded(id, {p}, {f}));
    var s5 := Rowless(p, f, id, stamp, m, RowsPurged(id, {f}));
    var s6 := Rowless(p, f, id, stamp, m, Idle);
    RunStarts(INITIAL, steps, s1);
    RunStarts(s1, steps[1..], s2);
    RunStarts(s2, steps[2..], s3);
    RunStarts(s3, steps[3..], s4);
    RunStarts(s4, steps[4..], s5);
    RunStarts(s5, steps[5..], s6);
  }

  /** After the second purge the file is still there, has no row, and no sweep list names it. */
  lemma SecondPurgeForgets(s: State, p: PageId, c: Chapter, f: FilePath, id: BatchId, stamp: Stamp)
    requires id.Issued? && s == Run(INITIAL, UntilCrash(p, c, f, id, stamp))
    ensures Orphan(s.w, s.log, f) && Named(s.w, f)
    ensures var s' := Run(s, PurgeAgain(id)); Orphan(s'.w, s'.log, f) && s'.w.manifest.purges == []
  {
    var batch := Batch(id, c, stamp, {p});
    var m := Manifest([batch], [Pending(id, {f})], []);
    var m2 := Manifest([batch], [Pending(id, {})], []);
    var m3 := Manifest([], [Pending(id, {})], []);
    ReachesCrash(p, c, f, id, stamp, batch, m);
    assert InLedger([batch], id) == Some(batch);
    assert Pending(id, {f}) in m.purges;
    PurgesAgain(p, f, id, stamp, batch, m, m2);
    Clears(p, f, id, stamp, batch, m2, m3);
    var steps := PurgeAgain(id);
    var s1 := Rowless(p, f, id, stamp, m2, PurgeRecorded(id, {p}, {}));
    var s2 := Rowless(p, f, id, stamp, m2, RowsPurged(id, {}));
    var s3 := Rowless(p, f, id, stamp, m3, Removing(id, {}, None));
    RunStarts(s, steps, s1);
    RunStarts(s1, steps[1..], s2);
    RunStarts(s2, steps[2..], s3);
    RunStarts(s3, steps[3..], Rowless(p, f, id, stamp, Manifest([], [], []), Idle));
  }
}
