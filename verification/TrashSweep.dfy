/**
 From the moment a purge takes the rows, every file they leave behind is named by a sweep list that the retry takes.
 */
module TrashSweep {
  import opened Options
  import opened TrashModel
  import opened TrashSafety

  /** A file whose row is gone. */
  ghost predicate Orphan(w: World, log: Log, f: FilePath) { f in w.files && Gone(w, log, f) }

  /** Some sweep list names the file, and the guard of the retry lets that list through. */
  ghost predicate Named(w: World, f: FilePath) {
    exists e :: e in w.manifest.purges && f in e.targets && !StillAlive(w, e)
  }

  ghost predicate OrphansNamed(s: State) {
    forall f :: Orphan(s.w, s.log, f) ==> Named(s.w, f)
  }

  // ------------------------------------------------------- the invariant behind it

  function PurgeOf(purges: seq<Pending>, id: BatchId): Option<Pending> {
    if |purges| == 0 then None
    else if purges[0].id == id then Some(purges[0])
    else PurgeOf(purges[1..], id)
  }

  /** Nothing of the entry is left among the rows, and nothing of it can come back. */
  ghost predicate Ripe(w: World, log: Log, e: Pending) {
    (forall t :: t in e.targets ==> Gone(w, log, t))
    && (forall p :: p in w.pages && InLedger(w.manifest.batches, e.id).Some? ==>
                      p !in InLedger(w.manifest.batches, e.id).value.pages)
    && (forall p :: p in w.pages && e.id.Rebuilt? ==>
                      !(w.pages[p].chapter == e.id.chapter && w.pages[p].deletedAt == Some(e.id.stamp)))
  }

  ghost predicate FileFits(w: World, log: Log, f: FilePath) {
    f in log.owner && log.owner[f] in w.pages ==> f in FilesOf(w.pages[log.owner[f]])
  }

  ghost predicate StampFits(w: World, log: Log, p: PageId) {
    p in w.pages && w.pages[p].deletedAt.Some? ==> w.pages[p].deletedAt.value in log.stamps
  }

  ghost predicate EntryKnown(w: World, log: Log, e: Pending) {
    e in w.manifest.purges ==>
      PurgeOf(w.manifest.purges, e.id) == Some(e) && (e.id.Rebuilt? ==> e.id.stamp in log.stamps)
  }

  ghost predicate OrphanFits(w: World, log: Log, f: FilePath) {
    Orphan(w, log, f) ==>
      log.owner[f] in log.purgedBy
      && var found := PurgeOf(w.manifest.purges, log.purgedBy[log.owner[f]]);
      found.Some? && found.value in w.manifest.purges && found.value.id == log.purgedBy[log.owner[f]]
      && f in found.value.targets && Ripe(w, log, found.value)
  }

  ghost predicate OpSweeps(w: World, log: Log, op: Op) {
    match op
    case PurgeRecorded(id, ids, targets) =>
      PurgeOf(w.manifest.purges, id) == Some(Pending(id, targets))
      && Pending(id, targets) in w.manifest.purges
      && targets == Targets(w.pages, ids) && ids <= log.ids
      && (InLedger(w.manifest.batches, id).Some? ==> InLedger(w.manifest.batches, id).value.pages == ids)
      && (id.Rebuilt? ==> Group(w.pages, id.chapter, id.stamp) <= ids)
    case RowsPurged(id, targets) =>
      PurgeOf(w.manifest.purges, id).Some? ==> PurgeOf(w.manifest.purges, id).value.targets <= targets
    case Removing(id, left, _) =>
      PurgeOf(w.manifest.purges, id).Some? ==>
        forall t :: t in PurgeOf(w.manifest.purges, id).value.targets && t in w.files ==> t in left
    case _ => true
  }

  /** What the retry has in hand is what the manifest says, where the manifest still says it. */
  ghost predicate HandFits(w: World, op: Op, e: Pending) {
    e in InHand(op) ==>
      PurgeOf(w.manifest.purges, e.id) == None || PurgeOf(w.manifest.purges, e.id) == Some(e)
  }

  ghost predicate Sweepable(s: State) {
    (forall f :: FileFits(s.w, s.log, f))
    && (forall p :: StampFits(s.w, s.log, p))
    && (forall b :: b in s.w.manifest.batches ==> b.pages <= s.log.ids)
    && (forall e :: EntryKnown(s.w, s.log, e))
    && (forall f :: OrphanFits(s.w, s.log, f))
    && (forall e :: HandFits(s.w, s.op, e))
    && OpSweeps(s.w, s.log, s.op)
  }

  /** The batch that a purge is about to take still has a row. */
  ghost predicate HasRow(w: World, id: BatchId) {
    FindBatch(w, id).Some? && exists p :: p in FindBatch(w, id).value.pages && p in w.pages
  }

  /** No file waits for the sweep list of this batch. */
  ghost predicate NoneWaits(s: State, id: BatchId) {
    forall f :: Orphan(s.w, s.log, f) && s.log.owner[f] in s.log.purgedBy ==> s.log.purgedBy[s.log.owner[f]] != id
  }

  /**
   The ledger is not lost, stamps are never used twice, a purge is only started on a batch that has a row or that no
   file waits for, and no asset is registered on a page whose purge has already recorded its list.
   */
  ghost predicate Careful(s: State, step: Step) {
    match step
    case BeginDelete(_, _, _, stamp) => stamp !in s.log.stamps
    case BeginPurge(id) => HasRow(s.w, id) || NoneWaits(s, id)
    case AddAsset(p, _) => s.op.PurgeRecorded? ==> p !in s.op.ids
    case LoseLedger => false
    case _ => true
  }

  ghost predicate CarefulRun(s: State, steps: seq<Step>)
    decreases |steps|
  {
    |steps| == 0 || ((Enabled(s, steps[0]) ==> Careful(s, steps[0])) && CarefulRun(Do(s, steps[0]), steps[1..]))
  }

  // ------------------------------------------------------- sweep lists, seen from one id

  lemma {:induction false} PurgeOfShrinks(purges: seq<Pending>, gone: BatchId, id: BatchId)
    ensures PurgeOf(WithoutPurge(purges, gone), id) == if id == gone then None else PurgeOf(purges, id)
  {
    if |purges| > 0 {
      PurgeOfShrinks(purges[1..], gone, id);
      assert ([purges[0]] + WithoutPurge(purges[1..], gone))[1..] == WithoutPurge(purges[1..], gone);
    }
  }

  lemma {:induction false} PurgeOfGrows(purges: seq<Pending>, e: Pending, id: BatchId)
    ensures PurgeOf(purges + [e], id) ==
            if PurgeOf(purges, id).Some? then PurgeOf(purges, id) else if e.id == id then Some(e) else None
  {
    if |purges| > 0 {
      assert (purges + [e])[1..] == purges[1..] + [e];
      PurgeOfGrows(purges[1..], e, id);
    }
  }

  lemma PurgeOfRecorded(purges: seq<Pending>, e: Pending, id: BatchId)
    ensures PurgeOf(WithoutPurge(purges, e.id) + [e], id) == if id == e.id then Some(e) else PurgeOf(purges, id)
  {
    PurgeOfShrinks(purges, e.id, id);
    PurgeOfGrows(WithoutPurge(purges, e.id), e, id);
  }

  // ------------------------------------------------------- what carries over

  /** No row comes back, and none comes newly under a stamp that was used before. */
  ghost predicate Later(s: State, s': State) {
    Milder(s, s')
    && s.log.stamps <= s'.log.stamps
    && (forall p :: p in s'.w.pages && s'.w.pages[p].deletedAt.Some?
                    && s'.w.pages[p].deletedAt.value in s.log.stamps ==>
                      p in s.w.pages && s'.w.pages[p].chapter == s.w.pages[p].chapter
                      && s'.w.pages[p].deletedAt == s.w.pages[p].deletedAt)
  }

  ghost predicate LedgerKept(s: State, s': State, id: BatchId) {
    InLedger(s'.w.manifest.batches, id) == InLedger(s.w.manifest.batches, id)
    || InLedger(s'.w.manifest.batches, id).None?
  }

  lemma RipeCarries(s: State, s': State, e: Pending)
    requires Ripe(s.w, s.log, e) && Later(s, s') && LedgerKept(s, s', e.id)
    requires OwnersKnown(s.log)
    requires e.id.Rebuilt? ==> e.id.stamp in s.log.stamps
    requires InLedger(s.w.manifest.batches, e.id).Some? ==>
               InLedger(s.w.manifest.batches, e.id).value.pages <= s.log.ids
    ensures Ripe(s'.w, s'.log, e)
  {
    forall t | t in e.targets ensures Gone(s'.w, s'.log, t) {
      assert Gone(s.w, s.log, t);
    }
  }

  lemma OrphanCarries(s: State, s': State, f: FilePath)
    requires OwnersKnown(s.log) && Sweepable(s) && Later(s, s')
    requires Orphan(s'.w, s'.log, f) ==>
               Orphan(s.w, s.log, f) && s.log.owner[f] in s.log.purgedBy && s.log.owner[f] in s'.log.purgedBy
               && s'.log.purgedBy[s.log.owner[f]] == s.log.purgedBy[s.log.owner[f]]
               && (var id := s.log.purgedBy[s.log.owner[f]];
                   LedgerKept(s, s', id) && PurgeOf(s'.w.manifest.purges, id) == PurgeOf(s.w.manifest.purges, id)
                   && forall e :: e in s.w.manifest.purges && e.id == id ==> e in s'.w.manifest.purges)
    ensures OrphanFits(s'.w, s'.log, f)
  {
    if Orphan(s'.w, s'.log, f) {
      assert OrphanFits(s.w, s.log, f);
      var id := s.log.purgedBy[s.log.owner[f]];
      var e := PurgeOf(s.w.manifest.purges, id).value;
      assert EntryKnown(s.w, s.log, e);
      InLedgerIs(s.w.manifest.batches, id);
      RipeCarries(s, s', e);
    }
  }

  /** The sweep lists stay as they are, and no file loses its row. */
  lemma OrphansCarry(s: State, s': State)
    requires OwnersKnown(s.log) && Sweepable(s) && Later(s, s')
    requires s'.w.manifest.purges == s.w.manifest.purges && s'.log.purgedBy == s.log.purgedBy
    requires forall e :: e in s.w.manifest.purges ==> LedgerKept(s, s', e.id)
    requires forall f :: Orphan(s'.w, s'.log, f) ==> Orphan(s.w, s.log, f)
    ensures forall f :: OrphanFits(s'.w, s'.log, f)
    ensures forall e :: EntryKnown(s'.w, s'.log, e)
  {
    forall f ensures OrphanFits(s'.w, s'.log, f) {
      assert OrphanFits(s.w, s.log, f);
      OrphanCarries(s, s', f);
    }
    forall e ensures EntryKnown(s'.w, s'.log, e) {
      assert EntryKnown(s.w, s.log, e);
    }
  }

  lemma {:induction false} PurgeOfIs(purges: seq<Pending>, id: BatchId)
    ensures PurgeOf(purges, id).Some? ==> PurgeOf(purges, id).value in purges
  {
    if |purges| > 0 {
      PurgeOfIs(purges[1..], id);
    }
  }

  /** A path that was never handed out is on no list. */
  lemma NewFileIsNoTarget(s: State, f: FilePath)
    requires Inv(s) && f !in s.log.owner
    ensures forall e :: e in s.w.manifest.purges ==> f !in e.targets
    ensures s.op.Removing? && PurgeOf(s.w.manifest.purges, s.op.id).Some? ==>
              f !in PurgeOf(s.w.manifest.purges, s.op.id).value.targets
  {
    forall e | e in s.w.manifest.purges ensures f !in e.targets {
      assert EntryStands(s, e);
    }
    if s.op.Removing? {
      PurgeOfIs(s.w.manifest.purges, s.op.id);
    }
  }

  /** The pages named have the rows they had. */
  lemma SameTargets(s: State, s': State, ids: set<PageId>)
    requires forall p :: p in ids ==> (p in s.w.pages <==> p in s'.w.pages)
    requires forall p :: p in ids && p in s.w.pages ==> s'.w.pages[p] == s.w.pages[p]
    ensures Targets(s'.w.pages, ids) == Targets(s.w.pages, ids)
  {
  }

  // ------------------------------------------------------- the steps

  lemma ImportSweeps(s: State, p: PageId, chapter: Chapter, original: FilePath)
    requires Inv(s) && Sweepable(s) && Enabled(s, Import(p, chapter, original))
    ensures Sweepable(Next(s, Import(p, chapter, original)))
  {
    var s' := Next(s, Import(p, chapter, original));
    forall f ensures FileFits(s'.w, s'.log, f) {
      assert FileFits(s.w, s.log, f);
    }
    forall q ensures StampFits(s'.w, s'.log, q) {
      assert StampFits(s.w, s.log, q);
    }
    forall f | Orphan(s'.w, s'.log, f) ensures Orphan(s.w, s.log, f) {
      assert FileFits(s.w, s.log, f);
    }
    NewFileIsNoTarget(s, original);
    if s.op.PurgeRecorded? {
      SameTargets(s, s', s.op.ids);
    }
    forall e ensures HandFits(s'.w, s'.op, e) {
      assert HandFits(s.w, s.op, e);
    }
    OrphansCarry(s, s');
  }

  lemma AddAssetSweeps(s: State, p: PageId, asset: FilePath)
    requires Inv(s) && Sweepable(s) && Enabled(s, AddAsset(p, asset)) && Careful(s, AddAsset(p, asset))
    ensures Sweepable(Next(s, AddAsset(p, asset)))
  {
    var s' := Next(s, AddAsset(p, asset));
    assert RowFits(s.w, s.log, p);
    NewFileIsNoTarget(s, asset);
    if s.op.PurgeRecorded? {
      SameTargets(s, s', s.op.ids);
    }
    forall e ensures HandFits(s'.w, s'.op, e) {
      assert HandFits(s.w, s.op, e);
    }
    forall f ensures FileFits(s'.w, s'.log, f) {
      assert FileFits(s.w, s.log, f);
    }
    forall q ensures StampFits(s'.w, s'.log, q) {
      assert StampFits(s.w, s.log, q);
    }
    OrphansCarry(s, s');
  }

  lemma DeleteSweeps(s: State, id: BatchId, chapter: Chapter, ids: set<PageId>, stamp: Stamp)
    requires Inv(s) && Sweepable(s) && Enabled(s, BeginDelete(id, chapter, ids, stamp)) && stamp !in s.log.stamps
    ensures Sweepable(Next(s, BeginDelete(id, chapter, ids, stamp)))
  {
    var s' := Next(s, BeginDelete(id, chapter, ids, stamp));
    forall f ensures FileFits(s'.w, s'.log, f) {
      assert FileFits(s.w, s.log, f);
    }
    forall q ensures StampFits(s'.w, s'.log, q) {
      assert StampFits(s.w, s.log, q);
    }
    OrphansCarry(s, s');
  }

  lemma EndDeleteSweeps(s: State)
    requires Inv(s) && Sweepable(s) && Enabled(s, EndDelete)
    ensures Sweepable(Next(s, EndDelete))
  {
    var s' := Next(s, EndDelete);
    var batch := Batch(s.op.id, s.op.chapter, s.op.stamp, Caught(s.w, s.op.ids, s.op.stamp));
    forall f ensures FileFits(s'.w, s'.log, f) {
      assert FileFits(s.w, s.log, f);
    }
    forall q ensures StampFits(s'.w, s'.log, q) {
      assert StampFits(s.w, s.log, q);
    }
    forall p | p in batch.pages ensures p in s.log.ids {
      assert RowFits(s.w, s.log, p);
    }
    forall e | e in s.w.manifest.purges ensures LedgerKept(s, s', e.id) {
      InLedgerGrows(s.w.manifest.batches, batch, e.id);
    }
    OrphansCarry(s, s');
  }

  lemma RestoreSweeps(s: State, id: BatchId)
    requires Inv(s) && Sweepable(s) && Enabled(s, BeginRestore(id))
    ensures Sweepable(Next(s, BeginRestore(id)))
  {
    var s' := Next(s, BeginRestore(id));
    forall f ensures FileFits(s'.w, s'.log, f) {
      assert FileFits(s.w, s.log, f);
    }
    forall q ensures StampFits(s'.w, s'.log, q) {
      assert StampFits(s.w, s.log, q);
    }
    OrphansCarry(s, s');
  }

  lemma DropSweeps(s: State, step: Step)
    requires Inv(s) && Sweepable(s) && Enabled(s, step) && (step.EndRestore? || step.DropPurged?)
    ensures Sweepable(Next(s, step))
  {
    var s' := Next(s, step);
    forall f ensures FileFits(s'.w, s'.log, f) {
      assert FileFits(s.w, s.log, f);
    }
    forall q ensures StampFits(s'.w, s'.log, q) {
      assert StampFits(s.w, s.log, q);
    }
    forall b | b in s'.w.manifest.batches ensures b in s.w.manifest.batches {
      WithoutBatchIs(s.w.manifest.batches, s.op.id, b);
    }
    forall e | e in s.w.manifest.purges ensures LedgerKept(s, s', e.id) {
      InLedgerShrinks(s.w.manifest.batches, s.op.id, e.id);
    }
    OrphansCarry(s, s');
  }

  /** Where the batch has a row, no orphan waits for the entry that the new sweep list replaces. */
  lemma RowMeansNoneWaits(s: State, id: BatchId, f: FilePath)
    requires Inv(s) && Sweepable(s) && HasRow(s.w, id) && Orphan(s.w, s.log, f)
    ensures s.log.owner[f] in s.log.purgedBy && s.log.purgedBy[s.log.owner[f]] != id
  {
    assert OrphanFits(s.w, s.log, f);
    var p :| p in FindBatch(s.w, id).value.pages && p in s.w.pages;
    var e := PurgeOf(s.w.manifest.purges, s.log.purgedBy[s.log.owner[f]]).value;
    assert Ripe(s.w, s.log, e) && e.id == s.log.purgedBy[s.log.owner[f]];
    InLedgerIs(s.w.manifest.batches, e.id);
  }

  lemma FoundInLedger(s: State, id: BatchId)
    requires Inv(s) && FindBatch(s.w, id).Some?
    ensures id.Rebuilt? ==> InLedger(s.w.manifest.batches, id).None?
    ensures id.Rebuilt? ==> FindBatch(s.w, id).value == RebuiltBatch(s.w.pages, (id.chapter, id.stamp))
  {
    InLedgerIs(s.w.manifest.batches, id);
  }

  /** A rebuilt batch is made of rows. */
  lemma RebuiltHasRow(s: State, id: BatchId)
    requires Inv(s) && FindBatch(s.w, id).Some? && id.Rebuilt?
    ensures HasRow(s.w, id)
  {
    FoundInLedger(s, id);
    var p :| p in s.w.pages && s.w.pages[p].deletedAt.Some?
             && (s.w.pages[p].chapter, s.w.pages[p].deletedAt.value) == (id.chapter, id.stamp);
    assert p in FindBatch(s.w, id).value.pages;
  }

  lemma FoundIsKnown(s: State, id: BatchId)
    requires Inv(s) && Sweepable(s) && FindBatch(s.w, id).Some?
    ensures FindBatch(s.w, id).value.pages <= s.log.ids
  {
    InLedgerIs(s.w.manifest.batches, id);
    forall p | p in s.w.pages ensures p in s.log.ids {
      assert RowFits(s.w, s.log, p);
    }
  }

  lemma PurgeSweeps(s: State, id: BatchId)
    requires Inv(s) && Sweepable(s) && Enabled(s, BeginPurge(id)) && Careful(s, BeginPurge(id))
    ensures Sweepable(Next(s, BeginPurge(id)))
  {
    var s' := Next(s, BeginPurge(id));
    var e := Pending(id, s'.op.targets);
    FoundInLedger(s, id);
    PurgeOfRecorded(s.w.manifest.purges, e, id);
    forall f ensures FileFits(s'.w, s'.log, f) {
      assert FileFits(s.w, s.log, f);
    }
    forall q ensures StampFits(s'.w, s'.log, q) {
      assert StampFits(s.w, s.log, q);
    }
    forall d ensures EntryKnown(s'.w, s'.log, d) {
      assert EntryKnown(s.w, s.log, d);
      WithoutPurgeIs(s.w.manifest.purges, id, d);
      PurgeOfRecorded(s.w.manifest.purges, e, d.id);
      if d == e && id.Rebuilt? {
        RebuiltHasRow(s, id);
        var p :| p in FindBatch(s.w, id).value.pages && p in s.w.pages;
        assert StampFits(s.w, s.log, p);
      }
    }
    FoundIsKnown(s, id);
    forall f ensures OrphanFits(s'.w, s'.log, f) {
      if Orphan(s.w, s.log, f) {
        if HasRow(s.w, id) {
          RowMeansNoneWaits(s, id, f);
        }
        assert OrphanFits(s.w, s.log, f);
        var former := s.log.purgedBy[s.log.owner[f]];
        PurgeOfRecorded(s.w.manifest.purges, e, former);
        forall d ensures d in s.w.manifest.purges && d.id == former ==> d in s'.w.manifest.purges {
          WithoutPurgeIs(s.w.manifest.purges, id, d);
        }
        OrphanCarries(s, s', f);
      }
    }
  }

  lemma TakenRowsAreNamed(s: State, f: FilePath)
    requires Inv(s) && Sweepable(s) && Enabled(s, PurgeTheRows)
    requires f in s.w.files && f in s.log.owner && s.log.owner[f] in s.w.pages && s.log.owner[f] in s.op.ids
    ensures OrphanFits(Next(s, PurgeTheRows).w, Next(s, PurgeTheRows).log, f)
  {
    var s' := Next(s, PurgeTheRows);
    var e := Pending(s.op.id, s.op.targets);
    assert FileFits(s.w, s.log, f);
    TargetsAre(s.w, s.log, s.op.ids, f);
    assert EntryKnown(s.w, s.log, e);
    assert s'.log.purgedBy[s.log.owner[f]] == s.op.id;
    assert Ripe(s'.w, s'.log, e);
  }

  lemma PurgeTheRowsSweeps(s: State)
    requires Inv(s) && Sweepable(s) && Enabled(s, PurgeTheRows)
    ensures Sweepable(Next(s, PurgeTheRows))
  {
    var s' := Next(s, PurgeTheRows);
    forall f ensures FileFits(s'.w, s'.log, f) {
      assert FileFits(s.w, s.log, f);
    }
    forall q ensures StampFits(s'.w, s'.log, q) {
      assert StampFits(s.w, s.log, q);
    }
    forall e ensures EntryKnown(s'.w, s'.log, e) {
      assert EntryKnown(s.w, s.log, e);
    }
    forall f ensures OrphanFits(s'.w, s'.log, f) {
      assert OrphanFits(s.w, s.log, f);
      if Orphan(s.w, s.log, f) {
        OrphanCarries(s, s', f);
      } else if Orphan(s'.w, s'.log, f) {
        TakenRowsAreNamed(s, f);
      }
    }
  }

  lemma RemoveFileSweeps(s: State, path: FilePath)
    requires Inv(s) && Sweepable(s) && Enabled(s, RemoveFile(path))
    ensures Sweepable(Next(s, RemoveFile(path)))
  {
    var s' := Next(s, RemoveFile(path));
    forall f ensures FileFits(s'.w, s'.log, f) {
      assert FileFits(s.w, s.log, f);
    }
    forall q ensures StampFits(s'.w, s'.log, q) {
      assert StampFits(s.w, s.log, q);
    }
    forall e ensures HandFits(s'.w, s'.op, e) {
      assert HandFits(s.w, s.op, e);
    }
    OrphansCarry(s, s');
  }

  lemma ClearSweeps(s: State)
    requires Inv(s) && Sweepable(s) && Enabled(s, ClearEntry)
    ensures Sweepable(Next(s, ClearEntry))
  {
    var s' := Next(s, ClearEntry);
    forall f ensures FileFits(s'.w, s'.log, f) {
      assert FileFits(s.w, s.log, f);
    }
    forall q ensures StampFits(s'.w, s'.log, q) {
      assert StampFits(s.w, s.log, q);
    }
    forall e ensures EntryKnown(s'.w, s'.log, e) && HandFits(s'.w, s'.op, e) {
      assert EntryKnown(s.w, s.log, e) && HandFits(s.w, s.op, e);
      WithoutPurgeIs(s.w.manifest.purges, s.op.id, e);
      PurgeOfShrinks(s.w.manifest.purges, s.op.id, e.id);
    }
    forall f ensures OrphanFits(s'.w, s'.log, f) {
      if Orphan(s.w, s.log, f) {
        assert OrphanFits(s.w, s.log, f);
        var id := s.log.purgedBy[s.log.owner[f]];
        PurgeOfShrinks(s.w.manifest.purges, s.op.id, id);
        forall d ensures d in s.w.manifest.purges && d.id == id ==> d in s'.w.manifest.purges {
          WithoutPurgeIs(s.w.manifest.purges, s.op.id, d);
        }
        OrphanCarries(s, s', f);
      }
    }
  }

  lemma QuietSweeps(s: State, step: Step)
    requires Inv(s) && Sweepable(s) && Enabled(s, step)
    requires step.RemoveFails? || step.BeginRetry? || step.EndRetry? || step.Crash? || step.RetryNext?
    ensures Sweepable(Next(s, step))
  {
    var s' := Next(s, step);
    forall e ensures HandFits(s'.w, s'.op, e) {
      assert HandFits(s.w, s.op, e) && EntryKnown(s.w, s.log, e);
    }
    if step.RetryNext? {
      assert HandFits(s.w, s.op, s.op.rest[0]);
    }
    OrphansCarry(s, s');
  }

  lemma LossSweeps(s: State)
    requires Inv(s) && Sweepable(s)
    ensures Sweepable(Next(s, LoseBatches))
  {
    var s' := Next(s, LoseBatches);
    forall f ensures FileFits(s'.w, s'.log, f) {
      assert FileFits(s.w, s.log, f);
    }
    forall q ensures StampFits(s'.w, s'.log, q) {
      assert StampFits(s.w, s.log, q);
    }
    forall e ensures HandFits(s'.w, s'.op, e) {
      assert HandFits(s.w, s.op, e);
    }
    OrphansCarry(s, s');
  }

  lemma StepSweeps(s: State, step: Step)
    requires Inv(s) && Sweepable(s) && Enabled(s, step) && Careful(s, step)
    ensures Sweepable(Next(s, step))
  {
    match step
    case Import(p, chapter, original) => ImportSweeps(s, p, chapter, original);
    case AddAsset(p, asset) => AddAssetSweeps(s, p, asset);
    case BeginDelete(id, chapter, ids, stamp) => DeleteSweeps(s, id, chapter, ids, stamp);
    case EndDelete => EndDeleteSweeps(s);
    case BeginRestore(id) => RestoreSweeps(s, id);
    case EndRestore => DropSweeps(s, step);
    case BeginPurge(id) => PurgeSweeps(s, id);
    case PurgeTheRows => PurgeTheRowsSweeps(s);
    case DropPurged => DropSweeps(s, step);
    case RemoveFile(path) => RemoveFileSweeps(s, path);
    case RemoveFails => QuietSweeps(s, step);
    case ClearEntry => ClearSweeps(s);
    case BeginRetry => QuietSweeps(s, step);
    case RetryNext => QuietSweeps(s, step);
    case EndRetry => QuietSweeps(s, step);
    case Crash => QuietSweeps(s, step);
    case LoseLedger => assert false;
    case LoseBatches => LossSweeps(s);
  }

  lemma {:induction false} RunSweeps(s: State, steps: seq<Step>)
    requires Inv(s) && Sweepable(s) && CarefulRun(s, steps)
    ensures Inv(Run(s, steps)) && Sweepable(Run(s, steps))
    decreases |steps|
  {
    if |steps| > 0 {
      if Enabled(s, steps[0]) {
        StepKeeps(s, steps[0]);
        StepSweeps(s, steps[0]);
      }
      RunSweeps(Do(s, steps[0]), steps[1..]);
    }
  }

  lemma InitSweeps()
    ensures Sweepable(INITIAL)
  {
  }

  lemma RipeIsTaken(w: World, log: Log, e: Pending)
    requires Ripe(w, log, e) && EntryFits(w, log, e)
    requires forall p :: RowFits(w, log, p)
    ensures !StillAlive(w, e)
  {
    forall p | p in w.pages ensures w.pages[p].original !in e.targets {
      assert RowFits(w, log, p) && w.pages[p].original in FilesOf(w.pages[p]);
    }
  }

  lemma SweepableMeansNamed(s: State)
    requires Inv(s) && Sweepable(s)
    ensures OrphansNamed(s)
  {
    forall f | Orphan(s.w, s.log, f) ensures Named(s.w, f) {
      assert OrphanFits(s.w, s.log, f);
      var e := PurgeOf(s.w.manifest.purges, s.log.purgedBy[s.log.owner[f]]).value;
      assert EntryStands(s, e);
      RipeIsTaken(s.w, s.log, e);
    }
  }

  /** In every careful run, whatever crashes or fails to be removed, no file is lost sight of. */
  lemma NoOrphanIsForgotten(steps: seq<Step>)
    requires CarefulRun(INITIAL, steps)
    ensures OrphansNamed(Run(INITIAL, steps))
  {
    InitFits();
    InitSweeps();
    RunSweeps(INITIAL, steps);
    SweepableMeansNamed(Run(INITIAL, steps));
  }

  // ------------------------------------------------------- an asset that comes too late

  /**
   An asset that is registered while a purge stands between its list and its rows is named by a list, once the rows
   are taken, exactly when its page is none of those the purge takes.
   */
  lemma LateAssetIsNamedExactlyWhen(s: State, p: PageId, asset: FilePath)
    requires Inv(s) && Sweepable(s) && s.op.PurgeRecorded? && Enabled(s, AddAsset(p, asset))
    ensures OrphansNamed(Next(Next(s, AddAsset(p, asset)), PurgeTheRows)) <==> p !in s.op.ids
  {
    var added := Next(s, AddAsset(p, asset));
    var s' := Next(added, PurgeTheRows);
    if p !in s.op.ids {
      AddAssetKeeps(s, p, asset);
      AddAssetSweeps(s, p, asset);
      PurgeTheRowsKeeps(added);
      PurgeTheRowsSweeps(added);
      SweepableMeansNamed(s');
    } else {
      NewFileIsNoTarget(s, asset);
      assert Orphan(s'.w, s'.log, asset) && !Named(s'.w, asset);
    }
  }
}
