/** No surviving row, live or soft-deleted, ever points at a removed file. */
module TrashSafety {
  import opened Options
  import opened TrashModel

  ghost predicate Owns(log: Log, p: PageId, path: FilePath) { path in log.owner && log.owner[path] == p }

  /** Every file of a surviving row exists, and is this page's alone. */
  ghost predicate RowFits(w: World, log: Log, p: PageId) {
    p in w.pages ==>
      p in log.ids && forall t :: t in FilesOf(w.pages[p]) ==> Owns(log, p, t) && t in w.files
  }

  ghost predicate BatchFits(log: Log, b: Batch) { b.id.Issued? && b.id in log.issued }

  /** One target of a sweep list: it is known whose it is, and it comes with the original of its page. */
  ghost predicate TargetFits(w: World, log: Log, e: Pending, t: FilePath) {
    t in log.owner
    && log.owner[t] in log.ids
    && (log.owner[t] in w.pages ==> w.pages[log.owner[t]].original in e.targets)
    && (InLedger(w.manifest.batches, e.id).Some? ==>
          log.owner[t] in InLedger(w.manifest.batches, e.id).value.pages)
  }

  ghost predicate EntryFits(w: World, log: Log, e: Pending) {
    (e.id.Issued? ==> e.id in log.issued) && forall t :: t in e.targets ==> TargetFits(w, log, e, t)
  }

  /** The sweep lists an operation still has in hand. */
  function InHand(op: Op): seq<Pending> {
    if op.Retrying? then op.rest
    else if op.Removing? && op.next.Some? then op.next.value
    else []
  }

  ghost predicate EntryStands(s: State, e: Pending) {
    e in s.w.manifest.purges || e in InHand(s.op) ==> EntryFits(s.w, s.log, e)
  }

  /** The row of the file's page is gone. */
  ghost predicate Gone(w: World, log: Log, t: FilePath) { t in log.owner && log.owner[t] !in w.pages }

  ghost predicate OpFits(w: World, log: Log, op: Op) {
    match op
    case Idle => true
    case RowsMarked(id, _, _, _) =>
      id.Issued? && id in log.issued && forall e :: e in w.manifest.purges ==> e.id != id
    case RowsRestored(_) => true
    case PurgeRecorded(_, ids, targets) => forall t :: t in targets ==> t in log.owner && log.owner[t] in ids
    case RowsPurged(_, targets) => forall t :: t in targets ==> Gone(w, log, t)
    case Removing(_, left, _) => forall t :: t in left ==> Gone(w, log, t)
    case Retrying(_) => true
  }

  ghost predicate OwnersKnown(log: Log) { forall t :: t in log.owner ==> log.owner[t] in log.ids }

  ghost predicate Inv(s: State) {
    OwnersKnown(s.log)
    && (forall p :: RowFits(s.w, s.log, p))
    && (forall b :: b in s.w.manifest.batches ==> BatchFits(s.log, b))
    && (forall e :: EntryStands(s, e))
    && OpFits(s.w, s.log, s.op)
  }

  /** What the whole protocol is for. */
  ghost predicate NothingDangles(w: World) {
    forall p, t :: p in w.pages && t in FilesOf(w.pages[p]) ==> t in w.files
  }

  // ------------------------------------------------------- the ledger, seen from one id

  lemma {:induction false} InLedgerGrows(batches: seq<Batch>, b: Batch, id: BatchId)
    requires id != b.id
    ensures InLedger(batches + [b], id) == InLedger(batches, id)
  {
    if |batches| > 0 {
      assert (batches + [b])[1..] == batches[1..] + [b];
      InLedgerGrows(batches[1..], b, id);
    }
  }

  lemma {:induction false} InLedgerShrinks(batches: seq<Batch>, gone: BatchId, id: BatchId)
    ensures InLedger(WithoutBatch(batches, gone), id) == if id == gone then None else InLedger(batches, id)
  {
    if |batches| > 0 {
      InLedgerShrinks(batches[1..], gone, id);
      assert ([batches[0]] + WithoutBatch(batches[1..], gone))[1..] == WithoutBatch(batches[1..], gone);
    }
  }

  lemma TargetsAre(w: World, log: Log, ids: set<PageId>, t: FilePath)
    requires forall p :: RowFits(w, log, p)
    ensures t in Targets(w.pages, ids) <==>
              t in log.owner && log.owner[t] in ids && log.owner[t] in w.pages && t in FilesOf(w.pages[log.owner[t]])
  {
    if t in Targets(w.pages, ids) {
      var p :| p in ids && p in w.pages && t in FilesOf(w.pages[p]);
      assert RowFits(w, log, p);
    }
  }

  // ------------------------------------------------------- what a step may change, entry by entry

  /** Rows keep their originals, no new row takes an old page's id, and the ledger stays as it was or is lost. */
  ghost predicate Milder(s: State, s': State) {
    (forall p :: p in s'.w.pages && p in s.log.ids ==>
                      p in s.w.pages && s'.w.pages[p].original == s.w.pages[p].original)
    && (forall t :: t in s.log.owner ==> t in s'.log.owner && s'.log.owner[t] == s.log.owner[t])
    && s.log.ids <= s'.log.ids && s.log.issued <= s'.log.issued
  }

  lemma EntryCarries(s: State, s': State, e: Pending)
    requires EntryFits(s.w, s.log, e) && Milder(s, s')
    requires InLedger(s'.w.manifest.batches, e.id) == InLedger(s.w.manifest.batches, e.id)
             || InLedger(s'.w.manifest.batches, e.id).None?
    ensures EntryFits(s'.w, s'.log, e)
  {
    forall t | t in e.targets ensures TargetFits(s'.w, s'.log, e, t) {
      assert TargetFits(s.w, s.log, e, t);
    }
  }

  /** No entry is new, and the ledger of none has changed otherwise than by losing its batch. */
  lemma EntriesCarry(s: State, s': State)
    requires forall e :: EntryStands(s, e)
    requires Milder(s, s')
    requires forall e :: e in s'.w.manifest.purges || e in InHand(s'.op) ==>
               e in s.w.manifest.purges || e in InHand(s.op)
    requires forall e :: e in s'.w.manifest.purges || e in InHand(s'.op) ==>
                           InLedger(s'.w.manifest.batches, e.id) == InLedger(s.w.manifest.batches, e.id)
                           || InLedger(s'.w.manifest.batches, e.id).None?
    ensures forall e :: EntryStands(s', e)
  {
    forall e ensures EntryStands(s', e) {
      assert EntryStands(s, e);
      if e in s'.w.manifest.purges || e in InHand(s'.op) {
        EntryCarries(s, s', e);
      }
    }
  }

  // ------------------------------------------------------- the steps

  lemma ImportKeeps(s: State, p: PageId, chapter: Chapter, original: FilePath)
    requires Inv(s) && Enabled(s, Import(p, chapter, original))
    ensures Inv(Next(s, Import(p, chapter, original)))
  {
    var s' := Next(s, Import(p, chapter, original));
    forall q ensures RowFits(s'.w, s'.log, q) {
      assert RowFits(s.w, s.log, q);
    }
    EntriesCarry(s, s');
  }

  lemma AddAssetKeeps(s: State, p: PageId, asset: FilePath)
    requires Inv(s) && Enabled(s, AddAsset(p, asset))
    ensures Inv(Next(s, AddAsset(p, asset)))
  {
    var s' := Next(s, AddAsset(p, asset));
    forall q ensures RowFits(s'.w, s'.log, q) {
      assert RowFits(s.w, s.log, q);
    }
    assert RowFits(s.w, s.log, p);
    EntriesCarry(s, s');
  }

  lemma DeleteKeeps(s: State, id: BatchId, chapter: Chapter, ids: set<PageId>, stamp: Stamp)
    requires Inv(s) && Enabled(s, BeginDelete(id, chapter, ids, stamp))
    ensures Inv(Next(s, BeginDelete(id, chapter, ids, stamp)))
  {
    var s' := Next(s, BeginDelete(id, chapter, ids, stamp));
    forall q ensures RowFits(s'.w, s'.log, q) {
      assert RowFits(s.w, s.log, q);
    }
    EntriesCarry(s, s');
    forall e | e in s.w.manifest.purges ensures e.id != id {
      assert EntryStands(s, e);
    }
  }

  lemma EndDeleteKeeps(s: State)
    requires Inv(s) && Enabled(s, EndDelete)
    ensures Inv(Next(s, EndDelete))
  {
    var s' := Next(s, EndDelete);
    forall q ensures RowFits(s'.w, s'.log, q) {
      assert RowFits(s.w, s.log, q);
    }
    var batch := Batch(s.op.id, s.op.chapter, s.op.stamp, Caught(s.w, s.op.ids, s.op.stamp));
    forall e | e in s.w.manifest.purges
      ensures InLedger(s'.w.manifest.batches, e.id) == InLedger(s.w.manifest.batches, e.id)
    {
      InLedgerGrows(s.w.manifest.batches, batch, e.id);
    }
    EntriesCarry(s, s');
  }

  lemma BeginRestoreKeeps(s: State, id: BatchId)
    requires Inv(s) && Enabled(s, BeginRestore(id))
    ensures Inv(Next(s, BeginRestore(id)))
  {
    var s' := Next(s, BeginRestore(id));
    forall q ensures RowFits(s'.w, s'.log, q) {
      assert RowFits(s.w, s.log, q);
    }
    EntriesCarry(s, s');
  }

  lemma DropKeeps(s: State, step: Step)
    requires Inv(s) && Enabled(s, step) && (step.EndRestore? || step.DropPurged?)
    ensures Inv(Next(s, step))
  {
    var s' := Next(s, step);
    forall q ensures RowFits(s'.w, s'.log, q) {
      assert RowFits(s.w, s.log, q);
    }
    forall e: Pending
      ensures InLedger(s'.w.manifest.batches, e.id) == InLedger(s.w.manifest.batches, e.id)
              || InLedger(s'.w.manifest.batches, e.id).None?
    {
      InLedgerShrinks(s.w.manifest.batches, s.op.id, e.id);
    }
    forall b | b in s'.w.manifest.batches ensures BatchFits(s'.log, b) {
      WithoutBatchIs(s.w.manifest.batches, s.op.id, b);
    }
    EntriesCarry(s, s');
  }

  lemma NewEntryFits(w: World, log: Log, id: BatchId)
    requires forall p :: RowFits(w, log, p)
    requires forall b :: b in w.manifest.batches ==> BatchFits(log, b)
    requires FindBatch(w, id).Some?
    ensures EntryFits(w, log, Pending(id, Targets(w.pages, FindBatch(w, id).value.pages)))
  {
    var ids := FindBatch(w, id).value.pages;
    var e := Pending(id, Targets(w.pages, ids));
    InLedgerIs(w.manifest.batches, id);
    forall t | t in e.targets ensures TargetFits(w, log, e, t) {
      TargetsAre(w, log, ids, t);
      var p := log.owner[t];
      assert RowFits(w, log, p);
      TargetsAre(w, log, ids, w.pages[p].original);
    }
  }

  lemma BeginPurgeKeeps(s: State, id: BatchId)
    requires Inv(s) && Enabled(s, BeginPurge(id))
    ensures Inv(Next(s, BeginPurge(id)))
  {
    var s' := Next(s, BeginPurge(id));
    var ids := FindBatch(s.w, id).value.pages;
    forall q ensures RowFits(s'.w, s'.log, q) {
      assert RowFits(s.w, s.log, q);
    }
    NewEntryFits(s.w, s.log, id);
    forall e ensures EntryStands(s', e) {
      assert EntryStands(s, e);
      WithoutPurgeIs(s.w.manifest.purges, id, e);
      if e in s'.w.manifest.purges {
        EntryCarries(s, s', e);
      }
    }
    forall t | t in s'.op.targets ensures t in s.log.owner && s.log.owner[t] in ids {
      TargetsAre(s.w, s.log, ids, t);
    }
  }

  lemma PurgeTheRowsKeeps(s: State)
    requires Inv(s) && Enabled(s, PurgeTheRows)
    ensures Inv(Next(s, PurgeTheRows))
  {
    var s' := Next(s, PurgeTheRows);
    forall q ensures RowFits(s'.w, s'.log, q) {
      assert RowFits(s.w, s.log, q);
    }
    EntriesCarry(s, s');
  }

  lemma RemoveFileKeeps(s: State, path: FilePath)
    requires Inv(s) && Enabled(s, RemoveFile(path))
    ensures Inv(Next(s, RemoveFile(path)))
  {
    var s' := Next(s, RemoveFile(path));
    assert Gone(s.w, s.log, path);
    forall q ensures RowFits(s'.w, s'.log, q) {
      assert RowFits(s.w, s.log, q);
    }
    EntriesCarry(s, s');
  }

  lemma ClearKeeps(s: State)
    requires Inv(s) && Enabled(s, ClearEntry)
    ensures Inv(Next(s, ClearEntry))
  {
    var s' := Next(s, ClearEntry);
    forall q ensures RowFits(s'.w, s'.log, q) {
      assert RowFits(s.w, s.log, q);
    }
    forall e | e in s'.w.manifest.purges ensures e in s.w.manifest.purges {
      WithoutPurgeIs(s.w.manifest.purges, s.op.id, e);
    }
    EntriesCarry(s, s');
  }

  /** The guard lets an entry through only when the row of every one of its files is gone. */
  lemma GuardIsSound(w: World, log: Log, e: Pending)
    requires forall b :: b in w.manifest.batches ==> BatchFits(log, b)
    requires EntryFits(w, log, e) && !StillAlive(w, e)
    ensures forall t :: t in e.targets ==> Gone(w, log, t)
  {
    InLedgerIs(w.manifest.batches, e.id);
    forall t | t in e.targets ensures Gone(w, log, t) {
      assert TargetFits(w, log, e, t);
    }
  }

  lemma RetryNextKeeps(s: State)
    requires Inv(s) && Enabled(s, RetryNext)
    ensures Inv(Next(s, RetryNext))
  {
    var s' := Next(s, RetryNext);
    var e := s.op.rest[0];
    forall q ensures RowFits(s'.w, s'.log, q) {
      assert RowFits(s.w, s.log, q);
    }
    assert EntryStands(s, e);
    if !StillAlive(s.w, e) {
      GuardIsSound(s.w, s.log, e);
    }
    EntriesCarry(s, s');
  }

  lemma QuietKeeps(s: State, step: Step)
    requires Inv(s) && Enabled(s, step)
    requires step.RemoveFails? || step.BeginRetry? || step.EndRetry? || step.Crash?
    ensures Inv(Next(s, step))
  {
    var s' := Next(s, step);
    EntriesCarry(s, s');
  }

  lemma LossKeeps(s: State, step: Step)
    requires Inv(s) && (step.LoseLedger? || step.LoseBatches?)
    ensures Inv(Next(s, step))
  {
    var s' := Next(s, step);
    forall q ensures RowFits(s'.w, s'.log, q) {
      assert RowFits(s.w, s.log, q);
    }
    EntriesCarry(s, s');
  }

  lemma StepKeeps(s: State, step: Step)
    requires Inv(s) && Enabled(s, step)
    ensures Inv(Next(s, step))
  {
    match step
    case Import(p, chapter, original) => ImportKeeps(s, p, chapter, original);
    case AddAsset(p, asset) => AddAssetKeeps(s, p, asset);
    case BeginDelete(id, chapter, ids, stamp) => DeleteKeeps(s, id, chapter, ids, stamp);
    case EndDelete => EndDeleteKeeps(s);
    case BeginRestore(id) => BeginRestoreKeeps(s, id);
    case EndRestore => DropKeeps(s, step);
    case BeginPurge(id) => BeginPurgeKeeps(s, id);
    case PurgeTheRows => PurgeTheRowsKeeps(s);
    case DropPurged => DropKeeps(s, step);
    case RemoveFile(path) => RemoveFileKeeps(s, path);
    case RemoveFails => QuietKeeps(s, step);
    case ClearEntry => ClearKeeps(s);
    case BeginRetry => QuietKeeps(s, step);
    case RetryNext => RetryNextKeeps(s);
    case EndRetry => QuietKeeps(s, step);
    case Crash => QuietKeeps(s, step);
    case LoseLedger => LossKeeps(s, step);
    case LoseBatches => LossKeeps(s, step);
  }

  lemma {:induction false} RunKeeps(s: State, steps: seq<Step>)
    requires Inv(s)
    ensures Inv(Run(s, steps))
    decreases |steps|
  {
    if |steps| > 0 {
      if Enabled(s, steps[0]) {
        StepKeeps(s, steps[0]);
      }
      RunKeeps(Do(s, steps[0]), steps[1..]);
    }
  }

  lemma InitFits()
    ensures Inv(INITIAL)
  {
  }

  /**
   In every run of soft deletes, restores, purges and retries, with a crash between any two calls and the ledger lost
   at any time, every file of every surviving row is still there.
   */
  lemma NoRunDangles(steps: seq<Step>)
    ensures NothingDangles(Run(INITIAL, steps).w)
  {
    InitFits();
    RunKeeps(INITIAL, steps);
    var s := Run(INITIAL, steps);
    forall p, t | p in s.w.pages && t in FilesOf(s.w.pages[p]) ensures t in s.w.files {
      assert RowFits(s.w, s.log, p);
    }
  }
}
