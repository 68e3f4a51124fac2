/** The listed batches partition the soft-deleted pages, with the ledger or without it. */
module TrashPartition {
  import opened Options
  import opened TrashModel
  import opened TrashSafety

  /** A restore or purge that has changed the rows of this batch and has not dropped it yet. */
  predicate UnderWay(op: Op, id: BatchId) { (op.RowsRestored? || op.RowsPurged?) && op.id == id }

  ghost predicate BatchTrue(w: World, op: Op, b: Batch) {
    b in w.manifest.batches && !UnderWay(op, b.id) ==>
      b.pages == Group(w.pages, b.chapter, b.deletedAt) && b.pages != {}
  }

  /** No two batches of the ledger share an id, or a chapter and stamp. */
  ghost predicate Apart(batches: seq<Batch>, a: Batch, b: Batch) {
    a in batches && b in batches && (a.id == b.id || (a.chapter == b.chapter && a.deletedAt == b.deletedAt)) ==> a == b
  }

  /** The batch has pages, and none of them is soft-deleted any more. */
  ghost predicate Outdated(w: World, b: Batch) {
    b.pages != {} && forall p :: p in b.pages && p in w.pages ==> w.pages[p].deletedAt.None?
  }

  ghost predicate OpTrue(w: World, op: Op) {
    match op
    case RowsMarked(id, c, ids, stamp) =>
      (forall b :: b in w.manifest.batches ==> b.id != id && b.deletedAt != stamp)
      && forall p :: p in w.pages && w.pages[p].deletedAt == Some(stamp) ==> p in ids && w.pages[p].chapter == c
    case PurgeRecorded(id, ids, _) =>
      (forall b, p :: b in w.manifest.batches && b.id != id && p in b.pages ==> p !in ids)
      && (forall b :: b in w.manifest.batches && b.id == id ==> b.pages == ids && b.pages != {})
      && forall p :: p in ids ==> p in w.pages && w.pages[p].deletedAt.Some?
    case RowsRestored(id) => forall b :: b in w.manifest.batches && b.id == id ==> Outdated(w, b)
    case RowsPurged(id, _) => forall b :: b in w.manifest.batches && b.id == id ==> Outdated(w, b)
    case _ => true
  }

  ghost predicate LedgerTrue(s: State) {
    (forall b :: BatchTrue(s.w, s.op, b))
    && (forall a, b :: Apart(s.w.manifest.batches, a, b))
    && OpTrue(s.w, s.op)
  }

  /**
   The live pages that are deleted together are of the named chapter, and no restore or purge of a batch of the ledger
   dies between its rows and its ledger entry.
   */
  ghost predicate Orderly(s: State, step: Step) {
    match step
    case BeginDelete(_, c, ids, _) =>
      forall p :: p in ids && p in s.w.pages && s.w.pages[p].deletedAt.None? ==> s.w.pages[p].chapter == c
    case Crash => s.op.RowsRestored? || s.op.RowsPurged? ==> InLedger(s.w.manifest.batches, s.op.id).None?
    case _ => true
  }

  ghost predicate OrderlyRun(s: State, steps: seq<Step>)
    decreases |steps|
  {
    |steps| == 0 || ((Enabled(s, steps[0]) ==> Orderly(s, steps[0])) && OrderlyRun(Do(s, steps[0]), steps[1..]))
  }

  // ------------------------------------------------------- the steps

  lemma SameLedgerSameGroups(s: State, s': State)
    requires LedgerTrue(s)
    requires s'.w.manifest.batches == s.w.manifest.batches || s'.w.manifest.batches == []
    requires forall b :: b in s'.w.manifest.batches && !UnderWay(s'.op, b.id) ==>
               !UnderWay(s.op, b.id)
               && Group(s'.w.pages, b.chapter, b.deletedAt) == Group(s.w.pages, b.chapter, b.deletedAt)
    requires OpTrue(s'.w, s'.op)
    ensures LedgerTrue(s')
  {
    forall b ensures BatchTrue(s'.w, s'.op, b) {
      assert BatchTrue(s.w, s.op, b);
    }
    forall a, b ensures Apart(s'.w.manifest.batches, a, b) {
      assert Apart(s.w.manifest.batches, a, b);
    }
  }

  lemma NewPageTrue(s: State, p: PageId, chapter: Chapter, original: FilePath)
    requires Inv(s) && LedgerTrue(s) && Enabled(s, Import(p, chapter, original))
    ensures LedgerTrue(Next(s, Import(p, chapter, original)))
  {
    assert RowFits(s.w, s.log, p);
    SameLedgerSameGroups(s, Next(s, Import(p, chapter, original)));
  }

  lemma AddAssetTrue(s: State, p: PageId, asset: FilePath)
    requires LedgerTrue(s) && Enabled(s, AddAsset(p, asset))
    ensures LedgerTrue(Next(s, AddAsset(p, asset)))
  {
    SameLedgerSameGroups(s, Next(s, AddAsset(p, asset)));
  }

  lemma DeleteTrue(s: State, id: BatchId, chapter: Chapter, ids: set<PageId>, stamp: Stamp)
    requires Inv(s) && LedgerTrue(s) && Enabled(s, BeginDelete(id, chapter, ids, stamp))
    requires Orderly(s, BeginDelete(id, chapter, ids, stamp))
    ensures LedgerTrue(Next(s, BeginDelete(id, chapter, ids, stamp)))
  {
    var s' := Next(s, BeginDelete(id, chapter, ids, stamp));
    UnlistedStampsAreFree(s.w, stamp);
    forall b | b in s.w.manifest.batches
      ensures b.id != id && b.deletedAt != stamp
      ensures Group(s'.w.pages, b.chapter, b.deletedAt) == Group(s.w.pages, b.chapter, b.deletedAt)
    {
      assert b in Listed(s.w) && BatchFits(s.log, b);
    }
    SameLedgerSameGroups(s, s');
  }

  lemma EndDeleteTrue(s: State)
    requires LedgerTrue(s) && Enabled(s, EndDelete)
    ensures LedgerTrue(Next(s, EndDelete))
  {
    var s' := Next(s, EndDelete);
    var batch := Batch(s.op.id, s.op.chapter, s.op.stamp, Caught(s.w, s.op.ids, s.op.stamp));
    assert batch.pages == Group(s.w.pages, s.op.chapter, s.op.stamp);
    forall b ensures BatchTrue(s'.w, s'.op, b) {
      assert BatchTrue(s.w, s.op, b);
    }
    forall a, b ensures Apart(s'.w.manifest.batches, a, b) {
      assert Apart(s.w.manifest.batches, a, b);
    }
  }

  /** The pages of a found batch are its group, and no other batch of the ledger has any of them. */
  lemma FoundIsItsGroup(s: State, id: BatchId)
    requires Inv(s) && LedgerTrue(s) && s.op.Idle? && FindBatch(s.w, id).Some?
    ensures var found := FindBatch(s.w, id).value;
            found.pages == Group(s.w.pages, found.chapter, found.deletedAt)
            && forall b :: b in s.w.manifest.batches && b.id != id ==>
                             !(b.chapter == found.chapter && b.deletedAt == found.deletedAt)
  {
    var found := FindBatch(s.w, id).value;
    InLedgerIs(s.w.manifest.batches, id);
    forall b | b in s.w.manifest.batches && b.id != id
      ensures !(b.chapter == found.chapter && b.deletedAt == found.deletedAt)
    {
      assert BatchTrue(s.w, s.op, found);
      assert Apart(s.w.manifest.batches, b, found);
      assert (b.chapter, b.deletedAt) in KnownKeys(s.w.manifest.batches);
    }
    assert BatchTrue(s.w, s.op, found);
  }

  /** The batch of the ledger with the id of a found batch is the found one. */
  lemma FoundIsTheOne(s: State, id: BatchId, b: Batch)
    requires LedgerTrue(s) && s.op.Idle? && FindBatch(s.w, id).Some?
    requires b in s.w.manifest.batches && b.id == id
    ensures b == FindBatch(s.w, id).value && b.pages != {}
  {
    InLedgerIs(s.w.manifest.batches, id);
    assert Apart(s.w.manifest.batches, b, FindBatch(s.w, id).value) && BatchTrue(s.w, s.op, b);
  }

  lemma RestoreTrue(s: State, id: BatchId)
    requires Inv(s) && LedgerTrue(s) && Enabled(s, BeginRestore(id))
    ensures LedgerTrue(Next(s, BeginRestore(id)))
  {
    var s' := Next(s, BeginRestore(id));
    FoundIsItsGroup(s, id);
    forall b | b in s.w.manifest.batches && b.id == id ensures Outdated(s'.w, b) {
      FoundIsTheOne(s, id, b);
    }
    SameLedgerSameGroups(s, s');
  }

  lemma DropTrue(s: State, step: Step)
    requires LedgerTrue(s) && Enabled(s, step) && (step.EndRestore? || step.DropPurged?)
    ensures LedgerTrue(Next(s, step))
  {
    var s' := Next(s, step);
    forall b ensures BatchTrue(s'.w, s'.op, b) {
      assert BatchTrue(s.w, s.op, b);
      WithoutBatchIs(s.w.manifest.batches, s.op.id, b);
    }
    forall a, b ensures Apart(s'.w.manifest.batches, a, b) {
      assert Apart(s.w.manifest.batches, a, b);
      WithoutBatchIs(s.w.manifest.batches, s.op.id, a);
      WithoutBatchIs(s.w.manifest.batches, s.op.id, b);
    }
  }

  lemma PurgeTrue(s: State, id: BatchId)
    requires Inv(s) && LedgerTrue(s) && Enabled(s, BeginPurge(id))
    ensures LedgerTrue(Next(s, BeginPurge(id)))
  {
    var s' := Next(s, BeginPurge(id));
    FoundIsItsGroup(s, id);
    forall b | b in s.w.manifest.batches && b.id == id ensures b.pages == s'.op.ids && b.pages != {} {
      FoundIsTheOne(s, id, b);
    }
    forall b, p | b in s.w.manifest.batches && b.id != id && p in b.pages ensures p !in s'.op.ids {
      assert BatchTrue(s.w, s.op, b);
    }
    SameLedgerSameGroups(s, s');
  }

  lemma PurgeTheRowsTrue(s: State)
    requires LedgerTrue(s) && Enabled(s, PurgeTheRows)
    ensures LedgerTrue(Next(s, PurgeTheRows))
  {
    var s' := Next(s, PurgeTheRows);
    forall b | b in s.w.manifest.batches && b.id != s.op.id
      ensures Group(s'.w.pages, b.chapter, b.deletedAt) == Group(s.w.pages, b.chapter, b.deletedAt)
    {
      assert BatchTrue(s.w, s.op, b);
    }
    SameLedgerSameGroups(s, s');
  }

  lemma QuietTrue(s: State, step: Step)
    requires LedgerTrue(s) && Enabled(s, step) && Orderly(s, step)
    requires step.RemoveFile? || step.RemoveFails? || step.ClearEntry? || step.BeginRetry? || step.RetryNext?
             || step.EndRetry? || step.Crash? || step.LoseLedger? || step.LoseBatches?
    ensures LedgerTrue(Next(s, step))
  {
    if step.Crash? && (s.op.RowsRestored? || s.op.RowsPurged?) {
      InLedgerIs(s.w.manifest.batches, s.op.id);
    }
    SameLedgerSameGroups(s, Next(s, step));
  }

  lemma StepTrue(s: State, step: Step)
    requires Inv(s) && LedgerTrue(s) && Enabled(s, step) && Orderly(s, step)
    ensures LedgerTrue(Next(s, step))
  {
    if step.Import? {
      NewPageTrue(s, step.page, step.chapter, step.original);
    } else if step.AddAsset? {
      AddAssetTrue(s, step.page, step.asset);
    } else if step.BeginDelete? {
      DeleteTrue(s, step.id, step.chapter, step.ids, step.stamp);
    } else if step.EndDelete? {
      EndDeleteTrue(s);
    } else if step.BeginRestore? {
      RestoreTrue(s, step.id);
    } else if step.BeginPurge? {
      PurgeTrue(s, step.id);
    } else if step.PurgeTheRows? {
      PurgeTheRowsTrue(s);
    } else if step.EndRestore? || step.DropPurged? {
      DropTrue(s, step);
    } else {
      QuietTrue(s, step);
    }
  }

  lemma {:induction false} RunTrue(s: State, steps: seq<Step>)
    requires Inv(s) && LedgerTrue(s) && OrderlyRun(s, steps)
    ensures Inv(Run(s, steps)) && LedgerTrue(Run(s, steps))
    decreases |steps|
  {
    if |steps| > 0 {
      if Enabled(s, steps[0]) {
        StepKeeps(s, steps[0]);
        StepTrue(s, steps[0]);
      }
      RunTrue(Do(s, steps[0]), steps[1..]);
    }
  }

  lemma OrderlyRunsAreTrue(s: State, steps: seq<Step>)
    requires OrderlyRun(INITIAL, steps) && s == Run(INITIAL, steps)
    ensures Inv(s) && LedgerTrue(s)
  {
    InitFits();
    RunTrue(INITIAL, steps);
  }

  // ------------------------------------------------------- the partition

  /** The batch is the whole group of rows under its chapter and stamp, and there are such rows. */
  ghost predicate WholeGroup(w: World, b: Batch) {
    b.pages == Group(w.pages, b.chapter, b.deletedAt) && b.pages != {}
  }

  lemma ListedAreGroups(s: State, b: Batch)
    requires LedgerTrue(s) && s.op.Idle? && b in Listed(s.w)
    ensures WholeGroup(s.w, b)
  {
    if b in s.w.manifest.batches {
      assert BatchTrue(s.w, s.op, b);
    } else {
      var key :| key in UnknownKeys(s.w) && b == RebuiltBatch(s.w.pages, key);
      var p :| p in s.w.pages && s.w.pages[p].deletedAt.Some?
               && (s.w.pages[p].chapter, s.w.pages[p].deletedAt.value) == key;
      assert p in b.pages;
    }
  }

  lemma ListedOnce(s: State, a: Batch, b: Batch, p: PageId)
    requires LedgerTrue(s) && s.op.Idle? && a in Listed(s.w) && b in Listed(s.w) && p in a.pages && p in b.pages
    ensures a == b
  {
    ListedAreGroups(s, a);
    ListedAreGroups(s, b);
    var key := (a.chapter, a.deletedAt);
    assert key == (b.chapter, b.deletedAt);
    if key in KnownKeys(s.w.manifest.batches) {
      assert Apart(s.w.manifest.batches, a, b);
    }
  }

  lemma DeletedIsListed(w: World, p: PageId) returns (b: Batch)
    requires p in w.pages && w.pages[p].deletedAt.Some?
    requires forall k :: k in w.manifest.batches ==> WholeGroup(w, k)
    ensures b in Listed(w) && p in b.pages
  {
    var key := (w.pages[p].chapter, w.pages[p].deletedAt.value);
    assert key in GroupKeys(w.pages);
    if key in KnownKeys(w.manifest.batches) {
      b :| b in w.manifest.batches && (b.chapter, b.deletedAt) == key;
    } else {
      b := RebuiltBatch(w.pages, key);
    }
  }

  /** Each page belongs to a listed batch exactly when it is soft-deleted, and then to one only. */
  ghost predicate Partitions(w: World) {
    forall p :: (p in w.pages && w.pages[p].deletedAt.Some? <==> exists b :: b in Listed(w) && p in b.pages)
                && forall a, b :: a in Listed(w) && b in Listed(w) && p in a.pages && p in b.pages ==> a == b
  }

  lemma ListingPartitions(s: State, steps: seq<Step>)
    requires OrderlyRun(INITIAL, steps) && s == Run(INITIAL, steps) && s.op.Idle?
    ensures Partitions(s.w)
  {
    OrderlyRunsAreTrue(s, steps);
    TrueMeansPartition(s);
  }

  lemma TrueMeansPartition(s: State)
    requires LedgerTrue(s) && s.op.Idle?
    ensures Partitions(s.w)
  {
    forall b | b in Listed(s.w) ensures WholeGroup(s.w, b) {
      ListedAreGroups(s, b);
    }
    forall p
      ensures p in s.w.pages && s.w.pages[p].deletedAt.Some? <==> exists b :: b in Listed(s.w) && p in b.pages
    {
      if p in s.w.pages && s.w.pages[p].deletedAt.Some? {
        var b := DeletedIsListed(s.w, p);
      }
    }
    forall p, a, b | a in Listed(s.w) && b in Listed(s.w) && p in a.pages && p in b.pages ensures a == b {
      ListedOnce(s, a, b, p);
    }
  }

  /** What a listed batch says, apart from its id. */
  function Shape(b: Batch): (Chapter, Stamp, set<PageId>) { (b.chapter, b.deletedAt, b.pages) }

  lemma ListedElsewhere(w: World, w': World, b: Batch)
    requires w.pages == w'.pages && b in Listed(w) && WholeGroup(w, b)
    requires forall k :: k in w'.manifest.batches ==> WholeGroup(w', k)
    ensures exists k :: k in Listed(w') && Shape(k) == Shape(b)
  {
    var p :| p in b.pages;
    var k := DeletedIsListed(w', p);
    assert Shape(k) == Shape(b);
  }

  /** With its ledger emptied the service lists the same groups of pages as before. */
  lemma LosingTheLedgerLosesNoGroup(s: State, steps: seq<Step>)
    requires OrderlyRun(INITIAL, steps) && s == Run(INITIAL, steps) && s.op.Idle?
    ensures var s' := Next(s, LoseLedger);
            (set b | b in Listed(s'.w) :: Shape(b)) == (set b | b in Listed(s.w) :: Shape(b))
  {
    OrderlyRunsAreTrue(s, steps);
    var s' := Next(s, LoseLedger);
    StepTrue(s, LoseLedger);
    forall b | b in Listed(s.w) ensures exists k :: k in Listed(s'.w) && Shape(k) == Shape(b) {
      ListedAreGroups(s, b);
      ListedElsewhere(s.w, s'.w, b);
    }
    forall b | b in s.w.manifest.batches ensures WholeGroup(s.w, b) {
      assert b in Listed(s.w);
      ListedAreGroups(s, b);
    }
    forall b | b in Listed(s'.w) ensures exists k :: k in Listed(s.w) && Shape(k) == Shape(b) {
      ListedAreGroups(s', b);
      ListedElsewhere(s'.w, s.w, b);
    }
  }

  // ------------------------------------------------------- pages of another chapter

  /**
   A caught page of another chapter is listed twice: in the recorded batch and in a rebuilt group of its own
   chapter.
   */
  lemma ForeignPageIsListedTwice(s: State, id: BatchId, chapter: Chapter, ids: set<PageId>, stamp: Stamp, p: PageId)
    requires Inv(s) && Enabled(s, BeginDelete(id, chapter, ids, stamp))
    requires p in ids && p in s.w.pages && s.w.pages[p].deletedAt.None? && s.w.pages[p].chapter != chapter
    ensures !Partitions(Next(Next(s, BeginDelete(id, chapter, ids, stamp)), EndDelete).w)
  {
    var marked := Next(s, BeginDelete(id, chapter, ids, stamp)).w;
    var w := RecordBatch(marked, id, chapter, ids, stamp);
    assert p in Caught(marked, ids, stamp);
    var batch := Batch(id, chapter, stamp, Caught(marked, ids, stamp));
    var key := (s.w.pages[p].chapter, stamp);
    assert key in GroupKeys(w.pages) by {
      assert p in w.pages && w.pages[p].deletedAt == Some(stamp);
    }
    forall b | b in w.manifest.batches ensures (b.chapter, b.deletedAt) != key {
      assert b in s.w.manifest.batches ==> b in Listed(s.w);
    }
    assert RebuiltBatch(w.pages, key) in Listed(w) && p in RebuiltBatch(w.pages, key).pages;
    assert batch in w.manifest.batches && batch in Listed(w) && p in batch.pages;
    assert batch != RebuiltBatch(w.pages, key);
  }

  /**
   After a soft delete the listing is a partition exactly when the live pages it was given are of the named chapter.
   */
  lemma DeleteKeepsPartitionExactlyWhen(
      s: State, steps: seq<Step>, id: BatchId, chapter: Chapter, ids: set<PageId>, stamp: Stamp)
    requires OrderlyRun(INITIAL, steps) && s == Run(INITIAL, steps)
    requires Enabled(s, BeginDelete(id, chapter, ids, stamp))
    ensures Partitions(Next(Next(s, BeginDelete(id, chapter, ids, stamp)), EndDelete).w) <==>
            Orderly(s, BeginDelete(id, chapter, ids, stamp))
  {
    OrderlyRunsAreTrue(s, steps);
    var marked := Next(s, BeginDelete(id, chapter, ids, stamp));
    if Orderly(s, BeginDelete(id, chapter, ids, stamp)) {
      DeleteTrue(s, id, chapter, ids, stamp);
      EndDeleteTrue(marked);
      TrueMeansPartition(Next(marked, EndDelete));
    } else {
      var p :| p in ids && p in s.w.pages && s.w.pages[p].deletedAt.None? && s.w.pages[p].chapter != chapter;
      ForeignPageIsListedTwice(s, id, chapter, ids, stamp, p);
    }
  }

  // ------------------------------------------------------- a crash between rows and ledger

  /**
   When a restore or purge dies between its rows and its ledger entry, the listing is still a partition exactly when
   the batch was not in the ledger: a rebuilt batch goes with its rows, a recorded one outlives them.
   */
  lemma CrashKeepsPartitionExactlyWhen(s: State, steps: seq<Step>)
    requires OrderlyRun(INITIAL, steps) && s == Run(INITIAL, steps) && (s.op.RowsRestored? || s.op.RowsPurged?)
    ensures Partitions(Next(s, Crash).w) <==> InLedger(s.w.manifest.batches, s.op.id).None?
  {
    OrderlyRunsAreTrue(s, steps);
    CrashedPartition(s);
  }

  lemma CrashedPartition(s: State)
    requires Inv(s) && LedgerTrue(s) && (s.op.RowsRestored? || s.op.RowsPurged?)
    ensures Partitions(Next(s, Crash).w) <==> InLedger(s.w.manifest.batches, s.op.id).None?
  {
    InLedgerIs(s.w.manifest.batches, s.op.id);
    if InLedger(s.w.manifest.batches, s.op.id).None? {
      QuietTrue(s, Crash);
      TrueMeansPartition(Next(s, Crash));
    } else {
      OutdatedBreaksPartition(s.w, InLedger(s.w.manifest.batches, s.op.id).value);
    }
  }

  lemma OutdatedBreaksPartition(w: World, b: Batch)
    requires b in w.manifest.batches && Outdated(w, b)
    ensures !Partitions(w)
  {
    var p :| p in b.pages;
    assert b in Listed(w) && p in b.pages;
    assert !(p in w.pages && w.pages[p].deletedAt.Some?);
  }

  // ------------------------------------------------------- what a purge takes

  /** The rows that a purge of this batch would take are soft-deleted. */
  ghost predicate TakesOnlyDeleted(w: World, id: BatchId) {
    FindBatch(w, id).Some? ==>
      forall p :: p in FindBatch(w, id).value.pages && p in w.pages ==> w.pages[p].deletedAt.Some?
  }

  /** In every orderly run a purge takes rows of soft-deleted pages only: before it starts, and when it has recorded. */
  lemma PurgesTakeOnlyDeleted(s: State, steps: seq<Step>, id: BatchId, p: PageId)
    requires OrderlyRun(INITIAL, steps) && s == Run(INITIAL, steps)
    ensures s.op.Idle? ==> TakesOnlyDeleted(s.w, id)
    ensures s.op.PurgeRecorded? && p in s.w.pages && p !in Next(s, PurgeTheRows).w.pages ==>
              s.w.pages[p].deletedAt.Some?
  {
    OrderlyRunsAreTrue(s, steps);
    if s.op.Idle? && FindBatch(s.w, id).Some? {
      FoundIsItsGroup(s, id);
    }
  }

  /**
   After a restore or purge that died between its rows and its ledger entry, purges go on taking soft-deleted rows only
   exactly when its batch was not in the ledger or has no row: a recorded batch that was restored has live rows.
   */
  lemma CrashSparesLiveRowsExactlyWhen(s: State, steps: seq<Step>)
    requires OrderlyRun(INITIAL, steps) && s == Run(INITIAL, steps) && (s.op.RowsRestored? || s.op.RowsPurged?)
    ensures (forall id :: TakesOnlyDeleted(Next(s, Crash).w, id)) <==>
            InLedger(s.w.manifest.batches, s.op.id).None?
            || forall p :: p in InLedger(s.w.manifest.batches, s.op.id).value.pages ==> p !in s.w.pages
  {
    OrderlyRunsAreTrue(s, steps);
    var lasting := InLedger(s.w.manifest.batches, s.op.id);
    InLedgerIs(s.w.manifest.batches, s.op.id);
    if lasting.None? || forall p :: p in lasting.value.pages ==> p !in s.w.pages {
      forall id ensures TakesOnlyDeleted(s.w, id) {
        FoundElsewhereIsDeleted(s, id);
      }
    } else {
      var p :| p in lasting.value.pages && p in s.w.pages;
      assert Outdated(s.w, lasting.value) && s.w.pages[p].deletedAt.None?;
      assert !TakesOnlyDeleted(Next(s, Crash).w, s.op.id);
    }
  }

  lemma FoundElsewhereIsDeleted(s: State, id: BatchId)
    requires LedgerTrue(s) && (s.op.RowsRestored? || s.op.RowsPurged?)
    requires id == s.op.id && InLedger(s.w.manifest.batches, id).Some? ==>
               forall p :: p in InLedger(s.w.manifest.batches, id).value.pages ==> p !in s.w.pages
    ensures TakesOnlyDeleted(s.w, id)
  {
    InLedgerIs(s.w.manifest.batches, id);
    if FindBatch(s.w, id).Some? {
      assert BatchTrue(s.w, s.op, FindBatch(s.w, id).value);
    }
  }

  /**
   From every idle state: a restore of a recorded batch that dies before the batch is dropped, and then a purge of the
   batch that is still listed, take the row of a page that is live again and put its original on the sweep list.
   */
  lemma RestoredPageIsPurged(s: State, id: BatchId, p: PageId)
    requires s.op.Idle? && InLedger(s.w.manifest.batches, id).Some?
    requires p in InLedger(s.w.manifest.batches, id).value.pages && p in s.w.pages
    ensures var live := Next(Next(s, BeginRestore(id)), Crash);
            && p in live.w.pages && live.w.pages[p].deletedAt.None? && Enabled(live, BeginPurge(id))
            && var recorded := Next(live, BeginPurge(id));
            recorded.op.PurgeRecorded? && s.w.pages[p].original in recorded.op.targets
            && p !in Next(recorded, PurgeTheRows).w.pages
  {
    var live := Next(Next(s, BeginRestore(id)), Crash);
    assert live.w.pages[p].original in FilesOf(live.w.pages[p]);
  }

  // ------------------------------------------------------- restore undoes soft delete

  lemma {:induction false} WithoutTheNewest(batches: seq<Batch>, b: Batch)
    requires forall k :: k in batches ==> k.id != b.id
    ensures WithoutBatch(batches + [b], b.id) == batches
  {
    if |batches| == 0 {
      assert WithoutBatch([b], b.id) == WithoutBatch([], b.id);
    } else {
      assert (batches + [b])[1..] == batches[1..] + [b];
      WithoutTheNewest(batches[1..], b);
    }
  }

  lemma RowsComeBack(s: State, ids: set<PageId>, stamp: Stamp)
    requires forall b :: b in Listed(s.w) ==> b.deletedAt != stamp
    ensures var w' := MarkRows(s.w, ids, stamp); Restored(w'.pages, Caught(w', ids, stamp)) == s.w.pages
  {
    UnlistedStampsAreFree(s.w, stamp);
  }

  /** Restoring a batch right after its soft delete gives back rows, files and ledger as they were. */
  lemma RestoreUndoesDelete(s: State, id: BatchId, chapter: Chapter, ids: set<PageId>, stamp: Stamp)
    requires Inv(s) && Enabled(s, BeginDelete(id, chapter, ids, stamp))
    requires Caught(MarkRows(s.w, ids, stamp), ids, stamp) != {}
    ensures var deleted := Next(Next(s, BeginDelete(id, chapter, ids, stamp)), EndDelete);
            Enabled(deleted, BeginRestore(id)) && Next(Next(deleted, BeginRestore(id)), EndRestore).w == s.w
  {
    var marked := Next(s, BeginDelete(id, chapter, ids, stamp));
    var batch := Batch(id, chapter, stamp, Caught(marked.w, ids, stamp));
    forall b | b in s.w.manifest.batches ensures b.id != id {
      assert BatchFits(s.log, b);
    }
    InLedgerLast(s.w.manifest.batches, batch);
    WithoutTheNewest(s.w.manifest.batches, batch);
    RowsComeBack(s, ids, stamp);
  }

  lemma {:induction false} InLedgerLast(batches: seq<Batch>, b: Batch)
    requires forall k :: k in batches ==> k.id != b.id
    ensures InLedger(batches + [b], b.id) == Some(b)
  {
    if |batches| > 0 {
      assert (batches + [b])[1..] == batches[1..] + [b];
      InLedgerLast(batches[1..], b);
    }
  }

  lemma LostGroup(s: State, chapter: Chapter, ids: set<PageId>, stamp: Stamp)
    requires forall b :: b in Listed(s.w) ==> b.deletedAt != stamp
    requires forall p :: p in ids && p in s.w.pages && s.w.pages[p].deletedAt.None? ==> s.w.pages[p].chapter == chapter
    ensures var w' := MarkRows(s.w, ids, stamp); Group(w'.pages, chapter, stamp) == Caught(w', ids, stamp)
  {
    UnlistedStampsAreFree(s.w, stamp);
  }

  lemma RebuiltIsFound(w: World, chapter: Chapter, stamp: Stamp)
    requires w.manifest.batches == [] && Group(w.pages, chapter, stamp) != {}
    ensures FindBatch(w, Rebuilt(chapter, stamp)) == Some(RebuiltBatch(w.pages, (chapter, stamp)))
  {
    var p :| p in Group(w.pages, chapter, stamp);
    assert (chapter, stamp) in GroupKeys(w.pages);
  }

  /** It does so for the rows and files even when the ledger is lost in between: the group is rebuilt from the rows. */
  lemma RestoreUndoesDeleteWithoutLedger(s: State, id: BatchId, chapter: Chapter, ids: set<PageId>, stamp: Stamp)
    requires Enabled(s, BeginDelete(id, chapter, ids, stamp)) && Orderly(s, BeginDelete(id, chapter, ids, stamp))
    requires Caught(MarkRows(s.w, ids, stamp), ids, stamp) != {}
    ensures var lost := Next(Next(Next(s, BeginDelete(id, chapter, ids, stamp)), EndDelete), LoseLedger);
            Enabled(lost, BeginRestore(Rebuilt(chapter, stamp)))
            && var back := Next(Next(lost, BeginRestore(Rebuilt(chapter, stamp))), EndRestore);
            back.w.pages == s.w.pages && back.w.files == s.w.files
  {
    var marked := MarkRows(s.w, ids, stamp);
    LostGroup(s, chapter, ids, stamp);
    RebuiltIsFound(marked.(manifest := Manifest([], [], [])), chapter, stamp);
    RowsComeBack(s, ids, stamp);
  }
}
