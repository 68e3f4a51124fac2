/**
 Soft delete, restore, purge and retry, one store or manifest call at a time.

 Page rows, managed files and the JSON ledger are three stores without a common
 transaction: the process may crash between any two calls, and the ledger may be
 lost at any time, whole or only its list of batches.
 */
module TrashModel {
  import opened Options

  type PageId = string
  type Chapter = string
  type FilePath = string
  type Stamp = nat

  datatype Page = Page(chapter: Chapter, deletedAt: Option<Stamp>, original: FilePath, assets: set<FilePath>)

  type Pages = map<PageId, Page>

  /** An id from the factory, or the id that is rebuilt from the rows of a group. */
  datatype BatchId = Issued(id: string) | Rebuilt(chapter: Chapter, stamp: Stamp)

  datatype Batch = Batch(id: BatchId, chapter: Chapter, deletedAt: Stamp, pages: set<PageId>)

  datatype Pending = Pending(id: BatchId, targets: set<FilePath>)

  /** The shared manifest; `cleanups` belongs to the cache cleanup. */
  datatype Manifest = Manifest(batches: seq<Batch>, purges: seq<Pending>, cleanups: seq<string>)

  datatype World = World(pages: Pages, files: set<FilePath>, manifest: Manifest)

  // ------------------------------------------------------- the page store

  function Deleted(pages: Pages, ids: set<PageId>, stamp: Stamp): Pages {
    map p | p in pages ::
      if p in ids && pages[p].deletedAt.None? then pages[p].(deletedAt := Some(stamp)) else pages[p]
  }

  function Restored(pages: Pages, ids: set<PageId>): Pages {
    map p | p in pages :: if p in ids then pages[p].(deletedAt := None) else pages[p]
  }

  function Purged(pages: Pages, ids: set<PageId>): Pages { pages - ids }

  function Group(pages: Pages, chapter: Chapter, stamp: Stamp): set<PageId> {
    set p | p in pages && pages[p].chapter == chapter && pages[p].deletedAt == Some(stamp)
  }

  /** The (chapter, deleted_at) pairs of the soft-deleted rows. */
  function GroupKeys(pages: Pages): set<(Chapter, Stamp)> {
    set p | p in pages && pages[p].deletedAt.Some? :: (pages[p].chapter, pages[p].deletedAt.value)
  }

  function FilesOf(page: Page): set<FilePath> { {page.original} + page.assets }

  /** The managed originals and generated assets of those of the pages that still have a row. */
  function Targets(pages: Pages, ids: set<PageId>): set<FilePath> {
    set p, t | p in ids && p in pages && t in FilesOf(pages[p]) :: t
  }

  // ------------------------------------------------------- the ledger

  function KnownKeys(batches: seq<Batch>): set<(Chapter, Stamp)> {
    set b | b in batches :: (b.chapter, b.deletedAt)
  }

  function RebuiltBatch(pages: Pages, key: (Chapter, Stamp)): Batch {
    Batch(Rebuilt(key.0, key.1), key.0, key.1, Group(pages, key.0, key.1))
  }

  /** The groups of rows that the ledger does not know. */
  function UnknownKeys(w: World): set<(Chapter, Stamp)> { GroupKeys(w.pages) - KnownKeys(w.manifest.batches) }

  /** Everything `list_batches` lists. */
  function Listed(w: World): set<Batch> {
    (set b | b in w.manifest.batches) + (set key | key in UnknownKeys(w) :: RebuiltBatch(w.pages, key))
  }

  function InLedger(batches: seq<Batch>, id: BatchId): Option<Batch> {
    if |batches| == 0 then None
    else if batches[0].id == id then Some(batches[0])
    else InLedger(batches[1..], id)
  }

  /** The first listed batch with this id: the ledger comes before the rebuilt groups. */
  function FindBatch(w: World, id: BatchId): Option<Batch> {
    var found := InLedger(w.manifest.batches, id);
    if found.Some? then found
    else if id.Rebuilt? && (id.chapter, id.stamp) in UnknownKeys(w) then
      Some(RebuiltBatch(w.pages, (id.chapter, id.stamp)))
    else None
  }

  function WithoutBatch(batches: seq<Batch>, id: BatchId): seq<Batch> {
    if |batches| == 0 then []
    else if batches[0].id == id then WithoutBatch(batches[1..], id)
    else [batches[0]] + WithoutBatch(batches[1..], id)
  }

  function WithoutPurge(purges: seq<Pending>, id: BatchId): seq<Pending> {
    if |purges| == 0 then []
    else if purges[0].id == id then WithoutPurge(purges[1..], id)
    else [purges[0]] + WithoutPurge(purges[1..], id)
  }

  lemma {:induction false} WithoutBatchIs(batches: seq<Batch>, id: BatchId, b: Batch)
    ensures b in WithoutBatch(batches, id) <==> b in batches && b.id != id
  {
    if |batches| > 0 {
      WithoutBatchIs(batches[1..], id, b);
    }
  }

  lemma {:induction false} WithoutPurgeIs(purges: seq<Pending>, id: BatchId, e: Pending)
    ensures e in WithoutPurge(purges, id) <==> e in purges && e.id != id
  {
    if |purges| > 0 {
      WithoutPurgeIs(purges[1..], id, e);
    }
  }

  /** What is kept stands in its order: of two lists in a row, what is kept of the one and then of the other. */
  lemma {:induction false} WithoutBatchInOrder(a: seq<Batch>, b: seq<Batch>, id: BatchId)
    ensures WithoutBatch(a + b, id) == WithoutBatch(a, id) + WithoutBatch(b, id)
    ensures |a| == 1 ==> WithoutBatch(a, id) == if a[0].id == id then [] else a
  {
    if |a| == 0 {
      assert a + b == b;
    } else {
      assert (a + b)[1..] == a[1..] + b;
      WithoutBatchInOrder(a[1..], b, id);
      var kept := if a[0].id == id then [] else [a[0]];
      assert kept + (WithoutBatch(a[1..], id) + WithoutBatch(b, id)) ==
             (kept + WithoutBatch(a[1..], id)) + WithoutBatch(b, id);
      assert WithoutBatch(a, id) == kept + WithoutBatch(a[1..], id);
    }
  }

  lemma {:induction false} WithoutPurgeInOrder(a: seq<Pending>, b: seq<Pending>, id: BatchId)
    ensures WithoutPurge(a + b, id) == WithoutPurge(a, id) + WithoutPurge(b, id)
    ensures |a| == 1 ==> WithoutPurge(a, id) == if a[0].id == id then [] else a
  {
    if |a| == 0 {
      assert a + b == b;
    } else {
      assert (a + b)[1..] == a[1..] + b;
      WithoutPurgeInOrder(a[1..], b, id);
      var kept := if a[0].id == id then [] else [a[0]];
      assert kept + (WithoutPurge(a[1..], id) + WithoutPurge(b, id)) ==
             (kept + WithoutPurge(a[1..], id)) + WithoutPurge(b, id);
      assert WithoutPurge(a, id) == kept + WithoutPurge(a[1..], id);
    }
  }

  lemma {:induction false} InLedgerIs(batches: seq<Batch>, id: BatchId)
    ensures InLedger(batches, id).Some? ==>
              InLedger(batches, id).value in batches && InLedger(batches, id).value.id == id
    ensures InLedger(batches, id).None? ==> forall b :: b in batches ==> b.id != id
  {
    if |batches| > 0 {
      InLedgerIs(batches[1..], id);
    }
  }

  /** A stamp of no listed batch is the stamp of no row. */
  lemma UnlistedStampsAreFree(w: World, stamp: Stamp)
    requires forall b :: b in Listed(w) ==> b.deletedAt != stamp
    ensures forall p :: p in w.pages ==> w.pages[p].deletedAt != Some(stamp)
  {
    forall p | p in w.pages && w.pages[p].deletedAt.Some? ensures w.pages[p].deletedAt != Some(stamp) {
      var key := (w.pages[p].chapter, w.pages[p].deletedAt.value);
      assert key in GroupKeys(w.pages);
      if key in KnownKeys(w.manifest.batches) {
        var b :| b in w.manifest.batches && (b.chapter, b.deletedAt) == key;
        assert b in Listed(w);
      } else {
        assert RebuiltBatch(w.pages, key) in Listed(w);
      }
    }
  }

  // ------------------------------------------------------- single calls

  function MarkRows(w: World, ids: set<PageId>, stamp: Stamp): World { w.(pages := Deleted(w.pages, ids, stamp)) }

  /** The pages this soft delete really caught: those that now carry its stamp. */
  function Caught(w: World, ids: set<PageId>, stamp: Stamp): set<PageId> {
    set p | p in ids && p in w.pages && w.pages[p].deletedAt == Some(stamp)
  }

  function RecordBatch(w: World, id: BatchId, chapter: Chapter, ids: set<PageId>, stamp: Stamp): World {
    var caught := Caught(w, ids, stamp);
    if caught == {} then w
    else w.(manifest := w.manifest.(batches := w.manifest.batches + [Batch(id, chapter, stamp, caught)]))
  }

  function RestoreRows(w: World, ids: set<PageId>): World { w.(pages := Restored(w.pages, ids)) }

  function DropBatch(w: World, id: BatchId): World {
    w.(manifest := w.manifest.(batches := WithoutBatch(w.manifest.batches, id)))
  }

  /** The sweep list replaces any earlier one of the same batch. */
  function RecordPurge(w: World, id: BatchId, targets: set<FilePath>): World {
    w.(manifest := w.manifest.(purges := WithoutPurge(w.manifest.purges, id) + [Pending(id, targets)]))
  }

  function PurgeRows(w: World, ids: set<PageId>): World { w.(pages := Purged(w.pages, ids)) }

  function ClearPurge(w: World, id: BatchId): World {
    w.(manifest := w.manifest.(purges := WithoutPurge(w.manifest.purges, id)))
  }

  /** The guard of the retry: by batch id where it is still listed, else by the originals of the rows. */
  predicate StillAlive(w: World, e: Pending) {
    var found := FindBatch(w, e.id);
    if found.Some? then exists p :: p in found.value.pages && p in w.pages
    else exists p :: p in w.pages && w.pages[p].original in e.targets
  }

  // ------------------------------------------------------- runs

  /** Where the operation in progress stands. */
  datatype Op =
    | Idle
    | RowsMarked(id: BatchId, chapter: Chapter, ids: set<PageId>, stamp: Stamp)
    | RowsRestored(id: BatchId)
    | PurgeRecorded(id: BatchId, ids: set<PageId>, targets: set<FilePath>)
    | RowsPurged(id: BatchId, targets: set<FilePath>)
    | Removing(id: BatchId, left: set<FilePath>, next: Option<seq<Pending>>)
    | Retrying(rest: seq<Pending>)

  /** What was ever handed out: each path to one page, each id, each stamp; and which purge took a page's rows. */
  datatype Log = Log(owner: map<FilePath, PageId>, ids: set<PageId>, issued: set<BatchId>, stamps: set<Stamp>,
                     purgedBy: map<PageId, BatchId>)

  datatype State = State(w: World, op: Op, log: Log)

  /** Pages are imported and assets registered by other jobs, also in the middle of an operation. */
  datatype Step =
    | Import(page: PageId, chapter: Chapter, original: FilePath)
    | AddAsset(page: PageId, asset: FilePath)
    | BeginDelete(id: BatchId, chapter: Chapter, ids: set<PageId>, stamp: Stamp)
    | EndDelete
    | BeginRestore(id: BatchId)
    | EndRestore
    | BeginPurge(id: BatchId)
    | PurgeTheRows
    | DropPurged
    | RemoveFile(path: FilePath)
    | RemoveFails
    | ClearEntry
    | BeginRetry
    | RetryNext
    | EndRetry
    | Crash
    | LoseLedger
    | LoseBatches

  const INITIAL := State(World(map[], {}, Manifest([], [], [])), Idle, Log(map[], {}, {}, {}, map[]))

  predicate Enabled(s: State, step: Step) {
    var w := s.w;
    match step
    case Import(p, _, original) => p !in s.log.ids && original !in s.log.owner
    case AddAsset(p, asset) => p in w.pages && asset !in s.log.owner
    case BeginDelete(id, _, _, stamp) =>
      s.op.Idle? && id.Issued? && id !in s.log.issued && forall b :: b in Listed(w) ==> b.deletedAt != stamp
    case EndDelete => s.op.RowsMarked?
    case BeginRestore(id) => s.op.Idle? && FindBatch(w, id).Some?
    case EndRestore => s.op.RowsRestored?
    case BeginPurge(id) => s.op.Idle? && FindBatch(w, id).Some?
    case PurgeTheRows => s.op.PurgeRecorded?
    case DropPurged => s.op.RowsPurged?
    case RemoveFile(path) => s.op.Removing? && path in s.op.left
    case RemoveFails => s.op.Removing?
    case ClearEntry => s.op.Removing? && s.op.left == {}
    case BeginRetry => s.op.Idle?
    case RetryNext => s.op.Retrying? && |s.op.rest| > 0
    case EndRetry => s.op.Retrying? && |s.op.rest| == 0
    case Crash => true
    case LoseLedger => true
    case LoseBatches => true
  }

  function Next(s: State, step: Step): State
    requires Enabled(s, step)
  {
    var w := s.w;
    match step
    case Import(p, chapter, original) =>
      State(w.(pages := w.pages[p := Page(chapter, None, original, {})], files := w.files + {original}), s.op,
            s.log.(ids := s.log.ids + {p}, owner := s.log.owner[original := p]))
    case AddAsset(p, asset) =>
      State(w.(pages := w.pages[p := w.pages[p].(assets := w.pages[p].assets + {asset})], files := w.files + {asset}),
            s.op, s.log.(owner := s.log.owner[asset := p]))
    case BeginDelete(id, chapter, ids, stamp) =>
      State(MarkRows(w, ids, stamp), RowsMarked(id, chapter, ids, stamp),
            s.log.(issued := s.log.issued + {id}, stamps := s.log.stamps + {stamp}))
    case EndDelete => s.(w := RecordBatch(w, s.op.id, s.op.chapter, s.op.ids, s.op.stamp), op := Idle)
    case BeginRestore(id) => s.(w := RestoreRows(w, FindBatch(w, id).value.pages), op := RowsRestored(id))
    case EndRestore => s.(w := DropBatch(w, s.op.id), op := Idle)
    case BeginPurge(id) =>
      var ids := FindBatch(w, id).value.pages;
      s.(w := RecordPurge(w, id, Targets(w.pages, ids)), op := PurgeRecorded(id, ids, Targets(w.pages, ids)))
    case PurgeTheRows =>
      State(PurgeRows(w, s.op.ids), RowsPurged(s.op.id, s.op.targets),
            s.log.(purgedBy := map p | p in s.log.purgedBy.Keys + (s.op.ids * w.pages.Keys) ::
                                 if p in w.pages && p in s.op.ids then s.op.id else s.log.purgedBy[p]))
    case DropPurged => s.(w := DropBatch(w, s.op.id), op := Removing(s.op.id, s.op.targets, None))
    case RemoveFile(path) => s.(w := w.(files := w.files - {path}), op := s.op.(left := s.op.left - {path}))
    case RemoveFails => s.(op := Idle)
    case ClearEntry =>
      s.(w := ClearPurge(w, s.op.id), op := if s.op.next.Some? then Retrying(s.op.next.value) else Idle)
    case BeginRetry => s.(op := Retrying(w.manifest.purges))
    case RetryNext =>
      var e := s.op.rest[0];
      s.(op := if StillAlive(w, e) then Retrying(s.op.rest[1..])
               else Removing(e.id, e.targets, Some(s.op.rest[1..])))
    case EndRetry => s.(op := Idle)
    case Crash => s.(op := Idle)
    case LoseLedger => s.(w := w.(manifest := Manifest([], [], [])))
    case LoseBatches => s.(w := w.(manifest := w.manifest.(batches := [])))
  }

  function Do(s: State, step: Step): State {
    if Enabled(s, step) then Next(s, step) else s
  }

  function Run(s: State, steps: seq<Step>): State
    decreases |steps|
  {
    if |steps| == 0 then s else Run(Do(s, steps[0]), steps[1..])
  }
}
