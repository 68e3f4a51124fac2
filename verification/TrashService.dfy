/** The trash service itself: each method works on rows, files and manifest in place. */
module TrashService {
  import opened Options
  import opened TrashModel

  datatype Deletion = Trashed(batch: Batch) | NothingLive

  datatype Purge = UnknownBatch | FileLeft | Done

  // ------------------------------------------------------- what a retry comes to

  /** One entry of a retry: skipped while its rows are alive, else swept and cleared. */
  function RetryOne(w: World, e: Pending): World {
    if StillAlive(w, e) then w else ClearPurge(w.(files := w.files - e.targets), e.id)
  }

  function RetryAll(w: World, entries: seq<Pending>): World
    decreases |entries|
  {
    if |entries| == 0 then w
    else RetryOne(RetryAll(w, entries[..|entries| - 1]), entries[|entries| - 1])
  }

  /** The places of the first `n` entries that the guard lets through. */
  function LetThrough(w: World, entries: seq<Pending>, n: nat): set<nat>
    requires n <= |entries|
  {
    set k | 0 <= k < n && !StillAlive(w, entries[k])
  }

  ghost predicate DistinctIds(entries: seq<Pending>) {
    forall i, j :: 0 <= i < j < |entries| ==> entries[i].id != entries[j].id
  }

  lemma LetThroughOneMore(w: World, entries: seq<Pending>, n: nat)
    requires n < |entries|
    ensures |LetThrough(w, entries, n + 1)| == |LetThrough(w, entries, n)| + if StillAlive(w, entries[n]) then 0 else 1
  {
    var before := LetThrough(w, entries, n);
    assert LetThrough(w, entries, n + 1) == if StillAlive(w, entries[n]) then before else before + {n};
  }

  lemma {:induction false} WithoutNone(purges: seq<Pending>, id: BatchId)
    requires forall e :: e in purges ==> e.id != id
    ensures WithoutPurge(purges, id) == purges
  {
    if |purges| > 0 {
      WithoutNone(purges[1..], id);
    }
  }

  lemma {:induction false} WithoutOneShrinks(purges: seq<Pending>, e: Pending)
    requires DistinctIds(purges) && e in purges
    ensures |WithoutPurge(purges, e.id)| == |purges| - 1 && DistinctIds(WithoutPurge(purges, e.id))
  {
    var rest := purges[1..];
    assert forall i :: 0 <= i < |rest| ==> rest[i] == purges[i + 1];
    if purges[0].id == e.id {
      WithoutNone(rest, e.id);
    } else {
      WithoutOneShrinks(rest, e);
      var left := WithoutPurge(rest, e.id);
      forall j | 0 <= j < |left| ensures left[j].id != purges[0].id {
        WithoutPurgeIs(rest, e.id, left[j]);
      }
    }
  }

  /** Where no two sweep lists share an id, a retry shortens their list by as many as it sweeps. */
  lemma {:induction false} RetryShortens(w: World, n: nat)
    requires n <= |w.manifest.purges| && DistinctIds(w.manifest.purges)
    ensures var left := RetryAll(w, w.manifest.purges[..n]).manifest.purges;
            DistinctIds(left) && |left| == |w.manifest.purges| - |LetThrough(w, w.manifest.purges, n)|
    decreases n
  {
    var entries := w.manifest.purges;
    if n == 0 {
      assert LetThrough(w, entries, 0) == {};
    } else {
      assert entries[..n][..n - 1] == entries[..n - 1];
      RetryShortens(w, n - 1);
      LetThroughOneMore(w, entries, n - 1);
      RetryKeepsRows(w, entries[..n - 1]);
      GuardIgnoresSweeps(w, RetryAll(w, entries[..n - 1]), entries[n - 1]);
      RetryTakes(w, entries[..n - 1], "", entries[n - 1]);
      if !StillAlive(w, entries[n - 1]) {
        WithoutOneShrinks(RetryAll(w, entries[..n - 1]).manifest.purges, entries[n - 1]);
      }
    }
  }

  lemma GuardIgnoresSweeps(w: World, w': World, e: Pending)
    requires w'.pages == w.pages && w'.manifest.batches == w.manifest.batches
    ensures StillAlive(w', e) == StillAlive(w, e)
  {
    assert FindBatch(w', e.id) == FindBatch(w, e.id);
  }

  /** A retry touches neither rows nor batches nor the list of the cache cleanup. */
  lemma {:induction false} RetryKeepsRows(w: World, entries: seq<Pending>)
    ensures var w' := RetryAll(w, entries);
            w'.pages == w.pages && w'.manifest.batches == w.manifest.batches
            && w'.manifest.cleanups == w.manifest.cleanups
    decreases |entries|
  {
    if |entries| > 0 {
      RetryKeepsRows(w, entries[..|entries| - 1]);
    }
  }

  /**
   The files that a retry removes are those of the entries that its guard lets through; so are the entries it
   clears.
   */
  lemma {:induction false} RetryTakes(w: World, entries: seq<Pending>, f: FilePath, e: Pending)
    ensures f in RetryAll(w, entries).files <==>
            f in w.files && forall d :: d in entries && f in d.targets ==> StillAlive(w, d)
    ensures e in RetryAll(w, entries).manifest.purges <==>
            e in w.manifest.purges && forall d :: d in entries && d.id == e.id ==> StillAlive(w, d)
    decreases |entries|
  {
    if |entries| > 0 {
      var n := |entries| - 1;
      assert entries == entries[..n] + [entries[n]];
      RetryTakes(w, entries[..n], f, e);
      RetryKeepsRows(w, entries[..n]);
      GuardIgnoresSweeps(w, RetryAll(w, entries[..n]), entries[n]);
      WithoutPurgeIs(RetryAll(w, entries[..n]).manifest.purges, entries[n].id, e);
    }
  }

  lemma RetryCounts(w: World, entries: seq<Pending>)
    requires entries == w.manifest.purges
    ensures |LetThrough(w, entries, |entries|)| == |set k | 0 <= k < |entries| && !StillAlive(w, entries[k])|
    ensures DistinctIds(entries) ==>
              |LetThrough(w, entries, |entries|)| == |entries| - |RetryAll(w, entries).manifest.purges|
  {
    assert LetThrough(w, entries, |entries|) == set k | 0 <= k < |entries| && !StillAlive(w, entries[k]);
    if DistinctIds(entries) {
      RetryShortens(w, |entries|);
      assert entries[..|entries|] == entries;
    }
  }

  /** One more entry of a retry; its guard answers as it did before the first. */
  lemma RetryGoesOn(w: World, entries: seq<Pending>, i: nat)
    requires i < |entries|
    ensures var before := RetryAll(w, entries[..i]);
            StillAlive(before, entries[i]) == StillAlive(w, entries[i])
            && RetryAll(w, entries[..i + 1]) == RetryOne(before, entries[i])
    ensures |LetThrough(w, entries, i + 1)| == |LetThrough(w, entries, i)| + if StillAlive(w, entries[i]) then 0 else 1
  {
    assert entries[..i + 1][..i] == entries[..i];
    LetThroughOneMore(w, entries, i);
    RetryKeepsRows(w, entries[..i]);
    GuardIgnoresSweeps(w, RetryAll(w, entries[..i]), entries[i]);
  }

  // ------------------------------------------------------- what a listing comes to

  predicate IsRebuilt(pages: Pages, keys: set<(Chapter, Stamp)>, b: Batch) {
    (b.chapter, b.deletedAt) in keys && b == RebuiltBatch(pages, (b.chapter, b.deletedAt))
  }

  lemma OneMoreRebuilt(pages: Pages, keys: set<(Chapter, Stamp)>, key: (Chapter, Stamp))
    ensures forall b :: IsRebuilt(pages, keys + {key}, b) <==>
                        IsRebuilt(pages, keys, b) || b == RebuiltBatch(pages, key)
  {
  }

  lemma ListedAre(w: World, b: Batch)
    ensures b in Listed(w) <==> b in w.manifest.batches || IsRebuilt(w.pages, UnknownKeys(w), b)
  {
    if IsRebuilt(w.pages, UnknownKeys(w), b) {
      var key := (b.chapter, b.deletedAt);
      assert key in UnknownKeys(w) && b == RebuiltBatch(w.pages, key);
    }
  }

  class TrashService {
    var pages: Pages
    var files: set<FilePath>
    var manifest: Manifest
    /** Files that the remover cannot take for the time being. */
    var locked: set<FilePath>

    constructor ()
      ensures W() == World(map[], {}, Manifest([], [], [])) && locked == {}
    {
      pages, files, manifest, locked := map[], {}, Manifest([], [], []), {};
    }

    ghost function W(): World
      reads this
    {
      World(pages, files, manifest)
    }

    /** The first instant from `now` on that no batch has. */
    method FreshStamp(now: Stamp, existing: set<Stamp>) returns (stamp: Stamp)
      ensures now <= stamp && stamp !in existing
      ensures forall t :: now <= t < stamp ==> t in existing
    {
      stamp := now;
      ghost var ahead := existing;
      while stamp in existing
        invariant now <= stamp
        invariant forall t :: now <= t < stamp ==> t in existing
        invariant forall t :: stamp <= t && t in existing ==> t in ahead
        decreases |ahead|
      {
        ahead := ahead - {stamp};
        stamp := stamp + 1;
      }
    }

    /** The batches of the ledger, then one rebuilt batch for each group of rows the ledger does not know. */
    method ListBatches() returns (list: seq<Batch>)
      ensures (set b | b in list) == Listed(W())
      ensures manifest.batches <= list
      ensures |list| == |manifest.batches| + |UnknownKeys(W())|
    {
      var known := KnownKeys(manifest.batches);
      var rebuilt := RebuildBatches(GroupKeys(pages) - known);
      list := manifest.batches + rebuilt;
      forall b ensures b in list <==> b in Listed(W()) {
        ListedAre(W(), b);
      }
    }

    /** One batch for each of these groups of rows. */
    method RebuildBatches(keys: set<(Chapter, Stamp)>) returns (list: seq<Batch>)
      ensures |list| == |keys| && forall b :: b in list <==> IsRebuilt(pages, keys, b)
    {
      list := [];
      var todo := keys;
      while todo != {}
        invariant todo <= keys && |list| + |todo| == |keys|
        invariant forall b :: b in list <==> IsRebuilt(pages, keys - todo, b)
        decreases |todo|
      {
        var key :| key in todo;
        OneMoreRebuilt(pages, keys - todo, key);
        assert keys - (todo - {key}) == (keys - todo) + {key};
        list := list + [RebuiltBatch(pages, key)];
        todo := todo - {key};
      }
    }

    method TakeBatch(id: BatchId) returns (found: Option<Batch>)
      ensures found == FindBatch(W(), id)
    {
      var i := 0;
      while i < |manifest.batches|
        invariant 0 <= i <= |manifest.batches|
        invariant InLedger(manifest.batches, id) == InLedger(manifest.batches[i..], id)
      {
        if manifest.batches[i].id == id {
          return Some(manifest.batches[i]);
        }
        i := i + 1;
      }
      if id.Rebuilt? && (id.chapter, id.stamp) in GroupKeys(pages) - KnownKeys(manifest.batches) {
        return Some(RebuiltBatch(pages, (id.chapter, id.stamp)));
      }
      return None;
    }

    method SoftDeletePages(id: BatchId, chapter: Chapter, ids: set<PageId>, now: Stamp)
      returns (r: Deletion, ghost stamp: Stamp)
      modifies this`pages, this`manifest
      ensures now <= stamp && forall b :: b in Listed(old(W())) ==> b.deletedAt != stamp
      ensures W() == RecordBatch(MarkRows(old(W()), ids, stamp), id, chapter, ids, stamp)
      ensures r.Trashed? ==> r.batch == Batch(id, chapter, stamp, Caught(W(), ids, stamp))
      ensures r.NothingLive? <==> forall p :: p in ids && p in old(pages) ==> old(pages)[p].deletedAt.Some?
      ensures r.NothingLive? ==> W() == old(W())
    {
      var listed := ListBatches();
      var chosen := FreshStamp(now, set b | b in listed :: b.deletedAt);
      stamp := chosen;
      ghost var was := W();
      forall b | b in Listed(was) ensures b.deletedAt != stamp {
        assert b in set k | k in listed;
      }
      CaughtAreTheLive(was, ids, stamp);
      pages := Deleted(pages, ids, chosen);
      var caught := set p | p in ids && p in pages && pages[p].deletedAt == Some(chosen);
      assert caught == Caught(MarkRows(was, ids, stamp), ids, stamp);
      if caught == {} {
        return NothingLive, stamp;
      }
      var batch := Batch(id, chapter, chosen, caught);
      manifest := manifest.(batches := manifest.batches + [batch]);
      return Trashed(batch), stamp;
    }

    method DropBatch(id: BatchId)
      modifies this`manifest
      ensures W() == TrashModel.DropBatch(old(W()), id)
    {
      manifest := manifest.(batches := WithoutBatch(manifest.batches, id));
    }

    /** Answers with the number of pages that are live again. */
    method RestoreBatch(id: BatchId) returns (restored: Option<nat>)
      modifies this`pages, this`manifest
      ensures restored.Some? <==> FindBatch(old(W()), id).Some?
      ensures restored.None? ==> W() == old(W())
      ensures restored.Some? ==>
                var ids := FindBatch(old(W()), id).value.pages;
                W() == TrashModel.DropBatch(RestoreRows(old(W()), ids), id)
                && restored.value ==
                   |set p | p in pages && pages[p].deletedAt.None? && old(pages)[p].deletedAt.Some?|
    {
      var batch := TakeBatch(id);
      if batch.None? {
        return None;
      }
      var trashed := set p | p in batch.value.pages && p in pages && pages[p].deletedAt.Some?;
      ghost var was := pages;
      pages := Restored(pages, batch.value.pages);
      assert trashed == set p | p in pages && pages[p].deletedAt.None? && was[p].deletedAt.Some?;
      DropBatch(id);
      return Some(|trashed|);
    }

    method RemoveManaged(path: FilePath) returns (ok: bool)
      modifies this`files
      ensures ok <==> path !in locked
      ensures files == if ok then old(files) - {path} else old(files)
    {
      ok := path !in locked;
      if ok { files := files - {path}; }
    }

    /** All files of one sweep list, then the entry; the first file that stays keeps the entry. */
    method RemovePendingTargets(id: BatchId, targets: set<FilePath>) returns (ok: bool)
      modifies this`files, this`manifest
      ensures ok <==> targets !! locked
      ensures ok ==> W() == ClearPurge(old(W()).(files := old(files) - targets), id)
      ensures !ok ==> manifest == old(manifest) && old(files) - targets <= files <= old(files)
                      && forall f :: f in locked && f in old(files) ==> f in files
    {
      var left := targets;
      while left != {}
        invariant left <= targets && (targets - left) !! locked
        invariant files == old(files) - (targets - left) && manifest == old(manifest)
        decreases |left|
      {
        var path :| path in left;
        var gone := RemoveManaged(path);
        if !gone {
          return false;
        }
        left := left - {path};
        assert targets - left == (targets - (left + {path})) + {path};
      }
      assert targets - {} == targets;
      manifest := manifest.(purges := WithoutPurge(manifest.purges, id));
      return true;
    }

    /** Sweep list first, then the rows, then the ledger, then the files. */
    method PurgeBatch(id: BatchId) returns (r: Purge)
      modifies this`pages, this`files, this`manifest
      ensures r.UnknownBatch? <==> FindBatch(old(W()), id).None?
      ensures r.UnknownBatch? ==> W() == old(W())
      ensures !r.UnknownBatch? ==>
                var ids := FindBatch(old(W()), id).value.pages;
                var targets := Targets(old(pages), ids);
                (r.Done? <==> targets !! locked)
                && pages == Purged(old(pages), ids)
                && manifest.batches == WithoutBatch(old(manifest).batches, id)
                && manifest.cleanups == old(manifest).cleanups
                && manifest.purges == WithoutPurge(old(manifest).purges, id)
                                    + (if r.Done? then [] else [Pending(id, targets)])
                && old(files) - targets <= files <= old(files)
                && (r.Done? ==> files == old(files) - targets)
    {
      var batch := TakeBatch(id);
      if batch.None? {
        return UnknownBatch;
      }
      var ids := batch.value.pages;
      var targets := Targets(pages, ids);
      ghost var others := WithoutPurge(manifest.purges, id);
      manifest := manifest.(purges := WithoutPurge(manifest.purges, id) + [Pending(id, targets)]);
      pages := Purged(pages, ids);
      DropBatch(id);
      WithoutLastPurge(others, Pending(id, targets));
      WithoutPurgeTwice(old(manifest).purges, id);
      var ok := RemovePendingTargets(id, targets);
      return if ok then Done else FileLeft;
    }

    /** Every pending entry in turn; it stops at the first file that stays. */
    method RetryPendingPurges() returns (done: bool, cleared: nat)
      modifies this`files, this`manifest
      ensures done <==> forall e :: e in old(manifest).purges && !StillAlive(old(W()), e) ==> e.targets !! locked
      ensures done ==>
                && W() == RetryAll(old(W()), old(manifest).purges)
                && cleared ==
                   |set k | 0 <= k < |old(manifest).purges| && !StillAlive(old(W()), old(manifest).purges[k])|
                && (DistinctIds(old(manifest).purges) ==>
                      cleared == |old(manifest).purges| - |manifest.purges|)
      ensures !done ==> exists k ::
                0 <= k < |old(manifest).purges|
                && var w := RetryAll(old(W()), old(manifest).purges[..k]);
                var e := old(manifest).purges[k];
                !StillAlive(old(W()), e) && manifest == w.manifest && w.files - e.targets <= files <= w.files
    {
      var entries := manifest.purges;
      ghost var was := W();
      cleared := 0;
      assert LetThrough(was, entries, 0) == {};
      var i := 0;
      while i < |entries|
        invariant 0 <= i <= |entries|
        invariant W() == RetryAll(was, entries[..i]) && cleared == |LetThrough(was, entries, i)|
        invariant forall k :: 0 <= k < i && !StillAlive(was, entries[k]) ==> entries[k].targets !! locked
      {
        RetryGoesOn(was, entries, i);
        var alive, ok := RetryEntry(entries[i]);
        if !ok {
          return false, cleared;
        }
        if !alive { cleared := cleared + 1; }
        i := i + 1;
      }
      assert entries[..i] == entries;
      RetryCounts(was, entries);
      return true, cleared;
    }

    /** One entry: skipped while its rows are alive, else swept; `ok` says that no file of it stayed. */
    method RetryEntry(e: Pending) returns (alive: bool, ok: bool)
      modifies this`files, this`manifest
      ensures alive == StillAlive(old(W()), e) && (ok <==> alive || e.targets !! locked)
      ensures ok ==> W() == RetryOne(old(W()), e)
      ensures !ok ==> manifest == old(manifest) && old(files) - e.targets <= files <= old(files)
    {
      alive := BatchPagesStillAlive(e);
      ok := true;
      if !alive {
        ok := RemovePendingTargets(e.id, e.targets);
      }
    }

    method BatchPagesStillAlive(e: Pending) returns (alive: bool)
      ensures alive == StillAlive(W(), e)
    {
      var found := TakeBatch(e.id);
      if found.Some? {
        return exists p :: p in found.value.pages && p in pages;
      }
      return exists p :: p in pages && pages[p].original in e.targets;
    }
  }

  /**
   A soft delete under a new stamp catches exactly the live pages it is given; if there are none it changes nothing.
   */
  lemma CaughtAreTheLive(w: World, ids: set<PageId>, stamp: Stamp)
    requires forall b :: b in Listed(w) ==> b.deletedAt != stamp
    ensures forall p :: p in Caught(MarkRows(w, ids, stamp), ids, stamp) <==>
                        p in ids && p in w.pages && w.pages[p].deletedAt.None?
    ensures Caught(MarkRows(w, ids, stamp), ids, stamp) == {} ==> MarkRows(w, ids, stamp) == w
  {
    UnlistedStampsAreFree(w, stamp);
    if Caught(MarkRows(w, ids, stamp), ids, stamp) == {} {
      forall p | p in w.pages && p in ids ensures w.pages[p].deletedAt.Some? {
        assert p !in Caught(MarkRows(w, ids, stamp), ids, stamp);
      }
      assert MarkRows(w, ids, stamp).pages == w.pages;
    }
  }

  lemma {:induction false} WithoutLastPurge(purges: seq<Pending>, e: Pending)
    ensures WithoutPurge(purges + [e], e.id) == WithoutPurge(purges, e.id)
  {
    if |purges| == 0 {
      assert WithoutPurge([e][1..], e.id) == [];
    } else {
      assert (purges + [e])[1..] == purges[1..] + [e];
      WithoutLastPurge(purges[1..], e);
    }
  }

  lemma {:induction false} WithoutPurgeTwice(purges: seq<Pending>, id: BatchId)
    ensures WithoutPurge(WithoutPurge(purges, id), id) == WithoutPurge(purges, id)
  {
    if |purges| > 0 {
      WithoutPurgeTwice(purges[1..], id);
    }
  }
}
