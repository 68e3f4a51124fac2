# Verification of the page-processing core

A Dafny model of the crash- and concurrency-sensitive services of a desktop
application that imports, edits, translates and exports comic pages, with
machine-checked proofs of what those services promise. `dafny verify
dfyconfig.toml` checks the whole project.

| files | what they model |
|---|---|
| `ExportModel`, `ExportSafety`, `ExportTheorems`, `ExportPromises`, `ExportEnds`, `ExportFaults`, `ExportRecords` | the export runtime as a state machine: workers, cancellers, polls, failing job-store writes, crashes, restarts |
| `ExportRuntime`, `ExportService` | the runtime object over its job list, and the exporter with its temporary file |
| `TrashModel`, `TrashSafety`, `TrashSweep`, `TrashRetry`, `TrashPartition` | soft delete, restore, purge and retry, one store or manifest call at a time, with crashes and a ledger that can be lost |
| `TrashService` | the trash service object |
| `RegionModel`, `RegionHistory`, `RegionWrites`, `RegionAnswers`, `RegionOrder`, `RegionMerge` | regions with append-only revisions; writes planned on one state and committed on a later one |
| `RegionService` | stored region objects, staged clones and the commit seam |
| `RegionCanvas` | pixel rounding, its inverse and the shoelace test, over exact rationals |
| `Cleanup`, `Settings`, `Diagnostics`, `PdfImport` | the cleanup ledger, the settings stores, collision-free report keys, import accounting |
| `Options`, `Decimal`, `Sorting` | shared helpers |

In the state machines a `Step` is a stretch of code that nothing can interrupt,
`Do` passes over a step that is not enabled, and `Run` is any sequence of steps,
so a lemma about `Run` is about every interleaving. The classes hold the same
state in fields; their methods are tied to the functions of the state machines,
about which the lemmas speak.

## Where the code and its promises differ

- A failing export worker spares an export only while it is `publishing`
  (`src/application/export/service.py:945-951`). If a poll has completed it
  meanwhile, it becomes `failed` although it is published.
  `ExportTheorems.TruthExactlyWhenClean` says exactly when;
  `ExportFaults.LateFailureHappens` is the run.
- A restart that cannot read the target of a published export whose mark was not
  stored records it as failed (lines 778-781): `ExportFaults.BlindRestartHappens`.
  Both mistakes concern one export: the truth about any other is told throughout
  (`ExportTheorems.TrueThroughoutExactlyWhenClean`).
- A crash while the temporary file is written leaves it behind, because only an
  intent names staging files (lines 791-795): `ExportFaults.CrashWhileWritingLeaks`.
- A restart asks only whether the target holds the intended bytes, not who wrote
  them: an export that died before its replace counts as published if another
  export put the same bytes there, even if it was cancelled while running
  (`ExportTheorems.RestartTrustsTheBytes`, `ExportPromises.EchoHappens`). A cancelled
  export is shown as published exactly so (`ExportPromises.PromisedIsWonExactlyByRestart`).
- A second purge of a batch whose rows are gone replaces its sweep list by an
  empty one (`src/application/maintenance/trash.py:303-310`):
  `TrashRetry.SecondPurgeForgets`, `TrashRetry.PurgeForgetsNothingExactlyWhen`.
- A soft delete of pages of another chapter lists them twice
  (`TrashPartition.DeleteKeepsPartitionExactlyWhen`), and a crash between the rows
  and the ledger entry of a recorded batch leaves it listed with pages that are
  live or gone (`TrashPartition.CrashKeepsPartitionExactlyWhen`). A purge of such a
  batch takes the rows and files of pages that were restored
  (`TrashPartition.RestoredPageIsPurged`, `TrashPartition.CrashSparesLiveRowsExactlyWhen`).
- An asset registered on a page after its purge has recorded its list, and before it
  takes the rows, is on no list (`src/application/maintenance/trash.py:211-224`):
  `TrashSweep.LateAssetIsNamedExactlyWhen`.
- A machine translation without an expected revision can overwrite a manual save:
  the seam compares the locks of the region, and a manual save sets the lock of
  the text (`src/application/editing/service.py:132-144`):
  `RegionWrites.ManualSaveOverwritten`, `RegionWrites.UnguardedMachineSparesExactlyWhen`.
  As nothing sets the locks of a region, such a translation is always applied
  (`RegionWrites.UnguardedMachineIsAlwaysApplied`).
- No commit looks at the deletion mark, so a guarded write can succeed on a region
  deleted meanwhile (`RegionWrites.DeletedRegionIsWritten`; exactly then it differs
  from a request made at that moment, `RegionWrites.GuardedWritesMissDeletion`).
- A manual save does not take an earlier confirmation back, so its text becomes
  final at once although the entity's documentation has it wait for confirmation
  (`src/domain/regions/entities.py:172-178`): `RegionWrites.ManualSaveWaitsExactlyWhen`.
- A binding can be cleared or replaced exactly while its scope is live
  (`Settings.ClearedExactlyWhenLive`, `Settings.ReplacedExactlyWhenLive`). Once its
  book or chapter is deleted it stays and keeps its provider profile from being
  deleted (`Settings.BindingOutlivesItsScope`, `Settings.StaleBindingsHappen`).

## Model

| member | source | states |
|---|---|---|
| `ExportSafety.StepKeeps` | src/application/export/service.py:911-1061 | Every step of workers, cancellers and reconcilers, every failed store write, crash and restart keeps the invariant: whether the status is open or has left the open ones agrees with where the worker stands, the lock is held exactly in the publication section, the stored intent matches the bytes, every temporary file has an owner. Which report leaves which status is ExportEnds.ReportTells. |
| `ExportSafety.RunKeeps` | src/application/export/service.py:760-1061 | The same over whole runs of any length and interleaving. |
| `ExportTheorems.TruthExactlyWhenClean` | src/application/export/service.py:945-951 | For each export by itself: from a state in which its reported status is true, a step leads to such a state if and only if it is neither the failure report of this export after a poll has completed it nor a restart that cannot read its target although it has published and its mark is not stored; and if and only if it is one of these, the export is then shown as failed although it has published. Nothing is asked of the other exports. |
| `ExportTheorems.TrueThroughoutExactlyWhenClean` | src/application/export/service.py:760-1061 | Over whole runs: the truth about an export is told at every moment if and only if none of the two steps hits this export, and that is if and only if it is at no moment shown as failed although it has published. |
| `ExportTheorems.RegionsAreClosed` | src/application/export/service.py:769-798 | Over every run in which none of the two steps hits this export, whatever befalls the others: once seen as publishing or completed it is never seen as anything else again, once seen as cancelled or failed neither, and once published it is seen as publishing or completed, also after crashes, failed marks and later overwrites of its target. |
| `ExportTheorems.RegionsAreClosedFromTheStart` | src/application/export/service.py:769-798 | The same for every part of such a run that starts with the empty runtime. |
| `ExportPromises.PromisedIsWonExactlyByRestart` | src/application/export/service.py:857-866 | An export whose cancel was answered pending or running is at some moment afterwards shown as publishing or completed if and only if some restart found its intended bytes at its target, whatever else fails or crashes. |
| `ExportPromises.EchoIsShownAsPublished` | src/application/export/service.py:772-790 | From every state with a free lock in which a target holds certain bytes: a new export of the same bytes whose replace raises is cancelled while running, never publishes, and after a crash is shown as publishing and then completed by a poll. |
| `ExportPromises.EchoHappens` | src/application/export/service.py:772-790 | Such a run exists from the empty runtime for every two exports, target and content. |
| `ExportTheorems.CleanRunOnward` | src/application/export/service.py:1028-1061 | Along a run in which none of the two steps hits an export its reported status stays true, and its fate is kept. |
| `ExportTheorems.CalmRunsHaveNoLateFailure` | src/application/export/service.py:1083-1109 | Where no poll completes an export while its worker is still alive, the first of the two steps cannot occur. |
| `ExportTheorems.CancelIsFinal` | src/application/export/service.py:857-866 | When cancel answers with a pending or running snapshot, that export is not published in any continuation. |
| `ExportTheorems.CancelledNeverPublished` | src/application/export/service.py:971-987 | An export shown as cancelled has never replaced its target. That a cancelled worker is shown as cancelled is ExportEnds.ReportTells. |
| `ExportEnds.ReportTells` | src/application/export/service.py:911-1026 | What each stored report of a worker leaves, field by field: running with its page, one page more, publishing or completed with the written output, cancelled or failed with its time and error; a refused report leaves every record as it was, and no report touches another record. |
| `ExportEnds.CancelledExportsEndCancelled` | src/application/export/service.py:942-944 | An export that is cancelled before its publication section, and for which nothing raises, is shown as cancelled once its worker is gone, in every such run. |
| `ExportEnds.UndisturbedExportsEndCompleted` | src/application/export/service.py:911-941 | An export that nobody cancels, for which nothing raises and whose target and history row are found, has published and is shown as completed once its worker is gone. |
| `ExportEnds.RaisingExportsEndFailed` | src/application/export/service.py:945-951 | An export of which a step before its replace raises or is refused, and then nothing more, is shown as failed once its worker is gone, cancelled or not. |
| `ExportEnds.CancelledEarlyWritesNothing` | src/application/export/service.py:287-295 | An export that is cancelled before its first check opens no temporary file in any run, whatever fails or crashes. |
| `ExportEnds.ChecksSeeTheCancellation` | src/application/export/service.py:549-551 | Each of the three checks of a worker (before it begins, after writing, in the publication section) sees the cancellation exactly when there is one. |
| `ExportEnds.PollsSawTheBytes` | src/application/export/service.py:1083-1097 | In every run a poll that is ready to complete its export has found the published bytes at the target at some moment before. |
| `ExportEnds.AcceptTells` | src/application/export/service.py:800-847 | A new export is shown as pending with none of its pages done; it has a worker and a stored record exactly when the store takes it. |
| `ExportEnds.PublicationTells` | src/application/export/service.py:971-1008 | The replace puts the bytes of the worker at its target and nothing elsewhere; the mark shows the export as publishing exactly these bytes. |
| `ExportEnds.SettlingTells` | src/application/export/service.py:1083-1109 | A poll that settles an export completes it at the given time and changes no other field and no other record. |
| `ExportTheorems.StepWritesWhatItPublishes` | src/application/export/service.py:980-986 | A step changes the bytes at a path only by publishing an export there, and records that it did. |
| `ExportTheorems.TargetUntouched` | src/application/export/service.py:971-1008 | A path at which nothing was published since holds what it held, byte for byte, at the end of every run. |
| `ExportTheorems.LostExportsLeaveTargets` | src/application/export/service.py:323-358 | If every export that aimed at a path since ended cancelled or failed, and none of the two steps hit any of these, the path is unchanged. |
| `ExportTheorems.NoTempLeaks` | src/application/export/service.py:322-358 | In every run without a crash each temporary file belongs to a living worker that will still publish or remove it. |
| `ExportTheorems.RestartRemovesStaging` | src/application/export/service.py:791-795 | A restart that fails an export removes the staging file its intent names. |
| `ExportTheorems.TempSurvivesRestartExactlyWhen` | src/application/export/service.py:791-795 | A temporary file outlives a restart, with its content, if and only if no export that the restart fails has stored it in an intent. |
| `ExportTheorems.RestartTrustsTheBytes` | src/application/export/service.py:772-796 | A restart shows an open export as publishing the intended output if and only if its target is readable and its digest is the intended one, and as failed with time and error otherwise, in memory and in the store; settled exports stay as stored. |
| `ExportFaults.LateFailureHappens` | src/application/export/service.py:945-951 | For every export, target and content a run from the initial state after which the export is shown as failed although it published and the target holds its bytes: a poll completed it before its worker raised. |
| `ExportFaults.BlindRestartHappens` | src/application/export/service.py:776-795 | For every export, target and content such a run through a failed mark, a crash and a restart that cannot read the target. |
| `ExportFaults.CrashWhileWritingLeaks` | src/application/export/service.py:769-798 | For every export, target and content a run in which a crash before the intent is stored leaves the temporary file behind for good. |
| `ExportRecords.RecordsAlwaysFit` | src/application/export/service.py:1028-1051 | In every run the history row of each job says what its snapshot says: status, completion time, path and digest; no more pages are counted than there are. |
| `ExportRuntime.Runtime.Recover` | src/application/export/service.py:769-798 | Start-up turns the stored list into exactly the recovered list, keeps exactly the temporary files that no failed job staged, and writes only if a job had to be settled. |
| `ExportRuntime.Runtime.RecoverJob` | src/application/export/service.py:769-796 | One job of start-up: publishing if the target holds the intended bytes, else failed and its staging file removed; settled jobs stay. |
| `ExportRuntime.Runtime.Start` | src/application/export/service.py:800-847 | A new job is pending; when the write raises it stays in memory without a thread. |
| `ExportRuntime.Runtime.Cancel` | src/application/export/service.py:857-866 | Answers with the snapshot and sets the event of an export that is still open, and of no other. |
| `ExportRuntime.Runtime.Change` | src/application/export/service.py:1028-1051 | The edit of one job is stored with all other jobs, or nothing has changed in memory or store. |
| `ExportRuntime.Runtime.PublishAndMark` | src/application/export/service.py:971-1008 | The outcomes of the publication section (cancelled, no such job, intent not stored, replace failed, mark not stored, announced), each with its exact jobs, store, targets and temporary files, and each failure exactly when that store or the replace refuses. |
| `ExportRuntime.Runtime.HandleFailure` | src/application/export/service.py:945-951 | A failing worker leaves a publishing export alone and fails any other, through one stored change. |
| `ExportRuntime.Runtime.ReconcileSettle` | src/application/export/service.py:1092-1140 | A poll completes an export exactly when the target still holds the published bytes, the job is there and neither store refuses; a missing history row is written first, in place of other rows of the export and of no others; the completion time is that of the row. Every other outcome leaves the jobs as they were. |
| `ExportRuntime.NewRowIsFound` | src/application/export/service.py:1120-1140 | The row written for an export is the one found for it. |
| `ExportRuntime.OtherRowsAreKept` | src/application/export/service.py:1128-1140 | What is found for any other export stays the same. |
| `ExportRuntime.RowsOfOthersInOrder` | src/application/export/service.py:1129-1130 | The rows of all other exports are kept in their order. |
| `ExportRuntime.CompletedRowIs` | src/application/export/service.py:1099-1099 | The row found for an export is its first completed one; none is found exactly when there is none. |
| `ExportRuntime.Runtime.Find` | src/application/export/service.py:1142-1143 | Finds a job by id exactly when there is one. |
| `ExportRuntime.TableRecovered` | src/application/export/service.py:769-798 | Recovering a job list one by one is recovering the table of its jobs. |
| `ExportRuntime.KeptByTable` | src/application/export/service.py:721-735 | The temporary files left by the start-up loop are those the recovered table keeps. |
| `ExportService.NextFreeName` | src/application/export/service.py:703-710 | The first numbered sibling that does not exist; none only when all 9999 are taken, which fewer existing files rule out. |
| `ExportService.ResolveTarget` | src/application/export/service.py:457-469 | Overwrite takes the target, skip refuses an existing one, rename never names an existing file. |
| `ExportService.Exporter.Publish` | src/application/export/service.py:322-358 | Completed exactly when no call meets a trouble, cancelled exactly when a cancellation is the only one, failed otherwise; the target is replaced exactly when nothing went wrong or only the leaving of the directory guard did; no temporary file is left in any case. |
| `ExportService.Exporter.Attempt` | src/application/export/service.py:322-334 | From the temporary file to the target, up to the first trouble: the target is replaced exactly when there is none, and the temporary file is left exactly when the caller has to remove it. |
| `ExportService.Exporter.Export` | src/application/export/service.py:287-380 | A request is refused exactly when it is not acceptable, already cancelled or finds no free name; skip never touches an existing target, rename never takes an existing file; only a replace changes a file, and then one only; every request that was begun offers the history store one row, and only the store can lose it. |
| `TrashSafety.NoRunDangles` | src/application/maintenance/trash.py:196-254 | In every run of imports, new assets, soft deletes, restores, purges and retries, with imports and new assets between any two calls of an operation, a crash between any two calls and the ledger lost at any time, every file of every surviving row still exists. |
| `TrashSafety.StepKeeps` | src/application/maintenance/trash.py:119-254 | Every single call keeps the invariant behind it. |
| `TrashSafety.GuardIsSound` | src/application/maintenance/trash.py:319-332 | The two routes of the liveness guard let a sweep list through only if the row of every one of its files is gone. |
| `TrashSafety.NewEntryFits` | src/application/maintenance/trash.py:214-223 | A recorded sweep list holds files of the batch only, and with any file of a page its original. |
| `TrashSweep.NoOrphanIsForgotten` | src/application/maintenance/trash.py:211-226 | In every careful run (ledger kept, stamps not reused, purges only of batches that have a row or that no file waits for, no asset registered on a page whose purge has recorded its list) every file whose row is gone is named by a sweep list that the guard lets through. |
| `TrashSweep.LateAssetIsNamedExactlyWhen` | src/application/maintenance/trash.py:211-224 | An asset registered while a purge stands between its recorded list and its rows is named by a sweep list, once the rows are gone, if and only if its page is none of those purged. |
| `TrashSweep.StepSweeps` | src/application/maintenance/trash.py:196-254 | Every careful call keeps the invariant behind it, whatever crashes or cannot be removed. |
| `TrashSweep.TakenRowsAreNamed` | src/application/maintenance/trash.py:223-224 | When the rows go, every file they leave is on the list recorded before. |
| `TrashRetry.OneRetrySweepsAll` | src/application/maintenance/trash.py:228-254 | After any careful run one retry without a failing removal leaves no file whose row is gone. |
| `TrashRetry.ServiceRetrySweepsAll` | src/application/maintenance/trash.py:228-254 | The same for the retry as one operation. |
| `TrashRetry.RetryCanGoOn` | src/application/maintenance/trash.py:243-254 | A retry in progress always has a next call. |
| `TrashRetry.PurgeForgetsNothingExactlyWhen` | src/application/maintenance/trash.py:303-310 | Starting a purge loses sight of no file if and only if its batch has a row or every waiting file is also named under another id. |
| `TrashRetry.SecondPurgeForgets` | src/application/maintenance/trash.py:303-310 | For every page, file, id and stamp: after a crash between the purged rows and the dropped batch, purging the batch again leaves the file without row and without sweep list. |
| `TrashPartition.ListingPartitions` | src/application/maintenance/trash.py:167-186 | In every orderly run a page belongs to a listed batch exactly when it is soft-deleted, and to one only. |
| `TrashPartition.LosingTheLedgerLosesNoGroup` | src/application/maintenance/trash.py:168-173 | Emptying the ledger leaves the same listed groups of chapter, stamp and pages. |
| `TrashPartition.DeleteKeepsPartitionExactlyWhen` | src/application/maintenance/trash.py:119-165 | After a soft delete the listing is a partition if and only if the live pages given were of the chapter given. |
| `TrashPartition.CrashKeepsPartitionExactlyWhen` | src/application/maintenance/trash.py:188-226 | When a restore or purge dies between its rows and its ledger entry the listing stays a partition if and only if the batch was not in the ledger. |
| `TrashPartition.PurgesTakeOnlyDeleted` | src/application/maintenance/trash.py:196-224 | In every orderly run a purge takes rows of soft-deleted pages only, seen before it starts and when its list is recorded. |
| `TrashPartition.CrashSparesLiveRowsExactlyWhen` | src/application/maintenance/trash.py:188-226 | After a restore or purge died between its rows and its ledger entry, every purge takes soft-deleted rows only if and only if the batch was not in the ledger or none of its pages has a row. |
| `TrashPartition.RestoredPageIsPurged` | src/application/maintenance/trash.py:188-224 | From every idle state: a restore of a recorded batch that dies before the batch is dropped, then a purge of that batch, take the row of a page that is live again and put its original on the sweep list. |
| `TrashPartition.ForeignPageIsListedTwice` | src/application/maintenance/trash.py:148-165 | A page of another chapter is listed in the recorded batch and in a rebuilt one. |
| `TrashPartition.RestoreUndoesDelete` | src/application/maintenance/trash.py:188-194 | Restoring a batch right after its soft delete gives back rows, files and ledger. |
| `TrashPartition.RestoreUndoesDeleteWithoutLedger` | src/application/maintenance/trash.py:98-100 | It gives back rows and files also when the ledger is lost in between, under the rebuilt id. |
| `TrashPartition.StepTrue` | src/application/maintenance/trash.py:119-226 | Every orderly call keeps each ledger batch equal to its group of rows and all batches apart. |
| `TrashService.TrashService.FreshStamp` | src/application/maintenance/trash.py:131-136 | The first stamp from now on that no batch has; the search ends because the stamps are finitely many. |
| `TrashService.TrashService.ListBatches` | src/application/maintenance/trash.py:167-186 | The ledger first, then one rebuilt batch for each unknown group, each once. |
| `TrashService.TrashService.SoftDeletePages` | src/application/maintenance/trash.py:119-165 | Under a stamp of no listed batch the live pages given, and they alone, are recorded as caught; without any nothing changes. |
| `TrashService.TrashService.RestoreBatch` | src/application/maintenance/trash.py:188-194 | Rows restored, batch dropped, answered with the number of pages that are live again; an unknown id changes nothing. |
| `TrashService.TrashService.PurgeBatch` | src/application/maintenance/trash.py:196-226 | Rows and batch are gone; either all files of the rows are gone and the list cleared, or the list is kept and nothing but its files was removed. |
| `TrashService.TrashService.RetryPendingPurges` | src/application/maintenance/trash.py:228-254 | Succeeds exactly when no list the guard lets through holds a stuck file, and then has swept and cleared exactly those lists and answers with their number, by which the pending lists are fewer where no two share an id; else it stops at one of them with the earlier ones cleared. |
| `TrashService.TrashService.RemovePendingTargets` | src/application/maintenance/trash.py:334-353 | All files and then the entry; the first stuck file keeps the entry and itself. |
| `TrashService.TrashService.BatchPagesStillAlive` | src/application/maintenance/trash.py:319-332 | The guard by batch id where it is listed, else by originals. |
| `TrashService.TrashService.TakeBatch` | src/application/maintenance/trash.py:275-292 | The first batch with the id, ledger before rebuilt groups. |
| `TrashService.RetryTakes` | src/application/maintenance/trash.py:228-254 | A retry removes exactly the files, and clears exactly the entries, of the lists its guard lets through. |
| `TrashService.RetryKeepsRows` | src/application/maintenance/trash.py:345-353 | A retry changes neither rows nor batches nor the pending cleanups. |
| `TrashService.RetryShortens` | src/application/maintenance/trash.py:228-254 | Where no two lists share an id, a retry shortens the pending lists by exactly as many as its guard lets through. |
| `TrashService.CaughtAreTheLive` | src/application/maintenance/trash.py:140-149 | A soft delete catches exactly the live pages among those given. |
| `TrashModel.WithoutBatchInOrder` | src/application/maintenance/trash.py:294-299 | Dropping a batch keeps all others in their order. |
| `TrashModel.WithoutPurgeInOrder` | src/application/maintenance/trash.py:303-310 | Clearing a sweep list keeps all others in their order. |
| `TrashModel.UnlistedStampsAreFree` | src/application/maintenance/ports.py:62-69 | A stamp that no listed batch has is on no row. |
| `RegionHistory.EveryRegionIsWellRecorded` | src/application/editing/service.py:106-163 | In every reachable state, whatever writes interleave, revisions are numbered 1 to n, ids do not repeat, the newest revision is the current one and the state is its snapshot. |
| `RegionHistory.RunGrows` | src/application/editing/service.py:145-163 | Over any run histories only grow; earlier revisions change in their pin at most. |
| `RegionHistory.EverySnapshotIsSound` | src/application/editing/service.py:527-534 | In every run manually edited text is locked, the final text is the resolved one and no region lock is set; where creations use the effective policy, a region that is not a sound effect skips. |
| `RegionHistory.NoCommitFindsLocksChanged` | src/application/editing/service.py:132-144 | In no run does a commit find other region locks than those that were read: no request sets one. |
| `RegionHistory.PlanSound` | src/application/editing/service.py:647-724 | Every request keeps those properties from the state it reads to the state it wants to write. |
| `RegionHistory.StepKeeps` | src/application/editing/service.py:262-784 | Every step keeps complete histories and resolving current ids. |
| `RegionWrites.GuardedWritesAreAtomic` | src/application/editing/service.py:217-235 | A geometry save, retype, machine translation or restore with an expectation, planned on one state and committed after any steps of others: applied, it is the update made in one step at that moment; not applied, nothing has changed. |
| `RegionWrites.GuardedWritesMissDeletion` | src/application/editing/service.py:106-163 | An applied guarded write is what the request would come to at that moment if and only if the region was not soft-deleted meanwhile. |
| `RegionWrites.DeletedRegionIsWritten` | src/application/editing/service.py:468-489 | From every reachable state: a geometry save that expects the current revision of any live region succeeds although the region is deleted before the commit, and changes it. |
| `RegionWrites.CurrentRevisionTells` | src/application/editing/service.py:121-131 | If the current revision is the one the writer saw, no revision was committed in between and the state is the same. |
| `RegionWrites.GuardedRetypeKeepsTheRest` | src/application/editing/service.py:307-383 | A guarded retype changes type and policy of the state the commit finds, and only these. |
| `RegionWrites.GuardedMachineSparesLockedText` | src/application/editing/service.py:655-695 | A guarded machine translation never changes a region whose text is locked when it commits. |
| `RegionWrites.GuardedMachineSparesManualText` | src/application/editing/service.py:655-695 | In particular none whose text was edited by hand. |
| `RegionWrites.UnguardedMachineSparesExactlyWhen` | src/application/editing/service.py:132-144 | Without an expectation it leaves the region alone if and only if one of the three region locks differs from what was read; the lock of the text is not compared. |
| `RegionWrites.UnguardedMachineIsAlwaysApplied` | src/application/editing/service.py:678-695 | In every run from the empty repository such a translation is applied, whatever was saved since it was planned. |
| `RegionWrites.ManualSaveOverwritten` | src/application/editing/service.py:678-692 | From every state with an unlocked region: a manual save between the reading and the writing of such a translation is gone from the current state. |
| `RegionWrites.ManualSaveWaitsExactlyWhen` | src/domain/regions/entities.py:172-178 | A manual save waits for confirmation if and only if it is blank or nothing was confirmed before. |
| `RegionWrites.ConfirmationTells` | src/application/editing/service.py:707-719 | Confirmation makes a non-blank edited text final and leaves a text with a blank one as it is. |
| `RegionWrites.OcrLeavesTranslations` | src/domain/regions/entities.py:154-163 | In every reachable state a new recognition changes the recognized text and nothing else. |
| `RegionWrites.RestoreAppendsCopy` | src/application/editing/service.py:734-784 | A restore appends one revision with the old snapshot and its provenance, and keeps the history before it. |
| `RegionWrites.RestoreIsUndoneByRestore` | src/application/editing/service.py:734-784 | Restoring the number that was current before a restore gives back exactly the state before it. |
| `RegionWrites.RestoreOfUnknownNumber` | src/application/editing/service.py:752-754 | A number outside 1 to n is refused. |
| `RegionAnswers.RestoreAnswers` | src/application/editing/service.py:734-784 | In every reachable state a restore is refused as stale if and only if it expects a number and it is not that of the current revision, for want of the revision if and only if it is not stale and the number is unknown; else the write is spelt out: the named snapshot, its provenance, the current revision and the locks as expectation. |
| `RegionAnswers.RestoreLeaves` | src/application/editing/service.py:734-784 | Expecting the current number appends the copy and makes it current; expecting any other number leaves all as it was. |
| `RegionAnswers.SetTypeAnswers` | src/application/editing/service.py:338-358 | A retype is refused as stale if and only if it expects a number and it is not that of the current revision; else type and the policy of the type are written, under the current revision where one was expected. |
| `RegionAnswers.MachineAnswers` | src/application/editing/service.py:655-677 | A machine translation is refused as stale if and only if it expects another revision than the current one, as locked if and only if it is not stale and text or region is locked. |
| `RegionAnswers.SeamAnswers` | src/application/editing/service.py:106-163 | The answer of the seam: missing region, then another revision, then other locks, each exactly then; else the next number, and the revision is the newest and current one of its region with nothing else changed. |
| `RegionAnswers.MachineTranslationTells` | src/domain/regions/entities.py:140-170 | After an accepted machine translation it is the machine text, and the final text unless a confirmed non-blank edited one is; a blank one with none leaves no final text. All else of the text is as before, recorded by one machine revision to be reviewed. |
| `RegionAnswers.ManualSaveTells` | src/domain/regions/entities.py:172-178 | After a manual save the edited text is set, marked as manual and locked; the final text is the edited one if an earlier one was confirmed and it is not blank, else the machine text unless blank; recognized and machine text stay. |
| `RegionAnswers.ConfirmationLeaves` | src/application/editing/service.py:707-719 | A confirmation sets the flag exactly for a non-blank edited text and resolves the final text anew, in one confirmed user revision. |
| `RegionAnswers.RecognitionLeaves` | src/domain/regions/entities.py:154-163 | A recognition sets the recognized text and resolves the final text anew, in one machine revision to be reviewed. |
| `RegionAnswers.OtherRequestsLeave` | src/application/editing/service.py:468-489 | A geometry save, a retype and a move change what they name and record it as one unreviewed user revision. |
| `RegionAnswers.PinTells` | src/application/editing/service.py:786-789 | Pinning sets the mark of the revision with that number and touches no other revision, no state and no other region. |
| `RegionOrder.ReorderingListsAsAsked` | src/application/editing/service.py:589-608 | For a permutation of a page's live regions that order is the listing and the only one; each region that stood elsewhere gains exactly one revision, nothing else changes. |
| `RegionOrder.ListingIsTheOrder` | src/application/editing/service.py:294-296 | Regions with positions 1 to n have one listing only. |
| `RegionMerge.MergedKeepsWhatItReplaces` | src/application/editing/service.py:491-546 | The merged region is protected exactly when a source is and then holds every edited text; it covers every source, takes the first position, and keeps all recognized and machine text. |
| `RegionMerge.MergedJoinsInOrder` | src/application/editing/service.py:513-532 | The merged texts are the non-empty ones in the order of the ids with one space between, the polygons follow in that order, type and policy are those of the first, style and locks start anew, and the machine text is final unless blank. |
| `RegionMerge.PartsHandOnProtection` | src/application/editing/service.py:562-577 | A part has type, policy, recognized text and both protections of the whole, its own geometry and place, and no translation, style or lock. |
| `RegionMerge.CoveringIsSmallest` | src/domain/regions/entities.py:75-84 | The covering box holds both boxes, is inside any box that does, and stays non-empty. |
| `RegionMerge.SplitLeaves` | src/application/editing/service.py:548-583 | After a split each part is live on the page of the whole with its own geometry and place in the order, one revision and both protection flags; the whole is deleted with its history unchanged; every other region is untouched. |
| `RegionMerge.MergeLeaves` | src/application/editing/service.py:534-546 | After a merge the merged region is live on the page with one revision; its sources, and they alone, are deleted with their histories unchanged; every other region is untouched. |
| `RegionService.Service.CommitRegionRevision` | src/application/editing/service.py:106-163 | Missing region, other revision, other locks: in this order nothing is written. Otherwise the next number, the staged state and the new current id are stored together, and the staged object has the id too. |
| `RegionService.Service.Submit` | src/application/editing/service.py:217-260 | Committing the staged object and copying it back onto the stored one leaves exactly the committed store. |
| `RegionService.Service.SaveGeometry` | src/application/editing/service.py:468-489 | Stores one user revision that differs from the current state in the geometry, if the expected revision is current; a missing or deleted region and a failed guard change nothing. |
| `RegionService.Service.SetRegionType` | src/application/editing/service.py:307-383 | Stores one user revision with the new type and the policy it allows; an unknown or outdated expected number is refused before anything is written. |
| `RegionService.Service.ApplyMachineTranslation` | src/application/editing/service.py:647-695 | An outdated expectation is refused first, a locked text or region next; else one machine revision with the translation, guarded by expectation and region locks. |
| `RegionService.Service.ApplyOcrResult` | src/application/editing/service.py:619-645 | Stores one machine revision with the recognized text, with no guard even where the caller names an expectation. |
| `RegionService.Service.SaveManualTranslation` | src/application/editing/service.py:697-705 | Stores one user revision whose text is edited, marked as manual and locked. |
| `RegionService.Service.ConfirmFinal` | src/application/editing/service.py:707-719 | Stores one confirmed user revision; only a non-blank edited text is marked as confirmed. |
| `RegionService.Service.RestoreRevision` | src/application/editing/service.py:734-784 | Stores one copy of the named revision with its provenance, guarded by the current id and the region locks it has read; unknown numbers and outdated expectations are refused. |
| `RegionService.Service.ReorderRegions` | src/application/editing/service.py:589-608 | If every id is a live region of the page the regions are moved in turn, else nothing changes. |
| `RegionService.Service.MergeRegions` | src/application/editing/service.py:491-546 | With two or more live regions of the page the merged region is created and the sources are deleted, else nothing changes. |
| `RegionService.Service.SplitRegion` | src/application/editing/service.py:548-583 | With two or more parts of a live region all parts are created from it and it is deleted, else nothing changes. |
| `RegionService.Service.NextOrder` | src/application/editing/service.py:272-274 | One more than the highest live position of the page, or one. |
| `RegionService.Service.CreateRegion` | src/application/editing/service.py:262-289 | The region is stored with type, geometry and policy as given, empty text, no style and no lock, and one unreviewed revision of the given origin, at the given position or right after the last live region of the page; no other region changes. |
| `RegionService.Service.CreateWith` | src/application/editing/service.py:262-289 | A region enters the store together with its first revision. |
| `RegionService.RegionObject.RestoreFromSnapshot` | src/domain/regions/entities.py:267-311 | Taking and restoring a snapshot are inverse; current revision and deletion are not part of it. |
| `RegionCanvas.PixelsInRange` | src/application/editing/region_canvas.py:40-41 | Pixels lie in 0 to size. |
| `RegionCanvas.PixelsMonotone` | src/application/editing/region_canvas.py:40-41 | Pixel rounding is monotone. |
| `RegionCanvas.PixelsWithinHalf` | src/application/editing/region_canvas.py:40-41 | On the page a pixel is within half a pixel of the exact place; ties go up. |
| `RegionCanvas.PixelsInverse` | src/application/editing/region_canvas.py:102-118 | Every pixel comes back from its normalized place. |
| `RegionCanvas.TwiceArea` | src/application/editing/region_canvas.py:44-58 | The loop computes the absolute shoelace sum. |
| `RegionCanvas.AnyRotationKeepsArea` | src/application/editing/region_canvas.py:53-58 | The area does not depend on where the ring starts. |
| `RegionCanvas.ReversalKeepsArea` | src/application/editing/region_canvas.py:53-58 | It does not depend on the direction. |
| `RegionCanvas.TranslationKeepsArea` | src/application/editing/region_canvas.py:53-58 | It does not depend on the position. |
| `RegionCanvas.RectangleArea` | src/application/editing/region_canvas.py:61-64 | On a rectangle ring it is twice width times height. |
| `RegionCanvas.AreaBound` | src/application/editing/region_canvas.py:44-58 | On a page of size W by H a ring of n points has at most n times W times H. |
| `RegionCanvas.AreaMeansExtent` | src/application/editing/region_canvas.py:88-99 | A ring with area has positive width and height, so no degenerate box is built. |
| `RegionCanvas.AcceptedShapes` | src/application/editing/region_canvas.py:67-99 | An accepted shape lies on the page, has at least three corners, and its box is its exact, non-empty extent. |
| `RegionCanvas.RoundTrip` | src/application/editing/region_canvas.py:102-144 | Reading an accepted shape back and converting its polygon again gives the same box and polygon. |
| `RegionCanvas.TwoPointsRefusedExactlyWhen` | src/application/editing/region_canvas.py:86-97 | Two points are refused exactly when they share a pixel column or row. |
| `RegionCanvas.RefusedExactlyWhen` | src/application/editing/region_canvas.py:80-97 | A page without extent is refused first, then fewer than two points; three or more points are accepted if and only if their pixels enclose an area, and are then these pixels in their order. |
| `RegionCanvas.TwoPointsMakeRectangle` | src/application/editing/region_canvas.py:61-64 | Two points become the box between them and its four corners, clockwise from the top left. |
| `RegionCanvas.NormalizedIsExact` | src/application/editing/region_canvas.py:102-144 | Reading back a stored shape divides box and corners by the page exactly; a page without extent is refused. |
| `RegionCanvas.PolygonKeptAsGiven` | src/application/editing/region_canvas.py:86-88 | A polygon is kept corner by corner, each within half a pixel. |
| `RegionCanvas.AnyDiagonal` | src/application/editing/region_canvas.py:72-75 | Two points give the same ring in any corner order. |
| `Cleanup.SafeNeverLeavesCache` | src/application/maintenance/cleanup.py:229-258 | No step of the walk along a safe path ever stands outside the cache directory. |
| `Cleanup.SafeExactlyWhenNeverUp` | src/application/maintenance/cleanup.py:249-258 | Below the prefix a path is safe exactly when no step of the walk goes up. |
| `Cleanup.JoinUndoesSplit` | src/application/maintenance/cleanup.py:229-258 | Splitting a path at its slashes loses nothing and leaves no slash in a component. |
| `Cleanup.NormalizeIs` | src/application/maintenance/cleanup.py:229-258 | Backslashes become slashes and nothing else changes. |
| `Cleanup.OwedIs` | src/application/maintenance/cleanup.py:204-226 | The list owed afterwards holds exactly what was owed or has failed and is not settled, once each, in order of first appearance. |
| `Cleanup.RetryOwesTheLocked` | src/application/maintenance/cleanup.py:160-186 | After a retry exactly the safe paths that could not be removed are owed. |
| `Cleanup.TrashLeavesCleanups` | src/application/maintenance/trash.py:294-310 | No run of trash calls changes the pending cleanups while the manifest is not lost. |
| `Cleanup.CleanupService.Preview` | src/application/maintenance/cleanup.py:127-131 | The safe targets of the inventory in their order, with the sum of their sizes. |
| `Cleanup.CleanupService.Run` | src/application/maintenance/cleanup.py:133-158 | One result for each path in order, none twice, skipped exactly when unsafe and failed exactly when safe and stuck; exactly the safe paths reach the remover, exactly those not stuck are gone. Owed afterwards are exactly the paths owed before or stuck now, without those gone now, once each, the old ones first in their order, then the new ones ascending; all else of the manifest is kept. |
| `Cleanup.CleanupService.RetryPendingCleanups` | src/application/maintenance/cleanup.py:160-186 | One result for each owed path; unsafe ones never reach the remover; exactly the safe and stuck ones stay owed, once each in their order; all else of the manifest kept. |
| `Cleanup.CleanupService.RecordPending` | src/application/maintenance/cleanup.py:204-226 | The merging loop computes the list owed afterwards. |
| `Settings.EveryRunIsIntact` | src/bootstrap/settings_commands.py:590-682 | Over every sequence of commands in changing surroundings each binding names an existing provider, each provider and the default an existing network profile, and no scope and capability is bound twice. |
| `Settings.DeletionsRefusedExactlyWhenTheyBreak` | src/bootstrap/settings_commands.py:201-214 | A deletion of something no protected run uses is refused if and only if it would break a reference. |
| `Settings.BindingsAnswerByKey` | src/bootstrap/settings_commands.py:655-682 | Setting and clearing change the answer at their own scope and capability and at no other. |
| `Settings.WithoutInOrder` | src/bootstrap/settings_commands.py:663-666 | Taking out the rows of a key keeps all others in their order. |
| `Settings.ResolvesToNarrowest` | src/bootstrap/settings_commands.py:1044-1060 | The answer is the binding of the first wanted scope that has one. |
| `Settings.NarrowestFirst` | src/bootstrap/settings_commands.py:1048-1053 | Chapter before book before global. |
| `Settings.ClearingRestoresTheWiderScope` | src/bootstrap/settings_commands.py:672-682 | Clearing a chapter gives what its book resolves to, clearing a book what is global. |
| `Settings.ClearUndoesSet` | src/bootstrap/settings_commands.py:655-682 | Setting an unbound key and clearing it leaves every resolution as it was. |
| `Settings.ResolutionFailsExactlyWhen` | src/bootstrap/settings_commands.py:1033-1042 | In every run a resolution in a good context fails if and only if the narrowest bound profile is disabled or lost the capability; it does not fall back. |
| `Settings.UpdateLeaves` | src/bootstrap/settings_commands.py:613-640 | An accepted update takes name, capabilities, endpoint, model, network and switch as given, keeps the kind, and leaves every other profile and store alone. |
| `Settings.DisablingConflicts` | src/bootstrap/settings_commands.py:1033-1060 | An update that disables a profile makes every resolution through it a conflict and changes no other resolution. |
| `Settings.CommandsLeave` | src/bootstrap/settings_commands.py:139-222 | What every other accepted command leaves in each of the four stores. |
| `Settings.AcceptedExactlyWhen` | src/bootstrap/settings_commands.py:590-682 | When each command is accepted in intact stores, and for what it is refused otherwise. |
| `Settings.ContextAnswers` | src/bootstrap/settings_commands.py:1101-1132 | A refused context is a conflict exactly when a live book is named with a live chapter of another book, and not found otherwise. |
| `Settings.ClearedExactlyWhenLive` | src/bootstrap/settings_commands.py:672-682 | In intact stores clearing removes a binding if and only if its scope is live. |
| `Settings.ReplacedExactlyWhenLive` | src/bootstrap/settings_commands.py:655-670 | Setting another profile replaces a binding if and only if its scope is live and that profile can serve; otherwise the old one stays. |
| `Settings.BindingOutlivesItsScope` | src/bootstrap/settings_commands.py:1094-1132 | While its scope is gone, be it the book, the chapter or the chapter's book, no sequence of commands takes a binding away or deletes its profile. |
| `Settings.StaleBindingsHappen` | src/bootstrap/settings_commands.py:642-682 | From the empty stores every binding of a live scope is reached, and once its scope is gone it stays through any commands. |
| `Settings.GoneScopes` | src/bootstrap/settings_commands.py:1101-1132 | The global scope is always live; a book scope is gone exactly with its book, a chapter scope exactly with its chapter or the book of its chapter. |
| `Settings.ContextIsConsistent` | src/bootstrap/settings_commands.py:1101-1132 | A context is accepted exactly when what it names is live and fits together. |
| `Settings.SettingsStores.ProfilesDelete` | src/bootstrap/settings_commands.py:642-653 | A provider is deleted only if no row binds it and no protected run uses it; the scan over the rows finds every binding. |
| `Settings.SettingsStores.ProfilesUpdate` | src/bootstrap/settings_commands.py:613-640 | Only an existing provider with capabilities and an existing network profile is replaced; its kind stays. |
| `Settings.SettingsStores.NetworkProfilesDelete` | src/bootstrap/settings_commands.py:201-214 | A network profile is deleted only if it is neither the default nor used by a provider or a protected run. |
| `Settings.SettingsStores.NetworkDefaultSet` | src/bootstrap/settings_commands.py:216-222 | Only an existing network profile becomes the default. |
| `Settings.SettingsStores.BindingsSet` | src/bootstrap/settings_commands.py:655-670 | In a live scope a usable profile replaces the row of its scope and capability; the other rows keep their order. |
| `Settings.SettingsStores.BindingsClear` | src/bootstrap/settings_commands.py:672-682 | In a live scope the row of the scope and capability goes; the other rows keep their order. |
| `Diagnostics.RedactMapping` | src/application/maintenance/diagnostics.py:76-88 | One field for each entry in key order, all keys different, each the redacted key or its first free numbered variant, whatever keys there are. |
| `Diagnostics.FreeKey` | src/application/maintenance/diagnostics.py:82-86 | The search for a free variant ends and finds the first one. |
| `Decimal.NumberedNamesCount` | src/application/maintenance/diagnostics.py:84-85 | A run of numbered names inside a finite set is no longer than the set, which is why both searches end. |
| `Decimal.NumeralReadsBack` | src/application/maintenance/diagnostics.py:84-86 | A generated number reads back as the number, in digits only and without a leading zero. |
| `Sorting.Sorted` | src/application/maintenance/diagnostics.py:79-79 | All names, each once, ascending. |
| `Sorting.LessExactlyWhen` | src/application/maintenance/diagnostics.py:79-79 | One name is before another exactly when at the first difference it ends or has the smaller character. |
| `PdfImport.Entries` | src/bootstrap/core_service.py:2784-2826 | One entry for each index in order; duplicate exactly when the hash was there before or on an earlier page; the file's reason goes to the first unaccounted page. |
| `PdfImport.ImportResult` | src/bootstrap/core_service.py:2762-2858 | The outcome is imported exactly when there is a page and all pages are imported; pages were committed exactly when one is imported. |
| `PdfImport.WholeTells` | src/bootstrap/core_service.py:2832-2848 | Each outcome of the document in terms of its entries. |

## Left out

Assumptions of the model:

- ids, revision ids, batch ids and the random parts of temporary names never repeat; purged page ids and paths are not reused.
- SHA-256 is injective; a store write or a replace happens or raises without effect; removing a staging file succeeds.
- Only the export runtime writes target paths.
- Every page row has a managed original; a path belongs to one page.
- Time stamps are numbers; formatting and clocks are parameters.
- In runs over regions a region and its first revision appear in one step, each part of a split is made from the whole as it is at that moment, a merge from its sources at one moment, and deletions are steps of their own.
- In runs over the trash one operation is under way at a time, except for imports and new assets, which may come between any two of its calls; reading the files of a batch and recording them is one call. The list of batches can be lost alone, which is more than the code allows.

Contracts that say less than the code does:

- Runtime.ReconcileSettle: paths of history rows are compared as they are, without the case folding of the platform.
- Exporter.Export: whether a request is valid and passes its stale policy is a parameter; removing a temporary file succeeds, and nobody else writes files between the choice of a free name and the replace.
- TrashService.RemovePendingTargets: targets are a set, so which file of a list is tried first is not modelled; the same holds for the page ids of a batch.
- Service.SaveGeometry: nobody writes between its reading and its commit; that case is RegionWrites.GuardedWritesAreAtomic.
- Blank: knows four white-space characters, not all of Unicode.
- PixelsWithinHalf: over exact reals; rounding of binary floating point is not modelled.
- PixelsInverse: the same holds for the quotient it starts from.
- Normalize: components are compared after splitting at slashes; drive letters and links belong to the remover.
- RedactMapping: which keys and values are masked is a parameter.
- ImportResult: what the decoder and the importer report is input; an unexpected exception is not modelled.
- AnswerTo: malformed payloads, endpoints and credentials are checked elsewhere and not modelled; surroundings are a parameter of each command.

Not modelled at all:

- Rendering, decoding, detectors, SQL text and migrations, Qt and HTTP.
- The JSON dispatch of the core service and its error envelopes.
- The fields of history rows beyond id, status, path, digest and time; event sinks and plugin hooks. In runs of the state machine the history store may answer anything.
- Editing sessions that stage several edits: they call the modelled requests one by one.
- Run snapshots of settings and the network test, which only read.
- Credential handling and the strength of redaction.
- The image import result, the reading and library services, which add only table look-ups.
