/** Writes that carry an expectation are as good as atomic; what the others may overwrite. */
module RegionWrites {
  import opened Options
  import opened RegionModel
  import opened RegionHistory

  /** The id is that of a revision the region has. */
  ghost predicate Names(s: Store, id: RegionId, rid: RevisionId) {
    exists rev :: rev in History(s, id) && rev.id == rid
  }

  /** The request says what it expects to find: a restore always does. */
  ghost predicate Guarded(s: Store, r: Request) {
    match r
    case SaveGeometry(id, _, expected) => expected.Some? && Names(s, id, expected.value)
    case SetType(_, _, _, expectedNo) => expectedNo.Some?
    case ApplyMachine(_, _, expected) => expected.Some?
    case Restore(_, _, _) => true
    case _ => false
  }

  /** Read and write in one step, deleted or not. */
  function Atomically(s: Store, r: Request, rid: RevisionId): Store {
    if r.id !in s.regions then s
    else
      var plan := PlanFor(s.regions[r.id], History(s, r.id), r, rid);
      if plan.Go? then Commit(s, plan.write) else s
  }

  // ------------------------------------------------------- histories that differ in pins only

  ghost predicate SameHistory(h: seq<Revision>, h': seq<Revision>) {
    |h| == |h'| && forall i :: 0 <= i < |h| ==> SameButPin(h[i], h'[i])
  }

  ghost predicate SameFound(a: Option<Revision>, b: Option<Revision>) {
    (a.None? && b.None?) || (a.Some? && b.Some? && SameButPin(a.value, b.value))
  }

  lemma {:induction false} SameLookups(h: seq<Revision>, h': seq<Revision>, no: nat, rid: RevisionId)
    requires SameHistory(h, h')
    ensures SameFound(WithNo(h, no), WithNo(h', no)) && SameFound(WithId(h, rid), WithId(h', rid))
  {
    if |h| > 0 {
      assert SameButPin(h[0], h'[0]);
      forall i | 0 <= i < |h| - 1 ensures SameButPin(h[1..][i], h'[1..][i]) {
        assert SameButPin(h[i + 1], h'[i + 1]);
      }
      SameLookups(h[1..], h'[1..], no, rid);
    }
  }

  lemma SamePlan(a: Region, a': Region, h: seq<Revision>, h': seq<Revision>, r: Request, rid: RevisionId)
    requires a.state == a'.state && a.current == a'.current && SameHistory(h, h')
    ensures PlanFor(a, h, r, rid) == PlanFor(a', h', r, rid)
  {
    if r.SetType? && r.expectedNo.Some? {
      SameLookups(h, h', r.expectedNo.value, "");
    } else if r.Restore? && a.current.Some? {
      SameLookups(h, h', r.no, a.current.value);
    }
  }

  // ------------------------------------------------------- planned writes keep

  /** A planned write that is still planned later is the same write. */
  lemma {:induction false} PlannedStays(y: System, steps: seq<Step>, rid: RevisionId)
    requires rid in y.home
    ensures rid in Run(y, steps).planned ==> rid in y.planned && Run(y, steps).planned[rid] == y.planned[rid]
    decreases |steps|
  {
    if |steps| > 0 {
      PlannedStays(Do(y, steps[0]), steps[1..], rid);
    }
  }

  lemma {:induction false} WithIdComesFrom(h: seq<Revision>, rid: RevisionId)
    ensures WithId(h, rid).Some? ==> WithId(h, rid).value in h && WithId(h, rid).value.id == rid
  {
    if |h| > 0 {
      WithIdComesFrom(h[1..], rid);
    }
  }

  /** A guarded write expects a revision that the region has when it is planned. */
  lemma PlanNamesRevision(s: Store, r: Request, rid: RevisionId)
    requires Guarded(s, r) && PlanOn(s, r, rid).Go?
    requires s.regions[r.id].current.Some? && Names(s, r.id, s.regions[r.id].current.value)
    ensures var w := PlanOn(s, r, rid).write; w.region == r.id && w.expected.Some? && Names(s, r.id, w.expected.value)
  {
    var h := History(s, r.id);
    if r.SetType? {
      WithNoComesFrom(h, r.expectedNo.value);
    } else if r.Restore? {
      WithIdComesFrom(h, s.regions[r.id].current.value);
    }
  }

  /** If the current revision is one that was there before, nothing has been committed in between. */
  lemma CurrentRevisionTells(y: System, y': System, id: RegionId, rid: RevisionId)
    requires Inv(y) && Inv(y') && Grows(y.store, y'.store)
    requires id in y.store.regions && Names(y.store, id, rid)
    requires id in y'.store.regions && y'.store.regions[id].current == Some(rid)
    ensures SameHistory(History(y.store, id), History(y'.store, id))
    ensures y.store.regions[id].state == y'.store.regions[id].state
    ensures y.store.regions[id].current == y'.store.regions[id].current
  {
    assert RegionFits(y, id) && RegionFits(y', id) && RegionGrows(y.store, y'.store, id);
    var h, h' := y.store.history[id], y'.store.history[id];
    var i :| 0 <= i < |h| && h[i].id == rid;
    assert SameButPin(h[i], h'[i]);
    assert RevisionFits(y', id, i) && RevisionFits(y', id, |h'| - 1);
    assert i == |h| - 1 == |h'| - 1;
  }

  // ------------------------------------------------------- guarded writes

  /** The request was planned at `y0`; after any steps of others its write is about to be committed at `y1`. */
  ghost predicate Waiting(y0: System, r: Request, rid: RevisionId, steps: seq<Step>, y1: System) {
    Inv(y0) && rid !in y0.home && PlanOn(y0.store, r, rid).Go?
    && y1 == Run(Begun(y0, r, rid), steps) && rid in y1.planned
  }

  ghost predicate Succeeds(y: System, rid: RevisionId) {
    rid in y.planned && CommitStatus(y.store, y.planned[rid]).Applied?
  }

  lemma CommitTells(y0: System, r: Request, rid: RevisionId, steps: seq<Step>, y1: System)
    requires Waiting(y0, r, rid, steps, y1) && Guarded(y0.store, r)
    requires Succeeds(y1, rid)
    ensures r.id in y1.store.regions
    ensures PlanFor(y1.store.regions[r.id], History(y1.store, r.id), r, rid) == Go(y1.planned[rid])
  {
    var y := Begun(y0, r, rid);
    BeginKeeps(y0, r, rid);
    RunKeeps(y, steps);
    RunGrows(y, steps);
    PlannedStays(y, steps, rid);
    assert RegionFits(y0, r.id) && RegionFits(y1, r.id);
    var h := y0.store.history[r.id];
    assert h[|h| - 1] in h;
    PlanNamesRevision(y0.store, r, rid);
    var w := y1.planned[rid];
    CurrentRevisionTells(y, y1, r.id, w.expected.value);
    SamePlan(y0.store.regions[r.id], y1.store.regions[r.id], h, History(y1.store, r.id), r, rid);
  }

  /**
   However many others write in between, a guarded write that is applied is what reading and writing in one step at
   that moment would have been; a guarded write that is not applied changes nothing.
   */
  lemma GuardedWritesAreAtomic(y0: System, r: Request, rid: RevisionId, steps: seq<Step>, y1: System)
    requires Waiting(y0, r, rid, steps, y1) && Guarded(y0.store, r)
    ensures Finished(y1, rid).store ==
            if Succeeds(y1, rid) then Atomically(y1.store, r, rid) else y1.store
  {
    if Succeeds(y1, rid) {
      CommitTells(y0, r, rid, steps, y1);
    }
  }

  /**
   An applied guarded write is what the request would come to now, exactly when the region was not deleted
   meanwhile.
   */
  lemma GuardedWritesMissDeletion(y0: System, r: Request, rid: RevisionId, steps: seq<Step>, y1: System)
    requires Waiting(y0, r, rid, steps, y1) && Guarded(y0.store, r)
    requires Succeeds(y1, rid)
    ensures r.id in y1.store.regions
    ensures PlanOn(y1.store, r, rid) == Go(y1.planned[rid]) <==> !y1.store.regions[r.id].deleted
  {
    CommitTells(y0, r, rid, steps, y1);
  }

  /** So a guarded write does reach a region that was deleted between its reading and its commit, any live region. */
  lemma DeletedRegionIsWritten(y: System, id: RegionId, geometry: Geometry, rid: RevisionId, y1: System)
    requires Inv(y) && Live(y.store, id) && rid !in y.home
    requires y1 == Next(Begun(y, SaveGeometry(id, geometry, y.store.regions[id].current), rid), DeleteRegion(id))
    ensures Guarded(y.store, SaveGeometry(id, geometry, y.store.regions[id].current)) && Succeeds(y1, rid)
    ensures y1.store.regions[id].deleted && Finished(y1, rid).store.regions[id].deleted
    ensures Finished(y1, rid).store.regions[id].state == y.store.regions[id].state.(geometry := geometry)
    ensures Finished(y1, rid).store.regions[id].current == Some(rid)
  {
    assert RegionFits(y, id);
    var h := y.store.history[id];
    assert h[|h| - 1] in h;
  }

  /** A guarded retype leaves all but type and policy of the region as the commit finds them. */
  lemma GuardedRetypeKeepsTheRest(y0: System, r: Request, rid: RevisionId, steps: seq<Step>, y1: System)
    requires Waiting(y0, r, rid, steps, y1) && r.SetType? && r.expectedNo.Some?
    requires Succeeds(y1, rid)
    ensures r.id in y1.store.regions
    ensures var before, after := y1.store.regions[r.id].state, Finished(y1, rid).store.regions[r.id].state;
            after == before.(kind := after.kind, policy := after.policy)
            && after.kind == r.kind && (!after.kind.Sfx? ==> after.policy.Skip?)
            && (after.kind.Sfx? ==> after.policy == r.global)
  {
    CommitTells(y0, r, rid, steps, y1);
  }

  // ------------------------------------------------------- machine writes and manual text

  /** A machine translation that says what it expects never touches a region whose text is locked when it commits. */
  lemma GuardedMachineSparesLockedText(
    y0: System, id: RegionId, text: string, expected: RevisionId, rid: RevisionId, steps: seq<Step>, y1: System)
    requires Waiting(y0, ApplyMachine(id, text, Some(expected)), rid, steps, y1)
    requires id in y1.store.regions && y1.store.regions[id].state.text.locked
    ensures Finished(y1, rid).store == y1.store
  {
    var r := ApplyMachine(id, text, Some(expected));
    if Succeeds(y1, rid) {
      CommitTells(y0, r, rid, steps, y1);
      assert false;
    }
  }

  /** In particular none that was ever edited by hand. */
  lemma GuardedMachineSparesManualText(
    before: seq<Step>, id: RegionId, text: string, expected: RevisionId, rid: RevisionId, steps: seq<Step>,
    y0: System, y1: System)
    requires y0 == Run(EMPTY, before) && Waiting(y0, ApplyMachine(id, text, Some(expected)), rid, steps, y1)
    requires id in y1.store.regions && y1.store.regions[id].state.text.manual
    ensures Finished(y1, rid).store == y1.store
  {
    var r := ApplyMachine(id, text, Some(expected));
    EmptyFits();
    RunSound(EMPTY, false, before);
    BeginKeeps(y0, r, rid);
    BeginSound(y0, false, r, rid);
    RunSound(Begun(y0, r, rid), false, steps);
    StateSound(y1, false, id);
    GuardedMachineSparesLockedText(y0, id, text, expected, rid, steps, y1);
  }

  /**
   A machine translation without an expectation leaves the region it meets alone exactly when one of the region's own
   locks has changed since it was planned: the lock of the text is not among them.
   */
  lemma UnguardedMachineSparesExactlyWhen(
      y0: System, id: RegionId, text: string, rid: RevisionId, steps: seq<Step>, y1: System)
    requires Waiting(y0, ApplyMachine(id, text, None), rid, steps, y1)
    ensures id in y1.store.regions
    ensures Finished(y1, rid).store == y1.store <==>
              y1.store.regions[id].state.locks != y0.store.regions[id].state.locks
  {
    var r := ApplyMachine(id, text, None);
    var y := Begun(y0, r, rid);
    BeginKeeps(y0, r, rid);
    RunKeeps(y, steps);
    PlannedStays(y, steps, rid);
    assert PlannedFits(y1, rid) && RegionFits(y1, id);
    var h := y1.store.history[id];
    assert RevisionFits(y1, id, |h| - 1);
  }

  /** In every run from the empty repository such a translation is applied, whatever it meets. */
  lemma UnguardedMachineIsAlwaysApplied(
    before: seq<Step>, y0: System, id: RegionId, text: string, rid: RevisionId, steps: seq<Step>, y1: System)
    requires y0 == Run(EMPTY, before) && Waiting(y0, ApplyMachine(id, text, None), rid, steps, y1)
    ensures Succeeds(y1, rid)
  {
    var r := ApplyMachine(id, text, None);
    EmptyFits();
    RunSound(EMPTY, false, before);
    BeginSound(y0, false, r, rid);
    BeginKeeps(y0, r, rid);
    RunSound(Begun(y0, r, rid), false, steps);
    PlannedStays(Begun(y0, r, rid), steps, rid);
    assert PlannedSound(y1, false, rid) && PlannedFits(y1, rid);
    StateSound(y1, false, id);
  }

  /** The run that loses a manual save: it lands between the reading and the writing of a machine translation. */
  lemma ManualSaveOverwritten(
    y: System, id: RegionId, text: string, edited: string, a: RevisionId, b: RevisionId, y1: System, y2: System)
    requires Inv(y) && Live(y.store, id) && a != b && a !in y.home && b !in y.home
    requires !y.store.regions[id].state.text.locked && !y.store.regions[id].state.locks.region
    requires y1 == Finished(Begun(Begun(y, ApplyMachine(id, text, None), a), SaveManual(id, edited), b), b)
    requires y2 == Finished(y1, a)
    ensures y1.store.regions[id].state.text.manual && y1.store.regions[id].state.text.edited == edited
    ensures var state := y.store.regions[id].state;
            y2.store.regions[id].state == state.(text := Refresh(state.text.(machine := text)))
  {
  }

  /**
   A manual save that is not confirmed again waits to become final exactly when the text is blank or no earlier text
   of the region was ever confirmed: saving does not take the confirmation back.
   */
  lemma ManualSaveWaitsExactlyWhen(t: Text, edited: string)
    ensures !Arm(t, edited).source.FromEdited? <==> Blank(edited) || !t.confirmed
    ensures Arm(t, edited).source.FromEdited? ==> Arm(t, edited).final == edited
  {
  }

  /** Confirming makes a non-blank edited text final; with a blank one it leaves a sound text as it is. */
  lemma ConfirmationTells(t: Text)
    requires TextSound(t)
    ensures !Blank(t.edited) ==> ConfirmedText(t).final == t.edited && ConfirmedText(t).source == FromEdited
    ensures Blank(t.edited) ==> ConfirmedText(t) == t
  {
  }

  // ------------------------------------------------------- restore

  /** A request carried out with nobody in between. */
  function Alone(y: System, r: Request, rid: RevisionId): System {
    if rid in Begun(y, r, rid).planned then Finished(Begun(y, r, rid), rid) else Begun(y, r, rid)
  }

  lemma {:induction false} WithIdIs(h: seq<Revision>, k: nat)
    requires k < |h| && forall i :: 0 <= i < k ==> h[i].id != h[k].id
    ensures WithId(h, h[k].id) == Some(h[k])
  {
    if k > 0 {
      assert h[0].id != h[k].id;
      assert h[1..][k - 1] == h[k];
      forall i | 0 <= i < k - 1 ensures h[1..][i].id != h[1..][k - 1].id {
        assert h[i + 1].id != h[k].id;
      }
      WithIdIs(h[1..], k - 1);
    }
  }

  lemma RestorePlan(y: System, id: RegionId, no: nat, rid: RevisionId)
    requires Inv(y) && Live(y.store, id) && 1 <= no <= |History(y.store, id)|
    ensures var h := History(y.store, id);
            PlanOn(y.store, Restore(id, no, None), rid) ==
            Go(Write(id, Revision(rid, 0, h[no - 1].snapshot, RestoredCopy, NeedsReview, false, Some(h[no - 1].id)),
                     Some(h[|h| - 1].id), Some(y.store.regions[id].state.locks)))
  {
    WellRecordedFrom(y, id);
    var h := History(y.store, id);
    WithNoIs(h, 0, no);
    WithIdIs(h, |h| - 1);
    assert WithId(h, h[|h| - 1].id) == Some(h[|h| - 1]);
  }

  /** The restored copy is a new revision that says where it comes from; the history before it is untouched. */
  lemma RestoreAppendsCopy(y: System, id: RegionId, no: nat, rid: RevisionId)
    requires Inv(y) && Live(y.store, id) && rid !in y.home && 1 <= no <= |History(y.store, id)|
    ensures var y' := Alone(y, Restore(id, no, None), rid); var h := History(y.store, id);
            Inv(y') && Live(y'.store, id)
            && y'.store.regions[id].state == h[no - 1].snapshot
            && History(y'.store, id) ==
               h + [Revision(rid, |h| + 1, h[no - 1].snapshot, RestoredCopy, NeedsReview, false, Some(h[no - 1].id))]
  {
    RestorePlan(y, id, no, rid);
    BeginKeeps(y, Restore(id, no, None), rid);
    FinishKeeps(Begun(y, Restore(id, no, None), rid), rid);
    WellRecordedFrom(y, id);
    MaxNoIs(History(y.store, id));
  }

  /** A number the region does not have is refused, and nothing changes. */
  lemma RestoreOfUnknownNumber(y: System, id: RegionId, no: nat, rid: RevisionId)
    requires Inv(y) && Live(y.store, id) && !(1 <= no <= |History(y.store, id)|)
    ensures PlanOn(y.store, Restore(id, no, None), rid) == Refuse(NoSuchRevision)
  {
    WellRecordedFrom(y, id);
    WithNoIs(History(y.store, id), 0, no);
  }

  /** Restoring what was current before a restore gives back exactly the state before it. */
  lemma RestoreIsUndoneByRestore(y: System, id: RegionId, no: nat, a: RevisionId, b: RevisionId)
    requires Inv(y) && Live(y.store, id) && a !in y.home && b !in y.home && a != b
    requires 1 <= no <= |History(y.store, id)|
    ensures var n := |History(y.store, id)|;
            Alone(Alone(y, Restore(id, no, None), a), Restore(id, n, None), b).store.regions[id].state ==
            y.store.regions[id].state
  {
    var y' := Alone(y, Restore(id, no, None), a);
    var n := |History(y.store, id)|;
    RestoreAppendsCopy(y, id, no, a);
    RestorePlan(y, id, no, a);
    assert History(y'.store, id)[n - 1] == History(y.store, id)[n - 1];
    RestoreAppendsCopy(y', id, n, b);
    assert RegionFits(y, id);
  }

  // ------------------------------------------------------- recognized text

  /** In every reachable state a new recognition changes the recognized text alone: every translation stays. */
  lemma OcrLeavesTranslations(steps: seq<Step>, y: System, id: RegionId, ocr: string, rid: RevisionId)
    requires y == Run(EMPTY, steps) && Live(y.store, id) && rid !in y.home
    ensures var before, after := y.store.regions[id].state, Alone(y, ApplyOcr(id, ocr), rid).store.regions[id].state;
            after == before.(text := before.text.(ocr := ocr))
  {
    EverySnapshotIsSound(false, steps, id);
  }
}
