/**
 What every reachable state of the regions keeps: complete histories, current revisions that resolve, protected
 manual text.
 */
module RegionHistory {
  import opened Options
  import opened RegionModel

  // ------------------------------------------------------- the invariant

  /** Revisions are numbered from one without gaps, and a revision id stands in one place only. */
  ghost predicate RevisionFits(y: System, id: RegionId, i: nat) {
    id in y.store.history && i < |y.store.history[id]| ==>
      var rev := y.store.history[id][i];
      rev.no == i + 1 && rev.id in y.home && y.home[rev.id] == Placed(id, i)
  }

  /** The newest revision is the current one, and the region's state is that revision's snapshot. */
  ghost predicate RegionFits(y: System, id: RegionId) {
    (id in y.store.regions <==> id in y.store.history)
    && (id in y.store.regions ==>
          var h := y.store.history[id];
          |h| > 0 && y.store.regions[id].current == Some(h[|h| - 1].id)
          && y.store.regions[id].state == h[|h| - 1].snapshot)
  }

  ghost predicate PlannedFits(y: System, rid: RevisionId) {
    rid in y.planned ==>
      y.planned[rid].revision.id == rid && rid in y.home && y.home[rid] == Held
      && y.planned[rid].region in y.store.regions
  }

  ghost predicate Inv(y: System) {
    (forall id, i: nat :: RevisionFits(y, id, i))
    && (forall id :: RegionFits(y, id))
    && forall rid :: PlannedFits(y, rid)
  }

  // ------------------------------------------------------- lists of revisions

  ghost predicate CountedUp(h: seq<Revision>) { forall i :: 0 <= i < |h| ==> h[i].no == i + 1 }

  lemma {:induction false} MaxNoBounds(h: seq<Revision>, from: nat)
    requires forall i :: 0 <= i < |h| ==> h[i].no == from + i + 1
    ensures MaxNo(h) == if |h| == 0 then 0 else from + |h|
  {
    if |h| > 0 {
      MaxNoBounds(h[1..], from + 1);
    }
  }

  lemma MaxNoIs(h: seq<Revision>)
    requires CountedUp(h)
    ensures MaxNo(h) == |h|
  {
    MaxNoBounds(h, 0);
  }

  lemma {:induction false} WithNoIs(h: seq<Revision>, from: nat, no: nat)
    requires forall i :: 0 <= i < |h| ==> h[i].no == from + i + 1
    ensures WithNo(h, no) == if from < no <= from + |h| then Some(h[no - from - 1]) else None
  {
    if |h| > 0 && h[0].no != no {
      WithNoIs(h[1..], from + 1, no);
    }
  }

  lemma {:induction false} PinnedIs(h: seq<Revision>, no: nat, pinned: bool)
    ensures |Pinned(h, no, pinned)| == |h|
    ensures forall i :: 0 <= i < |h| ==>
                          Pinned(h, no, pinned)[i] == if h[i].no == no then h[i].(pinned := pinned) else h[i]
  {
    if |h| > 0 {
      PinnedIs(h[1..], no, pinned);
    }
  }

  // ------------------------------------------------------- the steps

  lemma BornKeeps(y: System, id: RegionId, page: PageId, state: Snapshot, origin: Origin, rid: RevisionId)
    requires Inv(y) && id !in y.store.regions && rid !in y.home
    ensures Inv(Born(y, id, page, state, origin, rid))
  {
    var y' := Born(y, id, page, state, origin, rid);
    assert RegionFits(y, id);
    assert y'.store.history[id] == [Revision(rid, 1, state, origin, Unreviewed, false, None)];
    forall a, i: nat ensures RevisionFits(y', a, i) {
      assert RevisionFits(y, a, i);
    }
    forall a ensures RegionFits(y', a) {
      assert RegionFits(y, a);
    }
    forall a ensures PlannedFits(y', a) {
      assert PlannedFits(y, a);
    }
  }

  lemma FinishKeeps(y: System, rid: RevisionId)
    requires Inv(y) && rid in y.planned
    ensures Inv(Finished(y, rid))
  {
    var y' := Finished(y, rid);
    var id := y.planned[rid].region;
    assert PlannedFits(y, rid) && RegionFits(y, id);
    forall i | 0 <= i < |History(y.store, id)| ensures History(y.store, id)[i].no == i + 1 {
      assert RevisionFits(y, id, i);
    }
    MaxNoIs(History(y.store, id));
    forall a, i: nat ensures RevisionFits(y', a, i) {
      assert RevisionFits(y, a, i);
    }
    forall a ensures RegionFits(y', a) {
      assert RegionFits(y, a);
    }
    forall a ensures PlannedFits(y', a) {
      assert PlannedFits(y, a);
    }
  }

  lemma BeginKeeps(y: System, r: Request, rid: RevisionId)
    requires Inv(y) && rid !in y.home
    ensures Inv(Begun(y, r, rid))
  {
    var y' := Begun(y, r, rid);
    forall a, i: nat ensures RevisionFits(y', a, i) {
      assert RevisionFits(y, a, i);
    }
    forall a ensures RegionFits(y', a) {
      assert RegionFits(y, a);
    }
    forall a ensures PlannedFits(y', a) {
      assert PlannedFits(y, a);
    }
  }

  lemma DeleteKeeps(y: System, id: RegionId)
    requires Inv(y) && Live(y.store, id)
    ensures Inv(y.(store := Delete(y.store, id)))
  {
    var y' := y.(store := Delete(y.store, id));
    forall a, i: nat ensures RevisionFits(y', a, i) {
      assert RevisionFits(y, a, i);
    }
    forall a ensures RegionFits(y', a) {
      assert RegionFits(y, a);
    }
    forall a ensures PlannedFits(y', a) {
      assert PlannedFits(y, a);
    }
  }

  lemma PinKeeps(y: System, id: RegionId, no: nat, pinned: bool)
    requires Inv(y) && id in y.store.history
    ensures Inv(Next(y, PinRevision(id, no, pinned)))
  {
    var y' := Next(y, PinRevision(id, no, pinned));
    PinnedIs(y.store.history[id], no, pinned);
    forall a, i: nat ensures RevisionFits(y', a, i) {
      assert RevisionFits(y, a, i);
    }
    forall a ensures RegionFits(y', a) {
      assert RegionFits(y, a);
    }
    forall a ensures PlannedFits(y', a) {
      assert PlannedFits(y, a);
    }
  }

  lemma StepKeeps(y: System, step: Step)
    requires Inv(y) && Enabled(y, step)
    ensures Inv(Next(y, step))
  {
    match step
    case CreateRegion(id, page, kind, order, geometry, policy, origin, rid) =>
      BornKeeps(y, id, page, NewState(kind, order, geometry, policy), origin, rid);
    case MergeInto(id, page, ids, rid) => BornKeeps(y, id, page, Merged(y.store, ids), User, rid);
    case SplitOff(id, whole, geometry, index, rid) =>
      BornKeeps(y, id, y.store.regions[whole].page, Part(y.store.regions[whole].state, geometry, index), User, rid);
    case DeleteRegion(id) => DeleteKeeps(y, id);
    case PinRevision(id, no, pinned) => PinKeeps(y, id, no, pinned);
    case Begin(request, rid) => BeginKeeps(y, request, rid);
    case Finish(rid) => FinishKeeps(y, rid);
  }

  lemma {:induction false} RunKeeps(y: System, steps: seq<Step>)
    requires Inv(y)
    ensures Inv(Run(y, steps))
    decreases |steps|
  {
    if |steps| > 0 {
      if Enabled(y, steps[0]) {
        StepKeeps(y, steps[0]);
      }
      RunKeeps(Do(y, steps[0]), steps[1..]);
    }
  }

  lemma EmptyFits()
    ensures Inv(EMPTY)
  {
  }

  /** The history of a region as its readers rely on it. */
  ghost predicate WellRecorded(s: Store, id: RegionId)
    requires id in s.regions
  {
    var h := History(s, id);
    |h| > 0 && CountedUp(h)
    && s.regions[id].current == Some(h[|h| - 1].id)
    && s.regions[id].state == h[|h| - 1].snapshot
    && forall i, j :: 0 <= i < j < |h| ==> h[i].id != h[j].id
  }

  /** In every reachable state every region is well recorded. */
  lemma EveryRegionIsWellRecorded(steps: seq<Step>, id: RegionId)
    requires id in Run(EMPTY, steps).store.regions
    ensures WellRecorded(Run(EMPTY, steps).store, id)
  {
    EmptyFits();
    RunKeeps(EMPTY, steps);
    WellRecordedFrom(Run(EMPTY, steps), id);
  }

  lemma WellRecordedFrom(y: System, id: RegionId)
    requires Inv(y) && id in y.store.regions
    ensures WellRecorded(y.store, id)
  {
    assert RegionFits(y, id);
    var h := History(y.store, id);
    forall i | 0 <= i < |h| ensures h[i].no == i + 1 && h[i].id in y.home && y.home[h[i].id] == Placed(id, i) {
      assert RevisionFits(y, id, i);
    }
  }

  // ------------------------------------------------------- history only grows

  predicate SameButPin(a: Revision, b: Revision) { a == b.(pinned := a.pinned) }

  ghost predicate RegionGrows(s: Store, s': Store, id: RegionId) {
    id in s.regions && id in s.history ==>
      id in s'.regions && id in s'.history
      && s'.regions[id].page == s.regions[id].page
      && (s.regions[id].deleted ==> s'.regions[id].deleted)
      && |s.history[id]| <= |s'.history[id]|
      && forall i :: 0 <= i < |s.history[id]| ==> SameButPin(s.history[id][i], s'.history[id][i])
  }

  ghost predicate Grows(s: Store, s': Store) { forall id :: RegionGrows(s, s', id) }

  lemma GrowsOnward(a: Store, b: Store, c: Store)
    requires Grows(a, b) && Grows(b, c)
    ensures Grows(a, c)
  {
    forall id ensures RegionGrows(a, c, id) {
      assert RegionGrows(a, b, id) && RegionGrows(b, c, id);
      if id in a.regions && id in a.history {
        forall i | 0 <= i < |a.history[id]| ensures SameButPin(a.history[id][i], c.history[id][i]) {
          assert SameButPin(a.history[id][i], b.history[id][i]) && SameButPin(b.history[id][i], c.history[id][i]);
        }
      }
    }
  }

  lemma PinGrows(y: System, id: RegionId, no: nat, pinned: bool)
    requires Inv(y) && id in y.store.history
    ensures Grows(y.store, Next(y, PinRevision(id, no, pinned)).store)
  {
    PinnedIs(y.store.history[id], no, pinned);
    forall other ensures RegionGrows(y.store, Next(y, PinRevision(id, no, pinned)).store, other) {
    }
  }

  lemma AppendGrows(s: Store, w: Write)
    requires w.region in s.regions
    ensures Grows(s, Append(s, w))
  {
    forall id ensures RegionGrows(s, Append(s, w), id) {
    }
  }

  lemma CreateGrows(s: Store, id: RegionId, page: PageId, state: Snapshot, origin: Origin, rid: RevisionId)
    requires id !in s.regions
    ensures Grows(s, Create(s, id, page, state, origin, rid))
  {
    forall other ensures RegionGrows(s, Create(s, id, page, state, origin, rid), other) {
    }
  }

  lemma StepGrows(y: System, step: Step)
    requires Inv(y) && Enabled(y, step)
    ensures Grows(y.store, Next(y, step).store)
  {
    match step
    case CreateRegion(id, page, kind, order, geometry, policy, origin, rid) =>
      CreateGrows(y.store, id, page, NewState(kind, order, geometry, policy), origin, rid);
    case MergeInto(id, page, ids, rid) => CreateGrows(y.store, id, page, Merged(y.store, ids), User, rid);
    case SplitOff(id, whole, geometry, index, rid) =>
      var source := y.store.regions[whole];
      CreateGrows(y.store, id, source.page, Part(source.state, geometry, index), User, rid);
    case DeleteRegion(id) =>
    case PinRevision(id, no, pinned) => PinGrows(y, id, no, pinned);
    case Begin(request, rid) =>
    case Finish(rid) =>
      assert PlannedFits(y, rid);
      AppendGrows(y.store, y.planned[rid]);
  }

  lemma {:induction false} RunGrows(y: System, steps: seq<Step>)
    requires Inv(y)
    ensures Grows(y.store, Run(y, steps).store)
    decreases |steps|
  {
    if |steps| > 0 {
      var y' := Do(y, steps[0]);
      if Enabled(y, steps[0]) {
        StepKeeps(y, steps[0]);
        StepGrows(y, steps[0]);
      }
      RunGrows(y', steps[1..]);
      GrowsOnward(y.store, y'.store, Run(y, steps).store);
    }
  }

  // ------------------------------------------------------- what every snapshot keeps

  /** Manually edited text is locked against the machine, and the final text is the resolved one. */
  predicate TextSound(t: Text) { (t.manual ==> t.locked) && (t.final, t.source) == Resolve(t) }

  /**
   Nothing sets a lock of a region as a whole; where `strict`, only sound-effect regions may have a policy other than
   skipping.
   */
  predicate Sound(x: Snapshot, strict: bool) {
    TextSound(x.text) && x.locks == NO_LOCKS && (strict && !x.kind.Sfx? ==> x.policy.Skip?)
  }

  ghost predicate HistorySound(y: System, strict: bool, id: RegionId, i: nat) {
    id in y.store.history && i < |y.store.history[id]| ==> Sound(y.store.history[id][i].snapshot, strict)
  }

  ghost predicate PlannedSound(y: System, strict: bool, rid: RevisionId) {
    rid in y.planned ==>
      Sound(y.planned[rid].revision.snapshot, strict)
      && (y.planned[rid].locks.Some? ==> y.planned[rid].locks.value == NO_LOCKS)
  }

  ghost predicate AllSound(y: System, strict: bool) {
    (forall id, i: nat :: HistorySound(y, strict, id, i)) && forall rid :: PlannedSound(y, strict, rid)
  }

  /** Regions are created with the policy that their type allows. */
  predicate CreatesEffectively(step: Step) {
    step.CreateRegion? ==> exists g :: step.policy == EffectivePolicy(step.kind, g)
  }

  lemma StateSound(y: System, strict: bool, id: RegionId)
    requires Inv(y) && AllSound(y, strict) && id in y.store.regions
    ensures Sound(y.store.regions[id].state, strict)
  {
    assert RegionFits(y, id);
    assert HistorySound(y, strict, id, |y.store.history[id]| - 1);
  }

  lemma {:induction false} WithNoComesFrom(h: seq<Revision>, no: nat)
    ensures WithNo(h, no).Some? ==> WithNo(h, no).value in h
  {
    if |h| > 0 {
      WithNoComesFrom(h[1..], no);
    }
  }

  /** A planned write is as sound as the region and the history it was planned on. */
  lemma PlanSound(region: Region, h: seq<Revision>, r: Request, rid: RevisionId, strict: bool)
    requires Sound(region.state, strict) && forall rev :: rev in h ==> Sound(rev.snapshot, strict)
    requires PlanFor(region, h, r, rid).Go?
    ensures var w := PlanFor(region, h, r, rid).write;
            Sound(w.revision.snapshot, strict) && (w.locks.Some? ==> w.locks.value == NO_LOCKS)
  {
    if r.Restore? {
      WithNoComesFrom(h, r.no);
    }
  }

  /** A merged region takes type and policy from the first of its regions. */
  lemma {:induction false} MergedLikeTheFirst(s: Store, ids: seq<RegionId>)
    requires |ids| > 0 && forall id :: id in ids ==> id in s.regions
    ensures var all := MergedAll(s, ids);
            all.kind == s.regions[ids[0]].state.kind && all.policy == s.regions[ids[0]].state.policy
    decreases |ids|
  {
    if |ids| > 1 {
      MergedLikeTheFirst(s, ids[..|ids| - 1]);
    }
  }

  lemma BornSound(y: System, strict: bool, id: RegionId, page: PageId, state: Snapshot, origin: Origin, rid: RevisionId)
    requires AllSound(y, strict) && Sound(state, strict)
    ensures AllSound(Born(y, id, page, state, origin, rid), strict)
  {
    var y' := Born(y, id, page, state, origin, rid);
    forall a, i: nat ensures HistorySound(y', strict, a, i) {
      assert HistorySound(y, strict, a, i);
    }
    forall a ensures PlannedSound(y', strict, a) {
      assert PlannedSound(y, strict, a);
    }
  }

  lemma BeginSound(y: System, strict: bool, r: Request, rid: RevisionId)
    requires Inv(y) && AllSound(y, strict)
    ensures AllSound(Begun(y, r, rid), strict)
  {
    var y' := Begun(y, r, rid);
    if PlanOn(y.store, r, rid).Go? {
      StateSound(y, strict, r.id);
      forall rev | rev in History(y.store, r.id) ensures Sound(rev.snapshot, strict) {
        var i :| 0 <= i < |History(y.store, r.id)| && History(y.store, r.id)[i] == rev;
        assert HistorySound(y, strict, r.id, i);
      }
      PlanSound(y.store.regions[r.id], History(y.store, r.id), r, rid, strict);
    }
    forall a, i: nat ensures HistorySound(y', strict, a, i) {
      assert HistorySound(y, strict, a, i);
    }
    forall a ensures PlannedSound(y', strict, a) {
      assert PlannedSound(y, strict, a);
    }
  }

  lemma OtherStepsSound(y: System, strict: bool, step: Step)
    requires Inv(y) && AllSound(y, strict) && Enabled(y, step)
    requires step.Finish? || step.DeleteRegion? || step.PinRevision?
    ensures AllSound(Next(y, step), strict)
  {
    var y' := Next(y, step);
    if step.PinRevision? {
      PinnedIs(y.store.history[step.id], step.no, step.pinned);
    }
    if step.Finish? {
      assert PlannedSound(y, strict, step.rid);
    }
    forall a, i: nat ensures HistorySound(y', strict, a, i) {
      assert HistorySound(y, strict, a, i);
    }
    forall a ensures PlannedSound(y', strict, a) {
      assert PlannedSound(y, strict, a);
    }
  }

  lemma StepSound(y: System, strict: bool, step: Step)
    requires Inv(y) && AllSound(y, strict) && Enabled(y, step) && (strict ==> CreatesEffectively(step))
    ensures AllSound(Next(y, step), strict)
  {
    match step
    case CreateRegion(id, page, kind, order, geometry, policy, origin, rid) =>
      BornSound(y, strict, id, page, NewState(kind, order, geometry, policy), origin, rid);
    case MergeInto(id, page, ids, rid) =>
      assert Live(y.store, ids[0]);
      StateSound(y, strict, ids[0]);
      MergedLikeTheFirst(y.store, ids);
      BornSound(y, strict, id, page, Merged(y.store, ids), User, rid);
    case SplitOff(id, whole, geometry, index, rid) =>
      StateSound(y, strict, whole);
      BornSound(
        y, strict, id, y.store.regions[whole].page, Part(y.store.regions[whole].state, geometry, index), User, rid);
    case DeleteRegion(id) => OtherStepsSound(y, strict, step);
    case PinRevision(id, no, pinned) => OtherStepsSound(y, strict, step);
    case Begin(request, rid) => BeginSound(y, strict, request, rid);
    case Finish(rid) => OtherStepsSound(y, strict, step);
  }

  lemma {:induction false} RunSound(y: System, strict: bool, steps: seq<Step>)
    requires Inv(y) && AllSound(y, strict)
    requires strict ==> forall k :: 0 <= k < |steps| ==> CreatesEffectively(steps[k])
    ensures Inv(Run(y, steps)) && AllSound(Run(y, steps), strict)
    decreases |steps|
  {
    if |steps| > 0 {
      if Enabled(y, steps[0]) {
        StepKeeps(y, steps[0]);
        StepSound(y, strict, steps[0]);
      }
      RunSound(Do(y, steps[0]), strict, steps[1..]);
    }
  }

  /**
   In every run, however its writes interleave, manually edited text is locked and the final text is the resolved one;
   where creations use the effective policy, a region that is not a sound effect skips.
   */
  lemma EverySnapshotIsSound(strict: bool, steps: seq<Step>, id: RegionId)
    requires strict ==> forall k :: 0 <= k < |steps| ==> CreatesEffectively(steps[k])
    requires id in Run(EMPTY, steps).store.regions
    ensures Sound(Run(EMPTY, steps).store.regions[id].state, strict)
  {
    EmptyFits();
    RunSound(EMPTY, strict, steps);
    StateSound(Run(EMPTY, steps), strict, id);
  }

  /** In no run does a commit find other region locks than those that were read. */
  lemma NoCommitFindsLocksChanged(steps: seq<Step>, rid: RevisionId)
    requires rid in Run(EMPTY, steps).planned
    ensures !CommitStatus(Run(EMPTY, steps).store, Run(EMPTY, steps).planned[rid]).LockChanged?
  {
    EmptyFits();
    RunSound(EMPTY, false, steps);
    var y := Run(EMPTY, steps);
    assert PlannedSound(y, false, rid) && PlannedFits(y, rid);
    StateSound(y, false, y.planned[rid].region);
  }
}
