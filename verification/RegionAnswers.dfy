/** What each request on a region answers, and what it leaves when nobody comes in between. */
module RegionAnswers {
  import opened Options
  import opened RegionModel
  import opened RegionHistory
  import opened RegionOrder
  import opened RegionWrites

  // ------------------------------------------------------- the seam

  /** Which answer the seam gives, and the number of the revision it appends. */
  lemma SeamAnswers(y: System, w: Write)
    requires Inv(y)
    ensures var s := y.store; var status := CommitStatus(s, w);
            && (status == DbFailed <==> w.region !in s.regions)
            && (status == InputChanged <==>
                  w.region in s.regions && w.expected.Some? && s.regions[w.region].current != w.expected)
            && (status == LockChanged <==>
                  w.region in s.regions && (w.expected.None? || s.regions[w.region].current == w.expected)
                  && w.locks.Some? && s.regions[w.region].state.locks != w.locks.value)
            && (status.Applied? ==> status.no == |History(s, w.region)| + 1)
    ensures CommitStatus(y.store, w).Applied? ==> Recorded(y.store, Commit(y.store, w), w)
    ensures !CommitStatus(y.store, w).Applied? ==> Commit(y.store, w) == y.store
  {
    assert RegionFits(y, w.region);
    if w.region in y.store.regions {
      WellRecordedFrom(y, w.region);
      MaxNoIs(History(y.store, w.region));
    }
  }

  /** The revision is the newest and current one of its region, its snapshot the state; nothing else has changed. */
  ghost predicate Recorded(s: Store, s': Store, w: Write) {
    && w.region in s.regions && w.region in s'.regions
    && s'.regions[w.region] == s.regions[w.region].(state := w.revision.snapshot, current := Some(w.revision.id))
    && History(s', w.region) == History(s, w.region) + [w.revision.(no := |History(s, w.region)| + 1)]
    && forall id :: id != w.region ==> Untouched(s, s', id)
  }

  /** A request that is refused changes nothing; one that is not is committed if its write finds what it expects. */
  lemma AloneCommits(y: System, r: Request, rid: RevisionId)
    requires Inv(y) && rid !in y.home
    ensures var plan := PlanOn(y.store, r, rid);
            if plan.Go? && plan.write.region in y.store.regions
               && (plan.write.expected.Some? ==> y.store.regions[plan.write.region].current == plan.write.expected)
               && (plan.write.locks.Some? ==> y.store.regions[plan.write.region].state.locks == plan.write.locks.value)
            then Recorded(y.store, Alone(y, r, rid).store, plan.write)
            else Alone(y, r, rid).store == y.store
  {
    var plan := PlanOn(y.store, r, rid);
    if plan.Go? {
      SeamAnswers(y, plan.write);
    } else {
      assert PlannedFits(y, rid);
    }
  }

  // ------------------------------------------------------- expectations

  /** The number of the current revision is that of the whole history; it is the only one a request may expect. */
  lemma CurrentIsLast(y: System, id: RegionId)
    requires Inv(y) && id in y.store.regions
    ensures var h := History(y.store, id);
            |h| > 0 && y.store.regions[id].current == Some(h[|h| - 1].id)
            && WithId(h, h[|h| - 1].id) == Some(h[|h| - 1])
            && forall no: nat :: WithNo(h, no) == if 1 <= no <= |h| then Some(h[no - 1]) else None
  {
    WellRecordedFrom(y, id);
    var h := History(y.store, id);
    WithIdIs(h, |h| - 1);
    forall no: nat ensures WithNo(h, no) == if 1 <= no <= |h| then Some(h[no - 1]) else None {
      WithNoIs(h, 0, no);
    }
  }

  /**
   A restore is refused as stale exactly when it expects another number than the current one, and for want of the
   revision exactly when it is not stale and the number is unknown; else it copies the named snapshot and expects the
   current revision and the locks to stay.
   */
  lemma RestoreAnswers(y: System, id: RegionId, no: nat, expectedNo: Option<nat>, rid: RevisionId)
    requires Inv(y) && Live(y.store, id)
    ensures var h := History(y.store, id); var n := |h|;
            var plan := PlanOn(y.store, Restore(id, no, expectedNo), rid);
            && (plan == Refuse(Stale) <==> expectedNo.Some? && expectedNo.value != n)
            && (plan == Refuse(NoSuchRevision) <==>
                  (expectedNo.None? || expectedNo.value == n) && !(1 <= no <= n))
            && ((expectedNo.None? || expectedNo.value == n) && 1 <= no <= n ==>
                  plan == Go(Write(id, Revision(rid, 0, h[no - 1].snapshot, RestoredCopy, NeedsReview, false,
                                                Some(h[no - 1].id)),
                                   y.store.regions[id].current, Some(y.store.regions[id].state.locks))))
  {
    CurrentIsLast(y, id);
    WellRecordedFrom(y, id);
  }

  /** So the current number is accepted and the snapshot copied, and every other number leaves all as it was. */
  lemma RestoreLeaves(y: System, id: RegionId, no: nat, k: nat, rid: RevisionId)
    requires Inv(y) && Live(y.store, id) && rid !in y.home && 1 <= no <= |History(y.store, id)|
    ensures var h := History(y.store, id); var after := Alone(y, Restore(id, no, Some(k)), rid).store;
            if k == |h|
            then History(after, id) ==
                 h + [Revision(rid, k + 1, h[no - 1].snapshot, RestoredCopy, NeedsReview, false, Some(h[no - 1].id))]
                 && after.regions[id] == y.store.regions[id].(state := h[no - 1].snapshot, current := Some(rid))
            else after == y.store
  {
    RestoreAnswers(y, id, no, Some(k), rid);
    AloneCommits(y, Restore(id, no, Some(k)), rid);
  }

  /** A retype is refused as stale exactly when it expects another number than the current one. */
  lemma SetTypeAnswers(
    y: System, id: RegionId, kind: RegionType, global: SfxPolicy, expectedNo: Option<nat>, rid: RevisionId)
    requires Inv(y) && Live(y.store, id)
    ensures var h, state := History(y.store, id), y.store.regions[id].state;
            var plan := PlanOn(y.store, SetType(id, kind, global, expectedNo), rid);
            && (plan == Refuse(Stale) <==> expectedNo.Some? && expectedNo.value != |h|)
            && (expectedNo.None? || expectedNo.value == |h| ==>
                  var staged := state.(kind := kind, policy := if kind.Sfx? then global else Skip);
                  plan == Go(Write(id, Revision(rid, 0, staged, User, Unreviewed, false, None),
                                   if expectedNo.Some? then y.store.regions[id].current else None, None)))
  {
    CurrentIsLast(y, id);
    WellRecordedFrom(y, id);
    if expectedNo.Some? && 1 <= expectedNo.value < |History(y.store, id)| {
      IdsDiffer(y, id, expectedNo.value - 1, |History(y.store, id)| - 1);
    }
  }

  lemma IdsDiffer(y: System, id: RegionId, i: nat, j: nat)
    requires Inv(y) && id in y.store.history && i < j < |y.store.history[id]|
    ensures y.store.history[id][i].id != y.store.history[id][j].id
  {
    assert RevisionFits(y, id, i) && RevisionFits(y, id, j);
  }

  /**
   A machine translation is refused as stale exactly when it expects another revision than the current one, and as
   locked exactly when it is not stale and the text or the region is locked.
   */
  lemma MachineAnswers(s: Store, id: RegionId, translation: string, expected: Option<RevisionId>, rid: RevisionId)
    requires Live(s, id)
    ensures var plan, region := PlanOn(s, ApplyMachine(id, translation, expected), rid), s.regions[id];
            && (plan == Refuse(Stale) <==> expected.Some? && region.current != expected)
            && (plan == Refuse(Locked) <==>
                  (expected.None? || region.current == expected)
                  && (region.state.text.locked || region.state.locks.region))
            && (plan.Go? <==>
                  (expected.None? || region.current == expected)
                  && !region.state.text.locked && !region.state.locks.region)
            && (plan.Go? ==> plan.write.expected == expected && plan.write.locks == Some(region.state.locks))
  {
  }

  /** Every request on a region that is missing or deleted is refused, and no other for that reason. */
  lemma NotFoundExactlyWhen(s: Store, r: Request, rid: RevisionId)
    ensures PlanOn(s, r, rid) == Refuse(NotFound) <==> !Live(s, r.id)
  {
  }

  // ------------------------------------------------------- what the texts come to

  /** The final text: the edited one where a non-blank one is confirmed, else a non-blank machine text, else nothing. */
  ghost predicate FinalFits(t: Text) {
    && (t.confirmed && !Blank(t.edited) ==> t.final == t.edited && t.source == FromEdited)
    && (!(t.confirmed && !Blank(t.edited)) && !Blank(t.machine) ==> t.final == t.machine && t.source == FromMachine)
    && (!(t.confirmed && !Blank(t.edited)) && Blank(t.machine) ==> t.final == "" && t.source == NoFinal)
  }

  /** The region has this text, recorded by one new revision, and is otherwise what it was. */
  ghost predicate TextRecorded(
    s: Store, s': Store, id: RegionId, text: Text, rid: RevisionId, origin: Origin, review: Review)
  {
    && id in s.regions && id in s'.regions
    && s'.regions[id] == s.regions[id].(state := s.regions[id].state.(text := text), current := Some(rid))
    && History(s', id) ==
       History(s, id)
       + [Revision(rid, |History(s, id)| + 1, s.regions[id].state.(text := text), origin, review, false, None)]
    && forall other :: other != id ==> Untouched(s, s', other)
  }

  /** A machine translation of an unlocked region becomes its machine text, and final unless an edited one is. */
  lemma MachineTranslationTells(
    y: System, id: RegionId, translation: string, expected: Option<RevisionId>, rid: RevisionId)
    requires Inv(y) && Live(y.store, id) && rid !in y.home
    requires expected.None? || y.store.regions[id].current == expected
    requires !y.store.regions[id].state.text.locked && !y.store.regions[id].state.locks.region
    ensures var s' := Alone(y, ApplyMachine(id, translation, expected), rid).store;
            && id in s'.regions
            && var before, after := y.store.regions[id].state.text, s'.regions[id].state.text;
            && TextRecorded(y.store, s', id, after, rid, Machine, NeedsReview)
            && after == before.(machine := translation, final := after.final, source := after.source)
            && (before.confirmed && !Blank(before.edited) ==>
                  after.final == before.edited && after.source == FromEdited)
            && (!(before.confirmed && !Blank(before.edited)) && !Blank(translation) ==>
                  after.final == translation && after.source == FromMachine)
            && (!(before.confirmed && !Blank(before.edited)) && Blank(translation) ==>
                  after.final == "" && after.source == NoFinal)
  {
    AloneCommits(y, ApplyMachine(id, translation, expected), rid);
  }

  /**
   A manual save keeps recognized and machine text, arms both protections, and leaves the machine text final until the
   edited one is confirmed.
   */
  lemma ManualSaveTells(y: System, id: RegionId, edited: string, rid: RevisionId)
    requires Inv(y) && Live(y.store, id) && rid !in y.home
    ensures var s' := Alone(y, SaveManual(id, edited), rid).store;
            && id in s'.regions
            && var before, after := y.store.regions[id].state.text, s'.regions[id].state.text;
            && TextRecorded(y.store, s', id, after, rid, User, NeedsReview)
            && after == before.(edited := edited, manual := true, locked := true,
                                final := after.final, source := after.source)
            && (before.confirmed && !Blank(edited) ==> after.final == edited && after.source == FromEdited)
            && (!(before.confirmed && !Blank(edited)) && !Blank(before.machine) ==>
                  after.final == before.machine && after.source == FromMachine)
            && (!(before.confirmed && !Blank(edited)) && Blank(before.machine) ==>
                  after.final == "" && after.source == NoFinal)
  {
    AloneCommits(y, SaveManual(id, edited), rid);
  }

  /** A confirmation sets its flag exactly for a non-blank edited text, which is final then; all else stays. */
  lemma ConfirmationLeaves(y: System, id: RegionId, rid: RevisionId)
    requires Inv(y) && Live(y.store, id) && rid !in y.home
    ensures var s' := Alone(y, ConfirmFinal(id), rid).store;
            && id in s'.regions
            && var before, after := y.store.regions[id].state.text, s'.regions[id].state.text;
            && TextRecorded(y.store, s', id, after, rid, User, Review.Confirmed)
            && FinalFits(after)
            && after == before.(confirmed := before.confirmed || !Blank(before.edited),
                                final := after.final, source := after.source)
  {
    AloneCommits(y, ConfirmFinal(id), rid);
  }

  /** A recognition sets the recognized text, and the final text is the resolved one. */
  lemma RecognitionLeaves(y: System, id: RegionId, ocr: string, rid: RevisionId)
    requires Inv(y) && Live(y.store, id) && rid !in y.home
    ensures var s' := Alone(y, ApplyOcr(id, ocr), rid).store;
            && id in s'.regions
            && var before, after := y.store.regions[id].state.text, s'.regions[id].state.text;
            && TextRecorded(y.store, s', id, after, rid, Machine, NeedsReview)
            && FinalFits(after) && after == before.(ocr := ocr, final := after.final, source := after.source)
  {
    AloneCommits(y, ApplyOcr(id, ocr), rid);
  }

  /** A geometry save, a retype or a move changes what it names and records it as the user's, unreviewed. */
  lemma OtherRequestsLeave(y: System, r: Request, rid: RevisionId)
    requires Inv(y) && Live(y.store, r.id) && rid !in y.home
    requires r.SaveGeometry? || r.SetType? || r.MoveTo?
    requires r.SaveGeometry? && r.expected.Some? ==> y.store.regions[r.id].current == r.expected
    requires r.SetType? && r.expectedNo.Some? ==> r.expectedNo.value == |History(y.store, r.id)|
    requires r.MoveTo? ==> y.store.regions[r.id].state.order != r.position
    ensures var before := y.store.regions[r.id].state;
            var after :=
              if r.SaveGeometry? then before.(geometry := r.geometry)
              else if r.MoveTo? then before.(order := r.position)
              else before.(kind := r.kind, policy := if r.kind.Sfx? then r.global else Skip);
            Recorded(y.store, Alone(y, r, rid).store,
                     Write(r.id, Revision(rid, 0, after, User, Unreviewed, false, None), None, None))
  {
    if r.SetType? {
      SetTypeAnswers(y, r.id, r.kind, r.global, r.expectedNo, rid);
    }
    AloneCommits(y, r, rid);
  }

  // ------------------------------------------------------- pins

  /** Pinning flips the mark of the revision with that number, and touches nothing else. */
  lemma PinTells(y: System, id: RegionId, no: nat, pinned: bool, i: nat)
    requires Inv(y) && id in y.store.regions && i < |History(y.store, id)|
    ensures var y' := Next(y, PinRevision(id, no, pinned));
            && y'.store.regions == y.store.regions && |History(y'.store, id)| == |History(y.store, id)|
            && History(y'.store, id)[i] ==
               (if i + 1 == no then History(y.store, id)[i].(pinned := pinned) else History(y.store, id)[i])
            && forall other :: other != id ==> Untouched(y.store, y'.store, other)
  {
    assert RegionFits(y, id) && RevisionFits(y, id, i);
    PinnedIs(y.store.history[id], no, pinned);
  }
}
