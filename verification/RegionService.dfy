/** The region editing service: stored objects, staged clones, and the seam that writes the one into the other. */
module RegionService {
  import opened Options
  import opened RegionModel
  import RegionOrder

  class RegionObject {
    const id: RegionId
    const page: PageId
    var kind: RegionType
    var order: int
    var geometry: Geometry
    var text: Text
    var style: string
    var policy: SfxPolicy
    var locks: Locks
    var current: Option<RevisionId>
    var deleted: bool

    constructor (id: RegionId, page: PageId, state: Snapshot)
      ensures this.id == id && this.page == page
      ensures SnapshotState() == state && current == None && !deleted
    {
      this.id, this.page := id, page;
      kind, order, geometry, text := state.kind, state.order, state.geometry, state.text;
      style, policy, locks := state.style, state.policy, state.locks;
      current, deleted := None, false;
    }

    function SnapshotState(): Snapshot
      reads this
    {
      Snapshot(kind, order, geometry, text, style, policy, locks)
    }

    function Value(): Region
      reads this
    {
      Region(page, SnapshotState(), current, deleted)
    }

    /** The inverse of taking a snapshot: the whole revision-owned state, and nothing else. */
    method RestoreFromSnapshot(x: Snapshot)
      modifies this
      ensures SnapshotState() == x && current == old(current) && deleted == old(deleted)
    {
      kind, order, geometry, text := x.kind, x.order, x.geometry, x.text;
      style, policy, locks := x.style, x.policy, x.locks;
    }

    method Take(x: Snapshot, rid: RevisionId)
      modifies this
      ensures Value() == old(Value()).(state := x, current := Some(rid))
    {
      RestoreFromSnapshot(x);
      current := Some(rid);
    }
  }

  class Repository {
    var regions: map<RegionId, RegionObject>
    var revisions: map<RegionId, seq<Revision>>

    constructor ()
      ensures Valid() && Store() == RegionModel.Store(map[], map[])
    {
      regions, revisions := map[], map[];
    }

    /** Each object is stored under its own id, so no two ids share one. */
    ghost predicate Valid()
      reads this
    {
      forall id :: id in regions ==> regions[id].id == id
    }

    ghost function Store(): RegionModel.Store
      reads this, regions.Values
    {
      RegionModel.Store(map id | id in regions :: regions[id].Value(), revisions)
    }

    function ListRevisions(id: RegionId): seq<Revision>
      reads this
    {
      if id in revisions then revisions[id] else []
    }

    /** The revision goes to the end of the history, its snapshot and id into the stored object. */
    method Sync(w: Write)
      requires Valid() && w.region in regions
      modifies this`revisions, regions[w.region]
      ensures regions == old(regions)
      ensures Store() == Append(old(Store()), w)
    {
      ghost var before := Store();
      var no := MaxNo(ListRevisions(w.region)) + 1;
      revisions := revisions[w.region := ListRevisions(w.region) + [w.revision.(no := no)]];
      regions[w.region].Take(w.revision.snapshot, w.revision.id);
      assert Store().regions == Append(before, w).regions;
    }

    /** Copying onto a stored object the state it has already. */
    method Resync(id: RegionId, staged: RegionObject)
      requires Valid() && id in regions && staged != regions[id]
      requires regions[id].SnapshotState() == staged.SnapshotState() && regions[id].current == staged.current
      modifies regions[id]
      ensures Store() == old(Store())
    {
      ghost var before := Store();
      regions[id].RestoreFromSnapshot(staged.SnapshotState());
      regions[id].current := staged.current;
      assert regions[id].Value() == before.regions[id];
      assert Store().regions == before.regions;
    }

    method AddRegion(o: RegionObject)
      requires Valid() && o.id !in regions
      modifies this`regions, this`revisions
      ensures Valid() && regions == old(regions)[o.id := o]
      ensures Store() == RegionModel.Store(old(Store()).regions[o.id := o.Value()], old(Store()).history[o.id := []])
    {
      ghost var before := Store();
      regions := regions[o.id := o];
      revisions := revisions[o.id := []];
      assert Store().regions == before.regions[o.id := o.Value()];
    }

    method SoftDelete(id: RegionId)
      requires Valid() && id in regions
      modifies regions[id]
      ensures Valid() && regions == old(regions)
      ensures Store() == Delete(old(Store()), id)
    {
      ghost var before := Store();
      regions[id].deleted := true;
      assert Store().regions == Delete(before, id).regions;
    }
  }

  datatype Outcome = Committed(status: Status) | Refused(why: Refusal)

  /** The request was planned and committed with nobody in between. */
  ghost predicate CarriedOut(
    s: RegionModel.Store, r: Request, rid: RevisionId, s': RegionModel.Store, outcome: Outcome)
  {
    var plan := PlanOn(s, r, rid);
    if plan.Go? then s' == Commit(s, plan.write) && outcome == Committed(CommitStatus(s, plan.write))
    else s' == s && outcome == Refused(plan.why)
  }

  lemma {:induction false} PartsLeaveWhole(
    s: RegionModel.Store, whole: RegionId, ids: seq<RegionId>, parts: seq<Geometry>, rids: seq<RevisionId>, n: nat)
    requires n <= |parts| <= |ids| && n <= |rids| && whole in s.regions && whole !in ids
    ensures PartFirst(s, whole, ids, parts, rids, n).regions[whole] == s.regions[whole]
    decreases n
  {
    if n > 0 {
      PartsLeaveWhole(s, whole, ids, parts, rids, n - 1);
      assert ids[n - 1] in ids;
    }
  }

  /** Every id is that of a live region of the page. */
  ghost predicate AllOnPage(s: RegionModel.Store, page: PageId, ids: seq<RegionId>) {
    forall id :: id in ids ==> Live(s, id) && s.regions[id].page == page
  }

  class Service {
    const repo: Repository

    constructor (repo: Repository)
      ensures this.repo == repo
    {
      this.repo := repo;
    }

    /**
     The seam: guards first, then the revision, then state and current id of the stored object and of the staged
     one.
     */
    method CommitRegionRevision(
        staged: RegionObject, revision: Revision, expected: Option<RevisionId>, locks: Option<Locks>)
      returns (status: Status)
      requires repo.Valid() && staged !in repo.regions.Values && revision.snapshot == staged.SnapshotState()
      modifies repo`revisions, staged`current
      modifies if staged.id in repo.regions then {repo.regions[staged.id]} else {}
      ensures repo.Valid() && repo.regions == old(repo.regions)
      ensures status == CommitStatus(old(repo.Store()), Write(staged.id, revision, expected, locks))
      ensures repo.Store() == Commit(old(repo.Store()), Write(staged.id, revision, expected, locks))
      ensures staged.SnapshotState() == old(staged.SnapshotState())
      ensures status.Applied? ==>
                repo.regions[staged.id].SnapshotState() == staged.SnapshotState()
                && repo.regions[staged.id].current == staged.current == Some(revision.id)
    {
      var w := Write(staged.id, revision, expected, locks);
      if staged.id !in repo.regions {
        return DbFailed;
      }
      var stored := repo.regions[staged.id];
      if expected.Some? && stored.current != expected {
        return InputChanged;
      }
      if locks.Some? && stored.locks != locks.value {
        return LockChanged;
      }
      var no := MaxNo(repo.ListRevisions(staged.id)) + 1;
      repo.Sync(w);
      staged.current := Some(revision.id);
      return Applied(no);
    }

    method Clone(o: RegionObject) returns (staged: RegionObject)
      ensures fresh(staged) && staged.id == o.id && staged.Value() == o.Value()
    {
      staged := new RegionObject(o.id, o.page, o.SnapshotState());
      staged.current, staged.deleted := o.current, o.deleted;
    }

    /** Commits the staged state and, when that succeeds, copies it back onto the caller's object. */
    method Submit(region: RegionObject, staged: RegionObject, rid: RevisionId, origin: Origin, review: Review,
                  restoredFrom: Option<RevisionId>, expected: Option<RevisionId>, locks: Option<Locks>)
      returns (outcome: Outcome)
      requires repo.Valid() && staged !in repo.regions.Values
      requires staged.id in repo.regions && repo.regions[staged.id] == region
      modifies repo`revisions, staged, region
      ensures repo.Valid() && repo.regions == old(repo.regions)
      ensures var revision := Revision(rid, 0, old(staged.SnapshotState()), origin, review, false, restoredFrom);
              var w := Write(staged.id, revision, expected, locks);
              repo.Store() == Commit(old(repo.Store()), w) && outcome == Committed(CommitStatus(old(repo.Store()), w))
    {
      var revision := Revision(rid, 0, staged.SnapshotState(), origin, review, false, restoredFrom);
      var status := CommitRegionRevision(staged, revision, expected, locks);
      if status.Applied? {
        repo.Resync(staged.id, staged);
      }
      return Committed(status);
    }

    method SaveGeometry(
        id: RegionId, geometry: Geometry, expected: Option<RevisionId>, rid: RevisionId) returns (outcome: Outcome)
      requires repo.Valid()
      modifies repo`revisions, if id in repo.regions then {repo.regions[id]} else {}
      ensures repo.Valid() && repo.regions == old(repo.regions)
      ensures CarriedOut(old(repo.Store()), Request.SaveGeometry(id, geometry, expected), rid, repo.Store(), outcome)
    {
      if id !in repo.regions || repo.regions[id].deleted {
        return Refused(NotFound);
      }
      var region := repo.regions[id];
      outcome := WriteGeometry(region, geometry, expected, rid);
    }

    method WriteGeometry(region: RegionObject, geometry: Geometry, expected: Option<RevisionId>, rid: RevisionId)
      returns (outcome: Outcome)
      requires repo.Valid() && region.id in repo.regions && repo.regions[region.id] == region
      modifies repo`revisions, region
      ensures repo.Valid() && repo.regions == old(repo.regions)
      ensures var staged := old(region.SnapshotState()).(geometry := geometry);
              var w := Write(region.id, Revision(rid, 0, staged, User, Unreviewed, false, None), expected, None);
              repo.Store() == Commit(old(repo.Store()), w) && outcome == Committed(CommitStatus(old(repo.Store()), w))
    {
      ghost var before := repo.Store();
      var staged := Clone(region);
      staged.geometry := geometry;
      assert repo.Store() == before;
      outcome := Submit(region, staged, rid, User, Unreviewed, None, expected, None);
    }

    /** A new revision with this text and nothing else changed, without any guard. */
    method WriteText(region: RegionObject, text: Text, origin: Origin, review: Review, rid: RevisionId)
      returns (outcome: Outcome)
      requires repo.Valid() && region.id in repo.regions && repo.regions[region.id] == region
      modifies repo`revisions, region
      ensures repo.Valid() && repo.regions == old(repo.regions)
      ensures var staged := old(region.SnapshotState()).(text := text);
              var w := Write(region.id, Revision(rid, 0, staged, origin, review, false, None), None, None);
              repo.Store() == Commit(old(repo.Store()), w) && outcome == Committed(CommitStatus(old(repo.Store()), w))
    {
      ghost var before := repo.Store();
      var staged := Clone(region);
      staged.text := text;
      assert repo.Store() == before;
      outcome := Submit(region, staged, rid, origin, review, None, None, None);
    }

    method SetRegionType(id: RegionId, kind: RegionType, global: SfxPolicy, expectedNo: Option<nat>, rid: RevisionId)
      returns (outcome: Outcome)
      requires repo.Valid()
      modifies repo`revisions, if id in repo.regions then {repo.regions[id]} else {}
      ensures repo.Valid() && repo.regions == old(repo.regions)
      ensures CarriedOut(old(repo.Store()), SetType(id, kind, global, expectedNo), rid, repo.Store(), outcome)
    {
      if id !in repo.regions || repo.regions[id].deleted {
        return Refused(NotFound);
      }
      var region := repo.regions[id];
      var expected: Option<RevisionId> := None;
      if expectedNo.Some? {
        var named := WithNo(repo.ListRevisions(id), expectedNo.value);
        if named.None? || region.current != Some(named.value.id) {
          return Refused(Stale);
        }
        expected := Some(named.value.id);
      }
      outcome := Retype(region, kind, EffectivePolicy(kind, global), expected, rid);
    }

    method Retype(
        region: RegionObject, kind: RegionType, policy: SfxPolicy, expected: Option<RevisionId>, rid: RevisionId)
      returns (outcome: Outcome)
      requires repo.Valid() && region.id in repo.regions && repo.regions[region.id] == region
      modifies repo`revisions, region
      ensures repo.Valid() && repo.regions == old(repo.regions)
      ensures var staged := old(region.SnapshotState()).(kind := kind, policy := policy);
              var w := Write(region.id, Revision(rid, 0, staged, User, Unreviewed, false, None), expected, None);
              repo.Store() == Commit(old(repo.Store()), w) && outcome == Committed(CommitStatus(old(repo.Store()), w))
    {
      ghost var before := repo.Store();
      var staged := Clone(region);
      staged.kind := kind;
      staged.policy := policy;
      assert repo.Store() == before;
      outcome := Submit(region, staged, rid, User, Unreviewed, None, expected, None);
    }

    method ApplyOcrResult(id: RegionId, ocr: string, rid: RevisionId) returns (outcome: Outcome)
      requires repo.Valid()
      modifies repo`revisions, if id in repo.regions then {repo.regions[id]} else {}
      ensures repo.Valid() && repo.regions == old(repo.regions)
      ensures CarriedOut(old(repo.Store()), ApplyOcr(id, ocr), rid, repo.Store(), outcome)
    {
      if id !in repo.regions || repo.regions[id].deleted {
        return Refused(NotFound);
      }
      var region := repo.regions[id];
      outcome := WriteText(region, Refresh(region.text.(ocr := ocr)), Machine, NeedsReview, rid);
    }

    method ApplyMachineTranslation(id: RegionId, translation: string, expected: Option<RevisionId>, rid: RevisionId)
      returns (outcome: Outcome)
      requires repo.Valid()
      modifies repo`revisions, if id in repo.regions then {repo.regions[id]} else {}
      ensures repo.Valid() && repo.regions == old(repo.regions)
      ensures CarriedOut(old(repo.Store()), ApplyMachine(id, translation, expected), rid, repo.Store(), outcome)
    {
      if id !in repo.regions || repo.regions[id].deleted {
        return Refused(NotFound);
      }
      var region := repo.regions[id];
      if expected.Some? && region.current != expected {
        return Refused(Stale);
      }
      if region.text.locked || region.locks.region {
        return Refused(Locked);
      }
      outcome := Translate(region, translation, expected, rid);
    }

    method Translate(region: RegionObject, translation: string, expected: Option<RevisionId>, rid: RevisionId)
      returns (outcome: Outcome)
      requires repo.Valid() && region.id in repo.regions && repo.regions[region.id] == region
      modifies repo`revisions, region
      ensures repo.Valid() && repo.regions == old(repo.regions)
      ensures var state := old(region.SnapshotState());
              var staged := state.(text := Refresh(state.text.(machine := translation)));
              var revision := Revision(rid, 0, staged, Machine, NeedsReview, false, None);
              var w := Write(region.id, revision, expected, Some(state.locks));
              repo.Store() == Commit(old(repo.Store()), w) && outcome == Committed(CommitStatus(old(repo.Store()), w))
    {
      ghost var before := repo.Store();
      var staged := Clone(region);
      staged.text := Refresh(staged.text.(machine := translation));
      assert repo.Store() == before;
      outcome := Submit(region, staged, rid, Machine, NeedsReview, None, expected, Some(staged.locks));
    }

    method SaveManualTranslation(id: RegionId, edited: string, rid: RevisionId) returns (outcome: Outcome)
      requires repo.Valid()
      modifies repo`revisions, if id in repo.regions then {repo.regions[id]} else {}
      ensures repo.Valid() && repo.regions == old(repo.regions)
      ensures CarriedOut(old(repo.Store()), SaveManual(id, edited), rid, repo.Store(), outcome)
    {
      if id !in repo.regions || repo.regions[id].deleted {
        return Refused(NotFound);
      }
      var region := repo.regions[id];
      outcome := WriteText(region, Arm(region.text, edited), User, NeedsReview, rid);
    }

    method ConfirmFinal(id: RegionId, rid: RevisionId) returns (outcome: Outcome)
      requires repo.Valid()
      modifies repo`revisions, if id in repo.regions then {repo.regions[id]} else {}
      ensures repo.Valid() && repo.regions == old(repo.regions)
      ensures CarriedOut(old(repo.Store()), Request.ConfirmFinal(id), rid, repo.Store(), outcome)
    {
      if id !in repo.regions || repo.regions[id].deleted {
        return Refused(NotFound);
      }
      var region := repo.regions[id];
      outcome := WriteText(region, ConfirmedText(region.text), User, Review.Confirmed, rid);
    }

    method RestoreRevision(id: RegionId, no: nat, expectedNo: Option<nat>, rid: RevisionId) returns (outcome: Outcome)
      requires repo.Valid()
      modifies repo`revisions, if id in repo.regions then {repo.regions[id]} else {}
      ensures repo.Valid() && repo.regions == old(repo.regions)
      ensures CarriedOut(old(repo.Store()), Restore(id, no, expectedNo), rid, repo.Store(), outcome)
    {
      if id !in repo.regions || repo.regions[id].deleted {
        return Refused(NotFound);
      }
      var region := repo.regions[id];
      var revisions := repo.ListRevisions(id);
      if region.current.None? || WithId(revisions, region.current.value).None? {
        return Refused(NoSuchRevision);
      }
      var current := WithId(revisions, region.current.value).value;
      if expectedNo.Some? && current.no != expectedNo.value {
        return Refused(Stale);
      }
      var source := WithNo(revisions, no);
      if source.None? {
        return Refused(NoSuchRevision);
      }
      outcome := WriteCopy(region, source.value, current.id, rid);
    }

    method WriteCopy(region: RegionObject, source: Revision, current: RevisionId, rid: RevisionId)
      returns (outcome: Outcome)
      requires repo.Valid() && region.id in repo.regions && repo.regions[region.id] == region
      modifies repo`revisions, region
      ensures repo.Valid() && repo.regions == old(repo.regions)
      ensures var copy := Revision(rid, 0, source.snapshot, RestoredCopy, NeedsReview, false, Some(source.id));
              var w := Write(region.id, copy, Some(current), Some(old(region.locks)));
              repo.Store() == Commit(old(repo.Store()), w) && outcome == Committed(CommitStatus(old(repo.Store()), w))
    {
      ghost var before := repo.Store();
      var staged := Clone(region);
      staged.RestoreFromSnapshot(source.snapshot);
      assert repo.Store() == before;
      outcome := Submit(
        region, staged, rid, RestoredCopy, NeedsReview, Some(source.id), Some(current), Some(region.locks));
    }

    /**
     Each region that stands elsewhere gets its position, counted from one, and a revision. An id that is not one of
     the page's live regions refuses the whole request.
     */
    method ReorderRegions(page: PageId, ids: seq<RegionId>, rids: seq<RevisionId>) returns (found: bool)
      requires repo.Valid() && |ids| <= |rids|
      modifies repo`revisions, repo.regions.Values
      ensures repo.Valid() && repo.regions == old(repo.regions)
      ensures found <==> AllOnPage(old(repo.Store()), page, ids)
      ensures repo.Store() ==
              if found then RegionOrder.MoveFirst(old(repo.Store()), ids, rids, |ids|) else old(repo.Store())
    {
      found := OnPage(page, ids);
      if found {
        MoveRegions(ids, rids);
      }
    }

    method OnPage(page: PageId, ids: seq<RegionId>) returns (found: bool)
      requires repo.Valid()
      ensures found <==> AllOnPage(repo.Store(), page, ids)
    {
      var n := 0;
      while n < |ids|
        invariant 0 <= n <= |ids|
        invariant forall k :: 0 <= k < n ==>
                                ids[k] in repo.regions && !repo.regions[ids[k]].deleted
                                && repo.regions[ids[k]].page == page
      {
        if ids[n] !in repo.regions || repo.regions[ids[n]].deleted || repo.regions[ids[n]].page != page {
          assert ids[n] in ids;
          return false;
        }
        n := n + 1;
      }
      return true;
    }

    method MoveRegions(ids: seq<RegionId>, rids: seq<RevisionId>)
      requires repo.Valid() && |ids| <= |rids| && forall id :: id in ids ==> Live(repo.Store(), id)
      modifies repo`revisions, repo.regions.Values
      ensures repo.Valid() && repo.regions == old(repo.regions)
      ensures repo.Store() == RegionOrder.MoveFirst(old(repo.Store()), ids, rids, |ids|)
    {
      ghost var before := repo.Store();
      var n := 0;
      while n < |ids|
        invariant 0 <= n <= |ids|
        invariant repo.Valid() && repo.regions == old(repo.regions)
        invariant repo.Store() == RegionOrder.MoveFirst(before, ids, rids, n)
        invariant forall id :: id in ids ==> Live(RegionOrder.MoveFirst(before, ids, rids, n), id)
      {
        RegionOrder.MoveOneKeepsLive(RegionOrder.MoveFirst(before, ids, rids, n), ids[n], n + 1, rids[n]);
        assert ids[n] in ids && ids[n] in repo.regions;
        assert repo.regions[ids[n]] in repo.regions.Values;
        MoveRegion(ids[n], n + 1, rids[n]);
        n := n + 1;
      }
    }

    method MoveRegion(id: RegionId, position: int, rid: RevisionId)
      requires repo.Valid() && Live(repo.Store(), id)
      modifies repo`revisions, repo.regions[id]
      ensures repo.Valid() && repo.regions == old(repo.regions)
      ensures repo.Store() == RegionOrder.MoveOne(old(repo.Store()), id, position, rid)
    {
      var region := repo.regions[id];
      if region.order == position {
        return;
      }
      ghost var before := repo.Store();
      var staged := Clone(region);
      staged.order := position;
      assert repo.Store() == before;
      var outcome := Submit(region, staged, rid, User, Unreviewed, None, None, None);
    }

    // ----------------------------------------------------- creation, merge and split

    /** A region enters the store together with its first revision. */
    method CreateWith(
        id: RegionId, page: PageId, state: Snapshot, origin: Origin, rid: RevisionId) returns (region: RegionObject)
      requires repo.Valid() && id !in repo.regions
      modifies repo
      ensures fresh(region) && repo.Valid() && repo.regions == old(repo.regions)[id := region]
      ensures repo.Store() == Create(old(repo.Store()), id, page, state, origin, rid)
    {
      region := new RegionObject(id, page, state);
      repo.AddRegion(region);
      FirstRevision(region, origin, rid);
    }

    method FirstRevision(region: RegionObject, origin: Origin, rid: RevisionId)
      requires repo.Valid() && region.id in repo.regions && repo.regions[region.id] == region
      modifies repo`revisions, region
      ensures repo.Valid() && repo.regions == old(repo.regions)
      ensures var first := Revision(rid, 0, old(region.SnapshotState()), origin, Unreviewed, false, None);
              repo.Store() == Commit(old(repo.Store()), Write(region.id, first, None, None))
    {
      ghost var before := repo.Store();
      var staged := Clone(region);
      assert repo.Store() == before;
      var outcome := Submit(region, staged, rid, origin, Unreviewed, None, None, None);
    }

    /** One more than the highest position on the page, or one. */
    method NextOrder(page: PageId) returns (order: int)
      requires repo.Valid()
      ensures forall id :: Live(repo.Store(), id) && repo.Store().regions[id].page == page ==>
                             repo.Store().regions[id].state.order < order
      ensures order == 1 || exists id :: Live(repo.Store(), id) && repo.Store().regions[id].page == page
                                         && repo.Store().regions[id].state.order == order - 1
    {
      var todo := set id | id in repo.regions && repo.regions[id].page == page && !repo.regions[id].deleted;
      ghost var all := todo;
      var highest: Option<int> := None;
      while todo != {}
        invariant todo <= all
        invariant highest.None? ==> all == todo
        invariant forall id :: id in all - todo ==> highest.Some? && repo.regions[id].order <= highest.value
        invariant highest.Some? ==> exists id :: id in all && repo.regions[id].order == highest.value
        decreases |todo|
      {
        var id :| id in todo;
        if highest.None? || repo.regions[id].order > highest.value {
          highest := Some(repo.regions[id].order);
        }
        todo := todo - {id};
      }
      order := if highest.None? then 1 else highest.value + 1;
      forall id | Live(repo.Store(), id) && repo.Store().regions[id].page == page
        ensures repo.regions[id].order < order
      {
        assert id in repo.regions && id in all;
      }
      if highest.Some? {
        ghost var id :| id in all && repo.regions[id].order == highest.value;
        assert Live(repo.Store(), id);
      }
    }

    /** Without a given position the region goes to the end of the page. */
    method CreateRegion(id: RegionId, page: PageId, geometry: Geometry, kind: RegionType, position: Option<int>,
                        policy: SfxPolicy, origin: Origin, rid: RevisionId)
      returns (region: RegionObject)
      requires repo.Valid() && id !in repo.regions
      modifies repo
      ensures repo.Valid() && repo.regions == old(repo.regions)[id := region]
      ensures repo.Store() ==
              Create(old(repo.Store()), id, page, NewState(kind, region.order, geometry, policy), origin, rid)
      // the stored region: type, geometry and policy as given, no text, no style, no lock, one revision
      ensures var text := Text("", "", "", "", NoFinal, false, false, false);
              var state := Snapshot(kind, region.order, geometry, text, "", policy, Locks(false, false, false));
              && repo.Store().regions[id] == Region(page, state, Some(rid), false)
              && History(repo.Store(), id) == [Revision(rid, 1, state, origin, Unreviewed, false, None)]
      ensures forall other :: other != id ==> RegionOrder.Untouched(old(repo.Store()), repo.Store(), other)
      // its place: as given, or right after the last live region of the page
      ensures position.Some? ==> region.order == position.value
      ensures position.None? ==>
                forall other :: Live(old(repo.Store()), other) && old(repo.Store()).regions[other].page == page ==>
                                  old(repo.Store()).regions[other].state.order < region.order
      ensures position.None? ==>
                region.order == 1
                || exists other :: Live(old(repo.Store()), other) && old(repo.Store()).regions[other].page == page
                                   && old(repo.Store()).regions[other].state.order == region.order - 1
    {
      var order: int;
      if position.Some? {
        order := position.value;
      } else {
        order := NextOrder(page);
      }
      ghost var before := repo.Store();
      region := CreateWith(id, page, NewState(kind, order, geometry, policy), origin, rid);
      assert region.Value() == repo.Store().regions[id];
    }

    /** The merged region is created before the regions it replaces are deleted; two regions of the page at least. */
    method MergeRegions(id: RegionId, page: PageId, ids: seq<RegionId>, rid: RevisionId) returns (ok: bool)
      requires repo.Valid() && id !in repo.regions
      modifies repo, repo.regions.Values
      ensures repo.Valid()
      ensures ok <==> |ids| >= 2 && AllOnPage(old(repo.Store()), page, ids)
      ensures !ok ==> repo.Store() == old(repo.Store())
      ensures ok ==>
                repo.Store() ==
                DeleteFirst(Create(old(repo.Store()), id, page, Merged(old(repo.Store()), ids), User, rid), ids, |ids|)
    {
      if |ids| < 2 {
        return false;
      }
      ok := OnPage(page, ids);
      if ok {
        assert AllOnPage(repo.Store(), page, ids);
        Merge(id, page, ids, rid);
      }
    }

    method Merge(id: RegionId, page: PageId, ids: seq<RegionId>, rid: RevisionId)
      requires repo.Valid() && id !in repo.regions && |ids| > 0 && forall r :: r in ids ==> r in repo.regions
      modifies repo, repo.regions.Values
      ensures repo.Valid()
      ensures repo.Store() ==
              DeleteFirst(Create(old(repo.Store()), id, page, Merged(old(repo.Store()), ids), User, rid), ids, |ids|)
    {
      ghost var before := repo.Store();
      var all := repo.regions[ids[0]].SnapshotState();
      var n := 1;
      while n < |ids|
        invariant 1 <= n <= |ids| && all == MergedAll(before, ids[..n])
      {
        assert ids[..n + 1][..n] == ids[..n];
        all := Merger(all, repo.regions[ids[n]].SnapshotState());
        n := n + 1;
      }
      assert ids[..n] == ids;
      var text := Text(all.text.ocr, all.text.machine, if all.text.manual then all.text.edited else "", "", NoFinal,
                       false, all.text.manual, all.text.manual);
      var merged := Snapshot(all.kind, all.order, all.geometry, Refresh(text), "", all.policy, NO_LOCKS);
      var region := CreateWith(id, page, merged, User, rid);
      DeleteRegions(ids);
    }

    method DeleteRegions(ids: seq<RegionId>)
      requires repo.Valid() && forall r :: r in ids ==> r in repo.regions
      modifies repo.regions.Values
      ensures repo.Valid() && repo.regions == old(repo.regions)
      ensures repo.Store() == DeleteFirst(old(repo.Store()), ids, |ids|)
    {
      ghost var before := repo.Store();
      var n := 0;
      while n < |ids|
        invariant 0 <= n <= |ids| && repo.Valid()
        invariant repo.Store() == DeleteFirst(before, ids, n)
      {
        var id := ids[n];
        assert id in ids && repo.regions[id] in repo.regions.Values;
        repo.SoftDelete(id);
        n := n + 1;
      }
    }

    /** Every part is created from the whole before the whole is deleted; two parts at least. */
    method SplitRegion(
        whole: RegionId, ids: seq<RegionId>, parts: seq<Geometry>, rids: seq<RevisionId>) returns (ok: bool)
      requires repo.Valid() && |parts| <= |ids| && |parts| <= |rids|
      requires RegionOrder.Distinct(ids) && forall id :: id in ids ==> id !in repo.regions
      modifies repo, if whole in repo.regions then {repo.regions[whole]} else {}
      ensures repo.Valid()
      ensures ok <==> Live(old(repo.Store()), whole) && |parts| >= 2
      ensures !ok ==> repo.Store() == old(repo.Store())
      ensures ok ==> repo.Store() == Delete(PartFirst(old(repo.Store()), whole, ids, parts, rids, |parts|), whole)
    {
      if whole !in repo.regions || repo.regions[whole].deleted || |parts| < 2 {
        return false;
      }
      SplitAll(whole, ids, parts, rids);
      return true;
    }

    method SplitAll(whole: RegionId, ids: seq<RegionId>, parts: seq<Geometry>, rids: seq<RevisionId>)
      requires repo.Valid() && whole in repo.regions && |parts| <= |ids| && |parts| <= |rids|
      requires RegionOrder.Distinct(ids) && forall id :: id in ids ==> id !in repo.regions
      modifies repo, repo.regions[whole]
      ensures repo.Valid()
      ensures repo.Store() == Delete(PartFirst(old(repo.Store()), whole, ids, parts, rids, |parts|), whole)
    {
      ghost var before := repo.Store();
      var source := repo.regions[whole];
      var n := 0;
      while n < |parts|
        invariant 0 <= n <= |parts| && repo.Valid()
        invariant whole in repo.regions && repo.regions[whole] == source
        invariant whole !in ids
        invariant forall k :: n <= k < |ids| ==> ids[k] !in repo.regions
        invariant repo.Store() == PartFirst(before, whole, ids, parts, rids, n)
      {
        var id := ids[n];
        assert id in ids;
        PartsLeaveWhole(before, whole, ids, parts, rids, n);
        SplitOff(whole, id, parts[n], n + 1, rids[n]);
        forall k | n < k < |ids| ensures ids[k] !in repo.regions {
          assert ids[k] != id;
        }
        n := n + 1;
      }
      repo.SoftDelete(whole);
    }

    method SplitOff(whole: RegionId, id: RegionId, geometry: Geometry, index: int, rid: RevisionId)
      requires repo.Valid() && whole in repo.regions && id !in repo.regions
      modifies repo
      ensures repo.Valid() && whole in repo.regions && repo.regions[whole] == old(repo.regions)[whole]
      ensures forall other :: other in repo.regions ==> other in old(repo.regions) || other == id
      ensures var s := old(repo.Store());
              repo.Store() ==
              Create(s, id, s.regions[whole].page, Part(s.regions[whole].state, geometry, index), User, rid)
    {
      var source := repo.regions[whole];
      var part := CreateWith(id, source.page, Part(source.SnapshotState(), geometry, index), User, rid);
    }
  }
}
