/**
 Regions with append-only revision histories. A write is planned on the state it
 reads and committed on the state it meets, which another writer may have changed.
 */
module RegionModel {
  import opened Options

  type RegionId = string
  type PageId = string
  type RevisionId = string

  datatype RegionType = Speech | Narration | Sfx | Title | Note | Other
  datatype SfxPolicy = Skip | Translate | Manual
  datatype Origin = Machine | User | Imported | RestoredCopy
  datatype Review = Unreviewed | NeedsReview | Confirmed
  datatype FinalSource = NoFinal | FromEdited | FromMachine

  // ------------------------------------------------------- revision-owned state

  datatype Box = Box(x: int, y: int, width: int, height: int)
  datatype Geometry = Geometry(box: Box, polygon: seq<(int, int)>)

  datatype Text = Text(
    ocr: string, machine: string, edited: string, final: string, source: FinalSource,
    confirmed: bool, manual: bool, locked: bool)

  /** The locks of the region as a whole; `Text.locked` is another lock. */
  datatype Locks = Locks(region: bool, translation: bool, inpaint: bool)

  datatype Snapshot = Snapshot(
    kind: RegionType, order: int, geometry: Geometry, text: Text, style: string, policy: SfxPolicy, locks: Locks)

  const NO_TEXT := Text("", "", "", "", NoFinal, false, false, false)
  const NO_LOCKS := Locks(false, false, false)

  predicate Blank(s: string) { forall c :: c in s ==> c in " \t\n\r" }

  /** A confirmed, non-blank edited text wins, then a non-blank machine text. */
  function Resolve(t: Text): (string, FinalSource) {
    if !Blank(t.edited) && t.confirmed then (t.edited, FromEdited)
    else if !Blank(t.machine) then (t.machine, FromMachine)
    else ("", NoFinal)
  }

  function Refresh(t: Text): Text { t.(final := Resolve(t).0, source := Resolve(t).1) }

  function EffectivePolicy(kind: RegionType, global: SfxPolicy): SfxPolicy { if kind.Sfx? then global else Skip }

  // ------------------------------------------------------- the repository

  datatype Revision = Revision(
    id: RevisionId, no: nat, snapshot: Snapshot, origin: Origin, review: Review, pinned: bool,
    restoredFrom: Option<RevisionId>)

  datatype Region = Region(page: PageId, state: Snapshot, current: Option<RevisionId>, deleted: bool)

  datatype Store = Store(regions: map<RegionId, Region>, history: map<RegionId, seq<Revision>>)

  function History(s: Store, id: RegionId): seq<Revision> { if id in s.history then s.history[id] else [] }

  function MaxNo(revisions: seq<Revision>): nat {
    if |revisions| == 0 then 0
    else
      var rest := MaxNo(revisions[1..]);
      if revisions[0].no > rest then revisions[0].no else rest
  }

  function WithNo(revisions: seq<Revision>, no: nat): Option<Revision> {
    if |revisions| == 0 then None
    else if revisions[0].no == no then Some(revisions[0])
    else WithNo(revisions[1..], no)
  }

  function WithId(revisions: seq<Revision>, id: RevisionId): Option<Revision> {
    if |revisions| == 0 then None
    else if revisions[0].id == id then Some(revisions[0])
    else WithId(revisions[1..], id)
  }

  predicate Live(s: Store, id: RegionId) { id in s.regions && !s.regions[id].deleted }

  // ------------------------------------------------------- the commit seam

  /** A new revision of one region, with what the writer expects to find. */
  datatype Write = Write(
    region: RegionId, revision: Revision, expected: Option<RevisionId>, locks: Option<Locks>)

  datatype Status = Applied(no: nat) | InputChanged | LockChanged | DbFailed

  function Append(s: Store, w: Write): Store
    requires w.region in s.regions
  {
    var stored := w.revision.(no := MaxNo(History(s, w.region)) + 1);
    Store(s.regions[w.region := s.regions[w.region].(state := stored.snapshot, current := Some(stored.id))],
          s.history[w.region := History(s, w.region) + [stored]])
  }

  function CommitStatus(s: Store, w: Write): Status {
    if w.region !in s.regions then DbFailed
    else if w.expected.Some? && s.regions[w.region].current != w.expected then InputChanged
    else if w.locks.Some? && s.regions[w.region].state.locks != w.locks.value then LockChanged
    else Applied(MaxNo(History(s, w.region)) + 1)
  }

  function Commit(s: Store, w: Write): Store {
    if CommitStatus(s, w).Applied? then Append(s, w) else s
  }

  // ------------------------------------------------------- planning a write

  datatype Request =
    | SaveGeometry(id: RegionId, geometry: Geometry, expected: Option<RevisionId>)
    | SetType(id: RegionId, kind: RegionType, global: SfxPolicy, expectedNo: Option<nat>)
    | ApplyOcr(id: RegionId, ocr: string)
    | ApplyMachine(id: RegionId, translation: string, expected: Option<RevisionId>)
    | SaveManual(id: RegionId, edited: string)
    | ConfirmFinal(id: RegionId)
    | Restore(id: RegionId, no: nat, expectedNo: Option<nat>)
    | MoveTo(id: RegionId, position: int)

  datatype Refusal = NotFound | Stale | Locked | NoSuchRevision | Unchanged

  datatype Plan = Go(write: Write) | Refuse(why: Refusal)

  function Draft(r: Request, rid: RevisionId, staged: Snapshot, origin: Origin, review: Review,
                 expected: Option<RevisionId>, locks: Option<Locks>): Plan
  {
    Go(Write(r.id, Revision(rid, 0, staged, origin, review, false, None), expected, locks))
  }

  function PlanType(r: Request, rid: RevisionId, region: Region, revisions: seq<Revision>): Plan
    requires r.SetType?
  {
    var staged := region.state.(kind := r.kind, policy := EffectivePolicy(r.kind, r.global));
    if r.expectedNo.None? then Draft(r, rid, staged, User, Unreviewed, None, None)
    else
      var named := WithNo(revisions, r.expectedNo.value);
      if named.None? || region.current != Some(named.value.id) then Refuse(Stale)
      else Draft(r, rid, staged, User, Unreviewed, Some(named.value.id), None)
  }

  function PlanMachine(r: Request, rid: RevisionId, region: Region): Plan
    requires r.ApplyMachine?
  {
    if r.expected.Some? && region.current != r.expected then Refuse(Stale)
    else if region.state.text.locked || region.state.locks.region then Refuse(Locked)
    else
      Draft(r, rid, region.state.(text := Refresh(region.state.text.(machine := r.translation))),
            Machine, NeedsReview, r.expected, Some(region.state.locks))
  }

  function PlanRestore(r: Request, rid: RevisionId, region: Region, revisions: seq<Revision>): Plan
    requires r.Restore?
  {
    if region.current.None? || WithId(revisions, region.current.value).None? then Refuse(NoSuchRevision)
    else
      var current := WithId(revisions, region.current.value).value;
      if r.expectedNo.Some? && current.no != r.expectedNo.value then Refuse(Stale)
      else
        var source := WithNo(revisions, r.no);
        if source.None? then Refuse(NoSuchRevision)
        else
          Go(Write(r.id,
                   Revision(rid, 0, source.value.snapshot, RestoredCopy, NeedsReview, false, Some(source.value.id)),
                   Some(current.id), Some(region.state.locks)))
  }

  function Arm(t: Text, edited: string): Text { Refresh(t.(edited := edited, manual := true, locked := true)) }

  function ConfirmedText(t: Text): Text { Refresh(if Blank(t.edited) then t else t.(confirmed := true)) }

  /** The write a request comes to on this region, were it not deleted. */
  function PlanFor(region: Region, revisions: seq<Revision>, r: Request, rid: RevisionId): Plan {
    var state := region.state;
    match r
    case SaveGeometry(_, geometry, expected) =>
      Draft(r, rid, state.(geometry := geometry), User, Unreviewed, expected, None)
    case SetType(_, _, _, _) => PlanType(r, rid, region, revisions)
    case ApplyOcr(_, ocr) =>
      Draft(r, rid, state.(text := Refresh(state.text.(ocr := ocr))), Machine, NeedsReview, None, None)
    case ApplyMachine(_, _, _) => PlanMachine(r, rid, region)
    case SaveManual(_, edited) => Draft(r, rid, state.(text := Arm(state.text, edited)), User, NeedsReview, None, None)
    case ConfirmFinal(_) => Draft(r, rid, state.(text := ConfirmedText(state.text)), User, Review.Confirmed, None, None)
    case Restore(_, _, _) => PlanRestore(r, rid, region, revisions)
    case MoveTo(_, position) =>
      if state.order == position then Refuse(Unchanged)
      else Draft(r, rid, state.(order := position), User, Unreviewed, None, None)
  }

  function PlanOn(s: Store, r: Request, rid: RevisionId): Plan {
    if !Live(s, r.id) then Refuse(NotFound) else PlanFor(s.regions[r.id], History(s, r.id), r, rid)
  }

  // ------------------------------------------------------- creation, merge and split

  function Covering(a: Box, b: Box): Box {
    var left, top := if a.x < b.x then a.x else b.x, if a.y < b.y then a.y else b.y;
    var right := if a.x + a.width > b.x + b.width then a.x + a.width else b.x + b.width;
    var bottom := if a.y + a.height > b.y + b.height then a.y + a.height else b.y + b.height;
    Box(left, top, right - left, bottom - top)
  }

  function Union(a: Geometry, b: Geometry): Geometry { Geometry(Covering(a.box, b.box), a.polygon + b.polygon) }

  function Joined(a: string, b: string): string { if a == "" then b else if b == "" then a else a + " " + b }

  /** Two of the regions to be merged, as far as their merger looks at them. */
  function Merger(a: Snapshot, b: Snapshot): Snapshot {
    a.(order := if a.order < b.order then a.order else b.order,
       geometry := Union(a.geometry, b.geometry),
       text := a.text.(ocr := Joined(a.text.ocr, b.text.ocr),
                       machine := Joined(a.text.machine, b.text.machine),
                       edited := Joined(a.text.edited, b.text.edited),
                       manual := a.text.manual || b.text.manual))
  }

  function MergedAll(s: Store, ids: seq<RegionId>): Snapshot
    requires |ids| > 0 && forall id :: id in ids ==> id in s.regions
  {
    if |ids| == 1 then s.regions[ids[0]].state
    else Merger(MergedAll(s, ids[..|ids| - 1]), s.regions[ids[|ids| - 1]].state)
  }

  /** Protection comes from any of the regions; confirmation, style and locks start anew. */
  function Merged(s: Store, ids: seq<RegionId>): Snapshot
    requires |ids| > 0 && forall id :: id in ids ==> id in s.regions
  {
    var all := MergedAll(s, ids);
    Snapshot(all.kind, all.order, all.geometry,
             Refresh(Text(all.text.ocr, all.text.machine, if all.text.manual then all.text.edited else "", "", NoFinal,
                          false, all.text.manual, all.text.manual)),
             "", all.policy, NO_LOCKS)
  }

  /** The part with this index, counted from one. */
  function Part(source: Snapshot, geometry: Geometry, index: int): Snapshot {
    Snapshot(source.kind, source.order + index - 1, geometry,
             Refresh(NO_TEXT.(ocr := source.text.ocr, manual := source.text.manual, locked := source.text.locked)),
             "", source.policy, NO_LOCKS)
  }

  function Create(s: Store, id: RegionId, page: PageId, state: Snapshot, origin: Origin, rid: RevisionId): Store {
    Append(Store(s.regions[id := Region(page, state, None, false)], s.history[id := []]),
           Write(id, Revision(rid, 0, state, origin, Unreviewed, false, None), None, None))
  }

  function Delete(s: Store, id: RegionId): Store {
    if id in s.regions then s.(regions := s.regions[id := s.regions[id].(deleted := true)]) else s
  }

  function DeleteFirst(s: Store, ids: seq<RegionId>, n: nat): Store
    requires n <= |ids|
  {
    if n == 0 then s else Delete(DeleteFirst(s, ids, n - 1), ids[n - 1])
  }

  /** The parts are created one after the other from the same whole. */
  function PartFirst(
    s: Store, whole: RegionId, ids: seq<RegionId>, parts: seq<Geometry>, rids: seq<RevisionId>, n: nat): (after: Store)
    requires n <= |parts| <= |ids| && n <= |rids| && whole in s.regions
    ensures whole in after.regions
  {
    if n == 0 then s
    else
      Create(PartFirst(s, whole, ids, parts, rids, n - 1), ids[n - 1], s.regions[whole].page,
             Part(s.regions[whole].state, parts[n - 1], n), User, rids[n - 1])
  }

  function Pinned(revisions: seq<Revision>, no: nat, pinned: bool): seq<Revision> {
    if |revisions| == 0 then []
    else [if revisions[0].no == no then revisions[0].(pinned := pinned) else revisions[0]]
         + Pinned(revisions[1..], no, pinned)
  }

  // ------------------------------------------------------- runs

  datatype Home = Held | Placed(region: RegionId, index: nat) | Spent

  /** The repository, the planned writes by their revision ids, and where each revision id has gone. */
  datatype System = System(store: Store, planned: map<RevisionId, Write>, home: map<RevisionId, Home>)

  datatype Step =
    | CreateRegion(id: RegionId, page: PageId, kind: RegionType, order: int, geometry: Geometry, policy: SfxPolicy,
                   origin: Origin, rid: RevisionId)
    | MergeInto(id: RegionId, page: PageId, ids: seq<RegionId>, rid: RevisionId)
    | SplitOff(id: RegionId, whole: RegionId, geometry: Geometry, index: int, rid: RevisionId)
    | DeleteRegion(id: RegionId)
    | PinRevision(id: RegionId, no: nat, pinned: bool)
    | Begin(request: Request, rid: RevisionId)
    | Finish(rid: RevisionId)

  const EMPTY := System(Store(map[], map[]), map[], map[])

  function NewState(kind: RegionType, order: int, geometry: Geometry, policy: SfxPolicy): Snapshot {
    Snapshot(kind, order, geometry, NO_TEXT, "", policy, NO_LOCKS)
  }

  predicate Enabled(y: System, step: Step) {
    match step
    case CreateRegion(id, _, _, _, _, _, _, rid) => id !in y.store.regions && rid !in y.home
    case MergeInto(id, page, ids, rid) =>
      id !in y.store.regions && rid !in y.home && |ids| >= 2
      && forall r :: r in ids ==> Live(y.store, r) && y.store.regions[r].page == page
    case SplitOff(id, whole, _, _, rid) => id !in y.store.regions && rid !in y.home && Live(y.store, whole)
    case DeleteRegion(id) => Live(y.store, id)
    case PinRevision(id, _, _) => id in y.store.history
    case Begin(request, rid) => rid !in y.home
    case Finish(rid) => rid in y.planned
  }

  function Born(y: System, id: RegionId, page: PageId, state: Snapshot, origin: Origin, rid: RevisionId): System {
    y.(store := Create(y.store, id, page, state, origin, rid), home := y.home[rid := Placed(id, 0)])
  }

  function Begun(y: System, request: Request, rid: RevisionId): System {
    var plan := PlanOn(y.store, request, rid);
    if plan.Refuse? then y.(home := y.home[rid := Spent])
    else y.(planned := y.planned[rid := plan.write], home := y.home[rid := Held])
  }

  function Finished(y: System, rid: RevisionId): System
    requires rid in y.planned
  {
    var w := y.planned[rid];
    var home := if CommitStatus(y.store, w).Applied? then Placed(w.region, |History(y.store, w.region)|) else Spent;
    System(Commit(y.store, w), y.planned - {rid}, y.home[rid := home])
  }

  function Next(y: System, step: Step): System
    requires Enabled(y, step)
  {
    match step
    case CreateRegion(id, page, kind, order, geometry, policy, origin, rid) =>
      Born(y, id, page, NewState(kind, order, geometry, policy), origin, rid)
    case MergeInto(id, page, ids, rid) => Born(y, id, page, Merged(y.store, ids), User, rid)
    case SplitOff(id, whole, geometry, index, rid) =>
      Born(y, id, y.store.regions[whole].page, Part(y.store.regions[whole].state, geometry, index), User, rid)
    case DeleteRegion(id) => y.(store := Delete(y.store, id))
    case PinRevision(id, no, pinned) =>
      y.(store := y.store.(history := y.store.history[id := Pinned(y.store.history[id], no, pinned)]))
    case Begin(request, rid) => Begun(y, request, rid)
    case Finish(rid) => Finished(y, rid)
  }

  function Do(y: System, step: Step): System {
    if Enabled(y, step) then Next(y, step) else y
  }

  function Run(y: System, steps: seq<Step>): System
    decreases |steps|
  {
    if |steps| == 0 then y else Run(Do(y, steps[0]), steps[1..])
  }
}
