/**
 Runs that end where the documentation says no run can. Each is given for every
 export id `e`, every target `t` and every content `c`.
 */
module ExportFaults {
  import opened Options
  import opened ExportModel

  /** An export runs up to the replace of its target. */
  function Publish(e: Id, t: Path, c: Content): seq<Step> {
    [Accept(e, t, 1, true), BeginRun(e, "p", true), CheckCancel(e), OpenTemp(e, 0), Write(e, c),
     PassCancel(e), Enter(e), WriteIntent(e, true), Replace(e, true)]
  }

  /** A poll completes the export; then the worker cannot read the target it has just published. */
  function Late(e: Id): seq<Step> {
    [Mark(e, true), ReconcileRead(0, e), ReconcileVerify(0), ReconcileComplete(0, 7, true),
     Raise(e), CheckFailure(e), ReportFailed(e, 8, true)]
  }

  /** The store rejects the mark, the process dies, and at the restart the target cannot be read. */
  function Blind(e: Id, t: Path): seq<Step> { [Mark(e, false), Crash, Restart(9, {t}, true)] }

  /** The process dies before any intent is stored. */
  function Leak(now: Time): seq<Step> { [Crash, Restart(now, {}, true)] }

  lemma {:induction false} RunInTwo(s: State, first: seq<Step>, rest: seq<Step>)
    ensures Run(s, first + rest) == Run(Run(s, first), rest)
    decreases |first|
  {
    if |first| == 0 {
      assert first + rest == rest;
    } else {
      assert (first + rest)[1..] == first[1..] + rest;
      RunInTwo(Do(s, first[0]), first[1..], rest);
    }
  }

  /** One more step of a run given by its prefixes. */
  lemma Extend(s: State, steps: seq<Step>, k: nat, before: State, after: State)
    requires k < |steps| && Run(s, steps[..k]) == before && Do(before, steps[k]) == after
    ensures Run(s, steps[..k + 1]) == after
  {
    assert steps[..k + 1] == steps[..k] + [steps[k]];
    RunInTwo(s, steps[..k], [steps[k]]);
    assert Run(before, [steps[k]]) == Run(after, [steps[k]][1..]) == after;
  }

  lemma Join(s: State, first: seq<Step>, rest: seq<Step>, mid: State, end: State)
    requires Run(s, first[..|first|]) == mid && Run(mid, rest[..|rest|]) == end
    ensures Run(s, first + rest) == end
  {
    assert first[..|first|] == first && rest[..|rest|] == rest;
    RunInTwo(s, first, rest);
  }

  // ------------------------------------------------------- a runtime that knows one export

  function Tmp(t: Path): Temp { Temp(t, 0) }
  function Job1(e: Id, t: Path): Job { Accepted(e, t, 1) }
  function Job2(e: Id, t: Path): Job { Changed(Job1(e, t), Started(Job1(e, t).snapshot, "p")) }
  function Job3(e: Id, t: Path, c: Content): Job { Intending(Job2(e, t), c, Tmp(t)) }
  function Job4(e: Id, t: Path, c: Content): Job { Marked(Job3(e, t, c), c) }
  function Job5(e: Id, t: Path, c: Content): Job { Changed(Job4(e, t, c), Reconciled(Job4(e, t, c).snapshot, 7)) }
  function Job6(e: Id, t: Path, c: Content): Job { Changed(Job5(e, t, c), Broken(Job5(e, t, c).snapshot, 8)) }

  function Solo(e: Id, job: Job, w: Worker, readers: map<nat, Reader>, lock: Option<Id>): Option<Process> {
    Some(Process(map[e := job], map[e := w], readers, lock))
  }

  function Fresh(pc: Pc): Worker { Worker(pc, None, [], false) }
  function Full(t: Path, c: Content, pc: Pc): Worker { Worker(pc, Some(Tmp(t)), c, false) }

  /** Before the temporary file is opened. */
  function Early(e: Id, job: Job, pc: Pc): State {
    State(Solo(e, job, Fresh(pc), map[], None), Disk(map[e := job], map[], map[]), Log({e}, map[], map[], {}, {}))
  }

  /** With the content in the temporary file. */
  function Middle(e: Id, t: Path, c: Content, pc: Pc, job: Job, stored: Job, lock: Option<Id>): State {
    State(Solo(e, job, Full(t, c, pc), map[], lock), Disk(map[e := stored], map[], map[Tmp(t) := c]),
          Log({e}, map[Tmp(t) := e], map[], {}, {}))
  }

  /** After the replace. */
  function Published(
    e: Id, t: Path, c: Content, pc: Pc, job: Job, stored: Job, readers: map<nat, Reader>, lock: Option<Id>): State
  {
    State(Solo(e, job, Full(t, c, pc), readers, lock), Disk(map[e := stored], map[t := c], map[]),
          Log({e}, map[Tmp(t) := e], map[e := t], {}, {}))
  }

  lemma Overwrites<K, T>(e: K, a: T, b: T)
    ensures map[e := a][e := b] == map[e := b]
  {
  }

  lemma SoloMove(s: State, e: Id, job: Job, w: Worker, readers: map<nat, Reader>, step: Step)
    requires s.up == Solo(e, job, w, readers, None) && Moves(step) && step.id == e && Enabled(s, step)
    ensures Do(s, step) ==
            s.(up := Solo(e, job, w.(pc := Destination(step, w, job.snapshot.status)), readers, None))
  {
    Overwrites(e, w, w.(pc := Destination(step, w, job.snapshot.status)));
  }

  lemma SoloReport(s: State, e: Id, job: Job, w: Worker, readers: map<nat, Reader>, step: Step)
    requires s.up == Solo(e, job, w, readers, None) && Reports(step) && step.id == e && step.ok && Enabled(s, step)
    ensures var next := Changed(job, Report(step, w, job));
            Do(s, step) == State(Solo(e, next, w.(pc := AfterReport(step)), readers, None),
                                 s.disk.(jobs := map[e := next]), s.log)
  {
    Overwrites(e, w, w.(pc := AfterReport(step)));
    Overwrites(e, job, Changed(job, Report(step, w, job)));
  }

  // ------------------------------------------------------- up to the replace

  lemma Accepts(e: Id, t: Path, c: Content)
    ensures Do(INITIAL, Publish(e, t, c)[0]) == Early(e, Job1(e, t), Spawned)
  {
    assert {} + {e} == {e};
  }

  lemma Starts(e: Id, t: Path, c: Content)
    ensures Do(Early(e, Job1(e, t), Spawned), Publish(e, t, c)[1]) == Early(e, Job2(e, t), Entering)
    ensures Do(Early(e, Job2(e, t), Entering), Publish(e, t, c)[2]) == Early(e, Job2(e, t), Resolving)
  {
    SoloReport(Early(e, Job1(e, t), Spawned), e, Job1(e, t), Fresh(Spawned), map[], Publish(e, t, c)[1]);
    SoloMove(Early(e, Job2(e, t), Entering), e, Job2(e, t), Fresh(Entering), map[], Publish(e, t, c)[2]);
  }

  lemma Opens(e: Id, t: Path, c: Content)
    ensures Do(Early(e, Job2(e, t), Resolving), Publish(e, t, c)[3])
         == Middle(e, t, [], Writing, Job2(e, t), Job2(e, t), None)
  {
    Overwrites(e, Fresh(Resolving), Full(t, [], Writing));
  }

  lemma Fills(e: Id, t: Path, c: Content)
    ensures Do(Middle(e, t, [], Writing, Job2(e, t), Job2(e, t), None), Publish(e, t, c)[4])
         == Middle(e, t, c, Written, Job2(e, t), Job2(e, t), None)
  {
    Overwrites(e, Full(t, [], Writing), Full(t, c, Written));
    Overwrites(Tmp(t), [], c);
  }

  lemma Writes(e: Id, t: Path, c: Content)
    ensures Run(INITIAL, Publish(e, t, c)[..5]) == Middle(e, t, c, Written, Job2(e, t), Job2(e, t), None)
  {
    Accepts(e, t, c); Starts(e, t, c); Opens(e, t, c); Fills(e, t, c);
    Extend(INITIAL, Publish(e, t, c), 0, INITIAL, Early(e, Job1(e, t), Spawned));
    Extend(INITIAL, Publish(e, t, c), 1, Early(e, Job1(e, t), Spawned), Early(e, Job2(e, t), Entering));
    Extend(INITIAL, Publish(e, t, c), 2, Early(e, Job2(e, t), Entering), Early(e, Job2(e, t), Resolving));
    Extend(INITIAL, Publish(e, t, c), 3, Early(e, Job2(e, t), Resolving),
           Middle(e, t, [], Writing, Job2(e, t), Job2(e, t), None));
    Extend(INITIAL, Publish(e, t, c), 4, Middle(e, t, [], Writing, Job2(e, t), Job2(e, t), None),
           Middle(e, t, c, Written, Job2(e, t), Job2(e, t), None));
  }

  lemma Passes(e: Id, t: Path, c: Content)
    ensures Do(Middle(e, t, c, Written, Job2(e, t), Job2(e, t), None), Publish(e, t, c)[5])
         == Middle(e, t, c, Ready, Job2(e, t), Job2(e, t), None)
  {
    SoloMove(Middle(e, t, c, Written, Job2(e, t), Job2(e, t), None), e, Job2(e, t), Full(t, c, Written), map[],
             Publish(e, t, c)[5]);
  }

  lemma Enters(e: Id, t: Path, c: Content)
    ensures Do(Middle(e, t, c, Ready, Job2(e, t), Job2(e, t), None), Publish(e, t, c)[6])
         == Middle(e, t, c, IntentSet, Job3(e, t, c), Job2(e, t), Some(e))
  {
    Overwrites(e, Full(t, c, Ready), Full(t, c, IntentSet));
    Overwrites(e, Job2(e, t), Job3(e, t, c));
  }

  lemma Intends(e: Id, t: Path, c: Content)
    ensures Do(Middle(e, t, c, IntentSet, Job3(e, t, c), Job2(e, t), Some(e)), Publish(e, t, c)[7])
         == Middle(e, t, c, IntentDurable, Job3(e, t, c), Job3(e, t, c), Some(e))
  {
    Overwrites(e, Full(t, c, IntentSet), Full(t, c, IntentDurable));
  }

  lemma Replaces(e: Id, t: Path, c: Content)
    ensures Do(Middle(e, t, c, IntentDurable, Job3(e, t, c), Job3(e, t, c), Some(e)), Publish(e, t, c)[8])
         == Published(e, t, c, Replaced, Job3(e, t, c), Job3(e, t, c), map[], Some(e))
  {
    Overwrites(e, Full(t, c, IntentDurable), Full(t, c, Replaced));
    assert map[Tmp(t) := c] - {Tmp(t)} == map[];
  }

  lemma Publishes(e: Id, t: Path, c: Content)
    ensures Run(INITIAL, Publish(e, t, c)[..9])
         == Published(e, t, c, Replaced, Job3(e, t, c), Job3(e, t, c), map[], Some(e))
  {
    Writes(e, t, c); Passes(e, t, c); Enters(e, t, c); Intends(e, t, c); Replaces(e, t, c);
    var written := Middle(e, t, c, Written, Job2(e, t), Job2(e, t), None);
    var ready := Middle(e, t, c, Ready, Job2(e, t), Job2(e, t), None);
    var entered := Middle(e, t, c, IntentSet, Job3(e, t, c), Job2(e, t), Some(e));
    var intended := Middle(e, t, c, IntentDurable, Job3(e, t, c), Job3(e, t, c), Some(e));
    Extend(INITIAL, Publish(e, t, c), 5, written, ready);
    Extend(INITIAL, Publish(e, t, c), 6, ready, entered);
    Extend(INITIAL, Publish(e, t, c), 7, entered, intended);
    Extend(INITIAL, Publish(e, t, c), 8, intended,
           Published(e, t, c, Replaced, Job3(e, t, c), Job3(e, t, c), map[], Some(e)));
  }

  // ------------------------------------------------------- the late failure

  function Poll(e: Id, t: Path, c: Content, verified: bool): map<nat, Reader> {
    map[0 := Reader(e, Output(t, Sha256(c)), verified)]
  }

  function Marked4(e: Id, t: Path, c: Content, readers: map<nat, Reader>): State {
    Published(e, t, c, PublicationDone, Job4(e, t, c), Job4(e, t, c), readers, None)
  }

  function Done5(e: Id, t: Path, c: Content, pc: Pc): State {
    Published(e, t, c, pc, Job5(e, t, c), Job5(e, t, c), map[], None)
  }

  lemma Marks(e: Id, t: Path, c: Content)
    ensures Do(Published(e, t, c, Replaced, Job3(e, t, c), Job3(e, t, c), map[], Some(e)), Late(e)[0])
         == Marked4(e, t, c, map[])
  {
    Overwrites(e, Job3(e, t, c), Job4(e, t, c));
    Overwrites(e, Full(t, c, Replaced), Full(t, c, PublicationDone));
  }

  lemma PollReads(e: Id, t: Path, c: Content)
    ensures Do(Marked4(e, t, c, map[]), Late(e)[1]) == Marked4(e, t, c, Poll(e, t, c, false))
  {
    assert map[][0 as nat := Reader(e, Output(t, Sha256(c)), false)] == Poll(e, t, c, false);
  }

  lemma PollVerifies(e: Id, t: Path, c: Content)
    ensures Do(Marked4(e, t, c, Poll(e, t, c, false)), Late(e)[2]) == Marked4(e, t, c, Poll(e, t, c, true))
  {
    Overwrites(0 as nat, Reader(e, Output(t, Sha256(c)), false), Reader(e, Output(t, Sha256(c)), true));
  }

  lemma PollCompletes(e: Id, t: Path, c: Content)
    ensures Do(Marked4(e, t, c, Poll(e, t, c, true)), Late(e)[3]) == Done5(e, t, c, PublicationDone)
  {
    assert Poll(e, t, c, true) - {0} == map[];
    Overwrites(e, Job4(e, t, c), Job5(e, t, c));
  }

  lemma Raises(e: Id, t: Path, c: Content)
    ensures Do(Done5(e, t, c, PublicationDone), Late(e)[4]) == Done5(e, t, c, Checking)
    ensures Do(Done5(e, t, c, Checking), Late(e)[5]) == Done5(e, t, c, Failing)
  {
    SoloMove(Done5(e, t, c, PublicationDone), e, Job5(e, t, c), Full(t, c, PublicationDone), map[], Late(e)[4]);
    SoloMove(Done5(e, t, c, Checking), e, Job5(e, t, c), Full(t, c, Checking), map[], Late(e)[5]);
  }

  lemma ReportsFailure(e: Id, t: Path, c: Content)
    ensures Do(Done5(e, t, c, Failing), Late(e)[6])
         == Published(e, t, c, Finishing, Job6(e, t, c), Job6(e, t, c), map[], None)
  {
    SoloReport(Done5(e, t, c, Failing), e, Job5(e, t, c), Full(t, c, Failing), map[], Late(e)[6]);
  }

  lemma FailsLate(e: Id, t: Path, c: Content)
    ensures Run(Published(e, t, c, Replaced, Job3(e, t, c), Job3(e, t, c), map[], Some(e)), Late(e)[..7])
         == Published(e, t, c, Finishing, Job6(e, t, c), Job6(e, t, c), map[], None)
  {
    Marks(e, t, c); PollReads(e, t, c); PollVerifies(e, t, c); PollCompletes(e, t, c);
    Raises(e, t, c); ReportsFailure(e, t, c);
    var s := Published(e, t, c, Replaced, Job3(e, t, c), Job3(e, t, c), map[], Some(e));
    Extend(s, Late(e), 0, s, Marked4(e, t, c, map[]));
    Extend(s, Late(e), 1, Marked4(e, t, c, map[]), Marked4(e, t, c, Poll(e, t, c, false)));
    Extend(s, Late(e), 2, Marked4(e, t, c, Poll(e, t, c, false)), Marked4(e, t, c, Poll(e, t, c, true)));
    Extend(s, Late(e), 3, Marked4(e, t, c, Poll(e, t, c, true)), Done5(e, t, c, PublicationDone));
    Extend(s, Late(e), 4, Done5(e, t, c, PublicationDone), Done5(e, t, c, Checking));
    Extend(s, Late(e), 5, Done5(e, t, c, Checking), Done5(e, t, c, Failing));
    Extend(s, Late(e), 6, Done5(e, t, c, Failing),
           Published(e, t, c, Finishing, Job6(e, t, c), Job6(e, t, c), map[], None));
  }

  /** The export is reported as failed although it published and its target holds its bytes. */
  predicate FailedThoughIntact(s: State, e: Id, t: Path, c: Content) {
    && s.up.Some? && e in s.up.value.jobs && s.up.value.jobs[e].snapshot.status.Failed?
    && e in s.log.published && s.disk.files == map[t := c]
  }

  /** A reachable run in which a completed export is turned into a failed one. */
  lemma LateFailureHappens(e: Id, t: Path, c: Content)
    ensures FailedThoughIntact(Run(INITIAL, Publish(e, t, c) + Late(e)), e, t, c)
  {
    Publishes(e, t, c); FailsLate(e, t, c);
    Join(INITIAL, Publish(e, t, c), Late(e),
         Published(e, t, c, Replaced, Job3(e, t, c), Job3(e, t, c), map[], Some(e)),
         Published(e, t, c, Finishing, Job6(e, t, c), Job6(e, t, c), map[], None));
  }

  // ------------------------------------------------------- the blind restart

  function Down(e: Id, t: Path, c: Content): State {
    State(None, Disk(map[e := Job3(e, t, c)], map[t := c], map[]), Log({e}, map[Tmp(t) := e], map[e := t], {}, {}))
  }

  function Unmarked(e: Id, t: Path, c: Content): State {
    Published(e, t, c, Unwinding(false), Job4(e, t, c), Job3(e, t, c), map[], None)
  }

  lemma LosesMark(e: Id, t: Path, c: Content)
    ensures Do(Published(e, t, c, Replaced, Job3(e, t, c), Job3(e, t, c), map[], Some(e)), Mark(e, false))
         == Unmarked(e, t, c)
  {
    Overwrites(e, Job3(e, t, c), Job4(e, t, c));
    Overwrites(e, Full(t, c, Replaced), Full(t, c, Unwinding(false)));
  }

  lemma DiesUnmarked(e: Id, t: Path, c: Content)
    ensures Do(Unmarked(e, t, c), Crash) == Down(e, t, c)
  {
  }

  lemma RestartsBlind(e: Id, t: Path, c: Content)
    ensures FailedThoughIntact(Do(Down(e, t, c), Blind(e, t)[2]), e, t, c)
  {
  }

  /** A reachable run in which the restart fails a published export. */
  lemma BlindRestartHappens(e: Id, t: Path, c: Content)
    ensures FailedThoughIntact(Run(INITIAL, Publish(e, t, c) + Blind(e, t)), e, t, c)
  {
    Publishes(e, t, c); LosesMark(e, t, c); DiesUnmarked(e, t, c); RestartsBlind(e, t, c);
    var s := Published(e, t, c, Replaced, Job3(e, t, c), Job3(e, t, c), map[], Some(e));
    Extend(s, Blind(e, t), 0, s, Unmarked(e, t, c));
    Extend(s, Blind(e, t), 1, Unmarked(e, t, c), Down(e, t, c));
    Extend(s, Blind(e, t), 2, Down(e, t, c), Do(Down(e, t, c), Blind(e, t)[2]));
    Join(INITIAL, Publish(e, t, c), Blind(e, t), s, Do(Down(e, t, c), Blind(e, t)[2]));
  }

  // ------------------------------------------------------- the leak

  predicate LeftBehind(s: State, e: Id, t: Path) {
    && s.up.Some? && e in s.up.value.jobs && s.up.value.jobs[e].snapshot.status.Failed?
    && Tmp(t) in s.disk.temps
  }

  function HalfWritten(e: Id, t: Path, c: Content): State {
    State(None, Disk(map[e := Job2(e, t)], map[], map[Tmp(t) := c]),
          Log({e}, map[Tmp(t) := e], map[], {}, {Tmp(t)}))
  }

  lemma Crashes(e: Id, t: Path, c: Content, now: Time)
    ensures Do(Middle(e, t, c, Written, Job2(e, t), Job2(e, t), None), Leak(now)[0]) == HalfWritten(e, t, c)
  {
  }

  lemma RestartsLeaking(e: Id, t: Path, c: Content, now: Time)
    ensures LeftBehind(Do(HalfWritten(e, t, c), Leak(now)[1]), e, t)
  {
  }

  /** A reachable run that ends with a failed export and its temporary file left behind. */
  lemma CrashWhileWritingLeaks(e: Id, t: Path, c: Content, now: Time)
    ensures LeftBehind(Run(INITIAL, Publish(e, t, c)[..5] + Leak(now)), e, t)
  {
    Writes(e, t, c); Crashes(e, t, c, now); RestartsLeaking(e, t, c, now);
    var s := Middle(e, t, c, Written, Job2(e, t), Job2(e, t), None);
    Extend(s, Leak(now), 0, s, HalfWritten(e, t, c));
    Extend(s, Leak(now), 1, HalfWritten(e, t, c), Do(HalfWritten(e, t, c), Leak(now)[1]));
    var first := Publish(e, t, c)[..5];
    assert first[..|first|] == first;
    Join(INITIAL, first, Leak(now), s, Do(HalfWritten(e, t, c), Leak(now)[1]));
  }
}
