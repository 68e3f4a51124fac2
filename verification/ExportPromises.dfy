/**
 What a cancellation promises beyond the bytes of the target: how an export that was told it would stop, and never
 published, can still be shown as published.
 */
module ExportPromises {
  import opened Options
  import opened ExportModel
  import opened ExportSafety
  import opened ExportTheorems
  import ExportFaults

  // ------------------------------------------------------- only one way leads there

  /** Nowhere is the export recorded as publishing or completed, and no poll is about to complete it. */
  ghost predicate Unwon(s: State, id: Id) {
    (id in s.disk.jobs ==> !Won(s.disk.jobs[id].snapshot.status))
    && (s.up.Some? ==>
          (id in s.up.value.jobs ==> !Won(s.up.value.jobs[id].snapshot.status))
          && forall r :: r in s.up.value.readers ==> s.up.value.readers[r].id != id)
  }

  /** A restart that finds the intended bytes of the export at its target. */
  ghost predicate MistakesBytes(s: State, step: Step, id: Id) {
    step.Restart? && step.ok && Enabled(s, step) && id in s.disk.jobs && Open(s.disk.jobs[id].snapshot.status)
    && IntentHolds(s.disk.jobs[id], s.disk.files, step.unreadable)
  }

  lemma ChangeKeepsUnwon(s: State, j: Id, snapshot: Snapshot, ok: bool, id: Id)
    requires Unwon(s, id) && s.up.Some? && j in s.up.value.jobs && (j == id ==> !Won(snapshot.status))
    ensures Unwon(Change(s, j, snapshot, ok), id)
  {
  }

  lemma MovingOnKeepsUnwon(s: State, j: Id, pc: Pc, id: Id)
    requires Unwon(s, id) && s.up.Some? && j in s.up.value.workers
    ensures Unwon(At(s, j, pc), id)
  {
  }

  /** Only an export that has published is ever reported as publishing or completed by its worker. */
  lemma UnpublishedReports(s: State, step: Step)
    requires Inv(s) && Enabled(s, step) && Reports(step) && step.id !in s.log.published
    requires !Won(s.up.value.jobs[step.id].snapshot.status)
    ensures !Won(Report(step, s.up.value.workers[step.id], s.up.value.jobs[step.id]).status)
  {
    assert JobFits(s, step.id);
  }

  lemma ReportKeepsUnwon(s: State, step: Step, id: Id)
    requires Inv(s) && id in s.log.promised && Unwon(s, id) && Enabled(s, step) && Reports(step)
    ensures Unwon(Next(s, step), id)
  {
    assert JobFits(s, id);
    var p := s.up.value;
    var report := Report(step, p.workers[step.id], p.jobs[step.id]);
    if step.id == id {
      UnpublishedReports(s, step);
    }
    ChangeKeepsUnwon(s, step.id, report, step.ok, id);
    MovingOnKeepsUnwon(Change(s, step.id, report, step.ok), step.id, AfterReport(step), id);
  }

  lemma FileStepKeepsUnwon(s: State, step: Step, id: Id)
    requires Inv(s) && id in s.log.promised && Unwon(s, id) && Enabled(s, step)
    requires WorkerStep(step) && !Reports(step) && !Moves(step)
    ensures Unwon(Next(s, step), id)
  {
    assert JobFits(s, id);
  }

  lemma OtherStepKeepsUnwon(s: State, step: Step, id: Id)
    requires Inv(s) && id in s.log.promised && Unwon(s, id) && Enabled(s, step) && !WorkerStep(step)
    requires !MistakesBytes(s, step, id)
    ensures Unwon(Next(s, step), id)
  {
    assert JobFits(s, id);
    if step.Restart? {
    } else if step.ReconcileComplete? {
    } else {
    }
  }

  lemma StepKeepsUnwon(s: State, step: Step, id: Id)
    requires Inv(s) && id in s.log.promised && Unwon(s, id) && Enabled(s, step) && !MistakesBytes(s, step, id)
    ensures Unwon(Next(s, step), id)
  {
    if Moves(step) {
    } else if Reports(step) {
      ReportKeepsUnwon(s, step, id);
    } else if WorkerStep(step) {
      FileStepKeepsUnwon(s, step, id);
    } else {
      OtherStepKeepsUnwon(s, step, id);
    }
  }

  lemma {:induction false} RunKeepsUnwon(s: State, steps: seq<Step>, id: Id)
    requires Inv(s) && id in s.log.promised && Unwon(s, id)
    requires forall k :: 0 <= k < |steps| ==> !MistakesBytes(Run(s, steps[..k]), steps[k], id)
    ensures Unwon(Run(s, steps), id)
    decreases |steps|
  {
    if |steps| > 0 {
      var s' := Do(s, steps[0]);
      assert steps[..0] == [];
      assert Run(s, steps[..0]) == s;
      if Enabled(s, steps[0]) {
        StepKeeps(s, steps[0]);
        StepRemembers(s, steps[0]);
        StepKeepsUnwon(s, steps[0], id);
      }
      forall k | 0 <= k < |steps| - 1 ensures !MistakesBytes(Run(s', steps[1..][..k]), steps[1..][k], id) {
        assert steps[..k + 1][1..] == steps[1..][..k];
        assert Run(s, steps[..k + 1]) == Run(s', steps[1..][..k]);
        assert !MistakesBytes(Run(s, steps[..k + 1]), steps[k + 1], id);
      }
      RunKeepsUnwon(s', steps[1..], id);
    }
  }

  lemma CancelledIsUnwon(s: State, id: Id)
    requires TrueOf(s, id) && Enabled(s, Cancel(id)) && Open(s.up.value.jobs[id].snapshot.status)
    ensures var s' := Next(s, Cancel(id)); Inv(s') && id in s'.log.promised && Unwon(s', id)
  {
    StepKeeps(s, Cancel(id));
    assert JobFits(s, id);
    forall r | r in s.up.value.readers ensures s.up.value.readers[r].id != id {
      assert ReaderFits(s, r);
    }
  }

  predicate ShownAsWon(s: State, id: Id) { Visible(s, id) && Won(StatusOf(s, id)) }

  lemma WonMeansMistaken(s: State, id: Id, steps: seq<Step>)
    requires Inv(s) && id in s.log.promised && Unwon(s, id) && ShownAsWon(Run(s, steps), id)
    ensures exists k :: 0 <= k < |steps| && MistakesBytes(Run(s, steps[..k]), steps[k], id)
  {
    if forall k :: 0 <= k < |steps| ==> !MistakesBytes(Run(s, steps[..k]), steps[k], id) {
      RunKeepsUnwon(s, steps, id);
    }
  }

  lemma OneMore(s: State, steps: seq<Step>, step: Step)
    ensures Run(s, steps + [step]) == Do(Run(s, steps), step)
  {
    ExportFaults.RunInTwo(s, steps, [step]);
    assert Run(Run(s, steps), [step]) == Run(Do(Run(s, steps), step), [step][1..]);
  }

  lemma MistakenIsWon(s: State, id: Id, steps: seq<Step>, k: nat)
    requires k < |steps| && MistakesBytes(Run(s, steps[..k]), steps[k], id)
    ensures ShownAsWon(Run(s, steps[..k + 1]), id)
  {
    assert steps[..k + 1] == steps[..k] + [steps[k]];
    OneMore(s, steps[..k], steps[k]);
    RestartTrustsTheBytes(Run(s, steps[..k]), steps[k].now, steps[k].unreadable, id);
  }

  /**
   An export whose cancellation was answered with pending or running is at some moment after it shown as publishing or
   completed if and only if some restart found its intended bytes at its target.
   */
  lemma PromisedIsWonExactlyByRestart(s: State, s1: State, id: Id, steps: seq<Step>)
    requires TrueOf(s, id) && Enabled(s, Cancel(id)) && Open(s.up.value.jobs[id].snapshot.status)
    requires s1 == Next(s, Cancel(id))
    ensures (exists k :: 0 <= k <= |steps| && ShownAsWon(Run(s1, steps[..k]), id))
            <==> (exists k :: 0 <= k < |steps| && MistakesBytes(Run(s1, steps[..k]), steps[k], id))
  {
    CancelledIsUnwon(s, id);
    if k :| 0 <= k <= |steps| && ShownAsWon(Run(s1, steps[..k]), id) {
      var first := steps[..k];
      WonMeansMistaken(s1, id, first);
      var j :| 0 <= j < k && MistakesBytes(Run(s1, first[..j]), first[j], id);
      assert first[..j] == steps[..j];
      assert MistakesBytes(Run(s1, steps[..j]), steps[j], id);
    }
    if k :| 0 <= k < |steps| && MistakesBytes(Run(s1, steps[..k]), steps[k], id) {
      MistakenIsWon(s1, id, steps, k);
    }
  }

  // ------------------------------------------------------- the run

  ghost predicate Holds(s: State, t: Path, c: Content) { t in s.disk.files && s.disk.files[t] == c }

  /** The runtime is idle as far as a new export of `c` to `t` is concerned, and the target holds `c`. */
  ghost predicate Quiet(s: State, e: Id, t: Path, c: Content) {
    s.up.Some? && s.up.value.lock.None? && e !in s.log.used && e !in s.log.published && Holds(s, t, c)
  }

  /** The export is under way and has not published. */
  ghost predicate Going(s: State, e: Id, t: Path, c: Content, pc: Pc, lock: Option<Id>) {
    s.up.Some? && s.up.value.lock == lock && e in s.up.value.workers && e in s.up.value.jobs
    && s.up.value.workers[e].pc == pc && !s.up.value.workers[e].cancelled
    && s.up.value.jobs[e].target == t && Open(s.up.value.jobs[e].snapshot.status)
    && e !in s.log.published && Holds(s, t, c)
  }

  ghost predicate Early(s: State, e: Id, t: Path, c: Content, n: nat, pc: Pc) {
    Going(s, e, t, c, pc, None) && Temp(t, n) !in s.log.names
  }

  ghost predicate Filled(s: State, e: Id, t: Path, c: Content, n: nat, pc: Pc, lock: Option<Id>) {
    Going(s, e, t, c, pc, lock) && s.up.value.workers[e].temp == Some(Temp(t, n))
    && Temp(t, n) in s.disk.temps
    && (!pc.Writing? ==> s.disk.temps[Temp(t, n)] == c)
  }

  ghost predicate Intends(s: State, e: Id, t: Path, c: Content, n: nat) {
    Filled(s, e, t, c, n, IntentSet, Some(e)) && s.up.value.jobs[e].intent == EchoIntent(t, c, n)
  }

  function EchoIntent(t: Path, c: Content, n: nat): Option<Intent> { Some(Intent(t, Sha256(c), Temp(t, n))) }

  /** The intent is stored, and the target happens to hold what it names. */
  ghost predicate Stored(s: State, e: Id, t: Path, c: Content, n: nat) {
    e in s.disk.jobs && Open(s.disk.jobs[e].snapshot.status) && s.disk.jobs[e].intent == EchoIntent(t, c, n)
    && e !in s.log.published && Holds(s, t, c)
  }

  ghost predicate Doomed(s: State, e: Id, t: Path, c: Content, n: nat, up: bool) {
    s.up.Some? == up && e in s.log.promised && Stored(s, e, t, c, n)
  }

  /** The export is shown with this status, although it was promised to stop and has never published. */
  ghost predicate ShownThoughPromised(s: State, e: Id, status: Status) {
    Visible(s, e) && StatusOf(s, e) == status && e in s.log.promised && e !in s.log.published
  }

  ghost predicate CameUp(s: State, e: Id, t: Path, c: Content) {
    ShownThoughPromised(s, e, Publishing) && Holds(s, t, c) && s.up.value.lock.None? && s.up.value.readers == map[]
    && s.up.value.jobs[e].snapshot.output == Some(Output(t, Sha256(c)))
  }

  ghost predicate Polled(s: State, e: Id, t: Path, c: Content, verified: bool) {
    ShownThoughPromised(s, e, Publishing) && Holds(s, t, c) && s.up.value.lock.None? && 0 in s.up.value.readers
    && s.up.value.readers[0] == Reader(e, Output(t, Sha256(c)), verified)
  }

  /** Only finitely many temporary names have been given away. */
  lemma {:induction false} UnusedNonce(names: set<Temp>, t: Path) returns (n: nat)
    ensures forall m: nat :: m >= n ==> Temp(t, m) !in names
    decreases |names|
  {
    n := 0;
    if used :| used in names {
      n := UnusedNonce(names - {used}, t);
      n := if n > used.nonce then n else used.nonce + 1;
      forall m: nat | m >= n ensures Temp(t, m) !in names {
        assert Temp(t, m) != used;
      }
    }
  }

  lemma IsAccepted(s: State, steps: seq<Step>, e: Id, t: Path, c: Content, n: nat) returns (more: seq<Step>)
    requires Quiet(Run(s, steps), e, t, c) && Temp(t, n) !in Run(s, steps).log.names
    ensures Early(Run(s, more), e, t, c, n, Spawned)
  {
    more := steps + [Accept(e, t, 1, true)];
    OneMore(s, steps, Accept(e, t, 1, true));
  }

  lemma Begins(s: State, steps: seq<Step>, e: Id, t: Path, c: Content, n: nat) returns (more: seq<Step>)
    requires Early(Run(s, steps), e, t, c, n, Spawned)
    ensures Early(Run(s, more), e, t, c, n, Entering)
  {
    more := steps + [BeginRun(e, "p", true)];
    OneMore(s, steps, BeginRun(e, "p", true));
  }

  lemma PassesFirstCheck(s: State, steps: seq<Step>, e: Id, t: Path, c: Content, n: nat) returns (more: seq<Step>)
    requires Early(Run(s, steps), e, t, c, n, Entering)
    ensures Early(Run(s, more), e, t, c, n, Resolving)
  {
    more := steps + [CheckCancel(e)];
    OneMore(s, steps, CheckCancel(e));
  }

  lemma OpensFile(s: State, steps: seq<Step>, e: Id, t: Path, c: Content, n: nat) returns (more: seq<Step>)
    requires Early(Run(s, steps), e, t, c, n, Resolving)
    ensures Filled(Run(s, more), e, t, c, n, Writing, None)
  {
    more := steps + [OpenTemp(e, n)];
    OneMore(s, steps, OpenTemp(e, n));
  }

  lemma FillsFile(s: State, steps: seq<Step>, e: Id, t: Path, c: Content, n: nat) returns (more: seq<Step>)
    requires Filled(Run(s, steps), e, t, c, n, Writing, None)
    ensures Filled(Run(s, more), e, t, c, n, Written, None)
  {
    more := steps + [Write(e, c)];
    OneMore(s, steps, Write(e, c));
  }

  lemma PassesLastCheck(s: State, steps: seq<Step>, e: Id, t: Path, c: Content, n: nat) returns (more: seq<Step>)
    requires Filled(Run(s, steps), e, t, c, n, Written, None)
    ensures Filled(Run(s, more), e, t, c, n, Ready, None)
  {
    more := steps + [PassCancel(e)];
    OneMore(s, steps, PassCancel(e));
  }

  lemma EntersSection(s: State, steps: seq<Step>, e: Id, t: Path, c: Content, n: nat) returns (more: seq<Step>)
    requires Filled(Run(s, steps), e, t, c, n, Ready, None)
    ensures Intends(Run(s, more), e, t, c, n)
  {
    more := steps + [Enter(e)];
    OneMore(s, steps, Enter(e));
  }

  lemma StoresIntent(s: State, steps: seq<Step>, e: Id, t: Path, c: Content, n: nat) returns (more: seq<Step>)
    requires Intends(Run(s, steps), e, t, c, n)
    ensures Filled(Run(s, more), e, t, c, n, IntentDurable, Some(e)) && Stored(Run(s, more), e, t, c, n)
  {
    more := steps + [WriteIntent(e, true)];
    OneMore(s, steps, WriteIntent(e, true));
  }

  lemma FailsToReplace(s: State, steps: seq<Step>, e: Id, t: Path, c: Content, n: nat) returns (more: seq<Step>)
    requires Filled(Run(s, steps), e, t, c, n, IntentDurable, Some(e)) && Stored(Run(s, steps), e, t, c, n)
    ensures Going(Run(s, more), e, t, c, Unwinding(false), None) && Stored(Run(s, more), e, t, c, n)
  {
    more := steps + [Replace(e, false)];
    OneMore(s, steps, Replace(e, false));
  }

  lemma IsCancelled(s: State, steps: seq<Step>, e: Id, t: Path, c: Content, n: nat) returns (more: seq<Step>)
    requires Going(Run(s, steps), e, t, c, Unwinding(false), None) && Stored(Run(s, steps), e, t, c, n)
    ensures Doomed(Run(s, more), e, t, c, n, true)
  {
    more := steps + [Cancel(e)];
    OneMore(s, steps, Cancel(e));
  }

  lemma Dies(s: State, steps: seq<Step>, e: Id, t: Path, c: Content, n: nat) returns (more: seq<Step>)
    requires Doomed(Run(s, steps), e, t, c, n, true)
    ensures Doomed(Run(s, more), e, t, c, n, false)
  {
    more := steps + [Crash];
    OneMore(s, steps, Crash);
  }

  lemma ComesUp(s: State, steps: seq<Step>, e: Id, t: Path, c: Content, n: nat) returns (more: seq<Step>)
    requires Doomed(Run(s, steps), e, t, c, n, false)
    ensures CameUp(Run(s, more), e, t, c)
  {
    more := steps + [Restart(9, {}, true)];
    OneMore(s, steps, Restart(9, {}, true));
  }

  lemma IsPolled(s: State, steps: seq<Step>, e: Id, t: Path, c: Content) returns (more: seq<Step>)
    requires CameUp(Run(s, steps), e, t, c)
    ensures Polled(Run(s, more), e, t, c, false)
  {
    more := steps + [ReconcileRead(0, e)];
    OneMore(s, steps, ReconcileRead(0, e));
  }

  lemma IsVerified(s: State, steps: seq<Step>, e: Id, t: Path, c: Content) returns (more: seq<Step>)
    requires Polled(Run(s, steps), e, t, c, false)
    ensures Polled(Run(s, more), e, t, c, true)
  {
    more := steps + [ReconcileVerify(0)];
    OneMore(s, steps, ReconcileVerify(0));
  }

  lemma IsCompleted(s: State, steps: seq<Step>, e: Id, t: Path, c: Content) returns (more: seq<Step>)
    requires Polled(Run(s, steps), e, t, c, true)
    ensures ShownThoughPromised(Run(s, more), e, Completed)
  {
    more := steps + [ReconcileComplete(0, 10, true)];
    OneMore(s, steps, ReconcileComplete(0, 10, true));
  }

  /** Up to the stored intent. */
  lemma EchoStores(s: State, e: Id, t: Path, c: Content, n: nat) returns (steps: seq<Step>)
    requires Quiet(s, e, t, c) && Temp(t, n) !in s.log.names
    ensures Filled(Run(s, steps), e, t, c, n, IntentDurable, Some(e)) && Stored(Run(s, steps), e, t, c, n)
  {
    steps := IsAccepted(s, [], e, t, c, n);
    steps := Begins(s, steps, e, t, c, n);
    steps := PassesFirstCheck(s, steps, e, t, c, n);
    steps := OpensFile(s, steps, e, t, c, n);
    steps := FillsFile(s, steps, e, t, c, n);
    steps := PassesLastCheck(s, steps, e, t, c, n);
    steps := EntersSection(s, steps, e, t, c, n);
    steps := StoresIntent(s, steps, e, t, c, n);
  }

  /**
   From every state in which the target holds the bytes already: the replace of the new export raises, it is cancelled,
   the process dies; it has not published, and it is shown as publishing after the restart and completed by a poll.
   */
  lemma EchoIsShownAsPublished(s: State, e: Id, t: Path, c: Content) returns (shown: seq<Step>, completed: seq<Step>)
    requires Quiet(s, e, t, c)
    ensures ShownThoughPromised(Run(s, shown), e, Publishing)
    ensures ShownThoughPromised(Run(s, completed), e, Completed)
  {
    var n := UnusedNonce(s.log.names.Keys, t);
    var steps := EchoStores(s, e, t, c, n);
    steps := FailsToReplace(s, steps, e, t, c, n);
    steps := IsCancelled(s, steps, e, t, c, n);
    steps := Dies(s, steps, e, t, c, n);
    shown := ComesUp(s, steps, e, t, c, n);
    completed := IsPolled(s, shown, e, t, c);
    completed := IsVerified(s, completed, e, t, c);
    completed := IsCompleted(s, completed, e, t, c);
  }

  /** Such a state is reached: another export has just published the same bytes to the same target. */
  lemma AnotherExportPublishesFirst(d: Id, e: Id, t: Path, c: Content)
    requires d != e
    ensures Quiet(Run(INITIAL, ExportFaults.Publish(d, t, c) + [Mark(d, true)]), e, t, c)
  {
    var steps := ExportFaults.Publish(d, t, c);
    ExportFaults.Publishes(d, t, c);
    ExportFaults.Marks(d, t, c);
    assert steps[..|steps|] == steps;
    OneMore(INITIAL, steps, Mark(d, true));
  }

  /** So from the empty runtime on: a cancelled export that never published is shown as publishing, then completed. */
  lemma EchoHappens(d: Id, e: Id, t: Path, c: Content) returns (shown: seq<Step>, completed: seq<Step>)
    requires d != e
    ensures ShownThoughPromised(Run(INITIAL, shown), e, Publishing)
    ensures ShownThoughPromised(Run(INITIAL, completed), e, Completed)
  {
    var first := ExportFaults.Publish(d, t, c) + [Mark(d, true)];
    AnotherExportPublishesFirst(d, e, t, c);
    var rest, more := EchoIsShownAsPublished(Run(INITIAL, first), e, t, c);
    ExportFaults.RunInTwo(INITIAL, first, rest);
    ExportFaults.RunInTwo(INITIAL, first, more);
    shown, completed := first + rest, first + more;
  }
}
