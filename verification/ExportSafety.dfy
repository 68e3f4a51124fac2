/** What every run of the export runtime keeps, whatever is interleaved and wherever it crashes. */
module ExportSafety {
  import opened Options
  import opened ExportModel

  /** The stretches of a worker in which its temporary file exists. */
  predicate HoldsTemp(pc: Pc) {
    pc.Writing? || pc.Written? || pc.Ready? || pc.IntentSet? || pc.IntentDurable?
  }

  predicate BytesWritten(pc: Pc) { pc.Written? || pc.Ready? || pc.IntentSet? || pc.IntentDurable? }

  /** The stretches before the replace, from which the worker can still be cancelled or fail. */
  predicate Before(pc: Pc) {
    pc.Spawned? || pc.Entering? || pc.Resolving? || HoldsTemp(pc) || pc == Unwinding(true) || pc.Cancelling?
  }

  predicate After(pc: Pc) { pc.PublicationDone? || pc.EnsuringHistory? || pc.Completing? }

  predicate InSection(pc: Pc) { pc.IntentSet? || pc.IntentDurable? || pc.Replaced? }

  /** The status of a job agrees with where its worker stands. */
  ghost predicate PhaseFits(status: Status, published: bool, pc: Pc) {
    && (Before(pc) ==> !published && Open(status))
    && (pc.Replaced? ==> published && Open(status))
    && (After(pc) ==> published)
    && (pc.Failing? ==> !status.Publishing?)
    && (published && !pc.Replaced? ==> !Open(status))
    && (!published && !pc.Finishing? ==> Open(status))
  }

  ghost predicate WorkerFits(s: State, p: Process, id: Id, w: Worker, job: Job) {
    && PhaseFits(job.snapshot.status, id in s.log.published, w.pc)
    && (InSection(w.pc) <==> p.lock == Some(id))
    && (id in s.log.promised ==> w.cancelled && !InSection(w.pc))
    && (w.temp.Some? ==>
          w.temp.value in s.log.names && s.log.names[w.temp.value] == id && w.temp.value.beside == job.target)
    && (HoldsTemp(w.pc) ==> w.temp.Some? && w.temp.value in s.disk.temps)
    && (BytesWritten(w.pc) ==> s.disk.temps[w.temp.value] == w.bytes)
    && (InSection(w.pc) ==>
          w.temp.Some? && job.intent == Some(Intent(job.target, Sha256(w.bytes), w.temp.value)))
    && (w.pc.IntentDurable? || w.pc.Replaced? ==> s.disk.jobs == p.jobs)
    && (w.pc.Replaced? ==> job.target in s.disk.files && s.disk.files[job.target] == w.bytes)
  }

  ghost predicate IntentFits(job: Job) {
    job.intent.Some? ==> job.intent.value.path == job.target && job.intent.value.staging.beside == job.target
  }

  /** A published export whose record may still read as open is one the restart can recognise. */
  ghost predicate Recognisable(job: Job, files: map<Path, Content>) {
    Open(job.snapshot.status) ==> IntentHolds(job, files, {})
  }

  ghost predicate DiskFits(s: State, id: Id) {
    && (id in s.disk.jobs ==> id in s.log.used && IntentFits(s.disk.jobs[id]))
    && (id in s.log.promised ==> id in s.log.used && id !in s.log.published)
    && (id in s.log.published ==>
          id in s.disk.jobs && s.disk.jobs[id].target == s.log.published[id]
          && Recognisable(s.disk.jobs[id], s.disk.files)
          && !s.disk.jobs[id].snapshot.status.Cancelled?)
  }

  ghost predicate ProcessFits(s: State, p: Process, id: Id) {
    && (id in s.disk.jobs ==> id in p.jobs && p.jobs[id].target == s.disk.jobs[id].target)
    && (id in p.jobs ==> id in s.log.used && IntentFits(p.jobs[id]))
    && (p.lock == Some(id) ==> id in p.workers)
    && (id in p.workers ==>
          id in p.jobs && id in s.disk.jobs && WorkerFits(s, p, id, p.workers[id], p.jobs[id]))
    && (id in p.jobs && id in s.log.published ==>
          !p.jobs[id].snapshot.status.Cancelled? && (Open(p.jobs[id].snapshot.status) ==> p.lock == Some(id)))
  }

  ghost predicate JobFits(s: State, id: Id) {
    DiskFits(s, id) && (s.up.Some? ==> ProcessFits(s, s.up.value, id))
  }

  /** A reconciler only ever settles an export that had left the open statuses. */
  ghost predicate ReaderFits(s: State, r: nat) {
    s.up.Some? && r in s.up.value.readers ==>
      var id := s.up.value.readers[r].id;
      id in s.up.value.jobs && !Open(s.up.value.jobs[id].snapshot.status)
  }

  /** Every temporary file belongs to a worker that will still use or remove it, or to a crash. */
  ghost predicate TempFits(s: State, t: Temp) {
    t in s.disk.temps ==>
      t in s.log.names
      && (t in s.log.orphans
          || (s.up.Some? && s.log.names[t] in s.up.value.workers && Owns(s.up.value.workers[s.log.names[t]], t)))
  }

  predicate Owns(w: Worker, t: Temp) {
    w.temp == Some(t) && (HoldsTemp(w.pc) || w.pc.Unwinding?)
  }

  /** Kept by every step of every run, crashes and failing writes included. */
  ghost predicate Inv(s: State) {
    && (forall id :: JobFits(s, id))
    && (forall r :: ReaderFits(s, r))
    && (forall t :: TempFits(s, t))
  }

  // ------------------------------------------------------- the kinds of move

  /** A worker moves on without touching anything else; `held` says whether it gives up the lock. */
  lemma MoveKeeps(s: State, id: Id, pc: Pc, held: bool)
    requires Inv(s) && s.up.Some? && id in s.up.value.workers && id in s.up.value.jobs && !InSection(pc)
    requires held <==> InSection(s.up.value.workers[id].pc)
    requires PhaseFits(s.up.value.jobs[id].snapshot.status, id in s.log.published, pc)
    requires HoldsTemp(pc) ==> HoldsTemp(s.up.value.workers[id].pc)
    requires BytesWritten(pc) ==> BytesWritten(s.up.value.workers[id].pc)
    requires HoldsTemp(s.up.value.workers[id].pc) || s.up.value.workers[id].pc.Unwinding? ==>
               HoldsTemp(pc) || pc.Unwinding?
    ensures Inv(if held then Unlocked(At(s, id, pc)) else At(s, id, pc))
  {
    var s' := if held then Unlocked(At(s, id, pc)) else At(s, id, pc);
    assert JobFits(s, id);
    forall j ensures JobFits(s', j) { assert JobFits(s, j); }
    forall r ensures ReaderFits(s', r) { assert ReaderFits(s, r); }
    forall t ensures TempFits(s', t) { assert TempFits(s, t); }
  }

  lemma ChangeKeeps(s: State, id: Id, snapshot: Snapshot, ok: bool)
    requires Inv(s) && s.up.Some? && s.up.value.lock.None? && id in s.up.value.jobs
    requires id in s.log.published ==> !Open(snapshot.status) && !snapshot.status.Cancelled?
    requires !Open(s.up.value.jobs[id].snapshot.status) ==> !Open(snapshot.status)
    requires id in s.up.value.workers ==>
               PhaseFits(snapshot.status, id in s.log.published, s.up.value.workers[id].pc)
    ensures Inv(Change(s, id, snapshot, ok))
  {
    var s' := Change(s, id, snapshot, ok);
    assert JobFits(s, id);
    forall j ensures JobFits(s', j) { assert JobFits(s, j); }
    forall r ensures ReaderFits(s', r) { assert ReaderFits(s, r); }
    forall t ensures TempFits(s', t) { assert TempFits(s, t); }
  }

  lemma ReportKeeps(s: State, id: Id, pc: Pc, snapshot: Snapshot, ok: bool)
    requires Inv(s) && s.up.Some? && s.up.value.lock.None? && id in s.up.value.workers && id in s.up.value.jobs
    requires !InSection(pc) && !BytesWritten(pc) && (HoldsTemp(pc) ==> HoldsTemp(s.up.value.workers[id].pc))
    requires HoldsTemp(s.up.value.workers[id].pc) || s.up.value.workers[id].pc.Unwinding? ==>
               HoldsTemp(pc) || pc.Unwinding?
    requires PhaseFits(s.up.value.jobs[id].snapshot.status, id in s.log.published, pc)
    requires ok ==> PhaseFits(snapshot.status, id in s.log.published, pc)
    requires ok && id in s.log.published ==> !Open(snapshot.status) && !snapshot.status.Cancelled?
    requires ok && !Open(s.up.value.jobs[id].snapshot.status) ==> !Open(snapshot.status)
    ensures Inv(At(Change(s, id, snapshot, ok), id, pc))
  {
    assert JobFits(s, id);
    MoveKeeps(s, id, pc, false);
    if ok {
      ChangeKeeps(At(s, id, pc), id, snapshot, ok);
      assert At(Change(s, id, snapshot, ok), id, pc) == Change(At(s, id, pc), id, snapshot, ok);
    }
  }

  // ------------------------------------------------------- the steps

  lemma AcceptKeeps(s: State, id: Id, target: Path, pages: nat, ok: bool)
    requires Inv(s) && Enabled(s, Accept(id, target, pages, ok))
    ensures Inv(Next(s, Accept(id, target, pages, ok)))
  {
    var s' := Next(s, Accept(id, target, pages, ok));
    assert JobFits(s, id);
    forall j ensures JobFits(s', j) { assert JobFits(s, j); }
    forall r ensures ReaderFits(s', r) { assert ReaderFits(s, r); }
    forall t ensures TempFits(s', t) { assert TempFits(s, t); }
  }

  lemma CancelKeeps(s: State, id: Id)
    requires Inv(s) && Enabled(s, Cancel(id))
    ensures Inv(Next(s, Cancel(id)))
  {
    var s' := Next(s, Cancel(id));
    assert JobFits(s, id);
    forall j ensures JobFits(s', j) { assert JobFits(s, j); }
    forall r ensures ReaderFits(s', r) { assert ReaderFits(s, r); }
    forall t ensures TempFits(s', t) { assert TempFits(s, t); }
  }

  lemma ReconcileCompleteKeeps(s: State, reader: nat, now: Time, ok: bool)
    requires Inv(s) && Enabled(s, ReconcileComplete(reader, now, ok))
    ensures Inv(Next(s, ReconcileComplete(reader, now, ok)))
  {
    var p := s.up.value;
    var id := p.readers[reader].id;
    assert ReaderFits(s, reader) && JobFits(s, id);
    var s1 := s.(up := Some(p.(readers := p.readers - {reader})));
    assert Inv(s1) by {
      forall j ensures JobFits(s1, j) { assert JobFits(s, j); }
      forall r ensures ReaderFits(s1, r) { assert ReaderFits(s, r); }
      forall t ensures TempFits(s1, t) { assert TempFits(s, t); }
    }
    ChangeKeeps(s1, id, Reconciled(p.jobs[id].snapshot, now), ok);
  }

  /** Only the readers change, and each of them still polls an export that had left the open statuses. */
  lemma NewReadersKeep(s: State, p: Process, readers: map<nat, Reader>)
    requires Inv(s) && s.up == Some(p)
    requires forall r :: r in readers ==>
               readers[r].id in p.jobs && !Open(p.jobs[readers[r].id].snapshot.status)
    ensures Inv(s.(up := Some(p.(readers := readers))))
  {
    var s' := s.(up := Some(p.(readers := readers)));
    forall j ensures JobFits(s', j) { assert JobFits(s, j); }
    forall t ensures TempFits(s', t) { assert TempFits(s, t); }
  }

  lemma ReadersKeep(s: State, step: Step)
    requires Inv(s) && Enabled(s, step)
    requires step.ReconcileRead? || step.ReconcileVerify? || step.ReconcileAbandon?
    ensures Inv(Next(s, step))
  {
    var readers := Next(s, step).up.value.readers;
    forall r | r in readers
      ensures readers[r].id in s.up.value.jobs && !Open(s.up.value.jobs[readers[r].id].snapshot.status)
    {
      assert ReaderFits(s, r);
    }
    NewReadersKeep(s, s.up.value, readers);
  }

  lemma CrashKeeps(s: State)
    requires Inv(s) && s.up.Some?
    ensures Inv(Next(s, Crash))
  {
    var s' := Next(s, Crash);
    forall j ensures JobFits(s', j) { assert JobFits(s, j); }
    forall t ensures TempFits(s', t) { assert TempFits(s, t); }
  }

  lemma RestartKeeps(s: State, now: Time, unreadable: set<Path>, ok: bool)
    requires Inv(s) && Enabled(s, Restart(now, unreadable, ok))
    ensures Inv(Next(s, Restart(now, unreadable, ok)))
  {
    var s' := Next(s, Restart(now, unreadable, ok));
    forall j ensures JobFits(s', j) { assert JobFits(s, j); }
    forall t ensures TempFits(s', t) { assert TempFits(s, t); }
  }

  lemma MovesKeep(s: State, step: Step)
    requires Inv(s) && Enabled(s, step) && Moves(step)
    ensures Inv(Next(s, step))
  {
    var p := s.up.value;
    var id := step.id;
    assert JobFits(s, id);
    MoveFits(step, p.workers[id], p.jobs[id].snapshot.status, id in s.log.published, s, p);
    MoveKeeps(s, id, Destination(step, p.workers[id], p.jobs[id].snapshot.status), false);
  }

  lemma MoveFits(step: Step, w: Worker, status: Status, published: bool, s: State, p: Process)
    requires Moves(step) && WorkerStep(step) && step.id in p.workers && step.id in p.jobs && p.workers[step.id] == w
    requires WorkerEnabled(s, p, step, w.pc) && PhaseFits(status, published, w.pc)
    ensures var pc := Destination(step, w, status);
            && PhaseFits(status, published, pc) && !InSection(pc) && !InSection(w.pc)
            && (HoldsTemp(pc) ==> HoldsTemp(w.pc)) && (BytesWritten(pc) ==> BytesWritten(w.pc))
            && (HoldsTemp(w.pc) || w.pc.Unwinding? ==> HoldsTemp(pc) || pc.Unwinding?)
  {
  }

  lemma ReportsKeep(s: State, step: Step)
    requires Inv(s) && Enabled(s, step) && Reports(step)
    ensures Inv(Next(s, step))
  {
    var p := s.up.value;
    var id := step.id;
    assert JobFits(s, id);
    ReportFits(step, p.workers[id], p.jobs[id], id in s.log.published, s, p);
    ReportKeeps(s, id, AfterReport(step), Report(step, p.workers[id], p.jobs[id]), step.ok);
  }

  lemma ReportFits(step: Step, w: Worker, job: Job, published: bool, s: State, p: Process)
    requires Reports(step) && WorkerStep(step) && step.id in p.workers && step.id in p.jobs && p.workers[step.id] == w
    requires WorkerEnabled(s, p, step, w.pc) && PhaseFits(job.snapshot.status, published, w.pc)
    requires published && !w.pc.Replaced? ==> !job.snapshot.status.Cancelled?
    ensures var pc, after := AfterReport(step), Report(step, w, job).status;
            && PhaseFits(job.snapshot.status, published, pc) && (step.ok ==> PhaseFits(after, published, pc))
            && !InSection(pc) && !BytesWritten(pc) && (HoldsTemp(pc) ==> HoldsTemp(w.pc))
            && (HoldsTemp(w.pc) || w.pc.Unwinding? ==> HoldsTemp(pc) || pc.Unwinding?)
            && (step.ok && published ==> !Open(after) && !after.Cancelled?)
            && (step.ok && !Open(job.snapshot.status) ==> !Open(after))
  {
  }

  lemma OpenTempKeeps(s: State, p: Process, id: Id, nonce: nat)
    requires Inv(s) && s.up == Some(p) && id in p.workers && id in p.jobs
    requires p.workers[id].pc.Resolving? && Temp(p.jobs[id].target, nonce) !in s.log.names
    ensures Inv(TempOpened(s, p, id, nonce))
  {
    var s' := TempOpened(s, p, id, nonce);
    assert JobFits(s, id);
    forall j ensures JobFits(s', j) { assert JobFits(s, j); }
    forall r ensures ReaderFits(s', r) { assert ReaderFits(s, r); }
    forall t ensures TempFits(s', t) { assert TempFits(s, t); }
  }

  lemma WriteKeeps(s: State, p: Process, id: Id, bytes: Content)
    requires Inv(s) && s.up == Some(p) && id in p.workers && id in p.jobs
    requires p.workers[id].pc.Writing?
    ensures Inv(TempWritten(s, p, id, bytes))
  {
    var s' := TempWritten(s, p, id, bytes);
    assert JobFits(s, id);
    forall j ensures JobFits(s', j) { assert JobFits(s, j); }
    forall r ensures ReaderFits(s', r) { assert ReaderFits(s, r); }
    forall t ensures TempFits(s', t) { assert TempFits(s, t); }
  }

  lemma EnterKeeps(s: State, p: Process, id: Id)
    requires Inv(s) && s.up == Some(p) && id in p.workers && id in p.jobs
    requires p.workers[id].pc.Ready? && p.lock.None? && p.workers[id].temp.Some?
             && p.workers[id].temp.value in s.disk.temps
    ensures Inv(SectionEntered(s, p, id))
  {
    var s' := SectionEntered(s, p, id);
    assert JobFits(s, id);
    forall j ensures JobFits(s', j) { assert JobFits(s, j); }
    forall r ensures ReaderFits(s', r) { assert ReaderFits(s, r); }
    forall t ensures TempFits(s', t) { assert TempFits(s, t); }
  }

  lemma WriteIntentKeeps(s: State, p: Process, id: Id, ok: bool)
    requires Inv(s) && s.up == Some(p) && id in p.workers && id in p.jobs
    requires p.workers[id].pc.IntentSet?
    ensures Inv(IntentWritten(s, p, id, ok))
  {
    var s' := IntentWritten(s, p, id, ok);
    assert JobFits(s, id);
    forall j ensures JobFits(s', j) { assert JobFits(s, j); }
    forall r ensures ReaderFits(s', r) { assert ReaderFits(s, r); }
    forall t ensures TempFits(s', t) { assert TempFits(s, t); }
  }

  lemma ReplaceKeeps(s: State, p: Process, id: Id, ok: bool)
    requires Inv(s) && s.up == Some(p) && id in p.workers && id in p.jobs
    requires p.workers[id].pc.IntentDurable? && p.workers[id].temp.Some? && p.workers[id].temp.value in s.disk.temps
    ensures Inv(TargetReplaced(s, p, id, ok))
  {
    var s' := TargetReplaced(s, p, id, ok);
    assert JobFits(s, id);
    forall j ensures JobFits(s', j) { assert JobFits(s, j); }
    forall r ensures ReaderFits(s', r) { assert ReaderFits(s, r); }
    forall t ensures TempFits(s', t) { assert TempFits(s, t); }
  }

  lemma MarkFits(s: State, p: Process, id: Id, ok: bool, j: Id)
    requires Inv(s) && s.up == Some(p) && id in p.workers && id in p.jobs
    requires p.workers[id].pc.Replaced?
    ensures JobFits(PublicationMarked(s, p, id, ok), j)
  {
    assert JobFits(s, id) && JobFits(s, j);
  }

  lemma MarkKeeps(s: State, p: Process, id: Id, ok: bool)
    requires Inv(s) && s.up == Some(p) && id in p.workers && id in p.jobs
    requires p.workers[id].pc.Replaced?
    ensures Inv(PublicationMarked(s, p, id, ok))
  {
    var s' := PublicationMarked(s, p, id, ok);
    assert JobFits(s, id);
    forall j ensures JobFits(s', j) { MarkFits(s, p, id, ok, j); }
    forall r ensures ReaderFits(s', r) { assert ReaderFits(s, r); }
    forall t ensures TempFits(s', t) { assert TempFits(s, t); }
  }

  lemma UnwindKeeps(s: State, p: Process, id: Id)
    requires Inv(s) && s.up == Some(p) && id in p.workers && id in p.jobs
    requires p.workers[id].pc.Unwinding?
    ensures Inv(Unwound(s, p, id))
  {
    var s' := Unwound(s, p, id);
    assert JobFits(s, id);
    forall j ensures JobFits(s', j) { assert JobFits(s, j); }
    forall r ensures ReaderFits(s', r) { assert ReaderFits(s, r); }
    forall t ensures TempFits(s', t) { assert TempFits(s, t); }
  }

  lemma FinishKeeps(s: State, p: Process, id: Id)
    requires Inv(s) && s.up == Some(p) && id in p.workers && id in p.jobs
    requires p.workers[id].pc.Finishing?
    ensures Inv(s.(up := Some(p.(workers := p.workers - {id}))))
  {
    var s' := s.(up := Some(p.(workers := p.workers - {id})));
    assert JobFits(s, id);
    forall j ensures JobFits(s', j) { assert JobFits(s, j); }
    forall r ensures ReaderFits(s', r) { assert ReaderFits(s, r); }
    forall t ensures TempFits(s', t) { assert TempFits(s, t); }
  }

  lemma StepKeeps(s: State, step: Step)
    requires Inv(s) && Enabled(s, step)
    ensures Inv(Next(s, step))
  {
    if Moves(step) {
      MovesKeep(s, step);
    } else if Reports(step) {
      ReportsKeep(s, step);
    } else {
      match step
      case OpenTemp(id, nonce) => OpenTempKeeps(s, s.up.value, id, nonce);
      case Write(id, bytes) => WriteKeeps(s, s.up.value, id, bytes);
      case Enter(id) => EnterKeeps(s, s.up.value, id);
      case WriteIntent(id, ok) => WriteIntentKeeps(s, s.up.value, id, ok);
      case Replace(id, ok) => ReplaceKeeps(s, s.up.value, id, ok);
      case Mark(id, ok) => MarkKeeps(s, s.up.value, id, ok);
      case Unwind(id) => UnwindKeeps(s, s.up.value, id);
      case Finish(id) => FinishKeeps(s, s.up.value, id);
      case Accept(id, target, pages, ok) => AcceptKeeps(s, id, target, pages, ok);
      case Cancel(id) => CancelKeeps(s, id);
      case ReconcileComplete(reader, now, ok) => ReconcileCompleteKeeps(s, reader, now, ok);
      case Restart(now, unreadable, ok) => RestartKeeps(s, now, unreadable, ok);
      case Crash => CrashKeeps(s);
      case _ => ReadersKeep(s, step);
    }
  }

  lemma {:induction false} RunKeeps(s: State, steps: seq<Step>)
    requires Inv(s)
    ensures Inv(Run(s, steps))
    decreases |steps|
  {
    if |steps| > 0 {
      if Enabled(s, steps[0]) {
        StepKeeps(s, steps[0]);
      }
      RunKeeps(Do(s, steps[0]), steps[1..]);
    }
  }

  lemma InitFits()
    ensures Inv(INITIAL)
  {
  }
}
