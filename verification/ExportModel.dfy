/**
 The export runtime as a state machine.

 Each step is one stretch of code that no other thread can interrupt: a block
 under the runtime's lock, one call of the job store, one file operation.
 A store write or a file operation either happens or raises without effect; the
 flag `ok` of a step says which. The process may crash between any two steps,
 and restarts from what is on disk.
 */
module ExportModel {
  import opened Options

  type Id = string
  type Path = string
  type Time = nat
  type Content = seq<bv8>

  /** SHA-256, taken to be injective: a digest carries the bytes it stands for. */
  datatype Digest = Sha256(of: Content)

  /** A temporary file next to its target; `nonce` is the random part of its name. */
  datatype Temp = Temp(beside: Path, nonce: nat)

  datatype Status = Pending | Running | Publishing | Completed | Cancelled | Failed

  datatype Output = Output(path: Path, sha: Digest)
  datatype Intent = Intent(path: Path, sha: Digest, staging: Temp)

  datatype Snapshot = Snapshot(
    status: Status, completedPages: nat, totalPages: nat, currentPage: Option<string>,
    completedAt: Option<Time>, output: Option<Output>, error: Option<string>)

  datatype History = History(
    status: Status, completedAt: Option<Time>, path: Path, sha: Option<Digest>)

  datatype Job = Job(
    id: Id, snapshot: Snapshot, history: History, target: Path, intent: Option<Intent>)

  type Jobs = map<Id, Job>

  const WRITE_FAILED := "EXPORT_WRITE_FAILED"

  /** The three regions of the life of an export. */
  predicate Open(status: Status) { status.Pending? || status.Running? }
  predicate Won(status: Status) { status.Publishing? || status.Completed? }
  predicate Lost(status: Status) { status.Cancelled? || status.Failed? }

  // ---------------------------------------------------------------- one job

  function Accepted(id: Id, target: Path, pages: nat): Job {
    Job(id, Snapshot(Pending, 0, pages, None, None, None, None),
        History(Pending, None, target, None), target, None)
  }

  /** What `_change` does to a job once the new snapshot is known. */
  function Changed(job: Job, snapshot: Snapshot): Job {
    job.(snapshot := snapshot,
         history := History(
           snapshot.status, snapshot.completedAt,
           if snapshot.output.Some? then snapshot.output.value.path else job.history.path,
           if snapshot.output.Some? then Some(snapshot.output.value.sha) else job.history.sha))
  }

  function Started(s: Snapshot, page: string): Snapshot { s.(status := Running, currentPage := Some(page)) }

  function PageCounted(s: Snapshot): Snapshot {
    s.(completedPages := if s.completedPages + 1 < s.totalPages then s.completedPages + 1 else s.totalPages,
       currentPage := None)
  }

  function Republished(s: Snapshot, output: Output): Snapshot {
    s.(status := Publishing, currentPage := None, output := Some(output))
  }

  function Finished(s: Snapshot, output: Output, now: Time): Snapshot {
    s.(status := Completed, completedPages := s.totalPages, currentPage := None,
       completedAt := Some(now), output := Some(output), error := None)
  }

  function Reconciled(s: Snapshot, now: Time): Snapshot {
    s.(status := Completed, completedAt := Some(now), error := None)
  }

  function Withdrawn(s: Snapshot, now: Time): Snapshot {
    s.(status := Cancelled, currentPage := None, completedAt := Some(now), error := None)
  }

  function Broken(s: Snapshot, now: Time): Snapshot {
    s.(status := Failed, currentPage := None, completedAt := Some(now), error := Some(WRITE_FAILED))
  }

  /** The critical section, first half: the intent that is made durable before the replace. */
  function Intending(job: Job, bytes: Content, temp: Temp): Job {
    job.(intent := Some(Intent(job.target, Sha256(bytes), temp)))
  }

  /** The critical section, second half: the mark that follows the replace. */
  function Marked(job: Job, bytes: Content): Job {
    job.(snapshot := Republished(job.snapshot, Output(job.target, Sha256(bytes))),
         history := job.history.(status := Publishing, path := job.target, sha := Some(Sha256(bytes))))
  }

  // ---------------------------------------------------------------- restart

  /** The target named by the intent can be read and holds exactly the intended bytes. */
  predicate IntentHolds(job: Job, files: map<Path, Content>, unreadable: set<Path>) {
    job.intent.Some? && job.intent.value.path in files && job.intent.value.path !in unreadable
    && Sha256(files[job.intent.value.path]) == job.intent.value.sha
  }

  function Recovered(job: Job, files: map<Path, Content>, unreadable: set<Path>, now: Time): Job {
    if !Open(job.snapshot.status) then job
    else if IntentHolds(job, files, unreadable) then
      var out := Output(job.intent.value.path, job.intent.value.sha);
      job.(snapshot := Republished(job.snapshot, out),
           history := job.history.(status := Publishing, path := out.path, sha := Some(out.sha)))
    else
      job.(snapshot := job.snapshot.(status := Failed, completedAt := Some(now), error := Some(WRITE_FAILED)),
           history := job.history.(status := Failed, completedAt := Some(now)))
  }

  function RecoveredAll(jobs: Jobs, files: map<Path, Content>, unreadable: set<Path>, now: Time): Jobs {
    map id | id in jobs :: Recovered(jobs[id], files, unreadable, now)
  }

  /** Recovery fails this job and removes `temp` as its staging file. */
  predicate Discards(job: Job, files: map<Path, Content>, unreadable: set<Path>, temp: Temp) {
    Open(job.snapshot.status) && !IntentHolds(job, files, unreadable)
    && job.intent.Some? && job.intent.value.staging == temp && temp.beside == job.target
  }

  predicate DiscardedBySome(jobs: Jobs, files: map<Path, Content>, unreadable: set<Path>, temp: Temp) {
    exists id :: id in jobs && Discards(jobs[id], files, unreadable, temp)
  }

  function KeptTemps(jobs: Jobs, files: map<Path, Content>, unreadable: set<Path>, temps: map<Temp, Content>)
    : map<Temp, Content>
  {
    map t | t in temps && !DiscardedBySome(jobs, files, unreadable, t) :: temps[t]
  }

  // ---------------------------------------------------------------- state

  /** Where the thread of one export stands. The lock is held from IntentSet to Replaced. */
  datatype Pc =
    | Spawned | Entering | Resolving | Writing | Written | Ready
    | IntentSet | IntentDurable | Replaced
    | PublicationDone | EnsuringHistory | Completing
    | Unwinding(cancelled: bool) | Cancelling | Checking | Failing | Finishing

  /** A thread with its cancellation event: `_threads` and `_cancel` gain and lose a key together. */
  datatype Worker = Worker(pc: Pc, temp: Option<Temp>, bytes: Content, cancelled: bool)

  /** A reconciler between its three unlocked stretches. */
  datatype Reader = Reader(id: Id, output: Output, verified: bool)

  datatype Process = Process(
    jobs: Jobs, workers: map<Id, Worker>,
    readers: map<nat, Reader>, lock: Option<Id>)

  datatype Disk = Disk(jobs: Jobs, files: map<Path, Content>, temps: map<Temp, Content>)

  /** What has happened so far. Only the freshness guards of Accept and OpenTemp look at it. */
  datatype Log = Log(
    used: set<Id>, names: map<Temp, Id>, published: map<Id, Path>, promised: set<Id>, orphans: set<Temp>)

  datatype State = State(up: Option<Process>, disk: Disk, log: Log)

  datatype Step =
    | Accept(id: Id, target: Path, pages: nat, ok: bool)
    | BeginRun(id: Id, page: string, ok: bool)
    | CheckCancel(id: Id)
    | SkipTarget(id: Id)
    | OpenTemp(id: Id, nonce: nat)
    | PageDone(id: Id, ok: bool)
    | Write(id: Id, bytes: Content)
    | SeeCancel(id: Id)
    | PassCancel(id: Id)
    | Raise(id: Id)
    | Enter(id: Id)
    | WriteIntent(id: Id, ok: bool)
    | Replace(id: Id, ok: bool)
    | Mark(id: Id, ok: bool)
    | Unwind(id: Id)
    | LeavePublishing(id: Id, ok: bool)
    | HistoryMissing(id: Id, ok: bool)
    | HistoryUnsettled(id: Id)
    | HistoryFound(id: Id)
    | Complete(id: Id, now: Time, ok: bool)
    | ReportCancelled(id: Id, now: Time, ok: bool)
    | CheckFailure(id: Id)
    | ReportFailed(id: Id, now: Time, ok: bool)
    | Finish(id: Id)
    | Cancel(id: Id)
    | ReconcileRead(reader: nat, id: Id)
    | ReconcileVerify(reader: nat)
    | ReconcileComplete(reader: nat, now: Time, ok: bool)
    | ReconcileAbandon(reader: nat)
    | Crash
    | Restart(now: Time, unreadable: set<Path>, ok: bool)

  const INITIAL := State(
    Some(Process(map[], map[], map[], None)),
    Disk(map[], map[], map[]), Log({}, map[], map[], {}, {}))

  /** The steps taken by the thread that runs the export `step.id`. */
  predicate WorkerStep(step: Step) {
    match step
    case Accept(_, _, _, _) => false
    case Cancel(_) => false
    case ReconcileRead(_, _) => false
    case ReconcileVerify(_) => false
    case ReconcileComplete(_, _, _) => false
    case ReconcileAbandon(_) => false
    case Crash => false
    case Restart(_, _, _) => false
    case _ => true
  }

  predicate Enabled(s: State, step: Step) {
    if step.Restart? then s.up.None?
    else if s.up.None? then false
    else if step.Crash? then true
    else
      var p := s.up.value;
      if WorkerStep(step) then
        WorkerStep(step) && step.id in p.workers && step.id in p.jobs
        && WorkerEnabled(s, p, step, p.workers[step.id].pc)
      else
        match step
        case Accept(id, _, _, _) => p.lock.None? && id !in s.log.used
        case Cancel(id) => p.lock.None? && id in p.jobs
        case ReconcileRead(r, id) =>
          p.lock.None? && r !in p.readers && id in p.jobs
          && p.jobs[id].snapshot.status.Publishing? && p.jobs[id].snapshot.output.Some?
        case ReconcileVerify(r) =>
          r in p.readers && p.readers[r].output.path in s.disk.files
          && Sha256(s.disk.files[p.readers[r].output.path]) == p.readers[r].output.sha
        case ReconcileComplete(r, _, _) =>
          p.lock.None? && r in p.readers && p.readers[r].verified && p.readers[r].id in p.jobs
        case ReconcileAbandon(r) => r in p.readers
  }

  predicate WorkerEnabled(s: State, p: Process, step: Step, pc: Pc)
    requires WorkerStep(step) && step.id in p.workers && step.id in p.jobs
  {
    var id := step.id;
    var free := p.lock.None?;
    match step
    case BeginRun(_, _, _) => pc.Spawned? && free
    case CheckCancel(_) => pc.Entering?
    case SkipTarget(_) => pc.Resolving?
    case OpenTemp(_, nonce) => pc.Resolving? && Temp(p.jobs[id].target, nonce) !in s.log.names
    case PageDone(_, _) => pc.Writing? && free
    case Write(_, _) => pc.Writing?
    case SeeCancel(_) => (pc.Writing? || pc.Written?) && p.workers[id].cancelled
    case PassCancel(_) => pc.Written? && !p.workers[id].cancelled
    case Raise(_) =>
      pc.Entering? || pc.Resolving? || pc.Writing? || pc.Written? || pc.Ready?
      || pc.PublicationDone? || pc.EnsuringHistory?
    case Enter(_) =>
      pc.Ready? && free && p.workers[id].temp.Some? && p.workers[id].temp.value in s.disk.temps
    case WriteIntent(_, _) => pc.IntentSet?
    case Replace(_, _) =>
      pc.IntentDurable? && p.workers[id].temp.Some? && p.workers[id].temp.value in s.disk.temps
    case Mark(_, _) => pc.Replaced?
    case Unwind(_) => pc.Unwinding?
    case LeavePublishing(_, _) => pc.PublicationDone? && free
    case HistoryMissing(_, _) => pc.PublicationDone? && free
    case HistoryUnsettled(_) => pc.EnsuringHistory?
    case HistoryFound(_) => pc.PublicationDone? || pc.EnsuringHistory?
    case Complete(_, _, _) => pc.Completing? && free
    case ReportCancelled(_, _, _) => pc.Cancelling? && free
    case CheckFailure(_) => pc.Checking? && free
    case ReportFailed(_, _, _) => pc.Failing? && free
    case Finish(_) => pc.Finishing? && free
  }

  /** The thread of `id` moves on. */
  function At(s: State, id: Id, pc: Pc): State
    requires s.up.Some? && id in s.up.value.workers
  {
    var p := s.up.value;
    s.(up := Some(p.(workers := p.workers[id := p.workers[id].(pc := pc)])))
  }

  /** `_change` under the lock: persisted with every other job, or rolled back. */
  function Change(s: State, id: Id, snapshot: Snapshot, ok: bool): State
    requires s.up.Some? && id in s.up.value.jobs
  {
    if ok then
      var jobs := s.up.value.jobs[id := Changed(s.up.value.jobs[id], snapshot)];
      s.(up := Some(s.up.value.(jobs := jobs)), disk := s.disk.(jobs := jobs))
    else s
  }

  function WithoutTemp(temps: map<Temp, Content>, temp: Option<Temp>): map<Temp, Content> {
    if temp.Some? then temps - {temp.value} else temps
  }

  function Next(s: State, step: Step): State
    requires Enabled(s, step)
  {
    if step.Restart? then
      Restarted(s, step.now, step.unreadable, step.ok)
    else
      var p := s.up.value;
      if WorkerStep(step) then WorkerNext(s, p, step)
      else
        match step
        case Accept(id, target, pages, ok) =>
          // the append is not undone when the write raises
          var jobs := p.jobs[id := Accepted(id, target, pages)];
          var log := s.log.(used := s.log.used + {id});
          if ok then
            State(Some(p.(jobs := jobs, workers := p.workers[id := Worker(Spawned, None, [], false)])),
                  s.disk.(jobs := jobs), log)
          else s.(up := Some(p.(jobs := jobs)), log := log)
        case Cancel(id) =>
          if Open(p.jobs[id].snapshot.status) then
            State(Some(if id in p.workers then p.(workers := p.workers[id := p.workers[id].(cancelled := true)])
                       else p),
                  s.disk,
                  s.log.(promised := s.log.promised + {id}))
          else s
        case ReconcileRead(r, id) =>
          s.(up := Some(p.(readers := p.readers[r := Reader(id, p.jobs[id].snapshot.output.value, false)])))
        case ReconcileVerify(r) =>
          s.(up := Some(p.(readers := p.readers[r := p.readers[r].(verified := true)])))
        case ReconcileComplete(r, now, ok) =>
          var id := p.readers[r].id;
          Change(s.(up := Some(p.(readers := p.readers - {r}))), id, Reconciled(p.jobs[id].snapshot, now), ok)
        case ReconcileAbandon(r) => s.(up := Some(p.(readers := p.readers - {r})))
        case Crash => State(None, s.disk, s.log.(orphans := s.log.orphans + s.disk.temps.Keys))
  }

  /** The constructor. When its write raises the process does not come up. */
  function Restarted(s: State, now: Time, unreadable: set<Path>, ok: bool): State {
    var d := s.disk;
    var temps := KeptTemps(d.jobs, d.files, unreadable, d.temps);
    var jobs := RecoveredAll(d.jobs, d.files, unreadable, now);
    if exists id :: id in d.jobs && Open(d.jobs[id].snapshot.status) then
      if ok then State(Some(Process(jobs, map[], map[], None)), Disk(jobs, d.files, temps), s.log)
      else s.(disk := d.(temps := temps))
    else s.(up := Some(Process(d.jobs, map[], map[], None)))
  }

  /** Steps that only move the program counter. */
  predicate Moves(step: Step) {
    step.CheckCancel? || step.SkipTarget? || step.SeeCancel? || step.PassCancel? || step.Raise?
    || step.HistoryUnsettled? || step.HistoryFound? || step.CheckFailure?
  }

  function Destination(step: Step, w: Worker, status: Status): Pc
    requires Moves(step)
  {
    match step
    case CheckCancel(_) => if w.cancelled then Cancelling else Resolving
    case SkipTarget(_) => Finishing
    case SeeCancel(_) => Unwinding(true)
    case PassCancel(_) => Ready
    case Raise(_) => if w.pc.Writing? || w.pc.Written? || w.pc.Ready? then Unwinding(false) else Checking
    case HistoryUnsettled(_) => Finishing
    case HistoryFound(_) => Completing
    case CheckFailure(_) => if status.Publishing? then Finishing else Failing
  }

  /** Steps that report through `_change`. */
  predicate Reports(step: Step) {
    step.BeginRun? || step.PageDone? || step.LeavePublishing? || step.HistoryMissing?
    || step.Complete? || step.ReportCancelled? || step.ReportFailed?
  }

  function Report(step: Step, w: Worker, job: Job): Snapshot
    requires Reports(step)
  {
    var out := Output(job.target, Sha256(w.bytes));
    match step
    case BeginRun(_, page, _) => Started(job.snapshot, page)
    case PageDone(_, _) => PageCounted(job.snapshot)
    case LeavePublishing(_, _) => Republished(job.snapshot, out)
    case HistoryMissing(_, _) => Republished(job.snapshot, out)
    case Complete(_, now, _) => Finished(job.snapshot, out, now)
    case ReportCancelled(_, now, _) => Withdrawn(job.snapshot, now)
    case ReportFailed(_, now, _) => Broken(job.snapshot, now)
  }

  /** Where the thread goes when the report is stored, and where when the store raises. */
  function AfterReport(step: Step): Pc
    requires Reports(step)
  {
    match step
    case BeginRun(_, _, ok) => if ok then Entering else Checking
    case PageDone(_, ok) => if ok then Writing else Unwinding(false)
    case LeavePublishing(_, ok) => if ok then Finishing else Checking
    case HistoryMissing(_, ok) => if ok then EnsuringHistory else Checking
    case Complete(_, _, ok) => if ok then Finishing else Checking
    case ReportCancelled(_, _, _) => Finishing
    case ReportFailed(_, _, _) => Finishing
  }

  function WorkerNext(s: State, p: Process, step: Step): State
    requires s.up == Some(p)
    requires WorkerStep(step) && step.id in p.workers && step.id in p.jobs
    requires WorkerEnabled(s, p, step, p.workers[step.id].pc)
  {
    var id := step.id;
    var w := p.workers[id];
    var job := p.jobs[id];
    if Moves(step) then At(s, id, Destination(step, w, job.snapshot.status))
    else if Reports(step) then At(Change(s, id, Report(step, w, job), step.ok), id, AfterReport(step))
    else
      match step
      case OpenTemp(_, nonce) => TempOpened(s, p, id, nonce)
      case Write(_, bytes) => TempWritten(s, p, id, bytes)
      case Enter(_) => SectionEntered(s, p, id)
      case WriteIntent(_, ok) => IntentWritten(s, p, id, ok)
      case Replace(_, ok) => TargetReplaced(s, p, id, ok)
      case Mark(_, ok) => PublicationMarked(s, p, id, ok)
      case Unwind(_) => Unwound(s, p, id)
      case Finish(_) => s.(up := Some(p.(workers := p.workers - {id})))
  }

  function TempOpened(s: State, p: Process, id: Id, nonce: nat): State
    requires s.up == Some(p) && id in p.workers && id in p.jobs
  {
    var temp := Temp(p.jobs[id].target, nonce);
    State(Some(p.(workers := p.workers[id := p.workers[id].(pc := Writing, temp := Some(temp), bytes := [])])),
          s.disk.(temps := s.disk.temps[temp := []]),
          s.log.(names := s.log.names[temp := id]))
  }

  function TempWritten(s: State, p: Process, id: Id, bytes: Content): State
    requires s.up == Some(p) && id in p.workers
  {
    var w := p.workers[id];
    s.(up := Some(p.(workers := p.workers[id := w.(pc := Written, bytes := bytes)])),
       disk := s.disk.(temps := if w.temp.Some? then s.disk.temps[w.temp.value := bytes] else s.disk.temps))
  }

  /** The lock is taken, the cancellation checked for the last time, the intent set in memory. */
  function SectionEntered(s: State, p: Process, id: Id): State
    requires s.up == Some(p) && id in p.workers && id in p.jobs
    requires p.workers[id].temp.Some? && p.workers[id].temp.value in s.disk.temps
  {
    var w := p.workers[id];
    if w.cancelled then At(s, id, Unwinding(true))
    else
      s.(up := Some(p.(
        jobs := p.jobs[id := Intending(p.jobs[id], s.disk.temps[w.temp.value], w.temp.value)],
        workers := p.workers[id := w.(pc := IntentSet)], lock := Some(id))))
  }

  /** The intent, and with it every other job, is made durable. */
  function IntentWritten(s: State, p: Process, id: Id, ok: bool): State
    requires s.up == Some(p) && id in p.workers
  {
    if ok then At(s, id, IntentDurable).(disk := s.disk.(jobs := p.jobs))
    else Unlocked(At(s, id, Unwinding(false)))
  }

  function TargetReplaced(s: State, p: Process, id: Id, ok: bool): State
    requires s.up == Some(p) && id in p.workers && id in p.jobs
    requires p.workers[id].temp.Some? && p.workers[id].temp.value in s.disk.temps
  {
    var temp := p.workers[id].temp.value;
    if ok then
      State(At(s, id, Replaced).up,
            s.disk.(files := s.disk.files[p.jobs[id].target := s.disk.temps[temp]],
                    temps := s.disk.temps - {temp}),
            s.log.(published := s.log.published[id := p.jobs[id].target]))
    else Unlocked(At(s, id, Unwinding(false)))
  }

  /** The mark stays in memory when its write raises. */
  function PublicationMarked(s: State, p: Process, id: Id, ok: bool): State
    requires s.up == Some(p) && id in p.workers && id in p.jobs
  {
    var w := p.workers[id];
    var jobs := p.jobs[id := Marked(p.jobs[id], w.bytes)];
    var pc := if ok then PublicationDone else Unwinding(false);
    State(Some(p.(jobs := jobs, workers := p.workers[id := w.(pc := pc)], lock := None)),
          if ok then s.disk.(jobs := jobs) else s.disk,
          s.log)
  }

  function Unwound(s: State, p: Process, id: Id): State
    requires s.up == Some(p) && id in p.workers && p.workers[id].pc.Unwinding?
  {
    At(s, id, if p.workers[id].pc.cancelled then Cancelling else Checking)
    .(disk := s.disk.(temps := WithoutTemp(s.disk.temps, p.workers[id].temp)))
  }

  function Unlocked(s: State): State
    requires s.up.Some?
  {
    s.(up := Some(s.up.value.(lock := None)))
  }

  // ---------------------------------------------------------------- runs

  /** A step that is not enabled is passed over. */
  function Do(s: State, step: Step): State {
    if Enabled(s, step) then Next(s, step) else s
  }

  function Run(s: State, steps: seq<Step>): State
    decreases |steps|
  {
    if |steps| == 0 then s else Run(Do(s, steps[0]), steps[1..])
  }
}
