/** The history row of every export, in memory and on disk, says what its snapshot says. */
module ExportRecords {
  import opened Options
  import opened ExportModel

  /** Status, completion time, path and digest agree; no more pages are counted than there are. */
  predicate Mirrors(job: Job) {
    && job.history.status == job.snapshot.status && job.history.completedAt == job.snapshot.completedAt
    && (job.snapshot.output.Some? ==>
          job.history.path == job.snapshot.output.value.path
          && job.history.sha == Some(job.snapshot.output.value.sha))
    && job.snapshot.completedPages <= job.snapshot.totalPages
  }

  ghost predicate AllMirror(jobs: Jobs) { forall id :: id in jobs ==> Mirrors(jobs[id]) }

  ghost predicate RecordsFit(s: State) {
    AllMirror(s.disk.jobs) && (s.up.Some? ==> AllMirror(s.up.value.jobs))
  }

  lemma MoveMirrors(s: State, step: Step)
    requires RecordsFit(s) && Enabled(s, step) && Moves(step)
    ensures RecordsFit(Next(s, step))
  {
  }

  lemma ReportCounts(step: Step, w: Worker, job: Job)
    requires Reports(step) && Mirrors(job)
    ensures Mirrors(Changed(job, Report(step, w, job)))
  {
  }

  /** A change keeps every other record, and the changed one is a mirror if the new snapshot makes it one. */
  lemma ChangeMirrors(s: State, id: Id, snapshot: Snapshot, ok: bool)
    requires RecordsFit(s) && s.up.Some? && id in s.up.value.jobs && Mirrors(Changed(s.up.value.jobs[id], snapshot))
    ensures RecordsFit(Change(s, id, snapshot, ok))
  {
  }

  lemma MovingOnMirrors(s: State, id: Id, pc: Pc)
    requires RecordsFit(s) && s.up.Some? && id in s.up.value.workers
    ensures RecordsFit(At(s, id, pc))
  {
  }

  lemma ReportMirrors(s: State, step: Step)
    requires RecordsFit(s) && Enabled(s, step) && Reports(step)
    ensures RecordsFit(Next(s, step))
  {
    var p, id := s.up.value, step.id;
    ReportCounts(step, p.workers[id], p.jobs[id]);
    ChangeMirrors(s, id, Report(step, p.workers[id], p.jobs[id]), step.ok);
    MovingOnMirrors(Change(s, id, Report(step, p.workers[id], p.jobs[id]), step.ok), id, AfterReport(step));
  }

  lemma FileStepMirrors(s: State, step: Step)
    requires RecordsFit(s) && Enabled(s, step) && WorkerStep(step) && !Moves(step) && !Reports(step)
    ensures RecordsFit(Next(s, step))
  {
  }

  lemma OtherStepMirrors(s: State, step: Step)
    requires RecordsFit(s) && Enabled(s, step) && !WorkerStep(step)
    ensures RecordsFit(Next(s, step))
  {
    if step.Restart? {
    } else if step.ReconcileComplete? {
      var p := s.up.value;
      var id := p.readers[step.reader].id;
      assert Mirrors(Changed(p.jobs[id], Reconciled(p.jobs[id].snapshot, step.now)));
    } else {
    }
  }

  /** In every run, whatever fails or crashes. */
  lemma {:induction false} RecordsAlwaysFit(s: State, steps: seq<Step>)
    requires RecordsFit(s)
    ensures RecordsFit(Run(s, steps))
    decreases |steps|
  {
    if |steps| > 0 {
      var step := steps[0];
      if Enabled(s, step) {
        if Moves(step) {
          MoveMirrors(s, step);
        } else if Reports(step) {
          ReportMirrors(s, step);
        } else if WorkerStep(step) {
          FileStepMirrors(s, step);
        } else {
          OtherStepMirrors(s, step);
        }
      }
      RecordsAlwaysFit(Do(s, step), steps[1..]);
    }
  }
}
