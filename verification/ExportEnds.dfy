/** What every report leaves behind, and how an export ends: completed, cancelled or failed. */
module ExportEnds {
  import opened Options
  import opened ExportModel
  import opened ExportSafety
  import opened ExportTheorems

  // ------------------------------------------------------- what one step leaves

  /** Only the record of this export is another one; what is shown is what is stored. */
  ghost predicate OnlyRecordChanged(s: State, s': State, id: Id) {
    Visible(s', id) && s'.disk.jobs == s'.up.value.jobs && s'.disk.files == s.disk.files
    && s.up.Some? && s'.up.value.jobs.Keys == s.up.value.jobs.Keys
    && forall j :: j in s.up.value.jobs && j != id ==> s'.up.value.jobs[j] == s.up.value.jobs[j]
  }

  /** What a report makes of a record: `after` for `job`, as its worker `w` reports it. */
  predicate Says(step: Step, w: Worker, job: Job, after: Snapshot)
    requires Reports(step)
  {
    var before, written := job.snapshot, Output(job.target, Sha256(w.bytes));
    match step
    case BeginRun(_, page, _) => after == before.(status := Running, currentPage := Some(page))
    case PageDone(_, _) =>
      after == before.(currentPage := None, completedPages := after.completedPages)
      && after.completedPages <= before.totalPages
      && (before.completedPages < before.totalPages ==> after.completedPages == before.completedPages + 1)
    case LeavePublishing(_, _) =>
      after == before.(status := Publishing, currentPage := None, output := Some(written))
    case HistoryMissing(_, _) =>
      after == before.(status := Publishing, currentPage := None, output := Some(written))
    case Complete(_, now, _) =>
      after == Snapshot(Completed, before.totalPages, before.totalPages, None, Some(now), Some(written), None)
    case ReportCancelled(_, now, _) =>
      after == before.(status := Cancelled, currentPage := None, completedAt := Some(now), error := None)
    case ReportFailed(_, now, _) =>
      after == before.(status := Failed, currentPage := None, completedAt := Some(now),
                       error := Some("EXPORT_WRITE_FAILED"))
  }

  lemma ReportSays(step: Step, w: Worker, job: Job)
    requires Reports(step)
    ensures Says(step, w, job, Report(step, w, job))
  {
  }

  /** A report that the store takes leaves what it says; one that it refuses leaves every record as it was. */
  lemma ReportTells(s: State, step: Step)
    requires Inv(s) && Enabled(s, step) && Reports(step)
    ensures !step.ok ==> Next(s, step).up.value.jobs == s.up.value.jobs && Next(s, step).disk == s.disk
    ensures step.ok ==>
              OnlyRecordChanged(s, Next(s, step), step.id)
              && Says(step, s.up.value.workers[step.id], s.up.value.jobs[step.id],
                      Next(s, step).up.value.jobs[step.id].snapshot)
  {
    assert JobFits(s, step.id);
    var w, job := s.up.value.workers[step.id], s.up.value.jobs[step.id];
    ReportSays(step, w, job);
    ReportStored(s, step, Report(step, w, job));
  }

  /** The worker is elsewhere and otherwise the same; nobody else has moved. */
  ghost predicate Moved(s: State, s': State, id: Id, pc: Pc) {
    s.up.Some? && s'.up.Some? && id in s.up.value.workers
    && s'.up.value.workers == s.up.value.workers[id := s.up.value.workers[id].(pc := pc)]
    && s'.up.value.readers == s.up.value.readers && s'.log == s.log
  }

  lemma ReportStored(s: State, step: Step, snapshot: Snapshot)
    requires Enabled(s, step) && Reports(step)
    requires snapshot == Report(step, s.up.value.workers[step.id], s.up.value.jobs[step.id])
    ensures var s' := Next(s, step);
            if step.ok then OnlyRecordChanged(s, s', step.id) && s'.up.value.jobs[step.id].snapshot == snapshot
            else s'.up.value.jobs == s.up.value.jobs && s'.disk == s.disk
    ensures Moved(s, Next(s, step), step.id, AfterReport(step))
  {
    var changed := Change(s, step.id, snapshot, step.ok);
    assert Next(s, step) == At(changed, step.id, AfterReport(step));
  }

  /** A new export waits with none of its pages done; if the store refuses it, it is shown without a worker. */
  lemma AcceptTells(s: State, step: Step)
    requires Inv(s) && Enabled(s, step) && step.Accept?
    ensures var s' := Next(s, step);
            && Visible(s', step.id) && s'.up.value.jobs[step.id].target == step.target
            && s'.up.value.jobs[step.id].snapshot == Snapshot(Pending, 0, step.pages, None, None, None, None)
            && (step.ok <==> step.id in s'.up.value.workers) && (step.ok <==> step.id in s'.disk.jobs)
  {
    assert JobFits(s, step.id);
  }

  /** The replace puts the bytes of the worker at its target, and the mark shows the export as publishing them. */
  lemma PublicationTells(s: State, step: Step)
    requires Inv(s) && Enabled(s, step) && (step.Replace? || step.Mark?)
    ensures var s', id := Next(s, step), step.id;
            var target, bytes := s.up.value.jobs[id].target, s.up.value.workers[id].bytes;
            && (step.Replace? && step.ok ==>
                  s'.disk.files == s.disk.files[target := bytes] && s'.log.published == s.log.published[id := target])
            && (step.Replace? && !step.ok ==> s'.disk == s.disk && s'.log == s.log)
            && (step.Mark? ==>
                  && Visible(s', id) && s'.disk.files == s.disk.files
                  && s'.up.value.jobs[id].snapshot ==
                     s.up.value.jobs[id].snapshot.(
                       status := Publishing, currentPage := None, output := Some(Output(target, Sha256(bytes))))
                  && s'.disk.jobs == if step.ok then s'.up.value.jobs else s.disk.jobs)
  {
    assert JobFits(s, step.id);
  }

  /** A poll that settles an export completes it at the given time and changes nothing else of it. */
  lemma SettlingTells(s: State, step: Step)
    requires Inv(s) && Enabled(s, step) && step.ReconcileComplete?
    ensures var s', id := Next(s, step), s.up.value.readers[step.reader].id;
            var before, after := s.up.value.jobs[id].snapshot, s'.up.value.jobs[id].snapshot;
            && (step.ok ==>
                  OnlyRecordChanged(s, s', id)
                  && after == before.(status := Completed, completedAt := Some(step.now), error := None))
            && (!step.ok ==> s'.up.value.jobs == s.up.value.jobs && s'.disk == s.disk)
  {
  }

  // ------------------------------------------------------- the checks

  /** Each of the three checks of a worker sees the cancellation exactly when there is one, and lets it go on if not. */
  lemma ChecksSeeTheCancellation(s: State, id: Id)
    requires Inv(s) && s.up.Some? && id in s.up.value.workers
    ensures var p := s.up.value; var w := p.workers[id];
            && (w.pc.Entering? ==>
                  && Enabled(s, CheckCancel(id))
                  && Next(s, CheckCancel(id)).up.value.workers[id].pc == if w.cancelled then Cancelling else Resolving)
            && (w.pc.Written? ==>
                  && (Enabled(s, SeeCancel(id)) <==> w.cancelled) && (Enabled(s, PassCancel(id)) <==> !w.cancelled)
                  && (w.cancelled ==> Next(s, SeeCancel(id)).up.value.workers[id].pc == Unwinding(true)))
            && (w.pc.Ready? && p.lock.None? ==>
                  && Enabled(s, Enter(id))
                  && Next(s, Enter(id)).up.value.workers[id].pc == if w.cancelled then Unwinding(true) else IntentSet)
  {
    assert JobFits(s, id);
  }

  ghost predicate HasVerified(s: State, r: nat, output: Output) {
    s.up.Some? && r in s.up.value.readers && s.up.value.readers[r].verified && s.up.value.readers[r].output == output
  }

  ghost predicate HoldsOutput(s: State, output: Output) {
    output.path in s.disk.files && Sha256(s.disk.files[output.path]) == output.sha
  }

  lemma WorkersSparePolls(s: State, step: Step)
    requires Enabled(s, step) && WorkerStep(step)
    ensures Next(s, step).up.Some? && Next(s, step).up.value.readers == s.up.value.readers
  {
    if Moves(step) {
    } else if Reports(step) {
    } else {
    }
  }

  lemma VerifiedBefore(s: State, step: Step, r: nat, output: Output)
    requires HasVerified(Do(s, step), r, output)
    ensures HasVerified(s, r, output) || (step == ReconcileVerify(r) && Enabled(s, step) && HoldsOutput(s, output))
  {
    if Enabled(s, step) {
      if WorkerStep(step) {
        WorkersSparePolls(s, step);
      } else if step.Restart? {
      } else if step.ReconcileComplete? {
      } else {
      }
    }
  }

  /** A poll that is ready to complete its export has found the published bytes at the target at some moment before. */
  lemma {:induction false} PollsSawTheBytes(s: State, steps: seq<Step>, r: nat, output: Output)
    requires !HasVerified(s, r, output) && HasVerified(Run(s, steps), r, output)
    ensures exists k :: 0 <= k < |steps| && steps[k] == ReconcileVerify(r) && HoldsOutput(Run(s, steps[..k]), output)
    decreases |steps|
  {
    var s' := Do(s, steps[0]);
    assert Run(s, steps[..0]) == s;
    if HasVerified(s', r, output) {
      VerifiedBefore(s, steps[0], r, output);
    } else {
      PollsSawTheBytes(s', steps[1..], r, output);
      var k :| 0 <= k < |steps| - 1 && steps[1..][k] == ReconcileVerify(r)
               && HoldsOutput(Run(s', steps[1..][..k]), output);
      PrefixAfter(s, steps, k);
      assert steps[k + 1] == steps[1..][k];
    }
  }

  /** Only such a poll completes an export, and only of a publishing export with an output it is begun. */
  lemma PollsNeedTheBytes(s: State, r: nat, now: Time, ok: bool, id: Id)
    ensures Enabled(s, ReconcileComplete(r, now, ok)) ==> HasVerified(s, r, s.up.value.readers[r].output)
    ensures Enabled(s, ReconcileRead(r, id)) ==>
              && s.up.value.jobs[id].snapshot.status.Publishing? && s.up.value.jobs[id].snapshot.output.Some?
              && Next(s, ReconcileRead(r, id)).up.value.readers[r] ==
                 Reader(id, s.up.value.jobs[id].snapshot.output.value, false)
  {
  }

  // ------------------------------------------------------- where a worker is heading

  /** A store write or file operation of a worker that raises. */
  predicate Refused(step: Step) {
    match step
    case WriteIntent(_, ok) => !ok
    case Replace(_, ok) => !ok
    case Mark(_, ok) => !ok
    case _ => Reports(step) && !step.ok
  }

  predicate BeforeSection(pc: Pc) { Before(pc) && !InSection(pc) }

  /** The straight way: from the start through the publication section to the completion. */
  predicate OnTheWay(pc: Pc) {
    pc.Spawned? || pc.Entering? || pc.Resolving? || pc.Writing? || pc.Written? || pc.Ready?
    || InSection(pc) || After(pc)
  }

  /** A worker that stands here will report this status, if nothing of its export raises. */
  predicate LeadsTo(w: Worker, goal: Status) {
    match goal
    case Completed => !w.cancelled && OnTheWay(w.pc)
    case Cancelled => w.cancelled && BeforeSection(w.pc)
    case Failed => w.pc == Unwinding(false) || w.pc.Checking? || w.pc.Failing?
    case _ => false
  }

  ghost predicate NoPoll(s: State, id: Id) {
    s.up.Some? && forall r :: r in s.up.value.readers ==> s.up.value.readers[r].id != id
  }

  /** The worker of the export is on its way to report this status, or has reported it. */
  ghost predicate Heading(s: State, id: Id, goal: Status) {
    s.up.Some? && id in s.up.value.jobs
    && (goal.Completed? || (Lost(goal) && NoPoll(s, id) && id !in s.log.published))
    && (if id in s.up.value.workers && !s.up.value.workers[id].pc.Finishing? then LeadsTo(s.up.value.workers[id], goal)
        else s.up.value.jobs[id].snapshot.status == goal && (goal.Completed? ==> id in s.log.published))
  }

  /**
   The process does not die, and nothing of this export raises, is refused or skipped; towards a completion it is not
   cancelled either, its target can be read back and its history row is found.
   */
  predicate Spares(step: Step, id: Id, goal: Status) {
    && !step.Crash?
    && (WorkerStep(step) && step.id == id ==> !step.Raise? && !step.SkipTarget? && !Refused(step))
    && (goal.Completed? ==>
          && !(step.Cancel? && step.id == id)
          && (WorkerStep(step) && step.id == id ==> !step.LeavePublishing? && !step.HistoryUnsettled?))
  }

  ghost predicate SparingRun(s: State, steps: seq<Step>, id: Id, goal: Status)
    decreases |steps|
  {
    |steps| > 0 ==>
      (Enabled(s, steps[0]) ==> Spares(steps[0], id, goal)) && SparingRun(Do(s, steps[0]), steps[1..], id, goal)
  }

  /** Reports made on the way lead on; the last one is of the status the worker was heading for. */
  lemma ReportsLeadOn(s: State, step: Step, goal: Status)
    requires Inv(s) && Enabled(s, step) && Reports(step) && Spares(step, step.id, goal)
    requires LeadsTo(s.up.value.workers[step.id], goal)
    ensures var after := s.up.value.workers[step.id].(pc := AfterReport(step));
            if after.pc.Finishing?
            then Report(step, s.up.value.workers[step.id], s.up.value.jobs[step.id]).status == goal
                 && (goal.Completed? ==> step.id in s.log.published)
            else LeadsTo(after, goal)
  {
    assert JobFits(s, step.id);
  }

  lemma StaysHeading(s: State, s': State, id: Id, goal: Status, pc: Pc)
    requires Heading(s, id, goal) && Moved(s, s', id, pc) && OnlyRecordChanged(s, s', id)
    requires if pc.Finishing?
             then s'.up.value.jobs[id].snapshot.status == goal && (goal.Completed? ==> id in s.log.published)
             else LeadsTo(s.up.value.workers[id].(pc := pc), goal)
    ensures Heading(s', id, goal)
  {
  }

  lemma OwnReportHeads(s: State, step: Step, id: Id, goal: Status)
    requires Inv(s) && Heading(s, id, goal) && Enabled(s, step) && Reports(step) && step.id == id
    requires Spares(step, id, goal)
    ensures Heading(Next(s, step), id, goal)
  {
    ReportsLeadOn(s, step, goal);
    ReportTells(s, step);
    ReportStored(s, step, Report(step, s.up.value.workers[id], s.up.value.jobs[id]));
    StaysHeading(s, Next(s, step), id, goal, AfterReport(step));
  }

  lemma OwnMoveHeads(s: State, step: Step, id: Id, goal: Status)
    requires Inv(s) && Heading(s, id, goal) && Enabled(s, step) && Moves(step) && step.id == id
    requires Spares(step, id, goal)
    ensures Heading(Next(s, step), id, goal)
  {
    assert JobFits(s, id);
  }

  lemma OwnFileStepHeads(s: State, step: Step, id: Id, goal: Status)
    requires Inv(s) && Heading(s, id, goal) && Enabled(s, step) && WorkerStep(step) && step.id == id
    requires !Reports(step) && !Moves(step) && Spares(step, id, goal)
    ensures Heading(Next(s, step), id, goal)
  {
    assert JobFits(s, id);
  }

  /** The steps of other workers leave this export's record and its worker alone. */
  lemma OtherWorkersSpare(s: State, step: Step, id: Id)
    requires Enabled(s, step) && WorkerStep(step) && step.id != id
    ensures Next(s, step).up.Some? && Next(s, step).up.value.readers == s.up.value.readers
    ensures id in Next(s, step).up.value.jobs <==> id in s.up.value.jobs
    ensures id in s.up.value.jobs ==> Next(s, step).up.value.jobs[id] == s.up.value.jobs[id]
    ensures id in Next(s, step).up.value.workers <==> id in s.up.value.workers
    ensures id in s.up.value.workers ==> Next(s, step).up.value.workers[id] == s.up.value.workers[id]
    ensures id in Next(s, step).log.published <==> id in s.log.published
  {
    if Moves(step) {
    } else if Reports(step) {
    } else {
    }
  }

  lemma OtherStepHeads(s: State, step: Step, id: Id, goal: Status)
    requires Inv(s) && Heading(s, id, goal) && Enabled(s, step) && !WorkerStep(step) && Spares(step, id, goal)
    ensures Heading(Next(s, step), id, goal)
  {
    assert JobFits(s, id);
    if step.Accept? {
    } else if step.ReconcileComplete? {
    } else {
    }
  }

  lemma {:induction false} RunHeads(s: State, steps: seq<Step>, id: Id, goal: Status)
    requires Inv(s) && Heading(s, id, goal) && SparingRun(s, steps, id, goal)
    ensures Inv(Run(s, steps)) && Heading(Run(s, steps), id, goal)
    decreases |steps|
  {
    if |steps| == 0 {
    } else {
      var step := steps[0];
      if Enabled(s, step) {
        StepKeeps(s, step);
        if !WorkerStep(step) {
          OtherStepHeads(s, step, id, goal);
        } else if step.id != id {
          OtherWorkersSpare(s, step, id);
        } else if Reports(step) {
          OwnReportHeads(s, step, id, goal);
        } else if Moves(step) {
          OwnMoveHeads(s, step, id, goal);
        } else {
          OwnFileStepHeads(s, step, id, goal);
        }
      }
      RunHeads(Do(s, step), steps[1..], id, goal);
    }
  }

  // ------------------------------------------------------- how an export ends

  /** Once its worker is gone the export is shown with this status. */
  ghost predicate EndsAs(s: State, id: Id, status: Status) {
    s.up.Some? && (id !in s.up.value.workers ==> Visible(s, id) && StatusOf(s, id) == status)
  }

  lemma HeadingEnds(s: State, steps: seq<Step>, id: Id, goal: Status)
    requires Inv(s) && Heading(s, id, goal) && SparingRun(s, steps, id, goal)
    ensures EndsAs(Run(s, steps), id, goal)
    ensures goal.Completed? && id !in Run(s, steps).up.value.workers ==> id in Run(s, steps).log.published
  {
    RunHeads(s, steps, id, goal);
    assert JobFits(Run(s, steps), id);
  }

  lemma OpenMeansNoPoll(s: State, id: Id)
    requires Inv(s) && s.up.Some? && id in s.up.value.jobs && Open(s.up.value.jobs[id].snapshot.status)
    ensures NoPoll(s, id)
  {
    forall r | r in s.up.value.readers ensures s.up.value.readers[r].id != id {
      assert ReaderFits(s, r);
    }
  }

  /** An export that is cancelled before its publication section, and for which nothing raises, ends cancelled. */
  lemma CancelledExportsEndCancelled(s: State, id: Id, steps: seq<Step>)
    requires Inv(s) && Enabled(s, Cancel(id)) && id in s.up.value.workers && Before(s.up.value.workers[id].pc)
    requires SparingRun(Next(s, Cancel(id)), steps, id, Cancelled)
    ensures EndsAs(Run(Next(s, Cancel(id)), steps), id, Cancelled)
  {
    assert JobFits(s, id);
    OpenMeansNoPoll(s, id);
    StepKeeps(s, Cancel(id));
    HeadingEnds(Next(s, Cancel(id)), steps, id, Cancelled);
  }

  /** An export that nobody cancels and for which nothing raises publishes and ends completed. */
  lemma UndisturbedExportsEndCompleted(s: State, id: Id, steps: seq<Step>)
    requires Inv(s) && s.up.Some? && id in s.up.value.workers && LeadsTo(s.up.value.workers[id], Completed)
    requires SparingRun(s, steps, id, Completed)
    ensures EndsAs(Run(s, steps), id, Completed)
    ensures id !in Run(s, steps).up.value.workers ==> id in Run(s, steps).log.published
  {
    assert JobFits(s, id);
    HeadingEnds(s, steps, id, Completed);
  }

  /** An export of which a step before its replace raises, and then nothing more, ends failed, cancelled or not. */
  lemma RaisingExportsEndFailed(s: State, step: Step, steps: seq<Step>)
    requires Inv(s) && Enabled(s, step) && WorkerStep(step) && (step.Raise? || Refused(step))
    requires step.id !in s.log.published && !step.ReportCancelled? && !step.ReportFailed?
    requires SparingRun(Next(s, step), steps, step.id, Failed)
    ensures EndsAs(Run(Next(s, step), steps), step.id, Failed)
  {
    StepKeeps(s, step);
    RaiseHeads(s, step);
    HeadingEnds(Next(s, step), steps, step.id, Failed);
  }

  lemma RefusedReportHeads(s: State, step: Step)
    requires Inv(s) && Enabled(s, step) && Reports(step) && !step.ok && NoPoll(s, step.id)
    requires step.id !in s.log.published && !step.ReportCancelled? && !step.ReportFailed?
    ensures Heading(Next(s, step), step.id, Failed)
  {
    assert JobFits(s, step.id);
    ReportStored(s, step, Report(step, s.up.value.workers[step.id], s.up.value.jobs[step.id]));
  }

  lemma RaiseHeads(s: State, step: Step)
    requires Inv(s) && Enabled(s, step) && WorkerStep(step) && (step.Raise? || Refused(step))
    requires step.id !in s.log.published && !step.ReportCancelled? && !step.ReportFailed?
    ensures Heading(Next(s, step), step.id, Failed)
  {
    assert JobFits(s, step.id);
    OpenMeansNoPoll(s, step.id);
    if Reports(step) {
      RefusedReportHeads(s, step);
    } else if step.Raise? {
    } else {
      RefusedFileStepHeads(s, step);
    }
  }

  lemma RefusedFileStepHeads(s: State, step: Step)
    requires Inv(s) && Enabled(s, step) && Refused(step) && !Reports(step)
    requires step.id !in s.log.published && NoPoll(s, step.id)
    ensures Heading(Next(s, step), step.id, Failed)
  {
    assert JobFits(s, step.id);
  }

  // ------------------------------------------------------- cancelled before the first check

  ghost predicate NeverWrites(s: State, id: Id) {
    id in s.log.used
    && (s.up.Some? && id in s.up.value.workers ==>
          var w := s.up.value.workers[id];
          w.cancelled && w.temp.None?
          && (w.pc.Spawned? || w.pc.Entering?
              || w.pc.Cancelling? || w.pc.Checking? || w.pc.Failing? || w.pc.Finishing?))
  }

  /** Every temporary file that was ever opened for the export had been opened before. */
  ghost predicate NoNewTemps(s: State, s': State, id: Id) {
    forall t :: t in s'.log.names && s'.log.names[t] == id ==> t in s.log.names && s.log.names[t] == id
  }

  lemma ReportNeverWrites(s: State, step: Step, id: Id)
    requires NeverWrites(s, id) && Enabled(s, step) && Reports(step)
    ensures NeverWrites(Next(s, step), id) && NoNewTemps(s, Next(s, step), id)
  {
    ReportStored(s, step, Report(step, s.up.value.workers[step.id], s.up.value.jobs[step.id]));
  }

  lemma WorkerNeverWrites(s: State, step: Step, id: Id)
    requires NeverWrites(s, id) && Enabled(s, step) && WorkerStep(step) && !Reports(step)
    ensures NeverWrites(Next(s, step), id) && NoNewTemps(s, Next(s, step), id)
  {
    if Moves(step) {
    } else {
    }
  }

  lemma OtherNeverWrites(s: State, step: Step, id: Id)
    requires NeverWrites(s, id) && Enabled(s, step) && !WorkerStep(step)
    ensures NeverWrites(Next(s, step), id) && NoNewTemps(s, Next(s, step), id)
  {
    if step.Restart? {
    } else {
    }
  }

  /** An export that is cancelled before its first check never opens a temporary file, whatever fails or crashes. */
  lemma {:induction false} CancelledEarlyWritesNothing(s: State, steps: seq<Step>, id: Id)
    requires NeverWrites(s, id)
    ensures NoNewTemps(s, Run(s, steps), id)
    decreases |steps|
  {
    if |steps| == 0 {
    } else {
      var step := steps[0];
      if Enabled(s, step) {
        if Reports(step) {
          ReportNeverWrites(s, step, id);
        } else if WorkerStep(step) {
          WorkerNeverWrites(s, step, id);
        } else {
          OtherNeverWrites(s, step, id);
        }
      }
      CancelledEarlyWritesNothing(Do(s, step), steps[1..], id);
    }
  }
}
