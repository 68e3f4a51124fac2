/** What a user of the export runtime can rely on, and exactly when. */
module ExportTheorems {
  import opened Options
  import opened ExportModel
  import opened ExportSafety

  // ------------------------------------------------------- two ways to report a published export as failed

  /**
   The worker of an export that a reconciler has meanwhile completed runs into its failure handler,
   whose guard looks for `publishing` only.
   */
  predicate LateFailure(s: State, step: Step) {
    step.ReportFailed? && step.ok && Enabled(s, step)
    && s.up.value.jobs[step.id].snapshot.status.Completed?
  }

  /** The target of a published export whose mark was not stored cannot be read. */
  predicate Mistaken(s: State, unreadable: set<Path>, id: Id) {
    id in s.log.published && id in s.disk.jobs && Open(s.disk.jobs[id].snapshot.status)
    && s.disk.jobs[id].target in unreadable
  }

  /** A restart that takes this export for one that never published. */
  predicate BlindRestart(s: State, step: Step, id: Id) {
    step.Restart? && step.ok && Enabled(s, step) && Mistaken(s, step.unreadable, id)
  }

  /** The step is none of the two as far as this export is concerned. */
  predicate CleanFor(s: State, step: Step, id: Id) {
    !(LateFailure(s, step) && step.id == id) && !BlindRestart(s, step, id)
  }

  // ------------------------------------------------------- the fate of an export

  /** Decided by the replace and by what is on disk, not by what the process remembers. */
  predicate IsWon(s: State, id: Id) {
    id in s.log.published || (id in s.disk.jobs && Won(s.disk.jobs[id].snapshot.status))
  }

  predicate IsLost(s: State, id: Id) {
    id in s.disk.jobs && Lost(s.disk.jobs[id].snapshot.status)
  }

  /** What `snapshot` would answer: it waits for the lock. */
  predicate Visible(s: State, id: Id) {
    s.up.Some? && id in s.up.value.jobs && s.up.value.lock != Some(id)
  }

  function StatusOf(s: State, id: Id): Status
    requires Visible(s, id)
  {
    s.up.value.jobs[id].snapshot.status
  }

  ghost predicate FateFits(s: State, id: Id) {
    && !(IsWon(s, id) && IsLost(s, id))
    && (s.up.Some? && id in s.up.value.jobs ==>
          var status := s.up.value.jobs[id].snapshot.status;
          && (Won(status) ==> IsWon(s, id))
          && (Lost(status) ==> IsLost(s, id))
          && (Open(status) ==> (id in s.disk.jobs ==> Open(s.disk.jobs[id].snapshot.status))
                               && (id in s.log.published ==> s.up.value.lock == Some(id))))
  }

  /** A poll of this export is under way only where there is something to complete. */
  ghost predicate PollsFit(s: State, id: Id) {
    s.up.Some? && id in s.up.value.jobs ==>
      forall r :: r in s.up.value.readers && s.up.value.readers[r].id == id ==>
        Won(s.up.value.jobs[id].snapshot.status)
  }

  /** This export is told the truth about: the reported region is its fate. */
  ghost predicate TrueOf(s: State, id: Id) { Inv(s) && FateFits(s, id) && PollsFit(s, id) }

  /** From one state to the next the export does not change sides, and the truth about it is told. */
  ghost predicate Onward(s: State, s': State, id: Id) {
    FateFits(s', id) && PollsFit(s', id) && FateKept(s, s', id)
  }

  ghost predicate FateKept(s: State, s': State, id: Id) {
    (IsWon(s, id) ==> IsWon(s', id)) && (IsLost(s, id) ==> IsLost(s', id))
  }

  /** The mistake as a caller sees it. */
  predicate ShownAsFailed(s: State, id: Id) {
    id in s.log.published && Visible(s, id) && StatusOf(s, id).Failed?
  }

  // ------------------------------------------------------- one step

  /** Nothing that bears on the status of the export has changed. */
  lemma QuietStepOnward(s: State, s': State, id: Id)
    requires TrueOf(s, id) && s'.disk.jobs == s.disk.jobs && s'.log.published == s.log.published
    requires s'.up.Some? ==> s.up.Some? && s'.up.value.jobs == s.up.value.jobs
    requires s'.up.Some? ==> forall r :: r in s'.up.value.readers ==>
               r in s.up.value.readers && s'.up.value.readers[r].id == s.up.value.readers[r].id
    requires s'.up.Some? && s'.up.value.lock != s.up.value.lock && s.up.value.lock == Some(id) ==> !IsWon(s, id)
    ensures Onward(s, s', id)
  {
  }

  lemma ChangeOnward(s: State, j: Id, snapshot: Snapshot, ok: bool, id: Id)
    requires TrueOf(s, id) && s.up.Some? && s.up.value.lock.None? && j in s.up.value.jobs
    requires ok && j == id ==> (IsWon(s, id) ==> Won(snapshot.status)) && (IsLost(s, id) ==> Lost(snapshot.status))
    ensures Onward(s, Change(s, j, snapshot, ok), id)
  {
    assert JobFits(s, id);
  }

  lemma MoveOnward(s: State, s': State, j: Id, pc: Pc, id: Id)
    requires Onward(s, s', id) && s'.up.Some? && j in s'.up.value.workers
    ensures Onward(s, At(s', j, pc), id)
  {
  }

  lemma ReportOnward(s: State, step: Step, id: Id)
    requires TrueOf(s, id) && Enabled(s, step) && Reports(step) && CleanFor(s, step, id)
    ensures Onward(s, Next(s, step), id)
  {
    var p := s.up.value;
    var report := Report(step, p.workers[step.id], p.jobs[step.id]);
    if step.ok && step.id == id {
      ReportSides(s, step);
    }
    ChangeOnward(s, step.id, report, step.ok, id);
    MoveOnward(s, Change(s, step.id, report, step.ok), step.id, AfterReport(step), id);
  }

  lemma ReportSides(s: State, step: Step)
    requires Enabled(s, step) && Reports(step) && TrueOf(s, step.id) && !LateFailure(s, step) && step.ok
    ensures var after := Report(step, s.up.value.workers[step.id], s.up.value.jobs[step.id]).status;
            (IsWon(s, step.id) ==> Won(after)) && (IsLost(s, step.id) ==> Lost(after))
  {
    assert JobFits(s, step.id);
  }

  lemma EnterOnward(s: State, p: Process, j: Id, id: Id)
    requires TrueOf(s, id) && s.up == Some(p) && j in p.workers && j in p.jobs
    requires p.workers[j].pc.Ready? && p.lock.None?
    requires p.workers[j].temp.Some? && p.workers[j].temp.value in s.disk.temps
    ensures Onward(s, SectionEntered(s, p, j), id)
  {
    assert JobFits(s, j);
  }

  lemma WriteIntentOnward(s: State, p: Process, j: Id, ok: bool, id: Id)
    requires TrueOf(s, id) && s.up == Some(p) && j in p.workers && j in p.jobs && p.workers[j].pc.IntentSet?
    ensures Onward(s, IntentWritten(s, p, j, ok), id)
  {
    assert JobFits(s, j) && JobFits(s, id);
  }

  lemma ReplaceOnward(s: State, p: Process, j: Id, ok: bool, id: Id)
    requires TrueOf(s, id) && s.up == Some(p) && j in p.workers && j in p.jobs && p.workers[j].pc.IntentDurable?
    requires p.workers[j].temp.Some? && p.workers[j].temp.value in s.disk.temps
    ensures Onward(s, TargetReplaced(s, p, j, ok), id)
  {
    assert JobFits(s, j);
  }

  lemma MarkOnward(s: State, p: Process, j: Id, ok: bool, id: Id)
    requires TrueOf(s, id) && s.up == Some(p) && j in p.workers && j in p.jobs && p.workers[j].pc.Replaced?
    ensures Onward(s, PublicationMarked(s, p, j, ok), id)
  {
    assert JobFits(s, j) && JobFits(s, id);
  }

  lemma AcceptOnward(s: State, step: Step, id: Id)
    requires TrueOf(s, id) && Enabled(s, step) && step.Accept?
    ensures Onward(s, Next(s, step), id)
  {
    assert JobFits(s, step.id) && JobFits(s, id);
    if s.up.Some? {
      forall r | r in s.up.value.readers ensures s.up.value.readers[r].id != step.id {
        assert ReaderFits(s, r);
      }
    }
  }

  lemma ReconcileCompleteOnward(s: State, reader: nat, now: Time, ok: bool, id: Id)
    requires TrueOf(s, id) && Enabled(s, ReconcileComplete(reader, now, ok))
    ensures Onward(s, Next(s, ReconcileComplete(reader, now, ok)), id)
  {
    var p := s.up.value;
    var j := p.readers[reader].id;
    var s1 := s.(up := Some(p.(readers := p.readers - {reader})));
    QuietStepOnward(s, s1, id);
    assert Inv(s1) by {
      forall i ensures JobFits(s1, i) { assert JobFits(s, i); }
      forall r ensures ReaderFits(s1, r) { assert ReaderFits(s, r); }
      forall t ensures TempFits(s1, t) { assert TempFits(s, t); }
    }
    ChangeOnward(s1, j, Reconciled(p.jobs[j].snapshot, now), ok, id);
  }

  lemma RestartOnward(s: State, step: Step, id: Id)
    requires TrueOf(s, id) && Enabled(s, step) && step.Restart? && !BlindRestart(s, step, id)
    ensures Onward(s, Next(s, step), id)
  {
    assert JobFits(s, id);
  }

  lemma StepOnward(s: State, step: Step, id: Id)
    requires TrueOf(s, id) && Enabled(s, step) && CleanFor(s, step, id)
    ensures TrueOf(Next(s, step), id) && FateKept(s, Next(s, step), id)
  {
    StepKeeps(s, step);
    if Reports(step) {
      ReportOnward(s, step, id);
    } else if Moves(step) {
      QuietStepOnward(s, Next(s, step), id);
    } else if step.Enter? {
      EnterOnward(s, s.up.value, step.id, id);
    } else if step.WriteIntent? {
      WriteIntentOnward(s, s.up.value, step.id, step.ok, id);
    } else if step.Replace? {
      ReplaceOnward(s, s.up.value, step.id, step.ok, id);
    } else if step.Mark? {
      MarkOnward(s, s.up.value, step.id, step.ok, id);
    } else {
      UnlockedStepOnward(s, step, id);
    }
  }

  lemma UnlockedStepOnward(s: State, step: Step, id: Id)
    requires TrueOf(s, id) && Enabled(s, step) && CleanFor(s, step, id) && !Reports(step) && !Moves(step)
    requires !step.Enter? && !step.WriteIntent? && !step.Replace? && !step.Mark?
    ensures Onward(s, Next(s, step), id)
  {
    if step.Accept? {
      AcceptOnward(s, step, id);
    } else if step.ReconcileRead? {
    } else if step.ReconcileComplete? {
      ReconcileCompleteOnward(s, step.reader, step.now, step.ok, id);
    } else if step.Restart? {
      RestartOnward(s, step, id);
    } else {
      QuietStepOnward(s, Next(s, step), id);
    }
  }

  // ------------------------------------------------------- exactly when the truth is told

  /**
   After a step an export is still told the truth about if and only if the step is none of the two mistakes about it,
   whatever happens to every other export; else it is shown as failed although it has published.
   */
  lemma TruthExactlyWhenClean(s: State, step: Step, id: Id)
    requires TrueOf(s, id) && Enabled(s, step)
    ensures TrueOf(Next(s, step), id) <==> CleanFor(s, step, id)
    ensures ShownAsFailed(Next(s, step), id) <==> !CleanFor(s, step, id)
  {
    if CleanFor(s, step, id) {
      StepOnward(s, step, id);
    } else {
      assert JobFits(s, id);
    }
  }

  ghost predicate CleanRunFor(s: State, steps: seq<Step>, id: Id)
    decreases |steps|
  {
    |steps| > 0 ==> CleanFor(s, steps[0], id) && CleanRunFor(Do(s, steps[0]), steps[1..], id)
  }

  ghost predicate TrueThroughout(s: State, steps: seq<Step>, id: Id) {
    forall k :: 0 <= k <= |steps| ==> TrueOf(Run(s, steps[..k]), id)
  }

  ghost predicate NeverShownAsFailed(s: State, steps: seq<Step>, id: Id) {
    forall k :: 0 <= k <= |steps| ==> !ShownAsFailed(Run(s, steps[..k]), id)
  }

  /** The run after a first step, prefix by prefix. */
  lemma PrefixAfter(s: State, steps: seq<Step>, k: nat)
    requires k < |steps|
    ensures Run(s, steps[..k + 1]) == Run(Do(s, steps[0]), steps[1..][..k])
  {
    assert steps[..k + 1][1..] == steps[1..][..k];
  }

  /** What holds of every prefix of a run holds at its start and of every prefix of the rest. */
  lemma ThroughoutSplits(s: State, steps: seq<Step>, id: Id)
    requires |steps| > 0
    ensures TrueThroughout(s, steps, id) <==> TrueOf(s, id) && TrueThroughout(Do(s, steps[0]), steps[1..], id)
    ensures NeverShownAsFailed(s, steps, id) <==>
            !ShownAsFailed(s, id) && NeverShownAsFailed(Do(s, steps[0]), steps[1..], id)
  {
    assert Run(s, steps[..0]) == s;
    forall k | 0 <= k < |steps| ensures Run(s, steps[..k + 1]) == Run(Do(s, steps[0]), steps[1..][..k]) {
      PrefixAfter(s, steps, k);
    }
    forall k | 0 < k <= |steps| ensures Run(s, steps[..k]) == Run(Do(s, steps[0]), steps[1..][..k - 1]) {
      PrefixAfter(s, steps, k - 1);
    }
  }

  /**
   Over whole runs: an export is told the truth about at every moment if and only if none of the two mistakes is made
   about it, and that is if and only if it is at no moment shown as failed although it has published.
   */
  lemma {:induction false} TrueThroughoutExactlyWhenClean(s: State, steps: seq<Step>, id: Id)
    requires TrueOf(s, id)
    ensures TrueThroughout(s, steps, id) <==> CleanRunFor(s, steps, id)
    ensures NeverShownAsFailed(s, steps, id) <==> CleanRunFor(s, steps, id)
    decreases |steps|
  {
    if |steps| == 0 {
    } else {
      var s' := Do(s, steps[0]);
      ThroughoutSplits(s, steps, id);
      if Enabled(s, steps[0]) {
        TruthExactlyWhenClean(s, steps[0], id);
      }
      if CleanFor(s, steps[0], id) {
        TrueThroughoutExactlyWhenClean(s', steps[1..], id);
      } else {
        assert steps[1..][..0] == [];
        assert Run(s', steps[1..][..0]) == s';
      }
    }
  }

  lemma {:induction false} CleanRunOnward(s: State, steps: seq<Step>, id: Id)
    requires TrueOf(s, id) && CleanRunFor(s, steps, id)
    ensures TrueOf(Run(s, steps), id) && FateKept(s, Run(s, steps), id)
    decreases |steps|
  {
    if |steps| == 0 {
    } else {
      if Enabled(s, steps[0]) {
        StepOnward(s, steps[0], id);
      }
      CleanRunOnward(Do(s, steps[0]), steps[1..], id);
    }
  }

  /**
   Over every interleaving, failing write, crash and restart in which no mistake is made about this export: once seen
   as publishing or completed it is never again seen as anything else, and so for cancelled or failed; once published
   it is seen as won. What befalls the other exports does not matter.
   */
  lemma RegionsAreClosed(s: State, steps: seq<Step>, id: Id)
    requires TrueOf(s, id) && CleanRunFor(s, steps, id) && Visible(Run(s, steps), id)
    ensures Visible(s, id) && Won(StatusOf(s, id)) ==> Won(StatusOf(Run(s, steps), id))
    ensures Visible(s, id) && Lost(StatusOf(s, id)) ==> Lost(StatusOf(Run(s, steps), id))
    ensures id in s.log.published || id in Run(s, steps).log.published ==> Won(StatusOf(Run(s, steps), id))
  {
    CleanRunOnward(s, steps, id);
  }

  lemma InitTrue(id: Id)
    ensures TrueOf(INITIAL, id)
  {
    InitFits();
  }

  /** So it is from the empty runtime on: what holds after any part of such a run holds after the whole of it. */
  lemma RegionsAreClosedFromTheStart(before: seq<Step>, steps: seq<Step>, id: Id)
    requires CleanRunFor(INITIAL, before, id) && CleanRunFor(Run(INITIAL, before), steps, id)
    requires Visible(Run(Run(INITIAL, before), steps), id)
    ensures var s, s' := Run(INITIAL, before), Run(Run(INITIAL, before), steps);
            && (Visible(s, id) && Won(StatusOf(s, id)) ==> Won(StatusOf(s', id)))
            && (Visible(s, id) && Lost(StatusOf(s, id)) ==> Lost(StatusOf(s', id)))
            && (id in s'.log.published ==> Won(StatusOf(s', id)))
  {
    InitTrue(id);
    CleanRunOnward(INITIAL, before, id);
    RegionsAreClosed(Run(INITIAL, before), steps, id);
  }

  // ------------------------------------------------------- a run without late failures

  /** Every reconciler that completes an export finds its worker gone. */
  ghost predicate CalmRun(s: State, steps: seq<Step>)
    decreases |steps|
  {
    |steps| > 0 ==>
      (steps[0].ReconcileComplete? && Enabled(s, steps[0]) ==>
         s.up.value.readers[steps[0].reader].id !in s.up.value.workers)
      && CalmRun(Do(s, steps[0]), steps[1..])
  }

  ghost predicate NotCompletedBehind(s: State, id: Id) {
    s.up.Some? && id in s.up.value.workers && id in s.up.value.jobs ==>
      s.up.value.jobs[id].snapshot.status.Completed? ==> s.up.value.workers[id].pc.Finishing?
  }

  ghost predicate Undisturbed(s: State) { forall id :: NotCompletedBehind(s, id) }

  lemma MoveUndisturbed(s: State, step: Step, id: Id)
    requires Undisturbed(s) && Enabled(s, step) && Moves(step)
    ensures NotCompletedBehind(Next(s, step), id)
  {
    assert NotCompletedBehind(s, id);
  }

  lemma ReportUndisturbed(s: State, step: Step, id: Id)
    requires Undisturbed(s) && Enabled(s, step) && Reports(step)
    ensures NotCompletedBehind(Next(s, step), id)
  {
    assert NotCompletedBehind(s, id);
  }

  lemma FileStepUndisturbed(s: State, step: Step, id: Id)
    requires Inv(s) && Undisturbed(s) && Enabled(s, step) && WorkerStep(step) && !Moves(step) && !Reports(step)
    ensures NotCompletedBehind(Next(s, step), id)
  {
    assert NotCompletedBehind(s, id);
  }

  lemma OtherStepUndisturbed(s: State, step: Step, id: Id)
    requires Inv(s) && Undisturbed(s) && Enabled(s, step) && !WorkerStep(step)
    requires step.ReconcileComplete? ==> s.up.value.readers[step.reader].id !in s.up.value.workers
    ensures NotCompletedBehind(Next(s, step), id)
  {
    assert NotCompletedBehind(s, id) && JobFits(s, id);
  }

  /** If no reconciler completes an export behind its worker's back, no failure comes late. */
  lemma {:induction false} CalmRunsHaveNoLateFailure(s: State, steps: seq<Step>, k: nat)
    requires Inv(s) && Undisturbed(s) && CalmRun(s, steps) && k < |steps|
    ensures !LateFailure(Run(s, steps[..k]), steps[k])
    decreases k
  {
    assert NotCompletedBehind(s, if steps[0].ReportFailed? then steps[0].id else "");
    if k > 0 {
      var s' := Do(s, steps[0]);
      if Enabled(s, steps[0]) {
        StepKeeps(s, steps[0]);
        forall id ensures NotCompletedBehind(s', id) {
          if Moves(steps[0]) {
            MoveUndisturbed(s, steps[0], id);
          } else if Reports(steps[0]) {
            ReportUndisturbed(s, steps[0], id);
          } else if WorkerStep(steps[0]) {
            FileStepUndisturbed(s, steps[0], id);
          } else {
            OtherStepUndisturbed(s, steps[0], id);
          }
        }
      }
      CalmRunsHaveNoLateFailure(s', steps[1..], k - 1);
      assert steps[..k][1..] == steps[1..][..k - 1];
    }
  }

  // ------------------------------------------------------- cancellation against publication

  ghost predicate Remembers(s: State, s': State) {
    s.log.promised <= s'.log.promised
    && forall id :: id in s.log.published ==> id in s'.log.published && s'.log.published[id] == s.log.published[id]
  }

  lemma WorkerRemembers(s: State, step: Step)
    requires Inv(s) && Enabled(s, step) && WorkerStep(step)
    ensures Remembers(s, Next(s, step))
  {
    if Reports(step) || Moves(step) {
    } else {
      assert JobFits(s, step.id);
    }
  }

  lemma StepRemembers(s: State, step: Step)
    requires Inv(s) && Enabled(s, step)
    ensures Remembers(s, Next(s, step))
  {
    if WorkerStep(step) {
      WorkerRemembers(s, step);
    } else if step.Restart? {
    } else {
    }
  }

  lemma {:induction false} RunRemembers(s: State, steps: seq<Step>)
    requires Inv(s)
    ensures s.log.promised <= Run(s, steps).log.promised
    ensures forall id :: id in s.log.published ==>
              id in Run(s, steps).log.published && Run(s, steps).log.published[id] == s.log.published[id]
    decreases |steps|
  {
    if |steps| > 0 {
      if Enabled(s, steps[0]) {
        StepRemembers(s, steps[0]);
        StepKeeps(s, steps[0]);
      }
      RunRemembers(Do(s, steps[0]), steps[1..]);
    }
  }

  /** When `cancel` answers pending or running, that export has not published and never will. */
  lemma CancelIsFinal(s: State, id: Id, steps: seq<Step>)
    requires Inv(s) && Enabled(s, Cancel(id)) && Open(s.up.value.jobs[id].snapshot.status)
    ensures id !in Run(Next(s, Cancel(id)), steps).log.published
  {
    StepKeeps(s, Cancel(id));
    RunRemembers(Next(s, Cancel(id)), steps);
    RunKeeps(Next(s, Cancel(id)), steps);
    assert JobFits(Run(Next(s, Cancel(id)), steps), id);
  }

  /** An export reported as cancelled never published, whatever else went wrong. */
  lemma CancelledNeverPublished(s: State, id: Id)
    requires Inv(s) && s.up.Some? && id in s.up.value.jobs
    requires s.up.value.jobs[id].snapshot.status.Cancelled?
    ensures id !in s.log.published
  {
    assert JobFits(s, id);
  }

  // ------------------------------------------------------- the bytes of the targets

  ghost predicate SameFile(s: State, s': State, path: Path) {
    (path in s.disk.files <==> path in s'.disk.files)
    && (path in s.disk.files ==> s'.disk.files[path] == s.disk.files[path])
  }

  lemma WorkersLeaveFiles(s: State, step: Step)
    requires Enabled(s, step) && WorkerStep(step) && !step.Replace?
    ensures Next(s, step).disk.files == s.disk.files
  {
    if Reports(step) || Moves(step) {
    } else {
    }
  }

  lemma OthersLeaveFiles(s: State, step: Step)
    requires Enabled(s, step) && !WorkerStep(step)
    ensures Next(s, step).disk.files == s.disk.files
  {
    if step.Restart? {
    } else {
    }
  }

  /** Only the replace writes a target, it writes one, and it writes down that it did. */
  lemma StepWritesWhatItPublishes(s: State, step: Step, path: Path)
    requires Inv(s) && Enabled(s, step)
    ensures SameFile(s, Next(s, step), path)
            || exists id :: id !in s.log.published && id in Next(s, step).log.published
                            && Next(s, step).log.published[id] == path
  {
    if step.Replace? {
      ReplaceWrites(s, s.up.value, step.id, step.ok, path);
    } else if WorkerStep(step) {
      WorkersLeaveFiles(s, step);
    } else {
      OthersLeaveFiles(s, step);
    }
  }

  lemma ReplaceWrites(s: State, p: Process, id: Id, ok: bool, path: Path)
    requires Inv(s) && s.up == Some(p) && id in p.workers && id in p.jobs && p.workers[id].pc.IntentDurable?
    requires p.workers[id].temp.Some? && p.workers[id].temp.value in s.disk.temps
    ensures var s' := TargetReplaced(s, p, id, ok);
            SameFile(s, s', path)
            || (id !in s.log.published && id in s'.log.published && s'.log.published[id] == path)
  {
    assert JobFits(s, id);
  }

  /** A target at which no export published since is, byte for byte, what it was. */
  lemma {:induction false} TargetUntouched(s: State, steps: seq<Step>, path: Path)
    requires Inv(s)
    requires forall id :: id in Run(s, steps).log.published && id !in s.log.published ==>
               Run(s, steps).log.published[id] != path
    ensures SameFile(s, Run(s, steps), path)
    decreases |steps|
  {
    if |steps| > 0 {
      var s' := Do(s, steps[0]);
      if Enabled(s, steps[0]) {
        StepKeeps(s, steps[0]);
        StepRemembers(s, steps[0]);
        StepWritesWhatItPublishes(s, steps[0], path);
      }
      RunRemembers(s', steps[1..]);
      TargetUntouched(s', steps[1..], path);
    }
  }

  /**
   If every export that aimed at a path since ended cancelled or failed, the path holds what it held: only about these
   exports must no mistake have been made.
   */
  lemma LostExportsLeaveTargets(s: State, steps: seq<Step>, path: Path)
    requires Inv(s)
    requires forall id :: id in Run(s, steps).disk.jobs && id !in s.log.published ==>
               Run(s, steps).disk.jobs[id].target == path ==>
                 IsLost(Run(s, steps), id) && TrueOf(s, id) && CleanRunFor(s, steps, id)
    ensures SameFile(s, Run(s, steps), path)
  {
    RunKeeps(s, steps);
    var end := Run(s, steps);
    forall id | id in end.log.published && id !in s.log.published
      ensures end.log.published[id] != path
    {
      assert JobFits(end, id);
      if end.log.published[id] == path {
        CleanRunOnward(s, steps, id);
      }
    }
    TargetUntouched(s, steps, path);
  }

  // ------------------------------------------------------- temporary files

  predicate CrashFree(steps: seq<Step>) { forall k :: 0 <= k < |steps| ==> !steps[k].Crash? }

  lemma StepOrphansNothing(s: State, step: Step)
    requires Enabled(s, step) && !step.Crash?
    ensures Next(s, step).log.orphans == s.log.orphans
  {
    if Reports(step) || Moves(step) {
    } else if WorkerStep(step) {
    } else {
    }
  }

  lemma {:induction false} RunOrphansNothing(s: State, steps: seq<Step>)
    requires CrashFree(steps)
    ensures Run(s, steps).log.orphans == s.log.orphans
    decreases |steps|
  {
    if |steps| > 0 {
      if Enabled(s, steps[0]) {
        StepOrphansNothing(s, steps[0]);
      }
      RunOrphansNothing(Do(s, steps[0]), steps[1..]);
    }
  }

  /** Without a crash every temporary file has a worker that will still publish or remove it. */
  lemma NoTempLeaks(steps: seq<Step>, temp: Temp)
    requires CrashFree(steps) && temp in Run(INITIAL, steps).disk.temps
    ensures var s := Run(INITIAL, steps);
            s.up.Some? && exists id :: id in s.up.value.workers && Owns(s.up.value.workers[id], temp)
  {
    InitFits();
    RunKeeps(INITIAL, steps);
    RunOrphansNothing(INITIAL, steps);
    assert TempFits(Run(INITIAL, steps), temp);
  }

  /** The restart removes the staging file of every export it fails, once the intent had been stored. */
  lemma RestartRemovesStaging(s: State, now: Time, unreadable: set<Path>, ok: bool, id: Id)
    requires Inv(s) && Enabled(s, Restart(now, unreadable, ok))
    requires id in s.disk.jobs && s.disk.jobs[id].intent.Some?
    requires Recovered(s.disk.jobs[id], s.disk.files, unreadable, now).snapshot.status.Failed?
    requires Open(s.disk.jobs[id].snapshot.status)
    ensures s.disk.jobs[id].intent.value.staging !in Next(s, Restart(now, unreadable, ok)).disk.temps
  {
    assert JobFits(s, id);
    assert Discards(s.disk.jobs[id], s.disk.files, unreadable, s.disk.jobs[id].intent.value.staging);
  }

  /** The restart fails this export, whose stored intent names the temporary file as its staging file. */
  ghost predicate FailedOver(s: State, now: Time, unreadable: set<Path>, id: Id, temp: Temp) {
    id in s.disk.jobs && Open(s.disk.jobs[id].snapshot.status)
    && Recovered(s.disk.jobs[id], s.disk.files, unreadable, now).snapshot.status.Failed?
    && s.disk.jobs[id].intent.Some? && s.disk.jobs[id].intent.value.staging == temp
  }

  /**
   A temporary file outlives a restart, with its content, exactly when no export that the restart fails has stored it in
   an intent.
   */
  lemma TempSurvivesRestartExactlyWhen(s: State, now: Time, unreadable: set<Path>, ok: bool, temp: Temp)
    requires Inv(s) && Enabled(s, Restart(now, unreadable, ok)) && temp in s.disk.temps
    ensures var temps := Next(s, Restart(now, unreadable, ok)).disk.temps;
            && (temp in temps <==> !exists id :: FailedOver(s, now, unreadable, id, temp))
            && (temp in temps ==> temps[temp] == s.disk.temps[temp])
  {
    forall id
      ensures FailedOver(s, now, unreadable, id, temp) <==>
              id in s.disk.jobs && Discards(s.disk.jobs[id], s.disk.files, unreadable, temp)
    {
      assert JobFits(s, id);
    }
  }

  /**
   A restart shows an open export as publishing exactly when its target can be read and holds the intended bytes,
   anyone's, and as failed otherwise; a settled export stays as it was stored.
   */
  lemma RestartTrustsTheBytes(s: State, now: Time, unreadable: set<Path>, id: Id)
    requires Enabled(s, Restart(now, unreadable, true)) && id in s.disk.jobs
    ensures var s', job := Next(s, Restart(now, unreadable, true)), s.disk.jobs[id];
            && Visible(s', id) && s'.disk.jobs == s'.up.value.jobs && s'.up.value.jobs.Keys == s.disk.jobs.Keys
            && s'.up.value.workers == map[] && s'.disk.files == s.disk.files
            && (!Open(job.snapshot.status) ==> s'.up.value.jobs[id] == job)
            && (Open(job.snapshot.status) ==>
                  s'.up.value.jobs[id].snapshot ==
                  if job.intent.Some? && job.intent.value.path !in unreadable
                     && job.intent.value.path in s.disk.files
                     && Sha256(s.disk.files[job.intent.value.path]) == job.intent.value.sha
                  then job.snapshot.(status := Publishing, currentPage := None,
                                     output := Some(Output(job.intent.value.path, job.intent.value.sha)))
                  else job.snapshot.(status := Failed, completedAt := Some(now), error := Some("EXPORT_WRITE_FAILED")))
  {
  }
}
