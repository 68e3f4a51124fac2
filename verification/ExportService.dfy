/** The exporter proper: one request, one temporary file, at most one replaced target. */
module ExportService {
  import opened Options
  import opened Decimal
  import opened ExportModel

  datatype OverwritePolicy = Overwrite | Skip | AutoRename

  /** A target path in the parts the renaming needs. */
  datatype Target = Target(stem: string, suffix: string)

  function Whole(target: Target): Path { target.stem + target.suffix }

  function Candidate(target: Target, n: nat): Path { target.stem + " (" + Numeral(n) + (")" + target.suffix) }

  datatype Resolved = At(path: Path) | Skipped(path: Path) | NoSlot

  const LAST_SLOT := 9_999

  datatype Result =
    | Completed(path: Path, sha: Digest) | SkippedExisting(path: Path) | Cancelled | Failed | Refused

  /** What can go wrong up to the replace, call by call: a cancellation is seen, or the call raises. */
  datatype Trouble = Fine | CalledOff | CannotEnter | CannotOpen | CancelSeen | CannotWrite | CannotReplace

  datatype Answer = Done | Stopped | Raised

  predicate AllTaken(target: Target, existing: set<Path>) {
    forall k :: 1 <= k <= LAST_SLOT ==> Candidate(target, k) in existing
  }

  lemma AllSlotsTaken(target: Target, existing: set<Path>)
    requires AllTaken(target, existing)
    ensures |existing| >= LAST_SLOT
  {
    var stem, suffix := target.stem + " (", ")" + target.suffix;
    forall k: nat | 1 <= k < 1 + LAST_SLOT ensures stem + Numeral(k) + suffix in existing {
      assert Candidate(target, k) in existing;
    }
    NumberedNamesCount(stem, suffix, 1, LAST_SLOT, existing);
  }

  /** The first free numbered sibling; there is none only when all slots are taken. */
  method NextFreeName(target: Target, existing: set<Path>) returns (name: Option<Path>)
    ensures name.Some? ==>
              name.value !in existing
              && exists n :: 1 <= n <= 9_999 && Candidate(target, n) == name.value
                             && name.value == target.stem + " (" + Numeral(n) + (")" + target.suffix)
                             && forall k :: 1 <= k < n ==> Candidate(target, k) in existing
    ensures name.None? <==> AllTaken(target, existing)
    ensures |existing| < LAST_SLOT ==> name.Some?
  {
    var counter := 1;
    while counter <= LAST_SLOT
      invariant 1 <= counter <= LAST_SLOT + 1
      invariant forall k :: 1 <= k < counter ==> Candidate(target, k) in existing
    {
      if Candidate(target, counter) !in existing {
        return Some(Candidate(target, counter));
      }
      counter := counter + 1;
    }
    if |existing| < LAST_SLOT {
      AllSlotsTaken(target, existing);
    }
    return None;
  }

  method ResolveTarget(target: Target, policy: OverwritePolicy, existing: set<Path>) returns (r: Resolved)
    ensures Whole(target) !in existing || policy.Overwrite? ==> r == At(Whole(target))
    ensures r.Skipped? <==> Whole(target) in existing && policy.Skip?
    ensures r.Skipped? ==> r.path == Whole(target)
    ensures policy.AutoRename? && r.At? ==> r.path !in existing
    ensures !policy.AutoRename? && r.At? ==> r.path == Whole(target)
    ensures r.NoSlot? <==> policy.AutoRename? && Whole(target) in existing && AllTaken(target, existing)
    ensures r.NoSlot? ==> |existing| >= LAST_SLOT
  {
    if Whole(target) !in existing {
      return At(Whole(target));
    }
    if policy.Skip? {
      return Skipped(Whole(target));
    }
    if policy.AutoRename? {
      var name := NextFreeName(target, existing);
      return if name.Some? then At(name.value) else NoSlot;
    }
    return At(Whole(target));
  }

  /** The calls of one request, each of which may do its work or meet a trouble. */
  class Exporter {
    var files: map<Path, Content>
    var temps: map<Temp, Content>
    var history: seq<Result>
    /** The first trouble of the current request, and whether the directory guard complained on being left. */
    ghost var trouble: Trouble
    ghost var complaint: bool
    /** Rows that the history store did not take. */
    ghost var lost: seq<Result>

    constructor ()
      ensures files == map[] && temps == map[] && history == [] && lost == []
    {
      files, temps, history, lost := map[], map[], [], [];
    }

    /** The request's own answer to whether it is cancelled. */
    method IsCancelled(ghost seen: Trouble) returns (cancelled: bool)
      modifies this`trouble
      ensures trouble == if cancelled then seen else old(trouble)
    {
      cancelled := *;
      if cancelled { trouble := seen; }
    }

    method EnterGuard() returns (ok: bool)
      modifies this`trouble
      ensures trouble == if ok then old(trouble) else CannotEnter
    {
      ok := *;
      if !ok { trouble := CannotEnter; }
    }

    method LeaveGuard() returns (ok: bool)
      modifies this`complaint
      ensures complaint == !ok
    {
      ok := *;
      complaint := !ok;
    }

    method NewTemp(temp: Temp) returns (ok: bool)
      requires temp !in temps
      modifies this`temps, this`trouble
      ensures ok ==> temps == old(temps)[temp := []] && trouble == old(trouble)
      ensures !ok ==> temps == old(temps) && trouble == CannotOpen
    {
      ok := *;
      if ok { temps := temps[temp := []]; } else { trouble := CannotOpen; }
    }

    /** Writing may stop at a cancellation or raise, with any part of the content written. */
    method Write(temp: Temp, bytes: Content) returns (answer: Answer)
      requires temp in temps
      modifies this`temps, this`trouble
      ensures temp in temps && temps - {temp} == old(temps) - {temp}
      ensures answer.Done? ==> temps[temp] == bytes && trouble == old(trouble)
      ensures answer.Stopped? ==> trouble == CancelSeen
      ensures answer.Raised? ==> trouble == CannotWrite
    {
      answer := *;
      if answer.Done? {
        temps := temps[temp := bytes];
      } else {
        var part: Content := *;
        temps := temps[temp := part];
        trouble := if answer.Stopped? then CancelSeen else CannotWrite;
      }
    }

    /** The replace, or the publication section of the runtime, which may still see a cancellation. */
    method Replace(temp: Temp, path: Path) returns (answer: Answer)
      requires temp in temps
      modifies this`files, this`temps, this`trouble
      ensures answer.Done? ==>
                files == old(files)[path := old(temps)[temp]] && temps == old(temps) - {temp} && trouble == old(trouble)
      ensures !answer.Done? ==> files == old(files) && temps == old(temps)
      ensures answer.Stopped? ==> trouble == CancelSeen
      ensures answer.Raised? ==> trouble == CannotReplace
    {
      answer := *;
      if answer.Done? {
        files := files[path := temps[temp]];
        temps := temps - {temp};
      } else {
        trouble := if answer.Stopped? then CancelSeen else CannotReplace;
      }
    }

    /** A row of history is appended or, when the store raises, silently lost. */
    method Record(row: Result)
      modifies this`history, this`lost
      ensures (history == old(history) + [row] && lost == old(lost))
              || (history == old(history) && lost == old(lost) + [row])
    {
      var ok: bool := *;
      if ok { history := history + [row]; } else { lost := lost + [row]; }
    }

    /** From the temporary file to its target, up to the first trouble; `left` says whether the file is still there. */
    method Attempt(temp: Temp, path: Path, bytes: Content) returns (answer: Answer, left: bool)
      requires temp !in temps && trouble.Fine?
      modifies this`files, this`temps, this`trouble
      ensures left <==> temp in temps
      ensures temps - {temp} == old(temps)
      ensures answer.Done? <==> trouble.Fine?
      ensures answer.Stopped? <==> trouble.CancelSeen?
      ensures answer.Raised? <==> trouble.CannotOpen? || trouble.CannotWrite? || trouble.CannotReplace?
      ensures files == if answer.Done? then old(files)[path := bytes] else old(files)
    {
      var ok := NewTemp(temp);
      if !ok {
        return Raised, false;
      }
      answer := Write(temp, bytes);
      if !answer.Done? {
        return answer, true;
      }
      var cancelled := IsCancelled(CancelSeen);
      if cancelled {
        return Stopped, true;
      }
      answer := Replace(temp, path);
      left := !answer.Done?;
    }

    /**
     The writing and publishing part. Nothing went wrong: completed. A cancellation alone was seen: cancelled. Anything
     else: failed, and then the target is replaced exactly when only the leaving of the directory guard went wrong.
     */
    method Publish(path: Path, bytes: Content, nonce: nat) returns (result: Result)
      requires trouble.Fine? && !complaint && forall t :: t in temps ==> t.nonce != nonce
      modifies this`files, this`temps, this`trouble, this`complaint
      ensures temps == old(temps)
      ensures result.Completed? || result.Cancelled? || result.Failed?
      ensures result.Completed? <==> trouble.Fine? && !complaint
      ensures result.Completed? ==> result == Result.Completed(path, Sha256(bytes))
      ensures result.Cancelled? <==> trouble.CancelSeen? && !complaint
      ensures !trouble.CalledOff?
      ensures files == if trouble.Fine? then old(files)[path := bytes] else old(files)
    {
      var temp := Temp(path, nonce);
      var ok := EnterGuard();
      if !ok {
        return Result.Failed;
      }
      var answer, left := Attempt(temp, path, bytes);
      ok := LeaveGuard();
      if left {
        temps := temps - {temp};
      }
      result :=
        if !ok || answer.Raised? then Result.Failed
        else if answer.Stopped? then Result.Cancelled
        else Result.Completed(path, Sha256(bytes));
    }

    /** One request; `acceptable` says whether it passes validation and its stale policy. */
    method Export(target: Target, policy: OverwritePolicy, bytes: Content, nonce: nat, acceptable: bool)
      returns (result: Result)
      requires forall t :: t in temps ==> t.nonce != nonce
      modifies this
      ensures temps == old(temps)
      // refused before anything was begun
      ensures result.Refused? <==>
                !acceptable || trouble.CalledOff?
                || (policy.AutoRename? && Whole(target) in old(files) && AllTaken(target, old(files).Keys))
      ensures result.SkippedExisting? <==> !result.Refused? && policy.Skip? && Whole(target) in old(files)
      // completed, cancelled or failed
      ensures result.Completed? || result.SkippedExisting? ==> trouble.Fine? && !complaint
      ensures result.Completed? ==>
                result.sha == Sha256(bytes)
                && (!policy.AutoRename? ==> result.path == Whole(target))
                && (!policy.Overwrite? ==> result.path !in old(files))
      ensures result.Cancelled? <==> trouble.CancelSeen? && !complaint
      ensures result.Failed? ==> complaint || (!trouble.Fine? && !trouble.CancelSeen? && !trouble.CalledOff?)
      // files change in one place or not at all
      ensures result.Completed? ==> files == old(files)[result.path := bytes]
      ensures result.Failed? && trouble.Fine? ==>
                exists path :: (policy.Overwrite? || path !in old(files)) && files == old(files)[path := bytes]
      ensures !result.Completed? && !(result.Failed? && trouble.Fine?) ==> files == old(files)
      // what was begun leaves one row, if the store takes it
      ensures result.Refused? ==> history == old(history) && lost == old(lost)
      ensures !result.Refused? ==>
                (history == old(history) + [result] && lost == old(lost))
                || (history == old(history) && lost == old(lost) + [result])
    {
      trouble, complaint := Fine, false;
      if !acceptable {
        return Refused;
      }
      var calledOff := IsCancelled(CalledOff);
      if calledOff {
        return Refused;
      }
      var resolved := ResolveTarget(target, policy, files.Keys);
      if resolved.NoSlot? {
        return Refused;
      }
      if resolved.Skipped? {
        result := SkippedExisting(resolved.path);
        Record(result);
        return;
      }
      result := Publish(resolved.path, bytes, nonce);
      assert result.Failed? && trouble.Fine? ==>
               (policy.Overwrite? || resolved.path !in old(files)) && files == old(files)[resolved.path := bytes];
      Record(result);
    }
  }
}
