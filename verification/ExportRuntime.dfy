/** The runtime object: a job list under a lock, persisted whole by every write. */
module ExportRuntime {
  import opened Options
  import opened ExportModel

  // ------------------------------------------------------- the job list as a table

  predicate UniqueIds(jobs: seq<Job>) {
    forall i, j :: 0 <= i < j < |jobs| ==> jobs[i].id != jobs[j].id
  }

  /** The job list seen by export id. */
  function Table(jobs: seq<Job>): Jobs {
    if |jobs| == 0 then map[]
    else Table(jobs[..|jobs| - 1])[jobs[|jobs| - 1].id := jobs[|jobs| - 1]]
  }

  lemma {:induction false} TableHas(jobs: seq<Job>)
    requires UniqueIds(jobs)
    ensures forall i :: 0 <= i < |jobs| ==> jobs[i].id in Table(jobs) && Table(jobs)[jobs[i].id] == jobs[i]
    ensures forall id :: id in Table(jobs) ==> exists i :: 0 <= i < |jobs| && jobs[i].id == id
  {
    if |jobs| > 0 {
      var init := jobs[..|jobs| - 1];
      TableHas(init);
      forall id | id in Table(jobs) ensures exists i :: 0 <= i < |jobs| && jobs[i].id == id {
        if id in Table(init) {
          var i :| 0 <= i < |init| && init[i].id == id;
          assert jobs[i].id == id;
        } else {
          assert jobs[|jobs| - 1].id == id;
        }
      }
      forall i | 0 <= i < |jobs| ensures jobs[i].id in Table(jobs) && Table(jobs)[jobs[i].id] == jobs[i] {
        if i < |init| {
          assert init[i] == jobs[i] && jobs[i].id != jobs[|jobs| - 1].id;
        }
      }
    }
  }

  /** A table is known by its rows. */
  lemma TableIs(jobs: seq<Job>, table: Jobs)
    requires UniqueIds(jobs)
    requires forall i :: 0 <= i < |jobs| ==> jobs[i].id in table && table[jobs[i].id] == jobs[i]
    requires forall id :: id in table ==> exists i :: 0 <= i < |jobs| && jobs[i].id == id
    ensures Table(jobs) == table
  {
    TableHas(jobs);
  }

  /** The same ids in the same places, with other contents. */
  lemma TableRewritten(before: seq<Job>, after: seq<Job>, table: Jobs)
    requires UniqueIds(before) && |after| == |before| && table.Keys == Table(before).Keys
    requires forall k :: 0 <= k < |before| ==> after[k].id == before[k].id
    requires forall k :: 0 <= k < |before| ==> after[k].id in table && table[after[k].id] == after[k]
    ensures UniqueIds(after) && Table(after) == table
  {
    TableHas(before);
    forall id | id in table ensures exists k :: 0 <= k < |after| && after[k].id == id {
      assert id in Table(before);
      var k :| 0 <= k < |before| && before[k].id == id;
      assert after[k].id == id;
    }
    TableIs(after, table);
  }

  lemma TableUpdate(jobs: seq<Job>, i: nat, job: Job)
    requires UniqueIds(jobs) && i < |jobs| && job.id == jobs[i].id
    ensures UniqueIds(jobs[i := job]) && Table(jobs[i := job]) == Table(jobs)[job.id := job]
  {
    TableHas(jobs);
    TableRewritten(jobs, jobs[i := job], Table(jobs)[job.id := job]);
  }

  lemma RecoveredKeepsId(job: Job, files: map<Path, Content>, unreadable: set<Path>, now: Time)
    ensures Recovered(job, files, unreadable, now).id == job.id
  {
  }

  lemma TableRecovered(
    before: seq<Job>, after: seq<Job>, files: map<Path, Content>, unreadable: set<Path>, now: Time)
    requires UniqueIds(before) && |after| == |before|
    requires forall k :: 0 <= k < |before| ==> after[k] == Recovered(before[k], files, unreadable, now)
    ensures UniqueIds(after) && Table(after) == RecoveredAll(Table(before), files, unreadable, now)
  {
    TableHas(before);
    var all := RecoveredAll(Table(before), files, unreadable, now);
    forall k | 0 <= k < |before|
      ensures after[k].id == before[k].id && after[k].id in all && all[after[k].id] == after[k]
    {
      RecoveredKeepsId(before[k], files, unreadable, now);
    }
    TableRewritten(before, after, all);
  }

  /** What the recovery loop has left of the temporary files after `n` jobs. */
  ghost predicate KeptAfter(
    jobs: seq<Job>, n: nat, files: map<Path, Content>, unreadable: set<Path>,
    temps: map<Temp, Content>, kept: map<Temp, Content>)
    requires n <= |jobs|
  {
    forall t :: (t in kept <==> t in temps && !DiscardedAmong(jobs[..n], files, unreadable, t))
                && (t in kept ==> kept[t] == temps[t])
  }

  ghost predicate DiscardedAmong(jobs: seq<Job>, files: map<Path, Content>, unreadable: set<Path>, t: Temp) {
    exists job :: job in jobs && Discards(job, files, unreadable, t)
  }

  lemma DiscardedByTable(jobs: seq<Job>, files: map<Path, Content>, unreadable: set<Path>, t: Temp)
    requires UniqueIds(jobs)
    ensures DiscardedAmong(jobs, files, unreadable, t) <==> DiscardedBySome(Table(jobs), files, unreadable, t)
  {
    TableHas(jobs);
    if job :| job in jobs && Discards(job, files, unreadable, t) {
      assert job.id in Table(jobs) && Table(jobs)[job.id] == job;
    }
    if id :| id in Table(jobs) && Discards(Table(jobs)[id], files, unreadable, t) {
      var k :| 0 <= k < |jobs| && jobs[k].id == id;
      assert jobs[k] in jobs;
    }
  }

  lemma KeptByTable(
    jobs: seq<Job>, files: map<Path, Content>, unreadable: set<Path>,
    temps: map<Temp, Content>, kept: map<Temp, Content>)
    requires UniqueIds(jobs) && KeptAfter(jobs, |jobs|, files, unreadable, temps, kept)
    ensures kept == KeptTemps(Table(jobs), files, unreadable, temps)
  {
    assert jobs[..|jobs|] == jobs;
    var expected := KeptTemps(Table(jobs), files, unreadable, temps);
    forall t ensures (t in kept <==> t in expected) && (t in kept ==> kept[t] == expected[t]) {
      DiscardedByTable(jobs, files, unreadable, t);
      KeptTempsHas(Table(jobs), files, unreadable, temps, t);
    }
    SameTemps(kept, expected);
  }

  lemma KeptTempsHas(table: Jobs, files: map<Path, Content>, unreadable: set<Path>, temps: map<Temp, Content>, t: Temp)
    ensures var kept := KeptTemps(table, files, unreadable, temps);
            (t in kept <==> t in temps && !DiscardedBySome(table, files, unreadable, t))
            && (t in kept ==> kept[t] == temps[t])
  {
  }

  lemma SameTemps(a: map<Temp, Content>, b: map<Temp, Content>)
    requires forall t :: (t in a <==> t in b) && (t in a ==> a[t] == b[t])
    ensures a == b
  {
  }

  /** One more job of the recovery loop. */
  lemma KeptOneMore(
    jobs: seq<Job>, n: nat, files: map<Path, Content>, unreadable: set<Path>, temps: map<Temp, Content>,
    before: map<Temp, Content>, after: map<Temp, Content>)
    requires n < |jobs| && KeptAfter(jobs, n, files, unreadable, temps, before)
    requires forall t :: t in after <==> t in before && !Discards(jobs[n], files, unreadable, t)
    requires forall t :: t in after ==> after[t] == before[t]
    ensures KeptAfter(jobs, n + 1, files, unreadable, temps, after)
  {
    assert jobs[..n + 1] == jobs[..n] + [jobs[n]];
    forall t
      ensures DiscardedAmong(jobs[..n + 1], files, unreadable, t) <==>
              DiscardedAmong(jobs[..n], files, unreadable, t) || Discards(jobs[n], files, unreadable, t)
    {
    }
  }

  lemma TableAppend(jobs: seq<Job>, job: Job)
    requires UniqueIds(jobs) && job.id !in Table(jobs)
    ensures UniqueIds(jobs + [job]) && Table(jobs + [job]) == Table(jobs)[job.id := job]
  {
    TableHas(jobs);
    assert (jobs + [job])[..|jobs + [job]| - 1] == jobs;
  }

  // ------------------------------------------------------- the stores it calls

  /** The durable job list. A write stores the whole list or raises and leaves the old one. */
  class JobStore {
    var rows: seq<Job>
    ghost var refusals: nat

    constructor (rows: seq<Job>)
      ensures this.rows == rows
    {
      this.rows := rows;
    }

    method Write(jobs: seq<Job>) returns (ok: bool)
      modifies this
      ensures rows == if ok then jobs else old(rows)
      ensures refusals == if ok then old(refusals) else old(refusals) + 1
    {
      ok := *;
      if ok { rows := jobs; } else { refusals := refusals + 1; }
    }
  }

  /** Targets and temporary files. The replace moves the bytes or raises and moves nothing. */
  class FileSystem {
    var files: map<Path, Content>
    var temps: map<Temp, Content>
    ghost var refusals: nat

    constructor ()
      ensures files == map[] && temps == map[]
    {
      files, temps := map[], map[];
    }

    method Replace(temp: Temp, target: Path) returns (ok: bool)
      requires temp in temps
      modifies this
      ensures files == if ok then old(files)[target := old(temps)[temp]] else old(files)
      ensures temps == if ok then old(temps) - {temp} else old(temps)
      ensures refusals == if ok then old(refusals) else old(refusals) + 1
    {
      ok := *;
      if ok {
        files := files[target := temps[temp]];
        temps := temps - {temp};
      } else {
        refusals := refusals + 1;
      }
    }

    method Unlink(temp: Temp)
      modifies this`temps
      ensures temps == old(temps) - {temp}
    {
      temps := temps - {temp};
    }
  }

  /** A row of the export history. */
  datatype Row = Row(id: Id, completed: bool, path: Path, sha: Digest, at: Time)

  function CompletedRow(rows: seq<Row>, id: Id): Option<Row> {
    if |rows| == 0 then None
    else if rows[0].id == id && rows[0].completed then Some(rows[0])
    else CompletedRow(rows[1..], id)
  }

  predicate RowMatches(row: Option<Row>, output: Output) {
    row.Some? && row.value.path == output.path && row.value.sha == output.sha
  }

  function RowsOfOthers(rows: seq<Row>, id: Id): seq<Row> {
    if |rows| == 0 then []
    else (if rows[0].id == id then [] else [rows[0]]) + RowsOfOthers(rows[1..], id)
  }

  /** The first completed row of the export, if it has any. */
  lemma {:induction false} CompletedRowIs(rows: seq<Row>, id: Id)
    ensures CompletedRow(rows, id).None? <==> forall row :: row in rows ==> !(row.id == id && row.completed)
    ensures CompletedRow(rows, id).Some? ==>
              exists k :: 0 <= k < |rows| && rows[k] == CompletedRow(rows, id).value
                          && rows[k].id == id && rows[k].completed
                          && forall j :: 0 <= j < k ==> !(rows[j].id == id && rows[j].completed)
  {
    if |rows| > 0 && !(rows[0].id == id && rows[0].completed) {
      CompletedRowIs(rows[1..], id);
      if CompletedRow(rows, id).Some? {
        var k :| 0 <= k < |rows| - 1 && rows[1..][k] == CompletedRow(rows, id).value && rows[1..][k].id == id
                 && rows[1..][k].completed
                 && forall j :: 0 <= j < k ==> !(rows[1..][j].id == id && rows[1..][j].completed);
        assert rows[k + 1] == rows[1..][k];
        forall j | 0 <= j < k + 1 ensures !(rows[j].id == id && rows[j].completed) {
          assert j > 0 ==> rows[j] == rows[1..][j - 1];
        }
      }
    }
  }

  /** The rows of the other exports stay, in their order. */
  lemma {:induction false} RowsOfOthersInOrder(a: seq<Row>, b: seq<Row>, id: Id)
    ensures RowsOfOthers(a + b, id) == RowsOfOthers(a, id) + RowsOfOthers(b, id)
    ensures |a| == 1 ==> RowsOfOthers(a, id) == if a[0].id == id then [] else a
  {
    if |a| == 0 {
      assert a + b == b;
    } else {
      assert (a + b)[1..] == a[1..] + b;
      RowsOfOthersInOrder(a[1..], b, id);
    }
  }

  /** The row written for an export is the one that is found for it. */
  lemma {:induction false} NewRowIsFound(rows: seq<Row>, row: Row)
    requires row.completed
    ensures CompletedRow(RowsOfOthers(rows, row.id) + [row], row.id) == Some(row)
  {
    if |rows| > 0 {
      NewRowIsFound(rows[1..], row);
      var rest := RowsOfOthers(rows[1..], row.id) + [row];
      if rows[0].id != row.id {
        assert RowsOfOthers(rows, row.id) + [row] == [rows[0]] + rest;
      } else {
        assert RowsOfOthers(rows, row.id) + [row] == rest;
      }
    }
  }

  /** The rows of every other export are found as before. */
  lemma {:induction false} OtherRowsAreKept(rows: seq<Row>, row: Row, id: Id)
    requires id != row.id
    ensures CompletedRow(RowsOfOthers(rows, row.id) + [row], id) == CompletedRow(rows, id)
  {
    if |rows| > 0 {
      OtherRowsAreKept(rows[1..], row, id);
      var rest := RowsOfOthers(rows[1..], row.id) + [row];
      if rows[0].id != row.id {
        assert RowsOfOthers(rows, row.id) + [row] == [rows[0]] + rest;
      } else {
        assert RowsOfOthers(rows, row.id) + [row] == rest;
      }
    }
  }

  /** The export history, written whole or not at all. */
  class HistoryStore {
    var rows: seq<Row>
    ghost var refusals: nat

    constructor ()
      ensures rows == []
    {
      rows := [];
    }

    method Write(rows: seq<Row>) returns (ok: bool)
      modifies this
      ensures this.rows == if ok then rows else old(this.rows)
      ensures refusals == if ok then old(refusals) else old(refusals) + 1
    {
      ok := *;
      if ok { this.rows := rows; } else { refusals := refusals + 1; }
    }
  }

  /** How a poll ends. */
  datatype Settlement = TargetDiffers | HistoryLost | JobGone | StoreLost | Completed

  datatype Publication = Refused | Gone | IntentLost | ReplaceFailed | MarkLost | Announced

  class Runtime {
    var jobs: seq<Job>
    var cancel: map<Id, bool>
    const store: JobStore
    const fs: FileSystem
    const history: HistoryStore

    ghost predicate Valid()
      reads this
    {
      UniqueIds(jobs)
    }

    /** Takes over the stored list; `Recover` does the rest of the start-up. */
    constructor (store: JobStore, fs: FileSystem, history: HistoryStore)
      requires UniqueIds(store.rows)
      ensures Valid() && this.store == store && this.fs == fs && this.history == history
      ensures jobs == store.rows && cancel == map[]
    {
      this.store, this.fs, this.history := store, fs, history;
      jobs, cancel := store.rows, map[];
    }

    /** `_find`: the first job with this id. */
    method Find(id: Id) returns (found: Option<nat>)
      requires Valid()
      ensures found.Some? ==> found.value < |jobs| && jobs[found.value].id == id
      ensures found.Some? <==> id in Table(jobs)
      ensures found.Some? ==> Table(jobs)[id] == jobs[found.value]
    {
      TableHas(jobs);
      for i := 0 to |jobs|
        invariant forall k :: 0 <= k < i ==> jobs[k].id != id
      {
        if jobs[i].id == id {
          return Some(i);
        }
      }
      return None;
    }

    /** One job of the start-up loop; says whether it had to be settled. */
    method RecoverJob(i: nat, now: Time, unreadable: set<Path>) returns (settled: bool)
      requires i < |jobs|
      modifies this`jobs, fs`temps
      ensures jobs == old(jobs)[i := Recovered(old(jobs)[i], fs.files, unreadable, now)]
      ensures forall t :: t in fs.temps <==>
                t in old(fs.temps) && !Discards(old(jobs)[i], fs.files, unreadable, t)
      ensures forall t :: t in fs.temps ==> fs.temps[t] == old(fs.temps)[t]
      ensures settled <==> Open(old(jobs)[i].snapshot.status)
    {
      var job := jobs[i];
      settled := Open(job.snapshot.status);
      if settled {
        jobs := jobs[i := Recovered(job, fs.files, unreadable, now)];
        if !IntentHolds(job, fs.files, unreadable) && job.intent.Some?
           && job.intent.value.staging.beside == job.target {
          fs.Unlink(job.intent.value.staging);
        }
      }
    }

    /**
     Every job that was running when the process died is settled by its intent and by the bytes at its target;
     staging files of failed jobs are removed. When the write raises there is no runtime.
     */
    method Recover(now: Time, unreadable: set<Path>) returns (ok: bool)
      requires Valid()
      modifies this`jobs, store, fs`temps
      ensures Valid()
      ensures Table(jobs) == RecoveredAll(old(Table(jobs)), fs.files, unreadable, now)
      ensures fs.temps == KeptTemps(old(Table(jobs)), fs.files, unreadable, old(fs.temps))
      ensures (exists k :: 0 <= k < |old(jobs)| && Open(old(jobs)[k].snapshot.status)) ==>
                store.rows == if ok then jobs else old(store.rows)
      ensures !(exists k :: 0 <= k < |old(jobs)| && Open(old(jobs)[k].snapshot.status)) ==>
                ok && store.rows == old(store.rows)
      ensures !ok <==> store.refusals > old(store.refusals)
    {
      ghost var before := jobs;
      var changed := false;
      var i := 0;
      while i < |jobs|
        invariant 0 <= i <= |jobs| == |before|
        invariant forall k :: 0 <= k < i ==> jobs[k] == Recovered(before[k], fs.files, unreadable, now)
        invariant forall k :: i <= k < |jobs| ==> jobs[k] == before[k]
        invariant KeptAfter(before, i, fs.files, unreadable, old(fs.temps), fs.temps)
        invariant changed <==> exists k :: 0 <= k < i && Open(before[k].snapshot.status)
        modifies this`jobs, fs`temps
      {
        ghost var temps := fs.temps;
        var settled := RecoverJob(i, now, unreadable);
        KeptOneMore(before, i, fs.files, unreadable, old(fs.temps), temps, fs.temps);
        changed := changed || settled;
        i := i + 1;
      }
      TableRecovered(before, jobs, fs.files, unreadable, now);
      KeptByTable(before, fs.files, unreadable, old(fs.temps), fs.temps);
      ok := true;
      if changed {
        ok := store.Write(jobs);
      }
    }

    /** Accepts an export under a new id. A rejected write leaves the job in memory, without a thread. */
    method Start(id: Id, target: Path, pages: nat) returns (ok: bool)
      requires Valid() && id !in Table(jobs)
      modifies this, store
      ensures Valid()
      ensures Table(jobs) == old(Table(jobs))[id := Accepted(id, target, pages)]
      ensures store.rows == if ok then jobs else old(store.rows)
      ensures cancel == if ok then old(cancel)[id := false] else old(cancel)
      ensures !ok <==> store.refusals > old(store.refusals)
    {
      TableAppend(jobs, Accepted(id, target, pages));
      jobs := jobs + [Accepted(id, target, pages)];
      ok := store.Write(jobs);
      if ok {
        cancel := cancel[id := false];
      }
    }

    /** Answers with the snapshot; only an export that is still open has its event set. */
    method Cancel(id: Id) returns (answer: Option<Snapshot>)
      requires Valid()
      modifies this`cancel
      ensures answer == if id in Table(jobs) then Some(Table(jobs)[id].snapshot) else None
      ensures cancel ==
              if id in Table(jobs) && Open(Table(jobs)[id].snapshot.status) && id in old(cancel)
              then old(cancel)[id := true] else old(cancel)
    {
      var found := Find(id);
      if found.None? {
        return None;
      }
      var job := jobs[found.value];
      if Open(job.snapshot.status) && id in cancel {
        cancel := cancel[id := true];
      }
      return Some(job.snapshot);
    }

    /** `_change`: the edit is stored together with all other jobs, or it has not happened. */
    method Change(id: Id, edit: Snapshot -> Snapshot) returns (ok: bool)
      requires Valid()
      modifies this`jobs, store
      ensures Valid()
      ensures ok && id in old(Table(jobs)) ==>
                var before := old(Table(jobs));
                Table(jobs) == before[id := Changed(before[id], edit(before[id].snapshot))] && store.rows == jobs
      ensures !ok || id !in old(Table(jobs)) ==> jobs == old(jobs) && store.rows == old(store.rows)
      ensures !ok <==> store.refusals > old(store.refusals)
    {
      var found := Find(id);
      if found.None? {
        return true;
      }
      var i, previous := found.value, jobs[found.value];
      var next := Changed(previous, edit(previous.snapshot));
      TableUpdate(jobs, i, next);
      jobs := jobs[i := next];
      ok := store.Write(jobs);
      if !ok {
        jobs := jobs[i := previous];
        assert jobs == old(jobs);
      }
    }

    /** The critical section between the last cancellation check and the stored mark. */
    method PublishAndMark(id: Id, temp: Temp) returns (outcome: Publication)
      requires Valid() && id in cancel && temp in fs.temps
      modifies this`jobs, store, fs
      ensures Valid()
      ensures outcome.Refused? <==> cancel[id]
      ensures outcome.Gone? <==> !cancel[id] && id !in old(Table(jobs))
      ensures outcome.IntentLost? || outcome.MarkLost? <==> store.refusals > old(store.refusals)
      ensures outcome.ReplaceFailed? <==> fs.refusals > old(fs.refusals)
      ensures outcome.Refused? || outcome.Gone? || outcome.IntentLost? || outcome.ReplaceFailed? ==>
                fs.files == old(fs.files) && fs.temps == old(fs.temps)
      ensures outcome.Refused? || outcome.Gone? ==> jobs == old(jobs) && store.rows == old(store.rows)
      ensures id in old(Table(jobs)) ==>
                var before, bytes := old(Table(jobs)), old(fs.temps)[temp];
                var intending := Intending(before[id], bytes, temp);
                && (outcome.IntentLost? ==> Table(jobs) == before[id := intending] && store.rows == old(store.rows))
                && (outcome.ReplaceFailed? ==> Table(jobs) == before[id := intending] && store.rows == jobs)
                && (outcome.MarkLost? || outcome.Announced? ==>
                      && Table(jobs) == before[id := Marked(intending, bytes)]
                      && UniqueIds(store.rows)
                      && Table(store.rows) == (if outcome.Announced? then Table(jobs) else before[id := intending])
                      && fs.files == old(fs.files)[intending.target := bytes]
                      && fs.temps == old(fs.temps) - {temp})
    {
      if cancel[id] {
        return Refused;
      }
      var found := Find(id);
      if found.None? {
        return Gone;
      }
      var i := found.value;
      var bytes := fs.temps[temp];
      var intending := Intending(jobs[i], bytes, temp);
      TableUpdate(jobs, i, intending);
      jobs := jobs[i := intending];
      var ok := store.Write(jobs);
      if !ok {
        return IntentLost;
      }
      ok := fs.Replace(temp, intending.target);
      if !ok {
        return ReplaceFailed;
      }
      TableUpdate(jobs, i, Marked(intending, bytes));
      jobs := jobs[i := Marked(intending, bytes)];
      assert Table(jobs) == old(Table(jobs))[id := Marked(intending, bytes)];
      ok := store.Write(jobs);
      return if ok then Announced else MarkLost;
    }

    /** The failure handler of a worker: an export seen as publishing is left alone, any other is failed. */
    method HandleFailure(id: Id, now: Time) returns (ok: bool)
      requires Valid()
      modifies this`jobs, store
      ensures Valid()
      ensures var before := old(Table(jobs));
              if ok && id in before && !before[id].snapshot.status.Publishing?
              then Table(jobs) == before[id := Changed(before[id], Broken(before[id].snapshot, now))]
                   && store.rows == jobs
              else jobs == old(jobs) && store.rows == old(store.rows)
      ensures !ok <==> store.refusals > old(store.refusals)
    {
      var found := Find(id);
      if found.Some? && jobs[found.value].snapshot.status.Publishing? {
        return true;
      }
      ok := Change(id, s => Broken(s, now));
    }

    /** The locked read of a reconciler. */
    method ReconcileRead(id: Id) returns (seen: Option<Output>)
      requires Valid()
      ensures seen == if id in Table(jobs) && Table(jobs)[id].snapshot.status.Publishing?
                      then Table(jobs)[id].snapshot.output else None
    {
      var found := Find(id);
      if found.None? || !jobs[found.value].snapshot.status.Publishing? {
        return None;
      }
      return jobs[found.value].snapshot.output;
    }

    /**
     The rest of a reconciler. The export is completed exactly when its target still holds the published bytes, the job
     is there and neither store refuses; its history row is written first where it is missing, and gives the time.
     */
    method ReconcileSettle(id: Id, seen: Output, now: Time) returns (outcome: Settlement)
      requires Valid()
      modifies this`jobs, store, history
      ensures Valid()
      // which outcome
      ensures outcome.TargetDiffers? <==> !(seen.path in fs.files && Sha256(fs.files[seen.path]) == seen.sha)
      ensures outcome.HistoryLost? <==> history.refusals > old(history.refusals)
      ensures outcome.StoreLost? <==> store.refusals > old(store.refusals)
      ensures outcome.JobGone? ==> id !in old(Table(jobs))
      ensures outcome.StoreLost? || outcome.Completed? ==> id in old(Table(jobs))
      // the history
      ensures var named := CompletedRow(old(history.rows), id);
              var there := named.Some? && named.value.path == seen.path && named.value.sha == seen.sha;
              && (outcome.HistoryLost? ==> !there)
              && history.rows ==
                 if outcome.TargetDiffers? || outcome.HistoryLost? || there then old(history.rows)
                 else RowsOfOthers(old(history.rows), id) + [Row(id, true, seen.path, seen.sha, now)]
      // the jobs
      ensures outcome.Completed? ==>
                && CompletedRow(history.rows, id).Some?
                && var row := CompletedRow(history.rows, id).value;
                && row.path == seen.path && row.sha == seen.sha
                && store.rows == jobs
                && var job := old(Table(jobs))[id];
                var snapshot := job.snapshot.(status := Status.Completed, completedAt := Some(row.at), error := None);
                Table(jobs) == old(Table(jobs))[id := Changed(job, snapshot)]
      ensures !outcome.Completed? ==> jobs == old(jobs) && store.rows == old(store.rows)
    {
      if seen.path !in fs.files || Sha256(fs.files[seen.path]) != seen.sha {
        return TargetDiffers;
      }
      var row := CompletedRow(history.rows, id);
      if !RowMatches(row, seen) {
        var written := Row(id, true, seen.path, seen.sha, now);
        NewRowIsFound(history.rows, written);
        var ok := history.Write(RowsOfOthers(history.rows, id) + [written]);
        if !ok {
          return HistoryLost;
        }
        row := CompletedRow(history.rows, id);
      }
      var at := row.value.at;
      var found := Find(id);
      if found.None? {
        return JobGone;
      }
      var ok := Change(id, s => Reconciled(s, at));
      return if ok then Settlement.Completed else StoreLost;
    }
  }
}
