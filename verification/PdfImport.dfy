/** The accounting of one imported document: one entry a page, and what the whole comes to. */
module PdfImport {
  import opened Options

  type Hash = string

  /** What the importer stored, or what rendering the page gives now. */
  datatype Rendering = Rendered(hash: Hash) | Broken(reason: string)

  datatype Outcome = Imported | SkippedDuplicate | Pending | Rejected

  datatype Entry = Entry(index: nat, outcome: Outcome, hash: Option<Hash>, duplicate: bool, error: Option<string>)

  datatype FileOutcome = AllImported | AllSkipped | StillPending | Partial | NoneImported

  const UNKNOWN := "UNKNOWN"

  /** The importer's report on one document, and the document as it renders. */
  datatype Report = Report(
    imported: map<nat, Hash>, pending: set<nat>, failed: Option<string>, cancelled: bool,
    renderings: seq<Rendering>, existing: set<Hash>, skipDuplicates: bool)

  /** The hash of the page with this index, counted from one: as stored, else as rendered. */
  function HashAt(r: Report, index: nat): Option<Hash>
    requires 1 <= index <= |r.renderings|
  {
    if index in r.imported then Some(r.imported[index])
    else if r.renderings[index - 1].Rendered? then Some(r.renderings[index - 1].hash)
    else None
  }

  /** The hash was there before, or an earlier page of the document has it. */
  ghost predicate Seen(r: Report, index: nat, hash: Hash)
    requires 1 <= index <= |r.renderings| + 1
  {
    hash in r.existing || exists j :: 1 <= j < index && HashAt(r, j) == Some(hash)
  }

  /**
   A page that rendered and was neither imported nor left pending nor skipped: one of these gets the file's reason.
   */
  ghost predicate Unaccounted(r: Report, index: nat)
    requires 1 <= index <= |r.renderings|
  {
    index !in r.imported && r.renderings[index - 1].Rendered? && index !in r.pending
    && !(r.skipDuplicates && Seen(r, index, r.renderings[index - 1].hash))
  }

  ghost predicate SomeUnaccounted(r: Report, count: nat)
    requires count <= |r.renderings|
  {
    exists j :: 1 <= j <= count && Unaccounted(r, j)
  }

  lemma OneMoreUnaccounted(r: Report, index: nat)
    requires 1 <= index <= |r.renderings|
    ensures SomeUnaccounted(r, index) <==> SomeUnaccounted(r, index - 1) || Unaccounted(r, index)
  {
  }

  /** What the entry of one page has to say. */
  ghost predicate EntryFits(r: Report, index: nat, e: Entry)
    requires 1 <= index <= |r.renderings|
  {
    e.index == index
    && (e.outcome.Imported? <==> index in r.imported)
    && (e.outcome.Pending? <==> index !in r.imported && r.renderings[index - 1].Rendered? && index in r.pending)
    && (e.outcome.SkippedDuplicate? <==>
          index !in r.imported && r.renderings[index - 1].Rendered? && index !in r.pending
          && r.skipDuplicates && Seen(r, index, r.renderings[index - 1].hash))
    && (e.hash.Some? <==> HashAt(r, index).Some? && !e.outcome.Pending?)
    && (e.hash.Some? ==> e.hash == HashAt(r, index) && (e.duplicate <==> Seen(r, index, e.hash.value)))
    && (e.hash.None? ==> !e.duplicate)
    && (e.error.Some? <==> e.outcome.Rejected?)
    && (e.outcome.Rejected? && e.hash.None? ==> e.error == Some(r.renderings[index - 1].reason))
    && (e.outcome.Rejected? && e.hash.Some? ==>
          e.error == if r.failed.Some? && !SomeUnaccounted(r, index - 1) then r.failed else Some(UNKNOWN))
  }

  method Entries(r: Report) returns (entries: seq<Entry>)
    ensures |entries| == |r.renderings|
    ensures forall k :: 0 <= k < |entries| ==> EntryFits(r, k + 1, entries[k])
  {
    entries := [];
    var seen := r.existing;
    var reasonGiven := false;
    while |entries| < |r.renderings|
      invariant |entries| <= |r.renderings|
      invariant forall k :: 0 <= k < |entries| ==> EntryFits(r, k + 1, entries[k])
      invariant forall h :: h in seen <==> Seen(r, |entries| + 1, h)
      invariant reasonGiven <==> r.failed.Some? && SomeUnaccounted(r, |entries|)
    {
      var index := |entries| + 1;
      ghost var before := seen;
      var entry: Entry;
      if index in r.imported {
        var hash := r.imported[index];
        entry := Entry(index, Imported, Some(hash), hash in seen, None);
        seen := seen + {hash};
      } else {
        match r.renderings[index - 1]
        case Broken(reason) => entry := Entry(index, Rejected, None, false, Some(reason));
        case Rendered(hash) =>
          var duplicate := hash in seen;
          seen := seen + {hash};
          if index in r.pending {
            entry := Entry(index, Pending, None, false, None);
          } else if duplicate && r.skipDuplicates {
            entry := Entry(index, SkippedDuplicate, Some(hash), true, None);
          } else if r.failed.Some? && !reasonGiven {
            entry := Entry(index, Rejected, Some(hash), duplicate, r.failed);
            reasonGiven := true;
          } else {
            entry := Entry(index, Rejected, Some(hash), duplicate, Some(UNKNOWN));
          }
      }
      SeenGrows(r, index, before, seen);
      OneMoreUnaccounted(r, index);
      entries := entries + [entry];
    }
  }

  lemma SeenGrows(r: Report, index: nat, before: set<Hash>, after: set<Hash>)
    requires 1 <= index <= |r.renderings|
    requires forall h :: h in before <==> Seen(r, index, h)
    requires forall h :: h in after <==> h in before || HashAt(r, index) == Some(h)
    ensures forall h :: h in after <==> Seen(r, index + 1, h)
  {
    forall h ensures Seen(r, index + 1, h) <==> Seen(r, index, h) || HashAt(r, index) == Some(h) {
      if Seen(r, index + 1, h) && h !in r.existing {
        var j :| 1 <= j < index + 1 && HashAt(r, j) == Some(h);
      }
    }
  }

  // ------------------------------------------------------- the document as a whole

  predicate AllAre(entries: seq<Entry>, outcome: Outcome) {
    |entries| > 0 && forall e :: e in entries ==> e.outcome == outcome
  }

  predicate SomeIs(entries: seq<Entry>, outcome: Outcome) { exists e :: e in entries && e.outcome == outcome }

  function Whole(entries: seq<Entry>, failed: bool, cancelled: bool): FileOutcome {
    if AllAre(entries, Imported) then AllImported
    else if AllAre(entries, SkippedDuplicate) then AllSkipped
    else if AllAre(entries, Pending) then StillPending
    else if SomeIs(entries, Imported) then Partial
    else if SomeIs(entries, Rejected) || failed then NoneImported
    else if |entries| > 0 then Partial
    else if cancelled then StillPending else NoneImported
  }

  /** Each outcome of the document, as a reader may take it. */
  lemma WholeTells(entries: seq<Entry>, failed: bool, cancelled: bool)
    ensures var o := Whole(entries, failed, cancelled);
            (o.AllImported? <==> AllAre(entries, Imported))
            && (o.AllSkipped? <==> AllAre(entries, SkippedDuplicate))
            && (o.StillPending? <==> AllAre(entries, Pending) || (entries == [] && !failed && cancelled))
            && (o.Partial? <==>
                  (SomeIs(entries, Imported) && exists e :: e in entries && !e.outcome.Imported?)
                  || (!failed && !SomeIs(entries, Imported) && !SomeIs(entries, Rejected)
                      && SomeIs(entries, SkippedDuplicate) && SomeIs(entries, Pending)))
            && (o.NoneImported? ==> !SomeIs(entries, Imported))
  {
    if |entries| > 0 {
      var first := entries[0];
      assert first in entries;
    }
  }

  /** A document that opens: its pages in order, and its outcome. One that does not open has no pages. */
  method ImportResult(r: Report, opens: bool) returns (entries: seq<Entry>, outcome: FileOutcome, committed: bool)
    ensures opens ==> |entries| == |r.renderings| && forall k :: 0 <= k < |entries| ==> EntryFits(r, k + 1, entries[k])
    ensures !opens ==> entries == []
    ensures outcome == Whole(entries, r.failed.Some?, r.cancelled)
    ensures committed <==> opens && exists index :: 1 <= index <= |r.renderings| && index in r.imported
    ensures outcome.AllImported? <==>
              opens && |r.renderings| > 0 && forall index :: 1 <= index <= |r.renderings| ==> index in r.imported
  {
    entries := [];
    if opens {
      entries := Entries(r);
    }
    outcome := Whole(entries, r.failed.Some?, r.cancelled);
    committed := SomeIs(entries, Imported);
    if opens {
      assert forall k :: 0 <= k < |entries| ==> EntryFits(r, k + 1, entries[k]) && entries[k] in entries;
      if committed {
        var e :| e in entries && e.outcome == Imported;
        var k :| 0 <= k < |entries| && entries[k] == e;
        assert k + 1 in r.imported;
      }
      forall index | 1 <= index <= |r.renderings|
        ensures index in r.imported <==> entries[index - 1].outcome.Imported?
      {
        assert EntryFits(r, index - 1 + 1, entries[index - 1]);
      }
    }
  }
}
