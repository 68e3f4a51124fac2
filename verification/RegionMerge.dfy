/** What a merged region owes to the regions it replaces. */
module RegionMerge {
  import opened Options
  import opened RegionModel
  import opened RegionOrder
  import RegionHistory

  predicate Inside(inner: Box, outer: Box) {
    outer.x <= inner.x && outer.y <= inner.y
    && inner.x + inner.width <= outer.x + outer.width && inner.y + inner.height <= outer.y + outer.height
  }

  predicate WithinAt(part: string, whole: string, i: nat) { i + |part| <= |whole| && whole[i..i + |part|] == part }

  ghost predicate Within(part: string, whole: string) { exists i: nat :: WithinAt(part, whole, i) }

  lemma JoinedHasBoth(a: string, b: string)
    ensures Within(a, Joined(a, b)) && Within(b, Joined(a, b))
  {
    if a == "" {
      WithinEnds("", b);
      assert "" + b == b;
    } else if b == "" {
      WithinEnds(a, "");
      assert a + "" == a;
    } else {
      WithinEnds(a, " " + b);
      WithinEnds(a + " ", b);
      assert a + (" " + b) == a + " " + b;
    }
  }

  lemma WithinEnds(a: string, b: string)
    ensures Within(a, a + b) && Within(b, a + b)
  {
    assert WithinAt(a, a + b, 0);
    assert WithinAt(b, a + b, |a|);
  }

  lemma WithinOnward(a: string, b: string, c: string)
    requires Within(a, b) && Within(b, c)
    ensures Within(a, c)
  {
    var i: nat :| WithinAt(a, b, i);
    var j: nat :| WithinAt(b, c, j);
    forall k | 0 <= k < |a| ensures c[j + i + k] == a[k] {
      assert c[j..j + |b|][i + k] == b[i + k] == b[i..i + |a|][k];
    }
    assert c[j + i..j + i + |a|] == a;
    assert WithinAt(a, c, j + i);
  }

  /** One region among those that are merged: its box, position, texts and protection are all in the result. */
  ghost predicate GoesInto(x: Snapshot, all: Snapshot) {
    Inside(x.geometry.box, all.geometry.box) && all.order <= x.order
    && Within(x.text.edited, all.text.edited) && Within(x.text.machine, all.text.machine)
    && Within(x.text.ocr, all.text.ocr)
    && (x.text.manual ==> all.text.manual)
  }

  lemma MergerTakesBoth(a: Snapshot, b: Snapshot)
    ensures GoesInto(a, Merger(a, b)) && GoesInto(b, Merger(a, b))
  {
    JoinedHasBoth(a.text.edited, b.text.edited);
    JoinedHasBoth(a.text.machine, b.text.machine);
    JoinedHasBoth(a.text.ocr, b.text.ocr);
  }

  lemma GoesOnward(a: Snapshot, b: Snapshot, c: Snapshot)
    requires GoesInto(a, b) && GoesInto(b, c)
    ensures GoesInto(a, c)
  {
    WithinOnward(a.text.edited, b.text.edited, c.text.edited);
    WithinOnward(a.text.machine, b.text.machine, c.text.machine);
    WithinOnward(a.text.ocr, b.text.ocr, c.text.ocr);
  }

  lemma {:induction false} MergedAllTakes(s: Store, ids: seq<RegionId>, k: nat)
    requires k < |ids| && forall id :: id in ids ==> id in s.regions
    ensures GoesInto(s.regions[ids[k]].state, MergedAll(s, ids))
    decreases |ids|
  {
    var n := |ids| - 1;
    if n > 0 {
      MergerTakesBoth(MergedAll(s, ids[..n]), s.regions[ids[n]].state);
      if k < n {
        MergedAllTakes(s, ids[..n], k);
        GoesOnward(s.regions[ids[k]].state, MergedAll(s, ids[..n]), MergedAll(s, ids));
      }
    } else {
      var x := s.regions[ids[0]].state;
      WithinItself(x.text.edited);
      WithinItself(x.text.machine);
      WithinItself(x.text.ocr);
    }
  }

  lemma WithinItself(a: string)
    ensures Within(a, a)
  {
    assert WithinAt(a, a, 0);
  }

  lemma {:induction false} ProtectionComesFromSomewhere(s: Store, ids: seq<RegionId>)
    requires |ids| > 0 && forall id :: id in ids ==> id in s.regions
    ensures MergedAll(s, ids).text.manual ==> exists k :: 0 <= k < |ids| && s.regions[ids[k]].state.text.manual
    ensures exists k :: 0 <= k < |ids| && s.regions[ids[k]].state.order == MergedAll(s, ids).order
    decreases |ids|
  {
    var n := |ids| - 1;
    if n > 0 {
      ProtectionComesFromSomewhere(s, ids[..n]);
      var o :| 0 <= o < n && s.regions[ids[..n][o]].state.order == MergedAll(s, ids[..n]).order;
      assert ids[o] == ids[..n][o] && ids[n] in ids;
      if MergedAll(s, ids[..n]).text.manual {
        var k :| 0 <= k < n && s.regions[ids[..n][k]].state.text.manual;
        assert ids[k] == ids[..n][k];
      }
    }
  }

  /**
   The merged region is protected exactly when one of its sources is, and then holds every edited text; it covers every
   source, stands where the first of them stood, and loses no recognized or machine text.
   */
  lemma MergedKeepsWhatItReplaces(s: Store, ids: seq<RegionId>)
    requires |ids| > 0 && forall id :: id in ids ==> id in s.regions
    ensures var m := Merged(s, ids);
            (m.text.manual <==> exists k :: 0 <= k < |ids| && s.regions[ids[k]].state.text.manual)
            && m.text.locked == m.text.manual && !m.text.confirmed
            && (exists k :: 0 <= k < |ids| && s.regions[ids[k]].state.order == m.order)
            && forall k :: 0 <= k < |ids| ==>
                 var x := s.regions[ids[k]].state;
                 m.order <= x.order && Inside(x.geometry.box, m.geometry.box)
                 && Within(x.text.ocr, m.text.ocr) && Within(x.text.machine, m.text.machine)
                 && (m.text.manual ==> Within(x.text.edited, m.text.edited))
  {
    ProtectionComesFromSomewhere(s, ids);
    forall k | 0 <= k < |ids| ensures GoesInto(s.regions[ids[k]].state, MergedAll(s, ids)) {
      MergedAllTakes(s, ids, k);
    }
  }

  // ------------------------------------------------------- the order of what is joined

  function NonEmpty(parts: seq<string>): seq<string> {
    if |parts| == 0 then []
    else NonEmpty(parts[..|parts| - 1]) + if parts[|parts| - 1] == "" then [] else [parts[|parts| - 1]]
  }

  /** The words in their order, one space between each and the next. */
  function Spaced(words: seq<string>): string {
    if |words| == 0 then "" else if |words| == 1 then words[0] else words[0] + " " + Spaced(words[1..])
  }

  function Strung(rings: seq<seq<(int, int)>>): seq<(int, int)> {
    if |rings| == 0 then [] else rings[0] + Strung(rings[1..])
  }

  lemma {:induction false} SpacedGrows(words: seq<string>, word: string)
    requires |words| > 0
    ensures Spaced(words + [word]) == Spaced(words) + " " + word
  {
    assert (words + [word])[1..] == words[1..] + [word];
    if |words| > 1 {
      SpacedGrows(words[1..], word);
    }
  }

  lemma {:induction false} StrungGrows(rings: seq<seq<(int, int)>>, ring: seq<(int, int)>)
    ensures Strung(rings + [ring]) == Strung(rings) + ring
  {
    if |rings| == 0 {
      assert Strung([ring]) == ring + Strung([ring][1..]);
    } else {
      assert (rings + [ring])[1..] == rings[1..] + [ring];
      StrungGrows(rings[1..], ring);
    }
  }

  lemma {:induction false} NonEmptyOnes(parts: seq<string>)
    ensures forall w :: w in NonEmpty(parts) ==> w != ""
    decreases |parts|
  {
    if |parts| > 0 {
      NonEmptyOnes(parts[..|parts| - 1]);
    }
  }

  lemma {:induction false} SpacedIsEmptyExactlyWhen(words: seq<string>)
    requires forall w :: w in words ==> w != ""
    ensures Spaced(words) == "" <==> words == []
  {
    if |words| == 1 {
      assert words[0] in words;
    }
  }

  /** Joining one more text is appending one more word, where it is one. */
  lemma JoinedGoesOn(parts: seq<string>, part: string)
    ensures Joined(Spaced(NonEmpty(parts)), part) == Spaced(NonEmpty(parts + [part]))
  {
    var words := NonEmpty(parts);
    assert (parts + [part])[..|parts|] == parts;
    NonEmptyOnes(parts);
    SpacedIsEmptyExactlyWhen(words);
    if part == "" {
      assert NonEmpty(parts + [part]) == words;
    } else if words == [] {
      assert words + [part] == [part];
    } else {
      SpacedGrows(words, part);
    }
  }

  datatype Level = Recognized | Translated | Edited

  function TextAt(t: Text, level: Level): string {
    match level
    case Recognized => t.ocr
    case Translated => t.machine
    case Edited => t.edited
  }

  function Texts(s: Store, ids: seq<RegionId>, level: Level): seq<string>
    requires forall id :: id in ids ==> id in s.regions
  {
    seq(|ids|, i requires 0 <= i < |ids| => TextAt(s.regions[ids[i]].state.text, level))
  }

  function Polygons(s: Store, ids: seq<RegionId>): seq<seq<(int, int)>>
    requires forall id :: id in ids ==> id in s.regions
  {
    seq(|ids|, i requires 0 <= i < |ids| => s.regions[ids[i]].state.geometry.polygon)
  }

  lemma TextsGrow(s: Store, ids: seq<RegionId>, level: Level)
    requires |ids| > 0 && forall id :: id in ids ==> id in s.regions
    ensures Texts(s, ids, level) ==
            Texts(s, ids[..|ids| - 1], level) + [TextAt(s.regions[ids[|ids| - 1]].state.text, level)]
  {
  }

  lemma {:induction false} JoinedInOrder(s: Store, ids: seq<RegionId>)
    requires |ids| > 0 && forall id :: id in ids ==> id in s.regions
    ensures MergedAll(s, ids).text.ocr == Spaced(NonEmpty(Texts(s, ids, Recognized)))
    ensures MergedAll(s, ids).text.machine == Spaced(NonEmpty(Texts(s, ids, Translated)))
    ensures MergedAll(s, ids).text.edited == Spaced(NonEmpty(Texts(s, ids, Edited)))
    ensures MergedAll(s, ids).geometry.polygon == Strung(Polygons(s, ids))
    decreases |ids|
  {
    var n := |ids| - 1;
    TextsGrow(s, ids, Recognized);
    TextsGrow(s, ids, Translated);
    TextsGrow(s, ids, Edited);
    assert Polygons(s, ids) == Polygons(s, ids[..n]) + [s.regions[ids[n]].state.geometry.polygon];
    StrungGrows(Polygons(s, ids[..n]), s.regions[ids[n]].state.geometry.polygon);
    var x := s.regions[ids[n]].state.text;
    JoinedGoesOn(Texts(s, ids[..n], Recognized), x.ocr);
    JoinedGoesOn(Texts(s, ids[..n], Translated), x.machine);
    JoinedGoesOn(Texts(s, ids[..n], Edited), x.edited);
    if n > 0 {
      JoinedInOrder(s, ids[..n]);
    } else {
      assert Texts(s, ids[..0], Recognized) == [] && Texts(s, ids[..0], Translated) == [];
      assert Texts(s, ids[..0], Edited) == [] && Polygons(s, ids[..0]) == [];
    }
  }

  /**
   The merged region has type and policy of the first, the texts in the order of the ids with one space between those
   that are not empty, and the polygons in that order; style and locks start anew, nothing is confirmed, and the machine
   text is final if it is not blank.
   */
  lemma MergedJoinsInOrder(s: Store, ids: seq<RegionId>)
    requires |ids| > 0 && forall id :: id in ids ==> id in s.regions
    ensures var m, first := Merged(s, ids), s.regions[ids[0]].state;
            && m.kind == first.kind && m.policy == first.policy
            && m.style == "" && m.locks == Locks(false, false, false)
            && m.geometry.polygon == Strung(Polygons(s, ids))
            && m.text.ocr == Spaced(NonEmpty(Texts(s, ids, Recognized)))
            && m.text.machine == Spaced(NonEmpty(Texts(s, ids, Translated)))
            && m.text.edited == (if m.text.manual then Spaced(NonEmpty(Texts(s, ids, Edited))) else "")
            && (if Blank(m.text.machine) then m.text.final == "" && m.text.source == NoFinal
                else m.text.final == m.text.machine && m.text.source == FromMachine)
  {
    JoinedInOrder(s, ids);
    RegionHistory.MergedLikeTheFirst(s, ids);
  }

  /** The covering box is the smallest that holds both. */
  lemma CoveringIsSmallest(a: Box, b: Box, outer: Box)
    ensures Inside(a, Covering(a, b)) && Inside(b, Covering(a, b))
    ensures Inside(a, outer) && Inside(b, outer) ==> Inside(Covering(a, b), outer)
    ensures a.width > 0 && a.height > 0 ==> Covering(a, b).width > 0 && Covering(a, b).height > 0
  {
  }

  /** A part keeps type, policy, recognized text and both protection flags of the whole, and no translation. */
  lemma PartsHandOnProtection(whole: Snapshot, geometry: Geometry, index: int)
    ensures var part := Part(whole, geometry, index);
            part.text.manual == whole.text.manual && part.text.locked == whole.text.locked
            && part.text.ocr == whole.text.ocr
            && part.kind == whole.kind && part.policy == whole.policy && part.geometry == geometry
            && part.order == whole.order + index - 1 && part.style == "" && part.locks == Locks(false, false, false)
            && !part.text.confirmed
            && part.text.machine == part.text.edited == part.text.final == "" && part.text.source == NoFinal
  {
  }

  // ------------------------------------------------------- what a merge or split leaves in the store

  /** The region is live on its page, with this state and with the one revision that records it. */
  ghost predicate NewBorn(s: Store, id: RegionId, page: PageId, state: Snapshot, rid: RevisionId) {
    id in s.regions && s.regions[id] == Region(page, state, Some(rid), false)
    && History(s, id) == [Revision(rid, 1, state, User, Unreviewed, false, None)]
  }

  /** The region is deleted; its state and its history are what they were. */
  ghost predicate OnlyDeleted(s: Store, s': Store, id: RegionId) {
    id in s.regions && id in s'.regions && s'.regions[id] == s.regions[id].(deleted := true)
    && History(s', id) == History(s, id)
  }

  lemma CreateMakes(s: Store, id: RegionId, page: PageId, state: Snapshot, rid: RevisionId, other: RegionId)
    ensures NewBorn(Create(s, id, page, state, User, rid), id, page, state, rid)
    ensures other != id ==> Untouched(s, Create(s, id, page, state, User, rid), other)
  {
  }

  lemma {:induction false} PartsSpare(
    s: Store, whole: RegionId, ids: seq<RegionId>, parts: seq<Geometry>, rids: seq<RevisionId>, n: nat, id: RegionId)
    requires n <= |parts| <= |ids| && n <= |rids| && whole in s.regions && id !in ids[..n]
    ensures Untouched(s, PartFirst(s, whole, ids, parts, rids, n), id)
    decreases n
  {
    if n > 0 {
      assert ids[..n] == ids[..n - 1] + [ids[n - 1]];
      PartsSpare(s, whole, ids, parts, rids, n - 1, id);
      CreateMakes(PartFirst(s, whole, ids, parts, rids, n - 1), ids[n - 1], s.regions[whole].page,
                  Part(s.regions[whole].state, parts[n - 1], n), rids[n - 1], id);
    }
  }

  lemma {:induction false} PartsAreMade(
    s: Store, whole: RegionId, ids: seq<RegionId>, parts: seq<Geometry>, rids: seq<RevisionId>, n: nat, k: nat)
    requires k < n <= |parts| <= |ids| && n <= |rids| && whole in s.regions && Distinct(ids)
    ensures NewBorn(PartFirst(s, whole, ids, parts, rids, n), ids[k], s.regions[whole].page,
                    Part(s.regions[whole].state, parts[k], k + 1), rids[k])
    decreases n
  {
    var before := PartFirst(s, whole, ids, parts, rids, n - 1);
    var page, last := s.regions[whole].page, Part(s.regions[whole].state, parts[n - 1], n);
    CreateMakes(before, ids[n - 1], page, last, rids[n - 1], ids[k]);
    if k < n - 1 {
      PartsAreMade(s, whole, ids, parts, rids, n - 1, k);
      StaysNewBorn(before, PartFirst(s, whole, ids, parts, rids, n), ids[k], page,
                   Part(s.regions[whole].state, parts[k], k + 1), rids[k]);
    }
  }

  lemma DeleteDeletes(s: Store, id: RegionId, other: RegionId)
    requires id in s.regions
    ensures OnlyDeleted(s, Delete(s, id), id)
    ensures other != id ==> Untouched(s, Delete(s, id), other)
  {
  }

  /** What a deletion elsewhere does not touch stays new-born. */
  lemma StaysNewBorn(s: Store, s': Store, id: RegionId, page: PageId, state: Snapshot, rid: RevisionId)
    requires NewBorn(s, id, page, state, rid) && Untouched(s, s', id)
    ensures NewBorn(s', id, page, state, rid)
  {
  }

  /**
   After a split each part is live on the page of the whole with its own geometry and place in the order, one revision,
   and the protection of the whole; the whole is deleted, its history unchanged, and every other region untouched.
   */
  lemma SplitLeaves(
    s: Store, s': Store, whole: RegionId, ids: seq<RegionId>, parts: seq<Geometry>, rids: seq<RevisionId>, k: nat,
    other: RegionId)
    requires whole in s.regions && whole !in ids && Distinct(ids) && k < |parts| <= |ids| && |parts| <= |rids|
    requires s' == Delete(PartFirst(s, whole, ids, parts, rids, |parts|), whole)
    ensures NewBorn(s', ids[k], s.regions[whole].page, Part(s.regions[whole].state, parts[k], k + 1), rids[k])
    ensures s'.regions[ids[k]].state.text.manual == s.regions[whole].state.text.manual
    ensures s'.regions[ids[k]].state.text.locked == s.regions[whole].state.text.locked
    ensures OnlyDeleted(s, s', whole)
    ensures other !in ids[..|parts|] && other != whole ==> Untouched(s, s', other)
  {
    var made := PartFirst(s, whole, ids, parts, rids, |parts|);
    assert ids[k] in ids;
    PartsAreMade(s, whole, ids, parts, rids, |parts|, k);
    DeleteDeletes(made, whole, ids[k]);
    var part := Part(s.regions[whole].state, parts[k], k + 1);
    StaysNewBorn(made, s', ids[k], s.regions[whole].page, part, rids[k]);
    PartsHandOnProtection(s.regions[whole].state, parts[k], k + 1);
    SplitSparesOthers(s, whole, ids, parts, rids, other);
  }

  lemma NotInPrefix(ids: seq<RegionId>, n: nat, id: RegionId)
    requires n <= |ids| && id !in ids
    ensures id !in ids[..n]
  {
  }

  lemma ThenDeleted(s: Store, made: Store, whole: RegionId, other: RegionId)
    requires whole in s.regions && Untouched(s, made, whole)
    ensures OnlyDeleted(s, Delete(made, whole), whole)
    ensures other != whole && Untouched(s, made, other) ==> Untouched(s, Delete(made, whole), other)
  {
  }

  lemma SplitSparesOthers(
    s: Store, whole: RegionId, ids: seq<RegionId>, parts: seq<Geometry>, rids: seq<RevisionId>, other: RegionId)
    requires whole in s.regions && whole !in ids && |parts| <= |ids| && |parts| <= |rids|
    ensures var s' := Delete(PartFirst(s, whole, ids, parts, rids, |parts|), whole);
            OnlyDeleted(s, s', whole) && (other !in ids[..|parts|] && other != whole ==> Untouched(s, s', other))
  {
    NotInPrefix(ids, |parts|, whole);
    PartsSpare(s, whole, ids, parts, rids, |parts|, whole);
    if other !in ids[..|parts|] {
      PartsSpare(s, whole, ids, parts, rids, |parts|, other);
    }
    ThenDeleted(s, PartFirst(s, whole, ids, parts, rids, |parts|), whole, other);
  }

  lemma {:induction false} DeletedOnes(s: Store, ids: seq<RegionId>, n: nat, id: RegionId)
    requires n <= |ids| && forall r :: r in ids ==> r in s.regions
    ensures id in ids[..n] ==> OnlyDeleted(s, DeleteFirst(s, ids, n), id)
    ensures id !in ids[..n] ==> Untouched(s, DeleteFirst(s, ids, n), id)
    decreases n
  {
    if n > 0 {
      assert ids[..n] == ids[..n - 1] + [ids[n - 1]];
      DeletedOnes(s, ids, n - 1, id);
    }
  }

  /**
   After a merge the merged region is live on the page with one revision; its sources, and no others, are deleted with
   their histories unchanged; all else is untouched.
   */
  lemma MergeLeaves(s: Store, merged: RegionId, page: PageId, ids: seq<RegionId>, rid: RevisionId, id: RegionId)
    requires |ids| > 0 && merged !in s.regions && forall r :: r in ids ==> r in s.regions
    ensures var s' := DeleteFirst(Create(s, merged, page, Merged(s, ids), User, rid), ids, |ids|);
            && (id == merged ==> NewBorn(s', id, page, Merged(s, ids), rid))
            && (id in ids ==> OnlyDeleted(s, s', id))
            && (id !in ids && id != merged ==> Untouched(s, s', id))
  {
    var created := Create(s, merged, page, Merged(s, ids), User, rid);
    assert ids[..|ids|] == ids;
    CreateMakes(s, merged, page, Merged(s, ids), rid, id);
    DeletedOnes(created, ids, |ids|, id);
  }
}
