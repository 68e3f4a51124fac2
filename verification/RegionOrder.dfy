/** Reordering a page: the listing comes out as asked, with one revision for each region that really moved. */
module RegionOrder {
  import opened Options
  import opened RegionModel

  function MoveOne(s: Store, id: RegionId, position: int, rid: RevisionId): Store {
    var plan := PlanOn(s, MoveTo(id, position), rid);
    if plan.Go? then Commit(s, plan.write) else s
  }

  /** The first `n` of the regions in the wanted order have been given their positions, counted from one. */
  function MoveFirst(s: Store, ids: seq<RegionId>, rids: seq<RevisionId>, n: nat): Store
    requires n <= |ids| <= |rids|
  {
    if n == 0 then s else MoveOne(MoveFirst(s, ids, rids, n - 1), ids[n - 1], n, rids[n - 1])
  }

  ghost predicate Distinct(ids: seq<RegionId>) { forall i, j :: 0 <= i < j < |ids| ==> ids[i] != ids[j] }

  /** What a move does to one region: its new position, and a revision only if that is another one. */
  ghost predicate MovedTo(s: Store, s': Store, id: RegionId, position: int) {
    id in s.regions && id in s'.regions
    && s'.regions[id].state == s.regions[id].state.(order := position)
    && s'.regions[id].page == s.regions[id].page && s'.regions[id].deleted == s.regions[id].deleted
    && (if s.regions[id].state.order == position
        then s'.regions[id] == s.regions[id] && History(s', id) == History(s, id)
        else |History(s', id)| == |History(s, id)| + 1
             && History(s', id)[..|History(s, id)|] == History(s, id)
             && History(s', id)[|History(s, id)|].snapshot == s'.regions[id].state)
  }

  ghost predicate Untouched(s: Store, s': Store, id: RegionId) {
    (id in s.regions <==> id in s'.regions)
    && (id in s.regions ==> s'.regions[id] == s.regions[id])
    && History(s', id) == History(s, id)
  }

  lemma MoveOneMoves(s: Store, id: RegionId, position: int, rid: RevisionId, other: RegionId)
    requires Live(s, id)
    ensures MovedTo(s, MoveOne(s, id, position, rid), id, position)
    ensures other != id ==> Untouched(s, MoveOne(s, id, position, rid), other)
  {
  }

  lemma MoveOneKeepsLive(s: Store, id: RegionId, position: int, rid: RevisionId)
    ensures forall other :: Live(s, other) ==> Live(MoveOne(s, id, position, rid), other)
  {
  }

  lemma {:induction false} MoveFirstMoves(s: Store, ids: seq<RegionId>, rids: seq<RevisionId>, n: nat, id: RegionId)
    requires n <= |ids| <= |rids| && Distinct(ids) && forall k :: 0 <= k < |ids| ==> Live(s, ids[k])
    ensures id !in ids[..n] ==> Untouched(s, MoveFirst(s, ids, rids, n), id)
    ensures forall k :: 0 <= k < n && id == ids[k] ==> MovedTo(s, MoveFirst(s, ids, rids, n), id, k + 1)
    decreases n
  {
    if n > 0 {
      var last := ids[n - 1];
      assert ids[..n] == ids[..n - 1] + [last];
      MoveFirstMoves(s, ids, rids, n - 1, id);
      MoveFirstMoves(s, ids, rids, n - 1, last);
      assert Live(s, last);
      MoveOneMoves(MoveFirst(s, ids, rids, n - 1), last, n, rids[n - 1], id);
    }
  }

  // ------------------------------------------------------- listing

  /** The list shows the live regions of the page, each once, by position. */
  ghost predicate IsListing(s: Store, page: PageId, list: seq<RegionId>) {
    Distinct(list)
    && (forall id :: id in list <==> Live(s, id) && s.regions[id].page == page)
    && Ascending(s, list)
  }

  ghost predicate Ascending(s: Store, list: seq<RegionId>) {
    forall i, j :: 0 <= i < j < |list| ==>
                     list[i] in s.regions && list[j] in s.regions
                     && s.regions[list[i]].state.order <= s.regions[list[j]].state.order
  }

  ghost predicate Permutes(s: Store, page: PageId, ids: seq<RegionId>) {
    Distinct(ids) && forall id :: id in ids <==> Live(s, id) && s.regions[id].page == page
  }

  ghost predicate OrderedAs(s: Store, ids: seq<RegionId>) {
    forall k :: 0 <= k < |ids| ==> ids[k] in s.regions && s.regions[ids[k]].state.order == k + 1
  }

  /** Two duplicate-free lists of the same regions, one ordered by the positions the other spells out, are the same. */
  lemma ListingIsTheOrder(s: Store, page: PageId, ids: seq<RegionId>, list: seq<RegionId>)
    requires Permutes(s, page, ids) && OrderedAs(s, ids) && IsListing(s, page, list)
    ensures list == ids
  {
    SameMembersSameLength(ids, list);
    SameMembersSameLength(list, ids);
    assert |list| == |ids|;
    forall i | 0 <= i < |list| ensures list[i] == ids[i] {
      OrderIsIndex(s, ids, list, i);
    }
  }

  lemma {:induction false} SameMembersSameLength(a: seq<RegionId>, b: seq<RegionId>)
    requires Distinct(a) && forall id :: id in a ==> id in b
    ensures |a| <= |b|
    decreases |a|
  {
    if |a| > 0 {
      var last := a[|a| - 1];
      assert last in b;
      var i :| 0 <= i < |b| && b[i] == last;
      var rest := b[..i] + b[i + 1..];
      forall id | id in a[..|a| - 1] ensures id in rest {
        var k :| 0 <= k < |a| - 1 && a[k] == id;
        assert id in b && id != b[i];
      }
      SameMembersSameLength(a[..|a| - 1], rest);
    }
  }

  /** An ascending list of as many numbers from 1 to n, all different, counts up. */
  lemma {:induction false} OrderIsIndex(s: Store, ids: seq<RegionId>, list: seq<RegionId>, i: nat)
    requires Distinct(ids) && Distinct(list) && OrderedAs(s, ids) && |list| == |ids| && i < |list|
    requires forall id :: id in list <==> id in ids
    requires Ascending(s, list)
    ensures list[i] == ids[i]
    decreases i
  {
    forall a | 0 <= a < i ensures list[a] == ids[a] {
      OrderIsIndex(s, ids, list, a);
    }
    assert ids[i] in list;
    var j :| 0 <= j < |list| && list[j] == ids[i];
    assert list[i] in ids;
    var k :| 0 <= k < |ids| && ids[k] == list[i];
    assert k >= i;
    assert j >= i;
    assert s.regions[list[j]].state.order == i + 1 && s.regions[list[i]].state.order == k + 1;
  }

  /**
   Given a permutation of a page's live regions, reordering makes it the page's listing; every region that stood
   elsewhere gets exactly one revision, and nothing else changes.
   */
  lemma ReorderingListsAsAsked(s: Store, page: PageId, ids: seq<RegionId>, rids: seq<RevisionId>, list: seq<RegionId>)
    requires |ids| <= |rids| && Permutes(s, page, ids)
    ensures var s' := MoveFirst(s, ids, rids, |ids|);
            (IsListing(s', page, list) <==> list == ids)
            && (forall k :: 0 <= k < |ids| ==> MovedTo(s, s', ids[k], k + 1))
            && (forall id :: id !in ids ==> Untouched(s, s', id))
  {
    var s' := MoveFirst(s, ids, rids, |ids|);
    assert ids[..|ids|] == ids;
    forall k | 0 <= k < |ids| ensures Live(s, ids[k]) {
      assert ids[k] in ids;
    }
    forall k | 0 <= k < |ids| ensures MovedTo(s, s', ids[k], k + 1) {
      MoveFirstMoves(s, ids, rids, |ids|, ids[k]);
    }
    forall id | id !in ids ensures Untouched(s, s', id) {
      MoveFirstMoves(s, ids, rids, |ids|, id);
    }
    MembershipStays(s, s', page, ids);
    if IsListing(s', page, list) {
      ListingIsTheOrder(s', page, ids, list);
    }
  }

  lemma MembershipStays(s: Store, s': Store, page: PageId, ids: seq<RegionId>)
    requires Permutes(s, page, ids)
    requires forall k :: 0 <= k < |ids| ==> MovedTo(s, s', ids[k], k + 1)
    requires forall id :: id !in ids ==> Untouched(s, s', id)
    ensures Permutes(s', page, ids) && OrderedAs(s', ids)
  {
    forall id ensures id in ids <==> Live(s', id) && s'.regions[id].page == page {
      if id in ids {
        var k :| 0 <= k < |ids| && ids[k] == id;
        assert MovedTo(s, s', ids[k], k + 1);
      } else {
        assert Untouched(s, s', id);
      }
    }
    forall k | 0 <= k < |ids| ensures ids[k] in s'.regions && s'.regions[ids[k]].state.order == k + 1 {
      assert MovedTo(s, s', ids[k], k + 1);
    }
  }
}
