/** The cache cleanup: which paths it may touch, and the list of removals still owed. */
module Cleanup {
  import opened Options
  import opened TrashModel
  import Sorting

  // ------------------------------------------------------- paths

  function Normalize(path: string): string {
    if |path| == 0 then "" else [if path[0] == '\\' then '/' else path[0]] + Normalize(path[1..])
  }

  /** The components between the slashes, empty ones included. */
  function Split(path: string): (parts: seq<string>)
    ensures |parts| > 0
  {
    if |path| == 0 then [""]
    else
      var rest := Split(path[1..]);
      if path[0] == '/' then [""] + rest else [[path[0]] + rest[0]] + rest[1..]
  }

  /** A path library drops empty components and single dots, so that only double dots are left to refuse. */
  predicate NeverClimbs(path: string) { ".." !in Split(Normalize(path)) }

  /** Only the backslashes have become slashes. */
  lemma {:induction false} NormalizeIs(path: string)
    ensures |Normalize(path)| == |path|
    ensures forall i :: 0 <= i < |path| ==> Normalize(path)[i] == if path[i] == '\\' then '/' else path[i]
  {
    if |path| > 0 {
      NormalizeIs(path[1..]);
    }
  }

  function Join(parts: seq<string>): string
    requires |parts| > 0
  {
    if |parts| == 1 then parts[0] else parts[0] + ['/'] + Join(parts[1..])
  }

  /** Splitting is undone by joining, and no component has a slash. */
  lemma {:induction false} JoinUndoesSplit(path: string)
    ensures Join(Split(path)) == path
    ensures forall part :: part in Split(path) ==> '/' !in part
  {
    if |path| > 0 {
      var rest := Split(path[1..]);
      JoinUndoesSplit(path[1..]);
      assert path == [path[0]] + path[1..];
      if path[0] == '/' {
        assert Split(path)[1..] == rest;
        assert Join(Split(path)) == "" + ['/'] + Join(rest);
      } else {
        assert Split(path)[1..] == rest[1..] && rest[0] in rest;
        if |rest| > 1 {
          assert Join(Split(path)) == [path[0]] + rest[0] + ['/'] + Join(rest[1..]);
          assert Join(rest) == rest[0] + ['/'] + Join(rest[1..]);
        }
      }
    }
  }

  const CACHE := "cache/"

  predicate IsSafe(path: string) { NeverClimbs(path) && CACHE <= Normalize(path) }

  /** Where a walk along the components ends, as directories below the root; none when it climbs out of the root. */
  function Resolve(parts: seq<string>): Option<seq<string>>
    decreases |parts|
  {
    if |parts| == 0 then Some([])
    else
      var before, last := Resolve(parts[..|parts| - 1]), parts[|parts| - 1];
      if before.None? || last == "" || last == "." then before
      else if last != ".." then Some(before.value + [last])
      else if before.value == [] then None
      else Some(before.value[..|before.value| - 1])
  }

  lemma {:induction false} WalkOnlyDescends(parts: seq<string>, k: nat)
    requires 0 < k <= |parts| && parts[0] == "cache" && ".." !in parts[..k]
    ensures Resolve(parts[..k]).Some? && |Resolve(parts[..k]).value| > 0 && Resolve(parts[..k]).value[0] == "cache"
    decreases k
  {
    assert parts[..k][..k - 1] == parts[..k - 1];
    assert parts[..k][k - 1] == parts[k - 1] && parts[k - 1] in parts[..k];
    if k > 1 {
      WalkOnlyDescends(parts, k - 1);
    } else {
      assert parts[..0] == [];
    }
  }

  /** How far below the root a walk ends; below zero when it climbs out of the root. */
  function Depth(parts: seq<string>): int { if Resolve(parts).Some? then |Resolve(parts).value| else -1 }

  ghost predicate NeverUp(parts: seq<string>) {
    forall k :: 0 <= k < |parts| ==> Depth(parts[..k]) <= Depth(parts[..k + 1])
  }

  lemma DotsAloneClimb(parts: seq<string>)
    requires |parts| > 0 && parts[0] == "cache"
    ensures NeverUp(parts) <==> ".." !in parts
  {
    if ".." !in parts {
      forall k | 0 <= k < |parts| ensures Depth(parts[..k]) <= Depth(parts[..k + 1]) {
        assert parts[..k + 1][..k] == parts[..k] && parts[..k + 1][k] == parts[k] && parts[k] in parts;
        if k > 0 {
          WalkOnlyDescends(parts, k);
        }
      }
    } else {
      var k := FirstAt(parts, "..");
      FirstAtInPrefix(parts, |parts|, "..");
      assert parts[..|parts|] == parts;
      FirstAtIs(parts, "..");
      WalkOnlyDescends(parts, k);
      assert parts[..k + 1][..k] == parts[..k] && parts[..k + 1][k] == parts[k];
      assert Depth(parts[..k + 1]) < Depth(parts[..k]);
    }
  }

  lemma {:induction false} FirstAtIs(paths: seq<FilePath>, p: FilePath)
    requires p in paths
    ensures FirstAt(paths, p) < |paths| && paths[FirstAt(paths, p)] == p && p !in paths[..FirstAt(paths, p)]
  {
    if paths[0] != p {
      FirstAtIs(paths[1..], p);
      var k := FirstAt(paths, p);
      assert paths[..k] == [paths[0]] + paths[1..][..k - 1];
    }
  }

  lemma {:induction false} SplitAfter(head: string, rest: string)
    requires '/' !in head
    ensures Split(head + ['/'] + rest) == [head] + Split(rest)
  {
    var path := head + ['/'] + rest;
    if |head| == 0 {
      assert path[1..] == rest;
    } else {
      assert path[1..] == head[1..] + ['/'] + rest;
      SplitAfter(head[1..], rest);
      assert head == [head[0]] + head[1..];
    }
  }

  /** No step of a safe path, from the first component on, ever stands outside the cache directory. */
  lemma SafeNeverLeavesCache(path: string, k: nat)
    requires IsSafe(path)
    requires 0 < k <= |Split(Normalize(path))|
    ensures var at := Resolve(Split(Normalize(path))[..k]); at.Some? && |at.value| > 0 && at.value[0] == "cache"
  {
    var n := Normalize(path);
    assert n == "cache" + ['/'] + n[6..];
    SplitAfter("cache", n[6..]);
    WalkOnlyDescends(Split(n), k);
  }

  /** Below the cache prefix a path is safe exactly when no step of the walk along it goes up. */
  lemma SafeExactlyWhenNeverUp(path: string)
    requires CACHE <= Normalize(path)
    ensures IsSafe(path) <==> NeverUp(Split(Normalize(path)))
  {
    var n := Normalize(path);
    assert n == "cache" + ['/'] + n[6..];
    SplitAfter("cache", n[6..]);
    DotsAloneClimb(Split(n));
  }

  // ------------------------------------------------------- the list of removals still owed

  function NonEmpty(paths: seq<FilePath>): seq<FilePath> {
    if |paths| == 0 then []
    else NonEmpty(paths[..|paths| - 1]) + if paths[|paths| - 1] == "" then [] else [paths[|paths| - 1]]
  }

  /** Each path where it first stands. */
  function Once(paths: seq<FilePath>): seq<FilePath> {
    if |paths| == 0 then []
    else
      var before := Once(paths[..|paths| - 1]);
      if paths[|paths| - 1] in before then before else before + [paths[|paths| - 1]]
  }

  function Without(paths: seq<FilePath>, gone: set<FilePath>): seq<FilePath> {
    if |paths| == 0 then []
    else Without(paths[..|paths| - 1], gone) + if paths[|paths| - 1] in gone then [] else [paths[|paths| - 1]]
  }

  function Owed(before: seq<FilePath>, add: seq<FilePath>, settled: set<FilePath>): seq<FilePath> {
    Without(Once(before + NonEmpty(add)), settled)
  }

  function FirstAt(paths: seq<FilePath>, p: FilePath): nat {
    if |paths| == 0 || paths[0] == p then 0 else 1 + FirstAt(paths[1..], p)
  }

  lemma {:induction false} NonEmptyIs(paths: seq<FilePath>, p: FilePath)
    ensures p in NonEmpty(paths) <==> p in paths && p != ""
    decreases |paths|
  {
    if |paths| > 0 {
      var n := |paths| - 1;
      assert paths == paths[..n] + [paths[n]];
      NonEmptyIs(paths[..n], p);
    }
  }

  lemma {:induction false} WithoutIs(paths: seq<FilePath>, gone: set<FilePath>, p: FilePath)
    ensures p in Without(paths, gone) <==> p in paths && p !in gone
    decreases |paths|
  {
    if |paths| > 0 {
      var n := |paths| - 1;
      assert paths == paths[..n] + [paths[n]];
      WithoutIs(paths[..n], gone, p);
    }
  }

  lemma {:induction false} OnceIs(paths: seq<FilePath>, p: FilePath)
    ensures p in Once(paths) <==> p in paths
    decreases |paths|
  {
    if |paths| > 0 {
      var n := |paths| - 1;
      assert paths == paths[..n] + [paths[n]];
      OnceIs(paths[..n], p);
    }
  }

  lemma {:induction false} FirstAtInPrefix(paths: seq<FilePath>, n: nat, p: FilePath)
    requires n <= |paths|
    ensures p in paths[..n] ==> FirstAt(paths, p) == FirstAt(paths[..n], p) < n
    ensures p !in paths[..n] ==> FirstAt(paths, p) >= n
  {
    if n > 0 && paths[0] != p {
      assert paths[..n] == [paths[0]] + paths[1..][..n - 1];
      assert paths[..n][1..] == paths[1..][..n - 1];
      FirstAtInPrefix(paths[1..], n - 1, p);
    }
  }

  /** The list keeps the order in which its paths first turned up. */
  ghost predicate InOrder(list: seq<FilePath>, source: seq<FilePath>) {
    forall i, j :: 0 <= i < j < |list| ==> FirstAt(source, list[i]) < FirstAt(source, list[j])
  }

  lemma {:induction false} OnceInOrder(paths: seq<FilePath>)
    ensures InOrder(Once(paths), paths)
    decreases |paths|
  {
    if |paths| > 0 {
      var n := |paths| - 1;
      var before := Once(paths[..n]);
      OnceInOrder(paths[..n]);
      forall i | 0 <= i < |before| ensures FirstAt(paths, before[i]) == FirstAt(paths[..n], before[i]) < n {
        assert before[i] in before;
        OnceIs(paths[..n], before[i]);
        FirstAtInPrefix(paths, n, before[i]);
      }
      OnceIs(paths[..n], paths[n]);
      FirstAtInPrefix(paths, n, paths[n]);
    }
  }

  lemma {:induction false} WithoutInOrder(paths: seq<FilePath>, gone: set<FilePath>, source: seq<FilePath>)
    requires InOrder(paths, source)
    ensures InOrder(Without(paths, gone), source)
    decreases |paths|
  {
    if |paths| > 0 {
      var n := |paths| - 1;
      WithoutInOrder(paths[..n], gone, source);
      var kept := Without(paths[..n], gone);
      forall i | 0 <= i < |kept| ensures FirstAt(source, kept[i]) < FirstAt(source, paths[n]) {
        assert kept[i] in kept;
        WithoutIs(paths[..n], gone, kept[i]);
        var k :| 0 <= k < n && paths[..n][k] == kept[i];
      }
    }
  }

  /**
   The list owed afterwards is what was owed before and what has failed now, less what is settled; once each, in
   order.
   */
  lemma OwedIs(before: seq<FilePath>, add: seq<FilePath>, settled: set<FilePath>)
    ensures var list := Owed(before, add, settled);
            (forall p :: p in list <==> (p in before || (p in add && p != "")) && p !in settled)
            && InOrder(list, before + NonEmpty(add))
            && forall i, j :: 0 <= i < j < |list| ==> list[i] != list[j]
  {
    var all := before + NonEmpty(add);
    forall p ensures p in Owed(before, add, settled) <==> (p in before || (p in add && p != "")) && p !in settled {
      WithoutIs(Once(all), settled, p);
      OnceIs(all, p);
      NonEmptyIs(add, p);
    }
    OnceInOrder(all);
    WithoutInOrder(Once(all), settled, all);
  }

  lemma OnceOneMore(paths: seq<FilePath>, i: nat)
    requires i < |paths|
    ensures Once(paths[..i + 1]) ==
            if paths[i] in Once(paths[..i]) then Once(paths[..i]) else Once(paths[..i]) + [paths[i]]
  {
    assert paths[..i + 1][..i] == paths[..i];
  }

  lemma WithoutOneMore(paths: seq<FilePath>, p: FilePath, gone: set<FilePath>)
    ensures Without(paths + [p], gone) == if p in gone then Without(paths, gone) else Without(paths, gone) + [p]
  {
    assert (paths + [p])[..|paths|] == paths;
  }

  // ------------------------------------------------------- the service

  datatype Target = Target(path: FilePath, size: nat)
  datatype Status = Ok | Failed | Skipped
  datatype Item = Item(path: FilePath, status: Status)

  function StatusOf(path: FilePath, locked: set<FilePath>): Status {
    if !IsSafe(path) then Skipped else if path in locked then Failed else Ok
  }

  function Items(paths: seq<FilePath>, locked: set<FilePath>): seq<Item> {
    seq(|paths|, i requires 0 <= i < |paths| => Item(paths[i], StatusOf(paths[i], locked)))
  }

  function PathsOf(items: seq<Item>): seq<FilePath> { seq(|items|, i requires 0 <= i < |items| => items[i].path) }

  function AllPaths(inventory: seq<Target>): set<FilePath> { set t | t in inventory :: t.path }

  function FailedOf(items: seq<Item>): seq<FilePath> {
    if |items| == 0 then []
    else FailedOf(items[..|items| - 1]) + if items[|items| - 1].status.Failed? then [items[|items| - 1].path] else []
  }

  function With(items: seq<Item>, status: Status): set<FilePath> { set i | i in items && i.status == status :: i.path }

  function SafePaths(inventory: seq<Target>): set<FilePath> { set t | t in inventory && IsSafe(t.path) :: t.path }

  function SizeOf(targets: seq<Target>): nat {
    if |targets| == 0 then 0 else SizeOf(targets[..|targets| - 1]) + targets[|targets| - 1].size
  }

  /** The sum of the sizes, one by one. */
  lemma SizesAdd(targets: seq<Target>, t: Target)
    ensures SizeOf([]) == 0 && SizeOf(targets + [t]) == SizeOf(targets) + t.size
  {
    assert (targets + [t])[..|targets|] == targets;
  }

  /** These are the safe ones of the first `n` targets, each where it stands, in their order. */
  ghost predicate SafeOnes(inventory: seq<Target>, n: nat, targets: seq<Target>, places: seq<nat>) {
    n <= |inventory| && |places| == |targets|
    && (forall k :: 0 <= k < |places| ==>
          places[k] < n && targets[k] == inventory[places[k]] && IsSafe(targets[k].path))
    && (forall j, k :: 0 <= j < k < |places| ==> places[j] < places[k])
    && (forall i :: 0 <= i < n && IsSafe(inventory[i].path) ==> i in places)
  }

  lemma SafeOneMore(inventory: seq<Target>, n: nat, targets: seq<Target>, places: seq<nat>)
    requires SafeOnes(inventory, n, targets, places) && n < |inventory|
    ensures if IsSafe(inventory[n].path) then SafeOnes(inventory, n + 1, targets + [inventory[n]], places + [n])
            else SafeOnes(inventory, n + 1, targets, places)
  {
    if IsSafe(inventory[n].path) {
      forall i | 0 <= i <= n && IsSafe(inventory[i].path) ensures i in places + [n] {
        assert i < n ==> i in places;
      }
    }
  }

  lemma PreviewedPaths(inventory: seq<Target>, targets: seq<Target>, places: seq<nat>)
    requires SafeOnes(inventory, |inventory|, targets, places)
    ensures (set t | t in targets :: t.path) == SafePaths(inventory)
  {
    forall t | t in inventory && IsSafe(t.path) ensures t in targets {
      var i :| 0 <= i < |inventory| && inventory[i] == t;
      var k :| 0 <= k < |places| && places[k] == i;
      assert targets[k] == t;
    }
  }

  // ------------------------------------------------------- what a run leaves owed

  lemma {:induction false} FailedOfIs(paths: seq<FilePath>, locked: set<FilePath>, n: nat, p: FilePath)
    requires n <= |paths|
    ensures p in FailedOf(Items(paths, locked)[..n]) <==> p in paths[..n] && IsSafe(p) && p in locked
    decreases n
  {
    var items := Items(paths, locked);
    if n == 0 {
    } else {
      assert items[..n][..n - 1] == items[..n - 1] && paths[..n] == paths[..n - 1] + [paths[n - 1]];
      FailedOfIs(paths, locked, n - 1, p);
    }
  }

  lemma {:induction false} FailedOfAscends(paths: seq<FilePath>, locked: set<FilePath>, n: nat)
    requires n <= |paths| && Sorting.Ascending(paths)
    ensures Sorting.Ascending(FailedOf(Items(paths, locked)[..n]))
    decreases n
  {
    var items := Items(paths, locked);
    if n == 0 {
    } else {
      assert items[..n][..n - 1] == items[..n - 1];
      FailedOfAscends(paths, locked, n - 1);
      var before := FailedOf(items[..n - 1]);
      forall i | 0 <= i < |before| ensures Sorting.Less(before[i], paths[n - 1]) {
        FailedOfIs(paths, locked, n - 1, before[i]);
        assert before[i] in before;
        var k :| 0 <= k < n - 1 && paths[k] == before[i];
      }
    }
  }

  lemma {:induction false} NothingEmpty(paths: seq<FilePath>)
    requires "" !in paths
    ensures NonEmpty(paths) == paths
    decreases |paths|
  {
    if |paths| > 0 {
      var n := |paths| - 1;
      assert paths == paths[..n] + [paths[n]];
      NothingEmpty(paths[..n]);
    }
  }

  lemma {:induction false} FirstAtAfter(before: seq<FilePath>, add: seq<FilePath>, p: FilePath)
    ensures FirstAt(before + add, p) == if p in before then FirstAt(before, p) else |before| + FirstAt(add, p)
    ensures p in before ==> FirstAt(before, p) < |before|
  {
    if |before| == 0 {
      assert before + add == add;
    } else if before[0] != p {
      assert (before + add)[1..] == before[1..] + add;
      FirstAtAfter(before[1..], add, p);
    }
  }

  lemma OkOnes(paths: seq<FilePath>, locked: set<FilePath>, p: FilePath)
    ensures p in With(Items(paths, locked), Ok) <==> p in paths && IsSafe(p) && p !in locked
  {
    var items := Items(paths, locked);
    if p in paths {
      var k :| 0 <= k < |paths| && paths[k] == p;
      assert items[k] in items && items[k] == Item(p, StatusOf(p, locked));
    }
  }

  /** Owed after a run: what was owed or could not be removed now, and was not removed now. */
  lemma RunOwes(before: seq<FilePath>, paths: seq<FilePath>, locked: set<FilePath>, p: FilePath)
    ensures var items := Items(paths, locked);
            p in Owed(before, FailedOf(items), With(items, Ok)) <==>
            (p in before || (p in paths && IsSafe(p) && p in locked)) && !(p in paths && IsSafe(p) && p !in locked)
  {
    var items := Items(paths, locked);
    assert items[..|paths|] == items && paths[..|paths|] == paths;
    OwedIs(before, FailedOf(items), With(items, Ok));
    FailedOfIs(paths, locked, |paths|, p);
    OkOnes(paths, locked, p);
  }

  /** The old paths first, in their order, and then the new failures, ascending. */
  ghost predicate OldThenNew(before: seq<FilePath>, list: seq<FilePath>) {
    forall i, j :: 0 <= i < j < |list| ==>
      && list[i] != list[j]
      && (list[j] in before ==> list[i] in before && FirstAt(before, list[i]) < FirstAt(before, list[j]))
      && (list[i] !in before ==> Sorting.Less(list[i], list[j]))
  }

  lemma RunOwesInOrder(before: seq<FilePath>, paths: seq<FilePath>, locked: set<FilePath>)
    requires Sorting.Ascending(paths)
    ensures var items := Items(paths, locked); OldThenNew(before, Owed(before, FailedOf(items), With(items, Ok)))
  {
    var items := Items(paths, locked);
    var add := FailedOf(items);
    var list := Owed(before, add, With(items, Ok));
    assert items[..|paths|] == items && paths[..|paths|] == paths;
    FailedOfIs(paths, locked, |paths|, "");
    NothingEmpty(add);
    FailedOfAscends(paths, locked, |paths|);
    OwedIs(before, add, With(items, Ok));
    forall i, j | 0 <= i < j < |list|
      ensures list[j] in before ==> list[i] in before && FirstAt(before, list[i]) < FirstAt(before, list[j])
      ensures list[i] !in before ==> Sorting.Less(list[i], list[j])
    {
      assert list[i] in list && list[j] in list;
      FirstAtAfter(before, add, list[i]);
      FirstAtAfter(before, add, list[j]);
      if list[i] !in before {
        FirstAtIs(add, list[i]);
        FirstAtIs(add, list[j]);
      }
    }
  }

  class CleanupService {
    var manifest: Manifest
    var files: set<FilePath>
    /** Files that the remover cannot take for the time being. */
    var locked: set<FilePath>
    /** Every path that was ever handed to the remover. */
    ghost var asked: set<FilePath>

    constructor ()
      ensures manifest == Manifest([], [], []) && files == {} && locked == {} && asked == {}
    {
      manifest, files, locked, asked := Manifest([], [], []), {}, {}, {};
    }

    /** The safe targets in the order of the inventory; `places` says where each stands there. */
    method Preview(inventory: seq<Target>) returns (targets: seq<Target>, total: nat, ghost places: seq<nat>)
      ensures SafeOnes(inventory, |inventory|, targets, places) && total == SizeOf(targets)
      ensures (set t | t in targets :: t.path) == SafePaths(inventory)
    {
      targets, total, places := [], 0, [];
      var i := 0;
      while i < |inventory|
        invariant 0 <= i <= |inventory|
        invariant SafeOnes(inventory, i, targets, places) && total == SizeOf(targets)
      {
        SafeOneMore(inventory, i, targets, places);
        if IsSafe(inventory[i].path) {
          SizesAdd(targets, inventory[i]);
          targets, total := targets + [inventory[i]], total + inventory[i].size;
          places := places + [i];
        }
        i := i + 1;
      }
      PreviewedPaths(inventory, targets, places);
    }

    method RemoveManaged(path: FilePath) returns (ok: bool)
      modifies this`files, this`asked
      ensures ok <==> path !in locked
      ensures files == if ok then old(files) - {path} else old(files)
      ensures asked == old(asked) + {path}
    {
      asked := asked + {path};
      ok := path !in locked;
      if ok { files := files - {path}; }
    }

    method RecordPending(add: seq<FilePath>, settled: set<FilePath>)
      modifies this`manifest
      ensures manifest == old(manifest).(cleanups := Owed(old(manifest).cleanups, add, settled))
    {
      var merged := Merge(manifest.cleanups + NonEmpty(add), settled);
      manifest := manifest.(cleanups := merged);
    }

    /** Each path where it first stands, unless it is settled. */
    method Merge(all: seq<FilePath>, settled: set<FilePath>) returns (merged: seq<FilePath>)
      ensures merged == Without(Once(all), settled)
    {
      var once := [];
      merged := [];
      var i := 0;
      while i < |all|
        invariant 0 <= i <= |all|
        invariant once == Once(all[..i]) && merged == Without(once, settled)
      {
        OnceOneMore(all, i);
        if all[i] !in once {
          WithoutOneMore(once, all[i], settled);
          once := once + [all[i]];
          if all[i] !in settled { merged := merged + [all[i]]; }
        }
        i := i + 1;
      }
      assert all[..i] == all;
    }

    /** Goes through the paths in order; what is not safe never reaches the remover. */
    method Sweep(paths: seq<FilePath>) returns (items: seq<Item>)
      modifies this`files, this`asked
      ensures items == Items(paths, locked)
      ensures files == old(files) - set p | p in paths && IsSafe(p) && p !in locked
      ensures asked == old(asked) + set p | p in paths && IsSafe(p)
    {
      items := [];
      var i := 0;
      while i < |paths|
        invariant 0 <= i <= |paths|
        invariant items == Items(paths[..i], locked)
        invariant files == old(files) - set p | p in paths[..i] && IsSafe(p) && p !in locked
        invariant asked == old(asked) + set p | p in paths[..i] && IsSafe(p)
      {
        var path := paths[i];
        assert paths[..i + 1] == paths[..i] + [path];
        if !IsSafe(path) {
          items := items + [Item(path, Skipped)];
        } else {
          var ok := RemoveManaged(path);
          items := items + [Item(path, if ok then Ok else Failed)];
        }
        i := i + 1;
      }
      assert paths[..i] == paths;
    }

    /** One item for each path of the inventory, in order; failures join what is owed, removals leave it. */
    method Run(inventory: seq<Target>) returns (items: seq<Item>)
      modifies this`files, this`asked, this`manifest
      ensures Sorting.Ascending(PathsOf(items)) && forall p :: p in PathsOf(items) <==> p in AllPaths(inventory)
      ensures forall i, j :: 0 <= i < j < |items| ==> items[i].path != items[j].path
      ensures forall i :: i in items ==>
                            && (i.status.Skipped? <==> !IsSafe(i.path))
                            && (i.status.Failed? <==> IsSafe(i.path) && i.path in locked)
      ensures asked == old(asked) + SafePaths(inventory)
      ensures files == old(files) - (SafePaths(inventory) - locked)
      // what is owed: the old paths and the new failures without those that are gone, once each, the old ones first
      ensures manifest == old(manifest).(cleanups := manifest.cleanups)
      ensures forall p :: p in manifest.cleanups <==>
                            && (p in old(manifest).cleanups || p in SafePaths(inventory) * locked)
                            && p !in SafePaths(inventory) - locked
      ensures OldThenNew(old(manifest).cleanups, manifest.cleanups)
    {
      var paths := Sorting.Sorted(AllPaths(inventory));
      items := Sweep(paths);
      assert PathsOf(items) == paths;
      forall i, j | 0 <= i < j < |items| ensures items[i].path != items[j].path {
        Sorting.AscendingIsDistinct(paths, i, j);
      }
      assert (set p | p in paths && IsSafe(p)) == SafePaths(inventory);
      assert (set p | p in paths && IsSafe(p) && p !in locked) == SafePaths(inventory) - locked;
      RecordPending(FailedOf(items), With(items, Ok));
      forall p
        ensures p in manifest.cleanups <==>
                && (p in old(manifest).cleanups || p in SafePaths(inventory) * locked)
                && p !in SafePaths(inventory) - locked
      {
        RunOwes(old(manifest).cleanups, paths, locked, p);
      }
      RunOwesInOrder(old(manifest).cleanups, paths, locked);
    }

    /** Every owed path once more; what is gone, or should never have been owed, leaves the list. */
    method RetryPendingCleanups() returns (items: seq<Item>)
      modifies this`files, this`asked, this`manifest
      ensures PathsOf(items) == old(manifest).cleanups
      ensures forall i :: i in items ==>
                            && (i.status.Skipped? <==> !IsSafe(i.path))
                            && (i.status.Failed? <==> IsSafe(i.path) && i.path in locked)
      ensures asked == old(asked) + set p | p in old(manifest).cleanups && IsSafe(p)
      ensures files == old(files) - set p | p in old(manifest).cleanups && IsSafe(p) && p !in locked
      // what is still owed, once each and in its order
      ensures manifest == old(manifest).(cleanups := manifest.cleanups)
      ensures forall p :: p in manifest.cleanups <==> p in old(manifest).cleanups && IsSafe(p) && p in locked
      ensures OldThenNew(old(manifest).cleanups, manifest.cleanups)
    {
      items := Sweep(manifest.cleanups);
      assert PathsOf(items) == manifest.cleanups;
      RecordPending([], With(items, Ok) + With(items, Skipped));
      forall p ensures p in manifest.cleanups <==> p in old(manifest).cleanups && IsSafe(p) && p in locked {
        RetryOwesTheLocked(old(manifest).cleanups, locked, p);
      }
      RetryOwesInOrder(old(manifest).cleanups, With(items, Ok) + With(items, Skipped));
    }
  }

  lemma RetryOwesInOrder(before: seq<FilePath>, settled: set<FilePath>)
    ensures OldThenNew(before, Owed(before, [], settled))
  {
    var list := Owed(before, [], settled);
    OwedIs(before, [], settled);
    assert before + NonEmpty([]) == before;
    forall i | 0 <= i < |list| ensures list[i] in before {
      assert list[i] in list;
    }
  }

  /** After a retry exactly the safe paths that could not be removed are still owed. */
  lemma RetryOwesTheLocked(before: seq<FilePath>, locked: set<FilePath>, p: FilePath)
    ensures var items := Items(before, locked);
            p in Owed(before, [], With(items, Ok) + With(items, Skipped)) <==> p in before && IsSafe(p) && p in locked
  {
    var items := Items(before, locked);
    OwedIs(before, [], With(items, Ok) + With(items, Skipped));
    if p in before {
      var k :| 0 <= k < |before| && before[k] == p;
      assert items[k] == Item(p, StatusOf(p, locked));
      assert items[k] in items;
    }
  }

  /** No call of the trash touches what the cleanup has in the manifest, unless the manifest itself is lost. */
  lemma {:induction false} TrashLeavesCleanups(s: State, steps: seq<Step>)
    requires forall k :: 0 <= k < |steps| ==> !steps[k].LoseLedger?
    ensures TrashModel.Run(s, steps).w.manifest.cleanups == s.w.manifest.cleanups
    decreases |steps|
  {
    if |steps| > 0 {
      StepLeavesCleanups(s, steps[0]);
      TrashLeavesCleanups(Do(s, steps[0]), steps[1..]);
    }
  }

  lemma StepLeavesCleanups(s: State, step: Step)
    requires !step.LoseLedger?
    ensures Do(s, step).w.manifest.cleanups == s.w.manifest.cleanups
  {
  }
}
