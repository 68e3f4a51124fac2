/** Names in ascending order, as both the cache cleanup and the diagnostics go through them. */
module Sorting {
  predicate Less(a: string, b: string) {
    if |a| == 0 || |b| == 0 then |a| < |b|
    else if a[0] != b[0] then a[0] < b[0]
    else Less(a[1..], b[1..])
  }

  predicate Ascending(list: seq<string>) { forall i, j :: 0 <= i < j < |list| ==> Less(list[i], list[j]) }

  /** Up to some place the names are the same, and there the first ends or has the smaller character. */
  predicate PartAt(a: string, b: string, k: nat) {
    k <= |a| && k <= |b| && a[..k] == b[..k] && (if k < |a| then k < |b| && a[k] < b[k] else k < |b|)
  }

  lemma {:induction false} PartIsLess(a: string, b: string, k: nat)
    requires PartAt(a, b, k)
    ensures Less(a, b)
    decreases k
  {
    if k > 0 {
      assert a[0] == a[..k][0] == b[..k][0] == b[0];
      assert a[1..][..k - 1] == a[..k][1..] && b[1..][..k - 1] == b[..k][1..];
      PartIsLess(a[1..], b[1..], k - 1);
    }
  }

  lemma {:induction false} LessParts(a: string, b: string) returns (k: nat)
    requires Less(a, b)
    ensures PartAt(a, b, k)
  {
    if |a| == 0 || a[0] != b[0] {
      k := 0;
    } else {
      var rest := LessParts(a[1..], b[1..]);
      k := rest + 1;
      assert a[..k] == [a[0]] + a[1..][..rest] && b[..k] == [b[0]] + b[1..][..rest];
    }
  }

  lemma LessExactlyWhen(a: string, b: string)
    ensures Less(a, b) <==> exists k: nat :: PartAt(a, b, k)
  {
    if Less(a, b) {
      var k := LessParts(a, b);
    }
    if k: nat :| PartAt(a, b, k) {
      PartIsLess(a, b, k);
    }
  }

  lemma {:induction false} LessIsNotEqual(a: string)
    ensures !Less(a, a)
  {
    if |a| > 0 {
      LessIsNotEqual(a[1..]);
    }
  }

  lemma {:induction false} LessIsTotal(a: string, b: string)
    ensures a == b || Less(a, b) || Less(b, a)
  {
    if |a| > 0 && |b| > 0 && a[0] == b[0] {
      LessIsTotal(a[1..], b[1..]);
      assert a == [a[0]] + a[1..] && b == [b[0]] + b[1..];
    }
  }

  lemma {:induction false} LessIsTransitive(a: string, b: string, c: string)
    requires Less(a, b) && Less(b, c)
    ensures Less(a, c)
  {
    if |a| > 0 && |b| > 0 && |c| > 0 && a[0] == b[0] == c[0] {
      LessIsTransitive(a[1..], b[1..], c[1..]);
    }
  }

  lemma AscendingIsDistinct(list: seq<string>, i: nat, j: nat)
    requires Ascending(list) && i < j < |list|
    ensures list[i] != list[j]
  {
    LessIsNotEqual(list[i]);
  }

  method Least(names: set<string>) returns (least: string)
    requires names != {}
    ensures least in names && forall x :: x in names && x != least ==> Less(least, x)
  {
    var todo := names;
    least :| least in todo;
    todo := todo - {least};
    while todo != {}
      invariant todo <= names && least in names - todo
      invariant forall x :: x in names - todo && x != least ==> Less(least, x)
      decreases |todo|
    {
      var next :| next in todo;
      todo := todo - {next};
      LessIsTotal(next, least);
      if Less(next, least) {
        forall x | x in names - todo && x != next ensures Less(next, x) {
          if x != least {
            LessIsTransitive(next, least, x);
          }
        }
        least := next;
      }
    }
  }

  method Sorted(names: set<string>) returns (list: seq<string>)
    ensures Ascending(list) && forall x :: x in list <==> x in names
    ensures |list| == |names|
  {
    list := [];
    var todo := names;
    while todo != {}
      invariant todo <= names && Ascending(list) && |list| + |todo| == |names|
      invariant forall x :: x in list <==> x in names - todo
      invariant forall x, y :: x in list && y in todo ==> Less(x, y)
      decreases |todo|
    {
      var next := Least(todo);
      list := list + [next];
      todo := todo - {next};
    }
  }
}
