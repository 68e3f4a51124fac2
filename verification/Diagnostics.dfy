/** Redacted report fields: no field is lost and no two share a key. */
module Diagnostics {
  import opened Options
  import opened Decimal
  import Sorting

  const REDACTED := "[redacted]"

  function Redact(screens: (string, string) -> bool, key: string, value: string): string {
    if screens(key, value) then REDACTED else value
  }

  function Suffixed(key: string, n: nat): string { key + "#" + Numeral(n) }

  /** The key itself, or the first numbered variant from two on that is not used. */
  ghost predicate FirstFree(key: string, used: set<string>, chosen: string) {
    if key !in used then chosen == key
    else
      exists n: nat :: n >= 2 && Suffixed(key, n) == chosen == key + "#" + Numeral(n) && chosen !in used
                       && forall k: nat :: 2 <= k < n ==> Suffixed(key, k) in used
  }

  method FreeKey(key: string, used: set<string>) returns (chosen: string)
    ensures FirstFree(key, used, chosen) && chosen !in used
  {
    if key !in used {
      return key;
    }
    var suffix := 2;
    while Suffixed(key, suffix) in used
      invariant 2 <= suffix <= |used| + 2
      invariant forall k: nat :: 2 <= k < suffix ==> Suffixed(key, k) in used
      decreases |used| + 2 - suffix
    {
      suffix := suffix + 1;
      NumbersUsed(key, suffix - 2, used);
    }
    return Suffixed(key, suffix);
  }

  lemma NumbersUsed(key: string, count: nat, used: set<string>)
    requires forall k: nat :: 2 <= k < 2 + count ==> Suffixed(key, k) in used
    ensures count <= |used|
  {
    forall k: nat | 2 <= k < 2 + count ensures key + "#" + Numeral(k) + "" in used {
      assert key + "#" + Numeral(k) + "" == Suffixed(key, k);
    }
    NumberedNamesCount(key + "#", "", 2, count, used);
  }

  function KeysOf(fields: seq<(string, string)>): set<string> { set f | f in fields :: f.0 }

  type Fields = seq<(string, string)>

  /** A field shows its entry redacted, under the first key that the fields before it left free. */
  ghost predicate FieldFits(
    values: map<string, string>, screens: (string, string) -> bool, keys: seq<string>, fields: Fields, k: nat)
  {
    k < |fields| <= |keys| && keys[k] in values
    && fields[k].1 == (if screens(keys[k], values[keys[k]]) then "[redacted]" else values[keys[k]])
    && FirstFree(if screens(keys[k], keys[k]) then "[redacted]" else keys[k], KeysOf(fields[..k]), fields[k].0)
  }

  lemma FieldsStay(
    values: map<string, string>, screens: (string, string) -> bool, keys: seq<string>, fields: Fields,
    f: (string, string), k: nat)
    requires FieldFits(values, screens, keys, fields, k) && |fields| < |keys|
    ensures FieldFits(values, screens, keys, fields + [f], k)
  {
    assert (fields + [f])[..k] == fields[..k];
  }

  lemma FreeKeysDiffer(fields: Fields, f: (string, string))
    requires forall i, j :: 0 <= i < j < |fields| ==> fields[i].0 != fields[j].0
    requires f.0 !in KeysOf(fields)
    ensures forall i, j :: 0 <= i < j <= |fields| ==> (fields + [f])[i].0 != (fields + [f])[j].0
  {
    forall i | 0 <= i < |fields| ensures fields[i].0 != f.0 {
      assert fields[i] in fields;
    }
  }

  /** One field for each entry, in the order of the keys, under keys that all differ. */
  method RedactMapping(values: map<string, string>, screens: (string, string) -> bool)
    returns (fields: Fields, ghost keys: seq<string>)
    ensures Sorting.Ascending(keys) && (forall x :: x in keys <==> x in values)
    ensures |fields| == |keys| == |values|
    ensures forall i, j :: 0 <= i < j < |fields| ==> fields[i].0 != fields[j].0
    ensures forall k: nat :: k < |fields| ==> FieldFits(values, screens, keys, fields, k)
  {
    var sorted := Sorting.Sorted(values.Keys);
    keys := sorted;
    fields := [];
    var used := {};
    while |fields| < |sorted|
      invariant |fields| <= |sorted| && used == KeysOf(fields)
      invariant forall i, j :: 0 <= i < j < |fields| ==> fields[i].0 != fields[j].0
      invariant forall k: nat :: k < |fields| ==> FieldFits(values, screens, sorted, fields, k)
    {
      var key := sorted[|fields|];
      assert key in values;
      var chosen := FreeKey(Redact(screens, key, key), used);
      var field := (chosen, Redact(screens, key, values[key]));
      KeysGrow(fields, field);
      FreeKeysDiffer(fields, field);
      forall k: nat | k < |fields| ensures FieldFits(values, screens, sorted, fields + [field], k) {
        FieldsStay(values, screens, sorted, fields, field, k);
      }
      assert (fields + [field])[..|fields|] == fields;
      used := used + {chosen};
      fields := fields + [field];
    }
  }

  lemma KeysGrow(fields: seq<(string, string)>, f: (string, string))
    ensures KeysOf(fields + [f]) == KeysOf(fields) + {f.0}
  {
    assert f in fields + [f];
    forall k | k in KeysOf(fields) + {f.0} ensures k in KeysOf(fields + [f]) {
      if k in KeysOf(fields) {
        var g :| g in fields && g.0 == k;
        assert g in fields + [f];
      }
    }
  }
}
