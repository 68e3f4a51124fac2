/** Decimal numerals, as far as generated names need them. */
module Decimal {
  function Digit(d: nat): char
    requires d < 10
  {
    "0123456789"[d]
  }

  /** The numeral of `n`, without leading zeros. */
  function Numeral(n: nat): (s: string)
    ensures |s| > 0
  {
    if n < 10 then [Digit(n)] else Numeral(n / 10) + [Digit(n % 10)]
  }

  /** Reading a numeral digit by digit. */
  function Read(s: string): int {
    if |s| == 0 then 0 else 10 * Read(s[..|s| - 1]) + (s[|s| - 1] as int - '0' as int)
  }

  /** The numeral of a number reads as the number, in digits only and without a leading zero. */
  lemma {:induction false} NumeralReadsBack(n: nat)
    ensures Read(Numeral(n)) == n
    ensures forall c :: c in Numeral(n) ==> '0' <= c <= '9'
    ensures n > 0 ==> Numeral(n)[0] != '0'
  {
    if n < 10 {
      assert Numeral(n)[..0] == [];
    } else {
      NumeralReadsBack(n / 10);
      assert Numeral(n)[..|Numeral(n)| - 1] == Numeral(n / 10);
      assert Digit(n % 10) as int - '0' as int == n % 10;
    }
  }

  lemma {:induction false} NumeralIsInjective(m: nat, n: nat)
    requires Numeral(m) == Numeral(n)
    ensures m == n
    decreases m + n
  {
    var a, b := Numeral(m), Numeral(n);
    assert a[|a| - 1] == Digit(m % 10) && b[|b| - 1] == Digit(n % 10);
    if m >= 10 && n >= 10 {
      assert a[..|a| - 1] == Numeral(m / 10) && b[..|b| - 1] == Numeral(n / 10);
      NumeralIsInjective(m / 10, n / 10);
    }
  }

  /** Names with different numbers after the same stem differ. */
  lemma NumberedApart(stem: string, m: nat, n: nat, suffix: string)
    requires stem + Numeral(m) + suffix == stem + Numeral(n) + suffix
    ensures m == n
  {
    var a, b := stem + Numeral(m) + suffix, stem + Numeral(n) + suffix;
    assert |Numeral(m)| == |Numeral(n)|;
    assert a[|stem|..|stem| + |Numeral(m)|] == Numeral(m) && b[|stem|..|stem| + |Numeral(n)|] == Numeral(n);
    NumeralIsInjective(m, n);
  }

  /** A run of numbered names, all of them in a finite set, is no longer than the set. */
  lemma {:induction false} NumberedNamesCount(stem: string, suffix: string, first: nat, count: nat, names: set<string>)
    requires forall k :: first <= k < first + count ==> stem + Numeral(k) + suffix in names
    ensures count <= |names|
    decreases count
  {
    if count > 0 {
      var last := stem + Numeral(first + count - 1) + suffix;
      forall k | first <= k < first + count - 1 ensures stem + Numeral(k) + suffix in names - {last} {
        if stem + Numeral(k) + suffix == last {
          NumberedApart(stem, k, first + count - 1, suffix);
        }
      }
      NumberedNamesCount(stem, suffix, first, count - 1, names - {last});
    }
  }
}
