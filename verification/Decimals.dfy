/**
 Decimal digit strings and the numbers they write.
 */
module Decimals {

  predicate IsDigit(c: char) { '0' <= c <= '9' }

  predicate AllDigits(s: string) { forall i :: 0 <= i < |s| ==> IsDigit(s[i]) }

  function Digit(c: char): (d: nat)
    requires IsDigit(c)
    ensures d < 10
  {
    c as int - '0' as int
  }

  /** The number a digit string writes, leading zeros or not; BigInt(s). */
  function Value(s: string): nat
    requires AllDigits(s)
  {
    if s == "" then 0 else 10 * Value(s[..|s| - 1]) + Digit(s[|s| - 1])
  }

  function Pow10(n: nat): (p: nat)
    ensures p >= 1
  {
    if n == 0 then 1 else 10 * Pow10(n - 1)
  }

  /** The one spelling of a natural number without leading zeros. */
  predicate IsNumeral(s: string) {
    s != "" && AllDigits(s) && (s[0] == '0' ==> |s| == 1)
  }

  function Zeros(n: nat): (s: string)
    ensures |s| == n && forall i :: 0 <= i < n ==> s[i] == '0'
  {
    if n == 0 then "" else Zeros(n - 1) + "0"
  }

  lemma {:induction false} Pow10Adds(m: nat, n: nat)
    ensures Pow10(m + n) == Pow10(m) * Pow10(n)
  {
    if n > 0 {
      Pow10Adds(m, n - 1);
      calc {
        Pow10(m + n);
        10 * Pow10(m + n - 1);
        10 * (Pow10(m) * Pow10(n - 1));
        Pow10(m) * (10 * Pow10(n - 1));
        Pow10(m) * Pow10(n);
      }
    }
  }

  lemma {:induction false} Pow10Grows(m: nat, n: nat)
    requires m <= n
    ensures Pow10(m) <= Pow10(n)
    decreases n - m
  {
    if m < n { Pow10Grows(m, n - 1); }
  }

  lemma {:induction false} Spread(x: nat, p: nat, y: nat)
    ensures 10 * (x * p + y) == x * (10 * p) + 10 * y
  {
    assert x * (10 * p) == 10 * (x * p);
  }

  lemma {:induction false} ValueJoins(a: string, b: string)
    requires AllDigits(a) && AllDigits(b)
    ensures AllDigits(a + b) && Value(a + b) == Value(a) * Pow10(|b|) + Value(b)
    decreases |b|
  {
    if b == "" {
      assert a + b == a;
    } else {
      var m := |b| - 1;
      ValueJoins(a, b[..m]);
      assert (a + b)[..|a + b| - 1] == a + b[..m];
      Spread(Value(a), Pow10(m), Value(b[..m]));
    }
  }

  lemma {:induction false} ValueZeros(n: nat)
    ensures AllDigits(Zeros(n)) && Value(Zeros(n)) == 0
  {
    if n > 0 {
      ValueZeros(n - 1);
      assert Zeros(n)[..n - 1] == Zeros(n - 1);
    }
  }

  lemma {:induction false} ValueBounds(s: string)
    requires AllDigits(s)
    ensures Value(s) < Pow10(|s|)
    ensures s != "" && s[0] != '0' ==> Value(s) >= Pow10(|s| - 1)
  {
    if s != "" {
      var n := |s| - 1;
      ValueBounds(s[..n]);
      if n == 0 { assert Value(s[..0]) == 0; }
    }
  }

  /** The first digit decides before the rest do. */
  lemma {:induction false} ValueSplits(s: string)
    requires AllDigits(s) && s != ""
    ensures AllDigits(s[1..]) && Value(s) == Digit(s[0]) * Pow10(|s| - 1) + Value(s[1..])
  {
    assert s == s[..1] + s[1..];
    ValueJoins(s[..1], s[1..]);
    assert s[..1][..0] == "";
    assert Value(s[..1]) == Digit(s[0]);
  }

  /** n.toString(). */
  function Numeral(n: nat): string {
    if n < 10 then ['0' + n as char] else Numeral(n / 10) + ['0' + (n % 10) as char]
  }

  lemma {:induction false} NumeralReads(n: nat)
    ensures IsNumeral(Numeral(n)) && Value(Numeral(n)) == n
    ensures n > 0 ==> Numeral(n)[0] != '0'
  {
    if n < 10 {
      assert Value(Numeral(n)[..0]) == 0;
    } else {
      NumeralReads(n / 10);
      var s := Numeral(n);
      assert s[..|s| - 1] == Numeral(n / 10);
    }
  }

  /** A natural number has one numeral. */
  lemma {:induction false} NumeralUnique(s: string, t: string)
    requires IsNumeral(s) && IsNumeral(t) && Value(s) == Value(t)
    ensures s == t
  {
    var m, n := |s| - 1, |t| - 1;
    NumeralPrefix(s);
    NumeralPrefix(t);
    assert s == s[..m] + [s[m]] && t == t[..n] + [t[n]];
    if m > 0 && n > 0 {
      NumeralUnique(s[..m], t[..n]);
    } else {
      assert Value("") == 0;
      if m > 0 { assert false; }
      if n > 0 { assert false; }
    }
  }

  lemma {:induction false} NumeralPrefix(s: string)
    requires IsNumeral(s)
    ensures |s| > 1 ==> IsNumeral(s[..|s| - 1]) && Value(s[..|s| - 1]) >= 1 && Value(s) >= 10
    ensures |s| == 1 ==> Value(s) == Digit(s[0]) && s[..0] == ""
  {
    if |s| > 1 {
      ValueBounds(s[..|s| - 1]);
      assert s[..|s| - 1][0] == s[0];
      Pow10Grows(0, |s| - 2);
    } else {
      assert s[..0] == "";
    }
  }
}
