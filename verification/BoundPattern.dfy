/**
 The pattern generated for "a canonical decimal numeral of at most max"
 (userland/src/nouns.ts, `decimalAtMost`), as the alternatives of character classes it is built of.
 */
module BoundPattern {
  import opened JsonText
  import opened Options
  import opened Decimals
  import opened NumberText

  /** A character class and how many characters it takes: `[1-9]`, `[0-9]?`, `[0-9]{0,3}`. */
  datatype Piece = Piece(lo: char, hi: char, least: nat, most: nat)

  predicate InClass(p: Piece, s: string) { forall i :: 0 <= i < |s| ==> p.lo <= s[i] <= p.hi }

  /** An anchored alternative takes the whole of `s`, class by class. */
  ghost predicate Matches(alt: seq<Piece>, s: string)
    decreases |alt|
  {
    if alt == [] then s == ""
    else exists k :: 0 <= k <= |s| && Takes(alt[0], s, k) && Matches(alt[1..], s[k..])
  }

  predicate Takes(p: Piece, s: string, k: nat)
    requires k <= |s|
  {
    p.least <= k <= p.most && InClass(p, s[..k])
  }

  ghost predicate Accepts(alts: seq<seq<Piece>>, s: string) {
    exists i :: 0 <= i < |alts| && Matches(alts[i], s)
  }

  function Exactly(c: char): Piece { Piece(c, c, 1, 1) }

  /** A literal run of characters. */
  function Run(d: string): seq<Piece> {
    seq(|d|, i requires 0 <= i < |d| => Exactly(d[i]))
  }

  /** `rest` more digits; nothing at all for none. */
  function Digits(rest: nat): seq<Piece> {
    if rest == 0 then [] else [Piece('0', '9', rest, rest)]
  }

  /** Digit `i` of the bound gives way to a smaller one: from 1 in front, from 0 after that. */
  function Lowest(i: nat): char { if i == 0 then '1' else '0' }

  function Before(c: char): char { if '0' < c <= '9' then (c as int - 1) as char else '0' }

  function BelowAt(d: string, i: nat): seq<Piece>
    requires i < |d| && Lowest(i) < d[i]
  {
    Run(d[..i]) + ([Piece(Lowest(i), Before(d[i]), 1, 1)] + Digits(|d| - i - 1))
  }

  /** `s` agrees with `d` before `i`, is smaller there, and has `d`'s length. */
  predicate SmallerAt(d: string, i: nat, s: string)
    requires i < |d|
  {
    |s| == |d| && AllDigits(s) && s[..i] == d[..i] && Lowest(i) <= s[i] < d[i]
  }

  // ------------------------------------------------------------------ what each alternative takes

  lemma {:induction false} MatchOne(p: Piece, rest: seq<Piece>, s: string)
    requires p.least == p.most == 1
    ensures Matches([p] + rest, s) <==> s != "" && p.lo <= s[0] <= p.hi && Matches(rest, s[1..])
  {
    var alt := [p] + rest;
    assert alt[1..] == rest;
    if Matches(alt, s) {
      var k :| 0 <= k <= |s| && Takes(alt[0], s, k) && Matches(alt[1..], s[k..]);
      assert s[..k][0] == s[0];
    }
    if s != "" && p.lo <= s[0] <= p.hi && Matches(rest, s[1..]) {
      assert Takes(alt[0], s, 1);
    }
  }

  lemma {:induction false} MatchLast(p: Piece, s: string)
    ensures Matches([p], s) <==> p.least <= |s| <= p.most && InClass(p, s)
  {
    assert [p][1..] == [];
    if Matches([p], s) {
      var k :| 0 <= k <= |s| && Takes([p][0], s, k) && Matches([p][1..], s[k..]);
      assert s[..k] == s;
    }
    if p.least <= |s| <= p.most && InClass(p, s) {
      assert s[..|s|] == s && s[|s|..] == "";
      assert Takes([p][0], s, |s|);
    }
  }

  lemma {:induction false} MatchDigits(rest: nat, s: string)
    ensures Matches(Digits(rest), s) <==> |s| == rest && AllDigits(s)
  {
    if rest > 0 { MatchLast(Piece('0', '9', rest, rest), s); }
  }

  lemma {:induction false} MatchRun(d: string, rest: seq<Piece>, s: string)
    ensures Matches(Run(d) + rest, s) <==> |d| <= |s| && s[..|d|] == d && Matches(rest, s[|d|..])
    decreases |d|
  {
    if d == "" {
      assert Run(d) + rest == rest && s[0..] == s;
    } else {
      assert Run(d) + rest == [Exactly(d[0])] + (Run(d[1..]) + rest);
      MatchOne(Exactly(d[0]), Run(d[1..]) + rest, s);
      if s != "" && s[0] == d[0] {
        MatchRun(d[1..], rest, s[1..]);
        assert d == [d[0]] + d[1..];
        if |d| <= |s| {
          assert s[1..][|d| - 1..] == s[|d|..];
          assert s[..|d|] == [s[0]] + s[1..][..|d| - 1];
        }
      }
    }
  }

  /** The alternative built for position `i` takes exactly the digit strings that first fall below `d` there. */
  lemma {:induction false} MatchBelow(d: string, i: nat, s: string)
    requires AllDigits(d) && i < |d| && Lowest(i) < d[i]
    ensures Matches(BelowAt(d, i), s) <==> SmallerAt(d, i, s)
  {
    var p := Piece(Lowest(i), Before(d[i]), 1, 1);
    MatchRun(d[..i], [p] + Digits(|d| - i - 1), s);
    if i <= |s| {
      MatchDigitThen(p, |d| - i - 1, s[i..]);
      DigitsJoin(d, s, i);
    }
  }

  lemma {:induction false} MatchDigitThen(p: Piece, rest: nat, s: string)
    requires p.least == p.most == 1
    ensures Matches([p] + Digits(rest), s) <==> |s| == 1 + rest && p.lo <= s[0] <= p.hi && AllDigits(s[1..])
  {
    MatchOne(p, Digits(rest), s);
    if s != "" { MatchDigits(rest, s[1..]); }
  }

  lemma {:induction false} DigitsJoin(d: string, s: string, i: nat)
    requires AllDigits(d) && i < |d| && i <= |s|
    ensures s[..i] == d[..i] && |s| == |d| && IsDigit(s[i]) ==> (AllDigits(s[i..][1..]) <==> AllDigits(s))
  {
    if s[..i] == d[..i] && |s| == |d| && IsDigit(s[i]) {
      if AllDigits(s) { forall k | 0 <= k < |s[i..][1..]| ensures IsDigit(s[i..][1..][k]) { assert s[i..][1..][k] == s[i + 1 + k]; } }
      if AllDigits(s[i..][1..]) {
        forall k | 0 <= k < |s| ensures IsDigit(s[k]) {
          if k < i { assert s[k] == d[..i][k]; } else if k > i { assert s[k] == s[i..][1..][k - i - 1]; }
        }
      }
    }
  }

  lemma {:induction false} AcceptsPush(alts: seq<seq<Piece>>, a: seq<Piece>, s: string)
    ensures Accepts(alts + [a], s) <==> Accepts(alts, s) || Matches(a, s)
  {
    var more := alts + [a];
    if Accepts(alts, s) {
      var i :| 0 <= i < |alts| && Matches(alts[i], s);
      assert more[i] == alts[i];
    }
    if Matches(a, s) { assert more[|alts|] == a; }
  }

  // ------------------------------------------------------------------ numerals against the bound

  /** Numerals with fewer digits than `n`; of two-digit bounds, every numeral of one or two. */
  predicate Shorter(n: nat, s: string) {
    s != "" && AllDigits(s) && s[0] != '0' && |s| <= (if n == 2 then 2 else n - 1)
  }

  ghost predicate SmallerBefore(d: string, i: nat, s: string)
    requires i <= |d|
  {
    exists j :: 0 <= j < i && SmallerAt(d, j, s)
  }

  lemma {:induction false} LessSomewhere(d: string, s: string, j: nat)
    requires j < |d| && |s| == |d| && s[..j] == d[..j] && s[j] < d[j]
    ensures Less(s, d)
  {
    if j > 0 {
      assert s[0] == s[..j][0] == d[..j][0];
      assert s[1..][..j - 1] == s[..j][1..] && d[1..][..j - 1] == d[..j][1..];
      LessSomewhere(d[1..], s[1..], j - 1);
    }
  }

  lemma {:induction false} LessAt(d: string, s: string) returns (j: nat)
    requires Less(s, d) && |s| == |d|
    ensures j < |d| && s[..j] == d[..j] && s[j] < d[j]
  {
    if s[0] < d[0] {
      j := 0;
    } else {
      var k := LessAt(d[1..], s[1..]);
      j := k + 1;
      assert s[..j] == [s[0]] + s[1..][..k] && d[..j] == [d[0]] + d[1..][..k];
    }
  }

  /** Falling below `d` somewhere is being a smaller numeral of the same length. */
  lemma {:induction false} SmallerIsLess(d: string, s: string)
    requires IsNumeral(d)
    ensures SmallerBefore(d, |d|, s) && s[0] != '0' <==> |s| == |d| && AllDigits(s) && s[0] != '0' && Value(s) < Value(d)
    ensures SmallerBefore(d, |d|, s) ==> s[0] != '0'
  {
    if SmallerBefore(d, |d|, s) {
      var j :| 0 <= j < |d| && SmallerAt(d, j, s);
      LessSomewhere(d, s, j);
      LessIsSmaller(s, d);
      if j > 0 { assert s[0] == s[..j][0] == d[..j][0]; NumeralPrefix(d); }
    }
    if |s| == |d| && AllDigits(s) && s[0] != '0' && Value(s) < Value(d) {
      LessIsSmaller(s, d);
      var j := LessAt(d, s);
      assert SmallerAt(d, j, s);
    }
  }

  /** The largest number the pattern lets through. */
  function Ceiling(max: nat): nat { if 10 <= max <= 99 then 99 else max }

  predicate AtMost(s: string, bound: nat) { IsNumeral(s) && Value(s) <= bound }

  /** Zero, the shorter numerals, the smaller ones of the same length and the bound itself: all of them. */
  lemma {:induction false} CeilingReached(d: string, s: string)
    requires IsNumeral(d)
    ensures s == "0" || (|d| >= 2 && Shorter(|d|, s)) || SmallerBefore(d, |d|, s) || (Value(d) > 0 && s == d)
      <==> AtMost(s, Ceiling(Value(d)))
  {
    SmallerIsLess(d, s);
    ValueBounds(d);
    NumeralPrefix(d);
    assert Pow10(2) == 100 && Pow10(1) == 10;
    if s == "0" { NumeralPrefix(s); }
    if s != "" && AllDigits(s) { ValueBounds(s); }
    if |s| < |d| { Pow10Grows(|s|, |d| - 1); }
    if |s| > |d| { Pow10Grows(|d|, |s| - 1); }
    if |d| != 2 && |d| > 1 { Pow10Grows(2, |d| - 1); }
    if AtMost(s, Ceiling(Value(d))) && |s| == |d| && Value(s) == Value(d) { NumeralUnique(s, d); }
    if AtMost(s, Ceiling(Value(d))) && s[0] == '0' { assert s == "0"; }
  }

  lemma {:induction false} MatchShorter(n: nat, s: string)
    requires n >= 2
    ensures Matches([Piece('1', '9', 1, 1), Piece('0', '9', 0, if n == 2 then 1 else n - 2)], s) <==> Shorter(n, s)
  {
    var first, more := Piece('1', '9', 1, 1), Piece('0', '9', 0, if n == 2 then 1 else n - 2);
    assert [first, more] == [first] + [more];
    MatchOne(first, [more], s);
    if s != "" { MatchLast(more, s[1..]); }
  }

  lemma {:induction false} SmallerStep(d: string, i: nat, s: string)
    requires i < |d|
    ensures SmallerBefore(d, i + 1, s) <==> SmallerBefore(d, i, s) || SmallerAt(d, i, s)
  {
    if SmallerBefore(d, i, s) {
      var j :| 0 <= j < i && SmallerAt(d, j, s);
      assert 0 <= j < i + 1;
    }
  }

  /** What the alternatives take once the first `i` digits of `d` have been worked through. */
  ghost predicate UpTo(d: string, i: nat, s: string)
    requires i <= |d|
  {
    s == "0" || (|d| >= 2 && Shorter(|d|, s)) || SmallerBefore(d, i, s)
  }

  ghost predicate TakesUpTo(alts: seq<seq<Piece>>, d: string, i: nat)
    requires i <= |d|
  {
    forall s :: Accepts(alts, s) <==> UpTo(d, i, s)
  }

  lemma {:induction false} TakesZero(s: string)
    ensures Accepts([[Exactly('0')]], s) <==> s == "0"
  {
    AcceptsPush([], [Exactly('0')], s);
    assert [] + [[Exactly('0')]] == [[Exactly('0')]];
    MatchLast(Exactly('0'), s);
  }

  lemma {:induction false} TakesStep(alts: seq<seq<Piece>>, d: string, i: nat)
    requires AllDigits(d) && i < |d| && TakesUpTo(alts, d, i)
    ensures TakesUpTo(if Lowest(i) < d[i] then alts + [BelowAt(d, i)] else alts, d, i + 1)
  {
    var more := if Lowest(i) < d[i] then alts + [BelowAt(d, i)] else alts;
    forall s ensures Accepts(more, s) <==> UpTo(d, i + 1, s) {
      SmallerStep(d, i, s);
      assert Accepts(alts, s) <==> UpTo(d, i, s);
      if Lowest(i) < d[i] {
        AcceptsPush(alts, BelowAt(d, i), s);
        MatchBelow(d, i, s);
      }
    }
  }

  lemma {:induction false} TakesAll(alts: seq<seq<Piece>>, d: string, s: string)
    requires IsNumeral(d) && TakesUpTo(alts, d, |d|)
    ensures Accepts(if Value(d) > 0 then alts + [Run(d)] else alts, s) <==> AtMost(s, Ceiling(Value(d)))
  {
    assert Accepts(alts, s) <==> UpTo(d, |d|, s);
    AcceptsPush(alts, Run(d), s);
    MatchRun(d, [], s);
    assert Run(d) + [] == Run(d);
    if |s| == |d| { assert s[..|d|] == s; }
    CeilingReached(d, s);
  }

  /** The pattern is exact for every bound but a two-digit one short of 99, such as 42, which takes "99". */
  lemma {:induction false} ExactWhen(alts: seq<seq<Piece>>, max: nat)
    requires forall s :: Accepts(alts, s) <==> AtMost(s, Ceiling(max))
    ensures (forall s :: Accepts(alts, s) <==> AtMost(s, max)) <==> max < 10 || max >= 99
    ensures max == 42 ==> Accepts(alts, "99") && !AtMost("99", max)
  {
    assert "99"[..1][..0] == "";
    assert Value("99"[..1]) == 9;
    assert Value("99") == 99;
    assert Accepts(alts, "99") <==> AtMost("99", Ceiling(max));
  }

  /**
   decimalAtMost: the pattern takes exactly the canonical numerals up to `max`, except that a
   two-digit `max` lets every two-digit numeral through.
   */
  method DecimalAtMost(max: nat) returns (alts: seq<seq<Piece>>)
    ensures forall s :: Accepts(alts, s) <==> AtMost(s, Ceiling(max))
    ensures (forall s :: Accepts(alts, s) <==> AtMost(s, max)) <==> max < 10 || max >= 99
  {
    var d := Numeral(max);
    NumeralReads(max);
    var n := |d|;
    alts := [[Exactly('0')]];
    if n >= 2 {
      alts := alts + [[Piece('1', '9', 1, 1), Piece('0', '9', 0, if n == 2 then 1 else n - 2)]];
    }
    TakesShort(d);
    var i := 0;
    while i < n
      invariant 0 <= i <= n
      invariant TakesUpTo(alts, d, i)
    {
      TakesStep(alts, d, i);
      if Lowest(i) < d[i] { alts := alts + [BelowAt(d, i)]; }
      i := i + 1;
    }
    forall s ensures Accepts(if max > 0 then alts + [Run(d)] else alts, s) <==> AtMost(s, Ceiling(max)) {
      TakesAll(alts, d, s);
    }
    if max > 0 { alts := alts + [Run(d)]; }
    ExactWhen(alts, max);
  }

  lemma {:induction false} TakesShort(d: string)
    requires d != ""
    ensures TakesUpTo(if |d| >= 2 then [[Exactly('0')]] + [[Piece('1', '9', 1, 1), Piece('0', '9', 0, if |d| == 2 then 1 else |d| - 2)]]
                      else [[Exactly('0')]], d, 0)
  {
    var n := |d|;
    var short := [Piece('1', '9', 1, 1), Piece('0', '9', 0, if n <= 2 then 1 else n - 2)];
    forall s ensures Accepts(if n >= 2 then [[Exactly('0')]] + [short] else [[Exactly('0')]], s) <==> UpTo(d, 0, s) {
      TakesZero(s);
      AcceptsPush([[Exactly('0')]], short, s);
      if n >= 2 { MatchShorter(n, s); }
    }
  }
}
