/**
 Exact decimal decisions from text (userland/src/nouns.ts): whether a JSON number literal is an
 integer beyond 2^53-1, and the pattern generated for "at most max".
 */
module NumberText {
  import opened JsonText
  import opened Options
  import opened Decimals

  const MAX_SAFE: nat := 9007199254740991
  const MAX_SAFE_DIGITS := "9007199254740991"

  // ------------------------------------------------------------------ the literal's grammar

  datatype Exponent = Exponent(marker: char, sign: string, digits: string)

  /** A number literal by its parts (RFC 8259, section 6). */
  datatype Literal = Literal(negative: bool, whole: string, frac: Option<string>, exp: Option<Exponent>)

  predicate ValidExp(e: Option<Exponent>) {
    e.Some? ==> e.value.marker in "eE" && e.value.sign in ["", "+", "-"] && e.value.digits != "" && AllDigits(e.value.digits)
  }

  predicate ValidLiteral(l: Literal) {
    && IsNumeral(l.whole)
    && (l.frac.Some? ==> l.frac.value != "" && AllDigits(l.frac.value))
    && ValidExp(l.exp)
  }

  function ExpText(e: Option<Exponent>): string {
    if e.None? then "" else [e.value.marker] + e.value.sign + e.value.digits
  }

  function FracText(f: Option<string>): string {
    if f.None? then "" else "." + f.value
  }

  /** A literal after its sign. */
  function Unsigned(l: Literal): string { l.whole + (FracText(l.frac) + ExpText(l.exp)) }

  function LiteralText(l: Literal): string {
    (if l.negative then "-" else "") + Unsigned(l)
  }

  /** How many digits `s` starts with. */
  function DigitRun(s: string): (n: nat)
    ensures n <= |s| && AllDigits(s[..n]) && (n < |s| ==> !IsDigit(s[n]))
  {
    if s == "" || !IsDigit(s[0]) then 0
    else
      var n := DigitRun(s[1..]);
      assert s[..1 + n] == [s[0]] + s[1..][..n];
      1 + n
  }

  function MatchExp(s: string): Option<Option<Exponent>> {
    if s == "" then Some(None)
    else if s[0] !in "eE" then None
    else
      var sign := if |s| > 1 && s[1] in "+-" then [s[1]] else "";
      var digits := s[1 + |sign|..];
      if digits == "" || !AllDigits(digits) then None else Some(Some(Exponent(s[0], sign, digits)))
  }

  function MatchFrac(s: string): Option<(Option<string>, Option<Exponent>)> {
    if s != "" && s[0] == '.' then
      var n := DigitRun(s[1..]);
      var e := MatchExp(s[1 + n..]);
      if n == 0 || e.None? then None else Some((Some(s[1..1 + n]), e.value))
    else
      var e := MatchExp(s);
      if e.None? then None else Some((None, e.value))
  }

  function MatchUnsigned(s: string, negative: bool): Option<Literal> {
    var n := if s != "" && s[0] == '0' then 1 else DigitRun(s);
    if n == 0 then None
    else
      var rest := MatchFrac(s[n..]);
      if rest.None? then None else Some(Literal(negative, s[..n], rest.value.0, rest.value.1))
  }

  /** NUMBER_TEXT.exec: the literal's parts, or None when the text is not a number. */
  function MatchNumber(source: string): Option<Literal> {
    if source != "" && source[0] == '-' then MatchUnsigned(source[1..], true) else MatchUnsigned(source, false)
  }

  lemma {:induction false} DigitRunStops(a: string, b: string)
    requires AllDigits(a) && (b == "" || !IsDigit(b[0]))
    ensures DigitRun(a + b) == |a|
  {
    if a == "" {
      assert a + b == b;
    } else {
      DigitRunStops(a[1..], b);
      assert (a + b)[1..] == a[1..] + b;
    }
  }

  lemma {:induction false} ExpReads(e: Option<Exponent>)
    requires ValidExp(e)
    ensures MatchExp(ExpText(e)) == Some(e)
  {
    if e.Some? {
      var s := ExpText(e);
      var x := e.value;
      assert s[0] == x.marker;
      if x.sign == "" {
        assert s[1] == x.digits[0];
        assert s[1..] == x.digits;
      } else {
        assert s[1] == x.sign[0];
        assert s[2..] == x.digits;
        assert [s[1]] == x.sign;
      }
    }
  }

  lemma {:induction false} ExpWrites(s: string)
    requires MatchExp(s).Some?
    ensures ExpText(MatchExp(s).value) == s
  {
    var e := MatchExp(s).value;
    if e.Some? {
      assert s == [s[0]] + s[1..];
      assert s[1..] == e.value.sign + e.value.digits;
    }
  }

  lemma {:induction false} ExpStart(e: Option<Exponent>)
    requires e.Some? ==> e.value.marker in "eE"
    ensures ExpText(e) == "" || (!IsDigit(ExpText(e)[0]) && ExpText(e)[0] != '.')
  {
    if e.Some? { assert ExpText(e)[0] == e.value.marker; }
  }

  lemma {:induction false} FracReads(l: Literal)
    requires ValidLiteral(l)
    ensures MatchFrac(FracText(l.frac) + ExpText(l.exp)) == Some((l.frac, l.exp))
  {
    var s := FracText(l.frac) + ExpText(l.exp);
    ExpReads(l.exp);
    ExpStart(l.exp);
    if l.frac.Some? {
      var f := l.frac.value;
      assert s[0] == '.' && s[1..] == f + ExpText(l.exp);
      DigitRunStops(f, ExpText(l.exp));
      assert s[1 + |f|..] == ExpText(l.exp) && s[1..1 + |f|] == f;
    } else {
      assert s == ExpText(l.exp);
    }
  }

  lemma {:induction false} FracWrites(s: string)
    requires MatchFrac(s).Some?
    ensures FracText(MatchFrac(s).value.0) + ExpText(MatchFrac(s).value.1) == s
  {
    if s != "" && s[0] == '.' {
      var n := DigitRun(s[1..]);
      ExpWrites(s[1 + n..]);
      assert s == "." + s[1..1 + n] + s[1 + n..];
    } else {
      ExpWrites(s);
      assert "" + s == s;
    }
  }

  lemma {:induction false} RestStart(l: Literal)
    requires ValidLiteral(l)
    ensures var r := FracText(l.frac) + ExpText(l.exp); r == "" || !IsDigit(r[0])
  {
    ExpStart(l.exp);
    if l.frac.Some? { assert (FracText(l.frac) + ExpText(l.exp))[0] == '.'; } else { assert FracText(l.frac) + ExpText(l.exp) == ExpText(l.exp); }
  }

  lemma {:induction false} UnsignedReads(l: Literal)
    requires ValidLiteral(l)
    ensures MatchUnsigned(Unsigned(l), l.negative) == Some(l) && Unsigned(l) != "" && Unsigned(l)[0] != '-'
  {
    var r := FracText(l.frac) + ExpText(l.exp);
    assert Unsigned(l)[0] == l.whole[0];
    RestStart(l);
    DigitRunStops(l.whole, r);
    FracReads(l);
    assert Unsigned(l)[|l.whole|..] == r && Unsigned(l)[..|l.whole|] == l.whole;
  }

  lemma {:induction false} UnsignedWrites(s: string, negative: bool)
    requires MatchUnsigned(s, negative).Some?
    ensures var l := MatchUnsigned(s, negative).value; Unsigned(l) == s && l.negative == negative
  {
    var l := MatchUnsigned(s, negative).value;
    var n := |l.whole|;
    assert l.whole == s[..n];
    FracWrites(s[n..]);
    assert FracText(l.frac) + ExpText(l.exp) == s[n..];
    assert s == s[..n] + s[n..];
  }

  lemma {:induction false} UnsignedValid(s: string, negative: bool)
    requires MatchUnsigned(s, negative).Some?
    ensures ValidLiteral(MatchUnsigned(s, negative).value)
  {
    var l := MatchUnsigned(s, negative).value;
    FracValid(s[|l.whole|..]);
    assert l.whole[0] == s[0];
  }

  /** Every literal of the grammar is matched as the parts it is made of. */
  lemma {:induction false} LiteralReads(l: Literal)
    requires ValidLiteral(l)
    ensures MatchNumber(LiteralText(l)) == Some(l)
  {
    UnsignedReads(l);
    if l.negative { assert LiteralText(l)[1..] == Unsigned(l); } else { assert LiteralText(l) == Unsigned(l); }
  }

  lemma {:induction false} MatchWrites(source: string)
    requires MatchNumber(source).Some?
    ensures LiteralText(MatchNumber(source).value) == source
  {
    if source != "" && source[0] == '-' {
      UnsignedWrites(source[1..], true);
      assert source == "-" + source[1..];
    } else {
      UnsignedWrites(source, false);
      assert "" + source == source;
    }
  }

  lemma {:induction false} ExpValid(s: string)
    requires MatchExp(s).Some?
    ensures ValidExp(MatchExp(s).value)
  {
    if s != "" && |s| > 1 && s[1] in "+-" { assert [s[1]] == "+" || [s[1]] == "-"; }
  }

  lemma {:induction false} FracValid(s: string)
    requires MatchFrac(s).Some?
    ensures ValidExp(MatchFrac(s).value.1)
    ensures MatchFrac(s).value.0.Some? ==> MatchFrac(s).value.0.value != "" && AllDigits(MatchFrac(s).value.0.value)
  {
    if s != "" && s[0] == '.' {
      var n := DigitRun(s[1..]);
      ExpValid(s[1 + n..]);
      assert s[1..1 + n] == s[1..][..n];
    } else {
      ExpValid(s);
    }
  }

  lemma {:induction false} MatchValid(source: string)
    requires MatchNumber(source).Some?
    ensures ValidLiteral(MatchNumber(source).value)
  {
    if source != "" && source[0] == '-' { UnsignedValid(source[1..], true); } else { UnsignedValid(source, false); }
  }

  /** The pattern matches exactly the number literals of the grammar. */
  lemma {:induction false} MatchIsGrammar(source: string, l: Literal)
    ensures MatchNumber(source) == Some(l) <==> ValidLiteral(l) && LiteralText(l) == source
  {
    if MatchNumber(source) == Some(l) { MatchWrites(source); MatchValid(source); }
    if ValidLiteral(l) && LiteralText(l) == source { LiteralReads(l); }
  }

  // ------------------------------------------------------------------ the decision

  function StripLeading(s: string): (r: string)
    ensures |r| <= |s|
  {
    if s != "" && s[0] == '0' then StripLeading(s[1..]) else s
  }

  function StripTrailing(s: string): (r: string)
    ensures |r| <= |s|
  {
    if s != "" && s[|s| - 1] == '0' then StripTrailing(s[..|s| - 1]) else s
  }

  function FracDigits(l: Literal): string { if l.frac.Some? then l.frac.value else "" }

  /** The digits of the whole and fraction parts, leading zeros and all. */
  function Mantissa(l: Literal): string { l.whole + FracDigits(l) }

  function ExpDigits(l: Literal): string { if l.exp.Some? then l.exp.value.digits else "0" }

  predicate NegativeExp(l: Literal) { l.exp.Some? && l.exp.value.sign == "-" }

  /** By digit count first, and at equal count as digit strings. */
  predicate CountAbove(core: string, exp: nat) {
    if |core| + exp != |MAX_SAFE_DIGITS| then |core| + exp > |MAX_SAFE_DIGITS|
    else Less(MAX_SAFE_DIGITS, core + Zeros(exp))
  }

  /** The verdict on nonzero digits: a long exponent is settled by its sign, a short one is added up. */
  predicate DigitsUnsafe(digits: string, magnitude: string, negative: bool, fracLength: nat)
    requires AllDigits(magnitude)
  {
    if |magnitude| > 15 then !negative
    else CoreAbove(digits, (if negative then -(Value(magnitude) as int) else Value(magnitude)) - fracLength)
  }

  /** `digits` times ten to the `e`, once its trailing zeros are counted into the exponent. */
  predicate CoreAbove(digits: string, e: int) {
    var core := StripTrailing(digits);
    var exp := e + (|digits| - |core|);
    exp >= 0 && CountAbove(core, exp)
  }

  /** isUnsafeIntegerLiteral: decided on digit strings of at most 16 characters. */
  predicate IsUnsafeIntegerLiteral(source: string) {
    var m := MatchNumber(source);
    if m.None? then true
    else
      MatchValid(source);
      LiteralUnsafe(m.value)
  }

  predicate LiteralUnsafe(l: Literal)
    requires ValidLiteral(l)
  {
    var digits := StripLeading(Mantissa(l));
    StripLeadingKeeps(ExpDigits(l));
    digits != "" && DigitsUnsafe(digits, StripLeading(ExpDigits(l)), NegativeExp(l), |FracDigits(l)|)
  }

  lemma {:induction false} StripLeadingKeeps(s: string)
    requires AllDigits(s)
    ensures AllDigits(StripLeading(s)) && Value(StripLeading(s)) == Value(s)
    ensures StripLeading(s) != "" ==> StripLeading(s)[0] != '0'
  {
    if s != "" && s[0] == '0' {
      ValueSplits(s);
      StripLeadingKeeps(s[1..]);
    }
  }

  lemma {:induction false} StripTrailingScales(s: string)
    requires AllDigits(s)
    ensures AllDigits(StripTrailing(s)) && Value(s) == Value(StripTrailing(s)) * Pow10(|s| - |StripTrailing(s)|)
    ensures StripTrailing(s) != "" ==> Value(StripTrailing(s)) % 10 != 0
    ensures s != "" && s[0] != '0' ==> StripTrailing(s) != "" && StripTrailing(s)[0] == s[0]
  {
    var n := |s| - 1;
    if s != "" && s[n] == '0' {
      StripTrailingScales(s[..n]);
      var r := StripTrailing(s[..n]);
      TenTimes(Value(r), Pow10(n - |r|));
    }
  }

  lemma {:induction false} TenTimes(x: nat, p: nat)
    ensures 10 * (x * p) == x * (10 * p)
  {}

  // ------------------------------------------------------------------ what the literal is worth

  /** The exponent of ten the mantissa is scaled by. */
  function Scale(l: Literal): int
    requires ValidLiteral(l)
  {
    (if NegativeExp(l) then -(Value(ExpDigits(l)) as int) else Value(ExpDigits(l))) - |FracDigits(l)|
  }

  /** `k` is exactly `n` times ten to the `e`. */
  predicate IsScaled(k: nat, n: nat, e: int) {
    if e >= 0 then k == n * Pow10(e) else k * Pow10(-e) == n
  }

  lemma {:induction false} MantissaDigits(l: Literal)
    requires ValidLiteral(l)
    ensures AllDigits(Mantissa(l))
  {}

  /** `n` times ten to the `e` is an integer above 2^53-1. */
  ghost predicate BigScaled(n: nat, e: int) {
    exists k: nat :: k > MAX_SAFE && IsScaled(k, n, e)
  }

  /** The literal's exact value is an integer of magnitude above 2^53-1. */
  ghost predicate IsBigInteger(l: Literal)
    requires ValidLiteral(l)
  {
    MantissaDigits(l);
    BigScaled(Value(Mantissa(l)), Scale(l))
  }

  lemma {:induction false} MulCancel(a: nat, b: nat, p: nat)
    requires p >= 1 && a * p == b * p
    ensures a == b
  {
  }

  lemma {:induction false} Reassociate(x: nat, p: nat, q: nat)
    ensures x * p * q == x * (p * q)
  {}

  lemma {:induction false} ShiftAcross(k: nat, c: nat, t: nat, e: int)
    requires e < 0 <= e + t
    ensures k * Pow10(-e) == c * Pow10(t) <==> k == c * Pow10(e + t)
  {
    Pow10Adds(e + t, -e);
    Reassociate(c, Pow10(e + t), Pow10(-e));
    if k * Pow10(-e) == c * Pow10(t) { MulCancel(k, c * Pow10(e + t), Pow10(-e)); }
  }

  lemma {:induction false} ShiftBelow(k: nat, c: nat, t: nat, e: int)
    requires e + t < 0
    ensures k * Pow10(-e) == c * Pow10(t) <==> k * Pow10(-(e + t)) == c
  {
    Pow10Adds(-(e + t), t);
    Reassociate(k, Pow10(-(e + t)), Pow10(t));
    if k * Pow10(-e) == c * Pow10(t) { MulCancel(k * Pow10(-(e + t)), c, Pow10(t)); }
  }

  /** Moving trailing zeros from the digits into the exponent leaves the value alone. */
  lemma {:induction false} ScaledShift(k: nat, c: nat, t: nat, e: int)
    ensures IsScaled(k, c * Pow10(t), e) <==> IsScaled(k, c, e + t)
  {
    if e >= 0 {
      Pow10Adds(t, e);
      Reassociate(c, Pow10(t), Pow10(e));
    } else if e + t >= 0 {
      ShiftAcross(k, c, t, e);
    } else {
      ShiftBelow(k, c, t, e);
    }
  }

  /** A number whose last digit is not 0 has no integer behind a negative exponent. */
  lemma {:induction false} NotScaled(k: nat, c: nat, e: int)
    requires e < 0 && c % 10 != 0
    ensures !IsScaled(k, c, e)
  {
    assert Pow10(-e) == 10 * Pow10(-e - 1);
    assert k * Pow10(-e) == 10 * (k * Pow10(-e - 1));
  }

  lemma {:induction false} ZeroScaled(k: nat, e: int)
    requires IsScaled(k, 0, e)
    ensures k == 0
  {
  }

  // ------------------------------------------------------------------ the decision is right

  lemma {:induction false} StepUp(d: nat, e: nat, p: nat)
    requires d < e
    ensures d * p + p <= e * p
  {
    if d + 1 < e { StepUp(d, e - 1, p); }
    assert e * p == (e - 1) * p + p;
  }

  /** Digit strings of one length compare as the numbers they write. */
  lemma {:induction false} LessIsSmaller(a: string, b: string)
    requires AllDigits(a) && AllDigits(b) && |a| == |b|
    ensures Less(a, b) <==> Value(a) < Value(b)
  {
    if a != "" {
      var p := Pow10(|a| - 1);
      ValueSplits(a);
      ValueSplits(b);
      ValueBounds(a[1..]);
      ValueBounds(b[1..]);
      LessIsSmaller(a[1..], b[1..]);
      if Digit(a[0]) < Digit(b[0]) { StepUp(Digit(a[0]), Digit(b[0]), p); }
      if Digit(b[0]) < Digit(a[0]) { StepUp(Digit(b[0]), Digit(a[0]), p); }
    }
  }

  lemma {:induction false} MaxSafeText()
    ensures |MAX_SAFE_DIGITS| == 16 && AllDigits(MAX_SAFE_DIGITS) && Value(MAX_SAFE_DIGITS) == MAX_SAFE
    ensures Pow10(15) <= MAX_SAFE < Pow10(16)
  {
    var s := MAX_SAFE_DIGITS;
    var a, b := "90071992", "54740991";
    assert s == a + b;
    ValueJoins(a, b);
    EightDigits(a);
    EightDigits(b);
    assert Pow10(8) == 100000000;
    Pow10Adds(8, 7);
    Pow10Adds(8, 8);
  }

  lemma {:induction false} EightDigits(s: string)
    requires |s| == 8 && AllDigits(s)
    ensures Value(s) == 10000000 * Digit(s[0]) + 1000000 * Digit(s[1]) + 100000 * Digit(s[2]) + 10000 * Digit(s[3])
      + 1000 * Digit(s[4]) + 100 * Digit(s[5]) + 10 * Digit(s[6]) + Digit(s[7])
  {
    var t := s[..4];
    assert s == t + s[4..];
    ValueJoins(t, s[4..]);
    assert Pow10(4) == 10000;
    FourDigits(t);
    FourDigits(s[4..]);
  }

  lemma {:induction false} FourDigits(s: string)
    requires |s| == 4 && AllDigits(s)
    ensures Value(s) == 1000 * Digit(s[0]) + 100 * Digit(s[1]) + 10 * Digit(s[2]) + Digit(s[3])
  {
    assert s[..3][..2] == s[..2] && s[..2][..1] == s[..1] && s[..1][..0] == "";
    assert Value(s[..1]) == Digit(s[0]);
    assert Value(s[..2]) == 10 * Value(s[..1]) + Digit(s[1]);
    assert Value(s[..3]) == 10 * Value(s[..2]) + Digit(s[2]);
  }

  /** Counting digits, then comparing them, is comparing the numbers. */
  lemma {:induction false} CountDecides(core: string, exp: nat)
    requires AllDigits(core) && core != "" && core[0] != '0'
    ensures Value(core) * Pow10(exp) > MAX_SAFE <==> CountAbove(core, exp)
  {
    var s := core + Zeros(exp);
    ValueZeros(exp);
    ValueJoins(core, Zeros(exp));
    ValueBounds(s);
    MaxSafeText();
    if |s| < 16 { Pow10Grows(|s|, 15); }
    if |s| > 16 { Pow10Grows(16, |s| - 1); }
    if |s| == 16 { LessIsSmaller(MAX_SAFE_DIGITS, s); }
  }

  lemma {:induction false} BigShift(c: nat, t: nat, e: int)
    ensures BigScaled(c * Pow10(t), e) <==> BigScaled(c, e + t)
  {
    if BigScaled(c * Pow10(t), e) {
      var k: nat :| k > MAX_SAFE && IsScaled(k, c * Pow10(t), e);
      ScaledShift(k, c, t, e);
    }
    if BigScaled(c, e + t) {
      var k: nat :| k > MAX_SAFE && IsScaled(k, c, e + t);
      ScaledShift(k, c, t, e);
    }
  }

  /** Core digits times a power of ten: an integer above the bound, or not. */
  lemma {:induction false} BigCore(core: string, exp: int)
    requires AllDigits(core) && core != "" && core[0] != '0' && Value(core) % 10 != 0
    ensures BigScaled(Value(core), exp) <==> exp >= 0 && CountAbove(core, exp)
  {
    if exp < 0 {
      forall k: nat ensures !IsScaled(k, Value(core), exp) { NotScaled(k, Value(core), exp); }
    } else {
      CountDecides(core, exp);
      assert IsScaled(Value(core) * Pow10(exp), Value(core), exp);
    }
  }

  lemma {:induction false} BigZero(e: int)
    ensures !BigScaled(0, e)
  {
    forall k: nat | IsScaled(k, 0, e) ensures k == 0 { ZeroScaled(k, e); }
  }

  lemma {:induction false} PartsShort(source: string)
    requires MatchNumber(source).Some?
    ensures |Mantissa(MatchNumber(source).value)| <= |source|
  {
    MatchWrites(source);
    var l := MatchNumber(source).value;
    var f, e := FracText(l.frac), ExpText(l.exp);
    assert |f| >= |FracDigits(l)|;
    assert |f + e| >= |f|;
    assert |l.whole + (f + e)| == |l.whole| + |f + e|;
  }

  /**
   A written exponent of more than 15 digits is settled by its sign: no source shorter than 10^14
   characters moves the point back.
   */
  lemma {:induction false} HugeExponent(l: Literal, magnitude: string)
    requires ValidLiteral(l) && |Mantissa(l)| < Pow10(14)
    requires AllDigits(magnitude) && Value(magnitude) == Value(ExpDigits(l)) && |magnitude| > 15 && magnitude[0] != '0'
    ensures if NegativeExp(l) then Scale(l) + |Mantissa(l)| < 0 else Scale(l) > 16
  {
    ValueBounds(magnitude);
    Pow10Grows(15, |magnitude| - 1);
    assert Pow10(15) == 10 * Pow10(14);
    Pow10Grows(2, 14);
    assert Pow10(2) == 100;
    assert |FracDigits(l)| <= |Mantissa(l)|;
  }

  /**
   The decision is exact: a literal is called unsafe exactly when the number it writes is an integer
   of magnitude above 2^53-1, whatever the mix of fraction, exponent and zeros. Text that is no
   number literal is called unsafe.
   */
  lemma {:induction false} UnsafeIsExact(source: string)
    requires |source| < Pow10(14)
    ensures MatchNumber(source).None? ==> IsUnsafeIntegerLiteral(source)
    ensures MatchNumber(source).Some? ==> ValidLiteral(MatchNumber(source).value)
    ensures MatchNumber(source).Some? ==> (IsUnsafeIntegerLiteral(source) <==> IsBigInteger(MatchNumber(source).value))
  {
    if MatchNumber(source).Some? {
      var l := MatchNumber(source).value;
      MatchValid(source);
      MantissaDigits(l);
      PartsShort(source);
      UnsafeDecides(l);
    }
  }

  lemma {:induction false} UnsafeDecides(l: Literal)
    requires ValidLiteral(l) && AllDigits(Mantissa(l)) && |Mantissa(l)| < Pow10(14)
    ensures LiteralUnsafe(l) <==> BigScaled(Value(Mantissa(l)), Scale(l))
  {
    var digits := StripLeading(Mantissa(l));
    StripLeadingKeeps(Mantissa(l));
    if digits == "" {
      BigZero(Scale(l));
    } else {
      StripLeadingKeeps(ExpDigits(l));
      DigitsDecide(l, digits, StripLeading(ExpDigits(l)));
    }
  }

  lemma {:induction false} DigitsScaled(digits: string, e: int)
    requires AllDigits(digits) && digits != "" && digits[0] != '0'
    ensures BigScaled(Value(digits), e) <==> CoreAbove(digits, e)
  {
    var core := StripTrailing(digits);
    StripTrailingScales(digits);
    BigShift(Value(core), |digits| - |core|, e);
    BigCore(core, e + |digits| - |core|);
  }

  lemma {:induction false} LongExponentDecides(l: Literal, digits: string, magnitude: string)
    requires ValidLiteral(l) && |digits| <= |Mantissa(l)| < Pow10(14) && digits != ""
    requires AllDigits(magnitude) && Value(magnitude) == Value(ExpDigits(l)) && |magnitude| > 15 && magnitude[0] != '0'
    ensures DigitsUnsafe(digits, magnitude, NegativeExp(l), |FracDigits(l)|) <==> CoreAbove(digits, Scale(l))
  {
    HugeExponent(l, magnitude);
  }

  lemma {:induction false} DigitsDecide(l: Literal, digits: string, magnitude: string)
    requires ValidLiteral(l) && |digits| <= |Mantissa(l)| < Pow10(14)
    requires AllDigits(digits) && digits != "" && digits[0] != '0'
    requires AllDigits(magnitude) && Value(magnitude) == Value(ExpDigits(l)) && (magnitude != "" ==> magnitude[0] != '0')
    ensures DigitsUnsafe(digits, magnitude, NegativeExp(l), |FracDigits(l)|) <==> BigScaled(Value(digits), Scale(l))
  {
    DigitsScaled(digits, Scale(l));
    if |magnitude| > 15 { LongExponentDecides(l, digits, magnitude); }
  }
}
