/**
 Text as JavaScript holds it: a sequence of UTF-16 code units, so that lengths, slices and lone
 surrogates are its own.
 */
module CodeUnits {

  type Units = seq<nat>

  /** The units of an ASCII text. */
  function Ascii(s: string): (u: Units)
    ensures |u| == |s| && forall i :: 0 <= i < |s| ==> u[i] == s[i] as nat
  {
    seq(|s|, i requires 0 <= i < |s| => s[i] as nat)
  }

  lemma {:induction false} AsciiJoins(a: string, b: string)
    ensures Ascii(a + b) == Ascii(a) + Ascii(b)
  {}

  /** What `\s` and `trim` take for white space. */
  predicate IsSpace(u: nat) {
    9 <= u <= 13 || u == 32 || u == 160 || u == 0x1680 || 0x2000 <= u <= 0x200A || u == 0x2028 || u == 0x2029
    || u == 0x202F || u == 0x205F || u == 0x3000 || u == 0xFEFF
  }

  function TrimLeft(u: Units): (r: Units)
    ensures |r| <= |u| && (r != [] ==> !IsSpace(r[0]))
  {
    if u != [] && IsSpace(u[0]) then TrimLeft(u[1..]) else u
  }

  function TrimRight(u: Units): (r: Units)
    ensures |r| <= |u| && (r != [] ==> !IsSpace(r[|r| - 1]))
  {
    if u != [] && IsSpace(u[|u| - 1]) then TrimRight(u[..|u| - 1]) else u
  }

  function Trim(u: Units): (r: Units)
    ensures |r| <= |u|
  {
    TrimRight(TrimLeft(u))
  }

  /** No white space at either end. */
  predicate Trimmed(u: Units) { u != [] ==> !IsSpace(u[0]) && !IsSpace(u[|u| - 1]) }

  lemma {:induction false} TrimLeftStops(gap: Units, u: Units)
    requires (forall i :: 0 <= i < |gap| ==> IsSpace(gap[i])) && u != [] && !IsSpace(u[0])
    ensures TrimLeft(gap + u) == u
  {
    if gap == [] {
      assert gap + u == u;
    } else {
      TrimLeftStops(gap[1..], u);
      assert (gap + u)[1..] == gap[1..] + u;
    }
  }

  lemma {:induction false} TrimRightStops(u: Units, gap: Units)
    requires (forall i :: 0 <= i < |gap| ==> IsSpace(gap[i])) && u != [] && !IsSpace(u[|u| - 1])
    ensures TrimRight(u + gap) == u
  {
    if gap == [] {
      assert u + gap == u;
    } else {
      var n := |gap| - 1;
      TrimRightStops(u, gap[..n]);
      assert (u + gap)[..|u| + n] == u + gap[..n];
    }
  }

  /** Trimming takes the white space around a text and no more. */
  lemma {:induction false} TrimSurrounded(before: Units, u: Units, after: Units)
    requires forall i :: 0 <= i < |before| ==> IsSpace(before[i])
    requires forall i :: 0 <= i < |after| ==> IsSpace(after[i])
    requires u != [] && Trimmed(u)
    ensures Trim(before + u + after) == u
  {
    assert before + u + after == before + (u + after);
    TrimLeftStops(before, u + after);
    TrimRightStops(u, after);
  }

  /** `u` in front of the first of the parts. */
  function Lead(u: Units, parts: seq<Units>): (r: seq<Units>)
    requires parts != []
    ensures r != []
  {
    [u + parts[0]] + parts[1..]
  }

  lemma {:induction false} LeadTwice(a: Units, b: Units, parts: seq<Units>)
    requires parts != []
    ensures Lead(a, Lead(b, parts)) == Lead(a + b, parts)
  {
    assert a + (b + parts[0]) == a + b + parts[0];
  }

  lemma {:induction false} LeadApart(u: Units, a: seq<Units>, b: seq<Units>)
    requires a != []
    ensures Lead(u, a + b) == Lead(u, a) + b
  {
    assert (a + b)[1..] == a[1..] + b;
  }

  /** A separator: s.split(one unit). */
  function Split(u: Units, at: nat): (parts: seq<Units>)
    ensures |parts| >= 1
  {
    if u == [] then [[]]
    else
      var rest := Split(u[1..], at);
      if u[0] == at then [[]] + rest else Lead([u[0]], rest)
  }

  function Glue(parts: seq<Units>, at: nat): Units {
    if parts == [] then [] else if |parts| == 1 then parts[0] else parts[0] + [at] + Glue(parts[1..], at)
  }

  /** Text without the separator joins the first part of what follows. */
  lemma {:induction false} SplitLead(a: Units, b: Units, at: nat)
    requires at !in a
    ensures Split(a + b, at) == Lead(a, Split(b, at))
  {
    if a == [] {
      assert a + b == b;
      assert [] + Split(b, at)[0] == Split(b, at)[0];
    } else {
      SplitLead(a[1..], b, at);
      assert (a + b)[1..] == a[1..] + b;
      LeadTwice([a[0]], a[1..], Split(b, at));
      assert [a[0]] + a[1..] == a;
    }
  }

  lemma {:induction false} SplitFirst(a: Units, at: nat, rest: Units)
    requires at !in a
    ensures Split(a + [at] + rest, at) == [a] + Split(rest, at)
    ensures Split(a, at) == [a]
  {
    SplitLead(a, [at] + rest, at);
    assert a + [at] + rest == a + ([at] + rest);
    assert ([at] + rest)[1..] == rest;
    assert a + [] == a;
    SplitLead(a, [], at);
  }

  /** Splitting undoes joining, for parts that do not hold the separator. */
  lemma {:induction false} SplitJoin(parts: seq<Units>, at: nat)
    requires parts != [] && forall i :: 0 <= i < |parts| ==> at !in parts[i]
    ensures Split(Glue(parts, at), at) == parts
  {
    if |parts| == 1 {
      SplitFirst(parts[0], at, []);
    } else {
      SplitJoin(parts[1..], at);
      SplitFirst(parts[0], at, Glue(parts[1..], at));
    }
  }

  lemma {:induction false} SplitApart(a: Units, at: nat, b: Units)
    ensures Split(a + [at] + b, at) == Split(a, at) + Split(b, at)
  {
    if a == [] {
      assert a + [at] + b == [at] + b;
      assert ([at] + b)[1..] == b;
    } else {
      SplitApart(a[1..], at, b);
      assert (a + [at] + b)[1..] == a[1..] + [at] + b;
      var first, rest := Split(a[1..], at), Split(b, at);
      if a[0] == at {
        assert [[]] + (first + rest) == [[]] + first + rest;
      } else {
        LeadApart([a[0]], first, rest);
      }
    }
  }

  predicate AllSpace(u: Units) { forall i :: 0 <= i < |u| ==> IsSpace(u[i]) }

  lemma {:induction false} TrimSpace(u: Units)
    requires AllSpace(u)
    ensures TrimLeft(u) == []
  {
    if u != [] { TrimSpace(u[1..]); }
  }

  lemma {:induction false} SplitSpace(u: Units, at: nat)
    requires AllSpace(u)
    ensures forall i :: 0 <= i < |Split(u, at)| ==> AllSpace(Split(u, at)[i])
  {
    if u != [] { SplitSpace(u[1..], at); }
  }
}
