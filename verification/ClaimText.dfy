/**
 Text of the claim language (scripts/lib/claims.js): comments, quotes, flow collections and scalars.
 A refusal is None; its message and line number are left out.
 */
module ClaimText {
  import opened Options
  import opened CodeUnits

  const QUOTE: nat := 34
  const APOSTROPHE: nat := 39
  const BACKSLASH: nat := 92
  const HASH: nat := 35
  const COLON: nat := 58
  const COMMA: nat := 44
  const DASH: nat := 45
  const NEWLINE: nat := 10
  const RETURN: nat := 13
  const SPACE: nat := 32

  /** What a block means; a mapping keeps the order of its keys. */
  datatype Value =
    | Null
    | Truth(b: bool)
    | Number(n: real)
    | Text(u: Units)
    | List(items: seq<Value>)
    | Map(entries: seq<Entry>)

  datatype Entry = Entry(key: Units, value: Value)

  predicate HasKey(entries: seq<Entry>, key: Units) { exists i :: 0 <= i < |entries| && entries[i].key == key }

  predicate Opens(u: nat) { u == 91 || u == 123 }

  predicate Closes(u: nat) { u == 93 || u == 125 }

  // ------------------------------------------------------------------ quotes

  /** Which kind of quote is open. */
  datatype Quotes = Quotes(single: bool, double: bool) {
    predicate None() { !single && !double }

    /** The quotes after a unit that is not an escape. */
    function After(c: nat): Quotes {
      if c == APOSTROPHE && !double then this.(single := !single)
      else if c == QUOTE && !single then this.(double := !double)
      else this
    }

    predicate Turns(c: nat) { (c == APOSTROPHE && !double) || (c == QUOTE && !single) }
  }

  const Plain: Quotes := Quotes(false, false)

  /** stripComment from `i` on. */
  function StripFrom(s: Units, i: nat, q: Quotes): Option<Units>
    decreases |s| - i
  {
    if i >= |s| then if q.None() then Some(s) else None
    else if q.double && s[i] == BACKSLASH then StripFrom(s, i + 2, q)
    else if s[i] == HASH && q.None() && (i == 0 || IsSpace(s[i - 1])) then Some(s[..i])
    else StripFrom(s, i + 1, q.After(s[i]))
  }

  method StripComment(s: Units) returns (r: Option<Units>)
    ensures r == StripFrom(s, 0, Plain)
  {
    var single, double := false, false;
    var i := 0;
    while i < |s|
      invariant 0 <= i <= |s| + 1
      invariant StripFrom(s, i, Quotes(single, double)) == StripFrom(s, 0, Plain)
    {
      var c := s[i];
      if double && c == BACKSLASH {
        i := i + 2;
        continue;
      }
      if c == APOSTROPHE && !double {
        single := !single;
      } else if c == QUOTE && !single {
        double := !double;
      } else if c == HASH && !single && !double && (i == 0 || IsSpace(s[i - 1])) {
        return Some(s[..i]);
      }
      i := i + 1;
    }
    r := if single || double then None else Some(s);
  }

  /** splitTopLevelColon from `i` on. */
  function ColonFrom(s: Units, i: nat, q: Quotes, depth: int): (r: Option<nat>)
    ensures r.Some? ==> r.value < |s| && s[r.value] == COLON
    decreases |s| - i
  {
    if i >= |s| then None
    else if q.double && s[i] == BACKSLASH then ColonFrom(s, i + 2, q, depth)
    else if q.Turns(s[i]) then ColonFrom(s, i + 1, q.After(s[i]), depth)
    else if !q.None() then ColonFrom(s, i + 1, q, depth)
    else if Opens(s[i]) then ColonFrom(s, i + 1, q, depth + 1)
    else if Closes(s[i]) then ColonFrom(s, i + 1, q, depth - 1)
    else if s[i] == COLON && depth == 0 then Some(i)
    else ColonFrom(s, i + 1, q, depth)
  }

  method SplitTopLevelColon(s: Units) returns (r: Option<nat>)
    ensures r == ColonFrom(s, 0, Plain, 0)
  {
    var single, double, depth := false, false, 0;
    var i := 0;
    while i < |s|
      invariant 0 <= i <= |s| + 1
      invariant ColonFrom(s, i, Quotes(single, double), depth) == ColonFrom(s, 0, Plain, 0)
    {
      var c := s[i];
      if double && c == BACKSLASH {
        i := i + 2;
        continue;
      }
      if c == APOSTROPHE && !double {
        single := !single;
      } else if c == QUOTE && !single {
        double := !double;
      } else if !single && !double {
        if Opens(c) {
          depth := depth + 1;
        } else if Closes(c) {
          depth := depth - 1;
        } else if c == COLON && depth == 0 {
          return Some(i);
        }
      }
      i := i + 1;
    }
    r := None;
  }

  // ------------------------------------------------------------------ double-quoted text

  predicate IsHex(u: nat) { 48 <= u <= 57 || 65 <= u <= 70 || 97 <= u <= 102 }

  function HexDigit(u: nat): (d: nat)
    requires IsHex(u)
    ensures d < 16
  {
    if u <= 57 then u - 48 else if u <= 70 then u - 55 else u - 87
  }

  predicate AllHex(h: Units) { forall i :: 0 <= i < |h| ==> IsHex(h[i]) }

  function HexValue(h: Units): nat
    requires AllHex(h)
  {
    if h == [] then 0 else 16 * HexValue(h[..|h| - 1]) + HexDigit(h[|h| - 1])
  }

  /** DQ_ESCAPES */
  function Escape(u: nat): Option<nat> {
    if u == BACKSLASH || u == QUOTE || u == 47 || u == SPACE then Some(u)
    else if u == 110 then Some(10)
    else if u == 116 then Some(9)
    else if u == 114 then Some(13)
    else if u == 98 then Some(8)
    else if u == 102 then Some(12)
    else if u == 48 then Some(0)
    else None
  }

  /** unescapeDouble from `i` on, after `out`. */
  function UnescapeFrom(body: Units, i: nat, out: Units): Option<Units>
    decreases |body| - i
  {
    if i >= |body| then Some(out)
    else if body[i] != BACKSLASH then UnescapeFrom(body, i + 1, out + [body[i]])
    else if i + 1 == |body| then None
    else if body[i + 1] == 117 || body[i + 1] == 120 then
      var width := if body[i + 1] == 117 then 4 else 2;
      if i + 2 + width <= |body| && AllHex(body[i + 2..i + 2 + width])
      then UnescapeFrom(body, i + 2 + width, out + [HexValue(body[i + 2..i + 2 + width])]) else None
    else if Escape(body[i + 1]).None? then None
    else UnescapeFrom(body, i + 2, out + [Escape(body[i + 1]).value])
  }

  method UnescapeDouble(body: Units) returns (r: Option<Units>)
    ensures r == UnescapeFrom(body, 0, [])
  {
    var out := [];
    var i := 0;
    while i < |body|
      invariant 0 <= i <= |body|
      invariant UnescapeFrom(body, i, out) == UnescapeFrom(body, 0, [])
    {
      var c := body[i];
      i := i + 1;
      if c != BACKSLASH {
        out := out + [c];
        continue;
      }
      if i == |body| { return None; }
      var next := body[i];
      i := i + 1;
      if next == 117 || next == 120 {
        var width := if next == 117 then 4 else 2;
        if i + width > |body| { return None; }
        var hex := body[i..i + width];
        if !AllHex(hex) { return None; }
        out := out + [HexValue(hex)];
        i := i + width;
        continue;
      }
      var e := Escape(next);
      if e.None? { return None; }
      out := out + [e.value];
    }
    r := Some(out);
  }

  // ------------------------------------------------------------------ flow collections

  datatype Flow = Flow(parts: seq<Units>, cur: Units, q: Quotes, depth: int)

  /** One turn of splitFlow's loop, and how far it moves. */
  function FlowStep(s: Units, i: nat, f: Flow): (r: (Flow, nat))
    requires i < |s|
    ensures r.1 >= 1
  {
    var c := s[i];
    if f.q.double && c == BACKSLASH then (f.(cur := f.cur + s[i..if i + 2 <= |s| then i + 2 else |s|]), 2)
    else if f.q.Turns(c) then (f.(q := f.q.After(c), cur := f.cur + [c]), 1)
    else if f.q.None() && Opens(c) then (f.(depth := f.depth + 1, cur := f.cur + [c]), 1)
    else if f.q.None() && Closes(c) then (f.(depth := f.depth - 1, cur := f.cur + [c]), 1)
    else if f.q.None() && c == COMMA && f.depth == 0 then (f.(parts := f.parts + [f.cur], cur := []), 1)
    else (f.(cur := f.cur + [c]), 1)
  }

  function FlowFrom(s: Units, i: nat, f: Flow): Flow
    decreases |s| - i
  {
    if i >= |s| then f else FlowFrom(s, i + FlowStep(s, i, f).1, FlowStep(s, i, f).0)
  }

  /** The parts, trimmed, without the empty ones. */
  function Kept(parts: seq<Units>): seq<Units> {
    if parts == [] then []
    else (if Trim(parts[0]) == [] then [] else [Trim(parts[0])]) + Kept(parts[1..])
  }

  function FlowDone(f: Flow): Option<seq<Units>> {
    if !f.q.None() || f.depth != 0 then None
    else if Trim(f.cur) != [] || f.parts != [] then Some(Kept(f.parts + [f.cur]))
    else Some([])
  }

  const Fresh: Flow := Flow([], [], Plain, 0)

  method SplitFlow(s: Units) returns (r: Option<seq<Units>>)
    ensures r == FlowDone(FlowFrom(s, 0, Fresh))
  {
    var f := Fresh;
    var i := 0;
    while i < |s|
      invariant 0 <= i
      invariant FlowFrom(s, i, f) == FlowFrom(s, 0, Fresh)
    {
      var step := FlowStep(s, i, f);
      f, i := step.0, i + step.1;
    }
    r := FlowDone(f);
  }

  /** The text the parts of a flow hold. */
  function Held(parts: seq<Units>): nat { if parts == [] then 0 else |parts[0]| + Held(parts[1..]) }

  lemma {:induction false} HeldMore(parts: seq<Units>, p: Units)
    ensures Held(parts + [p]) == Held(parts) + |p|
  {
    if parts != [] {
      HeldMore(parts[1..], p);
      assert (parts + [p])[1..] == parts[1..] + [p];
    }
  }

  lemma {:induction false} FlowHolds(s: Units, i: nat, f: Flow)
    requires i <= |s| + 1
    ensures var g := FlowFrom(s, i, f); Held(g.parts) + |g.cur| <= Held(f.parts) + |f.cur| + if i <= |s| then |s| - i else 0
    decreases |s| - i
  {
    if i < |s| {
      HeldMore(f.parts, f.cur);
      FlowHolds(s, i + FlowStep(s, i, f).1, FlowStep(s, i, f).0);
    }
  }

  lemma {:induction false} KeptHolds(parts: seq<Units>)
    ensures Held(Kept(parts)) <= Held(parts)
  {
    if parts != [] {
      KeptHolds(parts[1..]);
      if Trim(parts[0]) == [] { assert Kept(parts) == Kept(parts[1..]); }
    }
  }

  /** splitFlow: the parts are no longer than the text. */
  function FlowParts(s: Units): (r: Option<seq<Units>>)
    ensures r.Some? ==> Held(r.value) <= |s|
  {
    var f := FlowFrom(s, 0, Fresh);
    FlowHolds(s, 0, Fresh);
    KeptHolds(f.parts + [f.cur]);
    HeldMore(f.parts, f.cur);
    FlowDone(f)
  }

  // ------------------------------------------------------------------ scalars

  /** How the host reads and prints numbers: parseInt and parseFloat; String. */
  datatype Host = Host(read: Units -> real, show: real -> Units)

  predicate IsDigit(u: nat) { 48 <= u <= 57 }

  predicate Digits(u: Units) { forall i :: 0 <= i < |u| ==> IsDigit(u[i]) }

  function Unsigned(u: Units): Units { if u != [] && u[0] == DASH then u[1..] else u }

  /** A run of digits, or digits after a point. */
  predicate IsDecimal(u: Units) {
    (u != [] && Digits(u)) || exists p :: 0 <= p < |u| - 1 && u[p] == 46 && Digits(u[..p]) && Digits(u[p + 1..])
  }

  predicate IsNumber(u: Units) { IsDecimal(Unsigned(u)) }

  /** replace(/^["']|["']$/g, '') */
  function Unquoted(u: Units): Units {
    var v := if u != [] && (u[0] == QUOTE || u[0] == APOSTROPHE) then u[1..] else u;
    if v != [] && (v[|v| - 1] == QUOTE || v[|v| - 1] == APOSTROPHE) then v[..|v| - 1] else v
  }

  /** replace(/''/g, "'") */
  function Undoubled(u: Units): Units {
    if |u| < 2 then u
    else if u[0] == APOSTROPHE && u[1] == APOSTROPHE then [APOSTROPHE] + Undoubled(u[2..])
    else [u[0]] + Undoubled(u[1..])
  }

  predicate Between(s: Units, first: nat, last: nat) { |s| > 1 && s[0] == first && s[|s| - 1] == last }

  /** A scalar that is no collection. */
  function ParsePlain(h: Host, s: Units): Option<Value>
    requires s != []
  {
    if Between(s, QUOTE, QUOTE) then
      var u := UnescapeFrom(s[1..|s| - 1], 0, []);
      if u.None? then None else Some(Text(u.value))
    else if Between(s, APOSTROPHE, APOSTROPHE) then Some(Text(Undoubled(s[1..|s| - 1])))
    else if QUOTE in s || APOSTROPHE in s then None
    else if IsNumber(s) then Some(Number(h.read(s)))
    else Some(Text(s))
  }

  function ParseScalar(h: Host, raw: Units): Option<Value>
    decreases |raw|, 1
  {
    var s := Trim(raw);
    if s == [] || s == Ascii("null") || s == Ascii("~") then Some(Null)
    else if s == Ascii("true") then Some(Truth(true))
    else if s == Ascii("false") then Some(Truth(false))
    else if s[0] == 91 then
      if s[|s| - 1] != 93 then None
      else
        var parts := FlowParts(s[1..|s| - 1]);
        if parts.None? then None
        else
          var items := ParseItems(h, parts.value, |s| - 1);
          if items.None? then None else Some(List(items.value))
    else if s[0] == 123 then
      if s[|s| - 1] != 125 then None
      else
        var parts := FlowParts(s[1..|s| - 1]);
        if parts.None? then None
        else
          var entries := ParsePairs(h, parts.value, [], |s| - 1);
          if entries.None? then None else Some(Map(entries.value))
    else ParsePlain(h, s)
  }

  function ParseItems(h: Host, parts: seq<Units>, limit: nat): Option<seq<Value>>
    requires Held(parts) <= limit
    decreases limit, 2, |parts|
  {
    if parts == [] then Some([])
    else
      var first := ParseScalar(h, parts[0]);
      if first.None? then None
      else
        var rest := ParseItems(h, parts[1..], limit);
        if rest.None? then None else Some([first.value] + rest.value)
  }

  function ParsePairs(h: Host, parts: seq<Units>, entries: seq<Entry>, limit: nat): Option<seq<Entry>>
    requires Held(parts) <= limit
    decreases limit, 2, |parts|
  {
    if parts == [] then Some(entries)
    else
      var at := ColonFrom(parts[0], 0, Plain, 0);
      if at.None? then None
      else
        var key := Unquoted(Trim(parts[0][..at.value]));
        if key == [] || HasKey(entries, key) then None
        else
          var v := ParseScalar(h, parts[0][at.value + 1..]);
          if v.None? then None else ParsePairs(h, parts[1..], entries + [Entry(key, v.value)], limit)
  }

  // ------------------------------------------------------------------ printing

  /** Every `u` with a backslash before it. */
  function Prefixed(s: Units, u: nat): Units {
    if s == [] then [] else (if s[0] == u then [BACKSLASH, u] else [s[0]]) + Prefixed(s[1..], u)
  }

  /** The text between the quotes dq writes. */
  function Escaped(s: Units): Units { Prefixed(Prefixed(s, BACKSLASH), QUOTE) }

  /** dq */
  function Quoted(s: Units): Units { [QUOTE] + Escaped(s) + [QUOTE] }

  /** A unit as dq writes it. */
  function Piece(u: nat): Units { if u == BACKSLASH || u == QUOTE then [BACKSLASH, u] else [u] }

  lemma {:induction false} EscapedStep(s: Units)
    requires s != []
    ensures Escaped(s) == Piece(s[0]) + Escaped(s[1..])
  {
    var rest := Prefixed(s[1..], BACKSLASH);
    var p := Prefixed(s, BACKSLASH);
    if s[0] == BACKSLASH {
      assert p[0] == BACKSLASH && p[1..] == [BACKSLASH] + rest;
      assert p[1..][1..] == rest;
      assert Prefixed(p[1..], QUOTE) == [BACKSLASH] + Prefixed(rest, QUOTE);
      assert [BACKSLASH] + ([BACKSLASH] + Prefixed(rest, QUOTE)) == [BACKSLASH, BACKSLASH] + Prefixed(rest, QUOTE);
    } else {
      assert p[1..] == rest;
    }
  }

  /** What dq writes reads back as it was. */
  lemma {:induction false} UnescapeBack(before: Units, s: Units, out: Units)
    ensures UnescapeFrom(before + Escaped(s), |before|, out) == Some(out + s)
    decreases |s|
  {
    var body := before + Escaped(s);
    if s == [] {
      assert out + s == out;
    } else {
      EscapedStep(s);
      var p := Piece(s[0]);
      assert body == before + p + Escaped(s[1..]);
      assert body[|before|] == p[0];
      if |p| == 2 { assert body[|before| + 1] == p[1]; }
      UnescapeBack(before + p, s[1..], out + [s[0]]);
      assert out + [s[0]] + s[1..] == out + s;
    }
  }

  const Inside: Quotes := Quotes(false, true)

  /** Inside double quotes what dq writes is passed over. */
  lemma {:induction false} StripInside(before: Units, s: Units, after: Units)
    ensures var t := before + Escaped(s) + after;
      StripFrom(t, |before|, Inside) == StripFrom(t, |before| + |Escaped(s)|, Inside)
    decreases |s|
  {
    var t := before + Escaped(s) + after;
    if s != [] {
      EscapedStep(s);
      var p := Piece(s[0]);
      assert t == before + p + Escaped(s[1..]) + after;
      assert t[|before|] == p[0];
      StripInside(before + p, s[1..], after);
    }
  }

  /** No quote and no comment. */
  predicate NoQuotes(u: Units) { QUOTE !in u && APOSTROPHE !in u && HASH !in u }

  lemma {:induction false} StripPlain(before: Units, u: Units, after: Units)
    requires NoQuotes(u)
    ensures var t := before + u + after; StripFrom(t, |before|, Plain) == StripFrom(t, |before| + |u|, Plain)
    decreases |u|
  {
    var t := before + u + after;
    if u != [] {
      assert t[|before|] == u[0];
      assert t == before + [u[0]] + u[1..] + after;
      StripPlain(before + [u[0]], u[1..], after);
    }
  }

  /** A name and what follows it hold no comment when the name is bare and what follows is bare or quoted. */
  lemma {:induction false} StripsPlain(u: Units)
    requires NoQuotes(u)
    ensures StripFrom(u, 0, Plain) == Some(u)
  {
    StripPlain([], u, []);
    assert [] + u + [] == u;
  }

  lemma {:induction false} StripsQuoted(u: Units, s: Units)
    requires NoQuotes(u)
    ensures StripFrom(u + Quoted(s), 0, Plain) == Some(u + Quoted(s))
  {
    var t := u + Quoted(s);
    assert t == [] + u + Quoted(s);
    StripPlain([], u, Quoted(s));
    assert t == (u + [QUOTE]) + Escaped(s) + [QUOTE];
    assert t[|u|] == QUOTE && t[|t| - 1] == QUOTE;
    StripInside(u + [QUOTE], s, [QUOTE]);
  }

  /** What dq writes is read as the text it was given. */
  lemma {:induction false} QuotedReads(h: Host, s: Units)
    ensures ParseScalar(h, Quoted(s)) == Some(Text(s)) && Trim(Quoted(s)) == Quoted(s)
  {
    var q := Quoted(s);
    QuotedTrims(q);
    assert q[0] == QUOTE && q[|q| - 1] == QUOTE;
    assert q[1..|q| - 1] == [] + Escaped(s);
    UnescapeBack([], s, []);
    assert [] + s == s;
    assert Ascii("null")[0] == 110 && Ascii("~")[0] == 126 && Ascii("true")[0] == 116 && Ascii("false")[0] == 102;
  }

  lemma {:induction false} QuotedTrims(u: Units)
    requires u != [] && !IsSpace(u[0]) && !IsSpace(u[|u| - 1])
    ensures Trim(u) == u
  {
    TrimSurrounded([], u, []);
    assert [] + u + [] == u;
  }
}
