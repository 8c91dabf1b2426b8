/**
 JSON trees, the sorted-key text `canon` prints for them, and the proof that this text names a
 tree unambiguously up to the order of object keys (userland/src/budget.ts, `canon`).

 A number leaf is held as the spelling JSON.stringify gives it, so two different numbers have two
 different spellings.
 */
module JsonText {

  import opened Options

  /** One property of an object. */
  datatype Member<T> = Member(key: string, value: T)

  datatype Json =
    | Null
    | Bool(b: bool)
    | Num(spelling: string)
    | Str(text: string)
    | Arr(items: seq<Json>)
    | Obj(members: seq<Member<Json>>)

  predicate NumberChar(c: char) {
    '0' <= c <= '9' || c == '-' || c == '+' || c == '.' || c == 'e' || c == 'E'
  }

  predicate DistinctKeys(ms: seq<Member<Json>>) {
    forall i, j :: 0 <= i < j < |ms| ==> ms[i].key != ms[j].key
  }

  /** The trees a JavaScript value can be: no object holds a key twice. */
  ghost predicate WellFormed(j: Json) {
    match j
    case Null => true
    case Bool(_) => true
    case Str(_) => true
    case Num(s) => s != "" && ('0' <= s[0] <= '9' || s[0] == '-') && forall i :: 0 <= i < |s| ==> NumberChar(s[i])
    case Arr(items) => forall i :: 0 <= i < |items| ==> WellFormed(items[i])
    case Obj(ms) => DistinctKeys(ms) && forall i :: 0 <= i < |ms| ==> WellFormed(ms[i].value)
  }

  /** `v[k]` of an object: None is JavaScript's undefined. */
  function Lookup(ms: seq<Member<Json>>, k: string): Option<Json> {
    if ms == [] then None
    else if ms[0].key == k then Some(ms[0].value)
    else Lookup(ms[1..], k)
  }

  ghost predicate HasKey(ms: seq<Member<Json>>, k: string) {
    exists i :: 0 <= i < |ms| && ms[i].key == k
  }

  /** A property is found exactly when the object has its key, and then it is one of the members. */
  lemma {:induction false} LookupSound(ms: seq<Member<Json>>, k: string)
    ensures Lookup(ms, k).Some? <==> HasKey(ms, k)
    ensures Lookup(ms, k).Some? ==> Member(k, Lookup(ms, k).value) in ms
  {
    if ms != [] {
      LookupSound(ms[1..], k);
      assert ms == [ms[0]] + ms[1..];
      if ms[0].key != k {
        if HasKey(ms, k) {
          var i :| 0 <= i < |ms| && ms[i].key == k;
          assert ms[1..][i - 1].key == k;
        }
        if HasKey(ms[1..], k) {
          var i :| 0 <= i < |ms[1..]| && ms[1..][i].key == k;
          assert ms[i + 1].key == k;
        }
      }
    }
  }

  lemma {:induction false} LookupFinds(ms: seq<Member<Json>>, k: nat)
    requires DistinctKeys(ms) && k < |ms|
    ensures Lookup(ms, ms[k].key) == Some(ms[k].value)
  {
    if k > 0 { LookupFinds(ms[1..], k - 1); }
  }

  function Get(j: Json, k: string): Option<Json> {
    if j.Obj? then Lookup(j.members, k) else None
  }

  /** Equality of trees up to the order of object keys, at every depth. */
  ghost predicate SameTree(a: Json, b: Json)
    decreases a
  {
    match (a, b)
    case (Arr(xs), Arr(ys)) => |xs| == |ys| && forall i :: 0 <= i < |xs| ==> SameTree(xs[i], ys[i])
    case (Obj(ms), Obj(ns)) =>
      && |ms| == |ns|
      && forall i :: 0 <= i < |ms| ==>
           Lookup(ns, ms[i].key).Some? && SameTree(ms[i].value, Lookup(ns, ms[i].key).value)
    case _ => a == b
  }

  // ------------------------------------------------------------------ key order

  /**
   The order of two strings, scalar by scalar. Array.prototype.sort compares UTF-16 units instead, which
   differs for characters beyond U+FFFF; canonical text needs only some fixed total order.
   */
  predicate Less(a: string, b: string) {
    if b == "" then false
    else if a == "" then true
    else a[0] < b[0] || (a[0] == b[0] && Less(a[1..], b[1..]))
  }

  lemma {:induction false} LessTotal(a: string, b: string)
    ensures Less(a, b) || a == b || Less(b, a)
    ensures !(Less(a, b) && Less(b, a)) && !Less(a, a)
  {
    if a != "" && b != "" {
      LessTotal(a[1..], b[1..]);
      LessTotal(a[1..], a[1..]);
      assert a == [a[0]] + a[1..] && b == [b[0]] + b[1..];
    } else if a != "" {
      LessTotal(a[1..], a[1..]);
    }
  }

  lemma {:induction false} LessTrans(a: string, b: string, c: string)
    requires Less(a, b) && Less(b, c)
    ensures Less(a, c)
  {
    if a != "" && a[0] == b[0] && b[0] == c[0] {
      LessTrans(a[1..], b[1..], c[1..]);
    }
  }

  ghost predicate SortedKeys<T>(ms: seq<Member<T>>) {
    forall i, j :: 0 <= i < j < |ms| ==> Less(ms[i].key, ms[j].key)
  }

  ghost predicate DistinctFirst<T>(ms: seq<Member<T>>) {
    forall i, j :: 0 <= i < j < |ms| ==> ms[i].key != ms[j].key
  }

  function Insert<T>(m: Member<T>, ms: seq<Member<T>>): (r: seq<Member<T>>) {
    if ms == [] then [m]
    else if Less(m.key, ms[0].key) then [m] + ms
    else [ms[0]] + Insert(m, ms[1..])
  }

  /** Object.keys(v).sort(), each key with its value. */
  function SortByKey<T>(ms: seq<Member<T>>): (r: seq<Member<T>>) {
    if ms == [] then [] else Insert(ms[0], SortByKey(ms[1..]))
  }

  lemma {:induction false} InsertElements<T(!new)>(m: Member<T>, ms: seq<Member<T>>)
    ensures |Insert(m, ms)| == |ms| + 1
    ensures forall x :: x in Insert(m, ms) <==> x == m || x in ms
  {
    if ms != [] && !Less(m.key, ms[0].key) {
      InsertElements(m, ms[1..]);
      assert ms == [ms[0]] + ms[1..];
    }
  }

  lemma {:induction false} InsertSorts<T(!new)>(m: Member<T>, ms: seq<Member<T>>)
    requires SortedKeys(ms)
    requires forall x :: x in ms ==> x.key != m.key
    ensures SortedKeys(Insert(m, ms))
  {
    if ms != [] {
      LessTotal(m.key, ms[0].key);
      if Less(m.key, ms[0].key) {
        forall i | 0 <= i < |ms| ensures Less(m.key, ms[i].key) {
          if i > 0 { LessTrans(m.key, ms[0].key, ms[i].key); }
        }
      } else {
        assert ms[0] in ms;
        InsertSorts(m, ms[1..]);
        InsertElements(m, ms[1..]);
        var r := Insert(m, ms[1..]);
        forall i | 0 <= i < |r| ensures Less(ms[0].key, r[i].key) {
          assert r[i] in r;
          assert r[i] == m || r[i] in ms[1..];
          if r[i] != m { var k :| 0 <= k < |ms[1..]| && ms[1..][k] == r[i]; assert ms[k + 1] == r[i]; }
        }
      }
    }
  }

  lemma {:induction false} SortByKeySorts<T(!new)>(ms: seq<Member<T>>)
    ensures |SortByKey(ms)| == |ms|
    ensures forall x :: x in SortByKey(ms) <==> x in ms
    ensures DistinctFirst(ms) ==> SortedKeys(SortByKey(ms))
  {
    if ms != [] {
      SortByKeySorts(ms[1..]);
      InsertElements(ms[0], SortByKey(ms[1..]));
      assert ms == [ms[0]] + ms[1..];
      if DistinctFirst(ms) {
        forall x | x in SortByKey(ms[1..]) ensures x.key != ms[0].key {
          assert x in ms[1..];
          var k :| 0 <= k < |ms[1..]| && ms[1..][k] == x;
          assert ms[k + 1] == x;
        }
        InsertSorts(ms[0], SortByKey(ms[1..]));
      }
    }
  }

  /** The last of a sorted list is above every other element. */
  lemma {:induction false} SortedLast<T(!new)>(xs: seq<Member<T>>, z: Member<T>)
    requires SortedKeys(xs) && z in xs && z != xs[|xs| - 1]
    ensures Less(z.key, xs[|xs| - 1].key) && z in xs[..|xs| - 1]
  {
    var i :| 0 <= i < |xs| && xs[i] == z;
    assert xs[..|xs| - 1][i] == z;
  }

  /** A strictly sorted list is determined by its elements. */
  lemma {:induction false} SortedUnique<T(!new)>(xs: seq<Member<T>>, ys: seq<Member<T>>)
    requires SortedKeys(xs) && SortedKeys(ys)
    requires |xs| >= |ys|
    requires forall x :: x in xs ==> x in ys
    ensures xs == ys
    decreases |ys|
  {
    if xs == [] { return; }
    var n, m := |xs| - 1, |ys| - 1;
    var x := xs[n];
    assert x in xs && x in ys;
    var y := ys[m];
    if x == y {
      forall z | z in xs[..n] ensures z in ys[..m] {
        assert z in xs;
        var i :| 0 <= i < n && xs[i] == z;
        LessTotal(z.key, x.key);
        SortedLast(ys, z);
      }
      SortedUnique(xs[..n], ys[..m]);
      assert xs == xs[..n] + [x] && ys == ys[..m] + [y];
    } else {
      SortedLast(ys, x);
      LessTotal(x.key, y.key);
      forall z | z in xs ensures z in ys[..m] {
        if z != x { SortedLast(xs, z); LessTotal(z.key, x.key); }
        if z != y { SortedLast(ys, z); }
      }
      SortedUnique(xs, ys[..m]);
      assert false;
    }
  }

  // ------------------------------------------------------------------ printing

  function HexDigit(n: nat): char
    requires n < 16
  {
    if n < 10 then '0' + n as char else 'a' + (n - 10) as char
  }

  /** One character as JSON.stringify writes it inside a string. */
  function Escape(c: char): string {
    if c == '\"' then "\\\""
    else if c == '\\' then "\\\\"
    else if c == 8 as char then "\\b"
    else if c == 12 as char then "\\f"
    else if c == '\n' then "\\n"
    else if c == '\r' then "\\r"
    else if c == '\t' then "\\t"
    else if c < ' ' then "\\u00" + [HexDigit(c as int / 16), HexDigit(c as int % 16)]
    else [c]
  }

  function EscapeAll(s: string): string {
    if s == "" then "" else Escape(s[0]) + EscapeAll(s[1..])
  }

  /** JSON.stringify of a string. */
  function Quote(s: string): string {
    "\"" + EscapeAll(s) + "\""
  }

  /** `parts.join(',')` */
  function Join(parts: seq<string>): string {
    if parts == [] then ""
    else if |parts| == 1 then parts[0]
    else parts[0] + "," + Join(parts[1..])
  }

  function Fields(ms: seq<Member<string>>): (r: seq<string>)
    ensures |r| == |ms| && forall i :: 0 <= i < |ms| ==> r[i] == Quote(ms[i].key) + ":" + ms[i].value
  {
    seq(|ms|, i requires 0 <= i < |ms| => Quote(ms[i].key) + ":" + ms[i].value)
  }

  /** JSON with object keys sorted: what every digest is taken of. */
  function Canon(v: Json): string {
    match v
    case Null => "null"
    case Bool(b) => if b then "true" else "false"
    case Num(s) => s
    case Str(s) => Quote(s)
    case Arr(items) => "[" + Join(CanonItems(items)) + "]"
    case Obj(ms) => "{" + Join(Fields(SortByKey(CanonMembers(ms)))) + "}"
  }

  function CanonItems(items: seq<Json>): (r: seq<string>)
    ensures |r| == |items|
  {
    if items == [] then [] else [Canon(items[0])] + CanonItems(items[1..])
  }

  function CanonMembers(ms: seq<Member<Json>>): (r: seq<Member<string>>)
    ensures |r| == |ms|
  {
    if ms == [] then [] else [Member(ms[0].key, Canon(ms[0].value))] + CanonMembers(ms[1..])
  }

  // ------------------------------------------------------------------ a tree in key order

  /** The tree with every object's members in key order. */
  function SortTree(v: Json): Json {
    match v
    case Arr(items) => Arr(SortItems(items))
    case Obj(ms) => Obj(SortByKey(SortMembers(ms)))
    case _ => v
  }

  function SortItems(items: seq<Json>): (r: seq<Json>)
    ensures |r| == |items|
    ensures forall i :: 0 <= i < |items| ==> r[i] == SortTree(items[i])
  {
    if items == [] then [] else [SortTree(items[0])] + SortItems(items[1..])
  }

  function SortMembers(ms: seq<Member<Json>>): (r: seq<Member<Json>>)
    ensures |r| == |ms|
    ensures forall i :: 0 <= i < |ms| ==> r[i] == Member(ms[i].key, SortTree(ms[i].value))
  {
    if ms == [] then [] else [Member(ms[0].key, SortTree(ms[0].value))] + SortMembers(ms[1..])
  }

  /** The text of a tree, members in the order they stand. */
  function Print(v: Json): string {
    match v
    case Null => "null"
    case Bool(b) => if b then "true" else "false"
    case Num(s) => s
    case Str(s) => Quote(s)
    case Arr(items) => "[" + Join(PrintItems(items)) + "]"
    case Obj(ms) => "{" + Join(Fields(PrintMembers(ms))) + "}"
  }

  function PrintItems(items: seq<Json>): (r: seq<string>)
    ensures |r| == |items|
    ensures forall i :: 0 <= i < |items| ==> r[i] == Print(items[i])
  {
    if items == [] then [] else [Print(items[0])] + PrintItems(items[1..])
  }

  function PrintMembers(ms: seq<Member<Json>>): (r: seq<Member<string>>)
    ensures |r| == |ms|
    ensures forall i :: 0 <= i < |ms| ==> r[i] == Member(ms[i].key, Print(ms[i].value))
  {
    if ms == [] then [] else [Member(ms[0].key, Print(ms[0].value))] + PrintMembers(ms[1..])
  }

  lemma {:induction false} InsertPrints(m: Member<Json>, ms: seq<Member<Json>>)
    ensures PrintMembers(Insert(m, ms)) == Insert(Member(m.key, Print(m.value)), PrintMembers(ms))
  {
    if ms == [] {
      assert PrintMembers([m]) == [Member(m.key, Print(m.value))];
    } else {
      assert PrintMembers(ms) == [Member(ms[0].key, Print(ms[0].value))] + PrintMembers(ms[1..]);
      if !Less(m.key, ms[0].key) { InsertPrints(m, ms[1..]); }
    }
  }

  lemma {:induction false} SortPrints(ms: seq<Member<Json>>)
    ensures PrintMembers(SortByKey(ms)) == SortByKey(PrintMembers(ms))
  {
    if ms != [] {
      SortPrints(ms[1..]);
      InsertPrints(ms[0], SortByKey(ms[1..]));
      assert PrintMembers(ms)[1..] == PrintMembers(ms[1..]);
    }
  }

  lemma {:induction false} CanonIsPrint(v: Json)
    ensures Canon(v) == Print(SortTree(v))
    decreases v
  {
    match v
    case Arr(items) => CanonItemsPrint(items);
    case Obj(ms) =>
      CanonMembersPrint(ms);
      SortPrints(SortMembers(ms));
    case _ =>
  }

  lemma {:induction false} CanonItemsPrint(items: seq<Json>)
    ensures CanonItems(items) == PrintItems(SortItems(items))
    decreases items
  {
    if items != [] {
      CanonIsPrint(items[0]);
      CanonItemsPrint(items[1..]);
      assert SortItems(items)[1..] == SortItems(items[1..]);
    }
  }

  lemma {:induction false} CanonMembersPrint(ms: seq<Member<Json>>)
    ensures CanonMembers(ms) == PrintMembers(SortMembers(ms))
    decreases ms
  {
    if ms != [] {
      CanonIsPrint(ms[0].value);
      CanonMembersPrint(ms[1..]);
      assert SortMembers(ms)[1..] == SortMembers(ms[1..]);
    }
  }

  // ------------------------------------------------------------------ the text determines the tree

  /** What may follow a value in a JSON text: nothing that could lengthen a number. */
  predicate Delimited(s: string) {
    s == "" || !NumberChar(s[0])
  }

  /** A value's text followed by `k`, built without re-associating concatenations. */
  function Text(v: Json, k: string): string {
    match v
    case Null => "null" + k
    case Bool(b) => if b then "true" + k else "false" + k
    case Num(s) => s + k
    case Str(s) => "\"" + EscapeText(s, "\"" + k)
    case Arr(items) => "[" + ItemsText(items, "]" + k)
    case Obj(ms) => "{" + MembersText(ms, "}" + k)
  }

  function EscapeText(s: string, k: string): string {
    if s == "" then k else Escape(s[0]) + EscapeText(s[1..], k)
  }

  function ItemsText(xs: seq<Json>, k: string): string {
    if xs == [] then k
    else Text(xs[0], if |xs| == 1 then k else "," + ItemsText(xs[1..], k))
  }

  function MembersText(ms: seq<Member<Json>>, k: string): string {
    if ms == [] then k
    else "\"" + EscapeText(ms[0].key, "\":" + Text(ms[0].value, if |ms| == 1 then k else "," + MembersText(ms[1..], k)))
  }

  lemma {:induction false} EscapeAllText(s: string, k: string)
    ensures EscapeAll(s) + k == EscapeText(s, k)
  {
    if s == "" {
    } else {
      EscapeAllText(s[1..], k);
      assert EscapeAll(s) + k == Escape(s[0]) + (EscapeAll(s[1..]) + k);
    }
  }

  lemma {:induction false} Wrap(open: string, body: string, close: string, k: string)
    ensures (open + body + close) + k == open + (body + (close + k))
  {}

  lemma {:induction false} PrintText(v: Json, k: string)
    ensures Print(v) + k == Text(v, k)
    decreases v
  {
    match v
    case Str(s) =>
      EscapeAllText(s, "\"" + k);
      Wrap("\"", EscapeAll(s), "\"", k);
    case Arr(items) =>
      ItemsPrintText(items, "]" + k);
      Wrap("[", Join(PrintItems(items)), "]", k);
    case Obj(ms) =>
      MembersPrintText(ms, "}" + k);
      Wrap("{", Join(Fields(PrintMembers(ms))), "}", k);
    case _ =>
  }

  lemma {:induction false} JoinText(parts: seq<string>, k: string)
    requires parts != []
    ensures Join(parts) + k == parts[0] + if |parts| == 1 then k else "," + (Join(parts[1..]) + k)
  {
    if |parts| > 1 { Wrap(parts[0], ",", Join(parts[1..]), k); }
  }

  lemma {:induction false} FieldText(key: string, value: string, k: string)
    ensures (Quote(key) + ":" + value) + k == "\"" + EscapeText(key, "\":" + (value + k))
  {
    Wrap(Quote(key), ":", value, k);
    Wrap("\"", EscapeAll(key), "\"", ":" + (value + k));
    EscapeAllText(key, "\"" + (":" + (value + k)));
    assert "\"" + (":" + (value + k)) == "\":" + (value + k);
  }

  lemma {:induction false} ItemsPrintText(xs: seq<Json>, k: string)
    ensures Join(PrintItems(xs)) + k == ItemsText(xs, k)
    decreases xs
  {
    if xs != [] {
      var ps := PrintItems(xs);
      assert ps[1..] == PrintItems(xs[1..]);
      JoinText(ps, k);
      if |xs| > 1 { ItemsPrintText(xs[1..], k); }
      PrintText(xs[0], if |xs| == 1 then k else "," + ItemsText(xs[1..], k));
    }
  }

  lemma {:induction false} MembersPrintText(ms: seq<Member<Json>>, k: string)
    ensures Join(Fields(PrintMembers(ms))) + k == MembersText(ms, k)
    decreases ms
  {
    if ms != [] {
      var fs := Fields(PrintMembers(ms));
      assert fs[1..] == Fields(PrintMembers(ms[1..]));
      JoinText(fs, k);
      if |ms| > 1 { MembersPrintText(ms[1..], k); }
      var rest := if |ms| == 1 then k else "," + MembersText(ms[1..], k);
      FieldText(ms[0].key, Print(ms[0].value), rest);
      PrintText(ms[0].value, rest);
    }
  }

  lemma {:induction false} EscapePrefix(c: char, d: char, s: string, t: string)
    requires Escape(c) + s == Escape(d) + t
    ensures c == d && s == t
  {
    var x, y := Escape(c) + s, Escape(d) + t;
    assert x[0] == Escape(c)[0] && y[0] == Escape(d)[0];
    if x[0] == '\\' {
      assert x[1] == Escape(c)[1] && y[1] == Escape(d)[1];
      if x[1] == 'u' {
        assert x[4] == Escape(c)[4] && y[4] == Escape(d)[4];
        assert x[5] == Escape(c)[5] && y[5] == Escape(d)[5];
        assert c as int / 16 == d as int / 16;
        assert c as int % 16 == d as int % 16;
        assert c as int == d as int;
      }
    }
    assert c == d;
    assert x[|Escape(c)|..] == s && y[|Escape(d)|..] == t;
  }

  lemma {:induction false} EscapeTextPrefix(a: string, b: string, s: string, t: string)
    requires EscapeText(a, "\"" + s) == EscapeText(b, "\"" + t)
    ensures a == b && s == t
    decreases |a|
  {
    if a == "" && b == "" {
      assert s == ("\"" + s)[1..] && t == ("\"" + t)[1..];
    } else if a != "" && b != "" {
      EscapePrefix(a[0], b[0], EscapeText(a[1..], "\"" + s), EscapeText(b[1..], "\"" + t));
      EscapeTextPrefix(a[1..], b[1..], s, t);
      assert a == [a[0]] + a[1..] && b == [b[0]] + b[1..];
    } else {
      if a != "" { EscapeTextStart(a, "\"" + s); } else { EscapeTextStart(b, "\"" + t); }
      assert false;
    }
  }

  lemma {:induction false} EscapeTextStart(a: string, k: string)
    requires a != ""
    ensures EscapeText(a, k) != "" && EscapeText(a, k)[0] != '\"'
  {}

  /** How many characters a number read from the front of `s` takes. */
  function Span(s: string): nat {
    if s == "" || !NumberChar(s[0]) then 0 else 1 + Span(s[1..])
  }

  lemma {:induction false} NumberSpan(a: string, s: string)
    requires forall i :: 0 <= i < |a| ==> NumberChar(a[i])
    requires Delimited(s)
    ensures Span(a + s) == |a|
  {
    if a == "" {
      assert a + s == s;
    } else {
      NumberSpan(a[1..], s);
      assert (a + s)[1..] == a[1..] + s;
    }
  }

  lemma {:induction false} NumberPrefix(a: string, b: string, s: string, t: string)
    requires forall i :: 0 <= i < |a| ==> NumberChar(a[i])
    requires forall i :: 0 <= i < |b| ==> NumberChar(b[i])
    requires Delimited(s) && Delimited(t) && a + s == b + t
    ensures a == b && s == t
  {
    var x := a + s;
    NumberSpan(a, s);
    NumberSpan(b, t);
    assert a == x[..|a|] && b == x[..|b|] && s == x[|a|..] && t == x[|b|..];
  }

  /** The first character of a value's text says which kind of value it is. */
  lemma {:induction false} TextStart(v: Json, k: string)
    requires WellFormed(v)
    ensures Text(v, k) != ""
    ensures var c := Text(v, k)[0];
      && c !in "]},:"
      && (c == 'n' <==> v.Null?) && (c == 't' <==> v == Bool(true)) && (c == 'f' <==> v == Bool(false))
      && (NumberChar(c) <==> v.Num?) && (c == '\"' <==> v.Str?) && (c == '[' <==> v.Arr?) && (c == '{' <==> v.Obj?)
  {}

  /** A value is readable off the front of any text it starts. */
  lemma {:induction false} TextPrefix(a: Json, b: Json, s: string, t: string)
    requires WellFormed(a) && WellFormed(b)
    requires Delimited(s) && Delimited(t)
    requires Text(a, s) == Text(b, t)
    ensures a == b && s == t
    decreases a
  {
    TextStart(a, s);
    TextStart(b, t);
    var x := Text(a, s);
    match a
    case Null => assert s == x[4..] && t == x[4..];
    case Bool(v) =>
      assert b == a;
      if v { assert s == x[4..] && t == x[4..]; } else { assert s == x[5..] && t == x[5..]; }
    case Num(p) => NumberPrefix(p, b.spelling, s, t);
    case Str(p) =>
      assert x[1..] == EscapeText(p, "\"" + s) && x[1..] == EscapeText(b.text, "\"" + t);
      EscapeTextPrefix(p, b.text, s, t);
    case Arr(items) =>
      assert x[1..] == ItemsText(items, "]" + s) && x[1..] == ItemsText(b.items, "]" + t);
      ItemsPrefix(items, b.items, s, t);
    case Obj(ms) =>
      assert x[1..] == MembersText(ms, "}" + s) && x[1..] == MembersText(b.members, "}" + t);
      MembersPrefix(ms, b.members, s, t);
  }

  lemma {:induction false} ItemsPrefix(xs: seq<Json>, ys: seq<Json>, s: string, t: string)
    requires forall i :: 0 <= i < |xs| ==> WellFormed(xs[i])
    requires forall i :: 0 <= i < |ys| ==> WellFormed(ys[i])
    requires ItemsText(xs, "]" + s) == ItemsText(ys, "]" + t)
    ensures xs == ys && s == t
    decreases xs
  {
    if xs == [] && ys == [] {
      assert s == ("]" + s)[1..] && t == ("]" + t)[1..];
    } else if xs != [] && ys != [] {
      var p := if |xs| == 1 then "]" + s else "," + ItemsText(xs[1..], "]" + s);
      var q := if |ys| == 1 then "]" + t else "," + ItemsText(ys[1..], "]" + t);
      TextPrefix(xs[0], ys[0], p, q);
      assert p[0] == q[0];
      if |xs| == 1 {
        assert s == p[1..] && t == q[1..];
      } else {
        assert p[1..] == ItemsText(xs[1..], "]" + s) && q[1..] == ItemsText(ys[1..], "]" + t);
        ItemsPrefix(xs[1..], ys[1..], s, t);
      }
      assert xs == [xs[0]] + xs[1..] && ys == [ys[0]] + ys[1..];
    } else {
      if xs != [] { TextStart(xs[0], if |xs| == 1 then "]" + s else "," + ItemsText(xs[1..], "]" + s)); }
      else { TextStart(ys[0], if |ys| == 1 then "]" + t else "," + ItemsText(ys[1..], "]" + t)); }
      assert false;
    }
  }

  lemma {:induction false} MembersPrefix(xs: seq<Member<Json>>, ys: seq<Member<Json>>, s: string, t: string)
    requires forall i :: 0 <= i < |xs| ==> WellFormed(xs[i].value)
    requires forall i :: 0 <= i < |ys| ==> WellFormed(ys[i].value)
    requires MembersText(xs, "}" + s) == MembersText(ys, "}" + t)
    ensures xs == ys && s == t
    decreases xs
  {
    if xs == [] && ys == [] {
      assert s == ("}" + s)[1..] && t == ("}" + t)[1..];
    } else if xs != [] && ys != [] {
      var p := if |xs| == 1 then "}" + s else "," + MembersText(xs[1..], "}" + s);
      var q := if |ys| == 1 then "}" + t else "," + MembersText(ys[1..], "}" + t);
      MembersSplit(xs, "}" + s, p);
      MembersSplit(ys, "}" + t, q);
      EscapeTextPrefix(xs[0].key, ys[0].key, ":" + Text(xs[0].value, p), ":" + Text(ys[0].value, q));
      assert (":" + Text(xs[0].value, p))[1..] == Text(xs[0].value, p) && (":" + Text(ys[0].value, q))[1..] == Text(ys[0].value, q);
      TextPrefix(xs[0].value, ys[0].value, p, q);
      assert p[0] == q[0];
      if |xs| == 1 {
        assert s == p[1..] && t == q[1..];
      } else {
        assert p[1..] == MembersText(xs[1..], "}" + s) && q[1..] == MembersText(ys[1..], "}" + t);
        MembersPrefix(xs[1..], ys[1..], s, t);
      }
      assert xs == [xs[0]] + xs[1..] && ys == [ys[0]] + ys[1..];
    } else {
      if xs != [] { MembersStart(xs, "}" + s); } else { MembersStart(ys, "}" + t); }
      assert false;
    }
  }

  lemma {:induction false} MembersStart(ms: seq<Member<Json>>, k: string)
    requires ms != []
    ensures MembersText(ms, k) != "" && MembersText(ms, k)[0] == '\"'
  {}

  lemma {:induction false} MembersSplit(ms: seq<Member<Json>>, k: string, p: string)
    requires ms != [] && p == if |ms| == 1 then k else "," + MembersText(ms[1..], k)
    ensures MembersText(ms, k) != "" && MembersText(ms, k)[1..] == EscapeText(ms[0].key, "\"" + (":" + Text(ms[0].value, p)))
  {
    assert "\":" + Text(ms[0].value, p) == "\"" + (":" + Text(ms[0].value, p));
  }

  // ------------------------------------------------------------------ main results

  lemma {:induction false} SortTreeWellFormed(v: Json)
    requires WellFormed(v)
    ensures WellFormed(SortTree(v))
    decreases v
  {
    match v
    case Arr(items) =>
      forall i | 0 <= i < |items| ensures WellFormed(SortItems(items)[i]) { SortTreeWellFormed(items[i]); }
    case Obj(ms) =>
      var us := SortMembers(ms);
      var ss := SortByKey(us);
      SortByKeySorts(us);
      assert DistinctFirst(us);
      forall i, j | 0 <= i < j < |ss| ensures ss[i].key != ss[j].key { LessTotal(ss[i].key, ss[j].key); }
      forall i | 0 <= i < |ss| ensures WellFormed(ss[i].value) {
        assert ss[i] in us;
        var k :| 0 <= k < |us| && us[k] == ss[i];
        SortTreeWellFormed(ms[k].value);
      }
    case _ =>
  }

  /** Two trees sort to the same tree exactly when they differ only in key order. */
  lemma {:induction false} SortTreeSame(a: Json, b: Json)
    requires WellFormed(a) && WellFormed(b)
    ensures SortTree(a) == SortTree(b) <==> SameTree(a, b)
    decreases a
  {
    match (a, b)
    case (Arr(xs), Arr(ys)) =>
      if |xs| == |ys| {
        forall i | 0 <= i < |xs| ensures SortTree(xs[i]) == SortTree(ys[i]) <==> SameTree(xs[i], ys[i]) {
          SortTreeSame(xs[i], ys[i]);
        }
        if SameTree(a, b) { assert SortItems(xs) == SortItems(ys); }
        if SortTree(a) == SortTree(b) {
          forall i | 0 <= i < |xs| ensures SameTree(xs[i], ys[i]) { assert SortItems(xs)[i] == SortItems(ys)[i]; }
        }
      }
    case (Obj(ms), Obj(ns)) => SortMembersSame(ms, ns);
    case _ =>
  }

  lemma {:induction false} SortMembersSame(ms: seq<Member<Json>>, ns: seq<Member<Json>>)
    requires WellFormed(Obj(ms)) && WellFormed(Obj(ns))
    ensures SortByKey(SortMembers(ms)) == SortByKey(SortMembers(ns)) <==> SameTree(Obj(ms), Obj(ns))
    decreases ms
  {
    var us, vs := SortMembers(ms), SortMembers(ns);
    SortByKeySorts(us);
    SortByKeySorts(vs);
    assert DistinctFirst(us) && DistinctFirst(vs);
    forall i, j | 0 <= i < |ms| && 0 <= j < |ns|
      ensures SortTree(ms[i].value) == SortTree(ns[j].value) <==> SameTree(ms[i].value, ns[j].value)
    {
      SortTreeSame(ms[i].value, ns[j].value);
    }
    if SameTree(Obj(ms), Obj(ns)) {
      forall x | x in SortByKey(us) ensures x in SortByKey(vs) {
        var i :| 0 <= i < |us| && us[i] == x;
        LookupSound(ns, ms[i].key);
        var j :| 0 <= j < |ns| && ns[j] == Member(ms[i].key, Lookup(ns, ms[i].key).value);
        assert vs[j] == us[i];
      }
      SortedUnique(SortByKey(us), SortByKey(vs));
    }
    if SortByKey(us) == SortByKey(vs) {
      forall i | 0 <= i < |ms|
        ensures Lookup(ns, ms[i].key).Some? && SameTree(ms[i].value, Lookup(ns, ms[i].key).value)
      {
        assert us[i] in SortByKey(vs);
        var j :| 0 <= j < |vs| && vs[j] == us[i];
        LookupFinds(ns, j);
      }
    }
  }

  /** Canon names a tree up to the order of its object keys, and nothing coarser or finer. */
  lemma {:induction false} CanonUnambiguous(a: Json, b: Json)
    requires WellFormed(a) && WellFormed(b)
    ensures Canon(a) == Canon(b) <==> SameTree(a, b)
  {
    CanonIsPrint(a);
    CanonIsPrint(b);
    SortTreeSame(a, b);
    if Canon(a) == Canon(b) {
      SortTreeWellFormed(a);
      SortTreeWellFormed(b);
      assert Print(SortTree(a)) + "" == Print(SortTree(a)) && Print(SortTree(b)) + "" == Print(SortTree(b));
      PrintText(SortTree(a), "");
      PrintText(SortTree(b), "");
      TextPrefix(SortTree(a), SortTree(b), "", "");
    }
  }
}
