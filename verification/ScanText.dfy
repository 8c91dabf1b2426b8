/**
 The second walk over wire JSON text (userland/src/nouns.ts, `scanText`): an iterative walk with a
 stack of frames and a path, proved to be the recursive reading of the text's tree. Text is a
 sequence of UTF-16 code units, so a lone surrogate is representable.
 */
module ScanText {
  import opened Options
  import opened Decimals
  import opened NumberText
  import opened CodeUnits

  const QUOTE: nat := 34
  const COMMA: nat := 44
  const COLON: nat := 58
  const BACKSLASH: nat := 92
  const OPEN_LIST: nat := 91
  const CLOSE_LIST: nat := 93
  const OPEN_OBJECT: nat := 123
  const CLOSE_OBJECT: nat := 125

  predicate IsGap(u: nat) { u == 32 || u == 9 || u == 10 || u == 13 }

  predicate AllGap(s: Units) { forall i :: 0 <= i < |s| ==> IsGap(s[i]) }

  // ------------------------------------------------------------------ string literals

  /** One character of a string literal: written raw, as a short escape, or as four hex digits. */
  datatype Part =
    | Raw(u: nat)
    | Short(letter: nat)
    | Hex(h: Units)

  predicate IsHexDigit(u: nat) { 48 <= u <= 57 || 65 <= u <= 70 || 97 <= u <= 102 }

  function HexDigit(u: nat): nat {
    if 48 <= u <= 57 then u - 48 else if 65 <= u <= 70 then u - 55 else if 97 <= u <= 102 then u - 87 else 0
  }

  predicate ValidPart(p: Part) {
    match p
    case Raw(u) => u >= 32 && u != QUOTE && u != BACKSLASH
    case Short(c) => c in {QUOTE, BACKSLASH, 47, 98, 102, 110, 114, 116}
    case Hex(h) => |h| == 4 && forall i :: 0 <= i < 4 ==> IsHexDigit(h[i])
  }

  predicate ValidParts(parts: seq<Part>) { forall i :: 0 <= i < |parts| ==> ValidPart(parts[i]) }

  function PartText(p: Part): Units {
    match p
    case Raw(u) => [u]
    case Short(c) => [BACKSLASH, c]
    case Hex(h) => [BACKSLASH, 117] + h
  }

  function PartsText(parts: seq<Part>): Units {
    if parts == [] then [] else PartText(parts[0]) + PartsText(parts[1..])
  }

  function Quoted(parts: seq<Part>): Units { [QUOTE] + (PartsText(parts) + [QUOTE]) }

  function ShortValue(c: nat): nat {
    if c == 98 then 8 else if c == 102 then 12 else if c == 110 then 10 else if c == 114 then 13 else if c == 116 then 9 else c
  }

  function HexValue(h: Units): nat
    requires |h| == 4
  {
    4096 * HexDigit(h[0]) + 256 * HexDigit(h[1]) + 16 * HexDigit(h[2]) + HexDigit(h[3])
  }

  function PartValue(p: Part): nat
    requires ValidPart(p)
  {
    match p
    case Raw(u) => u
    case Short(c) => ShortValue(c)
    case Hex(h) => HexValue(h)
  }

  function PartsValue(parts: seq<Part>): Units
    requires ValidParts(parts)
  {
    if parts == [] then [] else [PartValue(parts[0])] + PartsValue(parts[1..])
  }

  /** JSON.parse of the text between a literal's quotes. */
  function Unescape(body: Units): Units
    decreases |body|
  {
    if body == [] then []
    else if body[0] != BACKSLASH || |body| < 2 then [body[0]] + Unescape(body[1..])
    else if body[1] == 117 && |body| >= 6 then [HexValue(body[2..6])] + Unescape(body[6..])
    else [ShortValue(body[1])] + Unescape(body[2..])
  }

  lemma {:induction false} UnescapeReads(parts: seq<Part>)
    requires ValidParts(parts)
    ensures Unescape(PartsText(parts)) == PartsValue(parts)
    decreases |parts|
  {
    if parts != [] {
      UnescapeReads(parts[1..]);
      var p, k := parts[0], PartsText(parts[1..]);
      var body := PartText(p) + k;
      match p
      case Raw(u) => assert body[1..] == k;
      case Short(c) => assert body[2..] == k;
      case Hex(h) => assert body[2..6] == h && body[6..] == k;
    }
  }

  /** How far the closing quote is, stepping over each escaped character. */
  function ToQuote(u: Units): Option<nat>
    decreases |u|
  {
    if u == [] then None
    else if u[0] == QUOTE then Some(0)
    else
      var step := if u[0] == BACKSLASH then 2 else 1;
      if |u| < step then None
      else
        var more := ToQuote(u[step..]);
        if more.None? then None else Some(step + more.value)
  }

  lemma {:induction false} ToQuotePlain(h: Units, k: Units)
    requires ToQuote(k).Some? && forall i :: 0 <= i < |h| ==> h[i] != QUOTE && h[i] != BACKSLASH
    ensures ToQuote(h + k) == Some(|h| + ToQuote(k).value)
    decreases |h|
  {
    if h == [] {
      assert h + k == k;
    } else {
      ToQuotePlain(h[1..], k);
      assert (h + k)[1..] == h[1..] + k;
    }
  }

  lemma {:induction false} ToQuotePart(p: Part, more: Units)
    requires ValidPart(p) && ToQuote(more).Some?
    ensures ToQuote(PartText(p) + more) == Some(|PartText(p)| + ToQuote(more).value)
  {
    var u := PartText(p) + more;
    match p
    case Raw(_) => assert u[1..] == more;
    case Short(_) => assert u[2..] == more;
    case Hex(h) =>
      assert u[2..] == h + more;
      ToQuotePlain(h, more);
  }

  lemma {:induction false} ToQuoteParts(parts: seq<Part>, tail: Units)
    requires ValidParts(parts) && ToQuote(tail) == Some(0)
    ensures ToQuote(PartsText(parts) + tail) == Some(|PartsText(parts)|)
    decreases |parts|
  {
    if parts == [] {
      assert PartsText(parts) + tail == tail;
    } else {
      var p, more := parts[0], PartsText(parts[1..]);
      ToQuoteParts(parts[1..], tail);
      ToQuotePart(p, more + tail);
      Append(PartText(p), more, tail);
    }
  }

  lemma {:induction false} Append(a: Units, b: Units, c: Units)
    ensures a + b + c == a + (b + c)
  {}

  /** No half of a surrogate pair stands alone; String.prototype.isWellFormed. */
  predicate IsWellFormed(s: Units) {
    if s == [] then true
    else if 0xD800 <= s[0] <= 0xDBFF then |s| > 1 && 0xDC00 <= s[1] <= 0xDFFF && IsWellFormed(s[2..])
    else !(0xDC00 <= s[0] <= 0xDFFF) && IsWellFormed(s[1..])
  }

  // ------------------------------------------------------------------ trees and their texts

  datatype Tree =
    | Word(letters: string)
    | Number(literal: Literal)
    | Text(parts: seq<Part>)
    | List(gap: Units, items: seq<Item>)
    | Object(gap: Units, fields: seq<Field>)

  /** A value between its whitespace. */
  datatype Item = Item(before: Units, value: Tree, after: Units)

  datatype Field = Field(before: Units, key: seq<Part>, mid: Units, item: Item)

  ghost predicate Valid(t: Tree) {
    match t
    case Word(w) => w == "true" || w == "false" || w == "null"
    case Number(l) => ValidLiteral(l)
    case Text(parts) => ValidParts(parts)
    case List(gap, items) => AllGap(gap) && forall i :: 0 <= i < |items| ==> ValidItem(items[i])
    case Object(gap, fields) => AllGap(gap) && forall i :: 0 <= i < |fields| ==> ValidField(fields[i])
  }

  ghost predicate ValidItem(e: Item) { AllGap(e.before) && Valid(e.value) && AllGap(e.after) }

  ghost predicate ValidField(f: Field) { AllGap(f.before) && ValidParts(f.key) && AllGap(f.mid) && ValidItem(f.item) }

  ghost predicate ValidItems(items: seq<Item>) { forall i :: 0 <= i < |items| ==> ValidItem(items[i]) }

  ghost predicate ValidFields(fields: seq<Field>) { forall i :: 0 <= i < |fields| ==> ValidField(fields[i]) }

  /** The text of a tree, followed by `k`. */
  ghost function TreeText(t: Tree, k: Units): Units
    decreases t, 1
  {
    match t
    case Word(w) => Ascii(w) + k
    case Number(l) => Ascii(LiteralText(l)) + k
    case Text(parts) => Quoted(parts) + k
    case List(gap, items) =>
      [OPEN_LIST] + (if items == [] then gap + ([CLOSE_LIST] + k) else ItemText(items[0], ItemsText(items[1..], k)))
    case Object(gap, fields) =>
      [OPEN_OBJECT] + (if fields == [] then gap + ([CLOSE_OBJECT] + k) else FieldText(fields[0], FieldsText(fields[1..], k)))
  }

  ghost function ItemText(e: Item, k: Units): Units
    decreases e, 2
  {
    e.before + TreeText(e.value, e.after + k)
  }

  ghost function FieldText(f: Field, k: Units): Units
    decreases f, 3
  {
    f.before + (Quoted(f.key) + (f.mid + ([COLON] + ItemText(f.item, k))))
  }

  /** The members after the first, then the closing bracket. */
  ghost function ItemsText(items: seq<Item>, k: Units): Units
    decreases items, 0
  {
    if items == [] then [CLOSE_LIST] + k else [COMMA] + ItemText(items[0], ItemsText(items[1..], k))
  }

  ghost function FieldsText(fields: seq<Field>, k: Units): Units
    decreases fields, 0
  {
    if fields == [] then [CLOSE_OBJECT] + k else [COMMA] + FieldText(fields[0], FieldsText(fields[1..], k))
  }

  // ------------------------------------------------------------------ what the walk should find

  datatype Step = Key(key: Units) | Index(at: nat)

  type Path = seq<Step>

  datatype Problem = LoneSurrogate(path: Path) | Repeated(key: Units, path: Path)

  /** A number literal whose spelling is not the one its value is written with. */
  datatype Spelled = Spelled(path: Path, source: Units)

  datatype Outcome = Found(spelled: seq<Spelled>) | Broken(problem: Problem)

  /** First one part of the text, then the next. */
  function Then(a: Outcome, b: Outcome): Outcome {
    if a.Broken? then a else if b.Broken? then b else Found(a.spelled + b.spelled)
  }

  lemma {:induction false} ThenAssociates(a: Outcome, b: Outcome, c: Outcome)
    ensures Then(Then(a, b), c) == Then(a, Then(b, c))
  {
    if a.Found? && b.Found? && c.Found? { assert a.spelled + b.spelled + c.spelled == a.spelled + (b.spelled + c.spelled); }
  }

  lemma {:induction false} ThenNothing(a: Outcome)
    ensures Then(Found([]), a) == a && Then(a, Found([])) == a
  {
    if a.Found? { assert [] + a.spelled == a.spelled && a.spelled + [] == a.spelled; }
  }

  /**
   The recursive reading. `plain` says a literal is spelled the way JSON.stringify spells its value; that
   takes the printing of doubles, so it is a parameter, and every result holds whatever it says.
   */
  ghost function Scan(plain: Units -> bool, t: Tree, path: Path): Outcome
    requires Valid(t)
    decreases t, 1
  {
    match t
    case Word(_) => Found([])
    case Number(l) => Found(if plain(Ascii(LiteralText(l))) then [] else [Spelled(path, Ascii(LiteralText(l)))])
    case Text(parts) => if IsWellFormed(PartsValue(parts)) then Found([]) else Broken(LoneSurrogate(path))
    case List(_, items) => ScanItems(plain, items, 0, path)
    case Object(_, fields) => ScanFields(plain, fields, {}, path)
  }

  ghost function ScanItems(plain: Units -> bool, items: seq<Item>, at: nat, path: Path): Outcome
    requires ValidItems(items)
    decreases items, 0
  {
    if items == [] then Found([])
    else Then(Scan(plain, items[0].value, path + [Index(at)]), ScanItems(plain, items[1..], at + 1, path))
  }

  ghost function ScanFields(plain: Units -> bool, fields: seq<Field>, seen: set<Units>, path: Path): Outcome
    requires ValidFields(fields)
    decreases fields, 0
  {
    if fields == [] then Found([])
    else
      assert ValidField(fields[0]);
      assert ValidItem(fields[0].item);
      var key := PartsValue(fields[0].key);
      if !IsWellFormed(key) then Broken(LoneSurrogate(path))
      else if key in seen then Broken(Repeated(key, path))
      else Then(Scan(plain, fields[0].item.value, path + [Key(key)]), ScanFields(plain, fields[1..], seen + {key}, path))
  }

  // ------------------------------------------------------------------ the stack of frames

  /** An open container: the keys it has shown, or the position it is at. */
  datatype Frame = Keys(keys: set<Units>) | Position(index: nat)

  /** What a frame still has to read: the rest of its members, and the whitespace after the current one. */
  datatype Todo = Items(after: Units, items: seq<Item>) | Fields(after: Units, fields: seq<Field>)

  ghost predicate ValidTodo(d: Todo) {
    AllGap(d.after) && match d { case Items(_, items) => ValidItems(items) case Fields(_, fields) => ValidFields(fields) }
  }

  ghost predicate Fits(f: Frame, d: Todo, s: Step) {
    match f
    case Keys(_) => d.Fields? && s.Key?
    case Position(n) => d.Items? && s == Index(n)
  }

  ghost predicate StackFits(frames: seq<Frame>, todos: seq<Todo>, path: Path) {
    && |frames| == |todos| == |path|
    && forall i :: 0 <= i < |todos| ==> ValidTodo(todos[i]) && Fits(frames[i], todos[i], path[i])
  }

  /** The text left once the current value has ended. */
  ghost function RestText(todos: seq<Todo>, k: Units): Units
    decreases |todos|
  {
    if todos == [] then k
    else
      var n := |todos| - 1;
      var rest := RestText(todos[..n], k);
      match todos[n]
      case Items(after, items) => after + ItemsText(items, rest)
      case Fields(after, fields) => after + FieldsText(fields, rest)
  }

  /** What the walk still has to find once the current value has ended. */
  ghost function RestScan(plain: Units -> bool, frames: seq<Frame>, todos: seq<Todo>, path: Path): Outcome
    requires StackFits(frames, todos, path)
    decreases |todos|
  {
    if todos == [] then Found([])
    else
      var n := |todos| - 1;
      var rest := RestScan(plain, frames[..n], todos[..n], path[..n]);
      assert ValidTodo(todos[n]) && Fits(frames[n], todos[n], path[n]);
      match todos[n]
      case Items(_, items) => Then(ScanItems(plain, items, frames[n].index + 1, path[..n]), rest)
      case Fields(_, fields) => Then(ScanFields(plain, fields, frames[n].keys, path[..n]), rest)
  }

  // ------------------------------------------------------------------ the walk

  /** How many whitespace units `u` starts with. */
  function GapLength(u: Units): (n: nat)
    ensures n <= |u|
  {
    if u == [] || !IsGap(u[0]) then 0 else 1 + GapLength(u[1..])
  }

  lemma {:induction false} GapEnds(gap: Units, k: Units)
    requires AllGap(gap) && k != [] && !IsGap(k[0])
    ensures GapLength(gap + k) == |gap|
  {
    if gap == [] {
      assert gap + k == k;
    } else {
      GapEnds(gap[1..], k);
      assert (gap + k)[1..] == gap[1..] + k;
    }
  }

  method SkipGap(text: Units, start: nat, ghost gap: Units, ghost k: Units) returns (i: nat)
    requires start <= |text| && text[start..] == gap + k && AllGap(gap) && k != [] && !IsGap(k[0])
    ensures i == start + |gap| < |text| && text[i..] == k
  {
    i := start;
    while i < |text| && IsGap(text[i])
      invariant start <= i <= |text| && i + GapLength(text[i..]) == start + GapLength(text[start..])
    {
      assert text[i..][1..] == text[i + 1..];
      i := i + 1;
    }
    GapEnds(gap, k);
    assert i == start + |gap|;
    assert text[i..] == text[start..][|gap|..];
  }

  lemma {:induction false} ToQuoteStep(text: Units, i: nat)
    requires i <= |text| && ToQuote(text[i..]).Some?
    ensures i < |text| && (text[i] == QUOTE <==> ToQuote(text[i..]).value == 0)
    ensures text[i] != QUOTE ==>
      var step := if text[i] == BACKSLASH then 2 else 1;
      i + step <= |text| && ToQuote(text[i + step..]).Some? && step + ToQuote(text[i + step..]).value == ToQuote(text[i..]).value
  {
    var u := text[i..];
    assert text[i] == u[0];
    if u[0] != QUOTE {
      var step := if u[0] == BACKSLASH then 2 else 1;
      assert u[step..] == text[i + step..];
    }
  }

  /** The closing quote of the literal whose body starts at `start`. */
  method FindQuote(text: Units, start: nat) returns (i: nat)
    requires start <= |text| && ToQuote(text[start..]).Some?
    ensures i == start + ToQuote(text[start..]).value < |text|
  {
    i := start;
    ToQuoteStep(text, i);
    while text[i] != QUOTE
      invariant start <= i < |text| && ToQuote(text[i..]).Some? && i + ToQuote(text[i..]).value == start + ToQuote(text[start..]).value
      decreases |text| - i
    {
      ToQuoteStep(text, i);
      i := i + if text[i] == BACKSLASH then 2 else 1;
      ToQuoteStep(text, i);
    }
    ToQuoteStep(text, i);
  }

  lemma {:induction false} Pieces(text: Units, start: nat, body: Units, k: Units)
    requires start <= |text| && text[start..] == [QUOTE] + (body + [QUOTE]) + k
    ensures text[start + 1..] == body + ([QUOTE] + k)
    ensures start + 1 + |body| < |text| && text[start + 1..start + 1 + |body|] == body && text[start + 1 + |body| + 1..] == k
  {
    var from := text[start + 1..];
    assert from == text[start..][1..];
    assert from == body + ([QUOTE] + k);
    assert text[start + 1..start + 1 + |body|] == from[..|body|];
    assert text[start + 1 + |body| + 1..] == from[|body| + 1..];
  }

  lemma {:induction false} StringReads(text: Units, start: nat, parts: seq<Part>, k: Units)
    requires start <= |text| && ValidParts(parts) && text[start..] == Quoted(parts) + k
    ensures var stop := start + 1 + |PartsText(parts)|;
      && stop < |text| && ToQuote(text[start + 1..]) == Some(|PartsText(parts)|)
      && Unescape(text[start + 1..stop]) == PartsValue(parts) && text[stop + 1..] == k
  {
    Pieces(text, start, PartsText(parts), k);
    ToQuoteParts(parts, [QUOTE] + k);
    UnescapeReads(parts);
  }

  /** readString: the value of the literal that starts at `start`, and where it ends. */
  method ReadString(text: Units, start: nat, ghost parts: seq<Part>, ghost k: Units) returns (value: Units, i: nat)
    requires start <= |text| && ValidParts(parts) && text[start..] == Quoted(parts) + k
    ensures start < i <= |text| && text[i..] == k && value == PartsValue(parts)
  {
    StringReads(text, start, parts, k);
    i := FindQuote(text, start + 1);
    value := Unescape(text[start + 1..i]);
    i := i + 1;
  }

  // ------------------------------------------------------------------ number literals in the text

  predicate IsDigitUnit(u: nat) { 48 <= u <= 57 }

  function DigitSpan(u: Units): (n: nat)
    ensures n <= |u|
  {
    if u == [] || !IsDigitUnit(u[0]) then 0 else 1 + DigitSpan(u[1..])
  }

  function FracSpan(u: Units): (n: nat)
    ensures n <= |u|
  {
    if u == [] || u[0] != 46 || DigitSpan(u[1..]) == 0 then 0 else 1 + DigitSpan(u[1..])
  }

  function ExpSpan(u: Units): (n: nat)
    ensures n <= |u|
  {
    if u == [] || (u[0] != 69 && u[0] != 101) then 0
    else
      var sign := if |u| > 1 && (u[1] == 43 || u[1] == 45) then 1 else 0;
      var n := DigitSpan(u[1 + sign..]);
      if n == 0 then 0 else 1 + sign + n
  }

  function UnsignedSpan(u: Units): (n: nat)
    ensures n <= |u|
  {
    var whole := if u != [] && u[0] == 48 then 1 else DigitSpan(u);
    if whole == 0 then 0
    else
      var frac := FracSpan(u[whole..]);
      whole + frac + ExpSpan(u[whole + frac..])
  }

  /** NUMBER_AT.exec: the length of the longest literal `u` starts with, 0 for none. */
  function NumberAt(u: Units): (n: nat)
    ensures n <= |u|
  {
    if u != [] && u[0] == 45 then (if UnsignedSpan(u[1..]) == 0 then 0 else 1 + UnsignedSpan(u[1..]))
    else UnsignedSpan(u)
  }

  /** No number goes on into `k`. */
  predicate NumberEnds(k: Units) {
    k == [] || !(IsDigitUnit(k[0]) || k[0] == 46 || k[0] == 69 || k[0] == 101)
  }

  lemma {:induction false} DigitSpanStops(s: string, k: Units)
    requires AllDigits(s) && (k == [] || !IsDigitUnit(k[0]))
    ensures DigitSpan(Ascii(s) + k) == |s|
  {
    if s == "" {
      assert Ascii(s) + k == k;
    } else {
      DigitSpanStops(s[1..], k);
      assert (Ascii(s) + k)[1..] == Ascii(s[1..]) + k;
      assert (Ascii(s) + k)[0] == s[0] as nat;
    }
  }

  lemma {:induction false} ExpSpanReads(e: Option<Exponent>, k: Units)
    requires ValidExp(e) && NumberEnds(k)
    ensures ExpSpan(Ascii(ExpText(e)) + k) == |ExpText(e)|
  {
    var u := Ascii(ExpText(e)) + k;
    if e.None? {
      assert u == k;
    } else {
      var x := e.value;
      DigitSpanStops(x.digits, k);
      assert ExpText(e)[0] == x.marker;
      assert u[0] == x.marker as nat;
      if x.sign == "" {
        assert ExpText(e)[1] == x.digits[0];
        assert u[1..] == Ascii(x.digits) + k;
      } else {
        assert ExpText(e)[1] == x.sign[0];
        assert u[2..] == Ascii(x.digits) + k;
      }
    }
  }

  lemma {:induction false} ExpTextEnds(e: Option<Exponent>, k: Units)
    requires ValidExp(e) && NumberEnds(k)
    ensures var more := Ascii(ExpText(e)) + k; more == [] || !(IsDigitUnit(more[0]) || more[0] == 46)
  {
    ExpStart(e);
    var more := Ascii(ExpText(e)) + k;
    if e.Some? { assert more[0] == ExpText(e)[0] as nat; } else { assert more == k; }
  }

  lemma {:induction false} FracSpanReads(l: Literal, k: Units)
    requires ValidLiteral(l) && NumberEnds(k)
    ensures FracSpan(Ascii(FracText(l.frac)) + (Ascii(ExpText(l.exp)) + k)) == |FracText(l.frac)|
  {
    var more := Ascii(ExpText(l.exp)) + k;
    ExpTextEnds(l.exp, k);
    var u := Ascii(FracText(l.frac)) + more;
    if l.frac.Some? {
      DigitSpanStops(l.frac.value, more);
      assert FracText(l.frac)[0] == '.';
      assert u[1..] == Ascii(l.frac.value) + more;
    } else {
      assert u == more;
    }
  }

  lemma {:induction false} UnsignedSpanParts(w: Units, f: Units, e: Units)
    requires w != [] && (w[0] == 48 ==> |w| == 1)
    requires DigitSpan(w + (f + e)) == |w| && FracSpan(f + e) == |f|
    ensures UnsignedSpan(w + (f + e)) == |w| + |f| + ExpSpan(e)
  {
    var u := w + (f + e);
    assert u[0] == w[0];
    assert u[|w|..] == f + e;
    assert u[|w| + |f|..] == e;
  }

  lemma {:induction false} WholeSpanReads(l: Literal, k: Units)
    requires ValidLiteral(l) && NumberEnds(k)
    ensures DigitSpan(Ascii(l.whole) + (Ascii(FracText(l.frac)) + (Ascii(ExpText(l.exp)) + k))) == |l.whole|
  {
    var more := Ascii(FracText(l.frac)) + (Ascii(ExpText(l.exp)) + k);
    RestStart(l);
    var r := FracText(l.frac) + ExpText(l.exp);
    assert more == Ascii(r) + k;
    if r != "" { assert more[0] == r[0] as nat; } else { assert more == k; }
    DigitSpanStops(l.whole, more);
  }

  lemma {:induction false} UnsignedSpanReads(l: Literal, k: Units)
    requires ValidLiteral(l) && NumberEnds(k)
    ensures UnsignedSpan(Ascii(Unsigned(l)) + k) == |Unsigned(l)|
  {
    var w, f, e := Ascii(l.whole), Ascii(FracText(l.frac)), Ascii(ExpText(l.exp)) + k;
    AsciiJoins(FracText(l.frac), ExpText(l.exp));
    AsciiJoins(l.whole, FracText(l.frac) + ExpText(l.exp));
    assert Ascii(Unsigned(l)) + k == w + (f + e);
    WholeSpanReads(l, k);
    FracSpanReads(l, k);
    ExpSpanReads(l.exp, k);
    assert w[0] == l.whole[0] as nat;
    UnsignedSpanParts(w, f, e);
  }

  lemma {:induction false} NumberAtReads(l: Literal, k: Units)
    requires ValidLiteral(l) && NumberEnds(k)
    ensures NumberAt(Ascii(LiteralText(l)) + k) == |LiteralText(l)|
  {
    var u := Ascii(Unsigned(l));
    UnsignedSpanReads(l, k);
    assert u[0] == l.whole[0] as nat;
    assert (u + k)[0] == u[0];
    AsciiJoins(if l.negative then "-" else "", Unsigned(l));
    if l.negative {
      assert Ascii("-") == [45];
      Append([45], u, k);
      assert ([45] + (u + k))[1..] == u + k;
    } else {
      assert Ascii("") + u == u;
    }
  }

  // ------------------------------------------------------------------ what the walk meets

  /** The first unit tells the kinds of value apart. */
  lemma {:induction false} TreeStart(t: Tree, k: Units)
    requires Valid(t)
    ensures TreeText(t, k) != [] && !IsGap(TreeText(t, k)[0])
    ensures t.Object? <==> TreeText(t, k)[0] == OPEN_OBJECT
    ensures t.List? <==> TreeText(t, k)[0] == OPEN_LIST
    ensures t.Text? <==> TreeText(t, k)[0] == QUOTE
    ensures t.Word? <==> TreeText(t, k)[0] in {116, 110, 102}
    ensures t.Number? <==> TreeText(t, k)[0] == 45 || IsDigitUnit(TreeText(t, k)[0])
  {
    match t
    case Word(w) => assert (Ascii(w) + k)[0] == w[0] as nat;
    case Number(l) =>
      var s := LiteralText(l);
      assert s[0] == (if l.negative then '-' else l.whole[0]);
      assert (Ascii(s) + k)[0] == s[0] as nat;
    case _ =>
  }

  /** The text after a value goes on with whitespace, a comma or a closing bracket. */
  lemma {:induction false} RestEnds(todos: seq<Todo>, k: Units)
    requires forall i :: 0 <= i < |todos| ==> ValidTodo(todos[i])
    requires AllGap(k)
    ensures NumberEnds(RestText(todos, k))
  {
    if todos != [] {
      var d := todos[|todos| - 1];
      assert ValidTodo(d);
      if d.after != [] {
        assert RestText(todos, k)[0] == d.after[0];
      } else {
        var rest := RestText(todos[..|todos| - 1], k);
        if d.Items? { assert RestText(todos, k) == ItemsText(d.items, rest); } else { assert RestText(todos, k) == FieldsText(d.fields, rest); }
      }
    }
  }

  // ------------------------------------------------------------------ the walk keeps its place

  /** A value `v` starts at `i`, after whitespace `gap`; `goal` is what is found, this value, and the rest. */
  ghost predicate AtValue(plain: Units -> bool, goal: Outcome, text: Units, i: nat, spelled: seq<Spelled>,
      frames: seq<Frame>, todos: seq<Todo>, path: Path, gap: Units, v: Tree, end: Units)
  {
    && i <= |text| && Valid(v) && AllGap(gap) && AllGap(end) && StackFits(frames, todos, path)
    && text[i..] == gap + TreeText(v, RestText(todos, end))
    && goal == Then(Found(spelled), Then(Scan(plain, v, path), RestScan(plain, frames, todos, path)))
  }

  /** A value has ended at `i`. */
  ghost predicate AtEnd(plain: Units -> bool, goal: Outcome, text: Units, i: nat, spelled: seq<Spelled>,
      frames: seq<Frame>, todos: seq<Todo>, path: Path, end: Units)
  {
    && i <= |text| && AllGap(end) && StackFits(frames, todos, path)
    && text[i..] == RestText(todos, end)
    && goal == Then(Found(spelled), RestScan(plain, frames, todos, path))
  }

  lemma {:induction false} RestPush(plain: Units -> bool, frames: seq<Frame>, todos: seq<Todo>, path: Path,
                                    f: Frame, d: Todo, s: Step, end: Units)
    requires StackFits(frames, todos, path) && ValidTodo(d) && Fits(f, d, s)
    ensures StackFits(frames + [f], todos + [d], path + [s])
    ensures RestText(todos + [d], end) == d.after +
      (if d.Items? then ItemsText(d.items, RestText(todos, end)) else FieldsText(d.fields, RestText(todos, end)))
    ensures RestScan(plain, frames + [f], todos + [d], path + [s]) == Then(
      if d.Items? then ScanItems(plain, d.items, f.index + 1, path) else ScanFields(plain, d.fields, f.keys, path),
      RestScan(plain, frames, todos, path))
  {
    var n := |todos|;
    assert (todos + [d])[..n] == todos && (frames + [f])[..n] == frames && (path + [s])[..n] == path;
  }

  /** From in front of a member's value: the todo is pushed, and the value is next. */
  lemma {:induction false} EnterItem(plain: Units -> bool, goal: Outcome, text: Units, i: nat, spelled: seq<Spelled>,
      frames: seq<Frame>, todos: seq<Todo>, path: Path, e: Item, items: seq<Item>, at: nat, gap: Units, end: Units)
    requires StackFits(frames, todos, path) && ValidItem(e) && ValidItems(items) && AllGap(end) && AllGap(gap) && i <= |text|
    requires text[i..] == gap + TreeText(e.value, e.after + ItemsText(items, RestText(todos, end)))
    requires goal == Then(Found(spelled), Then(ScanItems(plain, [e] + items, at, path), RestScan(plain, frames, todos, path)))
    ensures AtValue(plain, goal, text, i, spelled, frames + [Position(at)], todos + [Items(e.after, items)],
                    path + [Index(at)], gap, e.value, end)
  {
    RestPush(plain, frames, todos, path, Position(at), Items(e.after, items), Index(at), end);
    assert ([e] + items)[1..] == items;
    ThenAssociates(Scan(plain, e.value, path + [Index(at)]), ScanItems(plain, items, at + 1, path), RestScan(plain, frames, todos, path));
  }

  lemma {:induction false} EnterField(plain: Units -> bool, goal: Outcome, text: Units, i: nat, spelled: seq<Spelled>,
      frames: seq<Frame>, todos: seq<Todo>, path: Path, f: Field, fields: seq<Field>, seen: set<Units>, end: Units)
    requires StackFits(frames, todos, path) && ValidField(f) && ValidFields(fields) && ValidFields([f] + fields) && AllGap(end) && i <= |text|
    requires text[i..] == ItemText(f.item, FieldsText(fields, RestText(todos, end)))
    requires goal == Then(Found(spelled), Then(ScanFields(plain, [f] + fields, seen, path), RestScan(plain, frames, todos, path)))
    requires IsWellFormed(PartsValue(f.key)) && PartsValue(f.key) !in seen
    ensures AtValue(plain, goal, text, i, spelled, frames + [Keys(seen + {PartsValue(f.key)})],
                    todos + [Fields(f.item.after, fields)], path + [Key(PartsValue(f.key))], f.item.before, f.item.value, end)
  {
    var key := PartsValue(f.key);
    assert ValidItem(f.item);
    RestPush(plain, frames, todos, path, Keys(seen + {key}), Fields(f.item.after, fields), Key(key), end);
    assert ([f] + fields)[1..] == fields;
    ThenAssociates(Scan(plain, f.item.value, path + [Key(key)]), ScanFields(plain, fields, seen + {key}, path), RestScan(plain, frames, todos, path));
  }

  /** A key that cannot stand ends the walk. */
  lemma {:induction false} BadKey(plain: Units -> bool, goal: Outcome, spelled: seq<Spelled>, rest: Outcome,
                                  f: Field, fields: seq<Field>, seen: set<Units>, path: Path)
    requires ValidField(f) && ValidFields([f] + fields)
    requires goal == Then(Found(spelled), Then(ScanFields(plain, [f] + fields, seen, path), rest))
    ensures !IsWellFormed(PartsValue(f.key)) ==> goal == Broken(LoneSurrogate(path))
    ensures IsWellFormed(PartsValue(f.key)) && PartsValue(f.key) in seen ==> goal == Broken(Repeated(PartsValue(f.key), path))
  {
  }

  /** readKey, up to and past the colon. */
  method ReadKey(text: Units, start: nat, path: Path, keys: set<Units>, ghost f: Field, ghost k: Units)
    returns (problem: Option<Problem>, key: Units, i: nat)
    requires start <= |text| && ValidField(f) && text[start..] == FieldText(f, k)
    ensures key == PartsValue(f.key)
    ensures problem == if !IsWellFormed(key) then Some(LoneSurrogate(path)) else if key in keys then Some(Repeated(key, path)) else None
    ensures problem.None? ==> start < i <= |text| && text[i..] == ItemText(f.item, k)
  {
    ghost var more := [COLON] + ItemText(f.item, k);
    i := SkipGap(text, start, f.before, Quoted(f.key) + (f.mid + more));
    key, i := ReadString(text, i, f.key, f.mid + more);
    if !IsWellFormed(key) { return Some(LoneSurrogate(path)), key, i; }
    if key in keys { return Some(Repeated(key, path)), key, i; }
    i := SkipGap(text, i, f.mid, more);
    assert text[i + 1..] == text[i..][1..];
    i := i + 1;
    problem := None;
  }

  lemma {:induction false} WordReads(w: string, k: Units)
    requires w == "true" || w == "false" || w == "null"
    ensures var u := TreeText(Word(w), k); |w| <= |u| && u[|w|..] == k && |w| == if u[0] == 102 then 5 else 4
  {
    assert (Ascii(w) + k)[0] == w[0] as nat;
  }

  lemma {:induction false} NumberReads(l: Literal, k: Units)
    requires ValidLiteral(l) && NumberEnds(k)
    ensures var u := TreeText(Number(l), k); 0 < NumberAt(u) && u[..NumberAt(u)] == Ascii(LiteralText(l)) && u[NumberAt(u)..] == k
  {
    NumberAtReads(l, k);
  }

  method ReadNumber(plain: Units -> bool, text: Units, start: nat, path: Path, ghost l: Literal, ghost k: Units)
    returns (i: nat, found: Outcome)
    requires start <= |text| && ValidLiteral(l) && NumberEnds(k) && text[start..] == TreeText(Number(l), k)
    ensures start < i <= |text| && text[i..] == k && found == Scan(plain, Number(l), path)
  {
    NumberReads(l, k);
    var n := NumberAt(text[start..]);
    i := start + n;
    var source := text[start..i];
    assert source == text[start..][..n];
    assert text[i..] == text[start..][n..];
    found := Found(if plain(source) then [] else [Spelled(path, source)]);
  }

  /** A value that is no container: stepped over, and judged. */
  method ReadLeaf(plain: Units -> bool, text: Units, start: nat, path: Path, ghost v: Tree, ghost k: Units)
    returns (i: nat, found: Outcome)
    requires start <= |text| && Valid(v) && !v.List? && !v.Object? && NumberEnds(k) && text[start..] == TreeText(v, k)
    ensures start < i <= |text| && text[i..] == k && found == Scan(plain, v, path)
  {
    TreeStart(v, k);
    var c := text[start];
    assert c == text[start..][0];
    if c == QUOTE {
      var s;
      s, i := ReadString(text, start, v.parts, k);
      found := if IsWellFormed(s) then Found([]) else Broken(LoneSurrogate(path));
    } else if c == 116 || c == 110 || c == 102 {
      WordReads(v.letters, k);
      i := start + if c == 102 then 5 else 4;
      assert text[i..] == text[start..][i - start..];
      found := Found([]);
    } else {
      i, found := ReadNumber(plain, text, start, path, v.literal, k);
    }
  }

  /** The whitespace after an opening bracket. */
  ghost function OpenGap(v: Tree): Units
    requires v.List? || v.Object?
  {
    if v.List? then (if v.items == [] then v.gap else v.items[0].before)
    else if v.fields == [] then v.gap else v.fields[0].before
  }

  /** What follows it: the closing bracket, or the first member. */
  ghost function OpenRest(v: Tree, k: Units): Units
    requires v.List? || v.Object?
  {
    if v.List? then
      if v.items == [] then [CLOSE_LIST] + k
      else TreeText(v.items[0].value, v.items[0].after + ItemsText(v.items[1..], k))
    else if v.fields == [] then [CLOSE_OBJECT] + k
    else FieldText(v.fields[0].(before := []), FieldsText(v.fields[1..], k))
  }

  lemma {:induction false} OpenStarts(v: Tree, k: Units)
    requires Valid(v) && (v.List? || v.Object?)
    ensures TreeText(v, k)[1..] == OpenGap(v) + OpenRest(v, k) && AllGap(OpenGap(v))
    ensures OpenRest(v, k) != [] && !IsGap(OpenRest(v, k)[0])
    ensures v.List? ==> (OpenRest(v, k)[0] == CLOSE_LIST <==> v.items == [])
    ensures v.Object? ==> (OpenRest(v, k)[0] == CLOSE_OBJECT <==> v.fields == [])
  {
    if v.List? && v.items != [] {
      assert ValidItem(v.items[0]);
      TreeStart(v.items[0].value, v.items[0].after + ItemsText(v.items[1..], k));
    }
    if v.Object? && v.fields != [] {
      var f, g := v.fields[0], v.fields[0].(before := []);
      var more := FieldsText(v.fields[1..], k);
      assert ValidField(f);
      assert FieldText(f, more) == f.before + FieldText(g, more);
    }
  }

  lemma {:induction false} EmptyEnds(plain: Units -> bool, v: Tree, path: Path, k: Units)
    requires Valid(v) && ((v.List? && v.items == []) || (v.Object? && v.fields == []))
    ensures Scan(plain, v, path) == Found([]) && OpenRest(v, k)[1..] == k
  {
  }

  /** A leaf, or an empty container, has been read. */
  lemma {:induction false} ValueEnds(plain: Units -> bool, goal: Outcome, text: Units, here: nat, i: nat, spelled: seq<Spelled>,
      frames: seq<Frame>, todos: seq<Todo>, path: Path, gap: Units, v: Tree, end: Units)
    requires AtValue(plain, goal, text, here, spelled, frames, todos, path, gap, v, end)
    requires i <= |text| && text[i..] == RestText(todos, end)
    ensures Scan(plain, v, path).Broken? ==> goal == Scan(plain, v, path)
    ensures Scan(plain, v, path).Found? ==> AtEnd(plain, goal, text, i, spelled + Scan(plain, v, path).spelled, frames, todos, path, end)
  {
    ThenAssociates(Found(spelled), Scan(plain, v, path), RestScan(plain, frames, todos, path));
  }

  lemma {:induction false} PopStack(plain: Units -> bool, goal: Outcome, text: Units, i: nat, spelled: seq<Spelled>,
      frames: seq<Frame>, todos: seq<Todo>, path: Path, end: Units) returns (d: Todo, rest: Units)
    requires AtEnd(plain, goal, text, i, spelled, frames, todos, path, end) && todos != []
    ensures var n := |todos| - 1;
      && d == todos[n] && rest == RestText(todos[..n], end)
      && ValidTodo(d) && Fits(frames[n], d, path[n]) && StackFits(frames[..n], todos[..n], path[..n])
      && text[i..] == d.after + (if d.Items? then ItemsText(d.items, rest) else FieldsText(d.fields, rest))
      && goal == Then(Found(spelled), Then(
           if d.Items? then ScanItems(plain, d.items, frames[n].index + 1, path[..n])
           else ScanFields(plain, d.fields, frames[n].keys, path[..n]),
           RestScan(plain, frames[..n], todos[..n], path[..n])))
  {
    var n := |todos| - 1;
    d, rest := todos[n], RestText(todos[..n], end);
    assert Fits(frames[n], d, path[n]);
  }

  /** One step of the walk: a container opened or went on to its next member, a value ended, or the text is refused. */
  datatype Move = Opened | Ended | Failed(problem: Problem)

  /** A key is read, and its frame and path pushed. */
  method PushField(plain: Units -> bool, ghost goal: Outcome, text: Units, start: nat, ghost spelled: seq<Spelled>, frames: seq<Frame>,
                   path: Path, keys: set<Units>, ghost todos: seq<Todo>, ghost f: Field, ghost fields: seq<Field>, ghost end: Units)
    returns (move: Move, i: nat, newFrames: seq<Frame>, newPath: Path)
    requires StackFits(frames, todos, path) && ValidField(f) && ValidFields(fields) && ValidFields([f] + fields) && AllGap(end)
    requires start <= |text| && text[start..] == FieldText(f, FieldsText(fields, RestText(todos, end)))
    requires goal == Then(Found(spelled), Then(ScanFields(plain, [f] + fields, keys, path), RestScan(plain, frames, todos, path)))
    ensures move.Failed? ==> goal == Broken(move.problem)
    ensures !move.Failed? ==> move.Opened? && start < i
    ensures move.Opened? ==> AtValue(plain, goal, text, i, spelled, newFrames, todos + [Fields(f.item.after, fields)], newPath,
                                     f.item.before, f.item.value, end)
  {
    newFrames, newPath := frames, path;
    var problem, key, j := ReadKey(text, start, path, keys, f, FieldsText(fields, RestText(todos, end)));
    i := j;
    if problem.Some? {
      BadKey(plain, goal, spelled, RestScan(plain, frames, todos, path), f, fields, keys, path);
      return Failed(problem.value), i, newFrames, newPath;
    }
    EnterField(plain, goal, text, i, spelled, frames, todos, path, f, fields, keys, end);
    newFrames, newPath := frames + [Keys(keys + {key})], path + [Key(key)];
    move := Opened;
  }

  lemma {:induction false} ScanIgnoresGap(plain: Units -> bool, fields: seq<Field>, path: Path)
    requires ValidFields(fields) && fields != []
    ensures var f := fields[0].(before := []);
      ValidField(f) && ValidFields(fields[1..]) && ValidFields([f] + fields[1..])
      && ScanFields(plain, [f] + fields[1..], {}, path) == ScanFields(plain, fields, {}, path)
  {
    assert ValidField(fields[0]) && ValidItem(fields[0].item);
    var more := [fields[0].(before := [])] + fields[1..];
    assert more[1..] == fields[1..];
    assert ValidField(more[0]);
  }

  /** A container's opening bracket stands at `here`: it is empty, or its first member comes next. */
  method OpenValue(plain: Units -> bool, ghost goal: Outcome, text: Units, ghost start: nat, here: nat, ghost spelled: seq<Spelled>,
                   frames: seq<Frame>, path: Path, ghost todos: seq<Todo>, ghost gap: Units, ghost v: Tree, ghost end: Units)
    returns (move: Move, i: nat, newFrames: seq<Frame>, newPath: Path, ghost newTodos: seq<Todo>, ghost newGap: Units, ghost next: Tree)
    requires AtValue(plain, goal, text, start, spelled, frames, todos, path, gap, v, end) && (v.List? || v.Object?)
    requires start <= here < |text| && text[here..] == TreeText(v, RestText(todos, end))
    ensures move.Failed? ==> goal == Broken(move.problem)
    ensures move.Opened? ==> start < i && AtValue(plain, goal, text, i, spelled, newFrames, newTodos, newPath, newGap, next, end)
    ensures move.Ended? ==> start < i && AtEnd(plain, goal, text, i, spelled, newFrames, newTodos, newPath, end)
  {
    newFrames, newPath, newTodos, newGap, next := frames, path, todos, gap, v;
    ghost var rest := RestText(todos, end);
    var c := text[here];
    assert c == text[here..][0] && text[here + 1..] == text[here..][1..];
    OpenStarts(v, rest);
    i := SkipGap(text, here + 1, OpenGap(v), OpenRest(v, rest));
    assert text[i] == text[i..][0];
    if text[i] == (if c == OPEN_OBJECT then CLOSE_OBJECT else CLOSE_LIST) {
      EmptyEnds(plain, v, path, rest);
      assert text[i + 1..] == text[i..][1..];
      i := i + 1;
      ValueEnds(plain, goal, text, start, i, spelled, frames, todos, path, gap, v, end);
      assert spelled + [] == spelled;
      move := Ended;
    } else if c == OPEN_OBJECT {
      ghost var f, fields := v.fields[0].(before := []), v.fields[1..];
      ScanIgnoresGap(plain, v.fields, path);
      move, i, newFrames, newPath := PushField(plain, goal, text, i, spelled, frames, path, {}, todos, f, fields, end);
      newTodos, newGap, next := todos + [Fields(f.item.after, fields)], f.item.before, f.item.value;
    } else {
      ghost var e, items := v.items[0], v.items[1..];
      assert ValidItem(e) && v.items == [e] + items;
      EnterItem(plain, goal, text, i, spelled, frames, todos, path, e, items, 0, [], end);
      newFrames, newPath := frames + [Position(0)], path + [Index(0)];
      newTodos, newGap, next := todos + [Items(e.after, items)], [], e.value;
      move := Opened;
    }
  }

  /** A value starts at `start`. */
  method StartValue(plain: Units -> bool, ghost goal: Outcome, text: Units, start: nat, spelled: seq<Spelled>, frames: seq<Frame>,
                    path: Path, ghost todos: seq<Todo>, ghost gap: Units, ghost v: Tree, ghost end: Units)
    returns (move: Move, i: nat, newSpelled: seq<Spelled>, newFrames: seq<Frame>, newPath: Path,
             ghost newTodos: seq<Todo>, ghost newGap: Units, ghost next: Tree)
    requires AtValue(plain, goal, text, start, spelled, frames, todos, path, gap, v, end)
    ensures move.Failed? ==> goal == Broken(move.problem)
    ensures move.Opened? ==> start < i && AtValue(plain, goal, text, i, newSpelled, newFrames, newTodos, newPath, newGap, next, end)
    ensures move.Ended? ==> start < i && AtEnd(plain, goal, text, i, newSpelled, newFrames, newTodos, newPath, end)
  {
    newSpelled, newFrames, newPath, newTodos, newGap, next := spelled, frames, path, todos, gap, v;
    ghost var rest := RestText(todos, end);
    TreeStart(v, rest);
    i := SkipGap(text, start, gap, TreeText(v, rest));
    var c := text[i];
    assert c == text[i..][0];
    if c == OPEN_OBJECT || c == OPEN_LIST {
      move, i, newFrames, newPath, newTodos, newGap, next :=
        OpenValue(plain, goal, text, start, i, spelled, frames, path, todos, gap, v, end);
    } else {
      RestEnds(todos, end);
      var found;
      i, found := ReadLeaf(plain, text, i, path, v, rest);
      ValueEnds(plain, goal, text, start, i, spelled, frames, todos, path, gap, v, end);
      if found.Broken? { move := Failed(found.problem); } else { move, newSpelled := Ended, spelled + found.spelled; }
    }
  }

  /** Past a comma: the container's next member. */
  method NextMember(plain: Units -> bool, ghost goal: Outcome, text: Units, start: nat, ghost spelled: seq<Spelled>, frames: seq<Frame>,
                    path: Path, frame: Frame, ghost todos: seq<Todo>, ghost d: Todo, ghost end: Units)
    returns (move: Move, i: nat, newFrames: seq<Frame>, newPath: Path, ghost newTodos: seq<Todo>, ghost newGap: Units, ghost next: Tree)
    requires StackFits(frames, todos, path) && ValidTodo(d) && (frame.Keys? <==> d.Fields?) && AllGap(end) && start < |text|
    requires if d.Items? then d.items != [] && text[start..] == ItemsText(d.items, RestText(todos, end))
             else d.fields != [] && text[start..] == FieldsText(d.fields, RestText(todos, end))
    requires goal == Then(Found(spelled), Then(
               if d.Items? then ScanItems(plain, d.items, frame.index + 1, path) else ScanFields(plain, d.fields, frame.keys, path),
               RestScan(plain, frames, todos, path)))
    ensures !move.Ended?
    ensures move.Failed? ==> goal == Broken(move.problem)
    ensures move.Opened? ==> start < i && AtValue(plain, goal, text, i, spelled, newFrames, newTodos, newPath, newGap, next, end)
  {
    i := start + 1;
    assert text[i..] == text[start..][1..];
    if frame.Keys? {
      ghost var f, fields := d.fields[0], d.fields[1..];
      assert ValidField(f) && d.fields == [f] + fields;
      newTodos, newGap, next := todos + [Fields(f.item.after, fields)], f.item.before, f.item.value;
      move, i, newFrames, newPath := PushField(plain, goal, text, i, spelled, frames, path, frame.keys, todos, f, fields, end);
    } else {
      ghost var e, items := d.items[0], d.items[1..];
      assert ValidItem(e) && d.items == [e] + items;
      EnterItem(plain, goal, text, i, spelled, frames, todos, path, e, items, frame.index + 1, e.before, end);
      newFrames, newPath := frames + [Position(frame.index + 1)], path + [Index(frame.index + 1)];
      newTodos, newGap, next := todos + [Items(e.after, items)], e.before, e.value;
      move := Opened;
    }
  }

  /** A value has ended inside a container: on to its next member, or the container has ended too. */
  method EndValue(plain: Units -> bool, ghost goal: Outcome, text: Units, start: nat, spelled: seq<Spelled>, frames: seq<Frame>,
                  path: Path, ghost todos: seq<Todo>, ghost end: Units)
    returns (move: Move, i: nat, newFrames: seq<Frame>, newPath: Path,
             ghost newTodos: seq<Todo>, ghost newGap: Units, ghost next: Tree)
    requires AtEnd(plain, goal, text, start, spelled, frames, todos, path, end) && frames != []
    ensures move.Failed? ==> goal == Broken(move.problem)
    ensures move.Opened? ==> start < i && AtValue(plain, goal, text, i, spelled, newFrames, newTodos, newPath, newGap, next, end)
    ensures move.Ended? ==> start < i && AtEnd(plain, goal, text, i, spelled, newFrames, newTodos, newPath, end)
  {
    var n := |frames| - 1;
    ghost var d, rest := PopStack(plain, goal, text, start, spelled, frames, todos, path, end);
    newFrames, newPath, newTodos, newGap, next := frames[..n], path[..n], todos[..n], [], Word("null");
    i := SkipGap(text, start, d.after, if d.Items? then ItemsText(d.items, rest) else FieldsText(d.fields, rest));
    assert text[i] == text[i..][0] && text[i + 1..] == text[i..][1..];
    if text[i] == COMMA {
      move, i, newFrames, newPath, newTodos, newGap, next :=
        NextMember(plain, goal, text, i, spelled, newFrames, newPath, frames[n], newTodos, d, end);
    } else {
      i := i + 1;
      ThenNothing(RestScan(plain, newFrames, newTodos, newPath));
      move := Ended;
    }
  }

  /**
   scanText: the walk ends where the text does, and finds what the recursive reading of the tree finds:
   the first repeated key or lone surrogate, or else every number spelled another way, with its path.
   */
  method ScanText(plain: Units -> bool, text: Units, ghost t: Tree, ghost before: Units, ghost end: Units) returns (r: Outcome)
    requires Valid(t) && AllGap(before) && AllGap(end) && text == before + TreeText(t, end)
    ensures r == Scan(plain, t, [])
  {
    var spelled: seq<Spelled>, path: Path, frames: seq<Frame>, i := [], [], [], 0;
    ghost var goal := Scan(plain, t, []);
    ghost var v, gap, todos: seq<Todo> := t, before, [];
    ThenNothing(goal);
    while true
      invariant AtValue(plain, goal, text, i, spelled, frames, todos, path, gap, v, end)
      decreases |text| - i
    {
      ghost var here := i;
      var move;
      move, i, spelled, frames, path, todos, gap, v := StartValue(plain, goal, text, i, spelled, frames, path, todos, gap, v, end);
      if move.Failed? { return Broken(move.problem); }
      while move.Ended?
        invariant here < i && !move.Failed?
        invariant move.Ended? ==> AtEnd(plain, goal, text, i, spelled, frames, todos, path, end)
        invariant move.Opened? ==> AtValue(plain, goal, text, i, spelled, frames, todos, path, gap, v, end)
        decreases |text| - i
      {
        if frames == [] {
          ThenNothing(Found(spelled));
          return Found(spelled);
        }
        move, i, frames, path, todos, gap, v := EndValue(plain, goal, text, i, spelled, frames, path, todos, end);
        if move.Failed? { return Broken(move.problem); }
      }
    }
  }

  // ------------------------------------------------------------------ what the findings mean

  /** No object at any depth repeats a key, and no string or key holds a lone surrogate. */
  ghost predicate Clean(t: Tree)
    requires Valid(t)
  {
    match t
    case Word(_) => true
    case Number(_) => true
    case Text(parts) => IsWellFormed(PartsValue(parts))
    case List(_, items) => forall i :: 0 <= i < |items| ==> CleanItem(items[i])
    case Object(_, fields) =>
      && (forall i :: 0 <= i < |fields| ==> ValidField(fields[i]) && IsWellFormed(PartsValue(fields[i].key)) && CleanItem(fields[i].item))
      && (forall i, j :: 0 <= i < j < |fields| ==> PartsValue(fields[i].key) != PartsValue(fields[j].key))
  }

  ghost predicate CleanItem(e: Item) { ValidItem(e) && Clean(e.value) }

  /** `Clean` of an object's fields, from the front. */
  ghost predicate CleanFields(fields: seq<Field>, seen: set<Units>)
    requires ValidFields(fields)
  {
    fields == [] ||
    (assert ValidField(fields[0]);
     var key := PartsValue(fields[0].key);
     && IsWellFormed(key) && key !in seen && CleanItem(fields[0].item) && CleanFields(fields[1..], seen + {key}))
  }

  ghost predicate FieldsApart(fields: seq<Field>, seen: set<Units>)
    requires ValidFields(fields)
  {
    && (forall i :: 0 <= i < |fields| ==> ValidField(fields[i]) && IsWellFormed(PartsValue(fields[i].key)) && CleanItem(fields[i].item))
    && (forall i :: 0 <= i < |fields| ==> ValidField(fields[i]) && PartsValue(fields[i].key) !in seen)
    && (forall i, j :: 0 <= i < j < |fields| ==> ValidField(fields[i]) && ValidField(fields[j]) && PartsValue(fields[i].key) != PartsValue(fields[j].key))
  }

  lemma {:induction false} CleanFieldsApart(fields: seq<Field>, seen: set<Units>)
    requires ValidFields(fields)
    ensures CleanFields(fields, seen) <==> FieldsApart(fields, seen)
    decreases |fields|
  {
    if fields != [] {
      assert ValidField(fields[0]);
      var key := PartsValue(fields[0].key);
      var more := fields[1..];
      CleanFieldsApart(more, seen + {key});
      assert forall i :: 0 <= i < |more| ==> more[i] == fields[i + 1];
      if FieldsApart(fields, seen) {
        forall i | 0 <= i < |more| ensures PartsValue(more[i].key) !in seen + {key} { assert fields[i + 1] == more[i] && ValidField(fields[i + 1]); }
        assert FieldsApart(more, seen + {key});
      }
      if CleanFields(fields, seen) {
        forall i | 0 <= i < |fields|
          ensures ValidField(fields[i]) && IsWellFormed(PartsValue(fields[i].key)) && CleanItem(fields[i].item) && PartsValue(fields[i].key) !in seen
        {
          if i > 0 { assert fields[i] == more[i - 1]; }
        }
        forall i, j | 0 <= i < j < |fields|
          ensures ValidField(fields[i]) && ValidField(fields[j]) && PartsValue(fields[i].key) != PartsValue(fields[j].key)
        {
          assert fields[j] == more[j - 1];
          if i > 0 { assert fields[i] == more[i - 1]; }
        }
      }
    }
  }

  /** The walk refuses a text exactly when it is not clean. */
  lemma {:induction false} RefusesUnclean(plain: Units -> bool, t: Tree, path: Path)
    requires Valid(t)
    ensures Scan(plain, t, path).Broken? <==> !Clean(t)
    decreases t, 1
  {
    match t
    case List(_, items) => ItemsRefuse(plain, items, 0, path);
    case Object(_, fields) =>
      FieldsRefuse(plain, fields, {}, path);
      CleanFieldsApart(fields, {});
    case _ =>
  }

  lemma {:induction false} ItemsRefuse(plain: Units -> bool, items: seq<Item>, at: nat, path: Path)
    requires ValidItems(items)
    ensures ScanItems(plain, items, at, path).Found? <==> forall i :: 0 <= i < |items| ==> CleanItem(items[i])
    decreases items, 0
  {
    if items != [] {
      assert ValidItem(items[0]);
      RefusesUnclean(plain, items[0].value, path + [Index(at)]);
      ItemsRefuse(plain, items[1..], at + 1, path);
      assert forall i :: 0 < i < |items| ==> items[i] == items[1..][i - 1];
      assert forall i :: 0 <= i < |items[1..]| ==> items[1..][i] == items[i + 1];
    }
  }

  lemma {:induction false} FieldsRefuse(plain: Units -> bool, fields: seq<Field>, seen: set<Units>, path: Path)
    requires ValidFields(fields)
    ensures ScanFields(plain, fields, seen, path).Found? <==> CleanFields(fields, seen)
    decreases fields, 0
  {
    if fields != [] {
      assert ValidField(fields[0]) && ValidItem(fields[0].item);
      var key := PartsValue(fields[0].key);
      RefusesUnclean(plain, fields[0].item.value, path + [Key(key)]);
      FieldsRefuse(plain, fields[1..], seen + {key}, path);
    }
  }

  /** `path` leads from `t` to a number literal written `source`. */
  ghost predicate Leads(t: Tree, path: Path, source: Units)
    requires Valid(t)
    decreases |path|, 1
  {
    if path == [] then t.Number? && Ascii(LiteralText(t.literal)) == source
    else if path[0].Index? then t.List? && path[0].at < |t.items| && ItemLeads(t.items[path[0].at], path[1..], source)
    else t.Object? && exists i :: 0 <= i < |t.fields| && FieldLeads(t.fields[i], path, source)
  }

  ghost predicate ItemLeads(e: Item, path: Path, source: Units)
    decreases |path|, 2
  {
    ValidItem(e) && Leads(e.value, path, source)
  }

  ghost predicate FieldLeads(f: Field, path: Path, source: Units)
    decreases |path|, 0
  {
    path != [] && ValidField(f) && path[0] == Key(PartsValue(f.key)) && ItemLeads(f.item, path[1..], source)
  }

  ghost predicate Under(found: Outcome, base: Path) {
    found.Found? ==> forall i :: 0 <= i < |found.spelled| ==> base <= found.spelled[i].path
  }

  ghost predicate Lists(found: Outcome, path: Path, source: Units) {
    found.Found? && Spelled(path, source) in found.spelled
  }

  lemma {:induction false} ThenUnder(a: Outcome, b: Outcome, base: Path, s: Step)
    requires Under(a, base + [s]) && Under(b, base)
    ensures Under(Then(a, b), base)
  {
    if a.Found? {
      forall i | 0 <= i < |a.spelled| ensures base <= a.spelled[i].path { assert base <= base + [s] <= a.spelled[i].path; }
    }
  }

  lemma {:induction false} ThenLists(a: Outcome, b: Outcome, path: Path, source: Units)
    requires Then(a, b).Found?
    ensures Lists(Then(a, b), path, source) <==> Lists(a, path, source) || Lists(b, path, source)
  {
  }

  /** What is found in a value lies below the value's own path. */
  lemma {:induction false} ScanUnder(plain: Units -> bool, t: Tree, base: Path)
    requires Valid(t)
    ensures Under(Scan(plain, t, base), base)
    decreases t, 1
  {
    match t
    case List(_, items) => ItemsUnder(plain, items, 0, base);
    case Object(_, fields) => FieldsUnder(plain, fields, {}, base);
    case _ =>
  }

  lemma {:induction false} ItemsUnder(plain: Units -> bool, items: seq<Item>, at: nat, base: Path)
    requires ValidItems(items)
    ensures Under(ScanItems(plain, items, at, base), base)
    decreases items, 0
  {
    if items != [] {
      assert ValidItem(items[0]);
      ScanUnder(plain, items[0].value, base + [Index(at)]);
      ItemsUnder(plain, items[1..], at + 1, base);
      ThenUnder(Scan(plain, items[0].value, base + [Index(at)]), ScanItems(plain, items[1..], at + 1, base), base, Index(at));
    }
  }

  lemma {:induction false} FieldsUnder(plain: Units -> bool, fields: seq<Field>, seen: set<Units>, base: Path)
    requires ValidFields(fields)
    ensures Under(ScanFields(plain, fields, seen, base), base)
    decreases fields, 0
  {
    if fields != [] {
      assert ValidField(fields[0]) && ValidItem(fields[0].item);
      var key := PartsValue(fields[0].key);
      ScanUnder(plain, fields[0].item.value, base + [Key(key)]);
      FieldsUnder(plain, fields[1..], seen + {key}, base);
      ThenUnder(Scan(plain, fields[0].item.value, base + [Key(key)]), ScanFields(plain, fields[1..], seen + {key}, base), base, Key(key));
    }
  }

  /** Something listed under `base + [s]` has `s` as its next step. */
  lemma {:induction false} StepUnder(found: Outcome, base: Path, s: Step, path: Path, source: Units)
    requires Under(found, base + [s]) && Lists(found, base + path, source)
    ensures path != [] && path[0] == s
  {
    var i :| 0 <= i < |found.spelled| && found.spelled[i] == Spelled(base + path, source);
    assert base + [s] <= base + path;
    assert (base + path)[|base|] == (base + [s])[|base|];
  }

  /**
   What an accepted text's walk lists: exactly the number literals not spelled the way their values are
   written, each under the path that leads to it.
   */
  lemma {:induction false} ListsExactly(plain: Units -> bool, t: Tree, base: Path, path: Path, source: Units)
    requires Valid(t) && Scan(plain, t, base).Found?
    ensures Lists(Scan(plain, t, base), base + path, source) <==> Leads(t, path, source) && !plain(source)
    decreases t, 1
  {
    match t
    case Number(l) => assert base + path == base <==> path == [];
    case List(_, items) => ItemsList(plain, items, 0, base, path, source);
    case Object(_, fields) =>
      FieldsList(plain, fields, {}, base, path, source);
    case _ =>
  }

  lemma {:induction false} ItemsList(plain: Units -> bool, items: seq<Item>, at: nat, base: Path, path: Path, source: Units)
    requires ValidItems(items) && ScanItems(plain, items, at, base).Found?
    ensures Lists(ScanItems(plain, items, at, base), base + path, source) <==>
      path != [] && path[0].Index? && at <= path[0].at < at + |items| && ItemLeads(items[path[0].at - at], path[1..], source) && !plain(source)
    decreases items, 0
  {
    if items != [] {
      assert ValidItem(items[0]);
      var first, more := Scan(plain, items[0].value, base + [Index(at)]), ScanItems(plain, items[1..], at + 1, base);
      ThenLists(first, more, base + path, source);
      ItemsList(plain, items[1..], at + 1, base, path, source);
      ScanUnder(plain, items[0].value, base + [Index(at)]);
      if Lists(first, base + path, source) { StepUnder(first, base, Index(at), path, source); }
      if path != [] && path[0] == Index(at) {
        assert base + path == base + [Index(at)] + path[1..];
        ListsExactly(plain, items[0].value, base + [Index(at)], path[1..], source);
      }
    }
  }

  lemma {:induction false} FieldsList(plain: Units -> bool, fields: seq<Field>, seen: set<Units>, base: Path, path: Path, source: Units)
    requires ValidFields(fields) && ScanFields(plain, fields, seen, base).Found?
    ensures Lists(ScanFields(plain, fields, seen, base), base + path, source) <==>
      (exists i :: 0 <= i < |fields| && FieldLeads(fields[i], path, source)) && !plain(source)
    decreases fields, 0
  {
    if fields != [] {
      assert ValidField(fields[0]) && ValidItem(fields[0].item);
      var key := PartsValue(fields[0].key);
      var first, more := Scan(plain, fields[0].item.value, base + [Key(key)]), ScanFields(plain, fields[1..], seen + {key}, base);
      ThenLists(first, more, base + path, source);
      FieldsList(plain, fields[1..], seen + {key}, base, path, source);
      SomeField(fields, path, source);
      ScanUnder(plain, fields[0].item.value, base + [Key(key)]);
      if Lists(first, base + path, source) { StepUnder(first, base, Key(key), path, source); }
      if path != [] && path[0] == Key(key) {
        assert base + path == base + [Key(key)] + path[1..];
        ListsExactly(plain, fields[0].item.value, base + [Key(key)], path[1..], source);
      }
    }
  }

  lemma {:induction false} SomeField(fields: seq<Field>, path: Path, source: Units)
    requires fields != []
    ensures (exists i :: 0 <= i < |fields| && FieldLeads(fields[i], path, source)) <==>
      FieldLeads(fields[0], path, source) || exists i :: 0 <= i < |fields[1..]| && FieldLeads(fields[1..][i], path, source)
  {
    if i :| 0 <= i < |fields| && FieldLeads(fields[i], path, source) {
      if i > 0 { assert fields[1..][i - 1] == fields[i]; }
    }
    if i :| 0 <= i < |fields[1..]| && FieldLeads(fields[1..][i], path, source) { assert fields[i + 1] == fields[1..][i]; }
  }

  /** The text's own verdict: refused when unclean, and otherwise the misspelled numbers by their paths. */
  lemma {:induction false} ScanMeaning(plain: Units -> bool, t: Tree, path: Path, source: Units)
    requires Valid(t)
    ensures Scan(plain, t, []).Broken? <==> !Clean(t)
    ensures Clean(t) ==> (Spelled(path, source) in Scan(plain, t, []).spelled <==> Leads(t, path, source) && !plain(source))
  {
    RefusesUnclean(plain, t, []);
    if Clean(t) {
      ListsExactly(plain, t, [], path, source);
      assert [] + path == path;
    }
  }
}
