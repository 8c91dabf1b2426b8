/**
 The strict parser of claim blocks (scripts/lib/claims.js): lines are scanned first, then read by recursive
 descent. A refusal is Refused; its message is left out.
 */
module ClaimYaml {
  import opened Options
  import opened CodeUnits
  import opened ClaimText

  const TAB: nat := 9

  /** A scanned line: its indentation, its text without comment, and its index in the source. */
  datatype Line = Line(indent: nat, content: Units, raw: nat)

  /** A line of the source is kept, dropped, or refused. */
  datatype Scanned = Keep(line: Line) | Drop | Bad

  function Spaces(u: Units): (n: nat)
    ensures n <= |u|
  {
    if u == [] || u[0] != SPACE then 0 else 1 + Spaces(u[1..])
  }

  /** One turn of scanLines. */
  function ScanLine(u: Units, raw: nat): Scanned {
    var indent := Spaces(u);
    var body := u[indent..];
    if TrimLeft(u) == [] then Drop
    else if TAB in u[..|u| - |TrimLeft(u)|] then Bad
    else if body != [] && body[0] == HASH then Drop
    else
      var text := StripFrom(body, 0, Plain);
      if text.None? then Bad
      else if TrimRight(text.value) == [] then Drop
      else Keep(Line(indent, TrimRight(text.value), raw))
  }

  function ScanFrom(src: seq<Units>, raw: nat, done: seq<Line>): Option<seq<Line>>
    requires raw <= |src|
    decreases |src| - raw
  {
    if raw == |src| then Some(done)
    else
      match ScanLine(src[raw], raw)
      case Keep(line) => ScanFrom(src, raw + 1, done + [line])
      case Drop => ScanFrom(src, raw + 1, done)
      case Bad => None
  }

  /** scanLines */
  method ScanLines(src: seq<Units>) returns (r: Option<seq<Line>>)
    ensures r == ScanFrom(src, 0, [])
  {
    var out: seq<Line> := [];
    var idx := 0;
    while idx < |src|
      invariant 0 <= idx <= |src|
      invariant ScanFrom(src, idx, out) == ScanFrom(src, 0, [])
    {
      var line := src[idx];
      if TrimLeft(line) != [] {
        var indent := Spaces(line);
        if TAB in line[..|line| - |TrimLeft(line)|] { return None; }
        var body := line[indent..];
        if body == [] || body[0] != HASH {
          var text := StripComment(body);
          if text.None? { return None; }
          var content := TrimRight(text.value);
          if content != [] { out := out + [Line(indent, content, idx)]; }
        }
      }
      idx := idx + 1;
    }
    r := Some(out);
  }

  // ------------------------------------------------------------------ recursive descent

  datatype Read = Got(value: Value, next: nat) | Refused

  /** How readBlockScalar reads: from the lines of the source, the header's index, indentation and mark. */
  type BlockReader = (seq<Units>, nat, nat, Units) -> Option<(Units, nat)>

  datatype Source = Source(h: Host, block: BlockReader, src: seq<Units>)

  /** /^-(\s|$)/ */
  predicate IsItem(u: Units) { u != [] && u[0] == DASH && (|u| == 1 || IsSpace(u[1])) }

  predicate IsLetter(u: nat) { 65 <= u <= 90 || 97 <= u <= 122 || u == 95 }

  /** /^[A-Za-z_][A-Za-z0-9_-]*$/ */
  predicate IsName(u: Units) {
    u != [] && IsLetter(u[0]) && forall i :: 0 <= i < |u| ==> IsLetter(u[i]) || ClaimText.IsDigit(u[i]) || u[i] == DASH
  }

  /** The indicators of block scalars: > | >- |- */
  predicate IsBlockMark(u: Units) {
    (|u| == 1 && (u[0] == 62 || u[0] == 124)) || (|u| == 2 && (u[0] == 62 || u[0] == 124) && u[1] == DASH)
  }

  /** What is left to read: every line counts one more than its text. */
  function Weight(lines: seq<Line>, i: nat): nat
    decreases |lines| - i
  {
    if i >= |lines| then 0 else |lines[i].content| + 1 + Weight(lines, i + 1)
  }

  lemma {:induction false} WeightFalls(lines: seq<Line>, i: nat, j: nat)
    requires i <= j
    ensures Weight(lines, j) <= Weight(lines, i)
    ensures i < j && i < |lines| ==> Weight(lines, j) < Weight(lines, i)
    decreases j - i
  {
    if i < j { WeightFalls(lines, i + 1, j); }
  }

  /** The lines from `i` on that are indented more than `indent`. */
  function Deeper(lines: seq<Line>, i: nat, indent: nat): (j: nat)
    requires i <= |lines|
    ensures i <= j <= |lines|
    decreases |lines| - i
  {
    if i < |lines| && lines[i].indent > indent then Deeper(lines, i + 1, indent) else i
  }

  lemma {:induction false} WeightSame(a: seq<Line>, i: nat, b: seq<Line>, j: nat, n: nat)
    requires i + n <= |a| && j + n == |b| && a[i..i + n] == b[j..j + n]
    ensures Weight(b, j) <= Weight(a, i)
    decreases n
  {
    if n > 0 {
      assert a[i] == a[i..i + n][0] && b[j] == b[j..j + n][0];
      assert a[i + 1..i + n] == a[i..i + n][1..] && b[j + 1..j + n] == b[j..j + n][1..];
      WeightSame(a, i + 1, b, j + 1, n - 1);
    }
  }

  /** The lines of "- key: value": the item's own text as a line, and the deeper lines after it. */
  function Inner(lines: seq<Line>, i: nat, indent: nat): (inner: seq<Line>)
    requires i < |lines| && lines[i].content != []
  {
    var rest := TrimLeft(lines[i].content[1..]);
    [Line(indent + |lines[i].content| - |rest|, rest, lines[i].raw)] + lines[i + 1..Deeper(lines, i + 1, indent)]
  }

  lemma {:induction false} InnerFalls(lines: seq<Line>, i: nat, indent: nat)
    requires i < |lines| && lines[i].content != []
    ensures Weight(Inner(lines, i, indent), 0) < Weight(lines, i)
  {
    var inner, j := Inner(lines, i, indent), Deeper(lines, i + 1, indent);
    assert inner[1..] == lines[i + 1..j];
    WeightSame(lines, i + 1, inner, 1, j - i - 1);
  }

  function ParseNode(s: Source, lines: seq<Line>, i: nat, indent: nat): (r: Read)
    ensures r.Got? ==> i <= r.next <= |lines|
    decreases Weight(lines, i), 2
  {
    if i >= |lines| then Refused
    else if IsItem(lines[i].content) then ParseSeq(s, lines, i, indent, [])
    else ParseMap(s, lines, i, indent, [])
  }

  predicate ItemHere(lines: seq<Line>, i: nat, indent: nat) {
    i < |lines| && lines[i].indent == indent && IsItem(lines[i].content)
  }

  /** parseSeq from `i` on, after `items`. */
  function ParseSeq(s: Source, lines: seq<Line>, i: nat, indent: nat, items: seq<Value>): (r: Read)
    requires i <= |lines|
    ensures r.Got? ==> i <= r.next <= |lines|
    decreases Weight(lines, i), 1
  {
    if !ItemHere(lines, i, indent) then Got(List(items), i)
    else
      var r := ParseItem(s, lines, i, indent);
      if r.Refused? then Refused
      else
        WeightFalls(lines, i, r.next);
        ParseSeq(s, lines, r.next, indent, items + [r.value])
  }

  /** The item of a sequence at `i`. */
  function ParseItem(s: Source, lines: seq<Line>, i: nat, indent: nat): (r: Read)
    requires ItemHere(lines, i, indent)
    ensures r.Got? ==> i < r.next <= |lines|
    decreases Weight(lines, i), 0
  {
    var rest := TrimLeft(lines[i].content[1..]);
    WeightFalls(lines, i, i + 1);
    if rest == [] then
      if i + 1 == |lines| || lines[i + 1].indent <= indent then Refused
      else ParseNode(s, lines, i + 1, lines[i + 1].indent)
    else if ColonFrom(rest, 0, Plain, 0).Some? && !Opens(rest[0]) then
      var inner := Inner(lines, i, indent);
      InnerFalls(lines, i, indent);
      var r := ParseNode(s, inner, 0, inner[0].indent);
      if r.Refused? || r.next != |inner| then Refused else Got(r.value, Deeper(lines, i + 1, indent))
    else
      var v := ParseScalar(s.h, rest);
      if v.None? then Refused else Got(v.value, i + 1)
  }

  /** The lines a block scalar took. */
  function Past(lines: seq<Line>, i: nat, endRaw: nat): (j: nat)
    requires i <= |lines|
    ensures i <= j <= |lines|
    decreases |lines| - i
  {
    if i < |lines| && lines[i].raw < endRaw then Past(lines, i + 1, endRaw) else i
  }

  /** The key and the value's text of a line of a mapping. */
  function KeyOf(content: Units): Option<(Units, Units)> {
    var at := ColonFrom(content, 0, Plain, 0);
    if IsItem(content) || at.None? then None
    else
      var key := Unquoted(Trim(content[..at.value]));
      if IsName(key) then Some((key, Trim(content[at.value + 1..]))) else None
  }

  /** parseMap from `i` on, after `entries`. */
  function ParseMap(s: Source, lines: seq<Line>, i: nat, indent: nat, entries: seq<Entry>): (r: Read)
    requires i <= |lines|
    ensures r.Got? ==> i <= r.next <= |lines|
    decreases Weight(lines, i), 1
  {
    if i == |lines| || lines[i].indent < indent then Got(Map(entries), i)
    else if lines[i].indent > indent then Refused
    else
      var k := KeyOf(lines[i].content);
      if k.None? || HasKey(entries, k.value.0) then Refused
      else
        var r := ParseValue(s, lines, i, indent, k.value.1);
        if r.Refused? then Refused
        else
          WeightFalls(lines, i, r.next);
          ParseMap(s, lines, r.next, indent, entries + [Entry(k.value.0, r.value)])
  }

  /** The value of the key at `i`, whose text on the line is `rest`. */
  function ParseValue(s: Source, lines: seq<Line>, i: nat, indent: nat, rest: Units): (r: Read)
    requires i < |lines|
    ensures r.Got? ==> i < r.next <= |lines|
    decreases Weight(lines, i), 0
  {
    WeightFalls(lines, i, i + 1);
    if IsBlockMark(rest) then
      var b := s.block(s.src, lines[i].raw, indent, rest);
      if b.None? then Refused else Got(Text(b.value.0), Past(lines, i + 1, b.value.1))
    else if rest == [] then
      if i + 1 < |lines| && lines[i + 1].indent > indent then ParseNode(s, lines, i + 1, lines[i + 1].indent)
      else if ItemHere(lines, i + 1, indent) then ParseSeq(s, lines, i + 1, indent, [])
      else Refused
    else
      var v := ParseScalar(s.h, rest);
      if v.None? then Refused else Got(v.value, i + 1)
  }

  // ------------------------------------------------------------------ the parser's loops

  /** parseNode */
  method ReadNode(s: Source, lines: seq<Line>, i: nat, indent: nat) returns (r: Read)
    ensures r == ParseNode(s, lines, i, indent)
    decreases Weight(lines, i), 2
  {
    if i >= |lines| { return Refused; }
    if IsItem(lines[i].content) {
      r := ReadSeq(s, lines, i, indent);
    } else {
      r := ReadMap(s, lines, i, indent);
    }
  }

  /** parseSeq */
  method ReadSeq(s: Source, lines: seq<Line>, start: nat, indent: nat) returns (r: Read)
    requires start <= |lines|
    ensures r == ParseSeq(s, lines, start, indent, [])
    decreases Weight(lines, start), 1
  {
    var items: seq<Value> := [];
    var i := start;
    while ItemHere(lines, i, indent)
      invariant start <= i <= |lines|
      invariant ParseSeq(s, lines, i, indent, items) == ParseSeq(s, lines, start, indent, [])
      decreases |lines| - i
    {
      WeightFalls(lines, start, i);
      var item := ReadItem(s, lines, i, indent);
      if item.Refused? { return Refused; }
      items, i := items + [item.value], item.next;
    }
    r := Got(List(items), i);
  }

  /** The body of parseSeq's loop. */
  method ReadItem(s: Source, lines: seq<Line>, i: nat, indent: nat) returns (r: Read)
    requires ItemHere(lines, i, indent)
    ensures r == ParseItem(s, lines, i, indent)
    decreases Weight(lines, i), 0
  {
    var content := lines[i].content;
    var rest := TrimLeft(content[1..]);
    WeightFalls(lines, i, i + 1);
    if rest == [] {
      if i + 1 == |lines| || lines[i + 1].indent <= indent { return Refused; }
      r := ReadNode(s, lines, i + 1, lines[i + 1].indent);
      return;
    }
    var at := SplitTopLevelColon(rest);
    if at.Some? && !Opens(rest[0]) {
      var inner, j := GatherInner(lines, i, indent);
      InnerFalls(lines, i, indent);
      r := ReadNode(s, inner, 0, inner[0].indent);
      r := if r.Refused? || r.next != |inner| then Refused else Got(r.value, j);
      return;
    }
    var v := ParseScalar(s.h, rest);
    r := if v.None? then Refused else Got(v.value, i + 1);
  }

  /** The lines of an item that is a mapping. */
  method GatherInner(lines: seq<Line>, i: nat, indent: nat) returns (inner: seq<Line>, j: nat)
    requires i < |lines| && lines[i].content != []
    ensures inner == Inner(lines, i, indent) && j == Deeper(lines, i + 1, indent)
  {
    var content := lines[i].content;
    var rest := TrimLeft(content[1..]);
    inner := [Line(indent + |content| - |rest|, rest, lines[i].raw)];
    ghost var first := inner;
    j := i + 1;
    while j < |lines| && lines[j].indent > indent
      invariant i < j <= |lines| && Deeper(lines, j, indent) == Deeper(lines, i + 1, indent)
      invariant inner == first + lines[i + 1..j]
    {
      inner := inner + [lines[j]];
      j := j + 1;
    }
  }

  /** parseMap */
  method ReadMap(s: Source, lines: seq<Line>, start: nat, indent: nat) returns (r: Read)
    requires start <= |lines|
    ensures r == ParseMap(s, lines, start, indent, [])
    decreases Weight(lines, start), 1
  {
    var entries: seq<Entry> := [];
    var i := start;
    while i < |lines| && lines[i].indent == indent
      invariant start <= i <= |lines|
      invariant ParseMap(s, lines, i, indent, entries) == ParseMap(s, lines, start, indent, [])
      decreases |lines| - i
    {
      WeightFalls(lines, start, i);
      var k := ReadKey(lines[i].content);
      if k.None? || HasKey(entries, k.value.0) { return Refused; }
      var value := ReadValue(s, lines, i, indent, k.value.1);
      if value.Refused? { return Refused; }
      entries, i := entries + [Entry(k.value.0, value.value)], value.next;
    }
    r := if i < |lines| && lines[i].indent > indent then Refused else Got(Map(entries), i);
  }

  method ReadKey(content: Units) returns (k: Option<(Units, Units)>)
    ensures k == KeyOf(content)
  {
    if IsItem(content) { return None; }
    var at := SplitTopLevelColon(content);
    if at.None? { return None; }
    var key := Unquoted(Trim(content[..at.value]));
    k := if IsName(key) then Some((key, Trim(content[at.value + 1..]))) else None;
  }

  /** The value part of parseMap's loop. */
  method ReadValue(s: Source, lines: seq<Line>, i: nat, indent: nat, rest: Units) returns (r: Read)
    requires i < |lines|
    ensures r == ParseValue(s, lines, i, indent, rest)
    decreases Weight(lines, i), 0
  {
    WeightFalls(lines, i, i + 1);
    if IsBlockMark(rest) {
      var b := s.block(s.src, lines[i].raw, indent, rest);
      if b.None? { return Refused; }
      var j := i + 1;
      while j < |lines| && lines[j].raw < b.value.1
        invariant i < j <= |lines| && Past(lines, j, b.value.1) == Past(lines, i + 1, b.value.1)
      {
        j := j + 1;
      }
      r := Got(Text(b.value.0), j);
    } else if rest == [] {
      if i + 1 < |lines| && lines[i + 1].indent > indent {
        r := ReadNode(s, lines, i + 1, lines[i + 1].indent);
      } else if ItemHere(lines, i + 1, indent) {
        r := ReadSeq(s, lines, i + 1, indent);
      } else {
        r := Refused;
      }
    } else {
      var v := ParseScalar(s.h, rest);
      r := if v.None? then Refused else Got(v.value, i + 1);
    }
  }

  // ------------------------------------------------------------------ whole blocks

  /** replace(/\r\n?/g, '\n') */
  function Unreturned(u: Units): Units {
    if u == [] then []
    else if u[0] != RETURN then [u[0]] + Unreturned(u[1..])
    else [NEWLINE] + Unreturned(if |u| >= 2 && u[1] == NEWLINE then u[2..] else u[1..])
  }

  predicate Indented(lines: seq<Line>, base: nat) { forall i :: 0 <= i < |lines| ==> lines[i].indent >= base }

  /** What parseYamlSubset makes of scanned lines: Null when there are none. */
  function ParseLines(s: Source, lines: seq<Line>): Option<Value> {
    if lines == [] then Some(Null)
    else if !Indented(lines, lines[0].indent) then None
    else
      var r := ParseNode(s, lines, 0, lines[0].indent);
      if r.Refused? || r.next != |lines| then None else Some(r.value)
  }

  function ParseYaml(h: Host, block: BlockReader, text: Units): Option<Value> {
    var src := Split(Unreturned(text), NEWLINE);
    var lines := ScanFrom(src, 0, []);
    if lines.None? then None else ParseLines(Source(h, block, src), lines.value)
  }

  /** parseYamlSubset */
  method ParseYamlSubset(h: Host, block: BlockReader, text: Units) returns (r: Option<Value>)
    ensures r == ParseYaml(h, block, text)
  {
    var src := Split(Unreturned(text), NEWLINE);
    var lines := ScanLines(src);
    if lines.None? { return None; }
    if lines.value == [] { return Some(Null); }
    if !Indented(lines.value, lines.value[0].indent) { return None; }
    var node := ReadNode(Source(h, block, src), lines.value, 0, lines.value[0].indent);
    r := if node.Refused? || node.next != |lines.value| then None else Some(node.value);
  }
}
