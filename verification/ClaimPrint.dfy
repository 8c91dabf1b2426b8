/**
 Printed blocks read back (scripts/lib/claim-append.js against scripts/lib/claims.js): a list of one mapping,
 printed a line to a key, nested mappings two columns deeper, is what the strict parser reads.
 */
module ClaimPrint {
  import opened Options
  import opened CodeUnits
  import opened ClaimText
  import opened ClaimYaml

  const TICK: nat := 96

  predicate OneLine(u: Units) { NEWLINE !in u && RETURN !in u }

  predicate Ended(u: Units) { u != [] && !IsSpace(u[0]) && !IsSpace(u[|u| - 1]) }

  /**
   A printed field: the text of its line, and what it means. A leaf's text is its key, a colon and its
   spelling; the line of a nested mapping ends at the colon.
   */
  datatype Field =
    | Leaf(key: Units, content: Units, rest: Units, value: Value)
    | Nest(key: Units, content: Units, fields: seq<Field>)

  function Meaning(f: Field): Value {
    match f
    case Leaf(_, _, _, value) => value
    case Nest(_, _, fields) => Map(Onto([], fields))
  }

  /** The fields' entries after those already read. */
  function Onto(entries: seq<Entry>, fields: seq<Field>): seq<Entry>
    decreases fields
  {
    if fields == [] then entries else Onto(entries + [Entry(fields[0].key, Meaning(fields[0]))], fields[1..])
  }

  predicate Names(fields: seq<Field>, key: Units) {
    fields != [] && (fields[0].key == key || Names(fields[1..], key))
  }

  /** A printed line: its indentation and its text. */
  datatype Row = Row(indent: nat, content: Units)

  function Rows(fields: seq<Field>, indent: nat): seq<Row> {
    if fields == [] then [] else FieldRows(fields[0], indent) + Rows(fields[1..], indent)
  }

  function FieldRows(f: Field, indent: nat): (r: seq<Row>)
    ensures r != [] && r[0] == Row(indent, f.content)
  {
    [Row(indent, f.content)] + if f.Nest? then Rows(f.fields, indent + 2) else []
  }

  function Indent(n: nat): (u: Units)
    ensures |u| == n && forall i :: 0 <= i < n ==> u[i] == SPACE
  {
    if n == 0 then [] else [SPACE] + Indent(n - 1)
  }

  function RowText(r: Row): Units { Indent(r.indent) + r.content }

  function Texts(rows: seq<Row>): (t: seq<Units>)
    ensures |t| == |rows|
  {
    if rows == [] then [] else [RowText(rows[0])] + Texts(rows[1..])
  }

  function Numbered(rows: seq<Row>, raw: nat): (lines: seq<Line>)
    ensures |lines| == |rows|
  {
    if rows == [] then [] else [Line(rows[0].indent, rows[0].content, raw)] + Numbered(rows[1..], raw + 1)
  }

  // ------------------------------------------------------------------ rows scan as lines

  /** A line's text the scan keeps as it is. */
  predicate Clean(u: Units) {
    Ended(u) && OneLine(u) && u[0] != HASH && u[0] != TICK && StripFrom(u, 0, Plain) == Some(u)
  }

  predicate AllClean(rows: seq<Row>) { rows == [] || (Clean(rows[0].content) && AllClean(rows[1..])) }

  lemma {:induction false} SpacesOf(n: nat, u: Units)
    requires u != [] && u[0] != SPACE
    ensures Spaces(Indent(n) + u) == n && (Indent(n) + u)[n..] == u
  {
    if n == 0 {
      assert Indent(0) + u == u;
    } else {
      SpacesOf(n - 1, u);
      assert (Indent(n) + u)[1..] == Indent(n - 1) + u;
    }
  }

  lemma {:induction false} ScanRow(r: Row, raw: nat)
    requires Clean(r.content)
    ensures ScanLine(RowText(r), raw) == Keep(Line(r.indent, r.content, raw))
  {
    var u, c := RowText(r), r.content;
    assert IsSpace(SPACE);
    SpacesOf(r.indent, c);
    TrimLeftStops(Indent(r.indent), c);
    assert u[..|u| - |c|] == Indent(r.indent);
    assert c + [] == c;
    TrimRightStops(c, []);
  }

  lemma {:induction false} ScanRows(src: seq<Units>, raw: nat, done: seq<Line>, rows: seq<Row>)
    requires raw <= |src| && src[raw..] == Texts(rows) && AllClean(rows)
    ensures ScanFrom(src, raw, done) == Some(done + Numbered(rows, raw))
    decreases |rows|
  {
    if rows == [] {
      assert done + [] == done;
    } else {
      assert src[raw] == src[raw..][0] && src[raw + 1..] == src[raw..][1..];
      ScanRow(rows[0], raw);
      var line := Line(rows[0].indent, rows[0].content, raw);
      ScanRows(src, raw + 1, done + [line], rows[1..]);
      assert done + [line] + Numbered(rows[1..], raw + 1) == done + Numbered(rows, raw);
    }
  }

  // ------------------------------------------------------------------ a printed mapping is read

  /** The lines from `i` on start with `part`. */
  predicate At(lines: seq<Line>, i: nat, part: seq<Line>) {
    i + |part| <= |lines| && lines[i..i + |part|] == part
  }

  lemma {:induction false} AtParts(lines: seq<Line>, i: nat, a: seq<Line>, b: seq<Line>)
    requires At(lines, i, a + b)
    ensures At(lines, i, a) && At(lines, i + |a|, b)
  {
    var both := lines[i..i + |a + b|];
    assert both[..|a|] == lines[i..i + |a|] && both[|a|..] == lines[i + |a|..i + |a| + |b|];
    assert (a + b)[..|a|] == a && (a + b)[|a|..] == b;
  }

  lemma {:induction false} NumberedJoins(a: seq<Row>, b: seq<Row>, raw: nat)
    ensures Numbered(a + b, raw) == Numbered(a, raw) + Numbered(b, raw + |a|)
  {
    if a == [] {
      assert a + b == b;
    } else {
      NumberedJoins(a[1..], b, raw + 1);
      assert (a + b)[1..] == a[1..] + b;
    }
  }

  /** A mapping at an indentation ends before a shallower line or at the end. */
  predicate Stops(lines: seq<Line>, i: nat, indent: nat) {
    i >= |lines| || lines[i].indent < indent
  }

  lemma {:induction false} NewKey(entries: seq<Entry>, key: Units, v: Value, k: Units)
    ensures HasKey(entries + [Entry(key, v)], k) <==> HasKey(entries, k) || k == key
  {
    var more := entries + [Entry(key, v)];
    if HasKey(entries, k) {
      var i :| 0 <= i < |entries| && entries[i].key == k;
      assert more[i].key == k;
    }
    if k == key { assert more[|entries|].key == k; }
  }

  /** None of the keys still to come has been read. */
  predicate Unread(entries: seq<Entry>, fields: seq<Field>) {
    fields == [] || (!HasKey(entries, fields[0].key) && Unread(entries, fields[1..]))
  }

  lemma {:induction false} StillUnread(entries: seq<Entry>, key: Units, v: Value, fields: seq<Field>)
    requires Unread(entries, fields) && !Names(fields, key)
    ensures Unread(entries + [Entry(key, v)], fields)
  {
    if fields != [] {
      NewKey(entries, key, v, fields[0].key);
      StillUnread(entries, key, v, fields[1..]);
    }
  }

  lemma {:induction false} NoneRead(fields: seq<Field>)
    ensures Unread([], fields)
  {
    if fields != [] { NoneRead(fields[1..]); }
  }

  /**
   The parser of mappings, by what it does on a line: the key and text of a line, the scalar of a text, the
   value of a key and a whole mapping. So stated, its recursion stays out of what follows.
   */
  datatype Reader = Reader(
    key: Units -> Option<(Units, Units)>,
    scalar: Units -> Option<Value>,
    mapping: (seq<Line>, nat, nat, seq<Entry>) -> Read,
    value: (seq<Line>, nat, nat, Units) -> Read)

  predicate Turn(lines: seq<Line>, i: nat, indent: nat, entries: seq<Entry>) { true }

  predicate Look(lines: seq<Line>, i: nat, indent: nat, rest: Units) { true }

  /** parseMap stops before a shallower line, and goes on past a field it can read. */
  predicate MapsRight(r: Reader, lines: seq<Line>, i: nat, indent: nat, entries: seq<Entry>) {
    if i < |lines| && lines[i].indent == indent then
      var k := r.key(lines[i].content);
      k.Some? && !HasKey(entries, k.value.0) ==>
        var v := r.value(lines, i, indent, k.value.1);
        v.Got? ==>
          r.mapping(lines, i, indent, entries) == r.mapping(lines, v.next, indent, entries + [Entry(k.value.0, v.value)])
    else i <= |lines| && Stops(lines, i, indent) ==> r.mapping(lines, i, indent, entries) == Got(Map(entries), i)
  }

  /** A scalar is the text after the key; deeper lines are a mapping. */
  predicate ValuesRight(r: Reader, lines: seq<Line>, i: nat, indent: nat, rest: Units) {
    && (i < |lines| && r.scalar(rest).Some? ==> r.value(lines, i, indent, rest) == Got(r.scalar(rest).value, i + 1))
    && (i + 1 < |lines| && rest == [] && lines[i + 1].indent > indent && r.key(lines[i + 1].content).Some? ==>
      r.value(lines, i, indent, rest) == r.mapping(lines, i + 1, lines[i + 1].indent, []))
  }

  ghost predicate MapLaw(r: Reader) {
    forall lines, i, indent, entries {:trigger Turn(lines, i, indent, entries)} ::
      Turn(lines, i, indent, entries) ==> MapsRight(r, lines, i, indent, entries)
  }

  ghost predicate ValueLaw(r: Reader) {
    forall lines, i, indent, rest {:trigger Look(lines, i, indent, rest)} ::
      Look(lines, i, indent, rest) ==> ValuesRight(r, lines, i, indent, rest)
  }

  ghost predicate Follows(r: Reader) { MapLaw(r) && ValueLaw(r) }

  /** A field the reader takes for what it means. */
  predicate Sits(r: Reader, f: Field) {
    match f
    case Leaf(key, content, rest, value) => r.key(content) == Some((key, rest)) && r.scalar(rest) == Some(value)
    case Nest(key, content, fields) => r.key(content) == Some((key, [])) && fields != [] && AllSit(r, fields)
  }

  predicate AllSit(r: Reader, fields: seq<Field>) {
    fields == [] || (Sits(r, fields[0]) && AllSit(r, fields[1..]) && !Names(fields[1..], fields[0].key))
  }

  /** One turn of parseMap's loop. */
  lemma {:induction false} MapStep(r: Reader, lines: seq<Line>, i: nat, indent: nat, entries: seq<Entry>,
                                   key: Units, rest: Units, v: Value, next: nat)
    requires MapLaw(r)
    requires i < |lines| && lines[i].indent == indent && r.key(lines[i].content) == Some((key, rest))
    requires !HasKey(entries, key) && r.value(lines, i, indent, rest) == Got(v, next)
    ensures r.mapping(lines, i, indent, entries) == r.mapping(lines, next, indent, entries + [Entry(key, v)])
  {
    assert Turn(lines, i, indent, entries);
  }

  lemma {:induction false} MapStop(r: Reader, lines: seq<Line>, i: nat, indent: nat, entries: seq<Entry>)
    requires MapLaw(r) && i <= |lines| && Stops(lines, i, indent)
    ensures r.mapping(lines, i, indent, entries) == Got(Map(entries), i)
  {
    assert Turn(lines, i, indent, entries);
  }

  lemma {:induction false} LeafStep(r: Reader, lines: seq<Line>, i: nat, indent: nat, rest: Units)
    requires ValueLaw(r) && i < |lines| && r.scalar(rest).Some?
    ensures r.value(lines, i, indent, rest) == Got(r.scalar(rest).value, i + 1)
  {
    assert Look(lines, i, indent, rest);
  }

  lemma {:induction false} NestStep(r: Reader, lines: seq<Line>, i: nat, indent: nat)
    requires ValueLaw(r) && i + 1 < |lines| && lines[i + 1].indent > indent && r.key(lines[i + 1].content).Some?
    ensures r.value(lines, i, indent, []) == r.mapping(lines, i + 1, lines[i + 1].indent, [])
  {
    assert Look(lines, i, indent, []);
  }

  /** The rows of the first field, then those of the others. */
  lemma {:induction false} RowsPart(lines: seq<Line>, i: nat, fields: seq<Field>, indent: nat, raw: nat)
    requires fields != [] && At(lines, i, Numbered(Rows(fields, indent), raw))
    requires Stops(lines, i + |Rows(fields, indent)|, indent)
    ensures var first, more := FieldRows(fields[0], indent), Rows(fields[1..], indent);
      && |Rows(fields, indent)| == |first| + |more|
      && At(lines, i, Numbered(first, raw))
      && At(lines, i + |first|, Numbered(more, raw + |first|))
      && (i + |first| < |lines| ==> lines[i + |first|].indent <= indent)
  {
    var first, more := FieldRows(fields[0], indent), Rows(fields[1..], indent);
    NumberedJoins(first, more, raw);
    AtParts(lines, i, Numbered(first, raw), Numbered(more, raw + |first|));
    NextIndent(lines, i + |first|, fields[1..], indent, raw + |first|);
  }

  lemma {:induction false} NextIndent(lines: seq<Line>, i: nat, fields: seq<Field>, indent: nat, raw: nat)
    requires At(lines, i, Numbered(Rows(fields, indent), raw)) && Stops(lines, i + |Rows(fields, indent)|, indent)
    ensures i < |lines| ==> lines[i].indent <= indent
  {
    var rows := Rows(fields, indent);
    if fields != [] {
      assert rows[0] == FieldRows(fields[0], indent)[0];
      assert lines[i] == lines[i..i + |rows|][0];
    }
  }

  /** A printed mapping is read as what it means. */
  lemma {:induction false} MapReads(r: Reader, lines: seq<Line>, i: nat, indent: nat, fields: seq<Field>,
                                    entries: seq<Entry>, raw: nat)
    requires Follows(r) && AllSit(r, fields) && Unread(entries, fields)
    requires At(lines, i, Numbered(Rows(fields, indent), raw))
    requires Stops(lines, i + |Rows(fields, indent)|, indent)
    ensures r.mapping(lines, i, indent, entries) == Got(Map(Onto(entries, fields)), i + |Rows(fields, indent)|)
    decreases fields, 1
  {
    if fields == [] {
      MapStop(r, lines, i, indent, entries);
    } else {
      var f, n := fields[0], |FieldRows(fields[0], indent)|;
      var e := Entry(f.key, Meaning(f));
      RowsPart(lines, i, fields, indent, raw);
      FieldReads(r, lines, i, indent, f, raw);
      MapStep(r, lines, i, indent, entries, f.key, r.key(lines[i].content).value.1, e.value, i + n);
      StillUnread(entries, f.key, e.value, fields[1..]);
      MapReads(r, lines, i + n, indent, fields[1..], entries + [e], raw + n);
    }
  }

  /** The line of a field, and the lines of its mapping, give its key and its meaning. */
  lemma {:induction false} FieldReads(r: Reader, lines: seq<Line>, i: nat, indent: nat, f: Field, raw: nat)
    requires Follows(r) && Sits(r, f)
    requires At(lines, i, Numbered(FieldRows(f, indent), raw))
    requires i + |FieldRows(f, indent)| < |lines| ==> lines[i + |FieldRows(f, indent)|].indent <= indent
    ensures lines[i].indent == indent && r.key(lines[i].content).Some?
    ensures var k := r.key(lines[i].content).value;
      k.0 == f.key && r.value(lines, i, indent, k.1) == Got(Meaning(f), i + |FieldRows(f, indent)|)
    decreases f, 0
  {
    var rows := FieldRows(f, indent);
    assert lines[i] == Line(indent, f.content, raw) by { assert lines[i] == lines[i..i + |rows|][0]; }
    if f.Leaf? {
      LeafStep(r, lines, i, indent, f.rest);
    } else {
      NestPart(lines, i, indent, f, raw);
      assert Sits(r, f.fields[0]);
      NestStep(r, lines, i, indent);
      NoneRead(f.fields);
      MapReads(r, lines, i + 1, indent + 2, f.fields, [], raw + 1);
    }
  }

  /** The rows of a nested mapping follow its key's. */
  lemma {:induction false} NestPart(lines: seq<Line>, i: nat, indent: nat, f: Field, raw: nat)
    requires f.Nest? && f.fields != [] && At(lines, i, Numbered(FieldRows(f, indent), raw))
    ensures At(lines, i + 1, Numbered(Rows(f.fields, indent + 2), raw + 1))
    ensures i + 1 < |lines| && lines[i + 1] == Line(indent + 2, f.fields[0].content, raw + 1)
  {
    var key, inner := [Row(indent, f.content)], Rows(f.fields, indent + 2);
    NumberedJoins(key, inner, raw);
    AtParts(lines, i, Numbered(key, raw), Numbered(inner, raw + 1));
    assert inner[0] == FieldRows(f.fields[0], indent + 2)[0];
    assert lines[i + 1] == lines[i + 1..i + 1 + |inner|][0];
  }

  // ------------------------------------------------------------------ the parser as a reader

  function ReaderOf(s: Source): Reader {
    Reader(
      (u: Units) => KeyOf(u),
      (u: Units) => if u != [] && !IsBlockMark(u) then ParseScalar(s.h, u) else None,
      (lines: seq<Line>, i: nat, indent: nat, entries: seq<Entry>) =>
        if i <= |lines| then ParseMap(s, lines, i, indent, entries) else Refused,
      (lines: seq<Line>, i: nat, indent: nat, rest: Units) =>
        if i < |lines| then ParseValue(s, lines, i, indent, rest) else Refused)
  }

  lemma {:induction false} ParserFollows(s: Source)
    ensures Follows(ReaderOf(s))
  {
    forall lines: seq<Line>, i: nat, indent: nat, entries: seq<Entry>
      ensures MapsRight(ReaderOf(s), lines, i, indent, entries) { ParserMaps(s, lines, i, indent, entries); }
    forall lines: seq<Line>, i: nat, indent: nat, rest: Units
      ensures ValuesRight(ReaderOf(s), lines, i, indent, rest) { ParserValues(s, lines, i, indent, rest); }
  }

  lemma {:induction false} ParserMaps(s: Source, lines: seq<Line>, i: nat, indent: nat, entries: seq<Entry>)
    ensures MapsRight(ReaderOf(s), lines, i, indent, entries)
  {
  }

  lemma {:induction false} ParserValues(s: Source, lines: seq<Line>, i: nat, indent: nat, rest: Units)
    ensures ValuesRight(ReaderOf(s), lines, i, indent, rest)
  {
    if i + 1 < |lines| && rest == [] && lines[i + 1].indent > indent && KeyOf(lines[i + 1].content).Some? {
      assert ParseNode(s, lines, i + 1, lines[i + 1].indent) == ParseMap(s, lines, i + 1, lines[i + 1].indent, []);
    }
  }
  // ------------------------------------------------------------------ a line of a mapping

  lemma {:induction false} NamePlain(key: Units)
    requires IsName(key)
    ensures NoQuotes(key) && OneLine(key) && COLON !in key && !IsSpace(key[0]) && !IsSpace(key[|key| - 1])
    ensures key[0] != HASH && key[0] != DASH && Unquoted(key) == key && Trim(key) == key
    ensures forall i :: 0 <= i < |key| ==> !Opens(key[i]) && !Closes(key[i])
  {
    QuotedTrims(key);
  }

  /** The colon after a name is the one the line is split at. */
  lemma {:induction false} ColonAfter(before: Units, key: Units, after: Units)
    requires NoQuotes(key) && COLON !in key
    requires forall i :: 0 <= i < |key| ==> !Opens(key[i]) && !Closes(key[i])
    ensures var t := before + key + [COLON] + after;
      ColonFrom(t, |before|, Plain, 0) == Some(|before| + |key|)
    decreases |key|
  {
    var t := before + key + [COLON] + after;
    if key == [] {
      assert t[|before|] == COLON;
    } else {
      assert t[|before|] == key[0];
      ColonAfter(before + [key[0]], key[1..], after);
      assert before + [key[0]] + key[1..] + [COLON] + after == t;
    }
  }

  lemma {:induction false} KeyReads(key: Units, after: Units)
    requires IsName(key)
    ensures KeyOf(key + [COLON] + after) == Some((key, Trim(after)))
  {
    var t := key + [COLON] + after;
    NamePlain(key);
    ColonAfter([], key, after);
    assert [] + key + [COLON] + after == t;
    assert t[0] == key[0];
    assert t[..|key|] == key && t[|key| + 1..] == after;
  }

  /** How a scalar is written: as it stands, or between double quotes. */
  datatype Spelling = Bare(u: Units) | Dq(u: Units)

  function Spell(sp: Spelling): Units {
    match sp
    case Bare(u) => u
    case Dq(u) => Quoted(u)
  }

  /** A spelling the parser takes for a scalar. */
  predicate Spelled(h: Host, sp: Spelling) {
    match sp
    case Bare(u) => Ended(u) && NoQuotes(u) && OneLine(u) && !IsBlockMark(u) && ParseScalar(h, u).Some?
    case Dq(u) => OneLine(u)
  }

  /** What a spelling means; Null where the parser would refuse it. */
  function SpelledValue(h: Host, sp: Spelling): Value {
    match sp
    case Dq(u) => Text(u)
    case Bare(u) => var v := ParseScalar(h, u); if v.None? then Null else v.value
  }

  function LeafOf(h: Host, key: Units, sp: Spelling): Field {
    Leaf(key, key + [COLON, SPACE] + Spell(sp), Spell(sp), SpelledValue(h, sp))
  }

  function NestOf(key: Units, fields: seq<Field>): Field { Nest(key, key + [COLON], fields) }

  lemma {:induction false} EscapedOneLine(s: Units)
    requires OneLine(s)
    ensures OneLine(Quoted(s))
  {
    PrefixedOneLine(s, BACKSLASH);
    PrefixedOneLine(Prefixed(s, BACKSLASH), QUOTE);
  }

  lemma {:induction false} PrefixedOneLine(s: Units, u: nat)
    requires OneLine(s)
    ensures OneLine(Prefixed(s, u))
  {
    if s != [] { PrefixedOneLine(s[1..], u); }
  }

  lemma {:induction false} SpellingEnds(h: Host, sp: Spelling)
    requires Spelled(h, sp)
    ensures Ended(Spell(sp)) && OneLine(Spell(sp)) && !IsBlockMark(Spell(sp))
  {
    if sp.Dq? {
      var u := Spell(sp);
      EscapedOneLine(sp.u);
      assert u[0] == QUOTE && u[|u| - 1] == QUOTE;
    }
  }

  /** The text of a scalar, after the space, is read whole. */
  lemma {:induction false} SpellingTrims(u: Units)
    requires Ended(u)
    ensures Trim([SPACE] + u) == u
  {
    assert IsSpace(SPACE);
    TrimSurrounded([SPACE], u, []);
    assert [SPACE] + u + [] == [SPACE] + u;
  }

  /** The parser takes a printed scalar for what it means. */
  lemma {:induction false} LeafSits(s: Source, key: Units, sp: Spelling)
    requires IsName(key) && Spelled(s.h, sp)
    ensures Sits(ReaderOf(s), LeafOf(s.h, key, sp))
  {
    var u := Spell(sp);
    SpellingEnds(s.h, sp);
    SpellingTrims(u);
    assert key + [COLON, SPACE] + u == key + [COLON] + ([SPACE] + u);
    KeyReads(key, [SPACE] + u);
    if sp.Dq? { QuotedReads(s.h, sp.u); }
  }

  /** A printed scalar's line is kept by the scan, after whatever bare text comes before it. */
  lemma {:induction false} LeafClean(h: Host, lead: Units, key: Units, sp: Spelling)
    requires IsName(key) && Spelled(h, sp)
    requires NoQuotes(lead) && OneLine(lead) && (lead != [] ==> !IsSpace(lead[0]) && lead[0] != TICK)
    ensures Clean(lead + LeafOf(h, key, sp).content)
  {
    var c, u := lead + LeafOf(h, key, sp).content, Spell(sp);
    NamePlain(key);
    SpellingEnds(h, sp);
    var name := lead + key + [COLON, SPACE];
    assert c == name + u;
    assert c[0] == if lead == [] then key[0] else lead[0];
    assert c[|c| - 1] == u[|u| - 1];
    if sp.Dq? { StripsQuoted(name, sp.u); } else { StripsPlain(c); }
  }

  lemma {:induction false} NestClean(key: Units)
    requires IsName(key)
    ensures Clean(key + [COLON])
  {
    NamePlain(key);
    StripsPlain(key + [COLON]);
  }
}
