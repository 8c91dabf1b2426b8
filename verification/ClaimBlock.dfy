/**
 A printed block read whole: a list of one mapping under one key (scripts/lib/claim-append.js,
 scripts/lib/claims.js).
 */
module ClaimBlock {
  import opened Options
  import opened CodeUnits
  import opened ClaimText
  import opened ClaimYaml
  import opened ClaimPrint

  const Bullet: Units := [DASH, SPACE]

  /** A list of one mapping under a key: the first field's line carries the bullet. */
  function ListRows(key: Units, fields: seq<Field>): (rows: seq<Row>)
    requires fields != []
  {
    [Row(0, key + [COLON]), Row(2, Bullet + fields[0].content)] + Rows(fields, 4)[1..]
  }

  predicate Deep(rows: seq<Row>, n: nat) { rows == [] || (rows[0].indent >= n && Deep(rows[1..], n)) }

  lemma {:induction false} DeepJoins(a: seq<Row>, b: seq<Row>, n: nat)
    requires Deep(a, n) && Deep(b, n)
    ensures Deep(a + b, n)
  {
    if a == [] {
      assert a + b == b;
    } else {
      DeepJoins(a[1..], b, n);
      assert (a + b)[1..] == a[1..] + b;
    }
  }

  lemma {:induction false} RowsDeep(fields: seq<Field>, indent: nat, n: nat)
    requires indent >= n
    ensures Deep(Rows(fields, indent), n)
    decreases fields, 1
  {
    if fields != [] {
      FieldDeep(fields[0], indent, n);
      RowsDeep(fields[1..], indent, n);
      DeepJoins(FieldRows(fields[0], indent), Rows(fields[1..], indent), n);
    }
  }

  lemma {:induction false} FieldDeep(f: Field, indent: nat, n: nat)
    requires indent >= n
    ensures Deep(FieldRows(f, indent), n)
    decreases f, 0
  {
    var rows := FieldRows(f, indent);
    if f.Nest? {
      RowsDeep(f.fields, indent + 2, n);
      assert rows[1..] == Rows(f.fields, indent + 2);
    } else {
      assert rows[1..] == [];
    }
  }

  lemma {:induction false} DeeperToEnd(lines: seq<Line>, i: nat, rows: seq<Row>, raw: nat, n: nat)
    requires i <= |lines| && lines[i..] == Numbered(rows, raw) && Deep(rows, n + 1)
    ensures Deeper(lines, i, n) == |lines|
    decreases |rows|
  {
    if rows != [] {
      assert lines[i] == lines[i..][0] && lines[i + 1..] == lines[i..][1..];
      DeeperToEnd(lines, i + 1, rows[1..], raw + 1, n);
    }
  }

  /** The field that opens an item: a name, and no bracket or space before it. */
  predicate Opener(f: Field) { OpensItem(f.content) }

  predicate OpensItem(u: Units) { u != [] && !IsSpace(u[0]) && !Opens(u[0]) && ColonFrom(u, 0, Plain, 0).Some? }

  lemma {:induction false} NameOpens(key: Units, after: Units)
    requires IsName(key)
    ensures OpensItem(key + [COLON] + after)
  {
    var c := key + [COLON] + after;
    NamePlain(key);
    ColonAfter([], key, after);
    assert [] + key + [COLON] + after == c;
    assert c[0] == key[0];
  }

  lemma {:induction false} LeafOpens(h: Host, key: Units, sp: Spelling)
    requires IsName(key)
    ensures Opener(LeafOf(h, key, sp))
  {
    NameOpens(key, [SPACE] + Spell(sp));
    Spaced(key, Spell(sp));
  }

  lemma {:induction false} Spaced(key: Units, u: Units)
    ensures key + [COLON] + ([SPACE] + u) == key + [COLON, SPACE] + u
  {
  }

  /** The lines of a printed list. */
  lemma {:induction false} ListLines(key: Units, fields: seq<Field>)
    requires fields != [] && Opener(fields[0])
    ensures var lines := Numbered(ListRows(key, fields), 0);
      && |lines| == |Rows(fields, 4)| + 1 && |lines| >= 2
      && lines[0] == Line(0, key + [COLON], 0)
      && lines[1] == Line(2, Bullet + fields[0].content, 1)
      && Deeper(lines, 2, 2) == |lines|
      && Inner(lines, 1, 2) == Numbered(Rows(fields, 4), 1)
      && Inner(lines, 1, 2)[0] == Line(4, fields[0].content, 1)
  {
    var rows, first, c := ListRows(key, fields), Rows(fields, 4), fields[0].content;
    var lines := Numbered(rows, 0);
    assert first[0] == FieldRows(fields[0], 4)[0] == Row(4, c);
    assert rows[1..][1..] == first[1..];
    assert lines[1..] == Numbered(rows[1..], 1);
    assert lines[2..] == lines[1..][1..] == Numbered(first[1..], 2);
    RowsDeep(fields, 4, 3);
    DeeperToEnd(lines, 2, first[1..], 2, 2);
    BulletDrops(c);
    assert lines[2..|lines|] == lines[2..];
  }

  /** An item that is a mapping, to the end. */
  lemma {:induction false} ItemStep(s: Source, lines: seq<Line>, i: nat, indent: nat, v: Value)
    requires ItemHere(lines, i, indent) && TrimLeft(lines[i].content[1..]) != []
    requires ColonFrom(TrimLeft(lines[i].content[1..]), 0, Plain, 0).Some? && !Opens(TrimLeft(lines[i].content[1..])[0])
    requires Deeper(lines, i + 1, indent) == |lines|
    requires var inner := Inner(lines, i, indent); ParseNode(s, inner, 0, inner[0].indent) == Got(v, |inner|)
    ensures ParseItem(s, lines, i, indent) == Got(v, |lines|)
  {
  }

  lemma {:induction false} SeqOfOne(s: Source, lines: seq<Line>, i: nat, indent: nat, v: Value)
    requires ItemHere(lines, i, indent) && ParseItem(s, lines, i, indent) == Got(v, |lines|)
    ensures ParseNode(s, lines, i, indent) == Got(List([v]), |lines|)
  {
    assert [] + [v] == [v];
    assert ParseSeq(s, lines, i, indent, []) == ParseSeq(s, lines, |lines|, indent, [v]);
  }

  /** A key over deeper lines that are one value, to the end. */
  lemma {:induction false} MapOfOne(s: Source, lines: seq<Line>, key: Units, v: Value)
    requires |lines| >= 2 && lines[0].indent == 0 && KeyOf(lines[0].content) == Some((key, []))
    requires lines[1].indent > 0 && ParseNode(s, lines, 1, lines[1].indent) == Got(v, |lines|)
    ensures ParseNode(s, lines, 0, 0) == Got(Map([Entry(key, v)]), |lines|)
  {
    assert !IsItem(lines[0].content);
    assert ParseValue(s, lines, 0, 0, []) == Got(v, |lines|);
    assert [] + [Entry(key, v)] == [Entry(key, v)];
    assert ParseMap(s, lines, 0, 0, []) == ParseMap(s, lines, |lines|, 0, [Entry(key, v)]);
  }

  lemma {:induction false} IndentedAll(lines: seq<Line>)
    ensures Indented(lines, 0)
  {
  }

  function ListMeaning(key: Units, fields: seq<Field>): Value { Map([Entry(key, List([Map(Onto([], fields))]))]) }

  /** The mapping inside the item. */
  lemma {:induction false} InnerReads(s: Source, fields: seq<Field>)
    requires fields != [] && AllSit(ReaderOf(s), fields)
    ensures var inner := Numbered(Rows(fields, 4), 1);
      ParseNode(s, inner, 0, 4) == Got(Map(Onto([], fields)), |inner|)
  {
    var inner, r := Numbered(Rows(fields, 4), 1), ReaderOf(s);
    ParserFollows(s);
    NoneRead(fields);
    assert inner[0..0 + |inner|] == inner;
    MapReads(r, inner, 0, 4, fields, [], 1);
    assert r.mapping(inner, 0, 4, []) == ParseMap(s, inner, 0, 4, []);
    assert inner[0].content == fields[0].content by {
      assert Rows(fields, 4)[0] == FieldRows(fields[0], 4)[0];
    }
    assert Sits(r, fields[0]);
  }

  lemma {:induction false} BulletDrops(c: Units)
    requires c != [] && !IsSpace(c[0])
    ensures TrimLeft((Bullet + c)[1..]) == c && IsItem(Bullet + c)
  {
    assert (Bullet + c)[1..] == [SPACE] + c;
    assert IsSpace(SPACE);
    TrimLeftStops([SPACE], c);
  }

  /** The item of a printed list, from its line to the end. */
  lemma {:induction false} ItemReads(s: Source, lines: seq<Line>, fields: seq<Field>)
    requires fields != [] && AllSit(ReaderOf(s), fields) && Opener(fields[0])
    requires |lines| >= 2 && lines[1] == Line(2, Bullet + fields[0].content, 1) && Deeper(lines, 2, 2) == |lines|
    requires Inner(lines, 1, 2) == Numbered(Rows(fields, 4), 1)
    requires Inner(lines, 1, 2)[0].indent == 4
    ensures ParseNode(s, lines, 1, 2) == Got(List([Map(Onto([], fields))]), |lines|)
  {
    BulletDrops(fields[0].content);
    InnerReads(s, fields);
    ItemStep(s, lines, 1, 2, Map(Onto([], fields)));
    SeqOfOne(s, lines, 1, 2, Map(Onto([], fields)));
  }

  /** The lines of a printed list are read as what it means. */
  lemma {:induction false} ListReads(s: Source, key: Units, fields: seq<Field>)
    requires IsName(key) && fields != [] && AllSit(ReaderOf(s), fields) && Opener(fields[0])
    ensures ParseLines(s, Numbered(ListRows(key, fields), 0)) == Some(ListMeaning(key, fields))
  {
    var lines := Numbered(ListRows(key, fields), 0);
    var v := Map(Onto([], fields));
    ListLines(key, fields);
    assert ParseNode(s, lines, 1, 2) == Got(List([v]), |lines|) by { ItemReads(s, lines, fields); }
    assert KeyOf(lines[0].content) == Some((key, [])) by {
      KeyReads(key, []);
      assert key + [COLON] + [] == key + [COLON];
    }
    MapOfOne(s, lines, key, List([v]));
    IndentedAll(lines);
  }

  // ------------------------------------------------------------------ the text of a block

  lemma {:induction false} ListRowsClean(key: Units, fields: seq<Field>)
    requires fields != [] && AllClean(Rows(fields, 4)) && Clean(key + [COLON]) && Clean(Bullet + fields[0].content)
    ensures AllClean(ListRows(key, fields))
  {
    var rows, more := ListRows(key, fields), Rows(fields, 4)[1..];
    assert rows[1..] == [Row(2, Bullet + fields[0].content)] + more;
    assert rows[1..][1..] == more;
  }

  lemma {:induction false} RowOneLine(r: Row)
    requires OneLine(r.content)
    ensures OneLine(RowText(r))
  {
  }

  lemma {:induction false} TextsOneLine(rows: seq<Row>)
    requires AllClean(rows)
    ensures forall i :: 0 <= i < |rows| ==> OneLine(Texts(rows)[i])
  {
    if rows != [] {
      RowOneLine(rows[0]);
      TextsOneLine(rows[1..]);
    }
  }

  lemma {:induction false} GlueOneLine(parts: seq<Units>)
    requires forall i :: 0 <= i < |parts| ==> OneLine(parts[i])
    ensures RETURN !in Glue(parts, NEWLINE)
  {
    if |parts| > 1 { GlueOneLine(parts[1..]); }
  }

  lemma {:induction false} NothingReturned(u: Units)
    requires RETURN !in u
    ensures Unreturned(u) == u
  {
    if u != [] { NothingReturned(u[1..]); }
  }

  /** Lines without a break come back from their text. */
  lemma {:induction false} LinesBack(texts: seq<Units>)
    requires texts != [] && forall i :: 0 <= i < |texts| ==> OneLine(texts[i])
    ensures Split(Unreturned(Glue(texts, NEWLINE)), NEWLINE) == texts
  {
    GlueOneLine(texts);
    NothingReturned(Glue(texts, NEWLINE));
    SplitJoin(texts, NEWLINE);
  }

  /** The text of a printed list parses to what it means. */
  lemma {:induction false} ListParses(h: Host, block: BlockReader, key: Units, fields: seq<Field>)
    requires IsName(key) && fields != [] && Opener(fields[0])
    requires AllSit(ReaderOf(Source(h, block, Texts(ListRows(key, fields)))), fields)
    requires AllClean(ListRows(key, fields))
    ensures ParseYaml(h, block, Glue(Texts(ListRows(key, fields)), NEWLINE)) == Some(ListMeaning(key, fields))
  {
    var rows := ListRows(key, fields);
    var texts := Texts(rows);
    TextsOneLine(rows);
    LinesBack(texts);
    assert texts[0..] == texts && [] + Numbered(rows, 0) == Numbered(rows, 0);
    ScanRows(texts, 0, [], rows);
    ListReads(Source(h, block, texts), key, fields);
  }
}
