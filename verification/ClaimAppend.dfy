/**
 Appending a section (scripts/lib/claim-append.js:209-248, 697): the text that is written, and what the
 strict parser makes of a file before and after.
 */
module ClaimAppend {
  import opened Options
  import opened CodeUnits
  import opened ClaimText
  import opened ClaimYaml
  import P = ClaimPrint
  import ClaimBlock
  import ClaimRecord
  import opened ClaimFields
  import opened ClaimSchema
  import opened ClaimFile

  const Ticks3: Units := [TICK, TICK, TICK]

  /** The lines of a record's block. */
  function BlockLines(h: Host, r: Record): seq<Units> {
    [Ticks3 + Name(Claims)] + P.Texts(RecordRows(h, Name, r)) + [Ticks3]
  }

  // ------------------------------------------------------------------ the emitter

  /** `key: text` */
  function Pair(key: Units, u: Units): Units { key + [COLON, SPACE] + u }

  /** The rows the emitter pushes before the evidence, of the evidence, and after it. */
  function EarlyRows(name: Namer, r: Record): seq<P.Row> {
    [P.Row(4, Pair(name(Id), r.id)), P.Row(4, Pair(name(Assert), Quoted(r.assertion))), P.Row(4, Pair(name(Kind), r.kind)),
     P.Row(4, Pair(name(Scope), r.scope)), P.Row(4, Pair(name(VerifiedBy), SourceWord))]
  }

  function EvidenceRows(name: Namer, r: Record): seq<P.Row> {
    [P.Row(4, name(Evidence) + [COLON]), P.Row(6, Pair(name(Url), Quoted(r.url))),
     P.Row(6, Pair(name(Quote), Quoted(r.quote))), P.Row(6, Pair(name(Accessed), Quoted(r.accessed)))]
  }

  function LateRows(h: Host, name: Namer, r: Record): seq<P.Row> {
    [P.Row(4, Pair(name(ValidUntil), Quoted(r.validUntil))), P.Row(4, Pair(name(Confidence), h.show(r.confidence)))]
    + if r.supports == [] then [] else [P.Row(4, Pair(name(Supports), ClaimRecord.Bracketed(r.supports)))]
  }

  /** The rows of leaves, one to a key. */
  function LeafRows(at: Key -> P.Field, keys: seq<Key>, n: nat): seq<P.Row> {
    if keys == [] then [] else [P.Row(n, at(keys[0]).content)] + LeafRows(at, keys[1..], n)
  }

  lemma {:induction false} SpreadRows(at: Key -> P.Field, keys: seq<Key>, n: nat)
    requires forall i :: 0 <= i < |keys| ==> at(keys[i]).Leaf?
    ensures P.Rows(Spread(at, keys), n) == LeafRows(at, keys, n)
  {
    if keys != [] { SpreadRows(at, keys[1..], n); }
  }

  lemma {:induction false} SpreadJoins(at: Key -> P.Field, a: seq<Key>, b: seq<Key>, n: nat)
    ensures P.Rows(Spread(at, a + b), n) == P.Rows(Spread(at, a), n) + P.Rows(Spread(at, b), n)
  {
    if a == [] {
      assert a + b == b;
    } else {
      SpreadJoins(at, a[1..], b, n);
      assert (a + b)[1..] == a[1..] + b;
    }
  }

  const EarlyKeys: seq<Key> := [Id, Assert, Kind, Scope, VerifiedBy]

  function LateKeys(r: Record): seq<Key> { [ValidUntil, Confidence] + if r.supports == [] then [] else [Supports] }

  function RowOf(at: Key -> P.Field, k: Key, n: nat): P.Row { P.Row(n, at(k).content) }

  lemma {:induction false} ThreeRows(at: Key -> P.Field, a: Key, b: Key, c: Key, n: nat)
    ensures LeafRows(at, [a, b, c], n) == [RowOf(at, a, n), RowOf(at, b, n), RowOf(at, c, n)]
  {
    assert [a, b, c][1..] == [b, c] && [b, c][1..] == [c] && [c][1..] == [];
    assert LeafRows(at, [c], n) == [RowOf(at, c, n)];
    assert LeafRows(at, [b, c], n) == [RowOf(at, b, n), RowOf(at, c, n)];
  }

  lemma {:induction false} FiveRows(at: Key -> P.Field, a: Key, b: Key, c: Key, d: Key, e: Key, n: nat)
    ensures LeafRows(at, [a, b, c, d, e], n)
      == [RowOf(at, a, n), RowOf(at, b, n), RowOf(at, c, n), RowOf(at, d, n), RowOf(at, e, n)]
  {
    ThreeRows(at, c, d, e, n);
    assert [a, b, c, d, e][1..] == [b, c, d, e] && [b, c, d, e][1..] == [c, d, e];
    assert LeafRows(at, [b, c, d, e], n) == [RowOf(at, b, n)] + LeafRows(at, [c, d, e], n);
  }

  lemma {:induction false} KeyRow(h: Host, name: Namer, r: Record, k: Key, n: nat)
    requires Leafy(k)
    ensures RowOf(Fields(h, name, r), k, n) == P.Row(n, Pair(name(k), P.Spell(Spelling(h, r, k))))
    ensures RowOf(Leaves(h, name, r), k, n) == P.Row(n, Pair(name(k), P.Spell(Spelling(h, r, k))))
    ensures Fields(h, name, r)(k).Leaf? && Leaves(h, name, r)(k).Leaf?
  {
  }

  lemma {:induction false} EarlyAre(h: Host, name: Namer, r: Record)
    ensures LeafRows(Fields(h, name, r), EarlyKeys, 4) == EarlyRows(name, r)
  {
    FiveRows(Fields(h, name, r), Id, Assert, Kind, Scope, VerifiedBy, 4);
    KeyRow(h, name, r, Id, 4);
    KeyRow(h, name, r, Assert, 4);
    KeyRow(h, name, r, Kind, 4);
    KeyRow(h, name, r, Scope, 4);
    KeyRow(h, name, r, VerifiedBy, 4);
  }

  lemma {:induction false} NestRows(key: Units, at: Key -> P.Field, keys: seq<Key>)
    requires forall i :: 0 <= i < |keys| ==> at(keys[i]).Leaf?
    ensures P.FieldRows(P.NestOf(key, Spread(at, keys)), 4) == [P.Row(4, key + [COLON])] + LeafRows(at, keys, 6)
  {
    SpreadRows(at, keys, 6);
  }

  lemma {:induction false} EvidenceAre(h: Host, name: Namer, r: Record)
    ensures P.FieldRows(FieldAt(h, name, r, Evidence), 4) == EvidenceRows(name, r)
  {
    var at := Leaves(h, name, r);
    KeyRow(h, name, r, Url, 6);
    KeyRow(h, name, r, Quote, 6);
    KeyRow(h, name, r, Accessed, 6);
    ThreeRows(at, Url, Quote, Accessed, 6);
    NestRows(name(Evidence), at, EvidenceKeys);
  }

  lemma {:induction false} LateAre(h: Host, name: Namer, r: Record)
    ensures LeafRows(Fields(h, name, r), LateKeys(r), 4) == LateRows(h, name, r)
  {
    var at := Fields(h, name, r);
    KeyRow(h, name, r, ValidUntil, 4);
    KeyRow(h, name, r, Confidence, 4);
    KeyRow(h, name, r, Supports, 4);
    ThreeRows(at, ValidUntil, Confidence, Supports, 4);
    if r.supports == [] {
      assert [ValidUntil, Confidence][1..] == [Confidence] && [Confidence][1..] == [];
      assert LeafRows(at, [Confidence], 4) == [RowOf(at, Confidence, 4)];
      assert LateKeys(r) == [ValidUntil, Confidence];
    } else {
      assert LateKeys(r) == [ValidUntil, Confidence, Supports];
    }
  }

  /** The rows of fields of which one is a mapping of its own. */
  lemma {:induction false} RowsAround(at: Key -> P.Field, before: seq<Key>, k: Key, after: seq<Key>)
    requires forall i :: 0 <= i < |before| ==> at(before[i]).Leaf?
    requires forall i :: 0 <= i < |after| ==> at(after[i]).Leaf?
    ensures P.Rows(Spread(at, before + ([k] + after)), 4)
      == LeafRows(at, before, 4) + (P.FieldRows(at(k), 4) + LeafRows(at, after, 4))
  {
    SpreadJoins(at, before, [k] + after, 4);
    SpreadJoins(at, [k], after, 4);
    SpreadRows(at, before, 4);
    SpreadRows(at, after, 4);
    assert Spread(at, [k]) == [at(k)];
    OneRow(at(k));
  }

  lemma {:induction false} LeavesAround(h: Host, name: Namer, r: Record)
    ensures forall i :: 0 <= i < |EarlyKeys| ==> Fields(h, name, r)(EarlyKeys[i]).Leaf?
    ensures forall i :: 0 <= i < |LateKeys(r)| ==> Fields(h, name, r)(LateKeys(r)[i]).Leaf?
  {
    forall i | 0 <= i < |EarlyKeys| ensures Fields(h, name, r)(EarlyKeys[i]).Leaf? { KeyRow(h, name, r, EarlyKeys[i], 4); }
    forall i | 0 <= i < |LateKeys(r)| ensures Fields(h, name, r)(LateKeys(r)[i]).Leaf? { KeyRow(h, name, r, LateKeys(r)[i], 4); }
  }

  /** All rows of a record, each field on lines of its own. */
  lemma {:induction false} AllRows(h: Host, name: Namer, r: Record)
    ensures P.Rows(FieldsOf(h, name, r), 4) == EarlyRows(name, r) + (EvidenceRows(name, r) + LateRows(h, name, r))
  {
    assert TopKeys(r) == EarlyKeys + ([Evidence] + LateKeys(r));
    LeavesAround(h, name, r);
    RowsAround(Fields(h, name, r), EarlyKeys, Evidence, LateKeys(r));
    EarlyAre(h, name, r);
    EvidenceAre(h, name, r);
    LateAre(h, name, r);
  }

  lemma {:induction false} OneRow(f: P.Field)
    ensures P.Rows([f], 4) == P.FieldRows(f, 4)
  {
    assert [f][1..] == [];
  }

  lemma {:induction false} TextsMore(a: seq<P.Row>, b: seq<P.Row>)
    ensures P.Texts(a + b) == P.Texts(a) + P.Texts(b)
  {
    if a == [] {
      assert a + b == b;
    } else {
      TextsMore(a[1..], b);
      assert (a + b)[1..] == a[1..] + b;
    }
  }

  /** The rows that open a block's list. */
  function HeadRows(name: Namer, r: Record): seq<P.Row> {
    [P.Row(0, name(Claims) + [COLON]), P.Row(2, ClaimBlock.Bullet + Pair(name(Id), r.id))]
  }

  /** The rows of a record's block, as the emitter pushes them. */
  lemma {:induction false} RowsPushed(h: Host, name: Namer, r: Record)
    ensures RecordRows(h, name, r)
      == HeadRows(name, r) + EarlyRows(name, r)[1..] + EvidenceRows(name, r) + LateRows(h, name, r)
  {
    TopKeysOnce(r);
    AllRows(h, name, r);
    KeyRow(h, name, r, Id, 4);
    var fields := FieldsOf(h, name, r);
    assert RowOf(Fields(h, name, r), Id, 4).content == fields[0].content;
    DropFirst(EarlyRows(name, r), EvidenceRows(name, r), LateRows(h, name, r));
  }

  lemma {:induction false} DropFirst(a: seq<P.Row>, b: seq<P.Row>, c: seq<P.Row>)
    requires a != []
    ensures (a + (b + c))[1..] == a[1..] + b + c
  {
  }

  /** L.push, for some rows. */
  method Push(lines: seq<Units>, more: seq<P.Row>, ghost rows: seq<P.Row>) returns (r: seq<Units>)
    requires lines == [Ticks3 + Name(Claims)] + P.Texts(rows)
    ensures r == [Ticks3 + Name(Claims)] + P.Texts(rows + more)
  {
    TextsMore(rows, more);
    r := lines + P.Texts(more);
  }

  method PushSupports(lines: seq<Units>, r: Record, ghost h: Host, ghost rows: seq<P.Row>) returns (l: seq<Units>)
    requires lines == [Ticks3 + Name(Claims)] + P.Texts(rows + LateRows(h, Name, r)[..2])
    ensures l == [Ticks3 + Name(Claims)] + P.Texts(rows + LateRows(h, Name, r))
  {
    if r.supports == [] {
      assert LateRows(h, Name, r)[..2] == LateRows(h, Name, r);
      l := lines;
    } else {
      var row := P.Row(4, Pair(Name(Supports), ClaimRecord.Bracketed(r.supports)));
      assert rows + LateRows(h, Name, r)[..2] + [row] == rows + LateRows(h, Name, r);
      l := Push(lines, [row], rows + LateRows(h, Name, r)[..2]);
    }
  }

  /** emitClaimBlock */
  method EmitClaimBlock(h: Host, r: Record) returns (text: Units)
    ensures text == Glue(BlockLines(h, r), NEWLINE)
  {
    var lines := [Ticks3 + Name(Claims)];
    ghost var rows := HeadRows(Name, r);
    lines := Push(lines, HeadRows(Name, r), []);
    lines := Push(lines, EarlyRows(Name, r)[1..], rows);
    rows := rows + EarlyRows(Name, r)[1..];
    lines := Push(lines, EvidenceRows(Name, r), rows);
    rows := rows + EvidenceRows(Name, r);
    lines := Push(lines, LateRows(h, Name, r)[..2], rows);
    lines := PushSupports(lines, r, h, rows);
    RowsPushed(h, Name, r);
    text := Glue(lines + [Ticks3], NEWLINE);
  }

  /** When, by whom and from what body a record was appended. */
  datatype Meta = Meta(appended: Units, author: Units, digest: Units)

  /** `Source: <...> ...` */
  function SourceLine(r: Record, m: Meta): Units {
    Ascii("Source: <") + r.url + Ascii("> ") + [183] + Ascii(" accessed ") + r.accessed + Ascii(" ") + [183]
    + Ascii(" appended ") + m.appended + Ascii(" by `") + m.author + Ascii("`.")
  }

  /** `Verified at append time by ...` */
  function DigestLine(m: Meta): Units {
    Ascii("Verified at append time by ") + Ascii("`claim-source` and ") + Ascii("`claim-freshness`; body digest `sha256:")
    + m.digest + Ascii("`.")
  }

  predicate MetaLines(m: Meta) { P.OneLine(m.appended) && P.OneLine(m.author) && P.OneLine(m.digest) }

  /** The lines of a section before its block. */
  function ProseLines(r: Record, m: Meta): (lines: seq<Units>)
    ensures |lines| == 8
  {
    Spaced(Ascii("## ") + r.id, Ascii("> ") + r.assertion, SourceLine(r, m), DigestLine(m))
  }

  /** Four lines with blank ones around and between. */
  function Spaced(a: Units, b: Units, c: Units, d: Units): seq<Units> { [[], a, [], b, [], c, d, []] }

  function SectionLines(h: Host, r: Record, m: Meta): seq<Units> {
    ProseLines(r, m) + BlockLines(h, r) + [[]]
  }

  /** emitSection */
  function Section(h: Host, r: Record, m: Meta): Units { Glue(SectionLines(h, r, m), NEWLINE) }

  /** before.replace(/\s*$/, '') and the section on lines of its own. */
  function Appended(h: Host, before: Units, r: Record, m: Meta): Units {
    TrimRight(before) + [NEWLINE] + Section(h, r, m)
  }

  // ------------------------------------------------------------------ lines that mean nothing to the search

  /** A line that opens no fence and rules off no frontmatter. */
  predicate Prose(u: Units) {
    NEWLINE !in u && (u == [] || (!IsSpace(u[0]) && u[0] != TICK && u[0] != DASH))
  }

  lemma {:induction false} StartsAs(u: Units)
    requires u != [] && !IsSpace(u[0])
    ensures Trim(u) != [] && Trim(u)[0] == u[0]
  {
    TrimRightStarts(u);
  }

  lemma {:induction false} TrimRightStarts(u: Units)
    requires u != [] && !IsSpace(u[0])
    ensures TrimRight(u) != [] && TrimRight(u)[0] == u[0]
  {
    if IsSpace(u[|u| - 1]) { TrimRightStarts(u[..|u| - 1]); }
  }

  /** A text that does not start with a back-tick opens and closes nothing. */
  lemma {:induction false} NoTick(line: Units, ticks: nat)
    requires Trim(line) == [] || Trim(line)[0] != TICK
    ensures Opening(line).None? && !ClosesFence(line, ticks)
  {
  }

  lemma {:induction false} ProseQuiet(u: Units)
    requires Prose(u)
    ensures Opening(u).None? && !Ruled(u)
  {
    if u != [] { StartsAs(u); }
    NoTick(u, 3);
  }

  lemma {:induction false} BlankQuiet(u: Units, ticks: nat)
    requires AllSpace(u)
    ensures Opening(u).None? && !ClosesFence(u, ticks) && !Ruled(u)
  {
    TrimSpace(u);
    assert Trim(u) == [];
    NoTick(u, ticks);
    if |u| >= 3 { assert IsSpace(u[0]); }
  }

  lemma {:induction false} RowTrims(r: P.Row)
    requires P.Clean(r.content)
    ensures Trim(P.RowText(r)) == r.content
  {
    assert IsSpace(SPACE);
    TrimSurrounded(P.Indent(r.indent), r.content, []);
    assert P.Indent(r.indent) + r.content + [] == P.RowText(r);
  }

  /** No line of a block closes it, and none rules off a frontmatter. */
  lemma {:induction false} RowsQuiet(rows: seq<P.Row>, i: nat, ticks: nat)
    requires P.AllClean(rows) && i < |rows|
    ensures !ClosesFence(P.Texts(rows)[i], ticks)
    decreases i
  {
    if i == 0 {
      RowTrims(rows[0]);
      NoTick(P.RowText(rows[0]), ticks);
    } else {
      RowsQuiet(rows[1..], i - 1, ticks);
    }
  }

  // ------------------------------------------------------------------ closed texts

  /** Every fence opened from `i` on is closed. */
  predicate AllClosed(lines: seq<Units>, i: nat)
    decreases |lines| - i
  {
    i >= |lines| ||
    match TurnAt(lines, i)
    case Skip => AllClosed(lines, i + 1)
    case Broken(_) => false
    case Past(close, _) => AllClosed(lines, close + 1)
  }

  lemma {:induction false} CloseKept(a: seq<Units>, b: seq<Units>, j: nat, ticks: nat)
    requires CloseFrom(a, j, ticks).Some?
    ensures CloseFrom(a + b, j, ticks) == CloseFrom(a, j, ticks)
    decreases |a| - j
  {
    if !ClosesFence(a[j], ticks) { CloseKept(a, b, j + 1, ticks); }
  }

  lemma {:induction false} TurnKept(a: seq<Units>, b: seq<Units>, i: nat)
    requires i < |a| && !TurnAt(a, i).Broken?
    ensures TurnAt(a + b, i) == TurnAt(a, i)
    ensures TurnAt(a, i).Past? ==> FencedBlock(a + b, i, TurnAt(a, i).close) == FencedBlock(a, i, TurnAt(a, i).close)
  {
    var open := Opening(a[i]);
    if open.Some? {
      CloseKept(a, b, i + 1, open.value.ticks);
      var c := TurnAt(a, i).close;
      assert (a + b)[i + 1..c] == a[i + 1..c];
    }
  }

  /**
   The search for fences, by what it does at a line: what the line does, the block a fence makes, and the
   blocks found from a line on.
   */
  datatype Finder = Finder(
    turn: (seq<Units>, nat) -> Turn,
    block: (seq<Units>, nat, nat) -> Block,
    from: (seq<Units>, nat, seq<Block>) -> Option<seq<Block>>,
    closed: (seq<Units>, nat) -> bool)

  function With(f: Finder, lines: seq<Units>, i: nat, t: Turn, blocks: seq<Block>): seq<Block>
    requires t.Past?
  {
    if t.claims then blocks + [f.block(lines, i, t.close)] else blocks
  }

  /** One turn of the loop. */
  predicate Steps(f: Finder, lines: seq<Units>, i: nat, blocks: seq<Block>) {
    if i >= |lines| then f.from(lines, i, blocks) == Some(blocks) && f.closed(lines, i)
    else
      match f.turn(lines, i)
      case Skip => f.from(lines, i, blocks) == f.from(lines, i + 1, blocks) && f.closed(lines, i) == f.closed(lines, i + 1)
      case Broken(claims) => !f.closed(lines, i)
      case Past(close, claims) =>
        && i < close < |lines|
        && f.from(lines, i, blocks) == f.from(lines, close + 1, With(f, lines, i, f.turn(lines, i), blocks))
        && f.closed(lines, i) == f.closed(lines, close + 1)
  }

  predicate Here(lines: seq<Units>, i: nat, blocks: seq<Block>) { true }

  ghost predicate Searches(f: Finder) {
    forall lines, i, blocks {:trigger Here(lines, i, blocks)} :: Here(lines, i, blocks) ==> Steps(f, lines, i, blocks)
  }

  function Fences(): Finder {
    Finder(
      (lines: seq<Units>, i: nat) => if i < |lines| then TurnAt(lines, i) else Skip,
      (lines: seq<Units>, i: nat, close: nat) =>
        if i < close <= |lines| then FencedBlock(lines, i, close) else Block([], 0, true),
      (lines: seq<Units>, i: nat, blocks: seq<Block>) => FencesFrom(lines, i, blocks),
      (lines: seq<Units>, i: nat) => AllClosed(lines, i))
  }

  lemma {:induction false} FencesStep(lines: seq<Units>, i: nat, blocks: seq<Block>)
    ensures Steps(Fences(), lines, i, blocks)
  {
  }

  lemma {:induction false} FencesSearch()
    ensures Searches(Fences())
  {
    forall lines: seq<Units>, i: nat, blocks: seq<Block> ensures Steps(Fences(), lines, i, blocks) {
      FencesStep(lines, i, blocks);
    }
  }

  /** A longer text whose lines act as they did where the fences were closed. */
  ghost predicate Keeps(f: Finder, a: seq<Units>, more: seq<Units>, n: nat) {
    forall i {:trigger f.turn(a, i)} :: 0 <= i < n && !f.turn(a, i).Broken? ==>
      && f.turn(more, i) == f.turn(a, i)
      && (f.turn(a, i).Past? ==> f.turn(a, i).close < n && f.block(more, i, f.turn(a, i).close) == f.block(a, i, f.turn(a, i).close))
  }

  /** The search goes through a closed text the same way in both. */
  lemma {:induction false} Through(f: Finder, a: seq<Units>, more: seq<Units>, n: nat, i: nat, blocks: seq<Block>)
      returns (x: seq<Block>)
    requires Searches(f) && Keeps(f, a, more, n) && i <= n <= |a| && n <= |more| && f.closed(a, i)
    ensures f.from(a, i, blocks) == f.from(a, n, x) && f.from(more, i, blocks) == f.from(more, n, x)
    ensures f.closed(a, n) && f.closed(more, i) == f.closed(more, n)
    decreases n - i
  {
    if i == n {
      x := blocks;
    } else {
      assert Here(a, i, blocks) && Here(more, i, blocks);
      match f.turn(a, i)
      case Skip => x := Through(f, a, more, n, i + 1, blocks);
      case Past(close, claims) => x := Through(f, a, more, n, close + 1, With(f, a, i, f.turn(a, i), blocks));
      case Broken(_) => assert false;
    }
  }

  /** Lines that open nothing are passed over. */
  lemma {:induction false} ThroughQuiet(f: Finder, lines: seq<Units>, i: nat, n: nat, blocks: seq<Block>)
    requires Searches(f) && i + n <= |lines| && forall k :: i <= k < i + n ==> f.turn(lines, k) == Skip
    ensures f.from(lines, i, blocks) == f.from(lines, i + n, blocks) && f.closed(lines, i) == f.closed(lines, i + n)
    decreases n
  {
    if n > 0 {
      assert Here(lines, i, blocks) && f.turn(lines, i) == Skip;
      ThroughQuiet(f, lines, i + 1, n - 1, blocks);
    }
  }

  /** To the end over lines that open nothing. */
  lemma {:induction false} QuietEnd(f: Finder, lines: seq<Units>, i: nat, blocks: seq<Block>)
    requires Searches(f) && i <= |lines| && forall k :: i <= k < |lines| ==> f.turn(lines, k) == Skip
    ensures f.from(lines, i, blocks) == Some(blocks) && f.closed(lines, i)
  {
    ThroughQuiet(f, lines, i, |lines| - i, blocks);
    assert Here(lines, |lines|, blocks);
  }

  lemma {:induction false} CloseAt(lines: seq<Units>, j: nat, n: nat, ticks: nat)
    requires j + n < |lines| && ClosesFence(lines[j + n], ticks)
    requires forall k :: j <= k < j + n ==> !ClosesFence(lines[k], ticks)
    ensures CloseFrom(lines, j, ticks) == Some(j + n)
    decreases n
  {
    if n > 0 { CloseAt(lines, j + 1, n - 1, ticks); }
  }

  lemma {:induction false} TicksOf(u: Units)
    requires u == [] || u[0] != TICK
    ensures Ticks(Ticks3 + u) == 3 && (Ticks3 + u)[3..] == u
  {
    var one, two, three := [TICK] + u, [TICK, TICK] + u, Ticks3 + u;
    assert one[1..] == u && two[1..] == one && three[1..] == two;
    assert Ticks(u) == 0 && Ticks(one) == 1 && Ticks(two) == 2;
  }

  /** The lines that open and close a block of claims. */
  lemma {:induction false} ClaimsFence(name: Units)
    requires IsName(name)
    ensures Opening(Ticks3 + name) == Some(Fence(3, name)) && ClosesFence(Ticks3, 3)
  {
    var t := Ticks3 + name;
    P.NamePlain(name);
    assert t[0] == TICK && t[|t| - 1] == name[|name| - 1];
    QuotedTrims(t);
    QuotedTrims(Ticks3);
    TicksOf(name);
    TicksOf([]);
    assert Ticks3 + [] == Ticks3;
  }

  // ------------------------------------------------------------------ the section's own block

  /** A text's lines with a section's after them. */
  function Laid(a: seq<Units>, prose: seq<Units>, open: Units, yaml: seq<Units>): (lines: seq<Units>)
    ensures |lines| == |a| + |prose| + |yaml| + 3
  {
    a + (prose + [open] + yaml + [Ticks3] + [[]])
  }

  lemma {:induction false} LaidAt(a: seq<Units>, prose: seq<Units>, open: Units, yaml: seq<Units>)
    ensures var (lines, f) := (Laid(a, prose, open, yaml), |a| + |prose|);
      && (forall k :: |a| <= k < f ==> lines[k] == prose[k - |a|])
      && lines[f] == open
      && (forall k :: f + 1 <= k < f + 1 + |yaml| ==> lines[k] == yaml[k - f - 1])
      && lines[f + 1..f + 1 + |yaml|] == yaml
      && lines[f + 1 + |yaml|] == Ticks3
      && lines[f + 2 + |yaml|] == []
  {
  }

  /** The search finds a block between quiet lines. */
  lemma {:induction false} FoundBetween(f: Finder, lines: seq<Units>, i: nat, open: nat, close: nat, blocks: seq<Block>)
    requires Searches(f) && i <= open < close < |lines| && f.turn(lines, open) == Past(close, true)
    requires forall k :: i <= k < open || close < k < |lines| ==> f.turn(lines, k) == Skip
    ensures f.from(lines, i, blocks) == Some(blocks + [f.block(lines, open, close)])
  {
    ThroughQuiet(f, lines, i, open - i, blocks);
    assert Here(lines, open, blocks);
    QuietEnd(f, lines, close + 1, blocks + [f.block(lines, open, close)]);
  }

  lemma {:induction false} FoundFences(lines: seq<Units>, i: nat, open: nat, close: nat, blocks: seq<Block>)
    requires i <= open < close < |lines| && TurnAt(lines, open) == Past(close, true)
    requires forall k :: i <= k < open || close < k < |lines| ==> TurnAt(lines, k) == Skip
    ensures FencesFrom(lines, i, blocks) == Some(blocks + [FencedBlock(lines, open, close)])
  {
    FencesSearch();
    FoundBetween(Fences(), lines, i, open, close, blocks);
  }

  lemma {:induction false} OpenTurn(lines: seq<Units>, open: nat, n: nat)
    requires IsName(Name(Claims)) && open + 1 + n < |lines|
    requires lines[open] == Ticks3 + Name(Claims) && lines[open + 1 + n] == Ticks3
    requires forall k :: open + 1 <= k < open + 1 + n ==> !ClosesFence(lines[k], 3)
    ensures TurnAt(lines, open) == Past(open + 1 + n, true)
  {
    ClaimsFence(Name(Claims));
    CloseAt(lines, open + 1, n, 3);
  }

  lemma {:induction false} ProseTurn(lines: seq<Units>, i: nat)
    requires i < |lines| && Prose(lines[i])
    ensures TurnAt(lines, i) == Skip
  {
    ProseQuiet(lines[i]);
  }

  /** Around its block a section opens nothing. */
  lemma {:induction false} SectionQuiet(a: seq<Units>, prose: seq<Units>, open: Units, yaml: seq<Units>, k: nat)
    requires forall i :: 0 <= i < |prose| ==> Prose(prose[i])
    requires |a| <= k < |a| + |prose| || |a| + |prose| + 1 + |yaml| < k < |Laid(a, prose, open, yaml)|
    ensures TurnAt(Laid(a, prose, open, yaml), k) == Skip
  {
    LaidAt(a, prose, open, yaml);
    ProseTurn(Laid(a, prose, open, yaml), k);
  }

  lemma {:induction false} SectionOpens(a: seq<Units>, prose: seq<Units>, yaml: seq<Units>)
    requires IsName(Name(Claims)) && forall k :: 0 <= k < |yaml| ==> !ClosesFence(yaml[k], 3)
    ensures var open := |a| + |prose|;
      TurnAt(Laid(a, prose, Ticks3 + Name(Claims), yaml), open) == Past(open + 1 + |yaml|, true)
  {
    LaidAt(a, prose, Ticks3 + Name(Claims), yaml);
    OpenTurn(Laid(a, prose, Ticks3 + Name(Claims), yaml), |a| + |prose|, |yaml|);
  }

  lemma {:induction false} SectionBlock(a: seq<Units>, prose: seq<Units>, open: Units, yaml: seq<Units>)
    ensures var at := |a| + |prose|;
      FencedBlock(Laid(a, prose, open, yaml), at, at + 1 + |yaml|) == Block(Glue(yaml, NEWLINE), at + 2, true)
  {
    LaidAt(a, prose, open, yaml);
  }

  /** The search finds the section's block, and nothing else in it. */
  lemma {:induction false} SectionFound(a: seq<Units>, prose: seq<Units>, yaml: seq<Units>, blocks: seq<Block>)
    requires IsName(Name(Claims))
    requires forall k :: 0 <= k < |prose| ==> Prose(prose[k])
    requires forall k :: 0 <= k < |yaml| ==> !ClosesFence(yaml[k], 3)
    ensures FencesFrom(Laid(a, prose, Ticks3 + Name(Claims), yaml), |a|, blocks)
      == Some(blocks + [Block(Glue(yaml, NEWLINE), |a| + |prose| + 2, true)])
  {
    var fence := Ticks3 + Name(Claims);
    var lines, open := Laid(a, prose, fence, yaml), |a| + |prose|;
    var close := open + 1 + |yaml|;
    forall k | |a| <= k < open || close < k < |lines| ensures TurnAt(lines, k) == Skip {
      SectionQuiet(a, prose, fence, yaml, k);
    }
    SectionOpens(a, prose, yaml);
    FoundFences(lines, |a|, open, close, blocks);
    SectionBlock(a, prose, fence, yaml);
  }

  // ------------------------------------------------------------------ trailing space

  /** The lines of a text before its trailing space is taken off, and after. */
  datatype Tail = Tail(a: seq<Units>, last: Units, spaced: Units, blanks: seq<Units>) {
    function Before(): seq<Units> { a + [spaced] + blanks }
    function After(): seq<Units> { a + [last] }
    predicate Right() {
      && Trim(last) == Trim(spaced) && Ruled(last) == Ruled(spaced)
      && forall i :: 0 <= i < |blanks| ==> AllSpace(blanks[i])
    }
  }

  lemma {:induction false} SameClose(t: Tail, j: nat, ticks: nat)
    requires t.Right() && j <= |t.a| + 1 && CloseFrom(t.Before(), j, ticks).Some?
    ensures var c := CloseFrom(t.Before(), j, ticks).value;
      c <= |t.a| && CloseFrom(t.After(), j, ticks) == Some(c)
    decreases |t.a| + 1 - j
  {
    var lines := t.Before();
    if j <= |t.a| {
      assert lines[j] == if j < |t.a| then t.a[j] else t.spaced;
      assert t.After()[j] == if j < |t.a| then t.a[j] else t.last;
      if !ClosesFence(lines[j], ticks) { SameClose(t, j + 1, ticks); }
    } else {
      NoCloseInBlanks(t, j, ticks);
    }
  }

  lemma {:induction false} NoCloseInBlanks(t: Tail, j: nat, ticks: nat)
    requires t.Right() && j > |t.a|
    ensures CloseFrom(t.Before(), j, ticks).None?
    decreases |t.Before()| - j
  {
    if j < |t.Before()| {
      assert t.Before()[j] == t.blanks[j - |t.a| - 1];
      BlankQuiet(t.Before()[j], ticks);
      NoCloseInBlanks(t, j + 1, ticks);
    }
  }

  lemma {:induction false} SameOpening(t: Tail, i: nat)
    requires t.Right() && i <= |t.a|
    ensures Opening(t.After()[i]) == Opening(t.Before()[i])
  {
    assert t.Before()[i] == if i < |t.a| then t.a[i] else t.spaced;
    assert t.After()[i] == if i < |t.a| then t.a[i] else t.last;
  }

  lemma {:induction false} SameBlock(t: Tail, i: nat, c: nat)
    requires i < c <= |t.a|
    ensures FencedBlock(t.After(), i, c) == FencedBlock(t.Before(), i, c)
  {
    assert t.Before()[i + 1..c] == t.a[i + 1..c] == t.After()[i + 1..c];
  }

  lemma {:induction false} SameTurn(t: Tail, i: nat)
    requires t.Right() && i <= |t.a| && !TurnAt(t.Before(), i).Broken?
    ensures TurnAt(t.After(), i) == TurnAt(t.Before(), i)
    ensures TurnAt(t.Before(), i).Past? ==>
      var c := TurnAt(t.Before(), i).close; c <= |t.a| && FencedBlock(t.After(), i, c) == FencedBlock(t.Before(), i, c)
  {
    SameOpening(t, i);
    var open := Opening(t.Before()[i]);
    if open.Some? {
      SameClose(t, i + 1, open.value.ticks);
      SameBlock(t, i, TurnAt(t.Before(), i).close);
    }
  }

  lemma {:induction false} BlankTurn(t: Tail, i: nat)
    requires t.Right() && |t.a| < i < |t.Before()|
    ensures TurnAt(t.Before(), i) == Skip
  {
    assert t.Before()[i] == t.blanks[i - |t.a| - 1];
    BlankQuiet(t.Before()[i], 3);
  }

  /** Trailing space changes nothing the search finds in a closed text. */
  lemma {:induction false} SameFences(t: Tail)
    requires t.Right() && AllClosed(t.Before(), 0)
    ensures AllClosed(t.After(), 0) && FencesFrom(t.After(), 0, []) == FencesFrom(t.Before(), 0, [])
  {
    var f, n := Fences(), |t.a| + 1;
    FencesSearch();
    forall i {:trigger f.turn(t.Before(), i)} | 0 <= i < n && !f.turn(t.Before(), i).Broken?
      ensures f.turn(t.After(), i) == f.turn(t.Before(), i)
      ensures f.turn(t.Before(), i).Past? ==>
        var c := f.turn(t.Before(), i).close; c < n && f.block(t.After(), i, c) == f.block(t.Before(), i, c)
    { SameTurn(t, i); }
    var x := Through(f, t.Before(), t.After(), n, 0, []);
    forall k | n <= k < |t.Before()| ensures f.turn(t.Before(), k) == Skip { BlankTurn(t, k); }
    QuietEnd(f, t.Before(), n, x);
    QuietEnd(f, t.After(), n, x);
  }

  lemma {:induction false} RuleAfterLast(lines: seq<Units>, j: nat)
    requires forall k :: j <= k < |lines| ==> !Ruled(lines[k])
    ensures RuleFrom(lines, j).None?
    decreases |lines| - j
  {
    if j < |lines| { RuleAfterLast(lines, j + 1); }
  }

  lemma {:induction false} NoRuleLater(t: Tail, s: seq<Units>)
    requires t.Right() && forall k :: 0 <= k < |s| ==> !Ruled(s[k])
    ensures forall k :: |t.a| + 1 <= k < |t.Before()| ==> !Ruled(t.Before()[k])
    ensures forall k :: |t.a| + 1 <= k < |t.After() + s| ==> !Ruled((t.After() + s)[k])
  {
    forall k | |t.a| + 1 <= k < |t.Before()| ensures !Ruled(t.Before()[k]) {
      assert t.Before()[k] == t.blanks[k - |t.a| - 1];
      BlankQuiet(t.Before()[k], 3);
    }
    forall k | |t.a| + 1 <= k < |t.After() + s| ensures !Ruled((t.After() + s)[k]) {
      assert (t.After() + s)[k] == s[k - |t.a| - 1];
    }
  }

  lemma {:induction false} SameRule(t: Tail, s: seq<Units>, j: nat)
    requires t.Right() && forall k :: 0 <= k < |s| ==> !Ruled(s[k])
    ensures RuleFrom(t.Before(), j) == RuleFrom(t.After() + s, j)
    ensures RuleFrom(t.Before(), j).Some? ==> RuleFrom(t.Before(), j).value <= |t.a|
    decreases |t.a| + 1 - j
  {
    var was, now := t.Before(), t.After() + s;
    if j <= |t.a| {
      assert was[j] == if j < |t.a| then t.a[j] else t.spaced;
      assert now[j] == if j < |t.a| then t.a[j] else t.last;
      if !Ruled(was[j]) { SameRule(t, s, j + 1); }
    } else {
      NoRuleLater(t, s);
      RuleAfterLast(was, j);
      RuleAfterLast(now, j);
    }
  }

  /** Nor does it change the frontmatter, nor do lines after it that rule nothing off. */
  lemma {:induction false} SameFront(t: Tail, s: seq<Units>)
    requires t.Right() && forall k :: 0 <= k < |s| ==> !Ruled(s[k])
    ensures FrontBlocks(t.After() + s) == FrontBlocks(t.Before())
  {
    var was, now := t.Before(), t.After() + s;
    SameRule(t, s, 2);
    var end := RuleFrom(was, 2);
    if end.Some? {
      assert was[0] == t.a[0] == now[0];
      assert was[1..end.value] == t.a[1..end.value] == now[1..end.value];
      assert FrontLines(was) == FrontLines(now);
    } else {
      assert FrontLines(was).None? && FrontLines(now).None?;
    }
  }

  // ------------------------------------------------------------------ the lines of a text and of its trimmed form

  /** The parts of two texts put together: the last of one and the first of the other are one part. */
  function Met(p: seq<Units>, q: seq<Units>): (r: seq<Units>)
    requires p != [] && q != []
    ensures r != []
  {
    if |p| == 1 then [p[0] + q[0]] + q[1..] else [p[0]] + Met(p[1..], q)
  }

  lemma {:induction false} MetAt(p: seq<Units>, q: seq<Units>)
    requires p != [] && q != []
    ensures Met(p, q) == p[..|p| - 1] + [p[|p| - 1] + q[0]] + q[1..]
  {
    var n := |p| - 1;
    if n == 0 {
      assert p[..0] == [];
    } else {
      MetAt(p[1..], q);
      assert p[..n] == [p[0]] + p[1..][..n - 1];
    }
  }

  lemma {:induction false} MetLead(u: Units, p: seq<Units>, q: seq<Units>)
    requires p != [] && q != []
    ensures Met(Lead(u, p), q) == Lead(u, Met(p, q))
  {
    if |p| == 1 {
      assert u + (p[0] + q[0]) == u + p[0] + q[0];
    } else {
      assert Lead(u, p)[1..] == p[1..];
    }
  }

  lemma {:induction false} MetFirst(p: seq<Units>, q: seq<Units>)
    requires p != [] && q != []
    ensures Met([[]] + p, q) == [[]] + Met(p, q)
  {
    assert ([[]] + p)[1..] == p;
  }

  lemma {:induction false} SplitConcat(x: Units, y: Units, at: nat)
    ensures Split(x + y, at) == Met(Split(x, at), Split(y, at))
    decreases |x|
  {
    var q := Split(y, at);
    if x == [] {
      assert x + y == y;
      assert [] + q[0] == q[0];
      assert q == [q[0]] + q[1..];
    } else {
      SplitConcat(x[1..], y, at);
      assert (x + y)[1..] == x[1..] + y;
      MetFirst(Split(x[1..], at), q);
      MetLead([x[0]], Split(x[1..], at), q);
    }
  }

  lemma {:induction false} TrimRightOver(u: Units, w: Units)
    requires AllSpace(w)
    ensures TrimRight(u + w) == TrimRight(u)
    decreases |w|
  {
    if w == [] {
      assert u + w == u;
    } else {
      var n := |w| - 1;
      assert (u + w)[..|u| + n] == u + w[..n];
      TrimRightOver(u, w[..n]);
    }
  }

  lemma {:induction false} TrimLeftOver(u: Units, w: Units)
    ensures TrimLeft(u) != [] ==> TrimLeft(u + w) == TrimLeft(u) + w
    ensures TrimLeft(u) == [] ==> TrimLeft(u + w) == TrimLeft(w)
  {
    if u == [] {
      assert u + w == w;
    } else {
      assert (u + w)[1..] == u[1..] + w;
      if IsSpace(u[0]) { TrimLeftOver(u[1..], w); }
    }
  }

  lemma {:induction false} TrimOver(u: Units, w: Units)
    requires AllSpace(w)
    ensures Trim(u + w) == Trim(u)
  {
    TrimLeftOver(u, w);
    TrimSpace(w);
    if TrimLeft(u) != [] { TrimRightOver(TrimLeft(u), w); }
  }

  lemma {:induction false} RuledOver(u: Units, w: Units)
    requires AllSpace(w)
    ensures Ruled(u + w) == Ruled(u)
  {
    if |u| < 3 && |u + w| >= 3 {
      assert (u + w)[|u|] == w[0];
      assert IsSpace(w[0]);
    }
  }

  /** The space TrimRight takes off. */
  lemma {:induction false} TrimmedOff(u: Units)
    ensures TrimRight(u) <= u && AllSpace(u[|TrimRight(u)|..])
  {
    if u != [] && IsSpace(u[|u| - 1]) {
      TrimmedOff(u[..|u| - 1]);
      var n := |TrimRight(u)|;
      assert u[n..] == u[..|u| - 1][n..] + [u[|u| - 1]];
    } else {
      assert u[|u|..] == [];
    }
  }

  /** A text's lines before and after its trailing space is taken off. */
  lemma {:induction false} TailOfText(text: Units) returns (t: Tail)
    ensures t.Right() && t.Before() == Split(text, NEWLINE) && t.After() == Split(TrimRight(text), NEWLINE)
  {
    var u := TrimRight(text);
    TrimmedOff(text);
    var w := text[|u|..];
    assert text == u + w;
    var p, q := Split(u, NEWLINE), Split(w, NEWLINE);
    SplitConcat(u, w, NEWLINE);
    MetAt(p, q);
    SplitSpace(w, NEWLINE);
    t := Tail(p[..|p| - 1], p[|p| - 1], p[|p| - 1] + q[0], q[1..]);
    TrimOver(t.last, q[0]);
    RuledOver(t.last, q[0]);
    assert t.After() == p;
  }

  // ------------------------------------------------------------------ the lines of a section

  predicate NoBreak(s: string) { forall i :: 0 <= i < |s| ==> s[i] != '\n' }

  lemma {:induction false} LiteralOnOneLine(s: string)
    requires NoBreak(s)
    ensures NEWLINE !in Ascii(s)
  {
  }

  lemma {:induction false} SourceLineProse(r: Record, m: Meta)
    requires P.OneLine(r.url) && P.OneLine(r.accessed) && MetaLines(m)
    ensures Prose(SourceLine(r, m))
  {
    LiteralOnOneLine("Source: <");
    LiteralOnOneLine("> ");
    LiteralOnOneLine(" accessed ");
    LiteralOnOneLine(" ");
    LiteralOnOneLine(" appended ");
    LiteralOnOneLine(" by `");
    LiteralOnOneLine("`.");
    assert SourceLine(r, m)[0] == Ascii("Source: <")[0] == 83;
  }

  lemma {:induction false} DigestLineProse(m: Meta)
    requires MetaLines(m)
    ensures Prose(DigestLine(m))
  {
    LiteralOnOneLine("Verified at append time by ");
    LiteralOnOneLine("`claim-source` and ");
    LiteralOnOneLine("`claim-freshness`; body digest `sha256:");
    LiteralOnOneLine("`.");
    assert DigestLine(m)[0] == Ascii("Verified at append time by ")[0] == 86;
  }

  lemma {:induction false} HeadProse(r: Record)
    requires P.OneLine(r.id) && P.OneLine(r.assertion)
    ensures Prose(Ascii("## ") + r.id) && Prose(Ascii("> ") + r.assertion)
  {
    LiteralOnOneLine("## ");
    LiteralOnOneLine("> ");
    assert (Ascii("## ") + r.id)[0] == 35 && (Ascii("> ") + r.assertion)[0] == 62;
  }

  lemma {:induction false} SpacedProse(a: Units, b: Units, c: Units, d: Units)
    requires Prose(a) && Prose(b) && Prose(c) && Prose(d)
    ensures forall i :: 0 <= i < 8 ==> Prose(Spaced(a, b, c, d)[i])
  {
  }

  lemma {:induction false} ProseIsProse(h: Host, r: Record, m: Meta)
    requires Accepted(r) && PrintsBack(h, r.confidence) && MetaLines(m)
    ensures forall i :: 0 <= i < 8 ==> Prose(ProseLines(r, m)[i])
  {
    AcceptedWritable(h, r);
    ClaimRecord.WordEnds(r.id);
    HeadProse(r);
    SourceLineProse(r, m);
    DigestLineProse(m);
    SpacedProse(Ascii("## ") + r.id, Ascii("> ") + r.assertion, SourceLine(r, m), DigestLine(m));
  }

  predicate AllUnruled(lines: seq<Units>) { forall i :: 0 <= i < |lines| ==> !Ruled(lines[i]) }

  lemma {:induction false} DeepUnruled(rows: seq<P.Row>)
    requires ClaimBlock.Deep(rows, 1)
    ensures AllUnruled(P.Texts(rows))
  {
    if rows != [] {
      assert P.RowText(rows[0])[0] == SPACE;
      DeepUnruled(rows[1..]);
    }
  }

  /** The lines of a block rule nothing off. */
  lemma {:induction false} BlockUnruled(h: Host, r: Record)
    requires Fair(Name)
    ensures AllUnruled(P.Texts(RecordRows(h, Name, r)))
  {
    var rows, fields := RecordRows(h, Name, r), FieldsOf(h, Name, r);
    TopKeysOnce(r);
    ClaimBlock.RowsDeep(fields, 4, 1);
    var more := P.Rows(fields, 4)[1..];
    assert rows[1..] == [P.Row(2, ClaimBlock.Bullet + fields[0].content)] + more;
    assert rows[1..][1..] == more;
    DeepUnruled(rows[1..]);
    P.NamePlain(Name(Claims));
    assert P.RowText(rows[0])[0] == Name(Claims)[0];
  }

  lemma {:induction false} BlockQuiet(h: Host, r: Record)
    requires P.AllClean(RecordRows(h, Name, r))
    ensures forall k :: 0 <= k < |RecordRows(h, Name, r)| ==> !ClosesFence(P.Texts(RecordRows(h, Name, r))[k], 3)
  {
    forall k | 0 <= k < |RecordRows(h, Name, r)| ensures !ClosesFence(P.Texts(RecordRows(h, Name, r))[k], 3) {
      RowsQuiet(RecordRows(h, Name, r), k, 3);
    }
  }

  /** A section laid out from its parts. */
  function Parts(prose: seq<Units>, open: Units, yaml: seq<Units>): seq<Units> { prose + [open] + yaml + [Ticks3] + [[]] }

  lemma {:induction false} SectionParts(h: Host, r: Record, m: Meta)
    ensures SectionLines(h, r, m) == Parts(ProseLines(r, m), Ticks3 + Name(Claims), P.Texts(RecordRows(h, Name, r)))
  {
  }

  lemma {:induction false} PartsUnruled(prose: seq<Units>, open: Units, yaml: seq<Units>)
    requires (forall i :: 0 <= i < |prose| ==> Prose(prose[i])) && AllUnruled(yaml) && open != [] && open[0] == TICK
    ensures AllUnruled(Parts(prose, open, yaml))
  {
    var lines := Parts(prose, open, yaml);
    forall i | 0 <= i < |lines| ensures !Ruled(lines[i]) {
      if i < |prose| {
        assert lines[i] == prose[i];
        ProseQuiet(prose[i]);
      } else if |prose| < i <= |prose| + |yaml| {
        assert lines[i] == yaml[i - |prose| - 1];
      }
    }
  }

  lemma {:induction false} PartsSingle(prose: seq<Units>, open: Units, yaml: seq<Units>)
    requires (forall i :: 0 <= i < |prose| ==> Prose(prose[i])) && NEWLINE !in open
    requires forall i :: 0 <= i < |yaml| ==> P.OneLine(yaml[i])
    ensures Split(Glue(Parts(prose, open, yaml), NEWLINE), NEWLINE) == Parts(prose, open, yaml)
  {
    var lines := Parts(prose, open, yaml);
    forall i | 0 <= i < |lines| ensures NEWLINE !in lines[i] {
      if i < |prose| {
        assert lines[i] == prose[i];
      } else if |prose| < i <= |prose| + |yaml| {
        assert lines[i] == yaml[i - |prose| - 1];
      }
    }
    SplitJoin(lines, NEWLINE);
  }

  // ------------------------------------------------------------------ the claims before and after

  /** The section's block gives the record's claim, or an issue when its confidence is not read as a number. */
  lemma {:induction false} SectionOutcome(l: Ledger, r: Record, line: nat)
    requires Fair(Name) && Accepted(r) && PrintsBack(l.h, r.confidence)
    ensures BlockOutcome(l, Block(Glue(P.Texts(RecordRows(l.h, Name, r)), NEWLINE), line, true))
      == if IsNumber(l.h.show(r.confidence)) then Outcome([Claim(ValueOf(l.h, Name, r), line, true)], false)
         else Outcome([], true)
  {
    AcceptedWritable(l.h, r);
    RecordParses(l.h, l.block, Name, r);
    RecordValid(l.h, Name, l.others, r);
    var b := Block(Glue(P.Texts(RecordRows(l.h, Name, r)), NEWLINE), line, true);
    OneClaim(l, b, Name(Claims), ValueOf(l.h, Name, r));
  }

  lemma {:induction false} OneClaim(l: Ledger, b: Block, key: Units, v: Value)
    requires key == Name(Claims) && ParseYaml(l.h, l.block, b.yaml) == Some(Map([Entry(key, List([v]))]))
    ensures BlockOutcome(l, b)
      == if Valid(Name, l.others, v) then Outcome([Claim(v, b.line, b.fenced)], false) else Outcome([], true)
  {
    assert Get([Entry(key, List([v]))], key) == Some(List([v]));
    assert [v][1..] == [];
    assert ItemsOutcome(l, [], b) == Outcome([], false);
  }

  lemma {:induction false} OutcomeMore(l: Ledger, blocks: seq<Block>, b: Block)
    ensures BlocksOutcome(l, blocks + [b]) == Join(BlocksOutcome(l, blocks), BlockOutcome(l, b))
  {
    if blocks == [] {
      assert [b][1..] == [];
      assert BlockOutcome(l, b).claims + [] == BlockOutcome(l, b).claims;
    } else {
      OutcomeMore(l, blocks[1..], b);
      assert (blocks + [b])[1..] == blocks[1..] + [b];
      JoinJoin(BlockOutcome(l, blocks[0]), BlocksOutcome(l, blocks[1..]), BlockOutcome(l, b));
    }
  }

  lemma {:induction false} ClosedKeeps(a: seq<Units>, b: seq<Units>)
    ensures Keeps(Fences(), a, a + b, |a|)
  {
    var f := Fences();
    forall i {:trigger f.turn(a, i)} | 0 <= i < |a| && !f.turn(a, i).Broken?
      ensures f.turn(a + b, i) == f.turn(a, i)
      ensures f.turn(a, i).Past? ==>
        f.turn(a, i).close < |a| && f.block(a + b, i, f.turn(a, i).close) == f.block(a, i, f.turn(a, i).close)
    { TurnKept(a, b, i); }
  }

  /** The blocks of a closed text are found first. */
  lemma {:induction false} ThroughClosed(a: seq<Units>, b: seq<Units>)
    requires AllClosed(a, 0)
    ensures var x := FencesFrom(a, 0, []); x.Some? && FencesFrom(a + b, 0, []) == FencesFrom(a + b, |a|, x.value)
  {
    FencesSearch();
    ClosedKeeps(a, b);
    var x := Through(Fences(), a, a + b, |a|, 0, []);
    assert Here(a, |a|, x);
  }

  /** The lines of a text and of a section after it. */
  lemma {:induction false} WholeLines(text: Units, lines: seq<Units>)
    requires Split(Glue(lines, NEWLINE), NEWLINE) == lines
    ensures Split(text + [NEWLINE] + Glue(lines, NEWLINE), NEWLINE) == Split(text, NEWLINE) + lines
  {
    SplitApart(text, NEWLINE, Glue(lines, NEWLINE));
  }

  /** After a text, lines in which the search finds one block. */
  ghost predicate Gives(a: seq<Units>, s: seq<Units>, b: Block) {
    forall blocks: seq<Block> :: FencesFrom(a + s, |a|, blocks) == Some(blocks + [b])
  }

  /** Fenced blocks are those of the text, then the section's. */
  lemma {:induction false} FencesAfter(t: Tail, s: seq<Units>, b: Block)
    requires t.Right() && AllClosed(t.Before(), 0) && Gives(t.After(), s, b)
    ensures var x := FencesFrom(t.Before(), 0, []);
      x.Some? && FencesFrom(t.After() + s, 0, []) == Some(x.value + [b])
  {
    SameFences(t);
    ThroughClosed(t.After(), s);
  }

  /** All blocks, where the frontmatter has none. */
  lemma {:induction false} BlocksAfter(was: seq<Units>, now: seq<Units>, b: Block)
    requires FrontBlocks(was) == [] && FrontBlocks(now) == []
    requires FencesFrom(was, 0, []).Some? && FencesFrom(now, 0, []) == Some(FencesFrom(was, 0, []).value + [b])
    ensures Adds(was, now, b)
  {
    var x := FencesFrom(was, 0, []).value;
    assert x + [] == x && x + [b] + [] == x + [b];
  }

  /** The second text has the blocks of the first, then one more. */
  predicate Adds(was: seq<Units>, now: seq<Units>, b: Block) {
    Blocks(was).Some? && Blocks(now) == Some(Blocks(was).value + [b])
  }

  lemma {:induction false} SectionAdds(t: Tail, s: seq<Units>, b: Block)
    requires t.Right() && AllClosed(t.Before(), 0) && FrontBlocks(t.Before()) == []
    requires Gives(t.After(), s, b) && AllUnruled(s)
    ensures Adds(t.Before(), t.After() + s, b)
  {
    FencesAfter(t, s, b);
    SameFront(t, s);
    BlocksAfter(t.Before(), t.After() + s, b);
  }

  /** A text whose fences are closed and whose frontmatter has no claims. */
  predicate Settled(text: Units) { AllClosed(Split(text, NEWLINE), 0) && FrontBlocks(Split(text, NEWLINE)) == [] }

  lemma {:induction false} TextAdds(before: Units, s: seq<Units>, b: Block, after: Units)
    requires Settled(before) && after == TrimRight(before) + [NEWLINE] + Glue(s, NEWLINE)
    requires Split(Glue(s, NEWLINE), NEWLINE) == s && AllUnruled(s) && Gives(Split(TrimRight(before), NEWLINE), s, b)
    ensures Adds(Split(before, NEWLINE), Split(after, NEWLINE), b)
  {
    WholeLines(TrimRight(before), s);
    var t := TailOfText(before);
    SectionAdds(t, s, b);
  }

  /** The lines of a section: prose around a block that neither closes early nor rules anything off. */
  predicate SectionReady(prose: seq<Units>, open: Units, yaml: seq<Units>) {
    && open == Ticks3 + Name(Claims) && AllUnruled(yaml)
    && (forall i :: 0 <= i < |prose| ==> Prose(prose[i]))
    && forall i :: 0 <= i < |yaml| ==> P.OneLine(yaml[i]) && !ClosesFence(yaml[i], 3)
  }

  lemma {:induction false} SectionGives(a: seq<Units>, prose: seq<Units>, open: Units, yaml: seq<Units>)
    requires IsName(Name(Claims)) && SectionReady(prose, open, yaml)
    ensures Gives(a, Parts(prose, open, yaml), Block(Glue(yaml, NEWLINE), |a| + |prose| + 2, true))
  {
    forall blocks: seq<Block>
      ensures FencesFrom(a + Parts(prose, open, yaml), |a|, blocks)
        == Some(blocks + [Block(Glue(yaml, NEWLINE), |a| + |prose| + 2, true)])
    {
      SectionFound(a, prose, yaml, blocks);
    }
  }

  lemma {:induction false} SectionSingle(prose: seq<Units>, open: Units, yaml: seq<Units>)
    requires IsName(Name(Claims)) && SectionReady(prose, open, yaml)
    ensures var s := Parts(prose, open, yaml); AllUnruled(s) && Split(Glue(s, NEWLINE), NEWLINE) == s
  {
    P.NamePlain(Name(Claims));
    PartsUnruled(prose, open, yaml);
    PartsSingle(prose, open, yaml);
  }

  /** The line a section's block starts on, after a text. */
  function BlockLine(before: Units): nat { |Split(TrimRight(before), NEWLINE)| + 10 }

  /** The text between a record's fences. */
  function RecordText(h: Host, r: Record): Units { Glue(P.Texts(RecordRows(h, Name, r)), NEWLINE) }

  lemma {:induction false} RecordReady(h: Host, r: Record, m: Meta)
    requires Fair(Name) && Accepted(r) && PrintsBack(h, r.confidence) && MetaLines(m)
    ensures SectionReady(ProseLines(r, m), Ticks3 + Name(Claims), P.Texts(RecordRows(h, Name, r)))
  {
    AcceptedWritable(h, r);
    RecordParses(h, (_, _, _, _) => None, Name, r);
    ProseIsProse(h, r, m);
    BlockQuiet(h, r);
    BlockUnruled(h, r);
    ClaimBlock.TextsOneLine(RecordRows(h, Name, r));
  }

  /** A section by its parts, after a text. */
  lemma {:induction false} PartsAdd(before: Units, prose: seq<Units>, open: Units, yaml: seq<Units>, after: Units)
    requires IsName(Name(Claims)) && SectionReady(prose, open, yaml) && Settled(before)
    requires after == TrimRight(before) + [NEWLINE] + Glue(Parts(prose, open, yaml), NEWLINE)
    ensures Adds(Split(before, NEWLINE), Split(after, NEWLINE),
                 Block(Glue(yaml, NEWLINE), |Split(TrimRight(before), NEWLINE)| + |prose| + 2, true))
  {
    var a := Split(TrimRight(before), NEWLINE);
    SectionSingle(prose, open, yaml);
    SectionGives(a, prose, open, yaml);
    TextAdds(before, Parts(prose, open, yaml), Block(Glue(yaml, NEWLINE), |a| + |prose| + 2, true), after);
  }

  /** A section and its parts. */
  lemma {:induction false} SectionIs(h: Host, r: Record, m: Meta) returns (prose: seq<Units>, open: Units, yaml: seq<Units>)
    requires Fair(Name) && Accepted(r) && PrintsBack(h, r.confidence) && MetaLines(m)
    ensures SectionReady(prose, open, yaml) && |prose| == 8
    ensures Section(h, r, m) == Glue(Parts(prose, open, yaml), NEWLINE) && Glue(yaml, NEWLINE) == RecordText(h, r)
  {
    RecordReady(h, r, m);
    SectionParts(h, r, m);
    prose, open, yaml := ProseLines(r, m), Ticks3 + Name(Claims), P.Texts(RecordRows(h, Name, r));
  }

  /** The blocks of a settled text, and of the text with a section appended. */
  lemma {:induction false} AppendedBlocks(h: Host, before: Units, r: Record, m: Meta)
    requires Fair(Name) && Accepted(r) && PrintsBack(h, r.confidence) && MetaLines(m) && Settled(before)
    ensures Adds(Split(before, NEWLINE), Split(Appended(h, before, r, m), NEWLINE),
                 Block(RecordText(h, r), BlockLine(before), true))
  {
    var prose, open, yaml := SectionIs(h, r, m);
    PartsAdd(before, prose, open, yaml, Appended(h, before, r, m));
  }

  /** One block more adds its own outcome. */
  lemma {:induction false} AddsOutcome(l: Ledger, was: seq<Units>, now: seq<Units>, b: Block)
    requires Adds(was, now, b)
    ensures ClaimsOf(l, now) == Join(ClaimsOf(l, was), BlockOutcome(l, b))
  {
    OutcomeMore(l, Blocks(was).value, b);
  }

  /**
   Appending a section to a text that parses cleanly, whose fences are closed and whose frontmatter has no
   claims, leaves its claims as they were and adds the record, exactly when the record's confidence is printed
   without an exponent; otherwise it adds an issue.
   */
  lemma {:induction false} AppendAddsRecord(l: Ledger, before: Units, r: Record, m: Meta)
    requires Accepted(r) && PrintsBack(l.h, r.confidence) && MetaLines(m) && Settled(before)
    requires !ClaimsOf(l, Split(before, NEWLINE)).issues
    ensures var (was, now) :=
        (ClaimsOf(l, Split(before, NEWLINE)), ClaimsOf(l, Split(Appended(l.h, before, r, m), NEWLINE)));
      now == if IsNumber(l.h.show(r.confidence))
             then Outcome(was.claims + [Claim(ValueOf(l.h, Name, r), BlockLine(before), true)], false)
             else Outcome(was.claims, true)
  {
    NamesFair();
    AppendedBlocks(l.h, before, r, m);
    var was := Split(before, NEWLINE);
    AddsOutcome(l, was, Split(Appended(l.h, before, r, m), NEWLINE), Block(RecordText(l.h, r), BlockLine(before), true));
    SectionOutcome(l, r, BlockLine(before));
    JoinNothing(ClaimsOf(l, was));
  }

  lemma {:induction false} JoinNothing(o: Outcome)
    ensures o.claims + [] == o.claims
  {
  }
}
