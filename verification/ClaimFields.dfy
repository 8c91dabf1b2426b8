/**
 A record's block (scripts/lib/claim-append.js:215-232): the fields the emitter prints, one by one, and the
 value the strict parser reads back from them.
 */
module ClaimFields {
  import opened Options
  import opened CodeUnits
  import opened ClaimText
  import opened ClaimYaml
  import opened ClaimPrint
  import opened ClaimBlock
  import opened ClaimRecord

  datatype Key =
    | Claims | Id | Assert | Kind | Scope | VerifiedBy | Evidence | Url | Quote | Accessed | ValidUntil | Confidence
    | Supports | Disposition | FirstWaived

  function Name(k: Key): Units {
    match k
    case Claims => Ascii("claims")
    case Id => Ascii("id")
    case Assert => Ascii("assert")
    case Kind => Ascii("kind")
    case Scope => Ascii("scope")
    case VerifiedBy => Ascii("verified_by")
    case Evidence => Ascii("evidence")
    case Url => Ascii("url")
    case Quote => Ascii("quote")
    case Accessed => Ascii("accessed")
    case ValidUntil => Ascii("valid_until")
    case Confidence => Ascii("confidence")
    case Supports => Ascii("supports")
    case Disposition => Ascii("disposition")
    case FirstWaived => Ascii("first_waived")
  }

  /** Field names, by any naming that is fair; the schema's own is. */
  type Namer = Key -> Units

  ghost predicate Fair(name: Namer) {
    (forall k :: IsName(name(k))) && (forall k, l :: name(k) == name(l) ==> k == l)
  }

  /** The record as it is submitted; it is always verified by its source. */
  datatype Record = Record(
    id: Units, assertion: Units, kind: Units, scope: Units,
    url: Units, quote: Units, accessed: Units,
    validUntil: Units, confidence: real, supports: seq<Units>)

  const SourceWord: Units := Ascii("source")

  lemma {:induction false} SourceIsWord()
    ensures IsWord(SourceWord)
  {
    assert SourceWord[0] == 115;
  }

  /** What the emitter relies on: words where it writes no quotes, one line where it does. */
  predicate Writable(h: Host, r: Record) {
    && IsWord(r.id) && IsWord(r.kind) && IsWord(r.scope) && AllWords(r.supports)
    && OneLine(r.assertion) && OneLine(r.url) && OneLine(r.quote) && OneLine(r.accessed) && OneLine(r.validUntil)
    && NumberText(h.show(r.confidence))
  }

  lemma {:induction false} WritableSpells(h: Host, r: Record)
    requires Writable(h, r)
    ensures Spelled(h, Bare(r.id)) && Spelled(h, Bare(r.kind)) && Spelled(h, Bare(r.scope)) && Spelled(h, Bare(SourceWord))
    ensures Spelled(h, Bare(h.show(r.confidence))) && (r.supports != [] ==> Spelled(h, Bare(Bracketed(r.supports))))
  {
    SourceIsWord();
    WordReads(h, r.id);
    WordReads(h, r.kind);
    WordReads(h, r.scope);
    WordReads(h, SourceWord);
    NumberReads(h, h.show(r.confidence));
    if r.supports != [] { ListSpelled(h, r.supports); }
  }

  /** How each key is written. */
  function Spelling(h: Host, r: Record, k: Key): Spelling {
    match k
    case Id => Bare(r.id)
    case Assert => Dq(r.assertion)
    case Kind => Bare(r.kind)
    case Scope => Bare(r.scope)
    case VerifiedBy => Bare(SourceWord)
    case Url => Dq(r.url)
    case Quote => Dq(r.quote)
    case Accessed => Dq(r.accessed)
    case ValidUntil => Dq(r.validUntil)
    case Confidence => Bare(h.show(r.confidence))
    case _ => Bare(Bracketed(r.supports))
  }

  const EvidenceKeys: seq<Key> := [Url, Quote, Accessed]

  function TopKeys(r: Record): seq<Key> {
    EightKeys + if r.supports == [] then [] else [Supports]
  }

  /** What a key stands for. */
  function ValueAt(h: Host, name: Namer, r: Record, k: Key): Value {
    match k
    case Id => Text(r.id)
    case Assert => Text(r.assertion)
    case Kind => Text(r.kind)
    case Scope => Text(r.scope)
    case VerifiedBy => Text(SourceWord)
    case Url => Text(r.url)
    case Quote => Text(r.quote)
    case Accessed => Text(r.accessed)
    case ValidUntil => Text(r.validUntil)
    case Confidence =>
      var t := h.show(r.confidence);
      if IsNumber(t) then Number(h.read(t)) else Text(t)
    case Supports => List(ClaimRecord.Texts(r.supports))
    case _ =>
      Map([Entry(name(Url), Text(r.url)), Entry(name(Quote), Text(r.quote)), Entry(name(Accessed), Text(r.accessed))])
  }

  function EntriesOf(h: Host, name: Namer, r: Record, keys: seq<Key>): seq<Entry> {
    if keys == [] then [] else [Entry(name(keys[0]), ValueAt(h, name, r, keys[0]))] + EntriesOf(h, name, r, keys[1..])
  }

  /** The record as the schema sees it, key by key in the order of the emitter. */
  function ValueOf(h: Host, name: Namer, r: Record): Value { Map(EntriesOf(h, name, r, TopKeys(r))) }

  // ------------------------------------------------------------------ the printed fields

  function LeafAt(h: Host, name: Namer, r: Record, k: Key): Field {
    LeafOf(h, name(k), Spelling(h, r, k))
  }

  predicate Leafy(k: Key) { k != Evidence && k != Claims && k != Disposition && k != FirstWaived }

  lemma {:induction false} KeySpells(h: Host, r: Record, k: Key)
    requires Writable(h, r) && Leafy(k) && (k == Supports ==> r.supports != [])
    ensures Spelled(h, Spelling(h, r, k))
  {
    WritableSpells(h, r);
  }

  /** A key's scalar means what the record has there. */
  lemma {:induction false} KeyMeans(h: Host, name: Namer, r: Record, k: Key)
    requires Writable(h, r) && Leafy(k) && (k == Supports ==> r.supports != [])
    ensures Spelled(h, Spelling(h, r, k)) && LeafAt(h, name, r, k).value == ValueAt(h, name, r, k)
  {
    KeySpells(h, r, k);
    match k
    case Id => WordReads(h, r.id);
    case Kind => WordReads(h, r.kind);
    case Scope => WordReads(h, r.scope);
    case VerifiedBy => SourceIsWord(); WordReads(h, SourceWord);
    case Confidence => NumberReads(h, h.show(r.confidence));
    case Supports => WordsRead(h, r.supports);
    case _ =>
  }

  /** Keys the emitter writes for a record. */
  predicate Printed(r: Record, k: Key) { k == Evidence || (Leafy(k) && (k == Supports ==> r.supports != [])) }

  /** Fields, key by key. */
  function Spread(at: Key -> Field, keys: seq<Key>): (fields: seq<Field>)
    ensures |fields| == |keys|
  {
    if keys == [] then [] else [at(keys[0])] + Spread(at, keys[1..])
  }

  function Leaves(h: Host, name: Namer, r: Record): Key -> Field { k => LeafAt(h, name, r, k) }

  /** A key's field; the evidence is a mapping of its own. */
  function FieldAt(h: Host, name: Namer, r: Record, k: Key): Field {
    if k == Evidence then NestOf(name(Evidence), Spread(Leaves(h, name, r), EvidenceKeys)) else LeafAt(h, name, r, k)
  }

  function Fields(h: Host, name: Namer, r: Record): Key -> Field { k => FieldAt(h, name, r, k) }

  function FieldsOf(h: Host, name: Namer, r: Record): seq<Field> { Spread(Fields(h, name, r), TopKeys(r)) }

  predicate Once(keys: seq<Key>) { keys == [] || (keys[0] !in keys[1..] && Once(keys[1..])) }

  ghost predicate Keyed(at: Key -> Field, name: Namer) { forall k :: at(k).key == name(k) }

  lemma {:induction false} SpreadNames(at: Key -> Field, name: Namer, keys: seq<Key>, k: Key)
    requires Fair(name) && Keyed(at, name)
    ensures Names(Spread(at, keys), name(k)) <==> k in keys
  {
    if keys != [] { SpreadNames(at, name, keys[1..], k); }
  }

  /** Fields the reader takes one by one are taken together, under different keys. */
  lemma {:induction false} SpreadSits(r: Reader, at: Key -> Field, name: Namer, keys: seq<Key>)
    requires Fair(name) && Keyed(at, name) && Once(keys)
    requires forall i :: 0 <= i < |keys| ==> Sits(r, at(keys[i]))
    ensures AllSit(r, Spread(at, keys))
  {
    if keys != [] {
      SpreadSits(r, at, name, keys[1..]);
      SpreadNames(at, name, keys[1..], keys[0]);
    }
  }

  function EntriesBy(at: Key -> Field, name: Namer, keys: seq<Key>): seq<Entry> {
    if keys == [] then [] else [Entry(name(keys[0]), Meaning(at(keys[0])))] + EntriesBy(at, name, keys[1..])
  }

  lemma {:induction false} SpreadOnto(at: Key -> Field, name: Namer, keys: seq<Key>, entries: seq<Entry>)
    requires Keyed(at, name)
    ensures Onto(entries, Spread(at, keys)) == entries + EntriesBy(at, name, keys)
  {
    if keys != [] {
      var e := Entry(name(keys[0]), Meaning(at(keys[0])));
      SpreadOnto(at, name, keys[1..], entries + [e]);
      assert entries + [e] + EntriesBy(at, name, keys[1..]) == entries + EntriesBy(at, name, keys);
    }
  }

  /** The lines of a field are kept by the scan. */
  predicate Tidy(f: Field) { Clean(f.content) && (f.Nest? ==> AllClean(Rows(f.fields, 6))) }

  lemma {:induction false} CleanJoins(a: seq<Row>, b: seq<Row>)
    requires AllClean(a) && AllClean(b)
    ensures AllClean(a + b)
  {
    if a == [] {
      assert a + b == b;
    } else {
      CleanJoins(a[1..], b);
      assert (a + b)[1..] == a[1..] + b;
    }
  }

  lemma {:induction false} SpreadClean(at: Key -> Field, keys: seq<Key>, indent: nat)
    requires forall i :: 0 <= i < |keys| ==> Tidy(at(keys[i])) && (at(keys[i]).Nest? ==> indent == 4)
    ensures AllClean(Rows(Spread(at, keys), indent))
  {
    if keys != [] {
      var f := at(keys[0]);
      SpreadClean(at, keys[1..], indent);
      assert FieldRows(f, indent)[1..] == if f.Nest? then Rows(f.fields, indent + 2) else [];
      CleanJoins(FieldRows(f, indent), Rows(Spread(at, keys[1..]), indent));
    }
  }

  // ------------------------------------------------------------------ the record's fields

  lemma {:induction false} LeafRight(s: Source, name: Namer, r: Record, k: Key)
    requires Fair(name) && Writable(s.h, r) && Leafy(k) && (k == Supports ==> r.supports != [])
    ensures RightLeaf(ReaderOf(s), Leaves(s.h, name, r)(k), ValueAt(s.h, name, r, k))
  {
    KeyMeans(s.h, name, r, k);
    LeafSits(s, name(k), Spelling(s.h, r, k));
    LeafClean(s.h, [], name(k), Spelling(s.h, r, k));
    var c := LeafAt(s.h, name, r, k).content;
    assert [] + c == c;
  }

  /** A field that is read and scanned for what it means. */
  predicate Right(r: Reader, f: Field, v: Value) { Sits(r, f) && Tidy(f) && Meaning(f) == v }

  /** A key that opens a mapping: its line is kept by the scan and read as the key. */
  predicate Heads(r: Reader, key: Units) { r.key(key + [COLON]) == Some((key, [])) && Clean(key + [COLON]) }

  lemma {:induction false} NameHeads(s: Source, key: Units)
    requires IsName(key)
    ensures Heads(ReaderOf(s), key)
  {
    assert key + [COLON] == key + [COLON] + [];
    KeyReads(key, []);
    NestClean(key);
  }

  /** Leaves that are right make a mapping that is. */
  lemma {:induction false} NestRight(r: Reader, key: Units, at: Key -> Field, name: Namer, keys: seq<Key>)
    requires Fair(name) && Keyed(at, name) && Once(keys) && keys != [] && Heads(r, key)
    requires forall i :: 0 <= i < |keys| ==> Sits(r, at(keys[i])) && Tidy(at(keys[i])) && at(keys[i]).Leaf?
    ensures Right(r, NestOf(key, Spread(at, keys)), Map(EntriesBy(at, name, keys)))
  {
    SpreadSits(r, at, name, keys);
    SpreadClean(at, keys, 6);
    SpreadOnto(at, name, keys, []);
    assert [] + EntriesBy(at, name, keys) == EntriesBy(at, name, keys);
  }

  lemma {:induction false} LeavesKeyed(h: Host, name: Namer, r: Record)
    ensures Keyed(Leaves(h, name, r), name)
  {
  }

  lemma {:induction false} EvidenceEntries(at: Key -> Field, name: Namer, u: Value, q: Value, a: Value)
    requires Meaning(at(Url)) == u && Meaning(at(Quote)) == q && Meaning(at(Accessed)) == a
    ensures EntriesBy(at, name, EvidenceKeys) == [Entry(name(Url), u), Entry(name(Quote), q), Entry(name(Accessed), a)]
  {
    var keys := EvidenceKeys;
    assert keys[1..] == [Quote, Accessed] && keys[1..][1..] == [Accessed] && keys[1..][1..][1..] == [];
    assert EntriesBy(at, name, [Accessed]) == [Entry(name(Accessed), a)];
    assert EntriesBy(at, name, [Quote, Accessed]) == [Entry(name(Quote), q), Entry(name(Accessed), a)];
  }

  predicate RightLeaf(r: Reader, f: Field, v: Value) { f.Leaf? && Right(r, f, v) }

  /** Keys whose leaves are right. */
  ghost predicate LeavesRight(r: Reader, at: Key -> Field, values: Key -> Value, keys: seq<Key>) {
    forall i :: 0 <= i < |keys| ==> RightLeaf(r, at(keys[i]), values(keys[i]))
  }

  function Values(h: Host, name: Namer, r: Record): Key -> Value { k => ValueAt(h, name, r, k) }

  lemma {:induction false} EvidenceBy(r: Reader, key: Units, at: Key -> Field, name: Namer, values: Key -> Value)
    requires Fair(name) && Keyed(at, name) && Heads(r, key) && LeavesRight(r, at, values, EvidenceKeys)
    ensures Right(r, NestOf(key, Spread(at, EvidenceKeys)),
                  Map([Entry(name(Url), values(Url)), Entry(name(Quote), values(Quote)), Entry(name(Accessed), values(Accessed))]))
  {
    var keys := EvidenceKeys;
    assert RightLeaf(r, at(keys[0]), values(keys[0])) && RightLeaf(r, at(keys[1]), values(keys[1]))
      && RightLeaf(r, at(keys[2]), values(keys[2]));
    EvidenceEntries(at, name, values(Url), values(Quote), values(Accessed));
    assert Once(keys) by { assert keys[1..] == [Quote, Accessed] && keys[1..][1..] == [Accessed]; }
    NestRight(r, key, at, name, keys);
  }

  lemma {:induction false} EvidenceLeaves(s: Source, name: Namer, r: Record)
    requires Fair(name) && Writable(s.h, r)
    ensures LeavesRight(ReaderOf(s), Leaves(s.h, name, r), Values(s.h, name, r), EvidenceKeys)
  {
    forall i | 0 <= i < |EvidenceKeys|
      ensures RightLeaf(ReaderOf(s), Leaves(s.h, name, r)(EvidenceKeys[i]), Values(s.h, name, r)(EvidenceKeys[i]))
    { LeafRight(s, name, r, EvidenceKeys[i]); }
  }

  lemma {:induction false} EvidenceVia(rd: Reader, h: Host, name: Namer, r: Record)
    requires Fair(name) && Heads(rd, name(Evidence))
    requires LeavesRight(rd, Leaves(h, name, r), Values(h, name, r), EvidenceKeys)
    ensures Right(rd, FieldAt(h, name, r, Evidence), ValueAt(h, name, r, Evidence))
  {
    LeavesKeyed(h, name, r);
    EvidenceBy(rd, name(Evidence), Leaves(h, name, r), name, Values(h, name, r));
  }

  lemma {:induction false} EvidenceRight(s: Source, name: Namer, r: Record)
    requires Fair(name) && Writable(s.h, r)
    ensures Right(ReaderOf(s), FieldAt(s.h, name, r, Evidence), ValueAt(s.h, name, r, Evidence))
  {
    EvidenceLeaves(s, name, r);
    NameHeads(s, name(Evidence));
    EvidenceVia(ReaderOf(s), s.h, name, r);
  }

  /** Every field the emitter prints for a record is right. */
  lemma {:induction false} FieldRight(s: Source, name: Namer, r: Record, k: Key)
    requires Fair(name) && Writable(s.h, r) && Printed(r, k)
    ensures Right(ReaderOf(s), FieldAt(s.h, name, r, k), ValueAt(s.h, name, r, k))
  {
    if k == Evidence { EvidenceRight(s, name, r); } else { LeafRight(s, name, r, k); }
  }

  const EightKeys: seq<Key> := [Id, Assert, Kind, Scope, VerifiedBy, Evidence, ValidUntil, Confidence]

  lemma {:induction false} TopKeysOnce(r: Record)
    ensures Once(TopKeys(r)) && TopKeys(r) != [] && TopKeys(r)[0] == Id
    ensures forall i :: 0 <= i < |TopKeys(r)| ==> Printed(r, TopKeys(r)[i])
  {
    OnceEight();
    if r.supports != [] {
      OnceMore(EightKeys, Supports);
    } else {
      assert EightKeys + [] == EightKeys;
    }
    forall i | 0 <= i < |TopKeys(r)| ensures Printed(r, TopKeys(r)[i]) {
      EightPrinted(r);
      if i < |EightKeys| { assert TopKeys(r)[i] == EightKeys[i]; }
    }
  }

  lemma {:induction false} EightPrinted(r: Record)
    ensures forall i :: 0 <= i < |EightKeys| ==> Printed(r, EightKeys[i])
  {
  }

  lemma {:induction false} OnceEight()
    ensures Once(EightKeys)
  {
    assert Once([]);
    OnceBefore(Confidence, []);
    OnceBefore(ValidUntil, [Confidence]);
    OnceBefore(Evidence, [ValidUntil, Confidence]);
    OnceBefore(VerifiedBy, [Evidence, ValidUntil, Confidence]);
    OnceBefore(Scope, [VerifiedBy, Evidence, ValidUntil, Confidence]);
    OnceBefore(Kind, [Scope, VerifiedBy, Evidence, ValidUntil, Confidence]);
    OnceBefore(Assert, [Kind, Scope, VerifiedBy, Evidence, ValidUntil, Confidence]);
    OnceBefore(Id, [Assert, Kind, Scope, VerifiedBy, Evidence, ValidUntil, Confidence]);
    assert [Id] + [Assert, Kind, Scope, VerifiedBy, Evidence, ValidUntil, Confidence] == EightKeys;
  }

  lemma {:induction false} OnceBefore(k: Key, keys: seq<Key>)
    requires Once(keys) && k !in keys
    ensures Once([k] + keys)
  {
    assert ([k] + keys)[1..] == keys;
  }

  lemma {:induction false} OnceMore(keys: seq<Key>, k: Key)
    requires Once(keys) && k !in keys
    ensures Once(keys + [k])
  {
    if keys != [] {
      OnceMore(keys[1..], k);
      assert (keys + [k])[1..] == keys[1..] + [k];
    } else {
      assert [k][1..] == [];
    }
  }

  lemma {:induction false} EntriesSame(h: Host, name: Namer, r: Record, at: Key -> Field, keys: seq<Key>)
    requires forall i :: 0 <= i < |keys| ==> Meaning(at(keys[i])) == ValueAt(h, name, r, keys[i])
    ensures EntriesBy(at, name, keys) == EntriesOf(h, name, r, keys)
  {
    if keys != [] { EntriesSame(h, name, r, at, keys[1..]); }
  }

  lemma {:induction false} FieldsKeyed(h: Host, name: Namer, r: Record)
    ensures Keyed(Fields(h, name, r), name)
  {
  }

  /** The line of the first field, after its bullet. */
  lemma {:induction false} FirstRight(h: Host, name: Namer, r: Record)
    requires Fair(name) && Writable(h, r)
    ensures Opener(Fields(h, name, r)(Id)) && Clean(Bullet + Fields(h, name, r)(Id).content)
  {
    KeySpells(h, r, Id);
    LeafClean(h, Bullet, name(Id), Bare(r.id));
    LeafOpens(h, name(Id), Bare(r.id));
    assert Fields(h, name, r)(Id) == LeafOf(h, name(Id), Bare(r.id));
  }

  /** The keys are printed as fields that are right. */
  ghost predicate AllRight(rd: Reader, at: Key -> Field, h: Host, name: Namer, r: Record, keys: seq<Key>) {
    forall i :: 0 <= i < |keys| ==> Right(rd, at(keys[i]), ValueAt(h, name, r, keys[i]))
  }

  lemma {:induction false} FieldsRight(s: Source, name: Namer, r: Record)
    requires Fair(name) && Writable(s.h, r)
    ensures AllRight(ReaderOf(s), Fields(s.h, name, r), s.h, name, r, TopKeys(r))
  {
    TopKeysOnce(r);
    forall i | 0 <= i < |TopKeys(r)|
      ensures Right(ReaderOf(s), Fields(s.h, name, r)(TopKeys(r)[i]), ValueAt(s.h, name, r, TopKeys(r)[i]))
    { FieldRight(s, name, r, TopKeys(r)[i]); }
  }

  /** Right fields under different keys print clean rows, and mean the record's entries. */
  lemma {:induction false} FieldsTogether(rd: Reader, at: Key -> Field, h: Host, name: Namer, r: Record, keys: seq<Key>)
    requires Fair(name) && Keyed(at, name) && Once(keys) && AllRight(rd, at, h, name, r, keys)
    ensures AllSit(rd, Spread(at, keys)) && AllClean(Rows(Spread(at, keys), 4))
    ensures Onto([], Spread(at, keys)) == EntriesOf(h, name, r, keys)
  {
    SpreadSits(rd, at, name, keys);
    SpreadClean(at, keys, 4);
    SpreadOnto(at, name, keys, []);
    EntriesSame(h, name, r, at, keys);
    assert [] + EntriesOf(h, name, r, keys) == EntriesOf(h, name, r, keys);
  }

  /** The rows of a record's block. */
  function RecordRows(h: Host, name: Namer, r: Record): seq<Row> {
    TopKeysOnce(r);
    ListRows(name(Claims), FieldsOf(h, name, r))
  }

  lemma {:induction false} RecordRowsClean(h: Host, name: Namer, r: Record)
    requires Fair(name) && Writable(h, r) && AllClean(Rows(FieldsOf(h, name, r), 4))
    ensures AllClean(RecordRows(h, name, r))
  {
    TopKeysOnce(r);
    FirstRight(h, name, r);
    NestClean(name(Claims));
    ListRowsClean(name(Claims), FieldsOf(h, name, r));
  }

  /** The block printed for a record parses to a list of that record alone. */
  lemma {:induction false} RecordParses(h: Host, block: BlockReader, name: Namer, r: Record)
    requires Fair(name) && Writable(h, r)
    ensures AllClean(RecordRows(h, name, r))
    ensures ParseYaml(h, block, Glue(ClaimPrint.Texts(RecordRows(h, name, r)), NEWLINE))
      == Some(Map([Entry(name(Claims), List([ValueOf(h, name, r)]))]))
  {
    var fields, keys, at := FieldsOf(h, name, r), TopKeys(r), Fields(h, name, r);
    var s := Source(h, block, ClaimPrint.Texts(RecordRows(h, name, r)));
    FieldsRight(s, name, r);
    FieldsKeyed(h, name, r);
    TopKeysOnce(r);
    FieldsTogether(ReaderOf(s), at, h, name, r, keys);
    RecordRowsClean(h, name, r);
    FirstRight(h, name, r);
    ListParses(h, block, name(Claims), fields);
  }
}
