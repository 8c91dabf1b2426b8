/**
 The claim schema (scripts/lib/claims.js:596-840): what validateClaim asks of a claim verified by its source,
 and when a submitted record meets it once it has been printed and read back.
 */
module ClaimSchema {
  import opened Options
  import opened CodeUnits
  import opened ClaimText
  import opened ClaimYaml
  import opened ClaimRecord
  import opened ClaimFields
  import WeekDates

  /** The value of a key, if it has one. */
  function Get(entries: seq<Entry>, key: Units): Option<Value> {
    if entries == [] then None else if entries[0].key == key then Some(entries[0].value) else Get(entries[1..], key)
  }

  predicate IsText(v: Option<Value>) { v.Some? && v.value.Text? }

  /** Undefined or null. */
  predicate Absent(v: Option<Value>) { v.None? || v.value.Null? }

  // ------------------------------------------------------------------ the shapes of texts

  predicate LowerOrDigit(u: nat) { IsLower(u) || ClaimText.IsDigit(u) }

  /** Lower-case letters, digits and dashes, from a letter or digit on. */
  predicate IsSlug(u: Units) { u != [] && LowerOrDigit(u[0]) && forall i :: 0 <= i < |u| ==> InWord(u[i]) }

  /** /^c-[a-z0-9][a-z0-9-]*$/ */
  predicate IsId(u: Units) { |u| >= 3 && u[0] == 99 && u[1] == DASH && IsSlug(u[2..]) }

  /** /^(d-\d{3}|c-[a-z0-9][a-z0-9-]*)$/ */
  predicate IsSupport(u: Units) { IsId(u) || (|u| == 5 && u[0] == 100 && u[1] == DASH && Digits(u[2..])) }

  const Kinds: seq<Units> := [
    Ascii("external-fact"), Ascii("internal-fact"), Ascii("behavior"), Ascii("user-language"), Ascii("judgment"),
    Ascii("runtime-capability"), Ascii("preference")]

  const Scopes: seq<Units> := [Ascii("global"), Ascii("project"), Ascii("task")]

  function Decimal(u: Units): nat
    requires Digits(u)
  {
    if u == [] then 0 else 10 * Decimal(u[..|u| - 1]) + (u[|u| - 1] - 48)
  }

  function DaysIn(y: nat, m: nat): nat {
    if m == 2 then if WeekDates.IsLeap(y) then 29 else 28 else if m == 4 || m == 6 || m == 9 || m == 11 then 30 else 31
  }

  /** isRealDate: a date that Date.UTC gives back, which takes the years 0 to 99 for 1900 to 1999. */
  predicate IsRealDate(u: Units) {
    && |u| == 10 && u[4] == DASH && u[7] == DASH && Digits(u[..4]) && Digits(u[5..7]) && Digits(u[8..])
    && var (y, m, d) := (Decimal(u[..4]), Decimal(u[5..7]), Decimal(u[8..]));
      y >= 100 && 1 <= m <= 12 && 1 <= d <= DaysIn(y, m)
  }

  predicate NoSpace(u: Units) { forall i :: 0 <= i < |u| ==> !IsSpace(u[i]) }

  /** /^https?:\/\/\S+$/ */
  predicate IsWebAddress(u: Units) {
    (Ascii("http://") < u && NoSpace(u[7..])) || (Ascii("https://") < u && NoSpace(u[8..]))
  }

  predicate NotBlank(u: Units) { Trim(u) != [] }

  // ------------------------------------------------------------------ validateClaim

  const SchemaKeys: seq<Key> := EightKeys + [Supports, Disposition, FirstWaived]

  predicate OnlyKeys(name: Namer, entries: seq<Entry>, keys: seq<Key>) {
    entries == [] || ((exists i :: 0 <= i < |keys| && name(keys[i]) == entries[0].key) && OnlyKeys(name, entries[1..], keys))
  }

  /** validateEvidence for a source. */
  predicate SourceEvidence(name: Namer, v: Option<Value>) {
    && v.Some? && v.value.Map?
    && var e := v.value.entries;
      && var (url, quote, accessed) := (Get(e, name(Url)), Get(e, name(Quote)), Get(e, name(Accessed)));
      && IsText(url) && IsWebAddress(url.value.u)
      && IsText(quote) && NotBlank(quote.value.u)
      && IsText(accessed) && IsRealDate(accessed.value.u)
  }

  predicate DateOf(v: Option<Value>) { IsText(v) && IsRealDate(v.value.u) }

  predicate AllSupports(items: seq<Value>) {
    items == [] || (items[0].Text? && IsSupport(items[0].u) && AllSupports(items[1..]))
  }

  predicate SupportsRight(v: Option<Value>) { Absent(v) || (v.value.List? && AllSupports(v.value.items)) }

  predicate InUnit(v: Option<Value>) { v.Some? && v.value.Number? && 0.0 <= v.value.n <= 1.0 }

  predicate Durable(scope: Units) { scope == Scopes[0] || scope == Scopes[1] }

  /** The value of each key. */
  type Getter = Key -> Option<Value>

  function Getting(name: Namer, e: seq<Entry>): Getter { k => Get(e, name(k)) }

  /** What every claim is asked, whatever verifies it. */
  predicate CommonRight(get: Getter) {
    && var (id, assertion, kind, scope) := (get(Id), get(Assert), get(Kind), get(Scope));
    && IsText(id) && IsId(id.value.u)
    && IsText(assertion) && NotBlank(assertion.value.u)
    && IsText(kind) && kind.value.u in Kinds
    && IsText(scope) && scope.value.u in Scopes
    && InUnit(get(Confidence))
    && (if Durable(scope.value.u) then DateOf(get(ValidUntil)) else Absent(get(ValidUntil)) || DateOf(get(ValidUntil)))
    && SupportsRight(get(Supports))
  }

  predicate BySource(get: Getter) {
    get(VerifiedBy) == Some(Text(SourceWord)) && Absent(get(Disposition)) && Absent(get(FirstWaived))
  }

  /**
   validateClaim finds nothing. Claims verified by a command or a judge, and claims with a disposition, are
   judged by `others`.
   */
  predicate Valid(name: Namer, others: Value -> bool, v: Value) {
    && v.Map?
    && var get := Getting(name, v.entries);
      if BySource(get)
      then CommonRight(get) && SourceEvidence(name, get(Evidence)) && OnlyKeys(name, v.entries, SchemaKeys)
      else others(v)
  }

  // ------------------------------------------------------------------ submitted records

  /** checkText's rule on control characters. */
  predicate Calm(u: Units) { forall i :: 0 <= i < |u| ==> u[i] >= 32 && u[i] != 127 }

  /** A record the append path lets through: calm texts, the project's scope, and the schema on what was submitted. */
  predicate Accepted(r: Record) {
    && Calm(r.assertion) && Calm(r.url) && Calm(r.quote) && Calm(r.accessed) && Calm(r.validUntil)
    && IsId(r.id) && NotBlank(r.assertion) && r.kind in Kinds && r.scope == Scopes[1]
    && IsWebAddress(r.url) && NotBlank(r.quote) && IsRealDate(r.accessed) && IsRealDate(r.validUntil)
    && 0.0 <= r.confidence <= 1.0
    && forall i :: 0 <= i < |r.supports| ==> IsSupport(r.supports[i])
  }

  /** The host prints a number with digits, point and exponent, and reads its own plain printing back. */
  predicate PrintsBack(h: Host, n: real) {
    NumberText(h.show(n)) && (IsNumber(h.show(n)) ==> h.read(h.show(n)) == n)
  }

  lemma {:induction false} CalmLine(u: Units)
    requires Calm(u)
    ensures ClaimPrint.OneLine(u)
  {
  }

  lemma {:induction false} IdIsWord(u: Units)
    requires IsSupport(u)
    ensures IsWord(u)
  {
    forall i | 0 <= i < |u| ensures InWord(u[i]) {
      if i >= 2 { assert u[2..][i - 2] == u[i]; }
    }
  }

  lemma {:induction false} KindIsWord(u: Units)
    requires u in Kinds || u == Scopes[1]
    ensures IsWord(u)
  {
    if u in Kinds {
      var i :| 0 <= i < |Kinds| && Kinds[i] == u;
      KindWords(i);
    } else {
      LiteralIsWord("project");
    }
  }

  lemma {:induction false} FactWords()
    ensures IsWord(Kinds[0]) && IsWord(Kinds[1]) && IsWord(Kinds[2]) && IsWord(Kinds[6])
  {
    LiteralIsWord("external-fact");
    LiteralIsWord("internal-fact");
    LiteralIsWord("behavior");
    LiteralIsWord("preference");
  }

  lemma {:induction false} UseWords()
    ensures IsWord(Kinds[3]) && IsWord(Kinds[4]) && IsWord(Kinds[5])
  {
    LiteralIsWord("user-language");
    LiteralIsWord("judgment");
    LiteralIsWord("runtime-capability");
  }

  lemma {:induction false} KindWords(i: nat)
    requires i < |Kinds|
    ensures IsWord(Kinds[i])
  {
    FactWords();
    UseWords();
  }

  predicate WordText(s: string) {
    s != "" && 'a' <= s[0] <= 'z' && s[0] != 'n' && s[0] != 't' && s[0] != 'f'
    && forall i :: 0 <= i < |s| ==> 'a' <= s[i] <= 'z' || s[i] == '-'
  }

  lemma {:induction false} LiteralIsWord(s: string)
    requires WordText(s)
    ensures IsWord(Ascii(s))
  {
  }

  /** The emitter may print an accepted record. */
  lemma {:induction false} AcceptedWritable(h: Host, r: Record)
    requires Accepted(r) && PrintsBack(h, r.confidence)
    ensures Writable(h, r)
  {
    CalmLine(r.assertion);
    CalmLine(r.url);
    CalmLine(r.quote);
    CalmLine(r.accessed);
    CalmLine(r.validUntil);
    IdIsWord(r.id);
    KindIsWord(r.kind);
    KindIsWord(r.scope);
    SupportsAreWords(r.supports);
  }

  lemma {:induction false} SupportsAreWords(words: seq<Units>)
    requires forall i :: 0 <= i < |words| ==> IsSupport(words[i])
    ensures AllWords(words) && AllSupports(ClaimRecord.Texts(words))
    decreases |words|
  {
    if words != [] {
      IdIsWord(words[0]);
      SupportsAreWords(words[1..]);
    }
  }

  // ------------------------------------------------------------------ the schema on what is read back

  lemma {:induction false} GetEntry(h: Host, name: Namer, r: Record, keys: seq<Key>, k: Key)
    requires Fair(name)
    ensures Get(EntriesOf(h, name, r, keys), name(k)) == if k in keys then Some(ValueAt(h, name, r, k)) else None
  {
    if keys != [] { GetEntry(h, name, r, keys[1..], k); }
  }

  lemma {:induction false} EntriesKnown(h: Host, name: Namer, r: Record, keys: seq<Key>, known: seq<Key>)
    requires forall i :: 0 <= i < |keys| ==> keys[i] in known
    ensures OnlyKeys(name, EntriesOf(h, name, r, keys), known)
  {
    if keys != [] {
      EntriesKnown(h, name, r, keys[1..], known);
      var i :| 0 <= i < |known| && known[i] == keys[0];
      assert name(known[i]) == EntriesOf(h, name, r, keys)[0].key;
    }
  }

  predicate OfEvidence(k: Key) { k == Url || k == Quote || k == Accessed }

  lemma {:induction false} EightIn(k: Key)
    ensures k in EightKeys <==> (Leafy(k) && k != Supports && !OfEvidence(k)) || k == Evidence
  {
    assert EightKeys[0] == Id && EightKeys[1] == Assert && EightKeys[2] == Kind && EightKeys[3] == Scope;
    assert EightKeys[4] == VerifiedBy && EightKeys[5] == Evidence && EightKeys[6] == ValidUntil && EightKeys[7] == Confidence;
  }

  lemma {:induction false} TopIn(r: Record, k: Key)
    ensures k in TopKeys(r) <==> k in EightKeys || (k == Supports && r.supports != [])
    ensures k in TopKeys(r) ==> k in SchemaKeys
  {
    var late := [Supports, Disposition, FirstWaived];
    assert late[0] == Supports;
    if r.supports == [] { assert TopKeys(r) == EightKeys; } else { assert [Supports][0] == Supports; }
  }

  /** What a key of the record is read as, if the record has it. */
  function ReadAs(h: Host, name: Namer, r: Record, k: Key): Option<Value> {
    if k == Evidence || (Leafy(k) && !OfEvidence(k) && (k == Supports ==> r.supports != []))
    then Some(ValueAt(h, name, r, k)) else None
  }

  lemma {:induction false} GetTop(h: Host, name: Namer, r: Record, k: Key)
    requires Fair(name)
    ensures Getting(name, EntriesOf(h, name, r, TopKeys(r)))(k) == ReadAs(h, name, r, k)
  {
    GetEntry(h, name, r, TopKeys(r), k);
    TopIn(r, k);
    EightIn(k);
  }

  lemma {:induction false} EvidenceValid(h: Host, name: Namer, r: Record)
    requires Fair(name) && Accepted(r)
    ensures SourceEvidence(name, Some(ValueAt(h, name, r, Evidence)))
  {
    var e := ValueAt(h, name, r, Evidence).entries;
    assert name(Url) != name(Quote) && name(Url) != name(Accessed) && name(Quote) != name(Accessed);
    assert Get(e, name(Url)) == Some(Text(r.url));
    assert e[1..][0].key == name(Quote) && e[1..][1..][0].key == name(Accessed);
    assert Get(e[1..], name(Quote)) == Some(Text(r.quote));
    assert Get(e[1..][1..], name(Accessed)) == Some(Text(r.accessed));
    assert Get(e[1..], name(Accessed)) == Some(Text(r.accessed));
  }

  /** The record's own values. */
  predicate Holds(get: Getter, r: Record) {
    && get(Id) == Some(Text(r.id)) && get(Assert) == Some(Text(r.assertion))
    && get(Kind) == Some(Text(r.kind)) && get(Scope) == Some(Text(r.scope))
    && get(ValidUntil) == Some(Text(r.validUntil))
    && get(Supports) == if r.supports == [] then None else Some(List(ClaimRecord.Texts(r.supports)))
  }

  lemma {:induction false} HoldsRight(get: Getter, r: Record)
    requires Accepted(r) && Holds(get, r)
    ensures CommonRight(get) <==> InUnit(get(Confidence))
  {
    SupportsAreWords(r.supports);
    assert Scopes[1] in Scopes;
  }

  lemma {:induction false} ConfidenceRight(h: Host, name: Namer, r: Record)
    requires Accepted(r) && PrintsBack(h, r.confidence)
    ensures InUnit(Some(ValueAt(h, name, r, Confidence))) <==> IsNumber(h.show(r.confidence))
  {
  }

  ghost predicate GetsAll(get: Getter, h: Host, name: Namer, r: Record) { forall k :: get(k) == ReadAs(h, name, r, k) }

  lemma {:induction false} RecordGets(h: Host, name: Namer, r: Record)
    requires Fair(name)
    ensures GetsAll(Getting(name, EntriesOf(h, name, r, TopKeys(r))), h, name, r)
  {
    forall k ensures Getting(name, EntriesOf(h, name, r, TopKeys(r)))(k) == ReadAs(h, name, r, k) { GetTop(h, name, r, k); }
  }

  lemma {:induction false} GetsHolds(get: Getter, h: Host, name: Namer, r: Record)
    requires GetsAll(get, h, name, r)
    ensures Holds(get, r) && BySource(get)
    ensures get(Confidence) == Some(ValueAt(h, name, r, Confidence)) && get(Evidence) == Some(ValueAt(h, name, r, Evidence))
  {
  }

  /** An accepted record meets the schema exactly when its confidence is read back as a number. */
  lemma {:induction false} RecordValid(h: Host, name: Namer, others: Value -> bool, r: Record)
    requires Fair(name) && Accepted(r) && PrintsBack(h, r.confidence)
    ensures Valid(name, others, ValueOf(h, name, r)) <==> IsNumber(h.show(r.confidence))
  {
    var e := EntriesOf(h, name, r, TopKeys(r));
    var get := Getting(name, e);
    RecordGets(h, name, r);
    GetsHolds(get, h, name, r);
    HoldsRight(get, r);
    ConfidenceRight(h, name, r);
    EvidenceValid(h, name, r);
    forall i | 0 <= i < |TopKeys(r)| ensures TopKeys(r)[i] in SchemaKeys { TopIn(r, TopKeys(r)[i]); }
    EntriesKnown(h, name, r, TopKeys(r), SchemaKeys);
  }

  // ------------------------------------------------------------------ the schema's own names

  predicate NameText(s: string) {
    s != "" && 'a' <= s[0] <= 'z' && forall i :: 0 <= i < |s| ==> 'a' <= s[i] <= 'z' || s[i] == '_'
  }

  lemma {:induction false} LiteralIsName(s: string)
    requires NameText(s)
    ensures IsName(Ascii(s))
  {
  }

  lemma {:induction false} NamesFair()
    ensures Fair(Name)
  {
    forall k ensures IsName(Name(k)) { NameIsName(k); }
    forall k, l | Name(k) == Name(l) ensures k == l { NamesDiffer(k, l); }
  }

  lemma {:induction false} NameIsName(k: Key)
    ensures IsName(Name(k))
  {
    match k
    case Claims => LiteralIsName("claims");
    case Id => LiteralIsName("id");
    case Assert => LiteralIsName("assert");
    case Kind => LiteralIsName("kind");
    case Scope => LiteralIsName("scope");
    case VerifiedBy => LiteralIsName("verified_by");
    case Evidence => LiteralIsName("evidence");
    case Url => LiteralIsName("url");
    case Quote => LiteralIsName("quote");
    case Accessed => LiteralIsName("accessed");
    case ValidUntil => LiteralIsName("valid_until");
    case Confidence => LiteralIsName("confidence");
    case Supports => LiteralIsName("supports");
    case Disposition => LiteralIsName("disposition");
    case FirstWaived => LiteralIsName("first_waived");
  }

  /** A number no two names share: their length, then a unit that tells those of one length apart. */
  function Mark(u: Units): (int, int, int)
    requires |u| >= 2
  {
    (|u|, u[0], u[1])
  }

  function KeyMark(k: Key): (int, int, int) {
    match k
    case Claims => (6, 99, 108)
    case Id => (2, 105, 100)
    case Assert => (6, 97, 115)
    case Kind => (4, 107, 105)
    case Scope => (5, 115, 99)
    case VerifiedBy => (11, 118, 101)
    case Evidence => (8, 101, 118)
    case Url => (3, 117, 114)
    case Quote => (5, 113, 117)
    case Accessed => (8, 97, 99)
    case ValidUntil => (11, 118, 97)
    case Confidence => (10, 99, 111)
    case Supports => (8, 115, 117)
    case Disposition => (11, 100, 105)
    case FirstWaived => (12, 102, 105)
  }

  lemma {:induction false} NameMark(k: Key)
    ensures |Name(k)| >= 2 && Mark(Name(k)) == KeyMark(k)
  {
  }

  lemma {:induction false} NamesDiffer(k: Key, l: Key)
    requires Name(k) == Name(l)
    ensures k == l
  {
    NameMark(k);
    NameMark(l);
    MarksDiffer(k, l);
  }

  lemma {:induction false} MarksDiffer(k: Key, l: Key)
    requires KeyMark(k) == KeyMark(l)
    ensures k == l
  {
  }
}
