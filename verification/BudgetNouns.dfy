/**
 The budget ledger's nouns and their readers (userland/src/budget.ts): amounts, debits and
 tranches, parsed from untrusted JSON into one canonical shape.
 */
module BudgetNouns {
  import opened JsonText
  import opened Options
  import opened Decimals

  datatype Resource = Cash | Allowance | Throughput | FounderMinutes | VerifierWindow
  datatype Hold = Execution | IntegrationRework | Acceptance | Recovery
  datatype Purpose = ForExecution | ForIntegrationRework | ForJudging | ForRecovery

  datatype Amount = Amount(resource: Resource, unit: string, quantity: string)
  datatype HoldSpec = HoldSpec(hold: Hold, amount: Amount)
  datatype Tranche = Tranche(id: string, venture: string, mission: string, holds: seq<HoldSpec>)
  datatype Debit = Debit(key: string, tranche: string, attempt: string, purpose: Purpose,
                         pool: Hold, amount: Amount, reservationRef: Option<string>)

  const MAX_QUANTITY: nat := 9223372036854775807
  const MAX_TEXT: nat := 256
  const MAX_HOLDS: nat := 64

  /** The charging table: one pool per purpose. */
  function Pool(p: Purpose): Hold {
    match p
    case ForExecution => Execution
    case ForIntegrationRework => IntegrationRework
    case ForJudging => Acceptance
    case ForRecovery => Recovery
  }

  // ------------------------------------------------------------------ names on the wire

  function ResourceName(r: Resource): string {
    match r
    case Cash => "cash"
    case Allowance => "allowance"
    case Throughput => "throughput"
    case FounderMinutes => "founder_minutes"
    case VerifierWindow => "verifier_window"
  }

  function HoldName(h: Hold): string {
    match h
    case Execution => "execution"
    case IntegrationRework => "integration_rework"
    case Acceptance => "acceptance"
    case Recovery => "recovery"
  }

  function PurposeName(p: Purpose): string {
    match p
    case ForExecution => "execution"
    case ForIntegrationRework => "integration_rework"
    case ForJudging => "judging"
    case ForRecovery => "recovery"
  }

  function ParseResource(v: Option<Json>): (r: Option<Resource>)
    ensures r.Some? ==> v == Some(Str(ResourceName(r.value)))
  {
    if v == Some(Str("cash")) then Some(Cash)
    else if v == Some(Str("allowance")) then Some(Allowance)
    else if v == Some(Str("throughput")) then Some(Throughput)
    else if v == Some(Str("founder_minutes")) then Some(FounderMinutes)
    else if v == Some(Str("verifier_window")) then Some(VerifierWindow)
    else None
  }

  function ParseHold(v: Option<Json>): (r: Option<Hold>)
    ensures r.Some? ==> v == Some(Str(HoldName(r.value)))
  {
    if v == Some(Str("execution")) then Some(Execution)
    else if v == Some(Str("integration_rework")) then Some(IntegrationRework)
    else if v == Some(Str("acceptance")) then Some(Acceptance)
    else if v == Some(Str("recovery")) then Some(Recovery)
    else None
  }

  function ParsePurpose(v: Option<Json>): (r: Option<Purpose>)
    ensures r.Some? ==> v == Some(Str(PurposeName(r.value)))
  {
    if v == Some(Str("execution")) then Some(ForExecution)
    else if v == Some(Str("integration_rework")) then Some(ForIntegrationRework)
    else if v == Some(Str("judging")) then Some(ForJudging)
    else if v == Some(Str("recovery")) then Some(ForRecovery)
    else None
  }

  // ------------------------------------------------------------------ scalars

  /** `String.length`: characters beyond the basic plane count twice. */
  function Utf16Length(s: string): nat {
    if s == "" then 0 else (if s[0] as int >= 0x10000 then 2 else 1) + Utf16Length(s[1..])
  }

  predicate IsControl(c: char) { c < ' ' || c as int == 0x7f }

  predicate IsText(s: string) {
    1 <= Utf16Length(s) <= MAX_TEXT && forall i :: 0 <= i < |s| ==> !IsControl(s[i])
  }

  function ParseText(v: Option<Json>): (r: Option<string>)
    ensures r.Some? ==> v == Some(Str(r.value)) && IsText(r.value)
  {
    if v.Some? && v.value.Str? && IsText(v.value.text) then Some(v.value.text) else None
  }

  predicate IsUpper(c: char) { 'A' <= c <= 'Z' }
  predicate IsAlnum(c: char) { IsDigit(c) || IsUpper(c) || 'a' <= c <= 'z' }
  predicate IsUnitChar(c: char) { IsAlnum(c) || c == '.' || c == '_' || c == '/' || c == '-' }

  predicate IsUnit(r: Resource, u: string) {
    if r.Cash? then |u| == 8 && u[..5] == "cash:" && forall i :: 5 <= i < 8 ==> IsUpper(u[i])
    else 1 <= |u| <= 128 && IsAlnum(u[0]) && forall i :: 1 <= i < |u| ==> IsUnitChar(u[i])
  }

  predicate IsQuantity(s: string) {
    1 <= |s| <= 19 && s[0] != '0' && AllDigits(s) && Value(s) <= MAX_QUANTITY
  }

  predicate ValidAmount(a: Amount) { IsUnit(a.resource, a.unit) && IsQuantity(a.quantity) }

  /** The amount's quantity as a number of the hold's smallest units. */
  function Quantity(a: Amount): (q: nat)
    requires ValidAmount(a)
    ensures 1 <= q <= MAX_QUANTITY
  {
    ValueBounds(a.quantity);
    Value(a.quantity)
  }

  // ------------------------------------------------------------------ readers

  function ParseAmount(v: Option<Json>): (r: Option<Amount>)
    ensures r.Some? ==> ValidAmount(r.value)
  {
    if v.None? || !v.value.Obj? then None
    else
      var resource := ParseResource(Get(v.value, "resource"));
      var unit := Get(v.value, "unit");
      var quantity := Get(v.value, "quantity");
      if resource.None? then None
      else if unit.None? || !unit.value.Str? || !IsUnit(resource.value, unit.value.text) then None
      else if quantity.None? || !quantity.value.Str? || !IsQuantity(quantity.value.text) then None
      else Some(Amount(resource.value, unit.value.text, quantity.value.text))
  }

  predicate ValidDebit(d: Debit) {
    IsText(d.key) && IsText(d.tranche) && IsText(d.attempt) && ValidAmount(d.amount)
    && (d.reservationRef.Some? ==> IsText(d.reservationRef.value))
  }

  /** parseDebit's checks on the fields it read. */
  function DebitFrom(key: Option<string>, tranche: Option<string>, attempt: Option<string>, purpose: Option<Purpose>,
                     pool: Option<Hold>, amount: Option<Amount>, ref: Option<Json>): (r: Option<Debit>)
  {
    if key.None? || tranche.None? || attempt.None? then None
    else if purpose.None? || pool.None? || amount.None? then None
    else if ref.None? then
      Some(Debit(key.value, tranche.value, attempt.value, purpose.value, pool.value, amount.value, None))
    else if ParseText(ref).None? then None
    else Some(Debit(key.value, tranche.value, attempt.value, purpose.value, pool.value, amount.value, ParseText(ref)))
  }

  /** The debit in its one canonical shape, or None when anything is malformed. */
  function ParseDebit(v: Option<Json>): (r: Option<Debit>)
    ensures r.Some? ==> ValidDebit(r.value)
  {
    if v.None? || !v.value.Obj? then None
    else
      var o := v.value;
      DebitFrom(ParseText(Get(o, "idempotency_key")), ParseText(Get(o, "tranche")), ParseText(Get(o, "attempt")),
                ParsePurpose(Get(o, "purpose")), ParseHold(Get(o, "charged_pool")), ParseAmount(Get(o, "amount")),
                Get(o, "reservation_ref"))
  }

  function ParseHoldSpec(v: Json): (r: Option<HoldSpec>)
    ensures r.Some? ==> ValidAmount(r.value.amount)
  {
    if !v.Obj? then None
    else
      var hold := ParseHold(Get(v, "hold"));
      var amount := ParseAmount(Get(v, "amount"));
      if hold.None? || amount.None? then None else Some(HoldSpec(hold.value, amount.value))
  }

  predicate ValidAmounts(hs: seq<HoldSpec>) {
    forall i :: 0 <= i < |hs| ==> ValidAmount(hs[i].amount)
  }

  function ParseHolds(vs: seq<Json>): (r: Option<seq<HoldSpec>>)
    ensures r.Some? ==> |r.value| == |vs| && ValidAmounts(r.value)
  {
    if vs == [] then Some([])
    else
      var last := ParseHoldSpec(vs[|vs| - 1]);
      var front := ParseHolds(vs[..|vs| - 1]);
      if last.None? || front.None? then None else Some(front.value + [last.value])
  }

  /** What the holds of one tranche set aside of one resource. */
  function Total(hs: seq<HoldSpec>, r: Resource): nat
    requires ValidAmounts(hs)
  {
    if hs == [] then 0
    else Total(hs[..|hs| - 1], r) + if hs[|hs| - 1].amount.resource == r then Quantity(hs[|hs| - 1].amount) else 0
  }

  /** No hold twice for one resource. */
  predicate DistinctSlots(hs: seq<HoldSpec>) {
    forall i, j :: 0 <= i < j < |hs| ==> !(hs[i].hold == hs[j].hold && hs[i].amount.resource == hs[j].amount.resource)
  }

  /** All cash of a tranche is in one currency. */
  predicate OneCurrency(hs: seq<HoldSpec>) {
    forall i, j :: 0 <= i < |hs| && 0 <= j < |hs| && hs[i].amount.resource.Cash? && hs[j].amount.resource.Cash?
      ==> hs[i].amount.unit == hs[j].amount.unit
  }

  ghost predicate HoldsAgree(hs: seq<HoldSpec>) {
    && ValidAmounts(hs)
    && DistinctSlots(hs)
    && OneCurrency(hs)
    && forall r :: Total(hs, r) <= MAX_QUANTITY
  }

  /** The fixed order: holds as HOLDS lists them, resources as RESOURCES lists them. */
  function Rank(h: HoldSpec): nat {
    5 * (match h.hold case Execution => 0 case IntegrationRework => 1 case Acceptance => 2 case Recovery => 3)
    + (match h.amount.resource case Cash => 0 case Allowance => 1 case Throughput => 2 case FounderMinutes => 3 case VerifierWindow => 4)
  }

  lemma {:induction false} RankNamesSlot(a: HoldSpec, b: HoldSpec)
    ensures Rank(a) == Rank(b) <==> a.hold == b.hold && a.amount.resource == b.amount.resource
  {}

  function InsertHold(h: HoldSpec, hs: seq<HoldSpec>): (r: seq<HoldSpec>) {
    if hs == [] || Rank(hs[|hs| - 1]) <= Rank(h) then hs + [h]
    else InsertHold(h, hs[..|hs| - 1]) + [hs[|hs| - 1]]
  }

  function SortHolds(hs: seq<HoldSpec>): (r: seq<HoldSpec>) {
    if hs == [] then [] else InsertHold(hs[|hs| - 1], SortHolds(hs[..|hs| - 1]))
  }

  predicate InOrder(hs: seq<HoldSpec>) {
    forall i, j :: 0 <= i < j < |hs| ==> Rank(hs[i]) < Rank(hs[j])
  }

  ghost predicate ValidTranche(t: Tranche) {
    && IsText(t.id) && IsText(t.venture) && IsText(t.mission)
    && |t.holds| <= MAX_HOLDS
    && HoldsAgree(t.holds)
    && InOrder(t.holds)
  }

  /** The tranche in its one canonical shape, or None when anything is malformed. */
  ghost function ParseTranche(v: Option<Json>): Option<Tranche> {
    if v.None? || !v.value.Obj? then None
    else
      var id := ParseText(Get(v.value, "id"));
      var venture := ParseText(Get(v.value, "venture"));
      var mission := ParseText(Get(v.value, "mission"));
      var holds := Get(v.value, "holds");
      if id.None? || venture.None? || mission.None? then None
      else if holds.None? || !holds.value.Arr? || |holds.value.items| > MAX_HOLDS then None
      else
        var hs := ParseHolds(holds.value.items);
        if hs.None? || !HoldsAgree(hs.value) then None
        else Some(Tranche(id.value, venture.value, mission.value, SortHolds(hs.value)))
  }

  /** A tranche that sets nothing aside for acceptance, or nothing for recovery. */
  predicate Incomplete(t: Tranche) {
    !(exists i :: 0 <= i < |t.holds| && t.holds[i].hold == Acceptance)
    || !(exists i :: 0 <= i < |t.holds| && t.holds[i].hold == Recovery)
  }

  // ------------------------------------------------------------------ writers

  function AmountJson(a: Amount): Json {
    Obj([Member("resource", Str(ResourceName(a.resource))), Member("unit", Str(a.unit)), Member("quantity", Str(a.quantity))])
  }

  function HoldJson(h: HoldSpec): Json {
    Obj([Member("hold", Str(HoldName(h.hold))), Member("amount", AmountJson(h.amount))])
  }

  function HoldsJson(hs: seq<HoldSpec>): (r: seq<Json>)
    ensures |r| == |hs| && forall i :: 0 <= i < |hs| ==> r[i] == HoldJson(hs[i])
  {
    seq(|hs|, i requires 0 <= i < |hs| => HoldJson(hs[i]))
  }

  function TrancheJson(t: Tranche): Json {
    Obj([Member("id", Str(t.id)), Member("venture", Str(t.venture)), Member("mission", Str(t.mission)),
         Member("holds", Arr(HoldsJson(t.holds)))])
  }

  function DebitJson(d: Debit): Json {
    Obj([Member("idempotency_key", Str(d.key)), Member("tranche", Str(d.tranche)), Member("attempt", Str(d.attempt)),
         Member("purpose", Str(PurposeName(d.purpose))), Member("charged_pool", Str(HoldName(d.pool))),
         Member("amount", AmountJson(d.amount))]
        + if d.reservationRef.Some? then [Member("reservation_ref", Str(d.reservationRef.value))] else [])
  }

  // ------------------------------------------------------------------ a parsed value parses to itself

  lemma {:induction false} AmountRoundTrip(a: Amount)
    requires ValidAmount(a)
    ensures ParseAmount(Some(AmountJson(a))) == Some(a)
  {
    var ms := AmountJson(a).members;
    LookupFinds(ms, 0);
    LookupFinds(ms, 1);
    LookupFinds(ms, 2);
  }

  lemma {:induction false} DebitFields(d: Debit)
    ensures var o := DebitJson(d);
      && Get(o, "idempotency_key") == Some(Str(d.key))
      && Get(o, "tranche") == Some(Str(d.tranche))
      && Get(o, "attempt") == Some(Str(d.attempt))
      && Get(o, "purpose") == Some(Str(PurposeName(d.purpose)))
  {
    DebitKeysDistinct(d);
    var ms := DebitJson(d).members;
    LookupFinds(ms, 0);
    LookupFinds(ms, 1);
    LookupFinds(ms, 2);
    LookupFinds(ms, 3);
  }

  lemma {:induction false} DebitOtherFields(d: Debit)
    ensures var o := DebitJson(d);
      && Get(o, "charged_pool") == Some(Str(HoldName(d.pool)))
      && Get(o, "amount") == Some(AmountJson(d.amount))
      && Get(o, "reservation_ref") == if d.reservationRef.Some? then Some(Str(d.reservationRef.value)) else None
  {
    DebitKeysDistinct(d);
    var ms := DebitJson(d).members;
    LookupFinds(ms, 4);
    LookupFinds(ms, 5);
    if d.reservationRef.Some? { LookupFinds(ms, 6); } else { LookupSound(ms, "reservation_ref"); }
  }

  /** Every field of a written debit reads back. */
  lemma {:induction false} DebitRoundTrip(d: Debit)
    requires ValidDebit(d)
    ensures ParseDebit(Some(DebitJson(d))) == Some(d)
  {
    DebitFields(d);
    DebitOtherFields(d);
    AmountRoundTrip(d.amount);
  }

  lemma {:induction false} DebitKeysDistinct(d: Debit)
    ensures DistinctKeys(DebitJson(d).members)
  {}

  lemma {:induction false} HoldRoundTrip(h: HoldSpec)
    requires ValidAmount(h.amount)
    ensures ParseHoldSpec(HoldJson(h)) == Some(h)
  {
    var ms := HoldJson(h).members;
    AmountRoundTrip(h.amount);
    LookupFinds(ms, 0);
    LookupFinds(ms, 1);
  }

  lemma {:induction false} HoldsRoundTrip(hs: seq<HoldSpec>)
    requires ValidAmounts(hs)
    ensures ParseHolds(HoldsJson(hs)) == Some(hs)
  {
    if hs != [] {
      var n := |hs| - 1;
      HoldsRoundTrip(hs[..n]);
      HoldRoundTrip(hs[n]);
      assert HoldsJson(hs)[..n] == HoldsJson(hs[..n]);
      assert hs == hs[..n] + [hs[n]];
    }
  }

  lemma {:induction false} SortedIsSorted(hs: seq<HoldSpec>)
    requires InOrder(hs)
    ensures SortHolds(hs) == hs
  {
    if hs != [] {
      SortedIsSorted(hs[..|hs| - 1]);
      assert hs == hs[..|hs| - 1] + [hs[|hs| - 1]];
    }
  }

  lemma {:induction false} TrancheFields(t: Tranche)
    ensures var o := TrancheJson(t);
      && Get(o, "id") == Some(Str(t.id)) && Get(o, "venture") == Some(Str(t.venture))
      && Get(o, "mission") == Some(Str(t.mission)) && Get(o, "holds") == Some(Arr(HoldsJson(t.holds)))
  {
    var ms := TrancheJson(t).members;
    LookupFinds(ms, 0);
    LookupFinds(ms, 1);
    LookupFinds(ms, 2);
    LookupFinds(ms, 3);
  }

  /** Writing a canonical tranche and parsing it again changes nothing. */
  lemma {:induction false} TrancheRoundTrip(t: Tranche)
    requires ValidTranche(t)
    ensures ParseTranche(Some(TrancheJson(t))) == Some(t)
  {
    TrancheFields(t);
    HoldsRoundTrip(t.holds);
    SortedIsSorted(t.holds);
  }

  // ------------------------------------------------------------------ sorting keeps what the checks checked

  lemma {:induction false} InsertHoldElements(h: HoldSpec, hs: seq<HoldSpec>)
    ensures |InsertHold(h, hs)| == |hs| + 1
    ensures forall x :: x in InsertHold(h, hs) <==> x == h || x in hs
  {
    if hs != [] && Rank(hs[|hs| - 1]) > Rank(h) {
      InsertHoldElements(h, hs[..|hs| - 1]);
      assert hs == hs[..|hs| - 1] + [hs[|hs| - 1]];
    }
  }

  lemma {:induction false} InsertHoldOrder(h: HoldSpec, hs: seq<HoldSpec>)
    requires InOrder(hs) && forall x :: x in hs ==> Rank(x) != Rank(h)
    ensures InOrder(InsertHold(h, hs))
  {
    var n := |hs| - 1;
    if hs != [] && Rank(hs[n]) > Rank(h) {
      InsertHoldOrder(h, hs[..n]);
      InsertHoldElements(h, hs[..n]);
      var r := InsertHold(h, hs[..n]);
      forall i | 0 <= i < |r| ensures Rank(r[i]) < Rank(hs[n]) {
        assert r[i] in r;
        if r[i] != h { var k :| 0 <= k < n && hs[k] == r[i]; }
      }
    } else if hs != [] {
      assert hs[n] in hs;
    }
  }

  lemma {:induction false} TotalSnoc(hs: seq<HoldSpec>, h: HoldSpec, r: Resource)
    requires ValidAmount(h.amount) && ValidAmounts(hs)
    ensures ValidAmounts(hs + [h])
    ensures Total(hs + [h], r) == Total(hs, r) + if h.amount.resource == r then Quantity(h.amount) else 0
  {
    assert (hs + [h])[..|hs|] == hs;
  }

  lemma {:induction false} InsertHoldTotal(h: HoldSpec, hs: seq<HoldSpec>, r: Resource)
    requires ValidAmount(h.amount) && ValidAmounts(hs)
    ensures ValidAmounts(InsertHold(h, hs))
    ensures Total(InsertHold(h, hs), r) == Total(hs, r) + if h.amount.resource == r then Quantity(h.amount) else 0
  {
    var n := |hs| - 1;
    if hs != [] && Rank(hs[n]) > Rank(h) {
      InsertHoldTotal(h, hs[..n], r);
      TotalSnoc(InsertHold(h, hs[..n]), hs[n], r);
    } else {
      TotalSnoc(hs, h, r);
    }
  }

  lemma {:induction false} SortHoldsKeeps(hs: seq<HoldSpec>)
    ensures |SortHolds(hs)| == |hs|
    ensures forall x :: x in SortHolds(hs) <==> x in hs
    ensures DistinctSlots(hs) ==> InOrder(SortHolds(hs))
  {
    if hs != [] {
      var n := |hs| - 1;
      SortHoldsKeeps(hs[..n]);
      InsertHoldElements(hs[n], SortHolds(hs[..n]));
      assert hs == hs[..n] + [hs[n]];
      if DistinctSlots(hs) {
        forall x | x in SortHolds(hs[..n]) ensures Rank(x) != Rank(hs[n]) {
          var k :| 0 <= k < n && hs[k] == x;
          RankNamesSlot(x, hs[n]);
        }
        InsertHoldOrder(hs[n], SortHolds(hs[..n]));
      }
    }
  }

  lemma {:induction false} SortHoldsTotal(hs: seq<HoldSpec>, r: Resource)
    requires ValidAmounts(hs)
    ensures ValidAmounts(SortHolds(hs)) && Total(SortHolds(hs), r) == Total(hs, r)
  {
    if hs != [] {
      SortHoldsTotal(hs[..|hs| - 1], r);
      InsertHoldTotal(hs[|hs| - 1], SortHolds(hs[..|hs| - 1]), r);
    }
  }

  lemma {:induction false} OrderedHoldsAreDistinct(hs: seq<HoldSpec>)
    requires InOrder(hs)
    ensures DistinctSlots(hs)
  {
    forall i, j | 0 <= i < j < |hs|
      ensures !(hs[i].hold == hs[j].hold && hs[i].amount.resource == hs[j].amount.resource)
    {
      RankNamesSlot(hs[i], hs[j]);
    }
  }

  lemma {:induction false} SortHoldsAgree(hs: seq<HoldSpec>)
    requires HoldsAgree(hs)
    ensures HoldsAgree(SortHolds(hs)) && InOrder(SortHolds(hs)) && |SortHolds(hs)| == |hs|
  {
    var s := SortHolds(hs);
    SortHoldsKeeps(hs);
    OrderedHoldsAreDistinct(s);
    SortHoldsTotal(hs, Cash);
    forall r ensures Total(s, r) <= MAX_QUANTITY { SortHoldsTotal(hs, r); }
    forall i, j | 0 <= i < |s| && 0 <= j < |s| && s[i].amount.resource.Cash? && s[j].amount.resource.Cash?
      ensures s[i].amount.unit == s[j].amount.unit
    {
      assert s[i] in hs && s[j] in hs;
    }
  }

  /** What parseTranche accepts is canonical: it satisfies every check and parses to itself. */
  lemma {:induction false} ParsedTrancheIsCanonical(v: Option<Json>)
    requires ParseTranche(v).Some?
    ensures ValidTranche(ParseTranche(v).value)
    ensures ParseTranche(Some(TrancheJson(ParseTranche(v).value))) == ParseTranche(v)
  {
    var hs := ParseHolds(Get(v.value, "holds").value.items).value;
    SortHoldsAgree(hs);
    TrancheRoundTrip(ParseTranche(v).value);
  }

  // ------------------------------------------------------------------ key order does not matter

  lemma {:induction false} SameTreeSymmetric(a: Json, b: Json)
    requires WellFormed(a) && WellFormed(b) && SameTree(a, b)
    ensures SameTree(b, a)
  {
    SortTreeSame(a, b);
    SortTreeSame(b, a);
  }

  lemma {:induction false} SameField(a: Json, b: Json, k: string)
    requires WellFormed(a) && WellFormed(b) && SameTree(a, b)
    ensures Get(a, k).Some? <==> Get(b, k).Some?
    ensures Get(a, k).Some? ==> WellFormed(Get(a, k).value) && WellFormed(Get(b, k).value) && SameTree(Get(a, k).value, Get(b, k).value)
  {
    SameTreeSymmetric(a, b);
    if a.Obj? {
      LookupSound(a.members, k);
      LookupSound(b.members, k);
      if Get(a, k).Some? {
        var i :| 0 <= i < |a.members| && a.members[i] == Member(k, Get(a, k).value);
        LookupFinds(a.members, i);
      }
      if Get(b, k).Some? {
        var i :| 0 <= i < |b.members| && b.members[i] == Member(k, Get(b, k).value);
      }
    }
  }

  ghost predicate SameOption(a: Option<Json>, b: Option<Json>) {
    match (a, b)
    case (Some(x), Some(y)) => WellFormed(x) && WellFormed(y) && SameTree(x, y)
    case _ => a == b
  }

  lemma {:induction false} SameAmount(a: Option<Json>, b: Option<Json>)
    requires SameOption(a, b)
    ensures ParseAmount(a) == ParseAmount(b)
  {
    if a.Some? && a.value.Obj? {
      SameField(a.value, b.value, "resource");
      SameField(a.value, b.value, "unit");
      SameField(a.value, b.value, "quantity");
    }
  }

  /** A scalar field reads the same from two trees that differ only in key order. */
  lemma {:induction false} SameScalar(a: Json, b: Json, k: string)
    requires WellFormed(a) && WellFormed(b) && SameTree(a, b)
    ensures ParseText(Get(a, k)) == ParseText(Get(b, k))
    ensures ParsePurpose(Get(a, k)) == ParsePurpose(Get(b, k))
    ensures ParseHold(Get(a, k)) == ParseHold(Get(b, k))
  {
    SameField(a, b, k);
  }

  lemma {:induction false} SameDebit(a: Option<Json>, b: Option<Json>)
    requires SameOption(a, b)
    ensures ParseDebit(a) == ParseDebit(b)
  {
    if a.Some? && a.value.Obj? {
      SameScalar(a.value, b.value, "idempotency_key");
      SameScalar(a.value, b.value, "tranche");
      SameScalar(a.value, b.value, "attempt");
      SameScalar(a.value, b.value, "purpose");
      SameScalar(a.value, b.value, "charged_pool");
      SameField(a.value, b.value, "amount");
      SameAmount(Get(a.value, "amount"), Get(b.value, "amount"));
      SameScalar(a.value, b.value, "reservation_ref");
      SameField(a.value, b.value, "reservation_ref");
    }
  }

  lemma {:induction false} SameHoldSpec(a: Json, b: Json)
    requires WellFormed(a) && WellFormed(b) && SameTree(a, b)
    ensures ParseHoldSpec(a) == ParseHoldSpec(b)
  {
    SameScalar(a, b, "hold");
    SameField(a, b, "amount");
    SameAmount(Get(a, "amount"), Get(b, "amount"));
  }

  lemma {:induction false} SameHolds(xs: seq<Json>, ys: seq<Json>)
    requires |xs| == |ys|
    requires forall i :: 0 <= i < |xs| ==> WellFormed(xs[i]) && WellFormed(ys[i]) && SameTree(xs[i], ys[i])
    ensures ParseHolds(xs) == ParseHolds(ys)
  {
    if xs != [] {
      SameHolds(xs[..|xs| - 1], ys[..|xs| - 1]);
      SameHoldSpec(xs[|xs| - 1], ys[|xs| - 1]);
    }
  }

  lemma {:induction false} SameTranche(a: Option<Json>, b: Option<Json>)
    requires SameOption(a, b)
    ensures ParseTranche(a) == ParseTranche(b)
  {
    if a.Some? && a.value.Obj? {
      SameField(a.value, b.value, "id");
      SameField(a.value, b.value, "venture");
      SameField(a.value, b.value, "mission");
      SameField(a.value, b.value, "holds");
      var x, y := Get(a.value, "holds"), Get(b.value, "holds");
      if x.Some? && x.value.Arr? { SameHolds(x.value.items, y.value.items); }
    }
  }

  // ------------------------------------------------------------------ the reading loop

  /** parseTranche's set after the holds `hs`. */
  ghost predicate SlotsRead(seen: set<(Hold, Resource)>, hs: seq<HoldSpec>) {
    && (forall i :: 0 <= i < |hs| ==> (hs[i].hold, hs[i].amount.resource) in seen)
    && (forall p :: p in seen ==> exists i :: 0 <= i < |hs| && (hs[i].hold, hs[i].amount.resource) == p)
  }

  /** Its map of totals. */
  ghost predicate TotalsRead(totals: map<Resource, nat>, hs: seq<HoldSpec>)
    requires ValidAmounts(hs)
  {
    forall r :: Total(hs, r) == if r in totals then totals[r] else 0
  }

  /** Its one currency. */
  ghost predicate CurrencyRead(currency: Option<string>, hs: seq<HoldSpec>) {
    && (forall i :: 0 <= i < |hs| && hs[i].amount.resource.Cash? ==> currency == Some(hs[i].amount.unit))
    && (currency.Some? ==> exists i :: 0 <= i < |hs| && hs[i].amount.resource.Cash?)
  }

  ghost predicate Read(seen: set<(Hold, Resource)>, totals: map<Resource, nat>, currency: Option<string>, hs: seq<HoldSpec>) {
    HoldsAgree(hs) && SlotsRead(seen, hs) && TotalsRead(totals, hs) && CurrencyRead(currency, hs)
  }

  /** The loop's three checks on the next hold. */
  predicate Admits(seen: set<(Hold, Resource)>, totals: map<Resource, nat>, currency: Option<string>, h: HoldSpec)
    requires ValidAmount(h.amount)
  {
    && (h.hold, h.amount.resource) !in seen
    && (h.amount.resource.Cash? && currency.Some? ==> currency.value == h.amount.unit)
    && (if h.amount.resource in totals then totals[h.amount.resource] else 0) + Quantity(h.amount) <= MAX_QUANTITY
  }

  lemma {:induction false} GrownTotals(hs: seq<HoldSpec>, h: HoldSpec)
    requires ValidAmounts(hs) && ValidAmount(h.amount)
    ensures ValidAmounts(hs + [h])
    ensures forall r :: Total(hs + [h], r) == Total(hs, r) + if h.amount.resource == r then Quantity(h.amount) else 0
  {
    forall r ensures Total(hs + [h], r) == Total(hs, r) + if h.amount.resource == r then Quantity(h.amount) else 0 {
      TotalSnoc(hs, h, r);
    }
  }

  /** A hold that fails a check breaks a rule of the tranche. */
  lemma {:induction false} RefusedBreaks(seen: set<(Hold, Resource)>, totals: map<Resource, nat>, currency: Option<string>, hs: seq<HoldSpec>, h: HoldSpec)
    requires Read(seen, totals, currency, hs) && ValidAmount(h.amount) && !Admits(seen, totals, currency, h)
    ensures !HoldsAgree(hs + [h])
  {
    var g := hs + [h];
    GrownTotals(hs, h);
    assert g[|hs|] == h;
    if (h.hold, h.amount.resource) in seen {
      var i :| 0 <= i < |hs| && (hs[i].hold, hs[i].amount.resource) == (h.hold, h.amount.resource);
      assert g[i] == hs[i];
    } else if h.amount.resource.Cash? && currency.Some? && currency.value != h.amount.unit {
      var i :| 0 <= i < |hs| && hs[i].amount.resource.Cash?;
      assert g[i] == hs[i];
    } else {
      assert Total(g, h.amount.resource) > MAX_QUANTITY;
    }
  }

  lemma {:induction false} SlotsGrow(seen: set<(Hold, Resource)>, hs: seq<HoldSpec>, h: HoldSpec)
    requires SlotsRead(seen, hs)
    ensures SlotsRead(seen + {(h.hold, h.amount.resource)}, hs + [h])
    ensures (h.hold, h.amount.resource) !in seen && DistinctSlots(hs) ==> DistinctSlots(hs + [h])
  {
    var g := hs + [h];
    assert g[|hs|] == h;
    forall p | p in seen + {(h.hold, h.amount.resource)}
      ensures exists i :: 0 <= i < |g| && (g[i].hold, g[i].amount.resource) == p
    {
      if p in seen { var i :| 0 <= i < |hs| && (hs[i].hold, hs[i].amount.resource) == p; assert g[i] == hs[i]; }
    }
  }

  lemma {:induction false} CurrencyGrows(currency: Option<string>, hs: seq<HoldSpec>, h: HoldSpec)
    requires CurrencyRead(currency, hs) && OneCurrency(hs)
    requires h.amount.resource.Cash? && currency.Some? ==> currency.value == h.amount.unit
    ensures CurrencyRead(if h.amount.resource.Cash? then Some(h.amount.unit) else currency, hs + [h])
    ensures OneCurrency(hs + [h])
  {
    var g := hs + [h];
    assert g[|hs|] == h;
    if currency.Some? { var i :| 0 <= i < |hs| && hs[i].amount.resource.Cash?; assert g[i] == hs[i]; }
  }

  lemma {:induction false} TotalsGrow(totals: map<Resource, nat>, hs: seq<HoldSpec>, h: HoldSpec, total: nat)
    requires ValidAmounts(hs) && ValidAmount(h.amount) && TotalsRead(totals, hs)
    requires forall r :: Total(hs, r) <= MAX_QUANTITY
    requires total == (if h.amount.resource in totals then totals[h.amount.resource] else 0) + Quantity(h.amount)
    requires total <= MAX_QUANTITY
    ensures ValidAmounts(hs + [h]) && TotalsRead(totals[h.amount.resource := total], hs + [h])
    ensures forall r :: Total(hs + [h], r) <= MAX_QUANTITY
  {
    GrownTotals(hs, h);
  }

  /** A hold that passes them all keeps every rule, and the bookkeeping stays right. */
  lemma {:induction false} AdmittedKeeps(seen: set<(Hold, Resource)>, totals: map<Resource, nat>, currency: Option<string>, hs: seq<HoldSpec>, h: HoldSpec)
    requires Read(seen, totals, currency, hs) && ValidAmount(h.amount) && Admits(seen, totals, currency, h)
    ensures Read(seen + {(h.hold, h.amount.resource)},
                 totals[h.amount.resource := (if h.amount.resource in totals then totals[h.amount.resource] else 0) + Quantity(h.amount)],
                 if h.amount.resource.Cash? then Some(h.amount.unit) else currency, hs + [h])
  {
    SlotsGrow(seen, hs, h);
    CurrencyGrows(currency, hs, h);
    TotalsGrow(totals, hs, h, (if h.amount.resource in totals then totals[h.amount.resource] else 0) + Quantity(h.amount));
  }

  lemma {:induction false} PrefixParses(vs: seq<Json>, n: nat)
    requires n <= |vs| && ParseHolds(vs).Some?
    ensures ParseHolds(vs[..n]) == Some(ParseHolds(vs).value[..n])
    decreases |vs|
  {
    var hs := ParseHolds(vs).value;
    if n == |vs| {
      assert vs[..n] == vs && hs[..n] == hs;
    } else {
      var m := |vs| - 1;
      PrefixParses(vs[..m], n);
      assert vs[..m][..n] == vs[..n];
      assert hs[..n] == ParseHolds(vs[..m]).value[..n];
    }
  }

  lemma {:induction false} TotalGrows(hs: seq<HoldSpec>, n: nat, r: Resource)
    requires n <= |hs| && ValidAmounts(hs)
    ensures Total(hs[..n], r) <= Total(hs, r)
    decreases |hs|
  {
    if n == |hs| { assert hs[..n] == hs; } else {
      TotalGrows(hs[..|hs| - 1], n, r);
      assert hs[..|hs| - 1][..n] == hs[..n];
    }
  }

  /** A tranche whose first holds already break a rule is malformed however it goes on. */
  lemma {:induction false} BrokenPrefix(vs: seq<Json>, n: nat)
    requires n <= |vs|
    requires ParseHolds(vs[..n]).None? || !HoldsAgree(ParseHolds(vs[..n]).value)
    ensures ParseHolds(vs).None? || !HoldsAgree(ParseHolds(vs).value)
  {
    if ParseHolds(vs).Some? && HoldsAgree(ParseHolds(vs).value) {
      PrefixParses(vs, n);
      var hs := ParseHolds(vs).value;
      forall r ensures Total(hs[..n], r) <= MAX_QUANTITY { TotalGrows(hs, n, r); }
      assert false;
    }
  }

  /** One more raw hold. */
  lemma {:induction false} NextParses(vs: seq<Json>, i: nat)
    requires i < |vs| && ParseHolds(vs[..i]).Some?
    ensures ParseHolds(vs[..i + 1]) == if ParseHoldSpec(vs[i]).None? then None
                                       else Some(ParseHolds(vs[..i]).value + [ParseHoldSpec(vs[i]).value])
  {
    assert vs[..i + 1][..i] == vs[..i];
  }

  /** The raw holds make no tranche. */
  ghost predicate Malformed(vs: seq<Json>) { ParseHolds(vs).None? || !HoldsAgree(ParseHolds(vs).value) }

  lemma {:induction false} NextRefused(vs: seq<Json>, i: nat, seen: set<(Hold, Resource)>, totals: map<Resource, nat>, currency: Option<string>)
    requires i < |vs| && ParseHolds(vs[..i]).Some? && Read(seen, totals, currency, ParseHolds(vs[..i]).value)
    requires ParseHoldSpec(vs[i]).None? || !Admits(seen, totals, currency, ParseHoldSpec(vs[i]).value)
    ensures Malformed(vs)
  {
    NextParses(vs, i);
    if ParseHoldSpec(vs[i]).Some? {
      RefusedBreaks(seen, totals, currency, ParseHolds(vs[..i]).value, ParseHoldSpec(vs[i]).value);
    }
    BrokenPrefix(vs, i + 1);
  }

  /** parseTranche as it runs: one pass over the raw holds with a set, a map and a currency. */
  method ReadHolds(vs: seq<Json>) returns (r: Option<seq<HoldSpec>>)
    ensures r.None? <==> Malformed(vs)
    ensures r.Some? ==> r == ParseHolds(vs)
  {
    var holds: seq<HoldSpec> := [];
    var seen: set<(Hold, Resource)> := {};
    var totals: map<Resource, nat> := map[];
    var currency: Option<string> := None;
    for i := 0 to |vs|
      invariant ParseHolds(vs[..i]) == Some(holds)
      invariant Read(seen, totals, currency, holds)
    {
      var one := ParseHoldSpec(vs[i]);
      if one.None? || !Admits(seen, totals, currency, one.value) {
        NextRefused(vs, i, seen, totals, currency);
        return None;
      }
      var h := one.value;
      NextParses(vs, i);
      AdmittedKeeps(seen, totals, currency, holds, h);
      seen := seen + {(h.hold, h.amount.resource)};
      totals := totals[h.amount.resource := (if h.amount.resource in totals then totals[h.amount.resource] else 0) + Quantity(h.amount)];
      currency := if h.amount.resource.Cash? then Some(h.amount.unit) else currency;
      holds := holds + [h];
    }
    assert vs[..|vs|] == vs;
    return Some(holds);
  }

  /** parseTranche: the tranche in canonical shape, or None when anything is malformed. */
  method ReadTranche(v: Option<Json>) returns (r: Option<Tranche>)
    ensures r == ParseTranche(v)
  {
    if v.None? || !v.value.Obj? { return None; }
    var id := ParseText(Get(v.value, "id"));
    var venture := ParseText(Get(v.value, "venture"));
    var mission := ParseText(Get(v.value, "mission"));
    if id.None? || venture.None? || mission.None? { return None; }
    var raw := Get(v.value, "holds");
    if raw.None? || !raw.value.Arr? || |raw.value.items| > MAX_HOLDS { return None; }
    var holds := ReadHolds(raw.value.items);
    if holds.None? { return None; }
    return Some(Tranche(id.value, venture.value, mission.value, SortHolds(holds.value)));
  }
}
