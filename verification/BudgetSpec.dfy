/**
 The sequential meaning of a budget ledger: what each request is answered over the list of the
 requests granted so far. No digest, table or offset appears here; BudgetStore is proved against it.
 */
module BudgetSpec {
  import opened JsonText
  import opened Options
  import opened BudgetNouns

  /** One granted request: what one Journal event records. */
  datatype Entry = Opened(t: Tranche) | Debited(d: Debit)

  datatype Slot = Slot(tranche: string, hold: Hold, resource: Resource)

  datatype RefusalCode = Invalid | PoolMismatch | Insufficient | UnknownTranche | IncompleteTranche
    | IdempotencyConflict | Unavailable

  datatype Answer =
    | Granted(point: nat, replayed: bool)
    | Refused(code: RefusalCode)
    | Balance(held: nat, consumed: nat, remaining: int, offset: nat)

  datatype Request =
    | OpenTranche(spec: Option<Json>)
    | MakeDebit(debit: Option<Json>)
    | ReadBalance(slot: Slot)

  /** The index of the entry that opened tranche `id`. */
  function FindOpened(H: seq<Entry>, id: string): (r: Option<nat>) {
    if H == [] then None
    else
      var n := |H| - 1;
      var earlier := FindOpened(H[..n], id);
      if earlier.Some? then earlier
      else if H[n].Opened? && H[n].t.id == id then Some(n)
      else None
  }

  /** The index of the entry that used idempotency key `key`. */
  function FindKey(H: seq<Entry>, key: string): (r: Option<nat>) {
    if H == [] then None
    else
      var n := |H| - 1;
      var earlier := FindKey(H[..n], key);
      if earlier.Some? then earlier
      else if H[n].Debited? && H[n].d.key == key then Some(n)
      else None
  }

  function FindHold(hs: seq<HoldSpec>, hold: Hold, r: Resource): (res: Option<HoldSpec>) {
    if hs == [] then None
    else if hs[|hs| - 1].hold == hold && hs[|hs| - 1].amount.resource == r then Some(hs[|hs| - 1])
    else FindHold(hs[..|hs| - 1], hold, r)
  }

  function Units(a: Amount): nat {
    if ValidAmount(a) then Quantity(a) else 0
  }

  predicate Charges(e: Entry, slot: Slot) {
    e.Debited? && e.d.tranche == slot.tranche && e.d.pool == slot.hold && e.d.amount.resource == slot.resource
  }

  /** The sum of every debit charged to one hold of one tranche. */
  function Spent(H: seq<Entry>, slot: Slot): nat {
    if H == [] then 0
    else Spent(H[..|H| - 1], slot) + if Charges(H[|H| - 1], slot) then Units(H[|H| - 1].d.amount) else 0
  }

  /** What the opening of a tranche set aside in one hold. */
  function HeldSpec(H: seq<Entry>, slot: Slot): Option<HoldSpec> {
    var i := FindOpened(H, slot.tranche);
    if i.Some? && i.value < |H| && H[i.value].Opened? then FindHold(H[i.value].t.holds, slot.hold, slot.resource) else None
  }

  /** The last entry that touched a hold: its opening or its latest debit, as a sequence number. */
  function LastTouch(H: seq<Entry>, slot: Slot): nat {
    if H == [] then 0
    else if Charges(H[|H| - 1], slot) then |H|
    else if H[|H| - 1].Opened? && H[|H| - 1].t.id == slot.tranche then |H|
    else LastTouch(H[..|H| - 1], slot)
  }

  function AnswerOpen(H: seq<Entry>, t: Tranche): Answer {
    var i := FindOpened(H, t.id);
    if i.None? then Granted(|H| + 1, false)
    else if i.value < |H| && H[i.value] == Opened(t) then Granted(i.value + 1, true)
    else Refused(IdempotencyConflict)
  }

  function SlotOf(d: Debit): Slot { Slot(d.tranche, d.pool, d.amount.resource) }

  function AnswerDebit(H: seq<Entry>, d: Debit): Answer {
    var i := FindKey(H, d.key);
    if i.Some? then
      if i.value < |H| && H[i.value] == Debited(d) then Granted(i.value + 1, true) else Refused(IdempotencyConflict)
    else if FindOpened(H, d.tranche).None? then Refused(UnknownTranche)
    else
      var held := HeldSpec(H, SlotOf(d));
      if held.None? || held.value.amount.unit != d.amount.unit then Refused(Insufficient)
      else if Spent(H, SlotOf(d)) + Units(d.amount) > Units(held.value.amount) then Refused(Insufficient)
      else Granted(|H| + 1, false)
  }

  function AnswerBalance(H: seq<Entry>, slot: Slot): Answer {
    var held := HeldSpec(H, slot);
    if held.None? then Balance(0, 0, 0, |H|)
    else Balance(Units(held.value.amount), Spent(H, slot), Units(held.value.amount) - Spent(H, slot), LastTouch(H, slot))
  }

  /** The answer a request gets when it runs alone after the granted requests `H`. */
  ghost function SpecAnswer(H: seq<Entry>, req: Request): Answer {
    match req
    case OpenTranche(raw) =>
      var t := ParseTranche(raw);
      if t.None? then Refused(Invalid)
      else if Incomplete(t.value) then Refused(IncompleteTranche)
      else AnswerOpen(H, t.value)
    case MakeDebit(raw) =>
      var d := ParseDebit(raw);
      if d.None? then Refused(Invalid)
      else if d.value.pool != Pool(d.value.purpose) then Refused(PoolMismatch)
      else AnswerDebit(H, d.value)
    case ReadBalance(slot) => AnswerBalance(H, slot)
  }

  /** What a request adds to the list when it is granted afresh. */
  ghost function Addition(req: Request): Option<Entry> {
    match req
    case OpenTranche(raw) => if ParseTranche(raw).Some? then Some(Opened(ParseTranche(raw).value)) else None
    case MakeDebit(raw) => if ParseDebit(raw).Some? then Some(Debited(ParseDebit(raw).value)) else None
    case ReadBalance(_) => None
  }

  /** An entry a fresh grant over `H` may add. */
  ghost predicate Admissible(H: seq<Entry>, e: Entry) {
    match e
    case Opened(t) => ValidTranche(t) && !Incomplete(t) && FindOpened(H, t.id).None?
    case Debited(d) => ValidDebit(d) && d.pool == Pool(d.purpose) && AnswerDebit(H, d) == Granted(|H| + 1, false)
  }

  /** The lists a run of grants can build. */
  ghost predicate Legal(H: seq<Entry>) {
    H == [] || (Legal(H[..|H| - 1]) && Admissible(H[..|H| - 1], H[|H| - 1]))
  }

  // ------------------------------------------------------------------ what the searches find

  lemma {:induction false} FindOpenedFinds(H: seq<Entry>, id: string)
    ensures FindOpened(H, id).Some? ==>
      var i := FindOpened(H, id).value; i < |H| && H[i].Opened? && H[i].t.id == id
    ensures FindOpened(H, id).None? ==> forall i :: 0 <= i < |H| && H[i].Opened? ==> H[i].t.id != id
  {
    if H != [] { FindOpenedFinds(H[..|H| - 1], id); }
  }

  lemma {:induction false} FindKeyFinds(H: seq<Entry>, key: string)
    ensures FindKey(H, key).Some? ==>
      var i := FindKey(H, key).value; i < |H| && H[i].Debited? && H[i].d.key == key
    ensures FindKey(H, key).None? ==> forall i :: 0 <= i < |H| && H[i].Debited? ==> H[i].d.key != key
  {
    if H != [] { FindKeyFinds(H[..|H| - 1], key); }
  }

  lemma {:induction false} FindHoldFinds(hs: seq<HoldSpec>, hold: Hold, r: Resource)
    ensures FindHold(hs, hold, r).Some? ==>
      FindHold(hs, hold, r).value in hs && FindHold(hs, hold, r).value.hold == hold && FindHold(hs, hold, r).value.amount.resource == r
    ensures FindHold(hs, hold, r).None? ==> forall x :: x in hs ==> !(x.hold == hold && x.amount.resource == r)
  {
    if hs != [] {
      FindHoldFinds(hs[..|hs| - 1], hold, r);
      assert hs == hs[..|hs| - 1] + [hs[|hs| - 1]];
    }
  }

  lemma {:induction false} LegalPrefix(H: seq<Entry>, n: nat)
    requires Legal(H) && n <= |H|
    ensures Legal(H[..n])
    decreases |H|
  {
    if n == |H| { assert H[..n] == H; } else {
      LegalPrefix(H[..|H| - 1], n);
      assert H[..|H| - 1][..n] == H[..n];
    }
  }

  lemma {:induction false} LegalAt(H: seq<Entry>, i: nat)
    requires Legal(H) && i < |H|
    ensures Admissible(H[..i], H[i])
  {
    LegalPrefix(H, i + 1);
    assert H[..i + 1][..i] == H[..i];
  }

  // ------------------------------------------------------------------ money is conserved

  lemma {:induction false} UnopenedIsUnspent(H: seq<Entry>, slot: Slot)
    requires Legal(H) && FindOpened(H, slot.tranche).None?
    ensures Spent(H, slot) == 0
  {
    if H != [] { UnopenedIsUnspent(H[..|H| - 1], slot); }
  }

  /** Opening tranches never changes what an earlier one set aside. */
  lemma {:induction false} HeldGrows(H: seq<Entry>, e: Entry, slot: Slot)
    requires HeldSpec(H, slot).Some?
    ensures HeldSpec(H + [e], slot) == HeldSpec(H, slot)
  {
    assert (H + [e])[..|H|] == H;
    FindOpenedFinds(H, slot.tranche);
  }

  /** In every reachable list each hold's debits sum to at most what its tranche set aside. */
  lemma {:induction false} NeverOverspent(H: seq<Entry>, slot: Slot)
    requires Legal(H)
    ensures HeldSpec(H, slot).Some? ==> Spent(H, slot) <= Units(HeldSpec(H, slot).value.amount)
    ensures HeldSpec(H, slot).None? ==> Spent(H, slot) == 0
  {
    if H != [] {
      var n := |H| - 1;
      var G, e := H[..n], H[n];
      assert H == G + [e];
      NeverOverspent(G, slot);
      if HeldSpec(G, slot).Some? { HeldGrows(G, e, slot); }
      if Charges(e, slot) { assert slot == SlotOf(e.d); }
    }
  }

  /** One key is one debit, one id is one tranche: a retry is never charged twice. */
  lemma {:induction false} KeysOccurOnce(H: seq<Entry>, i: nat, j: nat)
    requires Legal(H) && i < j < |H|
    ensures H[i].Debited? && H[j].Debited? ==> H[i].d.key != H[j].d.key
    ensures H[i].Opened? && H[j].Opened? ==> H[i].t.id != H[j].t.id
  {
    LegalAt(H, j);
    assert H[..j][i] == H[i];
    match H[j]
    case Debited(d) => FindKeyFinds(H[..j], d.key);
    case Opened(t) => FindOpenedFinds(H[..j], t.id);
  }

  /** What a tranche sets aside of one resource, over all its holds, stays within the bound. */
  lemma {:induction false} TrancheTotalBounded(H: seq<Entry>, i: nat, r: Resource)
    requires Legal(H) && i < |H| && H[i].Opened?
    ensures ValidAmounts(H[i].t.holds) && Total(H[i].t.holds, r) <= MAX_QUANTITY
  {
    LegalAt(H, i);
  }

  /** What the request that made an entry is answered. */
  function EntryAnswer(H: seq<Entry>, e: Entry): Answer {
    match e case Opened(t) => AnswerOpen(H, t) case Debited(d) => AnswerDebit(H, d)
  }

  /** The entry at a point is one whose request is answered as a replay of it. */
  predicate ReplaysThere(H: seq<Entry>, point: nat) {
    1 <= point <= |H| && EntryAnswer(H, H[point - 1]) == Granted(point, true)
  }

  /** A request granted over `H` is answered as a replay of that very grant ever after. */
  lemma {:induction false} GrantsReplay(H: seq<Entry>, i: nat)
    requires Legal(H) && i < |H|
    ensures ReplaysThere(H, i + 1)
  {
    match H[i]
    case Opened(t) =>
      FindOpenedFinds(H, t.id);
      var k := FindOpened(H, t.id).value;
      if k < i { KeysOccurOnce(H, k, i); } else if i < k { KeysOccurOnce(H, i, k); }
    case Debited(d) =>
      FindKeyFinds(H, d.key);
      var k := FindKey(H, d.key).value;
      if k < i { KeysOccurOnce(H, k, i); } else if i < k { KeysOccurOnce(H, i, k); }
  }
}
