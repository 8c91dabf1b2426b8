/**
 The budget projection: the tables one ledger folds the Journal into, how one event lands in them,
 and what the tables mean (userland/src/budget.ts, `openStore`, `applyEvent` and the digests).
 */
module BudgetStore {
  import opened JsonText
  import opened Options
  import opened BudgetNouns
  import opened BudgetSpec

  // ------------------------------------------------------------------ digests

  /** SHA-256 as the ledger relies on it: never empty, and never the same for two texts. */
  ghost predicate CollisionFree(f: string -> string) {
    (forall s :: f(s) != "") && forall s, t :: f(s) == f(t) ==> s == t
  }

  function Tagged(s: string): (r: string)
    ensures r != "" && r[1..] == s
  {
    ['#'] + s
  }

  type Sha256 = f: string -> string | CollisionFree(f) witness Tagged

  const STREAM := "budget"
  const TRANCHE_OPENED := "budget.tranche_opened"
  const DEBITED := "budget.debited"

  /** One event as the Journal returns it. */
  datatype PortEvent = PortEvent(stream: string, number: nat, typ: string, data: Json)

  function ContentDigest(h: Sha256, kind: string, v: Json): string {
    h(Canon(Arr([Str(kind), v])))
  }

  /** An event's digest: its type and data and, through `prev`, every event before it. */
  function EventDigest(h: Sha256, typ: string, data: Json): string {
    h(Canon(Arr([Str(typ), data])))
  }

  function EntryDigest(h: Sha256, e: Entry): string {
    match e
    case Opened(t) => ContentDigest(h, "tranche", TrancheJson(t))
    case Debited(d) => ContentDigest(h, "debit", DebitJson(d))
  }

  // ------------------------------------------------------------------ tables

  datatype Head = Head(number: nat, digest: string)
  datatype TrancheRow = TrancheRow(venture: string, mission: string, digest: string, offset: nat)
  datatype BalanceRow = BalanceRow(unit: string, held: nat, consumed: nat, offset: nat)
  datatype Claim = Claim(digest: string, offset: nat)

  /** Every row of every table: what two stores hold the same of exactly when their dumps match. */
  datatype Tables = Tables(head: Head, tranches: map<string, TrancheRow>, balances: map<Slot, BalanceRow>, keys: map<string, Claim>)

  const EMPTY: Head := Head(0, "")
  const NO_ROWS: Tables := Tables(EMPTY, map[], map[], map[])

  function HoldRow(h: HoldSpec, offset: nat): BalanceRow {
    BalanceRow(h.amount.unit, Units(h.amount), 0, offset)
  }

  /** The balance rows of a new tranche, one INSERT a hold; a row already there fails them all. */
  function PutBalances(b: map<Slot, BalanceRow>, id: string, hs: seq<HoldSpec>, offset: nat): Option<map<Slot, BalanceRow>> {
    if hs == [] then Some(b)
    else
      var n := |hs| - 1;
      var front := PutBalances(b, id, hs[..n], offset);
      var slot := Slot(id, hs[n].hold, hs[n].amount.resource);
      if front.None? || slot in front.value then None
      else Some(front.value[slot := HoldRow(hs[n], offset)])
  }

  /** The rows an opened tranche leaves, or None when a constraint fails. */
  function PutTranche(st: Tables, t: Tranche, digest: string, next: Head): Option<Tables> {
    if t.id in st.tranches then None
    else
      var b := PutBalances(st.balances, t.id, t.holds, next.number);
      if b.None? then None
      else Some(Tables(next, st.tranches[t.id := TrancheRow(t.venture, t.mission, digest, next.number)], b.value, st.keys))
  }

  /** The rows a debit leaves, or None when it overspends or its key is taken. */
  function PutDebit(st: Tables, d: Debit, digest: string, next: Head): Option<Tables> {
    var slot := SlotOf(d);
    if slot !in st.balances then None
    else
      var row := st.balances[slot];
      var consumed := row.consumed + Units(d.amount);
      if row.unit != d.amount.unit || consumed > row.held then None
      else if d.key in st.keys then None
      else Some(Tables(next, st.tranches, st.balances[slot := row.(consumed := consumed, offset := next.number)],
                       st.keys[d.key := Claim(digest, next.number)]))
  }

  /** applyEvent: one Journal event onto the tables, or None where the code throws and rolls back. */
  ghost function ApplyEvent(h: Sha256, st: Tables, e: PortEvent, at: Head): Option<Tables> {
    if e.stream != STREAM || e.number != at.number + 1 then None
    else if !e.data.Obj? || Get(e.data, "prev") != Some(Str(at.digest)) then None
    else
      var next := Head(e.number, EventDigest(h, e.typ, e.data));
      if e.typ == TRANCHE_OPENED then
        var t := ParseTranche(Get(e.data, "tranche"));
        if t.None? || Incomplete(t.value) || Get(e.data, "digest") != Some(Str(EntryDigest(h, Opened(t.value)))) then None
        else PutTranche(st, t.value, EntryDigest(h, Opened(t.value)), next)
      else if e.typ == DEBITED then
        var d := ParseDebit(Get(e.data, "debit"));
        if d.None? || d.value.pool != Pool(d.value.purpose) || Get(e.data, "digest") != Some(Str(EntryDigest(h, Debited(d.value)))) then None
        else PutDebit(st, d.value, EntryDigest(h, Debited(d.value)), next)
      else None
  }

  /** `apply`: events in order until one fails; what landed before it stays. */
  ghost function ApplyAll(h: Sha256, st: Tables, events: seq<PortEvent>, at: Head): (Tables, bool)
    decreases |events|
  {
    if events == [] then (st, true)
    else
      var one := ApplyEvent(h, st, events[0], at);
      if one.None? then (st, false) else ApplyAll(h, one.value, events[1..], one.value.head)
  }

  /** The tables a whole Journal folds to. */
  ghost function Fold(h: Sha256, J: seq<PortEvent>): Option<Tables> {
    if J == [] then Some(NO_ROWS)
    else
      var st := Fold(h, J[..|J| - 1]);
      if st.None? then None else ApplyEvent(h, st.value, J[|J| - 1], st.value.head)
  }

  // ------------------------------------------------------------------ entries as events

  ghost function EntryOf(e: PortEvent): Option<Entry> {
    if e.typ == TRANCHE_OPENED then
      var t := ParseTranche(Get(e.data, "tranche"));
      if t.None? then None else Some(Opened(t.value))
    else
      var d := ParseDebit(Get(e.data, "debit"));
      if d.None? then None else Some(Debited(d.value))
  }

  /** The granted requests a Journal records. */
  ghost function History(J: seq<PortEvent>): seq<Entry> {
    if J == [] then []
    else
      var e := EntryOf(J[|J| - 1]);
      History(J[..|J| - 1]) + if e.Some? then [e.value] else []
  }

  /** The event admit proposes for an entry at a head. */
  function EventFor(h: Sha256, head: Head, e: Entry): PortEvent {
    match e
    case Opened(t) =>
      PortEvent(STREAM, head.number + 1, TRANCHE_OPENED,
        Obj([Member("prev", Str(head.digest)), Member("digest", Str(EntryDigest(h, e))), Member("tranche", TrancheJson(t))]))
    case Debited(d) =>
      PortEvent(STREAM, head.number + 1, DEBITED,
        Obj([Member("prev", Str(head.digest)), Member("digest", Str(EntryDigest(h, e))), Member("debit", DebitJson(d))]))
  }

  lemma {:induction false} EventForReads(h: Sha256, head: Head, e: Entry)
    ensures var ev := EventFor(h, head, e);
      && Get(ev.data, "prev") == Some(Str(head.digest))
      && Get(ev.data, "digest") == Some(Str(EntryDigest(h, e)))
      && (e.Opened? ==> Get(ev.data, "tranche") == Some(TrancheJson(e.t)))
      && (e.Debited? ==> Get(ev.data, "debit") == Some(DebitJson(e.d)))
  {
    var ms := EventFor(h, head, e).data.members;
    LookupFinds(ms, 0);
    LookupFinds(ms, 1);
    LookupFinds(ms, 2);
  }

  // ------------------------------------------------------------------ what the tables mean

  /** How entries are digested; the tables' meaning needs to know no more. */
  type Digester = Entry -> string

  function Digests(h: Sha256): Digester {
    e => EntryDigest(h, e)
  }

  ghost predicate TranchesMean(dg: Digester, rows: map<string, TrancheRow>, H: seq<Entry>) {
    forall id :: (id in rows <==> FindOpened(H, id).Some?) && (id in rows ==> TrancheMeans(dg, rows[id], H, id))
  }

  ghost predicate TrancheMeans(dg: Digester, row: TrancheRow, H: seq<Entry>, id: string) {
    var i := FindOpened(H, id);
    i.Some? && i.value < |H| && H[i.value].Opened?
    && row == TrancheRow(H[i.value].t.venture, H[i.value].t.mission, dg(H[i.value]), i.value + 1)
  }

  ghost predicate KeysMean(dg: Digester, rows: map<string, Claim>, H: seq<Entry>) {
    forall key :: (key in rows <==> FindKey(H, key).Some?) && (key in rows ==> KeyMeans(dg, rows[key], H, key))
  }

  ghost predicate KeyMeans(dg: Digester, row: Claim, H: seq<Entry>, key: string) {
    var i := FindKey(H, key);
    i.Some? && i.value < |H| && row == Claim(dg(H[i.value]), i.value + 1)
  }

  ghost predicate BalancesMean(rows: map<Slot, BalanceRow>, H: seq<Entry>) {
    forall slot :: (slot in rows <==> HeldSpec(H, slot).Some?) && (slot in rows ==> BalanceMeans(rows[slot], H, slot))
  }

  ghost predicate BalanceMeans(row: BalanceRow, H: seq<Entry>, slot: Slot) {
    var held := HeldSpec(H, slot);
    held.Some? && row == BalanceRow(held.value.amount.unit, Units(held.value.amount), Spent(H, slot), LastTouch(H, slot))
  }

  /** The tables hold exactly what the granted requests say. */
  ghost predicate Meaning(dg: Digester, st: Tables, H: seq<Entry>) {
    && st.head.number == |H|
    && TranchesMean(dg, st.tranches, H)
    && KeysMean(dg, st.keys, H)
    && BalancesMean(st.balances, H)
  }

  lemma {:induction false} PutBalancesLands(b: map<Slot, BalanceRow>, id: string, hs: seq<HoldSpec>, offset: nat)
    requires DistinctSlots(hs)
    requires forall slot :: slot in b ==> slot.tranche != id
    ensures PutBalances(b, id, hs, offset).Some?
    ensures var r := PutBalances(b, id, hs, offset).value;
      forall slot :: slot in r <==> slot in b || (slot.tranche == id && FindHold(hs, slot.hold, slot.resource).Some?)
    ensures forall slot :: slot in b ==> PutBalances(b, id, hs, offset).value[slot] == b[slot]
    ensures forall slot: Slot :: slot.tranche == id && FindHold(hs, slot.hold, slot.resource).Some? ==>
      PutBalances(b, id, hs, offset).value[slot] == HoldRow(FindHold(hs, slot.hold, slot.resource).value, offset)
  {
    if hs != [] {
      var n := |hs| - 1;
      PutBalancesLands(b, id, hs[..n], offset);
      FindHoldFinds(hs[..n], hs[n].hold, hs[n].amount.resource);
    }
  }

  /** A hold that cannot be inserted stops the holds after it as well. */
  lemma {:induction false} PutBalancesStops(b: map<Slot, BalanceRow>, id: string, hs: seq<HoldSpec>, n: nat, offset: nat)
    requires n <= |hs| && PutBalances(b, id, hs[..n], offset).None?
    ensures PutBalances(b, id, hs, offset).None?
    decreases |hs|
  {
    if n == |hs| { assert hs[..n] == hs; } else {
      assert hs[..|hs| - 1][..n] == hs[..n];
      PutBalancesStops(b, id, hs[..|hs| - 1], n, offset);
    }
  }

  lemma {:induction false} Snoc(H: seq<Entry>, e: Entry, id: string, slot: Slot)
    ensures var G := H + [e];
      && (FindOpened(H, id).Some? ==> FindOpened(G, id) == FindOpened(H, id))
      && (FindOpened(H, id).None? ==> FindOpened(G, id) == if e.Opened? && e.t.id == id then Some(|H|) else None)
      && (FindKey(H, id).Some? ==> FindKey(G, id) == FindKey(H, id))
      && (FindKey(H, id).None? ==> FindKey(G, id) == if e.Debited? && e.d.key == id then Some(|H|) else None)
      && Spent(G, slot) == Spent(H, slot) + (if Charges(e, slot) then Units(e.d.amount) else 0)
      && LastTouch(G, slot) == if Charges(e, slot) || (e.Opened? && e.t.id == slot.tranche) then |G| else LastTouch(H, slot)
  {
    assert (H + [e])[..|H|] == H;
  }

  lemma {:induction false} HeldSnoc(H: seq<Entry>, e: Entry, slot: Slot)
    ensures HeldSpec(H + [e], slot) ==
      if HeldSpec(H, slot).Some? || FindOpened(H, slot.tranche).Some? then HeldSpec(H, slot)
      else if e.Opened? && e.t.id == slot.tranche then FindHold(e.t.holds, slot.hold, slot.resource)
      else None
  {
    Snoc(H, e, slot.tranche, slot);
    FindOpenedFinds(H, slot.tranche);
  }

  lemma {:induction false} TrancheMeansSnoc(dg: Digester, row: TrancheRow, H: seq<Entry>, e: Entry, id: string)
    requires TrancheMeans(dg, row, H, id)
    ensures TrancheMeans(dg, row, H + [e], id)
  {
    Snoc(H, e, id, Slot("", Execution, Cash));
  }

  function OpenedRows(dg: Digester, rows: map<string, TrancheRow>, n: nat, e: Entry): map<string, TrancheRow> {
    if e.Opened? then rows[e.t.id := TrancheRow(e.t.venture, e.t.mission, dg(e), n + 1)] else rows
  }

  function KeyedRows(dg: Digester, rows: map<string, Claim>, n: nat, e: Entry): map<string, Claim> {
    if e.Debited? then rows[e.d.key := Claim(dg(e), n + 1)] else rows
  }

  lemma {:induction false} TranchesGrowAt(dg: Digester, rows: map<string, TrancheRow>, H: seq<Entry>, e: Entry, id: string)
    requires TranchesMean(dg, rows, H)
    requires e.Opened? ==> FindOpened(H, e.t.id).None?
    ensures id in OpenedRows(dg, rows, |H|, e) <==> FindOpened(H + [e], id).Some?
    ensures id in OpenedRows(dg, rows, |H|, e) ==> TrancheMeans(dg, OpenedRows(dg, rows, |H|, e)[id], H + [e], id)
  {
    Snoc(H, e, id, Slot("", Execution, Cash));
    if id in rows { TrancheMeansSnoc(dg, rows[id], H, e, id); }
  }

  lemma {:induction false} TranchesGrow(dg: Digester, rows: map<string, TrancheRow>, H: seq<Entry>, e: Entry)
    requires TranchesMean(dg, rows, H)
    requires e.Opened? ==> FindOpened(H, e.t.id).None?
    ensures TranchesMean(dg, OpenedRows(dg, rows, |H|, e), H + [e])
  {
    var rows' := OpenedRows(dg, rows, |H|, e);
    forall id {:trigger id in rows'}
      ensures (id in rows' <==> FindOpened(H + [e], id).Some?) && (id in rows' ==> TrancheMeans(dg, rows'[id], H + [e], id))
    {
      TranchesGrowAt(dg, rows, H, e, id);
    }
  }

  lemma {:induction false} KeyMeansSnoc(dg: Digester, row: Claim, H: seq<Entry>, e: Entry, key: string)
    requires KeyMeans(dg, row, H, key)
    ensures KeyMeans(dg, row, H + [e], key)
  {
    Snoc(H, e, key, Slot("", Execution, Cash));
  }

  lemma {:induction false} KeysGrowAt(dg: Digester, rows: map<string, Claim>, H: seq<Entry>, e: Entry, key: string)
    requires KeysMean(dg, rows, H)
    requires e.Debited? ==> FindKey(H, e.d.key).None?
    ensures key in KeyedRows(dg, rows, |H|, e) <==> FindKey(H + [e], key).Some?
    ensures key in KeyedRows(dg, rows, |H|, e) ==> KeyMeans(dg, KeyedRows(dg, rows, |H|, e)[key], H + [e], key)
  {
    Snoc(H, e, key, Slot("", Execution, Cash));
    if key in rows { KeyMeansSnoc(dg, rows[key], H, e, key); }
  }

  lemma {:induction false} KeysGrow(dg: Digester, rows: map<string, Claim>, H: seq<Entry>, e: Entry)
    requires KeysMean(dg, rows, H)
    requires e.Debited? ==> FindKey(H, e.d.key).None?
    ensures KeysMean(dg, KeyedRows(dg, rows, |H|, e), H + [e])
  {
    var rows' := KeyedRows(dg, rows, |H|, e);
    forall key {:trigger key in rows'}
      ensures (key in rows' <==> FindKey(H + [e], key).Some?) && (key in rows' ==> KeyMeans(dg, rows'[key], H + [e], key))
    {
      KeysGrowAt(dg, rows, H, e, key);
    }
  }

  lemma {:induction false} BalancesOpen(b: map<Slot, BalanceRow>, H: seq<Entry>, t: Tranche)
    requires Legal(H) && BalancesMean(b, H)
    requires FindOpened(H, t.id).None? && DistinctSlots(t.holds)
    ensures PutBalances(b, t.id, t.holds, |H| + 1).Some?
    ensures BalancesMean(PutBalances(b, t.id, t.holds, |H| + 1).value, H + [Opened(t)])
  {
    forall slot | slot in b ensures slot.tranche != t.id {
      assert HeldSpec(H, slot).Some?;
    }
    PutBalancesLands(b, t.id, t.holds, |H| + 1);
    var b' := PutBalances(b, t.id, t.holds, |H| + 1).value;
    var e := Opened(t);
    forall slot
      ensures slot in b' <==> HeldSpec(H + [e], slot).Some?
      ensures slot in b' ==> BalanceMeans(b'[slot], H + [e], slot)
    {
      HeldSnoc(H, e, slot);
      Snoc(H, e, slot.tranche, slot);
      if slot.tranche == t.id {
        UnopenedIsUnspent(H, slot);
      } else {
        assert slot in b <==> HeldSpec(H, slot).Some?;
        if slot in b { assert BalanceMeans(b[slot], H, slot); }
      }
    }
  }

  lemma {:induction false} BalancesDebit(b: map<Slot, BalanceRow>, H: seq<Entry>, d: Debit)
    requires BalancesMean(b, H) && SlotOf(d) in b
    ensures var row := b[SlotOf(d)];
      BalancesMean(b[SlotOf(d) := row.(consumed := row.consumed + Units(d.amount), offset := |H| + 1)], H + [Debited(d)])
  {
    var e := Debited(d);
    var row := b[SlotOf(d)];
    var b' := b[SlotOf(d) := row.(consumed := row.consumed + Units(d.amount), offset := |H| + 1)];
    forall slot
      ensures slot in b' <==> HeldSpec(H + [e], slot).Some?
      ensures slot in b' ==> BalanceMeans(b'[slot], H + [e], slot)
    {
      HeldSnoc(H, e, slot);
      Snoc(H, e, slot.tranche, slot);
      assert slot in b <==> HeldSpec(H, slot).Some?;
      if slot in b { assert BalanceMeans(b[slot], H, slot); }
    }
  }

  lemma {:induction false} OpeningFits(dg: Digester, st: Tables, H: seq<Entry>, t: Tranche, digest: string, next: Head)
    requires Legal(H) && Meaning(dg, st, H) && InOrder(t.holds) && next.number == |H| + 1
    ensures PutTranche(st, t, digest, next).Some? <==> FindOpened(H, t.id).None?
    ensures FindOpened(H, t.id).None? ==>
      PutBalances(st.balances, t.id, t.holds, |H| + 1).Some?
      && BalancesMean(PutBalances(st.balances, t.id, t.holds, |H| + 1).value, H + [Opened(t)])
  {
    assert t.id in st.tranches <==> FindOpened(H, t.id).Some?;
    if FindOpened(H, t.id).None? {
      OrderedHoldsAreDistinct(t.holds);
      BalancesOpen(st.balances, H, t);
    }
  }

  /** An opening lands exactly when its id is new, and then the tables mean one entry more. */
  lemma {:induction false} OpeningLands(dg: Digester, st: Tables, H: seq<Entry>, t: Tranche, next: Head)
    requires Legal(H) && Meaning(dg, st, H) && InOrder(t.holds) && next.number == |H| + 1
    ensures var r := PutTranche(st, t, dg(Opened(t)), next);
      && (r.Some? <==> FindOpened(H, t.id).None?)
      && (r.Some? ==> r.value.head == next && Meaning(dg, r.value, H + [Opened(t)]))
  {
    OpeningFits(dg, st, H, t, dg(Opened(t)), next);
    if FindOpened(H, t.id).None? {
      TranchesGrow(dg, st.tranches, H, Opened(t));
      KeysGrow(dg, st.keys, H, Opened(t));
    }
  }

  lemma {:induction false} DebitFits(dg: Digester, st: Tables, H: seq<Entry>, d: Debit, digest: string, next: Head)
    requires Meaning(dg, st, H) && ValidDebit(d)
    ensures PutDebit(st, d, digest, next).Some? <==> AnswerDebit(H, d) == Granted(|H| + 1, false)
  {
    var slot := SlotOf(d);
    assert slot in st.balances <==> HeldSpec(H, slot).Some?;
    assert d.key in st.keys <==> FindKey(H, d.key).Some?;
    FindKeyFinds(H, d.key);
    if slot in st.balances { assert BalanceMeans(st.balances[slot], H, slot); }
  }

  /** The tables a landed debit leaves. */
  function DebitRows(dg: Digester, st: Tables, d: Debit, next: Head): Tables
    requires SlotOf(d) in st.balances && next.number > 0
  {
    var row := st.balances[SlotOf(d)];
    Tables(next, OpenedRows(dg, st.tranches, next.number - 1, Debited(d)),
           st.balances[SlotOf(d) := row.(consumed := row.consumed + Units(d.amount), offset := next.number)],
           KeyedRows(dg, st.keys, next.number - 1, Debited(d)))
  }

  lemma {:induction false} DebitRowsMean(dg: Digester, st: Tables, H: seq<Entry>, d: Debit, next: Head)
    requires Meaning(dg, st, H) && next.number == |H| + 1
    requires SlotOf(d) in st.balances && FindKey(H, d.key).None?
    ensures Meaning(dg, DebitRows(dg, st, d, next), H + [Debited(d)])
  {
    BalancesDebit(st.balances, H, d);
    TranchesGrow(dg, st.tranches, H, Debited(d));
    KeysGrow(dg, st.keys, H, Debited(d));
  }

  /** A debit lands exactly when a fresh grant would have been given, and then the tables mean one entry more. */
  lemma {:induction false} DebitLands(dg: Digester, st: Tables, H: seq<Entry>, d: Debit, next: Head)
    requires Legal(H) && Meaning(dg, st, H) && ValidDebit(d) && next.number == |H| + 1
    ensures var r := PutDebit(st, d, dg(Debited(d)), next);
      && (r.Some? <==> AnswerDebit(H, d) == Granted(|H| + 1, false))
      && (r.Some? ==> r.value.head == next && Meaning(dg, r.value, H + [Debited(d)]))
  {
    var r := PutDebit(st, d, dg(Debited(d)), next);
    DebitFits(dg, st, H, d, dg(Debited(d)), next);
    if r.Some? {
      assert FindKey(H, d.key).None?;
      DebitRowsMean(dg, st, H, d, next);
      assert r.value == DebitRows(dg, st, d, next);
    }
  }

  /** An event is accepted exactly when it follows the head and records a request the history grants. */
  lemma {:induction false} EventLands(h: Sha256, st: Tables, H: seq<Entry>, e: PortEvent)
    requires Legal(H) && Meaning(Digests(h), st, H)
    requires ApplyEvent(h, st, e, st.head).Some?
    ensures EntryOf(e).Some? && Admissible(H, EntryOf(e).value)
    ensures var st' := ApplyEvent(h, st, e, st.head).value;
      st'.head == Head(|H| + 1, EventDigest(h, e.typ, e.data)) && Meaning(Digests(h), st', H + [EntryOf(e).value])
  {
    var next := Head(e.number, EventDigest(h, e.typ, e.data));
    if e.typ == TRANCHE_OPENED {
      var t := ParseTranche(Get(e.data, "tranche")).value;
      ParsedTrancheIsCanonical(Get(e.data, "tranche"));
      OpeningLands(Digests(h), st, H, t, next);
    } else {
      var d := ParseDebit(Get(e.data, "debit")).value;
      DebitLands(Digests(h), st, H, d, next);
    }
  }

  lemma {:induction false} ApplyOpening(h: Sha256, st: Tables, e: PortEvent, t: Tranche)
    requires e.stream == STREAM && e.number == st.head.number + 1 && e.typ == TRANCHE_OPENED
    requires e.data.Obj? && Get(e.data, "prev") == Some(Str(st.head.digest))
    requires ParseTranche(Get(e.data, "tranche")) == Some(t) && !Incomplete(t)
    requires Get(e.data, "digest") == Some(Str(EntryDigest(h, Opened(t))))
    ensures EntryOf(e) == Some(Opened(t))
    ensures ApplyEvent(h, st, e, st.head) == PutTranche(st, t, EntryDigest(h, Opened(t)), Head(e.number, EventDigest(h, e.typ, e.data)))
  {}

  lemma {:induction false} ApplyDebit(h: Sha256, st: Tables, e: PortEvent, d: Debit)
    requires e.stream == STREAM && e.number == st.head.number + 1 && e.typ == DEBITED
    requires e.data.Obj? && Get(e.data, "prev") == Some(Str(st.head.digest))
    requires ParseDebit(Get(e.data, "debit")) == Some(d) && d.pool == Pool(d.purpose)
    requires Get(e.data, "digest") == Some(Str(EntryDigest(h, Debited(d))))
    ensures EntryOf(e) == Some(Debited(d))
    ensures ApplyEvent(h, st, e, st.head) == PutDebit(st, d, EntryDigest(h, Debited(d)), Head(e.number, EventDigest(h, e.typ, e.data)))
  {}

  /** The event for an admissible entry is accepted by every ledger at that head. */
  lemma {:induction false} EventForLands(h: Sha256, st: Tables, H: seq<Entry>, x: Entry)
    requires Legal(H) && Meaning(Digests(h), st, H) && Admissible(H, x)
    ensures ApplyEvent(h, st, EventFor(h, st.head, x), st.head).Some?
    ensures EntryOf(EventFor(h, st.head, x)) == Some(x)
  {
    match x
    case Opened(t) => OpeningEventLands(h, st, H, t);
    case Debited(d) => DebitEventLands(h, st, H, d);
  }

  lemma {:induction false} OpeningEventLands(h: Sha256, st: Tables, H: seq<Entry>, t: Tranche)
    requires Legal(H) && Meaning(Digests(h), st, H) && Admissible(H, Opened(t))
    ensures ApplyEvent(h, st, EventFor(h, st.head, Opened(t)), st.head).Some?
    ensures EntryOf(EventFor(h, st.head, Opened(t))) == Some(Opened(t))
  {
    var e := EventFor(h, st.head, Opened(t));
    EventForReads(h, st.head, Opened(t));
    TrancheRoundTrip(t);
    ApplyOpening(h, st, e, t);
    OpeningLands(Digests(h), st, H, t, Head(e.number, EventDigest(h, e.typ, e.data)));
  }

  lemma {:induction false} DebitEventLands(h: Sha256, st: Tables, H: seq<Entry>, d: Debit)
    requires Legal(H) && Meaning(Digests(h), st, H) && Admissible(H, Debited(d))
    ensures ApplyEvent(h, st, EventFor(h, st.head, Debited(d)), st.head).Some?
    ensures EntryOf(EventFor(h, st.head, Debited(d))) == Some(Debited(d))
  {
    var e := EventFor(h, st.head, Debited(d));
    EventForReads(h, st.head, Debited(d));
    DebitRoundTrip(d);
    ApplyDebit(h, st, e, d);
    DebitLands(Digests(h), st, H, d, Head(e.number, EventDigest(h, e.typ, e.data)));
  }

  // ------------------------------------------------------------------ whole Journals

  /** What a Journal folds to is a legal list of grants, one an event, and tables that mean it. */
  lemma {:induction false} FoldMeaning(h: Sha256, J: seq<PortEvent>)
    requires Fold(h, J).Some?
    ensures |History(J)| == |J| && Legal(History(J)) && Meaning(Digests(h), Fold(h, J).value, History(J))
  {
    if J != [] {
      var K, e := J[..|J| - 1], J[|J| - 1];
      FoldMeaning(h, K);
      EventLands(h, Fold(h, K).value, History(K), e);
      var H := History(K);
      assert (H + [EntryOf(e).value])[..|H|] == H;
    } else {
      assert Meaning(Digests(h), NO_ROWS, []);
    }
  }

  lemma {:induction false} FoldPrefix(h: Sha256, J: seq<PortEvent>, n: nat)
    requires Fold(h, J).Some? && n <= |J| && |History(J)| == |J|
    ensures Fold(h, J[..n]).Some? && History(J[..n]) == History(J)[..n]
    decreases |J|
  {
    FoldMeaning(h, J);
    if n == |J| {
      assert J[..n] == J && History(J)[..n] == History(J);
    } else {
      var K := J[..|J| - 1];
      FoldMeaning(h, K);
      FoldPrefix(h, K, n);
      assert K[..n] == J[..n];
      assert History(K)[..n] == History(J)[..n];
    }
  }

  /** Applying a Journal's later events to the fold of its earlier ones gives the fold of it all,
      and where it stops it leaves the fold of the events that landed. */
  lemma {:induction false} ApplyAllFolds(h: Sha256, J: seq<PortEvent>, n: nat)
    requires n <= |J| && Fold(h, J[..n]).Some?
    ensures var (st, ok) := ApplyAll(h, Fold(h, J[..n]).value, J[n..], Fold(h, J[..n]).value.head);
      && (ok <==> Fold(h, J).Some?)
      && (ok ==> Some(st) == Fold(h, J))
      && n <= st.head.number <= |J| && Fold(h, J[..st.head.number]) == Some(st)
    decreases |J| - n
  {
    FoldMeaning(h, J[..n]);
    var st := Fold(h, J[..n]).value;
    if n == |J| {
      assert J[..n] == J;
    } else {
      assert J[n..][1..] == J[n + 1..];
      assert J[..n + 1][..n] == J[..n];
      var one := ApplyEvent(h, st, J[n], st.head);
      assert Fold(h, J[..n + 1]) == one;
      if one.Some? {
        ApplyAllFolds(h, J, n + 1);
      } else if Fold(h, J).Some? {
        FoldMeaning(h, J);
        FoldPrefix(h, J, n + 1);
        assert false;
      }
    }
  }
}
