/**
 What a digest commits to: one entry, and through `prev` a whole history (userland/src/budget.ts,
 the key digests, `admit`'s decisions and `catchUp`'s comparison of the stored head).
 */
module BudgetChain {
  import opened JsonText
  import opened Options
  import opened BudgetNouns
  import opened BudgetSpec
  import opened BudgetStore

  // ------------------------------------------------------------------ one digest, one entry

  function EntryJson(e: Entry): Json {
    match e
    case Opened(t) => TrancheJson(t)
    case Debited(d) => DebitJson(d)
  }

  ghost predicate ValidEntry(e: Entry) {
    match e
    case Opened(t) => ValidTranche(t)
    case Debited(d) => ValidDebit(d)
  }

  lemma {:induction false} EntryJsonWellFormed(e: Entry)
    ensures WellFormed(EntryJson(e))
  {
    match e
    case Opened(t) =>
      forall i | 0 <= i < |t.holds| ensures WellFormed(HoldsJson(t.holds)[i]) {
        assert WellFormed(AmountJson(t.holds[i].amount));
      }
    case Debited(d) =>
      DebitKeysDistinct(d);
      assert WellFormed(AmountJson(d.amount));
  }

  lemma {:induction false} SamePair(k: string, l: string, a: Json, b: Json)
    requires WellFormed(a) && WellFormed(b)
    requires Canon(Arr([Str(k), a])) == Canon(Arr([Str(l), b]))
    ensures k == l && SameTree(a, b)
  {
    CanonUnambiguous(Arr([Str(k), a]), Arr([Str(l), b]));
    var xs, ys := [Str(k), a], [Str(l), b];
    assert SameTree(xs[0], ys[0]) && SameTree(xs[1], ys[1]);
  }

  /** A digest is bound to one entry, field for field. */
  lemma {:induction false} DigestNamesEntry(h: Sha256, a: Entry, b: Entry)
    requires ValidEntry(a) && ValidEntry(b)
    requires EntryDigest(h, a) == EntryDigest(h, b)
    ensures a == b
  {
    EntryJsonWellFormed(a);
    EntryJsonWellFormed(b);
    SamePair(if a.Opened? then "tranche" else "debit", if b.Opened? then "tranche" else "debit", EntryJson(a), EntryJson(b));
    assert "tranche"[0] != "debit"[0];
    match a
    case Opened(t) =>
      SameTranche(Some(TrancheJson(t)), Some(TrancheJson(b.t)));
      TrancheRoundTrip(t);
      TrancheRoundTrip(b.t);
    case Debited(d) =>
      SameDebit(Some(DebitJson(d)), Some(DebitJson(b.d)));
      DebitRoundTrip(d);
      DebitRoundTrip(b.d);
  }

  // ------------------------------------------------------------------ decisions

  /** What `decide` returns: a final answer, or the entry to append. */
  datatype Verdict = Final(a: Answer) | Propose(e: Entry)

  function DecideOpen(h: Sha256, st: Tables, t: Tranche): Verdict {
    if t.id in st.tranches then
      if st.tranches[t.id].digest == EntryDigest(h, Opened(t)) then Final(Granted(st.tranches[t.id].offset, true))
      else Final(Refused(IdempotencyConflict))
    else Propose(Opened(t))
  }

  function DecideDebit(h: Sha256, st: Tables, d: Debit): Verdict {
    if d.key in st.keys then
      if st.keys[d.key].digest == EntryDigest(h, Debited(d)) then Final(Granted(st.keys[d.key].offset, true))
      else Final(Refused(IdempotencyConflict))
    else if d.tranche !in st.tranches then Final(Refused(UnknownTranche))
    else if SlotOf(d) !in st.balances then Final(Refused(Insufficient))
    else
      var row := st.balances[SlotOf(d)];
      if row.unit != d.amount.unit || Units(d.amount) > row.held - row.consumed then Final(Refused(Insufficient))
      else Propose(Debited(d))
  }

  function DecideBalance(st: Tables, slot: Slot): Verdict {
    if slot in st.balances then
      var row := st.balances[slot];
      Final(Balance(row.held, row.consumed, row.held - row.consumed, row.offset))
    else Final(Balance(0, 0, 0, st.head.number))
  }

  /** What a ledger whose store holds `st` decides about a request. */
  ghost function Decide(h: Sha256, st: Tables, req: Request): Verdict {
    match req
    case OpenTranche(raw) =>
      var t := ParseTranche(raw);
      if t.None? then Final(Refused(Invalid))
      else if Incomplete(t.value) then Final(Refused(IncompleteTranche))
      else DecideOpen(h, st, t.value)
    case MakeDebit(raw) =>
      var d := ParseDebit(raw);
      if d.None? then Final(Refused(Invalid))
      else if d.value.pool != Pool(d.value.purpose) then Final(Refused(PoolMismatch))
      else DecideDebit(h, st, d.value)
    case ReadBalance(slot) => DecideBalance(st, slot)
  }

  /** A final verdict is the answer; a proposal of `x` stands for a fresh grant. */
  ghost predicate Matches(v: Verdict, answer: Answer, H: seq<Entry>, x: Entry) {
    if v.Final? then v.a == answer else v.e == x && answer == Granted(|H| + 1, false)
  }

  lemma {:induction false} OpenAgrees(h: Sha256, st: Tables, H: seq<Entry>, t: Tranche)
    requires Legal(H) && Meaning(Digests(h), st, H) && ValidTranche(t)
    ensures Matches(DecideOpen(h, st, t), AnswerOpen(H, t), H, Opened(t))
  {
    assert t.id in st.tranches <==> FindOpened(H, t.id).Some?;
    if t.id in st.tranches {
      var i := FindOpened(H, t.id).value;
      assert TrancheMeans(Digests(h), st.tranches[t.id], H, t.id);
      LegalAt(H, i);
      if EntryDigest(h, H[i]) == EntryDigest(h, Opened(t)) { DigestNamesEntry(h, H[i], Opened(t)); }
    }
  }

  lemma {:induction false} DebitAgrees(h: Sha256, st: Tables, H: seq<Entry>, d: Debit)
    requires Legal(H) && Meaning(Digests(h), st, H) && ValidDebit(d)
    ensures Matches(DecideDebit(h, st, d), AnswerDebit(H, d), H, Debited(d))
  {
    assert d.key in st.keys <==> FindKey(H, d.key).Some?;
    if d.key in st.keys {
      var i := FindKey(H, d.key).value;
      FindKeyFinds(H, d.key);
      assert KeyMeans(Digests(h), st.keys[d.key], H, d.key);
      LegalAt(H, i);
      if EntryDigest(h, H[i]) == EntryDigest(h, Debited(d)) { DigestNamesEntry(h, H[i], Debited(d)); }
    } else {
      DebitAgreesFresh(h, st, H, d);
    }
  }

  lemma {:induction false} DebitAgreesFresh(h: Sha256, st: Tables, H: seq<Entry>, d: Debit)
    requires Legal(H) && Meaning(Digests(h), st, H) && ValidDebit(d)
    requires d.key !in st.keys && FindKey(H, d.key).None?
    ensures Matches(DecideDebit(h, st, d), AnswerDebit(H, d), H, Debited(d))
  {
    var slot := SlotOf(d);
    assert d.tranche in st.tranches <==> FindOpened(H, d.tranche).Some?;
    assert slot in st.balances <==> HeldSpec(H, slot).Some?;
    if slot in st.balances { assert BalanceMeans(st.balances[slot], H, slot); }
  }

  /** The verdict is the sequential answer over `H`, or proposes the entry a fresh grant adds. */
  ghost predicate VerdictAgrees(v: Verdict, H: seq<Entry>, req: Request) {
    if v.Final? then v.a == SpecAnswer(H, req)
    else SpecAnswer(H, req) == Granted(|H| + 1, false) && Addition(req) == Some(v.e) && Admissible(H, v.e)
  }

  lemma {:induction false} OpenRequestAgrees(h: Sha256, st: Tables, H: seq<Entry>, raw: Option<Json>)
    requires Legal(H) && Meaning(Digests(h), st, H)
    ensures VerdictAgrees(Decide(h, st, OpenTranche(raw)), H, OpenTranche(raw))
  {
    if ParseTranche(raw).Some? && !Incomplete(ParseTranche(raw).value) {
      var t := ParseTranche(raw).value;
      ParsedTrancheIsCanonical(raw);
      OpenAgrees(h, st, H, t);
      OpenAdmissible(H, t);
    }
  }

  lemma {:induction false} OpenAdmissible(H: seq<Entry>, t: Tranche)
    requires ValidTranche(t) && !Incomplete(t)
    ensures AnswerOpen(H, t) == Granted(|H| + 1, false) ==> Admissible(H, Opened(t))
  {
    FindOpenedFinds(H, t.id);
  }

  lemma {:induction false} DebitRequestAgrees(h: Sha256, st: Tables, H: seq<Entry>, raw: Option<Json>)
    requires Legal(H) && Meaning(Digests(h), st, H)
    ensures VerdictAgrees(Decide(h, st, MakeDebit(raw)), H, MakeDebit(raw))
  {
    if ParseDebit(raw).Some? { DebitAgrees(h, st, H, ParseDebit(raw).value); }
  }

  lemma {:induction false} BalanceAgrees(st: Tables, H: seq<Entry>, slot: Slot)
    requires BalancesMean(st.balances, H) && st.head.number == |H|
    ensures DecideBalance(st, slot) == Final(AnswerBalance(H, slot))
  {
    assert slot in st.balances <==> HeldSpec(H, slot).Some?;
    if slot in st.balances { assert BalanceMeans(st.balances[slot], H, slot); }
  }

  /** A decision on the tables is the sequential answer over what they mean; a proposal is a fresh grant. */
  lemma {:induction false} DecideAgrees(h: Sha256, st: Tables, H: seq<Entry>, req: Request)
    requires Legal(H) && Meaning(Digests(h), st, H)
    ensures VerdictAgrees(Decide(h, st, req), H, req)
  {
    match req
    case OpenTranche(raw) => OpenRequestAgrees(h, st, H, raw);
    case MakeDebit(raw) => DebitRequestAgrees(h, st, H, raw);
    case ReadBalance(slot) => BalanceAgrees(st, H, slot);
  }

  // ------------------------------------------------------------------ the chain of digests

  /** Two events with one digest: the same type, and data equal up to key order. */
  ghost predicate SameEvent(a: PortEvent, b: PortEvent) {
    a.typ == b.typ && SameTree(a.data, b.data)
  }

  ghost predicate SameEvents(K: seq<PortEvent>, J: seq<PortEvent>) {
    |K| == |J| && forall i :: 0 <= i < |K| ==> SameEvent(K[i], J[i])
  }

  function DigestBefore(h: Sha256, J: seq<PortEvent>, i: nat): string
    requires i <= |J|
  {
    if i == 0 then "" else EventDigest(h, J[i - 1].typ, J[i - 1].data)
  }

  ghost predicate Link(h: Sha256, J: seq<PortEvent>, i: nat)
    requires i < |J|
  {
    J[i].stream == STREAM && J[i].number == i + 1 && WellFormed(J[i].data) && J[i].data.Obj?
    && Get(J[i].data, "prev") == Some(Str(DigestBefore(h, J, i)))
  }

  /** One stream, numbered from 1, each event naming the digest of the one before it. */
  ghost predicate Chained(h: Sha256, J: seq<PortEvent>) {
    forall i :: 0 <= i < |J| ==> Link(h, J, i)
  }

  ghost predicate WellFormedEvents(J: seq<PortEvent>) {
    forall i :: 0 <= i < |J| ==> WellFormed(J[i].data)
  }

  lemma {:induction false} DigestNamesEvent(h: Sha256, a: PortEvent, b: PortEvent)
    requires WellFormed(a.data) && WellFormed(b.data)
    ensures EventDigest(h, a.typ, a.data) == EventDigest(h, b.typ, b.data) <==> SameEvent(a, b)
  {
    var x, y := Arr([Str(a.typ), a.data]), Arr([Str(b.typ), b.data]);
    CanonUnambiguous(x, y);
    if EventDigest(h, a.typ, a.data) == EventDigest(h, b.typ, b.data) {
      SamePair(a.typ, b.typ, a.data, b.data);
    }
    if SameEvent(a, b) {
      assert SameTree(x, y);
    }
  }

  /** The digest of event n names the whole history up to it, and nothing less. */
  lemma {:induction false} DigestNamesHistory(h: Sha256, K: seq<PortEvent>, J: seq<PortEvent>, n: nat)
    requires Chained(h, K) && Chained(h, J) && 0 < n <= |K| && n <= |J|
    ensures DigestBefore(h, K, n) == DigestBefore(h, J, n) <==> SameEvents(K[..n], J[..n])
    decreases n
  {
    var a, b := K[n - 1], J[n - 1];
    assert Link(h, K, n - 1) && Link(h, J, n - 1);
    DigestNamesEvent(h, a, b);
    if SameEvents(K[..n], J[..n]) {
      assert SameEvent(K[..n][n - 1], J[..n][n - 1]);
    }
    if SameEvent(a, b) {
      SameField(a.data, b.data, "prev");
      assert DigestBefore(h, K, n - 1) == DigestBefore(h, J, n - 1);
      if n > 1 {
        DigestNamesHistory(h, K, J, n - 1);
        forall i | 0 <= i < n ensures SameEvent(K[..n][i], J[..n][i]) {
          if i < n - 1 { assert SameEvent(K[..n - 1][i], J[..n - 1][i]); }
        }
      }
    }
  }

  /** Two events a Journal returns with their keys in another order land the same. */
  lemma {:induction false} SameEventApplies(h: Sha256, st: Tables, a: PortEvent, b: PortEvent)
    requires SameEvent(a, b) && a.stream == b.stream && a.number == b.number
    requires WellFormed(a.data) && WellFormed(b.data)
    ensures ApplyEvent(h, st, a, st.head) == ApplyEvent(h, st, b, st.head)
  {
    if a.data.Obj? {
      DigestNamesEvent(h, a, b);
      SameField(a.data, b.data, "prev");
      SameField(a.data, b.data, "digest");
      SameField(a.data, b.data, "tranche");
      SameField(a.data, b.data, "debit");
      SameTranche(Get(a.data, "tranche"), Get(b.data, "tranche"));
      SameDebit(Get(a.data, "debit"), Get(b.data, "debit"));
      SameEventSteps(h, st, a, b);
    }
  }

  lemma {:induction false} SameEventSteps(h: Sha256, st: Tables, a: PortEvent, b: PortEvent)
    requires a.typ == b.typ && a.stream == b.stream && a.number == b.number && a.data.Obj? && b.data.Obj?
    requires EventDigest(h, a.typ, a.data) == EventDigest(h, b.typ, b.data)
    requires SameScalarField(Get(a.data, "prev"), Get(b.data, "prev")) && SameScalarField(Get(a.data, "digest"), Get(b.data, "digest"))
    requires ParseTranche(Get(a.data, "tranche")) == ParseTranche(Get(b.data, "tranche"))
    requires ParseDebit(Get(a.data, "debit")) == ParseDebit(Get(b.data, "debit"))
    ensures ApplyEvent(h, st, a, st.head) == ApplyEvent(h, st, b, st.head)
  {}

  ghost predicate SameScalarField(a: Option<Json>, b: Option<Json>) {
    forall s :: a == Some(Str(s)) <==> b == Some(Str(s))
  }

  lemma {:induction false} SameEventsFold(h: Sha256, K: seq<PortEvent>, J: seq<PortEvent>)
    requires SameEvents(K, J) && WellFormedEvents(K) && WellFormedEvents(J)
    requires forall i :: 0 <= i < |K| ==> K[i].stream == J[i].stream && K[i].number == J[i].number
    ensures Fold(h, K) == Fold(h, J)
  {
    if K != [] {
      var n := |K| - 1;
      SameEventsFold(h, K[..n], J[..n]);
      if Fold(h, K[..n]).Some? { SameEventApplies(h, Fold(h, K[..n]).value, K[n], J[n]); }
    }
  }

  /** The head a fold leaves names its last event. */
  lemma {:induction false} FoldChains(h: Sha256, J: seq<PortEvent>)
    requires Fold(h, J).Some? && WellFormedEvents(J)
    ensures Chained(h, J) && Fold(h, J).value.head == Head(|J|, DigestBefore(h, J, |J|))
  {
    if J != [] {
      var n := |J| - 1;
      var K := J[..n];
      FoldChains(h, K);
      ApplyChecks(h, Fold(h, K).value, J[n]);
      forall i | 0 <= i < |J| ensures Link(h, J, i) {
        if i < n { assert Link(h, K, i); }
      }
    }
  }

  lemma {:induction false} ApplyChecks(h: Sha256, st: Tables, e: PortEvent)
    requires ApplyEvent(h, st, e, st.head).Some?
    ensures e.stream == STREAM && e.number == st.head.number + 1 && e.data.Obj? && Get(e.data, "prev") == Some(Str(st.head.digest))
    ensures ApplyEvent(h, st, e, st.head).value.head == Head(e.number, EventDigest(h, e.typ, e.data))
  {}

  // ------------------------------------------------------------------ catching up

  /** catchUp's test of the store against a Journal: the stored head event is read back and its digest compared. */
  predicate TipMatches(h: Sha256, st: Tables, J: seq<PortEvent>) {
    && 0 < st.head.number <= |J|
    && J[st.head.number - 1].number == st.head.number && J[st.head.number - 1].stream == STREAM
    && EventDigest(h, J[st.head.number - 1].typ, J[st.head.number - 1].data) == st.head.digest
  }

  /** The store after a catch-up that read the whole of `J`, and whether it got to its end. */
  ghost function CaughtUp(h: Sha256, st: Tables, J: seq<PortEvent>): (Tables, bool) {
    if TipMatches(h, st, J) then ApplyAll(h, st, J[st.head.number..], st.head)
    else ApplyAll(h, NO_ROWS, J, EMPTY)
  }

  lemma {:induction false} TipIsDigest(h: Sha256, K: seq<PortEvent>, J: seq<PortEvent>)
    requires Fold(h, K).Some? && WellFormedEvents(K) && K != []
    requires Chained(h, J)
    ensures TipMatches(h, Fold(h, K).value, J) <==> |K| <= |J| && DigestBefore(h, K, |K|) == DigestBefore(h, J, |K|)
  {
    FoldChains(h, K);
    if |K| <= |J| { assert Link(h, J, |K| - 1); }
  }

  lemma {:induction false} PrefixFolds(h: Sha256, K: seq<PortEvent>, J: seq<PortEvent>)
    requires Chained(h, K) && Chained(h, J) && |K| <= |J| && SameEvents(K, J[..|K|])
    ensures Fold(h, J[..|K|]) == Fold(h, K)
  {
    forall i | 0 <= i < |K|
      ensures K[i].stream == J[i].stream && K[i].number == J[i].number && WellFormed(K[i].data) && WellFormed(J[..|K|][i].data)
    {
      assert Link(h, K, i) && Link(h, J, i);
    }
    SameEventsFold(h, K, J[..|K|]);
  }

  /** The stored tip matches exactly when the store's whole history is a prefix of this Journal. */
  lemma {:induction false} TipMatchesPrefix(h: Sha256, K: seq<PortEvent>, J: seq<PortEvent>)
    requires Fold(h, K).Some? && WellFormedEvents(K) && K != []
    requires Chained(h, J)
    ensures TipMatches(h, Fold(h, K).value, J) <==> |K| <= |J| && SameEvents(K, J[..|K|])
    ensures TipMatches(h, Fold(h, K).value, J) ==> Fold(h, J[..|K|]) == Fold(h, K)
  {
    TipIsDigest(h, K, J);
    FoldChains(h, K);
    if |K| <= |J| {
      DigestNamesHistory(h, K, J, |K|);
      assert K[..|K|] == K;
      if SameEvents(K, J[..|K|]) { PrefixFolds(h, K, J); }
    }
  }

  /** Whatever Journal the store was folded from, after catching up it is the fold of the one just read. */
  lemma {:induction false} CatchUpRebuilds(h: Sha256, K: seq<PortEvent>, J: seq<PortEvent>)
    requires Fold(h, K).Some? && WellFormedEvents(K)
    requires Chained(h, J)
    ensures var (st, ok) := CaughtUp(h, Fold(h, K).value, J);
      && (ok <==> Fold(h, J).Some?)
      && (ok ==> Some(st) == Fold(h, J))
      && st.head.number <= |J| && Fold(h, J[..st.head.number]) == Some(st)
  {
    var st := Fold(h, K).value;
    FoldChains(h, K);
    if TipMatches(h, st, J) {
      TipMatchesPrefix(h, K, J);
      ApplyAllFolds(h, J, |K|);
    } else {
      assert J[..0] == [] && J[0..] == J;
      ApplyAllFolds(h, J, 0);
    }
  }
}
