/**
 One ledger as it runs (userland/src/budget.ts, `openStore` and `openLedger`): a store and a file
 changed in place, and the retry loop around a Journal that other ledgers append to meanwhile.
 */
module BudgetLedger {
  import opened JsonText
  import opened Options
  import opened BudgetNouns
  import opened BudgetSpec
  import opened BudgetStore
  import opened BudgetChain
  import opened BudgetSystem

  /** One SQLite database: the head row and the three tables. */
  class Store {
    const h: Sha256
    var head: Head
    var tranches: map<string, TrancheRow>
    var balances: map<Slot, BalanceRow>
    var keys: map<string, Claim>

    function Rows(): Tables
      reads this
    {
      Tables(head, tranches, balances, keys)
    }

    constructor (h: Sha256, rows: Tables)
      ensures this.h == h && Rows() == rows
    {
      this.h := h;
      head, tranches, balances, keys := rows.head, rows.tranches, rows.balances, rows.keys;
    }

    /** INSERT of a tranche and its holds; a row already there undoes the lot. */
    method InsertTranche(t: Tranche, digest: string, next: Head) returns (ok: bool)
      modifies this
      ensures ok <==> PutTranche(old(Rows()), t, digest, next).Some?
      ensures Rows() == if ok then PutTranche(old(Rows()), t, digest, next).value else old(Rows())
    {
      if t.id in tranches { return false; }
      var before := balances;
      for i := 0 to |t.holds|
        invariant PutBalances(before, t.id, t.holds[..i], next.number) == Some(balances)
        invariant head == old(head) && tranches == old(tranches) && keys == old(keys)
      {
        assert t.holds[..i + 1][..i] == t.holds[..i];
        var slot := Slot(t.id, t.holds[i].hold, t.holds[i].amount.resource);
        if slot in balances {
          PutBalancesStops(before, t.id, t.holds, i + 1, next.number);
          balances := before;
          return false;
        }
        balances := balances[slot := HoldRow(t.holds[i], next.number)];
      }
      assert t.holds[..|t.holds|] == t.holds;
      tranches := tranches[t.id := TrancheRow(t.venture, t.mission, digest, next.number)];
      head := next;
      return true;
    }

    /** UPDATE of one balance and INSERT of one key, or nothing. */
    method ChargeDebit(d: Debit, digest: string, next: Head) returns (ok: bool)
      modifies this
      ensures ok <==> PutDebit(old(Rows()), d, digest, next).Some?
      ensures Rows() == if ok then PutDebit(old(Rows()), d, digest, next).value else old(Rows())
    {
      var slot := SlotOf(d);
      if slot !in balances { return false; }
      var row := balances[slot];
      var consumed := row.consumed + Units(d.amount);
      if row.unit != d.amount.unit || consumed > row.held { return false; }
      var before := balances;
      balances := balances[slot := row.(consumed := consumed, offset := next.number)];
      if d.key in keys {
        balances := before;
        return false;
      }
      keys := keys[d.key := Claim(digest, next.number)];
      head := next;
      return true;
    }

    /** applyEvent: all of an event's rows land, or none do. */
    method Land(e: PortEvent, at: Head) returns (ok: bool)
      modifies this
      ensures ok <==> ApplyEvent(h, old(Rows()), e, at).Some?
      ensures Rows() == if ok then ApplyEvent(h, old(Rows()), e, at).value else old(Rows())
    {
      if e.stream != STREAM || e.number != at.number + 1 { return false; }
      if !e.data.Obj? || Get(e.data, "prev") != Some(Str(at.digest)) { return false; }
      var next := Head(e.number, EventDigest(h, e.typ, e.data));
      if e.typ == TRANCHE_OPENED {
        var t := ReadTranche(Get(e.data, "tranche"));
        if t.None? || Incomplete(t.value) || Get(e.data, "digest") != Some(Str(EntryDigest(h, Opened(t.value)))) { return false; }
        ok := InsertTranche(t.value, EntryDigest(h, Opened(t.value)), next);
      } else if e.typ == DEBITED {
        var d := ParseDebit(Get(e.data, "debit"));
        if d.None? || d.value.pool != Pool(d.value.purpose) || Get(e.data, "digest") != Some(Str(EntryDigest(h, Debited(d.value)))) { return false; }
        ok := ChargeDebit(d.value, EntryDigest(h, Debited(d.value)), next);
      } else {
        ok := false;
      }
    }

    /** apply: the events in order, stopping where one throws. */
    method Apply(events: seq<PortEvent>, from: Head) returns (ok: bool)
      modifies this
      ensures (Rows(), ok) == ApplyAll(h, old(Rows()), events, from)
    {
      var at := from;
      for i := 0 to |events|
        invariant ApplyAll(h, old(Rows()), events, from) == ApplyAll(h, Rows(), events[i..], at)
      {
        assert events[i..][1..] == events[i + 1..];
        var landed := Land(events[i], at);
        if !landed { return false; }
        at := head;
      }
      return true;
    }

    /** reset: every table emptied. */
    method Reset()
      modifies this
      ensures Rows() == NO_ROWS
    {
      head, tranches, balances, keys := EMPTY, map[], map[], map[];
    }
  }

  // ------------------------------------------------------------------ the Journal's port

  /** What becomes of one call on the port. */
  datatype Fate = Works | Fails | AnswerLost

  datatype Proposed = Accepted(number: nat) | SeqConflict | Failed

  /**
   The one Journal stream every ledger shares. Before a call lands, other ledgers may have appended:
   `others` says what, for each moment and each Journal, and `fate` whether the call gets through.
   */
  class Journal {
    const h: Sha256
    const others: (nat, seq<PortEvent>) -> seq<PortEvent>
    const fate: nat -> Fate
    var events: seq<PortEvent>
    var clock: nat

    /** Other ledgers append only what ledgers append: events every ledger can fold. */
    ghost predicate Honest() {
      forall t, J :: JournalOk(h, J) ==> JournalOk(h, J + others(t, J))
    }

    ghost predicate Valid()
      reads this
    {
      Honest() && JournalOk(h, events)
    }

    /** No call fails, and no other ledger appends. */
    ghost predicate Quiet() {
      (forall t :: fate(t).Works?) && forall t, J :: others(t, J) == []
    }

    method Tick() returns (f: Fate)
      requires Valid()
      modifies this
      ensures Valid() && old(events) <= events
      ensures Quiet() ==> f.Works? && events == old(events)
    {
      events := events + others(clock, events);
      f := fate(clock);
      clock := clock + 1;
    }

    /** read: the events numbered `from` and up, or nothing when the read fails. */
    method Read(from: nat) returns (ok: bool, es: seq<PortEvent>)
      requires Valid() && from >= 1
      modifies this
      ensures Valid() && old(events) <= events
      ensures ok ==> es == if from <= |events| then events[from - 1..] else []
      ensures Quiet() ==> ok && events == old(events)
    {
      var f := Tick();
      ok, es := f.Works?, if from <= |events| then events[from - 1..] else [];
    }

    /** propose: appended exactly when the head is still `head`; the answer may be lost. */
    method Propose(head: nat, e: PortEvent) returns (r: Proposed)
      requires Valid() && head <= |events|
      requires |events| == head ==> JournalOk(h, events + [e])
      modifies this
      ensures Valid() && old(events) <= events
      ensures r.Accepted? ==> |old(events)| == head && r.number == head + 1 == |events| && events == old(events) + [e]
      ensures r == SeqConflict ==> |events| != head
      ensures Quiet() && |old(events)| == head ==> r.Accepted?
    {
      var f := Tick();
      if f.Fails? { return Failed; }
      if |events| != head { return SeqConflict; }
      assert events == old(events);
      events := events + [e];
      if f.AnswerLost? { return Failed; }
      return Accepted(|events|);
    }
  }

  /** The requests a ledger decides by appending, parsed. */
  function Decision(h: Sha256, st: Tables, x: Entry): Verdict {
    match x
    case Opened(t) => DecideOpen(h, st, t)
    case Debited(d) => DecideDebit(h, st, d)
  }

  /** The request is past the checks that need no Journal, and asks for `x`. */
  ghost predicate AsksFor(req: Request, x: Entry) {
    Precheck(req).None? && Addition(req) == Some(x)
  }

  lemma {:induction false} DecisionIsDecide(h: Sha256, st: Tables, req: Request, x: Entry)
    requires AsksFor(req, x)
    ensures Decision(h, st, x) == Decide(h, st, req)
    ensures Decision(h, st, x).Propose? ==> Decision(h, st, x).e == x
  {}

  /** The answer is uncertain, or right at one Journal prefix between `start` and now. */
  ghost predicate Answered(J: seq<PortEvent>, start: nat, req: Request, a: Answer) {
    start <= |J| && (a == Refused(Unavailable) || exists n :: TookEffectAt(J, Record(req, start, |J|, a), n))
  }

  lemma {:induction false} AnsweredLasts(J: seq<PortEvent>, K: seq<PortEvent>, start: nat, req: Request, a: Answer)
    requires Answered(J, start, req, a) && J <= K
    ensures Answered(K, start, req, a)
  {
    if a != Refused(Unavailable) {
      var n :| TookEffectAt(J, Record(req, start, |J|, a), n);
      EffectLasts(J, K, Record(req, start, |J|, a), n, |K|);
    }
  }

  /** Rows some Journal folds to: this one, another one, or one this has since lost events of. */
  ghost predicate Folded(h: Sha256, rows: Tables) {
    exists K :: JournalOk(h, K) && Fold(h, K) == Some(rows)
  }

  // ------------------------------------------------------------------ the ledger

  class Ledger {
    const h: Sha256
    const journal: Journal
    const store: Store
    const file: Store
    var closed: bool

    ghost predicate Valid()
      reads this, journal, store, file
    {
      && store != file && journal.h == h && store.h == h && file.h == h
      && journal.Valid()
      && Folded(h, store.Rows())
    }

    /** The store follows this Journal, and the file is a fold of it no shorter than the store. */
    ghost predicate Synced()
      reads this, journal, store, file
    {
      && StoreOk(h, journal.events, store.Rows())
      && StoreOk(h, journal.events, file.Rows())
      && store.head.number <= file.head.number
    }

    /** openLedger: an empty store in memory over whatever rows the file holds. */
    constructor (journal: Journal, file: Store)
      requires journal.Valid() && file.h == journal.h
      ensures Valid() && this.journal == journal && this.file == file && fresh(store) && !closed
      ensures store.Rows() == NO_ROWS
    {
      this.h, this.journal, this.file, this.closed := journal.h, journal, file, false;
      this.store := new Store(journal.h, NO_ROWS);
      new;
      assert Fold(h, []) == Some(NO_ROWS) && JournalOk(h, []);
    }

    /** mirror: the fresh events tried on the file; a file that is not the store is emptied and refilled. */
    method Mirror(news: seq<PortEvent>, before: Head) returns (ok: bool)
      requires Valid() && StoreOk(h, journal.events, store.Rows())
      modifies journal, file
      ensures Valid() && old(journal.events) <= journal.events
      ensures ok ==> Synced()
      ensures journal.Quiet() ==> ok && journal.events == old(journal.events)
    {
      if news != [] && file.head == before {
        var _ := file.Apply(news, before);
      }
      if file.Rows() == store.Rows() { return true; }
      file.Reset();
      var read, all := journal.Read(1);
      StoreLasts(h, old(journal.events), journal.events, store.Rows());
      if !read { return false; }
      assert journal.events[..0] == [] && journal.events[0..] == journal.events;
      ApplyAllFolds(h, journal.events, 0);
      ok := file.Apply(all, EMPTY);
      WholeJournal(h, journal.events, file.Rows());
    }

    /** The stored tip is this Journal's: only the events after it are applied. */
    method Resume(news: seq<PortEvent>) returns (ok: bool)
      requires Valid() && TipMatches(h, store.Rows(), journal.events)
      requires news == journal.events[store.head.number..]
      modifies journal, store, file
      ensures Valid() && old(journal.events) <= journal.events
      ensures ok ==> Synced() && |old(journal.events)| <= store.head.number
      ensures journal.Quiet() ==> ok && journal.events == old(journal.events)
    {
      ghost var K :| JournalOk(h, K) && Fold(h, K) == Some(store.Rows());
      RebuildsOn(h, K, journal.events);
      var at := store.head;
      var landed := store.Apply(news, at);
      if !landed { return false; }
      ok := Mirror(news, at);
    }

    /** The store is folded from the Journal's first event. */
    method Rebuild() returns (ok: bool)
      requires Valid() && store.Rows() == NO_ROWS
      modifies journal, store, file
      ensures Valid() && old(journal.events) <= journal.events
      ensures ok ==> Synced() && |old(journal.events)| <= store.head.number
      ensures journal.Quiet() ==> ok && journal.events == old(journal.events)
    {
      var read, all := journal.Read(1);
      if !read { return false; }
      RebuildsFromNothing(h, journal.events);
      assert all == journal.events;
      var landed := store.Apply(all, EMPTY);
      if !landed { return false; }
      ok := Mirror(all, EMPTY);
    }

    /** catchUp: the store at the Journal's head, rebuilt when its tip is not this Journal's; then the file. */
    method CatchUp() returns (ok: bool)
      requires Valid()
      modifies journal, store, file
      ensures Valid() && old(journal.events) <= journal.events
      ensures ok ==> Synced() && |old(journal.events)| <= store.head.number
      ensures journal.Quiet() ==> ok && journal.events == old(journal.events)
    {
      var at := store.head;
      if at.number > 0 {
        var read, tail := journal.Read(at.number);
        if !read { return false; }
        if tail != [] && tail[0].number == at.number && tail[0].stream == STREAM && EventDigest(h, tail[0].typ, tail[0].data) == at.digest {
          ok := Resume(tail[1..]);
          return;
        }
        store.Reset();
        NothingFolds(h);
      } else {
        HeadlessIsEmpty(h, store.Rows());
      }
      ok := Rebuild();
    }

    /** The append of one attempt; None is a lost compare-and-swap. */
    method Append(e: PortEvent, ghost req: Request, ghost start: nat) returns (a: Option<Answer>)
      requires Valid() && Synced()
      requires |journal.events| == store.head.number ==> Grants(h, journal.events, e, start, req)
      modifies journal, store, file
      ensures Valid() && old(journal.events) <= journal.events
      ensures a.Some? ==> Answered(journal.events, start, req, a.value) || a.value == Refused(Unavailable)
      ensures journal.Quiet() && |old(journal.events)| == old(store.head.number) ==> a.Some? && a.value != Refused(Unavailable)
    {
      var head := store.head;
      var r := journal.Propose(head.number, e);
      if r == SeqConflict { return None; }
      if r.Failed? || r.number != head.number + 1 { return Some(Refused(Unavailable)); }
      ghost var J := journal.events;
      var _ := CatchUp();
      AnsweredLasts(J, journal.events, start, req, Granted(r.number, false));
      return Some(Granted(r.number, false));
    }

    /** One turn of admit's loop; None asks for another. */
    method Attempt(x: Entry, ghost req: Request, ghost start: nat) returns (a: Option<Answer>)
      requires Valid() && AsksFor(req, x) && start <= |journal.events|
      modifies journal, store, file
      ensures Valid() && old(journal.events) <= journal.events
      ensures a.Some? ==> Answered(journal.events, start, req, a.value)
      ensures journal.Quiet() ==> a.Some? && a.value != Refused(Unavailable)
    {
      var ready := CatchUp();
      if !ready { return Some(Refused(Unavailable)); }
      DecisionIsDecide(h, store.Rows(), req, x);
      var v := Decision(h, store.Rows(), x);
      if v.Final? {
        DecisionTakesEffect(h, journal.events, store.Rows(), req, start);
        return Some(v.a);
      }
      GrantByAppend(h, journal.events, store.Rows(), req, x, start);
      a := Append(EventFor(h, store.head, x), req, start);
    }

    /** admit: decide at the Journal's head and append there, deciding again whenever the head had moved. */
    method Admit(x: Entry, ghost req: Request) returns (a: Answer)
      requires Valid() && AsksFor(req, x)
      modifies journal, store, file
      ensures Valid() && old(journal.events) <= journal.events
      ensures Answered(journal.events, |old(journal.events)|, req, a)
      ensures journal.Quiet() ==> a != Refused(Unavailable)
    {
      for i := 0 to MAX_ATTEMPTS
        invariant Valid() && old(journal.events) <= journal.events
        invariant journal.Quiet() ==> i == 0
      {
        var answer := Attempt(x, req, |old(journal.events)|);
        if answer.Some? { return answer.value; }
      }
      return Refused(Unavailable);
    }

    /** openTranche */
    method OpenTranche(raw: Option<Json>) returns (a: Answer)
      requires Valid()
      modifies journal, store, file
      ensures Valid() && old(journal.events) <= journal.events
      ensures closed ==> a == Refused(Unavailable)
      ensures Answered(journal.events, |old(journal.events)|, BudgetSpec.OpenTranche(raw), a)
      ensures journal.Quiet() && !closed ==> a != Refused(Unavailable)
    {
      if closed { return Refused(Unavailable); }
      var t := ReadTranche(raw);
      if t.None? {
        RefusedBeforehand(journal.events, BudgetSpec.OpenTranche(raw));
        return Refused(Invalid);
      }
      if Incomplete(t.value) {
        RefusedBeforehand(journal.events, BudgetSpec.OpenTranche(raw));
        return Refused(IncompleteTranche);
      }
      a := Admit(Opened(t.value), BudgetSpec.OpenTranche(raw));
    }

    /** debit */
    method MakeDebit(raw: Option<Json>) returns (a: Answer)
      requires Valid()
      modifies journal, store, file
      ensures Valid() && old(journal.events) <= journal.events
      ensures closed ==> a == Refused(Unavailable)
      ensures Answered(journal.events, |old(journal.events)|, BudgetSpec.MakeDebit(raw), a)
      ensures journal.Quiet() && !closed ==> a != Refused(Unavailable)
    {
      if closed { return Refused(Unavailable); }
      var d := ParseDebit(raw);
      if d.None? {
        RefusedBeforehand(journal.events, BudgetSpec.MakeDebit(raw));
        return Refused(Invalid);
      }
      if d.value.pool != Pool(d.value.purpose) {
        RefusedBeforehand(journal.events, BudgetSpec.MakeDebit(raw));
        return Refused(PoolMismatch);
      }
      a := Admit(Debited(d.value), BudgetSpec.MakeDebit(raw));
    }

    /** balance: what one hold has left; `unavailable` stands for the thrown ErrUnavailable. */
    method ReadBalance(slot: Slot) returns (a: Answer)
      requires Valid()
      modifies journal, store, file
      ensures Valid() && old(journal.events) <= journal.events
      ensures closed ==> a == Refused(Unavailable)
      ensures Answered(journal.events, |old(journal.events)|, BudgetSpec.ReadBalance(slot), a)
      ensures journal.Quiet() && !closed ==> a != Refused(Unavailable)
    {
      if closed { return Refused(Unavailable); }
      var ready := CatchUp();
      if !ready { return Refused(Unavailable); }
      DecisionTakesEffect(h, journal.events, store.Rows(), BudgetSpec.ReadBalance(slot), |old(journal.events)|);
      return DecideBalance(store.Rows(), slot).a;
    }

    /** close: every later call is refused. */
    method Close()
      requires Valid()
      modifies this
      ensures Valid() && closed
    {
      closed := true;
    }
  }

  lemma {:induction false} RefusedBeforehand(J: seq<PortEvent>, req: Request)
    requires Precheck(req).Some?
    ensures Answered(J, |J|, req, Refused(Precheck(req).value))
  {
    PrecheckIsAnswer(History(J[..|J|]), req);
    assert TookEffectAt(J, Record(req, |J|, |J|, Refused(Precheck(req).value)), |J|);
  }

  /** Appending `e` keeps the Journal foldable and is the grant the request asked for. */
  ghost predicate Grants(h: Sha256, J: seq<PortEvent>, e: PortEvent, start: nat, req: Request) {
    JournalOk(h, J + [e]) && Answered(J + [e], start, req, Granted(|J| + 1, false))
  }

  /** Appending the proposed event at the head decided at keeps the Journal foldable and is the grant. */
  lemma {:induction false} GrantByAppend(h: Sha256, J: seq<PortEvent>, store: Tables, req: Request, x: Entry, start: nat)
    requires JournalOk(h, J) && StoreOk(h, J, store) && start <= store.head.number
    requires Decide(h, store, req) == Propose(x)
    ensures |J| == store.head.number ==> Grants(h, J, EventFor(h, store.head, x), start, req)
  {
    if |J| == store.head.number { AppendOk(h, J, store, req, x, start); }
  }

  lemma {:induction false} NothingFolds(h: Sha256)
    ensures Folded(h, NO_ROWS)
  {
    assert Fold(h, []) == Some(NO_ROWS) && JournalOk(h, []);
  }

  lemma {:induction false} HeadlessIsEmpty(h: Sha256, rows: Tables)
    requires Folded(h, rows) && rows.head.number == 0
    ensures rows == NO_ROWS
  {
    var K :| JournalOk(h, K) && Fold(h, K) == Some(rows);
    FoldMeaning(h, K);
  }

  lemma {:induction false} WholeJournal(h: Sha256, J: seq<PortEvent>, rows: Tables)
    requires JournalOk(h, J) && Fold(h, J) == Some(rows)
    ensures rows.head.number == |J| && StoreOk(h, J, rows)
  {
    FoldMeaning(h, J);
    assert J[..|J|] == J;
  }

  lemma {:induction false} RebuildsOn(h: Sha256, K: seq<PortEvent>, J: seq<PortEvent>)
    requires JournalOk(h, K) && JournalOk(h, J) && TipMatches(h, Fold(h, K).value, J)
    ensures var st := Fold(h, K).value;
      var (rows, ok) := ApplyAll(h, st, J[st.head.number..], st.head);
      ok && Folded(h, rows) && StoreOk(h, J, rows) && rows.head.number == |J|
  {
    FoldChains(h, J);
    CatchUpRebuilds(h, K, J);
    FoldedPrefix(h, J, CaughtUp(h, Fold(h, K).value, J).0);
    WholeJournal(h, J, CaughtUp(h, Fold(h, K).value, J).0);
  }

  lemma {:induction false} RebuildsFromNothing(h: Sha256, J: seq<PortEvent>)
    requires JournalOk(h, J)
    ensures var (rows, ok) := ApplyAll(h, NO_ROWS, J, EMPTY);
      ok && Folded(h, rows) && StoreOk(h, J, rows) && rows.head.number == |J|
  {
    assert J[..0] == [] && J[0..] == J;
    ApplyAllFolds(h, J, 0);
    WholeJournal(h, J, Fold(h, J).value);
    FoldedPrefix(h, J, Fold(h, J).value);
  }

  lemma {:induction false} FoldedPrefix(h: Sha256, J: seq<PortEvent>, rows: Tables)
    requires JournalOk(h, J) && StoreOk(h, J, rows)
    ensures Folded(h, rows)
  {
    assert JournalOk(h, J[..rows.head.number]);
  }
}
