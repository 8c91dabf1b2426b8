/**
 Any number of ledgers over one append-only Journal, one step at a time: reads, the file's repair,
 decisions, compare-and-swap appends, lost acknowledgements, failures, restarts and edits of the
 files (userland/src/budget.ts, `admit`, `catchUp` and `mirror`).
 */
module BudgetSystem {
  import opened JsonText
  import opened Options
  import opened BudgetNouns
  import opened BudgetSpec
  import opened BudgetStore
  import opened BudgetChain

  const MAX_ATTEMPTS: nat := 16

  /** Where one ledger is in the one operation it runs at a time. `start` is the Journal's length at the call. */
  datatype Stage =
    | Idle
    | Reading(req: Request, start: nat, tries: nat)
    | Mirroring(req: Request, start: nat, tries: nat, news: seq<PortEvent>, before: Head)
    | Deciding(req: Request, start: nat, tries: nat)
    | Proposing(req: Request, start: nat, tries: nat, entry: Entry)
    | Settling(req: Request, start: nat, answer: Answer)

  /** One ledger: its in-memory store, the file beside it, and its stage. */
  datatype Proc = Proc(store: Tables, file: Tables, stage: Stage)

  /** A finished call: the Journal's length when it was made and when it returned, and its answer. */
  datatype Record = Record(req: Request, start: nat, stop: nat, answer: Answer)

  datatype Sys = Sys(J: seq<PortEvent>, procs: map<nat, Proc>, done: seq<Record>)

  datatype Label =
    | Open(p: nat, file: Tables)          // a ledger opens, or crashes and opens again, over any file
    | Tamper(p: nat, file: Tables)        // the file is edited
    | Call(p: nat, req: Request)
    | ReadOk(p: nat)
    | ReadFail(p: nat)
    | Mirror(p: nat, readOk: bool)
    | MakeDecision(p: nat)
    | ProposeAck(p: nat)                  // appended and acknowledged
    | ProposeLost(p: nat)                 // appended, the acknowledgement lost
    | ProposeFail(p: nat)                 // not appended, reported as failed
    | ProposeConflict(p: nat)             // the head had moved
    | Settle(p: nat, readOk: bool, file: Tables) // the courtesy catch-up after a grant

  /** The answers given before the Journal is looked at. */
  ghost function Precheck(req: Request): Option<RefusalCode> {
    match req
    case OpenTranche(raw) =>
      if ParseTranche(raw).None? then Some(Invalid)
      else if Incomplete(ParseTranche(raw).value) then Some(IncompleteTranche)
      else None
    case MakeDebit(raw) =>
      if ParseDebit(raw).None? then Some(Invalid)
      else if ParseDebit(raw).value.pool != Pool(ParseDebit(raw).value.purpose) then Some(PoolMismatch)
      else None
    case ReadBalance(_) => None
  }

  /** mirror: the file once the fresh events are tried on it; refilled from a second read when it is not the store. */
  ghost function Mirrored(h: Sha256, file: Tables, store: Tables, news: seq<PortEvent>, before: Head,
                          J: seq<PortEvent>, readOk: bool): (Tables, bool)
  {
    var tried := if news != [] && file.head == before then ApplyAll(h, file, news, before).0 else file;
    if tried == store then (tried, true)
    else if !readOk then (NO_ROWS, false)
    else ApplyAll(h, NO_ROWS, J, EMPTY)
  }

  function Put(s: Sys, p: nat, q: Proc): Sys {
    s.(procs := s.procs[p := q])
  }

  function Finish(s: Sys, p: nat, q: Proc, req: Request, start: nat, a: Answer): Sys {
    Sys(s.J, s.procs[p := q.(stage := Idle)], s.done + [Record(req, start, |s.J|, a)])
  }

  /** What one label does, or None where it cannot happen. */
  ghost function Step(h: Sha256, s: Sys, l: Label): Option<Sys> {
    if l.Open? then Some(Put(s, l.p, Proc(NO_ROWS, l.file, Idle)))
    else if l.p !in s.procs then None
    else
      var q := s.procs[l.p];
      match l
      case Open(_, _) => None
      case Tamper(p, file) => Some(Put(s, p, q.(file := file)))
      case Call(p, req) => StepCall(s, p, q, req)
      case ReadOk(p) => StepRead(h, s, p, q)
      case ReadFail(p) => if q.stage.Reading? then Some(Finish(s, p, q, q.stage.req, q.stage.start, Refused(Unavailable))) else None
      case Mirror(p, readOk) => StepMirror(h, s, p, q, readOk)
      case MakeDecision(p) => StepDecide(h, s, p, q)
      case ProposeAck(p) => StepPropose(h, s, p, q, true)
      case ProposeLost(p) => StepPropose(h, s, p, q, false)
      case ProposeFail(p) => if q.stage.Proposing? then Some(Finish(s, p, q, q.stage.req, q.stage.start, Refused(Unavailable))) else None
      case ProposeConflict(p) => StepConflict(s, p, q)
      case Settle(p, readOk, file) => StepSettle(h, s, p, q, readOk, file)
  }

  ghost function StepCall(s: Sys, p: nat, q: Proc, req: Request): Option<Sys> {
    if !q.stage.Idle? then None
    else if Precheck(req).Some? then Some(Finish(s, p, q, req, |s.J|, Refused(Precheck(req).value)))
    else Some(Put(s, p, q.(stage := Reading(req, |s.J|, 0))))
  }

  ghost function StepRead(h: Sha256, s: Sys, p: nat, q: Proc): Option<Sys> {
    if !q.stage.Reading? then None
    else
      var (store, ok) := CaughtUp(h, q.store, s.J);
      if !ok then Some(Finish(s, p, q.(store := store), q.stage.req, q.stage.start, Refused(Unavailable)))
      else
        var before := if TipMatches(h, q.store, s.J) then q.store.head else EMPTY;
        Some(Put(s, p, Proc(store, q.file, Mirroring(q.stage.req, q.stage.start, q.stage.tries, s.J[before.number..], before))))
  }

  ghost function StepMirror(h: Sha256, s: Sys, p: nat, q: Proc, readOk: bool): Option<Sys> {
    if !q.stage.Mirroring? then None
    else
      var (file, ok) := Mirrored(h, q.file, q.store, q.stage.news, q.stage.before, s.J, readOk);
      if ok then Some(Put(s, p, Proc(q.store, file, Deciding(q.stage.req, q.stage.start, q.stage.tries))))
      else Some(Finish(s, p, q.(file := file), q.stage.req, q.stage.start, Refused(Unavailable)))
  }

  ghost function StepDecide(h: Sha256, s: Sys, p: nat, q: Proc): Option<Sys> {
    if !q.stage.Deciding? then None
    else
      var v := Decide(h, q.store, q.stage.req);
      if v.Final? then Some(Finish(s, p, q, q.stage.req, q.stage.start, v.a))
      else Some(Put(s, p, q.(stage := Proposing(q.stage.req, q.stage.start, q.stage.tries, v.e))))
  }

  /** An append: accepted exactly when the Journal's head is still the one decided at. */
  ghost function StepPropose(h: Sha256, s: Sys, p: nat, q: Proc, acked: bool): Option<Sys> {
    if !q.stage.Proposing? || |s.J| != q.store.head.number then None
    else
      var t := s.(J := s.J + [EventFor(h, q.store.head, q.stage.entry)]);
      if acked then Some(Put(t, p, q.(stage := Settling(q.stage.req, q.stage.start, Granted(|s.J| + 1, false)))))
      else Some(Finish(t, p, q, q.stage.req, q.stage.start, Refused(Unavailable)))
  }

  ghost function StepConflict(s: Sys, p: nat, q: Proc): Option<Sys> {
    if !q.stage.Proposing? || |s.J| == q.store.head.number then None
    else if q.stage.tries + 1 < MAX_ATTEMPTS then Some(Put(s, p, q.(stage := Reading(q.stage.req, q.stage.start, q.stage.tries + 1))))
    else Some(Finish(s, p, q, q.stage.req, q.stage.start, Refused(Unavailable)))
  }

  ghost function StepSettle(h: Sha256, s: Sys, p: nat, q: Proc, readOk: bool, file: Tables): Option<Sys> {
    if !q.stage.Settling? then None
    else
      var store := if readOk then CaughtUp(h, q.store, s.J).0 else q.store;
      Some(Finish(s, p, Proc(store, file, q.stage), q.stage.req, q.stage.start, q.stage.answer))
  }

  /** The system after a run of labels from no ledgers and an empty Journal. */
  ghost function Run(h: Sha256, ls: seq<Label>): Option<Sys> {
    if ls == [] then Some(Sys([], map[], []))
    else
      var s := Run(h, ls[..|ls| - 1]);
      if s.None? then None else Step(h, s.value, ls[|ls| - 1])
  }

  // ------------------------------------------------------------------ linearizability

  /** The call took effect at the Journal prefix of length `n`. */
  ghost predicate TookEffectAt(J: seq<PortEvent>, r: Record, n: nat) {
    && r.start <= n <= r.stop && n <= |J|
    && SpecAnswer(History(J[..n]), r.req) == r.answer
    && (r.answer.Granted? && !r.answer.replayed ==>
         n < |J| && n < r.stop && r.answer.point == n + 1 && Addition(r.req).Some? && EntryOf(J[n]) == Addition(r.req))
  }

  /** The call reported uncertainty, or took effect at one moment between its call and its return. */
  ghost predicate Linear(J: seq<PortEvent>, r: Record) {
    && r.start <= r.stop <= |J|
    && (r.answer == Refused(Unavailable) || exists n :: TookEffectAt(J, r, n))
  }

  ghost predicate JournalOk(h: Sha256, J: seq<PortEvent>) {
    Fold(h, J).Some? && WellFormedEvents(J)
  }

  /** The store is the fold of a prefix of the Journal. */
  ghost predicate StoreOk(h: Sha256, J: seq<PortEvent>, store: Tables) {
    store.head.number <= |J| && Fold(h, J[..store.head.number]) == Some(store)
  }

  ghost predicate StageOk(h: Sha256, J: seq<PortEvent>, q: Proc) {
    match q.stage
    case Idle => true
    case Reading(req, start, _) => start <= |J| && Precheck(req).None?
    case Mirroring(req, start, _, _, _) => start <= q.store.head.number && Precheck(req).None?
    case Deciding(req, start, _) => start <= q.store.head.number && Precheck(req).None?
    case Proposing(req, start, _, entry) => start <= q.store.head.number && Decide(h, q.store, req) == Propose(entry)
    case Settling(req, start, answer) => Linear(J, Record(req, start, |J|, answer)) && answer != Refused(Unavailable)
  }

  ghost predicate Inv(h: Sha256, s: Sys) {
    && JournalOk(h, s.J)
    && (forall p :: p in s.procs ==> StoreOk(h, s.J, s.procs[p].store) && StageOk(h, s.J, s.procs[p]))
    && (forall i :: 0 <= i < |s.done| ==> Linear(s.J, s.done[i]))
  }

  lemma {:induction false} EffectLasts(J: seq<PortEvent>, K: seq<PortEvent>, r: Record, n: nat, stop: nat)
    requires TookEffectAt(J, r, n) && J <= K && r.stop <= stop
    ensures TookEffectAt(K, r.(stop := stop), n)
  {
    assert K[..n] == J[..n];
  }

  lemma {:induction false} LinearLasts(J: seq<PortEvent>, K: seq<PortEvent>, r: Record, stop: nat)
    requires Linear(J, r) && J <= K && r.stop <= stop <= |K|
    ensures Linear(K, r.(stop := stop))
  {
    if r.answer != Refused(Unavailable) {
      var n :| TookEffectAt(J, r, n);
      EffectLasts(J, K, r, n, stop);
    }
  }

  lemma {:induction false} StoreLasts(h: Sha256, J: seq<PortEvent>, K: seq<PortEvent>, store: Tables)
    requires StoreOk(h, J, store) && J <= K
    ensures StoreOk(h, K, store)
  {
    assert K[..store.head.number] == J[..store.head.number];
  }

  lemma {:induction false} StageLasts(h: Sha256, J: seq<PortEvent>, K: seq<PortEvent>, q: Proc)
    requires StageOk(h, J, q) && J <= K
    ensures StageOk(h, K, q)
  {
    if q.stage.Settling? { LinearLasts(J, K, Record(q.stage.req, q.stage.start, |J|, q.stage.answer), |K|); }
  }

  /** Catching up leaves a fold of a prefix, and of the whole Journal when it gets to its end. */
  lemma {:induction false} CatchUpOk(h: Sha256, J: seq<PortEvent>, store: Tables)
    requires JournalOk(h, J) && StoreOk(h, J, store)
    ensures CaughtUp(h, store, J).1 && Some(CaughtUp(h, store, J).0) == Fold(h, J)
    ensures StoreOk(h, J, CaughtUp(h, store, J).0) && CaughtUp(h, store, J).0.head.number == |J|
  {
    FoldChains(h, J);
    var K := J[..store.head.number];
    assert WellFormedEvents(K);
    CatchUpRebuilds(h, K, J);
    assert J[..|J|] == J;
  }

  lemma {:induction false} PrecheckIsAnswer(H: seq<Entry>, req: Request)
    requires Precheck(req).Some?
    ensures SpecAnswer(H, req) == Refused(Precheck(req).value)
  {}

  /** A decision made on the fold of a prefix is the answer of the requests granted in that prefix. */
  lemma {:induction false} DecisionIsAnswer(h: Sha256, J: seq<PortEvent>, store: Tables, req: Request)
    requires StoreOk(h, J, store)
    ensures Legal(History(J[..store.head.number])) && |History(J[..store.head.number])| == store.head.number
    ensures VerdictAgrees(Decide(h, store, req), History(J[..store.head.number]), req)
    ensures Meaning(Digests(h), store, History(J[..store.head.number]))
  {
    var K := J[..store.head.number];
    FoldMeaning(h, K);
    DecideAgrees(h, store, History(K), req);
  }

  lemma {:induction false} FinalIsNotFresh(h: Sha256, store: Tables, req: Request)
    requires Decide(h, store, req).Final?
    ensures var a := Decide(h, store, req).a; a.Granted? ==> a.replayed
  {}

  lemma {:induction false} EventForWellFormed(h: Sha256, head: Head, e: Entry)
    ensures WellFormed(EventFor(h, head, e).data)
  {
    EntryJsonWellFormed(e);
  }

  lemma {:induction false} AppendFolds(h: Sha256, J: seq<PortEvent>, store: Tables, entry: Entry)
    requires JournalOk(h, J) && Fold(h, J) == Some(store)
    requires Legal(History(J)) && Meaning(Digests(h), store, History(J)) && Admissible(History(J), entry)
    ensures JournalOk(h, J + [EventFor(h, store.head, entry)])
    ensures EntryOf(EventFor(h, store.head, entry)) == Some(entry)
  {
    EventForLands(h, store, History(J), entry);
    EventForWellFormed(h, store.head, entry);
    FoldSnoc(h, J, EventFor(h, store.head, entry));
  }

  lemma {:induction false} FoldSnoc(h: Sha256, J: seq<PortEvent>, e: PortEvent)
    requires Fold(h, J).Some?
    ensures Fold(h, J + [e]) == ApplyEvent(h, Fold(h, J).value, e, Fold(h, J).value.head)
  {
    assert (J + [e])[..|J|] == J;
  }

  /** An accepted append extends the Journal with an event every ledger can fold, and is the grant. */
  lemma {:induction false} AppendOk(h: Sha256, J: seq<PortEvent>, store: Tables, req: Request, entry: Entry, start: nat)
    requires JournalOk(h, J) && StoreOk(h, J, store) && |J| == store.head.number && start <= |J|
    requires Decide(h, store, req) == Propose(entry)
    ensures var K := J + [EventFor(h, store.head, entry)];
      JournalOk(h, K) && TookEffectAt(K, Record(req, start, |K|, Granted(|J| + 1, false)), |J|)
  {
    var K := J + [EventFor(h, store.head, entry)];
    assert J[..|J|] == J;
    DecisionIsAnswer(h, J, store, req);
    AppendFolds(h, J, store, entry);
    assert K[..|J|] == J;
  }

  // ------------------------------------------------------------------ every step keeps the invariant

  lemma {:induction false} PutKeeps(h: Sha256, s: Sys, p: nat, q: Proc)
    requires Inv(h, s) && StoreOk(h, s.J, q.store) && StageOk(h, s.J, q)
    ensures Inv(h, Put(s, p, q))
  {}

  lemma {:induction false} FinishKeeps(h: Sha256, s: Sys, p: nat, q: Proc, req: Request, start: nat, a: Answer)
    requires Inv(h, s) && StoreOk(h, s.J, q.store) && Linear(s.J, Record(req, start, |s.J|, a))
    ensures Inv(h, Finish(s, p, q, req, start, a))
  {}

  lemma {:induction false} GrowKeeps(h: Sha256, s: Sys, K: seq<PortEvent>)
    requires Inv(h, s) && s.J <= K && JournalOk(h, K)
    ensures Inv(h, s.(J := K))
  {
    forall p | p in s.procs ensures StoreOk(h, K, s.procs[p].store) && StageOk(h, K, s.procs[p]) {
      StoreLasts(h, s.J, K, s.procs[p].store);
      StageLasts(h, s.J, K, s.procs[p]);
    }
    forall i | 0 <= i < |s.done| ensures Linear(K, s.done[i]) {
      LinearLasts(s.J, K, s.done[i], s.done[i].stop);
    }
  }

  lemma {:induction false} CallKeeps(h: Sha256, s: Sys, p: nat, q: Proc, req: Request)
    requires Inv(h, s) && p in s.procs && q == s.procs[p] && StepCall(s, p, q, req).Some?
    ensures Inv(h, StepCall(s, p, q, req).value)
  {
    if Precheck(req).Some? {
      PrecheckIsAnswer(History(s.J[..|s.J|]), req);
      assert TookEffectAt(s.J, Record(req, |s.J|, |s.J|, Refused(Precheck(req).value)), |s.J|);
      FinishKeeps(h, s, p, q, req, |s.J|, Refused(Precheck(req).value));
    }
  }

  lemma {:induction false} ReadKeeps(h: Sha256, s: Sys, p: nat, q: Proc)
    requires Inv(h, s) && p in s.procs && q == s.procs[p] && StepRead(h, s, p, q).Some?
    ensures Inv(h, StepRead(h, s, p, q).value)
  {
    CatchUpOk(h, s.J, q.store);
    var store := CaughtUp(h, q.store, s.J).0;
    var before := if TipMatches(h, q.store, s.J) then q.store.head else EMPTY;
    PutKeeps(h, s, p, Proc(store, q.file, Mirroring(q.stage.req, q.stage.start, q.stage.tries, s.J[before.number..], before)));
  }

  lemma {:induction false} DecisionTakesEffect(h: Sha256, J: seq<PortEvent>, store: Tables, req: Request, start: nat)
    requires StoreOk(h, J, store) && start <= store.head.number && Decide(h, store, req).Final?
    ensures TookEffectAt(J, Record(req, start, |J|, Decide(h, store, req).a), store.head.number)
  {
    DecisionIsAnswer(h, J, store, req);
    FinalIsNotFresh(h, store, req);
  }

  lemma {:induction false} DecideKeeps(h: Sha256, s: Sys, p: nat, q: Proc)
    requires Inv(h, s) && p in s.procs && q == s.procs[p] && StepDecide(h, s, p, q).Some?
    ensures Inv(h, StepDecide(h, s, p, q).value)
  {
    var req, start := q.stage.req, q.stage.start;
    var v := Decide(h, q.store, req);
    if v.Final? {
      DecisionTakesEffect(h, s.J, q.store, req, start);
      FinishKeeps(h, s, p, q, req, start, v.a);
    } else {
      PutKeeps(h, s, p, q.(stage := Proposing(req, start, q.stage.tries, v.e)));
    }
  }

  lemma {:induction false} ProposeKeeps(h: Sha256, s: Sys, p: nat, q: Proc, acked: bool)
    requires Inv(h, s) && p in s.procs && q == s.procs[p] && StepPropose(h, s, p, q, acked).Some?
    ensures Inv(h, StepPropose(h, s, p, q, acked).value)
  {
    var K := s.J + [EventFor(h, q.store.head, q.stage.entry)];
    AppendOk(h, s.J, q.store, q.stage.req, q.stage.entry, q.stage.start);
    GrowKeeps(h, s, K);
    StoreLasts(h, s.J, K, q.store);
    var t := s.(J := K);
    if acked {
      assert TookEffectAt(K, Record(q.stage.req, q.stage.start, |K|, Granted(|s.J| + 1, false)), |s.J|);
      PutKeeps(h, t, p, q.(stage := Settling(q.stage.req, q.stage.start, Granted(|s.J| + 1, false))));
    } else {
      FinishKeeps(h, t, p, q, q.stage.req, q.stage.start, Refused(Unavailable));
    }
  }

  lemma {:induction false} ConflictKeeps(h: Sha256, s: Sys, p: nat, q: Proc)
    requires Inv(h, s) && p in s.procs && q == s.procs[p] && StepConflict(s, p, q).Some?
    ensures Inv(h, StepConflict(s, p, q).value)
  {
    if q.stage.tries + 1 < MAX_ATTEMPTS {
      ProposedPassed(h, q.store, q.stage.req, q.stage.entry);
    }
  }

  lemma {:induction false} ProposedPassed(h: Sha256, store: Tables, req: Request, entry: Entry)
    requires Decide(h, store, req) == Propose(entry)
    ensures Precheck(req).None?
  {}

  lemma {:induction false} SettleKeeps(h: Sha256, s: Sys, p: nat, q: Proc, readOk: bool, file: Tables)
    requires Inv(h, s) && p in s.procs && q == s.procs[p] && StepSettle(h, s, p, q, readOk, file).Some?
    ensures Inv(h, StepSettle(h, s, p, q, readOk, file).value)
  {
    CatchUpOk(h, s.J, q.store);
    var store := if readOk then CaughtUp(h, q.store, s.J).0 else q.store;
    FinishKeeps(h, s, p, Proc(store, file, q.stage), q.stage.req, q.stage.start, q.stage.answer);
  }

  /** Whatever happens next, the Journal stays foldable, every store a prefix of it, every answer linear. */
  lemma {:induction false} StepKeeps(h: Sha256, s: Sys, l: Label)
    requires Inv(h, s) && Step(h, s, l).Some?
    ensures Inv(h, Step(h, s, l).value)
  {
    if l.Open? {
      assert s.J[..0] == [];
      PutKeeps(h, s, l.p, Proc(NO_ROWS, l.file, Idle));
    } else {
      var q := s.procs[l.p];
      match l
      case Tamper(p, file) => PutKeeps(h, s, p, q.(file := file));
      case Call(p, req) => CallKeeps(h, s, p, q, req);
      case ReadOk(p) => ReadKeeps(h, s, p, q);
      case MakeDecision(p) => DecideKeeps(h, s, p, q);
      case ProposeAck(p) => ProposeKeeps(h, s, p, q, true);
      case ProposeLost(p) => ProposeKeeps(h, s, p, q, false);
      case ProposeConflict(p) => ConflictKeeps(h, s, p, q);
      case Settle(p, readOk, file) => SettleKeeps(h, s, p, q, readOk, file);
      case _ => QuietKeeps(h, s, l);
    }
  }

  /** The steps that read nothing new: a failure reported, or the file repaired. */
  lemma {:induction false} QuietKeeps(h: Sha256, s: Sys, l: Label)
    requires Inv(h, s) && Step(h, s, l).Some? && (l.ReadFail? || l.ProposeFail? || l.Mirror?)
    ensures Inv(h, Step(h, s, l).value)
  {
    var q := s.procs[l.p];
    if l.Mirror? {
      var (file, ok) := Mirrored(h, q.file, q.store, q.stage.news, q.stage.before, s.J, l.readOk);
      if ok { PutKeeps(h, s, l.p, Proc(q.store, file, Deciding(q.stage.req, q.stage.start, q.stage.tries))); }
      else { FinishKeeps(h, s, l.p, q.(file := file), q.stage.req, q.stage.start, Refused(Unavailable)); }
    } else {
      FinishKeeps(h, s, l.p, q, q.stage.req, q.stage.start, Refused(Unavailable));
    }
  }

  /** In every run of any number of ledgers, every reachable state satisfies the invariant. */
  lemma {:induction false} RunInvariant(h: Sha256, ls: seq<Label>)
    requires Run(h, ls).Some?
    ensures Inv(h, Run(h, ls).value)
  {
    if ls != [] {
      RunInvariant(h, ls[..|ls| - 1]);
      StepKeeps(h, Run(h, ls[..|ls| - 1]).value, ls[|ls| - 1]);
    }
  }

  lemma {:induction false} StepGrows(h: Sha256, s: Sys, l: Label)
    requires Step(h, s, l).Some?
    ensures s.J <= Step(h, s, l).value.J
  {}

  lemma {:induction false} PrefixRuns(h: Sha256, ls: seq<Label>, n: nat)
    requires Run(h, ls).Some? && n <= |ls|
    ensures Run(h, ls[..n]).Some? && Run(h, ls[..n]).value.J <= Run(h, ls).value.J
    decreases |ls|
  {
    if n == |ls| { assert ls[..n] == ls; } else {
      var m := |ls| - 1;
      PrefixRuns(h, ls[..m], n);
      assert ls[..m][..n] == ls[..n];
      StepGrows(h, Run(h, ls[..m]).value, ls[m]);
    }
  }

  /** The Journal is append-only, and whatever the ledgers append, every ledger can fold. */
  lemma {:induction false} JournalOnlyGrows(h: Sha256, ls: seq<Label>, n: nat)
    requires Run(h, ls).Some? && n <= |ls|
    ensures Run(h, ls[..n]).Some? && Run(h, ls[..n]).value.J <= Run(h, ls).value.J
    ensures JournalOk(h, Run(h, ls).value.J)
  {
    PrefixRuns(h, ls, n);
    RunInvariant(h, ls);
  }

  // ------------------------------------------------------------------ what every run keeps

  /** Every answer other than `unavailable` is the sequential answer at one Journal prefix that existed
      between the call and its return; a fresh grant is its own event. */
  lemma {:induction false} Linearizable(h: Sha256, ls: seq<Label>, i: nat)
    requires Run(h, ls).Some? && i < |Run(h, ls).value.done|
    ensures var s := Run(h, ls).value;
      var r := s.done[i];
      r.answer == Refused(Unavailable) ||
      exists n :: r.start <= n <= r.stop <= |s.J| && TookEffectAt(s.J, r, n)
  {
    RunInvariant(h, ls);
    var s := Run(h, ls).value;
    assert Linear(s.J, s.done[i]);
  }

  /** Nothing a ledger appended can wedge another: every ledger that can read gets to the Journal's end. */
  lemma {:induction false} NobodyIsWedged(h: Sha256, ls: seq<Label>, p: nat)
    requires Run(h, ls).Some? && p in Run(h, ls).value.procs
    ensures var s := Run(h, ls).value;
      var (store, ok) := CaughtUp(h, s.procs[p].store, s.J);
      ok && Some(store) == Fold(h, s.J)
  {
    RunInvariant(h, ls);
    var s := Run(h, ls).value;
    CatchUpOk(h, s.J, s.procs[p].store);
  }

  /** The tranche a slot names, as it was opened. */
  function OpenedTranche(H: seq<Entry>, id: string): Option<Tranche> {
    var i := FindOpened(H, id);
    if i.Some? && i.value < |H| && H[i.value].Opened? then Some(H[i.value].t) else None
  }

  /** What a tranche holds of one resource over all its holds is within the bound. */
  ghost predicate TotalBounded(H: seq<Entry>, slot: Slot) {
    var t := OpenedTranche(H, slot.tranche);
    t.Some? && ValidAmounts(t.value.holds) && Total(t.value.holds, slot.resource) <= MAX_QUANTITY
  }

  lemma {:induction false} HeldIsBounded(H: seq<Entry>, slot: Slot)
    requires Legal(H) && HeldSpec(H, slot).Some?
    ensures TotalBounded(H, slot)
  {
    FindOpenedFinds(H, slot.tranche);
    TrancheTotalBounded(H, FindOpened(H, slot.tranche).value, slot.resource);
  }

  lemma {:induction false} StoreIsLegal(h: Sha256, J: seq<PortEvent>, store: Tables)
    requires JournalOk(h, J) && StoreOk(h, J, store)
    ensures Legal(History(J[..store.head.number]))
  {
    FoldMeaning(h, J[..store.head.number]);
  }

  /**
   In every reachable state a row's consumed is the sum of its debits and at most what was held, and its
   tranche holds at most 2^63 - 1 of the resource over all its holds.
   */
  lemma {:induction false} MoneyIsConserved(h: Sha256, ls: seq<Label>, p: nat, slot: Slot)
    requires Run(h, ls).Some? && p in Run(h, ls).value.procs
    requires slot in Run(h, ls).value.procs[p].store.balances
    ensures Run(h, ls).value.procs[p].store.head.number <= |Run(h, ls).value.J|
    ensures var s := Run(h, ls).value;
      var store := s.procs[p].store;
      var row := store.balances[slot];
      var H := History(s.J[..store.head.number]);
      && row.consumed == Spent(H, slot) <= row.held
      && HeldSpec(H, slot).Some? && row.held == Units(HeldSpec(H, slot).value.amount)
      && TotalBounded(H, slot)
  {
    RunInvariant(h, ls);
    var s := Run(h, ls).value;
    var store := s.procs[p].store;
    assert StoreOk(h, s.J, store);
    DecisionIsAnswer(h, s.J, store, ReadBalance(slot));
    assert BalanceMeans(store.balances[slot], History(s.J[..store.head.number]), slot);
    NeverOverspent(History(s.J[..store.head.number]), slot);
    StoreIsLegal(h, s.J, store);
    HeldIsBounded(History(s.J[..store.head.number]), slot);
  }

  /** One entry an event, prefix by prefix. */
  ghost predicate Recorded(J: seq<PortEvent>) {
    |History(J)| == |J| && forall n :: 0 <= n <= |J| ==> History(J[..n]) == History(J)[..n]
  }

  lemma {:induction false} JournalRecorded(h: Sha256, J: seq<PortEvent>)
    requires JournalOk(h, J)
    ensures Recorded(J) && Legal(History(J))
  {
    FoldMeaning(h, J);
    forall n | 0 <= n <= |J| ensures History(J[..n]) == History(J)[..n] { FoldPrefix(h, J, n); }
  }

  lemma {:induction false} HistorySnoc(K: seq<PortEvent>, e: PortEvent, x: Entry)
    requires EntryOf(e) == Some(x)
    ensures History(K + [e]) == History(K) + [x]
  {
    assert (K + [e])[..|K|] == K;
  }

  lemma {:induction false} PrefixEnd(J: seq<PortEvent>, n: nat, x: Entry)
    requires Recorded(J) && n < |J| && History(J[..n] + [J[n]]) == History(J[..n]) + [x]
    ensures History(J)[n] == x
  {
    assert J[..n + 1] == J[..n] + [J[n]];
    assert History(J)[..n + 1][n] == x;
  }

  lemma {:induction false} HistoryAt(J: seq<PortEvent>, n: nat, x: Entry)
    requires Recorded(J) && n < |J| && EntryOf(J[n]) == Some(x)
    ensures History(J)[n] == x
  {
    HistorySnoc(J[..n], J[n], x);
    PrefixEnd(J, n, x);
  }

  lemma {:induction false} ReplayPoint(H: seq<Entry>, req: Request)
    requires SpecAnswer(H, req).Granted? && SpecAnswer(H, req).replayed
    ensures var i := SpecAnswer(H, req).point;
      1 <= i <= |H| && Addition(req) == Some(H[i - 1])
  {}

  /** The event at a grant's point records `x`. */
  ghost predicate Records(H: seq<Entry>, point: nat, x: Option<Entry>) {
    1 <= point <= |H| && x == Some(H[point - 1])
  }

  lemma {:induction false} ReplayEffect(J: seq<PortEvent>, r: Record, n: nat)
    requires Recorded(J) && n <= |J| && SpecAnswer(History(J[..n]), r.req) == r.answer && r.answer.Granted? && r.answer.replayed
    ensures Records(History(J), r.answer.point, Addition(r.req))
  {
    assert History(J[..n]) == History(J)[..n];
    ReplayPoint(History(J[..n]), r.req);
  }

  lemma {:induction false} FreshEffect(J: seq<PortEvent>, n: nat, x: Option<Entry>)
    requires Recorded(J) && n < |J| && x.Some? && EntryOf(J[n]) == x
    ensures Records(History(J), n + 1, x)
  {
    HistoryAt(J, n, x.value);
  }

  lemma {:induction false} EffectPoint(J: seq<PortEvent>, r: Record, n: nat)
    requires Recorded(J) && TookEffectAt(J, r, n) && r.answer.Granted?
    ensures Records(History(J), r.answer.point, Addition(r.req))
  {
    if r.answer.replayed { ReplayEffect(J, r, n); } else { FreshEffect(J, n, Addition(r.req)); }
  }

  /** A grant's point is the event that records the very request granted. */
  lemma {:induction false} GrantPoint(J: seq<PortEvent>, r: Record)
    requires Recorded(J) && Linear(J, r) && r.answer.Granted?
    ensures Records(History(J), r.answer.point, Addition(r.req))
  {
    var n :| TookEffectAt(J, r, n);
    EffectPoint(J, r, n);
  }

  /** Two requests for one idempotency key, or for one tranche id. */
  ghost predicate SameKey(a: Option<Entry>, b: Option<Entry>) {
    match (a, b)
    case (Some(Debited(d)), Some(Debited(e))) => d.key == e.key
    case (Some(Opened(t)), Some(Opened(u))) => t.id == u.id
    case _ => false
  }

  lemma {:induction false} SameKeySamePoint(H: seq<Entry>, i: nat, j: nat)
    requires Legal(H) && i < |H| && j < |H| && SameKey(Some(H[i]), Some(H[j]))
    ensures i == j
  {
    if i < j { KeysOccurOnce(H, i, j); }
    if j < i { KeysOccurOnce(H, j, i); }
  }

  lemma {:induction false} OnePointAKey(H: seq<Entry>, p: nat, q: nat, x: Option<Entry>, y: Option<Entry>)
    requires Legal(H) && Records(H, p, x) && Records(H, q, y) && SameKey(x, y)
    ensures p == q && x == y
  {
    SameKeySamePoint(H, p - 1, q - 1);
  }

  /** Two grants of one idempotency key, by any two ledgers, are one event and one and the same debit:
      a retry after `unavailable` is never charged twice. */
  lemma {:induction false} ChargedOnce(h: Sha256, ls: seq<Label>, a: Record, b: Record)
    requires Run(h, ls).Some? && a in Run(h, ls).value.done && b in Run(h, ls).value.done
    requires a.answer.Granted? && b.answer.Granted? && SameKey(Addition(a.req), Addition(b.req))
    ensures a.answer.point == b.answer.point && Addition(a.req) == Addition(b.req)
  {
    RunInvariant(h, ls);
    var s := Run(h, ls).value;
    JournalRecorded(h, s.J);
    GrantPoint(s.J, a);
    GrantPoint(s.J, b);
    OnePointAKey(History(s.J), a.answer.point, b.answer.point, Addition(a.req), Addition(b.req));
  }

  /** A request's own entry decides its answer, once the early checks are passed. */
  lemma {:induction false} AnswerByEntry(H: seq<Entry>, req: Request, e: Entry)
    requires Addition(req) == Some(e) && Precheck(req).None?
    ensures SpecAnswer(H, req) == EntryAnswer(H, e)
  {
  }

  /** A request that was granted has passed the checks made before the Journal is looked at. */
  lemma {:induction false} GrantedPassed(H: seq<Entry>, req: Request)
    requires SpecAnswer(H, req).Granted?
    ensures Precheck(req).None?
  {
  }

  lemma {:induction false} EffectPassed(J: seq<PortEvent>, r: Record, n: nat)
    requires TookEffectAt(J, r, n) && r.answer.Granted?
    ensures Precheck(r.req).None?
  {
    GrantedPassed(History(J[..n]), r.req);
  }

  lemma {:induction false} GrantPassed(J: seq<PortEvent>, r: Record)
    requires Linear(J, r) && r.answer.Granted?
    ensures Precheck(r.req).None?
  {
    var n :| TookEffectAt(J, r, n);
    EffectPassed(J, r, n);
  }

  lemma {:induction false} GrantIsRecorded(h: Sha256, J: seq<PortEvent>, r: Record)
    requires JournalOk(h, J) && Linear(J, r) && r.answer.Granted?
    ensures Records(History(J), r.answer.point, Addition(r.req)) && Precheck(r.req).None?
  {
    JournalRecorded(h, J);
    GrantPoint(J, r);
    GrantPassed(J, r);
  }

  /** The entry at every point of a list is one that replays. */
  ghost predicate Replays(H: seq<Entry>) {
    forall point :: 1 <= point <= |H| ==> ReplaysThere(H, point)
  }

  lemma {:induction false} LegalReplays(H: seq<Entry>)
    requires Legal(H)
    ensures Replays(H)
  {
    forall point | 1 <= point <= |H| ensures ReplaysThere(H, point) { GrantsReplay(H, point - 1); }
  }

  lemma {:induction false} JournalReplays(h: Sha256, J: seq<PortEvent>)
    requires JournalOk(h, J)
    ensures Replays(History(J))
  {
    JournalRecorded(h, J);
    LegalReplays(History(J));
  }

  lemma {:induction false} AskedAgain(H: seq<Entry>, point: nat, req: Request)
    requires Replays(H) && Records(H, point, Addition(req)) && Precheck(req).None?
    ensures SpecAnswer(H, req) == Granted(point, true)
  {
    assert ReplaysThere(H, point);
    AnswerByEntry(H, req, H[point - 1]);
  }

  /** A granted request, asked again of any later Journal, is answered as a replay of the very same grant. */
  lemma {:induction false} RetryReplays(h: Sha256, ls: seq<Label>, a: Record)
    requires Run(h, ls).Some? && a in Run(h, ls).value.done && a.answer.Granted?
    ensures SpecAnswer(History(Run(h, ls).value.J), a.req) == Granted(a.answer.point, true)
  {
    RunInvariant(h, ls);
    var J := Run(h, ls).value.J;
    GrantIsRecorded(h, J, a);
    JournalReplays(h, J);
    AskedAgain(History(J), a.answer.point, a.req);
  }

  lemma {:induction false} MirrorSteps(h: Sha256, s: Sys, p: nat, readOk: bool)
    requires p in s.procs
    ensures Step(h, s, Mirror(p, readOk)) == StepMirror(h, s, p, s.procs[p], readOk)
  {}

  lemma {:induction false} MirroredIsFold(h: Sha256, J: seq<PortEvent>, file: Tables, store: Tables, news: seq<PortEvent>, before: Head, readOk: bool)
    requires JournalOk(h, J) && StoreOk(h, J, store)
    ensures readOk ==> Mirrored(h, file, store, news, before, J, readOk).1
    ensures var (after, ok) := Mirrored(h, file, store, news, before, J, readOk);
      ok ==> StoreOk(h, J, after) && store.head.number <= after.head.number
  {
    assert J[..0] == [] && J[0..] == J;
    ApplyAllFolds(h, J, 0);
    FoldMeaning(h, J);
    assert J[..|J|] == J;
  }

  /** Whatever rows the file held, once mirror has returned it is the fold of a Journal prefix
      no shorter than the head the decision is made at. */
  lemma {:induction false} MirrorHeals(h: Sha256, ls: seq<Label>, p: nat, readOk: bool)
    requires Run(h, ls).Some? && p in Run(h, ls).value.procs && Run(h, ls).value.procs[p].stage.Mirroring?
    ensures readOk ==> Step(h, Run(h, ls).value, Mirror(p, readOk)).value.procs[p].stage.Deciding?
    ensures var s := Step(h, Run(h, ls).value, Mirror(p, readOk)).value;
      s.procs[p].stage.Deciding? ==>
        StoreOk(h, s.J, s.procs[p].file) && s.procs[p].store.head.number <= s.procs[p].file.head.number
  {
    RunInvariant(h, ls);
    var s := Run(h, ls).value;
    var q := s.procs[p];
    MirrorSteps(h, s, p, readOk);
    MirroredIsFold(h, s.J, q.file, q.store, q.stage.news, q.stage.before, readOk);
  }

  // ------------------------------------------------------------------ the file never decides

  ghost predicate SameButFiles(s: Sys, t: Sys) {
    && s.J == t.J && s.done == t.done && s.procs.Keys == t.procs.Keys
    && forall p :: p in s.procs ==> s.procs[p].store == t.procs[p].store && s.procs[p].stage == t.procs[p].stage
  }

  /** Labels that differ at most in what the files hold. */
  predicate SameLabel(a: Label, b: Label) {
    match a
    case Open(p, _) => b.Open? && b.p == p
    case Tamper(p, _) => b.Tamper? && b.p == p
    case Settle(p, readOk, _) => b.Settle? && b.p == p && b.readOk == readOk
    case _ => a == b
  }

  lemma {:induction false} CallsAgree(h: Sha256, s: Sys, t: Sys, a: Label, b: Label)
    requires SameButFiles(s, t) && SameLabel(a, b) && (a.Open? || a.Tamper? || a.Call?)
    ensures Step(h, s, a).Some? <==> Step(h, t, b).Some?
    ensures Step(h, s, a).Some? ==> SameButFiles(Step(h, s, a).value, Step(h, t, b).value)
  {}

  lemma {:induction false} ReadsAgree(h: Sha256, s: Sys, t: Sys, a: Label)
    requires SameButFiles(s, t) && (a.ReadOk? || a.ReadFail?)
    ensures Step(h, s, a).Some? <==> Step(h, t, a).Some?
    ensures Step(h, s, a).Some? ==> SameButFiles(Step(h, s, a).value, Step(h, t, a).value)
  {}

  lemma {:induction false} DecisionsAgree(h: Sha256, s: Sys, t: Sys, a: Label)
    requires SameButFiles(s, t) && (a.MakeDecision? || a.ProposeFail? || a.ProposeConflict?)
    ensures Step(h, s, a).Some? <==> Step(h, t, a).Some?
    ensures Step(h, s, a).Some? ==> SameButFiles(Step(h, s, a).value, Step(h, t, a).value)
  {}

  lemma {:induction false} AppendsAgree(h: Sha256, s: Sys, t: Sys, a: Label)
    requires SameButFiles(s, t) && (a.ProposeAck? || a.ProposeLost?)
    ensures Step(h, s, a).Some? <==> Step(h, t, a).Some?
    ensures Step(h, s, a).Some? ==> SameButFiles(Step(h, s, a).value, Step(h, t, a).value)
  {}

  lemma {:induction false} RepairsAgree(h: Sha256, s: Sys, t: Sys, a: Label, b: Label)
    requires Inv(h, s) && Inv(h, t) && SameButFiles(s, t) && SameLabel(a, b)
    requires (a.Mirror? && a.readOk) || a.Settle?
    ensures Step(h, s, a).Some? <==> Step(h, t, b).Some?
    ensures Step(h, s, a).Some? ==> SameButFiles(Step(h, s, a).value, Step(h, t, b).value)
  {
    if a.p in s.procs && a.Mirror? && s.procs[a.p].stage.Mirroring? {
      var q, r := s.procs[a.p], t.procs[a.p];
      MirroredIsFold(h, s.J, q.file, q.store, q.stage.news, q.stage.before, true);
      MirroredIsFold(h, t.J, r.file, r.store, r.stage.news, r.stage.before, true);
    }
  }

  /** Two systems that differ only in their files do the same at every step whose reads succeed. */
  lemma {:induction false} FilesDoNotDecide(h: Sha256, s: Sys, t: Sys, a: Label, b: Label)
    requires Inv(h, s) && Inv(h, t) && SameButFiles(s, t) && SameLabel(a, b)
    requires a.Mirror? ==> a.readOk
    ensures Step(h, s, a).Some? <==> Step(h, t, b).Some?
    ensures Step(h, s, a).Some? ==> SameButFiles(Step(h, s, a).value, Step(h, t, b).value)
  {
    if a.Open? || a.Tamper? || a.Call? { CallsAgree(h, s, t, a, b); }
    else if a.ReadOk? || a.ReadFail? { ReadsAgree(h, s, t, a); }
    else if a.Mirror? || a.Settle? { RepairsAgree(h, s, t, a, b); }
    else if a.ProposeAck? || a.ProposeLost? { AppendsAgree(h, s, t, a); }
    else { DecisionsAgree(h, s, t, a); }
  }

  /** The answer a step has just recorded is `unavailable`. */
  ghost predicate SaysUnavailable(s: Sys, t: Sys) {
    |t.done| == |s.done| + 1 && t.done[|s.done|].answer == Refused(Unavailable)
  }

  /** When a mirror's own read fails, the two still agree, or one of them says `unavailable`. */
  lemma {:induction false} FilesAtWorstDelay(h: Sha256, s: Sys, t: Sys, p: nat)
    requires SameButFiles(s, t) && p in s.procs && s.procs[p].stage.Mirroring?
    ensures var s', t' := Step(h, s, Mirror(p, false)), Step(h, t, Mirror(p, false));
      && s'.Some? && t'.Some?
      && s'.value.J == t'.value.J == s.J
      && s'.value.procs[p].store == t'.value.procs[p].store
      && (SameButFiles(s'.value, t'.value) || SaysUnavailable(s, s'.value) || SaysUnavailable(t, t'.value))
  {
    MirrorSteps(h, s, p, false);
    MirrorSteps(h, t, p, false);
  }

  /** Over whole runs: with every mirror read succeeding, no file content changes a verdict. */
  lemma {:induction false} FilesNeverDecide(h: Sha256, ls: seq<Label>, ms: seq<Label>)
    requires Run(h, ls).Some? && |ls| == |ms|
    requires forall i :: 0 <= i < |ls| ==> SameLabel(ls[i], ms[i]) && (ls[i].Mirror? ==> ls[i].readOk)
    ensures Run(h, ms).Some? && SameButFiles(Run(h, ls).value, Run(h, ms).value)
  {
    FilesOnlyDelay(h, ls, ms);
    assert !FirstDelay(h, ls, ms);
  }

  /**
   The two runs agree up to step `n`, a mirror whose own read fails; there one of them says `unavailable`,
   and the Journals and the stores are still the same.
   */
  ghost predicate DelayedAt(h: Sha256, ls: seq<Label>, ms: seq<Label>, n: nat)
    requires |ls| == |ms|
  {
    && n < |ls| && ls[n].Mirror? && !ls[n].readOk && Agreeing(h, ls[..n], ms[..n])
    && Run(h, ls[..n + 1]).Some? && Run(h, ms[..n + 1]).Some?
    && Delays(Run(h, ls[..n]).value, Run(h, ls[..n + 1]).value, Run(h, ms[..n]).value, Run(h, ms[..n + 1]).value)
  }

  ghost predicate Agreeing(h: Sha256, ls: seq<Label>, ms: seq<Label>) {
    Run(h, ls).Some? && Run(h, ms).Some? && SameButFiles(Run(h, ls).value, Run(h, ms).value)
  }

  /** From agreeing states, one run or the other has just said `unavailable`, and nothing else has come apart. */
  ghost predicate Delays(s: Sys, s': Sys, t: Sys, t': Sys) {
    && s'.J == t'.J == s.J && (SaysUnavailable(s, s') || SaysUnavailable(t, t'))
    && s'.procs.Keys == t'.procs.Keys && forall p :: p in s'.procs ==> s'.procs[p].store == t'.procs[p].store
  }

  ghost predicate FirstDelay(h: Sha256, ls: seq<Label>, ms: seq<Label>)
    requires |ls| == |ms|
  {
    exists n :: DelayedAt(h, ls, ms, n)
  }

  lemma {:induction false} RunTo(h: Sha256, ls: seq<Label>, n: nat)
    requires n < |ls|
    ensures Run(h, ls[..n + 1]) == if Run(h, ls[..n]).None? then None else Step(h, Run(h, ls[..n]).value, ls[n])
  {
    assert ls[..n + 1][..n] == ls[..n];
  }

  lemma {:induction false} DelayLonger(h: Sha256, ls: seq<Label>, ms: seq<Label>, m: nat, n: nat)
    requires |ls| == |ms| && n < m <= |ls| && DelayedAt(h, ls[..m], ms[..m], n)
    ensures DelayedAt(h, ls, ms, n)
  {
    assert ls[..m][..n] == ls[..n] && ms[..m][..n] == ms[..n];
    assert ls[..m][..n + 1] == ls[..n + 1] && ms[..m][..n + 1] == ms[..n + 1];
  }

  lemma {:induction false} StepDelays(h: Sha256, s: Sys, t: Sys, a: Label, b: Label)
    requires Inv(h, s) && Inv(h, t) && SameButFiles(s, t) && SameLabel(a, b) && Step(h, s, a).Some?
    ensures Step(h, t, b).Some?
    ensures SameButFiles(Step(h, s, a).value, Step(h, t, b).value)
      || (a.Mirror? && !a.readOk && Delays(s, Step(h, s, a).value, t, Step(h, t, b).value))
  {
    if a.Mirror? && !a.readOk {
      FailedMirror(h, s, t, a.p);
    } else {
      FilesDoNotDecide(h, s, t, a, b);
    }
  }

  lemma {:induction false} FailedMirror(h: Sha256, s: Sys, t: Sys, p: nat)
    requires SameButFiles(s, t) && Step(h, s, Mirror(p, false)).Some?
    ensures var s', t' := Step(h, s, Mirror(p, false)), Step(h, t, Mirror(p, false));
      t'.Some? && (SameButFiles(s'.value, t'.value) || Delays(s, s'.value, t, t'.value))
  {
    assert p in s.procs;
    MirrorSteps(h, s, p, false);
    FilesAtWorstDelay(h, s, t, p);
    MirrorSteps(h, t, p, false);
  }

  /**
   Two runs that differ only in what the files hold give the same verdicts throughout, or up to a mirror
   whose own read fails, where one of them says `unavailable`.
   */
  lemma {:induction false} FilesOnlyDelay(h: Sha256, ls: seq<Label>, ms: seq<Label>)
    requires Run(h, ls).Some? && |ls| == |ms|
    requires forall i :: 0 <= i < |ls| ==> SameLabel(ls[i], ms[i])
    ensures Agreeing(h, ls, ms) || FirstDelay(h, ls, ms)
  {
    if ls != [] {
      var n := |ls| - 1;
      FilesOnlyDelay(h, ls[..n], ms[..n]);
      if FirstDelay(h, ls[..n], ms[..n]) {
        var k :| DelayedAt(h, ls[..n], ms[..n], k);
        DelayLonger(h, ls, ms, n, k);
      } else {
        RunInvariant(h, ls[..n]);
        RunInvariant(h, ms[..n]);
        StepDelays(h, Run(h, ls[..n]).value, Run(h, ms[..n]).value, ls[n], ms[n]);
        assert ls[..n + 1] == ls && ms[..n + 1] == ms;
        RunTo(h, ls, n);
        RunTo(h, ms, n);
        if !Agreeing(h, ls, ms) { assert DelayedAt(h, ls, ms, n); }
      }
    }
  }
}
