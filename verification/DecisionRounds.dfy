/**
 The runner's half of Decisions (mission-control/scripts/decisions.ts): ask, wait, and run the
 Builder again with the answer, while the founder and other runners write to the same log.
 */
module DecisionRounds {
  import opened Options
  import opened CodeUnits
  import opened DecisionLog
  import opened DecisionText
  import MissionBoard

  const MAX_DECISION_ROUNDS: nat := 3

  /** Nobody else ever asks a question under one of these ids. */
  predicate Unasked(raw: seq<Option<Line>>, ids: set<string>) {
    forall i :: 0 <= i < |raw| && raw[i].Some? && raw[i].value.Needed? ==> raw[i].value.id !in ids
  }

  lemma {:induction false} ReadableJoins(a: seq<Option<Line>>, b: seq<Option<Line>>)
    ensures Readable(a + b) == Readable(a) + Readable(b)
    decreases |b|
  {
    if b == [] {
      assert a + b == a;
    } else {
      var n := |b| - 1;
      ReadableJoins(a, b[..n]);
      assert (a + b)[..|a + b| - 1] == a + b[..n];
    }
  }

  lemma {:induction false} UnaskedIsAbsent(raw: seq<Option<Line>>, ids: set<string>, id: string)
    requires Unasked(raw, ids) && id in ids
    ensures RowOf(Readable(raw), id).None?
  {
    if raw != [] {
      var n := |raw| - 1;
      UnaskedIsAbsent(raw[..n], ids, id);
      var before, l := Readable(raw[..n]), raw[n];
      assert before + [] == before;
      if l.Some? && ValidLine(l.value) {
        assert (before + [l.value])[..|before|] == before;
        assert l.value.Needed? ==> raw[n].value.id !in ids;
      }
    }
  }

  /** The row of `id` as the file reads. */
  function RowIn(file: seq<Option<Line>>, id: string): Option<Row> { RowOf(Readable(file), id) }

  predicate SettledIn(file: seq<Option<Line>>, id: string) { RowIn(file, id).Some? && !RowIn(file, id).value.state.Pending? }

  /** A row once settled reads the same in every longer file. */
  lemma {:induction false} SettledLater(file: seq<Option<Line>>, later: seq<Option<Line>>, id: string)
    requires SettledIn(file, id) && file <= later
    ensures RowIn(later, id) == RowIn(file, id)
  {
    var more := later[|file|..];
    assert later == file + more;
    ReadableJoins(file, more);
    SettledStays(Readable(file), Readable(more), id);
  }

  lemma {:induction false} AskedLater(file: seq<Option<Line>>, later: seq<Option<Line>>, id: string)
    requires RowIn(file, id).Some? && file <= later
    ensures RowIn(later, id).Some?
    ensures RowIn(later, id).value.question == RowIn(file, id).value.question && RowIn(later, id).value.options == RowIn(file, id).value.options
    ensures RowIn(later, id).value.mission == RowIn(file, id).value.mission
  {
    var more := later[|file|..];
    assert later == file + more;
    ReadableJoins(file, more);
    QuestionStays(Readable(file), Readable(more), id);
  }

  lemma {:induction false} AppendReads(file: seq<Option<Line>>, l: Line)
    ensures Readable(file + [Some(l)]) == if ValidLine(l) then Readable(file) + [l] else Readable(file)
  {
    assert (file + [Some(l)])[..|file|] == file;
    assert Readable(file) + [] == Readable(file);
  }

  /** A fresh question, once written, reads as pending. */
  lemma {:induction false} AskReads(file: seq<Option<Line>>, ids: set<string>, l: Line)
    requires Unasked(file, ids) && l.Needed? && l.id in ids && ValidLine(l)
    ensures RowIn(file + [Some(l)], l.id) == Some(Asked(l))
  {
    UnaskedIsAbsent(file, ids, l.id);
    AppendReads(file, l);
    assert (Readable(file) + [l])[..|Readable(file)|] == Readable(file);
  }

  /** An expiry settles a question that was still open, and changes no other. */
  lemma {:induction false} ExpireSettles(file: seq<Option<Line>>, id: string, at: int)
    requires RowIn(file, id).Some? && IsUuid(id)
    ensures SettledIn(file + [Some(Expired(id, at))], id)
    ensures RowIn(file, id).value.state.Pending? ==> RowIn(file + [Some(Expired(id, at))], id).value.state == Lapsed
  {
    var l := Expired(id, at);
    AppendReads(file, l);
    QuestionsAsked(Readable(file), id);
    assert (Readable(file) + [l])[..|Readable(file)|] == Readable(file);
  }

  /** The log file, and what other processes write to it before each of this one's turns. */
  class Log {
    var file: seq<Option<Line>>
    var others: seq<seq<Option<Line>>>
    ghost var own: seq<Line>

    constructor (file: seq<Option<Line>>, others: seq<seq<Option<Line>>>)
      ensures this.file == file && this.others == others && own == []
    {
      this.file, this.others, this.own := file, others, [];
    }

    predicate Fresh(ids: set<string>)
      reads this
    {
      Unasked(file, ids) && forall i :: 0 <= i < |others| ==> Unasked(others[i], ids)
    }

    method Turn(ghost ids: set<string>)
      modifies this
      ensures old(file) <= file && own == old(own)
      ensures old(Fresh(ids)) ==> Fresh(ids)
    {
      if others != [] {
        assert forall i :: 0 <= i < |others[1..]| ==> others[1..][i] == others[i + 1];
        file, others := file + others[0], others[1..];
      }
    }

    method Read(ghost ids: set<string>) returns (lines: seq<Line>)
      modifies this
      ensures old(file) <= file && own == old(own) && lines == Readable(file)
      ensures old(Fresh(ids)) ==> Fresh(ids)
    {
      Turn(ids);
      lines := ReadDecisionLines(file);
    }

    /** Others may write first; then this line is the file's last. */
    method Append(l: Line, ghost ids: set<string>) returns (ghost before: seq<Option<Line>>)
      modifies this
      ensures old(file) <= before && file == before + [Some(l)] && own == old(own) + [l]
      ensures old(Fresh(ids)) ==> Unasked(before, ids)
      ensures old(Fresh(ids)) ==> Fresh(ids - {l.id})
      ensures old(Fresh(ids)) && !l.Needed? ==> Fresh(ids)
    {
      Turn(ids);
      before := file;
      file, own := file + [Some(l)], own + [l];
    }
  }

  /** `rows.find(x => x.id === id)` over a folded log. */
  method Find(ghost lines: seq<Line>, rows: seq<Row>, id: string) returns (r: Option<Row>)
    requires |rows| == |Questions(lines)|
    requires forall k :: 0 <= k < |rows| ==> RowOf(lines, Questions(lines)[k]) == Some(rows[k])
    ensures r == RowOf(lines, id)
  {
    QuestionsAsked(lines, id);
    var k := 0;
    while k < |rows|
      invariant 0 <= k <= |rows| && id !in Questions(lines)[..k]
    {
      QuestionsAsked(lines, Questions(lines)[k]);
      if rows[k].id == id { return Some(rows[k]); }
      assert Questions(lines)[..k + 1] == Questions(lines)[..k] + [Questions(lines)[k]];
      k := k + 1;
    }
    assert Questions(lines)[..k] == Questions(lines);
    r := None;
  }

  datatype Waited = Settled(row: Row) | Stopped | TimedOut

  /** waitForAnswer: at most `polls` looks, and `stops` says at which of them the runner was told to stop. */
  method WaitForAnswer(log: Log, id: string, polls: nat, stops: nat -> bool, ghost ids: set<string>) returns (r: Waited)
    modifies log
    ensures old(log.file) <= log.file && log.own == old(log.own) && (old(log.Fresh(ids)) ==> log.Fresh(ids))
    ensures r.Settled? ==> SettledIn(log.file, id) && RowIn(log.file, id) == Some(r.row)
    ensures r.Stopped? ==> exists k :: 0 <= k <= polls && stops(k)
  {
    var k := 0;
    while true
      invariant 0 <= k <= polls
      invariant old(log.file) <= log.file && log.own == old(log.own) && (old(log.Fresh(ids)) ==> log.Fresh(ids))
      decreases polls - k
    {
      var lines := log.Read(ids);
      var rows := FoldDecisions(lines);
      var d := Find(lines, rows, id);
      if d.Some? && !d.value.state.Pending? { return Settled(d.value); }
      if stops(k) { return Stopped; }
      if k == polls { return TimedOut; }
      k := k + 1;
    }
  }

  // ------------------------------------------------------------------ the rounds

  /** What a Builder run comes back with; `clean` is a run that finished and was not refused. */
  datatype Round = Round(clean: bool, files: seq<string>, cost: Option<real>, summary: Units)

  datatype Answer = Answer(id: string, question: Units, choice: Units)

  /** The last round; or a stop ended the wait; or nobody answered, and the card goes back to Waiting with this cost. */
  datatype End = Finished(round: Round) | Interrupted | PutBack(cost: Option<real>)

  predicate AnsweredIn(file: seq<Option<Line>>, a: Answer) {
    RowIn(file, a.id).Some? && RowIn(file, a.id).value.state == Chosen(a.choice) && RowIn(file, a.id).value.question == a.question
    && a.choice in RowIn(file, a.id).value.options
  }

  lemma {:induction false} ChosenIsOffered(lines: seq<Line>, id: string)
    ensures RowOf(lines, id).Some? && RowOf(lines, id).value.state.Chosen? ==> RowOf(lines, id).value.state.choice in RowOf(lines, id).value.options
  {
    if lines != [] { ChosenIsOffered(lines[..|lines| - 1], id); }
  }

  /** An answer holds in every longer file. */
  lemma {:induction false} AnswerHolds(file: seq<Option<Line>>, later: seq<Option<Line>>, a: Answer)
    requires AnsweredIn(file, a) && file <= later
    ensures AnsweredIn(later, a)
  {
    SettledLater(file, later, a.id);
  }

  /** Set union in the order of first appearance. */
  function Union(a: seq<string>, b: seq<string>): (r: seq<string>) {
    if b == [] then a
    else
      var before := Union(a, b[..|b| - 1]);
      if b[|b| - 1] in before then before else before + [b[|b| - 1]]
  }

  function AddCost(a: Option<real>, b: Option<real>): Option<real> {
    if a.None? then b else if b.None? then a else Some(a.value + b.value)
  }

  /** The next round, with the files and the cost of those before it. */
  function Carried(before: Round, next: Round): Round {
    next.(files := Union(before.files, next.files), cost := AddCost(before.cost, next.cost))
  }

  /** All the runs so far, as one round. `run` is the Builder, given the answers so far. */
  function Total(run: seq<Answer> -> Round, answers: seq<Answer>): Round {
    if answers == [] then run([]) else Carried(Total(run, answers[..|answers| - 1]), run(answers))
  }

  /** What a run still has to ask is fresh: an id drawn at random. */
  function Left(ids: seq<string>, k: nat): set<string> {
    set i | k <= i < |ids| :: ids[i]
  }

  lemma {:induction false} FilesKept(a: seq<string>, b: seq<string>, f: string)
    ensures f in Union(a, b) <==> f in a || f in b
  {
    if b != [] {
      FilesKept(a, b[..|b| - 1], f);
      assert b == b[..|b| - 1] + [b[|b| - 1]];
    }
  }

  /** The files of every run are in the total. */
  lemma {:induction false} TotalKeepsFiles(run: seq<Answer> -> Round, answers: seq<Answer>, k: nat, f: string)
    requires k <= |answers| && f in run(answers[..k]).files
    ensures f in Total(run, answers).files
  {
    if answers == [] {
      assert answers[..k] == [];
    } else {
      var n := |answers| - 1;
      if k <= n {
        assert answers[..n][..k] == answers[..k];
        TotalKeepsFiles(run, answers[..n], k, f);
      } else {
        assert answers[..k] == answers;
      }
      FilesKept(Total(run, answers[..n]).files, run(answers).files, f);
    }
  }

  datatype Reply = Got(choice: Units) | GaveUp | WasStopped

  /** An expiry written to a log that holds the question leaves it settled. */
  method Expire(log: Log, id: string, at: int, ghost ids: set<string>)
    requires RowIn(log.file, id).Some?
    modifies log
    ensures old(log.file) <= log.file && log.own == old(log.own) + [Expired(id, at)]
    ensures old(log.Fresh(ids)) ==> log.Fresh(ids)
    ensures SettledIn(log.file, id)
  {
    ghost var start := log.file;
    ghost var before := log.Append(Expired(id, at), ids);
    AskedLater(start, before, id);
    RowIsUuid(before, id);
    ExpireSettles(before, id, at);
  }

  /** Nobody answered in time: the question is expired, and looked at once more, for an answer may have come first. */
  method ExpireAndLook(log: Log, id: string, at: int, again: bool, ghost ids: set<string>) returns (d: Option<Row>)
    requires RowIn(log.file, id).Some? && log.Fresh(ids)
    modifies log
    ensures old(log.file) <= log.file && log.Fresh(ids) && log.own == old(log.own) + [Expired(id, at)]
    ensures SettledIn(log.file, id)
    ensures again ==> d == RowIn(log.file, id)
  {
    Expire(log, id, at, ids);
    if !again { return None; }
    ghost var expired := log.file;
    var lines := log.Read(ids);
    var rows := FoldDecisions(lines);
    d := Find(lines, rows, id);
    SettledLater(expired, log.file, id);
  }

  /** One question put to the founder: asked, waited for, and expired when nobody answers in time. */
  method Ask(log: Log, l: Line, polls: nat, stops: nat -> bool, at: int, ghost ids: set<string>) returns (r: Reply)
    requires l.Needed? && ValidLine(l) && l.id in ids && log.Fresh(ids)
    modifies log
    ensures old(log.file) <= log.file && log.Fresh(ids - {l.id})
    ensures r.Got? ==> AnsweredIn(log.file, Answer(l.id, l.question, r.choice)) && RowIn(log.file, l.id).value.options == l.options
    ensures SettledIn(log.file, l.id)
    ensures r.GaveUp? ==> RowIn(log.file, l.id).value.state == Lapsed
    ensures log.own == old(log.own) + [l] || log.own == old(log.own) + [l, Expired(l.id, at)]
  {
    ghost var before := log.Append(l, ids);
    AskReads(before, ids, l);
    ghost var asked := log.file;
    var w := WaitForAnswer(log, l.id, polls, stops, ids - {l.id});
    AskedLater(asked, log.file, l.id);
    ChosenIsOffered(Readable(log.file), l.id);
    if w.Settled? && w.row.state.Chosen? { return Got(w.row.state.choice); }
    var d := ExpireAndLook(log, l.id, at, !w.Stopped?, ids - {l.id});
    AskedLater(asked, log.file, l.id);
    ChosenIsOffered(Readable(log.file), l.id);
    if w.Stopped? { return WasStopped; }
    r := if d.value.state.Chosen? then Got(d.value.state.choice) else GaveUp;
  }

  /** The answers so far, each to the question asked under its id. */
  predicate AllAnswered(file: seq<Option<Line>>, ids: seq<string>, answers: seq<Answer>) {
    |answers| <= |ids| && forall k :: 0 <= k < |answers| ==> AnsweredIn(file, answers[k]) && answers[k].id == ids[k]
  }

  lemma {:induction false} AnswersHold(file: seq<Option<Line>>, later: seq<Option<Line>>, ids: seq<string>, answers: seq<Answer>)
    requires AllAnswered(file, ids, answers) && file <= later
    ensures AllAnswered(later, ids, answers)
  {
    forall k | 0 <= k < |answers| ensures AnsweredIn(later, answers[k]) { AnswerHolds(file, later, answers[k]); }
  }

  lemma {:induction false} AnswersGrow(file: seq<Option<Line>>, ids: seq<string>, answers: seq<Answer>, a: Answer)
    requires AllAnswered(file, ids, answers) && |answers| < |ids| && AnsweredIn(file, a) && a.id == ids[|answers|]
    ensures AllAnswered(file, ids, answers + [a])
  {
  }

  datatype Consulted = NoQuestion | Replied(question: Units, reply: Reply)

  /** A reply that ends on a question is put to the founder. */
  method Consult(log: Log, text: Units, id: string, mission: string, polls: nat, stops: nat -> bool, at: int, ghost ids: set<string>)
    returns (c: Consulted)
    requires IsUuid(id) && IsUuid(mission) && id in ids && log.Fresh(ids)
    modifies log
    ensures old(log.file) <= log.file
    ensures c.NoQuestion? <==> ParseDecision(text).None?
    ensures c.NoQuestion? ==> log.Fresh(ids) && log.file == old(log.file)
    ensures c.Replied? ==> log.Fresh(ids - {id}) && SettledIn(log.file, id)
    ensures c.Replied? && c.reply.Got? ==> AnsweredIn(log.file, Answer(id, c.question, c.reply.choice))
    ensures c.Replied? && c.reply.GaveUp? ==> RowIn(log.file, id).Some? && RowIn(log.file, id).value.state == Lapsed
  {
    var asked := ParseDecision(text);
    if asked.None? { return NoQuestion; }
    AskedIsValid(text, id, mission, at);
    var reply := Ask(log, Needed(id, mission, asked.value.question, asked.value.options, at), polls, stops, at, ids);
    c := Replied(asked.value.question, reply);
  }

  lemma {:induction false} NextLeft(ids: seq<string>, k: nat)
    requires k < |ids| && forall i, j :: 0 <= i < j < |ids| ==> ids[i] != ids[j]
    ensures ids[k] in Left(ids, k) && Left(ids, k + 1) == Left(ids, k) - {ids[k]}
  {
    forall x ensures x in Left(ids, k + 1) <==> x in Left(ids, k) - {ids[k]} {
      if x in Left(ids, k) - {ids[k]} {
        var i :| k <= i < |ids| && ids[i] == x;
      }
    }
  }

  /**
   withDecisions: the Builder runs, and runs again with the answer while it ends on a question. It never
   runs more than four times; every answer it is given stands in the log as the founder's choice for that
   very question; and the card goes back to Waiting only once the last question stands expired.
   */
  method WithDecisions(log: Log, mission: string, run: seq<Answer> -> Round, ids: seq<string>, polls: nat -> nat,
                       stops: nat -> nat -> bool, stopAfter: nat -> bool, at: int)
    returns (end: End, answers: seq<Answer>, runs: nat)
    requires IsUuid(mission) && |ids| >= MAX_DECISION_ROUNDS && (forall i :: 0 <= i < |ids| ==> IsUuid(ids[i]))
    requires forall i, j :: 0 <= i < j < |ids| ==> ids[i] != ids[j]
    requires log.Fresh(Left(ids, 0))
    modifies log
    ensures old(log.file) <= log.file
    ensures 1 <= runs <= 1 + MAX_DECISION_ROUNDS && |answers| <= MAX_DECISION_ROUNDS
    ensures AllAnswered(log.file, ids, answers)
    ensures end.Finished? ==> runs == |answers| + 1 && end.round == Total(run, answers)
    ensures end.Finished? ==> !end.round.clean || ParseDecision(end.round.summary).None? || |answers| == MAX_DECISION_ROUNDS
    ensures end.PutBack? ==> |answers| < MAX_DECISION_ROUNDS && RowIn(log.file, ids[|answers|]).Some?
                             && RowIn(log.file, ids[|answers|]).value.state == Lapsed && runs == |answers| + 1
    ensures end.Interrupted? ==> runs <= MAX_DECISION_ROUNDS && SettledIn(log.file, ids[runs - 1])
  {
    answers := [];
    var round := run(answers);
    runs := 1;
    while true
      invariant |answers| <= MAX_DECISION_ROUNDS && runs == |answers| + 1
      invariant old(log.file) <= log.file && log.Fresh(Left(ids, |answers|))
      invariant AllAnswered(log.file, ids, answers)
      invariant round == Total(run, answers)
      decreases MAX_DECISION_ROUNDS - |answers|
    {
      var n := |answers|;
      if !round.clean || n >= MAX_DECISION_ROUNDS { return Finished(round), answers, runs; }
      NextLeft(ids, n);
      ghost var before := log.file;
      var c := Consult(log, round.summary, ids[n], mission, polls(n), stops(n), at, Left(ids, n));
      if c.NoQuestion? { return Finished(round), answers, runs; }
      AnswersHold(before, log.file, ids, answers);
      if c.reply.WasStopped? { return Interrupted, answers, runs; }
      if c.reply.GaveUp? { return PutBack(round.cost), answers, runs; }
      var a := Answer(ids[n], c.question, c.reply.choice);
      AnswersGrow(log.file, ids, answers, a);
      assert (answers + [a])[..n] == answers;
      answers := answers + [a];
      if stopAfter(n) { return Interrupted, answers, runs; }
      round := Carried(round, run(answers));
      runs := runs + 1;
    }
  }

  // ------------------------------------------------------------------ orphaned questions

  /** A mission's question has somebody waiting: it is working, and the pid of its latest claim is alive. */
  predicate Listening(board: seq<MissionBoard.Line>, mission: string, alive: set<nat>) {
    var m := MissionBoard.RecordOf(board, mission);
    var pid := MissionBoard.LatestPid(board, mission);
    m.Some? && m.value.status == MissionBoard.Working && pid.Some? && pid.value in alive
  }

  predicate Orphaned(lines: seq<Line>, board: seq<MissionBoard.Line>, alive: set<nat>, id: string) {
    var r := RowOf(lines, id);
    r.Some? && r.value.state.Pending? && !Listening(board, r.value.mission, alive)
  }

  /** The pending questions nobody is waiting for, in the order they were asked. */
  function Orphans(rows: seq<Row>, board: seq<MissionBoard.Line>, alive: set<nat>): seq<string> {
    if rows == [] then []
    else
      var r := rows[|rows| - 1];
      Orphans(rows[..|rows| - 1], board, alive) + if r.state.Pending? && !Listening(board, r.mission, alive) then [r.id] else []
  }

  predicate AllSettled(file: seq<Option<Line>>, ids: seq<string>) { forall k :: 0 <= k < |ids| ==> SettledIn(file, ids[k]) }

  lemma {:induction false} AllSettledLater(file: seq<Option<Line>>, later: seq<Option<Line>>, ids: seq<string>)
    requires AllSettled(file, ids) && file <= later
    ensures AllSettled(later, ids)
  {
    forall k | 0 <= k < |ids| ensures SettledIn(later, ids[k]) { SettledLater(file, later, ids[k]); }
  }

  /** One expiry for each. */
  function Expiries(ids: seq<string>, at: int): seq<Line> {
    if ids == [] then [] else Expiries(ids[..|ids| - 1], at) + [Expired(ids[|ids| - 1], at)]
  }

  lemma {:induction false} AddExpiry(ids: seq<string>, id: string, at: int, own: seq<Line>)
    ensures own + Expiries(ids + [id], at) == own + Expiries(ids, at) + [Expired(id, at)]
  {
    assert (ids + [id])[..|ids|] == ids;
  }

  /** One more expiry, those before it still standing. */
  method ExpireNext(log: Log, id: string, at: int, ghost read: seq<Option<Line>>, ghost expired: seq<string>)
    requires read <= log.file && RowIn(read, id).Some? && AllSettled(log.file, expired)
    modifies log
    ensures old(log.file) <= log.file && read <= log.file && log.own == old(log.own) + [Expired(id, at)]
    ensures AllSettled(log.file, expired + [id])
  {
    ghost var start := log.file;
    AskedLater(read, start, id);
    Expire(log, id, at, {});
    AllSettledLater(start, log.file, expired);
  }

  /**
   expireOrphanedDecisions: exactly the questions pending when the log was read, and with nobody listening on
   the board read before it, are expired, and each of them is settled afterwards. A question somebody is
   listening for is left alone.
   */
  method ExpireOrphans(log: Log, board: seq<MissionBoard.Line>, alive: set<nat>, at: int) returns (expired: seq<string>, ghost seen: seq<Line>)
    modifies log
    ensures old(log.file) <= log.file
    ensures forall id :: id in expired <==> Orphaned(seen, board, alive, id)
    ensures AllSettled(log.file, expired)
    ensures log.own == old(log.own) + Expiries(expired, at)
  {
    var lines := log.Read({});
    seen := lines;
    var rows := FoldDecisions(lines);
    ghost var read := log.file;
    expired := [];
    var k := 0;
    while k < |rows|
      invariant 0 <= k <= |rows| && expired == Orphans(rows[..k], board, alive)
      invariant old(log.file) <= log.file && read <= log.file && AllSettled(log.file, expired)
      invariant log.own == old(log.own) + Expiries(expired, at)
    {
      var d := rows[k];
      assert rows[..k + 1][..k] == rows[..k];
      if d.state.Pending? && !Listening(board, d.mission, alive) {
        QuestionsAsked(seen, Questions(seen)[k]);
        AddExpiry(expired, d.id, at, old(log.own));
        ExpireNext(log, d.id, at, read, expired);
        expired := expired + [d.id];
      }
      k := k + 1;
    }
    assert rows[..k] == rows;
    forall id ensures id in expired <==> Orphaned(seen, board, alive, id) { OrphansExact(seen, rows, board, alive, id); }
  }

  lemma {:induction false} RowIsUuid(file: seq<Option<Line>>, id: string)
    requires RowIn(file, id).Some?
    ensures IsUuid(id)
  {
    if file != [] {
      var n := |file| - 1;
      var before, l := Readable(file[..n]), file[n];
      assert before + [] == before;
      if l.Some? && ValidLine(l.value) { assert (before + [l.value])[..|before|] == before; }
      if RowIn(file[..n], id).Some? { RowIsUuid(file[..n], id); }
    }
  }

  lemma {:induction false} OrphansExact(lines: seq<Line>, rows: seq<Row>, board: seq<MissionBoard.Line>, alive: set<nat>, id: string)
    requires |rows| == |Questions(lines)|
    requires forall k :: 0 <= k < |rows| ==> RowOf(lines, Questions(lines)[k]) == Some(rows[k])
    ensures id in Orphans(rows, board, alive) <==> Orphaned(lines, board, alive, id)
  {
    QuestionsAsked(lines, id);
    OrphansListed(rows, board, alive, id);
    if id in Questions(lines) {
      var k :| 0 <= k < |rows| && Questions(lines)[k] == id;
      assert rows[k].id == id;
      forall j | 0 <= j < |rows| && rows[j].id == id ensures j == k { QuestionsAsked(lines, Questions(lines)[j]); }
    } else {
      forall j | 0 <= j < |rows| ensures rows[j].id != id { QuestionsAsked(lines, Questions(lines)[j]); }
    }
  }

  lemma {:induction false} OrphansListed(rows: seq<Row>, board: seq<MissionBoard.Line>, alive: set<nat>, id: string)
    ensures id in Orphans(rows, board, alive) <==>
      exists k :: 0 <= k < |rows| && rows[k].id == id && rows[k].state.Pending? && !Listening(board, rows[k].mission, alive)
  {
    if rows != [] {
      var n := |rows| - 1;
      OrphansListed(rows[..n], board, alive, id);
      assert forall k :: 0 <= k < n ==> rows[..n][k] == rows[k];
    }
  }
}
