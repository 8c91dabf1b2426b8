/**
 Transcript text line by line (scripts/lib/usage.js, `turnsFrom`, and mission-control/server/index-store.ts,
 `latestModelFrom`): what is read from a text that grows by whole lines.
 */
module SessionLines {
  import opened Options
  import opened CodeUnits

  const NEWLINE: nat := 10

  /** One usage-bearing line: when, how many output tokens, and whether a subagent wrote it. */
  datatype Turn = Turn(t: int, out: int, side: bool)

  /** What JSON and the dates make of one line: is it a usage line, the turn it records, the model it names. */
  datatype Parser = Parser(usage: Units -> bool, turnOf: Units -> Option<Turn>, modelOf: Units -> Option<string>)

  /** A blank line holds no usage. */
  predicate Sane(p: Parser) { !p.usage([]) }

  function LineTurns(p: Parser, line: Units): seq<Turn> {
    if line == [] || !p.usage(line) || p.turnOf(line).None? then [] else [p.turnOf(line).value]
  }

  function TurnsOf(p: Parser, lines: seq<Units>): seq<Turn> {
    if lines == [] then [] else TurnsOf(p, lines[..|lines| - 1]) + LineTurns(p, lines[|lines| - 1])
  }

  function TurnsFrom(p: Parser, text: Units): seq<Turn> { TurnsOf(p, Split(text, NEWLINE)) }

  /** The model of the last usage line; None when it names none, or there is no usage line. */
  function LatestOf(p: Parser, lines: seq<Units>): Option<string> {
    if lines == [] then None
    else if p.usage(lines[|lines| - 1]) then p.modelOf(lines[|lines| - 1])
    else LatestOf(p, lines[..|lines| - 1])
  }

  function LatestModelFrom(p: Parser, text: Units): Option<string> { LatestOf(p, Split(text, NEWLINE)) }

  predicate UsageIn(p: Parser, lines: seq<Units>) { exists i :: 0 <= i < |lines| && p.usage(lines[i]) }

  predicate HasUsage(p: Parser, text: Units) { UsageIn(p, Split(text, NEWLINE)) }

  predicate AllNamed(p: Parser, lines: seq<Units>) {
    forall i :: 0 <= i < |lines| && p.usage(lines[i]) ==> p.modelOf(lines[i]).Some?
  }

  /** Every usage line of the text names a model. */
  predicate ModelsNamed(p: Parser, text: Units) { AllNamed(p, Split(text, NEWLINE)) }

  /** turnsFrom: one pass over the lines. */
  method ReadTurns(p: Parser, text: Units) returns (turns: seq<Turn>)
    ensures turns == TurnsFrom(p, text)
  {
    var lines := Split(text, NEWLINE);
    turns := [];
    var i := 0;
    while i < |lines|
      invariant 0 <= i <= |lines| && turns == TurnsOf(p, lines[..i])
    {
      assert lines[..i + 1][..i] == lines[..i];
      var line := lines[i];
      if line != [] && p.usage(line) {
        var t := p.turnOf(line);
        if t.Some? { turns := turns + [t.value]; }
      }
      i := i + 1;
    }
    assert lines[..i] == lines;
  }

  /** Nothing, or text that ends where a line does. */
  predicate WholeLines(text: Units) { text == [] || text[|text| - 1] == NEWLINE }

  /** The lines of a text of whole lines, without the empty one behind the last newline. */
  function Lines(text: Units): seq<Units> { Split(text, NEWLINE)[..|Split(text, NEWLINE)| - 1] }

  lemma {:induction false} WholeSplit(a: Units, b: Units)
    requires WholeLines(a)
    ensures Split(a, NEWLINE) == Lines(a) + [[]]
    ensures Split(a + b, NEWLINE) == Lines(a) + Split(b, NEWLINE)
  {
    if a == [] {
      assert a + b == b;
      assert Lines(a) == [];
    } else {
      var body := a[..|a| - 1];
      assert a == body + [NEWLINE] + [];
      SplitApart(body, NEWLINE, []);
      assert a + b == body + [NEWLINE] + b;
      SplitApart(body, NEWLINE, b);
      assert Lines(a) == Split(body, NEWLINE);
    }
  }

  lemma {:induction false} TurnsOfJoins(p: Parser, a: seq<Units>, b: seq<Units>)
    ensures TurnsOf(p, a + b) == TurnsOf(p, a) + TurnsOf(p, b)
    decreases |b|
  {
    if b == [] {
      assert a + b == a;
    } else {
      var n := |b| - 1;
      TurnsOfJoins(p, a, b[..n]);
      assert (a + b)[..|a + b| - 1] == a + b[..n];
      assert (a + b)[|a + b| - 1] == b[n];
    }
  }

  lemma {:induction false} LatestOfJoins(p: Parser, a: seq<Units>, b: seq<Units>)
    ensures LatestOf(p, a + b) == if UsageIn(p, b) then LatestOf(p, b) else LatestOf(p, a)
    ensures AllNamed(p, a + b) <==> AllNamed(p, a) && AllNamed(p, b)
    decreases |b|
  {
    if b == [] {
      assert a + b == a;
    } else {
      var n := |b| - 1;
      LatestOfJoins(p, a, b[..n]);
      assert (a + b)[..|a + b| - 1] == a + b[..n];
      assert (a + b)[|a + b| - 1] == b[n];
      assert b == b[..n] + [b[n]];
      assert a + b == a + b[..n] + [b[n]];
      assert UsageIn(p, b) <==> UsageIn(p, b[..n]) || p.usage(b[n]) by {
        if i :| 0 <= i < |b| && p.usage(b[i]) { if i < n { assert b[..n][i] == b[i]; } }
        if i :| 0 <= i < |b[..n]| && p.usage(b[..n][i]) { assert b[i] == b[..n][i]; }
      }
    }
  }

  lemma {:induction false} BlankLast(p: Parser, lines: seq<Units>)
    ensures TurnsOf(p, lines + [[]]) == TurnsOf(p, lines)
  {
    var more := lines + [[]];
    assert more[..|lines|] == lines && more[|lines|] == [];
    assert LineTurns(p, []) == [];
    assert TurnsOf(p, lines) + [] == TurnsOf(p, lines);
  }

  /** Appending whole lines appends their turns. */
  lemma {:induction false} TurnsJoin(p: Parser, a: Units, b: Units)
    requires WholeLines(a)
    ensures TurnsFrom(p, a + b) == TurnsFrom(p, a) + TurnsFrom(p, b)
  {
    WholeSplit(a, b);
    BlankLast(p, Lines(a));
    TurnsOfJoins(p, Lines(a), Split(b, NEWLINE));
  }

  /** The latest model of a grown text: the appended part's, when it has a usage line at all. */
  lemma {:induction false} LatestJoin(p: Parser, a: Units, b: Units)
    requires Sane(p) && WholeLines(a)
    ensures LatestModelFrom(p, a + b) == if HasUsage(p, b) then LatestModelFrom(p, b) else LatestModelFrom(p, a)
    ensures ModelsNamed(p, a + b) <==> ModelsNamed(p, a) && ModelsNamed(p, b)
  {
    WholeSplit(a, b);
    LatestOfJoins(p, Lines(a), [[]]);
    LatestOfJoins(p, Lines(a), Split(b, NEWLINE));
  }

  lemma {:induction false} LatestNamed(p: Parser, lines: seq<Units>)
    ensures !UsageIn(p, lines) ==> LatestOf(p, lines).None?
    ensures UsageIn(p, lines) && AllNamed(p, lines) ==> LatestOf(p, lines).Some?
  {
    if lines != [] {
      var n := |lines| - 1;
      LatestNamed(p, lines[..n]);
      if i :| 0 <= i < |lines| && p.usage(lines[i]) { if i < n { assert lines[..n][i] == lines[i]; } }
      if i :| 0 <= i < |lines[..n]| && p.usage(lines[..n][i]) { assert lines[i] == lines[..n][i]; }
      assert forall i :: 0 <= i < n ==> lines[..n][i] == lines[i];
    }
  }

  /** `found ?? before`. */
  function OrElse(found: Option<string>, before: Option<string>): Option<string> { if found.Some? then found else before }

  /**
   Keeping the older model is what a rebuild gives exactly unless the appended part's last usage line
   names no model while the part before it does.
   */
  lemma {:induction false} LaterExact(p: Parser, a: Units, b: Units)
    requires Sane(p) && WholeLines(a)
    ensures OrElse(LatestModelFrom(p, b), LatestModelFrom(p, a)) == LatestModelFrom(p, a + b)
      <==> !(HasUsage(p, b) && LatestModelFrom(p, b).None? && LatestModelFrom(p, a).Some?)
  {
    LatestJoin(p, a, b);
    LatestNamed(p, Split(b, NEWLINE));
  }

  /** ... so always when every usage line names one. */
  lemma {:induction false} LaterNamed(p: Parser, a: Units, b: Units)
    requires Sane(p) && WholeLines(a) && ModelsNamed(p, a + b)
    ensures OrElse(LatestModelFrom(p, b), LatestModelFrom(p, a)) == LatestModelFrom(p, a + b)
  {
    LatestJoin(p, a, b);
    LatestNamed(p, Split(b, NEWLINE));
  }

  /** What the index asks of a text: its turns, its latest model, and whether every usage line names one. */
  datatype Reader = Reader(turns: Units -> seq<Turn>, latest: Units -> Option<string>, named: Units -> bool)

  /** What it relies on when a text grows by whole lines. */
  ghost predicate Lawful(r: Reader) {
    && (forall a, b {:trigger r.turns(a + b)} :: WholeLines(a) ==> r.turns(a + b) == r.turns(a) + r.turns(b))
    && (forall a, b {:trigger r.latest(a + b)} :: WholeLines(a) && r.named(a + b) ==>
          r.named(a) && r.latest(a + b) == OrElse(r.latest(b), r.latest(a)))
    && r.turns([]) == [] && r.latest([]).None?
  }

  function LineReader(p: Parser): Reader {
    Reader(text => TurnsFrom(p, text), text => LatestModelFrom(p, text), text => ModelsNamed(p, text))
  }

  lemma {:induction false} NothingRead(p: Parser)
    requires Sane(p)
    ensures TurnsFrom(p, []) == [] && LatestModelFrom(p, []).None?
  {
    var blank: seq<Units> := [[]];
    assert Split([], NEWLINE) == blank;
    BlankLast(p, []);
    assert [] + blank == blank;
    LatestOfJoins(p, [], blank);
    assert !UsageIn(p, blank);
  }

  /** Reading line by line is lawful. */
  lemma {:induction false} LinesAreLawful(p: Parser)
    requires Sane(p)
    ensures Lawful(LineReader(p))
  {
    var r := LineReader(p);
    forall a, b | WholeLines(a) ensures r.turns(a + b) == r.turns(a) + r.turns(b) { TurnsJoin(p, a, b); }
    forall a, b | WholeLines(a) && r.named(a + b)
      ensures r.named(a) && r.latest(a + b) == OrElse(r.latest(b), r.latest(a))
    {
      LatestJoin(p, a, b);
      LaterNamed(p, a, b);
    }
    NothingRead(p);
  }

  /** A look that ends inside a line loses that line: read in two halves, it is no usage line in either. */
  lemma {:induction false} MidLineLoses() returns (p: Parser, a: Units, b: Units)
    ensures Sane(p) && !WholeLines(a)
    ensures |TurnsFrom(p, a + b)| == 1 && TurnsFrom(p, a) + TurnsFrom(p, b) == []
  {
    p := Parser(u => u == [1, 2], u => Some(Turn(0, 1, false)), u => None);
    a, b := [1], [2, NEWLINE];
    var whole: seq<Units>, head: seq<Units>, tail: seq<Units> := [[1, 2], []], [[1]], [[2], []];
    assert [1, 2] + [NEWLINE] + [] == a + b;
    SplitFirst([1, 2], NEWLINE, []);
    assert Split(a + b, NEWLINE) == whole;
    SplitFirst([1], NEWLINE, []);
    assert Split(a, NEWLINE) == head;
    assert [2] + [NEWLINE] + [] == b;
    SplitFirst([2], NEWLINE, []);
    assert Split(b, NEWLINE) == tail;
    OneTurn(p);
    assert head[..0] == [] && tail[..1][..0] == [] && tail[..1][0] == [2];
    assert TurnsOf(p, tail[..1]) == [];
  }

  lemma {:induction false} OneTurn(p: Parser)
    requires p.usage([1, 2]) && p.turnOf([1, 2]).Some?
    ensures |TurnsOf(p, [[1, 2], []])| == 1
  {
    var first: seq<Units> := [[1, 2]];
    assert first[..0] == [] && first[0] == [1, 2];
    assert TurnsOf(p, first) == LineTurns(p, [1, 2]);
    BlankLast(p, first);
    assert first + [[]] == [[1, 2], []];
  }
}
