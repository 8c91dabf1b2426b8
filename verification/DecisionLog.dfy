/**
 The decisions log (mission-control/server/decisions.ts): questions, answers and expiries, one line
 each, folded into one row per question whose first terminal line settles it.
 */
module DecisionLog {
  import opened Options
  import opened CodeUnits

  const MAX_QUESTION_CHARS: nat := 500
  const MIN_OPTIONS: nat := 2
  const MAX_OPTIONS: nat := 8
  const MAX_OPTION_CHARS: nat := 120

  datatype Line =
    | Needed(id: string, mission: string, question: Units, options: seq<Units>, at: int)
    | Answered(id: string, choice: Units, at: int)
    | Expired(id: string, at: int)

  datatype State = Pending | Chosen(choice: Units) | Lapsed

  /** One question. `settledAt` is None while it is pending. */
  datatype Row = Row(id: string, mission: string, question: Units, options: seq<Units>, createdAt: int, state: State, settledAt: Option<int>)

  predicate IsHex(c: char) { '0' <= c <= '9' || 'a' <= c <= 'f' }

  /** Eight, four, four, four and twelve lower-case hex digits. */
  predicate IsUuid(s: string) {
    |s| == 36 && forall i :: 0 <= i < 36 ==> if i in {8, 13, 18, 23} then s[i] == '-' else IsHex(s[i])
  }

  predicate Distinct(xs: seq<Units>) { forall i, j :: 0 <= i < j < |xs| ==> xs[i] != xs[j] }

  predicate ValidOptions(o: seq<Units>) {
    && MIN_OPTIONS <= |o| <= MAX_OPTIONS
    && (forall i :: 0 <= i < |o| ==> 0 < |o[i]| <= MAX_OPTION_CHARS)
    && Distinct(o)
  }

  /** validLine: a line outside these bounds is never read. */
  predicate ValidLine(l: Line) {
    IsUuid(l.id) && (l.Needed? ==> IsUuid(l.mission) && 0 < |l.question| <= MAX_QUESTION_CHARS && ValidOptions(l.options))
  }

  /** readDecisionLines: a torn line (None) or an invalid one is skipped. */
  function Readable(raw: seq<Option<Line>>): seq<Line> {
    if raw == [] then []
    else
      var l := raw[|raw| - 1];
      Readable(raw[..|raw| - 1]) + if l.Some? && ValidLine(l.value) then [l.value] else []
  }

  function Asked(l: Line): Row
    requires l.Needed?
  {
    Row(l.id, l.mission, l.question, l.options, l.at, Pending, None)
  }

  /** Does this answer or expiry settle a pending row? */
  predicate Settles(l: Line, r: Row) {
    l.id == r.id && (l.Expired? || (l.Answered? && l.choice in r.options))
  }

  function Advance(r: Row, l: Line): Row {
    if !r.state.Pending? || !Settles(l, r) then r
    else if l.Answered? then r.(state := Chosen(l.choice), settledAt := Some(l.at))
    else r.(state := Lapsed, settledAt := Some(l.at))
  }

  /** The row of question `id` after `lines`. */
  function RowOf(lines: seq<Line>, id: string): Option<Row> {
    if lines == [] then None
    else
      var l := lines[|lines| - 1];
      var before := RowOf(lines[..|lines| - 1], id);
      if l.id != id then before
      else if before.Some? then Some(Advance(before.value, l))
      else if l.Needed? then Some(Asked(l)) else None
  }

  /** The questions in the order they were asked. */
  function Questions(lines: seq<Line>): seq<string> {
    if lines == [] then []
    else
      var l := lines[|lines| - 1];
      var before := lines[..|lines| - 1];
      if l.Needed? && RowOf(before, l.id).None? then Questions(before) + [l.id] else Questions(before)
  }

  lemma {:induction false} QuestionsAsked(lines: seq<Line>, id: string)
    ensures id in Questions(lines) <==> RowOf(lines, id).Some?
    ensures Distinct2(Questions(lines))
    ensures RowOf(lines, id).Some? ==> RowOf(lines, id).value.id == id
  {
    if lines != [] {
      var before := lines[..|lines| - 1];
      QuestionsAsked(before, id);
      QuestionsAsked(before, lines[|lines| - 1].id);
    }
  }

  predicate Distinct2(xs: seq<string>) { forall i, j :: 0 <= i < j < |xs| ==> xs[i] != xs[j] }

  method ReadDecisionLines(raw: seq<Option<Line>>) returns (lines: seq<Line>)
    ensures lines == Readable(raw)
  {
    lines := [];
    var i := 0;
    while i < |raw|
      invariant 0 <= i <= |raw| && lines == Readable(raw[..i])
    {
      assert raw[..i + 1][..i] == raw[..i];
      if raw[i].Some? && ValidLine(raw[i].value) { lines := lines + [raw[i].value]; }
      i := i + 1;
    }
    assert raw[..i] == raw;
  }

  /** foldDecisions: rows updated in place in a map, listed in the order their questions were asked. */
  method FoldDecisions(lines: seq<Line>) returns (rows: seq<Row>)
    ensures |rows| == |Questions(lines)|
    ensures forall k :: 0 <= k < |rows| ==> RowOf(lines, Questions(lines)[k]) == Some(rows[k])
  {
    var byId: map<string, Row>, order: seq<string> := map[], [];
    var i := 0;
    while i < |lines|
      invariant 0 <= i <= |lines|
      invariant order == Questions(lines[..i])
      invariant forall id :: id in byId <==> RowOf(lines[..i], id).Some?
      invariant forall id | id in byId :: RowOf(lines[..i], id) == Some(byId[id])
    {
      var l := lines[i];
      assert lines[..i + 1][..i] == lines[..i] && lines[..i + 1][i] == l;
      if l.id !in byId {
        if l.Needed? {
          byId, order := byId[l.id := Asked(l)], order + [l.id];
        }
      } else {
        byId := byId[l.id := Advance(byId[l.id], l)];
      }
      i := i + 1;
    }
    assert lines[..i] == lines;
    rows := [];
    var k := 0;
    while k < |order|
      invariant 0 <= k <= |order| && |rows| == k
      invariant forall j :: 0 <= j < k ==> RowOf(lines, order[j]) == Some(rows[j])
    {
      QuestionsAsked(lines, order[k]);
      rows := rows + [byId[order[k]]];
      k := k + 1;
    }
  }

  // ------------------------------------------------------------------ settled once, for good

  /** A settled question never changes, whatever is written after. */
  lemma {:induction false} SettledStays(lines: seq<Line>, more: seq<Line>, id: string)
    requires RowOf(lines, id).Some? && !RowOf(lines, id).value.state.Pending?
    ensures RowOf(lines + more, id) == RowOf(lines, id)
    decreases |more|
  {
    if more == [] {
      assert lines + more == lines;
    } else {
      var n := |more| - 1;
      SettledStays(lines, more[..n], id);
      assert (lines + more)[..|lines + more| - 1] == lines + more[..n];
    }
  }

  /** What a question asks, and of which mission, never changes either. */
  lemma {:induction false} QuestionStays(lines: seq<Line>, more: seq<Line>, id: string)
    requires RowOf(lines, id).Some?
    ensures RowOf(lines + more, id).Some?
    ensures RowOf(lines + more, id).value == RowOf(lines, id).value.(
              state := RowOf(lines + more, id).value.state, settledAt := RowOf(lines + more, id).value.settledAt)
    decreases |more|
  {
    if more == [] {
      assert lines + more == lines;
    } else {
      var n := |more| - 1;
      QuestionStays(lines, more[..n], id);
      assert (lines + more)[..|lines + more| - 1] == lines + more[..n];
    }
  }

  /** Line `k` is the first of question `id` to ask it. */
  ghost predicate AskedAt(lines: seq<Line>, id: string, k: nat) {
    k < |lines| && lines[k].Needed? && lines[k].id == id && forall j :: 0 <= j < k ==> !(lines[j].Needed? && lines[j].id == id)
  }

  /** Line `k` is the first after the asking at `n` that can settle the question. */
  ghost predicate SettledAt(lines: seq<Line>, id: string, n: nat, k: nat) {
    && AskedAt(lines, id, n) && n < k < |lines| && Settles(lines[k], Asked(lines[n]))
    && forall j :: n < j < k ==> !Settles(lines[j], Asked(lines[n]))
  }

  lemma {:induction false} NotAsked(lines: seq<Line>, id: string)
    requires forall j :: 0 <= j < |lines| ==> !(lines[j].Needed? && lines[j].id == id)
    ensures RowOf(lines, id).None?
  {
    if lines != [] { NotAsked(lines[..|lines| - 1], id); }
  }

  /** The first terminal line after the asking settles the question, and nothing else does. */
  lemma {:induction false} FirstTerminalWins(lines: seq<Line>, id: string, n: nat)
    requires AskedAt(lines, id, n)
    ensures RowOf(lines, id).Some?
    ensures RowOf(lines, id) == Some(Asked(lines[n])) || exists k: nat :: SettledAt(lines, id, n, k) && RowOf(lines, id) == Some(Advance(Asked(lines[n]), lines[k]))
    ensures forall k: nat :: SettledAt(lines, id, n, k) ==> RowOf(lines, id) == Some(Advance(Asked(lines[n]), lines[k]))
  {
    var m := |lines| - 1;
    var before := lines[..m];
    assert forall j :: 0 <= j < m ==> before[j] == lines[j];
    if n == m {
      NotAsked(before, id);
    } else {
      FirstTerminalWins(before, id, n);
      forall k: nat | SettledAt(lines, id, n, k) ensures RowOf(lines, id) == Some(Advance(Asked(lines[n]), lines[k])) {
        if k < m {
          assert SettledAt(before, id, n, k);
        } else if j: nat :| SettledAt(before, id, n, j) {
          assert false;
        }
      }
      if j: nat :| SettledAt(before, id, n, j) {
        assert SettledAt(lines, id, n, j);
      } else if Settles(lines[m], Asked(lines[n])) {
        forall j | n < j < m ensures !Settles(lines[j], Asked(lines[n])) {
          if Settles(before[j], Asked(before[n])) { FirstOf(before, id, n, j); }
        }
        assert SettledAt(lines, id, n, m);
      }
    }
  }

  lemma {:induction false} FirstOf(lines: seq<Line>, id: string, n: nat, k: nat)
    requires AskedAt(lines, id, n) && n < k < |lines| && Settles(lines[k], Asked(lines[n]))
    ensures exists j: nat :: SettledAt(lines, id, n, j)
  {
    if i :| n < i < k && Settles(lines[i], Asked(lines[n])) {
      FirstOf(lines, id, n, i);
    } else {
      assert SettledAt(lines, id, n, k);
    }
  }
}
