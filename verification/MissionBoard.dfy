/**
 The missions board (mission-control/server/missions.ts, `foldBoard`): an append-only list of lines
 folded into one record per mission.
 */
module MissionBoard {
  import opened Options

  datatype Status = Waiting | Queued | Working | Done | Failed | Stopped

  /** What a line carries in its status slot: a state, or a request to stop. */
  datatype Mark = To(status: Status) | StopRequested

  /** One line of the board. An absent or empty text is ""; `pid` is the runner a claim names. */
  datatype Line = Line(id: string, ts: int, mark: Mark, title: string, goal: string, verdict: Option<string>,
                       reasons: Option<seq<string>>, cost: Option<real>, error: string, pid: Option<nat>)

  datatype Mission = Mission(id: string, title: string, goal: string, status: Status, createdAt: int, updatedAt: int,
                             verdict: Option<string>, reasons: Option<seq<string>>, cost: Option<real>, error: string,
                             stopRequested: bool)

  predicate Live(s: Status) { s == Queued || s == Working }

  /** A line that puts a mission on the board. */
  predicate Opens(l: Line) { l.mark == To(Waiting) && l.title != "" && l.goal != "" }

  function OrElse<T>(a: Option<T>, b: Option<T>): Option<T> { if a.Some? then a else b }

  /** The record after one more line of its mission. */
  function Advance(m: Mission, l: Line): Mission {
    if l.mark.StopRequested? then
      if Live(m.status) then m.(stopRequested := true, updatedAt := l.ts) else m
    else
      var s := l.mark.status;
      m.(status := s, updatedAt := l.ts,
         stopRequested := m.stopRequested && Live(s),
         error := if l.error != "" then l.error else if Live(s) then "" else m.error,
         cost := if l.cost.Some? then l.cost else if Live(s) then None else m.cost,
         verdict := OrElse(l.verdict, m.verdict),
         reasons := OrElse(l.reasons, m.reasons))
  }

  /** The pid of the latest claim of mission `id`. */
  function LatestPid(lines: seq<Line>, id: string): Option<nat> {
    if lines == [] then None
    else
      var l := lines[|lines| - 1];
      if l.id == id && l.pid.Some? then l.pid else LatestPid(lines[..|lines| - 1], id)
  }

  function Opened(l: Line): Mission {
    Mission(l.id, l.title, l.goal, Waiting, l.ts, l.ts, None, None, None, "", false)
  }

  /** The record of mission `id` after `lines`, or None while no line has opened it. */
  function RecordOf(lines: seq<Line>, id: string): Option<Mission> {
    if lines == [] then None
    else
      var l := lines[|lines| - 1];
      var before := RecordOf(lines[..|lines| - 1], id);
      if l.id != id then before
      else if before.Some? then Some(Advance(before.value, l))
      else if Opens(l) then Some(Opened(l)) else None
  }

  /** The missions the lines open, first seen first. */
  function Seen(lines: seq<Line>): seq<string> {
    if lines == [] then []
    else
      var l := lines[|lines| - 1];
      var before := lines[..|lines| - 1];
      if RecordOf(before, l.id).None? && Opens(l) then Seen(before) + [l.id] else Seen(before)
  }

  lemma {:induction false} SeenIsOpened(lines: seq<Line>, id: string)
    ensures id in Seen(lines) <==> RecordOf(lines, id).Some?
    ensures forall i, j :: 0 <= i < j < |Seen(lines)| ==> Seen(lines)[i] != Seen(lines)[j]
  {
    if lines != [] {
      var before := lines[..|lines| - 1];
      SeenIsOpened(before, id);
      SeenIsOpened(before, lines[|lines| - 1].id);
    }
  }

  /** foldBoard: records updated in place in a map, listed in the order they were opened. */
  method FoldBoard(lines: seq<Line>) returns (missions: seq<Mission>)
    ensures |missions| == |Seen(lines)|
    ensures forall k :: 0 <= k < |missions| ==> RecordOf(lines, Seen(lines)[k]) == Some(missions[k])
  {
    var byId: map<string, Mission>, order: seq<string> := map[], [];
    var i := 0;
    while i < |lines|
      invariant 0 <= i <= |lines|
      invariant order == Seen(lines[..i])
      invariant forall id :: id in byId <==> RecordOf(lines[..i], id).Some?
      invariant forall id | id in byId :: RecordOf(lines[..i], id) == Some(byId[id])
    {
      var l := lines[i];
      assert lines[..i + 1][..i] == lines[..i] && lines[..i + 1][i] == l;
      if l.id !in byId {
        if Opens(l) {
          byId, order := byId[l.id := Opened(l)], order + [l.id];
        }
      } else {
        byId := byId[l.id := Advance(byId[l.id], l)];
      }
      i := i + 1;
    }
    assert lines[..i] == lines;
    missions := [];
    var k := 0;
    while k < |order|
      invariant 0 <= k <= |order| && |missions| == k
      invariant forall j :: 0 <= j < k ==> RecordOf(lines, order[j]) == Some(missions[j])
    {
      SeenIsOpened(lines, order[k]);
      missions := missions + [byId[order[k]]];
      k := k + 1;
    }
  }

  // ------------------------------------------------------------------ what the fold means

  /** Line `k` moves `id` to a state. */
  ghost predicate MovesAt(lines: seq<Line>, id: string, k: nat) {
    k < |lines| && lines[k].id == id && lines[k].mark.To?
  }

  /** The status of a mission on the board is the one the last line moved it to. */
  lemma {:induction false} StatusIsLatest(lines: seq<Line>, id: string, k: nat)
    requires RecordOf(lines, id).Some? && MovesAt(lines, id, k)
    requires forall j :: k < j < |lines| ==> !MovesAt(lines, id, j)
    ensures RecordOf(lines, id).value.status == lines[k].mark.status
  {
    var n := |lines| - 1;
    if k < n {
      var before := lines[..n];
      assert forall j :: 0 <= j < n ==> before[j] == lines[j];
      forall j | k < j < n ensures !MovesAt(before, id, j) { assert !MovesAt(lines, id, j); }
      assert !MovesAt(lines, id, n);
      StatusIsLatest(before, id, k);
    }
  }

  /** A stop was asked for while the mission was live, and it has stayed live since. */
  ghost predicate StopStands(lines: seq<Line>, id: string, k: nat) {
    && k < |lines| && lines[k].id == id && lines[k].mark.StopRequested?
    && RecordOf(lines[..k], id).Some? && Live(RecordOf(lines[..k], id).value.status)
    && forall j :: k < j < |lines| && lines[j].id == id && lines[j].mark.To? ==> Live(lines[j].mark.status)
  }

  /** A record says stop was requested exactly when a request landed on the live mission and no later line ended it. */
  lemma {:induction false} StopMeaning(lines: seq<Line>, id: string)
    requires RecordOf(lines, id).Some?
    ensures RecordOf(lines, id).value.stopRequested <==> exists k: nat :: StopStands(lines, id, k)
  {
    var n := |lines| - 1;
    var before, l := lines[..n], lines[n];
    assert forall j :: 0 <= j < n ==> before[j] == lines[j];
    assert forall j :: 0 <= j <= n ==> before[..j] == lines[..j];
    if RecordOf(before, id).Some? {
      StopMeaning(before, id);
      if k: nat :| StopStands(before, id, k) {
        if l.id == id && l.mark.To? && !Live(l.mark.status) {
        } else {
          assert StopStands(lines, id, k);
        }
      }
      if k: nat :| StopStands(lines, id, k) {
        if k < n { assert StopStands(before, id, k); }
      }
      if l.id == id && l.mark.StopRequested? && Live(RecordOf(before, id).value.status) { assert StopStands(lines, id, n); }
      if l.id == id && l.mark.To? && !Live(l.mark.status) {
        forall k: nat ensures !StopStands(lines, id, k) {}
      }
    } else {
      forall k: nat ensures !StopStands(lines, id, k) {
        if StopStands(lines, id, k) { NeverOpened(before, id, k); }
      }
    }
  }

  lemma {:induction false} NeverOpened(lines: seq<Line>, id: string, k: nat)
    requires RecordOf(lines, id).None? && k <= |lines|
    ensures RecordOf(lines[..k], id).None?
  {
    if k < |lines| {
      var n := |lines| - 1;
      assert lines[..n][..k] == lines[..k];
      NeverOpened(lines[..n], id, k);
    } else {
      assert lines[..k] == lines;
    }
  }
}
