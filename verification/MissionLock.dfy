/**
 Claiming a mission (mission-control/scripts/run-missions.ts, `claimMission`): any number of
 claimers race for one lock file, one file step at a time, each free to crash between steps.
 */
module MissionLock {
  import opened Options
  import opened MissionBoard

  const ATTEMPTS: nat := 3

  /** The process whose pid a lock holds; Gone is a pid of no process here, or no pid at all. */
  datatype Owner = Pid(p: nat) | Gone

  /** A lock file: its identity (inode and mtime) and the owner written in it. */
  datatype Lock = Lock(id: nat, owner: Owner)

  /** Where a claimer is: which attempt, and which lock it has looked at. */
  datatype Stage =
    | Trying(n: nat)
    | Looking(n: nat)
    | Judging(n: nat, seen: Lock)     // the lock is read; whether its owner lives is asked next
    | Marking(n: nat, key: nat)
    | Removing(n: nat, key: nat)
    | Owning
    | Appending
    | Dropping
    | Returned(won: bool)
    | Crashed

  /**
   The lock file, the takeover markers, the identity the next new file gets, the claimers, the board, who has
   won, and whether a winner has let go.
   */
  datatype Sys = Sys(file: Option<Lock>, markers: set<nat>, next: nat, claimers: map<nat, Stage>, board: seq<Line>,
                     winners: seq<nat>, released: bool)

  datatype Label =
    | Start(p: nat)
    | Take(p: nat)                    // link the new file into place, or find one there
    | Look(p: nat)                    // open the lock and read it, or find none
    | Judge(p: nat, dead: bool)       // a dead owner may be taken for live, never the reverse
    | Mark(p: nat)                    // create the marker, or find it there
    | MarkReap(p: nat)                // find it there and old: reap it
    | Remove(p: nat)                  // remove the stale lock
    | ReadBoard(p: nat)
    | Append(p: nat, ts: int, wrote: bool)
    | Drop(p: nat)                    // the owner removes its own lock
    | Crash(p: nat)                   // the process ends, in the claim or after it
    | Release(p: nat)                 // releaseMission after a won claim
    | Post(l: Line)                   // someone else's line on the board

  predicate Critical(st: Stage) { st.Owning? || st.Appending? || st.Dropping? }

  predicate Alive(s: Sys, o: Owner) {
    o.Pid? && o.p in s.claimers && !s.claimers[o.p].Crashed?
  }

  function At(s: Sys, p: nat, st: Stage): Sys { s.(claimers := s.claimers[p := st]) }

  /** The loop goes round again, or the claim is given up after the last attempt. */
  function Again(n: nat): Stage { if n + 1 < ATTEMPTS then Trying(n + 1) else Returned(false) }

  function WorkingLine(id: string, ts: int, p: nat): Line {
    Line(id, ts, To(Working), "", "", None, None, None, "", Some(p))
  }

  function StatusOf(board: seq<Line>, id: string): Option<Status> {
    if RecordOf(board, id).Some? then Some(RecordOf(board, id).value.status) else None
  }

  /** One step of a race for mission `id`; None where the label does not apply. */
  function Step(id: string, s: Sys, l: Label): Option<Sys> {
    if l.Post? then Some(s.(board := s.board + [l.l]))
    else if l.Start? then
      if l.p in s.claimers && !s.claimers[l.p].Returned? then None else Some(At(s, l.p, Trying(0)))
    else if l.p !in s.claimers then None
    else
      var p, st := l.p, s.claimers[l.p];
      match l
      case Take(_) =>
        if !st.Trying? then None
        else if s.file.Some? then Some(At(s, p, Looking(st.n)))
        else Some(At(s, p, Owning).(file := Some(Lock(s.next, Pid(p))), next := s.next + 1))
      case Look(_) =>
        if !st.Looking? then None
        else Some(At(s, p, if s.file.None? then Again(st.n) else Judging(st.n, s.file.value)))
      case Judge(_, dead) =>
        if !st.Judging? || (dead && Alive(s, st.seen.owner)) then None
        else Some(At(s, p, if dead then Marking(st.n, st.seen.id) else Returned(false)))
      case Mark(_) =>
        if !st.Marking? then None
        else if st.key in s.markers then Some(At(s, p, Returned(false)))
        else Some(At(s, p, Removing(st.n, st.key)).(markers := s.markers + {st.key}))
      case MarkReap(_) =>
        if !st.Marking? || st.key !in s.markers then None
        else Some(At(s, p, Returned(false)).(markers := s.markers - {st.key}))
      case Remove(_) =>
        if !st.Removing? then None else Some(At(s, p, Again(st.n)).(file := None))
      case ReadBoard(_) =>
        if !st.Owning? then None
        else Some(At(s, p, if StatusOf(s.board, id) == Some(Queued) then Appending else Dropping))
      case Append(_, ts, wrote) =>
        if !st.Appending? then None
        else if !wrote then Some(At(s, p, Dropping))
        else Some(At(s, p, Returned(true)).(board := s.board + [WorkingLine(id, ts, p)], winners := s.winners + [p]))
      case Drop(_) =>
        if !st.Dropping? then None else Some(At(s, p, Returned(false)).(file := None))
      case Crash(_) => if st.Crashed? then None else Some(At(s, p, Crashed))
      case Release(_) =>
        if st != Returned(true) then None else Some(s.(file := None, markers := {}, released := true))
      case _ => None
  }

  /** A step of a race: no reaped marker, no failed append, and no outside line that moves the mission. */
  predicate InRace(id: string, l: Label) {
    && !l.MarkReap? && (l.Append? ==> l.wrote)
    && (l.Post? ==> l.l.id != id || l.l.mark.StopRequested?)
  }

  /** A race starts with the mission queued, nobody claiming, and the lock free or its owner gone. */
  predicate AtStart(id: string, s: Sys) {
    && s.claimers == map[] && s.winners == [] && !s.released
    && StatusOf(s.board, id) == Some(Queued)
    && (s.file.Some? ==> s.file.value.owner == Gone && s.file.value.id < s.next)
    && (forall k :: k in s.markers ==> k < s.next)
  }

  function Run(id: string, s: Sys, labels: seq<Label>): Option<Sys> {
    if labels == [] then Some(s)
    else
      var t := Run(id, s, labels[..|labels| - 1]);
      if t.None? then None else Step(id, t.value, labels[|labels| - 1])
  }

  /** How many lines of the board move `id` to working. */
  function WorkingLines(board: seq<Line>, id: string): nat {
    if board == [] then 0
    else
      var l := board[|board| - 1];
      WorkingLines(board[..|board| - 1], id) + if l.id == id && l.mark == To(Working) then 1 else 0
  }

  // ------------------------------------------------------------------ what every step keeps

  /** The lock in place is `key`'s, and whoever it names is dead. */
  predicate StaleInPlace(s: Sys, key: nat) {
    s.file.Some? && s.file.value.id == key && !Alive(s, s.file.value.owner)
  }

  /** Whoever is in the critical section, or has won and lives, is named by the lock in place; a winner is in it no more. */
  ghost predicate HoldersHold(s: Sys) {
    && (forall p :: p in s.claimers && Critical(s.claimers[p]) ==> s.file.Some? && s.file.value.owner == Pid(p) && p !in s.winners)
    && (forall p :: p in s.winners && p in s.claimers && !s.claimers[p].Crashed? ==> s.file.Some? && s.file.value.owner == Pid(p))
    && (forall p :: p in s.claimers ==> !s.claimers[p].Dropping?)
  }

  /** A lock that was looked at is in place still, unless it has been marked. */
  ghost predicate LooksSound(s: Sys) {
    forall p :: p in s.claimers && s.claimers[p].Judging? ==>
      s.claimers[p].seen.id in s.markers || s.file == Some(s.claimers[p].seen)
  }

  /** Whoever is about to mark a lock has it in front of them, dead, or it is marked already. */
  ghost predicate MarkersSound(s: Sys) {
    forall p :: p in s.claimers && s.claimers[p].Marking? ==>
      s.claimers[p].key in s.markers || StaleInPlace(s, s.claimers[p].key)
  }

  /** Whoever is about to remove a lock has marked it, alone, and it is in place still. */
  ghost predicate RemoversSound(s: Sys) {
    && (forall p :: p in s.claimers && s.claimers[p].Removing? ==>
          s.claimers[p].key in s.markers && StaleInPlace(s, s.claimers[p].key))
    && (forall p, q :: p in s.claimers && q in s.claimers && s.claimers[p].Removing? && s.claimers[q].Removing? ==> p == q)
  }

  ghost predicate LockSound(s: Sys) { HoldersHold(s) && LooksSound(s) && MarkersSound(s) && RemoversSound(s) }

  /** Every identity in use was handed out before the next one, and a lock's owner is a claimer or gone. */
  ghost predicate KeysOld(s: Sys) {
    && (s.file.Some? ==> s.file.value.id < s.next && (s.file.value.owner.Pid? ==> s.file.value.owner.p in s.claimers))
    && (forall k :: k in s.markers ==> k < s.next)
    && (forall p :: p in s.claimers && s.claimers[p].Judging? ==> s.claimers[p].seen.id < s.next)
    && (forall p :: p in s.claimers && s.claimers[p].Marking? ==> s.claimers[p].key < s.next)
  }

  /** The mission is queued until the one working line, and whoever is about to write it has found it so. */
  ghost predicate BoardSound(id: string, s: Sys, base: nat) {
    && StatusOf(s.board, id) == Some(if s.winners == [] then Queued else Working)
    && |s.winners| <= 1 && WorkingLines(s.board, id) == base + |s.winners|
    && (s.winners != [] ==> s.winners[0] in s.claimers && forall p :: p in s.claimers ==> !s.claimers[p].Appending?)
    && (s.winners == [] ==> !s.released && forall p :: p in s.claimers ==> s.claimers[p] != Returned(true))
  }

  /** Nobody has won yet, or the winner lives and has not let go. */
  predicate Unsettled(s: Sys) { !s.released && (s.winners == [] || Alive(s, Pid(s.winners[0]))) }

  ghost predicate Sound(id: string, s: Sys, base: nat) {
    KeysOld(s) && BoardSound(id, s, base) && (Unsettled(s) ==> LockSound(s))
  }

  lemma {:induction false} StartSound(id: string, s: Sys)
    requires AtStart(id, s)
    ensures Sound(id, s, WorkingLines(s.board, id))
  {
  }

  lemma {:induction false} PostKeeps(board: seq<Line>, id: string, l: Line)
    requires RecordOf(board, id).Some? && (l.id != id || l.mark.StopRequested?)
    ensures StatusOf(board + [l], id) == StatusOf(board, id) && WorkingLines(board + [l], id) == WorkingLines(board, id)
  {
    assert (board + [l])[..|board|] == board;
  }

  lemma {:induction false} WorkingMoves(board: seq<Line>, id: string, ts: int, p: nat)
    requires RecordOf(board, id).Some?
    ensures StatusOf(board + [WorkingLine(id, ts, p)], id) == Some(Working)
    ensures WorkingLines(board + [WorkingLine(id, ts, p)], id) == WorkingLines(board, id) + 1
  {
    assert (board + [WorkingLine(id, ts, p)])[..|board|] == board;
  }

  lemma {:induction false} KeysStayOld(id: string, s: Sys, l: Label, t: Sys)
    requires KeysOld(s) && Step(id, s, l) == Some(t)
    ensures KeysOld(t)
  {
  }

  lemma {:induction false} AppendSound(id: string, s: Sys, l: Label, t: Sys, base: nat)
    requires Sound(id, s, base) && l.Append? && l.wrote && Step(id, s, l) == Some(t)
    ensures BoardSound(id, t, base)
  {
    WorkingMoves(s.board, id, l.ts, l.p);
    assert s.claimers[l.p].Appending?;
    assert s.winners == [];
    assert Critical(s.claimers[l.p]);
    assert forall p :: p in s.claimers && s.claimers[p].Appending? ==> Critical(s.claimers[p]);
  }

  /** A step that writes nothing: only a queued mission lets a claimer get as far as writing, and nobody wins. */
  ghost predicate WritesNothing(id: string, s: Sys, t: Sys) {
    && t.board == s.board && t.winners == s.winners && s.claimers.Keys <= t.claimers.Keys
    && (forall p :: p in t.claimers && t.claimers[p].Appending? ==>
          (p in s.claimers && s.claimers[p].Appending?) || StatusOf(s.board, id) == Some(Queued))
    && (forall p :: p in t.claimers && t.claimers[p] == Returned(true) ==> p in s.claimers && s.claimers[p] == Returned(true))
    && (t.released && !s.released ==> exists p :: p in s.claimers && s.claimers[p] == Returned(true))
  }

  lemma {:induction false} OthersWriteNothing(id: string, s: Sys, l: Label, t: Sys)
    requires !l.Append? && !l.Post? && Step(id, s, l) == Some(t)
    ensures WritesNothing(id, s, t)
  {
  }

  lemma {:induction false} OthersKeepBoard(id: string, s: Sys, t: Sys, base: nat)
    requires BoardSound(id, s, base) && WritesNothing(id, s, t)
    ensures BoardSound(id, t, base)
  {
  }

  lemma {:induction false} BoardStaysSound(id: string, s: Sys, l: Label, t: Sys, base: nat)
    requires Sound(id, s, base) && InRace(id, l) && Step(id, s, l) == Some(t)
    ensures BoardSound(id, t, base)
  {
    if l.Append? {
      AppendSound(id, s, l, t, base);
    } else if l.Post? {
      PostKeeps(s.board, id, l.l);
    } else {
      OthersWriteNothing(id, s, l, t);
      OthersKeepBoard(id, s, t, base);
    }
  }

  lemma {:induction false} StaysUnsettled(id: string, s: Sys, l: Label, t: Sys, base: nat)
    requires BoardSound(id, s, base) && InRace(id, l) && Step(id, s, l) == Some(t) && Unsettled(t)
    ensures Unsettled(s)
    ensures s.winners != [] ==> t.winners == s.winners
  {
  }

  lemma {:induction false} HoldersStay(id: string, s: Sys, l: Label, t: Sys, base: nat)
    requires BoardSound(id, s, base) && LockSound(s) && InRace(id, l) && Step(id, s, l) == Some(t) && Unsettled(t)
    ensures HoldersHold(t)
  {
    StaysUnsettled(id, s, l, t, base);
  }

  lemma {:induction false} LooksStay(id: string, s: Sys, l: Label, t: Sys)
    requires LockSound(s) && KeysOld(s) && InRace(id, l) && Step(id, s, l) == Some(t) && !t.released
    ensures LooksSound(t)
  {
  }

  lemma {:induction false} MarkersStay(id: string, s: Sys, l: Label, t: Sys)
    requires LockSound(s) && KeysOld(s) && InRace(id, l) && Step(id, s, l) == Some(t) && !t.released
    ensures MarkersSound(t)
  {
  }

  lemma {:induction false} RemoversStay(id: string, s: Sys, l: Label, t: Sys)
    requires LockSound(s) && KeysOld(s) && InRace(id, l) && Step(id, s, l) == Some(t) && !t.released
    ensures RemoversSound(t)
  {
  }

  lemma {:induction false} StepKeeps(id: string, s: Sys, l: Label, t: Sys, base: nat)
    requires Sound(id, s, base) && InRace(id, l) && Step(id, s, l) == Some(t)
    ensures Sound(id, t, base)
  {
    KeysStayOld(id, s, l, t);
    BoardStaysSound(id, s, l, t, base);
    if Unsettled(t) {
      StaysUnsettled(id, s, l, t, base);
      HoldersStay(id, s, l, t, base);
      LooksStay(id, s, l, t);
      MarkersStay(id, s, l, t);
      RemoversStay(id, s, l, t);
    }
  }

  lemma {:induction false} RunKeeps(id: string, s: Sys, labels: seq<Label>, t: Sys)
    requires AtStart(id, s) && (forall i :: 0 <= i < |labels| ==> InRace(id, labels[i])) && Run(id, s, labels) == Some(t)
    ensures Sound(id, t, WorkingLines(s.board, id))
  {
    if labels == [] {
      StartSound(id, s);
    } else {
      var n := |labels| - 1;
      var u := Run(id, s, labels[..n]).value;
      RunKeeps(id, s, labels[..n], u);
      StepKeeps(id, u, labels[n], t, WorkingLines(s.board, id));
    }
  }

  /**
   Exclusion: in any race, however the claimers interleave and wherever they crash, at most one claim
   returns true, the board gains one working line for it and none otherwise, and a winner that lives
   holds the lock until it lets go.
   */
  lemma {:induction false} Exclusion(id: string, s: Sys, labels: seq<Label>, t: Sys)
    requires AtStart(id, s) && (forall i :: 0 <= i < |labels| ==> InRace(id, labels[i])) && Run(id, s, labels) == Some(t)
    ensures |t.winners| <= 1 && WorkingLines(t.board, id) == WorkingLines(s.board, id) + |t.winners|
    ensures t.winners != [] && Alive(t, Pid(t.winners[0])) && !t.released ==> t.file.Some? && t.file.value.owner == Pid(t.winners[0])
    ensures t.winners == [] ==> StatusOf(t.board, id) == Some(Queued)
  {
    RunKeeps(id, s, labels, t);
  }

  /**
   A takeover removes the very lock its marker names, and that lock's owner is dead, as long as no claim
   has been won by a process that has since died or let go.
   */
  lemma {:induction false} TakeoverExact(id: string, s: Sys, labels: seq<Label>, t: Sys, p: nat)
    requires AtStart(id, s) && (forall i :: 0 <= i < |labels| ==> InRace(id, labels[i])) && Run(id, s, labels) == Some(t)
    requires p in t.claimers && t.claimers[p].Removing? && Unsettled(t)
    ensures t.file.Some? && t.file.value.id == t.claimers[p].key && !Alive(t, t.file.value.owner)
    ensures forall q :: q in t.claimers && t.claimers[q].Removing? ==> q == p
  {
    RunKeeps(id, s, labels, t);
  }

  // ------------------------------------------------------------------ while nobody lets a lock go

  /** A step that lets no lock and no marker go, but by the takeover of a dead one. */
  predicate Clings(l: Label) { !l.MarkReap? && !l.Drop? && !l.Release? }

  /** Whoever is in the critical section is named by the lock in place. */
  ghost predicate HoldersHere(s: Sys) {
    forall p :: p in s.claimers && Critical(s.claimers[p]) ==> s.file.Some? && s.file.value.owner == Pid(p)
  }

  ghost predicate Tight(s: Sys) { KeysOld(s) && HoldersHere(s) && LooksSound(s) && MarkersSound(s) && RemoversSound(s) }

  lemma {:induction false} HoldersCling(id: string, s: Sys, l: Label, t: Sys)
    requires Tight(s) && Clings(l) && Step(id, s, l) == Some(t)
    ensures HoldersHere(t)
  {
  }

  lemma {:induction false} LooksCling(id: string, s: Sys, l: Label, t: Sys)
    requires Tight(s) && Clings(l) && Step(id, s, l) == Some(t)
    ensures LooksSound(t) && MarkersSound(t)
  {
  }

  lemma {:induction false} RemoversCling(id: string, s: Sys, l: Label, t: Sys)
    requires Tight(s) && Clings(l) && Step(id, s, l) == Some(t)
    ensures RemoversSound(t)
  {
  }

  lemma {:induction false} RunClings(id: string, s: Sys, labels: seq<Label>, t: Sys)
    requires AtStart(id, s) && (forall i :: 0 <= i < |labels| ==> Clings(labels[i])) && Run(id, s, labels) == Some(t)
    ensures Tight(t)
  {
    if labels != [] {
      var n := |labels| - 1;
      var u := Run(id, s, labels[..n]).value;
      RunClings(id, s, labels[..n], u);
      KeysStayOld(id, u, labels[n], t);
      HoldersCling(id, u, labels[n], t);
      LooksCling(id, u, labels[n], t);
      RemoversCling(id, u, labels[n], t);
    }
  }

  /**
   Whoever has won and died: as long as no claimer has let its own lock go, a takeover removes the very lock
   its marker names, that lock's owner is dead, and no other claimer is about to remove one.
   */
  lemma {:induction false} TakeoverAfterDeath(id: string, s: Sys, labels: seq<Label>, t: Sys, p: nat)
    requires AtStart(id, s) && (forall i :: 0 <= i < |labels| ==> Clings(labels[i])) && Run(id, s, labels) == Some(t)
    requires p in t.claimers && t.claimers[p].Removing?
    ensures t.file.Some? && t.file.value.id == t.claimers[p].key && !Alive(t, t.file.value.owner)
    ensures forall q :: q in t.claimers && t.claimers[q].Removing? ==> q == p
  {
    RunClings(id, s, labels, t);
  }

  // ------------------------------------------------------------------ what breaks it

  /** The three kinds of step a race leaves out, or none of them. */
  datatype Odd = Reaping | FailedAppend | Requeue | Nothing

  predicate Allowed(id: string, odd: Odd, l: Label) {
    InRace(id, l) || match odd
      case Reaping => l.MarkReap?
      case FailedAppend => l.Append?
      case Requeue => l.Post?
      case Nothing => false
  }

  /** `t` is reached from `s` by race steps and steps of one odd kind. */
  ghost predicate Reached(id: string, odd: Odd, s: Sys, labels: seq<Label>, t: Sys) {
    Run(id, s, labels) == Some(t) && forall i :: 0 <= i < |labels| ==> Allowed(id, odd, labels[i])
  }

  lemma {:induction false} Extend(id: string, odd: Odd, s: Sys, labels: seq<Label>, t: Sys, l: Label) returns (more: seq<Label>, u: Sys)
    requires Reached(id, odd, s, labels, t) && Step(id, t, l).Some? && Allowed(id, odd, l)
    ensures Step(id, t, l) == Some(u) && Reached(id, odd, s, more, u)
  {
    more, u := labels + [l], Step(id, t, l).value;
    assert more[..|labels|] == labels;
  }

  /** Claimer `p` takes the free lock and finds the mission queued. */
  lemma {:induction false} Enters(id: string, odd: Odd, s: Sys, labels: seq<Label>, t: Sys, p: nat) returns (more: seq<Label>, u: Sys)
    requires Reached(id, odd, s, labels, t) && p in t.claimers && t.claimers[p].Trying? && t.file.None?
    requires StatusOf(t.board, id) == Some(Queued)
    ensures Reached(id, odd, s, more, u)
    ensures u == At(t, p, Appending).(file := Some(Lock(t.next, Pid(p))), next := t.next + 1)
  {
    more, u := Extend(id, odd, s, labels, t, Take(p));
    more, u := Extend(id, odd, s, more, u, ReadBoard(p));
    assert u.claimers == t.claimers[p := Appending];
  }

  /** A new claimer finds a lock in place and reads it. */
  lemma {:induction false} Reads(id: string, odd: Odd, s: Sys, labels: seq<Label>, t: Sys, p: nat) returns (more: seq<Label>, u: Sys)
    requires Reached(id, odd, s, labels, t) && p !in t.claimers && t.file.Some?
    ensures Reached(id, odd, s, more, u) && u == At(t, p, Judging(0, t.file.value))
  {
    more, u := Extend(id, odd, s, labels, t, Start(p));
    more, u := Extend(id, odd, s, more, u, Take(p));
    more, u := Extend(id, odd, s, more, u, Look(p));
    assert u.claimers == t.claimers[p := Judging(0, t.file.value)];
  }

  /** ... and finds its owner dead. */
  lemma {:induction false} ReadsDead(id: string, odd: Odd, s: Sys, labels: seq<Label>, t: Sys, p: nat) returns (more: seq<Label>, u: Sys)
    requires Reached(id, odd, s, labels, t) && p !in t.claimers && t.file == Some(Lock(0, Gone))
    ensures Reached(id, odd, s, more, u) && u == At(t, p, Marking(0, 0))
  {
    more, u := Reads(id, odd, s, labels, t, p);
    more, u := Extend(id, odd, s, more, u, Judge(p, true));
    assert u.claimers == t.claimers[p := Marking(0, 0)];
  }

  /** A claimer that marks a lock and then removes whatever is in place, and finds the mission queued. */
  lemma {:induction false} TakesOver(id: string, odd: Odd, s: Sys, labels: seq<Label>, t: Sys, p: nat) returns (more: seq<Label>, u: Sys)
    requires Reached(id, odd, s, labels, t) && p in t.claimers && t.claimers[p] == Marking(0, 0) && 0 !in t.markers
    requires StatusOf(t.board, id) == Some(Queued)
    ensures Reached(id, odd, s, more, u)
    ensures u == At(t, p, Appending).(markers := t.markers + {0}, file := Some(Lock(t.next, Pid(p))), next := t.next + 1)
  {
    more, u := Extend(id, odd, s, labels, t, Mark(p));
    more, u := Extend(id, odd, s, more, u, Remove(p));
    assert u.claimers == t.claimers[p := Trying(1)];
    more, u := Enters(id, odd, s, more, u, p);
    assert u.claimers == t.claimers[p := Appending];
  }

  /** Two claimers that both found the mission queued both write. */
  lemma {:induction false} BothWrite(id: string, odd: Odd, s: Sys, labels: seq<Label>, t: Sys, p: nat, q: nat) returns (more: seq<Label>, u: Sys)
    requires Reached(id, odd, s, labels, t) && p in t.claimers && q in t.claimers && p != q
    requires t.claimers[p].Appending? && t.claimers[q].Appending? && RecordOf(t.board, id).Some?
    ensures Reached(id, odd, s, more, u)
    ensures u.winners == t.winners + [p, q] && WorkingLines(u.board, id) == WorkingLines(t.board, id) + 2
  {
    more, u := Extend(id, odd, s, labels, t, Append(p, 0, true));
    WorkingMoves(t.board, id, 0, p);
    ghost var b := u.board;
    more, u := Extend(id, odd, s, more, u, Append(q, 0, true));
    WorkingMoves(b, id, 0, q);
  }

  /** A board with the mission queued. */
  function QueuedBoard(id: string): seq<Line> {
    [Line(id, 0, To(Waiting), "t", "g", None, None, None, "", None), Line(id, 1, To(Queued), "", "", None, None, None, "", None)]
  }

  lemma {:induction false} BoardIsQueued(id: string)
    ensures StatusOf(QueuedBoard(id), id) == Some(Queued)
  {
    var b := QueuedBoard(id);
    assert b[..1][..0] == [];
    assert b[..1][0] == b[0];
    assert RecordOf(b[..1], id) == Some(Opened(b[0]));
  }

  /** Claimer 1 has marked the dead lock and waits; the marker grows old and claimer 2 reaps it. */
  lemma {:induction false} MarkerReaped(id: string, s: Sys) returns (labels: seq<Label>, t: Sys)
    requires s == Sys(Some(Lock(0, Gone)), {}, 1, map[], QueuedBoard(id), [], false)
    ensures Reached(id, Reaping, s, labels, t) && t == s.(claimers := map[1 := Removing(0, 0), 2 := Returned(false)])
  {
    labels, t := ReadsDead(id, Reaping, s, [], s, 1);
    labels, t := Extend(id, Reaping, s, labels, t, Mark(1));
    labels, t := ReadsDead(id, Reaping, s, labels, t, 2);
    labels, t := Extend(id, Reaping, s, labels, t, MarkReap(2));
    assert t.markers == {};
    assert t.claimers == map[1 := Removing(0, 0), 2 := Returned(false)];
  }

  /**
   A reaped marker breaks exclusion: a claimer that marked the dead lock, and then waits past the reaping,
   removes the lock of a later one.
   */
  lemma {:induction false} ReapBreaks(id: string) returns (s: Sys, labels: seq<Label>, t: Sys)
    ensures AtStart(id, s) && Reached(id, Reaping, s, labels, t)
    ensures |t.winners| == 2 && WorkingLines(t.board, id) == WorkingLines(s.board, id) + 2
  {
    BoardIsQueued(id);
    s := Sys(Some(Lock(0, Gone)), {}, 1, map[], QueuedBoard(id), [], false);
    labels, t := MarkerReaped(id, s);
    labels, t := ReadsDead(id, Reaping, s, labels, t, 3);
    labels, t := TakesOver(id, Reaping, s, labels, t, 3);
    labels, t := Extend(id, Reaping, s, labels, t, Remove(1));
    labels, t := Enters(id, Reaping, s, labels, t, 1);
    labels, t := BothWrite(id, Reaping, s, labels, t, 3, 1);
  }

  /** Claimer 1's append fails and its process ends, after claimer 2 has read its lock and before it asks whether 1 lives. */
  lemma {:induction false} AppendFailed(id: string, s: Sys) returns (labels: seq<Label>, t: Sys)
    requires s == Sys(None, {}, 0, map[], QueuedBoard(id), [], false) && StatusOf(s.board, id) == Some(Queued)
    ensures Reached(id, FailedAppend, s, labels, t)
    ensures t == s.(next := 1, claimers := map[1 := Crashed, 2 := Judging(0, Lock(0, Pid(1)))])
  {
    labels, t := Extend(id, FailedAppend, s, [], s, Start(1));
    labels, t := Enters(id, FailedAppend, s, labels, t, 1);
    labels, t := Reads(id, FailedAppend, s, labels, t, 2);
    assert t == Sys(Some(Lock(0, Pid(1))), {}, 1, map[1 := Appending, 2 := Judging(0, Lock(0, Pid(1)))], s.board, [], false);
    labels, t := Gives(id, s, labels, t);
  }

  lemma {:induction false} Gives(id: string, s: Sys, labels: seq<Label>, t: Sys) returns (more: seq<Label>, u: Sys)
    requires Reached(id, FailedAppend, s, labels, t)
    requires t == Sys(Some(Lock(0, Pid(1))), {}, 1, map[1 := Appending, 2 := Judging(0, Lock(0, Pid(1)))], s.board, [], false)
    ensures Reached(id, FailedAppend, s, more, u)
    ensures u == t.(file := None, claimers := map[1 := Crashed, 2 := Judging(0, Lock(0, Pid(1)))])
  {
    more, u := Extend(id, FailedAppend, s, labels, t, Append(1, 0, false));
    more, u := Extend(id, FailedAppend, s, more, u, Drop(1));
    more, u := Extend(id, FailedAppend, s, more, u, Crash(1));
    assert u.claimers == map[1 := Crashed, 2 := Judging(0, Lock(0, Pid(1)))];
  }

  /**
   A failed append breaks exclusion: the lock it leaves behind is free for a third claimer, while the second
   still takes it for the dead first one's.
   */
  lemma {:induction false} FailedAppendBreaks(id: string) returns (s: Sys, labels: seq<Label>, t: Sys)
    ensures AtStart(id, s) && Reached(id, FailedAppend, s, labels, t)
    ensures |t.winners| == 2 && WorkingLines(t.board, id) == WorkingLines(s.board, id) + 2
  {
    BoardIsQueued(id);
    s := Sys(None, {}, 0, map[], QueuedBoard(id), [], false);
    labels, t := AppendFailed(id, s);
    labels, t := Extend(id, FailedAppend, s, labels, t, Start(3));
    labels, t := Enters(id, FailedAppend, s, labels, t, 3);
    labels, t := Extend(id, FailedAppend, s, labels, t, Judge(2, true));
    labels, t := TakesOver(id, FailedAppend, s, labels, t, 2);
    labels, t := BothWrite(id, FailedAppend, s, labels, t, 3, 2);
  }

  /** Claimer 1 is about to mark the dead lock while claimer 2 takes it over, wins, and lets go of lock and markers. */
  lemma {:induction false} WonAndReleased(id: string, s: Sys) returns (labels: seq<Label>, t: Sys)
    requires s == Sys(Some(Lock(0, Gone)), {}, 1, map[], QueuedBoard(id), [], false) && StatusOf(s.board, id) == Some(Queued)
    ensures Reached(id, Requeue, s, labels, t)
    ensures t == Sys(None, {}, 2, map[1 := Marking(0, 0), 2 := Returned(true)], s.board + [WorkingLine(id, 0, 2)], [2], true)
  {
    labels, t := ReadsDead(id, Requeue, s, [], s, 1);
    labels, t := ReadsDead(id, Requeue, s, labels, t, 2);
    labels, t := TakesOver(id, Requeue, s, labels, t, 2);
    labels, t := Extend(id, Requeue, s, labels, t, Append(2, 0, true));
    labels, t := Extend(id, Requeue, s, labels, t, Release(2));
    assert t.claimers == map[1 := Marking(0, 0), 2 := Returned(true)];
  }

  /**
   Clearing the markers breaks exclusion for the next launch: once the mission is queued again, a claimer
   left over from before the release removes the lock of the new one, and the second launch runs twice.
   */
  lemma {:induction false} RequeueBreaks(id: string) returns (s: Sys, labels: seq<Label>, t: Sys)
    ensures AtStart(id, s) && Reached(id, Requeue, s, labels, t)
    ensures t.winners == [2, 3, 1] && WorkingLines(t.board, id) == WorkingLines(s.board, id) + 3
  {
    BoardIsQueued(id);
    s := Sys(Some(Lock(0, Gone)), {}, 1, map[], QueuedBoard(id), [], false);
    labels, t := WonAndReleased(id, s);
    WorkingMoves(s.board, id, 0, 2);
    labels, t := Requeued(id, s, labels, t);
    labels, t := Extend(id, Requeue, s, labels, t, Start(3));
    labels, t := Enters(id, Requeue, s, labels, t, 3);
    labels, t := TakesOver(id, Requeue, s, labels, t, 1);
    labels, t := BothWrite(id, Requeue, s, labels, t, 3, 1);
  }

  lemma {:induction false} Requeued(id: string, s: Sys, labels: seq<Label>, t: Sys) returns (more: seq<Label>, u: Sys)
    requires Reached(id, Requeue, s, labels, t) && RecordOf(t.board, id).Some?
    ensures Reached(id, Requeue, s, more, u) && u == t.(board := u.board)
    ensures StatusOf(u.board, id) == Some(Queued) && WorkingLines(u.board, id) == WorkingLines(t.board, id)
  {
    var again := Line(id, 2, To(Queued), "", "", None, None, None, "", None);
    assert (t.board + [again])[..|t.board|] == t.board;
    more, u := Extend(id, Requeue, s, labels, t, Post(again));
  }

  /** The board once claimer 1 has won. */
  function WonBoard(id: string): seq<Line> { QueuedBoard(id) + [WorkingLine(id, 0, 1)] }

  lemma {:induction false} Wins(id: string, s: Sys) returns (labels: seq<Label>, t: Sys)
    requires s == Sys(None, {}, 0, map[], QueuedBoard(id), [], false) && StatusOf(s.board, id) == Some(Queued)
    ensures Reached(id, Nothing, s, labels, t)
    ensures t == Sys(Some(Lock(0, Pid(1))), {}, 1, map[1 := Returned(true)], WonBoard(id), [1], false)
  {
    labels, t := Extend(id, Nothing, s, [], s, Start(1));
    labels, t := Enters(id, Nothing, s, labels, t, 1);
    labels, t := Extend(id, Nothing, s, labels, t, Append(1, 0, true));
    assert t.claimers == map[1 := Returned(true)];
  }

  /** Claimer 1 wins and dies. */
  lemma {:induction false} Died(id: string, s: Sys) returns (labels: seq<Label>, t: Sys)
    requires s == Sys(None, {}, 0, map[], QueuedBoard(id), [], false) && StatusOf(s.board, id) == Some(Queued)
    ensures Reached(id, Nothing, s, labels, t) && StatusOf(WonBoard(id), id) == Some(Working)
    ensures t == Sys(Some(Lock(0, Pid(1))), {}, 1, map[1 := Crashed], WonBoard(id), [1], false)
  {
    labels, t := Wins(id, s);
    WorkingMoves(s.board, id, 0, 1);
    labels, t := Extend(id, Nothing, s, labels, t, Crash(1));
    assert t.claimers == map[1 := Crashed];
  }

  /** Claimer 2 finds the dead winner's lock and removes it. */
  lemma {:induction false} ClearsDead(id: string, s: Sys, labels: seq<Label>, t: Sys) returns (more: seq<Label>, u: Sys)
    requires Reached(id, Nothing, s, labels, t)
    requires t == Sys(Some(Lock(0, Pid(1))), {}, 1, map[1 := Crashed], WonBoard(id), [1], false)
    ensures Reached(id, Nothing, s, more, u)
    ensures u == Sys(None, {0}, 1, map[1 := Crashed, 2 := Trying(1)], WonBoard(id), [1], false)
  {
    more, u := Reads(id, Nothing, s, labels, t, 2);
    more, u := Extend(id, Nothing, s, more, u, Judge(2, true));
    more, u := Extend(id, Nothing, s, more, u, Mark(2));
    more, u := Extend(id, Nothing, s, more, u, Remove(2));
    assert u.claimers == map[1 := Crashed, 2 := Trying(1)];
  }

  /** Claimer 2 takes the lock and claimer 3 reads it. */
  lemma {:induction false} Retakes(id: string, s: Sys, labels: seq<Label>, t: Sys) returns (more: seq<Label>, u: Sys)
    requires Reached(id, Nothing, s, labels, t)
    requires t == Sys(None, {0}, 1, map[1 := Crashed, 2 := Trying(1)], WonBoard(id), [1], false)
    ensures Reached(id, Nothing, s, more, u)
    ensures u == Sys(Some(Lock(1, Pid(2))), {0}, 2, map[1 := Crashed, 2 := Owning, 3 := Judging(0, Lock(1, Pid(2)))], WonBoard(id), [1], false)
  {
    more, u := Extend(id, Nothing, s, labels, t, Take(2));
    more, u := Reads(id, Nothing, s, more, u, 3);
    assert u.claimers == map[1 := Crashed, 2 := Owning, 3 := Judging(0, Lock(1, Pid(2)))];
  }

  /** Claimer 2 finds the mission taken and lets go. */
  lemma {:induction false} LetsGo(id: string, s: Sys, labels: seq<Label>, t: Sys) returns (more: seq<Label>, u: Sys)
    requires Reached(id, Nothing, s, labels, t) && StatusOf(WonBoard(id), id) == Some(Working)
    requires t == Sys(Some(Lock(1, Pid(2))), {0}, 2, map[1 := Crashed, 2 := Owning, 3 := Judging(0, Lock(1, Pid(2)))], WonBoard(id), [1], false)
    ensures Reached(id, Nothing, s, more, u)
    ensures u == Sys(None, {0}, 2, map[1 := Crashed, 2 := Returned(false), 3 := Judging(0, Lock(1, Pid(2)))], WonBoard(id), [1], false)
  {
    more, u := Extend(id, Nothing, s, labels, t, ReadBoard(2));
    more, u := Extend(id, Nothing, s, more, u, Drop(2));
    assert u.claimers == map[1 := Crashed, 2 := Returned(false), 3 := Judging(0, Lock(1, Pid(2)))];
  }

  /** Claimer 2 ends; claimer 3 finds its lock's owner dead and marks the lock, while claimer 4 takes a new one. */
  lemma {:induction false} Misled(id: string, s: Sys, labels: seq<Label>, t: Sys) returns (more: seq<Label>, u: Sys)
    requires Reached(id, Nothing, s, labels, t)
    requires t == Sys(None, {0}, 2, map[1 := Crashed, 2 := Returned(false), 3 := Judging(0, Lock(1, Pid(2)))], WonBoard(id), [1], false)
    ensures Reached(id, Nothing, s, more, u)
    ensures 3 in u.claimers && u.claimers[3] == Removing(0, 1) && u.file == Some(Lock(2, Pid(4))) && Alive(u, Pid(4))
  {
    more, u := Extend(id, Nothing, s, labels, t, Crash(2));
    more, u := Extend(id, Nothing, s, more, u, Judge(3, true));
    more, u := Extend(id, Nothing, s, more, u, Mark(3));
    more, u := Extend(id, Nothing, s, more, u, Start(4));
    more, u := Extend(id, Nothing, s, more, u, Take(4));
  }

  /**
   Beyond that a removal may delete a live claimer's lock: once the winner has died, a claimer that finds the
   mission taken lets its lock go and ends, another that has read that lock finds its owner dead and marks
   it, and by then a third has a lock of its own in place. Nobody wins twice by it.
   */
  lemma {:induction false} DropMisleads(id: string) returns (s: Sys, labels: seq<Label>, t: Sys)
    ensures AtStart(id, s) && Reached(id, Nothing, s, labels, t)
    ensures 3 in t.claimers && t.claimers[3].Removing? && t.file.Some? && Alive(t, t.file.value.owner)
    ensures t.file.value.id != t.claimers[3].key
  {
    BoardIsQueued(id);
    s := Sys(None, {}, 0, map[], QueuedBoard(id), [], false);
    labels, t := Died(id, s);
    labels, t := ClearsDead(id, s, labels, t);
    labels, t := Retakes(id, s, labels, t);
    labels, t := LetsGo(id, s, labels, t);
    labels, t := Misled(id, s, labels, t);
  }

  // ------------------------------------------------------------------ one claim, as it is carried out

  /** What inspectLock reports. */
  datatype Verdict = Free | Held | Stale(key: nat)

  lemma {:induction false} RunLonger(id: string, s: Sys, labels: seq<Label>, t: Sys, l: Label)
    requires Run(id, s, labels) == Some(t)
    ensures Run(id, s, labels + [l]) == Step(id, t, l)
  {
    assert (labels + [l])[..|labels|] == labels;
  }

  lemma {:induction false} RunJoins(id: string, s: Sys, a: seq<Label>, t: Sys, b: seq<Label>, u: Sys)
    requires Run(id, s, a) == Some(t) && Run(id, t, b) == Some(u)
    ensures Run(id, s, a + b) == Some(u)
    decreases |b|
  {
    if b == [] {
      assert a + b == a;
    } else {
      var n := |b| - 1;
      RunJoins(id, s, a, t, b[..n], Run(id, t, b[..n]).value);
      assert (a + b)[..|a + b| - 1] == a + b[..n];
    }
  }

  /** The mission's directory and the board; the claimers' stages and who has won are kept for the proof. */
  class Directory {
    var file: Option<Lock>
    var markers: set<nat>
    var next: nat
    var board: seq<Line>
    ghost var claimers: map<nat, Stage>
    ghost var winners: seq<nat>
    ghost var released: bool

    constructor (board: seq<Line>)
      ensures State() == Sys(None, {}, 0, map[], board, [], false)
    {
      this.file, this.markers, this.next, this.board := None, {}, 0, board;
      this.claimers, this.winners, this.released := map[], [], false;
    }

    ghost function State(): Sys
      reads this
    {
      Sys(file, markers, next, claimers, board, winners, released)
    }

    method TakeLock(id: string, p: nat) returns (ok: bool)
      requires p in claimers && claimers[p].Trying?
      modifies this
      ensures Step(id, old(State()), Take(p)) == Some(State()) && ok == old(file).None?
    {
      ok := file.None?;
      if ok {
        file, next := Some(Lock(next, Pid(p))), next + 1;
        claimers := claimers[p := Owning];
      } else {
        claimers := claimers[p := Looking(claimers[p].n)];
      }
    }

    /** `dead` is what asking after the owner's pid, or the age of an unreadable lock, says. */
    method InspectLock(id: string, p: nat, dead: bool) returns (seen: Verdict, ghost labels: seq<Label>)
      requires p in claimers && claimers[p].Looking?
      requires file.Some? && dead ==> !Alive(State(), file.value.owner)
      modifies this
      ensures Run(id, old(State()), labels) == Some(State())
      ensures State() == At(old(State()), p,
        if seen.Free? then Again(old(claimers)[p].n) else if seen.Held? then Returned(false) else Marking(old(claimers)[p].n, seen.key))
      ensures seen == if file.None? then Free else if dead then Stale(file.value.id) else Held
    {
      ghost var s, n := State(), claimers[p].n;
      labels := [Look(p)];
      RunLonger(id, s, [], s, Look(p));
      assert [] + [Look(p)] == labels;
      if file.None? {
        claimers := claimers[p := Again(n)];
        return Free, labels;
      }
      claimers := claimers[p := Judging(n, file.value)];
      RunLonger(id, s, labels, State(), Judge(p, dead));
      labels := labels + [Judge(p, dead)];
      assert claimers[p := if dead then Marking(n, file.value.id) else Returned(false)]
        == s.claimers[p := if dead then Marking(n, file.value.id) else Returned(false)];
      claimers := claimers[p := if dead then Marking(n, file.value.id) else Returned(false)];
      seen := if dead then Stale(file.value.id) else Held;
    }

    /** True when this claimer created the marker; an old one found there is reaped. */
    method CreateMarker(id: string, p: nat, key: nat, aged: bool) returns (ok: bool, ghost mark: Label)
      requires p in claimers && claimers[p].Marking? && claimers[p].key == key
      modifies this
      ensures Step(id, old(State()), mark) == Some(State()) && ok == (key !in old(markers))
      ensures State() == if ok then At(old(State()), p, Removing(old(claimers)[p].n, key)).(markers := old(markers) + {key})
                         else At(old(State()), p, Returned(false)).(markers := if aged then old(markers) - {key} else old(markers))
    {
      ok, mark := key !in markers, if key in markers && aged then MarkReap(p) else Mark(p);
      if ok {
        markers := markers + {key};
        claimers := claimers[p := Removing(claimers[p].n, key)];
      } else {
        if aged { markers := markers - {key}; }
        claimers := claimers[p := Returned(false)];
      }
    }

    /** The owner gives its lock up again. */
    method GiveUp(id: string, p: nat) returns (ghost mark: Label)
      requires p in claimers && claimers[p].Dropping?
      modifies this
      ensures mark == Drop(p) && Step(id, old(State()), mark) == Some(State())
      ensures State() == At(old(State()), p, Returned(false)).(file := None)
    {
      mark := Drop(p);
      file, claimers := None, claimers[p := Returned(false)];
    }

    method WriteLine(id: string, p: nat, ts: int, wrote: bool) returns (ghost mark: Label)
      requires p in claimers && claimers[p].Appending?
      modifies this
      ensures mark == Append(p, ts, wrote) && Step(id, old(State()), mark) == Some(State())
      ensures State() == if wrote
        then At(old(State()), p, Returned(true)).(board := old(board) + [WorkingLine(id, ts, p)], winners := old(winners) + [p])
        else At(old(State()), p, Dropping)
    {
      mark := Append(p, ts, wrote);
      if wrote {
        board, claimers, winners := board + [WorkingLine(id, ts, p)], claimers[p := Returned(true)], winners + [p];
      } else {
        claimers := claimers[p := Dropping];
      }
    }

    method CheckBoard(id: string, p: nat) returns (queued: bool, ghost mark: Label)
      requires p in claimers && claimers[p].Owning?
      modifies this
      ensures mark == ReadBoard(p) && Step(id, old(State()), mark) == Some(State())
      ensures queued == (StatusOf(board, id) == Some(Queued))
      ensures State() == At(old(State()), p, if queued then Appending else Dropping)
    {
      mark := ReadBoard(p);
      var missions := FoldBoard(board);
      queued := FindStatus(board, missions, id);
      claimers := claimers[p := if queued then Appending else Dropping];
    }

    /** The last part of a claim: the board is read again under the lock. */
    method Settle(id: string, p: nat, ts: int, wrote: bool) returns (won: bool, ghost labels: seq<Label>)
      requires p in claimers && claimers[p].Owning?
      modifies this
      ensures Run(id, old(State()), labels) == Some(State())
      ensures won == (StatusOf(old(board), id) == Some(Queued) && wrote)
      ensures State() == if won then At(old(State()), p, Returned(true)).(board := old(board) + [WorkingLine(id, ts, p)], winners := old(winners) + [p])
                         else At(old(State()), p, Returned(false)).(file := None)
    {
      ghost var s := State();
      var queued, mark := CheckBoard(id, p);
      labels := [] + [mark];
      RunLonger(id, s, [], s, mark);
      ghost var t := State();
      if queued {
        mark := WriteLine(id, p, ts, wrote);
        RunLonger(id, s, labels, t, mark);
        labels, t := labels + [mark], State();
        assert claimers == s.claimers[p := if wrote then Returned(true) else Dropping];
      }
      won := queued && wrote;
      if !won {
        mark := GiveUp(id, p);
        RunLonger(id, s, labels, t, mark);
        labels := labels + [mark];
        assert claimers == s.claimers[p := Returned(false)];
      }
    }

    /** One pass of the loop: the lock is taken, the claim is lost, or a dead lock has been cleared away. */
    method Attempt(id: string, p: nat, dead: bool, aged: bool) returns (pass: Pass, ghost labels: seq<Label>)
      requires p in claimers && claimers[p].Trying? && claimers[p].n < ATTEMPTS
      requires file.Some? && dead ==> !Alive(State(), file.value.owner)
      modifies this
      ensures Run(id, old(State()), labels) == Some(State())
      ensures pass == if old(file).None? then Owned else if dead && old(file).value.id !in old(markers) then Cleared else Lost
      ensures State() == match pass
        case Owned => At(old(State()), p, Owning).(file := Some(Lock(old(next), Pid(p))), next := old(next) + 1)
        case Cleared => At(old(State()), p, Again(old(claimers)[p].n)).(file := None, markers := old(markers) + {old(file).value.id})
        case Lost => At(old(State()), p, Returned(false)).(markers := if dead && aged then old(markers) - {old(file).value.id} else old(markers))
    {
      ghost var s, t := State(), State();
      var took := TakeLock(id, p);
      RunLonger(id, s, [], s, Take(p));
      labels := [] + [Take(p)];
      if took { return Owned, labels; }
      t := State();
      var seen, looked := InspectLock(id, p, dead);
      RunJoins(id, s, labels, t, looked, State());
      labels := labels + looked;
      t := State();
      if seen.Held? {
        assert claimers == s.claimers[p := Returned(false)];
        return Lost, labels;
      }
      var cleared, more := TakeOver(id, p, seen.key, aged);
      RunJoins(id, s, labels, t, more, State());
      labels := labels + more;
      assert claimers == s.claimers[p := claimers[p]];
      pass := if cleared then Cleared else Lost;
    }

    /** The stale lock is marked and removed, or somebody else has marked it. */
    method TakeOver(id: string, p: nat, key: nat, aged: bool) returns (cleared: bool, ghost labels: seq<Label>)
      requires p in claimers && claimers[p].Marking? && claimers[p].key == key
      modifies this
      ensures Run(id, old(State()), labels) == Some(State()) && cleared == (key !in old(markers))
      ensures State() == if cleared then At(old(State()), p, Again(old(claimers)[p].n)).(file := None, markers := old(markers) + {key})
                         else At(old(State()), p, Returned(false)).(markers := if aged then old(markers) - {key} else old(markers))
    {
      ghost var s := State();
      var ok, mark := CreateMarker(id, p, key, aged);
      labels := [] + [mark];
      RunLonger(id, s, [], s, mark);
      cleared := ok;
      if ok {
        RunLonger(id, s, labels, State(), Remove(p));
        labels := labels + [Remove(p)];
        file, claimers := None, claimers[p := Again(claimers[p].n)];
        assert claimers == s.claimers[p := claimers[p]];
      }
    }

    /** The loop: the lock is held in the end, or the claim is lost. */
    method Acquire(id: string, p: nat, dead: bool, aged: bool) returns (held: bool, ghost labels: seq<Label>)
      requires p in claimers && claimers[p] == Trying(0)
      requires file.Some? && dead ==> !Alive(State(), file.value.owner)
      modifies this
      ensures Run(id, old(State()), labels) == Some(State())
      ensures held == (old(file).None? || Clearable(old(State()), dead))
      ensures held ==> State() == Own(Freed(old(State())), p)
      ensures !held ==> State() == At(old(State()), p, Returned(false)).(
                markers := if dead && aged then old(markers) - {old(file).value.id} else old(markers))
    {
      ghost var s := State();
      labels := [];
      var pass, attempt := Cleared, 0;
      while attempt < ATTEMPTS && pass == Cleared
        invariant Run(id, s, labels) == Some(State())
        invariant attempt <= 2 && pass != Lost
        invariant attempt == 0 ==> pass == Cleared && State() == s
        invariant attempt == 1 && pass == Owned ==> s.file.None? && State() == Own(s, p)
        invariant attempt == 1 && pass == Cleared ==> Clearable(s, dead) && State() == At(Clear(s), p, Trying(1))
        invariant attempt == 2 ==> pass == Owned && Clearable(s, dead) && State() == Own(Clear(s), p)
      {
        ghost var t, more := State(), [];
        pass, more := Attempt(id, p, dead, aged);
        RunJoins(id, s, labels, t, more, State());
        labels := labels + more;
        assert claimers == s.claimers[p := claimers[p]];
        if pass == Lost { return false, labels; }
        attempt := attempt + 1;
      }
      held := true;
    }

    /** From the first attempt on. */
    method Contend(id: string, p: nat, ts: int, dead: bool, aged: bool, wrote: bool) returns (won: bool, ghost labels: seq<Label>)
      requires p in claimers && claimers[p] == Trying(0)
      requires file.Some? && dead ==> !Alive(State(), file.value.owner)
      modifies this
      ensures Run(id, old(State()), labels) == Some(State())
      ensures won <==> Winnable(old(State()), id, dead, wrote)
      ensures State() == Claimed(old(State()), id, p, ts, dead, aged, won)
    {
      ghost var s := State();
      var held;
      held, labels := Acquire(id, p, dead, aged);
      won := false;
      if held {
        ghost var t, more := State(), [];
        won, more := Settle(id, p, ts, wrote);
        RunJoins(id, s, labels, t, more, State());
        labels := labels + more;
        assert claimers == s.claimers[p := Returned(won)];
      }
    }

    /**
     claimMission, with nobody else at it: the claim is a run of the protocol above, and it is won exactly
     when the lock is free, or dead and not yet marked, and the mission is queued and can be written.
     */
    method Claim(id: string, p: nat, ts: int, dead: bool, aged: bool, wrote: bool) returns (won: bool, ghost labels: seq<Label>)
      requires p in claimers ==> claimers[p].Returned?
      requires file.Some? && dead ==> !Alive(At(State(), p, Trying(0)), file.value.owner)
      modifies this
      ensures Run(id, old(State()), labels) == Some(State())
      ensures won <==> Winnable(old(State()), id, dead, wrote)
      ensures State() == Claimed(old(State()), id, p, ts, dead, aged, won)
    {
      ghost var s := State();
      claimers := claimers[p := Trying(0)];
      StartRuns(id, s, p);
      ClaimedAnyway(s, id, p, ts, dead, aged, true);
      ClaimedAnyway(s, id, p, ts, dead, aged, false);
      ghost var more;
      won, more := Contend(id, p, ts, dead, aged, wrote);
      RunJoins(id, s, [Start(p)], At(s, p, Trying(0)), more, State());
      labels := [Start(p)] + more;
    }
  }

  lemma {:induction false} StartRuns(id: string, s: Sys, p: nat)
    requires p in s.claimers ==> s.claimers[p].Returned?
    ensures Run(id, s, [Start(p)]) == Some(At(s, p, Trying(0)))
  {
    RunLonger(id, s, [], s, Start(p));
    assert [] + [Start(p)] == [Start(p)];
  }

  lemma {:induction false} ClaimedAnyway(s: Sys, id: string, p: nat, ts: int, dead: bool, aged: bool, won: bool)
    ensures Claimed(At(s, p, Trying(0)), id, p, ts, dead, aged, won) == Claimed(s, id, p, ts, dead, aged, won)
  {
    assert s.claimers[p := Trying(0)][p := Returned(won)] == s.claimers[p := Returned(won)];
  }

  /** The lock can be had, the mission is queued, and the line can be written. */
  predicate Winnable(s: Sys, id: string, dead: bool, wrote: bool) {
    (s.file.None? || Clearable(s, dead)) && StatusOf(s.board, id) == Some(Queued) && wrote
  }

  /** What a claim leaves behind: its lock and its line, or a free lock, or the lock that was there. */
  function Claimed(s: Sys, id: string, p: nat, ts: int, dead: bool, aged: bool, won: bool): Sys {
    var t := At(s, p, Returned(won));
    if s.file.None? || Clearable(s, dead) then
      var u := Freed(t).(next := s.next + 1);
      if won then u.(file := Some(Lock(s.next, Pid(p))), board := s.board + [WorkingLine(id, ts, p)], winners := s.winners + [p]) else u
    else if dead && aged then t.(markers := s.markers - {s.file.value.id}) else t
  }

  datatype Pass = Owned | Lost | Cleared

  predicate Clearable(s: Sys, dead: bool) { s.file.Some? && dead && s.file.value.id !in s.markers }

  /** The dead lock marked and removed. */
  function Clear(s: Sys): Sys
    requires s.file.Some?
  {
    s.(file := None, markers := s.markers + {s.file.value.id})
  }

  function Freed(s: Sys): Sys { if s.file.None? then s else Clear(s) }

  /** The free lock taken. */
  function Own(s: Sys, p: nat): Sys {
    At(s, p, Owning).(file := Some(Lock(s.next, Pid(p))), next := s.next + 1)
  }

  /** `missions.find(m => m.id === id)?.status === 'queued'` over a folded board. */
  method FindStatus(ghost board: seq<Line>, missions: seq<Mission>, id: string) returns (queued: bool)
    requires |missions| == |Seen(board)|
    requires forall k :: 0 <= k < |missions| ==> RecordOf(board, Seen(board)[k]) == Some(missions[k])
    ensures queued == (StatusOf(board, id) == Some(Queued))
  {
    var k := 0;
    SeenIsOpened(board, id);
    while k < |missions|
      invariant 0 <= k <= |missions|
      invariant id !in Seen(board)[..k]
    {
      RecordKeepsId(board, Seen(board)[k]);
      if missions[k].id == id { return missions[k].status == Queued; }
      assert Seen(board)[..k + 1] == Seen(board)[..k] + [Seen(board)[k]];
      k := k + 1;
    }
    assert Seen(board)[..k] == Seen(board);
    queued := false;
  }

  lemma {:induction false} RecordKeepsId(board: seq<Line>, id: string)
    ensures RecordOf(board, id).Some? ==> RecordOf(board, id).value.id == id
  {
    if board != [] { RecordKeepsId(board[..|board| - 1], id); }
  }
}
