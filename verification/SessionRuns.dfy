/**
 Whole runs of the session index (mission-control/server/state.ts, index-cache.ts, index-store.ts): starts
 from the cache or cold, refreshes with their throttled saves, and whatever happens to the transcripts
 between them. After every refresh the index says what a rebuild on the files as they are would say.
 */
module SessionRuns {
  import opened Options
  import opened CodeUnits
  import opened SessionLines
  import opened SessionIndex
  import opened SessionCache
  import opened SessionExact

  /** A transcript and which of its replacements it is. */
  datatype File = File(st: FileState, gen: nat)

  /** The text an entry was read from. */
  datatype Seen = Seen(content: Units, gen: nat)

  /** What a run keeps: hash, reader, codec, and the one project of each file. */
  datatype Setup = Setup(h: Units -> string, r: Reader, c: Codec, project: string -> string)

  /** The transcripts, the process and its cache file, and what the entries of each were read from. */
  datatype Sys = Sys(disk: map<string, File>, next: nat, k: Config, live: Live, seen: map<string, Seen>, from: map<string, Seen>)

  datatype Act =
    | Start(k: Config)
    | Look(now: int, listing: seq<Listed>, saved: bool)
    | Append(f: string, more: Units, mtime: int)
    | Touch(f: string, mtime: int)
    | Put(f: string, content: Units, mtime: int)
    | Delete(f: string)

  ghost predicate Proper(u: Setup) { CollisionFree(u.h) && Lawful(u.r) && Faithful(u.c) }

  function States(disk: map<string, File>): Disk { map f | f in disk :: disk[f].st }

  function SeenNow(disk: map<string, File>): map<string, Seen> { map f | f in disk :: Seen(disk[f].st.content, disk[f].gen) }

  /** A scan lists every transcript once, under its project. */
  predicate Lists(u: Setup, disk: map<string, File>, listing: seq<Listed>) {
    && Distinct(listing) && Names(listing) == disk.Keys
    && forall i :: 0 <= i < |listing| ==> listing[i].project == u.project(listing[i].file)
  }

  /** The entries a refresh starts from, and what they were read from. */
  function Base(u: Setup, a: Sys, now: int): (Index, map<string, Seen>) {
    if a.live.built then (a.live.files, a.seen)
    else
      var got := Cached(u.c, a.k, a.live.cache, now);
      if got.Loaded? then (Restored(got.stored), a.from) else (map[], map[])
  }

  /**
   A file that has been replaced since its entry was read is shorter now than it was then, or the entry is
   off the disk and its window has moved.
   */
  predicate Noticed(base: Index, seen: map<string, Seen>, disk: map<string, File>) {
    forall f :: f in base && f in seen && f in disk && disk[f].gen != seen[f].gen ==>
      ReadInFull(seen[f].content, base[f].needsVerify, disk[f].st.content)
  }

  ghost predicate Step(u: Setup, a: Sys, act: Act, b: Sys) {
    match act
    case Start(k) => b == a.(k := k, live := Live(false, map[], 0, 0, a.live.cache), seen := map[])
    case Look(now, listing, saved) =>
      && Lists(u, a.disk, listing) && Noticed(Base(u, a, now).0, Base(u, a, now).1, a.disk)
      && Looked(u.h, u.r, u.c, a.k, a.live, b.live, now, States(a.disk), listing, saved)
      && b == a.(live := b.live, seen := SeenNow(a.disk), from := if saved then SeenNow(a.disk) else a.from)
    case Append(f, more, mtime) =>
      f in a.disk && WholeLines(more) && b == a.(disk := a.disk[f := a.disk[f].(st := FileState(a.disk[f].st.content + more, mtime))])
    case Touch(f, mtime) =>
      f in a.disk && b == a.(disk := a.disk[f := a.disk[f].(st := FileState(a.disk[f].st.content, mtime))])
    case Put(f, content, mtime) =>
      WholeLines(content) && b == a.(disk := a.disk[f := File(FileState(content, mtime), a.next)], next := a.next + 1)
    case Delete(f) => b == a.(disk := a.disk - {f})
  }

  ghost predicate Run(u: Setup, states: seq<Sys>, labels: seq<Act>) {
    |states| == |labels| + 1 && forall i :: 0 <= i < |labels| ==> Step(u, states[i], labels[i], states[i + 1])
  }

  /** Nothing has been read and there is no cache file. */
  predicate Init(a: Sys) {
    && a.live == Live(false, map[], 0, 0, None) && a.seen == map[] && a.from == map[]
    && forall f :: f in a.disk ==> WholeLines(a.disk[f].st.content) && a.disk[f].gen < a.next
  }

  // ------------------------------------------------------------------ what every step keeps

  predicate DiskOk(disk: map<string, File>, next: nat) {
    forall f :: f in disk ==> WholeLines(disk[f].st.content) && disk[f].gen < next
  }

  /** One entry describes the text it was read from, which the file still starts with unless it was replaced. */
  ghost predicate BackedAt(u: Setup, f: string, e: Entry, s: Seen, disk: map<string, File>, next: nat) {
    && Describes(u.h, u.r, f, e, s.content) && e.project == u.project(f) && WholeLines(s.content) && s.gen < next
    && (f in disk && disk[f].gen == s.gen ==> s.content <= disk[f].st.content)
  }

  ghost predicate Backed(u: Setup, files: Index, seen: map<string, Seen>, disk: map<string, File>, next: nat) {
    files.Keys == seen.Keys && forall f :: f in files ==> BackedAt(u, f, files[f], seen[f], disk, next)
  }

  ghost predicate CacheBacked(u: Setup, cache: Option<string>, from: map<string, Seen>, disk: map<string, File>, next: nat) {
    forall o {:trigger Load(u.c, cache, o)} :: Load(u.c, cache, o).Loaded? ==>
      Backed(u, Restored(Load(u.c, cache, o).stored), from, disk, next)
  }

  /** The entries of the process and those of the cache file describe what they were read from. */
  ghost predicate Inv(u: Setup, a: Sys) {
    && DiskOk(a.disk, a.next)
    && (a.live.built ==> Backed(u, a.live.files, a.seen, a.disk, a.next))
    && CacheBacked(u, a.live.cache, a.from, a.disk, a.next)
  }

  /** The disk has gone on: files are gone, replaced, or longer. */
  predicate GoesOn(d: map<string, File>, n: nat, e: map<string, File>, m: nat) {
    && n <= m
    && forall f :: f in e && e[f].gen < n ==> f in d && d[f].gen == e[f].gen && d[f].st.content <= e[f].st.content
  }

  lemma {:induction false} BackedGoesOn(u: Setup, files: Index, seen: map<string, Seen>, d: map<string, File>, n: nat, e: map<string, File>, m: nat)
    requires Backed(u, files, seen, d, n) && GoesOn(d, n, e, m)
    ensures Backed(u, files, seen, e, m)
  {
    forall f | f in files ensures BackedAt(u, f, files[f], seen[f], e, m) {
      assert BackedAt(u, f, files[f], seen[f], d, n);
    }
  }

  lemma {:induction false} ChangeKeeps(u: Setup, a: Sys, b: Sys)
    requires Inv(u, a) && GoesOn(a.disk, a.next, b.disk, b.next) && DiskOk(b.disk, b.next)
    requires b == a.(disk := b.disk, next := b.next)
    ensures Inv(u, b)
  {
    if a.live.built { BackedGoesOn(u, a.live.files, a.seen, a.disk, a.next, b.disk, b.next); }
    forall o {:trigger Load(u.c, a.live.cache, o)} | Load(u.c, a.live.cache, o).Loaded?
      ensures Backed(u, Restored(Load(u.c, a.live.cache, o).stored), a.from, b.disk, b.next)
    {
      BackedGoesOn(u, Restored(Load(u.c, a.live.cache, o).stored), a.from, a.disk, a.next, b.disk, b.next);
    }
  }

  lemma {:induction false} AppendWhole(a: Units, b: Units)
    requires WholeLines(a) && WholeLines(b)
    ensures WholeLines(a + b)
  {
  }

  // ------------------------------------------------------------------ a refresh

  /** The index holds each file as it is. */
  ghost predicate AllCurrent(u: Setup, files: Index, disk: map<string, File>) {
    files.Keys == disk.Keys && forall f :: f in disk ==> Current(u.h, u.r, f, u.project(f), files[f], disk[f].st)
  }

  /** A file in the index and on the disk is one a look can follow. */
  lemma {:induction false} BackedFollows(u: Setup, files: Index, seen: map<string, Seen>, disk: map<string, File>, next: nat, f: string)
    requires Backed(u, files, seen, disk, next) && Noticed(files, seen, disk) && f in files && f in disk
    ensures Describes(u.h, u.r, f, files[f], seen[f].content) && files[f].project == u.project(f)
    ensures Follows(files[f].needsVerify, seen[f].content, disk[f].st.content)
  {
    assert BackedAt(u, f, files[f], seen[f], disk, next);
  }

  /** One file after a refresh. */
  lemma {:induction false} OneCurrent(u: Setup, files: Index, seen: map<string, Seen>, disk: map<string, File>, next: nat,
                                      listing: seq<Listed>, i: nat)
    requires Proper(u) && Lists(u, disk, listing) && i < |listing| && listing[i].file in disk
    requires Backed(u, files, seen, disk, next) && Noticed(files, seen, disk)
    ensures var (f, all) := (listing[i].file, RefreshAll(u.h, u.r, files, States(disk), listing));
      f in all && Current(u.h, u.r, f, u.project(f), all[f], disk[f].st)
  {
    var f := listing[i].file;
    RefreshEntry(u.h, u.r, files, States(disk), listing, i);
    if f in files {
      BackedFollows(u, files, seen, disk, next, f);
      LookIsCurrent(u.h, u.r, f, files[f], seen[f].content, u.project(f), disk[f].st);
    }
  }

  lemma {:induction false} RefreshedCurrent(u: Setup, files: Index, seen: map<string, Seen>, disk: map<string, File>, next: nat, listing: seq<Listed>)
    requires Proper(u) && Lists(u, disk, listing) && Backed(u, files, seen, disk, next) && Noticed(files, seen, disk)
    ensures AllCurrent(u, Refreshed(u.h, u.r, files, States(disk), listing), disk)
  {
    RefreshedKeys(u.h, u.r, files, States(disk), listing);
    forall f | f in disk ensures Current(u.h, u.r, f, u.project(f), Refreshed(u.h, u.r, files, States(disk), listing)[f], disk[f].st) {
      var i := ListedName(listing, f);
      OneCurrent(u, files, seen, disk, next, listing, i);
    }
  }

  lemma {:induction false} ColdCurrent(u: Setup, disk: map<string, File>, listing: seq<Listed>)
    requires Lists(u, disk, listing)
    ensures AllCurrent(u, ColdBuilt(u.h, u.r, States(disk), listing), disk)
  {
    ColdKeys(u.h, u.r, States(disk), listing);
    forall f | f in disk ensures Current(u.h, u.r, f, u.project(f), ColdBuilt(u.h, u.r, States(disk), listing)[f], disk[f].st) {
      var i := ListedName(listing, f);
      ColdEntry(u.h, u.r, States(disk), listing, i);
    }
  }

  /** Whatever a refresh starts from, the index it leaves holds each file as it is. */
  lemma {:induction false} LookCurrent(u: Setup, a: Sys, now: int, listing: seq<Listed>)
    requires Proper(u) && Inv(u, a) && Lists(u, a.disk, listing)
    requires Noticed(Base(u, a, now).0, Base(u, a, now).1, a.disk)
    ensures AllCurrent(u, Rebuilt(u.h, u.r, u.c, a.k, a.live, now, States(a.disk), listing).0, a.disk)
  {
    if a.live.built {
      RefreshedCurrent(u, a.live.files, a.seen, a.disk, a.next, listing);
    } else {
      var got := Cached(u.c, a.k, a.live.cache, now);
      if got.Loaded? {
        assert Backed(u, Restored(got.stored), a.from, a.disk, a.next);
        RefreshedCurrent(u, Restored(got.stored), a.from, a.disk, a.next, listing);
      } else {
        ColdCurrent(u, a.disk, listing);
      }
    }
  }

  lemma {:induction false} CurrentBacked(u: Setup, files: Index, disk: map<string, File>, next: nat)
    requires AllCurrent(u, files, disk) && DiskOk(disk, next)
    ensures Backed(u, files, SeenNow(disk), disk, next)
  {
    forall f | f in files ensures BackedAt(u, f, files[f], SeenNow(disk)[f], disk, next) {
      assert Current(u.h, u.r, f, u.project(f), files[f], disk[f].st);
    }
  }

  lemma {:induction false} SavedBacked(u: Setup, k: Config, cache: Option<string>, files: Index, at: int, now: int,
                                       seen: map<string, Seen>, disk: map<string, File>, next: nat)
    requires Proper(u) && SavedAs(u.c, k, cache, files, at, now) && Backed(u, files, seen, disk, next)
    ensures CacheBacked(u, cache, seen, disk, next)
  {
    var stored :| SameButUnverified(Restored(stored), files) && cache == Some(SaveText(u.c, stored, at, At(k, now)));
    MarkedBacked(u, Restored(stored), files, seen, disk, next);
    forall o {:trigger Load(u.c, cache, o)} | Load(u.c, cache, o).Loaded?
      ensures Backed(u, Restored(Load(u.c, cache, o).stored), seen, disk, next)
    {
      SaveLoads(u.c, stored, at, At(k, now), o);
    }
  }

  lemma {:induction false} MarkedBacked(u: Setup, marked: Index, files: Index, seen: map<string, Seen>, disk: map<string, File>, next: nat)
    requires SameButUnverified(marked, files) && Backed(u, files, seen, disk, next)
    ensures Backed(u, marked, seen, disk, next)
  {
    forall f | f in marked ensures BackedAt(u, f, marked[f], seen[f], disk, next) {
      assert BackedAt(u, f, files[f], seen[f], disk, next);
    }
  }

  lemma {:induction false} LookKeeps(u: Setup, a: Sys, act: Act, b: Sys)
    requires Proper(u) && Inv(u, a) && act.Look? && Step(u, a, act, b)
    ensures Inv(u, b) && AllCurrent(u, b.live.files, b.disk)
  {
    LookCurrent(u, a, act.now, act.listing);
    CurrentBacked(u, b.live.files, b.disk, b.next);
    if act.saved {
      SavedBacked(u, a.k, b.live.cache, b.live.files, b.live.fullBuildAt, act.now, b.seen, b.disk, b.next);
    }
  }

  /** Every step keeps the invariant. */
  lemma {:induction false} StepKeeps(u: Setup, a: Sys, act: Act, b: Sys)
    requires Proper(u) && Inv(u, a) && Step(u, a, act, b)
    ensures Inv(u, b)
  {
    match act
    case Start(_) =>
    case Look(_, _, _) => LookKeeps(u, a, act, b);
    case Append(f, more, _) => AppendWhole(a.disk[f].st.content, more); ChangeKeeps(u, a, b);
    case Touch(_, _) => ChangeKeeps(u, a, b);
    case Put(_, _, _) => ChangeKeeps(u, a, b);
    case Delete(_) => ChangeKeeps(u, a, b);
  }

  lemma {:induction false} InitHolds(u: Setup, a: Sys)
    requires Init(a)
    ensures Inv(u, a)
  {
  }

  lemma {:induction false} RunKeeps(u: Setup, states: seq<Sys>, labels: seq<Act>, i: nat)
    requires Proper(u) && Run(u, states, labels) && Init(states[0]) && i < |states|
    ensures Inv(u, states[i])
  {
    if i == 0 {
      InitHolds(u, states[0]);
    } else {
      RunKeeps(u, states, labels, i - 1);
      StepKeeps(u, states[i - 1], labels[i - 1], states[i]);
    }
  }

  /** The index says of every file on the disk, and of no other, what a rebuild from scratch says of it. */
  ghost predicate Agrees(u: Setup, files: Index, disk: map<string, File>, listing: seq<Listed>) {
    var cold := ColdBuilt(u.h, u.r, States(disk), listing);
    files.Keys == disk.Keys == cold.Keys
    && forall f :: f in disk ==> SameAsRebuilt(u.r, f, files[f], cold[f], disk[f].st.content)
  }

  lemma {:induction false} CurrentAgrees(u: Setup, files: Index, disk: map<string, File>, listing: seq<Listed>)
    requires AllCurrent(u, files, disk) && Lists(u, disk, listing)
    ensures Agrees(u, files, disk, listing)
  {
    var cold := ColdBuilt(u.h, u.r, States(disk), listing);
    ColdKeys(u.h, u.r, States(disk), listing);
    forall f | f in disk ensures SameAsRebuilt(u.r, f, files[f], cold[f], disk[f].st.content) {
      var i := ListedName(listing, f);
      ColdEntry(u.h, u.r, States(disk), listing, i);
      CurrentIsRebuilt(u.h, u.r, f, u.project(f), files[f], disk[f].st);
    }
  }

  /**
   In every run, after every refresh, the index has the turns, the summaries, and the models where every
   usage line names one, that a rebuild on the files as they are would have: whatever starts, cold or from
   the cache, whatever refreshes and saves, and whatever appends, touches, replacements, creations and
   deletions there were.
   */
  lemma {:induction false} IncrementalIsRebuilt(u: Setup, states: seq<Sys>, labels: seq<Act>, i: nat)
    requires Proper(u) && Run(u, states, labels) && Init(states[0]) && i < |labels| && labels[i].Look?
    ensures Agrees(u, states[i + 1].live.files, states[i + 1].disk, labels[i].listing)
  {
    RunKeeps(u, states, labels, i);
    LookKeeps(u, states[i], labels[i], states[i + 1]);
    CurrentAgrees(u, states[i + 1].live.files, states[i + 1].disk, labels[i].listing);
  }

  /** What the live state's refresh does is a step of a run. */
  lemma {:induction false} RefreshIsStep(u: Setup, a: Sys, l: Live, now: int, listing: seq<Listed>, saved: bool)
    requires Lists(u, a.disk, listing) && Noticed(Base(u, a, now).0, Base(u, a, now).1, a.disk)
    requires Looked(u.h, u.r, u.c, a.k, a.live, l, now, States(a.disk), listing, saved)
    ensures Step(u, a, Look(now, listing, saved),
                 a.(live := l, seen := SeenNow(a.disk), from := if saved then SeenNow(a.disk) else a.from))
  {
  }
}
