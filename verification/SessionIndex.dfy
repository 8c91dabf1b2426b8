/**
 The in-memory session index (mission-control/server/index-store.ts): each look skips, appends to,
 verifies or re-reads every transcript, and agrees with a rebuild from scratch.
 */
module SessionIndex {
  import opened Options
  import opened CodeUnits
  import opened SessionLines

  const BOUNDARY_BYTES: nat := 4096

  ghost predicate CollisionFree(f: Units -> string) {
    (forall a, b :: f(a) == f(b) ==> a == b) && (forall a :: f(a) != "")
  }

  /**
   A transcript on the disk. Lengths count code units, where the code counts bytes; what is proved needs only
   that a text's length grows with the text.
   */
  datatype FileState = FileState(content: Units, mtime: int)

  /** What the index holds of one transcript. */
  datatype Entry = Entry(size: nat, mtime: int, turns: seq<Turn>, model: Option<string>, project: string, session: string,
                         boundary: string, needsVerify: bool)

  /** One transcript as a scan lists it. */
  datatype Listed = Listed(file: string, project: string)

  datatype Summary = Summary(session: string, project: string, file: string, turnCount: nat, output: int, subagent: int,
                             first: Option<int>, last: Option<int>, model: Option<string>)

  /** The trailing window of a text. */
  function Window(c: Units): Units { c[if |c| > BOUNDARY_BYTES then |c| - BOUNDARY_BYTES else 0..] }

  /** The window ending at `size`, of a text that reaches that far. */
  function WindowAt(c: Units, size: nat): Units
    requires size <= |c|
  {
    Window(c[..size])
  }

  function AfterSlash(path: string): string {
    if path == "" then "" else if path[|path| - 1] == '/' then "" else AfterSlash(path[..|path| - 1]) + [path[|path| - 1]]
  }

  /** path.basename(file, '.jsonl'). */
  function SessionId(file: string): string {
    var base, n := AfterSlash(file), |".jsonl"|;
    if |base| > n && base[|base| - n..] == ".jsonl" then base[..|base| - n] else base
  }

  /** An entry says of a text what a full read of it would say, its model when every usage line names one. */
  ghost predicate Describes(h: Units -> string, r: Reader, f: string, e: Entry, c: Units) {
    && e.size == |c| && e.turns == r.turns(c) && e.session == SessionId(f)
    && (c != [] ==> e.boundary == h(Window(c)))
    && (r.named(c) ==> e.model == r.latest(c))
  }

  /** The entry of a full read. */
  function FreshEntry(h: Units -> string, r: Reader, f: string, project: string, st: FileState): Entry {
    Entry(|st.content|, st.mtime, r.turns(st.content), r.latest(st.content), project, SessionId(f), h(Window(st.content)), false)
  }

  // ------------------------------------------------------------------ one look at one file

  /** The window hashed over is no longer what the file holds there; nothing is hashed over no text. */
  predicate WindowMoved(was: Units, now: Units)
    requires |was| <= |now|
  {
    was == [] || WindowAt(now, |was|) != Window(was)
  }

  /** boundaryStillMatches. */
  predicate Anchored(h: Units -> string, e: Entry, c: Units) {
    0 < e.size <= |c| && h(WindowAt(c, e.size)) == e.boundary
  }

  /** The entry of a read from the recorded size on. */
  function AppendedEntry(h: Units -> string, r: Reader, e: Entry, project: string, st: FileState): Entry
    requires e.size <= |st.content|
  {
    var chunk := st.content[e.size..];
    Entry(|st.content|, st.mtime, e.turns + r.turns(chunk), OrElse(r.latest(chunk), e.model), project, e.session,
          if st.content == [] then "" else h(Window(st.content)), false)
  }

  /** The entry may be built on: it is this process's own, or its window is where it was. */
  predicate Trusted(h: Units -> string, e: Entry, c: Units) { |c| >= e.size && (!e.needsVerify || Anchored(h, e, c)) }

  /** What a look makes of a file it has an entry of: kept, read from the recorded size on, or read in full. */
  function LookAt(h: Units -> string, r: Reader, e: Entry, f: string, project: string, st: FileState): Entry {
    if !Trusted(h, e, st.content) then FreshEntry(h, r, f, project, st)
    else if e.mtime == st.mtime && e.size == |st.content| then e.(needsVerify := false)
    else AppendedEntry(h, r, e, project, st)
  }

  /** The entry is the file's as it is now. */
  ghost predicate Current(h: Units -> string, r: Reader, f: string, project: string, e: Entry, st: FileState) {
    Describes(h, r, f, e, st.content) && e.mtime == st.mtime && e.project == project && !e.needsVerify
  }

  /**
   What a look can follow: the file is shorter than it was, or has grown by whole lines, or an entry off the
   disk finds its window moved.
   */
  predicate Follows(verify: bool, was: Units, now: Units) {
    |now| < |was| || (was <= now && WholeLines(was)) || (verify && WindowMoved(was, now))
  }

  /** An entry of the old text, with the turns and the model of what was appended, is one of the new text. */
  lemma {:induction false} AppendDescribes(h: Units -> string, r: Reader, f: string, e: Entry, was: Units, project: string, st: FileState)
    requires Lawful(r) && Describes(h, r, f, e, was) && was <= st.content && WholeLines(was)
    ensures Current(h, r, f, project, AppendedEntry(h, r, e, project, st), st)
  {
    assert st.content == was + st.content[e.size..];
  }

  /** A look at a file it can follow gives an entry that says what a full read would. */
  lemma {:induction false} LookIsCurrent(h: Units -> string, r: Reader, f: string, e: Entry, was: Units, project: string, st: FileState)
    requires CollisionFree(h) && Lawful(r) && Describes(h, r, f, e, was) && e.project == project
    requires Follows(e.needsVerify, was, st.content)
    ensures Current(h, r, f, project, LookAt(h, r, e, f, project, st), st)
  {
    if Trusted(h, e, st.content) {
      assert was <= st.content && WholeLines(was);
      if e.size == |st.content| { assert was == st.content; }
      AppendDescribes(h, r, f, e, was, project, st);
    }
  }

  // ------------------------------------------------------------------ summaries

  function Outputs(turns: seq<Turn>, sideOnly: bool): int {
    if turns == [] then 0
    else Outputs(turns[..|turns| - 1], sideOnly) + if sideOnly && !turns[|turns| - 1].side then 0 else turns[|turns| - 1].out
  }

  function First(turns: seq<Turn>): Option<int> {
    if turns == [] then None
    else
      var f, t := First(turns[..|turns| - 1]), turns[|turns| - 1].t;
      if f.None? || t < f.value then Some(t) else f
  }

  function Last(turns: seq<Turn>): Option<int> {
    if turns == [] then None
    else
      var l, t := Last(turns[..|turns| - 1]), turns[|turns| - 1].t;
      if l.None? || t > l.value then Some(t) else l
  }

  function SummaryOf(f: string, e: Entry): Summary {
    Summary(e.session, e.project, f, |e.turns|, Outputs(e.turns, false), Outputs(e.turns, true), First(e.turns), Last(e.turns), e.model)
  }

  /** summarize: totals, and the first and last time, in one pass. */
  method Summarize(f: string, e: Entry) returns (s: Summary)
    ensures s == SummaryOf(f, e)
  {
    var output, subagent, i := 0, 0, 0;
    var first, last: Option<int> := None, None;
    while i < |e.turns|
      invariant 0 <= i <= |e.turns|
      invariant output == Outputs(e.turns[..i], false) && subagent == Outputs(e.turns[..i], true)
      invariant first == First(e.turns[..i]) && last == Last(e.turns[..i])
    {
      var t := e.turns[i];
      assert e.turns[..i + 1][..i] == e.turns[..i];
      output := output + t.out;
      if t.side { subagent := subagent + t.out; }
      if first.None? || t.t < first.value { first := Some(t.t); }
      if last.None? || t.t > last.value { last := Some(t.t); }
      i := i + 1;
    }
    assert e.turns[..i] == e.turns;
    s := Summary(e.session, e.project, f, |e.turns|, output, subagent, first, last, e.model);
  }

  /** The times of a summary are those of some turn, and every turn lies between them. */
  lemma {:induction false} TimesSpan(turns: seq<Turn>)
    requires turns != []
    ensures First(turns).Some? && Last(turns).Some?
    ensures forall i :: 0 <= i < |turns| ==> First(turns).value <= turns[i].t <= Last(turns).value
    ensures exists i :: 0 <= i < |turns| && turns[i].t == First(turns).value
    ensures exists i :: 0 <= i < |turns| && turns[i].t == Last(turns).value
  {
    var n := |turns| - 1;
    if n > 0 {
      TimesSpan(turns[..n]);
      var i :| 0 <= i < n && turns[..n][i].t == First(turns[..n]).value;
      var j :| 0 <= j < n && turns[..n][j].t == Last(turns[..n]).value;
      assert turns[i].t == First(turns[..n]).value && turns[j].t == Last(turns[..n]).value;
      assert forall k :: 0 <= k < n ==> turns[..n][k] == turns[k];
    }
    assert turns[n].t == turns[|turns| - 1].t;
  }

  /** The index says of a file what a rebuild would: the turns, the summary, and the model when every usage line names one. */
  predicate SameAsRebuilt(r: Reader, f: string, e: Entry, fresh0: Entry, c: Units) {
    && e.turns == fresh0.turns && e.size == fresh0.size && e.mtime == fresh0.mtime
    && SummaryOf(f, e) == SummaryOf(f, fresh0).(model := e.model)
    && (r.named(c) ==> SummaryOf(f, e) == SummaryOf(f, fresh0) && e.model == fresh0.model)
    && (c != [] ==> e.boundary == fresh0.boundary)
  }

  lemma {:induction false} CurrentIsRebuilt(h: Units -> string, r: Reader, f: string, project: string, e: Entry, st: FileState)
    requires Current(h, r, f, project, e, st)
    ensures SameAsRebuilt(r, f, e, FreshEntry(h, r, f, project, st), st.content)
  {
  }

  // ------------------------------------------------------------------ all listed files

  predicate Distinct(listing: seq<Listed>) { forall i, j :: 0 <= i < j < |listing| ==> listing[i].file != listing[j].file }

  function Names(listing: seq<Listed>): set<string> {
    if listing == [] then {} else Names(listing[..|listing| - 1]) + {listing[|listing| - 1].file}
  }

  type Index = map<string, Entry>

  type Disk = map<string, FileState>

  /** One turn of refresh's loop; a file that is gone by then is left as it was. */
  function RefreshOne(h: Units -> string, r: Reader, files: Index, disk: Disk, x: Listed): Index {
    if x.file !in disk then files
    else
      files[x.file := if x.file in files then LookAt(h, r, files[x.file], x.file, x.project, disk[x.file])
                      else FreshEntry(h, r, x.file, x.project, disk[x.file])]
  }

  function RefreshAll(h: Units -> string, r: Reader, files: Index, disk: Disk, listing: seq<Listed>): Index {
    if listing == [] then files
    else RefreshOne(h, r, RefreshAll(h, r, files, disk, listing[..|listing| - 1]), disk, listing[|listing| - 1])
  }

  /** What refresh leaves: the listed files, looked at, and no others. */
  function Refreshed(h: Units -> string, r: Reader, files: Index, disk: Disk, listing: seq<Listed>): Index {
    var all := RefreshAll(h, r, files, disk, listing);
    all - (all.Keys - Names(listing))
  }

  /** What buildCold leaves. */
  function ColdBuilt(h: Units -> string, r: Reader, disk: Disk, listing: seq<Listed>): Index {
    if listing == [] then map[]
    else
      var files, x := ColdBuilt(h, r, disk, listing[..|listing| - 1]), listing[|listing| - 1];
      if x.file !in disk then files else files[x.file := FreshEntry(h, r, x.file, x.project, disk[x.file])]
  }

  /** The entry a rebuild has for a file. */
  lemma {:induction false} ColdEntry(h: Units -> string, r: Reader, disk: Disk, listing: seq<Listed>, i: nat)
    requires Distinct(listing) && i < |listing| && listing[i].file in disk
    ensures var (x, cold) := (listing[i], ColdBuilt(h, r, disk, listing));
      x.file in cold && cold[x.file] == FreshEntry(h, r, x.file, x.project, disk[x.file])
  {
    var n := |listing| - 1;
    if i < n { ColdEntry(h, r, disk, listing[..n], i); }
  }

  lemma {:induction false} ColdKeys(h: Units -> string, r: Reader, disk: Disk, listing: seq<Listed>)
    ensures ColdBuilt(h, r, disk, listing).Keys == Names(listing) * disk.Keys
  {
    if listing != [] { ColdKeys(h, r, disk, listing[..|listing| - 1]); }
  }

  lemma {:induction false} NotListed(listing: seq<Listed>, f: string)
    requires forall i :: 0 <= i < |listing| ==> listing[i].file != f
    ensures f !in Names(listing)
  {
    if listing != [] { NotListed(listing[..|listing| - 1], f); }
  }

  lemma {:induction false} ListedName(listing: seq<Listed>, f: string) returns (i: nat)
    requires f in Names(listing)
    ensures i < |listing| && listing[i].file == f
  {
    if f == listing[|listing| - 1].file { i := |listing| - 1; } else { i := ListedName(listing[..|listing| - 1], f); }
  }

  /** A file not listed is left as it was. */
  lemma {:induction false} RefreshOther(h: Units -> string, r: Reader, files: Index, disk: Disk, listing: seq<Listed>, f: string)
    requires f !in Names(listing)
    ensures var all := RefreshAll(h, r, files, disk, listing); (f in all <==> f in files) && (f in all ==> all[f] == files[f])
  {
    if listing != [] { RefreshOther(h, r, files, disk, listing[..|listing| - 1], f); }
  }

  /** What a refresh makes of each listed file. */
  lemma {:induction false} RefreshEntry(h: Units -> string, r: Reader, files: Index, disk: Disk, listing: seq<Listed>, i: nat)
    requires Distinct(listing) && i < |listing| && listing[i].file in disk
    ensures var (x, all) := (listing[i], RefreshAll(h, r, files, disk, listing));
      && x.file in all
      && all[x.file] == if x.file in files then LookAt(h, r, files[x.file], x.file, x.project, disk[x.file])
                        else FreshEntry(h, r, x.file, x.project, disk[x.file])
  {
    var n := |listing| - 1;
    if i < n {
      RefreshEntry(h, r, files, disk, listing[..n], i);
    } else {
      NotListed(listing[..n], listing[n].file);
      RefreshOther(h, r, files, disk, listing[..n], listing[n].file);
    }
  }

  lemma {:induction false} RefreshKeys(h: Units -> string, r: Reader, files: Index, disk: Disk, listing: seq<Listed>)
    ensures RefreshAll(h, r, files, disk, listing).Keys == files.Keys + Names(listing) * disk.Keys
  {
    if listing != [] { RefreshKeys(h, r, files, disk, listing[..|listing| - 1]); }
  }

  /** Where every listed file is on the disk, the listed files are left and no others. */
  lemma {:induction false} RefreshedKeys(h: Units -> string, r: Reader, files: Index, disk: Disk, listing: seq<Listed>)
    requires Names(listing) <= disk.Keys
    ensures Refreshed(h, r, files, disk, listing).Keys == Names(listing)
  {
    RefreshKeys(h, r, files, disk, listing);
  }

  // ------------------------------------------------------------------ the store

  class IndexStore {
    const h: Units -> string
    const r: Reader
    var files: Index
    /** What the last look did: every listed file lands in exactly one of these. */
    var readCount: nat
    var skips: nat
    var unread: nat

    constructor (h: Units -> string, r: Reader)
      ensures files == map[] && this.h == h && this.r == r
    {
      this.h, this.r := h, r;
      files := map[];
      readCount, skips, unread := 0, 0, 0;
    }

    function Bucketed(): nat
      reads this`readCount, this`skips, this`unread
    {
      readCount + skips + unread
    }

    /** startCounting: the counters are per look. */
    method StartCounting()
      modifies this`readCount, this`skips, this`unread
      ensures readCount == skips == unread == 0
    {
      readCount, skips, unread := 0, 0, 0;
    }

    /** readFull: the file's entry is read from scratch. */
    method ReadFull(f: string, project: string, st: FileState)
      modifies this`files, this`readCount
      ensures files == old(files)[f := FreshEntry(h, r, f, project, st)] && readCount == old(readCount) + 1
    {
      var entry := Entry(|st.content|, st.mtime, r.turns(st.content), r.latest(st.content), project, SessionId(f), h(Window(st.content)), false);
      assert entry == FreshEntry(h, r, f, project, st);
      files := files[f := entry];
      readCount := readCount + 1;
    }

    /** boundaryStillMatches: the window the entry was hashed over is still what the file holds there. */
    method BoundaryStillMatches(e: Entry, c: Units) returns (ok: bool)
      ensures ok == Anchored(h, e, c)
    {
      if e.size == 0 || |c| < e.size { return false; }
      ok := h(WindowAt(c, e.size)) == e.boundary;
    }

    /** readAppended: what lies past the recorded size is read, and the window hashed again. True when bytes were read. */
    method ReadAppended(f: string, project: string, e: Entry, st: FileState) returns (read: bool)
      requires e.size <= |st.content|
      modifies this`files, this`readCount
      ensures files == old(files)[f := AppendedEntry(h, r, e, project, st)]
      ensures read == (|st.content| > e.size) && readCount == old(readCount) + if read then 1 else 0
    {
      var chunk := st.content[e.size..];
      read := |chunk| > 0;
      if read { readCount := readCount + 1; }
      var boundary := if st.content == [] then "" else h(Window(st.content));
      var entry := Entry(|st.content|, st.mtime, e.turns + r.turns(chunk), OrElse(r.latest(chunk), e.model), project, e.session, boundary, false);
      assert entry == AppendedEntry(h, r, e, project, st);
      files := files[f := entry];
    }

    /** hydrate: entries off a persisted index, none of them trusted yet. */
    method Hydrate(entries: Index)
      modifies this`files
      ensures files == Unverified(entries)
    {
      files := map f | f in entries :: entries[f].(needsVerify := true);
    }

    /** One listed file: skipped, read from the recorded size on, or read in full. */
    method Look(disk: Disk, x: Listed) returns (changed: bool)
      modifies this`files, this`readCount, this`skips, this`unread
      ensures files == RefreshOne(h, r, old(files), disk, x) && Bucketed() == old(Bucketed()) + 1
      ensures (changed ==> x.file in disk) && skips == old(skips) + if x.file in disk && !changed then 1 else 0
    {
      var f := x.file;
      if f !in disk {
        unread := unread + 1;
        return false;
      }
      var st := disk[f];
      if f in files {
        var e := files[f];
        if e.mtime == st.mtime && e.size == |st.content| {
          var ok := !e.needsVerify;
          if !ok { ok := BoundaryStillMatches(e, st.content); }
          if ok {
            files := files[f := e.(needsVerify := false)];
            skips := skips + 1;
            return false;
          }
          ReadFull(f, x.project, st);
          return true;
        }
        if |st.content| >= e.size {
          var ok := !e.needsVerify;
          if !ok { ok := BoundaryStillMatches(e, st.content); }
          if ok {
            var read := ReadAppended(f, x.project, e, st);
            if !read { unread := unread + 1; }
            return true;
          }
        }
      }
      ReadFull(f, x.project, st);
      changed := true;
    }

    /** buildCold: every listed file read in full, nothing reused. */
    method BuildCold(disk: Disk, listing: seq<Listed>) returns (scanned: nat)
      modifies this
      ensures files == ColdBuilt(h, r, disk, listing) && scanned == |listing| == readCount + unread && skips == 0
    {
      files, scanned := map[], 0;
      StartCounting();
      var i := 0;
      while i < |listing|
        invariant 0 <= i <= |listing| && files == ColdBuilt(h, r, disk, listing[..i])
        invariant scanned == i == readCount + unread && skips == 0
      {
        assert listing[..i + 1][..i] == listing[..i];
        var x := listing[i];
        scanned := scanned + 1;
        if x.file in disk { ReadFull(x.file, x.project, disk[x.file]); } else { unread := unread + 1; }
        i := i + 1;
      }
      assert listing[..i] == listing;
    }

    /** refresh: every listed file looked at, the others dropped; each file counted in exactly one bucket. */
    method Refresh(disk: Disk, listing: seq<Listed>) returns (scanned: nat, changed: nat, removed: set<string>)
      modifies this
      ensures files == Refreshed(h, r, old(files), disk, listing)
      ensures scanned == |listing| == Bucketed() && changed + skips <= scanned
      ensures removed == RefreshAll(h, r, old(files), disk, listing).Keys - Names(listing)
    {
      StartCounting();
      scanned, changed := 0, 0;
      var i := 0;
      while i < |listing|
        invariant 0 <= i <= |listing| && files == RefreshAll(h, r, old(files), disk, listing[..i])
        invariant scanned == i == Bucketed() && changed + skips <= i
      {
        assert listing[..i + 1][..i] == listing[..i];
        scanned := scanned + 1;
        var moved := Look(disk, listing[i]);
        if moved { changed := changed + 1; }
        i := i + 1;
      }
      assert listing[..i] == listing;
      removed := files.Keys - Names(listing);
      files := files - removed;
    }
  }

  /** Entries read off the disk, to be checked before they are used. */
  function Unverified(entries: Index): Index { map f | f in entries :: entries[f].(needsVerify := true) }
}
