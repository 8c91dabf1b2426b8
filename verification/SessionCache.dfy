/**
 The persisted session index (mission-control/server/index-cache.ts) and the state that starts from it,
 refreshes and saves it (mission-control/server/state.ts).
 */
module SessionCache {
  import opened Options
  import opened CodeUnits
  import opened SessionLines
  import opened SessionIndex

  const FORMAT_VERSION: int := 2

  /** One entry as it is stored. */
  datatype Stored = Stored(file: string, size: nat, mtime: int, boundary: string, project: string, session: string,
                           model: Option<string>, turns: seq<Turn>)

  datatype Meta = Meta(v: int, fingerprint: string, corpusRoot: string, fullBuildAt: int, savedAt: int, payloadHash: string, entries: nat)

  /** JSON both ways, and the hash of a line. */
  datatype Codec = Codec(metaText: Meta -> string, parseMeta: string -> Option<Meta>,
                         payloadText: seq<Stored> -> string, parsePayload: string -> Option<seq<Stored>>, hash: string -> string)

  ghost predicate Faithful(c: Codec) {
    && (forall m :: c.parseMeta(c.metaText(m)) == Some(m) && '\n' !in c.metaText(m))
    && (forall s :: c.parsePayload(c.payloadText(s)) == Some(s))
    && (forall a, b :: c.hash(a) == c.hash(b) ==> a == b)
  }

  /** Who is loading: the parsers' fingerprint, the transcript root, the time, and how old a full build may be. */
  datatype Opts = Opts(fingerprint: string, corpusRoot: string, now: int, maxAge: int)

  datatype Failure = Absent | Malformed | VersionMismatch | FingerprintMismatch | CorpusRootMismatch | PayloadHashMismatch | FullBuildTooOld

  datatype Result = Loaded(stored: seq<Stored>, fullBuildAt: int) | Declined(reason: Failure)

  function FindNewline(s: string): Option<nat> {
    if s == "" then None
    else if s[0] == '\n' then Some(0)
    else var n := FindNewline(s[1..]); if n.None? then None else Some(1 + n.value)
  }

  lemma {:induction false} NewlineFound(a: string, b: string)
    requires '\n' !in a
    ensures FindNewline(a + "\n" + b) == Some(|a|)
  {
    if a == "" {
      assert a + "\n" + b == "\n" + b;
    } else {
      NewlineFound(a[1..], b);
      assert (a + "\n" + b)[1..] == a[1..] + "\n" + b;
    }
  }

  lemma {:induction false} NewlineAt(s: string)
    requires FindNewline(s).Some?
    ensures FindNewline(s).value < |s|
  {
    if s[0] != '\n' { NewlineAt(s[1..]); }
  }

  /** load: the guards in their order; None is a file that is not there. */
  function Load(c: Codec, text: Option<string>, o: Opts): Result {
    if text.None? then Declined(Absent)
    else
      var nl := FindNewline(text.value);
      if nl.None? then Declined(Malformed)
      else
        NewlineAt(text.value);
        LoadLines(c, text.value[..nl.value], text.value[nl.value + 1..], o)
  }

  function LoadLines(c: Codec, metaLine: string, payloadLine: string, o: Opts): Result {
    var m := c.parseMeta(metaLine);
    if m.None? then Declined(Malformed)
    else if m.value.v != FORMAT_VERSION then Declined(VersionMismatch)
    else if m.value.fingerprint != o.fingerprint then Declined(FingerprintMismatch)
    else if m.value.corpusRoot != o.corpusRoot then Declined(CorpusRootMismatch)
    else if c.hash(payloadLine) != m.value.payloadHash then Declined(PayloadHashMismatch)
    else if o.now - m.value.fullBuildAt > o.maxAge then Declined(FullBuildTooOld)
    else if c.parsePayload(payloadLine).None? then Declined(Malformed)
    else Loaded(c.parsePayload(payloadLine).value, m.value.fullBuildAt)
  }

  function MetaOf(c: Codec, stored: seq<Stored>, fullBuildAt: int, o: Opts): Meta {
    Meta(FORMAT_VERSION, o.fingerprint, o.corpusRoot, fullBuildAt, o.now, c.hash(c.payloadText(stored)), |stored|)
  }

  /** The body save writes. */
  function SaveText(c: Codec, stored: seq<Stored>, fullBuildAt: int, o: Opts): string {
    c.metaText(MetaOf(c, stored, fullBuildAt, o)) + "\n" + c.payloadText(stored)
  }

  lemma {:induction false} TwoLines(c: Codec, m: Meta, payloadLine: string, o: Opts)
    requires Faithful(c)
    ensures Load(c, Some(c.metaText(m) + "\n" + payloadLine), o) == LoadLines(c, c.metaText(m), payloadLine, o)
  {
    var a := c.metaText(m);
    var text := a + "\n" + payloadLine;
    NewlineFound(a, payloadLine);
    assert text[..|a|] == a && text[|a| + 1..] == payloadLine;
  }

  /**
   What is saved is loaded back, exactly when the parsers and the root are the ones it was saved under and
   the full build is not too old.
   */
  lemma {:induction false} SaveLoads(c: Codec, stored: seq<Stored>, fullBuildAt: int, saved: Opts, o: Opts)
    requires Faithful(c)
    ensures Load(c, Some(SaveText(c, stored, fullBuildAt, saved)), o).Loaded?
      <==> saved.fingerprint == o.fingerprint && saved.corpusRoot == o.corpusRoot && o.now - fullBuildAt <= o.maxAge
    ensures var l := Load(c, Some(SaveText(c, stored, fullBuildAt, saved)), o);
      l.Loaded? ==> l == Loaded(stored, fullBuildAt)
  {
    TwoLines(c, MetaOf(c, stored, fullBuildAt, saved), c.payloadText(stored), o);
  }

  /** A payload other than the one saved is never loaded: a torn or altered line fails its hash. */
  lemma {:induction false} DamageDeclined(c: Codec, stored: seq<Stored>, fullBuildAt: int, saved: Opts, payload: string, o: Opts)
    requires Faithful(c) && payload != c.payloadText(stored)
    ensures Load(c, Some(c.metaText(MetaOf(c, stored, fullBuildAt, saved)) + "\n" + payload), o).Declined?
  {
    TwoLines(c, MetaOf(c, stored, fullBuildAt, saved), payload, o);
  }

  // ------------------------------------------------------------------ entries in and out

  function ToStored(f: string, e: Entry): Stored { Stored(f, e.size, e.mtime, e.boundary, e.project, e.session, e.model, e.turns) }

  function FromStored(s: Stored): Entry { Entry(s.size, s.mtime, s.turns, s.model, s.project, s.session, s.boundary, true) }

  /** The index the stored entries stand for. */
  function Restored(stored: seq<Stored>): map<string, Entry> {
    if stored == [] then map[]
    else
      var s := stored[|stored| - 1];
      Restored(stored[..|stored| - 1])[s.file := FromStored(s)]
  }

  /** `entries` with every entry marked as read off the disk. */
  ghost predicate SameButUnverified(a: map<string, Entry>, b: map<string, Entry>) {
    a.Keys == b.Keys && forall f :: f in a ==> a[f] == b[f].(needsVerify := true)
  }

  lemma {:induction false} RestoreOne(stored: seq<Stored>, s: Stored)
    ensures Restored(stored + [s]) == Restored(stored)[s.file := FromStored(s)]
  {
    assert (stored + [s])[..|stored|] == stored;
  }

  /** The stored form of an index, entry by entry, in any order. */
  method StoreAll(files: map<string, Entry>) returns (stored: seq<Stored>)
    ensures SameButUnverified(Restored(stored), files)
  {
    stored := [];
    var left := files.Keys;
    while left != {}
      invariant left <= files.Keys
      invariant Restored(stored).Keys == files.Keys - left
      invariant forall f :: f in Restored(stored) ==> Restored(stored)[f] == files[f].(needsVerify := true)
      decreases left
    {
      var f :| f in left;
      RestoreOne(stored, ToStored(f, files[f]));
      stored, left := stored + [ToStored(f, files[f])], left - {f};
    }
  }

  /** What is restored needs no further marking. */
  lemma {:induction false} RestoredUnverified(stored: seq<Stored>)
    ensures Unverified(Restored(stored)) == Restored(stored)
  {
    if stored != [] { RestoredUnverified(stored[..|stored| - 1]); }
  }

  // ------------------------------------------------------------------ the state

  const SAVE_MIN_INTERVAL_MS: int := 300000

  /** How a process was started. */
  datatype Config = Config(fingerprint: string, corpusRoot: string, maxAge: int, cacheEnabled: bool)

  /** What a process holds, and the cache file it finds and leaves. */
  datatype Live = Live(built: bool, files: Index, fullBuildAt: int, lastSaveAt: int, cache: Option<string>)

  function At(k: Config, now: int): Opts { Opts(k.fingerprint, k.corpusRoot, now, k.maxAge) }

  /** What the cache gives a start. */
  function Cached(c: Codec, k: Config, cache: Option<string>, now: int): Result {
    if k.cacheEnabled then Load(c, cache, At(k, now)) else Declined(Absent)
  }

  /** The index and the time of its full build after a refresh. */
  function Rebuilt(h: Units -> string, r: Reader, c: Codec, k: Config, l: Live, now: int, disk: Disk, listing: seq<Listed>): (Index, int) {
    if l.built then (Refreshed(h, r, l.files, disk, listing), l.fullBuildAt)
    else
      var got := Cached(c, k, l.cache, now);
      if got.Loaded? then (Refreshed(h, r, Restored(got.stored), disk, listing), got.fullBuildAt)
      else (ColdBuilt(h, r, disk, listing), now)
  }

  /** The interval since the last save is over. */
  predicate Due(k: Config, lastSaveAt: int, now: int) {
    k.cacheEnabled && (lastSaveAt == 0 || now - lastSaveAt >= SAVE_MIN_INTERVAL_MS)
  }

  /** A saved file holds the index as it is, its entries in some order. */
  ghost predicate SavedAs(c: Codec, k: Config, cache: Option<string>, files: Index, fullBuildAt: int, now: int) {
    exists stored :: SameButUnverified(Restored(stored), files) && cache == Some(SaveText(c, stored, fullBuildAt, At(k, now)))
  }

  /** One refresh of a live state, saved at its end or not. */
  ghost predicate Looked(h: Units -> string, r: Reader, c: Codec, k: Config, was: Live, l: Live, now: int, disk: Disk,
                         listing: seq<Listed>, saved: bool)
  {
    && l.built && (l.files, l.fullBuildAt) == Rebuilt(h, r, c, k, was, now, disk, listing)
    && if saved then Due(k, was.lastSaveAt, now) && l.lastSaveAt == now && SavedAs(c, k, l.cache, l.files, l.fullBuildAt, now)
       else l.cache == was.cache && l.lastSaveAt == was.lastSaveAt
  }

  class LiveState {
    const store: IndexStore
    const c: Codec
    const k: Config
    var built: bool
    var fullBuildAt: int
    var lastSaveAt: int
    var writes: nat
    /** The cache file on the disk. */
    var cache: Option<string>

    function State(): Live
      reads this, store`files
    {
      Live(built, store.files, fullBuildAt, lastSaveAt, cache)
    }

    /** A start, over whatever the cache file holds. */
    constructor (h: Units -> string, r: Reader, c: Codec, k: Config, cache: Option<string>)
      ensures State() == Live(false, map[], 0, 0, cache) && fresh(store)
      ensures this.c == c && this.k == k && store.h == h && store.r == r
    {
      store := new IndexStore(h, r);
      this.c, this.k, this.cache := c, k, cache;
      built, fullBuildAt, lastSaveAt, writes := false, 0, 0, 0;
    }

    /** persist: nothing when nothing changed, and at most once per interval. */
    method Persist(now: int, dirty: bool, wrote: bool) returns (saved: bool)
      requires Faithful(c)
      modifies this`cache, this`lastSaveAt, this`writes
      ensures saved == (dirty && Due(k, old(lastSaveAt), now) && wrote)
      ensures writes == old(writes) + if saved then 1 else 0
      ensures saved ==> lastSaveAt == now && SavedAs(c, k, cache, store.files, fullBuildAt, now)
      ensures !saved ==> lastSaveAt == old(lastSaveAt) && cache == old(cache)
    {
      if !k.cacheEnabled || !dirty { return false; }
      if lastSaveAt != 0 && now - lastSaveAt < SAVE_MIN_INTERVAL_MS { return false; }
      if !wrote { return false; }
      var stored := StoreAll(store.files);
      cache := Some(SaveText(c, stored, fullBuildAt, At(k, now)));
      lastSaveAt, writes, saved := now, writes + 1, true;
    }

    /** A look; dirty when it found anything to save. */
    method LookAgain(disk: Disk, listing: seq<Listed>) returns (dirty: bool)
      modifies store
      ensures store.files == Refreshed(store.h, store.r, old(store.files), disk, listing)
    {
      var scanned, changed, removed := store.Refresh(disk, listing);
      dirty := changed != 0 || removed != {};
    }

    /** firstBuild: from the cache when it loads, checked before it is used; otherwise by reading everything. */
    method FirstBuild(now: int, disk: Disk, listing: seq<Listed>) returns (dirty: bool)
      requires !built
      modifies this`fullBuildAt, store
      ensures (store.files, fullBuildAt) == Rebuilt(store.h, store.r, c, k, old(State()), now, disk, listing)
    {
      if k.cacheEnabled {
        var l := Load(c, cache, At(k, now));
        if l.Loaded? {
          store.Hydrate(Restored(l.stored));
          RestoredUnverified(l.stored);
          fullBuildAt := l.fullBuildAt;
          dirty := LookAgain(disk, listing);
          return;
        }
      }
      var scanned := store.BuildCold(disk, listing);
      fullBuildAt := now;
      dirty := scanned != 0;
    }

    /** refresh */
    method Refresh(now: int, disk: Disk, listing: seq<Listed>, wrote: bool) returns (saved: bool)
      requires Faithful(c)
      modifies this, store
      ensures Looked(store.h, store.r, c, k, old(State()), State(), now, disk, listing, saved)
    {
      var dirty;
      if !built {
        dirty := FirstBuild(now, disk, listing);
        built := true;
      } else {
        dirty := LookAgain(disk, listing);
      }
      saved := Persist(now, dirty, wrote);
    }
  }
}
