/**
 The glob compiler (scripts/lib/classifier.js): a glob is turned into the text of a regular expression,
 which accepts a path exactly when the glob's components match the path's segments one by one.
 */
module GlobPattern {
  import opened Options
  import opened CodeUnits

  const SLASH: nat := 47
  const STAR: nat := 42
  const QUERY: nat := 63
  const DOT: nat := 46
  const BACKSLASH: nat := 92

  // ------------------------------------------------------------------ regular expressions

  /** What the compiler writes, piece by piece. */
  datatype Piece =
    | Lit(u: nat)  // one code unit, escaped when it is special
    | One          // [^/]
    | Run          // [^/]*
    | Dirs         // (?:[^/]+/)*
    | Any          // .*
    | Below        // (?:/.*)?

  /** /[.+^${}()|[\]\\]/ */
  predicate Special(u: nat) { u in Ascii(".+^${}()|[]\\") }

  function TextOf(p: Piece): Units {
    match p
    case Lit(u) => if Special(u) then [BACKSLASH, u] else [u]
    case One => Ascii("[^/]")
    case Run => Ascii("[^/]*")
    case Dirs => Ascii("(?:[^/]+/)*")
    case Any => Ascii(".*")
    case Below => Ascii("(?:/.*)?")
  }

  function Render(pieces: seq<Piece>): Units {
    if pieces == [] then [] else TextOf(pieces[0]) + Render(pieces[1..])
  }

  /** How the first piece of a regular expression's text reads. */
  function ReadPiece(re: Units): Option<(Piece, Units)>
    requires re != []
  {
    if re[0] == BACKSLASH then if |re| == 1 then None else Some((Lit(re[1]), re[2..]))
    else if Ascii("[^/]*") <= re then Some((Run, re[5..]))
    else if Ascii("[^/]") <= re then Some((One, re[4..]))
    else if Ascii("(?:[^/]+/)*") <= re then Some((Dirs, re[11..]))
    else if Ascii("(?:/.*)?") <= re then Some((Below, re[8..]))
    else if Ascii(".*") <= re then Some((Any, re[2..]))
    else if Special(re[0]) || re[0] == STAR || re[0] == QUERY then None
    else Some((Lit(re[0]), re[1..]))
  }

  /** The expression a text writes, for the fragment the compiler uses; None outside it. */
  function ReadRegex(re: Units): Option<seq<Piece>>
    decreases |re|
  {
    if re == [] then Some([])
    else
      var first := ReadPiece(re);
      if first.None? then None
      else if |first.value.1| >= |re| then None
      else
        var rest := ReadRegex(first.value.1);
        if rest.None? then None else Some([first.value.0] + rest.value)
  }

  /** What `.` refuses. */
  predicate IsBreak(u: nat) { u == 10 || u == 13 || u == 0x2028 || u == 0x2029 }

  predicate LineFree(p: Units) { forall i :: 0 <= i < |p| ==> !IsBreak(p[i]) }

  /** Any number of non-empty runs, a slash after each. */
  predicate IsDirs(p: Units)
    decreases |p|
  {
    p == [] || exists j :: 0 < j < |p| && SLASH !in p[..j] && p[j] == SLASH && IsDirs(p[j + 1..])
  }

  /** The texts a piece stands for. */
  predicate Stands(piece: Piece, p: Units) {
    match piece
    case Lit(u) => p == [u]
    case One => |p| == 1 && p[0] != SLASH
    case Run => SLASH !in p
    case Dirs => IsDirs(p)
    case Any => LineFree(p)
    case Below => p == [] || (p[0] == SLASH && LineFree(p[1..]))
  }

  /** The whole text splits into texts of the pieces. */
  predicate Accepts(pieces: seq<Piece>, p: Units)
    decreases |pieces|
  {
    if pieces == [] then p == []
    else exists k :: 0 <= k <= |p| && Stands(pieces[0], p[..k]) && Accepts(pieces[1..], p[k..])
  }

  /** new RegExp('^' + re + '$').test(p) */
  predicate Tests(re: Units, p: Units) {
    var r := ReadRegex(re);
    r.Some? && Accepts(r.value, p)
  }

  // ------------------------------------------------------------------ the compiler

  predicate IsStars(g: Units) { |g| == 2 && g[0] == STAR && g[1] == STAR }

  predicate IsSlashStars(g: Units) { |g| == 3 && g[0] == SLASH && g[1] == STAR && g[2] == STAR }

  /** The first piece of a glob, and how much of the glob it takes. */
  function Next(g: Units): (r: (Piece, nat))
    requires g != []
    ensures 1 <= r.1 <= |g|
  {
    if g[0] == STAR then
      if |g| >= 2 && g[1] == STAR then
        if |g| == 2 then (Any, 2) else if g[2] == SLASH then (Dirs, 3) else (Run, 2)
      else (Run, 1)
    else if g[0] == QUERY then (One, 1)
    else if IsSlashStars(g) then (Below, 3)
    else (Lit(g[0]), 1)
  }

  /** The pieces of a glob, read from the left. */
  function Pieces(g: Units): seq<Piece>
    decreases |g|
  {
    if g == [] then [] else [Next(g).0] + Pieces(g[Next(g).1..])
  }

  /** What the loop writes first: of a last slash and two stars the slash, which it takes back at the stars. */
  function Written(g: Units): (r: (Piece, nat))
    requires g != []
    ensures 1 <= r.1 <= |g|
  {
    if IsSlashStars(g) then (Lit(SLASH), 1) else Next(g)
  }

  predicate TakesBack(done: seq<Piece>, rest: Units) {
    IsStars(rest) && done != [] && done[|done| - 1] == Lit(SLASH)
  }

  /** What has been written, completed by what is still to be read. */
  predicate Completes(done: seq<Piece>, rest: Units, all: seq<Piece>) {
    if TakesBack(done, rest) then done[..|done| - 1] + [Below] == all
    else done + Pieces(rest) == all
  }

  /** A piece that can be read back. */
  predicate Printable(p: Piece) { p.Lit? ==> p.u != STAR && p.u != QUERY }

  lemma {:induction false} RenderMore(pieces: seq<Piece>, p: Piece)
    ensures Render(pieces + [p]) == Render(pieces) + TextOf(p)
  {
    if pieces == [] {
      assert [p][1..] == [];
      NothingAdded(TextOf(p));
    } else {
      RenderMore(pieces[1..], p);
      assert (pieces + [p])[0] == pieces[0] && (pieces + [p])[1..] == pieces[1..] + [p];
      Regrouped(TextOf(pieces[0]), Render(pieces[1..]), TextOf(p));
    }
  }

  lemma {:induction false} NothingAdded(a: Units)
    ensures a + [] == a && [] + a == a
  {
  }

  lemma {:induction false} Regrouped(a: Units, b: Units, c: Units)
    ensures a + (b + c) == (a + b) + c
  {
  }

  /** The text ends with a slash only when the last piece is the literal one. */
  lemma {:induction false} EndsWithSlash(pieces: seq<Piece>)
    ensures var re := Render(pieces);
      (re != [] && re[|re| - 1] == SLASH) <==> (pieces != [] && pieces[|pieces| - 1] == Lit(SLASH))
    ensures pieces != [] && pieces[|pieces| - 1] == Lit(SLASH) ==>
      Render(pieces)[..|Render(pieces)| - 1] == Render(pieces[..|pieces| - 1])
  {
    if pieces != [] {
      var n := |pieces| - 1;
      RenderMore(pieces[..n], pieces[n]);
      assert pieces[..n] + [pieces[n]] == pieces;
      assert TextOf(pieces[n]) != [];
    }
  }

  /** One piece more. */
  lemma {:induction false} Onward(done: seq<Piece>, rest: Units, all: seq<Piece>)
    requires rest != [] && Completes(done, rest, all) && !TakesBack(done, rest)
    ensures Completes(done + [Written(rest).0], rest[Written(rest).1..], all)
  {
    var (p, n) := Written(rest);
    if IsSlashStars(rest) {
      assert (done + [p])[..|done|] == done;
      assert Pieces(rest) == [Below] by { assert rest[3..] == []; }
    } else {
      assert done + ([p] + Pieces(rest[n..])) == done + [p] + Pieces(rest[n..]);
    }
  }

  /** What is written at a position of the glob. */
  predicate WrittenAt(glob: Units, i: nat, p: Piece, n: nat)
    requires i < |glob|
  {
    var c, double := glob[i], i + 1 < |glob| && glob[i + 1] == STAR;
    if c == STAR && double then
      if i + 2 == |glob| then (p, n) == (Any, 2)
      else if glob[i + 2] == SLASH then (p, n) == (Dirs, 3) else (p, n) == (Run, 2)
    else (p, n) == (if c == STAR then Run else if c == QUERY then One else Lit(c), 1)
  }

  lemma {:induction false} Turned(done: seq<Piece>, glob: Units, i: nat, all: seq<Piece>, p: Piece, n: nat)
    requires i < |glob| && Completes(done, glob[i..], all) && !TakesBack(done, glob[i..]) && WrittenAt(glob, i, p, n)
    ensures i + n <= |glob| && Completes(done + [p], glob[i + n..], all)
  {
    var rest := glob[i..];
    assert Written(rest) == (p, n);
    assert glob[i + n..] == rest[n..];
    Onward(done, rest, all);
  }

  /** The last "**" after a slash, which is taken back. */
  lemma {:induction false} TurnedBack(done: seq<Piece>, glob: Units, i: nat, all: seq<Piece>)
    requires i < |glob| && Completes(done, glob[i..], all) && TakesBack(done, glob[i..])
    ensures i + 2 == |glob| && Completes(done[..|done| - 1] + [Below], glob[i + 2..], all)
  {
    assert all + [] == all;
  }

  /** `re += ...` */
  method Write(re: Units, p: Piece, ghost done: seq<Piece>) returns (r: Units)
    requires re == Render(done)
    ensures r == Render(done + [p])
  {
    RenderMore(done, p);
    r := re + TextOf(p);
  }

  /** `re.slice(0, -1)` after `re.endsWith('/')`. */
  method TakeSlash(re: Units, ghost done: seq<Piece>) returns (found: bool, r: Units)
    requires re == Render(done)
    ensures found <==> done != [] && done[|done| - 1] == Lit(SLASH)
    ensures r == Render(if found then done[..|done| - 1] else done)
  {
    EndsWithSlash(done);
    found := re != [] && re[|re| - 1] == SLASH;
    r := if found then re[..|re| - 1] else re;
  }

  /** globToRegex, without the anchors. */
  method GlobToRegex(glob: Units) returns (re: Units)
    ensures re == Render(Pieces(glob))
  {
    re := [];
    var i := 0;
    ghost var done: seq<Piece>, all := [], Pieces(glob);
    assert glob[0..] == glob;
    while i < |glob|
      invariant 0 <= i <= |glob|
      invariant re == Render(done) && Completes(done, glob[i..], all)
    {
      var c, double := glob[i], i + 1 < |glob| && glob[i + 1] == STAR;
      var piece, n := Lit(c), 1;
      if c == STAR && double {
        piece, n := Run, 2;
        if i + 2 < |glob| && glob[i + 2] == SLASH { piece, n := Dirs, 3; }
        if i + 2 == |glob| {
          var found, shorter := TakeSlash(re, done);
          if found {
            TurnedBack(done, glob, i, all);
            re := Write(shorter, Below, done[..|done| - 1]);
            done := done[..|done| - 1] + [Below];
            i := i + 2;
            continue;
          }
          piece := Any;
        }
      } else if c == STAR {
        piece := Run;
      } else if c == QUERY {
        piece := One;
      }
      Turned(done, glob, i, all, piece, n);
      re := Write(re, piece, done);
      done := done + [piece];
      i := i + n;
    }
    assert done == all by {
      assert glob[i..] == [];
      assert done + [] == done;
    }
  }

  // ------------------------------------------------------------------ reading the text back

  lemma {:induction false} FirstUnit(p: Piece)
    requires Printable(p)
    ensures TextOf(p) != [] && TextOf(p)[0] != STAR
  {
  }

  lemma {:induction false} ReadFirst(p: Piece, rest: Units)
    requires Printable(p) && (rest == [] || rest[0] != STAR)
    ensures ReadPiece(TextOf(p) + rest) == Some((p, rest))
  {
    var re := TextOf(p) + rest;
    assert re[|TextOf(p)|..] == rest && TextOf(p) <= re;
    match p
    case Lit(u) =>
      if !Special(u) { Openers(re); }
    case One =>
      assert rest != [] ==> re[4] == rest[0];
      assert Ascii("[^/]*")[4] == STAR;
    case Run =>
    case Dirs =>
      assert re[0] == 40;
    case Any =>
      assert re[0] == 46;
    case Below =>
      assert re[0] == 40 && re[3] == 47;
      assert Ascii("(?:[^/]+/)*")[3] == 91;
  }

  /** The composite pieces open with special units. */
  lemma {:induction false} Openers(re: Units)
    requires re != [] && !Special(re[0])
    ensures !(Ascii("[^/]*") <= re) && !(Ascii("[^/]") <= re) && !(Ascii("(?:[^/]+/)*") <= re)
    ensures !(Ascii("(?:/.*)?") <= re) && !(Ascii(".*") <= re) && re[0] != BACKSLASH
  {
    var special := Ascii(".+^${}()|[]\\");
    assert special[0] == 46 && special[6] == 40 && special[9] == 91 && special[11] == 92;
    assert Ascii("[^/]")[0] == 91 && Ascii("[^/]*")[0] == 91 && Ascii(".*")[0] == 46;
    assert Ascii("(?:[^/]+/)*")[0] == 40 && Ascii("(?:/.*)?")[0] == 40;
  }

  predicate AllPrintable(pieces: seq<Piece>) { forall i :: 0 <= i < |pieces| ==> Printable(pieces[i]) }

  lemma {:induction false} ReadBack(pieces: seq<Piece>)
    requires AllPrintable(pieces)
    ensures ReadRegex(Render(pieces)) == Some(pieces)
    ensures Render(pieces) == [] || Render(pieces)[0] != STAR
  {
    if pieces != [] {
      ReadBack(pieces[1..]);
      FirstUnit(pieces[0]);
      ReadFirst(pieces[0], Render(pieces[1..]));
      assert [pieces[0]] + pieces[1..] == pieces;
    }
  }

  lemma {:induction false} PiecesPrint(g: Units)
    ensures AllPrintable(Pieces(g))
    decreases |g|
  {
    if g != [] { PiecesPrint(g[Next(g).1..]); }
  }

  /** The text the compiler writes for a glob is the expression its pieces make. */
  lemma {:induction false} TextMeans(g: Units, p: Units)
    ensures Tests(Render(Pieces(g)), p) <==> Accepts(Pieces(g), p)
  {
    PiecesPrint(g);
    ReadBack(Pieces(g));
  }

  // ------------------------------------------------------------------ the meaning of a glob

  /** One component against one segment: `*` is any text, `?` one unit. */
  predicate Wild(c: Units, seg: Units)
    decreases |c|, |seg|
  {
    if c == [] then seg == []
    else if c[0] == STAR then Wild(c[1..], seg) || (seg != [] && Wild(c, seg[1..]))
    else seg != [] && (c[0] == QUERY || c[0] == seg[0]) && Wild(c[1..], seg[1..])
  }

  const STARS: Units := [STAR, STAR]

  predicate AllLineFree(segs: seq<Units>) { forall i :: 0 <= i < |segs| ==> LineFree(segs[i]) }

  /**
   Components against segments: "**" before others is any number of non-empty segments, a last "**" is
   all that is left. With `breaks` false the last "**" takes no line break.
   */
  predicate Matches(comps: seq<Units>, segs: seq<Units>, breaks: bool)
    decreases |comps|, |segs|
  {
    if comps == [] then segs == []
    else if comps[0] == STARS then
      if |comps| == 1 then breaks || AllLineFree(segs)
      else Matches(comps[1..], segs, breaks) || (segs != [] && segs[0] != [] && Matches(comps, segs[1..], breaks))
    else segs != [] && Wild(comps[0], segs[0]) && Matches(comps[1..], segs[1..], breaks)
  }

  function Components(g: Units): seq<Units> { Split(g, SLASH) }

  /** The stars a component ends with. */
  function TailStars(c: Units): nat {
    if c == [] || c[|c| - 1] != STAR then 0 else 1 + TailStars(c[..|c| - 1])
  }

  predicate Odd(c: Units) { TailStars(c) == 0 || TailStars(c) % 2 == 1 }

  /** A component that is "**" or does not end in pairs of stars. */
  predicate Sound(c: Units) { (c == STARS || Odd(c)) && SLASH !in c }

  /** Sound components, and no "**" before a last "**". */
  predicate WellFormed(comps: seq<Units>) {
    (forall i :: 0 <= i < |comps| ==> Sound(comps[i]))
    && (|comps| >= 2 && comps[|comps| - 1] == STARS ==> comps[|comps| - 2] != STARS)
  }

  // ------------------------------------------------------------------ pieces, one unit at a time

  lemma {:induction false} AcceptsOne(pieces: seq<Piece>, p: Units)
    requires pieces != [] && (pieces[0].Lit? || pieces[0].One?)
    ensures Accepts(pieces, p) <==> p != [] && Stands(pieces[0], p[..1]) && Accepts(pieces[1..], p[1..])
  {
    if Accepts(pieces, p) {
      var k :| 0 <= k <= |p| && Stands(pieces[0], p[..k]) && Accepts(pieces[1..], p[k..]);
      assert k == 1;
    }
  }

  /** The first piece takes `k` units. */
  predicate Takes(pieces: seq<Piece>, p: Units, k: nat)
    requires pieces != [] && k <= |p|
  {
    Stands(pieces[0], p[..k]) && Accepts(pieces[1..], p[k..])
  }

  lemma {:induction false} AcceptsBy(pieces: seq<Piece>, p: Units, k: nat)
    requires pieces != [] && k <= |p| && Takes(pieces, p, k)
    ensures Accepts(pieces, p)
  {
  }

  lemma {:induction false} AcceptsWith(pieces: seq<Piece>, p: Units) returns (k: nat)
    requires pieces != [] && Accepts(pieces, p)
    ensures k <= |p| && Takes(pieces, p, k)
  {
    k :| 0 <= k <= |p| && Stands(pieces[0], p[..k]) && Accepts(pieces[1..], p[k..]);
  }

  lemma {:induction false} AcceptsNone(pieces: seq<Piece>, p: Units)
    requires pieces != [] && Stands(pieces[0], []) && Accepts(pieces[1..], p)
    ensures Accepts(pieces, p)
  {
    assert p[..0] == [] && p[0..] == p;
    AcceptsBy(pieces, p, 0);
  }

  lemma {:induction false} RunShorter(pieces: seq<Piece>, p: Units, k: nat)
    requires pieces != [] && pieces[0] == Run && 0 < k <= |p|
    ensures Takes(pieces, p, k) <==> p[0] != SLASH && Takes(pieces, p[1..], k - 1)
  {
    assert p[..k] == [p[0]] + p[1..][..k - 1] && p[1..][k - 1..] == p[k..];
  }

  lemma {:induction false} RunBack(pieces: seq<Piece>, p: Units)
    requires pieces != [] && pieces[0] == Run && Accepts(pieces, p)
    ensures Accepts(pieces[1..], p) || (p != [] && p[0] != SLASH && Accepts(pieces, p[1..]))
  {
    var k := AcceptsWith(pieces, p);
    if k > 0 {
      RunShorter(pieces, p, k);
      AcceptsBy(pieces, p[1..], k - 1);
    } else {
      assert p[0..] == p;
    }
  }

  lemma {:induction false} RunOn(pieces: seq<Piece>, p: Units)
    requires pieces != [] && pieces[0] == Run && p != [] && p[0] != SLASH && Accepts(pieces, p[1..])
    ensures Accepts(pieces, p)
  {
    var k := AcceptsWith(pieces, p[1..]);
    RunShorter(pieces, p, k + 1);
    AcceptsBy(pieces, p, k + 1);
  }

  lemma {:induction false} AcceptsRun(pieces: seq<Piece>, p: Units)
    requires pieces != [] && pieces[0] == Run
    ensures Accepts(pieces, p) <==>
      Accepts(pieces[1..], p) || (p != [] && p[0] != SLASH && Accepts(pieces, p[1..]))
  {
    if Accepts(pieces, p) { RunBack(pieces, p); }
    if Accepts(pieces[1..], p) { AcceptsNone(pieces, p); }
    if p != [] && p[0] != SLASH && Accepts(pieces, p[1..]) { RunOn(pieces, p); }
  }

  /** The length of the first segment. */
  function Reach(p: Units): (n: nat)
    ensures n <= |p| && SLASH !in p[..n] && (n < |p| ==> p[n] == SLASH)
  {
    if p == [] || p[0] == SLASH then 0
    else
      assert p[..1 + Reach(p[1..])] == [p[0]] + p[1..][..Reach(p[1..])];
      1 + Reach(p[1..])
  }

  lemma {:induction false} ReachIs(p: Units, j: nat)
    requires j < |p| && SLASH !in p[..j] && p[j] == SLASH
    ensures j == Reach(p)
  {
    if j > 0 {
      assert p[..j][0] == p[0] && p[..j][1..] == p[1..][..j - 1];
      ReachIs(p[1..], j - 1);
    }
  }

  lemma {:induction false} DirsStep(p: Units)
    requires p != [] && IsDirs(p)
    ensures var n := Reach(p); 0 < n < |p| && IsDirs(p[n + 1..])
  {
    var j :| 0 < j < |p| && SLASH !in p[..j] && p[j] == SLASH && IsDirs(p[j + 1..]);
    ReachIs(p, j);
  }

  lemma {:induction false} ReachPrefix(p: Units, k: nat)
    requires k <= |p| && Reach(p[..k]) < k
    ensures Reach(p[..k]) == Reach(p)
  {
    var n := Reach(p[..k]);
    assert p[..k][..n] == p[..n];
    ReachIs(p, n);
  }

  /** The directories of a text are its first segment and those of the text after it. */
  lemma {:induction false} DirsShorter(pieces: seq<Piece>, p: Units, k: nat)
    requires pieces != [] && pieces[0] == Dirs && 0 < k <= |p| && Takes(pieces, p, k)
    ensures var n := Reach(p); 0 < n < k && Takes(pieces, p[n + 1..], k - n - 1)
  {
    DirsStep(p[..k]);
    ReachPrefix(p, k);
    var n := Reach(p);
    assert p[..k][n + 1..] == p[n + 1..][..k - n - 1] && p[n + 1..][k - n - 1..] == p[k..];
  }

  lemma {:induction false} DirsLonger(pieces: seq<Piece>, p: Units, k: nat)
    requires pieces != [] && pieces[0] == Dirs
    requires var n := Reach(p); 0 < n < |p| && k <= |p| - n - 1 && Takes(pieces, p[n + 1..], k)
    ensures Accepts(pieces, p)
  {
    var n := Reach(p);
    var q := p[..n + 1 + k];
    assert q[..n] == p[..n] && q[n] == SLASH && q[n + 1..] == p[n + 1..][..k];
    assert p[n + 1 + k..] == p[n + 1..][k..];
    AcceptsBy(pieces, p, n + 1 + k);
  }

  lemma {:induction false} AcceptsDirs(pieces: seq<Piece>, p: Units)
    requires pieces != [] && pieces[0] == Dirs
    ensures var n := Reach(p);
      Accepts(pieces, p) <==> Accepts(pieces[1..], p) || (0 < n < |p| && Accepts(pieces, p[n + 1..]))
  {
    var n := Reach(p);
    if Accepts(pieces, p) {
      var k := AcceptsWith(pieces, p);
      if k > 0 {
        DirsShorter(pieces, p, k);
        AcceptsBy(pieces, p[n + 1..], k - n - 1);
      } else {
        assert p[0..] == p;
      }
    }
    if Accepts(pieces[1..], p) { AcceptsNone(pieces, p); }
    if 0 < n < |p| && Accepts(pieces, p[n + 1..]) {
      var k := AcceptsWith(pieces, p[n + 1..]);
      DirsLonger(pieces, p, k);
    }
  }

  lemma {:induction false} AcceptsLast(piece: Piece, p: Units)
    ensures Accepts([piece], p) <==> Stands(piece, p)
  {
    assert [piece][1..] == [];
    assert p[..|p|] == p;
    if Accepts([piece], p) {
      var k :| 0 <= k <= |p| && Stands(piece, p[..k]) && Accepts([piece][1..], p[k..]);
      assert k == |p|;
    }
  }

  // ------------------------------------------------------------------ components, one unit at a time

  lemma {:induction false} TailOf(d: Units, c: Units)
    ensures TailStars(c) <= |c|
    ensures TailStars(d + c) == TailStars(c) + if TailStars(c) == |c| then TailStars(d) else 0
  {
    if c == [] {
      assert d + c == d;
    } else {
      var n := |c| - 1;
      TailOf(d, c[..n]);
      assert (d + c)[..|d| + n] == d + c[..n];
    }
  }

  /** How much of a component its first piece takes. */
  function Taken(c: Units): (n: nat)
    requires c != [] && c != STARS
    ensures 1 <= n <= |c|
  {
    if |c| >= 2 && c[0] == STAR && c[1] == STAR then 2 else 1
  }

  /** What is left of a component ends in pairs of stars when the component does. */
  lemma {:induction false} LeftOdd(c: Units)
    requires c != [] && c != STARS
    ensures Odd(c[Taken(c)..]) == Odd(c)
  {
    var n := Taken(c);
    TailOf(c[..n], c[n..]);
    assert c == c[..n] + c[n..];
    TailStarsOf(c[..n]);
    if n == 1 && c[0] == STAR && c[1..] != [] { NotAllStars(c[1..]); }
  }

  /** What is left of a component is one too, and is not "**". */
  lemma {:induction false} LeftSound(c: Units)
    requires c != [] && c != STARS && Sound(c)
    ensures Sound(c[Taken(c)..]) && c[Taken(c)..] != STARS
  {
    LeftOdd(c);
    TailStarsOf(STARS);
  }

  lemma {:induction false} TailStarsOf(c: Units)
    requires |c| == 1 || c == STARS
    ensures c == STARS ==> TailStars(c) == 2
    ensures |c| == 1 ==> TailStars(c) == if c[0] == STAR then 1 else 0
  {
    assert [STAR][..0] == [];
    assert TailStars([STAR]) == 1;
    if |c| == 1 { assert c[..0] == []; } else { assert c[..1] == [STAR]; }
  }

  lemma {:induction false} NotAllStars(c: Units)
    requires c != [] && c[0] != STAR
    ensures TailStars(c) < |c|
  {
    TailOf([c[0]], c[1..]);
    TailStarsOf([c[0]]);
    assert c == [c[0]] + c[1..];
  }

  /** Two stars are as good as one. */
  lemma {:induction false} WildPair(c: Units, seg: Units)
    requires |c| >= 2 && c[0] == STAR && c[1] == STAR
    ensures Wild(c, seg) <==> Wild(c[2..], seg) || (seg != [] && Wild(c, seg[1..]))
  {
    assert c[1..][1..] == c[2..];
    if seg != [] { assert Wild(c[1..], seg[1..]) ==> Wild(c, seg[1..]); }
  }

  lemma {:induction false} WildStar(c: Units, seg: Units)
    requires c != [] && c != STARS && c[0] == STAR
    ensures Wild(c, seg) <==> Wild(c[Taken(c)..], seg) || (seg != [] && Wild(c, seg[1..]))
  {
    if Taken(c) == 2 { WildPair(c, seg); }
  }

  function Joined(comps: seq<Units>): Units { Glue(comps, SLASH) }

  /** The components with `c` for the first. */
  function With(c: Units, comps: seq<Units>): seq<Units>
    requires comps != []
  {
    [c] + comps[1..]
  }

  lemma {:induction false} JoinedStep(comps: seq<Units>, n: nat)
    requires comps != [] && n <= |comps[0]|
    ensures Joined(comps)[..n] == comps[0][..n] && Joined(comps)[n..] == Joined(With(comps[0][n..], comps))
  {
    var g := Joined(comps);
    assert With(comps[0][n..], comps)[1..] == comps[1..];
    if |comps| > 1 {
      assert g == comps[0] + ([SLASH] + Joined(comps[1..]));
      assert g[n..] == comps[0][n..] + ([SLASH] + Joined(comps[1..]));
    }
  }

  /** The piece a component's first units make. */
  function Opening(c: Units): Piece
    requires c != []
  {
    if c[0] == STAR then Run else if c[0] == QUERY then One else Lit(c[0])
  }

  /** Inside a component the compiler takes its next units and leaves the rest of the glob. */
  lemma {:induction false} PiecesInside(comps: seq<Units>)
    requires comps != [] && comps[0] != [] && comps[0] != STARS && SLASH !in comps[0]
    ensures var c := comps[0];
      Pieces(Joined(comps)) == [Opening(c)] + Pieces(Joined(With(c[Taken(c)..], comps)))
  {
    var c, g := comps[0], Joined(comps);
    JoinedStep(comps, Taken(c));
    JoinedStep(comps, 1);
    assert g[0] == c[0];
    InsideNext(comps);
  }

  lemma {:induction false} InsideNext(comps: seq<Units>)
    requires comps != [] && comps[0] != [] && comps[0] != STARS && SLASH !in comps[0]
    ensures Joined(comps) != [] && Next(Joined(comps)) == (Opening(comps[0]), Taken(comps[0]))
  {
    var c, g := comps[0], Joined(comps);
    assert |comps| > 1 ==> g == c + ([SLASH] + Joined(comps[1..]));
    assert g[0] == c[0] && c[0] != SLASH;
    if |c| >= 2 {
      assert g[1] == c[1];
      if |c| >= 3 {
        assert g[2] == c[2] && c[2] != SLASH;
      } else {
        assert c == [c[0], c[1]];
      }
    } else if |comps| > 1 {
      assert g[1] == SLASH;
    } else {
      assert g == c;
    }
  }

  /** A last "**" stands alone for a slash and it. */
  lemma {:induction false} JoinedStars(comps: seq<Units>)
    requires comps != []
    ensures Joined(comps) == STARS <==> comps == [STARS]
  {
    if |comps| > 1 { assert Joined(comps)[|comps[0]|] == SLASH; }
  }

  lemma {:induction false} WellFormedRest(comps: seq<Units>)
    requires |comps| > 1 && WellFormed(comps)
    ensures WellFormed(comps[1..])
  {
  }

  lemma {:induction false} WellFormedWith(comps: seq<Units>, c: Units)
    requires comps != [] && WellFormed(comps) && Sound(c) && c != STARS
    ensures WellFormed(With(c, comps))
  {
  }

  // ------------------------------------------------------------------ the compiler preserves meaning

  function Segments(p: Units): seq<Units> { Split(p, SLASH) }

  lemma {:induction false} SegmentsReach(p: Units)
    ensures var n := Reach(p);
      Segments(p) == [p[..n]] + if n < |p| then Segments(p[n + 1..]) else []
  {
    var n := Reach(p);
    if n < |p| {
      assert p == p[..n] + [SLASH] + p[n + 1..];
      SplitFirst(p[..n], SLASH, p[n + 1..]);
    } else {
      assert p == p[..n];
      SplitFirst(p, SLASH, []);
      assert [p[..n]] + [] == [p[..n]];
    }
  }

  lemma {:induction false} SegmentsLines(p: Units)
    ensures LineFree(p) <==> AllLineFree(Segments(p))
  {
    if p != [] {
      var rest := Segments(p[1..]);
      SegmentsLines(p[1..]);
      assert LineFree(p) <==> !IsBreak(p[0]) && LineFree(p[1..]);
      LeadLines(p[0], rest);
    }
  }

  lemma {:induction false} LeadLines(u: nat, segs: seq<Units>)
    requires segs != []
    ensures AllLineFree(Lead([u], segs)) <==> !IsBreak(u) && AllLineFree(segs)
    ensures AllLineFree([[]] + segs) <==> AllLineFree(segs)
  {
    var led, more := Lead([u], segs), [[]] + segs;
    assert led[0][0] == u && led[0][1..] == segs[0];
    assert forall i :: 0 < i < |segs| ==> led[i] == segs[i];
    assert forall i :: 0 <= i < |segs| ==> more[i + 1] == segs[i];
    assert forall i :: 0 <= i < |segs[0]| ==> led[0][i + 1] == segs[0][i];
  }

  /** Components that are left match nothing, but for a last "**". */
  lemma {:induction false} NoneLeft(comps: seq<Units>, breaks: bool)
    requires comps != [] && WellFormed(comps) && comps != [STARS]
    ensures !Matches(comps, [], breaks)
  {
    if comps[0] == STARS {
      WellFormedRest(comps);
      assert comps == [STARS] + comps[1..];
      NoneLeft(comps[1..], breaks);
    }
  }

  /** The expression of a glob says what its components do. */
  predicate Agrees(comps: seq<Units>, p: Units) {
    Accepts(Pieces(Joined(comps)), p) <==> Matches(comps, Segments(p), false)
  }

  lemma {:induction false} LastStars(p: Units)
    ensures Agrees([STARS], p)
  {
    assert Joined([STARS]) == STARS;
    assert Pieces(STARS) == [Any] by { assert STARS[2..] == []; }
    AcceptsLast(Any, p);
    SegmentsLines(p);
  }

  lemma {:induction false} LastEmpty(p: Units)
    ensures Agrees([[]], p)
  {
    var comps: seq<Units> := [[]];
    SegmentsReach(p);
    assert Joined(comps) == [];
    assert comps[1..] == [];
  }

  lemma {:induction false} SlashStars(p: Units)
    ensures Agrees([[], STARS], p)
  {
    var comps := [[], STARS];
    var g := Joined(comps);
    assert comps[1..] == [STARS] && Joined([STARS]) == STARS;
    assert g == [SLASH, STAR, STAR];
    assert Pieces(g) == [Below] by { assert g[3..] == []; }
    AcceptsLast(Below, p);
    if p != [] && p[0] == SLASH {
      SegmentsLines(p[1..]);
      assert Segments(p)[1..] == Segments(p[1..]);
    }
    SegmentsReach(p);
  }

  /** Between two components, where no last "**" follows. */
  lemma {:induction false} BetweenAgrees(comps: seq<Units>, p: Units)
    requires |comps| > 1 && WellFormed(comps) && comps[0] == [] && comps[1..] != [STARS]
    requires p != [] ==> Agrees(comps[1..], p[1..])
    ensures Agrees(comps, p)
  {
    var g, rest := Joined(comps), comps[1..];
    WellFormedRest(comps);
    JoinedStars(rest);
    assert g == [SLASH] + Joined(rest);
    assert g[1..] == Joined(rest);
    assert Pieces(g) == [Lit(SLASH)] + Pieces(Joined(rest));
    AcceptsOne(Pieces(g), p);
    NoneLeft(rest, false);
    SegmentsReach(p);
    if p != [] && p[0] == SLASH { assert Segments(p)[1..] == Segments(p[1..]); }
  }

  lemma {:induction false} StarsAgree(comps: seq<Units>, p: Units)
    requires |comps| > 1 && WellFormed(comps) && comps[0] == STARS
    requires Agrees(comps[1..], p)
    requires 0 < Reach(p) < |p| ==> Agrees(comps, p[Reach(p) + 1..])
    ensures Agrees(comps, p)
  {
    var g, n := Joined(comps), Reach(p);
    assert g == STARS + ([SLASH] + Joined(comps[1..]));
    assert g[3..] == Joined(comps[1..]);
    assert Pieces(g) == [Dirs] + Pieces(Joined(comps[1..]));
    AcceptsDirs(Pieces(g), p);
    SegmentsReach(p);
    assert comps == [STARS] + comps[1..];
    NoneLeft(comps, false);
    if n < |p| {
      assert Segments(p)[1..] == Segments(p[n + 1..]);
    }
  }

  /** The segments of a text without its first unit, when that is no slash. */
  lemma {:induction false} SegmentsInside(p: Units)
    requires p != [] && p[0] != SLASH
    ensures Segments(p)[0] != [] && Segments(p)[0][0] == p[0]
    ensures Segments(p[1..]) == [Segments(p)[0][1..]] + Segments(p)[1..]
  {
    var rest := Segments(p[1..]);
    assert Segments(p) == Lead([p[0]], rest);
    assert ([p[0]] + rest[0])[1..] == rest[0];
    assert [rest[0]] + rest[1..] == rest;
  }

  lemma {:induction false} NoSegment(p: Units)
    requires p == [] || p[0] == SLASH
    ensures Segments(p)[0] == []
  {
  }

  /** A star inside a component: nothing, or a unit more. */
  lemma {:induction false} StarInside(comps: seq<Units>, p: Units)
    requires comps != [] && comps[0] != [] && comps[0] != STARS && Sound(comps[0]) && comps[0][0] == STAR
    ensures Matches(comps, Segments(p), false) <==>
      Matches(With(comps[0][Taken(comps[0])..], comps), Segments(p), false)
      || (p != [] && p[0] != SLASH && Matches(comps, Segments(p[1..]), false))
  {
    var c, segs := comps[0], Segments(p);
    LeftSound(c);
    WildStar(c, segs[0]);
    assert With(c[Taken(c)..], comps)[1..] == comps[1..];
    if p != [] && p[0] != SLASH {
      SegmentsInside(p);
      assert Segments(p[1..])[1..] == segs[1..];
    } else {
      NoSegment(p);
    }
  }

  /** A unit or `?` inside a component. */
  lemma {:induction false} UnitInside(comps: seq<Units>, p: Units)
    requires comps != [] && comps[0] != [] && comps[0] != STARS && Sound(comps[0]) && comps[0][0] != STAR
    ensures Matches(comps, Segments(p), false) <==>
      p != [] && p[0] != SLASH && (comps[0][0] == QUERY || comps[0][0] == p[0])
      && Matches(With(comps[0][1..], comps), Segments(p[1..]), false)
  {
    var c, segs := comps[0], Segments(p);
    LeftSound(c);
    assert With(c[1..], comps)[1..] == comps[1..];
    if p != [] && p[0] != SLASH {
      SegmentsInside(p);
      assert Segments(p[1..])[1..] == segs[1..];
    } else {
      NoSegment(p);
    }
  }

  lemma {:induction false} StarAgrees(comps: seq<Units>, p: Units)
    requires comps != [] && WellFormed(comps) && comps[0] != [] && comps[0] != STARS && comps[0][0] == STAR
    requires Agrees(With(comps[0][Taken(comps[0])..], comps), p)
    requires p != [] ==> Agrees(comps, p[1..])
    ensures Agrees(comps, p)
  {
    StarInside(comps, p);
    var pieces := Pieces(Joined(comps));
    assert pieces[0] == Run && pieces[1..] == Pieces(Joined(With(comps[0][Taken(comps[0])..], comps))) by {
      PiecesInside(comps);
    }
    AcceptsRun(pieces, p);
  }

  lemma {:induction false} UnitAgrees(comps: seq<Units>, p: Units)
    requires comps != [] && WellFormed(comps) && comps[0] != [] && comps[0] != STARS && comps[0][0] != STAR
    requires p != [] ==> Agrees(With(comps[0][1..], comps), p[1..])
    ensures Agrees(comps, p)
  {
    var c := comps[0];
    UnitInside(comps, p);
    var pieces := Pieces(Joined(comps));
    assert pieces[0] == Opening(c) && pieces[1..] == Pieces(Joined(With(c[1..], comps))) by { PiecesInside(comps); }
    AcceptsOne(pieces, p);
    UnitStands(c, p);
  }

  /** A literal unit or `?` stands for what it matches; a literal is no slash. */
  lemma {:induction false} UnitStands(c: Units, p: Units)
    requires c != [] && c[0] != STAR && SLASH !in c
    ensures p != [] ==>
      (Stands(Opening(c), p[..1]) <==> p[0] != SLASH && (c[0] == QUERY || c[0] == p[0]))
  {
  }

  lemma {:induction false} ComponentsAgree(comps: seq<Units>, p: Units)
    requires comps != [] && WellFormed(comps)
    ensures Agrees(comps, p)
    decreases |Joined(comps)|, |comps|, |p|
  {
    var c := comps[0];
    if |comps| > 1 {
      WellFormedRest(comps);
      assert |Joined(comps)| == |c| + 1 + |Joined(comps[1..])|;
    }
    if c == STARS {
      if |comps| == 1 {
        assert comps == [STARS];
        LastStars(p);
      } else {
        ComponentsAgree(comps[1..], p);
        if 0 < Reach(p) < |p| { ComponentsAgree(comps, p[Reach(p) + 1..]); }
        StarsAgree(comps, p);
      }
    } else if c == [] {
      if |comps| == 1 {
        assert comps == [[]];
        LastEmpty(p);
      } else if comps[1..] == [STARS] {
        assert comps == [[], STARS];
        SlashStars(p);
      } else {
        if p != [] { ComponentsAgree(comps[1..], p[1..]); }
        BetweenAgrees(comps, p);
      }
    } else {
      LeftSound(c);
      JoinedStep(comps, Taken(c));
      WellFormedWith(comps, c[Taken(c)..]);
      if c[0] == STAR {
        ComponentsAgree(With(c[Taken(c)..], comps), p);
        if p != [] { ComponentsAgree(comps, p[1..]); }
        StarAgrees(comps, p);
      } else {
        if p != [] { ComponentsAgree(With(c[1..], comps), p[1..]); }
        UnitAgrees(comps, p);
      }
    }
  }

  // ------------------------------------------------------------------ what the compiler promises

  lemma {:induction false} JoinedBack(g: Units)
    ensures Joined(Components(g)) == g
    ensures forall i :: 0 <= i < |Components(g)| ==> SLASH !in Components(g)[i]
  {
    if g != [] {
      JoinedBack(g[1..]);
      var rest := Components(g[1..]);
      assert g == [g[0]] + g[1..];
      if g[0] == SLASH {
        assert ([[]] + rest)[1..] == rest;
      } else {
        assert Lead([g[0]], rest)[1..] == rest[1..];
        if |rest| > 1 { assert [g[0]] + rest[0] + [SLASH] + Joined(rest[1..]) == [g[0]] + (rest[0] + [SLASH] + Joined(rest[1..])); }
      }
    }
  }

  /** A last "**" and line breaks aside, the two readings of a glob are the same. */
  lemma {:induction false} BreaksAside(comps: seq<Units>, segs: seq<Units>)
    requires comps != [] ==> comps[|comps| - 1] != STARS || AllLineFree(segs)
    ensures Matches(comps, segs, false) == Matches(comps, segs, true)
    decreases |comps|, |segs|
  {
    if comps != [] {
      if comps[0] == STARS {
        if |comps| > 1 {
          BreaksAside(comps[1..], segs);
          if segs != [] { BreaksAside(comps, segs[1..]); }
        }
      } else if segs != [] {
        BreaksAside(comps[1..], segs[1..]);
      }
    }
  }

  /** The expression accepts exactly what the components match, line breaks under a last "**" refused. */
  lemma {:induction false} GlobExact(glob: Units, p: Units)
    requires WellFormed(Components(glob))
    ensures Tests(Render(Pieces(glob)), p) <==> Matches(Components(glob), Segments(p), false)
  {
    TextMeans(glob, p);
    JoinedBack(glob);
    ComponentsAgree(Components(glob), p);
  }

  /** On a path without line breaks, or a glob without a last "**", it accepts exactly what the components match. */
  lemma {:induction false} GlobMeans(glob: Units, p: Units)
    requires WellFormed(Components(glob))
    requires LineFree(p) || Components(glob)[|Components(glob)| - 1] != STARS
    ensures Tests(Render(Pieces(glob)), p) <==> Matches(Components(glob), Segments(p), true)
  {
    GlobExact(glob, p);
    SegmentsLines(p);
    BreaksAside(Components(glob), Segments(p));
  }

  // ------------------------------------------------------------------ which globs keep their meaning

  function Slashes(p: Units): nat {
    if p == [] then 0 else (if p[0] == SLASH then 1 else 0) + Slashes(p[1..])
  }

  /** The slashes an expression asks for by name. */
  function Crossings(pieces: seq<Piece>): nat {
    if pieces == [] then 0 else (if pieces[0] == Lit(SLASH) then 1 else 0) + Crossings(pieces[1..])
  }

  /** A shortest text of a piece. */
  function LeastOf(piece: Piece): Units {
    match piece case Lit(u) => [u] case One => [97] case _ => []
  }

  function Least(pieces: seq<Piece>): Units {
    if pieces == [] then [] else LeastOf(pieces[0]) + Least(pieces[1..])
  }

  lemma {:induction false} SlashesJoin(a: Units, b: Units)
    ensures Slashes(a + b) == Slashes(a) + Slashes(b)
  {
    if a == [] {
      assert a + b == b;
    } else {
      SlashesJoin(a[1..], b);
      assert (a + b)[1..] == a[1..] + b;
    }
  }

  lemma {:induction false} LeastCrosses(pieces: seq<Piece>)
    ensures Slashes(Least(pieces)) == Crossings(pieces)
  {
    if pieces != [] {
      var a, b := LeastOf(pieces[0]), Least(pieces[1..]);
      SlashesJoin(a, b);
      LeastCrosses(pieces[1..]);
      if a != [] { assert a[1..] == []; }
    }
  }

  /** An expression takes no text with fewer slashes than it names. */
  lemma {:induction false} AcceptsCrosses(pieces: seq<Piece>, p: Units)
    requires Accepts(pieces, p)
    ensures Crossings(pieces) <= Slashes(p)
  {
    if pieces != [] {
      var k := AcceptsWith(pieces, p);
      AcceptsCrosses(pieces[1..], p[k..]);
      SlashesJoin(p[..k], p[k..]);
      assert p == p[..k] + p[k..];
      if pieces[0] == Lit(SLASH) { assert p[..k] == [SLASH]; }
    }
  }

  lemma {:induction false} AcceptsMore(pieces: seq<Piece>, a: Units, rest: Units)
    requires pieces != [] && Stands(pieces[0], a) && Accepts(pieces[1..], rest)
    ensures Accepts(pieces, a + rest)
  {
    assert (a + rest)[..|a|] == a && (a + rest)[|a|..] == rest;
    AcceptsBy(pieces, a + rest, |a|);
  }

  lemma {:induction false} LeastStands(piece: Piece)
    ensures Stands(piece, LeastOf(piece))
  {
  }

  /** An expression takes its least text, and after a last `.*` anything on one line. */
  lemma {:induction false} LeastAccepted(pieces: seq<Piece>, more: Units)
    requires more == [] || (EndsAny(pieces) && LineFree(more))
    ensures Accepts(pieces, Least(pieces) + more)
  {
    if pieces == [] {
      assert Least(pieces) + more == [];
    } else if pieces == [Any] {
      assert Least(pieces[1..]) == [] && Least(pieces) + more == more;
      AcceptsLast(Any, more);
    } else {
      var a, b := LeastOf(pieces[0]), Least(pieces[1..]);
      LeastAccepted(pieces[1..], more);
      LeastStands(pieces[0]);
      AcceptsMore(pieces, a, b + more);
      assert a + b + more == a + (b + more);
    }
  }

  /** The components that take exactly one segment. */
  function Single(comps: seq<Units>): nat {
    if comps == [] then 0 else (if comps[0] == STARS then 0 else 1) + Single(comps[1..])
  }

  function Filled(segs: seq<Units>): nat {
    if segs == [] then 0 else (if segs[0] == [] then 0 else 1) + Filled(segs[1..])
  }

  /** Each single component takes a segment, and a "**" before others takes filled segments only. */
  lemma {:induction false} MatchesTakes(comps: seq<Units>, segs: seq<Units>)
    requires comps != [] && comps[|comps| - 1] != STARS && Matches(comps, segs, false)
    ensures Single(comps) <= |segs| <= Single(comps) + Filled(segs)
    decreases |comps|, |segs|
  {
    if comps[0] == STARS {
      assert |comps| > 1;
      if Matches(comps[1..], segs, false) { MatchesTakes(comps[1..], segs); } else { MatchesTakes(comps, segs[1..]); }
    } else if |comps| > 1 {
      MatchesTakes(comps[1..], segs[1..]);
    } else {
      assert comps[1..] == [];
    }
  }

  lemma {:induction false} SegmentsCount(p: Units)
    ensures |Segments(p)| == Slashes(p) + 1
    ensures Filled(Segments(p)) <= Slashes(p) + 1
  {
    if p != [] { SegmentsCount(p[1..]); }
    FilledBound(Segments(p));
  }

  lemma {:induction false} FilledBound(segs: seq<Units>)
    ensures Filled(segs) <= |segs|
  {
    if segs != [] { FilledBound(segs[1..]); }
  }

  lemma {:induction false} FilledJoin(a: seq<Units>, b: seq<Units>)
    ensures Filled(a + b) == Filled(a) + Filled(b)
  {
    if a == [] {
      assert a + b == b;
    } else {
      FilledJoin(a[1..], b);
      assert (a + b)[1..] == a[1..] + b;
    }
  }

  function Only(n: nat): Units { seq(n, _ => SLASH) }

  lemma {:induction false} OnlySlashes(n: nat)
    ensures Slashes(Only(n)) == n && Filled(Segments(Only(n))) == 0
  {
    if n > 0 {
      OnlySlashes(n - 1);
      assert Only(n)[1..] == Only(n - 1);
      assert ([[]] + Segments(Only(n - 1)))[1..] == Segments(Only(n - 1));
    }
  }

  /** Slashes after a text are empty segments. */
  lemma {:induction false} SlashesAfter(p: Units, n: nat)
    requires n > 0
    ensures |Segments(p + Only(n))| == Slashes(p) + n + 1
    ensures Filled(Segments(p + Only(n))) <= Slashes(p) + 1
  {
    SegmentsCount(p);
    SegmentsCount(p + Only(n));
    SlashesJoin(p, Only(n));
    OnlySlashes(n);
    OnlySlashes(n - 1);
    assert p + Only(n) == p + [SLASH] + Only(n - 1);
    SplitApart(p, SLASH, Only(n - 1));
    FilledJoin(Segments(p), Segments(Only(n - 1)));
  }

  predicate NoSlash(comps: seq<Units>) { forall i :: 0 <= i < |comps| ==> SLASH !in comps[i] }

  /** The slashes between components that pairs of stars before them take. */
  function Eaten(comps: seq<Units>): nat {
    if |comps| <= 1 then 0 else (if Odd(comps[0]) then 0 else 1) + Eaten(comps[1..])
  }

  /** No last "**" that stands for a slash and it. */
  predicate NoBelow(comps: seq<Units>) {
    |comps| >= 2 && comps[|comps| - 1] == STARS ==> !Odd(comps[|comps| - 2])
  }

  lemma {:induction false} CrossesRest(comps: seq<Units>)
    requires |comps| > 1 && (comps[0] == STARS || (comps[0] == [] && comps[1..] != [STARS]))
    ensures Pieces(Joined(comps)) == [if comps[0] == STARS then Dirs else Lit(SLASH)] + Pieces(Joined(comps[1..]))
  {
    var g, rest := Joined(comps), comps[1..];
    JoinedStars(rest);
    if comps[0] == STARS {
      assert g == STARS + ([SLASH] + Joined(rest));
      assert g[3..] == Joined(rest);
    } else {
      assert g == [SLASH] + Joined(rest);
      assert g[1..] == Joined(rest);
    }
  }

  /** What `With` keeps, of what is said of all the components. */
  lemma {:induction false} LeftKeeps(comps: seq<Units>)
    requires comps != [] && comps[0] != [] && comps[0] != STARS && NoSlash(comps)
    ensures var left := With(comps[0][Taken(comps[0])..], comps);
      && NoSlash(left) && |left| == |comps| && |Joined(left)| < |Joined(comps)| && Eaten(left) == Eaten(comps)
      && (NoBelow(comps) ==> NoBelow(left))
      && Odd(left[|left| - 1]) == Odd(comps[|comps| - 1])
      && (|comps| > 1 ==> left[|left| - 1] == comps[|comps| - 1])
  {
    var c := comps[0];
    var left := With(c[Taken(c)..], comps);
    LeftOdd(c);
    JoinedStep(comps, Taken(c));
    assert left[1..] == comps[1..];
    assert forall i :: 1 <= i < |comps| ==> left[i] == comps[i];
  }

  lemma {:induction false} StopsShort(comps: seq<Units>)
    requires |comps| > 1 && comps[0] == [] && NoBelow(comps)
    ensures comps[1..] != [STARS]
  {
    assert Odd([]);
    if |comps| == 2 { assert comps[1..] == [comps[1]]; }
  }

  /** An expression names the slashes between components, but for those eaten. */
  lemma {:induction false} CrossingsOf(comps: seq<Units>)
    requires comps != [] && NoSlash(comps) && NoBelow(comps)
    ensures Crossings(Pieces(Joined(comps))) + Eaten(comps) == |comps| - 1
    decreases |Joined(comps)|, |comps|
  {
    var c := comps[0];
    TailStarsOf(STARS);
    if |comps| > 1 && (c == STARS || c == []) {
      if c == [] { StopsShort(comps); }
      CrossesRest(comps);
      assert |Joined(comps)| == |c| + 1 + |Joined(comps[1..])|;
      CrossingsOf(comps[1..]);
    } else if c == STARS {
      assert STARS[2..] == [] && Pieces(STARS) == [Any];
    } else if c != [] {
      LeftKeeps(comps);
      PiecesInside(comps);
      CrossingsOf(With(c[Taken(c)..], comps));
    }
  }

  predicate EndsAny(pieces: seq<Piece>) { pieces != [] && pieces[|pieces| - 1] == Any }

  lemma {:induction false} EndsMore(first: Piece, rest: seq<Piece>)
    requires EndsAny(rest)
    ensures EndsAny([first] + rest)
  {
    assert ([first] + rest)[|rest|] == rest[|rest| - 1];
  }

  /** A last component that ends in a pair of stars ends the expression with `.*`. */
  lemma {:induction false} PairLast(comps: seq<Units>)
    requires comps != [] && NoSlash(comps) && !Odd(comps[|comps| - 1]) && NoBelow(comps)
    ensures EndsAny(Pieces(Joined(comps)))
    decreases |Joined(comps)|, |comps|
  {
    var c := comps[0];
    TailStarsOf(STARS);
    if |comps| > 1 && (c == STARS || c == []) {
      if c == [] { StopsShort(comps); }
      CrossesRest(comps);
      assert |Joined(comps)| == |c| + 1 + |Joined(comps[1..])|;
      PairLast(comps[1..]);
      EndsMore(if c == STARS then Dirs else Lit(SLASH), Pieces(Joined(comps[1..])));
    } else if c == STARS {
      assert STARS[2..] == [] && Pieces(STARS) == [Any];
    } else if c != [] {
      LeftKeeps(comps);
      PiecesInside(comps);
      var left := With(c[Taken(c)..], comps);
      PairLast(left);
      EndsMore(Opening(c), Pieces(Joined(left)));
    }
  }

  predicate AllSound(comps: seq<Units>) { forall i :: 0 <= i < |comps| ==> Sound(comps[i]) }

  /** How the slashes eaten compare with the components that take no segment of their own. */
  lemma {:induction false} EatenCount(comps: seq<Units>)
    requires comps != [] && NoSlash(comps)
    ensures Single(comps) <= |comps| <= Eaten(comps) + Single(comps) + if comps[|comps| - 1] == STARS then 1 else 0
    ensures AllSound(comps[..|comps| - 1]) <==>
      |comps| == Eaten(comps) + Single(comps) + if comps[|comps| - 1] == STARS then 1 else 0
  {
    TailStarsOf(STARS);
    if |comps| > 1 {
      var rest := comps[1..];
      EatenCount(rest);
      assert comps[..|comps| - 1] == [comps[0]] + rest[..|rest| - 1];
      assert AllSound(comps[..|comps| - 1]) <==> Sound(comps[0]) && AllSound(rest[..|rest| - 1]) by {
        SoundParts(comps[0], rest[..|rest| - 1]);
      }
    } else {
      assert comps[1..] == [];
    }
  }

  lemma {:induction false} SoundParts(c: Units, rest: seq<Units>)
    ensures AllSound([c] + rest) <==> Sound(c) && AllSound(rest)
  {
    var all := [c] + rest;
    assert all[0] == c && all[1..] == rest;
    if AllSound(all) {
      forall i | 0 <= i < |rest| ensures Sound(rest[i]) { assert Sound(all[i + 1]); }
    }
  }

  /** A text some component's meaning and its expression part on. */
  ghost predicate Parts(comps: seq<Units>, p: Units) { !Agrees(comps, p) }

  /** A pair of stars before a slash lets a path leave the slash out. */
  lemma {:induction false} PairInside(comps: seq<Units>) returns (p: Units)
    requires comps != [] && NoSlash(comps) && comps[|comps| - 1] != STARS && !AllSound(comps[..|comps| - 1])
    ensures Parts(comps, p)
  {
    var pieces := Pieces(Joined(comps));
    p := Least(pieces);
    LeastAccepted(pieces, []);
    assert p + [] == p;
    LeastCrosses(pieces);
    CrossingsOf(comps);
    EatenCount(comps);
    SegmentsCount(p);
    if Matches(comps, Segments(p), false) { MatchesTakes(comps, Segments(p)); }
  }

  /** A last pair of stars takes any number of slashes. */
  lemma {:induction false} PairAtEnd(comps: seq<Units>) returns (p: Units)
    requires comps != [] && NoSlash(comps) && comps[|comps| - 1] != STARS && !Odd(comps[|comps| - 1])
    ensures Parts(comps, p)
  {
    var pieces, n := Pieces(Joined(comps)), |comps| + 1;
    p := Least(pieces) + Only(n);
    PairLast(comps);
    LeastAccepted(pieces, Only(n));
    LeastCrosses(pieces);
    CrossingsOf(comps);
    EatenCount(comps);
    SlashesAfter(Least(pieces), n);
    if Matches(comps, Segments(p), false) { MatchesTakes(comps, Segments(p)); }
  }

  /** A shortest text of a component. */
  function LeastSeg(c: Units): Units {
    if c == [] then [] else (if c[0] == STAR then [] else if c[0] == QUERY then [97] else [c[0]]) + LeastSeg(c[1..])
  }

  lemma {:induction false} LeastWild(c: Units)
    requires SLASH !in c
    ensures Wild(c, LeastSeg(c)) && SLASH !in LeastSeg(c)
  {
    if c != [] {
      LeastWild(c[1..]);
      if c[0] == STAR { assert LeastSeg(c) == LeastSeg(c[1..]); } else { assert LeastSeg(c)[1..] == LeastSeg(c[1..]); }
    }
  }

  function LeastSegs(comps: seq<Units>): seq<Units> {
    if comps == [] then [] else (if comps[0] == STARS then [] else [LeastSeg(comps[0])]) + LeastSegs(comps[1..])
  }

  lemma {:induction false} LeastMatches(comps: seq<Units>)
    requires comps != [] && NoSlash(comps)
    ensures Matches(comps, LeastSegs(comps), false) && |LeastSegs(comps)| == Single(comps) && NoSlash(LeastSegs(comps))
  {
    var c, rest := comps[0], comps[1..];
    LeastWild(c);
    if rest != [] { LeastMatches(rest); }
    if c == STARS {
      assert LeastSegs(comps) == LeastSegs(rest);
    } else {
      assert LeastSegs(comps)[1..] == LeastSegs(rest);
    }
  }

  /** Before two last "**" a slash is asked for that the components do not need. */
  lemma {:induction false} StarsTwice(comps: seq<Units>) returns (p: Units)
    requires |comps| >= 2 && AllSound(comps) && comps[|comps| - 1] == STARS && comps[|comps| - 2] == STARS
    requires Single(comps) > 0
    ensures Parts(comps, p)
  {
    LeastMatches(comps);
    var segs := LeastSegs(comps);
    p := Joined(segs);
    SplitJoin(segs, SLASH);
    SegmentsCount(p);
    TailStarsOf(STARS);
    CrossingsOf(comps);
    EatenCount(comps);
    if Accepts(Pieces(Joined(comps)), p) { AcceptsCrosses(Pieces(Joined(comps)), p); }
  }

  /** Only "**", more than once: a line break in the last segment is refused. */
  lemma {:induction false} StarsOnly(comps: seq<Units>)
    requires comps != [] && Single(comps) == 0
    ensures !Accepts(Pieces(Joined(comps)), [10])
    ensures |comps| > 1 ==> Matches(comps, [[10]], false)
    ensures Matches(comps, [], false)
  {
    assert comps[0] == STARS;
    if |comps| == 1 {
      assert comps == [STARS];
      assert STARS[2..] == [] && Pieces(STARS) == [Any];
      AcceptsLast(Any, [10]);
      assert [10][0] == 10 && !LineFree([10]);
    } else {
      StarsOnly(comps[1..]);
      CrossesRest(comps);
      AcceptsDirs(Pieces(Joined(comps)), [10]);
      var one: seq<Units> := [[10]];
      assert one[1..] == [];
      assert one[0] != [] && Matches(comps, one[1..], false);
    }
  }

  /** The expression of a glob accepts, of all paths, exactly those its components match. */
  ghost predicate Keeps(glob: Units) {
    forall p :: Tests(Render(Pieces(glob)), p) <==> Matches(Components(glob), Segments(p), false)
  }

  lemma {:induction false} Parted(glob: Units, p: Units)
    requires Parts(Components(glob), p)
    ensures !Keeps(glob)
  {
    JoinedBack(glob);
    TextMeans(glob, p);
  }

  lemma {:induction false} StarsPart(comps: seq<Units>) returns (p: Units)
    requires |comps| >= 2 && AllSound(comps) && comps[|comps| - 1] == STARS && comps[|comps| - 2] == STARS
    ensures Parts(comps, p)
  {
    if Single(comps) > 0 {
      p := StarsTwice(comps);
    } else {
      StarsOnly(comps);
      p := [10];
      SplitFirst(p, SLASH, []);
    }
  }

  lemma {:induction false} UnsoundParts(comps: seq<Units>) returns (p: Units)
    requires comps != [] && NoSlash(comps) && comps[|comps| - 1] != STARS && !AllSound(comps)
    ensures Parts(comps, p)
  {
    if AllSound(comps[..|comps| - 1]) {
      assert forall i :: 0 <= i < |comps| - 1 ==> comps[..|comps| - 1][i] == comps[i];
      p := PairAtEnd(comps);
    } else {
      p := PairInside(comps);
    }
  }

  /**
   Exactly which globs keep their meaning, of those that do not end in "**" or whose components are all
   sound: the sound ones, but for a last "**" right after another.
   */
  lemma {:induction false} GlobKeeps(glob: Units)
    requires Components(glob)[|Components(glob)| - 1] != STARS || AllSound(Components(glob))
    ensures Keeps(glob) <==> WellFormed(Components(glob))
  {
    var comps := Components(glob);
    JoinedBack(glob);
    if WellFormed(comps) {
      forall p ensures Tests(Render(Pieces(glob)), p) <==> Matches(comps, Segments(p), false) { GlobExact(glob, p); }
    } else {
      if AllSound(comps) {
        var p := StarsPart(comps);
        Parted(glob, p);
      } else {
        var p := UnsoundParts(comps);
        Parted(glob, p);
      }
    }
  }

  /** The condition on line breaks is needed: "**" refuses a path of one line break. */
  lemma {:induction false} BreakRefused()
    ensures !Tests(Render(Pieces(STARS)), [10]) && Matches(Components(STARS), Segments([10]), true)
  {
    var g := STARS;
    assert Components(g) == [STARS] by {
      assert SLASH !in g;
      SplitFirst(g, SLASH, []);
    }
    TailStarsOf(STARS);
    GlobExact(g, [10]);
    SegmentsLines([10]);
    assert [10][0] == 10 && !LineFree([10]);
  }

  /** So is soundness: a component that ends in a pair of stars crosses slashes. */
  lemma {:induction false} PairCrosses()
    ensures Tests(Render(Pieces([QUERY, STAR, STAR])), [97, SLASH])
    ensures !Matches([[QUERY, STAR, STAR]], [[97], []], true)
  {
    var g, p: Units := [QUERY, STAR, STAR], [97, SLASH];
    TextMeans(g, p);
    assert Pieces(g) == [One, Any] by {
      assert g[1..] == STARS && STARS[2..] == [];
      assert Pieces(STARS) == [Any];
    }
    AcceptsOne([One, Any], p);
    assert [One, Any][1..] == [Any];
    AcceptsLast(Any, p[1..]);
  }
}
