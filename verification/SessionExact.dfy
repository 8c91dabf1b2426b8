/**
 When a look is right (mission-control/server/index-store.ts:361-402): exactly which changes between two
 looks leave the turns of an entry what a full read would give, whatever the lines of a transcript mean.
 */
module SessionExact {
  import opened Options
  import opened CodeUnits
  import opened SessionLines
  import opened SessionIndex

  /** The lines that are not blank. */
  function Words(lines: seq<Units>): seq<Units> {
    if lines == [] then []
    else Words(lines[..|lines| - 1]) + if lines[|lines| - 1] == [] then [] else [lines[|lines| - 1]]
  }

  function WordsOf(text: Units): seq<Units> { Words(Split(text, NEWLINE)) }

  predicate NoBlank(lines: seq<Units>) { forall i :: 0 <= i < |lines| ==> lines[i] != [] }

  lemma {:induction false} WordsNoBlank(lines: seq<Units>)
    ensures NoBlank(Words(lines))
  {
    if lines != [] { WordsNoBlank(lines[..|lines| - 1]); }
  }

  /** Blank lines record nothing. */
  lemma {:induction false} TurnsOfWords(p: Parser, lines: seq<Units>)
    ensures TurnsOf(p, lines) == TurnsOf(p, Words(lines))
  {
    if lines != [] {
      var n := |lines| - 1;
      TurnsOfWords(p, lines[..n]);
      var w := Words(lines[..n]);
      if lines[n] == [] {
        assert w + [] == w;
        assert TurnsOf(p, lines[..n]) + [] == TurnsOf(p, lines[..n]);
      } else {
        var more := w + [lines[n]];
        assert more[..|w|] == w;
      }
    }
  }

  /** The reader to which every line is usage, and one line is unlike all others. */
  function Tagger(a: Units): Parser {
    Parser(u => u != [], u => Some(Turn(if u == a then 0 else 1, 0, false)), u => None)
  }

  lemma {:induction false} TagTurns(a: Units, lines: seq<Units>)
    requires NoBlank(lines)
    ensures |TurnsOf(Tagger(a), lines)| == |lines|
    ensures forall i :: 0 <= i < |lines| ==> TurnsOf(Tagger(a), lines)[i].t == if lines[i] == a then 0 else 1
  {
    if lines != [] {
      var n := |lines| - 1;
      TagTurns(a, lines[..n]);
      assert forall i :: 0 <= i < n ==> lines[..n][i] == lines[i];
    }
  }

  /** Lines that every reader takes for the same turns are the same lines. */
  lemma {:induction false} SameTurnsSameLines(v: seq<Units>, w: seq<Units>)
    requires NoBlank(v) && NoBlank(w) && forall p :: Sane(p) ==> TurnsOf(p, v) == TurnsOf(p, w)
    ensures v == w
  {
    var any: Units := [];
    assert Sane(Tagger(any));
    TagTurns(any, v);
    TagTurns(any, w);
    forall i | 0 <= i < |v| ensures v[i] == w[i] {
      assert Sane(Tagger(v[i]));
      TagTurns(v[i], v);
      TagTurns(v[i], w);
      assert TurnsOf(Tagger(v[i]), w)[i].t == 0;
    }
  }

  /** The entry of a file seen in full, off the disk or not. */
  function Recorded(h: Units -> string, p: Parser, f: string, project: string, was: FileState, verify: bool): Entry {
    FreshEntry(h, LineReader(p), f, project, was).(needsVerify := verify)
  }

  /** A look gives the turns a full read of the file would. */
  predicate LookRight(h: Units -> string, p: Parser, f: string, project: string, was: FileState, verify: bool, now: FileState) {
    LookAt(h, LineReader(p), Recorded(h, p, f, project, was, verify), f, project, now).turns == TurnsFrom(p, now.content)
  }

  /** The file is read in full: it is shorter, or an entry off the disk finds its window moved. */
  predicate ReadInFull(was: Units, verify: bool, now: Units) { |now| < |was| || (verify && WindowMoved(was, now)) }

  /** The lines an entry keeps, and those it takes from past the recorded size, are those of the file. */
  predicate LinesKept(was: FileState, now: FileState)
    requires |was.content| <= |now.content|
  {
    if was.mtime == now.mtime && |was.content| == |now.content| then WordsOf(was.content) == WordsOf(now.content)
    else WordsOf(was.content) + WordsOf(now.content[|was.content|..]) == WordsOf(now.content)
  }

  /** What the lines of a look are, where it does not read in full. */
  function LookedLines(was: FileState, now: FileState): seq<Units>
    requires |was.content| <= |now.content|
  {
    if was.mtime == now.mtime && |was.content| == |now.content| then WordsOf(was.content)
    else WordsOf(was.content) + WordsOf(now.content[|was.content|..])
  }

  /** The turns of an entry are kept, or those past the recorded size are added. */
  lemma {:induction false} LookTurns(h: Units -> string, r: Reader, f: string, project: string, was: FileState, verify: bool, now: FileState)
    requires CollisionFree(h) && !ReadInFull(was.content, verify, now.content)
    ensures var e := FreshEntry(h, r, f, project, was).(needsVerify := verify);
      LookAt(h, r, e, f, project, now).turns
      == if was.mtime == now.mtime && |was.content| == |now.content| then r.turns(was.content)
         else r.turns(was.content) + r.turns(now.content[|was.content|..])
  {
  }

  lemma {:induction false} TurnsByWords(p: Parser, text: Units)
    ensures TurnsFrom(p, text) == TurnsOf(p, WordsOf(text))
  {
    TurnsOfWords(p, Split(text, NEWLINE));
  }

  lemma {:induction false} LookedTurns(h: Units -> string, p: Parser, f: string, project: string, was: FileState, verify: bool, now: FileState)
    requires CollisionFree(h) && !ReadInFull(was.content, verify, now.content)
    ensures LookAt(h, LineReader(p), Recorded(h, p, f, project, was, verify), f, project, now).turns
      == TurnsOf(p, LookedLines(was, now))
  {
    LookTurns(h, LineReader(p), f, project, was, verify, now);
    TurnsByWords(p, was.content);
    if !(was.mtime == now.mtime && |was.content| == |now.content|) {
      TurnsByWords(p, now.content[|was.content|..]);
      TurnsOfJoins(p, WordsOf(was.content), WordsOf(now.content[|was.content|..]));
    }
  }

  /**
   A look is right, whatever the lines mean, exactly when the file is read in full or the lines kept and
   the lines read past the recorded size are the file's.
   */
  lemma {:induction false} LookExact(h: Units -> string, f: string, project: string, was: FileState, verify: bool, now: FileState)
    requires CollisionFree(h)
    ensures (forall p :: Sane(p) ==> LookRight(h, p, f, project, was, verify, now))
      <==> ReadInFull(was.content, verify, now.content) || LinesKept(was, now)
  {
    if !ReadInFull(was.content, verify, now.content) {
      var looked, whole := LookedLines(was, now), WordsOf(now.content);
      forall p | Sane(p)
        ensures LookRight(h, p, f, project, was, verify, now) <==> TurnsOf(p, looked) == TurnsOf(p, whole)
      {
        LookedTurns(h, p, f, project, was, verify, now);
        TurnsOfWords(p, Split(now.content, NEWLINE));
      }
      if forall p :: Sane(p) ==> LookRight(h, p, f, project, was, verify, now) {
        LookedNoBlank(was, now);
        WordsNoBlank(Split(now.content, NEWLINE));
        assert forall p :: Sane(p) ==> TurnsOf(p, looked) == TurnsOf(p, whole);
        SameTurnsSameLines(looked, whole);
      }
    }
  }

  lemma {:induction false} LookedNoBlank(was: FileState, now: FileState)
    requires |was.content| <= |now.content|
    ensures NoBlank(LookedLines(was, now))
  {
    WordsNoBlank(Split(was.content, NEWLINE));
    WordsNoBlank(Split(now.content[|was.content|..], NEWLINE));
  }

  lemma {:induction false} OneLine(u: nat)
    requires u != NEWLINE
    ensures WordsOf([u, NEWLINE]) == [[u]]
  {
    assert [u] + [NEWLINE] + [] == [u, NEWLINE];
    SplitFirst([u], NEWLINE, []);
    var lines: seq<Units> := [[u], []];
    assert Split([u, NEWLINE], NEWLINE) == lines;
    assert lines[..1] == [[u]] && [[u]][..0] == [];
    assert Words([[u]]) == [[u]];
  }

  /** Some reader takes the lines for other turns than a full read would. */
  ghost predicate Misread(h: Units -> string, f: string, project: string, was: FileState, now: FileState) {
    exists p :: Sane(p) && !LookRight(h, p, f, project, was, false, now)
  }

  /**
   The input the code gets wrong: a file of one line is replaced by another line and grown past its old
   size, all between two looks of one process. The look keeps the line that is gone.
   */
  lemma {:induction false} ReplacedAndGrown(h: Units -> string, f: string, project: string)
    requires CollisionFree(h)
    ensures Misread(h, f, project, FileState([1, NEWLINE], 0), FileState([2, NEWLINE, 3, NEWLINE], 1))
  {
    var was, now := FileState([1, NEWLINE], 0), FileState([2, NEWLINE, 3, NEWLINE], 1);
    OneLine(1);
    OneLine(2);
    OneLine(3);
    assert now.content[2..] == [3, NEWLINE];
    assert now.content == [2] + [NEWLINE] + [3, NEWLINE];
    SplitFirst([2], NEWLINE, [3, NEWLINE]);
    FirstWord([2], Split([3, NEWLINE], NEWLINE));
    assert WordsOf(now.content)[0] == [2];
    LookExact(h, f, project, was, false, now);
    assert LookedLines(was, now)[0] == [1];
  }

  lemma {:induction false} FirstWord(a: Units, rest: seq<Units>)
    requires a != []
    ensures Words([a] + rest) == [a] + Words(rest)
  {
    if rest == [] {
      assert [a] + rest == [a] && [a][..0] == [];
    } else {
      var n := |rest| - 1;
      FirstWord(a, rest[..n]);
      assert ([a] + rest)[..n + 1] == [a] + rest[..n];
    }
  }
}
