/**
 Command lines as trees: words of plain characters, escapes, quotes, parameters and substitutions,
 subshells, redirections and operators. The scan of a printed command finds exactly the operators in
 command position, at any depth.
 */
module ShellGrammar {
  import opened Options
  import opened ShellScanner

  /** A piece of a word. */
  datatype Piece =
    | Plain(c: char)
    | Param(c: char)                      // $c
    | Escape(c: char)                     // \c
    | Literal(text: string)               // '...'
    | Quoted(parts: seq<Part>)            // "..."
    | Subst(cmd: Command)                 // $(...)
    | Process(dir: char, cmd: Command)    // <(...) or >(...)

  /** A piece of a double-quoted text. */
  datatype Part =
    | Char(c: char)
    | QuotedParam(c: char)
    | QuotedEscape(c: char)
    | QuotedSubst(cmd: Command)

  /** What a command is a sequence of; `after` is the blanks behind it. */
  datatype Item =
    | Word(pieces: seq<Piece>, after: string)
    | Group(cmd: Command, after: string)                                 // ( ... )
    | Duplicate(fd: string, dir: char, target: string, after: string)    // 2>&1, <&3
    | Operator(op: Op, after: string)

  /** The items, behind the blanks they start with. */
  datatype Command = Command(lead: string, items: seq<Item>)

  // ------------------------------------------------------------------ what is printed

  function OpText(op: Op): string {
    match op
    case AndAnd => "&&"
    case OrOr => "||"
    case Semi => ";"
    case Pipe => "|"
    case Amp => "&"
    case Newline => "\n"
    case SubIn => "<("
    case SubOut => ">("
  }

  function PieceText(p: Piece, k: string): string
    decreases p, 3
  {
    match p
    case Plain(c) => [c] + k
    case Param(c) => ['$', c] + k
    case Escape(c) => ['\\', c] + k
    case Literal(text) => "'" + (text + ("'" + k))
    case Quoted(parts) => "\"" + PartsText(parts, "\"" + k)
    case Subst(cmd) => "$(" + CommandText(cmd, ")" + k)
    case Process(dir, cmd) => [dir, '('] + CommandText(cmd, ")" + k)
  }

  function PartText(p: Part, k: string): string
    decreases p, 3
  {
    match p
    case Char(c) => [c] + k
    case QuotedParam(c) => ['$', c] + k
    case QuotedEscape(c) => ['\\', c] + k
    case QuotedSubst(cmd) => "$(" + CommandText(cmd, ")" + k)
  }

  function PartsText(parts: seq<Part>, k: string): string
    decreases parts, 0
  {
    if parts == [] then k else PartText(parts[0], PartsText(parts[1..], k))
  }

  function PiecesText(pieces: seq<Piece>, k: string): string
    decreases pieces, 0
  {
    if pieces == [] then k else PieceText(pieces[0], PiecesText(pieces[1..], k))
  }

  function ItemText(x: Item, k: string): string
    decreases x, 3
  {
    match x
    case Word(pieces, after) => PiecesText(pieces, after + k)
    case Group(cmd, after) => "(" + CommandText(cmd, ")" + (after + k))
    case Duplicate(fd, dir, target, after) => fd + ([dir, '&'] + (target + (after + k)))
    case Operator(op, after) => OpText(op) + (after + k)
  }

  function ItemsText(items: seq<Item>, k: string): string
    decreases items, 0
  {
    if items == [] then k else ItemText(items[0], ItemsText(items[1..], k))
  }

  function CommandText(cmd: Command, k: string): string
    decreases cmd, 2
  {
    cmd.lead + ItemsText(cmd.items, k)
  }

  // ------------------------------------------------------------------ which trees are command lines

  predicate Blanks(s: string) { forall i :: 0 <= i < |s| ==> s[i] == ' ' || s[i] == '\t' }

  predicate Digits(s: string) { forall i :: 0 <= i < |s| ==> '0' <= s[i] <= '9' }

  predicate PlainChar(c: char) { !IsSpace(c) && c !in "\\'\"$`()<>&|;#" }

  predicate ParamChar(c: char) { IsNameChar(c) || c in SPECIAL_PARAMETERS }

  /** `;` and a newline may touch what is around them. */
  predicate Touching(x: Item) { x.Operator? && (x.op == Semi || x.op == Newline) }

  ghost predicate ValidPiece(p: Piece)
    decreases p, 3
  {
    match p
    case Plain(c) => PlainChar(c)
    case Param(c) => ParamChar(c)
    case Escape(_) => true
    case Literal(text) => '\'' !in text
    case Quoted(parts) => ValidParts(parts)
    case Subst(cmd) => ValidCommand(cmd) && Opened(cmd)
    case Process(dir, cmd) => (dir == '<' || dir == '>') && ValidCommand(cmd)
  }

  /** `$((` is arithmetic, so a subshell right behind `$(` stands off by a blank. */
  ghost predicate Opened(cmd: Command) { cmd.lead == "" && cmd.items != [] ==> !cmd.items[0].Group? }

  ghost predicate ValidPart(p: Part)
    decreases p, 3
  {
    match p
    case Char(c) => c !in "\"\\$`"
    case QuotedParam(c) => ParamChar(c)
    case QuotedEscape(_) => true
    case QuotedSubst(cmd) => ValidCommand(cmd) && Opened(cmd)
  }

  ghost predicate ValidParts(parts: seq<Part>)
    decreases parts, 0
  {
    parts == [] || (ValidPart(parts[0]) && ValidParts(parts[1..]))
  }

  ghost predicate ValidPieces(pieces: seq<Piece>)
    decreases pieces, 0
  {
    pieces == [] || (ValidPiece(pieces[0]) && ValidPieces(pieces[1..]))
  }

  ghost predicate ValidItem(x: Item)
    decreases x, 3
  {
    Blanks(x.after) && match x
      case Word(pieces, _) => pieces != [] && ValidPieces(pieces)
      case Group(cmd, _) => ValidCommand(cmd)
      case Duplicate(fd, dir, target, _) => Digits(fd) && (dir == '<' || dir == '>') && target != "" && (Digits(target) || target == "-")
      case Operator(op, after) => op != SubIn && op != SubOut && (op == Semi || op == Newline || after != "")
  }

  /** Items stand apart by blanks, or one of them is `;` or a newline. */
  ghost predicate ValidItems(items: seq<Item>)
    decreases items, 0
  {
    items == [] || (ValidItem(items[0]) && ValidItems(items[1..])
                    && (|items| > 1 ==> items[0].after != "" || Touching(items[0]) || Touching(items[1])))
  }

  ghost predicate ValidCommand(cmd: Command)
    decreases cmd, 2
  {
    Blanks(cmd.lead) && ValidItems(cmd.items)
  }

  // ------------------------------------------------------------------ the operators in command position

  function PieceOps(p: Piece): set<Op>
    decreases p, 3
  {
    match p
    case Quoted(parts) => PartsOps(parts)
    case Subst(cmd) => ItemsOps(cmd.items)
    case Process(dir, cmd) => {if dir == '<' then SubIn else SubOut} + ItemsOps(cmd.items)
    case _ => {}
  }

  function PartOps(p: Part): set<Op>
    decreases p, 3
  {
    match p
    case QuotedSubst(cmd) => ItemsOps(cmd.items)
    case _ => {}
  }

  function PartsOps(parts: seq<Part>): set<Op>
    decreases parts, 0
  {
    if parts == [] then {} else PartOps(parts[0]) + PartsOps(parts[1..])
  }

  function PiecesOps(pieces: seq<Piece>): set<Op>
    decreases pieces, 0
  {
    if pieces == [] then {} else PieceOps(pieces[0]) + PiecesOps(pieces[1..])
  }

  function ItemOps(x: Item): set<Op>
    decreases x, 3
  {
    match x
    case Word(pieces, _) => PiecesOps(pieces)
    case Group(cmd, _) => ItemsOps(cmd.items)
    case Duplicate(_, _, _, _) => {}
    case Operator(op, _) => {op}
  }

  function ItemsOps(items: seq<Item>): set<Op>
    decreases items, 0
  {
    if items == [] then {} else ItemOps(items[0]) + ItemsOps(items[1..])
  }

  // ------------------------------------------------------------------ single steps

  /** A command context, outside quotes. */
  predicate Open(s: State) { Rooted(s) && Top(s).quote == Bare && (Top(s).kind == Base || (Top(s).kind == Paren && Top(s).parens >= 1)) }

  /** Inside double quotes of a command context. */
  predicate InQuotes(s: State) { Rooted(s) && Top(s).quote == Double }

  /** The same contexts, and `ops` found on the way. */
  predicate Onward(s: State, ops: set<Op>, t: State) {
    Rooted(t) && t.stack == s.stack && t.found == s.found + ops && t.strange == s.strange
  }

  lemma {:induction false} ScanStep(g: Scanner, u: string, s: State, n: nat, t: State)
    requires Follows(g)
    requires u != "" && Rooted(s) && Step(g.arith, u, s) == Go(t, n)
    ensures Rooted(t) && 1 <= n <= |u| && g.scan(u, s) == g.scan(u[n..], t)
  {
    StepRooted(g.arith, u, s);
  }

  /** A character that is no more than itself. */
  lemma {:induction false} ScanPlain(g: Scanner, c: char, k: string, s: State) returns (t: State)
    requires Follows(g)
    requires Open(s) && PlainChar(c)
    ensures Onward(s, {}, t) && t.prev == Some(c) && !t.word && g.scan([c] + k, s) == g.scan(k, t)
  {
    t := Read(s, c, false);
    assert ([c] + k)[1..] == k;
    ScanStep(g, [c] + k, s, 1, t);
  }

  lemma {:induction false} ScanBlank(g: Scanner, c: char, k: string, s: State) returns (t: State)
    requires Follows(g)
    requires Open(s) && (c == ' ' || c == '\t')
    ensures Onward(s, {}, t) && t.prev == Some(c) && g.scan([c] + k, s) == g.scan(k, t)
  {
    t := Read(s, c, true);
    assert ([c] + k)[1..] == k;
    ScanStep(g, [c] + k, s, 1, t);
  }

  lemma {:induction false} ScanBlanks(g: Scanner, b: string, k: string, s: State) returns (t: State)
    requires Follows(g)
    requires Open(s) && Blanks(b)
    ensures Onward(s, {}, t) && g.scan(b + k, s) == g.scan(k, t)
    ensures if b == "" then t == s else t.prev == Some(' ') || t.prev == Some('\t')
    decreases |b|
  {
    if b == "" {
      assert b + k == k;
      t := s;
    } else {
      assert b + k == [b[0]] + (b[1..] + k);
      t := ScanBlank(g, b[0], b[1..] + k, s);
      t := ScanBlanks(g, b[1..], k, t);
    }
  }

  lemma {:induction false} ScanEscape(g: Scanner, c: char, k: string, s: State) returns (t: State)
    requires Follows(g)
    requires Rooted(s) && Top(s).quote != Single
    ensures Onward(s, {}, t) && !t.word && g.scan(['\\', c] + k, s) == g.scan(k, t)
  {
    t := s.(prev := None, word := false);
    assert (['\\', c] + k)[2..] == k;
    ScanStep(g, ['\\', c] + k, s, 2, t);
  }

  /** `$c` is one parameter, in quotes and out of them. */
  lemma {:induction false} ScanParam(g: Scanner, c: char, k: string, s: State) returns (t: State)
    requires Follows(g)
    requires (Open(s) || InQuotes(s)) && ParamChar(c)
    ensures Onward(s, {}, t) && g.scan(['$', c] + k, s) == g.scan(k, t)
  {
    var u := ['$', c] + k;
    assert u[1] == c && c != '(' && c != '\'' && c != '"';
    if c == '$' {
      t := Read(s, '$', false);
      assert u[2..] == k;
      ScanStep(g, u, s, 2, t);
    } else {
      var m := Read(s, '$', false);
      ScanStep(g, u, s, 1, m);
      assert u[1..] == [c] + k && ([c] + k)[1..] == k;
      t := Read(m, c, false);
      ScanStep(g, [c] + k, m, 1, t);
    }
  }

  /** Single quotes are opaque. */
  lemma {:induction false} ScanInSingle(g: Scanner, text: string, k: string, s: State) returns (t: State)
    requires Follows(g)
    requires Rooted(s) && Top(s).quote == Single && '\'' !in text
    ensures Onward(s, {}, t) && g.scan(text + k, s) == g.scan(k, t)
    decreases |text|
  {
    if text == "" {
      assert text + k == k;
      t := s;
    } else {
      var m := Read(s, text[0], false);
      assert text + k == [text[0]] + (text[1..] + k);
      assert (text + k)[1..] == text[1..] + k;
      ScanStep(g, text + k, s, 1, m);
      t := ScanInSingle(g, text[1..], k, m);
    }
  }

  lemma {:induction false} ScanLiteral(g: Scanner, text: string, k: string, s: State) returns (t: State)
    requires Follows(g)
    requires Open(s) && '\'' !in text
    ensures Onward(s, {}, t) && g.scan("'" + (text + ("'" + k)), s) == g.scan(k, t)
  {
    var u := "'" + (text + ("'" + k));
    var m := Read(WithTop(s, Top(s).(quote := Single)), '\'', false);
    assert u[1..] == text + ("'" + k);
    ScanStep(g, u, s, 1, m);
    var n := ScanInSingle(g, text, "'" + k, m);
    t := Read(WithTop(n, Top(n).(quote := Bare)), '\'', false);
    assert ("'" + k)[1..] == k;
    ScanStep(g, "'" + k, n, 1, t);
    assert Top(n).(quote := Bare) == Top(s);
    assert t.stack == s.stack;
  }

  lemma {:induction false} ScanInDouble(g: Scanner, c: char, k: string, s: State) returns (t: State)
    requires Follows(g)
    requires InQuotes(s) && c !in "\"\\$`"
    ensures Onward(s, {}, t) && g.scan([c] + k, s) == g.scan(k, t)
  {
    t := Read(s, c, false);
    assert ([c] + k)[1..] == k;
    ScanStep(g, [c] + k, s, 1, t);
  }

  /** The quotes around a quoted text: what lies between is scanned in a context of its own quoting. */
  lemma {:induction false} OpenQuotes(g: Scanner, k: string, s: State) returns (t: State)
    requires Follows(g)
    requires Open(s)
    ensures InQuotes(t) && t == Read(WithTop(s, Top(s).(quote := Double)), '"', false)
    ensures g.scan("\"" + k, s) == g.scan(k, t)
  {
    t := Read(WithTop(s, Top(s).(quote := Double)), '"', false);
    assert ("\"" + k)[1..] == k;
    ScanStep(g, "\"" + k, s, 1, t);
  }

  lemma {:induction false} CloseQuotes(g: Scanner, k: string, s: State, n: State) returns (t: State)
    requires Follows(g)
    requires Open(s) && Rooted(n) && n.stack == WithTop(s, Top(s).(quote := Double)).stack
    ensures Onward(n.(stack := s.stack), {}, t) && g.scan("\"" + k, n) == g.scan(k, t)
  {
    t := Read(WithTop(n, Top(n).(quote := Bare)), '"', false);
    assert ("\"" + k)[1..] == k;
    ScanStep(g, "\"" + k, n, 1, t);
    assert t.stack == s.stack;
  }

  /** A substitution opens a context from a command and from double quotes alike. */
  lemma {:induction false} OpenSubst(g: Scanner, k: string, s: State) returns (t: State)
    requires Follows(g)
    requires (Open(s) || InQuotes(s)) && (k != "" ==> k[0] != '(')
    ensures t == Read(Push(s, Frame(Paren, Bare, 1)), '(', true) && Open(t)
    ensures g.scan("$(" + k, s) == g.scan(k, t)
  {
    t := Read(Push(s, Frame(Paren, Bare, 1)), '(', true);
    assert ("$(" + k)[2..] == k;
    ScanStep(g, "$(" + k, s, 2, t);
  }

  lemma {:induction false} CloseContext(g: Scanner, k: string, s: State, n: State) returns (t: State)
    requires Follows(g)
    requires Rooted(s) && Rooted(n) && n.stack == s.stack + [Frame(Paren, Bare, 1)]
    ensures Onward(n.(stack := s.stack), {}, t) && g.scan(")" + k, n) == g.scan(k, t)
  {
    t := Read(Pop(n), ')', false);
    assert n.stack[..|n.stack| - 1] == s.stack;
    assert (")" + k)[1..] == k;
    ScanStep(g, ")" + k, n, 1, t);
  }

  lemma {:induction false} OpenProcess(g: Scanner, dir: char, k: string, s: State) returns (t: State)
    requires Follows(g)
    requires Open(s) && (dir == '<' || dir == '>')
    ensures t == Read(Push(Report(s, if dir == '<' then SubIn else SubOut), Frame(Paren, Bare, 1)), '(', true) && Open(t)
    ensures g.scan([dir, '('] + k, s) == g.scan(k, t)
  {
    t := Read(Push(Report(s, if dir == '<' then SubIn else SubOut), Frame(Paren, Bare, 1)), '(', true);
    assert ([dir, '('] + k)[2..] == k;
    ScanStep(g, [dir, '('] + k, s, 2, t);
  }

  /** A subshell's parentheses. */
  lemma {:induction false} OpenGroup(g: Scanner, k: string, s: State) returns (t: State)
    requires Follows(g)
    requires Open(s)
    ensures Open(t) && t.found == s.found && t.strange == s.strange && t.prev == Some('(')
    ensures t.stack == if Top(s).kind == Base then s.stack else WithTop(s, Top(s).(parens := Top(s).parens + 1)).stack
    ensures g.scan("(" + k, s) == g.scan(k, t)
  {
    t := Read(if Top(s).kind == Base then s else WithTop(s, Top(s).(parens := Top(s).parens + 1)), '(', true);
    assert ("(" + k)[1..] == k;
    ScanStep(g, "(" + k, s, 1, t);
  }

  lemma {:induction false} CloseGroup(g: Scanner, k: string, s: State, n: State) returns (t: State)
    requires Follows(g)
    requires Open(s) && Rooted(n)
    requires n.stack == if Top(s).kind == Base then s.stack else WithTop(s, Top(s).(parens := Top(s).parens + 1)).stack
    ensures Onward(n.(stack := s.stack), {}, t) && g.scan(")" + k, n) == g.scan(k, t)
  {
    t := Read(if Top(s).kind == Base then n else WithTop(n, Top(n).(parens := Top(n).parens - 1)), ')', Top(s).kind == Base);
    assert (")" + k)[1..] == k;
    ScanStep(g, ")" + k, n, 1, t);
    assert t.stack == s.stack;
  }

  // ------------------------------------------------------------------ operators and redirections

  lemma {:induction false} ScanOperator(g: Scanner, op: Op, k: string, s: State) returns (t: State)
    requires Follows(g)
    requires Open(s) && op != SubIn && op != SubOut
    requires op == Semi || op == Newline || (s.prev != Some('<') && s.prev != Some('>') && k != "" && (k[0] == ' ' || k[0] == '\t'))
    ensures Onward(s, {op}, t) && t.prev != Some('<') && t.prev != Some('>')
    ensures g.scan(OpText(op) + k, s) == g.scan(k, t)
  {
    var u := OpText(op) + k;
    var n := |OpText(op)|;
    t := Read(Report(s, op), u[0], true);
    assert u[n..] == k;
    assert |u| > 1 && n == 1 ==> u[1] == k[0];
    ScanStep(g, u, s, n, t);
  }

  predicate AllPlain(d: string) { d == "" || (PlainChar(d[0]) && AllPlain(d[1..])) }

  lemma {:induction false} ScanChars(g: Scanner, d: string, k: string, s: State) returns (t: State)
    requires Follows(g)
    requires Open(s) && AllPlain(d)
    ensures Onward(s, {}, t) && g.scan(d + k, s) == g.scan(k, t)
    decreases |d|
  {
    if d == "" {
      assert d + k == k;
      t := s;
    } else {
      var m := ScanPlain(g, d[0], d[1..] + k, s);
      t := ScanChars(g, d[1..], k, m);
      assert d + k == [d[0]] + (d[1..] + k);
      assert s.found + {} + {} == s.found + {};
    }
  }

  lemma {:induction false} DigitsPlain(d: string)
    requires Digits(d)
    ensures AllPlain(d)
  {
    if d != "" { DigitsPlain(d[1..]); }
  }

  /** The `&` of a duplicated descriptor is no operator. */
  lemma {:induction false} ScanDup(g: Scanner, dir: char, k: string, s: State) returns (t: State)
    requires Follows(g)
    requires Open(s) && (dir == '<' || dir == '>') && k != "" && PlainChar(k[0])
    ensures Onward(s, {}, t) && g.scan([dir, '&'] + k, s) == g.scan(k, t)
  {
    var u := [dir, '&'] + k;
    var m := Read(s, dir, true);
    assert u[1..] == "&" + k && ("&" + k)[1..] == k;
    ScanStep(g, u, s, 1, m);
    t := Read(m, '&', false);
    ScanStep(g, "&" + k, m, 1, t);
  }

  lemma {:induction false} ScanDuplicate(g: Scanner, fd: string, dir: char, target: string, k: string, s: State) returns (t: State)
    requires Follows(g)
    requires Open(s) && (dir == '<' || dir == '>') && AllPlain(fd) && AllPlain(target) && target != ""
    ensures Onward(s, {}, t) && g.scan(fd + ([dir, '&'] + (target + k)), s) == g.scan(k, t)
  {
    var more := target + k;
    var m := ScanChars(g, fd, [dir, '&'] + more, s);
    assert more[0] == target[0];
    var n := ScanDup(g, dir, more, m);
    t := ScanChars(g, target, k, n);
    assert s.found + {} + {} + {} == s.found + {};
  }

  /** What stands right behind `$(` is no parenthesis. */
  lemma {:induction false} CommandStart(cmd: Command, k: string)
    requires ValidCommand(cmd) && Opened(cmd)
    ensures var u := CommandText(cmd, ")" + k); u != "" && u[0] != '('
  {
    var u := CommandText(cmd, ")" + k);
    if cmd.lead != "" {
      assert u[0] == cmd.lead[0];
    } else {
      assert u == ItemsText(cmd.items, ")" + k);
      if cmd.items != [] { ItemStart(cmd.items[0], ItemsText(cmd.items[1..], ")" + k)); }
    }
  }

  lemma {:induction false} PieceStart(p: Piece, k: string)
    requires ValidPiece(p)
    ensures PieceText(p, k) != "" && PieceText(p, k)[0] != '('
  {
  }

  lemma {:induction false} ItemStart(x: Item, k: string)
    requires ValidItem(x) && !x.Group?
    ensures ItemText(x, k) != "" && ItemText(x, k)[0] != '('
  {
    match x
    case Word(pieces, after) => PieceStart(pieces[0], PiecesText(pieces[1..], after + k));
    case Duplicate(fd, dir, target, after) =>
      if fd == "" { assert ItemText(x, k)[0] == dir; } else { assert ItemText(x, k)[0] == fd[0]; }
    case Operator(op, after) => assert ItemText(x, k)[0] == OpText(op)[0];
  }

  // ------------------------------------------------------------------ the scan of a printed command

  lemma {:induction false} OnwardTwice(s: State, a: set<Op>, m: State, b: set<Op>, t: State)
    requires Onward(s, a, m) && Onward(m, b, t)
    ensures Onward(s, a + b, t)
  {
    assert s.found + a + b == s.found + (a + b);
  }

  /** Anything found in a context that is then left was found on the way. */
  lemma {:induction false} OnwardInside(s: State, start: set<Op>, i: State, ops: set<Op>, n: State, t: State)
    requires Rooted(s) && i.found == s.found + start && i.strange == s.strange && Onward(i, ops, n) && Onward(n.(stack := s.stack), {}, t)
    ensures Onward(s, start + ops, t)
  {
    assert s.found + start + ops + {} == s.found + (start + ops);
  }

  /** From double quotes or from a command, a substitution is scanned through and left. */
  lemma {:induction false} ScanSubst(g: Scanner, cmd: Command, k: string, s: State) returns (t: State)
    requires Follows(g)
    requires (Open(s) || InQuotes(s)) && ValidCommand(cmd) && Opened(cmd)
    ensures Onward(s, ItemsOps(cmd.items), t) && g.scan("$(" + CommandText(cmd, ")" + k), s) == g.scan(k, t)
    decreases cmd, 4
  {
    CommandStart(cmd, k);
    var i := OpenSubst(g, CommandText(cmd, ")" + k), s);
    var n := ScanCommand(g, cmd, ")" + k, i);
    t := CloseContext(g, k, s, n);
    OnwardInside(s, {}, i, ItemsOps(cmd.items), n, t);
    assert {} + ItemsOps(cmd.items) == ItemsOps(cmd.items);
  }

  lemma {:induction false} ScanProcess(g: Scanner, dir: char, cmd: Command, k: string, s: State) returns (t: State)
    requires Follows(g)
    requires Open(s) && ValidCommand(cmd) && (dir == '<' || dir == '>')
    ensures Onward(s, PieceOps(Process(dir, cmd)), t) && g.scan([dir, '('] + CommandText(cmd, ")" + k), s) == g.scan(k, t)
    decreases cmd, 4
  {
    var i := OpenProcess(g, dir, CommandText(cmd, ")" + k), s);
    var n := ScanCommand(g, cmd, ")" + k, i);
    t := CloseContext(g, k, s, n);
    OnwardInside(s, {if dir == '<' then SubIn else SubOut}, i, ItemsOps(cmd.items), n, t);
  }

  lemma {:induction false} ScanGroup(g: Scanner, cmd: Command, k: string, s: State) returns (t: State)
    requires Follows(g)
    requires Open(s) && ValidCommand(cmd)
    ensures Onward(s, ItemsOps(cmd.items), t) && g.scan("(" + CommandText(cmd, ")" + k), s) == g.scan(k, t)
    decreases cmd, 4
  {
    var i := OpenGroup(g, CommandText(cmd, ")" + k), s);
    var n := ScanCommand(g, cmd, ")" + k, i);
    t := CloseGroup(g, k, s, n);
    OnwardInside(s, {}, i, ItemsOps(cmd.items), n, t);
    assert {} + ItemsOps(cmd.items) == ItemsOps(cmd.items);
  }

  lemma {:induction false} ScanPart(g: Scanner, p: Part, k: string, s: State) returns (t: State)
    requires Follows(g)
    requires InQuotes(s) && ValidPart(p)
    ensures Onward(s, PartOps(p), t) && g.scan(PartText(p, k), s) == g.scan(k, t)
    decreases p, 3
  {
    match p
    case Char(c) => t := ScanInDouble(g, c, k, s);
    case QuotedParam(c) => t := ScanParam(g, c, k, s);
    case QuotedEscape(c) => t := ScanEscape(g, c, k, s);
    case QuotedSubst(cmd) => t := ScanSubst(g, cmd, k, s);
  }

  lemma {:induction false} ScanParts(g: Scanner, parts: seq<Part>, k: string, s: State) returns (t: State)
    requires Follows(g)
    requires InQuotes(s) && ValidParts(parts)
    ensures Onward(s, PartsOps(parts), t) && g.scan(PartsText(parts, k), s) == g.scan(k, t)
    decreases parts, 0
  {
    if parts == [] {
      t := s;
    } else {
      var m := ScanPart(g, parts[0], PartsText(parts[1..], k), s);
      t := ScanParts(g, parts[1..], k, m);
      OnwardTwice(s, PartOps(parts[0]), m, PartsOps(parts[1..]), t);
    }
  }

  lemma {:induction false} ScanQuoted(g: Scanner, parts: seq<Part>, k: string, s: State) returns (t: State)
    requires Follows(g)
    requires Open(s) && ValidParts(parts)
    ensures Onward(s, PartsOps(parts), t) && g.scan("\"" + PartsText(parts, "\"" + k), s) == g.scan(k, t)
    decreases parts, 1
  {
    var i := OpenQuotes(g, PartsText(parts, "\"" + k), s);
    var n := ScanParts(g, parts, "\"" + k, i);
    t := CloseQuotes(g, k, s, n);
    OnwardInside(s, {}, i, PartsOps(parts), n, t);
    assert {} + PartsOps(parts) == PartsOps(parts);
  }

  lemma {:induction false} ScanPiece(g: Scanner, p: Piece, k: string, s: State) returns (t: State)
    requires Follows(g)
    requires Open(s) && ValidPiece(p)
    ensures Onward(s, PieceOps(p), t) && g.scan(PieceText(p, k), s) == g.scan(k, t)
    decreases p, 3
  {
    match p
    case Plain(c) => t := ScanPlain(g, c, k, s);
    case Param(c) => t := ScanParam(g, c, k, s);
    case Escape(c) => t := ScanEscape(g, c, k, s);
    case Literal(text) => t := ScanLiteral(g, text, k, s);
    case Quoted(parts) => t := ScanQuoted(g, parts, k, s);
    case Subst(cmd) => t := ScanSubst(g, cmd, k, s);
    case Process(dir, cmd) => t := ScanProcess(g, dir, cmd, k, s);
  }

  lemma {:induction false} ScanPieces(g: Scanner, pieces: seq<Piece>, k: string, s: State) returns (t: State)
    requires Follows(g)
    requires Open(s) && ValidPieces(pieces)
    ensures Onward(s, PiecesOps(pieces), t) && g.scan(PiecesText(pieces, k), s) == g.scan(k, t)
    decreases pieces, 0
  {
    if pieces == [] {
      t := s;
    } else {
      var m := ScanPiece(g, pieces[0], PiecesText(pieces[1..], k), s);
      t := ScanPieces(g, pieces[1..], k, m);
      OnwardTwice(s, PieceOps(pieces[0]), m, PiecesOps(pieces[1..]), t);
    }
  }

  /** No redirection stands right before. */
  predicate Calm(s: State) { s.prev != Some('<') && s.prev != Some('>') }

  /** One item and the blanks behind it. */
  lemma {:induction false} ScanItem(g: Scanner, x: Item, k: string, s: State) returns (t: State)
    requires Follows(g)
    requires Open(s) && ValidItem(x) && (x.Operator? && !Touching(x) ==> Calm(s))
    ensures Onward(s, ItemOps(x), t) && g.scan(ItemText(x, k), s) == g.scan(k, t)
    ensures x.after != "" || Touching(x) ==> Calm(t)
    decreases x, 3
  {
    var m;
    match x {
      case Word(pieces, after) => m := ScanPieces(g, pieces, after + k, s);
      case Group(cmd, after) => m := ScanGroup(g, cmd, after + k, s);
      case Duplicate(fd, dir, target, after) =>
        DigitsPlain(fd);
        TargetPlain(target);
        m := ScanDuplicate(g, fd, dir, target, after + k, s);
      case Operator(op, after) => m := ScanOperator(g, op, after + k, s);
    }
    t := ScanBlanks(g, x.after, k, m);
    OnwardTwice(s, ItemOps(x), m, {}, t);
    assert ItemOps(x) + {} == ItemOps(x);
  }

  lemma {:induction false} TargetPlain(target: string)
    requires Digits(target) || target == "-"
    ensures AllPlain(target)
  {
    if Digits(target) { DigitsPlain(target); } else { assert target[1..] == ""; }
  }

  lemma {:induction false} ScanItems(g: Scanner, items: seq<Item>, k: string, s: State) returns (t: State)
    requires Follows(g)
    requires Open(s) && ValidItems(items) && (items != [] ==> Calm(s) || Touching(items[0]) || !items[0].Operator?)
    ensures Onward(s, ItemsOps(items), t) && g.scan(ItemsText(items, k), s) == g.scan(k, t)
    decreases items, 0
  {
    if items == [] {
      t := s;
    } else {
      var m := ScanItem(g, items[0], ItemsText(items[1..], k), s);
      t := ScanItems(g, items[1..], k, m);
      OnwardTwice(s, ItemOps(items[0]), m, ItemsOps(items[1..]), t);
    }
  }

  lemma {:induction false} ScanCommand(g: Scanner, cmd: Command, k: string, s: State) returns (t: State)
    requires Follows(g)
    requires Open(s) && ValidCommand(cmd) && Calm(s)
    ensures Onward(s, ItemsOps(cmd.items), t) && g.scan(CommandText(cmd, k), s) == g.scan(k, t)
    decreases cmd, 2
  {
    var m := ScanBlanks(g, cmd.lead, ItemsText(cmd.items, k), s);
    t := ScanItems(g, cmd.items, k, m);
    OnwardTwice(s, {}, m, ItemsOps(cmd.items), t);
    assert {} + ItemsOps(cmd.items) == ItemsOps(cmd.items);
  }

  /**
   The scan of a printed command line reports exactly the operators in command position, in their canonical
   order, and nothing it does not model.
   */
  lemma {:induction false} OperatorsExact(arith: string -> bool, cmd: Command)
    requires ValidCommand(cmd)
    ensures Operators(arith, CommandText(cmd, "")) == Verdict(Ordered(ItemsOps(cmd.items), CANONICAL), {})
  {
    var g := ScannerOf(arith);
    ScannerFollows(arith);
    var t := ScanCommand(g, cmd, "", START);
    assert Scan(arith, CommandText(cmd, ""), START) == g.scan("", t) == t;
    assert {} + ItemsOps(cmd.items) == ItemsOps(cmd.items);
  }

  /** ... and each of them is an operator item somewhere in the tree. */
  lemma {:induction false} ReportedOnce(arith: string -> bool, cmd: Command, op: Op)
    requires ValidCommand(cmd)
    ensures op in Operators(arith, CommandText(cmd, "")).operators <==> op in ItemsOps(cmd.items)
  {
    OperatorsExact(arith, cmd);
    OrderedExact(ItemsOps(cmd.items), CANONICAL, op);
    assert op in CANONICAL by {
      match op
      case AndAnd => assert CANONICAL[0] == op;
      case OrOr => assert CANONICAL[1] == op;
      case Semi => assert CANONICAL[2] == op;
      case Pipe => assert CANONICAL[3] == op;
      case Amp => assert CANONICAL[4] == op;
      case SubIn => assert CANONICAL[5] == op;
      case SubOut => assert CANONICAL[6] == op;
      case Newline => assert CANONICAL[7] == op;
    }
  }
}
