/**
 The scan for shell operators (scripts/lib/check-suite.js, `shellOperators`): one pass over a command
 line with a stack of command contexts, each with its own quote state.
 */
module ShellScanner {
  import opened Options

  datatype Op = AndAnd | OrOr | Semi | Pipe | Amp | SubIn | SubOut | Newline

  /** SHELL_OPERATORS: the order in which the operators found are reported. */
  const CANONICAL: seq<Op> := [AndAnd, OrOr, Semi, Pipe, Amp, SubIn, SubOut, Newline]

  datatype Kind = Base | Paren | Tick | Arith

  datatype Quote = Bare | Single | Double

  /** One command context. `parens` counts what is still open in it. */
  datatype Frame = Frame(kind: Kind, quote: Quote, parens: nat)

  /**
   Where the scan is: the contexts, innermost last; whether a word starts here; the character before, when
   it was not an escaped one; and what was found.
   */
  datatype State = State(stack: seq<Frame>, word: bool, prev: Option<char>, found: set<Op>, strange: set<string>)

  /** On by `n` characters, or at an end. */
  datatype Move = Go(state: State, n: nat) | Stop(state: State)

  const START := State([Frame(Base, Bare, 0)], true, None, {}, {})

  predicate IsSpace(c: char) {
    '\t' <= c <= '\r' || c == ' ' || c == 160 as char || c == 0x1680 as char || 0x2000 as char <= c <= 0x200A as char
    || c == 0x2028 as char || c == 0x2029 as char || c == 0x202F as char || c == 0x205F as char || c == 0x3000 as char || c == 0xFEFF as char
  }

  predicate IsNameChar(c: char) { 'A' <= c <= 'Z' || 'a' <= c <= 'z' || '0' <= c <= '9' || c == '_' }

  const SPECIAL_PARAMETERS := "@*?-$!#"

  function Second(u: string): Option<char> { if |u| > 1 then Some(u[1]) else None }

  function Third(u: string): Option<char> { if |u| > 2 then Some(u[2]) else None }

  /** isModelledDollar, for the `$` in front of `u`. */
  predicate IsModelledDollar(u: string, inDouble: bool) {
    var next := Second(u);
    next.None? || IsSpace(next.value) || next.value == '{' || IsNameChar(next.value) || next.value in SPECIAL_PARAMETERS
    || (inDouble && (next.value == '\'' || next.value == '"'))
  }

  function Top(s: State): Frame
    requires s.stack != []
  {
    s.stack[|s.stack| - 1]
  }

  function WithTop(s: State, f: Frame): State
    requires s.stack != []
  {
    s.(stack := s.stack[..|s.stack| - 1] + [f])
  }

  function Push(s: State, f: Frame): State { s.(stack := s.stack + [f]) }

  function Pop(s: State): State
    requires s.stack != []
  {
    s.(stack := s.stack[..|s.stack| - 1])
  }

  /** The last character read, and whether a word starts after it. */
  function Read(s: State, c: char, word: bool): State { s.(prev := Some(c), word := word) }

  function Report(s: State, op: Op): State { s.(found := s.found + {op}) }

  /** Past an ANSI-C string's closing quote; `u` starts behind the opening one. */
  function AnsiEnd(u: string): (n: nat)
    ensures n <= |u|
    decreases |u|
  {
    if u == "" then 0
    else if u[0] == '\'' then 1
    else if u[0] == '\\' && |u| > 1 then 2 + AnsiEnd(u[2..])
    else 1 + AnsiEnd(u[1..])
  }

  /** How far a comment runs: up to the line's end, or None when nothing follows. */
  function LineEnd(u: string): (r: Option<nat>)
    ensures r.Some? ==> r.value < |u|
  {
    if u == "" then None
    else if u[0] == '\n' || u[0] == '\r' then Some(0)
    else var n := LineEnd(u[1..]); if n.None? then None else Some(1 + n.value)
  }

  /**
   At a `$` outside single quotes. `arith` says the text from here is an arithmetic expansion, which the code
   decides by a search of its own; it is a parameter, and every result holds whatever it says.
   */
  function StepDollar(arith: string -> bool, u: string, s: State): Move
    requires u != "" && s.stack != []
  {
    var f := Top(s);
    if Second(u) == Some('(') && Third(u) == Some('(') && arith(u) then Go(Read(Push(s, Frame(Arith, Bare, 2)), '(', false), 3)
    else if Second(u) == Some('(') then Go(Read(Push(s, Frame(Paren, Bare, 1)), '(', true), 2)
    else if f.quote != Double && Second(u) == Some('\'') then
      var n := 2 + AnsiEnd(u[2..]);
      Go(Read(s, u[n - 1], false), n)
    else if f.quote != Double && Second(u) == Some('"') then Go(Read(WithTop(s, f.(quote := Double)), '"', false), 2)
    else if !IsModelledDollar(u, f.quote == Double) then Stop(s.(strange := s.strange + {"$" + u[1..2]}))
    else if Second(u) == Some('$') then Go(Read(s, '$', false), 2)
    else Go(Read(s, '$', false), 1)
  }

  /** At an operator character, or anything else, in a command context. */
  function StepCommand(u: string, s: State): Move
    requires u != "" && s.stack != []
  {
    var c, next := u[0], Second(u);
    if c == '#' && s.word then
      var n := LineEnd(u);
      if n.None? then Stop(s) else if n.value == 0 then Go(Read(s, c, false), 1) else Go(Read(s, u[n.value - 1], false), n.value)
    else if (c == '<' || c == '>') && next == Some('(') then
      Go(Read(Push(Report(s, if c == '<' then SubIn else SubOut), Frame(Paren, Bare, 1)), '(', true), 2)
    else if c == '&' && next == Some('&') then Go(Read(Report(s, AndAnd), c, true), 2)
    else if c == '|' && next == Some('|') then Go(Read(Report(s, OrOr), c, true), 2)
    else if c == '|' then Go(Read(Report(s, Pipe), c, true), 1)
    else if c == ';' then Go(Read(Report(s, Semi), c, true), 1)
    else if c == '&' && (s.prev == Some('<') || s.prev == Some('>') || next == Some('>')) then Go(Read(s, c, false), 1)
    else if c == '&' then Go(Read(Report(s, Amp), c, true), 1)
    else if c == '\n' || c == '\r' then Go(Read(Report(s, Newline), c, true), 1)
    else Go(Read(s, c, IsSpace(c) || c in "|&;()<>"), 1)
  }

  /** At anything but `$`, a backtick or a backslash, outside quotes. */
  function StepBare(u: string, s: State): Move
    requires u != "" && s.stack != []
  {
    var f, c := Top(s), u[0];
    if c == '"' then Go(Read(WithTop(s, f.(quote := Double)), c, false), 1)
    else if c == '\'' then Go(Read(WithTop(s, f.(quote := Single)), c, false), 1)
    else if (f.kind == Paren || f.kind == Arith) && c == '(' then Go(Read(WithTop(s, f.(parens := f.parens + 1)), c, true), 1)
    else if (f.kind == Paren || f.kind == Arith) && c == ')' then
      Go(Read(if f.parens <= 1 then Pop(s) else WithTop(s, f.(parens := f.parens - 1)), c, false), 1)
    else if f.kind == Arith then Go(Read(s, c, false), 1)
    else StepCommand(u, s)
  }

  /** One turn of the scan's loop. */
  function Step(arith: string -> bool, u: string, s: State): Move
    requires u != "" && s.stack != []
  {
    var f, c := Top(s), u[0];
    if f.quote == Single then Go(Read(if c == '\'' then WithTop(s, f.(quote := Bare)) else s, c, false), 1)
    else if c == '\\' then Go(s.(prev := None, word := false), if |u| > 1 then 2 else 1)
    else if c == '$' then StepDollar(arith, u, s)
    else if c == '`' then
      if f.kind == Tick then Go(Read(Pop(s), c, false), 1) else Go(Read(Push(s, Frame(Tick, Bare, 0)), c, true), 1)
    else if f.quote == Double then Go(Read(if c == '"' then WithTop(s, f.(quote := Bare)) else s, c, false), 1)
    else StepBare(u, s)
  }

  /** The command line itself is the outermost context and is never left. */
  predicate Rooted(s: State) { s.stack != [] && s.stack[0].kind == Base }

  lemma {:induction false} StepRooted(arith: string -> bool, u: string, s: State)
    requires u != "" && Rooted(s)
    ensures Rooted(Step(arith, u, s).state)
    ensures Step(arith, u, s).Go? ==> 1 <= Step(arith, u, s).n <= |u|
  {
  }

  /** The whole scan. */
  function Scan(arith: string -> bool, u: string, s: State): State
    requires Rooted(s)
    decreases |u|
  {
    if u == "" then s
    else
      StepRooted(arith, u, s);
      var m := Step(arith, u, s);
      if m.Stop? then m.state else Scan(arith, u[m.n..], m.state)
  }

  /** A scan, and what it takes for arithmetic. */
  datatype Scanner = Scanner(arith: string -> bool, scan: (string, State) -> State)

  /** What is used of a scan: a step that goes on leaves the same scan to do, one that stops ends it. */
  ghost predicate Follows(g: Scanner) {
    && (forall s :: g.scan("", s) == s)
    && (forall u, s {:trigger Step(g.arith, u, s)} :: u != "" && Rooted(s) && Step(g.arith, u, s).Stop? ==> g.scan(u, s) == Step(g.arith, u, s).state)
    && forall u, s {:trigger Step(g.arith, u, s)} :: u != "" && Rooted(s) && Step(g.arith, u, s).Go? && Step(g.arith, u, s).n <= |u| ==>
      g.scan(u, s) == g.scan(u[Step(g.arith, u, s).n..], Step(g.arith, u, s).state)
  }

  function ScannerOf(arith: string -> bool): Scanner {
    Scanner(arith, (u, s) => if Rooted(s) then Scan(arith, u, s) else s)
  }

  lemma {:induction false} ScannerFollows(arith: string -> bool)
    ensures Follows(ScannerOf(arith))
  {
    var g := ScannerOf(arith);
    forall u, s | u != "" && Rooted(s) && Step(arith, u, s).Go? && Step(arith, u, s).n <= |u|
      ensures g.scan(u, s) == g.scan(u[Step(arith, u, s).n..], Step(arith, u, s).state)
    {
      StepRooted(arith, u, s);
    }
  }

  /** The operators found, in their canonical order. */
  function Ordered(found: set<Op>, order: seq<Op>): (r: seq<Op>) {
    if order == [] then [] else (if order[0] in found then [order[0]] else []) + Ordered(found, order[1..])
  }

  lemma {:induction false} OrderedExact(found: set<Op>, order: seq<Op>, op: Op)
    ensures op in Ordered(found, order) <==> op in found && op in order
  {
    if order != [] { OrderedExact(found, order[1..], op); }
  }

  /** What a caller is told: the operators, and the first construct the scan does not model. */
  datatype Verdict = Verdict(operators: seq<Op>, strange: set<string>)

  function Operators(arith: string -> bool, src: string): Verdict {
    var t := Scan(arith, src, START);
    Verdict(Ordered(t.found, CANONICAL), t.strange)
  }

  // ------------------------------------------------------------------ the loop

  /** What the loop remembers of the character before `i`: None when it was escaped. */
  function PrevAt(src: string, i: nat, escaped: set<nat>): Option<char>
    requires i <= |src|
  {
    if i == 0 || i - 1 in escaped then None else Some(src[i - 1])
  }

  /**
   shellOperators: the index moves over the text while the stack, the word flag, the escaped indices and
   the two sets change in place; what comes out is what the scan from the start finds.
   */
  method ShellOperators(arith: string -> bool, src: string) returns (v: Verdict)
    ensures v == Operators(arith, src)
  {
    ghost var g := ScannerOf(arith);
    ScannerFollows(arith);
    v := ScanLoop(arith, src, g);
    assert g.scan(src, START) == Scan(arith, src, START);
  }

  method ScanLoop(arith: string -> bool, src: string, ghost g: Scanner) returns (v: Verdict)
    requires Follows(g) && g.arith == arith
    ensures v == Verdict(Ordered(g.scan(src, START).found, CANONICAL), g.scan(src, START).strange)
  {
    var stack, atWordStart := [Frame(Base, Bare, 0)], true;
    var found: set<Op>, strange: set<string>, escaped: set<nat> := {}, {}, {};
    var i := 0;
    assert src[0..] == src;
    while i < |src|
      invariant i <= |src| && Rooted(State(stack, atWordStart, PrevAt(src, i, escaped), found, strange))
      invariant forall j :: j in escaped ==> j < i
      invariant g.scan(src[i..], State(stack, atWordStart, PrevAt(src, i, escaped), found, strange)) == g.scan(src, START)
    {
      var s := State(stack, atWordStart, PrevAt(src, i, escaped), found, strange);
      var m := Step(arith, src[i..], s);
      OneTurn(g, src, i, s, escaped);
      stack, atWordStart, found, strange := m.state.stack, m.state.word, m.state.found, m.state.strange;
      if m.Stop? { return Verdict(Ordered(found, CANONICAL), strange); }
      escaped := Escaped(escaped, i, m);
      i := i + m.n;
    }
    assert src[i..] == "";
    v := Verdict(Ordered(found, CANONICAL), strange);
  }

  /** The indices consumed as an escaped character, one more when this turn was a backslash. */
  function Escaped(escaped: set<nat>, i: nat, m: Move): set<nat> {
    if m.Go? && m.n > 0 && m.state.prev.None? then escaped + {i + m.n - 1} else escaped
  }

  /** One turn leaves the rest of the scan to do, from a state the loop's variables still describe. */
  lemma {:induction false} OneTurn(g: Scanner, src: string, i: nat, s: State, escaped: set<nat>)
    requires Follows(g) && i < |src| && Rooted(s) && forall j :: j in escaped ==> j < i
    ensures var m := Step(g.arith, src[i..], s);
      && Rooted(m.state)
      && (m.Stop? ==> g.scan(src[i..], s) == m.state)
      && (m.Go? ==> 1 <= m.n <= |src| - i && g.scan(src[i..], s) == g.scan(src[i + m.n..], m.state))
      && (m.Go? ==> m.state.prev == PrevAt(src, i + m.n, Escaped(escaped, i, m)) && forall j :: j in Escaped(escaped, i, m) ==> j < i + m.n)
  {
    StepRooted(g.arith, src[i..], s);
    StepPrev(g.arith, src[i..], s);
    var m := Step(g.arith, src[i..], s);
    if m.Go? { assert src[i..][m.n..] == src[i + m.n..]; }
  }

  lemma {:induction false} StepPrev(arith: string -> bool, u: string, s: State)
    requires u != "" && Rooted(s)
    ensures var m := Step(arith, u, s);
      m.Go? ==> 1 <= m.n <= |u| && (m.state.prev.Some? ==> m.state.prev == Some(u[m.n - 1]))
  {
  }
}
