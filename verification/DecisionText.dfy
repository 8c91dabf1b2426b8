/**
 The question a Builder ends its reply with (mission-control/scripts/decisions.ts, `parseDecision`):
 what is read from the last line, that it always fits the log, and that the printed form reads back.
 */
module DecisionText {
  import opened Options
  import opened CodeUnits
  import opened DecisionLog

  const NEWLINE: nat := 10
  const BAR: nat := 124
  const ELLIPSIS: nat := 0x2026

  datatype Question = Question(question: Units, options: seq<Units>)

  /** At most `n` units: the rest gives way to an ellipsis. */
  function ClipTo(u: Units, n: nat): (r: Units)
    requires n > 0
    ensures |r| <= n && (u != [] ==> r != []) && (|u| <= n ==> r == u)
  {
    if |u| > n then u[..n - 1] + [ELLIPSIS] else u
  }

  /** What `.` in a pattern matches: anything but a line terminator. */
  predicate IsDot(u: nat) { u != 10 && u != 13 && u != 0x2028 && u != 0x2029 }

  predicate AllDot(u: Units) { forall i :: 0 <= i < |u| ==> IsDot(u[i]) }

  /** The parts trimmed, the blank ones left out. */
  function Kept(parts: seq<Units>): seq<Units> {
    if parts == [] then [] else OntoKept(Trim(parts[0]), Kept(parts[1..]))
  }

  function OntoKept(u: Units, kept: seq<Units>): seq<Units> { if u == [] then kept else [u] + kept }

  /** Each part cut to the longest an option may be. */
  function ClipAll(parts: seq<Units>): (r: seq<Units>)
    ensures |r| == |parts|
  {
    if parts == [] then [] else [ClipTo(parts[0], MAX_OPTION_CHARS)] + ClipAll(parts[1..])
  }

  /** [...new Set(xs)]: the first of each, in order. */
  function Dedupe(xs: seq<Units>): seq<Units> {
    if xs == [] then []
    else
      var before, x := Dedupe(xs[..|xs| - 1]), xs[|xs| - 1];
      if x in before then before else before + [x]
  }

  /** The last line that is not blank, trimmed; [] when there is none. */
  function LastLine(text: Units): Units {
    var lines := Kept(Split(text, NEWLINE));
    if lines == [] then [] else lines[|lines| - 1]
  }

  /** `\\s*\\|\\|\\s*(.+)$` at the front of `u`: the options' text. */
  function AfterBars(u: Units): Option<Units> {
    var t := TrimLeft(u);
    if |t| < 2 || t[0] != BAR || t[1] != BAR then None
    else
      var o := TrimLeft(t[2..]);
      if o == [] || !AllDot(o) then None else Some(o)
  }

  /** `(.+?)` then the bars: the shortest first part of at least `k` units. */
  function Parts(u: Units, k: nat): Option<(Units, Units)>
    requires 1 <= k
    decreases |u| - k
  {
    if k > |u| || !AllDot(u[..k]) then None
    else
      var o := AfterBars(u[k..]);
      if o.Some? then Some((u[..k], o.value)) else Parts(u, k + 1)
  }

  /** The pattern after `DECISION:`, the leading white space taken greedily and given back unit by unit. */
  function MatchLine(u: Units, gap: nat): Option<(Units, Units)>
    requires gap <= |u|
  {
    var m := Parts(u[gap..], 1);
    if m.Some? then m else if gap == 0 then None else MatchLine(u, gap - 1)
  }

  const PREFIX := "DECISION:"

  /** The options between the bars: trimmed, clipped, the blank and the repeated left out. */
  function OptionsOf(u: Units): seq<Units> { Dedupe(ClipAll(Kept(Split(u, BAR)))) }

  function ParseDecision(text: Units): Option<Question> { ParseLine(LastLine(text)) }

  /** parseDecision, once the line is found. */
  function ParseLine(last: Units): Option<Question> {
    if !(Ascii(PREFIX) <= last) then None
    else
      var rest := last[|PREFIX|..];
      var m := MatchLine(rest, |rest| - |TrimLeft(rest)|);
      if m.None? then None
      else
        var question := ClipTo(Trim(m.value.0), MAX_QUESTION_CHARS);
        var options := OptionsOf(m.value.1);
        if question == [] || |options| < MIN_OPTIONS || |options| > MAX_OPTIONS then None
        else Some(Question(question, options))
  }

  lemma {:induction false} DedupeSound(xs: seq<Units>)
    ensures Distinct(Dedupe(xs)) && forall x :: x in Dedupe(xs) ==> x in xs
  {
    if xs != [] {
      DedupeSound(xs[..|xs| - 1]);
      assert xs == xs[..|xs| - 1] + [xs[|xs| - 1]];
    }
  }

  predicate Fitting(xs: seq<Units>) { forall i :: 0 <= i < |xs| ==> 0 < |xs[i]| <= MAX_OPTION_CHARS }

  lemma {:induction false} KeptNotBlank(parts: seq<Units>)
    ensures forall i :: 0 <= i < |Kept(parts)| ==> Kept(parts)[i] != []
  {
    if parts != [] { KeptNotBlank(parts[1..]); }
  }

  lemma {:induction false} ClipFits(parts: seq<Units>)
    requires forall i :: 0 <= i < |parts| ==> parts[i] != []
    ensures Fitting(ClipAll(parts))
  {
    if parts != [] { ClipFits(parts[1..]); }
  }

  lemma {:induction false} OptionsFit(u: Units)
    ensures Fitting(OptionsOf(u)) && Distinct(OptionsOf(u))
  {
    var parts := Kept(Split(u, BAR));
    KeptNotBlank(Split(u, BAR));
    ClipFits(parts);
    DedupeSound(ClipAll(parts));
    forall i | 0 <= i < |OptionsOf(u)| ensures 0 < |OptionsOf(u)[i]| <= MAX_OPTION_CHARS { assert OptionsOf(u)[i] in ClipAll(parts); }
  }

  /** Every question that is asked is one the log's readers accept. */
  lemma {:induction false} AskedIsValid(text: Units, id: string, mission: string, at: int)
    requires ParseDecision(text).Some? && IsUuid(id) && IsUuid(mission)
    ensures var q := ParseDecision(text).value;
      ValidLine(Needed(id, mission, q.question, q.options, at))
  {
    LineFits(LastLine(text));
  }

  lemma {:induction false} LineFits(last: Units)
    requires ParseLine(last).Some?
    ensures var q := ParseLine(last).value; 0 < |q.question| <= MAX_QUESTION_CHARS && ValidOptions(q.options)
  {
    var rest := last[|PREFIX|..];
    OptionsFit(MatchLine(rest, |rest| - |TrimLeft(rest)|).value.1);
  }

  // ------------------------------------------------------------------ the printed form reads back

  /** A question in the form the Builder is told to write. */
  predicate Writable(q: Question) {
    && 0 < |q.question| <= MAX_QUESTION_CHARS && WritablePart(q.question)
    && ValidOptions(q.options) && Writables(q.options)
  }

  predicate WritablePart(u: Units) { u != [] && Trimmed(u) && AllDot(u) && BAR !in u }

  function Pad(i: nat, n: nat, u: Units): Units {
    (if i == 0 then [] else [32]) + u + (if i + 1 < n then [32] else [])
  }

  /** The options from `from` on, with a space on either side of each bar. */
  function Padded(options: seq<Units>, from: nat): (r: seq<Units>)
    requires from <= |options|
    ensures |r| == |options| - from
    decreases |options| - from
  {
    if from == |options| then [] else [Pad(from, |options|, options[from])] + Padded(options, from + 1)
  }

  /** `DECISION: question || option | option`. */
  function Printed(q: Question): Units { Ascii(PREFIX) + ([32] + PrintedRest(q)) }

  function PrintedRest(q: Question): Units { q.question + ([32, BAR, BAR, 32] + Glue(Padded(q.options, 0), BAR)) }

  lemma {:induction false} DedupeDistinct(xs: seq<Units>)
    requires Distinct(xs)
    ensures Dedupe(xs) == xs
  {
    if xs != [] {
      DedupeDistinct(xs[..|xs| - 1]);
      assert xs == xs[..|xs| - 1] + [xs[|xs| - 1]];
    }
  }

  lemma {:induction false} TrimPad(i: nat, n: nat, u: Units)
    requires u != [] && Trimmed(u)
    ensures Trim(Pad(i, n, u)) == u
  {
    TrimSurrounded(if i == 0 then [] else [32], u, if i + 1 < n then [32] else []);
  }

  predicate Writables(options: seq<Units>) { forall i :: 0 <= i < |options| ==> WritablePart(options[i]) }

  lemma {:induction false} PadPlain(i: nat, n: nat, u: Units)
    requires WritablePart(u)
    ensures BAR !in Pad(i, n, u) && AllDot(Pad(i, n, u)) && Pad(i, n, u) != []
    ensures i == 0 ==> !IsSpace(Pad(i, n, u)[0])
    ensures i + 1 == n ==> !IsSpace(Pad(i, n, u)[|Pad(i, n, u)| - 1])
  {
  }

  lemma {:induction false} PaddedAt(options: seq<Units>, from: nat, i: nat)
    requires from + i < |options|
    ensures Padded(options, from)[i] == Pad(from + i, |options|, options[from + i])
    decreases i
  {
    if i > 0 { PaddedAt(options, from + 1, i - 1); }
  }

  predicate Plain(parts: seq<Units>) { forall i :: 0 <= i < |parts| ==> BAR !in parts[i] && AllDot(parts[i]) && parts[i] != [] }

  lemma {:induction false} PaddedPlain(options: seq<Units>)
    requires Writables(options)
    ensures Plain(Padded(options, 0))
  {
    forall i | 0 <= i < |options| ensures BAR !in Padded(options, 0)[i] && AllDot(Padded(options, 0)[i]) && Padded(options, 0)[i] != [] {
      PaddedAt(options, 0, i);
      PadPlain(i, |options|, options[i]);
    }
  }

  lemma {:induction false} PaddedKept(options: seq<Units>, from: nat)
    requires Writables(options) && from <= |options|
    ensures Kept(Padded(options, from)) == options[from..]
    decreases |options| - from
  {
    if from < |options| {
      PaddedKept(options, from + 1);
      TrimPad(from, |options|, options[from]);
      assert Padded(options, from)[1..] == Padded(options, from + 1);
      assert options[from..] == [options[from]] + options[from + 1..];
    }
  }

  lemma {:induction false} ClipShort(options: seq<Units>)
    requires Fitting(options)
    ensures ClipAll(options) == options
  {
    if options != [] {
      ClipShort(options[1..]);
      assert options == [options[0]] + options[1..];
    }
  }

  lemma {:induction false} OptionsRead(options: seq<Units>)
    requires ValidOptions(options) && Writables(options)
    ensures OptionsOf(Glue(Padded(options, 0), BAR)) == options
  {
    PaddedPlain(options);
    PaddedKept(options, 0);
    SplitJoin(Padded(options, 0), BAR);
    assert options[0..] == options;
    ClipShort(options);
    DedupeDistinct(options);
  }

  lemma {:induction false} GlueText(parts: seq<Units>)
    requires parts != [] && Plain(parts)
    ensures var g, last := Glue(parts, BAR), parts[|parts| - 1];
      AllDot(g) && g != [] && g[0] == parts[0][0] && g[|g| - 1] == last[|last| - 1]
  {
    if |parts| > 1 { GlueText(parts[1..]); }
  }

  /** The options' text: plain, and without white space at either end. */
  lemma {:induction false} OptionsText(q: Question)
    requires Writable(q)
    ensures var g := Glue(Padded(q.options, 0), BAR); g != [] && AllDot(g) && Trimmed(g)
  {
    var n := |q.options|;
    PaddedPlain(q.options);
    GlueText(Padded(q.options, 0));
    PaddedAt(q.options, 0, 0);
    PaddedAt(q.options, 0, n - 1);
    PadPlain(0, n, q.options[0]);
    PadPlain(n - 1, n, q.options[n - 1]);
  }

  /** White space skipped from inside the question ends inside the question. */
  lemma {:induction false} TrimWithin(a: Units, b: Units)
    requires a != [] && !IsSpace(a[|a| - 1]) && BAR !in a
    ensures TrimLeft(a + b) != [] && TrimLeft(a + b)[0] != BAR
  {
    assert (a + b)[0] == a[0];
    if IsSpace(a[0]) {
      assert (a + b)[1..] == a[1..] + b;
      TrimWithin(a[1..], b);
    }
  }

  lemma {:induction false} BarsFound(g: Units)
    requires g != [] && !IsSpace(g[0]) && AllDot(g)
    ensures AfterBars([32, BAR, BAR, 32] + g) == Some(g)
  {
    var u := [32, BAR, BAR, 32] + g;
    assert u == [32] + ([BAR, BAR, 32] + g);
    TrimLeftStops([32], [BAR, BAR, 32] + g);
    assert ([BAR, BAR, 32] + g)[2..] == [32] + g;
    TrimLeftStops([32], g);
  }

  /** The shortest first part is the whole question. */
  lemma {:induction false} PartsFound(q: Units, b: Units, g: Units, k: nat)
    requires WritablePart(q) && AfterBars(b) == Some(g) && 1 <= k <= |q|
    ensures Parts(q + b, k) == Some((q, g))
    decreases |q| - k
  {
    var u := q + b;
    assert u[..k] == q[..k];
    if k < |q| {
      assert u[k..] == q[k..] + b;
      TrimWithin(q[k..], b);
      PartsFound(q, b, g, k + 1);
    } else {
      assert u[k..] == b;
      assert q[..k] == q;
    }
  }

  lemma {:induction false} RestReads(q: Question)
    requires Writable(q)
    ensures var rest := [32] + PrintedRest(q);
      |rest| - |TrimLeft(rest)| == 1 && MatchLine(rest, 1) == Some((q.question, Glue(Padded(q.options, 0), BAR)))
  {
    var g := Glue(Padded(q.options, 0), BAR);
    OptionsText(q);
    BarsFound(g);
    PartsFound(q.question, [32, BAR, BAR, 32] + g, g, 1);
    TrimLeftStops([32], PrintedRest(q));
    assert ([32] + PrintedRest(q))[1..] == PrintedRest(q);
  }

  lemma {:induction false} OntoKeptJoins(u: Units, a: seq<Units>, b: seq<Units>)
    ensures OntoKept(u, a + b) == OntoKept(u, a) + b
  {}

  lemma {:induction false} KeptJoins(a: seq<Units>, b: seq<Units>)
    ensures Kept(a + b) == Kept(a) + Kept(b)
  {
    if a == [] {
      assert a + b == b;
    } else {
      KeptJoins(a[1..], b);
      assert (a + b)[1..] == a[1..] + b;
      assert (a + b)[0] == a[0];
      OntoKeptJoins(Trim(a[0]), Kept(a[1..]), Kept(b));
    }
  }

  lemma {:induction false} KeptSpace(parts: seq<Units>)
    requires forall i :: 0 <= i < |parts| ==> AllSpace(parts[i])
    ensures Kept(parts) == []
  {
    if parts != [] {
      TrimSpace(parts[0]);
      KeptSpace(parts[1..]);
    }
  }

  /** One line and blank lines after it. */
  lemma {:induction false} OneLine(line: Units, after: Units)
    requires line != [] && Trimmed(line) && NEWLINE !in line && AllSpace(after)
    ensures Kept(Split(line + after, NEWLINE)) == [line]
  {
    var tail := Split(after, NEWLINE);
    SplitLead(line, after, NEWLINE);
    SplitSpace(after, NEWLINE);
    TrimSurrounded([], line, tail[0]);
    assert [] + line + tail[0] == line + tail[0];
    KeptSpace(tail[1..]);
    assert Lead(line, tail)[1..] == tail[1..];
  }

  /** The last line that is not blank is found behind any reply and in front of any blank lines. */
  lemma {:induction false} LastLineFound(before: Units, line: Units, after: Units)
    requires line != [] && Trimmed(line) && NEWLINE !in line && AllSpace(after)
    ensures LastLine(before + [NEWLINE] + (line + after)) == line
  {
    SplitApart(before, NEWLINE, line + after);
    KeptJoins(Split(before, NEWLINE), Split(line + after, NEWLINE));
    OneLine(line, after);
  }

  /** A question printed as the Builder is told to print it, after any reply, is read back as it is. */
  lemma {:induction false} PrintedReads(before: Units, q: Question, after: Units)
    requires Writable(q) && AllSpace(after)
    ensures ParseDecision(before + [NEWLINE] + (Printed(q) + after)) == Some(q)
  {
    PrintedTrimmed(q);
    LastLineFound(before, Printed(q), after);
    LineReads(q);
  }

  lemma {:induction false} QuestionReads(q: Units)
    requires WritablePart(q) && |q| <= MAX_QUESTION_CHARS
    ensures ClipTo(Trim(q), MAX_QUESTION_CHARS) == q
  {
    TrimSurrounded([], q, []);
    assert [] + q + [] == q;
  }

  lemma {:induction false} LineReads(q: Question)
    requires Writable(q)
    ensures ParseLine(Printed(q)) == Some(q)
  {
    RestReads(q);
    assert Printed(q)[|PREFIX|..] == [32] + PrintedRest(q);
    OptionsRead(q.options);
    QuestionReads(q.question);
  }

  lemma {:induction false} PrintedTrimmed(q: Question)
    requires Writable(q)
    ensures Printed(q) != [] && Trimmed(Printed(q)) && NEWLINE !in Printed(q)
  {
    var g := Glue(Padded(q.options, 0), BAR);
    OptionsText(q);
    var p := Printed(q);
    assert p[0] == Ascii(PREFIX)[0];
    assert p[|p| - 1] == g[|g| - 1];
    assert AllDot(Ascii(PREFIX));
    assert AllDot(p);
  }
}
