/**
 The CI workflow reader (scripts/lib/check-suite.js, `parseCiSteps`): a line at a time, with the
 indentation of the steps block, the item, its keys and an open block scalar as its state.
 */
module WorkflowLines {
  import opened Options
  import opened CodeUnits

  const SPACE: nat := 32
  const HASH: nat := 35
  const DASH: nat := 45
  const COLON: nat := 58

  /** The keys of a step that are read. */
  datatype StepKey = Name | Run | Uses | If

  function TextOf(key: StepKey): Units {
    match key case Name => Ascii("name") case Run => Ascii("run") case Uses => Ascii("uses") case If => Ascii("if")
  }

  function StepKeyOf(u: Units): Option<StepKey> {
    if u == TextOf(Name) then Some(Name)
    else if u == TextOf(Run) then Some(Run)
    else if u == TextOf(Uses) then Some(Uses)
    else if u == TextOf(If) then Some(If)
    else None
  }

  const STEPS := Ascii("steps")
  const JOBS := Ascii("jobs")

  datatype Why = IndentationIndicator | NotPlain | Continues | NotAKeyLine | OpenerForm | FlowSequence

  /** Something the parser declined to read: a key's value, or a whole line. */
  datatype Refusal = Refusal(key: Option<StepKey>, line: Option<nat>, why: Why, value: Option<Units>)

  datatype Step = Step(line: nat, name: Option<Units>, run: Option<Units>, uses: Option<Units>, cond: Option<Units>, unparsed: seq<Refusal>)

  /** Inside a block scalar: its key, the key's column, the baseline once a content line has set it, and the lines so far. */
  datatype Block = Block(key: StepKey, keyIndent: nat, indent: Option<nat>, parts: seq<Units>)

  /** A plain scalar that a deeper line would continue. */
  datatype Watch = Watch(key: StepKey, keyIndent: nat)

  datatype Parent = Parent(indent: nat, key: Units)

  /** `current` says the last of the steps is still being read. */
  datatype State = State(steps: seq<Step>, current: bool, stepsIndent: Option<nat>, itemIndent: Option<nat>, keyColumn: Option<nat>,
                         block: Option<Block>, watch: Option<Watch>, parents: seq<Parent>)

  const START := State([], false, None, None, None, None, None, [])

  // ------------------------------------------------------------------ one line's shape

  predicate IsDot(u: nat) { u != 10 && u != 13 && u != 0x2028 && u != 0x2029 }

  predicate AllDot(u: Units) { forall i :: 0 <= i < |u| ==> IsDot(u[i]) }

  predicate IsWord(u: nat) { 48 <= u <= 57 || 65 <= u <= 90 || 97 <= u <= 122 || u == 95 || u == DASH }

  function WordSpan(u: Units): (n: nat)
    ensures n <= |u|
  {
    if u == [] || !IsWord(u[0]) then 0 else 1 + WordSpan(u[1..])
  }

  function IndentOf(line: Units): (n: nat)
    ensures n <= |line|
  {
    if line == [] || line[0] != SPACE then 0 else 1 + IndentOf(line[1..])
  }

  predicate IsBlank(line: Units) { Trim(line) == [] }

  predicate IsComment(line: Units) { TrimLeft(line) != [] && TrimLeft(line)[0] == HASH }

  /** A key and what follows its colon. */
  datatype Pair = Pair(key: Units, rest: Units)

  /** `word:` at the front of `u`. */
  function KeyAt(u: Units): Option<Pair> {
    var n := WordSpan(u);
    if n == 0 || n == |u| || u[n] != COLON then None else Some(Pair(u[..n], u[n + 1..]))
  }

  /** A quoted or spaced `steps` key, of a line that is no plain key line. */
  predicate IsOddSteps(line: Units) {
    var u := line[IndentOf(line)..];
    var v := if u != [] && (u[0] == 34 || u[0] == 39) then u[1..] else u;
    STEPS <= v &&
    var w := v[|STEPS|..];
    var x := TrimLeft(if w != [] && (w[0] == 34 || w[0] == 39) then w[1..] else w);
    x != [] && x[0] == COLON
  }

  datatype Item = Item(indent: nat, gap: nat, rest: Units)

  /** A `-`, the spaces after it, and the rest of the line. */
  function ItemAt(line: Units): Option<Item> {
    var n := IndentOf(line);
    if n == |line| || line[n] != DASH then None
    else
      var gap := IndentOf(line[n + 1..]);
      if AllDot(line[n + 1 + gap..]) then Some(Item(n, gap, line[n + 1 + gap..])) else None
  }

  predicate IsFlushDash(line: Units) {
    var n := IndentOf(line);
    n + 1 < |line| && line[n] == DASH && line[n + 1] == SPACE
  }

  /** A trailing comment taken off. */
  function Uncomment(u: Units): Units {
    if u == [] then []
    else if IsSpace(u[0]) && IsComment(u) && AllDot(TrimLeft(u)) then []
    else [u[0]] + Uncomment(u[1..])
  }

  /** A block scalar's header, without its comment: `|` or `>`, then signs and digits. */
  function HeaderAt(u: Units): Option<Units> {
    if u == [] || (u[0] != 124 && u[0] != 62) then None
    else
      var n := 1 + HeaderSpan(u[1..]);
      if n == |u| then Some(u)
      else if IsSpace(u[n]) && IsComment(u[n..]) && AllDot(TrimLeft(u[n..])) then Some(u[..n])
      else None
  }

  function HeaderSpan(u: Units): (n: nat)
    ensures n <= |u|
  {
    if u == [] || !(u[0] == DASH || u[0] == 43 || 48 <= u[0] <= 57) then 0 else 1 + HeaderSpan(u[1..])
  }

  predicate HasDigit(u: Units) { exists i :: 0 <= i < |u| && 48 <= u[i] <= 57 }

  /** A first character that is a YAML indicator: `"'&*!%@` and a backtick, brackets, braces and the comma. */
  predicate IsIndicator(u: nat) { u in {34, 39, 38, 42, 33, 37, 64, 96, 123, 125, 91, 93, 44} }

  // ------------------------------------------------------------------ what a line changes

  predicate IsSafetyKey(key: StepKey) { key == Run || key == If }

  function Put(step: Step, key: StepKey, value: Units): Step {
    match key
    case Name => step.(name := Some(value))
    case Run => step.(run := Some(value))
    case Uses => step.(uses := Some(value))
    case If => step.(cond := Some(value))
  }

  function ValueOf(step: Step, key: StepKey): Option<Units> {
    match key case Name => step.name case Run => step.run case Uses => step.uses case If => step.cond
  }

  predicate Refused(step: Step, key: Option<StepKey>) { exists i :: 0 <= i < |step.unparsed| && step.unparsed[i].key == key }

  /** refuse: once per key, and only for the keys that matter. */
  function Refuse(step: Step, key: StepKey, why: Why): Step {
    if !IsSafetyKey(key) || Refused(step, Some(key)) then step
    else step.(unparsed := step.unparsed + [Refusal(Some(key), None, why, ValueOf(step, key))])
  }

  /** refuseLine: once per step. */
  function RefuseLine(step: Step, line: nat, text: Units): Step {
    if Refused(step, None) then step
    else step.(unparsed := step.unparsed + [Refusal(None, Some(line), NotAKeyLine, Some(text))])
  }

  function Blank(line: nat): Step { Step(line, None, None, None, None, []) }

  function Last(s: State): Step
    requires s.steps != []
  {
    s.steps[|s.steps| - 1]
  }

  function WithLast(s: State, step: Step): State
    requires s.steps != []
  {
    s.(steps := s.steps[..|s.steps| - 1] + [step])
  }

  /** record, on the step being read; false when the text is no key line. */
  function Record(s: State, text: Units, keyIndent: nat): (r: (State, bool))
    requires s.steps != []
    ensures r.0.steps != []
  {
    var m := KeyAt(text);
    if m.None? || !AllDot(TrimLeft(m.value.rest)) then (s, false)
    else
      var key := StepKeyOf(m.value.key);
      if key.None? then (s, true) else (RecordValue(s, key.value, TrimLeft(m.value.rest), keyIndent), true)
  }

  function RecordValue(s: State, key: StepKey, raw: Units, keyIndent: nat): (r: State)
    requires s.steps != []
    ensures r.steps != []
  {
    var header := HeaderAt(raw);
    var value := Trim(raw);
    if header.Some? && HasDigit(header.value) then WithLast(s, Refuse(Put(Last(s), key, value), key, IndentationIndicator))
    else if header.Some? then WithLast(s, Put(Last(s), key, [])).(block := Some(Block(key, keyIndent, None, [])))
    else if value != [] && IsIndicator(value[0]) then WithLast(s, Refuse(Put(Last(s), key, value), key, NotPlain))
    else WithLast(s, Put(Last(s), key, value)).(watch := Some(Watch(key, keyIndent)))
  }

  function PopParents(parents: seq<Parent>, depth: nat): seq<Parent> {
    if parents != [] && parents[|parents| - 1].indent >= depth then PopParents(parents[..|parents| - 1], depth) else parents
  }

  /** A refused `steps` opener, listed as a step that could not be read. */
  function Opener(s: State, n: nat, line: Units, why: Why): State {
    s.(steps := s.steps + [Blank(n).(unparsed := [Refusal(None, Some(n), why, Some(Trim(line)))])])
  }

  /** Outside every steps block: which `steps:` is a job's. */
  function OuterLine(s: State, line: Units, n: nat): (r: State)
    ensures |r.steps| >= |s.steps| && (r.current ==> s.current)
  {
    var found := KeyAt(line[IndentOf(line)..]);
    var key := if found.Some? && AllDot(found.value.rest) then found else None;
    var depth := IndentOf(line);
    var parents := PopParents(s.parents, depth);
    var atJobChild := |parents| == 2 && parents[0].key == JOBS;
    if key.None? && IsOddSteps(line) && atJobChild then Opener(s.(parents := parents), n, line, OpenerForm)
    else
      var t := s.(parents := if key.Some? then parents + [Parent(depth, key.value.key)] else parents);
      if key.None? || key.value.key != STEPS || !atJobChild then t
      else if Trim(Uncomment(key.value.rest)) != [] then Opener(t, n, line, FlowSequence)
      else t.(stepsIndent := Some(depth), itemIndent := None, keyColumn := None, current := false)
  }

  /** Inside a steps block. */
  function InnerLine(s: State, line: Units, n: nat): (r: State)
    requires s.current ==> s.steps != []
    ensures r.current ==> r.steps != []
  {
    var indent := IndentOf(line);
    if s.current && s.watch.Some? && indent > s.watch.value.keyIndent then WithLast(s, Refuse(Last(s), s.watch.value.key, Continues))
    else
      var t := s.(watch := None);
      var item := ItemAt(line);
      if item.Some? && (s.itemIndent.None? || item.value.indent == s.itemIndent.value) then NewItem(t, item.value, line, n)
      else if s.current && s.keyColumn == Some(indent) then
        var (u, ok) := Record(t, Trim(line), indent);
        if ok then u else WithLast(u, RefuseLine(Last(u), n, Trim(line)))
      else t
  }

  function NewItem(s: State, item: Item, line: Units, n: nat): (r: State)
    ensures r.steps != []
  {
    var column := item.indent + 1 + item.gap;
    var t := s.(steps := s.steps + [Blank(n)], current := true, itemIndent := Some(item.indent), keyColumn := Some(column));
    var (u, ok) := Record(t, item.rest, column);
    if ok then u
    else WithLast(u, RefuseLine(Last(u), n, Trim(line))).(keyColumn := Some(if item.rest == [] then item.indent + 2 else column))
  }

  /** A line that closes the steps block is read again outside it. */
  function SettledLine(s: State, line: Units, n: nat): (r: State)
    requires s.current ==> s.steps != []
    ensures r.current ==> r.steps != []
  {
    if IsBlank(line) then s
    else if IsComment(line) then s.(watch := None)
    else if s.stepsIndent.None? then OuterLine(s, line, n)
    else
      var indent, at := IndentOf(line), s.stepsIndent.value;
      var flush := indent == at && IsFlushDash(line) && (s.itemIndent.None? || s.itemIndent.value == at);
      if indent <= at && !flush then
        OuterLine(s.(stepsIndent := None, itemIndent := None, keyColumn := None, current := false, watch := None, block := None), line, n)
      else InnerLine(s, line, n)
  }

  /** Lines joined with a newline between them. */
  function Joined(parts: seq<Units>): Units { Glue(parts, 10) }

  /** Whatever is being read is the last of the steps. */
  predicate Sound(s: State) { s.current ==> s.steps != [] }

  /** One turn of the loop: the block scalar first, then the line itself. */
  function LineStep(s: State, line: Units, n: nat): (r: State)
    requires Sound(s)
    ensures Sound(r)
  {
    if s.block.None? then SettledLine(s, line, n)
    else
      var b := s.block.value;
      var indent := IndentOf(line);
      if IsBlank(line) then s.(block := Some(b.(parts := b.parts + [[]])))
      else
        var base := if b.indent.Some? then b.indent.value else indent;
        if indent > b.keyIndent && indent >= base && s.current then
          var parts := b.parts + [line[base..]];
          WithLast(s, Put(Last(s), b.key, Trim(Joined(parts)))).(block := Some(b.(indent := Some(base), parts := parts)))
        else SettledLine(s.(block := None), line, n)
  }

  /** All lines, the first of them numbered `n`. */
  function ReadAll(s: State, lines: seq<Units>, n: nat): State
    requires Sound(s)
    decreases |lines|
  {
    if lines == [] then s else ReadAll(LineStep(s, lines[0], n), lines[1..], n + 1)
  }

  /** parseCiSteps: a pass over the lines, the state changing in place. */
  method ParseCiSteps(workflow: Units) returns (steps: seq<Step>)
    ensures steps == ReadAll(START, Split(workflow, 10), 1).steps
  {
    var lines := Split(workflow, 10);
    var s, i := START, 0;
    assert lines[0..] == lines;
    while i < |lines|
      invariant 0 <= i <= |lines| && Sound(s)
      invariant ReadAll(s, lines[i..], i + 1) == ReadAll(START, lines, 1)
    {
      assert lines[i..][1..] == lines[i + 1..];
      s := LineStep(s, lines[i], i + 1);
      i := i + 1;
    }
    assert lines[i..] == [];
    steps := s.steps;
  }
}
