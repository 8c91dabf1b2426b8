/**
 CI workflows as trees: jobs whose children are `steps:` sequences, indented or flush and with a dash of
 any width, or anything else a job holds. The reader gives back exactly the steps of every job.
 */
module WorkflowGrammar {
  import opened Options
  import opened CodeUnits
  import opened WorkflowLines

  /** A value on its key's line, or the lines of a `|` block. */
  datatype Value = Plain(text: Units) | Literal(base: nat, body: seq<Units>)

  /**
   A key of a step: one that is read, with blank lines and comments after its value, or any other, with
   whatever deeper lines it has.
   */
  datatype Entry = Entry(key: StepKey, value: Value, after: seq<Units>) | Foreign(name: Units, rest: Units, below: seq<Units>)

  /** One step: the spaces after its dash, and its keys, the first of them on the dash's line. */
  datatype Laid = Laid(gap: nat, entries: seq<Entry>)

  /** What a job holds: a `steps:` sequence whose dashes stand at `dash`, after blank lines and comments, or another key with deeper lines below it. */
  datatype Child = StepsOf(lead: seq<Units>, dash: nat, steps: seq<Laid>) | Other(key: Units, rest: Units, below: seq<Units>)

  datatype Job = Job(name: Units, lead: seq<Units>, children: seq<Child>)

  /** Lines before `jobs:` and blank ones after it, the jobs at one column and their keys at another. */
  datatype Workflow = Workflow(preamble: seq<Units>, lead: seq<Units>, jobColumn: nat, childColumn: nat, jobs: seq<Job>)

  // ------------------------------------------------------------------ what is printed

  function Spaces(n: nat): (u: Units)
    ensures |u| == n
  {
    if n == 0 then [] else [SPACE] + Spaces(n - 1)
  }

  /** What stands on a value's own line. */
  function Shown(v: Value): Units { match v case Plain(text) => text case Literal(_, _) => [124] }

  function KeyText(e: Entry): Units {
    match e
    case Entry(key, value, _) => TextOf(key) + ([COLON, SPACE] + Shown(value))
    case Foreign(name, rest, _) => name + ([COLON] + rest)
  }

  function BodyLines(base: nat, body: seq<Units>, k: seq<Units>): seq<Units> {
    if body == [] then k else [if body[0] == [] then [] else Spaces(base) + body[0]] + BodyLines(base, body[1..], k)
  }

  function ValueLines(v: Value, k: seq<Units>): seq<Units> {
    match v case Plain(_) => k case Literal(base, body) => BodyLines(base, body, k)
  }

  /** The lines below a key's. */
  function EntryTail(e: Entry, k: seq<Units>): seq<Units> {
    match e case Entry(_, value, after) => ValueLines(value, after + k) case Foreign(_, _, below) => below + k
  }

  /** How a dash's line, a key's line and the lines below a key's are printed. */
  datatype Printer = Printer(dash: (nat, Laid) -> Units, row: (nat, Entry) -> Units, tail: (Entry, seq<Units>) -> seq<Units>)

  function DashRow(dash: nat, step: Laid): Units { if step.entries == [] then [] else DashText(dash, step.gap, KeyText(step.entries[0])) }

  function EntryRow(column: nat, e: Entry): Units { Spaces(column) + KeyText(e) }

  const PLAINLY := Printer(DashRow, EntryRow, EntryTail)

  /** The keys after the first. */
  function EntriesLines(p: Printer, entries: seq<Entry>, column: nat, k: seq<Units>): seq<Units>
    decreases |entries|
  {
    if entries == [] then k
    else [p.row(column, entries[0])] + p.tail(entries[0], EntriesLines(p, entries[1..], column, k))
  }

  function DashText(dash: nat, gap: nat, u: Units): Units { Spaces(dash) + ([DASH] + (Spaces(gap) + u)) }

  function Column(dash: nat, step: Laid): nat { dash + 1 + step.gap }

  function StepLines(p: Printer, dash: nat, step: Laid, k: seq<Units>): seq<Units> {
    if step.entries == [] then k
    else [p.dash(dash, step)]
         + p.tail(step.entries[0], EntriesLines(p, step.entries[1..], Column(dash, step), k))
  }

  function StepsLines(p: Printer, dash: nat, steps: seq<Laid>, k: seq<Units>): seq<Units>
    decreases |steps|
  {
    if steps == [] then k else StepLines(p, dash, steps[0], StepsLines(p, dash, steps[1..], k))
  }

  /** `key:` and the rest at a column. */
  function KeyRow(column: nat, key: Units, rest: Units): Units { Spaces(column) + (key + ([COLON] + rest)) }

  function ChildText(p: Printer, column: nat, c: Child, k: seq<Units>): seq<Units> {
    match c
    case StepsOf(lead, dash, steps) => [KeyRow(column, STEPS, [])] + (lead + StepsLines(p, dash, steps, k))
    case Other(key, rest, below) => [KeyRow(column, key, rest)] + (below + k)
  }

  function ChildLines(column: nat, c: Child, k: seq<Units>): seq<Units> { ChildText(PLAINLY, column, c, k) }

  /** How one of a job's keys is printed: `ChildLines`. */
  type ChildTail = (nat, Child, seq<Units>) -> seq<Units>

  function ChildrenLines(child: ChildTail, column: nat, children: seq<Child>, k: seq<Units>): seq<Units>
    decreases |children|
  {
    if children == [] then k else child(column, children[0], ChildrenLines(child, column, children[1..], k))
  }

  function JobLines(w: Workflow, j: Job, k: seq<Units>): seq<Units> {
    [KeyRow(w.jobColumn, j.name, [])] + (j.lead + ChildrenLines(ChildLines, w.childColumn, j.children, k))
  }

  /** How one job is printed: `JobLines`. */
  type JobTail = (Workflow, Job, seq<Units>) -> seq<Units>

  function JobsLines(job: JobTail, w: Workflow, jobs: seq<Job>, k: seq<Units>): seq<Units>
    decreases |jobs|
  {
    if jobs == [] then k else job(w, jobs[0], JobsLines(job, w, jobs[1..], k))
  }

  function WorkflowText(w: Workflow): seq<Units> {
    w.preamble + ([KeyRow(0, JOBS, [])] + (w.lead + JobsLines(JobLines, w, w.jobs, [])))
  }

  // ------------------------------------------------------------------ which trees are workflows

  predicate IsWordText(u: Units) { u != [] && forall i :: 0 <= i < |u| ==> IsWord(u[i]) }

  /** A key: a word that is not mistaken for an item. */
  predicate IsKeyText(u: Units) { IsWordText(u) && u[0] != DASH }

  /** A plain scalar on one line: no indicator, no block header, no white space at its ends. */
  predicate ValidPlain(text: Units) {
    text != [] && Trimmed(text) && AllDot(text) && !IsIndicator(text[0]) && text[0] != 124 && text[0] != 62
  }

  /** Lines of a block: the first that is not blank sets the baseline, and the last is not blank. */
  predicate ValidBody(body: seq<Units>, first: bool) {
    body == [] ||
    (if body[0] == [] then |body| > 1 && ValidBody(body[1..], first)
     else !IsBlank(body[0]) && (first ==> body[0][0] != SPACE) && ValidBody(body[1..], false))
  }

  predicate ValidValue(column: nat, v: Value) {
    match v case Plain(text) => ValidPlain(text) case Literal(base, body) => base > column && ValidBody(body, true)
  }

  /** A line that is blank or a comment; no comment is as deep as a block's lines. */
  predicate GapLine(column: nat, v: Value, line: Units) {
    IsBlank(line) || (IsComment(line) && (v.Plain? || IndentOf(line) <= column))
  }

  predicate GapLines(column: nat, v: Value, lines: seq<Units>) {
    lines == [] || (GapLine(column, v, lines[0]) && GapLines(column, v, lines[1..]))
  }

  /** A key of a step the reader does not read. */
  predicate ValidForeign(name: Units, rest: Units) {
    IsKeyText(name) && StepKeyOf(name).None? && AllDot(rest) && (rest == [] || !IsSpace(rest[|rest| - 1]))
  }

  predicate ValidEntry(column: nat, e: Entry) {
    match e
    case Entry(_, value, after) => ValidValue(column, value) && GapLines(column, value, after)
    case Foreign(name, rest, below) => ValidForeign(name, rest) && AllBelow(column, below)
  }

  predicate ValidEntries(column: nat, entries: seq<Entry>) {
    entries == [] || (ValidEntry(column, entries[0]) && ValidEntries(column, entries[1..]))
  }

  predicate AllGap(lines: seq<Units>) { lines == [] || ((IsBlank(lines[0]) || IsComment(lines[0])) && AllGap(lines[1..])) }

  predicate ValidSteps(column: nat, dash: nat, steps: seq<Laid>) {
    steps == [] || (steps[0].entries != [] && steps[0].gap >= 1 && ValidEntries(Column(dash, steps[0]), steps[0].entries)
                    && ValidSteps(column, dash, steps[1..]))
  }

  /** A line below a key: blank, a comment, or deeper than the key. */
  predicate Below(column: nat, line: Units) { IsBlank(line) || IsComment(line) || IndentOf(line) > column }

  predicate AllBelow(column: nat, lines: seq<Units>) { lines == [] || (Below(column, lines[0]) && AllBelow(column, lines[1..])) }

  predicate ValidChild(column: nat, c: Child) {
    match c
    case StepsOf(lead, dash, steps) => dash >= column && AllGap(lead) && ValidSteps(column, dash, steps)
    case Other(key, rest, below) => IsKeyText(key) && key != STEPS && AllDot(rest) && AllBelow(column, below)
  }

  predicate ValidChildren(column: nat, children: seq<Child>) {
    children == [] || (ValidChild(column, children[0]) && ValidChildren(column, children[1..]))
  }

  predicate ValidJobs(w: Workflow, jobs: seq<Job>) {
    jobs == [] || (IsKeyText(jobs[0].name) && AllGap(jobs[0].lead) && ValidChildren(w.childColumn, jobs[0].children) && ValidJobs(w, jobs[1..]))
  }

  /** Nothing before `jobs:` is called `jobs`. */
  predicate ValidPreamble(lines: seq<Units>) {
    lines == [] || ((var key := KeyAt(lines[0][IndentOf(lines[0])..]); key.Some? ==> key.value.key != JOBS) && ValidPreamble(lines[1..]))
  }

  predicate ValidWorkflow(w: Workflow) {
    0 < w.jobColumn < w.childColumn && ValidPreamble(w.preamble) && AllGap(w.lead) && ValidJobs(w, w.jobs)
  }

  // ------------------------------------------------------------------ the steps there are

  function ValueText(v: Value): Units { match v case Plain(text) => text case Literal(_, body) => Trim(Joined(body)) }

  /** How many lines a value takes below its key's. */
  function ValueSize(v: Value): nat { match v case Plain(_) => 0 case Literal(_, body) => |body| }

  /** How many lines a key takes below its own. */
  function EntrySize(e: Entry): nat {
    match e case Entry(_, value, after) => ValueSize(value) + |after| case Foreign(_, _, below) => |below|
  }

  /** The number of the line behind each, when it starts on line `n`. */
  function AfterEntries(n: nat, entries: seq<Entry>): nat
    decreases |entries|
  {
    if entries == [] then n else AfterEntries(n + 1 + EntrySize(entries[0]), entries[1..])
  }

  function AfterSteps(n: nat, steps: seq<Laid>): nat
    decreases |steps|
  {
    if steps == [] then n else AfterSteps(AfterEntries(n, steps[0].entries), steps[1..])
  }

  function AfterChild(n: nat, c: Child): nat {
    match c case StepsOf(lead, _, steps) => AfterSteps(n + 1 + |lead|, steps) case Other(_, _, below) => n + 1 + |below|
  }

  function AfterChildren(n: nat, children: seq<Child>): nat
    decreases |children|
  {
    if children == [] then n else AfterChildren(AfterChild(n, children[0]), children[1..])
  }

  /** A step with one more key; a key that is not read changes nothing. */
  function SetKey(step: Step, e: Entry): Step {
    match e case Entry(key, value, _) => Put(step, key, ValueText(value)) case Foreign(_, _, _) => step
  }

  /** A step with these keys set, in order. */
  function Filled(step: Step, entries: seq<Entry>): Step
    decreases |entries|
  {
    if entries == [] then step else Filled(SetKey(step, entries[0]), entries[1..])
  }

  function StepsRead(steps: seq<Laid>, n: nat): seq<Step>
    decreases |steps|
  {
    if steps == [] then [] else [Filled(Blank(n), steps[0].entries)] + StepsRead(steps[1..], AfterEntries(n, steps[0].entries))
  }

  function ChildRead(c: Child, n: nat): seq<Step> {
    match c case StepsOf(lead, _, steps) => StepsRead(steps, n + 1 + |lead|) case Other(_, _, _) => []
  }

  function ChildrenRead(children: seq<Child>, n: nat): seq<Step>
    decreases |children|
  {
    if children == [] then [] else ChildRead(children[0], n) + ChildrenRead(children[1..], AfterChild(n, children[0]))
  }

  /** Every step of every job, in order, with the line its dash is on. */
  function JobsRead(jobs: seq<Job>, n: nat): seq<Step>
    decreases |jobs|
  {
    if jobs == [] then []
    else
      var m := n + 1 + |jobs[0].lead|;
      ChildrenRead(jobs[0].children, m) + JobsRead(jobs[1..], AfterChildren(m, jobs[0].children))
  }

  /** The number of the first job's line. */
  function FirstJob(w: Workflow): nat { |w.preamble| + 2 + |w.lead| }

  // ------------------------------------------------------------------ lines by their shape

  lemma {:induction false} IndentSpaces(n: nat, u: Units)
    requires u != [] && u[0] != SPACE
    ensures IndentOf(Spaces(n) + u) == n && (Spaces(n) + u)[n..] == u
  {
    if n == 0 {
      assert Spaces(n) + u == u;
    } else {
      IndentSpaces(n - 1, u);
      assert (Spaces(n) + u)[1..] == Spaces(n - 1) + u;
    }
  }

  lemma {:induction false} SpacesAreSpace(n: nat)
    ensures AllSpace(Spaces(n))
  {
    if n > 0 { SpacesAreSpace(n - 1); }
  }

  /** A line is blank, or a comment, by what comes after its indentation. */
  lemma {:induction false} LineShape(n: nat, u: Units)
    requires u != [] && !IsSpace(u[0])
    ensures IndentOf(Spaces(n) + u) == n && (Spaces(n) + u)[n..] == u && TrimLeft(Spaces(n) + u) == u
    ensures !IsBlank(Spaces(n) + u) && (IsComment(Spaces(n) + u) <==> u[0] == HASH)
    ensures Trimmed(u) ==> Trim(Spaces(n) + u) == u
  {
    IndentSpaces(n, u);
    SpacesAreSpace(n);
    TrimLeftStops(Spaces(n), u);
    TrimRightKeeps(u);
    if Trimmed(u) {
      TrimRightStops(u, []);
      assert u + [] == u;
    }
  }

  lemma {:induction false} TrimRightKeeps(u: Units)
    requires u != [] && !IsSpace(u[0])
    ensures TrimRight(u) != []
  {
    if IsSpace(u[|u| - 1]) { TrimRightKeeps(u[..|u| - 1]); }
  }

  lemma {:induction false} WordStops(key: Units, u: Units)
    requires (forall i :: 0 <= i < |key| ==> IsWord(key[i])) && u != [] && !IsWord(u[0])
    ensures WordSpan(key + u) == |key|
  {
    if key == [] {
      assert key + u == u;
    } else {
      WordStops(key[1..], u);
      assert (key + u)[1..] == key[1..] + u;
    }
  }

  lemma {:induction false} KeyReads(key: Units, rest: Units)
    requires IsWordText(key)
    ensures KeyAt(key + ([COLON] + rest)) == Some(Pair(key, rest))
  {
    var u := key + ([COLON] + rest);
    WordStops(key, [COLON] + rest);
    assert u[..|key|] == key && u[|key| + 1..] == rest;
  }

  lemma {:induction false} StepKeysAreWords(key: StepKey)
    ensures var u := TextOf(key);
      IsWordText(u) && AllDot(u) && !IsSpace(u[0]) && u[0] != DASH && u[0] != HASH && u[0] != SPACE
  {
    var s := match key case Name => "name" case Run => "run" case Uses => "uses" case If => "if";
    assert forall i :: 0 <= i < |s| ==> TextOf(key)[i] == s[i] as nat;
  }

  lemma {:induction false} StepKeysTold(key: StepKey)
    ensures StepKeyOf(TextOf(key)) == Some(key)
  {
    assert TextOf(Name)[0] == 110 && TextOf(Run)[0] == 114 && TextOf(Uses)[0] == 117 && TextOf(If)[0] == 105;
  }

  /** The text of a key's line, behind its indentation. */
  predicate KeyLike(u: Units) {
    u != [] && !IsSpace(u[0]) && u[0] != SPACE && u[0] != DASH && u[0] != HASH && Trimmed(u) && AllDot(u)
  }

  lemma {:induction false} KeyTextShape(e: Entry, column: nat)
    requires ValidEntry(column, e)
    ensures KeyLike(KeyText(e))
  {
    var u := KeyText(e);
    match e
    case Entry(key, value, _) =>
      StepKeysAreWords(key);
      assert u[0] == TextOf(key)[0] && u[|u| - 1] == Shown(value)[|Shown(value)| - 1];
    case Foreign(name, rest, _) =>
      assert u[0] == name[0] && u[|u| - 1] == if rest == [] then COLON else rest[|rest| - 1];
  }

  // ------------------------------------------------------------------ one key

  /** The state once a key has been read. */
  function Taken(s: State, e: Entry, column: nat): State
    requires s.steps != []
  {
    match e
    case Entry(key, value, _) => TakenValue(s, key, value, column)
    case Foreign(_, _, _) => s
  }

  function TakenValue(s: State, key: StepKey, value: Value, column: nat): State
    requires s.steps != []
  {
    match value
    case Plain(text) => WithLast(s, Put(Last(s), key, text)).(watch := Some(Watch(key, column)))
    case Literal(_, _) => WithLast(s, Put(Last(s), key, [])).(block := Some(Block(key, column, None, [])))
  }

  lemma {:induction false} RecordReads(s: State, key: StepKey, v: Units, column: nat)
    requires s.steps != [] && v != [] && Trimmed(v) && AllDot(v)
    ensures Record(s, TextOf(key) + ([COLON] + ([SPACE] + v)), column) == (RecordValue(s, key, v, column), true)
  {
    StepKeysAreWords(key);
    StepKeysTold(key);
    KeyReads(TextOf(key), [SPACE] + v);
    TrimLeftStops([SPACE], v);
  }

  lemma {:induction false} ValueTaken(s: State, key: StepKey, v: Value, column: nat)
    requires s.steps != [] && ValidValue(column, v)
    ensures RecordValue(s, key, Shown(v), column) == TakenValue(s, key, v, column)
  {
    match v
    case Plain(text) =>
      TrimLeftStops([], text);
      TrimRightStops(text, []);
      assert [] + text == text && text + [] == text;
    case Literal(_, _) => assert HeaderAt([124]) == Some([124]) && !HasDigit([124]);
  }

  lemma {:induction false} DotsLeft(u: Units)
    requires AllDot(u)
    ensures AllDot(TrimLeft(u))
  {
    if u != [] && IsSpace(u[0]) { DotsLeft(u[1..]); }
  }

  lemma {:induction false} RecordTakes(s: State, e: Entry, column: nat)
    requires s.steps != [] && ValidEntry(column, e)
    ensures Record(s, KeyText(e), column) == (Taken(s, e, column), true)
  {
    match e
    case Entry(key, value, _) =>
      assert KeyText(e) == TextOf(key) + ([COLON] + ([SPACE] + Shown(value)));
      RecordReads(s, key, Shown(value), column);
      ValueTaken(s, key, value, column);
    case Foreign(name, rest, _) =>
      KeyReads(name, rest);
      DotsLeft(rest);
  }

  // ------------------------------------------------------------------ the state between lines

  /** The state without an open scalar. */
  function Shut(s: State): State { s.(block := None, watch := None) }

  /** What is open belongs to a key at `column`. */
  predicate Loose(s: State, column: nat) {
    (s.block.Some? ==> s.block.value.keyIndent == column) && (s.watch.Some? ==> s.watch.value.keyIndent == column)
  }

  /** `t` is `u`, but for a scalar left open by a key at `column`. */
  predicate Same(t: State, u: State, column: nat) { Shut(t) == u && Loose(t, column) && Sound(t) }

  /** A line no deeper than the key shuts what the key left open. */
  lemma {:induction false} ShutLine(s: State, line: Units, n: nat, column: nat)
    requires Sound(s) && s.stepsIndent.Some? && Loose(s, column) && !IsBlank(line) && !IsComment(line) && IndentOf(line) <= column
    ensures LineStep(s, line, n) == SettledLine(Shut(s), line, n)
  {
  }

  /** A key of the step being read. */
  predicate Reading(s: State, at: nat, column: nat) {
    && s.stepsIndent == Some(at) && s.current && s.steps != [] && s.keyColumn == Some(column) && at < column && Shut(s) == s
    && s.itemIndent.Some? && s.itemIndent.value < column
  }

  lemma {:induction false} KeyLineShape(column: nat, u: Units)
    requires KeyLike(u)
    ensures var line := Spaces(column) + u;
      !IsBlank(line) && !IsComment(line) && IndentOf(line) == column && ItemAt(line).None? && Trim(line) == u && !IsFlushDash(line)
  {
    LineShape(column, u);
    assert (Spaces(column) + u)[column] == u[0];
  }

  /** A line that is neither an item nor out of the block is a key's, when it stands in the keys' column. */
  lemma {:induction false} RowLine(s: State, line: Units, at: nat, column: nat, n: nat)
    requires Reading(s, at, column) && IndentOf(line) == column && !IsBlank(line) && !IsComment(line) && ItemAt(line).None?
    requires Record(s, Trim(line), column).1
    ensures SettledLine(s, line, n) == Record(s, Trim(line), column).0
  {
  }

  lemma {:induction false} KeyLine(s: State, e: Entry, at: nat, column: nat, n: nat)
    requires Reading(s, at, column) && ValidEntry(column, e)
    ensures SettledLine(s, Spaces(column) + KeyText(e), n) == Taken(s, e, column)
  {
    KeyTextShape(e, column);
    KeyLineShape(column, KeyText(e));
    RecordTakes(s, e, column);
    RowLine(s, Spaces(column) + KeyText(e), at, column, n);
  }

  /** A line whose dash is where the items' dashes are opens a step. */
  lemma {:induction false} ItemLine(s: State, line: Units, item: Item, at: nat, n: nat)
    requires s.stepsIndent == Some(at) && at <= item.indent && (s.itemIndent.None? || s.itemIndent == Some(item.indent)) && Shut(s) == s && Sound(s)
    requires !IsBlank(line) && !IsComment(line) && IndentOf(line) == item.indent && ItemAt(line) == Some(item) && IsFlushDash(line)
    ensures SettledLine(s, line, n) == NewItem(s, item, line, n)
  {
  }

  lemma {:induction false} ItemTaken(s: State, line: Units, dash: nat, step: Laid, n: nat)
    requires step.entries != [] && ValidEntry(Column(dash, step), step.entries[0])
    ensures NewItem(s, Item(dash, step.gap, KeyText(step.entries[0])), line, n) == Taken(Opened(s, dash, step, n), step.entries[0], Column(dash, step))
  {
    var o, e := Opened(s, dash, step, n), step.entries[0];
    RecordTakes(o, e, Column(dash, step));
    ItemRecorded(s, Item(dash, step.gap, KeyText(e)), line, n);
    assert o == s.(steps := s.steps + [Blank(n)], current := true, itemIndent := Some(dash), keyColumn := Some(dash + 1 + step.gap));
  }

  lemma {:induction false} ItemRecorded(s: State, item: Item, line: Units, n: nat)
    ensures var column := item.indent + 1 + item.gap;
      var t := s.(steps := s.steps + [Blank(n)], current := true, itemIndent := Some(item.indent), keyColumn := Some(column));
      Record(t, item.rest, column).1 ==> NewItem(s, item, line, n) == Record(t, item.rest, column).0
  {
  }

  lemma {:induction false} DashShape(dash: nat, gap: nat, u: Units)
    requires gap >= 1 && u != [] && !IsSpace(u[0]) && AllDot(u)
    ensures var line := DashText(dash, gap, u);
      !IsBlank(line) && !IsComment(line) && IndentOf(line) == dash && ItemAt(line) == Some(Item(dash, gap, u)) && IsFlushDash(line)
  {
    DashItem(dash, gap, u);
    LineShape(dash, [DASH] + (Spaces(gap) + u));
  }

  /** The line of a step's dash. */
  lemma {:induction false} DashLine(s: State, dash: nat, step: Laid, at: nat, n: nat)
    requires s.stepsIndent == Some(at) && at <= dash && (s.itemIndent.None? || s.itemIndent == Some(dash)) && Shut(s) == s && Sound(s)
    requires step.entries != [] && step.gap >= 1 && ValidEntries(Column(dash, step), step.entries)
    ensures SettledLine(s, DashText(dash, step.gap, KeyText(step.entries[0])), n)
      == Taken(Opened(s, dash, step, n), step.entries[0], Column(dash, step))
  {
    var e := step.entries[0];
    KeyTextShape(e, Column(dash, step));
    DashShape(dash, step.gap, KeyText(e));
    var line := DashText(dash, step.gap, KeyText(e));
    ItemLine(s, line, Item(dash, step.gap, KeyText(e)), at, n);
    ItemTaken(s, line, dash, step, n);
  }

  /** A new step, read up to its dash. */
  function Opened(s: State, dash: nat, step: Laid, n: nat): State {
    s.(steps := s.steps + [Blank(n)], current := true, itemIndent := Some(dash), keyColumn := Some(Column(dash, step)))
  }

  lemma {:induction false} DashItem(dash: nat, gap: nat, u: Units)
    requires gap >= 1 && u != [] && u[0] != SPACE && AllDot(u)
    ensures var line := DashText(dash, gap, u);
      ItemAt(line) == Some(Item(dash, gap, u)) && IsFlushDash(line)
  {
    var line := DashText(dash, gap, u);
    Behind(Spaces(dash), DASH, Spaces(gap), u);
    IndentSpaces(gap, u);
    DashIndent(dash, gap, u);
    assert line[dash + 1] == (Spaces(gap) + u)[0];
    assert Spaces(gap)[0] == SPACE;
  }

  lemma {:induction false} DashIndent(dash: nat, gap: nat, u: Units)
    ensures IndentOf(DashText(dash, gap, u)) == dash
  {
    IndentSpaces(dash, [DASH] + (Spaces(gap) + u));
  }

  lemma {:induction false} Behind(a: Units, x: nat, b: Units, u: Units)
    ensures var line := a + ([x] + (b + u));
      |a| < |line| && line[|a|] == x && line[|a| + 1..] == b + u && line[|a| + 1 + |b|..] == u
  {
    var line := a + ([x] + (b + u));
    assert line[|a| + 1..] == b + u;
    assert line[|a| + 1..][|b|..] == u;
  }

  // ------------------------------------------------------------------ a block's lines

  /** A pass over lines, one at a time. */
  datatype Reader = Reader(step: (State, Units, nat) -> State, read: (State, seq<Units>, nat) -> State,
                           p: Printer, child: ChildTail, job: JobTail)

  /** Names one line of a pass; the laws below are looked up by it. */
  predicate Pass(s: State, line: Units, rest: seq<Units>, n: nat) { true }

  ghost predicate Follows(g: Reader) {
    && (forall s, line, rest, n: nat {:trigger Pass(s, line, rest, n)} :: Sound(s) ==>
          g.read(s, [line] + rest, n) == g.read(g.step(s, line, n), rest, n + 1))
    && (forall s, line, n: nat {:trigger LineStep(s, line, n)} :: Sound(s) ==> g.step(s, line, n) == LineStep(s, line, n))
    && (forall e, k {:trigger EntryTail(e, k)} :: g.p.tail(e, k) == EntryTail(e, k))
    && (forall column: nat, e {:trigger EntryRow(column, e)} :: g.p.row(column, e) == EntryRow(column, e))
    && (forall dash: nat, step {:trigger DashRow(dash, step)} :: g.p.dash(dash, step) == DashRow(dash, step))
    && (forall column: nat, c, k {:trigger ChildText(g.p, column, c, k)} :: g.child(column, c, k) == ChildText(g.p, column, c, k))
    && (forall w, j, k {:trigger JobLines(w, j, k)} :: g.job(w, j, k) == JobLines(w, j, k))
  }

  /** The pass takes one line. */
  lemma {:induction false} TakeLine(g: Reader, s: State, line: Units, rest: seq<Units>, n: nat, t: State)
    requires Follows(g) && Sound(s) && g.step(s, line, n) == t
    ensures g.read(s, [line] + rest, n) == g.read(t, rest, n + 1)
  {
    assert Pass(s, line, rest, n);
  }

  lemma {:induction false} OneSpace(u: Units)
    ensures var v := [SPACE] + u; IndentOf(v) == 1 + IndentOf(u) && v[1..] == u && TrimLeft(v) == TrimLeft(u)
  {
  }

  lemma {:induction false} IndentAdds(n: nat, u: Units)
    ensures IndentOf(Spaces(n) + u) == n + IndentOf(u) && (Spaces(n) + u)[n..] == u && TrimLeft(Spaces(n) + u) == TrimLeft(u)
  {
    if n == 0 {
      assert Spaces(n) + u == u;
    } else {
      IndentAdds(n - 1, u);
      assert Spaces(n) + u == [SPACE] + (Spaces(n - 1) + u);
      OneSpace(Spaces(n - 1) + u);
    }
  }

  lemma {:induction false} PutTwice(step: Step, key: StepKey, a: Units, b: Units)
    ensures Put(Put(step, key, a), key, b) == Put(step, key, b)
  {
  }

  /** In a block, with these lines so far. */
  predicate InBlock(s: State, key: StepKey, column: nat, indent: Option<nat>, parts: seq<Units>) {
    s.current && s.steps != [] && s.block == Some(Block(key, column, indent, parts))
  }

  lemma {:induction false} BodyBlank(g: Reader, s: State, key: StepKey, column: nat, indent: Option<nat>, parts: seq<Units>, n: nat)
    requires Follows(g) && InBlock(s, key, column, indent, parts)
    ensures g.step(s, [], n) == s.(block := Some(Block(key, column, indent, parts + [[]])))
  {
    assert LineStep(s, [], n) == s.(block := Some(Block(key, column, indent, parts + [[]])));
  }

  /** The state once a content line has been taken in. */
  function Grown(s: State, key: StepKey, column: nat, base: nat, parts: seq<Units>): State
    requires s.steps != []
  {
    WithLast(s, Put(Last(s), key, Trim(Joined(parts)))).(block := Some(Block(key, column, Some(base), parts)))
  }

  lemma {:induction false} BodyContent(g: Reader, s: State, key: StepKey, column: nat, indent: Option<nat>, parts: seq<Units>, base: nat, line: Units, n: nat)
    requires Follows(g) && InBlock(s, key, column, indent, parts) && base > column && !IsBlank(line)
    requires indent == Some(base) || (indent.None? && line[0] != SPACE)
    ensures g.step(s, Spaces(base) + line, n) == Grown(s, key, column, base, parts + [line])
  {
    IndentAdds(base, line);
    assert LineStep(s, Spaces(base) + line, n) == Grown(s, key, column, base, parts + [line]);
  }

  lemma {:induction false} GrownTwice(s: State, key: StepKey, column: nat, base: nat, a: seq<Units>, b: seq<Units>)
    requires s.steps != []
    ensures Grown(Grown(s, key, column, base, a), key, column, base, b) == Grown(s, key, column, base, b)
  {
    PutTwice(Last(s), key, Trim(Joined(a)), Trim(Joined(b)));
  }

  /** The state behind all of a block's lines. */
  function BlockRead(s: State, key: StepKey, column: nat, base: nat, parts: seq<Units>, body: seq<Units>): State
    requires s.steps != []
  {
    if body == [] then s else Grown(s, key, column, base, parts + body)
  }

  lemma {:induction false} BlankFirst(s: State, key: StepKey, column: nat, indent: Option<nat>, base: nat, parts: seq<Units>, body: seq<Units>)
    requires s.steps != [] && |body| > 1 && body[0] == []
    ensures BlockRead(s.(block := Some(Block(key, column, indent, parts + [[]]))), key, column, base, parts + [[]], body[1..])
      == BlockRead(s, key, column, base, parts, body)
  {
    assert parts + [[]] + body[1..] == parts + body;
  }

  lemma {:induction false} ContentFirst(s: State, key: StepKey, column: nat, base: nat, parts: seq<Units>, body: seq<Units>)
    requires s.steps != [] && body != []
    ensures BlockRead(Grown(s, key, column, base, parts + [body[0]]), key, column, base, parts + [body[0]], body[1..])
      == BlockRead(s, key, column, base, parts, body)
  {
    assert parts + [body[0]] + body[1..] == parts + body;
    GrownTwice(s, key, column, base, parts + [body[0]], parts + body);
    if body[1..] == [] { assert parts + body == parts + [body[0]]; }
  }

  lemma {:induction false} ReadBody(g: Reader, s: State, key: StepKey, column: nat, indent: Option<nat>, parts: seq<Units>, base: nat,
                                    body: seq<Units>, k: seq<Units>, n: nat)
    requires Follows(g) && InBlock(s, key, column, indent, parts) && base > column
    requires (indent == Some(base) && ValidBody(body, false)) || (indent.None? && ValidBody(body, true))
    ensures g.read(s, BodyLines(base, body, k), n) == g.read(BlockRead(s, key, column, base, parts, body), k, n + |body|)
    decreases |body|
  {
    if body == [] {
    } else if body[0] == [] {
      var m := s.(block := Some(Block(key, column, indent, parts + [[]])));
      BodyBlank(g, s, key, column, indent, parts, n);
      TakeLine(g, s, [], BodyLines(base, body[1..], k), n, m);
      BlankFirst(s, key, column, indent, base, parts, body);
      ReadBody(g, m, key, column, indent, parts + [[]], base, body[1..], k, n + 1);
    } else {
      var m := Grown(s, key, column, base, parts + [body[0]]);
      BodyContent(g, s, key, column, indent, parts, base, body[0], n);
      TakeLine(g, s, Spaces(base) + body[0], BodyLines(base, body[1..], k), n, m);
      ContentFirst(s, key, column, base, parts, body);
      ReadBody(g, m, key, column, Some(base), parts + [body[0]], base, body[1..], k, n + 1);
    }
  }

  /** The lines of a value, behind its key's line. */
  lemma {:induction false} ReadValue(g: Reader, u: State, key: StepKey, v: Value, column: nat, k: seq<Units>, n: nat) returns (t: State)
    requires Follows(g) && u.steps != [] && u.current && Shut(u) == u && ValidValue(column, v)
    ensures g.read(TakenValue(u, key, v, column), ValueLines(v, k), n) == g.read(t, k, n + ValueSize(v))
    ensures Held(t, WithLast(u, Put(Last(u), key, ValueText(v))), column, v)
  {
    var s := TakenValue(u, key, v, column);
    match v
    case Plain(text) => t := s;
    case Literal(base, body) =>
      ReadBody(g, s, key, column, None, [], base, body, k, n);
      t := BlockRead(s, key, column, base, [], body);
      PutTwice(Last(u), key, [], Trim(Joined(body)));
      assert [] + body == body;
      if body == [] { NothingJoined(); }
  }

  /** `t` is `u` but for what the value may have left open. */
  predicate Held(t: State, u: State, column: nat, v: Value) { Same(t, u, column) && (v.Plain? ==> t.block.None?) }

  /** A blank line or a comment behind a value. */
  lemma {:induction false} GapStep(g: Reader, t: State, u: State, column: nat, v: Value, line: Units, n: nat)
    requires Follows(g) && Held(t, u, column, v) && GapLine(column, v, line)
    ensures Held(g.step(t, line, n), u, column, v)
  {
    assert g.step(t, line, n) == LineStep(t, line, n);
  }

  lemma {:induction false} ReadGaps(g: Reader, t: State, u: State, column: nat, v: Value, lines: seq<Units>, k: seq<Units>, n: nat) returns (m: State)
    requires Follows(g) && Held(t, u, column, v) && GapLines(column, v, lines)
    ensures g.read(t, lines + k, n) == g.read(m, k, n + |lines|) && Held(m, u, column, v)
    decreases |lines|
  {
    if lines == [] {
      m := t;
      assert lines + k == k;
    } else {
      GapStep(g, t, u, column, v, lines[0], n);
      TakeLine(g, t, lines[0], lines[1..] + k, n, g.step(t, lines[0], n));
      m := ReadGaps(g, g.step(t, lines[0], n), u, column, v, lines[1..], k, n + 1);
      assert lines + k == [lines[0]] + (lines[1..] + k);
    }
  }

  /** A line deeper than the step's keys, or blank, or a comment, changes nothing. */
  lemma {:induction false} DeepStep(g: Reader, u: State, at: nat, column: nat, line: Units, n: nat)
    requires Follows(g) && Reading(u, at, column) && Below(column, line)
    ensures g.step(u, line, n) == u
  {
    assert g.step(u, line, n) == LineStep(u, line, n);
  }

  lemma {:induction false} ReadDeep(g: Reader, u: State, at: nat, column: nat, lines: seq<Units>, k: seq<Units>, n: nat)
    requires Follows(g) && Reading(u, at, column) && AllBelow(column, lines)
    ensures g.read(u, lines + k, n) == g.read(u, k, n + |lines|)
    decreases |lines|
  {
    if lines == [] {
      assert lines + k == k;
    } else {
      DeepStep(g, u, at, column, lines[0], n);
      TakeLine(g, u, lines[0], lines[1..] + k, n, u);
      ReadDeep(g, u, at, column, lines[1..], k, n + 1);
      assert lines + k == [lines[0]] + (lines[1..] + k);
    }
  }

  lemma {:induction false} SameLast(u: State)
    requires u.steps != []
    ensures WithLast(u, Last(u)) == u
  {
    assert u.steps[..|u.steps| - 1] + [Last(u)] == u.steps;
  }

  /** All lines below a key's. */
  lemma {:induction false} ReadTail(g: Reader, u: State, e: Entry, at: nat, column: nat, k: seq<Units>, n: nat) returns (t: State)
    requires Follows(g) && Reading(u, at, column) && ValidEntry(column, e)
    ensures g.read(Taken(u, e, column), g.p.tail(e, k), n) == g.read(t, k, n + EntrySize(e))
    ensures Same(t, WithKey(u, e), column)
  {
    assert g.p.tail(e, k) == EntryTail(e, k);
    match e
    case Entry(key, v, after) =>
      var m := ReadValue(g, u, key, v, column, after + k, n);
      t := ReadGaps(g, m, WithKey(u, e), column, v, after, k, n + ValueSize(v));
    case Foreign(_, _, below) =>
      ReadDeep(g, u, at, column, below, k, n);
      SameLast(u);
      t := u;
  }

  lemma {:induction false} NothingJoined()
    ensures Trim(Joined([])) == []
  {
  }

  // ------------------------------------------------------------------ a step's lines

  lemma {:induction false} KeyStep(g: Reader, t: State, u: State, e: Entry, at: nat, column: nat, n: nat)
    requires Follows(g) && Same(t, u, column) && Reading(u, at, column) && ValidEntry(column, e)
    ensures g.step(t, Spaces(column) + KeyText(e), n) == Taken(u, e, column)
  {
    var line := Spaces(column) + KeyText(e);
    KeyTextShape(e, column);
    LineShape(column, KeyText(e));
    ShutLine(t, line, n, column);
    KeyLine(u, e, at, column, n);
    assert g.step(t, line, n) == LineStep(t, line, n);
  }

  /** The step being read, with these keys set. */
  function WithKeys(u: State, entries: seq<Entry>): State
    requires u.steps != []
  {
    WithLast(u, Filled(Last(u), entries))
  }

  /** One more key of the step being read. */
  function WithKey(u: State, e: Entry): State
    requires u.steps != []
  {
    WithLast(u, SetKey(Last(u), e))
  }

  lemma {:induction false} KeyKeepsReading(u: State, e: Entry, at: nat, column: nat)
    requires Reading(u, at, column)
    ensures Reading(WithKey(u, e), at, column)
  {
  }

  lemma {:induction false} KeysFirst(u: State, entries: seq<Entry>)
    requires u.steps != [] && entries != []
    ensures WithKeys(WithKey(u, entries[0]), entries[1..]) == WithKeys(u, entries)
  {
    var w := WithKey(u, entries[0]);
    assert w.steps[..|w.steps| - 1] == u.steps[..|u.steps| - 1];
  }

  /** The state behind these keys, one after the other. */
  function KeysDone(u: State, entries: seq<Entry>): State
    requires u.steps != []
    decreases |entries|
  {
    if entries == [] then u else KeysDone(WithKey(u, entries[0]), entries[1..])
  }

  lemma {:induction false} KeysAllDone(u: State, entries: seq<Entry>)
    requires u.steps != []
    ensures KeysDone(u, entries) == WithKeys(u, entries)
    decreases |entries|
  {
    if entries == [] {
      assert u.steps[..|u.steps| - 1] + [Last(u)] == u.steps;
    } else {
      KeysAllDone(WithKey(u, entries[0]), entries[1..]);
      KeysFirst(u, entries);
    }
  }

  /** A line that takes a key up, and the lines of the key's value. */
  lemma {:induction false} LineThenTail(g: Reader, t: State, line: Units, u: State, e: Entry, at: nat, column: nat, k: seq<Units>, n: nat) returns (m: State)
    requires Follows(g) && Sound(t) && Reading(u, at, column) && ValidEntry(column, e) && g.step(t, line, n) == Taken(u, e, column)
    ensures g.read(t, [line] + g.p.tail(e, k), n) == g.read(m, k, n + 1 + EntrySize(e))
    ensures Same(m, WithKey(u, e), column)
  {
    TakeLine(g, t, line, g.p.tail(e, k), n, Taken(u, e, column));
    m := ReadTail(g, u, e, at, column, k, n + 1);
  }

  /** A key's line and the lines of its value. */
  lemma {:induction false} ReadEntry(g: Reader, t: State, u: State, e: Entry, at: nat, column: nat, k: seq<Units>, n: nat) returns (m: State)
    requires Follows(g) && Same(t, u, column) && Reading(u, at, column) && ValidEntry(column, e)
    ensures g.read(t, [g.p.row(column, e)] + g.p.tail(e, k), n) == g.read(m, k, n + 1 + EntrySize(e))
    ensures Same(m, WithKey(u, e), column)
  {
    KeyStep(g, t, u, e, at, column, n);
    assert g.p.row(column, e) == EntryRow(column, e);
    m := LineThenTail(g, t, EntryRow(column, e), u, e, at, column, k, n);
  }

  lemma {:induction false} ReadEntries(g: Reader, t: State, u: State, at: nat, column: nat, entries: seq<Entry>, k: seq<Units>, n: nat) returns (v: State)
    requires Follows(g) && Same(t, u, column) && Reading(u, at, column) && ValidEntries(column, entries)
    ensures g.read(t, EntriesLines(g.p, entries, column, k), n) == g.read(v, k, AfterEntries(n, entries))
    ensures Same(v, KeysDone(u, entries), column)
    decreases |entries|
  {
    if entries == [] {
      v := t;
    } else {
      var e, more := entries[0], EntriesLines(g.p, entries[1..], column, k);
      var m := ReadEntry(g, t, u, e, at, column, more, n);
      KeyKeepsReading(u, e, at, column);
      var next := n + 1 + EntrySize(e);
      v := ReadEntries(g, m, WithKey(u, e), at, column, entries[1..], k, next);
    }
  }

  /** A step read to its end. */
  function StepDone(u: State, dash: nat, step: Laid, n: nat): State {
    u.(steps := u.steps + [Filled(Blank(n), step.entries)], current := true, itemIndent := Some(dash), keyColumn := Some(Column(dash, step)))
  }

  /** Between two steps of a block whose items stand at `dash`. */
  predicate Among(u: State, at: nat, dash: nat) {
    u.stepsIndent == Some(at) && at <= dash && (u.itemIndent.None? || u.itemIndent == Some(dash)) && Shut(u) == u && Sound(u)
  }

  lemma {:induction false} DashStep(g: Reader, t: State, u: State, c: nat, dash: nat, step: Laid, at: nat, n: nat)
    requires Follows(g) && Same(t, u, c) && dash <= c && Among(u, at, dash)
    requires step.entries != [] && step.gap >= 1 && ValidEntries(Column(dash, step), step.entries)
    ensures g.step(t, DashText(dash, step.gap, KeyText(step.entries[0])), n) == Taken(Opened(u, dash, step, n), step.entries[0], Column(dash, step))
  {
    var e := step.entries[0];
    var line := DashText(dash, step.gap, KeyText(e));
    KeyTextShape(e, Column(dash, step));
    DashShape(dash, step.gap, KeyText(e));
    ShutLine(t, line, n, c);
    DashLine(u, dash, step, at, n);
    assert g.step(t, line, n) == LineStep(t, line, n);
  }

  lemma {:induction false} OpenedReads(u: State, dash: nat, step: Laid, at: nat, n: nat)
    requires Among(u, at, dash) && step.entries != []
    ensures Reading(WithKey(Opened(u, dash, step, n), step.entries[0]), at, Column(dash, step))
    ensures KeysDone(WithKey(Opened(u, dash, step, n), step.entries[0]), step.entries[1..]) == StepDone(u, dash, step, n)
  {
    var o := Opened(u, dash, step, n);
    KeysFirst(o, step.entries);
    KeysAllDone(WithKey(o, step.entries[0]), step.entries[1..]);
    assert o.steps[..|o.steps| - 1] == u.steps;
  }

  /** The line of a step's dash, and the lines of its first value. */
  lemma {:induction false} ReadDash(g: Reader, t: State, u: State, c: nat, dash: nat, step: Laid, at: nat, k: seq<Units>, n: nat) returns (m: State)
    requires Follows(g) && Same(t, u, c) && dash <= c && Among(u, at, dash)
    requires step.entries != [] && step.gap >= 1 && ValidEntries(Column(dash, step), step.entries)
    ensures g.read(t, [g.p.dash(dash, step)] + g.p.tail(step.entries[0], k), n)
      == g.read(m, k, n + 1 + EntrySize(step.entries[0]))
    ensures Same(m, WithKey(Opened(u, dash, step, n), step.entries[0]), Column(dash, step))
  {
    DashStep(g, t, u, c, dash, step, at, n);
    var o, e := Opened(u, dash, step, n), step.entries[0];
    assert g.p.dash(dash, step) == DashRow(dash, step);
    m := LineThenTail(g, t, DashRow(dash, step), o, e, at, Column(dash, step), k, n);
  }

  lemma {:induction false} ReadStep(g: Reader, t: State, u: State, c: nat, dash: nat, step: Laid, at: nat, k: seq<Units>, n: nat) returns (v: State)
    requires Follows(g) && Same(t, u, c) && dash <= c && Among(u, at, dash)
    requires step.entries != [] && step.gap >= 1 && ValidEntries(Column(dash, step), step.entries)
    ensures g.read(t, StepLines(g.p, dash, step, k), n) == g.read(v, k, AfterEntries(n, step.entries))
    ensures Same(v, StepDone(u, dash, step, n), Column(dash, step))
  {
    var e, column := step.entries[0], Column(dash, step);
    var m := ReadDash(g, t, u, c, dash, step, at, EntriesLines(g.p, step.entries[1..], column, k), n);
    var w := WithKey(Opened(u, dash, step, n), e);
    assert Reading(w, at, column) && KeysDone(w, step.entries[1..]) == StepDone(u, dash, step, n) by { OpenedReads(u, dash, step, at, n); }
    var next := n + 1 + EntrySize(e);
    v := ReadEntries(g, m, w, at, column, step.entries[1..], k, next);
  }

  /** The state behind a block's steps. */
  function StepsDone(u: State, dash: nat, steps: seq<Laid>, n: nat): State
    decreases |steps|
  {
    if steps == [] then u else StepsDone(StepDone(u, dash, steps[0], n), dash, steps[1..], AfterEntries(n, steps[0].entries))
  }

  /** What it holds: the block is still open, and its steps have been added. */
  lemma {:induction false} StepsAdded(u: State, dash: nat, steps: seq<Laid>, n: nat)
    ensures var w := StepsDone(u, dash, steps, n);
      w.steps == u.steps + StepsRead(steps, n) && w.stepsIndent == u.stepsIndent && w.parents == u.parents
    decreases |steps|
  {
    if steps == [] {
      assert u.steps + [] == u.steps;
    } else {
      var x := StepDone(u, dash, steps[0], n);
      var more := StepsRead(steps[1..], AfterEntries(n, steps[0].entries));
      StepsAdded(x, dash, steps[1..], AfterEntries(n, steps[0].entries));
      assert x.steps + more == u.steps + ([Filled(Blank(n), steps[0].entries)] + more);
    }
  }

  lemma {:induction false} DoneAmong(u: State, dash: nat, step: Laid, at: nat, n: nat)
    requires Among(u, at, dash)
    ensures Among(StepDone(u, dash, step, n), at, dash)
  {
  }

  /** A block's steps, each read to its end. */
  lemma {:induction false} ReadSteps(g: Reader, t: State, u: State, c: nat, column: nat, dash: nat, steps: seq<Laid>, at: nat, k: seq<Units>, n: nat)
    returns (v: State, d: nat)
    requires Follows(g) && Same(t, u, c) && dash <= c && at <= c && Among(u, at, dash) && ValidSteps(column, dash, steps)
    ensures g.read(t, StepsLines(g.p, dash, steps, k), n) == g.read(v, k, AfterSteps(n, steps))
    ensures Same(v, StepsDone(u, dash, steps, n), d) && at <= d
    decreases |steps|
  {
    if steps == [] {
      v, d := t, c;
    } else {
      var m := ReadStep(g, t, u, c, dash, steps[0], at, StepsLines(g.p, dash, steps[1..], k), n);
      DoneAmong(u, dash, steps[0], at, n);
      v, d := ReadSteps(g, m, StepDone(u, dash, steps[0], n), Column(dash, steps[0]), column, dash, steps[1..], at, k,
                        AfterEntries(n, steps[0].entries));
    }
  }

  // ------------------------------------------------------------------ outside the steps blocks

  /** Outside every steps block. */
  function Outside(steps: seq<Step>, parents: seq<Parent>): State { State(steps, false, None, None, None, None, None, parents) }

  /** A state that a line at `at` or less deep closes: outside already, or behind a block's last step. */
  predicate Closable(s: State, steps: seq<Step>, parents: seq<Parent>, at: nat) {
    s == Outside(steps, parents)
    || (Sound(s) && s.steps == steps && s.parents == parents && s.stepsIndent == Some(at)
        && (s.block.Some? ==> s.block.value.keyIndent >= at))
  }

  /** A line of the enclosing structure is read outside. */
  lemma {:induction false} CloseLine(g: Reader, s: State, steps: seq<Step>, parents: seq<Parent>, at: nat, line: Units, n: nat)
    requires Follows(g) && Closable(s, steps, parents, at) && IndentOf(line) <= at && !IsBlank(line) && !IsComment(line) && !IsFlushDash(line)
    ensures g.step(s, line, n) == OuterLine(Outside(steps, parents), line, n)
  {
    assert g.step(s, line, n) == LineStep(s, line, n);
  }

  lemma {:induction false} RowShape(column: nat, key: Units, rest: Units)
    requires IsKeyText(key) && AllDot(rest)
    ensures var line := KeyRow(column, key, rest);
      && !IsBlank(line) && !IsComment(line) && !IsFlushDash(line) && IndentOf(line) == column
      && KeyAt(line[column..]) == Some(Pair(key, rest))
  {
    var u := key + ([COLON] + rest);
    var line := Spaces(column) + u;
    assert u[0] == key[0];
    LineShape(column, u);
    KeyReads(key, rest);
    assert line[column] == u[0];
  }

  /** What a key line outside does to the parents. */
  function Entered(parents: seq<Parent>, column: nat, key: Units): seq<Parent> { PopParents(parents, column) + [Parent(column, key)] }

  predicate AtJobChild(parents: seq<Parent>, column: nat) {
    |PopParents(parents, column)| == 2 && PopParents(parents, column)[0].key == JOBS
  }

  /** A key of a job, or of anything, that opens no steps. */
  lemma {:induction false} PlainRow(g: Reader, s: State, steps: seq<Step>, parents: seq<Parent>, at: nat, column: nat, key: Units, rest: Units, n: nat)
    requires Follows(g) && Closable(s, steps, parents, at) && column <= at && IsKeyText(key) && AllDot(rest)
    requires key != STEPS || !AtJobChild(parents, column)
    ensures g.step(s, KeyRow(column, key, rest), n) == Outside(steps, Entered(parents, column, key))
  {
    RowShape(column, key, rest);
    CloseLine(g, s, steps, parents, at, KeyRow(column, key, rest), n);
  }

  /** A job's `steps:` opens a block. */
  lemma {:induction false} StepsRow(g: Reader, s: State, steps: seq<Step>, parents: seq<Parent>, at: nat, column: nat, n: nat)
    requires Follows(g) && Closable(s, steps, parents, at) && column <= at && AtJobChild(parents, column)
    ensures g.step(s, KeyRow(column, STEPS, []), n) == Outside(steps, Entered(parents, column, STEPS)).(stepsIndent := Some(column))
  {
    assert IsWordText(STEPS) && STEPS[0] == 115;
    RowShape(column, STEPS, []);
    CloseLine(g, s, steps, parents, at, KeyRow(column, STEPS, []), n);
    assert Trim(Uncomment([])) == [];
  }

  lemma {:induction false} PopTo(parents: seq<Parent>, d: nat, m: nat)
    requires m <= |parents| && (forall i :: m <= i < |parents| ==> parents[i].indent >= d) && (m > 0 ==> parents[m - 1].indent < d)
    ensures PopParents(parents, d) == parents[..m]
  {
    if |parents| > m {
      PopTo(parents[..|parents| - 1], d, m);
      assert parents[..|parents| - 1][..m] == parents[..m];
    } else {
      assert parents[..m] == parents;
    }
  }

  /** Inside a job: `jobs`, the job, and whatever of its keys is open. */
  predicate InJob(w: Workflow, parents: seq<Parent>) {
    |parents| >= 2 && parents[0] == Parent(0, JOBS) && parents[1].indent == w.jobColumn
    && forall i :: 2 <= i < |parents| ==> parents[i].indent >= w.childColumn
  }

  lemma {:induction false} JobChildren(w: Workflow, parents: seq<Parent>, key: Units)
    requires InJob(w, parents) && 0 < w.jobColumn < w.childColumn
    ensures AtJobChild(parents, w.childColumn)
    ensures var e := Entered(parents, w.childColumn, key); InJob(w, e) && |e| == 3 && e[2] == Parent(w.childColumn, key)
  {
    PopTo(parents, w.childColumn, 2);
  }

  /** Below a key of a job: its parents stay, and what is pushed is deeper. */
  predicate BelowKey(w: Workflow, parents: seq<Parent>) {
    InJob(w, parents) && |parents| >= 3 && parents[2].indent == w.childColumn && forall i :: 3 <= i < |parents| ==> parents[i].indent > w.childColumn
  }

  lemma {:induction false} PopKeeps(w: Workflow, parents: seq<Parent>, d: nat)
    requires BelowKey(w, parents) && d > w.childColumn > w.jobColumn
    ensures BelowKey(w, PopParents(parents, d)) && PopParents(parents, d)[..3] == parents[..3]
  {
    if parents[|parents| - 1].indent >= d { PopKeeps(w, parents[..|parents| - 1], d); }
  }

  lemma {:induction false} BelowLine(g: Reader, w: Workflow, steps: seq<Step>, parents: seq<Parent>, line: Units, n: nat) returns (after: seq<Parent>)
    requires Follows(g) && BelowKey(w, parents) && w.childColumn > w.jobColumn && Below(w.childColumn, line)
    ensures g.step(Outside(steps, parents), line, n) == Outside(steps, after) && BelowKey(w, after)
  {
    var s := Outside(steps, parents);
    assert g.step(s, line, n) == LineStep(s, line, n);
    if IsBlank(line) || IsComment(line) {
      after := parents;
    } else {
      var d := IndentOf(line);
      PopKeeps(w, parents, d);
      var found := KeyAt(line[d..]);
      after := PopParents(parents, d) + if found.Some? && AllDot(found.value.rest) then [Parent(d, found.value.key)] else [];
    }
  }

  lemma {:induction false} ReadBelow(g: Reader, w: Workflow, steps: seq<Step>, parents: seq<Parent>, below: seq<Units>, k: seq<Units>, n: nat)
    returns (after: seq<Parent>)
    requires Follows(g) && BelowKey(w, parents) && w.childColumn > w.jobColumn && AllBelow(w.childColumn, below)
    ensures g.read(Outside(steps, parents), below + k, n) == g.read(Outside(steps, after), k, n + |below|) && BelowKey(w, after)
    decreases |below|
  {
    if below == [] {
      after := parents;
      assert below + k == k;
    } else {
      var m := BelowLine(g, w, steps, parents, below[0], n);
      TakeLine(g, Outside(steps, parents), below[0], below[1..] + k, n, Outside(steps, m));
      after := ReadBelow(g, w, steps, m, below[1..], k, n + 1);
      assert below + k == [below[0]] + (below[1..] + k);
    }
  }

  // ------------------------------------------------------------------ jobs

  /** A job's block of steps, just opened. */
  function BlockOpened(w: Workflow, steps: seq<Step>, parents: seq<Parent>): State {
    Outside(steps, Entered(parents, w.childColumn, STEPS)).(stepsIndent := Some(w.childColumn))
  }

  lemma {:induction false} OpenBlock(g: Reader, w: Workflow, s: State, steps: seq<Step>, parents: seq<Parent>, dash: nat, n: nat)
    requires Follows(g) && 0 < w.jobColumn < w.childColumn <= dash && Closable(s, steps, parents, w.childColumn) && InJob(w, parents)
    ensures var u := BlockOpened(w, steps, parents);
      g.step(s, KeyRow(w.childColumn, STEPS, []), n) == u && Same(u, u, dash) && Among(u, w.childColumn, dash)
    ensures InJob(w, Entered(parents, w.childColumn, STEPS))
  {
    JobChildren(w, parents, STEPS);
    StepsRow(g, s, steps, parents, w.childColumn, w.childColumn, n);
  }

  lemma {:induction false} BlockClosable(w: Workflow, t: State, d: nat, steps: seq<Step>, parents: seq<Parent>, dash: nat, laid: seq<Laid>, n: nat)
    requires Same(t, StepsDone(BlockOpened(w, steps, parents), dash, laid, n), d) && w.childColumn <= d
    ensures Closable(t, steps + StepsRead(laid, n), Entered(parents, w.childColumn, STEPS), w.childColumn)
  {
    StepsAdded(BlockOpened(w, steps, parents), dash, laid, n);
  }

  /** Blank lines and comments change nothing where no scalar is open. */
  lemma {:induction false} ReadLead(g: Reader, u: State, lines: seq<Units>, k: seq<Units>, n: nat)
    requires Follows(g) && Sound(u) && Shut(u) == u && AllGap(lines)
    ensures g.read(u, lines + k, n) == g.read(u, k, n + |lines|)
    decreases |lines|
  {
    if lines == [] {
      assert lines + k == k;
    } else {
      assert g.step(u, lines[0], n) == LineStep(u, lines[0], n);
      TakeLine(g, u, lines[0], lines[1..] + k, n, u);
      ReadLead(g, u, lines[1..], k, n + 1);
      assert lines + k == [lines[0]] + (lines[1..] + k);
    }
  }

  lemma {:induction false} ReadStepsChild(g: Reader, w: Workflow, s: State, steps: seq<Step>, parents: seq<Parent>, lead: seq<Units>, dash: nat,
                                          laid: seq<Laid>, k: seq<Units>, n: nat) returns (t: State)
    requires Follows(g) && 0 < w.jobColumn < w.childColumn <= dash && AllGap(lead)
    requires Closable(s, steps, parents, w.childColumn) && InJob(w, parents) && ValidSteps(w.childColumn, dash, laid)
    ensures g.read(s, [KeyRow(w.childColumn, STEPS, [])] + (lead + StepsLines(g.p, dash, laid, k)), n)
      == g.read(t, k, AfterSteps(n + 1 + |lead|, laid))
    ensures var after := Entered(parents, w.childColumn, STEPS);
      Closable(t, steps + StepsRead(laid, n + 1 + |lead|), after, w.childColumn) && InJob(w, after)
  {
    var column, u, m := w.childColumn, BlockOpened(w, steps, parents), n + 1 + |lead|;
    OpenBlock(g, w, s, steps, parents, dash, n);
    TakeLine(g, s, KeyRow(column, STEPS, []), lead + StepsLines(g.p, dash, laid, k), n, u);
    ReadLead(g, u, lead, StepsLines(g.p, dash, laid, k), n + 1);
    var d;
    t, d := ReadSteps(g, u, u, dash, column, dash, laid, column, k, m);
    BlockClosable(w, t, d, steps, parents, dash, laid, m);
  }

  lemma {:induction false} ReadOther(g: Reader, w: Workflow, s: State, steps: seq<Step>, parents: seq<Parent>, key: Units, rest: Units, below: seq<Units>, k: seq<Units>, n: nat)
    returns (t: State, after: seq<Parent>)
    requires Follows(g) && 0 < w.jobColumn < w.childColumn && Closable(s, steps, parents, w.childColumn) && InJob(w, parents)
    requires IsKeyText(key) && key != STEPS && AllDot(rest) && AllBelow(w.childColumn, below)
    ensures g.read(s, [KeyRow(w.childColumn, key, rest)] + (below + k), n) == g.read(t, k, n + 1 + |below|)
    ensures Closable(t, steps, after, w.childColumn) && InJob(w, after)
  {
    var column := w.childColumn;
    JobChildren(w, parents, key);
    PlainRow(g, s, steps, parents, column, column, key, rest, n);
    var m := Entered(parents, column, key);
    TakeLine(g, s, KeyRow(column, key, rest), below + k, n, Outside(steps, m));
    after := ReadBelow(g, w, steps, m, below, k, n + 1);
    t := Outside(steps, after);
  }

  /** One key of a job, and all its lines. */
  lemma {:induction false} ReadChild(g: Reader, w: Workflow, s: State, steps: seq<Step>, parents: seq<Parent>, c: Child, k: seq<Units>, n: nat)
    returns (t: State, after: seq<Parent>)
    requires Follows(g) && 0 < w.jobColumn < w.childColumn
    requires Closable(s, steps, parents, w.childColumn) && InJob(w, parents) && ValidChild(w.childColumn, c)
    ensures g.read(s, g.child(w.childColumn, c, k), n) == g.read(t, k, AfterChild(n, c))
    ensures Closable(t, steps + ChildRead(c, n), after, w.childColumn) && InJob(w, after)
  {
    assert g.child(w.childColumn, c, k) == ChildText(g.p, w.childColumn, c, k);
    if c.StepsOf? {
      t, after := ReadStepsOf(g, w, s, steps, parents, c, k, n);
    } else {
      t, after := ReadOther(g, w, s, steps, parents, c.key, c.rest, c.below, k, n);
      assert steps + [] == steps;
    }
  }

  lemma {:induction false} ReadStepsOf(g: Reader, w: Workflow, s: State, steps: seq<Step>, parents: seq<Parent>, c: Child, k: seq<Units>, n: nat)
    returns (t: State, after: seq<Parent>)
    requires Follows(g) && 0 < w.jobColumn < w.childColumn && c.StepsOf?
    requires Closable(s, steps, parents, w.childColumn) && InJob(w, parents) && ValidChild(w.childColumn, c)
    ensures g.read(s, ChildText(g.p, w.childColumn, c, k), n) == g.read(t, k, AfterChild(n, c))
    ensures Closable(t, steps + ChildRead(c, n), after, w.childColumn) && InJob(w, after)
  {
    t := ReadStepsChild(g, w, s, steps, parents, c.lead, c.dash, c.steps, k, n);
    after := Entered(parents, w.childColumn, STEPS);
  }

  lemma {:induction false} Associates(a: seq<Step>, b: seq<Step>, c: seq<Step>)
    ensures a + b + c == a + (b + c)
  {}

  /** Steps added child by child. */
  function AddChildren(steps: seq<Step>, children: seq<Child>, n: nat): seq<Step>
    decreases |children|
  {
    if children == [] then steps else AddChildren(steps + ChildRead(children[0], n), children[1..], AfterChild(n, children[0]))
  }

  lemma {:induction false} ChildrenAdded(steps: seq<Step>, children: seq<Child>, n: nat)
    ensures AddChildren(steps, children, n) == steps + ChildrenRead(children, n)
    decreases |children|
  {
    if children == [] {
      assert steps + [] == steps;
    } else {
      var c := children[0];
      ChildrenAdded(steps + ChildRead(c, n), children[1..], AfterChild(n, c));
      Associates(steps, ChildRead(c, n), ChildrenRead(children[1..], AfterChild(n, c)));
    }
  }

  lemma {:induction false} ReadChildren(g: Reader, w: Workflow, s: State, steps: seq<Step>, parents: seq<Parent>, children: seq<Child>, k: seq<Units>, n: nat)
    returns (t: State, after: seq<Parent>)
    requires Follows(g) && 0 < w.jobColumn < w.childColumn
    requires Closable(s, steps, parents, w.childColumn) && InJob(w, parents) && ValidChildren(w.childColumn, children)
    ensures g.read(s, ChildrenLines(g.child, w.childColumn, children, k), n) == g.read(t, k, AfterChildren(n, children))
    ensures Closable(t, AddChildren(steps, children, n), after, w.childColumn) && InJob(w, after)
    decreases |children|
  {
    if children == [] {
      t, after := s, parents;
    } else {
      var c := children[0];
      var m, p := ReadChild(g, w, s, steps, parents, c, ChildrenLines(g.child, w.childColumn, children[1..], k), n);
      t, after := ReadChildren(g, w, m, steps + ChildRead(c, n), p, children[1..], k, AfterChild(n, c));
    }
  }

  /** Under `jobs:`: its parents, once anything deeper is popped. */
  predicate UnderJobs(w: Workflow, parents: seq<Parent>) {
    parents == [Parent(0, JOBS)] || InJob(w, parents)
  }

  function JobParents(w: Workflow, name: Units): seq<Parent> { [Parent(0, JOBS), Parent(w.jobColumn, name)] }

  /** The line of a job's name. */
  lemma {:induction false} JobRow(g: Reader, w: Workflow, s: State, steps: seq<Step>, parents: seq<Parent>, name: Units, n: nat)
    requires Follows(g) && 0 < w.jobColumn < w.childColumn && IsKeyText(name)
    requires Closable(s, steps, parents, w.childColumn) && UnderJobs(w, parents)
    ensures g.step(s, KeyRow(w.jobColumn, name, []), n) == Outside(steps, JobParents(w, name)) && InJob(w, JobParents(w, name))
  {
    PopTo(parents, w.jobColumn, 1);
    assert parents[..1] == [Parent(0, JOBS)];
    PlainRow(g, s, steps, parents, w.childColumn, w.jobColumn, name, [], n);
    assert Entered(parents, w.jobColumn, name) == JobParents(w, name);
  }

  lemma {:induction false} ReadJob(g: Reader, w: Workflow, s: State, steps: seq<Step>, parents: seq<Parent>, j: Job, k: seq<Units>, n: nat)
    returns (t: State, after: seq<Parent>)
    requires Follows(g) && g.child == ChildLines && 0 < w.jobColumn < w.childColumn
    requires IsKeyText(j.name) && AllGap(j.lead) && ValidChildren(w.childColumn, j.children)
    requires Closable(s, steps, parents, w.childColumn) && UnderJobs(w, parents)
    ensures g.read(s, g.job(w, j, k), n) == g.read(t, k, AfterChildren(n + 1 + |j.lead|, j.children))
    ensures Closable(t, steps + ChildrenRead(j.children, n + 1 + |j.lead|), after, w.childColumn) && InJob(w, after)
  {
    assert g.job(w, j, k) == JobLines(w, j, k);
    var p, m := JobParents(w, j.name), n + 1 + |j.lead|;
    var lines := ChildrenLines(g.child, w.childColumn, j.children, k);
    JobRow(g, w, s, steps, parents, j.name, n);
    TakeLine(g, s, KeyRow(w.jobColumn, j.name, []), j.lead + lines, n, Outside(steps, p));
    ReadLead(g, Outside(steps, p), j.lead, lines, n + 1);
    t, after := ReadChildren(g, w, Outside(steps, p), steps, p, j.children, k, m);
    ChildrenAdded(steps, j.children, m);
  }

  function AddJobs(steps: seq<Step>, jobs: seq<Job>, n: nat): seq<Step>
    decreases |jobs|
  {
    if jobs == [] then steps
    else
      var m := n + 1 + |jobs[0].lead|;
      AddJobs(steps + ChildrenRead(jobs[0].children, m), jobs[1..], AfterChildren(m, jobs[0].children))
  }

  lemma {:induction false} JobsAdded(steps: seq<Step>, jobs: seq<Job>, n: nat)
    ensures AddJobs(steps, jobs, n) == steps + JobsRead(jobs, n)
    decreases |jobs|
  {
    if jobs == [] {
      assert steps + [] == steps;
    } else {
      var at := n + 1 + |jobs[0].lead|;
      var a, m := ChildrenRead(jobs[0].children, at), AfterChildren(at, jobs[0].children);
      JobsAdded(steps + a, jobs[1..], m);
      Associates(steps, a, JobsRead(jobs[1..], m));
    }
  }

  lemma {:induction false} ReadJobs(g: Reader, w: Workflow, s: State, steps: seq<Step>, parents: seq<Parent>, jobs: seq<Job>, n: nat) returns (t: State, last: nat)
    requires Follows(g) && g.child == ChildLines && 0 < w.jobColumn < w.childColumn && ValidJobs(w, jobs)
    requires Closable(s, steps, parents, w.childColumn) && UnderJobs(w, parents)
    ensures g.read(s, JobsLines(g.job, w, jobs, []), n) == g.read(t, [], last) && t.steps == AddJobs(steps, jobs, n)
    decreases |jobs|
  {
    if jobs == [] {
      t, last := s, n;
    } else {
      var j := jobs[0];
      var m, after := ReadJob(g, w, s, steps, parents, j, JobsLines(g.job, w, jobs[1..], []), n);
      var at := n + 1 + |j.lead|;
      t, last := ReadJobs(g, w, m, steps + ChildrenRead(j.children, at), after, jobs[1..], AfterChildren(at, j.children));
    }
  }

  // ------------------------------------------------------------------ the whole workflow

  predicate NoJobs(parents: seq<Parent>) { forall i :: 0 <= i < |parents| ==> parents[i].key != JOBS }

  lemma {:induction false} PopNoJobs(parents: seq<Parent>, d: nat)
    requires NoJobs(parents)
    ensures NoJobs(PopParents(parents, d))
  {
    if parents != [] && parents[|parents| - 1].indent >= d { PopNoJobs(parents[..|parents| - 1], d); }
  }

  lemma {:induction false} PreambleLine(g: Reader, parents: seq<Parent>, line: Units, n: nat) returns (after: seq<Parent>)
    requires Follows(g) && NoJobs(parents)
    requires var key := KeyAt(line[IndentOf(line)..]); key.Some? ==> key.value.key != JOBS
    ensures g.step(Outside([], parents), line, n) == Outside([], after) && NoJobs(after)
  {
    var s := Outside([], parents);
    assert g.step(s, line, n) == LineStep(s, line, n);
    if IsBlank(line) || IsComment(line) {
      after := parents;
    } else {
      var d := IndentOf(line);
      PopNoJobs(parents, d);
      var found := KeyAt(line[d..]);
      after := PopParents(parents, d) + if found.Some? && AllDot(found.value.rest) then [Parent(d, found.value.key)] else [];
    }
  }

  lemma {:induction false} ReadPreamble(g: Reader, parents: seq<Parent>, lines: seq<Units>, k: seq<Units>, n: nat) returns (after: seq<Parent>)
    requires Follows(g) && NoJobs(parents) && ValidPreamble(lines)
    ensures g.read(Outside([], parents), lines + k, n) == g.read(Outside([], after), k, n + |lines|) && NoJobs(after)
    decreases |lines|
  {
    if lines == [] {
      after := parents;
      assert lines + k == k;
    } else {
      var m := PreambleLine(g, parents, lines[0], n);
      TakeLine(g, Outside([], parents), lines[0], lines[1..] + k, n, Outside([], m));
      after := ReadPreamble(g, m, lines[1..], k, n + 1);
      assert lines + k == [lines[0]] + (lines[1..] + k);
    }
  }

  /** The line `jobs:`. */
  lemma {:induction false} JobsRow(g: Reader, parents: seq<Parent>, n: nat)
    requires Follows(g) && NoJobs(parents)
    ensures g.step(Outside([], parents), KeyRow(0, JOBS, []), n) == Outside([], [Parent(0, JOBS)])
  {
    assert IsWordText(JOBS) && JOBS[0] == 106 && JOBS != STEPS;
    PopTo(parents, 0, 0);
    PlainRow(g, Outside([], parents), [], parents, 0, 0, JOBS, [], n);
    assert Entered(parents, 0, JOBS) == [Parent(0, JOBS)];
  }

  function ReaderOf(): Reader {
    Reader((s, line, n) => if Sound(s) && n >= 0 then LineStep(s, line, n) else s,
           (s, lines, n) => if Sound(s) && n >= 0 then ReadAll(s, lines, n) else s, PLAINLY, ChildLines, JobLines)
  }

  lemma {:induction false} ReadsOneLine(s: State, line: Units, rest: seq<Units>, n: nat)
    requires Sound(s)
    ensures ReadAll(s, [line] + rest, n) == ReadAll(LineStep(s, line, n), rest, n + 1)
  {
    assert ([line] + rest)[1..] == rest;
  }

  lemma {:induction false} ReaderFollows()
    ensures Follows(ReaderOf())
  {
    var g := ReaderOf();
    forall s, line, rest, n: nat | Sound(s) ensures g.read(s, [line] + rest, n) == g.read(g.step(s, line, n), rest, n + 1) {
      ReadsOneLine(s, line, rest, n);
    }
  }

  lemma {:induction false} ReadWorkflow(g: Reader, w: Workflow) returns (t: State, last: nat)
    requires Follows(g) && g.child == ChildLines && g.job == JobLines && ValidWorkflow(w)
    ensures g.read(Outside([], []), WorkflowText(w), 1) == g.read(t, [], last) && t.steps == JobsRead(w.jobs, FirstJob(w))
  {
    var n := 1 + |w.preamble|;
    var lines := JobsLines(g.job, w, w.jobs, []);
    var p := ReadPreamble(g, [], w.preamble, [KeyRow(0, JOBS, [])] + (w.lead + lines), 1);
    JobsRow(g, p, n);
    var u, m := Outside([], [Parent(0, JOBS)]), FirstJob(w);
    TakeLine(g, Outside([], p), KeyRow(0, JOBS, []), w.lead + lines, n, u);
    ReadLead(g, u, w.lead, lines, n + 1);
    t, last := ReadJobs(g, w, u, [], [Parent(0, JOBS)], w.jobs, m);
    JobsAdded([], w.jobs, m);
    assert [] + JobsRead(w.jobs, m) == JobsRead(w.jobs, m);
  }

  lemma {:induction false} FilledPlainly(step: Step, entries: seq<Entry>)
    ensures Filled(step, entries).unparsed == step.unparsed && Filled(step, entries).line == step.line
    decreases |entries|
  {
    if entries != [] { FilledPlainly(SetKey(step, entries[0]), entries[1..]); }
  }

  predicate NoneRefused(steps: seq<Step>) { forall i :: 0 <= i < |steps| ==> steps[i].unparsed == [] }

  lemma {:induction false} StepsUnrefused(steps: seq<Laid>, n: nat)
    ensures NoneRefused(StepsRead(steps, n))
    decreases |steps|
  {
    if steps != [] {
      FilledPlainly(Blank(n), steps[0].entries);
      StepsUnrefused(steps[1..], AfterEntries(n, steps[0].entries));
    }
  }

  lemma {:induction false} ChildrenUnrefused(children: seq<Child>, n: nat)
    ensures NoneRefused(ChildrenRead(children, n))
    decreases |children|
  {
    if children != [] {
      if children[0].StepsOf? { StepsUnrefused(children[0].steps, n + 1 + |children[0].lead|); }
      ChildrenUnrefused(children[1..], AfterChild(n, children[0]));
    }
  }

  lemma {:induction false} JobsUnrefused(jobs: seq<Job>, n: nat)
    ensures NoneRefused(JobsRead(jobs, n))
    decreases |jobs|
  {
    if jobs != [] {
      var m := n + 1 + |jobs[0].lead|;
      ChildrenUnrefused(jobs[0].children, m);
      JobsUnrefused(jobs[1..], AfterChildren(m, jobs[0].children));
    }
  }

  /**
   The reader gives back exactly the steps of every job of a printed workflow, in order, each with the keys
   that are read, the line of its dash, and no refusal: keys that are not read, the deeper lines they have,
   blank lines and comments change nothing.
   */
  lemma {:induction false} WorkflowReads(w: Workflow)
    requires ValidWorkflow(w)
    ensures ReadAll(START, WorkflowText(w), 1).steps == JobsRead(w.jobs, FirstJob(w))
    ensures NoneRefused(ReadAll(START, WorkflowText(w), 1).steps)
  {
    var g := ReaderOf();
    JobsUnrefused(w.jobs, FirstJob(w));
    ReaderFollows();
    var t, last := ReadWorkflow(g, w);
    assert g.read(Outside([], []), WorkflowText(w), 1) == ReadAll(START, WorkflowText(w), 1);
    assert g.read(t, [], last) == t;
  }
}
