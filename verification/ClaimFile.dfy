/**
 Claim files (scripts/lib/claims.js:549-588, 850-895; scripts/lib/claim-append.js:215-248, 695-716): claim
 blocks are found in a text, read, and checked; a section appended to a text adds its record and changes
 nothing else.
 */
module ClaimFile {
  import opened Options
  import opened CodeUnits
  import opened ClaimText
  import opened ClaimYaml
  import P = ClaimPrint
  import opened ClaimFields
  import opened ClaimSchema

  const TICK: nat := P.TICK

  // ------------------------------------------------------------------ fences

  function Ticks(u: Units): (n: nat)
    ensures n <= |u| && forall i :: 0 <= i < n ==> u[i] == TICK
  {
    if u == [] || u[0] != TICK then 0 else 1 + Ticks(u[1..])
  }

  datatype Fence = Fence(ticks: nat, info: Units)

  /** A line that opens a fence: three back-ticks or more, and no other after them. */
  function Opening(line: Units): Option<Fence> {
    var t := Trim(line);
    var k := Ticks(t);
    if k < 3 || TICK in t[k..] then None else Some(Fence(k, Trim(t[k..])))
  }

  /** A line that closes a fence of so many back-ticks. */
  predicate ClosesFence(line: Units, ticks: nat) {
    var t := Trim(line);
    Ticks(t) == |t| && |t| >= 3 && |t| >= ticks
  }

  function CloseFrom(lines: seq<Units>, j: nat, ticks: nat): (r: Option<nat>)
    ensures r.Some? ==> j <= r.value < |lines|
    decreases |lines| - j
  {
    if j >= |lines| then None else if ClosesFence(lines[j], ticks) then Some(j) else CloseFrom(lines, j + 1, ticks)
  }

  /** A block of claims, the number of its first line, and whether a fence holds it or the frontmatter. */
  datatype Block = Block(yaml: Units, line: nat, fenced: bool)

  /** What a line does to the search: nothing, a fence never closed, or a fence whose end is known. */
  datatype Turn = Skip | Broken(claims: bool) | Past(close: nat, claims: bool)

  function TurnAt(lines: seq<Units>, i: nat): (t: Turn)
    requires i < |lines|
    ensures t.Past? ==> i < t.close < |lines|
  {
    var open := Opening(lines[i]);
    if open.None? then Skip
    else
      var claims := open.value.info == Name(Claims);
      var close := CloseFrom(lines, i + 1, open.value.ticks);
      if close.None? then Broken(claims) else Past(close.value, claims)
  }

  function FencedBlock(lines: seq<Units>, i: nat, close: nat): Block
    requires i < close <= |lines|
  {
    Block(Glue(lines[i + 1..close], NEWLINE), i + 2, true)
  }

  function FencesFrom(lines: seq<Units>, i: nat, blocks: seq<Block>): Option<seq<Block>>
    decreases |lines| - i
  {
    if i >= |lines| then Some(blocks)
    else
      match TurnAt(lines, i)
      case Skip => FencesFrom(lines, i + 1, blocks)
      case Broken(claims) => if claims then None else Some(blocks)
      case Past(close, claims) =>
        FencesFrom(lines, close + 1, if claims then blocks + [FencedBlock(lines, i, close)] else blocks)
  }

  // ------------------------------------------------------------------ frontmatter

  predicate Ruled(line: Units) { |line| >= 3 && line[0] == DASH && line[1] == DASH && line[2] == DASH }

  /** The first line from `j` on that starts with three dashes. */
  function RuleFrom(lines: seq<Units>, j: nat): (r: Option<nat>)
    ensures r.Some? ==> j <= r.value < |lines|
    decreases |lines| - j
  {
    if j >= |lines| then None else if Ruled(lines[j]) then Some(j) else RuleFrom(lines, j + 1)
  }

  /** The lines between a first line of three dashes and the next line but one or later that starts with them. */
  function FrontLines(lines: seq<Units>): Option<seq<Units>> {
    if |lines| < 2 || lines[0] != [DASH, DASH, DASH] then None
    else
      var end := RuleFrom(lines, 2);
      if end.None? then None else Some(lines[1..end.value])
  }

  /** /^claims\s*:\s*$/ */
  predicate ClaimsHeader(line: Units) {
    Name(Claims) <= line &&
    var rest := TrimLeft(line[|Name(Claims)|..]);
    rest != [] && rest[0] == COLON && TrimLeft(rest[1..]) == []
  }

  function HeaderFrom(lines: seq<Units>, i: nat): (r: Option<nat>)
    ensures r.Some? ==> i <= r.value < |lines|
    decreases |lines| - i
  {
    if i >= |lines| then None else if ClaimsHeader(lines[i]) then Some(i) else HeaderFrom(lines, i + 1)
  }

  /** The end of the frontmatter's claims: a line that starts with neither space nor dash. */
  function CollectedTo(lines: seq<Units>, i: nat): (j: nat)
    requires i <= |lines|
    ensures i <= j <= |lines|
    decreases |lines| - i
  {
    if i == |lines| then i
    else if lines[i] != [] && !IsSpace(lines[i][0]) && lines[i][0] != DASH then i
    else CollectedTo(lines, i + 1)
  }

  function FrontBlocks(lines: seq<Units>): seq<Block> {
    var front := FrontLines(lines);
    if front.None? then []
    else
      var start := HeaderFrom(front.value, 0);
      if start.None? then []
      else
        [Block(Glue(front.value[start.value..CollectedTo(front.value, start.value + 1)], NEWLINE), start.value + 2, false)]
  }

  /** extractClaimBlocks: None where the code throws. */
  function Blocks(lines: seq<Units>): Option<seq<Block>> {
    var fenced := FencesFrom(lines, 0, []);
    if fenced.None? then None else Some(fenced.value + FrontBlocks(lines))
  }

  method ExtractClaimBlocks(text: Units) returns (r: Option<seq<Block>>)
    ensures r == Blocks(Split(text, NEWLINE))
  {
    var lines := Split(text, NEWLINE);
    var fenced := ScanFences(lines);
    r := if fenced.None? then None else Some(fenced.value + FrontBlocks(lines));
  }

  /** Where the scan goes on, and with which blocks. */
  function NextLine(i: nat, t: Turn): nat { if t.Past? then t.close + 1 else i + 1 }

  function WithFenced(lines: seq<Units>, i: nat, t: Turn, blocks: seq<Block>): seq<Block>
    requires t.Past? ==> i < t.close <= |lines|
  {
    if t.Past? && t.claims then blocks + [FencedBlock(lines, i, t.close)] else blocks
  }

  lemma {:induction false} FencesTurn(lines: seq<Units>, i: nat, blocks: seq<Block>, t: Turn)
    requires i < |lines| && t == TurnAt(lines, i)
    ensures t.Broken? ==> FencesFrom(lines, i, blocks) == if t.claims then None else Some(blocks)
    ensures !t.Broken? ==> FencesFrom(lines, i, blocks) == FencesFrom(lines, NextLine(i, t), WithFenced(lines, i, t, blocks))
  {
  }

  method ScanFences(lines: seq<Units>) returns (r: Option<seq<Block>>)
    ensures r == FencesFrom(lines, 0, [])
  {
    var blocks: seq<Block> := [];
    var i := 0;
    while i < |lines|
      invariant 0 <= i
      invariant FencesFrom(lines, i, blocks) == FencesFrom(lines, 0, [])
    {
      var t := FenceAt(lines, i);
      FencesTurn(lines, i, blocks, t);
      if t.Broken? { return if t.claims then None else Some(blocks); }
      blocks := WithFenced(lines, i, t, blocks);
      i := NextLine(i, t);
    }
    r := Some(blocks);
  }

  method FenceAt(lines: seq<Units>, i: nat) returns (t: Turn)
    requires i < |lines|
    ensures t == TurnAt(lines, i)
  {
    var open := Opening(lines[i]);
    if open.None? { return Skip; }
    var close := FindClose(lines, i + 1, open.value.ticks);
    var claims := open.value.info == Name(Claims);
    t := if close.None? then Broken(claims) else Past(close.value, claims);
  }

  method FindClose(lines: seq<Units>, start: nat, ticks: nat) returns (close: Option<nat>)
    ensures close == CloseFrom(lines, start, ticks)
  {
    var j := start;
    while j < |lines|
      invariant start <= j
      invariant CloseFrom(lines, j, ticks) == CloseFrom(lines, start, ticks)
    {
      if ClosesFence(lines[j], ticks) { return Some(j); }
      j := j + 1;
    }
    close := None;
  }

  // ------------------------------------------------------------------ claims of a text

  datatype Claim = Claim(value: Value, line: nat, fenced: bool)

  /** The claims of a text, and whether any issue was found. */
  datatype Outcome = Outcome(claims: seq<Claim>, issues: bool)

  function Join(a: Outcome, b: Outcome): Outcome { Outcome(a.claims + b.claims, a.issues || b.issues) }

  /** How blocks are read and claims judged: numbers, block scalars, and claims not verified by a source. */
  datatype Ledger = Ledger(h: Host, block: BlockReader, others: Value -> bool)

  function ItemsOutcome(l: Ledger, items: seq<Value>, b: Block): Outcome {
    if items == [] then Outcome([], false)
    else
      var first := if Valid(Name, l.others, items[0]) then Outcome([Claim(items[0], b.line, b.fenced)], false)
                   else Outcome([], true);
      Join(first, ItemsOutcome(l, items[1..], b))
  }

  function BlockOutcome(l: Ledger, b: Block): Outcome {
    var doc := ParseYaml(l.h, l.block, b.yaml);
    if doc.None? || !doc.value.Map? then Outcome([], true)
    else
      var list := Get(doc.value.entries, Name(Claims));
      if list.None? || !list.value.List? then Outcome([], true)
      else Join(Outcome([], |doc.value.entries| != 1), ItemsOutcome(l, list.value.items, b))
  }

  function BlocksOutcome(l: Ledger, blocks: seq<Block>): Outcome {
    if blocks == [] then Outcome([], false) else Join(BlockOutcome(l, blocks[0]), BlocksOutcome(l, blocks[1..]))
  }

  function ClaimsOf(l: Ledger, lines: seq<Units>): Outcome {
    var blocks := Blocks(lines);
    if blocks.None? then Outcome([], true) else BlocksOutcome(l, blocks.value)
  }

  /** parseClaimsFromText */
  method ParseClaimsFromText(l: Ledger, text: Units) returns (r: Outcome)
    ensures r == ClaimsOf(l, Split(text, NEWLINE))
  {
    var blocks := ExtractClaimBlocks(text);
    if blocks.None? { return Outcome([], true); }
    var claims: seq<Claim>, issues := [], false;
    var i := 0;
    while i < |blocks.value|
      invariant 0 <= i <= |blocks.value|
      invariant Join(Outcome(claims, issues), BlocksOutcome(l, blocks.value[i..])) == BlocksOutcome(l, blocks.value)
    {
      var b := blocks.value[i];
      var o := ReadBlock(l, b);
      assert blocks.value[i..][0] == b && blocks.value[i..][1..] == blocks.value[i + 1..];
      JoinJoin(Outcome(claims, issues), o, BlocksOutcome(l, blocks.value[i + 1..]));
      claims, issues := claims + o.claims, issues || o.issues;
      i := i + 1;
    }
    r := Outcome(claims, issues);
    assert blocks.value[i..] == [] && claims + [] == claims;
  }

  lemma {:induction false} JoinJoin(a: Outcome, b: Outcome, c: Outcome)
    ensures Join(a, Join(b, c)) == Join(Join(a, b), c)
  {
    assert a.claims + (b.claims + c.claims) == (a.claims + b.claims) + c.claims;
  }

  method ReadBlock(l: Ledger, b: Block) returns (o: Outcome)
    ensures o == BlockOutcome(l, b)
  {
    var doc := ParseYamlSubset(l.h, l.block, b.yaml);
    if doc.None? || !doc.value.Map? { return Outcome([], true); }
    var list := Get(doc.value.entries, Name(Claims));
    if list.None? || !list.value.List? { return Outcome([], true); }
    var items := list.value.items;
    var claims: seq<Claim>, issues := [], |doc.value.entries| != 1;
    var i := 0;
    while i < |items|
      invariant 0 <= i <= |items|
      invariant Join(Outcome(claims, issues), ItemsOutcome(l, items[i..], b)) == BlockOutcome(l, b)
    {
      var valid := Valid(Name, l.others, items[i]);
      assert items[i..][0] == items[i] && items[i..][1..] == items[i + 1..];
      JoinJoin(Outcome(claims, issues),
               if valid then Outcome([Claim(items[i], b.line, b.fenced)], false) else Outcome([], true),
               ItemsOutcome(l, items[i + 1..], b));
      if valid { claims := claims + [Claim(items[i], b.line, b.fenced)]; } else { issues := true; }
      assert valid || claims == claims + [];
      i := i + 1;
    }
    o := Outcome(claims, issues);
    assert items[i..] == [] && claims + [] == claims;
  }
}
