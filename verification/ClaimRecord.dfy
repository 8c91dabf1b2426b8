/**
 The records the append path writes (scripts/lib/claim-append.js:186-232): their shape, their printed fields,
 and how the strict parser reads each of them.
 */
module ClaimRecord {
  import opened Options
  import opened CodeUnits
  import opened ClaimText
  import opened ClaimYaml
  import opened ClaimPrint

  // ------------------------------------------------------------------ words

  predicate IsLower(u: nat) { 97 <= u <= 122 }

  predicate InWord(u: nat) { IsLower(u) || ClaimText.IsDigit(u) || u == DASH }

  /** Lower-case letters, digits and dashes from a letter on, which no keyword starts with. */
  predicate IsWord(u: Units) {
    u != [] && IsLower(u[0]) && u[0] != 110 && u[0] != 116 && u[0] != 102 && forall i :: 0 <= i < |u| ==> InWord(u[i])
  }

  lemma {:induction false} WordEnds(u: Units)
    requires IsWord(u)
    ensures Ended(u) && NoQuotes(u) && OneLine(u) && !IsBlockMark(u) && Trim(u) == u
  {
    QuotedTrims(u);
  }

  lemma {:induction false} WordIsNoNumber(u: Units)
    requires IsWord(u)
    ensures !IsNumber(u)
  {
    forall p | 0 <= p < |u| ensures u[p] != 46 && u[0] != DASH { assert InWord(u[p]); }
  }

  /** A word is read as its own text. */
  lemma {:induction false} WordReads(h: Host, u: Units)
    requires IsWord(u)
    ensures ParseScalar(h, u) == Some(Text(u)) && Spelled(h, Spelling.Bare(u))
  {
    WordEnds(u);
    WordIsNoNumber(u);
    assert Ascii("null")[0] == 110 && Ascii("~")[0] == 126 && Ascii("true")[0] == 116 && Ascii("false")[0] == 102;
  }

  // ------------------------------------------------------------------ lists of words

  predicate AllWords(words: seq<Units>) { words == [] || (IsWord(words[0]) && AllWords(words[1..])) }

  const Gap: Units := [COMMA, SPACE]

  /** join(', ') */
  function Listed(words: seq<Units>): Units {
    if words == [] then [] else if |words| == 1 then words[0] else words[0] + Gap + Listed(words[1..])
  }

  /** `[${words.join(', ')}]` */
  function Bracketed(words: seq<Units>): Units { [91] + Listed(words) + [93] }

  predicate Quiet(u: nat) { u != BACKSLASH && u != QUOTE && u != APOSTROPHE && !Opens(u) && !Closes(u) && u != COMMA }

  /** A turn of the split is taken here. */
  predicate Turn(s: Units, i: nat, f: Flow) { i < |s| }

  /** What goes on turn by turn, as `FlowFrom` does. */
  ghost predicate Walks(from: (Units, nat, Flow) -> Flow) {
    && (forall s, i: nat, f {:trigger Turn(s, i, f)} :: Turn(s, i, f) ==> from(s, i, f) == from(s, i + FlowStep(s, i, f).1, FlowStep(s, i, f).0))
    && (forall s, f {:trigger from(s, |s|, f)} :: from(s, |s|, f) == f)
  }

  lemma {:induction false} FlowWalks()
    ensures Walks(FlowFrom)
  {
  }

  lemma {:induction false} TakeTurn(from: (Units, nat, Flow) -> Flow, s: Units, i: nat, f: Flow, g: Flow)
    requires Walks(from) && i < |s| && FlowStep(s, i, f) == (g, 1)
    ensures from(s, i, f) == from(s, i + 1, g)
  {
    assert Turn(s, i, f);
  }

  lemma {:induction false} QuietTurn(s: Units, i: nat, f: Flow)
    requires i < |s| && f.q == Plain && Quiet(s[i])
    ensures FlowStep(s, i, f) == (f.(cur := f.cur + [s[i]]), 1)
  {
  }

  predicate AllQuiet(u: Units) { forall i :: 0 <= i < |u| ==> Quiet(u[i]) }

  /** Units that mean nothing to a flow join the part at hand. */
  lemma {:induction false} QuietRun(from: (Units, nat, Flow) -> Flow, t: Units, i: nat, n: nat, f: Flow)
    requires Walks(from) && i + n <= |t| && f.q == Plain && AllQuiet(t[i..i + n])
    ensures from(t, i, f) == from(t, i + n, f.(cur := f.cur + t[i..i + n]))
    decreases n
  {
    if n == 0 {
      assert f.cur + t[i..i] == f.cur;
    } else {
      var u, g := t[i..i + n], f.(cur := f.cur + [t[i]]);
      assert u[0] == t[i] && u[1..] == t[i + 1..i + n];
      QuietTurn(t, i, f);
      TakeTurn(from, t, i, f, g);
      QuietRun(from, t, i + 1, n - 1, g);
      assert f.cur + [t[i]] + u[1..] == f.cur + u;
    }
  }

  /** The parts a list of words splits into: each but the first after a space. */
  function Parts(words: seq<Units>, lead: Units): seq<Units> {
    if words == [] then [] else [lead + words[0]] + Parts(words[1..], [SPACE])
  }

  lemma {:induction false} WordQuiet(u: Units)
    requires IsWord(u)
    ensures AllQuiet(u)
  {
    forall i | 0 <= i < |u| ensures Quiet(u[i]) { assert InWord(u[i]); }
  }

  /** The state of the split before a word. */
  function Awaiting(done: seq<Units>, lead: Units): Flow { Flow(done, lead, Plain, 0) }

  /** A word joins the part at hand. */
  lemma {:induction false} WordRun(from: (Units, nat, Flow) -> Flow, before: Units, w: Units, after: Units, done: seq<Units>, lead: Units)
    requires Walks(from) && IsWord(w)
    ensures from(before + w + after, |before|, Awaiting(done, lead)) == from(before + w + after, |before| + |w|, Awaiting(done, lead + w))
  {
    var t := before + w + after;
    WordQuiet(w);
    assert t[|before|..|before| + |w|] == w;
    QuietRun(from, t, |before|, |w|, Awaiting(done, lead));
  }

  /** The gap after a word closes the part. */
  lemma {:induction false} GapRun(from: (Units, nat, Flow) -> Flow, t: Units, i: nat, done: seq<Units>, part: Units)
    requires Walks(from) && i + 2 <= |t| && t[i] == COMMA && t[i + 1] == SPACE
    ensures from(t, i, Awaiting(done, part)) == from(t, i + 2, Awaiting(done + [part], [SPACE]))
  {
    var k := Awaiting(done + [part], []);
    TakeTurn(from, t, i, Awaiting(done, part), k);
    QuietTurn(t, i + 1, k);
    assert k.cur + [SPACE] == [SPACE];
    TakeTurn(from, t, i + 1, k, Awaiting(done + [part], [SPACE]));
  }

  lemma {:induction false} Regrouped(done: seq<Units>, part: Units, more: seq<Units>)
    ensures done + [part] + more == done + ([part] + more)
  {
  }

  predicate Ends(g: Flow, parts: seq<Units>) { g.q == Plain && g.depth == 0 && g.parts + [g.cur] == parts }

  lemma {:induction false} GapMoves(before: Units, w: Units, rest: Units)
    ensures before + w + (Gap + rest) == before + w + Gap + rest
  {
    assert before + w + (Gap + rest) == (before + w + Gap) + rest;
  }

  /** One word and the gap after it. */
  lemma {:induction false} FlowGap(from: (Units, nat, Flow) -> Flow, before: Units, w: Units, after: Units, done: seq<Units>, lead: Units)
    requires Walks(from) && IsWord(w)
    ensures from(before + w + (Gap + after), |before|, Awaiting(done, lead))
      == from(before + w + (Gap + after), |before + w + Gap|, Awaiting(done + [lead + w], [SPACE]))
  {
    var t, i := before + w + (Gap + after), |before| + |w|;
    WordRun(from, before, w, Gap + after, done, lead);
    assert t[i] == COMMA && t[i + 1] == SPACE;
    GapRun(from, t, i, done, lead + w);
  }

  /** A list of words is split into its parts. */
  lemma {:induction false} FlowWords(from: (Units, nat, Flow) -> Flow, before: Units, words: seq<Units>, done: seq<Units>, lead: Units)
    requires Walks(from) && words != [] && AllWords(words)
    ensures Ends(from(before + Listed(words), |before|, Awaiting(done, lead)), done + Parts(words, lead))
    decreases |words|
  {
    var w := words[0];
    if |words| == 1 {
      var t := before + Listed(words);
      assert before + w + [] == t && |before| + |w| == |t|;
      WordRun(from, before, w, [], done, lead);
      assert from(t, |t|, Awaiting(done, lead + w)) == Awaiting(done, lead + w);
      assert Parts(words, lead) == [lead + w] by { assert words[1..] == []; }
    } else {
      var rest, b := Listed(words[1..]), before + w + Gap;
      FlowWords(from, b, words[1..], done + [lead + w], [SPACE]);
      FlowGap(from, before, w, rest, done, lead);
      assert before + Listed(words) == before + w + (Gap + rest) == b + rest by {
        assert Listed(words) == w + (Gap + rest);
        GapMoves(before, w, rest);
      }
      Regrouped(done, lead + w, Parts(words[1..], [SPACE]));
    }
  }

  lemma {:induction false} LeadTrims(lead: Units, w: Units)
    requires IsWord(w) && (lead == [] || lead == [SPACE])
    ensures Trim(lead + w) == w && w != []
  {
    WordEnds(w);
    SpellingTrims(w);
    assert [] + w == w;
  }

  lemma {:induction false} PartsKept(words: seq<Units>, lead: Units)
    requires AllWords(words) && (lead == [] || lead == [SPACE])
    ensures Kept(Parts(words, lead)) == words
    decreases |words|
  {
    if words != [] {
      var parts := Parts(words, lead);
      assert parts[0] == lead + words[0] && parts[1..] == Parts(words[1..], [SPACE]);
      LeadTrims(lead, words[0]);
      PartsKept(words[1..], [SPACE]);
      assert [words[0]] + words[1..] == words;
    }
  }

  function Texts(words: seq<Units>): seq<Value> {
    if words == [] then [] else [Text(words[0])] + Texts(words[1..])
  }

  lemma {:induction false} WordItems(h: Host, words: seq<Units>, limit: nat)
    requires AllWords(words) && Held(words) <= limit
    ensures ParseItems(h, words, limit) == Some(Texts(words))
    decreases |words|
  {
    if words != [] {
      WordReads(h, words[0]);
      WordItems(h, words[1..], limit);
    }
  }

  lemma {:induction false} WordsSplit(words: seq<Units>)
    requires words != [] && AllWords(words)
    ensures FlowParts(Listed(words)) == Some(words)
  {
    var g := FlowFrom(Listed(words), 0, Fresh);
    assert Ends(g, Parts(words, [])) by {
      FlowWalks();
      FlowWords(FlowFrom, [], words, [], []);
      assert [] + Listed(words) == Listed(words) && [] + Parts(words, []) == Parts(words, []);
    }
    PartsKept(words, []);
    PartsNotBlank(words, g);
  }

  lemma {:induction false} PartsNotBlank(words: seq<Units>, g: Flow)
    requires words != [] && AllWords(words) && g.parts + [g.cur] == Parts(words, [])
    ensures g.parts != [] || Trim(g.cur) != []
  {
    if g.parts == [] {
      assert Parts(words, [])[0] == [] + words[0] == words[0];
      assert g.cur == (g.parts + [g.cur])[0];
      WordEnds(words[0]);
    }
  }

  /** A flow sequence is read by its parts. */
  lemma {:induction false} FlowReads(h: Host, inner: Units, parts: seq<Units>, items: seq<Value>)
    requires FlowParts(inner) == Some(parts) && ParseItems(h, parts, |inner| + 1) == Some(items)
    ensures ParseScalar(h, [91] + inner + [93]) == Some(List(items))
  {
    var s := [91] + inner + [93];
    QuotedTrims(s);
    assert s[0] == 91 && s[|s| - 1] == 93 && s[1..|s| - 1] == inner;
    assert Ascii("null")[0] == 110 && Ascii("~")[0] == 126 && Ascii("true")[0] == 116 && Ascii("false")[0] == 102;
  }

  /** A bracketed list of words is read as the list of their texts. */
  lemma {:induction false} WordsRead(h: Host, words: seq<Units>)
    requires words != [] && AllWords(words)
    ensures ParseScalar(h, Bracketed(words)) == Some(List(Texts(words)))
  {
    WordsSplit(words);
    WordItems(h, words, |Listed(words)| + 1);
    FlowReads(h, Listed(words), words, Texts(words));
  }

  lemma {:induction false} ListedBare(words: seq<Units>)
    requires AllWords(words)
    ensures NoQuotes(Listed(words)) && OneLine(Listed(words))
    decreases |words|
  {
    if words != [] {
      WordEnds(words[0]);
      ListedBare(words[1..]);
    }
  }

  lemma {:induction false} ListSpelled(h: Host, words: seq<Units>)
    requires words != [] && AllWords(words)
    ensures Spelled(h, Spelling.Bare(Bracketed(words)))
  {
    ListedBare(words);
    WordsRead(h, words);
    var s := Bracketed(words);
    assert s[0] == 91 && s[|s| - 1] == 93;
  }

  // ------------------------------------------------------------------ numbers

  /** The units String writes a finite number with. */
  predicate InNumber(u: nat) { ClaimText.IsDigit(u) || u == 46 || u == 101 || u == 43 || u == DASH }

  predicate NumberText(u: Units) { u != [] && forall i :: 0 <= i < |u| ==> InNumber(u[i]) }

  /** A number's text is read as a number when it is plain, and as text when it has an exponent. */
  lemma {:induction false} NumberReads(h: Host, u: Units)
    requires NumberText(u)
    ensures ParseScalar(h, u) == Some(if IsNumber(u) then Number(h.read(u)) else Text(u))
    ensures Spelled(h, Spelling.Bare(u))
  {
    assert InNumber(u[0]) && InNumber(u[|u| - 1]);
    QuotedTrims(u);
    assert NoQuotes(u) && OneLine(u);
    assert Ascii("null")[0] == 110 && Ascii("~")[0] == 126 && Ascii("true")[0] == 116 && Ascii("false")[0] == 102;
    assert !IsBlockMark(u);
  }
}
