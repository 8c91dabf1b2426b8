/**
 The classifier (scripts/lib/classifier.js): the tier of a path is the strictest of the rules that match
 it, and the floor of a change set the strictest of its paths; neither depends on the order of the rules.
 */
module TierFloor {
  import opened Options
  import opened CodeUnits
  import Glob = GlobPattern

  datatype Tier = Trivial | Lite | Full | Irreversible

  function Rank(t: Tier): nat {
    match t
    case Trivial => 0
    case Lite => 1
    case Full => 2
    case Irreversible => 3
  }

  datatype Rule = Rule(pattern: Units, regex: Units, tier: Tier, blocks: bool, resolvers: set<string>, kinds: set<string>, reason: string)

  /** loadRules: a rule's expression is its pattern's. */
  predicate Loaded(r: Rule) { r.regex == Glob.Render(Glob.Pieces(r.pattern)) }

  /** normalise: back slashes turned, a leading "./" dropped. */
  function Turned(file: Units): (r: Units)
    ensures |r| == |file| && forall i :: 0 <= i < |r| ==> r[i] == if file[i] == Glob.BACKSLASH then Glob.SLASH else file[i]
  {
    seq(|file|, i requires 0 <= i < |file| => if file[i] == Glob.BACKSLASH then Glob.SLASH else file[i])
  }

  function Normalise(file: Units): Units {
    var f := Turned(file);
    if |f| >= 2 && f[0] == Glob.DOT && f[1] == Glob.SLASH then f[2..] else f
  }

  predicate Applies(r: Rule, f: Units) { Glob.Tests(r.regex, f) }

  function Matched(rules: seq<Rule>, f: Units): seq<Rule> {
    if rules == [] then []
    else if Applies(rules[0], f) then [rules[0]] + Matched(rules[1..], f)
    else Matched(rules[1..], f)
  }

  /** reduce((a, b) => RANK[b.tier] > RANK[a.tier] ? b : a) */
  function Strictest(a: Rule, rest: seq<Rule>): Rule
    decreases rest
  {
    if rest == [] then a else Strictest(if Rank(rest[0].tier) > Rank(a.tier) then rest[0] else a, rest[1..])
  }

  function Resolvers(rules: seq<Rule>): set<string> { set r, x | r in rules && x in r.resolvers :: x }

  function Kinds(rules: seq<Rule>): set<string> { set r, x | r in rules && x in r.kinds :: x }

  datatype Verdict =
    Verdict(file: Units, tier: Tier, pattern: Option<Units>, reason: string, resolvers: set<string>, kinds: set<string>, blocks: bool)

  /** classifyFile. */
  function ClassifyFile(file: Units, rules: seq<Rule>): Verdict {
    var f := Normalise(file);
    var m := Matched(rules, f);
    var blocks := exists r :: r in m && r.blocks;
    if m == [] then Verdict(f, Lite, None, "no pattern matched — default tier", {}, {}, false)
    else
      var top := Strictest(m[0], m[1..]);
      Verdict(f, top.tier, Some(top.pattern), top.reason, Resolvers(m), Kinds(m), blocks)
  }

  datatype Floor = Floor(tier: Tier, file: Option<Units>, pattern: Option<Units>, reason: string)

  /** The floor names a path that demands it, unless nothing more than trivial is demanded. */
  predicate Named(floor: Floor, per: seq<Verdict>) {
    floor.tier == Trivial || exists i :: 0 <= i < |per| && floor == Floor(per[i].tier, Some(per[i].file), per[i].pattern, per[i].reason)
  }

  function PerFile(files: seq<Units>, rules: seq<Rule>): (per: seq<Verdict>)
    ensures |per| == |files|
  {
    seq(|files|, i requires 0 <= i < |files| => ClassifyFile(files[i], rules))
  }

  /** classifyFiles. */
  method ClassifyFiles(files: seq<Units>, rules: seq<Rule>) returns (floor: Floor, per: seq<Verdict>)
    ensures per == PerFile(files, rules)
    ensures forall i :: 0 <= i < |per| ==> Rank(per[i].tier) <= Rank(floor.tier)
    ensures Named(floor, per)
  {
    per := PerFile(files, rules);
    floor := Floor(Trivial, None, None, "");
    var i := 0;
    while i < |per|
      invariant 0 <= i <= |per|
      invariant forall k :: 0 <= k < i ==> Rank(per[k].tier) <= Rank(floor.tier)
      invariant Named(floor, per)
    {
      if Rank(per[i].tier) > Rank(floor.tier) {
        floor := Floor(per[i].tier, Some(per[i].file), per[i].pattern, per[i].reason);
      }
      i := i + 1;
    }
  }

  lemma {:induction false} MatchedExactly(rules: seq<Rule>, f: Units, r: Rule)
    ensures r in Matched(rules, f) <==> r in rules && Applies(r, f)
    decreases |rules|
  {
    if rules != [] {
      MatchedExactly(rules[1..], f, r);
      assert rules == [rules[0]] + rules[1..];
    }
  }

  lemma {:induction false} StrictestIs(a: Rule, rest: seq<Rule>)
    ensures var top := Strictest(a, rest);
      (top == a || top in rest) && forall r :: r == a || r in rest ==> Rank(r.tier) <= Rank(top.tier)
    decreases |rest|
  {
    if rest != [] {
      StrictestIs(if Rank(rest[0].tier) > Rank(a.tier) then rest[0] else a, rest[1..]);
      assert rest == [rest[0]] + rest[1..];
    }
  }

  predicate Demands(rules: seq<Rule>, f: Units, t: Tier) { exists r :: r in rules && Applies(r, f) && r.tier == t }

  /** The tier is demanded by a rule that applies, and no rule that applies is stricter; Lite when none applies. */
  lemma {:induction false} TierIsStrictest(file: Units, rules: seq<Rule>)
    ensures var (f, v) := (Normalise(file), ClassifyFile(file, rules));
      if exists r :: r in rules && Applies(r, f)
      then Demands(rules, f, v.tier) && forall r :: r in rules && Applies(r, f) ==> Rank(r.tier) <= Rank(v.tier)
      else v.tier == Lite
  {
    var f := Normalise(file);
    var m := Matched(rules, f);
    forall r ensures r in m <==> r in rules && Applies(r, f) { MatchedExactly(rules, f, r); }
    if m != [] {
      StrictestIs(m[0], m[1..]);
      assert m == [m[0]] + m[1..];
      assert m[0] in m;
    }
  }

  /** Rules in any order, or repeated, give a path the same tier, enforcement, resolvers and claim kinds. */
  lemma {:induction false} OrderIsNothing(file: Units, rules: seq<Rule>, other: seq<Rule>)
    requires forall r :: r in rules <==> r in other
    ensures var (v, w) := (ClassifyFile(file, rules), ClassifyFile(file, other));
      v.tier == w.tier && v.blocks == w.blocks && v.resolvers == w.resolvers && v.kinds == w.kinds
  {
    var f := Normalise(file);
    var m, n := Matched(rules, f), Matched(other, f);
    forall r ensures r in m <==> r in n {
      MatchedExactly(rules, f, r);
      MatchedExactly(other, f, r);
    }
    if m != [] { assert m[0] in n; }
    if n != [] { assert n[0] in m; }
    TierIsStrictest(file, rules);
    TierIsStrictest(file, other);
    SameRank(ClassifyFile(file, rules).tier, ClassifyFile(file, other).tier);
    assert Resolvers(m) == Resolvers(n) && Kinds(m) == Kinds(n);
  }

  lemma {:induction false} SameRank(t: Tier, u: Tier)
    ensures Rank(t) == Rank(u) ==> t == u
  {
  }

  /** A rule whose glob is well formed applies to the paths its components match. */
  lemma {:induction false} AppliesMeans(r: Rule, f: Units)
    requires Loaded(r) && Glob.WellFormed(Glob.Components(r.pattern)) && Glob.LineFree(f)
    ensures Applies(r, f) <==> Glob.Matches(Glob.Components(r.pattern), Glob.Segments(f), true)
  {
    Glob.GlobMeans(r.pattern, f);
  }
}
