/** The rule set of the LL(1) front end (grammarLL1/rule/rule.go): a map from
    a one-character left side to its alternatives, in the order written. */
module Rules {
  import opened Wrappers
  import opened Text
  import opened Symbols

  type RuleMap = map<string, seq<string>>

  /** The alternatives of `x`; a missing key reads as Go's nil slice. */
  function Alts(rules: RuleMap, x: string): seq<string>
  {
    if x in rules then rules[x] else []
  }

  /** Formula: one production, left side and right side. */
  datatype Formula = Formula(left: string, right: string)

  /** The error AddRules returns: nil, or errors.New("invalid arg"). */
  datatype Error = Nil | InvalidArg

  /** What one line of grammar text contributes. */
  datatype Line = Skip | Bad | Rule(lhs: string, alts: seq<string>)

  /** One line of AddRules: blank lines are skipped; a line must split on
      "->" into exactly two parts whose left part is one character; the
      right part loses its spaces and is split on "|". */
  function ParseLine(t: string): (r: Line)
    ensures r.Skip? <==> IsBlank(t)
    ensures r.Rule? ==> |r.lhs| == 1 && |r.alts| >= 1
  {
    if IsBlank(t) then Skip
    else
      var c := Split(t, "->");
      if |c| != 2 || |c[0]| != 1 then Bad
      else Rule(c[0], Split(RemoveSpaces(c[1]), "|"))
  }

  /** A rule line is its left side, "->", and a right side whose alternatives,
      joined again with "|", give the right side without its spaces; no
      alternative holds a space or a "|". */
  lemma RuleLineShape(t: string)
    requires ParseLine(t).Rule?
    ensures var r := ParseLine(t);
      forall a :: a in r.alts ==> ' ' !in a && '|' !in a
    ensures var r := ParseLine(t);
      exists rhs :: Join([r.lhs, rhs], "->") == t && Join(r.alts, "|") == RemoveSpaces(rhs)
  {
    var c := Split(t, "->");
    var alts := Split(RemoveSpaces(c[1]), "|");
    forall a | a in alts ensures ' ' !in a && '|' !in a {
      FreeOfOneChar(a, "|");
      if ' ' in a {
        JoinKeepsChars(alts, "|", a, ' ');
      }
    }
    assert Join([c[0], c[1]], "->") == t by { assert c == [c[0], c[1]]; }
  }

  /** For a one-character separator, being free of it means not containing it. */
  lemma FreeOfOneChar(p: string, sep: string)
    requires |sep| == 1 && Free(p, sep)
    ensures sep[0] !in p
  {
    if sep[0] in p {
      var k :| 0 <= k < |p| && p[k] == sep[0];
      assert p[k..k + 1] == sep;
      assert OccursAt(p, sep, k);
    }
  }

  /** `rules` after the alternatives `alts` are appended to those of `lhs`. */
  function Append(rules: RuleMap, lhs: string, alts: seq<string>): RuleMap
  {
    rules[lhs := Alts(rules, lhs) + alts]
  }

  /** The rule set after one parsed line that is not malformed. */
  function ApplyLine(rules: RuleMap, l: Line): RuleMap
  {
    if l.Rule? then Append(rules, l.lhs, l.alts) else rules
  }

  /** The parse of every line, in order. */
  function ParseLines(lines: seq<string>): (ls: seq<Line>)
    ensures |ls| == |lines|
    ensures forall k :: 0 <= k < |lines| ==> ls[k] == ParseLine(lines[k])
  {
    seq(|lines|, k requires 0 <= k < |lines| => ParseLine(lines[k]))
  }

  /** The rule set and error after AddRules has processed the parsed lines
      `ls` in order, stopping at the first bad line without undoing the
      lines before it. */
  function ApplyLines(rules: RuleMap, ls: seq<Line>): (RuleMap, Error)
    decreases |ls|
  {
    if |ls| == 0 then (rules, Nil)
    else if ls[0].Bad? then (rules, InvalidArg)
    else ApplyLines(ApplyLine(rules, ls[0]), ls[1..])
  }

  /** What `l` contributes to the alternatives of `x`. */
  function LineAlts(l: Line, x: string): seq<string>
  {
    if l.Rule? && l.lhs == x then l.alts else []
  }

  /** The alternatives the rule lines among `ls` give to `x`, in order. */
  function Contributed(ls: seq<Line>, x: string): seq<string>
  {
    if |ls| == 0 then [] else LineAlts(ls[0], x) + Contributed(ls[1..], x)
  }

  /** True when no line of `ls` is malformed. */
  predicate AllWellFormed(ls: seq<Line>)
  {
    forall k :: 0 <= k < |ls| ==> !ls[k].Bad?
  }

  /** Membership of `item` in `alts`, searched from the front. */
  function Member(alts: seq<string>, item: string): (b: bool)
    ensures b <==> item in alts
  {
    if |alts| == 0 then false
    else alts[0] == item || Member(alts[1..], item)
  }

  /** The scan of GetProcessMethod reads the first character of every
      alternative it passes, so each of them up to the first match must be
      non-empty (the source indexes `value[0]`). */
  predicate Searchable(alts: seq<string>, c: char)
  {
    |alts| == 0 || (|alts[0]| > 0 && (alts[0][0] == c || Searchable(alts[1..], c)))
  }

  /** `k` is the first alternative that starts with `c`. */
  predicate FirstStartingWith(alts: seq<string>, c: char, k: int)
  {
    0 <= k < |alts| && |alts[k]| > 0 && alts[k][0] == c &&
    forall j :: 0 <= j < k ==> |alts[j]| > 0 && alts[j][0] != c
  }

  /** Index of the first alternative starting with `c`, or -1. */
  function IndexStartingWith(alts: seq<string>, c: char): (k: int)
    requires Searchable(alts, c)
    ensures k >= 0 ==> FirstStartingWith(alts, c, k)
    ensures k < 0 <==> forall j :: 0 <= j < |alts| ==> |alts[j]| > 0 && alts[j][0] != c
  {
    if |alts| == 0 then -1
    else if alts[0][0] == c then 0
    else
      var k := IndexStartingWith(alts[1..], c);
      if k < 0 then -1 else k + 1
  }

  /** Rule: the rule set, updated in place by AddRules. */
  class Rule {
    var rules: RuleMap

    /** NewRules: an empty rule set. */
    constructor ()
      ensures rules == map[]
    {
      rules := map[];
    }

    /** AddRules: adds every line of `s`; the first malformed line stops the
        loading with an error, keeping what the earlier lines added. */
    method AddRules(s: string) returns (err: Error)
      modifies this
      ensures (rules, err) == ApplyLines(old(rules), ParseLines(Split(s, "\n")))
    {
      var lineRule := Split(s, "\n");
      ghost var ls := ParseLines(lineRule);
      var n := 0;
      while n < |lineRule|
        invariant 0 <= n <= |lineRule|
        invariant ApplyLines(old(rules), ls) == ApplyLines(rules, ls[n..])
      {
        var t := lineRule[n];
        assert ls[n..][0] == ParseLine(t) && ls[n..][1..] == ls[n + 1..];
        if IsBlank(t) {
          n := n + 1;
          continue;
        }
        var c := Split(t, "->");
        if |c| != 2 || |c[0]| != 1 {
          return InvalidArg;
        }
        var right := Split(RemoveSpaces(c[1]), "|");
        AppendAll(c[0], right);
        n := n + 1;
      }
      return Nil;
    }

    /** The inner loop of AddRules: appends `right` one alternative at a
        time to the alternatives of `lhs`. */
    method AppendAll(lhs: string, right: seq<string>)
      requires |right| >= 1
      modifies this
      ensures rules == Append(old(rules), lhs, right)
    {
      var i := 0;
      while i < |right|
        invariant 0 <= i <= |right|
        invariant i == 0 ==> rules == old(rules)
        invariant i > 0 ==> rules == Append(old(rules), lhs, right[..i])
      {
        assert Alts(rules, lhs) == Alts(old(rules), lhs) + right[..i];
        rules := rules[lhs := Alts(rules, lhs) + [right[i]]];
        assert right[..i + 1] == right[..i] + [right[i]];
        assert Alts(old(rules), lhs) + right[..i] + [right[i]] == Alts(old(rules), lhs) + right[..i + 1];
        assert rules == old(rules)[lhs := Alts(old(rules), lhs) + right[..i + 1]];
        i := i + 1;
      }
      assert right[..i] == right;
    }

    /** HaveEmptySet: `first` has the empty alternative "&". */
    function HaveEmptySet(first: string): (b: bool)
      reads this
      ensures b <==> Epsilon in Alts(rules, first)
    {
      Member(Alts(rules, first), Epsilon)
    }

    /** TheFirstItemIs: `item` when it is an alternative of `first`, else "". */
    function TheFirstItemIs(first: string, item: string): (r: string)
      reads this
      ensures item in Alts(rules, first) ==> r == item
      ensures item !in Alts(rules, first) ==> r == ""
    {
      if Member(Alts(rules, first), item) then item else ""
    }

    /** GetProcessMethod: the production for the first alternative of
        `first`, in declaration order, that starts with the first character
        of `end`; None when there is none. */
    function GetProcessMethod(first: string, end: string): (r: Option<Formula>)
      reads this
      requires |end| > 0 && Searchable(Alts(rules, first), end[0])
      ensures r.Some? ==> (r.value.left == first &&
        exists k :: FirstStartingWith(Alts(rules, first), end[0], k) && r.value.right == Alts(rules, first)[k])
      ensures r.None? <==> forall a :: a in Alts(rules, first) ==> |a| > 0 && a[0] != end[0]
    {
      var alts := Alts(rules, first);
      var k := IndexStartingWith(alts, end[0]);
      if k < 0 then None else Some(Formula(first, alts[k]))
    }
  }

  /** A malformed line stops loading with InvalidArg, and the rule set keeps
      exactly what the well-formed lines before it added: there is no rollback,
      and the lines after it are never read. */
  lemma {:induction false} NoRollback(rules: RuleMap, pre: seq<Line>, bad: Line, post: seq<Line>)
    requires AllWellFormed(pre) && bad.Bad?
    ensures ApplyLines(rules, pre + [bad] + post) == (ApplyLines(rules, pre).0, InvalidArg)
    ensures ApplyLines(rules, pre).1 == Nil
    decreases |pre|
  {
    var ls := pre + [bad] + post;
    if |pre| == 0 {
      assert ls[0] == bad;
    } else {
      assert ls[0] == pre[0];
      assert ls[1..] == pre[1..] + [bad] + post;
      NoRollback(ApplyLine(rules, pre[0]), pre[1..], bad, post);
    }
  }

  /** One line appends its alternatives to its own left side only. */
  lemma LineStep(rules: RuleMap, l: Line, x: string)
    ensures Alts(ApplyLine(rules, l), x) == Alts(rules, x) + LineAlts(l, x)
  {
  }

  /** When every line is well formed, each left side ends up with its old
      alternatives followed by those of its lines, in written order, so a
      repeated left side accumulates; other keys are untouched. */
  lemma {:induction false} Accumulates(rules: RuleMap, ls: seq<Line>, x: string)
    requires AllWellFormed(ls)
    ensures ApplyLines(rules, ls).1 == Nil
    ensures Alts(ApplyLines(rules, ls).0, x) == Alts(rules, x) + Contributed(ls, x)
    decreases |ls|
  {
    if |ls| > 0 {
      var r' := ApplyLine(rules, ls[0]);
      assert !ls[0].Bad? && ApplyLines(rules, ls) == ApplyLines(r', ls[1..]);
      assert Contributed(ls, x) == LineAlts(ls[0], x) + Contributed(ls[1..], x);
      LineStep(rules, ls[0], x);
      assert AllWellFormed(ls[1..]) by {
        forall k | 0 <= k < |ls[1..]| ensures !ls[1..][k].Bad? {
          assert ls[1..][k] == ls[k + 1];
        }
      }
      Accumulates(r', ls[1..], x);
      assert Alts(rules, x) + LineAlts(ls[0], x) + Contributed(ls[1..], x)
          == Alts(rules, x) + (LineAlts(ls[0], x) + Contributed(ls[1..], x));
    }
  }

  /** The left sides of the rule lines read before the first malformed line. */
  function Defined(ls: seq<Line>): set<string>
  {
    if |ls| == 0 || ls[0].Bad? then {}
    else (if ls[0].Rule? then {ls[0].lhs} else {}) + Defined(ls[1..])
  }

  /** The keys after loading are the old keys plus the left sides of the
      rule lines read, even when a later line is malformed. */
  lemma {:induction false} KeysAfterLoading(rules: RuleMap, ls: seq<Line>)
    ensures ApplyLines(rules, ls).0.Keys == rules.Keys + Defined(ls)
    decreases |ls|
  {
    if |ls| > 0 && !ls[0].Bad? {
      KeysAfterLoading(ApplyLine(rules, ls[0]), ls[1..]);
    }
  }

  /** Blank lines, which parse as Skip, add nothing and report no error. */
  lemma {:induction false} BlankLinesAddNothing(rules: RuleMap, ls: seq<Line>)
    requires forall k :: 0 <= k < |ls| ==> ls[k].Skip?
    ensures ApplyLines(rules, ls) == (rules, Nil)
  {
    if |ls| > 0 {
      BlankLinesAddNothing(rules, ls[1..]);
    }
  }
}
