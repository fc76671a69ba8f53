/** FOLLOW sets of the LL(1) front end (grammarLL1/follow/follow.go).
    For a nonterminal B at position i of an alternative of A, the scan looks
    at the symbols after B: at the end of the alternative FOLLOW(A) is added,
    a terminal is added as it is, and a nonterminal C adds FIRST(C) without
    "&"; the scan goes on past C only when C has the empty alternative "&". */
module Follow {
  import opened Symbols
  import opened Rules
  import opened First

  /** `x` has the empty alternative, as Rule.HaveEmptySet tells. */
  predicate Nullable(rules: RuleMap, x: string)
  {
    Epsilon in Alts(rules, x)
  }

  /** The scan stops at position `p` of `v`. */
  predicate Stops(rules: RuleMap, v: string, p: int)
    requires 0 <= p <= |v|
  {
    p == |v| || IsTerminal(v[p]) || !Nullable(rules, [v[p]])
  }

  /** What the scan adds when it looks at position `p` of alternative `v`
      of `left`; `f` is the FOLLOW table, `first` the FIRST table. */
  function Piece(first: SetMap, f: SetMap, left: string, v: string, p: int): set<string>
    requires 0 <= p <= |v|
  {
    if p == |v| then Get(f, left) - {Epsilon}
    else if IsTerminal(v[p]) then {[v[p]]}
    else Get(first, [v[p]]) - {Epsilon}
  }

  /** Everything the scan adds from position `p` on. */
  function FollowFrom(rules: RuleMap, first: SetMap, f: SetMap, left: string, v: string, p: int): set<string>
    requires 0 <= p <= |v|
    decreases |v| - p
  {
    Piece(first, f, left, v, p) + (if Stops(rules, v, p) then {} else FollowFrom(rules, first, f, left, v, p + 1))
  }

  /** The scan for the nonterminal at position `i` has reached position `p`:
      every symbol in between is a nonterminal with the empty alternative. */
  predicate Reaches(rules: RuleMap, v: string, i: int, p: int)
  {
    0 <= i < p <= |v| && forall j :: i < j < p ==> !Stops(rules, v, j)
  }

  /** The contributions to the nonterminal at position `i` are present. */
  ghost predicate PosClosed(rules: RuleMap, first: SetMap, f: SetMap, left: string, v: string, i: int)
    requires 0 <= i < |v|
  {
    !IsTerminal(v[i]) ==> FollowFrom(rules, first, f, left, v, i + 1) <= Get(f, [v[i]])
  }

  /** Every position of alternative `v` of `left` is closed. */
  ghost predicate AltFollowClosed(rules: RuleMap, first: SetMap, f: SetMap, left: string, v: string)
  {
    forall i :: 0 <= i < |v| ==> PosClosed(rules, first, f, left, v, i)
  }

  /** Every alternative of `left` is closed. */
  ghost predicate KeyFollowClosed(rules: RuleMap, first: SetMap, f: SetMap, left: string)
  {
    left in rules ==> forall v :: v in rules[left] ==> AltFollowClosed(rules, first, f, left, v)
  }

  /** `f` holds "#" for the start symbol and is closed under every rule. */
  ghost predicate FollowClosed(rules: RuleMap, first: SetMap, start: string, f: SetMap)
  {
    EndMarker in Get(f, start) && forall left :: KeyFollowClosed(rules, first, f, left)
  }

  /** `f` is below every closed table. */
  ghost predicate FSound(rules: RuleMap, first: SetMap, start: string, f: SetMap)
  {
    forall g :: FollowClosed(rules, first, start, g) ==> Below(f, g)
  }

  /** Every nonterminal of every alternative has a set in `first`, so the
      source never writes into a nil map. */
  predicate Known(rules: RuleMap, first: SetMap)
  {
    forall left :: left in rules ==> forall v :: v in rules[left] ==>
      forall j :: 0 <= j < |v| && !IsTerminal(v[j]) ==> [v[j]] in first
  }

  /** The terminals written in some alternative. */
  ghost function AltTerms(rules: RuleMap): set<string>
  {
    set left, v, j | left in rules && v in rules[left] && 0 <= j < |v| && IsTerminal(v[j]) :: [v[j]]
  }

  /** The members of the sets of `first`. */
  ghost function FirstValues(first: SetMap): set<string>
  {
    set k, a | k in first && a in first[k] :: a
  }

  /** Everything a FOLLOW set can hold. */
  ghost function FTerms(rules: RuleMap, first: SetMap): set<string>
  {
    {EndMarker} + AltTerms(rules) + FirstValues(first)
  }

  /** What holds at every level of the computation: the keys are those of
      `first`, the table is sound and bounded, and it relates to the table
      `f0` the level started from. */
  ghost predicate LevelInv(rules: RuleMap, first: SetMap, start: string, f0: SetMap, fs: SetMap, changed: bool)
  {
    && fs.Keys == first.Keys
    && FSound(rules, first, start, fs)
    && (forall k :: Get(fs, k) <= FTerms(rules, first))
    && Grows(f0, fs)
    && (changed ==> Grew(f0, fs))
    && (!changed ==> fs == f0)
  }

  /** Two levels in a row make one. */
  lemma LevelChain(rules: RuleMap, first: SetMap, start: string, f0: SetMap, f1: SetMap, f2: SetMap, c1: bool, c2: bool)
    requires LevelInv(rules, first, start, f0, f1, c1) && LevelInv(rules, first, start, f1, f2, c2)
    ensures LevelInv(rules, first, start, f0, f2, c1 || c2)
  {
    Chain(f0, f1, f2);
  }

  /** A level that changed nothing. */
  lemma LevelNone(rules: RuleMap, first: SetMap, start: string, fs: SetMap)
    requires fs.Keys == first.Keys && FSound(rules, first, start, fs)
    requires forall k :: Get(fs, k) <= FTerms(rules, first)
    ensures LevelInv(rules, first, start, fs, fs, false)
  {
  }

  /** FollowFrom reads the table only through the set of `left`. */
  lemma {:induction false} FollowFromMono(rules: RuleMap, first: SetMap, f: SetMap, g: SetMap, left: string, v: string, p: int)
    requires 0 <= p <= |v| && Get(f, left) <= Get(g, left)
    ensures FollowFrom(rules, first, f, left, v, p) <= FollowFrom(rules, first, g, left, v, p)
    ensures Get(f, left) == Get(g, left) ==> FollowFrom(rules, first, f, left, v, p) == FollowFrom(rules, first, g, left, v, p)
    decreases |v| - p
  {
    if !Stops(rules, v, p) {
      FollowFromMono(rules, first, f, g, left, v, p + 1);
    }
  }

  /** What the scan adds from a reached position is part of what it adds
      from the position right after the nonterminal. */
  lemma {:induction false} ReachedIncluded(rules: RuleMap, first: SetMap, f: SetMap, left: string, v: string, i: int, p: int)
    requires Reaches(rules, v, i, p)
    ensures FollowFrom(rules, first, f, left, v, p) <= FollowFrom(rules, first, f, left, v, i + 1)
    decreases p
  {
    if p > i + 1 {
      assert !Stops(rules, v, p - 1);
      ReachedIncluded(rules, first, f, left, v, i, p - 1);
    }
  }

  /** Adding the piece at a reached position keeps the table sound and bounded. */
  lemma SoundPiece(rules: RuleMap, first: SetMap, start: string, f: SetMap, left: string, v: string, i: int, p: int)
    requires FSound(rules, first, start, f) && forall k :: Get(f, k) <= FTerms(rules, first)
    requires left in rules && v in rules[left] && Reaches(rules, v, i, p) && !IsTerminal(v[i])
    ensures var f' := f[[v[i]] := Get(f, [v[i]]) + Piece(first, f, left, v, p)];
      FSound(rules, first, start, f') && forall k :: Get(f', k) <= FTerms(rules, first)
  {
    var b := [v[i]];
    var f' := f[b := Get(f, b) + Piece(first, f, left, v, p)];
    forall g | FollowClosed(rules, first, start, g) ensures Below(f', g) {
      assert Below(f, g);
      assert Get(f, left) <= Get(g, left);
      FollowFromMono(rules, first, f, g, left, v, p);
      ReachedIncluded(rules, first, g, left, v, i, p);
      assert KeyFollowClosed(rules, first, g, left);
      assert AltFollowClosed(rules, first, g, left, v);
      assert PosClosed(rules, first, g, left, v, i);
      forall k ensures Get(f', k) <= Get(g, k) {
        assert Get(f, k) <= Get(g, k);
      }
    }
    assert Piece(first, f, left, v, p) <= FTerms(rules, first) by {
      if p == |v| {
        assert Get(f, left) <= FTerms(rules, first);
      } else if IsTerminal(v[p]) {
        assert [v[p]] in AltTerms(rules);
      } else {
        forall a | a in Get(first, [v[p]]) ensures a in FirstValues(first) {
        }
      }
    }
    forall k ensures Get(f', k) <= FTerms(rules, first) {
      assert Get(f, k) <= FTerms(rules, first);
    }
  }

  /** Looking at one more member of `b` keeps the merge invariant for
      `b` without "&": "&" is passed over, anything else is added. */
  lemma SkipStep(a: set<string>, b: set<string>, r: set<string>, rest: set<string>, count: nat, key: string)
    requires MergeInv(a, b - {Epsilon}, r, rest - {Epsilon}, count) && key in rest
    ensures key == Epsilon ==> MergeInv(a, b - {Epsilon}, r, (rest - {key}) - {Epsilon}, count)
    ensures key != Epsilon ==> MergeInv(a, b - {Epsilon}, r + {key}, (rest - {key}) - {Epsilon}, if key !in r then count + 1 else count)
  {
    if key == Epsilon {
      assert (rest - {key}) - {Epsilon} == rest - {Epsilon};
    } else {
      MergeStep(a, b - {Epsilon}, r, rest - {Epsilon}, count, key);
      assert (rest - {key}) - {Epsilon} == (rest - {Epsilon}) - {key};
    }
  }

  /** follow.go's removeEmptyAndMergeSet: merges `b` into `a`, skipping "&"
      without taking it out of `b`, and counts the members new to `a`. */
  method RemoveEmptyAndMergeSet(a: set<string>, b: set<string>) returns (r: set<string>, count: nat)
    ensures r == a + (b - {Epsilon})
    ensures count == |(b - {Epsilon}) - a|
    ensures count == 0 <==> b - {Epsilon} <= a
  {
    r := a;
    count := 0;
    var rest := b;
    while rest != {}
      invariant MergeInv(a, b - {Epsilon}, r, rest - {Epsilon}, count)
      decreases rest
    {
      var key :| key in rest;
      SkipStep(a, b, r, rest, count, key);
      if key == Epsilon {
        rest := rest - {key};
        continue;
      }
      if key !in r {
        count := count + 1;
      }
      r := r + {key};
      rest := rest - {key};
    }
    MergeEnd(a, b - {Epsilon}, r, count);
  }

  /** One merge of the scan: the piece at position `p` goes into the set of
      the nonterminal at position `i`. */
  method AddPiece(first: SetMap, fs: SetMap, left: string, v: string, i: int, p: int) returns (f': SetMap, count: nat)
    requires 0 <= i < p <= |v| && [v[i]] in fs
    ensures f' == fs[[v[i]] := Get(fs, [v[i]]) + Piece(first, fs, left, v, p)]
    ensures count == 0 <==> Piece(first, fs, left, v, p) <= Get(fs, [v[i]])
  {
    var b := [v[i]];
    var cur := fs[b];
    ghost var piece := Piece(first, fs, left, v, p);
    assert cur == Get(fs, b);
    var merged;
    if p == |v| {
      merged, count := RemoveEmptyAndMergeSet(cur, Get(fs, left));
      assert Get(fs, left) - {Epsilon} == piece;
    } else if IsTerminal(v[p]) {
      merged, count := MergeSet(cur, {[v[p]]});
      assert {[v[p]]} == piece;
    } else {
      merged, count := RemoveEmptyAndMergeSet(cur, Get(first, [v[p]]));
      assert Get(first, [v[p]]) - {Epsilon} == piece;
    }
    f' := fs[b := merged];
  }

  /** Every piece the scan for position `i` looked at before `p` is in
      the set of the nonterminal there. */
  ghost predicate PiecesIn(first: SetMap, f: SetMap, left: string, v: string, i: int, p: int)
    requires 0 <= i < |v| && p <= |v| + 1
  {
    forall q :: i < q < p ==> Piece(first, f, left, v, q) <= Get(f, [v[i]])
  }

  /** A scan that stopped at `p` with every piece present closes position `i`. */
  lemma {:induction false} PiecesCover(rules: RuleMap, first: SetMap, f: SetMap, left: string, v: string, i: int, q: int, p: int)
    requires Reaches(rules, v, i, p) && Stops(rules, v, p) && i < q <= p
    requires PiecesIn(first, f, left, v, i, p + 1)
    ensures FollowFrom(rules, first, f, left, v, q) <= Get(f, [v[i]])
    decreases p - q
  {
    assert Piece(first, f, left, v, q) <= Get(f, [v[i]]);
    if q < p {
      assert !Stops(rules, v, q);
      PiecesCover(rules, first, f, left, v, i, q + 1, p);
    }
  }

  /** What holds in the offset loop once the scan for position `i` has
      reached position `p`. */
  ghost predicate ScanInv(rules: RuleMap, first: SetMap, start: string, f0: SetMap, fs: SetMap, changed: bool, left: string, v: string, i: int, p: int)
  {
    && Reaches(rules, v, i, p)
    && LevelInv(rules, first, start, f0, fs, changed)
    && (!changed ==> PiecesIn(first, f0, left, v, i, p))
  }

  /** One merge of the offset loop keeps ScanInv, and when the scan stops
      there with nothing new, position `i` is closed. */
  lemma ScanStep(rules: RuleMap, first: SetMap, start: string, f0: SetMap, f1: SetMap, f2: SetMap, changed: bool, count: nat, left: string, v: string, i: int, p: int)
    requires left in rules && v in rules[left]
    requires ScanInv(rules, first, start, f0, f1, changed, left, v, i, p) && !IsTerminal(v[i]) && [v[i]] in first
    requires f2 == f1[[v[i]] := Get(f1, [v[i]]) + Piece(first, f1, left, v, p)]
    requires count == 0 <==> Piece(first, f1, left, v, p) <= Get(f1, [v[i]])
    ensures !Stops(rules, v, p) ==> ScanInv(rules, first, start, f0, f2, changed || count != 0, left, v, i, p + 1)
    ensures Stops(rules, v, p) ==> LevelInv(rules, first, start, f0, f2, changed || count != 0)
    ensures Stops(rules, v, p) && !(changed || count != 0) ==> PosClosed(rules, first, f2, left, v, i)
  {
    var b := [v[i]];
    SoundPiece(rules, first, start, f1, left, v, i, p);
    Added(f1, b, Piece(first, f1, left, v, p));
    LevelChain(rules, first, start, f0, f1, f2, changed, count != 0);
    if !Stops(rules, v, p) {
      assert Reaches(rules, v, i, p + 1);
    }
    if !(changed || count != 0) {
      assert PiecesIn(first, f0, left, v, i, p + 1);
      if Stops(rules, v, p) {
        PiecesCover(rules, first, f0, left, v, i, i + 1, p);
      }
    }
  }

  /** The offset loop of GetFollowSet for the nonterminal at position `i`
      of alternative `v` of `left`. */
  method ScanPosition(r: Rule, first: SetMap, start: string, f0: SetMap, left: string, v: string, i: int) returns (fs: SetMap, changed: bool)
    requires left in r.rules && v in r.rules[left] && 0 <= i < |v| && !IsTerminal(v[i])
    requires Known(r.rules, first)
    requires LevelInv(r.rules, first, start, f0, f0, false)
    ensures LevelInv(r.rules, first, start, f0, fs, changed)
    ensures !changed ==> PosClosed(r.rules, first, fs, left, v, i)
  {
    ghost var rules := r.rules;
    assert [v[i]] in first;
    fs := f0;
    changed := false;
    var offset := 1;
    while true
      invariant ScanInv(rules, first, start, f0, fs, changed, left, v, i, i + offset)
      decreases |v| - offset
    {
      var p := i + offset;
      ghost var before := fs;
      var count;
      fs, count := AddPiece(first, fs, left, v, i, p);
      ScanStep(rules, first, start, f0, before, fs, changed, count, left, v, i, p);
      if count != 0 {
        changed := true;
      }
      if p == |v| {
        break;
      } else if IsTerminal(v[p]) {
        break;
      } else if r.HaveEmptySet([v[p]]) {
        offset := offset + 1;
        continue;
      } else {
        break;
      }
    }
  }

  /** What holds in the loop over the positions of alternative `v` of
      `left` once the first `n` positions are done. */
  ghost predicate AltInv(rules: RuleMap, first: SetMap, start: string, f0: SetMap, fs: SetMap, changed: bool, left: string, v: string, n: int)
  {
    && 0 <= n <= |v|
    && LevelInv(rules, first, start, f0, fs, changed)
    && (!changed ==> forall j :: 0 <= j < n ==> PosClosed(rules, first, f0, left, v, j))
  }

  /** One more position keeps AltInv. */
  lemma AltStep(rules: RuleMap, first: SetMap, start: string, f0: SetMap, f1: SetMap, f2: SetMap, c1: bool, c2: bool, left: string, v: string, n: int)
    requires AltInv(rules, first, start, f0, f1, c1, left, v, n) && n < |v|
    requires LevelInv(rules, first, start, f1, f2, c2)
    requires !c2 ==> PosClosed(rules, first, f2, left, v, n)
    ensures AltInv(rules, first, start, f0, f2, c1 || c2, left, v, n + 1)
  {
    LevelChain(rules, first, start, f0, f1, f2, c1, c2);
  }

  /** The loop over the characters of alternative `v` of `left`: every
      nonterminal gets its offset scan. */
  method FollowOfAlt(r: Rule, first: SetMap, start: string, f0: SetMap, left: string, v: string) returns (fs: SetMap, changed: bool)
    requires left in r.rules && v in r.rules[left] && Known(r.rules, first)
    requires LevelInv(r.rules, first, start, f0, f0, false)
    ensures LevelInv(r.rules, first, start, f0, fs, changed)
    ensures !changed ==> AltFollowClosed(r.rules, first, fs, left, v)
  {
    ghost var rules := r.rules;
    fs := f0;
    changed := false;
    var index := 0;
    while index < |v|
      invariant AltInv(rules, first, start, f0, fs, changed, left, v, index)
    {
      if IsTerminal(v[index]) {
        assert PosClosed(rules, first, f0, left, v, index);
        index := index + 1;
        continue;
      }
      ghost var before := fs;
      LevelNone(rules, first, start, fs);
      var c;
      fs, c := ScanPosition(r, first, start, fs, left, v, index);
      AltStep(rules, first, start, f0, before, fs, changed, c, left, v, index);
      if c {
        changed := true;
      }
      index := index + 1;
    }
  }

  /** What holds in the loop over the alternatives `alts` of `left` once
      the first `n` are done. */
  ghost predicate KeyFollowInv(rules: RuleMap, first: SetMap, start: string, f0: SetMap, fs: SetMap, changed: bool, left: string, alts: seq<string>, n: int)
  {
    && 0 <= n <= |alts|
    && LevelInv(rules, first, start, f0, fs, changed)
    && (!changed ==> forall j :: 0 <= j < n ==> AltFollowClosed(rules, first, f0, left, alts[j]))
  }

  /** One more alternative keeps KeyFollowInv. */
  lemma KeyFollowStep(rules: RuleMap, first: SetMap, start: string, f0: SetMap, f1: SetMap, f2: SetMap, c1: bool, c2: bool, left: string, alts: seq<string>, n: int)
    requires KeyFollowInv(rules, first, start, f0, f1, c1, left, alts, n) && n < |alts|
    requires LevelInv(rules, first, start, f1, f2, c2)
    requires !c2 ==> AltFollowClosed(rules, first, f2, left, alts[n])
    ensures KeyFollowInv(rules, first, start, f0, f2, c1 || c2, left, alts, n + 1)
  {
    LevelChain(rules, first, start, f0, f1, f2, c1, c2);
  }

  /** The loop over the alternatives of `left`. */
  method FollowOfKey(r: Rule, first: SetMap, start: string, f0: SetMap, left: string) returns (fs: SetMap, changed: bool)
    requires left in r.rules && Known(r.rules, first)
    requires LevelInv(r.rules, first, start, f0, f0, false)
    ensures LevelInv(r.rules, first, start, f0, fs, changed)
    ensures !changed ==> KeyFollowClosed(r.rules, first, fs, left)
  {
    ghost var rules := r.rules;
    var right := r.rules[left];
    fs := f0;
    changed := false;
    var i := 0;
    while i < |right|
      invariant KeyFollowInv(rules, first, start, f0, fs, changed, left, right, i)
    {
      ghost var before := fs;
      LevelNone(rules, first, start, fs);
      var c;
      fs, c := FollowOfAlt(r, first, start, fs, left, right[i]);
      KeyFollowStep(rules, first, start, f0, before, fs, changed, c, left, right, i);
      if c {
        changed := true;
      }
      i := i + 1;
    }
    if !changed {
      forall v | v in rules[left] ensures AltFollowClosed(rules, first, fs, left, v) {
        var j :| 0 <= j < |right| && right[j] == v;
      }
    }
  }

  /** What holds in a pass once the left sides outside `todo` are done. */
  ghost predicate FollowPassInv(rules: RuleMap, first: SetMap, start: string, f0: SetMap, fs: SetMap, changed: bool, todo: set<string>)
  {
    && todo <= rules.Keys
    && LevelInv(rules, first, start, f0, fs, changed)
    && (!changed ==> forall l :: l in rules.Keys - todo ==> KeyFollowClosed(rules, first, f0, l))
  }

  /** One more left side keeps FollowPassInv. */
  lemma FollowPassStep(rules: RuleMap, first: SetMap, start: string, f0: SetMap, f1: SetMap, f2: SetMap, c1: bool, c2: bool, todo: set<string>, left: string)
    requires FollowPassInv(rules, first, start, f0, f1, c1, todo) && left in todo
    requires LevelInv(rules, first, start, f1, f2, c2)
    requires !c2 ==> KeyFollowClosed(rules, first, f2, left)
    ensures FollowPassInv(rules, first, start, f0, f2, c1 || c2, todo - {left})
  {
    LevelChain(rules, first, start, f0, f1, f2, c1, c2);
  }

  /** One pass of GetFollowSet over every left side, in any order. */
  method FollowPass(r: Rule, first: SetMap, start: string, f0: SetMap) returns (fs: SetMap, changed: bool)
    requires Known(r.rules, first)
    requires LevelInv(r.rules, first, start, f0, f0, false)
    ensures LevelInv(r.rules, first, start, f0, fs, changed)
    ensures !changed ==> forall l :: KeyFollowClosed(r.rules, first, fs, l)
  {
    ghost var rules := r.rules;
    fs := f0;
    changed := false;
    var todo := r.rules.Keys;
    while todo != {}
      invariant FollowPassInv(rules, first, start, f0, fs, changed, todo)
      decreases todo
    {
      var left :| left in todo;
      ghost var before := fs;
      LevelNone(rules, first, start, fs);
      var c;
      fs, c := FollowOfKey(r, first, start, fs, left);
      FollowPassStep(rules, first, start, f0, before, fs, changed, c, todo, left);
      if c {
        changed := true;
      }
      todo := todo - {left};
    }
    if !changed {
      forall l ensures KeyFollowClosed(rules, first, fs, l) {
        assert l in rules ==> l in rules.Keys - todo;
      }
    }
  }

  /** The table GetFollowSet starts its passes from: an empty set for every
      key of `first`, and "#" for the start symbol. */
  function Initial(first: SetMap, start: string): (f: SetMap)
    requires start in first
    ensures f.Keys == first.Keys
    ensures forall k :: k != start ==> Get(f, k) == {}
    ensures Get(f, start) == {EndMarker}
  {
    (map k | k in first :: {})[start := {EndMarker}]
  }

  /** The initial table is below every closed table and within bounds. */
  lemma InitialSound(rules: RuleMap, first: SetMap, start: string)
    requires start in first
    ensures FSound(rules, first, start, Initial(first, start))
    ensures forall k :: Get(Initial(first, start), k) <= FTerms(rules, first)
  {
  }

  /** GetFollowSet: with no FIRST sets the result is empty; otherwise every
      key of `first` gets a set, "#" goes to the start symbol, and passes
      repeat until one changes nothing. The result is closed under the
      rules and is the least such table. */
  method GetFollowSet(r: Rule, start: string, first: SetMap) returns (fs: SetMap)
    requires |first| == 0 || (start in first && Known(r.rules, first))
    ensures |first| == 0 ==> fs == map[]
    ensures |first| > 0 ==> fs.Keys == first.Keys
    ensures |first| > 0 ==> FollowClosed(r.rules, first, start, fs)
    ensures |first| > 0 ==> forall g :: FollowClosed(r.rules, first, start, g) ==> Below(fs, g)
  {
    fs := map[];
    if |first| == 0 {
      return;
    }
    var todo := first.Keys;
    while todo != {}
      invariant todo <= first.Keys
      invariant fs == map k | k in first.Keys - todo :: {}
      decreases todo
    {
      var key :| key in todo;
      fs := fs[key := {}];
      todo := todo - {key};
    }
    assert first.Keys - todo == first.Keys;
    assert fs == map k | k in first :: {};
    fs := fs[start := fs[start] + {EndMarker}];
    assert fs == Initial(first, start);
    InitialSound(r.rules, first, start);
    ghost var rules := r.rules;
    while true
      invariant LevelInv(rules, first, start, fs, fs, false)
      invariant EndMarker in Get(fs, start)
      decreases Cells(first.Keys, FTerms(rules, first)) - Pairs(fs)
    {
      ghost var before := fs;
      var changed;
      fs, changed := FollowPass(r, first, start, fs);
      if !changed {
        return;
      }
      Progress(before, fs, first.Keys, FTerms(rules, first));
      LevelNone(rules, first, start, fs);
    }
  }
}
