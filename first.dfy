/** FIRST sets of the LL(1) front end (grammarLL1/first/first.go).
    A FIRST set table maps a nonterminal to the set of terminals, each a
    one-character string, that can begin it. The algorithm looks only at the
    first symbol of each alternative: a terminal is added as it is, and the
    FIRST set of a nonterminal is added without its empty marker "&". */
module First {
  import opened Symbols
  import opened Rules

  /** Go's map[string]map[string]struct{}: a table of string sets. */
  type SetMap = map<string, set<string>>

  /** The set for `k`; a missing key reads as Go's nil map, which is empty. */
  function Get(fs: SetMap, k: string): set<string>
  {
    if k in fs then fs[k] else {}
  }

  /** What holds while mergeSet has `rest` still to add. */
  ghost predicate MergeInv(a: set<string>, b: set<string>, r: set<string>, rest: set<string>, count: nat)
  {
    rest <= b && r == a + (b - rest) && count == |(b - rest) - a|
  }

  /** Adding a `key` that is in neither set adds one new member. */
  lemma NewMember(a: set<string>, done: set<string>, key: string)
    ensures key !in a + done ==> |(done + {key}) - a| == |done - a| + 1
  {
    if key !in a + done {
      assert (done + {key}) - a == (done - a) + {key};
    }
  }

  /** Adding one more member of `rest` keeps MergeInv, counting it if new. */
  lemma MergeStep(a: set<string>, b: set<string>, r: set<string>, rest: set<string>, count: nat, key: string)
    requires MergeInv(a, b, r, rest, count) && key in rest
    ensures MergeInv(a, b, r + {key}, rest - {key}, if key !in r then count + 1 else count)
  {
    var done := b - rest;
    assert b - (rest - {key}) == done + {key};
    NewMember(a, done, key);
    if key in r && key !in done {
      assert (done + {key}) - a == done - a;
    }
  }

  /** mergeSet: adds every member of `b` to `a` one at a time and counts the
      members that were new to `a`. */
  method MergeSet(a: set<string>, b: set<string>) returns (r: set<string>, count: nat)
    ensures r == a + b
    ensures count == |b - a|
    ensures count == 0 <==> b <= a
  {
    r := a;
    count := 0;
    var rest := b;
    while rest != {}
      invariant MergeInv(a, b, r, rest, count)
      decreases rest
    {
      var key :| key in rest;
      MergeStep(a, b, r, rest, count, key);
      if key !in r {
        count := count + 1;
      }
      r := r + {key};
      rest := rest - {key};
    }
    MergeEnd(a, b, r, count);
  }

  /** When nothing is left to add, the merge is complete. */
  lemma MergeEnd(a: set<string>, b: set<string>, r: set<string>, count: nat)
    requires MergeInv(a, b, r, {}, count)
    ensures r == a + b && count == |b - a| && (count == 0 <==> b <= a)
  {
    assert b - {} == b;
    assert count == 0 ==> b - a == {};
  }

  /** removeEmptyAndMergeSet: merges `b` without the empty marker "&" into
      `a`; `b` itself, from which the marker is taken out for the merge, is
      returned as it was given. */
  method RemoveEmptyAndMergeSet(a: set<string>, b: set<string>) returns (r: set<string>, count: nat, restored: set<string>)
    ensures r == a + (b - {Epsilon})
    ensures count == |(b - {Epsilon}) - a|
    ensures count == 0 <==> b - {Epsilon} <= a
    ensures restored == b
  {
    var flag := Epsilon in b;
    var b' := b - {Epsilon};
    r, count := MergeSet(a, b');
    if flag {
      b' := b' + {Epsilon};
    }
    restored := b';
  }

  /** Every alternative is non-empty: GetFirstSet reads `v[0]` of each. */
  predicate NoEmptyAlternative(rules: RuleMap)
  {
    forall k :: k in rules ==> forall v :: v in rules[k] ==> |v| > 0
  }

  /** What alternative `v` adds to the FIRST set of its left side: its first
      symbol when that is a terminal, else the FIRST set of that nonterminal
      without "&". */
  function Contribution(fs: SetMap, v: string): set<string>
    requires |v| > 0
  {
    if IsTerminal(v[0]) then {[v[0]]} else Get(fs, [v[0]]) - {Epsilon}
  }

  /** The contribution of alternative `v` of `key` is present in `fs`. */
  ghost predicate AltClosed(fs: SetMap, key: string, v: string)
    requires |v| > 0
  {
    Contribution(fs, v) <= Get(fs, key)
  }

  /** Every alternative of `key` has its contribution present in `fs`. */
  ghost predicate KeyClosed(rules: RuleMap, fs: SetMap, key: string)
    requires NoEmptyAlternative(rules)
  {
    key in rules ==> forall v :: v in rules[key] ==> AltClosed(fs, key, v)
  }

  /** `fs` is closed under the FIRST rules of every left side. */
  ghost predicate FirstClosed(rules: RuleMap, fs: SetMap)
    requires NoEmptyAlternative(rules)
  {
    forall key :: KeyClosed(rules, fs, key)
  }

  /** Every set of `f` is contained in the matching set of `g`. */
  ghost predicate Below(f: SetMap, g: SetMap)
  {
    forall k :: Get(f, k) <= Get(g, k)
  }

  /** `f` is below every closed table: it holds nothing that the rules do not force. */
  ghost predicate Sound(rules: RuleMap, f: SetMap)
    requires NoEmptyAlternative(rules)
  {
    forall g :: FirstClosed(rules, g) ==> Below(f, g)
  }

  /** The terminals that begin some alternative. */
  ghost function Terms(rules: RuleMap): set<string>
  {
    set k, v | k in rules && v in rules[k] && |v| > 0 && IsTerminal(v[0]) :: [v[0]]
  }

  /** Every set of `f` holds only terminals that begin some alternative. */
  ghost predicate Bounded(rules: RuleMap, f: SetMap)
  {
    forall k :: Get(f, k) <= Terms(rules)
  }

  /** The (left side, terminal) pairs recorded in `f`. */
  ghost function Pairs(f: SetMap): set<(string, string)>
  {
    set k, a | k in f && a in f[k] :: (k, a)
  }

  /** Every pair a table with keys in `keys` and members in `terms` can hold. */
  ghost function Cells(keys: set<string>, terms: set<string>): set<(string, string)>
  {
    set k, a | k in keys && a in terms :: (k, a)
  }

  /** Every pair a table within the rules' bounds can hold. */
  ghost function Universe(rules: RuleMap): set<(string, string)>
  {
    Cells(rules.Keys, Terms(rules))
  }

  /** Soundness and bounds depend only on the sets a table yields, so an
      added empty set changes neither. */
  lemma SameSets(rules: RuleMap, f: SetMap, f': SetMap)
    requires NoEmptyAlternative(rules)
    requires forall k :: Get(f, k) == Get(f', k)
    ensures Sound(rules, f) ==> Sound(rules, f')
    ensures Bounded(rules, f) ==> Bounded(rules, f')
  {
    if Sound(rules, f) {
      forall g | FirstClosed(rules, g) ensures Below(f', g) {
        assert Below(f, g);
      }
    }
  }

  /** Adding the contribution of an alternative of `key` keeps `fs` sound
      and within the terminals of the rules. */
  lemma SoundStep(rules: RuleMap, fs: SetMap, key: string, v: string)
    requires NoEmptyAlternative(rules) && Sound(rules, fs) && Bounded(rules, fs)
    requires key in rules && v in rules[key]
    ensures var f' := fs[key := Get(fs, key) + Contribution(fs, v)];
      Sound(rules, f') && Bounded(rules, f')
  {
    var f' := fs[key := Get(fs, key) + Contribution(fs, v)];
    forall g | FirstClosed(rules, g) ensures Below(f', g) {
      assert Below(fs, g);
      assert KeyClosed(rules, g, key);
      assert AltClosed(g, key, v);
      if !IsTerminal(v[0]) {
        assert Get(fs, [v[0]]) <= Get(g, [v[0]]);
      }
      forall k ensures Get(f', k) <= Get(g, k) {
        assert Get(fs, k) <= Get(g, k);
      }
    }
    if IsTerminal(v[0]) {
      assert [v[0]] in Terms(rules);
    }
    forall k ensures Get(f', k) <= Terms(rules) {
      assert Get(fs, k) <= Terms(rules);
      assert Get(fs, [v[0]]) <= Terms(rules);
    }
  }

  /** The body of the inner loop of GetFirstSet for alternative `v` of `key`. */
  method AddAlternative(fs: SetMap, key: string, v: string) returns (f': SetMap, count: nat)
    requires key in fs && |v| > 0
    ensures f' == fs[key := Get(fs, key) + Contribution(fs, v)]
    ensures count == 0 <==> AltClosed(fs, key, v)
    ensures count == 0 ==> f' == fs
    ensures count != 0 ==> exists a :: a in Get(f', key) && a !in Get(fs, key)
    ensures forall k :: Get(fs, k) <= Get(f', k)
    ensures forall k :: k != key ==> Get(f', k) == Get(fs, k)
  {
    var merged, restored;
    if IsTerminal(v[0]) {
      merged, count := MergeSet(fs[key], {[v[0]]});
    } else {
      merged, count, restored := RemoveEmptyAndMergeSet(fs[key], Get(fs, [v[0]]));
    }
    f' := fs[key := merged];
    if count == 0 {
      assert Get(fs, key) + Contribution(fs, v) == fs[key];
    }
  }

  /** No set of `f0` loses a member in `f`. */
  ghost predicate Grows(f0: SetMap, f: SetMap)
  {
    forall k :: Get(f0, k) <= Get(f, k)
  }

  /** Some set of `f` has a member that the matching set of `f0` lacks. */
  ghost predicate Grew(f0: SetMap, f: SetMap)
  {
    exists k, a :: a in Get(f, k) && a !in Get(f0, k)
  }

  /** `f0` and `f` yield the same sets. */
  ghost predicate Same(f0: SetMap, f: SetMap)
  {
    forall k :: Get(f0, k) == Get(f, k)
  }

  /** Every left side in `keys` is closed in `f`. */
  ghost predicate ClosedOn(rules: RuleMap, f: SetMap, keys: set<string>)
    requires NoEmptyAlternative(rules)
  {
    forall k :: k in keys ==> KeyClosed(rules, f, k)
  }

  /** Growth composes, and a table that grew at either step grew overall. */
  lemma Chain(f0: SetMap, f1: SetMap, f2: SetMap)
    requires Grows(f0, f1) && Grows(f1, f2)
    ensures Grows(f0, f2)
    ensures Grew(f0, f1) || Grew(f1, f2) ==> Grew(f0, f2)
    ensures Same(f0, f1) && Same(f1, f2) ==> Same(f0, f2)
  {
    if Grew(f0, f1) {
      var k, a :| a in Get(f1, k) && a !in Get(f0, k);
      assert a in Get(f2, k);
    }
    if Grew(f1, f2) {
      var k, a :| a in Get(f2, k) && a !in Get(f1, k);
      assert Get(f0, k) <= Get(f1, k);
    }
  }

  /** How the facts about a pass carry over when one more left side is done. */
  lemma PassStep(rules: RuleMap, f0: SetMap, f1: SetMap, f2: SetMap, keys: set<string>)
    requires NoEmptyAlternative(rules)
    requires Grows(f0, f1) && Grows(f1, f2)
    ensures Grows(f0, f2)
    ensures Grew(f0, f1) || Grew(f1, f2) ==> Grew(f0, f2)
    ensures Same(f0, f1) && Same(f1, f2) ==> Same(f0, f2)
    ensures Same(f1, f2) && ClosedOn(rules, f1, keys) ==> ClosedOn(rules, f2, keys)
  {
    Chain(f0, f1, f2);
    if Same(f1, f2) && ClosedOn(rules, f1, keys) {
      forall k | k in keys ensures KeyClosed(rules, f2, k) {
        if k in rules {
          forall v | v in rules[k] ensures AltClosed(f2, k, v) {
            assert KeyClosed(rules, f1, k);
            assert AltClosed(f1, k, v);
            assert Get(f1, k) == Get(f2, k);
            if !IsTerminal(v[0]) {
              assert Get(f1, [v[0]]) == Get(f2, [v[0]]);
            }
          }
        }
      }
    }
  }

  /** Adding `s` to the set of `key`: the table grows, grew when `s` was
      not already there, and is unchanged when it was. */
  lemma Added(fs: SetMap, key: string, s: set<string>)
    requires key in fs
    ensures Grows(fs, fs[key := Get(fs, key) + s])
    ensures !(s <= Get(fs, key)) ==> Grew(fs, fs[key := Get(fs, key) + s])
    ensures s <= Get(fs, key) ==> fs[key := Get(fs, key) + s] == fs
  {
    var f' := fs[key := Get(fs, key) + s];
    if !(s <= Get(fs, key)) {
      var a :| a in s && a !in Get(fs, key);
      assert a in Get(f', key);
    } else {
      assert Get(fs, key) + s == fs[key];
    }
  }

  /** A table that grew within fixed bounds leaves fewer pairs missing. */
  lemma Progress(f0: SetMap, f: SetMap, keys: set<string>, terms: set<string>)
    requires Grows(f0, f) && Grew(f0, f)
    requires f.Keys <= keys && forall k :: Get(f, k) <= terms
    ensures Cells(keys, terms) - Pairs(f) < Cells(keys, terms) - Pairs(f0)
  {
    var key, a :| a in Get(f, key) && a !in Get(f0, key);
    assert Pairs(f0) <= Pairs(f) by {
      forall p | p in Pairs(f0) ensures p in Pairs(f) {
        var k, b :| k in f0 && b in f0[k] && p == (k, b);
        assert b in Get(f0, k);
      }
    }
    assert (key, a) in Pairs(f);
    assert (key, a) !in Pairs(f0);
    assert a in terms;
    assert (key, a) in Cells(keys, terms);
  }

  /** What holds of the pass over the alternatives `r` of `key` once the
      first `i` of them are done. */
  ghost predicate KeyInv(rules: RuleMap, f0: SetMap, fs: SetMap, key: string, r: seq<string>, i: int, changed: bool)
    requires NoEmptyAlternative(rules) && key in rules && r == rules[key]
  {
    && 0 <= i <= |r|
    && key in fs && fs.Keys == f0.Keys + {key}
    && Sound(rules, fs) && Bounded(rules, fs)
    && Grows(f0, fs)
    && (changed ==> Grew(f0, fs))
    && (!changed ==> Same(f0, fs) && forall j :: 0 <= j < i ==> AltClosed(fs, key, r[j]))
  }

  /** Doing one more alternative keeps KeyInv. */
  lemma KeyInvStep(rules: RuleMap, f0: SetMap, f1: SetMap, f2: SetMap, key: string, r: seq<string>, i: int, changed: bool, count: nat)
    requires NoEmptyAlternative(rules) && key in rules && r == rules[key]
    requires KeyInv(rules, f0, f1, key, r, i, changed) && i < |r|
    requires f2 == f1[key := Get(f1, key) + Contribution(f1, r[i])]
    requires count == 0 <==> AltClosed(f1, key, r[i])
    requires count == 0 ==> f2 == f1
    requires count != 0 ==> exists a :: a in Get(f2, key) && a !in Get(f1, key)
    requires forall k :: Get(f1, k) <= Get(f2, k)
    ensures KeyInv(rules, f0, f2, key, r, i + 1, changed || count != 0)
  {
    assert r[i] in rules[key];
    SoundStep(rules, f1, key, r[i]);
    PassStep(rules, f0, f1, f2, {});
  }

  /** One pass of GetFirstSet over the alternatives of one left side. */
  method FirstOfKey(rules: RuleMap, f0: SetMap, key: string) returns (fs: SetMap, changed: bool)
    requires NoEmptyAlternative(rules) && key in rules
    requires Sound(rules, f0) && Bounded(rules, f0)
    ensures fs.Keys == f0.Keys + {key}
    ensures Sound(rules, fs) && Bounded(rules, fs)
    ensures Grows(f0, fs)
    ensures changed ==> Grew(f0, fs)
    ensures !changed ==> Same(f0, fs) && KeyClosed(rules, fs, key)
  {
    fs := f0;
    if key !in fs {
      fs := fs[key := {}];
    }
    SameSets(rules, f0, fs);
    changed := false;
    var r := rules[key];
    var i := 0;
    while i < |r|
      invariant KeyInv(rules, f0, fs, key, r, i, changed)
    {
      ghost var before := fs;
      var count;
      fs, count := AddAlternative(fs, key, r[i]);
      KeyInvStep(rules, f0, before, fs, key, r, i, changed, count);
      if count != 0 {
        changed := true;
      }
      i := i + 1;
    }
  }

  /** What holds of a pass over every left side once the keys outside
      `todo` are done. */
  ghost predicate PassInv(rules: RuleMap, f0: SetMap, fs: SetMap, todo: set<string>, changed: bool)
    requires NoEmptyAlternative(rules)
  {
    && todo <= rules.Keys
    && fs.Keys == f0.Keys + (rules.Keys - todo)
    && Sound(rules, fs) && Bounded(rules, fs)
    && Grows(f0, fs)
    && (changed ==> Grew(f0, fs))
    && (!changed ==> Same(f0, fs) && ClosedOn(rules, fs, rules.Keys - todo))
  }

  /** Doing one more left side keeps PassInv. */
  lemma PassInvStep(rules: RuleMap, f0: SetMap, f1: SetMap, f2: SetMap, todo: set<string>, key: string, changed: bool, c: bool)
    requires NoEmptyAlternative(rules) && key in todo
    requires PassInv(rules, f0, f1, todo, changed)
    requires f2.Keys == f1.Keys + {key}
    requires Sound(rules, f2) && Bounded(rules, f2)
    requires Grows(f1, f2)
    requires c ==> Grew(f1, f2)
    requires !c ==> Same(f1, f2) && KeyClosed(rules, f2, key)
    ensures PassInv(rules, f0, f2, todo - {key}, changed || c)
  {
    PassStep(rules, f0, f1, f2, rules.Keys - todo);
  }

  /** One pass of GetFirstSet over every left side, in any order. */
  method FirstPass(rules: RuleMap, f0: SetMap) returns (fs: SetMap, changed: bool)
    requires NoEmptyAlternative(rules)
    requires Sound(rules, f0) && Bounded(rules, f0) && f0.Keys <= rules.Keys
    ensures fs.Keys == rules.Keys
    ensures Sound(rules, fs) && Bounded(rules, fs)
    ensures changed ==> Universe(rules) - Pairs(fs) < Universe(rules) - Pairs(f0)
    ensures !changed ==> FirstClosed(rules, fs)
  {
    fs := f0;
    changed := false;
    var todo := rules.Keys;
    while todo != {}
      invariant PassInv(rules, f0, fs, todo, changed)
      decreases todo
    {
      var key :| key in todo;
      ghost var before := fs;
      var c;
      fs, c := FirstOfKey(rules, fs, key);
      PassInvStep(rules, f0, before, fs, todo, key, changed, c);
      if c {
        changed := true;
      }
      todo := todo - {key};
    }
    PassEnd(rules, f0, fs, changed);
  }

  /** At the end of a pass, a change shrinks the pairs still missing, and
      no change leaves a closed table. */
  lemma PassEnd(rules: RuleMap, f0: SetMap, fs: SetMap, changed: bool)
    requires NoEmptyAlternative(rules) && f0.Keys <= rules.Keys
    requires PassInv(rules, f0, fs, {}, changed)
    ensures changed ==> Universe(rules) - Pairs(fs) < Universe(rules) - Pairs(f0)
    ensures !changed ==> FirstClosed(rules, fs)
  {
    if changed {
      Progress(f0, fs, rules.Keys, Terms(rules));
    } else {
      forall key ensures KeyClosed(rules, fs, key) {
        assert key in rules ==> key in rules.Keys - {};
      }
    }
  }

  /** GetFirstSet: repeats passes until one changes nothing. The result has
      a set for every left side, is closed under the rules, and is the least
      such table. */
  method GetFirstSet(r: Rule) returns (fs: SetMap)
    requires NoEmptyAlternative(r.rules)
    ensures fs.Keys == r.rules.Keys
    ensures FirstClosed(r.rules, fs)
    ensures forall g :: FirstClosed(r.rules, g) ==> Below(fs, g)
    ensures forall k :: Get(fs, k) <= Terms(r.rules)
  {
    var rules := r.rules;
    fs := map[];
    while true
      invariant Sound(rules, fs) && Bounded(rules, fs) && fs.Keys <= rules.Keys
      decreases Universe(rules) - Pairs(fs)
    {
      var changed;
      fs, changed := FirstPass(rules, fs);
      if !changed {
        return;
      }
    }
  }

  /** haveEmpty: the set of `first` holds the empty marker. */
  function HaveEmpty(fs: SetMap, first: string): (b: bool)
    ensures b <==> Epsilon in Get(fs, first)
  {
    first in fs && Epsilon in fs[first]
  }

  /** IsInFirstSet: scans the set of `first` for `target`. */
  method IsInFirstSet(fs: SetMap, first: string, target: string) returns (b: bool)
    ensures b <==> target in Get(fs, first)
  {
    var rest := Get(fs, first);
    while rest != {}
      invariant rest <= Get(fs, first)
      invariant target !in Get(fs, first) - rest
      decreases rest
    {
      var key :| key in rest;
      if key == target {
        return true;
      }
      rest := rest - {key};
    }
    return false;
  }

  /** A left side with an empty alternative has "&" in any closed table. */
  lemma EmptyAlternativeGivesEpsilon(rules: RuleMap, fs: SetMap, x: string)
    requires NoEmptyAlternative(rules) && FirstClosed(rules, fs)
    requires x in rules && Epsilon in rules[x]
    ensures HaveEmpty(fs, x)
  {
    assert KeyClosed(rules, fs, x);
    assert AltClosed(fs, x, Epsilon);
  }

  /** In the least closed table, "&" is in the set of `x` only when an
      alternative of `x` itself begins with "&": "&" is never taken over
      from a nonterminal. */
  lemma EpsilonOnlyFromEmptyAlternative(rules: RuleMap, fs: SetMap, x: string)
    requires NoEmptyAlternative(rules) && FirstClosed(rules, fs)
    requires forall g :: FirstClosed(rules, g) ==> Below(fs, g)
    requires HaveEmpty(fs, x)
    ensures x in rules && exists v :: v in rules[x] && |v| > 0 && [v[0]] == Epsilon
  {
    if !(x in rules && exists v :: v in rules[x] && |v| > 0 && [v[0]] == Epsilon) {
      var g := fs[x := Get(fs, x) - {Epsilon}];
      forall key ensures KeyClosed(rules, g, key) {
        if key in rules {
          assert KeyClosed(rules, fs, key);
          forall v | v in rules[key] ensures AltClosed(g, key, v) {
            assert AltClosed(fs, key, v);
          }
        }
      }
      assert FirstClosed(rules, g);
      assert false;
    }
  }
}
