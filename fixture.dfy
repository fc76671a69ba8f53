/** The expression grammar the LL(1) front end is exercised with
    (grammarLL1/rule_test.go): its FIRST and FOLLOW tables, worked out once
    by hand and shown to be the ones GetFirstSet and GetFollowSet compute. */
module Fixture {
  import opened Symbols
  import opened Rules
  import opened First
  import opened Follow

  /** The rule table that loading "E->TG\nG->ATG|&\nT->FS\nS->MFS|&\nF->(E)|i\nA->+|-\nM->*|/" builds. */
  const Grammar: RuleMap := map[
    "E" := ["TG"], "G" := ["ATG", "&"], "T" := ["FS"], "S" := ["MFS", "&"],
    "F" := ["(E)", "i"], "A" := ["+", "-"], "M" := ["*", "/"]]

  /** The FIRST sets of the grammar. */
  const FirstTable: SetMap := map[
    "E" := {"(", "i"}, "G" := {"+", "-", "&"}, "T" := {"(", "i"}, "S" := {"*", "/", "&"},
    "F" := {"(", "i"}, "A" := {"+", "-"}, "M" := {"*", "/"}]

  /** The FOLLOW sets of the grammar with start symbol E. */
  const FollowTable: SetMap := map[
    "E" := {")", "#"}, "G" := {")", "#"}, "T" := {"+", "-", ")", "#"}, "S" := {"+", "-", ")", "#"},
    "F" := {"*", "/", "+", "-", ")", "#"}, "A" := {"(", "i"}, "M" := {"(", "i"}]

  lemma GrammarHasNoEmptyAlternative()
    ensures NoEmptyAlternative(Grammar)
  {
  }

  /** The hand-made FIRST table is closed under the rules. */
  lemma FirstTableClosed()
    ensures NoEmptyAlternative(Grammar)
    ensures FirstClosed(Grammar, FirstTable)
  {
    forall key
      ensures KeyClosed(Grammar, FirstTable, key)
    {
      if key in Grammar {
        forall v | v in Grammar[key]
          ensures AltClosed(FirstTable, key, v)
        {
          assert key in {"E", "G", "T", "S", "F", "A", "M"};
        }
      }
    }
  }

  /** A table below `t`, with the keys of `t`, that holds each set of `t` is `t`. */
  lemma Squeeze(fs: SetMap, t: SetMap)
    requires fs.Keys == t.Keys && Below(fs, t)
    requires forall k :: k in t ==> t[k] <= Get(fs, k)
    ensures fs == t
  {
    forall k | k in fs
      ensures fs[k] == t[k]
    {
      assert Get(fs, k) <= Get(t, k);
    }
  }

  /** F, A and M start with terminals only. */
  lemma FirstLowerLeaves(fs: SetMap)
    requires NoEmptyAlternative(Grammar) && FirstClosed(Grammar, fs)
    ensures {"(", "i"} <= Get(fs, "F") && {"+", "-"} <= Get(fs, "A") && {"*", "/"} <= Get(fs, "M")
  {
    assert KeyClosed(Grammar, fs, "F") && "(E)" in Grammar["F"] && "i" in Grammar["F"];
    assert AltClosed(fs, "F", "(E)") && AltClosed(fs, "F", "i");
    assert KeyClosed(Grammar, fs, "A") && AltClosed(fs, "A", "+") && AltClosed(fs, "A", "-");
    assert KeyClosed(Grammar, fs, "M") && AltClosed(fs, "M", "*") && AltClosed(fs, "M", "/");
  }

  /** T starts with F, and E with T. */
  lemma FirstLowerTE(fs: SetMap)
    requires NoEmptyAlternative(Grammar) && FirstClosed(Grammar, fs)
    ensures {"(", "i"} <= Get(fs, "T") && {"(", "i"} <= Get(fs, "E")
  {
    FirstLowerLeaves(fs);
    assert KeyClosed(Grammar, fs, "T") && AltClosed(fs, "T", "FS");
    assert KeyClosed(Grammar, fs, "E") && AltClosed(fs, "E", "TG");
  }

  /** G starts with A or is empty, and S starts with M or is empty. */
  lemma FirstLowerGS(fs: SetMap)
    requires NoEmptyAlternative(Grammar) && FirstClosed(Grammar, fs)
    ensures {"+", "-", "&"} <= Get(fs, "G") && {"*", "/", "&"} <= Get(fs, "S")
  {
    FirstLowerLeaves(fs);
    assert KeyClosed(Grammar, fs, "G") && AltClosed(fs, "G", "ATG") && AltClosed(fs, "G", "&");
    assert KeyClosed(Grammar, fs, "S") && AltClosed(fs, "S", "MFS") && AltClosed(fs, "S", "&");
  }

  /** Every closed FIRST table holds the hand-made one. */
  lemma FirstLower(fs: SetMap)
    requires NoEmptyAlternative(Grammar) && FirstClosed(Grammar, fs)
    ensures forall k :: k in FirstTable ==> FirstTable[k] <= Get(fs, k)
  {
    FirstLowerLeaves(fs);
    FirstLowerTE(fs);
    FirstLowerGS(fs);
    forall k | k in FirstTable
      ensures FirstTable[k] <= Get(fs, k)
    {
      assert k in {"E", "G", "T", "S", "F", "A", "M"};
    }
  }

  /** GetFirstSet on the grammar yields exactly the hand-made table; in
      particular FIRST(F) = {"(", "i"}. */
  lemma {:induction false} FirstOfFixture(fs: SetMap)
    requires NoEmptyAlternative(Grammar)
    requires fs.Keys == Grammar.Keys
    requires FirstClosed(Grammar, fs)
    requires forall g :: FirstClosed(Grammar, g) ==> Below(fs, g)
    ensures fs == FirstTable
    ensures fs["F"] == {"(", "i"}
  {
    FirstTableClosed();
    assert Below(fs, FirstTable);
    FirstLower(fs);
    Squeeze(fs, FirstTable);
  }

  /** In E->TG, T is followed by FIRST(G) and FOLLOW(E), since G may vanish; G ends the alternative. */
  lemma FollowAltE()
    ensures AltFollowClosed(Grammar, FirstTable, FollowTable, "E", "TG")
  {
    assert ["TG"[1]] == "G" && Nullable(Grammar, "G");
    assert FollowFrom(Grammar, FirstTable, FollowTable, "E", "TG", 2) == {")", "#"};
    assert FollowFrom(Grammar, FirstTable, FollowTable, "E", "TG", 1) == {"+", "-", ")", "#"};
    assert PosClosed(Grammar, FirstTable, FollowTable, "E", "TG", 0);
    assert PosClosed(Grammar, FirstTable, FollowTable, "E", "TG", 1);
  }

  /** In G->ATG, A is followed by FIRST(T), T by FIRST(G) and FOLLOW(G), and G ends it. */
  lemma FollowAltG()
    ensures AltFollowClosed(Grammar, FirstTable, FollowTable, "G", "ATG")
  {
    assert ["ATG"[1]] == "T" && !Nullable(Grammar, "T");
    assert FollowFrom(Grammar, FirstTable, FollowTable, "G", "ATG", 1) == {"(", "i"};
    assert ["ATG"[2]] == "G" && Nullable(Grammar, "G");
    assert FollowFrom(Grammar, FirstTable, FollowTable, "G", "ATG", 3) == {")", "#"};
    assert FollowFrom(Grammar, FirstTable, FollowTable, "G", "ATG", 2) == {"+", "-", ")", "#"};
    assert PosClosed(Grammar, FirstTable, FollowTable, "G", "ATG", 0);
    assert PosClosed(Grammar, FirstTable, FollowTable, "G", "ATG", 1);
    assert PosClosed(Grammar, FirstTable, FollowTable, "G", "ATG", 2);
  }

  /** In T->FS, F is followed by FIRST(S) and FOLLOW(T), since S may vanish; S ends the alternative. */
  lemma FollowAltT()
    ensures AltFollowClosed(Grammar, FirstTable, FollowTable, "T", "FS")
  {
    assert ["FS"[1]] == "S" && Nullable(Grammar, "S");
    assert FollowFrom(Grammar, FirstTable, FollowTable, "T", "FS", 2) == {"+", "-", ")", "#"};
    assert FollowFrom(Grammar, FirstTable, FollowTable, "T", "FS", 1) == {"*", "/", "+", "-", ")", "#"};
    assert PosClosed(Grammar, FirstTable, FollowTable, "T", "FS", 0);
    assert PosClosed(Grammar, FirstTable, FollowTable, "T", "FS", 1);
  }

  /** In S->MFS, M is followed by FIRST(F), F by FIRST(S) and FOLLOW(S), and S ends it. */
  lemma FollowAltS()
    ensures AltFollowClosed(Grammar, FirstTable, FollowTable, "S", "MFS")
  {
    assert ["MFS"[1]] == "F" && !Nullable(Grammar, "F");
    assert FollowFrom(Grammar, FirstTable, FollowTable, "S", "MFS", 1) == {"(", "i"};
    assert ["MFS"[2]] == "S" && Nullable(Grammar, "S");
    assert FollowFrom(Grammar, FirstTable, FollowTable, "S", "MFS", 3) == {"+", "-", ")", "#"};
    assert FollowFrom(Grammar, FirstTable, FollowTable, "S", "MFS", 2) == {"*", "/", "+", "-", ")", "#"};
    assert PosClosed(Grammar, FirstTable, FollowTable, "S", "MFS", 0);
    assert PosClosed(Grammar, FirstTable, FollowTable, "S", "MFS", 1);
    assert PosClosed(Grammar, FirstTable, FollowTable, "S", "MFS", 2);
  }

  /** In F->(E), E is followed by `)`. */
  lemma FollowAltF()
    ensures AltFollowClosed(Grammar, FirstTable, FollowTable, "F", "(E)")
  {
    assert FollowFrom(Grammar, FirstTable, FollowTable, "F", "(E)", 2) == {")"};
    assert PosClosed(Grammar, FirstTable, FollowTable, "F", "(E)", 1);
  }

  /** Every alternative of `left` is closed in the hand-made FOLLOW table. */
  lemma FollowKeyClosed(left: string)
    ensures KeyFollowClosed(Grammar, FirstTable, FollowTable, left)
  {
    if left in Grammar {
      FollowAltE();
      FollowAltG();
      FollowAltT();
      FollowAltS();
      FollowAltF();
      forall v | v in Grammar[left]
        ensures AltFollowClosed(Grammar, FirstTable, FollowTable, left, v)
      {
        assert left in {"E", "G", "T", "S", "F", "A", "M"};
        if v in {"&", "i", "+", "-", "*", "/"} {
          assert forall i :: 0 <= i < |v| ==> IsTerminal(v[i]);
        }
      }
    }
  }

  /** The hand-made FOLLOW table holds "#" for E and is closed under the rules. */
  lemma FollowTableClosed()
    ensures FollowClosed(Grammar, FirstTable, "E", FollowTable)
  {
    forall left
      ensures KeyFollowClosed(Grammar, FirstTable, FollowTable, left)
    {
      FollowKeyClosed(left);
    }
  }

  /** FOLLOW(E) takes "#" as the start symbol and ")" from F->(E). */
  lemma FollowLowerE(fs: SetMap)
    requires FollowClosed(Grammar, FirstTable, "E", fs)
    ensures {")", "#"} <= Get(fs, "E")
  {
    assert KeyFollowClosed(Grammar, FirstTable, fs, "F") && "(E)" in Grammar["F"];
    assert PosClosed(Grammar, FirstTable, fs, "F", "(E)", 1);
  }

  /** G ends E->TG, so it follows whatever follows E. */
  lemma FollowLowerG(fs: SetMap)
    requires FollowClosed(Grammar, FirstTable, "E", fs)
    ensures {")", "#"} <= Get(fs, "G")
  {
    FollowLowerE(fs);
    assert KeyFollowClosed(Grammar, FirstTable, fs, "E") && "TG" in Grammar["E"];
    assert PosClosed(Grammar, FirstTable, fs, "E", "TG", 1);
  }

  /** T is followed by G, which may vanish, in E->TG. */
  lemma FollowLowerT(fs: SetMap)
    requires FollowClosed(Grammar, FirstTable, "E", fs)
    ensures {"+", "-", ")", "#"} <= Get(fs, "T")
  {
    FollowLowerE(fs);
    assert KeyFollowClosed(Grammar, FirstTable, fs, "E") && "TG" in Grammar["E"];
    assert PosClosed(Grammar, FirstTable, fs, "E", "TG", 0);
    assert ["TG"[1]] == "G" && Nullable(Grammar, "G") && !Stops(Grammar, "TG", 1);
    assert FollowFrom(Grammar, FirstTable, fs, "E", "TG", 1) ==
      {"+", "-"} + FollowFrom(Grammar, FirstTable, fs, "E", "TG", 2);
  }

  /** S ends T->FS. */
  lemma FollowLowerS(fs: SetMap)
    requires FollowClosed(Grammar, FirstTable, "E", fs)
    ensures {"+", "-", ")", "#"} <= Get(fs, "S")
  {
    FollowLowerT(fs);
    assert KeyFollowClosed(Grammar, FirstTable, fs, "T") && "FS" in Grammar["T"];
    assert PosClosed(Grammar, FirstTable, fs, "T", "FS", 1);
  }

  /** F is followed by S, which may vanish, in T->FS. */
  lemma FollowLowerF(fs: SetMap)
    requires FollowClosed(Grammar, FirstTable, "E", fs)
    ensures {"*", "/", "+", "-", ")", "#"} <= Get(fs, "F")
  {
    FollowLowerT(fs);
    assert KeyFollowClosed(Grammar, FirstTable, fs, "T") && "FS" in Grammar["T"];
    assert PosClosed(Grammar, FirstTable, fs, "T", "FS", 0);
    assert ["FS"[1]] == "S" && Nullable(Grammar, "S") && !Stops(Grammar, "FS", 1);
    assert FollowFrom(Grammar, FirstTable, fs, "T", "FS", 1) ==
      {"*", "/"} + FollowFrom(Grammar, FirstTable, fs, "T", "FS", 2);
  }

  /** A is followed by T in G->ATG, and M by F in S->MFS. */
  lemma FollowLowerAM(fs: SetMap)
    requires FollowClosed(Grammar, FirstTable, "E", fs)
    ensures {"(", "i"} <= Get(fs, "A") && {"(", "i"} <= Get(fs, "M")
  {
    assert KeyFollowClosed(Grammar, FirstTable, fs, "G") && "ATG" in Grammar["G"];
    assert PosClosed(Grammar, FirstTable, fs, "G", "ATG", 0);
    assert KeyFollowClosed(Grammar, FirstTable, fs, "S") && "MFS" in Grammar["S"];
    assert PosClosed(Grammar, FirstTable, fs, "S", "MFS", 0);
  }

  /** Every closed FOLLOW table holds the hand-made one. */
  lemma FollowLower(fs: SetMap)
    requires FollowClosed(Grammar, FirstTable, "E", fs)
    ensures forall k :: k in FollowTable ==> FollowTable[k] <= Get(fs, k)
  {
    FollowLowerE(fs);
    FollowLowerG(fs);
    FollowLowerT(fs);
    FollowLowerS(fs);
    FollowLowerF(fs);
    FollowLowerAM(fs);
    forall k | k in FollowTable
      ensures FollowTable[k] <= Get(fs, k)
    {
      assert k in {"E", "G", "T", "S", "F", "A", "M"};
    }
  }

  /** GetFollowSet on the grammar, start symbol E and its FIRST table yields
      exactly the hand-made table; in particular FOLLOW(E) = {")", "#"}. */
  lemma {:induction false} FollowOfFixture(fs: SetMap)
    requires fs.Keys == FirstTable.Keys
    requires FollowClosed(Grammar, FirstTable, "E", fs)
    requires forall g :: FollowClosed(Grammar, FirstTable, "E", g) ==> Below(fs, g)
    ensures fs == FollowTable
    ensures fs["E"] == {")", "#"}
  {
    FollowTableClosed();
    assert Below(fs, FollowTable);
    FollowLower(fs);
    Squeeze(fs, FollowTable);
  }
}
