/** What the recursive descent makes of three sentences of the expression
    grammar. Each lemma covers one nonterminal at the front of the symbol
    stream, for the shapes of the token queue the three sentences meet, and
    holds for every amount of fuel from the depth the descent needs on. */
module GrammarFacts {
  import opened Wrappers
  import opened Streams
  import opened Tokens
  import opened Grammar

  /** A stream whose pending symbols hold no quote and whose end token is `$`,
      so that `Origin` reads exactly the first pending symbol. */
  ghost predicate Plain(c: Cursor)
  {
    c.endToken == EndToken && forall k :: 0 <= k < |c.pending| ==> c.pending[k] != "'"
  }

  /** `x` is the next symbol of a plain stream. */
  ghost predicate At(c: Cursor, x: string)
  {
    Plain(c) && |c.pending| > 0 && c.pending[0] == x
  }

  lemma Alts()
    ensures AltsOf("E") == ["TG"] && AltsOf("G") == ["ATG", "&"] && AltsOf("T") == ["FS"]
    ensures AltsOf("S") == ["MFS", "&"] && AltsOf("F") == ["(E)", "i"]
    ensures AltsOf("A") == ["+", "-"] && AltsOf("M") == ["/", "*"]
  {
  }

  /** Putting an alternative without quotes in front keeps the stream plain. */
  lemma PushPlain(c: Cursor, alt: string)
    requires Plain(c) && forall k :: 0 <= k < |alt| ==> alt[k] != '\''
    ensures Plain(PushSymbols(c, alt))
    ensures forall k :: 0 <= k < |alt| ==> PushSymbols(c, alt).pending[k] == [alt[k]]
    ensures PushSymbols(c, alt).pending[|alt|..] == c.pending
  {
    var p := PushSymbols(c, alt).pending;
    forall k | 0 <= k < |p|
      ensures p[k] != "'"
    {
      if k >= |alt| {
        assert p[k] == c.pending[k - |alt|];
      }
    }
  }

  /** Skipping `k` symbols of a plain stream leaves the rest, still plain. */
  lemma SkipPlain(c: Cursor, k: nat)
    requires Plain(c) && k <= |c.pending|
    ensures Skip(c, k).pending == c.pending[k..] && Plain(Skip(c, k))
  {
    SkipThenLook(c, k);
  }

  /** Reading the next symbol of a plain stream. */
  lemma OriginPlain(c: Cursor)
    requires Plain(c) && |c.pending| > 0
    ensures Origin(c).0 == c.pending[0] && Origin(c).1.pending == c.pending[1..] && Plain(Origin(c).1)
  {
    OriginReads(c, c.pending[0], c.pending[1..]);
  }

  /** A terminal other than `&`: success exactly when the front token matches it. */
  lemma TerminalAt(c: Cursor, q: seq<Token>, count: int, fuel: nat)
    requires fuel > 0 && Plain(c) && |c.pending| > 0 && IsEndType(c.pending[0]) && c.pending[0] != "&"
    requires 1 <= count <= |c.pending|
    ensures var r := Descend(c, q, count, fuel); var t := c.pending[0];
      r.complete && r.q == q && r.canKill == (|q| > 0 && Matches(t, q[0])) &&
      r.res == (if r.canKill then [Kill(t)] else []) && Plain(r.c) &&
      r.c.pending == (if |q| > 0 && !r.canKill then c.pending[count..] else c.pending[1..])
  {
    OriginPlain(c);
    AnalyseCases(c, q, count, fuel);
    if |q| > 0 && !Matches(c.pending[0], q[0]) {
      SkipPlain(Origin(c).1, count - 1);
    }
  }

  /** The empty word succeeds and pushes an empty token. */
  lemma EmptyAt(c: Cursor, q: seq<Token>, count: int, fuel: nat)
    requires fuel > 0 && At(c, "&")
    ensures var r := Descend(c, q, count, fuel);
      r.complete && r.canKill && r.res == [Kill("&")] && r.q == [EmptyToken] + q &&
      r.c.pending == c.pending[1..] && Plain(r.c)
  {
    OriginPlain(c);
    AnalyseCases(c, q, count, fuel);
  }

  /** A nonterminal is expanded from the stream after it. */
  lemma Enter(c: Cursor, q: seq<Token>, count: int, fuel: nat) returns (c1: Cursor)
    requires fuel > 0 && Plain(c) && |c.pending| > 0 && c.pending[0] in Productions
    ensures Descend(c, q, count, fuel) == Expand(c.pending[0], c1, q, count, fuel)
    ensures c1.pending == c.pending[1..] && Plain(c1)
  {
    OriginPlain(c);
    c1 := Origin(c).1;
  }

  /** The first alternative matched. */
  lemma FirstAlt(origin: string, c1: Cursor, q: seq<Token>, count: int, fuel: nat, s: Attempt)
    requires fuel > 0 && |AltsOf(origin)| > 0
    requires s == Symbols(origin, AltsOf(origin)[0], 0, fuel,
                          Attempt([], [], false, true, PushSymbols(c1, AltsOf(origin)[0]), q))
    requires s.matched && s.complete
    ensures Expand(origin, c1, q, count, fuel) == Outcome(s.res, true, true, s.c, s.q)
  {
    var alts := AltsOf(origin);
    AlternativesDone(origin, alts, 1, fuel, s);
  }

  /** The first of two alternatives failed and the second decided. */
  lemma SecondAlt(origin: string, c1: Cursor, q: seq<Token>, count: int, fuel: nat, s0: Attempt, s1: Attempt)
    requires fuel > 0 && |AltsOf(origin)| == 2
    requires s0 == Symbols(origin, AltsOf(origin)[0], 0, fuel,
                           Attempt([], [], false, true, PushSymbols(c1, AltsOf(origin)[0]), q))
    requires s0.complete && !s0.matched
    requires s1 == Symbols(origin, AltsOf(origin)[1], 0, fuel, s0.(c := PushSymbols(s0.c, AltsOf(origin)[1])))
    requires s1.complete
    ensures Expand(origin, c1, q, count, fuel) ==
            Outcome(s1.res, s1.matched, true, if s1.matched then s1.c else Skip(s1.c, count - 1), s1.q)
  {
    var alts := AltsOf(origin);
    var st := Attempt([], [], false, true, c1, q);
    assert Alternatives(origin, alts, 0, fuel, st) == Alternatives(origin, alts, 1, fuel, s0);
    assert Alternatives(origin, alts, 1, fuel, s0) == Alternatives(origin, alts, 2, fuel, s1);
    AlternativesDone(origin, alts, 2, fuel, s1);
  }

  /** The token classes the sentences meet. */
  predicate AddOp(t: Token) { Matches("+", t) || Matches("-", t) }
  predicate MulOp(t: Token) { Matches("/", t) || Matches("*", t) }

  /** The queue is empty or its front token is not a multiplying operator. */
  predicate NoMul(q: seq<Token>) { |q| == 0 || !MulOp(q[0]) }

  /** The queue is empty or its front token is not an adding operator. */
  predicate NoAdd(q: seq<Token>) { |q| == 0 || !AddOp(q[0]) }

  /** An alternative whose first symbol is a terminal that does not match:
      the rest of the alternative is skipped and the popped tokens go back. */
  lemma TerminalAltFails(origin: string, alt: string, st: Attempt, fuel: nat) returns (s: Attempt)
    requires fuel >= 2 && |alt| >= 1 && IsEndType([alt[0]]) && alt[0] != '&'
    requires Plain(st.c) && forall k :: 0 <= k < |alt| ==> alt[k] != '\''
    requires |alt| == 1 || |st.q| > 0
    requires |st.q| == 0 || !Matches([alt[0]], st.q[0])
    ensures s == Symbols(origin, alt, 0, fuel, st.(c := PushSymbols(st.c, alt)))
    ensures s.res == st.res && s.kill == Reversed(st.kill) && !s.matched && s.complete
    ensures s.q == st.kill + st.q && s.c.pending == st.c.pending && Plain(s.c)
  {
    var p := PushSymbols(st.c, alt);
    PushPlain(st.c, alt);
    TerminalAt(p, st.q, |alt|, fuel - 1);
    SymbolsStep(origin, alt, 0, fuel, st.(c := p), Descend(p, st.q, |alt|, fuel - 1));
    s := Symbols(origin, alt, 0, fuel, st.(c := p));
  }

  /** A one-terminal alternative whose terminal matches the front token. */
  lemma TerminalAltMatches(origin: string, alt: string, st: Attempt, fuel: nat) returns (s: Attempt)
    requires fuel >= 2 && |alt| == 1 && IsEndType(alt) && alt != "&" && alt != "'"
    requires Plain(st.c) && |st.q| > 0 && Matches(alt, st.q[0])
    ensures s == Symbols(origin, alt, 0, fuel, st.(c := PushSymbols(st.c, alt)))
    ensures s.res == st.res + [Continue(origin, alt), Kill(alt)] && s.kill == st.kill && s.matched && s.complete
    ensures s.q == st.q && s.c.pending == st.c.pending && Plain(s.c)
  {
    var p := PushSymbols(st.c, alt);
    PushPlain(st.c, alt);
    TerminalAt(p, st.q, 1, fuel - 1);
    var d := Descend(p, st.q, 1, fuel - 1);
    SymbolsStep(origin, alt, 0, fuel, st.(c := p), d);
    s := Symbols(origin, alt, 0, fuel, st.(c := p));
  }

  /** The alternative `&`: it matches and leaves an empty token in front. */
  lemma EmptyAlt(origin: string, st: Attempt, fuel: nat) returns (s: Attempt)
    requires fuel >= 2 && Plain(st.c)
    ensures s == Symbols(origin, "&", 0, fuel, st.(c := PushSymbols(st.c, "&")))
    ensures s.res == st.res + [Continue(origin, "&"), Kill("&")] && s.kill == st.kill && s.matched && s.complete
    ensures s.q == [EmptyToken] + st.q && s.c.pending == st.c.pending && Plain(s.c)
  {
    var p := PushSymbols(st.c, "&");
    PushPlain(st.c, "&");
    EmptyAt(p, st.q, 1, fuel - 1);
    var d := Descend(p, st.q, 1, fuel - 1);
    SymbolsStep(origin, "&", 0, fuel, st.(c := p), d);
    s := Symbols(origin, "&", 0, fuel, st.(c := p));
  }

  /** An alternative whose first symbol fails without popping anything. */
  lemma FirstSymbolFails(origin: string, alt: string, st: Attempt, fuel: nat, d: Outcome) returns (s: Attempt)
    requires fuel > 0 && |alt| >= 1 && st.kill == []
    requires d == Descend(PushSymbols(st.c, alt), st.q, |alt|, fuel - 1)
    requires d.complete && !d.canKill && d.q == st.q
    ensures s == Symbols(origin, alt, 0, fuel, st.(c := PushSymbols(st.c, alt)))
    ensures s.res == st.res && s.kill == [] && !s.matched && s.complete && s.q == st.q && s.c == d.c
  {
    SymbolsStep(origin, alt, 0, fuel, st.(c := PushSymbols(st.c, alt)), d);
    s := Symbols(origin, alt, 0, fuel, st.(c := PushSymbols(st.c, alt)));
  }

  /** `M` before a token that is not `/` or `*` fails and discards the `count - 1` symbols after it. */
  lemma MFails(c: Cursor, q: seq<Token>, count: int, fuel: nat)
    requires fuel >= 2 && At(c, "M") && 1 <= count <= |c.pending| && NoMul(q)
    ensures var r := Descend(c, q, count, fuel);
      r.complete && !r.canKill && r.res == [] && r.q == q && r.c.pending == c.pending[count..] && Plain(r.c)
  {
    Alts();
    var c1 := Enter(c, q, count, fuel);
    var st := Attempt([], [], false, true, c1, q);
    var s0 := TerminalAltFails("M", "/", st, fuel);
    var s1 := TerminalAltFails("M", "*", s0, fuel);
    SecondAlt("M", c1, q, count, fuel, s0, s1);
    SkipPlain(s1.c, count - 1);
  }

  /** `M` before `/` or `*` derives that operator. */
  lemma MOp(c: Cursor, q: seq<Token>, count: int, fuel: nat)
    requires fuel >= 2 && At(c, "M") && |q| > 0 && MulOp(q[0])
    ensures var r := Descend(c, q, count, fuel);
      r.complete && r.canKill && r.res == [Continue("M", q[0].value), Kill(q[0].value)] && r.q == q &&
      r.c.pending == c.pending[1..] && Plain(r.c)
  {
    Alts();
    var c1 := Enter(c, q, count, fuel);
    var st := Attempt([], [], false, true, c1, q);
    if Matches("/", q[0]) {
      var s := TerminalAltMatches("M", "/", st, fuel);
      FirstAlt("M", c1, q, count, fuel, s);
    } else {
      var s0 := TerminalAltFails("M", "/", st, fuel);
      var s1 := TerminalAltMatches("M", "*", s0, fuel);
      SecondAlt("M", c1, q, count, fuel, s0, s1);
    }
  }

  /** `A` before a token that is not `+` or `-` fails and discards the `count - 1` symbols after it. */
  lemma AFails(c: Cursor, q: seq<Token>, count: int, fuel: nat)
    requires fuel >= 2 && At(c, "A") && 1 <= count <= |c.pending| && NoAdd(q)
    ensures var r := Descend(c, q, count, fuel);
      r.complete && !r.canKill && r.res == [] && r.q == q && r.c.pending == c.pending[count..] && Plain(r.c)
  {
    Alts();
    var c1 := Enter(c, q, count, fuel);
    var st := Attempt([], [], false, true, c1, q);
    var s0 := TerminalAltFails("A", "+", st, fuel);
    var s1 := TerminalAltFails("A", "-", s0, fuel);
    SecondAlt("A", c1, q, count, fuel, s0, s1);
    SkipPlain(s1.c, count - 1);
  }

  /** `A` before `+` or `-` derives that operator. */
  lemma AOp(c: Cursor, q: seq<Token>, count: int, fuel: nat)
    requires fuel >= 2 && At(c, "A") && |q| > 0 && AddOp(q[0])
    ensures var r := Descend(c, q, count, fuel);
      r.complete && r.canKill && r.res == [Continue("A", q[0].value), Kill(q[0].value)] && r.q == q &&
      r.c.pending == c.pending[1..] && Plain(r.c)
  {
    Alts();
    var c1 := Enter(c, q, count, fuel);
    var st := Attempt([], [], false, true, c1, q);
    if Matches("+", q[0]) {
      var s := TerminalAltMatches("A", "+", st, fuel);
      FirstAlt("A", c1, q, count, fuel, s);
    } else {
      var s0 := TerminalAltFails("A", "+", st, fuel);
      var s1 := TerminalAltMatches("A", "-", s0, fuel);
      SecondAlt("A", c1, q, count, fuel, s0, s1);
    }
  }

  /** `F` before a value: `(E)` fails at its bracket and `i` matches. */
  lemma FVar(c: Cursor, q: seq<Token>, count: int, fuel: nat)
    requires fuel >= 2 && At(c, "F") && |q| > 0 && Matches("i", q[0])
    ensures var r := Descend(c, q, count, fuel);
      r.complete && r.canKill && r.res == [Continue("F", "i"), Kill("i")] && r.q == q &&
      r.c.pending == c.pending[1..] && Plain(r.c)
  {
    Alts();
    var c1 := Enter(c, q, count, fuel);
    var st := Attempt([], [], false, true, c1, q);
    var s0 := TerminalAltFails("F", "(E)", st, fuel);
    var s1 := TerminalAltMatches("F", "i", s0, fuel);
    SecondAlt("F", c1, q, count, fuel, s0, s1);
  }

  /** `F` before a token that is neither a value nor `(` fails and discards the `count - 1` symbols after it. */
  lemma FFails(c: Cursor, q: seq<Token>, count: int, fuel: nat)
    requires fuel >= 2 && At(c, "F") && 1 <= count <= |c.pending|
    requires |q| > 0 && !Matches("(", q[0]) && !Matches("i", q[0])
    ensures var r := Descend(c, q, count, fuel);
      r.complete && !r.canKill && r.res == [] && r.q == q && r.c.pending == c.pending[count..] && Plain(r.c)
  {
    Alts();
    var c1 := Enter(c, q, count, fuel);
    var st := Attempt([], [], false, true, c1, q);
    var s0 := TerminalAltFails("F", "(E)", st, fuel);
    var s1 := TerminalAltFails("F", "i", s0, fuel);
    SecondAlt("F", c1, q, count, fuel, s0, s1);
    SkipPlain(s1.c, count - 1);
  }

  /** `S` before a token that is not `/` or `*`: `MFS` fails at `M` and `&` matches. */
  lemma SEmpty(c: Cursor, q: seq<Token>, count: int, fuel: nat)
    requires fuel >= 3 && At(c, "S") && NoMul(q)
    ensures var r := Descend(c, q, count, fuel);
      r.complete && r.canKill && r.res == [Continue("S", "&"), Kill("&")] && r.q == [EmptyToken] + q &&
      r.c.pending == c.pending[1..] && Plain(r.c)
  {
    Alts();
    var c1 := Enter(c, q, count, fuel);
    var p := PushSymbols(c1, "MFS");
    PushPlain(c1, "MFS");
    MFails(p, q, 3, fuel - 1);
    var st := Attempt([], [], false, true, c1, q);
    var s0 := FirstSymbolFails("S", "MFS", st, fuel, Descend(p, q, 3, fuel - 1));
    var s1 := EmptyAlt("S", s0, fuel);
    SecondAlt("S", c1, q, count, fuel, s0, s1);
  }

  /** `G` before a token that is not `+` or `-`: `ATG` fails at `A` and `&` matches. */
  lemma GEmpty(c: Cursor, q: seq<Token>, count: int, fuel: nat)
    requires fuel >= 3 && At(c, "G") && NoAdd(q)
    ensures var r := Descend(c, q, count, fuel);
      r.complete && r.canKill && r.res == [Continue("G", "&"), Kill("&")] && r.q == [EmptyToken] + q &&
      r.c.pending == c.pending[1..] && Plain(r.c)
  {
    Alts();
    var c1 := Enter(c, q, count, fuel);
    var p := PushSymbols(c1, "ATG");
    PushPlain(c1, "ATG");
    AFails(p, q, 3, fuel - 1);
    var st := Attempt([], [], false, true, c1, q);
    var s0 := FirstSymbolFails("G", "ATG", st, fuel, Descend(p, q, 3, fuel - 1));
    var s1 := EmptyAlt("G", s0, fuel);
    SecondAlt("G", c1, q, count, fuel, s0, s1);
  }

  /** A symbol before the last one succeeded and left a token in front: it is popped onto the shared list. */
  lemma SymbolPops(origin: string, alt: string, j: nat, fuel: nat, st: Attempt, d: Outcome) returns (s: Attempt)
    requires fuel > 0 && j < |alt| - 1
    requires d == Descend(st.c, st.q, |alt| - j, fuel - 1) && d.complete && d.canKill && |d.q| > 0
    ensures Symbols(origin, alt, j, fuel, st) == Symbols(origin, alt, j + 1, fuel, s)
    ensures s == st.(res := st.res + ([Continue(origin, alt)] + d.res), kill := st.kill + [d.q[0]], c := d.c, q := d.q[1..])
  {
    SymbolsStep(origin, alt, j, fuel, st, d);
    s := st.(res := st.res + ([Continue(origin, alt)] + d.res), kill := st.kill + [d.q[0]], c := d.c, q := d.q[1..]);
  }

  /** The last symbol succeeded: the alternative matched and nothing is popped. */
  lemma LastSymbolMatches(origin: string, alt: string, fuel: nat, st: Attempt, d: Outcome) returns (s: Attempt)
    requires fuel > 0 && |alt| >= 1
    requires d == Descend(st.c, st.q, 1, fuel - 1) && d.complete && d.canKill
    ensures s == Symbols(origin, alt, |alt| - 1, fuel, st)
    ensures s == st.(res := st.res + ([Continue(origin, alt)] + d.res), matched := true, complete := true, c := d.c, q := d.q)
  {
    SymbolsStep(origin, alt, |alt| - 1, fuel, st, d);
    s := Symbols(origin, alt, |alt| - 1, fuel, st);
  }

  /** The last symbol of an alternative is `S` before a token that is not `/` or `*`: it derives `&`. */
  lemma SEmptyLast(origin: string, alt: string, st: Attempt, fuel: nat) returns (s: Attempt)
    requires fuel >= 4 && |alt| >= 1 && At(st.c, "S") && NoMul(st.q)
    ensures s == Symbols(origin, alt, |alt| - 1, fuel, st)
    ensures s.matched && s.complete && s.q == [EmptyToken] + st.q && s.c.pending == st.c.pending[1..] && Plain(s.c)
    ensures s.res == st.res + [Continue(origin, alt), Continue("S", "&"), Kill("&")]
  {
    SEmpty(st.c, st.q, 1, fuel - 1);
    s := LastSymbolMatches(origin, alt, fuel, st, Descend(st.c, st.q, 1, fuel - 1));
  }

  /** The last symbol of an alternative is `G` before a token that is not `+` or `-`: it derives `&`. */
  lemma GEmptyLast(origin: string, alt: string, st: Attempt, fuel: nat) returns (s: Attempt)
    requires fuel >= 4 && |alt| >= 1 && At(st.c, "G") && NoAdd(st.q)
    ensures s == Symbols(origin, alt, |alt| - 1, fuel, st)
    ensures s.matched && s.complete && s.q == [EmptyToken] + st.q && s.c.pending == st.c.pending[1..] && Plain(s.c)
    ensures s.res == st.res + [Continue(origin, alt), Continue("G", "&"), Kill("&")]
  {
    GEmpty(st.c, st.q, 1, fuel - 1);
    s := LastSymbolMatches(origin, alt, fuel, st, Descend(st.c, st.q, 1, fuel - 1));
  }

  /** The alternative `FS` of `T` before a value that no `/` or `*` follows. */
  lemma TVarAlt(c1: Cursor, q: seq<Token>, fuel: nat) returns (s: Attempt)
    requires fuel >= 4 && Plain(c1) && |q| > 0 && Matches("i", q[0]) && NoMul(q[1..])
    ensures s == Symbols("T", "FS", 0, fuel, Attempt([], [], false, true, PushSymbols(c1, "FS"), q))
    ensures s.matched && s.complete && s.q == [EmptyToken] + q[1..] && s.c.pending == c1.pending && Plain(s.c)
    ensures s.res == [Continue("T", "FS"), Continue("F", "i"), Kill("i"), Continue("T", "FS"), Continue("S", "&"), Kill("&")]
  {
    var p := PushSymbols(c1, "FS");
    PushPlain(c1, "FS");
    FVar(p, q, 2, fuel - 1);
    var d0 := Descend(p, q, 2, fuel - 1);
    var st1 := SymbolPops("T", "FS", 0, fuel, Attempt([], [], false, true, p, q), d0);
    s := SEmptyLast("T", "FS", st1, fuel);
  }

  /** `T` before a value that no `/` or `*` follows derives `F S` with `F -> i` and `S -> &`. */
  lemma TVar(c: Cursor, q: seq<Token>, count: int, fuel: nat)
    requires fuel >= 4 && At(c, "T") && |q| > 0 && Matches("i", q[0]) && NoMul(q[1..])
    ensures var r := Descend(c, q, count, fuel);
      r.complete && r.canKill &&
      r.res == [Continue("T", "FS"), Continue("F", "i"), Kill("i"), Continue("T", "FS"), Continue("S", "&"), Kill("&")] &&
      r.q == [EmptyToken] + q[1..] && r.c.pending == c.pending[1..] && Plain(r.c)
  {
    Alts();
    var c1 := Enter(c, q, count, fuel);
    var s := TVarAlt(c1, q, fuel);
    FirstAlt("T", c1, q, count, fuel, s);
  }

  /** The alternative `ATG` of `G` before an adding operator and a value, with no operator after them. */
  lemma GOpVarAlt(c1: Cursor, q: seq<Token>, fuel: nat) returns (s: Attempt)
    requires fuel >= 5 && Plain(c1) && |q| >= 2 && AddOp(q[0]) && Matches("i", q[1]) && NoMul(q[2..]) && NoAdd(q[2..])
    ensures s == Symbols("G", "ATG", 0, fuel, Attempt([], [], false, true, PushSymbols(c1, "ATG"), q))
    ensures s.matched && s.complete && s.q == [EmptyToken] + q[2..] && s.c.pending == c1.pending && Plain(s.c)
    ensures |s.res| > 0 && s.res[0] == Continue("G", "ATG")
  {
    var p := PushSymbols(c1, "ATG");
    PushPlain(c1, "ATG");
    AOp(p, q, 3, fuel - 1);
    var st1 := SymbolPops("G", "ATG", 0, fuel, Attempt([], [], false, true, p, q), Descend(p, q, 3, fuel - 1));
    assert q[1..][1..] == q[2..];
    s := GOpVarRest(st1, fuel);
  }

  /** `T G` after the adding operator: a value, then no operator. */
  lemma GOpVarRest(st: Attempt, fuel: nat) returns (s: Attempt)
    requires fuel >= 5 && Plain(st.c) && |st.c.pending| >= 2 && st.c.pending[0] == "T" && st.c.pending[1] == "G"
    requires |st.q| > 0 && Matches("i", st.q[0]) && NoMul(st.q[1..]) && NoAdd(st.q[1..])
    ensures s == Symbols("G", "ATG", 1, fuel, st)
    ensures s.matched && s.complete && s.q == [EmptyToken] + st.q[1..] && s.c.pending == st.c.pending[2..] && Plain(s.c)
    ensures |st.res| > 0 ==> |s.res| > 0 && s.res[0] == st.res[0]
  {
    TVar(st.c, st.q, 2, fuel - 1);
    var d1 := Descend(st.c, st.q, 2, fuel - 1);
    var st2 := SymbolPops("G", "ATG", 1, fuel, st, d1);
    s := GEmptyLast("G", "ATG", st2, fuel);
  }

  /** `G` before an adding operator and a value, with no operator after them, derives `A T G`. */
  lemma GOpVar(c: Cursor, q: seq<Token>, count: int, fuel: nat)
    requires fuel >= 5 && At(c, "G") && |q| >= 2 && AddOp(q[0]) && Matches("i", q[1]) && NoMul(q[2..]) && NoAdd(q[2..])
    ensures var r := Descend(c, q, count, fuel);
      r.complete && r.canKill && |r.res| > 0 && r.res[0] == Continue("G", "ATG") &&
      r.q == [EmptyToken] + q[2..] && r.c.pending == c.pending[1..] && Plain(r.c)
  {
    Alts();
    var c1 := Enter(c, q, count, fuel);
    var s := GOpVarAlt(c1, q, fuel);
    FirstAlt("G", c1, q, count, fuel, s);
  }

  /** The alternative `TG` of `E` before `value op value` with `op` adding, and no operator after them. */
  lemma ESumAlt(c1: Cursor, q: seq<Token>, fuel: nat) returns (s: Attempt)
    requires fuel >= 6 && Plain(c1) && |q| >= 3 && Matches("i", q[0]) && AddOp(q[1]) && Matches("i", q[2])
    requires NoMul(q[3..]) && NoAdd(q[3..])
    ensures s == Symbols("E", "TG", 0, fuel, Attempt([], [], false, true, PushSymbols(c1, "TG"), q))
    ensures s.matched && s.complete && s.q == [EmptyToken] + q[3..] && s.c.pending == c1.pending && Plain(s.c)
    ensures |s.res| > 0 && s.res[0] == Continue("E", "TG")
  {
    var p := PushSymbols(c1, "TG");
    PushPlain(c1, "TG");
    TVar(p, q, 2, fuel - 1);
    var st1 := SymbolPops("E", "TG", 0, fuel, Attempt([], [], false, true, p, q), Descend(p, q, 2, fuel - 1));
    assert q[1..][2..] == q[3..];
    s := ESumRest(st1, fuel);
  }

  /** `G` after the first value: an adding operator and a value, then no operator. */
  lemma ESumRest(st: Attempt, fuel: nat) returns (s: Attempt)
    requires fuel >= 6 && Plain(st.c) && |st.c.pending| >= 1 && st.c.pending[0] == "G"
    requires |st.q| >= 2 && AddOp(st.q[0]) && Matches("i", st.q[1]) && NoMul(st.q[2..]) && NoAdd(st.q[2..])
    ensures s == Symbols("E", "TG", 1, fuel, st)
    ensures s.matched && s.complete && s.q == [EmptyToken] + st.q[2..] && s.c.pending == st.c.pending[1..] && Plain(s.c)
    ensures |st.res| > 0 ==> |s.res| > 0 && s.res[0] == st.res[0]
  {
    GOpVar(st.c, st.q, 1, fuel - 1);
    s := LastSymbolMatches("E", "TG", fuel, st, Descend(st.c, st.q, 1, fuel - 1));
  }

  /** `E` before `value op value` with `op` adding, and no operator after them, succeeds
      and leaves one empty token in front of the rest. */
  lemma ESum(c: Cursor, q: seq<Token>, count: int, fuel: nat)
    requires fuel >= 6 && At(c, "E") && |q| >= 3 && Matches("i", q[0]) && AddOp(q[1]) && Matches("i", q[2])
    requires NoMul(q[3..]) && NoAdd(q[3..])
    ensures var r := Descend(c, q, count, fuel);
      r.complete && r.canKill && |r.res| > 0 && r.res[0] == Continue("E", "TG") &&
      r.q == [EmptyToken] + q[3..] && r.c.pending == c.pending[1..] && Plain(r.c)
  {
    Alts();
    var c1 := Enter(c, q, count, fuel);
    var s := ESumAlt(c1, q, fuel);
    FirstAlt("E", c1, q, count, fuel, s);
  }

  /** The tokens `( value op value )` with `op` adding. */
  ghost predicate Bracketed(q: seq<Token>)
  {
    |q| >= 5 && Matches("(", q[0]) && Matches("i", q[1]) && AddOp(q[2]) && Matches("i", q[3]) && Matches(")", q[4])
  }

  /** The alternative `(E)` of `F` before `( value op value )`. */
  lemma FParenAlt(c1: Cursor, q: seq<Token>, fuel: nat) returns (s: Attempt)
    requires fuel >= 7 && Plain(c1) && Bracketed(q)
    ensures s == Symbols("F", "(E)", 0, fuel, Attempt([], [], false, true, PushSymbols(c1, "(E)"), q))
    ensures s.matched && s.complete && s.q == q[4..] && s.c.pending == c1.pending && Plain(s.c)
    ensures |s.res| > 0 && s.res[0] == Continue("F", "(E)")
  {
    var p := PushSymbols(c1, "(E)");
    PushPlain(c1, "(E)");
    TerminalAt(p, q, 3, fuel - 1);
    var st1 := SymbolPops("F", "(E)", 0, fuel, Attempt([], [], false, true, p, q), Descend(p, q, 3, fuel - 1));
    assert q[1..][3..] == q[4..];
    s := FParenRest(st1, fuel);
  }

  /** `E )` after the opening bracket: `value op value )`. */
  lemma FParenRest(st: Attempt, fuel: nat) returns (s: Attempt)
    requires fuel >= 7 && Plain(st.c) && |st.c.pending| >= 2 && st.c.pending[0] == "E" && st.c.pending[1] == ")"
    requires |st.q| >= 4 && Matches("i", st.q[0]) && AddOp(st.q[1]) && Matches("i", st.q[2]) && Matches(")", st.q[3])
    ensures s == Symbols("F", "(E)", 1, fuel, st)
    ensures s.matched && s.complete && s.q == st.q[3..] && s.c.pending == st.c.pending[2..] && Plain(s.c)
    ensures |st.res| > 0 ==> |s.res| > 0 && s.res[0] == st.res[0]
  {
    ESum(st.c, st.q, 2, fuel - 1);
    var d1 := Descend(st.c, st.q, 2, fuel - 1);
    var st2 := SymbolPops("F", "(E)", 1, fuel, st, d1);
    TerminalAt(d1.c, st.q[3..], 1, fuel - 1);
    s := LastSymbolMatches("F", "(E)", fuel, st2, Descend(d1.c, st.q[3..], 1, fuel - 1));
  }

  /** `F` before `( value op value )` derives `( E )`; the closing bracket is matched and left in front. */
  lemma FParen(c: Cursor, q: seq<Token>, count: int, fuel: nat)
    requires fuel >= 7 && At(c, "F") && Bracketed(q)
    ensures var r := Descend(c, q, count, fuel);
      r.complete && r.canKill && |r.res| > 0 && r.res[0] == Continue("F", "(E)") &&
      r.q == q[4..] && r.c.pending == c.pending[1..] && Plain(r.c)
  {
    Alts();
    var c1 := Enter(c, q, count, fuel);
    var s := FParenAlt(c1, q, fuel);
    FirstAlt("F", c1, q, count, fuel, s);
  }

  /** The alternative `FS` of `T` before `( value op value )` with no `/` or `*` after it. */
  lemma TParenAlt(c1: Cursor, q: seq<Token>, fuel: nat) returns (s: Attempt)
    requires fuel >= 8 && Plain(c1) && Bracketed(q) && NoMul(q[5..])
    ensures s == Symbols("T", "FS", 0, fuel, Attempt([], [], false, true, PushSymbols(c1, "FS"), q))
    ensures s.matched && s.complete && s.q == [EmptyToken] + q[5..] && s.c.pending == c1.pending && Plain(s.c)
    ensures |s.res| > 1 && s.res[1] == Continue("F", "(E)")
  {
    var p := PushSymbols(c1, "FS");
    PushPlain(c1, "FS");
    FParen(p, q, 2, fuel - 1);
    var d0 := Descend(p, q, 2, fuel - 1);
    var st1 := SymbolPops("T", "FS", 0, fuel, Attempt([], [], false, true, p, q), d0);
    assert q[4..][1..] == q[5..];
    s := SEmptyLast("T", "FS", st1, fuel);
  }

  /** `T` before `( value op value )` with no `/` or `*` after it. */
  lemma TParen(c: Cursor, q: seq<Token>, count: int, fuel: nat)
    requires fuel >= 8 && At(c, "T") && Bracketed(q) && NoMul(q[5..])
    ensures var r := Descend(c, q, count, fuel);
      r.complete && r.canKill && |r.res| > 1 && r.res[1] == Continue("F", "(E)") &&
      r.q == [EmptyToken] + q[5..] && r.c.pending == c.pending[1..] && Plain(r.c)
  {
    Alts();
    var c1 := Enter(c, q, count, fuel);
    var s := TParenAlt(c1, q, fuel);
    FirstAlt("T", c1, q, count, fuel, s);
  }

  /** The alternative `TG` of `E` before `( value op value )` with no operator after it. */
  lemma EParenAlt(c1: Cursor, q: seq<Token>, fuel: nat) returns (s: Attempt)
    requires fuel >= 9 && Plain(c1) && Bracketed(q) && NoMul(q[5..]) && NoAdd(q[5..])
    ensures s == Symbols("E", "TG", 0, fuel, Attempt([], [], false, true, PushSymbols(c1, "TG"), q))
    ensures s.matched && s.complete && s.q == [EmptyToken] + q[5..] && s.c.pending == c1.pending && Plain(s.c)
    ensures |s.res| > 2 && s.res[2] == Continue("F", "(E)")
  {
    var p := PushSymbols(c1, "TG");
    PushPlain(c1, "TG");
    TParen(p, q, 2, fuel - 1);
    var d0 := Descend(p, q, 2, fuel - 1);
    var st1 := SymbolPops("E", "TG", 0, fuel, Attempt([], [], false, true, p, q), d0);
    s := GEmptyLast("E", "TG", st1, fuel);
  }

  /** `E` before `( value op value )` with no operator after it: the descent expands `F -> (E)`. */
  lemma EParen(c: Cursor, q: seq<Token>, count: int, fuel: nat)
    requires fuel >= 9 && At(c, "E") && Bracketed(q) && NoMul(q[5..]) && NoAdd(q[5..])
    ensures var r := Descend(c, q, count, fuel);
      r.complete && r.canKill && |r.res| > 2 && r.res[2] == Continue("F", "(E)") &&
      r.q == [EmptyToken] + q[5..] && r.c.pending == c.pending[1..] && Plain(r.c)
  {
    Alts();
    var c1 := Enter(c, q, count, fuel);
    var s := EParenAlt(c1, q, fuel);
    FirstAlt("E", c1, q, count, fuel, s);
  }

  /** A multiplying operator followed by a token that cannot start a factor. */
  ghost predicate Dangling(q: seq<Token>)
  {
    |q| >= 2 && MulOp(q[0]) && !Matches("(", q[1]) && !Matches("i", q[1])
  }

  /** `F S` after a multiplying operator with nothing to multiply: `F` fails
      and the popped operator goes back in front of the queue. */
  lemma SDanglingRest(st: Attempt, fuel: nat) returns (s: Attempt)
    requires fuel >= 3 && Plain(st.c) && |st.c.pending| >= 2 && st.c.pending[0] == "F"
    requires |st.q| > 0 && !Matches("(", st.q[0]) && !Matches("i", st.q[0])
    ensures s == Symbols("S", "MFS", 1, fuel, st)
    ensures s.res == st.res && s.kill == Reversed(st.kill) && !s.matched && s.complete
    ensures s.q == st.kill + st.q && s.c.pending == st.c.pending[2..] && Plain(s.c)
  {
    FFails(st.c, st.q, 2, fuel - 1);
    SymbolsStep("S", "MFS", 1, fuel, st, Descend(st.c, st.q, 2, fuel - 1));
    s := Symbols("S", "MFS", 1, fuel, st);
  }

  /** The alternative `MFS` of `S` before a dangling multiplying operator: `M` matches, `F` fails. */
  lemma SDanglingFirst(c1: Cursor, q: seq<Token>, fuel: nat) returns (s: Attempt)
    requires fuel >= 3 && Plain(c1) && Dangling(q)
    ensures s == Symbols("S", "MFS", 0, fuel, Attempt([], [], false, true, PushSymbols(c1, "MFS"), q))
    ensures !s.matched && s.complete && s.q == q && s.c.pending == c1.pending && Plain(s.c)
    ensures s.res == [Continue("S", "MFS"), Continue("M", q[0].value), Kill(q[0].value)]
  {
    var p := PushSymbols(c1, "MFS");
    PushPlain(c1, "MFS");
    MOp(p, q, 3, fuel - 1);
    var st1 := SymbolPops("S", "MFS", 0, fuel, Attempt([], [], false, true, p, q), Descend(p, q, 3, fuel - 1));
    s := SDanglingRest(st1, fuel);
    assert [q[0]] + q[1..] == q;
  }

  /** `S` before a dangling multiplying operator backs out of `MFS` and derives `&`. */
  lemma SDangling(c: Cursor, q: seq<Token>, count: int, fuel: nat)
    requires fuel >= 3 && At(c, "S") && Dangling(q)
    ensures var r := Descend(c, q, count, fuel);
      r.complete && r.canKill &&
      r.res == [Continue("S", "MFS"), Continue("M", q[0].value), Kill(q[0].value), Continue("S", "&"), Kill("&")] &&
      r.q == [EmptyToken] + q && r.c.pending == c.pending[1..] && Plain(r.c)
  {
    Alts();
    var c1 := Enter(c, q, count, fuel);
    var s0 := SDanglingFirst(c1, q, fuel);
    var s1 := EmptyAlt("S", s0, fuel);
    SecondAlt("S", c1, q, count, fuel, s0, s1);
  }

  /** `F S` after a multiplying operator: a value, then a dangling operator. */
  lemma SMulRest(st: Attempt, fuel: nat) returns (s: Attempt)
    requires fuel >= 4 && Plain(st.c) && |st.c.pending| >= 2 && st.c.pending[0] == "F" && st.c.pending[1] == "S"
    requires |st.q| >= 1 && Matches("i", st.q[0]) && Dangling(st.q[1..])
    ensures s == Symbols("S", "MFS", 1, fuel, st)
    ensures s.matched && s.complete && s.q == [EmptyToken] + st.q[1..] && s.c.pending == st.c.pending[2..] && Plain(s.c)
    ensures |st.res| > 0 ==> |s.res| > 0 && s.res[0] == st.res[0]
  {
    FVar(st.c, st.q, 2, fuel - 1);
    var d1 := Descend(st.c, st.q, 2, fuel - 1);
    var st2 := SymbolPops("S", "MFS", 1, fuel, st, d1);
    SDangling(d1.c, st.q[1..], 1, fuel - 1);
    s := LastSymbolMatches("S", "MFS", fuel, st2, Descend(d1.c, st.q[1..], 1, fuel - 1));
  }

  /** The alternative `MFS` of `S` before `op value` with a dangling operator after them. */
  lemma SMulAlt(c1: Cursor, q: seq<Token>, fuel: nat) returns (s: Attempt)
    requires fuel >= 4 && Plain(c1) && |q| >= 2 && MulOp(q[0]) && Matches("i", q[1]) && Dangling(q[2..])
    ensures s == Symbols("S", "MFS", 0, fuel, Attempt([], [], false, true, PushSymbols(c1, "MFS"), q))
    ensures s.matched && s.complete && s.q == [EmptyToken] + q[2..] && s.c.pending == c1.pending && Plain(s.c)
    ensures |s.res| > 0 && s.res[0] == Continue("S", "MFS")
  {
    var p := PushSymbols(c1, "MFS");
    PushPlain(c1, "MFS");
    MOp(p, q, 3, fuel - 1);
    var st1 := SymbolPops("S", "MFS", 0, fuel, Attempt([], [], false, true, p, q), Descend(p, q, 3, fuel - 1));
    assert q[1..][1..] == q[2..];
    s := SMulRest(st1, fuel);
  }

  /** `S` before `op value` with `op` multiplying and a dangling operator after them. */
  lemma SMul(c: Cursor, q: seq<Token>, count: int, fuel: nat)
    requires fuel >= 4 && At(c, "S") && |q| >= 2 && MulOp(q[0]) && Matches("i", q[1]) && Dangling(q[2..])
    ensures var r := Descend(c, q, count, fuel);
      r.complete && r.canKill && |r.res| > 0 && r.res[0] == Continue("S", "MFS") &&
      r.q == [EmptyToken] + q[2..] && r.c.pending == c.pending[1..] && Plain(r.c)
  {
    Alts();
    var c1 := Enter(c, q, count, fuel);
    var s := SMulAlt(c1, q, fuel);
    FirstAlt("S", c1, q, count, fuel, s);
  }

  /** The alternative `FS` of `T` before `value op value` with `op` multiplying and a dangling operator after them. */
  lemma TProductAlt(c1: Cursor, q: seq<Token>, fuel: nat) returns (s: Attempt)
    requires fuel >= 5 && Plain(c1) && |q| >= 3 && Matches("i", q[0]) && MulOp(q[1]) && Matches("i", q[2]) && Dangling(q[3..])
    ensures s == Symbols("T", "FS", 0, fuel, Attempt([], [], false, true, PushSymbols(c1, "FS"), q))
    ensures s.matched && s.complete && s.q == [EmptyToken] + q[3..] && s.c.pending == c1.pending && Plain(s.c)
    ensures |s.res| > 0 && s.res[0] == Continue("T", "FS")
  {
    var p := PushSymbols(c1, "FS");
    PushPlain(c1, "FS");
    FVar(p, q, 2, fuel - 1);
    var d0 := Descend(p, q, 2, fuel - 1);
    var st1 := SymbolPops("T", "FS", 0, fuel, Attempt([], [], false, true, p, q), d0);
    assert q[1..][2..] == q[3..];
    SMul(d0.c, q[1..], 1, fuel - 1);
    s := LastSymbolMatches("T", "FS", fuel, st1, Descend(d0.c, q[1..], 1, fuel - 1));
  }

  /** `T` before `value op value` with `op` multiplying and a dangling operator after them. */
  lemma TProduct(c: Cursor, q: seq<Token>, count: int, fuel: nat)
    requires fuel >= 5 && At(c, "T") && |q| >= 3 && Matches("i", q[0]) && MulOp(q[1]) && Matches("i", q[2]) && Dangling(q[3..])
    ensures var r := Descend(c, q, count, fuel);
      r.complete && r.canKill && |r.res| > 0 && r.res[0] == Continue("T", "FS") &&
      r.q == [EmptyToken] + q[3..] && r.c.pending == c.pending[1..] && Plain(r.c)
  {
    Alts();
    var c1 := Enter(c, q, count, fuel);
    var s := TProductAlt(c1, q, fuel);
    FirstAlt("T", c1, q, count, fuel, s);
  }

  /** `T G` after an adding operator: a product, then a dangling operator. */
  lemma GProductRest(st: Attempt, fuel: nat) returns (s: Attempt)
    requires fuel >= 6 && Plain(st.c) && |st.c.pending| >= 2 && st.c.pending[0] == "T" && st.c.pending[1] == "G"
    requires |st.q| >= 3 && Matches("i", st.q[0]) && MulOp(st.q[1]) && Matches("i", st.q[2]) && Dangling(st.q[3..])
    ensures s == Symbols("G", "ATG", 1, fuel, st)
    ensures s.matched && s.complete && s.q == [EmptyToken] + st.q[3..] && s.c.pending == st.c.pending[2..] && Plain(s.c)
    ensures |st.res| > 0 ==> |s.res| > 0 && s.res[0] == st.res[0]
  {
    TProduct(st.c, st.q, 2, fuel - 1);
    var d1 := Descend(st.c, st.q, 2, fuel - 1);
    var st2 := SymbolPops("G", "ATG", 1, fuel, st, d1);
    s := GEmptyLast("G", "ATG", st2, fuel);
  }

  /** The alternative `ATG` of `G` before an adding operator, a product and a dangling operator. */
  lemma GProductAlt(c1: Cursor, q: seq<Token>, fuel: nat) returns (s: Attempt)
    requires fuel >= 6 && Plain(c1) && |q| >= 4 && AddOp(q[0]) && Matches("i", q[1]) && MulOp(q[2]) && Matches("i", q[3])
    requires Dangling(q[4..])
    ensures s == Symbols("G", "ATG", 0, fuel, Attempt([], [], false, true, PushSymbols(c1, "ATG"), q))
    ensures s.matched && s.complete && s.q == [EmptyToken] + q[4..] && s.c.pending == c1.pending && Plain(s.c)
    ensures |s.res| > 0 && s.res[0] == Continue("G", "ATG")
  {
    var p := PushSymbols(c1, "ATG");
    PushPlain(c1, "ATG");
    AOp(p, q, 3, fuel - 1);
    var st1 := SymbolPops("G", "ATG", 0, fuel, Attempt([], [], false, true, p, q), Descend(p, q, 3, fuel - 1));
    assert q[1..][3..] == q[4..];
    s := GProductRest(st1, fuel);
  }

  /** `G` before an adding operator, a product and a dangling operator. */
  lemma GProduct(c: Cursor, q: seq<Token>, count: int, fuel: nat)
    requires fuel >= 6 && At(c, "G") && |q| >= 4 && AddOp(q[0]) && Matches("i", q[1]) && MulOp(q[2]) && Matches("i", q[3])
    requires Dangling(q[4..])
    ensures var r := Descend(c, q, count, fuel);
      r.complete && r.canKill && |r.res| > 0 && r.res[0] == Continue("G", "ATG") &&
      r.q == [EmptyToken] + q[4..] && r.c.pending == c.pending[1..] && Plain(r.c)
  {
    Alts();
    var c1 := Enter(c, q, count, fuel);
    var s := GProductAlt(c1, q, fuel);
    FirstAlt("G", c1, q, count, fuel, s);
  }

  /** The tokens `value + value * value` followed by a dangling operator. */
  ghost predicate SumOfProduct(q: seq<Token>)
  {
    |q| >= 5 && Matches("i", q[0]) && AddOp(q[1]) && Matches("i", q[2]) && MulOp(q[3]) && Matches("i", q[4]) &&
    Dangling(q[5..])
  }

  /** The alternative `TG` of `E` before a sum of a product and a dangling operator. */
  lemma ESumOfProductAlt(c1: Cursor, q: seq<Token>, fuel: nat) returns (s: Attempt)
    requires fuel >= 7 && Plain(c1) && SumOfProduct(q)
    ensures s == Symbols("E", "TG", 0, fuel, Attempt([], [], false, true, PushSymbols(c1, "TG"), q))
    ensures s.matched && s.complete && s.q == [EmptyToken] + q[5..] && s.c.pending == c1.pending && Plain(s.c)
    ensures |s.res| > 0 && s.res[0] == Continue("E", "TG")
  {
    var p := PushSymbols(c1, "TG");
    PushPlain(c1, "TG");
    TVar(p, q, 2, fuel - 1);
    var d0 := Descend(p, q, 2, fuel - 1);
    var st1 := SymbolPops("E", "TG", 0, fuel, Attempt([], [], false, true, p, q), d0);
    assert q[1..][4..] == q[5..];
    s := EProductRest(st1, fuel);
  }

  /** `G` after the first value: an adding operator, a product and a dangling operator. */
  lemma EProductRest(st: Attempt, fuel: nat) returns (s: Attempt)
    requires fuel >= 7 && At(st.c, "G")
    requires |st.q| >= 4 && AddOp(st.q[0]) && Matches("i", st.q[1]) && MulOp(st.q[2]) && Matches("i", st.q[3])
    requires Dangling(st.q[4..])
    ensures s == Symbols("E", "TG", 1, fuel, st)
    ensures s.matched && s.complete && s.q == [EmptyToken] + st.q[4..] && s.c.pending == st.c.pending[1..] && Plain(s.c)
    ensures |st.res| > 0 ==> |s.res| > 0 && s.res[0] == st.res[0]
  {
    GProduct(st.c, st.q, 1, fuel - 1);
    s := LastSymbolMatches("E", "TG", fuel, st, Descend(st.c, st.q, 1, fuel - 1));
  }

  /** `E` before a sum of a product and a dangling operator succeeds, but
      leaves the dangling operator and what follows it in the queue. */
  lemma ESumOfProduct(c: Cursor, q: seq<Token>, count: int, fuel: nat)
    requires fuel >= 7 && At(c, "E") && SumOfProduct(q)
    ensures var r := Descend(c, q, count, fuel);
      r.complete && r.canKill && |r.res| > 0 && r.res[0] == Continue("E", "TG") &&
      r.q == [EmptyToken] + q[5..] && r.c.pending == c.pending[1..] && Plain(r.c)
  {
    Alts();
    var c1 := Enter(c, q, count, fuel);
    var s := ESumOfProductAlt(c1, q, fuel);
    FirstAlt("E", c1, q, count, fuel, s);
  }

  /** The parser's stream starts plain, with `E` as its only symbol. */
  lemma StartAt()
    ensures At(Start(Runes("E"), EndToken), "E") && |Start(Runes("E"), EndToken).pending| == 1
  {
  }

  /** `i+i`: a value, an adding operator and a value are accepted, with a trace
      that starts by expanding `E -> TG`. */
  lemma SumAccepted(a: Token, op: Token, b: Token, fuel: nat)
    requires fuel >= 6 && IsValue(a) && AddOp(op) && IsValue(b)
    ensures Accepts([a, op, b], fuel).Some?
    ensures |Accepts([a, op, b], fuel).value| > 0 && Accepts([a, op, b], fuel).value[0] == Continue("E", "TG")
  {
    StartAt();
    assert [a, op, b][3..] == [];
    ESum(Start(Runes("E"), EndToken), [a, op, b], 1, fuel);
  }

  /** `(i-i)`: a bracketed sum is accepted, and the trace expands `F -> (E)`. */
  lemma BracketAccepted(lp: Token, a: Token, op: Token, b: Token, rp: Token, fuel: nat)
    requires fuel >= 9 && Matches("(", lp) && IsValue(a) && AddOp(op) && IsValue(b) && Matches(")", rp)
    ensures Accepts([lp, a, op, b, rp], fuel).Some?
    ensures Continue("F", "(E)") in Accepts([lp, a, op, b, rp], fuel).value
  {
    StartAt();
    var q := [lp, a, op, b, rp];
    assert q[5..] == [];
    EParen(Start(Runes("E"), EndToken), q, 1, fuel);
  }

  /** Exhaustiveness: `i+i` followed by any further tokens that do not start
      with an operator is rejected, because the tokens are left over. */
  lemma TrailingRejected(a: Token, op: Token, b: Token, rest: seq<Token>, fuel: nat)
    requires fuel >= 6 && IsValue(a) && AddOp(op) && IsValue(b) && |rest| > 0 && NoMul(rest) && NoAdd(rest)
    ensures Accepts([a, op, b] + rest, fuel).None?
  {
    StartAt();
    var q := [a, op, b] + rest;
    assert q[3..] == rest;
    ESum(Start(Runes("E"), EndToken), q, 1, fuel);
  }

  /** `i+i*i**`: the descent succeeds on `i+i*i` and leaves the two trailing
      operators behind, so the sentence is rejected. */
  lemma ProductRejected(a: Token, plus: Token, b: Token, times: Token, c: Token, m1: Token, m2: Token, fuel: nat)
    requires fuel >= 7 && IsValue(a) && AddOp(plus) && IsValue(b) && MulOp(times) && IsValue(c) && MulOp(m1) && MulOp(m2)
    ensures Accepts([a, plus, b, times, c, m1, m2], fuel).None?
  {
    StartAt();
    var q := [a, plus, b, times, c, m1, m2];
    assert q[5..] == [m1, m2];
    ESumOfProduct(Start(Runes("E"), EndToken), q, 1, fuel);
  }
}
