/** The backtracking recursive-descent parser for the expression grammar

      E -> T G        G -> A T G | &        T -> F S        S -> M F S | &
      F -> ( E ) | i   A -> + | -            M -> / | *

    where `G` and `S` stand for E' and T' and `&` for the empty word. The
    parser reads grammar symbols from a push-back `Stream` (it starts with
    the single symbol `E`) and matches terminals against the front of a
    `Queue` of scanner tokens. A terminal that matches is not popped: the
    caller pops it before it goes on to the next symbol of the alternative
    it is trying, and an `&` step pushes an empty token for the caller to
    pop instead. When a symbol fails, the tokens popped for the earlier
    symbols of the alternative go back to the front of the queue. */
module Grammar {
  import opened Wrappers
  import opened Streams
  import opened Queues
  import opened Tokens

  /** The sentence end marker of the symbol stream. */
  const EndToken := "$"

  /** A step of the derivation trace: `kill` steps match a terminal (`target`),
      `Continue` steps expand `origin` with the alternative `next`. */
  datatype Production = Production(typ: string, target: string, origin: string, next: string)

  function Kill(target: string): Production
  {
    Production("kill", target, "", "")
  }

  function Continue(origin: string, next: string): Production
  {
    Production("Continue", "", origin, next)
  }

  /** `makeProductions`: the alternatives of each nonterminal, in the order they are tried. */
  const Productions: map<string, seq<string>> :=
    map["E" := ["TG"], "G" := ["ATG", "&"], "T" := ["FS"], "S" := ["MFS", "&"],
        "F" := ["(E)", "i"], "A" := ["+", "-"], "M" := ["/", "*"]]

  /** The symbols `isEndType` accepts. */
  const EndTypes: set<string> := {"i", "+", "-", "*", "/", "(", ")", "&"}

  predicate IsEndType(r: string)
  {
    r in EndTypes
  }

  /** The grammar is closed: nonterminals and terminals are apart, every
      nonterminal has an alternative, and every symbol of every alternative
      is a terminal or a nonterminal with productions of its own. */
  lemma GrammarClosed()
    ensures forall x :: x in Productions ==> !IsEndType(x) && |Productions[x]| >= 1
    ensures forall x, a :: x in Productions && a in Productions[x] ==> a != ""
  {
    assert Productions.Keys == {"E", "G", "T", "S", "F", "A", "M"};
  }

  /** Each symbol of an alternative is a terminal or has productions of its own. */
  lemma SymbolDefined(x: string, a: string, k: int)
    requires x in Productions && a in Productions[x] && 0 <= k < |a|
    ensures IsEndType([a[k]]) || [a[k]] in Productions
  {
    assert Productions.Keys == {"E", "G", "T", "S", "F", "A", "M"};
  }

  /** Terminals are one character long, so reading one symbol from the stream reads a whole terminal. */
  lemma EndTypesAreSymbols(r: string)
    requires IsEndType(r)
    ensures |r| == 1 && r != EndToken
  {
  }

  /** Whether the token at the front of the queue matches the terminal `origin`. */
  predicate Matches(origin: string, tok: Token)
  {
    if origin == "i" then IsValue(tok)
    else if origin == "+" || origin == "-" || origin == "*" || origin == "/" then Tokens.IsOperator(tok) && tok.value == origin
    else if origin == "(" || origin == ")" then Tokens.IsBracket(tok) && tok.value == origin
    else false
  }

  /** Only the seven real terminals match anything, and a token matches at most one of them. */
  lemma MatchUnique(a: string, b: string, tok: Token)
    requires Matches(a, tok) && Matches(b, tok)
    ensures a == b && IsEndType(a) && a != "&"
  {
  }

  /** The token `&lexer.Token{}` an empty step leaves at the front of the queue. */
  const EmptyToken := Token(0, "", 0, 0, 0)

  /** `GetNextOrigin` on a stream: one symbol, or two when the second is a quote. */
  function Origin(c: Cursor): (r: (string, Cursor))
  {
    var (ch, c1) := Take(c);
    if Look(c1) == "'" then (ch + Take(c1).0, Take(c1).1) else (ch, c1)
  }

  /** The origin is the first pending symbol, joined with a quote right after it. */
  lemma OriginReads(c: Cursor, a: string, rest: seq<string>)
    requires c.pending == [a] + rest
    ensures |rest| > 0 && rest[0] == "'" ==> Origin(c).0 == a + "'" && Origin(c).1.pending == rest[1..]
    ensures |rest| > 0 && rest[0] != "'" ==> Origin(c) == Take(c) && Origin(c).0 == a && Origin(c).1.pending == rest
    ensures rest == [] && c.endToken != "'" ==> Origin(c).0 == a && Origin(c).1.pending == []
  {
    assert Take(c).1.pending == rest;
  }

  /** The first symbol of a fresh stream over `E` is `E`. */
  lemma StartOrigin()
    ensures Origin(Start(Runes("E"), EndToken)).0 == "E"
  {
    OriginReads(Start(Runes("E"), EndToken), "E", []);
  }

  /** The elements of `s` in the opposite order. */
  function Reversed<T>(s: seq<T>): (r: seq<T>)
    ensures |r| == |s|
    ensures forall k :: 0 <= k < |s| ==> r[k] == s[|s| - 1 - k]
  {
    if |s| == 0 then [] else Reversed(s[1..]) + [s[0]]
  }

  lemma ReversedTwice<T>(s: seq<T>)
    ensures Reversed(Reversed(s)) == s
  {
  }

  /** Putting a new last element first. */
  lemma ReversedSnoc<T>(s: seq<T>, x: T)
    ensures Reversed(s + [x]) == [x] + Reversed(s)
  {
    var l, r := Reversed(s + [x]), [x] + Reversed(s);
    assert forall k :: 0 <= k < |l| ==> l[k] == r[k];
  }

  /** Every step of a trace names a terminal or a production of the grammar. */
  ghost predicate WellFormed(res: seq<Production>)
  {
    forall k :: 0 <= k < |res| ==>
      (res[k] == Kill(res[k].target) && IsEndType(res[k].target)) ||
      (res[k] == Continue(res[k].origin, res[k].next) && res[k].origin in Productions && res[k].next in Productions[res[k].origin])
  }

  lemma WellFormedAppend(a: seq<Production>, b: seq<Production>)
    requires WellFormed(a) && WellFormed(b)
    ensures WellFormed(a + b)
  {
    forall k | 0 <= k < |a + b|
      ensures (a + b)[k] == if k < |a| then a[k] else b[k - |a|]
    {
    }
  }

  /** The traces of several alternatives, one after the other. */
  function Flatten(traces: seq<seq<Production>>): seq<Production>
  {
    if |traces| == 0 then [] else Flatten(traces[..|traces| - 1]) + traces[|traces| - 1]
  }

  /** `traces` and `outcomes` record the alternatives `alts` of `origin` tried so
      far, in declaration order: what each added to the trace `res`, which
      starts with that alternative whenever it is not empty, and whether it
      matched; every one but the last failed. */
  ghost predicate Attempts(origin: string, alts: seq<string>, res: seq<Production>,
                           traces: seq<seq<Production>>, outcomes: seq<bool>)
  {
    |traces| == |outcomes| <= |alts| && res == Flatten(traces) &&
    (forall k :: 0 <= k < |traces| ==> traces[k] == [] || traces[k][0] == Continue(origin, alts[k])) &&
    (forall k :: 0 <= k < |outcomes| - 1 ==> !outcomes[k])
  }

  /** Recording one more alternative after failed ones. */
  lemma AttemptStep(origin: string, alts: seq<string>, before: seq<Production>, res: seq<Production>,
                    traces: seq<seq<Production>>, outcomes: seq<bool>, matched: bool)
    requires Attempts(origin, alts, before, traces, outcomes) && |traces| < |alts|
    requires |outcomes| == 0 || !outcomes[|outcomes| - 1]
    requires |res| >= |before| && res[..|before|] == before
    requires |res| > |before| ==> res[|before|] == Continue(origin, alts[|traces|])
    ensures Attempts(origin, alts, res, traces + [res[|before|..]], outcomes + [matched])
  {
    var t := res[|before|..];
    assert res == before + t;
    assert (traces + [t])[..|traces|] == traces;
    var ts := traces + [t];
    forall k | 0 <= k < |ts|
      ensures ts[k] == [] || ts[k][0] == Continue(origin, alts[k])
    {
      if k == |traces| && t != [] {
        assert t[0] == res[|before|];
      }
    }
  }

  /** What holds after `i` alternatives of `origin` have been tried: the trace
      is well formed and starts with one of them, the attempts are recorded in
      order, and the loop goes on only while the last one completed without a match. */
  ghost predicate DeriveInv(origin: string, alts: seq<string>, i: int, res: seq<Production>, canKill: bool, complete: bool,
                            traces: seq<seq<Production>>, outcomes: seq<bool>)
  {
    WellFormed(res) &&
    (|res| > 0 ==> res[0] == Continue(origin, res[0].next) && res[0].next in alts) &&
    Attempts(origin, alts, res, traces, outcomes) && |traces| == i &&
    (canKill ==> complete) &&
    (if i == 0 then complete && !canKill else outcomes[i - 1] == canKill) &&
    (canKill ==> traces[i - 1] != [])
  }

  /** What the top-level `Analyse` makes of the descent from `E`: the trace when
      it succeeded and left no token, or exactly one empty token, behind. */
  function Verdict(ps: seq<Production>, canKill: bool, rest: seq<Token>): (r: Option<seq<Production>>)
    ensures r.Some? <==> canKill && (rest == [] || (|rest| == 1 && rest[0].value == ""))
    ensures r.Some? ==> r.value == ps
  {
    if !canKill then None
    else if |rest| > 0 then
      if rest[0].value == "" && |rest[1..]| == 0 then Some(ps) else None
    else Some(ps)
  }

  /** What one call of the recursive `Analyse` leaves behind: the trace, whether
      it succeeded, whether the fuel lasted, the symbol stream and the token queue. */
  datatype Outcome = Outcome(res: seq<Production>, canKill: bool, complete: bool, c: Cursor, q: seq<Token>)

  /** The state of the loop over the alternatives of one nonterminal: the trace
      so far, the popped tokens shared by all alternatives, whether the last
      alternative matched, whether the fuel lasted, the stream and the queue. */
  datatype Attempt = Attempt(res: seq<Production>, kill: seq<Token>, matched: bool, complete: bool, c: Cursor, q: seq<Token>)

  /** The stream after `PushAlternative`: the symbols of `alt` in front, the column stepped back by its length. */
  function PushSymbols(c: Cursor, alt: string): (r: Cursor)
    ensures r.pending == Runes(alt) + c.pending && r.isEnd == c.isEnd && r.endToken == c.endToken
  {
    c.(pending := Runes(alt) + c.pending, column := c.column - |alt|)
  }

  /** The recursive `Analyse(count)` as a function of the stream and the queue:
      read one origin; `&` pushes an empty token, a terminal is matched
      against the front token without popping it, and a nonterminal is
      expanded. A terminal that meets a token it does not match discards the
      `count - 1` symbols after it; one that meets an empty queue does not. */
  function Descend(c: Cursor, q: seq<Token>, count: int, fuel: nat): (r: Outcome)
    decreases fuel, 3, 0, 0
  {
    if fuel == 0 then Outcome([], false, false, c, q)
    else
      var (o, c1) := Origin(c);
      if o == "&" then Outcome([Kill("&")], true, true, c1, [EmptyToken] + q)
      else if IsEndType(o) then
        if |q| == 0 then Outcome([], false, true, c1, q)
        else if Matches(o, q[0]) then Outcome([Kill(o)], true, true, c1, q)
        else Outcome([], false, true, Skip(c1, count - 1), q)
      else Expand(o, c1, q, count, fuel)
  }

  /** The alternatives of `origin`, none for a symbol without productions. */
  function AltsOf(origin: string): seq<string>
  {
    if origin in Productions then Productions[origin] else []
  }

  /** A nonterminal: try its alternatives in declaration order, starting with
      an empty trace and no popped tokens; when none matched and the fuel
      lasted, discard the `count - 1` symbols after it. */
  function Expand(origin: string, c: Cursor, q: seq<Token>, count: int, fuel: nat): (r: Outcome)
    requires fuel > 0
    decreases fuel, 2, 0, 0
  {
    var a := Alternatives(origin, AltsOf(origin), 0, fuel, Attempt([], [], false, true, c, q));
    Outcome(a.res, a.matched, a.complete, if a.complete && !a.matched then Skip(a.c, count - 1) else a.c, a.q)
  }

  /** The loop over the alternatives from the `i`-th on: it goes on while the
      last one tried completed without a match, putting the next one on the
      stream and trying its symbols. */
  function Alternatives(origin: string, alts: seq<string>, i: nat, fuel: nat, st: Attempt): (r: Attempt)
    requires fuel > 0 && i <= |alts|
    decreases fuel, 1, |alts| - i, 0
  {
    if i == |alts| || !st.complete || st.matched then st
    else Alternatives(origin, alts, i + 1, fuel, Symbols(origin, alts[i], 0, fuel, st.(c := PushSymbols(st.c, alts[i]))))
  }

  /** The cases of `Analyse` that do not expand a nonterminal: `&` succeeds and
      pushes an empty token; a terminal leaves the queue as it is and succeeds
      exactly when the front token matches it, discarding the `count - 1`
      symbols after it when there is a front token that does not match; a
      symbol that is neither a terminal nor a nonterminal fails the same way. */
  lemma AnalyseCases(c: Cursor, q: seq<Token>, count: int, fuel: nat)
    ensures var (o, c1) := Origin(c); var r := Descend(c, q, count, fuel);
      fuel > 0 && o == "&" ==>
        r.complete && r.canKill && r.res == [Kill("&")] && r.q == [EmptyToken] + q && r.c == c1
    ensures var (o, c1) := Origin(c); var r := Descend(c, q, count, fuel);
      fuel > 0 && o != "&" && IsEndType(o) ==>
        r.complete && r.q == q &&
        r.canKill == (|q| > 0 && Matches(o, q[0])) &&
        r.res == (if r.canKill then [Kill(o)] else []) &&
        r.c == (if |q| > 0 && !r.canKill then Skip(c1, count - 1) else c1)
    ensures var (o, c1) := Origin(c); var r := Descend(c, q, count, fuel);
      fuel > 0 && !IsEndType(o) && o !in Productions ==>
        r.complete && !r.canKill && r.res == [] && r.q == q && r.c == Skip(c1, count - 1)
  {
    var (o, c1) := Origin(c);
    if fuel > 0 && !IsEndType(o) && o !in Productions {
      assert AltsOf(o) == [];
      AlternativesDone(o, [], 0, fuel, Attempt([], [], false, true, c1, q));
    }
  }

  /** `Expand` once the loop over the alternatives has come to `a`. */
  lemma ExpandBy(origin: string, c: Cursor, q: seq<Token>, count: int, fuel: nat, a: Attempt)
    requires fuel > 0
    requires Alternatives(origin, AltsOf(origin), 0, fuel, Attempt([], [], false, true, c, q)) == a
    ensures Expand(origin, c, q, count, fuel) ==
            Outcome(a.res, a.matched, a.complete, if a.complete && !a.matched then Skip(a.c, count - 1) else a.c, a.q)
  {
  }

  /** The loop over the alternatives stops once one matched, the fuel ran out or none is left. */
  lemma AlternativesDone(origin: string, alts: seq<string>, i: nat, fuel: nat, st: Attempt)
    requires fuel > 0 && i <= |alts|
    requires i == |alts| || !st.complete || st.matched
    ensures Alternatives(origin, alts, i, fuel, st) == st
  {
  }

  /** What holds after `j` symbols of `alt` have been analysed with success,
      or after the `j`-th one failed (`stopped`): the trace extends `res0` by
      steps that start with the expansion, and the popped tokens extend
      `kill0` by `popped`, at most one per symbol but the last. A failure
      that completed has put them back in front of the queue `items` and
      left the list reversed. */
  ghost predicate Tried(origin: string, alt: string, j: int, res0: seq<Production>, kill0: seq<Token>,
                        res: seq<Production>, killToken: seq<Token>, popped: seq<Token>,
                        matched: bool, complete: bool, stopped: bool, items: seq<Token>)
  {
    0 <= j <= |alt| && (stopped ==> j < |alt|) &&
    (matched <==> !stopped && j == |alt|) && (!stopped ==> complete) &&
    (j == 0 ==> res == res0) &&
    WellFormed(res) && |res| >= |res0| && res[..|res0|] == res0 &&
    (j > 0 ==> |res| > |res0|) &&
    (|res| > |res0| ==> res[|res0|] == Continue(origin, alt)) &&
    |popped| <= j && (j == |alt| ==> |popped| < |alt|) &&
    (!stopped || !complete ==> killToken == kill0 + popped) &&
    (stopped && complete ==>
      killToken == Reversed(kill0 + popped) && |kill0 + popped| <= |items| && items[..|kill0 + popped|] == kill0 + popped)
  }

  /** One more symbol analysed: it succeeded and the next one is due, or it
      failed and the loop stops. */
  lemma TriedStep(origin: string, alt: string, j: int, res0: seq<Production>, kill0: seq<Token>,
                  resB: seq<Production>, killB: seq<Token>, popped: seq<Token>, itemsB: seq<Token>,
                  res: seq<Production>, killToken: seq<Token>, p: seq<Token>, kill: bool, done: bool, items: seq<Token>)
    requires Tried(origin, alt, j, res0, kill0, resB, killB, popped, false, true, false, itemsB) && j < |alt|
    requires WellFormed(res)
    requires done && kill ==>
      |res| > |resB| && res[..|resB|] == resB && res[|resB|] == Continue(origin, alt) &&
      killToken == killB + p && |p| <= 1 && (j == |alt| - 1 ==> p == [])
    requires !(done && kill) ==> res == resB
    requires !done ==> killToken == killB
    requires done && !kill ==> killToken == Reversed(killB) && |killB| <= |items| && items[..|killB|] == killB
    ensures done && kill ==> Tried(origin, alt, j + 1, res0, kill0, res, killToken, popped + p, j + 1 == |alt|, true, false, items)
    ensures !(done && kill) ==> Tried(origin, alt, j, res0, kill0, res, killToken, popped, false, done, true, items)
  {
    if done && kill {
      assert res[..|res0|] == resB[..|res0|];
    }
  }

  /** One round of `Symbols`, given what the descent into the `j`-th symbol returned. */
  lemma SymbolsStep(origin: string, alt: string, j: nat, fuel: nat, st: Attempt, d: Outcome)
    requires fuel > 0 && j < |alt|
    requires d == Descend(st.c, st.q, |alt| - j, fuel - 1)
    ensures !d.complete ==>
      Symbols(origin, alt, j, fuel, st) == st.(matched := false, complete := false, c := d.c, q := d.q)
    ensures d.complete && !d.canKill ==>
      Symbols(origin, alt, j, fuel, st) == st.(kill := Reversed(st.kill), matched := false, complete := true, c := d.c, q := st.kill + d.q)
    ensures d.complete && d.canKill ==>
      var pop := j != |alt| - 1 && |d.q| > 0;
      Symbols(origin, alt, j, fuel, st) ==
      Symbols(origin, alt, j + 1, fuel, st.(res := st.res + ([Continue(origin, alt)] + d.res),
                                           kill := if pop then st.kill + [d.q[0]] else st.kill,
                                           c := d.c, q := if pop then d.q[1..] else d.q))
  {
  }

  /** The loop over the symbols of `alt` from the `j`-th on. Each symbol is
      analysed with `|alt| - j` as its count; on success the expansion and the
      symbol's trace are appended and, unless it was the last symbol, the
      front token is popped onto the shared list. On the first failure the
      whole list goes back to the front of the queue and is left reversed. */
  function Symbols(origin: string, alt: string, j: nat, fuel: nat, st: Attempt): (r: Attempt)
    requires fuel > 0 && j <= |alt|
    decreases fuel, 0, |alt| - j, 1
  {
    if j == |alt| then st.(matched := true, complete := true)
    else
      var d := SymbolOutcome(origin, alt, j, fuel, st);
      if !d.complete then st.(matched := false, complete := false, c := d.c, q := d.q)
      else if !d.canKill then st.(kill := Reversed(st.kill), matched := false, complete := true, c := d.c, q := st.kill + d.q)
      else
        var res := st.res + ([Continue(origin, alt)] + d.res);
        if j != |alt| - 1 && |d.q| > 0 then
          Symbols(origin, alt, j + 1, fuel, st.(res := res, kill := st.kill + [d.q[0]], c := d.c, q := d.q[1..]))
        else
          Symbols(origin, alt, j + 1, fuel, st.(res := res, c := d.c, q := d.q))
  }

  /** What the descent into the `j`-th symbol of `alt` returns: the symbol is
      read from the stream with the number of symbols left as its count, one
      level of fuel deeper. */
  function SymbolOutcome(origin: string, alt: string, j: nat, fuel: nat, st: Attempt): (r: Outcome)
    requires fuel > 0 && j < |alt|
    decreases fuel, 0, |alt| - j, 0
  {
    Descend(st.c, st.q, |alt| - j, fuel - 1)
  }

  /** The top-level `Analyse` over the scanner's tokens: descend from `E` and
      give the trace when the descent succeeded and left at most one empty token. */
  function Accepts(raw: seq<Token>, fuel: nat): (r: Option<seq<Production>>)
    ensures var d := Descend(Start(Runes("E"), EndToken), raw, 1, fuel);
      r.Some? <==> d.canKill && (d.q == [] || (|d.q| == 1 && d.q[0].value == ""))
  {
    var d := Descend(Start(Runes("E"), EndToken), raw, 1, fuel);
    Verdict(d.res, d.canKill, d.q)
  }

  /** `reverse` and `reverseAny`: swap from both ends towards the middle. */
  method Reverse<T>(a: array<T>)
    modifies a
    ensures a[..] == Reversed(old(a[..]))
  {
    var i, j := 0, a.Length - 1;
    while i < j
      invariant 0 <= i <= a.Length && j == a.Length - 1 - i && i <= j + 2
      invariant forall k :: 0 <= k < i || j < k < a.Length ==> a[k] == old(a[a.Length - 1 - k])
      invariant forall k :: i <= k <= j ==> a[k] == old(a[k])
    {
      a[i], a[j] := a[j], a[i];
      i, j := i + 1, j - 1;
    }
  }

  /** Puts the strings of `rs` back on the stream one by one, so that they
      end up in front in the opposite order. */
  method PutBackEach(stream: Stream, rs: seq<string>)
    modifies stream
    ensures stream.Abs() == old(stream.Abs()).(pending := Reversed(rs) + old(stream.Abs()).pending,
                                               column := old(stream.Abs()).column - |rs|)
  {
    ghost var c0 := stream.Abs();
    for k := 0 to |rs|
      invariant stream.Abs() == c0.(pending := Reversed(rs[..k]) + c0.pending, column := c0.column - k)
    {
      PutBackStep(c0, rs, k, stream.Abs());
      stream.PutBack(rs[k]);
    }
    assert rs[..|rs|] == rs;
  }

  /** One more string put back. */
  lemma PutBackStep(c0: Cursor, rs: seq<string>, k: int, c: Cursor)
    requires 0 <= k < |rs|
    requires c == c0.(pending := Reversed(rs[..k]) + c0.pending, column := c0.column - k)
    ensures Push(c, rs[k]) == c0.(pending := Reversed(rs[..k + 1]) + c0.pending, column := c0.column - k - 1)
  {
    assert rs[..k + 1] == rs[..k] + [rs[k]];
    ReversedSnoc(rs[..k], rs[k]);
  }

  /** Puts the symbols of `alt` back on the stream, last one first, so that its leftmost symbol is read next. */
  method PushAlternative(stream: Stream, alt: string)
    modifies stream
    ensures stream.Abs() == old(stream.Abs()).(pending := Runes(alt) + old(stream.Abs()).pending,
                                               column := old(stream.Abs()).column - |alt|)
  {
    var n := |alt|;
    var symbols := new string[n](k requires 0 <= k < n => [alt[k]]);
    assert symbols[..] == Runes(alt);
    Reverse(symbols);
    PutBackEach(stream, symbols[..]);
    ReversedTwice(Runes(alt));
  }

  /** Pushes the elements of `rs` to the front of the queue one by one, so
      that they end up in front in the opposite order. */
  method PushEachFront<T>(tokens: Queue<T>, rs: seq<T>)
    modifies tokens
    ensures tokens.items == Reversed(rs) + old(tokens.items)
  {
    ghost var q0 := tokens.items;
    for k := 0 to |rs|
      invariant tokens.items == Reversed(rs[..k]) + q0
    {
      assert rs[..k + 1] == rs[..k] + [rs[k]];
      ReversedSnoc(rs[..k], rs[k]);
      tokens.PushFront(rs[k]);
    }
    assert rs[..|rs|] == rs;
  }

  /** Pushes the popped tokens back to the front of the queue in their
      original order; the list itself ends up reversed, as `reverseAny`
      leaves the slice it is given. */
  method RollBack<T>(tokens: Queue<T>, killToken: seq<T>) returns (reversed: seq<T>)
    modifies tokens
    ensures reversed == Reversed(killToken)
    ensures tokens.items == killToken + old(tokens.items)
  {
    var n := |killToken|;
    var a := new T[n](k requires 0 <= k < n => killToken[k]);
    assert a[..] == killToken;
    Reverse(a);
    reversed := a[..];
    PushEachFront(tokens, reversed);
    ReversedTwice(killToken);
  }

  class Grammar {
    const stream: Stream
    const productions: map<string, seq<string>>
    const endToken: string
    const tokens: Queue<Token>

    predicate Valid()
    {
      productions == Productions
    }

    /** `NewGrammar`: a symbol stream over `r` ended by `$`, and the tokens queued in order. */
    constructor(token: seq<Token>, r: string, et: string)
      ensures Valid() && endToken == et
      ensures stream.Abs() == Start(Runes(r), EndToken)
      ensures tokens.items == token
      ensures fresh(stream) && fresh(tokens)
    {
      var s := new Stream(Runes(r), EndToken);
      var q := new Queue<Token>();
      for i := 0 to |token|
        invariant q.items == token[..i]
        invariant s.Abs() == Start(Runes(r), EndToken)
      {
        q.PushBack(token[i]);
      }
      stream := s;
      tokens := q;
      endToken := et;
      productions := Productions;
    }

    method GetNextOrigin() returns (origin: string)
      modifies stream
      ensures (origin, stream.Abs()) == Origin(old(stream.Abs()))
    {
      var c := stream.Next();
      var lookahead := stream.Peek();
      if lookahead == "'" {
        var d := stream.Next();
        return c + d;
      }
      return c;
    }

    /** The recursive `Analyse(count)`: `count` is the number of symbols of the
        caller's alternative from this one on, and a failure discards the
        `count - 1` symbols after it. `fuel` bounds the depth of the descent;
        `complete` is false when it ran out. */
    method Analyse(count: int, fuel: nat) returns (res: seq<Production>, canKill: bool, complete: bool)
      requires Valid()
      modifies stream, tokens
      decreases fuel, 4
      ensures Outcome(res, canKill, complete, stream.Abs(), tokens.items) == Descend(old(stream.Abs()), old(tokens.items), count, fuel)
      ensures WellFormed(res)
      ensures fuel == 0 ==> !complete
      ensures !complete ==> !canKill
      ensures var o := Origin(old(stream.Abs())).0;
        canKill && !IsEndType(o) ==>
          o in Productions && |res| > 0 && res[0] == Continue(o, res[0].next) && res[0].next in Productions[o]
    {
      if fuel == 0 {
        return [], false, false;
      }
      var origin := GetNextOrigin();
      if origin == "&" {
        tokens.PushFront(EmptyToken);
        return [Kill("&")], true, true;
      }
      if IsEndType(origin) {
        var c := tokens.Front();
        if c.None? {
          return [], false, true;
        }
        if !Matches(origin, c.value) {
          stream.ClearFronts(count - 1);
          return [], false, true;
        }
        return [Kill(origin)], true, true;
      }
      ghost var traces, outcomes;
      res, canKill, complete, traces, outcomes := Derive(origin, count, fuel);
    }

    /** The second half of `Analyse`: try the alternatives of `origin` in order.
        The trace is never cut back, so it keeps the steps of alternatives that
        failed part-way, and the list of popped tokens is shared by all
        alternatives. `traces[k]` is what the `k`-th alternative added to the
        trace and `outcomes[k]` whether it matched. */
    method Derive(origin: string, count: int, fuel: nat)
      returns (res: seq<Production>, canKill: bool, complete: bool,
               ghost traces: seq<seq<Production>>, ghost outcomes: seq<bool>)
      requires Valid() && fuel > 0
      modifies stream, tokens
      decreases fuel, 3
      ensures Outcome(res, canKill, complete, stream.Abs(), tokens.items) == Expand(origin, old(stream.Abs()), old(tokens.items), count, fuel)
      ensures WellFormed(res)
      ensures !complete ==> !canKill
      ensures canKill ==>
        origin in Productions && |res| > 0 && res[0] == Continue(origin, res[0].next) && res[0].next in Productions[origin]
      ensures origin !in Productions ==>
        complete && !canKill && res == [] && traces == [] &&
        tokens.items == old(tokens.items) && stream.Abs() == Skip(old(stream.Abs()), count - 1)
      ensures origin in Productions ==>
        Attempts(origin, Productions[origin], res, traces, outcomes) &&
        (canKill <==> complete && |outcomes| > 0 && outcomes[|outcomes| - 1]) &&
        (canKill ==> traces[|traces| - 1] != []) &&
        (complete && !canKill ==> |outcomes| == |Productions[origin]|)
    {
      GrammarClosed();
      var canUse := if origin in productions then productions[origin] else [];
      assert canUse == AltsOf(origin);
      var killToken: seq<Token> := [];
      res, canKill, complete := [], false, true;
      traces, outcomes := [], [];
      ghost var start := Attempt([], [], false, true, stream.Abs(), tokens.items);
      var i := 0;
      while i < |canUse| && complete && !canKill
        invariant 0 <= i <= |canUse|
        invariant Alternatives(origin, canUse, 0, fuel, start) ==
                  Alternatives(origin, canUse, i, fuel, Attempt(res, killToken, canKill, complete, stream.Abs(), tokens.items))
        invariant DeriveInv(origin, canUse, i, res, canKill, complete, traces, outcomes)
        invariant canUse == [] ==> tokens.items == old(tokens.items) && stream.Abs() == old(stream.Abs())
        decreases |canUse| - i
      {
        res, killToken, canKill, complete, traces, outcomes := NextAlternative(origin, canUse, i, fuel, res, killToken, traces, outcomes);
        i := i + 1;
      }
      ghost var a := Attempt(res, killToken, canKill, complete, stream.Abs(), tokens.items);
      AlternativesDone(origin, canUse, i, fuel, a);
      ExpandBy(origin, start.c, start.q, count, fuel, a);
      if complete && !canKill {
        stream.ClearFronts(count - 1);
      }
    }

    /** One round of the loop over the alternatives: put the `i`-th alternative
        on the stream, try it, and record what it added to the trace. */
    method NextAlternative(origin: string, alts: seq<string>, i: nat, fuel: nat, res0: seq<Production>, kill0: seq<Token>,
                           ghost traces0: seq<seq<Production>>, ghost outcomes0: seq<bool>)
      returns (res: seq<Production>, killToken: seq<Token>, matched: bool, complete: bool,
               ghost traces: seq<seq<Production>>, ghost outcomes: seq<bool>)
      requires Valid() && fuel > 0
      requires origin in Productions && alts == Productions[origin] && i < |alts|
      requires DeriveInv(origin, alts, i, res0, false, true, traces0, outcomes0)
      modifies stream, tokens
      decreases fuel, 2
      ensures Attempt(res, killToken, matched, complete, stream.Abs(), tokens.items) ==
              Symbols(origin, alts[i], 0, fuel, Attempt(res0, kill0, false, true, PushSymbols(old(stream.Abs()), alts[i]), old(tokens.items)))
      ensures DeriveInv(origin, alts, i + 1, res, matched, complete, traces, outcomes)
    {
      ghost var c0, q0 := stream.Abs(), tokens.items;
      assert alts[i] in Productions[origin];
      PushAlternative(stream, alts[i]);
      ghost var pushed := Attempt(res0, kill0, false, true, stream.Abs(), tokens.items);
      assert pushed == Attempt(res0, kill0, false, true, PushSymbols(c0, alts[i]), q0);
      ghost var popped;
      res, killToken, matched, complete, popped := TryAlternative(origin, alts[i], fuel, res0, kill0);
      assert Attempt(res, killToken, matched, complete, stream.Abs(), tokens.items) == Symbols(origin, alts[i], 0, fuel, pushed);
      assert |res0| > 0 ==> res[0] == res0[0];
      AttemptStep(origin, alts, res0, res, traces0, outcomes0, matched);
      traces, outcomes := traces0 + [res[|res0|..]], outcomes0 + [matched];
    }

    /** One alternative: analyse its symbols left to right, popping the token
        each one leaves at the front before going on to the next; on the first
        failure put the popped tokens back and give up. `popped` lists the
        tokens popped for this alternative, in order. */
    method TryAlternative(origin: string, alt: string, fuel: nat, res0: seq<Production>, kill0: seq<Token>)
      returns (res: seq<Production>, killToken: seq<Token>, matched: bool, complete: bool, ghost popped: seq<Token>)
      requires Valid() && fuel > 0
      requires origin in Productions && alt in Productions[origin]
      requires WellFormed(res0)
      modifies stream, tokens
      decreases fuel, 1
      ensures Attempt(res, killToken, matched, complete, stream.Abs(), tokens.items) ==
              Symbols(origin, alt, 0, fuel, Attempt(res0, kill0, false, true, old(stream.Abs()), old(tokens.items)))
      ensures WellFormed(res) && |res| >= |res0| && res[..|res0|] == res0
      ensures matched ==> complete
      ensures matched && alt != "" ==> |res| > |res0|
      ensures |res| > |res0| ==> res[|res0|] == Continue(origin, alt)
      ensures |popped| < |alt|
      ensures matched || !complete ==> killToken == kill0 + popped
      ensures complete && !matched ==>
        killToken == Reversed(kill0 + popped) &&
        |kill0 + popped| <= |tokens.items| && tokens.items[..|kill0 + popped|] == kill0 + popped
    {
      res, killToken := res0, kill0;
      popped := [];
      matched := alt == "";
      complete := true;
      ghost var target := Symbols(origin, alt, 0, fuel, Attempt(res0, kill0, false, true, stream.Abs(), tokens.items));
      var j := 0;
      var stopped := false;
      while j < |alt| && !stopped
        invariant 0 <= j <= |alt|
        invariant !stopped ==> target == Symbols(origin, alt, j, fuel, Attempt(res, killToken, false, true, stream.Abs(), tokens.items))
        invariant stopped ==> target == Attempt(res, killToken, false, complete, stream.Abs(), tokens.items)
        invariant Tried(origin, alt, j, res0, kill0, res, killToken, popped, matched, complete, stopped, tokens.items)
        decreases |alt| - j, if stopped then 0 else 1
      {
        ghost var resB, killB, itemsB := res, killToken, tokens.items;
        var kill, done;
        ghost var p;
        res, killToken, kill, done, p := NextSymbol(origin, alt, j, fuel, res, killToken, target);
        TriedStep(origin, alt, j, res0, kill0, resB, killB, popped, itemsB, res, killToken, p, kill, done, tokens.items);
        if done && kill {
          popped := popped + p;
          if j == |alt| - 1 {
            matched := true;
          }
          j := j + 1;
        } else {
          stopped, complete := true, done;
        }
      }
    }

    /** One round of the loop over the symbols: analyse the `j`-th symbol of
        `alt` with the number of symbols left as its count. On success its
        trace follows the expansion, and the front token is popped onto the
        shared list `p` records, unless the symbol was the last one; on
        failure the list goes back to the front of the queue. */
    method NextSymbol(origin: string, alt: string, j: nat, fuel: nat, res0: seq<Production>, kill0: seq<Token>, ghost target: Attempt)
      returns (res: seq<Production>, killToken: seq<Token>, kill: bool, done: bool, ghost p: seq<Token>)
      requires Valid() && fuel > 0
      requires origin in Productions && alt in Productions[origin] && j < |alt|
      requires WellFormed(res0)
      requires target == Symbols(origin, alt, j, fuel, Attempt(res0, kill0, false, true, stream.Abs(), tokens.items))
      modifies stream, tokens
      decreases fuel, 0
      ensures done && kill ==> target == Symbols(origin, alt, j + 1, fuel, Attempt(res, killToken, false, true, stream.Abs(), tokens.items))
      ensures !(done && kill) ==> target == Attempt(res, killToken, false, done, stream.Abs(), tokens.items)
      ensures WellFormed(res)
      ensures done && kill ==>
        |res| > |res0| && res[..|res0|] == res0 && res[|res0|] == Continue(origin, alt) &&
        killToken == kill0 + p && |p| <= 1 && (j == |alt| - 1 ==> p == [])
      ensures !(done && kill) ==> res == res0
      ensures !done ==> killToken == kill0
      ensures done && !kill ==>
        killToken == Reversed(kill0) && |kill0| <= |tokens.items| && tokens.items[..|kill0|] == kill0
    {
      ghost var st := Attempt(res0, kill0, false, true, stream.Abs(), tokens.items);
      var ps;
      ps, kill, done := Analyse(|alt| - j, fuel - 1);
      ghost var d := Outcome(ps, kill, done, stream.Abs(), tokens.items);
      assert d == Descend(st.c, st.q, |alt| - j, fuel - 1);
      SymbolsStep(origin, alt, j, fuel, st, d);
      res, killToken, p := res0, kill0, [];
      if !done {
        return;
      }
      if kill {
        WellFormedAppend([Continue(origin, alt)], ps);
        WellFormedAppend(res0, [Continue(origin, alt)] + ps);
        res := res0 + ([Continue(origin, alt)] + ps);
        assert res[..|res0|] == res0;
        if j != |alt| - 1 {
          var t := tokens.Pop();
          if t.Some? {
            killToken := kill0 + [t.value];
            p := [t.value];
          }
        }
      } else {
        killToken := RollBack(tokens, kill0);
        assert tokens.items[..|kill0|] == kill0;
      }
    }
  }

  /** The top-level `Analyse`: descend from `E` over the tokens and accept when
      the descent succeeds and at most one empty token is left in the queue.
      `trace`, `canKill` and `rest` are what the descent returned and the
      tokens it left behind. */
  method Parse(raw: seq<Token>, fuel: nat)
    returns (ps: seq<Production>, success: bool, complete: bool,
             ghost trace: seq<Production>, ghost canKill: bool, ghost rest: seq<Token>)
    ensures var d := Descend(Start(Runes("E"), EndToken), raw, 1, fuel);
      trace == d.res && canKill == d.canKill && complete == d.complete && rest == d.q
    ensures success == Accepts(raw, fuel).Some?
    ensures success ==> ps == Accepts(raw, fuel).value
    ensures !complete ==> !canKill
    ensures success <==> canKill && (rest == [] || (|rest| == 1 && rest[0].value == ""))
    ensures ps == if success then trace else []
    ensures canKill ==> WellFormed(trace) && |trace| > 0 && trace[0] == Continue("E", "TG")
  {
    var g := new Grammar(raw, "E", EndToken);
    StartOrigin();
    var res, kill, done := g.Analyse(1, fuel);
    trace, canKill, rest := res, kill, g.tokens.items;
    complete := done;
    var v := Verdict(res, kill, g.tokens.items);
    success := v.Some?;
    ps := if v.Some? then v.value else [];
  }
}
