/** What the scanner's specification functions guarantee. */
module LexerFacts {
  import opened Wrappers
  import opened Define
  import opened Streams
  import opened Tokens
  import opened Lexer

  // ------------------------------------------------------------ dispatching

  /** Spaces, line feeds and tabs produce no token. */
  lemma BlankSkipped(st: Lx, acc: seq<Token>)
    requires Good(st) && More(st)
    requires Peek(st) == " " || Peek(st) == "\n" || Peek(st) == "\t"
    ensures Good(Next(st).1)
    ensures Lex(st, acc) == Lex(Next(st).1, acc)
  {
  }

  /** Scanning ends when `HasNext` fails or when the character read is `$`. */
  lemma EndStops(st: Lx, acc: seq<Token>)
    requires Good(st)
    requires !More(st) || Peek(st) == EndToken
    ensures Lex(st, acc).Ok?
    ensures Lex(st, acc).value.0 == acc
  {
  }

  /** A bracket becomes a BRACKET token holding it, with id 0. */
  lemma BracketLexed(st: Lx, acc: seq<Token>)
    requires Good(st) && More(st)
    requires Peek(st) == "(" || Peek(st) == ")"
    ensures Good(Next(st).1)
    ensures Lex(st, acc) == Lex(Next(st).1, acc + [Token(BRACKET, Peek(st), 0, 0, 0)])
  {
  }

  // -------------------------------------------------------------- operators

  /** A two-character operator is always taken whole. */
  lemma OpTwoChars(st: Lx, a: string, b: string, rest: seq<string>)
    requires st.cur.pending == [a, b] + rest
    requires a in OpStarts && a + b in TwoCharOps
    ensures OpLoop(st, "").Ok?
    ensures OpLoop(st, "").value.0.value == a + b
    ensures OpLoop(st, "").value.1.cur.pending == rest
  {
    assert Next(st).1.cur.pending == [b] + rest;
  }

  /** Otherwise the first character is the operator and the lookahead is put back. */
  lemma OpOneChar(st: Lx, a: string, b: string, rest: seq<string>)
    requires st.cur.pending == [a, b] + rest
    requires a in OpStarts && a != ":" && a + b !in TwoCharOps
    ensures OpLoop(st, "").Ok?
    ensures OpLoop(st, "").value.0.value == a
    ensures OpLoop(st, "").value.1.cur.pending == [b] + rest
  {
    assert Next(st).1.cur.pending == [b] + rest;
  }

  /** A `:` not followed by `=` is a panic. */
  lemma ColonNeedsEquals(st: Lx, b: string, rest: seq<string>)
    requires st.cur.pending == [":", b] + rest && b != "="
    ensures OpLoop(st, "").Panic?
  {
    var st1 := Next(st).1;
    assert st1.cur.pending == [b] + rest;
    assert Next(st).0 == ":" && ":" in OpStarts;
    assert OpLoop(st, "") == OpLoop(st1, ":");
    assert More(st1) && Next(st1).0 == b;
    assert (":" + b)[1..] == b && ":="[1..] == "=";
    assert forall o :: o in TwoCharOps && o[0] == ':' ==> o == ":=";
    assert (":" + b)[0] == ':';
  }

  /** `;` and `,` are single-character operators that never look further. */
  lemma SeparatorOps(st: Lx, a: string, rest: seq<string>)
    requires st.cur.pending == [a] + rest && (a == ";" || a == ",")
    ensures OpLoop(st, "").Ok?
    ensures OpLoop(st, "").value.0.value == a
    ensures OpLoop(st, "").value.1.cur.pending == rest
  {
  }

  // ------------------------------------------------------------ identifiers

  predicate LiteralChar(ch: char)
  {
    ch == '_' || 'a' <= ch <= 'z' || 'A' <= ch <= 'Z' || '0' <= ch <= '9'
  }

  /** The first string of a run of text, and what follows it. */
  lemma RunesTail(w: string, more: seq<string>)
    requires |w| > 0
    ensures (Runes(w) + more)[0] == [w[0]]
    ensures (Runes(w) + more)[1..] == Runes(w[1..]) + more
  {
    assert Runes(w) == [[w[0]]] + Runes(w[1..]);
  }

  /** Moving the first character of `w` to the end of `s`. */
  lemma ConsAppend(s: string, w: string)
    requires |w| > 0
    ensures s + [w[0]] + w[1..] == s + w
  {
  }

  /** An identifier is the longest run of letters, digits and `_`; its type
      depends only on the word, and the character after it stays unread. */
  lemma {:induction false} WordRun(st: Lx, s: string, w: string, d: string, rest: seq<string>)
    requires st.cur.pending == Runes(w) + [d] + rest
    requires forall k :: 0 <= k < |w| ==> LiteralChar(w[k])
    requires !IsLiteral(d) && d != "."
    ensures WordLoop(st, s).0.value == s + w
    ensures WordLoop(st, s).0.typ == WordType(s + w)
    ensures WordLoop(st, s).1.cur.pending == [d] + rest
    decreases |w|
  {
    if |w| == 0 {
      assert st.cur.pending == [d] + rest;
      assert s + w == s;
    } else {
      RunesTail(w, [d] + rest);
      WordRun(Next(st).1, s + [w[0]], w[1..], d, rest);
      ConsAppend(s, w);
    }
  }

  /** A `.` right after an identifier turns it into an ERROR token that starts with the word. */
  lemma {:induction false} WordThenDot(st: Lx, s: string, w: string, rest: seq<string>)
    requires st.cur.pending == Runes(w) + ["."] + rest
    requires forall k :: 0 <= k < |w| ==> LiteralChar(w[k])
    ensures WordLoop(st, s).0.typ == ERROR
    decreases |w|
  {
    if |w| == 0 {
      assert st.cur.pending == ["."] + rest;
    } else {
      RunesTail(w, ["."] + rest);
      WordThenDot(Next(st).1, s + [w[0]], w[1..], rest);
    }
  }

  // ---------------------------------------------------------------- strings

  /** The character that closes a string in state 1 or 2. */
  function CloseChar(state: int): char
  {
    if state == 1 then '\'' else '"'
  }

  /** A finished string keeps what was read so far and ends with its closing quote. */
  lemma {:induction false} StringEndsWithCloser(st: Lx, state: int, s: string)
    requires 1 <= state <= 2
    requires StringLoop(st, state, s).Ok?
    ensures var v := StringLoop(st, state, s).value.0.value;
      |v| > |s| && v[..|s|] == s && v[|v| - 1] == CloseChar(state)
    decreases M(st)
  {
    var (c, st1) := Next(st);
    if c != Closer(if state == 1 then "'" else "\"") {
      StringEndsWithCloser(st1, state, s + c);
    }
  }

  /** A string token includes both quotes: it starts with the opener and ends
      with `'` when the opener was `'`, and with `"` otherwise. */
  lemma StringShape(st: Lx)
    requires More(st) && StringLoop(st, 0, "").Ok?
    ensures var v := StringLoop(st, 0, "").value.0.value;
      |v| > |Peek(st)| && v[..|Peek(st)|] == Peek(st) &&
      v[|v| - 1] == (if Peek(st) == "'" then '\'' else '"')
  {
    var (c, st1) := Next(st);
    assert "" + c == c;
    assert StringLoop(st, 0, "") == StringLoop(st1, if c == "'" then 1 else 2, c);
    StringEndsWithCloser(st1, if c == "'" then 1 else 2, c);
  }

  /** A string ends at the first closing quote: everything before it is kept,
      the quote is appended, and what follows stays unread. */
  lemma {:induction false} StringRun(st: Lx, state: int, s: string, w: string, rest: seq<string>)
    requires 1 <= state <= 2
    requires st.cur.pending == Runes(w) + [[CloseChar(state)]] + rest && CloseChar(state) !in w
    ensures StringLoop(st, state, s).Ok?
    ensures StringLoop(st, state, s).value.0.value == s + w + [CloseChar(state)]
    ensures StringLoop(st, state, s).value.1.cur.pending == rest
    decreases |w|
  {
    assert Closer(if state == 1 then "'" else "\"") == [CloseChar(state)];
    assert More(st);
    if |w| == 0 {
      assert st.cur.pending == [[CloseChar(state)]] + rest;
      assert s + w == s;
    } else {
      RunesTail(w, [[CloseChar(state)]] + rest);
      assert st.cur.pending == (Runes(w) + ([[CloseChar(state)]] + rest));
      assert [w[0]] != [CloseChar(state)];
      StringRun(Next(st).1, state, s + [w[0]], w[1..], rest);
      ConsAppend(s, w);
    }
  }

  /** From the opener: a string opened by `'` runs to the next `'`, one
      opened by anything else to the next `"`. */
  lemma StringFromOpener(st: Lx, o: string, w: string, rest: seq<string>)
    requires st.cur.pending == [o] + Runes(w) + [[if o == "'" then '\'' else '"']] + rest
    requires (if o == "'" then '\'' else '"') !in w
    ensures StringLoop(st, 0, "").Ok?
    ensures StringLoop(st, 0, "").value.0.value == o + w + [if o == "'" then '\'' else '"']
    ensures StringLoop(st, 0, "").value.1.cur.pending == rest
  {
    var state := if o == "'" then 1 else 2;
    assert CloseChar(state) == if o == "'" then '\'' else '"';
    assert More(st) && Next(st).0 == o;
    assert st.cur.pending == [o] + (Runes(w) + [[CloseChar(state)]] + rest);
    assert "" + o == o;
    StringRun(Next(st).1, state, o, w, rest);
  }

  /** A string whose closing quote never comes panics. */
  lemma {:induction false} UnterminatedStringPanics(st: Lx, state: int, s: string, w: string)
    requires Good(st) && !st.cur.isEnd
    requires 1 <= state <= 2
    requires st.cur.pending == Runes(w) && CloseChar(state) !in w
    ensures StringLoop(st, state, s).Panic?
    decreases |w|
  {
    var (c, st1) := Next(st);
    if |w| == 0 {
      assert c == EndToken;
      assert !More(st1);
    } else {
      assert c == [w[0]];
      assert st1.cur.pending == Runes(w[1..]);
      UnterminatedStringPanics(st1, state, s + c, w[1..]);
    }
  }

  // ---------------------------------------------------------------- numbers

  predicate Digits(u: string)
  {
    forall i :: 0 <= i < |u| ==> DigitChar(u[i])
  }

  /** The text without a leading sign. */
  function Unsigned(v: string): string
  {
    if |v| > 0 && (v[0] == '+' || v[0] == '-') then v[1..] else v
  }

  /** An optional sign followed by one or more digits. */
  predicate IntegerText(v: string)
  {
    |Unsigned(v)| >= 1 && Digits(Unsigned(v))
  }

  /** Digits and exactly one dot, at least two characters, after an optional sign. */
  predicate FloatText(v: string)
  {
    var u := Unsigned(v);
    |u| >= 2 && '.' in u &&
    (forall i :: 0 <= i < |u| ==> u[i] == '.' || DigitChar(u[i])) &&
    (forall i, j :: 0 <= i < j < |u| && u[i] == '.' ==> u[j] != '.')
  }

  /** What the text read so far looks like in each state of `MakeNumber`. */
  predicate NumInv(state: int, s: string)
  {
    if state == 0 then s == ""
    else if state == 1 || state == 2 then IntegerText(s)
    else if state == 3 then s == "+" || s == "-"
    else if state == 4 then |s| >= 2 && s[|s| - 1] == '.' && IntegerText(s[..|s| - 1])
    else if state == 5 then s == "." || s == "+." || s == "-."
    else if state == 6 then FloatText(s)
    else state == -2
  }

  /** Appending keeps a leading sign where it was. */
  lemma UnsignedAppend(v: string, ch: char)
    requires |v| >= 1
    ensures Unsigned(v + [ch]) == Unsigned(v) + [ch]
  {
    if v[0] == '+' || v[0] == '-' {
      assert (v + [ch])[1..] == v[1..] + [ch];
    }
  }

  lemma AppendDigit(s: string, ch: char)
    requires IntegerText(s) && DigitChar(ch)
    ensures IntegerText(s + [ch])
  {
    UnsignedAppend(s, ch);
  }

  lemma SignThenDigit(s: string, ch: char)
    requires NumInv(3, s) && DigitChar(ch)
    ensures IntegerText(s + [ch])
  {
    assert Unsigned(s + [ch]) == [ch];
  }

  lemma IntegerThenDot(s: string)
    requires IntegerText(s)
    ensures NumInv(4, s + ".")
  {
    assert (s + ".")[..|s|] == s;
  }

  lemma DotTextIsFloat(s: string)
    requires NumInv(4, s)
    ensures FloatText(s)
  {
    var i := s[..|s| - 1];
    assert s == i + ".";
    UnsignedAppend(i, '.');
    var u := Unsigned(s);
    assert u == Unsigned(i) + ".";
    assert u[|u| - 1] == '.';
  }

  lemma DotThenDigit(s: string, ch: char)
    requires NumInv(4, s) && DigitChar(ch)
    ensures FloatText(s + [ch])
  {
    DotTextIsFloat(s);
    FloatThenDigit(s, ch);
  }

  lemma LoneDotThenDigit(s: string, ch: char)
    requires NumInv(5, s) && DigitChar(ch)
    ensures FloatText(s + [ch])
  {
    assert Unsigned(s + [ch]) == ['.', ch];
  }

  lemma FloatThenDigit(s: string, ch: char)
    requires FloatText(s) && DigitChar(ch)
    ensures FloatText(s + [ch])
  {
    UnsignedAppend(s, ch);
    var u := Unsigned(s + [ch]);
    assert u == Unsigned(s) + [ch];
    assert u[|u| - 1] == ch;
  }

  /** Each move of `MakeNumber` keeps the shape of the text, and each token it emits has the shape of its type. */
  lemma NumStepKeepsShape(state: int, la: string, s: string)
    requires 0 <= state <= 6 && NumInv(state, s)
    requires state == 0 ==> StartsNumber(la)
    ensures NumStep(state, la).Move? && NumStep(state, la).next >= 0 ==> NumInv(NumStep(state, la).next, s + la)
    ensures NumStep(state, la).Move? && NumStep(state, la).next < 0 ==> NumInv(NumStep(state, la).next, s)
    ensures NumStep(state, la) == Emit(INTEGER) ==> IntegerText(s)
    ensures NumStep(state, la) == Emit(FLOAT) ==> FloatText(s)
  {
    var a := NumStep(state, la);
    if a.Move? && a.next >= 0 {
      assert |la| == 1 && la == [la[0]];
      var ch := la[0];
      if state == 0 {
        assert s + la == la;
      } else if a.next == 4 {
        IntegerThenDot(s);
      } else if a.next == 6 && state == 4 {
        DotThenDigit(s, ch);
      } else if a.next == 6 && state == 5 {
        LoneDotThenDigit(s, ch);
      } else if a.next == 6 {
        FloatThenDigit(s, ch);
      } else if state == 3 && a.next == 2 {
        SignThenDigit(s, ch);
      } else if a.next == 1 || a.next == 2 {
        AppendDigit(s, ch);
      }
    }
    if a == Emit(FLOAT) && state == 4 {
      DotTextIsFloat(s);
    }
  }

  /** `MakeNumber` yields INTEGER tokens spelled as an optionally signed digit
      run, FLOAT tokens spelled as digits around one dot, and otherwise ERROR. */
  lemma {:induction false} NumberShapes(st: Lx, state: int, s: string)
    requires 0 <= state <= 6 || state == -2
    requires NumInv(state, s)
    requires state == 0 ==> More(st) && StartsNumber(Peek(st))
    requires NumberLoop(st, state, s).Some?
    ensures var t := NumberLoop(st, state, s).value.0;
      (t.typ == INTEGER && IntegerText(t.value)) ||
      (t.typ == FLOAT && FloatText(t.value)) ||
      t.typ == ERROR
    decreases M(st), if state == -2 then 0 else 1
  {
    var la := Peek(st);
    if state != -2 {
      NumStepKeepsShape(state, la, s);
      match NumStep(state, la)
      case Emit(t) =>
      case Move(n) =>
        if n >= 0 {
          NumberShapes(Next(st).1, n, s + la);
        } else {
          NumberShapes(st, n, s);
        }
    }
  }

  // ------------------------------------------------ numbers, by their text

  /** Where a digit takes `MakeNumber` from `state`. */
  function DigitState(state: int, d: char): int
  {
    if state == 0 || state == 1 then (if d == '0' then 1 else 2)
    else if state == 2 || state == 3 then 2
    else 6
  }

  /** The state reached after the digits of `w`. */
  function AfterDigits(state: int, w: string): int
    decreases |w|
  {
    if |w| == 0 then state else AfterDigits(DigitState(state, w[0]), w[1..])
  }

  predicate Zeros(w: string)
  {
    forall k :: 0 <= k < |w| ==> w[k] == '0'
  }

  /** A digit is always consumed, moving to `DigitState`. */
  lemma NumStepDigit(state: int, d: char)
    requires 0 <= state <= 6 && DigitChar(d)
    ensures NumStep(state, [d]) == Move(DigitState(state, d))
  {
    assert [d] == "0" <==> d == '0';
    assert Define.IsNumber([d]) && [d] != "." && [d] != "+" && [d] != "-";
  }

  /** `MakeNumber` reads a run of digits without emitting anything. */
  lemma {:induction false} DigitRun(st: Lx, state: int, s: string, w: string, more: seq<string>)
    requires 0 <= state <= 6
    requires st.cur.pending == Runes(w) + more && Digits(w)
    ensures 0 <= AfterDigits(state, w) <= 6
    ensures Skip(st.cur, |w|).pending == more
    ensures NumberLoop(st, state, s) == NumberLoop(st.(cur := Skip(st.cur, |w|)), AfterDigits(state, w), s + w)
    decreases |w|
  {
    if |w| == 0 {
      assert s + w == s;
    } else {
      RunesTail(w, more);
      DigitStep(st, state, s, w[0]);
      DigitRun(Next(st).1, DigitState(state, w[0]), s + [w[0]], w[1..], more);
      ConsAppend(s, w);
    }
  }

  /** One digit read by `MakeNumber`. */
  lemma DigitStep(st: Lx, state: int, s: string, d: char)
    requires 0 <= state <= 6 && DigitChar(d)
    requires |st.cur.pending| > 0 && st.cur.pending[0] == [d]
    ensures 0 <= DigitState(state, d) <= 6
    ensures NumberLoop(st, state, s) == NumberLoop(Next(st).1, DigitState(state, d), s + [d])
  {
    NumStepDigit(state, d);
    assert More(st) && Peek(st) == [d];
  }

  /** Digits lead to state 1 while they are all zeros and to state 2 after a
      non-zero one; after a dot they lead to state 6. */
  lemma {:induction false} AfterDigitsState(state: int, w: string)
    requires Digits(w) && |w| >= 1
    ensures state == 0 || state == 1 ==> AfterDigits(state, w) == if Zeros(w) then 1 else 2
    ensures state == 2 || state == 3 ==> AfterDigits(state, w) == 2
    ensures 4 <= state <= 6 ==> AfterDigits(state, w) == 6
    decreases |w|
  {
    if |w| > 1 {
      AfterDigitsState(DigitState(state, w[0]), w[1..]);
      if state <= 1 && w[0] != '0' {
        assert !Zeros(w);
      }
      if state <= 1 && w[0] == '0' {
        assert Zeros(w) <==> Zeros(w[1..]) by {
          if Zeros(w[1..]) {
            forall k | 0 <= k < |w| ensures w[k] == '0' {
              if k > 0 {
                assert w[k] == w[1..][k - 1];
              }
            }
          }
        }
      }
    }
  }

  /** `MakeErr` reads everything up to an operator or a bracket and puts that back. */
  lemma {:induction false} ErrRun(st: Lx, s: string, tail: string, y: string, rest: seq<string>, row: int, column: int)
    requires st.cur.pending == Runes(tail) + [y] + rest
    requires NoStop(tail) && (Define.IsOperator(y) || Define.IsBracket(y))
    ensures ErrLoop(st, s, row, column).0.value == s + tail
    ensures ErrLoop(st, s, row, column).1.cur.pending == [y] + rest
    decreases |tail|
  {
    if |tail| == 0 {
      assert st.cur.pending == [y] + rest;
      assert s + tail == s;
    } else {
      RunesTail(tail, [y] + rest);
      assert !Define.IsOperator([tail[0]]) && !Define.IsBracket([tail[0]]);
      ErrRun(Next(st).1, s + [tail[0]], tail[1..], y, rest, row, column);
      ConsAppend(s, tail);
    }
  }

  /** No operator and no bracket: text `MakeErr` swallows. */
  predicate NoStop(tail: string)
  {
    forall k :: 0 <= k < |tail| ==> !OperatorChar(tail[k]) && tail[k] != '(' && tail[k] != ')'
  }

  /** A run of digits followed by something that is neither a digit, a dot
      nor a letter is an INTEGER token spelled as the run. */
  lemma IntegerRun(st: Lx, w: string, x: string, rest: seq<string>)
    requires st.cur.pending == Runes(w) + [x] + rest
    requires |w| >= 1 && Digits(w)
    requires !Define.IsNumber(x) && x != "." && !IsLetter(x)
    ensures NumberLoop(st, 0, "").Some?
    ensures NumberLoop(st, 0, "").value.0.typ == INTEGER
    ensures NumberLoop(st, 0, "").value.0.value == w
    ensures NumberLoop(st, 0, "").value.1.cur.pending == [x] + rest
  {
    DigitRun(st, 0, "", w, [x] + rest);
    AfterDigitsState(0, w);
    assert "" + w == w;
  }

  /** The quirk of state 1: a run of zeros stops before a letter, so `0a` gives INTEGER `0` and leaves `a` unread. */
  lemma ZerosThenLetter(st: Lx, w: string, x: string, rest: seq<string>)
    requires st.cur.pending == Runes(w) + [x] + rest
    requires |w| >= 1 && Digits(w) && Zeros(w) && IsLetter(x)
    ensures NumberLoop(st, 0, "").Some?
    ensures NumberLoop(st, 0, "").value.0.typ == INTEGER
    ensures NumberLoop(st, 0, "").value.0.value == w
    ensures NumberLoop(st, 0, "").value.1.cur.pending == [x] + rest
  {
    DigitRun(st, 0, "", w, [x] + rest);
    AfterDigitsState(0, w);
    assert "" + w == w;
  }

  /** A dot after the integer part is consumed and leads to state 4. */
  lemma DotAfterDigits(st: Lx, state: int, s: string, more: seq<string>)
    requires state == 1 || state == 2
    requires st.cur.pending == ["."] + more
    ensures Next(st).1.cur.pending == more
    ensures NumberLoop(st, state, s) == NumberLoop(Next(st).1, 4, s + ".")
  {
    assert Peek(st) == "." && !Define.IsNumber(".");
  }

  /** A lookahead on which `NumStep` emits `t` ends the number with the text read so far. */
  lemma EmitOn(st: Lx, state: int, s: string, x: string, rest: seq<string>, t: TokenType)
    requires 0 <= state <= 6
    requires st.cur.pending == [x] + rest && NumStep(state, x) == Emit(t)
    ensures NumberLoop(st, state, s) == Some(Tok(st, t, s))
  {
    assert Peek(st) == x;
  }

  /** A lookahead on which `NumStep` moves to -2 turns the text read so far into the start of an ERROR token. */
  lemma FailOn(st: Lx, state: int, s: string, x: string, rest: seq<string>)
    requires 0 <= state <= 6
    requires st.cur.pending == [x] + rest && NumStep(state, x) == Move(-2)
    ensures NumberLoop(st, state, s) == Some(Err(st, [s]))
    ensures Err(st, [s]) == ErrLoop(st, s, st.cur.line, st.cur.column - |s|)
  {
    assert Peek(st) == x;
    assert NumberLoop(st, state, s) == NumberLoop(st, -2, s);
    assert Concat([s]) == s by {
      assert [s][..0] == [];
    }
  }

  /** From the state after the dot: digits and then a stop give a FLOAT token. */
  lemma FractionRun(st: Lx, s: string, v: string, x: string, rest: seq<string>)
    requires st.cur.pending == Runes(v) + [x] + rest
    requires |v| >= 1 && Digits(v)
    requires !Define.IsNumber(x) && x != "."
    ensures NumberLoop(st, 4, s).Some?
    ensures NumberLoop(st, 4, s).value.0.typ == FLOAT
    ensures NumberLoop(st, 4, s).value.0.value == s + v
    ensures NumberLoop(st, 4, s).value.1.cur.pending == [x] + rest
  {
    DigitRun(st, 4, s, v, [x] + rest);
    AfterDigitsState(4, v);
    EmitOn(st.(cur := Skip(st.cur, |v|)), 6, s + v, x, rest, FLOAT);
  }

  /** From the state after the dot: digits, if any, and then a second dot give an ERROR token. */
  lemma FractionThenDot(st: Lx, s: string, v: string, tail: string, y: string, rest: seq<string>)
    requires st.cur.pending == Runes(v) + Runes(tail) + [y] + rest
    requires Digits(v)
    requires |tail| >= 1 && tail[0] == '.' && NoStop(tail)
    requires Define.IsOperator(y) || Define.IsBracket(y)
    ensures NumberLoop(st, 4, s).Some?
    ensures NumberLoop(st, 4, s).value.0.typ == ERROR
    ensures NumberLoop(st, 4, s).value.0.value == s + v + tail
    ensures NumberLoop(st, 4, s).value.1.cur.pending == [y] + rest
  {
    var st1 := st.(cur := Skip(st.cur, |v|));
    assert NumberLoop(st, 4, s) == NumberLoop(st1, AfterDigits(4, v), s + v) &&
      (AfterDigits(4, v) == 4 || AfterDigits(4, v) == 6) &&
      st1.cur.pending == Runes(tail) + [y] + rest by {
      DigitRun(st, 4, s, v, Runes(tail) + [y] + rest);
      if |v| > 0 {
        AfterDigitsState(4, v);
      }
    }
    DotFails(st1, AfterDigits(4, v), s + v, tail, y, rest);
  }

  /** In state 4 or 6 a dot sends the text read so far, and everything up to the next operator or bracket, to `MakeErr`. */
  lemma DotFails(st: Lx, state: int, s: string, tail: string, y: string, rest: seq<string>)
    requires state == 4 || state == 6
    requires st.cur.pending == Runes(tail) + [y] + rest
    requires |tail| >= 1 && tail[0] == '.' && NoStop(tail)
    requires Define.IsOperator(y) || Define.IsBracket(y)
    ensures NumberLoop(st, state, s).Some?
    ensures NumberLoop(st, state, s).value.0.typ == ERROR
    ensures NumberLoop(st, state, s).value.0.value == s + tail
    ensures NumberLoop(st, state, s).value.1.cur.pending == [y] + rest
  {
    assert st.cur.pending == ["."] + (Runes(tail[1..]) + [y] + rest) by {
      assert Runes(tail) == ["."] + Runes(tail[1..]);
    }
    FailOn(st, state, s, ".", Runes(tail[1..]) + [y] + rest);
    ErrRun(st, s, tail, y, rest, st.cur.line, st.cur.column - |s|);
  }

  /** Digits and a dot, read from a state that the digits leave at 1 or 2,
      lead to the state after the dot. */
  lemma DigitsThenDot(st: Lx, state: int, s: string, w: string, more: seq<string>, next: int)
    requires 0 <= state <= 6 && st.cur.pending == Runes(w) + ["."] + more
    requires |w| >= 1 && Digits(w)
    requires AfterDigits(state, w) == next && (next == 1 || next == 2)
    ensures Skip(st.cur, |w| + 1).pending == more
    ensures NumberLoop(st, state, s) == NumberLoop(st.(cur := Skip(st.cur, |w| + 1)), 4, s + w + ".")
  {
    assert st.cur.pending == Runes(w) + (["."] + more);
    DigitRun(st, state, s, w, ["."] + more);
    DotAfterDigits(st.(cur := Skip(st.cur, |w|)), next, s + w, more);
    SkipAgain(st.cur, |w|);
  }

  /** Digits and a dot lead to the state after the dot. */
  lemma IntegerPart(st: Lx, w: string, more: seq<string>)
    requires st.cur.pending == Runes(w) + ["."] + more
    requires |w| >= 1 && Digits(w)
    ensures Skip(st.cur, |w| + 1).pending == more
    ensures NumberLoop(st, 0, "") == NumberLoop(st.(cur := Skip(st.cur, |w| + 1)), 4, w + ".")
  {
    AfterDigitsState(0, w);
    DigitsThenDot(st, 0, "", w, more, AfterDigits(0, w));
    assert "" + w == w;
  }

  /** Skipping one more string. */
  lemma {:induction false} SkipAgain(c: Cursor, k: nat)
    ensures Skip(c, k + 1) == Take(Skip(c, k)).1
    decreases k
  {
    if k > 0 {
      SkipAgain(Take(c).1, k - 1);
    }
  }

  /** Digits, a dot and digits, followed by something that is neither a digit
      nor a dot, is a FLOAT token spelled as that text. */
  lemma FloatRun(st: Lx, w: string, v: string, x: string, rest: seq<string>)
    requires st.cur.pending == Runes(w) + ["."] + Runes(v) + [x] + rest
    requires |w| >= 1 && Digits(w) && |v| >= 1 && Digits(v)
    requires !Define.IsNumber(x) && x != "."
    ensures NumberLoop(st, 0, "").Some?
    ensures NumberLoop(st, 0, "").value.0.typ == FLOAT
    ensures NumberLoop(st, 0, "").value.0.value == w + "." + v
    ensures NumberLoop(st, 0, "").value.1.cur.pending == [x] + rest
  {
    var more := Runes(v) + [x] + rest;
    IntegerPart(st, w, more);
    FractionRun(st.(cur := Skip(st.cur, |w| + 1)), w + ".", v, x, rest);
  }

  /** A run with a non-zero digit followed by a letter is an ERROR token:
      the run and everything after it up to the next operator or bracket. */
  lemma NumberThenLetter(st: Lx, w: string, tail: string, y: string, rest: seq<string>)
    requires st.cur.pending == Runes(w) + Runes(tail) + [y] + rest
    requires |w| >= 1 && Digits(w) && !Zeros(w)
    requires |tail| >= 1 && LetterChar(tail[0]) && NoStop(tail)
    requires Define.IsOperator(y) || Define.IsBracket(y)
    ensures NumberLoop(st, 0, "").Some?
    ensures NumberLoop(st, 0, "").value.0.typ == ERROR
    ensures NumberLoop(st, 0, "").value.0.value == w + tail
    ensures NumberLoop(st, 0, "").value.1.cur.pending == [y] + rest
  {
    var st1 := st.(cur := Skip(st.cur, |w|));
    assert NumberLoop(st, 0, "") == NumberLoop(st1, 2, w) && st1.cur.pending == Runes(tail) + [y] + rest by {
      DigitRun(st, 0, "", w, Runes(tail) + [y] + rest);
      AfterDigitsState(0, w);
      assert "" + w == w;
    }
    LetterFails(st1, w, tail, y, rest);
  }

  /** In state 2 a letter sends the text read so far, and everything up to the next operator or bracket, to `MakeErr`. */
  lemma LetterFails(st: Lx, s: string, tail: string, y: string, rest: seq<string>)
    requires st.cur.pending == Runes(tail) + [y] + rest
    requires |tail| >= 1 && LetterChar(tail[0]) && NoStop(tail)
    requires Define.IsOperator(y) || Define.IsBracket(y)
    ensures NumberLoop(st, 2, s).Some?
    ensures NumberLoop(st, 2, s).value.0.typ == ERROR
    ensures NumberLoop(st, 2, s).value.0.value == s + tail
    ensures NumberLoop(st, 2, s).value.1.cur.pending == [y] + rest
  {
    var x := [tail[0]];
    assert st.cur.pending == [x] + (Runes(tail[1..]) + [y] + rest) by {
      assert Runes(tail) == [x] + Runes(tail[1..]);
    }
    assert IsLetter(x) && !Define.IsNumber(x) && x != ".";
    FailOn(st, 2, s, x, Runes(tail[1..]) + [y] + rest);
    ErrRun(st, s, tail, y, rest, st.cur.line, st.cur.column - |s|);
  }

  /** Digits, a dot, possibly more digits and then a second dot make an ERROR
      token: the text read and everything after it up to the next operator or bracket. */
  lemma SecondDot(st: Lx, w: string, v: string, tail: string, y: string, rest: seq<string>)
    requires st.cur.pending == Runes(w) + ["."] + Runes(v) + Runes(tail) + [y] + rest
    requires |w| >= 1 && Digits(w) && Digits(v)
    requires |tail| >= 1 && tail[0] == '.' && NoStop(tail)
    requires Define.IsOperator(y) || Define.IsBracket(y)
    ensures NumberLoop(st, 0, "").Some?
    ensures NumberLoop(st, 0, "").value.0.typ == ERROR
    ensures NumberLoop(st, 0, "").value.0.value == w + "." + v + tail
    ensures NumberLoop(st, 0, "").value.1.cur.pending == [y] + rest
  {
    var more := Runes(v) + Runes(tail) + [y] + rest;
    IntegerPart(st, w, more);
    FractionThenDot(st.(cur := Skip(st.cur, |w| + 1)), w + ".", v, tail, y, rest);
  }

  /** The end token `$` is neither a digit, a dot nor a letter, so a number
      that ends the source is emitted in front of it. */
  lemma EmitAtEnd(st: Lx, state: int, s: string, t: TokenType)
    requires 0 <= state <= 6 && st.cur.pending == [] && !st.cur.isEnd
    requires NumStep(state, st.cur.endToken) == Emit(t)
    ensures NumberLoop(st, state, s) == Some(Tok(st, t, s))
  {
    assert More(st) && Peek(st) == st.cur.endToken;
  }

  /** A run of digits that ends the source is an INTEGER token spelled as the
      run; the end token stays unread. */
  lemma IntegerAtEnd(st: Lx, w: string)
    requires st.cur.pending == Runes(w) && !st.cur.isEnd && st.cur.endToken == EndToken
    requires |w| >= 1 && Digits(w)
    ensures NumberLoop(st, 0, "").Some?
    ensures NumberLoop(st, 0, "").value.0.typ == INTEGER
    ensures NumberLoop(st, 0, "").value.0.value == w
    ensures NumberLoop(st, 0, "").value.1.cur.pending == [] && !NumberLoop(st, 0, "").value.1.cur.isEnd
  {
    assert Runes(w) + [] == Runes(w);
    DigitRun(st, 0, "", w, []);
    AfterDigitsState(0, w);
    SkipThenLook(st.cur, |w|);
    assert "" + w == w;
    assert !Define.IsNumber(EndToken) && !IsLetter(EndToken);
    EmitAtEnd(st.(cur := Skip(st.cur, |w|)), AfterDigits(0, w), w, INTEGER);
  }

  /** From the state after the dot: digits that end the source finish a FLOAT token. */
  lemma FractionAtEnd(st: Lx, s: string, v: string)
    requires st.cur.pending == Runes(v) && !st.cur.isEnd && st.cur.endToken == EndToken
    requires |v| >= 1 && Digits(v)
    ensures NumberLoop(st, 4, s).Some?
    ensures NumberLoop(st, 4, s).value.0.typ == FLOAT
    ensures NumberLoop(st, 4, s).value.0.value == s + v
    ensures NumberLoop(st, 4, s).value.1.cur.pending == [] && !NumberLoop(st, 4, s).value.1.cur.isEnd
  {
    assert Runes(v) + [] == Runes(v);
    DigitRun(st, 4, s, v, []);
    AfterDigitsState(4, v);
    SkipThenLook(st.cur, |v|);
    assert !Define.IsNumber(EndToken);
    EmitAtEnd(st.(cur := Skip(st.cur, |v|)), 6, s + v, FLOAT);
  }

  /** Digits, a dot and digits that end the source are a FLOAT token spelled
      as that text; the end token stays unread. */
  lemma FloatAtEnd(st: Lx, w: string, v: string)
    requires st.cur.pending == Runes(w) + ["."] + Runes(v) && !st.cur.isEnd && st.cur.endToken == EndToken
    requires |w| >= 1 && Digits(w) && |v| >= 1 && Digits(v)
    ensures NumberLoop(st, 0, "").Some?
    ensures NumberLoop(st, 0, "").value.0.typ == FLOAT
    ensures NumberLoop(st, 0, "").value.0.value == w + "." + v
    ensures NumberLoop(st, 0, "").value.1.cur.pending == [] && !NumberLoop(st, 0, "").value.1.cur.isEnd
  {
    IntegerPart(st, w, Runes(v));
    SkipThenLook(st.cur, |w| + 1);
    FractionAtEnd(st.(cur := Skip(st.cur, |w| + 1)), w + ".", v);
  }

  /** A sign read in the start state moves to state 3 with the sign as the text. */
  lemma SignStep(st: Lx, sg: string, more: seq<string>)
    requires st.cur.pending == [sg] + more && (sg == "+" || sg == "-")
    ensures Next(st).1.cur.pending == more
    ensures NumberLoop(st, 0, "") == NumberLoop(Next(st).1, 3, sg)
  {
    assert More(st) && Peek(st) == sg && !Define.IsNumber(sg) && sg != "0";
    assert "" + sg == sg;
  }

  /** A sign, a run of digits and then something that is neither a digit, a
      dot nor a letter is an INTEGER token spelled with its sign. */
  lemma SignedIntegerRun(st: Lx, sg: string, w: string, x: string, rest: seq<string>)
    requires st.cur.pending == [sg] + Runes(w) + [x] + rest && (sg == "+" || sg == "-")
    requires |w| >= 1 && Digits(w)
    requires !Define.IsNumber(x) && x != "." && !IsLetter(x)
    ensures NumberLoop(st, 0, "").Some?
    ensures NumberLoop(st, 0, "").value.0.typ == INTEGER
    ensures NumberLoop(st, 0, "").value.0.value == sg + w
    ensures NumberLoop(st, 0, "").value.1.cur.pending == [x] + rest
  {
    SignStep(st, sg, Runes(w) + [x] + rest);
    var st1 := Next(st).1;
    DigitRun(st1, 3, sg, w, [x] + rest);
    AfterDigitsState(3, w);
    EmitOn(st1.(cur := Skip(st1.cur, |w|)), 2, sg + w, x, rest, INTEGER);
  }

  /** A sign, digits, a dot and digits, then something that is neither a
      digit nor a dot, is a FLOAT token spelled with its sign. */
  lemma SignedFloatRun(st: Lx, sg: string, w: string, v: string, x: string, rest: seq<string>)
    requires st.cur.pending == [sg] + Runes(w) + ["."] + Runes(v) + [x] + rest && (sg == "+" || sg == "-")
    requires |w| >= 1 && Digits(w) && |v| >= 1 && Digits(v)
    requires !Define.IsNumber(x) && x != "."
    ensures NumberLoop(st, 0, "").Some?
    ensures NumberLoop(st, 0, "").value.0.typ == FLOAT
    ensures NumberLoop(st, 0, "").value.0.value == sg + w + "." + v
    ensures NumberLoop(st, 0, "").value.1.cur.pending == [x] + rest
  {
    var more := Runes(v) + [x] + rest;
    assert st.cur.pending == [sg] + (Runes(w) + ["."] + more);
    SignStep(st, sg, Runes(w) + ["."] + more);
    var st1 := Next(st).1;
    AfterDigitsState(3, w);
    DigitsThenDot(st1, 3, sg, w, more, 2);
    FractionRun(st1.(cur := Skip(st1.cur, |w| + 1)), sg + w + ".", v, x, rest);
  }

  /** The scanner as a whole: a sign after no token, or after one that is not
      a value or is an operator, starts a signed INTEGER token such as `-12`. */
  lemma SignedIntegerScanned(st: Lx, acc: seq<Token>, sg: string, w: string, x: string, rest: seq<string>)
    requires Good(st) && st.cur.pending == [sg] + Runes(w) + [x] + rest && (sg == "+" || sg == "-")
    requires |w| >= 1 && Digits(w)
    requires !Define.IsNumber(x) && x != "." && !IsLetter(x)
    requires |acc| == 0 || !IsValue(acc[|acc| - 1]) || Tokens.IsOperator(acc[|acc| - 1])
    ensures ScanSymbol(st, acc).Ok? && ScanSymbol(st, acc).value.0.Some?
    ensures ScanSymbol(st, acc).value.0.value.typ == INTEGER
    ensures ScanSymbol(st, acc).value.0.value.value == sg + w
  {
    var st1 := Next(st).1;
    RunesTail(w, [x] + rest);
    assert Peek(st1) == [w[0]];
    SignRule(st, acc);
    var b := Back(st1, sg);
    assert b.cur.pending == [sg] + Runes(w) + [x] + rest;
    SignedIntegerRun(b, sg, w, x, rest);
  }

  /** After a value, a sign before a digit is an operator on its own and the digit is put back. */
  lemma SignAsOperator(st: Lx, c: string, la: string)
    requires Good(st) && More(st)
    requires Next(st).0 == c && (c == "+" || c == "-") && Peek(Next(st).1) == la && Define.IsNumber(la)
    ensures ScanOperator(st).Ok? && ScanOperator(st).value.0 == Some(OpLoop(Back(Next(st).1, c), "").value.0)
    ensures OpLoop(Back(Next(st).1, c), "").value.0.typ == OPERATOR
    ensures OpLoop(Back(Next(st).1, c), "").value.0.value == c
  {
    var st1 := Next(st).1;
    assert |st1.cur.pending| > 0 by {
      assert la != EndToken;
    }
    var b := Back(st1, c);
    assert b.cur.pending == [c, la] + st1.cur.pending[1..];
    assert c + la !in TwoCharOps by {
      assert (c + la)[1] == la[0] && DigitChar(la[0]);
    }
    assert Define.IsOperator(c) && c in OpStarts;
    OpOneChar(b, c, la, st1.cur.pending[1..]);
  }

  /** A `+`, `-` or `.` right before a digit starts a number exactly when
      there is no previous token, or it is not a value, or it is an operator;
      otherwise `+` and `-` are operators on their own and `.` is an error. */
  lemma SignRule(st: Lx, acc: seq<Token>)
    requires Good(st) && More(st)
    requires Next(st).0 == "+" || Next(st).0 == "-" || Next(st).0 == "."
    requires Define.IsNumber(Peek(Next(st).1))
    ensures var starts := |acc| == 0 || !IsValue(acc[|acc| - 1]) || Tokens.IsOperator(acc[|acc| - 1]);
      starts ==> ScanSymbol(st, acc) == Ok((Some(ScanNumber(st).0), ScanNumber(st).1))
    ensures var starts := |acc| == 0 || !IsValue(acc[|acc| - 1]) || Tokens.IsOperator(acc[|acc| - 1]);
      !starts ==> (ScanSymbol(st, acc).Ok? && ScanSymbol(st, acc).value.0.Some? &&
                   ScanSymbol(st, acc).value.0.value.typ == (if Next(st).0 == "." then ERROR else OPERATOR) &&
                   (Next(st).0 != "." ==> ScanSymbol(st, acc).value.0.value.value == Next(st).0))
  {
    var (c, st1) := Next(st);
    var la := Peek(st1);
    assert !Define.IsNumber(c) && SignedNumberStart(c, la);
    if AfterValue(acc) {
      assert ScanSymbol(st, acc) == ScanOperator(st);
      if c != "." {
        SignAsOperator(st, c, la);
      } else {
        assert !Define.IsOperator(c);
      }
    }
  }
}
