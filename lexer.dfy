/** The hand-written scanner. Each `Make...` routine of the Go lexer is a
    state machine that reads from the push-back stream; here each one is
    first written as a function over the observable state `Lx` (the stream's
    cursor and the variable-id table), step for step, and then as a method
    of the class `Lexer` whose loop is proved to follow that function.

    A Go panic becomes a `Panic` result; the `nil` that `MakeNumber`
    returns when the stream ends in its start state becomes `None`. */
module Lexer {
  import opened Wrappers
  import opened Define
  import opened Streams
  import opened Tokens

  /** The end token the scanner's stream is created with. */
  const EndToken: string := "$"

  /** What the scanner can observe: the stream and the variable-id table. */
  datatype Lx = Lx(cur: Cursor, ids: IdTable)

  function More(st: Lx): bool { HasMore(st.cur) }
  function Peek(st: Lx): string { Look(st.cur) }
  function M(st: Lx): nat { Measure(st.cur) }

  /** The scanner's stream ends with `$`, and once the end has been reached
      only pushed-back end tokens can still be pending. */
  ghost predicate Good(st: Lx)
  {
    st.cur.endToken == EndToken &&
    (st.cur.isEnd ==> forall k :: 0 <= k < |st.cur.pending| ==> st.cur.pending[k] == EndToken)
  }

  function Next(st: Lx): (r: (string, Lx))
    ensures More(st) ==> M(r.1) < M(st)
    ensures M(r.1) <= M(st)
    ensures r.1.ids == st.ids
    ensures Good(st) ==> Good(r.1) && (r.1.cur.isEnd ==> r.0 == EndToken)
    ensures Good(st) && r.0 != EndToken ==> !st.cur.isEnd && !r.1.cur.isEnd
  {
    (Take(st.cur).0, st.(cur := Take(st.cur).1))
  }

  function Back(st: Lx, e: string): (r: Lx)
    ensures M(r) == M(st) + 1
    ensures r.ids == st.ids
    ensures Good(st) && (st.cur.isEnd ==> e == EndToken) ==> Good(r)
    ensures r.cur.isEnd == st.cur.isEnd && Peek(r) == e && More(r)
  {
    st.(cur := Push(st.cur, e))
  }

  /** `NewToken`: a token without position, numbered through the table. */
  function Tok(st: Lx, t: TokenType, v: string): (r: (Token, Lx))
    ensures r.0.typ == t && r.0.value == v
    ensures r.1.cur == st.cur
  {
    var (ids, id) := Register(st.ids, t, v);
    (Token(t, v, id, 0, 0), st.(ids := ids))
  }

  /** `NewTokenWithLocation`. */
  function TokAt(st: Lx, t: TokenType, v: string, row: int, column: int): (r: (Token, Lx))
    ensures r.0.typ == t && r.0.value == v && r.0.row == row && r.0.column == column
    ensures r.1.cur == st.cur
  {
    var (ids, id) := Register(st.ids, t, v);
    (Token(t, v, id, column, row), st.(ids := ids))
  }

  // ---------------------------------------------------------------- comments

  /** `MakeComment`: everything up to the next line feed, which is consumed but not kept. */
  function CommentLoop(st: Lx, s: string): (r: (Token, Lx))
    ensures r.0.typ == COMMENT && r.1.ids == st.ids
    ensures Good(st) ==> Good(r.1)
    ensures M(r.1) <= M(st) && (More(st) ==> M(r.1) < M(st))
    decreases M(st)
  {
    if !More(st) then Tok(st, COMMENT, s)
    else
      var (c, st1) := Next(st);
      if c == "\n" then Tok(st1, COMMENT, s) else CommentLoop(st1, s + c)
  }

  // ----------------------------------------------------------------- strings

  /** The quote that closes a string opened by `opener`. */
  function Closer(opener: string): string
  {
    if opener == "'" then "'" else "\""
  }

  /** `MakeString` in state `state`: 0 reads the opener, 1 waits for `'`, 2 for `"`. */
  function StringLoop(st: Lx, state: int, s: string): (r: Result<(Token, Lx)>)
    requires 0 <= state <= 2
    ensures r.Ok? ==> r.value.0.typ == STRING && r.value.1.ids == st.ids
    ensures r.Ok? && Good(st) ==> Good(r.value.1)
    ensures r.Ok? ==> M(r.value.1) <= M(st) && (More(st) ==> M(r.value.1) < M(st))
    decreases M(st)
  {
    if !More(st) then Panic("make string failed")
    else
      var (c, st1) := Next(st);
      if state == 0 then StringLoop(st1, if c == "'" then 1 else 2, s + c)
      else if c == Closer(if state == 1 then "'" else "\"") then Ok(Tok(st1, STRING, s + c))
      else StringLoop(st1, state, s + c)
  }

  // ------------------------------------------------------------------ errors

  /** The prefixes handed to `MakeErr`, glued together. */
  function Concat(prefix: seq<string>): string
  {
    if |prefix| == 0 then "" else Concat(prefix[..|prefix| - 1]) + prefix[|prefix| - 1]
  }

  /** `MakeErr`'s loop: everything up to the next operator or bracket, which is put back. */
  function ErrLoop(st: Lx, s: string, row: int, column: int): (r: (Token, Lx))
    ensures r.0.typ == ERROR && r.0.row == row && r.0.column == column
    ensures r.1.ids == st.ids
    ensures Good(st) ==> Good(r.1)
    ensures M(r.1) <= M(st)
    ensures More(st) && !Define.IsOperator(Peek(st)) && !Define.IsBracket(Peek(st)) ==> M(r.1) < M(st)
    decreases M(st)
  {
    if !More(st) then TokAt(st, ERROR, s, row, column)
    else
      var (c, st1) := Next(st);
      if Define.IsOperator(c) || Define.IsBracket(c) then TokAt(Back(st1, c), ERROR, s, row, column)
      else ErrLoop(st1, s + c, row, column)
  }

  /** `MakeErr(prefix...)`: the token starts with the prefixes and its column is
      moved back by their length. */
  function Err(st: Lx, prefix: seq<string>): (r: (Token, Lx))
    ensures r.0.typ == ERROR && r.1.ids == st.ids
    ensures Good(st) ==> Good(r.1)
    ensures M(r.1) <= M(st)
    ensures More(st) && !Define.IsOperator(Peek(st)) && !Define.IsBracket(Peek(st)) ==> M(r.1) < M(st)
  {
    ErrLoop(st, Concat(prefix), st.cur.line, st.cur.column - |Concat(prefix)|)
  }

  // ------------------------------------------------ identifiers and keywords

  /** The type of a finished identifier. */
  function WordType(s: string): (t: TokenType)
  {
    if IsKeyTypes(s) then TYPE
    else if IsKeyword(s) then KEYWORD
    else if s == "true" || s == "false" then BOOLEAN
    else VARIABLE
  }

  /** `MakeVarOrKeyword`: letters, digits and `_` while they come; a `.` right after turns the word into an error. */
  function WordLoop(st: Lx, s: string): (r: (Token, Lx))
    ensures r.0.typ == ERROR || r.0.typ == WordType(r.0.value)
    ensures Good(st) ==> Good(r.1)
    ensures M(r.1) <= M(st)
    ensures More(st) && IsLiteral(Peek(st)) ==> M(r.1) < M(st)
    decreases M(st)
  {
    if !More(st) then Tok(st, WordType(s), s)
    else
      var la := Peek(st);
      if IsLiteral(la) then WordLoop(Next(st).1, s + la)
      else if la == "." then Err(st, [s])
      else Tok(st, WordType(s), s)
  }

  // ----------------------------------------------------------------- numbers

  /** What `MakeNumber` does on seeing `la` in `state`: move to a state
      (consuming `la` unless the new state is -2), or emit a token. */
  datatype Action = Move(next: int) | Emit(typ: TokenType)

  function NumStep(state: int, la: string): (a: Action)
    requires 0 <= state <= 6
    ensures a.Move? ==> 0 <= a.next <= 6 || a.next == -2
    ensures a.Emit? ==> a.typ == INTEGER || a.typ == FLOAT
  {
    if state == 0 then
      if la == "0" then Move(1)
      else if Define.IsNumber(la) then Move(2)
      else if la == "+" || la == "-" then Move(3)
      else if la == "." then Move(5)
      else Move(0)
    else if state == 1 then
      if la == "0" then Move(1)
      else if Define.IsNumber(la) then Move(2)
      else if la == "." then Move(4)
      else Emit(INTEGER)
    else if state == 2 then
      if Define.IsNumber(la) then Move(2)
      else if la == "." then Move(4)
      else if IsLetter(la) then Move(-2)
      else Emit(INTEGER)
    else if state == 3 then
      if Define.IsNumber(la) then Move(2)
      else if la == "." then Move(5)
      else Move(-2)
    else if state == 4 then
      if la == "." then Move(-2)
      else if Define.IsNumber(la) then Move(6)
      else if IsLetter(la) || Define.IsBracket(la) || Define.IsOperator(la) then Move(-2)
      else Emit(FLOAT)
    else if state == 5 then
      if Define.IsNumber(la) then Move(6) else Move(-2)
    else
      if Define.IsNumber(la) then Move(6)
      else if la == "." then Move(-2)
      else Emit(FLOAT)
  }

  /** `MakeNumber` from `state` with text `s` read so far. */
  function NumberLoop(st: Lx, state: int, s: string): (r: Option<(Token, Lx)>)
    requires 0 <= state <= 6 || state == -2
    ensures r.Some? ==> M(r.value.1) <= M(st)
    ensures r.Some? && state == 0 && More(st) ==> M(r.value.1) < M(st)
    ensures r.Some? && Good(st) ==> Good(r.value.1)
    ensures Good(st) && !st.cur.isEnd && (1 <= state <= 6 || state == -2 || (state == 0 && StartsNumber(Peek(st)))) ==> r.Some?
    decreases M(st), if state == -2 then 0 else 1
  {
    if !More(st) then None
    else
      var la := Peek(st);
      if state == -2 then Some(Err(st, [s]))
      else
        match NumStep(state, la)
        case Emit(t) => Some(Tok(st, t, s))
        case Move(n) =>
          if n >= 0 then NumberLoop(Next(st).1, n, s + la) else NumberLoop(st, n, s)
  }

  /** The characters `MakeNumber` accepts in its start state. */
  predicate StartsNumber(la: string)
  {
    Define.IsNumber(la) || la == "+" || la == "-" || la == "."
  }

  // --------------------------------------------------------------- operators

  /** The two-character operators. */
  const TwoCharOps: set<string> :=
    {"++", "+=", "--", "-=", "*=", "/=", ">=", ">>", "<=", "<<", "<>", "==", "!=",
     "&&", "&=", "||", "|=", "^^", "^=", "%=", ":="}

  /** The characters that may begin a two-character operator. */
  const OpStarts: set<string> := {"+", "-", "*", "/", ">", "<", "=", "!", "&", "|", "^", "%", ":"}

  /** `MakeOp`: `first` is "" in the start state and otherwise the operator
      character read so far. */
  function OpLoop(st: Lx, first: string): (r: Result<(Token, Lx)>)
    ensures r.Ok? ==> r.value.0.typ == OPERATOR && r.value.1.ids == st.ids
    ensures r.Ok? && Good(st) ==> Good(r.value.1)
    ensures r.Ok? ==> M(r.value.1) <= M(st) && (first == "" ==> M(r.value.1) < M(st))
    decreases M(st)
  {
    if !More(st) then Panic("makeOp failed")
    else
      var (la, st1) := Next(st);
      if first == "" then
        if la in OpStarts then OpLoop(st1, la)
        else if la == "," || la == ";" then Ok(Tok(st1, OPERATOR, la))
        else OpLoop(st1, "")
      else if first + la in TwoCharOps then Ok(Tok(st1, OPERATOR, first + la))
      else if first == ":" then Panic("makeOp failed")
      else Ok(Tok(Back(st1, la), OPERATOR, first))
  }

  // ---------------------------------------------------------- whole scanner

  /** One round of `Analyse`'s loop after a character `c` other than the end
      token has been read: the token it produces, if any, and the new state. */
  function Scan(st: Lx, acc: seq<Token>): (r: Result<(Option<Token>, Lx)>)
    requires Good(st) && More(st) && Next(st).0 != EndToken
    ensures r.Ok? ==> Good(r.value.1) && M(r.value.1) < M(st)
  {
    var (c, st1) := Next(st);
    var la := Peek(st1);
    if c == " " || c == "\n" || c == "\t" then Ok((None, st1))
    else if c == "#" then
      var (t, st2) := CommentLoop(Back(st1, c), "");
      Ok((Some(t), st2))
    else if Define.IsBracket(c) then
      var (t, st2) := Tok(st1, BRACKET, c);
      Ok((Some(t), st2))
    else if IsStringWrap(c) then
      match StringLoop(Back(st1, c), 0, "")
      case Panic(m) => Panic(m)
      case Ok((t, st2)) => Ok((Some(t), st2))
    else if IsLetter(c) then
      var (t, st2) := WordLoop(Back(st1, c), "");
      Ok((Some(t), st2))
    else ScanSymbol(st, acc)
  }

  /** A number read from the character `Next` hands out, which `MakeNumber` accepts in its start state. */
  function ScanNumber(st: Lx): (r: (Token, Lx))
    requires Good(st) && More(st) && Next(st).0 != EndToken && StartsNumber(Next(st).0)
    ensures NumberLoop(Back(Next(st).1, Next(st).0), 0, "") == Some(r)
    ensures Good(r.1) && M(r.1) < M(st)
  {
    NumberLoop(Back(Next(st).1, Next(st).0), 0, "").value
  }

  /** The rest of the dispatch: numbers, operators and anything else. */
  function ScanSymbol(st: Lx, acc: seq<Token>): (r: Result<(Option<Token>, Lx)>)
    requires Good(st) && More(st) && Next(st).0 != EndToken && !Define.IsBracket(Next(st).0)
    ensures r.Ok? ==> Good(r.value.1) && M(r.value.1) < M(st)
  {
    var (c, st1) := Next(st);
    var la := Peek(st1);
    if Define.IsNumber(c) || (SignedNumberStart(c, la) && !AfterValue(acc)) then
      var (t, st2) := ScanNumber(st);
      Ok((Some(t), st2))
    else ScanOperator(st)
  }

  /** An operator, or an ERROR token for a character no other rule takes. */
  function ScanOperator(st: Lx): (r: Result<(Option<Token>, Lx)>)
    requires Good(st) && More(st) && Next(st).0 != EndToken && !Define.IsBracket(Next(st).0)
    ensures r.Ok? ==> Good(r.value.1) && M(r.value.1) < M(st)
  {
    var (c, st1) := Next(st);
    if Define.IsOperator(c) then
      match OpLoop(Back(st1, c), "")
      case Panic(m) => Panic(m)
      case Ok((t, st2)) => Ok((Some(t), st2))
    else
      var (t, st2) := Err(Back(st1, c), []);
      Ok((Some(t), st2))
  }

  /** `Analyse`'s loop with the tokens `acc` produced so far: it ends when
      `HasNext` fails or when the character read is the end token `$`. */
  function Lex(st: Lx, acc: seq<Token>): (r: Result<(seq<Token>, Lx)>)
    requires Good(st)
    ensures r.Ok? ==> |r.value.0| >= |acc| && r.value.0[..|acc|] == acc
    decreases M(st)
  {
    if !More(st) then Ok((acc, st))
    else if Next(st).0 == EndToken then Ok((acc, Next(st).1))
    else
      var r := Scan(st, acc);
      if r.Panic? then Panic(r.reason)
      else Lex(r.value.1, if r.value.0.Some? then acc + [r.value.0.value] else acc)
  }

  /** A sign or a dot directly before a digit. */
  predicate SignedNumberStart(c: string, la: string)
  {
    (c == "+" || c == "-" || c == ".") && Define.IsNumber(la)
  }

  /** The previous token is a value, so a following sign is an operator. */
  predicate AfterValue(acc: seq<Token>)
  {
    |acc| > 0 && IsValue(acc[|acc| - 1]) && !Tokens.IsOperator(acc[|acc| - 1])
  }

  /** A scanner result paired with the state it leaves behind. */
  function WithState(r: Result<Token>, st: Lx): Result<(Token, Lx)>
  {
    if r.Ok? then Ok((r.value, st)) else Panic(r.reason)
  }

  class Lexer {
    const stream: Stream
    const table: VariableTable
    const endToken: string

    function Now(): Lx
      reads stream, table
    {
      Lx(stream.Abs(), table.ids)
    }

    /** `NewLexer`: a stream over the source with `$` as its end token; `table`
        is the variable-id table shared by all scanners. */
    constructor(source: string, et: string, table: VariableTable)
      ensures this.table == table && fresh(stream)
      ensures Now() == Lx(Start(Runes(source), EndToken), table.ids)
      ensures Good(Now())
    {
      stream := new Stream(Runes(source), EndToken);
      this.table := table;
      endToken := et;
    }

    method MakeComment() returns (t: Token)
      modifies stream, table
      ensures (t, Now()) == CommentLoop(old(Now()), "")
    {
      var s := "";
      while true
        invariant CommentLoop(old(Now()), "") == CommentLoop(Now(), s)
        decreases M(Now())
      {
        var more := stream.HasNext();
        if !more {
          break;
        }
        var c := stream.Next();
        if c == "\n" {
          break;
        }
        s := s + c;
      }
      t := table.NewToken(COMMENT, s);
    }

    method MakeString() returns (r: Result<Token>)
      modifies stream, table
      ensures WithState(r, Now()) == StringLoop(old(Now()), 0, "")
    {
      var s := "";
      var state := 0;
      while true
        invariant 0 <= state <= 2
        invariant StringLoop(old(Now()), 0, "") == StringLoop(Now(), state, s)
        decreases M(Now())
      {
        var more := stream.HasNext();
        if !more {
          break;
        }
        var c := stream.Next();
        if state == 0 {
          if c == "'" {
            state := 1;
          } else {
            state := 2;
          }
          s := s + c;
        } else if state == 1 {
          if c == "'" {
            var t := table.NewToken(STRING, s + c);
            return Ok(t);
          }
          s := s + c;
        } else {
          if c == "\"" {
            var t := table.NewToken(STRING, s + c);
            return Ok(t);
          }
          s := s + c;
        }
      }
      return Panic("make string failed");
    }

    method MakeErr(prefix: seq<string>) returns (t: Token)
      modifies stream, table
      ensures (t, Now()) == Err(old(Now()), prefix)
    {
      var s := "";
      var row := stream.GetLine();
      var column := stream.GetColumn();
      for i := 0 to |prefix|
        invariant s == Concat(prefix[..i])
        invariant column == old(stream.column) - |s|
      {
        assert prefix[..i + 1][..i] == prefix[..i];
        s := s + prefix[i];
        column := column - |prefix[i]|;
      }
      assert prefix[..|prefix|] == prefix;
      while true
        invariant Err(old(Now()), prefix) == ErrLoop(Now(), s, row, column)
        decreases M(Now())
      {
        var more := stream.HasNext();
        if !more {
          break;
        }
        var c := stream.Next();
        if Define.IsOperator(c) || Define.IsBracket(c) {
          stream.PutBack(c);
          break;
        }
        s := s + c;
      }
      t := table.NewTokenWithLocation(ERROR, s, row, column);
    }

    method MakeVarOrKeyword() returns (t: Token)
      modifies stream, table
      ensures (t, Now()) == WordLoop(old(Now()), "")
    {
      var s := "";
      while true
        invariant WordLoop(old(Now()), "") == WordLoop(Now(), s)
        decreases M(Now())
      {
        var more := stream.HasNext();
        if !more {
          break;
        }
        var lookahead := stream.Peek();
        if IsLiteral(lookahead) {
          s := s + lookahead;
        } else if lookahead == "." {
          t := MakeErr([s]);
          return;
        } else {
          break;
        }
        var skipped := stream.Next();
      }
      if IsKeyTypes(s) {
        t := table.NewToken(TYPE, s);
      } else if IsKeyword(s) {
        t := table.NewToken(KEYWORD, s);
      } else if s == "true" || s == "false" {
        t := table.NewToken(BOOLEAN, s);
      } else {
        t := table.NewToken(VARIABLE, s);
      }
    }

    method MakeOp() returns (r: Result<Token>)
      modifies stream, table
      ensures WithState(r, Now()) == OpLoop(old(Now()), "")
    {
      var first := "";
      while true
        invariant OpLoop(old(Now()), "") == OpLoop(Now(), first)
        decreases M(Now())
      {
        var more := stream.HasNext();
        if !more {
          break;
        }
        var lookahead := stream.Next();
        if first == "" {
          if lookahead in OpStarts {
            first := lookahead;
          } else if lookahead == "," || lookahead == ";" {
            var t := table.NewToken(OPERATOR, lookahead);
            return Ok(t);
          }
        } else if first + lookahead in TwoCharOps {
          var t := table.NewToken(OPERATOR, first + lookahead);
          return Ok(t);
        } else if first == ":" {
          return Panic("makeOp failed");
        } else {
          stream.PutBack(lookahead);
          var t := table.NewToken(OPERATOR, first);
          return Ok(t);
        }
      }
      return Panic("makeOp failed");
    }

    method MakeNumber() returns (r: Option<Token>)
      modifies stream, table
      ensures NumberLoop(old(Now()), 0, "") == if r.Some? then Some((r.value, Now())) else None
    {
      var state := 0;
      var s := "";
      while true
        invariant 0 <= state <= 6 || state == -2
        invariant NumberLoop(old(Now()), 0, "") == NumberLoop(Now(), state, s)
        decreases M(Now()), if state == -2 then 0 else 1
      {
        var more := stream.HasNext();
        if !more {
          break;
        }
        var lookahead := stream.Peek();
        if state == -2 {
          var t := MakeErr([s]);
          return Some(t);
        }
        match NumStep(state, lookahead) {
          case Emit(typ) =>
            var t := table.NewToken(typ, s);
            return Some(t);
          case Move(n) =>
            state := n;
            if state >= 0 {
              var skipped := stream.Next();
              s := s + lookahead;
            }
        }
      }
      return None;
    }
  
    /** `Analyse`: the token list, or the panic that interrupted it. */
    method Analyse() returns (r: Result<seq<Token>>)
      requires Good(Now())
      modifies stream, table
      ensures Lex(old(Now()), []) == if r.Ok? then Ok((r.value, Now())) else Panic(r.reason)
    {
      var tokens: seq<Token> := [];
      while true
        invariant Good(Now())
        invariant Lex(old(Now()), []) == Lex(Now(), tokens)
        decreases M(Now())
      {
        ghost var top := Now();
        var more := stream.HasNext();
        if !more {
          break;
        }
        var c := stream.Next();
        if c == EndToken {
          break;
        }
        var lookahead := stream.Peek();
        var produced := ScanOne(c, lookahead, tokens, top);
        match produced
        case Panic(m) =>
          return Panic(m);
        case Ok(None) =>
        case Ok(Some(t)) =>
          tokens := tokens + [t];
      }
      return Ok(tokens);
    }

    /** The body of `Analyse`'s loop once `c` has been read and `lookahead` peeked at. */
    method ScanOne(c: string, lookahead: string, tokens: seq<Token>, ghost top: Lx) returns (r: Result<Option<Token>>)
      requires Good(top) && More(top) && c != EndToken
      requires Next(top) == (c, Now()) && lookahead == Peek(Now())
      modifies stream, table
      ensures Scan(top, tokens) == if r.Ok? then Ok((r.value, Now())) else Panic(r.reason)
    {
      if c == " " || c == "\n" || c == "\t" {
        return Ok(None);
      }
      if c == "#" {
        stream.PutBack(c);
        var t := MakeComment();
        return Ok(Some(t));
      }
      if Define.IsBracket(c) {
        var t := table.NewToken(BRACKET, c);
        return Ok(Some(t));
      }
      if IsStringWrap(c) {
        stream.PutBack(c);
        var t := MakeString();
        if t.Panic? {
          return Panic(t.reason);
        }
        return Ok(Some(t.value));
      }
      if IsLetter(c) {
        stream.PutBack(c);
        var t := MakeVarOrKeyword();
        return Ok(Some(t));
      }
      r := ScanOther(c, lookahead, tokens, top);
    }

    /** The rest of the loop body: numbers, operators and anything else. */
    method ScanOther(c: string, lookahead: string, tokens: seq<Token>, ghost top: Lx) returns (r: Result<Option<Token>>)
      requires Good(top) && More(top) && c != EndToken
      requires Next(top) == (c, Now()) && lookahead == Peek(Now()) && !Define.IsBracket(c)
      modifies stream, table
      ensures ScanSymbol(top, tokens) == if r.Ok? then Ok((r.value, Now())) else Panic(r.reason)
    {
      if Define.IsNumber(c) {
        ghost var expected := ScanNumber(top);
        stream.PutBack(c);
        var t := MakeNumber();
        if t.None? {
          assert false;
        }
        return Ok(Some(t.value));
      }
      if (c == "+" || c == "-" || c == ".") && Define.IsNumber(lookahead) {
        var lastToken: Option<Token> := None;
        if |tokens| > 0 {
          lastToken := Some(tokens[|tokens| - 1]);
        }
        if lastToken.None? || !IsValue(lastToken.value) || Tokens.IsOperator(lastToken.value) {
          ghost var expected := ScanNumber(top);
          stream.PutBack(c);
          var t := MakeNumber();
          if t.None? {
            assert false;
          }
          return Ok(Some(t.value));
        }
      }
      r := ScanOpOrErr(c, top);
    }

    /** Operators, and the ERROR token for anything else. */
    method ScanOpOrErr(c: string, ghost top: Lx) returns (r: Result<Option<Token>>)
      requires Good(top) && More(top) && c != EndToken
      requires Next(top) == (c, Now()) && !Define.IsBracket(c)
      modifies stream, table
      ensures ScanOperator(top) == if r.Ok? then Ok((r.value, Now())) else Panic(r.reason)
    {
      if Define.IsOperator(c) {
        stream.PutBack(c);
        var t := MakeOp();
        if t.Panic? {
          return Panic(t.reason);
        }
        return Ok(Some(t.value));
      }
      stream.PutBack(c);
      var t := MakeErr([]);
      return Ok(Some(t));
    }
  }

  /** `lexer.Analyse(source)`: scans `source` with a fresh stream, numbering
      variables through the shared `table`. */
  method AnalyseSource(source: string, table: VariableTable) returns (r: Result<seq<Token>>)
    modifies table
    ensures var start := Lx(Start(Runes(source), EndToken), old(table.ids));
      Good(start) &&
      match Lex(start, [])
      case Ok((ts, st)) => r == Ok(ts) && table.ids == st.ids
      case Panic(m) => r == Panic(m)
  {
    var l := new Lexer(source, EndToken, table);
    r := l.Analyse();
  }
}
