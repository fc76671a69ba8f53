/** Tokens produced by the scanner and the variable-id table that numbers
    variable names. In Go the table is a package-level map that every call
    of `NewToken` may extend; here it is the map `ids` of a `VariableTable`
    object shared by whoever creates tokens. */
module Tokens {
  import opened Wrappers

  /** Token types keep the integer codes of the source. */
  type TokenType = int

  const KEYWORD: TokenType := 1
  const TYPE: TokenType := 2
  const VARIABLE: TokenType := 3
  const OPERATOR: TokenType := 4
  const BRACKET: TokenType := 5
  const STRING: TokenType := 6
  const FLOAT: TokenType := 7
  const BOOLEAN: TokenType := 8
  const INTEGER: TokenType := 9
  const COMMENT: TokenType := 10
  const ERROR: TokenType := -1
  const END: TokenType := -2

  /** The twelve defined codes. */
  predicate Defined(tt: TokenType)
  {
    tt in {KEYWORD, TYPE, VARIABLE, OPERATOR, BRACKET, STRING, FLOAT, BOOLEAN, INTEGER, COMMENT, ERROR, END}
  }

  /** `TokenType.String`: a fixed-width label, and a panic for an undefined code. */
  function TypeName(tt: TokenType): (r: Result<string>)
    ensures r.Ok? <==> Defined(tt)
    ensures r.Ok? ==> |r.value| == 8
  {
    if tt == KEYWORD then Ok("keyword ")
    else if tt == VARIABLE then Ok("variable")
    else if tt == TYPE then Ok("type    ")
    else if tt == OPERATOR then Ok("operator")
    else if tt == BRACKET then Ok("bracket ")
    else if tt == STRING then Ok("string  ")
    else if tt == FLOAT then Ok("float   ")
    else if tt == BOOLEAN then Ok("boolean ")
    else if tt == INTEGER then Ok("integer ")
    else if tt == COMMENT then Ok("comment ")
    else if tt == ERROR then Ok("error   ")
    else if tt == END then Ok("end     ")
    else Panic("unexpected token type")
  }

  /** Different defined codes get different labels. */
  lemma TypeNamesDistinct(a: TokenType, b: TokenType)
    requires Defined(a) && Defined(b) && a != b
    ensures TypeName(a) != TypeName(b)
  {
  }

  datatype Token = Token(typ: TokenType, value: string, id: int, column: int, row: int)

  predicate IsVariable(t: Token) { t.typ == VARIABLE }
  predicate IsScalar(t: Token) { t.typ == FLOAT || t.typ == BOOLEAN || t.typ == INTEGER || t.typ == STRING }
  predicate IsNumber(t: Token) { t.typ == INTEGER || t.typ == FLOAT }
  predicate IsOperator(t: Token) { t.typ == OPERATOR }
  predicate IsBracket(t: Token) { t.typ == BRACKET }
  predicate IsEnd(t: Token) { t.typ == END }
  predicate IsValue(t: Token) { IsVariable(t) || IsScalar(t) }
  predicate IsType(t: Token) { t.typ == TYPE }

  /** A value is a variable or one of the four scalar kinds; numbers are scalars. */
  lemma ValueKinds(t: Token)
    ensures IsValue(t) <==> t.typ in {VARIABLE, FLOAT, BOOLEAN, INTEGER, STRING}
    ensures IsNumber(t) ==> IsScalar(t)
    ensures IsOperator(t) || IsBracket(t) ==> !IsValue(t)
  {
  }

  type IdTable = map<string, int>

  /** The table after creating a token of type `t` with text `v`, and the id the
      token receives: a new variable name gets the next number, a known one
      keeps its number, and any other token gets 0 and leaves the table alone. */
  function Register(ids: IdTable, t: TokenType, v: string): (r: (IdTable, int))
    ensures t != VARIABLE ==> r == (ids, 0)
    ensures t == VARIABLE && v in ids ==> r == (ids, ids[v])
    ensures t == VARIABLE && v !in ids ==> r.0 == ids[v := |ids| + 1] && r.1 == |ids| + 1
  {
    if t == VARIABLE then
      if v in ids then (ids, ids[v]) else (ids[v := |ids| + 1], |ids| + 1)
    else (ids, 0)
  }

  /** Ids run from 1 to the number of names, one name per id. */
  ghost predicate Numbered(ids: IdTable)
  {
    (forall k :: k in ids ==> 1 <= ids[k] <= |ids|) &&
    (forall a, b :: a in ids && b in ids && ids[a] == ids[b] ==> a == b)
  }

  /** Registering a name keeps the numbering dense and one-to-one. */
  lemma RegisterKeepsNumbered(ids: IdTable, t: TokenType, v: string)
    requires Numbered(ids)
    ensures Numbered(Register(ids, t, v).0)
    ensures 1 <= Register(ids, t, v).1 <= |Register(ids, t, v).0| || t != VARIABLE
  {
    if t == VARIABLE && v !in ids {
      var n := ids[v := |ids| + 1];
      assert n.Keys == ids.Keys + {v};
      assert |n| == |ids| + 1;
    }
  }

  /** The table after creating variable tokens for `names` in order, starting from an empty table. */
  function Assign(names: seq<string>): IdTable
    decreases |names|
  {
    if |names| == 0 then map[] else Register(Assign(names[..|names| - 1]), VARIABLE, names[|names| - 1]).0
  }

  /** The names in order of first appearance. */
  function Dedupe(names: seq<string>): (d: seq<string>)
    ensures forall x :: x in d <==> x in names
    decreases |names|
  {
    if |names| == 0 then []
    else
      var d := Dedupe(names[..|names| - 1]);
      var x := names[|names| - 1];
      assert names == names[..|names| - 1] + [x];
      if x in d then d else d + [x]
  }

  /** Position of the first occurrence of `x` in `s`. */
  function IndexOf(s: seq<string>, x: string): (k: nat)
    requires x in s
    ensures k < |s| && s[k] == x && x !in s[..k]
  {
    if s[0] == x then 0 else assert s == [s[0]] + s[1..]; 1 + IndexOf(s[1..], x)
  }

  /** Appending does not move the first occurrence of an element already present. */
  lemma {:induction false} IndexOfAppend(s: seq<string>, y: string, x: string)
    requires x in s
    ensures IndexOf(s + [y], x) == IndexOf(s, x)
  {
    if s[0] != x {
      assert (s + [y])[1..] == s[1..] + [y];
      IndexOfAppend(s[1..], y, x);
    }
  }

  /** A name's id is one more than its position among the names in order of
      first appearance; the table holds exactly the names seen. */
  lemma {:induction false} IdsInOrderOfFirstAppearance(names: seq<string>)
    ensures forall v :: v in Assign(names) <==> v in names
    ensures |Assign(names)| == |Dedupe(names)|
    ensures forall v :: v in Assign(names) ==> Assign(names)[v] == IndexOf(Dedupe(names), v) + 1
    decreases |names|
  {
    if |names| > 0 {
      var pre := names[..|names| - 1];
      var x := names[|names| - 1];
      assert names == pre + [x];
      IdsInOrderOfFirstAppearance(pre);
      if x !in Assign(pre) {
        NewNameStep(Assign(pre), Dedupe(pre), x);
      }
    }
  }

  /** One new name: it gets the id just past the names seen so far, which keep theirs. */
  lemma NewNameStep(ids: IdTable, d: seq<string>, x: string)
    requires x !in ids && x !in d
    requires |ids| == |d|
    requires forall v :: v in ids ==> v in d && ids[v] == IndexOf(d, v) + 1
    ensures |ids[x := |ids| + 1]| == |d + [x]|
    ensures forall v :: v in ids[x := |ids| + 1] ==> ids[x := |ids| + 1][v] == IndexOf(d + [x], v) + 1
  {
    forall v | v in ids
      ensures IndexOf(d + [x], v) == IndexOf(d, v)
    {
      IndexOfAppend(d, x, v);
    }
    assert (d + [x])[|d|] == x;
  }

  class VariableTable {
    var ids: IdTable

    /** The table starts empty, as the package initialiser leaves it. */
    constructor()
      ensures ids == map[]
    {
      ids := map[];
    }

    /** `NewToken`: row and column stay zero. */
    method NewToken(t: TokenType, v: string) returns (tok: Token)
      modifies this
      ensures (ids, tok.id) == Register(old(ids), t, v)
      ensures tok == Token(t, v, tok.id, 0, 0)
    {
      var id := 0;
      if t == VARIABLE {
        if v !in ids {
          ids := ids[v := |ids| + 1];
          id := ids[v];
        } else {
          id := ids[v];
        }
      }
      tok := Token(t, v, id, 0, 0);
    }

    /** `NewTokenWithLocation`: the same numbering, plus the position. */
    method NewTokenWithLocation(t: TokenType, v: string, row: int, column: int) returns (tok: Token)
      modifies this
      ensures (ids, tok.id) == Register(old(ids), t, v)
      ensures tok == Token(t, v, tok.id, column, row)
    {
      var id := 0;
      if t == VARIABLE {
        if v !in ids {
          ids := ids[v := |ids| + 1];
          id := ids[v];
        } else {
          id := ids[v];
        }
      }
      tok := Token(t, v, id, column, row);
    }
  }
}
