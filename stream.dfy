/** The push-back character stream shared by the scanner and the
    recursive-descent parser. The Go stream reads runes from a scanner and
    keeps pushed-back strings in a list in front of it; here the scanner's
    remaining runes are the sequence `input` and the list is `cache`.

    What a client can observe is captured by a `Cursor`: the strings still
    to come (`cache` followed by `input`), whether the end token has been
    handed out, and the position counters. */
module Streams {
  import opened Define

  datatype Cursor = Cursor(pending: seq<string>, isEnd: bool, endToken: string, line: int, column: int)

  /** One string per character of the source text, as a rune scanner yields them. */
  function Runes(s: string): (r: seq<string>)
    ensures |r| == |s|
    ensures forall k :: 0 <= k < |s| ==> r[k] == [s[k]]
  {
    seq(|s|, k requires 0 <= k < |s| => [s[k]])
  }

  /** A fresh stream: nothing pushed back, line 1, column 1. */
  function Start(input: seq<string>, endToken: string): Cursor
  {
    Cursor(input, false, endToken, 1, 1)
  }

  /** `HasNext`: something is still to come, or the end token has not been handed out yet. */
  predicate HasMore(c: Cursor)
  {
    |c.pending| > 0 || !c.isEnd
  }

  /** The position counters after handing out `ch`. */
  function Advance(c: Cursor, ch: string): Cursor
  {
    if IsNewLine(ch) then c.(line := c.line + 1, column := 1) else c.(column := c.column + 1)
  }

  /** `Next`: the first pending string, or the end token once nothing is pending. */
  function Take(c: Cursor): (r: (string, Cursor))
    ensures |c.pending| > 0 ==> r.0 == c.pending[0] && r.1.pending == c.pending[1..] && r.1.isEnd == c.isEnd
    ensures |c.pending| == 0 ==> r.0 == c.endToken && r.1.pending == [] && r.1.isEnd
    ensures r.1.endToken == c.endToken
  {
    if |c.pending| > 0 then (c.pending[0], Advance(c.(pending := c.pending[1..]), c.pending[0]))
    else (c.endToken, Advance(c.(isEnd := true), c.endToken))
  }

  /** `Peek`: what `Next` would return. */
  function Look(c: Cursor): (e: string)
    ensures e == Take(c).0
  {
    if |c.pending| > 0 then c.pending[0] else c.endToken
  }

  /** `PutBack`: `e` goes in front of everything pending and the column steps back. */
  function Push(c: Cursor, e: string): (r: Cursor)
    ensures r.pending == [e] + c.pending
    ensures r.column == c.column - 1
  {
    c.(pending := [e] + c.pending, column := c.column - 1)
  }

  /** `ClearFronts`: `count` calls of `Next`. */
  function Skip(c: Cursor, count: int): Cursor
    decreases if count < 0 then 0 else count
  {
    if count <= 0 then c else Skip(Take(c).1, count - 1)
  }

  /** What is left to read, counting the end token while it has not been handed out. */
  function Measure(c: Cursor): nat
  {
    |c.pending| + if c.isEnd then 0 else 1
  }

  /** `Next` makes progress whenever `HasNext` holds. */
  lemma TakeShrinks(c: Cursor)
    requires HasMore(c)
    ensures Measure(Take(c).1) < Measure(c)
  {
  }

  /** `PutBack(e)` then `Next()` hands back `e`, leaves the pending strings as they
      were and, unless `e` is a line break, restores the column. */
  lemma PushThenTake(c: Cursor, e: string)
    ensures Take(Push(c, e)).0 == e
    ensures Take(Push(c, e)).1.pending == c.pending
    ensures Take(Push(c, e)).1.isEnd == c.isEnd
    ensures !IsNewLine(e) ==> Take(Push(c, e)).1 == c
    ensures IsNewLine(e) ==> Take(Push(c, e)).1 == c.(line := c.line + 1, column := 1)
  {
  }

  /** Pushed-back strings come out last in, first out. */
  lemma PushIsLifo(c: Cursor, a: string, b: string)
    ensures Take(Push(Push(c, a), b)).0 == b
    ensures Take(Take(Push(Push(c, a), b)).1).0 == a
    ensures Take(Take(Push(Push(c, a), b)).1).1.pending == c.pending
  {
  }

  /** Once nothing is left, `Next` keeps handing out the end token and nothing else changes but the position. */
  lemma TakeAtEnd(c: Cursor)
    requires !HasMore(c)
    ensures Take(c).0 == c.endToken
    ensures Take(c).1.pending == [] && Take(c).1.isEnd
    ensures !HasMore(Take(c).1)
  {
  }

  /** After skipping `k` strings, the next one is the `k`-th pending string, or the end token past them. */
  lemma {:induction false} SkipThenLook(c: Cursor, k: nat)
    ensures Skip(c, k).pending == if k <= |c.pending| then c.pending[k..] else []
    ensures Look(Skip(c, k)) == if k < |c.pending| then c.pending[k] else c.endToken
    ensures Skip(c, k).endToken == c.endToken
    ensures k >= |c.pending| + 1 ==> Skip(c, k).isEnd
    ensures k <= |c.pending| ==> Skip(c, k).isEnd == c.isEnd
    decreases k
  {
    if k > 0 {
      SkipThenLook(Take(c).1, k - 1);
      if 0 < k <= |c.pending| {
        assert c.pending[1..][k - 1..] == c.pending[k..];
      }
    }
  }

  /** A non-positive count skips nothing. */
  lemma SkipNothing(c: Cursor, count: int)
    requires count <= 0
    ensures Skip(c, count) == c
  {
  }

  class Stream {
    /** Strings put back, front first. */
    var cache: seq<string>
    /** Runes the scanner has not yet produced. */
    var input: seq<string>
    const endToken: string
    var isEnd: bool
    var line: int
    var column: int

    /** The state a client of the stream can observe. */
    function Abs(): Cursor
      reads this
    {
      Cursor(cache + input, isEnd, endToken, line, column)
    }

    /** `NewStream`: line 1, column 1, nothing pushed back, end not reached. */
    constructor(source: seq<string>, et: string)
      ensures Abs() == Start(source, et)
      ensures cache == [] && input == source && !isEnd && line == 1 && column == 1
    {
      cache := [];
      input := source;
      endToken := et;
      isEnd := false;
      line := 1;
      column := 1;
    }

    function GetLine(): (n: int)
      reads this
      ensures n == Abs().line
    {
      line
    }

    function GetColumn(): (n: int)
      reads this
      ensures n == Abs().column
    {
      column
    }

    method Next() returns (ch: string)
      modifies this
      ensures (ch, Abs()) == Take(old(Abs()))
    {
      ghost var before := cache + input;
      if |cache| != 0 {
        ch := cache[0];
        cache := cache[1..];
        assert cache + input == before[1..];
      } else if |input| > 0 {
        ch := input[0];
        input := input[1..];
        assert cache + input == before[1..];
      } else {
        isEnd := true;
        ch := endToken;
      }
      if IsNewLine(ch) {
        line := line + 1;
        column := 0;
      }
      column := column + 1;
    }

    /** May move one rune from the scanner into the cache; the observable state stays the same. */
    method HasNext() returns (b: bool)
      modifies this
      ensures b == HasMore(old(Abs()))
      ensures Abs() == old(Abs())
    {
      if |cache| != 0 {
        return true;
      }
      if |input| > 0 {
        cache := cache + [input[0]];
        input := input[1..];
        return true;
      }
      if !isEnd {
        return true;
      }
      return false;
    }

    method Peek() returns (e: string)
      modifies this
      ensures e == Look(old(Abs()))
      ensures Abs() == old(Abs())
    {
      if |cache| != 0 {
        return cache[0];
      }
      if |input| > 0 {
        e := input[0];
        cache := cache + [e];
        input := input[1..];
        return e;
      }
      return endToken;
    }

    method PutBack(e: string)
      modifies this
      ensures Abs() == Push(old(Abs()), e)
    {
      cache := [e] + cache;
      column := column - 1;
    }

    method ClearFronts(count: int)
      modifies this
      ensures Abs() == Skip(old(Abs()), count)
    {
      var i := 0;
      while i < count
        invariant 0 <= i && (count >= 0 ==> i <= count)
        invariant Skip(old(Abs()), count) == Skip(Abs(), count - i)
      {
        var ch := Next();
        i := i + 1;
      }
    }
  }
}
