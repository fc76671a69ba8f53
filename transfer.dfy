/** The renaming applied to productions before they are shown: the
    one-letter stand-ins `G` and `S` become the primed nonterminals `E'` and
    `T'`, and the epsilon marker `&` becomes `ε`. */
module Transfer {
  import opened Text

  /** What one character of the input turns into. */
  function Image(c: char): string
  {
    if c == 'G' then "E'" else if c == 'S' then "T'" else if c == '&' then "ε" else [c]
  }

  /** Reference definition: every character replaced by its image, in order. */
  function Expand(s: string): string
  {
    if |s| == 0 then "" else Image(s[0]) + Expand(s[1..])
  }

  /** The three chained `strings.ReplaceAll` calls. */
  function Transfer(s: string): (r: string)
    ensures 'G' !in r && 'S' !in r && '&' !in r
    ensures 'G' !in s && 'S' !in s && '&' !in s ==> r == s
  {
    var a := ReplaceChar(s, 'G', "E'");
    var b := ReplaceChar(a, 'S', "T'");
    ReplaceChar(b, '&', "ε")
  }

  /** Replacing inside a concatenation replaces inside each part. */
  lemma {:induction false} ReplaceConcat(a: string, b: string, from: char, to: string)
    ensures ReplaceChar(a + b, from, to) == ReplaceChar(a, from, to) + ReplaceChar(b, from, to)
    decreases |a|
  {
    if |a| > 0 {
      var h := if a[0] == from then to else [a[0]];
      assert (a + b)[0] == a[0] && (a + b)[1..] == a[1..] + b;
      assert ReplaceChar(a + b, from, to) == h + ReplaceChar(a[1..] + b, from, to);
      assert ReplaceChar(a, from, to) == h + ReplaceChar(a[1..], from, to);
      ReplaceConcat(a[1..], b, from, to);
    } else {
      assert a + b == b;
    }
  }

  /** `Transfer` works character by character: it agrees with `Expand`. */
  lemma {:induction false} TransferIsExpand(s: string)
    ensures Transfer(s) == Expand(s)
    decreases |s|
  {
    if |s| > 0 {
      var h, t := [s[0]], s[1..];
      assert s == h + t;
      ReplaceConcat(h, t, 'G', "E'");
      ReplaceConcat(ReplaceChar(h, 'G', "E'"), ReplaceChar(t, 'G', "E'"), 'S', "T'");
      var h2, t2 := ReplaceChar(ReplaceChar(h, 'G', "E'"), 'S', "T'"), ReplaceChar(ReplaceChar(t, 'G', "E'"), 'S', "T'");
      ReplaceConcat(h2, t2, '&', "ε");
      assert Transfer(h) == Image(s[0]);
      TransferIsExpand(t);
    }
  }

  /** Renaming twice is renaming once. */
  lemma TransferIdempotent(s: string)
    ensures Transfer(Transfer(s)) == Transfer(s)
  {
  }

  /** Counting a character distributes over concatenation. */
  lemma {:induction false} CountConcat(a: string, b: string, c: char)
    ensures Count(a + b, c) == Count(a, c) + Count(b, c)
    decreases |a|
  {
    if |a| > 0 {
      assert (a + b)[1..] == a[1..] + b;
      CountConcat(a[1..], b, c);
    } else {
      assert a + b == b;
    }
  }

  /** Replacing `from` leaves the count of any other character absent from `to` unchanged. */
  lemma {:induction false} ReplaceKeepsCount(s: string, from: char, to: string, c: char)
    requires c != from && c !in to
    ensures Count(ReplaceChar(s, from, to), c) == Count(s, c)
    decreases |s|
  {
    if |s| > 0 {
      var h := if s[0] == from then to else [s[0]];
      CountConcat(h, ReplaceChar(s[1..], from, to), c);
      if s[0] == from {
        assert Count(to, c) == 0 by { CountAbsent(to, c); }
      }
      ReplaceKeepsCount(s[1..], from, to, c);
    }
  }

  /** A character that does not occur is counted zero times. */
  lemma {:induction false} CountAbsent(s: string, c: char)
    requires c !in s
    ensures Count(s, c) == 0
    decreases |s|
  {
    if |s| > 0 {
      CountAbsent(s[1..], c);
    }
  }

  /** Each `G` and each `S` adds one character; `&` becomes the single character `ε`. */
  lemma TransferLength(s: string)
    ensures |Transfer(s)| == |s| + Count(s, 'G') + Count(s, 'S')
  {
    ReplaceKeepsCount(s, 'G', "E'", 'S');
  }
}
