/** The few operations of Go's `strings` package that the grammar loader
    relies on, for separators that are not empty. */
module Text {

  /** `sep` occurs in `s` starting at position `k`. */
  predicate OccursAt(s: string, sep: string, k: int)
  {
    0 <= k && k + |sep| <= |s| && s[k..k + |sep|] == sep
  }

  /** No occurrence of `sep` starts at a position below `bound`. */
  ghost predicate NoneBefore(s: string, sep: string, bound: int)
  {
    forall k :: 0 <= k < bound ==> !OccursAt(s, sep, k)
  }

  /** `sep` does not occur in `s`. */
  ghost predicate Free(s: string, sep: string)
  {
    NoneBefore(s, sep, |s|)
  }

  /** Index of the first occurrence of `sep` in `s`, or -1 (Go's `strings.Index`). */
  function Find(s: string, sep: string): (i: int)
    requires |sep| > 0
    ensures i >= -1
    ensures i >= 0 ==> OccursAt(s, sep, i) && NoneBefore(s, sep, i)
    ensures i < 0 ==> Free(s, sep)
    decreases |s|
  {
    if |s| < |sep| then -1
    else if s[..|sep|] == sep then 0
    else
      var j := Find(s[1..], sep);
      ShiftOccurrences(s, sep);
      if j < 0 then -1 else j + 1
  }

  /** An occurrence in `s[1..]` is an occurrence in `s` one position further on. */
  lemma ShiftOccurrences(s: string, sep: string)
    requires |s| >= 1
    ensures forall k :: 1 <= k ==> (OccursAt(s, sep, k) <==> OccursAt(s[1..], sep, k - 1))
  {
    forall k | 1 <= k ensures OccursAt(s, sep, k) <==> OccursAt(s[1..], sep, k - 1) {
      if k + |sep| <= |s| {
        var a, b := s[k..k + |sep|], s[1..][k - 1..k - 1 + |sep|];
        forall m | 0 <= m < |sep| ensures a[m] == b[m] {
          assert b[m] == s[1..][k - 1 + m];
        }
        assert a == b;
      }
    }
  }

  /** An occurrence inside a prefix of `s` is an occurrence in `s`. */
  lemma PrefixOccurrences(s: string, sep: string, i: nat)
    requires i <= |s|
    ensures forall k :: OccursAt(s[..i], sep, k) ==> OccursAt(s, sep, k)
  {
    forall k | OccursAt(s[..i], sep, k) ensures OccursAt(s, sep, k) {
      assert s[..i][k..k + |sep|] == s[k..k + |sep|];
    }
  }

  /** Glues the parts back together with `sep` between consecutive parts. */
  function Join(parts: seq<string>, sep: string): string
  {
    if |parts| == 0 then ""
    else if |parts| == 1 then parts[0]
    else parts[0] + sep + Join(parts[1..], sep)
  }

  /** Every character of a part is a character of the joined text. */
  lemma {:induction false} JoinKeepsChars(parts: seq<string>, sep: string, p: string, c: char)
    requires p in parts && c in p
    ensures c in Join(parts, sep)
  {
    if |parts| > 1 && p != parts[0] {
      JoinKeepsChars(parts[1..], sep, p, c);
    }
  }

  /** Go's `strings.Split(s, sep)` for a non-empty separator: the text around
      each occurrence of `sep`, found from left to right without overlap. */
  function Split(s: string, sep: string): (parts: seq<string>)
    requires |sep| > 0
    ensures |parts| >= 1
    ensures Join(parts, sep) == s
    ensures forall p :: p in parts ==> Free(p, sep)
    decreases |s|
  {
    var i := Find(s, sep);
    if i < 0 then
      [s]
    else
      var rest := Split(s[i + |sep|..], sep);
      assert s == s[..i] + sep + s[i + |sep|..];
      PrefixOccurrences(s, sep, i);
      [s[..i]] + rest
  }

  /** Go's `strings.ReplaceAll(s, from, to)` for a one-character `from`. */
  function ReplaceChar(s: string, from: char, to: string): (r: string)
    ensures from !in to ==> from !in r
    ensures from !in s ==> r == s
    ensures forall c :: c in r ==> c in s || c in to
    ensures |to| == 1 ==> |r| == |s|
    ensures |to| == 2 ==> |r| == |s| + Count(s, from)
  {
    if |s| == 0 then ""
    else (if s[0] == from then to else [s[0]]) + ReplaceChar(s[1..], from, to)
  }

  /** Number of occurrences of `c` in `s`. */
  function Count(s: string, c: char): nat
  {
    if |s| == 0 then 0 else (if s[0] == c then 1 else 0) + Count(s[1..], c)
  }

  /** Go's `strings.ReplaceAll(s, " ", "")`. */
  function RemoveSpaces(s: string): (r: string)
    ensures ' ' !in r
    ensures ' ' !in s ==> r == s
    ensures forall c :: c in r ==> c in s
  {
    ReplaceChar(s, ' ', "")
  }

  /** Go's `strings.TrimSpace(t) == ""`: every character is white space. */
  predicate IsBlank(t: string)
  {
    forall k :: 0 <= k < |t| ==> t[k] in " \t\n\r\U{000B}\U{000C}\U{0085}\U{00A0}"
  }
}
