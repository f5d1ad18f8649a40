/**
 * The two .NET string operations the truncation step relies on:
 * String.Trim() and String.LastIndexOf(char).
 */
module Strings {

  /** Char.IsWhiteSpace of .NET, the character test String.Trim() uses:
      U+0009..U+000D, U+0085, and the Unicode space, line and paragraph
      separators. */
  predicate IsWhiteSpace(c: char) {
    || ('\t' <= c <= '\r')
    || c == ' '
    || c == '\U{85}'
    || c == '\U{A0}'
    || c == '\U{1680}'
    || ('\U{2000}' <= c <= '\U{200A}')
    || c == '\U{2028}'
    || c == '\U{2029}'
    || c == '\U{202F}'
    || c == '\U{205F}'
    || c == '\U{3000}'
  }

  /** Number of white-space characters at the front of `s`: the run stops
      at the first character that is not white space. */
  function LeadingWhiteSpace(s: string): (n: nat)
    ensures n <= |s|
    ensures n < |s| ==> !IsWhiteSpace(s[n])
  {
    if |s| > 0 && IsWhiteSpace(s[0]) then 1 + LeadingWhiteSpace(s[1..]) else 0
  }

  /** Every character of the leading run is white space. */
  lemma {:induction false} LeadingIsWhiteSpace(s: string)
    ensures forall k :: 0 <= k < LeadingWhiteSpace(s) ==> IsWhiteSpace(s[k])
  {
    if |s| > 0 && IsWhiteSpace(s[0]) {
      LeadingIsWhiteSpace(s[1..]);
      forall k | 1 <= k < LeadingWhiteSpace(s)
        ensures IsWhiteSpace(s[k])
      {
        assert s[k] == s[1..][k - 1];
      }
    }
  }

  /** Number of white-space characters at the back of `s`: the run stops
      at the last character that is not white space. */
  function TrailingWhiteSpace(s: string): (n: nat)
    ensures n <= |s|
    ensures n < |s| ==> !IsWhiteSpace(s[|s| - n - 1])
  {
    if |s| > 0 && IsWhiteSpace(s[|s| - 1]) then 1 + TrailingWhiteSpace(s[..|s| - 1]) else 0
  }

  /** Every character of the trailing run is white space. */
  lemma {:induction false} TrailingIsWhiteSpace(s: string)
    ensures forall k :: |s| - TrailingWhiteSpace(s) <= k < |s| ==> IsWhiteSpace(s[k])
  {
    if |s| > 0 && IsWhiteSpace(s[|s| - 1]) {
      var front := s[..|s| - 1];
      TrailingIsWhiteSpace(front);
      forall k | |s| - TrailingWhiteSpace(s) <= k < |s| - 1
        ensures IsWhiteSpace(s[k])
      {
        assert s[k] == front[k];
      }
    }
  }

  /** String.Trim(): `s` without its leading and trailing white space.
      The result is the slice of `s` that starts after the leading white
      space, and it neither starts nor ends with white space. */
  function Trim(s: string): (r: string)
    ensures LeadingWhiteSpace(s) + |r| <= |s|
    ensures r == s[LeadingWhiteSpace(s)..LeadingWhiteSpace(s) + |r|]
    ensures r == [] || (!IsWhiteSpace(r[0]) && !IsWhiteSpace(r[|r| - 1]))
  {
    var tail := s[LeadingWhiteSpace(s)..];
    tail[..|tail| - TrailingWhiteSpace(tail)]
  }

  /** Everything Trim cuts off after the kept slice is white space, so with
      the leading white space, only white space is removed. */
  lemma TrimDropsOnlyWhiteSpace(s: string)
    ensures forall k :: LeadingWhiteSpace(s) + |Trim(s)| <= k < |s| ==> IsWhiteSpace(s[k])
  {
    var lead := LeadingWhiteSpace(s);
    var tail := s[lead..];
    var n := TrailingWhiteSpace(tail);
    assert |Trim(s)| == |tail| - n;
    TrailingIsWhiteSpace(tail);
    forall k | lead + |Trim(s)| <= k < |s|
      ensures IsWhiteSpace(s[k])
    {
      assert s[k] == tail[k - lead];
    }
  }

  /** String.LastIndexOf(c): the index of the last `c` in `s`, or -1. */
  function LastIndexOf(s: string, c: char): (r: int)
    ensures -1 <= r < |s|
    ensures r >= 0 ==> s[r] == c
    ensures forall k :: r < k < |s| ==> s[k] != c
  {
    if |s| == 0 then -1
    else if s[|s| - 1] == c then |s| - 1
    else LastIndexOf(s[..|s| - 1], c)
  }

  /** LastIndexOf answers -1 exactly when the character does not occur. */
  lemma LastIndexOfAbsent(s: string, c: char)
    ensures LastIndexOf(s, c) == -1 <==> c !in s
  {
    var r := LastIndexOf(s, c);
    if r >= 0 {
      assert s[r] == c;
    }
  }

  /** Trimming twice changes nothing. */
  lemma TrimIdempotent(s: string)
    ensures Trim(Trim(s)) == Trim(s)
  {
    var t := Trim(s);
    if t != [] {
      assert LeadingWhiteSpace(t) == 0;
      assert TrailingWhiteSpace(t) == 0;
    }
  }

  /** A text that extends a prefix that is not all white space has the
      same leading white space as that prefix. */
  lemma {:induction false} LeadingOfExtension(prefix: string, s: string)
    requires prefix <= s
    requires LeadingWhiteSpace(prefix) < |prefix|
    ensures LeadingWhiteSpace(s) == LeadingWhiteSpace(prefix)
  {
    assert s[0] == prefix[0];
    if IsWhiteSpace(prefix[0]) {
      assert prefix[1..] <= s[1..];
      LeadingOfExtension(prefix[1..], s[1..]);
    }
  }

  /** Trimming a prefix of a text that is not all white space yields a
      slice of the text starting after the text's own leading white space. */
  lemma TrimOfPrefix(prefix: string, s: string)
    requires prefix <= s
    requires Trim(prefix) != []
    ensures var lead := LeadingWhiteSpace(s);
      lead + |Trim(prefix)| <= |s| && Trim(prefix) == s[lead..lead + |Trim(prefix)|]
  {
    LeadingOfExtension(prefix, s);
    SliceOfPrefix(prefix, s, LeadingWhiteSpace(prefix), LeadingWhiteSpace(prefix) + |Trim(prefix)|);
  }

  /** A slice of a prefix is the same slice of the whole text. */
  lemma SliceOfPrefix(prefix: string, s: string, i: nat, j: nat)
    requires prefix <= s && i <= j <= |prefix|
    ensures prefix[i..j] == s[i..j]
  {
    assert prefix == s[..|prefix|];
  }
}
