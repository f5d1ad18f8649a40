/**
 * The default end-punctuation pattern `[\.,…;\:\s]*$`
 * (EllipsizingTextViewSharp.cs:16) as ResetText applies it with
 * ReplaceFirst("") (:171): the leftmost match of a run of class characters
 * followed by the end of the input is the maximal trailing run of such
 * characters, and replacing it by the empty string removes exactly that run.
 *
 * `\s` of the host's regular-expression engine (Android's ICU-backed
 * java.util.regex) is the Unicode White_Space property, the same set as
 * .NET's Char.IsWhiteSpace.  Every line terminator is in that set, so `$`
 * matching before a final line terminator gives no earlier match.
 */
module EndPunctuation {
  import opened Strings

  /** The character class of the default pattern: four punctuation marks,
      the ellipsis and `\s`. */
  predicate IsEndPunctuation(c: char) {
    c == '.' || c == ',' || c == '\U{2026}' || c == ';' || c == ':' || IsWhiteSpace(c)
  }

  /** Length of the maximal run of class characters at the end of `s`: the
      run stops at the last character outside the class. */
  function TrailingEndPunctuation(s: string): (n: nat)
    ensures n <= |s|
    ensures n < |s| ==> !IsEndPunctuation(s[|s| - n - 1])
  {
    if |s| > 0 && IsEndPunctuation(s[|s| - 1]) then 1 + TrailingEndPunctuation(s[..|s| - 1]) else 0
  }

  /** Every character of the trailing run is in the class. */
  lemma {:induction false} TrailingIsEndPunctuation(s: string)
    ensures forall k :: |s| - TrailingEndPunctuation(s) <= k < |s| ==> IsEndPunctuation(s[k])
  {
    if |s| > 0 && IsEndPunctuation(s[|s| - 1]) {
      var front := s[..|s| - 1];
      TrailingIsEndPunctuation(front);
      forall k | |s| - TrailingEndPunctuation(s) <= k < |s| - 1
        ensures IsEndPunctuation(s[k])
      {
        assert s[k] == front[k];
      }
    }
  }

  /** `DefaultEndPunctuation.Matcher(s).ReplaceFirst("")`: the strip keeps
      a prefix of `s` and removes all of the trailing class characters, so
      the result does not end in one. */
  function StripEndPunctuation(s: string): (r: string)
    ensures r <= s
    ensures r == [] || !IsEndPunctuation(r[|r| - 1])
  {
    s[..|s| - TrailingEndPunctuation(s)]
  }

  /** The strip removes class characters only. */
  lemma StripRemovesOnlyEndPunctuation(s: string)
    ensures forall k :: |StripEndPunctuation(s)| <= k < |s| ==> IsEndPunctuation(s[k])
  {
    TrailingIsEndPunctuation(s);
  }

  /** A text that does not end in a class character is left as it is. */
  lemma StripKeepsCleanText(s: string)
    requires s == [] || !IsEndPunctuation(s[|s| - 1])
    ensures StripEndPunctuation(s) == s
  {
  }

  /** Stripping a second time changes nothing. */
  lemma StripIdempotent(s: string)
    ensures StripEndPunctuation(StripEndPunctuation(s)) == StripEndPunctuation(s)
  {
    StripKeepsCleanText(StripEndPunctuation(s));
  }
}
