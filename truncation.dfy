/**
 * The truncation step of ResetText (EllipsizingTextViewSharp.cs:151-174):
 * what the view displays for a full text and a line budget, under one
 * measurer configuration.
 */
module Truncation {
  import opened Measurer
  import opened Strings
  import opened EndPunctuation

  /** ELLIPSIS, U+2026 (EllipsizingTextViewSharp.cs:15). */
  const Ellipsis: char := '\U{2026}'

  /** The working text ResetText ends with and whether it was shortened. */
  datatype Truncation = Truncation(displayedText: string, ellipsized: bool)

  /** The loop guard of ResetText, negated: the candidate with the ellipsis
      appended fits in the budget. */
  predicate FitsWithEllipsis(m: Measurer, p: LayoutParams, budget: int, candidate: string) {
    FitsIn(m, p, budget, candidate + [Ellipsis])
  }

  /** The word-shrink loop (EllipsizingTextViewSharp.cs:161-169) as a
      function: drop the last space-separated word until the candidate fits
      with the ellipsis, or no space is left.  The result is a prefix of the
      candidate, cut at a space if shorter, and it fits or has no space. */
  function Shrink(m: Measurer, p: LayoutParams, budget: int, candidate: string): (r: string)
    ensures r <= candidate
    ensures FitsWithEllipsis(m, p, budget, r) || ' ' !in r
    ensures r == candidate || candidate[|r|] == ' '
    decreases |candidate|
  {
    if FitsWithEllipsis(m, p, budget, candidate) then candidate
    else
      var lastSpace := LastIndexOf(candidate, ' ');
      if lastSpace == -1 then
        LastIndexOfAbsent(candidate, ' ');
        candidate
      else
        Shrink(m, p, budget, candidate[..lastSpace])
  }

  /** The shrink is greedy and never backtracks: the candidate itself and
      every longer cut at a space were tried and did not fit. */
  lemma {:induction false} ShrinkIsGreedy(m: Measurer, p: LayoutParams, budget: int, candidate: string)
    ensures var r := Shrink(m, p, budget, candidate);
      && (r != candidate ==> !FitsWithEllipsis(m, p, budget, candidate))
      && forall k :: |r| < k < |candidate| && candidate[k] == ' ' ==> !FitsWithEllipsis(m, p, budget, candidate[..k])
    decreases |candidate|
  {
    if !FitsWithEllipsis(m, p, budget, candidate) {
      var lastSpace := LastIndexOf(candidate, ' ');
      if lastSpace != -1 {
        var shorter := candidate[..lastSpace];
        ShrinkIsGreedy(m, p, budget, shorter);
        var r := Shrink(m, p, budget, shorter);
        assert forall k :: |r| < k < lastSpace ==> shorter[..k] == candidate[..k];
      }
    }
  }

  /** The first cut of ResetText: the full text up to the end of the last
      allowed line, trimmed at both ends.  It neither starts nor ends with
      white space, and, unless empty, it is the slice of the full text that
      starts right after the full text's own leading white space. */
  function FirstCut(m: Measurer, p: LayoutParams, budget: int, fullText: string): (r: string)
    requires WellFormed(m)
    requires 1 <= budget < m.lineCount(fullText, p)
    ensures r == [] || (!IsWhiteSpace(r[0]) && !IsWhiteSpace(r[|r| - 1]))
    ensures var lead := LeadingWhiteSpace(fullText);
      r != [] ==> lead + |r| <= |fullText| && r == fullText[lead..lead + |r|]
  {
    var prefix := fullText[..m.lineEnd(fullText, p, budget - 1)];
    if Trim(prefix) == [] then []
    else
      TrimOfPrefix(prefix, fullText);
      Trim(prefix)
  }

  /** The first cut stays inside the first `budget` lines: measured from the
      start of the full text, it ends no later than the end of line
      `budget - 1`. */
  lemma FirstCutWithinBudgetLines(m: Measurer, p: LayoutParams, budget: int, fullText: string)
    requires WellFormed(m)
    requires 1 <= budget < m.lineCount(fullText, p)
    ensures var r := FirstCut(m, p, budget, fullText);
      r != [] ==> LeadingWhiteSpace(fullText) + |r| <= m.lineEnd(fullText, p, budget - 1)
  {
    var prefix := fullText[..m.lineEnd(fullText, p, budget - 1)];
    if Trim(prefix) != [] {
      LeadingOfExtension(prefix, fullText);
    }
  }

  /** What ResetText computes: the full text when it fits in the budget,
      otherwise the shrunk first cut, stripped of its end punctuation, with
      the ellipsis appended. */
  function Truncate(m: Measurer, p: LayoutParams, budget: int, fullText: string): (r: Truncation)
    requires WellFormed(m)
    requires !FitsIn(m, p, budget, fullText) ==> budget >= 1
    ensures r.ellipsized <==> !FitsIn(m, p, budget, fullText)
    ensures !r.ellipsized ==> r.displayedText == fullText
    ensures r.ellipsized ==> |r.displayedText| >= 1 && r.displayedText[|r.displayedText| - 1] == Ellipsis
  {
    if FitsIn(m, p, budget, fullText) then
      Truncation(fullText, false)
    else
      var candidate := Shrink(m, p, budget, FirstCut(m, p, budget, fullText));
      Truncation(StripEndPunctuation(candidate) + [Ellipsis], true)
  }

  /** The computing part of ResetText, lines 153-174, with its loop. */
  method ComputeTruncation(m: Measurer, p: LayoutParams, budget: int, fullText: string)
    returns (workingText: string, ellipsized: bool)
    requires WellFormed(m)
    requires !FitsIn(m, p, budget, fullText) ==> budget >= 1
    ensures Truncation(workingText, ellipsized) == Truncate(m, p, budget, fullText)
  {
    workingText := fullText;
    ellipsized := false;
    if m.lineCount(workingText, p) > budget {
      workingText := Trim(fullText[..m.lineEnd(fullText, p, budget - 1)]);
      ghost var cut := workingText;
      while m.lineCount(workingText + [Ellipsis], p) > budget
        invariant Shrink(m, p, budget, workingText) == Shrink(m, p, budget, cut)
        decreases |workingText|
      {
        var lastSpace := LastIndexOf(workingText, ' ');
        if lastSpace == -1 {
          break;
        }
        workingText := workingText[..lastSpace];
      }
      workingText := StripEndPunctuation(workingText);
      workingText := workingText + [Ellipsis];
      ellipsized := true;
    }
  }

  /** No truncation when the full text fits (EllipsizingTextViewSharp.cs:153-157). */
  lemma NoTruncationWhenFits(m: Measurer, p: LayoutParams, budget: int, fullText: string)
    requires WellFormed(m)
    requires FitsIn(m, p, budget, fullText)
    ensures Truncate(m, p, budget, fullText) == Truncation(fullText, false)
  {
  }

  /** Shape of a truncated text: the stripped form of a prefix of the
      trimmed first cut, followed by the ellipsis, where that prefix fits
      with the ellipsis or holds no space. */
  lemma TruncatedShape(m: Measurer, p: LayoutParams, budget: int, fullText: string)
    requires WellFormed(m)
    requires 1 <= budget < m.lineCount(fullText, p)
    ensures exists c :: (
      && c <= FirstCut(m, p, budget, fullText)
      && (FitsWithEllipsis(m, p, budget, c) || ' ' !in c)
      && Truncate(m, p, budget, fullText).displayedText == StripEndPunctuation(c) + [Ellipsis])
  {
    var c := Shrink(m, p, budget, FirstCut(m, p, budget, fullText));
    assert Truncate(m, p, budget, fullText).displayedText == StripEndPunctuation(c) + [Ellipsis];
  }

  /** The displayed text without its ellipsis does not end in end
      punctuation. */
  lemma TruncatedEndsCleanly(m: Measurer, p: LayoutParams, budget: int, fullText: string)
    requires WellFormed(m)
    requires 1 <= budget < m.lineCount(fullText, p)
    ensures var shown := Truncate(m, p, budget, fullText).displayedText;
      var body := shown[..|shown| - 1];
      body == [] || !IsEndPunctuation(body[|body| - 1])
  {
    var c := Shrink(m, p, budget, FirstCut(m, p, budget, fullText));
    var body := StripEndPunctuation(c);
    var shown := Truncate(m, p, budget, fullText).displayedText;
    assert shown == body + [Ellipsis];
    assert shown[..|shown| - 1] == body;
  }

  /** The displayed text without its ellipsis is a slice of the full text
      that starts right after the full text's leading white space: only
      white space is dropped at the front, and only words and end
      punctuation at the back. */
  lemma TruncatedTextComesFromFullText(m: Measurer, p: LayoutParams, budget: int, fullText: string)
    requires WellFormed(m)
    requires 1 <= budget < m.lineCount(fullText, p)
    ensures var shown := Truncate(m, p, budget, fullText).displayedText;
      var body := shown[..|shown| - 1];
      var lead := LeadingWhiteSpace(fullText);
      body != [] ==> lead + |body| <= |fullText| && body == fullText[lead..lead + |body|]
  {
    var cut := FirstCut(m, p, budget, fullText);
    var c := Shrink(m, p, budget, cut);
    var shown := Truncate(m, p, budget, fullText).displayedText;
    assert shown[..|shown| - 1] == StripEndPunctuation(c);
    StrippedPrefixOfSlice(c, cut, fullText, LeadingWhiteSpace(fullText));
  }

  /** The stripped form of a prefix of a slice, unless empty, is the
      matching shorter slice. */
  lemma StrippedPrefixOfSlice(c: string, cut: string, s: string, lead: nat)
    requires c <= cut
    requires cut != [] ==> lead + |cut| <= |s| && cut == s[lead..lead + |cut|]
    ensures var body := StripEndPunctuation(c);
      body != [] ==> lead + |body| <= |s| && body == s[lead..lead + |body|]
  {
    var body := StripEndPunctuation(c);
    if body != [] {
      PrefixOfSlice(body, c, cut, s, lead);
    }
  }

  /** A prefix of a slice is the matching shorter slice. */
  lemma PrefixOfSlice(body: string, c: string, cut: string, s: string, lead: nat)
    requires body <= c && c <= cut
    requires lead + |cut| <= |s| && cut == s[lead..lead + |cut|]
    ensures lead + |body| <= |s| && body == s[lead..lead + |body|]
  {
    assert body == cut[..|body|];
  }

}
