/**
 * Worked cases: the truncation step under a concrete measurer, a
 * monospaced layout that wraps every ten characters, and the end-punctuation
 * strip on a vertical tab.
 */
module Scenarios {
  import opened Measurer
  import opened Strings
  import opened EndPunctuation
  import opened Truncation

  /** Ten characters per line, so a text of n characters takes
      ceil(n / 10) lines; line i ends at offset 10 * (i + 1), or at the end
      of the text; each line is 12 pixels high. */
  function Columns(s: string, p: LayoutParams): nat { (|s| + 9) / 10 }
  function ColumnEnd(s: string, p: LayoutParams, i: nat): int { if 10 * (i + 1) < |s| then 10 * (i + 1) else |s| }
  function ColumnBottom(s: string, p: LayoutParams, i: nat): int { 12 * (i + 1) }

  function TenColumns(): (m: Measurer)
    ensures WellFormed(m)
  {
    Measurer(Columns, ColumnEnd, ColumnBottom)
  }

  /** Thirty characters on a budget of two lines: the first cut is the
      first twenty characters; with the ellipsis they take three lines, so
      the last word goes; "The quick," and the ellipsis fit; the comma is
      stripped before the ellipsis is appended. */
  lemma WordDroppedAndPunctuationStripped(p: LayoutParams)
    ensures Truncate(TenColumns(), p, 2, "The quick, brownish; fox jumps")
      == Truncation("The quick" + [Ellipsis], true)
  {
    var m := TenColumns();
    var full := "The quick, brownish; fox jumps";
    var cut := "The quick, brownish;";
    assert full[..20] == cut;
    assert LeadingWhiteSpace(cut) == 0;
    assert TrailingWhiteSpace(cut) == 0;
    assert Trim(cut) == cut;
    assert FirstCut(m, p, 2, full) == cut;
    var r := LastIndexOf(cut, ' ');
    assert cut[10] == ' ';
    assert r == 10;
    assert cut[..10] == "The quick,";
    assert FitsWithEllipsis(m, p, 2, "The quick,");
    assert Shrink(m, p, 2, cut) == "The quick,";
    assert TrailingEndPunctuation("The quick,") == 1;
    assert StripEndPunctuation("The quick,") == "The quick";
  }

  /** A vertical tab is in the pattern's `\s`, so it is stripped together
      with the comma before it. */
  lemma VerticalTabIsStripped()
    ensures StripEndPunctuation("a,\U{0B}") == "a"
  {
    assert TrailingEndPunctuation("a,\U{0B}") == 2;
  }
}
