/**
 * The text measurer of the view: the Android StaticLayout that
 * CreateWorkingLayout builds (EllipsizingTextViewSharp.cs:224-230).
 *
 * The layout itself is host code and is not modelled; it is represented by
 * three deterministic functions of the laid-out text and of the parameters
 * the view passes to the StaticLayout constructor.  Line-spacing values and
 * the paint's text size are carried as opaque numbers: the model does no
 * arithmetic on them, it only hands them to the measurer.
 */
module Measurer {

  /** The inputs of one StaticLayout besides the text: the wrapping width
      (Width - PaddingLeft - PaddingRight), the paint's text size and the
      two line-spacing values. */
  datatype LayoutParams = LayoutParams(
    width: int,
    textSize: real,
    spacingMultiplier: real,
    spacingExtra: real)

  /** Layout.LineCount, Layout.GetLineEnd(i) and Layout.GetLineBottom(i)
      of the layout of a text under given parameters. */
  datatype Measurer = Measurer(
    lineCount: (string, LayoutParams) -> nat,
    lineEnd: (string, LayoutParams, nat) -> int,
    lineBottom: (string, LayoutParams, nat) -> int)

  /** What the view relies on from the host layout: the end offset of every
      existing line lies inside the text, so that Substring(0, end) is legal. */
  ghost predicate WellFormed(m: Measurer) {
    forall s: string, p: LayoutParams, i: nat ::
      i < m.lineCount(s, p) ==> 0 <= m.lineEnd(s, p, i) <= |s|
  }

  /** True when the laid-out text takes at most `budget` lines. */
  predicate FitsIn(m: Measurer, p: LayoutParams, budget: int, s: string) {
    m.lineCount(s, p) <= budget
  }
}
