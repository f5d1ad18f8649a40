/**
 * How many lines the view may show: EllipsizingLastFullyVisibleLine,
 * GetLinesCount and GetFullyVisibleLinesCount
 * (EllipsizingTextViewSharp.cs:91-94, 201-222).
 */
module LineBudget {

  /** int.MaxValue (Integer.MaxValue): the max-lines value the constructor
      sets, which selects the fit-to-height mode. */
  const IntMaxValue: int := 0x7fff_ffff

  function Abs(x: int): nat {
    if x < 0 then -x else x
  }

  /** C# integer division, which truncates toward zero: the magnitude of the
      quotient is the Euclidean quotient of the magnitudes, and its sign is
      the product of the operands' signs. */
  function TruncDiv(a: int, b: int): (q: int)
    requires b != 0
    ensures Abs(q) * Abs(b) <= Abs(a) < (Abs(q) + 1) * Abs(b)
    ensures q == 0 || ((q > 0) <==> ((a > 0) == (b > 0)))
  {
    var x, y := Abs(a), Abs(b);
    var m := x / y;
    DivBounds(x, y);
    assert a == 0 ==> m == 0;
    if (a < 0) == (b < 0) then
      assert m == 0 || ((a > 0) == (b > 0));
      m
    else
      assert m == 0 || ((a > 0) != (b > 0));
      var q: int := -m;
      q
  }

  /** The Euclidean quotient of naturals brackets the dividend. */
  lemma DivBounds(x: nat, y: nat)
    requires y > 0
    ensures (x / y) * y <= x < (x / y + 1) * y
  {
    var m, r := x / y, x % y;
    assert x == m * y + r && 0 <= r < y;
    assert (m + 1) * y == m * y + y;
  }

  /** EllipsizingLastFullyVisibleLine: the view fits its text to its height
      exactly when MaxLines holds the constructor's default. */
  predicate FitsHeightMode(maxLines: int) {
    maxLines == IntMaxValue
  }

  /** The height left for text: Height - PaddingTop - PaddingBottom - descent. */
  function AvailableHeight(height: int, paddingTop: int, paddingBottom: int, descent: int): int {
    height - paddingTop - paddingBottom - descent
  }

  /** GetFullyVisibleLinesCount: the available height divided, with C#
      truncation, by the bottom of the first line of an empty layout.  It
      never counts more lines than the height holds, and it is not negative
      when both are positive. */
  function FullyVisibleLines(available: int, lineHeight: int): (n: int)
    requires lineHeight != 0
    ensures Abs(n) * Abs(lineHeight) <= Abs(available)
    ensures available >= 0 && lineHeight > 0 ==> n >= 0
  {
    TruncDiv(available, lineHeight)
  }

  /** GetLinesCount: MaxLines, or in fit-to-height mode the number of fully
      visible lines, a result of exactly -1 being replaced by 1 (so the
      budget is never -1 there, and differs from the count only then). */
  function LinesCount(maxLines: int, available: int, lineHeight: int): (n: int)
    requires FitsHeightMode(maxLines) ==> lineHeight != 0
    ensures !FitsHeightMode(maxLines) ==> n == maxLines
    ensures FitsHeightMode(maxLines) ==> n != -1
    ensures FitsHeightMode(maxLines) && n != FullyVisibleLines(available, lineHeight)
      ==> FullyVisibleLines(available, lineHeight) == -1 && n == 1
  {
    if FitsHeightMode(maxLines) then
      var fullyVisible := FullyVisibleLines(available, lineHeight);
      if fullyVisible == -1 then 1 else fullyVisible
    else
      maxLines
  }

  /** With room for text and a positive line height, the fully visible lines
      are exactly the whole lines that fit: n lines fit and n + 1 do not. */
  lemma FullyVisibleLinesFit(available: int, lineHeight: int)
    requires available >= 0 && lineHeight > 0
    ensures var n := FullyVisibleLines(available, lineHeight);
      0 <= n && n * lineHeight <= available < (n + 1) * lineHeight
  {
    var n := FullyVisibleLines(available, lineHeight);
    assert Abs(n) * Abs(lineHeight) <= Abs(available) < (Abs(n) + 1) * Abs(lineHeight);
  }

  /** In fit-to-height mode with a positive line height, the budget is 0
      exactly when less than one line height, above or below zero, is
      available: only a quotient of -1 is clamped, so 0 passes through. */
  lemma FitBudgetZero(available: int, lineHeight: int)
    requires lineHeight > 0
    ensures LinesCount(IntMaxValue, available, lineHeight) == 0 <==> -lineHeight < available < lineHeight
  {
    var q := FullyVisibleLines(available, lineHeight);
    var low := Abs(q) * lineHeight;
    assert low <= Abs(available) < low + lineHeight by {
      assert (Abs(q) + 1) * lineHeight == low + lineHeight;
    }
    if q != 0 {
      MulAtLeast(Abs(q), 1, lineHeight);
    }
  }

  /** In fit-to-height mode with a positive line height, the budget is at
      least 1 exactly when a whole line fits, or when the available height is
      between minus two line heights (excluded) and minus one (included):
      the quotient -1 that the source turns into 1. */
  lemma FitBudgetPositive(available: int, lineHeight: int)
    requires lineHeight > 0
    ensures LinesCount(IntMaxValue, available, lineHeight) >= 1
        <==> available >= lineHeight || -2 * lineHeight < available <= -lineHeight
  {
    var q := FullyVisibleLines(available, lineHeight);
    var low := Abs(q) * lineHeight;
    assert low <= Abs(available) < low + lineHeight by {
      assert (Abs(q) + 1) * lineHeight == low + lineHeight;
    }
    if q <= -2 {
      MulAtLeast(Abs(q), 2, lineHeight);
    } else if q >= 1 {
      MulAtLeast(Abs(q), 1, lineHeight);
    }
  }

  /** Multiplying by a positive number keeps a lower bound. */
  lemma MulAtLeast(x: nat, k: nat, h: int)
    requires x >= k && h > 0
    ensures x * h >= k * h
  {
  }
}
