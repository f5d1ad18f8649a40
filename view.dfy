/**
 * The EllipsizingTextView class (EllipsizingTextViewSharp.cs:13-239): the
 * staleness flag set by the host callbacks, the recompute step before each
 * draw, the programmatic-change guard around its own SetText, and listener
 * notification when the ellipsized state changes.
 */
module View {
  import opened Wrappers
  import opened Measurer
  import opened LineBudget
  import opened Truncation
  import opened Listeners

  /** How AddEllipsizeListener ends: normally, or with the
      NullPointerException it throws for a null listener. */
  datatype Status = Ok | NullPointerException

  class EllipsizingTextView {
    /** The host's StaticLayout over this view's paint. */
    const measurer: Measurer

    /** _ellipsizeListeners, in registration order. */
    var listeners: seq<ListenerId>
    /** _isEllipsized: the state the listeners were last told about. */
    var isEllipsized: bool
    /** _isStale: the displayed text must be recomputed before drawing. */
    var isStale: bool
    /** _programmaticChange: set while ResetText applies its own text. */
    var programmaticChange: bool
    /** _fullText: the last text set from outside; null until the first
        OnTextChanged. */
    var fullText: Option<string>
    /** _lineSpacingMultiplier and _lineAdditionalVerticalPadding. */
    var lineSpacingMultiplier: real
    var lineAdditionalVerticalPadding: real
    /** _lineDecender: the descent of the paint's font metrics. */
    var lineDescender: int
    /** The MaxLines property. */
    var maxLines: int

    /** State of the host TextView that the view reads: the Text property,
        the size, the padding and the paint's text size. */
    var text: string
    var width: int
    var height: int
    var paddingLeft: int
    var paddingTop: int
    var paddingRight: int
    var paddingBottom: int
    var textSize: real

    /** Every SetText call on the view, in order. */
    ghost var setTextLog: seq<string>
    /** Every listener call, in order. */
    ghost var notifications: seq<Notification>

    /** The measurer is well formed, and the guard is down outside ResetText.
        Every host callback requires and keeps it. */
    ghost predicate Valid()
      reads this
    {
      WellFormed(measurer) && !programmaticChange
    }

    /** The constructor's defaults (EllipsizingTextViewSharp.cs:23-30, 47-56):
        MaxLines is int.MaxValue, so the view starts stale and in
        fit-to-height mode.  The host's own state (text, size, padding and
        text size) is whatever the base TextView starts with, so it is
        passed in rather than fixed. */
    constructor (measurer: Measurer, text: string, width: int, height: int,
                 paddingLeft: int, paddingTop: int, paddingRight: int, paddingBottom: int,
                 textSize: real)
      requires WellFormed(measurer)
      ensures Valid()
      ensures this.measurer == measurer && this.textSize == textSize
      ensures listeners == [] && !isEllipsized && isStale && !programmaticChange
      ensures fullText == None && this.text == text
      ensures lineSpacingMultiplier == 1.0 && lineAdditionalVerticalPadding == 0.0 && lineDescender == 0
      ensures maxLines == IntMaxValue && EllipsizingLastFullyVisibleLine()
      ensures this.width == width && this.height == height
      ensures this.paddingLeft == paddingLeft && this.paddingTop == paddingTop
      ensures this.paddingRight == paddingRight && this.paddingBottom == paddingBottom
      ensures setTextLog == [] && notifications == []
    {
      this.measurer := measurer;
      listeners := [];
      isEllipsized := false;
      programmaticChange := false;
      fullText := None;
      lineSpacingMultiplier := 1.0;
      lineAdditionalVerticalPadding := 0.0;
      lineDescender := 0;
      this.text := text;
      this.width, this.height := width, height;
      this.paddingLeft, this.paddingTop := paddingLeft, paddingTop;
      this.paddingRight, this.paddingBottom := paddingRight, paddingBottom;
      this.textSize := textSize;
      setTextLog := [];
      notifications := [];
      maxLines := IntMaxValue;
      isStale := true;
    }

    /** The parameters CreateWorkingLayout passes to the StaticLayout. */
    function Params(): LayoutParams
      reads this
    {
      LayoutParams(width - paddingLeft - paddingRight, textSize,
                   lineSpacingMultiplier, lineAdditionalVerticalPadding)
    }

    /** GetLineBottom(0) of the layout of the empty text. */
    function LineHeight(): int
      reads this
    {
      measurer.lineBottom([], Params(), 0)
    }

    /** EllipsizingLastFullyVisibleLine (EllipsizingTextViewSharp.cs:91-94). */
    predicate EllipsizingLastFullyVisibleLine()
      reads this
    {
      FitsHeightMode(maxLines)
    }

    /** GetLinesCount over the view's current state: MaxLines as it is, or
        in fit-to-height mode a budget that is never -1. */
    function GetLinesCount(): (n: int)
      reads this
      requires EllipsizingLastFullyVisibleLine() ==> LineHeight() != 0
      ensures !EllipsizingLastFullyVisibleLine() ==> n == maxLines
      ensures EllipsizingLastFullyVisibleLine() ==> n != -1
    {
      LinesCount(maxLines, AvailableHeight(height, paddingTop, paddingBottom, lineDescender), LineHeight())
    }

    /** What ResetText needs and the source does not check: a full text,
        a non-zero line height when dividing by it, and a positive budget
        when the truncation path reads the end of line budget - 1. */
    ghost predicate CanResetText()
      reads this
    {
      && Valid()
      && fullText.Some?
      && (EllipsizingLastFullyVisibleLine() ==> LineHeight() != 0)
      && (!FitsIn(measurer, Params(), GetLinesCount(), fullText.value) ==> GetLinesCount() >= 1)
    }

    /** The text and state the next ResetText computes. */
    ghost function PendingResult(): Truncation
      reads this
      requires CanResetText()
    {
      Truncate(measurer, Params(), GetLinesCount(), fullText.value)
    }

    /** The effect of one ResetText: the computed text is displayed, set
        through SetText only when it differs from the current Text, without
        touching the full text; the view is no longer stale; and when the
        ellipsized state changed it is recorded and every registry entry hears
        the new value once, in registration order. */
    twostate predicate ResetTextDone()
      reads this
      requires old(CanResetText())
    {
      var r := old(PendingResult());
      && !isStale
      && !programmaticChange
      && text == r.displayedText
      && setTextLog == old(setTextLog) + (if r.displayedText != old(text) then [r.displayedText] else [])
      && fullText == old(fullText)
      && isEllipsized == r.ellipsized
      && notifications == old(notifications) + OnChange(old(listeners), old(isEllipsized), r.ellipsized)
    }

    /** AddEllipsizeListener (EllipsizingTextViewSharp.cs:63-70). */
    method AddEllipsizeListener(listener: Option<ListenerId>) returns (status: Status)
      requires Valid()
      modifies this`listeners
      ensures listener == None ==> status == NullPointerException && listeners == old(listeners)
      ensures listener != None ==> status == Ok && listeners == old(listeners) + [listener.value]
      ensures Valid()
    {
      if listener == None {
        return NullPointerException;
      }
      listeners := listeners + [listener.value];
      status := Ok;
    }

    /** RemoveEllipsizeListener (EllipsizingTextViewSharp.cs:72-75): the
        first equal entry goes; a null or unregistered listener is a no-op. */
    method RemoveEllipsizeListener(listener: Option<ListenerId>)
      requires Valid()
      modifies this`listeners
      ensures listener == None ==> listeners == old(listeners)
      ensures listener != None ==> listeners == RemoveFirst(old(listeners), listener.value)
      ensures Valid()
    {
      if listener != None {
        listeners := RemoveFirst(listeners, listener.value);
      }
    }

    /** IsEllipsized (EllipsizingTextViewSharp.cs:77-80). */
    method IsEllipsized() returns (ellipsized: bool)
      ensures ellipsized == isEllipsized
    {
      ellipsized := isEllipsized;
    }

    /** SetMaxLines (EllipsizingTextViewSharp.cs:82-87): always stale. */
    method SetMaxLines(maxlines: int)
      requires Valid()
      modifies this`maxLines, this`isStale
      ensures maxLines == maxlines && isStale
      ensures Valid()
    {
      maxLines := maxlines;
      isStale := true;
    }

    /** SetLineSpacing (EllipsizingTextViewSharp.cs:96-101): records the
        values for later layouts and leaves the staleness as it is. */
    method SetLineSpacing(add: real, mult: real)
      requires Valid()
      modifies this`lineAdditionalVerticalPadding, this`lineSpacingMultiplier
      ensures lineAdditionalVerticalPadding == add && lineSpacingMultiplier == mult
      ensures Valid()
    {
      lineAdditionalVerticalPadding := add;
      lineSpacingMultiplier := mult;
    }

    /** The host's SetText: the Text property changes and OnTextChanged
        follows. */
    method SetText(s: string)
      modifies this`text, this`setTextLog, this`fullText, this`isStale
      ensures text == s && setTextLog == old(setTextLog) + [s]
      ensures programmaticChange ==> fullText == old(fullText) && isStale == old(isStale)
      ensures !programmaticChange ==> fullText == Some(s) && isStale
      ensures old(Valid()) ==> Valid()
    {
      text := s;
      setTextLog := setTextLog + [s];
      OnTextChanged(s);
    }

    /** OnTextChanged (EllipsizingTextViewSharp.cs:103-111): a text change
        not made by ResetText becomes the full text and marks the view stale. */
    method OnTextChanged(s: string)
      modifies this`fullText, this`isStale
      ensures programmaticChange ==> fullText == old(fullText) && isStale == old(isStale)
      ensures !programmaticChange ==> fullText == Some(s) && isStale
      ensures old(Valid()) ==> Valid()
    {
      if programmaticChange == false {
        fullText := Some(s);
        isStale := true;
      }
    }

    /** OnSizeChanged (EllipsizingTextViewSharp.cs:113-120): stale only in
        fit-to-height mode. */
    method OnSizeChanged(w: int, h: int)
      requires Valid()
      modifies this`width, this`height, this`isStale
      ensures width == w && height == h
      ensures isStale == (old(isStale) || EllipsizingLastFullyVisibleLine())
      ensures Valid()
    {
      width, height := w, h;
      if EllipsizingLastFullyVisibleLine() {
        isStale := true;
      }
    }

    /** SetPadding (EllipsizingTextViewSharp.cs:122-129): stale only in
        fit-to-height mode. */
    method SetPadding(left: int, top: int, right: int, bottom: int)
      requires Valid()
      modifies this`paddingLeft, this`paddingTop, this`paddingRight, this`paddingBottom, this`isStale
      ensures paddingLeft == left && paddingTop == top && paddingRight == right && paddingBottom == bottom
      ensures isStale == (old(isStale) || EllipsizingLastFullyVisibleLine())
      ensures Valid()
    {
      paddingLeft, paddingTop, paddingRight, paddingBottom := left, top, right, bottom;
      if EllipsizingLastFullyVisibleLine() {
        isStale := true;
      }
    }

    /** SetTextSize (EllipsizingTextViewSharp.cs:140-149): the paint takes
        the new size, the descent of its font metrics (supplied by the host)
        is recorded, and the view is stale only in fit-to-height mode. */
    method SetTextSize(size: real, descent: int)
      requires Valid()
      modifies this`textSize, this`lineDescender, this`isStale
      ensures textSize == size && lineDescender == descent
      ensures isStale == (old(isStale) || EllipsizingLastFullyVisibleLine())
      ensures Valid()
    {
      textSize := size;
      lineDescender := descent;
      if EllipsizingLastFullyVisibleLine() {
        isStale := true;
      }
    }

    /** OnDraw (EllipsizingTextViewSharp.cs:131-138): recompute only when
        stale; a view that is not stale is left exactly as it is. */
    method OnDraw()
      requires Valid()
      requires isStale ==> CanResetText()
      modifies this`text, this`setTextLog, this`fullText, this`isStale,
               this`programmaticChange, this`isEllipsized, this`notifications
      ensures old(isStale) ==> ResetTextDone()
      ensures !old(isStale) ==> unchanged(this)
      ensures Valid()
    {
      if isStale {
        ResetText();
      }
    }

    /** ResetText (EllipsizingTextViewSharp.cs:151-196): compute the text
        to show, apply it, clear the staleness, and notify on a change of
        the ellipsized state. */
    method ResetText()
      requires CanResetText()
      modifies this`text, this`setTextLog, this`fullText, this`isStale,
               this`programmaticChange, this`isEllipsized, this`notifications
      ensures ResetTextDone()
      ensures Valid()
    {
      ghost var pending := PendingResult();
      var workingText, ellipsized := ComputeTruncation(measurer, Params(), GetLinesCount(), fullText.value);
      assert Truncation(workingText, ellipsized) == pending;
      ApplyText(workingText);
      isStale := false;
      NotifyIfChanged(ellipsized);
    }

    /** Lines 175-186 of ResetText: set the working text, under the guard,
        only when it differs from Text.  The guard makes the resulting
        OnTextChanged leave the full text and the staleness alone, and it is
        down again afterwards. */
    method ApplyText(workingText: string)
      requires !programmaticChange
      modifies this`text, this`setTextLog, this`fullText, this`isStale, this`programmaticChange
      ensures text == workingText
      ensures setTextLog == old(setTextLog) + (if workingText != old(text) then [workingText] else [])
      ensures fullText == old(fullText) && isStale == old(isStale) && !programmaticChange
    {
      if workingText != text {
        programmaticChange := true;
        SetText(workingText);
        programmaticChange := false;
      }
    }

    /** Lines 188-195 of ResetText: on a change of the ellipsized state,
        record the new state first, then call every registry entry once, in
        registration order, with it; each call sees the new state already
        recorded. */
    method NotifyIfChanged(ellipsized: bool)
      modifies this`isEllipsized, this`notifications
      ensures isEllipsized == ellipsized
      ensures notifications == old(notifications) + OnChange(listeners, old(isEllipsized), ellipsized)
    {
      if ellipsized != isEllipsized {
        isEllipsized := ellipsized;
        var i := 0;
        while i < |listeners|
          invariant 0 <= i <= |listeners|
          invariant notifications == old(notifications) + Notifications(listeners[..i], ellipsized)
          modifies this`notifications
        {
          assert listeners[..i + 1][..i] == listeners[..i];
          notifications := notifications + [Notification(listeners[i], ellipsized, isEllipsized)];
          i := i + 1;
        }
        assert listeners[..|listeners|] == listeners;
      }
    }
  }
}
