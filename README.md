# EllipsizingTextView in Dafny

`EllipsizingTextView` is an Android `TextView` that shows as much of its text as fits in a line budget. When the text is too long, it cuts the text at a word boundary and ends it with an ellipsis (U+2026). The budget is either an explicit `MaxLines` or, by default, the number of lines whose full height fits in the view. The view recomputes its text lazily: mutators mark it stale, and the next `OnDraw` recomputes. Registered listeners hear about each change of the ellipsized state.

The model has three parts:

- **Truncation engine** (modules `Strings`, `EndPunctuation`, `LineBudget`, `Truncation`).
  - `Truncate` is a function that specifies what `ResetText` computes.
  - `ComputeTruncation` is the method with the source's word-shrink `while` loop. It is proved equal to `Truncate`.
  - .NET `String.Trim()` and `String.LastIndexOf(char)`, the default end-punctuation pattern and C#'s truncating integer division are written out explicitly.
  - The Android `StaticLayout` is an abstract measurer (module `Measurer`): three deterministic functions giving a text's line count, each line's end offset and each line's bottom, under fixed layout parameters.
- **Staleness controller** (module `View`). Class `EllipsizingTextView` has the source's fields and one method per host callback. `OnDraw` recomputes only when stale. `ResetText` applies its text under the `_programmaticChange` guard and notifies the listeners.
- **Listener registry** (modules `Listeners`, `View`).
  - Listeners are ids in an ordered sequence.
  - A null listener is `None`, and the `NullPointerException` it causes is a returned status.
  - Every listener call is recorded in a ghost log. Each entry holds the id, the value passed, and the state `IsEllipsized()` reports during the call.

Module `Scenarios` works one truncation through by hand. It uses a concrete measurer that wraps every ten characters.

Points where the code is easy to misread:

- The first cut is trimmed at both ends (`Trim()`), not only at the end.
  - As a result, the displayed text need not be a prefix of the full text (when the full text starts with white space).
  - The displayed text minus the ellipsis is a slice that starts after the full text's leading white space (`TruncatedTextComesFromFullText`).
- Only a fully visible line count of exactly -1 is replaced by 1. A count of 0 passes through (`FitBudgetZero`).
- `SetLineSpacing` records the spacing values but does not mark the view stale.
- `OnSizeChanged`, `SetPadding` and `SetTextSize` mark the view stale only in fit-to-height mode, even though a width change affects wrapping in explicit `MaxLines` mode too.

## Model

| member | source | states |
|---|---|---|
| Strings.IsWhiteSpace | EllipsizingTextViewSharp.cs:160 | the characters .NET `Char.IsWhiteSpace` accepts, which `Trim()` removes: U+0009..U+000D, U+0085 and the Unicode space, line and paragraph separators |
| Strings.LeadingWhiteSpace | EllipsizingTextViewSharp.cs:160 | the length of the leading white-space run, which stops at a character that is not white space |
| Strings.LeadingIsWhiteSpace | EllipsizingTextViewSharp.cs:160 | every character of the leading run is white space |
| Strings.TrailingWhiteSpace | EllipsizingTextViewSharp.cs:160 | the length of the trailing white-space run, which stops at a character that is not white space |
| Strings.TrailingIsWhiteSpace | EllipsizingTextViewSharp.cs:160 | every character of the trailing run is white space |
| Strings.Trim | EllipsizingTextViewSharp.cs:160 | `Trim()` keeps the slice of the text that starts after the leading white space; the result neither starts nor ends with white space |
| Strings.TrimDropsOnlyWhiteSpace | EllipsizingTextViewSharp.cs:160 | everything `Trim()` removes after the kept slice is white space |
| Strings.TrimIdempotent | EllipsizingTextViewSharp.cs:160 | trimming twice equals trimming once |
| Strings.LeadingOfExtension | EllipsizingTextViewSharp.cs:160 | extending a text that is not all white space keeps its leading white space |
| Strings.TrimOfPrefix | EllipsizingTextViewSharp.cs:160 | the trimmed first cut is a slice of the full text that starts after the full text's own leading white space |
| Strings.LastIndexOf | EllipsizingTextViewSharp.cs:163 | `LastIndexOf(' ')` is -1 or the index of a space, and no space comes after it |
| Strings.LastIndexOfAbsent | EllipsizingTextViewSharp.cs:163-167 | `LastIndexOf` is -1 exactly when the text has no space, which is the loop's `break` case |
| EndPunctuation.IsEndPunctuation | EllipsizingTextViewSharp.cs:16 | the pattern's class `[\.,…;\:\s]`: the four punctuation marks, the ellipsis, and `\s` as the Unicode White_Space set |
| EndPunctuation.TrailingEndPunctuation | EllipsizingTextViewSharp.cs:16 | the length of the maximal trailing run of `. , … ; :` and regex `\s` characters |
| EndPunctuation.TrailingIsEndPunctuation | EllipsizingTextViewSharp.cs:16 | every character of that run is in the pattern's class |
| EndPunctuation.StripEndPunctuation | EllipsizingTextViewSharp.cs:171 | `ReplaceFirst("")` with the default pattern keeps a prefix, and the result does not end in a class character |
| EndPunctuation.StripRemovesOnlyEndPunctuation | EllipsizingTextViewSharp.cs:171 | the strip removes class characters only, so it removes exactly the maximal trailing run |
| EndPunctuation.StripKeepsCleanText | EllipsizingTextViewSharp.cs:171 | a text that does not end in a class character is left unchanged |
| EndPunctuation.StripIdempotent | EllipsizingTextViewSharp.cs:171 | stripping again changes nothing |
| LineBudget.TruncDiv | EllipsizingTextViewSharp.cs:221 | C# `/` on `int`: the quotient's magnitude is the floor of the magnitudes' quotient, and its sign is the product of the operands' signs (truncation toward zero) |
| Measurer.FitsIn | EllipsizingTextViewSharp.cs:157 | a text fits the budget exactly when its layout has no more lines than the budget (`layout.LineCount > linesCount` is the failing case) |
| LineBudget.FitsHeightMode | EllipsizingTextViewSharp.cs:91-94 | fit-to-height mode is selected exactly when `MaxLines` is `int.MaxValue` |
| LineBudget.AvailableHeight | EllipsizingTextViewSharp.cs:218-219 | the height left for text is `Height - PaddingTop - PaddingBottom` less the font descent |
| LineBudget.FullyVisibleLines | EllipsizingTextViewSharp.cs:215-222 | `GetFullyVisibleLinesCount`: the available height divided by the line height with C# truncation; it never counts more lines than the height holds, and it is not negative when the available height is non-negative and the line height positive |
| LineBudget.LinesCount | EllipsizingTextViewSharp.cs:201-210 | `GetLinesCount`: `MaxLines` as it is outside fit-to-height mode (:209); in that mode never -1, and different from the fully visible count only when that count is -1, which becomes 1 |
| LineBudget.FullyVisibleLinesFit | EllipsizingTextViewSharp.cs:215-222 | with a non-negative available height, n = available / lineHeight is a count of whole lines: n lines fit and n + 1 do not |
| LineBudget.FitBudgetZero | EllipsizingTextViewSharp.cs:201-222 | in fit-to-height mode the budget is 0 exactly when the available height is strictly between minus one and one line height, because 0 is not clamped |
| LineBudget.FitBudgetPositive | EllipsizingTextViewSharp.cs:201-222 | in fit-to-height mode the budget is at least 1 exactly when one whole line fits or the quotient is -1, the case replaced by 1 |
| Truncation.FitsWithEllipsis | EllipsizingTextViewSharp.cs:161 | the loop guard: the candidate with the ellipsis appended fits the budget |
| Truncation.Shrink | EllipsizingTextViewSharp.cs:161-169 | the shrink loop's outcome is a prefix of the cut, shortened only at a space; the candidate plus the ellipsis fits, or the candidate contains no space |
| Truncation.ShrinkIsGreedy | EllipsizingTextViewSharp.cs:161-169 | the loop never backtracks: every longer cut at a space, and the cut itself when shortened, does not fit with the ellipsis |
| Truncation.FirstCut | EllipsizingTextViewSharp.cs:160 | the full text up to the end of line budget - 1, trimmed: it neither starts nor ends with white space and, unless empty, is the slice of the full text that starts right after the full text's leading white space |
| Truncation.FirstCutWithinBudgetLines | EllipsizingTextViewSharp.cs:160 | the first cut, placed after the full text's leading white space, ends no later than the end of line budget - 1 |
| Truncation.Truncate | EllipsizingTextViewSharp.cs:151-174 | ellipsized exactly when the full text does not fit the budget; otherwise the full text unchanged; when ellipsized, the text ends in U+2026 |
| Truncation.ComputeTruncation | EllipsizingTextViewSharp.cs:151-174 | the method with the source's loop computes exactly `Truncate` (the loop terminates, because each pass cuts at the last space) |
| Truncation.NoTruncationWhenFits | EllipsizingTextViewSharp.cs:153-157 | when the full text fits, the result is the full text, not ellipsized |
| Truncation.TruncatedShape | EllipsizingTextViewSharp.cs:160-173 | a truncated text is `strip(c) + "…"` for a prefix `c` of the trimmed first cut that fits with the ellipsis or holds no space |
| Truncation.TruncatedEndsCleanly | EllipsizingTextViewSharp.cs:171-173 | the text before the ellipsis does not end in end punctuation |
| Truncation.TruncatedTextComesFromFullText | EllipsizingTextViewSharp.cs:160-173 | the text before the ellipsis is a slice of the full text that starts right after its leading white space |
| Scenarios.WordDroppedAndPunctuationStripped | EllipsizingTextViewSharp.cs:151-174 | with ten characters per line and a budget of 2, "The quick, brownish; fox jumps" becomes "The quick…" (word dropped, comma stripped) |
| Scenarios.VerticalTabIsStripped | EllipsizingTextViewSharp.cs:16 | the default pattern strips a trailing comma followed by U+000B, because `\s` includes U+000B |
| Listeners.IndexOf | EllipsizingTextViewSharp.cs:74 | the position of the first equal entry, or the length when there is none |
| Listeners.RemoveFirst | EllipsizingTextViewSharp.cs:72-75 | `List.Remove` takes out one occurrence, or does nothing when the listener is absent |
| Listeners.RemoveFirstShape | EllipsizingTextViewSharp.cs:72-75 | the occurrence removed is the first one, and the order of the others is kept |
| Listeners.AddThenRemove | EllipsizingTextViewSharp.cs:63-75 | removing a listener not already registered, right after adding it, gives back the registry as it was |
| Listeners.OnChange | EllipsizingTextViewSharp.cs:188-194 | listeners are called only when the new result differs from the recorded state, and then once per registry entry with the new value; otherwise no call is made |
| Listeners.Notifications | EllipsizingTextViewSharp.cs:191-194 | one `foreach` makes one call per registry entry, in registration order, each passed the new value while `IsEllipsized()` already reports it; a listener registered twice is called twice |
| Listeners.PassLogLength | EllipsizingTextViewSharp.cs:188-195 | over a run of recomputations, each registry entry is called once per change of the ellipsized state |
| Listeners.RepeatedResultNotifiesOnce | EllipsizingTextViewSharp.cs:188-195 | repeating the same result notifies only on the first pass, and not at all if it matches the current state |
| Listeners.ToggleTwice | EllipsizingTextViewSharp.cs:188-195 | false, then true, then false calls each registry entry with true and then with false |
| View.EllipsizingTextView.constructor | EllipsizingTextViewSharp.cs:47-56 | defaults: `MaxLines = int.MaxValue` (fit-to-height mode), stale, no listeners, no full text, spacing 1.0 and 0.0; the host's text, size, padding and text size are taken as given |
| View.EllipsizingTextView.AddEllipsizeListener | EllipsizingTextViewSharp.cs:63-70 | a null listener fails with `NullPointerException` and leaves the registry unchanged; otherwise the listener is appended |
| View.EllipsizingTextView.RemoveEllipsizeListener | EllipsizingTextViewSharp.cs:72-75 | removes the first equal entry; a null or absent listener leaves the registry unchanged |
| View.EllipsizingTextView.EllipsizingLastFullyVisibleLine | EllipsizingTextViewSharp.cs:91-94 | the view is in fit-to-height mode exactly when its `MaxLines` is `int.MaxValue` |
| View.EllipsizingTextView.Params | EllipsizingTextViewSharp.cs:224-230 | `CreateWorkingLayout`'s parameters: wrap width `Width - PaddingLeft - PaddingRight`; the paint's text size and both spacing values passed through as they are |
| View.EllipsizingTextView.LineHeight | EllipsizingTextViewSharp.cs:217-220 | the line height is the bottom of line 0 of the empty text's layout under the view's current parameters |
| View.EllipsizingTextView.GetLinesCount | EllipsizingTextViewSharp.cs:201-222 | the budget from the view's fields: `MaxLines` as it is, or in fit-to-height mode a budget that is never -1 |
| View.EllipsizingTextView.IsEllipsized | EllipsizingTextViewSharp.cs:77-80 | returns the recorded ellipsized state |
| View.EllipsizingTextView.SetMaxLines | EllipsizingTextViewSharp.cs:82-87 | records `MaxLines` and always marks the view stale |
| View.EllipsizingTextView.SetLineSpacing | EllipsizingTextViewSharp.cs:96-101 | records both spacing values and nothing else, so the staleness stays as it was |
| View.EllipsizingTextView.SetText | EllipsizingTextViewSharp.cs:180 | the host sets `Text`, and `OnTextChanged` runs with the new text |
| View.EllipsizingTextView.OnTextChanged | EllipsizingTextViewSharp.cs:103-111 | outside the guard, the text becomes the full text and the view is stale; under the guard, both stay unchanged |
| View.EllipsizingTextView.OnSizeChanged | EllipsizingTextViewSharp.cs:113-120 | records the size; stale afterwards exactly when stale before or in fit-to-height mode |
| View.EllipsizingTextView.SetPadding | EllipsizingTextViewSharp.cs:122-129 | records the padding; stale afterwards exactly when stale before or in fit-to-height mode |
| View.EllipsizingTextView.SetTextSize | EllipsizingTextViewSharp.cs:140-149 | records the size and the font descent; stale afterwards exactly when stale before or in fit-to-height mode |
| View.EllipsizingTextView.OnDraw | EllipsizingTextViewSharp.cs:131-138 | a stale view gets one full `ResetText`; a view that is not stale is left exactly as it was |
| View.EllipsizingTextView.ResetText | EllipsizingTextViewSharp.cs:151-196 | shows `Truncate` of the full text under the current budget; calls `SetText` only for a different text; leaves the full text alone; clears the staleness and the guard; notifies every registry entry only on a change of the ellipsized state, after recording it |
| View.EllipsizingTextView.ApplyText | EllipsizingTextViewSharp.cs:175-186 | `SetText` is called only when the text differs; under the guard, the full text and the staleness are untouched, and the guard is down again afterwards |
| View.EllipsizingTextView.NotifyIfChanged | EllipsizingTextViewSharp.cs:188-195 | only when the state changed: records the new state, then makes one call per registry entry, in order, with it; every call sees the new state already recorded |

## Left out

- `StaticLayout`, `Paint`, `Canvas` and the `base.*` calls are host code. The layout is an abstract measurer whose end offsets are assumed to lie inside the text (`WellFormed`). Drawing itself is not modelled.
- Floating-point values are opaque. The line-spacing values and the text size are passed to the measurer untouched, and the model does no arithmetic on them.
- `SetTextSize` takes the font descent as a parameter. The unit conversion and the `GetFontMetricsInt()` lookup (:142-144) are host code.
- `SetEndPunctuationPattern` (:58-61) and general regular expressions are out of scope. Only the default pattern is modelled, as the character-class strip it performs.
- `\s` in the end-punctuation pattern is taken as ICU's implementation of it, the Unicode White_Space property. That is the same set as .NET `Char.IsWhiteSpace`, and it includes U+000B and U+0085. ICU's documentation describes `\s` as the narrower `[\t\n\f\r\p{Z}]`; the model follows the implementation. Every line terminator is in this set, so the match of `$` before a final line terminator never changes what is removed.
- Text is modelled as a sequence of Unicode characters. C# strings are sequences of UTF-16 code units, so for text outside the Basic Multilingual Plane the measurer's line-end offsets and the `Substring`/`LastIndexOf` indices count different units than the model does.
- LineBudget.TruncDiv: 32-bit overflow is not modelled. That covers `Height - PaddingTop - PaddingBottom - descent` wrapping around and `int.MinValue / -1`. Integers are unbounded.
- View.EllipsizingTextView.ResetText: requires a full text, a non-zero line height in fit-to-height mode, and a budget of at least 1 when the text does not fit. The source does not guard these cases; it would throw on a null `_fullText`, divide by zero, or read line -1.
- View.EllipsizingTextView.OnDraw: requires the same when the view is stale, for the same reason.
- The exception path of the `try`/`finally` around `SetText` (:178-185) is left out. The host's `SetText` is modelled as not throwing.
- Listener callbacks are calls into code that cannot be seen here. Each call is recorded in the ghost log together with the state `IsEllipsized()` reports during it. Re-entrant callbacks that change the view or the registry during the `foreach` are not modelled.
- Listeners are compared by identity. `List<T>.Remove` (:74) compares with `EqualityComparer<T>.Default`, which calls the listener's `Equals`. A listener class that overrides `Equals`, so that two distinct listeners compare equal, is not modelled.
- The constructor's style attributes (:51) are left out. They change nothing the model observes.
- `base.Ellipsize = null` (:50) turns off the platform's own ellipsizing, which is rendering; the `Ellipsize` override (:232-238) is a no-op. Neither changes what the model observes.
- Any `OnTextChanged` the base TextView may fire during its own construction, before this view's fields are set, is not modelled: the model's view starts with no full text and with the host's text as given.
- Idempotence of truncation (recomputing on the view's own output) and monotonicity in the budget are not proved. Both depend on how the real layout measures text, beyond the abstract measurer's contract.
