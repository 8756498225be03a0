# simple-progress: the progress-bar renderer in Dafny

This project models the drawing components of `simple-progress`, a Rust library that prints
progress indicators to a terminal.

- **The progress bar.** `ProgressBar::draw(progress, total)` turns a request into one line of
  text. It computes the filled length `floor(progress * bar_width / total)` in 64 bits. When
  `total` is 0 or that length exceeds `bar_width`, it switches to an error mode. Otherwise it
  pushes filled glyphs in steps of the filled glyph's column width `w` (1 or 2). It may replace
  the last filled glyph with an arrow. It then pads with empty glyphs over the remaining
  columns, and it wraps the whole in optional borders.
- **The builder.** `ProgressBarBuilder` holds a mutable configuration with defaults. It has one
  setter per field, and `build` checks the characters before it yields a bar.
- **Three small components.** The spinner shows frame `progress mod n`. The label returns its
  text. The labeled bar writes `bar ++ ": " ++ label`.

Files and modules:

- `progress_bar.dfy` (module `ProgressBars`) holds the specification function `Render` and the
  method `ProgressBar.Draw`. `Draw` runs the source's three `step_by` loops and
  `push`/`pop` steps. It is proved to return exactly `Render`'s text. `ProgressBarBuilder` is a
  class whose setters change the configuration in place.
- `progress_bar_properties.dfy` holds what the renderer promises, proved about `Render`:
  - when error mode applies;
  - glyph counts as ceiling divisions;
  - when the draw cannot underflow;
  - the arrow rule;
  - the empty and full bars;
  - framing by borders;
  - column widths;
  - scale invariance.
- `progress_bar_examples.dfy` holds the source's unit-test vectors.
- `spinner.dfy`, `label.dfy` and `group.dfy` hold the other components.
- `config.dfy` holds the configuration record. `columns.dfy` holds character and string column
  widths. `arith.dfy` holds ceiling division. `ints.dfy` and `wrappers.dfy` hold the
  fixed-width integers and `Option`.

Integers are unbounded in Dafny. The source's widths appear as the subset types `u16`, `u32`
and `u64`. So the model carries every conversion and subtraction that could overflow as a
proof obligation: the 64-bit product, the `u16::try_from`, `drawed_len += w` and
`bar_width - drawed_len`.

Where the specification and the code disagree, the model follows the code:

- **Error mode is not "progress exceeds total".** The code falls into error mode only when the
  floored quotient exceeds `bar_width`. With a three-column bar, `draw(11, 10)` computes
  `33 / 10 = 3` and draws a full bar `[===]`. `ProgressBarExamples.SlightOverrunDrawsFullBar`
  proves this. `ProgressBarProperties.ErrorModeCases` proves that progress past the total does
  give error mode whenever `total <= bar_width`.
- **No redraw manager.** The shown code has no redraw manager that tracks state or moves the
  cursor up. `ProgressManager` only prints.

## Model

| member | source | states |
|---|---|---|
| `ProgressBars.ProcessedLen` | src/components/progress_bar/progress_bar.rs:36-46 | The 64-bit product `progress * bar_width` cannot overflow. A defined processed length never exceeds `bar_width`, so the `u16::try_from(x).unwrap()` cannot fail. |
| `ProgressBarProperties.ProcessedLenIsFloor` | src/components/progress_bar/progress_bar.rs:38-46 | The length is defined iff `total > 0` and `progress*bar_width < total*(bar_width+1)`, i.e. iff the quotient is at most `bar_width`. When defined, it is the floor: `x*total <= progress*bar_width < (x+1)*total`. |
| `ProgressBarProperties.ErrorModeCases` | src/components/progress_bar/progress_bar.rs:38-46 | A zero total is error mode. A progress within a positive total is always drawn, and it is full (`= bar_width`) exactly at `progress == total` (or on a zero-width bar). A progress past a total no larger than the bar is error mode. |
| `ProgressBars.ProgressBar.BodyCharWidth` | src/components/progress_bar/progress_bar.rs:23-25 | The body step is the filled glyph's column width, 1 or 2. |
| `ProgressBars.ProgressBar.Height` | src/components/progress_bar/progress_bar.rs:29-31 | A bar is one row high. |
| `ProgressBars.ProgressBar.Draw` | src/components/progress_bar/progress_bar.rs:33-93 | Pushing the left border, the body loops with the arrow `pop`/`push`, and the right border returns exactly `Render(config, w, progress, total)`, for every request that does not panic. |
| `ProgressBars.PushBody` | src/components/progress_bar/progress_bar.rs:56-85 | The match on the processed length appends the drawn body (fill, arrow, empty glyphs) or the error body. |
| `ProgressBars.PushFilled` | src/components/progress_bar/progress_bar.rs:58-64 | The fill loop pushes `ceil(p/w)` filled glyphs. It leaves `drawed_len = w*ceil(p/w)`, and `drawed_len` never overflows `u16` when the result fits. |
| `ProgressBars.PushSteps` | src/components/progress_bar/progress_bar.rs:75-77 | `for _ in (0..n).step_by(w) { s.push(c) }` appends exactly `ceil(n/w)` copies of `c`. The error loop at lines 81-83 uses it too. |
| `ProgressBarProperties.FilledColumnsIsLeastMultiple` | src/components/progress_bar/progress_bar.rs:58-64 | `drawed_len` is the least multiple of `w` that covers the processed length: `p <= drawed_len < p + w`. |
| `ProgressBars.NoPanicWhenWidthDivides` | src/components/progress_bar/progress_bar.rs:58-77 | If `w` divides `bar_width`, then `drawed_len <= bar_width` for every request, so `bar_width - drawed_len` never underflows. |
| `ProgressBarProperties.FullDrawPanicsIffIndivisible` | src/components/progress_bar/progress_bar.rs:58-77 | A full request (`progress == total > 0`) draws without panicking iff `w` divides `bar_width`. |
| `ProgressBarProperties.OddWidthBarPanics` | src/components/progress_bar/progress_bar.rs:58-77 | A bar that passes the character check, with a 2-column fill over 3 columns, panics on `draw(3, 3)`. |
| `ProgressBars.ProgressBarBuilder.BuildChecked` | src/components/progress_bar/progress_bar.rs:137-143 | A checked `build` yields a bar iff `w` divides `bar_width`. Every bar it yields draws every `(progress, total)` without panicking. |
| `ProgressBarProperties.BodyGlyphCount` | src/components/progress_bar/progress_bar.rs:58-77 | The fill loop yields `ceil(p/w)` glyphs, the arrow included. With `w` dividing `bar_width`, the whole body (filled, arrow and empty) is exactly `bar_width / w` glyphs. |
| `ProgressBarProperties.ArrowRule` | src/components/progress_bar/progress_bar.rs:66-72 | The first `ceil(p/w)-1` glyphs are filled. The last filled glyph is the arrow iff the arrow is set, `p != bar_width` and `p >= w`. Every later glyph is empty. With an arrow distinct from the fill, the filled part differs from plain fill exactly when that rule holds. |
| `ProgressBarProperties.CompleteIsAllFilled` | src/components/progress_bar/progress_bar.rs:67-77 | At `progress == total > 0` (with `w` dividing `bar_width`), the body is `bar_width / w` filled glyphs, with no arrow and no empty glyph. |
| `ProgressBarProperties.ZeroProgressIsAllEmpty` | src/components/progress_bar/progress_bar.rs:58-77 | At `progress == 0` with a positive total, the body is `ceil(bar_width/w)` empty glyphs, with no filled glyph and no arrow. |
| `ProgressBarProperties.ErrorModeIsUniform` | src/components/progress_bar/progress_bar.rs:79-84 | Every error-mode request renders the same text, whatever the progress and total: the borders around `ceil(bar_width/w)` error glyphs. |
| `ProgressBarProperties.Framing` | src/components/progress_bar/progress_bar.rs:48-53 | The output starts with the left border and ends with the right border when they are set. Its length is the body's length plus one per border. Every character is a configured one, so a valid configuration never draws a newline. |
| `ProgressBarProperties.ScaleInvariance` | src/components/progress_bar/progress_bar.rs:38-39 | `draw(p*k, t*k) == draw(p, t)` for every `k > 0` that keeps both in `u32`. |
| `ProgressBarProperties.BodyColumns` | src/components/progress_bar/progress_bar.rs:56-85 | Suppose every glyph is `w` columns wide. Then every body, drawn or error, spans `bar_width` rounded up to a multiple of `w`, which is exactly `bar_width` when `w` divides it. |
| `ProgressBarProperties.DrawnBodyColumns` | src/components/progress_bar/progress_bar.rs:58-77 | A drawn body of `w`-wide glyphs spans `w*ceil(bar_width/w)` columns. |
| `ProgressBarProperties.FillColumns` | src/components/progress_bar/progress_bar.rs:58-72 | Filled glyphs and arrow together span `drawed_len` columns. |
| `ProgressBarProperties.RenderColumns` | src/components/progress_bar/progress_bar.rs:48-92 | For `0 <= progress <= total`, `total > 0`, uniform glyph width `w` and `w` dividing `bar_width`, the output spans exactly `bar_width` columns plus its borders. |
| `ProgressBarProperties.DefaultBarNeverPanics` | src/components/progress_bar/progress_bar.rs:97-109 | The default configuration passes the character check, has a 1-column fill, and draws every request without panicking. |
| `ProgressBars.NewProgressBar` | src/components/progress_bar/progress_bar.rs:19-21 | `ProgressBar::new` yields a bar with the builder's defaults. |
| `ProgressBars.ProgressBarBuilder.constructor` | src/components/progress_bar/progress_bar.rs:97-109 | The defaults are `'='`, `' '`, `Some('>')`, `Some('[')`, `Some(']')`, `'?'` and width 16. |
| `ProgressBars.ProgressBarBuilder.SetFilled` | src/components/progress_bar/progress_bar.rs:111-114 | Sets `filled` and leaves every other field unchanged. Returns the builder for chaining. |
| `ProgressBars.ProgressBarBuilder.SetEmpty` | src/components/progress_bar/progress_bar.rs:116-119 | As written: sets `filled` and leaves `empty` and every other field unchanged. |
| `ProgressBars.ProgressBarBuilder.SetEmptyCorrected` | src/components/progress_bar/progress_bar.rs:116-119 | The intended setter: sets `empty` and leaves every other field unchanged. |
| `ProgressBars.ProgressBarBuilder.SetArrow` | src/components/progress_bar/progress_bar.rs:121-124 | Sets `arrow` and leaves every other field unchanged. |
| `ProgressBars.ProgressBarBuilder.SetBorder` | src/components/progress_bar/progress_bar.rs:126-130 | Sets both borders and leaves every other field unchanged. |
| `ProgressBars.ProgressBarBuilder.SetBarWidth` | src/components/progress_bar/progress_bar.rs:132-135 | Sets `bar_width` and leaves every other field unchanged. |
| `ProgressBars.ProgressBarBuilder.Build` | src/components/progress_bar/progress_bar.rs:137-143 | A configuration whose characters are all one or two columns wide becomes a bar with exactly that configuration. |
| `ProgressBarProperties.SetEmptySetsFilled` | src/components/progress_bar/progress_bar.rs:116-119 | After `new().set_empty('-')`, the filled glyph is `'-'` and the empty glyph is still `' '`. |
| `ProgressBarProperties.SetEmptyCorrectedSetsEmpty` | src/components/progress_bar/progress_bar.rs:116-119 | After the corrected setter, the empty glyph is `'-'` and the filled glyph is still `'='`. |
| `ProgressBarExamples.ExampleFillWidths` | src/components/progress_bar/progress_bar.rs:160-192 | The ASCII test bar has a 1-column fill. The full-width test bar has a 2-column fill. |
| `ProgressBarExamples.AsciiBarEmpty` | src/components/progress_bar/progress_bar.rs:172 | `draw(0,3) == "[   ]"`. |
| `ProgressBarExamples.AsciiBarArrowOnly` | src/components/progress_bar/progress_bar.rs:173 | `draw(1,3) == "[>  ]"`. |
| `ProgressBarExamples.AsciiBarArrowAfterFill` | src/components/progress_bar/progress_bar.rs:174 | `draw(2,3) == "[=> ]"`. |
| `ProgressBarExamples.AsciiBarFull` | src/components/progress_bar/progress_bar.rs:175 | `draw(3,3) == "[===]"`. |
| `ProgressBarExamples.AsciiBarErrorsAndScaling` | src/components/progress_bar/progress_bar.rs:177-180 | `draw(4,3) == draw(3,0) == "[???]"` and `draw(1,3) == draw(3,9)`. |
| `ProgressBarExamples.FullWidthBarAt0Of5` | src/components/progress_bar/progress_bar.rs:194 | Three full-width spaces. |
| `ProgressBarExamples.FullWidthBarAt1Of5` | src/components/progress_bar/progress_bar.rs:195 | One full-width tilde, then two full-width spaces. |
| `ProgressBarExamples.FullWidthBarAt2Of5` | src/components/progress_bar/progress_bar.rs:196 | One full-width tilde, then two full-width spaces. |
| `ProgressBarExamples.FullWidthBarAt3Of5` | src/components/progress_bar/progress_bar.rs:197 | Two full-width tildes, then one full-width space. |
| `ProgressBarExamples.FullWidthBarAt4Of5` | src/components/progress_bar/progress_bar.rs:198 | Two full-width tildes, then one full-width space. |
| `ProgressBarExamples.FullWidthBarAt5Of5` | src/components/progress_bar/progress_bar.rs:199 | Three full-width tildes. |
| `ProgressBarExamples.FullWidthBarErrors` | src/components/progress_bar/progress_bar.rs:201-202 | `draw(6,5)` and `draw(6,0)` are three full-width exclamation marks. |
| `ProgressBarExamples.SlightOverrunDrawsFullBar` | src/components/progress_bar/progress_bar.rs:38-46 | `draw(11,10)` on the three-column bar is the full bar `[===]`, not error mode. |
| `ProgressBarExamples.NarrowEmptyUnderWideFill` | src/components/progress_bar/progress_bar.rs:74-77 | Empty glyphs step by the filled glyph's width. A 1-column empty glyph under a 2-column fill draws `"___"`, which spans 3 of the 6 columns. |
| `Spinners.SpinnerComponent.Draw` | src/components/spinner.rs:16-25 | With no frames the result is `""`. Otherwise it is frame number `progress mod n`, where `n` is the number of frames, and so it is always one of the frames. |
| `Spinners.FromStr` | src/components/spinner.rs:8-12 | One single-character frame per character of the string, in order. |
| `Spinners.DrawIgnoresTotal` | src/components/spinner.rs:16 | The total does not affect the frame. |
| `Spinners.DrawIsPeriodic` | src/components/spinner.rs:21-24 | `draw(p + n, t) == draw(p, t)` for `n` frames. |
| `Spinners.FromStrDraw` | src/components/spinner.rs:8-24 | A spinner built from a non-empty string `s` draws the one-character string of `s` at index `p mod len(s)`. |
| `Spinners.SpinnerExamples` | src/components/spinner.rs:36-42 | `"1234"` draws `1, 2, 3, 4, 1` at progress 0 to 4. |
| `Labels.Label.Height` | src/components/label/label.rs:10-12 | A label is one row high. |
| `Labels.Label.Draw` | src/components/label/label.rs:14-16 | Returns exactly the stored text. |
| `Labels.DrawIsConstant` | src/components/label/label.rs:14-16 | Every request draws the same text. |
| `Groups.LabeledProgressBar.Height` | src/components/group/mod.rs:10-12 | A labeled bar is one row high. |
| `Groups.LabeledProgressBar.Draw` | src/components/group/mod.rs:14-20 | Returns the bar's `Render` text, then `": "`, then the label's text. |
| `Groups.TextLayout` | src/components/group/mod.rs:15-19 | The line's length is the bar text's length + 2 + the label's length. The prefix is the bar's text. The suffix is always `": " ++ label`, whatever the request, error mode included. |

## Left out

- The `Component` trait (src/components/component.rs) is not a Dafny trait. Each variant has its own `Draw(progress, total)` and, except the spinner, its own `Height()`. These have the trait's signatures.
- Character widths come from the `unicode_width` crate in the source. `Columns.CharWidth` is a simplified East Asian Width table in its place. The renderer's lemmas hold for any fill width `w > 0`. The column lemmas hold for any width function.
- `check_invalid_chars` is not part of this model. `BarConfig.ValidChars` is what it accepts: every present character is one or two columns wide. `Build` requires it, because the source's `unwrap` panics otherwise. The error value that lists the bad characters is not modelled.
- Panics are preconditions, not behaviour. `Draw` requires the filled glyph to be one or two columns wide, because of `unwrap` and `step_by(0)`. It also requires `DrawDoesNotPanic`, because of the `u16` overflow and underflow on `drawed_len`. A release build would wrap instead.
- Rust's `String` is modelled as a sequence of characters. Its UTF-8 byte layout is not modelled; `pop` removes one character.
- `ProgressManager` (src/core/progress_manager/progress_manager.rs) is left out. It only prints escape sequences and flushes stdout.
- `src/components/mod.rs` is module wiring. The `timer` module it names is not part of this model.
- The spinner has no `height` in the source, so none is modelled.
- `ProgressBars.ProgressBar.Draw`, `PushBody`, `PushFilled` and `PushSteps` are stated for the requests that do not panic.

## Findings

| source | as written | input that shows it | evidently intended | confidence | as-written member | corrected member |
|---|---|---|---|---|---|---|
| src/components/progress_bar/progress_bar.rs:116-119 | `set_empty` assigns `config.filled` | `ProgressBarBuilder::new().set_empty('-')`: the filled glyph becomes `'-'` and the empty glyph stays `' '` | `set_empty` sets `config.empty` | high; not executed | `ProgressBarProperties.SetEmptySetsFilled` | `ProgressBars.ProgressBarBuilder.SetEmptyCorrected` |
| src/components/progress_bar/progress_bar.rs:58-77 | the fill loop steps by `w` past `bar_width` when `w` does not divide it, so `bar_width - drawed_len` underflows | filled `'～'` (2 columns), bar width 3, `draw(3, 3)`: `drawed_len` is 4 | every bar that `build` accepts draws every `(progress, total)` | medium; not executed | `ProgressBarProperties.OddWidthBarPanics` | `ProgressBars.ProgressBarBuilder.BuildChecked` |
