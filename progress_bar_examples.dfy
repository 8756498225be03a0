/** The renderer's unit-test vectors (progress_bar.rs, `test_draw`) and two edge cases, as
    facts about `Render`; `ProgressBar.Draw` returns `Render`'s text. */
module ProgressBarExamples {
  import opened Wrappers
  import opened Columns
  import opened BarConfig
  import opened ProgressBars

  const AsciiBar: Config := Config('=', ' ', Some('>'), Some('['), Some(']'), '?', 3)

  const FullWidthBar: Config := Config('\U{FF5E}', '\U{3000}', None, None, None, '\U{FF01}', 6)

  /** The renderer's unit-test vectors for a three-column ASCII bar: filling up. */
  lemma AsciiBarEmpty()
    ensures Render(AsciiBar, 1, 0, 3) == "[   ]"
  {
  }

  lemma AsciiBarArrowOnly()
    ensures Render(AsciiBar, 1, 1, 3) == "[>  ]"
  {
  }

  lemma AsciiBarArrowAfterFill()
    ensures Render(AsciiBar, 1, 2, 3) == "[=> ]"
  {
  }

  lemma AsciiBarFull()
    ensures Render(AsciiBar, 1, 3, 3) == "[===]"
  {
  }

  /** The test bars' fill widths. */
  lemma ExampleFillWidths()
    ensures ProgressBar(AsciiBar).BodyCharWidth() == 1
    ensures ProgressBar(FullWidthBar).BodyCharWidth() == 2
  {
  }

  /** Over 100% and a zero total both draw the error glyphs; 1/3 and 3/9 draw alike. */
  lemma AsciiBarErrorsAndScaling()
    ensures Render(AsciiBar, 1, 4, 3) == "[???]"
    ensures Render(AsciiBar, 1, 3, 0) == "[???]"
    ensures Render(AsciiBar, 1, 1, 3) == Render(AsciiBar, 1, 3, 9)
  {
  }

  /** The renderer's unit-test vectors for a six-column bar of full-width glyphs. */
  lemma FullWidthBarAt0Of5()
    ensures Render(FullWidthBar, 2, 0, 5) == "\U{3000}\U{3000}\U{3000}"
  {
  }

  lemma FullWidthBarAt1Of5()
    ensures Render(FullWidthBar, 2, 1, 5) == "\U{FF5E}\U{3000}\U{3000}"
  {
  }

  lemma FullWidthBarAt2Of5()
    ensures Render(FullWidthBar, 2, 2, 5) == "\U{FF5E}\U{3000}\U{3000}"
  {
  }

  lemma FullWidthBarAt3Of5()
    ensures Render(FullWidthBar, 2, 3, 5) == "\U{FF5E}\U{FF5E}\U{3000}"
  {
  }

  lemma FullWidthBarAt4Of5()
    ensures Render(FullWidthBar, 2, 4, 5) == "\U{FF5E}\U{FF5E}\U{3000}"
  {
  }

  lemma FullWidthBarAt5Of5()
    ensures Render(FullWidthBar, 2, 5, 5) == "\U{FF5E}\U{FF5E}\U{FF5E}"
  {
  }

  lemma FullWidthBarErrors()
    ensures Render(FullWidthBar, 2, 6, 5) == "\U{FF01}\U{FF01}\U{FF01}"
    ensures Render(FullWidthBar, 2, 6, 0) == "\U{FF01}\U{FF01}\U{FF01}"
  {
  }

  /** Progress a little past the total still draws a full bar when the overshoot does not
      reach a whole column: 11 of 10 on a three-column bar. */
  lemma SlightOverrunDrawsFullBar()
    ensures DrawDoesNotPanic(AsciiBar, 1, 11, 10)
    ensures Render(AsciiBar, 1, 11, 10) == "[===]"
  {
  }

  /** The empty glyph steps by the FILLED glyph's width: a single-column empty glyph under a
      double-column fill covers only half of an empty bar. */
  lemma NarrowEmptyUnderWideFill()
    ensures Render(FullWidthBar.(empty := '_'), 2, 0, 5) == "___"
    ensures ColumnWidth(Render(FullWidthBar.(empty := '_'), 2, 0, 5), Width) == 3
  {
    assert Render(FullWidthBar.(empty := '_'), 2, 0, 5) == Repeat('_', 3);
    ColumnWidthRepeat('_', 3, Width);
  }
}
