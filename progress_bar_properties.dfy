/** What the renderer promises, proved about its specification `Render`. */
module ProgressBarProperties {
  import opened Wrappers
  import opened Ints
  import opened Arith
  import opened Columns
  import opened BarConfig
  import opened ProgressBars

  /** The processed length is the floor of `progress * bar_width / total`, and exists exactly
      when that floor is at most `bar_width`. */
  lemma ProcessedLenIsFloor(progress: u32, total: u32, barWidth: u16)
    ensures ProcessedLen(progress, total, barWidth).Some? <==>
      total > 0 && progress * barWidth < total * (barWidth + 1)
    ensures ProcessedLen(progress, total, barWidth).Some? ==>
      var x := ProcessedLen(progress, total, barWidth).value;
      x * total <= progress * barWidth < (x + 1) * total
  {
    if total > 0 {
      var product := progress * barWidth;
      var x := product / total;
      assert product == x * total + product % total;
      if x > barWidth {
        MulMono(total, barWidth + 1, x);
      } else {
        MulMono(total, x + 1, barWidth + 1);
      }
    }
  }

  /** Error mode: a zero total, or progress past a total no larger than the bar; a progress
      within the total is always drawn, full exactly at the total. */
  lemma ErrorModeCases(progress: u32, total: u32, barWidth: u16)
    ensures total == 0 ==> ProcessedLen(progress, total, barWidth).None?
    ensures 0 < total && progress <= total ==>
      ProcessedLen(progress, total, barWidth).Some? &&
      (ProcessedLen(progress, total, barWidth).value == barWidth <==> progress == total || barWidth == 0)
    ensures 0 < total < progress && total <= barWidth ==> ProcessedLen(progress, total, barWidth).None?
  {
    ProcessedLenIsFloor(progress, total, barWidth);
    if 0 < total {
      if progress <= total {
        MulMono(barWidth, progress, total);
        var x := ProcessedLen(progress, total, barWidth).value;
        if progress < total && barWidth > 0 {
          MulMono(barWidth, progress, total - 1);
        }
        if progress == total {
          DivUnique(progress * barWidth, total, barWidth, 0);
        }
      } else if total <= barWidth {
        MulMono(barWidth, total + 1, progress);
      }
    }
  }

  /** `drawed_len` is the least multiple of the filled glyph's width that covers `p`. */
  lemma FilledColumnsIsLeastMultiple(w: nat, p: nat)
    requires w > 0
    ensures FilledColumns(w, p) % w == 0
    ensures p <= FilledColumns(w, p) < p + w
  {
    CeilDivBounds(p, w);
    DivUnique(FilledColumns(w, p), w, CeilDiv(p, w), 0);
  }

  /** A full bar draws without panicking exactly when the filled glyph's width divides the
      bar width; otherwise the fill loop overruns the bar and `bar_width - drawed_len` underflows. */
  lemma FullDrawPanicsIffIndivisible(cfg: Config, w: nat, total: u32)
    requires w > 0 && total > 0
    ensures DrawDoesNotPanic(cfg, w, total, total) <==> cfg.barWidth % w == 0
  {
    ErrorModeCases(total, total, cfg.barWidth);
    var bw := cfg.barWidth;
    FilledColumnsIsLeastMultiple(w, bw);
    if bw % w == 0 {
      NoPanicWhenWidthDivides(cfg, w, total, total);
    } else {
      assert FilledColumns(w, bw) != bw;
    }
  }

  /** A bar `build` accepts whose full draw panics: a double-width fill over 3 columns. */
  lemma OddWidthBarPanics()
    ensures ValidChars(WideOddBar) && ProgressBar(WideOddBar).BodyCharWidth() == 2
    ensures !DrawDoesNotPanic(WideOddBar, 2, 3, 3)
  {
    FullDrawPanicsIffIndivisible(WideOddBar, 2, 3);
  }

  const WideOddBar: Config := Config('\U{FF5E}', '\U{3000}', None, None, None, '\U{FF01}', 3)

  /** The default bar (`ProgressBar::new`) draws every request without panicking. */
  lemma DefaultBarNeverPanics(progress: u32, total: u32)
    ensures ValidChars(DefaultConfig) && ProgressBar(DefaultConfig).BodyCharWidth() == 1
    ensures DrawDoesNotPanic(DefaultConfig, 1, progress, total)
  {
    NoPanicWhenWidthDivides(DefaultConfig, 1, progress, total);
  }

  /** The fill loop pushes `ceil(p / w)` glyphs (the arrow among them when shown), and with a
      bar width divisible by `w` the whole body is `bar_width / w` glyphs. */
  lemma BodyGlyphCount(cfg: Config, w: nat, p: nat)
    requires w > 0 && cfg.barWidth % w == 0 && p <= cfg.barWidth
    ensures FilledColumns(w, p) <= cfg.barWidth
    ensures |FillGlyphs(cfg, w, p)| == CeilDiv(p, w)
    ensures |Body(cfg, w, p)| == cfg.barWidth / w
  {
    var k := cfg.barWidth / w;
    assert cfg.barWidth == w * k;
    CeilDivMultiple(w, k);
    CeilDivLeast(p, w, k);
    MulMono(w, CeilDiv(p, w), k);
    if ArrowShown(cfg, w, p) {
      CeilDivLeast(p, w, 0);
    }
    CeilDivSub(cfg.barWidth, w, CeilDiv(p, w));
  }

  /** The filled part of the body, glyph by glyph: the arrow, where shown, replaces the last
      filled glyph; everything after it is the empty glyph. With an arrow distinct from the
      filled glyph, the filled part differs from plain fill exactly when the arrow rule holds. */
  lemma ArrowRule(cfg: Config, w: nat, p: nat)
    requires w > 0 && FilledColumns(w, p) <= cfg.barWidth
    ensures var k := CeilDiv(p, w);
      var body := Body(cfg, w, p);
      k <= |body| &&
      (forall i | 0 <= i < k - 1 :: body[i] == cfg.filled) &&
      (k > 0 ==> body[k - 1] == if ArrowShown(cfg, w, p) then cfg.arrow.value else cfg.filled) &&
      (forall i | k <= i < |body| :: body[i] == cfg.empty) &&
      (cfg.arrow.Some? && cfg.arrow.value != cfg.filled ==>
        (body[..k] != Repeat(cfg.filled, k) <==> ArrowShown(cfg, w, p)))
  {
    var k := CeilDiv(p, w);
    var body := Body(cfg, w, p);
    if ArrowShown(cfg, w, p) {
      CeilDivLeast(p, w, 0);
      assert body[k - 1] == cfg.arrow.value;
    } else {
      assert body[..k] == Repeat(cfg.filled, k);
    }
  }

  /** A complete request draws a bar of filled glyphs only: no arrow and no empty glyph. */
  lemma CompleteIsAllFilled(cfg: Config, w: nat, total: u32)
    requires w > 0 && total > 0 && cfg.barWidth % w == 0
    ensures DrawDoesNotPanic(cfg, w, total, total)
    ensures BodyText(cfg, w, total, total) == Repeat(cfg.filled, cfg.barWidth / w)
  {
    FullDrawPanicsIffIndivisible(cfg, w, total);
    ErrorModeCases(total, total, cfg.barWidth);
    var k := cfg.barWidth / w;
    assert cfg.barWidth == w * k;
    CeilDivMultiple(w, k);
    assert CeilDiv(0, w) == 0;
    assert Body(cfg, w, cfg.barWidth) == Repeat(cfg.filled, k) + [];
  }

  /** A zero progress draws no filled glyph and no arrow: the body is all empty glyphs. */
  lemma ZeroProgressIsAllEmpty(cfg: Config, w: nat, total: u32)
    requires w > 0 && total > 0
    ensures DrawDoesNotPanic(cfg, w, 0, total)
    ensures BodyText(cfg, w, 0, total) == Repeat(cfg.empty, CeilDiv(cfg.barWidth, w))
  {
    ErrorModeCases(0, total, cfg.barWidth);
    assert ProcessedLen(0, total, cfg.barWidth) == Some(0);
    assert CeilDiv(0, w) == 0;
    assert Body(cfg, w, 0) == [] + Repeat(cfg.empty, CeilDiv(cfg.barWidth, w));
  }

  /** Every error-mode request draws the same text: `ceil(bar_width / w)` error glyphs
      between the borders, whatever the progress and total were. */
  lemma ErrorModeIsUniform(cfg: Config, w: nat, p1: u32, t1: u32, p2: u32, t2: u32)
    requires w > 0
    requires ProcessedLen(p1, t1, cfg.barWidth).None? && ProcessedLen(p2, t2, cfg.barWidth).None?
    ensures Render(cfg, w, p1, t1) == Render(cfg, w, p2, t2)
    ensures Render(cfg, w, p1, t1) ==
      BorderText(cfg.leftBorder) + Repeat(cfg.error, CeilDiv(cfg.barWidth, w)) + BorderText(cfg.rightBorder)
  {
  }

  /** The characters a configuration can draw. */
  function ConfigChars(cfg: Config): set<char> {
    {cfg.filled, cfg.empty, cfg.error} +
    (if cfg.arrow.Some? then {cfg.arrow.value} else {}) +
    (if cfg.leftBorder.Some? then {cfg.leftBorder.value} else {}) +
    (if cfg.rightBorder.Some? then {cfg.rightBorder.value} else {})
  }

  /** The output opens with the left border and closes with the right border where they are
      configured, holds exactly one glyph per body step in between, and draws nothing but the
      configured characters, so never a newline. */
  lemma Framing(cfg: Config, w: nat, progress: u32, total: u32)
    requires w > 0 && DrawDoesNotPanic(cfg, w, progress, total)
    ensures var r := Render(cfg, w, progress, total);
      |r| == |BodyText(cfg, w, progress, total)| +
        (if cfg.leftBorder.Some? then 1 else 0) + (if cfg.rightBorder.Some? then 1 else 0) &&
      (cfg.leftBorder.Some? ==> r[0] == cfg.leftBorder.value) &&
      (cfg.rightBorder.Some? ==> r[|r| - 1] == cfg.rightBorder.value) &&
      (forall i | 0 <= i < |r| :: r[i] in ConfigChars(cfg))
    ensures ValidChars(cfg) ==> '\n' !in Render(cfg, w, progress, total)
  {
    var r := Render(cfg, w, progress, total);
    var body := BodyText(cfg, w, progress, total);
    var left := BorderText(cfg.leftBorder);
    assert r == left + body + BorderText(cfg.rightBorder);
    forall i | 0 <= i < |body| ensures body[i] in ConfigChars(cfg) {
      match ProcessedLen(progress, total, cfg.barWidth)
      case Some(p) =>
        ArrowRule(cfg, w, p);
      case None =>
    }
    forall i | 0 <= i < |r| ensures r[i] in ConfigChars(cfg) {
      if |left| <= i < |left| + |body| {
        assert r[i] == body[i - |left|];
      }
    }
    if ValidChars(cfg) {
      assert CharWidth('\n') == None;
    }
  }

  /** Scaling progress and total by the same factor draws the same text. */
  lemma ScaleInvariance(cfg: Config, w: nat, progress: u32, total: u32, k: nat)
    requires w > 0 && k > 0 && progress * k < 0x1_0000_0000 && total * k < 0x1_0000_0000
    requires DrawDoesNotPanic(cfg, w, progress, total)
    ensures DrawDoesNotPanic(cfg, w, progress * k, total * k)
    ensures Render(cfg, w, progress * k, total * k) == Render(cfg, w, progress, total)
  {
    assert ProcessedLen(progress * k, total * k, cfg.barWidth) == ProcessedLen(progress, total, cfg.barWidth) by {
      if total > 0 {
        assert progress * k * cfg.barWidth == (progress * cfg.barWidth) * k;
        DivCancel(progress * cfg.barWidth, total, k);
      }
    }
  }

  /** Whether every glyph the body can hold takes exactly `w` columns under `width`. */
  predicate UniformWidth(cfg: Config, w: nat, width: char -> nat) {
    width(cfg.filled) == w && width(cfg.empty) == w && width(cfg.error) == w &&
    (cfg.arrow.Some? ==> width(cfg.arrow.value) == w)
  }

  /** With glyphs all `w` columns wide, every body, drawn or error, spans `bar_width` rounded up
      to a multiple of `w`: exactly `bar_width` columns when `w` divides it. */
  lemma BodyColumns(cfg: Config, w: nat, progress: u32, total: u32, width: char -> nat)
    requires w > 0 && UniformWidth(cfg, w, width) && DrawDoesNotPanic(cfg, w, progress, total)
    ensures ColumnWidth(BodyText(cfg, w, progress, total), width) == w * CeilDiv(cfg.barWidth, w)
    ensures cfg.barWidth % w == 0 ==> ColumnWidth(BodyText(cfg, w, progress, total), width) == cfg.barWidth
  {
    var body := BodyText(cfg, w, progress, total);
    match ProcessedLen(progress, total, cfg.barWidth) {
      case Some(p) =>
        assert body == Body(cfg, w, p);
        DrawnBodyColumns(cfg, w, p, width);
      case None =>
        var c := CeilDiv(cfg.barWidth, w);
        assert body == Repeat(cfg.error, c);
        ColumnWidthRepeat(cfg.error, c, width);
        assert ColumnWidth(body, width) == c * w;
    }
    if cfg.barWidth % w == 0 {
      CeilDivExact(cfg.barWidth, w);
    }
  }

  lemma DrawnBodyColumns(cfg: Config, w: nat, p: nat, width: char -> nat)
    requires w > 0 && UniformWidth(cfg, w, width) && FilledColumns(w, p) <= cfg.barWidth
    ensures ColumnWidth(Body(cfg, w, p), width) == w * CeilDiv(cfg.barWidth, w)
  {
    var k := CeilDiv(p, w);
    var rest := CeilDiv(cfg.barWidth - FilledColumns(w, p), w);
    FillColumns(cfg, w, p, width);
    ColumnWidthRepeat(cfg.empty, rest, width);
    ColumnWidthConcat(FillGlyphs(cfg, w, p), Repeat(cfg.empty, rest), width);
    assert ColumnWidth(Body(cfg, w, p), width) == w * k + rest * w;
    CeilDivSub(cfg.barWidth, w, k);
    MulSplit(w, k, CeilDiv(cfg.barWidth, w));
  }

  lemma FillColumns(cfg: Config, w: nat, p: nat, width: char -> nat)
    requires w > 0 && UniformWidth(cfg, w, width)
    ensures ColumnWidth(FillGlyphs(cfg, w, p), width) == FilledColumns(w, p)
  {
    var k := CeilDiv(p, w);
    var fill := FillGlyphs(cfg, w, p);
    if ArrowShown(cfg, w, p) {
      CeilDivLeast(p, w, 0);
      var arrow := cfg.arrow.value;
      assert fill == Repeat(cfg.filled, k - 1) + [arrow];
      ColumnWidthRepeat(cfg.filled, k - 1, width);
      ColumnWidthPush(Repeat(cfg.filled, k - 1), arrow, width);
      assert ColumnWidth(fill, width) == (k - 1) * w + w;
      MulSplit(w, k - 1, k);
    } else {
      assert fill == Repeat(cfg.filled, k);
      ColumnWidthRepeat(cfg.filled, k, width);
      assert ColumnWidth(fill, width) == k * w;
    }
  }

  /** The whole output of a request within the total spans the bar width plus its borders. */
  lemma RenderColumns(cfg: Config, w: nat, progress: u32, total: u32, width: char -> nat)
    requires w > 0 && UniformWidth(cfg, w, width) && cfg.barWidth % w == 0
    requires 0 < total && progress <= total
    ensures DrawDoesNotPanic(cfg, w, progress, total)
    ensures ColumnWidth(Render(cfg, w, progress, total), width) ==
      ColumnWidth(BorderText(cfg.leftBorder), width) + cfg.barWidth +
      ColumnWidth(BorderText(cfg.rightBorder), width)
  {
    NoPanicWhenWidthDivides(cfg, w, progress, total);
    BodyColumns(cfg, w, progress, total, width);
    var left := BorderText(cfg.leftBorder);
    var body := BodyText(cfg, w, progress, total);
    ColumnWidthConcat(left, body, width);
    ColumnWidthConcat(left + body, BorderText(cfg.rightBorder), width);
  }

  /** As written, `set_empty('-')` on a fresh builder leaves the empty glyph a space and makes
      the filled glyph `'-'`. */
  method SetEmptySetsFilled() returns (builder: ProgressBarBuilder)
    ensures builder.config.filled == '-' && builder.config.empty == ' '
  {
    builder := new ProgressBarBuilder();
    var chained := builder.SetEmpty('-');
  }

  /** The corrected setter changes the empty glyph and leaves the filled glyph `'='`. */
  method SetEmptyCorrectedSetsEmpty() returns (builder: ProgressBarBuilder)
    ensures builder.config.filled == '=' && builder.config.empty == '-'
  {
    builder := new ProgressBarBuilder();
    var chained := builder.SetEmptyCorrected('-');
  }
}
