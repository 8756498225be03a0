/**
 * The progress-bar renderer and its builder (src/components/progress_bar/progress_bar.rs).
 *
 * `Render` is the specification: the text `draw` produces, written with closed-form glyph
 * counts. `ProgressBar.Draw` is the renderer as the source runs it, pushing glyphs in three
 * `step_by` loops, and is proved to produce `Render`'s text.
 */
module ProgressBars {
  import opened Wrappers
  import opened Ints
  import opened Arith
  import opened Columns
  import opened BarConfig

  /**
   * `floor(progress * bar_width / total)`, the number of body columns to fill, computed in
   * 64 bits; None (the error mode) when `total` is 0 or the quotient exceeds `bar_width`.
   */
  function ProcessedLen(progress: u32, total: u32, barWidth: u16): (r: Option<u16>)
    ensures r.Some? ==> r.value <= barWidth
  {
    assert progress * barWidth < 0x1_0000_0000_0000_0000 by {
      MulMono(progress, barWidth, 0xFFFF);
      MulMono(0xFFFF, progress, 0xFFFF_FFFF);
    }
    var product: u64 := progress * barWidth;
    if total == 0 then None
    else
      var x := product / total;
      if x > barWidth then None else Some(x)
  }

  /** `drawed_len` after the fill loop: the columns the filled glyphs take. */
  function FilledColumns(w: nat, p: nat): nat
    requires w > 0
  {
    w * CeilDiv(p, w)
  }

  /** Whether the arrow replaces the last filled glyph. */
  predicate ArrowShown(cfg: Config, w: nat, p: nat) {
    cfg.arrow.Some? && p != cfg.barWidth && p >= w
  }

  /**
   * Whether `draw` runs to completion: the fill loop's `drawed_len` must stay within
   * `bar_width`, or `drawed_len += w` overflows `u16` or `bar_width - drawed_len` underflows.
   */
  predicate DrawDoesNotPanic(cfg: Config, w: nat, progress: u32, total: u32)
    requires w > 0
  {
    match ProcessedLen(progress, total, cfg.barWidth)
    case Some(p) => FilledColumns(w, p) <= cfg.barWidth
    case None => true
  }

  /** The filled glyphs, the last one replaced by the arrow where the arrow is shown. */
  function FillGlyphs(cfg: Config, w: nat, p: nat): string
    requires w > 0
  {
    var k := CeilDiv(p, w);
    if ArrowShown(cfg, w, p) then
      CeilDivLeast(p, w, 0);
      Repeat(cfg.filled, k - 1) + [cfg.arrow.value]
    else
      Repeat(cfg.filled, k)
  }

  /** The bar body for `p` filled columns: filled glyphs, then empty ones over the rest. */
  function Body(cfg: Config, w: nat, p: nat): string
    requires w > 0 && FilledColumns(w, p) <= cfg.barWidth
  {
    FillGlyphs(cfg, w, p) + Repeat(cfg.empty, CeilDiv(cfg.barWidth - FilledColumns(w, p), w))
  }

  /** The bar body in error mode. */
  function ErrorBody(cfg: Config, w: nat): string
    requires w > 0
  {
    Repeat(cfg.error, CeilDiv(cfg.barWidth, w))
  }

  function BorderText(border: Option<char>): string {
    if border.Some? then [border.value] else []
  }

  function BodyText(cfg: Config, w: nat, progress: u32, total: u32): string
    requires w > 0 && DrawDoesNotPanic(cfg, w, progress, total)
  {
    match ProcessedLen(progress, total, cfg.barWidth)
    case Some(p) => Body(cfg, w, p)
    case None => ErrorBody(cfg, w)
  }

  /** The text `draw(progress, total)` returns for a bar whose filled glyph is `w` columns wide. */
  function Render(cfg: Config, w: nat, progress: u32, total: u32): string
    requires w > 0 && DrawDoesNotPanic(cfg, w, progress, total)
  {
    BorderText(cfg.leftBorder) + BodyText(cfg, w, progress, total) + BorderText(cfg.rightBorder)
  }

  /** The body of `draw`, pushed onto `s`: the match on the processed length. */
  method PushBody(s: string, config: Config, w: nat, processedLen: Option<u16>) returns (t: string)
    requires w > 0
    requires processedLen.Some? ==> FilledColumns(w, processedLen.value) <= config.barWidth
    ensures processedLen.Some? ==> t == s + Body(config, w, processedLen.value)
    ensures processedLen.None? ==> t == s + ErrorBody(config, w)
  {
    match processedLen {
      case Some(p) =>
        var drawedLen;
        t, drawedLen := PushFilled(s, config.filled, p, w);
        if config.arrow.Some? {
          if p != config.barWidth && p >= w {
            t := t[..|t| - 1];
            t := t + [config.arrow.value];
          }
        }
        assert t == s + FillGlyphs(config, w, p);
        var budget: u16 := config.barWidth - drawedLen;
        t := PushSteps(t, config.empty, budget, w);
      case None =>
        t := PushSteps(s, config.error, config.barWidth, w);
    }
  }

  /**
   * The fill loop: one `filled` glyph per step of `w` over `0..p`, counting the columns
   * pushed in the `u16` counter `drawed_len`.
   */
  method PushFilled(s: string, filled: char, p: u16, w: nat) returns (t: string, drawedLen: u16)
    requires w > 0 && FilledColumns(w, p) < 0x1_0000
    ensures t == s + Repeat(filled, CeilDiv(p, w))
    ensures drawedLen == FilledColumns(w, p)
  {
    t, drawedLen := s, 0;
    var i := 0;
    ghost var n := 0;
    while i < p
      invariant i == drawedLen == w * n
      invariant n <= CeilDiv(p, w)
      invariant t == s + Repeat(filled, n)
    {
      CeilDivLeast(p, w, n);
      MulMono(w, n + 1, CeilDiv(p, w));
      t := t + [filled];
      drawedLen := drawedLen + w;
      i := i + w;
      n := n + 1;
    }
    CeilDivLeast(p, w, n);
  }

  /** `for _ in (0..n).step_by(w) { s.push(c) }`. */
  method PushSteps(s: string, c: char, n: nat, w: nat) returns (t: string)
    requires w > 0
    ensures t == s + Repeat(c, CeilDiv(n, w))
  {
    t := s;
    var i := 0;
    ghost var m := 0;
    while i < n
      invariant i == w * m
      invariant m <= CeilDiv(n, w)
      invariant t == s + Repeat(c, m)
    {
      CeilDivLeast(n, w, m);
      t := t + [c];
      i := i + w;
      m := m + 1;
    }
    CeilDivLeast(n, w, m);
  }

  const DefaultConfig: Config := Config('=', ' ', Some('>'), Some('['), Some(']'), '?', 16)

  datatype ProgressBar = ProgressBar(config: Config) {

    /** `body_char_width`: the filled glyph's column width. */
    function BodyCharWidth(): (w: nat)
      requires IsColumnChar(config.filled)
      ensures w == 1 || w == 2
      ensures CharWidth(config.filled) == Some(w)
    {
      CharWidth(config.filled).value
    }

    function Height(): (h: u16)
      ensures h == 1
    {
      1
    }

    /**
     * `draw`: left border, then the body (filled glyphs, arrow, empty glyphs, or error glyphs),
     * then right border. Its panics are preconditions: the filled glyph must be one or two
     * columns wide (`body_char_width`'s unwrap, `step_by(0)`), and `drawed_len` must not pass
     * `bar_width`.
     */
    method Draw(progress: u32, total: u32) returns (s: string)
      requires IsColumnChar(config.filled)
      requires DrawDoesNotPanic(config, BodyCharWidth(), progress, total)
      ensures s == Render(config, BodyCharWidth(), progress, total)
    {
      var processedLen := ProcessedLen(progress, total, config.barWidth);
      s := [];
      if config.leftBorder.Some? {
        s := s + [config.leftBorder.value];
      }
      assert s == BorderText(config.leftBorder);
      var w := BodyCharWidth();
      s := PushBody(s, config, w, processedLen);
      ghost var beforeRight := s;
      if config.rightBorder.Some? {
        s := s + [config.rightBorder.value];
      }
      assert s == beforeRight + BorderText(config.rightBorder);
    }
  }

  /** The staging configuration that `build` turns into a bar. */
  class ProgressBarBuilder {
    var config: Config

    /** `ProgressBarBuilder::new`: the documented defaults. */
    constructor ()
      ensures config == Config('=', ' ', Some('>'), Some('['), Some(']'), '?', 16)
    {
      config := DefaultConfig;
    }

    method SetFilled(ch: char) returns (builder: ProgressBarBuilder)
      modifies this
      ensures config == old(config).(filled := ch)
      ensures builder == this
    {
      config := config.(filled := ch);
      builder := this;
    }

    /** As written, `set_empty` stores its character as the FILLED glyph; `empty` is untouched. */
    method SetEmpty(ch: char) returns (builder: ProgressBarBuilder)
      modifies this
      ensures config == old(config).(filled := ch)
      ensures builder == this
    {
      config := config.(filled := ch);
      builder := this;
    }

    /** The evidently intended `set_empty`: it sets the empty glyph. */
    method SetEmptyCorrected(ch: char) returns (builder: ProgressBarBuilder)
      modifies this
      ensures config == old(config).(empty := ch)
      ensures builder == this
    {
      config := config.(empty := ch);
      builder := this;
    }

    method SetArrow(ch: Option<char>) returns (builder: ProgressBarBuilder)
      modifies this
      ensures config == old(config).(arrow := ch)
      ensures builder == this
    {
      config := config.(arrow := ch);
      builder := this;
    }

    method SetBorder(left: Option<char>, right: Option<char>) returns (builder: ProgressBarBuilder)
      modifies this
      ensures config == old(config).(leftBorder := left, rightBorder := right)
      ensures builder == this
    {
      config := config.(leftBorder := left, rightBorder := right);
      builder := this;
    }

    method SetBarWidth(barWidth: u16) returns (builder: ProgressBarBuilder)
      modifies this
      ensures config == old(config).(barWidth := barWidth)
      ensures builder == this
    {
      config := config.(barWidth := barWidth);
      builder := this;
    }

    /** `build`: the character check panics on a character that is not one or two columns wide. */
    method Build() returns (bar: ProgressBar)
      requires ValidChars(config)
      ensures bar.config == config
      ensures bar.Height() == 1
    {
      bar := ProgressBar(config);
    }

    /**
     * A `build` that also refuses a bar width that is not a multiple of the filled glyph's
     * width, so that every bar it yields draws every `(progress, total)` without panicking.
     */
    method BuildChecked() returns (r: Option<ProgressBar>)
      requires ValidChars(config)
      ensures r.Some? <==> config.barWidth % CharWidth(config.filled).value == 0
      ensures r.Some? ==> r.value.config == config
      ensures r.Some? ==> forall progress: u32, total: u32 ::
        DrawDoesNotPanic(config, r.value.BodyCharWidth(), progress, total)
    {
      var bar := ProgressBar(config);
      if config.barWidth % bar.BodyCharWidth() == 0 {
        forall progress: u32, total: u32
          ensures DrawDoesNotPanic(config, bar.BodyCharWidth(), progress, total)
        {
          NoPanicWhenWidthDivides(config, bar.BodyCharWidth(), progress, total);
        }
        r := Some(bar);
      } else {
        r := None;
      }
    }
  }

  /** `ProgressBar::new`: a bar with the builder's defaults. */
  method NewProgressBar() returns (bar: ProgressBar)
    ensures bar.config == DefaultConfig
  {
    var builder := new ProgressBarBuilder();
    bar := builder.Build();
  }

  /** If the filled glyph's width divides the bar width, `draw` never panics. */
  lemma NoPanicWhenWidthDivides(cfg: Config, w: nat, progress: u32, total: u32)
    requires w > 0 && cfg.barWidth % w == 0
    ensures DrawDoesNotPanic(cfg, w, progress, total)
  {
    match ProcessedLen(progress, total, cfg.barWidth)
    case Some(p) =>
      var k := cfg.barWidth / w;
      assert cfg.barWidth == w * k;
      CeilDivMultiple(w, k);
      CeilDivLeast(p, w, k);
      MulMono(w, CeilDiv(p, w), k);
    case None =>
  }
}
