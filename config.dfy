/** The bar's display configuration (src/components/progress_bar/config.rs). */
module BarConfig {
  import opened Wrappers
  import opened Ints
  import opened Columns

  /**
   * The characters a bar is drawn with and the column width of its body. The source's
   * struct calls the width `bar_len`; the renderer reads it as `bar_width`, as here.
   */
  datatype Config = Config(
    filled: char,
    empty: char,
    arrow: Option<char>,
    leftBorder: Option<char>,
    rightBorder: Option<char>,
    error: char,
    barWidth: u16)

  predicate OptionalColumnChar(o: Option<char>) {
    o.None? || IsColumnChar(o.value)
  }

  /** What `check_invalid_chars` accepts: every character present takes one or two columns. */
  predicate ValidChars(cfg: Config) {
    IsColumnChar(cfg.filled) && IsColumnChar(cfg.empty) && IsColumnChar(cfg.error) &&
    OptionalColumnChar(cfg.arrow) && OptionalColumnChar(cfg.leftBorder) &&
    OptionalColumnChar(cfg.rightBorder)
  }
}
