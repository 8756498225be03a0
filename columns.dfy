/**
 * Terminal column widths of characters and strings.
 *
 * `CharWidth` stands in for `UnicodeWidthChar::width` of the `unicode_width` crate: a simplified
 * East Asian Width table (control characters have no width, combining marks and zero-width
 * spaces take 0 columns, the main wide and full-width blocks take 2, everything else 1).
 * The renderer's properties are proved for an arbitrary fill width and, where they count
 * columns, for an arbitrary width function, so nothing depends on the exact ranges of this
 * table beyond the characters used in the examples.
 */
module Columns {
  import opened Wrappers

  predicate InRange(c: char, lo: int, hi: int) {
    lo <= c as int <= hi
  }

  /** The terminal column width of `c`, None where it has none. */
  function CharWidth(c: char): Option<nat> {
    if c == '\0' then Some(0)
    else if c as int < 0x20 || InRange(c, 0x7F, 0x9F) then None
    else if IsZeroWidth(c) then Some(0)
    else if IsWide(c) then Some(2)
    else Some(1)
  }

  /** Combining marks, zero-width spaces and joiners, variation selectors. */
  predicate IsZeroWidth(c: char) {
    InRange(c, 0x0300, 0x036F) || InRange(c, 0x200B, 0x200F) ||
    InRange(c, 0x20D0, 0x20FF) || InRange(c, 0xFE00, 0xFE0F)
  }

  /** Hangul, CJK and full-width blocks, pictographs. */
  predicate IsWide(c: char) {
    InRange(c, 0x1100, 0x115F) || InRange(c, 0x2E80, 0x303E) || InRange(c, 0x3041, 0x33FF) ||
    InRange(c, 0x3400, 0x4DBF) || InRange(c, 0x4E00, 0x9FFF) || InRange(c, 0xA000, 0xA4CF) ||
    InRange(c, 0xAC00, 0xD7A3) || InRange(c, 0xF900, 0xFAFF) || InRange(c, 0xFE30, 0xFE4F) ||
    InRange(c, 0xFF00, 0xFF60) || InRange(c, 0xFFE0, 0xFFE6) || InRange(c, 0x1F300, 0x1F64F) ||
    InRange(c, 0x20000, 0x3FFFD)
  }

  /** A character a bar may be drawn with: it occupies exactly one or two columns. */
  predicate IsColumnChar(c: char) {
    CharWidth(c) == Some(1) || CharWidth(c) == Some(2)
  }

  /** Columns a character occupies on the terminal, 0 where the width is undefined. */
  function Width(c: char): nat {
    match CharWidth(c)
    case Some(w) => w
    case None => 0
  }

  /** Columns a string occupies when each character `c` takes `width(c)` columns. */
  function ColumnWidth(s: string, width: char -> nat): nat {
    if s == [] then 0 else ColumnWidth(s[..|s| - 1], width) + width(s[|s| - 1])
  }

  /** `n` copies of `c`, what `n` pushes of `c` onto a string append. */
  function Repeat(c: char, n: nat): (r: string)
    ensures |r| == n
    ensures forall i | 0 <= i < n :: r[i] == c
  {
    if n == 0 then [] else Repeat(c, n - 1) + [c]
  }

  lemma {:induction false} ColumnWidthConcat(a: string, b: string, width: char -> nat)
    ensures ColumnWidth(a + b, width) == ColumnWidth(a, width) + ColumnWidth(b, width)
  {
    if b != [] {
      var b' := b[..|b| - 1];
      assert (a + b)[..|a + b| - 1] == a + b';
      ColumnWidthConcat(a, b', width);
    } else {
      assert a + b == a;
    }
  }

  lemma {:induction false} ColumnWidthRepeat(c: char, n: nat, width: char -> nat)
    ensures ColumnWidth(Repeat(c, n), width) == n * width(c)
  {
    if n > 0 {
      ColumnWidthRepeat(c, n - 1, width);
      ColumnWidthPush(Repeat(c, n - 1), c, width);
      var x := width(c);
      assert (n - 1) * x + x == n * x;
    }
  }

  lemma ColumnWidthPush(s: string, c: char, width: char -> nat)
    ensures ColumnWidth(s + [c], width) == ColumnWidth(s, width) + width(c)
  {
    assert (s + [c])[..|s|] == s;
  }
}
