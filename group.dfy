/** A progress bar with a label on the same line (src/components/group/mod.rs). */
module Groups {
  import opened Ints
  import opened Columns
  import opened ProgressBars
  import opened Labels

  datatype LabeledProgressBar = LabeledProgressBar(bar: ProgressBar, barLabel: Label) {

    function Height(): (h: u16)
      ensures h == 1
    {
      1
    }

    /** The line `draw` produces: the bar's text, a colon and a space, the label's text. */
    function Text(progress: u32, total: u32): string
      requires IsColumnChar(bar.config.filled)
      requires DrawDoesNotPanic(bar.config, bar.BodyCharWidth(), progress, total)
    {
      Render(bar.config, bar.BodyCharWidth(), progress, total) + ": " + barLabel.text
    }

    method Draw(progress: u32, total: u32) returns (s: string)
      requires IsColumnChar(bar.config.filled)
      requires DrawDoesNotPanic(bar.config, bar.BodyCharWidth(), progress, total)
      ensures s == Text(progress, total)
    {
      var barText := bar.Draw(progress, total);
      s := barText + ": " + barLabel.Draw(progress, total);
    }
  }

  /** The line is the bar's text followed by `": "` and the label: two characters longer than
      both together, and with a suffix that no request changes. */
  lemma TextLayout(g: LabeledProgressBar, progress: u32, total: u32)
    requires IsColumnChar(g.bar.config.filled)
    requires DrawDoesNotPanic(g.bar.config, g.bar.BodyCharWidth(), progress, total)
    ensures var barText := Render(g.bar.config, g.bar.BodyCharWidth(), progress, total);
      |g.Text(progress, total)| == |barText| + 2 + |g.barLabel.text| &&
      g.Text(progress, total)[..|barText|] == barText &&
      g.Text(progress, total)[|barText|..] == ": " + g.barLabel.text
  {
    var barText := Render(g.bar.config, g.bar.BodyCharWidth(), progress, total);
    assert g.Text(progress, total) == barText + (": " + g.barLabel.text);
  }
}
