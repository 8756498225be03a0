/** The label component (src/components/label/label.rs). */
module Labels {
  import opened Ints

  /** A fixed line of text. */
  datatype Label = Label(text: string) {

    function Height(): (h: u16)
      ensures h == 1
    {
      1
    }

    /** The stored text, whatever the progress and total. */
    function Draw(progress: u32, total: u32): (r: string)
      ensures r == text
    {
      text
    }
  }

  /** A label draws the same text for every request. */
  lemma DrawIsConstant(l: Label, p1: u32, t1: u32, p2: u32, t2: u32)
    ensures l.Draw(p1, t1) == l.Draw(p2, t2)
  {
  }
}
