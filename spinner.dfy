/** The spinner component (src/components/spinner.rs). */
module Spinners {
  import opened Ints
  import opened Arith

  /** A spinner cycles through its frames, one per unit of progress. */
  datatype SpinnerComponent = SpinnerComponent(animations: seq<string>) {

    /** The frame for `progress`; the total plays no part. */
    function Draw(progress: u32, total: u32): (r: string)
      ensures animations == [] ==> r == ""
      ensures animations != [] ==> r in animations && r == animations[progress % |animations|]
    {
      if |animations| == 0 then "" else animations[progress % |animations|]
    }
  }

  /** `from_str`: one single-character frame per character of `s`, in order. */
  function FromStr(s: string): (spinner: SpinnerComponent)
    ensures |spinner.animations| == |s|
    ensures forall i | 0 <= i < |s| :: spinner.animations[i] == [s[i]]
  {
    SpinnerComponent(seq(|s|, i requires 0 <= i < |s| => [s[i]]))
  }

  /** The total is ignored. */
  lemma DrawIgnoresTotal(spinner: SpinnerComponent, progress: u32, t1: u32, t2: u32)
    ensures spinner.Draw(progress, t1) == spinner.Draw(progress, t2)
  {
  }

  /** One full cycle of progress shows the same frame again. */
  lemma DrawIsPeriodic(spinner: SpinnerComponent, progress: u32, total: u32)
    requires progress + |spinner.animations| < 0x1_0000_0000
    ensures spinner.Draw(progress + |spinner.animations|, total) == spinner.Draw(progress, total)
  {
    if spinner.animations != [] {
      var n := |spinner.animations|;
      var q, r := progress / n, progress % n;
      assert progress == q * n + r;
      DivUnique(progress + n, n, q + 1, r);
    }
  }

  /** A spinner made from a string shows that string's characters in turn. */
  lemma FromStrDraw(s: string, progress: u32, total: u32)
    requires s != []
    ensures FromStr(s).Draw(progress, total) == [s[progress % |s|]]
  {
  }

  /** The spinner's unit-test vectors. */
  lemma SpinnerExamples()
    ensures FromStr("1234").Draw(0, 4) == "1"
    ensures FromStr("1234").Draw(1, 4) == "2"
    ensures FromStr("1234").Draw(2, 4) == "3"
    ensures FromStr("1234").Draw(3, 4) == "4"
    ensures FromStr("1234").Draw(4, 4) == "1"
  {
    FromStrDraw("1234", 0, 4);
    FromStrDraw("1234", 1, 4);
    FromStrDraw("1234", 2, 4);
    FromStrDraw("1234", 3, 4);
    FromStrDraw("1234", 4, 4);
  }
}
