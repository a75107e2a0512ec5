/** Per-channel colour arithmetic used when a border colour is synthesised from two samples. */
module ColorMath {

  /** An RGB colour as the backend reports it. Channels are reals, so the mean is exact. */
  datatype Rgb = Rgb(red: real, green: real, blue: real)

  /** The colour whose every channel is the arithmetic mean of the two samples' channels. */
  function AvgColor(pixel1: Rgb, pixel2: Rgb): (r: Rgb)
    ensures r.red + r.red == pixel1.red + pixel2.red
    ensures r.green + r.green == pixel1.green + pixel2.green
    ensures r.blue + r.blue == pixel1.blue + pixel2.blue
  {
    Rgb((pixel1.red + pixel2.red) / 2.0,
        (pixel1.green + pixel2.green) / 2.0,
        (pixel1.blue + pixel2.blue) / 2.0)
  }

  /** True when `c` lies between `a` and `b`, whichever of the two is larger. */
  predicate Between(a: real, c: real, b: real) {
    (a <= c <= b) || (b <= c <= a)
  }

  /** Averaging does not depend on the order of the two samples. */
  lemma AvgColorSymmetric(pixel1: Rgb, pixel2: Rgb)
    ensures AvgColor(pixel1, pixel2) == AvgColor(pixel2, pixel1)
  {
  }

  /** Every channel of the average lies between the two samples' channels. */
  lemma AvgColorBetween(pixel1: Rgb, pixel2: Rgb)
    ensures Between(pixel1.red, AvgColor(pixel1, pixel2).red, pixel2.red)
    ensures Between(pixel1.green, AvgColor(pixel1, pixel2).green, pixel2.green)
    ensures Between(pixel1.blue, AvgColor(pixel1, pixel2).blue, pixel2.blue)
  {
  }

  /** Averaging a colour with itself gives that colour back. */
  lemma AvgColorIdempotent(pixel: Rgb)
    ensures AvgColor(pixel, pixel) == pixel
  {
  }

  /** The worked example: the mean of (10,20,30) and (20,40,60) is (15,30,45). */
  lemma AvgColorExample()
    ensures AvgColor(Rgb(10.0, 20.0, 30.0), Rgb(20.0, 40.0, 60.0)) == Rgb(15.0, 30.0, 45.0)
  {
  }
}
