/** Output-format selection and the single- versus multi-frame write it decides. */
module Format {
  import opened Wrappers
  import opened Magick

  /** The format whose handles are processed and written frame by frame. */
  const FORMAT_GIF: string := "gif"

  /** ASCII lower-casing of one character, as `strtolower` does. */
  function LowerChar(c: char): (r: char)
    ensures 'A' <= c <= 'Z' ==> 'a' <= r <= 'z' && r as int - c as int == 32
    ensures !('A' <= c <= 'Z') ==> r == c
  {
    if 'A' <= c <= 'Z' then (c as int + 32) as char else c
  }

  /** The string with every ASCII upper-case letter lower-cased. */
  function Lower(s: string): (r: string)
    ensures |r| == |s|
    ensures forall i :: 0 <= i < |s| ==> r[i] == LowerChar(s[i])
  {
    if s == [] then [] else [LowerChar(s[0])] + Lower(s[1..])
  }

  /** Lower-casing twice is lower-casing once. */
  lemma LowerIdempotent(s: string)
    ensures Lower(Lower(s)) == Lower(s)
  {
  }

  /**
   * The format the filter records: the explicit one, verbatim, when it is given; otherwise
   * the lower-cased extension of the input path.
   */
  function SelectFormat(format: Option<string>, extension: string): (r: string)
    ensures format.Some? ==> r == format.value
    ensures format.None? ==> |r| == |extension| && forall i :: 0 <= i < |r| ==> r[i] == LowerChar(extension[i])
  {
    if format.None? then Lower(extension) else format.value
  }

  /** The write call for `format`: all frames (adjoined) for gif, one image otherwise. */
  function WriteCall(format: string, pathOut: string): (c: Call)
    ensures c.WriteImages? <==> format == FORMAT_GIF
    ensures c.WriteImages? ==> c.path == pathOut && c.adjoin
    ensures c.WriteImage? ==> c.path == pathOut
  {
    if format == FORMAT_GIF then WriteImages(pathOut, true) else WriteImage(pathOut)
  }

  /**
   * A derived format is case-insensitive, an explicit one is not: a ".GIF" input is handled
   * frame by frame, while an explicit "GIF" is not recognised as gif.
   */
  lemma GifDetection()
    ensures SelectFormat(None, "GIF") == FORMAT_GIF
    ensures SelectFormat(None, "Gif") == FORMAT_GIF
    ensures SelectFormat(Some("GIF"), "gif") != FORMAT_GIF
    ensures SelectFormat(Some("gif"), "png") == FORMAT_GIF
  {
    assert Lower("GIF") == "gif" by {
      assert Lower("GIF")[0] == 'g' && Lower("GIF")[1] == 'i' && Lower("GIF")[2] == 'f';
    }
    assert Lower("Gif") == "gif" by {
      assert Lower("Gif")[0] == 'g' && Lower("Gif")[1] == 'i' && Lower("Gif")[2] == 'f';
    }
    assert "GIF"[0] != "gif"[0];
  }
}
