/** The four game colors and the numeric codes the firmware stores for them
    in the 16-element sequence array (0 red, 1 green, 3 blue, 4 yellow). */
module Colors {

  datatype Option<+T> = None | Some(value: T)

  datatype Color = Red | Green | Blue | Yellow

  /** The code of a color, as the `case` labels of BlinkLeds and the
      comparisons of GetAnswer use it. */
  function Code(c: Color): (n: int)
    ensures n in {0, 1, 3, 4}
  {
    match c
    case Red => 0
    case Green => 1
    case Blue => 3
    case Yellow => 4
  }

  /** A code that names a color; 2 and 5..7 do not. */
  predicate ValidCode(n: int) {
    n == 0 || n == 1 || n == 3 || n == 4
  }

  /** The color a code names, if any. */
  function ColorOf(n: int): (r: Option<Color>)
    ensures r.Some? <==> ValidCode(n)
    ensures r.Some? ==> Code(r.value) == n
  {
    if n == 0 then Some(Red)
    else if n == 1 then Some(Green)
    else if n == 3 then Some(Blue)
    else if n == 4 then Some(Yellow)
    else None
  }

  /** Distinct colors have distinct codes, and each code names its color back. */
  lemma CodeInjective(c: Color, d: Color)
    ensures ColorOf(Code(c)) == Some(c)
    ensures Code(c) == Code(d) ==> c == d
  {
  }

  /** The codes of a sequence of colors. */
  function Codes(cs: seq<Color>): (r: seq<int>)
    ensures |r| == |cs|
    ensures forall k :: 0 <= k < |cs| ==> r[k] == Code(cs[k])
  {
    seq(|cs|, k requires 0 <= k < |cs| => Code(cs[k]))
  }
}
