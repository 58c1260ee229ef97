/** Masking of identifiers in log lines (utils/utils.go). */
module Mask {
  import Text

  /**
   * MaskHalf: text shorter than two characters is returned as it is;
   * otherwise the first half (rounded down) is kept and every other
   * character becomes `*`, so at least as many characters are masked as are
   * kept.
   */
  function MaskHalf(input: string): (r: string)
    ensures |r| == |input|
    ensures |input| < 2 ==> r == input
    ensures |input| >= 2 ==> r[..|input| / 2] == input[..|input| / 2]
    ensures |input| >= 2 ==> forall k :: |input| / 2 <= k < |r| ==> r[k] == '*'
    ensures |input| >= 2 ==> |r[|input| / 2..]| >= |input| / 2
  {
    if input == "" then input
    else if |input| < 2 then input
    else
      var visible := |input| / 2;
      input[..visible] + Text.Repeat('*', |input| - visible)
  }

  /** MaskHalfInt: the decimal rendering of the number, masked. */
  function MaskHalfInt(input: int): string
  {
    MaskHalf(Text.IntToString(input))
  }

  /** MaskHalfInt64: the same rendering and mask; the 64-bit range is not modelled. */
  function MaskHalfInt64(input: int): string
  {
    MaskHalfInt(input)
  }

  /**
   * A masked number keeps the leading half of its digits: two numbers that
   * differ only in their trailing half of digits are masked alike.
   */
  lemma MaskHidesTrailingDigits(a: int, b: int)
    requires |Text.IntToString(a)| == |Text.IntToString(b)|
    requires Text.IntToString(a)[..|Text.IntToString(a)| / 2] == Text.IntToString(b)[..|Text.IntToString(b)| / 2]
    ensures MaskHalfInt64(a) == MaskHalfInt64(b) <==> |Text.IntToString(a)| >= 2 || a == b
  {
    var sa, sb := Text.IntToString(a), Text.IntToString(b);
    if |sa| >= 2 {
      var ra, rb := MaskHalf(sa), MaskHalf(sb);
      assert forall k :: 0 <= k < |ra| ==> ra[k] == rb[k] by {
        forall k | 0 <= k < |ra|
          ensures ra[k] == rb[k]
        {
          if k < |sa| / 2 {
            assert ra[k] == ra[..|sa| / 2][k];
            assert rb[k] == rb[..|sb| / 2][k];
          }
        }
      }
    } else {
      if MaskHalfInt64(a) == MaskHalfInt64(b) {
        Text.IntToStringInjective(a, b);
      }
    }
  }
}
