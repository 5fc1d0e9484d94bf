/** The text helpers of the print agent's ESC/POS utilities: the separator
    lines of a 32-column receipt, fixed-width padding and two-column rows. */
module Escpos {
  import opened Text

  /** Characters per line on 58 mm paper. */
  const Width: nat := 32

  /** `COMMANDS.LINE` */
  const Line: string := "--------------------------------"

  /** `COMMANDS.DOUBLE_LINE` */
  const DoubleLine: string := "================================"

  lemma SeparatorLines()
    ensures |Line| == Width && forall i | 0 <= i < |Line| :: Line[i] == '-'
    ensures |DoubleLine| == Width && forall i | 0 <= i < |DoubleLine| :: DoubleLine[i] == '='
  {
  }

  datatype Align = Left | Right

  /** `padText`: the text cut to `width` characters, then filled with
      spaces up to `width`, after the text for left alignment and before
      it for right alignment. A negative width cuts from the back, as
      `slice` does, and adds no spaces. */
  function PadText(text: string, width: int, align: Align): (r: string)
    ensures width >= 0 ==> |r| == width
    ensures width >= 0 && align == Left ==>
      var kept := if |text| < width then |text| else width;
      r[..kept] == text[..kept] && forall i | kept <= i < width :: r[i] == ' '
    ensures width >= 0 && align == Right ==>
      var kept := if |text| < width then |text| else width;
      r[width - kept..] == text[..kept] && forall i | 0 <= i < width - kept :: r[i] == ' '
    ensures width < 0 ==> r == SliceTo(text, width)
  {
    var truncated := SliceTo(text, width);
    if align == Right then PadStart(truncated, width) else PadEnd(truncated, width)
  }

  /** A text of exactly the width comes back unchanged, whichever the
      alignment. */
  lemma PadTextExact(text: string, align: Align)
    ensures PadText(text, |text|, align) == text
  {
  }

  /** `formatRow`: the label padded so that, with one space, the value
      ends the line. */
  function FormatRow(caption: string, value: string, width: int): (r: string)
    ensures |value| <= width - 1 ==>
      && |r| == width
      && r[width - |value|..] == value
      && r[width - |value| - 1] == ' '
      && PadText(caption, width - |value| - 1, Left) == r[..width - |value| - 1]
  {
    PadText(caption, width - |value| - 1, Left) + " " + PadText(value, |value|, Right)
  }

  /** A label that fits is kept whole at the start of the row, followed by
      spaces up to the value. */
  lemma FormatRowKeepsLabel(caption: string, value: string, width: int)
    requires |caption| + 1 + |value| <= width
    ensures var r := FormatRow(caption, value, width);
      r[..|caption|] == caption && forall i | |caption| <= i < width - |value| :: r[i] == ' '
  {
    var lw := width - |value| - 1;
    var r := FormatRow(caption, value, width);
    var p := PadText(caption, lw, Left);
    assert r == p + " " + value;
    assert r[..|caption|] == p[..|caption|];
  }
}
