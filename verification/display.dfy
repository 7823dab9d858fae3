/*
  The integer display rules of the results screen: the tag shown next to the heading,
  the spacing panel's bars and labels, the rhythm sentence, and the capped preview size
  of a type style.
*/
module Display {
  import opened Wrappers
  import opened Strings
  import opened Types

  /** Every analysis id starts with this prefix, followed by the creation time. */
  const IdPrefix := "snap_"

  /** The id given to an analysis created at time `t` (milliseconds since the epoch). */
  function MakeId(t: nat): (id: string)
    ensures |id| > |IdPrefix|
    ensures id[..|IdPrefix|] == IdPrefix
    ensures id[|IdPrefix|..] == NatToString(t)
  {
    IdPrefix + NatToString(t)
  }

  /** Ids made at different times differ. */
  lemma MakeIdInjective(a: nat, b: nat)
    requires MakeId(a) == MakeId(b)
    ensures a == b
  {
    assert MakeId(a)[|IdPrefix|..] == MakeId(b)[|IdPrefix|..];
    NatToStringInjective(a, b);
  }

  /** The heading tag: the second `_`-separated piece of the id, absent when the id has
      no `_` (the header then shows nothing). */
  function HeaderTag(id: string): (tag: Option<string>)
    ensures tag.Some? <==> '_' in id
    ensures tag.Some? ==> '_' !in tag.value
  {
    var parts := Split(id, '_');
    SplitMany(id, '_');
    SplitPiecesFree(id, '_');
    if |parts| >= 2 then Some(parts[1]) else None
  }

  /** The tag is the text after the first `_`, up to the next `_` if there is one. */
  lemma HeaderTagAfterFirst(a: string, b: string)
    requires '_' !in a
    ensures HeaderTag(a + "_" + b) == Some(Split(b, '_')[0])
  {
    SplitAtFirst(a, '_', b);
  }

  /** For an id built from a creation time, the tag is exactly that time's digits, and
      reading them back gives the time. */
  lemma HeaderShowsTimestamp(t: nat)
    ensures HeaderTag(MakeId(t)) == Some(NatToString(t))
    ensures ParseDigits(HeaderTag(MakeId(t)).value) == t
  {
    var digits := NatToString(t);
    DigitsHaveNoUnderscore(digits);
    assert "snap" + "_" + digits == MakeId(t);
    HeaderTagAfterFirst("snap", digits);
    SplitNoSeparator(digits, '_');
    ParseNatToString(t);
  }

  lemma DigitsHaveNoUnderscore(s: string)
    requires AllDigits(s)
    ensures '_' !in s
  {
  }

  /** The pixel width of a spacing value's bar: four pixels per unit, capped at 280. */
  function BarWidth(val: int): (w: int)
    ensures w <= 280 && w <= 4 * val
    ensures w == 280 || w == 4 * val
  {
    if val * 4 < 280 then val * 4 else 280
  }

  /** Bars grow with their value, are exact below 70 and saturate from 70 on. */
  lemma BarWidthShape(a: int, b: int)
    ensures a <= b ==> BarWidth(a) <= BarWidth(b)
    ensures a < 70 ==> BarWidth(a) == 4 * a
    ensures BarWidth(a) == 280 <==> a >= 70
  {
  }

  /** The threshold below which a bar carries no pixel label. */
  const LabelThreshold := 12

  /** The text inside a spacing value's bar: `<val>px` from the threshold on, nothing
      below it. */
  function SizeLabel(val: int): (text: Option<string>)
    ensures text.Some? <==> val >= LabelThreshold
    ensures text.Some? ==> |text.value| >= 3 && text.value[|text.value| - 2..] == "px"
  {
    if val >= LabelThreshold then Some(IntToString(val) + "px") else None
  }

  /** A label reads back as the value it was drawn for. */
  lemma SizeLabelReadsBack(val: int)
    requires SizeLabel(val).Some?
    ensures IsIntText(SizeLabel(val).value[..|SizeLabel(val).value| - 2])
    ensures ParseInt(SizeLabel(val).value[..|SizeLabel(val).value| - 2]) == val
  {
    var t := SizeLabel(val).value;
    assert t[..|t| - 2] == IntToString(val);
    ParseIntToString(val);
  }

  /** One row of the spacing panel: the value's text, the bar's width and its label. */
  datatype SpacingRow = SpacingRow(valueText: string, width: int, barText: Option<string>)

  /** The spacing panel's rows, one per scale value in order. */
  function SpacingRows(scale: seq<int>): (rows: seq<SpacingRow>)
    ensures |rows| == |scale|
  {
    seq(|scale|, i requires 0 <= i < |scale| =>
      SpacingRow(IntToString(scale[i]), BarWidth(scale[i]), SizeLabel(scale[i])))
  }

  /** Each row shows its own value, its bar is that value's capped width and carries that
      value's label, so no bar is wider than the cap and exactly the rows whose value
      reaches the threshold are labelled. */
  lemma SpacingRowsFaithful(scale: seq<int>)
    ensures forall i :: 0 <= i < |scale| ==>
      ParseInt(SpacingRows(scale)[i].valueText) == scale[i]
    ensures forall i :: 0 <= i < |scale| ==> SpacingRows(scale)[i].width == BarWidth(scale[i])
    ensures forall i :: 0 <= i < |scale| ==> SpacingRows(scale)[i].barText == SizeLabel(scale[i])
    ensures forall i :: 0 <= i < |scale| ==> SpacingRows(scale)[i].width <= 280
    ensures forall i :: 0 <= i < |scale| ==>
      (SpacingRows(scale)[i].barText.Some? <==> scale[i] >= LabelThreshold)
  {
    forall i | 0 <= i < |scale|
      ensures ParseInt(SpacingRows(scale)[i].valueText) == scale[i]
    {
      ParseIntToString(scale[i]);
    }
  }

  /** The rhythm reported when the scale has no usable third value. */
  const DefaultRhythm := 16

  /** The rhythm sentence's value: the third scale value, unless it is missing or zero. */
  function Rhythm(scale: seq<int>): (px: int)
    ensures px != 0
    ensures |scale| > 2 && scale[2] != 0 ==> px == scale[2]
    ensures |scale| <= 2 || scale[2] == 0 ==> px == DefaultRhythm
  {
    if |scale| > 2 && scale[2] != 0 then scale[2] else DefaultRhythm
  }

  /** The rhythm figure as the sentence prints it: the value followed by `px`. */
  function RhythmText(scale: seq<int>): (text: string)
    ensures |text| >= 3 && text[|text| - 2..] == "px"
    ensures text != "0px"
  {
    IntToString(Rhythm(scale)) + "px"
  }

  /** Two scales print the same rhythm figure exactly when their rhythms are equal, and the
      figure reads back as the rhythm: the third value when it is present and non-zero, and
      16 for a scale of two values or fewer. */
  lemma RhythmTextFaithful(a: seq<int>, b: seq<int>)
    ensures RhythmText(a) == RhythmText(b) <==> Rhythm(a) == Rhythm(b)
    ensures ParseInt(RhythmText(a)[..|RhythmText(a)| - 2]) == Rhythm(a)
    ensures |a| <= 2 ==> RhythmText(a) == "16px"
  {
    var ta, tb := RhythmText(a), RhythmText(b);
    assert ta[..|ta| - 2] == IntToString(Rhythm(a));
    assert tb[..|tb| - 2] == IntToString(Rhythm(b));
    if ta == tb {
      IntToStringInjective(Rhythm(a), Rhythm(b));
    }
    ParseIntToString(Rhythm(a));
    if |a| <= 2 {
      assert NatToString(16) == "16";
    }
  }

  /** The largest font size a preview line is drawn at. */
  const PreviewCap := 32

  /** The size a type style's preview line is drawn at: its own size, capped. */
  function PreviewFontSize(style: TypeStyle): (px: int)
    ensures px <= PreviewCap
    ensures px == style.fontSizePx || px == PreviewCap
    ensures style.fontSizePx <= PreviewCap ==> px == style.fontSizePx
  {
    if style.fontSizePx < PreviewCap then style.fontSizePx else PreviewCap
  }

  /** Capping is monotone in the style's size and only ever shrinks it. */
  lemma PreviewFontSizeMonotone(a: TypeStyle, b: TypeStyle)
    requires a.fontSizePx <= b.fontSizePx
    ensures PreviewFontSize(a) <= PreviewFontSize(b)
    ensures PreviewFontSize(b) <= b.fontSizePx
  {
  }
}
