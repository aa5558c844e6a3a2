/** The horizontal partition of the viewport that createTiles builds: four
    vertical strips whose widths alternate by the parity of their index
    between a short and a long fraction of the viewport width, laid side by
    side from the left edge of the viewport. */
module Layout {

  /** Fraction of the viewport width taken by an even-numbered strip. */
  const SHORT_RATIO: real := 0.219
  /** Fraction of the viewport width taken by an odd-numbered strip. */
  const LONG_RATIO: real := 0.281
  /** Number of strips createTiles lays out. */
  const STRIP_COUNT: nat := 4

  /** getStepW: the width of strip i in a viewport `width` wide. */
  function StepW(i: nat, width: real): (r: real)
    // every strip is a positive share of the viewport, narrower than half of it
    ensures width > 0.0 ==> 0.0 < r < width / 2.0
  {
    (if i % 2 == 0 then SHORT_RATIO else LONG_RATIO) * width
  }

  /** Reference definition of the distance from the viewport's left edge to
      the left edge of strip i: the widths of strips 0 .. i-1, added up from
      the left. */
  function LeftOffset(i: nat, width: real): real
  {
    if i == 0 then 0.0 else LeftOffset(i - 1, width) + StepW(i - 1, width)
  }

  /** getLength: adds up the widths of the strips before strip `index`,
      walking from strip index-1 down to strip 0 as the source's loop does. */
  method GetLength(index: nat, width: real) returns (length: real)
    ensures length == LeftOffset(index, width)
  {
    length := 0.0;
    var i: int := index - 1;
    while i >= 0
      invariant -1 <= i < index
      invariant length == LeftOffset(index, width) - LeftOffset(i + 1, width)
      decreases i
    {
      length := length + StepW(i, width);
      i := i - 1;
    }
  }

  /** The x coordinate of the left edge of strip i, in a coordinate system
      whose origin is the centre of the viewport. */
  function LeftEdge(i: nat, width: real): real
  {
    -width / 2.0 + LeftOffset(i, width)
  }

  /** A pair of neighbouring strips (one short, one long) covers exactly half
      of the viewport, so the offset of strip i has a closed form: m half
      viewports for i = 2m, plus one short strip for i = 2m + 1. */
  lemma {:induction false} LeftOffsetClosedForm(m: nat, width: real)
    ensures LeftOffset(2 * m, width) == (m as real) * (width / 2.0)
    ensures LeftOffset(2 * m + 1, width) == (m as real) * (width / 2.0) + SHORT_RATIO * width
  {
    if m > 0 {
      LeftOffsetClosedForm(m - 1, width);
      assert (2 * m - 1) % 2 == 1;
      assert (2 * (m - 1) + 1) == 2 * m - 1;
      assert LeftOffset(2 * m, width)
          == LeftOffset(2 * m - 1, width) + LONG_RATIO * width
          == ((m - 1) as real) * (width / 2.0) + SHORT_RATIO * width + LONG_RATIO * width;
      assert ((m - 1) as real) * (width / 2.0) + width / 2.0 == (m as real) * (width / 2.0);
    }
    assert (2 * m) % 2 == 0;
  }

  /** Strips meet edge to edge: the right edge of strip i is the left edge of
      strip i + 1, and a strip of a viewport with positive width has positive
      width, so strips neither overlap nor leave gaps. */
  lemma StripsAreAdjacent(i: nat, width: real)
    ensures LeftEdge(i, width) + StepW(i, width) == LeftEdge(i + 1, width)
    ensures width > 0.0 ==> StepW(i, width) > 0.0 && LeftEdge(i, width) < LeftEdge(i + 1, width)
  {
  }

  /** The four strips span the viewport exactly: the first starts at -width/2
      and the last ends at width/2. */
  lemma StripsSpanViewport(width: real)
    ensures LeftEdge(0, width) == -width / 2.0
    ensures LeftEdge(STRIP_COUNT - 1, width) + StepW(STRIP_COUNT - 1, width) == width / 2.0
    ensures LeftOffset(STRIP_COUNT, width) == width
  {
    LeftOffsetClosedForm(2, width);
    StripsAreAdjacent(STRIP_COUNT - 1, width);
  }

  /** A 1000-unit-wide viewport: strips of widths 219, 281, 219, 281 start at
      offsets 0, 219, 500 and 719 from the left edge, i.e. at x = -500,
      -281, 0 and 219. */
  lemma LayoutOfThousandWideViewport()
    ensures StepW(0, 1000.0) == 219.0 && StepW(1, 1000.0) == 281.0
    ensures StepW(2, 1000.0) == 219.0 && StepW(3, 1000.0) == 281.0
    ensures LeftOffset(0, 1000.0) == 0.0 && LeftOffset(1, 1000.0) == 219.0
    ensures LeftOffset(2, 1000.0) == 500.0 && LeftOffset(3, 1000.0) == 719.0
    ensures LeftEdge(0, 1000.0) == -500.0 && LeftEdge(3, 1000.0) == 219.0
  {
    LeftOffsetClosedForm(1, 1000.0);
  }
}
