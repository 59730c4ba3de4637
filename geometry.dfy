/**
 * Layout arithmetic of a render pass: the fixed margins, the container-width
 * fallback, the plot area, the scales (kept as their domain and range
 * endpoints) and the legend positions.
 */
module Geometry {
  import opened Wrappers

  datatype Margin = Margin(top: int, right: int, bottom: int, left: int)

  /** The margins every render pass uses. */
  const ChartMargin: Margin := Margin(40, 30, 50, 60)

  /** Width used when the container reports a client width of 0. */
  const FallbackWidth: nat := 800

  /** Height of the outer drawing, fixed. */
  const OuterHeight: int := 400

  /** Height of the plot area inside the margins. */
  const PlotHeight: int := OuterHeight - ChartMargin.top - ChartMargin.bottom

  /** `clientWidth || 800`: a client width of 0 is unmeasured. */
  function ContainerWidth(clientWidth: nat): (w: nat)
    ensures w > 0
    ensures clientWidth > 0 ==> w == clientWidth
    ensures clientWidth == 0 ==> w == FallbackWidth
  {
    if clientWidth == 0 then FallbackWidth else clientWidth
  }

  /** Width of the plot area: the container width less the side margins (negative for a container under 90 wide). */
  function PlotWidth(containerWidth: int): int {
    containerWidth - ChartMargin.left - ChartMargin.right
  }

  /** The plot area and the margins add back up to the outer drawing, which is the container width by 400. */
  lemma OuterSize(clientWidth: nat)
    ensures PlotWidth(ContainerWidth(clientWidth)) + ChartMargin.left + ChartMargin.right == ContainerWidth(clientWidth)
    ensures PlotHeight + ChartMargin.top + ChartMargin.bottom == OuterHeight
    ensures PlotWidth(ContainerWidth(clientWidth)) == ContainerWidth(clientWidth) - 90 && PlotHeight == 310
  {
  }

  /** A closed interval of values, as an extent returns it. */
  datatype Interval = Interval(lo: int, hi: int)

  /**
   * A linear scale by its endpoints: the domain (absent when there was no
   * value to take an extent of) and the range it is stretched onto.
   */
  datatype Scale = Scale(domain: Option<Interval>, rangeStart: int, rangeEnd: int)

  /**
   * Where a value lands on a scale, in exact arithmetic: linear interpolation
   * from the domain onto the range; a one-point domain lands mid-range.
   */
  function Apply(s: Scale, v: int): real
    requires s.domain.Some?
  {
    var lo, hi := s.domain.value.lo, s.domain.value.hi;
    if lo == hi then (s.rangeStart + s.rangeEnd) as real / 2.0
    else s.rangeStart as real + (v - lo) as real * ((s.rangeEnd - s.rangeStart) as real / (hi - lo) as real)
  }

  /** The domain's low end lands on the range start and its high end on the range end. */
  lemma ScaleEndpoints(s: Scale)
    requires s.domain.Some? && s.domain.value.lo < s.domain.value.hi
    ensures Apply(s, s.domain.value.lo) == s.rangeStart as real
    ensures Apply(s, s.domain.value.hi) == s.rangeEnd as real
  {
    var lo, hi := s.domain.value.lo, s.domain.value.hi;
    var step := (s.rangeEnd - s.rangeStart) as real / (hi - lo) as real;
    assert (hi - lo) as real * step == (s.rangeEnd - s.rangeStart) as real;
  }

  /** Baseline of the legend row below the plot. */
  const LegendY: int := PlotHeight + ChartMargin.bottom - 15

  /** Left end of legend entry `i` of `seriesCount`: the row is cut into equal slots from the left margin. */
  function LegendX(plotWidth: int, seriesCount: nat, i: nat): real
    requires seriesCount > 0
  {
    ChartMargin.left as real + (plotWidth as real / seriesCount as real) * i as real
  }

  /** Legend entries start at the left margin, are a slot apart, and the slots end one plot width further. */
  lemma LegendSpacing(plotWidth: int, seriesCount: nat, i: nat)
    requires seriesCount > 0
    ensures LegendX(plotWidth, seriesCount, 0) == 60.0
    ensures LegendX(plotWidth, seriesCount, i + 1) - LegendX(plotWidth, seriesCount, i) == plotWidth as real / seriesCount as real
    ensures LegendX(plotWidth, seriesCount, seriesCount) == 60.0 + plotWidth as real
    ensures LegendY == PlotHeight + 35
  {
  }
}
