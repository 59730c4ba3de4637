/**
 * What one successful render pass leaves on the drawing surface, in the
 * order it is appended: the element sequence as a function of the input.
 */
module Scene {
  import opened Wrappers
  import opened ChartData
  import opened Geometry
  import opened Series

  /** One appended element, with the attributes the renderer computes (styling left aside). */
  datatype Element =
    | Svg(width: int, height: int)                        // the outer drawing
    | Plot(dx: int, dy: int)                              // the group translated to the plot origin
    | Title(text: string, x: real, y: real)
    | XAxis(scale: Scale, y: real)                         // bottom axis, moved down to the plot's base
    | XLabel(x: real, y: real)                             // "Time"
    | YAxis(scale: Scale)                                 // left axis
    | YLabel(x: real, y: real)                             // "Value", rotated
    | Line(colour: string, data: seq<Datum>)              // a path drawn through its data
    | LegendLine(colour: string, x1: real, x2: real, y: real)
    | LegendText(name: Option<string>, x: real, y: real)

  /** The colour of the single-series line. */
  const SingleColour: string := "steelblue"

  /** The horizontal scale: the extent of the x values onto `[0, plotWidth]`. */
  function XScale(points: seq<Point>, plotWidth: int): Scale {
    Scale(Extent(XValues(points)), 0, plotWidth)
  }

  /** A vertical scale: an extent onto `[plotHeight, 0]`, inverted so that larger values are higher. */
  function YScale(extent: Option<Interval>): Scale {
    Scale(extent, PlotHeight, 0)
  }

  /**
   * The vertical scale is inverted: the top of the extent lands on the top
   * edge of the plot, the bottom on its base, and a larger value is drawn
   * higher up.
   */
  lemma {:induction false} YScaleOrientation(extent: Interval, v: int, w: int)
    requires extent.lo < extent.hi
    ensures Apply(YScale(Some(extent)), extent.hi) == 0.0
    ensures Apply(YScale(Some(extent)), extent.lo) == 310.0
    ensures v < w ==> Apply(YScale(Some(extent)), w) < Apply(YScale(Some(extent)), v)
  {
    var s := YScale(Some(extent));
    ScaleEndpoints(s);
    var step := (0 - PlotHeight) as real / (extent.hi - extent.lo) as real;
    assert step < 0.0;
    if v < w {
      assert (w - extent.lo) as real * step < (v - extent.lo) as real * step by {
        assert ((w - extent.lo) as real - (v - extent.lo) as real) * step < 0.0;
      }
    }
  }

  /** Number of series of a multi-series chart: the length of the first point's array. */
  function SeriesCount(points: seq<Point>): nat
    requires IsMultiSeries(Some(points))
  {
    |points[0].y.samples|
  }

  /** The elements every successful pass starts with, up to the x axis label. */
  function Frame(title: string, points: seq<Point>, clientWidth: nat): seq<Element> {
    var w := PlotWidth(ContainerWidth(clientWidth));
    [ Svg(w + ChartMargin.left + ChartMargin.right, PlotHeight + ChartMargin.top + ChartMargin.bottom),
      Plot(ChartMargin.left, ChartMargin.top),
      Title(title, w as real / 2.0, -ChartMargin.top as real / 2.0),
      XAxis(XScale(points, w), PlotHeight as real),
      XLabel(w as real / 2.0, (PlotHeight + ChartMargin.bottom - 10) as real) ]
  }

  /** The vertical axis and its label. */
  function YElements(y: Scale): seq<Element> {
    [YAxis(y), YLabel(-(PlotHeight as real / 2.0), (0 - ChartMargin.left) as real)]
  }

  /** What series `i` adds: its path, then its legend line and legend text. */
  function SeriesEntry(points: seq<Point>, names: seq<string>, plotWidth: int, seriesCount: nat, i: nat): seq<Element>
    requires seriesCount > 0
  {
    var x := LegendX(plotWidth, seriesCount, i);
    [ Line(Colour(i), Project(points, Component(i))),
      LegendLine(Colour(i), x, x + 20.0, LegendY as real),
      LegendText(Label(names, i), x + 25.0, (LegendY + 4) as real) ]
  }

  /** The entries of series `0 .. n - 1`, in that order. */
  function Entries(points: seq<Point>, names: seq<string>, plotWidth: int, seriesCount: nat, n: nat): (r: seq<Element>)
    requires n <= seriesCount
    ensures |r| == 3 * n
  {
    if n == 0 then [] else Entries(points, names, plotWidth, seriesCount, n - 1) + SeriesEntry(points, names, plotWidth, seriesCount, n - 1)
  }

  /** What a multi-series pass appends after the frame: the y axis over every series, its label, then the entries of all series. */
  function MultiSeriesElements(points: seq<Point>, given: Option<seq<string>>, plotWidth: int): seq<Element>
    requires IsMultiSeries(Some(points))
  {
    var count := SeriesCount(points);
    YElements(YScale(MultiExtent(points))) + Entries(points, SeriesNames(given, count), plotWidth, count, count)
  }

  /** What a single-series pass appends after the frame: the y axis, its label and the one path. */
  function SingleSeriesElements(points: seq<Point>): seq<Element> {
    YElements(YScale(SingleExtent(points))) + [Line(SingleColour, Project(points, Whole))]
  }

  /** The element sequence of a successful render pass. */
  function Drawing(title: string, points: seq<Point>, given: Option<seq<string>>, clientWidth: nat): (r: seq<Element>)
    requires |points| > 0
    ensures |r| == 7 + if IsMultiSeries(Some(points)) then 3 * SeriesCount(points) else 1
    ensures r[0] == Svg(ContainerWidth(clientWidth), OuterHeight)
  {
    Frame(title, points, clientWidth) +
      if IsMultiSeries(Some(points)) then MultiSeriesElements(points, given, PlotWidth(ContainerWidth(clientWidth)))
      else SingleSeriesElements(points)
  }

  /** A slice past the left part of a concatenation is a slice of the right part. */
  lemma SliceRight(a: seq<Element>, b: seq<Element>, lo: nat, hi: nat)
    requires lo <= hi <= |b|
    ensures (a + b)[|a| + lo..|a| + hi] == b[lo..hi]
  {
  }

  /** Block `i` of three elements, after `n - 1` blocks have been followed by one more. */
  lemma BlockAt(prev: seq<Element>, last: seq<Element>, n: nat, i: nat)
    requires |prev| == 3 * (n - 1) && |last| == 3 && i < n
    ensures i < n - 1 ==> (prev + last)[3 * i..3 * i + 3] == prev[3 * i..3 * i + 3]
    ensures i == n - 1 ==> (prev + last)[3 * i..3 * i + 3] == last
  {
    if i == n - 1 {
      assert (prev + last)[3 * i..3 * i + 3] == (prev + last)[|prev|..];
    }
  }

  /** Entry `i` sits at positions `3 i .. 3 i + 2`. */
  lemma {:induction false} EntriesAt(points: seq<Point>, names: seq<string>, plotWidth: int, seriesCount: nat, n: nat, i: nat)
    requires i < n <= seriesCount
    ensures Entries(points, names, plotWidth, seriesCount, n)[3 * i..3 * i + 3] == SeriesEntry(points, names, plotWidth, seriesCount, i)
  {
    var prev := Entries(points, names, plotWidth, seriesCount, n - 1);
    var last := SeriesEntry(points, names, plotWidth, seriesCount, n - 1);
    BlockAt(prev, last, n, i);
    if i < n - 1 {
      EntriesAt(points, names, plotWidth, seriesCount, n - 1, i);
    }
  }

  /** In a multi-series drawing, series `i`'s entry sits at positions `7 + 3 i .. 9 + 3 i`, after the frame and the y elements. */
  lemma DrawingEntryAt(title: string, points: seq<Point>, given: Option<seq<string>>, clientWidth: nat, i: nat)
    requires |points| > 0 && IsMultiSeries(Some(points)) && i < SeriesCount(points)
    ensures
      var count := SeriesCount(points);
      Drawing(title, points, given, clientWidth)[7 + 3 * i..10 + 3 * i] ==
        SeriesEntry(points, SeriesNames(given, count), PlotWidth(ContainerWidth(clientWidth)), count, i)
  {
    var count := SeriesCount(points);
    var w := PlotWidth(ContainerWidth(clientWidth));
    var names := SeriesNames(given, count);
    var frame := Frame(title, points, clientWidth);
    var ys := YElements(YScale(MultiExtent(points)));
    var entries := Entries(points, names, w, count, count);
    assert Drawing(title, points, given, clientWidth) == frame + (ys + entries);
    EntriesAt(points, names, w, count, count, i);
    SliceRight(ys, entries, 3 * i, 3 * i + 3);
    SliceRight(frame, ys + entries, 2 + 3 * i, 5 + 3 * i);
  }

  /**
   * In a multi-series drawing, series `i` gets one path through exactly its
   * non-null samples, in the colour `i` cycles to, and one legend entry in
   * the `i`-th slot labelled with its name.
   */
  lemma MultiSeriesEntry(title: string, points: seq<Point>, given: Option<seq<string>>, clientWidth: nat, i: nat)
    requires |points| > 0 && IsMultiSeries(Some(points)) && i < SeriesCount(points)
    ensures
      var x := LegendX(PlotWidth(ContainerWidth(clientWidth)), SeriesCount(points), i);
      Drawing(title, points, given, clientWidth)[7 + 3 * i..10 + 3 * i] ==
        [ Line(Palette[i % 6], Project(points, Component(i))),
          LegendLine(Palette[i % 6], x, x + 20.0, 345.0),
          LegendText(Label(SeriesNames(given, SeriesCount(points)), i), x + 25.0, 349.0) ]
  {
    DrawingEntryAt(title, points, given, clientWidth, i);
  }

  /**
   * In a multi-series drawing the frame is followed by the y axis over the
   * samples of every series, mapped onto [310, 0], and its label.
   */
  lemma MultiSeriesAxes(title: string, points: seq<Point>, given: Option<seq<string>>, clientWidth: nat)
    requires |points| > 0 && IsMultiSeries(Some(points))
    ensures Drawing(title, points, given, clientWidth)[5..7] ==
      [YAxis(Scale(MultiExtent(points), 310, 0)), YLabel(-155.0, -60.0)]
  {
    var w := PlotWidth(ContainerWidth(clientWidth));
    var count := SeriesCount(points);
    var frame := Frame(title, points, clientWidth);
    var ys := YElements(YScale(MultiExtent(points)));
    var entries := Entries(points, SeriesNames(given, count), w, count, count);
    assert Drawing(title, points, given, clientWidth) == frame + (ys + entries);
    SliceRight(frame, ys + entries, 0, 2);
  }

  /** In a single-series drawing the y axis is followed by its label and the one steelblue line through the non-null points. */
  lemma SingleSeriesLine(title: string, points: seq<Point>, given: Option<seq<string>>, clientWidth: nat)
    requires |points| > 0 && !IsMultiSeries(Some(points))
    ensures Drawing(title, points, given, clientWidth)[5..] ==
      [YAxis(Scale(SingleExtent(points), 310, 0)), YLabel(-155.0, -60.0), Line("steelblue", Project(points, Whole))]
  {
  }

  /**
   * Every successful pass starts with the same five elements, whatever the
   * shape of the data: the sized svg, the translated plot group, the centred
   * title, the x axis at the plot's base and its label.
   */
  lemma DrawingStartsWithFrame(title: string, points: seq<Point>, given: Option<seq<string>>, clientWidth: nat)
    requires |points| > 0
    ensures
      var w := PlotWidth(ContainerWidth(clientWidth));
      Drawing(title, points, given, clientWidth)[..5] ==
        [ Svg(ContainerWidth(clientWidth), 400), Plot(60, 40), Title(title, w as real / 2.0, -20.0),
          XAxis(Scale(Extent(XValues(points)), 0, w), 310.0), XLabel(w as real / 2.0, 350.0) ]
  {
    var r := Drawing(title, points, given, clientWidth);
    assert r[..5] == Frame(title, points, clientWidth);
  }
}
