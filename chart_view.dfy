/**
 * The chart component's render pass: the component state it keeps and the
 * container element it draws into, both updated in place.
 */
module ChartView {
  import opened Wrappers
  import opened ChartData
  import opened Geometry
  import opened Series
  import opened Scene

  /** The container element the chart is drawn into: its children, in order, and its measured width. */
  class Surface {
    var children: seq<Element>
    var clientWidth: nat

    /** A container with no children yet, as wide as the layout made it. */
    constructor (clientWidth: nat)
      ensures children == [] && this.clientWidth == clientWidth
    {
      children := [];
      this.clientWidth := clientWidth;
    }

    /** Removes every child. */
    method Clear()
      modifies this`children
      ensures children == []
    {
      children := [];
    }

    /** Adds `e` after the existing children. */
    method Append(e: Element)
      modifies this`children
      ensures children == old(children) + [e]
    {
      children := children + [e];
    }
  }

  /** The component: its state variables, which each render pass sets. */
  class Chart {
    var error: Option<string>
    var width: int
    var height: int
    var margin: Margin
    var x: Option<Scale>
    var data: seq<Point>

    /** The state before the first render pass. */
    constructor ()
      ensures error == None && width == 0 && height == 0 && margin == ChartMargin && x == None && data == []
    {
      error := None;
      width := 0;
      height := 0;
      margin := ChartMargin;
      x := None;
      data := [];
    }

    /**
     * One render pass. `node` is the container, `null` while it is not
     * mounted. The checks run first, in order; a pass that stops at one of
     * them leaves the container and every state variable except `error` as
     * they were. A pass that gets through clears the container and then
     * fills it with exactly the drawing of the input, at the container's
     * width.
     */
    method RenderChart(chartData: Option<ChartDescription>, node: Surface?)
      modifies this, node
      ensures node != null ==> node.clientWidth == old(node.clientWidth)
      ensures Validate(chartData, node != null).Fail? ==> error == Some(Validate(chartData, node != null).message)
      ensures !Validate(chartData, node != null).Fail? ==> error == None
      ensures !Validate(chartData, node != null).Proceed? ==>
        && width == old(width) && height == old(height) && margin == old(margin) && x == old(x) && data == old(data)
        && (node != null ==> node.children == old(node.children))
      ensures Validate(chartData, node != null).Proceed? ==>
        var v := Validate(chartData, node != null);
        && node != null
        && node.children == Drawing(v.title, v.points, v.seriesNames, node.clientWidth)
        && width == PlotWidth(ContainerWidth(node.clientWidth)) && height == PlotHeight && margin == ChartMargin
        && x == Some(XScale(v.points, width)) && data == v.points
    {
      error := None;
      if chartData.None? {
        error := Some(MissingDataMessage);
        return;
      }
      if node == null {
        return;
      }
      var description := chartData.value;
      if !TitleGiven(description.title) {
        error := Some(MissingTitleMessage);
        return;
      }
      if !DataUsable(description.data) {
        error := Some(InvalidDataMessage);
        return;
      }
      var title := description.title.value;
      var points := description.data.points;

      node.Clear();

      var containerWidth := ContainerWidth(node.clientWidth);
      var newMargin := ChartMargin;
      var newWidth := containerWidth - newMargin.left - newMargin.right;
      var newHeight := OuterHeight - newMargin.top - newMargin.bottom;
      margin := newMargin;
      width := newWidth;
      height := newHeight;

      data := points;
      x := Some(XScale(points, newWidth));
      Draw(node, title, points, description.seriesNames);
    }
  }

  /** The appends of a pass that got through its checks, in order: the frame, then the series. */
  method Draw(node: Surface, title: string, points: seq<Point>, given: Option<seq<string>>)
    requires |points| > 0
    modifies node`children
    ensures node.children == old(node.children) + Drawing(title, points, given, node.clientWidth)
  {
    ghost var start := node.children;
    var frame := Frame(title, points, node.clientWidth);
    AppendFrame(node, title, points);
    ghost var series: seq<Element>;
    if IsMultiSeries(Some(points)) {
      AppendMultiSeries(node, points, given);
      series := MultiSeriesElements(points, given, PlotWidth(ContainerWidth(node.clientWidth)));
    } else {
      AppendSingleSeries(node, points);
      series := SingleSeriesElements(points);
    }
    Associative(start, frame, series);
  }

  /** Appending in two steps is appending the two parts together. */
  lemma Associative(a: seq<Element>, b: seq<Element>, c: seq<Element>)
    ensures (a + b) + c == a + (b + c)
  {
  }

  /** The outer drawing, the plot group, the title, the x axis and its label. */
  method AppendFrame(node: Surface, title: string, points: seq<Point>)
    modifies node`children
    ensures node.children == old(node.children) + Frame(title, points, node.clientWidth)
  {
    var newMargin := ChartMargin;
    var newWidth := PlotWidth(ContainerWidth(node.clientWidth));
    var newHeight := PlotHeight;
    node.Append(Svg(newWidth + newMargin.left + newMargin.right, newHeight + newMargin.top + newMargin.bottom));
    node.Append(Plot(newMargin.left, newMargin.top));
    node.Append(Title(title, newWidth as real / 2.0, -newMargin.top as real / 2.0));
    node.Append(XAxis(Scale(Extent(XValues(points)), 0, newWidth), newHeight as real));
    node.Append(XLabel(newWidth as real / 2.0, (newHeight + newMargin.bottom - 10) as real));
  }

  /** The y axis over every series' samples, its label, then one path and one legend entry per series. */
  method AppendMultiSeries(node: Surface, points: seq<Point>, given: Option<seq<string>>)
    requires IsMultiSeries(Some(points))
    modifies node`children
    ensures node.children == old(node.children) + MultiSeriesElements(points, given, PlotWidth(ContainerWidth(node.clientWidth)))
  {
    var newWidth := PlotWidth(ContainerWidth(node.clientWidth));
    var newHeight := PlotHeight;
    var seriesCount := |points[0].y.samples|;
    node.Append(YAxis(Scale(MultiExtent(points), newHeight, 0)));
    node.Append(YLabel(-(newHeight as real / 2.0), (0 - ChartMargin.left) as real));
    var names := SeriesNames(given, seriesCount);
    ghost var head := node.children;
    assert head == old(node.children) + YElements(YScale(MultiExtent(points)));
    AppendAllSeries(node, points, names, newWidth, seriesCount);
    Associative(old(node.children), YElements(YScale(MultiExtent(points))), Entries(points, names, newWidth, seriesCount, seriesCount));
  }

  /** The loop over the series: series `0`, `1`, ... in turn, each adding its entry. */
  method AppendAllSeries(node: Surface, points: seq<Point>, names: seq<string>, plotWidth: int, seriesCount: nat)
    modifies node`children
    ensures node.children == old(node.children) + Entries(points, names, plotWidth, seriesCount, seriesCount)
  {
    var i := 0;
    while i < seriesCount
      invariant 0 <= i <= seriesCount
      invariant node.children == old(node.children) + Entries(points, names, plotWidth, seriesCount, i)
    {
      AppendSeries(node, points, names, plotWidth, seriesCount, i);
      Associative(old(node.children), Entries(points, names, plotWidth, seriesCount, i), SeriesEntry(points, names, plotWidth, seriesCount, i));
      i := i + 1;
    }
  }

  /** Series `i` of `seriesCount`: its path through its non-null samples, then its legend line and legend text. */
  method AppendSeries(node: Surface, points: seq<Point>, names: seq<string>, plotWidth: int, seriesCount: nat, i: nat)
    requires i < seriesCount
    modifies node`children
    ensures node.children == old(node.children) + SeriesEntry(points, names, plotWidth, seriesCount, i)
  {
    var colour := Colour(i);
    node.Append(Line(colour, Project(points, Component(i))));
    var legendY := PlotHeight + ChartMargin.bottom - 15;
    var legendX := LegendX(plotWidth, seriesCount, i);
    node.Append(LegendLine(colour, legendX, legendX + 20.0, legendY as real));
    node.Append(LegendText(Label(names, i), legendX + 25.0, (legendY + 4) as real));
  }

  /** The y axis over the single series' samples, its label and the one path. */
  method AppendSingleSeries(node: Surface, points: seq<Point>)
    modifies node`children
    ensures node.children == old(node.children) + SingleSeriesElements(points)
  {
    var newHeight := PlotHeight;
    node.Append(YAxis(Scale(SingleExtent(points), newHeight, 0)));
    node.Append(YLabel(-(newHeight as real / 2.0), (0 - ChartMargin.left) as real));
    node.Append(Line(SingleColour, Project(points, Whole)));
  }

  /**
   * Two render passes over the same input, the second one run after the
   * component has re-rendered: while `error` is set the error panel stands in
   * for the container, so the second pass finds it unmounted. The container
   * ends up with the same children either way. The error is the same again,
   * except after a failed title or data check: that failure unmounts the
   * container, so the second pass returns silently and clears the error.
   */
  method RenderTwice(chart: Chart, chartData: Option<ChartDescription>, node: Surface)
    returns (once: seq<Element>, twice: seq<Element>, errorOnce: Option<string>, errorTwice: Option<string>)
    modifies chart, node
    ensures once == twice
    ensures chartData.Some? && Validate(chartData, true).Fail? ==> errorOnce.Some? && errorTwice == None
    ensures !(chartData.Some? && Validate(chartData, true).Fail?) ==> errorTwice == errorOnce
  {
    chart.RenderChart(chartData, node);
    once, errorOnce := node.children, chart.error;
    var mounted: Surface? := if chart.error.Some? then null else node;
    chart.RenderChart(chartData, mounted);
    twice, errorTwice := node.children, chart.error;
  }
}
