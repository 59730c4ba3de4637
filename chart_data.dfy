/**
 * The chart description the renderer consumes, the order in which it is
 * validated, and the single-/multi-series classification.
 */
module ChartData {
  import opened Wrappers

  /** The `y` of a data point: one sample (single series) or one sample per series. A `None` sample is `null`. */
  datatype Y = Scalar(sample: Option<int>) | Multi(samples: seq<Option<int>>)

  /** A data point `[x, y]`. */
  datatype Point = Point(x: int, y: Y)

  /** The `data` property as the renderer sees it: missing, some value that is not an array, or an array. */
  datatype DataField = Absent | NotArray | Array(points: seq<Point>)

  /** A chart description; an absent or non-string `title` is `None`, an absent `seriesNames` is `None`. */
  datatype ChartDescription = ChartDescription(title: Option<string>, data: DataField, seriesNames: Option<seq<string>>)

  const MissingDataMessage: string := "Chart data is missing"
  const MissingTitleMessage: string := "Chart title is missing"
  const InvalidDataMessage: string := "Chart data is invalid or empty"

  /** JavaScript truthiness of the title: present and not the empty string. */
  predicate TitleGiven(title: Option<string>) {
    title.Some? && title.value != ""
  }

  /** The data test that passes: an array with at least one point. */
  predicate DataUsable(data: DataField) {
    data.Array? && |data.points| > 0
  }

  /**
   * Single- or multi-series: false for absent or empty data, otherwise decided
   * by the shape of the first point's `y` alone.
   */
  function IsMultiSeries(data: Option<seq<Point>>): bool {
    if data.None? || |data.value| == 0 then false else data.value[0].y.Multi?
  }

  /** No point after the first takes part in the classification. */
  lemma IsMultiSeriesReadsFirstPointOnly(p: Point, rest: seq<Point>, other: seq<Point>)
    ensures IsMultiSeries(Some([p] + rest)) == IsMultiSeries(Some([p] + other)) == p.y.Multi?
    ensures !IsMultiSeries(None) && !IsMultiSeries(Some([]))
  {
  }

  /** How a render pass ends its checks: draw, return silently, or report a message. */
  datatype Verdict =
    | Proceed(title: string, points: seq<Point>, seriesNames: Option<seq<string>>)
    | Skip
    | Fail(message: string)

  /**
   * The checks that run before anything is drawn, in source order: the
   * description, the mounted container, the title, then the data array.
   */
  function Validate(chartData: Option<ChartDescription>, mounted: bool): (v: Verdict)
    ensures v.Proceed? ==>
      && mounted && v.title != [] && |v.points| > 0
      && chartData == Some(ChartDescription(Some(v.title), Array(v.points), v.seriesNames))
  {
    if chartData.None? then Fail(MissingDataMessage)
    else if !mounted then Skip
    else if !TitleGiven(chartData.value.title) then Fail(MissingTitleMessage)
    else if !DataUsable(chartData.value.data) then Fail(InvalidDataMessage)
    else Proceed(chartData.value.title.value, chartData.value.data.points, chartData.value.seriesNames)
  }

  /**
   * Each outcome happens exactly when the earlier checks pass and its own check
   * fails, and every message names one cause.
   */
  lemma ValidationOrder(chartData: Option<ChartDescription>, mounted: bool)
    ensures Validate(chartData, mounted) == Fail(MissingDataMessage) <==> chartData.None?
    ensures Validate(chartData, mounted) == Skip <==> chartData.Some? && !mounted
    ensures Validate(chartData, mounted) == Fail(MissingTitleMessage) <==>
      chartData.Some? && mounted && !TitleGiven(chartData.value.title)
    ensures Validate(chartData, mounted) == Fail(InvalidDataMessage) <==>
      chartData.Some? && mounted && TitleGiven(chartData.value.title) && !DataUsable(chartData.value.data)
    ensures Validate(chartData, mounted).Proceed? <==>
      chartData.Some? && mounted && TitleGiven(chartData.value.title) && DataUsable(chartData.value.data)
    ensures Validate(chartData, mounted).Fail? ==>
      Validate(chartData, mounted).message in {MissingDataMessage, MissingTitleMessage, InvalidDataMessage}
  {
  }
}
