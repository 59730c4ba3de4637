# d3-chart: a verified model of the chart render pass

The chart component (`src/components/Chart.jsx`) takes a chart description: a title, a data array of `[x, y]` points and optional series names. It draws a line chart into a container element. Each render pass goes through these steps:

1. It checks the description in a fixed order and stops with an error message, or silently, at the first check that fails.
2. It clears the container.
3. It computes the layout from fixed margins and the container's width.
4. It appends the elements of the chart one at a time:
   - the svg and its plot group;
   - the title;
   - the x axis and its label;
   - the y axis and its label;
   - then either one steelblue path (single series) or, for each series, a path, a legend line and a legend text (multi series).

The model follows this pass.

- `wrappers.dfy`: `Option`.
- `chart_data.dfy` (module `ChartData`):
  - the input: points, a `y` that is a scalar or an array of nullable samples, and the chart description;
  - the single/multi-series classification;
  - the validation, as a `Verdict`: proceed, return silently, or fail with a message.
- `geometry.dfy` (module `Geometry`):
  - the margins, the `clientWidth || 800` fallback and the plot size;
  - scales, kept as their domain and range endpoints, with an exact-arithmetic `Apply` used to state orientation;
  - the legend positions.
- `series.dfy` (module `Series`):
  - the y extents over the non-null samples;
  - the projection of one series into the data of its path, nulls dropped;
  - what the line generator joins;
  - the palette, and the default series names with a decimal round trip.
- `scene.dfy` (module `Scene`):
  - the element type;
  - `Drawing`, the element sequence a successful pass leaves in the container, as a function of the input and the container width;
  - lemmas locating each part of it.
- `chart_view.dfy` (module `ChartView`):
  - the container as a `Surface` class, holding a sequence of children and its `clientWidth`;
  - the component as a `Chart` class, holding its state variables `error`, `width`, `height`, `margin`, `x` and `data`;
  - `RenderChart`, which clears and appends in place. It is proved to leave exactly `Drawing(...)` in the container, or to leave everything but `error` untouched when a check fails.

The container reference is a nullable `Surface` parameter: `null` is an unmounted container. The container's measured width is a field of the `Surface`.

**The null handling contradicts itself, and the model follows what runs.** Both line generators carry the guard `.defined(d => d[1] !== null)` with the comment "Skip null values" (lines 138 and 208). That guard is how d3 breaks a line at a missing datum, so a gap at each null was evidently meant. But the data handed to the path is filtered first (`filter(d => d[1] !== null)` at lines 146 and 212). The guard therefore never rejects a datum, and the line joins the points on either side of a null. `Series.Project` models the filter. `Series.ProjectionHasNoGap` proves that every consecutive pair on a path is joined. `Series.NullIsBridged` works through `[[0,1],[1,null],[2,3]]`: the path joins x = 0 to x = 2.

## Model

| member | source | states |
|---|---|---|
| ChartData.IsMultiSeriesReadsFirstPointOnly | src/components/Chart.jsx:15-19 | Absent or empty data is single series. Otherwise the result is whether the first point's `y` is an array, whatever the later points are. |
| ChartData.Validate | src/components/Chart.jsx:26-43 | A pass proceeds only with a mounted container, a non-empty title string and a non-empty data array. The proceeding verdict carries exactly that title, those points and the given series names. |
| ChartData.ValidationOrder | src/components/Chart.jsx:26-43 | Each outcome happens if and only if every earlier check passes and its own check fails: missing description, then unmounted container (silent), then missing title, then absent, non-array or empty data. Every failure carries one of the three messages. |
| Geometry.ContainerWidth | src/components/Chart.jsx:49 | The container width is the client width when that is non-zero. It is always positive (800 when the client width is 0). |
| Geometry.OuterSize | src/components/Chart.jsx:52-64 | The plot width is the container width less 90 and the plot height is 310. With the margins added back, the svg is exactly the container width by 400. |
| Geometry.ScaleEndpoints | src/components/Chart.jsx:85-87 | A linear scale maps its domain's low end to its range start and its high end to its range end. |
| Geometry.LegendSpacing | src/components/Chart.jsx:157-158 | The first legend entry sits at x = 60, each next one a slot of plotWidth / seriesCount further, and the row ends one plot width after the margin. The legend baseline is plotHeight + 35. |
| Series.Present | src/components/Chart.jsx:185 | Filtering out nulls never lengthens the sequence. |
| Series.PresentMembers | src/components/Chart.jsx:185 | A value survives the null filter if and only if it was there as a non-null sample. |
| Series.PresentKeeps | src/components/Chart.jsx:115 | Every non-null sample survives the filter. |
| Series.PresentAppend | src/components/Chart.jsx:185 | Filtering out nulls keeps the order: it distributes over concatenation. |
| Series.Extent | src/components/Chart.jsx:84 | The extent is absent if and only if there are no values. |
| Series.ExtentBounds | src/components/Chart.jsx:84 | Both ends of an extent are among the values, and every value lies between them. |
| Series.FlatSamplesMembers | src/components/Chart.jsx:114 | A sample is in the flattening of the points' `y` arrays if and only if it is a sample of some point. |
| Series.SingleExtentBounds | src/components/Chart.jsx:185 | The single-series y domain is absent exactly when every `y` is null. Otherwise it bounds every non-null `y`, and both ends are the `y` of some point. |
| Series.MultiExtentBounds | src/components/Chart.jsx:113-115 | The multi-series y domain exists once any sample is non-null and bounds every non-null sample of every point and series. Both ends are samples of some point. |
| Series.Pairs | src/components/Chart.jsx:146 | Mapping the points to `[x, y_i]` keeps one pair per point. |
| Series.DropNulls | src/components/Chart.jsx:146 | The filter never lengthens the data. |
| Series.DropNullsMembers | src/components/Chart.jsx:146 | A pair survives the filter if and only if it was present and is not null, so no null is left. |
| Series.DropNullsAppend | src/components/Chart.jsx:146 | The filter keeps the order: it distributes over concatenation. |
| Series.Project | src/components/Chart.jsx:146 | The data of a series' path is never longer than the data. |
| Series.ProjectMembers | src/components/Chart.jsx:211-212 | A datum is on the path if and only if it is `[x, sample]` of some point whose selected sample is not null. |
| Series.ProjectAppend | src/components/Chart.jsx:146 | The path keeps the points' order: projection distributes over concatenation. |
| Series.ProjectOne | src/components/Chart.jsx:212 | A single point is on the path exactly when its selected sample is not null. |
| Series.ProjectionHasNoGap | src/components/Chart.jsx:134-138 | The defined-guard joins every consecutive pair of a path's data, so a drawn path has no break. |
| Series.NullIsBridged | src/components/Chart.jsx:204-212 | For `[[0,1],[1,null],[2,3]]` the path data is `[[0,1],[2,3]]` and the line joins x = 0 to x = 2. The unfiltered data would not be joined there. |
| Series.Colour | src/components/Chart.jsx:147 | A series colour is always one of the six palette colours. |
| Series.ColourCycle | src/components/Chart.jsx:141-147 | Two series get the same colour if and only if their indices agree modulo 6. |
| Series.Digits | src/components/Chart.jsx:142 | The decimal notation of a number is non-empty and all digits. |
| Series.DigitsRoundTrip | src/components/Chart.jsx:142 | Reading the decimal notation back gives the number. |
| Series.DefaultNamesDistinct | src/components/Chart.jsx:142 | There is one default name per series. Name `i` is `Series ` followed by the decimal notation of i + 1, and two default names are equal if and only if their indices are. |
| Series.LabelRule | src/components/Chart.jsx:142 | Without given names series `i` is labelled `Series i+1`. With given names it takes name `i` as given, and is undefined past their end, even for an empty array. |
| Scene.YScaleOrientation | src/components/Chart.jsx:187-189 | The y scale maps the top of the extent to the plot's top edge (0) and the bottom to its base (310). A larger value is drawn higher. |
| Scene.Entries | src/components/Chart.jsx:145-176 | The loop's first `n` rounds append exactly 3n elements. |
| Scene.Drawing | src/components/Chart.jsx:60-216 | A successful pass appends 7 + 3·seriesCount elements (multi series) or 8 (single series). The first is the svg, sized container width by 400. |
| Scene.DrawingStartsWithFrame | src/components/Chart.jsx:60-105 | Every successful pass starts with the same five elements: the sized svg, the plot group at (60, 40), the centred title, the x axis at the plot's base over the x extent, and its label. |
| Scene.EntriesAt | src/components/Chart.jsx:145-176 | Round `i` of the loop appends series `i`'s path, legend line and legend text at positions 3i to 3i + 2 of what the loop appends. |
| Scene.DrawingEntryAt | src/components/Chart.jsx:145-176 | In a multi-series drawing, series `i`'s entry sits at positions 7 + 3i to 9 + 3i, after the five frame elements and the two y elements. |
| Scene.MultiSeriesEntry | src/components/Chart.jsx:145-176 | In a multi-series drawing, elements 7 + 3i to 9 + 3i are: series `i`'s path through exactly its non-null samples in colour `palette[i mod 6]`; a legend line from x to x + 20 at y = 345; and the label at (x + 25, 349), where x is the legend slot of `i`. |
| Scene.MultiSeriesAxes | src/components/Chart.jsx:113-132 | In a multi-series drawing, elements 5 and 6 are the y axis over the samples of every series, mapped onto [310, 0], and its label. |
| Scene.SingleSeriesLine | src/components/Chart.jsx:191-216 | In a single-series drawing, the y axis over the non-null extent onto [310, 0] is followed by its label and by one steelblue path through the non-null points in order. |
| ChartView.Surface.constructor | src/components/Chart.jsx:250 | A fresh container has no children and the given width. |
| ChartView.Surface.Clear | src/components/Chart.jsx:46 | Clearing removes every child. |
| ChartView.Surface.Append | src/components/Chart.jsx:61-62 | Appending adds the element after the existing children. |
| ChartView.Chart.constructor | src/components/Chart.jsx:6-12 | The initial state: no error, width and height 0, the default margins, no x scale, no data. |
| ChartView.Chart.RenderChart | src/components/Chart.jsx:22-222 | The error is the verdict's message on a failed check and null otherwise. A stopped pass leaves the container and every other state variable unchanged. A pass that proceeds leaves the container holding exactly the drawing of the input at the container's width, and sets width, height, margins, x scale and data. |
| ChartView.Draw | src/components/Chart.jsx:60-216 | The appends of a pass that got through its checks add exactly `Drawing(...)` after the existing children. |
| ChartView.AppendFrame | src/components/Chart.jsx:60-105 | Appends the svg, the plot group, the title, the x axis and the x label. |
| ChartView.AppendMultiSeries | src/components/Chart.jsx:107-176 | Appends the y axis over all series, its label, and then, through the loop, each series' entry in index order. |
| ChartView.AppendAllSeries | src/components/Chart.jsx:145-176 | The loop over the series adds the entries of series 0 to seriesCount - 1 in index order. |
| ChartView.AppendSeries | src/components/Chart.jsx:146-175 | One round of the loop appends series `i`'s path, legend line and legend text. |
| ChartView.AppendSingleSeries | src/components/Chart.jsx:181-216 | Appends the y axis over the single series, its label and the steelblue path. |
| ChartView.RenderTwice | src/components/Chart.jsx:22-251 | A second pass over the same input, with the container unmounted while the error panel shows, leaves the same children as the first. The error is the same again, except after a failed title or data check: the second pass then finds no container and clears the error. |

## Left out

- React machinery is not modelled: `useState` setters as scheduled updates, `useCallback`, the effects that re-run the pass, and the resize listener's registration and cleanup (lines 224-240). Setters are plain field writes. The error panel's swap for the container (lines 244-251) appears only in `RenderTwice`, as the second pass's unmounted container.
- ChartView.RenderTwice: the container keeps its width between the two passes. A real resize also changes `clientWidth`, and the second pass then draws at the new width. The later passes that the effects keep triggering are not modelled either.
- ChartView.Chart.RenderChart: the `x` field holds the x scale. In the source `setX(newX)` (line 90) passes a d3 scale, which is a function, and React calls a function given to a setter as an updater. The source's `x` state therefore becomes `newX(previous x)`, not the scale.
- ChartView.Surface: the children are one flat sequence in append order. In the source the container holds only the svg (lines 61-62), the plot group is the svg's child (line 65), and every later element is the plot group's child (lines 69-216). Clearing is unaffected, since line 46 removes every descendant.
- The `svg` state variable (`setSvg`, line 93) is a handle on a DOM selection, so `Chart` has no field for it.
- The `try`/`catch` paths (lines 177-180 and 217-220) and their messages are not modelled: what d3 throws is not visible. The model's passes always complete.
- d3 internals are not modelled:
  - the floating-point mapping of `scaleLinear` (`Apply` is exact arithmetic, and a one-point domain maps mid-range);
  - axis ticks;
  - the path's `d` string;
  - what `d3.extent` does beyond min and max (an empty input is an absent domain).
- Styling attributes (font sizes, stroke widths, anchors, the rotate transform, `dy`) and `console.error` are not modelled.
- Numbers are modelled as integers: `x`, `y` and widths are `int`, and the layout's divisions are real.
- A truthy title that is not a string is not modelled: a title is an optional string.
- Series.ValueOf: a point whose `y` does not have the first point's shape reads as a missing sample, and the point is dropped from that series' path. The source differs in three cases:
  - a non-null scalar among arrays, or an array too short for series `i`: JavaScript gives `undefined`, and `undefined !== null` lets the sample through the filter at line 146;
  - a `null` y among arrays: `d[1][i]` at line 146 throws a TypeError, the catch at lines 177-179 sets "Error rendering multi-series chart: …", and the y axis and its label are already appended. The model draws the whole chart instead;
  - an array among scalars in a single-series chart: the array reaches `d3.extent` and the path as it is, where the model drops the point.
- Series.Project: inherits the convention above. For ragged arrays the path drops the datum, where the source keeps an `undefined` one.
- src/App.jsx is not part of this model. It loads `data.json` and maps the records to chart components.
