/**
 * Per-series values: the samples behind the y extents, the extent itself,
 * the projection of one series into the points a path is drawn through,
 * and the palette and names of the series.
 */
module Series {
  import opened Wrappers
  import opened ChartData
  import opened Geometry

  /** Which sample of a point's `y` is read: the whole scalar, or component `index` of a per-series array. */
  datatype Selector = Whole | Component(index: nat)

  /**
   * The sample a selector reads. A `y` whose shape does not match the selector,
   * or an index past the end of the array, reads as missing.
   */
  function ValueOf(y: Y, sel: Selector): Option<int> {
    match sel
    case Whole => if y.Scalar? then y.sample else None
    case Component(i) => if y.Multi? && i < |y.samples| then y.samples[i] else None
  }

  /** One point handed to the line generator: `[x, y]` with `y` possibly null. */
  datatype Datum = Datum(x: int, y: Option<int>)

  /** The non-null samples, in order. */
  function Present(vs: seq<Option<int>>): (r: seq<int>)
    ensures |r| <= |vs|
  {
    if vs == [] then [] else (if vs[0].Some? then [vs[0].value] else []) + Present(vs[1..])
  }

  /** A value survives the filter exactly when it was there as a non-null sample. */
  lemma {:induction false} PresentMembers(vs: seq<Option<int>>)
    ensures forall v :: v in Present(vs) <==> Some(v) in vs
  {
    if vs != [] {
      PresentMembers(vs[1..]);
      assert vs == [vs[0]] + vs[1..];
    }
  }

  /** Filtering nulls keeps the order: it distributes over concatenation. */
  lemma {:induction false} PresentAppend(a: seq<Option<int>>, b: seq<Option<int>>)
    ensures Present(a + b) == Present(a) + Present(b)
  {
    if a != [] {
      var head := if a[0].Some? then [a[0].value] else [];
      calc {
        Present(a + b);
        { assert (a + b)[0] == a[0] && (a + b)[1..] == a[1..] + b; }
        head + Present(a[1..] + b);
        { PresentAppend(a[1..], b); }
        head + (Present(a[1..]) + Present(b));
        (head + Present(a[1..])) + Present(b);
      }
    } else {
      assert a + b == b;
    }
  }

  /** Every non-null sample survives the filter. */
  lemma PresentKeeps(vs: seq<Option<int>>, k: nat)
    requires k < |vs| && vs[k].Some?
    ensures vs[k].value in Present(vs)
  {
    PresentMembers(vs);
    var v := vs[k].value;
    assert Some(v) in vs by {
      assert vs[k] == Some(v);
    }
    assert v in Present(vs);
  }

  /** The smallest and largest value, or nothing for no values. */
  function Extent(xs: seq<int>): (e: Option<Interval>)
    ensures e.None? <==> xs == []
  {
    if xs == [] then None
    else
      match Extent(xs[1..])
      case None => Some(Interval(xs[0], xs[0]))
      case Some(iv) =>
        Some(Interval(if xs[0] < iv.lo then xs[0] else iv.lo, if xs[0] > iv.hi then xs[0] else iv.hi))
  }

  /** Both ends of an extent are among the values, and every value lies between them. */
  lemma {:induction false} ExtentBounds(xs: seq<int>)
    ensures Extent(xs).Some? ==> Extent(xs).value.lo in xs && Extent(xs).value.hi in xs
    ensures Extent(xs).Some? ==> forall v :: v in xs ==> Extent(xs).value.lo <= v <= Extent(xs).value.hi
  {
    if xs != [] {
      ExtentBounds(xs[1..]);
      assert xs == [xs[0]] + xs[1..];
    }
  }

  /** The x of every point, in order. */
  function XValues(points: seq<Point>): seq<int> {
    seq(|points|, k requires 0 <= k < |points| => points[k].x)
  }

  /** The scalar `y` of every point, nulls included (single series). */
  function ScalarSamples(points: seq<Point>): seq<Option<int>> {
    seq(|points|, k requires 0 <= k < |points| => ValueOf(points[k].y, Whole))
  }

  /** The samples one point contributes when all `y` are flattened: its array, or its scalar. */
  function SamplesOf(y: Y): seq<Option<int>> {
    match y
    case Scalar(v) => [v]
    case Multi(vs) => vs
  }

  /** Every sample of every point, flattened one level (multi series). */
  function FlatSamples(points: seq<Point>): (r: seq<Option<int>>) {
    if points == [] then [] else SamplesOf(points[0].y) + FlatSamples(points[1..])
  }

  /** A sample is in the flattening exactly when it is a sample of some point. */
  lemma {:induction false} FlatSamplesMembers(points: seq<Point>)
    ensures forall s :: s in FlatSamples(points) <==> exists k :: 0 <= k < |points| && s in SamplesOf(points[k].y)
  {
    if points != [] {
      FlatSamplesMembers(points[1..]);
      var r := FlatSamples(points);
      assert r == SamplesOf(points[0].y) + FlatSamples(points[1..]);
      forall s | s in r
        ensures exists k :: 0 <= k < |points| && s in SamplesOf(points[k].y)
      {
        if s !in SamplesOf(points[0].y) {
          var k :| 0 <= k < |points[1..]| && s in SamplesOf(points[1..][k].y);
          assert points[1..][k] == points[k + 1];
        }
      }
      forall s, k | 0 <= k < |points| && s in SamplesOf(points[k].y)
        ensures s in r
      {
        if k > 0 {
          assert points[1..][k - 1] == points[k];
        }
      }
    }
  }

  /** The y-extent of a single-series chart: over the non-null scalars. */
  function SingleExtent(points: seq<Point>): Option<Interval> {
    Extent(Present(ScalarSamples(points)))
  }

  /** The y-extent of a multi-series chart: over every non-null sample of every point. */
  function MultiExtent(points: seq<Point>): Option<Interval> {
    Extent(Present(FlatSamples(points)))
  }

  /** The single-series y-extent bounds exactly the non-null scalars, and is absent when all are null. */
  lemma SingleExtentBounds(points: seq<Point>)
    ensures SingleExtent(points).None? <==> forall k :: 0 <= k < |points| ==> ValueOf(points[k].y, Whole).None?
    ensures SingleExtent(points).Some? ==>
      var iv := SingleExtent(points).value;
      && (exists k :: 0 <= k < |points| && ValueOf(points[k].y, Whole) == Some(iv.lo))
      && (exists k :: 0 <= k < |points| && ValueOf(points[k].y, Whole) == Some(iv.hi))
      && forall k :: 0 <= k < |points| && ValueOf(points[k].y, Whole).Some? ==>
           iv.lo <= ValueOf(points[k].y, Whole).value <= iv.hi
  {
    var samples := ScalarSamples(points);
    PresentMembers(samples);
    ExtentBounds(Present(samples));
    if SingleExtent(points).None? {
      forall k | 0 <= k < |points|
        ensures ValueOf(points[k].y, Whole).None?
      {
        assert samples[k] == ValueOf(points[k].y, Whole);
        if samples[k].Some? {
          PresentKeeps(samples, k);
        }
      }
    } else {
      var iv := SingleExtent(points).value;
      assert Some(iv.lo) in samples && Some(iv.hi) in samples;
      forall k | 0 <= k < |points| && ValueOf(points[k].y, Whole).Some?
        ensures iv.lo <= ValueOf(points[k].y, Whole).value <= iv.hi
      {
        assert samples[k] == ValueOf(points[k].y, Whole);
        PresentKeeps(samples, k);
      }
      var k0 :| 0 <= k0 < |samples| && samples[k0] == Some(iv.lo);
      var k1 :| 0 <= k1 < |samples| && samples[k1] == Some(iv.hi);
      assert ValueOf(points[k0].y, Whole) == Some(iv.lo);
      assert ValueOf(points[k1].y, Whole) == Some(iv.hi);
    }
  }

  /** The multi-series y-extent bounds every non-null sample of every point and series, and is reached by two of them. */
  lemma MultiExtentBounds(points: seq<Point>, k: nat, j: nat, v: int)
    requires k < |points| && points[k].y.Multi? && j < |points[k].y.samples| && points[k].y.samples[j] == Some(v)
    ensures MultiExtent(points).Some?
    ensures MultiExtent(points).value.lo <= v <= MultiExtent(points).value.hi
    ensures exists k' :: 0 <= k' < |points| && Some(MultiExtent(points).value.lo) in SamplesOf(points[k'].y)
    ensures exists k' :: 0 <= k' < |points| && Some(MultiExtent(points).value.hi) in SamplesOf(points[k'].y)
  {
    FlatSamplesMembers(points);
    PresentMembers(FlatSamples(points));
    ExtentBounds(Present(FlatSamples(points)));
    assert Some(v) in SamplesOf(points[k].y);
    assert Some(v) in FlatSamples(points);
    assert v in Present(FlatSamples(points));
    var iv := MultiExtent(points).value;
    assert Some(iv.lo) in FlatSamples(points) && Some(iv.hi) in FlatSamples(points);
  }

  /** `[x, sample]` for every point, nulls included, in order: the `map` before the filter. */
  function Pairs(points: seq<Point>, sel: Selector): (ds: seq<Datum>)
    ensures |ds| == |points|
  {
    seq(|points|, k requires 0 <= k < |points| => Datum(points[k].x, ValueOf(points[k].y, sel)))
  }

  /** The datums whose `y` is not null, in order: the `filter`. */
  function DropNulls(ds: seq<Datum>): (r: seq<Datum>)
    ensures |r| <= |ds|
  {
    if ds == [] then [] else (if ds[0].y.Some? then [ds[0]] else []) + DropNulls(ds[1..])
  }

  /** A datum survives the filter exactly when it was there and is not null. */
  lemma {:induction false} DropNullsMembers(ds: seq<Datum>)
    ensures forall d :: d in DropNulls(ds) <==> d in ds && d.y.Some?
  {
    if ds != [] {
      DropNullsMembers(ds[1..]);
      assert ds == [ds[0]] + ds[1..];
    }
  }

  /** The filter keeps the order: it distributes over concatenation. */
  lemma {:induction false} DropNullsAppend(a: seq<Datum>, b: seq<Datum>)
    ensures DropNulls(a + b) == DropNulls(a) + DropNulls(b)
  {
    if a == [] {
      assert a + b == b;
    } else {
      var head := if a[0].y.Some? then [a[0]] else [];
      calc {
        DropNulls(a + b);
        { assert (a + b)[0] == a[0] && (a + b)[1..] == a[1..] + b; }
        head + DropNulls(a[1..] + b);
        { DropNullsAppend(a[1..], b); }
        head + (DropNulls(a[1..]) + DropNulls(b));
        (head + DropNulls(a[1..])) + DropNulls(b);
      }
    }
  }

  /**
   * The data of one drawn path: `[x, sample]` for every point whose selected
   * sample is not null, in the original order.
   */
  function Project(points: seq<Point>, sel: Selector): (r: seq<Datum>)
    ensures |r| <= |points|
  {
    DropNulls(Pairs(points, sel))
  }

  /** A datum is on the path exactly when it is a point's `[x, sample]` with a non-null sample. */
  lemma ProjectMembers(points: seq<Point>, sel: Selector)
    ensures forall d :: d in Project(points, sel) <==>
      d.y.Some? && exists k :: 0 <= k < |points| && d == Datum(points[k].x, ValueOf(points[k].y, sel))
  {
    var ds := Pairs(points, sel);
    DropNullsMembers(ds);
    forall d | d in ds && d.y.Some?
      ensures exists k :: 0 <= k < |points| && d == Datum(points[k].x, ValueOf(points[k].y, sel))
    {
      var k :| 0 <= k < |ds| && ds[k] == d;
    }
    forall d: Datum, k | d.y.Some? && 0 <= k < |points| && d == Datum(points[k].x, ValueOf(points[k].y, sel))
      ensures d in ds
    {
      assert ds[k] == d;
    }
  }

  /** Projection keeps the order of the points: it distributes over concatenation. */
  lemma ProjectAppend(a: seq<Point>, b: seq<Point>, sel: Selector)
    ensures Project(a + b, sel) == Project(a, sel) + Project(b, sel)
  {
    assert Pairs(a + b, sel) == Pairs(a, sel) + Pairs(b, sel);
    DropNullsAppend(Pairs(a, sel), Pairs(b, sel));
  }

  /** A single point is drawn exactly when its selected sample is not null. */
  lemma ProjectOne(p: Point, sel: Selector)
    ensures Project([p], sel) == if ValueOf(p.y, sel).Some? then [Datum(p.x, ValueOf(p.y, sel))] else []
  {
    assert Pairs([p], sel) == [Datum(p.x, ValueOf(p.y, sel))];
    assert Pairs([p], sel)[1..] == [];
  }

  /**
   * What the line generator draws between datums: a segment joins two
   * consecutive datums that are both defined (their `y` is not null).
   */
  predicate Connected(ds: seq<Datum>, a: int, b: int) {
    exists k :: 0 <= k < |ds| - 1 && ds[k].y.Some? && ds[k + 1].y.Some? && ds[k].x == a && ds[k + 1].x == b
  }

  /** Every consecutive pair of a projected path is joined: the path has no gap at all. */
  lemma ProjectionHasNoGap(points: seq<Point>, sel: Selector, k: nat)
    requires k + 1 < |Project(points, sel)|
    ensures Connected(Project(points, sel), Project(points, sel)[k].x, Project(points, sel)[k + 1].x)
  {
    var r := Project(points, sel);
    DropNullsMembers(Pairs(points, sel));
    assert r[k] in r && r[k + 1] in r;
  }

  /**
   * `[[0, 1], [1, null], [2, 3]]`: the null is dropped before the line
   * generator sees it, so the line joins x = 0 to x = 2, where the same data
   * handed over with its null would have been broken there.
   */
  lemma NullIsBridged()
    ensures var points := [Point(0, Scalar(Some(1))), Point(1, Scalar(None)), Point(2, Scalar(Some(3)))];
      && Project(points, Whole) == [Datum(0, Some(1)), Datum(2, Some(3))]
      && Connected(Project(points, Whole), 0, 2)
      && !Connected([Datum(0, Some(1)), Datum(1, None), Datum(2, Some(3))], 0, 2)
  {
    var p0, p1, p2 := Point(0, Scalar(Some(1))), Point(1, Scalar(None)), Point(2, Scalar(Some(3)));
    var ds := Pairs([p0, p1, p2], Whole);
    assert ds == [Datum(0, Some(1)), Datum(1, None), Datum(2, Some(3))];
    assert ds[1..] == [Datum(1, None), Datum(2, Some(3))] && ds[1..][1..] == [Datum(2, Some(3))] && ds[1..][1..][1..] == [];
    assert DropNulls(ds[1..][1..]) == [Datum(2, Some(3))];
    assert DropNulls(ds[1..]) == [Datum(2, Some(3))];
    var r := Project([p0, p1, p2], Whole);
    assert r == [Datum(0, Some(1)), Datum(2, Some(3))];
    assert r[0].x == 0 && r[1].x == 2;
  }

  /** The six series colours. */
  const Palette: seq<string> := ["blue", "green", "red", "purple", "orange", "teal"]

  /** Colour of series `i`: the palette, cycled. */
  function Colour(i: nat): (c: string)
    ensures c in Palette
  {
    Palette[i % |Palette|]
  }

  /** Two series share a colour exactly when their indices agree modulo six. */
  lemma ColourCycle(i: nat, j: nat)
    ensures Colour(i) == Colour(j) <==> i % 6 == j % 6
  {
    var a, b := i % 6, j % 6;
    if a != b {
      assert Palette[a][0] != Palette[b][0] || |Palette[a]| != |Palette[b]|;
    }
  }

  /** A digit character. */
  function DigitChar(d: nat): char
    requires d < 10
  {
    ('0' as int + d) as char
  }

  predicate IsDigit(c: char) {
    '0' as int <= c as int <= '9' as int
  }

  /** Decimal notation of a natural number, as a template literal prints it. */
  function Digits(n: nat): (s: string)
    ensures |s| > 0 && forall c :: c in s ==> IsDigit(c)
  {
    if n < 10 then [DigitChar(n)] else Digits(n / 10) + [DigitChar(n % 10)]
  }

  /** Reads decimal notation back. */
  function ParseDigits(s: string): nat
    requires forall c :: c in s ==> IsDigit(c)
  {
    if s == [] then 0
    else
      assert s[|s| - 1] in s && IsDigit(s[|s| - 1]);
      ParseDigits(s[..|s| - 1]) * 10 + (s[|s| - 1] as int - '0' as int)
  }

  lemma {:induction false} DigitsRoundTrip(n: nat)
    ensures ParseDigits(Digits(n)) == n
  {
    var s := Digits(n);
    if n < 10 {
      assert s[..|s| - 1] == [];
    } else {
      assert s[..|s| - 1] == Digits(n / 10);
      DigitsRoundTrip(n / 10);
    }
  }

  /** The names used when none are given: `Series 1` .. `Series count`. */
  function DefaultNames(count: nat): seq<string> {
    seq(count, i requires 0 <= i < count => "Series " + Digits(i + 1))
  }

  /** The default names are one per series, all different, and series `i` is named after `i + 1`. */
  lemma DefaultNamesDistinct(count: nat, i: nat, j: nat)
    requires i < count && j < count
    ensures |DefaultNames(count)| == count
    ensures DefaultNames(count)[i][..7] == "Series " && ParseDigits(DefaultNames(count)[i][7..]) == i + 1
    ensures DefaultNames(count)[i] == DefaultNames(count)[j] <==> i == j
  {
    var ni, nj := DefaultNames(count)[i], DefaultNames(count)[j];
    assert ni[7..] == Digits(i + 1) && nj[7..] == Digits(j + 1);
    DigitsRoundTrip(i + 1);
    DigitsRoundTrip(j + 1);
  }

  /** `seriesNames` when given (as it is, whatever its length), else the default names. */
  function SeriesNames(given: Option<seq<string>>, seriesCount: nat): seq<string> {
    if given.Some? then given.value else DefaultNames(seriesCount)
  }

  /** Entry `i` of the names, `None` (undefined) past their end. */
  function Label(names: seq<string>, i: nat): Option<string> {
    if i < |names| then Some(names[i]) else None
  }

  /** The label of series `i`: the given name, undefined when the given names run out, else `Series i+1`. */
  lemma LabelRule(given: Option<seq<string>>, seriesCount: nat, i: nat)
    requires i < seriesCount
    ensures given.None? ==> Label(SeriesNames(given, seriesCount), i) == Some("Series " + Digits(i + 1))
    ensures given.Some? && i < |given.value| ==> Label(SeriesNames(given, seriesCount), i) == Some(given.value[i])
    ensures given.Some? && i >= |given.value| ==> Label(SeriesNames(given, seriesCount), i) == None
  {
  }
}
