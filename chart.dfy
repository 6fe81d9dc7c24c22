/** The computable skeleton of `ChartComponent.createChart`: the guard on
    too little data, the chronological reordering, the value-axis ceiling,
    the inverted value mapping, the colour of each data point, and which
    threshold lines are drawn. The drawing calls themselves are not part of
    this model. */
module Chart {
  import opened Measurements
  import opened Status

  /** The margins around the plot, in pixels. */
  const MarginTop: int := 20
  const MarginRight: int := 30
  const MarginBottom: int := 40
  const MarginLeft: int := 50

  /** The total height of the chart element, in pixels. */
  const SvgHeight: int := 300

  /** The drawable height: the total height less the top and bottom margins. */
  const PlotHeight: real := (SvgHeight - MarginTop - MarginBottom) as real

  /** The value axis never tops out below this many centimetres. */
  const CeilingFloor: real := 50.0
  /** Headroom factor above the largest distance. */
  const Headroom: real := 1.1

  /** The three fixed reference lines. */
  const WarningThreshold: real := 15.0
  const ObserveThreshold: real := 25.0
  const AlertThreshold: real := 30.0

  /** The four colours the chart uses, for data points and threshold lines. */
  datatype Color = Red | Blue | Yellow | Green

  /** The CSS colour of each; no two colours share a code. */
  function Hex(c: Color): (s: string)
    ensures |s| == 7 && s[0] == '#'
    ensures s == "#ef4444" <==> c == Red
    ensures s == "#3b82f6" <==> c == Blue
    ensures s == "#eab308" <==> c == Yellow
    ensures s == "#22c55e" <==> c == Green
  {
    match c
    case Red => "#ef4444"
    case Blue => "#3b82f6"
    case Yellow => "#eab308"
    case Green => "#22c55e"
  }

  /** The fill of a data point: a four-tier rule, distinct from the
      three-tier summary classifier. */
  function MarkerColor(distance: real): (c: Color)
    ensures c == Red <==> distance >= 30.0
    ensures c == Blue <==> 26.0 <= distance < 30.0
    ensures c == Yellow <==> 16.0 <= distance < 26.0
    ensures c == Green <==> distance < 16.0
  {
    if distance >= 30.0 then Red
    else if distance >= 26.0 then Blue
    else if distance >= 16.0 then Yellow
    else Green
  }

  /** The colours at the tier boundaries. */
  lemma MarkerColorBoundaries()
    ensures MarkerColor(29.999) == Blue
    ensures MarkerColor(30.0) == Red
    ensures MarkerColor(25.999) == Yellow
    ensures MarkerColor(26.0) == Blue
    ensures MarkerColor(15.999) == Green
    ensures MarkerColor(16.0) == Yellow
  {
  }

  /** Where the two taxonomies agree and where they do not: outside the
      band (25, 30) the point colour matches the summary level, but inside
      it the summary says Alert while the point is yellow below 26 and
      blue from 26 on. */
  lemma MarkerColorVersusStatus(d: real)
    ensures d >= 30.0 ==> MarkerColor(d) == Red && GetDistanceStatus(Some(d)).level == Alert
    ensures 16.0 <= d <= 25.0 ==> MarkerColor(d) == Yellow && GetDistanceStatus(Some(d)).level == Warning
    ensures d < 16.0 ==> MarkerColor(d) == Green && GetDistanceStatus(Some(d)).level == Safe
    ensures 25.0 < d < 26.0 ==> MarkerColor(d) == Yellow && GetDistanceStatus(Some(d)).level == Alert
    ensures 26.0 <= d < 30.0 ==> MarkerColor(d) == Blue && GetDistanceStatus(Some(d)).level == Alert
  {
  }

  /** `d3.max` of the distances: the largest distance among the points. */
  function MaxDistance(points: seq<Measurement>): (r: real)
    requires |points| > 0
    ensures forall i :: 0 <= i < |points| ==> Distance(points[i]) <= r
    ensures exists i :: 0 <= i < |points| && Distance(points[i]) == r
  {
    if |points| == 1 then Distance(points[0])
    else
      var rest := MaxDistance(points[1..]);
      assert forall i :: 1 <= i < |points| ==> points[i] == points[1..][i - 1];
      if Distance(points[0]) >= rest then Distance(points[0]) else rest
  }

  /** The largest distance does not depend on the order of the points:
      the reversed copy has the same maximum as the window. */
  lemma MaxDistanceOfReverse(points: seq<Measurement>)
    requires |points| > 0
    ensures MaxDistance(Reverse(points)) == MaxDistance(points)
  {
    ReverseIsMirror(points);
    MaxDistanceOfMirror(points, Reverse(points));
  }

  lemma MaxDistanceOfMirror(points: seq<Measurement>, mirror: seq<Measurement>)
    requires |points| > 0 && |mirror| == |points|
    requires forall k :: 0 <= k < |points| ==> mirror[k] == points[|points| - 1 - k]
    ensures MaxDistance(mirror) == MaxDistance(points)
  {
    var n, a := |points|, MaxDistance(mirror);
    var i :| 0 <= i < n && Distance(mirror[i]) == a;
    assert points[n - 1 - i] == mirror[i];
    MirrorKeepsBound(points, mirror, a);
    MaxDistanceUnique(points, a, n - 1 - i);
  }

  /** A bound on the distances of the mirror image bounds the original. */
  lemma MirrorKeepsBound(points: seq<Measurement>, mirror: seq<Measurement>, bound: real)
    requires |mirror| == |points|
    requires forall k :: 0 <= k < |points| ==> mirror[k] == points[|points| - 1 - k]
    requires forall k :: 0 <= k < |mirror| ==> Distance(mirror[k]) <= bound
    ensures forall k :: 0 <= k < |points| ==> Distance(points[k]) <= bound
  {
    var n := |points|;
    forall k | 0 <= k < n
      ensures Distance(points[k]) <= bound
    {
      assert points[k] == mirror[n - 1 - k];
    }
  }

  /** A bound on every distance that some point attains is the maximum. */
  lemma MaxDistanceUnique(points: seq<Measurement>, x: real, i: int)
    requires 0 <= i < |points| && Distance(points[i]) == x
    requires forall k :: 0 <= k < |points| ==> Distance(points[k]) <= x
    ensures MaxDistance(points) == x
  {
  }

  /** The top of the value axis, `Math.max(50, max * 1.1)`. */
  function YCeiling(points: seq<Measurement>): (r: real)
    requires |points| > 0
    ensures r >= CeilingFloor && r >= Headroom * MaxDistance(points)
    ensures r == CeilingFloor || r == Headroom * MaxDistance(points)
  {
    var top := MaxDistance(points) * Headroom;
    if CeilingFloor >= top then CeilingFloor else top
  }

  /** Every plotted distance lies under the ceiling, so no point is drawn
      above the top of the plot. */
  lemma CeilingAboveData(points: seq<Measurement>, i: int)
    requires 0 <= i < |points|
    ensures 0.0 < YCeiling(points)
    ensures Distance(points[i]) <= YCeiling(points)
  {
    var top := MaxDistance(points);
    if top < 0.0 {
      assert Distance(points[i]) < CeilingFloor;
    } else {
      assert top <= Headroom * top;
    }
  }

  /** Short-range data gets the floor as ceiling: with every distance at
      most 50 / 1.1 (so with a maximum of 10, 20 or 40) the axis tops out at 50. */
  lemma CeilingFloorApplies(points: seq<Measurement>)
    requires |points| > 0
    requires forall i :: 0 <= i < |points| ==> Distance(points[i]) * 11.0 <= 500.0
    ensures YCeiling(points) == CeilingFloor
  {
    var i :| 0 <= i < |points| && Distance(points[i]) == MaxDistance(points);
  }

  /** Linear interpolation from the domain [d0, d1] onto the range [r0, r1],
      as a D3 linear scale computes it. */
  function Interpolate(d0: real, d1: real, r0: real, r1: real, v: real): (r: real)
    requires d0 != d1
    ensures v == d0 ==> r == r0
    ensures v == d1 ==> r == r1
  {
    DivideSelf(d1 - d0);
    r0 + (v - d0) / (d1 - d0) * (r1 - r0)
  }

  lemma DivideSelf(x: real)
    requires x != 0.0
    ensures x / x == 1.0
  {
    assert (x / x) * x == 1.0 * x;
  }

  /** The value scale: domain [0, ceiling] onto range [height, 0]. */
  function ScaleY(v: real, ceiling: real, height: real): (r: real)
    requires ceiling > 0.0
    ensures v == 0.0 ==> r == height
    ensures v == ceiling ==> r == 0.0
  {
    Interpolate(0.0, ceiling, height, 0.0, v)
  }

  /** Zero sits on the baseline and the ceiling at the top edge. */
  lemma ScaleYEndpoints(ceiling: real, height: real)
    requires ceiling > 0.0
    ensures ScaleY(0.0, ceiling, height) == height
    ensures ScaleY(ceiling, ceiling, height) == 0.0
  {
  }

  /** The mapping is strictly decreasing: a larger distance is drawn higher. */
  lemma ScaleYDecreasing(a: real, b: real, ceiling: real, height: real)
    requires ceiling > 0.0 && height > 0.0 && a < b
    ensures ScaleY(a, ceiling, height) > ScaleY(b, ceiling, height)
  {
    var fa, fb := a / ceiling, b / ceiling;
    DivideMonotone(a, b, ceiling);
    MultiplyMonotone(fa, fb, height);
    var ya, yb := fa * height, fb * height;
    assert ya < yb;
    assert ScaleY(a, ceiling, height) == height - ya;
    assert ScaleY(b, ceiling, height) == height - yb;
  }

  lemma DivideMonotone(a: real, b: real, c: real)
    requires c > 0.0 && a < b
    ensures a / c < b / c
  {
    assert b / c - a / c == (b - a) / c;
  }

  lemma MultiplyMonotone(x: real, y: real, h: real)
    requires h > 0.0 && x < y
    ensures x * h < y * h
  {
    assert y * h - x * h == (y - x) * h;
  }

  /** Values between zero and the ceiling land inside the plot. */
  lemma ScaleYWithinPlot(v: real, ceiling: real, height: real)
    requires ceiling > 0.0 && height >= 0.0 && 0.0 <= v <= ceiling
    ensures 0.0 <= ScaleY(v, ceiling, height) <= height
  {
    var f := v / ceiling;
    assert 0.0 <= f <= 1.0 by {
      assert f * ceiling == v;
    }
    assert ScaleY(v, ceiling, height) == height - f * height;
    assert 0.0 <= f * height <= height by {
      assert height - f * height == (1.0 - f) * height;
    }
  }

  /** One circle per data point: the point, its height on the plot and
      its fill colour. (The horizontal position is the time scale's.) */
  datatype Marker = Marker(point: Measurement, cy: real, color: Color) {
    /** The circle's `fill` style: the code of its colour, so two markers
        have the same fill exactly when they have the same colour. */
    function Fill(): (s: string)
      ensures s == Hex(color)
      ensures |s| == 7 && s[0] == '#'
    {
      Hex(color)
    }
  }

  /** The circle drawn for one row: placed by the value scale, filled by
      the four-tier colour rule; a distance within the axis lands within
      the plot. */
  function MarkerFor(m: Measurement, ceiling: real, height: real): (r: Marker)
    requires ceiling > 0.0
    ensures r.point == m
    ensures r.color == MarkerColor(Distance(m))
    ensures 0.0 <= Distance(m) <= ceiling && height >= 0.0 ==> 0.0 <= r.cy <= height
    ensures Distance(m) == 0.0 ==> r.cy == height
  {
    var cy := ScaleY(Distance(m), ceiling, height);
    if 0.0 <= Distance(m) <= ceiling && height >= 0.0 then
      ScaleYWithinPlot(Distance(m), ceiling, height);
      Marker(m, cy, MarkerColor(Distance(m)))
    else
      Marker(m, cy, MarkerColor(Distance(m)))
  }

  /** The data join `selectAll("dot").data(points).enter().append("circle")`. */
  function Markers(points: seq<Measurement>, ceiling: real, height: real): (ms: seq<Marker>)
    requires ceiling > 0.0
    ensures |ms| == |points|
    ensures forall i :: 0 <= i < |points| ==> ms[i].point == points[i]
    ensures forall i :: 0 <= i < |points| ==> ms[i].color == MarkerColor(Distance(points[i]))
    ensures forall i :: 0 <= i < |points| && 0.0 <= Distance(points[i]) <= ceiling && height >= 0.0 ==>
      0.0 <= ms[i].cy <= height
  {
    seq(|points|, i requires 0 <= i < |points| => MarkerFor(points[i], ceiling, height))
  }

  /** A dashed reference line with its label. */
  datatype ThresholdLine = ThresholdLine(value: real, y: real, color: Color, caption: string)

  /** The line for `threshold` when the axis ceiling exceeds it, else none. */
  function LineIfVisible(threshold: real, color: Color, caption: string, ceiling: real, height: real): (s: seq<ThresholdLine>)
    requires ceiling > 0.0
    ensures |s| == (if ceiling > threshold then 1 else 0)
    ensures s != [] ==> s[0].value == threshold && s[0].color == color && s[0].caption == caption
    ensures s != [] && threshold >= 0.0 && height >= 0.0 ==> 0.0 <= s[0].y <= height
  {
    if ceiling > threshold && threshold >= 0.0 && height >= 0.0 then
      ScaleYWithinPlot(threshold, ceiling, height);
      [ThresholdLine(threshold, ScaleY(threshold, ceiling, height), color, caption)]
    else if ceiling > threshold then [ThresholdLine(threshold, ScaleY(threshold, ceiling, height), color, caption)] else []
  }

  /** The warning, observe and alert lines, in drawing order, each only
      when the ceiling exceeds its value. */
  function ThresholdLines(ceiling: real, height: real): (lines: seq<ThresholdLine>)
    requires ceiling > 0.0
    ensures |lines| <= 3
    ensures forall k :: 0 <= k < |lines| ==> lines[k].value < ceiling
    ensures forall k :: 0 <= k < |lines| ==>
      lines[k].value == WarningThreshold || lines[k].value == ObserveThreshold || lines[k].value == AlertThreshold
    ensures forall j, k :: 0 <= j < k < |lines| ==> lines[j].value < lines[k].value
  {
    LineIfVisible(WarningThreshold, Yellow, "Warning Threshold (15cm)", ceiling, height)
    + LineIfVisible(ObserveThreshold, Blue, "Observe Threshold (25cm)", ceiling, height)
    + LineIfVisible(AlertThreshold, Red, "Alert Threshold (30cm)", ceiling, height)
  }

  /** Each threshold line is drawn if and only if the ceiling exceeds it. */
  lemma ThresholdVisibility(ceiling: real, height: real, t: real)
    requires ceiling > 0.0
    requires t == WarningThreshold || t == ObserveThreshold || t == AlertThreshold
    ensures (exists k :: 0 <= k < |ThresholdLines(ceiling, height)| && ThresholdLines(ceiling, height)[k].value == t)
        <==> ceiling > t
  {
    var lines := ThresholdLines(ceiling, height);
    if ceiling > t {
      var k := (if ceiling > WarningThreshold then 1 else 0) + (if ceiling > ObserveThreshold then 1 else 0);
      var k' := if t == WarningThreshold then 0 else if t == ObserveThreshold then k - (if ceiling > ObserveThreshold then 1 else 0) else k;
      assert lines[k'].value == t;
    }
  }

  /** Because the ceiling is at least 50, a rendered chart always shows all
      three lines, in order, each inside the plot. */
  lemma AllThresholdsDrawn(points: seq<Measurement>, height: real)
    requires |points| > 0 && height >= 0.0
    ensures |ThresholdLines(YCeiling(points), height)| == 3
    ensures ThresholdLines(YCeiling(points), height)[0].value == WarningThreshold
    ensures ThresholdLines(YCeiling(points), height)[1].value == ObserveThreshold
    ensures ThresholdLines(YCeiling(points), height)[2].value == AlertThreshold
    ensures forall k :: 0 <= k < 3 ==> 0.0 <= ThresholdLines(YCeiling(points), height)[k].y <= height
  {
    var c := YCeiling(points);
    ScaleYWithinPlot(WarningThreshold, c, height);
    ScaleYWithinPlot(ObserveThreshold, c, height);
    ScaleYWithinPlot(AlertThreshold, c, height);
  }

  /** What a rendering puts on the page, less the drawing primitives. */
  datatype Drawing = Drawing(
    chartData: seq<Measurement>,
    width: int,
    height: real,
    ceiling: real,
    markers: seq<Marker>,
    thresholds: seq<ThresholdLine>)

  /** The markers of a rendered window come in chronological order: one
      per row, the oldest row first, each placed and coloured by its own
      distance, and a larger distance placed higher. */
  lemma MarkersOfWindow(window: seq<Measurement>)
    requires |window| >= 2
    ensures |Markers(Reverse(window), YCeiling(Reverse(window)), PlotHeight)| == |window|
    ensures forall i :: 0 <= i < |window| ==>
      Markers(Reverse(window), YCeiling(Reverse(window)), PlotHeight)[i].point == window[|window| - 1 - i]
    ensures forall i, j ::
      (0 <= i < |window| && 0 <= j < |window| &&
       Distance(window[|window| - 1 - i]) < Distance(window[|window| - 1 - j])) ==>
        Markers(Reverse(window), YCeiling(Reverse(window)), PlotHeight)[i].cy
          > Markers(Reverse(window), YCeiling(Reverse(window)), PlotHeight)[j].cy
  {
    ReverseIsMirror(window);
    var c := YCeiling(Reverse(window));
    var ms := Markers(Reverse(window), c, PlotHeight);
    forall i, j | 0 <= i < |window| && 0 <= j < |window| &&
      Distance(window[|window| - 1 - i]) < Distance(window[|window| - 1 - j])
      ensures ms[i].cy > ms[j].cy
    {
      ScaleYDecreasing(Distance(window[|window| - 1 - i]), Distance(window[|window| - 1 - j]), c, PlotHeight);
    }
  }

  /** The chart component. `drawing` stands for what the container shows
      (the chart element on the page, if any), not for the component's own
      `svg` reference, which the guard leaves stale. */
  class ChartComponent {
    var drawing: Option<Drawing>

    constructor ()
      ensures drawing == None
    {
      drawing := None;
    }

    /** `createChart`. `clientWidth` is the container element's width, or
        `None` when there is no container. Any previous drawing is removed;
        with fewer than two points (or no container) nothing is drawn. */
    method CreateChart(data: seq<Measurement>, clientWidth: Option<int>)
      modifies this
      ensures clientWidth.None? || |data| < 2 ==> drawing == None
      ensures clientWidth.Some? && |data| >= 2 ==>
        && drawing.Some?
        && drawing.value.chartData == Reverse(data)
        && drawing.value.width == clientWidth.value - MarginLeft - MarginRight
        && drawing.value.height == PlotHeight
        && drawing.value.ceiling == YCeiling(data)
        && drawing.value.markers == Markers(Reverse(data), YCeiling(data), PlotHeight)
        && drawing.value.thresholds == ThresholdLines(YCeiling(data), PlotHeight)
    {
      drawing := None;
      if clientWidth.None? || |data| < 2 {
        return;
      }
      var chartData := Reverse(data);
      var width := clientWidth.value - MarginLeft - MarginRight;
      var height := PlotHeight;
      MaxDistanceOfReverse(data);
      var ceiling := YCeiling(chartData);
      var markers := Markers(chartData, ceiling, height);
      var thresholds := ThresholdLines(ceiling, height);
      drawing := Some(Drawing(chartData, width, height, ceiling, markers, thresholds));
    }
  }

  /** Two rows, 40 cm at a later time and 10 cm at an earlier one (newest
      first, as the window holds them): the chart runs from the 10 cm point
      to the 40 cm point, colours them green then red, tops out at 50 and
      shows all three threshold lines. */
  lemma TwoPointScenario(early: Measurement, late: Measurement)
    requires Distance(early) == 10.0 && Distance(late) == 40.0
    requires early.createdAt < late.createdAt
    ensures Reverse([late, early]) == [early, late]
    ensures OldestFirst(Reverse([late, early]))
    ensures YCeiling([early, late]) == CeilingFloor
    ensures YCeiling([late, early]) == CeilingFloor
    ensures Markers([early, late], CeilingFloor, PlotHeight)[0].color == Green
    ensures Markers([early, late], CeilingFloor, PlotHeight)[1].color == Red
    ensures Markers([early, late], CeilingFloor, PlotHeight)[0].Fill() == "#22c55e"
    ensures Markers([early, late], CeilingFloor, PlotHeight)[1].Fill() == "#ef4444"
    ensures Markers([early, late], CeilingFloor, PlotHeight)[1].cy
          < Markers([early, late], CeilingFloor, PlotHeight)[0].cy
    ensures |ThresholdLines(CeilingFloor, PlotHeight)| == 3
  {
    assert Reverse([early]) == [early];
    var c := YCeiling([early, late]);
    assert MaxDistance([early, late]) == 40.0;
    MaxDistanceOfReverse([late, early]);
    ScaleYDecreasing(10.0, 40.0, CeilingFloor, PlotHeight);
  }
}
