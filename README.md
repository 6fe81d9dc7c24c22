# Distance-sensor dashboard: the decision and sequence rules

This project models, in Dafny, the logic at the heart of a small dashboard
that shows live distance-sensor readings. The logic has three parts:

- **the status classifier** (`getDistanceStatus`): an optional distance
  becomes `unknown`, `safe`, `warning` or `alert`, and each level carries a
  fixed label and CSS classes;
- **the measurement window** (the `measurements` signal of `AppComponent`):
  a newest-first list of rows. It is seeded from the initial batch. Each
  streamed row is prepended, and the last row is popped once the list holds
  more than 50. `latestMeasurement` is its first element. The start-up
  sequence `ngOnInit` always ends with loading cleared and sets the error
  message on failure;
- **the chart's arithmetic** (`ChartComponent.createChart` without the D3
  drawing calls): the fewer-than-two-points guard, the chronological
  reversal, the value-axis ceiling `max(50, 1.1 × max distance)`, the
  inverted linear value scale over a 240-pixel plot, the four-tier point
  colour, one marker per point, and the visibility guards of the 15/25/30
  reference lines.

Distances are exact `real`s, so `1.1` is exact. `created_at` is an
already-parsed integer timestamp. The row type `MedicionDistancia` becomes
`Measurements.Measurement`: `id`, `createdAt`, `deviceId`, and
`sensorData` holding `distanceCm` and `alert`.

Modules: `Measurements` (measurement.dfy: the row type, `Option`, reversal
and ordering), `Status` (status.dfy), `Window` (window.dfy: the update
rule as functions and the `MeasurementWindow` class), `App` (app.dfy: the
component's flags and start-up), `Chart` (chart.dfy).

Two values follow from the code as written:
- The drawable height is 300 − 20 − 40 = 240 pixels.
- A distance of 29.999 gives a blue point, because the code tests
  `dist >= 26`.

## Model

| member | source | states |
|---|---|---|
| Status.GetDistanceStatus | src/app.component.ts:58-70 | absent distance ⇔ `Unknown`; present: `Alert` ⇔ d > 25, `Warning` ⇔ 16 ≤ d ≤ 25, `Safe` ⇔ d < 16; the record is always the level's fixed display record |
| Status.Display | src/app.component.ts:60-69 | each level's fixed record carries that level |
| Status.ClassificationMonotone | src/app.component.ts:62-69 | a ≤ b ⇒ level(a) ≤ level(b) in safe < warning < alert, and a present distance is never `Unknown` |
| Status.ClassifierBoundaries | src/app.component.ts:58-69 | absent → "Unknown"; 16 and 25 → warning; 15.999 and 0 → safe; 25.001 → alert |
| Window.Pushed | src/app.component.ts:34-41 | the new row is element 0; the rest is a prefix of the old window (order kept, only the oldest can go); the length grows by one below the cap and stays the same at or above it |
| Window.PushedKeepsCap | src/app.component.ts:35-39 | from a window of at most 50 rows a push gives min(old + 1, 50) rows, so "length ≤ 50" is preserved |
| Window.PushedContents | src/app.component.ts:35-39 | below 50 the result is `[m] + old`; at 50 it is `[m] + old[..49]` |
| Window.PushedMultiset | src/app.component.ts:35-39 | below the cap the rows are the old rows plus one more copy of `m`; at or above the cap, one copy of the last row leaves as well |
| Window.PushedDuplicateId | src/app.component.ts:35-39 | no deduplication: on a window of at most 50 rows, a row whose id is already present among the rows a push keeps (any but the 50th) is still added, so the id then occurs at least twice, and the length is min(old + 1, 50) |
| Window.PushAll | src/app.component.ts:33-41 | after a non-empty run of pushes the last row pushed is in front; a window within the cap stays within it; the window never shrinks |
| Window.PushAllKeepsNewest | src/app.component.ts:33-41 | after any run of pushes onto a window of at most 50, the window is (pushed rows newest first ++ old window) cut to min(total, 50) |
| Window.FiftyOnePushes | src/app.component.ts:35-39 | 51 pushes onto an empty window leave exactly 50 rows: the last 50 pushed, newest first, the first pushed evicted |
| Window.MeasurementWindow.constructor | src/app.component.ts:17 | the window starts empty |
| Window.MeasurementWindow.Seed | src/app.component.ts:31 | seeding replaces the contents with the batch verbatim, in its order |
| Window.MeasurementWindow.Push | src/app.component.ts:34-41 | the new contents are `Pushed(old, m)`; `Latest()` is then `m`; a window within the cap stays within it |
| Window.MeasurementWindow.Latest | src/app.component.ts:21 | absent ⇔ the window is empty; otherwise element 0 |
| App.AppComponent.constructor | src/app.component.ts:17-23 | empty window, loading, no error, no stream handle |
| App.AppComponent.NgOnInit | src/app.component.ts:25-50 | loading is false afterwards whatever happened; the error is set (to the fixed message) ⇔ the fetch or the stream set-up failed; a fetched batch seeds the window verbatim; a failed fetch leaves the window as it was; the stream handle is set only on success; a fetched batch of at most 50 rows (the fetch's limit) leaves the window within the cap |
| App.AppComponent.OnNewMeasurement | src/app.component.ts:33-42 | each streamed row goes through the window's update rule and becomes the latest |
| Measurements.Reverse | src/chart.component.ts:39 | the reversed copy has the input's length |
| Measurements.ReverseAt | src/chart.component.ts:39 | `chartData[k] == data[n - 1 - k]` |
| Measurements.ReverseIsMirror | src/chart.component.ts:39 | same length, and every index is mirrored |
| Measurements.ReverseReverse | src/chart.component.ts:39 | reversing twice is the identity |
| Measurements.ReverseSameElements | src/chart.component.ts:39 | the reversed copy holds exactly the input's elements, each as many times (same multiset) |
| Measurements.ReverseOfNewestFirst | src/chart.component.ts:38-39 | a newest-first window becomes oldest-first |
| Chart.Hex | src/chart.component.ts:130-136 | each colour's code is a 7-character `#rrggbb` string, and each of the four codes is produced by exactly its colour (the coding is injective) |
| Chart.MarkerColor | src/chart.component.ts:130-136 | red ⇔ d ≥ 30, blue ⇔ 26 ≤ d < 30, yellow ⇔ 16 ≤ d < 26, green ⇔ d < 16 |
| Chart.MarkerColorBoundaries | src/chart.component.ts:130-136 | 29.999 blue, 30 red, 25.999 yellow, 26 blue, 15.999 green, 16 yellow |
| Chart.MarkerColorVersusStatus | src/chart.component.ts:130-136 | point colour and summary level agree outside (25, 30); inside it the level is alert while the point is yellow (below 26) or blue (from 26) |
| Chart.MaxDistance | src/chart.component.ts:59 | the largest distance: at least every point's distance, and some point's distance |
| Chart.MaxDistanceOfReverse | src/chart.component.ts:39 | the maximum of the reversed copy equals the maximum of the window |
| Chart.YCeiling | src/chart.component.ts:59 | the ceiling is ≥ 50 and ≥ 1.1 × max, and equals one of the two |
| Chart.CeilingAboveData | src/chart.component.ts:59 | the ceiling is positive and ≥ every plotted distance, negative ones included |
| Chart.CeilingFloorApplies | src/chart.component.ts:59 | with every distance ≤ 50 / 1.1 (for example a maximum of 10) the ceiling is exactly 50 |
| Chart.Interpolate | src/chart.component.ts:58-60 | a linear scale sends the domain's first end to the range's first end and the second to the second |
| Chart.ScaleY | src/chart.component.ts:58-60 | the value scale `[0, ceiling] → [height, 0]` sends 0 to the baseline and the ceiling to the top edge |
| Chart.ScaleYEndpoints | src/chart.component.ts:58-60 | the value scale sends 0 to the plot height and the ceiling to 0 |
| Chart.ScaleYDecreasing | src/chart.component.ts:58-60 | the value scale is strictly decreasing, so a larger distance is drawn higher |
| Chart.ScaleYWithinPlot | src/chart.component.ts:58-60 | values in [0, ceiling] land in [0, height] |
| Chart.Marker.Fill | src/chart.component.ts:130-136 | a marker's fill is its colour's `#rrggbb` code |
| Chart.MarkerFor | src/chart.component.ts:124-136 | the circle for a row carries that row, the four-tier colour of its distance, a height inside [0, height] when the distance lies in [0, ceiling], and sits on the baseline at distance 0 |
| Chart.Markers | src/chart.component.ts:124-136 | one circle per point, in the points' order, each with its point's colour, and inside the plot for distances in [0, ceiling] |
| Chart.LineIfVisible | src/chart.component.ts:140-207 | a reference line is produced ⇔ the ceiling exceeds its value; it carries that value, colour and caption, and lies inside [0, height] |
| Chart.ThresholdLines | src/chart.component.ts:140-207 | at most three lines, each below the ceiling, each at 15, 25 or 30, in strictly increasing order of value |
| Chart.ThresholdVisibility | src/chart.component.ts:140-207 | each of the 15, 25 and 30 lines is drawn ⇔ the ceiling exceeds its value |
| Chart.AllThresholdsDrawn | src/chart.component.ts:140-207 | since the ceiling is ≥ 50, a rendered chart has all three lines, in the order 15, 25, 30, each inside [0, height] |
| Chart.MarkersOfWindow | src/chart.component.ts:123-136 | one marker per row, oldest row first (`markers[i]` is `window[n - 1 - i]`); a larger distance gets a higher marker |
| Chart.ChartComponent.constructor | src/chart.component.ts:17 | no drawing at first |
| Chart.ChartComponent.CreateChart | src/chart.component.ts:31-60 | with no container or fewer than two points, any drawing is removed and nothing is drawn; otherwise the drawing holds the reversed data, width = client width − 80, height 240, ceiling from the window's maximum, one marker per point and the visible threshold lines |
| Chart.TwoPointScenario | src/chart.component.ts:39-136 | rows of 40 cm (later) and 10 cm (earlier), held newest first: the reversed copy is 10 then 40 and is oldest-first by timestamp; ceiling 50 for the window as held and for the reversed copy; green (`#22c55e`) then red (`#ef4444`) markers, the 40 cm marker higher; three threshold lines |

## Left out

- The D3 drawing is not modelled: SVG creation, the axes and their ticks, the y-axis label, the gradient, the area and line paths with `curveMonotoneX`, styles and text positions. These are calls into a library whose semantics are not visible.
- The time scale is not modelled: `d3.extent` over `new Date(created_at)` and the markers' horizontal position. Timestamps are abstract integers, and the container width is a parameter.
- `formatTimestamp` and `DatePipe` are not modelled. They are library date formatting.
- Floating point is not modelled: distances are exact reals. So `1.1` is exact, there is no NaN, and the `|| 0` guard on the domain top never applies (the ceiling is at least 50).
- The service module `src/services/supabase.service.ts` (fetch, realtime channel, unsubscribe) is network I/O. `App.AppComponent.NgOnInit` takes the fetch outcome and whether setting up the stream throws as parameters. Only the row shape is taken from that file.
- Angular wiring is not modelled: signals and change detection, `afterNextRender`, `ngOnChanges`, `async`/`await` and `ngOnDestroy`. The listener is `App.AppComponent.OnNewMeasurement`, called once per row, because callbacks run one at a time.
- `!this.data()` (a missing input array) is not modelled. The input is required, so the model always has a sequence.
- `index.tsx` only bootstraps the application.
- The `console.error(err)` call in the start-up's catch block is not modelled: it is logging only and changes no state.
- The marker circle's fixed radius (4) and stroke styles are not modelled: they are constant drawing attributes. The fill is `Chart.Marker.Fill`.
- Window.PushedKeepsCap: the cap is stated for windows of at most 50 rows. A window seeded with more than 50 rows loses only one row per push, so it stays above 50. `Window.Pushed` models that case as written, and the initial fetch asks for 50 rows.
