# GraphView area-chart geometry in Dafny

`GraphView` draws a chart: a filled area under a smoothed curve through a series of samples, vertical bar separators and horizontal reference lines. This project models the geometry behind it, in `Sources/GraphView/GraphView.swift`:

- `wrappers.dfy` (`Wrappers`): the `Option` returned by the failable initialiser.
- `geometry.dfy` (`Geometry`): points with exact real coordinates, `midPoint` and `controlPoint`.
- `bezier_outline.dfy` (`BezierOutline`): the outline built by `UIBezierPath(quadCurve:)`. The path object is a sequence of segments `MoveTo(p) | LineTo(p) | QuadTo(to, control)`. `QuadCurve` is the specification of that sequence. `BuildQuadCurve` is the loop of the source, proved to produce exactly `QuadCurve`. The lemmas state the outline's shape: when it exists, its length, its single move, where each iteration's two curves go, that every point is visited in order, and where the control points lie.
- `graph_layout.dfy` (`GraphLayout`): how `addGraphPoints` maps samples to view points, the x positions of the vertical lines, the y positions of the horizontal lines, and the `draw` pass that combines them using the view's own bar width, sample series, item count and levels.

The builder is modelled as the code is written. With exactly two points it emits `MoveTo(A)` and `LineTo(B)`, and then the general loop still runs. That loop's first iteration compares `A` with itself, so its two curves lead from `B` back to `A` along a straight line. The outline therefore has 6 segments, not just the line. A two-point outline that is only the line would not match this code, so the model does not produce one. With three or more points there are `1 + 2N` segments and no line.

## Model

| member | source | states |
|---|---|---|
| Geometry.Abs | Sources/GraphView/GraphView.swift:122 | the magnitude is non-negative and equals the value or its negation |
| Geometry.MidPoint | Sources/GraphView/GraphView.swift:116-118 | the midpoint is equally far from both arguments in x and in y |
| Geometry.MidPointSymmetric | Sources/GraphView/GraphView.swift:116-118 | swapping the arguments gives the same midpoint |
| Geometry.ControlPoint | Sources/GraphView/GraphView.swift:120-130 | x is the arguments' average x; y is always exactly the second argument's y, whichever branch runs, so it moves from the midpoint to the second argument's height: its y is greater than the midpoint's when the first argument's y is smaller, less when it is larger, and at equal y it is the midpoint itself |
| Geometry.SamePointFixed | Sources/GraphView/GraphView.swift:116-130 | given the same point twice, both helpers return that point |
| BezierOutline.CurvePair | Sources/GraphView/GraphView.swift:107-110 | one iteration's two curves: the first ends at the midpoint of the previous point and the current one, with its control level with the previous point; the second ends at the current point, with its control level with it; each control's x is halfway between the midpoint and the point it is level with |
| BezierOutline.Curves | Sources/GraphView/GraphView.swift:106-113 | the loop appends exactly two segments per input point |
| BezierOutline.QuadCurve | Sources/GraphView/GraphView.swift:94-114 | there is no outline exactly when there are fewer than 2 points; otherwise its length is the lead-in (2 for two points, else 1) plus two per point |
| BezierOutline.BuildQuadCurve | Sources/GraphView/GraphView.swift:94-114 | the step-by-step construction (move, optional line, two curves per loop iteration with `p1` carried along) yields exactly the specified outline |
| BezierOutline.CurvesSnoc | Sources/GraphView/GraphView.swift:106-113 | one more loop iteration appends exactly that iteration's two curves, taken from the previous point |
| BezierOutline.CurvesAt | Sources/GraphView/GraphView.swift:106-113 | segments 2i and 2i+1 of the loop's output are the two curves of iteration i, from the point before it (the first point itself for i = 0) |
| BezierOutline.CurvesAreQuads | Sources/GraphView/GraphView.swift:106-113 | the loop emits only quadratic curves |
| BezierOutline.CurvesVisitEachPoint | Sources/GraphView/GraphView.swift:106-113 | the second curves of the iterations end at the loop's points, each once, in order |
| BezierOutline.QuadCurveShape | Sources/GraphView/GraphView.swift:95-113 | the outline has 6 segments for 2 points and 1 + 2N for N of 3 or more; it starts with a move to the first point and has no other move; for 2 points segment 1 is a line to the second point; for 3 or more points there is no line; everything after the lead-in is a curve |
| BezierOutline.QuadCurveIteration | Sources/GraphView/GraphView.swift:106-113 | iteration i yields a curve to mid(prev, p_i) with control controlPoint(mid, prev), then a curve to p_i with control controlPoint(mid, p_i); the first control is level with prev and the second with p_i |
| BezierOutline.QuadCurveVisitsPoints | Sources/GraphView/GraphView.swift:106-113 | after the lead-in, the outline's second curves end at every input point exactly once, in order |
| BezierOutline.QuadCurveEndsAtLastPoint | Sources/GraphView/GraphView.swift:106-113 | the outline's last segment is a curve that ends at the last input point |
| BezierOutline.FirstIterationDegenerate | Sources/GraphView/GraphView.swift:99-112 | the first iteration's two curves both end at the first point and use it as their control point |
| BezierOutline.ControlsAtPointHeights | Sources/GraphView/GraphView.swift:107-110 | every control point of the outline is level with some input point |
| BezierOutline.FlatSeriesStaysLevel | Sources/GraphView/GraphView.swift:99-130 | when all points share one height, every end point and every control point of the outline lies at that height |
| GraphLayout.ColumnX | Sources/GraphView/GraphView.swift:33-35 | column 0 is at x = 0; with a non-negative bar width no column at or right of 0 lies left of the edge, and with a positive width every later column lies strictly right of it |
| GraphLayout.ColumnY | Sources/GraphView/GraphView.swift:37-40 | value 0 maps to the bottom (the height), value 1 maps to the top (0), and values in [0, 1] stay inside the view |
| GraphLayout.ColumnSpacing | Sources/GraphView/GraphView.swift:33-35 | column 0 is at x = 0 and neighbouring columns are one bar width apart |
| GraphLayout.ColumnYDecreasing | Sources/GraphView/GraphView.swift:37-40 | a larger value is drawn higher, i.e. at a smaller y |
| GraphLayout.GraphPoints | Sources/GraphView/GraphView.swift:42-49 | n samples give n + 2 points: the baseline point (0, h) first; sample i at (barWidth·i, h − v_i·h), so the first sample shares x = 0 with the baseline; the closing baseline point at (barWidth·(n+1), h) |
| GraphLayout.AreaOutline | Sources/GraphView/GraphView.swift:30-52 | the points are the baseline point (0, h), sample i at (barWidth·i, h − v_i·h) and the closing baseline point at (barWidth·(n+1), h), and the outline is the one built from them; it always exists (there are at least two points); it has 6 segments when there are no samples and 1 + 2(n+2) otherwise; it starts with a move to (0, h) and ends on the baseline at column n + 1 |
| GraphLayout.VerticalLines | Sources/GraphView/GraphView.swift:57-72 | with a colour set, n + 1 full-height lines, line i at x = barWidth·i; with no colour, none |
| GraphLayout.HorizontalLines | Sources/GraphView/GraphView.swift:75-88 | one full-width line per level, in order, at y = h·(1 − level), which is the height at which a sample of that value is drawn |
| GraphLayout.LevelMatchesSampleHeight | Sources/GraphView/GraphView.swift:79-80 | a reference line at level v has the same y as a sample of value v |
| GraphLayout.Draw | Sources/GraphView/GraphView.swift:16-26 | without a graphics context nothing is drawn; with one, using bar width 60, the ten built-in samples, 10 items and seven levels, the outline has 25 segments, starts at (0, h) and ends at (660, h); there are 11 vertical lines (the last at x = 600) and 7 horizontal lines, from the bottom (level 0) to the top (level 1) |

## Left out

- Rendering: `saveGState`, `fill`, `stroke`, `setStroke`, line widths and colours are toolkit calls with no geometric effect. A line is modelled by its two end points, and a colour only by whether it is set. The graphics context is modelled only by whether it is available, which decides whether `Draw` draws anything.
- `CGFloat` arithmetic: coordinates are exact reals, so the model has no rounding. "The control point's y equals the second argument's y" holds exactly only over the reals.
- `isScrolling` is never used. The bar width, the view size and the sample, item-count and level inputs are parameters; `Draw` fixes them to the values the view holds.
- GraphLayout.VerticalLines: the item count is a `nat`, because Swift's `0...n` traps when n is negative.
- Building the outline twice from the same points gives the same outline. This holds in the model because `QuadCurve` is a function, so it has no lemma of its own.
- `Tests/GraphViewTests/GraphViewTests.swift` is not part of this model. It drives a data-source and delegate interface that `GraphView.swift` does not have.
