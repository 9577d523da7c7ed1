/**
 * The coordinate arithmetic of `GraphView`: placing the samples as view
 * points, the positions of the vertical bar separators and of the horizontal
 * reference lines, and the drawing pass that combines them. Stroking, filling
 * and colours are the toolkit's and are not modelled; a line is its two end
 * points.
 */
module GraphLayout {
  import opened Wrappers
  import opened Geometry
  import opened BezierOutline

  /** `maxValue` of `addGraphPoints`: samples are fractions of the height. */
  const MaxValue: real := 1.0

  /** A straight line drawn from one point to another. */
  datatype Line = Line(from: Point, to: Point)

  /** A stroke colour: the geometry depends only on whether one is set. */
  datatype Colour = Colour

  /** `columnXPoint`: the x of a column; column 0 is the left edge. */
  function ColumnX(barWidth: real, column: int): (x: real)
    ensures column == 0 ==> x == 0.0
    ensures 0.0 <= barWidth && 0 <= column ==> 0.0 <= x
    ensures 0.0 < barWidth && 0 < column ==> 0.0 < x
  {
    barWidth * column as real
  }

  /** `columnYPoint`: the y of a sample value, measured down from the top. */
  function ColumnY(height: real, value: real): (y: real)
    ensures value == 0.0 ==> y == height
    ensures value == MaxValue ==> y == 0.0
    ensures 0.0 <= height && 0.0 <= value <= MaxValue ==> 0.0 <= y <= height
  {
    height - value / MaxValue * height
  }

  /** Neighbouring columns lie exactly one bar width apart, from x = 0. */
  lemma ColumnSpacing(barWidth: real, column: int)
    ensures ColumnX(barWidth, 0) == 0.0
    ensures ColumnX(barWidth, column + 1) - ColumnX(barWidth, column) == barWidth
  {
  }

  /** A larger sample value lies higher in the view (a smaller y). */
  lemma ColumnYDecreasing(height: real, v: real, w: real)
    requires 0.0 < height && v < w
    ensures ColumnY(height, w) < ColumnY(height, v)
  {
    assert v / MaxValue == v && w / MaxValue == w;
    calc {
      ColumnY(height, v) - ColumnY(height, w);
      (height - v * height) - (height - w * height);
      (w - v) * height;
    >
      0.0;
    }
  }

  /**
   * The points of the filled area: a baseline point at column 0, sample `i`
   * at column `i`, and a closing baseline point at column `n + 1` (the count
   * of points once the first baseline point has been inserted).
   */
  method GraphPoints(samples: seq<real>, barWidth: real, height: real) returns (points: seq<Point>)
    ensures |points| == |samples| + 2
    ensures points[0] == Point(0.0, height)
    ensures forall i :: 0 <= i < |samples| ==>
              points[i + 1] == Point(ColumnX(barWidth, i), ColumnY(height, samples[i]))
    ensures points[|samples| + 1] == Point(ColumnX(barWidth, |samples| + 1), height)
    ensures |samples| > 0 ==> points[1].x == points[0].x
  {
    points := [];
    for index := 0 to |samples|
      invariant |points| == index
      invariant forall i :: 0 <= i < index ==>
                  points[i] == Point(ColumnX(barWidth, i), ColumnY(height, samples[i]))
    {
      points := points + [Point(ColumnX(barWidth, index), ColumnY(height, samples[index]))];
    }
    points := [Point(ColumnX(barWidth, 0), ColumnY(height, 0.0))] + points;
    points := points + [Point(ColumnX(barWidth, |points|), ColumnY(height, 0.0))];
  }

  /**
   * `addGraphPoints` up to the fill: the points and their outline. There are
   * always at least two points, so the outline always exists; it starts on
   * the baseline at x = 0 and closes on the baseline one column past the last
   * sample.
   */
  method AreaOutline(samples: seq<real>, barWidth: real, height: real)
    returns (points: seq<Point>, outline: Option<seq<Segment>>)
    ensures |points| == |samples| + 2
    ensures points[0] == Point(0.0, height)
    ensures forall i :: 0 <= i < |samples| ==>
              points[i + 1] == Point(ColumnX(barWidth, i), ColumnY(height, samples[i]))
    ensures points[|samples| + 1] == Point(ColumnX(barWidth, |samples| + 1), height)
    ensures outline == QuadCurve(points)
    ensures outline.Some?
    ensures |outline.value| == (if samples == [] then 6 else 1 + 2 * |points|)
    ensures outline.value[0] == MoveTo(Point(0.0, height))
    ensures outline.value[|outline.value| - 1].to == Point(ColumnX(barWidth, |samples| + 1), height)
  {
    points := GraphPoints(samples, barWidth, height);
    outline := BuildQuadCurve(points);
    QuadCurveShape(points, outline.value);
    QuadCurveEndsAtLastPoint(points, outline.value);
  }

  /**
   * `addGraphVerticalLines`: for every index from 0 to `numberOfItems`
   * inclusive, a full-height line at that column's x, but only when a line
   * colour is set.
   */
  method VerticalLines(barWidth: real, height: real, numberOfItems: nat, lineColour: Option<Colour>)
    returns (lines: seq<Line>)
    ensures lineColour.None? ==> lines == []
    ensures lineColour.Some? ==> |lines| == numberOfItems + 1
    ensures lineColour.Some? ==> forall i :: 0 <= i < |lines| ==>
              lines[i] == Line(Point(ColumnX(barWidth, i), 0.0), Point(ColumnX(barWidth, i), height))
  {
    lines := [];
    for index := 0 to numberOfItems + 1
      invariant lineColour.None? ==> lines == []
      invariant lineColour.Some? ==> |lines| == index
      invariant lineColour.Some? ==> forall i :: 0 <= i < |lines| ==>
                  lines[i] == Line(Point(ColumnX(barWidth, i), 0.0), Point(ColumnX(barWidth, i), height))
    {
      if lineColour.None? {
        continue;
      }
      var xAxis := barWidth * index as real;
      lines := lines + [Line(Point(xAxis, 0.0), Point(xAxis, height))];
    }
  }

  /** `addGraphHorizontalLines`: one full-width line per level, in order, at height·(1 − level). */
  method HorizontalLines(levels: seq<real>, width: real, height: real) returns (lines: seq<Line>)
    ensures |lines| == |levels|
    ensures forall i :: 0 <= i < |levels| ==>
              lines[i] == Line(Point(0.0, height * (1.0 - levels[i])), Point(width, height * (1.0 - levels[i])))
    ensures forall i :: 0 <= i < |levels| ==> lines[i].from.y == ColumnY(height, levels[i])
  {
    lines := [];
    for index := 0 to |levels|
      invariant |lines| == index
      invariant forall i :: 0 <= i < index ==>
                  lines[i] == Line(Point(0.0, height * (1.0 - levels[i])), Point(width, height * (1.0 - levels[i])))
    {
      var yAxis := height * (1.0 - levels[index]);
      lines := lines + [Line(Point(0.0, yAxis), Point(width, yAxis))];
    }
    forall i | 0 <= i < |levels|
      ensures lines[i].from.y == ColumnY(height, levels[i])
    {
      LevelMatchesSampleHeight(height, levels[i]);
    }
  }

  /** A reference line at level `v` runs through every sample whose value is `v`. */
  lemma LevelMatchesSampleHeight(height: real, v: real)
    ensures height * (1.0 - v) == ColumnY(height, v)
  {
  }

  /** The bar width, sample series, item count and levels the view draws with. */
  const BarWidth: real := 60.0
  const NumberOfItems: nat := 10
  const VerticalLineColour: Option<Colour> := Some(Colour)
  const Levels: seq<real> := [0.0, 0.04, 0.2, 0.5, 0.88, 0.9, 1.0]
  const Samples: seq<real> := [0.3, 0.04, 0.2, 0.5, 0.88, 0.9, 1.0, 0.1, 0.7, 0.3]

  /**
   * `draw`: when a graphics context is available, the area outline, the
   * vertical separators and the horizontal reference lines for a view of the
   * given size; without one, nothing is drawn.
   */
  method Draw(hasContext: bool, width: real, height: real)
    returns (outline: Option<seq<Segment>>, verticals: seq<Line>, horizontals: seq<Line>)
    ensures !hasContext ==> outline.None? && verticals == [] && horizontals == []
    ensures hasContext ==> outline.Some? && |outline.value| == 25
    ensures hasContext ==> outline.value[0] == MoveTo(Point(0.0, height))
    ensures hasContext ==> outline.value[24].to == Point(660.0, height)
    ensures hasContext ==> |verticals| == 11 && verticals[10] == Line(Point(600.0, 0.0), Point(600.0, height))
    ensures hasContext ==> |horizontals| == 7
    ensures hasContext ==> horizontals[0].from == Point(0.0, height) && horizontals[6].to == Point(width, 0.0)
  {
    if !hasContext {
      return None, [], [];
    }
    var points;
    points, outline := AreaOutline(Samples, BarWidth, height);
    verticals := VerticalLines(BarWidth, height, NumberOfItems, VerticalLineColour);
    horizontals := HorizontalLines(Levels, width, height);
  }
}
