/**
 * The quadratic-curve outline builder, `UIBezierPath(quadCurve:)`.
 *
 * The path object is modelled as the ordered sequence of segments appended to
 * it. `QuadCurve` is the specification of the result; `BuildQuadCurve` is the
 * step-by-step construction of the source, proved to produce it; the lemmas
 * state the shape of every outline.
 */
module BezierOutline {
  import opened Wrappers
  import opened Geometry

  /** One path operation: `move(to:)`, `addLine(to:)`, `addQuadCurve(to:controlPoint:)`. */
  datatype Segment = MoveTo(to: Point) | LineTo(to: Point) | QuadTo(to: Point, control: Point)

  /**
   * The two curves one loop iteration appends, from `p1` towards `p`: the
   * first arrives halfway with its control level with `p1`, the second
   * arrives at `p` with its control level with `p`.
   */
  function CurvePair(p1: Point, p: Point): (cs: seq<Segment>)
    ensures |cs| == 2 && cs[0].QuadTo? && cs[1].QuadTo?
    ensures cs[0].to == MidPoint(p1, p) && cs[1].to == p
    ensures cs[0].control.y == p1.y && cs[1].control.y == p.y
    ensures cs[0].control.x == (cs[0].to.x + p1.x) / 2.0
    ensures cs[1].control.x == (cs[0].to.x + p.x) / 2.0
  {
    var mid := MidPoint(p1, p);
    [QuadTo(mid, ControlPoint(mid, p1)), QuadTo(p, ControlPoint(mid, p))]
  }

  /** The curves of the loop over `ps`, where the previous point starts as `p1`. */
  function Curves(p1: Point, ps: seq<Point>): (cs: seq<Segment>)
    ensures |cs| == 2 * |ps|
    decreases |ps|
  {
    if ps == [] then [] else CurvePair(p1, ps[0]) + Curves(ps[0], ps[1..])
  }

  /** The point the loop's `p1` holds at iteration `i`. */
  function Previous(points: seq<Point>, i: nat): Point
    requires i < |points|
  {
    if i == 0 then points[0] else points[i - 1]
  }

  /** The number of segments that precede the loop's curves. */
  function Lead(n: nat): nat
  {
    if n == 2 then 2 else 1
  }

  /** The outline for `points`, or `None` when there are fewer than two. */
  function QuadCurve(points: seq<Point>): (r: Option<seq<Segment>>)
    ensures r.None? <==> |points| < 2
    ensures r.Some? ==> |r.value| == Lead(|points|) + 2 * |points|
  {
    if |points| < 2 then None
    else
      Some([MoveTo(points[0])]
           + (if |points| == 2 then [LineTo(points[1])] else [])
           + Curves(points[0], points))
  }

  /** The end points of every second segment: where each pair of curves arrives. */
  function PairEnds(cs: seq<Segment>): seq<Point>
    decreases |cs|
  {
    if |cs| < 2 then [] else [cs[1].to] + PairEnds(cs[2..])
  }

  /** The path built step by step, as the failable initialiser does. */
  method BuildQuadCurve(points: seq<Point>) returns (path: Option<seq<Segment>>)
    ensures path == QuadCurve(points)
  {
    if |points| <= 1 {
      return None;
    }
    var p1 := points[0];
    var segments := [MoveTo(p1)];
    if |points| == 2 {
      segments := segments + [LineTo(points[1])];
    }
    ghost var lead := segments;
    for i := 0 to |points|
      invariant p1 == (if i == 0 then points[0] else points[i - 1])
      invariant segments == lead + Curves(points[0], points[..i])
    {
      var mid := MidPoint(p1, points[i]);
      segments := segments + [QuadTo(mid, ControlPoint(mid, p1))];
      segments := segments + [QuadTo(points[i], ControlPoint(mid, points[i]))];
      CurvesSnoc(points[0], points[..i], points[i]);
      assert points[..i + 1] == points[..i] + [points[i]];
      p1 := points[i];
    }
    assert points[..|points|] == points;
    path := Some(segments);
  }

  /** Appending a point to the loop's input appends that iteration's two curves. */
  lemma {:induction false} CurvesSnoc(p1: Point, ps: seq<Point>, p: Point)
    ensures Curves(p1, ps + [p]) == Curves(p1, ps) + CurvePair(if ps == [] then p1 else ps[|ps| - 1], p)
    decreases |ps|
  {
    if ps != [] {
      CurvesSnoc(ps[0], ps[1..], p);
      assert (ps + [p])[1..] == ps[1..] + [p];
    }
  }

  /** Iteration `i` contributes segments `2i` and `2i+1` of the curves. */
  lemma {:induction false} CurvesAt(p1: Point, ps: seq<Point>, i: nat)
    requires i < |ps|
    ensures Curves(p1, ps)[2 * i] == CurvePair(if i == 0 then p1 else ps[i - 1], ps[i])[0]
    ensures Curves(p1, ps)[2 * i + 1] == CurvePair(if i == 0 then p1 else ps[i - 1], ps[i])[1]
    decreases i
  {
    if i > 0 {
      CurvesAt(ps[0], ps[1..], i - 1);
    }
  }

  /** The loop emits nothing but quadratic curves. */
  lemma {:induction false} CurvesAreQuads(p1: Point, ps: seq<Point>)
    ensures forall k :: 0 <= k < |Curves(p1, ps)| ==> Curves(p1, ps)[k].QuadTo?
    decreases |ps|
  {
    if ps != [] {
      CurvesAreQuads(ps[0], ps[1..]);
    }
  }

  /** The second curve of each iteration ends at that iteration's point. */
  lemma {:induction false} CurvesVisitEachPoint(p1: Point, ps: seq<Point>)
    ensures PairEnds(Curves(p1, ps)) == ps
    decreases |ps|
  {
    if ps != [] {
      var cs := Curves(p1, ps);
      CurvesVisitEachPoint(ps[0], ps[1..]);
      assert cs[2..] == Curves(ps[0], ps[1..]);
    }
  }

  /**
   * The outline opens with a move to the first point and moves nowhere else;
   * it holds a line only for exactly two points, and then to the second point.
   */
  lemma QuadCurveShape(points: seq<Point>, s: seq<Segment>)
    requires QuadCurve(points) == Some(s)
    ensures |s| == (if |points| == 2 then 6 else 1 + 2 * |points|)
    ensures s[0] == MoveTo(points[0])
    ensures forall k :: 0 < k < |s| ==> !s[k].MoveTo?
    ensures |points| == 2 ==> s[1] == LineTo(points[1])
    ensures |points| >= 3 ==> forall k :: 0 <= k < |s| ==> !s[k].LineTo?
    ensures forall k :: Lead(|points|) <= k < |s| ==> s[k].QuadTo?
  {
    var cs := Curves(points[0], points);
    var lead := Lead(|points|);
    CurvesAreQuads(points[0], points);
    assert s[lead..] == cs;
    forall k | lead <= k < |s|
      ensures s[k].QuadTo?
    {
      assert s[k] == cs[k - lead];
    }
  }

  /**
   * Iteration `i` of the loop appends a curve to the midpoint between the
   * previous point and point `i`, then a curve to point `i`; each control
   * point lies level with the point its curve is steered towards.
   */
  lemma QuadCurveIteration(points: seq<Point>, s: seq<Segment>, i: nat)
    requires QuadCurve(points) == Some(s)
    requires i < |points|
    ensures Lead(|points|) + 2 * i + 1 < |s|
    ensures var prev := Previous(points, i);
            var mid := MidPoint(prev, points[i]);
            s[Lead(|points|) + 2 * i] == QuadTo(mid, ControlPoint(mid, prev)) &&
            s[Lead(|points|) + 2 * i + 1] == QuadTo(points[i], ControlPoint(mid, points[i]))
    ensures s[Lead(|points|) + 2 * i].control.y == Previous(points, i).y
    ensures s[Lead(|points|) + 2 * i + 1].control.y == points[i].y
  {
    var lead := Lead(|points|);
    var cs := Curves(points[0], points);
    assert s[lead..] == cs;
    CurvesAt(points[0], points, i);
    assert s[lead + 2 * i] == cs[2 * i];
    assert s[lead + 2 * i + 1] == cs[2 * i + 1];
  }

  /** The second curves of the iterations arrive at every input point, once each, in order. */
  lemma QuadCurveVisitsPoints(points: seq<Point>, s: seq<Segment>)
    requires QuadCurve(points) == Some(s)
    ensures PairEnds(s[Lead(|points|)..]) == points
  {
    assert s[Lead(|points|)..] == Curves(points[0], points);
    CurvesVisitEachPoint(points[0], points);
  }

  /** The outline's last segment is a curve arriving at the last point. */
  lemma QuadCurveEndsAtLastPoint(points: seq<Point>, s: seq<Segment>)
    requires QuadCurve(points) == Some(s)
    ensures s[|s| - 1].QuadTo? && s[|s| - 1].to == points[|points| - 1]
  {
    QuadCurveIteration(points, s, |points| - 1);
  }

  /**
   * The first iteration compares the first point with itself: both of its
   * curves have zero length, ending at the first point with it as control.
   */
  lemma FirstIterationDegenerate(points: seq<Point>, s: seq<Segment>)
    requires QuadCurve(points) == Some(s)
    ensures s[Lead(|points|)] == QuadTo(points[0], points[0])
    ensures s[Lead(|points|) + 1] == QuadTo(points[0], points[0])
  {
  }

  /** Every control point of the outline is level with one of the input points. */
  lemma ControlsAtPointHeights(points: seq<Point>, s: seq<Segment>)
    requires QuadCurve(points) == Some(s)
    ensures forall k :: 0 <= k < |s| && s[k].QuadTo? ==>
              exists j :: 0 <= j < |points| && s[k].control.y == points[j].y
  {
    var lead := Lead(|points|);
    QuadCurveShape(points, s);
    forall k | 0 <= k < |s| && s[k].QuadTo?
      ensures exists j :: 0 <= j < |points| && s[k].control.y == points[j].y
    {
      var i := (k - lead) / 2;
      QuadCurveIteration(points, s, i);
      if k == lead + 2 * i {
        var j := if i == 0 then 0 else i - 1;
        assert s[k].control.y == points[j].y;
      } else {
        assert s[k].control.y == points[i].y;
      }
    }
  }

  /**
   * A series whose points all lie at one height gives an outline that never
   * leaves that height: every end point and every control point lies on it.
   */
  lemma FlatSeriesStaysLevel(points: seq<Point>, s: seq<Segment>, h: real)
    requires QuadCurve(points) == Some(s)
    requires forall j :: 0 <= j < |points| ==> points[j].y == h
    ensures forall k :: 0 <= k < |s| ==> s[k].to.y == h
    ensures forall k :: 0 <= k < |s| && s[k].QuadTo? ==> s[k].control.y == h
  {
    var lead := Lead(|points|);
    QuadCurveShape(points, s);
    forall k | 0 <= k < |s|
      ensures s[k].to.y == h
      ensures s[k].QuadTo? ==> s[k].control.y == h
    {
      if k >= lead {
        var i := (k - lead) / 2;
        QuadCurveIteration(points, s, i);
      }
    }
  }
}
