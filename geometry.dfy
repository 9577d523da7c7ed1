/**
 * Points of the view's coordinate space and the two point helpers of the
 * `UIBezierPath` extension: `midPoint` and `controlPoint`.
 * Coordinates are exact reals (the source uses `CGFloat`).
 */
module Geometry {

  datatype Point = Point(x: real, y: real)

  /** Absolute value, as Swift's `abs` on a `CGFloat`. */
  function Abs(v: real): (r: real)
    ensures 0.0 <= r && (r == v || r == -v)
  {
    if v < 0.0 then -v else v
  }

  /** The componentwise average of two points: it lies equally far from both. */
  function MidPoint(p1: Point, p2: Point): (m: Point)
    ensures m.x - p1.x == p2.x - m.x
    ensures m.y - p1.y == p2.y - m.y
  {
    Point((p1.x + p2.x) / 2.0, (p1.y + p2.y) / 2.0)
  }

  /**
   * The control point for a curve segment between `p1` and `p2`: it starts at
   * their midpoint and moves vertically by the distance from that midpoint to
   * `p2`, towards `p2`. Whichever branch is taken, it ends level with `p2`.
   */
  function ControlPoint(p1: Point, p2: Point): (c: Point)
    ensures c.x == (p1.x + p2.x) / 2.0
    ensures c.y == p2.y
    ensures p1.y < p2.y ==> c.y > MidPoint(p1, p2).y
    ensures p1.y > p2.y ==> c.y < MidPoint(p1, p2).y
    ensures p1.y == p2.y ==> c == MidPoint(p1, p2)
  {
    var mid := MidPoint(p1, p2);
    var diffY := Abs(p2.y - mid.y);
    if p1.y < p2.y then mid.(y := mid.y + diffY)
    else if p1.y > p2.y then mid.(y := mid.y - diffY)
    else mid
  }

  lemma MidPointSymmetric(p1: Point, p2: Point)
    ensures MidPoint(p1, p2) == MidPoint(p2, p1)
  {
  }

  /** Both helpers fix a point when given it twice. */
  lemma SamePointFixed(p: Point)
    ensures MidPoint(p, p) == p
    ensures ControlPoint(p, p) == p
  {
  }
}
