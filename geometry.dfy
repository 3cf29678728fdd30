/** `slam/geometry.py`: Euclidean distance and the slope-intercept `Line` with
    its vertical sentinel. */
module Geometry {
  import opened Wrappers
  import opened Kino

  /** The slope `from_points` gives a vertical line (`1e4`). */
  const VerticalSlope: real := 10000.0

  /** `distance(p1, p2)`: the root of the squared coordinate differences. */
  function Distance(m: Maths, p1: Point, p2: Point): real
  {
    m.sqrt(Norm2(Sub(p2, p1)))
  }

  /** The distance is symmetric. */
  lemma DistanceSymmetric(m: Maths, p: Point, q: Point)
    ensures Distance(m, p, q) == Distance(m, q, p)
  {
    Norm2Negate(Sub(p, q));
    assert Sub(q, p) == Point(-Sub(p, q).x, -Sub(p, q).y);
  }

  /** The distance is non-negative and squares to the squared length of the
      difference. */
  lemma DistanceSquares(m: Maths, p: Point, q: Point)
    requires Lawful(m)
    ensures 0.0 <= Distance(m, p, q)
    ensures Distance(m, p, q) * Distance(m, p, q) == Norm2(Sub(q, p))
  {
    Norm2NonNegative(Sub(q, p));
    SqrtFacts(m, Norm2(Sub(q, p)));
  }

  /** A point is at distance zero from itself. */
  lemma DistanceToSelf(m: Maths, p: Point)
    requires Lawful(m)
    ensures Distance(m, p, p) == 0.0
  {
    assert Sub(p, p) == Point(0.0, 0.0);
    SqrtZero(m);
  }

  /** A line `y = slope * x + intercept`. A vertical line has the sentinel slope,
      no intercept (numpy's NaN) and remembers its x through `point`. */
  datatype Line = Line(slope: real, intercept: Option<real>, point: Point)

  /** Every line `from_points` builds: only the sentinel slope lacks an intercept. */
  predicate WellFormed(l: Line)
  {
    l.intercept.None? ==> l.slope == VerticalSlope
  }

  /** A line whose sentinel slope really means "vertical" (a genuine line of
      slope exactly 1e4 is not one). */
  predicate Unambiguous(l: Line)
  {
    l.slope == VerticalSlope <==> l.intercept.None?
  }

  /** `p` lies on the line `l` describes. */
  predicate OnLine(l: Line, p: Point)
  {
    match l.intercept
    case None => p.x == l.point.x
    case Some(b) => l.slope * p.x + b == p.y
  }

  /** `Line.from_points`: vertical when the x's agree (so coincident points give
      a vertical line), horizontal when only the y's agree, and otherwise the
      line of slope `dy/dx` through `p1`. */
  function FromPoints(p1: Point, p2: Point): (l: Line)
    ensures WellFormed(l)
    ensures l.intercept.None? <==> p1.x == p2.x
  {
    var dx := p2.x - p1.x;
    var dy := p2.y - p1.y;
    if dx == 0.0 then
      Line(VerticalSlope, None, Point(p1.x, 0.0))
    else if dy == 0.0 then
      Line(0.0, Some(p1.y), Point(0.0, p1.y))
    else
      var slope := dy / dx;
      Line(slope, Some(p1.y - slope * p1.x), p1)
  }

  /** The line `from_points` builds passes through both points. Equal x's give
      the vertical sentinel anchored at `(p1.x, 0)`; otherwise equal y's give
      the horizontal line at `p1.y`, and in general the slope is rise over
      run. */
  lemma {:induction false} FromPointsLine(p1: Point, p2: Point)
    ensures var l := FromPoints(p1, p2);
            && OnLine(l, p1) && OnLine(l, p2)
            && (p1.x == p2.x ==> l.slope == VerticalSlope && l.point == Point(p1.x, 0.0))
            && (p1.x != p2.x && p1.y == p2.y ==> l.slope == 0.0 && l.intercept == Some(p1.y))
            && (p1.x != p2.x ==> l.slope * (p2.x - p1.x) == p2.y - p1.y)
  {
    var dx := p2.x - p1.x;
    var dy := p2.y - p1.y;
    if dx != 0.0 && dy != 0.0 {
      var slope := dy / dx;
      assert slope * dx == dy;
      assert slope * p2.x + (p1.y - slope * p1.x) == p1.y + slope * dx;
    }
  }

  /** `Line.intersection`: None for equal slopes (which includes two vertical
      lines), otherwise the crossing point. With exactly one sentinel slope its x
      is that line's anchor x and it lies on the other line; when neither line
      is ambiguous the point lies on both. */
  function Intersection(l1: Line, l2: Line): (r: Option<Point>)
    requires WellFormed(l1) && WellFormed(l2)
    ensures r.None? <==> l1.slope == l2.slope
    ensures r.Some? && l1.slope == VerticalSlope ==> r.value.x == l1.point.x && OnLine(l2, r.value)
    ensures r.Some? && l2.slope == VerticalSlope ==> r.value.x == l2.point.x && OnLine(l1, r.value)
    ensures r.Some? && Unambiguous(l1) && Unambiguous(l2) ==> OnLine(l1, r.value) && OnLine(l2, r.value)
  {
    if l1.slope == l2.slope then
      None
    else if l1.slope == VerticalSlope && l2.slope == VerticalSlope then
      None
    else if l1.slope == VerticalSlope then
      var x := l1.point.x;
      Some(Point(x, l2.slope * x + l2.intercept.value))
    else if l2.slope == VerticalSlope then
      var x := l2.point.x;
      Some(Point(x, l1.slope * x + l1.intercept.value))
    else
      var b1, b2 := l1.intercept.value, l2.intercept.value;
      var x := -(b2 - b1) / (l2.slope - l1.slope);
      assert x * (l2.slope - l1.slope) == b1 - b2;
      Some(Point(x, l1.slope * x + b1))
  }

  /** Two points that rise exactly 1e4 per unit of run give a line with the
      vertical sentinel slope that nevertheless has an intercept. */
  lemma SteepLineHasSentinelSlope(p1: Point, p2: Point)
    requires p1.x != p2.x && p2.y - p1.y == VerticalSlope * (p2.x - p1.x)
    ensures FromPoints(p1, p2).slope == VerticalSlope
    ensures FromPoints(p1, p2).intercept.Some?
    ensures !Unambiguous(FromPoints(p1, p2))
  {
    var l := FromPoints(p1, p2);
    var dx := p2.x - p1.x;
    FromPointsLine(p1, p2);
    assert (l.slope - VerticalSlope) * dx == 0.0;
  }

  /** Such a line is handled by `intersection` as if it were vertical: the
      point returned need not lie on it. Here the line `y = 1e4 x` meets
      `y = 5` at `(0.0005, 5)`, yet `(0, 5)` is returned. */
  lemma SteepLineTreatedAsVertical()
    ensures var steep := Line(VerticalSlope, Some(0.0), Point(0.0, 0.0));
            var flat := Line(0.0, Some(5.0), Point(0.0, 5.0));
            && Intersection(steep, flat) == Some(Point(0.0, 5.0))
            && !OnLine(steep, Point(0.0, 5.0))
  {
  }
}
