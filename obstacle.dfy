/** `slam/obstacle.py`: a rectangular obstacle given by a pivot corner, an
    angle, a width and a height. Its corners, edge lines, centre and size are
    computed once when it is built and never change. */
module Obstacles {
  import opened Wrappers
  import opened Kino
  import opened Geometry

  /** The edge names in the order the source builds them. */
  const EdgeNames: seq<string> := ["AB", "BC", "CD", "DA"]

  /** An obstacle with everything its constructor computes. `points` maps the
      corner letters to the corners; `lines` lists each edge name with the
      line through its two corners. */
  datatype Obstacle = Obstacle(
    xy: Point,
    angle: real,
    width: real,
    height: real,
    name: string,
    a: Point,
    b: Point,
    c: Point,
    d: Point,
    points: map<char, Point>,
    lines: seq<(string, Line)>,
    centre: Point,
    size: real)

  /** The offset of each corner from the pivot, before rotation. */
  function OffsetA(): Point { Point(0.0, 0.0) }
  function OffsetB(height: real): Point { Point(0.0, height) }
  function OffsetC(width: real, height: real): Point { Point(width, height) }
  function OffsetD(width: real): Point { Point(width, 0.0) }

  /** `C_offset`: the rotated diagonal from the pivot to the opposite corner. */
  function Diagonal(m: Maths, width: real, height: real, angle: real): Point
  {
    Rotate(m, OffsetC(width, height), angle)
  }

  /** `Obstacle.__init__`: the corners are the pivot plus the rotated
      offsets, the edge lines join consecutive corners, the centre is half the
      diagonal away from the pivot and the size is the diagonal's length.
      What it guarantees is proved by `BuiltObstacle`. */
  function MakeObstacle(m: Maths, xy: Point, angle: real, width: real, height: real, name: string): Obstacle
  {
    var cOffset := Diagonal(m, width, height, angle);
    var a := Add(xy, Rotate(m, OffsetA(), angle));
    var b := Add(xy, Rotate(m, OffsetB(height), angle));
    var c := Add(xy, cOffset);
    var d := Add(xy, Rotate(m, OffsetD(width), angle));
    Obstacle(
      xy, angle, width, height, name, a, b, c, d,
      map['A' := a, 'B' := b, 'C' := c, 'D' := d],
      [("AB", FromPoints(a, b)), ("BC", FromPoints(b, c)), ("CD", FromPoints(c, d)), ("DA", FromPoints(d, a))],
      Point(xy.x + cOffset.x / 2.0, xy.y + cOffset.y / 2.0),
      Magnitude(m, cOffset))
  }

  /** A built obstacle keeps its parameters, its corners are the pivot plus
      the turned offsets, the corner map and the edge list are well formed
      and usable by the ray scan. */
  lemma {:induction false} BuiltObstacle(m: Maths, xy: Point, angle: real, width: real, height: real, name: string)
    ensures var o := MakeObstacle(m, xy, angle, width, height, name);
            && o.xy == xy && o.angle == angle && o.width == width && o.height == height && o.name == name
            && CornersFrom(m, o)
            && WellFormedObstacle(o)
            && Edged(o)
  {
    var o := MakeObstacle(m, xy, angle, width, height, name);
    forall i | 0 <= i < 4
      ensures o.lines[i].0 == EdgeNames[i]
      ensures o.lines[i].1 == FromPoints(o.points[EdgeNames[i][0]], o.points[EdgeNames[i][1]])
    {
    }
  }

  /** The corner map holds exactly A, B, C, D. */
  predicate CornersMapped(o: Obstacle)
  {
    o.points == map['A' := o.a, 'B' := o.b, 'C' := o.c, 'D' := o.d]
  }

  /** The edges are AB, BC, CD, DA, in that order. */
  predicate EdgesNamed(o: Obstacle)
  {
    |o.lines| == 4 && forall i :: 0 <= i < 4 ==> o.lines[i].0 == EdgeNames[i]
  }

  /** Edge `i` is the line through the two corners its name gives. */
  ghost predicate WellFormedObstacle(o: Obstacle)
  {
    && CornersMapped(o)
    && EdgesNamed(o)
    && forall i :: 0 <= i < 4 ==>
         o.lines[i].1 == FromPoints(o.points[EdgeNames[i][0]], o.points[EdgeNames[i][1]])
  }

  /** The corners are the pivot plus the offsets turned by the angle. */
  ghost predicate CornersFrom(m: Maths, o: Obstacle)
  {
    && o.a == Add(o.xy, Rotate(m, OffsetA(), o.angle))
    && o.b == Add(o.xy, Rotate(m, OffsetB(o.height), o.angle))
    && o.c == Add(o.xy, Rotate(m, OffsetC(o.width, o.height), o.angle))
    && o.d == Add(o.xy, Rotate(m, OffsetD(o.width), o.angle))
  }

  /** What the ray scan needs of an obstacle: each edge name is two corner
      letters the corner map knows, and each edge line is one `from_points`
      can build. */
  predicate Edged(o: Obstacle)
  {
    forall e :: e in o.lines ==>
      |e.0| == 2 && e.0[0] in o.points && e.0[1] in o.points && WellFormed(e.1)
  }

  /** What the ray scan needs of an obstacle list. */
  predicate AllEdged(obstacles: seq<Obstacle>)
  {
    forall i :: 0 <= i < |obstacles| ==> Edged(obstacles[i])
  }

  /** The pivot is corner A (the zero offset rotates to zero), and the centre
      is the midpoint of corners A and C. */
  lemma PivotAndCentre(m: Maths, xy: Point, angle: real, width: real, height: real, name: string)
    ensures var o := MakeObstacle(m, xy, angle, width, height, name);
            && o.a == xy
            && o.centre == Point((o.a.x + o.c.x) / 2.0, (o.a.y + o.c.y) / 2.0)
  {
  }

  /** With angle 0 the rectangle is axis-aligned: B above the pivot, C
      diagonally opposite, D to its right. */
  lemma AxisAlignedCorners(m: Maths, xy: Point, width: real, height: real, name: string)
    requires Lawful(m)
    ensures var o := MakeObstacle(m, xy, 0.0, width, height, name);
            && o.b == Point(xy.x, xy.y + height)
            && o.c == Point(xy.x + width, xy.y + height)
            && o.d == Point(xy.x + width, xy.y)
  {
  }

  /** The size is the length of the diagonal, `sqrt(w^2 + h^2)`, whatever the
      angle. */
  lemma {:induction false} SizeIsDiagonal(m: Maths, xy: Point, angle: real, width: real, height: real, name: string)
    requires Lawful(m)
    ensures MakeObstacle(m, xy, angle, width, height, name).size == Magnitude(m, Point(width, height))
  {
    RotatePreservesNorm(m, OffsetC(width, height), angle);
  }

  /** Each edge line passes through both of its corners. */
  lemma {:induction false} EdgesThroughCorners(o: Obstacle)
    requires WellFormedObstacle(o)
    ensures forall i :: 0 <= i < 4 ==>
              OnLine(o.lines[i].1, o.points[o.lines[i].0[0]]) &&
              OnLine(o.lines[i].1, o.points[o.lines[i].0[1]])
  {
    forall i | 0 <= i < 4
      ensures OnLine(o.lines[i].1, o.points[o.lines[i].0[0]])
      ensures OnLine(o.lines[i].1, o.points[o.lines[i].0[1]])
    {
      var p, q := o.points[EdgeNames[i][0]], o.points[EdgeNames[i][1]];
      assert o.lines[i].1 == FromPoints(p, q);
      FromPointsLine(p, q);
    }
  }

  /** The four edges go round A, B, C, D and back to A: each edge ends where
      the next one starts. */
  lemma EdgesCloseThePolygon(o: Obstacle)
    requires EdgesNamed(o)
    ensures o.lines[0].0[0] == 'A' && o.lines[1].0[0] == 'B' && o.lines[2].0[0] == 'C' && o.lines[3].0[0] == 'D'
    ensures forall i :: 0 <= i < 4 ==> o.lines[i].0[1] == o.lines[(i + 1) % 4].0[0]
  {
    var names := [o.lines[0].0, o.lines[1].0, o.lines[2].0, o.lines[3].0];
    assert names == EdgeNames;
    assert names[0][1] == names[1][0] && names[1][1] == names[2][0];
    assert names[2][1] == names[3][0] && names[3][1] == names[0][0];
  }

  /** Twice the signed area of the triangle `p, q, r` (positive when the
      corners run counter-clockwise). */
  function Shoelace(p: Point, q: Point, r: Point): real
  {
    p.x * (q.y - r.y) + q.x * (r.y - p.y) + r.x * (p.y - q.y)
  }

  function Abs(x: real): real { if x < 0.0 then -x else x }

  /** `Obstacle.contains(point)`: the rectangle's area against the sum of the
      four triangle terms. Every term is built from the corners alone; the
      point is never read. */
  function Contains(o: Obstacle, point: Point): bool
  {
    var areaRectangle := 0.5 * Abs((o.a.y - o.c.y) * (o.d.x - o.b.x) + (o.b.y - o.d.y) * (o.a.x - o.c.x));
    var abp := 0.5 * Shoelace(o.a, o.b, o.c);
    var bcp := 0.5 * Shoelace(o.b, o.c, o.d);
    var cdp := 0.5 * Shoelace(o.c, o.d, o.a);
    var dap := 0.5 * Shoelace(o.d, o.a, o.b);
    areaRectangle == abp + bcp + cdp + dap
  }

  /** Moving all three corners by the same shift keeps the signed area. */
  lemma ShoelaceShift(p: Point, q: Point, r: Point, t: Point)
    ensures Shoelace(Add(p, t), Add(q, t), Add(r, t)) == Shoelace(p, q, r)
  {
  }

  /** The corner offsets of a `w` by `h` rectangle turned by the rotation with
      cosine `c` and sine `s`: every shoelace sum (twice a triangle term) is
      `-w*h*(c^2 + s^2)`, and the sum inside the area term is twice that. */
  lemma RotatedRectangleTerms(w: real, h: real, c: real, s: real)
    ensures var a, b, cc, d := Point(0.0, 0.0), Point(-h * s, h * c), Point(w * c - h * s, w * s + h * c), Point(w * c, w * s);
            var k := -(w * h) * (c * c + s * s);
            && Shoelace(a, b, cc) == k
            && Shoelace(b, cc, d) == k
            && Shoelace(cc, d, a) == k
            && Shoelace(d, a, b) == k
            && (a.y - cc.y) * (d.x - b.x) + (b.y - d.y) * (a.x - cc.x) == 2.0 * k
  {
  }

  /** The triangle and area terms of a built obstacle are those of its
      rotated offsets, the pivot shift cancelling out. */
  lemma {:induction false} TermsOfCorners(m: Maths, o: Obstacle)
    requires CornersFrom(m, o)
    ensures var c, s := m.cosd(o.angle), m.sind(o.angle);
            var k := -(o.width * o.height) * (c * c + s * s);
            && Shoelace(o.a, o.b, o.c) == k
            && Shoelace(o.b, o.c, o.d) == k
            && Shoelace(o.c, o.d, o.a) == k
            && Shoelace(o.d, o.a, o.b) == k
            && (o.a.y - o.c.y) * (o.d.x - o.b.x) + (o.b.y - o.d.y) * (o.a.x - o.c.x) == 2.0 * k
  {
    var w, h, xy := o.width, o.height, o.xy;
    var c, s := m.cosd(o.angle), m.sind(o.angle);
    var a0, b0, c0, d0 := Point(0.0, 0.0), Point(-h * s, h * c), Point(w * c - h * s, w * s + h * c), Point(w * c, w * s);
    assert o.a == Add(xy, a0) && o.b == Add(xy, b0) && o.c == Add(xy, c0) && o.d == Add(xy, d0);
    RotatedRectangleTerms(w, h, c, s);
    ShoelaceShift(a0, b0, c0, xy);
    ShoelaceShift(b0, c0, d0, xy);
    ShoelaceShift(c0, d0, a0, xy);
    ShoelaceShift(d0, a0, b0, xy);
    assert o.a.y - o.c.y == a0.y - c0.y && o.d.x - o.b.x == d0.x - b0.x;
    assert o.b.y - o.d.y == b0.y - d0.y && o.a.x - o.c.x == a0.x - c0.x;
  }

  /** `contains` answers the same for every point, and over the reals it
      holds exactly for a degenerate rectangle (`w * h == 0`): for an obstacle
      with positive width and height it is always false. */
  lemma {:induction false} ContainsIgnoresPoint(m: Maths, o: Obstacle, p: Point, q: Point)
    requires Lawful(m) && CornersFrom(m, o)
    ensures Contains(o, p) == Contains(o, q)
    ensures Contains(o, p) <==> o.width * o.height == 0.0
  {
    assert TrigAt(m, o.angle);
    TermsOfCorners(m, o);
    var c, s := m.cosd(o.angle), m.sind(o.angle);
    var k := -(o.width * o.height) * (c * c + s * s);
    assert k == -(o.width * o.height);
    assert Contains(o, p) <==> 0.5 * Abs(2.0 * k) == 2.0 * k;
  }

  /** The point-in-rectangle test `contains` evidently intends: the point,
      taken into the obstacle's own frame (moved by minus the pivot, then
      turned back by the angle), lies in `[0, width] x [0, height]`. */
  function ContainsPoint(m: Maths, o: Obstacle, point: Point): bool
  {
    var q := Rotate(m, Sub(point, o.xy), -o.angle);
    0.0 <= q.x <= o.width && 0.0 <= q.y <= o.height
  }

  /** The points the corrected test accepts are exactly the rectangle: the
      pivot plus an offset `(s, t)` turned by the angle is inside exactly
      when `0 <= s <= width` and `0 <= t <= height`, and every point is such
      a pivot-plus-turned-offset. */
  lemma {:induction false} ContainsPointIsRectangle(m: Maths, o: Obstacle, s: real, t: real, p: Point)
    requires Lawful(m)
    ensures ContainsPoint(m, o, Add(o.xy, Rotate(m, Point(s, t), o.angle)))
            <==> 0.0 <= s <= o.width && 0.0 <= t <= o.height
    ensures p == Add(o.xy, Rotate(m, Rotate(m, Sub(p, o.xy), -o.angle), o.angle))
  {
    var v := Point(s, t);
    RotateInverse(m, v, o.angle);
    assert Sub(Add(o.xy, Rotate(m, v, o.angle)), o.xy) == Rotate(m, v, o.angle);
    RotateInverse(m, Sub(p, o.xy), o.angle);
  }

  /** For a built obstacle with non-negative sides the corrected test
      accepts all four corners and the centre. */
  lemma {:induction false} ContainsPointCorners(m: Maths, xy: Point, angle: real, width: real, height: real, name: string)
    requires Lawful(m) && width >= 0.0 && height >= 0.0
    ensures var o := MakeObstacle(m, xy, angle, width, height, name);
            && ContainsPoint(m, o, o.a) && ContainsPoint(m, o, o.b)
            && ContainsPoint(m, o, o.c) && ContainsPoint(m, o, o.d)
            && ContainsPoint(m, o, o.centre)
  {
    var o := MakeObstacle(m, xy, angle, width, height, name);
    BuiltObstacle(m, xy, angle, width, height, name);
    assert o.centre == Add(xy, Rotate(m, Point(width / 2.0, height / 2.0), angle));
    ContainsPointIsRectangle(m, o, 0.0, 0.0, xy);
    ContainsPointIsRectangle(m, o, 0.0, height, xy);
    ContainsPointIsRectangle(m, o, width, height, xy);
    ContainsPointIsRectangle(m, o, width, 0.0, xy);
    ContainsPointIsRectangle(m, o, width / 2.0, height / 2.0, xy);
  }

  /** At angle 0 the corrected test is the axis-aligned box test. */
  lemma {:induction false} ContainsPointAxisAligned(m: Maths, xy: Point, width: real, height: real, name: string, p: Point)
    requires Lawful(m)
    ensures ContainsPoint(m, MakeObstacle(m, xy, 0.0, width, height, name), p)
            <==> xy.x <= p.x <= xy.x + width && xy.y <= p.y <= xy.y + height
  {
    RotateByZero(m, Sub(p, xy));
    assert -0.0 == 0.0;
  }
}
