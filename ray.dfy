/** `slam/ray.py`: a lidar ray fixed to the robot's head. A scan intersects the
    ray's line with every obstacle edge, keeps the hits that are within reach,
    on the edge and in front of the robot, picks the nearest hit of each
    obstacle and then the nearest overall, and records it as the ray's
    contact. */
module Rays {
  import opened Wrappers
  import opened Kino
  import opened Geometry
  import opened Obstacles
  import opened AgentBody

  /** `Contact`: the obstacle hit, the hit point in world coordinates, the same
      point relative to the robot's head and heading, and its distance. */
  datatype Contact = Contact(obstacle: Obstacle, point: Point, position: Point, distance: real)

  /** A kept candidate: a hit point, its distance from the ray origin and the
      obstacle it belongs to. */
  datatype Hit = Hit(point: Point, distance: real, obstacle: Obstacle)

  /** The ray as the scan sees it for one robot pose: its origin `p0`, its end
      `p1`, its absolute angle, its length and the robot's heading. */
  datatype Sight = Sight(p0: Point, p1: Point, angle: real, length: real, heading: real)

  /** `Ray.angle`: the robot's heading plus the ray's offset. */
  function RayAngle(pose: Pose, angleShift: real): real
  {
    pose.angle + angleShift
  }

  /** `Ray.p0`, `Ray.p1` and `Ray.angle` for the pose. */
  function SightOf(m: Maths, pose: Pose, angleShift: real, length: real): (s: Sight)
  {
    var p0 := HeadPosition(m, pose);
    var angle := RayAngle(pose, angleShift);
    Sight(p0, Point(length * m.cosd(angle) + p0.x, length * m.sind(angle) + p0.y), angle, length, pose.angle)
  }

  /** The ray starts at the head, points along the robot's heading plus its
      offset, and ends `length` away from its origin. */
  lemma {:induction false} SightGeometry(m: Maths, pose: Pose, angleShift: real, length: real)
    requires Lawful(m) && 0.0 <= length
    ensures var s := SightOf(m, pose, angleShift, length);
            && s.p0 == HeadPosition(m, pose)
            && s.angle == pose.angle + angleShift
            && s.p1 == Add(s.p0, Rotate(m, Point(length, 0.0), s.angle))
            && Distance(m, s.p0, s.p1) == length
  {
    var s := SightOf(m, pose, angleShift, length);
    var v := Point(length, 0.0);
    RotatePreservesNorm(m, v, s.angle);
    assert Sub(s.p1, s.p0) == Rotate(m, v, s.angle);
    assert Norm2(v) == length * length;
    SqrtOfSquare(m, length);
  }

  /** `Ray.line`. */
  function RayLine(s: Sight): Line
  {
    FromPoints(s.p0, s.p1)
  }

  /** The edge test: on a sentinel-vertical edge the hit's y must lie strictly
      between the corners' y's, on a horizontal edge its x strictly between
      their x's, and on any other edge the ray's angle strictly between the
      orientations of the two corners seen from the ray origin. */
  predicate OnEdge(m: Maths, s: Sight, edge: Line, e0: Point, e1: Point, p: Point)
  {
    if edge.slope == VerticalSlope then Min(e0.y, e1.y) < p.y < Max(e0.y, e1.y)
    else if edge.slope == 0.0 then Min(e0.x, e1.x) < p.x < Max(e0.x, e1.x)
    else
      var a0 := m.orientation(e0.x - s.p0.x, e0.y - s.p0.y);
      var a1 := m.orientation(e1.x - s.p0.x, e1.y - s.p0.y);
      Min(a0, a1) < s.angle < Max(a0, a1)
  }

  /** One edge of `o` against the ray: the intersection, unless it is missing,
      farther than the ray's length, off the edge, or behind the origin. */
  function EdgeHit(m: Maths, s: Sight, o: Obstacle, edge: (string, Line)): (h: Option<Hit>)
    requires |edge.0| == 2 && edge.0[0] in o.points && edge.0[1] in o.points && WellFormed(edge.1)
  {
    var inter := Intersection(RayLine(s), edge.1);
    if inter.None? then None
    else
      var p := inter.value;
      var dist := Distance(m, s.p0, p);
      if dist > s.length then None
      else if !OnEdge(m, s, edge.1, o.points[edge.0[0]], o.points[edge.0[1]], p) then None
      else if Dot(Sub(p, s.p0), Sub(s.p1, s.p0)) < 0.0 then None
      else Some(Hit(p, dist, o))
  }

  /** The conditions every kept hit meets. */
  predicate Kept(m: Maths, s: Sight, o: Obstacle, edge: (string, Line), h: Hit)
    requires |edge.0| == 2 && edge.0[0] in o.points && edge.0[1] in o.points && WellFormed(edge.1)
  {
    && Intersection(RayLine(s), edge.1) == Some(h.point)
    && h.obstacle == o
    && h.distance == Distance(m, s.p0, h.point) && h.distance <= s.length
    && OnEdge(m, s, edge.1, o.points[edge.0[0]], o.points[edge.0[1]], h.point)
    && 0.0 <= Dot(Sub(h.point, s.p0), Sub(s.p1, s.p0))
  }

  /** An edge yields a hit exactly when the intersection exists and passes the
      range, edge and direction tests. */
  lemma EdgeHitKept(m: Maths, s: Sight, o: Obstacle, edge: (string, Line))
    requires |edge.0| == 2 && edge.0[0] in o.points && edge.0[1] in o.points && WellFormed(edge.1)
    ensures EdgeHit(m, s, o, edge).Some? ==> Kept(m, s, o, edge, EdgeHit(m, s, o, edge).value)
    ensures (exists h :: Kept(m, s, o, edge, h)) ==> EdgeHit(m, s, o, edge).Some?
  {
  }

  /** A hit exactly at a corner of an axis-aligned edge is rejected: the
      bounds of the edge test are strict. */
  lemma CornerHitsRejected(m: Maths, s: Sight, edge: Line, e0: Point, e1: Point, p: Point)
    ensures edge.slope == VerticalSlope && (p.y == e0.y || p.y == e1.y) ==> !OnEdge(m, s, edge, e0, e1, p)
    ensures edge.slope == 0.0 && (p.x == e0.x || p.x == e1.x) ==> !OnEdge(m, s, edge, e0, e1, p)
  {
  }

  /** `obj_intersections`: the kept hits of the given edges of `o`, in edge
      order. */
  function EdgeHits(m: Maths, s: Sight, o: Obstacle, edges: seq<(string, Line)>): (hs: seq<Hit>)
    requires forall e :: e in edges ==> |e.0| == 2 && e.0[0] in o.points && e.0[1] in o.points && WellFormed(e.1)
    ensures |hs| <= |edges|
    ensures forall k :: 0 <= k < |hs| ==> hs[k].obstacle == o
  {
    if |edges| == 0 then []
    else
      var init := EdgeHits(m, s, o, edges[..|edges| - 1]);
      var last := EdgeHit(m, s, o, edges[|edges| - 1]);
      if last.Some? then init + [last.value] else init
  }

  /** Every hit of an obstacle comes from one of its edges and passes every
      test; and an edge that yields a hit contributes it. */
  lemma {:induction false} EdgeHitsSound(m: Maths, s: Sight, o: Obstacle, edges: seq<(string, Line)>)
    requires forall e :: e in edges ==> |e.0| == 2 && e.0[0] in o.points && e.0[1] in o.points && WellFormed(e.1)
    ensures forall h :: h in EdgeHits(m, s, o, edges) ==>
              exists k :: 0 <= k < |edges| && EdgeHit(m, s, o, edges[k]) == Some(h) && Kept(m, s, o, edges[k], h)
    ensures forall k :: 0 <= k < |edges| && EdgeHit(m, s, o, edges[k]).Some? ==>
              EdgeHit(m, s, o, edges[k]).value in EdgeHits(m, s, o, edges)
    decreases |edges|
  {
    if |edges| > 0 {
      var init := edges[..|edges| - 1];
      EdgeHitsSound(m, s, o, init);
      EdgeHitKept(m, s, o, edges[|edges| - 1]);
      forall h | h in EdgeHits(m, s, o, edges)
        ensures exists k :: 0 <= k < |edges| && EdgeHit(m, s, o, edges[k]) == Some(h) && Kept(m, s, o, edges[k], h)
      {
        if h in EdgeHits(m, s, o, init) {
          var k :| 0 <= k < |init| && EdgeHit(m, s, o, init[k]) == Some(h) && Kept(m, s, o, init[k], h);
          assert edges[k] == init[k];
        } else {
          EdgeHitKept(m, s, o, edges[|edges| - 1]);
        }
      }
      forall k | 0 <= k < |edges| && EdgeHit(m, s, o, edges[k]).Some?
        ensures EdgeHit(m, s, o, edges[k]).value in EdgeHits(m, s, o, edges)
      {
        if k < |edges| - 1 {
          assert edges[k] == init[k];
        }
      }
    }
  }

  /** `np.argmin`: the index of the first smallest distance. */
  function ArgMin(hs: seq<Hit>): (i: nat)
    requires |hs| > 0
    ensures i < |hs|
    ensures forall j :: 0 <= j < |hs| ==> hs[i].distance <= hs[j].distance
    ensures forall j :: 0 <= j < i ==> hs[i].distance < hs[j].distance
  {
    if |hs| == 1 then 0
    else
      var k := ArgMin(hs[..|hs| - 1]);
      if hs[|hs| - 1].distance < hs[k].distance then |hs| - 1 else k
  }

  /** The nearest hit of each obstacle that has one, in obstacle order
      (`intersection_points`). */
  function NearestPerObstacle(m: Maths, s: Sight, obstacles: seq<Obstacle>): (ns: seq<Hit>)
    requires AllEdged(obstacles)
    ensures |ns| <= |obstacles|
  {
    if |obstacles| == 0 then []
    else
      var init := NearestPerObstacle(m, s, obstacles[..|obstacles| - 1]);
      var o := obstacles[|obstacles| - 1];
      var hs := EdgeHits(m, s, o, o.lines);
      if |hs| > 0 then init + [hs[ArgMin(hs)]] else init
  }

  /** The contact a scan records, or None when no obstacle was hit. */
  function ScanResult(m: Maths, s: Sight, obstacles: seq<Obstacle>): Option<Contact>
    requires AllEdged(obstacles)
  {
    var ns := NearestPerObstacle(m, s, obstacles);
    if |ns| == 0 then None
    else
      var h := ns[ArgMin(ns)];
      Some(Contact(h.obstacle, h.point, Rotate(m, Sub(h.point, s.p0), -s.heading), h.distance))
  }

  /** All kept hits of all obstacles. */
  ghost predicate IsHit(m: Maths, s: Sight, obstacles: seq<Obstacle>, h: Hit)
    requires AllEdged(obstacles)
  {
    exists i :: 0 <= i < |obstacles| && h in EdgeHits(m, s, obstacles[i], obstacles[i].lines)
  }

  /** Each per-obstacle nearest hit is a kept hit of some obstacle. */
  lemma {:induction false} NearestAreHits(m: Maths, s: Sight, obstacles: seq<Obstacle>)
    requires AllEdged(obstacles)
    ensures forall n :: n in NearestPerObstacle(m, s, obstacles) ==> IsHit(m, s, obstacles, n)
    decreases |obstacles|
  {
    if |obstacles| > 0 {
      var init := obstacles[..|obstacles| - 1];
      var last := |obstacles| - 1;
      NearestAreHits(m, s, init);
      var nsInit := NearestPerObstacle(m, s, init);
      var hs := EdgeHits(m, s, obstacles[last], obstacles[last].lines);
      forall n | n in NearestPerObstacle(m, s, obstacles)
        ensures IsHit(m, s, obstacles, n)
      {
        if n in nsInit {
          var i :| 0 <= i < |init| && n in EdgeHits(m, s, init[i], init[i].lines);
          assert init[i] == obstacles[i];
        } else {
          assert n == hs[ArgMin(hs)];
        }
      }
    }
  }

  /** Every kept hit is at least as far as some per-obstacle nearest hit. */
  lemma {:induction false} NearestBound(m: Maths, s: Sight, obstacles: seq<Obstacle>, h: Hit)
    requires AllEdged(obstacles) && IsHit(m, s, obstacles, h)
    ensures exists n :: n in NearestPerObstacle(m, s, obstacles) && n.distance <= h.distance
    decreases |obstacles|
  {
    var init := obstacles[..|obstacles| - 1];
    var last := |obstacles| - 1;
    var i :| 0 <= i < |obstacles| && h in EdgeHits(m, s, obstacles[i], obstacles[i].lines);
    if i < last {
      assert IsHit(m, s, init, h) by {
        assert init[i] == obstacles[i];
      }
      NearestBound(m, s, init, h);
      var n :| n in NearestPerObstacle(m, s, init) && n.distance <= h.distance;
      NearestGrows(m, s, obstacles, n);
    } else {
      LastNearestBound(m, s, obstacles, h);
    }
  }

  /** Adding an obstacle keeps the earlier per-obstacle nearest hits. */
  lemma NearestGrows(m: Maths, s: Sight, obstacles: seq<Obstacle>, n: Hit)
    requires AllEdged(obstacles) && |obstacles| > 0
    requires n in NearestPerObstacle(m, s, obstacles[..|obstacles| - 1])
    ensures n in NearestPerObstacle(m, s, obstacles)
  {
  }

  /** A hit of the last obstacle is no nearer than that obstacle's entry. */
  lemma LastNearestBound(m: Maths, s: Sight, obstacles: seq<Obstacle>, h: Hit)
    requires AllEdged(obstacles) && |obstacles| > 0
    requires h in EdgeHits(m, s, obstacles[|obstacles| - 1], obstacles[|obstacles| - 1].lines)
    ensures exists n :: n in NearestPerObstacle(m, s, obstacles) && n.distance <= h.distance
  {
    var o := obstacles[|obstacles| - 1];
    var hs := EdgeHits(m, s, o, o.lines);
    var j :| 0 <= j < |hs| && hs[j] == h;
    var n := hs[ArgMin(hs)];
    assert n in NearestPerObstacle(m, s, obstacles);
  }

  /** There are no per-obstacle nearest hits exactly when no obstacle has a
      kept hit. */
  lemma {:induction false} NearestEmpty(m: Maths, s: Sight, obstacles: seq<Obstacle>)
    requires AllEdged(obstacles)
    ensures |NearestPerObstacle(m, s, obstacles)| == 0 <==>
              forall i :: 0 <= i < |obstacles| ==> EdgeHits(m, s, obstacles[i], obstacles[i].lines) == []
    decreases |obstacles|
  {
    if |obstacles| > 0 {
      var init := obstacles[..|obstacles| - 1];
      var last := |obstacles| - 1;
      NearestEmpty(m, s, init);
      var nsInit := NearestPerObstacle(m, s, init);
      var hs := EdgeHits(m, s, obstacles[last], obstacles[last].lines);
      if |nsInit| == 0 && |hs| == 0 {
        forall i | 0 <= i < |obstacles|
          ensures EdgeHits(m, s, obstacles[i], obstacles[i].lines) == []
        {
          if i < last {
            assert init[i] == obstacles[i];
          }
        }
      } else if |hs| == 0 {
        var i :| 0 <= i < |init| && EdgeHits(m, s, init[i], init[i].lines) != [];
        assert init[i] == obstacles[i];
      }
    }
  }

  /** A scan finds no contact exactly when no edge of any obstacle yields a
      kept hit. */
  lemma ScanResultNone(m: Maths, s: Sight, obstacles: seq<Obstacle>)
    requires AllEdged(obstacles)
    ensures ScanResult(m, s, obstacles).None? <==>
              forall i :: 0 <= i < |obstacles| ==> EdgeHits(m, s, obstacles[i], obstacles[i].lines) == []
  {
    NearestEmpty(m, s, obstacles);
  }

  /** The `j`-th kept hit of obstacle `k` wins the ties of the two
      `np.argmin` calls: every earlier kept hit of obstacle `k` (in edge order)
      and every kept hit of an earlier obstacle is strictly farther. */
  ghost predicate FirstNearest(m: Maths, s: Sight, obstacles: seq<Obstacle>, k: int, j: int)
    requires AllEdged(obstacles)
  {
    && 0 <= k < |obstacles|
    && var hs := EdgeHits(m, s, obstacles[k], obstacles[k].lines);
    && 0 <= j < |hs|
    && (forall i :: 0 <= i < j ==> hs[j].distance < hs[i].distance)
    && (forall i, h :: 0 <= i < k && h in EdgeHits(m, s, obstacles[i], obstacles[i].lines) ==> hs[j].distance < h.distance)
  }

  /** The winner among the per-obstacle nearest hits is the first kept hit,
      in obstacle order and then in edge order, at its distance. */
  lemma {:induction false} NearestFirst(m: Maths, s: Sight, obstacles: seq<Obstacle>)
    requires AllEdged(obstacles) && |NearestPerObstacle(m, s, obstacles)| > 0
    ensures var ns := NearestPerObstacle(m, s, obstacles);
            exists k, j :: FirstNearest(m, s, obstacles, k, j) &&
              EdgeHits(m, s, obstacles[k], obstacles[k].lines)[j] == ns[ArgMin(ns)]
    decreases |obstacles|
  {
    var last := |obstacles| - 1;
    var init := obstacles[..last];
    var nsInit := NearestPerObstacle(m, s, init);
    var hs := EdgeHits(m, s, obstacles[last], obstacles[last].lines);
    var ns := NearestPerObstacle(m, s, obstacles);
    if |hs| == 0 || (|nsInit| > 0 && !(hs[ArgMin(hs)].distance < nsInit[ArgMin(nsInit)].distance)) {
      if |hs| > 0 {
        assert ns[..|ns| - 1] == nsInit;
      }
      assert ns[ArgMin(ns)] == nsInit[ArgMin(nsInit)];
      NearestFirst(m, s, init);
      var k, j :| FirstNearest(m, s, init, k, j) &&
        EdgeHits(m, s, init[k], init[k].lines)[j] == nsInit[ArgMin(nsInit)];
      LiftFirstNearest(m, s, obstacles, k, j);
    } else {
      var a := ArgMin(hs);
      assert ns[ArgMin(ns)] == hs[a] by {
        if |nsInit| > 0 {
          assert ns[..|ns| - 1] == nsInit;
        }
      }
      LastFirstNearest(m, s, obstacles);
    }
  }

  /** When the last obstacle's nearest hit is strictly nearer than every
      earlier per-obstacle nearest hit, it wins the tie-break. */
  lemma LastFirstNearest(m: Maths, s: Sight, obstacles: seq<Obstacle>)
    requires AllEdged(obstacles) && |obstacles| > 0
    requires var hs := EdgeHits(m, s, obstacles[|obstacles| - 1], obstacles[|obstacles| - 1].lines);
             var nsInit := NearestPerObstacle(m, s, obstacles[..|obstacles| - 1]);
             |hs| > 0 && (|nsInit| > 0 ==> hs[ArgMin(hs)].distance < nsInit[ArgMin(nsInit)].distance)
    ensures var hs := EdgeHits(m, s, obstacles[|obstacles| - 1], obstacles[|obstacles| - 1].lines);
            FirstNearest(m, s, obstacles, |obstacles| - 1, ArgMin(hs))
  {
    var last := |obstacles| - 1;
    var init := obstacles[..last];
    var nsInit := NearestPerObstacle(m, s, init);
    var hs := EdgeHits(m, s, obstacles[last], obstacles[last].lines);
    var a := ArgMin(hs);
    forall i, h | 0 <= i < last && h in EdgeHits(m, s, obstacles[i], obstacles[i].lines)
      ensures hs[a].distance < h.distance
    {
      assert init[i] == obstacles[i];
      assert IsHit(m, s, init, h);
      if |nsInit| == 0 {
        NearestEmpty(m, s, init);
      } else {
        NearestBound(m, s, init, h);
      }
    }
  }

  /** A tie-break winner among all but the last obstacle stays the winner
      when the last obstacle is considered too. */
  lemma LiftFirstNearest(m: Maths, s: Sight, obstacles: seq<Obstacle>, k: int, j: int)
    requires AllEdged(obstacles) && |obstacles| > 0
    requires FirstNearest(m, s, obstacles[..|obstacles| - 1], k, j)
    ensures FirstNearest(m, s, obstacles, k, j)
    ensures EdgeHits(m, s, obstacles[k], obstacles[k].lines) == EdgeHits(m, s, obstacles[..|obstacles| - 1][k], obstacles[..|obstacles| - 1][k].lines)
  {
    var init := obstacles[..|obstacles| - 1];
    assert init[k] == obstacles[k];
    forall i | 0 <= i < k
      ensures init[i] == obstacles[i]
    {
    }
  }

  /** A contact is a kept hit at the smallest distance of all kept hits; of
      the hits at that distance it is the one `np.argmin` picks twice over:
      from the first obstacle in list order that has one, and within it the
      first in edge order. Its distance is the distance from the ray origin
      to its point, and its position is that point seen from the head,
      turned back by the robot's heading. */
  lemma {:induction false} ScanResultNearest(m: Maths, s: Sight, obstacles: seq<Obstacle>)
    requires AllEdged(obstacles) && ScanResult(m, s, obstacles).Some?
    ensures var c := ScanResult(m, s, obstacles).value;
            && IsHit(m, s, obstacles, Hit(c.point, c.distance, c.obstacle))
            && (forall h :: IsHit(m, s, obstacles, h) ==> c.distance <= h.distance)
            && (exists k, j :: FirstNearest(m, s, obstacles, k, j) && c.obstacle == obstacles[k] &&
                  EdgeHits(m, s, obstacles[k], obstacles[k].lines)[j] == Hit(c.point, c.distance, c.obstacle))
            && c.distance == Distance(m, s.p0, c.point)
            && c.position == Rotate(m, Sub(c.point, s.p0), -s.heading)
  {
    var ns := NearestPerObstacle(m, s, obstacles);
    var n := ns[ArgMin(ns)];
    var c := ScanResult(m, s, obstacles).value;
    assert c == Contact(n.obstacle, n.point, Rotate(m, Sub(n.point, s.p0), -s.heading), n.distance);
    assert Hit(c.point, c.distance, c.obstacle) == n;
    NearestFirst(m, s, obstacles);
    assert IsHit(m, s, obstacles, n) by {
      NearestAreHits(m, s, obstacles);
    }
    forall h | IsHit(m, s, obstacles, h)
      ensures c.distance <= h.distance
    {
      NearestBound(m, s, obstacles, h);
    }
    HitDistance(m, s, obstacles, n);
  }

  /** A kept hit's distance is measured from the ray origin. */
  lemma HitDistance(m: Maths, s: Sight, obstacles: seq<Obstacle>, h: Hit)
    requires AllEdged(obstacles) && IsHit(m, s, obstacles, h)
    ensures h.distance == Distance(m, s.p0, h.point) && h.distance <= s.length
  {
    var i :| 0 <= i < |obstacles| && h in EdgeHits(m, s, obstacles[i], obstacles[i].lines);
    EdgeHitsSound(m, s, obstacles[i], obstacles[i].lines);
  }

  /** The inner loop of `Ray.scan`: the kept hits of the edges of `o`, in
      edge order (`obj_intersections`). */
  method ObstacleHits(m: Maths, s: Sight, o: Obstacle) returns (hs: seq<Hit>)
    requires Edged(o)
    ensures hs == EdgeHits(m, s, o, o.lines)
  {
    hs := [];
    var j := 0;
    while j < |o.lines|
      invariant 0 <= j <= |o.lines|
      invariant hs == EdgeHits(m, s, o, o.lines[..j])
    {
      assert o.lines[..j + 1][..j] == o.lines[..j];
      var hit := EdgeHit(m, s, o, o.lines[j]);
      if hit.Some? {
        hs := hs + [hit.value];
      }
      j := j + 1;
    }
    assert o.lines[..j] == o.lines;
  }

  /** The body of `Ray.scan` along the sight `s`: for each obstacle, each
      edge that passes the tests is kept; the nearest kept edge hit of each
      obstacle is kept; the nearest of those becomes the contact, its
      position taken relative to the head and turned back by the heading. */
  method ScanFrom(m: Maths, s: Sight, obstacles: seq<Obstacle>) returns (contact: Option<Contact>)
    requires AllEdged(obstacles)
    ensures contact == ScanResult(m, s, obstacles)
  {
    var intersectionPoints: seq<Hit> := [];
    var i := 0;
    while i < |obstacles|
      invariant 0 <= i <= |obstacles|
      invariant intersectionPoints == NearestPerObstacle(m, s, obstacles[..i])
    {
      var obj := obstacles[i];
      var objIntersections := ObstacleHits(m, s, obj);
      assert obstacles[..i + 1][..i] == obstacles[..i];
      if |objIntersections| > 0 {
        intersectionPoints := intersectionPoints + [objIntersections[ArgMin(objIntersections)]];
      }
      i := i + 1;
    }
    assert obstacles[..i] == obstacles;
    if |intersectionPoints| > 0 {
      var closest := intersectionPoints[ArgMin(intersectionPoints)];
      contact := Some(Contact(
        closest.obstacle, closest.point,
        Rotate(m, Sub(closest.point, s.p0), -s.heading), closest.distance));
    } else {
      contact := None;
    }
  }

  /** A lidar ray: its offset from the robot's heading, its length and the
      contact the last scan found. */
  class Ray {
    const angleShift: real
    const length: real
    var contactPoint: Option<Contact>

    /** A ray that has not scanned yet. */
    constructor (angleShift: real, length: real)
      ensures this.angleShift == angleShift && this.length == length && contactPoint.None?
    {
      this.angleShift := angleShift;
      this.length := length;
      contactPoint := None;
    }

    /** `Ray.scan` for the robot at `pose`: the ray's sight from that pose is
        scanned against the obstacles and the result becomes the contact. */
    method Scan(m: Maths, pose: Pose, obstacles: seq<Obstacle>)
      requires AllEdged(obstacles)
      modifies this
      ensures contactPoint == ScanResult(m, SightOf(m, pose, angleShift, length), obstacles)
    {
      contactPoint := ScanFrom(m, SightOf(m, pose, angleShift, length), obstacles);
    }
  }
}
