/** `slam/planner.py`: the navigation graph over the occupancy grid. Its nodes
    are the grid cells not known to be blocked, each flagged accessible or
    uncertain; the planner answers which node is nearest to a point and picks
    an uncertain node to explore. */
module Planner {
  import opened Wrappers
  import opened Kino
  import opened Draws
  import opened GridMap
  import opened Geometry

  /** Cells within this distance of each other are linked in the graph. */
  const DistanceThreshold: real := 1.5

  /** A graph node with its attributes. The source stores `accessible` and
      `uncertain` only when they are true; here each is a flag. */
  datatype Node = Node(confidence: int, x: real, y: real, nodeN: nat, accessible: bool, uncertain: bool)

  /** The cells `build` keeps: those with non-negative confidence, in order. */
  function KeptPoints(gps: seq<GridPoint>): (kept: seq<GridPoint>)
    ensures |kept| <= |gps|
    ensures forall n :: 0 <= n < |kept| ==> Confidence(kept[n]) >= 0
  {
    if |gps| == 0 then []
    else
      var init := KeptPoints(gps[..|gps| - 1]);
      var last := gps[|gps| - 1];
      if Confidence(last) >= 0 then init + [last] else init
  }

  /** Keeping distributes over concatenation, so the kept cells appear in their
      original order and none is dropped or duplicated. */
  lemma {:induction false} KeptPointsAppend(a: seq<GridPoint>, b: seq<GridPoint>)
    ensures KeptPoints(a + b) == KeptPoints(a) + KeptPoints(b)
    decreases |b|
  {
    if |b| == 0 {
      assert a + b == a;
    } else {
      var b' := b[..|b| - 1];
      KeptPointsAppend(a, b');
      assert (a + b)[..|a + b| - 1] == a + b';
    }
  }

  /** A cell is kept exactly when it is in the grid and not known blocked. */
  lemma {:induction false} KeptPointsMembers(gps: seq<GridPoint>)
    ensures forall g :: g in KeptPoints(gps) <==> g in gps && Confidence(g) >= 0
  {
    if |gps| > 0 {
      KeptPointsMembers(gps[..|gps| - 1]);
      assert gps == gps[..|gps| - 1] + [gps[|gps| - 1]];
    }
  }

  /** The nodes carrying the accessible flag, in node order. */
  function AccessibleOf(ns: seq<Node>): (r: seq<Node>)
    ensures forall nd :: nd in r <==> nd in ns && nd.accessible
  {
    if |ns| == 0 then []
    else
      var init := AccessibleOf(ns[..|ns| - 1]);
      assert ns == ns[..|ns| - 1] + [ns[|ns| - 1]];
      if ns[|ns| - 1].accessible then init + [ns[|ns| - 1]] else init
  }

  /** The nodes carrying the uncertain flag, in node order. */
  function UncertainOf(ns: seq<Node>): (r: seq<Node>)
    ensures forall nd :: nd in r <==> nd in ns && nd.uncertain
  {
    if |ns| == 0 then []
    else
      var init := UncertainOf(ns[..|ns| - 1]);
      assert ns == ns[..|ns| - 1] + [ns[|ns| - 1]];
      if ns[|ns| - 1].uncertain then init + [ns[|ns| - 1]] else init
  }

  /** `np.argmin` over the distances from `p` to each coordinate. */
  function ClosestIndex(m: Maths, coordinates: seq<Point>, p: Point): (i: nat)
    requires |coordinates| > 0
    ensures i < |coordinates|
    ensures forall j :: 0 <= j < |coordinates| ==> Distance(m, p, coordinates[i]) <= Distance(m, p, coordinates[j])
    ensures forall j :: 0 <= j < i ==> Distance(m, p, coordinates[i]) < Distance(m, p, coordinates[j])
  {
    if |coordinates| == 1 then 0
    else
      var k := ClosestIndex(m, coordinates[..|coordinates| - 1], p);
      assert forall j :: 0 <= j < |coordinates| - 1 ==> coordinates[..|coordinates| - 1][j] == coordinates[j];
      if Distance(m, p, coordinates[|coordinates| - 1]) < Distance(m, p, coordinates[k]) then |coordinates| - 1 else k
  }

  /** With the real square root, the nearest coordinate is also nearest in
      squared distance, and the first one there too. */
  lemma ClosestBySquares(m: Maths, coordinates: seq<Point>, p: Point)
    requires Lawful(m) && |coordinates| > 0
    ensures var i := ClosestIndex(m, coordinates, p);
            && (forall j :: 0 <= j < |coordinates| ==> Norm2(Sub(coordinates[i], p)) <= Norm2(Sub(coordinates[j], p)))
            && (forall j :: 0 <= j < i ==> Norm2(Sub(coordinates[i], p)) < Norm2(Sub(coordinates[j], p)))
  {
    var i := ClosestIndex(m, coordinates, p);
    forall j | 0 <= j < |coordinates|
      ensures Norm2(Sub(coordinates[i], p)) <= Norm2(Sub(coordinates[j], p))
      ensures j < i ==> Norm2(Sub(coordinates[i], p)) < Norm2(Sub(coordinates[j], p))
    {
      Norm2NonNegative(Sub(coordinates[i], p));
      Norm2NonNegative(Sub(coordinates[j], p));
      SqrtMonotone(m, Norm2(Sub(coordinates[i], p)), Norm2(Sub(coordinates[j], p)));
      SqrtMonotone(m, Norm2(Sub(coordinates[j], p)), Norm2(Sub(coordinates[i], p)));
    }
  }

  /** The planner. Before `build` it holds an empty graph. */
  class Planner {
    var gridPoints: seq<GridPoint>
    var coordinates: seq<Point>
    var nodes: seq<Node>

    /** Node `n` sits at the `n`-th coordinate, is numbered `n`, and has
        confidence 0 or 1 (blocked cells are not nodes); it is accessible
        exactly when its confidence is 1 and uncertain exactly when it is 0. */
    ghost predicate Valid()
      reads this
    {
      && |coordinates| == |nodes|
      && forall n :: 0 <= n < |nodes| ==>
           && coordinates[n] == Point(nodes[n].x, nodes[n].y)
           && nodes[n].nodeN == n
           && 0 <= nodes[n].confidence <= 1
           && (nodes[n].accessible <==> nodes[n].confidence == 1)
           && (nodes[n].uncertain <==> nodes[n].confidence == 0)
    }

    constructor ()
      ensures Valid()
      ensures gridPoints == [] && coordinates == [] && nodes == []
    {
      gridPoints := [];
      coordinates := [];
      nodes := [];
    }

    /** `Planner.build`: one node per kept cell, in order, carrying the
        cell's position and confidence and its own index, flagged by its
        confidence. */
    method Build(gridPoints: seq<GridPoint>)
      modifies this
      ensures Valid()
      ensures this.gridPoints == gridPoints
      ensures var kept := KeptPoints(gridPoints);
              && |nodes| == |kept|
              && forall n :: 0 <= n < |nodes| ==>
                   && nodes[n].confidence == Confidence(kept[n])
                   && nodes[n].x == kept[n].x && nodes[n].y == kept[n].y
                   && nodes[n].nodeN == n
    {
      this.gridPoints := gridPoints;
      var accessiblePoints := KeptPoints(gridPoints);
      coordinates := seq(|accessiblePoints|, n requires 0 <= n < |accessiblePoints| =>
                           Point(accessiblePoints[n].x, accessiblePoints[n].y));
      nodes := [];
      var n := 0;
      while n < |accessiblePoints|
        invariant 0 <= n <= |accessiblePoints| && |nodes| == n
        invariant this.gridPoints == gridPoints
        invariant |coordinates| == |accessiblePoints|
        invariant forall k :: 0 <= k < |accessiblePoints| ==>
                    coordinates[k] == Point(accessiblePoints[k].x, accessiblePoints[k].y)
        invariant forall k :: 0 <= k < n ==>
                    && nodes[k].confidence == Confidence(accessiblePoints[k])
                    && nodes[k].x == accessiblePoints[k].x && nodes[k].y == accessiblePoints[k].y
                    && nodes[k].nodeN == k
                    && (nodes[k].accessible <==> nodes[k].confidence == 1)
                    && (nodes[k].uncertain <==> nodes[k].confidence == 0)
      {
        var confidence := Confidence(accessiblePoints[n]);
        var pt := accessiblePoints[n];
        if confidence != 0 {
          nodes := nodes + [Node(confidence, pt.x, pt.y, n, true, false)];
        } else {
          nodes := nodes + [Node(confidence, pt.x, pt.y, n, false, true)];
        }
        n := n + 1;
      }
    }

    /** `Planner.accessible`. */
    function Accessible(): (r: seq<Node>)
      reads this
      ensures forall nd :: nd in r <==> nd in nodes && nd.accessible
    {
      AccessibleOf(nodes)
    }

    /** `Planner.uncertain`. */
    function Uncertain(): (r: seq<Node>)
      reads this
      ensures forall nd :: nd in r <==> nd in nodes && nd.uncertain
    {
      UncertainOf(nodes)
    }

    /** `Planner.get_uncertain_node` with the draw `u`: nothing when no node is
        uncertain, otherwise an uncertain node of the graph. */
    function GetUncertainNode(u: real): (r: Option<Node>)
      requires IsDraw(u)
      reads this
      ensures r.None? <==> forall nd :: nd in nodes ==> !nd.uncertain
      ensures r.Some? ==> r.value in nodes && r.value.uncertain
    {
      var uncertain := Uncertain();
      if |uncertain| == 0 then None
      else
        assert uncertain[0] in uncertain;
        var r := uncertain[Choice(|uncertain|, u)];
        assert r in uncertain;
        Some(r)
    }

    /** `Planner.get_closest_node`: the first node at the least distance from
        `p`; nothing for an empty graph. */
    function GetClosestNode(m: Maths, p: Point): (r: Option<Node>)
      requires Valid()
      reads this
      ensures r.None? <==> |nodes| == 0
      ensures r.Some? ==> r.value in nodes
      ensures r.Some? ==> forall nd :: nd in nodes ==>
                Distance(m, p, Point(r.value.x, r.value.y)) <= Distance(m, p, Point(nd.x, nd.y))
      ensures r.Some? ==> forall j :: 0 <= j < r.value.nodeN ==>
                Distance(m, p, Point(r.value.x, r.value.y)) < Distance(m, p, Point(nodes[j].x, nodes[j].y))
    {
      if |nodes| == 0 then None
      else
        var i := ClosestIndex(m, coordinates, p);
        assert forall nd :: nd in nodes ==> exists j :: 0 <= j < |nodes| && nodes[j] == nd;
        Some(nodes[i])
    }

    /** The start of `Planner.plan_route`: the node nearest to the robot's
        last trajectory point. */
    function RouteStart(m: Maths, trajectoryX: seq<real>, trajectoryY: seq<real>): (r: Option<Node>)
      requires Valid() && |trajectoryX| > 0 && |trajectoryY| > 0
      reads this
      ensures r.None? <==> |nodes| == 0
      ensures r.Some? ==> r.value in nodes
      ensures r.Some? ==>
                var p := Point(trajectoryX[|trajectoryX| - 1], trajectoryY[|trajectoryY| - 1]);
                forall nd :: nd in nodes ==> Distance(m, p, Point(r.value.x, r.value.y)) <= Distance(m, p, Point(nd.x, nd.y))
    {
      GetClosestNode(m, Point(trajectoryX[|trajectoryX| - 1], trajectoryY[|trajectoryY| - 1]))
    }
  }

  /** In a built graph every node carries exactly one of the two flags. */
  lemma FlagsExclusive(p: Planner, n: nat)
    requires p.Valid() && n < |p.nodes|
    ensures p.nodes[n].accessible != p.nodes[n].uncertain
  {
  }
}
