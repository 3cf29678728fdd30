/** `slam/agent.py`: the robot. It carries five lidar rays and an event map,
    steers away from what its rays touch, moves, records its trajectory, and
    feeds every contact its rays find into the map. */
module Agents {
  import opened Wrappers
  import opened Kino
  import opened Draws
  import opened Obstacles
  import opened AgentBody
  import opened Rays
  import opened EventMap
  import opened Environments
  import opened Behavior

  /** The ray offsets from the heading, left to right, and their length. */
  const RayOffsets: seq<real> := [-40.0, -20.0, 0.0, 20.0, 40.0]
  const RayLength: real := 12.0

  /** A ray reading touches when it has a contact closer than the collision
      distance. */
  predicate Touches(r: Option<Contact>)
  {
    r.Some? && r.value.distance < CollisionDistance
  }

  /** The `touching` flags `move` computes, one per ray. */
  function TouchingFlags(rs: seq<Option<Contact>>): (t: seq<bool>)
    ensures |t| == |rs|
    ensures forall n :: 0 <= n < |rs| ==> (t[n] <==> Touches(rs[n]))
  {
    if |rs| == 0 then []
    else TouchingFlags(rs[..|rs| - 1]) + [Touches(rs[|rs| - 1])]
  }

  /** The `touching_distance` `move` computes: twice the collision distance,
      lowered to each touching ray's contact distance in turn. */
  function TouchingDistance(rs: seq<Option<Contact>>): real
  {
    if |rs| == 0 then 2.0 * CollisionDistance
    else
      var d := TouchingDistance(rs[..|rs| - 1]);
      var last := rs[|rs| - 1];
      if Touches(last) then Min(d, last.value.distance) else d
  }

  /** The touching distance is the minimum of twice the collision distance
      and the touching rays' distances: it is at most each of them and equals
      one of them, so it is below the collision distance whenever a ray
      touches. */
  lemma {:induction false} TouchingDistanceIsMinimum(rs: seq<Option<Contact>>)
    ensures TouchingDistance(rs) <= 2.0 * CollisionDistance
    ensures forall n :: 0 <= n < |rs| && Touches(rs[n]) ==> TouchingDistance(rs) <= rs[n].value.distance
    ensures TouchingDistance(rs) == 2.0 * CollisionDistance ||
            exists n :: 0 <= n < |rs| && Touches(rs[n]) && TouchingDistance(rs) == rs[n].value.distance
    ensures (exists n :: 0 <= n < |rs| && Touches(rs[n])) ==> TouchingDistance(rs) < CollisionDistance
  {
    if |rs| > 0 {
      var init := rs[..|rs| - 1];
      TouchingDistanceIsMinimum(init);
      assert forall n :: 0 <= n < |init| ==> init[n] == rs[n];
      if exists n :: 0 <= n < |rs| && Touches(rs[n]) {
        var n :| 0 <= n < |rs| && Touches(rs[n]);
        assert TouchingDistance(rs) <= rs[n].value.distance;
      }
    }
  }

  /** Something other than exactly one outer ray touches. */
  predicate OtherTouch(t: seq<bool>)
    requires |t| > 0
  {
    !LeftOnly(t) && !RightOnly(t) && true in t
  }

  /** The turn `move` adds to the heading, for the draw `u`. */
  function SteeringDelta(t: seq<bool>, u: real): real
    requires |t| > 0 && IsDraw(u)
  {
    if LeftOnly(t) then Uniform(0.0, 45.0, u)
    else if RightOnly(t) then Uniform(-45.0, 0.0, u)
    else if true in t then Uniform(-45.0, 45.0, u)
    else 0.0
  }

  /** The speed `move` uses. */
  function MoveSpeed(t: seq<bool>, touchingDistance: real): real
    requires |t| > 0
  {
    if OtherTouch(t) then Speed * (touchingDistance / CollisionDistance) else Speed
  }

  /** The steering cases of `move`: only the left ray touching turns by
      `[0, 45)`, only the right ray by `[-45, 0)`, anything else touching by
      `[-45, 45)` at a speed scaled by the touching distance; with nothing
      touching the heading is kept and the speed is the agent's own. */
  lemma SteeringCases(t: seq<bool>, td: real, u: real)
    requires |t| > 0 && IsDraw(u)
    ensures LeftOnly(t) ==> 0.0 <= SteeringDelta(t, u) < 45.0 && MoveSpeed(t, td) == Speed
    ensures RightOnly(t) ==> -45.0 <= SteeringDelta(t, u) < 0.0 && MoveSpeed(t, td) == Speed
    ensures OtherTouch(t) ==> -45.0 <= SteeringDelta(t, u) < 45.0 &&
                              MoveSpeed(t, td) == Speed * td / CollisionDistance
    ensures true !in t ==> SteeringDelta(t, u) == 0.0 && MoveSpeed(t, td) == Speed
  {
  }

  /** The steering branch of `move`: the turn and the speed for the touching
      flags `t`, the touching distance and the draw `u`. */
  method Steer(t: seq<bool>, touchingDistance: real, u: real) returns (delta: real, speed: real)
    requires |t| > 0 && IsDraw(u)
    ensures delta == SteeringDelta(t, u) && speed == MoveSpeed(t, touchingDistance)
  {
    delta, speed := 0.0, Speed;
    if t[0] && !t[|t| - 1] {
      delta := Uniform(0.0, 45.0, u);
    } else if !t[0] && t[|t| - 1] {
      delta := Uniform(-45.0, 0.0, u);
    } else if true in t {
      delta := Uniform(-45.0, 45.0, u);
      speed := Speed * (touchingDistance / CollisionDistance);
    }
  }

  /** A slower robot when something touches: the scaled speed is below the
      agent's own. */
  lemma {:induction false} TouchSlowsDown(rs: seq<Option<Contact>>)
    requires |rs| > 0 && OtherTouch(TouchingFlags(rs))
    ensures MoveSpeed(TouchingFlags(rs), TouchingDistance(rs)) < Speed
  {
    var t := TouchingFlags(rs);
    var n :| 0 <= n < |t| && t[n];
    TouchingDistanceIsMinimum(rs);
  }

  /** Where `move` takes the robot from pose `p` when its rays read `rs` and
      the draw is `u`: turned by the steering case, then advanced along the
      new heading at the move speed. */
  function MovedPose(m: Maths, p: Pose, rs: seq<Option<Contact>>, u: real): (q: Pose)
    requires |rs| > 0 && IsDraw(u)
    ensures q.angle == p.angle + SteeringDelta(TouchingFlags(rs), u)
  {
    var t := TouchingFlags(rs);
    Advance(m, AgentBody.Pose(p.x, p.y, p.angle + SteeringDelta(t, u)), MoveSpeed(t, TouchingDistance(rs)))
  }

  /** The step of `move`: the centre moves by the move speed along the new
      heading, so it ends exactly that speed away from where it was. */
  lemma MovedPoseStep(m: Maths, p: Pose, rs: seq<Option<Contact>>, u: real, q: Pose, speed: real)
    requires Lawful(m) && |rs| > 0 && IsDraw(u)
    requires q == MovedPose(m, p, rs, u) && speed == MoveSpeed(TouchingFlags(rs), TouchingDistance(rs))
    ensures Com(q) == Add(Com(p), Rotate(m, Point(speed, 0.0), q.angle))
    ensures Norm2(Sub(Com(q), Com(p))) == speed * speed
  {
    assert q == Advance(m, AgentBody.Pose(p.x, p.y, q.angle), speed);
    TurnedAdvance(m, p, q, speed);
  }

  /** Advancing from `p`'s position along `q`'s heading. */
  lemma TurnedAdvance(m: Maths, p: Pose, q: Pose, speed: real)
    requires Lawful(m) && q == Advance(m, AgentBody.Pose(p.x, p.y, q.angle), speed)
    ensures Com(q) == Add(Com(p), Rotate(m, Point(speed, 0.0), q.angle))
    ensures Norm2(Sub(Com(q), Com(p))) == speed * speed
  {
    var turned := AgentBody.Pose(p.x, p.y, q.angle);
    AdvanceDistance(m, turned, speed);
    assert Com(turned) == Com(p);
  }

  /** The contacts `update` hands to the map: those of the rays that have one,
      in ray order. */
  function ContactsOf(rs: seq<Option<Contact>>): (cs: seq<Contact>)
    ensures |cs| <= |rs|
  {
    if |rs| == 0 then []
    else
      var init := ContactsOf(rs[..|rs| - 1]);
      match rs[|rs| - 1]
      case Some(c) => init + [c]
      case None => init
  }

  /** The contacts handed to the map are exactly the readings that hold one. */
  lemma {:induction false} ContactsOfMembers(rs: seq<Option<Contact>>)
    ensures forall c :: c in ContactsOf(rs) <==> Some(c) in rs
  {
    if |rs| > 0 {
      ContactsOfMembers(rs[..|rs| - 1]);
      assert rs == rs[..|rs| - 1] + [rs[|rs| - 1]];
    }
  }

  /** Taking contacts distributes over concatenation: the contacts of
      earlier readings come first, so the map receives them in ray order. */
  lemma {:induction false} ContactsOfAppend(a: seq<Option<Contact>>, b: seq<Option<Contact>>)
    ensures ContactsOf(a + b) == ContactsOf(a) + ContactsOf(b)
    decreases |b|
  {
    if |b| == 0 {
      assert a + b == a;
    } else {
      var b' := b[..|b| - 1];
      ContactsOfAppend(a, b');
      assert (a + b)[..|a + b| - 1] == a + b';
    }
  }

  /** A reading with a contact contributes exactly that contact, and one
      without contributes nothing. */
  lemma ContactsOfSingle(r: Option<Contact>)
    ensures ContactsOf([r]) == if r.Some? then [r.value] else []
  {
    assert [r][..0] == [];
  }

  /** The contacts of the given rays, in order. */
  function ReadingsOf(rays: seq<Ray>): (rs: seq<Option<Contact>>)
    reads rays
    ensures |rs| == |rays|
    ensures forall n :: 0 <= n < |rays| ==> rs[n] == rays[n].contactPoint
  {
    if |rays| == 0 then []
    else ReadingsOf(rays[..|rays| - 1]) + [rays[|rays| - 1].contactPoint]
  }

  /** When every reading is the scan of its ray at `pose`, every event the map
      reconstructs from them is exactly the contact's world point. */
  lemma {:induction false} UpdateRoundTrip(
    m: Maths, pose: Pose, shifts: seq<real>, obstacles: seq<Obstacle>, rs: seq<Option<Contact>>)
    requires Lawful(m) && AllEdged(obstacles) && |shifts| == |rs|
    requires forall n :: 0 <= n < |rs| ==> rs[n] == ScanResult(m, SightOf(m, pose, shifts[n], RayLength), obstacles)
    ensures var cs := ContactsOf(rs);
            forall k :: 0 <= k < |cs| ==> Reconstructed(m, pose, cs)[k] == cs[k].point
  {
    var cs := ContactsOf(rs);
    ContactsOfMembers(rs);
    forall k | 0 <= k < |cs|
      ensures Reconstructed(m, pose, cs)[k] == cs[k].point
    {
      assert cs[k] in cs;
      var n :| 0 <= n < |rs| && rs[n] == Some(cs[k]);
      ReconstructScanContact(m, pose, shifts[n], RayLength, obstacles);
    }
  }

  /** The robot. */
  class Agent {
    var environment: Environment
    var eventMap: Map
    var x: real
    var y: real
    var angle: real
    var trajectoryX: seq<real>
    var trajectoryY: seq<real>
    var rays: seq<Ray>

    /** Five distinct rays, and two non-empty trajectory lists of equal
        length. (After `set` the position need not be the trajectory's last
        point.) */
    ghost predicate Valid()
      reads this
    {
      && |rays| == |RayOffsets|
      && (forall i, j :: 0 <= i < j < |rays| ==> rays[i] != rays[j])
      && |trajectoryX| == |trajectoryY| > 0
    }

    function Pose(): Pose
      reads this
    {
      AgentBody.Pose(x, y, angle)
    }

    /** The rays' current contacts, in ray order. */
    function Readings(): (rs: seq<Option<Contact>>)
      reads this, rays
      ensures |rs| == |rays|
    {
      ReadingsOf(rays)
    }

    /** `Agent.__init__`: the robot at `(x, y)` facing `angle`, an empty map,
        a trajectory holding only the start, and five rays of length 12 at
        offsets -40, -20, 0, 20, 40, each scanned once. */
    constructor (m: Maths, environment: Environment, x: real, y: real, angle: real)
      requires environment.Valid()
      ensures Valid()
      ensures this.environment == environment && this.x == x && this.y == y && this.angle == angle
      ensures trajectoryX == [x] && trajectoryY == [y]
      ensures fresh(eventMap) && eventMap.events == [] && eventMap.eventsGroundTruth == []
      ensures forall n :: 0 <= n < |rays| ==> fresh(rays[n])
      ensures forall n :: 0 <= n < |rays| ==> rays[n].angleShift == RayOffsets[n] && rays[n].length == RayLength
      ensures forall n :: 0 <= n < |rays| ==>
                rays[n].contactPoint == ScanResult(m, SightOf(m, Pose(), rays[n].angleShift, rays[n].length), environment.obstacles)
    {
      this.environment := environment;
      eventMap := new Map();
      this.x := x;
      this.y := y;
      this.angle := angle;
      trajectoryX := [x];
      trajectoryY := [y];
      var r0 := new Ray(RayOffsets[0], RayLength);
      var r1 := new Ray(RayOffsets[1], RayLength);
      var r2 := new Ray(RayOffsets[2], RayLength);
      var r3 := new Ray(RayOffsets[3], RayLength);
      var r4 := new Ray(RayOffsets[4], RayLength);
      var rs := [r0, r1, r2, r3, r4];
      assert forall n :: 0 <= n < |rs| ==>
               fresh(rs[n]) && rs[n].angleShift == RayOffsets[n] && rs[n].length == RayLength;
      rays := rs;
      new;
      ScanAll(m);
    }

    /** Every ray scans the environment's obstacles from the current pose. */
    method ScanAll(m: Maths)
      requires Valid() && environment.Valid()
      modifies rays
      ensures forall n :: 0 <= n < |rays| ==>
                rays[n].contactPoint == ScanResult(m, SightOf(m, Pose(), rays[n].angleShift, rays[n].length), environment.obstacles)
    {
      var pose, obstacles, rs := Pose(), environment.obstacles, rays;
      var n := 0;
      while n < |rs|
        invariant 0 <= n <= |rs|
        invariant forall k :: 0 <= k < n ==>
                    rs[k].contactPoint == ScanResult(m, SightOf(m, pose, rs[k].angleShift, rs[k].length), obstacles)
      {
        rs[n].Scan(m, pose, obstacles);
        n := n + 1;
      }
      assert rays == rs && Pose() == pose && environment.obstacles == obstacles;
    }

    /** `Agent.set`: assigns `x`, `y` and `angle` from the given pairs, in
        order, and stops with the offending key at the first key that is not
        one of them; earlier assignments stay done. */
    method Set(kwargs: seq<(string, real)>) returns (error: Option<string>)
      requires Valid()
      requires DistinctKeys(kwargs)
      requires forall i :: 0 <= i < |kwargs| ==> !OtherAttribute(kwargs[i].0)
      modifies this
      ensures Valid()
      ensures (Pose(), error) == SetPose(old(Pose()), kwargs)
      ensures environment == old(environment) && eventMap == old(eventMap) && rays == old(rays)
      ensures trajectoryX == old(trajectoryX) && trajectoryY == old(trajectoryY)
    {
      var i := 0;
      while i < |kwargs|
        invariant 0 <= i <= |kwargs|
        invariant SetPose(old(Pose()), kwargs) == SetPose(Pose(), kwargs[i..])
        invariant Valid()
        invariant environment == old(environment) && eventMap == old(eventMap) && rays == old(rays)
        invariant trajectoryX == old(trajectoryX) && trajectoryY == old(trajectoryY)
      {
        var (k, v) := kwargs[i];
        if k == "x" {
          x := v;
        } else if k == "y" {
          y := v;
        } else if k == "angle" {
          angle := v;
        } else {
          return Some(k);
        }
        i := i + 1;
      }
      return None;
    }

    /** The first loop of `Agent.move`: which rays touch an obstacle, and
        the least contact distance among them (twice the collision distance
        when none touches). */
    method Sense() returns (touching: seq<bool>, touchingDistance: real)
      requires Valid()
      ensures touching == TouchingFlags(Readings())
      ensures touchingDistance == TouchingDistance(Readings())
    {
      ghost var rs := Readings();
      touchingDistance := CollisionDistance * 2.0;
      touching := seq(|rays|, n => false);
      var n := 0;
      while n < |rays|
        invariant 0 <= n <= |rays| && |touching| == |rays|
        invariant forall k :: 0 <= k < n ==> (touching[k] <==> Touches(rs[k]))
        invariant forall k :: n <= k < |rays| ==> !touching[k]
        invariant touchingDistance == TouchingDistance(rs[..n])
      {
        assert rs[..n + 1][..n] == rs[..n];
        var contact := rays[n].contactPoint;
        if contact.Some? {
          if contact.value.distance < CollisionDistance {
            touching := touching[n := true];
            touchingDistance := Min(touchingDistance, contact.value.distance);
          }
        }
        n := n + 1;
      }
      assert rs[..n] == rs;
    }

    /** `Agent.move` with the draw `u`: the touching flags and distance come
        from the rays' contacts; the heading turns by the steering case; the
        robot advances by the speed along the new heading, and each
        trajectory list gains the new coordinate. */
    method Move(m: Maths, u: real)
      requires Valid() && IsDraw(u)
      modifies this
      ensures Valid()
      ensures environment == old(environment) && eventMap == old(eventMap) && rays == old(rays)
      ensures Readings() == old(Readings())
      ensures Pose() == MovedPose(m, old(Pose()), Readings(), u)
      ensures trajectoryX == old(trajectoryX) + [x] && trajectoryY == old(trajectoryY) + [y]
    {
      ghost var rs := Readings();
      ghost var target := MovedPose(m, Pose(), rs, u);
      var touching, touchingDistance := Sense();
      var delta, speed := Steer(touching, touchingDistance, u);
      angle := angle + delta;
      var next := Advance(m, Pose(), speed);
      assert next == target;
      x, y := next.x, next.y;
      trajectoryX := trajectoryX + [x];
      trajectoryY := trajectoryY + [y];
      assert Readings() == rs;
      assert Pose() == target;
    }

    /** `Agent.update` with the draw `u`: move, rescan every ray from the new
        pose, then add the contacts of the rays that found one to the map. */
    method Update(m: Maths, u: real)
      requires Valid() && IsDraw(u) && environment.Valid()
      modifies this, eventMap, rays
      ensures Valid()
      ensures environment == old(environment) && eventMap == old(eventMap) && rays == old(rays)
      ensures Pose() == MovedPose(m, old(Pose()), old(Readings()), u)
      ensures trajectoryX == old(trajectoryX) + [x] && trajectoryY == old(trajectoryY) + [y]
      ensures forall n :: 0 <= n < |rays| ==>
                rays[n].contactPoint == ScanResult(m, SightOf(m, Pose(), rays[n].angleShift, rays[n].length), environment.obstacles)
      ensures eventMap.eventsGroundTruth == old(eventMap.eventsGroundTruth) + ContactsOf(Readings())
      ensures eventMap.events == old(eventMap.events) + Reconstructed(m, Pose(), ContactsOf(Readings()))
    {
      Move(m, u);
      ScanAll(m);
      var pose, readings := Pose(), Readings();
      ghost var obstacles := environment.obstacles;
      eventMap.Add(m, pose, ContactsOf(readings));
      assert Pose() == pose && environment.obstacles == obstacles && Readings() == readings;
    }
  }

  /** The attributes of an agent that `set` could reach but that hold objects
      or lists rather than numbers. */
  predicate OtherAttribute(k: string)
  {
    k == "environment" || k == "map" || k == "trajectory" || k == "rays"
  }

  /** The numeric attributes `set` may assign. */
  predicate Settable(k: string)
  {
    k == "x" || k == "y" || k == "angle"
  }

  function Assign(p: Pose, k: string, v: real): Pose
  {
    if k == "x" then p.(x := v)
    else if k == "y" then p.(y := v)
    else if k == "angle" then p.(angle := v)
    else p
  }

  /** The pose after `set` and the key it stopped at, if any. */
  function SetPose(p: Pose, kwargs: seq<(string, real)>): (Pose, Option<string>)
    decreases |kwargs|
  {
    if |kwargs| == 0 then (p, None)
    else if !Settable(kwargs[0].0) then (p, Some(kwargs[0].0))
    else SetPose(Assign(p, kwargs[0].0, kwargs[0].1), kwargs[1..])
  }

  /** The assignments of all the pairs, in order. */
  function AssignAll(p: Pose, kwargs: seq<(string, real)>): Pose
    decreases |kwargs|
  {
    if |kwargs| == 0 then p
    else AssignAll(Assign(p, kwargs[0].0, kwargs[0].1), kwargs[1..])
  }

  /** `set` fails exactly at the first key that is not settable, after
      applying every pair before it; with only settable keys it applies them
      all and succeeds. */
  lemma {:induction false} SetStopsAtFirstUnknown(p: Pose, kwargs: seq<(string, real)>, i: nat)
    requires i <= |kwargs|
    requires forall j :: 0 <= j < i ==> Settable(kwargs[j].0)
    requires i < |kwargs| ==> !Settable(kwargs[i].0)
    ensures SetPose(p, kwargs) == (AssignAll(p, kwargs[..i]), if i < |kwargs| then Some(kwargs[i].0) else None)
    decreases i
  {
    if i > 0 {
      var q := Assign(p, kwargs[0].0, kwargs[0].1);
      SetStopsAtFirstUnknown(q, kwargs[1..], i - 1);
      assert kwargs[1..][..i - 1] == kwargs[..i][1..];
    }
  }

  /** The keys of `set`'s keyword arguments are distinct: they arrive as a
      dictionary. */
  predicate DistinctKeys(kwargs: seq<(string, real)>)
  {
    forall i, j :: 0 <= i < j < |kwargs| ==> kwargs[i].0 != kwargs[j].0
  }

  /** The pose attribute a settable key names. */
  function Field(p: Pose, k: string): real
    requires Settable(k)
  {
    if k == "x" then p.x else if k == "y" then p.y else p.angle
  }

  /** With distinct keys, applying the pairs sets each named attribute to
      its value and leaves every attribute no key names as it was, so the
      order of the pairs does not matter. */
  lemma {:induction false} AssignAllFields(p: Pose, kwargs: seq<(string, real)>, k: string)
    requires Settable(k) && DistinctKeys(kwargs)
    ensures forall i :: 0 <= i < |kwargs| && kwargs[i].0 == k ==> Field(AssignAll(p, kwargs), k) == kwargs[i].1
    ensures (forall i :: 0 <= i < |kwargs| ==> kwargs[i].0 != k) ==> Field(AssignAll(p, kwargs), k) == Field(p, k)
    decreases |kwargs|
  {
    if |kwargs| > 0 {
      var q := Assign(p, kwargs[0].0, kwargs[0].1);
      var rest := kwargs[1..];
      assert DistinctKeys(rest) by {
        forall i, j | 0 <= i < j < |rest| ensures rest[i].0 != rest[j].0 {
          assert rest[i] == kwargs[i + 1] && rest[j] == kwargs[j + 1];
        }
      }
      AssignAllFields(q, rest, k);
      forall i | 0 <= i < |kwargs| && kwargs[i].0 == k
        ensures Field(AssignAll(p, kwargs), k) == kwargs[i].1
      {
        if i > 0 {
          assert rest[i - 1] == kwargs[i];
        } else {
          forall j | 0 <= j < |rest| ensures rest[j].0 != k {
            assert rest[j] == kwargs[j + 1];
          }
        }
      }
      if forall i :: 0 <= i < |kwargs| ==> kwargs[i].0 != k {
        forall j | 0 <= j < |rest| ensures rest[j].0 != k {
          assert rest[j] == kwargs[j + 1];
        }
      }
    }
  }
}
