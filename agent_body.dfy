/** The fixed dimensions of the robot in `slam/agent.py` and where its head
    is for a given pose. The rays and the event map read the robot only
    through a `Pose`. */
module AgentBody {
  import opened Kino

  /** Body width, body length, head radius (all in cm). */
  const Width: real := 3.0
  const Height: real := 4.0
  const HeadWidth: real := 1.5

  /** Forward speed per step. */
  const Speed: real := 0.5

  /** A ray contact closer than this counts as touching. */
  const CollisionDistance: real := 6.0

  /** Where the robot is and where it faces (degrees, counter-clockwise). */
  datatype Pose = Pose(x: real, y: real, angle: real)

  /** `Agent.COM`: the body centre. */
  function Com(p: Pose): Point
  {
    Point(p.x, p.y)
  }

  /** `Agent.head_position`: half a body length ahead of the centre, along the
      heading. */
  function HeadPosition(m: Maths, p: Pose): (h: Point)
    ensures h == Add(Com(p), Rotate(m, Point(Height / 2.0, 0.0), p.angle))
  {
    Point(p.x + Height / 2.0 * m.cosd(p.angle), p.y + Height / 2.0 * m.sind(p.angle))
  }

  /** The head is exactly half a body length from the centre, and facing
      angle 0 it sits straight ahead on the x axis. */
  lemma HeadDistance(m: Maths, p: Pose)
    requires Lawful(m)
    ensures Norm2(Sub(HeadPosition(m, p), Com(p))) == Height * Height / 4.0
    ensures p.angle == 0.0 ==> HeadPosition(m, p) == Point(p.x + Height / 2.0, p.y)
  {
    var v := Point(Height / 2.0, 0.0);
    RotatePreservesNorm(m, v, p.angle);
    assert Sub(HeadPosition(m, p), Com(p)) == Rotate(m, v, p.angle);
  }

  /** One step of `Agent.move`: `speed` along the heading, heading kept. */
  function Advance(m: Maths, p: Pose, speed: real): (q: Pose)
    ensures q.angle == p.angle
    ensures Com(q) == Add(Com(p), Rotate(m, Point(speed, 0.0), p.angle))
  {
    Pose(p.x + speed * m.cosd(p.angle), p.y + speed * m.sind(p.angle), p.angle)
  }

  /** A step covers exactly `speed`: the squared displacement of the centre
      is `speed * speed`. */
  lemma AdvanceDistance(m: Maths, p: Pose, speed: real)
    requires Lawful(m)
    ensures Norm2(Sub(Com(Advance(m, p, speed)), Com(p))) == speed * speed
  {
    var v := Point(speed, 0.0);
    RotatePreservesNorm(m, v, p.angle);
    assert Sub(Com(Advance(m, p, speed)), Com(p)) == Rotate(m, v, p.angle);
  }
}
