/** `slam/map.py`: the robot's map of contact events. It keeps every contact
    as reported (the ground truth) and, for each, the world point recomputed
    from the egocentric position and the robot's pose. */
module EventMap {
  import opened Kino
  import opened AgentBody
  import opened Obstacles
  import opened Rays

  /** One contact taken back from egocentric to world coordinates: turned by
      the robot's heading, then shifted to the robot's head. */
  function Reconstruct(m: Maths, pose: Pose, c: Contact): Point
  {
    Add(Rotate(m, c.position, pose.angle), HeadPosition(m, pose))
  }

  /** The points `add` appends for the contacts, in order. */
  function Reconstructed(m: Maths, pose: Pose, cs: seq<Contact>): (ps: seq<Point>)
    ensures |ps| == |cs|
    ensures forall i :: 0 <= i < |cs| ==> ps[i] == Reconstruct(m, pose, cs[i])
  {
    if |cs| == 0 then []
    else Reconstructed(m, pose, cs[..|cs| - 1]) + [Reconstruct(m, pose, cs[|cs| - 1])]
  }

  /** The round trip: for a contact that a scan at the same pose produced, the
      reconstructed point is the contact's world point. */
  lemma {:induction false} ReconstructScanContact(
    m: Maths, pose: Pose, angleShift: real, length: real, obstacles: seq<Obstacle>)
    requires Lawful(m) && AllEdged(obstacles)
    requires ScanResult(m, SightOf(m, pose, angleShift, length), obstacles).Some?
    ensures var c := ScanResult(m, SightOf(m, pose, angleShift, length), obstacles).value;
            Reconstruct(m, pose, c) == c.point
  {
    var s := SightOf(m, pose, angleShift, length);
    var c := ScanResult(m, s, obstacles).value;
    assert c.position == Rotate(m, Sub(c.point, s.p0), -s.heading);
    var v := Sub(c.point, s.p0);
    RotateInverse(m, v, pose.angle);
    assert Rotate(m, c.position, pose.angle) == v;
    assert s.p0 == HeadPosition(m, pose);
  }

  /** The event map. */
  class Map {
    var events: seq<Point>
    var eventsGroundTruth: seq<Contact>

    /** An empty map. */
    constructor ()
      ensures events == [] && eventsGroundTruth == []
    {
      events := [];
      eventsGroundTruth := [];
    }

    /** `Map.add` with the robot at `pose`: the ground truth grows by exactly
        the given contacts, and the events by one reconstructed point per
        contact, in order, leaving the earlier entries alone. */
    method Add(m: Maths, pose: Pose, contacts: seq<Contact>)
      modifies this
      ensures eventsGroundTruth == old(eventsGroundTruth) + contacts
      ensures events == old(events) + Reconstructed(m, pose, contacts)
      ensures |old(events)| == |old(eventsGroundTruth)| ==> |events| == |eventsGroundTruth|
    {
      eventsGroundTruth := eventsGroundTruth + contacts;
      ghost var before := events;
      var i := 0;
      while i < |contacts|
        invariant 0 <= i <= |contacts|
        invariant eventsGroundTruth == old(eventsGroundTruth) + contacts
        invariant events == before + Reconstructed(m, pose, contacts[..i])
      {
        assert contacts[..i + 1][..i] == contacts[..i];
        var c := contacts[i];
        var pos := Rotate(m, c.position, pose.angle);
        pos := Kino.Add(pos, HeadPosition(m, pose));
        events := events + [pos];
        i := i + 1;
      }
      assert contacts[..i] == contacts;
    }
  }
}
