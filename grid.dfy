/** `slam/_map.py`: a cell of the occupancy grid and how confident the robot
    is that the cell is open. */
module GridMap {

  /** The value a fresh cell holds. */
  const DefaultValue: real := 0.1

  /** Only cells whose value reaches this are trusted to be open. */
  const DefaultThreshold: real := 1.5

  /** `GridPoint`: a cell at `(x, y)` with an evidence `value`. */
  datatype GridPoint = GridPoint(x: real, y: real, value: real, confidenceThreshold: real)

  /** A cell built with only its coordinates. */
  function DefaultGridPoint(x: real, y: real): (g: GridPoint)
    ensures g.x == x && g.y == y
    ensures Confidence(g) == 0
  {
    GridPoint(x, y, DefaultValue, DefaultThreshold)
  }

  /** `GridPoint.confidence`: -1 for an obstacle, 1 for a certainly open cell,
      0 when unsure. */
  function Confidence(g: GridPoint): (c: int)
    ensures -1 <= c <= 1
  {
    if g.value < 0.0 then -1
    else if g.value < g.confidenceThreshold then 0
    else 1
  }

  /** Each of the three answers, characterised in both directions. */
  lemma ConfidenceCases(g: GridPoint)
    ensures Confidence(g) == -1 <==> g.value < 0.0
    ensures Confidence(g) == 0 <==> 0.0 <= g.value < g.confidenceThreshold
    ensures Confidence(g) == 1 <==> 0.0 <= g.value && g.confidenceThreshold <= g.value
  {
  }

  /** With the threshold fixed, more evidence never lowers the confidence. */
  lemma ConfidenceMonotone(g: GridPoint, h: GridPoint)
    requires g.confidenceThreshold == h.confidenceThreshold
    requires g.value <= h.value
    ensures Confidence(g) <= Confidence(h)
  {
  }
}
