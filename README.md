# Slam: a verified model of a 2D lidar-robot simulator

This project models the geometric and decision core of **Slam**, a small
simulator of a robot that explores a rectangular arena. The arena is full of
rotated rectangular obstacles and framed by four walls. The robot carries
five lidar rays fanned around its heading.

- **Each step:** the robot
  1. reads which rays touch something closer than a collision distance,
  2. turns away and slows down according to which rays touch,
  3. moves forward,
  4. rescans its rays,
  5. logs every contact into an event map. The map rebuilds each contact's
     world position from the egocentric reading and the robot's pose.
- **Around the step:**
  - Behavioural routines (explore, back-track, spin-scan) issue motor
    commands and count their steps.
  - An occupancy-grid cell classifies itself as blocked, unsure or open.
  - A planner turns the non-blocked cells into graph nodes and answers
    nearest-node and random-uncertain-node queries.

## Modelling conventions

- **Numbers:** coordinates are exact `real`s.
- **Trigonometry and square root:** cosine and sine in degrees, the square
  root, and the library's `Vector.angle` are the arrows of a `Maths` value
  passed to every operation that needs them (module `Kino`).
  - `Vector.rotate` is the standard counter-clockwise rotation built from
    them.
  - `Lawful(m)` collects the laws the proofs use:
    - `cos² + sin² = 1`;
    - `cos 0 = 1`, `sin 0 = 0`;
    - cosine is even, sine is odd;
    - the square root is the non-negative root.
  - Properties that need the laws take `Lawful(m)` as a hypothesis.
- **Randomness:** each `np.random.uniform(lo, hi)` or `random.choice` is a
  parameter `u` with `0 <= u < 1`.
  - `uniform` is `lo + (hi - lo) * u`.
  - `choice` over `n` items takes index `floor(n * u)`.
- **Back-references:**
  - A ray or map that reads the robot's state gets the robot's `Pose`
    (position and heading) instead.
  - A vertical line's NaN intercept is `None`.
- **Form follows the source:**
  - Pure parts are datatypes and functions: lines, grid cells, obstacles,
    ray geometry, steering.
  - Parts that change state are classes with `modifies` clauses:
    - `Environment`, `Ray`, `Map`, `Agent`, `Planner`;
    - the step-counting `BehavioralRoutine`.
  - Loops stay loops with invariants. Each such method is proved equal to
    a specification function, and the properties are proved about that
    function.

Files (one module each):

| file | module | source |
|---|---|---|
| `wrappers.dfy` | `Wrappers` | `Option` |
| `kino.dfy` | `Kino` | points, vectors, rotation, the `Maths` arrows and their laws |
| `geometry.dfy` | `Geometry` | `slam/geometry.py` |
| `grid.dfy` | `GridMap` | `slam/_map.py` (`GridPoint`) |
| `draws.dfy` | `Draws` | `uniform` and `choice` |
| `behavior.dfy` | `Behavior` | `slam/behavior.py` |
| `obstacle.dfy` | `Obstacles` | `slam/obstacle.py` |
| `environment.dfy` | `Environments` | `slam/environment.py` |
| `agent_body.dfy` | `AgentBody` | the robot's constants, `COM`, `head_position` |
| `ray.dfy` | `Rays` | `slam/ray.py` |
| `map.dfy` | `EventMap` | `slam/map.py` |
| `agent.dfy` | `Agents` | `slam/agent.py` |
| `planner.dfy` | `Planner` | `slam/planner.py` |

## Model

| member | source | states |
|---|---|---|
| Geometry.DistanceSymmetric | slam/geometry.py:11-12 | `distance(p, q) == distance(q, p)` |
| Geometry.DistanceSquares | slam/geometry.py:11-12 | the distance is non-negative and its square is the sum of the squared coordinate differences |
| Geometry.DistanceToSelf | slam/geometry.py:11-12 | a point is at distance 0 from itself |
| Geometry.Distance | slam/geometry.py:11-12 | the square root of the summed squared coordinate differences; characterised by DistanceSquares, DistanceSymmetric and DistanceToSelf |
| Geometry.FromPoints | slam/geometry.py:33-56 | the line built always has an intercept unless its slope is the vertical sentinel; it has no intercept exactly when the two x's agree, so coincident points give a vertical line |
| Geometry.FromPointsLine | slam/geometry.py:38-56 | the line passes through both points; equal x's give slope 1e4 anchored at `(p1.x, 0)`; otherwise equal y's give slope 0 and intercept `p1.y`; otherwise slope times run equals rise |
| Geometry.Intersection | slam/geometry.py:58-82 | None exactly when the slopes are equal, so the both-vertical branch is never reached; with one vertical line the point has that line's anchor x and lies on the other line; when neither line is ambiguous the point lies on both |
| Geometry.SteepLineHasSentinelSlope | slam/geometry.py:51-56 | two points rising exactly 1e4 per unit of run give a line with the vertical sentinel slope that still has an intercept |
| Geometry.SteepLineTreatedAsVertical | slam/geometry.py:65-71 | such a genuine line of slope 1e4 is handled as vertical: `intersection` returns a point that is not on it |
| GridMap.DefaultGridPoint | slam/_map.py:32-37 | a cell with the default value 0.1 and threshold 1.5 has confidence 0 |
| GridMap.Confidence | slam/_map.py:39-50 | the confidence is -1, 0 or 1 |
| GridMap.ConfidenceCases | slam/_map.py:45-50 | confidence -1 iff value < 0; 0 iff 0 <= value < threshold; 1 iff value >= threshold |
| GridMap.ConfidenceMonotone | slam/_map.py:45-50 | with the threshold fixed, a larger value never has a lower confidence |
| Draws.Uniform | slam/environment.py:62-67 | a draw of `uniform(lo, hi)` lies in `[lo, hi)`, is `lo` when the bounds agree, and lies in `(hi, lo]` when they are reversed |
| Draws.Choice | slam/planner.py:80 | the chosen index is a valid index of the list |
| Behavior.StepsFor | slam/behavior.py:24-71 | a routine has no step limit exactly when it is Explore (Backtrack has 3, SpinScan 20) |
| Behavior.IsCompleted | slam/behavior.py:14-18 | false with no step limit, otherwise true exactly when the count equals the limit; used by ExploreNeverCompletes, RunBacktrack and RunSpinScan |
| Behavior.ExploreCommands | slam/behavior.py:27-45 | Explore's command for each touching case; its ranges and speeds are proved by ExploreRanges |
| Behavior.ExploreRanges | slam/behavior.py:31-45 | default steer in [-10, 10); left-only touch in [0, 25); right-only in [-25, 0); any other touch in [-25, 25) at speed `speed * touching_distance / collision_distance`; the speed is the agent's own exactly in the other cases (or when the distance equals the collision distance) |
| Behavior.BacktrackCommand | slam/behavior.py:57-62 | before the last step the command is `(-speed, 0)`; from then on it is speed 0 with a steer in [120, 240) |
| Behavior.SpinCommand | slam/behavior.py:77 | speed 0 and a steer that makes a full 360 over the 20 steps |
| Behavior.BehavioralRoutine.constructor | slam/behavior.py:9-11 | a fresh routine has made no calls, has the step limit of its kind and is not completed |
| Behavior.BehavioralRoutine.GetCommands | slam/behavior.py:27-77 | Explore returns its case command and leaves the count alone; Backtrack and SpinScan return their command and count exactly one more call |
| Behavior.ExploreNeverCompletes | slam/behavior.py:14-18 | with no step limit `completed` is false for every count |
| Behavior.RunBacktrack | slam/behavior.py:48-64 | three calls on a fresh Backtrack give `(-speed, 0)` twice then a stop with a turn in [120, 240), and it is completed after the third call and not before |
| Behavior.RunSpinScan | slam/behavior.py:67-77 | twenty calls on a fresh SpinScan never move, turn 360 in total, and it is completed exactly after the last |
| Obstacles.BuiltObstacle | slam/obstacle.py:13-53 | the obstacle keeps its parameters; its corners are the pivot plus the offsets (0,0), (0,h), (w,h), (w,0) rotated by the angle; `points` maps A, B, C, D to them; `lines` holds AB, BC, CD, DA, each the line through its two corners |
| Obstacles.MakeObstacle | slam/obstacle.py:13-61 | the obstacle the constructor builds; characterised by BuiltObstacle, PivotAndCentre, AxisAlignedCorners and SizeIsDiagonal |
| Obstacles.PivotAndCentre | slam/obstacle.py:30-58 | corner A is the pivot and the centre is the midpoint of A and C |
| Obstacles.AxisAlignedCorners | slam/obstacle.py:32-40 | at angle 0 the corners are B = xy+(0,h), C = xy+(w,h), D = xy+(w,0) |
| Obstacles.SizeIsDiagonal | slam/obstacle.py:34-61 | the size is `sqrt(w² + h²)` whatever the angle |
| Obstacles.EdgesThroughCorners | slam/obstacle.py:48-53 | each edge line passes through both corners it is named after |
| Obstacles.EdgesCloseThePolygon | slam/obstacle.py:48-53 | the edges start at A, B, C, D and each ends where the next begins, closing the polygon |
| Obstacles.TermsOfCorners | slam/obstacle.py:72-96 | for a built obstacle each of the four shoelace sums `Shoelace(...)`, which `contains` halves into its triangle terms, equals `-(w*h)*(cos²+sin²)`, so under the laws each triangle term is `-w*h/2`; the inner sum of the area term is twice `-(w*h)*(cos²+sin²)` |
| Obstacles.Contains | slam/obstacle.py:66-97 | `contains` as written; characterised by ContainsIgnoresPoint |
| Obstacles.ContainsPoint | slam/obstacle.py:66-70 | the corrected point-in-rectangle test; characterised by ContainsPointIsRectangle, ContainsPointCorners and ContainsPointAxisAligned |
| Obstacles.ContainsIgnoresPoint | slam/obstacle.py:66-97 | `contains` gives the same answer for every point, and it is true exactly when `w * h == 0` |
| Obstacles.ContainsPointIsRectangle | slam/obstacle.py:66-70 | the corrected test accepts the pivot plus an offset `(s, t)` rotated by the angle exactly when `0 <= s <= w` and `0 <= t <= h`, and every point has that form |
| Obstacles.ContainsPointCorners | slam/obstacle.py:66-70 | the corrected test accepts the four corners and the centre of a built obstacle with non-negative sides |
| Obstacles.ContainsPointAxisAligned | slam/obstacle.py:66-70 | at angle 0 the corrected test is the axis-aligned box test |
| Environments.NatToString | slam/environment.py:68 | the name's number is a non-empty string of decimal digits with no leading zero unless it is `0`; its value is proved by NatToStringValue |
| Environments.NatToStringValue | slam/environment.py:68 | the decimal digits printed for `n` spell `n` |
| Environments.ObstacleNamesDistinct | slam/environment.py:58-68 | different indices print differently, so the names `Obj n` of the random obstacles are pairwise distinct |
| Environments.RandomObstacles | slam/environment.py:58-70 | one obstacle per draw, the `n`-th built from the `n`-th draw |
| Environments.RandomObstacleRanges | slam/environment.py:58-70 | each random obstacle has x in [10, W-10), y in [10, H-10), angle in [0, 360), sides in [5, 20), and is named `Obj n` after its index |
| Environments.Walls | slam/environment.py:20-53 | four walls, each built from its placement |
| Environments.WallsShape | slam/environment.py:20-53 | the walls are south, east, north, west, all at angle 0, south and north `W x 4`, east and west `4 x (H + 8)` |
| Environments.WallsFrameArena | slam/environment.py:20-53 | the walls' inner edges lie on y = 0, x = W, y = H and x = 0 |
| Environments.BuildObstacles | slam/environment.py:58-70 | the loop of `add_obtacles` builds exactly the random obstacles of the draws, in order |
| Environments.Environment.constructor | slam/environment.py:11-54 | the obstacles are the random ones followed by the four walls, `n_obstacles + 4` in all, each usable by the ray scan |
| Environments.Environment.Wall | slam/environment.py:109-114 | exactly six obstacles: wall-1, wall-2, then the four walls of a 100 x 100 arena |
| Environments.Environment.AddObstacles | slam/environment.py:56-70 | the previous list is discarded and replaced by the random obstacles of the draws; nothing else changes |
| Rays.SightGeometry | slam/ray.py:29-45 | the ray's angle is the heading plus its offset, `p0` is the head position, and `p1` is `p0` plus `length` along the angle, exactly `length` away |
| Rays.EdgeHit | slam/ray.py:69-114 | one edge against the ray; characterised by EdgeHitKept and CornerHitsRejected |
| Rays.EdgeHitKept | slam/ray.py:69-114 | an edge yields a hit exactly when its intersection exists and it is within the length, strictly inside the edge and in front of the origin (dot product >= 0) |
| Rays.CornerHitsRejected | slam/ray.py:83-92 | on a vertical or horizontal edge a hit exactly at a corner's y (resp. x) is rejected |
| Rays.EdgeHits | slam/ray.py:68-114 | at most one hit per edge, all belonging to the obstacle |
| Rays.EdgeHitsSound | slam/ray.py:69-114 | every kept hit comes from an edge and passes every test, and every edge that yields a hit contributes it |
| Rays.ArgMin | slam/ray.py:117 | the index of the first smallest distance |
| Rays.NearestPerObstacle | slam/ray.py:116-120 | at most one entry per obstacle; characterised by NearestAreHits, NearestBound and NearestEmpty |
| Rays.ScanResult | slam/ray.py:123-136 | the contact a scan records; characterised by ScanResultNone and ScanResultNearest |
| Rays.NearestAreHits | slam/ray.py:116-120 | each per-obstacle nearest hit is a kept hit of some obstacle |
| Rays.NearestBound | slam/ray.py:116-120 | every kept hit is at least as far as some per-obstacle nearest hit |
| Rays.NearestEmpty | slam/ray.py:116-123 | no per-obstacle nearest hits exactly when no obstacle has a kept hit |
| Rays.ScanResultNone | slam/ray.py:116-136 | the contact is None exactly when no edge of any obstacle yields a kept hit |
| Rays.ScanResultNearest | slam/ray.py:116-134 | the contact is a kept hit at the least distance of all kept hits; among hits at that distance it is the one the two `np.argmin` calls pick: from the first obstacle in list order that has one, and within it the first in edge order, and `contact.obstacle` is that obstacle; its distance is `distance(p0, point)` and its position is `rotate(point - p0, -heading)` |
| Rays.NearestFirst | slam/ray.py:116-125 | the nearest of the per-obstacle nearest hits is the first kept hit at its distance in obstacle order and then in edge order: every kept hit before it in that order is strictly farther |
| Rays.LastFirstNearest | slam/ray.py:116-125 | when the last obstacle's nearest hit is strictly nearer than every earlier obstacle's, it is the tie-break winner |
| Rays.HitDistance | slam/ray.py:76-78 | a kept hit's distance is measured from `p0` and is at most the length |
| Rays.ObstacleHits | slam/ray.py:68-114 | the inner loop keeps exactly the obstacle's edge hits, in edge order |
| Rays.ScanFrom | slam/ray.py:57-136 | the loops of `scan` compute exactly the scan result |
| Rays.Ray.constructor | slam/ray.py:19-27 | the ray keeps its offset and length and has no contact yet |
| Rays.Ray.Scan | slam/ray.py:53-136 | the contact becomes the scan result for the ray's sight from the robot's pose |
| EventMap.Reconstructed | slam/map.py:27-31 | one point per event, in order, each the position rotated by the heading plus the head position |
| EventMap.Reconstruct | slam/map.py:28-31 | one event back in world coordinates; characterised by ReconstructScanContact |
| EventMap.ReconstructScanContact | slam/map.py:27-31 | round trip: for a contact a scan produced at the same pose, the reconstructed point is the contact's world point |
| EventMap.Map.constructor | slam/map.py:12-16 | both lists start empty |
| EventMap.Map.Add | slam/map.py:18-31 | the ground truth grows by exactly the events and the events by their reconstructed points, in order, earlier entries unchanged, so with no events nothing changes and equal lengths stay equal |
| AgentBody.HeadPosition | slam/agent.py:69-72 | the head is the centre plus `(height/2, 0)` rotated by the heading |
| AgentBody.HeadDistance | slam/agent.py:69-72 | the head is exactly half a body length from the centre, straight ahead at angle 0 |
| AgentBody.Advance | slam/agent.py:99-100 | the heading is kept and the centre moves by `speed` along it |
| AgentBody.AdvanceDistance | slam/agent.py:99-100 | the centre moves exactly `speed` |
| Agents.TouchingFlags | slam/agent.py:80-84 | one flag per ray, set exactly when the ray has a contact closer than the collision distance |
| Agents.TouchingDistance | slam/agent.py:79-87 | the touching distance; characterised by TouchingDistanceIsMinimum |
| Agents.TouchingDistanceIsMinimum | slam/agent.py:79-87 | the touching distance is at most twice the collision distance and each touching contact's distance, equals one of them, and is below the collision distance whenever a ray touches |
| Agents.SteeringDelta | slam/agent.py:89-97 | the turn of each steering case; characterised by SteeringCases |
| Agents.MoveSpeed | slam/agent.py:90-97 | the speed of each steering case; characterised by SteeringCases and TouchSlowsDown |
| Agents.SteeringCases | slam/agent.py:90-97 | only the first ray touching turns by [0, 45), only the last by [-45, 0), any other touch by [-45, 45) at the scaled speed, no touch keeps the heading and speed |
| Agents.Steer | slam/agent.py:90-97 | the branch of `move` computes the steering case's turn and speed |
| Agents.TouchSlowsDown | slam/agent.py:95-97 | when the scaled speed applies it is below the agent's own speed |
| Agents.MovedPose | slam/agent.py:89-100 | the new heading is the old plus the steering case's turn |
| Agents.MovedPoseStep | slam/agent.py:99-100 | the centre moves along the new heading by the move speed, ending exactly that far away |
| Agents.ContactsOf | slam/agent.py:113-119 | no more contacts than readings |
| Agents.ContactsOfMembers | slam/agent.py:113-119 | the contacts handed to the map are exactly the rays' non-None contacts |
| Agents.ContactsOfAppend | slam/agent.py:113-119 | taking contacts distributes over concatenation, so the contacts keep the rays' order |
| Agents.ContactsOfSingle | slam/agent.py:113-119 | a reading with a contact contributes exactly it, one without contributes nothing |
| Agents.ReadingsOf | slam/agent.py:114-118 | the readings are the rays' contacts, in ray order |
| Agents.UpdateRoundTrip | slam/agent.py:104-119 | every event the map reconstructs during `update` is exactly the contact's world point |
| Agents.SetStopsAtFirstUnknown | slam/agent.py:58-63 | `set` fails at the first unknown key, after applying every pair before it, and with known keys only applies all of them |
| Agents.SetPose | slam/agent.py:58-63 | the pose after `set` and the key it stopped at; characterised by SetStopsAtFirstUnknown and AssignAllFields |
| Agents.AssignAllFields | slam/agent.py:58-61 | with distinct keys (a keyword dictionary), each pose attribute a key names ends with that key's value and every attribute no key names is unchanged, whatever the order of the pairs |
| Agents.Agent.constructor | slam/agent.py:24-45 | the robot at the given pose, trajectory `[x]`, `[y]`, an empty map, five fresh rays with offsets -40, -20, 0, 20, 40 and length 12, each scanned from the start pose |
| Agents.Agent.ScanAll | slam/agent.py:108-110 | every ray's contact is its scan from the current pose |
| Agents.Agent.Set | slam/agent.py:58-63 | for distinct keys, the pose and the error are those of `set` applied to the pairs in order; the agent stays valid and nothing else changes |
| Agents.Agent.Sense | slam/agent.py:78-87 | the first loop of `move` computes the touching flags and the touching distance |
| Agents.Agent.Move | slam/agent.py:74-102 | the pose becomes the moved pose for the current readings and draw; each trajectory list gains the new coordinate; the rays and map are unchanged |
| Agents.Agent.Update | slam/agent.py:104-119 | move, then every ray rescans from the new pose, then the map gains the non-None contacts and their reconstructions, in ray order |
| Planner.KeptPoints | slam/planner.py:45-47 | only cells with confidence >= 0 are kept |
| Planner.KeptPointsAppend | slam/planner.py:45-47 | keeping distributes over concatenation, so order is preserved |
| Planner.KeptPointsMembers | slam/planner.py:45-47 | a cell is kept exactly when it is in the grid with confidence >= 0 |
| Planner.AccessibleOf | slam/planner.py:21-28 | exactly the nodes flagged accessible |
| Planner.UncertainOf | slam/planner.py:30-37 | exactly the nodes flagged uncertain |
| Planner.ClosestIndex | slam/planner.py:86-89 | the index of the first coordinate at the least distance from the point |
| Planner.ClosestBySquares | slam/planner.py:86-89 | the same index is least, and first, in squared distance |
| Planner.Planner.Build | slam/planner.py:39-72 | node `n` carries the `n`-th kept cell's x, y and confidence and `node_n == n`, and is accessible iff its confidence is 1 and uncertain iff it is 0 |
| Planner.Planner.Accessible | slam/planner.py:21-28 | exactly the graph's accessible nodes |
| Planner.Planner.Uncertain | slam/planner.py:30-37 | exactly the graph's uncertain nodes |
| Planner.Planner.GetUncertainNode | slam/planner.py:74-80 | None exactly when no node is uncertain, otherwise an uncertain node of the graph |
| Planner.Planner.GetClosestNode | slam/planner.py:82-89 | for a non-empty graph, a node at the least distance, with no earlier node as close; None exactly for an empty graph, where the source raises an error |
| Planner.Planner.RouteStart | slam/planner.py:96-102 | the start node is a node nearest to the last trajectory point; None exactly for an empty graph, where the source raises an error |
| Planner.FlagsExclusive | slam/planner.py:69-72 | no node carries both flags or neither |

## Left out

- Drawing (every `draw` method, colours, `slam/plot_utils.py`), `Agent.status`, loguru logging, `setup.py` and the scripts are not modelled. They only plot, print or drive simulations.
- Floating-point rounding: all arithmetic is exact over the reals. The float equality in `contains` is read over the reals.
- The `kino` library and numpy maths (`cos`, `sin`, `sqrt`, `Vector.angle`) are not part of this model. They are the `Maths` parameter, and its laws are a hypothesis of the lemmas that need them. The angled-edge test of `Ray.scan` relies on `Vector.angle`, so it is stated but nothing about its wrap-around is proved.
- Randomness is passed in as draws. The draw sequence of a run is not modelled.
- The planner's graph edges (libpysal `DistanceBand`) and `shortest_path` (networkx) are calls into libraries that are not part of this model. The planner stores only its nodes, and `RouteStart` models only the choice of the start node.
- `RouteStart` takes the trajectory as input: `map.agent_trajectory` does not exist in the source's `Map`. The planner also has no `__init__` in the source; here it starts with an empty graph.
- `Gaussian.draw`, `Environment.out_of_bounds`, `is_point_in_obstacle`, `Agent.slam` and `agent.planner` are not part of this model.
- `Contact.ray`, the back-reference to the ray, is omitted. A ray's contact starts as None, whereas the source leaves it unset until the first scan, which `__init__` performs anyway.
- Agents.Agent.Set: requires that no key names one of the agent's object attributes (`environment`, `map`, `trajectory`, `rays`). The source would assign them, and the model's fields cannot hold a number.
- Agents.MovedPose: its contract states only the new heading. Where the centre goes is stated by `Agents.MovedPoseStep`.
- "Distance zero implies the same point" is not proved; only distance to self is zero.
- Planner.Planner.GetClosestNode: returns None for an empty graph. The source raises ValueError there: `np.argmin` of an empty array. None stands for that exception.
- Planner.Planner.RouteStart: returns None for an empty graph, where the source's `plan_route` raises ValueError.
- Default arguments are not modelled; every parameter is given explicitly. These are `Environment(width=60, heigh=60, n_obstacles=10)` and `Agent(x=0, y=0, angle=0)`.

## Findings

| source | as written | input that shows it | evidently intended | confidence | as-written member | corrected member |
|---|---|---|---|---|---|---|
| slam/obstacle.py:66-97 | the four "triangle" terms use corners A to D only and never the point, so `contains` answers the same for every point and, for positive width and height, always says no | an obstacle at `(0, 0)`, angle 0, width 1, height 1: its centre `(0.5, 0.5)` is reported as not contained | true exactly for the points of the rectangle | high (algebraic); not executed | Obstacles.ContainsIgnoresPoint | Obstacles.ContainsPointIsRectangle |
