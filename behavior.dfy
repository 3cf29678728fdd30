/** `slam/behavior.py`: the behavioural routines that turn ray readings into
    a `(speed, steer angle)` command, and the step counter that says when a
    routine has run its course. */
module Behavior {
  import opened Wrappers
  import opened Draws
  import opened AgentBody

  /** A motor command: forward speed and steering angle in degrees. */
  datatype Command = Command(speed: real, steer: real)

  /** The three routines of the source. */
  datatype Routine = Explore | Backtrack | SpinScan

  /** How many calls a routine lasts: Explore never ends. */
  function StepsFor(kind: Routine): (n: Option<int>)
    ensures n.None? <==> kind == Explore
  {
    match kind
    case Explore => None
    case Backtrack => Some(BacktrackSteps)
    case SpinScan => Some(SpinScanSteps)
  }

  const BacktrackSteps: int := 3
  const SpinScanSteps: int := 20

  /** The `completed` property: never for an unbounded routine, otherwise
      exactly when the count equals the length (so overshooting makes it false
      again). */
  predicate IsCompleted(nSteps: Option<int>, stepsCount: int)
  {
    match nSteps
    case None => false
    case Some(n) => stepsCount == n
  }

  /** The source's labels: it calls the first flag's ray (at -40 degrees)
      the left one and the last flag's ray (at +40 degrees) the right one,
      although with counter-clockwise angles the -40 degree ray points to the
      robot's right. The names follow the source's labels. */
  predicate LeftOnly(touching: seq<bool>)
    requires |touching| > 0
  {
    touching[0] && !touching[|touching| - 1]
  }

  predicate RightOnly(touching: seq<bool>)
    requires |touching| > 0
  {
    !touching[0] && touching[|touching| - 1]
  }

  /** `Explore.get_commands` for the draws `u1` (the default steer, always
      drawn) and `u2` (the steer of a touching case). */
  function ExploreCommands(touching: seq<bool>, touchingDistance: real, u1: real, u2: real): (c: Command)
    requires |touching| > 0 && IsDraw(u1) && IsDraw(u2)
  {
    var steer := Uniform(-10.0, 10.0, u1);
    if LeftOnly(touching) then Command(Speed, Uniform(0.0, 25.0, u2))
    else if RightOnly(touching) then Command(Speed, Uniform(-25.0, 0.0, u2))
    else if true in touching then
      Command(Speed * (touchingDistance / CollisionDistance), Uniform(-25.0, 25.0, u2))
    else Command(Speed, steer)
  }

  /** The steering range of each case of `Explore.get_commands`, and the speed:
      the agent's own except when something other than exactly one outer ray
      touches, where it is scaled by the touching distance. */
  lemma ExploreRanges(touching: seq<bool>, td: real, u1: real, u2: real)
    requires |touching| > 0 && IsDraw(u1) && IsDraw(u2)
    ensures var c := ExploreCommands(touching, td, u1, u2);
            && (LeftOnly(touching) ==> 0.0 <= c.steer < 25.0)
            && (RightOnly(touching) ==> -25.0 <= c.steer < 0.0)
            && (!LeftOnly(touching) && !RightOnly(touching) && true in touching ==>
                  -25.0 <= c.steer < 25.0 && c.speed == Speed * td / CollisionDistance)
            && (true !in touching ==> -10.0 <= c.steer < 10.0)
            && (c.speed == Speed <==>
                  LeftOnly(touching) || RightOnly(touching) || true !in touching || td == CollisionDistance)
  {
    if !LeftOnly(touching) && !RightOnly(touching) && true in touching {
      ScaledSpeed(td);
    }
  }

  lemma ScaledSpeed(td: real)
    ensures Speed * (td / CollisionDistance) == Speed * td / CollisionDistance
    ensures Speed * (td / CollisionDistance) == Speed <==> td == CollisionDistance
  {
  }

  /** `Backtrack.get_commands` at count `stepsCount`: reverse for all but the
      last step, then stop and turn by a draw in `[120, 240)`. */
  function BacktrackCommand(stepsCount: int, u: real): (c: Command)
    requires IsDraw(u)
    ensures stepsCount < BacktrackSteps - 1 ==> c == Command(-Speed, 0.0)
    ensures stepsCount >= BacktrackSteps - 1 ==> c.speed == 0.0 && 120.0 <= c.steer < 240.0
  {
    if stepsCount < BacktrackSteps - 1 then Command(-Speed, 0.0)
    else Command(0.0, Uniform(120.0, 240.0, u))
  }

  /** `SpinScan.get_commands`: stand still and turn by a twentieth of a turn. */
  function SpinCommand(): (c: Command)
    ensures c.speed == 0.0 && c.steer * (SpinScanSteps as real) == 360.0
  {
    Command(0.0, 360.0 / SpinScanSteps as real)
  }

  /** A routine instance: its kind, its length and the calls made so far. */
  class BehavioralRoutine {
    const kind: Routine
    const nSteps: Option<int>
    var stepsCount: int

    /** The length always matches the kind. */
    ghost predicate Valid()
      reads this
    {
      nSteps == StepsFor(kind) && 0 <= stepsCount
    }

    /** `completed`. */
    predicate Completed()
      reads this
    {
      IsCompleted(nSteps, stepsCount)
    }

    /** A fresh routine has made no calls and is not completed. */
    constructor (kind: Routine)
      ensures Valid() && this.kind == kind && stepsCount == 0 && !Completed()
    {
      this.kind := kind;
      nSteps := StepsFor(kind);
      stepsCount := 0;
    }

    /** `get_commands` of the routine's kind. Explore reads the flags and
        leaves the count alone; Backtrack and SpinScan count one more call. */
    method GetCommands(touching: seq<bool>, touchingDistance: real, u1: real, u2: real)
      returns (c: Command)
      requires Valid()
      requires kind == Explore ==> |touching| > 0
      requires IsDraw(u1) && IsDraw(u2)
      modifies this
      ensures Valid()
      ensures kind == Explore ==> c == ExploreCommands(touching, touchingDistance, u1, u2)
      ensures kind == Explore ==> stepsCount == old(stepsCount)
      ensures kind == Backtrack ==> c == BacktrackCommand(old(stepsCount), u1)
      ensures kind == SpinScan ==> c == SpinCommand()
      ensures kind != Explore ==> stepsCount == old(stepsCount) + 1
    {
      match kind
      case Explore =>
        c := ExploreCommands(touching, touchingDistance, u1, u2);
      case Backtrack =>
        c := BacktrackCommand(stepsCount, u1);
        stepsCount := stepsCount + 1;
      case SpinScan =>
        stepsCount := stepsCount + 1;
        c := SpinCommand();
    }
  }

  /** An Explore routine is never completed, however often it is asked. */
  lemma ExploreNeverCompletes(stepsCount: int)
    ensures !IsCompleted(StepsFor(Explore), stepsCount)
  {
  }

  /** Running a fresh Backtrack routine three times: two reverse steps, then a
      stop with a turn in `[120, 240)`; it is completed after the third call
      and not before. */
  method RunBacktrack(draws: seq<real>) returns (cmds: seq<Command>, completedAfter: seq<bool>)
    requires |draws| == BacktrackSteps
    requires forall i :: 0 <= i < |draws| ==> IsDraw(draws[i])
    ensures |cmds| == BacktrackSteps && |completedAfter| == BacktrackSteps
    ensures cmds[0] == cmds[1] == Command(-Speed, 0.0)
    ensures cmds[2].speed == 0.0 && 120.0 <= cmds[2].steer < 240.0
    ensures completedAfter == [false, false, true]
  {
    var r := new BehavioralRoutine(Backtrack);
    cmds, completedAfter := [], [];
    var i := 0;
    while i < BacktrackSteps
      invariant 0 <= i <= BacktrackSteps
      invariant r.Valid() && r.kind == Backtrack && r.stepsCount == i
      invariant |cmds| == i && |completedAfter| == i
      invariant forall k :: 0 <= k < i ==> cmds[k] == BacktrackCommand(k, draws[k])
      invariant forall k :: 0 <= k < i ==> completedAfter[k] == (k + 1 == BacktrackSteps)
    {
      var c := r.GetCommands([], 0.0, draws[i], 0.0);
      cmds := cmds + [c];
      completedAfter := completedAfter + [r.Completed()];
      i := i + 1;
    }
  }

  /** Running a fresh SpinScan routine twenty times: the robot never moves,
      turns a full 360 degrees in total, and is completed exactly at the end. */
  method RunSpinScan() returns (cmds: seq<Command>, totalTurn: real, completedAfter: seq<bool>)
    ensures |cmds| == SpinScanSteps && |completedAfter| == SpinScanSteps
    ensures forall k :: 0 <= k < |cmds| ==> cmds[k].speed == 0.0
    ensures totalTurn == 360.0
    ensures forall k :: 0 <= k < |completedAfter| ==> (completedAfter[k] <==> k == SpinScanSteps - 1)
  {
    var r := new BehavioralRoutine(SpinScan);
    cmds, totalTurn, completedAfter := [], 0.0, [];
    var i := 0;
    while i < SpinScanSteps
      invariant 0 <= i <= SpinScanSteps
      invariant r.Valid() && r.kind == SpinScan && r.stepsCount == i
      invariant |cmds| == i && |completedAfter| == i
      invariant forall k :: 0 <= k < i ==> cmds[k] == SpinCommand()
      invariant totalTurn == 18.0 * i as real
      invariant forall k :: 0 <= k < i ==> (completedAfter[k] <==> k == SpinScanSteps - 1)
    {
      var c := r.GetCommands([], 0.0, 0.0, 0.0);
      cmds := cmds + [c];
      totalTurn := totalTurn + c.steer;
      completedAfter := completedAfter + [r.Completed()];
      i := i + 1;
    }
  }
}
