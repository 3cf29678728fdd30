/** `slam/environment.py`: the arena `[0, W] x [0, H]`, its randomly placed
    obstacles and the four walls around it. */
module Environments {
  import opened Kino
  import opened Draws
  import opened Obstacles

  /** The thickness of a boundary wall. */
  const WallThickness: real := 4.0

  /** The five draws that place one random obstacle. */
  datatype ObstacleDraw = ObstacleDraw(ux: real, uy: real, uAngle: real, uWidth: real, uHeight: real)

  predicate ValidDraw(d: ObstacleDraw)
  {
    IsDraw(d.ux) && IsDraw(d.uy) && IsDraw(d.uAngle) && IsDraw(d.uWidth) && IsDraw(d.uHeight)
  }

  predicate ValidDraws(draws: seq<ObstacleDraw>)
  {
    forall i :: 0 <= i < |draws| ==> ValidDraw(draws[i])
  }

  /** How many times `range(n)` runs. */
  function RangeLength(n: int): nat
  {
    if n < 0 then 0 else n
  }

  /** The decimal digits of `n`, as an f-string prints it: no leading zero
      except for `0` itself. */
  function NatToString(n: nat): (s: string)
    ensures |s| > 0
    ensures forall i :: 0 <= i < |s| ==> '0' <= s[i] <= '9'
    ensures |s| > 1 ==> s[0] != '0'
  {
    if n < 10 then ["0123456789"[n]]
    else NatToString(n / 10) + ["0123456789"[n % 10]]
  }

  /** The number a string of decimal digits spells, most significant first. */
  function DigitsValue(s: string): int
  {
    if |s| == 0 then 0
    else 10 * DigitsValue(s[..|s| - 1]) + (s[|s| - 1] as int - '0' as int)
  }

  /** The digits of `n` spell `n`. */
  lemma {:induction false} NatToStringValue(n: nat)
    ensures DigitsValue(NatToString(n)) == n
    decreases n
  {
    var s := NatToString(n);
    if n >= 10 {
      assert s[..|s| - 1] == NatToString(n / 10);
      NatToStringValue(n / 10);
    }
  }

  /** Different numbers print differently, so the random obstacles' names
      `Obj 0`, `Obj 1`, ... are pairwise distinct. */
  lemma ObstacleNamesDistinct(a: nat, b: nat)
    ensures NatToString(a) == NatToString(b) ==> a == b
    ensures ObstacleName(a) == ObstacleName(b) ==> a == b
  {
    NatToStringValue(a);
    NatToStringValue(b);
    assert ObstacleName(a)[4..] == NatToString(a);
    assert ObstacleName(b)[4..] == NatToString(b);
  }

  /** The name of the `n`-th random obstacle. */
  function ObstacleName(n: nat): string
  {
    "Obj " + NatToString(n)
  }

  /** The `n`-th obstacle of `add_obtacles` in an arena `width` by `height`. */
  function RandomObstacle(m: Maths, width: int, height: int, n: nat, d: ObstacleDraw): Obstacle
    requires ValidDraw(d)
  {
    MakeObstacle(
      m,
      Point(Uniform(10.0, width as real - 10.0, d.ux), Uniform(10.0, height as real - 10.0, d.uy)),
      Uniform(0.0, 360.0, d.uAngle),
      Uniform(5.0, 20.0, d.uWidth),
      Uniform(5.0, 20.0, d.uHeight),
      ObstacleName(n))
  }

  /** The obstacles `add_obtacles` builds from the draws, in index order. */
  function RandomObstacles(m: Maths, width: int, height: int, draws: seq<ObstacleDraw>): (os: seq<Obstacle>)
    requires ValidDraws(draws)
    ensures |os| == |draws|
    ensures forall i :: 0 <= i < |draws| ==> os[i] == RandomObstacle(m, width, height, i, draws[i])
  {
    if |draws| == 0 then []
    else
      var init := RandomObstacles(m, width, height, draws[..|draws| - 1]);
      init + [RandomObstacle(m, width, height, |draws| - 1, draws[|draws| - 1])]
  }

  /** Each random obstacle lies in the ranges its draws allow and is named
      after its index: pivot x in `[10, W-10)` and y in `[10, H-10)` (for an
      arena wider and taller than 20), angle in `[0, 360)`, sides in `[5, 20)`. */
  lemma RandomObstacleRanges(m: Maths, width: int, height: int, draws: seq<ObstacleDraw>, i: nat)
    requires ValidDraws(draws) && i < |draws|
    ensures var o := RandomObstacles(m, width, height, draws)[i];
            && (width > 20 ==> 10.0 <= o.xy.x < width as real - 10.0)
            && (height > 20 ==> 10.0 <= o.xy.y < height as real - 10.0)
            && 0.0 <= o.angle < 360.0
            && 5.0 <= o.width < 20.0 && 5.0 <= o.height < 20.0
            && o.name == "Obj " + NatToString(i)
  {
  }

  /** Where an obstacle goes and what it is called: the arguments of
      `Obstacle(xy, angle, width, height, name)`. */
  datatype Placement = Placement(xy: Point, angle: real, width: real, height: real, name: string)

  function Build(m: Maths, p: Placement): Obstacle
  {
    MakeObstacle(m, p.xy, p.angle, p.width, p.height, p.name)
  }

  /** The four walls of a `width` by `height` arena, in the source's order:
      south, east, north, west. */
  function WallPlacements(width: int, height: int): seq<Placement>
  {
    var w, h := width as real, height as real;
    [ Placement(Point(0.0, -WallThickness), 0.0, w, WallThickness, "south"),
      Placement(Point(w, -WallThickness), 0.0, WallThickness, h + 2.0 * WallThickness, "east"),
      Placement(Point(0.0, h), 0.0, w, WallThickness, "north"),
      Placement(Point(-WallThickness, -WallThickness), 0.0, WallThickness, h + 2.0 * WallThickness, "west") ]
  }

  /** The walls the constructor builds. */
  function Walls(m: Maths, width: int, height: int): (ws: seq<Obstacle>)
    ensures |ws| == 4
    ensures forall i :: 0 <= i < 4 ==> ws[i] == Build(m, WallPlacements(width, height)[i])
  {
    seq(4, i requires 0 <= i < 4 => Build(m, WallPlacements(width, height)[i]))
  }

  /** The walls in order south, east, north, west, all axis-aligned: the
      south and north walls are `W x 4`, the east and west walls `4 x (H + 8)`. */
  lemma {:induction false} WallsShape(m: Maths, width: int, height: int)
    ensures var ws := Walls(m, width, height);
            var w, h := width as real, height as real;
            && ws[0].name == "south" && ws[1].name == "east" && ws[2].name == "north" && ws[3].name == "west"
            && (forall i :: 0 <= i < 4 ==> ws[i].angle == 0.0)
            && ws[0].width == w && ws[0].height == 4.0 && ws[2].width == w && ws[2].height == 4.0
            && ws[1].width == 4.0 && ws[1].height == h + 8.0 && ws[3].width == 4.0 && ws[3].height == h + 8.0
  {
    var ws, pl := Walls(m, width, height), WallPlacements(width, height);
    forall i | 0 <= i < 4
      ensures ws[i].xy == pl[i].xy && ws[i].angle == pl[i].angle && ws[i].width == pl[i].width
      ensures ws[i].height == pl[i].height && ws[i].name == pl[i].name
    {
      BuiltObstacle(m, pl[i].xy, pl[i].angle, pl[i].width, pl[i].height, pl[i].name);
    }
  }

  /** The walls' inner edges lie on `y = 0` (south), `x = W` (east), `y = H`
      (north) and `x = 0` (west), so they frame `[0, W] x [0, H]`. */
  lemma {:induction false} WallsFrameArena(m: Maths, width: int, height: int)
    requires Lawful(m)
    ensures var ws := Walls(m, width, height);
            var w, h := width as real, height as real;
            && ws[0].b.y == 0.0 && ws[0].c.y == 0.0
            && ws[1].a.x == w && ws[1].b.x == w
            && ws[2].a.y == h && ws[2].d.y == h
            && ws[3].c.x == 0.0 && ws[3].d.x == 0.0
  {
    var ws, pl := Walls(m, width, height), WallPlacements(width, height);
    WallCorners(m, pl[0]);
    WallCorners(m, pl[1]);
    WallCorners(m, pl[2]);
    WallCorners(m, pl[3]);
  }

  /** The corners of an axis-aligned placement: A at the pivot, B above it,
      C diagonally opposite, D to its right. */
  lemma WallCorners(m: Maths, pl: Placement)
    requires Lawful(m) && pl.angle == 0.0
    ensures var o := Build(m, pl);
            && o.a == pl.xy
            && o.b == Point(pl.xy.x, pl.xy.y + pl.height)
            && o.c == Point(pl.xy.x + pl.width, pl.xy.y + pl.height)
            && o.d == Point(pl.xy.x + pl.width, pl.xy.y)
  {
    PivotAndCentre(m, pl.xy, 0.0, pl.width, pl.height, pl.name);
    AxisAlignedCorners(m, pl.xy, pl.width, pl.height, pl.name);
  }

  /** Every random obstacle can be scanned. */
  lemma RandomObstaclesEdged(m: Maths, width: int, height: int, draws: seq<ObstacleDraw>)
    requires ValidDraws(draws)
    ensures AllEdged(RandomObstacles(m, width, height, draws))
  {
    var os := RandomObstacles(m, width, height, draws);
    forall i | 0 <= i < |os|
      ensures Edged(os[i])
    {
      var d := draws[i];
      BuiltObstacle(m, Point(Uniform(10.0, width as real - 10.0, d.ux), Uniform(10.0, height as real - 10.0, d.uy)),
        Uniform(0.0, 360.0, d.uAngle), Uniform(5.0, 20.0, d.uWidth), Uniform(5.0, 20.0, d.uHeight), ObstacleName(i));
    }
  }

  /** Every wall can be scanned. */
  lemma WallsEdged(m: Maths, width: int, height: int)
    ensures AllEdged(Walls(m, width, height))
  {
    var ws, pl := Walls(m, width, height), WallPlacements(width, height);
    forall i | 0 <= i < 4
      ensures Edged(ws[i])
    {
      BuiltObstacle(m, pl[i].xy, pl[i].angle, pl[i].width, pl[i].height, pl[i].name);
    }
  }

  /** The two inner walls of the `Wall` arena can be scanned. */
  lemma InnerWallsEdged(m: Maths)
    ensures AllEdged([MakeObstacle(m, Point(20.0, 50.0), 0.0, 60.0, 5.0, "wall-1"),
                      MakeObstacle(m, Point(52.0, 55.0), 90.0, 45.0, 4.0, "wall-2")])
  {
    BuiltObstacle(m, Point(20.0, 50.0), 0.0, 60.0, 5.0, "wall-1");
    BuiltObstacle(m, Point(52.0, 55.0), 90.0, 45.0, 4.0, "wall-2");
  }

  /** Two edged lists make an edged list. */
  lemma AllEdgedAppend(xs: seq<Obstacle>, ys: seq<Obstacle>)
    requires AllEdged(xs) && AllEdged(ys)
    ensures AllEdged(xs + ys)
  {
    assert forall i :: 0 <= i < |xs + ys| ==> (xs + ys)[i] == if i < |xs| then xs[i] else ys[i - |xs|];
  }

  /** The loop of `add_obtacles`: one random obstacle per draw, in order. */
  method BuildObstacles(m: Maths, width: int, height: int, nObstacles: int, draws: seq<ObstacleDraw>)
    returns (built: seq<Obstacle>)
    requires |draws| == RangeLength(nObstacles) && ValidDraws(draws)
    ensures built == RandomObstacles(m, width, height, draws)
  {
    built := [];
    var n := 0;
    while n < RangeLength(nObstacles)
      invariant 0 <= n <= |draws|
      invariant built == RandomObstacles(m, width, height, draws[..n])
    {
      assert draws[..n + 1][..n] == draws[..n];
      built := built + [RandomObstacle(m, width, height, n, draws[n])];
      n := n + 1;
    }
    assert draws[..n] == draws;
  }

  /** The simulated arena. */
  class Environment {
    var width: int
    var height: int
    var obstacles: seq<Obstacle>
    var walls: seq<Obstacle>

    /** Every obstacle can be scanned. */
    ghost predicate Valid()
      reads this
    {
      AllEdged(obstacles)
    }

    /** `Environment.__init__`: `nObstacles` random obstacles (one draw each),
        then the four walls appended after them. */
    constructor (m: Maths, width: int, height: int, nObstacles: int, draws: seq<ObstacleDraw>)
      requires |draws| == RangeLength(nObstacles) && ValidDraws(draws)
      ensures this.width == width && this.height == height
      ensures walls == Walls(m, width, height)
      ensures obstacles == RandomObstacles(m, width, height, draws) + walls
      ensures |obstacles| == RangeLength(nObstacles) + 4
      ensures Valid()
    {
      this.width := width;
      this.height := height;
      obstacles := [];
      walls := [];
      new;
      AddObstacles(m, nObstacles, draws);
      walls := Walls(m, width, height);
      RandomObstaclesEdged(m, width, height, draws);
      WallsEdged(m, width, height);
      AllEdgedAppend(obstacles, walls);
      obstacles := obstacles + walls;
    }

    /** The `Wall` arena: a 100 x 100 arena built with one random obstacle,
        whose list is then replaced by `wall-1`, `wall-2` and the four walls. */
    constructor Wall(m: Maths, draw: ObstacleDraw)
      requires ValidDraw(draw)
      ensures width == 100 && height == 100
      ensures walls == Walls(m, 100, 100)
      ensures obstacles == [MakeObstacle(m, Point(20.0, 50.0), 0.0, 60.0, 5.0, "wall-1"),
                            MakeObstacle(m, Point(52.0, 55.0), 90.0, 45.0, 4.0, "wall-2")] + walls
      ensures |obstacles| == 6
      ensures Valid()
    {
      width := 100;
      height := 100;
      obstacles := [];
      walls := [];
      new;
      AddObstacles(m, 1, [draw]);
      walls := Walls(m, width, height);
      obstacles := obstacles + walls;
      var pair := [MakeObstacle(m, Point(20.0, 50.0), 0.0, 60.0, 5.0, "wall-1"),
                   MakeObstacle(m, Point(52.0, 55.0), 90.0, 45.0, 4.0, "wall-2")];
      InnerWallsEdged(m);
      WallsEdged(m, width, height);
      AllEdgedAppend(pair, walls);
      obstacles := pair + walls;
    }

    /** `add_obtacles`: throws away the current list and builds `nObstacles`
        random obstacles, one per draw, named in index order. */
    method AddObstacles(m: Maths, nObstacles: int, draws: seq<ObstacleDraw>)
      requires |draws| == RangeLength(nObstacles) && ValidDraws(draws)
      modifies this
      ensures obstacles == RandomObstacles(m, width, height, draws)
      ensures width == old(width) && height == old(height) && walls == old(walls)
      ensures Valid()
    {
      obstacles := BuildObstacles(m, width, height, nObstacles, draws);
      RandomObstaclesEdged(m, width, height, draws);
    }
  }
}
