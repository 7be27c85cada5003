/** The grid ray-caster (`World` in src/raycast.rs): a square map of wall
    and empty cells, the player's position, heading and field of view,
    collision-checked movement, and the march that measures the distance
    to the first wall along a ray. Coordinates and angles are reals; the
    cosine and sine are given functions (`Trig`) of which nothing is
    assumed. */
module Raycast {

  /** The trigonometric functions the movement uses. */
  datatype Trig = Trig(cos: real -> real, sin: real -> real)

  /** A decimal approximation of pi; no property below depends on its value. */
  const PI: real := 3.14159265358979323846
  const FRAC_PI_2: real := PI / 2.0
  const FRAC_PI_8: real := PI / 8.0

  /** The step of the wall march and the length of one player move. */
  const MARCH_STEP: real := 0.01
  const MOVE_STEP: real := 0.2

  /** The cell contents of the map. */
  const WALL: char := 'X'
  const EMPTY: char := ' '

  type Point = (real, real)

  /** `grid[i][j]` is the cell at row `i`, column `j`. */
  type Grid = seq<seq<char>>

  /** The map is square: as many columns in every row as there are rows. */
  predicate IsSquare(grid: Grid)
  {
    forall i :: 0 <= i < |grid| ==> |grid[i]| == |grid|
  }

  /** `v as usize` for a coordinate: truncation toward zero, with every
      negative value saturating to 0. */
  function ToUsize(v: real): (n: nat)
    ensures v >= 0.0 ==> n as real <= v < n as real + 1.0
    ensures v < 1.0 ==> n == 0
  {
    if v < 0.0 then 0 else v.Floor
  }

  /** The cell indices a point falls in. */
  function CellOf(p: Point): (nat, nat)
  {
    (ToUsize(p.0), ToUsize(p.1))
  }

  /** `is_wall`: a point is a wall when its cell lies outside the map or
      holds a wall. It is defined for every point, and both coordinates of
      a point that is not a wall lie below the map's size. Negative
      coordinates fall in cell 0, so they are not bounded from below. */
  function IsWall(grid: Grid, p: Point): (b: bool)
    requires IsSquare(grid)
    ensures CellOf(p).0 >= |grid| || CellOf(p).1 >= |grid| ==> b
    ensures CellOf(p).0 < |grid| && CellOf(p).1 < |grid| ==>
      (b <==> grid[CellOf(p).0][CellOf(p).1] == WALL)
    ensures !b ==> p.0 < |grid| as real && p.1 < |grid| as real
  {
    var cell := CellOf(p);
    cell.0 >= |grid| || cell.1 >= |grid| || grid[cell.0][cell.1] == WALL
  }

  /** The map of `World::default`: a 5 by 5 square whose border is wall
      and whose interior is empty. */
  function DefaultGrid(): (g: Grid)
    ensures |g| == 5 && IsSquare(g)
    ensures forall i, j :: 0 <= i < 5 && 0 <= j < 5 ==>
      (g[i][j] == WALL <==> i == 0 || i == 4 || j == 0 || j == 4)
    ensures forall i, j :: 0 <= i < 5 && 0 <= j < 5 ==> g[i][j] in {WALL, EMPTY}
  {
    seq(5, i => seq(5, j => if i == 0 || i == 4 || j == 0 || j == 4 then WALL else EMPTY))
  }

  /** `degs_to_rads`: degrees to radians, with a half turn at pi. */
  function DegsToRads(degs: nat): (rads: real)
    ensures degs == 180 ==> rads == PI
    ensures degs == 90 ==> rads == FRAC_PI_2
    ensures degs == 0 ==> rads == 0.0
    ensures rads >= 0.0
  {
    degs as real * (PI / 180.0)
  }

  /** Converting a sum of angles is the sum of the conversions. */
  lemma DegsToRadsAdditive(a: nat, b: nat)
    ensures DegsToRads(a + b) == DegsToRads(a) + DegsToRads(b)
  {
  }

  /** On the default map a point that is not a wall lies in the interior. */
  lemma DefaultNonWallIsInterior(p: Point)
    requires !IsWall(DefaultGrid(), p)
    ensures 1.0 <= p.0 < 4.0 && 1.0 <= p.1 < 4.0
  {
    var cell := CellOf(p);
    assert 1 <= cell.0 < 4 && 1 <= cell.1 < 4;
  }

  /** On a map whose row and column 0 are open, a point on the negative
      side of the map is not a wall: truncation puts it in cell 0. */
  lemma NegativeSideOpen()
    ensures IsSquare([[EMPTY, EMPTY], [EMPTY, EMPTY]])
    ensures !IsWall([[EMPTY, EMPTY], [EMPTY, EMPTY]], (-3.0, -3.0))
  {
  }

  /** `move_forward`: the point `distance` away from `pos` in `direction`.
      Moving by zero stays in place; moving along direction 0 (when the
      given cosine and sine are 1 and 0 there) changes only x. */
  function MoveForward(trig: Trig, pos: Point, direction: real, distance: real): (r: Point)
    ensures distance == 0.0 ==> r == pos
    ensures trig.cos(direction) == 1.0 && trig.sin(direction) == 0.0 ==>
      r == (pos.0 + distance, pos.1)
  {
    (pos.0 + trig.cos(direction) * distance, pos.1 + trig.sin(direction) * distance)
  }

  /** `move_forward_floored`: `move_forward` on a cell position, truncated
      back to cell indices. */
  function MoveForwardFloored(trig: Trig, pos: (nat, nat), direction: real, distance: real)
    : (r: (nat, nat))
    ensures distance == 0.0 ==> r == pos
    ensures trig.cos(direction) == 1.0 && trig.sin(direction) == 0.0 && distance >= 0.0 ==>
      r == (pos.0 + ToUsize(distance), pos.1)
  {
    var (x, y) := MoveForward(trig, (pos.0 as real, pos.1 as real), direction, distance);
    (ToUsize(x), ToUsize(y))
  }

  /** The values the library's own tests fix, for a cosine and sine that
      are exact at 0. */
  lemma MoveForwardFlooredExamples(trig: Trig)
    requires trig.cos(0.0) == 1.0 && trig.sin(0.0) == 0.0
    ensures MoveForwardFloored(trig, (0, 0), 0.0, 1.0) == (1, 0)
    ensures MoveForwardFloored(trig, (0, 0), 0.0, 2.0) == (2, 0)
    ensures MoveForwardFloored(trig, (10, 20), 0.0, 2.0) == (12, 20)
  {
  }

  /** `generate_ray_angles`: `n` angles spread over the field of view.
      With fewer than two rays the step divides by zero (or the count
      underflows), so two are required. */
  function RayAngles(n: nat, fov: real): (angles: seq<real>)
    requires n >= 2
    ensures |angles| == n
  {
    var lowerHalf := (fov / 2.0) * -1.0;
    var step := fov / (n - 1) as real;
    seq(n, i requires 0 <= i => step * i as real + lowerHalf)
  }

  /** The first ray is at `-fov/2` and the last at `+fov/2`. */
  lemma RayAnglesEndpoints(n: nat, fov: real)
    requires n >= 2
    ensures RayAngles(n, fov)[0] == -fov / 2.0
    ensures RayAngles(n, fov)[n - 1] == fov / 2.0
  {
  }

  /** The rays are evenly spaced: `i` steps of `fov / (n - 1)` separate
      ray `j` from ray `j + i`. */
  lemma RayAnglesSpacing(n: nat, fov: real)
    requires n >= 2
    ensures forall i, j :: 0 <= i <= j < n ==>
      RayAngles(n, fov)[j] - RayAngles(n, fov)[i] == (j - i) as real * (fov / (n - 1) as real)
  {
  }

  /** With a positive field of view the angles increase from left to right. */
  lemma RayAnglesIncreasing(n: nat, fov: real)
    requires n >= 2 && fov > 0.0
    ensures forall i, j :: 0 <= i < j < n ==> RayAngles(n, fov)[i] < RayAngles(n, fov)[j]
  {
  }

  /** The angles are symmetric about the heading. */
  lemma RayAnglesSymmetric(n: nat, fov: real)
    requires n >= 2
    ensures forall i :: 0 <= i < n ==> RayAngles(n, fov)[n - 1 - i] == -RayAngles(n, fov)[i]
  {
  }

  /** For an odd number of rays the middle one points straight ahead. */
  lemma RayAnglesMiddleZero(n: nat, fov: real)
    requires n >= 2 && n % 2 == 1
    ensures RayAngles(n, fov)[n / 2] == 0.0
  {
  }

  /** The relative directions of `move_player`. */
  datatype Heading = Forward | Backward | Right | Left

  /** The angle a relative direction adds to the player's heading. */
  function HeadingOffset(h: Heading): real
  {
    match h
    case Forward => 0.0
    case Backward => PI
    case Left => 0.0 - FRAC_PI_2
    case Right => FRAC_PI_2
  }

  class World {
    const grid: Grid
    const trig: Trig
    var pos: Point
    var heading: real
    var fov: real

    /** The world's invariant: the map is square and the player stands on
        a cell that is not a wall. */
    ghost predicate Valid()
      reads this
    {
      IsSquare(grid) && !IsWall(grid, pos)
    }

    /** `World::default`: the bordered 5 by 5 map, the player at (2, 2)
        looking along +x with a 70 degree field of view. */
    constructor Default(trig: Trig)
      ensures Valid()
      ensures grid == DefaultGrid() && this.trig == trig
      ensures pos == (2.0, 2.0) && heading == 0.0 && fov == DegsToRads(70)
    {
      grid := DefaultGrid();
      this.trig := trig;
      pos := (2.0, 2.0);
      heading := 0.0;
      fov := DegsToRads(70);
      assert ToUsize(2.0) == 2;
    }

    /** The point the march reaches after `k` steps along `direction`. */
    ghost function Sample(direction: real, k: nat): Point
      reads this
    {
      MoveForward(trig, pos, direction, k as real * MARCH_STEP)
    }

    /** Some sample along `direction` is a wall, so the march stops. */
    ghost predicate HitsWall(direction: real)
      requires IsSquare(grid)
      reads this
    {
      exists k: nat :: IsWall(grid, Sample(direction, k))
    }

    /** Sample `k` is the first wall along `direction`. */
    ghost predicate FirstHit(direction: real, k: nat)
      requires IsSquare(grid)
      reads this
    {
      IsWall(grid, Sample(direction, k)) &&
      forall j :: 0 <= j < k ==> !IsWall(grid, Sample(direction, j))
    }

    /** `d` is the distance the march reports along `direction`: a whole
        number of steps, the first of which lands on a wall. */
    ghost predicate MarchResult(direction: real, d: real)
      requires IsSquare(grid)
      reads this
    {
      exists k: nat :: d == k as real * MARCH_STEP && FirstHit(direction, k)
    }

    /** Along one direction the march has only one possible result. */
    lemma MarchResultUnique(direction: real, d1: real, d2: real)
      requires IsSquare(grid)
      requires MarchResult(direction, d1) && MarchResult(direction, d2)
      ensures d1 == d2
    {
    }

    /** A ray that meets a wall somewhere meets a first one. */
    lemma {:induction false} FirstHitExists(direction: real, k0: nat)
      requires IsSquare(grid)
      requires IsWall(grid, Sample(direction, k0))
      ensures exists k: nat :: FirstHit(direction, k)
      decreases k0
    {
      if exists j :: 0 <= j < k0 && IsWall(grid, Sample(direction, j)) {
        var j :| 0 <= j < k0 && IsWall(grid, Sample(direction, j));
        FirstHitExists(direction, j);
      } else {
        assert FirstHit(direction, k0);
      }
    }

    /** The distance the march reports along a ray that meets a wall. */
    ghost function MarchDistance(direction: real): (d: real)
      requires IsSquare(grid) && HitsWall(direction)
      reads this
      ensures MarchResult(direction, d)
    {
      var k0: nat :| IsWall(grid, Sample(direction, k0));
      FirstHitExists(direction, k0);
      var k: nat :| FirstHit(direction, k);
      k as real * MARCH_STEP
    }

    /** `distance_to_wall`: marches from the player's position in steps of
        `MARCH_STEP` and returns the distance of the first sample that is
        a wall. The source loop has no cap, so the ray must meet a wall. */
    method DistanceToWall(direction: real) returns (d: real)
      requires IsSquare(grid)
      requires HitsWall(direction)
      ensures MarchResult(direction, d)
      ensures d == MarchDistance(direction)
      ensures IsWall(grid, pos) ==> d == 0.0
    {
      ghost var bound: nat :| IsWall(grid, Sample(direction, bound));
      ghost var k: nat := 0;
      var distance: real := 0.0;
      var coords := MoveForward(trig, pos, direction, distance);
      while !IsWall(grid, coords)
        invariant distance == k as real * MARCH_STEP
        invariant coords == Sample(direction, k)
        invariant forall j :: 0 <= j < k ==> !IsWall(grid, Sample(direction, j))
        invariant k <= bound
        decreases bound - k
      {
        distance := distance + 0.01;
        k := k + 1;
        coords := MoveForward(trig, pos, direction, distance);
      }
      assert FirstHit(direction, k);
      assert Sample(direction, 0) == pos;
      d := distance;
      MarchResultUnique(direction, d, MarchDistance(direction));
    }

    /** The `map` step of `distance_to_walls`: one march per ray angle, in
        order, each along the angle added to the heading. */
    method MarchRays(angles: seq<real>) returns (distances: seq<real>)
      requires IsSquare(grid)
      requires forall i :: 0 <= i < |angles| ==> HitsWall(angles[i] + heading)
      ensures |distances| == |angles|
      ensures forall i :: 0 <= i < |angles| ==> distances[i] == MarchDistance(angles[i] + heading)
    {
      distances := [];
      var i := 0;
      while i < |angles|
        invariant 0 <= i <= |angles|
        invariant |distances| == i
        invariant forall j :: 0 <= j < i ==> distances[j] == MarchDistance(angles[j] + heading)
      {
        var d := DistanceToWall(angles[i] + heading);
        distances := distances + [d];
        i := i + 1;
      }
    }

    /** `distance_to_walls`: the distances along the `rayQuantity` rays of
        the field of view, from left to right. */
    method DistanceToWalls(rayQuantity: nat) returns (distances: seq<real>)
      requires IsSquare(grid) && rayQuantity >= 2
      requires forall i :: 0 <= i < rayQuantity ==>
        HitsWall(RayAngles(rayQuantity, fov)[i] + heading)
      ensures |distances| == rayQuantity
      ensures forall i :: 0 <= i < rayQuantity ==>
        distances[i] == MarchDistance(RayAngles(rayQuantity, fov)[i] + heading)
    {
      distances := MarchRays(RayAngles(rayQuantity, fov));
    }

    /** `pan_left`: the heading turns by pi/8 one way; nothing else moves. */
    method PanLeft()
      modifies this`heading
      ensures heading == old(heading) - FRAC_PI_8
      ensures Valid() <==> old(Valid())
    {
      heading := heading - FRAC_PI_8;
    }

    /** `pan_right`: the heading turns by pi/8 the other way. */
    method PanRight()
      modifies this`heading
      ensures heading == old(heading) + FRAC_PI_8
      ensures Valid() <==> old(Valid())
    {
      heading := heading + FRAC_PI_8;
    }

    /** `move_player`: the player steps `MOVE_STEP` along the heading turned
        by the relative direction, unless that lands on a wall, in which
        case the move is dropped. The invariant is kept. */
    method MovePlayer(h: Heading)
      requires Valid()
      modifies this`pos
      ensures Valid()
      ensures var candidate := MoveForward(trig, old(pos), heading + HeadingOffset(h), MOVE_STEP);
        pos == if IsWall(grid, candidate) then old(pos) else candidate
    {
      var direction := heading + HeadingOffset(h);
      var newPos := MoveForward(trig, pos, direction, MOVE_STEP);
      if !IsWall(grid, newPos) {
        pos := newPos;
      }
    }
  }

  /** Turning left then right gives back the heading and keeps the
      player where it stood. */
  method PanLeftThenRight(world: World)
    modifies world`heading
    ensures world.heading == old(world.heading)
  {
    world.PanLeft();
    world.PanRight();
  }
}
