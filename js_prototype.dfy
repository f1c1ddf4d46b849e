// raycast.js: the browser prototype of the caster. It keeps its own map
// (11 x 15 tiles of 32 units), its own angle normalisation built on the
// JavaScript `%`, a wall query that treats only code 1 as a wall, the
// player's move-or-reject step, the ray's direction flags and the
// horizontal-line search. Values outside what JavaScript would compute
// (an exception from reading past the last row) are modelled as results.

module JsPrototype {
  import opened Numerics

  /** Math.PI, the double nearest to pi, written as the decimal JavaScript prints. */
  const JS_PI: real := 3.141592653589793
  const JS_TWO_PI: real := JS_PI * 2.0

  const JS_TILE: real := 32.0
  const JS_ROWS: int := 11
  const JS_COLS: int := 15
  const JS_WIDTH: real := 480.0
  const JS_HEIGHT: real := 352.0
  const WALL_STRIP_WIDTH: int := 30
  /** WINDOW_WIDTH / WALL_STRIP_WIDTH */
  const JS_NUM_RAYS: int := 16

  /** degToRad */
  function DegToRad(degrees: real): real {
    degrees * (JS_PI / 180.0)
  }

  /** FOV_ANGLE */
  const JS_FOV: real := DegToRad(60.0)

  // ---------------------------------------------------------------------
  // normalizeAngle
  // ---------------------------------------------------------------------

  /**
   * `angle % (Math.PI * 2)`: JavaScript's `%` on numbers is the dividend
   * minus the divisor times the truncated quotient, so the result takes the
   * sign of the dividend and differs from it by whole turns.
   */
  function RemTwoPi(a: real): (r: real)
    ensures a >= 0.0 ==> 0.0 <= r < JS_TWO_PI
    ensures a < 0.0 ==> -JS_TWO_PI < r <= 0.0
    ensures IsMultipleOf(a - r, JS_TWO_PI)
  {
    var k := Trunc(a / JS_TWO_PI);
    var r := a - k as real * JS_TWO_PI;
    assert (a - r) / JS_TWO_PI == k as real;
    r
  }

  /**
   * normalizeAngle: the remainder by 2 * Math.PI, shifted up by a whole
   * turn when negative. The result lies in [0, 2 * Math.PI) and differs
   * from the argument by whole turns.
   */
  function NormalizeAngle(angle: real): (r: real)
    ensures 0.0 <= r < JS_TWO_PI
    ensures IsMultipleOf(angle - r, JS_TWO_PI)
  {
    var rem := RemTwoPi(angle);
    if rem < 0.0 then
      ScaledIsMultiple(1, JS_TWO_PI);
      MultipleCombine(angle - rem, JS_TWO_PI, JS_TWO_PI);
      assert angle - (JS_TWO_PI + rem) == (angle - rem) - JS_TWO_PI;
      JS_TWO_PI + rem
    else
      rem
  }

  /** Two angles of [0, 2 * Math.PI) that differ by whole turns are equal. */
  lemma CongruentEqual(r1: real, r2: real)
    requires 0.0 <= r1 < JS_TWO_PI && 0.0 <= r2 < JS_TWO_PI
    requires IsMultipleOf(r1 - r2, JS_TWO_PI)
    ensures r1 == r2
  {
    var q := (r1 - r2) / JS_TWO_PI;
    assert -1.0 < q < 1.0;
    assert q.Floor == 0;
  }

  /** An angle already in [0, 2 * Math.PI) is returned unchanged. */
  lemma NormalizeAngleFixesRange(angle: real)
    requires 0.0 <= angle < JS_TWO_PI
    ensures NormalizeAngle(angle) == angle
  {
    var r := NormalizeAngle(angle);
    assert IsMultipleOf(r - angle, JS_TWO_PI) by {
      assert (r - angle) / JS_TWO_PI == -((angle - r) / JS_TWO_PI);
    }
    CongruentEqual(r, angle);
  }

  /** Normalizing twice is normalizing once. */
  lemma NormalizeAngleIdempotent(angle: real)
    ensures NormalizeAngle(NormalizeAngle(angle)) == NormalizeAngle(angle)
  {
    NormalizeAngleFixesRange(NormalizeAngle(angle));
  }

  // ---------------------------------------------------------------------
  // Map.hasWallAt
  // ---------------------------------------------------------------------

  /** The prototype's grid: JS_ROWS rows of JS_COLS codes. */
  type JsLevel = g: seq<seq<int>> | |g| == JS_ROWS && forall row :: 0 <= row < |g| ==> |g[row]| == JS_COLS
    witness seq(11, _ => seq(15, _ => 0))

  /** The grid the Map constructor builds: 1 is a wall, 0 is open floor. */
  const JS_GRID: JsLevel := [
    [1, 1, 1, 1, 1, 1, 1, 1, 1, 1, 1, 1, 1, 1, 1],
    [1, 0, 0, 0, 0, 0, 0, 0, 0, 0, 0, 0, 1, 0, 1],
    [1, 0, 0, 0, 0, 1, 0, 0, 0, 0, 0, 0, 1, 0, 1],
    [1, 1, 1, 1, 0, 0, 0, 0, 0, 0, 1, 0, 1, 0, 1],
    [1, 0, 0, 0, 0, 0, 0, 0, 0, 0, 1, 0, 1, 0, 1],
    [1, 0, 0, 0, 0, 0, 0, 0, 1, 1, 1, 1, 1, 0, 1],
    [1, 0, 0, 0, 0, 0, 0, 0, 0, 0, 0, 0, 0, 0, 1],
    [1, 0, 0, 0, 0, 0, 0, 0, 0, 0, 0, 0, 0, 0, 1],
    [1, 1, 1, 1, 1, 1, 0, 0, 0, 1, 1, 1, 1, 0, 1],
    [1, 0, 0, 0, 0, 0, 0, 0, 0, 0, 0, 0, 0, 0, 1],
    [1, 1, 1, 1, 1, 1, 1, 1, 1, 1, 1, 1, 1, 1, 1]]

  /** Math.floor(v / TILE_SIZE) */
  function TileIndex(v: real): (i: int)
    ensures i as real * JS_TILE <= v < i as real * JS_TILE + JS_TILE
  {
    (v / JS_TILE).Floor
  }

  /** The point lies in the closed window box the query tests first. */
  predicate InWindow(x: real, y: real) {
    0.0 <= x <= JS_WIDTH && 0.0 <= y <= JS_HEIGHT
  }

  /**
   * hasWallAt: true outside the closed window box; otherwise the covering
   * cell, which is a wall only when its code is exactly 1. On the bottom
   * edge (y == WINDOW_HEIGHT) the row index is past the grid and reading a
   * cell of the missing row throws: None. On the right edge
   * (x == WINDOW_WIDTH) the column is past the row, the read gives
   * undefined and `undefined == 1` is false: no wall.
   */
  function HasWallAt(g: JsLevel, x: real, y: real): (r: Option<bool>)
    ensures !InWindow(x, y) ==> r == Some(true)
    ensures InWindow(x, y) && y == JS_HEIGHT ==> r.None?
    ensures InWindow(x, y) && y < JS_HEIGHT && x == JS_WIDTH ==> r == Some(false)
    ensures 0.0 <= x < JS_WIDTH && 0.0 <= y < JS_HEIGHT ==>
              r == Some(g[TileIndex(y)][TileIndex(x)] == 1)
    ensures r == Some(false) ==> 0.0 <= x <= JS_WIDTH && 0.0 <= y < JS_HEIGHT
  {
    if x < 0.0 || x > JS_WIDTH || y < 0.0 || y > JS_HEIGHT then Some(true)
    else
      var gridX, gridY := TileIndex(x), TileIndex(y);
      if gridY >= JS_ROWS then None
      else if gridX >= JS_COLS then Some(false)
      else Some(g[gridY][gridX] == 1)
  }

  /** Only code 1 is a wall: a cell holding any other non-zero code reads as open floor. */
  lemma OnlyCodeOneIsWall(g: JsLevel, x: real, y: real)
    requires 0.0 <= x < JS_WIDTH && 0.0 <= y < JS_HEIGHT
    ensures HasWallAt(g, x, y).Some?
    ensures HasWallAt(g, x, y).value <==> g[TileIndex(y)][TileIndex(x)] == 1
    ensures g[TileIndex(y)][TileIndex(x)] == 2 ==> HasWallAt(g, x, y) == Some(false)
  {
  }

  /** The prototype's own grid holds only 0 and 1, so there "is 1" and "is not 0" agree. */
  lemma GridCodesAreBinary(row: int, col: int)
    requires 0 <= row < JS_ROWS && 0 <= col < JS_COLS
    ensures JS_GRID[row][col] == 0 || JS_GRID[row][col] == 1
  {
  }

  /**
   * The edges of the closed window box: a point on the right edge reads as
   * open although the column next to it is solid, and a point on the
   * bottom edge makes the query throw.
   */
  lemma WindowEdgeReads()
    ensures HasWallAt(JS_GRID, JS_WIDTH, 100.0) == Some(false)
    ensures HasWallAt(JS_GRID, JS_WIDTH - 1.0, 100.0) == Some(true)
    ensures HasWallAt(JS_GRID, 100.0, JS_HEIGHT) == None
  {
    assert TileIndex(JS_WIDTH) == 15;
    assert TileIndex(JS_WIDTH - 1.0) == 14;
    assert TileIndex(100.0) == 3;
    assert TileIndex(JS_HEIGHT) == 11;
  }

  // ---------------------------------------------------------------------
  // Player.update
  // ---------------------------------------------------------------------

  /** Where the player would stand after one step along its (already turned) angle. */
  function Destination(x: real, y: real, angle: real, walkDirection: int, moveSpeed: real, m: MathLib): (d: (real, real))
    ensures walkDirection == 0 ==> d == (x, y)
  {
    var moveStep := walkDirection as real * moveSpeed;
    assert walkDirection == 0 ==> m.cos(angle) * moveStep == 0.0 && m.sin(angle) * moveStep == 0.0 by {
      if walkDirection == 0 {
        assert moveStep == 0.0;
      }
    }
    (x + m.cos(angle) * moveStep, y + m.sin(angle) * moveStep)
  }

  /**
   * The position after the collision test: the destination when the
   * query finds no wall there, the old position when it finds one, and
   * None when the query throws.
   */
  function Stepped(g: JsLevel, x: real, y: real, angle: real, walkDirection: int, moveSpeed: real, m: MathLib)
    : (p: Option<(real, real)>)
    ensures var d := Destination(x, y, angle, walkDirection, moveSpeed, m);
            && (p.None? <==> HasWallAt(g, d.0, d.1).None?)
            && (HasWallAt(g, d.0, d.1) == Some(false) ==> p == Some(d))
            && (HasWallAt(g, d.0, d.1) == Some(true) ==> p == Some((x, y)))
  {
    var d := Destination(x, y, angle, walkDirection, moveSpeed, m);
    match HasWallAt(g, d.0, d.1)
    case None => None
    case Some(wall) => if wall then Some((x, y)) else Some(d)
  }

  /** A player that starts on open floor never ends a step inside a wall. */
  lemma StepNeverEntersWall(g: JsLevel, x: real, y: real, angle: real, walkDirection: int, moveSpeed: real, m: MathLib)
    requires HasWallAt(g, x, y) == Some(false)
    ensures var p := Stepped(g, x, y, angle, walkDirection, moveSpeed, m);
            p.Some? ==> HasWallAt(g, p.value.0, p.value.1) == Some(false)
  {
  }

  /** Standing still on open floor keeps the position. */
  lemma StandingStillStays(g: JsLevel, x: real, y: real, angle: real, moveSpeed: real, m: MathLib)
    requires HasWallAt(g, x, y) == Some(false)
    ensures Stepped(g, x, y, angle, 0, moveSpeed, m) == Some((x, y))
  {
  }

  class Player {
    var x: real
    var y: real
    var radius: real
    /** -1 turns left, +1 right */
    var turnDirection: int
    /** -1 walks back, +1 forward */
    var walkDirection: int
    var rotationAngle: real
    var moveSpeed: real
    var rotationSpeed: real

    /** The prototype's player: the centre of the window, facing down the screen. */
    constructor ()
      ensures x == JS_WIDTH / 2.0 && y == JS_HEIGHT / 2.0 && radius == 3.0
      ensures turnDirection == 0 && walkDirection == 0
      ensures rotationAngle == JS_PI / 2.0
      ensures moveSpeed == 2.0 && rotationSpeed == 2.0 * (JS_PI / 180.0)
    {
      x, y, radius := JS_WIDTH / 2.0, JS_HEIGHT / 2.0, 3.0;
      turnDirection, walkDirection := 0, 0;
      rotationAngle := JS_PI / 2.0;
      moveSpeed, rotationSpeed := 2.0, 2.0 * (JS_PI / 180.0);
    }

    /**
     * update: turn unconditionally by one rotation step, then move one
     * step along the new angle unless the destination is a wall. ok is
     * false when the wall query throws; the turn has then already happened
     * and the position is kept.
     */
    method Update(g: JsLevel, m: MathLib) returns (ok: bool)
      modifies this`rotationAngle, this`x, this`y
      ensures rotationAngle == old(rotationAngle) + turnDirection as real * rotationSpeed
      ensures var p := Stepped(g, old(x), old(y), rotationAngle, walkDirection, moveSpeed, m);
              && (ok <==> p.Some?)
              && (ok ==> (x, y) == p.value)
      ensures !ok ==> x == old(x) && y == old(y)
    {
      rotationAngle := rotationAngle + turnDirection as real * rotationSpeed;
      var moveStep := walkDirection as real * moveSpeed;
      var newPlayerX := x + m.cos(rotationAngle) * moveStep;
      var newPlayerY := y + m.sin(rotationAngle) * moveStep;
      ghost var d := Destination(x, y, rotationAngle, walkDirection, moveSpeed, m);
      assert moveStep == walkDirection as real * moveSpeed;
      assert newPlayerX == d.0 && newPlayerY == d.1;
      var wall := HasWallAt(g, newPlayerX, newPlayerY);
      if wall.None? {
        return false;
      }
      if !wall.value {
        x := newPlayerX;
        y := newPlayerY;
      }
      ok := true;
    }
  }

  // ---------------------------------------------------------------------
  // Ray: constructor flags and the horizontal search of cast
  // ---------------------------------------------------------------------

  /** A prototype ray; cast keeps its hit in locals, so the hit fields stay as the constructor set them. */
  datatype JsRay = JsRay(
    rayAngle: real,
    wallHitX: real,
    wallHitY: real,
    distance: real,
    isRayFacingDown: bool,
    isRayFacingUp: bool,
    isRayFacingRight: bool,
    isRayFacingLeft: bool)

  /** Each axis has exactly one facing flag set. */
  predicate ValidFlags(r: JsRay) {
    r.isRayFacingUp == !r.isRayFacingDown && r.isRayFacingLeft == !r.isRayFacingRight
  }

  /**
   * The Ray constructor: the normalized angle, zeroed hit fields, down for
   * angles strictly between 0 and Math.PI, right for angles before a
   * quarter turn or past three quarters, and the opposite flags as their
   * negations.
   */
  function NewRay(rayAngle: real): (r: JsRay)
    ensures r.rayAngle == NormalizeAngle(rayAngle)
    ensures r.wallHitX == 0.0 && r.wallHitY == 0.0 && r.distance == 0.0
    ensures ValidFlags(r)
    ensures r.isRayFacingDown <==> 0.0 < r.rayAngle < JS_PI
    ensures r.isRayFacingRight <==> r.rayAngle < JS_PI / 2.0 || r.rayAngle > 1.5 * JS_PI
  {
    var angle := NormalizeAngle(rayAngle);
    var down := angle > 0.0 && angle < JS_PI;
    var right := angle < (JS_PI / 2.0) || angle > 1.5 * JS_PI;
    JsRay(angle, 0.0, 0.0, 0.0, down, !down, right, !right)
  }

  /**
   * On the normalized circle: up means 0 or at least Math.PI, left is the
   * closed band between the quarter and three-quarter turns, and angle 0
   * faces up and right.
   */
  lemma RayFacingQuadrants(rayAngle: real)
    ensures var r := NewRay(rayAngle);
            && (r.isRayFacingUp <==> (r.rayAngle == 0.0 || r.rayAngle >= JS_PI))
            && (r.isRayFacingLeft <==> (JS_PI / 2.0 <= r.rayAngle <= 1.5 * JS_PI))
    ensures NewRay(0.0).isRayFacingUp && NewRay(0.0).isRayFacingRight
  {
    NormalizeAngleFixesRange(0.0);
  }

  /** What the horizontal search of cast leaves in its locals. */
  datatype HorzCast =
    | NoHit                        // foundHorzWallHit stays false
    | WallHit(x: real, y: real)    // foundHorzWallHit, wallHitX, wallHitY
    | TypeError                    // the wall query threw

  /** The stepped coordinate moves one tile per iteration, up or down. */
  predicate TileStep(yStep: real) {
    yStep == JS_TILE || yStep == -JS_TILE
  }

  /** How far the touch point still is from the edge it walks toward. */
  function ScanMeasure(y: real, yStep: real): int {
    if yStep < 0.0 then (y + JS_TILE).Floor else (JS_HEIGHT + JS_TILE - y).Floor
  }

  /**
   * The search loop as a definition: query the touch point itself; a wall
   * ends the search with the point, a throw ends it with TypeError, open
   * floor moves on by one step. It ends because every open point lies in
   * the window and the next one is a tile further toward the edge.
   */
  function HorzScan(g: JsLevel, x: real, y: real, xStep: real, yStep: real): HorzCast
    requires TileStep(yStep) && -JS_TILE <= y <= JS_HEIGHT + JS_TILE
    decreases ScanMeasure(y, yStep)
  {
    match HasWallAt(g, x, y)
    case None => TypeError
    case Some(wall) =>
      if wall then WallHit(x, y) else HorzScan(g, x + xStep, y + yStep, xStep, yStep)
  }

  /** The number of open touch points the search passes before it ends. */
  ghost function ScanSteps(g: JsLevel, x: real, y: real, xStep: real, yStep: real): nat
    requires TileStep(yStep) && -JS_TILE <= y <= JS_HEIGHT + JS_TILE
    decreases ScanMeasure(y, yStep)
  {
    if HasWallAt(g, x, y) == Some(false) then 1 + ScanSteps(g, x + xStep, y + yStep, xStep, yStep) else 0
  }

  /** A search passes at most ScanMeasure / TILE_SIZE open points. */
  lemma {:induction false} ScanStepsWithinMeasure(g: JsLevel, x: real, y: real, xStep: real, yStep: real)
    requires TileStep(yStep) && -JS_TILE <= y <= JS_HEIGHT + JS_TILE
    ensures ScanSteps(g, x, y, xStep, yStep) * 32 <= ScanMeasure(y, yStep)
    decreases ScanMeasure(y, yStep)
  {
    if HasWallAt(g, x, y) == Some(false) {
      ScanStepsWithinMeasure(g, x + xStep, y + yStep, xStep, yStep);
      assert ScanMeasure(y + yStep, yStep) == ScanMeasure(y, yStep) - 32;
    }
  }

  /**
   * Although the bounds test is made once, before the loop, the loop ends:
   * it passes at most one open point per grid row and one more.
   */
  lemma ScanStepsBound(g: JsLevel, x: real, y: real, xStep: real, yStep: real)
    requires TileStep(yStep) && 0.0 <= y <= JS_HEIGHT
    ensures ScanSteps(g, x, y, xStep, yStep) <= JS_ROWS + 1
  {
    ScanStepsWithinMeasure(g, x, y, xStep, yStep);
  }

  /** The coordinate lies on a horizontal grid line. */
  ghost predicate OnTileLine(v: real) {
    (v / JS_TILE).Floor as real * JS_TILE == v
  }

  /** A step of one tile keeps a coordinate on a grid line. */
  lemma TileLineStep(v: real, step: real)
    requires OnTileLine(v) && TileStep(step)
    ensures OnTileLine(v + step)
  {
    var k := (v / JS_TILE).Floor;
    assert (v + step) / JS_TILE == (if step > 0.0 then k + 1 else k - 1) as real;
  }

  /**
   * A search that starts off a grid line by `lift` (1 when the touch point
   * was moved up, 0 otherwise) reports a wall at a point off its line by
   * the same amount, with the query answering "wall" there.
   */
  lemma {:induction false} ScanHit(g: JsLevel, x: real, y: real, xStep: real, yStep: real, lift: real)
    requires TileStep(yStep) && -JS_TILE <= y <= JS_HEIGHT + JS_TILE
    requires OnTileLine(y + lift)
    ensures var h := HorzScan(g, x, y, xStep, yStep);
            h.WallHit? ==> OnTileLine(h.y + lift) && HasWallAt(g, h.x, h.y) == Some(true)
    decreases ScanMeasure(y, yStep)
  {
    if HasWallAt(g, x, y) == Some(false) {
      TileLineStep(y + lift, yStep);
      assert (y + lift) + yStep == (y + yStep) + lift;
      ScanHit(g, x + xStep, y + yStep, xStep, yStep, lift);
    }
  }

  /** Where the horizontal search starts: the first touch point and the two steps. */
  datatype HorzStart = HorzStart(x: real, y: real, xStep: real, yStep: real)

  /**
   * The set-up of cast's horizontal search from the ray's flags. A zero
   * tangent makes JavaScript's intercept infinite or NaN, so the bounds
   * test fails and the loop is never entered: None.
   */
  function HorzSetup(ray: JsRay, px: real, py: real, m: MathLib): (s: Option<HorzStart>)
    requires ValidFlags(ray)
    ensures s.None? <==> m.tan(ray.rayAngle) == 0.0
    ensures s.Some? ==>
              && TileStep(s.value.yStep)
              && (ray.isRayFacingUp <==> s.value.yStep == -JS_TILE)
              && (ray.isRayFacingLeft ==> s.value.xStep <= 0.0)
              && (ray.isRayFacingRight ==> s.value.xStep >= 0.0)
              && (ray.isRayFacingUp ==> OnTileLine(s.value.y + 1.0) && s.value.y + 1.0 <= py < s.value.y + 1.0 + JS_TILE)
              && (ray.isRayFacingDown ==> OnTileLine(s.value.y) && s.value.y - JS_TILE <= py < s.value.y)
  {
    var t := m.tan(ray.rayAngle);
    if t == 0.0 then None
    else
      var base := TileIndex(py) as real * JS_TILE;
      assert OnTileLine(base) by {
        assert base / JS_TILE == TileIndex(py) as real;
      }
      var yintercept := if ray.isRayFacingDown then base + JS_TILE else base;
      TileLineStep(base, JS_TILE);
      var xintercept := px + (yintercept - py) / t;
      var yStep := if ray.isRayFacingUp then -JS_TILE else JS_TILE;
      var xStep := JS_TILE / t;
      var xStep' := if ray.isRayFacingLeft && xStep > 0.0 then -xStep else xStep;
      var xStep'' := if ray.isRayFacingRight && xStep' < 0.0 then -xStep' else xStep';
      var touchY := if ray.isRayFacingUp then yintercept - 1.0 else yintercept;
      Some(HorzStart(xintercept, touchY, xStep'', yStep))
  }

  /** cast's horizontal search: the bounds test once, then the loop. */
  function HorizontalCast(g: JsLevel, ray: JsRay, px: real, py: real, m: MathLib): HorzCast
    requires ValidFlags(ray)
  {
    match HorzSetup(ray, px, py, m)
    case None => NoHit
    case Some(s) => if InWindow(s.x, s.y) then HorzScan(g, s.x, s.y, s.xStep, s.yStep) else NoHit
  }

  /**
   * A horizontal hit is a point where the query answers "wall". Facing
   * down it lies on a grid line; facing up the recorded y is one unit
   * above a grid line, because the touch point itself, not only the
   * sample, was moved up.
   */
  lemma HorizontalHitOffLine(g: JsLevel, ray: JsRay, px: real, py: real, m: MathLib)
    requires ValidFlags(ray)
    ensures var h := HorizontalCast(g, ray, px, py, m);
            h.WallHit? ==>
              && HasWallAt(g, h.x, h.y) == Some(true)
              && (ray.isRayFacingUp ==> OnTileLine(h.y + 1.0))
              && (ray.isRayFacingDown ==> OnTileLine(h.y))
  {
    var st := HorzSetup(ray, px, py, m);
    if st.Some? && InWindow(st.value.x, st.value.y) {
      var s := st.value;
      if ray.isRayFacingUp {
        ScanHit(g, s.x, s.y, s.xStep, s.yStep, 1.0);
      } else {
        assert s.y + 0.0 == s.y;
        ScanHit(g, s.x, s.y, s.xStep, s.yStep, 0.0);
      }
    }
  }

  /**
   * Ray.cast, horizontal part: the intercept on the grid line ahead, the
   * steps with their signs corrected, the touch point moved up one unit
   * when facing up, the bounds test made once, then the walk to the first
   * wall. The result is what cast leaves in its locals; the ray itself is
   * not changed.
   */
  method Cast(g: JsLevel, ray: JsRay, px: real, py: real, m: MathLib) returns (h: HorzCast)
    requires ValidFlags(ray)
    ensures h == HorizontalCast(g, ray, px, py, m)
  {
    var yintercept := TileIndex(py) as real * JS_TILE;
    if ray.isRayFacingDown {
      yintercept := yintercept + JS_TILE;
    }
    var t := m.tan(ray.rayAngle);
    if t == 0.0 {
      // The intercept is infinite or NaN, and every bounds comparison fails.
      return NoHit;
    }
    var xintercept := px + (yintercept - py) / t;

    var yStep := JS_TILE;
    if ray.isRayFacingUp {
      yStep := -yStep;
    }
    var xStep := JS_TILE / t;
    if ray.isRayFacingLeft && xStep > 0.0 {
      xStep := -xStep;
    }
    if ray.isRayFacingRight && xStep < 0.0 {
      xStep := -xStep;
    }

    var nextHorzTouchX, nextHorzTouchY := xintercept, yintercept;
    if ray.isRayFacingUp {
      nextHorzTouchY := nextHorzTouchY - 1.0;
    }
    assert HorzSetup(ray, px, py, m) == Some(HorzStart(nextHorzTouchX, nextHorzTouchY, xStep, yStep));

    h := WalkToWall(g, nextHorzTouchX, nextHorzTouchY, xStep, yStep);
  }

  /**
   * The loop of cast's horizontal search, from the first touch point: the
   * bounds test once, then the walk until the query reports a wall or throws.
   */
  method WalkToWall(g: JsLevel, x: real, y: real, xStep: real, yStep: real) returns (h: HorzCast)
    requires TileStep(yStep)
    ensures h == if InWindow(x, y) then HorzScan(g, x, y, xStep, yStep) else NoHit
  {
    var nextHorzTouchX, nextHorzTouchY := x, y;
    var withinBounds := InWindow(nextHorzTouchX, nextHorzTouchY);
    while withinBounds
      invariant withinBounds ==> -JS_TILE <= nextHorzTouchY <= JS_HEIGHT + JS_TILE
      invariant withinBounds ==>
                  HorzScan(g, nextHorzTouchX, nextHorzTouchY, xStep, yStep) == HorzScan(g, x, y, xStep, yStep)
      decreases ScanMeasure(nextHorzTouchY, yStep)
    {
      var wall := HasWallAt(g, nextHorzTouchX, nextHorzTouchY);
      if wall.None? {
        return TypeError;
      }
      if wall.value {
        return WallHit(nextHorzTouchX, nextHorzTouchY);
      }
      nextHorzTouchX := nextHorzTouchX + xStep;
      nextHorzTouchY := nextHorzTouchY + yStep;
    }
    return NoHit;
  }

  // ---------------------------------------------------------------------
  // castAllRays
  // ---------------------------------------------------------------------

  /**
   * castAllRays: the global ray list is emptied, then the loop (bound
   * `i < 1`) builds the leftmost ray of the field of view, casts it and
   * appends it. Exactly one ray results, with its hit fields still zero.
   * ok is false when the cast throws; the list is then left empty.
   */
  method CastAllRays(g: JsLevel, player: Player, m: MathLib) returns (rays: seq<JsRay>, ok: bool)
    ensures var first := NewRay(player.rotationAngle - JS_FOV / 2.0);
            && (ok <==> !HorizontalCast(g, first, player.x, player.y, m).TypeError?)
            && (ok ==> rays == [first])
            && (!ok ==> rays == [])
  {
    var px, py := player.x, player.y;
    var columnId := 0;
    var rayAngle := player.rotationAngle - (JS_FOV / 2.0);
    ghost var first := NewRay(rayAngle);

    rays := [];
    ok := true;
    for i := 0 to 1
      invariant i == 0 ==> rays == [] && rayAngle == player.rotationAngle - JS_FOV / 2.0
      invariant i == 1 ==> ok && rays == [first] && !HorizontalCast(g, first, px, py, m).TypeError?
    {
      var ray := NewRay(rayAngle);
      var h := Cast(g, ray, px, py, m);
      if h.TypeError? {
        ok := false;
        return;
      }
      rays := rays + [ray];
      rayAngle := rayAngle + JS_FOV / JS_NUM_RAYS as real;
      columnId := columnId + 1;
    }
  }
}
