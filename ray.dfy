// ray.c: direction classification, the two grid searches, the choice of the
// nearer hit and the per-column cast. main.c's castRay is the same algorithm
// and additionally stores the four direction flags, which the Ray record keeps.

module RayCaster {
  import opened Numerics
  import opened Utils
  import opened Grid
  import opened PlayerMotion

  const NUM_RAYS: int := 1280
  const HALF_NUM_RAYS: int := NUM_RAYS / 2

  /** DIST_PROJ_PLANE: (WINDOW_WIDTH >> 1) / tanf(FOV / 2) */
  function DistProjPlane(m: MathLib): (d: real)
    requires ValidMath(m)
    ensures d > 0.0
  {
    640.0 / m.tan(HALF_FOV)
  }

  predicate IsRayFacingDown(angle: real) {
    angle > 0.0 && angle < PI
  }

  predicate IsRayFacingUp(angle: real) {
    !IsRayFacingDown(angle)
  }

  predicate IsRayFacingRight(angle: real) {
    angle < HALF_PI || angle > ONE_POINT_FIVE_PI
  }

  predicate IsRayFacingLeft(angle: real) {
    !IsRayFacingRight(angle)
  }

  /** For a normalized angle: up means 0 or at least PI; left means the closed band [PI/2, 3PI/2]. */
  lemma FacingQuadrants(angle: real)
    requires 0.0 <= angle < TWO_PI
    ensures IsRayFacingUp(angle) <==> (angle == 0.0 || angle >= PI)
    ensures IsRayFacingLeft(angle) <==> (HALF_PI <= angle <= ONE_POINT_FIVE_PI)
    ensures IsRayFacingUp(0.0) && IsRayFacingRight(0.0)
  {
  }

  /** One grid search walks horizontal grid lines (stepping y) or vertical ones (stepping x). */
  datatype Axis = Horizontal | Vertical

  /** The outcome of one search; content None marks a read outside the map table. */
  datatype Search = Search(found: bool, hitX: real, hitY: real, content: Option<int>)

  /** A search with no hit keeps the initial values of the C locals. */
  const NoHit: Search := Search(false, 0.0, 0.0, Some(0))

  /** The stepped coordinate moves by exactly one tile per iteration. */
  predicate StepsOk(axis: Axis, xstep: real, ystep: real) {
    if axis == Horizontal then ystep == TILE || ystep == -TILE
    else xstep == TILE || xstep == -TILE
  }

  /** How far the stepped coordinate still is from the side of the map it moves toward. */
  function Progress(axis: Axis, x: real, y: real, xstep: real, ystep: real): int {
    if axis == Horizontal then
      if ystep < 0.0 then y.Floor else (MAP_HEIGHT - y).Floor
    else
      if xstep < 0.0 then x.Floor else (MAP_WIDTH - x).Floor
  }

  /**
   * The search loop as a definition: from the touch point (x, y), sample at
   * the offset (xoff, yoff); stop at the first wall, or when the touch point
   * leaves the closed map box.
   */
  function Scan(g: Level, axis: Axis, x: real, y: real, xstep: real, ystep: real, xoff: real, yoff: real): Search
    requires StepsOk(axis, xstep, ystep)
    decreases Progress(axis, x, y, xstep, ystep)
  {
    if !InsideMap(x, y) then NoHit
    else if HasWallAt(g, x + xoff, y + yoff) then Search(true, x, y, ContentAt(g, x + xoff, y + yoff))
    else Scan(g, axis, x + xstep, y + ystep, xstep, ystep, xoff, yoff)
  }

  /** The number of touch points the search passes without a hit. */
  ghost function ScanSteps(g: Level, axis: Axis, x: real, y: real, xstep: real, ystep: real, xoff: real, yoff: real): nat
    requires StepsOk(axis, xstep, ystep)
    decreases Progress(axis, x, y, xstep, ystep)
  {
    if !InsideMap(x, y) || HasWallAt(g, x + xoff, y + yoff) then 0
    else 1 + ScanSteps(g, axis, x + xstep, y + ystep, xstep, ystep, xoff, yoff)
  }

  /** The j-th touch point along one coordinate. */
  function Touch(start: real, step: real, j: nat): real {
    start + j as real * step
  }

  /** The touch point is open: inside the map box with no wall at its sample. */
  predicate OpenAt(g: Level, x: real, y: real, xoff: real, yoff: real) {
    InsideMap(x, y) && !HasWallAt(g, x + xoff, y + yoff)
  }

  lemma TouchShift(start: real, step: real, j: nat)
    ensures Touch(start + step, step, j) == Touch(start, step, j + 1)
  {
    assert (j + 1) as real * step == j as real * step + step;
  }

  /** Every touch point the search passes over is open. */
  lemma {:induction false} ScanPrefixOpen(g: Level, axis: Axis, x: real, y: real, xstep: real, ystep: real, xoff: real, yoff: real)
    requires StepsOk(axis, xstep, ystep)
    ensures forall j: nat :: j < ScanSteps(g, axis, x, y, xstep, ystep, xoff, yoff) ==>
              OpenAt(g, Touch(x, xstep, j), Touch(y, ystep, j), xoff, yoff)
    decreases Progress(axis, x, y, xstep, ystep)
  {
    if OpenAt(g, x, y, xoff, yoff) {
      var x', y' := x + xstep, y + ystep;
      ScanPrefixOpen(g, axis, x', y', xstep, ystep, xoff, yoff);
      forall j: nat | j < ScanSteps(g, axis, x, y, xstep, ystep, xoff, yoff)
        ensures OpenAt(g, Touch(x, xstep, j), Touch(y, ystep, j), xoff, yoff)
      {
        if j == 0 {
          assert Touch(x, xstep, 0) == x && Touch(y, ystep, 0) == y;
        } else {
          TouchShift(x, xstep, j - 1);
          TouchShift(y, ystep, j - 1);
        }
      }
    }
  }

  /** An open touch point passes the search on to the next one. */
  lemma ScanOpenStep(g: Level, axis: Axis, x: real, y: real, xstep: real, ystep: real, xoff: real, yoff: real)
    requires StepsOk(axis, xstep, ystep)
    requires OpenAt(g, x, y, xoff, yoff)
    ensures Scan(g, axis, x, y, xstep, ystep, xoff, yoff) == Scan(g, axis, x + xstep, y + ystep, xstep, ystep, xoff, yoff)
    ensures ScanSteps(g, axis, x, y, xstep, ystep, xoff, yoff) == 1 + ScanSteps(g, axis, x + xstep, y + ystep, xstep, ystep, xoff, yoff)
  {
  }

  /** A touch point that is not open ends the search there. */
  lemma ScanClosedStep(g: Level, axis: Axis, x: real, y: real, xstep: real, ystep: real, xoff: real, yoff: real)
    requires StepsOk(axis, xstep, ystep)
    requires !OpenAt(g, x, y, xoff, yoff)
    ensures ScanSteps(g, axis, x, y, xstep, ystep, xoff, yoff) == 0
    ensures Scan(g, axis, x, y, xstep, ystep, xoff, yoff)
            == if InsideMap(x, y) then Search(true, x, y, ContentAt(g, x + xoff, y + yoff)) else NoHit
  {
  }

  /** The touch point where the search ends: the first one that is not open. */
  predicate StopsAt(g: Level, s: Search, x: real, y: real, xoff: real, yoff: real) {
    && (s.found <==> InsideMap(x, y))
    && (s.found ==> s.hitX == x && s.hitY == y && HasWallAt(g, x + xoff, y + yoff)
                    && s.content == ContentAt(g, x + xoff, y + yoff))
    && (!s.found ==> s == NoHit)
  }

  /**
   * The search stops at the touch point after the open ones: it reports a
   * hit exactly when that point is inside the map box, the hit is that point
   * with a wall at its sample and the content read there; otherwise NoHit.
   */
  lemma {:induction false} ScanStopsAtFirstWall(g: Level, axis: Axis, x: real, y: real, xstep: real, ystep: real, xoff: real, yoff: real)
    requires StepsOk(axis, xstep, ystep)
    ensures var n := ScanSteps(g, axis, x, y, xstep, ystep, xoff, yoff);
            StopsAt(g, Scan(g, axis, x, y, xstep, ystep, xoff, yoff), Touch(x, xstep, n), Touch(y, ystep, n), xoff, yoff)
    decreases Progress(axis, x, y, xstep, ystep)
  {
    if OpenAt(g, x, y, xoff, yoff) {
      var x', y' := x + xstep, y + ystep;
      ScanStopsAtFirstWall(g, axis, x', y', xstep, ystep, xoff, yoff);
      ScanOpenStep(g, axis, x, y, xstep, ystep, xoff, yoff);
      var n' := ScanSteps(g, axis, x', y', xstep, ystep, xoff, yoff);
      TouchShift(x, xstep, n');
      TouchShift(y, ystep, n');
    } else {
      ScanClosedStep(g, axis, x, y, xstep, ystep, xoff, yoff);
      assert Touch(x, xstep, 0) == x && Touch(y, ystep, 0) == y;
    }
  }

  /** A search visits at most Progress / TILE_SIZE + 1 open touch points. */
  lemma {:induction false} ScanStepsWithinProgress(g: Level, axis: Axis, x: real, y: real, xstep: real, ystep: real, xoff: real, yoff: real)
    requires StepsOk(axis, xstep, ystep)
    ensures InsideMap(x, y) ==>
              ScanSteps(g, axis, x, y, xstep, ystep, xoff, yoff) <= Progress(axis, x, y, xstep, ystep) / TILE_SIZE + 1
    decreases Progress(axis, x, y, xstep, ystep)
  {
    if InsideMap(x, y) && !HasWallAt(g, x + xoff, y + yoff) {
      ScanStepsWithinProgress(g, axis, x + xstep, y + ystep, xstep, ystep, xoff, yoff);
      assert Progress(axis, x + xstep, y + ystep, xstep, ystep) == Progress(axis, x, y, xstep, ystep) - TILE_SIZE;
    }
  }

  /**
   * Each search loop terminates within one pass over the map: at most
   * MAP_NUM_ROWS + 1 touch points for the horizontal search and
   * MAP_NUM_COLS + 1 for the vertical one.
   */
  lemma ScanStepsBound(g: Level, axis: Axis, x: real, y: real, xstep: real, ystep: real, xoff: real, yoff: real)
    requires StepsOk(axis, xstep, ystep)
    ensures axis == Horizontal ==> ScanSteps(g, axis, x, y, xstep, ystep, xoff, yoff) <= MAP_NUM_ROWS + 1
    ensures axis == Vertical ==> ScanSteps(g, axis, x, y, xstep, ystep, xoff, yoff) <= MAP_NUM_COLS + 1
  {
    ScanStepsWithinProgress(g, axis, x, y, xstep, ystep, xoff, yoff);
  }

  /** A hit lies in the closed map box; no hit reports the point (0, 0). */
  lemma ScanHitInBox(g: Level, axis: Axis, x: real, y: real, xstep: real, ystep: real, xoff: real, yoff: real)
    requires StepsOk(axis, xstep, ystep)
    ensures var s := Scan(g, axis, x, y, xstep, ystep, xoff, yoff);
            0.0 <= s.hitX <= MAP_WIDTH && 0.0 <= s.hitY <= MAP_HEIGHT
  {
    ScanStopsAtFirstWall(g, axis, x, y, xstep, ystep, xoff, yoff);
  }

  /** The search loop of castRay, stepping until a wall or the edge of the map. */
  method ScanLoop(g: Level, axis: Axis, xintercept: real, yintercept: real, xstep: real, ystep: real, xoff: real, yoff: real)
    returns (s: Search)
    requires StepsOk(axis, xstep, ystep)
    ensures s == Scan(g, axis, xintercept, yintercept, xstep, ystep, xoff, yoff)
  {
    var nextTouchX, nextTouchY := xintercept, yintercept;
    while InsideMap(nextTouchX, nextTouchY)
      invariant Scan(g, axis, nextTouchX, nextTouchY, xstep, ystep, xoff, yoff)
             == Scan(g, axis, xintercept, yintercept, xstep, ystep, xoff, yoff)
      decreases Progress(axis, nextTouchX, nextTouchY, xstep, ystep)
    {
      var xToCheck := nextTouchX + xoff;
      var yToCheck := nextTouchY + yoff;
      if HasWallAt(g, xToCheck, yToCheck) {
        return Search(true, nextTouchX, nextTouchY, ContentAt(g, xToCheck, yToCheck));
      }
      nextTouchX := nextTouchX + xstep;
      nextTouchY := nextTouchY + ystep;
    }
    return NoHit;
  }

  /** A coordinate lying on a grid line. */
  ghost predicate OnGridLine(v: real) {
    (v / TILE).Floor as real * TILE == v
  }

  /**
   * The first grid line the search crosses along one axis: the line at or
   * before the coordinate when moving toward smaller values, the next line
   * after it otherwise.
   */
  function FirstGridLine(v: real, forward: bool): (line: real)
    ensures OnGridLine(line)
    ensures !forward ==> line <= v < line + TILE
    ensures forward ==> line - TILE <= v < line
  {
    var base := GridIndex(v) as real * TILE;
    var line := if forward then base + TILE else base;
    assert line / TILE == (if forward then GridIndex(v) + 1 else GridIndex(v)) as real;
    line
  }

  /** Horizontal search steps: ystep is -TILE_SIZE exactly when facing up; xstep takes the facing sign. */
  function HorzSteps(t: real, up: bool, left: bool): (st: (real, real))
    requires t != 0.0
    ensures st.1 == (if up then -TILE else TILE)
    ensures left ==> st.0 <= 0.0
    ensures !left ==> st.0 >= 0.0
    ensures st.0 == TILE / t || st.0 == -(TILE / t)
  {
    var xstep := TILE / t;
    var xstep' := if left && xstep > 0.0 then -xstep else if !left && xstep < 0.0 then -xstep else xstep;
    (xstep', if up then -TILE else TILE)
  }

  /** Vertical search steps: xstep is -TILE_SIZE exactly when facing left; ystep takes the facing sign. */
  function VertSteps(t: real, up: bool, left: bool): (st: (real, real))
    ensures st.0 == (if left then -TILE else TILE)
    ensures up ==> st.1 <= 0.0
    ensures !up ==> st.1 >= 0.0
    ensures st.1 == TILE * t || st.1 == -(TILE * t)
  {
    var ystep := TILE * t;
    var ystep' := if up && ystep > 0.0 then -ystep else ystep;
    var ystep'' := if !up && ystep' < 0.0 then -ystep' else ystep';
    (if left then -TILE else TILE, ystep'')
  }

  /** Where one search loop begins: the first touch point, the steps and the sampling offset. */
  datatype Start = Start(x: real, y: real, xstep: real, ystep: real, xoff: real, yoff: real)

  /**
   * The set-up of the horizontal-line search for a normalized angle: the
   * first touch point lies on the grid line ahead of the player, y moves one
   * tile per step toward the facing side, x takes the facing sign, and a ray
   * facing up samples one unit above the line. A zero tangent makes the C
   * intercept infinite or NaN, so the search never enters its loop: None.
   */
  function HorizontalStart(angle: real, px: real, py: real, m: MathLib): (st: Option<Start>)
    ensures st.None? <==> m.tan(angle) == 0.0
    ensures st.Some? ==> var s := st.value;
              && OnGridLine(s.y)
              && (IsRayFacingUp(angle) ==> s.y <= py < s.y + TILE && s.ystep == -TILE && s.yoff == -1.0)
              && (IsRayFacingDown(angle) ==> s.y - TILE <= py < s.y && s.ystep == TILE && s.yoff == 0.0)
              && (IsRayFacingLeft(angle) ==> s.xstep <= 0.0)
              && (IsRayFacingRight(angle) ==> s.xstep >= 0.0)
              && s.xoff == 0.0
              && StepsOk(Horizontal, s.xstep, s.ystep)
  {
    var up := IsRayFacingUp(angle);
    var t := m.tan(angle);
    if t == 0.0 then None
    else
      var yintercept := FirstGridLine(py, !up);
      var xintercept := px + (yintercept - py) / t;
      var st := HorzSteps(t, up, IsRayFacingLeft(angle));
      Some(Start(xintercept, yintercept, st.0, st.1, 0.0, if up then -1.0 else 0.0))
  }

  /**
   * The set-up of the vertical-line search: the first touch point lies on
   * the grid line ahead of the player, x moves one tile per step toward the
   * facing side, y takes the facing sign, and a ray facing left samples one
   * unit left of the line.
   */
  function VerticalStart(angle: real, px: real, py: real, m: MathLib): (s: Start)
    ensures OnGridLine(s.x)
    ensures IsRayFacingLeft(angle) ==> s.x <= px < s.x + TILE && s.xstep == -TILE && s.xoff == -1.0
    ensures IsRayFacingRight(angle) ==> s.x - TILE <= px < s.x && s.xstep == TILE && s.xoff == 0.0
    ensures IsRayFacingUp(angle) ==> s.ystep <= 0.0
    ensures IsRayFacingDown(angle) ==> s.ystep >= 0.0
    ensures s.yoff == 0.0
    ensures StepsOk(Vertical, s.xstep, s.ystep)
  {
    var left := IsRayFacingLeft(angle);
    var t := m.tan(angle);
    var xintercept := FirstGridLine(px, !left);
    var yintercept := py + (xintercept - px) * t;
    var st := VertSteps(t, IsRayFacingUp(angle), left);
    Start(xintercept, yintercept, st.0, st.1, if left then -1.0 else 0.0, 0.0)
  }

  /** The horizontal-line search: no hit without a start, otherwise the scan from it. */
  function HorizontalSearch(g: Level, angle: real, px: real, py: real, m: MathLib): Search {
    match HorizontalStart(angle, px, py, m)
    case None => NoHit
    case Some(s) => Scan(g, Horizontal, s.x, s.y, s.xstep, s.ystep, s.xoff, s.yoff)
  }

  /** The vertical-line search: the scan from its start. */
  function VerticalSearch(g: Level, angle: real, px: real, py: real, m: MathLib): Search {
    var s := VerticalStart(angle, px, py, m);
    Scan(g, Vertical, s.x, s.y, s.xstep, s.ystep, s.xoff, s.yoff)
  }

  /** The distance to a search's hit, FLT_MAX when it found none. */
  function HitDistance(s: Search, px: real, py: real, m: MathLib): (d: real)
    requires ValidMath(m)
    ensures d >= 0.0
    ensures !s.found ==> d == FLT_MAX
  {
    if s.found then DistanceBetweenPoints(m, px, py, s.hitX, s.hitY) else FLT_MAX
  }

  /** One column's cast; main.c's ray also carries the four direction flags. */
  datatype Ray = Ray(
    rayAngle: real,
    wallHitX: real,
    wallHitY: real,
    distance: real,
    wasHitVertical: bool,
    wallHitContent: Option<int>,
    isRayFacingUp: bool,
    isRayFacingDown: bool,
    isRayFacingLeft: bool,
    isRayFacingRight: bool)

  /** Keep the nearer of the two hits; equal distances keep the horizontal one. */
  function Resolve(angle: real, h: Search, v: Search, px: real, py: real, m: MathLib): Ray
    requires ValidMath(m)
  {
    var horzHitDistance := HitDistance(h, px, py, m);
    var vertHitDistance := HitDistance(v, px, py, m);
    var down := IsRayFacingDown(angle);
    var right := IsRayFacingRight(angle);
    if vertHitDistance < horzHitDistance then
      Ray(angle, v.hitX, v.hitY, vertHitDistance, true, v.content, !down, down, !right, right)
    else
      Ray(angle, h.hitX, h.hitY, horzHitDistance, false, h.content, !down, down, !right, right)
  }

  /** castRay as a definition: normalize, search both ways, resolve. */
  function CastRayResult(g: Level, rayAngle: real, px: real, py: real, m: MathLib): Ray
    requires ValidMath(m)
  {
    var angle := NormalizeAngle(rayAngle);
    Resolve(angle, HorizontalSearch(g, angle, px, py, m), VerticalSearch(g, angle, px, py, m), px, py, m)
  }

  /**
   * The stored ray: normalized angle, flags with up == !down and
   * left == !right, the vertical hit exactly when it is strictly nearer, the
   * smaller distance, and hit point and content from the same search.
   */
  lemma CastRayResolution(g: Level, rayAngle: real, px: real, py: real, m: MathLib)
    requires ValidMath(m)
    ensures var r := CastRayResult(g, rayAngle, px, py, m);
            var h := HorizontalSearch(g, r.rayAngle, px, py, m);
            var v := VerticalSearch(g, r.rayAngle, px, py, m);
            var hd := HitDistance(h, px, py, m);
            var vd := HitDistance(v, px, py, m);
            && r.rayAngle == NormalizeAngle(rayAngle)
            && 0.0 <= r.rayAngle < TWO_PI
            && r.isRayFacingUp == !r.isRayFacingDown
            && r.isRayFacingLeft == !r.isRayFacingRight
            && r.isRayFacingDown == IsRayFacingDown(r.rayAngle)
            && r.isRayFacingRight == IsRayFacingRight(r.rayAngle)
            && (r.wasHitVertical <==> vd < hd)
            && r.distance == (if vd < hd then vd else hd)
            && r.distance <= hd && r.distance <= vd
            && (r.wasHitVertical ==> r.wallHitX == v.hitX && r.wallHitY == v.hitY && r.wallHitContent == v.content)
            && (!r.wasHitVertical ==> r.wallHitX == h.hitX && r.wallHitY == h.hitY && r.wallHitContent == h.content)
  {
  }

  /** The horizontal search's hit lies in the closed map box. */
  lemma HorizontalHitInBox(g: Level, angle: real, px: real, py: real, m: MathLib)
    ensures var s := HorizontalSearch(g, angle, px, py, m);
            0.0 <= s.hitX <= MAP_WIDTH && 0.0 <= s.hitY <= MAP_HEIGHT
  {
    var st := HorizontalStart(angle, px, py, m);
    if st.Some? {
      var s := st.value;
      ScanHitInBox(g, Horizontal, s.x, s.y, s.xstep, s.ystep, s.xoff, s.yoff);
    }
  }

  /** The vertical search's hit lies in the closed map box. */
  lemma VerticalHitInBox(g: Level, angle: real, px: real, py: real, m: MathLib)
    ensures var s := VerticalSearch(g, angle, px, py, m);
            0.0 <= s.hitX <= MAP_WIDTH && 0.0 <= s.hitY <= MAP_HEIGHT
  {
    var s := VerticalStart(angle, px, py, m);
    ScanHitInBox(g, Vertical, s.x, s.y, s.xstep, s.ystep, s.xoff, s.yoff);
  }

  /** Every stored hit point lies in the closed map box, so both coordinates are non-negative. */
  lemma CastRayHitInBox(g: Level, rayAngle: real, px: real, py: real, m: MathLib)
    requires ValidMath(m)
    ensures var r := CastRayResult(g, rayAngle, px, py, m);
            0.0 <= r.wallHitX <= MAP_WIDTH && 0.0 <= r.wallHitY <= MAP_HEIGHT
  {
    var angle := NormalizeAngle(rayAngle);
    HorizontalHitInBox(g, angle, px, py, m);
    VerticalHitInBox(g, angle, px, py, m);
  }

  /** The horizontal-line half of castRay: set-up, then the search loop. */
  method HorizontalLoop(g: Level, angle: real, px: real, py: real, m: MathLib) returns (s: Search)
    ensures s == HorizontalSearch(g, angle, px, py, m)
  {
    var st := HorizontalStart(angle, px, py, m);
    if st.None? {
      return NoHit;
    }
    var start := st.value;
    s := ScanLoop(g, Horizontal, start.x, start.y, start.xstep, start.ystep, start.xoff, start.yoff);
  }

  /** The vertical-line half of castRay. */
  method VerticalLoop(g: Level, angle: real, px: real, py: real, m: MathLib) returns (s: Search)
    ensures s == VerticalSearch(g, angle, px, py, m)
  {
    var start := VerticalStart(angle, px, py, m);
    s := ScanLoop(g, Vertical, start.x, start.y, start.xstep, start.ystep, start.xoff, start.yoff);
  }

  /** castRay: the two search loops and the resolution, for one column. */
  method CastRay(g: Level, rayAngle: real, px: real, py: real, m: MathLib) returns (r: Ray)
    requires ValidMath(m)
    ensures r == CastRayResult(g, rayAngle, px, py, m)
  {
    var angle := NormalizeAngle(rayAngle);
    var horz := HorizontalLoop(g, angle, px, py, m);
    var vert := VerticalLoop(g, angle, px, py, m);
    r := Resolve(angle, horz, vert, px, py, m);
  }

  /** ray.c's angle for column col: the projection-plane-correct sweep, before normalization. */
  function ProjectionAngle(rotationAngle: real, col: int, m: MathLib): real
    requires ValidMath(m)
  {
    rotationAngle + m.atan((col - HALF_NUM_RAYS) as real / DistProjPlane(m))
  }

  /** The centre column looks exactly along the player's facing angle. */
  lemma CenterColumnAngle(g: Level, rotationAngle: real, px: real, py: real, m: MathLib)
    requires ValidMath(m)
    ensures ProjectionAngle(rotationAngle, HALF_NUM_RAYS, m) == rotationAngle
    ensures CastRayResult(g, ProjectionAngle(rotationAngle, HALF_NUM_RAYS, m), px, py, m).rayAngle
            == NormalizeAngle(rotationAngle)
  {
    assert (HALF_NUM_RAYS - HALF_NUM_RAYS) as real / DistProjPlane(m) == 0.0;
  }

  /** The ray ray.c's castAllRays casts for column col. */
  function ColumnRay(g: Level, rotationAngle: real, col: int, px: real, py: real, m: MathLib): Ray
    requires ValidMath(m)
  {
    CastRayResult(g, ProjectionAngle(rotationAngle, col, m), px, py, m)
  }

  /** castAllRays (ray.c): one cast per column, each written to its own slot. */
  method CastAllRays(g: Level, player: Player, rays: array<Ray>, m: MathLib)
    requires ValidMath(m)
    requires rays.Length == NUM_RAYS
    modifies rays
    ensures forall col :: 0 <= col < NUM_RAYS ==>
              rays[col] == CastRayResult(g, ProjectionAngle(player.rotationAngle, col, m), player.x, player.y, m)
  {
    var rotationAngle, px, py := player.rotationAngle, player.x, player.y;
    for col := 0 to NUM_RAYS
      invariant forall c :: 0 <= c < col ==> rays[c] == ColumnRay(g, rotationAngle, c, px, py, m)
    {
      var ray := CastColumn(g, rotationAngle, col, px, py, m);
      rays[col] := ray;
    }
  }

  /** The body of castAllRays' loop: column col's angle, then its cast. */
  method CastColumn(g: Level, rotationAngle: real, col: int, px: real, py: real, m: MathLib) returns (ray: Ray)
    requires ValidMath(m)
    ensures ray == ColumnRay(g, rotationAngle, col, px, py, m)
  {
    var rayAngle := rotationAngle + m.atan((col - HALF_NUM_RAYS) as real / DistProjPlane(m));
    ray := CastRay(g, rayAngle, px, py, m);
  }
}
