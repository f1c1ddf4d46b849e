// main.c: the single-file caster. Its map table, mapHasWallAt, movePlayer
// and castRay are the ones the Grid, PlayerMotion and RayCaster modules
// model; this module holds what main.c does differently: the linear ray
// sweep, the column-major buffer clear on a 1280 x 832 buffer, the
// player's start at the centre of that buffer, and the frame's order of
// drawing, presenting and clearing.

module MainCaster {
  import opened Numerics
  import opened Grid
  import opened Graphics
  import opened PlayerMotion
  import opened RayCaster
  import opened Wall
  import opened Utils

  /** main.c's buffer height: MAP_NUM_ROWS * TILE_SIZE. */
  const SCREEN_HEIGHT: nat := 832

  /** The colour render clears the buffer to after presenting it. */
  const CLEAR_COLOR: Color := 0xFF000000

  /** The angle main.c's castAllRays passes for strip stripId: FOV / NUM_RAYS apart from rotationAngle - FOV / 2. */
  function SweepAngle(rotationAngle: real, stripId: int): real {
    rotationAngle - FOV / 2.0 + stripId as real * (FOV / NUM_RAYS as real)
  }

  /**
   * The sweep spans the field of view: consecutive strips are FOV / NUM_RAYS
   * apart, the first looks FOV / 2 left of the facing angle, every strip
   * stays inside the half-open field of view and the middle strip looks
   * straight along the facing angle.
   */
  lemma SweepSpansFieldOfView(rotationAngle: real, stripId: int)
    requires 0 <= stripId < NUM_RAYS
    ensures SweepAngle(rotationAngle, 0) == rotationAngle - HALF_FOV
    ensures SweepAngle(rotationAngle, stripId + 1) - SweepAngle(rotationAngle, stripId) == FOV / NUM_RAYS as real
    ensures rotationAngle - HALF_FOV <= SweepAngle(rotationAngle, stripId) < rotationAngle + HALF_FOV
    ensures SweepAngle(rotationAngle, HALF_NUM_RAYS) == rotationAngle
  {
    var step := FOV / NUM_RAYS as real;
    assert step > 0.0;
    assert stripId as real * step < NUM_RAYS as real * step == FOV by {
      assert stripId as real < NUM_RAYS as real;
    }
  }

  /** Advancing the float angle by FOV / NUM_RAYS moves it to the next strip's angle. */
  lemma SweepStep(rotationAngle: real, stripId: int)
    ensures SweepAngle(rotationAngle, stripId) + FOV / NUM_RAYS as real == SweepAngle(rotationAngle, stripId + 1)
  {
  }

  /** The middle strip's ray carries the normalized facing angle. */
  lemma SweepCentreRay(g: Level, rotationAngle: real, px: real, py: real, m: MathLib)
    requires ValidMath(m)
    ensures CastRayResult(g, SweepAngle(rotationAngle, HALF_NUM_RAYS), px, py, m).rayAngle
            == NormalizeAngle(rotationAngle)
  {
    SweepSpansFieldOfView(rotationAngle, HALF_NUM_RAYS);
  }

  /** The ray main.c's sweep casts for strip stripId. */
  function SweepRay(g: Level, rotationAngle: real, stripId: int, px: real, py: real, m: MathLib): Ray
    requires ValidMath(m)
  {
    CastRayResult(g, SweepAngle(rotationAngle, stripId), px, py, m)
  }

  /**
   * castAllRays (main.c): one float angle, advanced by FOV / NUM_RAYS after
   * every strip; strip stripId is cast at its sweep angle and stored in its
   * own slot.
   */
  method CastAllRaysSweep(g: Level, player: Player, rays: array<Ray>, m: MathLib)
    requires ValidMath(m) && rays.Length == NUM_RAYS
    modifies rays
    ensures forall stripId :: 0 <= stripId < NUM_RAYS ==>
              rays[stripId] == CastRayResult(g, SweepAngle(player.rotationAngle, stripId), player.x, player.y, m)
  {
    var rotationAngle, px, py := player.rotationAngle, player.x, player.y;
    var rayAngle := rotationAngle - FOV / 2.0;
    var stripId := 0;
    while stripId < NUM_RAYS
      invariant 0 <= stripId <= NUM_RAYS
      invariant rayAngle == SweepAngle(rotationAngle, stripId)
      invariant forall c :: 0 <= c < stripId ==> rays[c] == SweepRay(g, rotationAngle, c, px, py, m)
    {
      var ray := CastStrip(g, rotationAngle, stripId, rayAngle, px, py, m);
      rays[stripId] := ray;
      SweepStep(rotationAngle, stripId);
      stripId, rayAngle := stripId + 1, rayAngle + FOV / NUM_RAYS as real;
    }
  }

  /** castRay for one strip of the sweep, given the strip's accumulated angle. */
  method CastStrip(g: Level, rotationAngle: real, stripId: int, rayAngle: real, px: real, py: real, m: MathLib)
    returns (ray: Ray)
    requires ValidMath(m) && rayAngle == SweepAngle(rotationAngle, stripId)
    ensures ray == SweepRay(g, rotationAngle, stripId, px, py, m)
  {
    ray := CastRay(g, rayAngle, px, py, m);
  }

  /**
   * update: move the player by one tick, then cast every strip from where it
   * now stands and the way it now faces. The tick's length is a parameter.
   */
  method Update(g: Level, player: Player, rays: array<Ray>, deltaTime: real, m: MathLib)
    requires ValidMath(m) && rays.Length == NUM_RAYS
    modifies player`rotationAngle, player`x, player`y, rays
    ensures player.rotationAngle == old(player.rotationAngle) + player.turnDirection as real * player.turnSpeed * deltaTime
    ensures (player.x, player.y)
            == Moved(g, old(player.x), old(player.y), player.rotationAngle, player.walkDirection, player.walkSpeed, deltaTime, m)
    ensures forall stripId :: 0 <= stripId < NUM_RAYS ==>
              rays[stripId] == CastRayResult(g, SweepAngle(player.rotationAngle, stripId), player.x, player.y, m)
  {
    player.MovePlayer(g, deltaTime, m);
    CastAllRaysSweep(g, player, rays, m);
  }

  /**
   * setup: main.c's player starts at the centre of its 1280 x 832 buffer
   * (WINDOW_HEIGHT >> 1 == 416), and the buffer is calloc'd, so every slot
   * starts at zero.
   */
  method Setup() returns (player: Player, buf: ColorBuffer)
    ensures fresh(player) && fresh(buf) && fresh(buf.pixels)
    ensures player.x == 640.0 && player.y == 416.0
    ensures player.walkSpeed == 100.0 && player.turnSpeed == 90.0 * (PI / 180.0)
    ensures player.rotationAngle == PI / 2.0
    ensures player.turnDirection == 0 && player.walkDirection == 0
    ensures buf.Valid() && buf.height == SCREEN_HEIGHT
    ensures forall k :: 0 <= k < buf.pixels.Length ==> buf.pixels[k] == 0
  {
    player := new Player();
    player.y := (SCREEN_HEIGHT / 2) as real;
    buf := new ColorBuffer(SCREEN_HEIGHT);
  }

  /**
   * clearColorBuffer (main.c): column by column, each top to bottom, every
   * slot W * y + x of the buffer takes the clear colour. Its writes are
   * those of a full-screen rectangle, so every slot ends in the clear colour.
   */
  method ClearColorBufferColumns(buf: ColorBuffer, clearColor: Color)
    requires buf.Valid()
    modifies buf.pixels
    ensures buf.pixels[..] == Apply(old(buf.pixels[..]), RectColumns(0, WINDOW_WIDTH, 0, buf.height, clearColor))
    ensures forall k :: 0 <= k < buf.pixels.Length ==> buf.pixels[k] == clearColor
  {
    ghost var before := buf.pixels[..];
    for x := 0 to WINDOW_WIDTH
      invariant buf.pixels[..] == Apply(before, RectColumns(0, x, 0, buf.height, clearColor))
    {
      ClearColumn(buf, x, clearColor, before);
    }
    ScreenRectFills(before, buf.height, clearColor);
    assert buf.pixels[..] == seq(|before|, _ => clearColor);
    forall k | 0 <= k < buf.pixels.Length
      ensures buf.pixels[k] == clearColor
    {
      assert buf.pixels[k] == buf.pixels[..][k];
    }
  }

  /** The inner loop of clearColorBuffer: column x, rows 0 to height - 1. */
  method ClearColumn(buf: ColorBuffer, x: int, clearColor: Color, ghost before: seq<Color>)
    requires buf.Valid() && 0 <= x < WINDOW_WIDTH
    requires buf.pixels[..] == Apply(before, RectColumns(0, x, 0, buf.height, clearColor))
    modifies buf.pixels
    ensures buf.pixels[..] == Apply(before, RectColumns(0, x + 1, 0, buf.height, clearColor))
  {
    ghost var done := RectColumns(0, x, 0, buf.height, clearColor);
    assert Apply(before, done + ColumnRun(x, 0, 0, clearColor)) == buf.pixels[..] by {
      assert done + ColumnRun(x, 0, 0, clearColor) == done;
    }
    for y := 0 to buf.height
      invariant buf.pixels[..] == Apply(before, done + ColumnRun(x, 0, y, clearColor))
    {
      IndexOnScreen(x, y, buf.height);
      ColumnStep(before, done, x, 0, y, clearColor);
      buf.pixels[WINDOW_WIDTH * y + x] := clearColor;
    }
  }

  /** The wall projection of the rays drawn over a buffer of main.c's height. */
  function WallFrame(before: seq<Color>, rays: seq<Ray>, rotationAngle: real, textures: seq<Texture>, m: MathLib)
    : seq<Color>
    requires ValidMath(m) && |rays| == NUM_RAYS && ColumnsReady(rays, |rays|, rotationAngle, textures, SCREEN_HEIGHT, m)
  {
    Apply(before, ProjectionWrites(ColumnStrips(rays, rotationAngle, textures, SCREEN_HEIGHT, m), NUM_RAYS, SCREEN_HEIGHT))
  }

  /**
   * generate3DProjection: renderWallProjection's strips, written straight
   * into main.c's 1280 x 832 buffer.
   */
  method Generate3DProjection(buf: ColorBuffer, rays: array<Ray>, rotationAngle: real,
                              textures: seq<Texture>, m: MathLib)
    requires ValidMath(m) && buf.Valid() && buf.height == SCREEN_HEIGHT && rays.Length == NUM_RAYS
    requires ColumnsReady(rays[..], rays.Length, rotationAngle, textures, SCREEN_HEIGHT, m)
    modifies buf.pixels
    ensures buf.pixels[..] == WallFrame(old(buf.pixels[..]), rays[..], rotationAngle, textures, m)
  {
    RenderWallProjection(buf, rays, rotationAngle, textures, m);
  }

  /**
   * render's use of the buffer: draw the walls, hand the buffer over for
   * presenting, then clear it. The presented frame is the wall projection;
   * the buffer is left black for the next frame.
   */
  method RenderFrame(buf: ColorBuffer, rays: array<Ray>, rotationAngle: real, textures: seq<Texture>, m: MathLib)
    returns (frame: seq<Color>)
    requires ValidMath(m) && buf.Valid() && buf.height == SCREEN_HEIGHT && rays.Length == NUM_RAYS
    requires ColumnsReady(rays[..], rays.Length, rotationAngle, textures, SCREEN_HEIGHT, m)
    modifies buf.pixels
    ensures frame == WallFrame(old(buf.pixels[..]), old(rays[..]), rotationAngle, textures, m)
    ensures forall k :: 0 <= k < buf.pixels.Length ==> buf.pixels[k] == CLEAR_COLOR
  {
    Generate3DProjection(buf, rays, rotationAngle, textures, m);
    frame := buf.pixels[..];
    ClearColorBufferColumns(buf, CLEAR_COLOR);
  }
}
