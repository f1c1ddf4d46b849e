// wall.c: renderWallProjection. Each screen column gets one vertical strip:
// ceiling above the projected wall, floor below it, texels of the wall's
// texture in between. main.c's generate3DProjection has the same body over
// its own buffer; the buffer's row count is the screen height H here.

module Wall {
  import opened Numerics
  import opened Utils
  import opened Grid
  import opened Graphics
  import opened RayCaster

  /** A decoded wall texture: width * height ARGB texels, row by row. */
  datatype Texture = Texture(width: nat, height: nat, texels: seq<Color>)

  /** The texture holds all its texels, has a row, and offX is one of its columns. */
  predicate TextureReady(t: Texture, offX: int) {
    |t.texels| == t.width * t.height && t.height > 0 && 0 <= offX < t.width
  }

  /** The hit distance projected on the facing direction (no fisheye). */
  function PerpDistance(r: Ray, rotationAngle: real, m: MathLib): real {
    r.distance * m.cos(r.rayAngle - rotationAngle)
  }

  const INT32_MIN: int := -0x8000_0000
  const INT32_MAX: int := 0x7FFF_FFFF

  predicate InInt32(v: int) {
    INT32_MIN <= v <= INT32_MAX
  }

  /** projectedWallHeight: TILE_SIZE / perpDistance * DIST_PROJ_PLANE, with the sign of the distance. */
  function ProjectedHeight(perpDistance: real, m: MathLib): (p: real)
    requires ValidMath(m) && perpDistance != 0.0
    ensures perpDistance > 0.0 ==> p > 0.0
    ensures perpDistance < 0.0 ==> p < 0.0
  {
    var q := TILE / perpDistance;
    assert perpDistance > 0.0 ==> q > 0.0;
    assert perpDistance < 0.0 ==> q < 0.0;
    q * DistProjPlane(m)
  }

  /**
   * wallStripHeight as written: `(int)` of the projected height. C leaves
   * the conversion undefined when the value does not fit in an int, and at
   * a zero distance the height is infinite: None in both cases.
   */
  function StripHeightAsWritten(perpDistance: real, m: MathLib): (r: Option<int>)
    requires ValidMath(m)
    ensures r.None? <==> perpDistance == 0.0 || !InInt32(Trunc(ProjectedHeight(perpDistance, m)))
    ensures r.Some? ==> InInt32(r.value)
    ensures r.Some? && perpDistance > 0.0 ==> r.value >= 0
  {
    if perpDistance == 0.0 then None
    else
      var sh := Trunc(ProjectedHeight(perpDistance, m));
      if InInt32(sh) then Some(sh) else None
  }

  /**
   * wallStripHeight with a saturating conversion: a height beyond the int
   * range, including the infinite one at distance 0, becomes the nearest
   * int. It agrees with the code wherever the code's conversion is defined.
   */
  function StripHeight(perpDistance: real, m: MathLib): (sh: int)
    requires ValidMath(m)
    ensures InInt32(sh)
    ensures perpDistance >= 0.0 ==> sh >= 0
    ensures perpDistance == 0.0 ==> sh == INT32_MAX
    ensures StripHeightAsWritten(perpDistance, m).Some? ==> sh == StripHeightAsWritten(perpDistance, m).value
  {
    if perpDistance == 0.0 then INT32_MAX
    else
      var sh := Trunc(ProjectedHeight(perpDistance, m));
      if sh > INT32_MAX then INT32_MAX else if sh < INT32_MIN then INT32_MIN else sh
  }

  /**
   * The code's conversion is reached undefined. A player on the open grid
   * line y = 64 at x = 640 (the cell below is empty) looking up at an angle
   * with a non-zero tangent finds row 0's wall at its own position: the
   * ray's distance is 0, so the projected height is infinite.
   */
  lemma DistanceZeroRay(a: real, rotationAngle: real, m: MathLib)
    requires ValidMath(m) && PI < a < TWO_PI && m.tan(a) != 0.0
    ensures !HasWallAt(MAP, 640.0, 64.0)
    ensures var r := CastRayResult(MAP, a, 640.0, 64.0, m);
            && r.distance == 0.0
            && StripHeightAsWritten(PerpDistance(r, rotationAngle, m), m).None?
            && StripHeight(PerpDistance(r, rotationAngle, m), m) == INT32_MAX
  {
    assert GridIndex(64.0) == 1 && GridIndex(640.0) == 10 && GridIndex(63.0) == 0;
    CongruentInRangeEqual(NormalizeAngle(a), a);
    var st := HorizontalStart(a, 640.0, 64.0, m);
    assert st.value.y == 64.0 && st.value.x == 640.0;
    assert HasWallAt(MAP, 640.0, 63.0);
    var h := HorizontalSearch(MAP, a, 640.0, 64.0, m);
    assert h == Search(true, 640.0, 64.0, ContentAt(MAP, 640.0, 63.0));
    DistanceToSelfIsZero(m, 640.0, 64.0);
    CastRayResolution(MAP, a, 640.0, 64.0, m);
  }

  /**
   * Near a wall the code's conversion overflows: at perpendicular distance
   * 0.00001 and a field of view no wider than 90 degrees the projected
   * height exceeds the int range, and the saturating height is INT_MAX.
   */
  lemma StripHeightOverflows(m: MathLib)
    requires ValidMath(m) && m.tan(HALF_FOV) <= 1.0
    ensures StripHeightAsWritten(0.00001, m).None?
    ensures StripHeight(0.00001, m) == INT32_MAX
  {
    var d := DistProjPlane(m);
    var t := m.tan(HALF_FOV);
    assert d * t == 640.0;
    var slack := 1.0 - t;
    assert slack >= 0.0 && d > 0.0;
    assert d * slack >= 0.0;
    assert d * t + d * slack == d;
    var p := ProjectedHeight(0.00001, m);
    assert TILE / 0.00001 == 6400000.0;
    assert p == 6400000.0 * d;
    assert p >= 4096000000.0;
    assert Trunc(p) > INT32_MAX;
  }

  /** wallTopPixel before clamping: (H >> 1) - (sh >> 1); `/ 2` floors as the shift does. */
  function StripTop(sh: int, h: int): int {
    h / 2 - sh / 2
  }

  /** wallBottomPixel before clamping: (H >> 1) + (sh >> 1). */
  function StripBottom(sh: int, h: int): int {
    h / 2 + sh / 2
  }

  /** wallTopPixel after clamping at 0. */
  function WallTop(sh: int, h: int): int {
    if StripTop(sh, h) < 0 then 0 else StripTop(sh, h)
  }

  /** wallBottomPixel after clamping at H. */
  function WallBottom(sh: int, h: int): int {
    if StripBottom(sh, h) > h then h else StripBottom(sh, h)
  }

  /** The ceiling is drawn (rows above the unclamped top) only when that top is not negative. */
  predicate CeilingRow(y: int, sh: int, h: int) {
    0 <= StripTop(sh, h) && 0 <= y < StripTop(sh, h)
  }

  /** The floor is drawn (rows from the unclamped bottom down) only when that bottom is not past H. */
  predicate FloorRow(y: int, sh: int, h: int) {
    StripBottom(sh, h) <= h && StripBottom(sh, h) <= y < h
  }

  predicate WallRow(y: int, sh: int, h: int) {
    WallTop(sh, h) <= y < WallBottom(sh, h)
  }

  /**
   * The clamped bounds lie on screen, and the wall rows are exactly the
   * rows of the projected strip that lie on screen.
   */
  lemma WallRowsClamped(sh: int, h: int, y: int)
    requires h >= 0
    ensures 0 <= WallTop(sh, h) && WallBottom(sh, h) <= h
    ensures WallRow(y, sh, h) <==> StripTop(sh, h) <= y < StripBottom(sh, h) && 0 <= y < h
  {
  }

  /**
   * For a non-negative strip height every row of the column is exactly one
   * of ceiling, floor and wall.
   */
  lemma StripRowsPartition(sh: int, h: int, y: int)
    requires sh >= 0 && 0 <= y < h
    ensures CeilingRow(y, sh, h) || FloorRow(y, sh, h) || WallRow(y, sh, h)
    ensures !(CeilingRow(y, sh, h) && FloorRow(y, sh, h))
    ensures !(CeilingRow(y, sh, h) && WallRow(y, sh, h))
    ensures !(FloorRow(y, sh, h) && WallRow(y, sh, h))
  {
  }

  /** No ceiling or floor row of a strip lies off screen (drawPixel does no bounds check). */
  predicate StripOnScreen(sh: int, h: int) {
    StripTop(sh, h) <= h && StripBottom(sh, h) >= 0
  }

  /** A non-negative strip height keeps every ceiling and floor row on screen. */
  lemma NonNegativeStripOnScreen(sh: int, h: int)
    requires sh >= 0 && h >= 0
    ensures StripOnScreen(sh, h)
  {
  }

  /** texNum: the content code minus one, kept in a uint8_t (modulo 256). */
  function TexNum(content: int): (n: int)
    ensures 0 <= n < 256
    ensures (n - (content - 1)) % 256 == 0
  {
    (content - 1) % 256
  }

  /** A wall code selects the texture one below it; the empty code 0 wraps to 255. */
  lemma TexNumOfCode(content: int)
    requires 0 <= content <= 256
    ensures content >= 1 ==> TexNum(content) == content - 1
    ensures content == 0 ==> TexNum(content) == 255
  {
  }

  /** textureOffsetX: the truncated hit coordinate along the wall, C-`%` TILE_SIZE. */
  function TextureOffsetX(r: Ray): int {
    CRem(Trunc(if r.wasHitVertical then r.wallHitY else r.wallHitX), TILE_SIZE)
  }

  /**
   * For a hit at non-negative coordinates the texture column is the hit's
   * column within its tile: in [0, TILE_SIZE) and congruent to the truncated
   * coordinate along the wall.
   */
  lemma TextureOffsetXInTile(r: Ray)
    requires r.wallHitX >= 0.0 && r.wallHitY >= 0.0
    ensures 0 <= TextureOffsetX(r) < TILE_SIZE
    ensures (Trunc(if r.wasHitVertical then r.wallHitY else r.wallHitX) - TextureOffsetX(r)) % TILE_SIZE == 0
  {
    var c := Trunc(if r.wasHitVertical then r.wallHitY else r.wallHitX);
    assert c >= 0;
    assert c - c % TILE_SIZE == TILE_SIZE * (c / TILE_SIZE);
  }

  /** Every ray castRay stores has a texture column inside the tile. */
  lemma CastTextureOffsetX(g: Level, rayAngle: real, px: real, py: real, m: MathLib)
    requires ValidMath(m)
    ensures 0 <= TextureOffsetX(CastRayResult(g, rayAngle, px, py, m)) < TILE_SIZE
  {
    CastRayHitInBox(g, rayAngle, px, py, m);
    TextureOffsetXInTile(CastRayResult(g, rayAngle, px, py, m));
  }

  /** distanceFromTop: how far row y lies below the top of the unclamped strip. */
  function DistanceFromTop(y: int, sh: int, h: int): (d: int)
    requires StripTop(sh, h) <= y < StripBottom(sh, h)
    ensures 0 <= d < sh
  {
    (y + sh / 2) - h / 2
  }

  /** A fraction d / s below one scales t to below t. */
  lemma FractionBelow(d: real, s: real, t: real)
    requires 0.0 <= d < s && 0.0 <= t
    ensures 0.0 <= d * (t / s)
    ensures t > 0.0 ==> d * (t / s) < t
  {
    var q := t / s;
    assert q >= 0.0;
    assert s * q == t;
    if t > 0.0 {
      assert q > 0.0;
      assert d * q < s * q;
    }
  }

  /** textureOffsetY: distanceFromTop scaled by texture height / strip height; a row of the texture. */
  function TextureOffsetY(y: int, sh: int, h: int, th: nat): (offY: int)
    requires StripTop(sh, h) <= y < StripBottom(sh, h)
    ensures 0 <= offY && (th > 0 ==> offY < th)
  {
    var d := DistanceFromTop(y, sh, h);
    FractionBelow(d as real, sh as real, th as real);
    Trunc(d as real * (th as real / sh as real))
  }

  /** The row-major texel slot of (offX, offY) lies inside a width * height texture. */
  lemma TexelIndexInRange(w: nat, ht: nat, offX: int, offY: int)
    requires 0 <= offX < w && 0 <= offY < ht
    ensures 0 <= w * offY + offX < w * ht
  {
    assert w * offY <= w * (ht - 1) by {
      assert w * (ht - 1) - w * offY == w * (ht - 1 - offY);
    }
    assert w * (ht - 1) == w * ht - w;
  }

  /** The texel the wall strip shows in row y. */
  function WallTexel(y: int, sh: int, h: int, offX: int, t: Texture): Color
    requires TextureReady(t, offX) && StripTop(sh, h) <= y < StripBottom(sh, h)
  {
    var offY := TextureOffsetY(y, sh, h, t.height);
    TexelIndexInRange(t.width, t.height, offX, offY);
    t.texels[t.width * offY + offX]
  }

  /** The ceiling loop's writes. */
  function CeilingWrites(x: int, sh: int, h: int): seq<Write> {
    if StripTop(sh, h) < 0 then [] else ColumnRun(x, 0, StripTop(sh, h), CEILING_COLOR)
  }

  /** The floor loop's writes. */
  function FloorWrites(x: int, sh: int, h: int): seq<Write> {
    if StripBottom(sh, h) > h then [] else ColumnRun(x, StripBottom(sh, h), h, FLOOR_COLOR)
  }

  /** The wall loop's writes over rows y0 to y1 - 1 of the strip, top to bottom. */
  function WallRun(x: int, y0: int, y1: int, sh: int, h: int, offX: int, t: Texture): (ws: seq<Write>)
    requires y0 < y1 ==> TextureReady(t, offX) && StripTop(sh, h) <= y0 && y1 <= StripBottom(sh, h)
  {
    if y0 < y1 then seq(y1 - y0, i requires 0 <= i < y1 - y0 => Write(x, y0 + i, WallTexel(y0 + i, sh, h, offX, t)))
    else []
  }

  lemma WallRunExtend(x: int, y0: int, y1: int, sh: int, h: int, offX: int, t: Texture)
    requires y0 <= y1 && TextureReady(t, offX) && StripTop(sh, h) <= y0 && y1 < StripBottom(sh, h)
    ensures WallRun(x, y0, y1 + 1, sh, h, offX, t)
            == WallRun(x, y0, y1, sh, h, offX, t) + [Write(x, y1, WallTexel(y1, sh, h, offX, t))]
  {
  }

  /** The texture must be usable when some wall row is drawn. */
  predicate StripTextureReady(sh: int, h: int, offX: int, t: Texture) {
    WallTop(sh, h) < WallBottom(sh, h) ==> TextureReady(t, offX)
  }

  /** All writes of one column, in the order of the three loops: ceiling, floor, wall. */
  function StripWrites(x: int, sh: int, h: int, offX: int, t: Texture): seq<Write>
    requires StripTextureReady(sh, h, offX, t)
  {
    CeilingWrites(x, sh, h) + FloorWrites(x, sh, h) + WallRun(x, WallTop(sh, h), WallBottom(sh, h), sh, h, offX, t)
  }

  /**
   * The colour row y of the column shows once its strip is drawn over a
   * pixel that held `before`: the wall wins over the floor, the floor over
   * the ceiling, and a row none of them covers keeps its colour.
   */
  function StripColor(y: int, sh: int, h: int, offX: int, t: Texture, before: Color): Color
    requires StripTextureReady(sh, h, offX, t)
  {
    if WallRow(y, sh, h) then WallTexel(y, sh, h, offX, t)
    else if FloorRow(y, sh, h) then FLOOR_COLOR
    else if CeilingRow(y, sh, h) then CEILING_COLOR
    else before
  }

  /** Every strip write targets column x on screen. */
  lemma StripWritesOnScreen(x: int, sh: int, h: int, offX: int, t: Texture)
    requires 0 <= x < WINDOW_WIDTH && h >= 0 && StripOnScreen(sh, h) && StripTextureReady(sh, h, offX, t)
    ensures AllOnScreen(StripWrites(x, sh, h, offX, t), h)
    ensures forall i :: 0 <= i < |StripWrites(x, sh, h, offX, t)| ==> StripWrites(x, sh, h, offX, t)[i].x == x
  {
  }

  /** With a non-negative height the strip writes exactly H pixels, one per row. */
  lemma StripWriteCount(x: int, sh: int, h: int, offX: int, t: Texture)
    requires sh >= 0 && h >= 0 && StripTextureReady(sh, h, offX, t)
    ensures |StripWrites(x, sh, h, offX, t)| == h
  {
  }

  /** In a run of writes down column x from row y0, slot (px, py) is written only by the write of row py. */
  lemma {:induction false} LastWriteRun(ws: seq<Write>, x: int, y0: int, h: int, px: int, py: int)
    requires 0 <= x < WINDOW_WIDTH && (ws != [] ==> 0 <= y0 && y0 + |ws| <= h)
    requires forall i :: 0 <= i < |ws| ==> ws[i].x == x && ws[i].y == y0 + i
    requires OnScreen(px, py, h)
    ensures LastWrite(ws, Index(px, py))
            == if px == x && y0 <= py < y0 + |ws| then Some(ws[py - y0].color) else None
    decreases |ws|
  {
    if ws != [] {
      var init := ws[..|ws| - 1];
      LastWriteRun(init, x, y0, h, px, py);
      var last := ws[|ws| - 1];
      if Index(last.x, last.y) == Index(px, py) {
        IndexInjective(last.x, last.y, px, py, h);
      }
    }
  }

  /** The ceiling loop writes slot (px, py) exactly when it is a ceiling row of column x. */
  lemma CeilingLastWrite(x: int, sh: int, h: int, px: int, py: int)
    requires 0 <= x < WINDOW_WIDTH && StripOnScreen(sh, h) && OnScreen(px, py, h)
    ensures LastWrite(CeilingWrites(x, sh, h), Index(px, py))
            == if px == x && CeilingRow(py, sh, h) then Some(CEILING_COLOR) else None
  {
    var c := CeilingWrites(x, sh, h);
    LastWriteRun(c, x, 0, h, px, py);
    if px == x && CeilingRow(py, sh, h) {
      assert c[py].color == CEILING_COLOR;
    }
  }

  /** The floor loop writes slot (px, py) exactly when it is a floor row of column x. */
  lemma FloorLastWrite(x: int, sh: int, h: int, px: int, py: int)
    requires 0 <= x < WINDOW_WIDTH && StripOnScreen(sh, h) && OnScreen(px, py, h)
    ensures LastWrite(FloorWrites(x, sh, h), Index(px, py))
            == if px == x && FloorRow(py, sh, h) then Some(FLOOR_COLOR) else None
  {
    var f := FloorWrites(x, sh, h);
    LastWriteRun(f, x, StripBottom(sh, h), h, px, py);
    if px == x && FloorRow(py, sh, h) {
      assert f[py - StripBottom(sh, h)].color == FLOOR_COLOR;
    }
  }

  /** The wall loop writes slot (px, py) exactly when it is a wall row of column x, with that row's texel. */
  lemma WallLastWrite(x: int, sh: int, h: int, offX: int, t: Texture, px: int, py: int)
    requires 0 <= x < WINDOW_WIDTH && h >= 0 && StripTextureReady(sh, h, offX, t) && OnScreen(px, py, h)
    ensures LastWrite(WallRun(x, WallTop(sh, h), WallBottom(sh, h), sh, h, offX, t), Index(px, py))
            == if px == x && WallRow(py, sh, h) then Some(WallTexel(py, sh, h, offX, t)) else None
  {
    var w := WallRun(x, WallTop(sh, h), WallBottom(sh, h), sh, h, offX, t);
    LastWriteRun(w, x, WallTop(sh, h), h, px, py);
    if px == x && WallRow(py, sh, h) {
      assert w[py - WallTop(sh, h)].color == WallTexel(py, sh, h, offX, t);
    }
  }

  /**
   * Drawing the strip of column x sets each pixel of that column to its
   * StripColor and leaves every other column as it was.
   */
  lemma StripApply(buf: seq<Color>, x: int, sh: int, offX: int, t: Texture, px: int, py: int, h: int)
    requires |buf| == WINDOW_WIDTH * h && 0 <= x < WINDOW_WIDTH
    requires StripOnScreen(sh, h) && StripTextureReady(sh, h, offX, t)
    requires OnScreen(px, py, h)
    ensures Apply(buf, StripWrites(x, sh, h, offX, t))[Index(px, py)]
            == if px == x then StripColor(py, sh, h, offX, t, buf[Index(px, py)]) else buf[Index(px, py)]
  {
    var k := Index(px, py);
    IndexOnScreen(px, py, h);
    var c, f := CeilingWrites(x, sh, h), FloorWrites(x, sh, h);
    var w := WallRun(x, WallTop(sh, h), WallBottom(sh, h), sh, h, offX, t);
    CeilingLastWrite(x, sh, h, px, py);
    FloorLastWrite(x, sh, h, px, py);
    WallLastWrite(x, sh, h, offX, t, px, py);
    LastWriteAppend(c, f, k);
    LastWriteAppend(c + f, w, k);
    ApplyAt(buf, c + f + w, k);
  }

  /** With a non-negative height the strip's colour for a row does not depend on what was there. */
  lemma StripCoversColumn(y: int, sh: int, h: int, offX: int, t: Texture, b1: Color, b2: Color)
    requires sh >= 0 && 0 <= y < h && StripTextureReady(sh, h, offX, t)
    ensures StripColor(y, sh, h, offX, t, b1) == StripColor(y, sh, h, offX, t, b2)
  {
    StripRowsPartition(sh, h, y);
  }

  /**
   * What renderWallProjection needs of a column's ray: ceiling and floor
   * rows on screen, and, when
   * wall rows are drawn, a content code whose texture exists and has the
   * texture column.
   */
  predicate ColumnReady(r: Ray, rotationAngle: real, textures: seq<Texture>, h: int, m: MathLib)
    requires ValidMath(m)
  {
    var sh := StripHeight(PerpDistance(r, rotationAngle, m), m);
    StripOnScreen(sh, h) &&
    (WallTop(sh, h) < WallBottom(sh, h) ==>
       && r.wallHitContent.Some?
       && TexNum(r.wallHitContent.value) < |textures|
       && TextureReady(textures[TexNum(r.wallHitContent.value)], TextureOffsetX(r)))
  }

  /** The column's strip height. */
  function ColumnHeight(r: Ray, rotationAngle: real, m: MathLib): int
    requires ValidMath(m)
  {
    StripHeight(PerpDistance(r, rotationAngle, m), m)
  }

  /** getTextureAt(texNum); a column without wall rows never reads it, so any texture serves there. */
  function ColumnTexture(r: Ray, rotationAngle: real, textures: seq<Texture>, h: int, m: MathLib): (t: Texture)
    requires ValidMath(m) && ColumnReady(r, rotationAngle, textures, h, m)
    ensures StripTextureReady(ColumnHeight(r, rotationAngle, m), h, TextureOffsetX(r), t)
  {
    var sh := ColumnHeight(r, rotationAngle, m);
    if WallTop(sh, h) < WallBottom(sh, h) then textures[TexNum(r.wallHitContent.value)]
    else Texture(0, 0, [])
  }

  /** A column's strip as renderWallProjection computes it: height, texture column and texture. */
  datatype Strip = Strip(sh: int, offX: int, texture: Texture)

  /** The strip can be drawn: its clamped rows lie on screen and its texture holds the texture column. */
  predicate StripReady(s: Strip, h: int) {
    StripOnScreen(s.sh, h) && StripTextureReady(s.sh, h, s.offX, s.texture)
  }

  /** The strip of a column's ray; a ray not behind the player gives a strip of non-negative height. */
  function ColumnStrip(r: Ray, rotationAngle: real, textures: seq<Texture>, h: int, m: MathLib): (s: Strip)
    requires ValidMath(m) && ColumnReady(r, rotationAngle, textures, h, m)
    ensures StripReady(s, h)
    ensures PerpDistance(r, rotationAngle, m) >= 0.0 ==> s.sh >= 0
  {
    Strip(ColumnHeight(r, rotationAngle, m), TextureOffsetX(r), ColumnTexture(r, rotationAngle, textures, h, m))
  }

  predicate ColumnsReady(rays: seq<Ray>, n: int, rotationAngle: real, textures: seq<Texture>, h: int, m: MathLib)
    requires ValidMath(m)
  {
    0 <= n <= |rays| && forall c :: 0 <= c < n ==> ColumnReady(rays[c], rotationAngle, textures, h, m)
  }

  /** The strips of all columns, one per ray. */
  function ColumnStrips(rays: seq<Ray>, rotationAngle: real, textures: seq<Texture>, h: int, m: MathLib): (ss: seq<Strip>)
    requires ValidMath(m) && ColumnsReady(rays, |rays|, rotationAngle, textures, h, m)
    ensures |ss| == |rays|
    ensures forall c :: 0 <= c < |ss| ==> ss[c] == ColumnStrip(rays[c], rotationAngle, textures, h, m)
  {
    seq(|rays|, c requires 0 <= c < |rays| => ColumnStrip(rays[c], rotationAngle, textures, h, m))
  }

  predicate StripsReady(ss: seq<Strip>, h: int) {
    forall c :: 0 <= c < |ss| ==> StripReady(ss[c], h)
  }

  /** Column x's writes for its strip. */
  function ColumnWrites(x: int, s: Strip, h: int): seq<Write>
    requires StripReady(s, h)
  {
    StripWrites(x, s.sh, h, s.offX, s.texture)
  }

  /** Each column's writes for its strip, column c drawing strip c. */
  function StripColumns(ss: seq<Strip>, h: int): (cols: seq<seq<Write>>)
    requires StripsReady(ss, h)
    ensures |cols| == |ss|
    ensures forall c :: 0 <= c < |ss| ==> cols[c] == ColumnWrites(c, ss[c], h)
  {
    seq(|ss|, c requires 0 <= c < |ss| => ColumnWrites(c, ss[c], h))
  }

  /** Strips for at most one screen's width of columns stay in their own columns, on screen. */
  lemma StripColumnsOnScreen(ss: seq<Strip>, h: int)
    requires |ss| <= WINDOW_WIDTH && h >= 0 && StripsReady(ss, h)
    ensures ColumnsOnScreen(StripColumns(ss, h), h)
  {
    var cols := StripColumns(ss, h);
    forall c | 0 <= c < |cols|
      ensures InColumn(cols[c], c) && AllOnScreen(cols[c], h)
    {
      StripWritesOnScreen(c, ss[c].sh, h, ss[c].offX, ss[c].texture);
    }
  }

  /** The writes of columns 0 to n - 1, left to right. */
  function ProjectionWrites(ss: seq<Strip>, n: int, h: int): seq<Write>
    requires 0 <= n <= |ss| && StripsReady(ss, h)
  {
    Concat(StripColumns(ss, h), n)
  }

  /** Drawing one more column appends that column's writes. */
  lemma ProjectionWritesStep(ss: seq<Strip>, n: int, h: int)
    requires 0 <= n < |ss| && StripsReady(ss, h)
    ensures ProjectionWrites(ss, n + 1, h) == ProjectionWrites(ss, n, h) + ColumnWrites(n, ss[n], h)
  {
  }

  /**
   * After columns 0 to n - 1 are drawn, each pixel of those columns shows
   * its strip's colour over the old pixel, and every other pixel is as it
   * was.
   */
  lemma ProjectionApply(buf: seq<Color>, ss: seq<Strip>, n: int, h: int, px: int, py: int)
    requires 0 <= n <= |ss| && |ss| <= WINDOW_WIDTH && StripsReady(ss, h)
    requires |buf| == WINDOW_WIDTH * h && OnScreen(px, py, h)
    ensures 0 <= Index(px, py) < |buf|
    ensures Apply(buf, ProjectionWrites(ss, n, h))[Index(px, py)]
            == if px < n then StripColor(py, ss[px].sh, h, ss[px].offX, ss[px].texture, buf[Index(px, py)])
               else buf[Index(px, py)]
  {
    StripColumnsOnScreen(ss, h);
    ColumnsApply(buf, StripColumns(ss, h), n, px, py, h);
    if px < n {
      var s := ss[px];
      StripApply(buf, px, s.sh, s.offX, s.texture, px, py, h);
    }
  }

  /** A drawn pixel of a strip of non-negative height ends the same over any old buffer. */
  lemma ProjectionPixelRedrawn(b1: seq<Color>, b2: seq<Color>, ss: seq<Strip>, n: int, h: int, px: int, py: int)
    requires 0 <= n <= |ss| && |ss| <= WINDOW_WIDTH && StripsReady(ss, h)
    requires |b1| == WINDOW_WIDTH * h && |b2| == WINDOW_WIDTH * h && OnScreen(px, py, h) && px < n
    requires ss[px].sh >= 0
    ensures 0 <= Index(px, py) < |b1|
    ensures Apply(b1, ProjectionWrites(ss, n, h))[Index(px, py)] == Apply(b2, ProjectionWrites(ss, n, h))[Index(px, py)]
  {
    var k := Index(px, py);
    var s := ss[px];
    ProjectionApply(b1, ss, n, h, px, py);
    ProjectionApply(b2, ss, n, h, px, py);
    StripCoversColumn(py, s.sh, h, s.offX, s.texture, b1[k], b2[k]);
  }

  /**
   * When the strips cover every column of the screen and none has a
   * negative height, the projection redraws every pixel: the result does
   * not depend on what the buffer held before.
   */
  lemma ProjectionRedraws(b1: seq<Color>, b2: seq<Color>, ss: seq<Strip>, h: int)
    requires |ss| == WINDOW_WIDTH && StripsReady(ss, h)
    requires forall c :: 0 <= c < |ss| ==> ss[c].sh >= 0
    requires |b1| == WINDOW_WIDTH * h && |b2| == WINDOW_WIDTH * h
    ensures Apply(b1, ProjectionWrites(ss, |ss|, h)) == Apply(b2, ProjectionWrites(ss, |ss|, h))
  {
    var ws := ProjectionWrites(ss, |ss|, h);
    forall k | 0 <= k < |b1|
      ensures Apply(b1, ws)[k] == Apply(b2, ws)[k]
    {
      SlotPixel(k, h);
      ProjectionPixelRedrawn(b1, b2, ss, |ss|, h, k % WINDOW_WIDTH, k / WINDOW_WIDTH);
    }
  }

  /**
   * When no column of the screen (one ray each) lies behind the player,
   * the wall projection redraws every pixel.
   */
  lemma ProjectionRedrawsScreen(b1: seq<Color>, b2: seq<Color>, rays: seq<Ray>, rotationAngle: real,
                                textures: seq<Texture>, h: int, m: MathLib)
    requires ValidMath(m) && |rays| == NUM_RAYS && ColumnsReady(rays, |rays|, rotationAngle, textures, h, m)
    requires forall c :: 0 <= c < |rays| ==> PerpDistance(rays[c], rotationAngle, m) >= 0.0
    requires |b1| == WINDOW_WIDTH * h && |b2| == WINDOW_WIDTH * h
    ensures var ss := ColumnStrips(rays, rotationAngle, textures, h, m);
            Apply(b1, ProjectionWrites(ss, |ss|, h)) == Apply(b2, ProjectionWrites(ss, |ss|, h))
  {
    var ss := ColumnStrips(rays, rotationAngle, textures, h, m);
    forall c | 0 <= c < |ss|
      ensures StripReady(ss[c], h) && ss[c].sh >= 0
    {
      assert ss[c] == ColumnStrip(rays[c], rotationAngle, textures, h, m);
    }
    ProjectionRedraws(b1, b2, ss, h);
  }

  /** The wall loop: the texels of rows wallTop to wallBottom - 1 down column x. */
  method DrawWallRun(buf: ColorBuffer, x: int, sh: int, offX: int, t: Texture, wallTop: int, wallBottom: int)
    requires buf.Valid() && 0 <= x < WINDOW_WIDTH && 0 <= wallTop && wallBottom <= buf.height
    requires wallTop < wallBottom ==>
               TextureReady(t, offX) && StripTop(sh, buf.height) <= wallTop && wallBottom <= StripBottom(sh, buf.height)
    modifies buf.pixels
    ensures buf.pixels[..] == Apply(old(buf.pixels[..]), WallRun(x, wallTop, wallBottom, sh, buf.height, offX, t))
  {
    var h := buf.height;
    ghost var before := buf.pixels[..];
    var y := wallTop;
    while y < wallBottom
      invariant wallTop <= y && (y == wallTop || y <= wallBottom)
      invariant buf.pixels[..] == Apply(before, WallRun(x, wallTop, y, sh, h, offX, t))
      decreases wallBottom - y
    {
      var distanceFromTop := DistanceFromTop(y, sh, h);
      var textureOffsetY := TextureOffsetY(y, sh, h, t.height);
      TexelIndexInRange(t.width, t.height, offX, textureOffsetY);
      var texelColor := t.texels[t.width * textureOffsetY + offX];
      buf.DrawPixel(x, y, texelColor);
      WallRunExtend(x, wallTop, y, sh, h, offX, t);
      ApplyOne(before, WallRun(x, wallTop, y, sh, h, offX, t), Write(x, y, texelColor));
      y := y + 1;
    }
  }

  /** One iteration of renderWallProjection's column loop: clamp, then ceiling, floor and wall. */
  method DrawStrip(buf: ColorBuffer, x: int, sh: int, offX: int, t: Texture)
    requires buf.Valid() && 0 <= x < WINDOW_WIDTH
    requires StripOnScreen(sh, buf.height) && StripTextureReady(sh, buf.height, offX, t)
    modifies buf.pixels
    ensures buf.pixels[..] == Apply(old(buf.pixels[..]), StripWrites(x, sh, buf.height, offX, t))
  {
    var h := buf.height;
    ghost var before := buf.pixels[..];

    var wallTopPixel := h / 2 - sh / 2;
    if wallTopPixel < 0 {
      wallTopPixel := 0;
    } else {
      buf.FillColumn(x, 0, wallTopPixel, CEILING_COLOR);
    }
    ghost var ceiling := CeilingWrites(x, sh, h);
    assert buf.pixels[..] == Apply(before, ceiling);

    var wallBottomPixel := h / 2 + sh / 2;
    ghost var mid := buf.pixels[..];
    if wallBottomPixel > h {
      wallBottomPixel := h;
    } else {
      buf.FillColumn(x, wallBottomPixel, h, FLOOR_COLOR);
    }
    ghost var floor := FloorWrites(x, sh, h);
    assert buf.pixels[..] == Apply(mid, floor);
    ApplyAppend(before, ceiling, floor);

    DrawWallRun(buf, x, sh, offX, t, wallTopPixel, wallBottomPixel);
    ApplyAppend(before, ceiling + floor, WallRun(x, wallTopPixel, wallBottomPixel, sh, h, offX, t));
  }

  /** The body of renderWallProjection's column loop for column x and its ray. */
  method DrawColumn(buf: ColorBuffer, x: int, r: Ray, rotationAngle: real, textures: seq<Texture>, m: MathLib)
    requires ValidMath(m) && buf.Valid() && 0 <= x < WINDOW_WIDTH
    requires ColumnReady(r, rotationAngle, textures, buf.height, m)
    modifies buf.pixels
    ensures buf.pixels[..]
            == Apply(old(buf.pixels[..]), ColumnWrites(x, ColumnStrip(r, rotationAngle, textures, buf.height, m), buf.height))
  {
    var perpDistance := r.distance * m.cos(r.rayAngle - rotationAngle);
    assert perpDistance == PerpDistance(r, rotationAngle, m);
    var wallStripHeight := StripHeight(perpDistance, m);
    assert wallStripHeight == ColumnHeight(r, rotationAngle, m);
    var textureOffsetX := TextureOffsetX(r);
    var wallTexture := ColumnTexture(r, rotationAngle, textures, buf.height, m);
    DrawStrip(buf, x, wallStripHeight, textureOffsetX, wallTexture);
  }

  /**
   * renderWallProjection: every column's strip, left to right, drawn into the
   * buffer through drawPixel.
   */
  method RenderWallProjection(buf: ColorBuffer, rays: array<Ray>, rotationAngle: real,
                              textures: seq<Texture>, m: MathLib)
    requires ValidMath(m) && buf.Valid() && rays.Length == NUM_RAYS
    requires ColumnsReady(rays[..], rays.Length, rotationAngle, textures, buf.height, m)
    modifies buf.pixels
    ensures buf.pixels[..]
            == Apply(old(buf.pixels[..]),
                     ProjectionWrites(ColumnStrips(rays[..], rotationAngle, textures, buf.height, m), rays.Length, buf.height))
  {
    ghost var before := buf.pixels[..];
    ghost var ss := ColumnStrips(rays[..], rotationAngle, textures, buf.height, m);
    for x := 0 to rays.Length
      invariant buf.pixels[..] == Apply(before, ProjectionWrites(ss, x, buf.height))
    {
      ghost var prev := ProjectionWrites(ss, x, buf.height);
      DrawColumn(buf, x, rays[x], rotationAngle, textures, m);
      ProjectionWritesStep(ss, x, buf.height);
      ApplyAppend(before, prev, ColumnWrites(x, ss[x], buf.height));
    }
  }
}
