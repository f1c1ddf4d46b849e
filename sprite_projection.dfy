// sprite.c, drawing half of renderSpriteProjection: each visible sprite,
// far to near, is projected as a square and drawn texel by texel wherever
// it is nearer than the wall the column's ray hit.

module SpriteProjection {
  import opened Numerics
  import opened Grid
  import opened Graphics
  import opened RayCaster
  import opened Wall
  import opened Sprites

  /** (float) WINDOW_HEIGHT / 2 and (float) WINDOW_WIDTH / 2 */
  const HALF_HEIGHT: real := 400.0
  const HALF_WIDTH: real := 640.0
  const SCREEN_HEIGHT: real := 800.0

  /** A sprite texture: decoded, with at least one texel. */
  predicate SpriteTextureReady(t: Texture) {
    t.width > 0 && t.height > 0 && |t.texels| == t.width * t.height
  }

  /** perpDistance: the sprite's distance projected on the facing direction. */
  function SpritePerpDistance(s: Sprite, m: MathLib): real {
    s.distance * m.cos(s.angle)
  }

  /** The sprite can be projected: it lies in front of the player and its texture is decoded. */
  predicate SpriteReady(s: Sprite, textures: seq<Texture>, m: MathLib) {
    && SpritePerpDistance(s, m) > 0.0
    && 0 <= s.textureIndex < |textures|
    && SpriteTextureReady(textures[s.textureIndex])
  }

  /** Every sprite of a drawing order can be projected. */
  predicate AllSpritesReady(order: seq<Sprite>, textures: seq<Texture>, m: MathLib) {
    forall i :: 0 <= i < |order| ==> SpriteReady(order[i], textures, m)
  }

  /** The on-screen square of a sprite: its side, the clamped rows and the columns it spans. */
  datatype View = View(size: real, top: real, bottom: real, left: real, right: real)

  /** The top row clamped at 0 and the bottom row at the screen height, around the middle row. */
  predicate WellFormedView(v: View) {
    && v.size > 0.0
    && v.top == (if HALF_HEIGHT - v.size / 2.0 < 0.0 then 0.0 else HALF_HEIGHT - v.size / 2.0)
    && v.bottom == (if HALF_HEIGHT + v.size / 2.0 > SCREEN_HEIGHT then SCREEN_HEIGHT else HALF_HEIGHT + v.size / 2.0)
    && v.right == v.left + v.size
  }

  /**
   * The projection of one sprite: spriteHeight (= spriteWidth), the clamped
   * spriteTopY and spriteBottomY, and spriteLeftX and spriteRightX from the
   * tangent of the sprite's angle to the facing direction.
   */
  function SpriteView(s: Sprite, px: real, py: real, rotationAngle: real, m: MathLib): (v: View)
    requires ValidMath(m) && SpritePerpDistance(s, m) > 0.0
    ensures WellFormedView(v)
    ensures 0.0 <= v.top <= HALF_HEIGHT <= v.bottom <= SCREEN_HEIGHT
  {
    var perp := SpritePerpDistance(s, m);
    assert TILE / perp > 0.0;
    var size := (TILE / perp) * DistProjPlane(m);
    var top := HALF_HEIGHT - size / 2.0;
    var bottom := HALF_HEIGHT + size / 2.0;
    var angle := m.atan2(s.y - py, s.x - px) - rotationAngle;
    var screenPosX := m.tan(angle) * DistProjPlane(m);
    var left := HALF_WIDTH + screenPosX - size / 2.0;
    View(size, if top < 0.0 then 0.0 else top, if bottom > SCREEN_HEIGHT then SCREEN_HEIGHT else bottom,
         left, left + size)
  }

  /** Column x is one the x loop visits: from (int) spriteLeftX while x < spriteRightX. */
  predicate InColumns(v: View, x: int) {
    Trunc(v.left) <= x && x as real < v.right
  }

  /** Row y is one the y loop visits: from (int) spriteTopY while y < spriteBottomY. */
  predicate InRows(v: View, y: int) {
    Trunc(v.top) <= y && y as real < v.bottom
  }

  /** isWithinWindowBounds: strictly inside, so column 0 and row 0 are never drawn. */
  predicate WithinWindowBounds(x: int, y: int) {
    0 < x < WINDOW_WIDTH && 0 < y < WINDOW_HEIGHT
  }

  /** A fraction of a length, scaled from length `size` to length `n`, stays below `n`. */
  lemma ScaledBelow(q: real, size: real, n: real)
    requires 0.0 <= q < size && n > 0.0
    ensures 0.0 <= q * (n / size) < n
  {
    var c := n / size;
    assert c > 0.0;
    assert size * c == n;
    assert q * c < size * c;
  }

  /**
   * textureOffsetX as written: (x - spriteLeftX) * texelWidth, truncated.
   * In the first column the loop starts at (int) spriteLeftX, which can lie
   * left of spriteLeftX, and then this is negative.
   */
  function TextureColumnAsWritten(v: View, t: Texture, x: int): int
    requires v.size > 0.0
  {
    Trunc((x as real - v.left) * (t.width as real / v.size))
  }

  /** In a visited column the unclamped texture column never reaches the texture's width. */
  lemma TextureColumnBelowWidth(v: View, t: Texture, x: int)
    requires WellFormedView(v) && t.width > 0 && InColumns(v, x)
    ensures TextureColumnAsWritten(v, t, x) < t.width
  {
    var q := x as real - v.left;
    var c := t.width as real / v.size;
    assert c > 0.0;
    if q >= 0.0 {
      ScaledBelow(q, v.size, t.width as real);
    } else {
      assert q * c < 0.0;
    }
  }

  /** textureOffsetX clamped at the texture's left edge: always a column of the texture. */
  function TextureColumn(v: View, t: Texture, x: int): (offX: int)
    requires WellFormedView(v) && t.width > 0 && InColumns(v, x)
    ensures 0 <= offX < t.width
  {
    TextureColumnBelowWidth(v, t, x);
    var raw := TextureColumnAsWritten(v, t, x);
    if raw < 0 then 0 else raw
  }

  /** From the column of the sprite's left edge on, the clamp changes nothing. */
  lemma TextureColumnFromLeftEdge(v: View, t: Texture, x: int)
    requires WellFormedView(v) && t.width > 0 && InColumns(v, x) && v.left <= x as real
    ensures TextureColumn(v, t, x) == TextureColumnAsWritten(v, t, x)
  {
    var q := x as real - v.left;
    ScaledBelow(q, v.size, t.width as real);
  }

  /**
   * In a visited column x - spriteLeftX exceeds -1, so the code's texture
   * column can be negative only when texelWidth = textureWidth / spriteWidth
   * exceeds 1: a sprite drawn no narrower than its texture never reads left
   * of the texture.
   */
  lemma TextureColumnNonNegative(v: View, t: Texture, x: int)
    requires WellFormedView(v) && t.width > 0 && InColumns(v, x)
    requires t.width as real <= v.size
    ensures TextureColumnAsWritten(v, t, x) >= 0
  {
    var q := x as real - v.left;
    var w := t.width as real;
    var sz := v.size;
    if q < 0.0 {
      ShrinkAboveMinusOne(q, w, sz);
      var e := q * (w / sz);
      assert -1.0 < e < 0.0;
      TruncAboveMinusOne(e);
    } else {
      assert q * (w / sz) >= 0.0;
    }
  }

  /** A factor in (0, 1] keeps a value of (-1, 0) above -1. */
  lemma ShrinkAboveMinusOne(q: real, w: real, s: real)
    requires -1.0 < q < 0.0 && 0.0 < w <= s
    ensures -1.0 < q * (w / s) < 0.0
  {
    var c := w / s;
    assert c * s == w;
    assert (-q) * (1.0 - c) >= 0.0;
    assert (-q) * (1.0 - c) == q * c - q;
    assert (-q) * c > 0.0;
  }

  /** Truncation toward zero takes every value of (-1, 0) to 0. */
  lemma TruncAboveMinusOne(e: real)
    requires -1.0 < e < 0.0
    ensures Trunc(e) == 0
  {
  }

  /** distanceFromTop: how far row y lies below the sprite's unclamped top, truncated. */
  function DistanceFromSpriteTop(v: View, y: int): int {
    Trunc(y as real + v.size / 2.0 - HALF_HEIGHT)
  }

  /** A visited row lies within the sprite's side below its unclamped top. */
  lemma DistanceFromSpriteTopRange(v: View, y: int)
    requires WellFormedView(v) && InRows(v, y)
    ensures 0 <= DistanceFromSpriteTop(v, y) && DistanceFromSpriteTop(v, y) as real < v.size
  {
    var e := y as real + v.size / 2.0 - HALF_HEIGHT;
    assert y as real > v.top - 1.0;
    assert e > -1.0;
    assert e < v.size;
  }

  /** textureOffsetY: distanceFromTop scaled to the texture's height; always a row of the texture. */
  function TextureRow(v: View, t: Texture, y: int): (offY: int)
    requires WellFormedView(v) && t.height > 0 && InRows(v, y)
    ensures 0 <= offY < t.height
  {
    var d := DistanceFromSpriteTop(v, y);
    DistanceFromSpriteTopRange(v, y);
    ScaledBelow(d as real, v.size, t.height as real);
    Trunc(d as real * (t.height as real / v.size))
  }

  /** The slot of the texel read for pixel (x, y), as written. */
  function TexelSlotAsWritten(v: View, t: Texture, x: int, y: int): int
    requires WellFormedView(v) && t.height > 0 && InRows(v, y)
  {
    t.width * TextureRow(v, t, y) + TextureColumnAsWritten(v, t, x)
  }

  /**
   * A sprite 16 pixels wide whose left edge falls at x = 10.5, with a 64 by
   * 64 texture (texelWidth 4): column 10 is visited and its texture column
   * comes out as -2. In the sprite's top row, texture row 0, the texel read
   * is at slot -2, before the buffer; in the next row, texture row 4, it is
   * slot 254, inside the buffer but the last texel of row 3.
   */
  lemma TexelReadBeforeTexture()
    ensures var v := View(16.0, 392.0, 408.0, 10.5, 26.5);
            var t := Texture(64, 64, seq(64 * 64, _ => 0));
            && WellFormedView(v) && SpriteTextureReady(t)
            && InColumns(v, 10) && InRows(v, 392) && WithinWindowBounds(10, 392)
            && TextureColumnAsWritten(v, t, 10) == -2
            && TexelSlotAsWritten(v, t, 10, 392) == -2
            && InRows(v, 393) && TexelSlotAsWritten(v, t, 10, 393) == 64 * 4 - 2
  {
    var v := View(16.0, 392.0, 408.0, 10.5, 26.5);
    var t := Texture(64, 64, seq(64 * 64, _ => 0));
    assert Trunc(10.5) == 10;
    assert Trunc(392.0) == 392;
    assert (10 as real - 10.5) * (64 as real / 16.0) == -2.0;
    assert Trunc(-2.0) == -2;
    assert DistanceFromSpriteTop(v, 392) == 0 by {
      assert 392 as real + 16.0 / 2.0 - HALF_HEIGHT == 0.0;
    }
    assert 0 as real * (64 as real / 16.0) == 0.0;
    assert DistanceFromSpriteTop(v, 393) == 1 by {
      assert 393 as real + 16.0 / 2.0 - HALF_HEIGHT == 1.0;
    }
    assert 1 as real * (64 as real / 16.0) == 4.0;
  }

  /** The texel shown at pixel (x, y), read with the clamped texture column. */
  function SpriteTexel(v: View, t: Texture, x: int, y: int): Color
    requires WellFormedView(v) && SpriteTextureReady(t) && InColumns(v, x) && InRows(v, y)
  {
    var offX := TextureColumn(v, t, x);
    var offY := TextureRow(v, t, y);
    TexelIndexInRange(t.width, t.height, offX, offY);
    t.texels[t.width * offY + offX]
  }

  /** One visible sprite, projected: its square on screen, its texture and its distance. */
  datatype Projected = Projected(view: View, texture: Texture, distance: real)

  predicate ProjectedReady(p: Projected) {
    WellFormedView(p.view) && SpriteTextureReady(p.texture)
  }

  /** The projection renderSpriteProjection computes for a visible sprite. */
  function Project(s: Sprite, textures: seq<Texture>, px: real, py: real, rotationAngle: real, m: MathLib): (p: Projected)
    requires ValidMath(m) && SpriteReady(s, textures, m)
    ensures ProjectedReady(p) && p.distance == s.distance
  {
    Projected(SpriteView(s, px, py, rotationAngle, m), textures[s.textureIndex], s.distance)
  }

  /**
   * Pixel (x, y) gets the sprite's texel: the loops visit it, it is strictly
   * inside the window, the sprite is nearer than the wall of column x, and
   * the texel is not the transparent colour.
   */
  predicate Drawn(p: Projected, rays: seq<Ray>, x: int, y: int)
    requires ProjectedReady(p) && |rays| == NUM_RAYS
  {
    && InColumns(p.view, x) && InRows(p.view, y) && WithinWindowBounds(x, y)
    && p.distance < rays[x].distance
    && SpriteTexel(p.view, p.texture, x, y) != TRANSPARENT
  }

  /** The y loop's writes down column x over rows y0 to y1 - 1. */
  function SpriteRun(p: Projected, rays: seq<Ray>, x: int, y0: int, y1: int): seq<Write>
    requires ProjectedReady(p) && |rays| == NUM_RAYS
    decreases y1 - y0
  {
    if y1 <= y0 then []
    else
      SpriteRun(p, rays, x, y0, y1 - 1)
      + (if Drawn(p, rays, x, y1 - 1) then [Write(x, y1 - 1, SpriteTexel(p.view, p.texture, x, y1 - 1))] else [])
  }

  /** The x loop's writes over columns x0 to x1 - 1, each column's rows top to bottom. */
  function SpriteColumns(p: Projected, rays: seq<Ray>, x0: int, x1: int): seq<Write>
    requires ProjectedReady(p) && |rays| == NUM_RAYS
    decreases x1 - x0
  {
    if x1 <= x0 then []
    else SpriteColumns(p, rays, x0, x1 - 1) + SpriteRun(p, rays, x1 - 1, Trunc(p.view.top), Ceil(p.view.bottom))
  }

  /** All writes of one sprite: columns (int) spriteLeftX up to spriteRightX. */
  function SpriteWrites(p: Projected, rays: seq<Ray>): seq<Write>
    requires ProjectedReady(p) && |rays| == NUM_RAYS
  {
    SpriteColumns(p, rays, Trunc(p.view.left), Ceil(p.view.right))
  }

  /** The last write of a one-or-no-write tail into slot k of an on-screen pixel. */
  lemma LastWriteOfDrawn(p: Projected, rays: seq<Ray>, x: int, y: int, px: int, py: int)
    requires ProjectedReady(p) && |rays| == NUM_RAYS && OnScreen(px, py, WINDOW_HEIGHT)
    ensures LastWrite(if Drawn(p, rays, x, y) then [Write(x, y, SpriteTexel(p.view, p.texture, x, y))] else [], Index(px, py))
            == if px == x && py == y && Drawn(p, rays, x, y) then Some(SpriteTexel(p.view, p.texture, x, y)) else None
  {
    if Drawn(p, rays, x, y) && Index(x, y) == Index(px, py) {
      IndexInjective(x, y, px, py, WINDOW_HEIGHT);
    }
  }

  /** Down one column, slot (px, py) is written only by the write of row py, if that pixel is drawn. */
  lemma {:induction false} SpriteRunLastWrite(p: Projected, rays: seq<Ray>, x: int, y0: int, y1: int, px: int, py: int)
    requires ProjectedReady(p) && |rays| == NUM_RAYS && OnScreen(px, py, WINDOW_HEIGHT)
    ensures LastWrite(SpriteRun(p, rays, x, y0, y1), Index(px, py))
            == if px == x && y0 <= py < y1 && Drawn(p, rays, px, py) then Some(SpriteTexel(p.view, p.texture, px, py)) else None
    decreases y1 - y0
  {
    if y0 < y1 {
      var y := y1 - 1;
      var tail := if Drawn(p, rays, x, y) then [Write(x, y, SpriteTexel(p.view, p.texture, x, y))] else [];
      SpriteRunLastWrite(p, rays, x, y0, y, px, py);
      LastWriteOfDrawn(p, rays, x, y, px, py);
      LastWriteAppend(SpriteRun(p, rays, x, y0, y), tail, Index(px, py));
    }
  }

  /** Over columns x0 to x1 - 1, slot (px, py) is written only by its own column, if the pixel is drawn. */
  lemma {:induction false} SpriteColumnsLastWrite(p: Projected, rays: seq<Ray>, x0: int, x1: int, px: int, py: int)
    requires ProjectedReady(p) && |rays| == NUM_RAYS && OnScreen(px, py, WINDOW_HEIGHT)
    ensures LastWrite(SpriteColumns(p, rays, x0, x1), Index(px, py))
            == if x0 <= px < x1 && Trunc(p.view.top) <= py < Ceil(p.view.bottom) && Drawn(p, rays, px, py)
               then Some(SpriteTexel(p.view, p.texture, px, py)) else None
    decreases x1 - x0
  {
    if x0 < x1 {
      var x := x1 - 1;
      SpriteColumnsLastWrite(p, rays, x0, x, px, py);
      SpriteRunLastWrite(p, rays, x, Trunc(p.view.top), Ceil(p.view.bottom), px, py);
      LastWriteAppend(SpriteColumns(p, rays, x0, x), SpriteRun(p, rays, x, Trunc(p.view.top), Ceil(p.view.bottom)),
                      Index(px, py));
    }
  }

  /** A sprite's writes reach slot (px, py) exactly when it draws that pixel, with its texel. */
  lemma SpriteLastWrite(p: Projected, rays: seq<Ray>, px: int, py: int)
    requires ProjectedReady(p) && |rays| == NUM_RAYS && OnScreen(px, py, WINDOW_HEIGHT)
    ensures LastWrite(SpriteWrites(p, rays), Index(px, py))
            == if Drawn(p, rays, px, py) then Some(SpriteTexel(p.view, p.texture, px, py)) else None
  {
    SpriteColumnsLastWrite(p, rays, Trunc(p.view.left), Ceil(p.view.right), px, py);
  }

  /**
   * Drawing one sprite: a pixel it draws shows its texel, and every other
   * pixel keeps what the buffer held.
   */
  lemma SpriteWritesAt(buf: seq<Color>, p: Projected, rays: seq<Ray>, px: int, py: int)
    requires ProjectedReady(p) && |rays| == NUM_RAYS
    requires |buf| == WINDOW_WIDTH * WINDOW_HEIGHT && OnScreen(px, py, WINDOW_HEIGHT)
    ensures 0 <= Index(px, py) < |buf|
    ensures Apply(buf, SpriteWrites(p, rays))[Index(px, py)]
            == if Drawn(p, rays, px, py) then SpriteTexel(p.view, p.texture, px, py) else buf[Index(px, py)]
  {
    IndexOnScreen(px, py, WINDOW_HEIGHT);
    SpriteLastWrite(p, rays, px, py);
    ApplyAt(buf, SpriteWrites(p, rays), Index(px, py));
  }

  predicate AllReady(ps: seq<Projected>) {
    forall i :: 0 <= i < |ps| ==> ProjectedReady(ps[i])
  }

  /** Each sprite's writes, sprite by sprite. */
  function SpriteLayers(ps: seq<Projected>, rays: seq<Ray>): (parts: seq<seq<Write>>)
    requires AllReady(ps) && |rays| == NUM_RAYS
    ensures |parts| == |ps|
    ensures forall i :: 0 <= i < |ps| ==> parts[i] == SpriteWrites(ps[i], rays)
  {
    seq(|ps|, i requires 0 <= i < |ps| => SpriteWrites(ps[i], rays))
  }

  /** The writes of sprites 0 to n - 1, drawn in that order. */
  function SpritesWrites(ps: seq<Projected>, n: int, rays: seq<Ray>): seq<Write>
    requires 0 <= n <= |ps| && AllReady(ps) && |rays| == NUM_RAYS
  {
    Concat(SpriteLayers(ps, rays), n)
  }

  /** Drawing one more sprite appends its writes. */
  lemma SpritesWritesStep(ps: seq<Projected>, n: int, rays: seq<Ray>)
    requires 0 <= n < |ps| && AllReady(ps) && |rays| == NUM_RAYS
    ensures SpritesWrites(ps, n + 1, rays) == SpritesWrites(ps, n, rays) + SpriteWrites(ps[n], rays)
  {
  }

  /** The last of sprites 0 to n - 1 that draws pixel (px, py), or -1 when none does. */
  function TopSprite(ps: seq<Projected>, n: int, rays: seq<Ray>, px: int, py: int): (r: int)
    requires 0 <= n <= |ps| && AllReady(ps) && |rays| == NUM_RAYS
    ensures -1 <= r < n
    ensures r >= 0 ==> Drawn(ps[r], rays, px, py)
    ensures forall j :: r < j < n ==> !Drawn(ps[j], rays, px, py)
    decreases n
  {
    if n == 0 then -1
    else if Drawn(ps[n - 1], rays, px, py) then n - 1
    else TopSprite(ps, n - 1, rays, px, py)
  }

  /** The last sprite whose writes reach a pixel's slot is the last sprite that draws the pixel. */
  lemma {:induction false} TopPartIsTopSprite(ps: seq<Projected>, n: int, rays: seq<Ray>, px: int, py: int)
    requires 0 <= n <= |ps| && AllReady(ps) && |rays| == NUM_RAYS && OnScreen(px, py, WINDOW_HEIGHT)
    ensures TopPart(SpriteLayers(ps, rays), n, Index(px, py)) == TopSprite(ps, n, rays, px, py)
    decreases n
  {
    if n > 0 {
      TopPartIsTopSprite(ps, n - 1, rays, px, py);
      SpriteLastWrite(ps[n - 1], rays, px, py);
    }
  }

  /**
   * Drawing sprites 0 to n - 1 in order: each pixel shows the texel of the
   * last sprite that draws it, or keeps its old colour when none does.
   */
  lemma SpritesPixel(buf: seq<Color>, ps: seq<Projected>, n: int, rays: seq<Ray>, px: int, py: int)
    requires 0 <= n <= |ps| && AllReady(ps) && |rays| == NUM_RAYS
    requires |buf| == WINDOW_WIDTH * WINDOW_HEIGHT && OnScreen(px, py, WINDOW_HEIGHT)
    ensures 0 <= Index(px, py) < |buf|
    ensures var r := TopSprite(ps, n, rays, px, py);
            Apply(buf, SpritesWrites(ps, n, rays))[Index(px, py)]
            == if r >= 0 then SpriteTexel(ps[r].view, ps[r].texture, px, py) else buf[Index(px, py)]
  {
    var k := Index(px, py);
    IndexOnScreen(px, py, WINDOW_HEIGHT);
    var r := TopSprite(ps, n, rays, px, py);
    ConcatLastWrite(SpriteLayers(ps, rays), n, k);
    TopPartIsTopSprite(ps, n, rays, px, py);
    if r >= 0 {
      SpriteLastWrite(ps[r], rays, px, py);
    }
    ApplyAt(buf, SpritesWrites(ps, n, rays), k);
  }

  /**
   * With the sprites far to near, the one a pixel shows is the nearest of
   * those that draw it: the painter's order hides farther sprites behind
   * nearer ones.
   */
  lemma NearestSpriteShows(ps: seq<Projected>, n: int, rays: seq<Ray>, px: int, py: int)
    requires 0 <= n <= |ps| && AllReady(ps) && |rays| == NUM_RAYS
    requires forall i, j :: 0 <= i < j < n ==> ps[i].distance >= ps[j].distance
    ensures var r := TopSprite(ps, n, rays, px, py);
            r >= 0 ==> forall j :: 0 <= j < n && Drawn(ps[j], rays, px, py) ==> ps[r].distance <= ps[j].distance
  {
  }

  /** The write of pixel (x, y), if the sprite draws it. */
  function PixelWrites(p: Projected, rays: seq<Ray>, x: int, y: int): seq<Write>
    requires ProjectedReady(p) && |rays| == NUM_RAYS
  {
    if Drawn(p, rays, x, y) then [Write(x, y, SpriteTexel(p.view, p.texture, x, y))] else []
  }

  /** One more visited row extends the column's run by that row's write, if the pixel is drawn. */
  lemma SpriteRunStep(p: Projected, rays: seq<Ray>, x: int, y0: int, y: int)
    requires ProjectedReady(p) && |rays| == NUM_RAYS && y0 <= y
    ensures SpriteRun(p, rays, x, y0, y + 1) == SpriteRun(p, rays, x, y0, y) + PixelWrites(p, rays, x, y)
  {
  }

  /** The rows the y loop visits run from (int) spriteTopY up to the first row at or below spriteBottomY. */
  lemma RowsSpan(v: View)
    requires WellFormedView(v)
    ensures 0 <= Trunc(v.top) <= Ceil(v.bottom) <= WINDOW_HEIGHT
  {
  }

  /**
   * The body of the y loop for pixel (x, y): inside the window it reads the
   * texel, and draws it when the sprite is nearer than the column's wall
   * and the texel is not transparent.
   */
  method DrawSpritePixel(buf: ColorBuffer, p: Projected, rays: array<Ray>, x: int, y: int, textureOffsetX: int)
    requires buf.Valid() && buf.height == WINDOW_HEIGHT && rays.Length == NUM_RAYS
    requires ProjectedReady(p) && InColumns(p.view, x) && InRows(p.view, y)
    requires textureOffsetX == TextureColumn(p.view, p.texture, x)
    modifies buf.pixels
    ensures buf.pixels[..] == Apply(old(buf.pixels[..]), PixelWrites(p, rays[..], x, y))
  {
    var v, t := p.view, p.texture;
    if x > 0 && x < WINDOW_WIDTH && y > 0 && y < WINDOW_HEIGHT {
      var textureOffsetY := TextureRow(v, t, y);
      TexelIndexInRange(t.width, t.height, textureOffsetX, textureOffsetY);
      var texelColor := t.texels[t.width * textureOffsetY + textureOffsetX];
      assert texelColor == SpriteTexel(v, t, x, y);
      if p.distance < rays[x].distance && texelColor != TRANSPARENT {
        buf.DrawPixel(x, y, texelColor);
      }
    }
  }

  /** The y loop for column x, from (int) spriteTopY while y < spriteBottomY. */
  method DrawSpriteColumn(buf: ColorBuffer, p: Projected, rays: array<Ray>, x: int)
    requires buf.Valid() && buf.height == WINDOW_HEIGHT && rays.Length == NUM_RAYS
    requires ProjectedReady(p) && InColumns(p.view, x)
    modifies buf.pixels
    ensures buf.pixels[..]
            == Apply(old(buf.pixels[..]), SpriteRun(p, rays[..], x, Trunc(p.view.top), Ceil(p.view.bottom)))
  {
    var v, t := p.view, p.texture;
    var textureOffsetX := TextureColumn(v, t, x);
    ghost var before := buf.pixels[..];
    RowsSpan(v);
    var y := Trunc(v.top);
    while y as real < v.bottom
      invariant Trunc(v.top) <= y <= Ceil(v.bottom)
      invariant buf.pixels[..] == Apply(before, SpriteRun(p, rays[..], x, Trunc(v.top), y))
      decreases Ceil(v.bottom) - y
    {
      ghost var prev := SpriteRun(p, rays[..], x, Trunc(v.top), y);
      DrawSpritePixel(buf, p, rays, x, y, textureOffsetX);
      SpriteRunStep(p, rays[..], x, Trunc(v.top), y);
      ApplyAppend(before, prev, PixelWrites(p, rays[..], x, y));
      y := y + 1;
    }
    CeilIsLeast(v.bottom, y);
    assert y == Ceil(v.bottom);
  }

  /** The columns the x loop visits run from (int) spriteLeftX up to the first column at or right of spriteRightX. */
  lemma ColumnsSpan(v: View)
    requires WellFormedView(v)
    ensures Trunc(v.left) <= Ceil(v.right)
  {
  }

  lemma SpriteColumnsStep(p: Projected, rays: seq<Ray>, x0: int, x: int)
    requires ProjectedReady(p) && |rays| == NUM_RAYS && x0 <= x
    ensures SpriteColumns(p, rays, x0, x + 1)
            == SpriteColumns(p, rays, x0, x) + SpriteRun(p, rays, x, Trunc(p.view.top), Ceil(p.view.bottom))
  {
  }

  /** One pass of the x loop: column x joins the columns already drawn. */
  method RenderSpriteColumn(buf: ColorBuffer, p: Projected, rays: array<Ray>, x: int, ghost before: seq<Color>)
    requires buf.Valid() && buf.height == WINDOW_HEIGHT && rays.Length == NUM_RAYS && ProjectedReady(p)
    requires InColumns(p.view, x)
    requires buf.pixels[..] == Apply(before, SpriteColumns(p, rays[..], Trunc(p.view.left), x))
    modifies buf.pixels
    ensures buf.pixels[..] == Apply(before, SpriteColumns(p, rays[..], Trunc(p.view.left), x + 1))
  {
    ghost var prev := SpriteColumns(p, rays[..], Trunc(p.view.left), x);
    DrawSpriteColumn(buf, p, rays, x);
    ApplyAppend(before, prev, SpriteRun(p, rays[..], x, Trunc(p.view.top), Ceil(p.view.bottom)));
    SpriteColumnsStep(p, rays[..], Trunc(p.view.left), x);
  }

  /** The x loop stops at Ceil(spriteRightX): by then it has drawn every column of the sprite. */
  lemma SpriteColumnsDone(p: Projected, rays: seq<Ray>, x: int)
    requires ProjectedReady(p) && |rays| == NUM_RAYS
    requires x <= Ceil(p.view.right) && !(x as real < p.view.right)
    ensures SpriteColumns(p, rays, Trunc(p.view.left), x) == SpriteWrites(p, rays)
  {
    CeilIsLeast(p.view.right, x);
  }

  /** The x loop for one projected sprite: every column from (int) spriteLeftX while x < spriteRightX. */
  method RenderSprite(buf: ColorBuffer, p: Projected, rays: array<Ray>)
    requires buf.Valid() && buf.height == WINDOW_HEIGHT && rays.Length == NUM_RAYS && ProjectedReady(p)
    modifies buf.pixels
    ensures buf.pixels[..] == Apply(old(buf.pixels[..]), SpriteWrites(p, rays[..]))
  {
    ghost var before := buf.pixels[..];
    ColumnsSpan(p.view);
    var x := Trunc(p.view.left);
    while x as real < p.view.right
      invariant Trunc(p.view.left) <= x <= Ceil(p.view.right)
      invariant buf.pixels[..] == Apply(before, SpriteColumns(p, rays[..], Trunc(p.view.left), x))
      decreases Ceil(p.view.right) - x
    {
      RenderSpriteColumn(buf, p, rays, x, before);
      x := x + 1;
    }
    SpriteColumnsDone(p, rays[..], x);
  }

  /** The projections of sprites in drawing order. */
  function Projections(order: seq<Sprite>, textures: seq<Texture>, px: real, py: real, rotationAngle: real,
                       m: MathLib): (ps: seq<Projected>)
    requires ValidMath(m) && AllSpritesReady(order, textures, m)
    ensures |ps| == |order| && AllReady(ps)
    ensures forall i :: 0 <= i < |order| ==> ps[i] == Project(order[i], textures, px, py, rotationAngle, m)
  {
    seq(|order|, i requires 0 <= i < |order| => Project(order[i], textures, px, py, rotationAngle, m))
  }

  /** Every sprite the visibility pass would mark visible can be projected. */
  ghost predicate VisibleReady(sprites: seq<Sprite>, textures: seq<Texture>, px: real, py: real,
                               rotationAngle: real, m: MathLib)
    requires ValidMath(m)
  {
    forall i :: 0 <= i < |sprites| && IsVisible(sprites[i], px, py, rotationAngle, m) ==>
      SpriteReady(Marked(sprites[i], px, py, rotationAngle, m), textures, m)
  }

  /** The sprites the pass leaves visible are ready, and so is any permutation of them. */
  lemma VisibleSpritesReady(sprites: seq<Sprite>, marked: seq<Sprite>, order: seq<Sprite>, textures: seq<Texture>,
                            px: real, py: real, rotationAngle: real, m: MathLib)
    requires ValidMath(m) && VisibleReady(sprites, textures, px, py, rotationAngle, m)
    requires |marked| == |sprites|
    requires forall i :: 0 <= i < |sprites| ==> marked[i] == Marked(sprites[i], px, py, rotationAngle, m)
    requires multiset(order) == multiset(VisibleOf(marked, |marked|))
    ensures AllSpritesReady(order, textures, m)
  {
    VisibleOfSpec(marked, |marked|);
    forall i | 0 <= i < |order|
      ensures SpriteReady(order[i], textures, m)
    {
      assert order[i] in multiset(order);
      assert order[i] in VisibleOf(marked, |marked|);
      var j :| 0 <= j < |marked| && marked[j] == order[i];
      MarkedFields(sprites[j], px, py, rotationAngle, m);
    }
  }

  /** One pass of the drawing loop: sprite i is drawn over sprites 0 to i - 1. */
  method RenderNextSprite(buf: ColorBuffer, ps: seq<Projected>, i: int, rays: array<Ray>, ghost before: seq<Color>)
    requires buf.Valid() && buf.height == WINDOW_HEIGHT && rays.Length == NUM_RAYS
    requires AllReady(ps) && 0 <= i < |ps|
    requires buf.pixels[..] == Apply(before, SpritesWrites(ps, i, rays[..]))
    modifies buf.pixels
    ensures buf.pixels[..] == Apply(before, SpritesWrites(ps, i + 1, rays[..]))
  {
    RenderSprite(buf, ps[i], rays);
    SpritesWritesStep(ps, i, rays[..]);
    ApplyAppend(before, SpritesWrites(ps, i, rays[..]), SpriteWrites(ps[i], rays[..]));
  }

  /**
   * The drawing loop of renderSpriteProjection over the projected sprites, in
   * order. A projection depends on nothing the loop changes, so computing
   * each before the loop draws the same pixels as computing it in the loop.
   */
  method DrawSprites(buf: ColorBuffer, ps: seq<Projected>, rays: array<Ray>)
    requires buf.Valid() && buf.height == WINDOW_HEIGHT && rays.Length == NUM_RAYS && AllReady(ps)
    modifies buf.pixels
    ensures buf.pixels[..] == Apply(old(buf.pixels[..]), SpritesWrites(ps, |ps|, rays[..]))
  {
    ghost var before := buf.pixels[..];
    for i := 0 to |ps|
      invariant buf.pixels[..] == Apply(before, SpritesWrites(ps, i, rays[..]))
    {
      RenderNextSprite(buf, ps, i, rays, before);
    }
  }

  /**
   * renderSpriteProjection: mark the sprites, sort the visible ones far to
   * near and draw them in that order. The drawing order is returned: the
   * visible sprites, far to near.
   */
  method RenderSpriteProjection(buf: ColorBuffer, sprites: array<Sprite>, rays: array<Ray>, textures: seq<Texture>,
                                px: real, py: real, rotationAngle: real, m: MathLib)
    returns (order: seq<Sprite>)
    requires ValidMath(m) && buf.Valid() && buf.height == WINDOW_HEIGHT
    requires rays.Length == NUM_RAYS && sprites.Length == NUM_SPRITES
    requires VisibleReady(sprites[..], textures, px, py, rotationAngle, m)
    modifies sprites, buf.pixels
    ensures forall i :: 0 <= i < NUM_SPRITES ==> sprites[i] == Marked(old(sprites[i]), px, py, rotationAngle, m)
    ensures FarToNear(order) && multiset(order) == multiset(VisibleOf(sprites[..], NUM_SPRITES))
    ensures AllSpritesReady(order, textures, m)
    ensures buf.pixels[..]
            == Apply(old(buf.pixels[..]),
                     SpritesWrites(Projections(order, textures, px, py, rotationAngle, m), |order|, rays[..]))
  {
    ghost var initial := sprites[..];
    var visibleSprites, numVisibleSprites := FindVisibleSprites(sprites, px, py, rotationAngle, m);
    SortByDistance(visibleSprites, numVisibleSprites);
    order := visibleSprites[..numVisibleSprites];
    VisibleSpritesReady(initial, sprites[..], order, textures, px, py, rotationAngle, m);
    var ps := Projections(order, textures, px, py, rotationAngle, m);
    DrawSprites(buf, ps, rays);
  }

  /**
   * After the sprites are drawn far to near, each pixel shows the texel of
   * the nearest sprite that draws it, or keeps its colour when none does.
   */
  lemma NearestSpriteWins(buf: seq<Color>, order: seq<Sprite>, rays: seq<Ray>, textures: seq<Texture>,
                          px: real, py: real, rotationAngle: real, m: MathLib, x: int, y: int)
    requires ValidMath(m) && FarToNear(order) && AllSpritesReady(order, textures, m)
    requires |rays| == NUM_RAYS && |buf| == WINDOW_WIDTH * WINDOW_HEIGHT && OnScreen(x, y, WINDOW_HEIGHT)
    ensures 0 <= Index(x, y) < |buf|
    ensures var ps := Projections(order, textures, px, py, rotationAngle, m);
            var shown := Apply(buf, SpritesWrites(ps, |ps|, rays))[Index(x, y)];
            && ((forall j :: 0 <= j < |ps| ==> !Drawn(ps[j], rays, x, y)) ==> shown == buf[Index(x, y)])
            && (forall j :: 0 <= j < |ps| && Drawn(ps[j], rays, x, y) ==>
                  exists r :: 0 <= r < |ps| && Drawn(ps[r], rays, x, y) && order[r].distance <= order[j].distance
                              && shown == SpriteTexel(ps[r].view, ps[r].texture, x, y))
  {
    var ps := Projections(order, textures, px, py, rotationAngle, m);
    var r := TopSprite(ps, |ps|, rays, x, y);
    SpritesPixel(buf, ps, |ps|, rays, x, y);
    NearestSpriteShows(ps, |ps|, rays, x, y);
  }
}
