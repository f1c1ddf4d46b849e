# Raycaster core in Dafny

This project models the discrete core of a small Wolfenstein-style
raycaster written in C (`c-caster/src`) and of the JavaScript prototype it
grew from (`js-prototyping/raycast.js`). It proves properties of that model.
The model covers:

- the tile map and the wall query on it;
- the player's turn-then-step move, which is rejected whole on a collision;
- the two grid searches of `castRay` (horizontal and vertical grid lines),
  and the choice of the nearer hit;
- the ray sweep over the field of view (`castAllRays`);
- the textured wall strip of every column (ceiling, wall and floor);
- sprites: visibility, the far-to-near sort, and the per-pixel draw guard;
- the pixel-buffer primitives (`clearColorBuffer`, `drawPixel`, `drawRect`,
  `drawLine`, `changeColorIntensity`);
- `main.c`, the single-file variant of the renderer: its linear ray sweep,
  its column-major buffer clear and its frame order.

Modelling choices:

- Floats are exact `real`s. `remainderf` is defined exactly: the quotient
  is rounded to the nearest integer, halves to even. `floorf`, C's `(int)`
  casts, C `%` and `round` are written out.
- `tanf`, `cosf`, `sinf`, `atanf`, `atan2f` and `sqrtf` are fields of a
  `MathLib` value passed as a parameter. The model assumes only what the
  discrete logic needs: `sqrt` is non-negative and `sqrt(0) == 0`,
  `atan(0) == 0`, and `tan(FOV / 2) > 0`.
- The pixel buffer is the class `Graphics.ColorBuffer`, which holds an
  `array` of ARGB colours of `WINDOW_WIDTH * height` slots. Every drawing
  method is specified as the buffer after a sequence of `drawPixel`
  writes, `Apply(old, writes)`. The lemmas then say which write is the last
  one to reach each pixel.
- `rays` and `sprites` are arrays of records. The player is a class whose
  methods update `rotationAngle`, `x` and `y` in place.

Two sets of constants apply:

- The modular C files (`ray.c`, `wall.c`, `sprite.c`, `graphics.c`,
  `player.c`, `utils.c`) use `defs.h`: a 1280 x 800 window with one ray per
  column.
- `main.c` uses `constants.h`: a 1280 x 832 buffer, and 1280 x 832 is also
  the extent of the 13 x 20 map of 64-unit tiles.
- The map, `mapHasWallAt` and the inside-map box are those of `main.c`.
  `map.c` is not part of this model, so `ray.c`'s calls to `isInsideMap`,
  `mapHasWallAt` and `getMapAt` are given `main.c`'s meaning.

The JavaScript prototype is a separate module, `JsPrototype`, with its own
constants: a 15 x 11 grid of 32-unit tiles, and JavaScript's `%` with the
sign of the dividend.

- When `hasWallAt` reads the missing row at `y == WINDOW_HEIGHT`, JavaScript
  throws a TypeError. The model returns `None` there.
- The Ray constructor sets a field named `isRayFacinLeft`, and `cast` reads
  that same misspelled field, so the two agree. The model calls it
  `isRayFacingLeft`.

## Model

| member | source | states |
|---|---|---|
| Numerics.NearestInt | c-caster/src/utils.c:10 | the quotient remainderf uses is within one half of x / TWO_PI |
| Numerics.RemainderTwoPi | c-caster/src/utils.c:10 | remainderf(x, TWO_PI) lies in [-PI, PI] and differs from x by a whole number of turns |
| Numerics.Trunc | c-caster/src/wall.c:18 | the C float-to-int cast rounds toward zero: within one unit below a non-negative value and one unit above a negative one |
| Numerics.Ceil | c-caster/src/sprite.c:112 | the first integer a `v < bound` loop stops at is the least integer not below the bound |
| Numerics.CRem | c-caster/src/wall.c:48 | C's int `%` by a positive divisor takes the dividend's sign and stays below the divisor in magnitude |
| Numerics.Round | c-caster/src/graphics.c:106 | C's round lands within one half of its argument |
| Utils.NormalizeAngle | c-caster/src/utils.c:9-14 | the normalized angle lies in [0, TWO_PI) and differs from the argument by whole turns |
| Utils.NormalizeAngleIdempotent | c-caster/src/utils.c:9-14 | normalizing an already normalized angle changes nothing |
| Utils.NormalizeAnglePeriodic | c-caster/src/utils.c:10-13 | adding k whole turns to an angle does not change its normalized value |
| Utils.DistanceBetweenPoints | c-caster/src/utils.c:5-7 | the distance is never negative |
| Utils.DistanceToSelfIsZero | c-caster/src/utils.c:5-7 | a point is at distance zero from itself |
| Utils.DistanceSymmetric | c-caster/src/utils.c:5-7 | the distance does not depend on the order of the two points |
| Grid.BorderSolid | c-caster/src/main.c:17-31 | every cell of the table's first and last row and first and last column is non-zero |
| Grid.TileAt | c-caster/src/main.c:17-31 | every code of a level table is non-negative |
| Grid.GridIndex | c-caster/src/main.c:164-165 | floor(v / TILE_SIZE) is the index of the tile whose span contains v |
| Grid.InsideMap | c-caster/src/main.c:230 | the closed box 0 <= x <= W and 0 <= y <= H that bounds both search loops; ScanHitInBox proves every reported hit lies in it |
| Grid.InTableIndices | c-caster/src/main.c:164-166 | a point of the half-open map box reads a cell inside the table |
| Grid.HasWallAtAsWritten | c-caster/src/main.c:160-167 | mapHasWallAt as written: solid outside the closed box, and a defined read everywhere in the half-open box |
| Grid.EdgeReadsOutsideTable | c-caster/src/main.c:161-166 | at x == WINDOW_WIDTH the column index is MAP_NUM_COLS, and at y == WINDOW_HEIGHT the row index is MAP_NUM_ROWS: both reads fall outside the table |
| Grid.ContentAt | c-caster/src/ray.c:94 | the content of a hit cell is defined exactly on the table, and it is never negative |
| Grid.HasWallAt | c-caster/src/main.c:160-167 | corrected mapHasWallAt: solid exactly when the point is off the table or on a non-zero cell |
| Grid.HasWallAtAgrees | c-caster/src/main.c:160-167 | the corrected query gives the same answer as the code wherever the code reads inside the table |
| Grid.WallContentNonEmpty | c-caster/src/main.c:166 | a wall found on the table has content of at least 1 |
| PlayerMotion.Destination | c-caster/src/player.c:23-25 | with walkDirection 0 the tentative point is the current position |
| PlayerMotion.Moved | c-caster/src/player.c:27-34 | where the player stands after the collision test: the old position when the destination holds a wall, the whole destination otherwise; MoveNeverEntersWall, NoWalkNoMove and MovedAgrees are proved about it |
| PlayerMotion.MovedAsWritten | c-caster/src/player.c:27-34 | the move made with main.c's mapHasWallAt as written; its collision test reads outside the table exactly when the destination lies on the right or bottom edge of the closed box |
| PlayerMotion.MovedAgrees | c-caster/src/player.c:27-34 | wherever the code's collision test reads inside the table, the code moves the player exactly as Moved does |
| PlayerMotion.NoWalkNoMove | c-caster/src/player.c:22-25 | walkDirection 0 leaves the position unchanged, whatever the map holds |
| PlayerMotion.MoveNeverEntersWall | c-caster/src/player.c:27-34 | a player standing on open floor is on open floor after the move |
| PlayerMotion.Player.constructor | c-caster/src/player.c:9-19 | the initial player: the screen centre, speed 100, turn speed 90 degrees, facing PI / 2, not turning or walking |
| PlayerMotion.Player.MovePlayer | c-caster/src/player.c:21-35 | the rotation is advanced by turnDirection * turnSpeed * deltaTime whether or not the move succeeds; the new position is the all-or-nothing move along the new angle; only rotationAngle, x and y change |
| RayCaster.DistProjPlane | c-caster/src/defs.h:15 | the distance to the projection plane is positive |
| RayCaster.IsRayFacingDown | c-caster/src/ray.c:25-27 | facing down means strictly between 0 and PI; FacingQuadrants gives the bands on the normalized circle |
| RayCaster.IsRayFacingUp | c-caster/src/ray.c:29-31 | facing up is the negation of facing down, so angle 0 faces up (FacingQuadrants) |
| RayCaster.IsRayFacingRight | c-caster/src/ray.c:33-35 | facing right means below PI/2 or above 3PI/2 (FacingQuadrants) |
| RayCaster.IsRayFacingLeft | c-caster/src/ray.c:37-39 | facing left is the negation of facing right, the closed band [PI/2, 3PI/2] (FacingQuadrants) |
| RayCaster.FacingQuadrants | c-caster/src/ray.c:25-39 | on the normalized circle, up means 0 or at least PI, left is the closed band [PI/2, 3PI/2], and angle 0 faces up and right |
| RayCaster.ScanPrefixOpen | c-caster/src/ray.c:83-101 | every touch point the search steps past is inside the map and has no wall at its sample |
| RayCaster.Scan | c-caster/src/ray.c:83-101 | the search loop as a definition: from a touch point inside the map, stop with a hit at the first sample that holds a wall, and with no hit once the point leaves the map; ScanStopsAtFirstWall, ScanStepsBound and ScanHitInBox are proved about it, and ScanLoop shows that the while loop computes it |
| RayCaster.ScanOpenStep | c-caster/src/ray.c:97-100 | past an open touch point the search continues at the point one step further |
| RayCaster.ScanClosedStep | c-caster/src/ray.c:83-96 | at a touch point that is not open the search stops: it hits when the point is inside the map and reports no hit otherwise |
| RayCaster.ScanStopsAtFirstWall | c-caster/src/ray.c:83-101 | the search stops at the first touch point that is not open, and reports that point and its content exactly when the point is inside the map |
| RayCaster.ScanStepsWithinProgress | c-caster/src/ray.c:83-101 | the number of open points visited is bounded by the remaining distance to the map edge, counted in tiles |
| RayCaster.ScanStepsBound | c-caster/src/ray.c:83-101 | each search loop terminates after at most MAP_NUM_ROWS + 1 (horizontal) or MAP_NUM_COLS + 1 (vertical) steps |
| RayCaster.ScanHitInBox | c-caster/src/main.c:230-245 | whatever the search reports lies in the closed map box [0, W] x [0, H] |
| RayCaster.ScanLoop | c-caster/src/ray.c:83-101 | the while loop computes exactly the search the recursive definition describes |
| RayCaster.FirstGridLine | c-caster/src/ray.c:61-64 | the first intercept is a multiple of TILE_SIZE: the line at or above the player moving backward, the next line moving forward |
| RayCaster.HorzSteps | c-caster/src/ray.c:70-77 | ystep is -TILE_SIZE exactly when facing up; after the sign fix xstep is <= 0 facing left and >= 0 facing right, with TILE_SIZE / tan as its magnitude |
| RayCaster.VertSteps | c-caster/src/ray.c:119-124 | xstep is -TILE_SIZE exactly when facing left; after the sign fix ystep is <= 0 facing up and >= 0 facing down, with TILE_SIZE * tan as its magnitude |
| RayCaster.HorizontalStart | c-caster/src/ray.c:61-88 | the horizontal search starts on a grid line next to the player, steps one tile toward the facing side and samples one unit above the line facing up; a zero tangent means the loop is never entered |
| RayCaster.VerticalStart | c-caster/src/ray.c:112-135 | the vertical search starts on a grid line next to the player, steps one tile toward the facing side and samples one unit left of the line facing left |
| RayCaster.HorizontalSearch | c-caster/src/ray.c:55-101 | no hit when the tangent is zero, otherwise the scan from the horizontal start; HorizontalHitInBox and HorizontalLoop are proved about it |
| RayCaster.VerticalSearch | c-caster/src/ray.c:106-145 | the scan from the vertical start; VerticalHitInBox and VerticalLoop are proved about it |
| RayCaster.HitDistance | c-caster/src/ray.c:148-149 | a hit distance is non-negative, and a search without a hit contributes FLT_MAX |
| RayCaster.Resolve | c-caster/src/ray.c:147-164 | the stored fields come from the vertical search when its distance is strictly smaller and from the horizontal one otherwise; CastRayResolution states each field |
| RayCaster.CastRayResult | c-caster/src/ray.c:41-165 | castRay as a definition: normalize the angle, run both searches, keep the nearer hit; CastRay proves the method stores it, and CastRayHitInBox and CastTextureOffsetX are proved about it |
| RayCaster.CastRayResolution | c-caster/src/ray.c:148-164 | the stored ray has the normalized angle and flags with up == !down and left == !right; wasHitVertical holds exactly when the vertical distance is strictly smaller, so ties go horizontal; the distance is the minimum; hit point and content come from the same search |
| RayCaster.HorizontalHitInBox | c-caster/src/ray.c:83-101 | the horizontal search's hit lies in the closed map box |
| RayCaster.VerticalHitInBox | c-caster/src/ray.c:130-145 | the vertical search's hit lies in the closed map box |
| RayCaster.CastRayHitInBox | c-caster/src/ray.c:151-163 | the stored hit point lies in the closed map box, so both coordinates are non-negative |
| RayCaster.HorizontalLoop | c-caster/src/ray.c:55-101 | the horizontal half of castRay computes its specification |
| RayCaster.VerticalLoop | c-caster/src/ray.c:106-145 | the vertical half of castRay computes its specification |
| RayCaster.CastRay | c-caster/src/ray.c:41-165 | castRay stores exactly the ray its resolution describes |
| RayCaster.ProjectionAngle | c-caster/src/ray.c:171 | column col looks at rotationAngle + atan((col - NUM_RAYS / 2) / DIST_PROJ_PLANE); CenterColumnAngle proves the middle column looks along the facing angle, and CastAllRays stores the cast at this angle |
| RayCaster.CenterColumnAngle | c-caster/src/ray.c:169-172 | column NUM_RAYS / 2 is cast along the facing angle, and its stored angle is the normalized facing angle |
| RayCaster.CastAllRays | c-caster/src/ray.c:167-174 | rays[col] holds the cast for column col's angle, for every col in [0, NUM_RAYS) |
| RayCaster.CastColumn | c-caster/src/ray.c:171-172 | one column's angle and cast |
| Wall.ProjectedHeight | c-caster/src/wall.c:16 | TILE_SIZE / perpDistance * DIST_PROJ_PLANE has the sign of the distance |
| Wall.StripHeightAsWritten | c-caster/src/wall.c:16-18 | the `(int)` conversion as written is undefined (None) exactly at distance 0 or when the truncated height leaves the int range; a defined height is an int, and non-negative for a wall in front of the player |
| Wall.StripHeight | c-caster/src/wall.c:14-18 | the saturating strip height: always an int, non-negative for a wall not behind the player, INT_MAX at distance 0, and equal to the code's `(int)` conversion wherever that is defined |
| Wall.DistanceZeroRay | c-caster/src/wall.c:14-18 | a player on the open grid line y = 64 at x = 640 looking up casts a ray of distance 0, so the code's conversion is undefined there and the saturating height is INT_MAX |
| Wall.StripHeightOverflows | c-caster/src/wall.c:16-18 | with a field of view of at most 90 degrees, perpendicular distance 0.00001 gives a projected height beyond the int range: the code's conversion is undefined, the saturating height is INT_MAX |
| Wall.PerpDistance | c-caster/src/wall.c:14 | the hit distance times cos(rayAngle - rotationAngle); ColumnStrip proves a non-negative one gives a strip of non-negative height, and ProjectionRedrawsScreen needs it non-negative for every ray |
| Wall.StripTop | c-caster/src/wall.c:21 | (H >> 1) - (wallStripHeight >> 1), both shifts flooring; CeilingLastWrite proves the ceiling covers exactly the rows above it |
| Wall.StripBottom | c-caster/src/wall.c:33 | (H >> 1) + (wallStripHeight >> 1); FloorLastWrite proves the floor covers exactly the rows from it down |
| Wall.WallTop | c-caster/src/wall.c:21-24 | wallTopPixel clamped at 0; WallRowsClamped proves it and WallBottom bound exactly the on-screen rows of the strip |
| Wall.WallBottom | c-caster/src/wall.c:33-36 | wallBottomPixel clamped at WINDOW_HEIGHT; WallRowsClamped |
| Wall.WallRowsClamped | c-caster/src/wall.c:21-36 | after clamping, 0 <= wallTopPixel and wallBottomPixel <= WINDOW_HEIGHT, and the wall rows are exactly the rows of the projected strip that lie on screen |
| Wall.StripRowsPartition | c-caster/src/wall.c:20-68 | for a non-negative strip height every row of the column is exactly one of ceiling, floor and wall |
| Wall.NonNegativeStripOnScreen | c-caster/src/wall.c:26-40 | with a non-negative strip height the ceiling and floor loops stay on screen |
| Wall.TexNum | c-caster/src/wall.c:55 | texNum is the content minus one, reduced into a uint8_t |
| Wall.TexNumOfCode | c-caster/src/wall.c:55 | a wall code selects the texture one below it, and the empty code 0 wraps to 255 |
| Wall.TextureOffsetX | c-caster/src/wall.c:46-52 | the truncated hit coordinate along the wall, C-% TILE_SIZE; TextureOffsetXInTile and CastTextureOffsetX prove it lies in [0, TILE_SIZE) |
| Wall.TextureOffsetXInTile | c-caster/src/wall.c:46-52 | for non-negative hit coordinates the texture column lies in [0, TILE_SIZE) and is the coordinate along the wall modulo TILE_SIZE |
| Wall.CastTextureOffsetX | c-caster/src/wall.c:46-52 | every ray castRay stores gives a texture column inside the tile |
| Wall.DistanceFromTop | c-caster/src/wall.c:62 | for every drawn wall row, distanceFromTop lies in [0, wallStripHeight) |
| Wall.TextureOffsetY | c-caster/src/wall.c:63 | the texture row of a drawn wall row is never negative, and is below the texture height |
| Wall.TexelIndexInRange | c-caster/src/wall.c:66 | the texel read lies inside the texture |
| Wall.WallTexel | c-caster/src/wall.c:62-66 | the texel the strip shows in row y, at texture row textureOffsetY and column textureOffsetX; TexelIndexInRange keeps the read inside the texture |
| Wall.CeilingWrites | c-caster/src/wall.c:22-29 | the ceiling loop's writes, none when the unclamped top is negative; CeilingLastWrite |
| Wall.FloorWrites | c-caster/src/wall.c:34-41 | the floor loop's writes, none when the unclamped bottom is past WINDOW_HEIGHT; FloorLastWrite |
| Wall.WallRun | c-caster/src/wall.c:60-68 | the wall loop's writes, top to bottom; WallLastWrite and DrawWallRun |
| Wall.StripWrites | c-caster/src/wall.c:20-68 | one column's writes in the order of its three loops: ceiling, floor, wall; StripApply, StripCoversColumn, StripWriteCount and DrawStrip are proved about it |
| Wall.StripWritesOnScreen | c-caster/src/wall.c:26-67 | every write of column x's strip lands in column x, on screen |
| Wall.StripWriteCount | c-caster/src/wall.c:20-68 | with a non-negative strip height the strip writes exactly WINDOW_HEIGHT pixels |
| Wall.LastWriteRun | c-caster/src/wall.c:60-68 | in a run down one column, a pixel is written only by the write of its own row |
| Wall.CeilingLastWrite | c-caster/src/wall.c:22-29 | the ceiling colour reaches a pixel exactly when it lies in column x above the unclamped top, and only when that top is not negative |
| Wall.FloorLastWrite | c-caster/src/wall.c:34-41 | the floor colour reaches a pixel exactly when it lies in column x at or below the unclamped bottom, and only when that bottom is not past WINDOW_HEIGHT |
| Wall.WallLastWrite | c-caster/src/wall.c:60-68 | the wall loop writes a pixel exactly when it is a wall row of column x, with that row's texel |
| Wall.StripApply | c-caster/src/wall.c:12-68 | drawing column x sets each pixel of that column to its ceiling, wall or floor colour and leaves every other column as it was |
| Wall.StripCoversColumn | c-caster/src/wall.c:20-68 | with a non-negative strip height, no pixel of the column keeps its old colour |
| Wall.ColumnTexture | c-caster/src/wall.c:55-57 | the texture a column reads holds the texture column it uses |
| Wall.ColumnStrip | c-caster/src/wall.c:14-57 | a column's strip can be drawn, and a ray not behind the player, distance 0 included, gives a strip of non-negative height |
| Wall.ColumnStrips | c-caster/src/wall.c:12 | there is one strip per ray, and strip c is the strip of ray c |
| Wall.StripColumns | c-caster/src/wall.c:12 | column c draws strip c |
| Wall.StripColumnsOnScreen | c-caster/src/wall.c:12-68 | each column's writes stay in that column, on screen |
| Wall.ProjectionWritesStep | c-caster/src/wall.c:12 | each pass of the column loop appends that column's writes |
| Wall.ProjectionWrites | c-caster/src/wall.c:12-68 | the writes of columns 0 to n - 1, left to right; ProjectionApply, ProjectionRedraws and RenderWallProjection are proved about it |
| Wall.ProjectionApply | c-caster/src/wall.c:12-68 | after columns 0 to n - 1 are drawn, each of their pixels shows its strip colour and every other pixel is unchanged |
| Wall.ProjectionPixelRedrawn | c-caster/src/wall.c:20-68 | a drawn pixel of a strip of non-negative height ends the same whatever the buffer held |
| Wall.ProjectionRedraws | c-caster/src/wall.c:12-68 | when every column of the screen has a non-negative strip height, the projection redraws every pixel |
| Wall.ProjectionRedrawsScreen | c-caster/src/wall.c:12-68 | when no ray is behind the player, the frame does not depend on what the buffer held before |
| Wall.DrawWallRun | c-caster/src/wall.c:60-68 | the wall loop writes the texels of rows wallTop to wallBottom - 1 down column x, in order |
| Wall.DrawStrip | c-caster/src/wall.c:20-68 | one pass of the column loop performs the strip's writes: ceiling, then floor, then wall |
| Wall.DrawColumn | c-caster/src/wall.c:13-68 | the body of the column loop draws the strip of the column's ray |
| Wall.RenderWallProjection | c-caster/src/wall.c:11-70 | the buffer ends as the old buffer after every column's strip, drawn left to right |
| Graphics.IndexOnScreen | c-caster/src/graphics.c:81-83 | the slot of an on-screen pixel lies in the buffer |
| Graphics.Index | c-caster/src/graphics.c:82 | pixel (x, y) lives in slot WINDOW_WIDTH * y + x; IndexOnScreen, IndexInjective and SlotPixel prove this is a bijection from the screen to the buffer |
| Graphics.IndexInjective | c-caster/src/graphics.c:81-83 | distinct on-screen pixels have distinct slots |
| Graphics.SlotPixel | c-caster/src/graphics.c:81-83 | every slot is the slot of exactly one on-screen pixel |
| Graphics.Apply | c-caster/src/graphics.c:81-83 | a sequence of writes keeps the buffer's size |
| Graphics.LastWriteExists | c-caster/src/graphics.c:81-83 | a slot has a last write exactly when some write targets it |
| Graphics.LastWriteUniform | c-caster/src/graphics.c:85-91 | when all writes share one colour, every last write has that colour |
| Graphics.LastWriteAppend | c-caster/src/graphics.c:81-83 | later writes win, and earlier writes show only where the later ones miss |
| Graphics.ApplyAt | c-caster/src/graphics.c:81-83 | each slot ends with its last write, or keeps its old colour when nothing writes it |
| Graphics.ApplyAppend | c-caster/src/graphics.c:81-83 | two batches of writes, one after the other, equal their concatenation |
| Graphics.ApplyOne | c-caster/src/graphics.c:81-83 | a single write changes its own slot and nothing else |
| Graphics.ApplySameSlot | c-caster/src/graphics.c:81-83 | a slot on which two buffers agree still agrees after the same writes |
| Graphics.OtherColumnUntouched | c-caster/src/wall.c:12-68 | writes confined to one column leave every pixel of the other columns alone |
| Graphics.TopPart | c-caster/src/sprite.c:81 | the index of the last layer that writes a slot, with no later layer writing it |
| Graphics.ConcatLastWrite | c-caster/src/sprite.c:81-130 | a slot's last write over several layers is the one of the last layer that writes it |
| Graphics.ColumnsApply | c-caster/src/wall.c:12-68 | after columns 0 to n - 1, a pixel of those columns shows what its own column's writes make of it, and other pixels are unchanged |
| Graphics.ColumnRun | c-caster/src/main.c:456-458 | a run from row y0 to y1 - 1 has y1 - y0 writes |
| Graphics.ColumnStep | c-caster/src/main.c:456-458 | one more row of a column run performs exactly one more write |
| Graphics.ColumnRunMembers | c-caster/src/main.c:456-458 | a column run writes row y exactly when y0 <= y < y1, in its colour |
| Graphics.RectWriteCount | c-caster/src/graphics.c:85-91 | drawRect issues (width + 1) * (height + 1) writes |
| Graphics.RectWrites | c-caster/src/graphics.c:85-91 | drawRect's writes, columns x to x + width, each from y to y + height; RectWriteCount, RectWriteMembers and DrawRect are proved about it |
| Graphics.RectColumns | c-caster/src/graphics.c:86-90 | column runs over a half-open block of columns; RectColumnsCount and RectColumnsMembers |
| Graphics.RectColumnsCount | c-caster/src/main.c:455-459 | a block of columns writes (x1 - x0) * (y1 - y0) pixels |
| Graphics.RectWriteMembers | c-caster/src/graphics.c:85-91 | drawRect writes exactly the pixels of the inclusive rectangle [x, x + width] x [y, y + height], in its colour |
| Graphics.RectColumnsMembers | c-caster/src/main.c:455-459 | a block of columns writes exactly the pixels of its half-open rectangle |
| Graphics.RectWritesColored | c-caster/src/graphics.c:85-91 | every drawRect write carries the rectangle's colour |
| Graphics.RectPixelColored | c-caster/src/main.c:455-459 | every pixel inside the block ends in its colour, whatever the buffer held |
| Graphics.ScreenRectFills | c-caster/src/main.c:454-460 | a full-screen block leaves every slot in the clear colour |
| Graphics.LongestSide | c-caster/src/graphics.c:97 | longestSideLength is max(abs(deltaX), abs(deltaY)) |
| Graphics.LinePixel | c-caster/src/graphics.c:106 | the i-th pixel drawLine draws: both coordinates i increments along from (x0, y0), rounded; UnitStep, LinePixelNotEnd and LinePixelInBox |
| Graphics.LineWrites | c-caster/src/graphics.c:105-109 | drawLine's writes, one per step; LineWriteCount, LineOmitsEnd, LineOnScreen and DrawLine are proved about it |
| Graphics.LineWriteCount | c-caster/src/graphics.c:93-110 | drawLine issues exactly max(abs(dx), abs(dy)) writes, the first at (x0, y0); equal end points draw nothing |
| Graphics.UnitStep | c-caster/src/graphics.c:99-108 | along the longer axis each step moves exactly one pixel |
| Graphics.LinePixelNotEnd | c-caster/src/graphics.c:105-109 | no step of the loop reaches the end point |
| Graphics.LineOmitsEnd | c-caster/src/graphics.c:105-109 | drawLine never draws its end point (x1, y1) |
| Graphics.BetweenEnds | c-caster/src/graphics.c:99-108 | the point reached after i of n steps lies between the two end points |
| Graphics.RoundBetween | c-caster/src/graphics.c:106 | rounding a value between two integers stays between them |
| Graphics.LinePixelInBox | c-caster/src/graphics.c:105-109 | each pixel drawLine draws lies in the bounding box of its end points |
| Graphics.LineOnScreen | c-caster/src/graphics.c:93-110 | a line between on-screen end points draws only on-screen pixels |
| Graphics.Argb | c-caster/src/graphics.c:118 | OR-ing four bytes into their positions gives back each byte |
| Graphics.Alpha | c-caster/src/graphics.c:113 | the alpha byte; ArgbOfBytes and ChangeColorIntensity, which keeps it |
| Graphics.Red | c-caster/src/graphics.c:114 | the red byte; RedScaleDown |
| Graphics.Green | c-caster/src/graphics.c:115 | the green byte; GreenScaleDown |
| Graphics.Blue | c-caster/src/graphics.c:116 | the blue byte; BlueScaleDown |
| Graphics.ArgbOfBytes | c-caster/src/graphics.c:113-118 | every colour is its four bytes put back together |
| Graphics.ScaledChannel | c-caster/src/graphics.c:114-118 | a scaled and masked channel stays inside its own byte |
| Graphics.TruncScaled | c-caster/src/graphics.c:114-116 | a whole number scaled by a factor in [0, 1] truncates back into [0, q], and factor 1 gives q |
| Graphics.BlueScaleDown | c-caster/src/graphics.c:116 | the blue channel scaled by a factor in [0, 1] does not grow, and factor 1 keeps it |
| Graphics.GreenScaleDown | c-caster/src/graphics.c:115 | the green channel scaled by a factor in [0, 1] does not grow, and factor 1 keeps it |
| Graphics.RedScaleDown | c-caster/src/graphics.c:114 | the red channel scaled by a factor in [0, 1] does not grow, and factor 1 keeps it |
| Graphics.ScaledChannelMonotone | c-caster/src/graphics.c:114-118 | factor 1 leaves a channel as it was, and a factor of at most 1 never brightens it |
| Graphics.ChangeColorIntensity | c-caster/src/graphics.c:112-118 | the alpha byte is kept, and each of red, green and blue is the scaled channel, inside its own byte |
| Graphics.IntensityFactorBounds | c-caster/src/graphics.c:112-118 | factor 1 leaves the colour unchanged, and a factor in [0, 1] brightens no channel |
| Graphics.ColorBuffer.constructor | c-caster/src/main.c:113 | the calloc'd buffer has WINDOW_WIDTH * height slots, all zero |
| Graphics.ColorBuffer.ClearColorBuffer | c-caster/src/graphics.c:67-71 | every slot of [0, W * H) takes the clear colour |
| Graphics.ColorBuffer.DrawPixel | c-caster/src/graphics.c:81-83 | slot W * y + x takes the colour and nothing else changes; the caller keeps (x, y) on screen |
| Graphics.ColorBuffer.FillColumn | c-caster/src/wall.c:26-28 | one colour goes down column x over rows y0 to y1 - 1 |
| Graphics.ColorBuffer.DrawRect | c-caster/src/graphics.c:85-91 | the buffer after the inclusive rectangle, column by column |
| Graphics.ColorBuffer.DrawLine | c-caster/src/graphics.c:93-110 | the buffer after longestSideLength rounded steps from (x0, y0) |
| Sprites.WrapAngleRange | c-caster/src/sprite.c:52-62 | for a raw difference in (-3PI, 3PI) the wrapped angle ends in [0, PI], and it is the raw one plus or minus whole turns, made absolute |
| Sprites.WrapAngle | c-caster/src/sprite.c:55-62 | one correction by a whole turn each way, then the absolute value; WrapAngleRange and WrapAngleInRange |
| Sprites.SpriteAngle | c-caster/src/sprite.c:52-62 | the wrapped angle between the facing direction and the direction to the sprite; WrapAngleRange gives its range |
| Sprites.IsVisible | c-caster/src/sprite.c:64-66 | the wrapped angle is below HALF_FOV + 0.2; MarkedFields |
| Sprites.Marked | c-caster/src/sprite.c:66-74 | the sprite after the visibility test; MarkedFields states each field |
| Sprites.WrapAngleInRange | c-caster/src/sprite.c:55-62 | a difference already in [-PI, PI] is only made absolute |
| Sprites.MarkedFields | c-caster/src/sprite.c:64-74 | visible holds exactly when the wrapped angle is below HALF_FOV + 0.2; a visible sprite gets its angle and distance, a hidden one keeps them; x, y and textureIndex never change |
| Sprites.VisibleOfSpec | c-caster/src/sprite.c:51-75 | the visible list holds every visible sprite of the table and nothing else, so there are at most NUM_SPRITES |
| Sprites.VisibleOf | c-caster/src/sprite.c:66-71 | the visible sprites among the first n, in table order; VisibleOfSpec, VisibleOfPrefix and FindVisibleSprites |
| Sprites.VisibleOfPrefix | c-caster/src/sprite.c:51-75 | the list of the first n depends only on the first n sprites |
| Sprites.FindVisibleSprites | c-caster/src/sprite.c:47-76 | every sprite is marked, and visibleSprites[0 .. numVisibleSprites) is exactly the visible sprites in table order, with numVisibleSprites <= NUM_SPRITES |
| Sprites.MarkSprite | c-caster/src/sprite.c:52-74 | one pass of the loop marks sprite i and changes no other sprite |
| Sprites.VisibleStep | c-caster/src/sprite.c:66-71 | each pass appends the sprite just marked exactly when it is visible |
| Sprites.ComparatorTruncates | c-caster/src/sprite.c:40-44 | the comparator as written calls distances 0.5 apart equal, and its "equal" is not transitive |
| Sprites.CompareSpriteDistanceAsWritten | c-caster/src/sprite.c:40-44 | the float difference s2 - s1 truncated toward zero; ComparatorTruncates shows it calls close sprites equal and is not transitive |
| Sprites.CompareSpriteDistance | c-caster/src/sprite.c:40-44 | the intended comparator is negative, zero or positive exactly when the first sprite is farther, as far, or nearer |
| Sprites.CompareSpriteDistanceConsistent | c-caster/src/sprite.c:78 | the intended comparator is antisymmetric and transitive, as qsort requires |
| Sprites.FarToNearAgrees | c-caster/src/sprite.c:78 | far to near means the comparator never asks for two sprites to be exchanged |
| Sprites.FarToNear | c-caster/src/sprite.c:78 | no sprite is nearer than a later one; FarToNearAgrees proves it is the order in which the intended comparator asks for no exchange, and SortByDistance establishes it |
| Sprites.SortByDistance | c-caster/src/sprite.c:78 | the first n sprites end far to near and are a permutation of what they held; the rest is untouched |
| Sprites.SwapDown | c-caster/src/sprite.c:78 | exchanging two neighbours changes those two slots and no other |
| Sprites.SinkStart | c-caster/src/sprite.c:78 | a sorted prefix with one more sprite is where an insertion pass starts |
| Sprites.SinkStep | c-caster/src/sprite.c:78 | a swap with a nearer neighbour moves the sinking sprite one place down and keeps the pass's invariant |
| Sprites.SinkEnd | c-caster/src/sprite.c:78 | when the neighbour is no nearer, the first i + 1 sprites are far to near |
| Sprites.SwapKeepsPrefix | c-caster/src/sprite.c:78 | a swap inside the first n keeps them a permutation and leaves the rest alone |
| Sprites.SinkLast | c-caster/src/sprite.c:78 | one insertion pass extends the sorted prefix by one and keeps the first n a permutation |
| SpriteProjection.SpriteView | c-caster/src/sprite.c:85-106 | spriteTopY and spriteBottomY are clamped into [0, WINDOW_HEIGHT] around the middle row, and the sprite's width equals its height |
| SpriteProjection.SpritePerpDistance | c-caster/src/sprite.c:85 | the sprite's distance times cos of its angle; RenderSpriteProjection requires it positive because the code divides by it |
| SpriteProjection.WithinWindowBounds | c-caster/src/sprite.c:24-26 | strict bounds 0 < x < W and 0 < y < H, so column 0 and row 0 are never drawn; DrawSpritePixel tests it |
| SpriteProjection.TextureColumnBelowWidth | c-caster/src/sprite.c:112-114 | in a visited column, textureOffsetX never reaches the texture's width |
| SpriteProjection.TextureColumnAsWritten | c-caster/src/sprite.c:113-114 | (x - spriteLeftX) * texelWidth truncated; TextureColumnBelowWidth bounds it above, TextureColumnNonNegative bounds it below when texelWidth <= 1, and TexelReadBeforeTexture shows a negative value |
| SpriteProjection.TextureColumn | c-caster/src/sprite.c:113-114 | the texture column, corrected at the sprite's left edge, is always a column of the texture |
| SpriteProjection.TextureColumnFromLeftEdge | c-caster/src/sprite.c:113-114 | from the sprite's left edge on, the corrected column equals the code's |
| SpriteProjection.TextureColumnNonNegative | c-caster/src/sprite.c:112-114 | in a visited column the code's texture column is never negative when textureWidth / spriteWidth is at most 1, so a negative column needs a sprite drawn narrower than its texture |
| SpriteProjection.DistanceFromSpriteTopRange | c-caster/src/sprite.c:116-118 | a visited row lies within the sprite's side below its unclamped top |
| SpriteProjection.DistanceFromSpriteTop | c-caster/src/sprite.c:118 | how far row y lies below the unclamped sprite top, truncated; DistanceFromSpriteTopRange |
| SpriteProjection.TextureRow | c-caster/src/sprite.c:118-119 | textureOffsetY is always a row of the texture |
| SpriteProjection.TexelSlotAsWritten | c-caster/src/sprite.c:122 | textureWidth * textureOffsetY + textureOffsetX with the unclamped column, as the code indexes the buffer; TexelReadBeforeTexture |
| SpriteProjection.SpriteTexel | c-caster/src/sprite.c:121-122 | the texel read with the clamped column; TextureColumn and TextureRow keep the read inside the texture |
| SpriteProjection.TexelReadBeforeTexture | c-caster/src/sprite.c:112-122 | a 16-pixel sprite with a 64 x 64 texture (texelWidth 4) and its left edge at x = 10.5 gives column 10 texture column -2: its top row reads slot -2, before the texture, and its next row reads slot 254, the last texel of the previous texture row |
| SpriteProjection.Project | c-caster/src/sprite.c:82-110 | the projection of a visible sprite is well formed and keeps the sprite's distance |
| SpriteProjection.Drawn | c-caster/src/sprite.c:112-126 | the loops visit the pixel, it is strictly inside the window, the sprite is nearer than its column's wall and the texel is not 0xFFFF00FF; DrawSpritePixel and SpriteLastWrite |
| SpriteProjection.SpriteRun | c-caster/src/sprite.c:116-128 | the y loop's writes down column x; SpriteRunLastWrite, SpriteRunStep and DrawSpriteColumn |
| SpriteProjection.SpriteColumns | c-caster/src/sprite.c:112-129 | the x loop's writes, each column top to bottom; SpriteColumnsLastWrite and SpriteColumnsStep |
| SpriteProjection.SpriteWrites | c-caster/src/sprite.c:112-129 | all writes of one sprite; SpriteLastWrite, SpriteWritesAt and RenderSprite |
| SpriteProjection.LastWriteOfDrawn | c-caster/src/sprite.c:117-126 | the pixel test writes a pixel only when it is drawn, with its texel |
| SpriteProjection.SpriteRunLastWrite | c-caster/src/sprite.c:116-128 | down one column, a pixel is written only by its own row, if that pixel is drawn |
| SpriteProjection.SpriteColumnsLastWrite | c-caster/src/sprite.c:112-129 | over the visited columns, a pixel is written only by its own column, if it is drawn |
| SpriteProjection.SpriteLastWrite | c-caster/src/sprite.c:112-129 | a sprite's writes reach a pixel exactly when it draws that pixel, with its texel |
| SpriteProjection.SpriteWritesAt | c-caster/src/sprite.c:112-129 | a pixel the sprite draws shows its texel, and every other pixel keeps its colour |
| SpriteProjection.SpriteLayers | c-caster/src/sprite.c:81 | layer i is the writes of sprite i |
| SpriteProjection.SpritesWritesStep | c-caster/src/sprite.c:81 | drawing one more sprite appends its writes |
| SpriteProjection.TopSprite | c-caster/src/sprite.c:81-130 | the last sprite that draws a pixel, with no later sprite drawing it |
| SpriteProjection.TopPartIsTopSprite | c-caster/src/sprite.c:81-130 | the last layer whose writes reach a pixel's slot is the last sprite that draws the pixel |
| SpriteProjection.SpritesPixel | c-caster/src/sprite.c:81-130 | after the sprites are drawn in order, each pixel shows the texel of the last sprite that draws it, or keeps its colour |
| SpriteProjection.NearestSpriteShows | c-caster/src/sprite.c:78-130 | with the sprites far to near, the sprite a pixel shows is the nearest of those that draw it |
| SpriteProjection.SpriteRunStep | c-caster/src/sprite.c:116 | one more row appends that row's write, if the pixel is drawn |
| SpriteProjection.RowsSpan | c-caster/src/sprite.c:116 | the rows visited run from (int) spriteTopY to the first row at or below spriteBottomY, all within the screen |
| SpriteProjection.DrawSpritePixel | c-caster/src/sprite.c:117-126 | a pixel is drawn only when 0 < x < W and 0 < y < H (strict), the sprite is nearer than the column's wall and the texel is not 0xFFFF00FF |
| SpriteProjection.DrawSpriteColumn | c-caster/src/sprite.c:116-128 | the y loop performs exactly the column's writes |
| SpriteProjection.ColumnsSpan | c-caster/src/sprite.c:112 | the x loop's first column is not past its stopping column |
| SpriteProjection.SpriteColumnsStep | c-caster/src/sprite.c:112 | one more column appends that column's writes |
| SpriteProjection.RenderSpriteColumn | c-caster/src/sprite.c:112-129 | one pass of the x loop adds column x to the columns already drawn |
| SpriteProjection.SpriteColumnsDone | c-caster/src/sprite.c:112 | when the x loop stops it has drawn every column of the sprite |
| SpriteProjection.RenderSprite | c-caster/src/sprite.c:112-129 | the x loop performs exactly the sprite's writes |
| SpriteProjection.Projections | c-caster/src/sprite.c:82-106 | there is one projection per visible sprite, in drawing order |
| SpriteProjection.VisibleSpritesReady | c-caster/src/sprite.c:66-78 | the sprites the visibility pass keeps, in any order, can be projected |
| SpriteProjection.RenderNextSprite | c-caster/src/sprite.c:81-130 | one pass of the drawing loop draws sprite i over sprites 0 to i - 1 |
| SpriteProjection.DrawSprites | c-caster/src/sprite.c:81-130 | the drawing loop performs every sprite's writes, in order |
| SpriteProjection.RenderSpriteProjection | c-caster/src/sprite.c:46-131 | every sprite is marked; the drawing order is a far-to-near permutation of the visible sprites; the buffer ends as the old one with each visible sprite drawn in that order |
| SpriteProjection.NearestSpriteWins | c-caster/src/sprite.c:46-131 | after the sprites are drawn far to near, each pixel shows the texel of the nearest sprite that draws it, or keeps its colour when none does |
| MainCaster.SweepSpansFieldOfView | c-caster/src/main.c:315-321 | ray i starts at rotationAngle - FOV/2 + i * FOV/NUM_RAYS, inside the half-open field of view, and the middle ray looks along rotationAngle |
| MainCaster.SweepAngle | c-caster/src/main.c:317-318 | strip stripId looks at rotationAngle - FOV / 2 + stripId * FOV / NUM_RAYS; SweepSpansFieldOfView, SweepStep and CastAllRaysSweep |
| MainCaster.SweepStep | c-caster/src/main.c:318 | the loop's increment of FOV / NUM_RAYS takes the angle to the next strip's angle |
| MainCaster.SweepCentreRay | c-caster/src/main.c:315-321 | the middle strip's ray carries the normalized facing angle |
| MainCaster.CastAllRaysSweep | c-caster/src/main.c:315-321 | rays[stripId] holds the cast at the strip's sweep angle, for every strip |
| MainCaster.CastStrip | c-caster/src/main.c:319 | one strip's cast at its accumulated angle |
| MainCaster.Update | c-caster/src/main.c:323-337 | the player moves by one tick, then every strip is cast from the new position and angle |
| MainCaster.Setup | c-caster/src/main.c:100-116 | the player starts at the centre of the 1280 x 832 buffer facing PI / 2, and every slot of the buffer starts at zero |
| MainCaster.ClearColorBufferColumns | c-caster/src/main.c:454-460 | column by column, every (x, y) of W x H is written, so every slot ends in the clear colour |
| MainCaster.ClearColumn | c-caster/src/main.c:456-458 | the inner loop clears column x from row 0 to the bottom |
| MainCaster.Generate3DProjection | c-caster/src/main.c:386-446 | the buffer ends as the old one with every column's wall strip drawn, left to right |
| MainCaster.WallFrame | c-caster/src/main.c:462-468 | the buffer generate3DProjection leaves and renderColorBuffer presents; Generate3DProjection and RenderFrame are proved against it |
| MainCaster.RenderFrame | c-caster/src/main.c:462-468 | the presented frame is the wall projection over the old buffer, and the buffer is left in the clear colour for the next frame |
| JsPrototype.RemTwoPi | js-prototyping/raycast.js:19 | `%` by 2 * Math.PI takes the sign of the dividend, stays below one turn in magnitude and differs from the angle by whole turns |
| JsPrototype.DegToRad | js-prototyping/raycast.js:13-15 | degrees * (Math.PI / 180); FOV_ANGLE of raycast.js:7 is its value at 60, which CastAllRays uses for the leftmost ray |
| JsPrototype.NormalizeAngle | js-prototyping/raycast.js:17-24 | the result lies in [0, 2 * Math.PI) and differs from the argument by whole turns |
| JsPrototype.NormalizeAngleFixesRange | js-prototyping/raycast.js:17-24 | an angle already in [0, 2 * Math.PI) is returned unchanged |
| JsPrototype.NormalizeAngleIdempotent | js-prototyping/raycast.js:17-24 | normalizing twice is normalizing once |
| JsPrototype.TileIndex | js-prototyping/raycast.js:60-61 | Math.floor(v / TILE_SIZE) is the index of the tile whose span contains v |
| JsPrototype.HasWallAt | js-prototyping/raycast.js:55-63 | true outside the closed window box; inside the grid a wall exactly when the code is 1; false on the right edge; a throw on the bottom edge |
| JsPrototype.InWindow | js-prototyping/raycast.js:159-163 | the closed window box, tested once before the loop; HasWallAt and WalkToWall use it |
| JsPrototype.OnlyCodeOneIsWall | js-prototyping/raycast.js:62 | only code 1 counts as a wall: a cell holding 2 reads as open floor |
| JsPrototype.GridCodesAreBinary | js-prototyping/raycast.js:28-40 | the prototype's own grid holds only 0 and 1 |
| JsPrototype.WindowEdgeReads | js-prototyping/raycast.js:55-63 | a point on the right edge reads as open although the column beside it is solid, and a point on the bottom edge throws |
| JsPrototype.Destination | js-prototyping/raycast.js:93-97 | with walkDirection 0 the tentative point is the current position |
| JsPrototype.Stepped | js-prototyping/raycast.js:99-103 | the player moves to the destination when the query finds no wall, stays when it finds one, and fails when the query throws |
| JsPrototype.StepNeverEntersWall | js-prototyping/raycast.js:99-103 | a player on open floor never ends a step inside a wall |
| JsPrototype.StandingStillStays | js-prototyping/raycast.js:91-104 | standing still on open floor keeps the position |
| JsPrototype.Player.constructor | js-prototyping/raycast.js:67-76 | the player starts at the window centre with radius 3, facing Math.PI / 2, with speed 2 and a rotation step of 2 degrees |
| JsPrototype.Player.Update | js-prototyping/raycast.js:91-104 | the rotation is advanced unconditionally; the position becomes the destination only when it is not a wall; a throwing query leaves the position unchanged |
| JsPrototype.NewRay | js-prototyping/raycast.js:108-118 | the angle is normalized, the hit fields are zero, down holds exactly for angles in (0, Math.PI), and up and left are the negations of down and right |
| JsPrototype.RayFacingQuadrants | js-prototyping/raycast.js:114-117 | up means 0 or at least Math.PI, left is the closed band between the quarter and three-quarter turns, and angle 0 faces up and right |
| JsPrototype.ScanStepsWithinMeasure | js-prototyping/raycast.js:165-175 | the number of open points the loop passes is bounded by the distance left to the grid's edge, in tiles |
| JsPrototype.ScanStepsBound | js-prototyping/raycast.js:159-175 | although withinBounds is evaluated once, the loop passes at most MAP_NUM_ROWS + 1 open points and then stops |
| JsPrototype.TileLineStep | js-prototyping/raycast.js:173 | a step of one tile keeps the touch point the same distance from a grid line |
| JsPrototype.ScanHit | js-prototyping/raycast.js:165-175 | the loop stops only where the query reports a wall, at a point off its grid line by the starting offset |
| JsPrototype.HorzScan | js-prototyping/raycast.js:165-175 | the loop as a definition: a wall ends the search with the point, a throw ends it with TypeError, open floor moves one step on; ScanHit and ScanStepsBound are proved about it |
| JsPrototype.HorzSetup | js-prototyping/raycast.js:128-152 | yStep is -TILE_SIZE exactly when facing up; after correction xStep is <= 0 facing left and >= 0 facing right; facing up the touch point is one unit above the grid line |
| JsPrototype.HorizontalHitOffLine | js-prototyping/raycast.js:147-175 | a recorded hit is a wall; facing down it lies on a grid line, facing up one unit above one |
| JsPrototype.HorizontalCast | js-prototyping/raycast.js:120-176 | cast's horizontal search: no hit unless the start is in the window, then the loop; HorizontalHitOffLine, and Cast proves the method computes it |
| JsPrototype.Cast | js-prototyping/raycast.js:120-176 | cast computes the horizontal search its specification describes |
| JsPrototype.WalkToWall | js-prototyping/raycast.js:159-175 | the bounds test is made once, and then the loop walks to the first wall |
| JsPrototype.CastAllRays | js-prototyping/raycast.js:225-240 | the list is emptied and exactly one ray is built, the leftmost of the field of view; the list stays empty when the cast throws |

## Left out

- SDL window, renderer, texture streaming and presentation (`initializeWindow`, `renderColorBuffer`, `destroyWindow`, the `SDL_*` calls in `render`) are I/O. `RenderFrame` returns the presented buffer as a value.
- Frame pacing (`SDL_GetTicks`, `SDL_Delay`) is timing. The tick length `deltaTime` is a parameter of `MovePlayer` and `MainCaster.Update`.
- Input handling (`processInput`, the p5 key handlers) is left out. turnDirection and walkDirection are fields that the model takes as they are.
- PNG loading through `upng` (`loadWallTextures`, the `upng_get_*` calls) is a foreign library. Textures are given as width, height and texel sequences.
- The minimap and debug drawing (`renderMap`, `renderRays`, `renderPlayer`, `renderMapRays`, `renderMapSprites`, and the JavaScript `render` methods, `setup` and `draw`) are user interface only.
- Float rounding is not modelled: values are exact reals. Because of this, `main.c`'s accumulated sweep angle equals the exact product `i * FOV / NUM_RAYS`.
- The libm results carry only the facts listed above. Nothing is proved about the accuracy of hit distances, projected heights or sprite screen positions.
- `map.c` is not part of this model. `getMapAt` and `isInsideMap` take `main.c`'s table and its closed box.
- `main.c`'s castRay, mapHasWallAt and movePlayer are the same as `ray.c`'s and `player.c`'s, so they are modelled once, in `RayCaster`, `Grid` and `PlayerMotion`.
- `main.c`'s `TEXTURE_WIDTH` and `TEXTURE_HEIGHT` are not defined in the headers of this repository. The wall strip reads the texture's own width and height instead, as `wall.c` does.
- RayCaster.CastRay and the other members that use the map: they query the corrected `Grid.HasWallAt` rather than the out-of-table read described under Findings.
- Wall.RenderWallProjection: it draws each strip with the saturating `StripHeight`, the corrected half of the Findings row for wall.c:16-18, where the code's `(int)` conversion is undefined. Its own requirement on the rays covers only strip rows and textures.
- Wall.DrawColumn: like `RenderWallProjection`, it uses the saturating strip height.
- MainCaster.Generate3DProjection: main.c:392-394 has the same conversion, and the model draws with the same saturating strip height.
- MainCaster.RenderFrame: it draws through `Generate3DProjection` and so uses the saturating strip height as well.
- SpriteProjection.RenderSpriteProjection: it requires every visible sprite to be in front of the player, with a positive perpendicular distance, because the code divides by it. It computes all projections before the drawing loop, which draws the same pixels because no projection depends on anything the loop changes.
- SpriteProjection.RenderSpriteProjection: sprites are drawn with the corrected texture column, as described under Findings.
- Sprites.SortByDistance: qsort's own algorithm is not specified by C, so the model sorts by insertion under the corrected comparator. Any sort that the C library may use gives a far-to-near permutation; with ties, the order of equal sprites may differ.
- Graphics.ChangeColorIntensity: it requires each scaled channel to fit in a uint32. The C float-to-uint32 conversion is undefined beyond that, and a factor above 256 can reach it.
- JsPrototype.Cast: the vertical grid search is not in the prototype's source, so there is nothing to model. The hit is returned as a value, because cast keeps it only in local variables.
- JsPrototype.HorzSetup: when `Math.tan` gives 0, the intercept is infinite or NaN. The bounds test then fails, so the model reports no hit.
- JsPrototype.CastAllRays: the `columnId` and `rayAngle` updates after the single pass have no effect and are not modelled.
- The prototype's top-level `update()` only calls `Player.update` and `castAllRays`, which are modelled separately.

## Findings

| source | as written | input that shows it | evidently intended | confidence | as-written member | corrected member |
|---|---|---|---|---|---|---|
| c-caster/src/main.c:160-167 | the bounds test lets x == WINDOW_WIDTH and y == WINDOW_HEIGHT through, and floor(x / TILE_SIZE) then indexes column 20 or row 13 of a 13 x 20 table | x = 1280, y = 100: mapGridIndexX = 20, past the row | reads only inside the table (treating the edge as solid) | high; not executed | Grid.EdgeReadsOutsideTable | Grid.HasWallAt |
| c-caster/src/sprite.c:40-44 | the comparator returns the float difference truncated to int, so sprites less than one unit apart compare equal; that equality is not transitive, although qsort requires a consistent ordering | distances 0, 0.6, 1.2: the first two and the last two compare equal, but the first and the third do not | the sign of s2.distance - s1.distance | high; not executed | Sprites.ComparatorTruncates | Sprites.CompareSpriteDistance |
| c-caster/src/sprite.c:112-122 | x starts at (int) spriteLeftX, left of a fractional positive edge, so (x - spriteLeftX) * texelWidth lies in (-texelWidth, 0]; when texelWidth = textureWidth / spriteWidth exceeds 1 the truncated column is negative, and the read in texture row 0 goes before the texture buffer (later rows read the wrong texel inside it) | spriteLeftX = 10.5, side 16, texture 64 x 64: column 10 reads slot -2 in its top row; in this program the player stays in [64, 1216) x [64, 768), so no sprite is farther than DIST_PROJ_PLANE and every projected side is above 64 pixels: the input needs textures wider than that, which depends on the PNG files upng loads | a texture column clamped to the texture | plausible; depends on the texture widths upng loads; not executed | SpriteProjection.TexelReadBeforeTexture | SpriteProjection.TextureColumn |
| c-caster/src/wall.c:16-18 | projectedWallHeight = TILE_SIZE / perpDistance * DIST_PROJ_PLANE is converted with `(int)`, which C leaves undefined when the value does not fit in an int; at distance 0 the value is infinite, and below a perpendicular distance of about 3.3e-5 it exceeds INT_MAX (main.c:392-394 does the same) | the player at (640, 64), on the grid line under row 0's wall over an empty cell, looking up at an angle in (PI, 2 PI): the horizontal search hits at the player's own position, distance 0 | a conversion that saturates to the int range, INT_MAX for an infinite height | high for the undefined conversion; reaching it needs the player exactly on a grid line or within about 3.3e-5 of a wall; not executed | Wall.DistanceZeroRay | Wall.StripHeight |
