// The tile map of main.c and the point queries on it (mapHasWallAt, the
// inside-map bound and the content lookup of a hit).

module Grid {
  import opened Numerics

  const TILE_SIZE: int := 64
  const TILE: real := 64.0
  const MAP_NUM_ROWS: int := 13
  const MAP_NUM_COLS: int := 20
  /** The map's extent in world units (constants.h's window size). */
  const MAP_WIDTH: real := 1280.0
  const MAP_HEIGHT: real := 832.0

  predicate IsCell(row: int, col: int) {
    0 <= row < MAP_NUM_ROWS && 0 <= col < MAP_NUM_COLS
  }

  /** A table of MAP_NUM_ROWS rows of MAP_NUM_COLS codes, none negative. */
  predicate WellFormedLevel(g: seq<seq<int>>) {
    && |g| == MAP_NUM_ROWS
    && (forall row :: 0 <= row < MAP_NUM_ROWS ==> |g[row]| == MAP_NUM_COLS)
    && (forall row, col :: 0 <= row < MAP_NUM_ROWS && 0 <= col < MAP_NUM_COLS ==> g[row][col] >= 0)
  }

  /**
   * A level table. The queries below take the table as a parameter; main.c
   * reads its one global table, MAP.
   */
  type Level = g: seq<seq<int>> | WellFormedLevel(g) witness seq(13, _ => seq(20, _ => 0))

  /** One row of a level: MAP_NUM_COLS codes, none negative. */
  type Row = r: seq<int> | |r| == MAP_NUM_COLS && forall col :: 0 <= col < |r| ==> r[col] >= 0
    witness seq(20, _ => 0)

  /** main.c's level row by row: 0 is empty, any other code selects a wall texture. */
  const ROW_0: Row := [1, 1, 1, 1, 1, 1, 1, 1, 1, 1, 1, 1, 1, 1, 1, 1, 1, 1, 1, 1]
  const ROW_1: Row := [1, 0, 0, 0, 0, 0, 0, 0, 0, 0, 0, 0, 0, 0, 0, 1, 0, 0, 0, 1]
  const ROW_2: Row := [1, 0, 0, 0, 0, 0, 0, 0, 0, 0, 0, 0, 0, 0, 0, 8, 0, 0, 0, 1]
  const ROW_3: Row := [1, 0, 0, 0, 0, 0, 0, 0, 0, 0, 0, 0, 0, 0, 0, 0, 0, 0, 0, 1]
  const ROW_4: Row := [1, 0, 0, 0, 2, 2, 0, 3, 0, 4, 0, 5, 0, 6, 0, 0, 0, 0, 0, 1]
  const ROW_5: Row := [1, 0, 0, 0, 0, 0, 0, 3, 0, 0, 0, 0, 0, 0, 0, 0, 0, 0, 0, 1]
  const ROW_6: Row := [1, 0, 0, 0, 0, 0, 0, 3, 0, 0, 0, 0, 0, 0, 0, 0, 0, 0, 0, 1]
  const ROW_7: Row := [1, 0, 0, 0, 0, 0, 0, 0, 0, 0, 0, 0, 0, 7, 0, 0, 0, 0, 0, 1]
  const ROW_8: Row := [1, 0, 0, 0, 0, 0, 0, 0, 0, 0, 0, 0, 0, 0, 0, 0, 0, 0, 0, 5]
  const ROW_9: Row := [1, 0, 0, 0, 0, 0, 0, 0, 0, 0, 0, 0, 1, 0, 0, 0, 0, 0, 0, 5]
  const ROW_10: Row := [1, 0, 0, 0, 0, 0, 0, 0, 0, 0, 0, 0, 1, 0, 0, 0, 0, 0, 0, 5]
  const ROW_11: Row := [1, 0, 0, 0, 0, 0, 0, 0, 0, 0, 0, 0, 1, 0, 0, 0, 0, 0, 0, 5]
  const ROW_12: Row := [1, 1, 1, 1, 1, 1, 1, 1, 1, 1, 1, 1, 1, 1, 5, 5, 5, 5, 5, 5]
  /** The rows of main.c's level, top to bottom. */
  const MAP: Level := [ROW_0, ROW_1, ROW_2, ROW_3, ROW_4, ROW_5, ROW_6, ROW_7, ROW_8, ROW_9, ROW_10, ROW_11, ROW_12]

  /** Every cell on the border of main.c's table is solid. */
  lemma BorderSolid()
    ensures forall col :: 0 <= col < MAP_NUM_COLS ==> MAP[0][col] != 0 && MAP[MAP_NUM_ROWS - 1][col] != 0
    ensures forall row :: 0 <= row < MAP_NUM_ROWS ==> MAP[row][0] != 0 && MAP[row][MAP_NUM_COLS - 1] != 0
  {
  }

  /** The code of a cell of the table. */
  function TileAt(g: Level, row: int, col: int): (code: int)
    requires IsCell(row, col)
    ensures code >= 0
  {
    g[row][col]
  }

  /** floor(v / TILE_SIZE): the grid index covering a world coordinate */
  function GridIndex(v: real): (i: int)
    ensures i as real * TILE <= v < i as real * TILE + TILE
  {
    (v / TILE).Floor
  }

  /** main.c's closed bound on the search loops: 0 <= x <= W and 0 <= y <= H. */
  predicate InsideMap(x: real, y: real) {
    0.0 <= x <= MAP_WIDTH && 0.0 <= y <= MAP_HEIGHT
  }

  /** The point lies on a cell of the table (half-open bounds). */
  predicate InTable(x: real, y: real) {
    0.0 <= x < MAP_WIDTH && 0.0 <= y < MAP_HEIGHT
  }

  lemma InTableIndices(x: real, y: real)
    requires InTable(x, y)
    ensures IsCell(GridIndex(y), GridIndex(x))
  {
  }

  /**
   * mapHasWallAt as main.c writes it: solid outside the closed box, otherwise
   * the covering cell is read. None marks a read outside the table, which
   * the C code performs at x == MAP_WIDTH or y == MAP_HEIGHT.
   */
  function HasWallAtAsWritten(g: Level, x: real, y: real): (r: Option<bool>)
    ensures !InsideMap(x, y) ==> r == Some(true)
    ensures InTable(x, y) ==> r.Some?
  {
    if x < 0.0 || x > MAP_WIDTH || y < 0.0 || y > MAP_HEIGHT then Some(true)
    else
      var row, col := GridIndex(y), GridIndex(x);
      if IsCell(row, col) then Some(TileAt(g, row, col) != 0) else None
  }

  /** At the right edge of the closed box the column index is MAP_NUM_COLS. */
  lemma EdgeReadsOutsideTable(g: Level)
    ensures GridIndex(MAP_WIDTH) == MAP_NUM_COLS
    ensures HasWallAtAsWritten(g, MAP_WIDTH, 100.0) == None
    ensures GridIndex(MAP_HEIGHT) == MAP_NUM_ROWS
    ensures HasWallAtAsWritten(g, 100.0, MAP_HEIGHT) == None
  {
    assert GridIndex(MAP_WIDTH) == 20;
    assert GridIndex(MAP_HEIGHT) == 13;
  }

  /** The content code of the cell under a point, None off the table. */
  function ContentAt(g: Level, x: real, y: real): (c: Option<int>)
    ensures c.Some? <==> InTable(x, y)
    ensures c.Some? ==> c.value >= 0
  {
    if InTable(x, y) then Some(TileAt(g, GridIndex(y), GridIndex(x))) else None
  }

  /**
   * mapHasWallAt with the bound made half-open, so that every read stays in
   * the table: solid exactly when the point is off the table or on a
   * non-empty cell.
   */
  function HasWallAt(g: Level, x: real, y: real): (r: bool)
    ensures r <==> ContentAt(g, x, y) != Some(0)
  {
    if x < 0.0 || x >= MAP_WIDTH || y < 0.0 || y >= MAP_HEIGHT then true
    else TileAt(g, GridIndex(y), GridIndex(x)) != 0
  }

  /** The corrected query agrees with main.c wherever main.c reads inside the table. */
  lemma HasWallAtAgrees(g: Level, x: real, y: real)
    requires HasWallAtAsWritten(g, x, y).Some?
    ensures HasWallAt(g, x, y) == HasWallAtAsWritten(g, x, y).value
  {
  }

  /** A wall hit on the table reports a non-empty cell. */
  lemma WallContentNonEmpty(g: Level, x: real, y: real)
    requires HasWallAt(g, x, y) && InTable(x, y)
    ensures ContentAt(g, x, y).Some? && ContentAt(g, x, y).value >= 1
  {
  }
}
