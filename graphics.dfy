// graphics.c: the colour buffer and its pixel primitives. The buffer is
// row-major with WINDOW_WIDTH pixels per row; main.c keeps its own buffer of
// the same width, so the row count is a property of each buffer.

module Graphics {
  import opened Numerics

  const WINDOW_WIDTH: int := 1280
  /** defs.h's screen height, used by the modular renderer */
  const WINDOW_HEIGHT: int := 800

  /** A uint32_t ARGB colour. */
  type Color = c: int | 0 <= c < 0x1_0000_0000

  const CEILING_COLOR: Color := 0xFF333333
  const FLOOR_COLOR: Color := 0xFF777777

  /** One drawPixel call: a position and the colour written there. */
  datatype Write = Write(x: int, y: int, color: Color)

  /** The buffer slot of pixel (x, y). */
  function Index(x: int, y: int): int {
    WINDOW_WIDTH * y + x
  }

  predicate OnScreen(x: int, y: int, height: int) {
    0 <= x < WINDOW_WIDTH && 0 <= y < height
  }

  lemma IndexOnScreen(x: int, y: int, height: int)
    requires OnScreen(x, y, height)
    ensures 0 <= Index(x, y) < WINDOW_WIDTH * height
  {
  }

  /** Distinct on-screen pixels occupy distinct slots. */
  lemma IndexInjective(x1: int, y1: int, x2: int, y2: int, height: int)
    requires OnScreen(x1, y1, height) && OnScreen(x2, y2, height)
    requires Index(x1, y1) == Index(x2, y2)
    ensures x1 == x2 && y1 == y2
  {
  }

  /** Every slot is the slot of one on-screen pixel: column k % W of row k / W. */
  lemma SlotPixel(k: int, height: int)
    requires 0 <= k < WINDOW_WIDTH * height
    ensures OnScreen(k % WINDOW_WIDTH, k / WINDOW_WIDTH, height)
    ensures Index(k % WINDOW_WIDTH, k / WINDOW_WIDTH) == k
  {
  }

  predicate AllOnScreen(ws: seq<Write>, height: int) {
    forall i :: 0 <= i < |ws| ==> OnScreen(ws[i].x, ws[i].y, height)
  }

  /**
   * The buffer after a sequence of drawPixel calls, performed in order. A
   * slot outside the buffer is never touched (the drawing methods require
   * every write to be on screen, so this case never arises for them).
   */
  function Apply(buf: seq<Color>, ws: seq<Write>): (r: seq<Color>)
    ensures |r| == |buf|
    decreases |ws|
  {
    if ws == [] then buf
    else
      var prev := Apply(buf, ws[..|ws| - 1]);
      var w := ws[|ws| - 1];
      var k := Index(w.x, w.y);
      if 0 <= k < |prev| then prev[k := w.color] else prev
  }

  /** The colour of the last write into slot k, if any. */
  function LastWrite(ws: seq<Write>, k: int): Option<Color>
    decreases |ws|
  {
    if ws == [] then None
    else if Index(ws[|ws| - 1].x, ws[|ws| - 1].y) == k then Some(ws[|ws| - 1].color)
    else LastWrite(ws[..|ws| - 1], k)
  }

  /** A slot has a last write exactly when some write targets it. */
  lemma {:induction false} LastWriteExists(ws: seq<Write>, k: int)
    ensures LastWrite(ws, k).Some? <==> exists i :: 0 <= i < |ws| && Index(ws[i].x, ws[i].y) == k
    decreases |ws|
  {
    if ws != [] {
      var init := ws[..|ws| - 1];
      LastWriteExists(init, k);
      if Index(ws[|ws| - 1].x, ws[|ws| - 1].y) != k {
        if exists i :: 0 <= i < |ws| && Index(ws[i].x, ws[i].y) == k {
          var i :| 0 <= i < |ws| && Index(ws[i].x, ws[i].y) == k;
          assert init[i] == ws[i];
        }
      }
    }
  }

  /** When every write has one colour, that is the colour of every last write. */
  lemma {:induction false} LastWriteUniform(ws: seq<Write>, k: int, c: Color)
    requires forall i :: 0 <= i < |ws| ==> ws[i].color == c
    ensures LastWrite(ws, k).Some? ==> LastWrite(ws, k).value == c
    decreases |ws|
  {
    if ws != [] {
      var init := ws[..|ws| - 1];
      assert forall i :: 0 <= i < |init| ==> init[i] == ws[i];
      LastWriteUniform(init, k, c);
    }
  }

  /** In a concatenation the later writes win; the earlier ones show only where the later miss. */
  lemma {:induction false} LastWriteAppend(a: seq<Write>, b: seq<Write>, k: int)
    ensures LastWrite(a + b, k) == if LastWrite(b, k).Some? then LastWrite(b, k) else LastWrite(a, k)
    decreases |b|
  {
    if b == [] {
      assert a + b == a;
    } else {
      var b' := b[..|b| - 1];
      assert (a + b)[..|a + b| - 1] == a + b';
      assert (a + b)[|a + b| - 1] == b[|b| - 1];
      LastWriteAppend(a, b', k);
    }
  }

  /** Each slot of the buffer holds the last colour written to it, or its old colour if none was. */
  lemma {:induction false} ApplyAt(buf: seq<Color>, ws: seq<Write>, k: int)
    requires 0 <= k < |buf|
    ensures Apply(buf, ws)[k] == match LastWrite(ws, k) case None => buf[k] case Some(c) => c
    decreases |ws|
  {
    if ws != [] {
      ApplyAt(buf, ws[..|ws| - 1], k);
    }
  }

  /** Performing two sequences of writes one after the other is performing their concatenation. */
  lemma {:induction false} ApplyAppend(buf: seq<Color>, a: seq<Write>, b: seq<Write>)
    ensures Apply(buf, a + b) == Apply(Apply(buf, a), b)
    decreases |b|
  {
    if b == [] {
      assert a + b == a;
    } else {
      var b' := b[..|b| - 1];
      assert (a + b)[..|a + b| - 1] == a + b';
      ApplyAppend(buf, a, b');
    }
  }

  /** A single write changes its slot and nothing else. */
  lemma ApplyOne(buf: seq<Color>, prefix: seq<Write>, w: Write)
    requires 0 <= Index(w.x, w.y) < |buf|
    ensures Apply(buf, prefix + [w]) == Apply(buf, prefix)[Index(w.x, w.y) := w.color]
  {
    assert (prefix + [w])[..|prefix + [w]| - 1] == prefix;
  }

  /** A slot that two buffers agree on still agrees after the same writes. */
  lemma ApplySameSlot(b1: seq<Color>, b2: seq<Color>, ws: seq<Write>, k: int)
    requires 0 <= k < |b1| && 0 <= k < |b2| && b1[k] == b2[k]
    ensures Apply(b1, ws)[k] == Apply(b2, ws)[k]
  {
    ApplyAt(b1, ws, k);
    ApplyAt(b2, ws, k);
  }

  /** Every write of ws lands in column x. */
  predicate InColumn(ws: seq<Write>, x: int) {
    forall i :: 0 <= i < |ws| ==> ws[i].x == x
  }

  /** Writes confined to one on-screen column leave every pixel of the other columns alone. */
  lemma OtherColumnUntouched(buf: seq<Color>, ws: seq<Write>, x: int, px: int, py: int, height: int)
    requires InColumn(ws, x) && AllOnScreen(ws, height) && x != px
    requires |buf| == WINDOW_WIDTH * height && OnScreen(px, py, height)
    ensures 0 <= Index(px, py) < |buf|
    ensures Apply(buf, ws)[Index(px, py)] == buf[Index(px, py)]
  {
    var k := Index(px, py);
    IndexOnScreen(px, py, height);
    forall i | 0 <= i < |ws|
      ensures Index(ws[i].x, ws[i].y) != k
    {
      if Index(ws[i].x, ws[i].y) == k {
        IndexInjective(ws[i].x, ws[i].y, px, py, height);
      }
    }
    LastWriteExists(ws, k);
    ApplyAt(buf, ws, k);
  }

  /** The writes of parts 0 to n - 1, performed in that order. */
  function Concat(parts: seq<seq<Write>>, n: int): seq<Write>
    requires 0 <= n <= |parts|
    decreases n
  {
    if n == 0 then [] else Concat(parts, n - 1) + parts[n - 1]
  }

  /** The last of parts 0 to n - 1 that writes slot k, or -1 when none does. */
  function TopPart(parts: seq<seq<Write>>, n: int, k: int): (r: int)
    requires 0 <= n <= |parts|
    ensures -1 <= r < n
    ensures r >= 0 ==> LastWrite(parts[r], k).Some?
    ensures forall j :: r < j < n ==> LastWrite(parts[j], k).None?
    decreases n
  {
    if n == 0 then -1
    else if LastWrite(parts[n - 1], k).Some? then n - 1
    else TopPart(parts, n - 1, k)
  }

  /** Slot k's last write among several parts is the one of the last part that writes it. */
  lemma {:induction false} ConcatLastWrite(parts: seq<seq<Write>>, n: int, k: int)
    requires 0 <= n <= |parts|
    ensures LastWrite(Concat(parts, n), k)
            == if TopPart(parts, n, k) >= 0 then LastWrite(parts[TopPart(parts, n, k)], k) else None
    decreases n
  {
    if n > 0 {
      ConcatLastWrite(parts, n - 1, k);
      LastWriteAppend(Concat(parts, n - 1), parts[n - 1], k);
    }
  }

  /** Column c's writes stay in screen column c. */
  predicate ColumnsOnScreen(cols: seq<seq<Write>>, height: int) {
    forall c :: 0 <= c < |cols| ==> InColumn(cols[c], c) && AllOnScreen(cols[c], height)
  }

  /**
   * After columns 0 to n - 1 are drawn, a pixel of one of those columns
   * shows what its own column's writes make of it, and every other pixel
   * is as it was.
   */
  lemma {:induction false} ColumnsApply(buf: seq<Color>, cols: seq<seq<Write>>, n: int, px: int, py: int, height: int)
    requires 0 <= n <= |cols| && ColumnsOnScreen(cols, height)
    requires |buf| == WINDOW_WIDTH * height && OnScreen(px, py, height)
    ensures 0 <= Index(px, py) < |buf|
    ensures Apply(buf, Concat(cols, n))[Index(px, py)]
            == if px < n then Apply(buf, cols[px])[Index(px, py)] else buf[Index(px, py)]
    decreases n
  {
    IndexOnScreen(px, py, height);
    if n > 0 {
      var k := Index(px, py);
      var prev := Concat(cols, n - 1);
      var mid := Apply(buf, prev);
      assert Concat(cols, n) == prev + cols[n - 1];
      ColumnsApply(buf, cols, n - 1, px, py, height);
      ApplyAppend(buf, prev, cols[n - 1]);
      assert InColumn(cols[n - 1], n - 1) && AllOnScreen(cols[n - 1], height);
      if px == n - 1 {
        ApplySameSlot(mid, buf, cols[n - 1], k);
      } else {
        OtherColumnUntouched(mid, cols[n - 1], n - 1, px, py, height);
      }
    }
  }

  /** Writes of one colour into column x, rows y0 to y1 - 1, top to bottom. */
  function ColumnRun(x: int, y0: int, y1: int, color: Color): (ws: seq<Write>)
    ensures |ws| == if y0 <= y1 then y1 - y0 else 0
  {
    if y0 <= y1 then seq(y1 - y0, j => Write(x, y0 + j, color)) else []
  }

  lemma ColumnRunExtend(x: int, y0: int, y1: int, color: Color)
    requires y0 <= y1
    ensures ColumnRun(x, y0, y1 + 1, color) == ColumnRun(x, y0, y1, color) + [Write(x, y1, color)]
  {
  }

  /** Extending a column run by one row performs one more write. */
  lemma ColumnStep(buf: seq<Color>, prefix: seq<Write>, x: int, y0: int, y1: int, color: Color)
    requires y0 <= y1 && 0 <= Index(x, y1) < |buf|
    ensures Apply(buf, prefix + ColumnRun(x, y0, y1 + 1, color))
            == Apply(buf, prefix + ColumnRun(x, y0, y1, color))[Index(x, y1) := color]
  {
    ColumnRunExtend(x, y0, y1, color);
    assert prefix + ColumnRun(x, y0, y1 + 1, color) == (prefix + ColumnRun(x, y0, y1, color)) + [Write(x, y1, color)];
    ApplyOne(buf, prefix + ColumnRun(x, y0, y1, color), Write(x, y1, color));
  }

  /** A column run writes row y exactly when y0 <= y < y1. */
  lemma ColumnRunMembers(x: int, y0: int, y1: int, color: Color, w: Write)
    ensures w in ColumnRun(x, y0, y1, color) <==> w.x == x && y0 <= w.y < y1 && w.color == color
  {
    if w.x == x && y0 <= w.y < y1 && w.color == color {
      assert ColumnRun(x, y0, y1, color)[w.y - y0] == w;
    }
  }

  /** drawRect's writes: columns x to x + width left to right, each top to bottom over y to y + height. */
  function RectWrites(x: int, y: int, width: int, height: int, color: Color): seq<Write> {
    RectColumns(x, x + width + 1, y, y + height + 1, color)
  }

  /** The column runs of the columns x0 to x1 - 1, left to right. */
  function RectColumns(x0: int, x1: int, y0: int, y1: int, color: Color): seq<Write>
    decreases x1 - x0
  {
    if x1 <= x0 then [] else RectColumns(x0, x1 - 1, y0, y1, color) + ColumnRun(x1 - 1, y0, y1, color)
  }

  /** drawRect issues (width + 1) * (height + 1) writes, counting both edges. */
  lemma RectWriteCount(x: int, y: int, width: int, height: int, color: Color)
    requires width >= 0 && height >= 0
    ensures |RectWrites(x, y, width, height, color)| == (width + 1) * (height + 1)
  {
    RectColumnsCount(x, x + width + 1, y, y + height + 1, color);
  }

  lemma {:induction false} RectColumnsCount(x0: int, x1: int, y0: int, y1: int, color: Color)
    requires x0 <= x1 && y0 <= y1
    ensures |RectColumns(x0, x1, y0, y1, color)| == (x1 - x0) * (y1 - y0)
    decreases x1 - x0
  {
    if x0 < x1 {
      RectColumnsCount(x0, x1 - 1, y0, y1, color);
      assert (x1 - x0) * (y1 - y0) == (x1 - 1 - x0) * (y1 - y0) + (y1 - y0);
    }
  }

  /** drawRect writes exactly the pixels of the inclusive rectangle, in its colour. */
  lemma RectWriteMembers(x: int, y: int, width: int, height: int, color: Color, w: Write)
    ensures w in RectWrites(x, y, width, height, color)
            <==> x <= w.x <= x + width && y <= w.y <= y + height && w.color == color
  {
    RectColumnsMembers(x, x + width + 1, y, y + height + 1, color, w);
  }

  lemma {:induction false} RectColumnsMembers(x0: int, x1: int, y0: int, y1: int, color: Color, w: Write)
    ensures w in RectColumns(x0, x1, y0, y1, color) <==> x0 <= w.x < x1 && y0 <= w.y < y1 && w.color == color
    decreases x1 - x0
  {
    if x0 < x1 {
      RectColumnsMembers(x0, x1 - 1, y0, y1, color, w);
      ColumnRunMembers(x1 - 1, y0, y1, color, w);
    }
  }

  /** Every write of drawRect carries its colour. */
  lemma RectWritesColored(x: int, y: int, width: int, height: int, color: Color)
    ensures forall j :: 0 <= j < |RectWrites(x, y, width, height, color)| ==>
              RectWrites(x, y, width, height, color)[j].color == color
  {
    var ws := RectWrites(x, y, width, height, color);
    forall j | 0 <= j < |ws|
      ensures ws[j].color == color
    {
      RectWriteMembers(x, y, width, height, color, ws[j]);
    }
  }

  /** Each on-screen pixel inside the column runs ends in their colour, whatever the buffer held. */
  lemma RectPixelColored(buf: seq<Color>, x0: int, x1: int, y0: int, y1: int, color: Color, x: int, y: int, height: int)
    requires x0 <= x < x1 && y0 <= y < y1
    requires |buf| == WINDOW_WIDTH * height && OnScreen(x, y, height)
    ensures 0 <= Index(x, y) < |buf|
    ensures Apply(buf, RectColumns(x0, x1, y0, y1, color))[Index(x, y)] == color
  {
    var ws := RectColumns(x0, x1, y0, y1, color);
    var k := Index(x, y);
    IndexOnScreen(x, y, height);
    RectColumnsMembers(x0, x1, y0, y1, color, Write(x, y, color));
    var i :| 0 <= i < |ws| && ws[i] == Write(x, y, color);
    assert Index(ws[i].x, ws[i].y) == k;
    LastWriteExists(ws, k);
    forall j | 0 <= j < |ws|
      ensures ws[j].color == color
    {
      RectColumnsMembers(x0, x1, y0, y1, color, ws[j]);
    }
    LastWriteUniform(ws, k, color);
    ApplyAt(buf, ws, k);
  }

  /** Writing one colour over the whole screen, column by column, leaves every slot that colour. */
  lemma ScreenRectFills(buf: seq<Color>, height: int, color: Color)
    requires height >= 0 && |buf| == WINDOW_WIDTH * height
    ensures Apply(buf, RectWrites(0, 0, WINDOW_WIDTH - 1, height - 1, color)) == seq(|buf|, _ => color)
  {
    var r := Apply(buf, RectWrites(0, 0, WINDOW_WIDTH - 1, height - 1, color));
    forall k | 0 <= k < |buf|
      ensures r[k] == color
    {
      SlotPixel(k, height);
      RectPixelColored(buf, 0, WINDOW_WIDTH, 0, height, color, k % WINDOW_WIDTH, k / WINDOW_WIDTH, height);
    }
  }

  /** The number of pixels drawLine steps over: the longer side of the bounding box. */
  function LongestSide(x0: int, y0: int, x1: int, y1: int): (n: nat)
    ensures n >= x1 - x0 && n >= x0 - x1 && n >= y1 - y0 && n >= y0 - y1
    ensures n == x1 - x0 || n == x0 - x1 || n == y1 - y0 || n == y0 - y1
  {
    var ax := if x1 >= x0 then x1 - x0 else x0 - x1;
    var ay := if y1 >= y0 then y1 - y0 else y0 - y1;
    if ax >= ay then ax else ay
  }

  /** The per-step increment along one axis: delta / longestSideLength (unused when no step is taken). */
  function Increment(delta: int, n: nat): real {
    if n == 0 then 0.0 else delta as real / n as real
  }

  /** The point drawLine has reached along one axis after i steps, before rounding. */
  function LineCoord(a: int, delta: int, n: nat, i: int): real {
    a as real + i as real * Increment(delta, n)
  }

  /** One more step adds one increment. */
  lemma LineCoordStep(a: int, delta: int, n: nat, i: int)
    ensures LineCoord(a, delta, n, i + 1) == LineCoord(a, delta, n, i) + Increment(delta, n)
  {
    assert (i + 1) as real * Increment(delta, n) == i as real * Increment(delta, n) + Increment(delta, n);
  }

  /** The i-th pixel drawLine draws. */
  function LinePixel(x0: int, y0: int, x1: int, y1: int, color: Color, i: int): Write {
    var n := LongestSide(x0, y0, x1, y1);
    Write(Round(LineCoord(x0, x1 - x0, n, i)), Round(LineCoord(y0, y1 - y0, n, i)), color)
  }

  /** drawLine's writes: step i draws the rounded point i increments along from (x0, y0). */
  function LineWrites(x0: int, y0: int, x1: int, y1: int, color: Color): seq<Write> {
    seq(LongestSide(x0, y0, x1, y1), i => LinePixel(x0, y0, x1, y1, color, i))
  }

  lemma RoundInt(k: int)
    ensures Round(k as real) == k
  {
  }

  /** drawLine issues max(|dx|, |dy|) writes, the first at (x0, y0); equal endpoints draw nothing. */
  lemma LineWriteCount(x0: int, y0: int, x1: int, y1: int, color: Color)
    ensures var ws := LineWrites(x0, y0, x1, y1, color);
            && |ws| == LongestSide(x0, y0, x1, y1)
            && (x0 == x1 && y0 == y1 <==> ws == [])
            && (ws != [] ==> ws[0] == Write(x0, y0, color))
  {
    var ws := LineWrites(x0, y0, x1, y1, color);
    if ws != [] {
      var n := LongestSide(x0, y0, x1, y1);
      assert LineCoord(x0, x1 - x0, n, 0) == x0 as real;
      assert LineCoord(y0, y1 - y0, n, 0) == y0 as real;
      RoundInt(x0);
      RoundInt(y0);
    }
  }

  /** Along the longer axis each step moves exactly one pixel. */
  lemma UnitStep(a: int, delta: int, n: nat, i: int)
    requires n > 0 && (delta == n || delta + n == 0)
    ensures Round(LineCoord(a, delta, n, i)) == if delta == n then a + i else a - i
  {
    if delta == n {
      assert Increment(delta, n) == 1.0;
      assert LineCoord(a, delta, n, i) == (a + i) as real;
      RoundInt(a + i);
    } else {
      assert delta as real == -(n as real);
      assert Increment(delta, n) == -1.0;
      assert LineCoord(a, delta, n, i) == (a - i) as real;
      RoundInt(a - i);
    }
  }

  /** No step before the last reaches the end point along the longer axis. */
  lemma LinePixelNotEnd(x0: int, y0: int, x1: int, y1: int, color: Color, i: int)
    requires 0 <= i < LongestSide(x0, y0, x1, y1)
    ensures var w := LinePixel(x0, y0, x1, y1, color, i);
            w.x != x1 || w.y != y1
  {
    var n := LongestSide(x0, y0, x1, y1);
    if x1 - x0 == n || x0 - x1 == n {
      UnitStep(x0, x1 - x0, n, i);
    } else {
      UnitStep(y0, y1 - y0, n, i);
    }
  }

  /** drawLine never draws its end point (x1, y1). */
  lemma LineOmitsEnd(x0: int, y0: int, x1: int, y1: int, color: Color)
    ensures Write(x1, y1, color) !in LineWrites(x0, y0, x1, y1, color)
  {
    var ws := LineWrites(x0, y0, x1, y1, color);
    if Write(x1, y1, color) in ws {
      var i :| 0 <= i < |ws| && ws[i] == Write(x1, y1, color);
      LinePixelNotEnd(x0, y0, x1, y1, color, i);
    }
  }

  /** The fraction i / n of the way from a to b, with 0 <= i <= n, lies between a and b. */
  lemma BetweenEnds(a: int, b: int, n: nat, i: int)
    requires n > 0 && 0 <= i <= n
    ensures var v := LineCoord(a, b - a, n, i);
            (a <= b ==> a as real <= v <= b as real) && (b <= a ==> b as real <= v <= a as real)
  {
    var t := i as real / n as real;
    var d := (b - a) as real;
    assert 0.0 <= t <= 1.0;
    assert i as real * (d / n as real) == t * d;
    if a <= b {
      assert 0.0 <= t * d <= d;
    } else {
      assert d <= t * d <= 0.0;
    }
  }

  /** Rounding a value between two integers stays between them. */
  lemma RoundBetween(v: real, lo: int, hi: int)
    requires lo as real <= v <= hi as real
    ensures lo <= Round(v) <= hi
  {
  }

  /** Each pixel drawLine draws lies in the bounding box of its end points. */
  lemma LinePixelInBox(x0: int, y0: int, x1: int, y1: int, color: Color, i: int)
    requires 0 <= i < LongestSide(x0, y0, x1, y1)
    ensures var w := LinePixel(x0, y0, x1, y1, color, i);
            (x0 <= w.x <= x1 || x1 <= w.x <= x0) && (y0 <= w.y <= y1 || y1 <= w.y <= y0)
  {
    var n := LongestSide(x0, y0, x1, y1);
    BetweenEnds(x0, x1, n, i);
    BetweenEnds(y0, y1, n, i);
    var vx := LineCoord(x0, x1 - x0, n, i);
    var vy := LineCoord(y0, y1 - y0, n, i);
    if x0 <= x1 { RoundBetween(vx, x0, x1); } else { RoundBetween(vx, x1, x0); }
    if y0 <= y1 { RoundBetween(vy, y0, y1); } else { RoundBetween(vy, y1, y0); }
  }

  /** A line between two on-screen end points draws only on-screen pixels. */
  lemma LineOnScreen(x0: int, y0: int, x1: int, y1: int, color: Color, height: int)
    requires OnScreen(x0, y0, height) && OnScreen(x1, y1, height)
    ensures AllOnScreen(LineWrites(x0, y0, x1, y1, color), height)
  {
    var ws := LineWrites(x0, y0, x1, y1, color);
    forall i | 0 <= i < |ws|
      ensures OnScreen(ws[i].x, ws[i].y, height)
    {
      LinePixelInBox(x0, y0, x1, y1, color, i);
    }
  }

  /** n splits uniquely into a quotient and a remainder by a power of 256. */
  lemma DivModUnique(n: int, d: int, q: int, r: int)
    requires d == 0x100 || d == 0x1_0000 || d == 0x100_0000
    requires 0 <= r < d && n == q * d + r
    ensures n / d == q && n % d == r
  {
    if d == 0x100 {
      assert n == q * 0x100 + r;
    } else if d == 0x1_0000 {
      assert n == q * 0x1_0000 + r;
    } else {
      assert n == q * 0x100_0000 + r;
    }
  }

  /** The alpha byte and the three colour channels of an ARGB colour. */
  function Alpha(c: Color): int { c / 0x100_0000 }
  function Red(c: Color): int { c / 0x1_0000 % 0x100 }
  function Green(c: Color): int { c / 0x100 % 0x100 }
  function Blue(c: Color): int { c % 0x100 }

  /** The colour with the given bytes; the bytes sit in disjoint positions, so `|` is `+`. */
  function Argb(a: int, r: int, g: int, b: int): (c: Color)
    requires 0 <= a < 0x100 && 0 <= r < 0x100 && 0 <= g < 0x100 && 0 <= b < 0x100
    ensures Alpha(c) == a && Red(c) == r && Green(c) == g && Blue(c) == b
  {
    var c := a * 0x100_0000 + r * 0x1_0000 + g * 0x100 + b;
    DivModUnique(c, 0x100_0000, a, r * 0x1_0000 + g * 0x100 + b);
    DivModUnique(c, 0x1_0000, a * 0x100 + r, g * 0x100 + b);
    DivModUnique(a * 0x100 + r, 0x100, a, r);
    DivModUnique(c, 0x100, a * 0x1_0000 + r * 0x100 + g, b);
    DivModUnique(a * 0x1_0000 + r * 0x100 + g, 0x100, a * 0x100 + r, g);
    c
  }

  /** Every colour is put back together from its four bytes. */
  lemma ArgbOfBytes(c: Color)
    ensures 0 <= Alpha(c) < 0x100 && 0 <= Red(c) < 0x100 && 0 <= Green(c) < 0x100 && 0 <= Blue(c) < 0x100
    ensures Argb(Alpha(c), Red(c), Green(c), Blue(c)) == c
  {
    var hi, lo := c / 0x1_0000, c % 0x1_0000;
    assert c == hi * 0x1_0000 + lo;
    var a, r := hi / 0x100, hi % 0x100;
    assert hi == a * 0x100 + r;
    var g, b := lo / 0x100, lo % 0x100;
    assert lo == g * 0x100 + b;
    DivModUnique(c, 0x100_0000, a, r * 0x1_0000 + lo);
    DivModUnique(c, 0x100, hi * 0x100 + g, b);
    DivModUnique(hi * 0x100 + g, 0x100, hi, g);
    assert c == a * 0x100_0000 + r * 0x1_0000 + g * 0x100 + b;
  }

  /** The channel's masked bits, (c & mask) = v * shift, multiplied by the factor. */
  function ChannelProduct(v: int, shift: int, factor: real): real {
    if shift == 1 then (v * 1) as real * factor
    else if shift == 0x100 then (v * 0x100) as real * factor
    else (v * 0x1_0000) as real * factor
  }

  /**
   * One channel of changeColorIntensity: the masked channel is multiplied by
   * the factor, truncated back to uint32 and masked again, which keeps the
   * bits that fall in the channel's own byte.
   */
  function ScaledChannel(v: int, shift: int, factor: real): (s: int)
    requires 0 <= v < 0x100 && (shift == 1 || shift == 0x100 || shift == 0x1_0000)
    requires 0.0 <= factor && ChannelProduct(v, shift, factor) < 0x1_0000_0000 as real
    ensures 0 <= s < 0x100
  {
    var t := Trunc(ChannelProduct(v, shift, factor));
    if shift == 1 then t % 0x100
    else if shift == 0x100 then t / 0x100 % 0x100
    else t / 0x1_0000 % 0x100
  }

  /** Scaling a non-negative value by a factor in [0, 1] does not increase it. */
  lemma ScaleDown(p: real, factor: real)
    requires 0.0 <= p && 0.0 <= factor <= 1.0
    ensures 0.0 <= p * factor <= p
    ensures factor == 1.0 ==> p * factor == p
  {
    assert p * factor <= p * 1.0;
  }

  /** A whole number scaled by a factor in [0, 1] truncates back into [0, q]; factor one gives q. */
  lemma TruncScaled(q: int, factor: real)
    requires 0 <= q && 0.0 <= factor <= 1.0
    ensures 0 <= Trunc(q as real * factor) <= q
    ensures factor == 1.0 ==> Trunc(q as real * factor) == q
  {
    var p := q as real;
    ScaleDown(p, factor);
    var t := Trunc(p * factor);
    assert t as real <= p;
    if factor == 1.0 {
      TruncOfInt(q);
    }
  }

  /** The three channel positions, each scaled down by a factor in [0, 1]. */
  lemma BlueScaleDown(v: int, factor: real)
    requires 0 <= v < 0x100 && 0.0 <= factor <= 1.0
    ensures 0 <= Trunc((v * 1) as real * factor) % 0x100 <= v
    ensures factor == 1.0 ==> Trunc((v * 1) as real * factor) % 0x100 == v
  {
    TruncScaled(v * 1, factor);
    var t := Trunc((v * 1) as real * factor);
    assert 0 <= t <= v;
    assert t % 0x100 == t;
  }

  lemma GreenScaleDown(v: int, factor: real)
    requires 0 <= v < 0x100 && 0.0 <= factor <= 1.0
    ensures 0 <= Trunc((v * 0x100) as real * factor) / 0x100 % 0x100 <= v
    ensures factor == 1.0 ==> Trunc((v * 0x100) as real * factor) / 0x100 % 0x100 == v
  {
    TruncScaled(v * 0x100, factor);
    var t := Trunc((v * 0x100) as real * factor);
    assert 0 <= t <= v * 0x100;
    assert 0 <= t / 0x100 <= v;
    assert t / 0x100 % 0x100 == t / 0x100;
  }

  lemma RedScaleDown(v: int, factor: real)
    requires 0 <= v < 0x100 && 0.0 <= factor <= 1.0
    ensures 0 <= Trunc((v * 0x1_0000) as real * factor) / 0x1_0000 % 0x100 <= v
    ensures factor == 1.0 ==> Trunc((v * 0x1_0000) as real * factor) / 0x1_0000 % 0x100 == v
  {
    TruncScaled(v * 0x1_0000, factor);
    var t := Trunc((v * 0x1_0000) as real * factor);
    assert 0 <= t <= v * 0x1_0000;
    assert 0 <= t / 0x1_0000 <= v;
    assert t / 0x1_0000 % 0x100 == t / 0x1_0000;
  }

  /** Factor one leaves a channel as it was; a factor of at most one never brightens it. */
  lemma ScaledChannelMonotone(v: int, shift: int, factor: real)
    requires 0 <= v < 0x100 && (shift == 1 || shift == 0x100 || shift == 0x1_0000)
    requires 0.0 <= factor && ChannelProduct(v, shift, factor) < 0x1_0000_0000 as real
    ensures factor == 1.0 ==> ScaledChannel(v, shift, factor) == v
    ensures factor <= 1.0 ==> ScaledChannel(v, shift, factor) <= v
  {
    if factor <= 1.0 {
      if shift == 1 {
        BlueScaleDown(v, factor);
      } else if shift == 0x100 {
        GreenScaleDown(v, factor);
      } else {
        RedScaleDown(v, factor);
      }
    }
  }

  /** The C precondition of the float-to-uint32 conversions: every scaled channel stays in range. */
  predicate IntensityInRange(c: Color, factor: real) {
    && 0.0 <= factor
    && ChannelProduct(Red(c), 0x1_0000, factor) < 0x1_0000_0000 as real
    && ChannelProduct(Green(c), 0x100, factor) < 0x1_0000_0000 as real
    && ChannelProduct(Blue(c), 1, factor) < 0x1_0000_0000 as real
  }

  /**
   * changeColorIntensity: the alpha byte is kept, and each of red, green and
   * blue is scaled and stays inside its own byte. The C code overwrites its
   * argument through a pointer; the new colour is the result here.
   */
  function ChangeColorIntensity(c: Color, factor: real): (r: Color)
    requires IntensityInRange(c, factor)
    ensures Alpha(r) == Alpha(c)
    ensures Red(r) == ScaledChannel(Red(c), 0x1_0000, factor)
    ensures Green(r) == ScaledChannel(Green(c), 0x100, factor)
    ensures Blue(r) == ScaledChannel(Blue(c), 1, factor)
  {
    ArgbOfBytes(c);
    Argb(Alpha(c), ScaledChannel(Red(c), 0x1_0000, factor), ScaledChannel(Green(c), 0x100, factor),
         ScaledChannel(Blue(c), 1, factor))
  }

  /** Factor one leaves the colour unchanged; a factor in [0, 1] brightens no channel. */
  lemma IntensityFactorBounds(c: Color, factor: real)
    requires IntensityInRange(c, factor)
    ensures factor == 1.0 ==> ChangeColorIntensity(c, factor) == c
    ensures factor <= 1.0 ==> var r := ChangeColorIntensity(c, factor);
              Red(r) <= Red(c) && Green(r) <= Green(c) && Blue(r) <= Blue(c)
  {
    ArgbOfBytes(c);
    ScaledChannelMonotone(Red(c), 0x1_0000, factor);
    ScaledChannelMonotone(Green(c), 0x100, factor);
    ScaledChannelMonotone(Blue(c), 1, factor);
    if factor == 1.0 {
      ArgbOfBytes(ChangeColorIntensity(c, factor));
    }
  }

  /** A colour buffer of WINDOW_WIDTH columns and `height` rows. */
  class ColorBuffer {
    const height: nat
    const pixels: array<Color>

    ghost predicate Valid() {
      pixels.Length == WINDOW_WIDTH * height
    }

    /** calloc: every slot starts at zero. */
    constructor (height: nat)
      ensures Valid() && this.height == height && fresh(pixels)
      ensures forall k :: 0 <= k < pixels.Length ==> pixels[k] == 0
    {
      this.height := height;
      pixels := new Color[WINDOW_WIDTH * height](_ => 0);
    }

    /** clearColorBuffer: every slot takes the clear colour. */
    method ClearColorBuffer(clearColor: Color)
      requires Valid()
      modifies pixels
      ensures forall k :: 0 <= k < pixels.Length ==> pixels[k] == clearColor
    {
      for i := 0 to pixels.Length
        invariant forall k :: 0 <= k < i ==> pixels[k] == clearColor
      {
        pixels[i] := clearColor;
      }
    }

    /** drawPixel: writes slot W*y + x and nothing else; the caller keeps (x, y) on screen. */
    method DrawPixel(x: int, y: int, color: Color)
      requires Valid() && OnScreen(x, y, height)
      modifies pixels
      ensures pixels[..] == Apply(old(pixels[..]), [Write(x, y, color)])
      ensures pixels[..] == old(pixels[..])[Index(x, y) := color]
    {
      IndexOnScreen(x, y, height);
      assert [Write(x, y, color)][..0] == [];
      pixels[Index(x, y)] := color;
    }

    /** One colour down column x over rows y0 to y1 - 1, top to bottom. */
    method FillColumn(x: int, y0: int, y1: int, color: Color)
      requires Valid() && (y0 < y1 ==> 0 <= x < WINDOW_WIDTH && 0 <= y0 && y1 <= height)
      modifies pixels
      ensures pixels[..] == Apply(old(pixels[..]), ColumnRun(x, y0, y1, color))
    {
      if y1 <= y0 {
        assert ColumnRun(x, y0, y1, color) == [];
        return;
      }
      ghost var before := pixels[..];
      assert [] + ColumnRun(x, y0, y0, color) == ColumnRun(x, y0, y0, color);
      for y := y0 to y1
        invariant pixels[..] == Apply(before, [] + ColumnRun(x, y0, y, color))
      {
        DrawPixel(x, y, color);
        ColumnStep(before, [], x, y0, y, color);
      }
      assert [] + ColumnRun(x, y0, y1, color) == ColumnRun(x, y0, y1, color);
    }

    /** drawRect: the inclusive rectangle, column by column; the caller keeps it on screen. */
    method DrawRect(x: int, y: int, width: int, height': int, color: Color)
      requires Valid()
      requires width >= 0 && height' >= 0 ==>
                 OnScreen(x, y, height) && OnScreen(x + width, y + height', height)
      modifies pixels
      ensures pixels[..] == Apply(old(pixels[..]), RectWrites(x, y, width, height', color))
    {
      var i := x;
      while i <= x + width
        invariant x <= i <= x + (if width >= 0 then width + 1 else 0)
        invariant pixels[..] == Apply(old(pixels[..]), RectColumns(x, i, y, y + height' + 1, color))
        decreases x + width - i
      {
        FillColumn(i, y, y + height' + 1, color);
        ApplyAppend(old(pixels[..]), RectColumns(x, i, y, y + height' + 1, color), ColumnRun(i, y, y + height' + 1, color));
        i := i + 1;
      }
      if width < 0 {
        assert RectColumns(x, i, y, y + height' + 1, color) == [];
      }
    }

    /**
     * drawLine: longestSideLength steps from (x0, y0), each drawing the
     * rounded current point and then advancing it by one increment.
     */
    method DrawLine(x0: int, y0: int, x1: int, y1: int, color: Color)
      requires Valid() && AllOnScreen(LineWrites(x0, y0, x1, y1, color), height)
      modifies pixels
      ensures pixels[..] == Apply(old(pixels[..]), LineWrites(x0, y0, x1, y1, color))
    {
      var longestSideLength := LongestSide(x0, y0, x1, y1);
      var xIncrement := Increment(x1 - x0, longestSideLength);
      var yIncrement := Increment(y1 - y0, longestSideLength);
      var currentX, currentY := x0 as real, y0 as real;
      ghost var ws := LineWrites(x0, y0, x1, y1, color);
      for i := 0 to longestSideLength
        invariant currentX == LineCoord(x0, x1 - x0, longestSideLength, i)
        invariant currentY == LineCoord(y0, y1 - y0, longestSideLength, i)
        invariant pixels[..] == Apply(old(pixels[..]), ws[..i])
      {
        assert ws[i] == Write(Round(currentX), Round(currentY), color);
        DrawPixel(Round(currentX), Round(currentY), color);
        IndexOnScreen(ws[i].x, ws[i].y, height);
        assert ws[..i + 1] == ws[..i] + [ws[i]];
        ApplyOne(old(pixels[..]), ws[..i], ws[i]);
        currentX := currentX + xIncrement;
        currentY := currentY + yIncrement;
        LineCoordStep(x0, x1 - x0, longestSideLength, i);
        LineCoordStep(y0, y1 - y0, longestSideLength, i);
      }
      assert ws[..longestSideLength] == ws;
    }
  }
}
