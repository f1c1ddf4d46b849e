// Number handling shared by the C renderer and its JavaScript prototype.
// Floating-point values are modelled as exact reals; the libm calls whose
// numeric results do not matter to the discrete logic are parameters.

module Numerics {

  const PI: real := 3.14159265
  const TWO_PI: real := 6.28318530
  const HALF_PI: real := 0.5 * PI
  const ONE_POINT_FIVE_PI: real := 1.5 * PI
  const FOV: real := 60.0 * (PI / 180.0)
  const HALF_FOV: real := FOV / 2.0
  /** FLT_MAX, the "no hit" distance sentinel */
  const FLT_MAX: real := 340282346638528859811704183484516925440.0

  datatype Option<T> = None | Some(value: T)

  /** The libm functions the renderer calls, taken as given. */
  datatype MathLib = MathLib(
    tan: real -> real,
    cos: real -> real,
    sin: real -> real,
    atan: real -> real,
    atan2: (real, real) -> real,
    sqrt: real -> real)

  /** The only facts about libm the discrete logic relies on. */
  ghost predicate ValidMath(m: MathLib) {
    && (forall v :: v >= 0.0 ==> m.sqrt(v) >= 0.0)
    && m.sqrt(0.0) == 0.0
    && m.atan(0.0) == 0.0
    && m.tan(HALF_FOV) > 0.0
  }

  /** `d` is an integer multiple of the positive period `p` */
  ghost predicate IsMultipleOf(d: real, p: real)
    requires p > 0.0
  {
    (d / p).Floor as real == d / p
  }

  /** The integer nearest to `q`, halves going to the even neighbour. */
  function NearestInt(q: real): (n: int)
    ensures -0.5 <= q - n as real <= 0.5
  {
    var f := q.Floor;
    var frac := q - f as real;
    if frac < 0.5 then f
    else if frac > 0.5 then f + 1
    else if f % 2 == 0 then f else f + 1
  }

  /** C's remainderf(x, TWO_PI): x minus the multiple of TWO_PI nearest to x. */
  function RemainderTwoPi(x: real): (r: real)
    ensures -TWO_PI / 2.0 <= r <= TWO_PI / 2.0
    ensures IsMultipleOf(x - r, TWO_PI)
  {
    var n := NearestInt(x / TWO_PI);
    var r := x - n as real * TWO_PI;
    assert (x - r) / TWO_PI == n as real;
    r
  }

  /** A C float-to-int conversion: truncation toward zero. */
  function Trunc(v: real): (r: int)
    ensures v >= 0.0 ==> r as real <= v < r as real + 1.0
    ensures v < 0.0 ==> r as real - 1.0 < v <= r as real
  {
    if v >= 0.0 then v.Floor else -((-v).Floor)
  }

  /** The least integer not below v: the first int a loop `x < v` stops at. */
  function Ceil(v: real): (c: int)
    ensures v <= c as real < v + 1.0
  {
    -((-v).Floor)
  }

  /** An int reaches v exactly when it reaches Ceil(v). */
  lemma CeilIsLeast(v: real, n: int)
    ensures v <= n as real <==> Ceil(v) <= n
  {
    var c := Ceil(v);
    if v <= n as real {
      assert (c - 1) as real < n as real;
    }
  }

  /** Truncating a whole number gives it back. */
  lemma TruncOfInt(n: int)
    ensures Trunc(n as real) == n
  {
  }

  /** C's `%` on int, whose result takes the sign of the dividend. */
  function CRem(a: int, b: int): (r: int)
    requires b > 0
    ensures a >= 0 ==> 0 <= r < b
    ensures a < 0 ==> -b < r <= 0
  {
    if a >= 0 then a % b else -((-a) % b)
  }

  /** C's round: to the nearest integer, halves away from zero. */
  function Round(v: real): (r: int)
    ensures -0.5 <= v - r as real <= 0.5
  {
    if v >= 0.0 then (v + 0.5).Floor else -((-v + 0.5).Floor)
  }

  /** Two angles in [0, TWO_PI) that differ by a multiple of TWO_PI are equal. */
  lemma CongruentInRangeEqual(r1: real, r2: real)
    requires 0.0 <= r1 < TWO_PI && 0.0 <= r2 < TWO_PI
    requires IsMultipleOf(r1 - r2, TWO_PI)
    ensures r1 == r2
  {
    var q := (r1 - r2) / TWO_PI;
    assert -1.0 < q < 1.0;
    assert q.Floor == 0;
  }

  /** Sums and differences of multiples of p are multiples of p. */
  lemma MultipleCombine(d1: real, d2: real, p: real)
    requires p > 0.0
    requires IsMultipleOf(d1, p) && IsMultipleOf(d2, p)
    ensures IsMultipleOf(d1 - d2, p) && IsMultipleOf(d1 + d2, p)
  {
    assert (d1 - d2) / p == d1 / p - d2 / p;
    assert (d1 + d2) / p == d1 / p + d2 / p;
    var k1, k2 := (d1 / p).Floor, (d2 / p).Floor;
    assert ((d1 - d2) / p).Floor == k1 - k2;
    assert ((d1 + d2) / p).Floor == k1 + k2;
  }

  /** k times p is a multiple of p. */
  lemma ScaledIsMultiple(k: int, p: real)
    requires p > 0.0
    ensures IsMultipleOf(k as real * p, p)
  {
    assert (k as real * p) / p == k as real;
  }
}
