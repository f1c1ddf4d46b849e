// utils.c: angle normalisation and point distance. ray.c and main.c keep
// private copies of both with the same bodies; this module is the one model.

module Utils {
  import opened Numerics

  /**
   * normalizeAngle: remainderf by TWO_PI, then TWO_PI added to a negative
   * remainder. The C code overwrites its argument through a pointer; the new
   * value is the result here.
   */
  function NormalizeAngle(angle: real): (r: real)
    ensures 0.0 <= r < TWO_PI
    ensures IsMultipleOf(angle - r, TWO_PI)
  {
    var rem := RemainderTwoPi(angle);
    if rem < 0.0 then
      assert angle - (TWO_PI + rem) == (angle - rem) - TWO_PI;
      ScaledIsMultiple(1, TWO_PI);
      MultipleCombine(angle - rem, TWO_PI, TWO_PI);
      TWO_PI + rem
    else
      rem
  }

  /** A normalized angle is left as it is. */
  lemma NormalizeAngleIdempotent(angle: real)
    ensures NormalizeAngle(NormalizeAngle(angle)) == NormalizeAngle(angle)
  {
    var once := NormalizeAngle(angle);
    var twice := NormalizeAngle(once);
    CongruentInRangeEqual(once, twice);
  }

  /** Whole turns added to an angle do not change its normalized value. */
  lemma NormalizeAnglePeriodic(angle: real, k: int)
    ensures NormalizeAngle(angle + k as real * TWO_PI) == NormalizeAngle(angle)
  {
    var shifted := angle + k as real * TWO_PI;
    var r1, r2 := NormalizeAngle(shifted), NormalizeAngle(angle);
    ScaledIsMultiple(k, TWO_PI);
    // r1 - r2 == (angle - r2) - (shifted - r1) + k * TWO_PI
    MultipleCombine(angle - r2, shifted - r1, TWO_PI);
    assert r1 - r2 == ((angle - r2) - (shifted - r1)) + k as real * TWO_PI;
    MultipleCombine((angle - r2) - (shifted - r1), k as real * TWO_PI, TWO_PI);
    CongruentInRangeEqual(r1, r2);
  }

  /** distanceBetweenPoints: the Euclidean distance through sqrtf. */
  function DistanceBetweenPoints(m: MathLib, x1: real, y1: real, x2: real, y2: real): (d: real)
    requires ValidMath(m)
    ensures d >= 0.0
  {
    m.sqrt((x2 - x1) * (x2 - x1) + (y2 - y1) * (y2 - y1))
  }

  /** The distance from a point to itself is zero. */
  lemma DistanceToSelfIsZero(m: MathLib, x: real, y: real)
    requires ValidMath(m)
    ensures DistanceBetweenPoints(m, x, y, x, y) == 0.0
  {
    assert (x - x) * (x - x) + (y - y) * (y - y) == 0.0;
  }

  /** The distance does not depend on the order of the two points. */
  lemma DistanceSymmetric(m: MathLib, x1: real, y1: real, x2: real, y2: real)
    requires ValidMath(m)
    ensures DistanceBetweenPoints(m, x1, y1, x2, y2) == DistanceBetweenPoints(m, x2, y2, x1, y1)
  {
    assert (x2 - x1) * (x2 - x1) == (x1 - x2) * (x1 - x2);
    assert (y2 - y1) * (y2 - y1) == (y1 - y2) * (y1 - y2);
  }
}
