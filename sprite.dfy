// sprite.c: the sprite table, the visibility pass, the far-to-near sort and
// the per-pixel projection of each visible sprite into the colour buffer.

module Sprites {
  import opened Numerics
  import opened Utils
  import opened Grid
  import opened Graphics
  import opened RayCaster
  import opened Wall

  const NUM_SPRITES: int := 3
  const TEXTURE_BARREL: int := 9
  /** The margin added to half the field of view when deciding visibility. */
  const EPSILON: real := 0.2
  /** Texels of this colour are transparent and never drawn. */
  const TRANSPARENT: Color := 0xFFFF00FF

  datatype Sprite = Sprite(x: real, y: real, distance: real, angle: real, visible: bool, textureIndex: int)

  /** The static table; distance, angle and visible start zeroed. */
  const INITIAL_SPRITES: seq<Sprite> := [
    Sprite(640.0, 630.0, 0.0, 0.0, false, TEXTURE_BARREL),
    Sprite(250.0, 600.0, 0.0, 0.0, false, 11),
    Sprite(300.0, 400.0, 0.0, 0.0, false, 12)
  ]

  /** Bring a raw angle difference into [-PI, PI] with one correction each way, then take |.|. */
  function WrapAngle(a: real): real {
    var b := if a > PI then a - TWO_PI else a;
    var c := if b < -PI then b + TWO_PI else b;
    if c < 0.0 then -c else c
  }

  /**
   * A difference within three half-turns of zero ends in [0, PI], differing
   * from the absolute value of the raw one by at most one whole turn.
   */
  lemma WrapAngleRange(a: real)
    requires -3.0 * PI < a < 3.0 * PI
    ensures 0.0 <= WrapAngle(a) <= PI
    ensures WrapAngle(a) == a || WrapAngle(a) == -a
         || WrapAngle(a) == a - TWO_PI || WrapAngle(a) == TWO_PI - a
         || WrapAngle(a) == a + TWO_PI || WrapAngle(a) == -(a + TWO_PI)
  {
  }

  /** A difference already in [-PI, PI] is only made absolute. */
  lemma WrapAngleInRange(a: real)
    requires -PI <= a <= PI
    ensures WrapAngle(a) == if a < 0.0 then -a else a
  {
  }

  /** The wrapped angle between the facing direction and the sprite. */
  function SpriteAngle(s: Sprite, px: real, py: real, rotationAngle: real, m: MathLib): real {
    WrapAngle(rotationAngle - m.atan2(s.y - py, s.x - px))
  }

  predicate IsVisible(s: Sprite, px: real, py: real, rotationAngle: real, m: MathLib) {
    SpriteAngle(s, px, py, rotationAngle, m) < HALF_FOV + EPSILON
  }

  /** A sprite after the visibility pass. */
  function Marked(s: Sprite, px: real, py: real, rotationAngle: real, m: MathLib): Sprite
    requires ValidMath(m)
  {
    if IsVisible(s, px, py, rotationAngle, m) then
      s.(visible := true, angle := SpriteAngle(s, px, py, rotationAngle, m),
         distance := DistanceBetweenPoints(m, s.x, s.y, px, py))
    else
      s.(visible := false)
  }

  /**
   * The pass sets visible exactly when the wrapped angle is inside the
   * widened half field of view; a visible sprite gets its angle and its
   * distance, a hidden one keeps them; position and texture never change.
   */
  lemma MarkedFields(s: Sprite, px: real, py: real, rotationAngle: real, m: MathLib)
    requires ValidMath(m)
    ensures var t := Marked(s, px, py, rotationAngle, m);
            && (t.visible <==> SpriteAngle(s, px, py, rotationAngle, m) < HALF_FOV + EPSILON)
            && t.x == s.x && t.y == s.y && t.textureIndex == s.textureIndex
            && (t.visible ==> t.angle == SpriteAngle(s, px, py, rotationAngle, m)
                              && t.distance == DistanceBetweenPoints(m, s.x, s.y, px, py) && t.distance >= 0.0)
            && (!t.visible ==> t.angle == s.angle && t.distance == s.distance)
  {
  }

  /** The visible sprites among the first n, in table order. */
  function VisibleOf(ss: seq<Sprite>, n: int): seq<Sprite>
    requires 0 <= n <= |ss|
  {
    if n == 0 then []
    else VisibleOf(ss, n - 1) + (if ss[n - 1].visible then [ss[n - 1]] else [])
  }

  /**
   * VisibleOf keeps every visible sprite among the first n and nothing else,
   * so there are at most n of them.
   */
  lemma {:induction false} VisibleOfSpec(ss: seq<Sprite>, n: int)
    requires 0 <= n <= |ss|
    ensures |VisibleOf(ss, n)| <= n
    ensures forall s :: s in VisibleOf(ss, n) ==> s.visible && s in ss[..n]
    ensures forall i :: 0 <= i < n && ss[i].visible ==> ss[i] in VisibleOf(ss, n)
  {
    if n > 0 {
      VisibleOfSpec(ss, n - 1);
      assert ss[..n] == ss[..n - 1] + [ss[n - 1]];
    }
  }

  /** VisibleOf looks only at the first n sprites. */
  lemma {:induction false} VisibleOfPrefix(a: seq<Sprite>, b: seq<Sprite>, n: int)
    requires 0 <= n <= |a| && n <= |b| && a[..n] == b[..n]
    ensures VisibleOf(a, n) == VisibleOf(b, n)
  {
    if n > 0 {
      assert a[n - 1] == a[..n][n - 1] == b[..n][n - 1] == b[n - 1];
      assert a[..n - 1] == a[..n][..n - 1] == b[..n][..n - 1] == b[..n - 1];
      VisibleOfPrefix(a, b, n - 1);
    }
  }

  /**
   * The visibility loop of renderSpriteProjection: mark every sprite and copy
   * the visible ones, in table order, to the front of visibleSprites.
   */
  method FindVisibleSprites(sprites: array<Sprite>, px: real, py: real, rotationAngle: real, m: MathLib)
    returns (visibleSprites: array<Sprite>, numVisibleSprites: nat)
    requires ValidMath(m) && sprites.Length == NUM_SPRITES
    modifies sprites
    ensures fresh(visibleSprites) && visibleSprites.Length == NUM_SPRITES
    ensures forall i :: 0 <= i < NUM_SPRITES ==> sprites[i] == Marked(old(sprites[i]), px, py, rotationAngle, m)
    ensures numVisibleSprites <= NUM_SPRITES
    ensures visibleSprites[..numVisibleSprites] == VisibleOf(sprites[..], sprites.Length)
  {
    visibleSprites := new Sprite[sprites.Length](_ => Sprite(0.0, 0.0, 0.0, 0.0, false, 0));
    numVisibleSprites := 0;
    for i := 0 to sprites.Length
      invariant forall k :: 0 <= k < i ==> sprites[k] == Marked(old(sprites[k]), px, py, rotationAngle, m)
      invariant forall k :: i <= k < sprites.Length ==> sprites[k] == old(sprites[k])
      invariant numVisibleSprites <= i
      invariant visibleSprites[..numVisibleSprites] == VisibleOf(sprites[..i], i)
    {
      ghost var before := sprites[..i];
      MarkSprite(sprites, i, px, py, rotationAngle, m);
      if sprites[i].visible {
        visibleSprites[numVisibleSprites] := sprites[i];
        numVisibleSprites := numVisibleSprites + 1;
      }
      VisibleStep(sprites[..i + 1], before, i);
    }
    assert sprites[..] == sprites[..sprites.Length];
  }

  /** The body of the visibility loop for sprite i: it alone is marked. */
  method MarkSprite(sprites: array<Sprite>, i: int, px: real, py: real, rotationAngle: real, m: MathLib)
    requires ValidMath(m) && 0 <= i < sprites.Length
    modifies sprites
    ensures sprites[..] == old(sprites[..])[i := Marked(old(sprites[i]), px, py, rotationAngle, m)]
  {
    var angleSpritePlayer := rotationAngle - m.atan2(sprites[i].y - py, sprites[i].x - px);
    if angleSpritePlayer > PI {
      angleSpritePlayer := angleSpritePlayer - TWO_PI;
    }
    if angleSpritePlayer < -PI {
      angleSpritePlayer := angleSpritePlayer + TWO_PI;
    }
    angleSpritePlayer := if angleSpritePlayer < 0.0 then -angleSpritePlayer else angleSpritePlayer;
    assert angleSpritePlayer == SpriteAngle(sprites[i], px, py, rotationAngle, m);

    if angleSpritePlayer < HALF_FOV + EPSILON {
      sprites[i] := sprites[i].(visible := true, angle := angleSpritePlayer,
                                distance := DistanceBetweenPoints(m, sprites[i].x, sprites[i].y, px, py));
    } else {
      sprites[i] := sprites[i].(visible := false);
    }
  }

  /** One step of the visibility loop: the prefix grows by the sprite just marked. */
  lemma VisibleStep(after: seq<Sprite>, before: seq<Sprite>, i: int)
    requires 0 <= i && |after| == i + 1 && |before| == i && after[..i] == before
    ensures VisibleOf(after, i + 1) == VisibleOf(before, i) + (if after[i].visible then [after[i]] else [])
  {
    VisibleOfPrefix(after, before, i);
  }

  /**
   * compareSpriteDistance as written: the float difference s2 - s1 returned
   * as int, which truncates toward zero.
   */
  function CompareSpriteDistanceAsWritten(s1: Sprite, s2: Sprite): int {
    Trunc(s2.distance - s1.distance)
  }

  /**
   * The truncating comparator calls sprites half a unit apart equal, so qsort
   * may put the nearer one first, and its "equal" is not transitive, which
   * the C library's qsort requires of a comparison function.
   */
  lemma ComparatorTruncates()
    ensures var near, far := Sprite(0.0, 0.0, 2.0, 0.0, true, 9), Sprite(0.0, 0.0, 2.5, 0.0, true, 11);
            CompareSpriteDistanceAsWritten(near, far) == 0 && CompareSpriteDistanceAsWritten(far, near) == 0
    ensures var a, b, c := Sprite(0.0, 0.0, 0.0, 0.0, true, 9), Sprite(0.0, 0.0, 0.6, 0.0, true, 11),
                           Sprite(0.0, 0.0, 1.2, 0.0, true, 12);
            && CompareSpriteDistanceAsWritten(a, b) == 0
            && CompareSpriteDistanceAsWritten(b, c) == 0
            && CompareSpriteDistanceAsWritten(a, c) == 1
  {
    assert Trunc(0.5) == 0 && Trunc(-0.5) == 0;
    assert Trunc(0.6) == 0 && Trunc(1.2) == 1;
  }

  /** The comparator as intended: the sign of s2.distance - s1.distance, farther first. */
  function CompareSpriteDistance(s1: Sprite, s2: Sprite): (c: int)
    ensures c < 0 <==> s1.distance > s2.distance
    ensures c == 0 <==> s1.distance == s2.distance
    ensures c > 0 <==> s1.distance < s2.distance
  {
    if s2.distance > s1.distance then 1 else if s2.distance < s1.distance then -1 else 0
  }

  /**
   * The intended comparator is a consistent ordering, as qsort requires:
   * antisymmetric, and both it and its "equal" are transitive.
   */
  lemma CompareSpriteDistanceConsistent(a: Sprite, b: Sprite, c: Sprite)
    ensures CompareSpriteDistance(a, b) == -CompareSpriteDistance(b, a)
    ensures CompareSpriteDistance(a, b) == 0 && CompareSpriteDistance(b, c) == 0 ==> CompareSpriteDistance(a, c) == 0
    ensures CompareSpriteDistance(a, b) >= 0 && CompareSpriteDistance(b, c) >= 0 ==> CompareSpriteDistance(a, c) >= 0
  {
  }

  /** Far to near: no sprite is nearer than one after it. */
  predicate FarToNear(s: seq<Sprite>) {
    forall i, j :: 0 <= i < j < |s| ==> s[i].distance >= s[j].distance
  }

  /** Far to near means that the intended comparator never asks for a swap. */
  lemma FarToNearAgrees(s: seq<Sprite>)
    ensures FarToNear(s) <==> forall i, j :: 0 <= i < j < |s| ==> CompareSpriteDistance(s[i], s[j]) <= 0
  {
  }

  /**
   * qsort of visibleSprites[0 .. n) under the intended comparator, as an
   * insertion sort by adjacent swaps: the prefix ends far to near and is a
   * permutation of what it held; the rest of the array is untouched.
   */
  method SortByDistance(a: array<Sprite>, n: int)
    requires 0 <= n <= a.Length
    modifies a
    ensures FarToNear(a[..n])
    ensures multiset(a[..n]) == multiset(old(a[..n]))
    ensures a[n..] == old(a[n..])
  {
    if n == 0 {
      return;
    }
    for i := 1 to n
      invariant FarToNear(a[..i])
      invariant multiset(a[..n]) == multiset(old(a[..n]))
      invariant a[n..] == old(a[n..])
    {
      SinkLast(a, n, i);
    }
  }

  /** The sprites s[j - 1] and s[j] exchanged. */
  function SwapDown(s: seq<Sprite>, j: int): (t: seq<Sprite>)
    requires 0 < j < |s|
    ensures |t| == |s| && t[j - 1] == s[j] && t[j] == s[j - 1]
    ensures forall p :: 0 <= p < |s| && p != j - 1 && p != j ==> t[p] == s[p]
  {
    s[j - 1 := s[j]][j := s[j - 1]]
  }

  /**
   * While s[j] sinks through the first i + 1: apart from it they are far to
   * near, it is nearer than everything after it, and its two neighbours are
   * in order with each other.
   */
  ghost predicate Sinking(s: seq<Sprite>, j: int, i: int) {
    && 0 <= j <= i < |s|
    && (forall p, q :: 0 <= p < q <= i && p != j && q != j ==> s[p].distance >= s[q].distance)
    && (forall q :: j < q <= i ==> s[j].distance > s[q].distance)
    && (0 < j < i ==> s[j - 1].distance >= s[j + 1].distance)
  }

  /** A far-to-near prefix of i sprites, with one more sprite at its end, is where the sinking starts. */
  lemma SinkStart(s: seq<Sprite>, i: int)
    requires 0 < i < |s| && FarToNear(s[..i])
    ensures Sinking(s, i, i)
  {
    assert forall p :: 0 <= p < i ==> s[..i][p] == s[p];
  }

  /** Swapping the sinking sprite with a farther-from-last neighbour moves it one place down. */
  lemma SinkStep(s: seq<Sprite>, j: int, i: int)
    requires Sinking(s, j, i) && 0 < j && s[j - 1].distance < s[j].distance
    ensures Sinking(SwapDown(s, j), j - 1, i)
  {
  }

  /** When the neighbour before the sinking sprite is no nearer, the first i + 1 are far to near. */
  lemma SinkEnd(s: seq<Sprite>, j: int, i: int)
    requires Sinking(s, j, i) && (j == 0 || s[j - 1].distance >= s[j].distance)
    ensures FarToNear(s[..i + 1])
  {
    var t := s[..i + 1];
    forall p, q | 0 <= p < q < |t|
      ensures t[p].distance >= t[q].distance
    {
      if p != j && q != j {
      } else if p == j {
      } else if p < j - 1 {
        assert s[p].distance >= s[j - 1].distance;
      }
    }
  }

  /** Swapping two neighbours inside the first n leaves the first n a permutation and the rest alone. */
  lemma SwapKeepsPrefix(s: seq<Sprite>, j: int, n: int)
    requires 0 < j < n <= |s|
    ensures multiset(SwapDown(s, j)[..n]) == multiset(s[..n])
    ensures SwapDown(s, j)[n..] == s[n..]
  {
    assert SwapDown(s, j)[..n] == s[..n][j - 1 := s[j]][j := s[j - 1]];
  }

  /** One pass of the insertion sort: a[i] moves left past every nearer sprite. */
  method SinkLast(a: array<Sprite>, n: int, i: int)
    requires 0 < i < n <= a.Length && FarToNear(a[..i])
    modifies a
    ensures FarToNear(a[..i + 1])
    ensures multiset(a[..n]) == multiset(old(a[..n]))
    ensures a[n..] == old(a[n..])
  {
    SinkStart(a[..], i);
    var j := i;
    while j > 0 && CompareSpriteDistance(a[j - 1], a[j]) > 0
      invariant Sinking(a[..], j, i)
      invariant multiset(a[..n]) == multiset(old(a[..n]))
      invariant a[n..] == old(a[n..])
      decreases j
    {
      ghost var before := a[..];
      a[j - 1], a[j] := a[j], a[j - 1];
      assert a[..] == SwapDown(before, j);
      SinkStep(before, j, i);
      SwapKeepsPrefix(before, j, n);
      j := j - 1;
    }
    SinkEnd(a[..], j, i);
  }
}
