// player.c: the observer and its per-tick move. main.c's movePlayer has the
// same body and is covered by the same method.

module PlayerMotion {
  import opened Numerics
  import opened Grid

  /** The point the player would reach this tick, along the (already turned) facing angle. */
  function Destination(x: real, y: real, angle: real, walkDirection: int, walkSpeed: real,
                       deltaTime: real, m: MathLib): (p: (real, real))
    ensures walkDirection == 0 ==> p == (x, y)
  {
    var moveStep := walkDirection as real * walkSpeed * deltaTime;
    assert walkDirection == 0 ==> m.cos(angle) * moveStep == 0.0 && m.sin(angle) * moveStep == 0.0 by {
      if walkDirection == 0 {
        assert moveStep == 0.0;
      }
    }
    (x + m.cos(angle) * moveStep, y + m.sin(angle) * moveStep)
  }

  /** Where the player stands after the collision test: the whole move or none of it. */
  function Moved(g: Level, x: real, y: real, angle: real, walkDirection: int, walkSpeed: real,
                 deltaTime: real, m: MathLib): (p: (real, real))
  {
    var d := Destination(x, y, angle, walkDirection, walkSpeed, deltaTime, m);
    if HasWallAt(g, d.0, d.1) then (x, y) else d
  }

  /**
   * The move as player.c makes it with main.c's query as written: None when
   * the collision test reads outside the table, which happens exactly when
   * the destination lies on the right or bottom edge of the closed box.
   */
  function MovedAsWritten(g: Level, x: real, y: real, angle: real, walkDirection: int, walkSpeed: real,
                          deltaTime: real, m: MathLib): (r: Option<(real, real)>)
    ensures var d := Destination(x, y, angle, walkDirection, walkSpeed, deltaTime, m);
            r.None? <==> InsideMap(d.0, d.1) && !InTable(d.0, d.1)
  {
    var d := Destination(x, y, angle, walkDirection, walkSpeed, deltaTime, m);
    match HasWallAtAsWritten(g, d.0, d.1)
    case None => None
    case Some(wall) => Some(if wall then (x, y) else d)
  }

  /** Wherever the code's collision test reads inside the table, it moves the player as Moved does. */
  lemma MovedAgrees(g: Level, x: real, y: real, angle: real, walkDirection: int, walkSpeed: real,
                    deltaTime: real, m: MathLib)
    requires MovedAsWritten(g, x, y, angle, walkDirection, walkSpeed, deltaTime, m).Some?
    ensures MovedAsWritten(g, x, y, angle, walkDirection, walkSpeed, deltaTime, m).value
            == Moved(g, x, y, angle, walkDirection, walkSpeed, deltaTime, m)
  {
    var d := Destination(x, y, angle, walkDirection, walkSpeed, deltaTime, m);
    HasWallAtAgrees(g, d.0, d.1);
  }

  /** Standing still keeps the position, whatever the map holds there. */
  lemma NoWalkNoMove(g: Level, x: real, y: real, angle: real, walkSpeed: real, deltaTime: real, m: MathLib)
    ensures Moved(g, x, y, angle, 0, walkSpeed, deltaTime, m) == (x, y)
  {
  }

  /** The player never ends a move on a wall it was not already standing on. */
  lemma MoveNeverEntersWall(g: Level, x: real, y: real, angle: real, walkDirection: int, walkSpeed: real,
                            deltaTime: real, m: MathLib)
    requires !HasWallAt(g, x, y)
    ensures var p := Moved(g, x, y, angle, walkDirection, walkSpeed, deltaTime, m);
            !HasWallAt(g, p.0, p.1)
  {
  }

  class Player {
    var x: real
    var y: real
    var walkSpeed: real
    var turnSpeed: real
    var rotationAngle: real
    var width: int
    var height: int
    /** -1 turns left, +1 right */
    var turnDirection: int
    /** -1 walks back, +1 forward */
    var walkDirection: int

    /** player.c's initial player, fields in declaration order (the uint8_t height takes (int)(PI / 2)). */
    constructor ()
      ensures x == 640.0 && y == 400.0
      ensures walkSpeed == 100.0 && turnSpeed == 90.0 * (PI / 180.0)
      ensures rotationAngle == PI / 2.0
      ensures width == 0 && height == 1
      ensures turnDirection == 0 && walkDirection == 0
    {
      x, y := 640.0, 400.0;
      walkSpeed, turnSpeed := 100.0, 90.0 * (PI / 180.0);
      rotationAngle := PI / 2.0;
      width, height := 0, Trunc(PI / 2.0);
      turnDirection, walkDirection := 0, 0;
    }

    /**
     * movePlayer: turn unconditionally, then step along the new angle unless
     * the destination is a wall. Only the angle and the position change.
     */
    method MovePlayer(g: Level, deltaTime: real, m: MathLib)
      modifies this`rotationAngle, this`x, this`y
      ensures rotationAngle == old(rotationAngle) + turnDirection as real * turnSpeed * deltaTime
      ensures (x, y) == Moved(g, old(x), old(y), rotationAngle, walkDirection, walkSpeed, deltaTime, m)
      ensures turnDirection == 0 ==> rotationAngle == old(rotationAngle)
      ensures walkDirection == 0 ==> x == old(x) && y == old(y)
    {
      rotationAngle := rotationAngle + turnDirection as real * turnSpeed * deltaTime;
      var moveStep := walkDirection as real * walkSpeed * deltaTime;
      var newPlayerX := x + m.cos(rotationAngle) * moveStep;
      var newPlayerY := y + m.sin(rotationAngle) * moveStep;
      ghost var d := Destination(x, y, rotationAngle, walkDirection, walkSpeed, deltaTime, m);
      assert moveStep == walkDirection as real * walkSpeed * deltaTime;
      assert d.0 == x + m.cos(rotationAngle) * moveStep;
      assert newPlayerX == d.0;
      assert newPlayerY == d.1;

      if HasWallAt(g, newPlayerX, newPlayerY) {
        return;
      }

      x := newPlayerX;
      y := newPlayerY;
    }
  }
}
