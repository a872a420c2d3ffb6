/**
 * Keyboard movement for the player: four direction flags, a dash flag and
 * a speed multiplier, updated by key presses and releases. After each
 * change the component emits "walk" with the scaled direction, or
 * "walkStop" when the directions cancel, unless a dash is under way.
 */
module PlayerInput {
  import opened Geometry

  /** libGDX key codes. */
  const KeyW := 51
  const KeyA := 29
  const KeyS := 47
  const KeyD := 32
  const KeySpace := 62
  const KeyShiftLeft := 59
  const KeyCapsLock := 115

  /** Scale of each component when moving diagonally. */
  const DiagonalDistance: real := 0.7071
  const DashMultiplier: real := 2.5
  const SprintMultiplier: real := 1.4

  /** The events the component triggers on the player entity. */
  datatype Event = Walk(direction: Vec) | WalkStop | Dash(direction: Vec) | Attack

  /** The sign of an integer, as -1, 0 or 1. */
  function Sign(n: int): int
  {
    if n > 0 then 1 else if n < 0 then -1 else 0
  }

  function RealSign(r: real): int
  {
    if r > 0.0 then 1 else if r < 0.0 then -1 else 0
  }

  /**
   * The walk direction for horizontal input x = right - left and vertical
   * input y = up - down: scaled by the multiplier, and also by the diagonal
   * factor when, and only when, both are non-zero. A positive multiplier
   * keeps the signs of the input.
   */
  function Direction(x: int, y: int, multiplier: real): (v: Vec)
    ensures (x == 0 || y == 0) ==> v == Vec(x as real * multiplier, y as real * multiplier)
    ensures (x != 0 && y != 0) ==> v == Vec(x as real * DiagonalDistance * multiplier, y as real * DiagonalDistance * multiplier)
    ensures multiplier > 0.0 ==> RealSign(v.x) == Sign(x) && RealSign(v.y) == Sign(y)
  {
    var dx, dy := x as real, y as real;
    if x != 0 && y != 0 then
      SignOfProduct(dx * DiagonalDistance, multiplier);
      SignOfProduct(dy * DiagonalDistance, multiplier);
      Vec(dx * DiagonalDistance * multiplier, dy * DiagonalDistance * multiplier)
    else
      SignOfProduct(dx, multiplier);
      SignOfProduct(dy, multiplier);
      Vec(dx * multiplier, dy * multiplier)
  }

  lemma SignOfProduct(a: real, k: real)
    ensures k > 0.0 ==> RealSign(a * k) == RealSign(a)
  {
    if k > 0.0 {
      if a > 0.0 { assert a * k > 0.0; }
      else if a < 0.0 { assert a * k < 0.0; }
    }
  }

  /** The player moves: not dashing, and the directions do not cancel on both axes. */
  predicate Walks(up: int, down: int, left: int, right: int, dashing: int)
  {
    dashing != 1 && !(up - down == 0 && right - left == 0)
  }

  /**
   * What a walk re-evaluation emits: nothing while dashing, otherwise
   * exactly one event, "walkStop" when up = down and right = left and
   * "walk" with the direction otherwise.
   */
  function WalkEvents(up: int, down: int, left: int, right: int, dashing: int, multiplier: real): (r: seq<Event>)
    ensures dashing == 1 <==> r == []
    ensures dashing != 1 ==> |r| == 1 && (r[0] == WalkStop <==> up == down && right == left)
    ensures Walks(up, down, left, right, dashing) ==> r == [Walk(Direction(right - left, up - down, multiplier))]
  {
    if dashing == 1 then []
    else if up - down == 0 && right - left == 0 then [WalkStop]
    else [Walk(Direction(right - left, up - down, multiplier))]
  }

  predicate IsBit(b: int)
  {
    b == 0 || b == 1
  }

  class KeyboardPlayerInputComponent {
    var up: int
    var left: int
    var down: int
    var right: int
    var dashing: int
    var speedMultiplier: real
    var walkDirection: Vec
    /** The events triggered so far, in order. */
    var events: seq<Event>
    /** Dash-end callbacks scheduled and not yet run. */
    var pendingDashEnds: nat

    ghost predicate Valid()
      reads this
    {
      IsBit(up) && IsBit(left) && IsBit(down) && IsBit(right) && IsBit(dashing)
    }

    constructor ()
      ensures Valid()
      ensures up == 0 && left == 0 && down == 0 && right == 0 && dashing == 0
      ensures speedMultiplier == 1.0 && walkDirection == Origin && events == [] && pendingDashEnds == 0
    {
      up, left, down, right, dashing := 0, 0, 0, 0, 0;
      speedMultiplier := 1.0;
      walkDirection := Origin;
      events := [];
      pendingDashEnds := 0;
    }

    /** Writes the direction for the current flags, scaled by `multiplier`. */
    method CalculateDistance(multiplier: real)
      modifies this`walkDirection
      ensures walkDirection == Direction(right - left, up - down, multiplier)
    {
      var x := (right - left) as real;
      var y := (up - down) as real;
      if x != 0.0 && y != 0.0 {
        x := (right - left) as real * DiagonalDistance;
        y := (up - down) as real * DiagonalDistance;
      }
      walkDirection := Vec(x * multiplier, y * multiplier);
    }

    method TriggerWalkEvent()
      modifies this`walkDirection, this`events
      ensures events == old(events) + WalkEvents(up, down, left, right, dashing, speedMultiplier)
      ensures walkDirection == if Walks(up, down, left, right, dashing)
                               then Direction(right - left, up - down, speedMultiplier)
                               else old(walkDirection)
    {
      if dashing == 1 {
        return;
      }
      if up - down == 0 && right - left == 0 {
        events := events + [WalkStop];
      } else {
        CalculateDistance(speedMultiplier);
        events := events + [Walk(walkDirection)];
      }
    }

    method TriggerDashEvent()
      modifies this`walkDirection, this`events
      ensures walkDirection == Direction(right - left, up - down, DashMultiplier)
      ensures events == old(events) + [Dash(walkDirection)]
    {
      CalculateDistance(DashMultiplier);
      events := events + [Dash(walkDirection)];
    }

    /**
     * A key press. W, A, S and D raise a direction flag and re-evaluate
     * walking; SPACE attacks; left SHIFT sprints; CAPS LOCK starts a dash
     * and schedules its end, yet reports the key unhandled. Every other key
     * changes nothing and is unhandled.
     */
    method KeyDown(keycode: int) returns (handled: bool)
      requires Valid()
      modifies this
      ensures Valid()
      ensures handled <==> keycode in {KeyW, KeyA, KeyS, KeyD, KeySpace, KeyShiftLeft}
      ensures up == (if keycode == KeyW then 1 else old(up))
      ensures left == (if keycode == KeyA then 1 else old(left))
      ensures down == (if keycode == KeyS then 1 else old(down))
      ensures right == (if keycode == KeyD then 1 else old(right))
      ensures dashing == (if keycode == KeyCapsLock then 1 else old(dashing))
      ensures speedMultiplier == (if keycode == KeyShiftLeft then SprintMultiplier else old(speedMultiplier))
      ensures pendingDashEnds == old(pendingDashEnds) + (if keycode == KeyCapsLock then 1 else 0)
      ensures keycode in {KeyW, KeyA, KeyS, KeyD, KeyShiftLeft} ==>
                events == old(events) + WalkEvents(up, down, left, right, dashing, speedMultiplier)
      ensures keycode == KeySpace ==> events == old(events) + [Attack]
      ensures keycode == KeyCapsLock ==>
                walkDirection == Direction(right - left, up - down, DashMultiplier) &&
                events == old(events) + [Dash(walkDirection)]
      ensures keycode !in {KeyW, KeyA, KeyS, KeyD, KeySpace, KeyShiftLeft, KeyCapsLock} ==> events == old(events)
      ensures walkDirection == if keycode == KeyCapsLock then Direction(right - left, up - down, DashMultiplier)
                               else if keycode in {KeyW, KeyA, KeyS, KeyD, KeyShiftLeft} && Walks(up, down, left, right, dashing)
                               then Direction(right - left, up - down, speedMultiplier)
                               else old(walkDirection)
    {
      if keycode == KeyW {
        up := 1;
        TriggerWalkEvent();
        return true;
      } else if keycode == KeyA {
        left := 1;
        TriggerWalkEvent();
        return true;
      } else if keycode == KeyS {
        down := 1;
        TriggerWalkEvent();
        return true;
      } else if keycode == KeyD {
        right := 1;
        TriggerWalkEvent();
        return true;
      } else if keycode == KeySpace {
        events := events + [Attack];
        return true;
      } else if keycode == KeyShiftLeft {
        speedMultiplier := SprintMultiplier;
        TriggerWalkEvent();
        return true;
      } else if keycode == KeyCapsLock {
        dashing := 1;
        TriggerDashEvent();
        pendingDashEnds := pendingDashEnds + 1;
      }
      return false;
    }

    /**
     * A key release. W, A, S and D lower their flag and left SHIFT ends the
     * sprint, each re-evaluating walking; every other key changes nothing.
     */
    method KeyUp(keycode: int) returns (handled: bool)
      requires Valid()
      modifies this
      ensures Valid()
      ensures handled <==> keycode in {KeyW, KeyA, KeyS, KeyD, KeyShiftLeft}
      ensures up == (if keycode == KeyW then 0 else old(up))
      ensures left == (if keycode == KeyA then 0 else old(left))
      ensures down == (if keycode == KeyS then 0 else old(down))
      ensures right == (if keycode == KeyD then 0 else old(right))
      ensures dashing == old(dashing) && pendingDashEnds == old(pendingDashEnds)
      ensures speedMultiplier == (if keycode == KeyShiftLeft then 1.0 else old(speedMultiplier))
      ensures handled ==> events == old(events) + WalkEvents(up, down, left, right, dashing, speedMultiplier)
      ensures !handled ==> events == old(events)
      ensures walkDirection == if handled && Walks(up, down, left, right, dashing)
                               then Direction(right - left, up - down, speedMultiplier)
                               else old(walkDirection)
    {
      if keycode == KeyW {
        up := 0;
      } else if keycode == KeyA {
        left := 0;
      } else if keycode == KeyS {
        down := 0;
      } else if keycode == KeyD {
        right := 0;
      } else if keycode == KeyShiftLeft {
        speedMultiplier := 1.0;
      } else {
        return false;
      }
      TriggerWalkEvent();
      return true;
    }

    /** The scheduled end of a dash: normal speed, no dash, walking re-evaluated. */
    method DashEnd()
      requires Valid() && pendingDashEnds > 0
      modifies this
      ensures Valid()
      ensures speedMultiplier == 1.0 && dashing == 0 && pendingDashEnds == old(pendingDashEnds) - 1
      ensures up == old(up) && left == old(left) && down == old(down) && right == old(right)
      ensures events == old(events) + WalkEvents(up, down, left, right, 0, 1.0)
      ensures walkDirection == if Walks(up, down, left, right, 0)
                               then Direction(right - left, up - down, 1.0)
                               else old(walkDirection)
    {
      speedMultiplier := 1.0;
      dashing := 0;
      pendingDashEnds := pendingDashEnds - 1;
      TriggerWalkEvent();
    }
  }
}
