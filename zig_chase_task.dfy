/**
 * Zig-zag pursuit: every half second, or at once when close to the target,
 * the chase recomputes its movement target. Close by it heads straight for
 * the target at speed 1.5; further away it heads for the target direction
 * rotated by 40 degrees, alternating the side, at speed 2.5.
 */
module ZigChase {
  import opened Geometry
  import opened Tasks

  /** The angle, in degrees, of one zig. */
  const ZigAngle: real := 40.0
  const DirectSpeed := Vec(1.5, 1.5)
  const ZigSpeed := Vec(2.5, 2.5)

  /** The movement task a chase drives: its target, its speed and its status. */
  class MovementTask {
    var target: Vec
    var moveSpeed: Vec
    var status: Status
    /** How many times this task's update has been invoked. */
    var updates: nat

    constructor (target: Vec, moveSpeed: Vec)
      ensures this.target == target && this.moveSpeed == moveSpeed
      ensures status == Inactive && updates == 0
    {
      this.target := target;
      this.moveSpeed := moveSpeed;
      status := Inactive;
      updates := 0;
    }

    method SetTarget(t: Vec)
      modifies this`target
      ensures target == t
    {
      target := t;
    }

    method SetMoveSpeed(v: Vec)
      modifies this`moveSpeed
      ensures moveSpeed == v
    {
      moveSpeed := v;
    }

    method Update()
      modifies this`updates
      ensures updates == old(updates) + 1
    {
      updates := updates + 1;
    }

    method Start()
      modifies this`status
      ensures status == Active
    {
      status := Active;
    }
  }

  /** What one update does. */
  datatype Decision =
    | Hold                  // nothing changes
    | Direct                // head for the target itself
    | Zig(direction: int)   // head for the rotated target, on side `direction`

  /** More than half a second has passed since the last recompute (times in milliseconds). */
  predicate Due(now: int, start: int)
  {
    (now - start) as real / 1000.0 > 0.5
  }

  /** Within 30% of the maximum chase distance. */
  predicate IsClose(distance: real, maxChaseDistance: real)
  {
    distance < maxChaseDistance * 3.0 / 10.0
  }

  function DirectionOf(zigLeft: bool): int
  {
    if zigLeft then -1 else 1
  }

  /**
   * The update rule: nothing happens exactly when at most 500 ms have passed
   * and the target is not close; when close the pursuit is direct; otherwise
   * it zigs, to side -1 if the last zig went left and to side 1 if not.
   */
  function Decide(now: int, start: int, distance: real, maxChaseDistance: real, zigLeft: bool): (d: Decision)
    ensures d == Hold <==> now - start <= 500 && !IsClose(distance, maxChaseDistance)
    ensures d == Direct <==> IsClose(distance, maxChaseDistance)
    ensures d.Zig? ==> now - start > 500 && d.direction == DirectionOf(zigLeft)
  {
    if Due(now, start) || IsClose(distance, maxChaseDistance) then
      if IsClose(distance, maxChaseDistance) then Direct else Zig(DirectionOf(zigLeft))
    else Hold
  }

  /** The recompute timestamp and zig side after one update. */
  datatype ZigState = ZigState(start: int, zigLeft: bool)

  /**
   * The state after one update. The clock is read twice: `now` when the
   * update tests whether half a second has passed, and `later` when a
   * recompute stores the new timestamp. Every recompute resets the
   * timestamp to `later`, and only a zig flips the side.
   */
  function Step(s: ZigState, now: int, later: int, distance: real, maxChaseDistance: real): (r: ZigState)
    ensures Decide(now, s.start, distance, maxChaseDistance, s.zigLeft) == Hold ==> r == s
    ensures Decide(now, s.start, distance, maxChaseDistance, s.zigLeft) != Hold ==> r.start == later
    ensures r.zigLeft == (if Decide(now, s.start, distance, maxChaseDistance, s.zigLeft).Zig? then !s.zigLeft else s.zigLeft)
  {
    match Decide(now, s.start, distance, maxChaseDistance, s.zigLeft)
    case Hold => s
    case Direct => ZigState(later, s.zigLeft)
    case Zig(_) => ZigState(later, !s.zigLeft)
  }

  /**
   * The zig target: the owner's centre plus the owner-to-target offset
   * rotated by -direction * 40 degrees. `rotate(v, a)` rotates v about the
   * origin by a degrees; neither entity's position is changed.
   */
  function ZigLeftRight(ownerCenter: Vec, targetCenter: Vec, direction: int, rotate: (Vec, real) -> Vec): (p: Vec)
    ensures Sub(p, ownerCenter) == rotate(Sub(targetCenter, ownerCenter), -direction as real * ZigAngle)
  {
    Add(rotate(Sub(targetCenter, ownerCenter), -direction as real * ZigAngle), ownerCenter)
  }

  /**
   * One observation per update: the clock in milliseconds at the test and
   * at the end of a recompute, and the distance to the target.
   */
  datatype Tick = Tick(now: int, later: int, distance: real)

  /** The decisions a run of updates takes. */
  function Decisions(s: ZigState, ticks: seq<Tick>, maxChaseDistance: real): seq<Decision>
    decreases ticks
  {
    if ticks == [] then []
    else
      [Decide(ticks[0].now, s.start, ticks[0].distance, maxChaseDistance, s.zigLeft)]
      + Decisions(Step(s, ticks[0].now, ticks[0].later, ticks[0].distance, maxChaseDistance), ticks[1..], maxChaseDistance)
  }

  /** The sides of the zigs among some decisions, in order. */
  function ZigSides(ds: seq<Decision>): seq<int>
  {
    if ds == [] then []
    else (if ds[0].Zig? then [ds[0].direction] else []) + ZigSides(ds[1..])
  }

  /** The sides start at `first` and alternate in sign. */
  predicate Alternating(sides: seq<int>, first: int)
    decreases sides
  {
    sides == [] || (sides[0] == first && Alternating(sides[1..], -first))
  }

  /**
   * Over any run of updates the zig sides alternate, starting with -1 if
   * the last zig went left and with 1 if not, whatever direct approaches
   * and idle updates come between.
   */
  lemma {:induction false} ZigSidesAlternate(s: ZigState, ticks: seq<Tick>, maxChaseDistance: real)
    ensures Alternating(ZigSides(Decisions(s, ticks, maxChaseDistance)), DirectionOf(s.zigLeft))
    decreases ticks
  {
    if ticks != [] {
      var t := ticks[0];
      var d := Decide(t.now, s.start, t.distance, maxChaseDistance, s.zigLeft);
      var s' := Step(s, t.now, t.later, t.distance, maxChaseDistance);
      var rest := Decisions(s', ticks[1..], maxChaseDistance);
      ZigSidesAlternate(s', ticks[1..], maxChaseDistance);
      assert Decisions(s, ticks, maxChaseDistance) == [d] + rest;
      assert ([d] + rest)[1..] == rest;
      if d.Zig? {
        assert ZigSides([d] + rest) == [d.direction] + ZigSides(rest);
        assert DirectionOf(s'.zigLeft) == -DirectionOf(s.zigLeft);
      } else {
        assert ZigSides([d] + rest) == ZigSides(rest);
      }
    }
  }

  class ZigChaseTask {
    const maxChaseDistance: real
    const movementTask: MovementTask
    /** The time of the last recompute, in milliseconds. */
    var start: int
    /** Whether the last zig went left. */
    var zigLeft: bool

    constructor (maxChaseDistance: real, movementTask: MovementTask, now: int)
      ensures this.maxChaseDistance == maxChaseDistance && this.movementTask == movementTask
      ensures start == now && !zigLeft
    {
      this.maxChaseDistance := maxChaseDistance;
      this.movementTask := movementTask;
      start := now;
      zigLeft := false;
    }

    /**
     * One update, testing the clock at `now` with the owner at `distance`
     * from the target. A recompute sets the movement target and speed,
     * updates the movement task, starts it unless it is already active, and
     * resets the timestamp to the clock's second reading `later`; otherwise
     * nothing changes.
     */
    method Update(now: int, later: int, distance: real, ownerCenter: Vec, targetCenter: Vec, targetPosition: Vec,
                  rotate: (Vec, real) -> Vec)
      modifies this`start, this`zigLeft, movementTask
      ensures ZigState(start, zigLeft) == Step(ZigState(old(start), old(zigLeft)), now, later, distance, maxChaseDistance)
      ensures Decide(now, old(start), distance, maxChaseDistance, old(zigLeft)) == Hold ==>
                unchanged(movementTask)
      ensures Decide(now, old(start), distance, maxChaseDistance, old(zigLeft)) == Direct ==>
                movementTask.target == targetPosition && movementTask.moveSpeed == DirectSpeed
      ensures Decide(now, old(start), distance, maxChaseDistance, old(zigLeft)).Zig? ==>
                movementTask.moveSpeed == ZigSpeed &&
                movementTask.target == ZigLeftRight(ownerCenter, targetCenter, DirectionOf(old(zigLeft)), rotate)
      ensures Decide(now, old(start), distance, maxChaseDistance, old(zigLeft)) != Hold ==>
                movementTask.status == Active && movementTask.updates == old(movementTask.updates) + 1
    {
      if Due(now, start) || IsClose(distance, maxChaseDistance) {
        if IsClose(distance, maxChaseDistance) {
          movementTask.SetTarget(targetPosition);
          movementTask.SetMoveSpeed(DirectSpeed);
        } else {
          movementTask.SetMoveSpeed(ZigSpeed);
          if zigLeft {
            movementTask.SetTarget(ZigLeftRight(ownerCenter, targetCenter, -1, rotate));
            zigLeft := false;
          } else {
            movementTask.SetTarget(ZigLeftRight(ownerCenter, targetCenter, 1, rotate));
            zigLeft := true;
          }
        }
        movementTask.Update();
        if movementTask.status != Active {
          movementTask.Start();
        }
        start := later;
      }
    }
  }
}
