/**
 * The boss's decoy summoning: when its health falls low enough, and only
 * while a counter shared by every instance allows it, the boss stops
 * moving and four decoys appear on the diagonals around it.
 */
module SpawnDecoys {
  import opened Geometry
  import opened Entities
  import opened Areas

  const SpawnPriority := 20
  const NoPriority := -1

  /**
   * health / maxHealth < num / den, for the float ratio of two ints, and a
   * positive num / den. A zero maximum gives +Inf or NaN (never below) for
   * health >= 0 and -Inf (below) for negative health.
   */
  predicate RatioBelow(health: int, maxHealth: int, num: nat, den: nat)
  {
    if maxHealth > 0 then den * health < num * maxHealth
    else if maxHealth < 0 then den * health > num * maxHealth
    else health < 0
  }

  /** For a positive maximum, the integer comparison is the real-valued ratio's. */
  lemma RatioBelowExact(health: int, maxHealth: int, num: nat, den: nat)
    requires maxHealth > 0 && den > 0
    ensures RatioBelow(health, maxHealth, num, den) <==> (health as real / maxHealth as real < num as real / den as real)
  {
    var h, m, n, d := health as real, maxHealth as real, num as real, den as real;
    assert (d * h < n * m) <==> (h / m < n / d) by {
      assert h / m * (m * d) == h * d;
      assert n / d * (m * d) == n * m;
      PositiveScaleKeepsOrder(h / m, n / d, m * d);
    }
  }

  lemma PositiveScaleKeepsOrder(a: real, b: real, k: real)
    requires k > 0.0
    ensures a < b <==> a * k < b * k
  {
  }

  /**
   * Whether the owner stands outside the 30 by 30 map. As written it asks
   * for x < 0 and x > 30 at once, so it never holds.
   */
  function MapBound(position: Vec): (r: bool)
    ensures !r
  {
    position.x < 0.0 && position.y < 0.0 && position.x > 30.0 && position.y > 30.0
  }

  /**
   * The spawning policy. Since MapBound never holds, the "no enemies left"
   * clause never fires, and spawning is allowed exactly when health is
   * below half with no spawn yet, or below a quarter with fewer than two.
   */
  function CanSpawn(health: int, maxHealth: int, numEnemy: int, position: Vec, spawned: int): (r: bool)
    ensures r <==> ((RatioBelow(health, maxHealth, 1, 2) && spawned < 1)
                    || (RatioBelow(health, maxHealth, 1, 4) && spawned < 2))
    ensures r ==> spawned < 2
  {
    if numEnemy == 0 && RatioBelow(health, maxHealth, 1, 2) && MapBound(position) then true
    else if RatioBelow(health, maxHealth, 1, 2) && spawned < 1 then true
    else RatioBelow(health, maxHealth, 1, 4) && spawned < 2
  }

  /** 20 exactly when spawning is allowed, -1 otherwise. */
  function Priority(health: int, maxHealth: int, numEnemy: int, position: Vec, spawned: int): (p: int)
    ensures p == SpawnPriority <==> CanSpawn(health, maxHealth, numEnemy, position, spawned)
    ensures p == SpawnPriority || p == NoPriority
  {
    if CanSpawn(health, maxHealth, numEnemy, position, spawned) then SpawnPriority else NoPriority
  }

  /** The offset of the i-th decoy from the owner's centre. */
  function DecoyOffset(i: int): (v: Vec)
    ensures v.x == 1.0 || v.x == -1.0
    ensures v.y == 1.0 || v.y == -1.0
  {
    match i % 4
    case 0 => Vec(-1.0, 1.0)
    case 1 => Vec(1.0, 1.0)
    case 2 => Vec(-1.0, -1.0)
    case _ => Vec(1.0, -1.0)
  }

  /** The four decoys sit on four different diagonals. */
  lemma DecoyOffsetsDistinct(i: int, j: int)
    requires 0 <= i < 4 && 0 <= j < 4 && i != j
    ensures DecoyOffset(i) != DecoyOffset(j)
  {
  }

  /** One observation of the boss when an update runs: its combat stats and the area's enemy count. */
  datatype Observation = Observation(health: int, maxHealth: int, numEnemy: int, position: Vec)

  /** The shared counter after a run of updates. */
  function CounterAfter(spawned: int, updates: seq<Observation>): int
    decreases updates
  {
    if updates == [] then spawned
    else
      var o := updates[0];
      CounterAfter(if CanSpawn(o.health, o.maxHealth, o.numEnemy, o.position, spawned) then spawned + 1 else spawned,
                   updates[1..])
  }

  /** Over any run of updates the counter never decreases and never exceeds 2. */
  lemma {:induction false} CounterBounded(spawned: int, updates: seq<Observation>)
    requires spawned <= 2
    ensures spawned <= CounterAfter(spawned, updates) <= 2
    decreases updates
  {
    if updates != [] {
      var o := updates[0];
      var next := if CanSpawn(o.health, o.maxHealth, o.numEnemy, o.position, spawned) then spawned + 1 else spawned;
      CounterBounded(next, updates[1..]);
    }
  }

  /** From zero, at most two spawns ever happen, however low health goes. */
  lemma {:induction false} AtMostTwoSpawns(updates: seq<Observation>)
    ensures 0 <= CounterAfter(0, updates) <= 2
  {
    CounterBounded(0, updates);
  }

  /** The i-th decoy: fresh, a Loki decoy, its centre half a tile beyond its diagonal slot. */
  twostate predicate DecoyAt(new e: Entity, i: int, ownerCenter: Vec, tileSize: real)
    reads e
  {
    && fresh(e) && e.kind == LokiDecoy
    && e.CenterPosition() == Add(Add(ownerCenter, DecoyOffset(i)), Vec(tileSize / 2.0, tileSize / 2.0))
  }

  /**
   * The static spawn counter. Java's `static` makes every task share it;
   * here the one object must be passed to every task's constructor.
   */
  class SpawnCounter {
    var spawned: int

    constructor ()
      ensures spawned == 0
    {
      spawned := 0;
    }
  }

  /** The owner's physics movement component. */
  class PhysicsMovement {
    var moving: bool

    constructor (moving: bool)
      ensures this.moving == moving
    {
      this.moving := moving;
    }

    method SetMoving(m: bool)
      modifies this`moving
      ensures moving == m
    {
      moving := m;
    }
  }

  class SpawnDecoysTask {
    const counter: SpawnCounter
    const gameArea: GameArea
    const owner: Entity
    const ownerMovement: PhysicsMovement

    constructor (counter: SpawnCounter, gameArea: GameArea, owner: Entity, ownerMovement: PhysicsMovement)
      ensures this.counter == counter && this.gameArea == gameArea
      ensures this.owner == owner && this.ownerMovement == ownerMovement
    {
      this.counter := counter;
      this.gameArea := gameArea;
      this.owner := owner;
      this.ownerMovement := ownerMovement;
    }

    method GetPriority(health: int, maxHealth: int) returns (p: int)
      ensures p == Priority(health, maxHealth, gameArea.numEnemy, owner.position, counter.spawned)
    {
      if CanSpawn(health, maxHealth, gameArea.numEnemy, owner.position, counter.spawned) {
        return SpawnPriority;
      }
      return NoPriority;
    }

    /**
     * Creates four fresh decoys and counts each as an enemy; the i-th is
     * centred on the owner's centre moved by DecoyOffset(i), so its own
     * centre ends half a tile beyond that point.
     */
    method Spawn(decoyHalfScale: Vec)
      modifies gameArea`numEnemy, gameArea`areaEntities
      ensures gameArea.numEnemy == old(gameArea.numEnemy) + 4
      ensures |gameArea.areaEntities| == |old(gameArea.areaEntities)| + 4
      ensures gameArea.areaEntities[..|old(gameArea.areaEntities)|] == old(gameArea.areaEntities)
      ensures var added := gameArea.areaEntities[|old(gameArea.areaEntities)|..];
              forall i :: 0 <= i < 4 ==> DecoyAt(added[i], i, old(owner.CenterPosition()), gameArea.tileSize)
    {
      ghost var decoys: seq<Entity> := [];
      var i := 0;
      while i < 4
        invariant 0 <= i <= 4 && |decoys| == i
        invariant gameArea.numEnemy == old(gameArea.numEnemy) + i
        invariant gameArea.areaEntities == old(gameArea.areaEntities) + decoys
        invariant owner.CenterPosition() == old(owner.CenterPosition())
        invariant forall k :: 0 <= k < i ==> DecoyAt(decoys[k], k, old(owner.CenterPosition()), gameArea.tileSize)
      {
        var decoy := new Entity(LokiDecoy, decoyHalfScale);
        gameArea.IncNum();
        var spawnPosition := Add(owner.CenterPosition(), DecoyOffset(i));
        gameArea.SpawnEntityAt(decoy, spawnPosition, true, true);
        decoys := decoys + [decoy];
        i := i + 1;
      }
      assert gameArea.areaEntities[|old(gameArea.areaEntities)|..] == decoys;
    }

    /**
     * When spawning is allowed: stop the owner, spawn the decoys, count one
     * more spawn. Otherwise nothing changes.
     */
    method Update(health: int, maxHealth: int, decoyHalfScale: Vec) returns (fired: bool)
      modifies counter, ownerMovement, gameArea`numEnemy, gameArea`areaEntities
      ensures fired == CanSpawn(health, maxHealth, old(gameArea.numEnemy), owner.position, old(counter.spawned))
      ensures fired ==> counter.spawned == old(counter.spawned) + 1 && !ownerMovement.moving
      ensures fired ==> gameArea.numEnemy == old(gameArea.numEnemy) + 4
      ensures fired ==> |gameArea.areaEntities| == |old(gameArea.areaEntities)| + 4
      ensures fired ==> gameArea.areaEntities[..|old(gameArea.areaEntities)|] == old(gameArea.areaEntities)
      ensures fired ==> var added := gameArea.areaEntities[|old(gameArea.areaEntities)|..];
                forall i :: 0 <= i < 4 ==> DecoyAt(added[i], i, old(owner.CenterPosition()), gameArea.tileSize)
      ensures !fired ==> unchanged(counter, ownerMovement, gameArea)
      ensures old(counter.spawned) <= 2 ==> counter.spawned <= 2
    {
      fired := CanSpawn(health, maxHealth, gameArea.numEnemy, owner.position, counter.spawned);
      if fired {
        ownerMovement.SetMoving(false);
        Spawn(decoyHalfScale);
        counter.spawned := counter.spawned + 1;
      }
    }
  }
}
