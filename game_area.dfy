/**
 * A game area's bookkeeping: the enemy and boss counters, the append-only
 * list of the entities it has spawned, where a spawned entity is placed,
 * and the portal that appears when the last boss of a level dies.
 */
module Areas {
  import opened Wrappers
  import opened Geometry
  import opened Entities

  /** A tile coordinate (libGDX's GridPoint2). */
  datatype Tile = Tile(x: int, y: int)

  /** An object read from the Tiled map file; Tiled counts y from the top. */
  datatype MapObject = MapObject(x: real, y: real)

  /**
   * The parts of the loaded map that spawning reads. A list the map does
   * not hold is None (Java's null).
   */
  datatype TiledMap = TiledMap(
    dimensions: map<string, int>,
    teleportObjects: seq<MapObject>,
    healthCrateObjects: Option<seq<MapObject>>,
    hellMeleeObjects: Option<seq<MapObject>>,
    asgardMeleeObjects: Option<seq<MapObject>>,
    outdoorMeleeObjects: Option<seq<MapObject>>,
    rangeObjects: Option<seq<MapObject>>,
    moveLeftObjects: Option<seq<MapObject>>,
    moveRightObjects: Option<seq<MapObject>>,
    moveDownObjects: Option<seq<MapObject>>,
    moveUpObjects: Option<seq<MapObject>>)

  const TilesHeightKey := "n_tiles_height"
  /** The key the tutorial level's portal looks up, spelled as in the game. */
  const TutorialTilesHeightKey := "n_tiles_heihgt"
  const TutorialLevel := 9

  /** Java's Float.intValue: truncation toward zero. */
  function IntValue(r: real): (v: int)
    ensures 0.0 <= r ==> v >= 0 && v as real <= r < v as real + 1.0
    ensures r < 0.0 ==> v <= 0 && v as real - 1.0 < r <= v as real
  {
    if r >= 0.0 then r.Floor else -((-r).Floor)
  }

  /** The tile of a map object: y is flipped against the map's height in tiles. */
  function ObjectTile(o: MapObject, tilesHeight: int): Tile
  {
    Tile(IntValue(o.x), tilesHeight - IntValue(o.y))
  }

  /** The levels whose last boss leaves a portal behind. */
  predicate SpawnsTeleport(level: int)
  {
    level == TutorialLevel || 0 <= level <= 4
  }

  /**
   * The portal's tile on a level that has one, or None where the game
   * throws: the map has no teleport object, or lacks the height key the
   * level looks up. The tutorial level flips y against the misspelled key;
   * levels 0 to 4 flip against the height and move the portal down two tiles.
   */
  function TeleportTile(level: int, m: TiledMap): (r: Option<Tile>)
    requires SpawnsTeleport(level)
    ensures r.Some? <==> (|m.teleportObjects| > 0 &&
              (if level == TutorialLevel then TutorialTilesHeightKey else TilesHeightKey) in m.dimensions)
    ensures r.Some? && level == TutorialLevel ==>
              r.value == Tile(IntValue(m.teleportObjects[0].x),
                              m.dimensions[TutorialTilesHeightKey] - IntValue(m.teleportObjects[0].y))
    ensures r.Some? && level != TutorialLevel ==>
              r.value == Tile(IntValue(m.teleportObjects[0].x),
                              m.dimensions[TilesHeightKey] - IntValue(m.teleportObjects[0].y) - 2)
  {
    if |m.teleportObjects| == 0 then None
    else if level == TutorialLevel then
      if TutorialTilesHeightKey in m.dimensions
      then Some(ObjectTile(m.teleportObjects[0], m.dimensions[TutorialTilesHeightKey]))
      else None
    else
      if TilesHeightKey in m.dimensions
      then Some(ObjectTile(m.teleportObjects[0], m.dimensions[TilesHeightKey] - 2))
      else None
  }

  /**
   * The position an entity is given when spawned at `pos`: on each axis
   * that is centred, it is moved by half a tile less the entity's current centre.
   */
  function CentredPosition(pos: Vec, tileSize: real, center: Vec, centerX: bool, centerY: bool): Vec
  {
    Vec(if centerX then pos.x + (tileSize / 2.0 - center.x) else pos.x,
        if centerY then pos.y + (tileSize / 2.0 - center.y) else pos.y)
  }

  class GameArea {
    /** getLevel(): 0 for the base area; each level's area reports its own number. */
    const level: int
    /** The terrain's tile size. */
    const tileSize: real
    /** The terrain's tile-to-world conversion. */
    const tileToWorld: Tile -> Vec
    var tiledMap: TiledMap
    var numEnemy: int
    var numBoss: int
    var areaEntities: seq<Entity>

    constructor (level: int, tileSize: real, tileToWorld: Tile -> Vec, tiledMap: TiledMap)
      ensures this.level == level && this.tileSize == tileSize && this.tileToWorld == tileToWorld
      ensures this.tiledMap == tiledMap
      ensures numEnemy == 0 && numBoss == 0 && areaEntities == []
    {
      this.level := level;
      this.tileSize := tileSize;
      this.tileToWorld := tileToWorld;
      this.tiledMap := tiledMap;
      numEnemy := 0;
      numBoss := 0;
      areaEntities := [];
    }

    /** The level this area reports; the base area's is 0. */
    method GetLevel() returns (l: int)
      ensures l == level
    {
      l := level;
    }

    method SetMap(m: TiledMap)
      modifies this`tiledMap
      ensures tiledMap == m
    {
      tiledMap := m;
    }

    method IncNum()
      modifies this`numEnemy
      ensures numEnemy == old(numEnemy) + 1
    {
      numEnemy := numEnemy + 1;
    }

    /** No lower bound: the counter may go negative. */
    method DecNum()
      modifies this`numEnemy
      ensures numEnemy == old(numEnemy) - 1
    {
      numEnemy := numEnemy - 1;
    }

    method GetNumEnemy() returns (n: int)
      ensures n == numEnemy
    {
      n := numEnemy;
    }

    method IncBossNum()
      modifies this`numBoss
      ensures numBoss == old(numBoss) + 1
    {
      numBoss := numBoss + 1;
    }

    /** Appends the entity and leaves every earlier entry in place. */
    method SpawnEntity(entity: Entity)
      modifies this`areaEntities
      ensures areaEntities == old(areaEntities) + [entity]
    {
      areaEntities := areaEntities + [entity];
    }

    /**
     * Places the entity at a world position, centring it on the tile along
     * the axes asked for, and spawns it. A freshly created entity centred
     * on an axis has its centre half a tile from `pos` on that axis.
     */
    method SpawnEntityAt(entity: Entity, pos: Vec, centerX: bool, centerY: bool)
      modifies this`areaEntities, entity`position
      ensures entity.position == CentredPosition(pos, tileSize, old(entity.CenterPosition()), centerX, centerY)
      ensures !centerX ==> entity.position.x == pos.x
      ensures !centerY ==> entity.position.y == pos.y
      ensures old(entity.position) == Origin && centerX ==> entity.CenterPosition().x == pos.x + tileSize / 2.0
      ensures old(entity.position) == Origin && centerY ==> entity.CenterPosition().y == pos.y + tileSize / 2.0
      ensures areaEntities == old(areaEntities) + [entity]
    {
      var worldPos := pos;
      if centerX {
        worldPos := worldPos.(x := worldPos.x + (tileSize / 2.0 - entity.CenterPosition().x));
      }
      if centerY {
        worldPos := worldPos.(y := worldPos.y + (tileSize / 2.0 - entity.CenterPosition().y));
      }
      entity.SetPosition(worldPos);
      SpawnEntity(entity);
    }

    /** The tile overload: the tile is converted to a world position by the terrain first. */
    method SpawnEntityAtTile(entity: Entity, tile: Tile, centerX: bool, centerY: bool)
      modifies this`areaEntities, entity`position
      ensures entity.position == CentredPosition(tileToWorld(tile), tileSize, old(entity.CenterPosition()), centerX, centerY)
      ensures areaEntities == old(areaEntities) + [entity]
    {
      SpawnEntityAt(entity, tileToWorld(tile), centerX, centerY);
    }

    /**
     * One boss fewer. When none is left on a level with a portal, a fresh
     * portal is spawned centred on its tile; `thrown` reports the map lookup
     * failing, after the decrement, with nothing spawned.
     */
    method DecBossNum(teleportHalfScale: Vec) returns (thrown: bool)
      modifies this`numBoss, this`areaEntities
      ensures numBoss == old(numBoss) - 1
      ensures thrown <==> numBoss == 0 && SpawnsTeleport(level) && TeleportTile(level, tiledMap).None?
      ensures !(numBoss == 0 && SpawnsTeleport(level) && TeleportTile(level, tiledMap).Some?) ==>
                areaEntities == old(areaEntities)
      ensures numBoss == 0 && SpawnsTeleport(level) && TeleportTile(level, tiledMap).Some? ==>
                |areaEntities| == |old(areaEntities)| + 1 &&
                areaEntities[..|old(areaEntities)|] == old(areaEntities) &&
                var teleport := areaEntities[|old(areaEntities)|];
                fresh(teleport) && teleport.kind == Teleport &&
                teleport.position == CentredPosition(tileToWorld(TeleportTile(level, tiledMap).value), tileSize,
                                                     teleportHalfScale, true, true)
    {
      numBoss := numBoss - 1;
      thrown := false;
      if numBoss == 0 && SpawnsTeleport(level) {
        var teleport := new Entity(Teleport, teleportHalfScale);
        var tile := TeleportTile(level, tiledMap);
        if tile.None? {
          return true;
        }
        SpawnEntityAtTile(teleport, tile.value, true, true);
        assert areaEntities[..|old(areaEntities)|] == old(areaEntities);
      }
    }

    /**
     * The loop the spawn*Object methods share: one fresh entity of `kind`
     * per map object, in order, on the object's tile with y flipped, not
     * centred. `thrown` reports the height lookup failing, at the first object.
     */
    method SpawnObjects(objects: seq<MapObject>, kind: EntityKind, halfScale: Vec) returns (thrown: bool)
      modifies this`areaEntities
      ensures thrown <==> |objects| > 0 && TilesHeightKey !in tiledMap.dimensions
      ensures thrown ==> areaEntities == old(areaEntities)
      ensures !thrown ==> SpawnedObjects(old(areaEntities), areaEntities, objects, kind)
    {
      thrown := false;
      if |objects| == 0 {
        return;
      }
      if TilesHeightKey !in tiledMap.dimensions {
        return true;
      }
      var tilesHeight := tiledMap.dimensions[TilesHeightKey];
      var i := 0;
      while i < |objects|
        invariant 0 <= i <= |objects|
        invariant |areaEntities| == |old(areaEntities)| + i
        invariant areaEntities[..|old(areaEntities)|] == old(areaEntities)
        invariant forall k :: 0 <= k < i ==> Placed(areaEntities[|old(areaEntities)| + k], kind, tileToWorld(ObjectTile(objects[k], tilesHeight)))
      {
        var entity := new Entity(kind, halfScale);
        SpawnEntityAtTile(entity, ObjectTile(objects[i], tilesHeight), false, false);
        i := i + 1;
      }
      forall k | |old(areaEntities)| <= k < |areaEntities|
        ensures fresh(areaEntities[k])
      {
        assert Placed(areaEntities[|old(areaEntities)| + (k - |old(areaEntities)|)], kind,
                      tileToWorld(ObjectTile(objects[k - |old(areaEntities)|], tilesHeight)));
      }
      forall k | 0 <= k < |objects|
        ensures At(areaEntities[|old(areaEntities)| + k], kind, tileToWorld(ObjectTile(objects[k], tilesHeight)))
      {
        assert Placed(areaEntities[|old(areaEntities)| + k], kind, tileToWorld(ObjectTile(objects[k], tilesHeight)));
      }
      PlacedRunOfEach(areaEntities, |old(areaEntities)|, objects, kind, tilesHeight);
    }

    /** A fresh entity of the given kind now at the given position. */
    twostate predicate Placed(new e: Entity, kind: EntityKind, position: Vec)
      reads e
    {
      fresh(e) && At(e, kind, position)
    }

    /**
     * `after` extends `before` by one fresh entity of `kind` per object, in
     * order, each on its object's flipped tile.
     */
    twostate predicate SpawnedObjects(before: seq<Entity>, new after: seq<Entity>, objects: seq<MapObject>, kind: EntityKind)
      reads this, after
    {
      && |after| == |before| + |objects|
      && after[..|before|] == before
      && (forall k :: |before| <= k < |after| ==> fresh(after[k]))
      && PlacedRun(after, |before|, objects, kind, TilesHeight(tiledMap))
    }

    /**
     * From index `from` on, `all` holds one entity of `kind` per object, in
     * order, each on its object's tile flipped against `tilesHeight`.
     */
    ghost predicate PlacedRun(all: seq<Entity>, from: nat, objects: seq<MapObject>, kind: EntityKind, tilesHeight: int)
      reads all
      requires from + |objects| <= |all|
      decreases |objects|
    {
      || |objects| == 0
      || (&& At(all[from], kind, tileToWorld(ObjectTile(objects[0], tilesHeight)))
          && PlacedRun(all, from + 1, objects[1..], kind, tilesHeight))
    }

    /** A run holds when each of its entities is in place. */
    lemma {:induction false} PlacedRunOfEach(all: seq<Entity>, from: nat, objects: seq<MapObject>, kind: EntityKind,
                                             tilesHeight: int)
      requires from + |objects| <= |all|
      requires forall k :: 0 <= k < |objects| ==> At(all[from + k], kind, tileToWorld(ObjectTile(objects[k], tilesHeight)))
      ensures PlacedRun(all, from, objects, kind, tilesHeight)
      decreases |objects|
    {
      if |objects| > 0 {
        forall k | 0 <= k < |objects| - 1
          ensures At(all[from + 1 + k], kind, tileToWorld(ObjectTile(objects[1..][k], tilesHeight)))
        {
          assert objects[1..][k] == objects[k + 1];
        }
        PlacedRunOfEach(all, from + 1, objects[1..], kind, tilesHeight);
      }
    }

    /** Health crates: a map without any spawns nothing. */
    method SpawnHealthCrateObject(halfScale: Vec) returns (thrown: bool)
      modifies this`areaEntities
      ensures tiledMap.healthCrateObjects.None? ==> !thrown && areaEntities == old(areaEntities)
      ensures tiledMap.healthCrateObjects.Some? ==>
                (thrown <==> |tiledMap.healthCrateObjects.value| > 0 && TilesHeightKey !in tiledMap.dimensions)
      ensures tiledMap.healthCrateObjects.Some? && !thrown ==>
                SpawnedObjects(old(areaEntities), areaEntities, tiledMap.healthCrateObjects.value, HealthCrate)
      ensures thrown ==> areaEntities == old(areaEntities)
    {
      if tiledMap.healthCrateObjects.None? {
        return false;
      }
      thrown := SpawnObjects(tiledMap.healthCrateObjects.value, HealthCrate, halfScale);
    }

    /** The warrior and archer lists have no null check: a missing list throws. */
    method SpawnUncheckedList(objects: Option<seq<MapObject>>, kind: EntityKind, halfScale: Vec)
      returns (thrown: bool)
      modifies this`areaEntities
      ensures thrown <==> objects.None? || (|objects.value| > 0 && TilesHeightKey !in tiledMap.dimensions)
      ensures thrown ==> areaEntities == old(areaEntities)
      ensures !thrown ==> SpawnedObjects(old(areaEntities), areaEntities, objects.value, kind)
    {
      if objects.None? {
        return true;
      }
      thrown := SpawnObjects(objects.value, kind, halfScale);
    }

    method SpawnHellWarriorObject(halfScale: Vec) returns (thrown: bool)
      modifies this`areaEntities
      ensures thrown <==> (tiledMap.hellMeleeObjects.None? ||
                (|tiledMap.hellMeleeObjects.value| > 0 && TilesHeightKey !in tiledMap.dimensions))
      ensures thrown ==> areaEntities == old(areaEntities)
      ensures !thrown ==> SpawnedObjects(old(areaEntities), areaEntities, tiledMap.hellMeleeObjects.value, HellViking)
    {
      thrown := SpawnUncheckedList(tiledMap.hellMeleeObjects, HellViking, halfScale);
    }

    method SpawnAsgardWarriorObject(halfScale: Vec) returns (thrown: bool)
      modifies this`areaEntities
      ensures thrown <==> (tiledMap.asgardMeleeObjects.None? ||
                (|tiledMap.asgardMeleeObjects.value| > 0 && TilesHeightKey !in tiledMap.dimensions))
      ensures thrown ==> areaEntities == old(areaEntities)
      ensures !thrown ==> SpawnedObjects(old(areaEntities), areaEntities, tiledMap.asgardMeleeObjects.value, AsgardViking)
    {
      thrown := SpawnUncheckedList(tiledMap.asgardMeleeObjects, AsgardViking, halfScale);
    }

    method SpawnOutdoorWarriorObject(halfScale: Vec) returns (thrown: bool)
      modifies this`areaEntities
      ensures thrown <==> (tiledMap.outdoorMeleeObjects.None? ||
                (|tiledMap.outdoorMeleeObjects.value| > 0 && TilesHeightKey !in tiledMap.dimensions))
      ensures thrown ==> areaEntities == old(areaEntities)
      ensures !thrown ==> SpawnedObjects(old(areaEntities), areaEntities, tiledMap.outdoorMeleeObjects.value, OutdoorViking)
    {
      thrown := SpawnUncheckedList(tiledMap.outdoorMeleeObjects, OutdoorViking, halfScale);
    }

    method SpawnOutdoorArcherObject(halfScale: Vec) returns (thrown: bool)
      modifies this`areaEntities
      ensures thrown <==> (tiledMap.rangeObjects.None? ||
                (|tiledMap.rangeObjects.value| > 0 && TilesHeightKey !in tiledMap.dimensions))
      ensures thrown ==> areaEntities == old(areaEntities)
      ensures !thrown ==> SpawnedObjects(old(areaEntities), areaEntities, tiledMap.rangeObjects.value, OutdoorArcher)
    {
      thrown := SpawnUncheckedList(tiledMap.rangeObjects, OutdoorArcher, halfScale);
    }

    /**
     * A null-checked list: missing spawns nothing. The ghost `runs` are the
     * runs of a whole spawn sequence: those before the n-th stay in place,
     * and this list's own run, the n-th, follows them.
     */
    method SpawnCheckedList(objects: Option<seq<MapObject>>, kind: EntityKind, halfScale: Vec,
                            ghost runs: seq<Run>, ghost n: nat)
      returns (thrown: bool)
      requires n < |runs| && runs[n] == Run(|areaEntities|, OrEmpty(objects), kind)
      requires forall i :: 0 <= i < n ==> Holds(areaEntities, runs[i], TilesHeight(tiledMap))
      modifies this`areaEntities
      ensures thrown <==> |OrEmpty(objects)| > 0 && TilesHeightKey !in tiledMap.dimensions
      ensures thrown || objects.None? ==> areaEntities == old(areaEntities)
      ensures !thrown ==> SpawnedObjects(old(areaEntities), areaEntities, OrEmpty(objects), kind)
      ensures !thrown ==> |areaEntities| == |old(areaEntities)| + |OrEmpty(objects)|
      ensures !thrown ==> areaEntities[..|old(areaEntities)|] == old(areaEntities)
      ensures tiledMap == old(tiledMap)
      ensures !thrown ==> forall i :: 0 <= i <= n ==> Holds(areaEntities, runs[i], TilesHeight(tiledMap))
    {
      ghost var before := areaEntities;
      if objects.None? {
        return false;
      }
      thrown := SpawnObjects(objects.value, kind, halfScale);
      forall i | 0 <= i < n
        ensures Holds(areaEntities, runs[i], TilesHeight(tiledMap))
      {
        assert Holds(before, runs[i], TilesHeight(tiledMap));
        RunExtends(before, areaEntities, runs[i].from, runs[i].objects, runs[i].kind, TilesHeight(tiledMap));
      }
    }

    /** The run `r` is in place in `all`. */
    ghost predicate Holds(all: seq<Entity>, r: Run, tilesHeight: int)
      reads all
    {
      r.from + |r.objects| <= |all| && PlacedRun(all, r.from, r.objects, r.kind, tilesHeight)
    }

    /**
     * The four cutscene trigger lists, left, right, down and up, each
     * null-checked; a failing height lookup stops at the first non-empty list.
     */
    method SpawnMovementCutscenes(halfScale: Vec) returns (thrown: bool)
      modifies this`areaEntities
      ensures thrown <==> TilesHeightKey !in tiledMap.dimensions && CutsceneCount(tiledMap) > 0
      ensures thrown ==> areaEntities == old(areaEntities)
      ensures !thrown ==> |areaEntities| == |old(areaEntities)| + CutsceneCount(tiledMap)
      ensures !thrown ==> areaEntities[..|old(areaEntities)|] == old(areaEntities)
      ensures FreshFrom(areaEntities, |old(areaEntities)|)
      ensures !thrown ==> forall i :: 0 <= i < 4 ==>
                            Holds(areaEntities, CutsceneRuns(|old(areaEntities)|, tiledMap)[i], TilesHeight(tiledMap))
    {
      var m := tiledMap;
      ghost var e0 := areaEntities;
      ghost var runs := CutsceneRuns(|e0|, m);
      thrown := SpawnCheckedList(m.moveLeftObjects, LeftMoveTrigger, halfScale, runs, 0);
      if thrown { return; }
      ghost var e1 := areaEntities;
      thrown := SpawnCheckedList(m.moveRightObjects, RightMoveTrigger, halfScale, runs, 1);
      if thrown { return; }
      ghost var e2 := areaEntities;
      thrown := SpawnCheckedList(m.moveDownObjects, DownMoveTrigger, halfScale, runs, 2);
      if thrown { return; }
      ghost var e3 := areaEntities;
      thrown := SpawnCheckedList(m.moveUpObjects, UpMoveTrigger, halfScale, runs, 3);
      if thrown { return; }
      PrefixExtends(e0, e1, e2, e3, areaEntities);
      FreshExtends(e1, e2, |e0|);
      FreshExtends(e2, e3, |e0|);
      FreshExtends(e3, areaEntities, |e0|);
    }

    /** Every entry of `all` from index `from` on was created since the method began. */
    twostate predicate FreshFrom(new all: seq<Entity>, from: nat)
    {
      forall k :: from <= k < |all| ==> fresh(all[k])
    }

    /** Fresh entries followed by entries fresh since a later point are fresh since the start. */
    twostate lemma FreshExtends(new all: seq<Entity>, new longer: seq<Entity>, from: nat)
      requires FreshFrom(all, from)
      requires |all| <= |longer| && longer[..|all|] == all
      requires forall k :: |all| <= k < |longer| ==> fresh(longer[k])
      ensures FreshFrom(longer, from)
    {
      forall k | from <= k < |all|
        ensures longer[k] == all[k]
      {
        assert longer[..|all|][k] == all[k];
      }
    }

    /** Four successive extensions keep the first prefix. */
    lemma PrefixExtends(e0: seq<Entity>, e1: seq<Entity>, e2: seq<Entity>, e3: seq<Entity>, e4: seq<Entity>)
      requires |e0| <= |e1| <= |e2| <= |e3| <= |e4|
      requires e1[..|e0|] == e0 && e2[..|e1|] == e1 && e3[..|e2|] == e2 && e4[..|e3|] == e3
      ensures e4[..|e0|] == e0 && e4[..|e1|] == e1 && e4[..|e2|] == e2
    {
      assert e4[..|e2|] == e4[..|e3|][..|e2|];
      assert e4[..|e1|] == e4[..|e2|][..|e1|];
      assert e4[..|e0|] == e4[..|e1|][..|e0|];
    }

    /** A run of spawned entities stays in place when the list grows at its end. */
    lemma {:induction false} RunExtends(all: seq<Entity>, longer: seq<Entity>, from: nat, objects: seq<MapObject>,
                                        kind: EntityKind, tilesHeight: int)
      requires from + |objects| <= |all| <= |longer| && longer[..|all|] == all
      requires PlacedRun(all, from, objects, kind, tilesHeight)
      ensures PlacedRun(longer, from, objects, kind, tilesHeight)
      decreases |objects|
    {
      if |objects| > 0 {
        assert longer[..|all|][from] == all[from];
        RunExtends(all, longer, from + 1, objects[1..], kind, tilesHeight);
      }
    }
  }

  /** The map's height in tiles; the spawners look it up only when there is an object to place. */
  function TilesHeight(m: TiledMap): int
  {
    if TilesHeightKey in m.dimensions then m.dimensions[TilesHeightKey] else 0
  }

  /** A stretch of spawned entities: one of `kind` per object, starting at index `from`. */
  datatype Run = Run(from: nat, objects: seq<MapObject>, kind: EntityKind)

  /** An entity of the given kind at the given position. */
  ghost predicate At(e: Entity, kind: EntityKind, position: Vec)
    reads e
  {
    e.kind == kind && e.position == position
  }

  /** A list the map may lack, read as empty when missing. */
  function OrEmpty(o: Option<seq<MapObject>>): seq<MapObject>
  {
    if o.Some? then o.value else []
  }

  /** Where the right, down and up triggers begin among the ones a map spawns: after every earlier list. */
  function RightStart(m: TiledMap): nat
  {
    |OrEmpty(m.moveLeftObjects)|
  }

  function DownStart(m: TiledMap): nat
  {
    RightStart(m) + |OrEmpty(m.moveRightObjects)|
  }

  function UpStart(m: TiledMap): nat
  {
    DownStart(m) + |OrEmpty(m.moveDownObjects)|
  }

  /**
   * The runs of cutscene triggers a map spawns from index `from` on: the
   * left, right, down and up triggers, one list after another.
   */
  function CutsceneRuns(from: nat, m: TiledMap): seq<Run>
  {
    [Run(from, OrEmpty(m.moveLeftObjects), LeftMoveTrigger),
     Run(from + RightStart(m), OrEmpty(m.moveRightObjects), RightMoveTrigger),
     Run(from + DownStart(m), OrEmpty(m.moveDownObjects), DownMoveTrigger),
     Run(from + UpStart(m), OrEmpty(m.moveUpObjects), UpMoveTrigger)]
  }

  /** The number of cutscene triggers the map holds, over all four lists. */
  function CutsceneCount(m: TiledMap): nat
  {
    UpStart(m) + |OrEmpty(m.moveUpObjects)|
  }
}
