/**
 * The game's entities, as far as the modelled code uses them: a kind (which
 * factory made it), a position that spawning overwrites, and a centre that
 * lies half the entity's scale away from its position.
 */
module Entities {
  import opened Geometry

  /** The factory product an entity was created as. */
  datatype EntityKind =
    | LokiDecoy
    | Teleport
    | HealthCrate
    | HellViking
    | AsgardViking
    | OutdoorViking
    | OutdoorArcher
    | LeftMoveTrigger
    | RightMoveTrigger
    | DownMoveTrigger
    | UpMoveTrigger
    | Other

  class Entity {
    const kind: EntityKind
    /** Half of the entity's scale: the centre's offset from its position. */
    const halfScale: Vec
    var position: Vec

    /** A newly created entity stands at the origin. */
    constructor (kind: EntityKind, halfScale: Vec)
      ensures this.kind == kind && this.halfScale == halfScale
      ensures position == Origin
    {
      this.kind := kind;
      this.halfScale := halfScale;
      position := Origin;
    }

    function CenterPosition(): Vec
      reads this
    {
      Add(position, halfScale)
    }

    method SetPosition(p: Vec)
      modifies this`position
      ensures position == p
    {
      position := p;
    }
  }
}
