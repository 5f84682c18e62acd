/**
 * The entity/component store. Entities are ids handed out by a counter; each
 * component is a table keyed by entity id, and holding a key means holding
 * the component. The fields are those of src/types/ecs.ts plus the ones the
 * systems read and write (Avatar, Movement, Input, RemoteAvatar, NetworkId,
 * EventQueue); Scale, Rotation and Sprite are consumed only by rendering.
 */
module Ecs {

  type Entity = nat

  /** Position: current world coordinates. */
  datatype Position = Position(x: real, y: real)

  /** Avatar: skin id and facing direction (the numeric value of an AvatarDirection). */
  datatype Avatar = Avatar(id: int, currentDirection: int)

  /** Movement: speed in px per second, the point being walked to, and whether walking. */
  datatype Movement = Movement(velocity: real, targetX: real, targetY: real, isMoving: bool)

  /** Input: the four directional flags latched for the current tick. */
  datatype Input = Input(up: bool, down: bool, left: bool, right: bool)

  /** Every id in `s` is below `n`. */
  ghost predicate AllBelow(s: set<Entity>, n: nat)
  {
    forall e :: e in s ==> e < n
  }

  class World {
    /** The id the next created entity receives. Ids are never reused. */
    var nextEntity: nat
    var position: map<Entity, Position>
    var avatar: map<Entity, Avatar>
    var movement: map<Entity, Movement>
    var input: map<Entity, Input>
    /** RemoteAvatar.isRemote. */
    var remoteAvatar: map<Entity, bool>
    /** NetworkId.userId. */
    var networkId: map<Entity, nat>
    /** The EventQueue and Renderable marker components. */
    var eventQueue: set<Entity>
    var renderable: set<Entity>

    /** Every component belongs to an entity that has been created. */
    ghost predicate Valid()
      reads this
    {
      && AllBelow(position.Keys, nextEntity) && AllBelow(avatar.Keys, nextEntity)
      && AllBelow(movement.Keys, nextEntity) && AllBelow(input.Keys, nextEntity)
      && AllBelow(remoteAvatar.Keys, nextEntity) && AllBelow(networkId.Keys, nextEntity)
      && AllBelow(eventQueue, nextEntity) && AllBelow(renderable, nextEntity)
    }

    /** createWorld: no entities, no components. */
    constructor ()
      ensures Valid() && nextEntity == 0
      ensures position == map[] && avatar == map[] && movement == map[] && input == map[]
      ensures remoteAvatar == map[] && networkId == map[]
      ensures eventQueue == {} && renderable == {}
    {
      nextEntity := 0;
      position, avatar, movement, input := map[], map[], map[], map[];
      remoteAvatar, networkId := map[], map[];
      eventQueue, renderable := {}, {};
    }

    /** addEntity: a fresh id that no component mentions yet. */
    method AddEntity() returns (e: Entity)
      requires Valid()
      modifies this`nextEntity
      ensures Valid()
      ensures e == old(nextEntity) && nextEntity == e + 1
      ensures e !in position && e !in avatar && e !in movement && e !in input
      ensures e !in remoteAvatar && e !in networkId && e !in eventQueue && e !in renderable
    {
      e := nextEntity;
      nextEntity := nextEntity + 1;
    }

    /** Queried by AvatarSystem.updateMovement: Position, Avatar and Movement. */
    predicate HasMovementComponents(e: Entity)
      reads this
    {
      e in position && e in avatar && e in movement
    }

    /** Queried by AvatarSystem.processInput: Input, Position, Avatar and Movement. */
    predicate HasInputComponents(e: Entity)
      reads this
    {
      e in input && HasMovementComponents(e)
    }

    /** Queried by EventSystem and MultiAvatarSystem: Position and Avatar. */
    predicate HasAvatarComponents(e: Entity)
      reads this
    {
      e in position && e in avatar
    }
  }
}
