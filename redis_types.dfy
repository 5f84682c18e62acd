/**
 * The records exchanged with the shared store (src/types/redis.ts): a peer's
 * state as found in a snapshot, and a timed avatar action.
 */
module RedisTypes {
  import opened Optional

  /** RedisUserState: the fields are parsed with parseInt, so they are integers. */
  datatype UserState = UserState(x: int, y: int, direction: int, avatarId: int, lastSeen: int)

  /** AvatarEventType. */
  datatype EventType = Move | Jump

  /** The four values 'UP' | 'DOWN' | 'LEFT' | 'RIGHT' of a MOVE payload's direction. */
  datatype MoveDirection = Up | Down | Left | Right

  /** An event payload; both fields are optional. */
  datatype Payload = Payload(direction: Option<MoveDirection>, duration: Option<real>)

  /** AvatarEvent. The event id is opaque (the source builds it from the clock and Math.random). */
  datatype AvatarEvent = AvatarEvent(
    eventId: string,
    userId: string,
    eventType: EventType,
    timestamp: int,
    payload: Payload)
}
