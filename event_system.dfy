/**
 * The event interpolation engine (src/systems/EventSystem.ts). Every entity
 * owns a FIFO queue of MOVE/JUMP actions and at most one active action. An
 * action starts from the entity's current position; on every execute its
 * progress min(elapsed / duration, 1) drives a linear interpolation (MOVE)
 * or a parabola of height 50 (JUMP), and once progress reaches 1 the entity
 * snaps to the recorded target and the active slot is freed.
 *
 * The per-entity behaviour is stated on a Slot, the four pieces of state an
 * entity's events touch; the EventSystem class works on the world and its
 * two maps, and each of its methods is proved to do to the entity's Slot
 * what the matching function says.
 */
module EventSystem {
  import opened Optional
  import opened Ecs
  import opened RedisTypes
  import AvatarTypes

  /** How far a MOVE action travels along its axis, in px. */
  const MoveDistance: real := 50.0
  /** The duration of every MOVE action, in ms. */
  const MoveDuration: real := 500.0
  /** The duration of a JUMP action whose payload gives none (or 0), in ms. */
  const DefaultJumpDuration: real := 800.0
  /** The apex height of a jump, in px. */
  const JumpHeight: real := 50.0

  /** ActiveEvent. startEvent always records both target coordinates. */
  datatype ActiveEvent = ActiveEvent(
    event: AvatarEvent,
    startTime: int,
    duration: real,
    startX: real,
    startY: real,
    targetX: real,
    targetY: real)

  function Min(a: real, b: real): real { if a <= b then a else b }
  function Abs(x: real): real { if x < 0.0 then -x else x }

  /** The fraction of the action done at time `now`, capped at 1. */
  function Progress(a: ActiveEvent, now: int): (p: real)
    requires a.duration != 0.0
    ensures p <= 1.0
    ensures a.duration > 0.0 ==> (p >= 1.0 <==> (now - a.startTime) as real >= a.duration)
    ensures a.duration > 0.0 && now >= a.startTime ==> p >= 0.0
    ensures now == a.startTime ==> p == 0.0
  {
    var elapsed := (now - a.startTime) as real;
    assert a.duration > 0.0 ==> (elapsed / a.duration >= 1.0 <==> elapsed >= a.duration) by {
      if a.duration > 0.0 {
        assert elapsed / a.duration * a.duration == elapsed;
        if elapsed / a.duration >= 1.0 {
          assert elapsed / a.duration * a.duration >= 1.0 * a.duration;
        } else {
          assert elapsed / a.duration * a.duration < 1.0 * a.duration;
        }
      }
    }
    assert a.duration > 0.0 && elapsed >= 0.0 ==> elapsed / a.duration >= 0.0;
    Min(elapsed / a.duration, 1.0)
  }

  /** processMoveEvent's interpolation: start + (target - start) * p on both axes. */
  function Lerp(a: ActiveEvent, p: real): (r: Position)
    ensures p == 0.0 ==> r == Position(a.startX, a.startY)
    ensures p == 1.0 ==> r == Position(a.targetX, a.targetY)
  {
    Position(a.startX + (a.targetX - a.startX) * p, a.startY + (a.targetY - a.startY) * p)
  }

  /** A number within 1/2 of zero has a square of at most 1/4. */
  lemma SquareAtMostQuarter(d: real)
    ensures -0.5 <= d <= 0.5 ==> d * d <= 0.25
  {
    if 0.0 < d <= 0.5 {
      assert d * d <= 0.5 * d;
    } else if -0.5 <= d < 0.0 {
      var e := 0.0 - d;
      assert d * d == e * e;
      assert e * e <= 0.5 * e;
    }
  }

  /**
   * processJumpEvent's height above the start line at progress p,
   * -4h(p - 0.5)^2 + h: 0 at both ends, h at the midpoint, never above h.
   */
  function JumpOffset(p: real): (r: real)
    ensures r <= JumpHeight
    ensures p == 0.5 ==> r == JumpHeight
    ensures p == 0.0 || p == 1.0 ==> r == 0.0
    ensures 0.0 <= p <= 1.0 ==> r >= 0.0
  {
    SquareAtMostQuarter(p - 0.5);
    assert (p - 0.5) * (p - 0.5) >= 0.0;
    -4.0 * JumpHeight * ((p - 0.5) * (p - 0.5)) + JumpHeight
  }

  /** The arc is symmetric: progress p and 1 - p are at the same height. */
  lemma JumpSymmetric(p: real)
    ensures JumpOffset(1.0 - p) == JumpOffset(p)
  {
    assert ((1.0 - p) - 0.5) * ((1.0 - p) - 0.5) == (p - 0.5) * (p - 0.5);
  }

  /** processJumpEvent: x stays at the start, y rises by the jump offset (y grows downward). */
  function JumpPosition(a: ActiveEvent, p: real): (r: Position)
    ensures r.x == a.startX
    ensures 0.0 <= p <= 1.0 ==> a.startY - JumpHeight <= r.y <= a.startY
  {
    Position(a.startX, a.startY - JumpOffset(p))
  }

  /**
   * getDirectionFromMovement: the dominant axis decides, the horizontal one
   * only when strictly larger; a zero movement faces CENTER.
   */
  function DirectionFromMovement(dx: real, dy: real): (d: AvatarTypes.Direction)
    ensures d == AvatarTypes.Center <==> dx == 0.0 && dy == 0.0
    ensures d == AvatarTypes.Right <==> Abs(dx) > Abs(dy) && dx > 0.0
    ensures d == AvatarTypes.Left <==> Abs(dx) > Abs(dy) && dx < 0.0
    ensures d == AvatarTypes.Front <==> Abs(dx) <= Abs(dy) && dy > 0.0
    ensures d == AvatarTypes.Back <==> Abs(dx) <= Abs(dy) && dy < 0.0
  {
    if Abs(dx) > Abs(dy) then (if dx > 0.0 then AvatarTypes.Right else AvatarTypes.Left)
    else if dy != 0.0 then (if dy > 0.0 then AvatarTypes.Front else AvatarTypes.Back)
    else AvatarTypes.Center
  }

  /** JUMP's `payload.duration || 800`: an absent or zero duration falls back to 800. */
  function JumpDuration(payload: Payload): (d: real)
    ensures d != 0.0
    ensures payload.duration.Some? && payload.duration.value != 0.0 ==> d == payload.duration.value
  {
    match payload.duration
    case None => DefaultJumpDuration
    case Some(v) => if v != 0.0 then v else DefaultJumpDuration
  }

  /** startEvent's record for an event starting at `pos` at time `now`. */
  function Begin(ev: AvatarEvent, pos: Position, now: int): (a: ActiveEvent)
    ensures a.event == ev && a.startTime == now
    ensures a.startX == pos.x && a.startY == pos.y
    ensures a.duration != 0.0
    ensures ev.eventType == Move ==> a.duration == MoveDuration
    ensures ev.eventType == Jump ==> a.duration == JumpDuration(ev.payload)
    ensures ev.eventType == Jump ==> a.targetX == pos.x && a.targetY == pos.y
    ensures ev.eventType == Move ==>
      a.targetX == pos.x + (match ev.payload.direction
                            case Some(Left) => -MoveDistance
                            case Some(Right) => MoveDistance
                            case _ => 0.0)
    ensures ev.eventType == Move ==>
      a.targetY == pos.y + (match ev.payload.direction
                            case Some(Up) => -MoveDistance
                            case Some(Down) => MoveDistance
                            case _ => 0.0)
  {
    match ev.eventType
    case Move =>
      var (tx, ty) :=
        match ev.payload.direction
        case Some(Up) => (pos.x, pos.y - MoveDistance)
        case Some(Down) => (pos.x, pos.y + MoveDistance)
        case Some(Left) => (pos.x - MoveDistance, pos.y)
        case Some(Right) => (pos.x + MoveDistance, pos.y)
        case None => (pos.x, pos.y);
      ActiveEvent(ev, now, MoveDuration, pos.x, pos.y, tx, ty)
    case Jump =>
      ActiveEvent(ev, now, JumpDuration(ev.payload), pos.x, pos.y, pos.x, pos.y)
  }

  /** What an entity's events touch: its Position, its Avatar, its queue and its active action. */
  datatype Slot = Slot(position: Position, avatar: Avatar, queue: Option<seq<AvatarEvent>>, active: Option<ActiveEvent>)

  /** An active action never has duration 0 (startEvent rules it out). */
  predicate SlotValid(s: Slot)
  {
    s.active.Some? ==> s.active.value.duration != 0.0
  }

  /**
   * processMoveEvent: unless a target coordinate is 0 (the `!target` guard),
   * place the entity on the interpolation and face the way of the movement.
   */
  function MoveFrame(s: Slot, a: ActiveEvent, p: real): (r: Slot)
    ensures r.queue == s.queue && r.active == s.active && r.avatar.id == s.avatar.id
    ensures a.targetX == 0.0 || a.targetY == 0.0 ==> r == s
    ensures a.targetX != 0.0 && a.targetY != 0.0 ==>
      && r.position == Lerp(a, p)
      && r.avatar.currentDirection
         == AvatarTypes.DirectionValue(DirectionFromMovement(a.targetX - a.startX, a.targetY - a.startY))
  {
    if a.targetX == 0.0 || a.targetY == 0.0 then s
    else
      var direction := DirectionFromMovement(a.targetX - a.startX, a.targetY - a.startY);
      s.(position := Lerp(a, p), avatar := s.avatar.(currentDirection := AvatarTypes.DirectionValue(direction)))
  }

  /** processJumpEvent: only the position changes. */
  function JumpFrame(s: Slot, a: ActiveEvent, p: real): (r: Slot)
    ensures r == s.(position := JumpPosition(a, p))
  {
    s.(position := JumpPosition(a, p))
  }

  /** completeEvent: snap to the recorded target and free the slot; nothing when idle. */
  function Complete(s: Slot): (r: Slot)
    ensures r.active == None && r.queue == s.queue && r.avatar == s.avatar
    ensures s.active.Some? ==> r.position == Position(s.active.value.targetX, s.active.value.targetY)
    ensures s.active.None? ==> r == s
  {
    match s.active
    case None => s
    case Some(a) => s.(position := Position(a.targetX, a.targetY), active := None)
  }

  /** processActiveEvent: draw the frame for the current progress, then complete at progress 1. */
  function Animate(s: Slot, now: int): (r: Slot)
    requires SlotValid(s)
    ensures SlotValid(r)
    ensures r.queue == s.queue
    ensures s.active.None? ==> r == s
    ensures s.active.Some? ==>
      (r.active.None? <==> Progress(s.active.value, now) >= 1.0)
    ensures s.active.Some? && Progress(s.active.value, now) >= 1.0 ==>
      r.position == Position(s.active.value.targetX, s.active.value.targetY)
    ensures s.active.Some? && Progress(s.active.value, now) < 1.0 ==>
      var a := s.active.value;
      r == (if a.event.eventType == Move then MoveFrame(s, a, Progress(a, now)) else JumpFrame(s, a, Progress(a, now)))
    ensures s.active.Some? && Progress(s.active.value, now) >= 1.0 ==>
      var a := s.active.value;
      r.avatar == (if a.event.eventType == Move then MoveFrame(s, a, Progress(a, now)).avatar else s.avatar)
  {
    match s.active
    case None => s
    case Some(a) =>
      var p := Progress(a, now);
      var drawn := match a.event.eventType
        case Move => MoveFrame(s, a, p)
        case Jump => JumpFrame(s, a, p);
      if p >= 1.0 then Complete(drawn) else drawn
  }

  /** startEvent: record the action as active, starting from the current position. */
  function Start(s: Slot, ev: AvatarEvent, now: int): (r: Slot)
    ensures r == s.(active := Some(Begin(ev, s.position, now)))
  {
    s.(active := Some(Begin(ev, s.position, now)))
  }

  /** processEventQueue: when idle and the queue is not empty, take its head and start it. */
  function Dequeue(s: Slot, now: int): (r: Slot)
    requires SlotValid(s)
    ensures SlotValid(r)
    ensures r.position == s.position && r.avatar == s.avatar
    ensures s.active.Some? || s.queue.None? || s.queue.value == [] ==> r == s
    ensures s.active.None? && s.queue.Some? && s.queue.value != [] ==>
      && r.queue == Some(s.queue.value[1..])
      && r.active == Some(Begin(s.queue.value[0], s.position, now))
  {
    if s.active.Some? || s.queue.None? || s.queue.value == [] then s
    else Start(s.(queue := Some(s.queue.value[1..])), s.queue.value[0], now)
  }

  /** One execute for one entity: the active action first, then the queue. */
  function Step(s: Slot, now: int): (r: Slot)
    requires SlotValid(s)
    ensures SlotValid(r)
  {
    Dequeue(Animate(s, now), now)
  }

  /** The MOVE event addMoveEvent builds: the payload carries only the direction. */
  function MoveEventOf(eventId: string, userId: string, direction: MoveDirection, now: int): (ev: AvatarEvent)
    ensures ev.eventType == Move && ev.userId == userId && ev.timestamp == now
    ensures ev.payload.direction == Some(direction) && ev.payload.duration == None
  {
    AvatarEvent(eventId, userId, Move, now, Payload(Some(direction), None))
  }

  /** The JUMP event addJumpEvent builds: the payload carries only the duration. */
  function JumpEventOf(eventId: string, userId: string, duration: real, now: int): (ev: AvatarEvent)
    ensures ev.eventType == Jump && ev.userId == userId && ev.timestamp == now
    ensures ev.payload.direction == None && ev.payload.duration == Some(duration)
  {
    AvatarEvent(eventId, userId, Jump, now, Payload(None, Some(duration)))
  }

  /** The facing getDirectionFromMovement gives a MOVE of each direction, as the image names expect. */
  lemma MoveFacing(ev: AvatarEvent, pos: Position, now: int)
    requires ev.eventType == Move && ev.payload.direction.Some?
    ensures var a := Begin(ev, pos, now);
      var d := DirectionFromMovement(a.targetX - a.startX, a.targetY - a.startY);
      && (ev.payload.direction.value == Up ==> d == AvatarTypes.Back)
      && (ev.payload.direction.value == Down ==> d == AvatarTypes.Front)
      && (ev.payload.direction.value == Left ==> d == AvatarTypes.Left)
      && (ev.payload.direction.value == Right ==> d == AvatarTypes.Right)
  {
  }

  /** A jump starts and ends on the start point and peaks 50 px above it at half time. */
  lemma JumpEnds(a: ActiveEvent)
    ensures JumpPosition(a, 0.0) == Position(a.startX, a.startY)
    ensures JumpPosition(a, 1.0) == Position(a.startX, a.startY)
    ensures JumpPosition(a, 0.5) == Position(a.startX, a.startY - JumpHeight)
  {
  }

  /** An action whose progress has reached 1 is gone: a second processActiveEvent changes nothing. */
  lemma CompletedIsIdle(s: Slot, now: int, later: int)
    requires SlotValid(s) && s.active.Some? && Progress(s.active.value, now) >= 1.0
    ensures Animate(s, now).active.None?
    ensures Animate(Animate(s, now), later) == Animate(s, now)
  {
  }

  /**
   * execute handles the active action before the queue: when the action
   * completes, the head of the queue starts in the same call, from the
   * completed action's target, and leaves the rest of the queue behind.
   */
  lemma SuccessorStartsAtOnce(s: Slot, now: int)
    requires SlotValid(s) && s.active.Some? && Progress(s.active.value, now) >= 1.0
    requires s.queue.Some? && s.queue.value != []
    ensures var a := s.active.value;
      && Step(s, now).queue == Some(s.queue.value[1..])
      && Step(s, now).active == Some(Begin(s.queue.value[0], Position(a.targetX, a.targetY), now))
  {
  }

  /** While an action is running and not yet done, the queue is not touched. */
  lemma RunningKeepsQueue(s: Slot, now: int)
    requires SlotValid(s) && s.active.Some? && Progress(s.active.value, now) < 1.0
    ensures Step(s, now).queue == s.queue
    ensures Step(s, now).active.Some? && Step(s, now).active.value == s.active.value
  {
  }

  /** A jump lands where it took off, whatever its duration. */
  lemma JumpLandsAtStart(s: Slot, ev: AvatarEvent, now: int, later: int)
    requires ev.eventType == Jump && SlotValid(s)
    requires Progress(Begin(ev, s.position, now), later) >= 1.0
    ensures Animate(Start(s, ev, now), later).position == s.position
    ensures Animate(Start(s, ev, now), later).active.None?
  {
  }

  /** A MOVE up from (100, 100) ends, 500 ms later, at (100, 50) facing BACK. */
  lemma MoveUpScenario(s: Slot, ev: AvatarEvent, now: int)
    requires s.position == Position(100.0, 100.0) && s.active.None?
    requires ev.eventType == Move && ev.payload.direction == Some(Up)
    ensures var started := Start(s, ev, now);
      var a := started.active.value;
      && a.targetX == 100.0 && a.targetY == 50.0
      && Animate(started, now + 250).position == Position(100.0, 75.0)
      && Animate(started, now + 250).avatar.currentDirection == AvatarTypes.DirectionValue(AvatarTypes.Back)
      && Animate(started, now + 500).position == Position(100.0, 50.0)
      && Animate(started, now + 500).active.None?
  {
    var a := Start(s, ev, now).active.value;
    assert Progress(a, now + 250) == 0.5 by {
      assert (now + 250 - a.startTime) as real / a.duration == 250.0 / 500.0;
    }
    assert Progress(a, now + 500) == 1.0 by {
      assert (now + 500 - a.startTime) as real / a.duration == 500.0 / 500.0;
    }
  }

  /**
   * The `!target` guard: a MOVE left from (50, 100) has targetX 0, so no
   * frame is drawn while it runs, yet completion still snaps to (0, 100).
   */
  lemma ZeroTargetSkipsFrames(s: Slot, ev: AvatarEvent, now: int)
    requires s.position == Position(50.0, 100.0) && s.active.None?
    requires ev.eventType == Move && ev.payload.direction == Some(Left)
    ensures var started := Start(s, ev, now);
      && Animate(started, now + 250) == started
      && Animate(started, now + 500).position == Position(0.0, 100.0)
  {
    var a := Start(s, ev, now).active.value;
    assert Progress(a, now + 250) == 0.5 by {
      assert (now + 250 - a.startTime) as real / a.duration == 250.0 / 500.0;
    }
    assert Progress(a, now + 500) == 1.0 by {
      assert (now + 500 - a.startTime) as real / a.duration == 500.0 / 500.0;
    }
  }

  /** A queue table after `ev` has been pushed onto entity `e`'s queue. */
  function Pushed(queues: map<Entity, seq<AvatarEvent>>, e: Entity, ev: AvatarEvent): (r: map<Entity, seq<AvatarEvent>>)
    ensures e in r && r[e] == (if e in queues then queues[e] else []) + [ev]
    ensures r.Keys == queues.Keys + {e}
    ensures forall k :: k in queues && k != e ==> r[k] == queues[k]
  {
    queues[e := (if e in queues then queues[e] else []) + [ev]]
  }

  /** Writes an optional value into a table: Some sets the entry, None deletes it. */
  function Store<V>(m: map<Entity, V>, e: Entity, v: Option<V>): (r: map<Entity, V>)
    ensures Lookup(r, e) == v
    ensures forall k :: k != e ==> Lookup(r, k) == Lookup(m, k)
  {
    match v
    case None => m - {e}
    case Some(x) => m[e := x]
  }

  /** The sum of the lengths of all queues (the order of summation does not matter). */
  ghost function TotalLength(queues: map<Entity, seq<AvatarEvent>>): nat
    decreases |queues.Keys|
  {
    if queues == map[] then 0
    else
      var k :| k in queues;
      |queues[k]| + TotalLength(queues - {k})
  }

  /** Any entry can be taken out first: TotalLength does not depend on the order. */
  lemma {:induction false} TotalLengthRemove(queues: map<Entity, seq<AvatarEvent>>, k: Entity)
    requires k in queues
    ensures TotalLength(queues) == |queues[k]| + TotalLength(queues - {k})
    decreases |queues.Keys|
  {
    var j :| j in queues && TotalLength(queues) == |queues[j]| + TotalLength(queues - {j});
    if j != k {
      var rest := queues - {j};
      assert k in rest;
      assert |rest.Keys| < |queues.Keys| by {
        assert rest.Keys < queues.Keys;
      }
      TotalLengthRemove(rest, k);
      var rest' := queues - {k};
      assert j in rest';
      assert |rest'.Keys| < |queues.Keys| by {
        assert rest'.Keys < queues.Keys;
      }
      TotalLengthRemove(rest', j);
      assert rest - {k} == rest' - {j};
    }
  }

  /** addEvent adds exactly one to the number of queued events. */
  lemma PushedAddsOne(queues: map<Entity, seq<AvatarEvent>>, e: Entity, ev: AvatarEvent)
    ensures TotalLength(Pushed(queues, e, ev)) == TotalLength(queues) + 1
  {
    var r := Pushed(queues, e, ev);
    TotalLengthRemove(r, e);
    assert r - {e} == queues - {e};
    if e in queues {
      TotalLengthRemove(queues, e);
    } else {
      assert queues - {e} == queues;
    }
  }

  /** No recorded action has duration 0. */
  ghost predicate ActiveValid(x: map<Entity, ActiveEvent>)
  {
    forall e :: e in x ==> x[e].duration != 0.0
  }

  /** Entity `e`'s Slot in the given tables. */
  function SlotOf(p: map<Entity, Position>, a: map<Entity, Avatar>, q: map<Entity, seq<AvatarEvent>>,
                  x: map<Entity, ActiveEvent>, e: Entity): (s: Slot)
    requires e in p && e in a
  {
    Slot(p[e], a[e], Lookup(q, e), Lookup(x, e))
  }

  /** Writing a table entry twice keeps only the second write. */
  lemma StoreTwice<V>(m: map<Entity, V>, e: Entity, v1: Option<V>, v2: Option<V>)
    ensures Store(Store(m, e, v1), e, v2) == Store(m, e, v2)
  {
    var r1, r2 := Store(Store(m, e, v1), e, v2), Store(m, e, v2);
    assert forall k :: k in r1 <==> Lookup(r1, k).Some?;
    assert forall k :: k in r2 <==> Lookup(r2, k).Some?;
    assert r1.Keys == r2.Keys;
  }

  /** The Slot of entity `e` in tables where `s` has been written over it. */
  lemma WriteSlot(p: map<Entity, Position>, a: map<Entity, Avatar>,
                  q: map<Entity, seq<AvatarEvent>>, x: map<Entity, ActiveEvent>,
                  e: Entity, s: Slot, k: Entity)
    requires k in p && k in a
    ensures SlotOf(p[e := s.position], a[e := s.avatar], Store(q, e, s.queue), Store(x, e, s.active), k)
            == if k == e then s else SlotOf(p, a, q, x, k)
  {
  }

  /**
   * The tables (p, a, q, x) are the tables (p0, a0, q0, x0) after execute
   * has handled every entity below `e`: each entity of the query below `e`
   * holds its target Slot t[k], every other entity holds what it held.
   */
  ghost predicate SteppedBelow(p: map<Entity, Position>, a: map<Entity, Avatar>,
                         q: map<Entity, seq<AvatarEvent>>, x: map<Entity, ActiveEvent>,
                         p0: map<Entity, Position>, a0: map<Entity, Avatar>,
                         q0: map<Entity, seq<AvatarEvent>>, x0: map<Entity, ActiveEvent>,
                         t: map<Entity, Slot>, e: Entity)
  {
    && p.Keys == p0.Keys && a.Keys == a0.Keys
    && QueryStepped(p, a, q, x, p0, a0, q0, x0, t, e)
    && OthersKept(p, a, q, x, p0, a0, q0, x0)
  }

  /** The query half of SteppedBelow. */
  ghost predicate QueryStepped(p: map<Entity, Position>, a: map<Entity, Avatar>,
                         q: map<Entity, seq<AvatarEvent>>, x: map<Entity, ActiveEvent>,
                         p0: map<Entity, Position>, a0: map<Entity, Avatar>,
                         q0: map<Entity, seq<AvatarEvent>>, x0: map<Entity, ActiveEvent>,
                         t: map<Entity, Slot>, e: Entity)
  {
    forall k :: k in p0 && k in a0 ==>
      k in p && k in a && k in t && SlotOf(p, a, q, x, k) == if k < e then t[k] else SlotOf(p0, a0, q0, x0, k)
  }

  /** The frame half of SteppedBelow: entities outside the query keep all four pieces. */
  ghost predicate OthersKept(p: map<Entity, Position>, a: map<Entity, Avatar>,
                         q: map<Entity, seq<AvatarEvent>>, x: map<Entity, ActiveEvent>,
                         p0: map<Entity, Position>, a0: map<Entity, Avatar>,
                         q0: map<Entity, seq<AvatarEvent>>, x0: map<Entity, ActiveEvent>)
  {
    forall k :: !(k in p0 && k in a0) ==>
      && Lookup(p, k) == Lookup(p0, k) && Lookup(a, k) == Lookup(a0, k)
      && Lookup(q, k) == Lookup(q0, k) && Lookup(x, k) == Lookup(x0, k)
  }

  /** Writing its target over entity `e` of the query extends SteppedBelow from `e` to `e + 1`. */
  lemma SteppedBelowNext(p: map<Entity, Position>, a: map<Entity, Avatar>,
                         q: map<Entity, seq<AvatarEvent>>, x: map<Entity, ActiveEvent>,
                         p0: map<Entity, Position>, a0: map<Entity, Avatar>,
                         q0: map<Entity, seq<AvatarEvent>>, x0: map<Entity, ActiveEvent>,
                         t: map<Entity, Slot>, e: Entity)
    requires SteppedBelow(p, a, q, x, p0, a0, q0, x0, t, e)
    requires e in p && e in a && e in t
    ensures var s := t[e];
      SteppedBelow(p[e := s.position], a[e := s.avatar], Store(q, e, s.queue), Store(x, e, s.active),
                   p0, a0, q0, x0, t, e + 1)
  {
    QueryStepNext(p, a, q, x, p0, a0, q0, x0, t, e);
    OthersKeptNext(p, a, q, x, p0, a0, q0, x0, e, t[e]);
  }

  /** SteppedBelowNext for the query half. */
  lemma QueryStepNext(p: map<Entity, Position>, a: map<Entity, Avatar>,
                         q: map<Entity, seq<AvatarEvent>>, x: map<Entity, ActiveEvent>,
                         p0: map<Entity, Position>, a0: map<Entity, Avatar>,
                         q0: map<Entity, seq<AvatarEvent>>, x0: map<Entity, ActiveEvent>,
                         t: map<Entity, Slot>, e: Entity)
    requires QueryStepped(p, a, q, x, p0, a0, q0, x0, t, e)
    requires e in p && e in a && e in t
    ensures var s := t[e];
      QueryStepped(p[e := s.position], a[e := s.avatar], Store(q, e, s.queue), Store(x, e, s.active),
                   p0, a0, q0, x0, t, e + 1)
  {
    forall k | k in p0 && k in a0 {
      WriteSlot(p, a, q, x, e, t[e], k);
    }
  }

  /** SteppedBelowNext for the frame half: writing a query entity touches no other entity. */
  lemma OthersKeptNext(p: map<Entity, Position>, a: map<Entity, Avatar>,
                         q: map<Entity, seq<AvatarEvent>>, x: map<Entity, ActiveEvent>,
                         p0: map<Entity, Position>, a0: map<Entity, Avatar>,
                         q0: map<Entity, seq<AvatarEvent>>, x0: map<Entity, ActiveEvent>, e: Entity, s: Slot)
    requires OthersKept(p, a, q, x, p0, a0, q0, x0)
    requires e in p0 && e in a0
    ensures OthersKept(p[e := s.position], a[e := s.avatar], Store(q, e, s.queue), Store(x, e, s.active),
                       p0, a0, q0, x0)
  {
  }

  /** An entity outside the query is skipped: SteppedBelow extends from `e` to `e + 1`. */
  lemma SteppedBelowSkip(p: map<Entity, Position>, a: map<Entity, Avatar>,
                         q: map<Entity, seq<AvatarEvent>>, x: map<Entity, ActiveEvent>,
                         p0: map<Entity, Position>, a0: map<Entity, Avatar>,
                         q0: map<Entity, seq<AvatarEvent>>, x0: map<Entity, ActiveEvent>,
                         t: map<Entity, Slot>, e: Entity)
    requires SteppedBelow(p, a, q, x, p0, a0, q0, x0, t, e)
    requires !(e in p && e in a)
    ensures SteppedBelow(p, a, q, x, p0, a0, q0, x0, t, e + 1)
  {
  }

  class EventSystem {
    /** The local user's id, which the source asks of its store client (getUserId). */
    const userId: string
    var eventQueues: map<Entity, seq<AvatarEvent>>
    var activeEvents: map<Entity, ActiveEvent>

    /** No active action has duration 0. */
    ghost predicate Valid()
      reads this
    {
      ActiveValid(activeEvents)
    }

    /** The Slot of entity `e`, read from the world and the two maps. */
    ghost function SlotAt(w: World, e: Entity): (s: Slot)
      requires w.HasAvatarComponents(e)
      reads this, w
    {
      SlotOf(w.position, w.avatar, eventQueues, activeEvents, e)
    }

    /** The state now is the given old state with entity `e`'s Slot replaced by `s`. */
    ghost predicate Wrote(w: World, e: Entity, p0: map<Entity, Position>, a0: map<Entity, Avatar>,
                          q0: map<Entity, seq<AvatarEvent>>, x0: map<Entity, ActiveEvent>, s: Slot)
      reads this, w
    {
      && w.position == p0[e := s.position]
      && w.avatar == a0[e := s.avatar]
      && eventQueues == Store(q0, e, s.queue)
      && activeEvents == Store(x0, e, s.active)
    }

    /** A new engine has no queues and no active actions. */
    constructor (userId: string)
      ensures this.userId == userId
      ensures eventQueues == map[] && activeEvents == map[]
      ensures Valid()
    {
      this.userId := userId;
      eventQueues := map[];
      activeEvents := map[];
    }

    /** addEvent: append to the entity's queue, creating it empty first when missing. */
    method AddEvent(e: Entity, ev: AvatarEvent)
      modifies this`eventQueues
      ensures eventQueues == Pushed(old(eventQueues), e, ev)
    {
      if e !in eventQueues {
        eventQueues := eventQueues[e := []];
      }
      eventQueues := eventQueues[e := eventQueues[e] + [ev]];
    }

    /** processMoveEvent. */
    method ProcessMoveEvent(w: World, e: Entity, a: ActiveEvent, p: real)
      requires w.HasAvatarComponents(e)
      modifies w`position, w`avatar
      ensures var s := MoveFrame(old(SlotAt(w, e)), a, p);
        w.position == old(w.position)[e := s.position] && w.avatar == old(w.avatar)[e := s.avatar]
    {
      if a.targetX == 0.0 || a.targetY == 0.0 {
        return;
      }
      w.position := w.position[e := Lerp(a, p)];
      var direction := DirectionFromMovement(a.targetX - a.startX, a.targetY - a.startY);
      w.avatar := w.avatar[e := w.avatar[e].(currentDirection := AvatarTypes.DirectionValue(direction))];
    }

    /** processJumpEvent. */
    method ProcessJumpEvent(w: World, e: Entity, a: ActiveEvent, p: real)
      requires e in w.position
      modifies w`position
      ensures w.position == old(w.position)[e := JumpPosition(a, p)]
    {
      w.position := w.position[e := JumpPosition(a, p)];
    }

    /** completeEvent. */
    method CompleteEvent(w: World, e: Entity)
      requires w.HasAvatarComponents(e) && Valid()
      modifies w`position, this`activeEvents
      ensures Valid()
      ensures var s := Complete(old(SlotAt(w, e)));
        w.position == old(w.position)[e := s.position] && activeEvents == Store(old(activeEvents), e, s.active)
    {
      if e !in activeEvents {
        return;
      }
      var a := activeEvents[e];
      w.position := w.position[e := Position(a.targetX, a.targetY)];
      activeEvents := activeEvents - {e};
    }

    /** processActiveEvent at time `now`. */
    method ProcessActiveEvent(w: World, e: Entity, now: int)
      requires w.HasAvatarComponents(e) && Valid()
      modifies w`position, w`avatar, this`activeEvents
      ensures Valid()
      ensures Wrote(w, e, old(w.position), old(w.avatar), old(eventQueues), old(activeEvents),
                    Animate(old(SlotAt(w, e)), now))
    {
      if e !in activeEvents {
        return;
      }
      var a := activeEvents[e];
      var p := Progress(a, now);
      match a.event.eventType {
        case Move => ProcessMoveEvent(w, e, a, p);
        case Jump => ProcessJumpEvent(w, e, a, p);
      }
      if p >= 1.0 {
        CompleteEvent(w, e);
      }
    }

    /** startEvent at time `now`. */
    method StartEvent(w: World, e: Entity, ev: AvatarEvent, now: int)
      requires e in w.position && Valid()
      modifies this`activeEvents
      ensures Valid()
      ensures activeEvents == old(activeEvents)[e := Begin(ev, w.position[e], now)]
    {
      activeEvents := activeEvents[e := Begin(ev, w.position[e], now)];
    }

    /** processEventQueue at time `now`. */
    method ProcessEventQueue(w: World, e: Entity, now: int)
      requires w.HasAvatarComponents(e) && Valid()
      modifies this`eventQueues, this`activeEvents
      ensures Valid()
      ensures Wrote(w, e, w.position, w.avatar, old(eventQueues), old(activeEvents),
                    Dequeue(old(SlotAt(w, e)), now))
    {
      if e in activeEvents {
        return;
      }
      if e !in eventQueues || eventQueues[e] == [] {
        return;
      }
      var queue := eventQueues[e];
      eventQueues := eventQueues[e := queue[1..]];
      StartEvent(w, e, queue[0], now);
    }

    /** One iteration of execute's loop: processActiveEvent, then processEventQueue. */
    method StepEntity(w: World, e: Entity, now: int)
      requires w.HasAvatarComponents(e) && Valid()
      modifies w`position, w`avatar, this`eventQueues, this`activeEvents
      ensures Valid()
      ensures Wrote(w, e, old(w.position), old(w.avatar), old(eventQueues), old(activeEvents),
                    Step(old(SlotAt(w, e)), now))
    {
      ghost var s0 := SlotAt(w, e);
      ghost var p0, a0, q0, x0 := w.position, w.avatar, eventQueues, activeEvents;
      ProcessActiveEvent(w, e, now);
      ghost var s1 := Animate(s0, now);
      assert SlotAt(w, e) == s1 by {
        assert Lookup(eventQueues, e) == s1.queue && Lookup(activeEvents, e) == s1.active;
      }
      ProcessEventQueue(w, e, now);
      ghost var s2 := Dequeue(s1, now);
      StoreTwice(q0, e, s1.queue, s2.queue);
      StoreTwice(x0, e, s1.active, s2.active);
      assert w.position == p0[e := s2.position];
      assert w.avatar == a0[e := s2.avatar];
    }

    /**
     * execute at time `now`: every entity with a Position and an Avatar, in
     * ascending id order, first advances its active action and then offers
     * its queue; entities outside the query keep everything.
     */
    method Execute(w: World, now: int)
      requires w.Valid() && Valid()
      modifies w`position, w`avatar, this`eventQueues, this`activeEvents
      ensures Valid()
      ensures w.position.Keys == old(w.position.Keys) && w.avatar.Keys == old(w.avatar.Keys)
      ensures forall k :: k in old(w.position) && k in old(w.avatar) ==>
        SlotOf(w.position, w.avatar, eventQueues, activeEvents, k)
        == Step(SlotOf(old(w.position), old(w.avatar), old(eventQueues), old(activeEvents), k), now)
      ensures forall k :: !(k in old(w.position) && k in old(w.avatar)) ==>
        && Lookup(w.position, k) == Lookup(old(w.position), k)
        && Lookup(w.avatar, k) == Lookup(old(w.avatar), k)
        && Lookup(eventQueues, k) == Lookup(old(eventQueues), k)
        && Lookup(activeEvents, k) == Lookup(old(activeEvents), k)
    {
      ghost var p0, a0, q0, x0 := w.position, w.avatar, eventQueues, activeEvents;
      ghost var t := map k | k in p0 && k in a0 :: Step(SlotOf(p0, a0, q0, x0, k), now);
      var e := 0;
      while e < w.nextEntity
        invariant e <= w.nextEntity && Valid()
        invariant SteppedBelow(w.position, w.avatar, eventQueues, activeEvents, p0, a0, q0, x0, t, e)
      {
        if w.HasAvatarComponents(e) {
          ghost var p1, a1, q1, x1 := w.position, w.avatar, eventQueues, activeEvents;
          assert SlotOf(p1, a1, q1, x1, e) == SlotOf(p0, a0, q0, x0, e);
          StepEntity(w, e, now);
          SteppedBelowNext(p1, a1, q1, x1, p0, a0, q0, x0, t, e);
        } else {
          SteppedBelowSkip(w.position, w.avatar, eventQueues, activeEvents, p0, a0, q0, x0, t, e);
        }
        e := e + 1;
      }
    }

    /**
     * addMoveEvent: queue a MOVE in `direction` for the local user. The
     * event id and the timestamp, which the source draws from the clock and
     * a random number, are parameters.
     */
    method AddMoveEvent(e: Entity, direction: MoveDirection, eventId: string, now: int)
      modifies this`eventQueues
      ensures eventQueues == Pushed(old(eventQueues), e, MoveEventOf(eventId, userId, direction, now))
    {
      AddEvent(e, MoveEventOf(eventId, userId, direction, now));
    }

    /** addJumpEvent: queue a JUMP of the given duration (800 ms by default) for the local user. */
    method AddJumpEvent(e: Entity, duration: real, eventId: string, now: int)
      modifies this`eventQueues
      ensures eventQueues == Pushed(old(eventQueues), e, JumpEventOf(eventId, userId, duration, now))
    {
      AddEvent(e, JumpEventOf(eventId, userId, duration, now));
    }

    /** getActiveEventCount: the number of entities with an active action. */
    method ActiveEventCount() returns (n: nat)
      ensures n == |activeEvents|
    {
      n := |activeEvents|;
    }

    /** getQueuedEventCount: the number of queued actions over all entities. */
    method QueuedEventCount() returns (total: nat)
      ensures total == TotalLength(eventQueues)
    {
      total := 0;
      var rest := eventQueues;
      while rest != map[]
        invariant total + TotalLength(rest) == TotalLength(eventQueues)
        decreases |rest.Keys|
      {
        var k :| k in rest;
        TotalLengthRemove(rest, k);
        total := total + |rest[k]|;
        assert |(rest - {k}).Keys| < |rest.Keys| by {
          assert (rest - {k}).Keys < rest.Keys;
        }
        rest := rest - {k};
      }
    }

    /** cleanup: drop every queue and every active action. */
    method Cleanup()
      modifies this`eventQueues, this`activeEvents
      ensures eventQueues == map[] && activeEvents == map[]
      ensures Valid()
    {
      eventQueues := map[];
      activeEvents := map[];
    }
  }
}
