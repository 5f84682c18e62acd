# Avatar stream front-end: the simulation core in Dafny

This project models the simulation core of the avatar streaming front-end.
That core is four small systems that run once per frame over an
entity/component store:

- **InputSystem** latches the held keys and writes them as four directional
  flags to every entity that has an Input component.
- **AvatarSystem** turns those flags into a facing direction, a target point
  and an `isMoving` flag. It then walks every moving entity toward its target
  and snaps onto the target once closer than 1 px.
- **EventSystem** keeps a FIFO queue of MOVE/JUMP actions per entity and at
  most one active action. Each active action is interpolated on the clock:
  MOVE linearly, JUMP along a parabola of height 50. At progress 1 the entity
  snaps to the action's target.
- **MultiAvatarSystem** reconciles peers. At most once a second it applies a
  snapshot of every online user: departed peers are forgotten, new peers get a
  remote entity, and known peers are overwritten. On every call it reports the
  first local avatar's state. A 32-bit string hash gives each peer's
  NetworkId.

The direction enum, its name table and the asset URL formatter are modelled
too. So are the local avatar's creation and the record types exchanged with
the shared store.

The world is a class: an entity counter plus one map per component. An
entity queried for components A and B is an id present in both maps. Query
loops visit ids in ascending order. Entities are never removed, so this is
the order in which they entered the query.

Each stateful system is a class, or module methods when the source class has
no state. Each method is proved against a function on values:

- AvatarSystem: `ResolveInput` and `Advance`.
- EventSystem: per-entity functions on a `Slot`, which holds Position,
  Avatar, queue and active action.
- MultiAvatarSystem: functions on a `Peers` value, which holds the counter,
  the tracking map and the five tables a sync touches.

Lemmas state the properties of those functions.

Inputs the source takes from its environment become parameters:

- the clock (`Date.now()`) is `now`;
- `Math.sqrt` is a function `sqrt` with the square-root property;
- the random part of an event id is `eventId`;
- the peer snapshot is `users`, a sequence of (user id, state) in map order;
- the local user id is a constant of each system.

The local push is a method result. It is not a call to the store client.

Three behaviours of the code differ from what one might expect. The model
follows the code in each case:

- When up and down are held together, up wins. The code tests up first in
  an `if … else if` chain, so down never takes precedence.
- A queued successor starts in the same `execute` in which its predecessor
  completes, not on the next frame. The code processes the active action
  before the queue.
- When a peer leaves, the code only forgets it: its entity keeps every
  component, and `SyncedFrame` proves that. The entity is not removed.

## Model

| member | source | states |
|---|---|---|
| AvatarTypes.DirectionValue | src/types/avatar.ts:1-7 | CENTER..RIGHT have the values 0..4, and reading a value back gives the direction |
| AvatarTypes.DirectionFromValue | src/types/avatar.ts:1-7 | a stored number names a direction exactly when it is in 0..4 |
| AvatarTypes.DirectionName | src/types/avatar.ts:9-15 | each name is non-empty, has no '/', and reads back to its direction |
| AvatarTypes.DirectionNamesDistinct | src/types/avatar.ts:9-15 | two directions have the same name if and only if they are the same direction |
| AvatarTypes.DecimalString | src/types/avatar.ts:26 | the decimal rendering of an id is all digits, with no leading zero |
| AvatarTypes.DecimalRoundTrip | src/types/avatar.ts:26 | reading the decimal rendering back gives the id |
| AvatarTypes.AvatarImageUrl | src/types/avatar.ts:24-27 | the URL starts with the CDN base and ends with ".png" |
| AvatarTypes.AvatarImageUrlInjective | src/types/avatar.ts:24-27 | the URL determines both the avatar id and the direction |
| AvatarTypes.DistinctDirectionsDistinctUrls | src/types/avatar.ts:24-27 | for a fixed id, distinct directions give distinct URLs |
| Ecs.World.constructor | src/components/AvatarCanvas.tsx:47 | createWorld: a new world has no entity and no component |
| Ecs.World.HasMovementComponents | src/systems/AvatarSystem.ts:6 | the avatar query of AvatarSystem: Position, Avatar and Movement |
| Ecs.World.HasInputComponents | src/systems/AvatarSystem.ts:7 | the input query of AvatarSystem: Input, Position, Avatar and Movement |
| Ecs.World.HasAvatarComponents | src/systems/MultiAvatarSystem.ts:17 | the avatar query of EventSystem and MultiAvatarSystem: Position and Avatar |
| Ecs.World.AddEntity | src/systems/MultiAvatarSystem.ts:77 | a new entity gets the next id, which no component mentions yet |
| InputSystem.Binding | src/systems/InputSystem.ts:36-39 | the key map: KeyW/ArrowUp, KeyS/ArrowDown, KeyA/ArrowLeft and KeyD/ArrowRight bind the four directions, and every other code is unbound |
| InputSystem.FlagsFor | src/systems/InputSystem.ts:36-39 | a flag is set exactly when a key bound to it (WASD or an arrow key) is held |
| InputSystem.NoKeysNoFlags | src/systems/InputSystem.ts:43-46 | with no key held, as after blur or destroy, all four flags are clear |
| InputSystem.OppositeFlagsTogether | src/systems/InputSystem.ts:36-39 | the flags are independent: up with down and left with right can all be set together |
| InputSystem.KeyDownSetsFlag | src/systems/InputSystem.ts:13-16 | pressing a bound key sets its flag, whatever else is held |
| InputSystem.KeyUpClearsFlag | src/systems/InputSystem.ts:18-21 | releasing the only held key bound to a direction clears that flag |
| InputSystem.InputSystem.constructor | src/systems/InputSystem.ts:6-10 | a new latch holds no key |
| InputSystem.InputSystem.OnKeyDown | src/systems/InputSystem.ts:13-16 | keydown adds the key code to the held set |
| InputSystem.InputSystem.OnKeyUp | src/systems/InputSystem.ts:18-21 | keyup removes the key code from the held set |
| InputSystem.InputSystem.OnBlur | src/systems/InputSystem.ts:24-26 | blur empties the held set |
| InputSystem.InputSystem.Execute | src/systems/InputSystem.ts:29-41 | every entity with Input receives the same four flags of the held keys, and no other entity gains Input |
| InputSystem.InputSystem.Destroy | src/systems/InputSystem.ts:43-46 | destroy empties the held set |
| AvatarSystem.ResolveInput | src/systems/AvatarSystem.ts:20-74 | isMoving is set if and only if some flag is set; facing is horizontal over vertical, left over right, up over down; each active axis's target is the position ∓/± velocity, scaled by 0.707 on a diagonal; a single-axis input leaves the other target as it was; with no flag the target is the position and the facing CENTER; velocity is unchanged |
| AvatarSystem.Advance | src/systems/AvatarSystem.ts:84-109 | an idle entity is unchanged; within 1 px it snaps to the target, stops and faces CENTER; otherwise only the position changes, by a step parallel to the target vector, of length \|velocity·deltaTime\|, whose projection on the target vector is velocity·deltaTime times the distance (so it points toward the target for a positive speed and away for a negative one) |
| AvatarSystem.StepGeometry | src/systems/AvatarSystem.ts:103-108 | the normalised step is parallel to (dx, dy), has length \|speed\|, and its projection on (dx, dy) is speed·distance |
| AvatarSystem.SquareRootOfSquare | src/systems/AvatarSystem.ts:93 | Math.sqrt of the square of a positive number is that number |
| AvatarSystem.Tick | src/systems/AvatarSystem.ts:9-111 | one entity's pass through execute: velocity and avatar id never change; with Input but no flag set the entity stays put and stops; with a flag set, a positive speed and a positive time step it moves |
| AvatarSystem.ResolveAll | src/systems/AvatarSystem.ts:14-76 | the processInput loop writes ResolveInput's movement and facing to every entity of the input query and leaves every other entry as it was |
| AvatarSystem.ProcessInput | src/systems/AvatarSystem.ts:14-76 | the same, on the world |
| AvatarSystem.AdvanceAll | src/systems/AvatarSystem.ts:78-111 | the updateMovement loop writes Advance's result to every entity of the movement query and leaves every other entry as it was |
| AvatarSystem.UpdateMovement | src/systems/AvatarSystem.ts:78-111 | the same, on the world |
| AvatarSystem.Execute | src/systems/AvatarSystem.ts:9-12 | processInput, then updateMovement: each queried entity ends in the state the per-entity tick computes |
| AvatarSystem.RightArrowHalfSecond | src/systems/AvatarSystem.ts:14-111 | a worked tick: from (400, 300) at velocity 200, holding right for 0.5 s, the avatar reaches (500, 300), aims at (600, 300), is still moving and faces RIGHT |
| EventSystem.Progress | src/systems/EventSystem.ts:69-70 | progress is at most 1; it is 0 at the start time; for a positive duration it is non-negative from the start on, and it reaches 1 exactly when the elapsed time reaches the duration |
| EventSystem.Lerp | src/systems/EventSystem.ts:91-92 | the interpolation is at the start at progress 0 and at the target at progress 1 |
| EventSystem.JumpOffset | src/systems/EventSystem.ts:107-111 | the jump height never exceeds 50; it is 50 at progress 0.5, 0 at progress 0 and 1, and non-negative in between |
| EventSystem.JumpSymmetric | src/systems/EventSystem.ts:111 | the arc is symmetric: progress p and 1 - p give the same height |
| EventSystem.JumpPosition | src/systems/EventSystem.ts:105-115 | a jump keeps x at the start and keeps y between startY - 50 and startY |
| EventSystem.DirectionFromMovement | src/systems/EventSystem.ts:190-197 | each of the five results holds if and only if its condition holds: CENTER for a zero vector; RIGHT/LEFT when \|dx\| > \|dy\|, by the sign of dx; otherwise FRONT/BACK by the sign of dy |
| EventSystem.JumpDuration | src/systems/EventSystem.ts:157-159 | `payload.duration \|\| 800`: the given duration unless it is absent or 0, and never 0 |
| EventSystem.Begin | src/systems/EventSystem.ts:128-172 | an action starts at the current position and time; a MOVE lasts 500 ms and aims 50 px along its direction's axis; a JUMP lasts JumpDuration and aims at the start point |
| EventSystem.MoveFrame | src/systems/EventSystem.ts:87-103 | with a target coordinate equal to 0 nothing changes; otherwise the position is the interpolation and the facing the direction of the movement |
| EventSystem.JumpFrame | src/systems/EventSystem.ts:105-115 | a jump frame changes only the position, to the jump position |
| EventSystem.Complete | src/systems/EventSystem.ts:176-188 | completion snaps to the recorded target and frees the slot; with no active action it does nothing |
| EventSystem.Animate | src/systems/EventSystem.ts:65-85 | the queue is not touched; an idle entity is unchanged; while progress is below 1 the result is the frame of the action's type (MoveFrame for a MOVE, JumpFrame for a JUMP); the slot is freed exactly when progress reaches 1, and then the entity is at the target, a completed MOVE keeps the facing of its last frame and a completed JUMP the facing it had |
| EventSystem.Start | src/systems/EventSystem.ts:162-172 | startEvent records Begin's action as active and changes nothing else |
| EventSystem.Dequeue | src/systems/EventSystem.ts:117-126 | with an active action or an empty or missing queue nothing changes; otherwise the head is removed and started from the current position |
| EventSystem.Step | src/systems/EventSystem.ts:56-62 | one execute for one entity never records an action of duration 0 |
| EventSystem.MoveEventOf | src/systems/EventSystem.ts:200-210 | addMoveEvent's event is a MOVE of the local user stamped now, whose payload holds only the direction |
| EventSystem.JumpEventOf | src/systems/EventSystem.ts:212-222 | addJumpEvent's event is a JUMP of the local user stamped now, whose payload holds only the duration |
| EventSystem.MoveFacing | src/systems/EventSystem.ts:141-154 | a MOVE up, down, left or right faces BACK, FRONT, LEFT or RIGHT |
| EventSystem.JumpEnds | src/systems/EventSystem.ts:105-115 | a jump is at the start point at progress 0 and 1 and 50 px above it at progress 0.5 |
| EventSystem.CompletedIsIdle | src/systems/EventSystem.ts:65-85 | once progress reaches 1 the slot is free, and a further processActiveEvent changes nothing |
| EventSystem.SuccessorStartsAtOnce | src/systems/EventSystem.ts:53-63 | when an action completes, the head of the queue starts in the same execute, from the completed action's target, leaving the rest of the queue |
| EventSystem.RunningKeepsQueue | src/systems/EventSystem.ts:117-119 | while an action runs below progress 1, execute keeps the queue and the action |
| EventSystem.JumpLandsAtStart | src/systems/EventSystem.ts:157-184 | a jump ends where it took off and frees the slot |
| EventSystem.MoveUpScenario | src/systems/EventSystem.ts:87-103 | a MOVE up from (100, 100) is at (100, 75) facing BACK after 250 ms, and at (100, 50) with the slot freed after 500 ms |
| EventSystem.ZeroTargetSkipsFrames | src/systems/EventSystem.ts:88 | a MOVE left from (50, 100) has targetX 0, so no frame is drawn while it runs, yet completion still lands on (0, 100) |
| EventSystem.Pushed | src/systems/EventSystem.ts:46-51 | the entity's queue, created empty if missing, gets the event at its end, and every other queue is unchanged |
| EventSystem.TotalLengthRemove | src/systems/EventSystem.ts:228-234 | the total queue length does not depend on the order in which the queues are summed |
| EventSystem.PushedAddsOne | src/systems/EventSystem.ts:46-51 | addEvent adds exactly one to the number of queued events |
| EventSystem.EventSystem.constructor | src/systems/EventSystem.ts:19-25 | a new engine has no queues and no active actions |
| EventSystem.EventSystem.AddEvent | src/systems/EventSystem.ts:46-51 | the queues become Pushed of the old queues |
| EventSystem.EventSystem.ProcessMoveEvent | src/systems/EventSystem.ts:87-103 | Position and Avatar of the entity become MoveFrame's |
| EventSystem.EventSystem.ProcessJumpEvent | src/systems/EventSystem.ts:105-115 | the entity's Position becomes the jump position |
| EventSystem.EventSystem.CompleteEvent | src/systems/EventSystem.ts:176-188 | Position and active slot of the entity become Complete's |
| EventSystem.EventSystem.ProcessActiveEvent | src/systems/EventSystem.ts:65-85 | the entity's Slot becomes Animate's |
| EventSystem.EventSystem.StartEvent | src/systems/EventSystem.ts:128-174 | the entity's active action becomes Begin's, started at its Position |
| EventSystem.EventSystem.ProcessEventQueue | src/systems/EventSystem.ts:117-126 | the entity's Slot becomes Dequeue's |
| EventSystem.EventSystem.StepEntity | src/systems/EventSystem.ts:57-61 | the entity's Slot becomes Step's, and no other entry changes |
| EventSystem.EventSystem.Execute | src/systems/EventSystem.ts:53-63 | every entity with Position and Avatar gets Step of its old Slot; every other entity keeps all four pieces; no action of duration 0 is recorded |
| EventSystem.EventSystem.AddMoveEvent | src/systems/EventSystem.ts:200-210 | the MOVE event is pushed onto the entity's queue |
| EventSystem.EventSystem.AddJumpEvent | src/systems/EventSystem.ts:212-222 | the JUMP event is pushed onto the entity's queue |
| EventSystem.EventSystem.ActiveEventCount | src/systems/EventSystem.ts:224-226 | the count is the number of entities with an active action |
| EventSystem.EventSystem.QueuedEventCount | src/systems/EventSystem.ts:228-234 | the count is the sum of all queue lengths |
| EventSystem.EventSystem.Cleanup | src/systems/EventSystem.ts:236-239 | both maps become empty |
| MultiAvatarSystem.ToInt32 | src/systems/MultiAvatarSystem.ts:145 | `hash & hash` gives a value in [-2^31, 2^31) |
| MultiAvatarSystem.ToInt32Congruent | src/systems/MultiAvatarSystem.ts:144-145 | numbers congruent modulo 2^32 have the same 32-bit value |
| MultiAvatarSystem.HashRound | src/systems/MultiAvatarSystem.ts:143-145 | one round yields a 32-bit value |
| MultiAvatarSystem.HashRoundIsTimes31 | src/systems/MultiAvatarSystem.ts:144-145 | a round is the 32-bit wrap of 31·h + charCode |
| MultiAvatarSystem.HashPrefix | src/systems/MultiAvatarSystem.ts:141-146 | the register stays a 32-bit value after every character |
| MultiAvatarSystem.UserIdHash | src/systems/MultiAvatarSystem.ts:139-148 | the hash is non-negative and at most 2^31, and the empty string hashes to 0 |
| MultiAvatarSystem.HashExamples | src/systems/MultiAvatarSystem.ts:139-148 | "a" hashes to 97 and "ab" to 97·31 + 98 |
| MultiAvatarSystem.Ids | src/systems/MultiAvatarSystem.ts:42 | the id set holds exactly the snapshot's ids |
| MultiAvatarSystem.PeerPosition | src/systems/MultiAvatarSystem.ts:87-88 | the peer is placed at the snapshot's x and y |
| MultiAvatarSystem.PeerAvatar | src/systems/MultiAvatarSystem.ts:89-90 | the peer's avatar has the snapshot's avatar id and direction |
| MultiAvatarSystem.Created | src/systems/MultiAvatarSystem.ts:72-98 | the new entity gets Position, Avatar, isRemote true, the hash as NetworkId and Renderable; the counter moves by one |
| MultiAvatarSystem.Known | src/systems/MultiAvatarSystem.ts:56-58 | the `!entityId` test fails: the peer is tracked by an entity other than 0 |
| MultiAvatarSystem.SyncEntry | src/systems/MultiAvatarSystem.ts:50-66 | one pass of the snapshot loop: the local user changes nothing; any other id ends up tracked and is the only id added; a known peer keeps its entity and the counter; any other peer is given the next id, and the counter moves by one |
| MultiAvatarSystem.SyncEntries | src/systems/MultiAvatarSystem.ts:50-66 | the snapshot loop keeps every tracked id and creates at most one entity per snapshot entry |
| MultiAvatarSystem.Synced | src/systems/MultiAvatarSystem.ts:36-70 | syncUsersFromRedis never moves the counter back and creates at most one entity per snapshot entry |
| MultiAvatarSystem.Pruned | src/systems/MultiAvatarSystem.ts:42-47 | an entry is kept if and only if it is the local user's or its id is in the snapshot, and kept entries keep their entity |
| MultiAvatarSystem.StepTrackOk | src/systems/MultiAvatarSystem.ts:50-66 | one snapshot entry keeps the local user untracked and tracked entities distinct and created |
| MultiAvatarSystem.StepShownOk | src/systems/MultiAvatarSystem.ts:56-65 | one snapshot entry keeps every tracked entity holding Position and Avatar and marked remote |
| MultiAvatarSystem.StepBelow | src/systems/MultiAvatarSystem.ts:72-92 | one snapshot entry writes components only to created entities |
| MultiAvatarSystem.StepTracked | src/systems/MultiAvatarSystem.ts:56-61 | one snapshot entry tracks its id unless it is the local one; other ids and peers with a nonzero entity keep their entries |
| MultiAvatarSystem.StepShows | src/systems/MultiAvatarSystem.ts:56-65 | after one entry that peer shows its snapshot state, and peers that already showed theirs still do |
| MultiAvatarSystem.StepFresh | src/systems/MultiAvatarSystem.ts:58-61 | a peer without a nonzero entity gets a fresh remote entity carrying its hash |
| MultiAvatarSystem.StepFrame | src/systems/MultiAvatarSystem.ts:100-105 | one entry changes no existing entity except the Position and Avatar of the peer's own entity, and creates only remote entities |
| MultiAvatarSystem.EntriesOk | src/systems/MultiAvatarSystem.ts:50-66 | the snapshot loop keeps the sync invariant |
| MultiAvatarSystem.EntriesTracked | src/systems/MultiAvatarSystem.ts:50-66 | the loop adds exactly the snapshot's non-local ids; unmentioned ids and peers with a nonzero entity keep their entries; any other entry is a new entity |
| MultiAvatarSystem.EntriesShows | src/systems/MultiAvatarSystem.ts:50-66 | with distinct ids, every non-local snapshot peer ends up showing its snapshot state |
| MultiAvatarSystem.EntriesFresh | src/systems/MultiAvatarSystem.ts:58-61 | every non-local snapshot peer without a nonzero entity ends up with a fresh one |
| MultiAvatarSystem.EntriesFrame | src/systems/MultiAvatarSystem.ts:50-66 | the loop leaves RemoteAvatar, NetworkId and Renderable of existing entities alone, and the Position and Avatar of existing entities no snapshot peer owns |
| MultiAvatarSystem.PrunedOk | src/systems/MultiAvatarSystem.ts:42-47 | pruning keeps the sync invariant |
| MultiAvatarSystem.SyncedOk | src/systems/MultiAvatarSystem.ts:36-70 | a sync keeps the invariant (local user untracked, tracked entities distinct, created, shown and remote) and never moves the counter back |
| MultiAvatarSystem.SyncedTracksSnapshot | src/systems/MultiAvatarSystem.ts:42-66 | after a sync the tracked ids are exactly the snapshot's ids minus the local one: absent peers are dropped, new ones added, and the local user never tracked |
| MultiAvatarSystem.SyncedShows | src/systems/MultiAvatarSystem.ts:50-66 | after a sync every non-local snapshot peer's entity has its snapshot position, direction and avatar id |
| MultiAvatarSystem.SyncedKeeps | src/systems/MultiAvatarSystem.ts:56-65 | a peer that stays online and has a nonzero entity keeps that entity |
| MultiAvatarSystem.SyncedFresh | src/systems/MultiAvatarSystem.ts:58-61 | any other non-local snapshot peer gets a new entity, marked remote, carrying hashUserId of its id, renderable |
| MultiAvatarSystem.SyncedFrame | src/systems/MultiAvatarSystem.ts:107-116 | a sync removes no component: departed peers' entities keep theirs, and existing entities change only in the Position and Avatar of snapshot peers' entities |
| MultiAvatarSystem.EntityZeroRecreated | src/systems/MultiAvatarSystem.ts:58 | a peer tracked by entity 0 gets a second entity, and entity 0 stays behind, remote and unchanged |
| MultiAvatarSystem.FirstLocalFrom | src/systems/MultiAvatarSystem.ts:121-131 | the result is the first entity, from the given one on, that has Position and Avatar and is not remote; there is none exactly when no such entity exists |
| MultiAvatarSystem.LocalPush | src/systems/MultiAvatarSystem.ts:118-137 | there is no push exactly when no entity has Position and Avatar without being remote; otherwise the push holds the position and stored facing of the first such entity |
| MultiAvatarSystem.SyncedKeepsLocalPush | src/systems/MultiAvatarSystem.ts:118-137 | a sync never changes which entity the local push reports or the state it sends |
| MultiAvatarSystem.MultiAvatarSystem.constructor | src/systems/MultiAvatarSystem.ts:12-21 | a new system tracks nobody and has never synchronised |
| MultiAvatarSystem.MultiAvatarSystem.HashUserId | src/systems/MultiAvatarSystem.ts:139-148 | the hash loop computes UserIdHash |
| MultiAvatarSystem.MultiAvatarSystem.CreateRemoteAvatar | src/systems/MultiAvatarSystem.ts:72-98 | the tables become Created of the old tables, with the id's hash |
| MultiAvatarSystem.MultiAvatarSystem.UpdateAvatarPosition | src/systems/MultiAvatarSystem.ts:100-105 | Position and Avatar of the entity are overwritten with the snapshot state |
| MultiAvatarSystem.MultiAvatarSystem.RemoveAvatarEntity | src/systems/MultiAvatarSystem.ts:107-116 | only the tracking entry is deleted |
| MultiAvatarSystem.MultiAvatarSystem.PruneDeparted | src/systems/MultiAvatarSystem.ts:42-47 | the tracking map becomes Pruned of the old one |
| MultiAvatarSystem.MultiAvatarSystem.ApplyUser | src/systems/MultiAvatarSystem.ts:50-66 | one pass of the loop does what SyncEntry says and keeps the invariant |
| MultiAvatarSystem.MultiAvatarSystem.ApplySnapshot | src/systems/MultiAvatarSystem.ts:50-66 | the loop does what SyncEntries says and keeps the invariant |
| MultiAvatarSystem.MultiAvatarSystem.SyncUsers | src/systems/MultiAvatarSystem.ts:36-70 | the sync does what Synced says and keeps the invariant |
| MultiAvatarSystem.MultiAvatarSystem.LocalAvatarState | src/systems/MultiAvatarSystem.ts:118-137 | the push is the position and facing of the first non-remote avatar entity, or none |
| MultiAvatarSystem.MultiAvatarSystem.Execute | src/systems/MultiAvatarSystem.ts:23-34 | when at least 1000 ms have passed since the last sync, it syncs and records the time; otherwise nothing changes; the push is sent on every call and equals the push before the sync |
| MultiAvatarSystem.MultiAvatarSystem.RemoteAvatarCount | src/systems/MultiAvatarSystem.ts:150-152 | the count is the number of tracked peers |
| MultiAvatarSystem.MultiAvatarSystem.RemoteAvatarUserIds | src/systems/MultiAvatarSystem.ts:154-156 | the list holds every tracked id exactly once |
| MultiAvatarSystem.MultiAvatarSystem.Cleanup | src/systems/MultiAvatarSystem.ts:158-160 | the tracking map becomes empty |
| Session.WithLocal | src/components/AvatarCanvas.tsx:77-107 | the local avatar gets the next id, a Position at the initial point, an Avatar facing CENTER and Renderable, and no RemoteAvatar |
| Session.WithLocalOk | src/components/AvatarCanvas.tsx:77-107 | adding the local avatar keeps the sync invariant |
| Session.WithLocalIsPushed | src/systems/MultiAvatarSystem.ts:118-137 | in a world with no local avatar yet, the new one is what the push reports: its initial point, facing CENTER |
| Session.CreateLocalAvatar | src/components/AvatarCanvas.tsx:77-107 | the world gains the local avatar with an idle Movement aimed at its initial point, cleared Input flags and an EventQueue; the sync invariant holds |

## Left out

- The store client (src/services/RedisService.ts): connection, TTL, pub/sub and JSON parsing. The snapshot is an input and the push an output. A failed fetch, which the client turns into an empty snapshot, is the empty sequence.
- Event subscription in EventSystem (`initialize` and `handleIncomingEvent`, src/systems/EventSystem.ts:27-44): it only subscribes and logs.
- React components, pages, rendering (src/systems/RenderSystem.ts) and the asset and streaming hooks are user interface code.
- The game loop that runs input, movement, peer sync, events and rendering in that order (src/components/AvatarCanvas.tsx:121-133) is not modelled. Each system's execute is specified on its own.
- bitecs internals: `createWorld`, `addEntity` and `defineQuery` are replaced by the map-based world. src/types/ecs.ts defines only Position, Scale, Rotation, Sprite and Renderable. The fields of Avatar, Movement, Input, RemoteAvatar and NetworkId are taken from their uses in the systems, and their bitecs storage widths are not modelled. Positions are reals, not f32.
- Scale, Rotation and Sprite components are consumed only by rendering.
- Floating point: NaN, infinities and rounding. This covers a NaN from parsing a peer's state, a NaN target that the `!target` guard would also reject, and the exact value of `Math.pow`.
- `Date.now()` is read at several points in the source. Each method takes one `now`, so the small gaps between those readings are not modelled.
- Math.random in event ids: the id is a parameter.
- Concurrency: the awaited store calls and the try/catch around them.
- Characters outside the Basic Multilingual Plane: the model hashes such a character once, as its Unicode scalar value, whereas hashUserId's `charCodeAt` hashes its two UTF-16 surrogates. The hashes agree for ids made of BMP characters only.
- EventSystem.EventSystem.AddJumpEvent: the default duration 800 is not supplied; callers pass it.
- EventSystem.JumpOffset: it is not stated that progress 0.5 is the only point at which the height reaches 50.
- MultiAvatarSystem.MultiAvatarSystem.RemoteAvatarUserIds: the order of the ids (the map's insertion order) is not stated.
- MultiAvatarSystem.SyncedShows: distinct snapshot ids are required; the snapshot comes from a Map, so its keys are distinct.
