/**
 * The movement resolver (src/systems/AvatarSystem.ts). processInput turns the
 * four Input flags of each controllable entity into a facing direction, a
 * target point and the isMoving flag; updateMovement then walks every moving
 * entity toward its target, snapping onto it once closer than 1 px.
 */
module AvatarSystem {
  import opened Optional
  import opened Ecs
  import opened AvatarTypes

  /** The diagonal speed factor, 0.707 (an approximation of 1/sqrt 2). */
  const DiagonalFactor: real := 0.707

  predicate Vertical(i: Input) { i.up || i.down }
  predicate Horizontal(i: Input) { i.left || i.right }
  predicate AnyFlag(i: Input) { Vertical(i) || Horizontal(i) }

  /** The offset applied on each active axis: the velocity, scaled down on a diagonal. */
  function AxisStep(i: Input, velocity: real): real
  {
    if Vertical(i) && Horizontal(i) then velocity * DiagonalFactor else velocity
  }

  /** The facing chosen by processInput: a horizontal flag wins over a vertical one. */
  function Facing(i: Input): Direction
  {
    if i.left then Left
    else if i.right then Right
    else if i.up then Back
    else if i.down then Front
    else Center
  }

  datatype Resolved = Resolved(movement: Movement, direction: Direction)

  /**
   * processInput for one entity, in the order the source assigns: the
   * vertical branch (up before down), the horizontal branch (left before
   * right), the diagonal rescale, then the reset when no flag is set.
   */
  function ResolveInput(p: Position, m: Movement, i: Input): (r: Resolved)
    ensures r.movement.velocity == m.velocity
    ensures r.movement.isMoving <==> AnyFlag(i)
    ensures r.direction == Facing(i)
    ensures !AnyFlag(i) ==> r.movement.targetX == p.x && r.movement.targetY == p.y
    ensures Vertical(i) ==>
      r.movement.targetY == (if i.up then p.y - AxisStep(i, m.velocity) else p.y + AxisStep(i, m.velocity))
    ensures Horizontal(i) ==>
      r.movement.targetX == (if i.left then p.x - AxisStep(i, m.velocity) else p.x + AxisStep(i, m.velocity))
    ensures Vertical(i) && !Horizontal(i) ==> r.movement.targetX == m.targetX
    ensures Horizontal(i) && !Vertical(i) ==> r.movement.targetY == m.targetY
  {
    var v := m.velocity;
    var (dirV, ty, movingV) :=
      if i.up then (Back, p.y - v, true)
      else if i.down then (Front, p.y + v, true)
      else (Center, m.targetY, false);
    var (dir, tx, moving) :=
      if i.left then (Left, p.x - v, true)
      else if i.right then (Right, p.x + v, true)
      else (dirV, m.targetX, movingV);
    var diagonal := (i.up || i.down) && (i.left || i.right);
    var speed := v * DiagonalFactor;
    var ty' := if diagonal then (if i.up then p.y - speed else p.y + speed) else ty;
    var tx' := if diagonal then (if i.left then p.x - speed else p.x + speed) else tx;
    if !i.up && !i.down && !i.left && !i.right then
      Resolved(Movement(v, p.x, p.y, false), Center)
    else
      Resolved(Movement(v, tx', ty', moving), dir)
  }

  /** Math.sqrt, which the model receives as a parameter. */
  ghost predicate IsSquareRoot(sqrt: real -> real)
  {
    forall x :: 0.0 <= x ==> 0.0 <= sqrt(x) && sqrt(x) * sqrt(x) == x
  }

  function Square(x: real): real { x * x }

  /** Squared distance from the position to the movement target. */
  function SquaredDistance(p: Position, m: Movement): real
  {
    Square(m.targetX - p.x) + Square(m.targetY - p.y)
  }

  /**
   * Moving a distance `c` along (dx, dy) of length `s`, as (dx / s * c, dy / s * c),
   * gives a displacement parallel to (dx, dy), pointing its way when c >= 0, of length |c|.
   */
  lemma StepGeometry(dx: real, dy: real, s: real, c: real)
    requires 0.0 < s && s * s == dx * dx + dy * dy
    ensures (dx / s * c) * dy == (dy / s * c) * dx
    ensures (dx / s * c) * dx + (dy / s * c) * dy == c * s
    ensures c >= 0.0 ==> (dx / s * c) * dx + (dy / s * c) * dy >= 0.0
    ensures Square(dx / s * c) + Square(dy / s * c) == Square(c)
  {
    var k := c / s;
    assert k * s == c;
    assert dx / s * c == dx * k;
    assert dy / s * c == dy * k;
    calc {
      (dx * k) * dx + (dy * k) * dy;
      k * (dx * dx + dy * dy);
      k * (s * s);
      (k * s) * s;
      c * s;
    }
    calc {
      Square(dx * k) + Square(dy * k);
      (k * k) * (dx * dx + dy * dy);
      (k * k) * (s * s);
      (k * s) * (k * s);
      Square(c);
    }
  }

  datatype Moved = Moved(position: Position, movement: Movement, avatar: Avatar)

  /**
   * updateMovement for one entity: an idle entity is left alone; within 1 px
   * of the target it snaps there and stops, facing CENTER; otherwise only its
   * position changes, by velocity * deltaTime along the direction to the target.
   */
  function Advance(p: Position, m: Movement, a: Avatar, deltaTime: real, sqrt: real -> real): (r: Moved)
    requires IsSquareRoot(sqrt)
    ensures !m.isMoving ==> r == Moved(p, m, a)
    ensures m.isMoving && SquaredDistance(p, m) < 1.0 ==>
      && r.position == Position(m.targetX, m.targetY)
      && r.movement == m.(isMoving := false)
      && r.avatar == a.(currentDirection := DirectionValue(Center))
    ensures m.isMoving && SquaredDistance(p, m) >= 1.0 ==>
      var dx, dy := m.targetX - p.x, m.targetY - p.y;
      var ex, ey := r.position.x - p.x, r.position.y - p.y;
      && r.movement == m && r.avatar == a
      && ex * dy == ey * dx
      && (m.velocity * deltaTime >= 0.0 ==> ex * dx + ey * dy >= 0.0)
      && ex * dx + ey * dy == m.velocity * deltaTime * sqrt(SquaredDistance(p, m))
      && Square(ex) + Square(ey) == Square(m.velocity * deltaTime)
  {
    if !m.isMoving then Moved(p, m, a)
    else
      var dx, dy := m.targetX - p.x, m.targetY - p.y;
      var d2 := SquaredDistance(p, m);
      if d2 < 1.0 then
        Moved(Position(m.targetX, m.targetY), m.(isMoving := false), a.(currentDirection := DirectionValue(Center)))
      else
        var distance := sqrt(d2);
        var speed := m.velocity * deltaTime;
        StepGeometry(dx, dy, distance, speed);
        var next := Position(p.x + dx / distance * speed, p.y + dy / distance * speed);
        assert next.x - p.x == dx / distance * speed && next.y - p.y == dy / distance * speed;
        Moved(next, m, a)
  }

  /** The only non-negative square root of a positive square is its base. */
  lemma SquareRootOfSquare(sqrt: real -> real, c: real)
    requires IsSquareRoot(sqrt) && 0.0 < c
    ensures sqrt(c * c) == c
  {
    var s := sqrt(c * c);
    assert 0.0 <= c * c;
    assert 0.0 <= s && s * s == c * c;
    var t := s + c;
    assert t > 0.0;
    assert (s - c) * t == 0.0;
    assert s - c == ((s - c) * t) / t;
  }

  /** One execute for one entity: processInput when it has Input, then updateMovement. */
  function Tick(p: Position, m: Movement, a: Avatar, i: Option<Input>, deltaTime: real, sqrt: real -> real): (r: Moved)
    requires IsSquareRoot(sqrt)
    ensures r.movement.velocity == m.velocity && r.avatar.id == a.id
    ensures i.Some? && !AnyFlag(i.value) ==> r.position == p && !r.movement.isMoving
    ensures i.Some? && AnyFlag(i.value) && deltaTime > 0.0 && m.velocity > 0.0 ==> r.position != p
  {
    match i
    case None => Advance(p, m, a, deltaTime, sqrt)
    case Some(flags) =>
      var resolved := ResolveInput(p, m, flags);
      Advance(p, resolved.movement, a.(currentDirection := DirectionValue(resolved.direction)), deltaTime, sqrt)
  }

  /**
   * The processInput loop on the component tables, visiting ids 0..n-1 in
   * order (ids past n hold no component).
   */
  method ResolveAll(n: nat, i0: map<Entity, Input>, p0: map<Entity, Position>,
                    m0: map<Entity, Movement>, a0: map<Entity, Avatar>)
    returns (m: map<Entity, Movement>, a: map<Entity, Avatar>)
    requires forall k :: k in i0 ==> k < n
    ensures m.Keys == m0.Keys && a.Keys == a0.Keys
    ensures forall k :: k in i0 && k in p0 && k in m0 && k in a0 ==>
      var r := ResolveInput(p0[k], m0[k], i0[k]);
      m[k] == r.movement && a[k] == a0[k].(currentDirection := DirectionValue(r.direction))
    ensures forall k :: k in m && !(k in i0 && k in p0 && k in a0) ==> m[k] == m0[k]
    ensures forall k :: k in a && !(k in i0 && k in p0 && k in m0) ==> a[k] == a0[k]
  {
    m, a := m0, a0;
    for e := 0 to n
      invariant m.Keys == m0.Keys && a.Keys == a0.Keys
      invariant forall k :: k < e && k in i0 && k in p0 && k in m0 && k in a0 ==>
        var r := ResolveInput(p0[k], m0[k], i0[k]);
        m[k] == r.movement && a[k] == a0[k].(currentDirection := DirectionValue(r.direction))
      invariant forall k :: k in m && (e <= k || !(k in i0 && k in p0 && k in a0)) ==> m[k] == m0[k]
      invariant forall k :: k in a && (e <= k || !(k in i0 && k in p0 && k in m0)) ==> a[k] == a0[k]
    {
      if e in i0 && e in p0 && e in m0 && e in a0 {
        var r := ResolveInput(p0[e], m0[e], i0[e]);
        m, a := m[e := r.movement], a[e := a0[e].(currentDirection := DirectionValue(r.direction))];
      }
    }
  }

  /** processInput over every entity holding Input, Position, Avatar and Movement. */
  method ProcessInput(w: World)
    requires w.Valid()
    modifies w`movement, w`avatar
    ensures w.Valid()
    ensures w.movement.Keys == old(w.movement.Keys) && w.avatar.Keys == old(w.avatar.Keys)
    ensures forall e :: w.HasInputComponents(e) ==>
      var r := ResolveInput(w.position[e], old(w.movement[e]), w.input[e]);
      w.movement[e] == r.movement && w.avatar[e] == old(w.avatar[e]).(currentDirection := DirectionValue(r.direction))
    ensures forall e :: e in w.movement && !w.HasInputComponents(e) ==> w.movement[e] == old(w.movement[e])
    ensures forall e :: e in w.avatar && !w.HasInputComponents(e) ==> w.avatar[e] == old(w.avatar[e])
  {
    w.movement, w.avatar := ResolveAll(w.nextEntity, w.input, w.position, w.movement, w.avatar);
  }

  /** The updateMovement loop on the component tables, visiting ids 0..n-1 in order. */
  method AdvanceAll(n: nat, p0: map<Entity, Position>, m0: map<Entity, Movement>, a0: map<Entity, Avatar>,
                    deltaTime: real, sqrt: real -> real)
    returns (p: map<Entity, Position>, m: map<Entity, Movement>, a: map<Entity, Avatar>)
    requires IsSquareRoot(sqrt)
    requires forall k :: k in p0 ==> k < n
    ensures p.Keys == p0.Keys && m.Keys == m0.Keys && a.Keys == a0.Keys
    ensures forall k :: k in p0 && k in m0 && k in a0 ==>
      Moved(p[k], m[k], a[k]) == Advance(p0[k], m0[k], a0[k], deltaTime, sqrt)
    ensures forall k :: k in p && !(k in m0 && k in a0) ==> p[k] == p0[k]
    ensures forall k :: k in m && !(k in p0 && k in a0) ==> m[k] == m0[k]
    ensures forall k :: k in a && !(k in p0 && k in m0) ==> a[k] == a0[k]
  {
    p, m, a := p0, m0, a0;
    for e := 0 to n
      invariant p.Keys == p0.Keys && m.Keys == m0.Keys && a.Keys == a0.Keys
      invariant forall k :: k < e && k in p0 && k in m0 && k in a0 ==>
        Moved(p[k], m[k], a[k]) == Advance(p0[k], m0[k], a0[k], deltaTime, sqrt)
      invariant forall k :: k in p && (e <= k || !(k in m0 && k in a0)) ==> p[k] == p0[k]
      invariant forall k :: k in m && (e <= k || !(k in p0 && k in a0)) ==> m[k] == m0[k]
      invariant forall k :: k in a && (e <= k || !(k in p0 && k in m0)) ==> a[k] == a0[k]
    {
      if e in p0 && e in m0 && e in a0 {
        var r := Advance(p0[e], m0[e], a0[e], deltaTime, sqrt);
        p, m, a := p[e := r.position], m[e := r.movement], a[e := r.avatar];
      }
    }
  }

  /** updateMovement over every entity holding Position, Avatar and Movement. */
  method UpdateMovement(w: World, deltaTime: real, sqrt: real -> real)
    requires w.Valid() && IsSquareRoot(sqrt)
    modifies w`position, w`movement, w`avatar
    ensures w.Valid()
    ensures w.position.Keys == old(w.position.Keys)
    ensures w.movement.Keys == old(w.movement.Keys) && w.avatar.Keys == old(w.avatar.Keys)
    ensures forall e :: w.HasMovementComponents(e) ==>
      Moved(w.position[e], w.movement[e], w.avatar[e])
        == Advance(old(w.position[e]), old(w.movement[e]), old(w.avatar[e]), deltaTime, sqrt)
    ensures forall e :: e in w.position && !w.HasMovementComponents(e) ==> w.position[e] == old(w.position[e])
    ensures forall e :: e in w.movement && !w.HasMovementComponents(e) ==> w.movement[e] == old(w.movement[e])
    ensures forall e :: e in w.avatar && !w.HasMovementComponents(e) ==> w.avatar[e] == old(w.avatar[e])
  {
    w.position, w.movement, w.avatar := AdvanceAll(w.nextEntity, w.position, w.movement, w.avatar, deltaTime, sqrt);
  }

  /** execute: processInput, then updateMovement. */
  method Execute(w: World, deltaTime: real, sqrt: real -> real)
    requires w.Valid() && IsSquareRoot(sqrt)
    modifies w`position, w`movement, w`avatar
    ensures w.Valid()
    ensures w.position.Keys == old(w.position.Keys)
    ensures w.movement.Keys == old(w.movement.Keys) && w.avatar.Keys == old(w.avatar.Keys)
    ensures forall e :: w.HasMovementComponents(e) ==>
      Moved(w.position[e], w.movement[e], w.avatar[e])
        == Tick(old(w.position[e]), old(w.movement[e]), old(w.avatar[e]), Lookup(w.input, e), deltaTime, sqrt)
    ensures forall e :: e in w.position && !w.HasMovementComponents(e) ==> w.position[e] == old(w.position[e])
    ensures forall e :: e in w.movement && !w.HasMovementComponents(e) ==> w.movement[e] == old(w.movement[e])
    ensures forall e :: e in w.avatar && !w.HasMovementComponents(e) ==> w.avatar[e] == old(w.avatar[e])
  {
    ProcessInput(w);
    UpdateMovement(w, deltaTime, sqrt);
  }

  /**
   * A worked tick: an idle avatar at (400, 300) with velocity 200 and only
   * the right arrow held walks to (500, 300) in half a second, facing RIGHT
   * and still moving toward (600, 300).
   */
  lemma RightArrowHalfSecond(sqrt: real -> real)
    requires IsSquareRoot(sqrt)
    ensures var r := Tick(Position(400.0, 300.0), Movement(200.0, 400.0, 300.0, false), Avatar(1, 0),
                          Some(Input(false, false, false, true)), 0.5, sqrt);
      && r.position == Position(500.0, 300.0)
      && r.movement == Movement(200.0, 600.0, 300.0, true)
      && r.avatar == Avatar(1, DirectionValue(Right))
  {
    var resolved := ResolveInput(Position(400.0, 300.0), Movement(200.0, 400.0, 300.0, false), Input(false, false, false, true));
    assert resolved.movement == Movement(200.0, 600.0, 300.0, true);
    SquareRootOfSquare(sqrt, 200.0);
    assert SquaredDistance(Position(400.0, 300.0), resolved.movement) == 200.0 * 200.0;
  }
}
