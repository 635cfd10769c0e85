/** The keyboard branch of updateTank: recoil countdown, power-up expiry,
    turning, the speed choice, the axis-separated move that is undone on a
    barrier overlap, the clamp to the arena, the velocity record and the fire
    cooldown. */
module TankStep {
  import opened Common
  import opened Geometry
  import opened Angles
  import opened Entities

  /** The turn the arrow keys ask for: left subtracts TANK_TURN_SPEED, right
      adds it, both together cancel. */
  function KeyTurn(k: Keys): (d: real)
    ensures Abs(d) <= TANK_TURN_SPEED
    ensures d < 0.0 <==> k.left && !k.right
    ensures d > 0.0 <==> k.right && !k.left
  {
    (if k.left then -TANK_TURN_SPEED else 0.0) + (if k.right then TANK_TURN_SPEED else 0.0)
  }

  /** The signed speed of this tick: forward at the tank's speed, backwards at
      0.7 of it (forward wins when both keys are held), otherwise standing. */
  function MoveSpeed(t: Tank): (s: real)
    ensures s != 0.0 <==> t.keys.up || t.keys.down
    ensures s > 0.0 <==> t.keys.up
    ensures Abs(s) <= Speed(t)
    ensures t.keys.up ==> s == Speed(t)
    ensures !t.keys.up && t.keys.down ==> s == -0.7 * Speed(t)
  {
    if t.keys.up then Speed(t) else if t.keys.down then -Speed(t) * 0.7 else 0.0
  }

  /** The move along x, undone if the tank then overlaps a barrier, followed
      by the move along y, undone likewise. */
  function MoveWithRevert(pos: Point, dx: real, dy: real, tankWidth: real, barriers: seq<Rect>): (r: Point)
  {
    var px := Point(pos.x + dx, pos.y);
    var p1 := if TankHitsBarriers(px, tankWidth, barriers) then pos else px;
    var py := Point(p1.x, p1.y + dy);
    if TankHitsBarriers(py, tankWidth, barriers) then p1 else py
  }

  /** Each axis either moves the full step or not at all, and a tank clear
      of the barriers before the move is clear after it. */
  lemma MoveKeepsClear(pos: Point, dx: real, dy: real, tankWidth: real, barriers: seq<Rect>)
    ensures var r := MoveWithRevert(pos, dx, dy, tankWidth, barriers);
      && (r.x == pos.x || r.x == pos.x + dx)
      && (r.y == pos.y || r.y == pos.y + dy)
      && (!TankHitsBarriers(pos, tankWidth, barriers) ==> !TankHitsBarriers(r, tankWidth, barriers))
  {
  }

  /** Without barriers the move is never undone. */
  lemma MoveUnobstructed(pos: Point, dx: real, dy: real, tankWidth: real)
    ensures MoveWithRevert(pos, dx, dy, tankWidth, []) == Point(pos.x + dx, pos.y + dy)
  {
  }

  /** The step of `speed` along heading `angle`: (cos angle, sin angle) * speed. */
  function Displacement(m: Platform, angle: real, speed: real): Point
  {
    Point(m.cos(angle) * speed, m.sin(angle) * speed)
  }

  /** The tank centre lies in [w/2, width - w/2] x [h/2, height - h/2]. */
  predicate InArena(p: Point, f: Field)
  {
    f.tankWidth / 2.0 <= p.x <= f.width - f.tankWidth / 2.0 &&
    f.tankHeight / 2.0 <= p.y <= f.height - f.tankHeight / 2.0
  }

  /** The clamp at the end of updateTank. */
  function ClampToArena(p: Point, f: Field): (r: Point)
    ensures f.width >= f.tankWidth && f.height >= f.tankHeight ==> InArena(r, f)
    ensures InArena(p, f) ==> r == p
  {
    Point(Clamp(p.x, f.tankWidth / 2.0, f.width - f.tankWidth / 2.0),
          Clamp(p.y, f.tankHeight / 2.0, f.height - f.tankHeight / 2.0))
  }

  /** Clamping a clamped position changes nothing. */
  lemma ClampIdempotent(p: Point, f: Field)
    requires f.width >= f.tankWidth && f.height >= f.tankHeight
    ensures ClampToArena(ClampToArena(p, f), f) == ClampToArena(p, f)
  {
  }

  /** The tank after the movement part of the step (before the shot): recoil
      counted down, effect expired, turned, moved, clamped, velocity set. */
  function Moved(t: Tank, now: int, f: Field): (r: Tank)
  {
    var c := CountedDown(t, now);
    var angle := c.angle + KeyTurn(c.keys);
    var s := MoveSpeed(c);
    var moved := if s == 0.0 then c.pos
                 else var d := Displacement(f.m, angle, s); MoveWithRevert(c.pos, d.x, d.y, f.tankWidth, f.barriers);
    var pos := ClampToArena(moved, f);
    c.(angle := angle, pos := pos, vx := pos.x - c.pos.x, vy := pos.y - c.pos.y)
  }

  /** The first two lines of updateTank: recoil down by one while positive,
      then the expiry of a timed effect. */
  function CountedDown(t: Tank, now: int): (r: Tank)
    ensures r.recoil == (if t.recoil > 0 then t.recoil - 1 else t.recoil)
    ensures t.recoil >= 0 ==> r.recoil >= 0
    ensures r == ExpireEffect(t, now).(recoil := r.recoil)
  {
    ExpireEffect(t, now).(recoil := if t.recoil > 0 then t.recoil - 1 else t.recoil)
  }

  /** The move of updateTank by (dx, dy): along x then along y, each undone
      when the tank then overlaps a barrier. */
  method MoveAxes(pos: Point, dx: real, dy: real, f: Field) returns (p: Point)
    ensures p == MoveWithRevert(pos, dx, dy, f.tankWidth, f.barriers)
  {
    p := pos.(x := pos.x + dx);
    if TankHitsBarriers(p, f.tankWidth, f.barriers) {
      p := p.(x := pos.x);
    }
    p := p.(y := p.y + dy);
    if TankHitsBarriers(p, f.tankWidth, f.barriers) {
      p := p.(y := pos.y);
    }
  }

  /** The recoil countdown and the expiry of a timed effect. */
  method CountDown(t: Tank, now: int) returns (r: Tank)
    ensures r == CountedDown(t, now)
  {
    r := t;
    if r.recoil > 0 {
      r := r.(recoil := r.recoil - 1);
    }
    if r.effect.kind.Some? && now > r.effect.endTime {
      r := r.(effect := r.effect.(kind := None));
    }
  }

  /** The arrow-key turn and the choice of speed. */
  method Steer(t: Tank) returns (angle: real, moveSpeed: real)
    ensures angle == t.angle + KeyTurn(t.keys) && moveSpeed == MoveSpeed(t)
  {
    angle := t.angle;
    var currentSpeed := if t.effect.kind == Some(SpeedBoost) then TANK_SPEED * 1.5 else TANK_SPEED;
    if t.keys.left {
      angle := angle - TANK_TURN_SPEED;
    }
    if t.keys.right {
      angle := angle + TANK_TURN_SPEED;
    }
    moveSpeed := 0.0;
    if t.keys.up {
      moveSpeed := currentSpeed;
    } else if t.keys.down {
      moveSpeed := -currentSpeed * 0.7;
    }
  }

  /** Everything updateTank does before the fire test. */
  method MoveTank(t: Tank, now: int, f: Field) returns (r: Tank)
    ensures r == Moved(t, now, f)
  {
    var c := CountDown(t, now);
    var angle, moveSpeed := Steer(c);
    var p := c.pos;
    if moveSpeed != 0.0 {
      var d := Displacement(f.m, angle, moveSpeed);
      p := MoveAxes(c.pos, d.x, d.y, f);
    }
    var pos := Point(Max(f.tankWidth / 2.0, Min(f.width - f.tankWidth / 2.0, p.x)),
                     Max(f.tankHeight / 2.0, Min(f.height - f.tankHeight / 2.0, p.y)));
    r := c.(angle := angle, pos := pos, vx := pos.x - c.pos.x, vy := pos.y - c.pos.y);
  }

  /** updateTank, keyboard branch, on one tank; `id` is the player it is,
      which owns the bullet it may fire. */
  method UpdateTank(t: Tank, id: PlayerId, now: int, f: Field) returns (r: Tank, shot: Option<Bullet>)
    ensures shot.Some? <==> t.keys.fire && CooledDown(ExpireEffect(t, now), now)
    ensures shot.None? ==> r == Moved(t, now, f)
    ensures shot.Some? ==> (r, shot.value) == FireShot(Moved(t, now, f), id, now, f)
    ensures r.pos == Moved(t, now, f).pos && r.angle == t.angle + KeyTurn(t.keys)
    ensures r.vx == r.pos.x - t.pos.x && r.vy == r.pos.y - t.pos.y
    ensures r.effect == ExpireEffect(t, now).effect && r.score == t.score
    ensures ExclusiveEffects(t) ==> ExclusiveEffects(r)
    ensures f.width >= f.tankWidth && f.height >= f.tankHeight ==> InArena(r.pos, f)
  {
    r := MoveTank(t, now, f);
    var cooldown := if r.effect.kind == Some(RapidFire) then FIRE_COOLDOWN * 4 / 10 else FIRE_COOLDOWN;
    shot := None;
    if r.keys.fire && now - r.lastShotTime > cooldown {
      var fired := FireShot(r, id, now, f);
      r := fired.0;
      shot := Some(fired.1);
    }
  }
}
