/** The game's records (tanks, bullets, power-ups), the playing field they
    move in, and the pure effects the game applies to a tank: collecting a
    power-up, the expiry of a timed effect, and firing a shot. */
module Entities {
  import opened Common
  import opened Geometry

  const TANK_SPEED: real := 2.0
  const BULLET_SPEED: real := 6.0
  const WINNING_SCORE: nat := 3
  /** Milliseconds between shots. */
  const FIRE_COOLDOWN: int := 600
  /** The recoil a shot sets, also the turret shortening used to place the bullet. */
  const RECOIL: int := 10
  const TRAIL_LENGTH: nat := 10
  const POWERUP_SPAWN_INTERVAL: int := 10000
  const POWERUP_LIFESPAN: int := 8000
  const POWERUP_EFFECT_DURATION: int := 10000
  const MAX_POWERUPS: nat := 2

  datatype PowerUpType = SpeedBoost | RapidFire | Shield | PiercingShot

  /** Object.values(PowerUpType), in declaration order. */
  const POWERUP_TYPES: seq<PowerUpType> := [SpeedBoost, RapidFire, Shield, PiercingShot]

  datatype PowerUp = PowerUp(pos: Point, kind: PowerUpType, spawnTime: int)

  /** A tank's timed effect (`powerUp`): a type or none, and when it ends. */
  datatype Effect = Effect(kind: Option<PowerUpType>, endTime: int)

  const NO_EFFECT: Effect := Effect(None, 0)

  datatype Keys = Keys(up: bool, down: bool, left: bool, right: bool, fire: bool)

  /** aiEvasionData */
  datatype Evasion = Evasion(active: bool, moveAngle: real, timer: int)

  /** The two tanks. A bullet's owner is the tank object in the game; here it
      is the player it belongs to. */
  datatype PlayerId = P1 | P2
  {
    function Other(): (o: PlayerId)
      ensures o != this
    {
      if this == P1 then P2 else P1
    }
  }

  /** A tank; `width`/`height` are the arena's tankWidth/tankHeight. The
      joystick and fire-button fields of the touch controls are not modelled. */
  datatype Tank = Tank(
    pos: Point,
    angle: real,
    score: nat,
    lastShotTime: int,
    recoil: int,
    keys: Keys,
    effect: Effect,
    hasShield: bool,
    nextShotPiercing: bool,
    vx: real,
    vy: real,
    aiDecisionTimer: real,
    aiTarget: Option<Point>,
    evasion: Evasion,
    aiPath: seq<Point>,
    aiPathIndex: nat)

  datatype Bullet = Bullet(
    pos: Point,
    angle: real,
    owner: PlayerId,
    bounces: nat,
    trail: seq<Point>,
    isPiercing: bool)

  /** What a tank or bullet step reads of the arena: its size, the derived
      tank dimensions, the current barriers and the platform maths. */
  datatype Field = Field(
    width: real,
    height: real,
    tankWidth: real,
    tankHeight: real,
    turretLength: real,
    barriers: seq<Rect>,
    m: Platform)

  /** A tank holds at most one of its three power-up effects, and the timed
      one is only ever SPEED_BOOST or RAPID_FIRE. */
  predicate ExclusiveEffects(t: Tank)
  {
    && (t.effect.kind.Some? ==> t.effect.kind.value == SpeedBoost || t.effect.kind.value == RapidFire)
    && !(t.effect.kind.Some? && t.hasShield)
    && !(t.effect.kind.Some? && t.nextShotPiercing)
    && !(t.hasShield && t.nextShotPiercing)
  }

  /** createTank */
  function NewTank(): (t: Tank)
    ensures ExclusiveEffects(t) && t.effect.kind.None? && !t.hasShield && !t.nextShotPiercing
    ensures t.score == 0 && t.aiPath == [] && t.aiPathIndex == 0 && !t.evasion.active
  {
    Tank(Point(0.0, 0.0), 0.0, 0, 0, 0, Keys(false, false, false, false, false), NO_EFFECT,
         false, false, 0.0, 0.0, 0.0, None, Evasion(false, 0.0, 0), [], 0)
  }

  /** collectPowerUp: all three effects are cleared, then exactly the collected
      one is applied; a timed effect lasts POWERUP_EFFECT_DURATION from now.
      Nothing else about the tank changes. */
  function Collect(t: Tank, kind: PowerUpType, now: int): (r: Tank)
    ensures ExclusiveEffects(r)
    ensures r.hasShield <==> kind == Shield
    ensures r.nextShotPiercing <==> kind == PiercingShot
    ensures r.effect.kind.Some? <==> kind == SpeedBoost || kind == RapidFire
    ensures r.effect.kind.Some? ==> r.effect == Effect(Some(kind), now + POWERUP_EFFECT_DURATION)
    ensures r.effect.kind.None? ==> r.effect == NO_EFFECT
    ensures r == t.(effect := r.effect, hasShield := r.hasShield, nextShotPiercing := r.nextShotPiercing)
  {
    var cleared := t.(effect := NO_EFFECT, hasShield := false, nextShotPiercing := false);
    if kind == Shield then cleared.(hasShield := true)
    else if kind == PiercingShot then cleared.(nextShotPiercing := true)
    else cleared.(effect := Effect(Some(kind), now + POWERUP_EFFECT_DURATION))
  }

  /** A later pickup replaces an earlier one completely. */
  lemma CollectOverrides(t: Tank, a: PowerUpType, b: PowerUpType, n1: int, n2: int)
    ensures Collect(Collect(t, a, n1), b, n2) == Collect(t, b, n2)
  {
  }

  /** The expiry check at the start of every tank update: a timed effect
      whose end time has passed is dropped (its end time is left as it was). */
  function ExpireEffect(t: Tank, now: int): (r: Tank)
    ensures r.effect.kind.Some? <==> t.effect.kind.Some? && now <= t.effect.endTime
    ensures r.effect.kind.Some? ==> r.effect == t.effect
    ensures r.effect.endTime == t.effect.endTime
    ensures r == t.(effect := r.effect)
    ensures ExclusiveEffects(t) ==> ExclusiveEffects(r)
  {
    if t.effect.kind.Some? && now > t.effect.endTime then t.(effect := t.effect.(kind := None)) else t
  }

  /** Movement speed: TANK_SPEED, 1.5 times under SPEED_BOOST. */
  function Speed(t: Tank): (s: real)
    ensures s == if t.effect.kind == Some(SpeedBoost) then 3.0 else TANK_SPEED
  {
    if t.effect.kind == Some(SpeedBoost) then TANK_SPEED * 1.5 else TANK_SPEED
  }

  /** Fire cooldown: FIRE_COOLDOWN, and four tenths of it under RAPID_FIRE
      (the product 600 * 0.4 is exactly 240 in double precision). */
  function Cooldown(t: Tank): (c: int)
    ensures t.effect.kind == Some(RapidFire) ==> c * 10 == FIRE_COOLDOWN * 4 && c == 240
    ensures t.effect.kind != Some(RapidFire) ==> c == FIRE_COOLDOWN
    ensures c > 0
  {
    if t.effect.kind == Some(RapidFire) then FIRE_COOLDOWN * 4 / 10 else FIRE_COOLDOWN
  }

  /** The cooldown test in front of every shot. */
  predicate CooledDown(t: Tank, now: int)
  {
    now - t.lastShotTime > Cooldown(t)
  }

  /** fire: the shot time is stamped, recoil is set to RECOIL, and a bullet
      leaves the turret tip (shortened by the recoil) along the tank's heading,
      with no bounces, an empty trail and the tank's piercing charge, which the
      tank loses. */
  function FireShot(t: Tank, id: PlayerId, now: int, f: Field): (r: (Tank, Bullet))
    ensures r.0 == t.(lastShotTime := now, recoil := RECOIL, nextShotPiercing := false)
    ensures r.1.owner == id && r.1.angle == t.angle && r.1.bounces == 0 && r.1.trail == []
    ensures r.1.isPiercing == t.nextShotPiercing
    ensures r.1.pos == Muzzle(t, f)
    ensures ExclusiveEffects(t) ==> ExclusiveEffects(r.0)
  {
    (t.(lastShotTime := now, recoil := RECOIL, nextShotPiercing := false),
     Bullet(Muzzle(t, f), t.angle, id, 0, [], t.nextShotPiercing))
  }

  /** The turret tip of a tank that has just fired: the turret length less
      the recoil, along the tank's heading. */
  function Muzzle(t: Tank, f: Field): Point
  {
    var reach := f.turretLength - RECOIL as real;
    Point(t.pos.x + f.m.cos(t.angle) * reach, t.pos.y + f.m.sin(t.angle) * reach)
  }

  /** A piercing charge pierces one shot only: the shot after it never does,
      and right after a shot the tank is cooling down. */
  lemma PiercingIsSingleUse(t: Tank, id: PlayerId, n1: int, n2: int, f: Field)
    ensures !FireShot(FireShot(t, id, n1, f).0, id, n2, f).1.isPiercing
    ensures !CooledDown(FireShot(t, id, n1, f).0, n1)
  {
  }

  /** updatePowerUps' filter: the power-ups younger than POWERUP_LIFESPAN, in
      their original order. */
  function Young(ps: seq<PowerUp>, now: int): (r: seq<PowerUp>)
    ensures |r| <= |ps|
    ensures forall p :: p in r <==> p in ps && now - p.spawnTime < POWERUP_LIFESPAN
  {
    if ps == [] then []
    else (if now - ps[0].spawnTime < POWERUP_LIFESPAN then [ps[0]] else []) + Young(ps[1..], now)
  }

  /** The filter works piece by piece, so it keeps the relative order. */
  lemma {:induction false} YoungAppend(a: seq<PowerUp>, b: seq<PowerUp>, now: int)
    ensures Young(a + b, now) == Young(a, now) + Young(b, now)
  {
    if a == [] {
      assert a + b == b;
    } else {
      assert (a + b)[1..] == a[1..] + b;
      YoungAppend(a[1..], b, now);
    }
  }

  /** Filtering twice at the same time changes nothing more. */
  lemma {:induction false} YoungIdempotent(ps: seq<PowerUp>, now: int)
    ensures Young(Young(ps, now), now) == Young(ps, now)
  {
    if ps != [] {
      var head := if now - ps[0].spawnTime < POWERUP_LIFESPAN then [ps[0]] else [];
      YoungAppend(head, Young(ps[1..], now), now);
      YoungIdempotent(ps[1..], now);
      if head != [] {
        assert head[1..] == [];
      }
    }
  }

  /** The spawn gate of spawnPowerUp: at least POWERUP_SPAWN_INTERVAL since the
      last spawn and fewer than MAX_POWERUPS on the map. */
  predicate SpawnDue(now: int, lastSpawn: int, count: nat)
  {
    !(now - lastSpawn < POWERUP_SPAWN_INTERVAL || count >= MAX_POWERUPS)
  }

  /** types[Math.floor(roll * types.length)] for a roll in [0, 1): each type
      owns one quarter of the interval, in declaration order. */
  function PickType(roll: real): (k: PowerUpType)
    requires 0.0 <= roll < 1.0
    ensures roll < 0.25 ==> k == SpeedBoost
    ensures 0.25 <= roll < 0.5 ==> k == RapidFire
    ensures 0.5 <= roll < 0.75 ==> k == Shield
    ensures 0.75 <= roll ==> k == PiercingShot
  {
    POWERUP_TYPES[(roll * |POWERUP_TYPES| as real).Floor]
  }
}
