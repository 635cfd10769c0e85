/** The computer player (player 2 in a one-player game): the three searches it
    runs over the field (the nearest power-up, the nearest incoming bullet,
    the nearest cover spot), the opponent prediction, the evasion state
    machine, the re-planning timer and target choice, and the step that
    follows the smoothed path, aims and fires. */
module AI {
  import opened Common
  import opened Geometry
  import opened Angles
  import opened NavGrid
  import opened GridPaths
  import opened Smoothing
  import opened Pathfinder
  import opened Entities
  import opened TankStep

  /** The decision timer runs down by this much per tick. */
  const AI_TICK: real := 16.0
  /** A new plan sets the timer to REPLAN_BASE + roll * REPLAN_SPREAD. */
  const REPLAN_BASE: real := 1000.0
  const REPLAN_SPREAD: real := 500.0
  /** An evasion starts with this many ticks on its timer. */
  const EVASION_TICKS: int := 15
  /** A waypoint closer than GRID_CELL_SIZE * 1.5 counts as reached. */
  const WAYPOINT_REACH: real := 45.0
  /** Aim tolerances for firing while evading and while pursuing. */
  const EVADE_AIM: real := 0.15
  const PURSUE_AIM: real := 0.2

  /** The random draws of one AI tick, each a number in [0, 1). */
  datatype Rolls = Rolls(dodge: real, jitterX: real, jitterY: real, replan: real)

  // ---------------------------------------------------------------------------
  // The first minimum: the three searches keep the first element whose
  // distance (or time) is strictly below every one seen before.
  // ---------------------------------------------------------------------------

  /** `best` is the first position among keys[..n] holding the smallest
      present key, or None when keys[..n] holds no key. */
  predicate IsFirstMinUpTo(keys: seq<Option<real>>, n: nat, best: Option<nat>)
    requires n <= |keys|
  {
    match best
    case None => forall j :: 0 <= j < n ==> keys[j].None?
    case Some(b) =>
      && b < n && keys[b].Some?
      && (forall j :: 0 <= j < b && keys[j].Some? ==> keys[j].value > keys[b].value)
      && (forall j :: b < j < n && keys[j].Some? ==> keys[j].value >= keys[b].value)
  }

  predicate IsFirstMin(keys: seq<Option<real>>, best: Option<nat>)
  {
    IsFirstMinUpTo(keys, |keys|, best)
  }

  /** One step of the scan: position k replaces the best so far only when its
      key is strictly smaller. */
  function NextBest(keys: seq<Option<real>>, k: nat, best: Option<nat>): (r: Option<nat>)
    requires k < |keys| && (best.Some? ==> best.value < k && keys[best.value].Some?)
    ensures r.Some? ==> r.value <= k && keys[r.value].Some?
  {
    if keys[k].Some? && (best.None? || keys[k].value < keys[best.value].value) then Some(k) else best
  }

  /** The scan over keys[..n]. */
  function ScanUpTo(keys: seq<Option<real>>, n: nat): (r: Option<nat>)
    requires n <= |keys|
    ensures r.Some? ==> r.value < n && keys[r.value].Some?
  {
    if n == 0 then None else NextBest(keys, n - 1, ScanUpTo(keys, n - 1))
  }

  function FirstMin(keys: seq<Option<real>>): (r: Option<nat>)
    ensures r.Some? ==> r.value < |keys| && keys[r.value].Some?
  {
    ScanUpTo(keys, |keys|)
  }

  /** The scan finds the first minimum. */
  lemma {:induction false} ScanIsFirstMin(keys: seq<Option<real>>, n: nat)
    requires n <= |keys|
    ensures IsFirstMinUpTo(keys, n, ScanUpTo(keys, n))
  {
    if n > 0 {
      ScanIsFirstMin(keys, n - 1);
    }
  }

  /** The first minimum is unique, so the scan is the only answer. */
  lemma FirstMinUnique(keys: seq<Option<real>>, a: Option<nat>, b: Option<nat>)
    requires IsFirstMin(keys, a) && IsFirstMin(keys, b)
    ensures a == b
  {
  }

  lemma FirstMinIs(keys: seq<Option<real>>)
    ensures IsFirstMin(keys, FirstMin(keys))
  {
    ScanIsFirstMin(keys, |keys|);
  }

  /** The comparison in the loop of each search: element `x` at position k,
      with key `key`, replaces the best so far when its key is present and
      strictly below the best key. */
  method Consider<T>(ghost keys: seq<Option<real>>, k: nat, ghost best: Option<nat>, r: Option<T>, bestKey: real,
                     key: Option<real>, x: T)
    returns (ghost best': Option<nat>, r': Option<T>, bestKey': real)
    requires k < |keys| && key == keys[k] && best == ScanUpTo(keys, k)
    requires best.Some? ==> bestKey == keys[best.value].value
    requires r.Some? <==> best.Some?
    ensures best' == ScanUpTo(keys, k + 1)
    ensures best'.Some? ==> bestKey' == keys[best'.value].value
    ensures best' == best ==> r' == r
    ensures best' != best ==> best' == Some(k) && r' == Some(x)
    ensures r'.Some? <==> best'.Some?
  {
    if key.Some? && (r.None? || key.value < bestKey) {
      best', r', bestKey' := Some(k), Some(x), key.value;
    } else {
      best', r', bestKey' := best, r, bestKey;
    }
  }

  /** The element at an optional position. */
  function At<T>(xs: seq<T>, i: Option<nat>): (r: Option<T>)
    requires i.Some? ==> i.value < |xs|
    ensures r.Some? <==> i.Some?
  {
    if i.None? then None else Some(xs[i.value])
  }

  // ---------------------------------------------------------------------------
  // findClosestPowerUp
  // ---------------------------------------------------------------------------

  function PowerUpKeys(m: Platform, at: Point, ps: seq<PowerUp>): (keys: seq<Option<real>>)
    ensures |keys| == |ps|
    ensures forall i :: 0 <= i < |ps| ==> keys[i] == Some(m.hypot(at.x - ps[i].pos.x, at.y - ps[i].pos.y))
  {
    seq(|ps|, i requires 0 <= i < |ps| => Some(m.hypot(at.x - ps[i].pos.x, at.y - ps[i].pos.y)))
  }

  function ClosestPowerUp(m: Platform, at: Point, ps: seq<PowerUp>): Option<PowerUp>
  {
    At(ps, FirstMin(PowerUpKeys(m, at, ps)))
  }

  /** findClosestPowerUp: the first of the nearest power-ups, none only when
      there are none. */
  method FindClosestPowerUp(m: Platform, at: Point, ps: seq<PowerUp>) returns (r: Option<PowerUp>)
    ensures r == ClosestPowerUp(m, at, ps)
  {
    ghost var keys := PowerUpKeys(m, at, ps);
    ghost var best: Option<nat> := None;
    var closestDist := 0.0;
    r := None;
    var k := 0;
    while k < |ps|
      invariant k <= |ps| && best == ScanUpTo(keys, k)
      invariant r == At(ps, best)
      invariant best.Some? ==> closestDist == keys[best.value].value
    {
      var dist := m.hypot(at.x - ps[k].pos.x, at.y - ps[k].pos.y);
      best, r, closestDist := Consider(keys, k, best, r, closestDist, Some(dist), ps[k]);
      k := k + 1;
    }
  }

  /** The chosen power-up is one of those on the field and none is nearer;
      there is none only when the field has none. */
  lemma ClosestIsNearest(m: Platform, at: Point, ps: seq<PowerUp>)
    ensures var r := ClosestPowerUp(m, at, ps);
      && (r.None? <==> ps == [])
      && (r.Some? ==> r.value in ps)
      && (r.Some? ==> forall i :: 0 <= i < |ps| ==>
            m.hypot(at.x - ps[i].pos.x, at.y - ps[i].pos.y) >= m.hypot(at.x - r.value.pos.x, at.y - r.value.pos.y))
  {
    var keys := PowerUpKeys(m, at, ps);
    FirstMinIs(keys);
    if ps != [] {
      assert keys[0].Some?;
    }
  }

  // ---------------------------------------------------------------------------
  // findIncomingBullet
  // ---------------------------------------------------------------------------

  /** A bullet is a threat when it is not the AI's own, lies within 0.4 of the
      arena width, and heads at the AI within 0.5 radians; its key is the time
      it needs to arrive. */
  function ThreatKey(f: Field, at: Point, id: PlayerId, b: Bullet): Option<real>
  {
    if b.owner == id then None
    else
      var dist := f.m.hypot(at.x - b.pos.x, at.y - b.pos.y);
      if dist > f.width * 0.4 then None
      else if Abs(Wrap(b.angle - f.m.atan2(at.y - b.pos.y, at.x - b.pos.x))) < 0.5 then Some(dist / BULLET_SPEED)
      else None
  }

  function ThreatKeys(f: Field, at: Point, id: PlayerId, bs: seq<Bullet>): (keys: seq<Option<real>>)
    ensures |keys| == |bs|
    ensures forall i :: 0 <= i < |bs| ==> keys[i] == ThreatKey(f, at, id, bs[i])
  {
    seq(|bs|, i requires 0 <= i < |bs| => ThreatKey(f, at, id, bs[i]))
  }

  function Threat(f: Field, at: Point, id: PlayerId, bs: seq<Bullet>): Option<Bullet>
  {
    At(bs, FirstMin(ThreatKeys(f, at, id, bs)))
  }

  /** The body of findIncomingBullet's loop for one bullet: the owner test,
      the range test, the wrapped heading test, and the arrival time. */
  method AssessBullet(f: Field, at: Point, id: PlayerId, b: Bullet) returns (key: Option<real>)
    ensures key == ThreatKey(f, at, id, b)
  {
    key := None;
    if b.owner != id {
      var dist := f.m.hypot(at.x - b.pos.x, at.y - b.pos.y);
      if dist <= f.width * 0.4 {
        var diff := WrapAngle(b.angle - f.m.atan2(at.y - b.pos.y, at.x - b.pos.x));
        if Abs(diff) < 0.5 {
          key := Some(dist / BULLET_SPEED);
        }
      }
    }
  }

  /** findIncomingBullet: the threatening bullet that arrives first (the first
      of them on a tie); none when no bullet threatens. */
  method FindIncomingBullet(f: Field, at: Point, id: PlayerId, bs: seq<Bullet>) returns (r: Option<Bullet>)
    ensures r == Threat(f, at, id, bs)
  {
    ghost var keys := ThreatKeys(f, at, id, bs);
    ghost var best: Option<nat> := None;
    var minTime := 0.0;
    r := None;
    var k := 0;
    while k < |bs|
      invariant k <= |bs| && best == ScanUpTo(keys, k)
      invariant r == At(bs, best)
      invariant best.Some? ==> minTime == keys[best.value].value
    {
      var time := AssessBullet(f, at, id, bs[k]);
      best, r, minTime := Consider(keys, k, best, r, minTime, time, bs[k]);
      k := k + 1;
    }
  }

  /** The chosen bullet is a threat that arrives no later than any other
      threat; there is none exactly when no bullet threatens. */
  lemma ThreatIsFirstToArrive(f: Field, at: Point, id: PlayerId, bs: seq<Bullet>)
    ensures var r := Threat(f, at, id, bs);
      && (r.None? <==> forall i :: 0 <= i < |bs| ==> ThreatKey(f, at, id, bs[i]).None?)
      && (r.Some? ==> r.value in bs && r.value.owner != id && ThreatKey(f, at, id, r.value).Some?)
      && (r.Some? ==> forall i :: 0 <= i < |bs| && ThreatKey(f, at, id, bs[i]).Some? ==>
            ThreatKey(f, at, id, bs[i]).value >= ThreatKey(f, at, id, r.value).value)
  {
    FirstMinIs(ThreatKeys(f, at, id, bs));
  }

  // ---------------------------------------------------------------------------
  // findCover
  // ---------------------------------------------------------------------------

  /** The spot behind a barrier as seen from the opponent: from the barrier's
      centre, away from the opponent, half the barrier's larger side plus 0.8
      of a tank width. None when the opponent sits on the centre. */
  function CoverSpot(f: Field, opp: Point, b: Rect): Option<Point>
  {
    var cx := b.x + b.width / 2.0;
    var cy := b.y + b.height / 2.0;
    var dirX := cx - opp.x;
    var dirY := cy - opp.y;
    var d := f.m.hypot(dirX, dirY);
    if d == 0.0 then None
    else
      var reach := Max(b.width, b.height) / 2.0 + f.tankWidth * 0.8;
      Some(Point(cx + dirX / d * reach, cy + dirY / d * reach))
  }

  /** A usable hiding place: a legal tank centre, inside no barrier, and out
      of the opponent's line of sight. */
  predicate GoodCover(f: Field, opp: Point, spot: Point)
  {
    InArena(spot, f) && !InsideAny(spot, f.barriers) && !LineOfSightClear(f.m, f.barriers, spot, opp)
  }

  function CoverKey(f: Field, at: Point, opp: Point, b: Rect): Option<real>
  {
    var spot := CoverSpot(f, opp, b);
    if spot.Some? && GoodCover(f, opp, spot.value)
    then Some(f.m.hypot(at.x - spot.value.x, at.y - spot.value.y))
    else None
  }

  function CoverKeys(f: Field, at: Point, opp: Point): (keys: seq<Option<real>>)
    ensures |keys| == |f.barriers|
    ensures forall i :: 0 <= i < |keys| ==> keys[i] == CoverKey(f, at, opp, f.barriers[i])
  {
    seq(|f.barriers|, i requires 0 <= i < |f.barriers| => CoverKey(f, at, opp, f.barriers[i]))
  }

  /** The spot of the barrier at an optional position. */
  function SpotAt(f: Field, opp: Point, best: Option<nat>): Option<Point>
    requires best.Some? ==> best.value < |f.barriers|
  {
    if best.None? then None else CoverSpot(f, opp, f.barriers[best.value])
  }

  function Cover(f: Field, at: Point, opp: Point): (r: Option<Point>)
  {
    SpotAt(f, opp, FirstMin(CoverKeys(f, at, opp)))
  }

  /** The inner loop of findCover: does any barrier strictly contain `p`? */
  method InsideABarrier(p: Point, barriers: seq<Rect>) returns (inside: bool)
    ensures inside == InsideAny(p, barriers)
  {
    inside := false;
    var k := 0;
    while k < |barriers|
      invariant k <= |barriers|
      invariant forall j :: 0 <= j < k ==> !Inside(p, barriers[j])
    {
      var o := barriers[k];
      if p.x > o.x && p.x < o.x + o.width && p.y > o.y && p.y < o.y + o.height {
        inside := true;
        return;
      }
      k := k + 1;
    }
  }

  /** Whether the candidate spot of one barrier is usable. */
  method CheckCover(f: Field, opp: Point, spot: Point) returns (good: bool)
    ensures good == GoodCover(f, opp, spot)
  {
    if spot.x < f.tankWidth / 2.0 || spot.x > f.width - f.tankWidth / 2.0 ||
       spot.y < f.tankHeight / 2.0 || spot.y > f.height - f.tankHeight / 2.0 {
      return false;
    }
    var inside := InsideABarrier(spot, f.barriers);
    if inside {
      return false;
    }
    good := !LineOfSightClear(f.m, f.barriers, spot, opp);
  }

  /** The body of findCover's loop for one barrier: the candidate spot and,
      when it is usable, its distance to the AI. */
  method AssessBarrier(f: Field, at: Point, opp: Point, b: Rect) returns (spot: Option<Point>, key: Option<real>)
    ensures spot == CoverSpot(f, opp, b) && key == CoverKey(f, at, opp, b)
    ensures key.Some? ==> spot.Some?
  {
    spot := CoverSpot(f, opp, b);
    key := None;
    if spot.Some? {
      var good := CheckCover(f, opp, spot.value);
      if good {
        key := Some(f.m.hypot(at.x - spot.value.x, at.y - spot.value.y));
      }
    }
  }

  /** One turn of findCover's loop: barrier k's spot replaces the best so
      far when it is usable and strictly nearer. */
  method ConsiderBarrier(f: Field, at: Point, opp: Point, ghost keys: seq<Option<real>>, k: nat,
                         ghost best: Option<nat>, r: Option<Point>, minDistance: real)
    returns (ghost best': Option<nat>, r': Option<Point>, minDistance': real)
    requires keys == CoverKeys(f, at, opp) && k < |keys| && best == ScanUpTo(keys, k)
    requires r == SpotAt(f, opp, best)
    requires best.Some? ==> minDistance == keys[best.value].value
    ensures best' == ScanUpTo(keys, k + 1) && r' == SpotAt(f, opp, best')
    ensures best'.Some? ==> minDistance' == keys[best'.value].value
  {
    var spot, distToAI := AssessBarrier(f, at, opp, f.barriers[k]);
    var p := if spot.Some? then spot.value else at;
    best', r', minDistance' := Consider(keys, k, best, r, minDistance, distToAI, p);
  }

  /** findCover: the usable spot nearest to the AI (the first on a tie), none
      when no barrier offers one. */
  method FindCover(f: Field, at: Point, opp: Point) returns (r: Option<Point>)
    ensures r == Cover(f, at, opp)
  {
    ghost var keys := CoverKeys(f, at, opp);
    ghost var n := |keys|;
    assert n == |f.barriers|;
    ghost var best: Option<nat> := None;
    var minDistance := 0.0;
    r := None;
    var k := 0;
    while k < |f.barriers|
      invariant k <= n && best == ScanUpTo(keys, k)
      invariant r == SpotAt(f, opp, best)
      invariant best.Some? ==> minDistance == keys[best.value].value
    {
      best, r, minDistance := ConsiderBarrier(f, at, opp, keys, k, best, r, minDistance);
      k := k + 1;
    }
    assert best == FirstMin(keys);
  }

  /** There is no cover exactly when no barrier offers a usable spot. */
  lemma NoCoverWhenNoneUsable(f: Field, at: Point, opp: Point)
    ensures Cover(f, at, opp).None? <==> forall i :: 0 <= i < |f.barriers| ==> CoverKey(f, at, opp, f.barriers[i]).None?
  {
    var keys := CoverKeys(f, at, opp);
    FirstMinIs(keys);
    var best := FirstMin(keys);
    if best.None? {
      forall i | 0 <= i < |f.barriers| ensures CoverKey(f, at, opp, f.barriers[i]).None? {
        assert keys[i].None?;
      }
    } else {
      assert keys[best.value] == CoverKey(f, at, opp, f.barriers[best.value]);
    }
  }

  /** The chosen spot is usable and no usable spot of any barrier is nearer
      to the AI. */
  lemma CoverIsNearest(f: Field, at: Point, opp: Point)
    ensures var r := Cover(f, at, opp);
      && (r.Some? ==> GoodCover(f, opp, r.value))
      && (r.Some? ==> forall i :: 0 <= i < |f.barriers| && CoverKey(f, at, opp, f.barriers[i]).Some? ==>
            CoverKey(f, at, opp, f.barriers[i]).value >= f.m.hypot(at.x - r.value.x, at.y - r.value.y))
  {
    var keys := CoverKeys(f, at, opp);
    FirstMinIs(keys);
    var best := FirstMin(keys);
    if best.Some? {
      var b := best.value;
      assert keys[b] == CoverKey(f, at, opp, f.barriers[b]);
      var spot := CoverSpot(f, opp, f.barriers[b]);
      assert spot.Some? && GoodCover(f, opp, spot.value);
      assert keys[b].value == f.m.hypot(at.x - spot.value.x, at.y - spot.value.y);
      forall i | 0 <= i < |f.barriers| && CoverKey(f, at, opp, f.barriers[i]).Some?
        ensures CoverKey(f, at, opp, f.barriers[i]).value >= keys[b].value
      {
        assert keys[i] == CoverKey(f, at, opp, f.barriers[i]);
      }
    }
  }

  // ---------------------------------------------------------------------------
  // predictOpponentPosition
  // ---------------------------------------------------------------------------

  /** Where the AI aims: the opponent itself when close (under two tank
      widths) or standing still; otherwise where its velocity carries it in
      the bullet's flight time, jittered in proportion to the distance, and
      kept inside the arena. */
  function PredictOpponent(f: Field, at: Point, opp: Tank, jitterX: real, jitterY: real): (r: Point)
    requires f.width > 0.0
    ensures f.m.hypot(opp.pos.x - at.x, opp.pos.y - at.y) < f.tankWidth * 2.0 ==> r == opp.pos
    ensures opp.vx == 0.0 && opp.vy == 0.0 ==> r == opp.pos
    ensures r == opp.pos || (0.0 <= r.x <= f.width && (f.height >= 0.0 ==> 0.0 <= r.y <= f.height))
  {
    var dist := f.m.hypot(opp.pos.x - at.x, opp.pos.y - at.y);
    if dist < f.tankWidth * 2.0 || (opp.vx == 0.0 && opp.vy == 0.0) then opp.pos
    else
      var time := dist / BULLET_SPEED;
      var spread := dist / (f.width * 0.5);
      var px := opp.pos.x + opp.vx * time + (jitterX - 0.5) * f.tankWidth * spread;
      var py := opp.pos.y + opp.vy * time + (jitterY - 0.5) * f.tankWidth * spread;
      Point(Clamp(px, 0.0, f.width), Clamp(py, 0.0, f.height))
  }

  // ---------------------------------------------------------------------------
  // The evasion state machine
  // ---------------------------------------------------------------------------

  /** Arming: only an idle, unshielded AI with a threat starts an evasion,
      at right angles to the threat's heading, the side chosen by the roll. */
  function Arm(e: Evasion, threat: Option<Bullet>, hasShield: bool, dodge: real): (r: Evasion)
    ensures e.active || threat.None? || hasShield ==> r == e
    ensures !e.active && threat.Some? && !hasShield ==>
      r.active && r.timer == EVASION_TICKS &&
      r.moveAngle == threat.value.angle + PI / 2.0 * (if dodge > 0.5 then 1.0 else -1.0)
  {
    if !e.active && threat.Some? && !hasShield
    then Evasion(true, threat.value.angle + PI / 2.0 * (if dodge > 0.5 then 1.0 else -1.0), EVASION_TICKS)
    else e
  }

  /** One tick of an active evasion: the timer runs down and the evasion ends
      when it reaches zero. */
  function Tick(e: Evasion): (r: Evasion)
    ensures r.moveAngle == e.moveAngle
    ensures !e.active ==> r == e
    ensures e.active ==> r.timer == e.timer - 1 && (r.active <==> e.timer > 1)
  {
    if e.active then e.(timer := e.timer - 1, active := e.timer - 1 > 0) else e
  }

  /** n ticks without a new threat. */
  function Ticks(e: Evasion, n: nat): Evasion
  {
    if n == 0 then e else Tick(Ticks(e, n - 1))
  }

  /** An evasion armed on a tick moves on that tick and the 13 after it, and
      ends on the 15th; no threat can re-arm it in between. */
  lemma {:induction false} EvasionRun(e: Evasion, n: nat)
    requires e.active && e.timer == EVASION_TICKS
    ensures 1 <= n < 15 ==> Ticks(e, n) == e.(timer := EVASION_TICKS - n)
    ensures n >= 15 ==> Ticks(e, n) == e.(timer := 0, active := false)
  {
    if n > 0 {
      EvasionRun(e, n - 1);
    }
  }

  // ---------------------------------------------------------------------------
  // Re-planning
  // ---------------------------------------------------------------------------

  /** The goal of a new plan: the nearest power-up; the opponent instead when
      there is none, or when the AI is close to the opponent (under 0.3 of the
      arena width) while it holds a shield or a timed effect; and, when the
      AI is unshielded and in the opponent's line of sight, the nearest cover
      if there is one. */
  function Target(f: Field, ai: Tank, opp: Point, ps: seq<PowerUp>): Point
  {
    var closest := ClosestPowerUp(f.m, ai.pos, ps);
    var distToOpponent := f.m.hypot(ai.pos.x - opp.x, ai.pos.y - opp.y);
    var primary :=
      if closest.None? || (distToOpponent < f.width * 0.3 && (ai.hasShield || ai.effect.kind.Some?)) then opp
      else closest.value.pos;
    var underFire := !ai.hasShield && LineOfSightClear(f.m, f.barriers, ai.pos, opp);
    var cover := Cover(f, ai.pos, opp);
    if underFire && cover.Some? then cover.value else primary
  }

  /** The goal does not depend on the evasion state. */
  lemma TargetIgnoresEvasion(f: Field, ai: Tank, e: Evasion, opp: Point, ps: seq<PowerUp>)
    ensures Target(f, ai.(evasion := e), opp, ps) == Target(f, ai, opp, ps)
  {
  }

  /** The goal is a hiding place whenever the AI is exposed and one exists;
      otherwise it is the opponent or a power-up on the field. */
  lemma TargetChoice(f: Field, ai: Tank, opp: Point, ps: seq<PowerUp>)
    ensures var t := Target(f, ai, opp, ps);
      && (!ai.hasShield && LineOfSightClear(f.m, f.barriers, ai.pos, opp) && Cover(f, ai.pos, opp).Some? ==>
            t == Cover(f, ai.pos, opp).value && GoodCover(f, opp, t))
      && (ai.hasShield || !LineOfSightClear(f.m, f.barriers, ai.pos, opp) || Cover(f, ai.pos, opp).None? ==>
            t == opp || exists p :: p in ps && t == p.pos)
      && (ps == [] && (ai.hasShield || Cover(f, ai.pos, opp).None?) ==> t == opp)
  {
    var keys := CoverKeys(f, ai.pos, opp);
    FirstMinIs(keys);
    FirstMinIs(PowerUpKeys(f.m, ai.pos, ps));
    var best := FirstMin(keys);
    if best.Some? {
      assert keys[best.value] == CoverKey(f, ai.pos, opp, f.barriers[best.value]);
    }
    var closest := ClosestPowerUp(f.m, ai.pos, ps);
    if closest.Some? {
      assert closest.value in ps;
    }
  }

  /** The AI after the starts of consecutive ticks at the given times. */
  function PreparedRun(t: Tank, times: seq<int>): Tank
    decreases |times|
  {
    if times == [] then t else PreparedRun(Prepared(t, times[0]), times[1..])
  }

  /** Every tick takes AI_TICK off the decision timer. */
  lemma {:induction false} RunTimer(t: Tank, times: seq<int>)
    ensures PreparedRun(t, times).aiDecisionTimer == t.aiDecisionTimer - AI_TICK * |times| as real
    decreases |times|
  {
    if times != [] {
      RunTimer(Prepared(t, times[0]), times[1..]);
    }
  }

  /** The cadence of re-planning: a plan sets the decision timer to a value in
      [1000, 1500), and the tick re-plans when the timer, once decremented, is
      no longer positive. So no re-plan happens in the 62 ticks after a plan,
      and one is due by the 94th. */
  lemma ReplanCadence(t: Tank, roll: real, times: seq<int>)
    requires 0.0 <= roll < 1.0 && t.aiDecisionTimer == REPLAN_BASE + roll * REPLAN_SPREAD
    ensures |times| < 63 ==> PreparedRun(t, times).aiDecisionTimer > 0.0
    ensures |times| >= 94 ==> PreparedRun(t, times).aiDecisionTimer <= 0.0
  {
    RunTimer(t, times);
  }

  /** The target choice of the re-planning block. */
  method ChooseTarget(t: Tank, opp: Point, ps: seq<PowerUp>, f: Field) returns (target: Point)
    ensures target == Target(f, t, opp, ps)
  {
    var primary := FindClosestPowerUp(f.m, t.pos, ps);
    var distToOpponent := f.m.hypot(t.pos.x - opp.x, t.pos.y - opp.y);
    target := if primary.None? || (distToOpponent < f.width * 0.3 && (t.hasShield || t.effect.kind.Some?))
              then opp else primary.value.pos;
    var isUnderFire := !t.hasShield && LineOfSightClear(f.m, f.barriers, t.pos, opp);
    if isUnderFire {
      var bestCover := FindCover(f, t.pos, opp);
      if bestCover.Some? {
        target := bestCover.value;
      }
    }
  }

  /** The line-of-sight test the AI smooths its paths with. */
  function Sight(f: Field): (Point, Point) -> bool
  {
    (p, q) => LineOfSightClear(f.m, f.barriers, p, q)
  }

  /** `path` is a plan from `from` to `target`: the centres of cells findPath
      may return between them, smoothed by the line of sight, `idx` naming the
      centres kept. */
  ghost predicate Planned(gr: Grid, f: Field, from: Point, target: Point,
                          path: seq<Point>, cells: seq<Cell>, idx: seq<int>)
  {
    && Routes(gr, from, target, cells)
    && (|cells| <= 2 ==> path == Centres(cells))
    && (|cells| > 2 ==> Smoothed(Centres(cells), Sight(f), idx) && path == Pick(Centres(cells), idx))
  }

  /** The path of a new plan: the cell path found on the grid, smoothed by
      the line-of-sight test; it runs from the centre of the AI's cell to the
      centre of the target's whenever one is found and those cells are free. */
  method PlanPath(gr: Grid, f: Field, from: Point, target: Point)
    returns (path: seq<Point>, ghost cells: seq<Cell>, ghost idx: seq<int>)
    requires gr.Valid()
    ensures Planned(gr, f, from, target, path, cells, idx)
    ensures path == [] <==> cells == []
    ensures cells != [] ==> |path| >= 2 && path[0] == Centre(cells[0]) && path[|path| - 1] == Centre(cells[|cells| - 1])
    ensures path != [] && Free(gr, CellAt(from)) ==> path[0] == Centre(CellAt(from))
    ensures path != [] && Free(gr, CellAt(target)) ==> path[|path| - 1] == Centre(CellAt(target))
  {
    var rawPath;
    rawPath, cells := FindPath(gr, f.m.hypot, from, target);
    path, idx := SmoothPath(rawPath, Sight(f));
  }

  /** The re-planning block: the timer is reset from the roll, the target is
      chosen, and the path to it is found and smoothed; the AI starts at its
      first waypoint. */
  method Replan(t: Tank, opp: Point, ps: seq<PowerUp>, gr: Grid, f: Field, roll: real)
    returns (r: Tank, ghost cells: seq<Cell>, ghost idx: seq<int>)
    requires gr.Valid()
    ensures r == t.(aiDecisionTimer := REPLAN_BASE + roll * REPLAN_SPREAD, aiTarget := Some(Target(f, t, opp, ps)),
                    aiPath := r.aiPath, aiPathIndex := 0)
    ensures Planned(gr, f, t.pos, r.aiTarget.value, r.aiPath, cells, idx)
    ensures r.aiPath == [] <==> cells == []
    ensures cells != [] ==> |r.aiPath| >= 2
    ensures r.aiPath != [] && Free(gr, CellAt(t.pos)) ==> r.aiPath[0] == Centre(CellAt(t.pos))
    ensures r.aiPath != [] && Free(gr, CellAt(r.aiTarget.value)) ==>
              r.aiPath[|r.aiPath| - 1] == Centre(CellAt(r.aiTarget.value))
  {
    r := Retarget(t, opp, ps, f, roll);
    var path;
    path, cells, idx := PlanPath(gr, f, r.pos, r.aiTarget.value);
    r := r.(aiPath := path);
  }

  /** The first half of a re-plan: the timer is reset from the roll, the
      target is chosen and the waypoint index goes back to 0. */
  method Retarget(t: Tank, opp: Point, ps: seq<PowerUp>, f: Field, roll: real) returns (r: Tank)
    ensures r == t.(aiDecisionTimer := REPLAN_BASE + roll * REPLAN_SPREAD, aiTarget := Some(Target(f, t, opp, ps)),
                    aiPathIndex := 0)
  {
    var target := ChooseTarget(t, opp, ps, f);
    r := t.(aiDecisionTimer := REPLAN_BASE + roll * REPLAN_SPREAD, aiTarget := Some(target), aiPathIndex := 0);
  }

  // ---------------------------------------------------------------------------
  // Following the path, aiming and firing
  // ---------------------------------------------------------------------------

  /** The wrapped turn from heading `angle` at `from` towards `to`. */
  function Bearing(m: Platform, from: Point, to: Point, angle: real): (d: real)
    ensures -PI <= d <= PI
  {
    Wrap(m.atan2(to.y - from.y, to.x - from.x) - angle)
  }

  /** The movement decision of a pursuing tick: the waypoint index, the turn
      and whether the tank moves. */
  datatype Course = Course(idx: nat, turn: real, moving: bool)

  /** With a waypoint ahead, step past it once it is within reach, then turn
      towards the current waypoint and move only when it is less than a
      quarter turn off; with no waypoint left, turn towards the opponent and
      stand. */
  function Follow(path: seq<Point>, index: nat, pos: Point, angle: real, opp: Point, m: Platform): (c: Course)
    ensures c.idx == index || (c.idx == index + 1 && index < |path| &&
                               m.hypot(path[index].x - pos.x, path[index].y - pos.y) < WAYPOINT_REACH)
    ensures index < |path| && m.hypot(path[index].x - pos.x, path[index].y - pos.y) < WAYPOINT_REACH ==>
              c.idx == index + 1
    ensures index <= |path| ==> c.idx <= |path|
    ensures c.moving <==> index < |path| && c.idx < |path| && Abs(Bearing(m, pos, path[c.idx], angle)) < PI / 2.0
    ensures index >= |path| ==> c.turn == TurnStep(Bearing(m, pos, opp, angle))
    ensures index < |path| ==> c.turn == if c.idx < |path| then TurnStep(Bearing(m, pos, path[c.idx], angle)) else 0.0
    ensures Abs(c.turn) <= TANK_TURN_SPEED
  {
    if index < |path| then
      var i := if m.hypot(path[index].x - pos.x, path[index].y - pos.y) < WAYPOINT_REACH then index + 1 else index;
      if i < |path| then
        var diff := Bearing(m, pos, path[i], angle);
        Course(i, TurnStep(diff), Abs(diff) < PI / 2.0)
      else Course(i, 0.0, false)
    else Course(index, TurnStep(Bearing(m, pos, opp, angle)), false)
  }

  /** The movement block of updateAITank. */
  method FollowPath(path: seq<Point>, index: nat, pos: Point, angle: real, opp: Point, m: Platform)
    returns (idx: nat, turn: real, moving: bool)
    ensures Course(idx, turn, moving) == Follow(path, index, pos, angle, opp, m)
  {
    idx := index;
    turn := 0.0;
    moving := false;
    if |path| > 0 && idx < |path| {
      var waypoint := path[idx];
      if m.hypot(waypoint.x - pos.x, waypoint.y - pos.y) < WAYPOINT_REACH {
        idx := idx + 1;
      }
      if idx < |path| {
        var next := path[idx];
        var diff := WrapAngle(m.atan2(next.y - pos.y, next.x - pos.x) - angle);
        turn := TurnStep(diff);
        moving := Abs(diff) < PI / 2.0;
      }
    } else {
      var diff := WrapAngle(m.atan2(opp.y - pos.y, opp.x - pos.x) - angle);
      turn := TurnStep(diff);
    }
  }

  /** The steering stage of a pursuing tick: the waypoint index and heading
      after following the path, and whether the tank is to move. */
  method Head(t: Tank, opp: Point, f: Field) returns (r: Tank, moving: bool)
    ensures var c := Follow(t.aiPath, t.aiPathIndex, t.pos, t.angle, opp, f.m);
            r == t.(aiPathIndex := c.idx, angle := t.angle + c.turn) && moving == c.moving
  {
    var idx, turn;
    idx, turn, moving := FollowPath(t.aiPath, t.aiPathIndex, t.pos, t.angle, opp, f.m);
    r := t.(aiPathIndex := idx, angle := t.angle + turn);
  }

  /** The firing stage of a pursuing tick: aim at the predicted opponent
      from where the tank stands, along its new heading. */
  method Shoot(t: Tank, id: PlayerId, opp: Tank, f: Field, now: int, rolls: Rolls)
    returns (r: Tank, shot: Option<Bullet>)
    requires f.width > 0.0
    ensures shot.Some? <==>
              MayFire(t, Bearing(f.m, t.pos, PredictOpponent(f, t.pos, opp, rolls.jitterX, rolls.jitterY), t.angle),
                      PURSUE_AIM, f, opp.pos, now)
    ensures shot.Some? ==> (r, shot.value) == FireShot(t, id, now, f)
    ensures shot.None? ==> r == t
  {
    var predicted := PredictOpponent(f, t.pos, opp, rolls.jitterX, rolls.jitterY);
    var aim := WrapAngle(f.m.atan2(predicted.y - t.pos.y, predicted.x - t.pos.x) - t.angle);
    r, shot := FireIfReady(t, id, aim, PURSUE_AIM, opp.pos, now, f);
  }

  /** One step of `speed` along `angle`, each axis undone when the tank then
      overlaps a barrier. */
  function Stepped(pos: Point, angle: real, speed: real, f: Field): Point
  {
    var d := Displacement(f.m, angle, speed);
    MoveWithRevert(pos, d.x, d.y, f.tankWidth, f.barriers)
  }

  /** A pursuing tick from tank `a` to tank `r`: the waypoint index and the
      turn follow the path, a bullet leaves from where the tank stands along
      its new heading, and a moving tank steps along that heading; either way
      it is clamped into the arena. */
  predicate Pursued(a: Tank, r: Tank, shot: Option<Bullet>, id: PlayerId, f: Field, opp: Point, now: int)
  {
    var c := Follow(a.aiPath, a.aiPathIndex, a.pos, a.angle, opp, f.m);
    && r.aiPathIndex == c.idx
    && r.angle == a.angle + c.turn
    && r.pos == ClampToArena(if c.moving then Stepped(a.pos, r.angle, Speed(a), f) else a.pos, f)
    && (shot.Some? ==> shot.value == FireShot(a.(aiPathIndex := c.idx, angle := r.angle), id, now, f).1)
  }

  /** What a pursuing tick does to the waypoint index and where it leaves the
      tank: the index advances at most once, past a waypoint within reach; a
      tank out of waypoints turns towards the opponent and stands; a tank that
      moved had a waypoint less than a quarter turn off. */
  lemma PursuedSteps(a: Tank, r: Tank, shot: Option<Bullet>, id: PlayerId, f: Field, opp: Point, now: int)
    requires Pursued(a, r, shot, id, f, opp, now)
    ensures r.aiPathIndex == a.aiPathIndex ||
            (r.aiPathIndex == a.aiPathIndex + 1 && a.aiPathIndex < |a.aiPath| &&
             f.m.hypot(a.aiPath[a.aiPathIndex].x - a.pos.x, a.aiPath[a.aiPathIndex].y - a.pos.y) < WAYPOINT_REACH)
    ensures a.aiPathIndex <= |a.aiPath| ==> r.aiPathIndex <= |a.aiPath|
    ensures a.aiPathIndex >= |a.aiPath| ==>
              r.pos == ClampToArena(a.pos, f) && r.angle == a.angle + TurnStep(Bearing(f.m, a.pos, opp, a.angle))
    ensures r.pos != ClampToArena(a.pos, f) ==>
              r.aiPathIndex < |a.aiPath| && Abs(Bearing(f.m, a.pos, a.aiPath[r.aiPathIndex], a.angle)) < PI / 2.0
  {
  }

  /** An evading tick from tank `a` to tank `r`: a step along the dodge
      heading, clamped into the arena, a turn towards the opponent position
      predicted from the moved spot, and a bullet from that spot along the new
      heading. */
  predicate Evaded(a: Tank, r: Tank, shot: Option<Bullet>, id: PlayerId, f: Field, opp: Tank, rolls: Rolls, now: int)
    requires f.width > 0.0
  {
    var moved := Stepped(a.pos, a.evasion.moveAngle, Speed(a), f);
    && r.pos == ClampToArena(moved, f)
    && r.angle == a.angle +
         TurnStep(Bearing(f.m, moved, PredictOpponent(f, moved, opp, rolls.jitterX, rolls.jitterY), a.angle))
    && (shot.Some? ==> shot.value == FireShot(a.(pos := moved, angle := r.angle), id, now, f).1)
  }

  /** The tank a pursuit starts from: with the fresh plan of `r` when the
      decision timer has run out. */
  function AfterPlan(a: Tank, r: Tank): Tank
  {
    if a.aiDecisionTimer <= 0.0
    then a.(aiDecisionTimer := r.aiDecisionTimer, aiTarget := r.aiTarget, aiPath := r.aiPath, aiPathIndex := 0)
    else a
  }

  /** The fire test of the AI: aimed within `tolerance`, a clear line of sight
      to the opponent, and the cooldown over. */
  predicate MayFire(t: Tank, aim: real, tolerance: real, f: Field, opp: Point, now: int)
  {
    Abs(aim) < tolerance && LineOfSightClear(f.m, f.barriers, t.pos, opp) && CooledDown(t, now)
  }

  method FireIfReady(t: Tank, id: PlayerId, aim: real, tolerance: real, opp: Point, now: int, f: Field)
    returns (r: Tank, shot: Option<Bullet>)
    ensures shot.Some? <==> MayFire(t, aim, tolerance, f, opp, now)
    ensures shot.Some? ==> (r, shot.value) == FireShot(t, id, now, f)
    ensures shot.None? ==> r == t
  {
    var cooldown := if t.effect.kind == Some(RapidFire) then FIRE_COOLDOWN * 4 / 10 else FIRE_COOLDOWN;
    if Abs(aim) < tolerance && LineOfSightClear(f.m, f.barriers, t.pos, opp) && now - t.lastShotTime > cooldown {
      var fired := FireShot(t, id, now, f);
      r, shot := fired.0, Some(fired.1);
    } else {
      r, shot := t, None;
    }
  }

  /** An evading tick: move along the dodge heading (each axis undone on a
      barrier overlap), turn towards the predicted opponent, fire when aimed
      within EVADE_AIM, then clamp to the arena. */
  method Evade(t: Tank, id: PlayerId, opp: Tank, f: Field, now: int, rolls: Rolls)
    returns (r: Tank, shot: Option<Bullet>, ghost aim: real)
    requires f.width > 0.0
    ensures shot.Some? ==> CooledDown(t, now) && Abs(aim) < EVADE_AIM && shot.value.owner == id
    ensures shot.Some? ==> shot.value.bounces == 0 && shot.value.trail == []
    ensures shot.Some? ==> r.lastShotTime == now && r.recoil == RECOIL && !r.nextShotPiercing &&
                           shot.value.isPiercing == t.nextShotPiercing
    ensures shot.None? ==> r.lastShotTime == t.lastShotTime && r.recoil == t.recoil && r.nextShotPiercing == t.nextShotPiercing
    ensures r.effect == t.effect && r.hasShield == t.hasShield && r.evasion == t.evasion
    ensures r.aiPath == t.aiPath && r.aiPathIndex == t.aiPathIndex && r.aiDecisionTimer == t.aiDecisionTimer
    ensures r.aiTarget == t.aiTarget && r.score == t.score
    ensures f.width >= f.tankWidth && f.height >= f.tankHeight ==> InArena(r.pos, f)
    ensures Evaded(t, r, shot, id, f, opp, rolls, now)
    ensures var moved := Stepped(t.pos, t.evasion.moveAngle, Speed(t), f);
            && aim == Bearing(f.m, moved, PredictOpponent(f, moved, opp, rolls.jitterX, rolls.jitterY), t.angle)
            && (shot.Some? <==> MayFire(t.(pos := moved), aim, EVADE_AIM, f, opp.pos, now))
  {
    var d := Displacement(f.m, t.evasion.moveAngle, Speed(t));
    var p := MoveAxes(t.pos, d.x, d.y, f);
    r := t.(pos := p);
    var predicted := PredictOpponent(f, r.pos, opp, rolls.jitterX, rolls.jitterY);
    var diff := WrapAngle(f.m.atan2(predicted.y - r.pos.y, predicted.x - r.pos.x) - r.angle);
    aim := diff;
    r := r.(angle := r.angle + TurnStep(diff));
    r, shot := FireIfReady(r, id, diff, EVADE_AIM, opp.pos, now, f);
    r := r.(pos := ClampToArena(r.pos, f));
  }

  /** A pursuing tick after any re-planning: follow the path (or face the
      opponent when it is used up), turn, fire when aimed within PURSUE_AIM at
      the predicted opponent from the position before the move, then move
      forward if the waypoint is less than a quarter turn off, and clamp. */
  method Pursue(t: Tank, id: PlayerId, opp: Tank, f: Field, now: int, rolls: Rolls)
    returns (r: Tank, shot: Option<Bullet>)
    requires f.width > 0.0
    ensures r.aiPath == t.aiPath && r.aiTarget == t.aiTarget && r.aiDecisionTimer == t.aiDecisionTimer
    ensures r.effect == t.effect && r.hasShield == t.hasShield && r.evasion == t.evasion && r.score == t.score
    ensures shot.Some? <==>
              MayFire(t, Bearing(f.m, t.pos, PredictOpponent(f, t.pos, opp, rolls.jitterX, rolls.jitterY), r.angle),
                      PURSUE_AIM, f, opp.pos, now)
    ensures shot.Some? ==> shot.value.owner == id && r.lastShotTime == now && r.recoil == RECOIL &&
                           !r.nextShotPiercing && shot.value.isPiercing == t.nextShotPiercing
    ensures shot.Some? ==> shot.value.bounces == 0 && shot.value.trail == []
    ensures shot.None? ==> r.lastShotTime == t.lastShotTime && r.recoil == t.recoil && r.nextShotPiercing == t.nextShotPiercing
    ensures Pursued(t, r, shot, id, f, opp.pos, now)
    ensures f.width >= f.tankWidth && f.height >= f.tankHeight ==> InArena(r.pos, f)
  {
    var h, moving := Head(t, opp.pos, f);
    r, shot := Shoot(h, id, opp, f, now, rolls);
    var p := Drive(h, moving, f);
    r := r.(pos := p);
  }

  /** Where the pursuing tank ends its tick: one step along its heading when
      it is moving, clamped into the arena either way. */
  method Drive(t: Tank, moving: bool, f: Field) returns (p: Point)
    ensures !moving ==> p == ClampToArena(t.pos, f)
    ensures moving ==> p == ClampToArena(Stepped(t.pos, t.angle, Speed(t), f), f)
    ensures f.width >= f.tankWidth && f.height >= f.tankHeight ==> InArena(p, f)
  {
    p := t.pos;
    if moving {
      var d := Displacement(f.m, t.angle, Speed(t));
      p := MoveAxes(t.pos, d.x, d.y, f);
    }
    p := ClampToArena(p, f);
  }

  /** The AI tank at the start of its tick: the decision timer down by one
      tick, the recoil counted down and an ended effect cleared. */
  function Prepared(t: Tank, now: int): (r: Tank)
    ensures r.aiDecisionTimer == t.aiDecisionTimer - AI_TICK
    ensures r.pos == t.pos && r.angle == t.angle && r.hasShield == t.hasShield && r.evasion == t.evasion
    ensures r.aiPath == t.aiPath && r.aiPathIndex == t.aiPathIndex && r.aiTarget == t.aiTarget
    ensures r.effect == ExpireEffect(t, now).effect && r.lastShotTime == t.lastShotTime
  {
    CountedDown(t.(aiDecisionTimer := t.aiDecisionTimer - AI_TICK), now)
  }

  /** The evasion state after the arm test against the most urgent threat and
      one tick of the timer. */
  function EvasionAfter(t: Tank, id: PlayerId, f: Field, bs: seq<Bullet>, dodge: real): Evasion
  {
    Tick(Arm(t.evasion, Threat(f, t.pos, id, bs), t.hasShield, dodge))
  }

  /** The rest of an evading tick of updateAITank, from the prepared tank `a`:
      the dodge step, with the plan left as it is. */
  method EvadeTick(t: Tank, a: Tank, id: PlayerId, opp: Tank, f: Field, now: int, rolls: Rolls)
    returns (r: Tank, shot: Option<Bullet>)
    requires f.width > 0.0
    requires a == Prepared(t, now).(evasion := a.evasion) && a.evasion.active
    ensures r.evasion == a.evasion
    ensures r.effect == ExpireEffect(t, now).effect && r.hasShield == t.hasShield
    ensures ExclusiveEffects(t) ==> ExclusiveEffects(r)
    ensures shot.Some? ==> shot.value.owner == id && CooledDown(Prepared(t, now), now) &&
                           r.lastShotTime == now && r.recoil == RECOIL && !r.nextShotPiercing
    ensures shot.Some? ==> shot.value.bounces == 0 && shot.value.trail == []
    ensures shot.None? ==> r.lastShotTime == t.lastShotTime && r.nextShotPiercing == t.nextShotPiercing
    ensures r.score == t.score
    ensures r.aiDecisionTimer == t.aiDecisionTimer - AI_TICK && r.aiTarget == t.aiTarget &&
            r.aiPath == t.aiPath && r.aiPathIndex == t.aiPathIndex
    ensures Evaded(a, r, shot, id, f, opp, rolls, now)
    ensures f.width >= f.tankWidth && f.height >= f.tankHeight ==> InArena(r.pos, f)
  {
    ghost var aim;
    r, shot, aim := Evade(a, id, opp, f, now, rolls);
  }

  /** The rest of a pursuing tick of updateAITank, from the prepared tank `a`:
      a re-plan when the decision timer has run out, then the pursuit. */
  method PursueTick(t: Tank, a: Tank, id: PlayerId, opp: Tank, ps: seq<PowerUp>, gr: Grid, f: Field, now: int,
                    rolls: Rolls)
    returns (r: Tank, shot: Option<Bullet>)
    requires gr.Valid() && f.width > 0.0
    requires a == Prepared(t, now).(evasion := a.evasion) && !a.evasion.active
    ensures r.evasion == a.evasion
    ensures r.effect == ExpireEffect(t, now).effect && r.hasShield == t.hasShield
    ensures ExclusiveEffects(t) ==> ExclusiveEffects(r)
    ensures shot.Some? ==> shot.value.owner == id && CooledDown(Prepared(t, now), now) &&
                           r.lastShotTime == now && r.recoil == RECOIL && !r.nextShotPiercing
    ensures shot.Some? ==> shot.value.bounces == 0 && shot.value.trail == []
    ensures shot.None? ==> r.lastShotTime == t.lastShotTime && r.nextShotPiercing == t.nextShotPiercing
    ensures r.score == t.score
    ensures t.aiDecisionTimer - AI_TICK <= 0.0 ==>
              r.aiDecisionTimer == REPLAN_BASE + rolls.replan * REPLAN_SPREAD &&
              r.aiTarget == Some(Target(f, Prepared(t, now), opp.pos, ps)) &&
              (r.aiPath == [] || |r.aiPath| >= 2) && r.aiPathIndex <= 1
    ensures t.aiDecisionTimer - AI_TICK > 0.0 ==>
              r.aiDecisionTimer == t.aiDecisionTimer - AI_TICK && r.aiTarget == t.aiTarget && r.aiPath == t.aiPath &&
              (r.aiPathIndex == t.aiPathIndex || r.aiPathIndex == t.aiPathIndex + 1) &&
              (t.aiPathIndex <= |t.aiPath| ==> r.aiPathIndex <= |r.aiPath|)
    ensures r.pos != ClampToArena(t.pos, f) ==>
              r.aiPathIndex < |r.aiPath| && Abs(Bearing(f.m, t.pos, r.aiPath[r.aiPathIndex], t.angle)) < PI / 2.0
    ensures t.aiDecisionTimer - AI_TICK <= 0.0 ==>
              r.aiTarget.Some? && exists cells, idx :: Planned(gr, f, t.pos, r.aiTarget.value, r.aiPath, cells, idx)
    ensures Pursued(AfterPlan(a, r), r, shot, id, f, opp.pos, now)
    ensures f.width >= f.tankWidth && f.height >= f.tankHeight ==> InArena(r.pos, f)
  {
    TargetIgnoresEvasion(f, Prepared(t, now), a.evasion, opp.pos, ps);
    r, shot := Advance(a, id, opp, ps, gr, f, now, rolls);
  }

  /** updateAITank: one tick of the computer-controlled tank. It evades while
      an evasion is running (and then keeps its plan); otherwise it re-plans
      exactly when the decision timer has run out, follows the path at most
      one waypoint further, and moves only towards a waypoint less than a
      quarter turn off. It never fires before its cooldown is over and ends
      the tick inside the arena. */
  method UpdateAITank(t: Tank, id: PlayerId, opp: Tank, bs: seq<Bullet>, ps: seq<PowerUp>,
                      gr: Grid, f: Field, now: int, rolls: Rolls)
    returns (r: Tank, shot: Option<Bullet>)
    requires gr.Valid() && f.width > 0.0
    ensures r.evasion == EvasionAfter(t, id, f, bs, rolls.dodge)
    ensures r.effect == ExpireEffect(t, now).effect && r.hasShield == t.hasShield
    ensures ExclusiveEffects(t) ==> ExclusiveEffects(r)
    ensures shot.Some? ==> shot.value.owner == id && CooledDown(Prepared(t, now), now) &&
                           r.lastShotTime == now && r.recoil == RECOIL && !r.nextShotPiercing
    ensures shot.Some? ==> shot.value.bounces == 0 && shot.value.trail == []
    ensures shot.None? ==> r.lastShotTime == t.lastShotTime && r.nextShotPiercing == t.nextShotPiercing
    ensures r.score == t.score
    ensures r.evasion.active ==>
              r.aiDecisionTimer == t.aiDecisionTimer - AI_TICK && r.aiTarget == t.aiTarget &&
              r.aiPath == t.aiPath && r.aiPathIndex == t.aiPathIndex
    ensures !r.evasion.active && t.aiDecisionTimer - AI_TICK <= 0.0 ==>
              r.aiDecisionTimer == REPLAN_BASE + rolls.replan * REPLAN_SPREAD &&
              r.aiTarget == Some(Target(f, Prepared(t, now), opp.pos, ps)) &&
              (r.aiPath == [] || |r.aiPath| >= 2) && r.aiPathIndex <= 1
    ensures !r.evasion.active && t.aiDecisionTimer - AI_TICK > 0.0 ==>
              r.aiDecisionTimer == t.aiDecisionTimer - AI_TICK && r.aiTarget == t.aiTarget && r.aiPath == t.aiPath &&
              (r.aiPathIndex == t.aiPathIndex || r.aiPathIndex == t.aiPathIndex + 1) &&
              (t.aiPathIndex <= |t.aiPath| ==> r.aiPathIndex <= |r.aiPath|)
    ensures !r.evasion.active && r.pos != ClampToArena(t.pos, f) ==>
              r.aiPathIndex < |r.aiPath| && Abs(Bearing(f.m, t.pos, r.aiPath[r.aiPathIndex], t.angle)) < PI / 2.0
    ensures !r.evasion.active && t.aiDecisionTimer - AI_TICK <= 0.0 ==>
              r.aiTarget.Some? && exists cells, idx :: Planned(gr, f, t.pos, r.aiTarget.value, r.aiPath, cells, idx)
    ensures r.evasion.active ==> Evaded(Prepared(t, now).(evasion := r.evasion), r, shot, id, f, opp, rolls, now)
    ensures !r.evasion.active ==>
              Pursued(AfterPlan(Prepared(t, now).(evasion := r.evasion), r), r, shot, id, f, opp.pos, now)
    ensures f.width >= f.tankWidth && f.height >= f.tankHeight ==> InArena(r.pos, f)
  {
    var a := t.(aiDecisionTimer := t.aiDecisionTimer - AI_TICK);
    a := CountDown(a, now);
    var incoming := FindIncomingBullet(f, a.pos, id, bs);
    a := a.(evasion := Tick(Arm(a.evasion, incoming, a.hasShield, rolls.dodge)));
    if a.evasion.active {
      r, shot := EvadeTick(t, a, id, opp, f, now, rolls);
    } else {
      r, shot := PursueTick(t, a, id, opp, ps, gr, f, now, rolls);
    }
  }

  /** The tick of an AI that is not evading: a re-plan when the decision
      timer has run out, then the pursuit. */
  method Advance(t: Tank, id: PlayerId, opp: Tank, ps: seq<PowerUp>, gr: Grid, f: Field, now: int, rolls: Rolls)
    returns (r: Tank, shot: Option<Bullet>)
    requires gr.Valid() && f.width > 0.0
    ensures r.evasion == t.evasion && r.effect == t.effect && r.hasShield == t.hasShield && r.score == t.score
    ensures shot.Some? ==> shot.value.owner == id && CooledDown(t, now) &&
                           r.lastShotTime == now && r.recoil == RECOIL && !r.nextShotPiercing
    ensures shot.Some? ==> shot.value.bounces == 0 && shot.value.trail == []
    ensures shot.None? ==> r.lastShotTime == t.lastShotTime && r.nextShotPiercing == t.nextShotPiercing
    ensures t.aiDecisionTimer <= 0.0 ==>
              r.aiDecisionTimer == REPLAN_BASE + rolls.replan * REPLAN_SPREAD &&
              r.aiTarget == Some(Target(f, t, opp.pos, ps)) &&
              (r.aiPath == [] || |r.aiPath| >= 2) && r.aiPathIndex <= 1
    ensures t.aiDecisionTimer > 0.0 ==>
              r.aiDecisionTimer == t.aiDecisionTimer && r.aiTarget == t.aiTarget && r.aiPath == t.aiPath &&
              (r.aiPathIndex == t.aiPathIndex || r.aiPathIndex == t.aiPathIndex + 1) &&
              (t.aiPathIndex <= |t.aiPath| ==> r.aiPathIndex <= |r.aiPath|)
    ensures r.pos != ClampToArena(t.pos, f) ==>
              r.aiPathIndex < |r.aiPath| && Abs(Bearing(f.m, t.pos, r.aiPath[r.aiPathIndex], t.angle)) < PI / 2.0
    ensures t.aiDecisionTimer <= 0.0 ==>
              r.aiTarget.Some? && exists cells, idx :: Planned(gr, f, t.pos, r.aiTarget.value, r.aiPath, cells, idx)
    ensures Pursued(AfterPlan(t, r), r, shot, id, f, opp.pos, now)
    ensures f.width >= f.tankWidth && f.height >= f.tankHeight ==> InArena(r.pos, f)
  {
    var a := t;
    if a.aiDecisionTimer <= 0.0 {
      ghost var cells, idx;
      a, cells, idx := Replan(a, opp.pos, ps, gr, f, rolls.replan);
    }
    r, shot := Pursue(a, id, opp, f, now, rolls);
    PursuedSteps(a, r, shot, id, f, opp.pos, now);
  }
}
