/** The game's global state and its tick: both tanks, the bullets, the
    power-ups, the current barrier layout and its navigation grid, and the
    round and score state machine (startGame, resetRound, handleHit,
    checkWin, update). */
module Arena {
  import opened Common
  import opened Geometry
  import opened Angles
  import opened NavGrid
  import opened Entities
  import opened Bullets
  import opened TankStep
  import opened AI
  import opened PowerUps

  datatype GameState = Menu | Playing | GameOver

  /** The number of barrier layouts the game cycles through. */
  const LAYOUT_COUNT: nat := 4

  /** checkWin's verdict on the two scores: player 1 is checked first, so
      when both have reached WINNING_SCORE player 1 wins. */
  function Winner(s1: nat, s2: nat): (w: Option<PlayerId>)
    ensures w == Some(P1) <==> s1 >= WINNING_SCORE
    ensures w == Some(P2) <==> s1 < WINNING_SCORE && s2 >= WINNING_SCORE
    ensures w.None? <==> s1 < WINNING_SCORE && s2 < WINNING_SCORE
  {
    if s1 >= WINNING_SCORE then Some(P1) else if s2 >= WINNING_SCORE then Some(P2) else None
  }

  /** The winner is checkWin's verdict on the scores, and the game is over
      exactly when there is one. */
  predicate Decided(winner: Option<PlayerId>, state: GameState, s1: nat, s2: nat)
  {
    winner == Winner(s1, s2) && (state == GameOver <==> winner.Some?)
  }

  /** resetRound's treatment of one tank: placed at `pos` facing `angle`,
      stopped, and stripped of every power-up. Its score, cooldown, recoil,
      keys and AI state carry over. */
  function Placed(t: Tank, pos: Point, angle: real): (r: Tank)
    ensures ExclusiveEffects(r) && r.effect.kind.None? && !r.hasShield && !r.nextShotPiercing
    ensures r.score == t.score && r.lastShotTime == t.lastShotTime && r.aiPath == t.aiPath
  {
    t.(pos := pos, angle := angle, effect := NO_EFFECT, hasShield := false, nextShotPiercing := false,
       vx := 0.0, vy := 0.0)
  }

  /** checkTankCollisions: tanks whose centres are closer than a tank width
      are pushed apart along the line between them, each by half the
      overlap and in opposite directions, so the midpoint stays put. */
  function PushApart(m: Platform, tankWidth: real, a: Point, b: Point): (r: (Point, Point))
    ensures m.hypot(a.x - b.x, a.y - b.y) >= tankWidth ==> r == (a, b)
    ensures r.0.x + r.1.x == a.x + b.x && r.0.y + r.1.y == a.y + b.y
  {
    var dx := a.x - b.x;
    var dy := a.y - b.y;
    var dist := m.hypot(dx, dy);
    if dist < tankWidth then
      var overlap := (tankWidth - dist) / 2.0;
      var angle := m.atan2(dy, dx);
      (Point(a.x + m.cos(angle) * overlap, a.y + m.sin(angle) * overlap),
       Point(b.x - m.cos(angle) * overlap, b.y - m.sin(angle) * overlap))
    else (a, b)
  }

  /** A spliced-out bullet leaves the rest live. */
  lemma SpliceKeepsLive(bs: seq<Bullet>, i: nat)
    requires AllLive(bs) && i < |bs|
    ensures AllLive(bs[..i] + bs[i + 1..])
  {
    AllLiveConcat(bs[..i], bs[i + 1..]);
  }

  /** The whole game. The canvas size, the platform maths and the four
      barrier layouts for this size are fixed at construction; the tank
      dimensions and the power-up radius derive from the smaller side. */
  class Game {
    const width: nat
    const height: nat
    const tankWidth: real
    const tankHeight: real
    const turretLength: real
    const powerUpRadius: real
    const m: Platform
    const layouts: seq<seq<Rect>>

    var state: GameState
    var numPlayers: nat
    var p1: Tank
    var p2: Tank
    var bullets: seq<Bullet>
    var powerUps: seq<PowerUp>
    var barriers: seq<Rect>
    var grid: Grid
    var lastPowerUpSpawnTime: int
    var winner: Option<PlayerId>
    var layoutIndex: nat

    /** What the tank, bullet and AI steps read of the arena. */
    function Terrain(): Field
      reads this
    {
      Field(width as real, height as real, tankWidth, tankHeight, turretLength, barriers, m)
    }

    function Of(id: PlayerId): Tank
      reads this
    {
      if id == P1 then p1 else p2
    }

    /** The canvas is not empty and the derived sizes fit inside it. */
    ghost predicate Sized()
    {
      && width > 0 && height > 0
      && 0.0 <= tankWidth <= width as real && 0.0 <= tankHeight <= height as real
      && 0.0 <= 2.0 * powerUpRadius <= width as real && 2.0 * powerUpRadius <= height as real
      && |layouts| == LAYOUT_COUNT
    }

    /** The barriers are layout `index` and the grid is built from them. */
    ghost predicate Built(index: nat, bs: seq<Rect>, g: Grid)
    {
      && |layouts| == LAYOUT_COUNT && index < LAYOUT_COUNT && bs == layouts[index]
      && Describes(g, width, height, bs, tankWidth)
    }

    /** The invariant of the game state:
        - the barriers are the current layout and the grid is built from them;
        - the winner is checkWin's verdict on the scores, and the game is over
          exactly when there is one;
        - at most MAX_POWERUPS power-ups lie on the field;
        - every bullet in flight has bounced at most once and has a bounded trail;
        - each tank holds at most one power-up effect. */
    ghost predicate Valid()
      reads this
    {
      && Sized()
      && Built(layoutIndex, barriers, grid)
      && Decided(winner, state, p1.score, p2.score)
      && |powerUps| <= MAX_POWERUPS
      && AllLive(bullets)
      && ExclusiveEffects(p1) && ExclusiveEffects(p2)
    }

    /** Where resetRound puts player 1. */
    function Start1(): Point
    {
      Point(width as real * 0.15, height as real / 2.0)
    }

    /** Where resetRound puts player 2. */
    function Start2(): Point
    {
      Point(width as real * 0.85, height as real / 2.0)
    }

    /** The state right after resetRound, from tanks q1 and q2. */
    ghost predicate RoundReset(q1: Tank, q2: Tank, now: int)
      reads this
    {
      && p1 == Placed(q1, Start1(), 0.0)
      && p2 == Placed(q2, Start2(), PI).(aiPath := [], aiPathIndex := 0)
      && bullets == [] && powerUps == [] && lastPowerUpSpawnTime == now
    }

    /** init: the canvas is sized, layout 0 is built with its grid, two fresh
        tanks are made, and the game waits in the menu. */
    constructor (width: nat, height: nat, layouts: seq<seq<Rect>>, m: Platform)
      requires width > 0 && height > 0 && |layouts| == LAYOUT_COUNT
      ensures Valid()
      ensures state == Menu && numPlayers == 2 && layoutIndex == 0 && winner.None?
      ensures p1 == NewTank() && p2 == NewTank() && bullets == [] && powerUps == []
    {
      var side := Min(width as real, height as real);
      var g := CreateNavGrid(width, height, layouts[0], side * 0.05);
      this.width := width;
      this.height := height;
      this.m := m;
      this.layouts := layouts;
      tankWidth := side * 0.05;
      tankHeight := side * 0.05 * 1.2;
      turretLength := side * 0.05 * 1.2 * 0.8;
      powerUpRadius := side * 0.02;
      state := Menu;
      numPlayers := 2;
      p1 := NewTank();
      p2 := NewTank();
      bullets := [];
      powerUps := [];
      barriers := layouts[0];
      grid := g;
      lastPowerUpSpawnTime := 0;
      winner := None;
      layoutIndex := 0;
    }

    /** currentLayoutIndex set, then createBarriers and createNavGrid: the
        layout's barriers become current and the grid is rebuilt from them. */
    method BuildLayout(index: nat)
      requires Sized() && index < LAYOUT_COUNT
      modifies this`layoutIndex, this`barriers, this`grid
      ensures layoutIndex == index && Built(layoutIndex, barriers, grid)
    {
      layoutIndex := index;
      barriers := layouts[layoutIndex];
      grid := CreateNavGrid(width, height, barriers, tankWidth);
    }

    /** checkWin: a player at WINNING_SCORE ends the game as its winner,
        player 1 checked first; otherwise nothing changes. */
    method CheckWin()
      modifies this`state, this`winner
      ensures Winner(p1.score, p2.score).Some? ==> state == GameOver && winner == Winner(p1.score, p2.score)
      ensures Winner(p1.score, p2.score).None? ==> state == old(state) && winner == old(winner)
    {
      if p1.score >= WINNING_SCORE {
        state := GameOver;
        winner := Some(P1);
      } else if p2.score >= WINNING_SCORE {
        state := GameOver;
        winner := Some(P2);
      }
    }

    /** resetRound: both tanks back to their starting spots and headings,
        stopped and without power-ups; the AI's path is dropped; the field is
        cleared of bullets and power-ups and the spawn clock restarts. */
    method ResetRound(now: int)
      modifies this`p1, this`p2, this`bullets, this`powerUps, this`lastPowerUpSpawnTime
      ensures RoundReset(old(p1), old(p2), now)
      ensures p1.score == old(p1.score) && p2.score == old(p2.score)
      ensures ExclusiveEffects(p1) && ExclusiveEffects(p2) && AllLive(bullets) && |powerUps| == 0
    {
      p1 := p1.(pos := Start1(), angle := 0.0, effect := NO_EFFECT, hasShield := false,
                nextShotPiercing := false, vx := 0.0, vy := 0.0);
      p2 := p2.(pos := Start2(), angle := PI, effect := NO_EFFECT, hasShield := false,
                nextShotPiercing := false, vx := 0.0, vy := 0.0, aiPath := [], aiPathIndex := 0);
      bullets := [];
      powerUps := [];
      lastPowerUpSpawnTime := now;
    }

    /** startGame: scores to zero, back to layout 0 and its grid, a fresh
        round, no winner, and play begins. */
    method StartGame(players: nat, now: int)
      requires Valid()
      modifies this
      ensures Valid()
      ensures state == Playing && numPlayers == players && winner.None? && layoutIndex == 0
      ensures barriers == layouts[0] && p1.score == 0 && p2.score == 0
      ensures RoundReset(old(p1).(score := 0), old(p2).(score := 0), now)
    {
      numPlayers := players;
      p1 := p1.(score := 0);
      p2 := p2.(score := 0);
      BuildLayout(0);
      ResetRound(now);
      winner := None;
      state := Playing;
    }

    /** The state handleHit(scorer, index) leaves, given the tanks q1 and q2,
        the bullets bs, the power-ups ps, the layout index and the spawn clock
        it started from. A shielded victim loses only its shield and the
        bullet is spliced out; nothing else changes. Otherwise the scorer
        gains a point, the next layout is built, and either the game is over
        (the bullet spliced out, nothing else changed) or a new round starts. */
    ghost predicate Handled(q1: Tank, q2: Tank, bs: seq<Bullet>, ps: seq<PowerUp>, layout: nat, spawn: int,
                            scorer: PlayerId, index: nat, now: int)
      requires index < |bs|
      reads this
    {
      var victim := if scorer == P1 then q2 else q1;
      var rest := bs[..index] + bs[index + 1..];
      if victim.hasShield then
        && Of(scorer) == (if scorer == P1 then q1 else q2)
        && Of(scorer.Other()) == victim.(hasShield := false)
        && bullets == rest && powerUps == ps && layoutIndex == layout && lastPowerUpSpawnTime == spawn
        && state == Playing
      else
        && p1.score == q1.score + (if scorer == P1 then 1 else 0)
        && p2.score == q2.score + (if scorer == P2 then 1 else 0)
        && layoutIndex == (layout + 1) % LAYOUT_COUNT
        && (state == GameOver ==>
              && p1 == q1.(score := p1.score) && p2 == q2.(score := p2.score)
              && bullets == rest && powerUps == ps && lastPowerUpSpawnTime == spawn)
        && (state != GameOver ==> state == Playing && RoundReset(q1.(score := p1.score), q2.(score := p2.score), now))
    }

    /** handleHit: a shielded target loses only its shield and the bullet is
        spliced out. Otherwise the scorer gains a point, the bullet is spliced
        out, the next layout and its grid are built, the win is checked, and
        unless the game is over a new round starts. */
    method HandleHit(scorer: PlayerId, index: nat, now: int)
      requires Valid() && state == Playing && index < |bullets|
      modifies this
      ensures Valid() && numPlayers == old(numPlayers)
      ensures old(p1.score) <= p1.score && old(p2.score) <= p2.score
      ensures p1.score + p2.score == old(p1.score + p2.score) + (if old(Of(scorer.Other()).hasShield) then 0 else 1)
      ensures Handled(old(p1), old(p2), old(bullets), old(powerUps), old(layoutIndex), old(lastPowerUpSpawnTime),
                      scorer, index, now)
    {
      if Of(scorer.Other()).hasShield {
        SpliceKeepsLive(bullets, index);
        DropShield(scorer.Other());
        bullets := bullets[..index] + bullets[index + 1..];
      } else {
        ScorePoint(scorer, index, now);
      }
    }

    /** The unshielded branch of handleHit: the point, the spliced bullet,
        the next layout and grid, the win check and, unless the game is
        over, a new round. */
    method ScorePoint(scorer: PlayerId, index: nat, now: int)
      requires Valid() && state == Playing && index < |bullets|
      modifies this
      ensures Valid() && numPlayers == old(numPlayers)
      ensures p1.score == old(p1.score) + (if scorer == P1 then 1 else 0)
      ensures p2.score == old(p2.score) + (if scorer == P2 then 1 else 0)
      ensures layoutIndex == (old(layoutIndex) + 1) % LAYOUT_COUNT
      ensures state == GameOver ==>
                && p1 == old(p1).(score := p1.score) && p2 == old(p2).(score := p2.score)
                && bullets == old(bullets[..index] + bullets[index + 1..]) && powerUps == old(powerUps)
                && lastPowerUpSpawnTime == old(lastPowerUpSpawnTime)
      ensures state != GameOver ==>
                state == Playing && RoundReset(old(p1).(score := p1.score), old(p2).(score := p2.score), now)
    {
      SpliceKeepsLive(bullets, index);
      AddPoint(scorer);
      bullets := bullets[..index] + bullets[index + 1..];
      BuildLayout((layoutIndex + 1) % LAYOUT_COUNT);
      CheckWin();
      if state != GameOver {
        ResetRound(now);
      }
    }

    /** The shield of player `id` absorbs a hit. */
    method DropShield(id: PlayerId)
      modifies this`p1, this`p2
      ensures Of(id) == old(Of(id)).(hasShield := false) && Of(id.Other()) == old(Of(id.Other()))
      ensures ExclusiveEffects(old(Of(id))) ==> ExclusiveEffects(Of(id))
    {
      if id == P1 {
        p1 := p1.(hasShield := false);
      } else {
        p2 := p2.(hasShield := false);
      }
    }

    /** Player `id` scores a point. */
    method AddPoint(id: PlayerId)
      modifies this`p1, this`p2
      ensures p1 == old(p1).(score := old(p1.score) + (if id == P1 then 1 else 0))
      ensures p2 == old(p2).(score := old(p2.score) + (if id == P2 then 1 else 0))
    {
      if id == P1 {
        p1 := p1.(score := p1.score + 1);
      } else {
        p2 := p2.(score := p2.score + 1);
      }
    }

    /** spawnPowerUp: when due, the spawn clock restarts and one power-up of
        the rolled type appears at the first drawn spot clear of every
        barrier grown by the power-up radius. */
    method SpawnPowerUp(now: int, typeRoll: real, draws: seq<(real, real)>)
      requires 0.0 <= typeRoll < 1.0
      requires SpawnDue(now, lastPowerUpSpawnTime, |powerUps|) ==>
                 FirstClear(draws, barriers, width as real, height as real, powerUpRadius) < |draws|
      modifies this`powerUps, this`lastPowerUpSpawnTime
      ensures !old(SpawnDue(now, lastPowerUpSpawnTime, |powerUps|)) ==>
                powerUps == old(powerUps) && lastPowerUpSpawnTime == old(lastPowerUpSpawnTime)
      ensures old(SpawnDue(now, lastPowerUpSpawnTime, |powerUps|)) ==>
                && lastPowerUpSpawnTime == now
                && |old(powerUps)| < MAX_POWERUPS
                && powerUps == old(powerUps) + [PowerUp(Candidate(
                     draws[FirstClear(draws, barriers, width as real, height as real, powerUpRadius)],
                     width as real, height as real, powerUpRadius), PickType(typeRoll), now)]
    {
      if now - lastPowerUpSpawnTime < POWERUP_SPAWN_INTERVAL || |powerUps| >= MAX_POWERUPS {
        return;
      }
      lastPowerUpSpawnTime := now;
      var kind := PickType(typeRoll);
      var spot := DrawSpot(draws, barriers, width as real, height as real, powerUpRadius);
      powerUps := powerUps + [PowerUp(spot, kind, now)];
    }

    /** updatePowerUps: power-ups older than their lifespan disappear. */
    method UpdatePowerUps(now: int)
      modifies this`powerUps
      ensures powerUps == Young(old(powerUps), now)
    {
      powerUps := Young(powerUps, now);
    }

    /** checkPowerUpCollisions on the game's tanks and power-ups. */
    method CheckPowerUpCollisions(now: int)
      modifies this`p1, this`p2, this`powerUps
      ensures powerUps == Unclaimed(Terrain(), powerUpRadius, old(powerUps), old(p1.pos), old(p2.pos))
      ensures p1 == Collected(old(p1), P1, Terrain(), powerUpRadius, old(powerUps), old(p1.pos), old(p2.pos), now)
      ensures p2 == Collected(old(p2), P2, Terrain(), powerUpRadius, old(powerUps), old(p1.pos), old(p2.pos), now)
    {
      powerUps, p1, p2 := Pickups(powerUps, p1, p2, Terrain(), powerUpRadius, now);
    }

    /** checkTankCollisions on the game's tanks. */
    method CheckTankCollisions()
      modifies this`p1, this`p2
      ensures p1 == old(p1).(pos := PushApart(m, tankWidth, old(p1.pos), old(p2.pos)).0)
      ensures p2 == old(p2).(pos := PushApart(m, tankWidth, old(p1.pos), old(p2.pos)).1)
    {
      var r := PushApart(m, tankWidth, p1.pos, p2.pos);
      p1 := p1.(pos := r.0);
      p2 := p2.(pos := r.1);
    }

    /** updateBullets: every bullet steps, from the last to the first, until
        one hits a tank; that hit, the last hitting bullet of the list, is
        then handled. Without a hit only the bullets change. */
    method UpdateBullets(now: int)
      requires Valid() && state == Playing
      modifies this
      ensures Valid() && numPlayers == old(numPlayers)
      ensures old(p1.score) <= p1.score && old(p2.score) <= p2.score
      ensures p1.score + p2.score <= old(p1.score + p2.score) + 1
      ensures var fs := Fates(old(bullets), old(Terrain()), old(p1.pos), old(p2.pos));
              NoHits(fs) ==>
                && bullets == Survivors(fs) && p1 == old(p1) && p2 == old(p2) && powerUps == old(powerUps)
                && state == Playing && layoutIndex == old(layoutIndex)
                && lastPowerUpSpawnTime == old(lastPowerUpSpawnTime)
      ensures var fs := Fates(old(bullets), old(Terrain()), old(p1.pos), old(p2.pos));
              !NoHits(fs) ==>
                var i := LastHit(fs);
                Handled(old(p1), old(p2), old(bullets)[..i] + [fs[i].b] + Survivors(fs[i + 1..]), old(powerUps),
                        old(layoutIndex), old(lastPowerUpSpawnTime), fs[i].scorer, i, now)
    {
      var f := Terrain();
      var out, hit := AdvanceBullets(bullets, f, p1.pos, p2.pos);
      SweepKeepsLive(bullets, f, p1.pos, p2.pos, out, hit);
      bullets := out;
      if hit.Some? {
        HandleHit(hit.value.scorer, hit.value.index, now);
      }
    }

    /** A freshly fired bullet joins the bullets in flight. */
    method AddShot(shot: Option<Bullet>)
      requires AllLive(bullets)
      requires shot.Some? ==> shot.value.bounces == 0 && shot.value.trail == []
      modifies this`bullets
      ensures AllLive(bullets)
      ensures bullets == old(bullets) + (if shot.Some? then [shot.value] else [])
      ensures shot.None? ==> bullets == old(bullets)
      ensures shot.Some? ==> |bullets| == |old(bullets)| + 1 && bullets[..|old(bullets)|] == old(bullets) &&
                             bullets[|old(bullets)|] == shot.value
    {
      if shot.Some? {
        AllLiveConcat(bullets, [shot.value]);
        bullets := bullets + [shot.value];
      }
    }

    /** The power-up part of a tick: spawn when due, then drop the expired. */
    method StepPowerUps(now: int, typeRoll: real, draws: seq<(real, real)>)
      requires Valid() && 0.0 <= typeRoll < 1.0
      requires SpawnDue(now, lastPowerUpSpawnTime, |powerUps|) ==>
                 FirstClear(draws, barriers, width as real, height as real, powerUpRadius) < |draws|
      modifies this`powerUps, this`lastPowerUpSpawnTime
      ensures Valid()
    {
      SpawnPowerUp(now, typeRoll, draws);
      UpdatePowerUps(now);
    }

    /** Player 1's step of a tick, its shot joining the bullets in flight. */
    method StepPlayer1(now: int)
      requires Valid()
      modifies this`p1, this`bullets
      ensures Valid() && p1.score == old(p1.score)
      ensures |bullets| != |old(bullets)| <==> old(p1).keys.fire && CooledDown(ExpireEffect(old(p1), now), now)
      ensures |bullets| == |old(bullets)| ==> bullets == old(bullets) && p1 == Moved(old(p1), now, Terrain())
      ensures |bullets| != |old(bullets)| ==>
                && |bullets| == |old(bullets)| + 1 && bullets[..|old(bullets)|] == old(bullets)
                && (p1, bullets[|old(bullets)|]) == FireShot(Moved(old(p1), now, Terrain()), P1, now, Terrain())
    {
      var shot;
      p1, shot := UpdateTank(p1, P1, now, Terrain());
      AddShot(shot);
    }

    /** Player 2's step of a tick: the AI in a one-player game, the keyboard
        otherwise; its shot joins the bullets in flight. */
    method StepPlayer2(now: int, rolls: Rolls)
      requires Valid()
      modifies this`p2, this`bullets
      ensures Valid() && p2.score == old(p2.score)
      ensures bullets == old(bullets) ||
              (|bullets| == |old(bullets)| + 1 && bullets[..|old(bullets)|] == old(bullets) &&
               bullets[|old(bullets)|].owner == P2 && p2.lastShotTime == now)
      ensures numPlayers == 1 ==> p2.evasion == EvasionAfter(old(p2), P2, Terrain(), old(bullets), rolls.dodge)
      ensures numPlayers != 1 ==>
                (|bullets| != |old(bullets)| <==> old(p2).keys.fire && CooledDown(ExpireEffect(old(p2), now), now))
      ensures numPlayers != 1 && |bullets| == |old(bullets)| ==> p2 == Moved(old(p2), now, Terrain())
      ensures numPlayers != 1 && |bullets| != |old(bullets)| ==>
                (p2, bullets[|old(bullets)|]) == FireShot(Moved(old(p2), now, Terrain()), P2, now, Terrain())
    {
      var shot;
      p2, shot := Player2Turn(now, rolls);
      AddShot(shot);
    }

    /** Player 2's tank after its step, and the shot it fires: the AI in a
        one-player game, the keyboard otherwise. */
    method Player2Turn(now: int, rolls: Rolls) returns (t: Tank, shot: Option<Bullet>)
      requires Valid()
      ensures t.score == p2.score && ExclusiveEffects(t)
      ensures shot.Some? ==> shot.value.owner == P2 && shot.value.bounces == 0 && shot.value.trail == [] &&
                             t.lastShotTime == now
      ensures numPlayers == 1 ==> t.evasion == EvasionAfter(p2, P2, Terrain(), bullets, rolls.dodge)
      ensures numPlayers != 1 ==> (shot.Some? <==> p2.keys.fire && CooledDown(ExpireEffect(p2, now), now))
      ensures numPlayers != 1 && shot.None? ==> t == Moved(p2, now, Terrain())
      ensures numPlayers != 1 && shot.Some? ==> (t, shot.value) == FireShot(Moved(p2, now, Terrain()), P2, now, Terrain())
    {
      if numPlayers == 1 {
        t, shot := UpdateAITank(p2, P2, p1, bullets, powerUps, grid, Terrain(), now, rolls);
      } else {
        t, shot := UpdateTank(p2, P2, now, Terrain());
      }
    }

    /** Both tanks' steps of a tick, player 1 first. */
    method StepTanks(now: int, rolls: Rolls)
      requires Valid()
      modifies this`p1, this`p2, this`bullets
      ensures Valid() && p1.score == old(p1.score) && p2.score == old(p2.score)
    {
      StepPlayer1(now);
      StepPlayer2(now, rolls);
    }

    /** The second half of a tick: the bullets step and a hit is handled;
        then, if play goes on or not, the tanks are settled. */
    method Resolve(now: int)
      requires Valid() && state == Playing
      modifies this
      ensures Valid() && numPlayers == old(numPlayers)
      ensures old(p1.score) <= p1.score && old(p2.score) <= p2.score
      ensures p1.score + p2.score <= old(p1.score + p2.score) + 1
    {
      UpdateBullets(now);
      Settle(now);
    }

    /** The end of a tick: the tanks are separated, then hand out power-ups. */
    method Settle(now: int)
      requires Valid()
      modifies this`p1, this`p2, this`powerUps
      ensures Valid() && p1.score == old(p1.score) && p2.score == old(p2.score)
    {
      CheckTankCollisions();
      CheckPowerUpCollisions(now);
    }

    /** update: one tick while playing, in the game's order: spawn and age
        power-ups, step player 1, step player 2, step the bullets, separate
        the tanks, hand out power-ups. At most one
        point is scored per tick. */
    method Update(now: int, rolls: Rolls, typeRoll: real, draws: seq<(real, real)>)
      requires Valid() && 0.0 <= typeRoll < 1.0
      requires SpawnDue(now, lastPowerUpSpawnTime, |powerUps|) ==>
                 FirstClear(draws, barriers, width as real, height as real, powerUpRadius) < |draws|
      modifies this
      ensures Valid() && numPlayers == old(numPlayers)
      ensures old(state) != Playing ==> unchanged(this)
      ensures old(p1.score) <= p1.score && old(p2.score) <= p2.score
      ensures p1.score + p2.score <= old(p1.score + p2.score) + 1
    {
      if state != Playing {
        return;
      }
      StepPowerUps(now, typeRoll, draws);
      StepTanks(now, rolls);
      Resolve(now);
    }
  }
}
