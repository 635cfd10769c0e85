/** The bullet lifecycle of one tick: the trail, the move, the wall and barrier
    bounce rules with piercing and removal on the second bounce, and the sweep
    over all bullets from the last to the first that stops at the first hit. */
module Bullets {
  import opened Common
  import opened Geometry
  import opened Angles
  import opened Entities

  /** A bullet that can still be on the field: bounced at most once, and a
      trail of at most TRAIL_LENGTH points. */
  predicate Live(b: Bullet)
  {
    b.bounces <= 1 && |b.trail| <= TRAIL_LENGTH
  }

  predicate AllLive(bs: seq<Bullet>)
  {
    forall i :: 0 <= i < |bs| ==> Live(bs[i])
  }

  /** trail.push(p), then shift() when the trail is over TRAIL_LENGTH: the
      newest points, at most TRAIL_LENGTH of them, ending with `p`. */
  function PushTrail(trail: seq<Point>, p: Point): (r: seq<Point>)
    ensures |trail| < TRAIL_LENGTH ==> r == trail + [p]
    ensures |trail| <= TRAIL_LENGTH ==> |r| == if |trail| < TRAIL_LENGTH then |trail| + 1 else TRAIL_LENGTH
    ensures |r| > 0 && r[|r| - 1] == p
    ensures |r| <= |trail| + 1 && r == (trail + [p])[|trail| + 1 - |r|..]
  {
    var pushed := trail + [p];
    if |pushed| > TRAIL_LENGTH then pushed[1..] else pushed
  }

  /** The move of one tick: the old position joins the trail and the bullet
      travels BULLET_SPEED along its heading. */
  function Move(b: Bullet, f: Field): (r: Bullet)
    ensures r.trail == PushTrail(b.trail, b.pos)
    ensures r == b.(pos := r.pos, trail := r.trail)
  {
    b.(trail := PushTrail(b.trail, b.pos),
       pos := Point(b.pos.x + f.m.cos(b.angle) * BULLET_SPEED, b.pos.y + f.m.sin(b.angle) * BULLET_SPEED))
  }

  predicate HitsSideWall(b: Bullet, f: Field)
  {
    b.pos.x < BULLET_SIZE || b.pos.x > f.width - BULLET_SIZE
  }

  predicate HitsTopOrBottom(b: Bullet, f: Field)
  {
    b.pos.y < BULLET_SIZE || b.pos.y > f.height - BULLET_SIZE
  }

  /** The wall part of the bounce: a side wall mirrors the heading to PI - a
      and clamps x, a top or bottom wall negates it and clamps y. */
  function WallBounce(b: Bullet, f: Field): (r: Bullet)
    ensures r == b.(pos := r.pos, angle := r.angle)
    ensures !HitsSideWall(b, f) && !HitsTopOrBottom(b, f) ==> r == b
    ensures HitsSideWall(b, f) && f.width >= 2.0 * BULLET_SIZE ==> BULLET_SIZE <= r.pos.x <= f.width - BULLET_SIZE
    ensures HitsTopOrBottom(b, f) && f.height >= 2.0 * BULLET_SIZE ==> BULLET_SIZE <= r.pos.y <= f.height - BULLET_SIZE
    ensures !HitsSideWall(b, f) ==> r.pos.x == b.pos.x
    ensures !HitsTopOrBottom(b, f) ==> r.pos.y == b.pos.y
  {
    var b1 := if HitsSideWall(b, f)
      then b.(angle := PI - b.angle, pos := b.pos.(x := Clamp(b.pos.x, BULLET_SIZE, f.width - BULLET_SIZE)))
      else b;
    if HitsTopOrBottom(b, f)
    then b1.(angle := -b1.angle, pos := b1.pos.(y := Clamp(b1.pos.y, BULLET_SIZE, f.height - BULLET_SIZE)))
    else b1
  }

  /** The first barrier, from index `k` on, that strictly contains `p`. */
  function FirstBarrierFrom(p: Point, barriers: seq<Rect>, k: nat): (r: Option<nat>)
    requires k <= |barriers|
    ensures r.None? <==> forall j :: k <= j < |barriers| ==> !Inside(p, barriers[j])
    ensures r.Some? ==> k <= r.value < |barriers| && Inside(p, barriers[r.value])
    ensures r.Some? ==> forall j :: k <= j < r.value ==> !Inside(p, barriers[j])
    decreases |barriers| - k
  {
    if k == |barriers| then None
    else if Inside(p, barriers[k]) then Some(k)
    else FirstBarrierFrom(p, barriers, k + 1)
  }

  /** The reflection off barrier `r`: step back to the previous x; if that x is
      outside the barrier's horizontal extent the bullet came through a side
      (heading PI - a), otherwise through the top or bottom (heading -a). */
  function BarrierBounce(b: Bullet, r: Rect, f: Field): (c: Bullet)
    ensures c == b.(pos := c.pos, angle := c.angle)
    ensures c.pos.y == b.pos.y
  {
    var prevX := b.pos.x - f.m.cos(b.angle) * BULLET_SPEED;
    var angle := if prevX <= r.x || prevX >= r.x + r.width then PI - b.angle else -b.angle;
    b.(angle := angle, pos := b.pos.(x := prevX))
  }

  /** checkBulletWallAndBarrierCollision, as a function: the bullet after the
      check and whether it is to be removed. */
  function Bounce(b: Bullet, f: Field): (r: (Bullet, bool))
    ensures r.0.owner == b.owner && r.0.trail == b.trail
  {
    var wall := HitsSideWall(b, f) || HitsTopOrBottom(b, f);
    var b1 := WallBounce(b, f);
    var hit := if wall then None else FirstBarrierFrom(b1.pos, f.barriers, 0);
    var b2 :=
      if hit.None? then b1
      else if b1.isPiercing then b1.(isPiercing := false)
      else BarrierBounce(b1, f.barriers[hit.value], f);
    var bounced := wall || (hit.Some? && !b1.isPiercing);
    if !bounced then (b2, false)
    else if b.bounces > 0 then (b2, true)
    else (b2.(bounces := b.bounces + 1), false)
  }

  /** The bullet is removed exactly when it bounces for the second time; a
      live bullet that is kept is still live. */
  lemma BounceRemovesOnSecondBounce(b: Bullet, f: Field)
    ensures Bounce(b, f).1 <==> b.bounces > 0 && Bounced(b, f)
    ensures !Bounce(b, f).1 ==> Bounce(b, f).0.bounces == b.bounces + (if Bounced(b, f) then 1 else 0)
    ensures Live(b) && !Bounce(b, f).1 ==> Live(Bounce(b, f).0)
  {
  }

  /** Whether the check counts a bounce: a wall, or a barrier met without a
      piercing charge. */
  predicate Bounced(b: Bullet, f: Field)
  {
    HitsSideWall(b, f) || HitsTopOrBottom(b, f) ||
    (InsideAny(b.pos, f.barriers) && !b.isPiercing)
  }

  /** The barriers are not consulted once a wall was hit, and hitting a side
      wall and the top or bottom at once is one bounce, reversing the heading. */
  lemma WallBounceIgnoresBarriers(b: Bullet, f: Field)
    requires HitsSideWall(b, f) || HitsTopOrBottom(b, f)
    ensures Bounce(b, f) == Bounce(b, f.(barriers := []))
    ensures HitsSideWall(b, f) && HitsTopOrBottom(b, f) && b.bounces == 0 ==>
              !Bounce(b, f).1 && Bounce(b, f).0.bounces == 1 && Bounce(b, f).0.angle == b.angle - PI
  {
  }

  /** A piercing bullet inside a barrier (and clear of the walls) only loses
      its piercing charge: no bounce, no turn, no removal. */
  lemma PiercingPassesOnce(b: Bullet, f: Field)
    requires !HitsSideWall(b, f) && !HitsTopOrBottom(b, f)
    requires InsideAny(b.pos, f.barriers) && b.isPiercing
    ensures Bounce(b, f) == (b.(isPiercing := false), false)
  {
    var k := FirstBarrierFrom(b.pos, f.barriers, 0);
  }

  /** checkBulletWallAndBarrierCollision as the game runs it: the two wall
      tests, then (only without a wall bounce) the scan over the barriers that
      stops at the first one containing the bullet. */
  method CheckBulletWallAndBarrierCollision(b: Bullet, f: Field) returns (c: Bullet, remove: bool)
    ensures (c, remove) == Bounce(b, f)
  {
    var bounced := false;
    c := b;
    if c.pos.x < BULLET_SIZE || c.pos.x > f.width - BULLET_SIZE {
      c := c.(angle := PI - c.angle, pos := c.pos.(x := Max(BULLET_SIZE, Min(f.width - BULLET_SIZE, c.pos.x))));
      bounced := true;
    }
    if c.pos.y < BULLET_SIZE || c.pos.y > f.height - BULLET_SIZE {
      c := c.(angle := -c.angle, pos := c.pos.(y := Max(BULLET_SIZE, Min(f.height - BULLET_SIZE, c.pos.y))));
      bounced := true;
    }
    assert c == WallBounce(b, f);
    if !bounced {
      var k := 0;
      while k < |f.barriers|
        invariant 0 <= k <= |f.barriers|
        invariant c == b && !bounced
        invariant FirstBarrierFrom(b.pos, f.barriers, 0) == FirstBarrierFrom(b.pos, f.barriers, k)
      {
        var barrier := f.barriers[k];
        if c.pos.x > barrier.x && c.pos.x < barrier.x + barrier.width &&
           c.pos.y > barrier.y && c.pos.y < barrier.y + barrier.height {
          if c.isPiercing {
            c := c.(isPiercing := false);
            break;
          }
          bounced := true;
          var prevX := c.pos.x - f.m.cos(c.angle) * BULLET_SPEED;
          if prevX <= barrier.x || prevX >= barrier.x + barrier.width {
            c := c.(angle := PI - c.angle);
          } else {
            c := c.(angle := -c.angle);
          }
          c := c.(pos := c.pos.(x := prevX));
          break;
        }
        k := k + 1;
      }
    }
    remove := false;
    if bounced {
      if c.bounces > 0 {
        remove := true;
        return;
      }
      c := c.(bounces := c.bounces + 1);
    }
  }

  /** What one tick does to a bullet. */
  datatype Fate = Removed | Flying(b: Bullet) | Hits(b: Bullet, scorer: PlayerId)

  /** The step of one bullet: move, bounce check, then the hit tests against
      player 1 (credited to player 2) and then player 2 (credited to player 1),
      each skipped for the tank's own bullets. */
  function Step(b: Bullet, f: Field, p1: Point, p2: Point): (r: Fate)
    ensures r.Removed? <==> Bounce(Move(b, f), f).1
    ensures !r.Removed? ==> r.b == Bounce(Move(b, f), f).0
    ensures r.Hits? ==> r.b.owner != r.scorer.Other() && r.b.owner == b.owner
    ensures r.Hits? && r.scorer == P2 ==> IsColliding(f.m, r.b.pos, p1, f.tankWidth, BULLET_SIZE)
    ensures r.Hits? && r.scorer == P1 ==> IsColliding(f.m, r.b.pos, p2, f.tankWidth, BULLET_SIZE)
    ensures !r.Removed? ==>
              (r.Hits? <==> (IsColliding(f.m, r.b.pos, p1, f.tankWidth, BULLET_SIZE) && b.owner != P1) ||
                            (IsColliding(f.m, r.b.pos, p2, f.tankWidth, BULLET_SIZE) && b.owner != P2))
    ensures r.Hits? && IsColliding(f.m, r.b.pos, p1, f.tankWidth, BULLET_SIZE) && b.owner != P1 ==> r.scorer == P2
  {
    var (c, remove) := Bounce(Move(b, f), f);
    if remove then Removed
    else if IsColliding(f.m, c.pos, p1, f.tankWidth, BULLET_SIZE) && c.owner != P1 then Hits(c, P2)
    else if IsColliding(f.m, c.pos, p2, f.tankWidth, BULLET_SIZE) && c.owner != P2 then Hits(c, P1)
    else Flying(c)
  }

  /** A live bullet that survives its step is still live. */
  lemma StepKeepsLive(b: Bullet, f: Field, p1: Point, p2: Point)
    requires Live(b)
    ensures !Step(b, f, p1, p2).Removed? ==> Live(Step(b, f, p1, p2).b)
  {
  }

  /** The fate of every bullet of the list, in list order. */
  function Fates(bs: seq<Bullet>, f: Field, p1: Point, p2: Point): (fs: seq<Fate>)
    ensures |fs| == |bs|
  {
    seq(|bs|, i requires 0 <= i < |bs| => Step(bs[i], f, p1, p2))
  }

  /** The bullets one fate leaves behind. */
  function Kept(fate: Fate): (r: seq<Bullet>)
    ensures |r| == if fate.Removed? then 0 else 1
    ensures !fate.Removed? ==> r == [fate.b]
  {
    if fate.Removed? then [] else [fate.b]
  }

  /** The bullets a run of fates keeps, in order. */
  function Survivors(fs: seq<Fate>): (r: seq<Bullet>)
  {
    if fs == [] then [] else Kept(fs[0]) + Survivors(fs[1..])
  }

  /** No bullet of the run hits a tank. */
  predicate NoHits(fs: seq<Fate>)
  {
    forall i :: 0 <= i < |fs| ==> !fs[i].Hits?
  }

  /** The highest index of a run whose bullet hits a tank: the sweep goes
      from the last bullet to the first, so this is the hit it meets. */
  function LastHit(fs: seq<Fate>): (i: nat)
    requires !NoHits(fs)
    ensures i < |fs| && fs[i].Hits? && NoHits(fs[i + 1..])
  {
    var n := |fs| - 1;
    if fs[n].Hits? then
      assert fs[n + 1..] == [];
      n
    else
      assert forall j :: 0 <= j < n ==> fs[..n][j] == fs[j];
      var i := LastHit(fs[..n]);
      assert fs[i + 1..] == fs[..n][i + 1..] + [fs[n]];
      i
  }

  /** A sweep that stops at a hit stops at the last hitting bullet. */
  lemma StoppedAtLastHit(bs: seq<Bullet>, fs: seq<Fate>, out: seq<Bullet>, h: HitReport)
    requires StoppedAt(bs, fs, out, h)
    ensures !NoHits(fs) && h.index == LastHit(fs)
  {
  }

  /** A survivor is a bullet of the run that was not removed, and no run
      gains bullets. */
  lemma {:induction false} SurvivorsCount(fs: seq<Fate>)
    ensures |Survivors(fs)| <= |fs|
    ensures (forall i :: 0 <= i < |fs| ==> !fs[i].Removed?) ==> |Survivors(fs)| == |fs|
  {
    if fs != [] {
      SurvivorsCount(fs[1..]);
    }
  }

  lemma AllLiveConcat(a: seq<Bullet>, b: seq<Bullet>)
    requires AllLive(a) && AllLive(b)
    ensures AllLive(a + b)
  {
    assert forall i :: 0 <= i < |a + b| ==> (a + b)[i] == if i < |a| then a[i] else b[i - |a|];
  }

  /** Every bullet a run of fates keeps is live. */
  predicate KeepsLive(fs: seq<Fate>)
  {
    forall i :: 0 <= i < |fs| && !fs[i].Removed? ==> Live(fs[i].b)
  }

  /** Only bullets kept live by their own step survive, so they are live. */
  lemma {:induction false} SurvivorsLive(fs: seq<Fate>)
    requires KeepsLive(fs)
    ensures AllLive(Survivors(fs))
  {
    if fs != [] {
      assert forall i :: 0 <= i < |fs[1..]| ==> fs[1..][i] == fs[i + 1];
      SurvivorsLive(fs[1..]);
      AllLiveConcat(Kept(fs[0]), Survivors(fs[1..]));
    }
  }

  /** A tick over live bullets keeps only live bullets. */
  lemma FatesLive(bs: seq<Bullet>, f: Field, p1: Point, p2: Point)
    requires AllLive(bs)
    ensures KeepsLive(Fates(bs, f, p1, p2))
  {
    var fs := Fates(bs, f, p1, p2);
    forall i | 0 <= i < |fs| && !fs[i].Removed? ensures Live(fs[i].b) {
      StepKeepsLive(bs[i], f, p1, p2);
    }
  }

  /** Live bullets stay live through a tick. */
  lemma TickKeepsLive(bs: seq<Bullet>, f: Field, p1: Point, p2: Point)
    requires AllLive(bs)
    ensures AllLive(Survivors(Fates(bs, f, p1, p2)))
  {
    FatesLive(bs, f, p1, p2);
    SurvivorsLive(Fates(bs, f, p1, p2));
  }

  /** A sweep that stops at a hit leaves live bullets when every fate keeps
      live ones: the untouched prefix, the hitting bullet and the survivors
      after it. */
  lemma StoppedKeepsLive(bs: seq<Bullet>, fs: seq<Fate>, out: seq<Bullet>, h: HitReport)
    requires AllLive(bs) && KeepsLive(fs) && StoppedAt(bs, fs, out, h)
    ensures AllLive(out)
  {
    var i := h.index;
    var rest := fs[i + 1..];
    assert forall j :: 0 <= j < |rest| ==> rest[j] == fs[i + 1 + j];
    SurvivorsLive(rest);
    assert Live(out[i]);
    assert AllLive(bs[..i]);
    AllLiveConcat(bs[..i], [out[i]]);
    AllLiveConcat(bs[..i] + [out[i]], Survivors(rest));
  }

  /** What the sweep of updateBullets leaves is live, and a reported hit
      points at a bullet of it: the last hitting bullet of the list. */
  lemma SweepKeepsLive(bs: seq<Bullet>, f: Field, p1: Point, p2: Point, out: seq<Bullet>, hit: Option<HitReport>)
    requires AllLive(bs)
    requires hit.None? ==> out == Survivors(Fates(bs, f, p1, p2))
    requires hit.Some? ==> StoppedAt(bs, Fates(bs, f, p1, p2), out, hit.value)
    ensures AllLive(out)
    ensures hit.Some? ==> hit.value.index < |out| && !NoHits(Fates(bs, f, p1, p2))
    ensures hit.Some? ==> hit.value.index == LastHit(Fates(bs, f, p1, p2))
  {
    FatesLive(bs, f, p1, p2);
    if hit.None? {
      SurvivorsLive(Fates(bs, f, p1, p2));
    } else {
      StoppedKeepsLive(bs, Fates(bs, f, p1, p2), out, hit.value);
      StoppedAtLastHit(bs, Fates(bs, f, p1, p2), out, hit.value);
    }
  }

  /** Survivors unrolled at position i. */
  lemma SurvivorsAt(fs: seq<Fate>, i: nat)
    requires i < |fs|
    ensures Survivors(fs[i..]) == Kept(fs[i]) + Survivors(fs[i + 1..])
  {
    assert fs[i..][0] == fs[i] && fs[i..][1..] == fs[i + 1..];
  }

  /** One iteration of updateBullets' loop on a single bullet: trail, move,
      bounce check, hit tests. */
  method StepBullet(b: Bullet, f: Field, p1: Point, p2: Point) returns (fate: Fate)
    ensures fate == Step(b, f, p1, p2)
  {
    var c := b;
    c := c.(trail := c.trail + [c.pos]);
    if |c.trail| > TRAIL_LENGTH {
      c := c.(trail := c.trail[1..]);
    }
    c := c.(pos := Point(c.pos.x + f.m.cos(c.angle) * BULLET_SPEED, c.pos.y + f.m.sin(c.angle) * BULLET_SPEED));
    assert c == Move(b, f);
    var remove;
    c, remove := CheckBulletWallAndBarrierCollision(c, f);
    if remove {
      return Removed;
    }
    if IsColliding(f.m, c.pos, p1, f.tankWidth, BULLET_SIZE) && c.owner != P1 {
      return Hits(c, P2);
    } else if IsColliding(f.m, c.pos, p2, f.tankWidth, BULLET_SIZE) && c.owner != P2 {
      return Hits(c, P1);
    }
    return Flying(c);
  }

  /** Which bullet hit and who scores. */
  datatype HitReport = HitReport(index: nat, scorer: PlayerId)

  /** The outcome of a sweep that stopped at a hit: the bullet at the reported
      index hit for the reported scorer, no bullet after it hit, the bullets
      after it went through their step, and the bullets before it are untouched. */
  ghost predicate StoppedAt(bs: seq<Bullet>, fs: seq<Fate>, out: seq<Bullet>, h: HitReport)
  {
    && |fs| == |bs| && h.index < |bs| && h.index < |out|
    && fs[h.index] == Hits(out[h.index], h.scorer)
    && NoHits(fs[h.index + 1..])
    && out == bs[..h.index] + [out[h.index]] + Survivors(fs[h.index + 1..])
  }

  /** One pass of updateBullets' loop body at index i: the bullet is stepped
      in place, and spliced out when the bounce check removes it. */
  method SweepAt(bs: seq<Bullet>, ghost fs: seq<Fate>, out: seq<Bullet>, i: nat, f: Field, p1: Point, p2: Point)
    returns (out': seq<Bullet>, fate: Fate)
    requires |fs| == |bs| && i < |bs| && fs[i] == Step(bs[i], f, p1, p2)
    requires out == bs[..i + 1] + Survivors(fs[i + 1..])
    ensures fate == fs[i]
    ensures out' == bs[..i] + Kept(fate) + Survivors(fs[i + 1..])
  {
    ghost var rest := Survivors(fs[i + 1..]);
    assert bs[..i + 1] == bs[..i] + [bs[i]];
    assert out[..i] == bs[..i] && out[i] == bs[i] && out[i + 1..] == rest;
    fate := StepBullet(out[i], f, p1, p2);
    if fate.Removed? {
      out' := out[..i] + out[i + 1..];
    } else {
      out' := out[..i] + [fate.b] + out[i + 1..];
    }
  }

  /** updateBullets' loop body at index i, with what it means for the loop:
      without a hit the invariant holds one index lower, with a hit the
      sweep stops there. */
  method SweepOne(bs: seq<Bullet>, ghost fs: seq<Fate>, out: seq<Bullet>, i: nat, f: Field, p1: Point, p2: Point)
    returns (out': seq<Bullet>, fate: Fate)
    requires |fs| == |bs| && i < |bs| && fs[i] == Step(bs[i], f, p1, p2)
    requires out == bs[..i + 1] + Survivors(fs[i + 1..]) && NoHits(fs[i + 1..])
    ensures fate == fs[i]
    ensures !fate.Hits? ==> out' == bs[..i] + Survivors(fs[i..]) && NoHits(fs[i..])
    ensures fate.Hits? ==> StoppedAt(bs, fs, out', HitReport(i, fate.scorer))
  {
    out', fate := SweepAt(bs, fs, out, i, f, p1, p2);
    if fate.Hits? {
      assert out'[i] == fate.b;
    } else {
      SurvivorsAt(fs, i);
      assert forall k :: 0 < k < |fs[i..]| ==> fs[i..][k] == fs[i + 1..][k - 1];
    }
  }

  /** The loop of updateBullets: bullets are stepped from the last to the
      first; removed ones are spliced out; the first hit stops the loop, so
      bullets before it are left untouched and at most one hit is reported. */
  method AdvanceBullets(bs: seq<Bullet>, f: Field, p1: Point, p2: Point)
    returns (out: seq<Bullet>, hit: Option<HitReport>)
    ensures hit.None? ==> NoHits(Fates(bs, f, p1, p2)) && out == Survivors(Fates(bs, f, p1, p2))
    ensures hit.Some? ==> StoppedAt(bs, Fates(bs, f, p1, p2), out, hit.value)
  {
    ghost var fs := Fates(bs, f, p1, p2);
    out := bs;
    var i := |bs|;
    assert bs[..i] == bs && fs[i..] == [];
    while i > 0
      invariant 0 <= i <= |bs|
      invariant out == bs[..i] + Survivors(fs[i..])
      invariant NoHits(fs[i..])
    {
      i := i - 1;
      var fate;
      out, fate := SweepOne(bs, fs, out, i, f, p1, p2);
      if fate.Hits? {
        hit := Some(HitReport(i, fate.scorer));
        return;
      }
    }
    assert fs[0..] == fs;
    hit := None;
  }
}
