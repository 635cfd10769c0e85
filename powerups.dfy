/** The power-up lifecycle around collectPowerUp: where a new power-up may be
    placed (the rejection loop of spawnPowerUp over a run of random draws)
    and the pickup sweep of checkPowerUpCollisions. */
module PowerUps {
  import opened Common
  import opened Geometry
  import opened Entities

  /** A spot is blocked when it lies strictly inside some barrier grown by
      the power-up radius on every side. */
  predicate Blocked(p: Point, barriers: seq<Rect>, radius: real)
  {
    exists i :: 0 <= i < |barriers| && Inside(p, Grow(barriers[i], radius))
  }

  /** One candidate of spawnPowerUp: each coordinate is the radius plus a roll
      in [0, 1] of the span left between the two margins. */
  function Candidate(draw: (real, real), width: real, height: real, radius: real): (p: Point)
    ensures 0.0 <= draw.0 <= 1.0 && 2.0 * radius <= width ==> radius <= p.x <= width - radius
    ensures 0.0 <= draw.1 <= 1.0 && 2.0 * radius <= height ==> radius <= p.y <= height - radius
  {
    var spanX := width - radius * 2.0;
    var spanY := height - radius * 2.0;
    assert 0.0 <= draw.0 <= 1.0 && spanX >= 0.0 ==> 0.0 <= draw.0 * spanX <= spanX by {
      if 0.0 <= draw.0 <= 1.0 && spanX >= 0.0 {
        assert draw.0 * spanX <= 1.0 * spanX;
      }
    }
    assert 0.0 <= draw.1 <= 1.0 && spanY >= 0.0 ==> 0.0 <= draw.1 * spanY <= spanY by {
      if 0.0 <= draw.1 <= 1.0 && spanY >= 0.0 {
        assert draw.1 * spanY <= 1.0 * spanY;
      }
    }
    Point(radius + draw.0 * spanX, radius + draw.1 * spanY)
  }

  /** The index of the first draw whose candidate is not blocked, or |draws|
      when every candidate is blocked. */
  function FirstClear(draws: seq<(real, real)>, barriers: seq<Rect>, width: real, height: real, radius: real): (k: nat)
    ensures k <= |draws|
    ensures k < |draws| ==> !Blocked(Candidate(draws[k], width, height, radius), barriers, radius)
    ensures forall j :: 0 <= j < k ==> Blocked(Candidate(draws[j], width, height, radius), barriers, radius)
  {
    if draws == [] then 0
    else if !Blocked(Candidate(draws[0], width, height, radius), barriers, radius) then 0
    else
      var k := FirstClear(draws[1..], barriers, width, height, radius);
      assert forall j :: 1 <= j < k + 1 ==> draws[j] == draws[1..][j - 1];
      k + 1
  }

  /** spawnPowerUp's do/while: draw a candidate, scan the barriers and stop at
      the first one whose grown rectangle holds it, and draw again while one
      did. The draws are the successive random pairs; the loop ends on the
      first clear candidate, which the caller guarantees exists. */
  method DrawSpot(draws: seq<(real, real)>, barriers: seq<Rect>, width: real, height: real, radius: real)
    returns (spot: Point)
    requires FirstClear(draws, barriers, width, height, radius) < |draws|
    ensures spot == Candidate(draws[FirstClear(draws, barriers, width, height, radius)], width, height, radius)
    ensures !Blocked(spot, barriers, radius)
  {
    ghost var first := FirstClear(draws, barriers, width, height, radius);
    var attempt := 0;
    var colliding := true;
    spot := Point(0.0, 0.0);
    while colliding
      invariant colliding ==> attempt <= first
      invariant colliding ==> forall j :: 0 <= j < attempt ==> Blocked(Candidate(draws[j], width, height, radius), barriers, radius)
      invariant !colliding ==> attempt == first + 1 && spot == Candidate(draws[first], width, height, radius)
      decreases first + 1 - attempt
    {
      spot := Candidate(draws[attempt], width, height, radius);
      colliding := false;
      var i := 0;
      while i < |barriers|
        invariant 0 <= i <= |barriers|
        invariant !colliding ==> forall j :: 0 <= j < i ==> !Inside(spot, Grow(barriers[j], radius))
        invariant colliding ==> Blocked(spot, barriers, radius)
      {
        var b := barriers[i];
        if spot.x > b.x - radius && spot.x < b.x + b.width + radius &&
           spot.y > b.y - radius && spot.y < b.y + b.height + radius {
          colliding := true;
          break;
        }
        i := i + 1;
      }
      attempt := attempt + 1;
    }
  }

  // ---------------------------------------------------------------------------
  // Pickups
  // ---------------------------------------------------------------------------

  /** Who takes a power-up: player 1 when it touches player 1, otherwise
      player 2 when it touches player 2. */
  function Claimant(f: Field, radius: real, p: PowerUp, at1: Point, at2: Point): Option<PlayerId>
  {
    if IsColliding(f.m, p.pos, at1, f.tankWidth, radius) then Some(P1)
    else if IsColliding(f.m, p.pos, at2, f.tankWidth, radius) then Some(P2)
    else None
  }

  /** The power-ups nobody takes, in their original order. */
  function Unclaimed(f: Field, radius: real, ps: seq<PowerUp>, at1: Point, at2: Point): (r: seq<PowerUp>)
    ensures |r| <= |ps|
    ensures forall p :: p in r <==> p in ps && Claimant(f, radius, p, at1, at2).None?
  {
    if ps == [] then []
    else (if Claimant(f, radius, ps[0], at1, at2).None? then [ps[0]] else []) + Unclaimed(f, radius, ps[1..], at1, at2)
  }

  /** A tank after taking, from the last power-up to the first, every
      power-up that goes to `who`. Only its power-up state changes. */
  function Collected(t: Tank, who: PlayerId, f: Field, radius: real, ps: seq<PowerUp>, at1: Point, at2: Point, now: int)
    : (r: Tank)
    ensures r == t.(effect := r.effect, hasShield := r.hasShield, nextShotPiercing := r.nextShotPiercing)
    ensures ExclusiveEffects(t) ==> ExclusiveEffects(r)
  {
    if ps == [] then t
    else
      var rest := Collected(t, who, f, radius, ps[1..], at1, at2, now);
      if Claimant(f, radius, ps[0], at1, at2) == Some(who) then Collect(rest, ps[0].kind, now) else rest
  }

  /** The index of the first power-up that goes to `who`. */
  function FirstClaimed(who: PlayerId, f: Field, radius: real, ps: seq<PowerUp>, at1: Point, at2: Point): (r: Option<nat>)
    ensures r.Some? ==> r.value < |ps| && Claimant(f, radius, ps[r.value], at1, at2) == Some(who)
    ensures r.Some? ==> forall j :: 0 <= j < r.value ==> Claimant(f, radius, ps[j], at1, at2) != Some(who)
    ensures r.None? ==> forall j :: 0 <= j < |ps| ==> Claimant(f, radius, ps[j], at1, at2) != Some(who)
  {
    if ps == [] then None
    else if Claimant(f, radius, ps[0], at1, at2) == Some(who) then Some(0)
    else
      var r := FirstClaimed(who, f, radius, ps[1..], at1, at2);
      assert forall j :: 1 <= j < |ps| ==> ps[j] == ps[1..][j - 1];
      if r.Some? then Some(r.value + 1) else None
  }

  /** Because the sweep runs from the end and a pickup replaces all earlier
      power-up state, a tank ends up with exactly the effect of the first
      power-up in the list that goes to it, or unchanged when none does. */
  lemma {:induction false} FirstPickupWins(t: Tank, who: PlayerId, f: Field, radius: real, ps: seq<PowerUp>,
                                           at1: Point, at2: Point, now: int)
    ensures var first := FirstClaimed(who, f, radius, ps, at1, at2);
            Collected(t, who, f, radius, ps, at1, at2, now) ==
              if first.None? then t else Collect(t, ps[first.value].kind, now)
  {
    if ps != [] {
      FirstPickupWins(t, who, f, radius, ps[1..], at1, at2, now);
      var rest := FirstClaimed(who, f, radius, ps[1..], at1, at2);
      if Claimant(f, radius, ps[0], at1, at2) == Some(who) && rest.Some? {
        CollectOverrides(t, ps[1..][rest.value].kind, ps[0].kind, now, now);
      }
    }
  }

  /** The sweep unrolled at position i. */
  lemma PickupsAt(t: Tank, who: PlayerId, f: Field, radius: real, ps: seq<PowerUp>, at1: Point, at2: Point, now: int, i: nat)
    requires i < |ps|
    ensures Unclaimed(f, radius, ps[i..], at1, at2) ==
              (if Claimant(f, radius, ps[i], at1, at2).None? then [ps[i]] else []) + Unclaimed(f, radius, ps[i + 1..], at1, at2)
    ensures Collected(t, who, f, radius, ps[i..], at1, at2, now) ==
              var rest := Collected(t, who, f, radius, ps[i + 1..], at1, at2, now);
              if Claimant(f, radius, ps[i], at1, at2) == Some(who) then Collect(rest, ps[i].kind, now) else rest
  {
    assert ps[i..][0] == ps[i] && ps[i..][1..] == ps[i + 1..];
  }

  /** The list after the scan of entry `i`, with the entry taken out or kept. */
  lemma Splice(ps: seq<PowerUp>, i: nat, rest: seq<PowerUp>, left: seq<PowerUp>)
    requires i < |ps| && left == ps[..i + 1] + rest
    ensures left[i] == ps[i] && left[..i] + left[i + 1..] == ps[..i] + rest
    ensures left == ps[..i] + ([ps[i]] + rest)
  {
    assert ps[..i + 1] == ps[..i] + [ps[i]];
    assert left[..i] == ps[..i] && left[i + 1..] == rest;
  }

  /** One pass of checkPowerUpCollisions' loop at index i: the power-up there
      goes to player 1 if it touches player 1, else to player 2 if it touches
      player 2, and is spliced out when taken. */
  method PickOne(ps: seq<PowerUp>, t1: Tank, t2: Tank, f: Field, radius: real, now: int, i: nat,
                 left: seq<PowerUp>, r1: Tank, r2: Tank)
    returns (left': seq<PowerUp>, r1': Tank, r2': Tank)
    requires i < |ps|
    requires left == ps[..i + 1] + Unclaimed(f, radius, ps[i + 1..], t1.pos, t2.pos)
    requires r1 == Collected(t1, P1, f, radius, ps[i + 1..], t1.pos, t2.pos, now)
    requires r2 == Collected(t2, P2, f, radius, ps[i + 1..], t1.pos, t2.pos, now)
    ensures left' == ps[..i] + Unclaimed(f, radius, ps[i..], t1.pos, t2.pos)
    ensures r1' == Collected(t1, P1, f, radius, ps[i..], t1.pos, t2.pos, now)
    ensures r2' == Collected(t2, P2, f, radius, ps[i..], t1.pos, t2.pos, now)
  {
    PickupsAt(t1, P1, f, radius, ps, t1.pos, t2.pos, now, i);
    PickupsAt(t2, P2, f, radius, ps, t1.pos, t2.pos, now, i);
    Splice(ps, i, Unclaimed(f, radius, ps[i + 1..], t1.pos, t2.pos), left);
    left', r1', r2' := left, r1, r2;
    var p := left[i];
    if IsColliding(f.m, p.pos, r1.pos, f.tankWidth, radius) {
      r1' := Collect(r1, p.kind, now);
      left' := left[..i] + left[i + 1..];
    } else if IsColliding(f.m, p.pos, r2.pos, f.tankWidth, radius) {
      r2' := Collect(r2, p.kind, now);
      left' := left[..i] + left[i + 1..];
    }
  }

  /** checkPowerUpCollisions: the power-ups are visited from the last to the
      first; one touching player 1 goes to player 1, otherwise one touching
      player 2 goes to player 2, and a taken power-up is spliced out. */
  method Pickups(ps: seq<PowerUp>, t1: Tank, t2: Tank, f: Field, radius: real, now: int)
    returns (left: seq<PowerUp>, r1: Tank, r2: Tank)
    ensures left == Unclaimed(f, radius, ps, t1.pos, t2.pos)
    ensures r1 == Collected(t1, P1, f, radius, ps, t1.pos, t2.pos, now)
    ensures r2 == Collected(t2, P2, f, radius, ps, t1.pos, t2.pos, now)
  {
    left, r1, r2 := ps, t1, t2;
    var i := |ps|;
    assert ps[..i] == ps && ps[i..] == [];
    while i > 0
      invariant 0 <= i <= |ps|
      invariant left == ps[..i] + Unclaimed(f, radius, ps[i..], t1.pos, t2.pos)
      invariant r1 == Collected(t1, P1, f, radius, ps[i..], t1.pos, t2.pos, now)
      invariant r2 == Collected(t2, P2, f, radius, ps[i..], t1.pos, t2.pos, now)
    {
      i := i - 1;
      left, r1, r2 := PickOne(ps, t1, t2, f, radius, now, i, left, r1, r2);
    }
    assert ps[0..] == ps;
  }
}
