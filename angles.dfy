/** Heading arithmetic: the angle-difference wrapping loops and the clamped
    turn step shared by the joystick path and the AI. */
module Angles {
  import opened Common

  /** Math.PI, the double closest to pi, as an exact real. */
  const PI: real := 3.141592653589793
  const TWO_PI: real := 2.0 * PI
  const TANK_TURN_SPEED: real := 0.04

  /** The first wrapping loop, `while (d > PI) d -= 2 * PI`, as a function. */
  function WrapDown(d: real): (r: real)
    ensures r <= PI
    ensures d <= PI ==> r == d
    ensures d > PI ==> r > -PI
    decreases if d > PI then (d / TWO_PI).Floor + 1 else 0
  {
    if d > PI then WrapDown(d - TWO_PI) else d
  }

  /** The second wrapping loop, `while (d < -PI) d += 2 * PI`. */
  function WrapUp(d: real): (r: real)
    ensures r >= -PI
    ensures d >= -PI ==> r == d
    ensures d < -PI ==> r < PI
    decreases if d < -PI then (-d / TWO_PI).Floor + 1 else 0
  {
    if d < -PI then WrapUp(d + TWO_PI) else d
  }

  /** An angle difference brought into [-PI, PI] by the two loops in turn. */
  function Wrap(d: real): (r: real)
    ensures -PI <= r <= PI
    ensures -PI <= d <= PI ==> r == d
  {
    WrapUp(WrapDown(d))
  }

  /** How many whole turns the wrapping removes. */
  function WrapTurns(d: real): int
    decreases if d > PI then (d / TWO_PI).Floor + 1 else if d < -PI then (-d / TWO_PI).Floor + 1 else 0
  {
    if d > PI then WrapTurns(d - TWO_PI) + 1
    else if d < -PI then WrapTurns(d + TWO_PI) - 1
    else 0
  }

  /** Wrapping changes a difference by whole turns only, so it still names the
      same direction. */
  lemma {:induction false} WrapIsWholeTurns(d: real)
    ensures Wrap(d) == d - TWO_PI * (WrapTurns(d) as real)
    decreases if d > PI then (d / TWO_PI).Floor + 1 else if d < -PI then (-d / TWO_PI).Floor + 1 else 0
  {
    if d > PI {
      WrapIsWholeTurns(d - TWO_PI);
    } else if d < -PI {
      WrapUpIsWholeTurns(d);
    }
  }

  lemma {:induction false} WrapUpIsWholeTurns(d: real)
    requires d <= PI
    ensures WrapUp(d) == d - TWO_PI * (WrapTurns(d) as real)
    decreases if d < -PI then (-d / TWO_PI).Floor + 1 else 0
  {
    if d < -PI {
      WrapUpIsWholeTurns(d + TWO_PI);
    }
  }

  /** Taking a whole turn off an angle lowers its turn count by one. */
  lemma TurnCountShift(r: real)
    ensures ((r - TWO_PI) / TWO_PI).Floor == (r / TWO_PI).Floor - 1
  {
    assert (r - TWO_PI) / TWO_PI == r / TWO_PI - 1.0;
  }

  /** The two while loops exactly as the game runs them. */
  method WrapAngle(d: real) returns (r: real)
    ensures r == Wrap(d)
    ensures -PI <= r <= PI
  {
    r := d;
    while r > PI
      invariant WrapDown(r) == WrapDown(d)
      decreases (r / TWO_PI).Floor
    {
      TurnCountShift(r);
      r := r - TWO_PI;
    }
    while r < -PI
      invariant r <= PI
      invariant WrapUp(r) == Wrap(d)
      decreases (-r / TWO_PI).Floor
    {
      TurnCountShift(-r);
      r := r + TWO_PI;
    }
  }

  /** `Math.sign(diff) * Math.min(Math.abs(diff), TANK_TURN_SPEED)`: the turn
      applied in one tick towards a wrapped difference. */
  function TurnStep(diff: real): (s: real)
    ensures Abs(s) <= TANK_TURN_SPEED && Abs(s) <= Abs(diff)
    ensures (s > 0.0 <==> diff > 0.0) && (s < 0.0 <==> diff < 0.0)
    ensures Abs(diff) <= TANK_TURN_SPEED ==> s == diff
    ensures Abs(diff) >= TANK_TURN_SPEED ==> Abs(s) == TANK_TURN_SPEED
    ensures Abs(diff - s) == Abs(diff) - Abs(s)
  {
    Sign(diff) * Min(Abs(diff), TANK_TURN_SPEED)
  }
}
