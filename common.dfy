/** Shared building blocks: an option type, the Math.min/Math.max/clamp idiom the
    game uses everywhere, and the platform maths the simulation calls but that is
    not modelled (trigonometry and square roots). */
module Common {

  datatype Option<+T> = None | Some(value: T)

  /** Math.min on two numbers. */
  function Min(a: real, b: real): (r: real)
    ensures r <= a && r <= b
    ensures r == a || r == b
  {
    if a <= b then a else b
  }

  /** Math.max on two numbers. */
  function Max(a: real, b: real): (r: real)
    ensures r >= a && r >= b
    ensures r == a || r == b
  {
    if a >= b then a else b
  }

  function Abs(x: real): (r: real)
    ensures r >= 0.0
    ensures r == x || r == -x
  {
    if x < 0.0 then -x else x
  }

  /** Math.sign on a non-NaN number. */
  function Sign(x: real): real
  {
    if x > 0.0 then 1.0 else if x < 0.0 then -1.0 else 0.0
  }

  /** The `Math.max(lo, Math.min(hi, v))` clamp used for tanks, bullets and
      predicted positions. When the interval is empty the lower bound wins. */
  function Clamp(v: real, lo: real, hi: real): (r: real)
    ensures lo <= hi ==> lo <= r <= hi
    ensures lo <= v <= hi ==> r == v
    ensures hi < lo ==> r == lo
    ensures lo <= hi && v < lo ==> r == lo
    ensures lo <= hi && hi < v ==> r == hi
  {
    Max(lo, Min(hi, v))
  }

  /** The floating-point library functions the game calls (Math.cos, Math.sin,
      Math.atan2, Math.hypot). They are abstract: the model never relies on
      their values, only passes them along where the game uses them. */
  datatype Platform = Platform(
    cos: real -> real,
    sin: real -> real,
    atan2: (real, real) -> real,
    hypot: (real, real) -> real)
}
