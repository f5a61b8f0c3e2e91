/** Angles, the constant pi, and the transcendental functions of the host math library. */
module Trig {

  /** The double closest to pi, read as an exact real. */
  const Pi: real := 3.141592653589793
  /** Twice Pi, written out as the double the belt code's `2 * pi` evaluates to. */
  const TwoPi: real := 6.283185307179586

  lemma TwoPiIsTwicePi()
    ensures TwoPi == 2.0 * Pi
  {
  }

  /**
   * The host math library. These functions have no closed form over the rationals,
   * so the model takes them as parameters and assumes nothing about them unless a
   * lemma says so in its requires clause.
   */
  datatype MathLib = MathLib(
    hypot: (real, real) -> real,
    atan2: (real, real) -> real,
    sqrt: real -> real,
    asin: real -> real,
    cos: real -> real,
    sin: real -> real)

  /** Floored modulo by 2*pi, the behaviour of a float `%` with a positive divisor. */
  function Angle0To2Pi(angle: real): (r: real)
    ensures 0.0 <= r < TwoPi
  {
    angle - ((angle / TwoPi).Floor as real) * TwoPi
  }

  /** The floor of a real lies within one below it. */
  lemma FloorBounds(x: real)
    ensures (x.Floor as real) <= x < (x.Floor as real) + 1.0
  {
  }

  /** a < b scales to a * t < b * t for a positive t. */
  lemma MulStrictlyMonotone(a: real, b: real, t: real)
    requires t > 0.0 && a < b
    ensures a * t < b * t
  {
    assert b * t - a * t == (b - a) * t;
  }

  /** An angle already in [0, 2*pi) is left as it is: the wrap is idempotent. */
  lemma {:induction false} Angle0To2PiFixesRange(angle: real)
    requires 0.0 <= angle < TwoPi
    ensures Angle0To2Pi(angle) == angle
  {
    var q := (angle / TwoPi).Floor;
    assert 0.0 <= angle / TwoPi < 1.0;
    assert q == 0;
  }

  /** Adding whole turns does not change the wrapped angle. */
  lemma {:induction false} Angle0To2PiPeriodic(angle: real, turns: int)
    ensures Angle0To2Pi(angle + (turns as real) * TwoPi) == Angle0To2Pi(angle)
  {
    var x := angle / TwoPi;
    assert (angle + (turns as real) * TwoPi) / TwoPi == x + (turns as real);
    FloorBounds(x);
    FloorBounds(x + (turns as real));
    assert (x + (turns as real)).Floor == x.Floor + turns;
  }

  /** Wrapping twice is wrapping once. */
  lemma {:induction false} Angle0To2PiIdempotent(angle: real)
    ensures Angle0To2Pi(Angle0To2Pi(angle)) == Angle0To2Pi(angle)
  {
    Angle0To2PiFixesRange(Angle0To2Pi(angle));
  }
}
