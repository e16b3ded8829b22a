/** Scalar helpers shared by the engine and the older scene code: `clamp` and
    `rotationReset` (src/app/core/engine/Maths/Functions/Utils.ts and the identical
    copies in src/utils/customMath.ts), `Math.PI`, and the trigonometric functions,
    which the caller supplies. */
module Numeric {

  /** `Math.PI`: the double nearest to pi, which is exactly 884279719003555 / 2^48. */
  const Pi: real := 884279719003555.0 / 281474976710656.0
  const TwoPi: real := 2.0 * Pi

  /** `Math.sin`, `Math.cos` and `Math.tan`. Nothing is known about them except what a
      member asks for in its requires clause. */
  datatype Trig = Trig(sin: real -> real, cos: real -> real, tan: real -> real)

  /** The only facts about the trigonometric functions that the angle-zero lemmas use. */
  predicate ZeroAngle(trig: Trig) {
    trig.sin(0.0) == 0.0 && trig.cos(0.0) == 1.0
  }

  function Min(a: real, b: real): real { if a <= b then a else b }

  function Max(a: real, b: real): real { if a >= b then a else b }

  function Abs(a: real): real { if a < 0.0 then -a else a }

  /** `Math.sign`. */
  function Sign(a: real): real { if a < 0.0 then -1.0 else if a > 0.0 then 1.0 else 0.0 }

  /** `clamp(value, min, max) = Math.max(min, Math.min(max, value))`. */
  function Clamp(value: real, min: real, max: real): (r: real)
    ensures min <= r
    ensures r == value || r == min || r == max
    ensures min <= max ==> r <= max
    ensures min <= value <= max ==> r == value
    ensures min <= max < value ==> r == max
    ensures value < min ==> r == min
  {
    Max(min, Min(max, value))
  }

  /** The `while (bufferAngle > 2 * Math.PI) bufferAngle -= 2 * Math.PI` loop of
      `rotationReset`, as a function of its starting value. */
  function WrapMagnitude(a: real): (r: real)
    requires a >= 0.0
    ensures 0.0 <= r <= TwoPi
    ensures a > 0.0 ==> r > 0.0
    ensures r <= a
    decreases (a / TwoPi).Floor
  {
    if a > TwoPi then WrapMagnitude(a - TwoPi) else a
  }

  /** How many full turns the loop removes from a non-negative angle, in closed form:
      none up to and including one full turn, otherwise the rounded-up number of turns
      less one. */
  function Turns(a: real): nat
    requires a >= 0.0
  {
    if a <= TwoPi then 0 else -((-a / TwoPi).Floor) - 1
  }

  /** The loop removes exactly `Turns(a)` full turns. */
  lemma {:induction false} WrapMagnitudeRemovesTurns(a: real)
    requires a >= 0.0
    ensures WrapMagnitude(a) == a - Turns(a) as real * TwoPi
    decreases (a / TwoPi).Floor
  {
    if a > TwoPi {
      WrapMagnitudeRemovesTurns(a - TwoPi);
      assert Turns(a - TwoPi) == Turns(a) - 1;
    }
  }

  /** `rotationReset(angle) = sign(angle) * (|angle| with full turns removed while above 2π)`. */
  function WrapAngle(angle: real): real {
    WrapMagnitude(Abs(angle)) * Sign(angle)
  }

  /** The source's `rotationReset`: the loop runs on `bufferAngle` and the sign is put back. */
  method RotationReset(angleRad: real) returns (r: real)
    ensures r == WrapAngle(angleRad)
  {
    var sign := Sign(angleRad);
    var bufferAngle := Abs(angleRad);
    while bufferAngle > TwoPi
      invariant bufferAngle >= 0.0
      invariant WrapMagnitude(bufferAngle) == WrapMagnitude(Abs(angleRad))
      decreases (bufferAngle / TwoPi).Floor
    {
      bufferAngle := bufferAngle - TwoPi;
    }
    r := bufferAngle * sign;
  }

  /** The result keeps the sign of the input and lies within one full turn either way;
      exactly 2π is kept, since the loop test is strict. */
  lemma WrapAngleBounds(angle: real)
    ensures -TwoPi <= WrapAngle(angle) <= TwoPi
    ensures Sign(WrapAngle(angle)) == Sign(angle)
    ensures -TwoPi <= angle <= TwoPi ==> WrapAngle(angle) == angle
  {
  }

  /** Outside one turn, the result differs from the input by a whole number of turns. */
  lemma WrapAngleIsCongruent(angle: real)
    ensures WrapAngle(angle) == angle - Sign(angle) * Turns(Abs(angle)) as real * TwoPi
  {
    WrapMagnitudeRemovesTurns(Abs(angle));
  }

  /** Wrapping twice is wrapping once. */
  lemma WrapAngleIdempotent(angle: real)
    ensures WrapAngle(WrapAngle(angle)) == WrapAngle(angle)
  {
    WrapAngleBounds(angle);
    WrapAngleBounds(WrapAngle(angle));
  }

  /** Adding a full turn to a positive angle does not change its wrapped value. The same
      fails at 0 (`rotationReset(2π) = 2π`) and for negative angles, whose sign is kept. */
  lemma WrapAnglePeriodic(angle: real)
    requires angle > 0.0
    ensures WrapAngle(angle + TwoPi) == WrapAngle(angle)
  {
  }

  /** The worked values: `1.5π` is kept, `10.5π` becomes `0.5π` and `-10.5π` becomes `-0.5π`. */
  lemma WrapAngleExamples()
    ensures WrapAngle(1.5 * Pi) == 1.5 * Pi
    ensures WrapAngle(10.5 * Pi) == 0.5 * Pi
    ensures WrapAngle(-10.5 * Pi) == -0.5 * Pi
  {
    WrapMagnitudeRemovesTurns(10.5 * Pi);
  }

  /** The worked values of `clamp`. */
  lemma ClampExamples()
    ensures Clamp(12.0, 3.0, 20.0) == 12.0
    ensures Clamp(22.0, 3.0, 20.0) == 20.0
    ensures Clamp(1.0, 3.0, 20.0) == 3.0
  {
  }
}
