/** The Euler-angle rotation of a point, `rotate3DVector` in
    src/app/core/engine/Maths/Functions/3DRotation.ts and, with the same formulas,
    `Vector3.computeCoordinatesRotation` in src/app/core/class/Vector3.ts. The angle
    vector holds the three angles `A`, `B`, `C`; the point holds `i`, `j`, `k`. */
module Rotation3D {
  import opened Numeric
  import opened Vectors
  import opened Transforms

  /** `computeRotationX(coords, angle)`. */
  function ComputeX(trig: Trig, coords: Vec3, angle: Vec3): real {
    var (i, j, k) := (coords.x, coords.y, coords.z);
    var (a, b, c) := (angle.x, angle.y, angle.z);
    j * trig.sin(a) * trig.sin(b) * trig.cos(c)
      - k * trig.cos(a) * trig.sin(b) * trig.cos(c)
      + j * trig.cos(a) * trig.sin(c)
      + k * trig.sin(a) * trig.sin(c)
      + i * trig.cos(b) * trig.cos(c)
  }

  /** `computeRotationY(coords, angle)`. */
  function ComputeY(trig: Trig, coords: Vec3, angle: Vec3): real {
    var (i, j, k) := (coords.x, coords.y, coords.z);
    var (a, b, c) := (angle.x, angle.y, angle.z);
    j * trig.cos(a) * trig.cos(c)
      + k * trig.sin(a) * trig.cos(c)
      - j * trig.sin(a) * trig.sin(b) * trig.sin(c)
      + k * trig.cos(a) * trig.sin(b) * trig.sin(c)
      - i * trig.cos(b) * trig.sin(c)
  }

  /** `computeRotationZ(coords, angle)`: the third angle is not read. */
  function ComputeZ(trig: Trig, coords: Vec3, angle: Vec3): real {
    var (i, j, k) := (coords.x, coords.y, coords.z);
    var (a, b) := (angle.x, angle.y);
    k * trig.cos(a) * trig.cos(b)
      - j * trig.sin(a) * trig.cos(b)
      + i * trig.sin(b)
  }

  /** `rotate3DVector(coords, angle)`: the three components, in order. */
  function Rotate3DVector(trig: Trig, coords: Vec3, angle: Vec3): Vec3 {
    Vec3(ComputeX(trig, coords, angle), ComputeY(trig, coords, angle), ComputeZ(trig, coords, angle))
  }

  /** A turn in one coordinate plane: `(p, q)` goes to `(p·c + q·s, q·c - p·s)`. */
  function Turn(p: real, q: real, c: real, s: real): (real, real) {
    (p * c + q * s, q * c - p * s)
  }

  /** An independent description of the same map: turn the `(j, k)` plane by `A`, then the
      `(k, i)` plane by `B`, then the `(i, j)` plane by `C`. */
  function ThreeTurns(trig: Trig, coords: Vec3, angle: Vec3): Vec3 {
    var (j1, k1) := Turn(coords.y, coords.z, trig.cos(angle.x), trig.sin(angle.x));
    var (z, i2) := Turn(k1, coords.x, trig.cos(angle.y), trig.sin(angle.y));
    var (x, y) := Turn(i2, j1, trig.cos(angle.z), trig.sin(angle.z));
    Vec3(x, y, z)
  }

  /** The source's formulas are the three turns multiplied out. */
  lemma RotateIsThreeTurns(trig: Trig, coords: Vec3, angle: Vec3)
    ensures Rotate3DVector(trig, coords, angle) == ThreeTurns(trig, coords, angle)
  {
    var (i, j, k) := (coords.x, coords.y, coords.z);
    var (ca, sa) := (trig.cos(angle.x), trig.sin(angle.x));
    var (cb, sb) := (trig.cos(angle.y), trig.sin(angle.y));
    var (cc, sc) := (trig.cos(angle.z), trig.sin(angle.z));
    var turned := StagedTurns(i, j, k, ca, sa, cb, sb, cc, sc);
    assert ThreeTurns(trig, coords, angle) == turned;
    ExpandX(i, j, k, ca, sa, cb, sb, cc, sc, ComputeX(trig, coords, angle));
    ExpandY(i, j, k, ca, sa, cb, sb, cc, sc, ComputeY(trig, coords, angle));
    ExpandZ(i, j, k, ca, sa, cb, sb, cc, sc, ComputeZ(trig, coords, angle));
  }

  /** `ThreeTurns` over plain numbers: the cosines and sines of the three angles given. */
  function StagedTurns(i: real, j: real, k: real, ca: real, sa: real, cb: real, sb: real, cc: real, sc: real): Vec3 {
    var (j1, k1) := Turn(j, k, ca, sa);
    var (z, i2) := Turn(k1, i, cb, sb);
    var (x, y) := Turn(i2, j1, cc, sc);
    Vec3(x, y, z)
  }

  lemma ExpandX(i: real, j: real, k: real, ca: real, sa: real, cb: real, sb: real, cc: real, sc: real, x: real)
    requires x == j * sa * sb * cc - k * ca * sb * cc + j * ca * sc + k * sa * sc + i * cb * cc
    ensures x == StagedTurns(i, j, k, ca, sa, cb, sb, cc, sc).x
  {
    var j1, k1 := j * ca + k * sa, k * ca - j * sa;
    var i2 := i * cb - k1 * sb;
    assert StagedTurns(i, j, k, ca, sa, cb, sb, cc, sc).x == i2 * cc + j1 * sc;
  }

  lemma ExpandY(i: real, j: real, k: real, ca: real, sa: real, cb: real, sb: real, cc: real, sc: real, y: real)
    requires y == j * ca * cc + k * sa * cc - j * sa * sb * sc + k * ca * sb * sc - i * cb * sc
    ensures y == StagedTurns(i, j, k, ca, sa, cb, sb, cc, sc).y
  {
    var j1, k1 := j * ca + k * sa, k * ca - j * sa;
    var i2 := i * cb - k1 * sb;
    assert StagedTurns(i, j, k, ca, sa, cb, sb, cc, sc).y == j1 * cc - i2 * sc;
  }

  lemma ExpandZ(i: real, j: real, k: real, ca: real, sa: real, cb: real, sb: real, cc: real, sc: real, z: real)
    requires z == k * ca * cb - j * sa * cb + i * sb
    ensures z == StagedTurns(i, j, k, ca, sa, cb, sb, cc, sc).z
  {
    var k1 := k * ca - j * sa;
    assert StagedTurns(i, j, k, ca, sa, cb, sb, cc, sc).z == k1 * cb + i * sb;
  }

  function SquaredLength(v: Vec3): real { v.x * v.x + v.y * v.y + v.z * v.z }

  /** Wherever `sin² + cos² = 1` at the three angles, the rotation keeps the distance of
      the point from the origin. */
  lemma RotatePreservesLength(trig: Trig, coords: Vec3, angle: Vec3)
    requires Pythagorean(trig, angle.x) && Pythagorean(trig, angle.y) && Pythagorean(trig, angle.z)
    ensures SquaredLength(Rotate3DVector(trig, coords, angle)) == SquaredLength(coords)
  {
    RotateIsThreeTurns(trig, coords, angle);
    var (i, j, k) := (coords.x, coords.y, coords.z);
    var (j1, k1) := Turn(j, k, trig.cos(angle.x), trig.sin(angle.x));
    var (z, i2) := Turn(k1, i, trig.cos(angle.y), trig.sin(angle.y));
    var (x, y) := Turn(i2, j1, trig.cos(angle.z), trig.sin(angle.z));
    TurnKeepsLength(j, k, trig.cos(angle.x), trig.sin(angle.x));
    TurnKeepsLength(k1, i, trig.cos(angle.y), trig.sin(angle.y));
    TurnKeepsLength(i2, j1, trig.cos(angle.z), trig.sin(angle.z));
  }

  /** With `cos 0 = 1` and `sin 0 = 0`, no rotation leaves the point where it is. */
  lemma RotateAtZero(trig: Trig, coords: Vec3)
    requires ZeroAngle(trig)
    ensures Rotate3DVector(trig, coords, Vec3(0.0, 0.0, 0.0)) == coords
  {
  }

  /** With the first two angles 0, only the `(i, j)` plane turns, by the third. */
  lemma RotateAboutThirdAxis(trig: Trig, coords: Vec3, c: real)
    requires ZeroAngle(trig)
    ensures Rotate3DVector(trig, coords, Vec3(0.0, 0.0, c))
         == Vec3(coords.x * trig.cos(c) + coords.y * trig.sin(c), coords.y * trig.cos(c) - coords.x * trig.sin(c), coords.z)
  {
    RotateIsThreeTurns(trig, coords, Vec3(0.0, 0.0, c));
  }

  /** The third component does not depend on the third angle. */
  lemma ComputeZIgnoresThirdAngle(trig: Trig, coords: Vec3, angle: Vec3, other: real)
    ensures ComputeZ(trig, coords, angle) == ComputeZ(trig, coords, Vec3(angle.x, angle.y, other))
  {
  }

  /** For fixed angles the rotation is linear in the point. */
  lemma RotateIsLinear(trig: Trig, u: Vec3, w: Vec3, a: real, b: real, angle: Vec3)
    ensures Rotate3DVector(trig, Plus(ScaledBy(u, a), ScaledBy(w, b)), angle)
         == Plus(ScaledBy(Rotate3DVector(trig, u, angle), a), ScaledBy(Rotate3DVector(trig, w, angle), b))
  {
    RotateIsThreeTurns(trig, u, angle);
    RotateIsThreeTurns(trig, w, angle);
    RotateIsThreeTurns(trig, Plus(ScaledBy(u, a), ScaledBy(w, b)), angle);
    ThreeTurnsIsLinear(trig, u, w, a, b, angle);
  }

  lemma ThreeTurnsIsLinear(trig: Trig, u: Vec3, w: Vec3, a: real, b: real, angle: Vec3)
    ensures ThreeTurns(trig, Plus(ScaledBy(u, a), ScaledBy(w, b)), angle)
         == Plus(ScaledBy(ThreeTurns(trig, u, angle), a), ScaledBy(ThreeTurns(trig, w, angle), b))
  {
    var v := Plus(ScaledBy(u, a), ScaledBy(w, b));
    var (ca, sa) := (trig.cos(angle.x), trig.sin(angle.x));
    var (cb, sb) := (trig.cos(angle.y), trig.sin(angle.y));
    var (cc, sc) := (trig.cos(angle.z), trig.sin(angle.z));
    assert ThreeTurns(trig, u, angle) == StagedTurns(u.x, u.y, u.z, ca, sa, cb, sb, cc, sc);
    assert ThreeTurns(trig, w, angle) == StagedTurns(w.x, w.y, w.z, ca, sa, cb, sb, cc, sc);
    assert ThreeTurns(trig, v, angle) == StagedTurns(v.x, v.y, v.z, ca, sa, cb, sb, cc, sc);
    StagedTurnsIsLinear(u, w, a, b, v, ca, sa, cb, sb, cc, sc);
  }

  lemma StagedTurnsIsLinear(u: Vec3, w: Vec3, a: real, b: real, v: Vec3,
                            ca: real, sa: real, cb: real, sb: real, cc: real, sc: real)
    requires v == Plus(ScaledBy(u, a), ScaledBy(w, b))
    ensures StagedTurns(v.x, v.y, v.z, ca, sa, cb, sb, cc, sc)
         == Plus(ScaledBy(StagedTurns(u.x, u.y, u.z, ca, sa, cb, sb, cc, sc), a),
                 ScaledBy(StagedTurns(w.x, w.y, w.z, ca, sa, cb, sb, cc, sc), b))
  {
    var (uj1, uk1) := Turn(u.y, u.z, ca, sa);
    var (wj1, wk1) := Turn(w.y, w.z, ca, sa);
    var (vj1, vk1) := Turn(v.y, v.z, ca, sa);
    TurnIsLinear(u.y, u.z, w.y, w.z, a, b, ca, sa, v.y, v.z);
    var (uz, ui2) := Turn(uk1, u.x, cb, sb);
    var (wz, wi2) := Turn(wk1, w.x, cb, sb);
    var (vz, vi2) := Turn(vk1, v.x, cb, sb);
    TurnIsLinear(uk1, u.x, wk1, w.x, a, b, cb, sb, vk1, v.x);
    TurnIsLinear(ui2, uj1, wi2, wj1, a, b, cc, sc, vi2, vj1);
  }

  /** One plane turn of `a·(p1, q1) + b·(p2, q2)`, over plain numbers. */
  lemma TurnIsLinear(p1: real, q1: real, p2: real, q2: real, a: real, b: real, c: real, s: real, p: real, q: real)
    requires p == a * p1 + b * p2 && q == a * q1 + b * q2
    ensures Turn(p, q, c, s).0 == a * Turn(p1, q1, c, s).0 + b * Turn(p2, q2, c, s).0
    ensures Turn(p, q, c, s).1 == a * Turn(p1, q1, c, s).1 + b * Turn(p2, q2, c, s).1
  {
    var (x1, y1) := Turn(p1, q1, c, s);
    var (x2, y2) := Turn(p2, q2, c, s);
    var (x, y) := Turn(p, q, c, s);
    assert x == a * (p1 * c) + b * (p2 * c) + a * (q1 * s) + b * (q2 * s);
    assert y == a * (q1 * c) + b * (q2 * c) - a * (p1 * s) - b * (p2 * s);
  }
}
