/** The transform constructors of src/app/core/engine/Maths/Functions/3DMatrixOperations.ts.
    Each returns a row-major `Mat4` literal; a point `(x, y, z)` is the row vector
    `[x, y, z, 1]` and is transformed as `Apply([x, y, z, 1], M)`. */
module Transforms {
  import opened Numeric
  import opened Vectors
  import opened Wrappers
  import opened Matrix4
  import opened CofactorInverse

  /** The homogeneous point of a vector. */
  function Point(v: Vec3): seq<real> { [v.x, v.y, v.z, 1.0] }

  /** Row 3 and column 3 are those of the identity: the matrix moves no point off `w = 1`
      and adds no translation. */
  predicate Linear(m: Mat4) {
    m[3] == 0.0 && m[7] == 0.0 && m[11] == 0.0 && m[12] == 0.0 && m[13] == 0.0 && m[14] == 0.0 && m[15] == 1.0
  }

  /** `sin² + cos² = 1` at one angle: the only trigonometric fact the length lemmas use. */
  predicate Pythagorean(trig: Trig, angle: real) {
    trig.sin(angle) * trig.sin(angle) + trig.cos(angle) * trig.cos(angle) == 1.0
  }

  function Transpose(m: Mat4): Mat4 {
    [m[0], m[4], m[8], m[12],
     m[1], m[5], m[9], m[13],
     m[2], m[6], m[10], m[14],
     m[3], m[7], m[11], m[15]]
  }

  /** `RotationMatrix3DX(angle)`: the `[cos, -sin; sin, cos]` block on axes 1 and 2. */
  function RotationX(trig: Trig, angle: real): (r: Mat4)
    ensures Linear(r) && r[0] == 1.0
  {
    var c, s := trig.cos(angle), trig.sin(angle);
    [1.0, 0.0, 0.0, 0.0,
     0.0, c, -s, 0.0,
     0.0, s, c, 0.0,
     0.0, 0.0, 0.0, 1.0]
  }

  /** `RotationMatrix3DY(angle)`: the `[cos, sin; -sin, cos]` block on axes 0 and 2. */
  function RotationY(trig: Trig, angle: real): (r: Mat4)
    ensures Linear(r) && r[5] == 1.0
  {
    var c, s := trig.cos(angle), trig.sin(angle);
    [c, 0.0, s, 0.0,
     0.0, 1.0, 0.0, 0.0,
     -s, 0.0, c, 0.0,
     0.0, 0.0, 0.0, 1.0]
  }

  /** `RotationMatrix3DZ(angle)`: the `[cos, -sin; sin, cos]` block on axes 0 and 1. */
  function RotationZ(trig: Trig, angle: real): (r: Mat4)
    ensures Linear(r) && r[10] == 1.0
  {
    var c, s := trig.cos(angle), trig.sin(angle);
    [c, -s, 0.0, 0.0,
     s, c, 0.0, 0.0,
     0.0, 0.0, 1.0, 0.0,
     0.0, 0.0, 0.0, 1.0]
  }

  /** With `cos 0 = 1` and `sin 0 = 0`, every rotation by 0 is the identity. */
  lemma RotationsAtZero(trig: Trig)
    requires ZeroAngle(trig)
    ensures RotationX(trig, 0.0) == Identity()
    ensures RotationY(trig, 0.0) == Identity()
    ensures RotationZ(trig, 0.0) == Identity()
  {
  }

  /** Each rotation is orthogonal wherever `sin² + cos² = 1`: its transpose is its inverse. */
  lemma RotationXOrthogonal(trig: Trig, angle: real)
    requires Pythagorean(trig, angle)
    ensures Product(RotationX(trig, angle), Transpose(RotationX(trig, angle))) == Identity()
  {
    var c, s := trig.cos(angle), trig.sin(angle);
    var p := Product(RotationX(trig, angle), Transpose(RotationX(trig, angle)));
    assert p[5] == c * c + s * s && p[10] == s * s + c * c;
    assert p[6] == c * s - s * c && p[9] == s * c - c * s;
    EqualMatrices(p, Identity());
  }

  lemma RotationYOrthogonal(trig: Trig, angle: real)
    requires Pythagorean(trig, angle)
    ensures Product(RotationY(trig, angle), Transpose(RotationY(trig, angle))) == Identity()
  {
    var c, s := trig.cos(angle), trig.sin(angle);
    var p := Product(RotationY(trig, angle), Transpose(RotationY(trig, angle)));
    assert p[0] == c * c + s * s && p[10] == s * s + c * c;
    assert p[2] == c * -s + s * c && p[8] == -s * c + c * s;
    EqualMatrices(p, Identity());
  }

  lemma RotationZOrthogonal(trig: Trig, angle: real)
    requires Pythagorean(trig, angle)
    ensures Product(RotationZ(trig, angle), Transpose(RotationZ(trig, angle))) == Identity()
  {
    var c, s := trig.cos(angle), trig.sin(angle);
    var p := Product(RotationZ(trig, angle), Transpose(RotationZ(trig, angle)));
    assert p[0] == c * c + s * s && p[5] == s * s + c * c;
    assert p[1] == c * s - s * c && p[4] == s * c - c * s;
    EqualMatrices(p, Identity());
  }

  /** A rotation turns a point about its own axis and keeps its distance from that axis. */
  lemma RotationXTurnsAboutX(trig: Trig, angle: real, v: Vec3)
    requires Pythagorean(trig, angle)
    ensures var w := Apply(Point(v), RotationX(trig, angle));
            w[0] == v.x && w[3] == 1.0 && w[1] * w[1] + w[2] * w[2] == v.y * v.y + v.z * v.z
  {
    var c, s := trig.cos(angle), trig.sin(angle);
    var w := Apply(Point(v), RotationX(trig, angle));
    assert w[1] == v.y * c + v.z * s && w[2] == v.z * c - v.y * s;
    TurnKeepsLength(v.y, v.z, c, s);
  }

  lemma RotationYTurnsAboutY(trig: Trig, angle: real, v: Vec3)
    requires Pythagorean(trig, angle)
    ensures var w := Apply(Point(v), RotationY(trig, angle));
            w[1] == v.y && w[3] == 1.0 && w[0] * w[0] + w[2] * w[2] == v.x * v.x + v.z * v.z
  {
    var c, s := trig.cos(angle), trig.sin(angle);
    var w := Apply(Point(v), RotationY(trig, angle));
    assert w[2] == v.z * c + v.x * s && w[0] == v.x * c - v.z * s;
    TurnKeepsLength(v.z, v.x, c, s);
  }

  lemma RotationZTurnsAboutZ(trig: Trig, angle: real, v: Vec3)
    requires Pythagorean(trig, angle)
    ensures var w := Apply(Point(v), RotationZ(trig, angle));
            w[2] == v.z && w[3] == 1.0 && w[0] * w[0] + w[1] * w[1] == v.x * v.x + v.y * v.y
  {
    var c, s := trig.cos(angle), trig.sin(angle);
    var w := Apply(Point(v), RotationZ(trig, angle));
    assert w[0] == v.x * c + v.y * s && w[1] == v.y * c - v.x * s;
    TurnKeepsLength(v.x, v.y, c, s);
  }

  /** A plane turn, over plain numbers. */
  lemma TurnKeepsLength(p: real, q: real, c: real, s: real)
    requires s * s + c * c == 1.0
    ensures (p * c + q * s) * (p * c + q * s) + (q * c - p * s) * (q * c - p * s) == p * p + q * q
  {
    calc {
      (p * c + q * s) * (p * c + q * s) + (q * c - p * s) * (q * c - p * s);
      (p * p + q * q) * (s * s + c * c);
      p * p + q * q;
    }
  }

  /** `Translation3DMatrix(t)`: the identity with `t` in row 3. */
  function Translation(t: Vec3): Mat4 {
    [1.0, 0.0, 0.0, 0.0,
     0.0, 1.0, 0.0, 0.0,
     0.0, 0.0, 1.0, 0.0,
     t.x, t.y, t.z, 1.0]
  }

  /** A point is moved by `t`. */
  lemma TranslationMovesPoints(t: Vec3, v: Vec3)
    ensures Apply(Point(v), Translation(t)) == Point(Plus(v, t))
  {
  }

  /** Two translations compose into one, by the sum. */
  lemma TranslationsCompose(a: Vec3, b: Vec3)
    ensures Product(Translation(a), Translation(b)) == Translation(Plus(a, b))
  {
  }

  /** The cofactor inverse of a translation is the opposite translation. */
  lemma TranslationInverse(t: Vec3)
    ensures Inverse2(Translation(t)) == Some(Translation(ScaledBy(t, -1.0)))
  {
    var m, back := Translation(t), Translation(ScaledBy(t, -1.0));
    assert Det(m) == 1.0;
    Inverse2IsRightInverse(m);
    assert Product(back, m) == Identity();
    InverseUnique(back, m, Inverse2(m).value);
  }

  /** `Scaling3DMatrix(s)`: the diagonal `(s.x, s.y, s.z, 1)`. */
  function Scaling(s: Vec3): Mat4 {
    [s.x, 0.0, 0.0, 0.0,
     0.0, s.y, 0.0, 0.0,
     0.0, 0.0, s.z, 0.0,
     0.0, 0.0, 0.0, 1.0]
  }

  /** A point is scaled componentwise. */
  lemma ScalingScalesPoints(s: Vec3, v: Vec3)
    ensures Apply(Point(v), Scaling(s)) == Point(Times(v, s))
  {
    var w := Apply(Point(v), Scaling(s));
    assert w[0] == v.x * s.x && w[1] == v.y * s.y && w[2] == v.z * s.z && w[3] == 1.0;
    EqualRows(w, Point(Times(v, s)));
  }

  /** Two scalings compose into one, by the componentwise product. */
  lemma ScalingsCompose(a: Vec3, b: Vec3)
    ensures Product(Scaling(a), Scaling(b)) == Scaling(Times(a, b))
  {
    var p := Product(Scaling(a), Scaling(b));
    assert p[0] == a.x * b.x && p[5] == a.y * b.y && p[10] == a.z * b.z;
    EqualMatrices(p, Scaling(Times(a, b)));
  }

  /** `Get3DGridSpaceMatrix(left, right, bottom, top, near, far)`: an orthographic
      projection. The source divides by `right - left`, `top - bottom` and `near - far`. */
  function GridSpace(left: real, right: real, bottom: real, top: real, near: real, far: real): Mat4
    requires right != left && top != bottom && near != far
  {
    [2.0 / (right - left), 0.0, 0.0, 0.0,
     0.0, 2.0 / (top - bottom), 0.0, 0.0,
     0.0, 0.0, 1.0 / (near - far), 0.0,
     (right + left) / (left - right), (top + bottom) / (bottom - top), near / (near - far), 1.0]
  }

  /** The box maps onto clip space: `x` from `left..right` to `-1..1`, `y` from
      `bottom..top` to `-1..1`, and depth from `z = -near` to 0 and `z = -far` to 1. */
  lemma GridSpaceMapsBox(left: real, right: real, bottom: real, top: real, near: real, far: real, v: Vec3)
    requires right != left && top != bottom && near != far
    ensures var w := Apply(Point(v), GridSpace(left, right, bottom, top, near, far));
            w[3] == 1.0 &&
            (v.x == left ==> w[0] == -1.0) && (v.x == right ==> w[0] == 1.0) &&
            (v.y == bottom ==> w[1] == -1.0) && (v.y == top ==> w[1] == 1.0) &&
            (v.z == -near ==> w[2] == 0.0) && (v.z == -far ==> w[2] == 1.0)
  {
    var w := Apply(Point(v), GridSpace(left, right, bottom, top, near, far));
    assert w[0] == v.x * (2.0 / (right - left)) + (right + left) / (left - right);
    assert w[1] == v.y * (2.0 / (top - bottom)) + (top + bottom) / (bottom - top);
    assert w[2] == v.z * (1.0 / (near - far)) + near / (near - far);
    OrthographicAxis(v.x, left, right, w[0]);
    OrthographicAxis(v.y, bottom, top, w[1]);
  }

  /** One axis of the orthographic map, over plain numbers. */
  lemma OrthographicAxis(x: real, low: real, high: real, image: real)
    requires high != low
    requires image == x * (2.0 / (high - low)) + (high + low) / (low - high)
    ensures x == low ==> image == -1.0
    ensures x == high ==> image == 1.0
  {
    var d := high - low;
    assert low - high == -d;
    assert (high + low) / (low - high) == -(high + low) / d;
    assert image == (2.0 * x - high - low) / d;
  }

  /** `Fudge(f)`: the identity with `f` at index 11. */
  function Fudge(f: real): Mat4 {
    [1.0, 0.0, 0.0, 0.0,
     0.0, 1.0, 0.0, 0.0,
     0.0, 0.0, 1.0, f,
     0.0, 0.0, 0.0, 1.0]
  }

  /** The fudge factor adds `f·z` to `w` and leaves the rest of the point alone, so the
      later division by `w` shrinks points with their depth. */
  lemma FudgeDividesByDepth(f: real, v: Vec3)
    ensures Apply(Point(v), Fudge(f)) == [v.x, v.y, v.z, 1.0 + f * v.z]
  {
    var w := Apply(Point(v), Fudge(f));
    assert w[3] == v.z * f + 1.0;
    EqualRows(w, [v.x, v.y, v.z, 1.0 + f * v.z]);
  }

  /** `get3DSpacePerspective(fov, aspect, zNear, zFar)`, as written: `f = tan(π/2 - fov/2)`
      and `rangeInv = 1 / (zNear - zFar)`; the source divides by `aspect` and by
      `zNear - zFar`. Index 15 holds 1. */
  function Perspective(trig: Trig, fov: real, aspect: real, zNear: real, zFar: real): Mat4
    requires aspect != 0.0 && zNear != zFar
  {
    var f := trig.tan(Pi * 0.5 - 0.5 * fov);
    var rangeInv := 1.0 / (zNear - zFar);
    [f / aspect, 0.0, 0.0, 0.0,
     0.0, f, 0.0, 0.0,
     0.0, 0.0, zFar * rangeInv, -1.0,
     0.0, 0.0, zNear * zFar * rangeInv, 1.0]
  }

  /** As written, `w` is `1 - z` instead of `-z`: a point on the far plane does not reach
      depth 1. With `zNear = 1` and `zFar = 100`, the point at `z = -100` ends at depth
      `100 / 101`. */
  lemma PerspectiveMissesFarPlane(trig: Trig, fov: real)
    ensures var w := Apply(Point(Vec3(0.0, 0.0, -100.0)), Perspective(trig, fov, 1.0, 1.0, 100.0));
            w[3] == 101.0 && w[2] == 100.0 && w[2] / w[3] != 1.0
  {
  }

  /** The perspective matrix with index 15 equal to 0, so that `w = -z`. */
  function PerspectiveCorrected(trig: Trig, fov: real, aspect: real, zNear: real, zFar: real): Mat4
    requires aspect != 0.0 && zNear != zFar
  {
    var f := trig.tan(Pi * 0.5 - 0.5 * fov);
    var rangeInv := 1.0 / (zNear - zFar);
    [f / aspect, 0.0, 0.0, 0.0,
     0.0, f, 0.0, 0.0,
     0.0, 0.0, zFar * rangeInv, -1.0,
     0.0, 0.0, zNear * zFar * rangeInv, 0.0]
  }

  /** With index 15 at 0, depth after the division by `w` is 0 on the near plane and 1 on
      the far plane, and `x` and `y` are divided by the distance `-z`. */
  lemma PerspectiveCorrectedMapsDepth(trig: Trig, fov: real, aspect: real, zNear: real, zFar: real, v: Vec3)
    requires aspect != 0.0 && 0.0 < zNear && 0.0 < zFar && zNear != zFar
    ensures var w := Apply(Point(v), PerspectiveCorrected(trig, fov, aspect, zNear, zFar));
            w[3] == -v.z &&
            (v.z == -zNear ==> w[2] / w[3] == 0.0) &&
            (v.z == -zFar ==> w[2] / w[3] == 1.0)
  {
    var w := Apply(Point(v), PerspectiveCorrected(trig, fov, aspect, zNear, zFar));
    var rangeInv := 1.0 / (zNear - zFar);
    assert w[2] == v.z * (zFar * rangeInv) + zNear * zFar * rangeInv;
    if v.z == -zFar {
      assert w[2] == zFar * ((zNear - zFar) * rangeInv);
      assert (zNear - zFar) * rangeInv == 1.0;
    }
    if v.z == -zNear {
      assert w[2] == zFar * rangeInv * (v.z + zNear);
    }
  }
}
