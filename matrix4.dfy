/** `Matrix4` (src/app/core/engine/Maths/Matrix/Matrix4.ts, with the array holder of
    Matrix.ts folded in): a 4×4 matrix stored row-major as 16 numbers, so entry (r, c)
    is `m[4r + c]`. Points are homogeneous row vectors transformed as `v·M`. The class
    never changes its array, so a matrix is a value here; the instance `multiply` and
    `inverse` are the static ones applied to `this`. */
module Matrix4 {

  type Mat4 = m: seq<real> | |m| == 16 witness Zero()

  function Zero(): seq<real> { seq(16, n => 0.0) }

  function Identity(): Mat4 {
    [1.0, 0.0, 0.0, 0.0,
     0.0, 1.0, 0.0, 0.0,
     0.0, 0.0, 1.0, 0.0,
     0.0, 0.0, 0.0, 1.0]
  }

  /** The textbook product `a·b`: entry (r, c) is row r of `a` against column c of `b`. */
  function Product(a: Mat4, b: Mat4): Mat4 {
    [a[0] * b[0] + a[1] * b[4] + a[2] * b[8] + a[3] * b[12],
     a[0] * b[1] + a[1] * b[5] + a[2] * b[9] + a[3] * b[13],
     a[0] * b[2] + a[1] * b[6] + a[2] * b[10] + a[3] * b[14],
     a[0] * b[3] + a[1] * b[7] + a[2] * b[11] + a[3] * b[15],
     a[4] * b[0] + a[5] * b[4] + a[6] * b[8] + a[7] * b[12],
     a[4] * b[1] + a[5] * b[5] + a[6] * b[9] + a[7] * b[13],
     a[4] * b[2] + a[5] * b[6] + a[6] * b[10] + a[7] * b[14],
     a[4] * b[3] + a[5] * b[7] + a[6] * b[11] + a[7] * b[15],
     a[8] * b[0] + a[9] * b[4] + a[10] * b[8] + a[11] * b[12],
     a[8] * b[1] + a[9] * b[5] + a[10] * b[9] + a[11] * b[13],
     a[8] * b[2] + a[9] * b[6] + a[10] * b[10] + a[11] * b[14],
     a[8] * b[3] + a[9] * b[7] + a[10] * b[11] + a[11] * b[15],
     a[12] * b[0] + a[13] * b[4] + a[14] * b[8] + a[15] * b[12],
     a[12] * b[1] + a[13] * b[5] + a[14] * b[9] + a[15] * b[13],
     a[12] * b[2] + a[13] * b[6] + a[14] * b[10] + a[15] * b[14],
     a[12] * b[3] + a[13] * b[7] + a[14] * b[11] + a[15] * b[15]]
  }

  /** `rows()`: the four contiguous slices. */
  function Rows(m: Mat4): (rs: seq<seq<real>>)
    ensures |rs| == 4
    ensures forall r :: 0 <= r < 4 ==> |rs[r]| == 4
    ensures forall r, c :: 0 <= r < 4 && 0 <= c < 4 ==> rs[r][c] == m[4 * r + c]
  {
    [m[0..4], m[4..8], m[8..12], m[12..16]]
  }

  /** `columns()`: the stride-4 picks, so `columns()[c][r] == rows()[r][c]`. */
  function Columns(m: Mat4): (cs: seq<seq<real>>)
    ensures |cs| == 4
    ensures forall c :: 0 <= c < 4 ==> |cs[c]| == 4
    ensures forall r, c :: 0 <= r < 4 && 0 <= c < 4 ==> cs[c][r] == m[4 * r + c] == Rows(m)[r][c]
  {
    [[m[0], m[4], m[8], m[12]],
     [m[1], m[5], m[9], m[13]],
     [m[2], m[6], m[10], m[14]],
     [m[3], m[7], m[11], m[15]]]
  }

  /** `reduce((a, b) => a + b)` over four numbers. */
  function Sum4(s: seq<real>): real
    requires |s| == 4
  {
    s[0] + s[1] + s[2] + s[3]
  }

  /** `flat()` of four rows of four. */
  function Flatten4(rs: seq<seq<real>>): (m: seq<real>)
    requires |rs| == 4 && forall r :: 0 <= r < 4 ==> |rs[r]| == 4
    ensures |m| == 16 && forall r, c :: 0 <= r < 4 && 0 <= c < 4 ==> m[4 * r + c] == rs[r][c]
  {
    [rs[0][0], rs[0][1], rs[0][2], rs[0][3], rs[1][0], rs[1][1], rs[1][2], rs[1][3],
     rs[2][0], rs[2][1], rs[2][2], rs[2][3], rs[3][0], rs[3][1], rs[3][2], rs[3][3]]
  }

  /** Entry (row, i) of `multiply`: row `row` of `m2` against column `i` of `m1`. */
  function MultiplyEntry(m1: Mat4, m2: Mat4, row: nat, i: nat): (e: real)
    requires row < 4 && i < 4
    ensures e == m2[4 * row] * m1[i] + m2[4 * row + 1] * m1[4 + i] + m2[4 * row + 2] * m1[8 + i] + m2[4 * row + 3] * m1[12 + i]
  {
    var rowB, column := Rows(m2)[row], Columns(m1)[i];
    assert rowB[0] == m2[4 * row] && rowB[1] == m2[4 * row + 1] && rowB[2] == m2[4 * row + 2] && rowB[3] == m2[4 * row + 3];
    assert column[0] == m1[i] && column[1] == m1[4 + i] && column[2] == m1[8 + i] && column[3] == m1[12 + i];
    Sum4(seq(4, k requires 0 <= k < 4 => rowB[k] * column[k]))
  }

  /* Entry by entry, `multiply` agrees with the product `m2·m1`. */
  lemma MultiplyEntryAt0(m1: Mat4, m2: Mat4)
    ensures MultiplyEntry(m1, m2, 0, 0) == Product(m2, m1)[0]
  {
  }

  lemma MultiplyEntryAt1(m1: Mat4, m2: Mat4)
    ensures MultiplyEntry(m1, m2, 0, 1) == Product(m2, m1)[1]
  {
  }

  lemma MultiplyEntryAt2(m1: Mat4, m2: Mat4)
    ensures MultiplyEntry(m1, m2, 0, 2) == Product(m2, m1)[2]
  {
  }

  lemma MultiplyEntryAt3(m1: Mat4, m2: Mat4)
    ensures MultiplyEntry(m1, m2, 0, 3) == Product(m2, m1)[3]
  {
  }

  lemma MultiplyEntryAt4(m1: Mat4, m2: Mat4)
    ensures MultiplyEntry(m1, m2, 1, 0) == Product(m2, m1)[4]
  {
  }

  lemma MultiplyEntryAt5(m1: Mat4, m2: Mat4)
    ensures MultiplyEntry(m1, m2, 1, 1) == Product(m2, m1)[5]
  {
  }

  lemma MultiplyEntryAt6(m1: Mat4, m2: Mat4)
    ensures MultiplyEntry(m1, m2, 1, 2) == Product(m2, m1)[6]
  {
  }

  lemma MultiplyEntryAt7(m1: Mat4, m2: Mat4)
    ensures MultiplyEntry(m1, m2, 1, 3) == Product(m2, m1)[7]
  {
  }

  lemma MultiplyEntryAt8(m1: Mat4, m2: Mat4)
    ensures MultiplyEntry(m1, m2, 2, 0) == Product(m2, m1)[8]
  {
  }

  lemma MultiplyEntryAt9(m1: Mat4, m2: Mat4)
    ensures MultiplyEntry(m1, m2, 2, 1) == Product(m2, m1)[9]
  {
  }

  lemma MultiplyEntryAt10(m1: Mat4, m2: Mat4)
    ensures MultiplyEntry(m1, m2, 2, 2) == Product(m2, m1)[10]
  {
  }

  lemma MultiplyEntryAt11(m1: Mat4, m2: Mat4)
    ensures MultiplyEntry(m1, m2, 2, 3) == Product(m2, m1)[11]
  {
  }

  lemma MultiplyEntryAt12(m1: Mat4, m2: Mat4)
    ensures MultiplyEntry(m1, m2, 3, 0) == Product(m2, m1)[12]
  {
  }

  lemma MultiplyEntryAt13(m1: Mat4, m2: Mat4)
    ensures MultiplyEntry(m1, m2, 3, 1) == Product(m2, m1)[13]
  {
  }

  lemma MultiplyEntryAt14(m1: Mat4, m2: Mat4)
    ensures MultiplyEntry(m1, m2, 3, 2) == Product(m2, m1)[14]
  {
  }

  lemma MultiplyEntryAt15(m1: Mat4, m2: Mat4)
    ensures MultiplyEntry(m1, m2, 3, 3) == Product(m2, m1)[15]
  {
  }

  /** `Matrix4.multiply(m1, m2)`: every row of `m2` is combined with every column of `m1`,
      so the result is the textbook product `m2·m1`, and `a.multiply(b)` transforms a row
      vector by `b` first and by `a` second. Neither operand changes (they are values). */
  function Multiply(m1: Mat4, m2: Mat4): (r: Mat4)
    ensures r == Product(m2, m1)
  {
    var rs := seq(4, row requires 0 <= row < 4 =>
      seq(4, i requires 0 <= i < 4 => MultiplyEntry(m1, m2, row, i)));
    MultiplyEntryAt0(m1, m2);
    MultiplyEntryAt1(m1, m2);
    MultiplyEntryAt2(m1, m2);
    MultiplyEntryAt3(m1, m2);
    MultiplyEntryAt4(m1, m2);
    MultiplyEntryAt5(m1, m2);
    MultiplyEntryAt6(m1, m2);
    MultiplyEntryAt7(m1, m2);
    MultiplyEntryAt8(m1, m2);
    MultiplyEntryAt9(m1, m2);
    MultiplyEntryAt10(m1, m2);
    MultiplyEntryAt11(m1, m2);
    MultiplyEntryAt12(m1, m2);
    MultiplyEntryAt13(m1, m2);
    MultiplyEntryAt14(m1, m2);
    MultiplyEntryAt15(m1, m2);
    assert Flatten4(rs) == [MultiplyEntry(m1, m2, 0, 0),
      MultiplyEntry(m1, m2, 0, 1),
      MultiplyEntry(m1, m2, 0, 2),
      MultiplyEntry(m1, m2, 0, 3),
      MultiplyEntry(m1, m2, 1, 0),
      MultiplyEntry(m1, m2, 1, 1),
      MultiplyEntry(m1, m2, 1, 2),
      MultiplyEntry(m1, m2, 1, 3),
      MultiplyEntry(m1, m2, 2, 0),
      MultiplyEntry(m1, m2, 2, 1),
      MultiplyEntry(m1, m2, 2, 2),
      MultiplyEntry(m1, m2, 2, 3),
      MultiplyEntry(m1, m2, 3, 0),
      MultiplyEntry(m1, m2, 3, 1),
      MultiplyEntry(m1, m2, 3, 2),
      MultiplyEntry(m1, m2, 3, 3)];
    Flatten4(rs)
  }

  /** The row vector `v·m`. */
  function Apply(v: seq<real>, m: Mat4): (w: seq<real>)
    requires |v| == 4
    ensures |w| == 4
  {
    [v[0] * m[0] + v[1] * m[4] + v[2] * m[8] + v[3] * m[12],
     v[0] * m[1] + v[1] * m[5] + v[2] * m[9] + v[3] * m[13],
     v[0] * m[2] + v[1] * m[6] + v[2] * m[10] + v[3] * m[14],
     v[0] * m[3] + v[1] * m[7] + v[2] * m[11] + v[3] * m[15]]
  }

  /** Row `a` of a product against column `c`, regrouped: `(a·B)·c == a·(B·c)`. The
      intermediate rows are named so that callers can match them term by term. */
  lemma DotAssociative(a0: real, a1: real, a2: real, a3: real,
                       b0: real, b1: real, b2: real, b3: real, b4: real, b5: real, b6: real, b7: real,
                       b8: real, b9: real, b10: real, b11: real, b12: real, b13: real, b14: real, b15: real,
                       c0: real, c1: real, c2: real, c3: real,
                       p0: real, p1: real, p2: real, p3: real, q0: real, q1: real, q2: real, q3: real)
    requires p0 == a0 * b0 + a1 * b4 + a2 * b8 + a3 * b12 && p1 == a0 * b1 + a1 * b5 + a2 * b9 + a3 * b13
    requires p2 == a0 * b2 + a1 * b6 + a2 * b10 + a3 * b14 && p3 == a0 * b3 + a1 * b7 + a2 * b11 + a3 * b15
    requires q0 == b0 * c0 + b1 * c1 + b2 * c2 + b3 * c3 && q1 == b4 * c0 + b5 * c1 + b6 * c2 + b7 * c3
    requires q2 == b8 * c0 + b9 * c1 + b10 * c2 + b11 * c3 && q3 == b12 * c0 + b13 * c1 + b14 * c2 + b15 * c3
    ensures p0 * c0 + p1 * c1 + p2 * c2 + p3 * c3 == a0 * q0 + a1 * q1 + a2 * q2 + a3 * q3
  {
  }

  lemma ApplyProductAt0(a: Mat4, b: Mat4, v: seq<real>)
    requires |v| == 4
    ensures Apply(v, Product(b, a))[0] == Apply(Apply(v, b), a)[0]
  {
    var w, p := Apply(v, b), Product(b, a);
    DotAssociative(v[0], v[1], v[2], v[3], b[0], b[1], b[2], b[3], b[4], b[5], b[6], b[7], b[8], b[9], b[10], b[11], b[12], b[13], b[14], b[15],
                   a[0], a[4], a[8], a[12], w[0], w[1], w[2], w[3], p[0], p[4], p[8], p[12]);
  }

  lemma ApplyProductAt1(a: Mat4, b: Mat4, v: seq<real>)
    requires |v| == 4
    ensures Apply(v, Product(b, a))[1] == Apply(Apply(v, b), a)[1]
  {
    var w, p := Apply(v, b), Product(b, a);
    DotAssociative(v[0], v[1], v[2], v[3], b[0], b[1], b[2], b[3], b[4], b[5], b[6], b[7], b[8], b[9], b[10], b[11], b[12], b[13], b[14], b[15],
                   a[1], a[5], a[9], a[13], w[0], w[1], w[2], w[3], p[1], p[5], p[9], p[13]);
  }

  lemma ApplyProductAt2(a: Mat4, b: Mat4, v: seq<real>)
    requires |v| == 4
    ensures Apply(v, Product(b, a))[2] == Apply(Apply(v, b), a)[2]
  {
    var w, p := Apply(v, b), Product(b, a);
    DotAssociative(v[0], v[1], v[2], v[3], b[0], b[1], b[2], b[3], b[4], b[5], b[6], b[7], b[8], b[9], b[10], b[11], b[12], b[13], b[14], b[15],
                   a[2], a[6], a[10], a[14], w[0], w[1], w[2], w[3], p[2], p[6], p[10], p[14]);
  }

  lemma ApplyProductAt3(a: Mat4, b: Mat4, v: seq<real>)
    requires |v| == 4
    ensures Apply(v, Product(b, a))[3] == Apply(Apply(v, b), a)[3]
  {
    var w, p := Apply(v, b), Product(b, a);
    DotAssociative(v[0], v[1], v[2], v[3], b[0], b[1], b[2], b[3], b[4], b[5], b[6], b[7], b[8], b[9], b[10], b[11], b[12], b[13], b[14], b[15],
                   a[3], a[7], a[11], a[15], w[0], w[1], w[2], w[3], p[3], p[7], p[11], p[15]);
  }

  /** Transforming by `a.multiply(b)` is transforming by `b`, then by `a`; so the chain
      `perspective.multiply(view).multiply(scale)` scales first and projects last. */
  lemma MultiplyAppliesRightOperandFirst(a: Mat4, b: Mat4, v: seq<real>)
    requires |v| == 4
    ensures Apply(v, Multiply(a, b)) == Apply(Apply(v, b), a)
  {
    ApplyProductAt0(a, b, v);
    ApplyProductAt1(a, b, v);
    ApplyProductAt2(a, b, v);
    ApplyProductAt3(a, b, v);
  }

  lemma ProductAssociativeAt0(a: Mat4, b: Mat4, c: Mat4)
    ensures Product(Product(a, b), c)[0] == Product(a, Product(b, c))[0]
  {
    var ab, bc := Product(a, b), Product(b, c);
    DotAssociative(a[0], a[1], a[2], a[3], b[0], b[1], b[2], b[3], b[4], b[5], b[6], b[7], b[8], b[9], b[10], b[11], b[12], b[13], b[14], b[15],
                   c[0], c[4], c[8], c[12], ab[0], ab[1], ab[2], ab[3], bc[0], bc[4], bc[8], bc[12]);
  }

  lemma ProductAssociativeAt1(a: Mat4, b: Mat4, c: Mat4)
    ensures Product(Product(a, b), c)[1] == Product(a, Product(b, c))[1]
  {
    var ab, bc := Product(a, b), Product(b, c);
    DotAssociative(a[0], a[1], a[2], a[3], b[0], b[1], b[2], b[3], b[4], b[5], b[6], b[7], b[8], b[9], b[10], b[11], b[12], b[13], b[14], b[15],
                   c[1], c[5], c[9], c[13], ab[0], ab[1], ab[2], ab[3], bc[1], bc[5], bc[9], bc[13]);
  }

  lemma ProductAssociativeAt2(a: Mat4, b: Mat4, c: Mat4)
    ensures Product(Product(a, b), c)[2] == Product(a, Product(b, c))[2]
  {
    var ab, bc := Product(a, b), Product(b, c);
    DotAssociative(a[0], a[1], a[2], a[3], b[0], b[1], b[2], b[3], b[4], b[5], b[6], b[7], b[8], b[9], b[10], b[11], b[12], b[13], b[14], b[15],
                   c[2], c[6], c[10], c[14], ab[0], ab[1], ab[2], ab[3], bc[2], bc[6], bc[10], bc[14]);
  }

  lemma ProductAssociativeAt3(a: Mat4, b: Mat4, c: Mat4)
    ensures Product(Product(a, b), c)[3] == Product(a, Product(b, c))[3]
  {
    var ab, bc := Product(a, b), Product(b, c);
    DotAssociative(a[0], a[1], a[2], a[3], b[0], b[1], b[2], b[3], b[4], b[5], b[6], b[7], b[8], b[9], b[10], b[11], b[12], b[13], b[14], b[15],
                   c[3], c[7], c[11], c[15], ab[0], ab[1], ab[2], ab[3], bc[3], bc[7], bc[11], bc[15]);
  }

  lemma ProductAssociativeAt4(a: Mat4, b: Mat4, c: Mat4)
    ensures Product(Product(a, b), c)[4] == Product(a, Product(b, c))[4]
  {
    var ab, bc := Product(a, b), Product(b, c);
    DotAssociative(a[4], a[5], a[6], a[7], b[0], b[1], b[2], b[3], b[4], b[5], b[6], b[7], b[8], b[9], b[10], b[11], b[12], b[13], b[14], b[15],
                   c[0], c[4], c[8], c[12], ab[4], ab[5], ab[6], ab[7], bc[0], bc[4], bc[8], bc[12]);
  }

  lemma ProductAssociativeAt5(a: Mat4, b: Mat4, c: Mat4)
    ensures Product(Product(a, b), c)[5] == Product(a, Product(b, c))[5]
  {
    var ab, bc := Product(a, b), Product(b, c);
    DotAssociative(a[4], a[5], a[6], a[7], b[0], b[1], b[2], b[3], b[4], b[5], b[6], b[7], b[8], b[9], b[10], b[11], b[12], b[13], b[14], b[15],
                   c[1], c[5], c[9], c[13], ab[4], ab[5], ab[6], ab[7], bc[1], bc[5], bc[9], bc[13]);
  }

  lemma ProductAssociativeAt6(a: Mat4, b: Mat4, c: Mat4)
    ensures Product(Product(a, b), c)[6] == Product(a, Product(b, c))[6]
  {
    var ab, bc := Product(a, b), Product(b, c);
    DotAssociative(a[4], a[5], a[6], a[7], b[0], b[1], b[2], b[3], b[4], b[5], b[6], b[7], b[8], b[9], b[10], b[11], b[12], b[13], b[14], b[15],
                   c[2], c[6], c[10], c[14], ab[4], ab[5], ab[6], ab[7], bc[2], bc[6], bc[10], bc[14]);
  }

  lemma ProductAssociativeAt7(a: Mat4, b: Mat4, c: Mat4)
    ensures Product(Product(a, b), c)[7] == Product(a, Product(b, c))[7]
  {
    var ab, bc := Product(a, b), Product(b, c);
    DotAssociative(a[4], a[5], a[6], a[7], b[0], b[1], b[2], b[3], b[4], b[5], b[6], b[7], b[8], b[9], b[10], b[11], b[12], b[13], b[14], b[15],
                   c[3], c[7], c[11], c[15], ab[4], ab[5], ab[6], ab[7], bc[3], bc[7], bc[11], bc[15]);
  }

  lemma ProductAssociativeAt8(a: Mat4, b: Mat4, c: Mat4)
    ensures Product(Product(a, b), c)[8] == Product(a, Product(b, c))[8]
  {
    var ab, bc := Product(a, b), Product(b, c);
    DotAssociative(a[8], a[9], a[10], a[11], b[0], b[1], b[2], b[3], b[4], b[5], b[6], b[7], b[8], b[9], b[10], b[11], b[12], b[13], b[14], b[15],
                   c[0], c[4], c[8], c[12], ab[8], ab[9], ab[10], ab[11], bc[0], bc[4], bc[8], bc[12]);
  }

  lemma ProductAssociativeAt9(a: Mat4, b: Mat4, c: Mat4)
    ensures Product(Product(a, b), c)[9] == Product(a, Product(b, c))[9]
  {
    var ab, bc := Product(a, b), Product(b, c);
    DotAssociative(a[8], a[9], a[10], a[11], b[0], b[1], b[2], b[3], b[4], b[5], b[6], b[7], b[8], b[9], b[10], b[11], b[12], b[13], b[14], b[15],
                   c[1], c[5], c[9], c[13], ab[8], ab[9], ab[10], ab[11], bc[1], bc[5], bc[9], bc[13]);
  }

  lemma ProductAssociativeAt10(a: Mat4, b: Mat4, c: Mat4)
    ensures Product(Product(a, b), c)[10] == Product(a, Product(b, c))[10]
  {
    var ab, bc := Product(a, b), Product(b, c);
    DotAssociative(a[8], a[9], a[10], a[11], b[0], b[1], b[2], b[3], b[4], b[5], b[6], b[7], b[8], b[9], b[10], b[11], b[12], b[13], b[14], b[15],
                   c[2], c[6], c[10], c[14], ab[8], ab[9], ab[10], ab[11], bc[2], bc[6], bc[10], bc[14]);
  }

  lemma ProductAssociativeAt11(a: Mat4, b: Mat4, c: Mat4)
    ensures Product(Product(a, b), c)[11] == Product(a, Product(b, c))[11]
  {
    var ab, bc := Product(a, b), Product(b, c);
    DotAssociative(a[8], a[9], a[10], a[11], b[0], b[1], b[2], b[3], b[4], b[5], b[6], b[7], b[8], b[9], b[10], b[11], b[12], b[13], b[14], b[15],
                   c[3], c[7], c[11], c[15], ab[8], ab[9], ab[10], ab[11], bc[3], bc[7], bc[11], bc[15]);
  }

  lemma ProductAssociativeAt12(a: Mat4, b: Mat4, c: Mat4)
    ensures Product(Product(a, b), c)[12] == Product(a, Product(b, c))[12]
  {
    var ab, bc := Product(a, b), Product(b, c);
    DotAssociative(a[12], a[13], a[14], a[15], b[0], b[1], b[2], b[3], b[4], b[5], b[6], b[7], b[8], b[9], b[10], b[11], b[12], b[13], b[14], b[15],
                   c[0], c[4], c[8], c[12], ab[12], ab[13], ab[14], ab[15], bc[0], bc[4], bc[8], bc[12]);
  }

  lemma ProductAssociativeAt13(a: Mat4, b: Mat4, c: Mat4)
    ensures Product(Product(a, b), c)[13] == Product(a, Product(b, c))[13]
  {
    var ab, bc := Product(a, b), Product(b, c);
    DotAssociative(a[12], a[13], a[14], a[15], b[0], b[1], b[2], b[3], b[4], b[5], b[6], b[7], b[8], b[9], b[10], b[11], b[12], b[13], b[14], b[15],
                   c[1], c[5], c[9], c[13], ab[12], ab[13], ab[14], ab[15], bc[1], bc[5], bc[9], bc[13]);
  }

  lemma ProductAssociativeAt14(a: Mat4, b: Mat4, c: Mat4)
    ensures Product(Product(a, b), c)[14] == Product(a, Product(b, c))[14]
  {
    var ab, bc := Product(a, b), Product(b, c);
    DotAssociative(a[12], a[13], a[14], a[15], b[0], b[1], b[2], b[3], b[4], b[5], b[6], b[7], b[8], b[9], b[10], b[11], b[12], b[13], b[14], b[15],
                   c[2], c[6], c[10], c[14], ab[12], ab[13], ab[14], ab[15], bc[2], bc[6], bc[10], bc[14]);
  }

  lemma ProductAssociativeAt15(a: Mat4, b: Mat4, c: Mat4)
    ensures Product(Product(a, b), c)[15] == Product(a, Product(b, c))[15]
  {
    var ab, bc := Product(a, b), Product(b, c);
    DotAssociative(a[12], a[13], a[14], a[15], b[0], b[1], b[2], b[3], b[4], b[5], b[6], b[7], b[8], b[9], b[10], b[11], b[12], b[13], b[14], b[15],
                   c[3], c[7], c[11], c[15], ab[12], ab[13], ab[14], ab[15], bc[3], bc[7], bc[11], bc[15]);
  }

  /** The product is associative. */
  lemma ProductAssociative(a: Mat4, b: Mat4, c: Mat4)
    ensures Product(Product(a, b), c) == Product(a, Product(b, c))
  {
    ProductAssociativeAt0(a, b, c);
    ProductAssociativeAt1(a, b, c);
    ProductAssociativeAt2(a, b, c);
    ProductAssociativeAt3(a, b, c);
    ProductAssociativeAt4(a, b, c);
    ProductAssociativeAt5(a, b, c);
    ProductAssociativeAt6(a, b, c);
    ProductAssociativeAt7(a, b, c);
    ProductAssociativeAt8(a, b, c);
    ProductAssociativeAt9(a, b, c);
    ProductAssociativeAt10(a, b, c);
    ProductAssociativeAt11(a, b, c);
    ProductAssociativeAt12(a, b, c);
    ProductAssociativeAt13(a, b, c);
    ProductAssociativeAt14(a, b, c);
    ProductAssociativeAt15(a, b, c);
  }

  /** Four-entry rows with equal entries are equal; callers pass the entries as they have
      computed them, which spares the solver a case split over the indices. */
  lemma EqualRows(u: seq<real>, v: seq<real>)
    requires |u| == 4 && |v| == 4
    requires u[0] == v[0] && u[1] == v[1] && u[2] == v[2] && u[3] == v[3]
    ensures u == v
  {
  }

  /** The same for whole matrices. */
  lemma EqualMatrices(a: Mat4, b: Mat4)
    requires a[0] == b[0] && a[1] == b[1] && a[2] == b[2] && a[3] == b[3]
    requires a[4] == b[4] && a[5] == b[5] && a[6] == b[6] && a[7] == b[7]
    requires a[8] == b[8] && a[9] == b[9] && a[10] == b[10] && a[11] == b[11]
    requires a[12] == b[12] && a[13] == b[13] && a[14] == b[14] && a[15] == b[15]
    ensures a == b
  {
  }

  /** The identity is neutral on both sides. */
  lemma ProductIdentity(a: Mat4)
    ensures Product(a, Identity()) == a && Product(Identity(), a) == a
  {
  }

  /** A left inverse and a right inverse of the same matrix are equal; so two inverses that
      are computed differently agree whenever each one is an inverse. */
  lemma InverseUnique(x: Mat4, m: Mat4, y: Mat4)
    requires Product(x, m) == Identity() && Product(m, y) == Identity()
    ensures x == y
  {
    calc {
      x;
      { ProductIdentity(x); }
      Product(x, Identity());
      Product(x, Product(m, y));
      { ProductAssociative(x, m, y); }
      Product(Product(x, m), y);
      Product(Identity(), y);
      { ProductIdentity(y); }
      y;
    }
  }

  /** The worked product of the matrix tests: `[1..16] × [16..1]`. */
  lemma MultiplyExample()
    ensures Multiply([1.0, 2.0, 3.0, 4.0, 5.0, 6.0, 7.0, 8.0, 9.0, 10.0, 11.0, 12.0, 13.0, 14.0, 15.0, 16.0],
                     [16.0, 15.0, 14.0, 13.0, 12.0, 11.0, 10.0, 9.0, 8.0, 7.0, 6.0, 5.0, 4.0, 3.0, 2.0, 1.0])
         == [386.0, 444.0, 502.0, 560.0, 274.0, 316.0, 358.0, 400.0,
             162.0, 188.0, 214.0, 240.0, 50.0, 60.0, 70.0, 80.0]
  {
  }
}
