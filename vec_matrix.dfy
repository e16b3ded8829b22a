/** The older scene code's 3×3 `VecMatrix` (src/app/core/class/VecMatrix.ts): nine
    numbers row-major, with the rows and columns computed once by the constructor, a
    product whose operand order matches `Matrix4.multiply`, the Euler rotation product
    and a padding helper for 16-byte aligned uniform buffers. */
module VecMatrix3 {
  import opened Wrappers
  import opened Numeric
  import opened Vectors

  type Mat3 = m: seq<real> | |m| == 9 witness [0.0, 0.0, 0.0, 0.0, 0.0, 0.0, 0.0, 0.0, 0.0]

  const Identity3: Mat3 := [1.0, 0.0, 0.0, 0.0, 1.0, 0.0, 0.0, 0.0, 1.0]

  /** `Number(matrix[index]) || 0` for one index: a missing entry or NaN (`None`) and 0
      all become 0. */
  function EntryOrZero(input: seq<Option<real>>, i: nat): real {
    if i < |input| && input[i].Some? then input[i].value else 0.0
  }

  /** The constructor's `Array(9).fill(null).map(...)`: always nine entries; a longer input
      is cut off. */
  function Normalise(input: seq<Option<real>>): (m: Mat3)
    ensures forall i :: 0 <= i < 9 ==> m[i] == EntryOrZero(input, i)
  {
    seq(9, i requires 0 <= i < 9 => EntryOrZero(input, i))
  }

  /** The input a plain nine-number array stands for. */
  function Present(m: seq<real>): seq<Option<real>> {
    seq(|m|, i requires 0 <= i < |m| => Some(m[i]))
  }

  /** `matrix.filter((_, index) => keep.includes(index + 1))`, from index `i` on. */
  function Select(m: seq<real>, keep: seq<nat>, i: nat): seq<real>
    requires i <= |m|
    decreases |m| - i
  {
    if i == |m| then [] else (if i + 1 in keep then [m[i]] else []) + Select(m, keep, i + 1)
  }

  /** A `VecMatrix` object: its readonly `matrix`, `rows` and `columns`. */
  datatype VecMatrix = VecMatrix(matrix: Mat3, rows: seq<seq<real>>, columns: seq<seq<real>>)

  /** `new VecMatrix(input)`. */
  function NewVecMatrix(input: seq<Option<real>>): VecMatrix {
    var m := Normalise(input);
    VecMatrix(m, [m[0..3], m[3..6], m[6..9]],
              [Select(m, [1, 4, 7], 0), Select(m, [2, 5, 8], 0), Select(m, [3, 6, 9], 0)])
  }

  /** Column `c` keeps the indices `c`, `c + 3` and `c + 6`, in order. */
  lemma {:induction false} SelectColumn(m: Mat3, c: nat)
    requires c < 3
    ensures Select(m, [c + 1, c + 4, c + 7], 0) == [m[c], m[c + 3], m[c + 6]]
  {
    var keep := [c + 1, c + 4, c + 7];
    assert Select(m, keep, 9) == [];
    assert Select(m, keep, 8) == (if 9 in keep then [m[8]] else []);
    assert Select(m, keep, 7) == (if 8 in keep then [m[7]] else []) + Select(m, keep, 8);
    assert Select(m, keep, 6) == (if 7 in keep then [m[6]] else []) + Select(m, keep, 7);
    assert Select(m, keep, 5) == (if 6 in keep then [m[5]] else []) + Select(m, keep, 6);
    assert Select(m, keep, 4) == (if 5 in keep then [m[4]] else []) + Select(m, keep, 5);
    assert Select(m, keep, 3) == (if 4 in keep then [m[3]] else []) + Select(m, keep, 4);
    assert Select(m, keep, 2) == (if 3 in keep then [m[2]] else []) + Select(m, keep, 3);
    assert Select(m, keep, 1) == (if 2 in keep then [m[1]] else []) + Select(m, keep, 2);
    assert Select(m, keep, 0) == (if 1 in keep then [m[0]] else []) + Select(m, keep, 1);
  }

  /** The constructor's rows are the three slices of `matrix` and its columns keep the
      indices `c`, `c + 3`, `c + 6`. */
  lemma RowsAndColumns(input: seq<Option<real>>)
    ensures var v := NewVecMatrix(input);
            v.rows == [[v.matrix[0], v.matrix[1], v.matrix[2]],
                       [v.matrix[3], v.matrix[4], v.matrix[5]],
                       [v.matrix[6], v.matrix[7], v.matrix[8]]] &&
            v.columns == [[v.matrix[0], v.matrix[3], v.matrix[6]],
                          [v.matrix[1], v.matrix[4], v.matrix[7]],
                          [v.matrix[2], v.matrix[5], v.matrix[8]]]
  {
    var m := Normalise(input);
    assert m[0..3] == [m[0], m[1], m[2]] && m[3..6] == [m[3], m[4], m[5]] && m[6..9] == [m[6], m[7], m[8]];
    SelectColumn(m, 0);
    SelectColumn(m, 1);
    SelectColumn(m, 2);
  }

  /** Rows and columns describe the same entries: `rows[r][c] == columns[c][r] == matrix[3r + c]`. */
  lemma RowsMatchColumns(input: seq<Option<real>>, r: nat, c: nat)
    requires r < 3 && c < 3
    ensures var v := NewVecMatrix(input);
            |v.rows[r]| == 3 && |v.columns[c]| == 3 && v.rows[r][c] == v.columns[c][r] == v.matrix[3 * r + c]
  {
    RowsAndColumns(input);
    var v := NewVecMatrix(input);
    if r == 0 {
    } else if r == 1 {
    } else {
    }
  }

  /** A nine-number array passes through the constructor unchanged, and anything beyond
      the ninth entry is ignored. */
  lemma NormaliseKeepsNine(m: Mat3, extra: seq<Option<real>>)
    ensures Normalise(Present(m)) == m
    ensures Normalise(Present(m) + extra) == m
  {
  }

  /** Building a matrix from a built matrix changes nothing. */
  lemma NormaliseIdempotent(input: seq<Option<real>>)
    ensures Normalise(Present(Normalise(input))) == Normalise(input)
  {
  }

  /** `reduce((a, b) => a + b)` over three numbers. */
  function Sum3(s: seq<real>): real
    requires |s| == 3
  {
    s[0] + s[1] + s[2]
  }

  /** One entry of a product: `rowB.map((value, k) => value * column[k]).reduce(+)`. */
  function RowTimesColumn(row: seq<real>, column: seq<real>): real
    requires |row| == 3 && |column| == 3
  {
    Sum3(seq(3, k requires 0 <= k < 3 => row[k] * column[k]))
  }

  /** `VecMatrix.multiply(m1, m2)` on two arrays: both are wrapped, every row of `m2` is
      combined with every column of `m1`, and the rows are `flat()`ed. */
  function Multiply(m1: Mat3, m2: Mat3): Mat3
  {
    var ma, mb := NewVecMatrix(Present(m1)), NewVecMatrix(Present(m2));
    RowsAndColumns(Present(m1));
    RowsAndColumns(Present(m2));
    var rs := seq(3, rb requires 0 <= rb < 3 =>
      seq(3, j requires 0 <= j < 3 => RowTimesColumn(mb.rows[rb], ma.columns[j])));
    rs[0] + rs[1] + rs[2]
  }

  /** `a0·b0 + a1·b1 + a2·b2`. */
  function Dot3(a0: real, a1: real, a2: real, b0: real, b1: real, b2: real): real {
    a0 * b0 + a1 * b1 + a2 * b2
  }

  /** The textbook product `a·b`. */
  function Product3(a: Mat3, b: Mat3): Mat3 {
    [Dot3(a[0], a[1], a[2], b[0], b[3], b[6]), Dot3(a[0], a[1], a[2], b[1], b[4], b[7]), Dot3(a[0], a[1], a[2], b[2], b[5], b[8]),
     Dot3(a[3], a[4], a[5], b[0], b[3], b[6]), Dot3(a[3], a[4], a[5], b[1], b[4], b[7]), Dot3(a[3], a[4], a[5], b[2], b[5], b[8]),
     Dot3(a[6], a[7], a[8], b[0], b[3], b[6]), Dot3(a[6], a[7], a[8], b[1], b[4], b[7]), Dot3(a[6], a[7], a[8], b[2], b[5], b[8])]
  }

  /** A row against a column, when both are given entry by entry. */
  lemma RowTimesColumnOf(row: seq<real>, column: seq<real>, a0: real, a1: real, a2: real, b0: real, b1: real, b2: real)
    requires row == [a0, a1, a2] && column == [b0, b1, b2]
    ensures RowTimesColumn(row, column) == a0 * b0 + a1 * b1 + a2 * b2
  {
  }

  /** Where `flat()` puts the entry of row `rb` and column `j`. */
  lemma MultiplyLayout(m1: Mat3, m2: Mat3, rb: nat, j: nat)
    requires rb < 3 && j < 3
    ensures var ma, mb := NewVecMatrix(Present(m1)), NewVecMatrix(Present(m2));
            |mb.rows[rb]| == 3 && |ma.columns[j]| == 3 &&
            Multiply(m1, m2)[3 * rb + j] == RowTimesColumn(mb.rows[rb], ma.columns[j])
  {
    var ma, mb := NewVecMatrix(Present(m1)), NewVecMatrix(Present(m2));
    RowsAndColumns(Present(m1));
    RowsAndColumns(Present(m2));
    var rs := seq(3, rb requires 0 <= rb < 3 =>
      seq(3, j requires 0 <= j < 3 => RowTimesColumn(mb.rows[rb], ma.columns[j])));
    assert Multiply(m1, m2) == rs[0] + rs[1] + rs[2];
  }

  /** Row `r` of a wrapped nine-number array holds its entries `3r`, `3r + 1`, `3r + 2`;
      column `c` holds `c`, `c + 3`, `c + 6`. */
  lemma RowAndColumnOf(m: Mat3, r: nat, c: nat)
    requires r < 3 && c < 3
    ensures NewVecMatrix(Present(m)).rows[r] == [m[3 * r], m[3 * r + 1], m[3 * r + 2]]
    ensures NewVecMatrix(Present(m)).columns[c] == [m[c], m[3 + c], m[6 + c]]
  {
    RowsAndColumns(Present(m));
    NormaliseKeepsNine(m, []);
    if c == 0 {
    } else if c == 1 {
    } else {
    }
  }

  /** Entry `(rb, j)` of `multiply(m1, m2)`: row `rb` of `m2` against column `j` of `m1`. */
  lemma MultiplyEntry(m1: Mat3, m2: Mat3, rb: nat, j: nat)
    requires rb < 3 && j < 3
    ensures Multiply(m1, m2)[3 * rb + j] == Dot3(m2[3 * rb], m2[3 * rb + 1], m2[3 * rb + 2], m1[j], m1[3 + j], m1[6 + j])
  {
    MultiplyLayout(m1, m2, rb, j);
    RowAndColumnOf(m2, rb, j);
    RowAndColumnOf(m1, rb, j);
    RowTimesColumnOf(NewVecMatrix(Present(m2)).rows[rb], NewVecMatrix(Present(m1)).columns[j],
                     m2[3 * rb], m2[3 * rb + 1], m2[3 * rb + 2], m1[j], m1[3 + j], m1[6 + j]);
  }

  lemma EqualMat3(a: Mat3, b: Mat3)
    requires a[0] == b[0] && a[1] == b[1] && a[2] == b[2] && a[3] == b[3] && a[4] == b[4]
    requires a[5] == b[5] && a[6] == b[6] && a[7] == b[7] && a[8] == b[8]
    ensures a == b
  {
  }

  /** The three entries of row `rb` of `multiply(m1, m2)`. */
  lemma MultiplyRow(m1: Mat3, m2: Mat3, rb: nat)
    requires rb < 3
    ensures var r := Multiply(m1, m2);
            r[3 * rb] == Dot3(m2[3 * rb], m2[3 * rb + 1], m2[3 * rb + 2], m1[0], m1[3], m1[6]) &&
            r[3 * rb + 1] == Dot3(m2[3 * rb], m2[3 * rb + 1], m2[3 * rb + 2], m1[1], m1[4], m1[7]) &&
            r[3 * rb + 2] == Dot3(m2[3 * rb], m2[3 * rb + 1], m2[3 * rb + 2], m1[2], m1[5], m1[8])
  {
    MultiplyEntry(m1, m2, rb, 0);
    MultiplyEntry(m1, m2, rb, 1);
    MultiplyEntry(m1, m2, rb, 2);
  }

  /** `multiply(m1, m2)` is the textbook product `m2·m1`, as for `Matrix4`. */
  lemma MultiplyIsProduct(m1: Mat3, m2: Mat3)
    ensures Multiply(m1, m2) == Product3(m2, m1)
  {
    var r, p := Multiply(m1, m2), Product3(m2, m1);
    MultiplyRow(m1, m2, 0);
    MultiplyRow(m1, m2, 1);
    MultiplyRow(m1, m2, 2);
    EqualMat3(r, p);
  }

  /** `RotationMatrixX(angle)`. */
  function RotationX3(trig: Trig, angle: real): Mat3 {
    [1.0, 0.0, 0.0,
     0.0, trig.cos(angle), -trig.sin(angle),
     0.0, trig.sin(angle), trig.cos(angle)]
  }

  /** `RotationMatrixY(angle)`. */
  function RotationY3(trig: Trig, angle: real): Mat3 {
    [trig.cos(angle), 0.0, trig.sin(angle),
     0.0, 1.0, 0.0,
     -trig.sin(angle), 0.0, trig.cos(angle)]
  }

  /** `RotationMatrixZ(angle)`. */
  function RotationZ3(trig: Trig, angle: real): Mat3 {
    [trig.cos(angle), -trig.sin(angle), 0.0,
     trig.sin(angle), trig.cos(angle), 0.0,
     0.0, 0.0, 1.0]
  }

  /** `getRotationMatrice(angles)`: `[RX, RY, RZ].reduce(multiply)`. */
  function GetRotationMatrice(trig: Trig, angles: Vec3): Mat3 {
    Multiply(Multiply(RotationX3(trig, angles.x), RotationY3(trig, angles.y)), RotationZ3(trig, angles.z))
  }

  /** The fold multiplies each new matrix on the left: the result is `RZ·RY·RX`. */
  lemma RotationMatriceOrder(trig: Trig, angles: Vec3)
    ensures GetRotationMatrice(trig, angles)
         == Product3(RotationZ3(trig, angles.z), Product3(RotationY3(trig, angles.y), RotationX3(trig, angles.x)))
  {
    var rx, ry, rz := RotationX3(trig, angles.x), RotationY3(trig, angles.y), RotationZ3(trig, angles.z);
    MultiplyIsProduct(rx, ry);
    MultiplyIsProduct(Multiply(rx, ry), rz);
  }

  /** With `cos 0 = 1` and `sin 0 = 0`, each rotation at angle 0 and their product are
      the identity. */
  lemma RotationsAtZero3(trig: Trig)
    requires ZeroAngle(trig)
    ensures RotationX3(trig, 0.0) == Identity3 && RotationY3(trig, 0.0) == Identity3 && RotationZ3(trig, 0.0) == Identity3
    ensures GetRotationMatrice(trig, Vec3(0.0, 0.0, 0.0)) == Identity3
  {
    RotationMatriceOrder(trig, Vec3(0.0, 0.0, 0.0));
  }

  /** `TranslationMatrix(t)`: rows 0 and 1 all ones, row 2 holding `t`. */
  function TranslationMatrix(t: Vec3): Mat3 {
    [1.0, 1.0, 1.0,
     1.0, 1.0, 1.0,
     t.x, t.y, t.z]
  }

  /** What the matrix does to a row vector `(x, y, 1)`: every component becomes `x + y`
      plus the component of `t`, so it is not a translation of `(x, y)`. */
  lemma TranslationMatrixOnRowVector(t: Vec3, x: real, y: real)
    ensures var m := TranslationMatrix(t);
            [x * m[0] + y * m[3] + 1.0 * m[6], x * m[1] + y * m[4] + 1.0 * m[7], x * m[2] + y * m[5] + 1.0 * m[8]]
              == [x + y + t.x, x + y + t.y, x + y + t.z]
  {
  }

  /** `addVertexFloat32Padding(mat)`: each row followed by a 0. */
  function AddVertexFloat32Padding(mat: Mat3): seq<real> {
    var v := NewVecMatrix(Present(mat));
    v.rows[0] + [0.0] + v.rows[1] + [0.0] + v.rows[2] + [0.0]
  }

  /** Twelve numbers: entry `(r, c)` at `4r + c` and a zero closing each row. */
  lemma PaddingLayout(mat: Mat3)
    ensures var p := AddVertexFloat32Padding(mat);
            p == [mat[0], mat[1], mat[2], 0.0, mat[3], mat[4], mat[5], 0.0, mat[6], mat[7], mat[8], 0.0]
  {
    RowsAndColumns(Present(mat));
    NormaliseKeepsNine(mat, []);
  }
}
