/** `Matrix4.inverse` (src/app/core/engine/Maths/Matrix/Matrix4.ts): Gauss-Jordan
    elimination on the augmented 4×8 array `[A | I]`, row by row, without partial pivoting:
    a row is swapped in only when the pivot is exactly zero. Every row operation keeps
    "left half = right half · A" row by row, and the elimination turns the left half into
    the identity, so the right half is a left inverse of `A`. */
module GaussJordan {
  import opened Wrappers
  import opened Matrix4
  import opened CofactorInverse

  /** The augmented array of the source: four rows of eight numbers. */
  ghost predicate Augmented(a: array2<real>) {
    a.Length0 == 4 && a.Length1 == 8
  }

  /** Row `r` of the left half. */
  ghost function LeftRow(a: array2<real>, r: nat): seq<real>
    reads a
    requires Augmented(a) && r < 4
  {
    [a[r, 0], a[r, 1], a[r, 2], a[r, 3]]
  }

  /** Row `r` of the right half. */
  ghost function RightRow(a: array2<real>, r: nat): seq<real>
    reads a
    requires Augmented(a) && r < 4
  {
    [a[r, 4], a[r, 5], a[r, 6], a[r, 7]]
  }

  /** Every row says "left row = right row · A". */
  ghost predicate Consistent(a: array2<real>, m: Mat4)
    reads a
    requires Augmented(a)
  {
    forall r :: 0 <= r < 4 ==> LeftRow(a, r) == Apply(RightRow(a, r), m)
  }

  /** The columns of the left half before `i` are those of the identity. */
  ghost predicate ReducedBefore(a: array2<real>, i: nat)
    reads a
    requires Augmented(a) && i <= 4
  {
    forall r, c :: 0 <= r < 4 && 0 <= c < i ==> a[r, c] == if r == c then 1.0 else 0.0
  }

  /** The right half, each row's `slice(n, 2n)` flattened in order. */
  function RightHalf(a: array2<real>): Mat4
    reads a
    requires a.Length0 == 4 && a.Length1 == 8
  {
    [a[0, 4], a[0, 5], a[0, 6], a[0, 7],
     a[1, 4], a[1, 5], a[1, 6], a[1, 7],
     a[2, 4], a[2, 5], a[2, 6], a[2, 7],
     a[3, 4], a[3, 5], a[3, 6], a[3, 7]]
  }

  /** Dividing a row vector by `p` divides its image by `p`. */
  lemma ApplyDivided(v: seq<real>, m: Mat4, p: real)
    requires |v| == 4 && p != 0.0
    ensures Apply([v[0] / p, v[1] / p, v[2] / p, v[3] / p], m)
         == [Apply(v, m)[0] / p, Apply(v, m)[1] / p, Apply(v, m)[2] / p, Apply(v, m)[3] / p]
  {
    var divided := [v[0] / p, v[1] / p, v[2] / p, v[3] / p];
    ApplyDividedAt0(v, divided, m, p);
    ApplyDividedAt1(v, divided, m, p);
    ApplyDividedAt2(v, divided, m, p);
    ApplyDividedAt3(v, divided, m, p);
  }

  lemma ApplyDividedAt0(v: seq<real>, divided: seq<real>, m: Mat4, p: real)
    requires |v| == 4 && |divided| == 4 && p != 0.0
    requires divided[0] == v[0] / p && divided[1] == v[1] / p && divided[2] == v[2] / p && divided[3] == v[3] / p
    ensures Apply(divided, m)[0] == Apply(v, m)[0] / p
  {
    DividedDot(v[0], v[1], v[2], v[3], divided[0], divided[1], divided[2], divided[3],
               m[0], m[4], m[8], m[12], p, Apply(v, m)[0], Apply(divided, m)[0]);
  }

  lemma ApplyDividedAt1(v: seq<real>, divided: seq<real>, m: Mat4, p: real)
    requires |v| == 4 && |divided| == 4 && p != 0.0
    requires divided[0] == v[0] / p && divided[1] == v[1] / p && divided[2] == v[2] / p && divided[3] == v[3] / p
    ensures Apply(divided, m)[1] == Apply(v, m)[1] / p
  {
    DividedDot(v[0], v[1], v[2], v[3], divided[0], divided[1], divided[2], divided[3],
               m[1], m[5], m[9], m[13], p, Apply(v, m)[1], Apply(divided, m)[1]);
  }

  lemma ApplyDividedAt2(v: seq<real>, divided: seq<real>, m: Mat4, p: real)
    requires |v| == 4 && |divided| == 4 && p != 0.0
    requires divided[0] == v[0] / p && divided[1] == v[1] / p && divided[2] == v[2] / p && divided[3] == v[3] / p
    ensures Apply(divided, m)[2] == Apply(v, m)[2] / p
  {
    DividedDot(v[0], v[1], v[2], v[3], divided[0], divided[1], divided[2], divided[3],
               m[2], m[6], m[10], m[14], p, Apply(v, m)[2], Apply(divided, m)[2]);
  }

  lemma ApplyDividedAt3(v: seq<real>, divided: seq<real>, m: Mat4, p: real)
    requires |v| == 4 && |divided| == 4 && p != 0.0
    requires divided[0] == v[0] / p && divided[1] == v[1] / p && divided[2] == v[2] / p && divided[3] == v[3] / p
    ensures Apply(divided, m)[3] == Apply(v, m)[3] / p
  {
    DividedDot(v[0], v[1], v[2], v[3], divided[0], divided[1], divided[2], divided[3],
               m[3], m[7], m[11], m[15], p, Apply(v, m)[3], Apply(divided, m)[3]);
  }

  /** `v - f·w` on four-entry rows. */
  function Eliminated(v: seq<real>, w: seq<real>, f: real): seq<real>
    requires |v| == 4 && |w| == 4
  {
    [v[0] - f * w[0], v[1] - f * w[1], v[2] - f * w[2], v[3] - f * w[3]]
  }

  /** Subtracting `f` times a row vector subtracts `f` times its image. */
  lemma ApplyEliminated(v: seq<real>, w: seq<real>, f: real, m: Mat4)
    requires |v| == 4 && |w| == 4
    ensures Apply(Eliminated(v, w, f), m) == Eliminated(Apply(v, m), Apply(w, m), f)
  {
    var eliminated := Eliminated(v, w, f);
    ApplyEliminatedAt0(v, w, eliminated, f, m);
    ApplyEliminatedAt1(v, w, eliminated, f, m);
    ApplyEliminatedAt2(v, w, eliminated, f, m);
    ApplyEliminatedAt3(v, w, eliminated, f, m);
  }

  lemma ApplyEliminatedAt0(v: seq<real>, w: seq<real>, eliminated: seq<real>, f: real, m: Mat4)
    requires |v| == 4 && |w| == 4 && |eliminated| == 4
    requires eliminated[0] == v[0] - f * w[0] && eliminated[1] == v[1] - f * w[1]
    requires eliminated[2] == v[2] - f * w[2] && eliminated[3] == v[3] - f * w[3]
    ensures Apply(eliminated, m)[0] == Apply(v, m)[0] - f * Apply(w, m)[0]
  {
    var imageV, imageW, image := Apply(v, m), Apply(w, m), Apply(eliminated, m);
    assert imageV[0] == v[0] * m[0] + v[1] * m[4] + v[2] * m[8] + v[3] * m[12];
    assert imageW[0] == w[0] * m[0] + w[1] * m[4] + w[2] * m[8] + w[3] * m[12];
    assert image[0] == eliminated[0] * m[0] + eliminated[1] * m[4] + eliminated[2] * m[8] + eliminated[3] * m[12];
    EliminatedDot(v[0], v[1], v[2], v[3], w[0], w[1], w[2], w[3], eliminated[0], eliminated[1], eliminated[2], eliminated[3],
                  m[0], m[4], m[8], m[12], f, imageV[0], imageW[0], image[0]);
  }

  lemma ApplyEliminatedAt1(v: seq<real>, w: seq<real>, eliminated: seq<real>, f: real, m: Mat4)
    requires |v| == 4 && |w| == 4 && |eliminated| == 4
    requires eliminated[0] == v[0] - f * w[0] && eliminated[1] == v[1] - f * w[1]
    requires eliminated[2] == v[2] - f * w[2] && eliminated[3] == v[3] - f * w[3]
    ensures Apply(eliminated, m)[1] == Apply(v, m)[1] - f * Apply(w, m)[1]
  {
    var imageV, imageW, image := Apply(v, m), Apply(w, m), Apply(eliminated, m);
    assert imageV[1] == v[0] * m[1] + v[1] * m[5] + v[2] * m[9] + v[3] * m[13];
    assert imageW[1] == w[0] * m[1] + w[1] * m[5] + w[2] * m[9] + w[3] * m[13];
    assert image[1] == eliminated[0] * m[1] + eliminated[1] * m[5] + eliminated[2] * m[9] + eliminated[3] * m[13];
    EliminatedDot(v[0], v[1], v[2], v[3], w[0], w[1], w[2], w[3], eliminated[0], eliminated[1], eliminated[2], eliminated[3],
                  m[1], m[5], m[9], m[13], f, imageV[1], imageW[1], image[1]);
  }

  lemma ApplyEliminatedAt2(v: seq<real>, w: seq<real>, eliminated: seq<real>, f: real, m: Mat4)
    requires |v| == 4 && |w| == 4 && |eliminated| == 4
    requires eliminated[0] == v[0] - f * w[0] && eliminated[1] == v[1] - f * w[1]
    requires eliminated[2] == v[2] - f * w[2] && eliminated[3] == v[3] - f * w[3]
    ensures Apply(eliminated, m)[2] == Apply(v, m)[2] - f * Apply(w, m)[2]
  {
    var imageV, imageW, image := Apply(v, m), Apply(w, m), Apply(eliminated, m);
    assert imageV[2] == v[0] * m[2] + v[1] * m[6] + v[2] * m[10] + v[3] * m[14];
    assert imageW[2] == w[0] * m[2] + w[1] * m[6] + w[2] * m[10] + w[3] * m[14];
    assert image[2] == eliminated[0] * m[2] + eliminated[1] * m[6] + eliminated[2] * m[10] + eliminated[3] * m[14];
    EliminatedDot(v[0], v[1], v[2], v[3], w[0], w[1], w[2], w[3], eliminated[0], eliminated[1], eliminated[2], eliminated[3],
                  m[2], m[6], m[10], m[14], f, imageV[2], imageW[2], image[2]);
  }

  lemma ApplyEliminatedAt3(v: seq<real>, w: seq<real>, eliminated: seq<real>, f: real, m: Mat4)
    requires |v| == 4 && |w| == 4 && |eliminated| == 4
    requires eliminated[0] == v[0] - f * w[0] && eliminated[1] == v[1] - f * w[1]
    requires eliminated[2] == v[2] - f * w[2] && eliminated[3] == v[3] - f * w[3]
    ensures Apply(eliminated, m)[3] == Apply(v, m)[3] - f * Apply(w, m)[3]
  {
    var imageV, imageW, image := Apply(v, m), Apply(w, m), Apply(eliminated, m);
    assert imageV[3] == v[0] * m[3] + v[1] * m[7] + v[2] * m[11] + v[3] * m[15];
    assert imageW[3] == w[0] * m[3] + w[1] * m[7] + w[2] * m[11] + w[3] * m[15];
    assert image[3] == eliminated[0] * m[3] + eliminated[1] * m[7] + eliminated[2] * m[11] + eliminated[3] * m[15];
    EliminatedDot(v[0], v[1], v[2], v[3], w[0], w[1], w[2], w[3], eliminated[0], eliminated[1], eliminated[2], eliminated[3],
                  m[3], m[7], m[11], m[15], f, imageV[3], imageW[3], image[3]);
  }

  /** One entry of `ApplyDivided`, over plain numbers. */
  lemma DividedDot(v0: real, v1: real, v2: real, v3: real, d0: real, d1: real, d2: real, d3: real,
                   w0: real, w1: real, w2: real, w3: real, p: real, image: real, divided: real)
    requires p != 0.0
    requires d0 == v0 / p && d1 == v1 / p && d2 == v2 / p && d3 == v3 / p
    requires image == v0 * w0 + v1 * w1 + v2 * w2 + v3 * w3
    requires divided == d0 * w0 + d1 * w1 + d2 * w2 + d3 * w3
    ensures divided == image / p
  {
    assert divided * p == image;
  }

  /** One entry of `ApplyEliminated`, over plain numbers. */
  lemma EliminatedDot(v0: real, v1: real, v2: real, v3: real, u0: real, u1: real, u2: real, u3: real,
                      e0: real, e1: real, e2: real, e3: real, w0: real, w1: real, w2: real, w3: real, f: real,
                      imageV: real, imageU: real, eliminated: real)
    requires e0 == v0 - f * u0 && e1 == v1 - f * u1 && e2 == v2 - f * u2 && e3 == v3 - f * u3
    requires imageV == v0 * w0 + v1 * w1 + v2 * w2 + v3 * w3
    requires imageU == u0 * w0 + u1 * w1 + u2 * w2 + u3 * w3
    requires eliminated == e0 * w0 + e1 * w1 + e2 * w2 + e3 * w3
    ensures eliminated == imageV - f * imageU
  {
  }

  /** `[augmentedMatrix[i], augmentedMatrix[j]] = [augmentedMatrix[j], augmentedMatrix[i]]`:
      a row swap keeps every row consistent. */
  method SwapRows(a: array2<real>, i: nat, j: nat, ghost m: Mat4)
    requires Augmented(a) && i < j < 4 && Consistent(a, m)
    modifies a
    ensures forall c :: 0 <= c < 8 ==> a[i, c] == old(a[j, c]) && a[j, c] == old(a[i, c])
    ensures forall r, c :: 0 <= r < 4 && r != i && r != j && 0 <= c < 8 ==> a[r, c] == old(a[r, c])
    ensures Consistent(a, m)
  {
    var k := 0;
    while k < 8
      invariant 0 <= k <= 8
      invariant forall c :: 0 <= c < k ==> a[i, c] == old(a[j, c]) && a[j, c] == old(a[i, c])
      invariant forall c :: k <= c < 8 ==> a[i, c] == old(a[i, c]) && a[j, c] == old(a[j, c])
      invariant forall r, c :: 0 <= r < 4 && r != i && r != j && 0 <= c < 8 ==> a[r, c] == old(a[r, c])
    {
      a[i, k], a[j, k] := a[j, k], a[i, k];
      k := k + 1;
    }
    forall row | 0 <= row < 4
      ensures LeftRow(a, row) == Apply(RightRow(a, row), m)
    {
      var from := if row == i then j else if row == j then i else row;
      assert LeftRow(a, row) == old(LeftRow(a, from));
      assert RightRow(a, row) == old(RightRow(a, from));
    }
  }

  /** `augmentedMatrix[i][j] /= pivot` for every column `j`: dividing a row keeps it
      consistent. */
  method DivideRow(a: array2<real>, i: nat, pivot: real, ghost m: Mat4)
    requires Augmented(a) && i < 4 && pivot != 0.0 && Consistent(a, m)
    modifies a
    ensures forall c :: 0 <= c < 8 ==> a[i, c] == old(a[i, c]) / pivot
    ensures forall r, c :: 0 <= r < 4 && r != i && 0 <= c < 8 ==> a[r, c] == old(a[r, c])
    ensures pivot == old(a[i, i]) ==> a[i, i] == 1.0
    ensures Consistent(a, m)
  {
    ghost var left, right := LeftRow(a, i), RightRow(a, i);
    DivideEntries(a, i, pivot);
    assert a[i, i] == old(a[i, i]) / pivot;
    ApplyDivided(right, m, pivot);
    forall row | 0 <= row < 4
      ensures LeftRow(a, row) == Apply(RightRow(a, row), m)
    {
      if row == i {
        assert LeftRow(a, row) == [left[0] / pivot, left[1] / pivot, left[2] / pivot, left[3] / pivot];
        assert RightRow(a, row) == [right[0] / pivot, right[1] / pivot, right[2] / pivot, right[3] / pivot];
      } else {
        assert LeftRow(a, row) == old(LeftRow(a, row));
        assert RightRow(a, row) == old(RightRow(a, row));
      }
    }
  }

  /** The loop of `DivideRow`, on the entries alone. */
  method DivideEntries(a: array2<real>, i: nat, pivot: real)
    requires Augmented(a) && i < 4 && pivot != 0.0
    modifies a
    ensures forall c :: 0 <= c < 8 ==> a[i, c] == old(a[i, c]) / pivot
    ensures forall r, c :: 0 <= r < 4 && r != i && 0 <= c < 8 ==> a[r, c] == old(a[r, c])
  {
    var k := 0;
    while k < 8
      invariant 0 <= k <= 8
      invariant forall c :: 0 <= c < k ==> a[i, c] == old(a[i, c]) / pivot
      invariant forall c :: k <= c < 8 ==> a[i, c] == old(a[i, c])
      invariant forall r, c :: 0 <= r < 4 && r != i && 0 <= c < 8 ==> a[r, c] == old(a[r, c])
    {
      a[i, k] := a[i, k] / pivot;
      k := k + 1;
    }
  }

  /** `augmentedMatrix[j][k] -= factor * augmentedMatrix[i][k]` for every column `k`:
      subtracting a multiple of another row keeps a row consistent. */
  method SubtractRow(a: array2<real>, j: nat, i: nat, factor: real, ghost m: Mat4)
    requires Augmented(a) && i < 4 && j < 4 && i != j && Consistent(a, m)
    modifies a
    ensures forall c :: 0 <= c < 8 ==> a[j, c] == old(a[j, c]) - factor * old(a[i, c])
    ensures forall r, c :: 0 <= r < 4 && r != j && 0 <= c < 8 ==> a[r, c] == old(a[r, c])
    ensures Consistent(a, m)
  {
    SubtractEntries(a, j, i, factor);
    ghost var source, pivotRight := old(RightRow(a, j)), old(RightRow(a, i));
    ghost var target, pivotLeft := old(LeftRow(a, j)), old(LeftRow(a, i));
    EliminationConsistent(a, j, factor, m, target, source, pivotLeft, pivotRight);
    forall row | 0 <= row < 4 && row != j
      ensures LeftRow(a, row) == Apply(RightRow(a, row), m)
    {
      assert LeftRow(a, row) == old(LeftRow(a, row));
      assert RightRow(a, row) == old(RightRow(a, row));
    }
  }

  /** The loop of `SubtractRow`, on the entries alone. */
  method SubtractEntries(a: array2<real>, j: nat, i: nat, factor: real)
    requires Augmented(a) && i < 4 && j < 4 && i != j
    modifies a
    ensures forall c :: 0 <= c < 8 ==> a[j, c] == old(a[j, c]) - factor * old(a[i, c])
    ensures forall r, c :: 0 <= r < 4 && r != j && 0 <= c < 8 ==> a[r, c] == old(a[r, c])
  {
    var k := 0;
    while k < 8
      invariant 0 <= k <= 8
      invariant forall c :: 0 <= c < k ==> a[j, c] == old(a[j, c]) - factor * old(a[i, c])
      invariant forall c :: k <= c < 8 ==> a[j, c] == old(a[j, c])
      invariant forall r, c :: 0 <= r < 4 && r != j && 0 <= c < 8 ==> a[r, c] == old(a[r, c])
    {
      a[j, k] := a[j, k] - factor * a[i, k];
      k := k + 1;
    }
  }

  /** After `SubtractRow`, row `j` is consistent again: its right half is `source - factor ·
      pivotRight`, whose image is `target - factor · pivotLeft`, its left half. */
  lemma EliminationConsistent(a: array2<real>, j: nat, factor: real, m: Mat4,
                              target: seq<real>, source: seq<real>, pivotLeft: seq<real>, pivotRight: seq<real>)
    requires Augmented(a) && j < 4
    requires |target| == 4 && |source| == 4 && |pivotLeft| == 4 && |pivotRight| == 4
    requires target == Apply(source, m) && pivotLeft == Apply(pivotRight, m)
    requires a[j, 0] == target[0] - factor * pivotLeft[0] && a[j, 1] == target[1] - factor * pivotLeft[1]
    requires a[j, 2] == target[2] - factor * pivotLeft[2] && a[j, 3] == target[3] - factor * pivotLeft[3]
    requires a[j, 4] == source[0] - factor * pivotRight[0] && a[j, 5] == source[1] - factor * pivotRight[1]
    requires a[j, 6] == source[2] - factor * pivotRight[2] && a[j, 7] == source[3] - factor * pivotRight[3]
    ensures LeftRow(a, j) == Apply(RightRow(a, j), m)
  {
    var right := RightRow(a, j);
    var image := Apply(right, m);
    ApplyEliminatedAt0(source, pivotRight, right, factor, m);
    ApplyEliminatedAt1(source, pivotRight, right, factor, m);
    ApplyEliminatedAt2(source, pivotRight, right, factor, m);
    ApplyEliminatedAt3(source, pivotRight, right, factor, m);
    SameRow(a[j, 0], a[j, 1], a[j, 2], a[j, 3], image[0], image[1], image[2], image[3]);
  }

  /** Four equal entries make equal rows. */
  lemma SameRow(x0: real, x1: real, x2: real, x3: real, y0: real, y1: real, y2: real, y3: real)
    requires x0 == y0 && x1 == y1 && x2 == y2 && x3 == y3
    ensures [x0, x1, x2, x3] == [y0, y1, y2, y3]
  {
  }

  /** `[A | I]`: row `r` of `A` is row `r` of the identity times `A`. */
  lemma InitiallyConsistent(a: array2<real>, m: Mat4)
    requires Augmented(a)
    requires forall r, c :: 0 <= r < 4 && 0 <= c < 8 ==>
               a[r, c] == if c < 4 then m[4 * r + c] else if c == 4 + r then 1.0 else 0.0
    ensures Consistent(a, m)
  {
    forall r | 0 <= r < 4
      ensures LeftRow(a, r) == Apply(RightRow(a, r), m)
    {
      assert LeftRow(a, r) == [m[4 * r], m[4 * r + 1], m[4 * r + 2], m[4 * r + 3]];
      UnitRowImage(RightRow(a, r), m, r);
    }
  }

  /** Row `r` of the identity picks out row `r` of `m`. */
  lemma UnitRowImage(v: seq<real>, m: Mat4, r: nat)
    requires r < 4 && |v| == 4 && forall c :: 0 <= c < 4 ==> v[c] == if c == r then 1.0 else 0.0
    ensures Apply(v, m) == [m[4 * r], m[4 * r + 1], m[4 * r + 2], m[4 * r + 3]]
  {
    assert v == if r == 0 then [1.0, 0.0, 0.0, 0.0] else if r == 1 then [0.0, 1.0, 0.0, 0.0]
                else if r == 2 then [0.0, 0.0, 1.0, 0.0] else [0.0, 0.0, 0.0, 1.0];
  }

  /** `Matrix4.inverse(m)`. The result is a left inverse of `m`, and it is the cofactor
      inverse whenever that one is defined. `None` stands for the case the source runs into
      a zero pivot with no later row to swap in, divides by zero and returns infinities and
      NaNs. */
  method Inverse(m: Mat4) returns (r: Option<Mat4>)
    ensures r.Some? ==> Product(r.value, m) == Identity()
    ensures r.Some? && Inverse2(m).Some? ==> r.value == Inverse2(m).value
  {
    var a := new real[4, 8]((row, c) => if 0 <= row < 4 && 0 <= c < 4 then m[4 * row + c] else if c == 4 + row then 1.0 else 0.0);
    InitiallyConsistent(a, m);

    var i := 0;
    while i < 4
      invariant 0 <= i <= 4
      invariant Consistent(a, m) && ReducedBefore(a, i)
    {
      var pivot := a[i, i];
      if pivot == 0.0 {
        var j := i + 1;
        while j < 4 && a[j, i] == 0.0
          invariant i < j <= 4
        {
          j := j + 1;
        }
        if j == 4 {
          return None;
        }
        SwapRows(a, i, j, m);
        pivot := a[i, i];
      }
      DivideRow(a, i, pivot, m);

      var j := 0;
      while j < 4
        invariant 0 <= j <= 4
        invariant Consistent(a, m) && ReducedBefore(a, i)
        invariant a[i, i] == 1.0
        invariant forall row :: 0 <= row < j && row != i ==> a[row, i] == 0.0
      {
        if j != i {
          var factor := a[j, i];
          SubtractRow(a, j, i, factor, m);
        }
        j := j + 1;
      }
      i := i + 1;
    }

    var inverse := RightHalf(a);
    LeftInverseFromRows(a, m);
    r := Some(inverse);
    if Inverse2(m).Some? {
      Inverse2IsRightInverse(m);
      InverseUnique(inverse, m, Inverse2(m).value);
    }
  }

  /* Row r of "right half times m" is row r of the left half. */
  lemma RightHalfRow0(a: array2<real>, m: Mat4)
    requires Augmented(a) && Consistent(a, m)
    ensures Product(RightHalf(a), m)[0] == a[0, 0] && Product(RightHalf(a), m)[1] == a[0, 1] && Product(RightHalf(a), m)[2] == a[0, 2] && Product(RightHalf(a), m)[3] == a[0, 3]
  {
    var product, image := Product(RightHalf(a), m), Apply(RightRow(a, 0), m);
    assert image == LeftRow(a, 0);
    SameDot(a[0, 4], a[0, 5], a[0, 6], a[0, 7], m[0], m[4], m[8], m[12], product[0], image[0]);
    SameDot(a[0, 4], a[0, 5], a[0, 6], a[0, 7], m[1], m[5], m[9], m[13], product[1], image[1]);
    SameDot(a[0, 4], a[0, 5], a[0, 6], a[0, 7], m[2], m[6], m[10], m[14], product[2], image[2]);
    SameDot(a[0, 4], a[0, 5], a[0, 6], a[0, 7], m[3], m[7], m[11], m[15], product[3], image[3]);
  }

  lemma RightHalfRow1(a: array2<real>, m: Mat4)
    requires Augmented(a) && Consistent(a, m)
    ensures Product(RightHalf(a), m)[4] == a[1, 0] && Product(RightHalf(a), m)[5] == a[1, 1] && Product(RightHalf(a), m)[6] == a[1, 2] && Product(RightHalf(a), m)[7] == a[1, 3]
  {
    var product, image := Product(RightHalf(a), m), Apply(RightRow(a, 1), m);
    assert image == LeftRow(a, 1);
    SameDot(a[1, 4], a[1, 5], a[1, 6], a[1, 7], m[0], m[4], m[8], m[12], product[4], image[0]);
    SameDot(a[1, 4], a[1, 5], a[1, 6], a[1, 7], m[1], m[5], m[9], m[13], product[5], image[1]);
    SameDot(a[1, 4], a[1, 5], a[1, 6], a[1, 7], m[2], m[6], m[10], m[14], product[6], image[2]);
    SameDot(a[1, 4], a[1, 5], a[1, 6], a[1, 7], m[3], m[7], m[11], m[15], product[7], image[3]);
  }

  lemma RightHalfRow2(a: array2<real>, m: Mat4)
    requires Augmented(a) && Consistent(a, m)
    ensures Product(RightHalf(a), m)[8] == a[2, 0] && Product(RightHalf(a), m)[9] == a[2, 1] && Product(RightHalf(a), m)[10] == a[2, 2] && Product(RightHalf(a), m)[11] == a[2, 3]
  {
    var product, image := Product(RightHalf(a), m), Apply(RightRow(a, 2), m);
    assert image == LeftRow(a, 2);
    SameDot(a[2, 4], a[2, 5], a[2, 6], a[2, 7], m[0], m[4], m[8], m[12], product[8], image[0]);
    SameDot(a[2, 4], a[2, 5], a[2, 6], a[2, 7], m[1], m[5], m[9], m[13], product[9], image[1]);
    SameDot(a[2, 4], a[2, 5], a[2, 6], a[2, 7], m[2], m[6], m[10], m[14], product[10], image[2]);
    SameDot(a[2, 4], a[2, 5], a[2, 6], a[2, 7], m[3], m[7], m[11], m[15], product[11], image[3]);
  }

  lemma RightHalfRow3(a: array2<real>, m: Mat4)
    requires Augmented(a) && Consistent(a, m)
    ensures Product(RightHalf(a), m)[12] == a[3, 0] && Product(RightHalf(a), m)[13] == a[3, 1] && Product(RightHalf(a), m)[14] == a[3, 2] && Product(RightHalf(a), m)[15] == a[3, 3]
  {
    var product, image := Product(RightHalf(a), m), Apply(RightRow(a, 3), m);
    assert image == LeftRow(a, 3);
    SameDot(a[3, 4], a[3, 5], a[3, 6], a[3, 7], m[0], m[4], m[8], m[12], product[12], image[0]);
    SameDot(a[3, 4], a[3, 5], a[3, 6], a[3, 7], m[1], m[5], m[9], m[13], product[13], image[1]);
    SameDot(a[3, 4], a[3, 5], a[3, 6], a[3, 7], m[2], m[6], m[10], m[14], product[14], image[2]);
    SameDot(a[3, 4], a[3, 5], a[3, 6], a[3, 7], m[3], m[7], m[11], m[15], product[15], image[3]);
  }

  /** Once the left half is the identity, the right half times `m` is the identity. */
  lemma LeftInverseFromRows(a: array2<real>, m: Mat4)
    requires Augmented(a) && Consistent(a, m) && ReducedBefore(a, 4)
    ensures Product(RightHalf(a), m) == Identity()
  {
    RightHalfRow0(a, m);
    RightHalfRow1(a, m);
    RightHalfRow2(a, m);
    RightHalfRow3(a, m);
  }

  /** Two names for the same dot product. */
  lemma SameDot(x0: real, x1: real, x2: real, x3: real, w0: real, w1: real, w2: real, w3: real, p: real, q: real)
    requires p == x0 * w0 + x1 * w1 + x2 * w2 + x3 * w3
    requires q == x0 * w0 + x1 * w1 + x2 * w2 + x3 * w3
    ensures p == q
  {
  }
}
