/** `Matrix4.inverse2` (src/app/core/engine/Maths/Matrix/Matrix4.ts): the closed-form inverse
    by cofactors. The sixteen bracketed expressions of the source are the entries of the
    adjugate, and the number it divides 1 by is the determinant expanded along the first
    column; so the result is the inverse whenever that number is not zero. */
module CofactorInverse {
  import opened Wrappers
  import opened Matrix4

  /** The determinant by the Leibniz formula: a definition independent of the source's
      expressions, against which they are proved. */
  function Det(m: Mat4): real {
    m[0] * m[5] * m[10] * m[15] + m[0] * m[6] * m[11] * m[13] + m[0] * m[7] * m[9] * m[14] + m[1] * m[4] * m[11] * m[14] + m[1] * m[6] * m[8] * m[15] + m[1] * m[7] * m[10] * m[12] + m[2] * m[4] * m[9] * m[15] + m[2] * m[5] * m[11] * m[12] + m[2] * m[7] * m[8] * m[13] + m[3] * m[4] * m[10] * m[13] + m[3] * m[5] * m[8] * m[14] + m[3] * m[6] * m[9] * m[12] - m[0] * m[5] * m[11] * m[14] - m[0] * m[6] * m[9] * m[15] - m[0] * m[7] * m[10] * m[13] - m[1] * m[4] * m[10] * m[15] - m[1] * m[6] * m[11] * m[12] - m[1] * m[7] * m[8] * m[14] - m[2] * m[4] * m[11] * m[13] - m[2] * m[5] * m[8] * m[15] - m[2] * m[7] * m[9] * m[12] - m[3] * m[4] * m[9] * m[14] - m[3] * m[5] * m[10] * m[12] - m[3] * m[6] * m[8] * m[13]
  }

  /** The sixteen values that `inverse2` multiplies by `d`: `t0`..`t3` and the twelve
      bracketed differences, built from the same products `tmp0`..`tmp23`. */
  function Brackets(m: Mat4): (b: seq<real>)
    ensures |b| == 16
  {
    var m00 := m[0];
    var m01 := m[1];
    var m02 := m[2];
    var m03 := m[3];
    var m10 := m[4];
    var m11 := m[5];
    var m12 := m[6];
    var m13 := m[7];
    var m20 := m[8];
    var m21 := m[9];
    var m22 := m[10];
    var m23 := m[11];
    var m30 := m[12];
    var m31 := m[13];
    var m32 := m[14];
    var m33 := m[15];
    var tmp0 := m22 * m33;
    var tmp1 := m32 * m23;
    var tmp2 := m12 * m33;
    var tmp3 := m32 * m13;
    var tmp4 := m12 * m23;
    var tmp5 := m22 * m13;
    var tmp6 := m02 * m33;
    var tmp7 := m32 * m03;
    var tmp8 := m02 * m23;
    var tmp9 := m22 * m03;
    var tmp10 := m02 * m13;
    var tmp11 := m12 * m03;
    var tmp12 := m20 * m31;
    var tmp13 := m30 * m21;
    var tmp14 := m10 * m31;
    var tmp15 := m30 * m11;
    var tmp16 := m10 * m21;
    var tmp17 := m20 * m11;
    var tmp18 := m00 * m31;
    var tmp19 := m30 * m01;
    var tmp20 := m00 * m21;
    var tmp21 := m20 * m01;
    var tmp22 := m00 * m11;
    var tmp23 := m10 * m01;
    var t0 := (tmp0 * m11 + tmp3 * m21 + tmp4 * m31) - (tmp1 * m11 + tmp2 * m21 + tmp5 * m31);
    var t1 := (tmp1 * m01 + tmp6 * m21 + tmp9 * m31) - (tmp0 * m01 + tmp7 * m21 + tmp8 * m31);
    var t2 := (tmp2 * m01 + tmp7 * m11 + tmp10 * m31) - (tmp3 * m01 + tmp6 * m11 + tmp11 * m31);
    var t3 := (tmp5 * m01 + tmp8 * m11 + tmp11 * m21) - (tmp4 * m01 + tmp9 * m11 + tmp10 * m21);
    [t0,
     t1,
     t2,
     t3,
     ((tmp1 * m10 + tmp2 * m20 + tmp5 * m30) - (tmp0 * m10 + tmp3 * m20 + tmp4 * m30)),
     ((tmp0 * m00 + tmp7 * m20 + tmp8 * m30) - (tmp1 * m00 + tmp6 * m20 + tmp9 * m30)),
     ((tmp3 * m00 + tmp6 * m10 + tmp11 * m30) - (tmp2 * m00 + tmp7 * m10 + tmp10 * m30)),
     ((tmp4 * m00 + tmp9 * m10 + tmp10 * m20) - (tmp5 * m00 + tmp8 * m10 + tmp11 * m20)),
     ((tmp12 * m13 + tmp15 * m23 + tmp16 * m33) - (tmp13 * m13 + tmp14 * m23 + tmp17 * m33)),
     ((tmp13 * m03 + tmp18 * m23 + tmp21 * m33) - (tmp12 * m03 + tmp19 * m23 + tmp20 * m33)),
     ((tmp14 * m03 + tmp19 * m13 + tmp22 * m33) - (tmp15 * m03 + tmp18 * m13 + tmp23 * m33)),
     ((tmp17 * m03 + tmp20 * m13 + tmp23 * m23) - (tmp16 * m03 + tmp21 * m13 + tmp22 * m23)),
     ((tmp14 * m22 + tmp17 * m32 + tmp13 * m12) - (tmp16 * m32 + tmp12 * m12 + tmp15 * m22)),
     ((tmp20 * m32 + tmp12 * m02 + tmp19 * m22) - (tmp18 * m22 + tmp21 * m32 + tmp13 * m02)),
     ((tmp18 * m12 + tmp23 * m32 + tmp15 * m02) - (tmp22 * m32 + tmp14 * m02 + tmp19 * m12)),
     ((tmp22 * m22 + tmp16 * m02 + tmp21 * m12) - (tmp20 * m12 + tmp23 * m22 + tmp17 * m02))]
  }

  /** `m00 * t0 + m10 * t1 + m20 * t2 + m30 * t3`, the number `d` is the reciprocal of. */
  function Divisor(m: Mat4): real {
    var b := Brackets(m);
    m[0] * b[0] + m[4] * b[1] + m[8] * b[2] + m[12] * b[3]
  }

  /** `inverse2(m)`: every bracket scaled by `d = 1 / divisor`. When the divisor is zero the
      source divides by zero and fills the result with infinities and NaNs; that result is
      `None` here. */
  function Inverse2(m: Mat4): (r: Option<Mat4>)
    ensures r.Some? <==> Det(m) != 0.0
  {
    var b := Brackets(m);
    var divisor := Divisor(m);
    DivisorIsDet(m);
    if divisor == 0.0 then None
    else
      var d := 1.0 / divisor;
      Some([d * b[0], d * b[1], d * b[2], d * b[3],
            d * b[4], d * b[5], d * b[6], d * b[7],
            d * b[8], d * b[9], d * b[10], d * b[11],
            d * b[12], d * b[13], d * b[14], d * b[15]])
  }

  /* Each bracket, multiplied out. */
  lemma Bracket0(m: Mat4)
    ensures Brackets(m)[0] == m[5] * m[10] * m[15] + m[6] * m[11] * m[13] + m[7] * m[9] * m[14] - m[5] * m[11] * m[14] - m[6] * m[9] * m[15] - m[7] * m[10] * m[13]
  {
  }

  lemma Bracket1(m: Mat4)
    ensures Brackets(m)[1] == m[1] * m[11] * m[14] + m[2] * m[9] * m[15] + m[3] * m[10] * m[13] - m[1] * m[10] * m[15] - m[2] * m[11] * m[13] - m[3] * m[9] * m[14]
  {
  }

  lemma Bracket2(m: Mat4)
    ensures Brackets(m)[2] == m[1] * m[6] * m[15] + m[2] * m[7] * m[13] + m[3] * m[5] * m[14] - m[1] * m[7] * m[14] - m[2] * m[5] * m[15] - m[3] * m[6] * m[13]
  {
  }

  lemma Bracket3(m: Mat4)
    ensures Brackets(m)[3] == m[1] * m[7] * m[10] + m[2] * m[5] * m[11] + m[3] * m[6] * m[9] - m[1] * m[6] * m[11] - m[2] * m[7] * m[9] - m[3] * m[5] * m[10]
  {
  }

  lemma Bracket4(m: Mat4)
    ensures Brackets(m)[4] == m[4] * m[11] * m[14] + m[6] * m[8] * m[15] + m[7] * m[10] * m[12] - m[4] * m[10] * m[15] - m[6] * m[11] * m[12] - m[7] * m[8] * m[14]
  {
  }

  lemma Bracket5(m: Mat4)
    ensures Brackets(m)[5] == m[0] * m[10] * m[15] + m[2] * m[11] * m[12] + m[3] * m[8] * m[14] - m[0] * m[11] * m[14] - m[2] * m[8] * m[15] - m[3] * m[10] * m[12]
  {
  }

  lemma Bracket6(m: Mat4)
    ensures Brackets(m)[6] == m[0] * m[7] * m[14] + m[2] * m[4] * m[15] + m[3] * m[6] * m[12] - m[0] * m[6] * m[15] - m[2] * m[7] * m[12] - m[3] * m[4] * m[14]
  {
  }

  lemma Bracket7(m: Mat4)
    ensures Brackets(m)[7] == m[0] * m[6] * m[11] + m[2] * m[7] * m[8] + m[3] * m[4] * m[10] - m[0] * m[7] * m[10] - m[2] * m[4] * m[11] - m[3] * m[6] * m[8]
  {
  }

  lemma Bracket8(m: Mat4)
    ensures Brackets(m)[8] == m[4] * m[9] * m[15] + m[5] * m[11] * m[12] + m[7] * m[8] * m[13] - m[4] * m[11] * m[13] - m[5] * m[8] * m[15] - m[7] * m[9] * m[12]
  {
  }

  lemma Bracket9(m: Mat4)
    ensures Brackets(m)[9] == m[0] * m[11] * m[13] + m[1] * m[8] * m[15] + m[3] * m[9] * m[12] - m[0] * m[9] * m[15] - m[1] * m[11] * m[12] - m[3] * m[8] * m[13]
  {
  }

  lemma Bracket10(m: Mat4)
    ensures Brackets(m)[10] == m[0] * m[5] * m[15] + m[1] * m[7] * m[12] + m[3] * m[4] * m[13] - m[0] * m[7] * m[13] - m[1] * m[4] * m[15] - m[3] * m[5] * m[12]
  {
  }

  lemma Bracket11(m: Mat4)
    ensures Brackets(m)[11] == m[0] * m[7] * m[9] + m[1] * m[4] * m[11] + m[3] * m[5] * m[8] - m[0] * m[5] * m[11] - m[1] * m[7] * m[8] - m[3] * m[4] * m[9]
  {
  }

  lemma Bracket12(m: Mat4)
    ensures Brackets(m)[12] == m[4] * m[10] * m[13] + m[5] * m[8] * m[14] + m[6] * m[9] * m[12] - m[4] * m[9] * m[14] - m[5] * m[10] * m[12] - m[6] * m[8] * m[13]
  {
  }

  lemma Bracket13(m: Mat4)
    ensures Brackets(m)[13] == m[0] * m[9] * m[14] + m[1] * m[10] * m[12] + m[2] * m[8] * m[13] - m[0] * m[10] * m[13] - m[1] * m[8] * m[14] - m[2] * m[9] * m[12]
  {
  }

  lemma Bracket14(m: Mat4)
    ensures Brackets(m)[14] == m[0] * m[6] * m[13] + m[1] * m[4] * m[14] + m[2] * m[5] * m[12] - m[0] * m[5] * m[14] - m[1] * m[6] * m[12] - m[2] * m[4] * m[13]
  {
  }

  lemma Bracket15(m: Mat4)
    ensures Brackets(m)[15] == m[0] * m[5] * m[10] + m[1] * m[6] * m[8] + m[2] * m[4] * m[9] - m[0] * m[6] * m[9] - m[1] * m[4] * m[10] - m[2] * m[5] * m[8]
  {
  }

  /* Row r of a matrix against column r of its bracket matrix, over plain numbers: the
     expansion of the determinant by cofactors along row r. */
  lemma Combine00(m0: real, m1: real, m2: real, m3: real, m4: real, m5: real, m6: real, m7: real, m8: real, m9: real, m10: real, m11: real, m12: real, m13: real, m14: real, m15: real)
    ensures m0 * (m5 * m10 * m15 + m6 * m11 * m13 + m7 * m9 * m14 - m5 * m11 * m14 - m6 * m9 * m15 - m7 * m10 * m13) + m1 * (m4 * m11 * m14 + m6 * m8 * m15 + m7 * m10 * m12 - m4 * m10 * m15 - m6 * m11 * m12 - m7 * m8 * m14) + m2 * (m4 * m9 * m15 + m5 * m11 * m12 + m7 * m8 * m13 - m4 * m11 * m13 - m5 * m8 * m15 - m7 * m9 * m12) + m3 * (m4 * m10 * m13 + m5 * m8 * m14 + m6 * m9 * m12 - m4 * m9 * m14 - m5 * m10 * m12 - m6 * m8 * m13)
         == m0 * m5 * m10 * m15 + m0 * m6 * m11 * m13 + m0 * m7 * m9 * m14 + m1 * m4 * m11 * m14 + m1 * m6 * m8 * m15 + m1 * m7 * m10 * m12 + m2 * m4 * m9 * m15 + m2 * m5 * m11 * m12 + m2 * m7 * m8 * m13 + m3 * m4 * m10 * m13 + m3 * m5 * m8 * m14 + m3 * m6 * m9 * m12 - m0 * m5 * m11 * m14 - m0 * m6 * m9 * m15 - m0 * m7 * m10 * m13 - m1 * m4 * m10 * m15 - m1 * m6 * m11 * m12 - m1 * m7 * m8 * m14 - m2 * m4 * m11 * m13 - m2 * m5 * m8 * m15 - m2 * m7 * m9 * m12 - m3 * m4 * m9 * m14 - m3 * m5 * m10 * m12 - m3 * m6 * m8 * m13
  {
  }

  lemma Combine11(m0: real, m1: real, m2: real, m3: real, m4: real, m5: real, m6: real, m7: real, m8: real, m9: real, m10: real, m11: real, m12: real, m13: real, m14: real, m15: real)
    ensures m4 * (m1 * m11 * m14 + m2 * m9 * m15 + m3 * m10 * m13 - m1 * m10 * m15 - m2 * m11 * m13 - m3 * m9 * m14) + m5 * (m0 * m10 * m15 + m2 * m11 * m12 + m3 * m8 * m14 - m0 * m11 * m14 - m2 * m8 * m15 - m3 * m10 * m12) + m6 * (m0 * m11 * m13 + m1 * m8 * m15 + m3 * m9 * m12 - m0 * m9 * m15 - m1 * m11 * m12 - m3 * m8 * m13) + m7 * (m0 * m9 * m14 + m1 * m10 * m12 + m2 * m8 * m13 - m0 * m10 * m13 - m1 * m8 * m14 - m2 * m9 * m12)
         == m0 * m5 * m10 * m15 + m0 * m6 * m11 * m13 + m0 * m7 * m9 * m14 + m1 * m4 * m11 * m14 + m1 * m6 * m8 * m15 + m1 * m7 * m10 * m12 + m2 * m4 * m9 * m15 + m2 * m5 * m11 * m12 + m2 * m7 * m8 * m13 + m3 * m4 * m10 * m13 + m3 * m5 * m8 * m14 + m3 * m6 * m9 * m12 - m0 * m5 * m11 * m14 - m0 * m6 * m9 * m15 - m0 * m7 * m10 * m13 - m1 * m4 * m10 * m15 - m1 * m6 * m11 * m12 - m1 * m7 * m8 * m14 - m2 * m4 * m11 * m13 - m2 * m5 * m8 * m15 - m2 * m7 * m9 * m12 - m3 * m4 * m9 * m14 - m3 * m5 * m10 * m12 - m3 * m6 * m8 * m13
  {
  }

  lemma Combine22(m0: real, m1: real, m2: real, m3: real, m4: real, m5: real, m6: real, m7: real, m8: real, m9: real, m10: real, m11: real, m12: real, m13: real, m14: real, m15: real)
    ensures m8 * (m1 * m6 * m15 + m2 * m7 * m13 + m3 * m5 * m14 - m1 * m7 * m14 - m2 * m5 * m15 - m3 * m6 * m13) + m9 * (m0 * m7 * m14 + m2 * m4 * m15 + m3 * m6 * m12 - m0 * m6 * m15 - m2 * m7 * m12 - m3 * m4 * m14) + m10 * (m0 * m5 * m15 + m1 * m7 * m12 + m3 * m4 * m13 - m0 * m7 * m13 - m1 * m4 * m15 - m3 * m5 * m12) + m11 * (m0 * m6 * m13 + m1 * m4 * m14 + m2 * m5 * m12 - m0 * m5 * m14 - m1 * m6 * m12 - m2 * m4 * m13)
         == m0 * m5 * m10 * m15 + m0 * m6 * m11 * m13 + m0 * m7 * m9 * m14 + m1 * m4 * m11 * m14 + m1 * m6 * m8 * m15 + m1 * m7 * m10 * m12 + m2 * m4 * m9 * m15 + m2 * m5 * m11 * m12 + m2 * m7 * m8 * m13 + m3 * m4 * m10 * m13 + m3 * m5 * m8 * m14 + m3 * m6 * m9 * m12 - m0 * m5 * m11 * m14 - m0 * m6 * m9 * m15 - m0 * m7 * m10 * m13 - m1 * m4 * m10 * m15 - m1 * m6 * m11 * m12 - m1 * m7 * m8 * m14 - m2 * m4 * m11 * m13 - m2 * m5 * m8 * m15 - m2 * m7 * m9 * m12 - m3 * m4 * m9 * m14 - m3 * m5 * m10 * m12 - m3 * m6 * m8 * m13
  {
  }

  lemma Combine33(m0: real, m1: real, m2: real, m3: real, m4: real, m5: real, m6: real, m7: real, m8: real, m9: real, m10: real, m11: real, m12: real, m13: real, m14: real, m15: real)
    ensures m12 * (m1 * m7 * m10 + m2 * m5 * m11 + m3 * m6 * m9 - m1 * m6 * m11 - m2 * m7 * m9 - m3 * m5 * m10) + m13 * (m0 * m6 * m11 + m2 * m7 * m8 + m3 * m4 * m10 - m0 * m7 * m10 - m2 * m4 * m11 - m3 * m6 * m8) + m14 * (m0 * m7 * m9 + m1 * m4 * m11 + m3 * m5 * m8 - m0 * m5 * m11 - m1 * m7 * m8 - m3 * m4 * m9) + m15 * (m0 * m5 * m10 + m1 * m6 * m8 + m2 * m4 * m9 - m0 * m6 * m9 - m1 * m4 * m10 - m2 * m5 * m8)
         == m0 * m5 * m10 * m15 + m0 * m6 * m11 * m13 + m0 * m7 * m9 * m14 + m1 * m4 * m11 * m14 + m1 * m6 * m8 * m15 + m1 * m7 * m10 * m12 + m2 * m4 * m9 * m15 + m2 * m5 * m11 * m12 + m2 * m7 * m8 * m13 + m3 * m4 * m10 * m13 + m3 * m5 * m8 * m14 + m3 * m6 * m9 * m12 - m0 * m5 * m11 * m14 - m0 * m6 * m9 * m15 - m0 * m7 * m10 * m13 - m1 * m4 * m10 * m15 - m1 * m6 * m11 * m12 - m1 * m7 * m8 * m14 - m2 * m4 * m11 * m13 - m2 * m5 * m8 * m15 - m2 * m7 * m9 * m12 - m3 * m4 * m9 * m14 - m3 * m5 * m10 * m12 - m3 * m6 * m8 * m13
  {
  }

  /* A matrix times its bracket matrix is the determinant times the identity: the diagonal
     entries are cofactor expansions, the others expansions of a determinant with a
     repeated row. */
  lemma {:induction false} Cofactor00(m: Mat4)
    ensures m[0] * Brackets(m)[0] + m[1] * Brackets(m)[4] + m[2] * Brackets(m)[8] + m[3] * Brackets(m)[12] == Det(m)
  {
    Bracket0(m); Bracket4(m); Bracket8(m); Bracket12(m);
    Combine00(m[0], m[1], m[2], m[3], m[4], m[5], m[6], m[7], m[8], m[9], m[10], m[11], m[12], m[13], m[14], m[15]);
  }

  lemma Cofactor01(m: Mat4)
    ensures m[0] * Brackets(m)[1] + m[1] * Brackets(m)[5] + m[2] * Brackets(m)[9] + m[3] * Brackets(m)[13] == 0.0
  {
  }

  lemma Cofactor02(m: Mat4)
    ensures m[0] * Brackets(m)[2] + m[1] * Brackets(m)[6] + m[2] * Brackets(m)[10] + m[3] * Brackets(m)[14] == 0.0
  {
  }

  lemma Cofactor03(m: Mat4)
    ensures m[0] * Brackets(m)[3] + m[1] * Brackets(m)[7] + m[2] * Brackets(m)[11] + m[3] * Brackets(m)[15] == 0.0
  {
  }

  lemma Cofactor10(m: Mat4)
    ensures m[4] * Brackets(m)[0] + m[5] * Brackets(m)[4] + m[6] * Brackets(m)[8] + m[7] * Brackets(m)[12] == 0.0
  {
  }

  lemma {:induction false} Cofactor11(m: Mat4)
    ensures m[4] * Brackets(m)[1] + m[5] * Brackets(m)[5] + m[6] * Brackets(m)[9] + m[7] * Brackets(m)[13] == Det(m)
  {
    Bracket1(m); Bracket5(m); Bracket9(m); Bracket13(m);
    Combine11(m[0], m[1], m[2], m[3], m[4], m[5], m[6], m[7], m[8], m[9], m[10], m[11], m[12], m[13], m[14], m[15]);
  }

  lemma Cofactor12(m: Mat4)
    ensures m[4] * Brackets(m)[2] + m[5] * Brackets(m)[6] + m[6] * Brackets(m)[10] + m[7] * Brackets(m)[14] == 0.0
  {
  }

  lemma Cofactor13(m: Mat4)
    ensures m[4] * Brackets(m)[3] + m[5] * Brackets(m)[7] + m[6] * Brackets(m)[11] + m[7] * Brackets(m)[15] == 0.0
  {
  }

  lemma Cofactor20(m: Mat4)
    ensures m[8] * Brackets(m)[0] + m[9] * Brackets(m)[4] + m[10] * Brackets(m)[8] + m[11] * Brackets(m)[12] == 0.0
  {
  }

  lemma Cofactor21(m: Mat4)
    ensures m[8] * Brackets(m)[1] + m[9] * Brackets(m)[5] + m[10] * Brackets(m)[9] + m[11] * Brackets(m)[13] == 0.0
  {
  }

  lemma {:induction false} Cofactor22(m: Mat4)
    ensures m[8] * Brackets(m)[2] + m[9] * Brackets(m)[6] + m[10] * Brackets(m)[10] + m[11] * Brackets(m)[14] == Det(m)
  {
    Bracket2(m); Bracket6(m); Bracket10(m); Bracket14(m);
    Combine22(m[0], m[1], m[2], m[3], m[4], m[5], m[6], m[7], m[8], m[9], m[10], m[11], m[12], m[13], m[14], m[15]);
  }

  lemma Cofactor23(m: Mat4)
    ensures m[8] * Brackets(m)[3] + m[9] * Brackets(m)[7] + m[10] * Brackets(m)[11] + m[11] * Brackets(m)[15] == 0.0
  {
  }

  lemma Cofactor30(m: Mat4)
    ensures m[12] * Brackets(m)[0] + m[13] * Brackets(m)[4] + m[14] * Brackets(m)[8] + m[15] * Brackets(m)[12] == 0.0
  {
  }

  lemma Cofactor31(m: Mat4)
    ensures m[12] * Brackets(m)[1] + m[13] * Brackets(m)[5] + m[14] * Brackets(m)[9] + m[15] * Brackets(m)[13] == 0.0
  {
  }

  lemma Cofactor32(m: Mat4)
    ensures m[12] * Brackets(m)[2] + m[13] * Brackets(m)[6] + m[14] * Brackets(m)[10] + m[15] * Brackets(m)[14] == 0.0
  {
  }

  lemma {:induction false} Cofactor33(m: Mat4)
    ensures m[12] * Brackets(m)[3] + m[13] * Brackets(m)[7] + m[14] * Brackets(m)[11] + m[15] * Brackets(m)[15] == Det(m)
  {
    Bracket3(m); Bracket7(m); Bracket11(m); Bracket15(m);
    Combine33(m[0], m[1], m[2], m[3], m[4], m[5], m[6], m[7], m[8], m[9], m[10], m[11], m[12], m[13], m[14], m[15]);
  }

  /** The divisor of `inverse2` is the determinant. */
  lemma {:induction false} DivisorIsDet(m: Mat4)
    ensures Divisor(m) == Det(m)
  {
    Cofactor00(m);
    Bracket0(m); Bracket1(m); Bracket2(m); Bracket3(m);
    Bracket4(m); Bracket8(m); Bracket12(m);
  }

  /** Scaling one factor of every product scales the dot product. */
  lemma ScaledDot(x0: real, x1: real, x2: real, x3: real, y0: real, y1: real, y2: real, y3: real,
                  d: real, s: real)
    requires x0 * y0 + x1 * y1 + x2 * y2 + x3 * y3 == s
    ensures x0 * (d * y0) + x1 * (d * y1) + x2 * (d * y2) + x3 * (d * y3) == d * s
  {
  }

  /** Every entry of `inverse2(m)` is the matching bracket divided by the determinant. */
  lemma Inverse2Entries(m: Mat4, inverse: Mat4)
    requires Inverse2(m) == Some(inverse)
    ensures Divisor(m) != 0.0
    ensures inverse[0] == 1.0 / Divisor(m) * Brackets(m)[0] && inverse[1] == 1.0 / Divisor(m) * Brackets(m)[1] && inverse[2] == 1.0 / Divisor(m) * Brackets(m)[2] && inverse[3] == 1.0 / Divisor(m) * Brackets(m)[3]
    ensures inverse[4] == 1.0 / Divisor(m) * Brackets(m)[4] && inverse[5] == 1.0 / Divisor(m) * Brackets(m)[5] && inverse[6] == 1.0 / Divisor(m) * Brackets(m)[6] && inverse[7] == 1.0 / Divisor(m) * Brackets(m)[7]
    ensures inverse[8] == 1.0 / Divisor(m) * Brackets(m)[8] && inverse[9] == 1.0 / Divisor(m) * Brackets(m)[9] && inverse[10] == 1.0 / Divisor(m) * Brackets(m)[10] && inverse[11] == 1.0 / Divisor(m) * Brackets(m)[11]
    ensures inverse[12] == 1.0 / Divisor(m) * Brackets(m)[12] && inverse[13] == 1.0 / Divisor(m) * Brackets(m)[13] && inverse[14] == 1.0 / Divisor(m) * Brackets(m)[14] && inverse[15] == 1.0 / Divisor(m) * Brackets(m)[15]
  {
  }

  /* Entry by entry, `m · inverse2(m)` is the identity. */
  lemma ScaledCofactor00(m: Mat4, d: real)
    requires d * Det(m) == 1.0
    ensures m[0] * (d * Brackets(m)[0]) + m[1] * (d * Brackets(m)[4]) + m[2] * (d * Brackets(m)[8]) + m[3] * (d * Brackets(m)[12]) == 1.0
  {
    Cofactor00(m);
    ScaledDot(m[0], m[1], m[2], m[3], Brackets(m)[0], Brackets(m)[4], Brackets(m)[8], Brackets(m)[12], d, Det(m));
  }

  lemma ScaledCofactor01(m: Mat4, d: real)
    requires d * Det(m) == 1.0
    ensures m[0] * (d * Brackets(m)[1]) + m[1] * (d * Brackets(m)[5]) + m[2] * (d * Brackets(m)[9]) + m[3] * (d * Brackets(m)[13]) == 0.0
  {
    Cofactor01(m);
    ScaledDot(m[0], m[1], m[2], m[3], Brackets(m)[1], Brackets(m)[5], Brackets(m)[9], Brackets(m)[13], d, 0.0);
  }

  lemma ScaledCofactor02(m: Mat4, d: real)
    requires d * Det(m) == 1.0
    ensures m[0] * (d * Brackets(m)[2]) + m[1] * (d * Brackets(m)[6]) + m[2] * (d * Brackets(m)[10]) + m[3] * (d * Brackets(m)[14]) == 0.0
  {
    Cofactor02(m);
    ScaledDot(m[0], m[1], m[2], m[3], Brackets(m)[2], Brackets(m)[6], Brackets(m)[10], Brackets(m)[14], d, 0.0);
  }

  lemma ScaledCofactor03(m: Mat4, d: real)
    requires d * Det(m) == 1.0
    ensures m[0] * (d * Brackets(m)[3]) + m[1] * (d * Brackets(m)[7]) + m[2] * (d * Brackets(m)[11]) + m[3] * (d * Brackets(m)[15]) == 0.0
  {
    Cofactor03(m);
    ScaledDot(m[0], m[1], m[2], m[3], Brackets(m)[3], Brackets(m)[7], Brackets(m)[11], Brackets(m)[15], d, 0.0);
  }

  lemma ScaledCofactor10(m: Mat4, d: real)
    requires d * Det(m) == 1.0
    ensures m[4] * (d * Brackets(m)[0]) + m[5] * (d * Brackets(m)[4]) + m[6] * (d * Brackets(m)[8]) + m[7] * (d * Brackets(m)[12]) == 0.0
  {
    Cofactor10(m);
    ScaledDot(m[4], m[5], m[6], m[7], Brackets(m)[0], Brackets(m)[4], Brackets(m)[8], Brackets(m)[12], d, 0.0);
  }

  lemma ScaledCofactor11(m: Mat4, d: real)
    requires d * Det(m) == 1.0
    ensures m[4] * (d * Brackets(m)[1]) + m[5] * (d * Brackets(m)[5]) + m[6] * (d * Brackets(m)[9]) + m[7] * (d * Brackets(m)[13]) == 1.0
  {
    Cofactor11(m);
    ScaledDot(m[4], m[5], m[6], m[7], Brackets(m)[1], Brackets(m)[5], Brackets(m)[9], Brackets(m)[13], d, Det(m));
  }

  lemma ScaledCofactor12(m: Mat4, d: real)
    requires d * Det(m) == 1.0
    ensures m[4] * (d * Brackets(m)[2]) + m[5] * (d * Brackets(m)[6]) + m[6] * (d * Brackets(m)[10]) + m[7] * (d * Brackets(m)[14]) == 0.0
  {
    Cofactor12(m);
    ScaledDot(m[4], m[5], m[6], m[7], Brackets(m)[2], Brackets(m)[6], Brackets(m)[10], Brackets(m)[14], d, 0.0);
  }

  lemma ScaledCofactor13(m: Mat4, d: real)
    requires d * Det(m) == 1.0
    ensures m[4] * (d * Brackets(m)[3]) + m[5] * (d * Brackets(m)[7]) + m[6] * (d * Brackets(m)[11]) + m[7] * (d * Brackets(m)[15]) == 0.0
  {
    Cofactor13(m);
    ScaledDot(m[4], m[5], m[6], m[7], Brackets(m)[3], Brackets(m)[7], Brackets(m)[11], Brackets(m)[15], d, 0.0);
  }

  lemma ScaledCofactor20(m: Mat4, d: real)
    requires d * Det(m) == 1.0
    ensures m[8] * (d * Brackets(m)[0]) + m[9] * (d * Brackets(m)[4]) + m[10] * (d * Brackets(m)[8]) + m[11] * (d * Brackets(m)[12]) == 0.0
  {
    Cofactor20(m);
    ScaledDot(m[8], m[9], m[10], m[11], Brackets(m)[0], Brackets(m)[4], Brackets(m)[8], Brackets(m)[12], d, 0.0);
  }

  lemma ScaledCofactor21(m: Mat4, d: real)
    requires d * Det(m) == 1.0
    ensures m[8] * (d * Brackets(m)[1]) + m[9] * (d * Brackets(m)[5]) + m[10] * (d * Brackets(m)[9]) + m[11] * (d * Brackets(m)[13]) == 0.0
  {
    Cofactor21(m);
    ScaledDot(m[8], m[9], m[10], m[11], Brackets(m)[1], Brackets(m)[5], Brackets(m)[9], Brackets(m)[13], d, 0.0);
  }

  lemma ScaledCofactor22(m: Mat4, d: real)
    requires d * Det(m) == 1.0
    ensures m[8] * (d * Brackets(m)[2]) + m[9] * (d * Brackets(m)[6]) + m[10] * (d * Brackets(m)[10]) + m[11] * (d * Brackets(m)[14]) == 1.0
  {
    Cofactor22(m);
    ScaledDot(m[8], m[9], m[10], m[11], Brackets(m)[2], Brackets(m)[6], Brackets(m)[10], Brackets(m)[14], d, Det(m));
  }

  lemma ScaledCofactor23(m: Mat4, d: real)
    requires d * Det(m) == 1.0
    ensures m[8] * (d * Brackets(m)[3]) + m[9] * (d * Brackets(m)[7]) + m[10] * (d * Brackets(m)[11]) + m[11] * (d * Brackets(m)[15]) == 0.0
  {
    Cofactor23(m);
    ScaledDot(m[8], m[9], m[10], m[11], Brackets(m)[3], Brackets(m)[7], Brackets(m)[11], Brackets(m)[15], d, 0.0);
  }

  lemma ScaledCofactor30(m: Mat4, d: real)
    requires d * Det(m) == 1.0
    ensures m[12] * (d * Brackets(m)[0]) + m[13] * (d * Brackets(m)[4]) + m[14] * (d * Brackets(m)[8]) + m[15] * (d * Brackets(m)[12]) == 0.0
  {
    Cofactor30(m);
    ScaledDot(m[12], m[13], m[14], m[15], Brackets(m)[0], Brackets(m)[4], Brackets(m)[8], Brackets(m)[12], d, 0.0);
  }

  lemma ScaledCofactor31(m: Mat4, d: real)
    requires d * Det(m) == 1.0
    ensures m[12] * (d * Brackets(m)[1]) + m[13] * (d * Brackets(m)[5]) + m[14] * (d * Brackets(m)[9]) + m[15] * (d * Brackets(m)[13]) == 0.0
  {
    Cofactor31(m);
    ScaledDot(m[12], m[13], m[14], m[15], Brackets(m)[1], Brackets(m)[5], Brackets(m)[9], Brackets(m)[13], d, 0.0);
  }

  lemma ScaledCofactor32(m: Mat4, d: real)
    requires d * Det(m) == 1.0
    ensures m[12] * (d * Brackets(m)[2]) + m[13] * (d * Brackets(m)[6]) + m[14] * (d * Brackets(m)[10]) + m[15] * (d * Brackets(m)[14]) == 0.0
  {
    Cofactor32(m);
    ScaledDot(m[12], m[13], m[14], m[15], Brackets(m)[2], Brackets(m)[6], Brackets(m)[10], Brackets(m)[14], d, 0.0);
  }

  lemma ScaledCofactor33(m: Mat4, d: real)
    requires d * Det(m) == 1.0
    ensures m[12] * (d * Brackets(m)[3]) + m[13] * (d * Brackets(m)[7]) + m[14] * (d * Brackets(m)[11]) + m[15] * (d * Brackets(m)[15]) == 1.0
  {
    Cofactor33(m);
    ScaledDot(m[12], m[13], m[14], m[15], Brackets(m)[3], Brackets(m)[7], Brackets(m)[11], Brackets(m)[15], d, Det(m));
  }

  lemma RightInverseAt00(m: Mat4, inverse: Mat4, d: real)
    requires d * Det(m) == 1.0 && inverse[0] == d * Brackets(m)[0] && inverse[4] == d * Brackets(m)[4] && inverse[8] == d * Brackets(m)[8] && inverse[12] == d * Brackets(m)[12]
    ensures Product(m, inverse)[0] == Identity()[0]
  {
    ScaledCofactor00(m, d);
  }

  lemma RightInverseAt01(m: Mat4, inverse: Mat4, d: real)
    requires d * Det(m) == 1.0 && inverse[1] == d * Brackets(m)[1] && inverse[5] == d * Brackets(m)[5] && inverse[9] == d * Brackets(m)[9] && inverse[13] == d * Brackets(m)[13]
    ensures Product(m, inverse)[1] == Identity()[1]
  {
    ScaledCofactor01(m, d);
  }

  lemma RightInverseAt02(m: Mat4, inverse: Mat4, d: real)
    requires d * Det(m) == 1.0 && inverse[2] == d * Brackets(m)[2] && inverse[6] == d * Brackets(m)[6] && inverse[10] == d * Brackets(m)[10] && inverse[14] == d * Brackets(m)[14]
    ensures Product(m, inverse)[2] == Identity()[2]
  {
    ScaledCofactor02(m, d);
  }

  lemma RightInverseAt03(m: Mat4, inverse: Mat4, d: real)
    requires d * Det(m) == 1.0 && inverse[3] == d * Brackets(m)[3] && inverse[7] == d * Brackets(m)[7] && inverse[11] == d * Brackets(m)[11] && inverse[15] == d * Brackets(m)[15]
    ensures Product(m, inverse)[3] == Identity()[3]
  {
    ScaledCofactor03(m, d);
  }

  lemma RightInverseAt10(m: Mat4, inverse: Mat4, d: real)
    requires d * Det(m) == 1.0 && inverse[0] == d * Brackets(m)[0] && inverse[4] == d * Brackets(m)[4] && inverse[8] == d * Brackets(m)[8] && inverse[12] == d * Brackets(m)[12]
    ensures Product(m, inverse)[4] == Identity()[4]
  {
    ScaledCofactor10(m, d);
  }

  lemma RightInverseAt11(m: Mat4, inverse: Mat4, d: real)
    requires d * Det(m) == 1.0 && inverse[1] == d * Brackets(m)[1] && inverse[5] == d * Brackets(m)[5] && inverse[9] == d * Brackets(m)[9] && inverse[13] == d * Brackets(m)[13]
    ensures Product(m, inverse)[5] == Identity()[5]
  {
    ScaledCofactor11(m, d);
  }

  lemma RightInverseAt12(m: Mat4, inverse: Mat4, d: real)
    requires d * Det(m) == 1.0 && inverse[2] == d * Brackets(m)[2] && inverse[6] == d * Brackets(m)[6] && inverse[10] == d * Brackets(m)[10] && inverse[14] == d * Brackets(m)[14]
    ensures Product(m, inverse)[6] == Identity()[6]
  {
    ScaledCofactor12(m, d);
  }

  lemma RightInverseAt13(m: Mat4, inverse: Mat4, d: real)
    requires d * Det(m) == 1.0 && inverse[3] == d * Brackets(m)[3] && inverse[7] == d * Brackets(m)[7] && inverse[11] == d * Brackets(m)[11] && inverse[15] == d * Brackets(m)[15]
    ensures Product(m, inverse)[7] == Identity()[7]
  {
    ScaledCofactor13(m, d);
  }

  lemma RightInverseAt20(m: Mat4, inverse: Mat4, d: real)
    requires d * Det(m) == 1.0 && inverse[0] == d * Brackets(m)[0] && inverse[4] == d * Brackets(m)[4] && inverse[8] == d * Brackets(m)[8] && inverse[12] == d * Brackets(m)[12]
    ensures Product(m, inverse)[8] == Identity()[8]
  {
    ScaledCofactor20(m, d);
  }

  lemma RightInverseAt21(m: Mat4, inverse: Mat4, d: real)
    requires d * Det(m) == 1.0 && inverse[1] == d * Brackets(m)[1] && inverse[5] == d * Brackets(m)[5] && inverse[9] == d * Brackets(m)[9] && inverse[13] == d * Brackets(m)[13]
    ensures Product(m, inverse)[9] == Identity()[9]
  {
    ScaledCofactor21(m, d);
  }

  lemma RightInverseAt22(m: Mat4, inverse: Mat4, d: real)
    requires d * Det(m) == 1.0 && inverse[2] == d * Brackets(m)[2] && inverse[6] == d * Brackets(m)[6] && inverse[10] == d * Brackets(m)[10] && inverse[14] == d * Brackets(m)[14]
    ensures Product(m, inverse)[10] == Identity()[10]
  {
    ScaledCofactor22(m, d);
  }

  lemma RightInverseAt23(m: Mat4, inverse: Mat4, d: real)
    requires d * Det(m) == 1.0 && inverse[3] == d * Brackets(m)[3] && inverse[7] == d * Brackets(m)[7] && inverse[11] == d * Brackets(m)[11] && inverse[15] == d * Brackets(m)[15]
    ensures Product(m, inverse)[11] == Identity()[11]
  {
    ScaledCofactor23(m, d);
  }

  lemma RightInverseAt30(m: Mat4, inverse: Mat4, d: real)
    requires d * Det(m) == 1.0 && inverse[0] == d * Brackets(m)[0] && inverse[4] == d * Brackets(m)[4] && inverse[8] == d * Brackets(m)[8] && inverse[12] == d * Brackets(m)[12]
    ensures Product(m, inverse)[12] == Identity()[12]
  {
    ScaledCofactor30(m, d);
  }

  lemma RightInverseAt31(m: Mat4, inverse: Mat4, d: real)
    requires d * Det(m) == 1.0 && inverse[1] == d * Brackets(m)[1] && inverse[5] == d * Brackets(m)[5] && inverse[9] == d * Brackets(m)[9] && inverse[13] == d * Brackets(m)[13]
    ensures Product(m, inverse)[13] == Identity()[13]
  {
    ScaledCofactor31(m, d);
  }

  lemma RightInverseAt32(m: Mat4, inverse: Mat4, d: real)
    requires d * Det(m) == 1.0 && inverse[2] == d * Brackets(m)[2] && inverse[6] == d * Brackets(m)[6] && inverse[10] == d * Brackets(m)[10] && inverse[14] == d * Brackets(m)[14]
    ensures Product(m, inverse)[14] == Identity()[14]
  {
    ScaledCofactor32(m, d);
  }

  lemma RightInverseAt33(m: Mat4, inverse: Mat4, d: real)
    requires d * Det(m) == 1.0 && inverse[3] == d * Brackets(m)[3] && inverse[7] == d * Brackets(m)[7] && inverse[11] == d * Brackets(m)[11] && inverse[15] == d * Brackets(m)[15]
    ensures Product(m, inverse)[15] == Identity()[15]
  {
    ScaledCofactor33(m, d);
  }

  /** When `inverse2` gives a result, it is a right inverse: `m · inverse2(m) == I`. */
  lemma Inverse2IsRightInverse(m: Mat4)
    requires Inverse2(m).Some?
    ensures Product(m, Inverse2(m).value) == Identity()
  {
    var inverse := Inverse2(m).value;
    Inverse2Entries(m, inverse);
    DivisorIsDet(m);
    var d := 1.0 / Divisor(m);
    RightInverseAt00(m, inverse, d);
    RightInverseAt01(m, inverse, d);
    RightInverseAt02(m, inverse, d);
    RightInverseAt03(m, inverse, d);
    RightInverseAt10(m, inverse, d);
    RightInverseAt11(m, inverse, d);
    RightInverseAt12(m, inverse, d);
    RightInverseAt13(m, inverse, d);
    RightInverseAt20(m, inverse, d);
    RightInverseAt21(m, inverse, d);
    RightInverseAt22(m, inverse, d);
    RightInverseAt23(m, inverse, d);
    RightInverseAt30(m, inverse, d);
    RightInverseAt31(m, inverse, d);
    RightInverseAt32(m, inverse, d);
    RightInverseAt33(m, inverse, d);
  }

  /** A worked case: the inverse of a matrix with determinant -2538. */
  lemma Inverse2Example()
    ensures Inverse2([4.0, 7.0, 2.0, 3.0, 0.0, 5.0, 9.0, 4.0, 6.0, 1.0, 3.0, 8.0, 5.0, 4.0, 7.0, 1.0])
         == Some([1.0 / 423.0, -6.0 / 47.0, 19.0 / 423.0, 61.0 / 423.0,
                  23.0 / 141.0, 7.0 / 282.0, -19.0 / 282.0, -7.0 / 141.0,
                  -41.0 / 423.0, 19.0 / 282.0, -7.0 / 846.0, 37.0 / 423.0,
                  2.0 / 141.0, 19.0 / 282.0, 29.0 / 282.0, -19.0 / 141.0])
  {
  }
}
