/** `Vector3` (src/app/core/engine/Maths/Vector/Vector3.ts and its older twin
    src/app/core/class/Vector3.ts, whose instance members are identical): a mutable
    3-component vector whose arithmetic overwrites the receiver. `Vec3` is the value a
    vector holds at one moment; the scene models use it where a vector is only read. */
module Vectors {
  import opened Numeric

  datatype Vec3 = Vec3(x: real, y: real, z: real)

  function Plus(a: Vec3, b: Vec3): Vec3 { Vec3(a.x + b.x, a.y + b.y, a.z + b.z) }

  function Times(a: Vec3, b: Vec3): Vec3 { Vec3(a.x * b.x, a.y * b.y, a.z * b.z) }

  function ScaledBy(a: Vec3, s: real): Vec3 { Vec3(s * a.x, s * a.y, s * a.z) }

  predicate NoZeroComponent(a: Vec3) { a.x != 0.0 && a.y != 0.0 && a.z != 0.0 }

  function Over(a: Vec3, b: Vec3): Vec3
    requires NoZeroComponent(b)
  {
    Vec3(a.x / b.x, a.y / b.y, a.z / b.z)
  }

  /** `toArray()`: `[x, y, z]`. */
  function AsArray(v: Vec3): seq<real> { [v.x, v.y, v.z] }

  /** Formats numbers as JavaScript's template literals do; the model leaves it abstract. */
  type NumberFormat = real -> string

  ghost predicate CommaFree(fmt: NumberFormat) {
    forall a: real :: ',' !in fmt(a)
  }

  /** `fmt` tells apart the numbers of `vals`. No map from all reals to strings is
      injective, but a formatter can be on the finitely many numbers a program shows it. */
  ghost predicate InjectiveOn(fmt: NumberFormat, vals: set<real>) {
    forall a, b :: a in vals && b in vals && fmt(a) == fmt(b) ==> a == b
  }

  lemma InjectiveOnSubset(fmt: NumberFormat, small: set<real>, big: set<real>)
    requires small <= big && InjectiveOn(fmt, big)
    ensures InjectiveOn(fmt, small)
  {
  }

  /** `toString()`: `` `${x},${y},${z}` ``. */
  function Format(v: Vec3, fmt: NumberFormat): string {
    fmt(v.x) + "," + fmt(v.y) + "," + fmt(v.z)
  }

  /** The first comma-free field of `s` and what follows its comma. */
  function SplitAtComma(s: string): (string, string) {
    if s == [] then ([], [])
    else if s[0] == ',' then ([], s[1..])
    else var (h, t) := SplitAtComma(s[1..]); ([s[0]] + h, t)
  }

  lemma {:induction false} SplitAtCommaOfField(a: string, rest: string)
    requires ',' !in a
    ensures SplitAtComma(a + "," + rest) == (a, rest)
  {
    if a != [] {
      assert (a + "," + rest)[0] == a[0] && (a + "," + rest)[1..] == a[1..] + "," + rest;
      SplitAtCommaOfField(a[1..], rest);
      assert [a[0]] + a[1..] == a;
    } else {
      assert (a + "," + rest)[1..] == rest;
    }
  }

  /** Reading the text back: splitting a formatted vector at its commas gives the three
      formatted components, so with a comma-free number format nothing is lost. */
  lemma FormatFields(v: Vec3, fmt: NumberFormat)
    requires CommaFree(fmt)
    ensures SplitAtComma(Format(v, fmt)) == (fmt(v.x), fmt(v.y) + "," + fmt(v.z))
    ensures SplitAtComma(fmt(v.y) + "," + fmt(v.z)) == (fmt(v.y), fmt(v.z))
  {
    assert Format(v, fmt) == fmt(v.x) + "," + (fmt(v.y) + "," + fmt(v.z));
    SplitAtCommaOfField(fmt(v.x), fmt(v.y) + "," + fmt(v.z));
    SplitAtCommaOfField(fmt(v.y), fmt(v.z));
  }

  /** Two vectors with the same text are equal when numbers format without commas and
      tell their components apart. */
  lemma FormatInjective(v: Vec3, w: Vec3, fmt: NumberFormat)
    requires CommaFree(fmt) && InjectiveOn(fmt, {v.x, v.y, v.z, w.x, w.y, w.z})
    requires Format(v, fmt) == Format(w, fmt)
    ensures v == w
  {
    FormatFields(v, fmt);
    FormatFields(w, fmt);
  }

  /** `degreeToRadians(d) = d / 360 * 2 * Math.PI`. */
  function DegreeToRadians(degree: real): (r: real)
    ensures r * 180.0 == degree * Pi
    ensures degree == 360.0 ==> r == TwoPi
  {
    degree / 360.0 * 2.0 * Pi
  }

  class Vector3 {
    var x: real
    var y: real
    var z: real

    constructor (x: real, y: real, z: real)
      ensures Value() == Vec3(x, y, z)
    {
      this.x, this.y, this.z := x, y, z;
    }

    /** `fromArray([x, y, z])`. */
    constructor FromArray(a: seq<real>)
      requires |a| == 3
      ensures ToArray() == a
    {
      x, y, z := a[0], a[1], a[2];
    }

    function Value(): Vec3
      reads this
    {
      Vec3(x, y, z)
    }

    function ToArray(): (a: seq<real>)
      reads this
      ensures |a| == 3 && a == AsArray(Value())
    {
      [x, y, z]
    }

    /** `toString()`. */
    function ToString(fmt: NumberFormat): string
      reads this
    {
      Format(Value(), fmt)
    }

    /** `scale(s)`: all three fields multiplied by `s`, in place. */
    method Scale(s: real)
      modifies this
      ensures Value() == ScaledBy(old(Value()), s)
    {
      x := s * x;
      y := s * y;
      z := s * z;
    }

    /** `copy()`: a new object with the same fields; the original is untouched. */
    method Copy() returns (c: Vector3)
      ensures fresh(c) && c.Value() == Value()
    {
      c := new Vector3.FromArray(ToArray());
    }

    /** `add(v)`: the receiver becomes the sum and is returned. `v` is read field by field
        as the receiver is updated, so `v.add(v)` doubles `v`. */
    method Add(v: Vector3) returns (self: Vector3)
      modifies this
      ensures self == this
      ensures Value() == Plus(old(Value()), old(v.Value()))
    {
      x := x + v.x;
      y := y + v.y;
      z := z + v.z;
      self := this;
    }

    /** `multiply(v)`: componentwise product, in place. */
    method Multiply(v: Vector3) returns (self: Vector3)
      modifies this
      ensures self == this
      ensures Value() == Times(old(Value()), old(v.Value()))
    {
      x := x * v.x;
      y := y * v.y;
      z := z * v.z;
      self := this;
    }

    /** `divide(v)`: componentwise quotient, in place; every divisor component must be
        non-zero (JavaScript would produce an infinity or NaN). */
    method Divide(v: Vector3) returns (self: Vector3)
      requires NoZeroComponent(v.Value())
      modifies this
      ensures self == this
      ensures Value() == Over(old(Value()), old(v.Value()))
    {
      x := x / v.x;
      y := y / v.y;
      z := z / v.z;
      self := this;
    }
  }

  /** The older class's static `scale(vector, s)`: a scaled copy; `vector` is unchanged. */
  method ScaleCopy(vector: Vector3, s: real) returns (r: Vector3)
    ensures fresh(r) && r.Value() == ScaledBy(vector.Value(), s)
  {
    r := vector.Copy();
    r.Scale(s);
  }

  /** What the in-place methods promise a caller, checked on one scenario: `add` changes
      only the receiver, a copy is independent of its original, and the array round trip
      keeps the components. */
  method InPlaceScenario(a: Vector3, b: Vector3)
    requires a != b
    modifies a
  {
    ghost var a0, b0 := a.Value(), b.Value();
    var r := a.Add(b);
    assert r == a && a.Value() == Plus(a0, b0) && b.Value() == b0;
    var c := a.Copy();
    c.Scale(0.0);
    assert a.Value() == Plus(a0, b0);
    var d := new Vector3.FromArray(a.ToArray());
    assert d.Value() == a.Value();
  }
}
