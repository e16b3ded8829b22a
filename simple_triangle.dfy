/** `SimpleTriangle` (src/app/core/class/SimpleTriangle.ts): three corner points, their
    coordinates as one flat list, and the depth comparator that orders groups of
    triangles by their mean depth. A triangle's points are never reassigned, so it is a
    value. */
module SimpleTriangle {
  import opened Wrappers
  import opened Vectors
  import opened Sequences

  /** `pointCoordinates`: the corners `a`, `b` and `c`. */
  datatype Triangle = Triangle(a: Vec3, b: Vec3, c: Vec3)

  /** `new SimpleTriangle({a, coords})`: the corners are `coords[0..2]`; the `a` property of
      the argument (an angle) is not stored. */
  function NewTriangle(angle: Vec3, coords: seq<Vec3>): (t: Triangle)
    requires |coords| == 3
    ensures [t.a, t.b, t.c] == coords
  {
    Triangle(coords[0], coords[1], coords[2])
  }

  /** `computeVertexes()`: `[a, b, c].map(toArray).flat()`. */
  function ComputeVertexes(t: Triangle): (r: seq<real>)
    ensures |r| == 9
  {
    var points := [AsArray(t.a), AsArray(t.b), AsArray(t.c)];
    FlattenLength(points, 3);
    Flatten(points)
  }

  /** Corner `p` of a triangle, in the order `computeVertexes` lists them. */
  function Corner(t: Triangle, p: nat): Vec3
    requires p < 3
  {
    if p == 0 then t.a else if p == 1 then t.b else t.c
  }

  /** The flat list reads back as the corners: entries `3p`, `3p + 1`, `3p + 2` are
      corner `p`'s `x`, `y` and `z`. */
  lemma ComputeVertexesLayout(t: Triangle, p: nat)
    requires p < 3
    ensures ComputeVertexes(t)[3 * p..3 * p + 3] == AsArray(Corner(t, p))
  {
    var points := [AsArray(t.a), AsArray(t.b), AsArray(t.c)];
    var r := ComputeVertexes(t);
    forall k | 0 <= k < 3
      ensures r[3 * p + k] == AsArray(Corner(t, p))[k]
    {
      FlattenAt(points, 3, p, k);
    }
  }

  /** `getTriangleZAverage()`: the mean depth of the three corners. */
  function ZAverage(t: Triangle): real {
    (t.a.z + t.b.z + t.c.z) / 3.0
  }

  /** `reduce((a, b) => a + b)` without a start value: a left fold from the first element;
      on an empty list JavaScript throws, which is the `None` case. */
  function Sum(s: seq<real>): (r: Option<real>)
    ensures r.Some? <==> |s| > 0
  {
    if |s| == 0 then None
    else if |s| == 1 then Some(s[0])
    else Some(Sum(s[..|s| - 1]).value + s[|s| - 1])
  }

  /** `triangles.map(t => t.getTriangleZAverage())`. */
  function Depths(ts: seq<Triangle>): (ds: seq<real>)
    ensures |ds| == |ts| && forall i :: 0 <= i < |ts| ==> ds[i] == ZAverage(ts[i])
  {
    seq(|ts|, i requires 0 <= i < |ts| => ZAverage(ts[i]))
  }

  /** The mean depth of a group: `Depths(ts).reduce(+) / ts.length`; `None` for an empty
      group, where the source's `reduce` throws. */
  function MeanDepth(ts: seq<Triangle>): (r: Option<real>)
    ensures r.Some? <==> |ts| > 0
  {
    if |ts| == 0 then None else Some(Sum(Depths(ts)).value / |ts| as real)
  }

  /** `SimpleTriangle.sortTriangleByDepth(A, B)`: mean depth of `A` minus mean depth of `B`,
      a comparator for `Array.prototype.sort`; `None` when either group is empty. */
  function SortTriangleByDepth(groupA: seq<Triangle>, groupB: seq<Triangle>): (r: Option<real>)
    ensures r.Some? <==> |groupA| > 0 && |groupB| > 0
  {
    if |groupA| == 0 || |groupB| == 0 then None
    else Some(MeanDepth(groupA).value - MeanDepth(groupB).value)
  }

  /** `t` moved by `d` along the depth axis. */
  function ShiftZ(t: Triangle, d: real): Triangle {
    Triangle(Vec3(t.a.x, t.a.y, t.a.z + d), Vec3(t.b.x, t.b.y, t.b.z + d), Vec3(t.c.x, t.c.y, t.c.z + d))
  }

  function ShiftAll(ts: seq<Triangle>, d: real): (r: seq<Triangle>)
    ensures |r| == |ts| && forall i :: 0 <= i < |ts| ==> r[i] == ShiftZ(ts[i], d)
  {
    seq(|ts|, i requires 0 <= i < |ts| => ShiftZ(ts[i], d))
  }

  /** Moving a triangle along the depth axis moves its mean depth by the same amount. */
  lemma ZAverageShift(t: Triangle, d: real)
    ensures ZAverage(ShiftZ(t, d)) == ZAverage(t) + d
  {
  }

  /** The fold adds `d` once per element when every element grows by `d`. */
  lemma {:induction false} SumShift(s: seq<real>, t: seq<real>, d: real)
    requires |s| == |t| > 0 && forall i :: 0 <= i < |s| ==> t[i] == s[i] + d
    ensures Sum(t).value == Sum(s).value + |s| as real * d
  {
    if |s| > 1 {
      SumShift(s[..|s| - 1], t[..|t| - 1], d);
    }
  }

  /** Moving a whole group by `d` along the depth axis moves its mean depth by `d`. */
  lemma MeanDepthShift(ts: seq<Triangle>, d: real)
    requires |ts| > 0
    ensures MeanDepth(ShiftAll(ts, d)).value == MeanDepth(ts).value + d
  {
    var shifted := ShiftAll(ts, d);
    forall i | 0 <= i < |ts|
      ensures Depths(shifted)[i] == Depths(ts)[i] + d
    {
      ZAverageShift(ts[i], d);
    }
    SumShift(Depths(ts), Depths(shifted), d);
    MeanOfShifted(Sum(Depths(ts)).value, Sum(Depths(shifted)).value, |ts| as real, d);
  }

  lemma MeanOfShifted(s: real, t: real, n: real, d: real)
    requires n > 0.0 && t == s + n * d
    ensures t / n == s / n + d
  {
    assert t / n == s / n + (n * d) / n;
  }

  /** A group compares equal to itself, and swapping the groups negates the result. */
  lemma ComparatorAntisymmetric(groupA: seq<Triangle>, groupB: seq<Triangle>)
    requires |groupA| > 0 && |groupB| > 0
    ensures SortTriangleByDepth(groupA, groupA) == Some(0.0)
    ensures SortTriangleByDepth(groupA, groupB).value == -SortTriangleByDepth(groupB, groupA).value
  {
  }

  /** The comparator's results add up along a chain, so the order it induces is transitive
      and consistent, as `Array.prototype.sort` needs. */
  lemma ComparatorTransitive(groupA: seq<Triangle>, groupB: seq<Triangle>, groupC: seq<Triangle>)
    requires |groupA| > 0 && |groupB| > 0 && |groupC| > 0
    ensures SortTriangleByDepth(groupA, groupC).value
         == SortTriangleByDepth(groupA, groupB).value + SortTriangleByDepth(groupB, groupC).value
    ensures SortTriangleByDepth(groupA, groupB).value <= 0.0 && SortTriangleByDepth(groupB, groupC).value <= 0.0
            ==> SortTriangleByDepth(groupA, groupC).value <= 0.0
  {
  }

  /** Pushing a group further back by `d` raises its comparison with any other group by `d`. */
  lemma ComparatorShift(groupA: seq<Triangle>, groupB: seq<Triangle>, d: real)
    requires |groupA| > 0 && |groupB| > 0
    ensures SortTriangleByDepth(ShiftAll(groupA, d), groupB).value == SortTriangleByDepth(groupA, groupB).value + d
  {
    MeanDepthShift(groupA, d);
  }

  /** A group of one triangle compares by that triangle's mean depth. */
  lemma SingletonGroups(t: Triangle, u: Triangle)
    ensures SortTriangleByDepth([t], [u]) == Some(ZAverage(t) - ZAverage(u))
  {
    assert Depths([t]) == [ZAverage(t)] && Depths([u]) == [ZAverage(u)];
  }
}
