/** The older scene's `Cube` (src/app/core/class/Cube.ts): each side is two
    `SimpleTriangle`s cut from one face template, turned by the side's signed axis
    permutation and moved to the cube's coordinates. Unlike the engine's cube,
    `toVertexes` rebuilds the sides first, so it always reflects the current
    coordinates. The sides enum, the rotation table and the atlas layout are the same
    as the engine cube's and are taken from `EngineCube`. */
module LegacyCube {
  import opened Numeric
  import opened Vectors
  import opened Sequences
  import opened SimpleTriangle
  import EngineCube

  /** `Cube.Vertexes`: the front face as two triangles, corners at ±1. */
  const Vertexes: seq<Vec3> := [
    Vec3(1.0, 1.0, 1.0), Vec3(-1.0, 1.0, 1.0), Vec3(-1.0, -1.0, 1.0),
    Vec3(-1.0, -1.0, 1.0), Vec3(1.0, -1.0, 1.0), Vec3(1.0, 1.0, 1.0)]

  /** `Cube.FacesTexturesCoordinates[side]`: per triangle, one UV per corner. */
  function TriangleUvs(side: EngineCube.Side): (uvs: seq<seq<EngineCube.Uv>>)
    ensures |uvs| == 2 && |uvs[0]| == 3 && |uvs[1]| == 3
  {
    match side
    case Face => [[EngineCube.Uv(0.5, 1.0 / 3.0), EngineCube.Uv(0.25, 1.0 / 3.0), EngineCube.Uv(0.25, 2.0 / 3.0)], [EngineCube.Uv(0.25, 2.0 / 3.0), EngineCube.Uv(0.5, 2.0 / 3.0), EngineCube.Uv(0.5, 1.0 / 3.0)]]
    case Bottom => [[EngineCube.Uv(0.5, 2.0 / 3.0), EngineCube.Uv(0.25, 2.0 / 3.0), EngineCube.Uv(0.25, 1.0)], [EngineCube.Uv(0.25, 1.0), EngineCube.Uv(0.5, 1.0), EngineCube.Uv(0.5, 2.0 / 3.0)]]
    case Right => [[EngineCube.Uv(0.75, 1.0 / 3.0), EngineCube.Uv(0.5, 1.0 / 3.0), EngineCube.Uv(0.5, 2.0 / 3.0)], [EngineCube.Uv(0.5, 2.0 / 3.0), EngineCube.Uv(0.75, 2.0 / 3.0), EngineCube.Uv(0.75, 1.0 / 3.0)]]
    case Left => [[EngineCube.Uv(0.25, 1.0 / 3.0), EngineCube.Uv(0.0, 1.0 / 3.0), EngineCube.Uv(0.0, 2.0 / 3.0)], [EngineCube.Uv(0.0, 2.0 / 3.0), EngineCube.Uv(0.25, 2.0 / 3.0), EngineCube.Uv(0.25, 1.0 / 3.0)]]
    case Top => [[EngineCube.Uv(0.5, 0.0), EngineCube.Uv(0.25, 0.0), EngineCube.Uv(0.25, 1.0 / 3.0)], [EngineCube.Uv(0.25, 1.0 / 3.0), EngineCube.Uv(0.5, 1.0 / 3.0), EngineCube.Uv(0.5, 0.0)]]
    case Back => [[EngineCube.Uv(1.0, 1.0 / 3.0), EngineCube.Uv(0.75, 1.0 / 3.0), EngineCube.Uv(0.75, 2.0 / 3.0)], [EngineCube.Uv(0.75, 2.0 / 3.0), EngineCube.Uv(1.0, 2.0 / 3.0), EngineCube.Uv(1.0, 1.0 / 3.0)]]
  }

  /** Corner `p` of triangle `t` of a side: template point `3t + p`, turned for the side
      and moved by `coordinates`. */
  function SidePoint(side: EngineCube.Side, coordinates: Vec3, t: nat, p: nat): Vec3
    requires t < 2 && p < 3
  {
    Plus(EngineCube.CubeFaceRotation(side, Vertexes[3 * t + p]), coordinates)
  }

  /** Triangle `t` of a side: `cubePosition.slice(0, 3)` for `t = 0`, `slice(3)` for `t = 1`,
      each point turned and then added to a copy of the coordinates. */
  function SideTriangle(side: EngineCube.Side, coordinates: Vec3, t: nat): Triangle
    requires t < 2
  {
    NewTriangle(Vec3(0.0, 0.0, 0.0), seq(3, p requires 0 <= p < 3 => SidePoint(side, coordinates, t, p)))
  }

  /** `generateSides()`: two triangles per side, in the order FACE, BOTTOM, RIGHT, LEFT,
      TOP, BACK that `Object.entries` gives back. */
  function GenerateSides(coordinates: Vec3): (sides: seq<seq<Triangle>>)
    ensures |sides| == 6 && Uniform(sides, 2)
  {
    seq(6, s requires 0 <= s < 6 =>
      [SideTriangle(EngineCube.GenerateOrder[s], coordinates, 0), SideTriangle(EngineCube.GenerateOrder[s], coordinates, 1)])
  }

  /** The records of one triangle: `computeVertexes()` cut into three points, each followed
      by its UV. */
  function TriangleRecords(triangle: Triangle, uvs: seq<EngineCube.Uv>): (rs: seq<seq<real>>)
    requires |uvs| == 3
    ensures |rs| == 3 && Uniform(rs, 5)
  {
    var points := ComputeVertexes(triangle);
    var pointsVert := [points[0..3], points[3..6], points[6..]];
    seq(3, p requires 0 <= p < 3 => pointsVert[p] + [uvs[p].u, uvs[p].v])
  }

  /** `toVertexes()` over given sides: per side, per triangle, per point, `flat(3)`. */
  function VertexesOf(sides: seq<seq<Triangle>>): seq<real>
    requires |sides| == 6 && Uniform(sides, 2)
  {
    Flatten(Flatten(Flatten(NestedRecords(sides))))
  }

  /** `sides.map(side => side.map(triangle => records))`, before any `flat`. */
  function NestedRecords(sides: seq<seq<Triangle>>): (nested: seq<seq<seq<seq<real>>>>)
    requires |sides| == 6 && Uniform(sides, 2)
    ensures |nested| == 6 && Uniform(nested, 2)
    ensures forall s :: 0 <= s < |nested| ==> forall t :: 0 <= t < 2 ==> |nested[s][t]| == 3 && Uniform(nested[s][t], 5)
  {
    seq(6, s requires 0 <= s < 6 =>
      seq(2, t requires 0 <= t < 2 => TriangleRecords(sides[s][t], TriangleUvs(EngineCube.GenerateOrder[s])[t])))
  }

  /** What `toVertexes()` returns for a cube at `coordinates`. */
  function CubeVertexes(coordinates: Vec3): seq<real> {
    VertexesOf(GenerateSides(coordinates))
  }

  class Cube {
    var coordinates: Vec3
    var angle: Vec3
    var size: real
    var distance: real
    var sides: seq<seq<Triangle>>

    /** `new Cube({coordinates, size, angle, distance})`: the fields, then `generateSides()`. */
    constructor (coordinates: Vec3, size: real, angle: Vec3, distance: real)
      ensures this.coordinates == coordinates && this.size == size && this.angle == angle
      ensures this.distance == distance
      ensures sides == GenerateSides(coordinates)
    {
      this.coordinates := coordinates;
      this.size := size;
      this.distance := distance;
      this.angle := angle;
      sides := GenerateSides(coordinates);
    }

    /** `toVertexes()`: the sides are rebuilt from the current coordinates, then laid out. */
    method ToVertexes() returns (r: seq<real>)
      modifies this
      ensures coordinates == old(coordinates) && angle == old(angle)
      ensures size == old(size) && distance == old(distance)
      ensures sides == GenerateSides(coordinates)
      ensures r == CubeVertexes(coordinates)
    {
      sides := GenerateSides(coordinates);
      r := VertexesOf(sides);
    }
  }

  /** The nesting of `toVertexes` before `flat(3)`: six sides of two triangles of three
      records of five numbers. */
  lemma NestedLayout(sides: seq<seq<Triangle>>, s: nat, t: nat, p: nat, k: nat)
    requires |sides| == 6 && Uniform(sides, 2)
    requires s < 6 && t < 2 && p < 3 && k < 5
    ensures var r := VertexesOf(sides);
            30 * s + 15 * t + 5 * p + k < |r| &&
            r[30 * s + 15 * t + 5 * p + k] == TriangleRecords(sides[s][t], TriangleUvs(EngineCube.GenerateOrder[s])[t])[p][k]
  {
    var nested := NestedRecords(sides);
    assert nested[s][t] == TriangleRecords(sides[s][t], TriangleUvs(EngineCube.GenerateOrder[s])[t]);
    var level1 := Flatten(nested);
    FlattenLength(nested, 2);
    FlattenAt(nested, 2, s, t);
    TrianglesShape(nested);
    var level2 := Flatten(level1);
    FlattenLength(level1, 3);
    FlattenAt(level1, 3, 2 * s + t, p);
    RecordsShape(level1);
    FlattenAt(level2, 5, 3 * (2 * s + t) + p, k);
    assert 5 * (3 * (2 * s + t) + p) + k == 30 * s + 15 * t + 5 * p + k;
  }

  /** After the first `flat`: twelve triangles of three records of five numbers. */
  lemma TrianglesShape(nested: seq<seq<seq<seq<real>>>>)
    requires Uniform(nested, 2)
    requires forall s :: 0 <= s < |nested| ==> forall t :: 0 <= t < 2 ==> |nested[s][t]| == 3 && Uniform(nested[s][t], 5)
    ensures forall n :: 0 <= n < |Flatten(nested)| ==> |Flatten(nested)[n]| == 3 && Uniform(Flatten(nested)[n], 5)
  {
    FlattenLength(nested, 2);
    forall n | 0 <= n < |Flatten(nested)|
      ensures |Flatten(nested)[n]| == 3 && Uniform(Flatten(nested)[n], 5)
    {
      assert n == 2 * (n / 2) + n % 2;
      FlattenAt(nested, 2, n / 2, n % 2);
    }
  }

  /** After the second `flat`: records of five numbers. */
  lemma RecordsShape(level1: seq<seq<seq<real>>>)
    requires Uniform(level1, 3)
    requires forall n :: 0 <= n < |level1| ==> Uniform(level1[n], 5)
    ensures Uniform(Flatten(level1), 5)
  {
    FlattenLength(level1, 3);
    forall n | 0 <= n < |Flatten(level1)|
      ensures |Flatten(level1)[n]| == 5
    {
      assert n == 3 * (n / 3) + n % 3;
      FlattenAt(level1, 3, n / 3, n % 3);
    }
  }

  /** A triangle's record `p` is its corner `p` followed by the corner's UV. */
  lemma TriangleRecordIsCorner(triangle: Triangle, uvs: seq<EngineCube.Uv>, p: nat)
    requires |uvs| == 3 && p < 3
    ensures TriangleRecords(triangle, uvs)[p] == EngineCube.VertexRecord(Corner(triangle, p), uvs[p])
  {
    ComputeVertexesLayout(triangle, p);
    var points := ComputeVertexes(triangle);
    assert [points[0..3], points[3..6], points[6..]][p] == points[3 * p..3 * p + 3];
  }

  /** Number `k` of point `p` of triangle `t` of the `s`-th side sits at
      `30·s + 15·t + 5·p + k`: template point `3t + p` turned for the side and moved to the
      coordinates, then its UV; 180 numbers in all. */
  lemma CubeVertexesLayout(coordinates: Vec3, s: nat, t: nat, p: nat, k: nat)
    requires s < 6 && t < 2 && p < 3 && k < 5
    ensures var r := CubeVertexes(coordinates);
            var side := EngineCube.GenerateOrder[s];
            |r| == 180 &&
            r[30 * s + 15 * t + 5 * p + k] == EngineCube.VertexRecord(SidePoint(side, coordinates, t, p), TriangleUvs(side)[t][p])[k]
  {
    var sides := GenerateSides(coordinates);
    var side := EngineCube.GenerateOrder[s];
    NestedLayout(sides, s, t, p, k);
    VertexesLength(sides);
    TriangleRecordIsCorner(sides[s][t], TriangleUvs(side)[t], p);
    GeneratedCorner(coordinates, s, t, p);
  }

  /** Corner `p` of triangle `t` of the `s`-th generated side. */
  lemma GeneratedCorner(coordinates: Vec3, s: nat, t: nat, p: nat)
    requires s < 6 && t < 2 && p < 3
    ensures Corner(GenerateSides(coordinates)[s][t], p) == SidePoint(EngineCube.GenerateOrder[s], coordinates, t, p)
  {
    var side := EngineCube.GenerateOrder[s];
    assert GenerateSides(coordinates)[s][t] == SideTriangle(side, coordinates, t);
  }

  /** `toVertexes` always yields 180 numbers. */
  lemma VertexesLength(sides: seq<seq<Triangle>>)
    requires |sides| == 6 && Uniform(sides, 2)
    ensures |VertexesOf(sides)| == 180
  {
    var nested := NestedRecords(sides);
    var level1 := Flatten(nested);
    FlattenLength(nested, 2);
    TrianglesShape(nested);
    var level2 := Flatten(level1);
    FlattenLength(level1, 3);
    RecordsShape(level1);
    FlattenLength(level2, 5);
  }

  /** Every point of every triangle is the coordinates plus a corner of the cube, on the
      plane one unit out along the side's normal. */
  lemma TrianglesLieOnTheirPlanes(coordinates: Vec3, s: nat, t: nat, p: nat)
    requires s < 6 && t < 2 && p < 3
    ensures var side := EngineCube.GenerateOrder[s];
            var offset := EngineCube.CubeFaceRotation(side, Vertexes[3 * t + p]);
            Corner(GenerateSides(coordinates)[s][t], p) == Plus(offset, coordinates) &&
            EngineCube.UnitCorner(offset) && EngineCube.Dot(offset, EngineCube.OutwardNormal(side)) == 1.0
  {
    EngineCube.RotationKeepsCorners(EngineCube.GenerateOrder[s], Vertexes[3 * t + p]);
  }

  /** Every UV lies inside the side's own cell of the atlas, the same cell the engine's
      cube uses. */
  lemma TriangleUvsInsideCell(side: EngineCube.Side, t: nat, p: nat)
    requires t < 2 && p < 3
    ensures var uv := TriangleUvs(side)[t][p];
            var (col, row) := EngineCube.AtlasCell(side);
            col as real / 4.0 <= uv.u <= (col + 1) as real / 4.0 &&
            row as real / 3.0 <= uv.v <= (row + 1) as real / 3.0
  {
  }

  /** The two triangles of a side share the edge from corner 0 to corner 2 of the first,
      in position and UV alike. */
  lemma TrianglesShareDiagonal(coordinates: Vec3, s: nat)
    requires s < 6
    ensures var ts := GenerateSides(coordinates)[s];
            ts[1].a == ts[0].c && ts[1].c == ts[0].a
    ensures var uvs := TriangleUvs(EngineCube.GenerateOrder[s]);
            uvs[1][0] == uvs[0][2] && uvs[1][2] == uvs[0][0]
  {
  }

  /** Different coordinates give different vertex lists: the first record starts with
      the first face corner moved to the coordinates. */
  lemma CubeVertexesInjective(c1: Vec3, c2: Vec3)
    requires CubeVertexes(c1) == CubeVertexes(c2)
    ensures c1 == c2
  {
    CubeVertexesLayout(c1, 0, 0, 0, 0);
    CubeVertexesLayout(c1, 0, 0, 0, 1);
    CubeVertexesLayout(c1, 0, 0, 0, 2);
    CubeVertexesLayout(c2, 0, 0, 0, 0);
    CubeVertexesLayout(c2, 0, 0, 0, 1);
    CubeVertexesLayout(c2, 0, 0, 0, 2);
  }

  /** Moving a cube and reading it again shows it at the new place, because `toVertexes`
      rebuilds the sides (the engine's cube would still show the old place). */
  method MovedCubeIsRedrawn(at: Vec3, to: Vec3)
  {
    var cube := new Cube(at, 100.0, Vec3(0.0, 0.0, 0.0), 1.0);
    var before := cube.ToVertexes();
    cube.coordinates := to;
    var after := cube.ToVertexes();
    assert before == CubeVertexes(at) && after == CubeVertexes(to);
    assert at != to ==> before != after by {
      if before == after {
        CubeVertexesInjective(at, to);
      }
    }
  }
}
