/** The engine's `Cube` (src/app/core/engine/class/Cube.ts): six sides built once, in the
    constructor, from one face template turned by a signed axis permutation per side and
    moved to the cube's coordinates; `toVertexes` lays them out as position + UV
    records. */
module EngineCube {
  import opened Numeric
  import opened Vectors
  import opened Sequences

  /** The `Sides` enum; its numeric values are the positions in `GenerateOrder`. */
  datatype Side = Face | Bottom | Right | Left | Top | Back

  /** The order in which `reloadCubeState` builds the sides and `toVertexes` emits them. */
  const GenerateOrder: seq<Side> := [Face, Bottom, Right, Left, Top, Back]

  /** `Cube.VertexesCount`. */
  const VertexesCount: nat := 6 * 6

  /** `Cube.Vertexes`: the front face as two triangles, corners at ±1. */
  const Vertexes: seq<Vec3> := [
    Vec3(-1.0, -1.0, 1.0), Vec3(-1.0, 1.0, 1.0), Vec3(1.0, 1.0, 1.0),
    Vec3(1.0, 1.0, 1.0), Vec3(1.0, -1.0, 1.0), Vec3(-1.0, -1.0, 1.0)]

  /** A texture coordinate in the atlas. */
  datatype Uv = Uv(u: real, v: real)

  /** `Cube.FacesTexturesCoordinates[side]`: one UV per template vertex. */
  function FacesTexturesCoordinates(side: Side): (uvs: seq<Uv>)
    ensures |uvs| == 6
  {
    match side
    case Face => [Uv(0.25, 2.0 / 3.0), Uv(0.25, 1.0 / 3.0), Uv(0.5, 1.0 / 3.0), Uv(0.5, 1.0 / 3.0), Uv(0.5, 2.0 / 3.0), Uv(0.25, 2.0 / 3.0)]
    case Bottom => [Uv(0.25, 1.0), Uv(0.25, 2.0 / 3.0), Uv(0.5, 2.0 / 3.0), Uv(0.5, 2.0 / 3.0), Uv(0.5, 1.0), Uv(0.25, 1.0)]
    case Right => [Uv(0.5, 2.0 / 3.0), Uv(0.5, 1.0 / 3.0), Uv(0.75, 1.0 / 3.0), Uv(0.75, 1.0 / 3.0), Uv(0.75, 2.0 / 3.0), Uv(0.5, 2.0 / 3.0)]
    case Left => [Uv(0.0, 2.0 / 3.0), Uv(0.0, 1.0 / 3.0), Uv(0.25, 1.0 / 3.0), Uv(0.25, 1.0 / 3.0), Uv(0.25, 2.0 / 3.0), Uv(0.0, 2.0 / 3.0)]
    case Top => [Uv(0.25, 1.0 / 3.0), Uv(0.25, 0.0), Uv(0.5, 0.0), Uv(0.5, 0.0), Uv(0.5, 1.0 / 3.0), Uv(0.25, 1.0 / 3.0)]
    case Back => [Uv(0.75, 2.0 / 3.0), Uv(0.75, 1.0 / 3.0), Uv(1.0, 1.0 / 3.0), Uv(1.0, 1.0 / 3.0), Uv(1.0, 2.0 / 3.0), Uv(0.75, 2.0 / 3.0)]
  }

  /** `Cube.CubeFaceRotations[side]`: a fresh vector with the components permuted and
      some negated. */
  function CubeFaceRotation(side: Side, v: Vec3): Vec3 {
    match side
    case Face => Vec3(-v.x, v.y, v.z)
    case Bottom => Vec3(v.x, -v.z, -v.y)
    case Right => Vec3(v.z, v.y, v.x)
    case Left => Vec3(-v.z, v.y, -v.x)
    case Top => Vec3(v.x, v.z, v.y)
    case Back => Vec3(v.x, v.y, -v.z)
  }

  /** One side: every template point turned for `side`, then `add(coordinates)`. */
  function SideVertices(side: Side, coordinates: Vec3): (vs: seq<Vec3>)
    ensures |vs| == 6
  {
    seq(6, i requires 0 <= i < 6 => Plus(CubeFaceRotation(side, Vertexes[i]), coordinates))
  }

  /** The `sides` that `reloadCubeState` computes. */
  function GenerateSides(coordinates: Vec3): (sides: seq<seq<Vec3>>)
    ensures Shaped(sides)
  {
    seq(6, s requires 0 <= s < 6 => SideVertices(GenerateOrder[s], coordinates))
  }

  /** Six sides of six points, as `toVertexes` indexes them. */
  predicate Shaped(sides: seq<seq<Vec3>>) {
    |sides| == 6 && forall s :: 0 <= s < 6 ==> |sides[s]| == 6
  }

  /** `[...point.toArray(), ...uv]`. */
  function VertexRecord(p: Vec3, uv: Uv): seq<real> {
    [p.x, p.y, p.z, uv.u, uv.v]
  }

  /** `this.sides[side].map((point, i) => [...point.toArray(), ...uvs[side][i]])`. */
  function SideRecords(sides: seq<seq<Vec3>>, s: nat): (rs: seq<seq<real>>)
    requires Shaped(sides) && s < 6
    ensures |rs| == 6 && Uniform(rs, 5)
  {
    seq(6, i requires 0 <= i < 6 => VertexRecord(sides[s][i], FacesTexturesCoordinates(GenerateOrder[s])[i]))
  }

  /** The array literal of `toVertexes`: one record list per side. */
  function SideRecordLists(sides: seq<seq<Vec3>>): (rss: seq<seq<seq<real>>>)
    requires Shaped(sides)
    ensures |rss| == 6 && Uniform(rss, 6)
  {
    seq(6, s requires 0 <= s < 6 => SideRecords(sides, s))
  }

  /** `toVertexes()` of a cube whose `sides` are given: the six side lists, `flat(2)`. */
  function VertexesOf(sides: seq<seq<Vec3>>): seq<real>
    requires Shaped(sides)
  {
    Flatten(Flatten(SideRecordLists(sides)))
  }

  class Cube {
    var coordinates: Vec3
    var sides: seq<seq<Vec3>>

    /** `new Cube({coordinates})`: the sides are computed from the coordinates once. */
    constructor (coordinates: Vec3)
      ensures this.coordinates == coordinates
      ensures sides == GenerateSides(coordinates)
    {
      this.coordinates := coordinates;
      sides := GenerateSides(coordinates);
    }

    /** `reloadCubeState()`. */
    method ReloadCubeState()
      modifies this
      ensures coordinates == old(coordinates)
      ensures sides == GenerateSides(coordinates)
    {
      sides := GenerateSides(coordinates);
    }

    /** `toVertexes()`: reads the stored sides only, so it changes nothing and does not see
        a change of `coordinates` made after the sides were built. */
    function ToVertexes(): (r: seq<real>)
      reads this
      requires Shaped(sides)
      ensures |r| == 5 * VertexesCount
    {
      VertexesLength(sides);
      VertexesOf(sides)
    }
  }

  /** After the first `flat`, 36 records of five numbers each. */
  lemma RecordsFlattened(sides: seq<seq<Vec3>>)
    requires Shaped(sides)
    ensures var flat := Flatten(SideRecordLists(sides));
            |flat| == 36 && Uniform(flat, 5)
  {
    var records := SideRecordLists(sides);
    FlattenLength(records, 6);
    var flat := Flatten(records);
    forall n | 0 <= n < |flat|
      ensures |flat[n]| == 5
    {
      assert n == 6 * (n / 6) + n % 6;
      FlattenAt(records, 6, n / 6, n % 6);
    }
  }

  lemma VertexesLength(sides: seq<seq<Vec3>>)
    requires Shaped(sides)
    ensures |VertexesOf(sides)| == 180
  {
    RecordsFlattened(sides);
    FlattenLength(Flatten(SideRecordLists(sides)), 5);
  }

  /** Number `k` of vertex `i` of the `s`-th side sits at `30·s + 5·i + k`: the template
      point turned for that side and moved to the coordinates, then its UV. */
  lemma VertexesLayout(coordinates: Vec3, s: nat, i: nat, k: nat)
    requires s < 6 && i < 6 && k < 5
    ensures var r := VertexesOf(GenerateSides(coordinates));
            var side := GenerateOrder[s];
            30 * s + 5 * i + k < |r| &&
            r[30 * s + 5 * i + k]
              == VertexRecord(Plus(CubeFaceRotation(side, Vertexes[i]), coordinates), FacesTexturesCoordinates(side)[i])[k]
  {
    var sides := GenerateSides(coordinates);
    var records := SideRecordLists(sides);
    FlattenAt(records, 6, s, i);
    RecordsFlattened(sides);
    FlattenAt(Flatten(records), 5, 6 * s + i, k);
    assert 5 * (6 * s + i) + k == 30 * s + 5 * i + k;
  }

  /** A corner of the cube of side 2 centred on the origin. */
  predicate UnitCorner(v: Vec3) {
    Abs(v.x) == 1.0 && Abs(v.y) == 1.0 && Abs(v.z) == 1.0
  }

  /** The outward normal of the plane a side lies on. */
  function OutwardNormal(side: Side): Vec3 {
    match side
    case Face => Vec3(0.0, 0.0, 1.0)
    case Back => Vec3(0.0, 0.0, -1.0)
    case Top => Vec3(0.0, 1.0, 0.0)
    case Bottom => Vec3(0.0, -1.0, 0.0)
    case Right => Vec3(1.0, 0.0, 0.0)
    case Left => Vec3(-1.0, 0.0, 0.0)
  }

  function Dot(a: Vec3, b: Vec3): real { a.x * b.x + a.y * b.y + a.z * b.z }

  /** Turning a corner for a side gives a corner again, since each rotation only
      permutes and negates components. */
  lemma RotationKeepsCorners(side: Side, v: Vec3)
    requires UnitCorner(v)
    ensures UnitCorner(CubeFaceRotation(side, v))
  {
  }

  /** Every point of every side is the coordinates plus a corner of the cube, and it lies
      on that side's plane: one unit from the coordinates along the side's outward normal. */
  lemma SidesLieOnTheirPlanes(coordinates: Vec3, s: nat, i: nat)
    requires s < 6 && i < 6
    ensures var side := GenerateOrder[s];
            var offset := CubeFaceRotation(side, Vertexes[i]);
            GenerateSides(coordinates)[s][i] == Plus(offset, coordinates) &&
            UnitCorner(offset) && Dot(offset, OutwardNormal(side)) == 1.0
  {
    RotationKeepsCorners(GenerateOrder[s], Vertexes[i]);
  }

  /** The six sides lie on six different planes. */
  lemma NormalsDistinct(s: nat, t: nat)
    requires s < 6 && t < 6 && s != t
    ensures OutwardNormal(GenerateOrder[s]) != OutwardNormal(GenerateOrder[t])
  {
  }

  /** The atlas cell (column of four, row of three) a side's texture comes from. */
  function AtlasCell(side: Side): (nat, nat) {
    match side
    case Face => (1, 1)
    case Bottom => (1, 2)
    case Right => (2, 1)
    case Left => (0, 1)
    case Top => (1, 0)
    case Back => (3, 1)
  }

  /** Every UV lies in `[0, 1]`, inside the side's own 1/4 × 1/3 atlas cell. */
  lemma UvsInsideCell(side: Side, i: nat)
    requires i < 6
    ensures var uv := FacesTexturesCoordinates(side)[i];
            var (col, row) := AtlasCell(side);
            0.0 <= uv.u <= 1.0 && 0.0 <= uv.v <= 1.0 &&
            col as real / 4.0 <= uv.u <= (col + 1) as real / 4.0 &&
            row as real / 3.0 <= uv.v <= (row + 1) as real / 3.0
  {
  }

  /** Different sides use different atlas cells. */
  lemma AtlasCellsDistinct(s: nat, t: nat)
    requires s < 6 && t < 6 && s != t
    ensures AtlasCell(GenerateOrder[s]) != AtlasCell(GenerateOrder[t])
  {
  }

  /** The two triangles of each side share an edge: vertex 3 repeats vertex 2 and vertex 5
      repeats vertex 0, in the positions and in the UVs alike. */
  lemma TrianglesShareEdge(coordinates: Vec3, s: nat)
    requires s < 6
    ensures var side := GenerateSides(coordinates)[s];
            side[3] == side[2] && side[5] == side[0]
    ensures var uvs := FacesTexturesCoordinates(GenerateOrder[s]);
            uvs[3] == uvs[2] && uvs[5] == uvs[0]
  {
  }

  /** The sides are computed once: after construction, moving the cube by assigning its
      coordinates leaves `toVertexes` where it was until `reloadCubeState` runs. */
  method StaleUntilReloaded(at: Vec3, to: Vec3)
  {
    var cube := new Cube(at);
    var before := cube.ToVertexes();
    cube.coordinates := to;
    assert cube.ToVertexes() == before == VertexesOf(GenerateSides(at));
    cube.ReloadCubeState();
    assert cube.ToVertexes() == VertexesOf(GenerateSides(to));
  }
}
