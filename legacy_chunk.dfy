/** The older scene's `Chunk` (src/app/core/class/Chunk.ts). Its grid is built with
    `Array(16).fill(Array(1).fill(Array(16)))`, and `fill` stores the SAME array in every
    slot: all sixteen `x` entries hold one `y` array, whose single entry is one `z` array.
    The grid therefore has 16 cells, not 256, and `generateChunk` overwrites them sixteen
    times. `getChunkVertexes` still lists 256 correct cubes, because it moves the cell's
    cube to each slot's place just before reading its vertexes. The arrays are modelled
    as Dafny arrays so that the sharing is visible. */
module LegacyChunk {
  import opened Vectors
  import opened Sequences
  import opened LegacyCube

  /** `Chunk.MaxSize`. */
  const SizeX: nat := 16
  const SizeY: nat := 1
  const SizeZ: nat := 16

  /** A cube as `generateChunk` creates it: at the origin, unturned, of the chunk's size,
      with its sides built. */
  predicate Placed(c: Cube?, size: real)
    reads c
  {
    c != null && c.coordinates == Vec3(0.0, 0.0, 0.0) && c.angle == Vec3(0.0, 0.0, 0.0) &&
    c.size == size && c.distance == 1.0 && c.sides == GenerateSides(c.coordinates)
  }

  /** No cube object sits in two cells. */
  predicate DistinctCubes(row: array<Cube?>)
    reads row
  {
    forall i, j :: 0 <= i < row.Length && 0 <= j < row.Length && i != j && row[i] != null ==> row[i] != row[j]
  }

  /** Where `getChunkVertexes` puts the cube of slot `(x, y, z)`:
      `new Vector3(x - 8, y - 1/2, z - 8).multiply((2, 2, 2))`. */
  function CellCoordinates(x: nat, y: nat, z: nat): Vec3 {
    Times(Vec3(x as real - SizeX as real / 2.0, y as real - SizeY as real / 2.0, z as real - SizeZ as real / 2.0),
          Vec3(2.0, 2.0, 2.0))
  }

  /** The lists the slots `(0..15, 0, z)` contribute: one per `x` when cell `z` holds a cube. */
  function RowListing(filled: seq<bool>, z: nat): (rs: seq<seq<real>>)
    requires z < |filled|
    ensures |rs| == if filled[z] then SizeX else 0
  {
    if filled[z] then seq(SizeX, x requires 0 <= x < SizeX => CubeVertexes(CellCoordinates(x, 0, z))) else []
  }

  /** What `getChunkVertexes` returns for cells `0..n-1` along `z`, `z` outermost. */
  function Listing(filled: seq<bool>, n: nat): seq<seq<real>>
    requires n <= |filled|
  {
    Flatten(seq(n, z requires 0 <= z < n => RowListing(filled, z)))
  }

  /** Which cells hold a cube. */
  function Filled(row: seq<Cube?>): (f: seq<bool>)
    ensures |f| == |row| && forall z :: 0 <= z < |row| ==> (f[z] <==> row[z] != null)
  {
    seq(|row|, z requires 0 <= z < |row| => row[z] != null)
  }

  lemma ListingStep(filled: seq<bool>, n: nat)
    requires n < |filled|
    ensures Listing(filled, n + 1) == Listing(filled, n) + RowListing(filled, n)
  {
    var f := z requires 0 <= z < n + 1 => RowListing(filled, z);
    assert seq(n + 1, f) == seq(n, f) + [f(n)];
    FlattenAppend(seq(n, f), [f(n)]);
    assert Flatten([f(n)]) == f(n) + Flatten([]);
    assert seq(n, f) == seq(n, z requires 0 <= z < n => RowListing(filled, z));
  }

  class Chunk {
    var size: Vec3
    var pos: Vec3
    var rotations: Vec3
    var chunk: array<array<array<Cube?>>>
    /** The one `Array(1)` every `x` entry holds. */
    ghost var column: array<array<Cube?>>
    /** The one `Array(16)` that array holds: the only cells there are. */
    ghost var row: array<Cube?>

    /** The sharing `fill` creates. */
    ghost predicate Shared()
      reads this, chunk, column
    {
      chunk.Length == SizeX && column.Length == SizeY && row.Length == SizeZ &&
      (forall x :: 0 <= x < SizeX ==> chunk[x] == column) && column[0] == row
    }

    /** `new Chunk(position)`: `position` is handed to `generateChunk`, which never reads it.
        Every slot `(x, 0, z)` ends up holding the cube of cell `z`, for every `x`. */
    constructor (position: Vec3)
      ensures size == Vec3(100.0, 100.0, 100.0) && pos == Vec3(0.0, 200.0, -600.0)
      ensures rotations == Vec3(0.0, 0.0, 0.0)
      ensures Shared() && fresh(chunk) && fresh(column) && fresh(row)
      ensures forall x, x', z :: 0 <= x < SizeX && 0 <= x' < SizeX && 0 <= z < SizeZ ==>
                chunk[x][0][z] == chunk[x'][0][z]
      ensures forall z :: 0 <= z < SizeZ ==> Placed(row[z], size.x) && fresh(row[z])
      ensures DistinctCubes(row)
    {
      size := Vec3(100.0, 100.0, 100.0);
      pos := Vec3(0.0, 200.0, -600.0);
      rotations := Vec3(0.0, 0.0, 0.0);
      var zs := new Cube?[SizeZ](_ => null);
      var ys := new array<Cube?>[SizeY](_ => zs);
      chunk := new array<array<Cube?>>[SizeX](_ => ys);
      column := ys;
      row := zs;
      new;
      GenerateChunk(position);
    }

    /** `generateChunk(position)`: a new cube at the origin for every slot. Because the
        slots share cells, each cell is written sixteen times and keeps the cube from
        `x = 15`; the grid itself is not reassigned. */
    method GenerateChunk(position: Vec3)
      requires Shared()
      modifies row
      ensures Shared()
      ensures forall z :: 0 <= z < SizeZ ==> Placed(row[z], size.x) && fresh(row[z])
      ensures DistinctCubes(row)
    {
      var x := 0;
      while x < SizeX
        invariant 0 <= x <= SizeX && Shared()
        invariant forall k :: 0 <= k < SizeZ && 0 < x ==> Placed(row[k], size.x) && fresh(row[k])
        invariant 0 < x ==> DistinctCubes(row)
      {
        var y := 0;
        while y < SizeY
          invariant 0 <= y <= SizeY && Shared()
          invariant forall k :: 0 <= k < SizeZ && (0 < x || 0 < y) ==> Placed(row[k], size.x) && fresh(row[k])
          invariant 0 < x || 0 < y ==> DistinctCubes(row)
        {
          var z := 0;
          while z < SizeZ
            invariant 0 <= z <= SizeZ && Shared() && y == 0
            invariant forall k :: 0 <= k < SizeZ && (k < z || 0 < x) ==> Placed(row[k], size.x) && fresh(row[k])
            invariant forall i, j :: 0 <= i < SizeZ && 0 <= j < SizeZ && i != j && (i < z || 0 < x) && (j < z || 0 < x)
                        ==> row[i] != row[j]
          {
            var cube := new Cube(Vec3(0.0, 0.0, 0.0), size.x, Vec3(0.0, 0.0, 0.0), 1.0);
            chunk[x][y][z] := cube;
            z := z + 1;
          }
          y := y + 1;
        }
        x := x + 1;
      }
    }

    /** `getChunkVertexes()`: `z` outermost, then `y`, then `x`; for every slot whose cell
        holds a cube, the cube is resized to a third of the chunk size, moved to the slot's
        place and its vertexes are listed. The list is what sixteen distinct cubes per row
        would give; afterwards every cube is left at the `x = 15` slot of its cell. */
    method GetChunkVertexes() returns (vertexes: seq<seq<real>>)
      requires Shared() && DistinctCubes(row)
      modifies row[..]
      ensures Shared() && vertexes == Listing(Filled(row[..]), SizeZ)
      ensures forall z :: 0 <= z < SizeZ && row[z] != null ==>
                row[z].coordinates == CellCoordinates(SizeX - 1, 0, z) && row[z].size == size.x / 3.0
    {
      vertexes := [];
      ghost var filled := Filled(row[..]);
      var z := 0;
      while z < SizeZ
        invariant 0 <= z <= SizeZ && Shared() && DistinctCubes(row) && filled == Filled(row[..])
        invariant vertexes == Listing(filled, z)
        invariant forall k :: 0 <= k < z && row[k] != null ==>
                    row[k].coordinates == CellCoordinates(SizeX - 1, 0, k) && row[k].size == size.x / 3.0
      {
        ListingStep(filled, z);
        var listed := ListCell(z);
        vertexes := vertexes + listed;
        z := z + 1;
      }
    }

    /** The body of the `z` loop of `getChunkVertexes`: the slots `(0..15, 0, z)`, which
        all hold the cube of cell `z`. */
    method ListCell(z: nat) returns (listed: seq<seq<real>>)
      requires Shared() && z < SizeZ
      modifies row[z]
      ensures listed == RowListing(Filled(row[..]), z)
      ensures row[z] != null ==> row[z].coordinates == CellCoordinates(SizeX - 1, 0, z) && row[z].size == size.x / 3.0
    {
      listed := [];
      var y := 0;
      while y < SizeY
        invariant 0 <= y <= SizeY && Shared()
        invariant listed == if 0 < y then RowListing(Filled(row[..]), z) else []
        invariant 0 < y && row[z] != null ==>
                    row[z].coordinates == CellCoordinates(SizeX - 1, 0, z) && row[z].size == size.x / 3.0
      {
        listed := ListSlots(z);
        y := y + 1;
      }
    }

    /** The `x` loop of `getChunkVertexes` at `y = 0`. */
    method ListSlots(z: nat) returns (listed: seq<seq<real>>)
      requires Shared() && z < SizeZ
      modifies row[z]
      ensures listed == RowListing(Filled(row[..]), z)
      ensures row[z] != null ==> row[z].coordinates == CellCoordinates(SizeX - 1, 0, z) && row[z].size == size.x / 3.0
    {
      listed := [];
      var x := 0;
      while x < SizeX
        invariant 0 <= x <= SizeX && Shared()
        invariant listed == if row[z] != null then seq(x, i requires 0 <= i < x => CubeVertexes(CellCoordinates(i, 0, z))) else []
        invariant 0 < x && row[z] != null ==>
                    row[z].coordinates == CellCoordinates(x - 1, 0, z) && row[z].size == size.x / 3.0
      {
        if chunk[x][0][z] != null {
          var v := PlaceCube(x, 0, z);
          assert seq(x + 1, i requires 0 <= i < x + 1 => CubeVertexes(CellCoordinates(i, 0, z)))
              == seq(x, i requires 0 <= i < x => CubeVertexes(CellCoordinates(i, 0, z))) + [v];
          listed := listed + [v];
        }
        x := x + 1;
      }
    }

    /** One slot of `getChunkVertexes`: the cube in cell `(x, y, z)` is resized to a third
        of the chunk size, moved to the slot's place, and its vertexes are read. */
    method PlaceCube(x: nat, y: nat, z: nat) returns (v: seq<real>)
      requires Shared() && x < SizeX && y < SizeY && z < SizeZ && chunk[x][y][z] != null
      modifies row[z]
      ensures v == CubeVertexes(CellCoordinates(x, y, z))
      ensures row[z].coordinates == CellCoordinates(x, y, z) && row[z].size == size.x / 3.0
    {
      var cube := chunk[x][y][z];
      cube.size := size.x / 3.0;
      cube.coordinates := CellCoordinates(x, y, z);
      v := cube.ToVertexes();
    }
  }

  /** With every cell holding a cube, the listing has 256 entries and entry `16·z + x` is
      the cube drawn at slot `(x, 0, z)`. */
  lemma FullListing(filled: seq<bool>, x: nat, z: nat)
    requires |filled| == SizeZ && forall k :: 0 <= k < SizeZ ==> filled[k]
    requires x < SizeX && z < SizeZ
    ensures |Listing(filled, SizeZ)| == SizeX * SizeY * SizeZ
    ensures Listing(filled, SizeZ)[16 * z + x] == CubeVertexes(CellCoordinates(x, 0, z))
  {
    var rows := seq(SizeZ, k requires 0 <= k < SizeZ => RowListing(filled, k));
    assert Uniform(rows, SizeX);
    FlattenLength(rows, SizeX);
    FlattenAt(rows, SizeX, z, x);
  }

  /** Different slots are drawn at different places, so the 256 lists are pairwise
      different even though only sixteen cubes exist. */
  lemma SlotsDrawnApart(x1: nat, z1: nat, x2: nat, z2: nat)
    requires (x1, z1) != (x2, z2)
    ensures CubeVertexes(CellCoordinates(x1, 0, z1)) != CubeVertexes(CellCoordinates(x2, 0, z2))
  {
    if CubeVertexes(CellCoordinates(x1, 0, z1)) == CubeVertexes(CellCoordinates(x2, 0, z2)) {
      CubeVertexesInjective(CellCoordinates(x1, 0, z1), CellCoordinates(x2, 0, z2));
    }
  }

  /** A new chunk's grid has sixteen cubes behind its 256 slots, and listing it draws all
      256 slots, each at its own place. */
  method SharedCellsScenario(position: Vec3)
  {
    var c := new Chunk(position);
    assert c.chunk[0][0][7] == c.chunk[15][0][7];
    ghost var filled := Filled(c.row[..]);
    assert forall k :: 0 <= k < SizeZ ==> filled[k];
    var listing := c.GetChunkVertexes();
    assert listing == Listing(filled, SizeZ);
    FullListing(filled, 5, 3);
    assert |listing| == 256;
    assert listing[16 * 3 + 5] == CubeVertexes(CellCoordinates(5, 0, 3));
    assert c.chunk[5][0] == c.row;
    assert c.chunk[5][0][3].coordinates == CellCoordinates(15, 0, 3);
  }
}
