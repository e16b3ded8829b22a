/** The engine's `Chunk` (src/app/core/engine/class/Chunk.ts): a 16 × 1 × 16 grid of
    cubes two units apart, filled by nested loops, and `getChunkVertexes`, which lists
    the cubes of the grid. */
module EngineChunk {
  import opened Vectors
  import opened Sequences
  import opened EngineCube

  /** `Chunk.MaxSize`. */
  const SizeX: nat := 16
  const SizeY: nat := 1
  const SizeZ: nat := 16

  /** Where the cube of slot `(x, y, z)` is placed: `(2x, 2y, 2z) + pos`. */
  function CubeCoordinates(pos: Vec3, x: nat, y: nat, z: nat): Vec3 {
    Vec3(2.0 * x as real + pos.x, 2.0 * y as real + pos.y, 2.0 * z as real + pos.z)
  }

  /** Slot `(x, y, z)` holds a cube placed for that slot, with its sides built. */
  predicate CubeAt(c: Cube?, pos: Vec3, x: nat, y: nat, z: nat)
    reads c
  {
    c != null && c.coordinates == CubeCoordinates(pos, x, y, z) && c.sides == GenerateSides(c.coordinates)
  }

  /** The grid has the full 16 × 1 × 16 shape. */
  predicate FullShape(grid: seq<seq<seq<Cube?>>>) {
    |grid| == SizeX &&
    forall x :: 0 <= x < SizeX ==> |grid[x]| == SizeY && forall y :: 0 <= y < SizeY ==> |grid[x][y]| == SizeZ
  }

  /** `flat(2)` followed by `filter(c => c !== null)`. */
  function NonNull(s: seq<Cube?>): (r: seq<Cube>)
    ensures |r| <= |s|
  {
    if s == [] then [] else (if s[0] != null then [s[0]] else []) + NonNull(s[1..])
  }

  /** With no empty slot the filter keeps everything, in order. */
  lemma {:induction false} NonNullOfFull(s: seq<Cube?>)
    requires forall i :: 0 <= i < |s| ==> s[i] != null
    ensures |NonNull(s)| == |s| && forall i :: 0 <= i < |s| ==> NonNull(s)[i] == s[i]
  {
    if s != [] {
      NonNullOfFull(s[1..]);
    }
  }

  /** The filter drops exactly the empty slots: what it keeps is what the slots hold. */
  lemma {:induction false} NonNullMembers(s: seq<Cube?>, c: Cube)
    ensures c in NonNull(s) <==> c in s
  {
    if s != [] {
      NonNullMembers(s[1..], c);
      assert s == [s[0]] + s[1..];
    }
  }

  class Chunk {
    var size: Vec3
    var pos: Vec3
    var rotations: Vec3
    var chunk: seq<seq<seq<Cube?>>>

    /** `new Chunk(position)`: `position` is handed to `generateChunk`, which never reads
        it; the cubes are placed around `pos`, which stays at the origin. */
    constructor (position: Vec3)
      ensures pos == Vec3(0.0, 0.0, 0.0) && size == Vec3(100.0, 100.0, 100.0)
      ensures FullShape(chunk)
      ensures forall x, y, z :: 0 <= x < SizeX && 0 <= y < SizeY && 0 <= z < SizeZ ==>
                CubeAt(chunk[x][y][z], pos, x, y, z) && fresh(chunk[x][y][z])
    {
      size := Vec3(100.0, 100.0, 100.0);
      pos := Vec3(0.0, 0.0, 0.0);
      rotations := Vec3(0.0, 0.0, 0.0);
      chunk := [];
      new;
      GenerateChunk(position);
    }

    /** `generateChunk(position)`: row `x` of the grid, then its `y` lists, then the cubes
        along `z`, each placed at `new Vector3(x, y, z).multiply((2, 2, 2)).add(pos)`. */
    method GenerateChunk(position: Vec3)
      modifies this
      ensures pos == old(pos) && size == old(size) && rotations == old(rotations)
      ensures FullShape(chunk)
      ensures forall x, y, z :: 0 <= x < SizeX && 0 <= y < SizeY && 0 <= z < SizeZ ==>
                CubeAt(chunk[x][y][z], pos, x, y, z) && fresh(chunk[x][y][z])
    {
      chunk := [];
      var x := 0;
      while x < SizeX
        invariant 0 <= x <= SizeX && |chunk| == x
        invariant pos == old(pos) && size == old(size) && rotations == old(rotations)
        invariant forall i :: 0 <= i < x ==> |chunk[i]| == SizeY && forall j :: 0 <= j < SizeY ==> |chunk[i][j]| == SizeZ
        invariant forall i, j, k :: 0 <= i < x && 0 <= j < SizeY && 0 <= k < SizeZ ==>
                    CubeAt(chunk[i][j][k], pos, i, j, k) && fresh(chunk[i][j][k])
      {
        var column: seq<seq<Cube?>> := [];
        var y := 0;
        while y < SizeY
          invariant 0 <= y <= SizeY && |column| == y
          invariant forall j :: 0 <= j < y ==> |column[j]| == SizeZ
          invariant forall j, k :: 0 <= j < y && 0 <= k < SizeZ ==> CubeAt(column[j][k], pos, x, j, k) && fresh(column[j][k])
          invariant |chunk| == x && pos == old(pos) && size == old(size) && rotations == old(rotations)
          invariant forall i :: 0 <= i < x ==> |chunk[i]| == SizeY && forall j :: 0 <= j < SizeY ==> |chunk[i][j]| == SizeZ
          invariant forall i, j, k :: 0 <= i < x && 0 <= j < SizeY && 0 <= k < SizeZ ==>
                      CubeAt(chunk[i][j][k], pos, i, j, k) && fresh(chunk[i][j][k])
        {
          var row: seq<Cube?> := [];
          var z := 0;
          while z < SizeZ
            invariant 0 <= z <= SizeZ && |row| == z
            invariant forall k :: 0 <= k < z ==> CubeAt(row[k], pos, x, y, k) && fresh(row[k])
            invariant |chunk| == x && pos == old(pos) && size == old(size) && rotations == old(rotations)
            invariant forall i :: 0 <= i < x ==> |chunk[i]| == SizeY && forall j :: 0 <= j < SizeY ==> |chunk[i][j]| == SizeZ
            invariant forall i, j, k :: 0 <= i < x && 0 <= j < SizeY && 0 <= k < SizeZ ==>
                        CubeAt(chunk[i][j][k], pos, i, j, k) && fresh(chunk[i][j][k])
          {
            var cube := new Cube(Plus(Times(Vec3(x as real, y as real, z as real), Vec3(2.0, 2.0, 2.0)), pos));
            row := row + [cube];
            z := z + 1;
          }
          column := column + [row];
          y := y + 1;
        }
        chunk := chunk + [column];
        x := x + 1;
      }
    }

    /** `getChunkVertexes()`: the cubes of the grid, `x` outermost and `z` innermost,
        empty slots skipped; nothing is changed. */
    function GetChunkVertexes(): seq<Cube>
      reads this
    {
      NonNull(Flatten(Flatten(chunk)))
    }
  }

  /** A generated chunk lists all 256 cubes, the one of slot `(x, 0, z)` at `16·x + z`. */
  lemma GeneratedChunkVertexes(c: Chunk, x: nat, z: nat)
    requires FullShape(c.chunk)
    requires forall x, y, z :: 0 <= x < SizeX && 0 <= y < SizeY && 0 <= z < SizeZ ==> c.chunk[x][y][z] != null
    requires x < SizeX && z < SizeZ
    ensures |c.GetChunkVertexes()| == SizeX * SizeY * SizeZ
    ensures c.GetChunkVertexes()[16 * x + z] == c.chunk[x][0][z]
  {
    var grid := c.chunk;
    var rows := Flatten(grid);
    FlattenLength(grid, SizeY);
    forall n | 0 <= n < |rows|
      ensures |rows[n]| == SizeZ && forall k :: 0 <= k < SizeZ ==> rows[n][k] == grid[n][0][k]
    {
      FlattenAt(grid, SizeY, n, 0);
    }
    var slots := Flatten(rows);
    FlattenLength(rows, SizeZ);
    forall n | 0 <= n < |slots|
      ensures slots[n] != null
    {
      assert n == 16 * (n / 16) + n % 16;
      FlattenAt(rows, SizeZ, n / 16, n % 16);
    }
    NonNullOfFull(slots);
    FlattenAt(rows, SizeZ, x, z);
  }

  /** Reading the list back: every listed cube sits where its slot says. */
  method ListedCubesArePlaced(position: Vec3)
  {
    var c := new Chunk(position);
    GeneratedChunkVertexes(c, 3, 5);
    var cubes := c.GetChunkVertexes();
    assert cubes[16 * 3 + 5].coordinates == Vec3(6.0, 0.0, 10.0);
  }
}
