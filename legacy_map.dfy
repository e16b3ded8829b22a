/** The block map of the older scene (class `Chunk` in src/app/core/class/Map.ts): a
    16 × 4 × 16 block of cubes, 50 units apart around a position, kept in an object
    keyed by each cube's position text (`Vector3.toString()`). A JavaScript object
    enumerates keys that are not array indices in insertion order; the keys here
    contain commas, so `order` is that enumeration order. */
module LegacyMap {
  import opened Vectors
  import opened Sequences
  import opened LegacyCube

  /** `Chunk.MaxSize`. */
  const SizeX: nat := 16
  const SizeY: nat := 4
  const SizeZ: nat := 16

  /** `Chunk.size`: the spacing of the blocks and the size of every cube. */
  const BlockSize: real := 50.0

  /** The number of slots, and so of cubes. */
  const SlotCount: nat := SizeX * SizeY * SizeZ

  /** One coordinate of `blockPos`: slot `k` of an axis of `n` slots, around `p`. */
  function Along(p: real, k: nat, n: nat): real {
    p + (k as real - n as real / 2.0) * BlockSize
  }

  /** `blockPos` of slot `(x, y, z)`: `position + (slot - MaxSize / 2) · size`. */
  function BlockPos(position: Vec3, x: nat, y: nat, z: nat): Vec3 {
    Vec3(Along(position.x, x, SizeX), Along(position.y, y, SizeY), Along(position.z, z, SizeZ))
  }

  /** The coordinates of the `n` slots of one axis around `p`. */
  ghost function AxisCoordinates(p: real, n: nat): set<real> {
    set k: nat | k < n :: Along(p, k, n)
  }

  lemma AlongOnAxis(p: real, k: nat, n: nat)
    requires k < n
    ensures Along(p, k, n) in AxisCoordinates(p, n)
  {
  }

  /** Every number that appears in a key: the coordinates of the slots on each axis. */
  ghost function BlockCoordinates(position: Vec3): set<real> {
    AxisCoordinates(position.x, SizeX) + AxisCoordinates(position.y, SizeY) + AxisCoordinates(position.z, SizeZ)
  }

  /** The coordinates of a slot inside the block are among `BlockCoordinates`. */
  lemma BlockPosCoordinates(position: Vec3, x: nat, y: nat, z: nat)
    requires x < SizeX && y < SizeY && z < SizeZ
    ensures var b := BlockPos(position, x, y, z);
            b.x in BlockCoordinates(position) && b.y in BlockCoordinates(position) && b.z in BlockCoordinates(position)
  {
    AlongOnAxis(position.x, x, SizeX);
    AlongOnAxis(position.y, y, SizeY);
    AlongOnAxis(position.z, z, SizeZ);
  }

  /** The key of slot `(x, y, z)`: `blockPos.toString()`. */
  function BlockKey(position: Vec3, fmt: NumberFormat, x: nat, y: nat, z: nat): string {
    Format(BlockPos(position, x, y, z), fmt)
  }

  /** Slot `n` of the loop order, `x` outermost and `z` innermost. */
  function SlotOf(n: nat): (nat, nat, nat) {
    (n / 64, (n % 64) / 16, n % 16)
  }

  lemma SlotOfIndex(x: nat, y: nat, z: nat)
    requires y < SizeY && z < SizeZ
    ensures SlotOf(64 * x + 16 * y + z) == (x, y, z)
  {
    var n := 64 * x + 16 * y + z;
    DivMod(n, 64, x, 16 * y + z);
    DivMod(16 * y + z, 16, y, z);
    DivMod(n, 16, 4 * x + y, z);
  }

  /** Euclidean division by a positive constant, given the quotient and remainder. */
  lemma DivMod(n: nat, d: nat, q: nat, r: nat)
    requires 0 < d && r < d && n == d * q + r
    ensures n / d == q && n % d == r
  {
    var q', r' := n / d, n % d;
    assert d * q + r == d * q' + r';
    if q' < q {
      assert d * q >= d * (q' + 1) by { MultiplyMonotone(d, q' + 1, q); }
    } else if q < q' {
      assert d * q' >= d * (q + 1) by { MultiplyMonotone(d, q + 1, q'); }
    }
  }

  lemma MultiplyMonotone(d: nat, a: nat, b: nat)
    requires a <= b
    ensures d * a <= d * b
  {
  }

  lemma SlotOfInjective(n: nat, m: nat)
    requires SlotOf(n) == SlotOf(m)
    ensures n == m
  {
    SlotOfRecombines(n);
    SlotOfRecombines(m);
  }

  lemma SlotOfRecombines(n: nat)
    ensures n == 64 * SlotOf(n).0 + 16 * SlotOf(n).1 + SlotOf(n).2
  {
    var a, b, r := n / 64, (n % 64) / 16, (n % 64) % 16;
    assert n == 64 * a + n % 64;
    assert n % 64 == 16 * b + r;
    DivMod(n, 16, 4 * a + b, r);
  }

  /** The key of the `n`-th block created. */
  function KeyAt(position: Vec3, fmt: NumberFormat, n: nat): string {
    var (x, y, z) := SlotOf(n);
    BlockKey(position, fmt, x, y, z)
  }

  /** Different slots get different keys when numbers format without commas and tell
      the block's coordinates apart. */
  lemma KeysDistinct(position: Vec3, fmt: NumberFormat, n: nat, m: nat)
    requires CommaFree(fmt) && InjectiveOn(fmt, BlockCoordinates(position))
    requires n < SlotCount && m < SlotCount && n != m
    ensures KeyAt(position, fmt, n) != KeyAt(position, fmt, m)
  {
    var (x1, y1, z1) := SlotOf(n);
    var (x2, y2, z2) := SlotOf(m);
    if KeyAt(position, fmt, n) == KeyAt(position, fmt, m) {
      var b1, b2 := BlockPos(position, x1, y1, z1), BlockPos(position, x2, y2, z2);
      BlockPosCoordinates(position, x1, y1, z1);
      BlockPosCoordinates(position, x2, y2, z2);
      InjectiveOnSubset(fmt, {b1.x, b1.y, b1.z, b2.x, b2.y, b2.z}, BlockCoordinates(position));
      FormatInjective(b1, b2, fmt);
      assert (x1, y1, z1) == (x2, y2, z2);
      SlotOfInjective(n, m);
    }
  }

  /** The next slot's key is not among the keys of the slots before it. */
  lemma NewKeyIsNew(position: Vec3, fmt: NumberFormat, order: seq<string>)
    requires CommaFree(fmt) && InjectiveOn(fmt, BlockCoordinates(position))
    requires |order| < SlotCount
    requires forall m :: 0 <= m < |order| ==> order[m] == KeyAt(position, fmt, m)
    ensures KeyAt(position, fmt, |order|) !in order
  {
    forall m | 0 <= m < |order|
      ensures order[m] != KeyAt(position, fmt, |order|)
    {
      KeysDistinct(position, fmt, m, |order|);
    }
  }

  /** `order` lists the keys of `chunk`, each once. */
  predicate KeyedBy(order: seq<string>, chunk: map<string, Cube>) {
    (forall k :: k in chunk ==> k in order) && (forall k :: k in order ==> k in chunk) && Distinct(order)
  }

  /** The object's key order after `object[key] = value`: a new key goes last, an existing
      key keeps its place. */
  function KeysAfterSet(order: seq<string>, key: string): seq<string> {
    if key in order then order else order + [key]
  }

  /** Setting a new key appends it, and the order still lists the keys once each. */
  lemma KeyedExtends(order: seq<string>, chunk: map<string, Cube>, key: string, cube: Cube)
    requires KeyedBy(order, chunk) && key !in order
    ensures KeysAfterSet(order, key) == order + [key]
    ensures KeyedBy(order + [key], chunk[key := cube])
  {
  }

  /** Every key in `order` is its slot's key and holds its slot's cube. */
  ghost predicate FilledWith(order: seq<string>, chunk: map<string, Cube>, position: Vec3, fmt: NumberFormat)
    reads chunk.Values
  {
    forall n :: 0 <= n < |order| ==>
      order[n] == KeyAt(position, fmt, n) && order[n] in chunk && BlockAt(chunk[order[n]], position, n)
  }

  /** Storing the next slot's cube under its new key keeps every earlier slot's entry. */
  lemma FilledExtends(order: seq<string>, chunk: map<string, Cube>, position: Vec3, fmt: NumberFormat,
                      key: string, cube: Cube)
    requires FilledWith(order, chunk, position, fmt)
    requires key == KeyAt(position, fmt, |order|) && key !in order && BlockAt(cube, position, |order|)
    ensures FilledWith(order + [key], chunk[key := cube], position, fmt)
  {
    var order', chunk' := order + [key], chunk[key := cube];
    forall m | 0 <= m < |order'|
      ensures order'[m] == KeyAt(position, fmt, m) && order'[m] in chunk' && BlockAt(chunk'[order'[m]], position, m)
    {
      if m < |order| {
        assert order'[m] == order[m] && order[m] != key;
      }
    }
  }

  /** The cube created for the `n`-th slot: at its block position, of the block size,
      unturned, with its sides built. */
  predicate BlockAt(c: Cube, position: Vec3, n: nat)
    reads c
  {
    var (x, y, z) := SlotOf(n);
    c.coordinates == BlockPos(position, x, y, z) && c.size == BlockSize &&
    c.angle == Vec3(0.0, 0.0, 0.0) && c.distance == 1.0 && c.sides == GenerateSides(c.coordinates)
  }

  class Chunk {
    var pos: Vec3
    var size: real
    var rotations: Vec3
    var chunk: map<string, Cube>
    /** The keys of `chunk` in the order `for…in` visits them. */
    var order: seq<string>

    /** The keys and the order describe the same set, each key once. */
    predicate Valid()
      reads this
    {
      KeyedBy(order, chunk)
    }

    /** `new Chunk(position)`: an empty object, then `generateChunk(position)`. */
    constructor (position: Vec3, fmt: NumberFormat)
      requires CommaFree(fmt) && InjectiveOn(fmt, BlockCoordinates(position))
      ensures pos == Vec3(0.0, 0.0, 1.0) && size == BlockSize && rotations == Vec3(0.0, 0.0, 0.0)
      ensures Valid() && |order| == SizeX * SizeY * SizeZ
      ensures forall n :: 0 <= n < |order| ==>
                order[n] == KeyAt(position, fmt, n) && order[n] in chunk && BlockAt(chunk[order[n]], position, n) && fresh(chunk[order[n]])
    {
      pos := Vec3(0.0, 0.0, 1.0);
      size := BlockSize;
      rotations := Vec3(0.0, 0.0, 0.0);
      chunk := map[];
      order := [];
      new;
      GenerateChunk(position, fmt);
    }

    /** `generateChunk(position)`: one cube per slot, `x` outermost and `z` innermost,
        stored under its position text. A key already present would be overwritten in
        place; with distinct keys every slot adds a new entry at the end of the order. */
    method GenerateChunk(position: Vec3, fmt: NumberFormat)
      requires CommaFree(fmt) && InjectiveOn(fmt, BlockCoordinates(position))
      requires chunk == map[] && order == [] && size == BlockSize
      modifies this
      ensures pos == old(pos) && size == old(size) && rotations == old(rotations)
      ensures Valid() && |order| == SizeX * SizeY * SizeZ
      ensures forall n :: 0 <= n < |order| ==>
                order[n] == KeyAt(position, fmt, n) && order[n] in chunk && BlockAt(chunk[order[n]], position, n) && fresh(chunk[order[n]])
    {
      var x := 0;
      while x < SizeX
        invariant 0 <= x <= SizeX && |order| == 64 * x
        invariant pos == old(pos) && size == old(size) && rotations == old(rotations)
        invariant Valid() && Filled(position, fmt)
        invariant forall k :: k in chunk ==> fresh(chunk[k])
      {
        var y := 0;
        while y < SizeY
          invariant 0 <= y <= SizeY && |order| == 64 * x + 16 * y
          invariant pos == old(pos) && size == old(size) && rotations == old(rotations)
          invariant Valid() && Filled(position, fmt)
          invariant forall k :: k in chunk ==> fresh(chunk[k])
        {
          AddRow(position, fmt, x, y);
          y := y + 1;
        }
        x := x + 1;
      }
    }

    /** The innermost loop of `generateChunk`: the sixteen slots `(x, y, 0..15)`. */
    method AddRow(position: Vec3, fmt: NumberFormat, x: nat, y: nat)
      requires CommaFree(fmt) && InjectiveOn(fmt, BlockCoordinates(position))
      requires x < SizeX && y < SizeY && |order| == 64 * x + 16 * y && size == BlockSize
      requires Valid() && Filled(position, fmt)
      modifies this
      ensures pos == old(pos) && size == old(size) && rotations == old(rotations)
      ensures |order| == 64 * x + 16 * y + SizeZ && Valid() && Filled(position, fmt)
      ensures forall k :: k in chunk ==> (k in old(chunk) && chunk[k] == old(chunk)[k]) || fresh(chunk[k])
    {
      var z := 0;
      while z < SizeZ
        invariant 0 <= z <= SizeZ && |order| == 64 * x + 16 * y + z
        invariant pos == old(pos) && size == old(size) && rotations == old(rotations)
        invariant Valid() && Filled(position, fmt)
        invariant forall k :: k in chunk ==> (k in old(chunk) && chunk[k] == old(chunk)[k]) || fresh(chunk[k])
      {
        var cube := AddBlock(position, fmt, x, y, z);
        z := z + 1;
      }
    }

    /** Every block created so far sits under its slot's key. */
    ghost predicate Filled(position: Vec3, fmt: NumberFormat)
      reads this, chunk.Values
    {
      FilledWith(order, chunk, position, fmt)
    }

    /** The body of the innermost loop of `generateChunk`. */
    method AddBlock(position: Vec3, fmt: NumberFormat, x: nat, y: nat, z: nat) returns (cube: Cube)
      requires CommaFree(fmt) && InjectiveOn(fmt, BlockCoordinates(position))
      requires x < SizeX && y < SizeY && z < SizeZ && |order| == 64 * x + 16 * y + z && size == BlockSize
      requires Valid() && Filled(position, fmt)
      modifies this
      ensures pos == old(pos) && size == old(size) && rotations == old(rotations)
      ensures order == old(order) + [BlockKey(position, fmt, x, y, z)]
      ensures chunk == old(chunk)[BlockKey(position, fmt, x, y, z) := cube] && fresh(cube)
      ensures Valid() && Filled(position, fmt)
    {
      var key;
      key, cube := NewBlock(position, fmt, x, y, z);
      NewKeyIsNew(position, fmt, order);
      FilledExtends(order, chunk, position, fmt, key, cube);
      Store(position, fmt, key, cube);
    }

    /** `this.chunk[key] = cube` for a key not yet in the object. */
    method Store(ghost position: Vec3, ghost fmt: NumberFormat, key: string, cube: Cube)
      requires Valid() && key !in order
      requires FilledWith(order + [key], chunk[key := cube], position, fmt)
      modifies this
      ensures pos == old(pos) && size == old(size) && rotations == old(rotations)
      ensures order == old(order) + [key] && chunk == old(chunk)[key := cube]
      ensures Valid() && Filled(position, fmt)
    {
      KeyedExtends(order, chunk, key, cube);
      order := KeysAfterSet(order, key);
      chunk := chunk[key := cube];
    }

    /** The cube and key of one slot: `blockPos` from the position and `this.size`, then
        `new Cube({coordinates: blockPos, size, angle: 0, distance: 1})`. */
    method NewBlock(position: Vec3, fmt: NumberFormat, x: nat, y: nat, z: nat) returns (key: string, cube: Cube)
      requires y < SizeY && z < SizeZ && size == BlockSize
      ensures key == BlockKey(position, fmt, x, y, z) && key == KeyAt(position, fmt, 64 * x + 16 * y + z)
      ensures fresh(cube) && BlockAt(cube, position, 64 * x + 16 * y + z)
    {
      var blockPos := Vec3(position.x + (x as real - SizeX as real / 2.0) * size,
                           position.y + (y as real - SizeY as real / 2.0) * size,
                           position.z + (z as real - SizeZ as real / 2.0) * size);
      key := Format(blockPos, fmt);
      cube := new Cube(blockPos, size, Vec3(0.0, 0.0, 0.0), 1.0);
      SlotOfIndex(x, y, z);
    }

    /** `draw()`: `toVertexes()` of every block, in key order. Each call rebuilds that
        cube's sides and moves nothing. */
    method Draw() returns (blockVertexes: seq<seq<real>>)
      requires forall i :: 0 <= i < |order| ==> order[i] in chunk
      modifies chunk.Values
      ensures |blockVertexes| == |order|
      ensures forall i :: 0 <= i < |order| ==> blockVertexes[i] == CubeVertexes(chunk[order[i]].coordinates)
      ensures forall i :: 0 <= i < |order| ==> chunk[order[i]].coordinates == old(chunk[order[i]].coordinates)
    {
      ghost var keys, blocks := order, chunk;
      ghost var places := seq(|keys|, j requires 0 <= j < |keys| && keys[j] in blocks reads blocks.Values => blocks[keys[j]].coordinates);
      blockVertexes := [];
      var i := 0;
      while i < |order|
        invariant 0 <= i <= |order| && blockVertexes == Drawn(places[..i])
        invariant forall j :: 0 <= j < |order| ==> chunk[order[j]].coordinates == places[j]
      {
        var v := DrawBlock(order[i]);
        assert places[..i + 1][..i] == places[..i];
        blockVertexes := blockVertexes + [v];
        i := i + 1;
      }
      assert places[..i] == places;
      forall j | 0 <= j < |order|
        ensures blockVertexes[j] == CubeVertexes(chunk[order[j]].coordinates)
      {
        DrawnAt(places, j);
      }
    }

    /** `this.chunk[block].toVertexes()`. */
    method DrawBlock(block: string) returns (v: seq<real>)
      requires block in chunk
      modifies chunk[block]
      ensures v == CubeVertexes(chunk[block].coordinates)
      ensures chunk[block].coordinates == old(chunk[block].coordinates)
    {
      v := chunk[block].ToVertexes();
    }
  }

  /** The vertex lists of cubes at `places`, in order. */
  function Drawn(places: seq<Vec3>): (r: seq<seq<real>>)
    ensures |r| == |places|
  {
    if places == [] then []
    else Drawn(places[..|places| - 1]) + [CubeVertexes(places[|places| - 1])]
  }

  lemma {:induction false} DrawnAt(places: seq<Vec3>, j: nat)
    requires j < |places|
    ensures Drawn(places)[j] == CubeVertexes(places[j])
  {
    if j < |places| - 1 {
      DrawnAt(places[..|places| - 1], j);
    }
  }

  /** Different slots are drawn at different places: the 1024 lists are pairwise different. */
  lemma BlocksDrawnApart(position: Vec3, n: nat, m: nat)
    requires n != m
    ensures var (x1, y1, z1) := SlotOf(n);
            var (x2, y2, z2) := SlotOf(m);
            CubeVertexes(BlockPos(position, x1, y1, z1)) != CubeVertexes(BlockPos(position, x2, y2, z2))
  {
    var (x1, y1, z1) := SlotOf(n);
    var (x2, y2, z2) := SlotOf(m);
    if CubeVertexes(BlockPos(position, x1, y1, z1)) == CubeVertexes(BlockPos(position, x2, y2, z2)) {
      CubeVertexesInjective(BlockPos(position, x1, y1, z1), BlockPos(position, x2, y2, z2));
      SlotOfInjective(n, m);
    }
  }

  /** A new map draws 1024 blocks, slot `(x, y, z)` at `64·x + 16·y + z`, each at its
      block position. */
  method DrawScenario(position: Vec3, fmt: NumberFormat)
    requires CommaFree(fmt) && InjectiveOn(fmt, BlockCoordinates(position))
  {
    var c := new Chunk(position, fmt);
    var blocks := c.Draw();
    SlotOfIndex(3, 2, 5);
    assert |blocks| == 1024;
    assert blocks[64 * 3 + 16 * 2 + 5] == CubeVertexes(BlockPos(position, 3, 2, 5));
  }
}
