/** The GameWorld iteration: a dictionary from column location to
    ChunkColumn, each column a stack of `height` chunks over two byte
    arrays; block and light reads that fall back to a default and are
    redirected to the neighbouring column; a single-cell block write; the
    dirty flags that make chunks rebuild their meshes; the terrain layering
    of a new column; and Block.Render, which reads the world back through a
    chunk to build that chunk's mesh. */
module GameWorld {
  import opened CSharp
  import opened WorldConstants
  import opened FaceGeometry
  import opened CellOrder
  import opened RenderingTextureLayout
  import opened Rendering
  import opened Blocks

  /** Unity's Vector2 and Vector3 as this iteration uses them: holding
      whole numbers only. A column location keeps its z in `y`. */
  datatype Vector2 = Vector2(x: int, y: int)
  datatype Vector3 = Vector3(x: int, y: int, z: int)

  /** What the loaded columns store, keyed by world position. */
  datatype Contents = Contents(blocks: imap<Vector3, Byte>, lights: imap<Vector3, Byte>)

  ghost function BlockAt(v: Contents, pos: Vector3, def: Byte): Byte
  {
    if pos in v.blocks then v.blocks[pos] else def
  }

  ghost function LightAt(v: Contents, pos: Vector3, def: Byte): Byte
  {
    if pos in v.lights then v.lights[pos] else def
  }

  /** The role a byte array plays in the world: the block ids or the light
      levels of the column at `at`. Giving every array one role keeps the
      arrays of distinct columns, and the two arrays of one column, apart. */
  datatype Role = BlockArray(at: Vector2) | LightArray(at: Vector2)

  /** The two noise samples GenerateTerrain builds a cell's heights from,
      taken at world (x, z): `PerlinNoise(x, 0, z, 25, 7, 1.5f)` and
      `PerlinNoise(x, 0, z, 25, 2, 1.0f)`. Only their integer results are
      modelled. */
  datatype Perlin = Perlin(ground: (int, int) -> int, topsoil: (int, int) -> int)

  /** The highest stone cell of world column (x, z). */
  function StoneTop(n: Perlin, x: int, z: int): int
  {
    40 + n.ground(x, z)
  }

  /** The height of the grass cell of world column (x, z); dirt lies between. */
  function DirtTop(n: Perlin, x: int, z: int): int
  {
    StoneTop(n, x, z) + n.topsoil(x, z) + 1
  }

  /** What GenerateTerrain leaves in the cell at world (x, y, z) that held
      `prev`: stone up to the stone height, dirt below the dirt height,
      grass at it, and the cell untouched above it. */
  function Layered(n: Perlin, x: int, y: int, z: int, prev: Byte): Byte
  {
    if y <= StoneTop(n, x, z) then STONE
    else if y < DirtTop(n, x, z) then DIRT
    else if y == DirtTop(n, x, z) then GRASS
    else prev
  }

  /** Along a vertical line the layers come bottom up as stone, dirt,
      grass and untouched cells: a stone cell has only stone below it, a
      cell below a written one is written, and only the cell at the dirt
      height is grass. */
  lemma LayeredInOrder(n: Perlin, x: int, z: int, y: int, y': int, prev: Byte, prev': Byte)
    requires y < y'
    ensures Layered(n, x, y', z, prev') == STONE && prev' != STONE ==> Layered(n, x, y, z, prev) == STONE
    ensures y' <= DirtTop(n, x, z) ==> y < DirtTop(n, x, z) && Layered(n, x, y, z, prev) in {STONE, DIRT}
    ensures Layered(n, x, y, z, prev) == GRASS && prev != GRASS ==> y == DirtTop(n, x, z) && Layered(n, x, y', z, prev') == prev'
  {
  }

  /** The C# facts behind `mod` and the location corrections, for a
      positive divisor: a negative remainder is one divisor short of the
      floor remainder, and the quotient is one above the floor exactly
      when the dividend is negative and not a multiple. */
  lemma FloorFacts(k: int, n: int)
    requires n > 0
    ensures Rem(k, n) < 0 ==> Rem(k, n) + n == k % n
    ensures Rem(k, n) >= 0 ==> Rem(k, n) == k % n
    ensures (k < 0 && Rem(k, n) != 0) ==> Div(k, n) - 1 == k / n
    ensures !(k < 0 && Rem(k, n) != 0) ==> Div(k, n) == k / n
  {
    DivVersusFloor(k, n);
    DivRem(k, n);
  }

  /** `0 <= y < h * n` bounds the floor quotient of y to `[0, h)`. */
  lemma QuotientBelow(y: int, n: int, h: int)
    requires n > 0 && 0 <= y < h * n
    ensures 0 <= y / n < h
  {
    var q := y / n;
    if q >= h {
      assert n * q >= n * h by { MulMonotone(n, h, q); }
    }
  }

  lemma MulMonotone(n: int, a: int, b: int)
    requires n > 0 && a <= b
    ensures n * a <= n * b
  {
    assert n * b - n * a == n * (b - a);
  }

  /** The colour Block.Render's Cube calls leave out of their arguments. */
  const DefaultTint: Tint := Tint(0)

  /** The world position of the cell `c` of a chunk whose cell (0, 0, 0)
      is at `o`. */
  function Offset(o: Vector3, c: Cell): Vector3
  {
    Vector3(o.x + c.x, o.y + c.y, o.z + c.z)
  }

  /** Block id `id` names an opaque block of the table. */
  predicate Opaque(table: seq<Block?>, id: int)
  {
    0 <= id < |table| && table[id] != null && table[id].isOpaque
  }

  /** Face `f` of the cell `c` is drawn when the block across it, read as
      AIR where nothing is stored, is not opaque. */
  ghost predicate Visible(v: Contents, table: seq<Block?>, o: Vector3, f: Face, c: Cell)
  {
    !Opaque(table, BlockAt(v, Offset(o, Neighbour(f, c)), AIR))
  }

  /** The light Block.Render samples at the chunk cell `s`: 0 where nothing is stored. */
  ghost function Sample(v: Contents, o: Vector3, s: Cell): Byte
  {
    LightAt(v, Offset(o, s), 0)
  }

  /** The nine samples of face `f`: slot k holds the cell at outer offset
      `k / 3 - 1` and inner offset `k % 3 - 1`. */
  ghost function LightSamples(v: Contents, o: Vector3, f: Face, c: Cell): (l: seq<Byte>)
    ensures |l| == 9
  {
    seq(9, k => Sample(v, o, SampleCell(f, c, Outer(k), Inner(k))))
  }

  /** Every stored light level is at most MAX_LIGHT. */
  ghost predicate LightsBounded(v: Contents)
  {
    forall pos :: pos in v.lights ==> v.lights[pos] <= MAX_LIGHT
  }

  /** With bounded stored light, every sample is a valid index of the light table. */
  lemma LightSamplesBounded(v: Contents, o: Vector3, f: Face, c: Cell)
    requires LightsBounded(v)
    ensures forall k :: 0 <= k < 9 ==> LightSamples(v, o, f, c)[k] <= MAX_LIGHT
  {
    forall k | 0 <= k < 9
      ensures LightSamples(v, o, f, c)[k] <= MAX_LIGHT
    {
      var pos := Offset(o, SampleCell(f, c, Outer(k), Inner(k)));
      assert LightSamples(v, o, f, c)[k] == LightAt(v, pos, 0);
    }
  }

  /** The face the Cube method for `f` adds for the cell `c` of block `b`. */
  ghost function FaceQuad(v: Contents, b: Block, o: Vector3, f: Face, c: Cell): Quad
  {
    CubeQuad(f, c.x, c.y, c.z, b.textures, b.GetBounds(), LightSamples(v, o, f, c), Smooth, DefaultTint)
  }

  /** What one face block of Block.Render adds: the face when it is visible. */
  ghost function Emit(v: Contents, table: seq<Block?>, b: Block, o: Vector3, f: Face, c: Cell): seq<Quad>
  {
    if Visible(v, table, o, f, c) then [FaceQuad(v, b, o, f, c)] else []
  }

  /** What Render adds for block `b` at the cell `c`: nothing for air
      (BlockAir overrides Render with an empty body), otherwise the six
      face blocks in the order Block.Render tests them. */
  ghost function BlockQuads(v: Contents, table: seq<Block?>, b: Block, o: Vector3, c: Cell): seq<Quad>
  {
    if b.kind == AirBlock then []
    else Emit(v, table, b, o, Top, c) + Emit(v, table, b, o, Bottom, c) +
         Emit(v, table, b, o, East, c) + Emit(v, table, b, o, West, c) +
         Emit(v, table, b, o, North, c) + Emit(v, table, b, o, South, c)
  }

  /** Visible as a test on faces, and FaceQuad as a function of the face. */
  ghost function VisibleAt(v: Contents, table: seq<Block?>, o: Vector3, c: Cell): Face -> bool
  {
    f => Visible(v, table, o, f, c)
  }

  ghost function QuadOf(v: Contents, b: Block, o: Vector3, c: Cell): Face -> Quad
  {
    f => FaceQuad(v, b, o, f, c)
  }

  /** One face block adds the face under the visibility test of the cell. */
  lemma EmitIsSel(v: Contents, table: seq<Block?>, b: Block, o: Vector3, f: Face, c: Cell)
    ensures Emit(v, table, b, o, f, c) == Sel(VisibleAt(v, table, o, c), QuadOf(v, b, o, c), f)
  {
  }

  /** Face culling: a non-air block adds, in render order, one face for
      each face whose neighbour is not opaque, and no face twice; so a face
      is drawn if and only if its neighbour is not opaque, and the number of
      faces is the number of such neighbours. Air adds nothing. */
  lemma FaceCulling(v: Contents, table: seq<Block?>, b: Block, o: Vector3, c: Cell)
    ensures b.kind == AirBlock ==> BlockQuads(v, table, b, o, c) == []
    ensures b.kind != AirBlock ==>
      BlockQuads(v, table, b, o, c) == MapFaces(QuadOf(v, b, o, c), Keep(VisibleAt(v, table, o, c), RenderOrder))
    ensures forall f: Face :: f in Keep(VisibleAt(v, table, o, c), RenderOrder) <==> Visible(v, table, o, f, c)
    ensures var vis := Keep(VisibleAt(v, table, o, c), RenderOrder);
      forall i, j :: 0 <= i < j < |vis| ==> vis[i] != vis[j]
  {
    var p, g := VisibleAt(v, table, o, c), QuadOf(v, b, o, c);
    KeepRenderOrder(p);
    assert forall f: Face :: p(f) == Visible(v, table, o, f, c);
    if b.kind != AirBlock {
      KeepMapInRenderOrder(p, g);
      EmitIsSel(v, table, b, o, Top, c);
      EmitIsSel(v, table, b, o, Bottom, c);
      EmitIsSel(v, table, b, o, East, c);
      EmitIsSel(v, table, b, o, West, c);
      EmitIsSel(v, table, b, o, North, c);
      EmitIsSel(v, table, b, o, South, c);
    }
  }

  /** Two opaque cubes side by side, east and west, with nothing opaque
      around them, add ten faces and not twelve: each hides one face of
      the other. */
  lemma TwoCubesTenFaces(v: Contents, table: seq<Block?>, o: Vector3, c: Cell, s: int)
    requires 0 <= s < |table| && table[s] != null && table[s].isOpaque && table[s].kind != AirBlock
    requires BlockAt(v, Offset(o, c), AIR) == s && BlockAt(v, Offset(o, Neighbour(East, c)), AIR) == s
    requires forall e: Cell {:trigger Offset(o, e)} :: e != c && e != Neighbour(East, c) ==>
      !Opaque(table, BlockAt(v, Offset(o, e), AIR))
    ensures |BlockQuads(v, table, table[s], o, c)| + |BlockQuads(v, table, table[s], o, Neighbour(East, c))| == 10
  {
    var d := Neighbour(East, c);
    assert Neighbour(West, d) == c;
    assert !Visible(v, table, o, East, c) && !Visible(v, table, o, West, d);
    assert Visible(v, table, o, Top, c) && Visible(v, table, o, Bottom, c) && Visible(v, table, o, West, c);
    assert Visible(v, table, o, North, c) && Visible(v, table, o, South, c);
    assert Visible(v, table, o, Top, d) && Visible(v, table, o, Bottom, d) && Visible(v, table, o, East, d);
    assert Visible(v, table, o, North, d) && Visible(v, table, o, South, d);
  }

  /** What Chunk.GenerateMesh adds for the chunk cell `c`: the quads of the
      block stored there (AIR where nothing is stored). */
  ghost function CellQuads(v: Contents, table: seq<Block?>, o: Vector3, c: Cell): seq<Quad>
  {
    var id := BlockAt(v, Offset(o, c), AIR);
    if id < |table| && table[id] != null then BlockQuads(v, table, table[id], o, c) else []
  }

  /** CellQuads as a function of the cell. */
  ghost function CellQuadsAt(v: Contents, table: seq<Block?>, o: Vector3): Cell -> seq<Quad>
  {
    c => CellQuads(v, table, o, c)
  }

  /** What GenerateMesh adds for a chunk of side `n`: the cells' quads in
      the order of its loop nest (x outermost, then y, then z). */
  ghost function ChunkQuads(v: Contents, table: seq<Block?>, o: Vector3, n: nat): seq<Quad>
  {
    FlatPlanes(CellQuadsAt(v, table, o), n, n)
  }

  /** GenerateMesh visits every cell of the chunk once, in the order of its loop nest. */
  lemma ChunkQuadsFollowOrder(v: Contents, table: seq<Block?>, o: Vector3, n: nat)
    ensures |Order(n)| == n * n * n
    ensures forall c :: c in Order(n) <==> InCube(c, n)
    ensures forall i, j :: 0 <= i < j < |Order(n)| ==> Order(n)[i] != Order(n)[j]
    ensures ChunkQuads(v, table, o, n) == FlatMap(CellQuadsAt(v, table, o), Order(n))
  {
    OrderVisitsEachCellOnce(n);
    FlatPlanesFollowOrder(CellQuadsAt(v, table, o), n);
  }

  /** Mapping a function whose every quad is well-shaped gives well-shaped quads. */
  lemma {:induction false} MapFacesShaped(g: Face -> Quad, fs: seq<Face>)
    requires forall f :: |g(f).vertices| == 4 && |g(f).light| == 4
    ensures QuadsShaped(MapFaces(g, fs))
  {
    if fs != [] {
      MapFacesShaped(g, fs[..|fs| - 1]);
      QuadsShapedAppend(MapFaces(g, fs[..|fs| - 1]), [g(fs[|fs| - 1])]);
    }
  }

  /** Every quad a block adds has four vertices and four light levels. */
  lemma BlockQuadsShaped(v: Contents, table: seq<Block?>, b: Block, o: Vector3, c: Cell)
    ensures QuadsShaped(BlockQuads(v, table, b, o, c))
  {
    FaceCulling(v, table, b, o, c);
    var g := QuadOf(v, b, o, c);
    forall f: Face
      ensures |g(f).vertices| == 4 && |g(f).light| == 4
    {
      CubeQuadShaped(f, c.x, c.y, c.z, b.textures, b.GetBounds(), LightSamples(v, o, f, c), Smooth, DefaultTint);
    }
    MapFacesShaped(g, Keep(VisibleAt(v, table, o, c), RenderOrder));
  }

  // ------------------------------------------------------------------

  class GameWorld {
    /** Cells along a chunk's side and chunks per column. */
    const chunkSize: int
    const height: int
    /** The block table, `ListBlocks.instance`. */
    const registry: ListBlocks
    var loadedWorld: map<Vector2, ChunkColumn>

    /** The role of each column array. */
    ghost var owner: map<array3<Byte>, Role>

    /** The loaded columns' contents, as a value. */
    ghost var contents: Contents

    /** A local cell of a column. */
    predicate InColumn(x: int, y: int, z: int)
    {
      0 <= x < chunkSize && 0 <= y < height * chunkSize && 0 <= z < chunkSize
    }

    /** The world position of the local cell (x, y, z) of the column at `p`. */
    function At(p: Vector2, x: int, y: int, z: int): Vector3
    {
      Vector3(p.x * chunkSize + x, y, p.y * chunkSize + z)
    }

    /** The column a world position lies in: floor division of x and z. */
    function ColumnOf(pos: Vector3): Vector2
      requires chunkSize > 0
    {
      Vector2(pos.x / chunkSize, pos.z / chunkSize)
    }

    /** The column at `p` belongs to this world and has its shape, its
        arrays in their roles, and its `height` chunks at their locations. */
    ghost predicate Placed(p: Vector2, col: ChunkColumn)
      reads this`owner, col
    {
      col.world == this && col.location == p && col.chunkSize == chunkSize && col.height == height &&
      col.Shaped() &&
      col.data in owner && owner[col.data] == BlockArray(p) &&
      col.lightData in owner && owner[col.lightData] == LightArray(p) &&
      |col.chunks| == height &&
      forall i :: 0 <= i < height ==>
        col.chunks[i].column == col && col.chunks[i].location == Vector3(p.x, i, p.y) && col.chunks[i].chunkSize == chunkSize
    }

    /** Every loaded column is placed, and `contents` holds exactly the cells
        of the loaded columns, each with its block id and its light level,
        which is at most MAX_LIGHT. */
    ghost predicate Valid()
      reads this, loadedWorld.Values, owner.Keys
    {
      0 < chunkSize && 0 <= height &&
      (forall p :: p in loadedWorld ==> Placed(p, loadedWorld[p])) &&
      (forall p, x, y, z {:trigger loadedWorld[p].data[x, y, z]} :: p in loadedWorld && InColumn(x, y, z) ==>
        At(p, x, y, z) in contents.blocks && contents.blocks[At(p, x, y, z)] == loadedWorld[p].data[x, y, z]) &&
      (forall p, x, y, z {:trigger loadedWorld[p].lightData[x, y, z]} :: p in loadedWorld && InColumn(x, y, z) ==>
        At(p, x, y, z) in contents.lights && contents.lights[At(p, x, y, z)] == loadedWorld[p].lightData[x, y, z]) &&
      (forall pos {:trigger ColumnOf(pos)} :: pos in contents.blocks || pos in contents.lights ==>
        ColumnOf(pos) in loadedWorld && 0 <= pos.y < height * chunkSize) &&
      LightsBounded(contents)
    }

    /** Every stored block id names a block of the table, so Render never
        reads a null slot. */
    ghost predicate Registered()
      reads this, registry, registry.blocks
    {
      registry.blocks != null && registry.blocks.Length == SLOTS && registry.blocks[AIR] != null &&
      forall pos :: pos in contents.blocks ==> registry.blocks[contents.blocks[pos]] != null
    }

    /** The table's slots, as a value. */
    ghost function Table(): seq<Block?>
      reads registry, registry.blocks
    {
      if registry.blocks == null then [] else registry.blocks[..]
    }

    /** `Start`: no column is loaded. The load loop it starts is not part of this model. */
    constructor (chunkSize: int, height: int, registry: ListBlocks)
      requires 0 < chunkSize && 0 <= height
      ensures Valid() && loadedWorld == map[] && contents == Contents(imap[], imap[])
      ensures this.chunkSize == chunkSize && this.height == height && this.registry == registry
    {
      this.chunkSize := chunkSize;
      this.height := height;
      this.registry := registry;
      loadedWorld := map[];
      owner := map[];
      contents := Contents(imap[], imap[]);
    }

    // ----------------------------------------------------------------
    // Coordinates

    /** `mod(k, n)`: C#'s `k % n`, moved up by n when negative; for a
        positive n it is the floor remainder. */
    function Mod(k: int, n: int): (r: int)
      requires n != 0
      ensures n > 0 ==> 0 <= r < n && r == k % n
    {
      var k' := Rem(k, n);
      if n > 0 then FloorFacts(k, n); (if k' < 0 then k' + n else k')
      else if k' < 0 then k' + n else k'
    }

    /** `GetColumnLocation(x, z)`: C#'s quotients by chunkSize, one lower for
        a negative coordinate that is not a multiple; for a positive
        chunkSize the floor of x / chunkSize and of z / chunkSize. */
    function GetColumnLocation(x: int, z: int): (loc: Vector2)
      requires chunkSize != 0
      ensures chunkSize > 0 ==> loc == Vector2(x / chunkSize, z / chunkSize)
    {
      var loc := Vector2(Div(x, chunkSize), Div(z, chunkSize));
      var loc := if x < 0 && Rem(x, chunkSize) != 0 then loc.(x := loc.x - 1) else loc;
      var loc := if z < 0 && Rem(z, chunkSize) != 0 then loc.(y := loc.y - 1) else loc;
      if chunkSize > 0 then FloorFacts(x, chunkSize); FloorFacts(z, chunkSize); loc else loc
    }

    /** `GetChunkLocation(x, y, z)`: the same correction on all three axes. */
    function GetChunkLocation(x: int, y: int, z: int): (loc: Vector3)
      requires chunkSize != 0
      ensures chunkSize > 0 ==> loc == Vector3(x / chunkSize, y / chunkSize, z / chunkSize)
    {
      var loc := Vector3(Div(x, chunkSize), Div(y, chunkSize), Div(z, chunkSize));
      var loc := if x < 0 && Rem(x, chunkSize) != 0 then loc.(x := loc.x - 1) else loc;
      var loc := if y < 0 && Rem(y, chunkSize) != 0 then loc.(y := loc.y - 1) else loc;
      var loc := if z < 0 && Rem(z, chunkSize) != 0 then loc.(z := loc.z - 1) else loc;
      if chunkSize > 0 then FloorFacts(x, chunkSize); FloorFacts(y, chunkSize); FloorFacts(z, chunkSize); loc else loc
    }

    /** A column location brackets its coordinates: its first cell is at or
        before them and the next column's after; location and `mod` put a
        coordinate back together; and the cell just west of the origin is
        in column -1. */
    lemma LocationBrackets(x: int, z: int)
      requires chunkSize > 0
      ensures var loc := GetColumnLocation(x, z);
        loc.x * chunkSize <= x < loc.x * chunkSize + chunkSize &&
        loc.y * chunkSize <= z < loc.y * chunkSize + chunkSize &&
        x == loc.x * chunkSize + Mod(x, chunkSize) && z == loc.y * chunkSize + Mod(z, chunkSize)
      ensures GetColumnLocation(-1, 0).x == -1 && Mod(-1, chunkSize) == chunkSize - 1
    {
      var loc := GetColumnLocation(x, z);
      assert x == chunkSize * (x / chunkSize) + x % chunkSize;
      assert z == chunkSize * (z / chunkSize) + z % chunkSize;
      var m := GetColumnLocation(-1, 0);
      DivModUnique(-1, chunkSize, -1, chunkSize - 1);
    }

    /** `mod` differs from k by a multiple of n and leaves an in-range k alone. */
    lemma ModCongruent(k: int, n: int)
      requires n > 0
      ensures (k - Mod(k, n)) % n == 0
      ensures 0 <= k < n ==> Mod(k, n) == k
    {
      DivModUnique(k - Mod(k, n), n, k / n, 0);
      if 0 <= k < n {
        DivModUnique(k, n, 0, k);
      }
    }

    /** A local cell with in-range x and z lies in its own column, with
        those local coordinates. */
    lemma AtColumn(p: Vector2, x: int, y: int, z: int)
      requires chunkSize > 0 && 0 <= x < chunkSize && 0 <= z < chunkSize
      ensures ColumnOf(At(p, x, y, z)) == p
      ensures Mod(p.x * chunkSize + x, chunkSize) == x && Mod(p.y * chunkSize + z, chunkSize) == z
    {
      DivModUnique(p.x * chunkSize + x, chunkSize, p.x, x);
      DivModUnique(p.y * chunkSize + z, chunkSize, p.y, z);
    }

    /** Every world position is its column's local cell at `mod`. */
    lemma AtParts(x: int, y: int, z: int)
      requires chunkSize > 0
      ensures At(GetColumnLocation(x, z), Mod(x, chunkSize), y, Mod(z, chunkSize)) == Vector3(x, y, z)
      ensures ColumnOf(Vector3(x, y, z)) == GetColumnLocation(x, z)
    {
      assert x == chunkSize * (x / chunkSize) + x % chunkSize;
      assert z == chunkSize * (z / chunkSize) + z % chunkSize;
    }

    /** The store holds a position exactly when its y is in range and its
        column is loaded. */
    lemma StoredIff(x: int, y: int, z: int)
      requires Valid()
      ensures (Vector3(x, y, z) in contents.blocks) <==>
        (0 <= y < height * chunkSize && GetColumnLocation(x, z) in loadedWorld)
      ensures (Vector3(x, y, z) in contents.blocks) <==> (Vector3(x, y, z) in contents.lights)
    {
      var pos := Vector3(x, y, z);
      AtParts(x, y, z);
      var loc := GetColumnLocation(x, z);
      if 0 <= y < height * chunkSize && loc in loadedWorld {
        var mx, mz := Mod(x, chunkSize), Mod(z, chunkSize);
        var b, l := loadedWorld[loc].data[mx, y, mz], loadedWorld[loc].lightData[mx, y, mz];
      }
    }

    /** A loaded column is placed. */
    lemma WorldPlaced(p: Vector2)
      requires Valid() && p in loadedWorld
      ensures Placed(p, loadedWorld[p])
    {
    }

    /** The cell (x, y, z) of the column at `p` is stored, block and light. */
    lemma StoredAt(p: Vector2, x: int, y: int, z: int)
      requires Valid() && p in loadedWorld && InColumn(x, y, z)
      ensures At(p, x, y, z) in contents.blocks && contents.blocks[At(p, x, y, z)] == loadedWorld[p].data[x, y, z]
      ensures At(p, x, y, z) in contents.lights && contents.lights[At(p, x, y, z)] == loadedWorld[p].lightData[x, y, z]
    {
      var b, l := loadedWorld[p].data[x, y, z], loadedWorld[p].lightData[x, y, z];
    }

    // ----------------------------------------------------------------
    // Reads

    /** `Block(x, y, z, def)`: the block id stored at world (x, y, z), or
        `def` when y is outside the world's height or the column is unloaded. */
    function Block(x: int, y: int, z: int, def: Byte): (r: Byte)
      requires Valid()
      reads this, loadedWorld.Values, owner.Keys
      ensures r == BlockAt(contents, Vector3(x, y, z), def)
    {
      var loc := GetColumnLocation(x, z);
      StoredIff(x, y, z);
      if y >= 0 && y < height * chunkSize && loc in loadedWorld then
        AtParts(x, y, z);
        StoredAt(loc, Mod(x, chunkSize), y, Mod(z, chunkSize));
        loadedWorld[loc].LocalBlockRaw(Mod(x, chunkSize), y, Mod(z, chunkSize))
      else def
    }

    /** `Light(x, y, z, def)`, with the same defaults as Block. */
    function Light(x: int, y: int, z: int, def: Byte): (r: Byte)
      requires Valid()
      reads this, loadedWorld.Values, owner.Keys
      ensures r == LightAt(contents, Vector3(x, y, z), def)
    {
      var loc := GetColumnLocation(x, z);
      StoredIff(x, y, z);
      if y >= 0 && y < height * chunkSize && loc in loadedWorld then
        AtParts(x, y, z);
        StoredAt(loc, Mod(x, chunkSize), y, Mod(z, chunkSize));
        loadedWorld[loc].LocalLightRaw(Mod(x, chunkSize), y, Mod(z, chunkSize))
      else def
    }

    /** The default of Block and Light is returned exactly when y is out of
        range or the column is not loaded. */
    lemma DefaultOutsideStore(x: int, y: int, z: int, def: Byte)
      requires Valid()
      ensures !(0 <= y < height * chunkSize && GetColumnLocation(x, z) in loadedWorld) ==>
        Block(x, y, z, def) == def && Light(x, y, z, def) == def
      ensures 0 <= y < height * chunkSize && GetColumnLocation(x, z) in loadedWorld ==>
        Block(x, y, z, def) == BlockAt(contents, Vector3(x, y, z), 0) &&
        Light(x, y, z, def) == LightAt(contents, Vector3(x, y, z), 0)
    {
      StoredIff(x, y, z);
    }

    // ----------------------------------------------------------------
    // Writes and dirty flags

    /** `SetBlockAt(x, y, z, block)`, the write and its bounds: with y in
        range and the column loaded, exactly the cell at world (x, y, z)
        takes `block`; otherwise nothing changes. Light is not touched
        here (the relighting that follows is not part of this model). */
    method SetBlockAt(x: int, y: int, z: int, block: Byte)
      requires Valid()
      modifies this`contents,
        if 0 <= y < height * chunkSize && GetColumnLocation(x, z) in loadedWorld
        then {loadedWorld[GetColumnLocation(x, z)].data} else {}
      ensures Valid() && loadedWorld == old(loadedWorld) && owner == old(owner)
      ensures contents.lights == old(contents.lights)
      ensures 0 <= y < height * chunkSize && GetColumnLocation(x, z) in loadedWorld ==>
        contents.blocks == old(contents.blocks)[Vector3(x, y, z) := block]
      ensures !(0 <= y < height * chunkSize && GetColumnLocation(x, z) in loadedWorld) ==>
        contents == old(contents)
    {
      var loc := GetColumnLocation(x, z);
      if y >= 0 && y < height * chunkSize && loc in loadedWorld {
        var cX := Mod(x, chunkSize);
        var cZ := Mod(z, chunkSize);
        AtParts(x, y, z);
        WriteCell(loc, cX, y, cZ, block);
      }
    }

    /** The write of SetBlockAt once the cell is found: the local cell
        (x, y, z) of the column at `p` takes `block`, in the array and in
        the contents alike. */
    method WriteCell(p: Vector2, x: int, y: int, z: int, block: Byte)
      requires Valid() && p in loadedWorld && InColumn(x, y, z)
      modifies this`contents, loadedWorld[p].data
      ensures Valid() && loadedWorld == old(loadedWorld) && owner == old(owner)
      ensures contents == Contents(old(contents.blocks)[At(p, x, y, z) := block], old(contents.lights))
    {
      var col := loadedWorld[p];
      ghost var pos := At(p, x, y, z);
      assert LightsBounded(contents);
      col.data[x, y, z] := block;
      contents := Contents(contents.blocks[pos := block], contents.lights);
      assert loadedWorld == old(loadedWorld) && owner == old(owner);
      assert contents.lights == old(contents.lights);
      assert LightsBounded(contents);
      assert forall q :: q in loadedWorld ==> Placed(q, loadedWorld[q]);
      forall q, x', y', z' | q in loadedWorld && InColumn(x', y', z')
        ensures At(q, x', y', z') in contents.blocks && contents.blocks[At(q, x', y', z')] == loadedWorld[q].data[x', y', z']
      {
        var ob := old(loadedWorld[q].data[x', y', z']);
        if (q, x', y', z') != (p, x, y, z) {
          AtColumn(q, x', y', z');
          AtColumn(p, x, y, z);
          if q == p { assert At(q, x', y', z') != pos; }
        }
      }
      forall q, x', y', z' | q in loadedWorld && InColumn(x', y', z')
        ensures At(q, x', y', z') in contents.lights && contents.lights[At(q, x', y', z')] == loadedWorld[q].lightData[x', y', z']
      {
        var ol := old(loadedWorld[q].lightData[x', y', z']);
      }
      forall pos' | pos' in contents.blocks || pos' in contents.lights
        ensures ColumnOf(pos') in loadedWorld && 0 <= pos'.y < height * chunkSize
      {
        if pos' == pos {
          AtColumn(p, x, y, z);
        } else {
          assert pos' in old(contents.blocks) || pos' in old(contents.lights);
        }
      }
    }

    /** `MarkColumnModified(x, z)`: every chunk of a loaded column at
        (x, z) is marked modified; nothing else changes. */
    method MarkColumnModified(x: int, z: int)
      requires Valid()
      modifies (if Vector2(x, z) in loadedWorld then set i | 0 <= i < height :: loadedWorld[Vector2(x, z)].chunks[i] else {})`modified
      ensures Vector2(x, z) in loadedWorld ==>
        forall i :: 0 <= i < height ==> loadedWorld[Vector2(x, z)].chunks[i].modified
    {
      var loc := Vector2(x, z);
      if loc in loadedWorld {
        var col := loadedWorld[loc];
        for y := 0 to height
          invariant forall i :: 0 <= i < y ==> col.chunks[i].modified
        {
          col.chunks[y].modified := true;
        }
      }
    }

    /** `UpdateChunkAt(x, y, z)`: with y in range and the column loaded,
        the chunk floor(y / chunkSize) of the column holding (x, z) is
        marked modified; nothing else changes. */
    method UpdateChunkAt(x: int, y: int, z: int)
      requires Valid()
      modifies (if 0 <= y < height * chunkSize && GetColumnLocation(x, z) in loadedWorld
        then set k | 0 <= k < |loadedWorld[GetColumnLocation(x, z)].chunks| && k == y / chunkSize ::
          loadedWorld[GetColumnLocation(x, z)].chunks[k]
        else {})`modified
      ensures 0 <= y < height * chunkSize && GetColumnLocation(x, z) in loadedWorld ==>
        0 <= y / chunkSize < height && loadedWorld[GetColumnLocation(x, z)].chunks[y / chunkSize].modified
    {
      if y >= 0 && y < height * chunkSize {
        QuotientBelow(y, chunkSize, height);
        var loc := GetChunkLocation(x, y, z);
        var key := Vector2(loc.x, loc.z);
        assert key == GetColumnLocation(x, z);
        if key in loadedWorld {
          var col := loadedWorld[key];
          col.chunks[loc.y].modified := true;
        }
      }
    }
  }

  // ------------------------------------------------------------------

  class ChunkColumn {
    const world: GameWorld
    const data: array3<Byte>
    const lightData: array3<Byte>
    var chunks: seq<Chunk>
    const height: int
    const location: Vector2
    const chunkSize: int

    /** Both arrays are chunkSize x height*chunkSize x chunkSize. */
    predicate Shaped()
    {
      data.Length0 == chunkSize && data.Length1 == height * chunkSize && data.Length2 == chunkSize &&
      lightData.Length0 == chunkSize && lightData.Length1 == height * chunkSize && lightData.Length2 == chunkSize
    }

    /** The column is the world's column at its location. */
    ghost predicate Loaded()
      reads world, world.loadedWorld.Values, world.owner.Keys
    {
      world.Valid() && location in world.loadedWorld && world.loadedWorld[location] == this
    }

    /** GameWorld.LoadColumn's set-up of the column followed by Start:
        chunkSize from the world, zeroed block and light arrays, and
        `height` chunks at (location.x, i, location.y) for i from 0 up,
        none of them modified yet. */
    constructor (world: GameWorld, location: Vector2)
      requires 0 < world.chunkSize && 0 <= world.height
      ensures this.world == world && this.location == location
      ensures chunkSize == world.chunkSize && height == world.height && Shaped()
      ensures fresh(data) && fresh(lightData) && data != lightData
      ensures forall x, y, z :: 0 <= x < chunkSize && 0 <= y < height * chunkSize && 0 <= z < chunkSize ==>
        data[x, y, z] == 0 && lightData[x, y, z] == 0
      ensures |chunks| == height
      ensures forall i :: 0 <= i < height ==>
        fresh(chunks[i]) && fresh(chunks[i].newMesh) && chunks[i].column == this &&
        chunks[i].location == Vector3(location.x, i, location.y) && chunks[i].chunkSize == chunkSize &&
        !chunks[i].modified && !chunks[i].needsUpdate
    {
      this.world := world;
      this.location := location;
      chunkSize := world.chunkSize;
      height := world.height;
      var cs, h := world.chunkSize, world.height;
      data := new Byte[cs, h * cs, cs]((x, y, z) => 0);
      lightData := new Byte[cs, h * cs, cs]((x, y, z) => 0);
      chunks := [];
      new;
      for i := 0 to height
        modifies this
        invariant |chunks| == i
        invariant forall k :: 0 <= k < i ==>
          fresh(chunks[k]) && fresh(chunks[k].newMesh) && chunks[k].column == this &&
          chunks[k].location == Vector3(location.x, k, location.y) && chunks[k].chunkSize == chunkSize &&
          !chunks[k].modified && !chunks[k].needsUpdate
      {
        var chunk := new Chunk(this, Vector3(location.x, i, location.y));
        chunks := chunks + [chunk];
      }
    }

    /** `LocalBlock(x, y, z)`: the stored id, read without checks. */
    function LocalBlockRaw(x: int, y: int, z: int): (r: Byte)
      requires 0 <= x < data.Length0 && 0 <= y < data.Length1 && 0 <= z < data.Length2
      reads data
    {
      data[x, y, z]
    }

    /** The three-argument LocalLight GameWorld.Light calls, the mirror of LocalBlockRaw. */
    function LocalLightRaw(x: int, y: int, z: int): (r: Byte)
      requires 0 <= x < lightData.Length0 && 0 <= y < lightData.Length1 && 0 <= z < lightData.Length2
      reads lightData
    {
      lightData[x, y, z]
    }

    /** `LocalBlock(x, y, z, def)`: `def` outside the column's height; a
        local x or z outside the column is redirected to the world at
        `location * chunkSize + local`; otherwise the stored id. In every
        case the result is what the world holds at that world position. */
    function LocalBlock(x: int, y: int, z: int, def: Byte): (r: Byte)
      requires Loaded()
      reads world, world.loadedWorld.Values, world.owner.Keys
      ensures r == BlockAt(world.contents, Vector3(location.x * chunkSize + x, y, location.y * chunkSize + z), def)
    {
      world.WorldPlaced(location);
      if y >= chunkSize * height || y < 0 then
        world.StoredIff(location.x * chunkSize + x, y, location.y * chunkSize + z);
        def
      else if x < 0 || y < 0 || z < 0 || x >= chunkSize || z >= chunkSize then
        world.Block(location.x * chunkSize + x, y, location.y * chunkSize + z, def)
      else
        world.StoredAt(location, x, y, z);
        data[x, y, z]
    }

    /** ChunkColumn.LocalLight, which Chunk.LocalLight calls: the mirror of LocalBlock over the light array. */
    function LocalLight(x: int, y: int, z: int, def: Byte): (r: Byte)
      requires Loaded()
      reads world, world.loadedWorld.Values, world.owner.Keys
      ensures r == LightAt(world.contents, Vector3(location.x * chunkSize + x, y, location.y * chunkSize + z), def)
    {
      world.WorldPlaced(location);
      if y >= chunkSize * height || y < 0 then
        world.StoredIff(location.x * chunkSize + x, y, location.y * chunkSize + z);
        def
      else if x < 0 || y < 0 || z < 0 || x >= chunkSize || z >= chunkSize then
        world.Light(location.x * chunkSize + x, y, location.y * chunkSize + z, def)
      else
        world.StoredAt(location, x, y, z);
        lightData[x, y, z]
    }

    /** Inside a loaded column the unchecked three-argument reads return
        what the world stores at the cell's world position, which is what
        the checked reads return there for any default. */
    lemma RawReadsAreStored(x: int, y: int, z: int, def: Byte)
      requires Loaded() && 0 <= x < chunkSize && 0 <= y < height * chunkSize && 0 <= z < chunkSize
      ensures 0 <= x < data.Length0 && 0 <= y < data.Length1 && 0 <= z < data.Length2
      ensures 0 <= x < lightData.Length0 && 0 <= y < lightData.Length1 && 0 <= z < lightData.Length2
      ensures LocalBlockRaw(x, y, z) == BlockAt(world.contents, Vector3(location.x * chunkSize + x, y, location.y * chunkSize + z), def)
      ensures LocalLightRaw(x, y, z) == LightAt(world.contents, Vector3(location.x * chunkSize + x, y, location.y * chunkSize + z), def)
      ensures LocalBlockRaw(x, y, z) == LocalBlock(x, y, z, def) && LocalLightRaw(x, y, z) == LocalLight(x, y, z, def)
    {
      world.WorldPlaced(location);
      world.StoredAt(location, x, y, z);
    }

    /** `GenerateTerrain()`: for each (x, z) of the column, the cells up to
        the stone height become stone, those below the dirt height dirt and
        the one at it grass, with the ids the table gives those names;
        cells above keep what they held. Then every chunk is marked
        modified. */
    method GenerateTerrain(n: Perlin)
      requires Shaped() && world.registry.Awakened()
      modifies data, (set i | 0 <= i < |chunks| :: chunks[i])`modified
      ensures forall x, y, z :: 0 <= x < chunkSize && 0 <= y < height * chunkSize && 0 <= z < chunkSize ==>
        data[x, y, z] == Layered(n, location.x * chunkSize + x, y, location.y * chunkSize + z, old(data[x, y, z]))
      ensures forall i :: 0 <= i < |chunks| ==> chunks[i].modified
    {
      var startX := location.x * chunkSize;
      var startZ := location.y * chunkSize;
      var blocks := world.registry;
      AwakenedLookups(blocks, "Stone");
      AwakenedLookups(blocks, "Dirt");
      AwakenedLookups(blocks, "Grass");
      var stone := blocks.FindByName("Stone");
      var dirt := blocks.FindByName("Dirt");
      var grass := blocks.FindByName("Grass");
      var stoneID := blocks.blocks[stone.index].id;
      var dirtID := blocks.blocks[dirt.index].id;
      var grassID := blocks.blocks[grass.index].id;
      FillLayers(n, startX, startZ, stoneID, dirtID, grassID);
      for i := 0 to |chunks|
        modifies (set k | 0 <= k < |chunks| :: chunks[k])`modified
        invariant forall k :: 0 <= k < i ==> chunks[k].modified
      {
        chunks[i].modified := true;
      }
    }

    /** The loops of GenerateTerrain over the world coordinates of the
        column, writing the local cell (x - startX, y, z - startZ). */
    method FillLayers(n: Perlin, startX: int, startZ: int, stoneID: Byte, dirtID: Byte, grassID: Byte)
      requires Shaped() && startX == location.x * chunkSize && startZ == location.y * chunkSize
      requires stoneID == STONE && dirtID == DIRT && grassID == GRASS
      modifies data
      ensures forall x, y, z :: 0 <= x < chunkSize && 0 <= y < height * chunkSize && 0 <= z < chunkSize ==>
        data[x, y, z] == Layered(n, startX + x, y, startZ + z, old(data[x, y, z]))
    {
      for x := startX to startX + chunkSize
        invariant forall x', y', z' :: 0 <= x' < chunkSize && 0 <= y' < height * chunkSize && 0 <= z' < chunkSize ==>
          data[x', y', z'] == if x' < x - startX then Layered(n, startX + x', y', startZ + z', old(data[x', y', z'])) else old(data[x', y', z'])
      {
        for z := startZ to startZ + chunkSize
          invariant forall x', y', z' :: 0 <= x' < chunkSize && 0 <= y' < height * chunkSize && 0 <= z' < chunkSize ==>
            data[x', y', z'] ==
              if x' < x - startX || (x' == x - startX && z' < z - startZ)
              then Layered(n, startX + x', y', startZ + z', old(data[x', y', z'])) else old(data[x', y', z'])
        {
          var stone := 40 + n.ground(x, z);
          var dirt := stone + n.topsoil(x, z) + 1;
          for y := 0 to height * chunkSize
            invariant forall x', y', z' :: 0 <= x' < chunkSize && 0 <= y' < height * chunkSize && 0 <= z' < chunkSize ==>
              data[x', y', z'] ==
                if x' < x - startX || (x' == x - startX && z' < z - startZ) || (x' == x - startX && z' == z - startZ && y' < y)
                then Layered(n, startX + x', y', startZ + z', old(data[x', y', z'])) else old(data[x', y', z'])
          {
            if y <= stone {
              data[x - startX, y, z - startZ] := stoneID;
            } else if y < dirt {
              data[x - startX, y, z - startZ] := dirtID;
            } else if y == dirt {
              data[x - startX, y, z - startZ] := grassID;
            }
          }
        }
      }
    }
  }

  // ------------------------------------------------------------------

  /** The Unity Mesh a chunk shows: the arrays UpdateMesh hands it. */
  datatype MeshData = MeshData(vertices: seq<Vertex>, uv: seq<Uv>, triangles: seq<int>, colors: seq<Colour>)

  class Chunk {
    const column: ChunkColumn
    const location: Vector3
    const chunkSize: int
    const newMesh: MeshBuildInfo
    var newVerticesArr: seq<Vertex>
    var newTrianglesArr: seq<int>
    var newUVArr: seq<Uv>
    var newColorsArr: seq<Colour>
    var mesh: MeshData
    var needsUpdate: bool
    var modified: bool

    /** The chunk's set-up: its column and location, `chunkSize` copied
        from the column (Start), an empty `newMesh`, and no flag set. The
        arrays are not built yet and read as empty. */
    constructor (column: ChunkColumn, location: Vector3)
      ensures this.column == column && this.location == location && chunkSize == column.chunkSize
      ensures fresh(newMesh) && newMesh.State() == Empty
      ensures !modified && !needsUpdate
    {
      this.column := column;
      this.location := location;
      chunkSize := column.chunkSize;
      newMesh := new MeshBuildInfo();
      newVerticesArr, newTrianglesArr, newUVArr, newColorsArr := [], [], [], [];
      mesh := MeshData([], [], [], []);
      needsUpdate := false;
      modified := false;
    }

    /** The world position of the chunk's cell (0, 0, 0). */
    function Origin(): Vector3
    {
      Vector3(column.location.x * column.chunkSize, location.y * chunkSize, column.location.y * column.chunkSize)
    }

    /** The objects Render reads: the world, its columns and their
        arrays, the table holder and the table. */
    ghost function RenderReads(): set<object>
      reads column, column.world, column.world.registry
    {
      {column, column.world} + column.world.loadedWorld.Values + column.world.owner.Keys +
      {column.world.registry} +
      (if column.world.registry.blocks == null then {} else {column.world.registry.blocks})
    }

    /** The chunk's column is loaded, its size is the column's, and the
        table holds a block for every stored id: Render can run. */
    ghost predicate Renderable()
      reads RenderReads()
    {
      column.Loaded() && chunkSize == column.chunkSize && column.world.Registered()
    }

    /** `LocalBlock(x, y, z, def)`: the column's read with y moved up by
        `location.y * chunkSize`. */
    function LocalBlock(x: int, y: int, z: int, def: Byte): (r: Byte)
      requires column.Loaded()
      reads column.world, column.world.loadedWorld.Values, column.world.owner.Keys
      ensures r == BlockAt(column.world.contents, Offset(Origin(), Cell(x, y, z)), def)
    {
      column.LocalBlock(x, location.y * chunkSize + y, z, def)
    }

    /** `LocalLight(x, y, z, def)`: the same offset over the light. */
    function LocalLight(x: int, y: int, z: int, def: Byte): (r: Byte)
      requires column.Loaded()
      reads column.world, column.world.loadedWorld.Values, column.world.owner.Keys
      ensures r == LightAt(column.world.contents, Offset(Origin(), Cell(x, y, z)), def)
    {
      column.LocalLight(x, location.y * chunkSize + y, z, def)
    }

    /** The quads GenerateMesh adds for this chunk, given the world as it is. */
    ghost function Quads(): seq<Quad>
      reads column.world, column.world.registry, column.world.registry.blocks
    {
      ChunkQuads(column.world.contents, column.world.Table(), Origin(), if chunkSize < 0 then 0 else chunkSize)
    }

    /** The body of GenerateMesh's loops: the block stored at the cell
        (x, y, z), AIR where nothing is stored, renders itself. */
    method MeshCell(x: int, y: int, z: int)
      requires Renderable()
      modifies newMesh
      ensures newMesh.State() == AddQuads(old(newMesh.State()),
        old(CellQuads(column.world.contents, column.world.Table(), Origin(), Cell(x, y, z))))
    {
      var blocks := column.world.registry.blocks;
      var id := LocalBlock(x, y, z, 0);
      assert blocks[id] == column.world.Table()[id];
      var block := blocks[id];
      RenderBlock(block, newMesh, this, x, y, z);
    }

    /** The innermost loop of GenerateMesh: the cells (x, y, 0) to (x, y, chunkSize - 1). */
    method MeshRow(x: int, y: int)
      requires Renderable()
      modifies newMesh
      ensures newMesh.State() == AddQuads(old(newMesh.State()),
        FlatCells(CellQuadsAt(column.world.contents, column.world.Table(), Origin()), x, y, chunkSize))
    {
      ghost var f := CellQuadsAt(column.world.contents, column.world.Table(), Origin());
      ghost var s0 := newMesh.State();
      for z := 0 to chunkSize
        invariant newMesh.State() == AddQuads(s0, FlatCells(f, x, y, z))
      {
        RenderableKept(this);
        MeshCell(x, y, z);
        AddQuadsAppend(s0, FlatCells(f, x, y, z), f(Cell(x, y, z)));
      }
    }

    /** The middle loop of GenerateMesh: the rows y = 0 to chunkSize - 1 of the plane at x. */
    method MeshPlane(x: int)
      requires Renderable()
      modifies newMesh
      ensures newMesh.State() == AddQuads(old(newMesh.State()),
        FlatLines(CellQuadsAt(column.world.contents, column.world.Table(), Origin()), chunkSize, x, chunkSize))
    {
      ghost var f := CellQuadsAt(column.world.contents, column.world.Table(), Origin());
      ghost var s0 := newMesh.State();
      for y := 0 to chunkSize
        invariant newMesh.State() == AddQuads(s0, FlatLines(f, chunkSize, x, y))
      {
        RenderableKept(this);
        MeshRow(x, y);
        AddQuadsAppend(s0, FlatLines(f, chunkSize, x, y), FlatCells(f, x, y, chunkSize));
      }
    }

    /** `GenerateMesh()`: the triple loop over the chunk's cells (x
        outermost, then y, then z), each block rendering itself into
        `newMesh`; then the four lists are copied to the arrays. */
    method GenerateMesh()
      requires Renderable()
      modifies this, newMesh
      ensures newMesh.State() == AddQuads(old(newMesh.State()), old(Quads()))
      ensures newVerticesArr == newMesh.vertices && newUVArr == newMesh.uv
      ensures newTrianglesArr == newMesh.triangles && newColorsArr == newMesh.colors
      ensures mesh == old(mesh) && modified == old(modified) && needsUpdate == old(needsUpdate)
    {
      MeshChunk();
      newVerticesArr := newMesh.vertices;
      newUVArr := newMesh.uv;
      newTrianglesArr := newMesh.triangles;
      newColorsArr := newMesh.colors;
    }

    /** The outer loop of GenerateMesh: the planes x = 0 to chunkSize - 1. */
    method MeshChunk()
      requires Renderable()
      modifies newMesh
      ensures newMesh.State() == AddQuads(old(newMesh.State()), old(Quads()))
    {
      ghost var f := CellQuadsAt(column.world.contents, column.world.Table(), Origin());
      ghost var s0 := newMesh.State();
      for x := 0 to chunkSize
        invariant newMesh.State() == AddQuads(s0, FlatPlanes(f, chunkSize, x))
      {
        RenderableKept(this);
        MeshPlane(x);
        AddQuadsAppend(s0, FlatPlanes(f, chunkSize, x), FlatLines(f, chunkSize, x, chunkSize));
        FlatPlanesNext(f, chunkSize, x);
      }
    }

    /** `UpdateMesh()`: the mesh takes the four arrays, and `newMesh` is
        emptied for the next GenerateMesh. */
    method UpdateMesh()
      modifies this, newMesh
      ensures mesh == MeshData(old(newVerticesArr), old(newUVArr), old(newTrianglesArr), old(newColorsArr))
      ensures newMesh.State() == Empty
      ensures newVerticesArr == old(newVerticesArr) && newUVArr == old(newUVArr)
      ensures newTrianglesArr == old(newTrianglesArr) && newColorsArr == old(newColorsArr)
      ensures modified == old(modified) && needsUpdate == old(needsUpdate)
    {
      mesh := MeshData(newVerticesArr, newUVArr, newTrianglesArr, newColorsArr);
      newMesh.Clear();
    }

    /** `LateUpdate()`: a modified chunk regenerates its mesh and applies
        it in the same call; a chunk only waiting for an update applies the
        arrays it has; afterwards neither flag is set. */
    method LateUpdate()
      requires modified ==> Renderable()
      modifies this, newMesh
      ensures !modified && !needsUpdate
      ensures old(modified) ==>
        newMesh.State() == Empty &&
        mesh == MeshData(AddQuads(old(newMesh.State()), old(Quads())).vertices,
                         AddQuads(old(newMesh.State()), old(Quads())).uv,
                         AddQuads(old(newMesh.State()), old(Quads())).triangles,
                         AddQuads(old(newMesh.State()), old(Quads())).colors)
      ensures !old(modified) && old(needsUpdate) ==>
        newMesh.State() == Empty &&
        mesh == MeshData(old(newVerticesArr), old(newUVArr), old(newTrianglesArr), old(newColorsArr))
      ensures !old(modified) && !old(needsUpdate) ==> mesh == old(mesh) && newMesh.State() == old(newMesh.State())
    {
      if modified {
        GenerateMesh();
        modified := false;
        needsUpdate := true;
      }
      if needsUpdate {
        UpdateMesh();
        needsUpdate := false;
      }
    }
  }

  // ------------------------------------------------------------------
  // Block.Render

  /** One read of the sampling loops: the chunk's light at SampleCell(f, c, i, j), 0 where nothing is stored. */
  method SampleAt(chunk: Chunk, f: Face, c: Cell, i: int, j: int) returns (light: Byte)
    requires chunk.column.Loaded()
    ensures light == Sample(chunk.column.world.contents, chunk.Origin(), SampleCell(f, c, i, j))
  {
    var s := SampleCell(f, c, i, j);
    light := chunk.LocalLight(s.x, s.y, s.z, 0);
  }

  /** The inner sampling loop for outer offset `i`: the slots
      `3 * (i + 1) + (j + 1)` receive their samples; the other slots keep
      their values. */
  method SampleRow(chunk: Chunk, f: Face, c: Cell, l: array<Byte>, i: int)
    requires chunk.column.Loaded() && l.Length == 9 && -1 <= i <= 1
    modifies l
    ensures forall k :: 0 <= k < 9 ==>
      l[k] == if Outer(k) == i then Sample(chunk.column.world.contents, chunk.Origin(), SampleCell(f, c, i, Inner(k))) else old(l[k])
  {
    ghost var v, o := chunk.column.world.contents, chunk.Origin();
    for j := -1 to 2
      invariant forall k :: 0 <= k < 9 ==>
        l[k] == if Outer(k) == i && Inner(k) < j then Sample(v, o, SampleCell(f, c, i, Inner(k))) else old(l[k])
    {
      WorldKept(chunk.column.world);
      var light := SampleAt(chunk, f, c, i, j);
      SlotInverse(i, j);
      ghost var before := l[..];
      var slot := 3 * (i + 1) + (j + 1);
      l[slot] := light;
      forall k | 0 <= k < 9
        ensures l[k] == if Outer(k) == i && Inner(k) < j + 1 then Sample(v, o, SampleCell(f, c, i, Inner(k))) else old(l[k])
      {
        if k != slot {
          assert l[k] == before[k];
        }
      }
    }
  }

  /** The two sampling loops of face `f` (`smooth` is always true): slot
      `3 * (i + 1) + (j + 1)` of the light buffer receives the chunk's
      light at SampleCell(f, c, i, j), read with default 0. */
  method FillSamples(chunk: Chunk, f: Face, c: Cell, l: array<Byte>, ghost kept: set<object>)
    requires chunk.column.Loaded() && l.Length == 9 && l !in kept
    modifies l
    ensures l[..] == LightSamples(chunk.column.world.contents, chunk.Origin(), f, c)
    ensures unchanged(kept)
  {
    ghost var v, o := chunk.column.world.contents, chunk.Origin();
    for i := -1 to 2
      invariant forall k :: 0 <= k < 9 && Outer(k) < i ==> l[k] == Sample(v, o, SampleCell(f, c, Outer(k), Inner(k)))
    {
      WorldKept(chunk.column.world);
      SampleRow(chunk, f, c, l, i);
    }
    assert forall k :: 0 <= k < 9 ==> l[..][k] == LightSamples(v, o, f, c)[k];
  }

  /** A buffer holding the samples of a world with bounded light is a
      valid argument of the Cube methods. */
  lemma BufferBounded(l: array<Byte>, v: Contents, o: Vector3, f: Face, c: Cell)
    requires l.Length == 9 && l[..] == LightSamples(v, o, f, c) && LightsBounded(v)
    ensures Samples(l)
  {
    LightSamplesBounded(v, o, f, c);
    assert forall i :: 0 <= i < 9 ==> l[i] == l[..][i];
  }

  /** The Cube call of face `f` in Block.Render, with the buffer's samples. */
  method DrawFace(current: MeshBuildInfo, f: Face, c: Cell, tex: TextureLayout, bounds: Bounds, l: array<Byte>, ghost kept: set<object>)
    requires Samples(l) && l.Length == 9 && current !in kept
    modifies current
    ensures current.State() == AddQuad(old(current.State()), CubeQuad(f, c.x, c.y, c.z, tex, bounds, l[..], Smooth, DefaultTint))
    ensures unchanged(kept)
  {
    assert l[..9] == l[..];
    match f {
      case Top => CubeTop(current, c.x, c.y, c.z, tex, bounds, l, Smooth, DefaultTint);
      case Bottom => CubeBottom(current, c.x, c.y, c.z, tex, bounds, l, Smooth, DefaultTint);
      case East => CubeEast(current, c.x, c.y, c.z, tex, bounds, l, Smooth, DefaultTint);
      case West => CubeWest(current, c.x, c.y, c.z, tex, bounds, l, Smooth, DefaultTint);
      case North => CubeNorth(current, c.x, c.y, c.z, tex, bounds, l, Smooth, DefaultTint);
      case South => CubeSouth(current, c.x, c.y, c.z, tex, bounds, l, Smooth, DefaultTint);
    }
  }

  /** The body of one face block of Block.Render: the sampling loops,
      then the Cube call of face `f` with the samples. */
  method SampleAndDraw(current: MeshBuildInfo, chunk: Chunk, block: Block, f: Face, c: Cell, bounds: Bounds, l: array<Byte>, ghost kept: set<object>)
    requires chunk.column.Loaded() && LightsBounded(chunk.column.world.contents) && l.Length == 9
    requires bounds == block.GetBounds() && current !in kept && l !in kept
    modifies current, l
    ensures current.State() == AddQuad(old(current.State()), old(FaceQuad(chunk.column.world.contents, block, chunk.Origin(), f, c)))
    ensures unchanged(kept)
  {
    ghost var v, o := chunk.column.world.contents, chunk.Origin();
    FillSamples(chunk, f, c, l, kept);
    BufferBounded(l, v, o, f, c);
    DrawFace(current, f, c, block.textures, bounds, l, kept);
  }

  /** The test of one face block of Block.Render: the block across face
      `f`, read with default AIR, is not opaque. */
  method NeighbourVisible(chunk: Chunk, f: Face, c: Cell) returns (visible: bool)
    requires chunk.Renderable()
    ensures visible == Visible(chunk.column.world.contents, chunk.column.world.Table(), chunk.Origin(), f, c)
  {
    var blocks := chunk.column.world.registry.blocks;
    var n := Neighbour(f, c);
    var id := chunk.LocalBlock(n.x, n.y, n.z, AIR);
    assert blocks[id] == chunk.column.world.Table()[id];
    visible := !blocks[id].isOpaque;
  }

  /** The visible branch of one face block of Block.Render, over a chunk
      that stays renderable: only the mesh and the light buffer change. */
  method DrawVisibleFace(block: Block, bounds: Bounds, current: MeshBuildInfo, chunk: Chunk, f: Face, c: Cell, l: array<Byte>)
    requires chunk.Renderable() && l.Length == 9 && bounds == block.GetBounds()
    modifies current, l
    ensures current.State() == AddQuad(old(current.State()), old(FaceQuad(chunk.column.world.contents, block, chunk.Origin(), f, c)))
    ensures chunk.Renderable()
    ensures chunk.column.world.contents == old(chunk.column.world.contents)
    ensures chunk.column.world.Table() == old(chunk.column.world.Table())
  {
    NotRendered(chunk, current, l);
    SampleAndDraw(current, chunk, block, f, c, bounds, l, chunk.RenderReads());
    ReadsKept(chunk);
  }

  /** A mesh and a light buffer are none of the objects Render reads. */
  lemma NotRendered(chunk: Chunk, current: MeshBuildInfo, l: array<Byte>)
    ensures current !in chunk.RenderReads() && l !in chunk.RenderReads()
  {
  }

  /** A chunk stays renderable while none of the objects Render reads changes. */
  twostate lemma ReadsKept(chunk: Chunk)
    requires old(chunk.Renderable())
    requires unchanged(old(chunk.RenderReads()))
    ensures chunk.Renderable()
    ensures chunk.column.world.contents == old(chunk.column.world.contents)
    ensures chunk.column.world.Table() == old(chunk.column.world.Table())
  {
  }

  /** One face block of Block.Render: when the block across face `f`
      (read with default AIR) is not opaque, fill the light buffer and hand
      it to the Cube method of face `f`. */
  method RenderFace(block: Block, bounds: Bounds, current: MeshBuildInfo, chunk: Chunk, f: Face, c: Cell, l: array<Byte>)
    requires chunk.Renderable() && l.Length == 9 && bounds == block.GetBounds()
    modifies current, l
    ensures current.State() == AddQuads(old(current.State()),
      old(Emit(chunk.column.world.contents, chunk.column.world.Table(), block, chunk.Origin(), f, c)))
    ensures chunk.Renderable()
    ensures chunk.column.world.contents == old(chunk.column.world.contents)
    ensures chunk.column.world.Table() == old(chunk.column.world.Table())
  {
    ghost var s0 := current.State();
    var visible := NeighbourVisible(chunk, f, c);
    ghost var e := Emit(chunk.column.world.contents, chunk.column.world.Table(), block, chunk.Origin(), f, c);
    if visible {
      ghost var q := FaceQuad(chunk.column.world.contents, block, chunk.Origin(), f, c);
      assert e == [q];
      DrawVisibleFace(block, bounds, current, chunk, f, c, l);
      AddQuadsSingle(s0, q);
    } else {
      assert e == [];
    }
  }

  /** A world stays valid, with the same contents, while neither it nor
      its columns nor its arrays change. */
  twostate lemma WorldKept(w: GameWorld)
    requires old(w.Valid())
    requires unchanged(w)
    requires forall o :: o in old(w.loadedWorld.Values) ==> unchanged(o)
    requires forall o :: o in old(w.owner.Keys) ==> unchanged(o)
    ensures w.Valid() && w.contents == old(w.contents) && w.loadedWorld == old(w.loadedWorld)
  {
  }

  /** A chunk stays renderable, over the same world and the same table,
      while only mesh buffers and light buffers change. */
  twostate lemma RenderableKept(chunk: Chunk)
    requires old(chunk.Renderable())
    requires unchanged(chunk.column.world, chunk.column.world.registry, old(chunk.column.world.registry.blocks))
    requires forall o :: o in old(chunk.column.world.loadedWorld.Values) ==> unchanged(o)
    requires forall o :: o in old(chunk.column.world.owner.Keys) ==> unchanged(o)
    ensures chunk.Renderable()
    ensures chunk.column.world.contents == old(chunk.column.world.contents)
    ensures chunk.column.world.Table() == old(chunk.column.world.Table())
  {
    WorldKept(chunk.column.world);
  }

  /** `Render(current, chunk, x, y, z)`: Block.Render, or BlockAir's empty
      override for air. The six face blocks run in render order and
      share one nine-slot light buffer; the world is only read. */
  method RenderBlock(block: Block, current: MeshBuildInfo, chunk: Chunk, x: int, y: int, z: int)
    requires chunk.Renderable()
    modifies current
    ensures current.State() == AddQuads(old(current.State()),
      BlockQuads(chunk.column.world.contents, chunk.column.world.Table(), block, chunk.Origin(), Cell(x, y, z)))
  {
    if block.kind == AirBlock {
      return;
    }
    ghost var v, o, table := chunk.column.world.contents, chunk.Origin(), chunk.column.world.Table();
    ghost var s0 := current.State();
    var c := Cell(x, y, z);
    var bounds := block.GetBounds();
    var l := new Byte[9](_ => 0);
    RenderFace(block, bounds, current, chunk, Top, c, l);
    RenderFace(block, bounds, current, chunk, Bottom, c, l);
    RenderFace(block, bounds, current, chunk, East, c, l);
    RenderFace(block, bounds, current, chunk, West, c, l);
    RenderFace(block, bounds, current, chunk, North, c, l);
    RenderFace(block, bounds, current, chunk, South, c, l);
    var e1, e2, e3 := Emit(v, table, block, o, Top, c), Emit(v, table, block, o, Bottom, c), Emit(v, table, block, o, East, c);
    var e4, e5, e6 := Emit(v, table, block, o, West, c), Emit(v, table, block, o, North, c), Emit(v, table, block, o, South, c);
    AddQuadsAppend(s0, e1, e2);
    AddQuadsAppend(s0, e1 + e2, e3);
    AddQuadsAppend(s0, e1 + e2 + e3, e4);
    AddQuadsAppend(s0, e1 + e2 + e3 + e4, e5);
    AddQuadsAppend(s0, e1 + e2 + e3 + e4 + e5, e6);
  }
}
