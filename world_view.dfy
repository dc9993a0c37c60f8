/** The loaded world as a value: the block id and the light level at every
    world position of a loaded column. The reads of World are specified
    against this view, so a specification does not change when the heap
    does but the world's contents do not. */
module Views {
  import opened CSharp
  import opened WorldConstants
  import opened Vectors
  import opened MiscMath
  import opened Column
  import opened FaceGeometry
  import opened TerrainGen

  /** What the loaded columns store, keyed by world position. */
  datatype WorldView = WorldView(blocks: imap<Vector3i, UShort>, lights: imap<Vector3i, Byte>)

  /** The vertical bound every read checks: `0 <= y < WORLD_HEIGHT * CHUNK_SIZE`. */
  predicate InWorldHeight(y: int)
  {
    0 <= y < WORLD_HEIGHT * CHUNK_SIZE
  }

  /** The column a world position lies in. */
  function ColumnOfPos(pos: Vector3i): Vector2i
  {
    WorldToColumnCoords(pos.x, pos.z)
  }

  /** The world position of the local cell `c` of the column at `p`. */
  function WorldPosOf(p: Vector2i, c: Cell): Vector3i
  {
    Vector3i(p.x * CHUNK_SIZE + c.x, c.y, p.z * CHUNK_SIZE + c.z)
  }

  /** The block at world (wx, wy, wz), or `def` when no loaded column stores it. */
  ghost function BlockIn(v: WorldView, wx: int, wy: int, wz: int, def: UShort): UShort
  {
    var pos := Vector3i(wx, wy, wz);
    if pos in v.blocks then v.blocks[pos] else def
  }

  /** The light level at world (wx, wy, wz), as BlockIn. */
  ghost function LightIn(v: WorldView, wx: int, wy: int, wz: int, def: Byte): Byte
  {
    var pos := Vector3i(wx, wy, wz);
    if pos in v.lights then v.lights[pos] else def
  }

  /** A local cell with in-range x and z lies in its own column. */
  lemma WorldPosOfColumn(p: Vector2i, c: Cell)
    requires 0 <= c.x < CHUNK_SIZE && 0 <= c.z < CHUNK_SIZE
    ensures ColumnOfPos(WorldPosOf(p, c)) == p
  {
    ColumnCoordsOfCombination(p, c.x, c.z);
  }

  /** Column and in-range local cell are determined by the world position. */
  lemma WorldPosOfInjective(p: Vector2i, c: Cell, p': Vector2i, c': Cell)
    requires 0 <= c.x < CHUNK_SIZE && 0 <= c.z < CHUNK_SIZE
    requires 0 <= c'.x < CHUNK_SIZE && 0 <= c'.z < CHUNK_SIZE
    requires WorldPosOf(p, c) == WorldPosOf(p', c')
    ensures p == p' && c == c'
  {
    WorldPosOfColumn(p, c);
    WorldPosOfColumn(p', c');
  }

  /** Every world position is the world position of its column's local cell. */
  lemma WorldPosOfParts(pos: Vector3i)
    ensures var p := ColumnOfPos(pos);
      WorldPosOf(p, Cell(Mod(pos.x, CHUNK_SIZE), pos.y, Mod(pos.z, CHUNK_SIZE))) == pos
  {
    ColumnCoordsFloor(pos.x, pos.z);
  }

  /** The view after the block at world (wx, wy, wz) is set to `b`, when a
      loaded column stores that position. */
  ghost function WithBlock(v: WorldView, wx: int, wy: int, wz: int, b: UShort): WorldView
  {
    var pos := Vector3i(wx, wy, wz);
    if pos in v.blocks then v.(blocks := v.blocks[pos := b]) else v
  }

  /** The local cell of a world position inside its column. */
  function LocalOf(pos: Vector3i): Cell
  {
    Cell(Mod(pos.x, CHUNK_SIZE), pos.y, Mod(pos.z, CHUNK_SIZE))
  }

  /** The view with every column in `gone` unloaded. */
  ghost function Without(v: WorldView, gone: iset<Vector2i>): WorldView
  {
    WorldView(imap q | q in v.blocks && ColumnOfPos(q) !in gone :: v.blocks[q],
              imap q | q in v.lights && ColumnOfPos(q) !in gone :: v.lights[q])
  }

  /** The view with every column in `cols` that it does not store filled in
      as TerrainGen.Generate fills a fresh column: the generated block id
      and full light at each cell inside the world's height. */
  ghost function Grown(v: WorldView, n: Noise, pal: Palette, cols: iset<Vector2i>): WorldView
  {
    WorldView(imap q | q in v.blocks || (ColumnOfPos(q) in cols && InWorldHeight(q.y)) ::
                if q in v.blocks then v.blocks[q]
                else var c := LocalOf(q); GeneratedBlock(n, pal, ColumnOfPos(q), c.x, c.y, c.z),
              imap q | q in v.lights || (ColumnOfPos(q) in cols && InWorldHeight(q.y)) ::
                if q in v.lights then v.lights[q] else MAX_LIGHT as Byte)
  }

  /** A world position is the position of its local cell in its column,
      and an in-range local cell is the local cell of its world position. */
  lemma LocalOfWorldPos(p: Vector2i, c: Cell)
    requires 0 <= c.x < CHUNK_SIZE && 0 <= c.z < CHUNK_SIZE
    ensures LocalOf(WorldPosOf(p, c)) == c && ColumnOfPos(WorldPosOf(p, c)) == p
  {
    ColumnCoordsOfCombination(p, c.x, c.z);
  }

  /** Growing keeps every position the view already stores. */
  lemma GrownKeeps(v: WorldView, n: Noise, pal: Palette, cols: iset<Vector2i>, w: Vector3i)
    requires w in v.blocks && w in v.lights
    ensures var g := Grown(v, n, pal, cols);
      w in g.blocks && g.blocks[w] == v.blocks[w] && w in g.lights && g.lights[w] == v.lights[w]
  {
  }

  /** Growing fills an unstored cell of a grown column with its generated
      block id and full light. */
  lemma GrownFills(v: WorldView, n: Noise, pal: Palette, pos: Vector2i, c: Cell)
    requires 0 <= c.x < CHUNK_SIZE && 0 <= c.z < CHUNK_SIZE && InWorldHeight(c.y)
    requires WorldPosOf(pos, c) !in v.blocks && WorldPosOf(pos, c) !in v.lights
    ensures var g, w := Grown(v, n, pal, iset{pos}), WorldPosOf(pos, c);
      w in g.blocks && g.blocks[w] == GeneratedBlock(n, pal, pos, c.x, c.y, c.z) &&
      w in g.lights && g.lights[w] == MAX_LIGHT as Byte
  {
    LocalOfWorldPos(pos, c);
  }

  /** Unloading in two steps is unloading the union. */
  lemma WithoutTwice(v: WorldView, a: iset<Vector2i>, b: iset<Vector2i>)
    ensures Without(Without(v, a), b) == Without(v, a + b)
  {
    var l, r := Without(Without(v, a), b), Without(v, a + b);
    assert l.blocks == r.blocks;
    assert l.lights == r.lights;
  }

  /** Generating in two steps is generating the union; columns already
      stored are never regenerated. */
  lemma GrownTwice(v: WorldView, n: Noise, pal: Palette, a: iset<Vector2i>, b: iset<Vector2i>)
    ensures Grown(Grown(v, n, pal, a), n, pal, b) == Grown(v, n, pal, a + b)
  {
    var l, r := Grown(Grown(v, n, pal, a), n, pal, b), Grown(v, n, pal, a + b);
    assert l.blocks == r.blocks;
    assert l.lights == r.lights;
  }
}
