/** TerrainGen of the World/Data iteration: fills a fresh column with stone,
    then dirt, then air, and gives every cell full light. */
module TerrainGen {
  import opened CSharp
  import opened WorldConstants
  import opened Vectors
  import opened Column

  datatype TerrainType = MainWorld | CaveWorld

  /** The two noise samples a column cell's heights are built from, taken
      at world coordinates (x, z): `PerlinNoise(x, 0, z, 25, 6, 1)` and
      `PerlinNoise(x, 100, z, 25, 3, 1)`. Their floating-point insides are
      not modelled; only their integer results are. */
  datatype Noise = Noise(stoneNoise: (int, int) -> int, dirtNoise: (int, int) -> int)

  /** The block ids the generator writes below the stone and dirt heights. */
  datatype Palette = Palette(stone: UShort, dirt: UShort)

  const AIR: UShort := 0

  function StoneHeight(n: Noise, wx: int, wz: int): int
  {
    COLUMN_HEIGHT / 2 - 3 + n.stoneNoise(wx, wz)
  }

  function DirtHeight(n: Noise, wx: int, wz: int): int
  {
    StoneHeight(n, wx, wz) + 4 + n.dirtNoise(wx, wz)
  }

  /** The id a generated column at `colPos` holds at local (x, y, z). */
  function GeneratedBlock(n: Noise, p: Palette, colPos: Vector2i, x: int, y: int, z: int): UShort
  {
    var wx := x + colPos.x * CHUNK_SIZE;
    var wz := z + colPos.z * CHUNK_SIZE;
    if y < StoneHeight(n, wx, wz) then p.stone
    else if y < DirtHeight(n, wx, wz) then p.dirt
    else AIR
  }

  /** Along any vertical line of a generated column the layers come in the
      order stone, dirt, air: whatever lies above air is air, and whatever
      lies below stone is stone. Cells below the stone height are stone,
      cells from the stone height up to the dirt height are dirt, and
      cells at or above the dirt height are air. */
  lemma GeneratedColumnIsLayered(n: Noise, p: Palette, colPos: Vector2i, x: int, z: int, y: int, y': int)
    requires y <= y'
    requires p.stone != AIR && p.dirt != AIR && p.stone != p.dirt
    ensures GeneratedBlock(n, p, colPos, x, y, z) == AIR ==> GeneratedBlock(n, p, colPos, x, y', z) == AIR
    ensures GeneratedBlock(n, p, colPos, x, y', z) == p.stone ==> GeneratedBlock(n, p, colPos, x, y, z) == p.stone
    ensures GeneratedBlock(n, p, colPos, x, y', z) == p.dirt ==> GeneratedBlock(n, p, colPos, x, y, z) != AIR
  {
  }

  /** A cell's id depends only on the two noise samples at its world
      (x, z): two columns whose cells share world coordinates agree. */
  lemma GeneratedBlockDependsOnWorldColumn(n: Noise, p: Palette, c1: Vector2i, x1: int, z1: int,
                                          c2: Vector2i, x2: int, z2: int, y: int)
    requires x1 + c1.x * CHUNK_SIZE == x2 + c2.x * CHUNK_SIZE
    requires z1 + c1.z * CHUNK_SIZE == z2 + c2.z * CHUNK_SIZE
    ensures GeneratedBlock(n, p, c1, x1, y, z1) == GeneratedBlock(n, p, c2, x2, y, z2)
  {
  }

  /** Cell (x, y, z) of `col` holds what the generator writes there. */
  ghost predicate CellGenerated(col: Column, n: Noise, p: Palette, colPos: Vector2i, x: int, y: int, z: int)
    requires col.Shaped() && InColumn(x, y, z)
    reads col.blockID, col.lightLevel
  {
    col.lightLevel[x, y, z] == MAX_LIGHT && col.blockID[x, y, z] == GeneratedBlock(n, p, colPos, x, y, z)
  }

  /** `TerrainGen.Generate(type, colPos)`: a fresh column in which every
      cell is written, so its contents are a function of the noise at the
      cells' world coordinates alone (the terrain type is never read). */
  method Generate(terrain: TerrainType, colPos: Vector2i, n: Noise, p: Palette) returns (col: Column)
    ensures col.Shaped() && fresh(col.blockID) && fresh(col.lightLevel)
    ensures forall x, y, z :: InColumn(x, y, z) ==>
      col.lightLevel[x, y, z] == MAX_LIGHT && col.blockID[x, y, z] == GeneratedBlock(n, p, colPos, x, y, z)
  {
    col := new Column();
    var xOffset := colPos.x * CHUNK_SIZE;
    var zOffset := colPos.z * CHUNK_SIZE;
    var worldHeight := CHUNK_SIZE * WORLD_HEIGHT;
    for x := 0 to CHUNK_SIZE
      invariant forall x', y', z' :: InColumn(x', y', z') && x' < x ==> CellGenerated(col, n, p, colPos, x', y', z')
    {
      for z := 0 to CHUNK_SIZE
        invariant forall x', y', z' :: InColumn(x', y', z') && (x' < x || (x' == x && z' < z)) ==>
          CellGenerated(col, n, p, colPos, x', y', z')
      {
        var stoneHeight := worldHeight / 2 - 3 + n.stoneNoise(x + xOffset, z + zOffset);
        var dirtHeight := stoneHeight + 4 + n.dirtNoise(x + xOffset, z + zOffset);
        for y := 0 to worldHeight
          invariant forall x', y', z' :: InColumn(x', y', z') && (x' < x || (x' == x && z' < z) || (x' == x && z' == z && y' < y)) ==>
            CellGenerated(col, n, p, colPos, x', y', z')
        {
          col.lightLevel[x, y, z] := MAX_LIGHT;
          if y < stoneHeight {
            col.blockID[x, y, z] := p.stone;
          } else if y < dirtHeight {
            col.blockID[x, y, z] := p.dirt;
          } else {
            col.blockID[x, y, z] := AIR;
          }
        }
      }
    }
  }
}
