/** Column: one vertical slab of the world, a block-id array and a light
    array of the same fixed shape. */
module Column {
  import opened CSharp
  import opened WorldConstants

  /** A local cell of a column: x and z in `[0, CHUNK_SIZE)`, y in `[0, COLUMN_HEIGHT)`. */
  predicate InColumn(x: int, y: int, z: int)
  {
    0 <= x < CHUNK_SIZE && 0 <= y < COLUMN_HEIGHT && 0 <= z < CHUNK_SIZE
  }

  class Column {
    const blockID: array3<UShort>
    const lightLevel: array3<Byte>

    /** Both arrays are CHUNK_SIZE x CHUNK_SIZE*WORLD_HEIGHT x CHUNK_SIZE. */
    predicate Shaped()
    {
      blockID.Length0 == CHUNK_SIZE && blockID.Length1 == COLUMN_HEIGHT && blockID.Length2 == CHUNK_SIZE &&
      lightLevel.Length0 == CHUNK_SIZE && lightLevel.Length1 == COLUMN_HEIGHT && lightLevel.Length2 == CHUNK_SIZE
    }

    /** `new Column()`: both arrays zero-initialised, as C# arrays are. */
    constructor ()
      ensures Shaped() && fresh(blockID) && fresh(lightLevel)
      ensures forall x, y, z :: InColumn(x, y, z) ==> blockID[x, y, z] == 0 && lightLevel[x, y, z] == 0
    {
      blockID := new UShort[CHUNK_SIZE, COLUMN_HEIGHT, CHUNK_SIZE]((x, y, z) => 0);
      lightLevel := new Byte[CHUNK_SIZE, COLUMN_HEIGHT, CHUNK_SIZE]((x, y, z) => 0);
    }
  }

  /** Every cell that passes World's vertical bound check and has in-range
      local x and z indexes both arrays of a shaped column. */
  lemma BoundCheckedCellsIndexBothArrays(c: Column, x: int, y: int, z: int)
    requires c.Shaped()
    requires 0 <= y < WORLD_HEIGHT * CHUNK_SIZE && 0 <= x < CHUNK_SIZE && 0 <= z < CHUNK_SIZE
    ensures InColumn(x, y, z)
    ensures x < c.blockID.Length0 && y < c.blockID.Length1 && z < c.blockID.Length2
    ensures x < c.lightLevel.Length0 && y < c.lightLevel.Length1 && z < c.lightLevel.Length2
  {
  }
}
