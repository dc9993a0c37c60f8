/** The block types of the Rendering iteration and ListBlocks, the table
    that maps a block id to its type. Block's subclasses appear as the
    named constructors of one class, told apart by `kind`; the fields that
    only constructors assign are constants. */
module Blocks {
  import opened CSharp
  import opened RenderingTextureLayout
  import opened Rendering

  /** The ids ListBlocks names. */
  const AIR: Byte := 0
  const STONE: Byte := 1
  const GRASS: Byte := 2
  const DIRT: Byte := 3

  /** The slot ListBlocks.Awake gives the slab. */
  const SLAB_SLOT: int := 4

  /** The number of slots in the table. */
  const SLOTS: int := 256

  /** `Block.smooth`, a static field nobody reassigns. */
  const Smooth: bool := true

  /** Which subclass of Block an object is. */
  datatype Kind = AirBlock | StoneBlock | GrassBlock | DirtBlock | SlabBlock

  class Block {
    var id: Byte
    const kind: Kind
    const name: string
    const indestructable: bool
    const collide: bool
    const isOpaque: bool
    const textures: TextureLayout

    /** `new BlockAir()`: named "Air", neither solid nor opaque, breakable as every block is. */
    constructor Air()
      ensures kind == AirBlock && name == "Air" && id == 0
      ensures !collide && !isOpaque && !indestructable && textures == Default
    {
      id := 0;
      kind := AirBlock;
      name := "Air";
      indestructable := false;
      collide := false;
      isOpaque := false;
      textures := Default;
    }

    /** `new BlockStone()`: Block's defaults under the name "Stone". */
    constructor Stone()
      ensures kind == StoneBlock && name == "Stone" && id == 0
      ensures collide && isOpaque && !indestructable && textures == Default
    {
      id := 0;
      kind := StoneBlock;
      name := "Stone";
      indestructable := false;
      collide := true;
      isOpaque := true;
      textures := Default;
    }

    /** `new BlockGrass()`: Block's defaults under the name "Grass". */
    constructor Grass()
      ensures kind == GrassBlock && name == "Grass" && id == 0
      ensures collide && isOpaque && !indestructable && textures == Default
    {
      id := 0;
      kind := GrassBlock;
      name := "Grass";
      indestructable := false;
      collide := true;
      isOpaque := true;
      textures := Default;
    }

    /** `new BlockDirt()`: Block's defaults under the name "Dirt". */
    constructor Dirt()
      ensures kind == DirtBlock && name == "Dirt" && id == 0
      ensures collide && isOpaque && !indestructable && textures == Default
    {
      id := 0;
      kind := DirtBlock;
      name := "Dirt";
      indestructable := false;
      collide := true;
      isOpaque := true;
      textures := Default;
    }

    /** `new BlockSlab()`: named "Slab", texture 0 on every face, and
        Block's defaults otherwise, so a slab is opaque. */
    constructor Slab()
      ensures kind == SlabBlock && name == "Slab" && id == 0
      ensures collide && isOpaque && !indestructable && textures == Uniform(0)
    {
      id := 0;
      kind := SlabBlock;
      name := "Slab";
      indestructable := false;
      collide := true;
      isOpaque := true;
      textures := Uniform(0);
    }

    /** `GetBounds`: the whole cell, except BlockSlab's lower half. */
    function GetBounds(): (b: Bounds)
      ensures b == LowerHalf <==> kind == SlabBlock
    {
      if kind == SlabBlock then LowerHalf else FullCell
    }
  }

  /** The outcome of FindByName's scan: the first block with the name, or
      the null slot whose `block.name` throws before any match, or no match
      in a table without null slots. */
  datatype Lookup = Found(index: int) | NullSlot(index: int) | NotFound

  /** The scan of `s` from slot `i` on. */
  function Scan(s: seq<Block?>, name: string, i: nat): Lookup
    decreases |s| - i
  {
    if i >= |s| then NotFound
    else if s[i] == null then NullSlot(i)
    else if s[i].name == name then Found(i)
    else Scan(s, name, i + 1)
  }

  /** Every slot before `i` holds a block of another name. */
  predicate NoMatchBefore(s: seq<Block?>, name: string, i: int)
    requires 0 <= i <= |s|
  {
    forall j :: 0 <= j < i ==> s[j] != null && s[j].name != name
  }

  /** The scan stops at the first slot that is null or holds a block named
      `name`, and scans to the end only when no slot does. */
  lemma {:induction false} ScanFindsFirst(s: seq<Block?>, name: string, i: nat)
    requires i <= |s| && NoMatchBefore(s, name, i)
    ensures match Scan(s, name, i)
      case Found(k) => i <= k < |s| && s[k] != null && s[k].name == name && NoMatchBefore(s, name, k)
      case NullSlot(k) => i <= k < |s| && s[k] == null && NoMatchBefore(s, name, k)
      case NotFound => NoMatchBefore(s, name, |s|)
    decreases |s| - i
  {
    if i < |s| && s[i] != null && s[i].name != name {
      ScanFindsFirst(s, name, i + 1);
    }
  }

  class ListBlocks {
    var blocks: array?<Block?>

    /** Before Awake the table is null. */
    constructor ()
      ensures blocks == null
    {
      blocks := null;
    }

    /** The table Awake builds: 256 slots, Air, Stone, Grass, Dirt and Slab
        in slots 0 to 4 and null in every other slot, each block's id its slot. */
    predicate Awakened()
      reads this, blocks, if blocks == null then {} else set i | 0 <= i < blocks.Length :: blocks[i]
    {
      blocks != null && blocks.Length == SLOTS &&
      blocks[AIR] != null && blocks[AIR].kind == AirBlock && blocks[AIR].name == "Air" &&
      blocks[STONE] != null && blocks[STONE].kind == StoneBlock && blocks[STONE].name == "Stone" &&
      blocks[GRASS] != null && blocks[GRASS].kind == GrassBlock && blocks[GRASS].name == "Grass" &&
      blocks[DIRT] != null && blocks[DIRT].kind == DirtBlock && blocks[DIRT].name == "Dirt" &&
      blocks[SLAB_SLOT] != null && blocks[SLAB_SLOT].kind == SlabBlock && blocks[SLAB_SLOT].name == "Slab" &&
      (forall i :: SLAB_SLOT < i < SLOTS ==> blocks[i] == null) &&
      (forall i :: 0 <= i < SLOTS && blocks[i] != null ==> blocks[i].id == i)
    }

    /** `Awake`: a fresh table of 256 slots with the five block types, then
        each non-null slot's block takes its slot number as its id. */
    method Awake()
      modifies this
      ensures Awakened() && fresh(blocks)
      ensures forall i :: 0 <= i < blocks.Length && blocks[i] != null ==> fresh(blocks[i])
    {
      var table := NewTable();
      AssignIds(table);
      blocks := table;
    }

    /** The allocation part of Awake: 256 null slots, then the five block
        types in slots 0 to 4. */
    static method NewTable() returns (table: array<Block?>)
      ensures fresh(table) && table.Length == SLOTS
      ensures table[AIR] != null && table[AIR].kind == AirBlock && table[AIR].name == "Air"
      ensures table[STONE] != null && table[STONE].kind == StoneBlock && table[STONE].name == "Stone"
      ensures table[GRASS] != null && table[GRASS].kind == GrassBlock && table[GRASS].name == "Grass"
      ensures table[DIRT] != null && table[DIRT].kind == DirtBlock && table[DIRT].name == "Dirt"
      ensures table[SLAB_SLOT] != null && table[SLAB_SLOT].kind == SlabBlock && table[SLAB_SLOT].name == "Slab"
      ensures forall i :: SLAB_SLOT < i < SLOTS ==> table[i] == null
      ensures forall i :: 0 <= i < SLOTS && table[i] != null ==> fresh(table[i])
    {
      table := new Block?[SLOTS](_ => null);
      table[AIR] := new Block.Air();
      table[STONE] := new Block.Stone();
      table[GRASS] := new Block.Grass();
      table[DIRT] := new Block.Dirt();
      table[SLAB_SLOT] := new Block.Slab();
    }

    /** The loop at the end of Awake: each block in the table takes its slot
        number as its id. The blocks in the table are distinct objects. */
    static method AssignIds(table: array<Block?>)
      requires forall j, k :: 0 <= j < k < table.Length && table[j] != null ==> table[j] != table[k]
      modifies set k | 0 <= k < table.Length && table[k] != null :: table[k]
      ensures forall k :: 0 <= k < table.Length && table[k] != null ==> table[k].id as int == k % 0x100
    {
      for i := 0 to table.Length
        invariant forall k :: 0 <= k < i && table[k] != null ==> table[k].id as int == k % 0x100
      {
        if table[i] != null {
          table[i].id := i % 0x100;
        }
      }
    }

    /** `FindByName`: the scan of the table from slot 0. */
    method FindByName(name: string) returns (r: Lookup)
      requires blocks != null
      ensures r == Scan(blocks[..], name, 0)
    {
      var i := 0;
      while i < blocks.Length
        invariant 0 <= i <= blocks.Length
        invariant Scan(blocks[..], name, i) == Scan(blocks[..], name, 0)
      {
        var block := blocks[i];
        if block == null {
          return NullSlot(i);
        }
        if name == block.name {
          return Found(i);
        }
        i := i + 1;
      }
      return NotFound;
    }
  }

  /** In the table Awake builds, each of the five names is found in its own
      slot; any other name reaches the null slot 5 and throws. */
  lemma AwakenedLookups(t: ListBlocks, name: string)
    requires t.Awakened()
    ensures name == "Air" ==> Scan(t.blocks[..], name, 0) == Found(AIR)
    ensures name == "Stone" ==> Scan(t.blocks[..], name, 0) == Found(STONE)
    ensures name == "Grass" ==> Scan(t.blocks[..], name, 0) == Found(GRASS)
    ensures name == "Dirt" ==> Scan(t.blocks[..], name, 0) == Found(DIRT)
    ensures name == "Slab" ==> Scan(t.blocks[..], name, 0) == Found(SLAB_SLOT)
    ensures name !in {"Air", "Stone", "Grass", "Dirt", "Slab"} ==> Scan(t.blocks[..], name, 0) == NullSlot(5)
  {
    var s := t.blocks[..];
    assert s[0] == t.blocks[0] && s[1] == t.blocks[1] && s[2] == t.blocks[2];
    assert s[3] == t.blocks[3] && s[4] == t.blocks[4] && s[5] == t.blocks[5] && s[5] == null;
    assert Scan(s, name, 0) == if name == "Air" then Found(0) else Scan(s, name, 1);
    assert Scan(s, name, 1) == if name == "Stone" then Found(1) else Scan(s, name, 2);
    assert Scan(s, name, 2) == if name == "Grass" then Found(2) else Scan(s, name, 3);
    assert Scan(s, name, 3) == if name == "Dirt" then Found(3) else Scan(s, name, 4);
    assert Scan(s, name, 4) == if name == "Slab" then Found(4) else Scan(s, name, 5);
    assert Scan(s, name, 5) == NullSlot(5);
  }
}
