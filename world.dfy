/** World of the World/Data iteration: a dictionary from column position
    to Column, block and light reads that fall back to a default, a
    single-cell block write, the reconciliation of the loaded set against
    a rectangle, and the mesh-building loops over a chunk and a column
    (together with RenderFullBlock, which reads the world back). */
module World {
  import opened CSharp
  import opened WorldConstants
  import opened Vectors
  import opened MiscMath
  import opened Column
  import opened TerrainGen
  import opened FaceGeometry
  import opened CellOrder
  import opened Views
  import WorldRenderTextureLayout

  /** A Unity Color handed to the face renderers; only its identity matters here. */
  datatype Tint = Tint(token: nat)

  /** What `Block.GetInstance(id).Renderer` yields: null, a RenderFullBlock
      (its texture layout and colour), or some other renderer whose
      behaviour is not part of this model. */
  datatype Renderer =
    | NoRenderer
    | FullBlock(full: RenderFullBlock)
    | OtherRenderer(tag: nat)

  /** The block registry as the world's readers see it: whether an id
      blocks light and how it is rendered. */
  datatype Catalog = Catalog(isOpaque: UShort -> bool, renderer: UShort -> Renderer)

  /** A call one of the renderers makes for one cell: a face handed to
      `CubeRenderHelper.Cube<face>` with the nine light samples, or a
      call to a renderer not modelled here. */
  datatype Call =
    | FaceCall(face: Face, x: int, y: int, z: int, layout: WorldRenderTextureLayout.TextureLayout,
               light: seq<Byte>, smooth: bool, color: Tint)
    | Delegated(tag: nat, chunkPos: Vector3i, x: int, y: int, z: int)

  /** What LoadInRange reports through ChunkUnloadEvent and ChunkLoadEvent. */
  datatype Event = ChunkUnload(pos: Vector2i) | ChunkLoad(pos: Vector2i, meshes: seq<seq<Call>>)

  /** The block hooks World.SetBlockAt invokes, in order. */
  datatype Hook =
    | OnBreak(block: UShort, x: int, y: int, z: int, newBlock: UShort)
    | OnPlace(block: UShort, x: int, y: int, z: int, oldBlock: UShort)

  /** Local x and z inside a column. */
  predicate InColumnXZ(x: int, z: int)
  {
    0 <= x < CHUNK_SIZE && 0 <= z < CHUNK_SIZE
  }

  /** The id RenderFullBlock reads a missing neighbour as. */
  const AIR_ID: UShort := 0

  /** The block at chunk-local (x, y, z) of the chunk at `chunkPos`, read
      as `GetBlockAt(chunkPos, ...)` does. */
  ghost function ChunkBlock(v: WorldView, chunkPos: Vector3i, c: Cell, def: UShort): UShort
  {
    BlockIn(v, chunkPos.x * CHUNK_SIZE + c.x, c.y + chunkPos.y * WORLD_HEIGHT, chunkPos.z * CHUNK_SIZE + c.z, def)
  }

  /** Face `f` of the cell `c` is drawn when the cell across it (AIR when
      it is not loaded) does not block light. */
  ghost predicate Visible(v: WorldView, catalog: Catalog, chunkPos: Vector3i, f: Face, c: Cell)
  {
    !catalog.isOpaque(ChunkBlock(v, chunkPos, Neighbour(f, c), AIR_ID))
  }

  /** The light at chunk-local (x, y, z) of the chunk at `chunkPos`, read
      as `GetLightAt(chunkPos, ...)` does. */
  ghost function ChunkLight(v: WorldView, chunkPos: Vector3i, c: Cell, def: Byte): Byte
  {
    LightIn(v, chunkPos.x * CHUNK_SIZE + c.x, c.y + chunkPos.y * WORLD_HEIGHT, chunkPos.z * CHUNK_SIZE + c.z, def)
  }

  /** The light RenderFullBlock samples at the chunk-local cell `s`: 0 when it is not loaded. */
  ghost function Sample(v: WorldView, chunkPos: Vector3i, s: Cell): Byte
  {
    ChunkLight(v, chunkPos, s, 0)
  }

  /** The nine samples of face `f`: slot k holds the cell at outer offset
      `k / 3 - 1` and inner offset `k % 3 - 1`. */
  ghost function Samples(v: WorldView, chunkPos: Vector3i, f: Face, c: Cell): (l: seq<Byte>)
    ensures |l| == 9
  {
    seq(9, k => Sample(v, chunkPos, SampleCell(f, c, Outer(k), Inner(k))))
  }

  /** Slot `3 * (i + 1) + (j + 1)` of Samples holds the sample at outer
      offset i and inner offset j. */
  lemma SampleInSlot(v: WorldView, chunkPos: Vector3i, f: Face, c: Cell, i: int, j: int)
    requires -1 <= i <= 1 && -1 <= j <= 1
    ensures Samples(v, chunkPos, f, c)[Slot(i, j)] == Sample(v, chunkPos, SampleCell(f, c, i, j))
  {
    var k := Slot(i, j);
    SlotInverse(i, j);
    assert Samples(v, chunkPos, f, c)[k] == Sample(v, chunkPos, SampleCell(f, c, Outer(k), Inner(k)));
  }

  /** A nine-slot buffer whose slot `3 * (i + 1) + (j + 1)` holds the sample
      at outer offset i and inner offset j is Samples. */
  lemma BufferIsSamples(l: seq<Byte>, v: WorldView, chunkPos: Vector3i, f: Face, c: Cell)
    requires |l| == 9
    requires forall i, j :: -1 <= i <= 1 && -1 <= j <= 1 ==> l[Slot(i, j)] == Sample(v, chunkPos, SampleCell(f, c, i, j))
    ensures l == Samples(v, chunkPos, f, c)
  {
    forall k | 0 <= k < 9
      ensures l[k] == Samples(v, chunkPos, f, c)[k]
    {
      SlotOfLoopVariables(k);
    }
  }

  /** RenderFullBlock: draws the faces of a full cube whose neighbour does
      not block light, each with the light of the nine cells in front of it. */
  datatype RenderFullBlock = RenderFullBlock(layout: WorldRenderTextureLayout.TextureLayout, color: Tint)
  {
    /** The call for face `f` of the cell `c`. */
    ghost function Drawn(v: WorldView, chunkPos: Vector3i, f: Face, c: Cell): Call
    {
      FaceCall(f, c.x, c.y, c.z, layout, Samples(v, chunkPos, f, c), true, color)
    }

    /** What Render hands on for face `f` of the cell `c`: its call when the face is visible. */
    ghost function Emit(v: WorldView, catalog: Catalog, chunkPos: Vector3i, f: Face, c: Cell): seq<Call>
    {
      if Visible(v, catalog, chunkPos, f, c) then [Drawn(v, chunkPos, f, c)] else []
    }

    /** What Render hands on for the first `k` faces of RenderOrder of the cell `c`. */
    ghost function EmitFaces(v: WorldView, catalog: Catalog, chunkPos: Vector3i, k: nat, c: Cell): seq<Call>
      requires k <= |RenderOrder|
    {
      if k == 0 then [] else EmitFaces(v, catalog, chunkPos, k - 1, c) + Emit(v, catalog, chunkPos, RenderOrder[k - 1], c)
    }

    /** Handling face k of RenderOrder extends the calls for the faces before it. */
    lemma EmitFacesNext(v: WorldView, catalog: Catalog, chunkPos: Vector3i, k: nat, c: Cell, calls: seq<Call>)
      requires k < |RenderOrder|
      requires calls == EmitFaces(v, catalog, chunkPos, k, c)
      ensures calls + Emit(v, catalog, chunkPos, RenderOrder[k], c) == EmitFaces(v, catalog, chunkPos, k + 1, c)
    {
    }

    /** Everything Render hands to the face renderer for local cell (x, y, z),
        face by face in render order. */
    ghost function Calls(v: WorldView, catalog: Catalog, chunkPos: Vector3i, x: int, y: int, z: int): seq<Call>
    {
      EmitFaces(v, catalog, chunkPos, |RenderOrder|, Cell(x, y, z))
    }

    /** The read in the body of the sampling loops: `GetLightAt(chunkPos, ...)`
        with default 0 at SampleCell(f, c, i, j). */
    method SampleLight(world: World, chunkPos: Vector3i, f: Face, c: Cell, i: int, j: int) returns (light: Byte)
      requires world.Valid()
      ensures light == Sample(world.view, chunkPos, SampleCell(f, c, i, j))
    {
      var s := SampleCell(f, c, i, j);
      light := world.GetLightAtChunk(chunkPos, s.x, s.y, s.z, 0);
    }

    /** The two sampling loops of face `f` (`smooth` is always true): slot
        `3 * (i + 1) + (j + 1)` of the light buffer receives the light at
        SampleCell(f, c, i, j), which is the coordinate expression each
        face block of Render spells out. */
    method FillSamples(world: World, chunkPos: Vector3i, f: Face, c: Cell, l: array<Byte>)
      requires world.Valid() && l.Length == 9 && l !in world.Repr
      modifies l
      ensures world.Valid()
      ensures l[..] == Samples(world.view, chunkPos, f, c)
    {
      ghost var v := world.view;
      for i := -1 to 2
        invariant forall i', j' :: -1 <= i' <= 1 && -1 <= j' <= 1 && Slot(i', j') < Slot(i, -1) ==>
          l[Slot(i', j')] == Sample(v, chunkPos, SampleCell(f, c, i', j'))
      {
        for j := -1 to 2
          invariant forall i', j' :: -1 <= i' <= 1 && -1 <= j' <= 1 && Slot(i', j') < Slot(i, j) ==>
            l[Slot(i', j')] == Sample(v, chunkPos, SampleCell(f, c, i', j'))
        {
          ValidKept(world);
          var light := SampleLight(world, chunkPos, f, c, i, j);
          l[3 * (i + 1) + (j + 1)] := light;
        }
      }
      ValidKept(world);
      BufferIsSamples(l[..], v, chunkPos, f, c);
    }

    /** One face block of Render: when the block across face `f` (read
        with default AIR) is not opaque, fill the light buffer and hand
        face `f` with the buffer's contents to the face renderer. */
    method RenderFace(world: World, chunkPos: Vector3i, f: Face, c: Cell, l: array<Byte>, calls: seq<Call>)
      returns (calls': seq<Call>)
      requires world.Valid() && l.Length == 9 && l !in world.Repr
      modifies l
      ensures world.Valid()
      ensures calls' == calls + Emit(world.view, world.catalog, chunkPos, f, c)
    {
      var n := Neighbour(f, c);
      calls' := calls;
      if !world.catalog.isOpaque(world.GetBlockAtChunk(chunkPos, n.x, n.y, n.z, AIR_ID)) {
        FillSamples(world, chunkPos, f, c, l);
        calls' := calls' + [FaceCall(f, c.x, c.y, c.z, layout, l[..], true, color)];
      }
    }

    /** `Render(current, world, chunkPos, x, y, z)`: the six face blocks in
        render order, sharing one nine-slot light buffer. The world is only
        read. */
    method Render(world: World, chunkPos: Vector3i, x: int, y: int, z: int) returns (calls: seq<Call>)
      requires world.Valid()
      ensures calls == Calls(world.view, world.catalog, chunkPos, x, y, z)
    {
      ghost var v, catalog := world.view, world.catalog;
      var c := Cell(x, y, z);
      var l := new Byte[9](i => 0);
      calls := [];
      EmitFacesNext(v, catalog, chunkPos, 0, c, calls);
      ValidKept(world);
      calls := RenderFace(world, chunkPos, Top, c, l, calls);
      EmitFacesNext(v, catalog, chunkPos, 1, c, calls);
      ValidKept(world);
      calls := RenderFace(world, chunkPos, Bottom, c, l, calls);
      EmitFacesNext(v, catalog, chunkPos, 2, c, calls);
      ValidKept(world);
      calls := RenderFace(world, chunkPos, East, c, l, calls);
      EmitFacesNext(v, catalog, chunkPos, 3, c, calls);
      ValidKept(world);
      calls := RenderFace(world, chunkPos, West, c, l, calls);
      EmitFacesNext(v, catalog, chunkPos, 4, c, calls);
      ValidKept(world);
      calls := RenderFace(world, chunkPos, North, c, l, calls);
      EmitFacesNext(v, catalog, chunkPos, 5, c, calls);
      ValidKept(world);
      calls := RenderFace(world, chunkPos, South, c, l, calls);
    }
  }

  /** A world stays valid while neither it nor anything it owns changes. */
  twostate lemma ValidKept(w: World)
    requires old(w.Valid())
    requires unchanged(w) && forall o :: o in old(w.Repr) ==> unchanged(o)
    ensures w.Valid() && w.view == old(w.view)
  {
  }

  /** What RenderChunk hands on for the chunk-local cell `c`: nothing for a
      block without a renderer, RenderFullBlock's calls, or one call to
      another renderer. */
  ghost function CellCalls(v: WorldView, catalog: Catalog, chunkPos: Vector3i, c: Cell): seq<Call>
  {
    match catalog.renderer(ChunkBlock(v, chunkPos, c, 0))
    case NoRenderer => []
    case FullBlock(rb) => rb.Calls(v, catalog, chunkPos, c.x, c.y, c.z)
    case OtherRenderer(t) => [Delegated(t, chunkPos, c.x, c.y, c.z)]
  }

  /** CellCalls as a function of the cell. */
  ghost function CellCallsAt(v: WorldView, catalog: Catalog, chunkPos: Vector3i): Cell -> seq<Call>
  {
    c => CellCalls(v, catalog, chunkPos, c)
  }

  /** What RenderChunk hands on for the whole chunk at `pos`: the loop
      nest over its local cells. */
  ghost function ChunkCalls(v: WorldView, catalog: Catalog, pos: Vector3i): seq<Call>
  {
    ChunkPlanes(v, catalog, pos, CHUNK_SIZE)
  }

  /** The outer loop of RenderChunk up to x: FlatPlanes of the chunk's
      cells. It is spelled out here, with the view among the arguments that
      decrease, so that the verifier does not unfold a whole chunk of
      constant size wherever a chunk's calls are mentioned. */
  ghost function ChunkPlanes(v: WorldView, catalog: Catalog, pos: Vector3i, x: nat): seq<Call>
  {
    if x == 0 then [] else ChunkPlanes(v, catalog, pos, x - 1) + FlatLines(CellCallsAt(v, catalog, pos), CHUNK_SIZE, x - 1, CHUNK_SIZE)
  }

  lemma {:induction false} ChunkPlanesAreFlatPlanes(v: WorldView, catalog: Catalog, pos: Vector3i, x: nat)
    ensures ChunkPlanes(v, catalog, pos, x) == FlatPlanes(CellCallsAt(v, catalog, pos), CHUNK_SIZE, x)
  {
    if x > 0 {
      ChunkPlanesAreFlatPlanes(v, catalog, pos, x - 1);
    }
  }

  /** RenderChunk's calls are the cells' calls joined in the loop nest's
      visiting order, which visits every cell of the chunk once. */
  lemma ChunkCallsFollowOrder(v: WorldView, catalog: Catalog, pos: Vector3i)
    ensures ChunkCalls(v, catalog, pos) == FlatMap(CellCallsAt(v, catalog, pos), Order(CHUNK_SIZE))
  {
    ChunkPlanesAreFlatPlanes(v, catalog, pos, CHUNK_SIZE);
    FlatPlanesFollowOrder(CellCallsAt(v, catalog, pos), CHUNK_SIZE);
  }

  /** What RenderColumn produces for the column at `pos`: mesh h is the
      chunk at height h, for the WORLD_HEIGHT heights bottom up. */
  ghost function ColumnMeshes(v: WorldView, catalog: Catalog, pos: Vector2i): (m: seq<seq<Call>>)
    ensures |m| == WORLD_HEIGHT
  {
    seq(WORLD_HEIGHT, h => ChunkCalls(v, catalog, Vector3i(pos.x, h, pos.z)))
  }

  /** ColumnMeshes as a function of the column. */
  ghost function MeshesOf(v: WorldView, catalog: Catalog): Vector2i -> seq<seq<Call>>
  {
    p => ColumnMeshes(v, catalog, p)
  }

  /** A sequence holding the chunk at height h in slot h, for every height,
      is ColumnMeshes. */
  lemma IsColumnMeshes(meshes: seq<seq<Call>>, v: WorldView, catalog: Catalog, pos: Vector2i)
    requires |meshes| == WORLD_HEIGHT
    requires forall i :: 0 <= i < WORLD_HEIGHT ==> meshes[i] == ChunkCalls(v, catalog, Vector3i(pos.x, i, pos.z))
    ensures meshes == ColumnMeshes(v, catalog, pos)
  {
  }

  /** The inclusive rectangle LoadInRange keeps loaded. */
  predicate InRect(p: Vector2i, min: Vector2i, max: Vector2i)
  {
    min.x <= p.x <= max.x && min.z <= p.z <= max.z
  }

  /** The order of LoadInRange's addition loops: by x, then by z. */
  predicate RowMajorBefore(a: Vector2i, b: Vector2i)
  {
    a.x < b.x || (a.x == b.x && a.z < b.z)
  }

  /** The positions of a one-longer prefix. */
  lemma PrefixElements(s: seq<Vector2i>, i: nat, j: nat)
    requires j == i + 1 <= |s|
    ensures forall p :: p in s[..j] <==> p in s[..i] || p == s[i]
  {
    assert s[..j] == s[..i] + [s[i]];
  }

  /** No position occurs twice. */
  predicate Distinct(s: seq<Vector2i>)
  {
    forall i, j :: 0 <= i < j < |s| ==> s[i] != s[j]
  }

  /** What LoadInRange reports against the positions `before` loaded
      before it, with `meshes` giving each loaded column's meshes: unloads
      of exactly the loaded positions outside the rectangle, each once;
      loads of exactly the rectangle's new positions, by x and then z; and
      no unload after a load. */
  ghost predicate ReconcileEvents(events: seq<Event>, before: set<Vector2i>, min: Vector2i, max: Vector2i,
                                  meshes: Vector2i -> seq<seq<Call>>)
  {
    (forall i, j :: 0 <= i < j < |events| && events[j].ChunkUnload? ==> events[i].ChunkUnload?) &&
    (forall p :: ChunkUnload(p) in events <==> p in before && !InRect(p, min, max)) &&
    (forall i, j :: 0 <= i < j < |events| && events[i].ChunkUnload? && events[j].ChunkUnload? ==>
      events[i].pos != events[j].pos) &&
    (forall p :: ChunkLoad(p, meshes(p)) in events <==> InRect(p, min, max) && p !in before) &&
    (forall e :: e in events && e.ChunkLoad? ==> e.meshes == meshes(e.pos)) &&
    (forall i, j :: 0 <= i < j < |events| && events[i].ChunkLoad? && events[j].ChunkLoad? ==>
      RowMajorBefore(events[i].pos, events[j].pos))
  }

  /** The unload events of the removal list followed by the load events of
      the addition list are what ReconcileEvents describes. */
  lemma EventsReconcile(removal: seq<Vector2i>, addition: seq<Vector2i>, unloads: seq<Event>, loads: seq<Event>,
                        before: set<Vector2i>, min: Vector2i, max: Vector2i, meshes: Vector2i -> seq<seq<Call>>)
    requires Distinct(removal) && forall p :: p in removal <==> p in before && !InRect(p, min, max)
    requires forall i, j :: 0 <= i < j < |addition| ==> RowMajorBefore(addition[i], addition[j])
    requires forall p :: p in addition <==> InRect(p, min, max) && p !in before
    requires |unloads| == |removal| && forall k :: 0 <= k < |removal| ==> unloads[k] == ChunkUnload(removal[k])
    requires |loads| == |addition| && forall k :: 0 <= k < |addition| ==> loads[k] == ChunkLoad(addition[k], meshes(addition[k]))
    ensures ReconcileEvents(unloads + loads, before, min, max, meshes)
  {
    var events := unloads + loads;
    forall p ensures ChunkUnload(p) in events <==> p in removal {
      if ChunkUnload(p) in events {
        var i :| 0 <= i < |events| && events[i] == ChunkUnload(p);
        assert i < |unloads|;
        assert removal[i] == p;
      }
      if p in removal {
        var i :| 0 <= i < |removal| && removal[i] == p;
        assert events[i] == ChunkUnload(p);
      }
    }
    forall p ensures ChunkLoad(p, meshes(p)) in events <==> p in addition {
      if ChunkLoad(p, meshes(p)) in events {
        var i :| 0 <= i < |events| && events[i] == ChunkLoad(p, meshes(p));
        assert i >= |unloads|;
        assert addition[i - |unloads|] == p;
      }
      if p in addition {
        var i :| 0 <= i < |addition| && addition[i] == p;
        assert events[|unloads| + i] == ChunkLoad(p, meshes(p));
      }
    }
    forall e | e in events && e.ChunkLoad? ensures e.meshes == meshes(e.pos) {
      var i :| 0 <= i < |events| && events[i] == e;
      assert i >= |unloads|;
    }
    forall i, j | 0 <= i < j < |events| && events[i].ChunkLoad? && events[j].ChunkLoad?
      ensures RowMajorBefore(events[i].pos, events[j].pos)
    {
      assert i >= |unloads|;
      assert events[i] == loads[i - |unloads|] && events[j] == loads[j - |unloads|];
    }
  }

  /** Every column of `data` is shaped and its block array is owned by it
      alone; `v` stores exactly the positions of the columns' cells, with
      their contents. */
  ghost predicate Coupled(data: map<Vector2i, Column>, owner: map<array3<UShort>, Vector2i>, v: WorldView)
    reads set p | p in data :: data[p].blockID
    reads set p | p in data :: data[p].lightLevel
  {
    Owned(data, owner) && CellsStored(data, v) && StoredInColumns(data, v)
  }

  /** `owner` maps each column's block array back to the column's position. */
  predicate Owned(data: map<Vector2i, Column>, owner: map<array3<UShort>, Vector2i>)
  {
    forall p :: p in data ==> data[p].blockID in owner && owner[data[p].blockID] == p
  }

  /** Every column is shaped and `v` holds each of its cells' block id and
      light level at the cell's world position. */
  ghost predicate CellsStored(data: map<Vector2i, Column>, v: WorldView)
    reads set p | p in data :: data[p].blockID
    reads set p | p in data :: data[p].lightLevel
  {
    (forall p :: p in data ==> data[p].Shaped()) &&
    (forall p, c: Cell {:trigger data[p].blockID[c.x, c.y, c.z]} :: p in data && InColumn(c.x, c.y, c.z) ==>
      WorldPosOf(p, c) in v.blocks && v.blocks[WorldPosOf(p, c)] == data[p].blockID[c.x, c.y, c.z]) &&
    (forall p, c: Cell {:trigger data[p].lightLevel[c.x, c.y, c.z]} :: p in data && InColumn(c.x, c.y, c.z) ==>
      WorldPosOf(p, c) in v.lights && v.lights[WorldPosOf(p, c)] == data[p].lightLevel[c.x, c.y, c.z])
  }

  /** One cell of CellsStored. */
  lemma StoredCell(data: map<Vector2i, Column>, v: WorldView, p: Vector2i, c: Cell)
    requires CellsStored(data, v) && p in data && InColumn(c.x, c.y, c.z)
    ensures WorldPosOf(p, c) in v.blocks && v.blocks[WorldPosOf(p, c)] == data[p].blockID[c.x, c.y, c.z]
    ensures WorldPosOf(p, c) in v.lights && v.lights[WorldPosOf(p, c)] == data[p].lightLevel[c.x, c.y, c.z]
  {
    var b, l := data[p].blockID[c.x, c.y, c.z], data[p].lightLevel[c.x, c.y, c.z];
  }

  /** `v` stores nothing outside the loaded columns and the world's height. */
  ghost predicate StoredInColumns(data: map<Vector2i, Column>, v: WorldView)
  {
    forall pos {:trigger ColumnOfPos(pos)} :: pos in v.blocks || pos in v.lights ==>
      ColumnOfPos(pos) in data && InWorldHeight(pos.y)
  }

  /** Removing a column from the dictionary and its cells from the view
      keeps the two coupled. */
  lemma CoupledAfterRemove(data: map<Vector2i, Column>, owner: map<array3<UShort>, Vector2i>, v: WorldView, pos: Vector2i,
                            data': map<Vector2i, Column>, v': WorldView)
    requires Coupled(data, owner, v)
    requires data' == data - {pos} && v' == Without(v, iset{pos})
    ensures Coupled(data', owner, v')
  {
    forall p, c: Cell | p in data - {pos} && InColumn(c.x, c.y, c.z)
      ensures WorldPosOf(p, c) in Without(v, iset{pos}).blocks && WorldPosOf(p, c) in Without(v, iset{pos}).lights
    {
      WorldPosOfColumn(p, c);
      var b, l := data[p].blockID[c.x, c.y, c.z], data[p].lightLevel[c.x, c.y, c.z];
    }
  }

  /** The ghost state of a World at one point: its dictionary, the owner
      of each block array, and its view. */
  datatype Snapshot = Snapshot(data: map<Vector2i, Column>, owner: map<array3<UShort>, Vector2i>, view: WorldView)

  /** Coupling depends on the column arrays alone: a heap change that
      leaves them untouched keeps it. */
  twostate lemma CoupledFrame(s: Snapshot)
    requires old(Coupled(s.data, s.owner, s.view))
    requires forall p :: p in s.data ==> unchanged(s.data[p].blockID) && unchanged(s.data[p].lightLevel)
    ensures Coupled(s.data, s.owner, s.view)
  {
    forall p, c: Cell | p in s.data && InColumn(c.x, c.y, c.z)
      ensures WorldPosOf(p, c) in s.view.blocks && s.view.blocks[WorldPosOf(p, c)] == s.data[p].blockID[c.x, c.y, c.z]
      ensures WorldPosOf(p, c) in s.view.lights && s.view.lights[WorldPosOf(p, c)] == s.data[p].lightLevel[c.x, c.y, c.z]
    {
      var b, l := old(s.data[p].blockID[c.x, c.y, c.z]), old(s.data[p].lightLevel[c.x, c.y, c.z]);
    }
  }

  /** Adding a generated column to the dictionary and its cells to the
      view keeps the two coupled. */
  lemma CoupledAdd(data: map<Vector2i, Column>, owner: map<array3<UShort>, Vector2i>, v: WorldView,
                   pos: Vector2i, col: Column, n: Noise, pal: Palette,
                   data': map<Vector2i, Column>, owner': map<array3<UShort>, Vector2i>, v': WorldView)
    requires Coupled(data, owner, v) && pos !in data && col.Shaped()
    requires forall p :: p in data ==> data[p].blockID != col.blockID
    requires forall x, y, z :: InColumn(x, y, z) ==>
      col.lightLevel[x, y, z] == MAX_LIGHT && col.blockID[x, y, z] == GeneratedBlock(n, pal, pos, x, y, z)
    requires data' == data[pos := col] && owner' == owner[col.blockID := pos] && v' == Grown(v, n, pal, iset{pos})
    ensures Coupled(data', owner', v')
  {
    CellsAfterAdd(data, v, pos, col, n, pal);
    OwnersAfterAdd(data, owner, pos, col);
    DomainAfterAdd(data, v, pos, col, n, pal);
  }

  /** The owner part of CoupledAdd. */
  lemma OwnersAfterAdd(data: map<Vector2i, Column>, owner: map<array3<UShort>, Vector2i>, pos: Vector2i, col: Column)
    requires Owned(data, owner)
    requires forall p :: p in data ==> data[p].blockID != col.blockID
    ensures Owned(data[pos := col], owner[col.blockID := pos])
  {
  }

  /** The domain part of CoupledAdd: the grown view stores only
      positions of loaded columns within the world's height. */
  lemma DomainAfterAdd(data: map<Vector2i, Column>, v: WorldView, pos: Vector2i, col: Column, n: Noise, pal: Palette)
    requires StoredInColumns(data, v)
    ensures StoredInColumns(data[pos := col], Grown(v, n, pal, iset{pos}))
  {
    var v' := Grown(v, n, pal, iset{pos});
    forall q | q in v'.blocks || q in v'.lights
      ensures ColumnOfPos(q) in data[pos := col] && InWorldHeight(q.y)
    {
      assert q in v.blocks || q in v.lights || (ColumnOfPos(q) == pos && InWorldHeight(q.y));
    }
  }

  /** The cell part of CoupledAdd: each stored cell, old or new, is
      where the grown view says it is. */
  lemma CellsAfterAdd(data: map<Vector2i, Column>, v: WorldView, pos: Vector2i, col: Column, n: Noise, pal: Palette)
    requires CellsStored(data, v) && StoredInColumns(data, v) && pos !in data && col.Shaped()
    requires forall x, y, z :: InColumn(x, y, z) ==>
      col.lightLevel[x, y, z] == MAX_LIGHT && col.blockID[x, y, z] == GeneratedBlock(n, pal, pos, x, y, z)
    ensures CellsStored(data[pos := col], Grown(v, n, pal, iset{pos}))
  {
    var data', v' := data[pos := col], Grown(v, n, pal, iset{pos});
    forall p, c: Cell | p in data' && InColumn(c.x, c.y, c.z)
      ensures WorldPosOf(p, c) in v'.blocks && v'.blocks[WorldPosOf(p, c)] == data'[p].blockID[c.x, c.y, c.z]
      ensures WorldPosOf(p, c) in v'.lights && v'.lights[WorldPosOf(p, c)] == data'[p].lightLevel[c.x, c.y, c.z]
    {
      var w := WorldPosOf(p, c);
      if p == pos {
        WorldPosOfColumn(p, c);
        assert w !in v.blocks && w !in v.lights;
        GrownFills(v, n, pal, pos, c);
      } else {
        assert p in data && data'[p] == data[p];
        StoredCell(data, v, p, c);
        GrownKeeps(v, n, pal, iset{pos}, w);
      }
    }
  }

  /** One write of block id `b` into local cell `cell` of the column at
      `colPos`, against the ghost state before it. */
  datatype CellWrite = CellWrite(before: Snapshot, colPos: Vector2i, cell: Cell, b: UShort)

  /** Writing `b` into one cell of one column's block array, with every
      other array untouched, keeps the columns coupled to the view in which
      that cell's world position holds `b`. */
  twostate lemma CoupledAfterWrite(wr: CellWrite)
    requires old(Coupled(wr.before.data, wr.before.owner, wr.before.view))
    requires wr.colPos in wr.before.data && InColumn(wr.cell.x, wr.cell.y, wr.cell.z)
    requires wr.before.data[wr.colPos].blockID[wr.cell.x, wr.cell.y, wr.cell.z] == wr.b
    requires forall c: Cell {:trigger wr.before.data[wr.colPos].blockID[c.x, c.y, c.z]} ::
      InColumn(c.x, c.y, c.z) && c != wr.cell ==>
      wr.before.data[wr.colPos].blockID[c.x, c.y, c.z] == old(wr.before.data[wr.colPos].blockID[c.x, c.y, c.z])
    requires forall p :: p in wr.before.data && p != wr.colPos ==> unchanged(wr.before.data[p].blockID)
    requires forall p :: p in wr.before.data ==> unchanged(wr.before.data[p].lightLevel)
    ensures var w := WorldPosOf(wr.colPos, wr.cell);
      Coupled(wr.before.data, wr.before.owner, WithBlock(wr.before.view, w.x, w.y, w.z, wr.b))
  {
    var data, owner, v, colPos, cell, b := wr.before.data, wr.before.owner, wr.before.view, wr.colPos, wr.cell, wr.b;
    var w := WorldPosOf(colPos, cell);
    var v' := WithBlock(v, w.x, w.y, w.z, b);
    assert w in v.blocks && old(data[colPos].blockID[cell.x, cell.y, cell.z]) == v.blocks[w];
    forall p, c: Cell | p in data && InColumn(c.x, c.y, c.z)
      ensures WorldPosOf(p, c) in v'.blocks && v'.blocks[WorldPosOf(p, c)] == data[p].blockID[c.x, c.y, c.z]
      ensures WorldPosOf(p, c) in v'.lights && v'.lights[WorldPosOf(p, c)] == data[p].lightLevel[c.x, c.y, c.z]
    {
      var u := WorldPosOf(p, c);
      var ob, ol := old(data[p].blockID[c.x, c.y, c.z]), old(data[p].lightLevel[c.x, c.y, c.z]);
      assert u in v.blocks && v.blocks[u] == ob;
      assert u in v.lights && v.lights[u] == ol;
      if u == w {
        WorldPosOfInjective(p, c, colPos, cell);
      } else if p == colPos {
        assert c != cell;
      }
    }
    forall q | q in v'.blocks || q in v'.lights
      ensures ColumnOfPos(q) in data && InWorldHeight(q.y)
    {
      assert q in v.blocks || q in v.lights;
    }
  }

  class World {
    const worldType: TerrainType
    /** The terrain generator's noise and block ids. */
    const noise: Noise
    const palette: Palette
    /** The block registry the renderers consult. */
    const catalog: Catalog
    var loadedData: map<Vector2i, Column>
    ghost var Repr: set<object>

    /** Which column owns each block array; it makes the arrays of
        different columns distinct. */
    ghost var owner: map<array3<UShort>, Vector2i>

    /** The loaded columns' contents, as a value. */
    ghost var view: WorldView

    /** Every loaded column's arrays belong to the world, and the columns
        are coupled to the view. */
    ghost predicate Valid()
      reads this, Repr
    {
      (forall p :: p in loadedData ==> loadedData[p].blockID in Repr && loadedData[p].lightLevel in Repr) &&
      Coupled(loadedData, owner, view)
    }

    /** `new World(saveName, worldType)` with an empty dictionary. */
    constructor (worldType: TerrainType, noise: Noise, palette: Palette, catalog: Catalog)
      ensures Valid() && loadedData == map[] && Repr == {}
      ensures view == WorldView(imap[], imap[])
      ensures this.worldType == worldType && this.noise == noise && this.palette == palette && this.catalog == catalog
    {
      this.worldType := worldType;
      this.noise := noise;
      this.palette := palette;
      this.catalog := catalog;
      loadedData := map[];
      Repr := {};
      owner := map[];
      view := WorldView(imap[], imap[]);
    }

    /** The view stores nothing outside the world's height. */
    lemma OutsideHeightUnstored(pos: Vector3i)
      requires Valid()
      requires !InWorldHeight(pos.y)
      ensures pos !in view.blocks && pos !in view.lights
    {
      var p := ColumnOfPos(pos);
    }

    /** The view holds a loaded cell's light level. */
    lemma LightStored(p: Vector2i, c: Cell)
      requires Valid() && p in loadedData && InColumn(c.x, c.y, c.z)
      ensures WorldPosOf(p, c) in view.lights && view.lights[WorldPosOf(p, c)] == loadedData[p].lightLevel[c.x, c.y, c.z]
    {
    }

    // ------------------------------------------------------------------
    // GetBlockAt, all three overloads

    /** `GetBlockAt(worldX, worldY, worldZ, def)`. */
    function GetBlockAt(worldX: int, worldY: int, worldZ: int, def: UShort): (r: UShort)
      requires Valid()
      reads this, Repr
      ensures r == BlockIn(view, worldX, worldY, worldZ, def)
      decreases 1
    {
      var colPos := WorldToColumnCoords(worldX, worldZ);
      WorldPosOfParts(Vector3i(worldX, worldY, worldZ));
      GetBlockAtColumn(colPos, Mod(worldX, CHUNK_SIZE), worldY, Mod(worldZ, CHUNK_SIZE), def)
    }

    /** `GetBlockAt(Vector3i chunkPos, ...)`: moves y up by `chunkPos.y * WORLD_HEIGHT`. */
    function GetBlockAtChunk(chunkPos: Vector3i, localX: int, localY: int, localZ: int, def: UShort): (r: UShort)
      requires Valid()
      reads this, Repr
      ensures r == ChunkBlock(view, chunkPos, Cell(localX, localY, localZ), def)
    {
      GetBlockAtColumn(Vector2i(chunkPos.x, chunkPos.z), localX, localY + chunkPos.y * WORLD_HEIGHT, localZ, def)
    }

    /** `GetBlockAt(Vector2i colPos, ...)`: a local x or z outside the
        column is redirected through world coordinates to the neighbouring
        column, which recurses at most once because Mod yields in-range
        locals. */
    function GetBlockAtColumn(colPos: Vector2i, localX: int, localY: int, localZ: int, def: UShort): (r: UShort)
      requires Valid()
      reads this, Repr
      ensures r == BlockIn(view, colPos.x * CHUNK_SIZE + localX, localY, colPos.z * CHUNK_SIZE + localZ, def)
      decreases if InColumnXZ(localX, localZ) then 0 else 2
    {
      if localY < 0 || localY >= WORLD_HEIGHT * CHUNK_SIZE then
        OutsideHeightUnstored(Vector3i(colPos.x * CHUNK_SIZE + localX, localY, colPos.z * CHUNK_SIZE + localZ));
        def
      else if localX < 0 || localZ < 0 || localX >= CHUNK_SIZE || localZ >= CHUNK_SIZE then
        GetBlockAt(colPos.x * CHUNK_SIZE + localX, localY, colPos.z * CHUNK_SIZE + localZ, def)
      else
        var c := Cell(localX, localY, localZ);
        WorldPosOfColumn(colPos, c);
        if colPos in loadedData then loadedData[colPos].blockID[c.x, c.y, c.z] else def
    }

    // ------------------------------------------------------------------
    // GetLightAt, all three overloads

    /** `GetLightAt(worldX, worldY, worldZ, def)`. */
    function GetLightAt(worldX: int, worldY: int, worldZ: int, def: Byte): (r: Byte)
      requires Valid()
      reads this, Repr
      ensures r == LightIn(view, worldX, worldY, worldZ, def)
      decreases 1
    {
      var colPos := WorldToColumnCoords(worldX, worldZ);
      WorldPosOfParts(Vector3i(worldX, worldY, worldZ));
      GetLightAtColumn(colPos, Mod(worldX, CHUNK_SIZE), worldY, Mod(worldZ, CHUNK_SIZE), def)
    }

    /** `GetLightAt(Vector3i chunkPos, ...)`. */
    function GetLightAtChunk(chunkPos: Vector3i, localX: int, localY: int, localZ: int, def: Byte): (r: Byte)
      requires Valid()
      reads this, Repr
      ensures r == ChunkLight(view, chunkPos, Cell(localX, localY, localZ), def)
    {
      GetLightAtColumn(Vector2i(chunkPos.x, chunkPos.z), localX, localY + chunkPos.y * WORLD_HEIGHT, localZ, def)
    }

    /** `GetLightAt(Vector2i colPos, ...)`, redirecting as GetBlockAtColumn does. */
    function GetLightAtColumn(colPos: Vector2i, localX: int, localY: int, localZ: int, def: Byte): (r: Byte)
      requires Valid()
      reads this, Repr
      ensures r == LightIn(view, colPos.x * CHUNK_SIZE + localX, localY, colPos.z * CHUNK_SIZE + localZ, def)
      decreases if InColumnXZ(localX, localZ) then 0 else 2
    {
      if localY < 0 || localY >= WORLD_HEIGHT * CHUNK_SIZE then
        OutsideHeightUnstored(Vector3i(colPos.x * CHUNK_SIZE + localX, localY, colPos.z * CHUNK_SIZE + localZ));
        def
      else if localX < 0 || localZ < 0 || localX >= CHUNK_SIZE || localZ >= CHUNK_SIZE then
        GetLightAt(colPos.x * CHUNK_SIZE + localX, localY, colPos.z * CHUNK_SIZE + localZ, def)
      else
        var c := Cell(localX, localY, localZ);
        WorldPosOfColumn(colPos, c);
        if colPos in loadedData then LightStored(colPos, c); loadedData[colPos].lightLevel[c.x, c.y, c.z] else def
    }

    // ------------------------------------------------------------------
    // SetBlockAt

    /** `SetBlockAt(worldX, worldY, worldZ, newBlock)`. On an unloaded
        column nothing happens. On a loaded one exactly the cell at world
        (worldX, worldY, worldZ) takes `newBlock`; the old block's OnBreak
        runs before the write and the new block's OnPlace after it. The
        source does not check y, so a loaded column needs y in range. */
    method SetBlockAt(worldX: int, worldY: int, worldZ: int, newBlock: UShort) returns (hooks: seq<Hook>)
      requires Valid()
      requires WorldToColumnCoords(worldX, worldZ) in loadedData ==> InWorldHeight(worldY)
      modifies this`view, if WorldToColumnCoords(worldX, worldZ) in loadedData
               then {loadedData[WorldToColumnCoords(worldX, worldZ)].blockID} else {}
      ensures Valid() && Repr == old(Repr)
      ensures view == if WorldToColumnCoords(worldX, worldZ) in loadedData
                      then WithBlock(old(view), worldX, worldY, worldZ, newBlock) else old(view)
      ensures hooks ==
        if WorldToColumnCoords(worldX, worldZ) in loadedData
        then [OnBreak(old(BlockIn(view, worldX, worldY, worldZ, 0)), worldX, worldY, worldZ, newBlock),
              OnPlace(newBlock, worldX, worldY, worldZ, old(BlockIn(view, worldX, worldY, worldZ, 0)))]
        else []
    {
      var colPos := WorldToColumnCoords(worldX, worldZ);
      hooks := [];
      if colPos in loadedData {
        var col := loadedData[colPos];
        var localX := Mod(worldX, CHUNK_SIZE);
        var localY := worldY;
        var localZ := Mod(worldZ, CHUNK_SIZE);
        ghost var pos, cell := Vector3i(worldX, worldY, worldZ), Cell(localX, localY, localZ);
        WorldPosOfParts(pos);
        assert WorldPosOf(colPos, cell) == pos && InColumn(localX, localY, localZ);
        var oldBlock := col.blockID[localX, localY, localZ];
        ghost var before := Snapshot(loadedData, owner, view);
        assert pos in view.blocks && view.blocks[pos] == oldBlock;
        assert oldBlock == BlockIn(view, worldX, worldY, worldZ, 0);
        hooks := hooks + [OnBreak(oldBlock, worldX, worldY, worldZ, newBlock)];
        col.blockID[localX, localY, localZ] := newBlock;
        view := WithBlock(view, worldX, worldY, worldZ, newBlock);
        hooks := hooks + [OnPlace(newBlock, worldX, worldY, worldZ, oldBlock)];
        assert hooks == [OnBreak(oldBlock, worldX, worldY, worldZ, newBlock), OnPlace(newBlock, worldX, worldY, worldZ, oldBlock)];
        forall p | p in loadedData && p != colPos
          ensures unchanged(loadedData[p].blockID)
        {
          assert owner[loadedData[p].blockID] != owner[col.blockID];
        }
        CoupledAfterWrite(CellWrite(before, colPos, cell, newBlock));
      }
    }

    // ------------------------------------------------------------------
    // LoadInRange

    /** The first loop of LoadInRange: every loaded position outside the
        rectangle, each once, in the dictionary's (unspecified) order. */
    method MarkRemoval(min: Vector2i, max: Vector2i) returns (removal: seq<Vector2i>)
      ensures Distinct(removal)
      ensures forall p :: p in removal <==> p in loadedData && !InRect(p, min, max)
    {
      removal := [];
      var keys := loadedData.Keys;
      while keys != {}
        invariant keys <= loadedData.Keys
        invariant Distinct(removal)
        invariant forall p :: p in removal <==> p in loadedData && p !in keys && !InRect(p, min, max)
        decreases |keys|
      {
        var pos :| pos in keys;
        if pos.x < min.x || pos.z < min.z || pos.x > max.x || pos.z > max.z {
          removal := removal + [pos];
        }
        keys := keys - {pos};
      }
    }

    /** `loadedData.Remove(pos)`: the column's cells leave the view. */
    method RemoveColumn(pos: Vector2i)
      requires Valid()
      modifies this`loadedData, this`view
      ensures Valid()
      ensures loadedData == old(loadedData) - {pos}
      ensures view == Without(old(view), iset{pos})
    {
      ghost var before := Snapshot(loadedData, owner, view);
      loadedData, view := loadedData - {pos}, Without(view, iset{pos});
      CoupledFrame(before);
      CoupledAfterRemove(before.data, before.owner, before.view, pos, loadedData, view);
    }

    /** The second loop of LoadInRange: each marked position is removed. */
    method RemoveColumns(removal: seq<Vector2i>)
      requires Valid()
      modifies this`loadedData, this`view
      ensures Valid()
      ensures forall p :: p in loadedData <==> p in old(loadedData) && p !in removal
      ensures forall p :: p in loadedData ==> loadedData[p] == old(loadedData[p])
      ensures view == Without(old(view), iset p | p in removal)
    {
      ghost var gone: iset<Vector2i> := iset{};
      for i := 0 to |removal|
        invariant Valid()
        invariant forall p :: p in gone <==> p in removal[..i]
        invariant forall p :: p in loadedData <==> p in old(loadedData) && p !in gone
        invariant forall p :: p in loadedData ==> loadedData[p] == old(loadedData[p])
        invariant view == Without(old(view), gone)
      {
        RemoveColumn(removal[i]);
        WithoutTwice(old(view), gone, iset{removal[i]});
        gone := gone + iset{removal[i]};
        PrefixElements(removal, i, i + 1);
      }
      assert removal[..|removal|] == removal;
      assert gone == iset p | p in removal;
    }

    /** The addition loops of LoadInRange: every position of the rectangle
        that is not loaded, by x and then by z. */
    method MarkAddition(min: Vector2i, max: Vector2i) returns (addition: seq<Vector2i>)
      ensures forall i, j :: 0 <= i < j < |addition| ==> RowMajorBefore(addition[i], addition[j])
      ensures forall p :: p in addition <==> InRect(p, min, max) && p !in loadedData
    {
      addition := [];
      var x := min.x;
      while x <= max.x
        invariant min.x <= x && (x <= max.x + 1 || x == min.x)
        invariant forall i, j :: 0 <= i < j < |addition| ==> RowMajorBefore(addition[i], addition[j])
        invariant forall p :: p in addition <==> InRect(p, min, max) && p !in loadedData && p.x < x
        decreases max.x - x
      {
        var z := min.z;
        while z <= max.z
          invariant min.z <= z && (z <= max.z + 1 || z == min.z)
          invariant forall i, j :: 0 <= i < j < |addition| ==> RowMajorBefore(addition[i], addition[j])
          invariant forall p :: p in addition <==>
            InRect(p, min, max) && p !in loadedData && (p.x < x || (p.x == x && p.z < z))
          decreases max.z - z
        {
          var pos := Vector2i(x, z);
          if pos !in loadedData {
            addition := addition + [pos];
          }
          z := z + 1;
        }
        x := x + 1;
      }
    }

    /** `loadedData.Add(pos, col)` for a column that TerrainGen.Generate
        has just filled for `pos`: its cells join the view. */
    method AddColumn(pos: Vector2i, col: Column)
      requires Valid() && pos !in loadedData
      requires col.Shaped() && col.blockID !in Repr && col.lightLevel !in Repr
      requires forall x, y, z :: InColumn(x, y, z) ==>
        col.lightLevel[x, y, z] == MAX_LIGHT && col.blockID[x, y, z] == GeneratedBlock(noise, palette, pos, x, y, z)
      modifies this`loadedData, this`Repr, this`owner, this`view
      ensures Valid()
      ensures loadedData == old(loadedData)[pos := col]
      ensures view == Grown(old(view), noise, palette, iset{pos})
    {
      ghost var before := Snapshot(loadedData, owner, view);
      loadedData, Repr, owner, view := loadedData[pos := col], Repr + {col.blockID} + {col.lightLevel},
        owner[col.blockID := pos], Grown(view, noise, palette, iset{pos});
      CoupledFrame(before);
      CoupledAdd(before.data, before.owner, before.view, pos, col, noise, palette, loadedData, owner, view);
    }

    /** One round of the fourth loop of LoadInRange: `TerrainGen.Generate`
        for `pos`, then `loadedData.Add(pos, col)`. */
    method LoadColumn(pos: Vector2i)
      requires Valid() && pos !in loadedData
      modifies this`loadedData, this`Repr, this`owner, this`view
      ensures Valid()
      ensures loadedData.Keys == old(loadedData).Keys + {pos}
      ensures forall p :: p in old(loadedData) ==> loadedData[p] == old(loadedData[p])
      ensures view == Grown(old(view), noise, palette, iset{pos})
    {
      var col := Generate(worldType, pos, noise, palette);
      AddColumn(pos, col);
    }

    /** The fourth loop of LoadInRange: every marked position is generated and added. */
    method LoadColumns(addition: seq<Vector2i>)
      requires Valid() && Distinct(addition)
      requires forall p :: p in addition ==> p !in loadedData
      modifies this`loadedData, this`Repr, this`owner, this`view
      ensures Valid()
      ensures forall p :: p in loadedData <==> p in old(loadedData) || p in addition
      ensures forall p :: p in old(loadedData) ==> loadedData[p] == old(loadedData[p])
      ensures view == Grown(old(view), noise, palette, iset p | p in addition)
    {
      ghost var added: iset<Vector2i> := iset{};
      for i := 0 to |addition|
        invariant Valid()
        invariant forall p :: p in added <==> p in addition[..i]
        invariant forall p :: p in loadedData <==> p in old(loadedData) || p in added
        invariant forall p :: p in old(loadedData) ==> loadedData[p] == old(loadedData[p])
        invariant view == Grown(old(view), noise, palette, added)
      {
        assert addition[i] !in addition[..i];
        LoadColumn(addition[i]);
        GrownTwice(old(view), noise, palette, added, iset{addition[i]});
        added := added + iset{addition[i]};
        PrefixElements(addition, i, i + 1);
      }
      assert addition[..|addition|] == addition;
      assert added == iset p | p in addition;
    }

    /** The third loop of LoadInRange: one ChunkUnloadEvent per removed
        position, in removal order. */
    method UnloadEvents(removal: seq<Vector2i>) returns (events: seq<Event>)
      ensures |events| == |removal|
      ensures forall k :: 0 <= k < |removal| ==> events[k] == ChunkUnload(removal[k])
    {
      events := [];
      for i := 0 to |removal|
        invariant |events| == i
        invariant forall k :: 0 <= k < i ==> events[k] == ChunkUnload(removal[k])
      {
        events := events + [ChunkUnload(removal[i])];
      }
    }

    /** The fifth loop of LoadInRange: one ChunkLoadEvent per added
        position, in addition order, carrying RenderColumn's meshes. */
    method LoadEvents(addition: seq<Vector2i>) returns (events: seq<Event>)
      requires Valid()
      ensures |events| == |addition|
      ensures forall k :: 0 <= k < |addition| ==>
        events[k] == ChunkLoad(addition[k], ColumnMeshes(view, catalog, addition[k]))
    {
      events := [];
      for i := 0 to |addition|
        invariant |events| == i
        invariant forall k :: 0 <= k < i ==>
          events[k] == ChunkLoad(addition[k], ColumnMeshes(view, catalog, addition[k]))
      {
        var meshes := RenderColumn(addition[i]);
        events := events + [ChunkLoad(addition[i], meshes)];
      }
    }

    /** `LoadInRange(min, max)`: afterwards exactly the columns of the
        inclusive rectangle are loaded; those already loaded inside it keep
        their Column, the others are generated. The events report every
        unloaded position once, before any load, and every loaded position
        once, by x and then z, with the meshes of its column rendered after
        all additions. */
    method LoadInRange(min: Vector2i, max: Vector2i) returns (events: seq<Event>)
      requires Valid()
      modifies this`loadedData, this`Repr, this`owner, this`view
      ensures Valid()
      ensures forall p :: p in loadedData <==> InRect(p, min, max)
      ensures forall p :: p in old(loadedData) && InRect(p, min, max) ==> loadedData[p] == old(loadedData[p])
      ensures view == Grown(Without(old(view), iset p | p in old(loadedData) && !InRect(p, min, max)),
                            noise, palette, iset p | InRect(p, min, max) && p !in old(loadedData))
      ensures ReconcileEvents(events, old(loadedData).Keys, min, max, MeshesOf(view, catalog))
    {
      var removal := UnloadOutside(min, max);
      var unloads := UnloadEvents(removal);
      ghost var kept := loadedData;
      var addition := LoadInside(min, max);
      assert (iset p | InRect(p, min, max) && p !in kept) == (iset p | InRect(p, min, max) && p !in old(loadedData));
      label Loaded:
      var loads := LoadEvents(addition);
      ValidKept@Loaded(this);
      events := unloads + loads;
      EventsReconcile(removal, addition, unloads, loads, old(loadedData).Keys, min, max,
                      MeshesOf(view, catalog));
    }

    /** The first two loops of LoadInRange: every loaded column outside the
        rectangle is marked, then dropped. */
    method UnloadOutside(min: Vector2i, max: Vector2i) returns (removal: seq<Vector2i>)
      requires Valid()
      modifies this`loadedData, this`view
      ensures Valid()
      ensures Distinct(removal)
      ensures forall p :: p in removal <==> p in old(loadedData) && !InRect(p, min, max)
      ensures forall p :: p in loadedData <==> p in old(loadedData) && InRect(p, min, max)
      ensures forall p :: p in loadedData ==> loadedData[p] == old(loadedData[p])
      ensures view == Without(old(view), iset p | p in old(loadedData) && !InRect(p, min, max))
    {
      removal := MarkRemoval(min, max);
      RemoveColumns(removal);
      assert (iset p | p in removal) == (iset p | p in old(loadedData) && !InRect(p, min, max));
    }

    /** The third and fourth loops of LoadInRange: every position of the
        rectangle that is not loaded is marked, by x and then z, and then
        generated. */
    method LoadInside(min: Vector2i, max: Vector2i) returns (addition: seq<Vector2i>)
      requires Valid()
      modifies this`loadedData, this`Repr, this`owner, this`view
      ensures Valid()
      ensures forall i, j :: 0 <= i < j < |addition| ==> RowMajorBefore(addition[i], addition[j])
      ensures forall p :: p in addition <==> InRect(p, min, max) && p !in old(loadedData)
      ensures forall p :: p in loadedData <==> p in old(loadedData) || (InRect(p, min, max) && p !in old(loadedData))
      ensures forall p :: p in old(loadedData) ==> loadedData[p] == old(loadedData[p])
      ensures view == Grown(old(view), noise, palette, iset p | InRect(p, min, max) && p !in old(loadedData))
    {
      addition := MarkAddition(min, max);
      LoadColumns(addition);
      assert (iset p | p in addition) == (iset p | InRect(p, min, max) && p !in old(loadedData));
    }

    // ------------------------------------------------------------------
    // Rendering

    /** The body of RenderChunk's loops for the local cell (x, y, z): the
        block's renderer, when it has one, renders it. */
    method RenderCell(pos: Vector3i, x: int, y: int, z: int) returns (cs: seq<Call>)
      requires Valid()
      ensures cs == CellCalls(view, catalog, pos, Cell(x, y, z))
    {
      var block := GetBlockAtChunk(pos, x, y, z, 0);
      var renderer := catalog.renderer(block);
      cs := [];
      match renderer {
        case NoRenderer =>
        case FullBlock(rb) =>
          cs := rb.Render(this, pos, x, y, z);
        case OtherRenderer(t) =>
          cs := [Delegated(t, pos, x, y, z)];
      }
    }

    /** The innermost loop of RenderChunk: the cells (x, y, 0) to
        (x, y, CHUNK_SIZE - 1), in turn. */
    method RenderRow(pos: Vector3i, x: int, y: int) returns (calls: seq<Call>)
      requires Valid()
      ensures calls == FlatCells(CellCallsAt(view, catalog, pos), x, y, CHUNK_SIZE)
    {
      ghost var f := CellCallsAt(view, catalog, pos);
      calls := [];
      for z := 0 to CHUNK_SIZE
        invariant calls == FlatCells(f, x, y, z)
      {
        var cs := RenderCell(pos, x, y, z);
        FlatCellsNext(f, [], x, y, z, cs);
        calls := calls + cs;
      }
    }

    /** The middle loop of RenderChunk: the rows y = 0 to CHUNK_SIZE - 1 of
        the plane at x. */
    method RenderPlane(pos: Vector3i, x: int) returns (calls: seq<Call>)
      requires Valid()
      ensures calls == FlatLines(CellCallsAt(view, catalog, pos), CHUNK_SIZE, x, CHUNK_SIZE)
    {
      ghost var f := CellCallsAt(view, catalog, pos);
      calls := [];
      for y := 0 to CHUNK_SIZE
        invariant calls == FlatLines(f, CHUNK_SIZE, x, y)
      {
        var row := RenderRow(pos, x, y);
        FlatLinesNext(f, [], CHUNK_SIZE, x, y);
        calls := calls + row;
      }
    }

    /** `RenderChunk(pos)`: the triple loop over the chunk's local cells
        (x outermost, then y, then z), each block handed to its renderer
        when it has one. The mesh the calls fill is built by
        CubeRenderHelper, which is not part of this model, so the result is
        the sequence of calls. */
    method RenderChunk(pos: Vector3i) returns (calls: seq<Call>)
      requires Valid()
      ensures calls == ChunkCalls(view, catalog, pos)
    {
      calls := [];
      for x := 0 to CHUNK_SIZE
        invariant calls == ChunkPlanes(view, catalog, pos, x)
      {
        var plane := RenderPlane(pos, x);
        calls := calls + plane;
      }
    }

    /** `RenderColumn(pos)`: one RenderChunk per height, bottom up. */
    method RenderColumn(pos: Vector2i) returns (meshes: seq<seq<Call>>)
      requires Valid()
      ensures meshes == ColumnMeshes(view, catalog, pos)
    {
      meshes := [];
      for h := 0 to WORLD_HEIGHT
        invariant |meshes| == h
        invariant forall i :: 0 <= i < h ==> meshes[i] == ChunkCalls(view, catalog, Vector3i(pos.x, i, pos.z))
      {
        var chunkPos := Vector3i(pos.x, h, pos.z);
        var mesh := RenderChunk(chunkPos);
        meshes := meshes + [mesh];
      }
      IsColumnMeshes(meshes, view, catalog, pos);
    }
  }
}
