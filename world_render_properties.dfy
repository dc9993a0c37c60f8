/** What RenderFullBlock and the world's reads promise, stated on the
    value view of the world: which faces a full block draws, how many, and
    how cells outside the loaded columns read. */
module WorldRenderProperties {
  import opened CSharp
  import opened WorldConstants
  import opened Vectors
  import opened MiscMath
  import opened FaceGeometry
  import opened Views
  import opened World

  /** The faces the face calls in `calls` draw. */
  function FacesDrawn(calls: seq<Call>): set<Face>
  {
    set i | 0 <= i < |calls| && calls[i].FaceCall? :: calls[i].face
  }

  /** The faces among `fs` whose neighbour lets them show. */
  ghost function VisibleAmong(v: WorldView, catalog: Catalog, chunkPos: Vector3i, fs: seq<Face>, c: Cell): set<Face>
  {
    set f | f in fs && Visible(v, catalog, chunkPos, f, c)
  }

  /** `calls` draws the visible faces among `fs`, each once, every call
      with its face's samples. */
  ghost predicate DrawsVisible(rb: RenderFullBlock, v: WorldView, catalog: Catalog, chunkPos: Vector3i,
                               calls: seq<Call>, fs: seq<Face>, c: Cell)
  {
    (forall i :: 0 <= i < |calls| ==>
      calls[i].FaceCall? && Visible(v, catalog, chunkPos, calls[i].face, c) &&
      calls[i] == rb.Drawn(v, chunkPos, calls[i].face, c)) &&
    FacesDrawn(calls) == VisibleAmong(v, catalog, chunkPos, fs, c) &&
    |calls| == |FacesDrawn(calls)|
  }

  /** A visible face not tested before adds its call. */
  lemma DrawnStep(rb: RenderFullBlock, v: WorldView, catalog: Catalog, chunkPos: Vector3i,
                  calls: seq<Call>, fs: seq<Face>, f: Face, c: Cell)
    requires DrawsVisible(rb, v, catalog, chunkPos, calls, fs, c)
    requires f !in fs && Visible(v, catalog, chunkPos, f, c)
    ensures DrawsVisible(rb, v, catalog, chunkPos, calls + [rb.Drawn(v, chunkPos, f, c)], fs + [f], c)
  {
    var calls' := calls + [rb.Drawn(v, chunkPos, f, c)];
    forall i | 0 <= i < |calls'|
      ensures calls'[i].FaceCall? && Visible(v, catalog, chunkPos, calls'[i].face, c) &&
        calls'[i] == rb.Drawn(v, chunkPos, calls'[i].face, c)
    {
      if i < |calls| {
        assert calls'[i] == calls[i];
      } else {
        var d := rb.Drawn(v, chunkPos, f, c);
        assert calls'[i] == d && d.FaceCall? && d.face == f;
      }
    }
    forall g ensures g in FacesDrawn(calls') <==> g in FacesDrawn(calls) + {f} {
      if g in FacesDrawn(calls') {
        var i :| 0 <= i < |calls'| && calls'[i].FaceCall? && calls'[i].face == g;
        if i < |calls| { assert calls[i] == calls'[i]; }
      }
      if g in FacesDrawn(calls) {
        var i :| 0 <= i < |calls| && calls[i].FaceCall? && calls[i].face == g;
        assert calls'[i] == calls[i];
      }
      if g == f {
        assert calls'[|calls|].face == f;
      }
    }
    assert VisibleAmong(v, catalog, chunkPos, fs + [f], c) == VisibleAmong(v, catalog, chunkPos, fs, c) + {f};
  }

  /** A face that does not show adds nothing. */
  lemma HiddenStep(rb: RenderFullBlock, v: WorldView, catalog: Catalog, chunkPos: Vector3i,
                   calls: seq<Call>, fs: seq<Face>, f: Face, c: Cell)
    requires DrawsVisible(rb, v, catalog, chunkPos, calls, fs, c)
    requires !Visible(v, catalog, chunkPos, f, c)
    ensures DrawsVisible(rb, v, catalog, chunkPos, calls, fs + [f], c)
  {
    assert VisibleAmong(v, catalog, chunkPos, fs + [f], c) == VisibleAmong(v, catalog, chunkPos, fs, c);
  }

  /** After the first k face blocks of Render: every call draws a visible
      face with that face's samples, the faces drawn are exactly the
      visible ones among the first k of RenderOrder, and no face is drawn
      twice. */
  lemma {:induction false} EmitFacesShape(rb: RenderFullBlock, v: WorldView, catalog: Catalog, chunkPos: Vector3i,
                                          k: nat, c: Cell)
    requires k <= |RenderOrder|
    ensures DrawsVisible(rb, v, catalog, chunkPos, rb.EmitFaces(v, catalog, chunkPos, k, c), RenderOrder[..k], c)
  {
    if k == 0 {
      var calls := rb.EmitFaces(v, catalog, chunkPos, k, c);
      assert calls == [];
      assert FacesDrawn(calls) == {};
      assert VisibleAmong(v, catalog, chunkPos, RenderOrder[..k], c) == {};
    } else {
      var f := RenderOrder[k - 1];
      var pre := rb.EmitFaces(v, catalog, chunkPos, k - 1, c);
      EmitFacesShape(rb, v, catalog, chunkPos, k - 1, c);
      assert RenderOrder[..k] == RenderOrder[..k - 1] + [f];
      assert rb.EmitFaces(v, catalog, chunkPos, k, c) == pre + rb.Emit(v, catalog, chunkPos, f, c);
      if Visible(v, catalog, chunkPos, f, c) {
        RenderOrderCoversEachFaceOnce();
        assert f !in RenderOrder[..k - 1];
        assert rb.Emit(v, catalog, chunkPos, f, c) == [rb.Drawn(v, chunkPos, f, c)];
        DrawnStep(rb, v, catalog, chunkPos, pre, RenderOrder[..k - 1], f, c);
      } else {
        assert pre + rb.Emit(v, catalog, chunkPos, f, c) == pre;
        HiddenStep(rb, v, catalog, chunkPos, pre, RenderOrder[..k - 1], f, c);
      }
    }
  }

  /** A full block draws face f iff the cell across f does not block light
      (reading AIR where nothing is loaded), draws each face at most once,
      so the number of calls is the number of such faces, and each call
      carries its face's nine light samples. */
  lemma FacesDrawnAreVisible(rb: RenderFullBlock, v: WorldView, catalog: Catalog, chunkPos: Vector3i,
                             x: int, y: int, z: int)
    ensures var calls, c := rb.Calls(v, catalog, chunkPos, x, y, z), Cell(x, y, z);
      (forall f :: f in FacesDrawn(calls) <==> !catalog.isOpaque(ChunkBlock(v, chunkPos, Neighbour(f, c), AIR_ID))) &&
      |calls| == |set f | f in RenderOrder && Visible(v, catalog, chunkPos, f, c)| &&
      (forall i :: 0 <= i < |calls| ==>
        calls[i].FaceCall? && calls[i].light == Samples(v, chunkPos, calls[i].face, c) &&
        calls[i].layout == rb.layout && calls[i].smooth &&
        (calls[i].x, calls[i].y, calls[i].z) == (x, y, z))
  {
    var c := Cell(x, y, z);
    EmitFacesShape(rb, v, catalog, chunkPos, |RenderOrder|, c);
    RenderOrderCoversEachFaceOnce();
    assert RenderOrder[..|RenderOrder|] == RenderOrder;
  }

  /** The top face is drawn iff the block at (x, y + 1, z) is not opaque. */
  lemma TopFaceGatedByBlockAbove(rb: RenderFullBlock, v: WorldView, catalog: Catalog, chunkPos: Vector3i,
                                 x: int, y: int, z: int)
    ensures Top in FacesDrawn(rb.Calls(v, catalog, chunkPos, x, y, z)) <==>
      !catalog.isOpaque(ChunkBlock(v, chunkPos, Cell(x, y + 1, z), AIR_ID))
  {
    FacesDrawnAreVisible(rb, v, catalog, chunkPos, x, y, z);
  }

  /** A neighbour the view does not store reads as AIR, so a face towards
      an unloaded column is drawn exactly when AIR is not opaque; a light
      sample the view does not store reads as 0. */
  lemma UnloadedReadsAsAirAndDark(v: WorldView, catalog: Catalog, chunkPos: Vector3i, f: Face, c: Cell, s: Cell)
    requires var n := Neighbour(f, c);
      Vector3i(chunkPos.x * CHUNK_SIZE + n.x, n.y + chunkPos.y * WORLD_HEIGHT, chunkPos.z * CHUNK_SIZE + n.z) !in v.blocks
    requires Vector3i(chunkPos.x * CHUNK_SIZE + s.x, s.y + chunkPos.y * WORLD_HEIGHT, chunkPos.z * CHUNK_SIZE + s.z) !in v.lights
    ensures Visible(v, catalog, chunkPos, f, c) <==> !catalog.isOpaque(AIR_ID)
    ensures Sample(v, chunkPos, s) == 0
  {
  }

  /** The chunk-relative reads add `chunkPos.y * WORLD_HEIGHT` to y; that
      is the chunk's vertical offset because WORLD_HEIGHT equals
      CHUNK_SIZE. */
  lemma ChunkReadAtChunkOffset(w: World, chunkPos: Vector3i, x: int, y: int, z: int, defB: UShort, defL: Byte)
    requires w.Valid()
    ensures w.GetBlockAtChunk(chunkPos, x, y, z, defB) ==
      w.GetBlockAt(chunkPos.x * CHUNK_SIZE + x, chunkPos.y * CHUNK_SIZE + y, chunkPos.z * CHUNK_SIZE + z, defB)
    ensures w.GetLightAtChunk(chunkPos, x, y, z, defL) ==
      w.GetLightAt(chunkPos.x * CHUNK_SIZE + x, chunkPos.y * CHUNK_SIZE + y, chunkPos.z * CHUNK_SIZE + z, defL)
  {
  }

  /** A column-relative read with any local x and z is the world read at
      `colPos * CHUNK_SIZE + local`. */
  lemma ColumnReadIsWorldRead(w: World, colPos: Vector2i, x: int, y: int, z: int, defB: UShort, defL: Byte)
    requires w.Valid()
    ensures w.GetBlockAtColumn(colPos, x, y, z, defB) ==
      w.GetBlockAt(colPos.x * CHUNK_SIZE + x, y, colPos.z * CHUNK_SIZE + z, defB)
    ensures w.GetLightAtColumn(colPos, x, y, z, defL) ==
      w.GetLightAt(colPos.x * CHUNK_SIZE + x, y, colPos.z * CHUNK_SIZE + z, defL)
  {
  }

  /** Against the dictionary itself: a read outside the world's height or
      in an unloaded column yields the default; any other read yields the
      cell (Mod x, y, Mod z) of the containing column. */
  lemma ReadsAgainstDictionary(w: World, wx: int, wy: int, wz: int, defB: UShort, defL: Byte)
    requires w.Valid()
    ensures var p := WorldToColumnCoords(wx, wz);
      if !InWorldHeight(wy) || p !in w.loadedData then
        w.GetBlockAt(wx, wy, wz, defB) == defB && w.GetLightAt(wx, wy, wz, defL) == defL
      else
        w.GetBlockAt(wx, wy, wz, defB) == w.loadedData[p].blockID[Mod(wx, CHUNK_SIZE), wy, Mod(wz, CHUNK_SIZE)] &&
        w.GetLightAt(wx, wy, wz, defL) == w.loadedData[p].lightLevel[Mod(wx, CHUNK_SIZE), wy, Mod(wz, CHUNK_SIZE)]
  {
    var pos := Vector3i(wx, wy, wz);
    var p := ColumnOfPos(pos);
    WorldPosOfParts(pos);
    ModProperties(wx, CHUNK_SIZE);
    ModProperties(wz, CHUNK_SIZE);
    if InWorldHeight(wy) && p in w.loadedData {
      var c := Cell(Mod(wx, CHUNK_SIZE), wy, Mod(wz, CHUNK_SIZE));
      StoredCell(w.loadedData, w.view, p, c);
    }
  }
}
