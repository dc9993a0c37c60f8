# Voxel world core of block-game, in Dafny

block-game is a Unity voxel engine. Its source holds two iterations of the same core side by side, and this project models both.

**The World/Data iteration** (`World`, `Column`, `TerrainGen`, `RenderFullBlock`, the two-buffer `MeshBuildInfo`):
- A dictionary maps a column position (`Vector2i`) to a `Column`. A column holds two fixed-shape 3D arrays, block ids and light levels, of 12 x 144 x 12 cells.
- `GetBlockAt` and `GetLightAt` come in three overloads: world coordinates, chunk-local and column-local. Each returns a default outside the loaded columns or the world's height, and a column-local read with x or z outside the column redirects through world coordinates.
- `SetBlockAt` writes one cell between the old block's `OnBreak` and the new block's `OnPlace`.
- `LoadInRange` reconciles the loaded set against a rectangle. It removes the columns outside it, generates the missing ones with `TerrainGen.Generate`, and reports unload and load events. Each load event carries the column's meshes built by `RenderColumn`.
- `RenderColumn` calls `RenderChunk` once per chunk height. `RenderChunk` visits every cell of a chunk and hands each block to its renderer. `RenderFullBlock` draws the faces of a cube whose neighbour is not opaque, each with the light of the nine cells in front of the face.

**The Rendering iteration** (`GameWorld`, `ChunkColumn`, `Chunk`, `Block`, `BlockAir`, `ListBlocks`, `CubeRenderer`, the single-buffer `MeshBuildInfo`):
- `GameWorld` keeps loaded `ChunkColumn`s by location, reads blocks and light with C# truncating division corrected to floor, writes blocks and marks chunks for re-meshing.
- `ChunkColumn.GenerateTerrain` lays stone, dirt and one grass cell along each vertical line.
- `Chunk.GenerateMesh` asks every block of the chunk to render into a `MeshBuildInfo`, and `Chunk.LateUpdate` rebuilds and publishes the mesh of a modified chunk.
- `Block.Render` samples light around each visible face and calls `CubeRenderer`. `CubeRenderer` appends four vertices, four colours, six triangle indices and four texture coordinates per face.

**How the model is built:**
- Values become datatypes: vectors, texture layouts, mesh contents and render calls.
- Objects whose fields the source updates become classes whose methods have `modifies` clauses: `World`, `Column`, `GameWorld`, `ChunkColumn`, `Chunk`, `ListBlocks`, `Block` and both `MeshBuildInfo`s.
- Each world class carries a ghost value of what its loaded columns store, keyed by world position (`view` and `contents`). Its validity predicate couples that value to the arrays. Every read is proved to return what that value says. `World.SetBlockAt` and `GameWorld.SetBlockAt` are proved to change it in exactly the addressed cell, and `World.LoadInRange` to change it by whole generated or removed columns. `ChunkColumn.GenerateTerrain` writes a column's array outside this coupling.

## Model

| member | source | states |
|---|---|---|
| Vectors.Vector2i.Equals | Assets/Scripts/Libs/Vectors.cs:22-25 | two column positions are Equal exactly when they are the same value |
| Vectors.Vector3i.Equals | Assets/Scripts/Libs/Vectors.cs:58-61 | two chunk positions are Equal exactly when they are the same value |
| Vectors.PlusComponentwise | Assets/Scripts/Libs/Vectors.cs:27-35 | `+` and `-` act on each component separately, for both vector types |
| Vectors.PlusMinusInverse | Assets/Scripts/Libs/Vectors.cs:63-71 | subtracting b undoes adding b and the other way round, and `+` commutes, for both vector types |
| Vectors.Vector3i.DistanceSquaredAsWritten | Assets/Scripts/Libs/Vectors.cs:50-56 | the quantity under the square root as written, never negative |
| Vectors.Vector3i.DistanceSquared | Assets/Scripts/Libs/Vectors.cs:50-56 | the corrected quantity is zero exactly when the two positions are equal |
| Vectors.DistanceAsWrittenIgnoresY | Assets/Scripts/Libs/Vectors.cs:53 | two different positions one above the other are at distance 0 as written and at squared distance 25 once corrected |
| CSharp.DivRem | Assets/Scripts/Libs/MiscMath.cs:8 | C# `/` and `%` satisfy a == b*q + r, and the remainder is smaller than the divisor and takes the sign of the dividend |
| CSharp.DivVersusFloor | Assets/Scripts/Libs/MiscMath.cs:15-19 | truncating division equals floor division except for a negative dividend that is not a multiple, where it is one higher and the remainder is one divisor short |
| MiscMath.Mod | Assets/Scripts/Libs/MiscMath.cs:6-9 | for a positive divisor the result lies in [0, n) and is the floor remainder |
| MiscMath.ModProperties | Assets/Scripts/Libs/MiscMath.cs:6-9 | Mod differs from k by a multiple of n, reconstructs k with the floor quotient, and leaves an in-range k alone |
| MiscMath.WorldToColumnCoords | Assets/Scripts/Libs/MiscMath.cs:11-21 | the truncating quotient with its negative correction is the floor quotient of x and z by CHUNK_SIZE |
| MiscMath.ColumnCoordsFloor | Assets/Scripts/Libs/MiscMath.cs:11-21 | the column found brackets the coordinate, and column times CHUNK_SIZE plus Mod gives the coordinate back |
| MiscMath.MinusOneIsColumnMinusOne | Assets/Scripts/Libs/MiscMath.cs:15-19 | world x = -1 lies in column -1 at local 11, where the plain C# quotient would give column 0 |
| MiscMath.ColumnCoordsOfCombination | Assets/Scripts/Libs/MiscMath.cs:6-21 | a column's local cell maps back to that column and that local cell |
| Column.Column.constructor | Assets/Scripts/World/Data/Column.cs:7-8 | both arrays have the fixed shape and every cell starts at 0 |
| Column.BoundCheckedCellsIndexBothArrays | Assets/Scripts/World/Data/World.cs:120-139 | a cell that passes the y check and the x and z check indexes both arrays |
| TerrainGen.Generate | Assets/Scripts/World/Data/TerrainGen.cs:7-36 | a fresh column in which every cell has MAX_LIGHT and the id GeneratedBlock gives for the noise at the cell's world coordinates |
| TerrainGen.GeneratedColumnIsLayered | Assets/Scripts/World/Data/TerrainGen.cs:18-29 | along a vertical line, above air there is only air, below stone only stone, and below dirt nothing is air |
| TerrainGen.GeneratedBlockDependsOnWorldColumn | Assets/Scripts/World/Data/TerrainGen.cs:10-19 | two local cells with the same world coordinates, in any columns, are generated alike |
| Views.WorldPosOfColumn | Assets/Scripts/World/Data/World.cs:99-106 | a local cell with in-range x and z lies in its own column |
| Views.WorldPosOfInjective | Assets/Scripts/World/Data/World.cs:99-106 | column and local cell are determined by the world position |
| Views.WorldPosOfParts | Assets/Scripts/World/Data/World.cs:99-106 | every world position is the world position of its column's local cell at Mod |
| Views.LocalOfWorldPos | Assets/Scripts/World/Data/World.cs:99-106 | splitting a local cell's world position gives back the cell and its column |
| Views.GrownKeeps | Assets/Scripts/World/Data/World.cs:84-89 | adding generated columns keeps every position already stored |
| Views.GrownFills | Assets/Scripts/World/Data/World.cs:84-89 | after adding a column, each of its cells holds the generated block and MAX_LIGHT |
| Views.WithoutTwice | Assets/Scripts/World/Data/World.cs:64-66 | removing columns in two steps is removing the union |
| Views.GrownTwice | Assets/Scripts/World/Data/World.cs:84-89 | adding generated columns in two steps is adding the union |
| WorldRenderTextureLayout.Uniform | Assets/Scripts/World/Render/TextureLayout.cs:13-15 | every face shows the one texture |
| WorldRenderTextureLayout.Sided | Assets/Scripts/World/Render/TextureLayout.cs:17-21 | the four sides show sideTex, the bottom botTex and the top topTex |
| WorldRenderTextureLayout.UniformIsSided | Assets/Scripts/World/Render/TextureLayout.cs:13-21 | the one-argument constructor is the three-argument one with all three equal |
| World.World.constructor | Assets/Scripts/World/Data/World.cs:29-42 | the world keeps its terrain type and starts with an empty dictionary and an empty view |
| World.World.OutsideHeightUnstored | Assets/Scripts/World/Data/World.cs:120-121 | the view stores nothing outside the world's height |
| World.World.LightStored | Assets/Scripts/World/Data/World.cs:179-180 | a loaded cell's light level is what the view holds at its world position |
| World.World.GetBlockAt | Assets/Scripts/World/Data/World.cs:99-106 | the block the view stores at the world position, or def where no loaded column stores it |
| World.World.GetBlockAtChunk | Assets/Scripts/World/Data/World.cs:109-114 | the column read with y moved up by chunkPos.y * WORLD_HEIGHT |
| World.World.GetBlockAtColumn | Assets/Scripts/World/Data/World.cs:117-141 | the block at the column's world offset plus the local coordinates, or def. This covers the y check, the redirect for out-of-column x or z, and the lookup |
| World.World.GetLightAt | Assets/Scripts/World/Data/World.cs:144-151 | the light the view stores at the world position, or def |
| World.World.GetLightAtChunk | Assets/Scripts/World/Data/World.cs:154-159 | the column light read with y moved up by chunkPos.y * WORLD_HEIGHT |
| World.World.GetLightAtColumn | Assets/Scripts/World/Data/World.cs:162-186 | the light at the column's world offset plus the local coordinates, or def, with the same checks and redirect |
| WorldRenderProperties.ReadsAgainstDictionary | Assets/Scripts/World/Data/World.cs:117-186 | a world read returns def outside the height or an unloaded column, and otherwise the dictionary column's array entry at Mod of x and z |
| WorldRenderProperties.ChunkReadAtChunkOffset | Assets/Scripts/World/Data/World.cs:109-114 | a chunk-local read is the world read at the chunk's offset |
| WorldRenderProperties.ColumnReadIsWorldRead | Assets/Scripts/World/Data/World.cs:117-128 | a column-local read, including the redirect, is the world read at the column's offset |
| World.World.SetBlockAt | Assets/Scripts/World/Data/World.cs:189-212 | On an unloaded column neither the view nor the hooks change. On a loaded one exactly the addressed cell takes the new id, and the hooks are the old block's OnBreak then the new block's OnPlace with the right arguments |
| World.StoredCell | Assets/Scripts/World/Data/World.cs:131-134 | a loaded column's array entries are what the view stores at the cell's world position |
| World.CoupledAfterWrite | Assets/Scripts/World/Data/World.cs:204 | writing one array cell of one column updates the view at exactly that world position |
| World.CoupledAfterRemove | Assets/Scripts/World/Data/World.cs:65 | removing a column from the dictionary removes exactly its cells from the view |
| World.CoupledAdd | Assets/Scripts/World/Data/World.cs:86-88 | adding a generated column adds exactly its generated cells to the view |
| World.World.MarkRemoval | Assets/Scripts/World/Data/World.cs:56-61 | the marked positions are the loaded positions outside the rectangle, each once |
| World.World.RemoveColumn | Assets/Scripts/World/Data/World.cs:65 | the dictionary loses exactly pos and the view loses exactly that column's cells |
| World.World.RemoveColumns | Assets/Scripts/World/Data/World.cs:63-66 | the dictionary loses exactly the marked positions, keeps every other column, and the view loses exactly their cells |
| World.World.UnloadEvents | Assets/Scripts/World/Data/World.cs:68-71 | one unload event per removed position, in the order of removal |
| World.World.MarkAddition | Assets/Scripts/World/Data/World.cs:73-81 | the marked positions are the rectangle's unloaded positions, in row-major x-then-z order |
| World.World.AddColumn | Assets/Scripts/World/Data/World.cs:88 | adding a generated column grows the view by exactly that column's generated cells |
| World.World.LoadColumn | Assets/Scripts/World/Data/World.cs:84-89 | one generated column is added under pos, no existing column changes, and the view grows by its cells |
| World.World.LoadColumns | Assets/Scripts/World/Data/World.cs:83-89 | every marked position is loaded, existing columns are kept, and the view grows by exactly the generated columns |
| World.World.LoadEvents | Assets/Scripts/World/Data/World.cs:91-94 | one load event per added position, in order, each carrying that column's meshes as RenderColumn builds them |
| World.EventsReconcile | Assets/Scripts/World/Data/World.cs:68-94 | The event list is the unload events of every previously loaded position outside the rectangle, each once, followed by the load events. The load events cover every newly covered position in row-major order, with its meshes |
| World.World.UnloadOutside | Assets/Scripts/World/Data/World.cs:56-66 | after the first two loops exactly the loaded positions inside the rectangle remain, unchanged |
| World.World.LoadInside | Assets/Scripts/World/Data/World.cs:73-89 | after the addition loops every rectangle position is loaded, and the positions that were missing get generated columns |
| World.World.LoadInRange | Assets/Scripts/World/Data/World.cs:45-96 | Afterwards the loaded set is exactly the rectangle, and the columns that were inside it are untouched. The view loses the columns outside the rectangle and gains generated columns for the newly covered positions. The events reconcile the old loaded set with the rectangle |
| World.Samples | Assets/Scripts/World/Render/RenderFullBlock.cs:28-32 | the nine light samples of a face, one per slot |
| World.SampleInSlot | Assets/Scripts/World/Render/RenderFullBlock.cs:30 | slot 3*(i+1)+(j+1) holds the light of the cell the loop variables i and j name for that face |
| World.BufferIsSamples | Assets/Scripts/World/Render/RenderFullBlock.cs:28-32 | a buffer whose every slot holds its sample is the face's samples |
| World.RenderFullBlock.SampleLight | Assets/Scripts/World/Render/RenderFullBlock.cs:30 | the read in the sampling loop is the chunk-local light with default 0 |
| World.RenderFullBlock.FillSamples | Assets/Scripts/World/Render/RenderFullBlock.cs:28-32 | the two sampling loops fill the buffer with exactly the face's nine samples |
| World.RenderFullBlock.RenderFace | Assets/Scripts/World/Render/RenderFullBlock.cs:26-37 | one face block adds the face's call, with the buffer's samples, exactly when the neighbour read with default AIR is not opaque |
| World.RenderFullBlock.EmitFacesNext | Assets/Scripts/World/Render/RenderFullBlock.cs:26-102 | handling the next face in render order extends the calls for the faces before it |
| World.RenderFullBlock.Render | Assets/Scripts/World/Render/RenderFullBlock.cs:15-103 | the calls are the six face blocks in the order top, bottom, east, west, north, south |
| WorldRenderProperties.DrawnStep | Assets/Scripts/World/Render/RenderFullBlock.cs:26-37 | a visible face not yet tested adds its call |
| WorldRenderProperties.HiddenStep | Assets/Scripts/World/Render/RenderFullBlock.cs:26-37 | a face whose neighbour is opaque adds nothing |
| WorldRenderProperties.EmitFacesShape | Assets/Scripts/World/Render/RenderFullBlock.cs:26-102 | after k faces the calls are exactly the visible faces among the first k, each with its samples and the renderer's layout and colour |
| WorldRenderProperties.FacesDrawnAreVisible | Assets/Scripts/World/Render/RenderFullBlock.cs:15-103 | A face is drawn exactly when its neighbour is not opaque, and the number of calls is the number of such faces. Each call carries the face's samples, the renderer's layout, smooth set, and the cell |
| WorldRenderProperties.TopFaceGatedByBlockAbove | Assets/Scripts/World/Render/RenderFullBlock.cs:26-37 | the top face is drawn exactly when the block at (x, y + 1, z) is not opaque |
| WorldRenderProperties.UnloadedReadsAsAirAndDark | Assets/Scripts/World/Render/RenderFullBlock.cs:20-30 | a neighbour in an unloaded column reads as AIR, so the face shows exactly when AIR is not opaque, and an unloaded sample reads 0 |
| World.World.RenderCell | Assets/Scripts/World/Data/World.cs:221-224 | one cell hands on nothing without a renderer, RenderFullBlock's calls, or one call to another renderer |
| World.World.RenderRow | Assets/Scripts/World/Data/World.cs:220-225 | the innermost loop hands on the cells (x, y, 0) to (x, y, 11) in order |
| World.World.RenderPlane | Assets/Scripts/World/Data/World.cs:219-226 | the middle loop hands on the rows of the plane at x in order |
| World.World.RenderChunk | Assets/Scripts/World/Data/World.cs:215-230 | the calls are the chunk's cells' calls over the whole loop nest |
| World.ChunkPlanesAreFlatPlanes | Assets/Scripts/World/Data/World.cs:218-227 | the outer loop's prefix is the generic loop-nest flattening of the chunk's cells |
| World.ChunkCallsFollowOrder | Assets/Scripts/World/Data/World.cs:218-227 | RenderChunk's calls are the cells' calls joined in the visiting order of the loop nest |
| World.ColumnMeshes | Assets/Scripts/World/Data/World.cs:233-241 | a column has WORLD_HEIGHT meshes |
| World.IsColumnMeshes | Assets/Scripts/World/Data/World.cs:236-239 | a sequence whose entry h is the chunk at height h's mesh is the column's meshes |
| World.World.RenderColumn | Assets/Scripts/World/Data/World.cs:233-241 | one mesh per chunk height, bottom up, each RenderChunk's result |
| CellOrder.OrderVisitsEachCellOnce | Assets/Scripts/World/Data/World.cs:218-220 | the loop nest visits n^3 cells, exactly the cube's cells, in increasing order and without repeats |
| CellOrder.CellsShape | Assets/Scripts/World/Data/World.cs:220 | the innermost loop visits z cells of one line in increasing order |
| CellOrder.LinesLength | Assets/Scripts/World/Data/World.cs:219 | y runs of the innermost loop visit y*n cells |
| CellOrder.LinesShape | Assets/Scripts/World/Data/World.cs:219-220 | the middle loop visits exactly the cells of x's plane below y, in increasing order |
| CellOrder.PlanesLength | Assets/Scripts/World/Data/World.cs:218 | x runs of the middle loop visit x*n*n cells |
| CellOrder.PlanesShape | Assets/Scripts/World/Data/World.cs:218-220 | the outer loop visits exactly the cells with x below its bound, in increasing order |
| CellOrder.OrderLength | Assets/Scripts/World/Data/World.cs:218-220 | the loop nest visits n*n*n cells |
| CellOrder.IncreasingDistinct | Assets/Scripts/World/Data/World.cs:218-220 | a visit order that increases repeats no cell |
| CellOrder.FlatMapAppend | Assets/Scripts/World/Data/World.cs:218-227 | the contributions of two runs of cells joined are the contributions of the joined run |
| CellOrder.FlatCellsIsFlatMap | Assets/Scripts/World/Data/World.cs:220-225 | the innermost loop joins the contributions of its cells |
| CellOrder.FlatLinesIsFlatMap | Assets/Scripts/World/Data/World.cs:219-226 | the middle loop joins the contributions of its cells |
| CellOrder.FlatPlanesIsFlatMap | Assets/Scripts/World/Data/World.cs:218-227 | the outer loop joins the contributions of its cells |
| CellOrder.FlatPlanesFollowOrder | Assets/Scripts/World/Data/World.cs:218-227 | the full loop nest joins the contributions of the cells in visiting order |
| FaceGeometry.RenderOrderCoversEachFaceOnce | Assets/Scripts/World/Render/RenderFullBlock.cs:26-102 | the renderers test six faces, each face once |
| FaceGeometry.SlotsFilledOnce | Assets/Scripts/World/Render/RenderFullBlock.cs:28-32 | The nine (i, j) pairs of the sampling loops fill nine distinct slots, every slot once. The centre slot 4 samples the neighbour across the face |
| FaceGeometry.SlotInverse | Assets/Scripts/World/Render/RenderFullBlock.cs:30 | the slot of loop variables i and j gives i and j back |
| FaceGeometry.SlotOfLoopVariables | Assets/Scripts/World/Render/RenderFullBlock.cs:30 | every slot of the buffer is the slot of some pair of loop variables |
| FaceGeometry.Keep | Assets/Scripts/World/Render/RenderFullBlock.cs:26-102 | a sequence helper used to state which face blocks draw: keeping the faces that pass a test gives at most as many faces |
| FaceGeometry.MapFaces | Assets/Scripts/World/Render/RenderFullBlock.cs:26-102 | a sequence helper used to state what the drawn faces add: one result per face |
| FaceGeometry.KeepIff | Assets/Scripts/World/Render/RenderFullBlock.cs:26-102 | a face is kept exactly when it is among the faces and passes the test |
| FaceGeometry.MapFacesAppend | Assets/Scripts/World/Render/RenderFullBlock.cs:26-102 | mapping over two runs of faces is mapping over their concatenation |
| FaceGeometry.KeepMapSnoc | Assets/Scripts/World/Render/RenderFullBlock.cs:26-102 | testing one more face adds its result exactly when it passes |
| FaceGeometry.KeepMapSelAll | Assets/Scripts/World/Render/RenderFullBlock.cs:26-102 | keeping then mapping is testing each face in turn |
| FaceGeometry.KeepMapInRenderOrder | Assets/Scripts/World/Render/RenderFullBlock.cs:26-102 | over the render order, keeping then mapping is the six face blocks one after another |
| FaceGeometry.KeepDistinct | Assets/Scripts/World/Render/RenderFullBlock.cs:26-102 | keeping faces from a run without repeats gives a run without repeats |
| FaceGeometry.KeepRenderOrder | Assets/Scripts/World/Render/RenderFullBlock.cs:26-102 | a face of the render order is kept exactly when it passes, and no face is kept twice |
| WorldRenderMeshBuildInfo.SingleMeshBuildInfo.constructor | Assets/Scripts/World/Render/MeshBuildInfo.cs:43-50 | four empty lists, no face, no arrays |
| WorldRenderMeshBuildInfo.SingleMeshBuildInfo.Clear | Assets/Scripts/World/Render/MeshBuildInfo.cs:52-64 | the new state is the cleared state of the old one |
| WorldRenderMeshBuildInfo.SingleMeshBuildInfo.Build | Assets/Scripts/World/Render/MeshBuildInfo.cs:66-79 | the new state is the built state of the old one |
| WorldRenderMeshBuildInfo.BuildPublishesLists | Assets/Scripts/World/Render/MeshBuildInfo.cs:66-79 | Build makes each array a copy of its list's old contents, empties every list and keeps the face count. A second Build gives empty arrays |
| WorldRenderMeshBuildInfo.ClearIsReset | Assets/Scripts/World/Render/MeshBuildInfo.cs:52-64 | Clear is idempotent, undoes a Build, and gives the freshly constructed state with face count 0 and null arrays |
| WorldRenderMeshBuildInfo.MeshBuildInfo.constructor | Assets/Scripts/World/Render/MeshBuildInfo.cs:10-14 | two distinct fresh buffers, both in the freshly constructed state |
| WorldRenderMeshBuildInfo.MeshBuildInfo.Build | Assets/Scripts/World/Render/MeshBuildInfo.cs:16-20 | each buffer is built exactly once and nothing else changes |
| WorldRenderMeshBuildInfo.MeshBuildInfo.Clear | Assets/Scripts/World/Render/MeshBuildInfo.cs:22-26 | each buffer is cleared exactly once and nothing else changes |
| RenderingTextureLayout.Uniform | Assets/Scripts/Rendering/TextureLayout.cs:12-14 | every face shows the one texture |
| RenderingTextureLayout.Sided | Assets/Scripts/Rendering/TextureLayout.cs:16-20 | the four sides show sideTex, the bottom botTex and the top topTex |
| RenderingTextureLayout.UniformIsSided | Assets/Scripts/Rendering/TextureLayout.cs:12-20 | the one-argument constructor is the three-argument one with all three equal |
| Rendering.MeshBuildInfo.constructor | Assets/Scripts/Rendering/MeshBuildInfo.cs:12-18 | four empty lists and faceCount 0, a well-formed state |
| Rendering.MeshBuildInfo.Clear | Assets/Scripts/Rendering/MeshBuildInfo.cs:20-26 | from any state, four empty lists and faceCount 0, a well-formed state. Clearing twice gives the same state |
| Rendering.WellFormedIndicesInRange | Assets/Scripts/Rendering/CubeRenderer.cs:251-258 | in a well-formed mesh every triangle index names a vertex |
| Rendering.LightAverage | Assets/Scripts/Rendering/CubeRenderer.cs:21-24 | the floor of the mean of four levels; the sum never overflows the byte cast |
| Rendering.LightAverageBetween | Assets/Scripts/Rendering/CubeRenderer.cs:8-24 | the average lies between the least and the greatest level, so levels at most MAX_LIGHT give a valid index into the 16-entry light table |
| Rendering.TextureLocation | Assets/Scripts/Rendering/CubeRenderer.cs:271-274 | the atlas cell is (t % T_SIZE, t / T_SIZE): in range, and it rebuilds t |
| Rendering.TextureLocationInjective | Assets/Scripts/Rendering/CubeRenderer.cs:271-274 | different textures lie in different atlas cells |
| Rendering.FaceTrianglesShape | Assets/Scripts/Rendering/CubeRenderer.cs:251-258 | the six indices are 0,1,2,0,2,3 or, flipped, 1,2,3,1,3,0 past 4*faceCount, all inside the face's four vertices |
| Rendering.PushFace | Assets/Scripts/Rendering/CubeRenderer.cs:243-269 | one colour per light level, six indices, four texture coordinates, and one more face |
| Rendering.AddQuadKeepsWellFormed | Assets/Scripts/Rendering/CubeRenderer.cs:31-269 | four vertices then PushFace keep vertices = colours = uv = 4*faceCount and triangles = 6*faceCount with every index in range, and count one face |
| Rendering.QuadsShapedAppend | Assets/Scripts/Rendering/CubeRenderer.cs:31-241 | two runs of four-vertex faces make one |
| Rendering.AddQuadsKeepsWellFormed | Assets/Scripts/Rendering/CubeRenderer.cs:31-269 | any run of four-vertex faces keeps the mesh well formed and counts each face once |
| Rendering.AddQuadsAppend | Assets/Scripts/Rendering/CubeRenderer.cs:31-269 | adding two runs of faces one after the other is adding their concatenation |
| Rendering.AddQuadsSingle | Assets/Scripts/Rendering/CubeRenderer.cs:31-269 | adding a run of one face is adding that face |
| Rendering.FlatFaceIsUniform | Assets/Scripts/Rendering/CubeRenderer.cs:53-60 | without smoothing all four corners are l[4] and the triangles are not flipped |
| Rendering.CornersIndexLightTable | Assets/Scripts/Rendering/CubeRenderer.cs:46-57 | samples at most MAX_LIGHT give four corners at most MAX_LIGHT |
| Rendering.FlipPicksDiagonal | Assets/Scripts/Rendering/CubeRenderer.cs:26-29 | on the top, north and west faces the two triangles share the brighter corner diagonal, and on the east, south and bottom faces the darker one |
| Rendering.FlipTrianglesDiagonals | Assets/Scripts/Rendering/CubeRenderer.cs:26-29 | the flip test depends only on the two diagonal sums, is reversed by shifting the corners round by one unless the sums tie, and never flips on a tie |
| Rendering.CubeQuadShaped | Assets/Scripts/Rendering/CubeRenderer.cs:31-241 | every face has four vertices of its cell, four light levels, and the atlas cell of the layout's texture for that face |
| Rendering.CubeTop | Assets/Scripts/Rendering/CubeRenderer.cs:31-66 | the mesh gains exactly the top face: its four corners, its averaged corner lights, its flip and texTop |
| Rendering.CubeNorth | Assets/Scripts/Rendering/CubeRenderer.cs:68-101 | the mesh gains exactly the north face with texNorth |
| Rendering.CubeEast | Assets/Scripts/Rendering/CubeRenderer.cs:103-136 | the mesh gains exactly the east face with texEast |
| Rendering.CubeSouth | Assets/Scripts/Rendering/CubeRenderer.cs:138-171 | the mesh gains exactly the south face with texSouth |
| Rendering.CubeWest | Assets/Scripts/Rendering/CubeRenderer.cs:173-206 | the mesh gains exactly the west face with texWest |
| Rendering.CubeBottom | Assets/Scripts/Rendering/CubeRenderer.cs:208-241 | the mesh gains exactly the bottom face with texBottom |
| Blocks.Block.Air | Assets/Scripts/Blocks/BlockAir.cs:5-10 | named "Air", neither solid nor opaque, and breakable |
| Blocks.Block.Stone | Assets/Scripts/Blocks/Block.cs:6-11 | Block's defaults under the name "Stone": solid, opaque, breakable |
| Blocks.Block.Grass | Assets/Scripts/Blocks/Block.cs:6-11 | Block's defaults under the name "Grass" |
| Blocks.Block.Dirt | Assets/Scripts/Blocks/Block.cs:6-11 | Block's defaults under the name "Dirt" |
| Blocks.Block.Slab | Assets/Scripts/Blocks/BlockSlab.cs:5-9 | named "Slab", texture 0 on every face, opaque by Block's default |
| Blocks.Block.GetBounds | Assets/Scripts/Blocks/Block.cs:103-106 | the bounds are the lower half exactly for the slab, the whole cell otherwise |
| Blocks.ListBlocks.constructor | Assets/Scripts/Blocks/ListBlocks.cs:6 | before Awake there is no table |
| Blocks.ListBlocks.Awake | Assets/Scripts/Blocks/ListBlocks.cs:15-31 | a fresh 256-slot table with Air, Stone, Grass, Dirt and Slab in slots 0 to 4, null elsewhere, and each block's id its slot |
| Blocks.ListBlocks.NewTable | Assets/Scripts/Blocks/ListBlocks.cs:19-24 | a fresh table of 256 slots with the five block types in slots 0 to 4 and null above |
| Blocks.ListBlocks.AssignIds | Assets/Scripts/Blocks/ListBlocks.cs:27-30 | every non-null slot's block takes its slot number, cast to a byte, as its id |
| Blocks.ListBlocks.FindByName | Assets/Scripts/Blocks/ListBlocks.cs:33-38 | the result is the scan from slot 0: the first match, or the first null slot, where `block.name` throws |
| Blocks.ScanFindsFirst | Assets/Scripts/Blocks/ListBlocks.cs:33-38 | Found(k) is the first slot with the name. NullSlot(k) is the first null slot, with no match before it. NotFound means no slot matches |
| Blocks.AwakenedLookups | Assets/Scripts/Blocks/ListBlocks.cs:15-38 | in the awakened table each of the five names is found in its own slot, and every other name reaches the null slot 5 |
| GameWorld.GameWorld.constructor | Assets/Scripts/World/GameWorld.cs:28-33 | no column loaded and nothing stored |
| GameWorld.GameWorld.Mod | Assets/Scripts/World/GameWorld.cs:116-119 | for a positive n the result lies in [0, n) and is the floor remainder |
| GameWorld.GameWorld.GetColumnLocation | Assets/Scripts/World/GameWorld.cs:106-114 | the truncating quotient with its correction is the floor quotient of x and z |
| GameWorld.GameWorld.GetChunkLocation | Assets/Scripts/World/GameWorld.cs:94-104 | the same correction on all three axes gives the floor quotients |
| GameWorld.GameWorld.LocationBrackets | Assets/Scripts/World/GameWorld.cs:106-119 | the column brackets the coordinates, column times chunkSize plus mod gives them back, and x = -1 lies in column -1 at local chunkSize - 1 |
| GameWorld.FloorFacts | Assets/Scripts/World/GameWorld.cs:97-118 | the C# remainder is the floor remainder or one divisor short, and the C# quotient is one above the floor exactly when the corrections fire |
| GameWorld.GameWorld.ModCongruent | Assets/Scripts/World/GameWorld.cs:116-119 | mod differs from k by a multiple of n and leaves an in-range k alone |
| GameWorld.GameWorld.AtColumn | Assets/Scripts/World/GameWorld.cs:131-136 | a local cell of a column lies in that column at mod of its world coordinates |
| GameWorld.GameWorld.AtParts | Assets/Scripts/World/GameWorld.cs:131-136 | every world position is its column's local cell at mod |
| GameWorld.GameWorld.StoredIff | Assets/Scripts/World/GameWorld.cs:135 | a position is stored exactly when y is inside the world's height and its column is loaded, for blocks and light alike |
| GameWorld.GameWorld.StoredAt | Assets/Scripts/World/GameWorld.cs:136 | a loaded column's array entries are what the world stores at the cell's world position |
| GameWorld.GameWorld.Block | Assets/Scripts/World/GameWorld.cs:129-141 | the block stored at the world position, or def outside the height or the loaded columns |
| GameWorld.GameWorld.Light | Assets/Scripts/World/GameWorld.cs:143-155 | the light stored at the world position, or def |
| GameWorld.GameWorld.DefaultOutsideStore | Assets/Scripts/World/GameWorld.cs:135-140 | def comes back exactly when the guard fails, and otherwise the stored value, whatever def is |
| GameWorld.GameWorld.SetBlockAt | Assets/Scripts/World/GameWorld.cs:195-208 | when the guard holds exactly the addressed cell takes the new id and the light is unchanged, and otherwise nothing changes |
| GameWorld.GameWorld.WriteCell | Assets/Scripts/World/GameWorld.cs:204-208 | writing one array cell of a loaded column changes the stored blocks at exactly that position |
| GameWorld.GameWorld.MarkColumnModified | Assets/Scripts/World/GameWorld.cs:174-183 | when the column is loaded, each of its chunks is marked modified, and nothing else changes |
| GameWorld.GameWorld.UpdateChunkAt | Assets/Scripts/World/GameWorld.cs:260-270 | when y is in range and the column is loaded, the chunk at height y / chunkSize is marked modified, and nothing else changes |
| GameWorld.ChunkColumn.constructor | Assets/Scripts/World/ChunkColumn.cs:18-36 | two distinct fresh arrays, block and light, both zero and shaped, with one fresh unmodified chunk per height at its location |
| GameWorld.ChunkColumn.LocalBlock | Assets/Scripts/World/ChunkColumn.cs:41-49 | the block stored at the column's world offset plus the local coordinates, or def, including the redirect through GameWorld.Block |
| GameWorld.ChunkColumn.LocalLight | Assets/Scripts/World/GameWorld.cs:150 | the light stored at the column's world offset plus the local coordinates, or def |
| GameWorld.ChunkColumn.RawReadsAreStored | Assets/Scripts/World/ChunkColumn.cs:51-53 | inside a loaded column, the unchecked three-argument reads `LocalBlockRaw` and `LocalLightRaw` are in bounds and return what the world stores at the cell's world position, the same as the checked reads for any default |
| GameWorld.ChunkColumn.GenerateTerrain | Assets/Scripts/World/ChunkColumn.cs:55-85 | Each cell up to the stone height becomes stone, cells below the dirt height become dirt, and the cell at the dirt height becomes grass. The ids are the ones the table gives those names, cells above keep what they held, and every chunk is marked modified |
| GameWorld.ChunkColumn.FillLayers | Assets/Scripts/World/ChunkColumn.cs:65-80 | the three loops write every cell of the column as Layered says |
| GameWorld.LayeredInOrder | Assets/Scripts/World/ChunkColumn.cs:67-77 | along a vertical line, stone lies only below stone, cells below the dirt height are stone or dirt, and only the cell at the dirt height is newly grass |
| GameWorld.Chunk.constructor | Assets/Scripts/World/Chunk.cs:8-35 | an empty MeshBuildInfo, neither modified nor needing an update, with the column's chunk size |
| GameWorld.Chunk.LocalBlock | Assets/Scripts/World/Chunk.cs:58-61 | the block stored at the chunk's origin plus the local cell, or def |
| GameWorld.Chunk.LocalLight | Assets/Scripts/World/Chunk.cs:63-66 | the light stored at the chunk's origin plus the local cell, or def |
| GameWorld.Chunk.MeshCell | Assets/Scripts/World/Chunk.cs:75 | one cell adds its block's faces |
| GameWorld.Chunk.MeshRow | Assets/Scripts/World/Chunk.cs:74-76 | the innermost loop adds the cells of one line in order |
| GameWorld.Chunk.MeshPlane | Assets/Scripts/World/Chunk.cs:73-77 | the middle loop adds the lines of one plane in order |
| GameWorld.Chunk.MeshChunk | Assets/Scripts/World/Chunk.cs:72-78 | the loop nest adds the chunk's faces |
| GameWorld.Chunk.GenerateMesh | Assets/Scripts/World/Chunk.cs:68-84 | the mesh gains exactly the chunk's faces and the four arrays are copies of its lists |
| GameWorld.ChunkQuadsFollowOrder | Assets/Scripts/World/Chunk.cs:72-78 | the chunk's faces are its cells' faces in the loop nest's order, which visits every cell once |
| GameWorld.Chunk.UpdateMesh | Assets/Scripts/World/Chunk.cs:86-96 | the shown mesh takes the four arrays and the MeshBuildInfo is cleared |
| GameWorld.Chunk.LateUpdate | Assets/Scripts/World/Chunk.cs:37-49 | A modified chunk shows a mesh of its current faces and is cleared. A chunk that needs only an update shows its arrays. Afterwards the chunk is neither modified nor needs an update |
| GameWorld.SampleAt | Assets/Scripts/Blocks/Block.cs:28 | the read in the sampling loop is the chunk-local light with default 0 |
| GameWorld.SampleRow | Assets/Scripts/Blocks/Block.cs:27-29 | the inner sampling loop fills the three slots of row i with their samples and no other slot |
| GameWorld.FillSamples | Assets/Scripts/Blocks/Block.cs:26-30 | the two sampling loops fill the buffer with exactly the face's nine samples |
| GameWorld.LightSamples | Assets/Scripts/Blocks/Block.cs:26-30 | nine samples per face |
| GameWorld.LightSamplesBounded | Assets/Scripts/Blocks/Block.cs:26-30 | with stored light at most MAX_LIGHT every sample indexes the light table |
| GameWorld.BufferBounded | Assets/Scripts/Blocks/Block.cs:26-34 | a buffer of bounded samples is valid input for the Cube methods |
| GameWorld.DrawFace | Assets/Scripts/Blocks/Block.cs:34 | the Cube call of face f adds exactly that face with the buffer's samples |
| GameWorld.SampleAndDraw | Assets/Scripts/Blocks/Block.cs:25-34 | sampling then drawing adds exactly the face of f with the samples of the world as it was |
| GameWorld.NeighbourVisible | Assets/Scripts/Blocks/Block.cs:24 | the test is that the block across the face, read with default AIR, is not opaque |
| GameWorld.DrawVisibleFace | Assets/Scripts/Blocks/Block.cs:25-34 | a visible face adds exactly its face, and the world and the table are unchanged |
| GameWorld.RenderFace | Assets/Scripts/Blocks/Block.cs:24-35 | one face block adds the face exactly when its neighbour is not opaque, and the world and the table are unchanged |
| GameWorld.RenderBlock | Assets/Scripts/Blocks/Block.cs:14-101 | the mesh gains the six face blocks in order top, bottom, east, west, north, south, and gains nothing for air |
| GameWorld.EmitIsSel | Assets/Scripts/Blocks/Block.cs:24-35 | one face block adds the face under the cell's visibility test |
| GameWorld.FaceCulling | Assets/Scripts/Blocks/Block.cs:14-101 | Air adds nothing. Any other block adds exactly the visible faces in render order, and each face shows exactly when its neighbour is not opaque, with no face twice |
| GameWorld.TwoCubesTenFaces | Assets/Scripts/Blocks/Block.cs:14-101 | two adjacent blocks of one opaque type, with no other opaque block around, show ten faces between them |
| GameWorld.MapFacesShaped | Assets/Scripts/Rendering/CubeRenderer.cs:31-241 | faces from a function whose every face has four vertices are well shaped |
| GameWorld.BlockQuadsShaped | Assets/Scripts/Blocks/Block.cs:14-101 | every face a block adds has four vertices and four light levels |

## Left out

- Lighting of the Rendering iteration: `FloodFillLight`, `FloodFillDarkness` and `CanSeeSky` (called at GameWorld.cs:210-243 and 247-258) are not in the source shown, so the light updates of `GameWorld.SetBlockAt` and `RefillLightAtPosition` are not modelled.
- GameWorld.GameWorld.SetBlockAt: the model treats the relighting of GameWorld.cs:210-243 as a no-op, so the light contents stay unchanged. That is behaviour the source does not have: it relights after every write, and `FloodFillDarkness` is called with `MAX_LIGHT + 1`. The light bound `LightsBounded` in `GameWorld.Valid` holds after a write only because of this no-op. An id whose table slot is null is not excluded either: the source writes it and then throws at `blocks[block].opaque` (line 214), while the model writes it and returns.
- The coroutines and scene code of `GameWorld`: `Start`'s call of `LoadChunks`, `LoadChunksCoroutine`, `LoadColumn` and `UnloadColumn` (GameWorld.cs:35-92, 157-193). They are Unity coroutines with `Instantiate`, `Destroy`, frame waits and the float `Vector2.Distance`.
- `GameWorld.Block(Vector3 pos, def)` (GameWorld.cs:121-127) casts float coordinates to int; only the integer overload is modelled.
- GameWorld locations are float `Vector2`/`Vector3` values whose components are always integral; they are modelled as integer vectors. `chunkSize` and `height` are Inspector fields and become constructor arguments.
- GameWorld.ChunkColumn.constructor: models the allocation and chunk creation of `Start` (ChunkColumn.cs:18-36). The `GenerateTerrain` call at line 38 is modelled as a separate call. The prefab instantiation and transforms are left out.
- GameWorld.ChunkColumn.GenerateTerrain: writes the column's array without updating the world's stored contents. The world's coupling to its columns is kept only for columns whose arrays are written through `SetBlockAt`.
- GameWorld.ChunkColumn.LocalLight: `ChunkColumn.LocalLight` is not in the source shown. It is modelled as the mirror of `LocalBlock` over the light array, which is how `Chunk.LocalLight` and `GameWorld.Light` use it.
- The two source files use different field names for the same array: `ChunkColumn.cs` uses `data` and `GameWorld.cs` uses `blockData`. The model treats them as one array.
- `Block.Render` calls the `Cube*` methods with nine arguments, while `CubeRenderer` takes a tenth, the colour. The model passes one fixed tint.
- `Block.Render` reads `blocks[...].opaque`, while the model's field is `isOpaque`: `opaque` is a Dafny keyword.
- The `BlockStone`, `BlockGrass` and `BlockDirt` files shown belong to the World/Data iteration. The Rendering-iteration blocks are modelled with Block's defaults and the names the `FindByName` calls use.
- The empty hooks `BlockTick`, `OnLoad`, `OnBuild`, `OnBreak` and `OnUnload` of the Rendering-iteration `Block` (Block.cs:108-126) have no effect and are not modelled.
- `Block.smooth` is a static field that is always true, so the flat-light branch of `Block.Render` is never taken and is not modelled. `RenderFullBlock`'s local `smooth` is also always true. The flat branch of the `Cube*` methods is modelled, and `FlatFaceIsUniform` states it.
- Floating point:
  - vertex positions are recorded as cell, corner and bounds;
  - colours are recorded as tint and light level;
  - texture coordinates are recorded as multiples of `1 / T_SIZE`;
  - the contents of the `lightColors` table are not modelled;
  - `Bounds` values are not modelled;
  - the `Distance` square roots are not modelled.
- Noise: `PerlinNoise`, `Noise.GetNoise` and `Mathf.Pow` are floats behind a foreign call. The stone and dirt heights take their integer results as uninterpreted functions of the world column.
- MiscMath.WorldToColumnCoords: the source takes floats and rounds them with `Mathf.RoundToInt`, and its callers pass ints that C# converts to float. The conversion is exact only up to 2^24 in magnitude. Beyond that the float path can round to a different column, while the model's floor division on integers does not.
- `TerrainGen.Generate` uses ids `Block.STONE` and `Block.DIRT` and the constant `CubeRenderHelper.MAX_LIGHT`, none of which is in the source shown. The ids are parameters (air is 0) and MAX_LIGHT is 15, as in `CubeRenderer`. The terrain type is never read.
- `CubeRenderHelper` is not in the source shown. `RenderFullBlock` therefore records the face calls it makes, with their arguments, and `World.RenderChunk` returns those calls instead of a filled `MeshBuildInfo`. The `mesh.Build()` call at World.cs:228 is modelled separately by `WorldRenderMeshBuildInfo.MeshBuildInfo.Build`.
- Renderers other than `RenderFullBlock` (RenderFluid and the rest) are not shown. A block with such a renderer contributes one opaque call.
- `Block.GetInstance` and the registry of the World/Data iteration are not shown. They are modelled as a catalog that gives each id's opacity and renderer.
- World.World.SetBlockAt: the source does not check y. A y outside the world's height on a loaded column makes the array access throw, so the model requires y inside the height whenever the column is loaded. The `OnBreak` and `OnPlace` hooks are recorded as calls, not run.
- `lock (this)` in `World` is modelled as sequential execution. The `ChunkLoadEvent` and `ChunkUnloadEvent` delegates become a returned sequence of events. The save directory and `Debug.Log` of the constructor are I/O and are left out.
- World.World.MarkRemoval: the dictionary's key order is unspecified, so the model fixes no order for the removal list beyond each position occurring once.
- `SingleMeshBuildInfo.ApplyToMesh` (World/Render/MeshBuildInfo.cs:81-90) and the Unity `Mesh` calls of `Chunk.UpdateMesh` are engine calls. `UpdateMesh` records the arrays it hands over, and `Optimize` and `RecalculateNormals` are left out.
- `Chunk.Awake`, `OnDrawGizmosSelected` and the chunk's `Mesh` lookup are scene code and are left out.
- 32-bit wrap-around: the model's integers are unbounded, so these never overflow as C# `int` does:
  - the world coordinates `colPos.x * CHUNK_SIZE + localX` of World.cs:125-126 and 170-171;
  - GameWorld's `p.x * chunkSize + x`;
  - the triangle indices `faceCount * 4 + ...` of CubeRenderer.cs:253-258.
- Rendering.PushFace: requires every light level to be at most MAX_LIGHT. For a level of 16 or more, `lightColors[light[i]]` at CubeRenderer.cs:247 throws, and the model does not include that throwing path.
- Blocks.ListBlocks.FindByName: requires the table to exist. Before `Awake` the source throws a NullReferenceException, and the model does not include that path.
- `World.Samples` and `GameWorld.LightSamples`, and the two TextureLayout modules, are separate copies of one idea. Each source iteration declares its own, and the model keeps them apart in the same way.

## Findings

| source | as written | input that shows it | evidently intended | confidence | as-written member | corrected member |
|---|---|---|---|---|---|---|
| Assets/Scripts/Libs/Vectors.cs:53 | `int yDiff = other.z - z;`: the y difference of `Vector3i.Distance` is taken from z | (0, 0, 0) and (0, 5, 0): distance 0 although the positions differ | `other.y - y`, so that the distance is zero only between equal positions | high; not executed | Vectors.Vector3i.DistanceSquaredAsWritten, Vectors.DistanceAsWrittenIgnoresY | Vectors.Vector3i.DistanceSquared |
