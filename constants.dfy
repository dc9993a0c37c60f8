/** The engine-wide constants. */
module WorldConstants {

  /** Cells along each side of a chunk (World.CHUNK_SIZE). */
  const CHUNK_SIZE: int := 12

  /** Chunks stacked in one column (World.WORLD_HEIGHT). */
  const WORLD_HEIGHT: int := 12

  /** The brightest light level (CubeRenderer.MAX_LIGHT); the light table
      has MAX_LIGHT + 1 entries. */
  const MAX_LIGHT: int := 15

  /** Textures per row and per column of the texture atlas (CubeRenderer.T_SIZE). */
  const T_SIZE: int := 4

  /** Cells in one column from bottom to top. */
  const COLUMN_HEIGHT: int := CHUNK_SIZE * WORLD_HEIGHT
}
