/** MiscMath: the truncating `/` and `%` of C# corrected to floor semantics. */
module MiscMath {
  import opened CSharp
  import opened WorldConstants
  import opened Vectors

  /** `Mod(k, n)`: `k % n` in C#, moved up by `n` when negative. For a
      positive `n` this is the floor remainder, Dafny's `k % n`. */
  function Mod(k: int, n: int): (r: int)
    requires n != 0
    ensures n > 0 ==> 0 <= r < n && r == k % n
  {
    if n > 0 then DivVersusFloor(k, n); ModBody(k, n) else ModBody(k, n)
  }

  function ModBody(k: int, n: int): int
    requires n != 0
  {
    var k' := Rem(k, n);
    if k' < 0 then k' + n else k'
  }

  /** What `Mod` promises: it lies in `[0, n)`, it differs from `k` by a
      multiple of `n`, and it leaves a value already in range alone. */
  lemma ModProperties(k: int, n: int)
    requires n > 0
    ensures 0 <= Mod(k, n) < n
    ensures (k - Mod(k, n)) % n == 0
    ensures k == n * (k / n) + Mod(k, n)
    ensures 0 <= k < n ==> Mod(k, n) == k
  {
    var q, r := k / n, Mod(k, n);
    assert r == k % n;
    assert k == n * q + r;
    DivModUnique(k - r, n, q, 0);
    if 0 <= k < n {
      DivModUnique(k, n, 0, k);
    }
  }

  /** `WorldToColumnCoords` on integer coordinates: C#'s quotient, one
      lower for a negative coordinate that is not a multiple of CHUNK_SIZE. */
  function WorldToColumnCoords(x: int, z: int): (loc: Vector2i)
    ensures loc.x == x / CHUNK_SIZE && loc.z == z / CHUNK_SIZE
  {
    DivVersusFloor(x, CHUNK_SIZE);
    DivVersusFloor(z, CHUNK_SIZE);
    var loc := Vector2i(Div(x, CHUNK_SIZE), Div(z, CHUNK_SIZE));
    var loc := if x < 0 && Rem(x, CHUNK_SIZE) != 0 then loc.(x := loc.x - 1) else loc;
    if z < 0 && Rem(z, CHUNK_SIZE) != 0 then loc.(z := loc.z - 1) else loc
  }

  /** The column of `x` is the floor of `x / CHUNK_SIZE`: its first cell is at
      or before `x` and the next column starts after `x`; and the column and
      the remainder put `x` back together. */
  lemma ColumnCoordsFloor(x: int, z: int)
    ensures var loc := WorldToColumnCoords(x, z);
      loc.x * CHUNK_SIZE <= x < loc.x * CHUNK_SIZE + CHUNK_SIZE &&
      loc.z * CHUNK_SIZE <= z < loc.z * CHUNK_SIZE + CHUNK_SIZE
    ensures var loc := WorldToColumnCoords(x, z);
      x == loc.x * CHUNK_SIZE + Mod(x, CHUNK_SIZE) &&
      z == loc.z * CHUNK_SIZE + Mod(z, CHUNK_SIZE)
  {
    ModProperties(x, CHUNK_SIZE);
    ModProperties(z, CHUNK_SIZE);
  }

  /** The negative-remainder correction: the cell just west of the origin
      is in column -1, where C#'s quotient alone would say 0. */
  lemma MinusOneIsColumnMinusOne()
    ensures WorldToColumnCoords(-1, 0).x == -1
    ensures Div(-1, CHUNK_SIZE) == 0
    ensures Mod(-1, CHUNK_SIZE) == CHUNK_SIZE - 1
  {
  }

  /** A column and an in-range local offset combine to a world coordinate
      that converts back to the same column and offset. */
  lemma ColumnCoordsOfCombination(c: Vector2i, lx: int, lz: int)
    requires 0 <= lx < CHUNK_SIZE && 0 <= lz < CHUNK_SIZE
    ensures WorldToColumnCoords(c.x * CHUNK_SIZE + lx, c.z * CHUNK_SIZE + lz) == c
    ensures Mod(c.x * CHUNK_SIZE + lx, CHUNK_SIZE) == lx
    ensures Mod(c.z * CHUNK_SIZE + lz, CHUNK_SIZE) == lz
  {
    DivModUnique(c.x * CHUNK_SIZE + lx, CHUNK_SIZE, c.x, lx);
    DivModUnique(c.z * CHUNK_SIZE + lz, CHUNK_SIZE, c.z, lz);
  }
}
