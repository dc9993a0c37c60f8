/** CubeRenderer and MeshBuildInfo of the Rendering iteration: each Cube*
    method appends the four vertices of one face of a cube and hands the
    face to PushFace, which appends one colour per corner, two triangles
    and four texture coordinates and counts the face.

    Unity's floating-point values appear as the integer data that
    determines them: a vertex is its cell, its corner and the block's
    bounds; a colour is the tint and the light level of the
    `lightColors` entry it is multiplied by; a texture coordinate is a pair
    of multiples of `1 / T_SIZE`. */
module Rendering {
  import opened CSharp
  import opened WorldConstants
  import opened FaceGeometry
  import opened RenderingTextureLayout

  /** The eight corners of a cell that Vertex.cs names: top or bottom, then
      north-west, north-east, south-east or south-west. */
  datatype Corner = tNW | tNE | tSE | tSW | bNW | bNE | bSE | bSW

  /** What `GetBounds` returns: the whole cell (Block) or its lower half (BlockSlab). */
  datatype Bounds = FullCell | LowerHalf

  /** `pos + Vertex.<corner>(center, size)` for the cell (x, y, z). */
  datatype Vertex = Vertex(x: int, y: int, z: int, corner: Corner, bounds: Bounds)

  /** A Unity Color passed in by the caller. */
  datatype Tint = Tint(code: nat)

  /** `color * lightColors[light]`. */
  datatype Colour = Shade(tint: Tint, light: int)

  /** The atlas cell `TextureLocation` returns. */
  datatype TexPos = TexPos(x: int, y: int)

  /** The texture coordinate `(u / T_SIZE, v / T_SIZE)`. */
  datatype Uv = Uv(u: int, v: int)

  /** The lists and the face count of a MeshBuildInfo. */
  datatype MeshState = MeshState(vertices: seq<Vertex>, triangles: seq<int>, uv: seq<Uv>,
                                 colors: seq<Colour>, faceCount: int)

  const Empty: MeshState := MeshState([], [], [], [], 0)

  /** Four vertices, colours and texture coordinates per face, six triangle
      indices per face, and the six indices of face k all name one of the
      four vertices of face k. */
  predicate WellFormed(s: MeshState)
  {
    |s.vertices| == 4 * s.faceCount && |s.colors| == 4 * s.faceCount && |s.uv| == 4 * s.faceCount &&
    |s.triangles| == 6 * s.faceCount &&
    forall i :: 0 <= i < |s.triangles| ==> 4 * (i / 6) <= s.triangles[i] < 4 * (i / 6) + 4
  }

  /** In a well-formed state every triangle index names a vertex. */
  lemma WellFormedIndicesInRange(s: MeshState)
    requires WellFormed(s)
    ensures forall i :: 0 <= i < |s.triangles| ==> 0 <= s.triangles[i] < |s.vertices|
  {
    forall i | 0 <= i < |s.triangles|
      ensures 0 <= s.triangles[i] < |s.vertices|
    {
      var k := i / 6;
      assert 6 * k <= i by { DivModUnique(i, 6, k, i % 6); }
      assert k < s.faceCount;
    }
  }

  class MeshBuildInfo {
    var vertices: seq<Vertex>
    var triangles: seq<int>
    var uv: seq<Uv>
    var colors: seq<Colour>
    var faceCount: int

    function State(): MeshState
      reads this
    {
      MeshState(vertices, triangles, uv, colors, faceCount)
    }

    /** Four empty lists and no face. */
    constructor ()
      ensures State() == Empty && WellFormed(State())
    {
      vertices, triangles, uv, colors := [], [], [], [];
      faceCount := 0;
    }

    /** Empties the four lists and forgets the faces, whatever the state was. */
    method Clear()
      modifies this
      ensures State() == Empty && WellFormed(State())
    {
      vertices := [];
      triangles := [];
      uv := [];
      colors := [];
      faceCount := 0;
    }
  }

  function Min(a: int, b: int): int { if a < b then a else b }
  function Max(a: int, b: int): int { if a < b then b else a }

  /** The mean of four light levels rounded down; the sum is at most 1020,
      so the byte cast never wraps. */
  function LightAverage(a: Byte, b: Byte, c: Byte, d: Byte): (r: Byte)
    ensures 4 * r <= a + b + c + d < 4 * r + 4
  {
    DivVersusFloor(a + b + c + d, 4);
    Div(a + b + c + d, 4)
  }

  /** The mean lies between the least and the greatest argument, so the
      averages of light levels that index the sixteen-entry light table
      index it too. */
  lemma LightAverageBetween(a: Byte, b: Byte, c: Byte, d: Byte)
    ensures Min(Min(a, b), Min(c, d)) <= LightAverage(a, b, c, d) <= Max(Max(a, b), Max(c, d))
    ensures a <= MAX_LIGHT && b <= MAX_LIGHT && c <= MAX_LIGHT && d <= MAX_LIGHT ==>
      LightAverage(a, b, c, d) <= MAX_LIGHT
  {
  }

  /** `FlipTriangles`: flip when the diagonal b-d is brighter than a-c. */
  predicate FlipTriangles(a: Byte, b: Byte, c: Byte, d: Byte)
  {
    a + c < b + d
  }

  /** The test reads only the two diagonal sums, so it ignores which end of
      a diagonal comes first; shifting the corners round by one reverses it
      unless the sums tie, and a tie never flips. */
  lemma FlipTrianglesDiagonals(a: Byte, b: Byte, c: Byte, d: Byte)
    ensures FlipTriangles(a, b, c, d) == FlipTriangles(c, b, a, d) == FlipTriangles(a, d, c, b)
    ensures a + c != b + d ==> (FlipTriangles(a, b, c, d) <==> !FlipTriangles(b, c, d, a))
    ensures a + c == b + d ==> !FlipTriangles(a, b, c, d) && !FlipTriangles(b, c, d, a)
  {
  }

  /** The atlas cell of texture `t`: column `t % T_SIZE`, row `t / T_SIZE`. */
  function TextureLocation(t: Byte): (p: TexPos)
    ensures 0 <= p.x < T_SIZE && 0 <= p.y < 0x100 / T_SIZE
    ensures t == p.y * T_SIZE + p.x
  {
    DivVersusFloor(t, T_SIZE);
    TexPos(Rem(t, T_SIZE), Div(t, T_SIZE))
  }

  /** Different textures lie in different atlas cells. */
  lemma TextureLocationInjective(s: Byte, t: Byte)
    requires TextureLocation(s) == TextureLocation(t)
    ensures s == t
  {
  }

  /** The six face-relative triangle indices PushFace adds for the face
      numbered `n`: `n * 4 + (k + f) % 4` for k in 0, 1, 2, 0, 2, 3. */
  function FaceTriangles(n: int, flip: bool): seq<int>
  {
    var f := if flip then 1 else 0;
    [n * 4 + Rem(0 + f, 4), n * 4 + Rem(1 + f, 4), n * 4 + Rem(2 + f, 4),
     n * 4 + Rem(0 + f, 4), n * 4 + Rem(2 + f, 4), n * 4 + Rem(3 + f, 4)]
  }

  /** Unflipped, the two triangles are (0, 1, 2) and (0, 2, 3) of the face's
      vertices and share the diagonal 0-2; flipped, they are (1, 2, 3) and
      (1, 3, 0) and share the diagonal 1-3. Every index names one of the
      face's own four vertices. */
  lemma FaceTrianglesShape(n: int, flip: bool)
    ensures var b := 4 * n;
      FaceTriangles(n, flip) ==
        if flip then [b + 1, b + 2, b + 3, b + 1, b + 3, b]
        else [b, b + 1, b + 2, b, b + 2, b + 3]
    ensures forall i :: 0 <= i < 6 ==> 4 * n <= FaceTriangles(n, flip)[i] < 4 * n + 4
    ensures var t := FaceTriangles(n, flip);
      {t[0], t[1], t[2]} * {t[3], t[4], t[5]} == if flip then {4 * n + 1, 4 * n + 3} else {4 * n, 4 * n + 2}
  {
  }

  /** The four texture coordinates PushFace adds for atlas cell `p`, in
      units of `1 / T_SIZE`: right-bottom, right-top, left-top, left-bottom. */
  function FaceUvs(p: TexPos): seq<Uv>
  {
    [Uv(p.x + 1, p.y), Uv(p.x + 1, p.y + 1), Uv(p.x, p.y + 1), Uv(p.x, p.y)]
  }

  /** One colour per light level, in order. */
  function Shades(color: Tint, light: seq<Byte>): seq<Colour>
  {
    seq(|light|, k requires 0 <= k < |light| => Shade(color, light[k]))
  }

  /** The state after PushFace: colours, triangles and texture coordinates
      for one more face, and the face counted. */
  function Pushed(s: MeshState, texturePos: TexPos, light: seq<Byte>, flip: bool, color: Tint): MeshState
  {
    s.(colors := s.colors + Shades(color, light),
       triangles := s.triangles + FaceTriangles(s.faceCount, flip),
       uv := s.uv + FaceUvs(texturePos),
       faceCount := s.faceCount + 1)
  }

  /** `PushFace`. Each light level indexes the sixteen-entry `lightColors`
      table, so each must be at most MAX_LIGHT. */
  method PushFace(current: MeshBuildInfo, texturePos: TexPos, light: array<Byte>, flip: bool, color: Tint)
    requires forall i :: 0 <= i < light.Length ==> light[i] <= MAX_LIGHT
    modifies current
    ensures current.State() == Pushed(old(current.State()), texturePos, light[..], flip, color)
  {
    for i := 0 to light.Length
      invariant current.colors == old(current.colors) + Shades(color, light[..i])
      invariant current.vertices == old(current.vertices) && current.triangles == old(current.triangles)
      invariant current.uv == old(current.uv) && current.faceCount == old(current.faceCount)
    {
      assert Shades(color, light[..i + 1]) == Shades(color, light[..i]) + [Shade(color, light[i])];
      current.colors := current.colors + [Shade(color, light[i])];
    }
    assert light[..light.Length] == light[..];

    var f := if flip then 1 else 0;
    var faceCount := current.faceCount;
    current.triangles := current.triangles +
      [faceCount * 4 + Rem(0 + f, 4), faceCount * 4 + Rem(1 + f, 4), faceCount * 4 + Rem(2 + f, 4),
       faceCount * 4 + Rem(0 + f, 4), faceCount * 4 + Rem(2 + f, 4), faceCount * 4 + Rem(3 + f, 4)];

    current.uv := current.uv +
      [Uv(texturePos.x + 1, texturePos.y), Uv(texturePos.x + 1, texturePos.y + 1),
       Uv(texturePos.x, texturePos.y + 1), Uv(texturePos.x, texturePos.y)];

    current.faceCount := current.faceCount + 1;
  }

  /** One face as a Cube* method emits it. */
  datatype Quad = Quad(vertices: seq<Vertex>, light: seq<Byte>, flip: bool, texturePos: TexPos, color: Tint)

  /** The state after the face's vertices are added and PushFace has run. */
  function AddQuad(s: MeshState, q: Quad): MeshState
  {
    Pushed(s.(vertices := s.vertices + q.vertices), q.texturePos, q.light, q.flip, q.color)
  }

  /** Adding a face of four vertices and four light levels keeps a state
      well formed and counts one more face. */
  lemma AddQuadKeepsWellFormed(s: MeshState, q: Quad)
    requires WellFormed(s) && |q.vertices| == 4 && |q.light| == 4
    ensures WellFormed(AddQuad(s, q)) && AddQuad(s, q).faceCount == s.faceCount + 1
  {
    var t, n := AddQuad(s, q), s.faceCount;
    FaceTrianglesShape(n, q.flip);
    forall i | 0 <= i < |t.triangles|
      ensures 4 * (i / 6) <= t.triangles[i] < 4 * (i / 6) + 4
    {
      if i >= 6 * n {
        DivModUnique(i, 6, n, i - 6 * n);
        assert t.triangles[i] == FaceTriangles(n, q.flip)[i - 6 * n];
      } else {
        assert t.triangles[i] == s.triangles[i];
      }
    }
  }

  /** Adding faces one after another, in order. */
  function AddQuads(s: MeshState, qs: seq<Quad>): MeshState
    decreases |qs|
  {
    if qs == [] then s else AddQuads(AddQuad(s, qs[0]), qs[1..])
  }

  /** Faces of four vertices and four light levels each. */
  predicate QuadsShaped(qs: seq<Quad>)
  {
    forall i :: 0 <= i < |qs| ==> |qs[i].vertices| == 4 && |qs[i].light| == 4
  }

  /** Two runs of well-shaped faces make one. */
  lemma QuadsShapedAppend(a: seq<Quad>, b: seq<Quad>)
    requires QuadsShaped(a) && QuadsShaped(b)
    ensures QuadsShaped(a + b)
  {
    forall i | 0 <= i < |a + b|
      ensures |(a + b)[i].vertices| == 4 && |(a + b)[i].light| == 4
    {
      if i >= |a| {
        assert (a + b)[i] == b[i - |a|];
      }
    }
  }

  /** Adding well-shaped faces keeps a state well formed and counts each face once. */
  lemma {:induction false} AddQuadsKeepsWellFormed(s: MeshState, qs: seq<Quad>)
    requires WellFormed(s) && QuadsShaped(qs)
    ensures WellFormed(AddQuads(s, qs)) && AddQuads(s, qs).faceCount == s.faceCount + |qs|
    decreases |qs|
  {
    if qs != [] {
      AddQuadKeepsWellFormed(s, qs[0]);
      AddQuadsKeepsWellFormed(AddQuad(s, qs[0]), qs[1..]);
    }
  }

  /** Adding two runs of faces is adding their concatenation. */
  lemma {:induction false} AddQuadsAppend(s: MeshState, a: seq<Quad>, b: seq<Quad>)
    ensures AddQuads(s, a + b) == AddQuads(AddQuads(s, a), b)
    decreases |a|
  {
    if a == [] {
      assert a + b == b;
    } else {
      assert (a + b)[1..] == a[1..] + b;
      AddQuadsAppend(AddQuad(s, a[0]), a[1..], b);
    }
  }

  /** Adding a run of one face is adding the face. */
  lemma AddQuadsSingle(s: MeshState, q: Quad)
    ensures AddQuads(s, [q]) == AddQuad(s, q)
  {
    assert [q][1..] == [];
  }

  /** The corners, in vertex order, that each Cube* method adds. */
  function VertexCorners(f: Face): seq<Corner>
  {
    match f
    case Top => [tNW, tNE, tSE, tSW]
    case North => [bNE, tNE, tNW, bNW]
    case East => [bSE, tSE, tNE, bNE]
    case South => [bSW, tSW, tSE, bSE]
    case West => [bNW, tNW, tSW, bSW]
    case Bottom => [bSW, bSE, bNE, bNW]
  }

  /** The four light samples one smooth corner averages, numbered as the
      3x3 patch is laid out (0 1 2 / 3 4 5 / 6 7 8): the upper-left,
      upper-right, lower-right and lower-left 2x2 blocks. */
  function Patch(q: int): seq<int>
  {
    if q == 0 then [0, 1, 3, 4] else if q == 1 then [1, 2, 4, 5] else if q == 2 then [4, 5, 7, 8] else [3, 4, 6, 7]
  }

  /** Which 2x2 block each corner of face `f` averages. */
  function CornerPatches(f: Face): seq<int>
  {
    match f
    case Top => [0, 1, 2, 3]
    case North => [2, 1, 0, 3]
    case East => [3, 2, 1, 0]
    case South => [3, 0, 1, 2]
    case West => [0, 1, 2, 3]
    case Bottom => [3, 2, 1, 0]
  }

  /** The order in which each Cube* method passes its corners to FlipTriangles. */
  function FlipArguments(f: Face): seq<int>
  {
    match f
    case Top => [0, 1, 2, 3]
    case North => [2, 1, 0, 3]
    case East => [3, 2, 1, 0]
    case South => [1, 2, 3, 0]
    case West => [0, 1, 2, 3]
    case Bottom => [3, 2, 1, 0]
  }

  /** The light of each corner of face `f`: the average of its 2x2 block
      when smooth, the centre sample otherwise. */
  function Corners(f: Face, l: seq<Byte>, smooth: bool): seq<Byte>
    requires |l| == 9
  {
    if smooth then [PatchAverage(f, l, 0), PatchAverage(f, l, 1), PatchAverage(f, l, 2), PatchAverage(f, l, 3)]
    else [l[4], l[4], l[4], l[4]]
  }

  /** The smooth light of corner `k` of face `f`: the average of its 2x2 block. */
  function PatchAverage(f: Face, l: seq<Byte>, k: int): Byte
    requires |l| == 9 && 0 <= k < 4
  {
    var p := Patch(CornerPatches(f)[k]);
    LightAverage(l[p[0]], l[p[1]], l[p[2]], l[p[3]])
  }

  /** Whether face `f` flips its triangles, given its corner lights. */
  predicate Flip(f: Face, c: seq<Byte>, smooth: bool)
    requires |c| == 4
  {
    var a := FlipArguments(f);
    smooth && FlipTriangles(c[a[0]], c[a[1]], c[a[2]], c[a[3]])
  }

  /** The face that the Cube* method of `f` emits for the cell (x, y, z). */
  function CubeQuad(f: Face, x: int, y: int, z: int, tex: TextureLayout, bounds: Bounds,
                    l: seq<Byte>, smooth: bool, color: Tint): Quad
    requires |l| == 9
  {
    var c := Corners(f, l, smooth);
    var v := VertexCorners(f);
    Quad([Vertex(x, y, z, v[0], bounds), Vertex(x, y, z, v[1], bounds),
          Vertex(x, y, z, v[2], bounds), Vertex(x, y, z, v[3], bounds)],
         c, Flip(f, c, smooth), TextureLocation(tex.Of(f)), color)
  }

  /** Without smooth lighting, all four corners take the centre sample and
      the triangles are never flipped. */
  lemma FlatFaceIsUniform(f: Face, l: seq<Byte>)
    requires |l| == 9
    ensures Corners(f, l, false) == [l[4], l[4], l[4], l[4]]
    ensures !Flip(f, Corners(f, l, false), false)
  {
  }

  /** Samples that index the light table give corners that do too. */
  lemma CornersIndexLightTable(f: Face, l: seq<Byte>, smooth: bool)
    requires |l| == 9 && forall i :: 0 <= i < 9 ==> l[i] <= MAX_LIGHT
    ensures |Corners(f, l, smooth)| == 4
    ensures forall k :: 0 <= k < 4 ==> Corners(f, l, smooth)[k] <= MAX_LIGHT
  {
  }

  /** The diagonal the two triangles share (corners 0-2 unflipped, 1-3
      flipped) is the brighter one on the top, north and west faces and the
      darker one on the east, south and bottom faces: the latter three pass
      their corners to FlipTriangles in an order that pairs them the other
      way round. */
  lemma FlipPicksDiagonal(f: Face, c: seq<Byte>)
    requires |c| == 4
    ensures var shared: int := if Flip(f, c, true) then c[1] as int + c[3] else c[0] as int + c[2];
      var other: int := if Flip(f, c, true) then c[0] as int + c[2] else c[1] as int + c[3];
      if f == Top || f == North || f == West then shared >= other else shared <= other
  {
  }

  /** A face emitted by a Cube* method has four vertices and four corner
      lights, all on the cell it was asked for. */
  lemma CubeQuadShaped(f: Face, x: int, y: int, z: int, tex: TextureLayout, bounds: Bounds,
                       l: seq<Byte>, smooth: bool, color: Tint)
    requires |l| == 9
    ensures var q := CubeQuad(f, x, y, z, tex, bounds, l, smooth, color);
      |q.vertices| == 4 && |q.light| == 4 &&
      (forall k :: 0 <= k < 4 ==> q.vertices[k].x == x && q.vertices[k].y == y && q.vertices[k].z == z) &&
      q.texturePos == TextureLocation(tex.Of(f))
  {
  }

  /** The light samples a Cube* method reads and the table PushFace indexes
      with their averages. */
  predicate Samples(l: array<Byte>)
    reads l
  {
    l.Length >= 9 && forall i :: 0 <= i < 9 ==> l[i] <= MAX_LIGHT
  }


  /** `CubeTop`: the four vertices of the top face, then PushFace. */
  method CubeTop(current: MeshBuildInfo, x: int, y: int, z: int, tex: TextureLayout, bounds: Bounds,
                  l: array<Byte>, smooth: bool, color: Tint)
    requires Samples(l)
    modifies current
    ensures current.State() == AddQuad(old(current.State()), CubeQuad(Top, x, y, z, tex, bounds, l[..9], smooth, color))
  {
    current.vertices := current.vertices +
      [Vertex(x, y, z, tNW, bounds), Vertex(x, y, z, tNE, bounds), Vertex(x, y, z, tSE, bounds), Vertex(x, y, z, tSW, bounds)];

    var corners := new Byte[4];
    ghost var c := Corners(Top, l[..9], smooth);
    if smooth {
      corners[0] := LightAverage(l[0], l[1], l[3], l[4]);
      corners[1] := LightAverage(l[1], l[2], l[4], l[5]);
      corners[2] := LightAverage(l[4], l[5], l[7], l[8]);
      corners[3] := LightAverage(l[3], l[4], l[6], l[7]);
    } else {
      for i := 0 to 4
        modifies corners
        invariant forall k :: 0 <= k < i ==> corners[k] == l[4]
      {
        corners[i] := l[4];
      }
    }

    var flip := if !smooth then false else FlipTriangles(corners[0], corners[1], corners[2], corners[3]);

    var textureID := tex.texTop;
    assert corners[..] == c;
    PushFace(current, TextureLocation(textureID), corners, flip, color);
  }

  /** `CubeNorth`: the four vertices of the north face, then PushFace. */
  method CubeNorth(current: MeshBuildInfo, x: int, y: int, z: int, tex: TextureLayout, bounds: Bounds,
                  l: array<Byte>, smooth: bool, color: Tint)
    requires Samples(l)
    modifies current
    ensures current.State() == AddQuad(old(current.State()), CubeQuad(North, x, y, z, tex, bounds, l[..9], smooth, color))
  {
    current.vertices := current.vertices +
      [Vertex(x, y, z, bNE, bounds), Vertex(x, y, z, tNE, bounds), Vertex(x, y, z, tNW, bounds), Vertex(x, y, z, bNW, bounds)];

    var corners := new Byte[4];
    ghost var c := Corners(North, l[..9], smooth);
    if smooth {
      corners[0] := LightAverage(l[4], l[5], l[7], l[8]);
      corners[1] := LightAverage(l[1], l[2], l[4], l[5]);
      corners[2] := LightAverage(l[0], l[1], l[3], l[4]);
      corners[3] := LightAverage(l[3], l[4], l[6], l[7]);
    } else {
      for i := 0 to 4
        modifies corners
        invariant forall k :: 0 <= k < i ==> corners[k] == l[4]
      {
        corners[i] := l[4];
      }
    }

    var flip := if !smooth then false else FlipTriangles(corners[2], corners[1], corners[0], corners[3]);

    var textureID := tex.texNorth;
    assert corners[..] == c;
    PushFace(current, TextureLocation(textureID), corners, flip, color);
  }

  /** `CubeEast`: the four vertices of the east face, then PushFace. */
  method CubeEast(current: MeshBuildInfo, x: int, y: int, z: int, tex: TextureLayout, bounds: Bounds,
                  l: array<Byte>, smooth: bool, color: Tint)
    requires Samples(l)
    modifies current
    ensures current.State() == AddQuad(old(current.State()), CubeQuad(East, x, y, z, tex, bounds, l[..9], smooth, color))
  {
    current.vertices := current.vertices +
      [Vertex(x, y, z, bSE, bounds), Vertex(x, y, z, tSE, bounds), Vertex(x, y, z, tNE, bounds), Vertex(x, y, z, bNE, bounds)];

    var corners := new Byte[4];
    ghost var c := Corners(East, l[..9], smooth);
    if smooth {
      corners[0] := LightAverage(l[3], l[4], l[6], l[7]);
      corners[1] := LightAverage(l[4], l[5], l[7], l[8]);
      corners[2] := LightAverage(l[1], l[2], l[4], l[5]);
      corners[3] := LightAverage(l[0], l[1], l[3], l[4]);
    } else {
      for i := 0 to 4
        modifies corners
        invariant forall k :: 0 <= k < i ==> corners[k] == l[4]
      {
        corners[i] := l[4];
      }
    }

    var flip := if !smooth then false else FlipTriangles(corners[3], corners[2], corners[1], corners[0]);

    var textureID := tex.texEast;
    assert corners[..] == c;
    PushFace(current, TextureLocation(textureID), corners, flip, color);
  }

  /** `CubeSouth`: the four vertices of the south face, then PushFace. */
  method CubeSouth(current: MeshBuildInfo, x: int, y: int, z: int, tex: TextureLayout, bounds: Bounds,
                  l: array<Byte>, smooth: bool, color: Tint)
    requires Samples(l)
    modifies current
    ensures current.State() == AddQuad(old(current.State()), CubeQuad(South, x, y, z, tex, bounds, l[..9], smooth, color))
  {
    current.vertices := current.vertices +
      [Vertex(x, y, z, bSW, bounds), Vertex(x, y, z, tSW, bounds), Vertex(x, y, z, tSE, bounds), Vertex(x, y, z, bSE, bounds)];

    var corners := new Byte[4];
    ghost var c := Corners(South, l[..9], smooth);
    if smooth {
      corners[0] := LightAverage(l[3], l[4], l[6], l[7]);
      corners[1] := LightAverage(l[0], l[1], l[3], l[4]);
      corners[2] := LightAverage(l[1], l[2], l[4], l[5]);
      corners[3] := LightAverage(l[4], l[5], l[7], l[8]);
    } else {
      for i := 0 to 4
        modifies corners
        invariant forall k :: 0 <= k < i ==> corners[k] == l[4]
      {
        corners[i] := l[4];
      }
    }

    var flip := if !smooth then false else FlipTriangles(corners[1], corners[2], corners[3], corners[0]);

    var textureID := tex.texSouth;
    assert corners[..] == c;
    PushFace(current, TextureLocation(textureID), corners, flip, color);
  }

  /** `CubeWest`: the four vertices of the west face, then PushFace. */
  method CubeWest(current: MeshBuildInfo, x: int, y: int, z: int, tex: TextureLayout, bounds: Bounds,
                  l: array<Byte>, smooth: bool, color: Tint)
    requires Samples(l)
    modifies current
    ensures current.State() == AddQuad(old(current.State()), CubeQuad(West, x, y, z, tex, bounds, l[..9], smooth, color))
  {
    current.vertices := current.vertices +
      [Vertex(x, y, z, bNW, bounds), Vertex(x, y, z, tNW, bounds), Vertex(x, y, z, tSW, bounds), Vertex(x, y, z, bSW, bounds)];

    var corners := new Byte[4];
    ghost var c := Corners(West, l[..9], smooth);
    if smooth {
      corners[0] := LightAverage(l[0], l[1], l[3], l[4]);
      corners[1] := LightAverage(l[1], l[2], l[4], l[5]);
      corners[2] := LightAverage(l[4], l[5], l[7], l[8]);
      corners[3] := LightAverage(l[3], l[4], l[6], l[7]);
    } else {
      for i := 0 to 4
        modifies corners
        invariant forall k :: 0 <= k < i ==> corners[k] == l[4]
      {
        corners[i] := l[4];
      }
    }

    var flip := if !smooth then false else FlipTriangles(corners[0], corners[1], corners[2], corners[3]);

    var textureID := tex.texWest;
    assert corners[..] == c;
    PushFace(current, TextureLocation(textureID), corners, flip, color);
  }

  /** `CubeBottom`: the four vertices of the bottom face, then PushFace. */
  method CubeBottom(current: MeshBuildInfo, x: int, y: int, z: int, tex: TextureLayout, bounds: Bounds,
                  l: array<Byte>, smooth: bool, color: Tint)
    requires Samples(l)
    modifies current
    ensures current.State() == AddQuad(old(current.State()), CubeQuad(Bottom, x, y, z, tex, bounds, l[..9], smooth, color))
  {
    current.vertices := current.vertices +
      [Vertex(x, y, z, bSW, bounds), Vertex(x, y, z, bSE, bounds), Vertex(x, y, z, bNE, bounds), Vertex(x, y, z, bNW, bounds)];

    var corners := new Byte[4];
    ghost var c := Corners(Bottom, l[..9], smooth);
    if smooth {
      corners[0] := LightAverage(l[3], l[4], l[6], l[7]);
      corners[1] := LightAverage(l[4], l[5], l[7], l[8]);
      corners[2] := LightAverage(l[1], l[2], l[4], l[5]);
      corners[3] := LightAverage(l[0], l[1], l[3], l[4]);
    } else {
      for i := 0 to 4
        modifies corners
        invariant forall k :: 0 <= k < i ==> corners[k] == l[4]
      {
        corners[i] := l[4];
      }
    }

    var flip := if !smooth then false else FlipTriangles(corners[3], corners[2], corners[1], corners[0]);

    var textureID := tex.texBottom;
    assert corners[..] == c;
    PushFace(current, TextureLocation(textureID), corners, flip, color);
  }
}
