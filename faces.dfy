/** The six faces of a cube and the cells the renderers look at for each:
    the neighbour that decides whether the face is drawn, and the 3x3 patch
    of cells whose light the smooth-lighting loops sample. */
module FaceGeometry {

  datatype Face = Top | Bottom | East | West | North | South {
    predicate IsSide() { this == East || this == West || this == North || this == South }
  }

  /** The order in which Block.Render and RenderFullBlock.Render test the faces. */
  const RenderOrder: seq<Face> := [Top, Bottom, East, West, North, South]

  lemma RenderOrderCoversEachFaceOnce()
    ensures |RenderOrder| == 6
    ensures forall f: Face :: f in RenderOrder
    ensures forall i, j :: 0 <= i < j < |RenderOrder| ==> RenderOrder[i] != RenderOrder[j]
  {
    forall f: Face ensures f in RenderOrder {
      match f
      case Top => assert RenderOrder[0] == f;
      case Bottom => assert RenderOrder[1] == f;
      case East => assert RenderOrder[2] == f;
      case West => assert RenderOrder[3] == f;
      case North => assert RenderOrder[4] == f;
      case South => assert RenderOrder[5] == f;
    }
  }

  datatype Cell = Cell(x: int, y: int, z: int)

  /** The cell across the face: y + 1 for Top, x + 1 for East, z + 1 for North. */
  function Neighbour(f: Face, c: Cell): Cell
  {
    match f
    case Top => Cell(c.x, c.y + 1, c.z)
    case Bottom => Cell(c.x, c.y - 1, c.z)
    case East => Cell(c.x + 1, c.y, c.z)
    case West => Cell(c.x - 1, c.y, c.z)
    case North => Cell(c.x, c.y, c.z + 1)
    case South => Cell(c.x, c.y, c.z - 1)
  }

  /** The light-sample slot of the outer loop variable `i` and the inner one
      `j` (both in -1..1): `l[3 * (i + 1) + (j + 1)]`. */
  function Slot(i: int, j: int): int { 3 * (i + 1) + (j + 1) }

  /** The cell sampled for outer loop variable `i` and inner loop variable
      `j`. Top and Bottom loop over zz then xx and read `(x + xx, y +- 1,
      z - zz)`; East and West loop over zz then yy and read `(x +- 1, y + yy,
      z - zz)`; North and South loop over yy then xx and read `(x + xx,
      y - yy, z +- 1)`. */
  function SampleCell(f: Face, c: Cell, i: int, j: int): Cell
  {
    match f
    case Top => Cell(j + c.x, c.y + 1, -i + c.z)
    case Bottom => Cell(j + c.x, c.y - 1, -i + c.z)
    case East => Cell(c.x + 1, j + c.y, -i + c.z)
    case West => Cell(c.x - 1, j + c.y, -i + c.z)
    case North => Cell(j + c.x, -i + c.y, c.z + 1)
    case South => Cell(j + c.x, -i + c.y, c.z - 1)
  }

  /** The loop variables that fill slot `k` of 0..8: the outer one is
      `k / 3 - 1` and the inner one `k % 3 - 1`, written without division. */
  function Outer(k: int): int { if k < 3 then -1 else if k < 6 then 0 else 1 }
  function Inner(k: int): int { k - 3 * (Outer(k) + 1) - 1 }

  lemma SlotInverse(i: int, j: int)
    requires -1 <= i <= 1 && -1 <= j <= 1
    ensures 0 <= Slot(i, j) < 9 && Outer(Slot(i, j)) == i && Inner(Slot(i, j)) == j
  {
  }

  lemma SlotOfLoopVariables(k: int)
    requires 0 <= k < 9
    ensures -1 <= Outer(k) <= 1 && -1 <= Inner(k) <= 1 && Slot(Outer(k), Inner(k)) == k
  {
  }

  /** The two sampling loops write each of the nine slots exactly once: the
      slot map is one-to-one on -1..1 x -1..1, and every slot 0..8 is reached
      from loop variables in range. The centre slot 4 samples the neighbour
      itself. */
  lemma SlotsFilledOnce()
    ensures forall i, j, i', j' ::
      (-1 <= i <= 1 && -1 <= j <= 1 && -1 <= i' <= 1 && -1 <= j' <= 1 && Slot(i, j) == Slot(i', j'))
      ==> i == i' && j == j'
    ensures forall k :: 0 <= k < 9 ==>
      -1 <= Outer(k) <= 1 && -1 <= Inner(k) <= 1 && Slot(Outer(k), Inner(k)) == k
    ensures forall i, j :: -1 <= i <= 1 && -1 <= j <= 1 ==>
      0 <= Slot(i, j) < 9 && Outer(Slot(i, j)) == i && Inner(Slot(i, j)) == j
    ensures Slot(0, 0) == 4
    ensures forall f: Face, c: Cell :: SampleCell(f, c, 0, 0) == Neighbour(f, c)
  {
    forall i, j | -1 <= i <= 1 && -1 <= j <= 1
      ensures 0 <= Slot(i, j) < 9 && Outer(Slot(i, j)) == i && Inner(Slot(i, j)) == j
    {
      SlotInverse(i, j);
    }
    forall k | 0 <= k < 9
      ensures -1 <= Outer(k) <= 1 && -1 <= Inner(k) <= 1 && Slot(Outer(k), Inner(k)) == k
    {
      SlotOfLoopVariables(k);
    }
  }

  /** The faces of `fs` that satisfy `p`, in order. */
  function Keep(p: Face -> bool, fs: seq<Face>): (r: seq<Face>)
    ensures |r| <= |fs|
  {
    if fs == [] then [] else Keep(p, fs[..|fs| - 1]) + (if p(fs[|fs| - 1]) then [fs[|fs| - 1]] else [])
  }

  /** `g` of each face of `fs`, in order. */
  function MapFaces<T>(g: Face -> T, fs: seq<Face>): (r: seq<T>)
    ensures |r| == |fs|
  {
    if fs == [] then [] else MapFaces(g, fs[..|fs| - 1]) + [g(fs[|fs| - 1])]
  }

  /** A face is kept exactly when it is one of `fs` and satisfies `p`. */
  lemma {:induction false} KeepIff(p: Face -> bool, fs: seq<Face>, f: Face)
    ensures f in Keep(p, fs) <==> f in fs && p(f)
  {
    if fs != [] {
      var init := fs[..|fs| - 1];
      KeepIff(p, init, f);
      assert fs == init + [fs[|fs| - 1]];
    }
  }

  /** Mapping over two runs of faces is mapping over their concatenation. */
  lemma {:induction false} MapFacesAppend<T>(g: Face -> T, a: seq<Face>, b: seq<Face>)
    ensures MapFaces(g, a + b) == MapFaces(g, a) + MapFaces(g, b)
    decreases |b|
  {
    if b == [] {
      assert a + b == a;
    } else {
      var init := b[..|b| - 1];
      assert (a + b)[..|a + b| - 1] == a + init;
      MapFacesAppend(g, a, init);
    }
  }

  /** `g(f)` when `f` satisfies `p`, nothing otherwise. */
  function Sel<T>(p: Face -> bool, g: Face -> T, f: Face): seq<T>
  {
    if p(f) then [g(f)] else []
  }

  /** Keeping `p` and mapping `g` over a run of faces followed by `f` adds
      `g(f)` exactly when `f` satisfies `p`. */
  lemma KeepMapSnoc<T>(p: Face -> bool, g: Face -> T, fs: seq<Face>, f: Face)
    ensures MapFaces(g, Keep(p, fs + [f])) == MapFaces(g, Keep(p, fs)) + Sel(p, g, f)
  {
    assert (fs + [f])[..|fs + [f]| - 1] == fs;
    var sel := if p(f) then [f] else [];
    MapFacesAppend(g, Keep(p, fs), sel);
    if p(f) {
      assert [f][..0] == [];
    }
  }

  /** Each face of `fs` in turn, adding `g` of each face that satisfies `p`. */
  function SelAll<T>(p: Face -> bool, g: Face -> T, fs: seq<Face>): seq<T>
  {
    if fs == [] then [] else SelAll(p, g, fs[..|fs| - 1]) + Sel(p, g, fs[|fs| - 1])
  }

  /** Keeping and then mapping is testing each face in turn. */
  lemma {:induction false} KeepMapSelAll<T>(p: Face -> bool, g: Face -> T, fs: seq<Face>)
    ensures MapFaces(g, Keep(p, fs)) == SelAll(p, g, fs)
  {
    if fs != [] {
      var init, f := fs[..|fs| - 1], fs[|fs| - 1];
      KeepMapSelAll(p, g, init);
      assert fs == init + [f];
      KeepMapSnoc(p, g, init, f);
    }
  }

  /** Over the render order, keeping and mapping is testing each face in
      turn and adding `g` of each face that passes. */
  lemma KeepMapInRenderOrder<T>(p: Face -> bool, g: Face -> T)
    ensures MapFaces(g, Keep(p, RenderOrder)) ==
      Sel(p, g, Top) + Sel(p, g, Bottom) + Sel(p, g, East) + Sel(p, g, West) + Sel(p, g, North) + Sel(p, g, South)
  {
    KeepMapSelAll(p, g, RenderOrder);
    var r := RenderOrder;
    assert r[..1][..0] == [] && r[..2][..1] == r[..1] && r[..3][..2] == r[..2];
    assert r[..4][..3] == r[..3] && r[..5][..4] == r[..4] && r[..5] == r[..|r| - 1];
    assert SelAll(p, g, r[..1]) == Sel(p, g, Top);
    assert SelAll(p, g, r[..2]) == Sel(p, g, Top) + Sel(p, g, Bottom);
    assert SelAll(p, g, r[..3]) == Sel(p, g, Top) + Sel(p, g, Bottom) + Sel(p, g, East);
    assert SelAll(p, g, r[..4]) == Sel(p, g, Top) + Sel(p, g, Bottom) + Sel(p, g, East) + Sel(p, g, West);
    assert SelAll(p, g, r[..5]) ==
      Sel(p, g, Top) + Sel(p, g, Bottom) + Sel(p, g, East) + Sel(p, g, West) + Sel(p, g, North);
  }

  /** Keeping faces of a run without repeats gives a run without repeats. */
  lemma {:induction false} KeepDistinct(p: Face -> bool, fs: seq<Face>)
    requires forall i, j :: 0 <= i < j < |fs| ==> fs[i] != fs[j]
    ensures forall i, j :: 0 <= i < j < |Keep(p, fs)| ==> Keep(p, fs)[i] != Keep(p, fs)[j]
  {
    if fs != [] {
      var init, f := fs[..|fs| - 1], fs[|fs| - 1];
      KeepDistinct(p, init);
      KeepIff(p, init, f);
      assert f !in init;
    }
  }

  /** The faces the render order keeps are exactly the faces satisfying
      `p`, each once. */
  lemma KeepRenderOrder(p: Face -> bool)
    ensures forall f: Face :: f in Keep(p, RenderOrder) <==> p(f)
    ensures forall i, j :: 0 <= i < j < |Keep(p, RenderOrder)| ==> Keep(p, RenderOrder)[i] != Keep(p, RenderOrder)[j]
  {
    RenderOrderCoversEachFaceOnce();
    forall f: Face
      ensures f in Keep(p, RenderOrder) <==> p(f)
    {
      KeepIff(p, RenderOrder, f);
    }
    KeepDistinct(p, RenderOrder);
  }
}
