/** The order in which the chunk loops visit cells: `for x { for y { for z
    { ... } } }`, each coordinate running over `[0, n)`. */
module CellOrder {
  import opened FaceGeometry

  predicate InCube(c: Cell, n: int)
  {
    0 <= c.x < n && 0 <= c.y < n && 0 <= c.z < n
  }

  /** Lexicographic order on (x, y, z), the order of the loop nest. */
  predicate Before(a: Cell, b: Cell)
  {
    a.x < b.x || (a.x == b.x && (a.y < b.y || (a.y == b.y && a.z < b.z)))
  }

  /** The cells (x, y, z') for z' < z. */
  function Cells(x: int, y: int, z: nat): seq<Cell>
  {
    if z == 0 then [] else Cells(x, y, z - 1) + [Cell(x, y, z - 1)]
  }

  /** The cells (x, y', z) for y' < y and z < n. */
  function Lines(n: nat, x: int, y: nat): seq<Cell>
  {
    if y == 0 then [] else Lines(n, x, y - 1) + Cells(x, y - 1, n)
  }

  /** The cells (x', y, z) for x' < x and y, z < n. */
  function Planes(n: nat, x: nat): seq<Cell>
  {
    if x == 0 then [] else Planes(n, x - 1) + Lines(n, x - 1, n)
  }

  /** Every cell the full loop nest visits, in visiting order. */
  function Order(n: nat): seq<Cell>
  {
    Planes(n, n)
  }

  predicate Increasing(s: seq<Cell>)
  {
    forall i, j :: 0 <= i < j < |s| ==> Before(s[i], s[j])
  }

  lemma {:induction false} CellsShape(x: int, y: int, z: nat)
    ensures |Cells(x, y, z)| == z
    ensures forall c :: c in Cells(x, y, z) <==> c.x == x && c.y == y && 0 <= c.z < z
    ensures Increasing(Cells(x, y, z))
    decreases z
  {
    if z == 0 {
      assert Cells(x, y, z) == [];
    } else {
      CellsShape(x, y, z - 1);
      assert Cells(x, y, z) == Cells(x, y, z - 1) + [Cell(x, y, z - 1)];
    }
  }

  /** Joining two increasing runs, all of the first before all of the second. */
  lemma AppendIncreasing(a: seq<Cell>, b: seq<Cell>)
    requires Increasing(a) && Increasing(b)
    requires forall c, d :: c in a && d in b ==> Before(c, d)
    ensures Increasing(a + b)
  {
    forall i, j | 0 <= i < j < |a + b|
      ensures Before((a + b)[i], (a + b)[j])
    {
      if j < |a| {
      } else if i >= |a| {
        assert (a + b)[i] == b[i - |a|] && (a + b)[j] == b[j - |a|];
      } else {
        assert (a + b)[i] == a[i] && a[i] in a;
        assert (a + b)[j] == b[j - |a|] && b[j - |a|] in b;
      }
    }
  }

  lemma {:induction false} LinesLength(n: nat, x: int, y: nat)
    ensures |Lines(n, x, y)| == y * n
    decreases y
  {
    if y == 0 {
      assert Lines(n, x, y) == [];
    } else {
      LinesLength(n, x, y - 1);
      CellsShape(x, y - 1, n);
      assert |Lines(n, x, y)| == |Lines(n, x, y - 1)| + |Cells(x, y - 1, n)|;
      assert (y - 1) * n + n == y * n;
    }
  }

  lemma {:induction false} LinesShape(n: nat, x: int, y: nat)
    ensures forall c :: c in Lines(n, x, y) <==> c.x == x && 0 <= c.y < y && 0 <= c.z < n
    ensures Increasing(Lines(n, x, y))
    decreases y
  {
    if y == 0 {
      assert Lines(n, x, y) == [];
    } else {
      var k: nat := y - 1;
      var a, b := Lines(n, x, k), Cells(x, k, n);
      LinesShape(n, x, k);
      CellsShape(x, k, n);
      forall c, d | c in a && d in b
        ensures Before(c, d)
      {
        assert c.y < k == d.y;
      }
      AppendIncreasing(a, b);
      LinesUnfold(n, x, k, y);
    }
  }

  lemma LinesUnfold(n: nat, x: int, k: nat, y: nat)
    requires y == k + 1
    ensures Lines(n, x, y) == Lines(n, x, k) + Cells(x, k, n)
  {
  }

  lemma {:induction false} PlanesLength(n: nat, x: nat)
    ensures |Planes(n, x)| == x * (n * n)
    decreases x
  {
    if x == 0 {
      assert Planes(n, x) == [];
    } else {
      PlanesLength(n, x - 1);
      LinesLength(n, x - 1, n);
      assert |Planes(n, x)| == |Planes(n, x - 1)| + |Lines(n, x - 1, n)|;
      assert (x - 1) * (n * n) + n * n == x * (n * n);
    }
  }

  lemma {:induction false} PlanesShape(n: nat, x: nat)
    ensures forall c :: c in Planes(n, x) <==> 0 <= c.x < x && 0 <= c.y < n && 0 <= c.z < n
    ensures Increasing(Planes(n, x))
    decreases x
  {
    if x == 0 {
      assert Planes(n, x) == [];
    } else {
      var k: nat := x - 1;
      var a, b := Planes(n, k), Lines(n, k, n);
      PlanesShape(n, k);
      LinesShape(n, k, n);
      forall c, d | c in a && d in b
        ensures Before(c, d)
      {
        assert c.x < k == d.x;
      }
      AppendIncreasing(a, b);
      PlanesUnfold(n, k, x);
    }
  }

  /** The loop nest visits exactly the n^3 cells of the cube, each once, in
      lexicographic order. */
  lemma OrderVisitsEachCellOnce(n: nat)
    ensures |Order(n)| == n * n * n
    ensures forall c :: c in Order(n) <==> InCube(c, n)
    ensures Increasing(Order(n))
    ensures forall i, j :: 0 <= i < j < |Order(n)| ==> Order(n)[i] != Order(n)[j]
  {
    OrderLength(n);
    PlanesShape(n, n);
    IncreasingDistinct(Order(n));
  }

  lemma OrderLength(n: nat)
    ensures |Order(n)| == n * n * n
  {
    PlanesLength(n, n);
    assert n * (n * n) == n * n * n;
  }

  lemma IncreasingDistinct(s: seq<Cell>)
    requires Increasing(s)
    ensures forall i, j :: 0 <= i < j < |s| ==> s[i] != s[j]
  {
    forall i, j | 0 <= i < j < |s|
      ensures s[i] != s[j]
    {
      assert Before(s[i], s[j]);
    }
  }

  // ------------------------------------------------------------------
  // What a loop nest produces when each visited cell contributes a
  // sequence: the contributions joined in visiting order.

  /** The contributions of the cells `cs`, in order. */
  function FlatMap<T>(f: Cell -> seq<T>, cs: seq<Cell>): seq<T>
  {
    if cs == [] then [] else FlatMap(f, cs[..|cs| - 1]) + f(cs[|cs| - 1])
  }

  /** One run of the innermost loop up to z. */
  function FlatCells<T>(f: Cell -> seq<T>, x: int, y: int, z: nat): seq<T>
  {
    if z == 0 then [] else FlatCells(f, x, y, z - 1) + f(Cell(x, y, z - 1))
  }

  /** The middle loop up to y. */
  function FlatLines<T>(f: Cell -> seq<T>, n: nat, x: int, y: nat): seq<T>
  {
    if y == 0 then [] else FlatLines(f, n, x, y - 1) + FlatCells(f, x, y - 1, n)
  }

  /** The outer loop up to x. */
  function FlatPlanes<T>(f: Cell -> seq<T>, n: nat, x: nat): seq<T>
  {
    if x == 0 then [] else FlatPlanes(f, n, x - 1) + FlatLines(f, n, x - 1, n)
  }

  lemma {:induction false} FlatMapAppend<T>(f: Cell -> seq<T>, a: seq<Cell>, b: seq<Cell>)
    ensures FlatMap(f, a + b) == FlatMap(f, a) + FlatMap(f, b)
    decreases |b|
  {
    if b == [] {
      assert a + b == a;
    } else {
      var b' := b[..|b| - 1];
      assert (a + b)[..|a + b| - 1] == a + b';
      FlatMapAppend(f, a, b');
    }
  }

  lemma {:induction false} FlatCellsIsFlatMap<T>(f: Cell -> seq<T>, x: int, y: int, z: nat)
    ensures FlatCells(f, x, y, z) == FlatMap(f, Cells(x, y, z))
    decreases z
  {
    if z == 0 {
      assert Cells(x, y, z) == [];
      assert FlatCells(f, x, y, z) == [];
    } else {
      var k: nat := z - 1;
      FlatCellsIsFlatMap(f, x, y, k);
      FlatCellsSucc(f, x, y, k, z);
    }
  }

  lemma FlatCellsSucc<T>(f: Cell -> seq<T>, x: int, y: int, k: nat, z: nat)
    requires z == k + 1
    requires FlatCells(f, x, y, k) == FlatMap(f, Cells(x, y, k))
    ensures FlatCells(f, x, y, z) == FlatMap(f, Cells(x, y, z))
  {
    assert Cells(x, y, z) == Cells(x, y, k) + [Cell(x, y, k)];
    assert FlatCells(f, x, y, z) == FlatCells(f, x, y, k) + f(Cell(x, y, k));
    FlatMapAppend(f, Cells(x, y, k), [Cell(x, y, k)]);
    assert [Cell(x, y, k)][..0] == [];
  }

  lemma {:induction false} FlatLinesIsFlatMap<T>(f: Cell -> seq<T>, n: nat, x: int, y: nat)
    ensures FlatLines(f, n, x, y) == FlatMap(f, Lines(n, x, y))
    decreases y
  {
    if y == 0 {
      assert Lines(n, x, y) == [];
      assert FlatLines(f, n, x, y) == [];
    } else {
      var k: nat := y - 1;
      FlatLinesIsFlatMap(f, n, x, k);
      FlatLinesSucc(f, n, x, k, y);
    }
  }

  lemma FlatLinesSucc<T>(f: Cell -> seq<T>, n: nat, x: int, k: nat, y: nat)
    requires y == k + 1
    requires FlatLines(f, n, x, k) == FlatMap(f, Lines(n, x, k))
    ensures FlatLines(f, n, x, y) == FlatMap(f, Lines(n, x, y))
  {
    assert Lines(n, x, y) == Lines(n, x, k) + Cells(x, k, n);
    assert FlatLines(f, n, x, y) == FlatLines(f, n, x, k) + FlatCells(f, x, k, n);
    FlatCellsIsFlatMap(f, x, k, n);
    FlatMapAppend(f, Lines(n, x, k), Cells(x, k, n));
  }

  lemma {:induction false} FlatPlanesIsFlatMap<T>(f: Cell -> seq<T>, n: nat, x: nat)
    ensures FlatPlanes(f, n, x) == FlatMap(f, Planes(n, x))
    decreases x
  {
    if x == 0 {
      assert Planes(n, x) == [];
      assert FlatPlanes(f, n, x) == [];
    } else {
      var k: nat := x - 1;
      FlatPlanesIsFlatMap(f, n, k);
      FlatPlanesSucc(f, n, k, x);
    }
  }

  lemma FlatPlanesSucc<T>(f: Cell -> seq<T>, n: nat, k: nat, x: nat)
    requires x == k + 1
    requires FlatPlanes(f, n, k) == FlatMap(f, Planes(n, k))
    ensures FlatPlanes(f, n, x) == FlatMap(f, Planes(n, x))
  {
    PlanesUnfold(n, k, x);
    FlatPlanesUnfold(f, n, k, x);
    FlatLinesIsFlatMap(f, n, k, n);
    FlatMapAppend(f, Planes(n, k), Lines(n, k, n));
  }

  lemma PlanesUnfold(n: nat, k: nat, x: nat)
    requires x == k + 1
    ensures Planes(n, x) == Planes(n, k) + Lines(n, k, n)
  {
  }

  lemma FlatPlanesUnfold<T>(f: Cell -> seq<T>, n: nat, k: nat, x: nat)
    requires x == k + 1
    ensures FlatPlanes(f, n, x) == FlatPlanes(f, n, k) + FlatLines(f, n, k, n)
  {
  }

  /** The full loop nest joins the contributions of the cells in Order. */
  lemma FlatPlanesFollowOrder<T>(f: Cell -> seq<T>, n: nat)
    ensures FlatPlanes(f, n, n) == FlatMap(f, Order(n))
  {
    FlatPlanesIsFlatMap(f, n, n);
  }

  // Single steps of the three loops, for a loop whose output so far is
  // `pre` followed by the run in progress.

  /** The innermost loop appends the contribution of (x, y, z). */
  lemma FlatCellsNext<T>(f: Cell -> seq<T>, pre: seq<T>, x: int, y: int, z: nat, d: seq<T>)
    requires d == f(Cell(x, y, z))
    ensures pre + FlatCells(f, x, y, z) + d == pre + FlatCells(f, x, y, z + 1)
  {
  }

  /** A finished innermost run completes one more line. */
  lemma FlatLinesNext<T>(f: Cell -> seq<T>, pre: seq<T>, n: nat, x: int, y: nat)
    ensures pre + FlatLines(f, n, x, y) + FlatCells(f, x, y, n) == pre + FlatLines(f, n, x, y + 1)
  {
  }

  /** A finished middle run completes one more plane. */
  lemma FlatPlanesNext<T>(f: Cell -> seq<T>, n: nat, x: nat)
    ensures FlatPlanes(f, n, x) + FlatLines(f, n, x, n) == FlatPlanes(f, n, x + 1)
  {
  }
}
