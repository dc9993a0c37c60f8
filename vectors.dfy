/** The integer vector value types used as column and chunk coordinates. */
module Vectors {

  /** A column coordinate: `x` and `z` in column units. */
  datatype Vector2i = Vector2i(x: int, z: int) {

    /** `Equals`: both components agree. */
    predicate Equals(other: Vector2i)
      ensures Equals(other) <==> this == other
    {
      other.x == x && other.z == z
    }

    /** `operator +` */
    function Plus(b: Vector2i): Vector2i
    {
      Vector2i(x + b.x, z + b.z)
    }

    /** `operator -` */
    function Minus(b: Vector2i): Vector2i
    {
      Vector2i(x - b.x, z - b.z)
    }
  }

  /** A chunk coordinate: `x`, `y` and `z` in chunk units. */
  datatype Vector3i = Vector3i(x: int, y: int, z: int) {

    /** `Equals`: all three components agree. */
    predicate Equals(other: Vector3i)
      ensures Equals(other) <==> this == other
    {
      other.x == x && other.y == y && other.z == z
    }

    /** `operator +` */
    function Plus(b: Vector3i): Vector3i
    {
      Vector3i(x + b.x, y + b.y, z + b.z)
    }

    /** `operator -` */
    function Minus(b: Vector3i): Vector3i
    {
      Vector3i(x - b.x, y - b.y, z - b.z)
    }

    /** The integer `Distance` takes the square root of, as written: its
        y difference is `other.z - z`, so z counts twice and y not at all. */
    function DistanceSquaredAsWritten(other: Vector3i): (r: int)
      ensures r >= 0
    {
      var xDiff, yDiff, zDiff := other.x - x, other.z - z, other.z - z;
      Square(xDiff) + Square(yDiff) + Square(zDiff)
    }

    /** The integer under the square root with the y difference `other.y - y`:
        zero exactly when the two vectors are equal. */
    function DistanceSquared(other: Vector3i): (r: int)
      ensures r >= 0 && (r == 0 <==> this == other)
    {
      var xDiff, yDiff, zDiff := other.x - x, other.y - y, other.z - z;
      SquareZero(xDiff);
      SquareZero(yDiff);
      SquareZero(zDiff);
      Square(xDiff) + Square(yDiff) + Square(zDiff)
    }
  }

  function Square(a: int): int { a * a }

  /** A square is never negative and is zero only at zero. */
  lemma SquareZero(a: int)
    ensures Square(a) >= 0 && (Square(a) == 0 <==> a == 0)
  {
    if a > 0 {
      assert Square(a) == a * a >= a;
    } else if a < 0 {
      assert Square(a) == (-a) * (-a) >= -a;
    }
  }

  /** Two different chunk positions one above the other are at distance zero
      as written, and at distance 5 once y is read from y. */
  lemma DistanceAsWrittenIgnoresY()
    ensures Vector3i(0, 0, 0) != Vector3i(0, 5, 0)
    ensures Vector3i(0, 0, 0).DistanceSquaredAsWritten(Vector3i(0, 5, 0)) == 0
    ensures Vector3i(0, 0, 0).DistanceSquared(Vector3i(0, 5, 0)) == 25
  {
  }

  /** Adding is componentwise, for both vector types. */
  lemma PlusComponentwise(a: Vector2i, b: Vector2i, c: Vector3i, d: Vector3i)
    ensures a.Plus(b).x == a.x + b.x && a.Plus(b).z == a.z + b.z
    ensures c.Plus(d).x == c.x + d.x && c.Plus(d).y == c.y + d.y && c.Plus(d).z == c.z + d.z
    ensures a.Minus(b).x == a.x - b.x && a.Minus(b).z == a.z - b.z
    ensures c.Minus(d).x == c.x - d.x && c.Minus(d).y == c.y - d.y && c.Minus(d).z == c.z - d.z
  {
  }

  /** Subtracting undoes adding and adding undoes subtracting, and adding
      commutes, for both vector types. */
  lemma PlusMinusInverse(a: Vector2i, b: Vector2i, c: Vector3i, d: Vector3i)
    ensures a.Plus(b).Minus(b) == a && a.Minus(b).Plus(b) == a
    ensures c.Plus(d).Minus(d) == c && c.Minus(d).Plus(d) == c
    ensures a.Plus(b) == b.Plus(a) && c.Plus(d) == d.Plus(c)
  {
  }
}
