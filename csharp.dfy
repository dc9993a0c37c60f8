/** C#'s integer types and its truncating integer division, written out on
    Dafny's unbounded integers (whose `/` and `%` are Euclidean). */
module CSharp {

  /** C#'s `byte` (0..255). */
  type Byte = x: int | 0 <= x < 0x100

  /** C#'s `ushort` (0..65535). */
  type UShort = x: int | 0 <= x < 0x1_0000

  function Abs(a: int): nat { if a < 0 then -a else a }

  /** C#'s `a / b`: the quotient rounded toward zero. */
  function Div(a: int, b: int): int
    requires b != 0
  {
    var q := Abs(a) / Abs(b);
    if (a < 0) == (b < 0) then q else -q
  }

  /** C#'s `a % b`: the remainder takes the sign of the dividend. */
  function Rem(a: int, b: int): int
    requires b != 0
  {
    var r := Abs(a) % Abs(b);
    if a < 0 then -r else r
  }

  /** The identity C# guarantees for its two operators, the bound on the
      remainder and its sign. */
  lemma DivRem(a: int, b: int)
    requires b != 0
    ensures a == b * Div(a, b) + Rem(a, b)
    ensures Abs(Rem(a, b)) < Abs(b)
    ensures a >= 0 ==> Rem(a, b) >= 0
    ensures a < 0 ==> Rem(a, b) <= 0
  {
    DivRemIdentity(a, b);
    var m, r := Abs(b), Abs(a) % Abs(b);
    assert 0 <= r < m;
  }

  lemma DivRemIdentity(a: int, b: int)
    requires b != 0
    ensures a == b * Div(a, b) + Rem(a, b)
  {
    var m, q, r := Abs(b), Abs(a) / Abs(b), Abs(a) % Abs(b);
    var p := m * q;
    assert Abs(a) == p + r;
    if b < 0 {
      MulSign(b, m, q);
      if a < 0 {
        assert Div(a, b) == q && Rem(a, b) == -r && b * q == -p;
      } else {
        assert Div(a, b) == -q && Rem(a, b) == r && b * -q == p;
      }
    } else {
      MulSign(-b, m, q);
      if a < 0 {
        assert Div(a, b) == -q && Rem(a, b) == -r && b * -q == -p;
      } else {
        assert Div(a, b) == q && Rem(a, b) == r && b * q == p;
      }
    }
  }

  /** Multiplying by a negated factor negates the product. */
  lemma MulSign(b: int, m: int, q: int)
    requires b == -m
    ensures b * q == -(m * q) && b * -q == m * q && m * -q == -(m * q)
  {
  }

  /** For a positive divisor, the division by zero-rounding and the
      Euclidean division differ exactly when the dividend is negative and
      not a multiple of the divisor. */
  lemma DivVersusFloor(a: int, b: int)
    requires b > 0
    ensures Rem(a, b) == 0 <==> a % b == 0
    ensures Rem(a, b) == 0 ==> Div(a, b) == a / b
    ensures Rem(a, b) != 0 && a < 0 ==> Div(a, b) == a / b + 1 && Rem(a, b) + b == a % b
    ensures a >= 0 ==> Div(a, b) == a / b && Rem(a, b) == a % b
  {
    DivRem(a, b);
    if a < 0 {
      var q, r := (-a) / b, (-a) % b;
      assert -a == b * q + r && 0 <= r < b;
      if r == 0 {
        DivModUnique(a, b, -q, 0);
      } else {
        assert a == b * (-q - 1) + (b - r);
        DivModUnique(a, b, -q - 1, b - r);
      }
    }
  }

  /** Euclidean division is determined by its defining equation. */
  lemma DivModUnique(a: int, b: int, q: int, r: int)
    requires b > 0 && 0 <= r < b && a == b * q + r
    ensures a / b == q && a % b == r
  {
    var q', r' := a / b, a % b;
    assert b * (q - q') == r' - r;
    MulSmall(b, q - q');
  }

  /** A multiple of `b` strictly between `-b` and `b` is zero. */
  lemma MulSmall(b: int, d: int)
    requires b > 0 && -b < b * d < b
    ensures d == 0
  {
  }
}
