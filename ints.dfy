/** The C integer types and conversions the drawing code relies on. */
module Ints {

  type u8 = x: int | 0 <= x < 0x100
  type u16 = x: int | 0 <= x < 0x1_0000

  /** Conversion of an integer into `int16_t` (two's complement truncation). */
  function Int16(v: int): (r: int)
    ensures -0x8000 <= r < 0x8000
    ensures (v - r) % 0x1_0000 == 0
  {
    var t := v % 0x1_0000;
    if t < 0x8000 then t else t - 0x1_0000
  }

  /** Conversion of an integer into `uint16_t`. */
  function Wrap16(v: int): (r: u16)
    ensures (v - r) % 0x1_0000 == 0
    ensures 0 <= v < 0x1_0000 ==> r == v
  {
    v % 0x1_0000
  }

  function Abs(v: int): nat
  {
    if v < 0 then -v else v
  }

  /** The quotient of two magnitudes. */
  function Quot(x: nat, y: nat): nat
    requires y > 0
  {
    x / y
  }

  /** C's `/` on `int`: the quotient truncated toward zero. Its magnitude is
      the quotient of the magnitudes; it is negative when exactly one operand is. */
  function TruncDiv(a: int, d: int): (q: int)
    requires d != 0
    ensures Abs(q) == Quot(Abs(a), Abs(d))
    ensures q == 0 || (q < 0 <==> (a < 0) != (d < 0))
  {
    var m: int := Quot(Abs(a), Abs(d));
    if (a < 0) != (d < 0) then -m else m
  }

  /** The remainder C leaves beside TruncDiv has the sign of the dividend and
      is smaller than the divisor. */
  lemma TruncDivRemainder(a: int, d: int)
    requires d != 0
    ensures var r := a - TruncDiv(a, d) * d; (r == 0 || (r < 0) == (a < 0)) && Abs(r) < Abs(d)
  {
    var m := Quot(Abs(a), Abs(d));
    assert Abs(a) == m * Abs(d) + Abs(a) % Abs(d);
  }

  lemma SmallMod(m: int, k: int)
    requires 0 <= m < k
    ensures m % k == m
  {
  }

  lemma MulMonotone(d: nat, a: nat, b: nat)
    ensures a <= b ==> d * a <= d * b
  {
    if a <= b {
      assert d * b == d * a + d * (b - a);
    }
  }

  lemma DivMonotone(x: nat, y: nat, d: nat)
    requires x <= y && d > 0
    ensures Quot(x, d) <= Quot(y, d)
  {
    var qx, qy := x / d, y / d;
    assert x == d * qx + x % d;
    assert y == d * qy + y % d;
    MulMonotone(d, qy + 1, qx);
    if qx > qy {
      assert false;
    }
  }

  /** Truncating division by a positive divisor is monotone. */
  lemma TruncDivMonotone(a1: int, a2: int, d: int)
    requires a1 <= a2 && d > 0
    ensures TruncDiv(a1, d) <= TruncDiv(a2, d)
  {
    if 0 <= a1 {
      DivMonotone(a1, a2, d);
    } else if a2 < 0 {
      DivMonotone(-a2, -a1, d);
    }
  }
}
