/** Go's fixed-width integer types and the Go conversions and operators the
    pipeline depends on, written out over Dafny's unbounded integers and reals. */
module GoNumeric {

  /** Go's int16: one signed 16-bit PCM sample. */
  newtype int16 = x: int | -0x8000 <= x < 0x8000

  /** Go's byte (uint8). */
  newtype byte = x: int | 0 <= x < 0x100

  function Abs(x: int): (r: nat)
    ensures r == x || r == -x
  {
    if x < 0 then -x else x
  }

  /** Go's `int(x)` for a floating-point `x`: the fraction is truncated toward zero. */
  function Trunc(x: real): (r: int)
    ensures 0.0 <= x ==> r as real <= x < r as real + 1.0
    ensures x < 0.0 ==> r as real - 1.0 < x <= r as real
  {
    if x >= 0.0 then x.Floor else -((-x).Floor)
  }

  lemma TruncMonotone(x: real, y: real)
    requires x <= y
    ensures Trunc(x) <= Trunc(y)
  {
  }

  /** Go's integer division `a / b`: the quotient is truncated toward zero, so the
      remainder `a - q * b` is smaller than `b` in magnitude and has the sign of `a`. */
  function Quot(a: int, b: int): (q: int)
    requires b != 0
    ensures Abs(a - q * b) < Abs(b)
    ensures a - q * b == 0 || (a - q * b < 0 <==> a < 0)
  {
    QuotRemainder(a, b);
    if (a < 0) == (b < 0) then Abs(a) / Abs(b) else -(Abs(a) / Abs(b))
  }

  lemma QuotRemainder(a: int, b: int)
    requires b != 0
    ensures var q := if (a < 0) == (b < 0) then Abs(a) / Abs(b) else -(Abs(a) / Abs(b));
      a - q * b == (if a < 0 then -(Abs(a) % Abs(b)) else Abs(a) % Abs(b))
  {
    var n, d := Abs(a), Abs(b);
    var q0, m := n / d, n % d;
    assert n == q0 * d + m;
    if a >= 0 && b > 0 {
    } else if a >= 0 {
      assert b == -d;
      assert -q0 * b == q0 * d;
    } else if b > 0 {
      assert a == -n;
      assert -q0 * b == -(q0 * d);
    } else {
      assert a == -n && b == -d;
      assert q0 * b == -(q0 * d);
    }
  }

  /** Dafny's `/` is Euclidean and Go's is truncating: they differ for a negative
      numerator that is not a multiple of the divisor. */
  lemma QuotIsNotEuclidean()
    ensures Quot(-16384, 3000) == -5 && -16384 / 3000 == -6
    ensures Quot(-16384, 2048) == -8 && Quot(-16384, -1) == 16384
  {
  }

  /** Two's-complement wrap-around into int16, as Go's int16 arithmetic and
      conversions do: the result is congruent to `x` modulo 2^16. */
  function Wrap16(x: int): (r: int16)
    ensures (x - r as int) % 0x1_0000 == 0
    ensures -0x8000 <= x < 0x8000 ==> r as int == x
  {
    ((x + 0x8000) % 0x1_0000 - 0x8000) as int16
  }

  lemma Wrap16Above(x: int)
    requires 0x8000 <= x < 0x1_8000
    ensures Wrap16(x) as int == x - 0x1_0000
  {
    assert (x + 0x8000) % 0x1_0000 == x + 0x8000 - 0x1_0000;
  }

  /** Multiplying both sides by a non-negative factor keeps an inequality:
      the one fact about integer products the row-major layout, the sample
      counts and the cooldown rely on. */
  lemma IntMulMonotone(u: int, v: int, m: int)
    requires u <= v && m >= 0
    ensures u * m <= v * m
  {
    assert v * m - u * m == (v - u) * m;
  }

  // Facts about real division used by the calibration and parameter proofs.

  lemma DivFacts(a: real, b: real)
    requires b > 0.0
    ensures a < b ==> a / b < 1.0
    ensures a <= b ==> a / b <= 1.0
    ensures a >= 0.0 ==> a / b >= 0.0
    ensures a / b == 0.0 <==> a == 0.0
    ensures (a / b) * b == a
  {
    var q := a / b;
    assert q * b == a;
  }

  lemma MulNonNegative(a: real, b: real)
    requires a >= 0.0 && b >= 0.0
    ensures a * b >= 0.0
  {
  }

  lemma MulCancel(x: real, y: real, d: real)
    requires d > 0.0 && x * d == y * d
    ensures x == y
  {
    assert (x - y) * d == x * d - y * d;
  }

  /** A constant factor moves out of a quotient: c * a / d == c * (a / d). */
  lemma ScaledQuotient(c: real, a: real, d: real)
    requires d > 0.0
    ensures c * a / d == c * (a / d)
  {
    var q := a / d;
    var h := c * a / d;
    DivFacts(a, d);
    DivFacts(c * a, d);
    assert c * (q * d) == (c * q) * d;
    MulCancel(h, c * q, d);
  }

  lemma DivMonotone(a: real, a2: real, b: real)
    requires b > 0.0 && a <= a2
    ensures a / b <= a2 / b
  {
    var q, q2 := a / b, a2 / b;
    assert q * b == a && q2 * b == a2;
    assert (q2 - q) * b == a2 - a;
  }
}
