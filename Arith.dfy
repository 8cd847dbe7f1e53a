/** Small arithmetic facts shared by the bit-level models: powers of two and
    the uniqueness of Euclidean division, used to take integers apart into
    bits (VP8 extra bits) and bytes (gzip little-endian fields). */
module Arith {

  /** 2^k */
  function Pow2(k: nat): (r: nat)
    ensures r >= 1
  {
    if k == 0 then 1 else 2 * Pow2(k - 1)
  }

  /** The quotient and remainder of Euclidean division are the only pair
      that recomposes x with a remainder in [0, n). */
  lemma DivModUnique(x: int, n: int, a: int, b: int)
    requires n > 0 && x == a * n + b && 0 <= b < n
    ensures x / n == a && x % n == b
  {
    var q, r := x / n, x % n;
    assert x == q * n + r;
    assert (a - q) * n == r - b;
    if a - q >= 1 {
      assert (a - q) * n >= n by { MulMonotone(a - q, 1, n); }
      assert false;
    } else if a - q <= -1 {
      assert (q - a) * n >= n by { MulMonotone(q - a, 1, n); }
      assert false;
    }
  }

  lemma MulMonotone(a: int, b: int, n: int)
    requires a >= b && n >= 0
    ensures a * n >= b * n
  {
  }

  /** Splitting a remainder modulo m*d into the digit of weight m and the
      remainder modulo m. */
  lemma ModSplit(x: int, m: int, d: int)
    requires m > 0 && d > 0
    ensures x % (m * d) == ((x / m) % d) * m + x % m
    ensures x / (m * d) == (x / m) / d
  {
    var q, r := x / m, x % m;
    var hi, lo := q / d, q % d;
    var md := m * d;
    assert md > 0 by { MulPositive(m, d); }
    Recompose(x, m, d, q, r, hi, lo);
    LowPartBound(m, d, lo, r);
    DivModUnique(x, md, hi, lo * m + r);
  }

  lemma MulPositive(a: int, b: int)
    requires a > 0 && b > 0
    ensures a * b > 0
  {
  }

  lemma Recompose(x: int, m: int, d: int, q: int, r: int, hi: int, lo: int)
    requires x == q * m + r && q == hi * d + lo
    ensures x == hi * (m * d) + (lo * m + r)
  {
    calc {
      x;
      == q * m + r;
      == (hi * d + lo) * m + r;
      == { Distribute(hi * d, lo, m); }
      (hi * d) * m + lo * m + r;
      == { assert (hi * d) * m == hi * (m * d); }
      hi * (m * d) + (lo * m + r);
    }
  }

  lemma Distribute(a: int, b: int, c: int)
    ensures (a + b) * c == a * c + b * c
  {
  }

  lemma LowPartBound(m: int, d: int, lo: int, r: int)
    requires m > 0 && 0 <= lo < d && 0 <= r < m
    ensures 0 <= lo * m + r < m * d
  {
    MulMonotone(d - 1, lo, m);
    assert (d - 1) * m == m * d - m by { Distribute(d, -1, m); }
    assert 0 <= lo * m by { MulMonotone(lo, 0, m); }
  }

  /** The quotient of a non-negative number brackets it between two
      consecutive multiples of the divisor. */
  lemma DivBounds(x: int, n: int)
    requires x >= 0 && n > 0
    ensures x / n >= 0
    ensures (x / n) * n <= x < (x / n + 1) * n
  {
    Distribute(x / n, 1, n);
  }

  lemma DivBelow(x: int, n: int, k: int)
    requires 0 <= x < k * n && n > 0
    ensures x / n < k
  {
    DivBounds(x, n);
    if x / n >= k {
      MulMonotone(x / n, k, n);
    }
  }

  lemma DivMonotone(x: int, y: int, n: int)
    requires 0 <= x <= y && n > 0
    ensures x / n <= y / n
  {
    DivBounds(y, n);
    DivBelow(x, n, y / n + 1);
  }
}
