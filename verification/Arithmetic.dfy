/** Facts about quotients and remainders. */
module Arithmetic {

  /** The number of values of a 64-bit counter. */
  const WORD := 0x1_0000_0000_0000_0000

  lemma MulGrows(a: int, b: int, c: int)
    requires a <= b && c >= 0
    ensures a * c <= b * c
  {
  }

  /** Unequal quotients are at least a divisor apart. */
  lemma QuotientsApart(p: int, q: int, m: int)
    requires p < q && m > 0
    ensures p * m + m <= q * m
  {
    assert (p + 1) * m == p * m + m;
    MulGrows(p + 1, q, m);
  }

  /** The quotient and the remainder are the only ones. */
  lemma Remainder(a: int, m: int, q: int, r: int)
    requires m > 0 && a == q * m + r && 0 <= r < m
    ensures a / m == q && a % m == r
  {
    var p := a / m;
    assert a == p * m + a % m;
    if p < q {
      QuotientsApart(p, q, m);
    } else if q < p {
      QuotientsApart(q, p, m);
    }
  }

  /** Two numbers that are less than `m` apart have different remainders. */
  lemma DistinctRemainders(a: nat, b: nat, m: nat)
    requires m > 0 && a < b < a + m
    ensures a % m != b % m
  {
    var p, q := a / m, b / m;
    assert a == p * m + a % m && b == q * m + b % m;
    if p < q {
      QuotientsApart(p, q, m);
    } else if q < p {
      QuotientsApart(q, p, m);
    }
  }

  lemma MulAssoc(a: int, b: int, c: int)
    ensures a * (b * c) == (a * b) * c
  {
  }

  lemma MulDistributes(a: int, b: int, c: int)
    ensures (a + b) * c == a * c + b * c
  {
  }

  lemma Doubled(x: nat, p: nat)
    requires p > 0
    ensures x % (2 * p) == 2 * (x / 2 % p) + x % 2
  {
    var q, r := x / 2 / p, x / 2 % p;
    assert x / 2 == q * p + r;
    assert q * (2 * p) == 2 * (q * p);
    Remainder(x, 2 * p, q, 2 * r + x % 2);
  }

  lemma RemainderOfRemainder(x: nat, w: nat, p: nat)
    requires p > 0 && w > 0
    ensures w * p > 0 && x % (w * p) % p == x % p
  {
    MulGrows(1, w, p);
    var m := w * p;
    var q, r := x / m, x % m;
    assert x == q * m + r;
    MulAssoc(q, w, p);
    var t, u := r / p, r % p;
    assert r == t * p + u;
    MulDistributes(q * w, t, p);
    Remainder(x, p, q * w + t, u);
  }
}
