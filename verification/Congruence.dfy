/** Divisibility, greatest common divisors and congruences. */
module Congruence {
  import opened Arithmetic

  ghost predicate Divides(d: int, n: int) {
    exists k: int :: n == k * d
  }

  ghost predicate Congruent(a: int, b: int, m: int) {
    Divides(m, a - b)
  }

  /** The greatest common divisor as a combination of the two numbers. */
  function Euclid(a: nat, b: nat): (r: (nat, int, int))
    requires a > 0 || b > 0
    ensures r.0 > 0 && r.0 == r.1 * a + r.2 * b
    decreases b
  {
    if b == 0 then (a, 1, 0)
    else
      var (g, x, y) := Euclid(b, a % b);
      Combine(a, b, x, y);
      (g, y, x - (a / b) * y)
  }

  lemma Combine(a: nat, b: nat, x: int, y: int)
    requires b > 0
    ensures x * b + y * (a % b) == y * a + (x - (a / b) * y) * b
  {
    var q := a / b;
    assert a == q * b + a % b;
    assert y * (a % b) == y * a - y * (q * b);
    assert (x - q * y) * b == x * b - q * y * b;
    assert y * (q * b) == q * y * b;
  }

  function Gcd(a: nat, b: nat): (d: nat)
    requires a > 0 || b > 0
    ensures d > 0
  {
    Euclid(a, b).0
  }

  lemma DividesCombination(d: int, a: int, b: int, x: int, y: int)
    requires Divides(d, a) && Divides(d, b)
    ensures Divides(d, x * a + y * b)
  {
    var j :| a == j * d;
    var k :| b == k * d;
    assert x * a + y * b == (x * j + y * k) * d by {
      MulDistributes(x * j, y * k, d);
      MulAssoc(x, j, d);
      MulAssoc(y, k, d);
    }
  }

  /** It divides both numbers, and every number that divides both divides it. */
  lemma {:induction false} GcdDivides(a: nat, b: nat)
    requires a > 0 || b > 0
    ensures Divides(Gcd(a, b), a) && Divides(Gcd(a, b), b)
    decreases b
  {
    if b == 0 {
      assert a == 1 * a && 0 == 0 * a;
    } else {
      GcdDivides(b, a % b);
      var d := Gcd(a, b);
      assert d == Gcd(b, a % b);
      DividesCombination(d, b, a % b, a / b, 1);
      assert a == (a / b) * b + 1 * (a % b);
    }
  }

  lemma GcdIsGreatest(a: nat, b: nat, c: int)
    requires (a > 0 || b > 0) && Divides(c, a) && Divides(c, b)
    ensures Divides(c, Gcd(a, b))
  {
    var r := Euclid(a, b);
    DividesCombination(c, a, b, r.1, r.2);
  }

  /** No number but one divides both. */
  ghost predicate Coprime(a: nat, b: nat) {
    forall c: nat :: Divides(c, a) && Divides(c, b) ==> c == 1
  }

  lemma {:induction false} CoprimeIff(a: nat, b: nat)
    requires a > 0 || b > 0
    ensures Gcd(a, b) == 1 <==> Coprime(a, b)
  {
    GcdDivides(a, b);
    if Gcd(a, b) == 1 {
      forall c: nat | Divides(c, a) && Divides(c, b) ensures c == 1 {
        GcdIsGreatest(a, b, c);
        DividesOne(c);
      }
    }
  }

  lemma DividesOne(c: nat)
    requires Divides(c, 1)
    ensures c == 1
  {
    var k :| 1 == k * c;
    if c > 1 {
      if k > 0 { MulGrows(1, k, c); } else { MulGrows(k, 0, c); }
    }
  }

  // ---- congruences

  lemma RemainderIsCongruent(a: nat, m: nat)
    requires m > 0
    ensures Congruent(a, a % m, m)
  {
    assert a - a % m == (a / m) * m;
  }

  lemma CongruentNumbersAreEqual(a: int, b: int, m: int)
    requires m > 0 && Congruent(a, b, m) && -m < a - b < m
    ensures a == b
  {
    var k :| a - b == k * m;
    if k > 0 {
      MulGrows(1, k, m);
    } else if k < 0 {
      MulGrows(k, -1, m);
    }
  }

  lemma CongruentRefl(a: int, m: int)
    ensures Congruent(a, a, m)
  {
    assert a - a == 0 * m;
  }

  lemma CongruentTrans(a: int, b: int, c: int, m: int)
    requires Congruent(a, b, m) && Congruent(b, c, m)
    ensures Congruent(a, c, m) && Congruent(b, a, m)
  {
    DividesCombination(m, a - b, b - c, 1, 1);
    DividesCombination(m, a - b, b - c, -1, 0);
    assert 1 * (a - b) + 1 * (b - c) == a - c;
    assert -1 * (a - b) + 0 * (b - c) == b - a;
  }

  /** A number has remainder `r` exactly if it is congruent to it. */
  lemma RemainderIff(a: nat, r: nat, m: nat)
    requires m > 0 && r < m
    ensures a % m == r <==> Congruent(a, r, m)
  {
    RemainderIsCongruent(a, m);
    if Congruent(a, r, m) {
      CongruentTrans(a, a % m, a, m) by {
        CongruentTrans(a, a % m, a % m, m) by { CongruentRefl(a % m, m); }
      }
      CongruentTrans(a % m, a, r, m);
      CongruentNumbersAreEqual(a % m, r, m);
    }
  }

  lemma DividesTrans(a: int, b: int, c: int)
    requires Divides(a, b) && Divides(b, c)
    ensures Divides(a, c)
  {
    var j :| b == j * a;
    var k :| c == k * b;
    MulAssoc(k, j, a);
  }
}
