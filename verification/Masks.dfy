/** Bitwise `and` with a mask, the way rings turn a counter into a position. */
module Masks {
  import opened Arithmetic

  function And(x: nat, y: nat): nat {
    if x == 0 || y == 0 then 0 else 2 * And(x / 2, y / 2) + (if x % 2 == 1 && y % 2 == 1 then 1 else 0)
  }

  function Pow2(k: nat): (p: nat)
    ensures p > 0
  {
    if k == 0 then 1 else 2 * Pow2(k - 1)
  }

  ghost predicate IsPow2(n: nat) {
    exists k: nat :: n == Pow2(k)
  }

  /** For a power of two the mask is the remainder. */
  lemma {:induction false} MaskIsModulo(x: nat, k: nat)
    ensures And(x, Pow2(k) - 1) == x % Pow2(k)
  {
    if k == 0 {
    } else if x == 0 {
      Remainder(0, Pow2(k), 0, 0);
    } else {
      MaskIsModulo(x / 2, k - 1);
      Doubled(x, Pow2(k - 1));
      var mask := Pow2(k) - 1;
      assert mask / 2 == Pow2(k - 1) - 1 && mask % 2 == 1;
    }
  }

  lemma {:induction false} AndOfSuccessor(n: nat)
    requires n > 0 && And(n, n - 1) == 0
    ensures IsPow2(n)
  {
    if n == 1 {
      assert n == Pow2(0);
    } else if n % 2 == 0 {
      AndOfSuccessor(n / 2);
      var k: nat :| n / 2 == Pow2(k);
      assert n == Pow2(k + 1);
    } else {
      AndSelf(n / 2);
    }
  }

  lemma {:induction false} AndSelf(n: nat)
    ensures And(n, n) == n
  {
    if n > 0 {
      AndSelf(n / 2);
    }
  }

  lemma {:induction false} PowerMasksNothing(k: nat)
    ensures And(Pow2(k), Pow2(k) - 1) == 0
  {
    if k > 0 {
      PowerMasksNothing(k - 1);
    }
  }

  /** The static assertion `( Size & ( Size - 1 ) ) == 0` accepts exactly the powers of two. */
  lemma {:induction false} PowerOfTwoTest(n: nat)
    requires n > 0
    ensures And(n, n - 1) == 0 <==> IsPow2(n)
  {
    if And(n, n - 1) == 0 {
      AndOfSuccessor(n);
    }
    if IsPow2(n) {
      var k: nat :| n == Pow2(k);
      PowerMasksNothing(k);
    }
  }

  lemma {:induction false} PowerSum(a: nat, b: nat)
    ensures Pow2(a + b) == Pow2(a) * Pow2(b)
  {
    if a > 0 {
      PowerSum(a - 1, b);
      MulAssoc(2, Pow2(a - 1), Pow2(b));
    }
  }

  lemma WordIsPower()
    ensures Pow2(64) == WORD
  {
    assert Pow2(8) == 256;
    PowerSum(8, 8);
    PowerSum(16, 16);
    PowerSum(32, 32);
  }

  /** A counter that wraps at 2^64 still points at the same position of a ring of 2^k slots. */
  lemma WrapKeepsPosition(x: nat, k: nat)
    requires k <= 64
    ensures (x % WORD) % Pow2(k) == x % Pow2(k)
  {
    WordIsPower();
    PowerSum(64 - k, k);
    RemainderOfRemainder(x, Pow2(64 - k), Pow2(k));
  }
}
