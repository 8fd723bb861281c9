/** Shifts and single-bit masks on unbounded naturals, as the page-index and radix-key code uses them. */
module Bits {

  /** 2 to the power k. */
  function Pow2(k: nat): (r: nat)
    ensures r >= 1
  {
    if k == 0 then 1 else 2 * Pow2(k - 1)
  }

  /** n << k */
  function Shl(n: nat, k: nat): nat {
    if k == 0 then n else 2 * Shl(n, k - 1)
  }

  /** q >> k */
  function Shr(q: nat, k: nat): nat {
    if k == 0 then q else Shr(q, k - 1) / 2
  }

  /** Bitwise exclusive or, bit by bit from the low end. */
  function Xor(a: nat, b: nat): nat
    decreases a + b
  {
    if a == 0 && b == 0 then 0 else 2 * Xor(a / 2, b / 2) + (a % 2 + b % 2) % 2
  }

  /** a & ~b */
  function AndNot(a: nat, b: nat): nat
    decreases a + b
  {
    if a == 0 && b == 0 then 0 else 2 * AndNot(a / 2, b / 2) + (if b % 2 == 1 then 0 else a % 2)
  }

  /** n ^ 1 */
  function Flip(n: nat): (r: nat)
    ensures r != n && r / 2 == n / 2 && (r == n + 1 || n == r + 1)
    ensures forall m: nat :: m / 2 == n / 2 ==> m == n || m == r
  {
    if n % 2 == 0 then n + 1 else n - 1
  }

  lemma {:induction false} XorBit(n: nat, k: nat)
    ensures Xor(Shl(n, k), Pow2(k)) == Shl(Flip(n), k)
  {
    if k == 0 {
      XorZero(n / 2);
    } else {
      XorBit(n, k - 1);
      XorDouble(Shl(n, k - 1), Pow2(k - 1));
    }
  }

  lemma XorDouble(a: nat, b: nat)
    ensures Xor(2 * a, 2 * b) == 2 * Xor(a, b)
  {
  }

  lemma AndNotDouble(a: nat, b: nat)
    ensures AndNot(2 * a, 2 * b) == 2 * AndNot(a, b)
  {
  }

  lemma {:induction false} XorZero(n: nat)
    ensures Xor(n, 0) == n
  {
    if n > 0 { XorZero(n / 2); }
  }

  lemma {:induction false} AndNotBit(n: nat, k: nat)
    ensures AndNot(Shl(n, k), Pow2(k)) == Shl(n / 2, k + 1)
  {
    if k == 0 {
      AndNotZero(n / 2);
    } else {
      AndNotBit(n, k - 1);
      AndNotDouble(Shl(n, k - 1), Pow2(k - 1));
    }
  }

  lemma {:induction false} AndNotZero(n: nat)
    ensures AndNot(n, 0) == n
  {
    if n > 0 { AndNotZero(n / 2); }
  }

  lemma {:induction false} ShrShl(n: nat, k: nat)
    ensures Shr(Shl(n, k), k) == n
    decreases k
  {
    if k > 0 {
      ShlStep(n, k - 1);
      ShrShl(2 * n, k - 1);
    }
  }

  lemma ShrOne(n: nat)
    ensures Shr(n, 1) == n / 2
  {
    assert Shr(n, 0) == n;
  }

  /** (2n) << k == n << (k + 1) */
  lemma {:induction false} ShlStep(n: nat, k: nat)
    ensures Shl(2 * n, k) == Shl(n, k + 1)
  {
    if k > 0 { ShlStep(n, k - 1); }
  }

  lemma {:induction false} ShlAdd(n: nat, m: nat, k: nat)
    ensures Shl(n + m, k) == Shl(n, k) + Shl(m, k)
  {
    if k > 0 { ShlAdd(n, m, k - 1); }
  }

  lemma {:induction false} ShlOne(k: nat)
    ensures Shl(1, k) == Pow2(k)
  {
    if k > 0 { ShlOne(k - 1); }
  }

  lemma {:induction false} ShrShr(q: nat, j: nat, k: nat)
    ensures Shr(Shr(q, j), k) == Shr(q, j + k)
  {
    if k > 0 { ShrShr(q, j, k - 1); }
  }

  /** Page q lies in the run of 2^k pages that starts at n << k exactly when q >> k is n. */
  lemma {:induction false} ShrInterval(q: nat, n: nat, k: nat)
    ensures Shr(q, k) == n <==> Shl(n, k) <= q < Shl(n, k) + Pow2(k)
    decreases k
  {
    if k > 0 {
      var m := Shr(q, k - 1);
      ShrInterval(q, 2 * n, k - 1);
      ShrInterval(q, 2 * n + 1, k - 1);
      ShlStep(n, k - 1);
      ShlAdd(2 * n, 1, k - 1);
      ShlOne(k - 1);
    }
  }

  lemma {:induction false} ShlMonotone(n: nat, m: nat, k: nat)
    requires n <= m
    ensures Shl(n, k) <= Shl(m, k)
    ensures n < m ==> Shl(n, k) + Pow2(k) <= Shl(m, k)
  {
    if k > 0 { ShlMonotone(n, m, k - 1); }
  }

  /** n << k is n * 2^k. */
  lemma {:induction false} ShlMul(n: nat, k: nat)
    ensures Shl(n, k) == n * Pow2(k)
  {
    if k > 0 { ShlMul(n, k - 1); }
  }
}
