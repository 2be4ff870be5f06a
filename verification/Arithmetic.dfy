/** The range of u64, powers of two, their logarithms, and products. */
module Arithmetic {
  const U64_MAX: nat := 0xFFFF_FFFF_FFFF_FFFF

  function Pow2(k: nat): (p: nat)
    ensures p >= 1
  {
    if k == 0 then 1 else 2 * Pow2(k - 1)
  }

  lemma {:induction false} Pow2Grows(a: nat, b: nat)
    requires a <= b
    ensures Pow2(a) <= Pow2(b)
    decreases b
  {
    if a < b {
      Pow2Grows(a, b - 1);
    }
  }

  lemma {:induction false} Pow2Adds(a: nat, b: nat)
    ensures Pow2(a + b) == Pow2(a) * Pow2(b)
  {
    if a > 0 {
      Pow2Adds(a - 1, b);
      assert 2 * (Pow2(a - 1) * Pow2(b)) == (2 * Pow2(a - 1)) * Pow2(b);
    }
  }

  lemma {:induction false} LinearBelowPow2(k: nat)
    ensures k + 2 <= Pow2(k + 1)
  {
    if k > 0 {
      LinearBelowPow2(k - 1);
    }
  }

  function FloorLog2(n: nat): nat {
    if n <= 1 then 0 else 1 + FloorLog2(n / 2)
  }

  function CeilLog2(n: nat): nat {
    if n <= 1 then 0 else 1 + CeilLog2((n + 1) / 2)
  }

  lemma {:induction false} FloorLog2Unique(n: nat, k: nat)
    requires Pow2(k) <= n < Pow2(k + 1)
    ensures FloorLog2(n) == k
  {
    if k > 0 {
      FloorLog2Unique(n / 2, k - 1);
    }
  }

  lemma {:induction false} CeilLog2Unique(n: nat, k: nat)
    requires Pow2(k) < n <= Pow2(k + 1)
    ensures CeilLog2(n) == k + 1
  {
    if k > 0 {
      CeilLog2Unique((n + 1) / 2, k - 1);
    } else {
      assert n == 2 && CeilLog2(1) == 0;
    }
  }

  lemma {:induction false} LogOfPow2(k: nat)
    ensures FloorLog2(Pow2(k)) == CeilLog2(Pow2(k)) == k
  {
    if k > 0 {
      LogOfPow2(k - 1);
      assert (Pow2(k) + 1) / 2 == Pow2(k - 1);
    }
  }

  lemma {:induction false} CeilLog2Monotone(n: nat, m: nat)
    requires n <= m
    ensures CeilLog2(n) <= CeilLog2(m)
    decreases m
  {
    if n > 1 {
      CeilLog2Monotone((n + 1) / 2, (m + 1) / 2);
    }
  }

  lemma {:induction false} CeilLog2Bound(n: nat, h: nat)
    requires n <= Pow2(h)
    ensures CeilLog2(n) <= h
  {
    if n > 1 && h > 0 {
      CeilLog2Bound((n + 1) / 2, h - 1);
    }
  }

  lemma {:induction false} FloorLog2Range(n: nat)
    requires n >= 1
    ensures Pow2(FloorLog2(n)) <= n < Pow2(FloorLog2(n) + 1)
    ensures FloorLog2(n) <= CeilLog2(n) <= FloorLog2(n) + 1
  {
    var k := FloorLog2(n);
    if n > 1 {
      FloorLog2Range(n / 2);
    }
    if n == Pow2(k) {
      LogOfPow2(k);
    } else {
      CeilLog2Unique(n, k);
    }
  }

  function Quotient(n: nat, d: nat): nat
    requires d > 0
  {
    n / d
  }

  lemma Distribute(f: nat, a: nat, b: nat)
    ensures f * (a + b) == f * a + f * b
  {
  }

  lemma {:induction false} MulLe(x: nat, y: nat, z: nat)
    requires x <= y
    ensures z * x <= z * y && x * z <= y * z
    decreases y - x
  {
    if x < y {
      MulLe(x, y - 1, z);
      assert z * y == z * (y - 1) + z && y * z == (y - 1) * z + z;
    }
  }

  lemma MulLt(x: nat, y: nat, z: nat)
    ensures z * x < z * y ==> x < y
  {
    if x >= y {
      MulLe(y, x, z);
    }
  }

  /** A quotient is told by its remainder. */
  lemma SplitOff(w: nat, d: nat, high: nat, low: nat)
    requires 0 < d && low < d && w == d * high + low
    ensures w / d == high
  {
    var q := w / d;
    assert w == d * q + w % d;
    assert d * (q + 1) == d * q + d && d * (high + 1) == d * high + d;
    MulLt(q, high + 1, d);
    MulLt(high, q + 1, d);
  }
}
