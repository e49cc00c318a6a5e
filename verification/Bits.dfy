/** Bitwise operations on natural numbers, bit by bit, and what masks do. */
module Bits {
  function Pow2(n: nat): (p: nat)
    ensures p > 0
  {
    if n == 0 then 1 else 2 * Pow2(n - 1)
  }

  function And(x: nat, y: nat): nat {
    if x == 0 || y == 0 then 0 else 2 * And(x / 2, y / 2) + (if x % 2 == 1 && y % 2 == 1 then 1 else 0)
  }

  function Or(x: nat, y: nat): nat
    decreases x + y
  {
    if x == 0 && y == 0 then 0 else 2 * Or(x / 2, y / 2) + (if x % 2 == 1 || y % 2 == 1 then 1 else 0)
  }

  /** A lowest bit of one keeps the lowest bit. */
  lemma AndLowest(a: nat, h: nat, m: nat)
    requires h <= 1
    ensures And(2 * a + h, 2 * m + 1) == 2 * And(a, m) + h
  {
    var x, y := 2 * a + h, 2 * m + 1;
    assert x / 2 == a && x % 2 == h && y / 2 == m && y % 2 == 1;
  }

  /** All ones keep everything. */
  lemma {:induction false} AndOnes(x: nat, w: nat)
    requires x < Pow2(w)
    ensures And(x, Pow2(w) - 1) == x
  {
    if w > 0 {
      var m := Pow2(w - 1) - 1;
      AndLowest(x / 2, x % 2, m);
      AndOnes(x / 2, w - 1);
      assert Pow2(w) - 1 == 2 * m + 1 && x == 2 * (x / 2) + x % 2;
    }
  }

  lemma ModHalf(x: nat, m: nat)
    requires m > 0
    ensures x % (2 * m) == 2 * (x / 2 % m) + x % 2
  {
    var q, r := x / 2 / m, x / 2 % m;
    assert x / 2 == q * m + r;
    assert x == q * (2 * m) + (2 * r + x % 2);
    ModIs(x, 2 * m, q, 2 * r + x % 2);
  }

  lemma MulBound(d: int, m: int)
    requires 0 < m && -m < d * m < m
    ensures d == 0
  {
    if d > 0 {
      MulMonotone(1, d, m);
    } else if d < 0 {
      MulMonotone(d, -1, m);
    }
  }

  lemma MulMonotone(a: int, b: int, m: int)
    requires a <= b && 0 <= m
    ensures a * m <= b * m
  {
  }

  lemma ModIs(x: nat, m: nat, q: nat, r: nat)
    requires m > 0 && x == q * m + r && r < m
    ensures x % m == r
  {
    var q', r' := x / m, x % m;
    assert x == m * q' + r';
    assert (q - q') * m == r' - r;
    MulBound(q - q', m);
  }

  /** A mask of ones above `k` zeros clears the remainder. */
  lemma {:induction false} AndMask(x: nat, w: nat, k: nat)
    requires k <= w && x < Pow2(w)
    ensures Pow2(k) <= Pow2(w)
    ensures And(x, Pow2(w) - Pow2(k)) == x - x % Pow2(k)
  {
    if k == 0 {
      AndOnes(x, w);
    } else {
      var m := Pow2(w - 1) - Pow2(k - 1);
      AndMask(x / 2, w - 1, k - 1);
      ModHalf(x, Pow2(k - 1));
      assert Pow2(w) - Pow2(k) == 2 * m;
    }
  }

  /** Bits that do not meet add up. */
  lemma {:induction false} OrLow(x: nat, y: nat, k: nat)
    requires x % Pow2(k) == 0 && y < Pow2(k)
    ensures Or(x, y) == x + y
    decreases k
  {
    if k == 0 {
      OrZero(x);
    } else {
      ModHalf(x, Pow2(k - 1));
      OrLow(x / 2, y / 2, k - 1);
    }
  }

  lemma {:induction false} OrZero(x: nat)
    ensures Or(x, 0) == x
  {
    if x > 0 {
      OrZero(x / 2);
    }
  }

  /** A smaller power of two divides a larger one. */
  lemma {:induction false} Pow2Divides(k: nat, w: nat)
    requires k <= w
    ensures Pow2(w) % Pow2(k) == 0
  {
    if k > 0 {
      Pow2Divides(k - 1, w - 1);
      ModHalf(Pow2(w), Pow2(k - 1));
    }
  }

  lemma {:induction false} Pow2Monotone(k: nat, w: nat)
    requires k <= w
    ensures Pow2(k) <= Pow2(w)
  {
    if k > 0 {
      Pow2Monotone(k - 1, w - 1);
    }
  }

  lemma {:induction false} Pow2Product(a: nat, b: nat)
    ensures Pow2(a + b) == Pow2(a) * Pow2(b)
  {
    if a > 0 {
      Pow2Product(a - 1, b);
    }
  }

  lemma Pow2Table()
    ensures Pow2(8) == 0x100 && Pow2(16) == 0x1_0000 && Pow2(32) == 0x1_0000_0000
  {
    assert Pow2(4) == 16;
    Pow2Product(4, 4);
    Pow2Product(8, 8);
    Pow2Product(16, 16);
  }

  function Quotient(x: nat, m: nat): nat
    requires m > 0
  {
    x / m
  }

  lemma QuotientIs(x: nat, m: nat, q: nat)
    requires m > 0 && x == q * m
    ensures Quotient(x, m) == q
  {
    ModIs(x, m, q, 0);
    assert (x / m - q) * m == 0;
    MulBound(x / m - q, m);
  }
}
