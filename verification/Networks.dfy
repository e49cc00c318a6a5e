/** Blocks of 32-bit addresses in prefix notation (section 3.1 of RFC 4632): bounds and distances
    (network/network.go:19-94). */
module Networks {
  import opened Bits

  const ADDRESSES := 0x1_0000_0000

  type Address = x: int | 0 <= x < 0x1_0000_0000

  type Ones = n: nat | n <= 32

  /** An address and the number of leading ones of its mask. */
  datatype Net = Net(ip: Address, ones: Ones)

  function Size(ones: Ones): nat {
    Pow2(32 - ones)
  }

  lemma SizeBounds(ones: Ones)
    ensures 1 <= Size(ones) <= ADDRESSES && Divides(Size(ones), ADDRESSES)
    ensures Pow2(32) == ADDRESSES
  {
    Pow2Table();
    Pow2Divides(32 - ones, 32);
    DividesIs(Size(ones), ADDRESSES);
    Pow2Monotone(32 - ones, 32);
  }

  function Mask(ones: Ones): (m: Address)
    ensures m == ADDRESSES - Size(ones)
  {
    SizeBounds(ones);
    ADDRESSES - Size(ones)
  }

  /** An aligned block: the address is a multiple of the block's size. */
  predicate Aligned(n: Net) {
    Divides(Size(n.ones), n.ip)
  }

  /** x is a multiple of m. */
  predicate Divides(m: nat, x: nat)
    decreases x
  {
    x == 0 || (0 < m <= x && Divides(m, x - m))
  }

  lemma {:induction false} DividesIs(m: nat, x: nat)
    requires m > 0
    ensures Divides(m, x) <==> x % m == 0
    decreases x
  {
    if x < m {
      ModIs(x, m, 0, x);
    } else {
      DividesIs(m, x - m);
      ModIs(x, m, (x - m) / m + 1, (x - m) % m);
    }
  }

  /** The last address as the code computes it. */
  function Last(n: Net): (l: Address)
    ensures Aligned(n) ==> l == n.ip + Size(n.ones) - 1
  {
    LastIsEnd(n);
    assert Aligned(n) ==> n.ip % Size(n.ones) == 0 by { SizeBounds(n.ones); DividesIs(Size(n.ones), n.ip); }
    Or(And(n.ip, Mask(n.ones)), ADDRESSES - 1 - Mask(n.ones))
  }

  /** The last address is the end of the block that contains the address. */
  lemma LastIsEnd(n: Net)
    ensures Or(And(n.ip, Mask(n.ones)), ADDRESSES - 1 - Mask(n.ones))
            == n.ip - n.ip % Size(n.ones) + Size(n.ones) - 1 < ADDRESSES
  {
    SizeBounds(n.ones);
    EndOfBlock(n.ip, 32, 32 - n.ones, ADDRESSES, Size(n.ones), Mask(n.ones));
  }

  lemma BlockFits(x: nat, m: nat, top: nat)
    requires m > 0 && Divides(m, top) && x < top
    ensures x - x % m + m <= top
  {
    StartOfBlock(x, m);
    AlignedGap(x - x % m, top, m);
  }

  lemma EndOfBlock(x: nat, w: nat, k: nat, top: nat, size: nat, mask: nat)
    requires k <= w && top == Pow2(w) && size == Pow2(k) && mask == top - size
    requires x < top && Divides(size, top)
    ensures Or(And(x, mask), top - 1 - mask) == x - x % size + size - 1 < top
  {
    AndMask(x, w, k);
    var first := x - x % size;
    EndBits(first, size, k) by { StartOfBlock(x, size); }
    BlockFits(x, size, top);
  }

  lemma EndBits(first: nat, size: nat, k: nat)
    requires size == Pow2(k) && first % size == 0
    ensures Or(first, size - 1) == first + size - 1
  {
    OrLow(first, size - 1, k);
  }

  lemma StartOfBlock(x: nat, m: nat)
    requires m > 0
    ensures 0 <= x - x % m <= x && (x - x % m) % m == 0 && Divides(m, x - x % m)
  {
    ModIs(x - x % m, m, x / m, 0);
    DividesIs(m, x - x % m);
  }

  /** Two different multiples of m are at least m apart. */
  lemma AlignedGap(a: nat, b: nat, m: nat)
    requires m > 0 && Divides(m, a) && Divides(m, b) && a < b
    ensures a + m <= b
  {
    DividesIs(m, a);
    DividesIs(m, b);
    var p, q := a / m, b / m;
    assert a == p * m && b == q * m;
    if q <= p {
      MulMonotone(q, p, m);
    }
    MulMonotone(p + 1, q, m);
  }

  lemma AlignedSum(a: nat, m: nat)
    requires m > 0 && Divides(m, a)
    ensures Divides(m, a + m)
  {
  }

  function Distance(a: Address, b: Address): (d: int)
    ensures d == b - a
  {
    if b > a then b - a else -(a - b)
  }

  predicate Contains(n: Net, x: Address) {
    n.ip <= x <= Last(n)
  }

  ghost predicate Overlap(a: Net, b: Net) {
    exists x: Address :: Contains(a, x) && Contains(b, x)
  }

  ghost predicate Inside(a: Net, b: Net) {
    forall x: Address :: Contains(a, x) ==> Contains(b, x)
  }

  /** Two aligned blocks are nested or disjoint. */
  lemma NestedOrDisjoint(a: Net, b: Net)
    requires Aligned(a) && Aligned(b)
    ensures Overlap(a, b) ==> Inside(a, b) || Inside(b, a)
    ensures !Overlap(a, b) <==> Last(a) < b.ip || Last(b) < a.ip
  {
    if Last(a) >= b.ip && Last(b) >= a.ip {
      assert Contains(a, if a.ip < b.ip then b.ip else a.ip) && Contains(b, if a.ip < b.ip then b.ip else a.ip);
      if a.ones >= b.ones {
        var k := SizesDivide(a.ones, b.ones);
        NestedBlocks(a.ip, Size(a.ones), b.ip, k, Size(b.ones));
      } else {
        var k := SizesDivide(b.ones, a.ones);
        NestedBlocks(b.ip, Size(b.ones), a.ip, k, Size(a.ones));
      }
    }
  }

  lemma SizesDivide(a: Ones, b: Ones) returns (k: nat)
    requires a >= b
    ensures k > 0 && Size(b) == Size(a) * k
  {
    k := Pow2(a - b);
    Pow2Product(32 - a, a - b);
  }

  /** The smaller block lies inside the larger one. */
  lemma NestedBlocks(x: nat, m: nat, y: nat, k: nat, big: nat)
    requires m > 0 && k > 0 && big == m * k
    requires Divides(m, x) && Divides(big, y) && y < x + m && x < y + big
    ensures y <= x && x + m <= y + big
  {
    Multiple(y, m, k, big);
    AlignedSum(y, big);
    Multiple(y + big, m, k, big);
    if x < y {
      AlignedGap(x, y, m);
    }
    AlignedGap(x, y + big, m);
  }

  lemma Multiple(x: nat, m: nat, k: nat, big: nat)
    requires m > 0 && k > 0 && big == m * k > 0 && Divides(big, x)
    ensures Divides(m, x)
  {
    DividesIs(big, x);
    DividesIs(m, x);
    var q := x / big;
    assert x == q * big;
    assert x == (q * k) * m by { Reorder(m, k, q); }
    ModIs(x, m, q * k, 0);
  }

  lemma Reorder(m: int, k: int, q: int)
    ensures q * (m * k) == (q * k) * m
  {
  }

  /** The distance between two blocks, as the code computes it. */
  function NetDistance(a: Net, b: Net): int {
    if a.ip == b.ip && Last(a) == Last(b) then 0
    else if a.ip >= b.ip && a.ip <= Last(b) then -(Last(b) - a.ip)
    else if b.ip >= a.ip && b.ip <= Last(a) then -(Last(a) - b.ip)
    else if a.ip > Last(b) then Last(a) - Last(b)
    else Last(b) - Last(a)
  }

  /** Negative only for overlap; symmetric and positive for disjoint blocks; zero exactly for equal blocks
      and for a one-address overlap at the last address of one of the two. */
  lemma NetDistanceMeaning(a: Net, b: Net)
    requires Aligned(a) && Aligned(b)
    ensures NetDistance(a, b) > 0 <==> !Overlap(a, b)
    ensures !Overlap(a, b) ==> NetDistance(a, b) == NetDistance(b, a)
    ensures NetDistance(a, b) < 0 ==> Overlap(a, b)
    ensures NetDistance(a, b) == 0 <==>
              (a.ip == b.ip && Last(a) == Last(b)) || a.ip == Last(b) || (a.ip < b.ip && b.ip == Last(a))
  {
    NestedOrDisjoint(a, b);
    NestedOrDisjoint(b, a);
  }

  /** Of disjoint blocks it is the distance from last address to last address; of a block inside another one, minus
      the distance from its start to the end of the other one. */
  lemma NetDistanceMeasures(a: Net, b: Net)
    requires Aligned(a) && Aligned(b)
    ensures !Overlap(a, b) && Last(a) < b.ip ==> NetDistance(a, b) == Last(b) - Last(a)
    ensures !Overlap(a, b) && Last(b) < a.ip ==> NetDistance(a, b) == Last(a) - Last(b)
    ensures Inside(a, b) ==> NetDistance(a, b) == if a.ip == b.ip && Last(a) == Last(b) then 0 else a.ip - Last(b)
    ensures Inside(b, a) && a.ip != b.ip ==> NetDistance(a, b) == b.ip - Last(a)
  {
    NestedOrDisjoint(a, b);
    SizeBounds(a.ones);
    SizeBounds(b.ones);
    assert Contains(a, a.ip) && Contains(a, Last(a)) && Contains(b, b.ip) && Contains(b, Last(b));
  }

  /** On overlapping blocks the distance is symmetric unless they start together and end differently. */
  lemma NetDistanceSymmetric(a: Net, b: Net)
    requires Aligned(a) && Aligned(b)
    ensures NetDistance(a, b) == NetDistance(b, a) <==> a.ip != b.ip || Last(a) == Last(b)
  {
    NestedOrDisjoint(a, b);
  }

  /** The block of the given mask right after a block; addresses wrap around at 32 bits. */
  function NextNet(a: Net, ones: Ones): Net {
    Net((Last(a) + 1) % ADDRESSES, ones)
  }

  function Power(n: int, m: nat): int {
    if m == 0 then 1 else n * Power(n, m - 1)
  }

  method IntPow(n: int, m: int) returns (result: int)
    ensures m >= 0 ==> result == Power(n, m)
    ensures m < 0 ==> result == n
  {
    if m == 0 {
      return 1;
    }
    result := n;
    var i := 2;
    while i <= m
      invariant m >= 1 ==> 2 <= i <= m + 1 && result == Power(n, i - 1)
      invariant m < 0 ==> i == 2 && result == n
    {
      result := result * n;
      i := i + 1;
    }
  }

  lemma {:induction false} PowerOfTwo(m: nat)
    ensures Power(2, m) == Pow2(m)
  {
    if m > 0 {
      PowerOfTwo(m - 1);
    }
  }
}
