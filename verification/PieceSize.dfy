/**
 Padded piece sizes and the alignment arithmetic that sector packing relies on.

 A padded piece size is valid when it is a power of two of at least 128 bytes. A padded
 size s carries s - s/128 unpadded bytes, and an unpadded length u pads to u + u/127.
 */
module PieceSize {

  // ----- powers of two and bits -----

  function PopCount(n: nat): nat {
    if n == 0 then 0 else n % 2 + PopCount(n / 2)
  }

  function TrailingZeros(n: nat): nat
    requires n > 0
  {
    if n % 2 == 1 then 0 else 1 + TrailingZeros(n / 2)
  }

  function Shl(k: nat): (p: nat)
    ensures p > 0
  {
    if k == 0 then 1 else 2 * Shl(k - 1)
  }

  predicate IsPow2(n: nat) {
    n == 1 || (n > 1 && n % 2 == 0 && IsPow2(n / 2))
  }

  predicate ValidSize(s: nat) {
    s >= 128 && PopCount(s) == 1
  }

  function Unpadded(s: nat): nat { s - s / 128 }

  function Padded(u: nat): nat { u + u / 127 }

  lemma {:induction false} PopCountZero(n: nat)
    ensures PopCount(n) == 0 <==> n == 0
  {
    if n > 0 {
      PopCountZero(n / 2);
    }
  }

  /** One set bit means a power of two. */
  lemma {:induction false} OneBitIsPow2(n: nat)
    ensures PopCount(n) == 1 <==> IsPow2(n)
  {
    if n > 0 {
      PopCountZero(n / 2);
      OneBitIsPow2(n / 2);
    }
  }

  lemma {:induction false} ShlIsPow2(k: nat)
    ensures IsPow2(Shl(k))
  {
    if k > 0 {
      ShlIsPow2(k - 1);
      assert Shl(k) / 2 == Shl(k - 1);
    }
  }

  // ----- divisibility -----

  lemma {:induction false} ModSteps(q: nat, d: nat, r: nat)
    requires d > 0 && r < d
    ensures (q * d + r) % d == r
    decreases q
  {
    if q > 0 {
      var m := (q - 1) * d + r;
      ModSteps(q - 1, d, r);
      assert q * d + r == m + d;
      ModShift(m, d, m / d);
    }
  }

  lemma ModShift(m: nat, d: nat, k: nat)
    requires d > 0 && k == m / d
    ensures (m + d) % d == m % d
  {
    var x := m + d;
    assert m == d * k + m % d;
    var j := x / d;
    assert x == d * j + x % d;
    assert j <= k ==> d * j <= d * k;
    assert j >= k + 2 ==> d * j >= d * (k + 2);
  }

  lemma MultipleMod(q: nat, d: nat)
    requires d > 0
    ensures (q * d) % d == 0
  {
    ModSteps(q, d, 0);
  }

  lemma ModSum(a: nat, b: nat, d: nat)
    requires d > 0 && a % d == 0 && b % d == 0
    ensures (a + b) % d == 0
  {
    assert a == (a / d) * d && b == (b / d) * d;
    assert a + b == (a / d + b / d) * d;
    MultipleMod(a / d + b / d, d);
  }

  lemma ModDiff(a: nat, b: nat, d: nat)
    requires d > 0 && a % d == 0 && b % d == 0 && b <= a
    ensures (a - b) % d == 0
  {
    assert a == (a / d) * d && b == (b / d) * d;
    assert a - b == (a / d - b / d) * d;
    assert a / d >= b / d;
    MultipleMod(a / d - b / d, d);
  }

  lemma ModTrans(a: nat, b: nat, c: nat)
    requires b > 0 && c > 0 && a % b == 0 && b % c == 0
    ensures a % c == 0
  {
    var q, r := a / b, b / c;
    assert a == q * b && b == r * c;
    assert a == (q * r) * c;
    MultipleMod(q * r, c);
  }

  /** A nonzero multiple of d is at least d. */
  lemma MultipleAtLeast(a: nat, d: nat)
    requires d > 0 && a > 0 && a % d == 0
    ensures a >= d
  {
    assert a == (a / d) * d;
  }

  lemma DoubleMod(a: nat, d: nat)
    requires d > 0
    ensures (2 * a) % (2 * d) == 0 <==> a % d == 0
  {
    assert a == (a / d) * d + a % d;
    assert 2 * a == (a / d) * (2 * d) + 2 * (a % d);
    ModSteps(a / d, 2 * d, 2 * (a % d));
  }

  /** The smaller of two powers of two divides the larger. */
  lemma {:induction false} Pow2Divides(a: nat, b: nat)
    requires IsPow2(a) && IsPow2(b) && a <= b
    ensures b % a == 0
  {
    if a > 1 {
      Pow2Divides(a / 2, b / 2);
      DoubleMod(b / 2, a / 2);
    }
  }

  // ----- the lowest set bit -----

  function LowBit(n: nat): (p: nat)
    requires n > 0
    ensures 0 < p <= n
  {
    if n % 2 == 1 then 1 else 2 * LowBit(n / 2)
  }

  /** The size of the next aligned slot in `space` remaining bytes. A shift by all 64 bits yields 0. */
  function NextAlignedPiece(space: nat): nat {
    if space == 0 then 0 else Shl(TrailingZeros(space))
  }

  lemma {:induction false} NextAlignedIsLowBit(n: nat)
    requires n > 0
    ensures NextAlignedPiece(n) == LowBit(n)
  {
    if n % 2 == 0 {
      NextAlignedIsLowBit(n / 2);
    }
  }

  lemma {:induction false} LowBitDivides(n: nat)
    requires n > 0
    ensures IsPow2(LowBit(n)) && n % LowBit(n) == 0
  {
    if n % 2 == 0 {
      LowBitDivides(n / 2);
      DoubleMod(n / 2, LowBit(n / 2));
    }
  }

  lemma {:induction false} LowBitBounds(n: nat, p: nat)
    requires n > 0 && IsPow2(p) && n % p == 0
    ensures p <= LowBit(n)
  {
    if p > 1 {
      Pow2Divides(2, p);
      ModTrans(n, p, 2);
      DoubleMod(n / 2, p / 2);
      LowBitBounds(n / 2, p / 2);
    }
  }

  /** The lowest set bit is the greatest power of two that divides n. */
  lemma LowBitGreatest(n: nat)
    requires n > 0
    ensures IsPow2(LowBit(n)) && n % LowBit(n) == 0
    ensures forall p: nat :: IsPow2(p) && n % p == 0 ==> p <= LowBit(n)
  {
    LowBitDivides(n);
    forall p: nat | IsPow2(p) && n % p == 0
      ensures p <= LowBit(n)
    {
      LowBitBounds(n, p);
    }
  }

  /** Clearing the lowest bit removes one bit and leaves only higher ones. */
  lemma {:induction false} ClearLowBit(n: nat)
    requires n > 0
    ensures PopCount(n - LowBit(n)) == PopCount(n) - 1
    ensures n > LowBit(n) ==> LowBit(n - LowBit(n)) > LowBit(n)
  {
    if n % 2 == 0 {
      ClearLowBit(n / 2);
      assert (n - LowBit(n)) / 2 == n / 2 - LowBit(n / 2);
    } else {
      assert (n - 1) / 2 == n / 2;
    }
  }

  // ----- aligning up -----

  /** The least multiple of s that is at least x. */
  function AlignUp(x: nat, s: nat): nat {
    if s == 0 then x else (x + s - 1) / s * s
  }

  lemma AlignUpBounds(x: nat, s: nat)
    requires s > 0
    ensures x <= AlignUp(x, s) < x + s
    ensures AlignUp(x, s) % s == 0
  {
    var q := (x + s - 1) / s;
    MultipleMod(q, s);
    assert x + s - 1 == q * s + (x + s - 1) % s;
  }

  lemma AlignUpLeast(x: nat, s: nat)
    requires s > 0
    ensures x <= AlignUp(x, s) < x + s
    ensures AlignUp(x, s) % s == 0
    ensures forall y: nat :: x <= y && y % s == 0 ==> AlignUp(x, s) <= y
  {
    AlignUpBounds(x, s);
    forall y: nat | x <= y && y % s == 0
      ensures AlignUp(x, s) <= y
    {
      if y < AlignUp(x, s) {
        ModDiff(AlignUp(x, s), y, s);
        MultipleAtLeast(AlignUp(x, s) - y, s);
      }
    }
  }

  /** AlignUp is the only value with its defining property. */
  lemma AlignUpUnique(x: nat, s: nat, y: nat)
    requires s > 0 && x <= y < x + s && y % s == 0
    ensures y == AlignUp(x, s)
  {
    AlignUpBounds(x, s);
    if AlignUp(x, s) < y {
      ModDiff(y, AlignUp(x, s), s);
      MultipleAtLeast(y - AlignUp(x, s), s);
    } else if y < AlignUp(x, s) {
      ModDiff(AlignUp(x, s), y, s);
      MultipleAtLeast(AlignUp(x, s) - y, s);
    }
  }
}
