/** Sizes and bins of the memory allocator: `request2size`, `bin_index` and its bit trick. */
module BinIndex {
  import opened Division

  const MINSIZE: int := 16
  const SIZE_SZ: int := 4
  const MIN_LARGE: int := 256
  const NSMALLBINS: int := 32
  const NBINS: int := 96
  const U32: int := 0x1_0000_0000

  // ----- request2size -----

  /** Padding of a request to a chunk size; requests are below 2^32 - 2 * MINSIZE. */
  function Request2Size(n: nat): (s: nat)
  {
    var padded := n + SIZE_SZ + 7;
    if padded < MINSIZE then MINSIZE else padded - padded % 8
  }

  predicate OutOfRange(n: nat) {
    n >= U32 - 2 * MINSIZE
  }

  /** The smallest legal chunk size with room for the request and one word of overhead. */
  lemma RequestFits(n: nat)
    ensures var s := Request2Size(n);
            && s % 8 == 0 && s >= MINSIZE && s >= n + SIZE_SZ
            && (forall t :: t % 8 == 0 && t >= MINSIZE && t >= n + SIZE_SZ ==> t >= s)
    ensures !OutOfRange(n) ==> Request2Size(n) + MINSIZE < U32
  {
    var padded := n + SIZE_SZ + 7;
    assert (padded - padded % 8) % 8 == 0;
    forall t | t % 8 == 0 && t >= MINSIZE && t >= n + SIZE_SZ ensures t >= Request2Size(n) {
      if padded >= MINSIZE {
        assert t == 8 * (t / 8) && padded - padded % 8 == 8 * (padded / 8);
      }
    }
  }

  /** Retrying with a normalised size less 7 asks for the same size again. */
  lemma RetrySameSize(nb: nat)
    requires nb % 8 == 0 && nb >= MINSIZE
    ensures Request2Size(nb - 7) == nb
  {}

  // ----- bins -----

  function LargeBin(sz: nat): (i: nat)
    requires MIN_LARGE <= sz
  {
    var x := sz / 256;
    if x >= 0x1_0000 then NBINS - 1
    else
      var m := Log2(x);
      NSMALLBINS + 4 * m + (sz / Pow2(m + 6)) % 4
  }

  function Bin(sz: nat): (i: nat) {
    if sz < MIN_LARGE then sz / 8 else LargeBin(sz)
  }

  lemma {:induction false} Pow2Sum(a: nat, b: nat)
    ensures Pow2(a + b) == Pow2(a) * Pow2(b)
  {
    if b > 0 {
      Pow2Sum(a, b - 1);
      assert Pow2(a + b) == 2 * Pow2(a + b - 1);
    }
  }

  lemma SmallPowers()
    ensures Pow2(6) == 64 && Pow2(8) == 256 && Pow2(14) == 0x4000 && Pow2(15) == 0x8000 && Pow2(16) == 0x1_0000
  {
    assert Pow2(6) == 64 && Pow2(8) == 256;
    Pow2Sum(8, 6);
    Pow2Sum(8, 8);
  }

  /** The octave of a size: its highest bit, 8 places up. */
  lemma Octave(sz: nat)
    requires MIN_LARGE <= sz < 0x100_0000
    ensures 0 < sz / 256 < 0x1_0000
    ensures var p := Pow2(Log2(sz / 256) + 6); Log2(sz / 256) <= 15 && 4 * p <= sz < 8 * p
  {
    hide Pow2, Log2;
    var x: nat := sz / 256;
    var m := Log2(x);
    SmallPowers();
    Pow2Sum(m, 6);
    assert Pow2(m) <= x < 2 * Pow2(m);
    if m >= 16 { Pow2Mono(16, m); }
    Remains(sz, 256);
  }

  /** Position within the octave: two bits below the highest one. */
  lemma LargeBinIs(sz: nat)
    requires MIN_LARGE <= sz < 0x100_0000
    ensures sz / 256 > 0
    ensures var m := Log2(sz / 256); var q := sz / Pow2(m + 6);
                                     m <= 15 && 4 <= q < 8 && LargeBin(sz) == 28 + 4 * m + q
                                     && 4 * Pow2(m + 6) <= sz < 8 * Pow2(m + 6)
  {
    hide Pow2, Log2;
    Octave(sz);
    var p: nat := Pow2(Log2(sz / 256) + 6);
    DivAtLeast(sz, p, 4);
    DivLess(sz, p, 8);
    var q := sz / p;
    assert q % 4 == q - 4;
  }

  lemma LargeBinRange(sz: nat)
    requires MIN_LARGE <= sz
    ensures NSMALLBINS <= LargeBin(sz) < NBINS
  {
    if sz / 256 < 0x1_0000 {
      LargeBinIs(sz);
    }
  }

  lemma DivMono(a: nat, b: nat, d: nat)
    requires a <= b && d > 0
    ensures a / d <= b / d
  {
    var q: nat := a / d;
    Remains(a, d);
    assert q * d <= b;
    DivAtLeast(b, d, q);
  }

  /** Larger sizes never go to lower bins. */
  lemma BinMonotone(a: nat, b: nat)
    requires a <= b
    ensures Bin(a) <= Bin(b)
  {
    hide LargeBin;
    if b < MIN_LARGE {
      DivMono(a, b, 8);
    } else if a < MIN_LARGE {
      LargeBinRange(b);
    } else if b / 256 >= 0x1_0000 {
      LargeBinRange(a);
      LargeBinTop(b);
    } else {
      SameScale(a, b);
    }
  }

  lemma LargeBinTop(sz: nat)
    requires sz / 256 >= 0x1_0000
    ensures LargeBin(sz) == NBINS - 1
  {}

  lemma SameScale(a: nat, b: nat)
    requires MIN_LARGE <= a <= b < 0x100_0000
    ensures LargeBin(a) <= LargeBin(b)
  {
    hide Pow2, Log2, LargeBin;
    LargeBinIs(a);
    LargeBinIs(b);
    var m, k := Log2(a / 256), Log2(b / 256);
    if m == k {
      DivMono(a, b, Pow2(m + 6));
    } else if m > k {
      Pow2Next(k + 6);
      Pow2Mono(k + 7, m + 6);
    }
  }

  /** A chunk of a higher bin is larger than anything the request's own bin is for. */
  lemma HigherBinFits(request: nat, size: nat)
    requires Bin(request) < Bin(size)
    ensures size > request
  {
    if size <= request { BinMonotone(size, request); }
  }

  /** Small bins hold one size each. */
  lemma SmallBinExact(a: nat, b: nat)
    requires a % 8 == 0 && b % 8 == 0 && Bin(a) == Bin(b) && a < MIN_LARGE
    ensures a == b
  {
    if b >= MIN_LARGE { LargeBinRange(b); }
  }

  // ----- the highest set bit without branches -----

  /** `v - c` and a shift by 16 in 32-bit words: 0 unless the subtraction borrows, then all ones. */
  function Borrow(v: nat, c: nat): nat
    requires v < U32 && c < U32
  {
    ((v - c) % U32) / 0x1_0000
  }

  /** `w & bit` for a power of two. */
  function AndBit(w: nat, bit: nat): nat
    requires bit > 0
  {
    if (w / bit) % 2 == 1 then bit else 0
  }

  lemma BorrowBit(v: nat, c: nat, bit: nat)
    requires v < 0x1_0000 && 0 < c < 0x1_0000 && bit in {2, 4, 8}
    ensures AndBit(Borrow(v, c), bit) == if v < c then bit else 0
  {
    if v < c {
      assert (v - c) % U32 == U32 + v - c;
      assert Borrow(v, c) == 0xFFFF;
    } else {
      assert (v - c) % U32 == v - c;
      assert Borrow(v, c) == 0;
    }
  }

  /** `x & ~(x >> 1)` for the two bits that are left. */
  function TopOfTwo(x: nat): nat
    requires x < 4
  {
    if x == 3 then 2 else x
  }

  /** The branch-free computation in `largebin_index`. */
  method HighestBit(x0: nat) returns (m: nat)
    requires 0 < x0 < 0x1_0000
    ensures m == Log2(x0)
  {
    hide Pow2, Log2, AndBit, Borrow;
    var x := x0;
    BorrowBit(x, 0x100, 8);
    var n := AndBit(Borrow(x, 0x100), 8);
    x := x * (if n == 8 then 256 else 1);
    assert 0x100 <= x < 0x1_0000;
    BorrowBit(x, 0x1000, 4);
    var k := AndBit(Borrow(x, 0x1000), 4);
    n := n + k;
    x := x * (if k == 4 then 16 else 1);
    assert 0x1000 <= x < 0x1_0000;
    BorrowBit(x, 0x4000, 2);
    k := AndBit(Borrow(x, 0x4000), 2);
    x := x * (if k == 2 then 4 else 1);
    n := n + k;
    assert 0x4000 <= x < 0x1_0000;
    Shifts(n);
    assert x == x0 * Pow2(n);
    m := 13 - n + TopOfTwo(x / 0x4000);
    Normal(x0, n, x, m);
  }

  lemma Shifts(n: nat)
    requires n in {0, 2, 4, 6, 8, 10, 12, 14}
    ensures Pow2(n) == (if n >= 8 then 256 else 1) * (if n % 8 >= 4 then 16 else 1) * (if n % 4 >= 2 then 4 else 1)
  {
    hide Pow2;
    FirstPowers();
    if n >= 8 { Pow2Sum(8, n - 8); }
    if n % 8 >= 4 { Pow2Sum(4, n % 8 - 4); }
  }

  lemma FirstPowers()
    ensures Pow2(0) == 1 && Pow2(2) == 4 && Pow2(4) == 16 && Pow2(8) == 256
  {}

  lemma {:induction false} Log2Unique(x: nat, m: nat)
    requires x > 0 && Pow2(m) <= x < 2 * Pow2(m)
    ensures m == Log2(x)
  {
    var k := Log2(x);
    if m < k { Pow2Mono(m + 1, k); }
    if k < m { Pow2Mono(k + 1, m); }
  }

  lemma Normal(x0: nat, n: nat, x: nat, m: nat)
    requires 0 < x0 && n <= 14 && x == x0 * Pow2(n) && 0x4000 <= x < 0x1_0000
    requires m == 13 - n + TopOfTwo(x / 0x4000)
    ensures m == Log2(x0)
  {
    hide Pow2, Log2;
    SmallPowers();
    Pow2Sum(m, n);
    var p, t := Pow2(n), Pow2(m);
    Pow2Next(14);
    assert m + n == 14 || m + n == 15;
    assert t * p <= x0 * p < 2 * (t * p) by {
      assert m + n == 14 ==> x < 0x8000;
      assert m + n == 15 ==> 0x8000 <= x;
    }
    Cancel(t, x0, p);
    CancelLess(x0, 2 * t, p);
    Log2Unique(x0, m);
  }

  lemma Pow2Next(n: nat)
    ensures Pow2(n + 1) == 2 * Pow2(n)
  {}

  lemma Cancel(a: nat, b: nat, p: nat)
    requires p > 0 && a * p <= b * p
    ensures a <= b
  {
    if b < a { LessProduct(b + 1, a, p); }
  }

  lemma CancelLess(a: nat, b: nat, p: nat)
    requires p > 0 && a * p < b * p
    ensures a < b
  {
    if b <= a { LessProduct(b, a, p); }
  }

  /** `largebin_index` with the bit trick gives the same bin. */
  method LargeBinIndex(sz: nat) returns (i: nat)
    requires MIN_LARGE <= sz < U32
    ensures i == LargeBin(sz) && NSMALLBINS <= i < NBINS
  {
    LargeBinRange(sz);
    var x := sz / 256;
    if x >= 0x1_0000 {
      return NBINS - 1;
    }
    var m := HighestBit(x);
    i := NSMALLBINS + 4 * m + (sz / Pow2(m + 6)) % 4;
  }
}
