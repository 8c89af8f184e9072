/** Division of 64-bit numbers: `do_div64` from 32-bit divisions, and the shift-subtract `div64`. */
module Division {
  import opened Outcomes

  const B: int := 0x1_0000_0000
  const W: int := 0x1_0000_0000_0000_0000

  function Pow2(n: nat): (r: nat)
    ensures r >= 1
  {
    if n == 0 then 1 else 2 * Pow2(n - 1)
  }

  /** What `bsr` gives for a positive number. */
  function Log2(n: nat): (k: nat)
    requires n > 0
    ensures Pow2(k) <= n < 2 * Pow2(k)
  {
    if n == 1 then 0 else 1 + Log2(n / 2)
  }

  /** Quotient and remainder; dividing by 0 gives 0 and the dividend. */
  function Quotient(x: nat, y: nat): nat { if y == 0 then 0 else x / y }

  function Remainder(x: nat, y: nat): nat { if y == 0 then x else x % y }

  /** `y` has more than 32 bits and its 32 highest ones are all 1. */
  predicate TopBitsAllOnes(y: nat) {
    y >= B && y / Pow2(Log2(y / B) + 1) == B - 1
  }

  /** Such a divisor: 2^33 - 1, whose shifted value is 2^32 - 1. */
  lemma WrappingDivisor()
    ensures TopBitsAllOnes(0x1_FFFF_FFFF)
  {
    assert Log2(1) == 0 && Pow2(1) == 2;
  }

  // ----- arithmetic -----

  lemma LessProduct(a: int, b: int, c: nat)
    requires a <= b
    ensures a * c <= b * c
  {}

  lemma Pow2Is32()
    ensures Pow2(32) == B && Pow2(31) * 2 == B
  {
    assert Pow2(8) == 256;
    assert Pow2(16) == 0x1_0000 by { assert Pow2(16) == 256 * Pow2(8); }
    assert Pow2(24) == 0x1_0000 * Pow2(8);
    assert Pow2(32) == 0x1_0000 * 0x1_0000;
  }

  lemma {:induction false} Pow2Mono(a: nat, b: nat)
    requires a <= b
    ensures Pow2(a) <= Pow2(b)
  {
    if a < b { Pow2Mono(a, b - 1); }
  }

  lemma DivLess(x: nat, d: nat, b: nat)
    requires d > 0 && x < b * d
    ensures x / d < b
  {
    var q := x / d;
    assert x == q * d + x % d;
    if q >= b { LessProduct(b, q, d); }
  }

  lemma DivAtLeast(x: nat, d: nat, b: nat)
    requires d > 0 && x >= b * d
    ensures x / d >= b
  {
    var q := x / d;
    assert x < (q + 1) * d by { assert x == q * d + x % d; }
    if q < b { LessProduct(q + 1, b, d); }
  }

  lemma QuotientIs(x: nat, y: nat, q: nat, r: nat)
    requires x == q * y + r && r < y
    ensures q == x / y && r == x % y
  {
    assert x < (q + 1) * y;
    DivLess(x, y, q + 1);
    DivAtLeast(x, y, q);
  }

  lemma Remains(x: nat, d: nat)
    requires d > 0
    ensures (x / d) * d <= x < (x / d) * d + d && (x / d + 1) * d == (x / d) * d + d
  {}

  /** The divisor shifted to 32 significant bits: its top bit is set. */
  lemma Normalised(y: nat)
    requires B <= y < W
    ensures y / B > 0
    ensures var l := Log2(y / B) + 1; var d := y / Pow2(l);
                                      && 1 <= l <= 32 && B / 2 <= d < B && Pow2(l) >= 2
                                      && d * Pow2(l) <= y < (d + 1) * Pow2(l)
  {
    var y1: nat, half: nat, base: nat := y / B, B / 2, B;
    var k := Log2(y1);
    var p: nat := Pow2(k + 1);
    Pow2Is32();
    if k >= 32 { Pow2Mono(32, k); }
    assert p == 2 * Pow2(k) && Pow2(k) <= y1 < p;
    Remains(y, base);
    LessProduct(y1 + 1, p, base);
    DivLess(y, p, base);
    LessProduct(Pow2(k), y1, base);
    assert half * p == Pow2(k) * base;
    DivAtLeast(y, p, half);
    Remains(y, p);
  }

  /** The estimate never exceeds the quotient and falls short by at most 2. */
  lemma Estimate(x: nat, y: nat, p: nat, d: nat)
    requires x < W && p >= 2 && B / 2 <= d < B && d * p <= y < (d + 1) * p
    ensures var e := (x / p) / (d + 1); y * e <= x && x < y * (e + 3) && e < B
  {
    var X, e := EstimateDigits(x, p, d);
    UnderEstimate(x, y, p, d, e, X);
    OverEstimate(x, y, p, d, e, X);
  }

  lemma EstimateDigits(x: nat, p: nat, d: nat) returns (X: nat, e: nat)
    requires x < W && p >= 2 && B / 2 <= d
    ensures X == x / p && e == (x / p) / (d + 1) && X < W / 2 && e < B
    ensures X * p <= x < X * p + p && e * (d + 1) <= X < (e + 1) * (d + 1)
  {
    X := x / p;
    Remains(x, p);
    DivLess(x, p, W / 2) by { LessProduct(2, p, W / 2); }
    e := EstimateLast(X, d);
  }

  lemma EstimateLast(X: nat, d: nat) returns (e: nat)
    requires X < W / 2 && B / 2 <= d
    ensures e == X / (d + 1) && e < B && e * (d + 1) <= X < (e + 1) * (d + 1)
  {
    var base: nat := B;
    e := X / (d + 1);
    Remains(X, d + 1);
    DivLess(X, d + 1, base) by { LessProduct(B / 2, d + 1, base); }
  }

  lemma UnderEstimate(x: nat, y: nat, p: nat, d: nat, e: nat, X: nat)
    requires y < (d + 1) * p && e * (d + 1) <= X && X * p <= x
    ensures y * e <= x
  {
    LessProduct(y, (d + 1) * p, e);
    LessProduct(e * (d + 1), X, p);
    assert (d + 1) * p * e == e * (d + 1) * p;
  }

  /** In 32-bit digits: the shifted dividend is below three more than the estimate. */
  lemma ShortBound(d: nat, e: nat, X: nat)
    requires X < (e + 1) * (d + 1) && X < W / 2 && B / 2 <= d
    ensures X + 1 <= d * (e + 3)
  {
    if e + 1 <= 2 * d {
      assert (e + 1) * (d + 1) == (e + 1) * d + e + 1;
      assert d * (e + 3) == (e + 1) * d + 2 * d;
    } else {
      LargeEstimate(d, e);
    }
  }

  lemma LargeEstimate(d: nat, e: nat)
    requires e + 1 > 2 * d && B / 2 <= d
    ensures d * (e + 3) >= W / 2
  {
    LessProduct(B, e + 3, d);
    LessProduct(B / 2, d, B);
  }

  lemma OverEstimate(x: nat, y: nat, p: nat, d: nat, e: nat, X: nat)
    requires d * p <= y && x < X * p + p && X < (e + 1) * (d + 1)
    requires X < W / 2 && B / 2 <= d
    ensures x < y * (e + 3)
  {
    ShortBound(d, e, X);
    LessProduct(X + 1, d * (e + 3), p);
    LessProduct(d * p, y, e + 3);
    assert d * (e + 3) * p == d * p * (e + 3);
    assert (X + 1) * p == X * p + p;
  }

  // ----- do_div64 -----

  /** `divl`: 64 by 32 bits; a zero divisor or a quotient over 32 bits is a fault. */
  method Divl(high: nat, low: nat, d: nat) returns (r: Outcome<(nat, nat)>)
    requires high < B && low < B && d < B
    ensures r.Ok? <==> high < d
    ensures r.Ok? ==> r.value.0 < B && r.value.1 < d && high * B + low == r.value.0 * d + r.value.1
  {
    if high >= d {
      return Panic;
    }
    var x: nat, base: nat := high * B + low, B;
    var q, rem := x / d, x % d;
    assert x == q * d + rem;
    DivLess(x, d, base) by { LessProduct(high + 1, d, base); }
    r := Ok((q, rem));
  }

  /** True quotient and remainder, with at most two corrections, unless the incremented divisor of the
      first estimate wraps to 0, which faults. */
  method DoDiv64(x: nat, y: nat) returns (r: Outcome<(nat, nat)>, ghost corrections: nat)
    requires x < W && y < W
    ensures r.Ok? <==> !TopBitsAllOnes(y)
    ensures r.Ok? ==> r.value == (Quotient(x, y), Remainder(x, y))
    ensures corrections <= 2
  {
    corrections := 0;
    var y1, y0 := y / B, y % B;
    var x1, x0 := x / B, x % B;
    if y1 != 0 {
      r, corrections := LongDivisor(x, y);
    } else if x1 < y0 {
      r := Divl(x1, x0, y0);
      QuotientIs(x, y, r.value.0, r.value.1);
    } else if y0 != 0 {
      var a := Divl(0, x1, y0);
      var b := Divl(a.value.1, x0, y0);
      assert x == (a.value.0 * B + b.value.0) * y + b.value.1 by {
        assert x == x1 * B + x0 && x1 == a.value.0 * y + a.value.1;
        assert (a.value.0 * y + a.value.1) * B == a.value.0 * B * y + a.value.1 * B;
      }
      QuotientIs(x, y, a.value.0 * B + b.value.0, b.value.1);
      r := Ok((a.value.0 * B + b.value.0, b.value.1));
    } else {
      r := Ok((0, x));
    }
  }

  /** The shifted dividend by the incremented divisor; the increment is that of a 32-bit word. */
  method FirstEstimate(shifted: nat, d: nat) returns (e: Outcome<nat>)
    requires shifted < W / 2 && B / 2 <= d < B
    ensures e.Ok? <==> d != B - 1
    ensures e.Ok? ==> e.value == shifted / (d + 1)
  {
    var divisor := (d + 1) % B;
    assert divisor == if d + 1 == B then 0 else d + 1;
    DivLess(shifted, B, B / 2);
    var high, low := shifted / B, shifted % B;
    assert shifted == high * B + low;
    var first := Divl(high, low, divisor);
    if first.Panic? {
      return Panic;
    }
    QuotientIs(shifted, divisor, first.value.0, first.value.1);
    e := Ok(first.value.0);
  }

  lemma TopBits(y: nat, d: nat)
    requires B <= y < W && d == y / Pow2(Log2(y / B) + 1)
    ensures TopBitsAllOnes(y) <==> d == B - 1
  {}

  method LongDivisor(x: nat, y: nat) returns (r: Outcome<(nat, nat)>, ghost corrections: nat)
    requires x < W && B <= y < W
    ensures r.Ok? <==> !TopBitsAllOnes(y)
    ensures r.Ok? ==> r.value == (x / y, x % y)
    ensures corrections <= 2
  {
    hide Pow2, Log2, TopBitsAllOnes;
    corrections := 0;
    Normalised(y);
    var p := Pow2(Log2(y / B) + 1);
    var d := y / p;
    TopBits(y, d);
    DivLess(x, p, W / 2) by { LessProduct(2, p, W / 2); }
    var first := FirstEstimate(x / p, d);
    if first.Panic? {
      return Panic, 0;
    }
    Estimate(x, y, p, d);
    var q, rem;
    q, rem, corrections := Correct(x, y, first.value);
    r := Ok((q, rem));
  }

  /** From an estimate that falls short by at most 2; the products are those of 64-bit words. */
  method Correct(x: nat, y: nat, estimate: nat) returns (q: nat, rem: nat, ghost corrections: nat)
    requires x < W && 0 < y && y * estimate <= x < y * (estimate + 3)
    ensures (q, rem) == (x / y, x % y) && corrections <= 2
  {
    q, corrections := estimate, 0;
    rem := (x - (y * q) % W) % W;
    assert y * (estimate + 3) == (estimate + 2) * y + y;
    while rem >= y
      invariant q == estimate + corrections && x == q * y + rem && corrections <= 2
      decreases rem
    {
      assert corrections < 2;
      q := q + 1;
      rem := rem - y;
      corrections := corrections + 1;
    }
    QuotientIs(x, y, q, rem);
  }

  // ----- div64 -----

  lemma Pow2Zero()
    ensures Pow2(0) == 1
  {}

  /** The largest doubling of the divisor not above the dividend; it stops before it leaves 64 bits. */
  method Scale(x: nat, y: nat) returns (mul: nat, div: nat, ghost k: nat)
    requires 0 < y <= x < W
    ensures mul == Pow2(k) && div == mul * y && div <= x < 2 * div
  {
    mul, div, k := 1, y, 0;
    while div < W / 2
      invariant mul == Pow2(k) && div == mul * y && 0 < div <= x
      decreases x - div
    {
      var doubled := div + div;
      if doubled > x { break; }
      assert Pow2(k + 1) == mul + mul && (mul + mul) * y == doubled;
      div := doubled;
      mul := mul + mul;
      k := k + 1;
    }
  }

  /** Shift and subtract. */
  method Div64(x: nat, y: nat) returns (q: nat, rem: nat)
    requires x < W && y < W
    ensures q == Quotient(x, y) && rem == Remainder(x, y)
  {
    if y > x || y == 0 {
      if y != 0 { QuotientIs(x, y, 0, x); }
      return 0, x;
    }
    hide Pow2;
    var mul, div, k := Scale(x, y);
    q := mul;
    rem := x - div;
    while true
      invariant mul == Pow2(k) && div == mul * y && x == q * y + rem && rem < div
      decreases k
    {
      if k == 0 {
        assert mul == 1 by { Pow2Zero(); }
        QuotientIs(x, y, q, rem);
      } else {
        Halves(k, y);
      }
      mul, div := mul / 2, div / 2;
      if mul == 0 { return; }
      k := k - 1;
      if rem >= div {
        assert (q + mul) * y == q * y + div;
        q := q + mul;
        rem := rem - div;
      }
    }
  }

  lemma Halves(k: nat, y: nat)
    requires k > 0
    ensures Pow2(k) / 2 == Pow2(k - 1) && (Pow2(k) * y) / 2 == Pow2(k - 1) * y && Pow2(k) * y == 2 * (Pow2(k - 1) * y)
  {
    assert Pow2(k) * y == 2 * (Pow2(k - 1) * y);
  }
}
