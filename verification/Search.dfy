/** `memcmp` and `memmem`: the "Not So Naive" search for a substring. */
module Search {

  type byte = x: int | 0 <= x < 256

  const NONE: int := -1

  /** The needle is found at position `j`. */
  predicate Occurs(y: seq<byte>, x: seq<byte>, j: int) {
    0 <= j <= |y| - |x| && y[j..j + |x|] == x
  }

  /** The first difference is at `k`, by `d`. */
  predicate DiffersAt(a: seq<byte>, b: seq<byte>, k: int, d: int) {
    0 <= k < |a| && k < |b| && a[..k] == b[..k] && d == a[k] as int - b[k] as int
  }

  /** Compares `n` bytes from the given positions: sign of the first difference, or 0. */
  method MemCmp(a: array<byte>, i: nat, b: array<byte>, j: nat, n: nat) returns (d: int)
    requires i + n <= a.Length && j + n <= b.Length
    ensures d == 0 <==> a[i..i + n] == b[j..j + n]
    ensures d != 0 ==> var u, v := a[i..i + n], b[j..j + n]; exists k :: DiffersAt(u, v, k, d)
  {
    var k := 0;
    while k < n
      invariant 0 <= k <= n && a[i..i + k] == b[j..j + k]
    {
      d := a[i + k] as int - b[j + k] as int;
      if d != 0 {
        ghost var u, v := a[i..i + n], b[j..j + n];
        assert u[k] != v[k] && u[..k] == a[i..i + k] && v[..k] == b[j..j + k];
        assert DiffersAt(u, v, k, d);
        return;
      }
      assert a[i..i + k + 1] == a[i..i + k] + [a[i + k]];
      assert b[j..j + k + 1] == b[j..j + k] + [b[j + k]];
      k := k + 1;
    }
    d := 0;
  }

  /** An occurrence agrees with the needle byte by byte. */
  lemma OccursAt(y: seq<byte>, x: seq<byte>, j: int, k: int)
    requires Occurs(y, x, j) && 0 <= k < |x|
    ensures y[j + k] == x[k]
  {
    assert y[j..j + |x|][k] == y[j + k];
  }

  /** After a mismatch on the second byte, a needle that begins with two equal bytes cannot start one
      place further either. */
  lemma NoMatchAfterMismatch(y: seq<byte>, x: seq<byte>, j: nat)
    requires |x| >= 2 && j + |x| <= |y| && x[1] != y[j + 1]
    ensures !Occurs(y, x, j)
    ensures x[0] == x[1] ==> !Occurs(y, x, j + 1)
  {
    if Occurs(y, x, j) { OccursAt(y, x, j, 1); }
    if Occurs(y, x, j + 1) { OccursAt(y, x, j + 1, 0); }
  }

  /** After a match on the second byte, a needle that begins with two different bytes cannot start one
      place further. */
  lemma NoMatchAfterMatch(y: seq<byte>, x: seq<byte>, j: nat)
    requires |x| >= 2 && j + |x| <= |y| && x[1] == y[j + 1] && x[0] != x[1]
    ensures !Occurs(y, x, j + 1)
  {
    if Occurs(y, x, j + 1) { OccursAt(y, x, j + 1, 0); }
  }

  lemma OccursInParts(y: seq<byte>, x: seq<byte>, j: nat)
    requires |x| >= 2 && j + |x| <= |y| && x[1] == y[j + 1]
    ensures Occurs(y, x, j) <==> x[2..] == y[j + 2..j + |x|] && x[0] == y[j]
  {
    var window := y[j..j + |x|];
    assert window == [y[j], y[j + 1]] + y[j + 2..j + |x|];
    assert window[0] == y[j] && window[2..] == y[j + 2..j + |x|];
    assert x == [x[0], x[1]] + x[2..];
  }

  /** The leftmost occurrence of a non-empty needle, or none. */
  method MemMem(haystack: array<byte>, needle: array<byte>) returns (r: int)
    ensures needle.Length > 0 && r != NONE ==>
              Occurs(haystack[..], needle[..], r) && forall j :: 0 <= j < r ==> !Occurs(haystack[..], needle[..], j)
    ensures needle.Length > 0 && r == NONE ==> forall j :: !Occurs(haystack[..], needle[..], j)
    ensures needle.Length == 0 ==> r == NONE
  {
    var n, m := haystack.Length, needle.Length;
    if m > n || m == 0 || n == 0 {
      return NONE;
    }
    if m != 1 {
      r := SearchLong(haystack, needle);
    } else {
      var i := 0;
      while i < n
        invariant 0 <= i <= n && forall j :: 0 <= j < i ==> haystack[j] != needle[0]
      {
        if haystack[i] == needle[0] {
          SingleByte(haystack[..], needle[..]);
          return i;
        }
        i := i + 1;
      }
      SingleByte(haystack[..], needle[..]);
      r := NONE;
    }
  }

  lemma SingleByte(y: seq<byte>, x: seq<byte>)
    requires |x| == 1
    ensures forall j :: Occurs(y, x, j) <==> 0 <= j < |y| && y[j] == x[0]
  {
    forall j | 0 <= j < |y| ensures Occurs(y, x, j) <==> y[j] == x[0] {
      assert y[j..j + 1] == [y[j]];
      assert x == [x[0]];
    }
  }

  method SearchLong(y: array<byte>, x: array<byte>) returns (r: int)
    requires 2 <= x.Length <= y.Length
    ensures r != NONE ==> Occurs(y[..], x[..], r) && forall j :: 0 <= j < r ==> !Occurs(y[..], x[..], j)
    ensures r == NONE ==> forall j :: !Occurs(y[..], x[..], j)
  {
    var n, m := y.Length, x.Length;
    var k, l := 1, 2;
    if x[0] == x[1] {
      k, l := 2, 1;
    }
    var j := 0;
    while j <= n - m
      invariant 0 <= j && forall i :: 0 <= i < j ==> !Occurs(y[..], x[..], i)
      decreases n - j
    {
      if x[1] != y[j + 1] {
        NoMatchAfterMismatch(y[..], x[..], j);
        j := j + k;
      } else {
        var d := MemCmp(x, 2, y, j + 2, m - 2);
        OccursInParts(y[..], x[..], j);
        assert x[..][2..] == x[2..2 + (m - 2)] && y[..][j + 2..j + m] == y[j + 2..j + 2 + (m - 2)];
        if d == 0 && x[0] == y[j] {
          return j;
        }
        if x[0] != x[1] { NoMatchAfterMatch(y[..], x[..], j); }
        j := j + l;
      }
    }
    r := NONE;
  }
}
