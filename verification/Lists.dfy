/** Sequences without repetition, and the removal of one element from them. */
module Lists {

  ghost predicate NoDup<T>(s: seq<T>) {
    forall i, j :: 0 <= i < j < |s| ==> s[i] != s[j]
  }

  /** The sequence without its first occurrence of `x`. */
  function Remove<T(==)>(s: seq<T>, x: T): (r: seq<T>)
    ensures |r| == if x in s then |s| - 1 else |s|
    ensures forall y :: y in r ==> y in s
  {
    if s == [] then []
    else if s[0] == x then s[1..]
    else [s[0]] + Remove(s[1..], x)
  }

  lemma {:induction false} RemoveNoDup<T>(s: seq<T>, x: T)
    requires NoDup(s)
    ensures NoDup(Remove(s, x))
    ensures forall y :: y in Remove(s, x) <==> y in s && y != x
  {
    if s != [] && s[0] != x {
      RemoveNoDup(s[1..], x);
      assert forall y :: y in s <==> y == s[0] || y in s[1..];
      assert s[0] !in s[1..];
    } else if s != [] {
      assert forall y :: y in s <==> y == s[0] || y in s[1..];
    }
  }

  lemma {:induction false} RemoveSplits<T>(s: seq<T>, k: int)
    requires NoDup(s) && 0 <= k < |s|
    ensures Remove(s, s[k]) == s[..k] + s[k + 1..]
  {
    if k > 0 {
      var t := s[1..];
      assert t[k - 1] == s[k] && s[0] != s[k];
      RemoveSplits(t, k - 1);
      assert Remove(s, s[k]) == [s[0]] + Remove(t, s[k]);
      hide NoDup, Remove;
      assert [s[0]] + t[..k - 1] == s[..k];
      assert t[k..] == s[k + 1..];
    }
  }

  lemma {:induction false} RemoveAbsent<T>(s: seq<T>, x: T)
    requires x !in s
    ensures Remove(s, x) == s
  {
    if s != [] {
      RemoveAbsent(s[1..], x);
    }
  }

  lemma Associates<T>(a: seq<T>, b: seq<T>, c: seq<T>)
    ensures (a + b) + c == a + (b + c)
  {}

  lemma AppendNoDup<T>(s: seq<T>, x: T)
    requires NoDup(s) && x !in s
    ensures NoDup(s + [x])
  {}

  lemma MemberIfNonEmpty(s: seq<int>)
    ensures s == [] || exists x :: x in s
  {
    if s != [] {
      var x := s[0];
      assert x in s;
    }
  }

  lemma ConcatNoDup<T>(a: seq<T>, b: seq<T>)
    requires NoDup(a) && NoDup(b) && forall x :: x in b ==> x !in a
    ensures NoDup(a + b)
  {
    var s := a + b;
    forall i, j | 0 <= i < j < |s| ensures s[i] != s[j] {
      if j >= |a| { assert s[j] == b[j - |a|] && s[j] in b; }
      if i < |a| { assert s[i] == a[i] && s[i] in a; }
    }
  }

  /** Overwriting an entry by the last one and dropping the last removes exactly that entry. */
  lemma SwapRemove<T>(s: seq<T>, i: nat)
    requires NoDup(s) && i < |s|
    ensures var r := s[i := s[|s| - 1]][..|s| - 1];
            NoDup(r) && forall x :: x in r <==> x in s && x != s[i]
  {
    var n := |s| - 1;
    var r := s[i := s[n]][..n];
    forall x | x in s && x != s[i] ensures x in r {
      var k :| 0 <= k < |s| && s[k] == x;
      assert r[if k == n then i else k] == x;
    }
  }

  /** Distinct members of an interval are no more than the interval is long. */
  lemma {:induction false} DistinctInRange(s: seq<int>, lo: int, hi: int)
    requires NoDup(s) && lo <= hi
    requires forall x :: x in s ==> lo <= x < hi
    ensures |s| <= hi - lo
    decreases hi - lo
  {
    if |s| > 0 {
      var x := s[0];
      assert x in s && lo < hi;
      RemoveNoDup(s, hi - 1);
      DistinctInRange(Remove(s, hi - 1), lo, hi - 1);
    }
  }
}
