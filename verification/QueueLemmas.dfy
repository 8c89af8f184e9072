/** The ready queue and the lists of parked processes keep their order. */
module QueueLemmas {
  import opened Lists
  import opened KernelState
  import opened Invariant

  /** Ties: the new element goes before its equals, so it leaves after them. */
  lemma {:induction false} InsertReadySplits(procs: Table, q: seq<int>, p: int) returns (k: nat)
    requires SortedReady(procs, q)
    ensures k <= |q| && InsertReady(procs, q, p) == q[..k] + [p] + q[k..]
    ensures forall i :: 0 <= i < k ==> Prio(procs, q[i]) < Prio(procs, p)
    ensures forall i :: k <= i < |q| ==> Prio(procs, p) <= Prio(procs, q[i])
  {
    if q == [] || Prio(procs, q[0]) >= Prio(procs, p) {
      k := 0;
    } else {
      var j := InsertReadySplits(procs, q[1..], p);
      k := j + 1;
      assert q == [q[0]] + q[1..];
      assert q[..k] == [q[0]] + q[1..][..j];
      assert q[k..] == q[1..][j..];
    }
  }

  /** The place found by walking from the front. */
  lemma {:induction false} InsertAt(procs: Table, q: seq<int>, p: int, i: nat)
    requires i <= |q| && (forall j :: 0 <= j < i ==> Prio(procs, q[j]) < Prio(procs, p))
    requires i < |q| ==> Prio(procs, q[i]) >= Prio(procs, p)
    ensures InsertReady(procs, q, p) == q[..i] + [p] + q[i..]
  {
    if i > 0 {
      InsertAt(procs, q[1..], p, i - 1);
      assert q[..i] == [q[0]] + q[1..][..i - 1];
      assert q[i..] == q[1..][i - 1..];
    } else {
      assert q[..0] + [p] + q[0..] == [p] + q;
    }
  }

  lemma {:induction false} InsertReadyMembers(procs: Table, q: seq<int>, p: int)
    ensures forall x :: x in InsertReady(procs, q, p) <==> x == p || x in q
  {
    if q != [] && Prio(procs, q[0]) < Prio(procs, p) {
      InsertReadyMembers(procs, q[1..], p);
      assert q == [q[0]] + q[1..];
    }
  }

  lemma {:induction false} MiddleNoDup(a: seq<int>, p: int, b: seq<int>)
    requires NoDup(a + b) && p !in a + b
    ensures NoDup(a + [p] + b)
  {
    var r, q := a + [p] + b, a + b;
    forall i, j | 0 <= i < j < |r| ensures r[i] != r[j] {
      var i', j' := if i > |a| then i - 1 else i, if j > |a| then j - 1 else j;
      if i != |a| && j != |a| {
        assert r[i] == q[i'] && r[j] == q[j'];
      } else if i == |a| {
        assert r[j] == q[j'];
      } else {
        assert r[i] == q[i'];
      }
    }
  }

  lemma {:induction false} MiddleSorted(procs: Table, a: seq<int>, p: int, b: seq<int>)
    requires SortedReady(procs, a + b)
    requires forall i :: 0 <= i < |a| ==> Prio(procs, a[i]) <= Prio(procs, p)
    requires forall i :: 0 <= i < |b| ==> Prio(procs, p) <= Prio(procs, b[i])
    ensures SortedReady(procs, a + [p] + b)
  {
    var r, q := a + [p] + b, a + b;
    forall i, j | 0 <= i < j < |r| ensures Prio(procs, r[i]) <= Prio(procs, r[j]) {
      var i', j' := if i > |a| then i - 1 else i, if j > |a| then j - 1 else j;
      if i != |a| && j != |a| {
        assert r[i] == q[i'] && r[j] == q[j'];
      } else if i == |a| {
        assert r[j] == b[j - |a| - 1];
      } else {
        assert r[i] == a[i];
      }
    }
  }

  lemma InsertReadyOk(procs: Table, q: seq<int>, p: int)
    requires NoDup(q) && SortedReady(procs, q) && p !in q
    ensures NoDup(InsertReady(procs, q, p)) && SortedReady(procs, InsertReady(procs, q, p))
    ensures forall x :: x in InsertReady(procs, q, p) <==> x == p || x in q
  {
    var k := InsertReadySplits(procs, q, p);
    assert q == q[..k] + q[k..];
    MiddleNoDup(q[..k], p, q[k..]);
    MiddleSorted(procs, q[..k], p, q[k..]);
    InsertReadyMembers(procs, q, p);
  }

  lemma {:induction false} InsertReadyFrame(procs: Table, procs': Table, q: seq<int>, p: int)
    requires Prio(procs, p) == Prio(procs', p)
    requires forall i :: 0 <= i < |q| ==> Prio(procs, q[i]) == Prio(procs', q[i])
    ensures InsertReady(procs, q, p) == InsertReady(procs', q, p)
  {
    if q != [] {
      InsertReadyFrame(procs, procs', q[1..], p);
    }
  }

  lemma {:induction false} RemoveSorted(procs: Table, q: seq<int>, p: int)
    requires NoDup(q) && SortedReady(procs, q)
    ensures SortedReady(procs, Remove(q, p))
  {
    if p in q {
      var k :| 0 <= k < |q| && q[k] == p;
      RemoveSplits(q, k);
    } else {
      RemoveAbsent(q, p);
    }
  }

  lemma {:induction false} InsertNodeAt(l: seq<Node>, n: Node) returns (k: nat)
    ensures k <= |l| && InsertNode(l, n) == l[..k] + [n] + l[k..]
    ensures k > 0 ==> l[k - 1].prio > n.prio
    ensures forall i :: k <= i < |l| ==> l[i].prio <= n.prio
    decreases |l|
  {
    var m := |l| - 1;
    if l == [] || l[m].prio > n.prio {
      k := |l|;
      assert l[..k] == l && l[k..] == [];
    } else {
      var rest := l[..m];
      k := InsertNodeAt(rest, n);
      assert InsertNode(l, n) == InsertNode(rest, n) + [l[m]];
      hide InsertNode;
      assert rest[..k] == l[..k] && l[k..] == rest[k..] + [l[m]];
    }
  }

  /** Before its equals, after everything above. */
  lemma InsertNodeSplits(l: seq<Node>, n: Node) returns (k: nat)
    ensures k <= |l| && InsertNode(l, n) == l[..k] + [n] + l[k..]
    ensures k > 0 ==> l[k - 1].prio > n.prio
    ensures SortedNodes(l) ==> forall i :: 0 <= i < k ==> l[i].prio > n.prio
    ensures forall i :: k <= i < |l| ==> l[i].prio <= n.prio
  {
    hide InsertNode;
    k := InsertNodeAt(l, n);
    if SortedNodes(l) {
      forall i | 0 <= i < k ensures l[i].prio > n.prio {
        assert i == k - 1 || l[i].prio >= l[k - 1].prio;
      }
    }
  }

  lemma InsertShape(c: seq<Node>, n: Node) returns (j: nat)
    requires DistinctPids(c) && SortedNodes(c) && forall i :: 0 <= i < |c| ==> c[i].pid != n.pid
    ensures j <= |c| && |InsertNode(c, n)| == |c| + 1 && InsertNode(c, n)[j] == n
    ensures forall i :: 0 <= i <= |c| && i != j ==> InsertNode(c, n)[i] == c[if i < j then i else i - 1]
    ensures DistinctPids(InsertNode(c, n)) && SortedNodes(InsertNode(c, n))
  {
    j := InsertNodeSplits(c, n);
    var r := InsertNode(c, n);
    hide InsertNode;
    assert forall i :: 0 <= i <= |c| && i != j ==> r[i] == c[if i < j then i else i - 1];
    forall a, b | 0 <= a < b < |r| ensures r[a].pid != r[b].pid && r[a].prio >= r[b].prio {
      if a != j && b != j {
        assert r[a] == c[if a < j then a else a - 1] && r[b] == c[if b < j then b else b - 1];
      }
    }
  }

  lemma {:induction false} RemovePidAt(l: seq<Node>, p: int, k: nat)
    requires k < |l| && l[k].pid == p && forall j :: 0 <= j < k ==> l[j].pid != p
    ensures RemovePid(l, p) == l[..k] + l[k + 1..] && IndexOf(l, p) == k
  {
    if k > 0 {
      RemovePidAt(l[1..], p, k - 1);
      assert l[..k] == [l[0]] + l[1..][..k - 1];
      assert l[1..][k..] == l[k + 1..];
    }
  }

  lemma RemovePidSplits(l: seq<Node>, p: int, k: nat)
    requires DistinctPids(l) && k < |l| && l[k].pid == p
    ensures RemovePid(l, p) == l[..k] + l[k + 1..]
  {
    RemovePidAt(l, p, k);
  }

  lemma {:induction false} RemovePidAbsent(l: seq<Node>, p: int)
    requires forall i :: 0 <= i < |l| ==> l[i].pid != p
    ensures RemovePid(l, p) == l
  {
    if l != [] {
      RemovePidAbsent(l[1..], p);
    }
  }
}
