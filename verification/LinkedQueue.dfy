/** `shared/queue.h`: a circular doubly linked list through a head link, kept in ascending priority. */
module LinkedQueue {
  import opened Lists
  import opened KernelState
  import opened Invariant
  import opened QueueLemmas

  class Link {
    var prev: Link?
    var next: Link?
    const pid: int
    var prio: int

    constructor (pid: int, prio: int)
      ensures this.pid == pid && this.prio == prio && prev == null && next == null
    {
      this.pid := pid;
      this.prio := prio;
      prev, next := null, null;
    }
  }

  ghost predicate Unlinked(l: Link)
    reads l
  {
    l.prev == null && l.next == null
  }

  /** `k` is the place before the first element that is not below `e`. */
  ghost predicate FirstNotBelow(l: seq<Link>, e: Link, k: int)
    reads l, e
  {
    && 0 <= k <= |l| && (forall i :: 0 <= i < k ==> l[i].prio < e.prio)
    && (k < |l| ==> l[k].prio >= e.prio)
  }

  /** `l` stands before `m`: it is below, or equal and added later. */
  ghost predicate Before(added: map<Link, int>, l: Link, m: Link)
    reads l, m
  {
    l.prio < m.prio || (l.prio == m.prio && l in added && m in added && added[l] > added[m])
  }

  ghost predicate InOrder(elems: seq<Link>, added: map<Link, int>, x: Link?)
    reads elems
  {
    forall i, j :: 0 <= i < j < |elems| && elems[i] != x && elems[j] != x ==> Before(added, elems[i], elems[j])
  }

  ghost predicate Chain(r: seq<Link>)
    reads r
  {
    forall i, j :: 0 <= i < j < |r| && j == i + 1 ==> r[i].next == r[j] && r[j].prev == r[i]
  }

  class ListHead {
    const head: Link
    /** The elements, from the one after the head to the one before it. */
    ghost var elems: seq<Link>
    /** When each element was added, and the next such moment. */
    ghost var added: map<Link, int>
    ghost var clock: int

    /** The elements between two mentions of the head. */
    ghost function Ring(): seq<Link>
      reads this`elems
    {
      [head] + elems + [head]
    }

    ghost predicate Chained()
      reads this`elems, head, elems
    {
      Chain(Ring())
    }

    ghost predicate Linked()
      reads this`elems, head, elems
    {
      NoDup(elems) && head !in elems && Chained()
    }

    ghost predicate Valid()
      reads this, head, elems
    {
      Linked() && forall l :: l in elems ==> l in added && added[l] < clock
    }

    /** Ascending priority, and among equals the one added last comes first, leaving `x` aside. */
    ghost predicate OrderedBut(x: Link?)
      reads this, elems
    {
      InOrder(elems, added, x)
    }

    ghost predicate Ordered()
      reads this, elems
    {
      OrderedBut(null)
    }

    constructor ()
      ensures Valid() && Ordered() && elems == [] && fresh(head)
    {
      var h := new Link(0, 0);
      h.prev, h.next := h, h;
      head := h;
      elems := [];
      added, clock := map[], 0;
    }

    lemma LinkedInside(e: Link)
      requires Linked() && e in elems
      ensures e.prev != null && e.next != null
    {
      var i :| 0 <= i < |elems| && elems[i] == e;
      assert Ring()[i + 1] == e;
      assert Ring()[i + 1].next == Ring()[i + 2] && Ring()[i + 1].prev == Ring()[i];
    }

    lemma HeadLinked()
      requires Linked()
      ensures head.prev == (if elems == [] then head else elems[|elems| - 1])
      ensures head.next == (if elems == [] then head else elems[0])
    {
      assert Ring()[0] == head && Ring()[|elems| + 1] == head;
      assert Ring()[0].next == Ring()[1] && Ring()[|elems| + 1].prev == Ring()[|elems|];
    }

    /** The assertion on null links fails exactly when the element is queued already. */
    method Add(e: Link) returns (ok: bool, ghost k: int)
      requires Valid() && (e in elems || Unlinked(e))
      modifies this, head, elems, e
      ensures Valid() && (ok <==> e !in old(elems))
      ensures !ok ==> elems == old(elems)
      ensures ok ==> FirstNotBelow(old(elems), e, k) && elems == old(elems)[..k] + [e] + old(elems)[k..]
      ensures e.prio == old(e.prio) && forall l :: l in old(elems) ==> l.prio == old(l.prio)
      ensures if ok then added == old(added)[e := old(clock)] && clock == old(clock) + 1
              else added == old(added) && clock == old(clock)
      ensures old(Ordered()) ==> Ordered()
    {
      hide InOrder, InOrderBy, Linked, Ring, FirstNotBelow;
      ghost var was, ages, ordered, prio := elems, added, Ordered(), map l | l in elems :: l.prio;
      if ordered { OrderNow(was, prio, ages, null); }
      ok, k := LinkIn(e);
      if ok {
        assert 0 <= k <= |was| by { PlaceIn(was, e, k); }
        StampsKept(was, ages, e, k, clock);
        added, clock := added[e := clock], clock + 1;
      }
      if ordered {
        OrderStill(was, prio, ages, null);
        if ok { InsertInOrder(was, ages, e, k, old(clock)); }
      }
    }

    method LinkIn(e: Link) returns (ok: bool, ghost k: int)
      requires Linked() && (e in elems || Unlinked(e))
      modifies this`elems, head, elems, e
      ensures Linked() && NoDup(old(elems)) && (ok <==> e !in old(elems)) && (!ok ==> elems == old(elems))
      ensures ok ==> FirstNotBelow(old(elems), e, k) && elems == old(elems)[..k] + [e] + old(elems)[k..]
      ensures e.prio == old(e.prio) && forall l :: l in old(elems) ==> l.prio == old(l.prio)
    {
      hide Chain;
      k := 0;
      HeadLinked();
      if e in elems { LinkedInside(e); }
      if e.prev != null || e.next != null {
        return false, 0;
      }
      var cur;
      cur, k := PlaceFor(e);
      Insert(e, cur, k);
      ok := true;
    }

    /** The walk of `queue_add` from the head on. */
    method PlaceFor(e: Link) returns (cur: Link, ghost k: int)
      requires Linked()
      ensures FirstNotBelow(elems, e, k) && cur == Ring()[k + 1]
    {
      HeadLinked();
      k := 0;
      cur := head.next;
      while cur != head && cur.prio < e.prio
        invariant 0 <= k <= |elems| && cur == Ring()[k + 1]
        invariant forall i :: 0 <= i < k ==> elems[i].prio < e.prio
        decreases |elems| - k
      {
        assert Ring()[k + 1].next == Ring()[k + 2];
        cur := cur.next;
        k := k + 1;
      }
    }

    /** The four assignments that link `e` in before `cur`. */
    method Insert(e: Link, cur: Link, ghost k: int)
      requires Linked() && Unlinked(e) && e !in elems && e != head
      requires 0 <= k <= |elems| && cur == Ring()[k + 1]
      modifies this`elems, head, elems, e
      ensures Linked() && elems == old(elems)[..k] + [e] + old(elems)[k..]
      ensures e.prio == old(e.prio) && forall l :: l in old(elems) ==> l.prio == old(l.prio)
    {
      ghost var r, was := Ring(), elems;
      InsideDistinct(elems, head, r);
      InsertNoDup(elems, e, k);
      Outside(elems, head, r, e);
      var before := cur.prev;
      assert before == r[k];
      e.next := cur;
      e.prev := before;
      before.next := e;
      cur.prev := e;
      ChainInserted(r, e, k);
      elems := was[..k] + [e] + was[k..];
      assert Ring() == r[..k + 1] + [e] + r[k + 1..];
    }

    /** Takes out the element before the head, or gives null when there is none. */
    method Out() returns (e: Link?)
      requires Valid()
      modifies this, head, elems
      ensures Valid()
      ensures old(elems) == [] ==> e == null && elems == []
      ensures old(elems) != [] ==>
                e == old(elems)[|old(elems)| - 1] && elems == old(elems)[..|old(elems)| - 1] && Unlinked(e)
      ensures forall l :: l in old(elems) ==> l.prio == old(l.prio)
      ensures added == old(added) && clock == old(clock)
      ensures old(Ordered()) ==> Ordered() && (e != null ==> forall l :: l in elems ==> Before(added, l, e))
    {
      hide Chain, InOrder, InOrderBy;
      ghost var was, ordered, prio := elems, Ordered(), map l | l in elems :: l.prio;
      if ordered { OrderNow(was, prio, added, null); }
      HeadLinked();
      if head.next == head {
        assert elems == [];
        return null;
      }
      e := head.prev;
      assert e == Ring()[|elems|] && e in elems;
      CutOut(e, |elems| - 1);
      assert elems == was[..|was| - 1] && was == elems + [e];
      if ordered {
        OrderStill(was, prio, added, null);
        OutInOrder(elems, e, added);
      }
    }

    /** The assertion on null links fails exactly when the element is not queued. Its priority may have
        changed since it was added. */
    method Del(e: Link) returns (ok: bool)
      requires Valid() && (e in elems || Unlinked(e))
      modifies this, head, elems
      ensures Valid() && (ok <==> e in old(elems))
      ensures elems == Remove(old(elems), e) && (ok ==> Unlinked(e))
      ensures forall l :: l in old(elems) ==> l.prio == old(l.prio)
      ensures added == old(added) && clock == old(clock)
      ensures old(OrderedBut(e)) ==> Ordered()
    {
      hide InOrder, InOrderBy, Chain;
      ghost var was, ordered, prio := elems, OrderedBut(e), map l | l in elems :: l.prio;
      if ordered { OrderNow(was, prio, added, e); }
      if e in elems { LinkedInside(e); }
      if e.prev == null || e.next == null {
        RemoveAbsent(elems, e);
        if ordered { AbsentInOrder(was, added, e); }
        return false;
      }
      ghost var k :| 0 <= k < |elems| && elems[k] == e;
      RemoveSplits(elems, k);
      CutOut(e, k);
      ok := true;
      if ordered {
        OrderStill(was, prio, added, e);
        CutInOrder(was, added, k);
      }
    }

    method CutOut(e: Link, ghost k: int)
      requires Linked() && 0 <= k < |elems| && elems[k] == e
      modifies this`elems, head, elems
      ensures Linked() && elems == old(elems)[..k] + old(elems)[k + 1..] && Unlinked(e)
      ensures forall l :: l in old(elems) ==> l.prio == old(l.prio)
    {
      ghost var r, was := Ring(), elems;
      InsideDistinct(elems, head, r);
      assert r[k + 1] == e;
      var before, after := e.prev, e.next;
      assert before == r[k] && after == r[k + 2];
      before.next := after;
      after.prev := before;
      e.next := null;
      e.prev := null;
      ChainCut(r, k);
      elems := was[..k] + was[k + 1..];
      assert Ring() == r[..k + 1] + r[k + 2..];
    }

    /** Reads the element before the head. */
    method Top() returns (e: Link?)
      requires Valid()
      ensures e == if elems == [] then null else elems[|elems| - 1]
    {
      HeadLinked();
      if head.next == head {
        return null;
      }
      e := head.prev;
    }
  }

  /** The ring repeats nothing but the head at its two ends. */
  lemma InsideDistinct(elems: seq<Link>, head: Link, r: seq<Link>)
    requires NoDup(elems) && head !in elems && r == [head] + elems + [head]
    ensures forall i, j :: 0 <= i < j < |r| && !(i == 0 && j == |r| - 1) ==> r[i] != r[j]
  {
    forall i, j | 0 <= i < j < |r| && !(i == 0 && j == |r| - 1) ensures r[i] != r[j] {
      if 0 < i { assert r[i] == elems[i - 1] && r[i] in elems; }
      if j < |r| - 1 { assert r[j] == elems[j - 1] && r[j] in elems; }
    }
  }

  lemma Outside(elems: seq<Link>, head: Link, r: seq<Link>, e: Link)
    requires e !in elems && e != head && r == [head] + elems + [head]
    ensures e !in r
  {}

  lemma ChainInserted(r: seq<Link>, e: Link, k: int)
    requires 0 <= k < |r| - 1
    requires forall i, j :: 0 <= i < j < |r| && j == i + 1 && i != k ==> r[i].next == r[j] && r[j].prev == r[i]
    requires r[k].next == e && e.prev == r[k] && e.next == r[k + 1] && r[k + 1].prev == e
    ensures Chain(r[..k + 1] + [e] + r[k + 1..])
  {
    var r' := r[..k + 1] + [e] + r[k + 1..];
    forall i, j | 0 <= i < j < |r'| && j == i + 1 ensures r'[i].next == r'[j] && r'[j].prev == r'[i] {
      if i < k {
        assert r[i].next == r[j];
      } else if i > k + 1 {
        assert r[i - 1].next == r[j - 1];
      }
    }
  }

  lemma ChainCut(r: seq<Link>, k: int)
    requires 0 <= k < |r| - 2
    requires forall i, j :: 0 <= i < j < |r| && j == i + 1 && i != k && i != k + 1 ==>
                              r[i].next == r[j] && r[j].prev == r[i]
    requires r[k].next == r[k + 2] && r[k + 2].prev == r[k]
    ensures Chain(r[..k + 1] + r[k + 2..])
  {
    var r' := r[..k + 1] + r[k + 2..];
    forall i, j | 0 <= i < j < |r'| && j == i + 1 ensures r'[i].next == r'[j] && r'[j].prev == r'[i] {
      if i < k {
        assert r[i].next == r[j];
      } else if i > k {
        assert r[i + 1].next == r[j + 1];
      }
    }
  }

  lemma InsertNoDup(elems: seq<Link>, e: Link, k: int)
    requires NoDup(elems) && e !in elems && 0 <= k <= |elems|
    ensures NoDup(elems[..k] + [e] + elems[k..])
  {
    var r := elems[..k] + [e] + elems[k..];
    assert forall i :: 0 <= i < |r| ==> r[i] == if i < k then elems[i] else if i == k then e else elems[i - 1];
  }

  // ----- order -----

  /** The same with the priorities of one moment, as relinking changes none. */
  ghost predicate InOrderBy(l: seq<Link>, prio: map<Link, int>, added: map<Link, int>, x: Link?) {
    && (forall e :: e in l ==> e in prio)
    && forall i, j :: 0 <= i < j < |l| && l[i] != x && l[j] != x ==>
                        prio[l[i]] < prio[l[j]]
                        || (prio[l[i]] == prio[l[j]] && l[i] in added && l[j] in added && added[l[i]] > added[l[j]])
  }

  lemma OrderNow(l: seq<Link>, prio: map<Link, int>, added: map<Link, int>, x: Link?)
    requires InOrder(l, added, x) && forall e :: e in l ==> e in prio && prio[e] == e.prio
    ensures InOrderBy(l, prio, added, x)
  {
    forall i, j | 0 <= i < j < |l| && l[i] != x && l[j] != x
      ensures prio[l[i]] < prio[l[j]]
              || (prio[l[i]] == prio[l[j]] && l[i] in added && l[j] in added && added[l[i]] > added[l[j]])
    {
      assert l[i] in l && l[j] in l && Before(added, l[i], l[j]);
    }
  }

  lemma OrderStill(l: seq<Link>, prio: map<Link, int>, added: map<Link, int>, x: Link?)
    requires InOrderBy(l, prio, added, x) && forall e :: e in l ==> e in prio && prio[e] == e.prio
    ensures InOrder(l, added, x)
  {
    forall i, j | 0 <= i < j < |l| && l[i] != x && l[j] != x ensures Before(added, l[i], l[j]) {
      assert l[i] in l && l[j] in l;
    }
  }

  lemma AbsentInOrder(l: seq<Link>, added: map<Link, int>, x: Link)
    requires InOrder(l, added, x) && x !in l
    ensures InOrder(l, added, null)
  {
    forall i, j | 0 <= i < j < |l| ensures Before(added, l[i], l[j]) {
      assert l[i] in l && l[j] in l;
    }
  }

  lemma PlaceIn(l: seq<Link>, e: Link, k: int)
    requires FirstNotBelow(l, e, k)
    ensures 0 <= k <= |l|
  {}

  lemma StampsKept(l: seq<Link>, added: map<Link, int>, e: Link, k: int, now: int)
    requires 0 <= k <= |l| && forall x :: x in l ==> x in added && added[x] < now
    ensures var ages := added[e := now]; forall x :: x in l[..k] + [e] + l[k..] ==> x in ages && ages[x] < now + 1
  {}

  lemma InsertInOrder(l: seq<Link>, added: map<Link, int>, e: Link, k: int, now: int)
    requires InOrder(l, added, null) && NoDup(l) && e !in l && FirstNotBelow(l, e, k)
    requires forall x :: x in l ==> x in added && added[x] < now
    ensures InOrder(l[..k] + [e] + l[k..], added[e := now], null)
  {
    var r, ages := l[..k] + [e] + l[k..], added[e := now];
    forall i, j | 0 <= i < j < |r| ensures Before(ages, r[i], r[j]) {
      var i', j' := if i > k then i - 1 else i, if j > k then j - 1 else j;
      if i != k && j != k {
        assert r[i] == l[i'] && r[j] == l[j'] && Before(added, l[i'], l[j']);
      } else if i == k {
        assert r[j] == l[j'] && l[j'] in l;
        assert j' == k || Before(added, l[k], l[j']);
      } else {
        assert r[i] == l[i'];
      }
    }
  }

  lemma CutInOrder(l: seq<Link>, added: map<Link, int>, k: int)
    requires 0 <= k < |l| && NoDup(l) && InOrder(l, added, l[k])
    ensures InOrder(l[..k] + l[k + 1..], added, null)
  {
    var r := l[..k] + l[k + 1..];
    forall i, j | 0 <= i < j < |r| ensures Before(added, r[i], r[j]) {
      var i', j' := if i < k then i else i + 1, if j < k then j else j + 1;
      assert r[i] == l[i'] && r[j] == l[j'];
      assert l[i'] != l[k] && l[j'] != l[k];
    }
  }

  lemma OutInOrder(rest: seq<Link>, e: Link, added: map<Link, int>)
    requires InOrder(rest + [e], added, null)
    ensures InOrder(rest, added, null) && forall x :: x in rest ==> Before(added, x, e)
  {
    var l := rest + [e];
    forall i, j | 0 <= i < j < |rest| ensures Before(added, rest[i], rest[j]) {
      assert l[i] == rest[i] && l[j] == rest[j];
    }
    forall x | x in rest ensures Before(added, x, e) {
      var i :| 0 <= i < |rest| && rest[i] == x;
      assert l[i] == x && l[|rest|] == e;
    }
  }

  // ----- the pids of the kernel's ready queue -----

  function Pids(l: seq<Link>): (r: seq<int>)
    ensures |r| == |l| && forall i :: 0 <= i < |l| ==> r[i] == l[i].pid
  {
    seq(|l|, i requires 0 <= i < |l| => l[i].pid)
  }

  /** Where the linked list puts an element is where the ready queue of the kernel puts its pid. */
  lemma AddRefinesInsertReady(procs: Table, l: seq<Link>, e: Link, k: nat)
    requires FirstNotBelow(l, e, k) && forall x :: x in l || x == e ==> Prio(procs, x.pid) == x.prio
    ensures Pids(l[..k] + [e] + l[k..]) == InsertReady(procs, Pids(l), e.pid)
  {
    hide InsertReady;
    forall i | 0 <= i < |l| ensures Prio(procs, Pids(l)[i]) == l[i].prio {
      assert l[i] in l;
    }
    InsertAt(procs, Pids(l), e.pid, k);
  }

  /** An element that leaves the list takes its pid out of the ready queue. */
  lemma DelRefinesRemove(l: seq<Link>, e: Link)
    requires NoDup(l) && NoDup(Pids(l)) && (e in l || e.pid !in Pids(l))
    ensures Pids(Remove(l, e)) == Remove(Pids(l), e.pid)
  {
    hide Remove;
    if e in l {
      var k :| 0 <= k < |l| && l[k] == e;
      RemoveSplits(l, k);
      RemoveSplits(Pids(l), k);
    } else {
      RemoveAbsent(l, e);
      RemoveAbsent(Pids(l), e.pid);
    }
  }

  /** The last element holds the last pid. */
  lemma OutRefinesTop(l: seq<Link>)
    requires l != []
    ensures Pids(l)[|l| - 1] == l[|l| - 1].pid && Pids(l[..|l| - 1]) == Pids(l)[..|l| - 1]
  {
    var n := |l| - 1;
    assert Pids(l[..n]) == Pids(l)[..n];
  }
}
