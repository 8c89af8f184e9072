/** The kernel's ready queue as the C code holds it: the links inside the slots of the process table. */
module ReadyQueue {
  import opened Lists
  import opened KernelState
  import opened Invariant
  import opened LinkedQueue

  /** Each link belongs to the slot of its pid. */
  ghost predicate Home(links: map<int, Link>, elems: seq<Link>) {
    && (forall p :: p in links ==> links[p].pid == p)
    && (forall l :: l in elems ==> l.pid in links && links[l.pid] == l)
  }

  lemma SlotQueued(links: map<int, Link>, elems: seq<Link>, p: int)
    requires Home(links, elems)
    ensures p in Pids(elems) <==> p in links && links[p] in elems
  {
    if p in Pids(elems) {
      var i :| 0 <= i < |elems| && Pids(elems)[i] == p;
      assert elems[i] in elems;
    }
    if p in links && links[p] in elems {
      var i :| 0 <= i < |elems| && elems[i] == links[p];
      assert Pids(elems)[i] == p;
    }
  }

  lemma SlotsDistinct(links: map<int, Link>, elems: seq<Link>)
    requires Home(links, elems) && NoDup(elems)
    ensures NoDup(Pids(elems))
  {
    forall i, j | 0 <= i < j < |elems| ensures Pids(elems)[i] != Pids(elems)[j] {
      assert elems[i] in elems && elems[j] in elems;
    }
  }

  /** The order of the links is the order the scheduler relies on. */
  lemma OrderedIsSorted(q: Ready, s: Sys)
    requires q.Represents(s) && q.list.Ordered()
    ensures SortedReady(s.procs, s.ready) && NoDup(s.ready)
  {
    var l := q.list.elems;
    SlotsDistinct(q.links, l);
    forall i, j | 0 <= i < j < |s.ready| ensures Prio(s.procs, s.ready[i]) <= Prio(s.procs, s.ready[j]) {
      assert l[i] in l && l[j] in l && Before(q.list.added, l[i], l[j]);
    }
  }

  lemma Inserted(l: seq<Link>, e: Link, k: int)
    requires FirstNotBelow(l, e, k)
    ensures 0 <= k <= |l| && forall x :: x in l[..k] + [e] + l[k..] <==> x == e || x in l
  {}

  lemma WithoutLast(l: seq<Link>, rest: seq<Link>, e: Link)
    requires l != [] && e == l[|l| - 1] && rest == l[..|l| - 1]
    ensures e in l && forall x :: x in l <==> x == e || x in rest
  {
    assert l == rest + [e];
  }

  class Ready {
    const list: ListHead
    /** The link and priority fields of the slots. */
    var links: map<int, Link>

    /** A link outside the list has null ends. */
    ghost predicate Loose()
      reads this, list, links.Values
    {
      forall p :: p in links ==> links[p] in list.elems || Unlinked(links[p])
    }

    ghost predicate Prios(procs: Table)
      reads this, links.Values
    {
      forall p :: p in procs ==> p in links && links[p].prio == procs[p].prio
    }

    /** Slot `p` holds the priority of process `p`, and the pids along the list are the ready queue. */
    ghost predicate Represents(s: Sys)
      reads this, list, list.head, list.elems, links.Values
    {
      && list.Valid() && list.head !in links.Values && Home(links, list.elems) && Loose()
      && Prios(s.procs) && (forall l :: l in list.elems ==> l.pid in s.procs) && Pids(list.elems) == s.ready
    }

    constructor (ghost s: Sys)
      requires s.procs == map[] && s.ready == []
      ensures Represents(s) && list.Ordered()
    {
      list := new ListHead();
      links := map[];
    }

    /** `start` fills slot `p`, whose links are null. */
    method FillSlot(p: int, proc: Proc, ghost s: Sys)
      requires Represents(s) && p !in s.procs && p !in s.ready
      modifies this
      ensures Represents(s.(procs := s.procs[p := proc])) && (old(list.Ordered()) ==> list.Ordered())
    {
      hide Chain, InOrder, NoDup;
      SlotQueued(links, list.elems, p);
      ghost var was := links;
      var slot := new Link(p, proc.prio);
      links := links[p := slot];
      assert forall l :: l in links.Values ==> l == slot || l in was.Values;
    }

    /** `queue_add`; the priorities decide the place as they do in `InsertReady`. */
    method QueueAdd(p: int, ghost s: Sys) returns (ok: bool)
      requires Represents(s) && p in s.procs
      modifies list, list.head, list.elems, links[p]
      ensures ok <==> Enqueue(s, p).Ok?
      ensures Represents(if ok then Enqueue(s, p).value else s)
      ensures old(list.Ordered()) ==> list.Ordered()
    {
      hide InsertReady, InOrder, ListHead.Linked;
      ghost var l := list.elems;
      var e := links[p];
      SlotQueued(links, l, p);
      ghost var k;
      ok, k := list.Add(e);
      if ok {
        Inserted(l, e, k);
        AddRefinesInsertReady(s.procs, l, e, k);
      }
    }

    /** `queue_del`, also of a process whose priority has just changed. */
    method QueueDel(p: int, ghost s: Sys) returns (ok: bool)
      requires Represents(s) && p in s.procs
      modifies list, list.head, list.elems
      ensures ok <==> Unlink(s, p).Ok?
      ensures Represents(if ok then Unlink(s, p).value else s) && (forall l :: l in list.elems ==> l in old(list.elems))
      ensures old(list.OrderedBut(links[p])) ==> list.Ordered()
    {
      hide InOrder, Remove, NoDup, Chain;
      ghost var l := list.elems;
      var e := links[p];
      SlotQueued(links, l, p);
      SlotsDistinct(links, l);
      DelRefinesRemove(l, e);
      RemoveNoDup(l, e);
      RemoveAbsentWhen(s.ready, p);
      ok := list.Del(e);
    }

    lemma RemoveAbsentWhen(l: seq<int>, p: int)
      ensures p !in l ==> Remove(l, p) == l
    {
      if p !in l { RemoveAbsent(l, p); }
    }

    /** `queue_out`: the last pid of the ready queue, at the highest priority and oldest there. */
    method QueueOut(ghost s: Sys) returns (p: int)
      requires Represents(s)
      modifies list, list.head, list.elems
      ensures s.ready == [] ==> Represents(s)
      ensures s.ready != [] ==> p == s.ready[|s.ready| - 1] && Represents(s.(ready := s.ready[..|s.ready| - 1]))
      ensures old(list.Ordered()) ==> list.Ordered()
      ensures s.ready != [] && old(list.Ordered()) ==>
                p in links && forall l :: l in list.elems ==> Before(list.added, l, links[p])
    {
      hide InOrder, Before, ListHead.Linked;
      ghost var l := list.elems;
      var e := list.Out();
      p := 0;
      if e != null {
        OutRefinesTop(l);
        WithoutLast(l, list.elems, e);
        p := e.pid;
      }
    }

    /** The assignment to the priority field in `chprio`: only its own place may now be wrong. */
    method SetPriority(p: int, prio: int, ghost s: Sys)
      requires Represents(s) && p in s.procs
      modifies links[p]
      ensures Represents(s.(procs := s.procs[p := s.procs[p].(prio := prio)]))
      ensures old(list.Ordered()) ==> list.OrderedBut(links[p])
    {
      links[p].prio := prio;
    }

    /** `chprio` of a waiting process: out and in again at the new priority. */
    method Requeue(p: int, prio: int, ghost s: Sys) returns (ok: bool)
      requires Represents(s) && p in s.procs && p in s.ready && list.Ordered()
      modifies list, list.head, list.elems, links[p]
      ensures var procs := s.procs[p := s.procs[p].(prio := prio)];
              ok && Represents(s.(procs := procs, ready := InsertReady(procs, Remove(s.ready, p), p))) && list.Ordered()
    {
      hide InsertReady, Represents, InOrder, Remove;
      ghost var t := s.(procs := s.procs[p := s.procs[p].(prio := prio)]);
      ReadyDistinct(this, s, p);
      ghost var l := list.elems;
      SetPriority(p, prio, s);
      assert list.elems == l;
      ok := QueueDel(p, t);
      assert forall i :: 0 <= i < |list.elems| ==> list.elems[i] in l;
      ghost var u := t.(ready := Remove(t.ready, p));
      ok := QueueAdd(p, u);
    }
  }

  lemma ReadyDistinct(q: Ready, s: Sys, p: int)
    requires q.Represents(s) && p in s.procs
    ensures p !in Remove(s.ready, p) && p in q.links
  {
    SlotsDistinct(q.links, q.list.elems);
    RemoveNoDup(s.ready, p);
  }
}
