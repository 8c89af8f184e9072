/** `zombify` keeps every part of the invariant. */
module ZombifyInv {
  import opened Lists
  import opened KernelState
  import opened Scheduler
  import opened Invariant
  import opened QueueLemmas
  import opened ReleaseLemmas
  import opened ZombifyLemmas

  lemma KeepsReady(procs: Table, procs': Table, p: int, ready: seq<int>, ready': seq<int>)
    requires ReadyOk(procs, ready) && Zombified(procs, procs', p)
    requires ready' == if Wakes(procs, p) then InsertReady(procs', ready, procs[p].father) else ready
    ensures ReadyOk(procs', ready')
  {
    assert forall q :: Prio(procs', q) == Prio(procs, q);
    assert SortedReady(procs', ready);
    if Wakes(procs, p) {
      InsertReadyOk(procs', ready, procs[p].father);
    }
  }

  lemma KeepsSleep(procs: Table, procs': Table, p: int, sleepers: seq<int>)
    requires SleepOk(procs, sleepers) && Zombified(procs, procs', p)
    ensures SleepOk(procs', sleepers)
  {}

  lemma KeepsStates(procs: Table, procs': Table, p: int, running: int)
    requires StatesOk(procs, running) && Zombified(procs, procs', p) && INIT !in procs[p].children
    ensures StatesOk(procs', running)
  {}

  lemma KeepsQueues(procs: Table, procs': Table, p: int, queues: map<int, Queue>)
    requires QueuesOk(procs, queues) && Zombified(procs, procs', p)
    ensures QueuesOk(procs', queues)
  {
    forall f | f in queues ensures QueueOk(procs', f, queues[f]) {
      assert QueueOk(procs, f, queues[f]);
      forall i | 0 <= i < |queues[f].locked| ensures NodeOk(procs', f, queues[f].locked[i]) {
        assert NodeOk(procs, f, queues[f].locked[i]);
      }
    }
  }

  lemma KeepsTree(procs: Table, procs': Table, p: int)
    requires TreeOk(procs) && Zombified(procs, procs', p) && p != INIT
    ensures TreeOk(procs')
  {
    KeepsDistinct(procs, procs', p);
    KeepsChildLinks(procs, procs', p);
    KeepsFatherLinks(procs, procs', p);
  }

  lemma KeepsDistinct(procs: Table, procs': Table, p: int)
    requires DistinctChildren(procs) && Zombified(procs, procs', p)
    ensures DistinctChildren(procs')
  {}

  lemma KeepsChildLinks(procs: Table, procs': Table, p: int)
    requires ChildLinks(procs) && Zombified(procs, procs', p) && p != INIT
    ensures ChildLinks(procs')
  {
    forall q, c | q in procs' && c in procs'[q].children
      ensures c in procs' && procs'[c].father == q && c != INIT
    {
      if c in procs[q].children {
        assert procs[c].father == q;
      } else {
        assert c in procs[p].children;
      }
    }
  }

  lemma KeepsFatherLinks(procs: Table, procs': Table, p: int)
    requires FatherLinks(procs) && ChildLinks(procs) && Zombified(procs, procs', p) && p != INIT
    ensures FatherLinks(procs')
  {
    forall c | c in procs' && c != INIT
      ensures procs'[c].father in procs' && c in procs'[procs'[c].father].children
    {
      var f := procs[c].father;
      assert c in procs[f].children;
    }
  }

  /** Orphans go up to pid 1. */
  lemma KeepsAllRooted(procs: Table, procs': Table, p: int)
    requires AllRooted(procs) && Zombified(procs, procs', p)
    ensures AllRooted(procs')
  {
    var depth: map<int, nat> :| Ranked(procs, depth);
    forall q | q in procs' && q != INIT ensures Depth(depth, procs'[q].father) < Depth(depth, q) {
      var a, b := procs[q], procs'[q];
      assert b.father == a.father || b.father == INIT;
    }
    assert Ranked(procs', depth);
  }

  /** `rest` is the pending list without `p`. */
  ghost predicate Popped(pending: seq<int>, p: int, rest: seq<int>) {
    && NoDup(rest) && p in pending
    && (forall q :: q in rest <==> q in pending && q != p)
  }

  lemma KeepsPending(procs: Table, procs': Table, p: int, pending: seq<int>, rest: seq<int>)
    requires PendingOk(procs, pending) && Zombified(procs, procs', p) && Popped(pending, p, rest)
    ensures PendingOk(procs', rest)
  {}

  lemma KeepsSealed(procs: Table, procs': Table, p: int, toDestroy: seq<int>, toDestroy': seq<int>)
    requires SealedOk(procs, toDestroy) && Zombified(procs, procs', p) && TreeOk(procs)
    requires Zombifiable(procs, p) && p !in procs[p].children
    requires toDestroy' == toDestroy + Corpses(procs, procs[p].children) + (if Seals(procs, p) then [p] else [])
    ensures SealedOk(procs', toDestroy')
  {
    hide Zombifiable, TreeOk;
    SealedList(procs, p, toDestroy, toDestroy');
  }

  /** Who is on the list of the sealed afterwards. */
  lemma SealedList(procs: Table, p: int, toDestroy: seq<int>, toDestroy': seq<int>)
    requires SealedOk(procs, toDestroy) && TreeOk(procs) && Zombifiable(procs, p) && p !in procs[p].children
    requires toDestroy' == toDestroy + Corpses(procs, procs[p].children) + (if Seals(procs, p) then [p] else [])
    ensures NoDup(toDestroy')
    ensures forall q :: q in toDestroy' <==>
                        q in toDestroy || (q in procs && Corpse(procs, p, q)) || (q == p && Seals(procs, p))
  {
    hide FatherLinks, NoDup;
    var cs := procs[p].children;
    assert NoDup(cs);
    CorpsesOk(procs, cs);
    ConcatNoDup(toDestroy, Corpses(procs, cs));
    ConcatNoDup(toDestroy + Corpses(procs, cs), if Seals(procs, p) then [p] else []) by { ShortNoDup(p); }
  }

  lemma ShortNoDup(p: int)
    ensures NoDup([p]) && NoDup<int>([])
  {}

  lemma KeepsUncollected(procs: Table, procs': Table, p: int)
    requires UncollectedOk(procs) && Zombified(procs, procs', p) && TreeOk(procs)
    requires Zombifiable(procs, p) && p !in procs[p].children && procs[p].father != p
    requires procs[INIT].state != Zombie && procs[p].state == Zombie
    ensures UncollectedOk(procs')
  {
    assert forall q :: q in procs' && (procs'[q].deallocated || procs'[q].sealed) ==> procs'[q].state == Zombie;
    forall q | q in procs' && procs'[q].deallocated && !procs'[q].sealed
      ensures procs'[q].father != INIT && procs'[q].father in procs' && !procs'[procs'[q].father].deallocated
    {
      UncollectedFather(procs, procs', p, q);
    }
    forall q, c | q in procs' && procs'[q].deallocated && c in procs'[q].children && c in procs'
      ensures procs'[c].sealed
    {
      UncollectedChild(procs, procs', p, q, c);
    }
  }

  lemma UncollectedFather(procs: Table, procs': Table, p: int, q: int)
    requires UncollectedOk(procs) && Zombified(procs, procs', p) && TreeOk(procs)
    requires Zombifiable(procs, p) && p !in procs[p].children && procs[p].father != p
    requires procs[INIT].state != Zombie && procs[p].state == Zombie
    requires q in procs' && procs'[q].deallocated && !procs'[q].sealed
    ensures procs'[q].father != INIT && procs'[q].father in procs' && !procs'[procs'[q].father].deallocated
  {
    if q != p {
      assert procs[q].deallocated && !procs[q].sealed;
      assert !Corpse(procs, p, q);
      assert procs[q].father != p;
    }
  }

  lemma UncollectedChild(procs: Table, procs': Table, p: int, q: int, c: int)
    requires UncollectedOk(procs) && Zombified(procs, procs', p) && procs[INIT].state != Zombie
    requires q in procs' && procs'[q].deallocated && c in procs'[q].children && c in procs'
    ensures procs'[c].sealed
  {
    if q == p {
      assert Corpse(procs, p, c);
    } else {
      assert procs[q].deallocated && q != INIT;
      assert c in procs[q].children;
    }
  }

  /** Nobody in the list is a child of a corpse or, once its orphans are gone, of `p`. */
  lemma KeepsChildrenLast(procs: Table, procs': Table, p: int, toDestroy: seq<int>, toDestroy': seq<int>)
    requires ChildrenLast(procs, toDestroy) && Zombified(procs, procs', p) && TreeOk(procs)
    requires Zombifiable(procs, p) && p !in procs[p].children
    requires forall q :: q in toDestroy ==> q in procs && q != INIT
    requires toDestroy' == toDestroy + Corpses(procs, procs[p].children) + (if Seals(procs, p) then [p] else [])
    requires INIT !in toDestroy'
    ensures ChildrenLast(procs', toDestroy')
  {
    var cs := procs[p].children;
    CorpsesOk(procs, cs);
    var k := |toDestroy|;
    forall i, j | 0 <= i < j < |toDestroy'| && toDestroy'[i] in procs'
      ensures procs'[toDestroy'[i]].father != toDestroy'[j]
    {
      var a, b := toDestroy'[i], toDestroy'[j];
      assert b in toDestroy' && b != INIT;
      assert a in toDestroy' && a != INIT;
      if j < k {
        assert a == toDestroy[i] && b == toDestroy[j];
        assert procs[a].father != b;
      } else if j < k + |Corpses(procs, cs)| {
        assert b == Corpses(procs, cs)[j - k] && b in Corpses(procs, cs);
        assert procs[b].children == [];
        assert a !in procs[b].children;
      } else {
        assert b == p && Seals(procs, p);
        assert procs[a].father == p ==> a in cs && Orphan(procs, p, a);
      }
    }
  }

  lemma KeepsWaits(procs: Table, procs': Table, p: int)
    requires WaitsOk(procs) && Zombified(procs, procs', p) && TreeOk(procs)
    requires Zombifiable(procs, p) && p !in procs[p].children && procs[p].father != p
    requires procs[p].state == Zombie && procs[INIT].cont == Idle && !procs[p].deallocated
    requires procs[INIT].state in {Running, Waiting}
    ensures WaitsOk(procs')
  {
    forall f | f in procs' ensures WaitOk(procs', f) {
      KeepsWait(procs, procs', p, f);
    }
  }

  lemma KeepsWait(procs: Table, procs': Table, p: int, f: int)
    requires WaitsOk(procs) && Zombified(procs, procs', p) && TreeOk(procs)
    requires Zombifiable(procs, p) && p !in procs[p].children && procs[p].father != p
    requires procs[p].state == Zombie && procs[INIT].cont == Idle && !procs[p].deallocated
    requires procs[INIT].state in {Running, Waiting}
    requires f in procs
    ensures WaitOk(procs', f)
  {
    var a, b := procs[f], procs'[f];
    assert WaitOk(procs, f);
    if f == INIT || f == p {
    } else if f == procs[p].father && Wakes(procs, p) {
      assert Collectable(procs', f, p);
    } else {
      assert b.children == a.children;
      if a.state == BlockedByChild {
        if a.cont.target >= 0 {
          var t := a.cont.target;
          assert Awaited(procs, f, t);
          assert procs[t].father == f;
          assert Awaited(procs', f, t);
        } else {
          var t :| Awaited(procs, f, t);
          assert procs[t].father == f;
          assert Awaited(procs', f, t);
          forall c | c in b.children && c in procs' && !procs'[c].sealed
            ensures !procs'[c].deallocated
          {
            assert procs[c].father == f;
          }
        }
      } else if a.state in {Waiting, Running} && a.cont.InWait? {
        assert Collectable(procs, f, a.waitingCode);
        assert procs[a.waitingCode].father == f;
        assert Collectable(procs', f, a.waitingCode);
      }
    }
  }

  lemma ZombifyKeepsCore(s: Sys, p: int, rest: seq<int>)
    requires Core(s) && Popped(s.toZombify, p, rest) && p != s.running && Zombifiable(s.procs, p)
    ensures var r := Zombify(s.(toZombify := rest), p);
            && r.Ok? && Core(r.value) && Zombified(s.procs, r.value.procs, p)
            && r.value == s.(procs := r.value.procs, ready := r.value.ready, toDestroy := r.value.toDestroy,
                          toZombify := rest)
  {
    var s0 := s.(toZombify := rest);
    ZombifyEffect(s0, p);
    OutsideFamily(s.procs, p);
    var t := Zombify(s0, p).value;
    KeepsReady(s.procs, t.procs, p, s.ready, t.ready);
    KeepsSleep(s.procs, t.procs, p, s.sleepers);
    KeepsStates(s.procs, t.procs, p, s.running);
    KeepsQueues(s.procs, t.procs, p, s.queues);
    KeepsTree(s.procs, t.procs, p);
    KeepsAllRooted(s.procs, t.procs, p);
    KeepsPending(s.procs, t.procs, p, s.toZombify, rest);
    KeepsSealed(s.procs, t.procs, p, s.toDestroy, t.toDestroy);
    KeepsUncollected(s.procs, t.procs, p);
    KeepsChildrenLast(s.procs, t.procs, p, s.toDestroy, t.toDestroy);
    KeepsWaits(s.procs, t.procs, p);
  }
}
