/** `destroy` frees the last sealed process: it has no child left, so its loop is not entered. */
module DestroyLemmas {
  import opened Lists
  import opened Outcomes
  import opened KernelState
  import opened Scheduler
  import opened Invariant
  import opened ZombifyLemmas

  ghost predicate Destroyed(procs: Table, procs': Table, p: int) {
    && p in procs && procs[p].father in procs && p != procs[p].father
    && procs'.Keys == procs.Keys - {p}
    && (forall q :: q in procs' ==>
                      var a, b := procs[q], procs'[q];
                      && b.father == a.father && b.state == a.state && b.prio == a.prio && b.cont == a.cont
                      && b.returnCode == a.returnCode && b.waitingCode == a.waitingCode && b.sleepTime == a.sleepTime
                      && b.deallocated == a.deallocated && b.sealed == a.sealed && NoDup(b.children))
    && (forall q, c :: q in procs' ==> (c in procs'[q].children <==> c in procs[q].children && c != p))
  }

  lemma NoChildLeft(procs: Table, toDestroy: seq<int>, p: int)
    requires ChildLinks(procs) && UncollectedOk(procs) && SealedOk(procs, toDestroy) && ChildrenLast(procs, toDestroy)
    requires toDestroy != [] && p == toDestroy[|toDestroy| - 1] && p in procs && procs[p].deallocated
    requires procs[p].father != p
    ensures procs[p].children == []
  {
    hide UncollectedOk, SealedOk, ChildrenLast, ChildLinks, FatherLinks, DistinctChildren;
    ChildrenInTable(procs, p);
    forall c | c in procs ensures c !in procs[p].children {
      NotChild(procs, toDestroy, p, c);
    }
    MemberIfNonEmpty(procs[p].children);
  }

  lemma ChildrenInTable(procs: Table, p: int)
    requires ChildLinks(procs) && p in procs
    ensures forall c :: c in procs[p].children ==> c in procs
  {}

  lemma NotChild(procs: Table, toDestroy: seq<int>, p: int, c: int)
    requires ChildLinks(procs) && UncollectedOk(procs) && SealedOk(procs, toDestroy) && ChildrenLast(procs, toDestroy)
    requires toDestroy != [] && p == toDestroy[|toDestroy| - 1] && p in procs && procs[p].deallocated
    requires procs[p].father != p && c in procs
    ensures c !in procs[p].children
  {
    if procs[c].sealed && c != p {
      assert c in toDestroy;
      var i :| 0 <= i < |toDestroy| && toDestroy[i] == c;
    }
  }

  lemma DestroyedShape(procs: Table, procs': Table, p: int)
    requires TreeOk(procs) && p in procs && procs[p].father in procs && p != procs[p].father && p != INIT
    requires var f := procs[p].father;
             procs' == procs[f := procs[f].(children := Remove(procs[f].children, p))] - {p}
    ensures Destroyed(procs, procs', p)
  {
    var f := procs[p].father;
    RemoveNoDup(procs[f].children, p);
    forall q | q in procs'
      ensures procs'[q] == procs[q].(children := procs'[q].children)
      ensures NoDup(procs'[q].children)
      ensures forall c :: c in procs'[q].children <==> c in procs[q].children && c != p
    {
      if q != f {
        assert procs'[q] == procs[q];
        assert p !in procs[q].children;
      }
    }
  }

  lemma DestroyEffect(s: Sys, p: int)
    requires PidsOk(s.procs, s.free) && TreeOk(s.procs) && p in s.procs && p != INIT && p != s.running
    requires s.procs[p].state == Zombie && s.procs[p].children == []
    requires s.procs[p].father in s.procs && s.procs[p].father != p
    ensures var r := Destroy(s, p);
            && r.Ok? && Destroyed(s.procs, r.value.procs, p)
            && r.value == s.(procs := r.value.procs, free := s.free + [p])
  {
    RoomToFree(s.procs, s.free, p);
    hide PidsOk, TreeOk, Destroyed;
    var f := s.procs[p].father;
    var s1 := s.(procs := s.procs[f := s.procs[f].(children := Remove(s.procs[f].children, p))]);
    assert DropChildren(s1, p, 0) == Ok(s1);
    DestroyedShape(s.procs, s1.procs - {p}, p);
  }

  /** A pid in use is not in the ring, so the ring is not full. */
  lemma RoomToFree(procs: Table, free: seq<int>, p: int)
    requires PidsOk(procs, free) && p in procs
    ensures |free| < MAX_PROCS
  {
    AppendNoDup(free, p);
    DistinctInRange(free + [p], 1, MAX_PROCS + 1);
  }

  lemma KeepsPids(procs: Table, procs': Table, p: int, free: seq<int>)
    requires PidsOk(procs, free) && Destroyed(procs, procs', p)
    ensures PidsOk(procs', free + [p])
  {
    AppendNoDup(free, p);
    assert forall q :: q in free + [p] <==> q in free || q == p;
  }

  lemma KeepsReady(procs: Table, procs': Table, p: int, ready: seq<int>)
    requires ReadyOk(procs, ready) && Destroyed(procs, procs', p) && procs[p].state == Zombie
    ensures ReadyOk(procs', ready)
  {
    assert forall q :: q in ready ==> Prio(procs', q) == Prio(procs, q);
  }

  lemma KeepsSleep(procs: Table, procs': Table, p: int, sleepers: seq<int>)
    requires SleepOk(procs, sleepers) && Destroyed(procs, procs', p) && procs[p].state == Zombie
    ensures SleepOk(procs', sleepers)
  {}

  lemma KeepsStates(procs: Table, procs': Table, p: int, running: int)
    requires StatesOk(procs, running) && Destroyed(procs, procs', p) && p != running && p != INIT
    ensures StatesOk(procs', running)
  {}

  lemma KeepsQueues(procs: Table, procs': Table, p: int, queues: map<int, Queue>)
    requires QueuesOk(procs, queues) && Destroyed(procs, procs', p) && procs[p].state == Zombie
    ensures QueuesOk(procs', queues)
  {
    forall f | f in queues ensures QueueOk(procs', f, queues[f]) {
      assert QueueOk(procs, f, queues[f]);
      forall i | 0 <= i < |queues[f].locked| ensures NodeOk(procs', f, queues[f].locked[i]) {
        assert NodeOk(procs, f, queues[f].locked[i]);
      }
    }
  }

  lemma KeepsTree(procs: Table, procs': Table, p: int)
    requires TreeOk(procs) && Destroyed(procs, procs', p) && p != INIT && procs[p].children == []
    ensures TreeOk(procs')
  {
    hide DistinctChildren, ChildLinks, FatherLinks, Destroyed;
    KeepsChildLinks(procs, procs', p);
    KeepsFatherLinks(procs, procs', p);
    KeepsDistinct(procs, procs', p);
  }

  lemma KeepsDistinct(procs: Table, procs': Table, p: int)
    requires DistinctChildren(procs) && Destroyed(procs, procs', p)
    ensures DistinctChildren(procs')
  {}

  lemma KeepsChildLinks(procs: Table, procs': Table, p: int)
    requires ChildLinks(procs) && Destroyed(procs, procs', p)
    ensures ChildLinks(procs')
  {
    forall q, c | q in procs' && c in procs'[q].children
      ensures c in procs' && procs'[c].father == q && c != INIT
    {
      assert c in procs[q].children;
      var a, b := procs[c], procs'[c];
      assert a.father == b.father;
    }
  }

  lemma KeepsFatherLinks(procs: Table, procs': Table, p: int)
    requires FatherLinks(procs) && Destroyed(procs, procs', p) && procs[p].children == []
    ensures FatherLinks(procs')
  {
    forall c | c in procs' && c != INIT
      ensures procs'[c].father in procs' && c in procs'[procs'[c].father].children
    {
      var a, b := procs[c], procs'[c];
      assert c in procs[a.father].children;
      assert a.father != p && a.father == b.father;
    }
  }

  lemma KeepsAllRooted(procs: Table, procs': Table, p: int)
    requires AllRooted(procs) && Destroyed(procs, procs', p)
    ensures AllRooted(procs')
  {
    var depth: map<int, nat> :| Ranked(procs, depth);
    forall q | q in procs' && q != INIT ensures Depth(depth, procs'[q].father) < Depth(depth, q) {
      var a, b := procs[q], procs'[q];
      assert a.father == b.father;
    }
    assert Ranked(procs', depth);
  }

  lemma KeepsLife(procs: Table, procs': Table, p: int, toZombify: seq<int>, toDestroy: seq<int>)
    requires LifeOk(procs, toZombify, toDestroy) && TreeOk(procs) && Destroyed(procs, procs', p)
    requires toDestroy != [] && p == toDestroy[|toDestroy| - 1] && procs[p].deallocated && procs[p].children == []
    requires p != INIT && (INIT in procs ==> !procs[INIT].deallocated)
    ensures LifeOk(procs', toZombify, toDestroy[..|toDestroy| - 1])
  {
    assert forall c :: c in procs && c != INIT ==> procs[c].father != p by {
      assert forall c :: c in procs && c != INIT && procs[c].father == p ==> c in procs[p].children;
    }
    KeepsUncollected(procs, procs', p);
    KeepsSealed(procs, procs', p, toDestroy);
  }

  lemma KeepsSealed(procs: Table, procs': Table, p: int, toDestroy: seq<int>)
    requires SealedOk(procs, toDestroy) && Destroyed(procs, procs', p)
    requires toDestroy != [] && p == toDestroy[|toDestroy| - 1]
    ensures SealedOk(procs', toDestroy[..|toDestroy| - 1])
  {
    var rest := toDestroy[..|toDestroy| - 1];
    assert toDestroy == rest + [p];
    assert forall q :: q in toDestroy <==> q in rest || q == p;
    assert p !in rest;
  }

  lemma KeepsUncollected(procs: Table, procs': Table, p: int)
    requires UncollectedOk(procs) && Destroyed(procs, procs', p)
    requires forall c :: c in procs && c != INIT ==> procs[c].father != p
    requires INIT in procs ==> !procs[INIT].deallocated
    ensures UncollectedOk(procs')
  {
  }

  lemma KeepsChildrenLast(procs: Table, procs': Table, p: int, toDestroy: seq<int>)
    requires ChildrenLast(procs, toDestroy) && Destroyed(procs, procs', p) && toDestroy != []
    ensures ChildrenLast(procs', toDestroy[..|toDestroy| - 1])
  {
    var rest := toDestroy[..|toDestroy| - 1];
    forall i, j | 0 <= i < j < |rest| && rest[i] in procs' ensures procs'[rest[i]].father != rest[j] {
      var x := toDestroy[i];
      assert procs[x].father != toDestroy[j];
      var a, b := procs[x], procs'[x];
      assert b.father == a.father;
    }
  }

  lemma KeepsWaits(procs: Table, procs': Table, p: int)
    requires WaitsOk(procs) && Destroyed(procs, procs', p) && TreeOk(procs) && procs[p].sealed
    ensures WaitsOk(procs')
  {
    forall f | f in procs' ensures WaitOk(procs', f) {
      var a := procs[f];
      assert WaitOk(procs, f);
      if a.state == BlockedByChild {
        if a.cont.target >= 0 {
          assert Awaited(procs, f, a.cont.target);
          assert Awaited(procs', f, a.cont.target);
        } else {
          var t :| Awaited(procs, f, t);
          assert Awaited(procs', f, t);
        }
      } else if a.state in {Waiting, Running} && a.cont.InWait? {
        assert Collectable(procs, f, a.waitingCode);
        assert Collectable(procs', f, a.waitingCode);
      }
    }
  }

  lemma DestroyKeepsCore(s: Sys, p: int)
    requires Core(s) && s.toDestroy != [] && p == s.toDestroy[|s.toDestroy| - 1]
    requires p != s.running && s.procs[p].deallocated
    ensures var r := Destroy(s.(toDestroy := s.toDestroy[..|s.toDestroy| - 1]), p);
            && r.Ok? && Core(r.value) && Destroyed(s.procs, r.value.procs, p)
            && r.value == s.(procs := r.value.procs, free := s.free + [p],
                          toDestroy := s.toDestroy[..|s.toDestroy| - 1])
            && s.procs[p].children == []
  {
    assert p in s.toDestroy && p != INIT;
    OutsideFamily(s.procs, p);
    NoChildLeft(s.procs, s.toDestroy, p);
    var s0 := s.(toDestroy := s.toDestroy[..|s.toDestroy| - 1]);
    DestroyEffect(s0, p);
    DestroyedKeepsCore(s, Destroy(s0, p).value, p);
  }

  lemma DestroyedKeepsCore(s: Sys, t: Sys, p: int)
    requires Core(s) && s.toDestroy != [] && p == s.toDestroy[|s.toDestroy| - 1]
    requires p != s.running && p != INIT && s.procs[p].deallocated && s.procs[p].children == []
    requires Destroyed(s.procs, t.procs, p)
    requires t == s.(procs := t.procs, free := s.free + [p], toDestroy := s.toDestroy[..|s.toDestroy| - 1])
    ensures Core(t)
  {
    hide PidsOk, FidsOk, ReadyOk, SleepOk, StatesOk, QueuesOk, TreeOk, AllRooted, LifeOk, ChildrenLast;
    hide WaitsOk, Destroyed;
    DestroyFacts(s.procs, s.toZombify, s.toDestroy, s.running, p);
    KeepsPids(s.procs, t.procs, p, s.free);
    KeepsReady(s.procs, t.procs, p, s.ready);
    KeepsSleep(s.procs, t.procs, p, s.sleepers);
    KeepsStates(s.procs, t.procs, p, s.running);
    KeepsQueues(s.procs, t.procs, p, s.queues);
    KeepsTree(s.procs, t.procs, p);
    KeepsAllRooted(s.procs, t.procs, p);
    KeepsLife(s.procs, t.procs, p, s.toZombify, s.toDestroy);
    KeepsChildrenLast(s.procs, t.procs, p, s.toDestroy);
    KeepsWaits(s.procs, t.procs, p);
  }

  lemma DestroyFacts(procs: Table, toZombify: seq<int>, toDestroy: seq<int>, running: int, p: int)
    requires LifeOk(procs, toZombify, toDestroy) && StatesOk(procs, running)
    requires toDestroy != [] && p == toDestroy[|toDestroy| - 1]
    ensures p in procs && procs[p].state == Zombie && procs[p].sealed && !procs[INIT].deallocated
  {
    assert p in toDestroy;
  }

  /** What that loop would do: a live child becomes one of pid 1, and the process destroyed is linked in its place. */
  lemma LoopMislinks(s: Sys, p: int, c: int)
    requires p in s.procs && s.procs[p].state != Running && s.running != p && |s.free| < 512
    requires s.procs[p].father in s.procs && s.procs[p].father != p && p != 1 && 1 in s.procs
    requires s.procs[p].children == [c] && c in s.procs && c != p && c != 1 && !s.procs[c].deallocated
    requires forall q :: q in s.procs && q != p ==> c !in s.procs[q].children
    ensures Destroy(s, p).Ok?
    ensures var t := Destroy(s, p).value;
            && p !in t.procs && 1 in t.procs && t.procs[1].children != [] && t.procs[1].children[0] == p
            && c in t.procs && t.procs[c].father == 1 && forall q :: q in t.procs ==> c !in t.procs[q].children
  {
    var f := s.procs[p].father;
    var s1 := s.(procs := s.procs[f := s.procs[f].(children := Remove(s.procs[f].children, p))]);
    var s2 := DropChild(s1, p).value;
    assert DropChildren(s1, p, 1) == Ok(s2);
  }
}
