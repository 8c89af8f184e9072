/** `waitpid` that finds or has been given a zombie: the child is sealed and nothing else happens. */
module CollectLemmas {
  import opened Lists
  import opened KernelState
  import opened Invariant
  import opened FrameLemmas

  /** `c` has been sealed and `me`, its father, is no longer inside a call. */
  ghost predicate SealedTo(procs: Table, procs': Table, me: int, c: int) {
    && me in procs && c in procs && c != me
    && procs'.Keys == procs.Keys
    && (forall q :: q in procs ==>
                      var a, b := procs[q], procs'[q];
                      && b.father == a.father && b.children == a.children && b.state == a.state && b.prio == a.prio
                      && b.deallocated == a.deallocated && b.waitingCode == a.waitingCode
                      && b.returnCode == a.returnCode
                      && b.sleepTime == a.sleepTime
                      && b.sealed == (a.sealed || q == c)
                      && b.cont == (if q == me then Idle else a.cont))
  }

  ghost predicate CanCollect(s: Sys, c: int) {
    && s.running in s.procs && c in s.procs
    && c in s.procs[s.running].children && s.procs[c].state == Zombie && !s.procs[c].sealed
  }

  lemma SealQueues(procs: Table, procs': Table, me: int, c: int, queues: map<int, Queue>)
    requires SealedTo(procs, procs', me, c) && QueuesOk(procs, queues) && procs[me].state == Running
    ensures QueuesOk(procs', queues)
  {
    forall f | f in queues ensures QueueOk(procs', f, queues[f]) {
      assert QueueOk(procs, f, queues[f]);
      forall i | 0 <= i < |queues[f].locked| ensures NodeOk(procs', f, queues[f].locked[i]) {
        assert NodeOk(procs, f, queues[f].locked[i]);
      }
    }
  }

  lemma SealTables(procs: Table, procs': Table, me: int, c: int, s: Sys)
    requires SealedTo(procs, procs', me, c) && s.procs == procs && s.running == me && procs[me].state == Running
    requires PidsOk(procs, s.free) && ReadyOk(procs, s.ready) && SleepOk(procs, s.sleepers) && StatesOk(procs, me)
    ensures PidsOk(procs', s.free) && ReadyOk(procs', s.ready) && SleepOk(procs', s.sleepers) && StatesOk(procs', me)
  {
    assert forall q :: Prio(procs', q) == Prio(procs, q);
  }

  lemma SealLinks(procs: Table, procs': Table, me: int, c: int)
    requires SealedTo(procs, procs', me, c)
    ensures SameLinks(procs, procs')
  {}

  lemma SealLife(procs: Table, procs': Table, me: int, c: int, toZombify: seq<int>, toDestroy: seq<int>)
    requires SealedTo(procs, procs', me, c) && LifeOk(procs, toZombify, toDestroy)
    requires procs[c].state == Zombie && !procs[c].sealed
    ensures LifeOk(procs', toZombify, toDestroy + [c])
  {
    assert PendingOk(procs', toZombify);
    assert SealedOk(procs', toDestroy + [c]) by {
      AppendNoDup(toDestroy, c);
      assert forall q :: q in toDestroy + [c] <==> q in toDestroy || q == c;
    }
    forall p | p in procs' && procs'[p].deallocated && !procs'[p].sealed
      ensures procs'[p].father != INIT && procs'[p].father in procs' && !procs'[procs'[p].father].deallocated
    {
      var a, b := procs[p], procs'[p];
      assert a.father == b.father;
    }
  }

  lemma SealChildrenLast(procs: Table, procs': Table, me: int, c: int, toDestroy: seq<int>)
    requires SealedTo(procs, procs', me, c) && ChildrenLast(procs, toDestroy)
    requires forall d :: d in toDestroy ==> d in procs && procs[d].father == me
    ensures ChildrenLast(procs', toDestroy + [c])
  {
    var l := toDestroy + [c];
    forall i, j | 0 <= i < j < |l| && l[i] in procs' ensures procs'[l[i]].father != l[j] {
      var x := toDestroy[i];
      assert l[i] == x && x in toDestroy;
      var a, b := procs[x], procs'[x];
      assert a.father == b.father;
    }
  }

  lemma SealWaits(procs: Table, procs': Table, me: int, c: int)
    requires SealedTo(procs, procs', me, c) && WaitsOk(procs) && ChildLinks(procs)
    requires c in procs[me].children && procs[me].state == Running
    ensures WaitsOk(procs')
  {
    forall f | f in procs' ensures WaitOk(procs', f) {
      assert WaitOk(procs, f);
      if f != me {
        assert c !in procs[f].children;
        SealWait(procs, procs', me, c, f);
      }
    }
  }

  lemma SealWait(procs: Table, procs': Table, me: int, c: int, f: int)
    requires SealedTo(procs, procs', me, c) && f in procs && WaitOk(procs, f)
    requires f != me && c !in procs[f].children
    ensures WaitOk(procs', f)
  {
    var a := procs[f];
    if a.state == BlockedByChild {
      if a.cont.target >= 0 {
        assert Awaited(procs, f, a.cont.target);
        assert Awaited(procs', f, a.cont.target);
      } else {
        var t :| Awaited(procs, f, t);
        assert Awaited(procs', f, t);
      }
    } else if a.state in {Waiting, Running} && a.cont.InWait? {
      assert Collectable(procs, f, a.waitingCode);
      assert Collectable(procs', f, a.waitingCode);
    }
  }

  lemma SealUndoomed(procs: Table, procs': Table, me: int, c: int, toZombify: seq<int>)
    requires SealedTo(procs, procs', me, c) && Undoomed(procs, toZombify)
    ensures Undoomed(procs', toZombify)
  {
    forall p | p in toZombify && p in procs' && !procs'[p].sealed && procs'[p].father == INIT
      ensures !HasCorpse(procs', p)
    {
      assert !HasCorpse(procs, p);
    }
  }

  lemma CollectFacts(s: Sys, c: int)
    requires Inv(s) && CanCollect(s, c)
    ensures PidsOk(s.procs, s.free) && ReadyOk(s.procs, s.ready) && SleepOk(s.procs, s.sleepers)
    ensures StatesOk(s.procs, s.running) && ChildLinks(s.procs) && c != s.running
    ensures forall d :: d in s.toDestroy ==> d in s.procs && s.procs[d].father == s.running
  {
    hide QueuesOk, AllRooted, WaitsOk, ChildrenLast, Undoomed, FidsOk;
  }

  lemma SealKeepsInv(s: Sys, t: Sys, c: int)
    requires Inv(s) && CanCollect(s, c) && SealedTo(s.procs, t.procs, s.running, c)
    requires t == s.(procs := t.procs, toDestroy := s.toDestroy + [c])
    ensures Inv(t)
  {
    hide PidsOk, ReadyOk, SleepOk, StatesOk, QueuesOk, TreeOk, AllRooted, LifeOk, ChildrenLast, WaitsOk;
    hide FidsOk, SealedTo, Undoomed, SameLinks;
    CollectFacts(s, c);
    SealChild(s, t, c);
    SealTables(s.procs, t.procs, s.running, c, s);
    SealQueues(s.procs, t.procs, s.running, c, s.queues);
    SealLinks(s.procs, t.procs, s.running, c);
    LinksTree(s.procs, t.procs);
    LinksAllRooted(s.procs, t.procs);
    SealLife(s.procs, t.procs, s.running, c, s.toZombify, s.toDestroy);
    SealChildrenLast(s.procs, t.procs, s.running, c, s.toDestroy);
    SealWaits(s.procs, t.procs, s.running, c);
    SealUndoomed(s.procs, t.procs, s.running, c, s.toZombify);
  }

  /** The remaining clauses of the invariant. */
  lemma SealChild(s: Sys, t: Sys, c: int)
    requires SealedTo(s.procs, t.procs, s.running, c) && ChildLinks(s.procs) && c in s.procs[s.running].children
    requires t == s.(procs := t.procs, toDestroy := s.toDestroy + [c])
    requires forall d :: d in s.toDestroy ==> d in s.procs && s.procs[d].father == s.running
    ensures forall d :: d in t.toDestroy ==> d in t.procs && t.procs[d].father == t.running
    ensures t.procs[t.running].state == s.procs[s.running].state
    ensures Fair(s) ==> Fair(t)
  {
    assert forall q :: Prio(t.procs, q) == Prio(s.procs, q);
    forall d | d in t.toDestroy ensures d in t.procs && t.procs[d].father == t.running {
      var a, b := s.procs[d], t.procs[d];
      assert a.father == b.father;
    }
  }
}
