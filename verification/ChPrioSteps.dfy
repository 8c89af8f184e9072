/** `chprio` moves a process to its new place in whatever list it is in. */
module ChPrioSteps {
  import opened Lists
  import opened KernelState
  import opened Scheduler
  import opened Syscalls
  import opened Invariant
  import opened QueueLemmas
  import opened FrameLemmas
  import opened PickLemmas
  import opened PanicLemmas
  import opened WakeLemmas
  import opened QueueSteps

  ghost predicate Reprio(procs: Table, procs': Table, p: int) {
    && p in procs && p in procs' && procs' == procs[p := procs[p].(prio := procs'[p].prio)]
    && MIN_PRIO <= procs'[p].prio <= MAX_PRIO
  }

  lemma ReTables(procs: Table, procs': Table, p: int, s: Sys)
    requires Reprio(procs, procs', p) && PidsOk(procs, s.free) && SleepOk(procs, s.sleepers)
    requires StatesOk(procs, s.running)
    ensures PidsOk(procs', s.free) && SleepOk(procs', s.sleepers) && StatesOk(procs', s.running)
    ensures SameFamily(procs, procs')
  {}

  lemma ReWaits(procs: Table, procs': Table, p: int)
    requires Reprio(procs, procs', p) && WaitsOk(procs) && SameFamily(procs, procs')
    ensures WaitsOk(procs')
  {
    forall f | f in procs' ensures WaitOk(procs', f) {
      assert WaitOk(procs, f);
      FamilyWait(procs, procs', f);
    }
  }

  lemma ReReady(procs: Table, procs': Table, p: int, ready: seq<int>)
    requires Reprio(procs, procs', p) && ReadyOk(procs, ready) && p !in ready
    ensures ReadyOk(procs', ready)
  {
    assert forall q :: q in ready ==> Prio(procs', q) == Prio(procs, q);
  }

  lemma ReReadyMoved(procs: Table, procs': Table, p: int, ready: seq<int>)
    requires Reprio(procs, procs', p) && ReadyOk(procs, ready) && p in ready
    ensures p !in Remove(ready, p) && ReadyOk(procs', InsertReady(procs', Remove(ready, p), p))
    ensures forall q :: q in InsertReady(procs', Remove(ready, p), p) <==> q in ready
  {
    hide Remove, InsertReady, SortedReady, NoDup;
    RemoveNoDup(ready, p);
    RemoveSorted(procs, ready, p);
    var rest := Remove(ready, p);
    OthersSorted(procs, procs', p, rest);
    InsertReadyOk(procs', rest, p);
  }

  lemma OthersSorted(procs: Table, procs': Table, p: int, l: seq<int>)
    requires Reprio(procs, procs', p) && SortedReady(procs, l) && p !in l
    ensures SortedReady(procs', l)
  {
    forall i, j | 0 <= i < j < |l| ensures Prio(procs', l[i]) <= Prio(procs', l[j]) {
      assert l[i] in l && l[j] in l;
    }
  }

  // ----- the parked node -----

  lemma CutNode(l: seq<Node>, p: int, k: nat)
    requires DistinctPids(l) && SortedNodes(l) && k < |l| && l[k].pid == p
    ensures DistinctPids(RemovePid(l, p)) && SortedNodes(RemovePid(l, p)) && |RemovePid(l, p)| == |l| - 1
    ensures forall i :: 0 <= i < |l| - 1 ==> RemovePid(l, p)[i] == l[if i < k then i else i + 1]
    ensures forall i :: 0 <= i < |l| - 1 ==> RemovePid(l, p)[i].pid != p
  {
    RemovePidSplits(l, p, k);
  }

  /** The node of `p` moves to the place its new priority gives it; the others keep their order. */
  lemma ReprioritiseOk(l: seq<Node>, p: int, prio: int, k: nat) returns (j: nat)
    requires DistinctPids(l) && SortedNodes(l) && k < |l| && l[k].pid == p
    ensures var r := Reprioritise(l, p, prio);
            && |r| == |l| && j < |r| && DistinctPids(r) && SortedNodes(r) && r[j] == l[k].(prio := prio)
            && (forall i :: 0 <= i < |r| && i != j ==> r[i] in l && r[i].pid != p)
            && (forall i :: 0 <= i < |l| && i != k ==> l[i] in r)
            && r[..j] + r[j + 1..] == l[..k] + l[k + 1..]
  {
    var c, n := RemovePid(l, p), l[k].(prio := prio);
    hide Reprioritise, RemovePid, SortedNodes, DistinctPids, InsertNode;
    CutNode(l, p, k);
    ReprioritiseIs(l, p, prio, k);
    var r := Reprioritise(l, p, prio);
    j := InsertShape(c, n);
    MovedMembers(l, c, r, k, j, p);
    SameOrder(l, c, r, k, j);
  }

  /** `r` is `l` with the element at `k` moved to `j`, by way of `c`. */
  lemma MovedMembers(l: seq<Node>, c: seq<Node>, r: seq<Node>, k: nat, j: nat, p: int)
    requires |c| == |l| - 1 && |r| == |l| && k < |l| && j < |r|
    requires forall i :: 0 <= i < |c| ==> c[i] == l[if i < k then i else i + 1] && c[i].pid != p
    requires forall i :: 0 <= i <= |c| && i != j ==> r[i] == c[if i < j then i else i - 1]
    ensures forall i :: 0 <= i < |r| && i != j ==> r[i] in l && r[i].pid != p
    ensures forall i :: 0 <= i < |l| && i != k ==> l[i] in r
  {
    forall i | 0 <= i < |l| && i != k ensures l[i] in r {
      var i' := if i < k then i else i - 1;
      assert c[i'] == l[i];
      assert r[if i' < j then i' else i' + 1] == l[i];
    }
  }

  lemma SameOrder(l: seq<Node>, c: seq<Node>, r: seq<Node>, k: nat, j: nat)
    requires |c| == |l| - 1 && |r| == |l| && k < |l| && j < |r|
    requires forall i :: 0 <= i < |c| ==> c[i] == l[if i < k then i else i + 1]
    requires forall i :: 0 <= i <= |c| && i != j ==> r[i] == c[if i < j then i else i - 1]
    ensures r[..j] + r[j + 1..] == l[..k] + l[k + 1..]
  {
    var a, b := r[..j] + r[j + 1..], l[..k] + l[k + 1..];
    forall i | 0 <= i < |c| ensures a[i] == c[i] && b[i] == c[i] {
      assert a[i] == r[if i < j then i else i + 1];
    }
  }

  lemma ReprioritiseIs(l: seq<Node>, p: int, prio: int, k: nat)
    requires DistinctPids(l) && k < |l| && l[k].pid == p
    ensures Reprioritise(l, p, prio) == InsertNode(RemovePid(l, p), l[k].(prio := prio))
  {
    assert IndexOf(l, p) == k;
  }

  lemma ReQueueOther(procs: Table, procs': Table, p: int, f: int, q: Queue)
    requires Reprio(procs, procs', p) && QueueOk(procs, f, q)
    requires forall i :: 0 <= i < |q.locked| ==> q.locked[i].pid != p
    ensures QueueOk(procs', f, q)
  {
    forall i | 0 <= i < |q.locked| ensures NodeOk(procs', f, q.locked[i]) {
      assert NodeOk(procs, f, q.locked[i]);
    }
  }

  lemma ReQueueMoved(procs: Table, procs': Table, p: int, f: int, q: Queue, k: nat)
    requires Reprio(procs, procs', p) && QueueOk(procs, f, q) && k < |q.locked| && q.locked[k].pid == p
    ensures QueueOk(procs', f, q.(locked := Reprioritise(q.locked, p, procs'[p].prio)))
  {
    var prio := procs'[p].prio;
    var r := Reprioritise(q.locked, p, prio);
    var j := ReprioritiseOk(q.locked, p, prio, k);
    forall i | 0 <= i < |r|
      ensures NodeOk(procs', f, r[i])
      ensures procs'[r[i].pid].cont.InSend? ==> |q.messages| == q.size
      ensures procs'[r[i].pid].cont.InReceive? ==> q.messages == []
    {
      if i == j {
        assert NodeOk(procs, f, q.locked[k]);
      } else {
        var x :| 0 <= x < |q.locked| && q.locked[x] == r[i];
        assert NodeOk(procs, f, q.locked[x]);
      }
    }
  }

  lemma NotParked(l: seq<Node>, p: int, prio: int)
    requires !exists i :: 0 <= i < |l| && l[i].pid == p
    ensures Reprioritise(l, p, prio) == l
  {}

  lemma ReQueue(procs: Table, procs': Table, p: int, f: int, q: Queue)
    requires Reprio(procs, procs', p) && QueueOk(procs, f, q)
    ensures QueueOk(procs', f, q.(locked := Reprioritise(q.locked, p, procs'[p].prio)))
    ensures var r := Reprioritise(q.locked, p, procs'[p].prio);
            forall i :: 0 <= i < |q.locked| ==> exists j :: 0 <= j < |r| && r[j].pid == q.locked[i].pid
  {
    var r := Reprioritise(q.locked, p, procs'[p].prio);
    if k :| 0 <= k < |q.locked| && q.locked[k].pid == p {
      ReQueueMoved(procs, procs', p, f, q, k);
      var j := ReprioritiseOk(q.locked, p, procs'[p].prio, k);
      hide QueueOk, Reprioritise;
      forall i | 0 <= i < |q.locked|
        ensures exists j :: 0 <= j < |r| && r[j].pid == q.locked[i].pid
      {
        if i == k {
          assert r[j].pid == p;
        } else {
          assert q.locked[i] in r;
          var x :| 0 <= x < |r| && r[x] == q.locked[i];
          assert r[x].pid == q.locked[i].pid;
        }
      }
    } else {
      NotParked(q.locked, p, procs'[p].prio);
      assert q.(locked := r) == q;
      ReQueueOther(procs, procs', p, f, q);
      forall i | 0 <= i < |q.locked| ensures exists j :: 0 <= j < |r| && r[j].pid == q.locked[i].pid {
        assert r[i].pid == q.locked[i].pid;
      }
    }
  }

  lemma ReQueues(procs: Table, procs': Table, p: int, queues: map<int, Queue>)
    requires Reprio(procs, procs', p) && QueuesOk(procs, queues)
    ensures QueuesOk(procs', NotifyPriority(queues, p, procs'[p].prio))
  {
    var queues' := NotifyPriority(queues, p, procs'[p].prio);
    hide QueueOk, Reprioritise;
    forall f | f in queues'
      ensures QueueOk(procs', f, queues'[f])
      ensures forall x :: ParkedIn(queues, x, f) ==> ParkedIn(queues', x, f)
    {
      ReQueue(procs, procs', p, f, queues[f]);
      forall x | ParkedIn(queues, x, f) ensures ParkedIn(queues', x, f) {
        var i :| 0 <= i < |queues[f].locked| && queues[f].locked[i].pid == x;
      }
    }
    forall x | x in procs' && procs'[x].state == BlockedByMessage
      ensures (procs'[x].cont.InSend? || procs'[x].cont.InReceive?) && ParkedIn(queues', x, procs'[x].cont.fid)
    {
      assert ParkedIn(queues, x, procs[x].cont.fid);
    }
  }

  lemma ReQueuesUntouched(procs: Table, procs': Table, p: int, queues: map<int, Queue>)
    requires Reprio(procs, procs', p) && QueuesOk(procs, queues) && procs[p].state != BlockedByMessage
    ensures QueuesOk(procs', queues)
  {
    forall f | f in queues ensures QueueOk(procs', f, queues[f]) {
      assert QueueOk(procs, f, queues[f]);
      forall i | 0 <= i < |queues[f].locked| ensures queues[f].locked[i].pid != p {
        assert NodeOk(procs, f, queues[f].locked[i]);
      }
      ReQueueOther(procs, procs', p, f, queues[f]);
    }
  }

  // ----- the call -----

  predicate ChPrioRejects(s: Sys, p: int, prio: int) {
    !ValidPid(p) || !ValidPrio(prio) || p !in s.procs || s.procs[p].state == Zombie
  }

  /** Neither `queue_del` on a sleeper nor `queue_top` of an empty queue. */
  predicate ChPrioSafe(s: Sys, p: int, prio: int) {
    ChPrioRejects(s, p, prio) ||
    (if p == s.running then s.ready != [] else s.procs[p].state != Sleeping)
  }

  /** The lists after the change, before the choice to reschedule. */
  ghost predicate ReWoke(s: Sys, t: Sys, p: int, prio: int) {
    && Woke(s, t) && Reprio(s.procs, t.procs, p) && t.procs[p].prio == prio
    && (forall q :: q in t.ready <==> q in s.ready)
  }

  lemma ReFrame(s: Sys, t: Sys, p: int)
    requires Inv(s) && Reprio(s.procs, t.procs, p) && ReadyOk(t.procs, t.ready)
    requires t == s.(procs := t.procs, ready := t.ready, queues := t.queues)
    requires FidsOk(t.queues, t.freeFids) && QueuesOk(t.procs, t.queues)
    ensures Woke(s, t)
  {
    hide Inv, PidsOk, ReadyOk, SleepOk, StatesOk, WaitsOk, QueuesOk, FidsOk, SameFamily, FamilyCore, NoInversion;
    InvParts(s);
    ReTables(s.procs, t.procs, p, s);
    ReWaits(s.procs, t.procs, p);
    KeepsFamilyCore(s, t);
  }

  lemma ReInPlace(s: Sys, t: Sys, p: int)
    requires Inv(s) && Reprio(s.procs, t.procs, p) && t == s.(procs := t.procs)
    requires s.procs[p].state !in {Waiting, BlockedByMessage}
    ensures Woke(s, t)
  {
    hide Inv, SleepOk, StatesOk, WaitsOk, QueuesOk, FidsOk, FamilyCore, NoInversion, Woke, PidsOk;
    InvParts(s);
    assert p !in s.ready;
    ReReady(s.procs, t.procs, p, s.ready);
    ReQueuesUntouched(s.procs, t.procs, p, s.queues);
    ReFrame(s, t, p);
  }

  lemma ReParked(s: Sys, t: Sys, p: int)
    requires Inv(s) && Reprio(s.procs, t.procs, p) && s.procs[p].state == BlockedByMessage
    requires t == s.(procs := t.procs, queues := NotifyPriority(s.queues, p, t.procs[p].prio))
    ensures Woke(s, t)
  {
    hide Inv, SleepOk, StatesOk, WaitsOk, QueuesOk, FamilyCore, NoInversion, Woke, PidsOk, Reprioritise;
    InvParts(s);
    assert p !in s.ready;
    ReReady(s.procs, t.procs, p, s.ready);
    ReQueues(s.procs, t.procs, p, s.queues);
    ReFrame(s, t, p);
  }

  lemma ReReadied(s: Sys, t: Sys, p: int)
    requires Inv(s) && Reprio(s.procs, t.procs, p) && s.procs[p].state == Waiting
    requires t == s.(procs := t.procs, ready := InsertReady(t.procs, Remove(s.ready, p), p))
    ensures Woke(s, t) && p in s.ready && p !in Remove(s.ready, p) && forall q :: q in t.ready <==> q in s.ready
  {
    hide Inv, SleepOk, StatesOk, WaitsOk, QueuesOk, FidsOk, FamilyCore, NoInversion, Woke, PidsOk, InsertReady;
    InvParts(s);
    ReReadyMoved(s.procs, t.procs, p, s.ready);
    ReQueuesUntouched(s.procs, t.procs, p, s.queues);
    ReFrame(s, t, p);
  }

  lemma RePriorities(s: Sys, t: Sys, p: int)
    requires Reprio(s.procs, t.procs, p) && t.running == s.running
    requires Fair(s) && forall q :: q in t.ready <==> q in s.ready
    requires p == s.running ==>
               SortedReady(t.procs, t.ready) && t.ready != []
               && Prio(t.procs, t.ready[|t.ready| - 1]) <= Prio(t.procs, p)
    requires p != s.running ==> t.procs[p].prio <= Prio(t.procs, t.running)
    ensures Fair(t)
  {
    assert forall q :: q != p ==> Prio(t.procs, q) == Prio(s.procs, q);
    if p == s.running {
      TopIsHighest(t.procs, t.ready);
    }
  }

  lemma WokeSorted(s: Sys, t: Sys)
    requires Woke(s, t)
    ensures SortedReady(t.procs, t.ready)
  {}

  lemma ChPrioOk(s: Sys, p: int, prio: int)
    requires Inv(s) && s.running in s.procs && ChPrioSafe(s, p, prio)
    ensures var r := ChPrioCall(s, p, prio);
            r.Ok? && Inv(r.value.sys) && CodesKept(s, r.value.sys) && FairReply(s, r.value)
    ensures var t := ChPrioCall(s, p, prio).value.sys;
            if !ChPrioRejects(s, p, prio) && s.procs[p].state == BlockedByMessage
            then t.queues == NotifyPriority(s.queues, p, prio)
            else t.queues == s.queues
  {
    hide Inv, Woke, Schedule, NoInversion, SortedReady, Reprio, InsertReady, Frame, SleepOk, FidsOk, QueuesOk;
    hide Reprioritise, NotifyPriority;
    if !ChPrioRejects(s, p, prio) {
      var t := Repositioned(s, p, prio);
      var above := prio > Prio(t.procs, s.running);
      var below := p == s.running && Prio(t.procs, t.ready[|t.ready| - 1]) > prio;
      InvParts(s);
      if !above && !below && Fair(s) {
        WokeSorted(s, t);
        RePriorities(s, t, p);
      }
      WokeThen(s, t, above || below, s.procs[p].prio, []);
    }
  }

  /** The state in which `chprio` decides whether to call `schedule`. */
  lemma Repositioned(s: Sys, p: int, prio: int) returns (t: Sys)
    requires Inv(s) && s.running in s.procs && ChPrioSafe(s, p, prio) && !ChPrioRejects(s, p, prio)
    ensures ReWoke(s, t, p, prio) && (p == s.running ==> t.ready != []) && s.running in t.procs
    ensures t.running == s.running && Size(t) == Size(s) && t.released == s.released
    ensures t.queues == if s.procs[p].state == BlockedByMessage then NotifyPriority(s.queues, p, prio) else s.queues
    ensures ChPrioCall(s, p, prio) ==
            Then(t, prio > Prio(t.procs, s.running) || (p == s.running && Prio(t.procs, t.ready[|t.ready| - 1]) > prio),
                 s.procs[p].prio, [])
  {
    hide Inv, Woke, InsertReady, Remove, NotifyPriority, Reprioritise, ChPrioCall, Then;
    StateCases(s, p);
    var st := s.procs[p].state;
    var procs' := s.procs[p := s.procs[p].(prio := prio)];
    assert Reprio(s.procs, procs', p);
    if st == BlockedByMessage {
      t := s.(procs := procs', queues := NotifyPriority(s.queues, p, prio));
      ReParked(s, t, p);
      CallParked(s, t, p, prio);
    } else if st == Waiting {
      t := s.(procs := procs', ready := InsertReady(procs', Remove(s.ready, p), p));
      ReReadied(s, t, p);
      CallReadied(s, t, p, prio);
    } else {
      t := s.(procs := procs');
      ReInPlace(s, t, p);
      CallInPlace(s, t, p, prio);
    }
  }

  ghost predicate Decides(s: Sys, t: Sys, p: int, prio: int)
    requires p in s.procs && (p == s.running ==> t.ready != [])
  {
    ChPrioCall(s, p, prio) ==
    Then(t, prio > Prio(t.procs, s.running) || (p == s.running && Prio(t.procs, t.ready[|t.ready| - 1]) > prio),
         s.procs[p].prio, [])
  }

  lemma CallParked(s: Sys, t: Sys, p: int, prio: int)
    requires !ChPrioRejects(s, p, prio) && s.running in s.procs && s.procs[p].state == BlockedByMessage
    requires p != s.running
    requires t == s.(procs := s.procs[p := s.procs[p].(prio := prio)], queues := NotifyPriority(s.queues, p, prio))
    ensures Decides(s, t, p, prio)
  {}

  lemma CallReadied(s: Sys, t: Sys, p: int, prio: int)
    requires !ChPrioRejects(s, p, prio) && s.running in s.procs && s.procs[p].state == Waiting && p != s.running
    requires p in s.ready && p !in Remove(s.ready, p)
    requires var procs' := s.procs[p := s.procs[p].(prio := prio)];
             t == s.(procs := procs', ready := InsertReady(procs', Remove(s.ready, p), p))
    ensures Decides(s, t, p, prio)
  {}

  lemma CallInPlace(s: Sys, t: Sys, p: int, prio: int)
    requires !ChPrioRejects(s, p, prio) && s.running in s.procs
    requires if p == s.running then s.procs[p].state == Running && s.ready != [] else s.procs[p].state == BlockedByChild
    requires t == s.(procs := s.procs[p := s.procs[p].(prio := prio)])
    ensures Decides(s, t, p, prio)
  {
    hide Then, Unlink, Enqueue, NotifyPriority;
  }

  lemma StateCases(s: Sys, p: int)
    requires Inv(s) && p in s.procs && s.procs[p].state != Zombie
    ensures s.procs[p].state == Running <==> p == s.running
    ensures s.procs[p].state in {Running, Waiting, BlockedByMessage, BlockedByChild, Sleeping}
  {
    hide FidsOk, ReadyOk, SleepOk, QueuesOk, AllRooted, ChildrenLast, NoInversion, Undoomed, TreeOk, LifeOk;
    hide WaitsOk, PidsOk;
  }
}
