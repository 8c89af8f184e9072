/** `start` adds a leaf to the process tree, with a pid nobody uses. */
module StartSteps {
  import opened KernelState
  import opened Scheduler
  import opened Syscalls
  import opened Invariant
  import opened QueueLemmas
  import opened FrameLemmas
  import opened CleanLemmas
  import opened ScheduleLemmas
  import opened PanicLemmas
  import opened LeaveLemmas
  import opened WakeLemmas
  import opened QueueSteps

  ghost predicate Started(procs: Table, procs': Table, p: int, f: int) {
    && p !in procs && f in procs && f != p && p != INIT
    && procs'.Keys == procs.Keys + {p}
    && (forall q :: q in procs ==>
                      procs'[q] == if q == f then procs[q].(children := [p] + procs[q].children) else procs[q])
    && procs'[p] == NewProc(f, procs'[p].prio).(state := Waiting)
    && MIN_PRIO <= procs'[p].prio <= MAX_PRIO
  }

  lemma StartPids(procs: Table, procs': Table, p: int, f: int, free: seq<int>)
    requires Started(procs, procs', p, f) && PidsOk(procs, free) && free != [] && p == free[0]
    ensures PidsOk(procs', free[1..])
  {
    assert free == [p] + free[1..];
    assert forall q :: q in free <==> q == p || q in free[1..];
    assert p !in free[1..];
  }

  lemma StartReady(procs: Table, procs': Table, p: int, f: int, ready: seq<int>)
    requires Started(procs, procs', p, f) && ReadyOk(procs, ready)
    ensures p !in ready && ReadyOk(procs', InsertReady(procs', ready, p))
  {
    assert forall q :: q in ready ==> Prio(procs', q) == Prio(procs, q);
    assert SortedReady(procs', ready);
    InsertReadyOk(procs', ready, p);
  }

  lemma StartTables(procs: Table, procs': Table, p: int, f: int, sleepers: seq<int>, running: int)
    requires Started(procs, procs', p, f) && SleepOk(procs, sleepers) && StatesOk(procs, running)
    ensures SleepOk(procs', sleepers) && StatesOk(procs', running)
  {}

  lemma StartQueues(procs: Table, procs': Table, p: int, f: int, queues: map<int, Queue>)
    requires Started(procs, procs', p, f) && QueuesOk(procs, queues)
    ensures QueuesOk(procs', queues)
  {
    forall g | g in queues ensures QueueOk(procs', g, queues[g]) {
      assert QueueOk(procs, g, queues[g]);
      forall i | 0 <= i < |queues[g].locked| ensures NodeOk(procs', g, queues[g].locked[i]) {
        assert NodeOk(procs, g, queues[g].locked[i]);
      }
    }
  }

  lemma StartChildLinks(procs: Table, procs': Table, p: int, f: int)
    requires Started(procs, procs', p, f) && ChildLinks(procs) && DistinctChildren(procs)
    ensures ChildLinks(procs') && DistinctChildren(procs')
  {
    forall q, c | q in procs' && c in procs'[q].children
      ensures c in procs' && procs'[c].father == q && c != INIT
    {
      if c != p {
        assert c in procs[q].children;
      }
    }
    assert p !in procs[f].children;
  }

  lemma StartFatherLinks(procs: Table, procs': Table, p: int, f: int)
    requires Started(procs, procs', p, f) && FatherLinks(procs)
    ensures FatherLinks(procs')
  {
    forall c | c in procs' && c != INIT
      ensures procs'[c].father in procs' && c in procs'[procs'[c].father].children
    {
      if c != p {
        var a, b := procs[c], procs'[c];
        assert a.father == b.father && c in procs[a.father].children;
      }
    }
  }

  /** The new process is one deeper than its father. */
  lemma StartAllRooted(procs: Table, procs': Table, p: int, f: int)
    requires Started(procs, procs', p, f) && AllRooted(procs) && FatherLinks(procs)
    ensures AllRooted(procs')
  {
    var depth: map<int, nat> :| Ranked(procs, depth);
    var depth' := depth[p := Depth(depth, f) + 1];
    forall q | q in procs' && q != INIT ensures Depth(depth', procs'[q].father) < Depth(depth', q) {
      if q != p {
        var a, b := procs[q], procs'[q];
        assert a.father == b.father && a.father in procs;
      }
    }
    assert Ranked(procs', depth');
  }

  lemma StartLife(procs: Table, procs': Table, p: int, f: int, toZombify: seq<int>, toDestroy: seq<int>)
    requires Started(procs, procs', p, f) && LifeOk(procs, toZombify, toDestroy) && !procs[f].deallocated
    requires ChildLinks(procs)
    ensures LifeOk(procs', toZombify, toDestroy)
  {
    assert PendingOk(procs', toZombify);
    assert SealedOk(procs', toDestroy);
    forall q | q in procs' && procs'[q].deallocated && !procs'[q].sealed
      ensures procs'[q].father != INIT && procs'[q].father in procs' && !procs'[procs'[q].father].deallocated
    {
      var a, b := procs[q], procs'[q];
      assert a.father == b.father;
    }
    forall q, c | q in procs' && procs'[q].deallocated && c in procs'[q].children && c in procs'
      ensures procs'[c].sealed
    {
      assert q in procs && c in procs[q].children;
    }
  }

  lemma StartChildrenLast(procs: Table, procs': Table, p: int, f: int, toDestroy: seq<int>)
    requires Started(procs, procs', p, f) && ChildrenLast(procs, toDestroy)
    requires forall q :: q in toDestroy ==> q in procs
    ensures ChildrenLast(procs', toDestroy)
  {
    forall i, j | 0 <= i < j < |toDestroy| && toDestroy[i] in procs'
      ensures procs'[toDestroy[i]].father != toDestroy[j]
    {
      var x := toDestroy[i];
      assert x in toDestroy;
      var a, b := procs[x], procs'[x];
      assert a.father == b.father;
    }
  }

  lemma StartWaits(procs: Table, procs': Table, p: int, f: int)
    requires Started(procs, procs', p, f) && WaitsOk(procs) && procs[f].state == Running
    ensures WaitsOk(procs')
  {
    forall g | g in procs' ensures WaitOk(procs', g) {
      if g != p {
        var a := procs[g];
        assert WaitOk(procs, g);
        if a.state == BlockedByChild {
          if a.cont.target >= 0 {
            assert Awaited(procs, g, a.cont.target);
            assert Awaited(procs', g, a.cont.target);
          } else {
            var t :| Awaited(procs, g, t);
            assert Awaited(procs', g, t);
          }
        } else if a.state in {Waiting, Running} && a.cont.InWait? {
          assert Collectable(procs, g, a.waitingCode);
          assert Collectable(procs', g, a.waitingCode);
        }
      }
    }
  }

  lemma StartCorpse(procs: Table, procs': Table, p: int, f: int, q: int)
    requires Started(procs, procs', p, f) && ChildLinks(procs) && q in procs
    ensures HasCorpse(procs', q) ==> HasCorpse(procs, q)
  {
    if HasCorpse(procs', q) {
      var c :| c in procs'[q].children && c in procs' && procs'[c].deallocated && !procs'[c].sealed;
      assert c != p && c in procs[q].children;
    }
  }

  lemma StartClash(procs: Table, procs': Table, p: int, f: int, q: int)
    requires Started(procs, procs', p, f) && ChildLinks(procs) && q in procs && procs[q].father in procs
    ensures Clashes(procs', q) ==> Clashes(procs, q)
  {
    StartCorpse(procs, procs', p, f, q);
    hide HasCorpse;
    var a, b := procs[q], procs'[q];
    assert a.father == b.father && a.sealed == b.sealed;
  }

  /** The tables after the slot is filled and the process is queued. */
  ghost predicate StartedTo(s: Sys, t: Sys, p: int) {
    && s.free != [] && p == s.free[0]
    && Started(s.procs, t.procs, p, s.running)
    && t == s.(procs := t.procs, free := s.free[1..], ready := InsertReady(t.procs, s.ready, p))
  }

  lemma StartCore(s: Sys, t: Sys, p: int)
    requires Inv(s) && StartedTo(s, t, p)
    ensures Core(t)
  {
    InvFamilyFacts(s);
    InvParts(s);
    hide Inv, PidsOk, FidsOk, ReadyOk, SleepOk, StatesOk, QueuesOk, DistinctChildren, ChildLinks, FatherLinks;
    hide AllRooted, LifeOk, ChildrenLast, WaitsOk, Started, InsertReady, NoInversion;
    StartPids(s.procs, t.procs, p, s.running, s.free);
    StartReady(s.procs, t.procs, p, s.running, s.ready);
    StartTables(s.procs, t.procs, p, s.running, s.sleepers, s.running);
    StartQueues(s.procs, t.procs, p, s.running, s.queues);
    StartChildLinks(s.procs, t.procs, p, s.running);
    StartFatherLinks(s.procs, t.procs, p, s.running);
    StartAllRooted(s.procs, t.procs, p, s.running);
    StartLife(s.procs, t.procs, p, s.running, s.toZombify, s.toDestroy);
    StartChildrenLast(s.procs, t.procs, p, s.running, s.toDestroy);
    StartWaits(s.procs, t.procs, p, s.running);
  }

  lemma StartMe(procs: Table, procs': Table, p: int, f: int)
    requires Started(procs, procs', p, f)
    ensures f in procs' && procs'[f].state == procs[f].state && procs'[f].deallocated == procs[f].deallocated
    ensures forall q :: q in procs ==>
                          q in procs' && procs'[q].father == procs[q].father && procs'[q].sealed == procs[q].sealed
    ensures forall q :: q in procs ==> Prio(procs', q) == Prio(procs, q)
  {}

  lemma PendingKnown(s: Sys)
    requires Inv(s)
    ensures ChildLinks(s.procs)
    ensures forall p :: p in s.toZombify ==> p in s.procs && s.procs[p].father in s.procs
    ensures forall p :: p in s.ready ==> p in s.procs
  {
    hide FidsOk, SleepOk, QueuesOk, AllRooted, ChildrenLast, NoInversion, Undoomed, WaitsOk, PidsOk, SealedOk;
    hide UncollectedOk;
  }

  lemma StartReapable(s: Sys, t: Sys, p: int)
    requires Inv(s) && StartedTo(s, t, p)
    ensures InSchedule(t) && SealedByRunning(t) && Reapable(t) && Undoomed(t.procs, t.toZombify)
  {
    hide Inv, Core, Started, FamilyCore, ChildLinks, Clashes, InsertReady, HasCorpse;
    StartCore(s, t, p);
    InvFamilyFacts(s);
    StartMe(s.procs, t.procs, p, s.running);
    PendingKnown(s);
    InvUndoomed(s);
    forall q | q in t.toZombify && q != t.running ensures !Clashes(t.procs, q) {
      NoClashBetweenSteps(s, q);
      StartClash(s.procs, t.procs, p, s.running, q);
    }
    forall q | q in t.toZombify && q in t.procs && !t.procs[q].sealed && t.procs[q].father == INIT
      ensures !HasCorpse(t.procs, q)
    {
      assert t.procs[q].father == s.procs[q].father;
      StartCorpse(s.procs, t.procs, p, s.running, q);
    }
  }

  lemma InvUndoomed(s: Sys)
    requires Inv(s)
    ensures Undoomed(s.procs, s.toZombify)
  {
    hide Core;
  }

  lemma StartQuiet(s: Sys, t: Sys, p: int)
    requires Inv(s) && StartedTo(s, t, p) && s.running in s.procs && Prio(t.procs, p) <= Prio(t.procs, s.running)
    ensures Inv(t) && Fair(t)
  {
    hide Core, Started, FamilyCore, ChildLinks, InsertReady, HasCorpse, Undoomed, Frame, QueuesOk, SleepOk;
    hide FidsOk, Reapable, NotAwaitingPending;
    StartReapable(s, t, p);
    InvFamilyFacts(s);
    InvParts(s);
    StartMe(s.procs, t.procs, p, s.running);
    PendingKnown(s);
    InsertReadyMembers(t.procs, s.ready, p);
    FreeShrinks(s, t);
    assert Fair(s);
    assert Fair(t);
  }

  lemma FreeShrinks(s: Sys, t: Sys)
    requires s.free != [] && t.free == s.free[1..]
    ensures Size(s) < MAX_PROCS
  {}

  lemma StartedZombies(s: Sys, t: Sys)
    requires Inv(s) && s.free != [] && StartedTo(s, t, s.free[0])
    ensures KeepsZombies(s, t)
  {
    hide FidsOk, QueuesOk, ChildrenLast, WaitsOk, NoInversion, Undoomed, PidsOk, LifeOk, TreeOk, AllRooted, SleepOk;
    InsertReadyMembers(t.procs, s.ready, s.free[0]);
  }

  /** `start` hands out a pid that was not in use. */
  lemma StartOk(s: Sys, stackSize: int, prio: int, k: bool, u: bool)
    requires Inv(s) && s.running in s.procs && (StartRejects(s, stackSize, prio) || (k && u))
    ensures var r := StartCall(s, stackSize, prio, k, u); r.Ok? && Inv(r.value.sys)
    ensures var r := StartCall(s, stackSize, prio, k, u).value;
            (r.ret != -1 ==> r.ret !in s.procs) && SameQueues(s, r.sys) && CodesKept(s, r.sys) && FairReply(s, r)
  {
    hide Inv, StartedTo, InSchedule, Reapable, SealedByRunning, Schedule, InsertReady, StartRejects;
    hide KeepsZombies, CodesKept, Chosen, Fair;
    if StartRejects(s, stackSize, prio) {
      RejectedStart(s, stackSize, prio, k, u);
    } else {
      var t := StartFills(s, stackSize, prio);
      StartedZombies(s, t);
      ScheduleKeepsCodes(s, t);
      StartedQueues(s, t);
      if prio > Prio(t.procs, s.running) {
        StartReapable(s, t, s.free[0]);
        ScheduleOk(t);
      } else {
        StartQuiet(s, t, s.free[0]);
      }
    }
  }

  lemma RejectedStart(s: Sys, stackSize: int, prio: int, k: bool, u: bool)
    requires StartRejects(s, stackSize, prio)
    ensures StartCall(s, stackSize, prio, k, u) == Return(s, -1) && CodesKept(s, s)
  {}

  lemma StartedQueues(s: Sys, t: Sys)
    requires s.free != [] && StartedTo(s, t, s.free[0])
    ensures SameQueues(s, t) && (KeepsZombies(s, t) ==> CodesKept(s, t))
  {}

  lemma StartFills(s: Sys, stackSize: int, prio: int) returns (t: Sys)
    requires Inv(s) && s.running in s.procs && !StartRejects(s, stackSize, prio)
    ensures s.free != [] && StartedTo(s, t, s.free[0]) && Prio(t.procs, s.free[0]) == prio && s.free[0] !in s.procs
    ensures StartCall(s, stackSize, prio, true, true) == Then(t, prio > Prio(t.procs, s.running), s.free[0], [])
  {
    hide Inv, StartCall, Started, InsertReady;
    FreePid(s);
    t := StartCalc(s, stackSize, prio);
  }

  lemma StartCalc(s: Sys, stackSize: int, prio: int) returns (t: Sys)
    requires s.running in s.procs && !StartRejects(s, stackSize, prio)
    requires s.free[0] !in s.procs && s.free[0] != INIT && s.free[0] !in s.ready && s.running !in {0, NOT_FOUND}
    ensures StartedTo(s, t, s.free[0]) && Prio(t.procs, s.free[0]) == prio
    ensures StartCall(s, stackSize, prio, true, true) == Then(t, prio > Prio(t.procs, s.running), s.free[0], [])
  {
    hide Then, InsertReady;
    var p, f := s.free[0], s.running;
    var procs1 := s.procs[p := NewProc(f, prio)];
    var procs2 := procs1[f := procs1[f].(children := [p] + procs1[f].children)];
    var procs3 := procs2[p := procs2[p].(state := Waiting)];
    t := s.(procs := procs3, free := s.free[1..], ready := InsertReady(procs3, s.ready, p));
    assert Started(s.procs, procs3, p, f);
  }

  lemma FreePid(s: Sys)
    requires Inv(s) && s.free != []
    ensures s.free[0] !in s.procs && s.free[0] != INIT && s.free[0] !in s.ready && s.running != 0
    ensures s.running != NOT_FOUND
  {
    hide FidsOk, SleepOk, QueuesOk, AllRooted, ChildrenLast, NoInversion, Undoomed, WaitsOk, TreeOk, LifeOk;
    var p := s.free[0];
    assert p in s.free;
    var i := s.running;
    assert i in s.procs;
  }
}
