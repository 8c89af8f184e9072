/** `exit` and `kill`: when the death of a process can be handled. */
module DieSteps {
  import opened Lists
  import opened KernelState
  import opened Scheduler
  import opened Syscalls
  import opened Invariant
  import opened QueueLemmas
  import opened FrameLemmas
  import opened ZombifyLemmas
  import opened CleanLemmas
  import opened ScheduleLemmas
  import opened PanicLemmas
  import opened LeaveLemmas
  import opened WakeLemmas
  import opened QueueSteps
  import opened ChPrioSteps
  import opened StartSteps

  ghost predicate Died(procs: Table, procs': Table, p: int) {
    && p in procs && p in procs' && procs[p].state != Zombie
    && procs' == procs[p := procs[p].(state := Zombie, returnCode := procs'[p].returnCode)]
  }

  // ----- lists -----

  lemma DieReady(procs: Table, procs': Table, p: int, ready: seq<int>)
    requires Died(procs, procs', p) && ReadyOk(procs, ready)
    ensures ReadyOk(procs', if procs[p].state == Waiting then Remove(ready, p) else ready)
  {
    assert forall q :: Prio(procs', q) == Prio(procs, q);
    if procs[p].state == Waiting {
      RemoveNoDup(ready, p);
      RemoveSorted(procs', ready, p);
    }
  }

  lemma DieSleep(procs: Table, procs': Table, p: int, sleepers: seq<int>)
    requires Died(procs, procs', p) && SleepOk(procs, sleepers)
    requires procs[p].state == Sleeping ==> sleepers != [] && sleepers[|sleepers| - 1] == p
    ensures SleepOk(procs', if procs[p].state == Sleeping then sleepers[..|sleepers| - 1] else sleepers)
  {
    if procs[p].state == Sleeping {
      var rest := sleepers[..|sleepers| - 1];
      assert sleepers == rest + [p];
      assert forall q :: q in sleepers <==> q in rest || q == p;
      assert p !in rest;
    }
  }

  lemma DieTables(procs: Table, procs': Table, p: int, free: seq<int>, running: int)
    requires Died(procs, procs', p) && PidsOk(procs, free) && StatesOk(procs, running) && p != INIT
    ensures PidsOk(procs', free) && StatesOk(procs', running) && SameMarks(procs, procs') && SameLinks(procs, procs')
  {}

  /** A node of another process is as good as before. */
  lemma NodeSurvives(procs: Table, procs': Table, p: int, f: int, q: Queue, i: nat)
    requires Died(procs, procs', p) && QueueOk(procs, f, q) && i < |q.locked| && q.locked[i].pid != p
    ensures NodeOk(procs', f, q.locked[i])
    ensures procs'[q.locked[i].pid].cont.InSend? ==> |q.messages| == q.size
    ensures procs'[q.locked[i].pid].cont.InReceive? ==> q.messages == []
  {
    assert NodeOk(procs, f, q.locked[i]);
  }

  lemma DieQueue(procs: Table, procs': Table, p: int, f: int, q: Queue)
    requires Died(procs, procs', p) && QueueOk(procs, f, q)
    ensures QueueOk(procs', f, q.(locked := RemovePid(q.locked, p)))
    ensures forall i :: 0 <= i < |q.locked| && q.locked[i].pid != p ==> q.locked[i] in RemovePid(q.locked, p)
  {
    hide Died, DistinctPids, SortedNodes, RemovePid;
    var c := RemovePid(q.locked, p);
    if k :| 0 <= k < |q.locked| && q.locked[k].pid == p {
      CutNode(q.locked, p, k);
      forall i | 0 <= i < |c|
        ensures NodeOk(procs', f, c[i])
        ensures procs'[c[i].pid].cont.InSend? ==> |q.messages| == q.size
        ensures procs'[c[i].pid].cont.InReceive? ==> q.messages == []
      {
        var x := if i < k then i else i + 1;
        assert c[i] == q.locked[x] && c[i].pid != p;
        NodeSurvives(procs, procs', p, f, q, x);
      }
      forall i | 0 <= i < |q.locked| && q.locked[i].pid != p ensures q.locked[i] in c {
        assert c[if i < k then i else i - 1] == q.locked[i];
      }
    } else {
      RemovePidAbsent(q.locked, p);
      forall i | 0 <= i < |q.locked|
        ensures NodeOk(procs', f, q.locked[i])
        ensures procs'[q.locked[i].pid].cont.InSend? ==> |q.messages| == q.size
        ensures procs'[q.locked[i].pid].cont.InReceive? ==> q.messages == []
      {
        NodeSurvives(procs, procs', p, f, q, i);
      }
    }
  }

  lemma DieQueues(procs: Table, procs': Table, p: int, queues: map<int, Queue>)
    requires Died(procs, procs', p) && QueuesOk(procs, queues)
    ensures QueuesOk(procs', NotifyKilled(queues, p))
  {
    var queues' := NotifyKilled(queues, p);
    hide QueueOk, RemovePid;
    forall f | f in queues'
      ensures QueueOk(procs', f, queues'[f])
      ensures forall x :: x != p && ParkedIn(queues, x, f) ==> ParkedIn(queues', x, f)
    {
      DieQueue(procs, procs', p, f, queues[f]);
      forall x | x != p && ParkedIn(queues, x, f) ensures ParkedIn(queues', x, f) {
        var i :| 0 <= i < |queues[f].locked| && queues[f].locked[i].pid == x;
        assert queues[f].locked[i] in queues'[f].locked;
      }
    }
    forall x | x in procs' && procs'[x].state == BlockedByMessage
      ensures (procs'[x].cont.InSend? || procs'[x].cont.InReceive?) && ParkedIn(queues', x, procs'[x].cont.fid)
    {
      assert ParkedIn(queues, x, procs[x].cont.fid);
    }
  }

  lemma DieLife(procs: Table, procs': Table, p: int, toZombify: seq<int>, toDestroy: seq<int>)
    requires Died(procs, procs', p) && LifeOk(procs, toZombify, toDestroy)
    ensures LifeOk(procs', toZombify + [p], toDestroy)
  {
    assert PendingOk(procs', toZombify + [p]) by {
      AppendNoDup(toZombify, p);
      assert forall q :: q in toZombify + [p] <==> q in toZombify || q == p;
    }
    assert SealedOk(procs', toDestroy);
    forall q | q in procs' && procs'[q].deallocated && !procs'[q].sealed
      ensures procs'[q].father != INIT && procs'[q].father in procs' && !procs'[procs'[q].father].deallocated
    {
      var a, b := procs[q], procs'[q];
      assert a.father == b.father;
    }
  }

  lemma DieWaits(procs: Table, procs': Table, p: int)
    requires Died(procs, procs', p) && WaitsOk(procs) && SameMarks(procs, procs')
    ensures WaitsOk(procs')
  {
    forall f | f in procs' ensures WaitOk(procs', f) {
      if f != p {
        assert WaitOk(procs, f);
        MarksWait(procs, procs', f);
      }
    }
  }

  // ----- the state handed to schedule -----

  /** `p` has died: off every list, on the list of processes to zombify. */
  ghost predicate DiedTo(s: Sys, t: Sys, p: int) {
    && Died(s.procs, t.procs, p)
    && t == s.(procs := t.procs,
            ready := if s.procs[p].state == Waiting then Remove(s.ready, p) else s.ready,
            sleepers := if s.procs[p].state == Sleeping && s.sleepers != [] then s.sleepers[..|s.sleepers| - 1]
            else s.sleepers,
                 queues := NotifyKilled(s.queues, p),
                 toZombify := s.toZombify + [p])
  }

  lemma DieCore(s: Sys, t: Sys, p: int)
    requires Inv(s) && DiedTo(s, t, p) && p != INIT
    requires s.procs[p].state == Sleeping ==> s.sleepers != [] && s.sleepers[|s.sleepers| - 1] == p
    ensures Core(t)
  {
    hide Inv, PidsOk, ReadyOk, SleepOk, StatesOk, QueuesOk, TreeOk, AllRooted, LifeOk, ChildrenLast, WaitsOk;
    hide Died, NoInversion, SameMarks, SameLinks;
    InvFamilyFacts(s);
    InvParts(s);
    DiedFacts(s.procs, t.procs, p);
    DieReady(s.procs, t.procs, p, s.ready);
    DieSleep(s.procs, t.procs, p, s.sleepers);
    DieTables(s.procs, t.procs, p, s.free, s.running);
    DieQueues(s.procs, t.procs, p, s.queues);
    LinksTree(s.procs, t.procs);
    LinksAllRooted(s.procs, t.procs);
    DieLife(s.procs, t.procs, p, s.toZombify, s.toDestroy);
    LinksChildrenLast(s.procs, t.procs, s.toDestroy);
    DieWaits(s.procs, t.procs, p);
  }

  lemma DiedFacts(procs: Table, procs': Table, p: int)
    requires Died(procs, procs', p)
    ensures p in procs && p in procs' && procs'[p].state == Zombie && procs[p].state != Zombie
    ensures forall q :: q in procs && q != p ==> q in procs' && procs'[q] == procs[q]
    ensures procs'[p].father == procs[p].father && procs'[p].sealed == procs[p].sealed
    ensures procs'[p].deallocated == procs[p].deallocated && procs'.Keys == procs.Keys
    ensures SameMarks(procs, procs')
  {}

  /** The conditions on the families of `p` and of the process still waiting to be zombified. */
  ghost predicate FamilyAllows(s: Sys, p: int) {
    p in s.procs && p != INIT
    && (p != s.running ==> s.procs[p].father !in s.toZombify)
    && (s.procs[p].father == INIT || s.procs[p].father in s.toZombify ==> !HasCorpse(s.procs, p))
    && (forall r :: r in s.toZombify && r in s.procs && s.procs[r].father == p && !s.procs[r].sealed ==>
                      !HasCorpse(s.procs, r))
  }

  /** A process that is not a zombie has a father that is not one, unless that one is still pending. */
  lemma LiveFather(procs: Table, toZombify: seq<int>, p: int)
    requires FatherLinks(procs) && UncollectedOk(procs) && PendingOk(procs, toZombify)
    requires p in procs && p != INIT && procs[p].state != Zombie
    ensures procs[p].father in procs
    ensures procs[procs[p].father].state == Zombie ==> procs[p].father in toZombify
  {
    var f := procs[p].father;
    assert p in procs[f].children;
  }

  lemma DieNoClash(s: Sys, t: Sys, p: int, q: int)
    requires Inv(s) && DiedTo(s, t, p) && FamilyAllows(s, p) && q in t.toZombify && q != t.running
    ensures !Clashes(t.procs, q)
  {
    hide Inv, Died, SameMarks, HasCorpse, FatherLinks, ChildLinks, UncollectedOk, PendingOk, Undoomed;
    DiedFacts(s.procs, t.procs, p);
    MarksCorpse(s.procs, t.procs, q);
    WaitLinks(s);
    InvUndoomed(s);
    if q == p {
      NotOwnFather(s, p);
      LiveFather(s.procs, s.toZombify, p);
    } else {
      PendingNoClash(s, q);
    }
  }

  /** What a quiescent state says of its pending process. */
  lemma PendingNoClash(s: Sys, r: int)
    requires Inv(s) && r in s.toZombify
    ensures r in s.procs && s.procs[r].father in s.procs
    ensures !s.procs[r].sealed ==> s.procs[s.procs[r].father].state != Zombie
    ensures !s.procs[r].sealed && s.procs[r].father == INIT ==> !HasCorpse(s.procs, r)
  {
    OutsideFamily(s.procs, r);
    hide PidsOk, FidsOk, ReadyOk, SleepOk, QueuesOk, ChildrenLast, WaitsOk, NoInversion, AllRooted, DistinctChildren;
    hide ChildLinks, FatherLinks, UncollectedOk, HasCorpse;
    if !s.procs[r].sealed {
      PendingFatherAlive(s.procs, s.toZombify, r);
    }
  }

  lemma NotOwnFather(s: Sys, p: int)
    requires Inv(s) && p in s.procs && p != INIT
    ensures s.procs[p].father != p
  {
    hide FidsOk, ReadyOk, SleepOk, QueuesOk, ChildrenLast, WaitsOk, NoInversion, Undoomed, PidsOk, LifeOk;
    hide TreeOk, AllRooted;
    OutsideFamily(s.procs, p);
  }

  lemma WaitLinks(s: Sys)
    requires Inv(s)
    ensures UncollectedOk(s.procs) && FatherLinks(s.procs) && ChildLinks(s.procs) && PendingOk(s.procs, s.toZombify)
  {
    hide FidsOk, ReadyOk, SleepOk, QueuesOk, AllRooted, SealedOk, ChildrenLast, WaitsOk, NoInversion, Undoomed, PidsOk;
    hide UncollectedOk, FatherLinks, ChildLinks, PendingOk;
  }

  lemma DieReapable(s: Sys, t: Sys, p: int)
    requires Inv(s) && DiedTo(s, t, p) && FamilyAllows(s, p)
    requires s.procs[p].state == Sleeping ==> s.sleepers != [] && s.sleepers[|s.sleepers| - 1] == p
    ensures InSchedule(t) && SealedByRunning(t) && Reapable(t)
  {
    hide Inv, Core, Died, SameMarks, HasCorpse, Clashes, FamilyCore;
    InvFamilyFacts(s);
    DieCore(s, t, p);
    DiedFacts(s.procs, t.procs, p);
    forall q | q in t.toZombify && q != t.running ensures !Clashes(t.procs, q) {
      DieNoClash(s, t, p, q);
    }
    MarksCorpse(s.procs, t.procs, p);
    NotOwnFather(s, p);
    if |s.toZombify| == 1 {
      var r := s.toZombify[0];
      assert r in s.toZombify && t.toZombify == [r, p];
      MarksCorpse(s.procs, t.procs, r);
    } else {
      assert t.toZombify == [p];
    }
  }

  // ----- the calls -----

  lemma DiedZombies(s: Sys, t: Sys, p: int)
    requires Inv(s) && DiedTo(s, t, p)
    ensures KeepsZombies(s, t)
  {
    hide FidsOk, QueuesOk, ChildrenLast, WaitsOk, NoInversion, Undoomed, PidsOk, LifeOk, TreeOk, AllRooted, SleepOk;
  }

  lemma DieOk(s: Sys, t: Sys, p: int)
    requires Inv(s) && DiedTo(s, t, p) && FamilyAllows(s, p)
    requires s.procs[p].state == Sleeping ==> s.sleepers != [] && s.sleepers[|s.sleepers| - 1] == p
    ensures Schedule(t).Ok? && Inv(Schedule(t).value) && SameQueues(t, Schedule(t).value)
    ensures CodesKept(s, Schedule(t).value)
    ensures Chosen(t, Schedule(t).value)
  {
    hide Inv, DiedTo, FamilyAllows, InSchedule, SealedByRunning, Reapable, Schedule;
    DieReapable(s, t, p);
    ScheduleOk(t);
    DiedZombies(s, t, p);
    ScheduleKeepsCodes(s, t);
  }

  lemma ExitCalc(s: Sys, code: int) returns (t: Sys)
    requires s.running in s.procs && s.procs[s.running].state == Running
    ensures DiedTo(s, t, s.running) && ExitCall(s, code) == Then(t, true, 0, [])
    ensures t.procs[s.running].returnCode == code
  {
    hide Then, NotifyKilled;
    var p := s.running;
    t := s.(procs := s.procs[p := s.procs[p].(state := Zombie, returnCode := code)],
    queues := NotifyKilled(s.queues, p), toZombify := s.toZombify + [p]);
    assert s.procs[p := s.procs[p].(returnCode := code)][p := s.procs[p].(state := Zombie, returnCode := code)] ==
           t.procs;
  }

  lemma ExitOk(s: Sys, code: int)
    requires Inv(s) && FamilyAllows(s, s.running)
    ensures var r := ExitCall(s, code);
            r.Ok? && Inv(r.value.sys) && r.value.sys.queues == NotifyKilled(s.queues, s.running)
    ensures CodesKept(s, ExitCall(s, code).value.sys) && FairReply(s, ExitCall(s, code).value)
  {
    InvParts(s);
    hide Inv, Died, FamilyAllows, Schedule, ExitCall, Frame, SleepOk, FidsOk, QueuesOk, NotifyKilled;
    var t := ExitCalc(s, code);
    DieOk(s, t, s.running);
  }

  predicate KillRejects(s: Sys, p: int) {
    !ValidPid(p) || p !in s.procs || s.procs[p].state == Zombie
  }

  lemma KillCalc(s: Sys, p: int) returns (t: Sys)
    requires !KillRejects(s, p)
    requires s.procs[p].state == Waiting ==> p != s.running && p in s.ready
    requires s.procs[p].state == Running ==> p == s.running
    requires s.procs[p].state != Unset
    requires s.procs[p].state == Sleeping ==> s.sleepers != []
    ensures DiedTo(s, t, p) && KillCall(s, p) == Then(t, true, 0, Withdraw(s, p)) && t.procs[p].returnCode == 0
  {
    hide Then, NotifyKilled, Withdraw, Remove;
    var procs' := s.procs[p := s.procs[p].(state := Zombie, returnCode := 0)];
    t := s.(procs := procs',
    ready := if s.procs[p].state == Waiting then Remove(s.ready, p) else s.ready,
    sleepers := if s.procs[p].state == Sleeping && s.sleepers != [] then s.sleepers[..|s.sleepers| - 1] else s.sleepers,
    queues := NotifyKilled(s.queues, p),
    toZombify := s.toZombify + [p]);
    assert s.procs[p := s.procs[p].(returnCode := 0)][p := s.procs[p].(state := Zombie, returnCode := 0)] == procs';
  }

  /** The killed process is not asleep, or is the last entry of the sleeper array. */
  predicate LastSleeper(s: Sys, p: int) {
    p in s.procs && (s.procs[p].state == Sleeping ==> s.sleepers != [] && s.sleepers[|s.sleepers| - 1] == p)
  }

  lemma Whereabouts(s: Sys, p: int)
    requires Inv(s) && p in s.procs
    ensures s.procs[p].state == Waiting ==> p != s.running && p in s.ready
    ensures s.procs[p].state == Running ==> p == s.running
    ensures s.procs[p].state == Sleeping ==> p in s.sleepers
    ensures s.procs[p].state != Unset
  {
    hide FidsOk, QueuesOk, ChildrenLast, WaitsOk, NoInversion, Undoomed, PidsOk, LifeOk, TreeOk, AllRooted;
  }

  lemma KillOk(s: Sys, p: int)
    requires Inv(s) && (KillRejects(s, p) || (FamilyAllows(s, p) && LastSleeper(s, p)))
    ensures var r := KillCall(s, p); r.Ok? && Inv(r.value.sys)
    ensures !KillRejects(s, p) ==> KillCall(s, p).value.sys.queues == NotifyKilled(s.queues, p)
    ensures CodesKept(s, KillCall(s, p).value.sys) && FairReply(s, KillCall(s, p).value)
  {
    hide Inv, Died, FamilyAllows, Schedule, Withdraw, NotifyKilled;
    if !KillRejects(s, p) {
      Whereabouts(s, p);
      var t := KillCalc(s, p);
      DieOk(s, t, p);
    }
  }
}
