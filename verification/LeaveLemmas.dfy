/** The running process blocks, sleeps or is preempted, and `schedule` takes over. */
module LeaveLemmas {
  import opened Lists
  import opened KernelState
  import opened Scheduler
  import opened Invariant
  import opened FrameLemmas
  import opened ZombifyLemmas
  import opened CleanLemmas
  import opened ScheduleLemmas
  import opened PanicLemmas

  // ----- entering schedule with nothing new pending -----

  /** The father of the one pending process is alive. */
  lemma PendingFatherAlive(procs: Table, toZombify: seq<int>, p: int)
    requires FatherLinks(procs) && UncollectedOk(procs) && PendingOk(procs, toZombify)
    requires |toZombify| <= 1 && p in toZombify && p != INIT && !procs[p].sealed && procs[p].father != p
    ensures procs[p].father in procs && procs[procs[p].father].state != Zombie
  {
    var f := procs[p].father;
    assert p in procs[f].children;
    assert toZombify == [p];
    assert f !in toZombify;
  }

  lemma NoClashBetweenSteps(s: Sys, p: int)
    requires Inv(s) && p in s.toZombify
    ensures !Clashes(s.procs, p)
  {
    OutsideFamily(s.procs, p);
    hide PidsOk, FidsOk, ReadyOk, SleepOk, QueuesOk, ChildrenLast, WaitsOk, NoInversion, AllRooted, DistinctChildren;
    hide ChildLinks, FatherLinks, UncollectedOk, HasCorpse;
    if !s.procs[p].sealed {
      PendingFatherAlive(s.procs, s.toZombify, p);
    }
  }

  lemma FamilyClash(procs: Table, procs': Table, p: int)
    requires SameFamily(procs, procs')
    ensures Clashes(procs, p) <==> Clashes(procs', p)
  {
    FamilyCorpse(procs, procs', p);
    hide HasCorpse;
    if p in procs && procs[p].father in procs {
      var a, b := procs[procs[p].father], procs'[procs[p].father];
      assert a.state == Zombie <==> b.state == Zombie;
    }
  }

  lemma InvFamilyFacts(s: Sys)
    requires Inv(s)
    ensures s.running in s.procs && s.procs[s.running].state == Running && FamilyCore(s)
    ensures |s.toZombify| <= 1 && s.running !in s.toZombify && s.running !in s.toDestroy
    ensures !s.procs[s.running].deallocated && s.running != 0
    ensures forall c :: c in s.toDestroy ==> c in s.procs && s.procs[c].father == s.running
  {
    hide FidsOk, ReadyOk, SleepOk, QueuesOk, TreeOk, AllRooted, ChildrenLast, WaitsOk, NoInversion, Undoomed;
    var i := s.running;
    assert i in s.procs;
  }

  /** Same family as a quiescent state: `schedule` can be entered. */
  lemma FamilyReapable(s: Sys, t: Sys)
    requires Inv(s) && SameFamily(s.procs, t.procs)
    requires t.toZombify == s.toZombify && t.toDestroy == s.toDestroy && t.running == s.running
    ensures SealedByRunning(t) && Reapable(t) && t.running !in t.toDestroy
    ensures t.running in t.procs && !t.procs[t.running].deallocated && t.running != 0
    ensures FamilyCore(t)
  {
    InvFamilyFacts(s);
    hide Inv, FamilyCore;
    KeepsFamilyCore(s, t);
    forall p | p in t.toZombify && p != t.running ensures !Clashes(t.procs, p) {
      NoClashBetweenSteps(s, p);
      FamilyClash(s.procs, t.procs, p);
    }
    forall c | c in t.toDestroy && c in t.procs ensures t.procs[c].father == t.running {
      var a, b := s.procs[c], t.procs[c];
      assert a.father == b.father;
    }
  }

  // ----- a change of the running process only -----

  ghost predicate OnlyMe(procs: Table, procs': Table, me: int) {
    && me in procs && procs'.Keys == procs.Keys
    && (forall q :: q in procs && q != me ==> procs'[q] == procs[q])
    && procs'[me].father == procs[me].father && procs'[me].children == procs[me].children
    && procs'[me].deallocated == procs[me].deallocated && procs'[me].sealed == procs[me].sealed
    && procs'[me].prio == procs[me].prio && procs'[me].returnCode == procs[me].returnCode
    && procs[me].state == Running && procs'[me].state !in {Zombie, Unset, Waiting}
  }

  lemma MeFamily(procs: Table, procs': Table, me: int)
    requires OnlyMe(procs, procs', me)
    ensures SameFamily(procs, procs')
  {}

  lemma MePids(procs: Table, procs': Table, me: int, free: seq<int>)
    requires OnlyMe(procs, procs', me) && PidsOk(procs, free)
    ensures PidsOk(procs', free)
  {}

  lemma MeReady(procs: Table, procs': Table, me: int, ready: seq<int>)
    requires OnlyMe(procs, procs', me) && ReadyOk(procs, ready)
    ensures ReadyOk(procs', ready)
  {
    assert forall q :: Prio(procs', q) == Prio(procs, q);
  }

  lemma MeSleep(procs: Table, procs': Table, me: int, sleepers: seq<int>)
    requires OnlyMe(procs, procs', me) && SleepOk(procs, sleepers)
    ensures SleepOk(procs', if procs'[me].state == Sleeping then sleepers + [me] else sleepers)
  {
    if procs'[me].state == Sleeping {
      AppendNoDup(sleepers, me);
      assert forall q :: q in sleepers + [me] <==> q in sleepers || q == me;
    }
  }

  lemma MeStates(procs: Table, procs': Table, me: int)
    requires OnlyMe(procs, procs', me) && StatesOk(procs, me)
    requires me == INIT ==> procs'[me].state == Running && procs'[me].cont == Idle
    ensures StatesOk(procs', me)
  {}

  lemma MeQueues(procs: Table, procs': Table, me: int, queues: map<int, Queue>)
    requires OnlyMe(procs, procs', me) && QueuesOk(procs, queues) && procs'[me].state != BlockedByMessage
    ensures QueuesOk(procs', queues)
  {
    forall f | f in queues ensures QueueOk(procs', f, queues[f]) {
      assert QueueOk(procs, f, queues[f]);
      forall i | 0 <= i < |queues[f].locked| ensures NodeOk(procs', f, queues[f].locked[i]) {
        assert NodeOk(procs, f, queues[f].locked[i]);
      }
    }
  }

  lemma MeWaits(procs: Table, procs': Table, me: int)
    requires OnlyMe(procs, procs', me) && WaitsOk(procs) && WaitOk(procs', me)
    ensures WaitsOk(procs')
  {
    MeFamily(procs, procs', me);
    forall f | f in procs' ensures WaitOk(procs', f) {
      if f != me {
        assert WaitOk(procs, f);
        FamilyWait(procs, procs', f);
      }
    }
  }

  /** The running process leaves the processor. `QueuesOk` is left to the caller. */
  lemma LeaveOk(s: Sys, t: Sys)
    requires Inv(s) && OnlyMe(s.procs, t.procs, s.running)
    requires t == s.(procs := t.procs, queues := t.queues,
                  sleepers := if t.procs[s.running].state == Sleeping then s.sleepers + [s.running] else s.sleepers)
    requires s.running == INIT ==> t.procs[s.running].state == Running && t.procs[s.running].cont == Idle
    requires FidsOk(t.queues, t.freeFids) && QueuesOk(t.procs, t.queues) && WaitOk(t.procs, s.running)
    requires NotAwaitingPending(t.procs, t.running, t.toZombify)
    ensures Schedule(t).Ok? && Inv(Schedule(t).value) && SameQueues(t, Schedule(t).value)
    ensures CodesKept(s, Schedule(t).value)
    ensures Chosen(t, Schedule(t).value)
  {
    LeaveParts(s, t);
    FamilyZombies(s, t) by { MeFamily(s.procs, t.procs, s.running); }
    hide Inv, InSchedule, SealedByRunning, Reapable, Schedule;
    ScheduleKeepsCodes(s, t);
    MeFamily(s.procs, t.procs, s.running);
    FamilyReapable(s, t);
    LeaveInSchedule(s, t);
    ScheduleOk(t);
  }

  /** Same family, and nobody in the ready queue but the waiting. */
  lemma FamilyZombies(s: Sys, t: Sys)
    requires SameFamily(s.procs, t.procs) && ReadyOk(t.procs, t.ready)
    ensures KeepsZombies(s, t)
  {}

  lemma LeaveParts(s: Sys, t: Sys)
    requires Inv(s) && OnlyMe(s.procs, t.procs, s.running)
    requires t == s.(procs := t.procs, queues := t.queues,
                  sleepers := if t.procs[s.running].state == Sleeping then s.sleepers + [s.running] else s.sleepers)
    requires s.running == INIT ==> t.procs[s.running].state == Running && t.procs[s.running].cont == Idle
    requires WaitOk(t.procs, s.running)
    ensures PidsOk(t.procs, t.free) && ReadyOk(t.procs, t.ready) && SleepOk(t.procs, t.sleepers)
    ensures StatesOk(t.procs, t.running) && WaitsOk(t.procs) && t.procs[t.running].state != Waiting
  {
    assert t.procs[t.running].state != Waiting;
    hide PidsOk, ReadyOk, SleepOk, StatesOk, WaitsOk, OnlyMe, QueuesOk, TreeOk, AllRooted, LifeOk;
    hide ChildrenLast, FidsOk, Undoomed, NoInversion, WaitOk;
    MePids(s.procs, t.procs, s.running, s.free);
    MeReady(s.procs, t.procs, s.running, s.ready);
    MeSleep(s.procs, t.procs, s.running, s.sleepers);
    MeStates(s.procs, t.procs, s.running);
    MeWaits(s.procs, t.procs, s.running);
  }

  lemma LeaveInSchedule(s: Sys, t: Sys)
    requires PidsOk(t.procs, t.free) && ReadyOk(t.procs, t.ready) && SleepOk(t.procs, t.sleepers)
    requires StatesOk(t.procs, t.running) && WaitsOk(t.procs) && FidsOk(t.queues, t.freeFids)
    requires QueuesOk(t.procs, t.queues)
    requires FamilyCore(t) && t.running in t.procs && t.procs[t.running].state != Waiting
    requires !t.procs[t.running].deallocated && t.running !in t.toDestroy
    requires NotAwaitingPending(t.procs, t.running, t.toZombify)
    ensures InSchedule(t)
  {
    hide PidsOk, ReadyOk, SleepOk, StatesOk, WaitsOk, QueuesOk, TreeOk, AllRooted, LifeOk, ChildrenLast;
    hide FidsOk, NotAwaitingPending;
  }
}
