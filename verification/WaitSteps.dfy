/** `waitpid` and the resumption of suspended calls keep the invariant. */
module WaitSteps {
  import opened KernelState
  import opened Scheduler
  import opened Syscalls
  import opened Invariant
  import opened FrameLemmas
  import opened CleanLemmas
  import opened ScheduleLemmas
  import opened PanicLemmas
  import opened LeaveLemmas
  import opened WakeLemmas
  import opened QueueSteps
  import opened CollectLemmas

  lemma {:induction false} FindZombieOk(procs: Table, cs: seq<int>)
    ensures var z := FindZombie(procs, cs);
            && (z != NOT_FOUND ==> z in cs && z in procs && !procs[z].sealed && procs[z].state == Zombie)
            && (z == NOT_FOUND && NOT_FOUND !in procs ==>
                  forall c :: c in cs && c in procs && !procs[c].sealed ==> procs[c].state != Zombie)
  {
    if cs != [] {
      FindZombieOk(procs, cs[1..]);
      assert forall c :: c in cs <==> c == cs[0] || c in cs[1..];
    }
  }

  lemma {:induction false} CountUnsealedOk(procs: Table, cs: seq<int>)
    ensures CountUnsealed(procs, cs) > 0 <==> exists c :: c in cs && c in procs && !procs[c].sealed
  {
    if cs != [] {
      CountUnsealedOk(procs, cs[1..]);
      assert forall c :: c in cs <==> c == cs[0] || c in cs[1..];
    }
  }

  /** The call would block: a child to wait for exists and no awaited child is a zombie yet. */
  predicate WaitBlocks(s: Sys, p: int) {
    s.running in s.procs &&
    (if p < 0 then
       FindZombie(s.procs, s.procs[s.running].children) == NOT_FOUND
       && CountUnsealed(s.procs, s.procs[s.running].children) > 0
     else
       ValidPid(p) && p in s.procs && !s.procs[p].sealed && s.procs[p].father == s.running
       && s.procs[p].state != Zombie)
  }

  lemma CollectOk(s: Sys, s1: Sys, c: int)
    requires Inv(s) && CanCollect(s, c)
    requires s1 == s.(procs := s.procs[s.running := s.procs[s.running].(cont := Idle)])
    ensures var r := Collect(s1, c);
            r.Ok? && Inv(r.value.sys) && r.value.ret == c && r.value.out == s.procs[c].returnCode
    ensures SameQueues(s, Collect(s1, c).value.sys) && CodesKept(s, Collect(s1, c).value.sys)
    ensures FairReply(s, Collect(s1, c).value)
  {
    hide Inv, PidsOk, ReadyOk, SleepOk, StatesOk, ChildLinks, SealedTo, Collect;
    CollectFacts(s, c);
    CollectEffect(s, s1, c);
    SealedCodes(s, Collect(s1, c).value.sys, c);
    SealKeepsInv(s, Collect(s1, c).value.sys, c);
    SealedFair(s, Collect(s1, c).value.sys, c);
  }

  lemma CollectEffect(s: Sys, s1: Sys, c: int)
    requires CanCollect(s, c) && c != s.running
    requires s1 == s.(procs := s.procs[s.running := s.procs[s.running].(cont := Idle)])
    ensures Collect(s1, c).Ok?
    ensures var r := Collect(s1, c).value;
            && r.ret == c && r.out == s.procs[c].returnCode && r.entry == NotScheduled
            && SealedTo(s.procs, r.sys.procs, s.running, c)
            && r.sys == s.(procs := r.sys.procs, toDestroy := s.toDestroy + [c])
  {}

  lemma SealedFair(s: Sys, t: Sys, c: int)
    requires SealedTo(s.procs, t.procs, s.running, c) && t.running == s.running && t.ready == s.ready
    ensures Fair(s) ==> Fair(t)
  {
    assert forall q :: Prio(t.procs, q) == Prio(s.procs, q);
  }

  lemma SealedCodes(s: Sys, t: Sys, c: int)
    requires SealedTo(s.procs, t.procs, s.running, c)
    ensures CodesKept(s, t)
  {}

  lemma WaitMe(s: Sys, p: int)
    requires WaitBlocks(s, p) && s.procs[s.running].state == Running && s.running != INIT
    requires UncollectedOk(s.procs) && FatherLinks(s.procs) && ChildLinks(s.procs) && PendingOk(s.procs, s.toZombify)
    requires NOT_FOUND !in s.procs && INIT in s.procs && s.procs[INIT].father == NOT_FOUND
    ensures var code := if p < 0 then -1 else p;
            var procs' := s.procs[s.running :=
                          s.procs[s.running].(state := BlockedByChild, waitingCode := code, cont := InWait(p))];
            && OnlyMe(s.procs, procs', s.running) && WaitOk(procs', s.running)
            && NotAwaitingPending(procs', s.running, s.toZombify)
  {
    var code := if p < 0 then -1 else p;
    var me := s.running;
    var procs' := s.procs[me := s.procs[me].(state := BlockedByChild, waitingCode := code, cont := InWait(p))];
    var cs := s.procs[me].children;
    if p < 0 {
      FindZombieOk(s.procs, cs);
      CountUnsealedOk(s.procs, cs);
      var c :| c in cs && c in s.procs && !s.procs[c].sealed;
      assert Awaited(procs', me, c);
    } else {
      var a := s.procs[p];
      assert a.father == me && p in cs;
      assert Awaited(procs', me, p);
    }
  }

  lemma WaitFacts(s: Sys)
    requires Inv(s)
    ensures s.running in s.procs && s.procs[s.running].state == Running
    ensures UncollectedOk(s.procs) && FatherLinks(s.procs) && ChildLinks(s.procs) && PendingOk(s.procs, s.toZombify)
    ensures NOT_FOUND !in s.procs && INIT in s.procs && s.procs[INIT].father == NOT_FOUND
  {
    hide FidsOk, ReadyOk, SleepOk, QueuesOk, AllRooted, SealedOk, ChildrenLast, WaitsOk, NoInversion, Undoomed;
    hide UncollectedOk, FatherLinks, ChildLinks, PendingOk;
  }

  lemma BlockOk(s: Sys, p: int)
    requires Inv(s) && s.running in s.procs && s.running != INIT && WaitBlocks(s, p)
    ensures var r := BlockOnChild(s, p, if p < 0 then -1 else p);
            r.Ok? && Inv(r.value.sys) && SameQueues(s, r.value.sys) && CodesKept(s, r.value.sys)
            && FairReply(s, r.value)
  {
    hide Inv, UncollectedOk, FatherLinks, ChildLinks, PendingOk, Frame, SleepOk, FidsOk, QueuesOk, NoInversion;
    hide OnlyMe, WaitOk, NotAwaitingPending, Schedule, WaitBlocks;
    WaitFacts(s);
    InvParts(s);
    WaitMe(s, p);
    var t := s.(procs := s.procs[s.running := s.procs[s.running].(state := BlockedByChild,
    waitingCode := if p < 0 then -1 else p, cont := InWait(p))]);
    MeQueues(s.procs, t.procs, s.running, s.queues);
    LeaveOk(s, t);
  }

  lemma ChildOfMe(s: Sys, p: int)
    requires Inv(s) && p in s.procs && s.procs[p].father == s.running
    ensures s.running in s.procs && p in s.procs[s.running].children
  {
    hide FidsOk, ReadyOk, SleepOk, QueuesOk, AllRooted, LifeOk, ChildrenLast, WaitsOk, NoInversion, Undoomed;
  }

  lemma WaitPidOk(s: Sys, p: int)
    requires Inv(s) && s.running in s.procs && s.procs[s.running].cont == Idle
    requires s.running == INIT ==> !WaitBlocks(s, p)
    ensures var r := WaitPidCall(s, p);
            r.Ok? && Inv(r.value.sys) && SameQueues(s, r.value.sys) && CodesKept(s, r.value.sys)
            && FairReply(s, r.value)
  {
    hide Inv, BlockOnChild, Collect;
    assert s == s.(procs := s.procs[s.running := s.procs[s.running].(cont := Idle)]);
    var cs := s.procs[s.running].children;
    if p < 0 {
      var z := FindZombie(s.procs, cs);
      FindZombieOk(s.procs, cs);
      if z != NOT_FOUND {
        CollectOk(s, s, z);
      } else if CountUnsealed(s.procs, cs) > 0 {
        BlockOk(s, p);
      }
    } else if ValidPid(p) && p in s.procs && !s.procs[p].sealed && s.procs[p].father == s.running {
      ChildOfMe(s, p);
      if s.procs[p].state == Zombie {
        CollectOk(s, s, p);
      } else {
        BlockOk(s, p);
      }
    }
  }

  // ----- resumption -----

  /** No wake-up is lost: the father that runs again finds the zombie it was told about. */
  lemma WokenCanCollect(s: Sys)
    requires Inv(s) && s.running in s.procs && s.procs[s.running].cont.InWait?
    ensures var me := s.procs[s.running];
            var c := if me.cont.target < 0 then me.waitingCode else me.cont.target;
            ValidPid(c) && CanCollect(s, c) && s.procs[c].deallocated
  {
    hide FidsOk, ReadyOk, SleepOk, QueuesOk, AllRooted, ChildrenLast, NoInversion, Undoomed, FatherLinks;
    hide DistinctChildren, SealedOk, PendingOk;
    assert WaitOk(s.procs, s.running);
  }

  lemma IdleMe(s: Sys)
    requires s.running in s.procs && s.procs[s.running].state == Running
    ensures var procs' := s.procs[s.running := s.procs[s.running].(cont := Idle)];
            && OnlyMe(s.procs, procs', s.running) && WaitOk(procs', s.running) && SameFamily(s.procs, procs')
            && (forall p :: Prio(procs', p) == Prio(s.procs, p))
  {}

  lemma IdleOk(s: Sys, t: Sys)
    requires Inv(s) && s.running in s.procs
    requires t == s.(procs := s.procs[s.running := s.procs[s.running].(cont := Idle)], released := t.released)
    ensures Inv(t) && (Fair(s) ==> Fair(t))
  {
    hide Inv, Frame, SleepOk, FidsOk, QueuesOk, OnlyMe, WaitOk, SameFamily, Prio, PidsOk, ReadyOk, StatesOk;
    hide WaitsOk, FamilyCore;
    InvParts(s);
    IdleMe(s);
    MeQueues(s.procs, t.procs, s.running, s.queues);
    var u := s.(procs := t.procs);
    LeaveParts(s, u) by { InitIdle(s); }
    KeepsFamilyCore(s, u) by { InvFamilyFacts(s); }
    assert Frame(t) by { FrameOf(u, t); }
    WokeQuiet(s, t);
  }

  lemma FrameOf(u: Sys, t: Sys)
    requires PidsOk(u.procs, u.free) && ReadyOk(u.procs, u.ready) && StatesOk(u.procs, u.running)
    requires WaitsOk(u.procs) && FamilyCore(u) && t == u.(released := t.released)
    ensures Frame(t)
  {}

  lemma InitIdle(s: Sys)
    requires Inv(s)
    ensures s.running in s.procs && s.procs[s.running].state == Running
  {
    hide FidsOk, ReadyOk, SleepOk, QueuesOk, AllRooted, ChildrenLast, NoInversion, Undoomed, TreeOk, LifeOk, WaitsOk;
  }

  lemma ResumeOk(s: Sys)
    requires Inv(s) && s.running in s.procs && s.procs[s.running].cont != Idle
    ensures var r := ResumeCall(s);
            r.Ok? && Inv(r.value.sys) && r.value.sys.queues == s.queues && CodesKept(s, r.value.sys)
            && FairReply(s, r.value)
    ensures var me := s.procs[s.running];
            var r := ResumeCall(s).value;
            me.cont.InWait? ==> r.ret in s.procs && s.procs[r.ret].state == Zombie
                                && r.ret in me.children && r.out == s.procs[r.ret].returnCode
                                && (me.cont.target >= 0 ==> r.ret == me.cont.target)
    ensures var me := s.procs[s.running];
            var r := ResumeCall(s).value;
            me.cont.InSend? || me.cont.InReceive? ==>
              && r.ret in {0, -1} && (r.ret == -1 <==> s.running in s.released) && s.running !in r.sys.released
              && (me.cont.InReceive? ==> r.out == me.inbox)
  {
    hide Inv, Collect;
    var me := s.procs[s.running];
    var s1 := s.(procs := s.procs[s.running := me.(cont := Idle)]);
    if me.cont.InWait? {
      var c := if me.cont.target < 0 then me.waitingCode else me.cont.target;
      WokenCanCollect(s);
      CollectOk(s, s1, c);
    } else {
      IdleOk(s, s1);
      IdleOk(s, s1.(released := s.released - {s.running}));
    }
  }
}
