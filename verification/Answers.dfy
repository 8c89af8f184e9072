/** What every event answers: the value it returns, what it writes through its pointer argument, the state it
    leaves, and whether it calls `schedule`, from every state with the invariant.  Each case is told by its own
    condition on the state, and the cases of one event cover all states. */
module Answers {
  import opened Lists
  import opened Outcomes
  import opened KernelState
  import opened Scheduler
  import opened Syscalls
  import opened Invariant
  import opened WakeLemmas
  import opened QueueSteps
  import opened ResetSteps
  import opened ClockSteps
  import opened WaitSteps
  import opened ChPrioSteps
  import opened StartSteps
  import opened DieSteps
  import opened Runs
  import opened WakeOrder

  /** The call is over, nobody else runs, and the kernel is in state `t`. */
  predicate Returns(r: Outcome<Reply>, ret: int, out: int, t: Sys) {
    r.Ok? && r.value.ret == ret && r.value.out == out && r.value.sys == t && r.value.entry == NotScheduled
  }

  /** The call has left its value, reached state `t` and, if `reschedule`, calls `schedule` there. */
  predicate Ends(r: Outcome<Reply>, reschedule: bool, ret: int, out: int, t: Sys) {
    if reschedule then Blocks(r, t) && (r.Ok? ==> r.value.ret == ret && r.value.out == out)
    else Returns(r, ret, out, t)
  }

  /** The call goes into `schedule` from state `t`, and panics exactly when that does. */
  predicate Blocks(r: Outcome<Reply>, t: Sys) {
    match Schedule(t)
    case Panic => r.Panic?
    case Ok(u) => r.Ok? && r.value.sys == u && r.value.entry == Scheduled(t)
  }

  lemma ThenEnds(t: Sys, reschedule: bool, ret: int, effects: seq<Effect>)
    ensures Ends(Then(t, reschedule, ret, effects), reschedule, ret, 0, t)
  {
    hide Schedule;
  }

  // ----- waitpid -----

  /** A child of the running process that nobody has collected. */
  predicate Mine(s: Sys, c: int) {
    c in s.procs && s.procs[c].father == s.running && !s.procs[c].sealed
  }

  predicate DeadChild(s: Sys, c: int) {
    Mine(s, c) && s.procs[c].state == Zombie
  }

  /** The child has been collected: it is sealed, and the last of those waiting to be destroyed. */
  function Collected(s: Sys, c: int): Sys
    requires c in s.procs
  {
    s.(procs := s.procs[c := s.procs[c].(sealed := true)], toDestroy := s.toDestroy + [c])
  }

  /** The caller is blocked until a child it waits for dies. */
  function Awaiting(s: Sys, target: int, code: int): Sys
    requires s.running in s.procs
  {
    s.(procs := s.procs[s.running :=
       s.procs[s.running].(state := BlockedByChild, waitingCode := code, cont := InWait(target))])
  }

  /** The child list holds exactly the children. */
  lemma MyChildren(s: Sys)
    requires Inv(s)
    ensures s.running in s.procs && s.running != NOT_FOUND
    ensures forall c :: c in s.procs[s.running].children <==> c in s.procs && s.procs[c].father == s.running
    ensures forall c :: c in s.procs ==> 1 <= c <= 512
  {
    hide FidsOk, ReadyOk, SleepOk, QueuesOk, AllRooted, ChildrenLast, NoInversion, Undoomed, WaitsOk, LifeOk;
    hide DistinctChildren;
    var me := s.running;
    assert me in s.procs;
    forall c | c in s.procs && s.procs[c].father == me ensures c in s.procs[me].children {
      assert c != INIT;
    }
  }

  /** `waitpid` on one process. */
  lemma WaitForOne(s: Sys, p: int)
    requires Inv(s) && p >= 0
    ensures var r := Step(s, WaitPid(p));
            && (!Mine(s, p) ==> Returns(r, -1, 0, s))
            && (DeadChild(s, p) ==> Returns(r, p, s.procs[p].returnCode, Collected(s, p)))
            && (Mine(s, p) && !DeadChild(s, p) ==> s.running in s.procs && Blocks(r, Awaiting(s, p, p)))
  {
    hide Inv, Schedule;
    MyChildren(s);
  }

  lemma {:induction false} FirstFound(procs: Table, cs: seq<int>, i: nat)
    requires i < |cs| && cs[i] in procs && !procs[cs[i]].sealed && procs[cs[i]].state == Zombie
    requires forall j :: 0 <= j < i && cs[j] in procs ==> procs[cs[j]].sealed || procs[cs[j]].state != Zombie
    ensures FindZombie(procs, cs) == cs[i]
  {
    if i > 0 { FirstFound(procs, cs[1..], i - 1); }
  }

  lemma {:induction false} NothingFound(procs: Table, cs: seq<int>)
    requires forall c :: c in cs && c in procs ==> procs[c].sealed || procs[c].state != Zombie
    ensures FindZombie(procs, cs) == NOT_FOUND
  {
    if cs != [] { NothingFound(procs, cs[1..]); }
  }

  /** `waitpid` on any child takes the first dead one of the child list. */
  lemma WaitForAnyFirst(s: Sys, p: int, i: nat)
    requires Inv(s) && p < 0 && s.running in s.procs
    requires var cs := s.procs[s.running].children;
             i < |cs| && DeadChild(s, cs[i]) && forall j :: 0 <= j < i ==> !DeadChild(s, cs[j])
    ensures var c := s.procs[s.running].children[i];
            Returns(Step(s, WaitPid(p)), c, s.procs[c].returnCode, Collected(s, c))
  {
    hide Inv, Schedule;
    MyChildren(s);
    var cs := s.procs[s.running].children;
    forall j | 0 <= j < i && cs[j] in s.procs ensures s.procs[cs[j]].sealed || s.procs[cs[j]].state != Zombie {
      assert cs[j] in cs && !DeadChild(s, cs[j]);
    }
    FirstFound(s.procs, cs, i);
  }

  /** Without a dead child it blocks if there is a child at all, and else returns -1. */
  lemma WaitForAny(s: Sys, p: int)
    requires Inv(s) && p < 0 && forall c :: !DeadChild(s, c)
    ensures var r := Step(s, WaitPid(p));
            if exists c :: Mine(s, c) then s.running in s.procs && Blocks(r, Awaiting(s, p, -1))
            else Returns(r, -1, 0, s)
  {
    hide Inv, Schedule;
    MyChildren(s);
    var cs := s.procs[s.running].children;
    forall c | c in cs && c in s.procs ensures s.procs[c].sealed || s.procs[c].state != Zombie {
      assert !DeadChild(s, c);
    }
    NothingFound(s.procs, cs);
    CountUnsealedOk(s.procs, cs);
    if c :| Mine(s, c) { assert c in cs; }
    if c :| c in cs && c in s.procs && !s.procs[c].sealed { assert Mine(s, c); }
  }

  /** A `waitpid` that does not block fails exactly when there is nothing to wait for. */
  lemma WaitPidFails(s: Sys, p: int)
    requires Inv(s)
    ensures var r := Step(s, WaitPid(p));
            r.Ok? && r.value.entry == NotScheduled ==>
              (r.value.ret == -1 <==> if p < 0 then !exists c :: Mine(s, c) else !Mine(s, p))
  {
    hide Inv, Schedule, Step;
    MyChildren(s);
    if p >= 0 {
      WaitForOne(s, p);
    } else if c :| DeadChild(s, c) {
      var cs := s.procs[s.running].children;
      assert c in cs;
      var k :| 0 <= k < |cs| && cs[k] == c;
      var i := FirstDead(s, cs, k);
      WaitForAnyFirst(s, p, i);
    } else {
      WaitForAny(s, p);
    }
  }

  /** Up to a dead child there is a first one. */
  lemma {:induction false} FirstDead(s: Sys, cs: seq<int>, k: nat) returns (i: nat)
    requires k < |cs| && DeadChild(s, cs[k])
    ensures i < |cs| && DeadChild(s, cs[i]) && forall j :: 0 <= j < i ==> !DeadChild(s, cs[j])
    decreases k
  {
    if j: nat :| j < k && DeadChild(s, cs[j]) {
      i := FirstDead(s, cs, j);
    } else {
      i := k;
    }
  }

  // ----- clock -----

  ghost predicate Overslept(s: Sys, p: int, now: int) {
    p in s.procs && s.procs[p].state == Sleeping && s.procs[p].sleepTime <= now
  }

  /** A tick schedules if and only if it wakes somebody; otherwise it changes nothing. */
  lemma TickAnswer(s: Sys, now: int)
    requires Inv(s)
    ensures var r := Step(s, Tick(now));
            if exists p :: Overslept(s, p, now)
            then exists t :: Ticked(s, t, now) && WokenInOrder(s, t.ready, 0, now) && Ends(r, true, 0, 0, t)
            else Returns(r, 0, 0, s)
  {
    hide Inv, Frame, FidsOk, QueuesOk, Schedule, NoInversion, WakeSleepers, Ends, Returns;
    InvParts(s);
    WakeSleepersOk(s, 0, now);
    ReadySorted(s);
    TickOrder(s, 0, now);
    var t := WakeSleepers(s, 0, now).value;
    hide WokenInOrder;
    ThenEnds(t, |t.sleepers| < |s.sleepers|, 0, []);
    assert Step(s, Tick(now)) == Then(t, |t.sleepers| < |s.sleepers|, 0, []);
    if p :| Overslept(s, p, now) {
      assert p in s.sleepers && p !in t.sleepers;
      assert t != s;
    } else {
      forall p | p in s.sleepers ensures p in t.sleepers {
        assert !Overslept(s, p, now) && s.procs[p].state == Sleeping;
      }
      hide Ticked;
      SameMembers(s.sleepers, t.sleepers);
      assert |t.sleepers| == |s.sleepers|;
      assert t == s;
      AtOnce(s, 0);
    }
  }

  lemma ReadySorted(s: Sys)
    requires Inv(s)
    ensures SortedReady(s.procs, s.ready)
  {
    hide FidsOk, SleepOk, QueuesOk, AllRooted, ChildrenLast, NoInversion, Undoomed, WaitsOk, TreeOk, LifeOk, PidsOk;
  }

  lemma AtOnce(t: Sys, ret: int)
    requires Ends(Then(t, false, ret, []), false, ret, 0, t)
    ensures Returns(Then(t, false, ret, []), ret, 0, t)
  {}

  /** A sequence without repetition is no longer than one with the same members. */
  lemma {:induction false} SameMembers(l: seq<int>, m: seq<int>)
    requires NoDup(l) && forall x :: x in l ==> x in m
    ensures |l| <= |m|
    decreases |l|
  {
    if l != [] {
      var x := l[0];
      assert x in l;
      assert l == [x] + l[1..];
      forall y | y in l[1..] ensures y in Remove(m, x) {
        assert y != x;
        StillThere(m, x, y);
      }
      SameMembers(l[1..], Remove(m, x));
    }
  }

  lemma {:induction false} StillThere(m: seq<int>, x: int, y: int)
    requires y in m && y != x
    ensures y in Remove(m, x)
  {
    if m[0] != x && m[0] != y { StillThere(m[1..], x, y); }
  }

  /** `wait_clock(0)` does nothing; any other time puts the caller to sleep. */
  lemma WaitClockAnswer(s: Sys, clock: int)
    requires Inv(s)
    ensures var r := Step(s, WaitClock(clock));
            if clock <= 0 then Returns(r, 0, 0, s)
            else s.running in s.procs
                 && Blocks(r, s.(procs := s.procs[s.running :=
                           s.procs[s.running].(state := Sleeping, sleepTime := clock)],
                                 sleepers := s.sleepers + [s.running]))
  {
    hide Inv, Schedule, Frame, SleepOk, FidsOk, QueuesOk, Fair;
    InvParts(s);
  }

  /** `schedule` called from outside, by the timer or by a frame that is continued. */
  lemma PreemptAnswer(s: Sys)
    ensures Ends(Step(s, Preempt), true, 0, 0, s)
  {
    hide Schedule;
  }

  // ----- start, exit and kill -----

  /** `start` refuses a priority out of range, a full table, and a stack size that wraps when it is padded. */
  predicate Refused(s: Sys, stackSize: int, prio: int) {
    prio < 1 || prio > 256 || stackSize >= 0xFFFF_FFF8 || forall p :: 1 <= p <= 512 ==> p in s.procs
  }

  /** A slot filled by the running process, before the allocations. */
  function Newborn(s: Sys, prio: int): Proc {
    Proc(s.running, [], Unset, prio, 0, 0, false, 0, false, Idle, 0)
  }

  /** The new process is the first child of its father, and ready. */
  function Fathered(s: Sys, p: int, prio: int): Sys
    requires s.running in s.procs && s.free != []
  {
    var me := s.procs[s.running];
    var procs := s.procs[s.running := me.(children := [p] + me.children)][p := Newborn(s, prio).(state := Waiting)];
    s.(procs := procs, ready := InsertReady(procs, s.ready, p), free := s.free[1..])
  }

  lemma FullTable(s: Sys)
    requires Inv(s)
    ensures Size(s) >= 512 <==> s.free == []
    ensures s.free == [] <==> forall p :: 1 <= p <= 512 ==> p in s.procs
    ensures s.free != [] ==> s.free[0] !in s.procs && 1 <= s.free[0] <= 512
    ensures s.running in s.procs && s.running > 0 && forall p :: p in s.ready ==> p in s.procs
    ensures s.free != [] ==> s.free[0] != INIT
  {
    hide FidsOk, SleepOk, QueuesOk, AllRooted, ChildrenLast, NoInversion, Undoomed, WaitsOk, TreeOk, LifeOk;
    assert s.running in s.procs;
    FreePids(s.procs, s.free);
  }

  lemma FreePids(procs: Table, free: seq<int>)
    requires PidsOk(procs, free)
    ensures free == [] <==> forall p :: 1 <= p <= 512 ==> p in procs
    ensures free != [] ==> free[0] !in procs && 1 <= free[0] <= 512
  {
    if free != [] {
      var p := free[0];
      assert p in free;
      assert 1 <= p <= 512 && !(p in procs);
    } else {
      forall p | 1 <= p <= 512 ensures p in procs { assert p !in free; }
    }
  }

  /** `start` gives the first free pid, and schedules exactly when the new process is above its father. */
  lemma StartAnswer(s: Sys, stackSize: int, prio: int, k: bool, u: bool)
    requires Inv(s) && 0 <= stackSize < 0x1_0000_0000
    ensures var r := Step(s, Start(stackSize, prio, k, u));
            if Refused(s, stackSize, prio) then Returns(r, -1, 0, s)
            else s.running in s.procs && s.free != [] && s.free[0] !in s.procs
                 && var p := s.free[0];
                    if k && u then Ends(r, prio > s.procs[s.running].prio, p, 0, Fathered(s, p, prio))
                    else Returns(r, -1, 0, s.(procs := s.procs[p := Newborn(s, prio)], free := s.free[1..] + [p]))
  {
    hide Inv, Schedule, InsertReady;
    FullTable(s);
    if !Refused(s, stackSize, prio) {
      var p, f := s.free[0], s.running;
      var t := Fathered(s, p, prio);
      assert s.procs[p := NewProc(f, prio)][f := s.procs[f].(children := [p] + s.procs[f].children)]
        [p := NewProc(f, prio).(state := Waiting)] == t.procs;
      ThenEnds(t, prio > s.procs[f].prio, p, []);
    }
  }

  /** The process is dead with its code and pending, off the ready queue and every message queue; a sleeping
      one makes the sleeper array lose its last entry. */
  function Dead(s: Sys, p: int, code: int): Sys
    requires p in s.procs && (s.procs[p].state == Sleeping ==> s.sleepers != [])
  {
    var st := s.procs[p].state;
    s.(procs := s.procs[p := s.procs[p].(state := Zombie, returnCode := code)],
       ready := if st == Waiting then Remove(s.ready, p) else s.ready,
       sleepers := if st == Sleeping then s.sleepers[..|s.sleepers| - 1] else s.sleepers,
       queues := map f | f in s.queues :: s.queues[f].(locked := RemovePid(s.queues[f].locked, p)),
       toZombify := s.toZombify + [p])
  }

  lemma ExitAnswer(s: Sys, code: int)
    requires Inv(s)
    ensures s.running in s.procs && s.procs[s.running].state == Running
    ensures Blocks(Step(s, Exit(code)), Dead(s, s.running, code))
  {
    hide Inv, Schedule, Frame, SleepOk, FidsOk, QueuesOk, Fair, ExitCall, Then, Ends, RemovePid;
    InvParts(s);
    var t := ExitCalc(s, code);
    assert t == Dead(s, s.running, code);
    ThenBlocks(t, 0, []);
  }

  lemma ThenBlocks(t: Sys, ret: int, effects: seq<Effect>)
    ensures Blocks(Then(t, true, ret, effects), t)
    ensures Then(t, true, ret, effects).Ok? ==> Then(t, true, ret, effects).value.ret == ret
    ensures Then(t, true, ret, effects).Ok? ==> Then(t, true, ret, effects).value.out == 0
  {
    hide Schedule;
  }

  /** `kill` returns -1 exactly when there is no such process alive, and else 0 after scheduling. */
  lemma KillAnswer(s: Sys, p: int)
    requires Inv(s)
    ensures var r := Step(s, Kill(p));
            if p !in s.procs || s.procs[p].state == Zombie then Returns(r, -1, 0, s)
            else (s.procs[p].state == Sleeping ==> s.sleepers != []) && Ends(r, true, 0, 0, Dead(s, p, 0))
  {
    hide Inv, Schedule, KillCall, Then, Ends, RemovePid, Withdraw;
    PidRange(s, p);
    if p in s.procs && s.procs[p].state != Zombie {
      Whereabouts(s, p);
      var t := KillCalc(s, p);
      assert t == Dead(s, p, 0);
      ThenEnds(t, true, 0, Withdraw(s, p));
    } else {
      KillRefused(s, p);
    }
  }

  lemma KillRefused(s: Sys, p: int)
    requires KillRejects(s, p)
    ensures Returns(Step(s, Kill(p)), -1, 0, s)
  {}

  lemma PidRange(s: Sys, p: int)
    requires Inv(s)
    ensures p in s.procs ==> 1 <= p <= 512
  {
    hide FidsOk, ReadyOk, SleepOk, QueuesOk, AllRooted, ChildrenLast, NoInversion, Undoomed, WaitsOk, TreeOk, LifeOk;
  }

  // ----- chprio -----

  /** `p` has the new priority, and its new place in the ready queue or among the parked. */
  function Moved(s: Sys, p: int, prio: int): Sys
    requires p in s.procs
  {
    var st := s.procs[p].state;
    var procs := s.procs[p := s.procs[p].(prio := prio)];
    s.(procs := procs,
       ready := if st == Waiting then InsertReady(procs, Remove(s.ready, p), p) else s.ready,
       queues := if st == BlockedByMessage then NotifyPriority(s.queues, p, prio) else s.queues)
  }

  /** `chprio` refuses a priority out of range and a process that is not alive; else it returns the old
      priority.  It schedules exactly when the new priority is above that of the running process or, for
      the running process itself, below that of somebody ready. */
  lemma ChPrioAnswer(s: Sys, p: int, prio: int)
    requires Inv(s) && ChPrioSafe(s, p, prio)
    ensures var r := Step(s, ChPrio(p, prio));
            if prio < 1 || prio > 256 || p !in s.procs || s.procs[p].state == Zombie then Returns(r, -1, 0, s)
            else s.running in s.procs
                 && Ends(r, if p == s.running then exists q :: q in s.ready && Prio(s.procs, q) > prio
                            else prio > s.procs[s.running].prio,
                         s.procs[p].prio, 0, Moved(s, p, prio))
  {
    hide Inv, Schedule, ChPrioCall, Then, Ends, Frame, SleepOk, FidsOk, QueuesOk, Fair, InsertReady, NotifyPriority;
    PidRange(s, p);
    InvParts(s);
    if prio < 1 || prio > 256 || p !in s.procs || s.procs[p].state == Zombie {
      ChPrioRefused(s, p, prio);
    } else {
      var t := Moved(s, p, prio);
      MovedDecides(s, p, prio);
      var above := prio > Prio(t.procs, s.running);
      var below := p == s.running && Prio(t.procs, t.ready[|t.ready| - 1]) > prio;
      ThenEnds(t, above || below, s.procs[p].prio, []);
      if p == s.running { TopAbove(s, t, prio); }
    }
  }

  lemma ChPrioRefused(s: Sys, p: int, prio: int)
    requires ChPrioRejects(s, p, prio)
    ensures Returns(Step(s, ChPrio(p, prio)), -1, 0, s)
  {}

  lemma MovedDecides(s: Sys, p: int, prio: int)
    requires Inv(s) && s.running in s.procs && ChPrioSafe(s, p, prio) && !ChPrioRejects(s, p, prio)
    ensures var t := Moved(s, p, prio); (p == s.running ==> t.ready != []) && Decides(s, t, p, prio)
  {
    hide Inv, InsertReady, Remove, NotifyPriority, ChPrioCall, Decides;
    StateCases(s, p);
    Whereabouts(s, p);
    var t := Moved(s, p, prio);
    match s.procs[p].state {
      case BlockedByMessage => CallParked(s, t, p, prio);
      case Waiting =>
        ReadyOnce(s, p);
        CallReadied(s, t, p, prio);
      case _ => CallInPlace(s, t, p, prio);
    }
  }

  lemma ReadyOnce(s: Sys, p: int)
    requires Inv(s)
    ensures p !in Remove(s.ready, p)
  {
    hide FidsOk, SleepOk, QueuesOk, AllRooted, ChildrenLast, NoInversion, Undoomed, WaitsOk, TreeOk, LifeOk, PidsOk;
    RemoveNoDup(s.ready, p);
  }

  /** The last ready process is above the running one's new priority if any is. */
  lemma TopAbove(s: Sys, t: Sys, prio: int)
    requires Inv(s) && s.running in s.procs && t.ready == s.ready != []
    requires t.procs == s.procs[s.running := s.procs[s.running].(prio := prio)]
    ensures (exists q :: q in s.ready && Prio(s.procs, q) > prio) <==> Prio(t.procs, t.ready[|t.ready| - 1]) > prio
  {
    hide FidsOk, SleepOk, QueuesOk, AllRooted, ChildrenLast, NoInversion, Undoomed, WaitsOk, TreeOk, LifeOk, PidsOk;
    var top := s.ready[|s.ready| - 1];
    assert top in s.ready && top != s.running;
    if q :| q in s.ready && Prio(s.procs, q) > prio {
      var i :| 0 <= i < |s.ready| && s.ready[i] == q;
      assert i == |s.ready| - 1 || Prio(s.procs, s.ready[i]) <= Prio(s.procs, top);
    }
  }

  // ----- boot -----

  /** After boot pid 1 runs alone, at the lowest priority, and every other number is free in ascending order. */
  lemma BootAnswer()
    ensures Boot().Ok?
    ensures var t := Boot().value.sys;
            && t.procs == map[1 := Proc(-1, [], Running, 1, 0, 0, false, 0, false, Idle, 0)] && t.running == 1
            && |t.free| == 511 && (forall i :: 0 <= i < 511 ==> t.free[i] == i + 2)
            && |t.freeFids| == 64 && (forall i :: 0 <= i < 64 ==> t.freeFids[i] == i)
            && t.ready == t.toZombify == t.toDestroy == t.sleepers == [] && t.queues == map[] && t.released == {}
  {
    BootIs();
    hide Boot;
  }
}
