/** The guards are exact: a step that violates its guard panics or breaks the invariant. */
module ExactSteps {
  import opened Lists
  import opened Outcomes
  import opened KernelState
  import opened Scheduler
  import opened Syscalls
  import opened Invariant
  import opened FrameLemmas
  import opened ZombifyLemmas
  import opened ZombifyInv
  import opened CleanLemmas
  import opened ScheduleLemmas
  import opened LeaveLemmas
  import opened WakeLemmas
  import opened QueueSteps
  import opened WaitSteps
  import opened ChPrioSteps
  import opened StartSteps
  import opened DieSteps
  import opened PanicLemmas
  import opened SpareLemmas
  import opened NestedSchedule
  import opened DoomLemmas
  import opened Runs

  /** The call panics or leaves the invariant broken. */
  ghost predicate Fails(r: Outcome<Sys>) {
    r.Ok? ==> !Inv(r.value)
  }

  // ----- a forbidden death -----

  lemma DeadInSchedule(s: Sys, t: Sys, p: int)
    requires Inv(s) && DiedTo(s, t, p) && p != INIT && LastSleeper(s, p)
    ensures InSchedule(t) && SealedByRunning(t) && t.running in t.procs && t.running != 0 && t.running == s.running
    ensures s.running !in s.toZombify && |s.toZombify| <= 1
  {
    hide Inv, Core, Died, SameMarks, FamilyCore;
    InvFamilyFacts(s);
    DieCore(s, t, p);
    DiedFacts(s.procs, t.procs, p);
    assert forall c :: c in t.toDestroy && c in t.procs ==> t.procs[c].father == s.procs[c].father;
  }

  lemma FatherPendingFails(s: Sys, t: Sys, p: int)
    requires Inv(s) && DiedTo(s, t, p) && p != INIT && LastSleeper(s, p)
    requires p != s.running && s.procs[p].father in s.toZombify
    ensures Schedule(t).Panic?
  {
    hide Inv, Core, Died, SameMarks, InSchedule, SealedByRunning, Schedule;
    DeadInSchedule(s, t, p);
    DiedFacts(s.procs, t.procs, p);
    var f := s.procs[p].father;
    NotOwnFather(s, p);
    AliveUnsealed(s, p);
    assert s.toZombify == [f];
    ChildFirstPanics(t, f, p);
  }

  lemma AliveUnsealed(s: Sys, p: int)
    requires Inv(s) && p in s.procs && s.procs[p].state != Zombie
    ensures !s.procs[p].sealed && !s.procs[p].deallocated && p !in s.toZombify
  {
    hide FidsOk, ReadyOk, SleepOk, QueuesOk, ChildrenLast, WaitsOk, NoInversion, Undoomed, PidsOk, TreeOk, AllRooted;
  }

  /** A father that is itself in the table, seen from the state after the death. */
  lemma ClashAfter(s: Sys, t: Sys, p: int, q: int)
    requires Inv(s) && DiedTo(s, t, p) && p != INIT && q in s.procs && q != INIT
    requires HasCorpse(s.procs, q) && !s.procs[q].sealed
    requires s.procs[q].father == INIT || s.procs[q].father == p
    ensures Clashes(t.procs, q)
  {
    hide Inv, Died, SameMarks, HasCorpse, FatherLinks, ChildLinks, UncollectedOk, PendingOk;
    DiedFacts(s.procs, t.procs, p);
    MarksCorpse(s.procs, t.procs, q);
    WaitLinks(s);
    assert s.procs[q].father in s.procs by { FatherKnown(s.procs, q); }
  }

  lemma FatherKnown(procs: Table, q: int)
    requires FatherLinks(procs) && q in procs && q != INIT
    ensures procs[q].father in procs
  {}

  lemma OrphanCorpseFails(s: Sys, t: Sys, p: int)
    requires Inv(s) && DiedTo(s, t, p) && p != INIT && LastSleeper(s, p)
    requires p != s.running && s.procs[p].father == INIT && HasCorpse(s.procs, p)
    ensures Schedule(t).Panic?
  {
    hide Inv, Core, Died, SameMarks, InSchedule, SealedByRunning, Schedule, HasCorpse, Clashes;
    DeadInSchedule(s, t, p);
    DiedFacts(s.procs, t.procs, p);
    AliveUnsealed(s, p);
    ClashAfter(s, t, p, p);
    assert t.toZombify[|t.toZombify| - 1] == p && t.toZombify[..|t.toZombify| - 1] == s.toZombify;
    ClashPanics(t, p, s.toZombify);
  }

  /** The pending child of the dying process leaves an uncollected zombie. */
  lemma PendingChildFails(s: Sys, t: Sys, p: int, r: int)
    requires Inv(s) && DiedTo(s, t, p) && p != INIT && LastSleeper(s, p)
    requires r in s.toZombify && r in s.procs && s.procs[r].father == p && !s.procs[r].sealed && HasCorpse(s.procs, r)
    requires p != s.running && s.procs[p].father == INIT ==> !HasCorpse(s.procs, p)
    requires p != s.running ==> s.procs[p].father !in s.toZombify
    ensures Schedule(t).Panic?
  {
    hide Inv, Core, Died, SameMarks, InSchedule, SealedByRunning, Schedule, HasCorpse, Clashes;
    DeadInSchedule(s, t, p);
    DiedFacts(s.procs, t.procs, p);
    AliveUnsealed(s, p);
    assert t.toZombify == [r, p] && r != p && r != s.running;
    if p == s.running {
      NotInitPending(s, r);
      ClashAfter(s, t, p, r);
      PopFirst(t, r);
      ClashPanics(t, r, [p]);
    } else {
      GrandchildFails(s, t, p, r);
    }
  }

  lemma NotInitPending(s: Sys, r: int)
    requires Inv(s) && r in s.toZombify
    ensures r != INIT
  {
    hide FidsOk, ReadyOk, SleepOk, QueuesOk, ChildrenLast, WaitsOk, NoInversion, Undoomed, PidsOk, TreeOk, AllRooted;
  }

  /** The child goes to pid 1 when its killed father is swept, and clashes there. */
  lemma GrandchildFails(s: Sys, t: Sys, p: int, r: int)
    requires Inv(s) && DiedTo(s, t, p) && p != INIT && LastSleeper(s, p) && InSchedule(t) && SealedByRunning(t)
    requires t.toZombify == [r, p] && r != p && r != t.running && p != t.running && t.running != 0
    requires r in s.procs && s.procs[r].father == p && !s.procs[r].sealed && HasCorpse(s.procs, r)
    requires s.procs[p].father == INIT ==> !HasCorpse(s.procs, p)
    requires s.procs[p].father !in s.toZombify
    ensures Schedule(t).Panic?
  {
    hide Inv, Core, Died, SameMarks, InSchedule, SealedByRunning, Schedule, HasCorpse, Clashes, Zombify;
    hide Zombified, Popped, NextPending, ChildLinks;
    hide Zombifiable, NothingPending;
    assert r in t.toZombify && p in t.toZombify;
    DiedFacts(s.procs, t.procs, p);
    MarksCorpse(s.procs, t.procs, r);
    NoClashWhenKilled(s, t, p);
    PendingFacts(t, r);
    PendingFacts(t, p);
    ZombifiableIfNoClash(t, p);
    PopLast(t, r, p);
    ZombifyInSchedule(t, p, [r]);
    var t1 := Zombify(t.(toZombify := [r]), p).value;
    LinksIn(t);
    BecomesClash(t.procs, t1.procs, p, r);
    PopFirst(t1, r);
    assert r in t1.toZombify;
    ClashPanics(t1, r, []);
    SweptFirst(t, p, [r]);
  }

  lemma NoClashWhenKilled(s: Sys, t: Sys, p: int)
    requires Inv(s) && DiedTo(s, t, p) && p != INIT
    requires s.procs[p].father == INIT ==> !HasCorpse(s.procs, p)
    requires s.procs[p].father !in s.toZombify
    ensures !Clashes(t.procs, p)
  {
    hide Inv, Died, SameMarks, HasCorpse, FatherLinks, ChildLinks, UncollectedOk, PendingOk;
    DiedFacts(s.procs, t.procs, p);
    MarksCorpse(s.procs, t.procs, p);
    WaitLinks(s);
    NotOwnFather(s, p);
    LiveFather(s.procs, s.toZombify, p);
  }

  lemma BecomesClash(procs: Table, procs': Table, p: int, r: int)
    requires Zombified(procs, procs', p) && ChildLinks(procs) && FatherLinks(procs) && r in procs && r != p && r != INIT
    requires procs[r].father == p && !procs[r].sealed && !procs[r].deallocated && !procs[p].deallocated
    requires HasCorpse(procs, r)
    ensures Clashes(procs', r)
  {
    assert r in procs[p].children;
    var c :| c in procs[r].children && c in procs && procs[c].deallocated && !procs[c].sealed;
    assert procs[c].father == r && c !in procs[p].children && c != p;
    var a, b := procs[c], procs'[c];
    assert b.deallocated && !b.sealed && c in procs'[r].children;
    var x, y := procs[r], procs'[r];
    assert !y.sealed && y.father == INIT;
  }

  /** The running process dies under pid 1, or will, with an uncollected zombie. */
  lemma OwnCorpseFails(s: Sys, t: Sys, p: int)
    requires Inv(s) && DiedTo(s, t, p) && p != INIT && LastSleeper(s, p) && p == s.running
    requires (s.procs[p].father == INIT || s.procs[p].father in s.toZombify) && HasCorpse(s.procs, p)
    ensures Schedule(t).Ok? ==> Schedule(Schedule(t).value).Panic? && !Inv(Schedule(t).value)
  {
    hide Inv, Core, Died, SameMarks, InSchedule, SealedByRunning, Schedule, HasCorpse, Clashes;
    DeadInSchedule(s, t, p);
    DiedFacts(s.procs, t.procs, p);
    AliveUnsealed(s, p);
    MarksCorpse(s.procs, t.procs, p);
    if s.toZombify == [] {
      assert t.toZombify == [p] && p in t.toZombify;
      DoomedStays(t);
    } else {
      var r := s.toZombify[0];
      assert t.toZombify == [r, p] && r in t.toZombify && s.toZombify == [r] && r in s.toZombify;
      if Clashes(t.procs, r) {
        PopFirst(t, r);
        ClashPanics(t, r, [p]);
      } else {
        DoomedTogether(t, r);
      }
    }
  }

  lemma InertNotInv(s: Sys, t: Sys, p: int)
    requires Inert(s, p) && Dormant(s, t)
    requires (p == INIT && INIT in s.procs) || (p in s.sleepers && s.procs[p].state == Zombie)
    ensures !Inv(t)
  {
    hide FidsOk, ReadyOk, QueuesOk, ChildrenLast, WaitsOk, NoInversion, Undoomed, PidsOk, TreeOk, AllRooted, LifeOk;
  }

  lemma DeadInert(s: Sys, t: Sys, p: int)
    requires Inv(s) && DiedTo(s, t, p)
    ensures Inert(t, p) && t.procs[p].state == Zombie
  {
    hide FidsOk, SleepOk, QueuesOk, ChildrenLast, WaitsOk, NoInversion, Undoomed, PidsOk, TreeOk, AllRooted, LifeOk;
    RemoveNoDup(s.ready, p);
  }

  // ----- pid 1 dies -----

  /** Pid 1 is never taken off the pending list: `zombify` refuses it. */
  lemma {:induction false} InitStaysPending(s: Sys)
    requires INIT in s.toZombify
    ensures var r := ZombifyAll(s);
            r.Ok? ==> s.running == INIT && r.value.running == INIT && INIT in r.value.toZombify
    decreases |s.toZombify|
  {
    if !NothingPending(s.toZombify, s.running) {
      var (p, rest) := NextPending(s.toZombify, s.running);
      NextLeaves(s.toZombify, s.running, INIT);
      var r := Zombify(s.(toZombify := rest), p);
      InitRefused(s.(toZombify := rest));
      hide Zombify, NextPending;
      if r.Ok? { InitStaysPending(r.value); }
    }
  }

  lemma InitRefused(s: Sys)
    ensures Zombify(s, INIT).Panic?
  {}

  lemma NextLeaves(pending: seq<int>, running: int, p: int)
    requires p in pending
    ensures var (q, rest) := NextPending(pending, running); q == p || p in rest
  {
    var i :| 0 <= i < |pending| && pending[i] == p;
    var (q, rest) := NextPending(pending, running);
    if q != p {
      assert rest[if i == |pending| - 1 then 0 else i] == p;
    }
  }

  /** If pid 1 is pending, `schedule` panics at once unless pid 1 is the running process, and then it panics
      as soon as another process runs; otherwise the dead pid 1 goes on running, as nobody is ready. */
  lemma InitPending(t: Sys)
    requires INIT in t.toZombify && Inert(t, INIT) && t.procs[INIT].state == Zombie
    ensures t.running != INIT ==> Schedule(t).Panic?
    ensures Schedule(t).Ok? ==>
              var u := Schedule(t).value;
              if u.running == INIT then INIT in u.procs && u.procs[INIT].state == Zombie && u.ready == []
              else Schedule(u).Panic?
  {
    hide ZombifyAll, DestroyAll, Pick, Dormant, Inert;
    InitStaysPending(t);
    if Schedule(t).Ok? {
      var z := ZombifyAll(t).value;
      var d := DestroyAll(z).value;
      var u := Pick(d).value;
      DestroyKeepsPending(z);
      PickFamily(d);
      InitStaysPending(u);
      ZombifyAllDormant(t);
      DestroyAllDormant(z);
      DormantTwice(t, z, d);
      StillDead(t, d);
      DeadPick(d);
    }
  }

  lemma StillDead(t: Sys, d: Sys)
    requires Dormant(t, d) && Inert(t, INIT) && t.procs[INIT].state == Zombie
    ensures INIT in d.procs && d.procs[INIT].state == Zombie && INIT !in d.ready
  {}

  lemma DeadPick(d: Sys)
    requires d.running == INIT && INIT in d.procs && d.procs[INIT].state == Zombie && INIT !in d.ready
    ensures Pick(d).Ok? && Pick(d).value.running == INIT ==> Pick(d).value == d && d.ready == []
  {
    if d.ready != [] { assert d.ready[|d.ready| - 1] in d.ready; }
  }

  // ----- the wrong sleeper is dropped -----

  /** The last of the sleepers, who was not killed, still sleeps and is in no array. */
  ghost predicate SleeperLost(s: Sys, u: Sys) {
    s.sleepers != []
    && var q := s.sleepers[|s.sleepers| - 1]; q in u.procs && u.procs[q].state == Sleeping && q !in u.sleepers
  }

  lemma LastIsLost(s: Sys, t: Sys, p: int)
    requires Inv(s) && DiedTo(s, t, p) && !LastSleeper(s, p)
    ensures s.sleepers != []
    ensures var q := s.sleepers[|s.sleepers| - 1];
            Alive(t, q) && Inert(t, q) && t.procs[q].state == Sleeping && q !in t.sleepers
  {
    hide FidsOk, QueuesOk, ChildrenLast, WaitsOk, NoInversion, Undoomed, PidsOk, TreeOk, AllRooted;
    Whereabouts(s, p);
    var q := s.sleepers[|s.sleepers| - 1];
    assert q in s.sleepers && q != p;
    assert q !in t.ready;
  }

  lemma SleeperForgotten(s: Sys, t: Sys, p: int)
    requires Inv(s) && DiedTo(s, t, p) && !LastSleeper(s, p)
    ensures Schedule(t).Ok? ==> SleeperLost(s, Schedule(t).value)
  {
    hide Schedule, Inv, Dormant, DiedTo, LastSleeper, Spares, Alive, Inert;
    LastIsLost(s, t, p);
    ScheduleDormant(t);
    ScheduleSpares(t);
    if Schedule(t).Ok? { LostStays(t, Schedule(t).value, s.sleepers[|s.sleepers| - 1]); }
  }

  lemma LostStays(t: Sys, u: Sys, q: int)
    requires Alive(t, q) && Inert(t, q) && Dormant(t, u) && Spares(t, u)
    ensures q in u.procs && u.procs[q].state == t.procs[q].state && u.sleepers == t.sleepers
  {}

  // ----- every forbidden death -----

  /** What `schedule` has made of the forbidden death of `p`, if it did not panic: pid 1 goes on running
      dead and alone, or the wrong sleeper is lost, or the next `schedule` panics. */
  ghost predicate Ruined(s: Sys, p: int, u: Sys) {
    if p == INIT then
      s.running == INIT
      && (if u.running == INIT then INIT in u.procs && u.procs[INIT].state == Zombie && u.ready == []
          else Schedule(u).Panic?)
    else if !LastSleeper(s, p) then SleeperLost(s, u)
    else Schedule(u).Panic?
  }

  /** Pid 1 dies, or the wrong sleeper was dropped. */
  lemma InertFails(s: Sys, t: Sys, p: int)
    requires Inv(s) && DiedTo(s, t, p) && (p == INIT || !LastSleeper(s, p))
    ensures Fails(Schedule(t)) && (Schedule(t).Ok? ==> Ruined(s, p, Schedule(t).value))
  {
    hide Schedule, Inv, Dormant;
    DeadInert(s, t, p);
    ScheduleDormant(t);
    if !LastSleeper(s, p) {
      Whereabouts(s, p);
      SleeperForgotten(s, t, p);
      var k :| 0 <= k < |s.sleepers| && s.sleepers[k] == p;
      assert t.sleepers[k] == p;
    }
    if p == INIT {
      assert t.toZombify[|s.toZombify|] == INIT;
      InitPending(t);
    }
    if Schedule(t).Ok? { InertNotInv(t, Schedule(t).value, p); }
  }

  /** A forbidden death makes this `schedule` panic, or the next one, unless it is that of pid 1 or loses a
      sleeper. */
  lemma DieFails(s: Sys, t: Sys, p: int)
    requires Inv(s) && DiedTo(s, t, p) && !(FamilyAllows(s, p) && LastSleeper(s, p))
    ensures Fails(Schedule(t)) && (Schedule(t).Ok? ==> Ruined(s, p, Schedule(t).value))
  {
    hide Schedule, Inv, Died, HasCorpse, LastSleeper, SleeperLost;
    assert p in s.procs by { DiedFacts(s.procs, t.procs, p); }
    if p == INIT || !LastSleeper(s, p) {
      InertFails(s, t, p);
    } else if p != s.running && s.procs[p].father in s.toZombify {
      FatherPendingFails(s, t, p);
    } else if (s.procs[p].father == INIT || s.procs[p].father in s.toZombify) && HasCorpse(s.procs, p) {
      if p == s.running { OwnCorpseFails(s, t, p); } else { OrphanCorpseFails(s, t, p); }
    } else {
      var r :| r in s.toZombify && r in s.procs && s.procs[r].father == p
               && !s.procs[r].sealed && HasCorpse(s.procs, r);
      PendingChildFails(s, t, p, r);
    }
  }

  // ----- the other guards -----

  lemma StartFails(s: Sys, stackSize: int, prio: int, k: bool, u: bool)
    requires Inv(s) && s.running in s.procs && !StartRejects(s, stackSize, prio) && !(k && u)
    ensures var r := StartCall(s, stackSize, prio, k, u); var p := s.free[0];
                                                          && r.Ok? && r.value.ret == -1 && !Inv(r.value.sys)
                                                          && p in r.value.sys.procs
                                                          && r.value.sys.procs[p].state == Unset
                                                          && p in r.value.sys.free
  {
    FreePid(s);
    var t := StartCall(s, stackSize, prio, k, u).value.sys;
    hide Inv;
    UnsetNotInv(t, s.free[0]);
  }

  lemma UnsetNotInv(s: Sys, p: int)
    requires p in s.procs && s.procs[p].state == Unset
    ensures !Inv(s)
  {
    hide FidsOk, ReadyOk, SleepOk, QueuesOk, ChildrenLast, WaitsOk, NoInversion, Undoomed, PidsOk, TreeOk;
    hide AllRooted, LifeOk;
  }

  lemma ChPrioFails(s: Sys, p: int, prio: int)
    requires Inv(s) && s.running in s.procs && !ChPrioSafe(s, p, prio)
    ensures ChPrioCall(s, p, prio).Panic?
  {
    Whereabouts(s, p);
    NotReady(s, p);
    hide Inv;
  }

  lemma NotReady(s: Sys, p: int)
    requires Inv(s) && p in s.procs && s.procs[p].state != Waiting
    ensures p !in s.ready
  {
    hide FidsOk, SleepOk, QueuesOk, ChildrenLast, WaitsOk, NoInversion, Undoomed, PidsOk, TreeOk, AllRooted, LifeOk;
  }

  /** Pid 1 has left a call open. */
  lemma OpenCallNotInv(s: Sys)
    requires INIT in s.procs && s.procs[INIT].cont != Idle
    ensures !Inv(s)
  {
    hide FidsOk, ReadyOk, SleepOk, QueuesOk, ChildrenLast, WaitsOk, NoInversion, Undoomed, PidsOk, TreeOk;
    hide AllRooted, LifeOk;
  }

  lemma InitBlockedFails(t: Sys)
    requires INIT in t.procs && t.procs[INIT].cont != Idle
    ensures Fails(Schedule(t))
  {
    hide Schedule, Inv;
    ScheduleDormant(t);
    if Schedule(t).Ok? { OpenCallNotInv(Schedule(t).value); }
  }

  /** What becomes of pid 1 when it leaves the running state with nothing to clean up: the same process goes
      on running in state `st`, as long as nobody else is ready. */
  ghost predicate InitLeaves(s: Sys, r: Outcome<Reply>, st: PState) {
    s.toZombify == [] && s.toDestroy == [] ==>
      && r.Ok? && INIT in r.value.sys.procs && r.value.sys.procs[INIT].state == st
      && (r.value.sys.running == INIT <==> s.ready == [])
  }

  lemma InitLeft(s: Sys, t: Sys, ret: int, effects: seq<Effect>)
    requires Inv(s) && s.running == INIT && INIT in s.procs && INIT in t.procs
    requires t.procs == s.procs[INIT := t.procs[INIT]]
    requires t == s.(procs := t.procs, sleepers := t.sleepers, queues := t.queues) && t.procs[INIT].state != Running
    ensures InitLeaves(s, Then(t, true, ret, effects), t.procs[INIT].state)
  {
    hide Inv, Schedule, Clean, InsertReady;
    ReadyKnown(s);
    NotReady(s, INIT);
    if s.toZombify == [] && s.toDestroy == [] { ScheduleIsPick(t); }
  }

  lemma ReadyKnown(s: Sys)
    requires Inv(s)
    ensures forall p :: p in s.ready ==> p in s.procs
    ensures s.running in s.procs && s.procs[s.running].state == Running
  {
    hide FidsOk, SleepOk, QueuesOk, ChildrenLast, WaitsOk, NoInversion, Undoomed, PidsOk, TreeOk, AllRooted, LifeOk;
  }

  lemma SleepFails(s: Sys, clock: int)
    requires Inv(s) && s.running == INIT && INIT in s.procs && clock > 0
    ensures var r := WaitClockCall(s, clock); r.Ok? ==> !Inv(r.value.sys)
    ensures InitLeaves(s, WaitClockCall(s, clock), Sleeping)
  {
    hide Schedule, Inv, Dormant, Frame, SleepOk, FidsOk, QueuesOk, InitLeaves;
    ReadyKnown(s);
    NotReady(s, INIT);
    var t := s.(procs := s.procs[INIT := s.procs[INIT].(state := Sleeping, sleepTime := clock)],
    sleepers := s.sleepers + [INIT]);
    ScheduleDormant(t);
    if Schedule(t).Ok? { InertNotInv(t, Schedule(t).value, INIT); }
    InitLeft(s, t, 0, []);
  }

  lemma WaitFails(s: Sys, p: int)
    requires Inv(s) && s.running == INIT && WaitBlocks(s, p)
    ensures var r := WaitPidCall(s, p); r.Ok? ==> !Inv(r.value.sys)
    ensures InitLeaves(s, WaitPidCall(s, p), BlockedByChild)
  {
    hide Schedule, Inv, FindZombie, CountUnsealed, InitLeaves;
    var t := s.(procs := s.procs[INIT := s.procs[INIT].(state := BlockedByChild,
    waitingCode := if p < 0 then -1 else p, cont := InWait(p))]);
    InitBlockedFails(t);
    InitLeft(s, t, 0, []);
  }

  lemma MessageFails(s: Sys, f: int, m: int, c: Continuation, effects: seq<Effect>)
    requires Inv(s) && s.running == INIT && f in s.queues && INIT in s.procs && c != Idle
    ensures Fails(Schedule(Park(s, f, m, c)))
    ensures InitLeaves(s, Then(Park(s, f, m, c), true, 0, effects), BlockedByMessage)
  {
    hide Schedule, Inv, InitLeaves, Then, InsertNode;
    InitBlockedFails(Park(s, f, m, c));
    InitLeft(s, Park(s, f, m, c), 0, effects);
  }

  lemma SendFails(s: Sys, f: int, m: int)
    requires Inv(s) && s.running == INIT && INIT in s.procs && SendBlocks(s, f)
    ensures var r := PSendCall(s, f, m); r.Ok? ==> !Inv(r.value.sys)
    ensures InitLeaves(s, PSendCall(s, f, m), BlockedByMessage)
  {
    hide Schedule, Inv, Park, InitLeaves;
    MessageFails(s, f, m, InSend(f, m), [Sent(f, m)]);
  }

  lemma ReceiveFails(s: Sys, f: int)
    requires Inv(s) && s.running == INIT && INIT in s.procs && ReceiveBlocks(s, f)
    ensures var r := PReceiveCall(s, f); r.Ok? ==> !Inv(r.value.sys)
    ensures InitLeaves(s, PReceiveCall(s, f), BlockedByMessage)
  {
    hide Schedule, Inv, Park, InitLeaves;
    MessageFails(s, f, 0, InReceive(f), []);
  }

  lemma ExitFails(s: Sys, code: int)
    requires Inv(s) && !FamilyAllows(s, s.running)
    ensures var r := ExitCall(s, code); r.Ok? ==> !Inv(r.value.sys) && Ruined(s, s.running, r.value.sys)
  {
    InvParts(s);
    hide Inv, DiedTo, FamilyAllows, Schedule, Ruined, ExitCall, Frame, SleepOk, FidsOk, QueuesOk;
    var t := ExitCalc(s, code);
    DieFails(s, t, s.running);
  }

  lemma KillFails(s: Sys, p: int)
    requires Inv(s) && !KillRejects(s, p) && !(FamilyAllows(s, p) && LastSleeper(s, p))
    ensures var r := KillCall(s, p); r.Ok? ==> !Inv(r.value.sys) && Ruined(s, p, r.value.sys)
  {
    hide Inv, DiedTo, FamilyAllows, Schedule, Ruined, Withdraw;
    Whereabouts(s, p);
    var t := KillCalc(s, p);
    DieFails(s, t, p);
  }

  /** A step from a quiescent state succeeds and keeps the invariant exactly when its guard holds. */
  lemma StepExact(s: Sys, e: Event)
    requires Inv(s) && Enabled(s, e)
    ensures Guard(s, e) <==> Step(s, e).Ok? && Inv(Step(s, e).value.sys)
  {
    hide Inv, FamilyAllows, StartCall, ExitCall, KillCall, WaitPidCall, WaitClockCall, ChPrioCall, TickCall, Then;
    hide PCreateCall, PResetCall, PDeleteCall, PSendCall, PReceiveCall, ResumeCall, InitLeaves;
    if Guard(s, e) {
      StepOk(s, e);
    } else {
      match e {
        case Start(stackSize, prio, k, u) => StartFails(s, stackSize, prio, k, u);
        case Exit(code) => ExitFails(s, code);
        case Kill(p) => KillFails(s, p);
        case WaitPid(p) => WaitFails(s, p);
        case WaitClock(c) => SleepFails(s, c);
        case ChPrio(p, prio) => ChPrioFails(s, p, prio);
        case PSend(f, m) => SendFails(s, f, m);
        case PReceive(f) => ReceiveFails(s, f);
      }
    }
  }
}
