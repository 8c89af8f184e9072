/** Runs that violate a guard, from boot to the failure. */
module Counterexamples {
  import opened Lists
  import opened Outcomes
  import opened KernelState
  import opened Scheduler
  import opened Syscalls
  import opened Invariant
  import opened PanicLemmas
  import opened ScheduleLemmas
  import opened ChPrioSteps
  import opened DieSteps
  import opened ExactSteps
  import opened Runs

  function P(father: int, children: seq<int>, state: PState, prio: int): Proc {
    NewProc(father, prio).(children := children, state := state)
  }

  /** The kernel with pids below `next` handed out, no queue and no sleeper. */
  function K(procs: Table, running: int, ready: seq<int>, toZombify: seq<int>, next: nat): Sys
    requires 1 <= next <= MAX_PROCS
  {
    Blank().(procs := procs, running := running, ready := ready, toZombify := toZombify,
    free := Blank().free[next - 1..])
  }

  function S0(): Sys { K(map[1 := P(-1, [], Running, 1)], 1, [], [], 2) }
  function S1(): Sys { K(map[1 := P(-1, [2], Waiting, 1), 2 := P(1, [], Running, 2)], 2, [1], [], 3) }
  function S2(): Sys {
    K(map[1 := P(-1, [2], Waiting, 1), 2 := P(1, [3], Waiting, 2), 3 := P(2, [], Running, 3)], 3, [1, 2], [], 4)
  }
  function S3(): Sys {
    K(map[1 := P(-1, [2], Waiting, 1), 2 := P(1, [3], Running, 2), 3 := P(2, [], Zombie, 3)], 2, [1], [3], 4)
  }
  function S4(): Sys {
    K(map[1 := P(-1, [2], Waiting, 1), 2 := P(1, [3], Running, 2), 3 := P(2, [], Zombie, 3).(deallocated := true)], 2,
      [1], [], 4)
  }
  function S5(): Sys {
    K(map[1 := P(-1, [2], Running, 1), 2 := P(1, [3], Zombie, 2), 3 := P(2, [], Zombie, 3).(deallocated := true)], 1,
      [], [2], 4)
  }

  lemma BootIsS0()
    ensures Boot().Ok? && Boot().value.sys == S0()
  {
    BootIs();
  }

  lemma FreeAt(next: nat)
    requires 1 <= next < MAX_PROCS
    ensures Blank().free[next - 1..] != [] && Blank().free[next - 1..][0] == next
    ensures Blank().free[next - 1..][1..] == Blank().free[next..]
    ensures |Blank().free[next - 1..]| == MAX_PROCS - next + 1
  {}

  lemma FirstStart()
    ensures var r := Step(S0(), Start(4096, 2, true, true)); r.Ok? && r.value.sys == S1()
  {
    FreeAt(2);
    var s := S0();
    var t := K(map[1 := P(-1, [2], Running, 1), 2 := P(1, [], Waiting, 2)], 1, [2], [], 3);
    assert Register(s, 2) == Ok(s.(free := t.free, procs := s.procs[2 := NewProc(1, 2)]));
    var s1 := Register(s, 2).value;
    assert s1.procs[2].father == 1 && 1 in s1.procs;
    var s2 := AddChild(s1, 1, 2);
    assert [2] + [] == [2] && [1] + [] == [1] && [2][..0] == [];
    var s3 := s2.(procs := s2.procs[2 := s2.procs[2].(state := Waiting)]);
    assert Enqueue(s3, 2) == Ok(s3.(ready := [2]));
    assert s3.procs == t.procs;
    assert !StartRejects(s, 4096, 2);
    assert StartCall(s, 4096, 2, true, true) == Then(t, true, 2, []);
    ScheduleIsPick(t);
    assert t.procs[2 := P(1, [], Running, 2)][1 := P(-1, [2], Waiting, 1)] == S1().procs;
    assert Size(t) < MAX_PROCS;
    assert Pick(t) == Switch(t, 2);
    var w := t.(ready := [], procs := S1().procs, running := 2);
    assert Switch(t, 2) == Enqueue(w, 1);
    assert Pick(t) == Ok(S1());
  }

  lemma SecondStart()
    ensures var r := Step(S1(), Start(4096, 3, true, true)); r.Ok? && r.value.sys == S2()
  {
    FreeAt(3);
    var s := S1();
    var t := K(map[1 := P(-1, [2], Waiting, 1), 2 := P(1, [3], Running, 2), 3 := P(2, [], Waiting, 3)], 2, [1, 3], [],
               4);
    assert Register(s, 3) == Ok(s.(free := t.free, procs := s.procs[3 := NewProc(2, 3)]));
    var s1 := Register(s, 3).value;
    assert s1.procs[3].father == 2 && 2 in s1.procs;
    var s2 := AddChild(s1, 2, 3);
    assert [3] + [] == [3] && [2] + [] == [2] && [1] + [3] == [1, 3] && [1] + [2] == [1, 2] && [1][1..] == []
           && [1, 3][..1] == [1];
    var s3 := s2.(procs := s2.procs[3 := s2.procs[3].(state := Waiting)]);
    assert InsertReady(s3.procs, [1], 3) == [1] + InsertReady(s3.procs, [], 3);
    assert Enqueue(s3, 3) == Ok(s3.(ready := [1, 3]));
    assert s3.procs == t.procs;
    assert !StartRejects(s, 4096, 3);
    assert StartCall(s, 4096, 3, true, true) == Then(t, true, 3, []);
    ScheduleIsPick(t);
    var procs := S2().procs;
    assert t.procs[3 := P(2, [], Running, 3)][2 := P(1, [3], Waiting, 2)] == procs;
    assert Size(t) < MAX_PROCS;
    assert Pick(t) == Switch(t, 3);
    var w := t.(ready := [1], procs := procs, running := 3);
    assert Switch(t, 3) == Enqueue(w, 2);
    assert InsertReady(procs, [1], 2) == [1] + InsertReady(procs, [], 2);
    assert Pick(t) == Ok(S2());
  }

  lemma NoQueues(p: int)
    ensures NotifyKilled(map[], p) == map[]
  {}

  lemma ChildExits()
    ensures var r := Step(S2(), Exit(0)); r.Ok? && r.value.sys == S3()
  {
    NoQueues(3);
    FreeAt(4);
    var s := S2();
    var t := s.(procs := s.procs[3 := P(2, [], Zombie, 3)], toZombify := [3]);
    assert [] + [3] == [3] && [1, 2][..1] == [1];
    assert s.procs[3 := s.procs[3].(returnCode := 0)] == s.procs;
    assert RequestZombify(s, 3) == Ok(t);
    assert ExitCall(s, 0) == Then(t, true, 0, []);
    ScheduleIsPick(t);
    assert Pick(t) == Switch(t, 2);
    assert t.procs[2 := P(1, [3], Running, 2)] == S3().procs;
    assert Switch(t, 2) == Ok(S3());
  }

  lemma ChildSwept()
    ensures var r := Step(S3(), Preempt); r.Ok? && r.value.sys == S4()
  {
    FreeAt(4);
    var s := S3();
    assert [3][..0] == [];
    assert NextPending(s.toZombify, s.running) == (3, []);
    var s0 := s.(toZombify := []);
    assert s0.procs[3 := P(2, [], Zombie, 3).(deallocated := true)] == S4().procs;
    assert Zombify(s0, 3) == Ok(S4());
    assert ZombifyAll(s) == ZombifyAll(S4()) == Ok(S4());
    assert Clean(s) == Ok(S4());
    assert Pick(S4()) == Ok(S4());
  }

  lemma FatherExits()
    ensures var r := Step(S4(), Exit(0)); r.Ok? && r.value.sys == S5()
  {
    NoQueues(2);
    FreeAt(4);
    var s := S4();
    var t := s.(procs := s.procs[2 := P(1, [3], Zombie, 2)], toZombify := [2]);
    assert [] + [2] == [2] && [1][..0] == [];
    assert s.procs[2 := s.procs[2].(returnCode := 0)] == s.procs;
    assert RequestZombify(s, 2) == Ok(t);
    assert ExitCall(s, 0) == Then(t, true, 0, []);
    ScheduleIsPick(t);
    assert Pick(t) == Switch(t, 1);
    assert t.procs[1 := P(-1, [2], Running, 1)] == S5().procs;
    assert Switch(t, 1) == Ok(S5());
  }

  lemma FatherSwept()
    ensures Step(S5(), Preempt).Panic?
  {
    var s := S5();
    assert [2][..0] == [];
    assert NextPending(s.toZombify, s.running) == (2, []);
    var s0 := s.(toZombify := []);
    var dead := P(1, [3], Zombie, 2).(deallocated := true);
    var gone := P(2, [], Zombie, 3).(deallocated := true, sealed := true);
    var s1 := s0.(procs := s0.procs[2 := dead]);
    assert [] + [3] == [3] && [3] + [2] == [3, 2] && [3][1..] == [] && [3, 2][..1] == [3];
    var s2 := s1.(procs := s1.procs[3 := gone], toDestroy := [3]);
    assert RequestDestroy(s1, 3) == Ok(s2);
    assert ReleaseChild(s1, 2, 3) == Ok(s2);
    assert ReleaseChildren(s1, 2, [3]) == ReleaseChildren(s2, 2, []) == Ok(s2);
    assert WakeFather(s2, 1, 2) == Ok(s2);
    var s3 := s2.(procs := s2.procs[2 := dead.(sealed := true)], toDestroy := [3, 2]);
    assert SealOrphan(s2, 1, 2) == RequestDestroy(s2, 2) == Ok(s3);
    assert Zombify(s0, 2) == Ok(s3);
    assert ZombifyAll(s) == ZombifyAll(s3) == Ok(s3);
    Fatal(s3);
  }

  lemma Fatal(s: Sys)
    requires s.toDestroy == [3, 2] && s.running == 1 && 2 in s.procs && s.procs[2].children == [3]
    requires 3 in s.procs && s.procs[3].deallocated && s.procs[3].sealed
    ensures DestroyAll(s).Panic?
  {
    assert 2 in s.toDestroy && 3 in s.procs[2].children;
    assert NextPending(s.toDestroy, s.running) == (2, [3]) by { assert [3, 2][..1] == [3]; }
    DestroyPanics(s.(toDestroy := [3]), 2, 3);
  }

  function ForgetfulFather(): seq<Event> {
    [Start(4096, 2, true, true), Start(4096, 3, true, true), Exit(0), Preempt, Exit(0), Preempt]
  }

  /** A process that exits without having collected its dead child brings the kernel down: `destroy`
      asks again for the destruction of the child. */
  lemma ForgetfulFatherPanics()
    ensures Boot().Ok? && After(Boot().value.sys, ForgetfulFather()).Panic?
  {
    hide Step, S0, S1, S2, S3, S4, S5, Boot;
    BootIsS0();
    FirstStart();
    SecondStart();
    ChildExits();
    ChildSwept();
    FatherExits();
    FatherSwept();
    var r := ForgetfulFather();
    Unroll(S5(), r[5..]);
    Unroll(S4(), r[4..]);
    Unroll(S3(), r[3..]);
    Unroll(S2(), r[2..]);
    Unroll(S1(), r[1..]);
    Unroll(S0(), r);
  }

  lemma Unroll(s: Sys, run: seq<Event>)
    requires run != []
    ensures After(s, run) == if Step(s, run[0]).Ok? then After(Step(s, run[0]).value.sys, run[1..]) else Panic
  {}

  // ----- killing the child of a process that has just exited -----

  function S6(): Sys {
    K(map[1 := P(-1, [2], Waiting, 1), 2 := P(1, [3], Running, 2), 3 := P(2, [], Waiting, 1)], 2, [3, 1], [], 4)
  }
  function S7(): Sys {
    K(map[1 := P(-1, [2], Running, 1), 2 := P(1, [3], Zombie, 2), 3 := P(2, [], Waiting, 1)], 1, [3], [2], 4)
  }

  lemma LowStart()
    ensures var r := Step(S1(), Start(4096, 1, true, true)); r.Ok? && r.value.sys == S6()
  {
    FreeAt(3);
    var s := S1();
    assert Register(s, 1) == Ok(s.(free := S6().free, procs := s.procs[3 := NewProc(2, 1)]));
    var s1 := Register(s, 1).value;
    assert s1.procs[3].father == 2 && 2 in s1.procs;
    var s2 := AddChild(s1, 2, 3);
    assert [3] + [] == [3] && [3] + [1] == [3, 1];
    var s3 := s2.(procs := s2.procs[3 := s2.procs[3].(state := Waiting)]);
    assert Enqueue(s3, 3) == Ok(s3.(ready := [3, 1]));
    assert s3.procs == S6().procs;
    assert !StartRejects(s, 4096, 1);
    assert StartCall(s, 4096, 1, true, true) == Then(S6(), false, 3, []);
  }

  lemma YoungFatherExits()
    ensures var r := Step(S6(), Exit(0)); r.Ok? && r.value.sys == S7()
  {
    NoQueues(2);
    FreeAt(4);
    var s := S6();
    var t := s.(procs := s.procs[2 := P(1, [3], Zombie, 2)], toZombify := [2]);
    assert [] + [2] == [2] && [3, 1][..1] == [3];
    assert s.procs[2 := s.procs[2].(returnCode := 0)] == s.procs;
    assert RequestZombify(s, 2) == Ok(t);
    assert ExitCall(s, 0) == Then(t, true, 0, []);
    ScheduleIsPick(t);
    assert Pick(t) == Switch(t, 1);
    assert t.procs[1 := P(-1, [2], Running, 1)] == S7().procs;
    assert Switch(t, 1) == Ok(S7());
  }

  /** `kill` of a child before its dead father has been cleaned up fails the assertion that nobody is
      sealed twice, although every earlier step respected its guard. */
  lemma OrphanKillPanics()
    ensures Boot().Ok? && Obeys(Boot().value.sys, [Start(4096, 2, true, true), Start(4096, 1, true, true), Exit(0)])
    ensures After(Boot().value.sys, [Start(4096, 2, true, true), Start(4096, 1, true, true), Exit(0)]) == Ok(S7())
    ensures Inv(S7()) && Step(S7(), Kill(3)).Panic?
  {
    hide Step, Boot, Inv, DiedTo;
    var run := [Start(4096, 2, true, true), Start(4096, 1, true, true), Exit(0)];
    BootIsS0();
    FirstStart();
    LowStart();
    YoungFatherExits();
    YoungFamily();
    Unroll(S6(), run[2..]);
    Unroll(S1(), run[1..]);
    Unroll(S0(), run);
    assert After(S7(), []) == Ok(S7());
    BootRunOk(run);
    Whereabouts(S7(), 3);
    var t := KillCalc(S7(), 3);
    FatherPendingFails(S7(), t, 3);
    StepIs(S7(), Kill(3));
  }

  lemma YoungFamily()
    ensures FamilyAllows(S6(), 2)
  {}

  // ----- the other guards -----

  /** The only process changes its own priority. */
  lemma LonelyChPrioPanics()
    ensures Boot().Ok? && Step(Boot().value.sys, ChPrio(1, 5)).Panic?
  {
    hide Inv, Boot, S0, Step, ChPrioCall, ChPrioSafe;
    BootIsS0();
    BootOk();
    LonelyUnsafe();
    ChPrioFails(S0(), 1, 5);
    StepIs(S0(), ChPrio(1, 5));
  }

  lemma LonelyUnsafe()
    ensures !ChPrioSafe(S0(), 1, 5) && S0().running in S0().procs
  {}

  /** The only process goes to sleep, and goes on running. */
  lemma LonelySleeperRuns(clock: int)
    requires clock > 0
    ensures Boot().Ok? && Enabled(Boot().value.sys, WaitClock(clock))
    ensures var r := Step(Boot().value.sys, WaitClock(clock));
            r.Ok? && r.value.sys.running == INIT && INIT in r.value.sys.procs
            && r.value.sys.procs[INIT].state == Sleeping
  {
    BootIsS0();
    BootOk();
    assert S0().running == INIT && INIT in S0().procs && S0().procs[INIT].cont == Idle && S0().toZombify == []
           && S0().toDestroy == [];
    assert S0().ready == [];
    hide Inv, Boot, S0, Step, WaitClockCall;
    SleepFails(S0(), clock);
    StepIs(S0(), WaitClock(clock));
  }

  /** The first child finds no memory for its stack: its slot looks used, its pid is free. */
  lemma FailedStartLeavesSlot()
    ensures Boot().Ok?
    ensures var r := Step(Boot().value.sys, Start(4096, 1, false, true));
            && r.Ok? && r.value.ret == -1 && !Inv(r.value.sys)
            && 2 in r.value.sys.procs && r.value.sys.procs[2].state == Unset && 2 in r.value.sys.free
  {
    hide Inv, Boot, S0, Step, StartCall, StartRejects, Blank;
    BootIsS0();
    BootOk();
    FirstPidFree();
    StartFails(S0(), 4096, 1, false, true);
    StepIs(S0(), Start(4096, 1, false, true));
  }

  lemma FirstPidFree()
    ensures !StartRejects(S0(), 4096, 1) && S0().running in S0().procs && S0().free != [] && S0().free[0] == 2
  {
    FreeAt(2);
  }

  /** A process changes the priority of one that sleeps. */
  lemma SleeperChPrioPanics()
    ensures Boot().Ok? && Obeys(Boot().value.sys, [Start(4096, 2, true, true), WaitClock(10)])
    ensures After(Boot().value.sys, [Start(4096, 2, true, true), WaitClock(10)]) == Ok(S8()) && Inv(S8())
    ensures Step(S8(), ChPrio(2, 5)).Panic?
  {
    hide Step, Boot, Inv, S0, S1, S8, Guard, Enabled, ChPrioCall, ChPrioSafe;
    var run := [Start(4096, 2, true, true), WaitClock(10)];
    BootIsS0();
    FirstStart();
    FirstSleeps();
    SleepersGuarded();
    Unroll(S1(), run[1..]);
    Unroll(S0(), run);
    assert run[1..][1..] == [] && After(S8(), []) == Ok(S8());
    assert Obeys(S8(), []) && Obeys(S1(), run[1..]) && Obeys(S0(), run);
    BootRunOk(run);
    ChPrioFails(S8(), 2, 5);
    StepIs(S8(), ChPrio(2, 5));
  }

  function S8(): Sys {
    K(map[1 := P(-1, [2], Running, 1), 2 := P(1, [], Sleeping, 2).(sleepTime := 10)], 1, [], [], 3).(sleepers := [2])
  }
  function S9(): Sys {
    K(map[1 := P(-1, [3, 2], Waiting, 1), 2 := P(1, [], Sleeping, 2).(sleepTime := 10), 3 := P(1, [], Running, 2)], 3,
      [1], [], 4)
    .(sleepers := [2])
  }
  function S10(): Sys {
    K(map[1 := P(-1, [3, 2], Running, 1), 2 := P(1, [], Sleeping, 2).(sleepTime := 10),
          3 := P(1, [], Sleeping, 2).(sleepTime := 20)],
      1, [], [], 4).(sleepers := [2, 3])
  }

  lemma FirstSleeps()
    ensures var r := Step(S1(), WaitClock(10)); r.Ok? && r.value.sys == S8()
  {
    FreeAt(3);
    var s := S1();
    var t := s.(procs := s.procs[2 := P(1, [], Sleeping, 2).(sleepTime := 10)], sleepers := [2]);
    assert [] + [2] == [2] && [1][..0] == [];
    assert WaitClockCall(s, 10) == Then(t, true, 0, []);
    ScheduleIsPick(t);
    assert Pick(t) == Switch(t, 1);
    assert t.procs[1 := P(-1, [2], Running, 1)] == S8().procs;
    assert Switch(t, 1) == Ok(S8());
  }

  lemma ThirdStarts()
    ensures var r := Step(S8(), Start(4096, 2, true, true)); r.Ok? && r.value.sys == S9()
  {
    FreeAt(3);
    var s := S8();
    var sleeper := P(1, [], Sleeping, 2).(sleepTime := 10);
    var t := K(map[1 := P(-1, [3, 2], Running, 1), 2 := sleeper, 3 := P(1, [], Waiting, 2)], 1, [3], [],
               4).(sleepers := [2]);
    assert Register(s, 2) == Ok(s.(free := t.free, procs := s.procs[3 := NewProc(1, 2)]));
    var s1 := Register(s, 2).value;
    assert s1.procs[3].father == 1 && 1 in s1.procs;
    var s2 := AddChild(s1, 1, 3);
    assert [3] + [2] == [3, 2] && [3] + [] == [3] && [1] + [] == [1] && [3][..0] == [];
    var s3 := s2.(procs := s2.procs[3 := s2.procs[3].(state := Waiting)]);
    assert Enqueue(s3, 3) == Ok(s3.(ready := [3]));
    assert s3.procs == t.procs;
    assert !StartRejects(s, 4096, 2);
    assert StartCall(s, 4096, 2, true, true) == Then(t, true, 3, []);
    ScheduleIsPick(t);
    assert t.procs[3 := P(1, [], Running, 2)][1 := P(-1, [3, 2], Waiting, 1)] == S9().procs;
    assert Size(t) < MAX_PROCS;
    assert Pick(t) == Switch(t, 3);
    var w := t.(ready := [], procs := S9().procs, running := 3);
    assert Switch(t, 3) == Enqueue(w, 1);
    assert Pick(t) == Ok(S9());
  }

  lemma SecondSleeps()
    ensures var r := Step(S9(), WaitClock(20)); r.Ok? && r.value.sys == S10()
  {
    FreeAt(4);
    var s := S9();
    var t := s.(procs := s.procs[3 := P(1, [], Sleeping, 2).(sleepTime := 20)], sleepers := [2, 3]);
    assert [2] + [3] == [2, 3] && [1][..0] == [];
    assert WaitClockCall(s, 20) == Then(t, true, 0, []);
    ScheduleIsPick(t);
    assert Pick(t) == Switch(t, 1);
    assert t.procs[1 := P(-1, [3, 2], Running, 1)] == S10().procs;
    assert Switch(t, 1) == Ok(S10());
  }

  /** After the kill the victim is gone but listed, and the other sleeper is not listed: no tick wakes it. */
  lemma KillDropsOtherSleeper()
    ensures var r := Step(S10(), Kill(2));
            && r.Ok? && r.value.sys.sleepers == [2] && 2 !in r.value.sys.procs
            && 3 in r.value.sys.procs && r.value.sys.procs[3].state == Sleeping
  {
    hide Schedule, Pick, Step, KillCall, S10;
    StepIs(S10(), Kill(2));
    var t := SleeperKilled();
    ChildBuried(t);
    BuriedSleepers(t);
  }

  /** The other sleeper is still asleep and no longer listed. */
  ghost predicate OneListed(t: Sys) {
    && t.running == 1 && t.ready == [] && t.sleepers == [2] && t.toZombify == [2] && t.toDestroy == []
    && |t.free| < MAX_PROCS
    && 1 in t.procs && t.procs[1].state == Running && 3 in t.procs && t.procs[3].state == Sleeping
    && 2 in t.procs && t.procs[2] == P(1, [], Zombie, 2).(sleepTime := 10)
  }

  lemma SleeperKilled() returns (t: Sys)
    ensures KillCall(S10(), 2) == Then(t, true, 0, []) && OneListed(t)
  {
    hide Then;
    NoQueues(2);
    FreeAt(4);
    var s := S10();
    assert [2, 3][..1] == [2] && [] + [2] == [2];
    t := s.(procs := s.procs[2 := P(1, [], Zombie, 2).(sleepTime := 10)], sleepers := [2], toZombify := [2]);
    assert s.procs[2 := s.procs[2].(returnCode := 0)] == s.procs;
    assert RequestZombify(s.(sleepers := [2]), 2) == Ok(t);
  }

  lemma BuriedSleepers(t: Sys)
    requires OneListed(t)
    ensures var d := WithoutChild(t);
            Pick(d) == Ok(d) && d.sleepers == [2] && 2 !in d.procs && 3 in d.procs && d.procs[3].state == Sleeping
  {}

  // ----- the death of a childless child of pid 1 -----

  function WithoutChild(t: Sys): Sys
    requires 1 in t.procs
  {
    var children := Remove(t.procs[1].children, 2);
    t.(toZombify := [], free := t.free + [2], procs := t.procs[1 := t.procs[1].(children := children)] - {2})
  }

  lemma ChildBuried(t: Sys)
    requires t.running == 1 && 1 in t.procs && 2 in t.procs && |t.free| < MAX_PROCS && t.procs[1].state == Running
    requires t.toZombify == [2] && t.toDestroy == [] && t.procs[2].children == [] && t.procs[2].father == 1
    requires t.procs[2].state == Zombie && !t.procs[2].deallocated && !t.procs[2].sealed
    ensures Schedule(t) == Pick(WithoutChild(t))
  {
    hide Pick;
    var u := ChildSealed(t);
    ChildDestroyed(t, u);
    hide ZombifyAll, DestroyAll;
    assert Clean(t) == Ok(WithoutChild(t));
  }

  function SealedCorpse(p: Proc): Proc { p.(deallocated := true, sealed := true) }

  lemma ChildSealed(t: Sys) returns (u: Sys)
    requires t.running == 1 && 1 in t.procs && 2 in t.procs && t.procs[1].state == Running
    requires t.toZombify == [2] && t.toDestroy == [] && t.procs[2].children == [] && t.procs[2].father == 1
    requires t.procs[2].state == Zombie && !t.procs[2].deallocated && !t.procs[2].sealed
    ensures ZombifyAll(t) == Ok(u)
    ensures u == t.(procs := t.procs[2 := SealedCorpse(t.procs[2])], toZombify := [], toDestroy := [2])
  {
    assert [2][..0] == [] && [] + [2] == [2];
    assert NextPending(t.toZombify, t.running) == (2, []);
    var t0 := t.(toZombify := []);
    var t1 := t0.(procs := t.procs[2 := t.procs[2].(deallocated := true)]);
    u := t.(procs := t.procs[2 := SealedCorpse(t.procs[2])], toZombify := [], toDestroy := [2]);
    assert t1.procs[2 := SealedCorpse(t.procs[2])] == u.procs;
    assert ReleaseChildren(t1, 2, []) == Ok(t1) && WakeFather(t1, 1, 2) == Ok(t1);
    assert SealOrphan(t1, 1, 2) == RequestDestroy(t1, 2) == Ok(u);
    assert Zombify(t0, 2) == Ok(u);
  }

  lemma ChildDestroyed(t: Sys, u: Sys)
    requires t.running == 1 && 1 in t.procs && 2 in t.procs && t.toDestroy == [] && |t.free| < MAX_PROCS
    requires t.procs[2].children == [] && t.procs[2].father == 1 && t.procs[2].state == Zombie
    requires u == t.(procs := t.procs[2 := SealedCorpse(t.procs[2])], toZombify := [], toDestroy := [2])
    ensures DestroyAll(u) == Ok(WithoutChild(t))
  {
    assert [2][..0] == [];
    var u0 := u.(toDestroy := []);
    assert NextPending(u.toDestroy, u.running) == (2, []);
    var s1 := u0.(procs := u0.procs[1 := u0.procs[1].(children := Remove(u0.procs[1].children, 2))]);
    assert DropChildren(s1, 2, 0) == Ok(s1);
    var d := s1.(free := s1.free + [2], procs := s1.procs - {2});
    assert Destroy(u0, 2) == Ok(d);
    assert DestroyAll(u) == DestroyAll(d) == Ok(d);
    assert d.procs == WithoutChild(t).procs;
  }

  /** Four guarded events lead from boot to that state. */
  lemma KillSleeperReachable()
    ensures var run := [Start(4096, 2, true, true), WaitClock(10), Start(4096, 2, true, true), WaitClock(20)];
            Boot().Ok? && Obeys(Boot().value.sys, run) && After(Boot().value.sys, run) == Ok(S10()) && Inv(S10())
  {
    hide Step, Boot, Inv, S0, S1, S8, S9, S10, Guard, Enabled;
    var run := [Start(4096, 2, true, true), WaitClock(10), Start(4096, 2, true, true), WaitClock(20)];
    BootIsS0();
    FirstStart();
    FirstSleeps();
    ThirdStarts();
    SecondSleeps();
    SleepersGuarded();
    Unroll(S9(), run[3..]);
    Unroll(S8(), run[2..]);
    Unroll(S1(), run[1..]);
    Unroll(S0(), run);
    assert run[3..][1..] == [] && After(S10(), []) == Ok(S10());
    assert Obeys(S10(), []) && Obeys(S9(), run[3..]) && Obeys(S8(), run[2..]) && Obeys(S1(), run[1..])
           && Obeys(S0(), run);
    BootRunOk(run);
  }

  lemma SleepersGuarded()
    ensures Enabled(S0(), Start(4096, 2, true, true)) && Guard(S0(), Start(4096, 2, true, true))
    ensures Enabled(S1(), WaitClock(10)) && Guard(S1(), WaitClock(10))
    ensures Enabled(S8(), Start(4096, 2, true, true)) && Guard(S8(), Start(4096, 2, true, true))
    ensures Enabled(S9(), WaitClock(20)) && Guard(S9(), WaitClock(20))
    ensures S8().running in S8().procs && !ChPrioSafe(S8(), 2, 5)
  {}
}
