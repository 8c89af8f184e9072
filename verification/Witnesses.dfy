/** Joining runs, and a run from boot that fills the process table: there a ready process can be above the
    running one. */
module Witnesses {
  import opened Outcomes
  import opened KernelState
  import opened Scheduler
  import opened Syscalls
  import opened Invariant
  import opened QueueLemmas
  import opened ScheduleLemmas
  import opened StartSteps
  import opened Counterexamples
  import opened Runs

  // ----- runs one after the other -----

  lemma {:induction false} RunsJoin(s: Sys, a: seq<Event>, b: seq<Event>)
    requires Inv(s) && Obeys(s, a) && After(s, a).Ok? && Obeys(After(s, a).value, b)
    ensures Obeys(s, a + b) && After(s, a + b) == After(After(s, a).value, b)
    decreases |a|
  {
    hide Inv, Step, Guard, Enabled;
    if a == [] {
      assert a + b == b;
    } else {
      assert (a + b)[0] == a[0] && (a + b)[1..] == a[1..] + b;
      StepOk(s, a[0]);
      RunsJoin(Step(s, a[0]).value.sys, a[1..], b);
    }
  }

  lemma OneEvent(s: Sys, e: Event)
    requires Enabled(s, e) && Guard(s, e) && Step(s, e).Ok?
    ensures Obeys(s, [e]) && After(s, [e]) == Ok(Step(s, e).value.sys)
  {
    hide Step, Guard, Enabled;
    var t := Step(s, e).value.sys;
    assert [e][1..] == [];
    assert Obeys(t, []) && After(t, []) == Ok(t);
  }

  // ----- filling the table -----

  const FILLER: Event := Start(4096, 1, true, true)

  function Fillers(n: nat): seq<Event> { seq(n, i => FILLER) }

  /** `n` more processes of the lowest priority, none of which has run. */
  ghost predicate Filled(s: Sys, t: Sys, n: nat) {
    && n <= |s.free| && t.free == s.free[n..]
    && t.running == s.running && t.released == s.released && t.queues == s.queues
    && t.toZombify == s.toZombify && t.toDestroy == s.toDestroy
    && (forall q :: q in s.procs ==> q in t.procs && t.procs[q] == s.procs[q].(children := t.procs[q].children))
    && (forall q :: q in t.procs && q !in s.procs ==> t.procs[q].prio == 1 && t.procs[q].cont == Idle)
  }

  lemma FillOnce(s: Sys)
    requires Inv(s) && s.running in s.procs && s.procs[s.running].cont == Idle && s.free != []
    ensures Enabled(s, FILLER) && Guard(s, FILLER) && Step(s, FILLER).Ok? && Filled(s, Step(s, FILLER).value.sys, 1)
  {
    hide Inv, StartCall, Step, Then, Filled, StartedTo, StartRejects, Enabled, Guard;
    LowestBelow(s);
    FillerAllowed(s);
    StepIs(s, FILLER);
    var t := StartFills(s, 4096, 1);
    FilledByStart(s, t);
    ThenQuiet(t, s.free[0]);
  }

  lemma FillerAllowed(s: Sys)
    requires s.running in s.procs && s.procs[s.running].cont == Idle && s.free != []
    ensures Enabled(s, FILLER) && Guard(s, FILLER) && !StartRejects(s, 4096, 1)
  {}

  lemma ThenQuiet(t: Sys, ret: int)
    ensures Then(t, false, ret, []).Ok? && Then(t, false, ret, []).value.sys == t
  {}

  lemma LowestBelow(s: Sys)
    requires Inv(s)
    ensures s.running in s.procs && Prio(s.procs, s.running) >= 1
  {
    hide FidsOk, ReadyOk, SleepOk, QueuesOk, ChildrenLast, WaitsOk, NoInversion, Undoomed, TreeOk, AllRooted;
    hide LifeOk, PidsOk;
  }

  lemma FilledByStart(s: Sys, t: Sys)
    requires s.free != [] && StartedTo(s, t, s.free[0]) && Prio(t.procs, s.free[0]) == 1
    ensures Filled(s, t, 1) && Prio(t.procs, s.running) == Prio(s.procs, s.running)
  {}

  lemma FilledTwice(s: Sys, t: Sys, u: Sys, n: nat)
    requires Filled(s, t, 1) && Filled(t, u, n)
    ensures Filled(s, u, n + 1)
  {
    assert s.free[1..][n..] == s.free[n + 1..];
  }

  lemma {:induction false} Fill(s: Sys, n: nat)
    requires Inv(s) && s.running in s.procs && s.procs[s.running].cont == Idle && n <= |s.free|
    ensures Obeys(s, Fillers(n)) && After(s, Fillers(n)).Ok? && Inv(After(s, Fillers(n)).value)
    ensures Filled(s, After(s, Fillers(n)).value, n)
    decreases n
  {
    hide Inv, Step, Guard, Enabled, Filled, Fillers;
    if n == 0 {
      FilledNone(s);
    } else {
      FillOnce(s);
      StepOk(s, FILLER);
      var t := Step(s, FILLER).value.sys;
      FilledFacts(s, t);
      FillersSplit(n);
      Fill(t, n - 1);
      FilledTwice(s, t, After(t, Fillers(n - 1)).value, n - 1);
    }
  }

  lemma FilledNone(s: Sys)
    ensures Fillers(0) == [] && Filled(s, s, 0)
  {
    assert s.free[0..] == s.free;
  }

  lemma FillersSplit(n: nat)
    requires n > 0
    ensures Fillers(n) != [] && Fillers(n)[0] == FILLER && Fillers(n)[1..] == Fillers(n - 1)
  {}

  lemma FilledFacts(s: Sys, t: Sys)
    requires Filled(s, t, 1) && s.running in s.procs && s.procs[s.running].cont == Idle
    ensures t.running in t.procs && t.procs[t.running].cont == Idle && |t.free| == |s.free| - 1
  {}

  // ----- a full table -----

  function FillingRun(): seq<Event> {
    [Start(4096, 2, true, true)] + Fillers(509) + [Start(4096, 3, true, true)]
  }

  /** The process that fills the table starts one above itself, and goes on running. */
  lemma LastStart(s: Sys)
    requires Inv(s) && s.running == 2 && 2 in s.procs && s.procs[2].cont == Idle && s.procs[2].prio == 2
    requires INIT in s.procs && s.procs[INIT].prio == 1 && |s.free| == 1 && s.toZombify == [] && s.toDestroy == []
    ensures var e := Start(4096, 3, true, true);
            Enabled(s, e) && Guard(s, e) && Step(s, e).Ok? && !Fair(Step(s, e).value.sys)
            && Step(s, e).value.sys.running == 2
  {
    hide Inv, StartCall, Step, StartedTo, Schedule, Fair, Pick;
    var e := Start(4096, 3, true, true);
    RunsNow(s);
    StepIs(s, e);
    assert !StartRejects(s, 4096, 3);
    var t := StartFills(s, 4096, 3);
    StartedStays(s, t);
    ScheduleIsPick(t);
  }

  lemma StartedStays(s: Sys, t: Sys)
    requires |s.free| == 1 && StartedTo(s, t, s.free[0]) && Prio(t.procs, s.free[0]) == 3
    requires s.running == 2 && 2 in s.procs && s.procs[2].prio == 2 && s.procs[2].state == Running
    requires INIT in s.procs && s.procs[INIT].prio == 1 && s.toZombify == [] && s.toDestroy == []
    ensures Pick(t) == Ok(t) && !Fair(t) && t.running == 2 && Prio(t.procs, 2) == 2 && t.toZombify == []
    ensures t.toDestroy == []
  {
    InsertReadyMembers(t.procs, s.ready, s.free[0]);
    assert s.free[0] in t.ready;
    assert t.free == [];
    hide InsertReady;
  }

  lemma RunsNow(s: Sys)
    requires Inv(s)
    ensures s.procs[s.running].state == Running
  {
    hide FidsOk, ReadyOk, SleepOk, QueuesOk, ChildrenLast, WaitsOk, NoInversion, Undoomed, TreeOk, AllRooted;
    hide LifeOk, PidsOk;
  }

  /** With all 512 slots in use a process above the running one is ready and does not run. */
  lemma FullTableInverts()
    ensures Boot().Ok? && Obeys(Boot().value.sys, FillingRun()) && After(Boot().value.sys, FillingRun()).Ok?
    ensures !Fair(After(Boot().value.sys, FillingRun()).value)
  {
    hide Inv, Step, Guard, Enabled, Boot, S0, S1, Fair, Fillers, Filled;
    var e1, e3 := Start(4096, 2, true, true), Start(4096, 3, true, true);
    BootIsS0();
    BootOk();
    FirstStart();
    StartedS1();
    StepOk(S0(), e1);
    OneEvent(S0(), e1);
    Fill(S1(), 509);
    var t := After(S1(), Fillers(509)).value;
    AlmostFull(t);
    LastStart(t);
    OneEvent(t, e3);
    RunsJoin(S1(), Fillers(509), [e3]);
    RunsJoin(S0(), [e1], Fillers(509) + [e3]);
    assert FillingRun() == [e1] + (Fillers(509) + [e3]);
  }

  lemma StartedS1()
    ensures Enabled(S0(), Start(4096, 2, true, true)) && Guard(S0(), Start(4096, 2, true, true))
    ensures S1().running in S1().procs && S1().procs[S1().running].cont == Idle && |S1().free| == 510
  {
    FreeAt(3);
  }

  lemma AlmostFull(t: Sys)
    requires Filled(S1(), t, 509)
    ensures t.running == 2 && 2 in t.procs && t.procs[2].cont == Idle && t.procs[2].prio == 2
    ensures INIT in t.procs && t.procs[INIT].prio == 1 && |t.free| == 1 && t.toZombify == [] && t.toDestroy == []
  {
    FreeAt(3);
  }
}
