/** Every step and every run of the kernel. */
module Runs {
  import opened Outcomes
  import opened KernelState
  import opened Scheduler
  import opened Syscalls
  import opened Invariant
  import opened PanicLemmas
  import opened WakeLemmas
  import opened QueueSteps
  import opened ResetSteps
  import opened ClockSteps
  import opened WaitSteps
  import opened ChPrioSteps
  import opened StartSteps
  import opened DieSteps

  /** What a caller can check beforehand: pid 1 neither blocks nor dies, `start` finds memory, `chprio`
      spares sleepers and an empty queue, `kill` hits the last sleeper or none, and a death leaves no
      family the cleaning cannot handle. */
  ghost predicate Guard(s: Sys, e: Event) {
    match e
    case Start(stackSize, prio, k, u) => StartRejects(s, stackSize, prio) || (k && u)
    case Exit(_) => FamilyAllows(s, s.running)
    case Kill(p) => KillRejects(s, p) || (FamilyAllows(s, p) && LastSleeper(s, p))
    case WaitPid(p) => s.running == INIT ==> !WaitBlocks(s, p)
    case WaitClock(c) => s.running == INIT ==> c <= 0
    case ChPrio(p, prio) => ChPrioSafe(s, p, prio)
    case PSend(f, _) => s.running == INIT ==> !SendBlocks(s, f)
    case PReceive(f) => s.running == INIT ==> !ReceiveBlocks(s, f)
    case _ => true
  }

  /** No step allowed by its guard panics, and it keeps the invariant. */
  lemma StepOk(s: Sys, e: Event)
    requires Inv(s) && Enabled(s, e) && Guard(s, e)
    ensures Step(s, e).Ok? && Inv(Step(s, e).value.sys) && CodesKept(s, Step(s, e).value.sys)
    ensures FairReply(s, Step(s, e).value)
  {
    hide Inv, FamilyAllows, StartCall, ExitCall, KillCall, WaitPidCall, WaitClockCall, ChPrioCall, TickCall, Then;
    hide PCreateCall, PResetCall, PDeleteCall, PSendCall, PReceiveCall, ResumeCall;
    match e {
      case Preempt => PreemptOk(s);
      case Tick(now) => TickOk(s, now);
      case Start(stackSize, prio, k, u) => StartOk(s, stackSize, prio, k, u);
      case Exit(code) => ExitOk(s, code);
      case Kill(p) => KillOk(s, p);
      case WaitPid(p) => WaitPidOk(s, p);
      case WaitClock(c) => WaitClockOk(s, c);
      case ChPrio(p, prio) => ChPrioOk(s, p, prio);
      case PCreate(n, ok) => PCreateOk(s, n, ok);
      case PCount(_) =>
      case PReset(f) => PResetOk(s, f);
      case PDelete(f) => PDeleteOk(s, f);
      case PSend(f, m) => PSendOk(s, f, m);
      case PReceive(f) => PReceiveOk(s, f);
      case Resume => ResumeOk(s);
    }
  }

  /** Which call an event stands for. */
  lemma StepIs(s: Sys, e: Event)
    ensures e.Preempt? ==> Step(s, e) == Then(s, true, 0, [])
    ensures e.Tick? ==> Step(s, e) == TickCall(s, e.now)
    ensures e.Start? ==> Step(s, e) == StartCall(s, e.stackSize, e.prio, e.kernelStackOk, e.userStackOk)
    ensures e.Exit? ==> Step(s, e) == ExitCall(s, e.code)
    ensures e.Kill? ==> Step(s, e) == KillCall(s, e.pid)
    ensures e.WaitPid? ==> Step(s, e) == WaitPidCall(s, e.pid)
    ensures e.WaitClock? ==> Step(s, e) == WaitClockCall(s, e.clock)
    ensures e.ChPrio? ==> Step(s, e) == ChPrioCall(s, e.pid, e.prio)
    ensures e.PCreate? ==> Step(s, e) == PCreateCall(s, e.count, e.bufferOk)
    ensures e.PCount? ==> Step(s, e) == PCountCall(s, e.fid)
    ensures e.PReset? ==> Step(s, e) == PResetCall(s, e.fid)
    ensures e.PDelete? ==> Step(s, e) == PDeleteCall(s, e.fid)
    ensures e.PSend? ==> Step(s, e) == PSendCall(s, e.fid, e.message)
    ensures e.PReceive? ==> Step(s, e) == PReceiveCall(s, e.fid)
    ensures e.Resume? ==> Step(s, e) == ResumeCall(s)
  {
    hide Then, TickCall, StartCall, ExitCall, KillCall, WaitPidCall, WaitClockCall, ChPrioCall, PCreateCall, PCountCall;
    hide PResetCall, PDeleteCall, PSendCall, PReceiveCall, ResumeCall;
  }

  /** A step that calls `schedule` ends where `schedule` ends. */
  lemma ScheduledBy(s: Sys, e: Event)
    requires Step(s, e).Ok?
    ensures var r := Step(s, e).value; r.entry.Scheduled? ==> Schedule(r.entry.from) == Ok(r.sys)
  {
    hide Schedule, WakeSleepers, ResetQueue, ResetEffects, FindZombie, CountUnsealed, Hand;
    hide RequestDestroy, RequestZombify, Awake, Enqueue, Unlink, Register, AddChild, AnyAbove, Withdraw, Park;
    hide NotifyPriority;
  }

  // ----- the initial state -----

  function Alone(): Proc {
    NewProc(NOT_FOUND, 1).(state := Running)
  }

  lemma BootIs()
    ensures Boot().Ok?
    ensures Boot().value.sys == Blank().(procs := map[INIT := Alone()], running := INIT, free := Blank().free[1..])
  {
    var s := Blank();
    var s3 := s.(procs := map[INIT := NewProc(NOT_FOUND, 1).(state := Waiting)], free := s.free[1..], ready := [INIT]);
    assert s.free[0] == INIT;
    assert map[INIT := NewProc(NOT_FOUND, 1)][INIT := NewProc(NOT_FOUND, 1).(state := Waiting)] == s3.procs;
    assert StartCall(s, 8192, 1, true, true) == Then(s3, true, INIT, []) by {
      assert Register(s, 1) == Ok(s.(free := s.free[1..], procs := map[INIT := NewProc(NOT_FOUND, 1)]));
      assert [INIT] + [] == [INIT];
    }
    assert Clean(s3) == Ok(s3);
    assert s3.ready[..0] == [];
    assert s3.procs[INIT := Alone()] == map[INIT := Alone()];
  }

  lemma BlankIds(procs: Table, free: seq<int>, fids: seq<int>)
    requires procs.Keys == {INIT} && free == Blank().free[1..] && fids == Blank().freeFids
    ensures PidsOk(procs, free) && FidsOk(map[], fids)
  {
    assert |free| == MAX_PROCS - 1 && forall i :: 0 <= i < |free| ==> free[i] == i + 2;
    assert |fids| == NB_QUEUES && forall i :: 0 <= i < |fids| ==> fids[i] == i;
    forall p | 1 <= p <= MAX_PROCS && p !in procs ensures p in free {
      assert free[p - 2] == p;
    }
    forall f | 0 <= f < NB_QUEUES ensures f in fids { assert fids[f] == f; }
  }

  lemma AloneOk(procs: Table)
    requires procs == map[INIT := Alone()]
    ensures ReadyOk(procs, []) && SleepOk(procs, []) && StatesOk(procs, INIT) && QueuesOk(procs, map[])
    ensures WaitsOk(procs) && Undoomed(procs, []) && NoInversion(procs, [], INIT)
  {}

  lemma AloneFamily(procs: Table)
    requires procs == map[INIT := Alone()]
    ensures TreeOk(procs) && AllRooted(procs) && LifeOk(procs, [], []) && ChildrenLast(procs, [])
  {
    assert Ranked(procs, map[]);
  }

  lemma BootOk()
    ensures Boot().Ok? && Inv(Boot().value.sys)
  {
    BootIs();
    hide Boot, PidsOk, FidsOk, ReadyOk, SleepOk, StatesOk, QueuesOk, TreeOk, AllRooted, LifeOk, ChildrenLast;
    hide WaitsOk, Undoomed, NoInversion;
    var s := Boot().value.sys;
    BlankIds(s.procs, s.free, s.freeFids);
    AloneOk(s.procs);
    AloneFamily(s.procs);
  }

  // ----- runs -----

  /** The states a run goes through, first to last, as long as nothing panics. */
  ghost function After(s: Sys, run: seq<Event>): Outcome<Sys>
    decreases |run|
  {
    if run == [] then Ok(s)
    else
      var r :- Step(s, run[0]);
      After(r.sys, run[1..])
  }

  /** Every event of the run can happen when it does, and respects its guard. */
  ghost predicate Obeys(s: Sys, run: seq<Event>)
    decreases |run|
  {
    run != [] ==>
      && Enabled(s, run[0]) && Guard(s, run[0])
      && (Step(s, run[0]).Ok? ==> Obeys(Step(s, run[0]).value.sys, run[1..]))
  }

  lemma {:induction false} RunOk(s: Sys, run: seq<Event>)
    requires Inv(s) && Obeys(s, run)
    ensures After(s, run).Ok? && Inv(After(s, run).value)
    decreases |run|
  {
    hide Inv, Guard, Enabled, Step;
    if run != [] {
      StepOk(s, run[0]);
      RunOk(Step(s, run[0]).value.sys, run[1..]);
    }
  }

  /** From boot, a run that obeys the guards never panics and keeps the invariant at every quiescent point. */
  lemma BootRunOk(run: seq<Event>)
    requires Boot().Ok? ==> Obeys(Boot().value.sys, run)
    ensures Boot().Ok? && After(Boot().value.sys, run).Ok? && Inv(After(Boot().value.sys, run).value)
  {
    hide Inv, Guard, Enabled, Step, Boot;
    BootOk();
    RunOk(Boot().value.sys, run);
  }
}
