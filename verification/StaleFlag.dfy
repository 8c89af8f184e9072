/** A run from boot in which a pid handed out again inherits the flag of a killed process: its blocked
    `psend` returns -1 although its message was accepted. */
module StaleFlag {
  import opened Lists
  import opened Outcomes
  import opened KernelState
  import opened Scheduler
  import opened Syscalls
  import opened Invariant
  import opened ScheduleLemmas
  import opened StartSteps
  import opened Suspension
  import opened Counterexamples
  import opened Witnesses
  import opened Runs

  // ----- a receiver is released and killed before it has run -----

  /** The kernel of `K` with queue 0 of one slot. */
  function KQ(procs: Table, running: int, ready: seq<int>, next: nat, locked: seq<Node>): Sys
    requires 1 <= next <= MAX_PROCS
  {
    K(procs, running, ready, [], next).(queues := map[0 := Queue(1, [], locked)], freeFids := Blank().freeFids[1..])
  }

  function Receiver(): Proc { P(1, [], BlockedByMessage, 1).(cont := InReceive(0)) }

  function Q1(): Sys { KQ(map[1 := P(-1, [], Running, 1)], 1, [], 2, []) }
  function Q2(): Sys { KQ(map[1 := P(-1, [2], Running, 1), 2 := P(1, [], Waiting, 1)], 1, [2], 3, []) }
  function Q3(): Sys { KQ(map[1 := P(-1, [2], Waiting, 1), 2 := P(1, [], Running, 1)], 2, [1], 3, []) }
  function Q4(): Sys { KQ(map[1 := P(-1, [2], Running, 1), 2 := Receiver()], 1, [], 3, [Node(2, 0, true, 1)]) }
  function Q5(): Sys {
    KQ(map[1 := P(-1, [2], Running, 1), 2 := Receiver().(state := Waiting, inbox := -1)], 1, [2], 3,
       []).(released := {2})
  }
  function Q6(): Sys { Q1().(free := Blank().free[2..] + [2], released := {2}) }

  lemma QueueCreated()
    ensures var r := Step(S0(), PCreate(1, true)); r.Ok? && r.value.sys == Q1()
  {}

  lemma ReceiverStarts()
    ensures var r := Step(Q1(), Start(4096, 1, true, true)); r.Ok? && r.value.sys == Q2()
  {
    FreeAt(2);
    var s := Q1();
    assert Register(s, 1) == Ok(s.(free := Q2().free, procs := s.procs[2 := NewProc(1, 1)]));
    var s1 := Register(s, 1).value;
    assert s1.procs[2].father == 1 && 1 in s1.procs;
    var s2 := AddChild(s1, 1, 2);
    assert [2] + [] == [2];
    var s3 := s2.(procs := s2.procs[2 := s2.procs[2].(state := Waiting)]);
    assert Enqueue(s3, 2) == Ok(s3.(ready := [2]));
    assert s3.procs == Q2().procs;
    assert !StartRejects(s, 4096, 1);
    assert StartCall(s, 4096, 1, true, true) == Then(Q2(), false, 2, []);
  }

  lemma ReceiverRuns()
    ensures var r := Step(Q2(), Preempt); r.Ok? && r.value.sys == Q3()
  {
    FreeAt(3);
    var s := Q2();
    ScheduleIsPick(s);
    assert s.procs[2 := P(1, [], Running, 1)][1 := P(-1, [2], Waiting, 1)] == Q3().procs;
    assert [2][..0] == [] && [1] + [] == [1];
    assert Pick(s) == Switch(s, 2);
    var w := s.(ready := [], procs := Q3().procs, running := 2);
    assert Switch(s, 2) == Enqueue(w, 1);
  }

  lemma ReceiverParks()
    ensures var r := Step(Q3(), PReceive(0)); r.Ok? && r.value.sys == Q4()
  {
    FreeAt(3);
    var s := Q3();
    var n := Node(2, 0, true, 1);
    assert InsertNode([], n) == [n] by { assert [] + [n] == [n]; }
    var t := s.(procs := s.procs[2 := Receiver()], queues := map[0 := Queue(1, [], [n])]);
    assert s.queues[0 := Queue(1, [], [n])] == t.queues;
    assert Park(s, 0, 0, InReceive(0)) == t;
    ScheduleIsPick(t);
    assert [1][..0] == [];
    assert t.procs[1 := P(-1, [2], Running, 1)] == Q4().procs;
    assert Pick(t) == Switch(t, 1) == Ok(Q4());
  }

  lemma ReceiverReleased()
    ensures var r := Step(Q4(), PReset(0)); r.Ok? && r.value.sys == Q5()
  {
    var s := Q4();
    var n := Node(2, 0, true, 1);
    var s1 := s.(queues := map[0 := Queue(1, [], [])]);
    assert s.queues[0 := Queue(1, [], [])] == s1.queues;
    var h := s1.(procs := s1.procs[2 := Receiver().(inbox := -1)]);
    assert Hand(s1, n, -1) == h;
    assert [2] + [] == [2];
    assert h.procs[2 := Receiver().(state := Waiting, inbox := -1)] == Q5().procs;
    var a := h.(procs := Q5().procs, ready := [2]);
    assert Awake(h, 2) == Ok(a);
    assert [n][1..] == [];
    assert {} + {2} == {2};
    assert ReleaseAll(s1, [n]) == ReleaseAll(Q5(), []) == Ok(Q5());
    assert !AnyAbove(s, [n]);
  }

  lemma ReceiverKilled()
    ensures var r := Step(Q5(), Kill(2)); r.Ok? && r.value.sys == Q6()
  {
    hide Schedule, Pick, Step, KillCall, Q5, Q6;
    StepIs(Q5(), Kill(2));
    var t := ReceiverDies();
    ChildBuried(t);
    ReceiverGone(t);
  }

  ghost predicate Dying(t: Sys) {
    t == Q5().(procs := Q5().procs[2 := Receiver().(state := Zombie, inbox := -1)], ready := [], toZombify := [2])
  }

  lemma ReceiverDies() returns (t: Sys)
    ensures Dying(t) && KillCall(Q5(), 2) == Then(t, true, 0, [])
    ensures t.running == 1 && 1 in t.procs && 2 in t.procs && |t.free| < MAX_PROCS && t.procs[1].state == Running
    ensures t.toZombify == [2] && t.toDestroy == [] && t.procs[2].children == [] && t.procs[2].father == 1
    ensures t.procs[2].state == Zombie && !t.procs[2].deallocated && !t.procs[2].sealed
  {
    hide Then;
    FreeAt(3);
    var s := Q5();
    t := s.(procs := s.procs[2 := Receiver().(state := Zombie, inbox := -1)], ready := [], toZombify := [2]);
    assert [] + [2] == [2] && Remove([2], 2) == [];
    assert s.procs[2 := s.procs[2].(returnCode := 0)] == s.procs;
    assert NotifyKilled(s.queues, 2) == s.queues;
    assert RequestZombify(s, 2) == Ok(t);
  }

  lemma ReceiverGone(t: Sys)
    requires Dying(t)
    ensures 1 in t.procs && WithoutChild(t) == Q6() && Pick(Q6()) == Ok(Q6())
  {
    FreeAt(3);
    assert Remove([2], 2) == [];
    assert t.procs[1 := P(-1, [], Running, 1)] - {2} == Q6().procs;
  }

  function ReleaseAndKill(): seq<Event> {
    [PCreate(1, true), Start(4096, 1, true, true), Preempt, PReceive(0), PReset(0), Kill(2)]
  }

  lemma ReleaseGuarded()
    ensures Enabled(S0(), PCreate(1, true)) && Guard(S0(), PCreate(1, true))
    ensures Enabled(Q1(), Start(4096, 1, true, true)) && Guard(Q1(), Start(4096, 1, true, true))
    ensures Enabled(Q2(), Preempt) && Guard(Q2(), Preempt)
    ensures Enabled(Q3(), PReceive(0)) && Guard(Q3(), PReceive(0))
    ensures Enabled(Q4(), PReset(0)) && Guard(Q4(), PReset(0))
    ensures Enabled(Q5(), Kill(2)) && Guard(Q5(), Kill(2))
  {}

  /** Only pid 1 is left, and pid 2 is flagged. */
  lemma FlagOutlives()
    ensures Boot().Ok? && Obeys(Boot().value.sys, ReleaseAndKill())
    ensures After(Boot().value.sys, ReleaseAndKill()) == Ok(Q6()) && Inv(Q6())
  {
    hide Step, Boot, Inv, S0, Q1, Q2, Q3, Q4, Q5, Q6, Guard, Enabled;
    var run := ReleaseAndKill();
    BootIsS0();
    QueueCreated();
    ReceiverStarts();
    ReceiverRuns();
    ReceiverParks();
    ReceiverReleased();
    ReceiverKilled();
    ReleaseGuarded();
    Unroll(Q5(), run[5..]);
    Unroll(Q4(), run[4..]);
    Unroll(Q3(), run[3..]);
    Unroll(Q2(), run[2..]);
    Unroll(Q1(), run[1..]);
    Unroll(S0(), run);
    assert run[5..][1..] == [] && After(Q6(), []) == Ok(Q6());
    assert Obeys(Q6(), []) && Obeys(Q5(), run[5..]) && Obeys(Q4(), run[4..]) && Obeys(Q3(), run[3..]);
    assert Obeys(Q2(), run[2..]) && Obeys(Q1(), run[1..]) && Obeys(S0(), run);
    BootRunOk(run);
  }

  // ----- the pid comes round again -----

  /** Everybody but pid 2 is at the lowest priority and outside any call; queue 0 is `q`, and pid 2 is flagged. */
  ghost predicate Staged(s: Sys, q: Queue) {
    && INIT in s.procs && (forall p :: p in s.procs && p != 2 ==> s.procs[p].prio == 1 && s.procs[p].cont == Idle)
    && s.queues == map[0 := q] && 2 in s.released && s.toZombify == [] && s.toDestroy == []
  }

  lemma StagedByFill(t: Sys)
    requires Filled(Q6(), t, 510)
    ensures Staged(t, Queue(1, [], [])) && t.running == 1 && t.free == [2]
  {
    FreeAt(3);
    var free := Q6().free;
    assert |Blank().free[2..]| == 510 && free[510..] == [2];
  }

  lemma Q6Idle()
    ensures Q6().running in Q6().procs && Q6().procs[Q6().running].cont == Idle && |Q6().free| == 511
  {
    FreeAt(3);
  }

  lemma {:induction false} InsertTop(procs: Table, q: seq<int>, p: int)
    requires forall x :: x in q ==> Prio(procs, x) < Prio(procs, p)
    ensures InsertReady(procs, q, p) == q + [p]
  {
    if q == [] {
      assert [p] + q == q + [p];
    } else {
      assert q[0] in q;
      InsertTop(procs, q[1..], p);
      assert [q[0]] + (q[1..] + [p]) == q + [p];
    }
  }

  lemma ReadyFacts(s: Sys)
    requires Inv(s)
    ensures (forall p :: p in s.ready ==> p in s.procs && s.procs[p].state == Waiting)
    ensures (forall p :: p in s.procs && s.procs[p].state == Waiting ==> p in s.ready)
    ensures s.running in s.procs && s.procs[s.running].state == Running && s.running != 0
    ensures INIT in s.procs && INIT != s.running ==> INIT in s.ready
  {
    hide FidsOk, SleepOk, QueuesOk, ChildrenLast, WaitsOk, NoInversion, Undoomed, TreeOk, AllRooted, LifeOk;
    assert s.running in s.procs;
  }

  lemma SenderStarts(s: Sys)
    requires Inv(s) && Staged(s, Queue(1, [], [])) && s.running == 1 && s.free == [2]
    ensures var e := Start(4096, 2, true, true);
            && Enabled(s, e) && Guard(s, e) && Step(s, e).Ok?
            && var t := Step(s, e).value.sys;
            Staged(t, Queue(1, [], [])) && t.running == 2 && 2 in t.procs && t.procs[2].cont == Idle
            && t.procs[2].prio == 2 && t.free == []
  {
    hide Inv, StartCall, Step, Started, Schedule, Pick;
    var e := Start(4096, 2, true, true);
    ReadyFacts(s);
    StepIs(s, e);
    assert !StartRejects(s, 4096, 2);
    var t := StartFills(s, 4096, 2);
    SenderOnTop(s, t);
    ScheduleIsPick(t);
  }

  lemma SenderOnTop(s: Sys, t: Sys)
    requires Staged(s, Queue(1, [], [])) && s.running == 1 && s.free == [2] && StartedTo(s, t, 2)
    requires Prio(t.procs, 2) == 2 && 2 !in s.procs
    requires (forall p :: p in s.ready ==> p in s.procs) && s.procs[1].state == Running && 1 !in s.ready
    ensures t.running == 1 && 1 in t.procs && t.procs[1].prio == 1 && t.toZombify == [] && t.toDestroy == []
    ensures Pick(t).Ok? && var u := Pick(t).value;
                        Staged(u, Queue(1, [], [])) && u.running == 2 && 2 in u.procs && u.procs[2].cont == Idle
                        && u.procs[2].prio == 2 && u.free == []
  {
    hide InsertReady, Pick;
    InsertTop(t.procs, s.ready, 2);
    PickTop(t, s.ready);
  }

  lemma PickTop(t: Sys, ready: seq<int>)
    requires t.running == 1 && 1 in t.procs && 2 in t.procs && t.procs[1].state == Running && t.procs[1].prio == 1
    requires t.procs[2].prio == 2
    requires t.ready == ready + [2] && 1 !in ready
    ensures Pick(t).Ok?
    ensures var u := Pick(t).value;
            && u.running == 2 && u == t.(running := 2, procs := u.procs, ready := u.ready)
            && u.procs == t.procs[2 := t.procs[2].(state := Running)][1 := t.procs[1].(state := Waiting)]
  {
    hide InsertReady;
    assert (ready + [2])[..|ready|] == ready;
    assert Pick(t) == Switch(t, 2);
  }

  lemma FirstSend(s: Sys)
    requires Staged(s, Queue(1, [], [])) && s.running == 2 && 2 in s.procs && s.procs[2].cont == Idle
    ensures var e := PSend(0, 7);
            && Enabled(s, e) && Guard(s, e) && Step(s, e).Ok?
            && Step(s, e).value.sys == s.(queues := map[0 := Queue(1, [7], [])])
  {
    assert [] + [7] == [7];
  }

  /** The second message finds the queue full. */
  lemma SecondSend(s: Sys)
    requires Inv(s) && Staged(s, Queue(1, [7], [])) && s.running == 2 && 2 in s.procs && s.procs[2].cont == Idle
    requires s.procs[2].prio == 2 && s.free == []
    ensures var e := PSend(0, 8);
            && Enabled(s, e) && Guard(s, e) && Step(s, e).Ok?
            && var t := Step(s, e).value.sys;
            && Staged(t, Queue(1, [7], [Node(2, 8, false, 2)])) && t.running != 2 && t.free == []
            && 2 in t.procs && t.procs[2].cont == InSend(0, 8) && t.procs[2].prio == 2
  {
    hide Inv, Step, Schedule, Pick;
    var e := PSend(0, 8);
    ReadyFacts(s);
    StepIs(s, e);
    var n := Node(2, 8, false, 2);
    assert InsertNode([], n) == [n] by { assert [] + [n] == [n]; }
    var t := Park(s, 0, 8, InSend(0, 8));
    assert t.queues == map[0 := Queue(1, [7], [n])];
    ScheduleIsPick(t);
    OtherRuns(s, t);
  }

  lemma OtherRuns(s: Sys, t: Sys)
    requires s.running == 2 && 2 in s.procs && s.free == [] && (forall p :: p in s.ready ==> p in s.procs && p != 2)
    requires s.ready != []
    requires INIT in s.procs && (forall p :: p in s.procs && p != 2 ==> s.procs[p].prio == 1 && s.procs[p].cont == Idle)
    requires t == s.(queues := t.queues, procs := t.procs)
    requires t.procs == s.procs[2 := s.procs[2].(state := BlockedByMessage, cont := InSend(0, 8))]
    ensures Pick(t).Ok?
    ensures var u := Pick(t).value;
            && u.running in u.procs && u.running != 2
            && u == t.(running := u.running, procs := u.procs, ready := u.ready)
            && INIT in u.procs
            && (forall p :: p in u.procs && p != 2 ==> u.procs[p].prio == 1 && u.procs[p].cont == Idle)
            && 2 in u.procs && u.procs[2] == t.procs[2]
  {
    var c := t.ready[|t.ready| - 1];
    assert c in s.ready;
    assert Pick(t) == Switch(t, c);
  }

  /** The receiver that runs instead takes the first message and, with it, lets the second one in. */
  lemma SenderServed(s: Sys)
    requires Inv(s) && Staged(s, Queue(1, [7], [Node(2, 8, false, 2)])) && s.running != 2 && s.free == []
    requires 2 in s.procs && s.procs[2].cont == InSend(0, 8) && s.procs[2].prio == 2
    ensures var e := PReceive(0);
            && Enabled(s, e) && Guard(s, e) && Step(s, e).Ok? && Accepted(0, 8) in Step(s, e).value.effects
            && var t := Step(s, e).value.sys;
            t.running == 2 && 2 in t.procs && t.procs[2].cont == InSend(0, 8) && 2 in t.released
  {
    hide Inv, Step, Schedule, Pick, Enqueue;
    var e := PReceive(0);
    ReadyFacts(s);
    StepIs(s, e);
    ParkedOnZero(s);
    var t := WokenSender(s);
    ScheduleIsPick(t);
    SenderChosen(t);
  }

  lemma ParkedOnZero(s: Sys)
    requires Inv(s) && 0 in s.queues && s.queues[0].locked == [Node(2, 8, false, 2)]
    ensures Parked(s, 2) && 2 !in s.ready
  {
    hide FidsOk, SleepOk, ChildrenLast, WaitsOk, NoInversion, Undoomed, TreeOk, AllRooted, LifeOk;
    assert NodeOk(s.procs, 0, s.queues[0].locked[0]);
  }

  lemma WokenSender(s: Sys) returns (t: Sys)
    requires Staged(s, Queue(1, [7], [Node(2, 8, false, 2)])) && s.running != 2 && 2 !in s.ready && s.running in s.procs
    requires 2 in s.procs && s.procs[2].prio == 2 && (forall p :: p in s.ready ==> p in s.procs)
    ensures PReceiveCall(s, 0) ==
            var r := Then(t, true, 0, [Delivered(0, 7), Accepted(0, 8)]);
            if r.Ok? then Ok(r.value.(out := 7)) else Panic
    ensures t == s.(queues := t.queues, procs := s.procs[2 := s.procs[2].(state := Waiting)], ready := s.ready + [2])
  {
    hide Then;
    var q1 := Queue(1, [8], []);
    var s1 := s.(queues := s.queues[0 := q1]);
    t := s1.(procs := s.procs[2 := s.procs[2].(state := Waiting)], ready := s.ready + [2]);
    assert forall p :: p in s.ready ==> Prio(t.procs, p) == 1;
    InsertTop(t.procs, s.ready, 2);
    assert Awake(s1, 2) == Ok(t);
    assert [7][1..] + [8] == [8] && [Node(2, 8, false, 2)][1..] == [];
    assert Above(t, 2);
  }

  lemma SenderChosen(t: Sys)
    requires t.running != 2 && t.running in t.procs && t.running != 0 && t.procs[t.running].state == Running
    requires t.running !in t.ready
    requires 2 in t.procs && t.procs[2].prio == 2 && t.ready != [] && t.ready[|t.ready| - 1] == 2 && INIT in t.procs
    requires forall p :: p in t.procs && p != 2 ==> t.procs[p].prio == 1
    ensures Pick(t).Ok?
            && var u := Pick(t).value;
            u.running == 2 && 2 in u.procs && u.procs[2].cont == t.procs[2].cont && u.released == t.released
  {
    hide InsertReady;
    assert t.running !in t.ready[..|t.ready| - 1];
    assert Pick(t) == Switch(t, 2);
  }

  function StaleRun(): seq<Event> {
    ReleaseAndKill() + Fillers(510) + Blocking()
  }

  function Blocking(): seq<Event> { [Start(4096, 2, true, true), PSend(0, 7), PSend(0, 8)] }

  lemma SenderBlocks(s: Sys)
    requires Inv(s) && Staged(s, Queue(1, [], [])) && s.running == 1 && s.free == [2]
    ensures Obeys(s, Blocking()) && After(s, Blocking()).Ok?
    ensures var t := After(s, Blocking()).value;
            && Inv(t) && Staged(t, Queue(1, [7], [Node(2, 8, false, 2)])) && t.running != 2 && t.free == []
            && 2 in t.procs && t.procs[2].cont == InSend(0, 8) && t.procs[2].prio == 2
  {
    hide Inv, Step, Guard, Enabled;
    var run := Blocking();
    SenderStarts(s);
    StepOk(s, run[0]);
    var s1 := Step(s, run[0]).value.sys;
    FirstSend(s1);
    StepOk(s1, run[1]);
    var s2 := Step(s1, run[1]).value.sys;
    SecondSend(s2);
    StepOk(s2, run[2]);
    var s3 := Step(s2, run[2]).value.sys;
    Unroll(s2, run[2..]);
    Unroll(s1, run[1..]);
    Unroll(s, run);
    assert run[2..][1..] == [] && After(s3, []) == Ok(s3);
    assert Obeys(s3, []) && Obeys(s2, run[2..]) && Obeys(s1, run[1..]) && Obeys(s, run);
  }

  /** The flag is there when pid 2 parks; its message is accepted; its call returns -1. */
  lemma StaleFlagReturns()
    ensures Boot().Ok? && Obeys(Boot().value.sys, StaleRun()) && After(Boot().value.sys, StaleRun()).Ok?
    ensures var s := After(Boot().value.sys, StaleRun()).value;
            && Parked(s, 2) && s.procs[2].cont == InSend(0, 8) && 2 in s.released
            && Enabled(s, PReceive(0)) && Guard(s, PReceive(0)) && Step(s, PReceive(0)).Ok?
            && Accepted(0, 8) in Step(s, PReceive(0)).value.effects
            && var u := Step(s, PReceive(0)).value.sys;
            u.running == 2 && Enabled(u, Resume) && Step(u, Resume).Ok? && Step(u, Resume).value.ret == -1
  {
    hide Inv, Step, Guard, Enabled, Boot, Q6, Fillers, Filled, Staged, Blocking, ReleaseAndKill;
    FlagOutlives();
    BootOk();
    var s0 := Boot().value.sys;
    Q6Idle();
    Fill(Q6(), 510);
    var t := After(Q6(), Fillers(510)).value;
    StagedByFill(t);
    SenderBlocks(t);
    RunsJoin(Q6(), Fillers(510), Blocking());
    RunsJoin(s0, ReleaseAndKill(), Fillers(510) + Blocking());
    assert StaleRun() == ReleaseAndKill() + (Fillers(510) + Blocking());
    var s := After(t, Blocking()).value;
    StagedFlag(s, Queue(1, [7], [Node(2, 8, false, 2)]));
    SenderServed(s);
    var u := Step(s, PReceive(0)).value.sys;
    FlaggedReturn(u);
  }

  lemma StagedFlag(s: Sys, q: Queue)
    requires Inv(s) && Staged(s, q) && q.locked == [Node(2, 8, false, 2)]
    ensures 2 in s.released && Parked(s, 2)
  {
    hide Inv;
    ParkedOnZero(s);
  }

  lemma FlaggedReturn(u: Sys)
    requires u.running == 2 && 2 in u.procs && u.procs[2].cont == InSend(0, 8) && 2 in u.released
    ensures Enabled(u, Resume) && Step(u, Resume).Ok? && Step(u, Resume).value.ret == -1
  {}
}
