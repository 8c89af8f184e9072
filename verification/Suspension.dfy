/** What happens to a process suspended in `psend` or `preceive` until it runs again: what it receives and
    what its call returns. */
module Suspension {
  import opened Lists
  import opened KernelState
  import opened Scheduler
  import opened Syscalls
  import opened Invariant
  import opened QueueLemmas
  import opened FrameLemmas
  import opened ScheduleLemmas
  import opened PanicLemmas
  import opened SpareLemmas
  import opened WakeLemmas
  import opened QueueSteps
  import opened ClockSteps
  import opened WaitSteps
  import opened ChPrioSteps
  import opened StartSteps
  import opened DieSteps
  import opened Guarantees
  import opened Runs

  // ----- one step -----

  /** `p` is inside a call on queue `f` that has blocked and not returned. */
  predicate Suspended(s: Sys, p: int, f: int) {
    && p in s.procs && s.procs[p].state != Zombie
    && (s.procs[p].cont.InSend? || s.procs[p].cont.InReceive?) && s.procs[p].cont.fid == f
  }

  predicate Parked(s: Sys, p: int) {
    p in s.procs && s.procs[p].state == BlockedByMessage
  }

  predicate Receives(s: Sys, p: int) {
    p in s.procs && s.procs[p].cont.InReceive?
  }

  /** The event neither kills `p` nor is its own resumption. */
  predicate Spared(s: Sys, e: Event, p: int) {
    e != Kill(p) && !(e.Resume? && s.running == p)
  }

  predicate ResetOf(e: Event, f: int) {
    e == PReset(f) || e == PDelete(f)
  }

  /** The event hands `p` a message, or takes its message, as the first process parked on `f`. */
  predicate Served(s: Sys, e: Event, p: int, f: int) {
    && Parked(s, p) && f in s.queues && s.queues[f].locked != [] && s.queues[f].locked[0].pid == p
    && (if Receives(s, p) then e.PSend? && e.fid == f else e == PReceive(f))
  }

  predicate Freed(s: Sys, e: Event, p: int, f: int) {
    (Parked(s, p) && ResetOf(e, f)) || Served(s, e, p, f)
  }

  /** What the variable of a receiver holds after the event. */
  function Received(s: Sys, e: Event, p: int, f: int): int
    requires p in s.procs
  {
    if !Receives(s, p) then s.procs[p].inbox
    else if Parked(s, p) && ResetOf(e, f) then -1
    else if Served(s, e, p, f) then e.message
    else s.procs[p].inbox
  }

  /** The state in which a step calls `schedule`, or its last one. */
  function Reached(r: Reply): Sys {
    if r.entry.Scheduled? then r.entry.from else r.sys
  }

  /** The slot of `p` in that state. */
  ghost predicate Moves(s: Sys, e: Event, p: int, f: int, t: Sys) {
    && p in s.procs && p in t.procs && (p in t.toDestroy ==> p in s.toDestroy)
    && t.procs[p] == s.procs[p].(prio := t.procs[p].prio, inbox := Received(s, e, p, f),
                     state := if Freed(s, e, p, f) then Waiting else s.procs[p].state)
    && (p in t.ready ==> p in s.ready || Freed(s, e, p, f))
    && (p in t.released <==> p in s.released || (Parked(s, p) && ResetOf(e, f)))
  }

  /** An event that has nothing to do with the call of `p`. */
  lemma Aside(s: Sys, e: Event, p: int, f: int, t: Sys)
    requires p in s.procs && p in t.procs && t.procs[p] == s.procs[p].(prio := t.procs[p].prio)
    requires (p in t.toDestroy ==> p in s.toDestroy) && (p in t.ready ==> p in s.ready)
    requires (p in t.released <==> p in s.released)
    requires !Freed(s, e, p, f)
    ensures Moves(s, e, p, f, t)
  {}

  lemma SuspendedFacts(s: Sys, p: int, f: int)
    requires Inv(s) && Suspended(s, p, f)
    ensures Alive(s, p) && p !in s.sleepers && (Parked(s, p) ==> p !in s.ready) && p != INIT
    ensures s.running in s.procs
    ensures p == s.running ==> s.procs[s.running].cont != Idle
  {
    hide FidsOk, QueuesOk, ChildrenLast, NoInversion, Undoomed, PidsOk, TreeOk, AllRooted;
    assert WaitOk(s.procs, p);
  }

  // ----- events of process.c -----

  lemma TickReached(s: Sys, now: int)
    requires TickCall(s, now).Ok?
    ensures WakeSleepers(s, 0, now).Ok? && Reached(TickCall(s, now).value) == WakeSleepers(s, 0, now).value
  {
    hide Schedule, WakeSleepers;
  }

  lemma TickedSlot(s: Sys, t: Sys, now: int, p: int)
    requires Ticked(s, t, now) && p in s.procs && p !in s.sleepers
    ensures p in t.procs && t.procs[p] == s.procs[p] && (p in t.ready <==> p in s.ready)
    ensures t.toDestroy == s.toDestroy && t.released == s.released
  {}

  lemma TickMoves(s: Sys, now: int, p: int, f: int)
    requires Inv(s) && Suspended(s, p, f)
    ensures TickCall(s, now).Ok? && Moves(s, Tick(now), p, f, Reached(TickCall(s, now).value))
  {
    hide Inv, TickCall, WakeSleepers, FairReply, CodesKept, SameQueues, Ticked, Moves, Reached;
    SuspendedFacts(s, p, f);
    TickOk(s, now);
    TickReached(s, now);
    TickedSlot(s, WakeSleepers(s, 0, now).value, now, p);
    Aside(s, Tick(now), p, f, WakeSleepers(s, 0, now).value);
  }

  lemma StartedSlot(s: Sys, t: Sys, p: int)
    requires s.free != [] && StartedTo(s, t, s.free[0]) && p in s.procs && p != s.running
    ensures p in t.procs && t.procs[p] == s.procs[p] && (p in t.ready ==> p in s.ready)
    ensures t.toDestroy == s.toDestroy && t.released == s.released
  {
    InsertReadyMembers(t.procs, s.ready, s.free[0]);
  }

  lemma ThenReached(s: Sys, again: bool, ret: int, es: seq<Effect>)
    ensures var r := Then(s, again, ret, es); r.Ok? ==> Reached(r.value) == s
  {
    hide Schedule;
  }

  lemma StartMoves(s: Sys, e: Event, p: int, f: int)
    requires Inv(s) && Suspended(s, p, f) && e.Start? && Enabled(s, e) && Guard(s, e)
    ensures Step(s, e).Ok? && Moves(s, e, p, f, Reached(Step(s, e).value))
  {
    hide Inv, StartCall, Step, FairReply, CodesKept, StartRejects, Moves, Reached, StartedTo, Then, SameQueues;
    StepOk(s, e);
    StepIs(s, e);
    SuspendedFacts(s, p, f);
    if StartRejects(s, e.stackSize, e.prio) {
      RejectedStart(s, e.stackSize, e.prio, e.kernelStackOk, e.userStackOk);
      Aside(s, e, p, f, s);
      assert Reached(Return(s, -1).value) == s by { ReturnReached(s, -1); }
    } else {
      var t := StartFills(s, e.stackSize, e.prio);
      ThenReached(t, e.prio > Prio(t.procs, s.running), s.free[0], []);
      StartedSlot(s, t, p);
      Aside(s, e, p, f, t);
    }
  }

  lemma ReturnReached(s: Sys, ret: int)
    ensures Return(s, ret).Ok? && Reached(Return(s, ret).value) == s
  {}

  lemma DieMoves(s: Sys, e: Event, t: Sys, q: int, p: int, f: int)
    requires DiedTo(s, t, q) && p != q && p in s.procs && (e.Exit? || e.Kill?)
    ensures Moves(s, e, p, f, t)
  {
    Aside(s, e, p, f, t);
  }

  lemma ExitMoves(s: Sys, code: int, p: int, f: int)
    requires Inv(s) && Suspended(s, p, f) && s.running != p
    ensures ExitCall(s, code).Ok? ==> Moves(s, Exit(code), p, f, Reached(ExitCall(s, code).value))
  {
    InvParts(s);
    hide Inv, Schedule, ExitCall, Frame, SleepOk, FidsOk, QueuesOk, DiedTo, Moves;
    var t := ExitCalc(s, code);
    DieMoves(s, Exit(code), t, s.running, p, f);
  }

  lemma KillMoves(s: Sys, q: int, p: int, f: int)
    requires Inv(s) && Suspended(s, p, f) && q != p
    ensures KillCall(s, q).Ok? ==> Moves(s, Kill(q), p, f, Reached(KillCall(s, q).value))
  {
    hide Inv, Schedule, DiedTo, Withdraw;
    if KillRejects(s, q) {
      Aside(s, Kill(q), p, f, s);
    } else {
      Whereabouts(s, q);
      var t := KillCalc(s, q);
      hide KillCall, Moves;
      DieMoves(s, Kill(q), t, q, p, f);
    }
  }

  lemma CollectMoves(s: Sys, e: Event, s1: Sys, c: int, p: int, f: int)
    requires Suspended(s, p, f) && s1 == s.(procs := s1.procs) && p in s1.procs && s1.procs[p] == s.procs[p]
    requires c in s1.procs ==> s1.procs[c].state == Zombie
    requires e.WaitPid? || e.Resume?
    ensures Collect(s1, c).Ok? ==> Moves(s, e, p, f, Reached(Collect(s1, c).value))
  {
    if Collect(s1, c).Ok? {
      Aside(s, e, p, f, Collect(s1, c).value.sys);
    }
  }

  lemma BlockMoves(s: Sys, q: int, code: int, p: int, f: int)
    requires Suspended(s, p, f) && s.running in s.procs && s.running != p
    ensures BlockOnChild(s, q, code).Ok? ==> Moves(s, WaitPid(q), p, f, Reached(BlockOnChild(s, q, code).value))
  {
    hide Moves, Then, Reached;
    var me := s.procs[s.running];
    var t := s.(procs := s.procs[s.running := me.(state := BlockedByChild, waitingCode := code, cont := InWait(q))]);
    ThenReached(t, true, 0, []);
    Aside(s, WaitPid(q), p, f, t);
  }

  lemma WaitMoves(s: Sys, q: int, p: int, f: int)
    requires Inv(s) && Suspended(s, p, f) && s.running != p
    ensures WaitPidCall(s, q).Ok? ==> Moves(s, WaitPid(q), p, f, Reached(WaitPidCall(s, q).value))
  {
    hide Inv, Collect, Moves, FindZombie, CountUnsealed, BlockOnChild, Reached, Return;
    SuspendedFacts(s, p, f);
    var z := FindZombie(s.procs, s.procs[s.running].children);
    FindZombieOk(s.procs, s.procs[s.running].children);
    if q < 0 && z != NOT_FOUND { CollectMoves(s, WaitPid(q), s, z, p, f); }
    if q >= 0 && q in s.procs && s.procs[q].state == Zombie { CollectMoves(s, WaitPid(q), s, q, p, f); }
    Aside(s, WaitPid(q), p, f, s);
    ReturnReached(s, -1);
    BlockMoves(s, q, if q < 0 then -1 else q, p, f);
  }

  lemma SleepMoves(s: Sys, clock: int, p: int, f: int)
    requires Inv(s) && Suspended(s, p, f) && s.running != p
    ensures WaitClockCall(s, clock).Ok? ==> Moves(s, WaitClock(clock), p, f, Reached(WaitClockCall(s, clock).value))
  {
    hide Inv, Moves, Then, Reached, Return;
    SuspendedFacts(s, p, f);
    var t := s.(procs := s.procs[s.running := s.procs[s.running].(state := Sleeping, sleepTime := clock)],
    sleepers := s.sleepers + [s.running]);
    ThenReached(t, true, 0, []);
    ReturnReached(s, 0);
    Aside(s, WaitClock(clock), p, f, t);
    Aside(s, WaitClock(clock), p, f, s);
  }

  lemma ChPrioMoves(s: Sys, q: int, prio: int, p: int, f: int)
    requires Inv(s) && Suspended(s, p, f) && s.running in s.procs && ChPrioSafe(s, q, prio)
    ensures ChPrioCall(s, q, prio).Ok? && Moves(s, ChPrio(q, prio), p, f, Reached(ChPrioCall(s, q, prio).value))
  {
    hide Inv, Schedule, ChPrioCall, FairReply, CodesKept, NotifyPriority, Moves, Reached, Then, ReWoke;
    ChPrioOk(s, q, prio);
    if ChPrioRejects(s, q, prio) {
      ChPrioRejected(s, q, prio);
      ReturnReached(s, -1);
      Aside(s, ChPrio(q, prio), p, f, s);
    } else {
      var t := Repositioned(s, q, prio);
      ThenReached(t, prio > Prio(t.procs, s.running) || (q == s.running
                                                         && Prio(t.procs, t.ready[|t.ready| - 1]) > prio),
                  s.procs[q].prio, []);
      RepositionedSlot(s, t, q, prio, p);
      Aside(s, ChPrio(q, prio), p, f, t);
    }
  }

  lemma ChPrioRejected(s: Sys, q: int, prio: int)
    requires ChPrioRejects(s, q, prio)
    ensures ChPrioCall(s, q, prio) == Return(s, -1)
  {}

  lemma RepositionedSlot(s: Sys, t: Sys, q: int, prio: int, p: int)
    requires ReWoke(s, t, q, prio) && p in s.procs
    ensures p in t.procs && t.procs[p] == s.procs[p].(prio := t.procs[p].prio) && t.toDestroy == s.toDestroy
    ensures p in t.ready <==> p in s.ready
  {
    hide Frame, SleepOk, FidsOk, QueuesOk, SameFamily;
  }

  // ----- events of message_queue.c -----

  /** Parked processes are on the list of their queue, and nobody else is. */
  lemma OnList(s: Sys, p: int, f: int, g: int)
    requires Inv(s) && Suspended(s, p, f) && g in s.queues
    ensures (exists i :: 0 <= i < |s.queues[g].locked| && s.queues[g].locked[i].pid == p) <==> Parked(s, p) && f == g
    ensures forall i :: 0 <= i < |s.queues[g].locked| && s.queues[g].locked[i].pid == p ==>
                          (s.queues[g].locked[i].dest <==> Receives(s, p))
    ensures DistinctPids(s.queues[g].locked)
  {
    QueueOf(s, g);
    forall i | 0 <= i < |s.queues[g].locked| && s.queues[g].locked[i].pid == p
      ensures Parked(s, p) && f == g && (s.queues[g].locked[i].dest <==> Receives(s, p))
    {
      assert NodeOk(s.procs, g, s.queues[g].locked[i]);
    }
    if Parked(s, p) && f == g { ListsMean(s, p); }
    hide Inv;
    if Parked(s, p) && f == g {
      var h, i :| NodeAt(s.queues, p, h, i);
      NodeMeans(s, p, h, i);
    }
  }

  /** What releasing a list does to one slot. */
  lemma {:induction false} ReleasedSlot(s: Sys, l: seq<Node>, p: int)
    requires p in s.procs && DistinctPids(l)
    ensures var r := ReleaseAll(s, l);
            r.Ok? ==>
              && p in r.value.procs && r.value.toDestroy == s.toDestroy
              && ((forall i :: 0 <= i < |l| ==> l[i].pid != p) ==>
                    r.value.procs[p] == s.procs[p] && (p in r.value.ready ==> p in s.ready))
              && (forall i :: 0 <= i < |l| && l[i].pid == p ==>
                                r.value.procs[p] ==
                                s.procs[p].(state := Waiting, inbox := if l[i].dest then -1 else s.procs[p].inbox))
    decreases |l|
  {
    if l != [] && ReleaseAll(s, l).Ok? {
      var h := Hand(s, l[0], -1);
      var a := Awake(h, l[0].pid).value;
      InsertReadyMembers(a.procs, h.ready, l[0].pid);
      var t := a.(released := a.released + {l[0].pid});
      assert p in t.procs && t.toDestroy == s.toDestroy;
      assert l[0].pid != p ==> t.procs[p] == s.procs[p] && (p in t.ready ==> p in s.ready);
      assert l[0].pid == p ==>
          t.procs[p] == s.procs[p].(state := Waiting, inbox := if l[0].dest then -1 else s.procs[p].inbox);
      hide Awake, Hand;
      ReleasedSlot(t, l[1..], p);
      forall i | 0 < i < |l| ensures l[1..][i - 1] == l[i] {}
    }
  }

  lemma ResetMoves(s: Sys, e: Event, g: int, p: int, f: int)
    requires Inv(s) && Suspended(s, p, f) && g in s.queues && ResetOf(e, g)
    ensures ResetQueue(s, g).Ok? ==> Moves(s, e, p, f, ResetQueue(s, g).value)
  {
    hide Inv, ReleaseAll;
    OnList(s, p, f, g);
    var q := s.queues[g];
    var s1 := s.(queues := s.queues[g := q.(messages := [], locked := [])]);
    ReleasedSlot(s1, q.locked, p);
    ReleaseMarks(s1, q.locked);
  }

  lemma ResetCallMoves(s: Sys, e: Event, g: int, p: int, f: int)
    requires Inv(s) && Suspended(s, p, f) && ResetOf(e, g)
    ensures var r := if e.PReset? then PResetCall(s, g) else PDeleteCall(s, g);
            r.Ok? ==> Moves(s, e, p, f, Reached(r.value))
  {
    hide Inv, ResetQueue, AnyAbove, ResetEffects, Schedule;
    if g in s.queues {
      ResetMoves(s, e, g, p, f);
    } else {
      NoQueueNobody(s, p, f, g);
      Aside(s, e, p, f, s);
    }
  }

  lemma NoQueueNobody(s: Sys, p: int, f: int, g: int)
    requires Inv(s) && Suspended(s, p, f) && g !in s.queues
    ensures Parked(s, p) ==> f != g
  {
    if Parked(s, p) { ListsMean(s, p); }
    hide Inv;
    if Parked(s, p) {
      var h, i :| NodeAt(s.queues, p, h, i);
      NodeMeans(s, p, h, i);
    }
  }

  /** The first parked process is woken, and given a value if it wants one. */
  lemma WokenSlot(s: Sys, n: Node, v: int, hand: bool, p: int)
    requires p in s.procs
    ensures var r := Awake(if hand then Hand(s, n, v) else s, n.pid);
            r.Ok? ==>
              && p in r.value.procs && r.value.toDestroy == s.toDestroy && r.value.released == s.released
              && (p != n.pid ==> r.value.procs[p] == s.procs[p] && (p in r.value.ready ==> p in s.ready))
              && (p == n.pid ==> r.value.procs[p] == s.procs[p].(state := Waiting,
                                                     inbox := if hand && n.dest then v else s.procs[p].inbox))
  {
    var h := if hand then Hand(s, n, v) else s;
    var r := Awake(h, n.pid);
    if r.Ok? { InsertReadyMembers(r.value.procs, h.ready, n.pid); }
  }

  /** Parking the running process leaves `p` alone. */
  lemma ParkSlot(s: Sys, g: int, m: int, c: Continuation, p: int)
    requires g in s.queues && s.running in s.procs && p in s.procs && p != s.running
    ensures var t := Park(s, g, m, c);
            p in t.procs && t.procs[p] == s.procs[p] && t.ready == s.ready && t.toDestroy == s.toDestroy
            && t.released == s.released
  {
    hide InsertNode;
  }

  lemma FirstServed(s: Sys, p: int, f: int, g: int)
    requires Inv(s) && Suspended(s, p, f) && g in s.queues && s.queues[g].locked != [] && s.queues[g].locked[0].pid == p
    ensures Parked(s, p) && f == g && (s.queues[g].locked[0].dest <==> Receives(s, p))
    ensures Receives(s, p) <==> s.queues[g].messages == []
  {
    hide Inv;
    OnList(s, p, f, g);
    QueueOf(s, g);
    FirstKind(s.procs, g, s.queues[g]);
    assert s.queues[g].locked[0].pid == p;
  }

  lemma SendMoves(s: Sys, g: int, m: int, p: int, f: int)
    requires Inv(s) && Suspended(s, p, f) && s.running != p
    ensures PSendCall(s, g, m).Ok? ==> Moves(s, PSend(g, m), p, f, Reached(PSendCall(s, g, m).value))
  {
    hide Inv, Schedule, Awake, Hand, Park, InsertNode;
    SuspendedFacts(s, p, f);
    if g !in s.queues {
      NoQueueNobody(s, p, f, g);
      Aside(s, PSend(g, m), p, f, s);
    } else {
      var q := s.queues[g];
      QueueOf(s, g);
      if q.locked != [] && q.locked[0].pid == p { FirstServed(s, p, f, g); }
      if q.messages == [] && q.locked != [] {
        WokenSlot(s.(queues := s.queues[g := q.(locked := q.locked[1..])]), q.locked[0], m, true, p);
      } else if |q.messages| == q.size {
        ParkSlot(s, g, m, InSend(g, m), p);
        Aside(s, PSend(g, m), p, f, Park(s, g, m, InSend(g, m)));
      } else {
        Aside(s, PSend(g, m), p, f, s.(queues := s.queues[g := q.(messages := q.messages + [m])]));
      }
    }
  }

  lemma ReceiveMoves(s: Sys, g: int, p: int, f: int)
    requires Inv(s) && Suspended(s, p, f) && s.running != p
    ensures PReceiveCall(s, g).Ok? ==> Moves(s, PReceive(g), p, f, Reached(PReceiveCall(s, g).value))
  {
    hide Inv, Schedule, Awake, Hand, Park, InsertNode;
    SuspendedFacts(s, p, f);
    if g !in s.queues {
      NoQueueNobody(s, p, f, g);
      Aside(s, PReceive(g), p, f, s);
    } else {
      var q := s.queues[g];
      QueueOf(s, g);
      if q.locked != [] && q.locked[0].pid == p { FirstServed(s, p, f, g); }
      if q.messages == [] {
        ParkSlot(s, g, 0, InReceive(g), p);
        Aside(s, PReceive(g), p, f, Park(s, g, 0, InReceive(g)));
      } else if |q.messages| == q.size && q.locked != [] {
        var q1 := q.(messages := q.messages[1..] + [q.locked[0].message], locked := q.locked[1..]);
        WokenSlot(s.(queues := s.queues[g := q1]), q.locked[0], 0, false, p);
      } else {
        if |q.messages| < q.size { Unparked(s.procs, g, q); }
        Aside(s, PReceive(g), p, f, s.(queues := s.queues[g := q.(messages := q.messages[1..])]));
      }
    }
  }

  lemma ResumeMoves(s: Sys, p: int, f: int)
    requires Inv(s) && Suspended(s, p, f) && s.running != p && s.running in s.procs
    ensures ResumeCall(s).Ok? ==> Moves(s, Resume, p, f, Reached(ResumeCall(s).value))
  {
    hide Inv, Collect, Moves;
    var me := s.procs[s.running];
    var s1 := s.(procs := s.procs[s.running := me.(cont := Idle)]);
    if me.cont.InWait? {
      WokenCanCollect(s);
      var c := if me.cont.target < 0 then me.waitingCode else me.cont.target;
      CollectMoves(s, Resume, s1, c, p, f);
    } else {
      Aside(s, Resume, p, f, ResumeCall(s).value.sys);
    }
  }

  // ----- any step -----

  lemma StepMoves(s: Sys, e: Event, p: int, f: int)
    requires Inv(s) && Enabled(s, e) && Guard(s, e) && Suspended(s, p, f) && Spared(s, e, p)
    ensures Step(s, e).Ok? && Moves(s, e, p, f, Reached(Step(s, e).value))
  {
    hide Inv, Moves, Reached, Step, Guard, FairReply, CodesKept, FamilyAllows;
    StepOk(s, e);
    StepIs(s, e);
    SuspendedFacts(s, p, f);
    NotMine(s, e, p);
    hide TickCall, ExitCall, KillCall, WaitPidCall, WaitClockCall, ChPrioCall, PResetCall, PDeleteCall;
    hide PSendCall, PReceiveCall, ResumeCall, StartCall;
    match e {
      case Preempt => ThenReached(s, true, 0, []); Aside(s, e, p, f, s);
      case Tick(now) => TickMoves(s, now, p, f);
      case Start(_, _, _, _) => StartMoves(s, e, p, f);
      case Exit(code) => ExitMoves(s, code, p, f);
      case Kill(q) => KillMoves(s, q, p, f);
      case WaitPid(q) => WaitMoves(s, q, p, f);
      case WaitClock(c) => SleepMoves(s, c, p, f);
      case ChPrio(q, prio) => ChPrioGuard(s, q, prio); ChPrioMoves(s, q, prio, p, f);
      case PCreate(n, ok) => CreateMoves(s, e, p, f);
      case PCount(_) => CreateMoves(s, e, p, f);
      case PReset(g) => ResetCallMoves(s, e, g, p, f);
      case PDelete(g) => ResetCallMoves(s, e, g, p, f);
      case PSend(g, m) => SendMoves(s, g, m, p, f);
      case PReceive(g) => ReceiveMoves(s, g, p, f);
      case Resume => ResumeMoves(s, p, f);
    }
  }

  /** A process inside a call makes no other. */
  lemma NotMine(s: Sys, e: Event, p: int)
    requires Enabled(s, e) && (s.running == p ==> s.procs[s.running].cont != Idle) && Spared(s, e, p)
    ensures e.Preempt? || e.Tick? || s.running != p
  {}

  lemma ChPrioGuard(s: Sys, q: int, prio: int)
    requires Guard(s, ChPrio(q, prio))
    ensures ChPrioSafe(s, q, prio)
  {}

  lemma CreateMoves(s: Sys, e: Event, p: int, f: int)
    requires Suspended(s, p, f) && (e.PCreate? || e.PCount?) && Step(s, e).Ok?
    ensures Moves(s, e, p, f, Reached(Step(s, e).value))
  {
    Aside(s, e, p, f, Reached(Step(s, e).value));
  }

  /** A suspended process stays suspended in its call; a parked one leaves the queue exactly when the queue is
      reset or deleted, or when it is served; only a reset sets its flag; and a receiver is given the
      message of the sender that serves it, or -1. */
  lemma StepSuspended(s: Sys, e: Event, p: int, f: int)
    requires Inv(s) && Enabled(s, e) && Guard(s, e) && Suspended(s, p, f) && Spared(s, e, p)
    ensures Step(s, e).Ok? && Suspended(Step(s, e).value.sys, p, f)
    ensures var t := Step(s, e).value.sys;
            && t.procs[p].cont == s.procs[p].cont && t.procs[p].inbox == Received(s, e, p, f)
            && (Parked(t, p) <==> Parked(s, p) && !Freed(s, e, p, f))
            && (p in t.released <==> p in s.released || (Parked(s, p) && ResetOf(e, f)))
  {
    hide Inv, Step, Guard, Enabled, Received, Freed, ResetOf, Schedule, Dormant, Spares;
    SuspendedFacts(s, p, f);
    StepMoves(s, e, p, f);
    ScheduledBy(s, e);
    var r := Step(s, e).value;
    var t0 := Reached(r);
    assert Alive(t0, p);
    if r.entry.Scheduled? {
      ScheduleDormant(t0);
      ScheduleSpares(t0);
      KeptBySchedule(t0, r.sys, p);
    }
  }

  lemma KeptBySchedule(t: Sys, u: Sys, p: int)
    requires Dormant(t, u) && Spares(t, u) && Alive(t, p)
    ensures Alive(u, p) && u.procs[p].cont == t.procs[p].cont && u.procs[p].inbox == t.procs[p].inbox
    ensures (p in u.released <==> p in t.released) && (Parked(u, p) ==> Parked(t, p))
    ensures Parked(t, p) && p !in t.ready ==> Parked(u, p)
  {}

  // ----- runs -----

  /** No event of the run kills `p` or resumes it. */
  ghost predicate Undisturbed(s: Sys, run: seq<Event>, p: int)
    decreases |run|
  {
    run != [] ==> Spared(s, run[0], p) && (Step(s, run[0]).Ok? ==> Undisturbed(Step(s, run[0]).value.sys, run[1..], p))
  }

  /** Queue `f` is reset or deleted while `p` is parked on it. */
  ghost predicate WasReset(s: Sys, run: seq<Event>, p: int, f: int)
    decreases |run|
  {
    run != [] && ((Parked(s, p) && ResetOf(run[0], f))
                  || (Step(s, run[0]).Ok? && WasReset(Step(s, run[0]).value.sys, run[1..], p, f)))
  }

  /** `p` is served while it is parked on `f`. */
  ghost predicate WasServed(s: Sys, run: seq<Event>, p: int, f: int)
    decreases |run|
  {
    run != [] && (Served(s, run[0], p, f)
                  || (Step(s, run[0]).Ok? && WasServed(Step(s, run[0]).value.sys, run[1..], p, f)))
  }

  /** Over any run, a suspended process stays in its call, its flag is set exactly by a reset of its queue
      while it is parked, and it leaves the queue exactly by such a reset or by being served, and not
      by both. */
  lemma {:induction false} RunSuspended(s: Sys, run: seq<Event>, p: int, f: int)
    requires Inv(s) && Obeys(s, run) && Suspended(s, p, f) && Undisturbed(s, run, p)
    ensures After(s, run).Ok? && Inv(After(s, run).value) && Suspended(After(s, run).value, p, f)
    ensures After(s, run).value.procs[p].cont == s.procs[p].cont
    ensures p in After(s, run).value.released <==> p in s.released || WasReset(s, run, p, f)
    ensures Parked(After(s, run).value, p) <==> Parked(s, p) && !WasReset(s, run, p, f) && !WasServed(s, run, p, f)
    ensures !(WasReset(s, run, p, f) && WasServed(s, run, p, f))
    ensures !Parked(s, p) ==>
              !WasReset(s, run, p, f) && !WasServed(s, run, p, f)
              && After(s, run).value.procs[p].inbox == s.procs[p].inbox
    decreases |run|
  {
    hide Inv, Step, Guard, Enabled, ResetOf, Spared, Suspended;
    if run != [] {
      StepOk(s, run[0]);
      StepSuspended(s, run[0], p, f);
      RunSuspended(Step(s, run[0]).value.sys, run[1..], p, f);
      ServedOrReset(s, run[0], p, f);
    }
  }

  lemma ServedOrReset(s: Sys, e: Event, p: int, f: int)
    ensures !(Served(s, e, p, f) && ResetOf(e, f)) && (Served(s, e, p, f) ==> Parked(s, p))
  {}

  // ----- what the blocked call returns -----

  /** The value of a resumed call. */
  lemma ResumeReturns(s: Sys, p: int, f: int)
    requires Suspended(s, p, f) && s.running == p
    ensures var r := ResumeCall(s);
            && r.Ok? && (r.value.ret == -1 <==> p in s.released) && (r.value.ret == 0 <==> p !in s.released)
            && (Receives(s, p) ==> r.value.out == s.procs[p].inbox) && p !in r.value.sys.released
  {}

  /** A blocked `psend` or `preceive` returns -1 if its queue was reset or deleted while it was parked, and
      otherwise exactly if a flag was left over when it parked. */
  lemma BlockedCallReturns(s: Sys, run: seq<Event>, p: int, f: int)
    requires Inv(s) && Obeys(s, run) && Suspended(s, p, f) && Parked(s, p) && Undisturbed(s, run, p)
    ensures After(s, run).Ok?
    ensures var t := After(s, run).value;
            t.running == p ==>
              && ResumeCall(t).Ok?
              && (ResumeCall(t).value.ret == -1 <==> p in s.released || WasReset(s, run, p, f))
              && (WasReset(s, run, p, f) <==> !WasServed(s, run, p, f))
  {
    hide Inv, Obeys, Undisturbed, After, WasReset, WasServed, ResumeCall;
    RunSuspended(s, run, p, f);
    var t := After(s, run).value;
    if t.running == p {
      ResumeReturns(t, p, f);
      RunnerRuns(t);
    }
  }

  lemma RunnerRuns(s: Sys)
    requires Inv(s)
    ensures s.running in s.procs && s.procs[s.running].state == Running
  {
    hide FidsOk, ReadyOk, SleepOk, QueuesOk, ChildrenLast, WaitsOk, NoInversion, Undoomed, TreeOk, AllRooted;
    hide LifeOk, PidsOk;
  }

  /** A sender that is served has its message accepted by the queue in that step. */
  lemma ServedSender(s: Sys, e: Event, p: int, f: int)
    requires Inv(s) && Suspended(s, p, f) && Served(s, e, p, f) && !Receives(s, p) && Step(s, e).Ok?
    ensures Accepted(f, s.procs[p].cont.message) in Step(s, e).value.effects
  {
    hide Inv, Schedule, Awake, Park, InsertNode;
    FirstServed(s, p, f, f);
    QueueOf(s, f);
    FirstKind(s.procs, f, s.queues[f]);
    assert PReceiveCall(s, f) == Step(s, e);
  }

  /** A receiver that is served is given the message delivered in that step, and returns it when it runs
      again. */
  lemma ServedReceiver(s: Sys, m: int, run: seq<Event>, p: int, f: int)
    requires Inv(s) && Enabled(s, PSend(f, m)) && Guard(s, PSend(f, m)) && Suspended(s, p, f)
    requires Served(s, PSend(f, m), p, f) && Receives(s, p)
    ensures Step(s, PSend(f, m)).Ok? && Delivered(f, m) in Step(s, PSend(f, m)).value.effects
    ensures var u := Step(s, PSend(f, m)).value.sys;
            Obeys(u, run) && Undisturbed(u, run, p) ==>
              After(u, run).Ok? && (After(u, run).value.running == p ==>
                                      ResumeCall(After(u, run).value).Ok?
                                      && ResumeCall(After(u, run).value).value.out == m)
  {
    hide Inv, Obeys, Undisturbed, After, WasReset, WasServed, ResumeCall, Step, Guard, Enabled;
    var e := PSend(f, m);
    StepSuspended(s, e, p, f);
    StepOk(s, e);
    HandOffEffects(s, m, p, f);
    var u := Step(s, e).value.sys;
    if Obeys(u, run) && Undisturbed(u, run, p) {
      RunSuspended(u, run, p, f);
      var t := After(u, run).value;
      if t.running == p { ResumeReturns(t, p, f); }
    }
  }

  lemma HandOffEffects(s: Sys, m: int, p: int, f: int)
    requires Inv(s) && Suspended(s, p, f) && Served(s, PSend(f, m), p, f) && Receives(s, p) && Step(s, PSend(f, m)).Ok?
    ensures Delivered(f, m) in Step(s, PSend(f, m)).value.effects
  {
    hide Inv, Schedule, Awake, Hand, Park, InsertNode;
    FirstServed(s, p, f, f);
    assert PSendCall(s, f, m) == Step(s, PSend(f, m));
  }

  /** Every delivery is one of two: a `preceive` that returns the message, or a `psend` that serves the first
      parked receiver. */
  lemma DeliveredTo(s: Sys, e: Event, x: Effect)
    requires Inv(s) && Step(s, e).Ok? && x in Step(s, e).value.effects && x.Delivered?
    ensures if e.PReceive? then x.fid == e.fid && Step(s, e).value.out == x.message
            else && e == PSend(x.fid, x.message) && x.fid in s.queues && s.queues[x.fid].locked != []
                 && var p := s.queues[x.fid].locked[0].pid;
                 Suspended(s, p, x.fid) && Served(s, e, p, x.fid) && Receives(s, p)
  {
    hide Inv;
    DeliveringCall(s, e, x);
    if e.PSend? {
      var f := x.fid;
      QueueOf(s, f);
      FirstKind(s.procs, f, s.queues[f]);
      assert NodeOk(s.procs, f, s.queues[f].locked[0]);
    }
  }

  lemma DeliveringCall(s: Sys, e: Event, x: Effect)
    requires Step(s, e).Ok? && x in Step(s, e).value.effects && x.Delivered?
    ensures e.PReceive? || e.PSend?
    ensures e.PReceive? ==> x.fid == e.fid && Step(s, e).value.out == x.message
    ensures e.PSend? ==> && e == PSend(x.fid, x.message) && x.fid in s.queues
                         && s.queues[x.fid].locked != [] && s.queues[x.fid].messages == []
  {
    hide Schedule, WakeSleepers, ResetQueue, FindZombie, CountUnsealed, Hand;
    hide RequestDestroy, RequestZombify, Awake, Enqueue, Unlink, Register, AddChild, AnyAbove, Park;
    hide NotifyPriority, InsertNode;
  }

  // ----- flags left over -----

  /** Every flag belongs to a call that has been released and has not returned. */
  ghost predicate FlagsFresh(s: Sys) {
    forall p :: p in s.released ==> Pending(s, p)
  }

  ghost predicate Pending(s: Sys, p: int) {
    !Parked(s, p) && exists f :: Suspended(s, p, f)
  }

  /** Only a reset sets flags, and only those of the processes on its list. */
  lemma FlagsSet(s: Sys, e: Event, p: int)
    requires Step(s, e).Ok? && p in Step(s, e).value.sys.released
    ensures p in s.released
            || ((e.PReset? || e.PDelete?) && e.fid in s.queues
                && exists i :: 0 <= i < |s.queues[e.fid].locked| && s.queues[e.fid].locked[i].pid == p)
    ensures e.Resume? && s.running in s.procs && s.procs[s.running].cont != Idle && !s.procs[s.running].cont.InWait? ==>
              p != s.running
  {
    ScheduledBy(s, e);
    var r := Step(s, e).value;
    if r.entry.Scheduled? { ScheduleDormant(r.entry.from); }
    assert Reached(r).released == r.sys.released;
    hide Schedule, Dormant;
    ReachedFlags(s, e, p);
  }

  lemma ReachedFlags(s: Sys, e: Event, p: int)
    requires Step(s, e).Ok? && p in Reached(Step(s, e).value).released
    ensures p in s.released
            || ((e.PReset? || e.PDelete?) && e.fid in s.queues
                && exists i :: 0 <= i < |s.queues[e.fid].locked| && s.queues[e.fid].locked[i].pid == p)
    ensures e.Resume? && s.running in s.procs && s.procs[s.running].cont != Idle && !s.procs[s.running].cont.InWait? ==>
              p != s.running
  {
    hide Step, Reached, ResetQueue, TickCall;
    StepIs(s, e);
    if (e.PReset? || e.PDelete?) && e.fid in s.queues {
      ResetFlags(s, e.fid, p);
    } else if e.Tick? {
      TickFlags(s, 0, e.now);
      TickReached(s, e.now);
    } else if e.Resume? {
      ResumeFlags(s, p);
    } else {
      OtherFlags(s, e);
    }
  }

  lemma ResetFlags(s: Sys, g: int, p: int)
    requires g in s.queues
    ensures PResetCall(s, g).Ok? && p in Reached(PResetCall(s, g).value).released ==>
              p in s.released || exists i :: 0 <= i < |s.queues[g].locked| && s.queues[g].locked[i].pid == p
    ensures PDeleteCall(s, g).Ok? && p in Reached(PDeleteCall(s, g).value).released ==>
              p in s.released || exists i :: 0 <= i < |s.queues[g].locked| && s.queues[g].locked[i].pid == p
  {
    hide Schedule, ReleaseAll, ResetEffects, AnyAbove;
    var q := s.queues[g];
    ReleaseMarks(s.(queues := s.queues[g := q.(messages := [], locked := [])]), q.locked);
  }

  lemma ResumeFlags(s: Sys, p: int)
    ensures ResumeCall(s).Ok? && p in Reached(ResumeCall(s).value).released ==>
              && p in s.released
              && (s.running in s.procs && s.procs[s.running].cont != Idle && !s.procs[s.running].cont.InWait? ==>
                    p != s.running)
  {}

  lemma OtherFlags(s: Sys, e: Event)
    requires Step(s, e).Ok? && !e.Tick? && !e.Resume? && ((e.PReset? || e.PDelete?) ==> e.fid !in s.queues)
    ensures Reached(Step(s, e).value).released == s.released
  {
    hide Step, Reached;
    if e.PSend? || e.PReceive? || e.PCreate? || e.PCount? || e.PReset? || e.PDelete? {
      QueueFlags(s, e);
    } else {
      ProcessFlags(s, e);
    }
  }

  lemma QueueFlags(s: Sys, e: Event)
    requires Step(s, e).Ok? && (e.PSend? || e.PReceive? || e.PCreate? || e.PCount? || e.PReset? || e.PDelete?)
    requires (e.PReset? || e.PDelete?) ==> e.fid !in s.queues
    ensures Reached(Step(s, e).value).released == s.released
  {
    hide Schedule, InsertNode, InsertReady, ResetQueue;
  }

  lemma ProcessFlags(s: Sys, e: Event)
    requires Step(s, e).Ok?
    requires e.Preempt? || e.Start? || e.Exit? || e.Kill? || e.WaitPid? || e.WaitClock? || e.ChPrio?
    ensures Reached(Step(s, e).value).released == s.released
  {
    hide Schedule, FindZombie, CountUnsealed, InsertReady, Withdraw, NotifyPriority, NotifyKilled, Remove, StartRejects;
  }

  lemma {:induction false} TickFlags(s: Sys, i: nat, now: int)
    ensures var r := WakeSleepers(s, i, now); r.Ok? ==> r.value.released == s.released
    decreases |s.sleepers| - i
  {
    if i < |s.sleepers| && s.sleepers[i] in s.procs {
      var p, n := s.sleepers[i], |s.sleepers| - 1;
      if s.procs[p].sleepTime <= now {
        var s1 := s.(procs := s.procs[p := s.procs[p].(state := Waiting)],
        sleepers := s.sleepers[i := s.sleepers[n]][..n]);
        if p !in s1.ready { TickFlags(Enqueue(s1, p).value, i, now); }
      } else {
        TickFlags(s, i + 1, now);
      }
    }
  }

  /** Killing a process that has been released and has not returned leaves its flag for the next process with
      that pid; nothing else does. */
  lemma FlagsExact(s: Sys, e: Event)
    requires Inv(s) && Enabled(s, e) && Guard(s, e) && FlagsFresh(s)
    ensures Step(s, e).Ok?
    ensures FlagsFresh(Step(s, e).value.sys) <==> !(e.Kill? && e.pid in s.released)
  {
    hide Inv, Step, Guard, Enabled, Served, ResetOf, FairReply, CodesKept;
    StepOk(s, e);
    var t := Step(s, e).value.sys;
    if e.Kill? && e.pid in s.released {
      var f :| Suspended(s, e.pid, f);
      KilledFlag(s, e.pid);
    } else {
      forall p | p in t.released ensures Pending(t, p) {
        FlagsSet(s, e, p);
        FlagStays(s, e, p);
      }
    }
  }

  lemma FlagStays(s: Sys, e: Event, p: int)
    requires Inv(s) && Enabled(s, e) && Guard(s, e) && Step(s, e).Ok? && !(e == Kill(p) && p in s.released)
    requires p in s.released ==> Pending(s, p)
    requires e.Resume? && s.running in s.procs && s.procs[s.running].cont != Idle
             && !s.procs[s.running].cont.InWait? ==>
               p != s.running
    requires p in s.released
             || ((e.PReset? || e.PDelete?) && e.fid in s.queues
                 && exists i :: 0 <= i < |s.queues[e.fid].locked| && s.queues[e.fid].locked[i].pid == p)
    ensures Pending(Step(s, e).value.sys, p)
  {
    hide Inv, Step, Guard, FairReply, CodesKept;
    if p in s.released {
      var f :| Suspended(s, p, f);
      assert Spared(s, e, p);
      StepSuspended(s, e, p, f);
      assert Suspended(Step(s, e).value.sys, p, f);
    } else {
      var f := e.fid;
      var i :| 0 <= i < |s.queues[f].locked| && s.queues[f].locked[i].pid == p;
      assert NodeAt(s.queues, p, f, i);
      NodeMeans(s, p, f, i);
      assert Suspended(s, p, f) && Spared(s, e, p);
      StepSuspended(s, e, p, f);
      assert Suspended(Step(s, e).value.sys, p, f);
    }
  }

  lemma KilledFlag(s: Sys, p: int)
    requires Inv(s) && p in s.released && p in s.procs && s.procs[p].state != Zombie && Guard(s, Kill(p))
    ensures var r := Step(s, Kill(p)); r.Ok? && p in r.value.sys.released && !Pending(r.value.sys, p)
  {
    hide Inv, Schedule, Step, Guard, KillCall, DiedTo, FamilyAllows, LastSleeper, Withdraw, Dormant, Pending, Then;
    ValidOf(s, p);
    KillAllowed(s, p);
    StepIs(s, Kill(p));
    KillRecords(s, p);
    Whereabouts(s, p);
    var t := KillCalc(s, p);
    ScheduleDormant(t);
    if Schedule(t).Ok? {
      ThenScheduled(t, Withdraw(s, p));
      KilledKeeps(s, t, Schedule(t).value, p);
      ZombieNotPending(Schedule(t).value, p);
    } else {
      ThenScheduled(t, Withdraw(s, p));
    }
  }

  lemma KillAllowed(s: Sys, p: int)
    requires Guard(s, Kill(p)) && !KillRejects(s, p)
    ensures FamilyAllows(s, p) && LastSleeper(s, p)
  {}

  lemma ThenScheduled(t: Sys, effects: seq<Effect>)
    ensures var r := Then(t, true, 0, effects);
            (r.Ok? <==> Schedule(t).Ok?) && (r.Ok? ==> r.value.sys == Schedule(t).value)
  {
    hide Schedule;
  }

  lemma ZombieNotPending(s: Sys, p: int)
    requires p in s.procs ==> s.procs[p].state == Zombie
    ensures !Pending(s, p)
  {}

  lemma ValidOf(s: Sys, p: int)
    requires Inv(s) && p in s.procs
    ensures ValidPid(p)
  {
    hide FidsOk, ReadyOk, SleepOk, QueuesOk, ChildrenLast, WaitsOk, NoInversion, Undoomed, TreeOk, AllRooted, LifeOk;
  }

  lemma KilledKeeps(s: Sys, t: Sys, u: Sys, p: int)
    requires DiedTo(s, t, p) && Dormant(t, u) && p in s.released
    ensures p in u.released
  {}

  /** No event of the run kills a process whose flag is set. */
  ghost predicate NoReleasedKill(s: Sys, run: seq<Event>)
    decreases |run|
  {
    run != [] ==> !(run[0].Kill? && run[0].pid in s.released)
                  && (Step(s, run[0]).Ok? ==> NoReleasedKill(Step(s, run[0]).value.sys, run[1..]))
  }

  /** On such runs no call begins with a flag left over, so that `BlockedCallReturns` gives -1 for resets
      only. */
  lemma {:induction false} FlagsFreshOnRuns(s: Sys, run: seq<Event>, p: int)
    requires Inv(s) && FlagsFresh(s) && Obeys(s, run) && NoReleasedKill(s, run)
    ensures After(s, run).Ok? && FlagsFresh(After(s, run).value)
    ensures var t := After(s, run).value; p in t.procs && t.procs[p].cont == Idle ==> p !in t.released
    decreases |run|
  {
    hide Inv, Step, Guard, Enabled;
    if run != [] {
      StepOk(s, run[0]);
      FlagsExact(s, run[0]);
      FlagsFreshOnRuns(Step(s, run[0]).value.sys, run[1..], p);
    }
  }
}
