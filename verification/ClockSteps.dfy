/** Sleeping and waking by the clock; also preemption. */
module ClockSteps {
  import opened Lists
  import opened KernelState
  import opened Scheduler
  import opened Syscalls
  import opened Invariant
  import opened FrameLemmas
  import opened CleanLemmas
  import opened ScheduleLemmas
  import opened PanicLemmas
  import opened LeaveLemmas
  import opened WakeLemmas
  import opened QueueSteps
  import opened ResetSteps

  lemma PreemptOk(s: Sys)
    requires Inv(s)
    ensures var r := Then(s, true, 0, []);
            r.Ok? && Inv(r.value.sys) && SameQueues(s, r.value.sys) && CodesKept(s, r.value.sys)
            && FairReply(s, r.value)
  {
    InvParts(s);
    hide Inv, Frame, SleepOk, FidsOk, QueuesOk, SameFamily, Schedule, NoInversion;
    SelfFamily(s.procs);
    WokeThen(s, s, true, 0, []);
  }

  lemma SleepMe(s: Sys, clock: int)
    requires s.running in s.procs && s.procs[s.running].state == Running && s.procs[s.running].cont == Idle
    ensures var procs' := s.procs[s.running := s.procs[s.running].(state := Sleeping, sleepTime := clock)];
            && OnlyMe(s.procs, procs', s.running) && WaitOk(procs', s.running)
            && NotAwaitingPending(procs', s.running, s.toZombify)
  {}

  lemma WaitClockOk(s: Sys, clock: int)
    requires Inv(s) && s.running in s.procs && s.procs[s.running].cont == Idle && (clock > 0 ==> s.running != INIT)
    ensures var r := WaitClockCall(s, clock);
            r.Ok? && Inv(r.value.sys) && SameQueues(s, r.value.sys) && CodesKept(s, r.value.sys)
            && FairReply(s, r.value)
  {
    hide Inv, Frame, SleepOk, FidsOk, QueuesOk, Schedule, NoInversion, OnlyMe, WaitOk, NotAwaitingPending;
    if clock > 0 {
      InvParts(s);
      SleepMe(s, clock);
      var t := s.(procs := s.procs[s.running := s.procs[s.running].(state := Sleeping, sleepTime := clock)],
      sleepers := s.sleepers + [s.running]);
      MeQueues(s.procs, t.procs, s.running, s.queues);
      LeaveOk(s, t);
    }
  }

  // ----- clock_tick -----

  ghost predicate Expired(s: Sys, p: int, now: int) {
    p in s.sleepers && p in s.procs && s.procs[p].sleepTime <= now
  }

  /** Exactly the expired sleepers have been made ready. */
  ghost predicate Ticked(s: Sys, t: Sys, now: int) {
    && t == s.(procs := t.procs, ready := t.ready, sleepers := t.sleepers)
    && t.procs.Keys == s.procs.Keys
    && (forall p :: p in s.procs ==>
                      t.procs[p] == s.procs[p].(state := if Expired(s, p, now) then Waiting else s.procs[p].state))
    && (forall p :: p in t.sleepers <==> p in s.sleepers && !Expired(s, p, now))
    && (forall p :: p in t.ready <==> p in s.ready || Expired(s, p, now))
  }

  /** State of the loop of `clock_tick`. */
  ghost predicate Ticking(s: Sys) {
    && Frame(s) && SleepOk(s.procs, s.sleepers) && QueuesOk(s.procs, s.queues)
    && s.running in s.procs && s.procs[s.running].state == Running
  }

  lemma WakeSleeperQueues(procs: Table, procs': Table, p: int, queues: map<int, Queue>)
    requires QueuesOk(procs, queues) && Woken(procs, procs', p) && procs[p].state == Sleeping
    ensures QueuesOk(procs', queues)
  {
    forall f | f in queues ensures QueueOk(procs', f, queues[f]) {
      assert QueueOk(procs, f, queues[f]);
      forall i | 0 <= i < |queues[f].locked| ensures NodeOk(procs', f, queues[f].locked[i]) {
        assert NodeOk(procs, f, queues[f].locked[i]);
      }
    }
  }

  lemma WakeSleeperList(procs: Table, procs': Table, i: nat, sleepers: seq<int>, sleepers': seq<int>)
    requires SleepOk(procs, sleepers) && i < |sleepers| && Woken(procs, procs', sleepers[i])
    requires sleepers' == sleepers[i := sleepers[|sleepers| - 1]][..|sleepers| - 1]
    ensures SleepOk(procs', sleepers')
    ensures forall q :: q in sleepers' <==> q in sleepers && q != sleepers[i]
  {
    SwapRemove(sleepers, i);
  }

  lemma WakeOne(s: Sys, i: nat, now: int) returns (t: Sys)
    requires Ticking(s) && i < |s.sleepers| && s.sleepers[i] in s.procs && s.procs[s.sleepers[i]].sleepTime <= now
    ensures WakeSleepers(s, i, now) == WakeSleepers(t, i, now) && |t.sleepers| == |s.sleepers| - 1
    ensures t.sleepers == s.sleepers[i := s.sleepers[|s.sleepers| - 1]][..|s.sleepers| - 1]
    ensures Ticking(t) && SameFamily(s.procs, t.procs) && Woken(s.procs, t.procs, s.sleepers[i])
    ensures t.procs[s.sleepers[i]].inbox == s.procs[s.sleepers[i]].inbox
    ensures t == s.(procs := t.procs, ready := t.ready, sleepers := t.sleepers)
    ensures forall q :: q in t.ready <==> q == s.sleepers[i] || q in s.ready
    ensures forall q :: q in t.sleepers <==> q in s.sleepers && q != s.sleepers[i]
  {
    hide Frame, SleepOk, QueuesOk, SameFamily, WakeSleepers, Awake;
    var p, n := s.sleepers[i], |s.sleepers| - 1;
    SleeperAt(s, i);
    var s0 := s.(sleepers := s.sleepers[i := s.sleepers[n]][..n]);
    assert Frame(s0) by { SameFrameSleep(s, s0); }
    WakeOk(s0, p);
    t := Awake(s0, p).value;
    WakeTurn(s, s0, i, now);
    WakeSleeperQueues(s.procs, t.procs, p, s.queues);
    WakeSleeperList(s.procs, t.procs, i, s.sleepers, t.sleepers);
  }

  /** One turn of the loop that wakes a process. */
  lemma WakeTurn(s: Sys, s0: Sys, i: nat, now: int)
    requires i < |s.sleepers| && s.sleepers[i] in s.procs && s.procs[s.sleepers[i]].sleepTime <= now
    requires s0 == s.(sleepers := s.sleepers[i := s.sleepers[|s.sleepers| - 1]][..|s.sleepers| - 1])
    requires Awake(s0, s.sleepers[i]).Ok?
    ensures WakeSleepers(s, i, now) == WakeSleepers(Awake(s0, s.sleepers[i]).value, i, now)
  {
    hide Enqueue;
  }

  lemma SameFrameSleep(s: Sys, t: Sys)
    requires Frame(s) && t == s.(sleepers := t.sleepers)
    ensures Frame(t)
  {}

  lemma {:induction false} WakeSleepersOk(s: Sys, i: nat, now: int)
    requires Ticking(s) && i <= |s.sleepers|
    requires forall j :: 0 <= j < i ==> !Expired(s, s.sleepers[j], now)
    ensures WakeSleepers(s, i, now).Ok?
    ensures var t := WakeSleepers(s, i, now).value;
            Ticking(t) && SameFamily(s.procs, t.procs) && Ticked(s, t, now) && |t.sleepers| <= |s.sleepers|
            && (|t.sleepers| == |s.sleepers| ==> t == s)
    decreases |s.sleepers| - i
  {
    hide Ticking, SameFamily, Ticked;
    SleeperAt(s, i);
    if i == |s.sleepers| {
      SelfFamily(s.procs);
      NoneExpired(s, now);
    } else if s.procs[s.sleepers[i]].sleepTime <= now {
      var t := WakeOne(s, i, now);
      assert s.sleepers[i] in s.sleepers;
      SleepersDistinct(s);
      StillNotExpired(s, t, i, now);
      WakeSleepersOk(t, i, now);
      var u := WakeSleepers(t, i, now).value;
      FamilyTwice(s.procs, t.procs, u.procs);
      TickedAfterOne(s, t, u, s.sleepers[i], now);
    } else {
      WakeSleepersOk(s, i + 1, now);
    }
  }

  lemma SleepersDistinct(s: Sys)
    requires Ticking(s)
    ensures NoDup(s.sleepers)
  {}

  lemma SleeperAt(s: Sys, i: nat)
    requires Ticking(s)
    ensures i < |s.sleepers| ==> s.sleepers[i] in s.procs && s.procs[s.sleepers[i]].state == Sleeping
  {
    hide Frame, QueuesOk;
    if i < |s.sleepers| {
      var p := s.sleepers[i];
      assert p in s.sleepers;
    }
  }

  lemma NoneExpired(s: Sys, now: int)
    requires forall j :: 0 <= j < |s.sleepers| ==> !Expired(s, s.sleepers[j], now)
    ensures Ticked(s, s, now)
  {
    forall p | p in s.sleepers ensures !Expired(s, p, now) {
      var j :| 0 <= j < |s.sleepers| && s.sleepers[j] == p;
    }
    assert forall p :: p in s.procs ==> s.procs[p] == s.procs[p].(state := s.procs[p].state);
  }

  lemma StillNotExpired(s: Sys, t: Sys, i: nat, now: int)
    requires i < |s.sleepers| && NoDup(s.sleepers) && Woken(s.procs, t.procs, s.sleepers[i])
    requires t.sleepers == s.sleepers[i := s.sleepers[|s.sleepers| - 1]][..|s.sleepers| - 1]
    requires forall j :: 0 <= j < i ==> !Expired(s, s.sleepers[j], now)
    ensures forall j :: 0 <= j < i ==> !Expired(t, t.sleepers[j], now)
  {
    forall j | 0 <= j < i ensures !Expired(t, t.sleepers[j], now) {
      assert t.sleepers[j] == s.sleepers[j];
      assert !Expired(s, s.sleepers[j], now);
      assert s.sleepers[j] in s.sleepers;
    }
  }

  lemma TickedAfterOne(s: Sys, t: Sys, u: Sys, p: int, now: int)
    requires Woken(s.procs, t.procs, p) && t.procs[p].inbox == s.procs[p].inbox && Expired(s, p, now)
    requires t == s.(procs := t.procs, ready := t.ready, sleepers := t.sleepers)
    requires forall q :: q in t.ready <==> q == p || q in s.ready
    requires forall q :: q in t.sleepers <==> q in s.sleepers && q != p
    requires Ticked(t, u, now)
    ensures Ticked(s, u, now)
  {
    assert forall q :: q in s.procs ==> (Expired(s, q, now) <==> q == p || Expired(t, q, now));
  }

  lemma TickOk(s: Sys, now: int)
    requires Inv(s)
    ensures var r := TickCall(s, now);
            r.Ok? && Inv(r.value.sys) && SameQueues(s, r.value.sys) && CodesKept(s, r.value.sys)
            && FairReply(s, r.value)
    ensures WakeSleepers(s, 0, now).Ok? && Ticked(s, WakeSleepers(s, 0, now).value, now)
  {
    hide Inv, Frame, SleepOk, FidsOk, QueuesOk, SameFamily, Schedule, NoInversion, Ticked, WakeSleepers;
    InvParts(s);
    WakeSleepersOk(s, 0, now);
    var t := WakeSleepers(s, 0, now).value;
    assert t == s.(procs := t.procs, ready := t.ready, sleepers := t.sleepers) by { TickedFields(s, t, now); }
    WokeThen(s, t, |t.sleepers| < |s.sleepers|, 0, []);
  }

  lemma TickedFields(s: Sys, t: Sys, now: int)
    requires Ticked(s, t, now)
    ensures t == s.(procs := t.procs, ready := t.ready, sleepers := t.sleepers)
  {}
}
