/** A blocked or sleeping process goes back to the ready queue. */
module WakeLemmas {
  import opened KernelState
  import opened Scheduler
  import opened Syscalls
  import opened Invariant
  import opened QueueLemmas
  import opened FrameLemmas
  import opened CleanLemmas
  import opened ScheduleLemmas
  import opened PanicLemmas
  import opened LeaveLemmas

  /** `p` was blocked on a message or asleep and is now ready. */
  ghost predicate Woken(procs: Table, procs': Table, p: int) {
    && p in procs && procs[p].state in {BlockedByMessage, Sleeping}
    && p in procs' && procs' == procs[p := procs[p].(state := Waiting, inbox := procs'[p].inbox)]
  }

  /** Everything in `Core` but the message queues and the sleepers. */
  ghost predicate Frame(s: Sys) {
    && PidsOk(s.procs, s.free) && ReadyOk(s.procs, s.ready)
    && StatesOk(s.procs, s.running) && FamilyCore(s) && WaitsOk(s.procs)
  }

  lemma WakeReady(procs: Table, procs': Table, p: int, ready: seq<int>)
    requires Woken(procs, procs', p) && ReadyOk(procs, ready)
    ensures p !in ready && ReadyOk(procs', InsertReady(procs', ready, p))
  {
    assert forall q :: Prio(procs', q) == Prio(procs, q);
    assert SortedReady(procs', ready);
    InsertReadyOk(procs', ready, p);
  }

  lemma WakeWaits(procs: Table, procs': Table, p: int)
    requires Woken(procs, procs', p) && WaitsOk(procs)
    requires procs[p].state == BlockedByMessage ==> !procs[p].cont.InWait?
    ensures WaitsOk(procs')
  {
    assert SameFamily(procs, procs');
    assert WaitOk(procs, p);
    forall f | f in procs' ensures WaitOk(procs', f) {
      assert WaitOk(procs, f);
      if f != p {
        FamilyWait(procs, procs', f);
      }
    }
  }

  /** The table and the ready queue after waking `p`, whatever it was given. */
  lemma WokenOk(s: Sys, t: Sys, p: int)
    requires Frame(s) && Woken(s.procs, t.procs, p)
    requires (s.procs[p].state == BlockedByMessage ==> !s.procs[p].cont.InWait?)
    requires t == s.(procs := t.procs, ready := InsertReady(t.procs, s.ready, p))
    ensures p !in s.ready && Frame(t) && SameFamily(s.procs, t.procs)
            && forall q :: q in t.ready <==> q == p || q in s.ready
  {
    hide PidsOk, ReadyOk, StatesOk, FamilyCore, WaitsOk, SameFamily, InsertReady;
    WakeReady(s.procs, t.procs, p, s.ready);
    InsertReadyMembers(t.procs, s.ready, p);
    WakeTables(s.procs, t.procs, p, s.free, s.running);
    WakeWaits(s.procs, t.procs, p);
    KeepsFamilyCore(s, t);
  }

  lemma WakeOk(s: Sys, p: int)
    requires Frame(s) && p in s.procs && s.procs[p].state in {BlockedByMessage, Sleeping}
    requires s.procs[p].state == BlockedByMessage ==> !s.procs[p].cont.InWait?
    ensures Awake(s, p).Ok?
    ensures var t := Awake(s, p).value;
            && Frame(t) && Woken(s.procs, t.procs, p) && SameFamily(s.procs, t.procs)
            && t.procs[p].inbox == s.procs[p].inbox
            && t == s.(procs := t.procs, ready := t.ready)
            && (forall q :: q in t.ready <==> q == p || q in s.ready)
  {
    hide Frame, SameFamily, InsertReady;
    var procs' := s.procs[p := s.procs[p].(state := Waiting)];
    var t := s.(procs := procs', ready := InsertReady(procs', s.ready, p));
    WokenOk(s, t, p);
  }

  /** A parked process is given a value and woken. */
  lemma HandOk(s: Sys, n: Node, v: int)
    requires Frame(s) && n.pid in s.procs && s.procs[n.pid].state == BlockedByMessage && !s.procs[n.pid].cont.InWait?
    ensures Awake(Hand(s, n, v), n.pid).Ok?
    ensures var t := Awake(Hand(s, n, v), n.pid).value;
            && Frame(t) && Woken(s.procs, t.procs, n.pid) && SameFamily(s.procs, t.procs)
            && t.procs[n.pid].inbox == (if n.dest then v else s.procs[n.pid].inbox)
            && t == s.(procs := t.procs, ready := t.ready)
            && (forall q :: q in t.ready <==> q == n.pid || q in s.ready)
  {
    hide Frame, SameFamily, InsertReady;
    var p := n.pid;
    var given := if n.dest then v else s.procs[p].inbox;
    var procs' := s.procs[p := s.procs[p].(state := Waiting, inbox := given)];
    assert Hand(s, n, v).procs[p := Hand(s, n, v).procs[p].(state := Waiting)] == procs';
    var t := s.(procs := procs', ready := InsertReady(procs', s.ready, p));
    WokenOk(s, t, p);
  }

  lemma WakeTables(procs: Table, procs': Table, p: int, free: seq<int>, running: int)
    requires Woken(procs, procs', p) && PidsOk(procs, free) && StatesOk(procs, running)
    ensures PidsOk(procs', free) && StatesOk(procs', running) && SameFamily(procs, procs')
  {}

  lemma WakeSleep(procs: Table, procs': Table, p: int, sleepers: seq<int>)
    requires Woken(procs, procs', p) && SleepOk(procs, sleepers) && procs[p].state == BlockedByMessage
    ensures SleepOk(procs', sleepers)
  {}

  // ----- what follows a wake-up -----

  /** Wake-ups and changes of the queues between a quiescent state and the end of a call. */
  ghost predicate Woke(s: Sys, t: Sys) {
    && Frame(t) && SleepOk(t.procs, t.sleepers) && FidsOk(t.queues, t.freeFids) && QueuesOk(t.procs, t.queues)
    && SameFamily(s.procs, t.procs)
    && t.toZombify == s.toZombify && t.toDestroy == s.toDestroy && t.running == s.running && t.free == s.free
    && t.running in t.procs && t.procs[t.running].state == Running
  }

  lemma WokeInSchedule(s: Sys, t: Sys)
    requires Inv(s) && Woke(s, t)
    ensures InSchedule(t) && Schedule(t).Ok? && Inv(Schedule(t).value) && SameQueues(t, Schedule(t).value)
    ensures CodesKept(s, Schedule(t).value)
    ensures Chosen(t, Schedule(t).value)
  {
    FamilyReapable(s, t);
    FamilyZombies(s, t);
    ScheduleKeepsCodes(s, t) by { hide *; }
    assert NotAwaitingPending(t.procs, t.running, t.toZombify);
    hide PidsOk, ReadyOk, SleepOk, StatesOk, WaitsOk, QueuesOk, FamilyCore, FidsOk, NotAwaitingPending, Inv, SameFamily;
    hide InSchedule, SealedByRunning, Reapable, Schedule;
    LeaveInSchedule(s, t);
    ScheduleOk(t);
  }

  lemma WokeKeepsCodes(s: Sys, t: Sys)
    requires Woke(s, t)
    ensures CodesKept(s, t)
  {}

  lemma WokeQuiet(s: Sys, t: Sys)
    requires Inv(s) && Woke(s, t)
    requires Fair(s) ==> Fair(t)
    ensures Inv(t) && CodesKept(s, t)
  {
    hide Core, NoInversion, Undoomed, Schedule, Chosen, CodesKept, SameQueues, FamilyCore;
    WokeInSchedule(s, t);
    WokeKeepsCodes(s, t);
    FamilyUndoomed(s.procs, t.procs, s.toZombify);
    InvFamilyFacts(s);
    forall c | c in t.toDestroy ensures c in t.procs && t.procs[c].father == t.running {
      var a, b := s.procs[c], t.procs[c];
      assert a.father == b.father;
    }
  }

  /** Where a step schedules, an inversion is left exactly by the branch for a full table; where it does
      not, none is made. */
  ghost predicate FairReply(s: Sys, r: Reply) {
    match r.entry
    case Scheduled(from) => Chosen(from, r.sys)
    case NotScheduled => Fair(s) ==> Fair(r.sys)
  }

  /** A call that wakes processes keeps the invariant if it reschedules whenever it woke one above the
      running process. */
  lemma WokeThen(s: Sys, t: Sys, reschedule: bool, ret: int, effects: seq<Effect>)
    requires Inv(s) && Woke(s, t)
    requires !reschedule ==> (Fair(s) ==> Fair(t))
    ensures var r := Then(t, reschedule, ret, effects);
            r.Ok? && Inv(r.value.sys) && SameQueues(t, r.value.sys) && CodesKept(s, r.value.sys)
    ensures FairReply(s, Then(t, reschedule, ret, effects).value)
  {
    hide Inv, Woke, Fair, Schedule, Chosen;
    if reschedule {
      WokeInSchedule(s, t);
    } else {
      WokeQuiet(s, t);
    }
  }
}
