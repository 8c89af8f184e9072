/** The message-queue calls keep the invariant. */
module QueueSteps {
  import opened KernelState
  import opened Scheduler
  import opened Syscalls
  import opened Invariant
  import opened FrameLemmas
  import opened CleanLemmas
  import opened ScheduleLemmas
  import opened PanicLemmas
  import opened LeaveLemmas
  import opened WakeLemmas
  import opened MessageLemmas

  lemma InvParts(s: Sys)
    requires Inv(s)
    ensures Frame(s) && SleepOk(s.procs, s.sleepers) && FidsOk(s.queues, s.freeFids) && QueuesOk(s.procs, s.queues)
    ensures s.running in s.procs && s.procs[s.running].state == Running
    ensures Size(s) < MAX_PROCS ==> Fair(s)
  {
    hide PidsOk, ReadyOk, SleepOk, QueuesOk, TreeOk, AllRooted, LifeOk, ChildrenLast, FidsOk, WaitsOk, NoInversion;
  }

  lemma SelfFamily(procs: Table)
    ensures SameFamily(procs, procs)
  {}

  lemma FirstKind(procs: Table, f: int, q: Queue)
    requires QueueOk(procs, f, q) && q.locked != []
    ensures q.locked[0].pid in procs
    ensures q.messages == [] ==> procs[q.locked[0].pid].cont == InReceive(f)
    ensures q.messages != [] ==> |q.messages| == q.size && procs[q.locked[0].pid].cont == InSend(f, q.locked[0].message)
  {
    assert NodeOk(procs, f, q.locked[0]);
  }

  /** Parked processes mean an empty or a full queue. */
  lemma Unparked(procs: Table, f: int, q: Queue)
    requires QueueOk(procs, f, q) && q.messages != [] && |q.messages| < q.size
    ensures q.locked == []
  {
    if q.locked != [] {
      FirstKind(procs, f, q);
    }
  }

  /** Hand-off in either direction: the first parked process of `f` is woken, the queue becomes `q'`. */
  lemma ServedWoke(s: Sys, f: int, q': Queue, t: Sys)
    requires Inv(s) && f in s.queues && s.queues[f].locked != []
    requires q'.locked == s.queues[f].locked[1..] && SameExtreme(s.queues[f], q')
    requires Frame(t) && Woken(s.procs, t.procs, s.queues[f].locked[0].pid) && SameFamily(s.procs, t.procs)
    requires s.procs[s.queues[f].locked[0].pid].state == BlockedByMessage
    requires t == s.(queues := s.queues[f := q'], procs := t.procs, ready := t.ready)
    requires forall q :: q in t.ready <==> q == s.queues[f].locked[0].pid || q in s.ready
    ensures Woke(s, t) && (!Above(t, s.queues[f].locked[0].pid) && Fair(s) ==> Fair(t))
  {
    hide Inv, Frame, SleepOk, FidsOk, QueuesOk, Fair, SameFamily;
    InvParts(s);
    var p := s.queues[f].locked[0].pid;
    ServeQueues(s.procs, t.procs, s.queues, f, q');
    WakeSleep(s.procs, t.procs, p, s.sleepers);
    KeepsFids(s.queues, f, q', s.freeFids);
    if !Above(t, p) && Fair(s) {
      WokenBelow(s, t, p);
    }
  }

  lemma ServeWoke(s: Sys, f: int, q': Queue)
    requires Inv(s) && f in s.queues && s.queues[f].locked != []
    requires q'.locked == s.queues[f].locked[1..] && SameExtreme(s.queues[f], q')
    ensures var p := s.queues[f].locked[0].pid;
            var r := Awake(s.(queues := s.queues[f := q']), p);
            && r.Ok? && Woke(s, r.value) && r.value.queues == s.queues[f := q']
            && (!Above(r.value, p) && Fair(s) ==> Fair(r.value))
  {
    hide Inv, Frame, SleepOk, FidsOk, QueuesOk, Fair, SameFamily, Awake;
    InvParts(s);
    FirstParked(s.procs, s.queues, f);
    var s1 := s.(queues := s.queues[f := q']);
    SameFrame(s, s1);
    WakeOk(s1, s.queues[f].locked[0].pid);
    ServedWoke(s, f, q', Awake(s1, s.queues[f].locked[0].pid).value);
  }

  /** The same when the parked process is given a value. */
  lemma HandWoke(s: Sys, f: int, q': Queue, v: int)
    requires Inv(s) && f in s.queues && s.queues[f].locked != []
    requires q'.locked == s.queues[f].locked[1..] && SameExtreme(s.queues[f], q')
    ensures var n := s.queues[f].locked[0];
            var r := Awake(Hand(s.(queues := s.queues[f := q']), n, v), n.pid);
            && r.Ok? && Woke(s, r.value) && r.value.queues == s.queues[f := q']
            && (!Above(r.value, n.pid) && Fair(s) ==> Fair(r.value))
  {
    hide Inv, Frame, SleepOk, FidsOk, QueuesOk, Fair, SameFamily, Awake, Hand;
    InvParts(s);
    FirstParked(s.procs, s.queues, f);
    var s1, n := s.(queues := s.queues[f := q']), s.queues[f].locked[0];
    SameFrame(s, s1);
    HandOk(s1, n, v);
    ServedWoke(s, f, q', Awake(Hand(s1, n, v), n.pid).value);
  }

  lemma SameFrame(s: Sys, t: Sys)
    requires Frame(s) && t == s.(queues := t.queues)
    ensures Frame(t)
  {}

  lemma KeepsFids(queues: map<int, Queue>, f: int, q': Queue, freeFids: seq<int>)
    requires FidsOk(queues, freeFids) && f in queues
    ensures FidsOk(queues[f := q'], freeFids)
  {}

  lemma WokenBelow(s: Sys, t: Sys, p: int)
    requires Woken(s.procs, t.procs, p) && t.running == s.running
    requires Fair(s) && !Above(t, p)
    requires forall q :: q in t.ready <==> q == p || q in s.ready
    ensures Fair(t)
  {
    assert forall q :: Prio(t.procs, q) == Prio(s.procs, q);
  }

  // ----- psend and preceive -----

  /** The call would leave the running process blocked. */
  predicate SendBlocks(s: Sys, f: int) {
    f in s.queues && |s.queues[f].messages| == s.queues[f].size
    && !(s.queues[f].messages == [] && s.queues[f].locked != [])
  }

  predicate ReceiveBlocks(s: Sys, f: int) {
    f in s.queues && s.queues[f].messages == []
    && !(|s.queues[f].messages| == s.queues[f].size && s.queues[f].locked != [])
  }

  /** The queue after a send: hand-off to a receiver, one more parked sender, or one more message. */
  function AfterSend(s: Sys, f: int, m: int): Queue
    requires f in s.queues
  {
    var q := s.queues[f];
    if q.messages == [] && q.locked != [] then q.(locked := q.locked[1..])
    else if |q.messages| == q.size then q.(locked := InsertNode(q.locked,
                                                                Node(s.running, m, false, Prio(s.procs, s.running))))
    else q.(messages := q.messages + [m])
  }

  function AfterReceive(s: Sys, f: int): Queue
    requires f in s.queues
  {
    var q := s.queues[f];
    if q.messages == [] then q.(locked := InsertNode(q.locked, Node(s.running, 0, true, Prio(s.procs, s.running))))
    else if |q.messages| == q.size && q.locked != [] then
      q.(messages := q.messages[1..] + [q.locked[0].message], locked := q.locked[1..])
    else q.(messages := q.messages[1..])
  }

  lemma ParkOk(s: Sys, f: int, m: int, c: Continuation)
    requires Inv(s) && f in s.queues && s.running in s.procs && s.running != INIT
    requires (c == InSend(f, m) && |s.queues[f].messages| == s.queues[f].size)
             || (c == InReceive(f) && s.queues[f].messages == [])
    ensures var t := Park(s, f, m, c);
            Schedule(t).Ok? && Inv(Schedule(t).value) && CodesKept(s, Schedule(t).value) && Chosen(t, Schedule(t).value)
    ensures var q := s.queues[f];
            Schedule(Park(s, f, m, c)).value.queues ==
            s.queues[f := q.(locked := InsertNode(q.locked,
                                                  Node(s.running, m, c.InReceive?, Prio(s.procs, s.running))))]
  {
    hide Inv, Frame, FidsOk, QueuesOk, OnlyMe, SleepOk, NoInversion, Schedule, WaitOk, NotAwaitingPending;
    InvParts(s);
    var t := Park(s, f, m, c);
    ParkMe(s, f, m, c);
    var n := Node(s.running, m, c.InReceive?, s.procs[s.running].prio);
    ParkQueues(s.procs, t.procs, s.running, s.queues, f, n);
    KeepsFids(s.queues, f, t.queues[f], s.freeFids);
    LeaveOk(s, t);
  }

  lemma ParkMe(s: Sys, f: int, m: int, c: Continuation)
    requires f in s.queues && s.running in s.procs && s.procs[s.running].state == Running
    requires c.InSend? || c.InReceive?
    ensures var t := Park(s, f, m, c);
            && t.running in t.procs && OnlyMe(s.procs, t.procs, s.running) && WaitOk(t.procs, t.running)
            && NotAwaitingPending(t.procs, t.running, t.toZombify)
  {}

  lemma MessagesWoke(s: Sys, f: int, q': Queue)
    requires Inv(s) && f in s.queues && s.queues[f].locked == []
    requires q'.locked == [] && q'.size == s.queues[f].size && |q'.messages| <= q'.size
    ensures var t := s.(queues := s.queues[f := q']); Inv(t) && (Fair(s) ==> Fair(t))
  {
    InvParts(s);
    var t := s.(queues := s.queues[f := q']);
    hide Inv, QueuesOk, FidsOk, SleepOk, NoInversion, SameFamily;
    SameFrame(s, t);
    SelfFamily(s.procs);
    MessagesQueues(s.procs, s.queues, f, q');
    KeepsFids(s.queues, f, q', s.freeFids);
    hide Frame;
    WokeQuiet(s, t);
  }

  lemma QueueOf(s: Sys, f: int)
    requires Inv(s) && f in s.queues
    ensures QueueOk(s.procs, f, s.queues[f]) && s.running in s.procs
    ensures 1 <= s.queues[f].size && |s.queues[f].messages| <= s.queues[f].size
  {
    hide PidsOk, ReadyOk, SleepOk, TreeOk, AllRooted, LifeOk, ChildrenLast, FidsOk, WaitsOk, NoInversion;
  }

  lemma PSendOk(s: Sys, f: int, m: int)
    requires Inv(s) && (s.running == INIT ==> !SendBlocks(s, f))
    ensures var r := PSendCall(s, f, m); r.Ok? && Inv(r.value.sys) && CodesKept(s, r.value.sys) && FairReply(s, r.value)
    ensures f in s.queues ==> PSendCall(s, f, m).value.sys.queues == s.queues[f := AfterSend(s, f, m)]
  {
    hide Inv, Woke, Awake, Schedule, Fair, Chosen, Park, QueueOk, Hand;
    if f in s.queues {
      var q := s.queues[f];
      QueueOf(s, f);
      if q.messages == [] && q.locked != [] {
        var q' := q.(locked := q.locked[1..]);
        HandWoke(s, f, q', m);
        var t := Awake(Hand(s.(queues := s.queues[f := q']), q.locked[0], m), q.locked[0].pid).value;
        WokeThen(s, t, Above(t, q.locked[0].pid), 0, [Sent(f, m), Accepted(f, m), Delivered(f, m)]);
      } else if |q.messages| == q.size {
        ParkOk(s, f, m, InSend(f, m));
      } else {
        if q.messages != [] { Unparked(s.procs, f, q); }
        MessagesWoke(s, f, q.(messages := q.messages + [m]));
      }
    }
  }

  lemma PReceiveOk(s: Sys, f: int)
    requires Inv(s) && (s.running == INIT ==> !ReceiveBlocks(s, f))
    ensures var r := PReceiveCall(s, f); r.Ok? && Inv(r.value.sys) && CodesKept(s, r.value.sys) && FairReply(s, r.value)
    ensures f in s.queues ==> PReceiveCall(s, f).value.sys.queues == s.queues[f := AfterReceive(s, f)]
  {
    hide Inv, Woke, Awake, Schedule, Fair, Chosen, Park, QueueOk, Hand;
    if f in s.queues {
      var q := s.queues[f];
      QueueOf(s, f);
      if |q.messages| == q.size && q.locked != [] {
        var n := q.locked[0];
        var q' := q.(messages := q.messages[1..] + [n.message], locked := q.locked[1..]);
        ServeWoke(s, f, q');
        var t := Awake(s.(queues := s.queues[f := q']), n.pid).value;
        WokeThen(s, t, Above(t, n.pid), 0, [Delivered(f, q.messages[0]), Accepted(f, n.message)]);
      } else if q.messages == [] {
        ParkOk(s, f, 0, InReceive(f));
      } else {
        if |q.messages| < q.size { Unparked(s.procs, f, q); }
        MessagesWoke(s, f, q.(messages := q.messages[1..]));
      }
    }
  }
}
