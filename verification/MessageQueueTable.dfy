/** `message_queue.c`: the calls on message queues, on the tables of the kernel. */
module MessageQueueTable {
  import opened Outcomes
  import opened KernelState
  import opened Scheduler
  import opened Syscalls
  import opened Runs
  import opened ProcessTable
  import opened NestedSchedule
  import opened WaitingList

  /** `awake`: back to the ready queue; tells whether the process is above the running one. */
  method AwakeProcess(k: Kernel, p: int) returns (ok: bool, above: bool)
    requires k.Valid()
    modifies k
    ensures k.Valid() && k.Gave(Awake(old(k.State()), p), ok)
    ensures ok ==> above == Above(k.State(), p) && above == Above(old(k.State()), p)
    ensures k.queues == old(k.queues)
  {
    above := false;
    if p !in k.procs { return false, false; }
    k.procs := k.procs[p := k.procs[p].(state := Waiting)];
    ok := k.QueueAdd(p);
    above := Prio(k.procs, p) > Prio(k.procs, k.running);
  }

  /** The value goes through the address the parked process has given, if any. */
  method Deliver(k: Kernel, n: Node, v: int)
    requires k.Valid()
    modifies k`procs
    ensures k.Valid() && k.State() == Hand(old(k.State()), n, v)
  {
    if n.dest && n.pid in k.procs {
      k.procs := k.procs[n.pid := k.procs[n.pid].(inbox := v)];
    }
  }

  lemma HandKeepsAbove(s: Sys, n: Node, v: int)
    ensures var t := Awake(Hand(s, n, v), n.pid);
            t.Ok? ==> t.value.queues == s.queues && forall q :: Above(t.value, q) == Above(s, q)
  {}

  lemma ReleaseTurn(s: Sys, l: seq<Node>)
    requires l != []
    ensures var a := Awake(Hand(s, l[0], -1), l[0].pid);
            ReleaseAll(s, l) ==
            if a.Ok? then ReleaseAll(a.value.(released := a.value.released + {l[0].pid}), l[1..]) else Panic
  {
    hide Awake, Hand;
  }

  lemma ReleaseDone(s: Sys)
    ensures ReleaseAll(s, []) == Ok(s)
  {}

  /** First loop of `message_queue_reset`. */
  method ReleaseParked(k: Kernel, fid: int) returns (ok: bool, again: bool)
    requires k.Valid() && fid in k.queues
    modifies k
    ensures k.Valid()
    ensures var q := old(k.queues[fid]);
            var s1 := old(k.State()).(queues := old(k.queues)[fid := q.(locked := [])]);
            k.Gave(ReleaseAll(s1, q.locked), ok)
    ensures ok ==> again == AnyAbove(old(k.State()), old(k.queues[fid].locked))
    ensures ok ==> k.queues == old(k.queues)[fid := old(k.queues[fid]).(locked := [])]
  {
    hide Awake, Hand, ReleaseAll;
    ghost var s0 := k.State();
    var l := k.queues[fid].locked;
    k.queues := k.queues[fid := k.queues[fid].(locked := [])];
    ghost var s1 := k.State();
    var i := 0;
    ok, again := true, false;
    while i < |l|
      invariant 0 <= i <= |l| && k.Valid() && ok && k.queues == s1.queues
      invariant ReleaseAll(s1, l) == ReleaseAll(k.State(), l[i..])
      invariant forall q :: Above(k.State(), q) == Above(s0, q)
      invariant again <==> exists j :: 0 <= j < i && Above(s0, l[j].pid)
    {
      assert l[i..][0] == l[i] && l[i..][1..] == l[i + 1..];
      ReleaseTurn(k.State(), l[i..]);
      var above;
      HandKeepsAbove(k.State(), l[i], -1);
      Deliver(k, l[i], -1);
      ok, above := AwakeProcess(k, l[i].pid);
      if !ok { return; }
      k.released := k.released + {l[i].pid};
      again := above || again;
      i := i + 1;
    }
    assert l[i..] == [];
    ReleaseDone(k.State());
    assert again == AnyAbove(s0, l) by {
      if j :| 0 <= j < |l| && Above(s0, l[j].pid) { assert l[j] in l; }
    }
  }

  /** `message_queue_reset`. */
  method MessageQueueReset(k: Kernel, fid: int) returns (ok: bool, again: bool)
    requires k.Valid() && fid in k.queues
    modifies k
    ensures k.Valid() && k.Gave(ResetQueue(old(k.State()), fid), ok)
    ensures ok ==> fid in k.queues && again == AnyAbove(old(k.State()), old(k.queues[fid].locked))
  {
    hide ReleaseAll, AnyAbove;
    ghost var s := k.State();
    ok, again := ReleaseParked(k, fid);
    if !ok {
      ReleaseIgnoresQueues(s.(queues := s.queues[fid := s.queues[fid].(locked := [])]),
                           s.queues[fid := s.queues[fid].(messages := [], locked := [])], s.queues[fid].locked);
      return;
    }
    while k.queues[fid].messages != []
      invariant fid in k.queues && k.Valid()
      invariant k.queues == s.queues[fid := s.queues[fid].(messages := k.queues[fid].messages, locked := [])]
      invariant k.State() == ReleaseAll(s.(queues := s.queues[fid := s.queues[fid].(locked := [])]),
                                        s.queues[fid].locked).value.(queues := k.queues)
      decreases |k.queues[fid].messages|
    {
      k.queues := k.queues[fid := k.queues[fid].(messages := k.queues[fid].messages[1..])];
    }
    ReleaseIgnoresQueues(s.(queues := s.queues[fid := s.queues[fid].(locked := [])]), k.queues, s.queues[fid].locked);
  }

  lemma {:induction false} ReleaseIgnoresQueues(s: Sys, queues: map<int, Queue>, l: seq<Node>)
    ensures var a, b := ReleaseAll(s, l), ReleaseAll(s.(queues := queues), l);
            (a.Ok? <==> b.Ok?) && (a.Ok? ==> b.value == a.value.(queues := queues) && a.value.queues == s.queues)
    decreases |l|
  {
    if l != [] {
      var h := Hand(s, l[0], -1);
      var a := Awake(h, l[0].pid);
      assert Hand(s.(queues := queues), l[0], -1) == h.(queues := queues);
      if a.Ok? {
        assert Awake(h.(queues := queues), l[0].pid) == Ok(a.value.(queues := queues));
        var t := a.value.(released := a.value.released + {l[0].pid});
        ReleaseIgnoresQueues(t, queues, l[1..]);
      }
    }
  }

  method PCreate(k: Kernel, count: int, bufferOk: bool) returns (ok: bool, ret: int)
    requires k.Valid()
    modifies k
    ensures k.Valid() && k.Stepped(old(k.State()), Event.PCreate(count, bufferOk), ok, ret, 0)
  {
    hide Step;
    ghost var s, e := k.State(), Event.PCreate(count, bufferOk);
    StepIs(s, e);
    ok, ret := true, -1;
    if 1 <= count <= MAX_BUFFER && k.freeFids != [] {
      var fid := k.freeFids[0];
      assert fid in k.freeFids && forall f :: f in k.freeFids[1..] ==> f in k.freeFids;
      k.freeFids := k.freeFids[1..];
      if bufferOk {
        k.queues := k.queues[fid := Queue(count, [], [])];
        ret := fid;
      } else {
        k.freeFids := k.freeFids + [fid];
      }
    }
  }

  method PReset(k: Kernel, fid: int) returns (ok: bool, ret: int)
    requires k.Valid()
    modifies k
    ensures k.Valid() && k.Stepped(old(k.State()), Event.PReset(fid), ok, ret, 0)
  {
    hide Step, Then, Ends, Schedule, ScheduleNested, InsertNode, Hand, ResetQueue, AnyAbove, ResetEffects;
    ghost var s, e := k.State(), Event.PReset(fid);
    StepIs(s, e);
    if fid !in k.queues { return true, -1; }
    var again;
    ret := 0;
    ok, again := MessageQueueReset(k, fid);
    if !ok { return; }
    ThenEnds(k.State(), again, 0, ResetEffects(s, fid));
    ok := k.Finish(again, Step(s, e));
  }

  method PDelete(k: Kernel, fid: int) returns (ok: bool, ret: int)
    requires k.Valid()
    modifies k
    ensures k.Valid() && k.Stepped(old(k.State()), Event.PDelete(fid), ok, ret, 0)
  {
    hide Step, Then, Ends, Schedule, ScheduleNested, InsertNode, Hand, ResetQueue, AnyAbove, ResetEffects;
    ghost var s, e := k.State(), Event.PDelete(fid);
    StepIs(s, e);
    if fid !in k.queues { return true, -1; }
    var again;
    ret := 0;
    ok, again := MessageQueueReset(k, fid);
    if !ok { return; }
    k.queues := k.queues - {fid};
    if |k.freeFids| >= NB_QUEUES { return false, 0; }
    k.freeFids := k.freeFids + [fid];
    ThenEnds(k.State(), again, 0, ResetEffects(s, fid));
    ok := k.Finish(again, Step(s, e));
  }

  /** The running process parks itself on the queue. */
  method ParkRunning(k: Kernel, fid: int, message: int, c: Continuation)
    requires k.Valid() && fid in k.queues && k.running in k.procs
    modifies k
    ensures k.Valid() && k.State() == Park(old(k.State()), fid, message, c)
  {
    hide InsertNode;
    var q, me := k.queues[fid], k.procs[k.running];
    var l, place := AddOnPriority(q.locked, Node(k.running, message, c.InReceive?, me.prio));
    k.queues := k.queues[fid := q.(locked := l)];
    k.procs := k.procs[k.running := me.(state := BlockedByMessage, cont := c)];
  }

  method PSend(k: Kernel, fid: int, m: int) returns (ok: bool, ret: int)
    requires k.Valid()
    modifies k
    ensures k.Valid() && k.Stepped(old(k.State()), Event.PSend(fid, m), ok, ret, 0)
  {
    hide Step, Then, Ends, Schedule, ScheduleNested, InsertNode, Hand, Awake, Park;
    ghost var s, e := k.State(), Event.PSend(fid, m);
    StepIs(s, e);
    if fid !in k.queues { return true, -1; }
    ret := 0;
    if k.running !in k.procs { return false, 0; }
    var q := k.queues[fid];
    if q.messages == [] && q.locked != [] {
      k.queues := k.queues[fid := q.(locked := q.locked[1..])];
      var above;
      Deliver(k, q.locked[0], m);
      ok, above := AwakeProcess(k, q.locked[0].pid);
      if !ok { return; }
      ThenEnds(k.State(), above, 0, [Sent(fid, m), Accepted(fid, m), Delivered(fid, m)]);
      ok := k.Finish(above, Step(s, e));
    } else if |q.messages| == q.size {
      ParkRunning(k, fid, m, InSend(fid, m));
      ThenEnds(k.State(), true, 0, [Sent(fid, m)]);
      ok := k.Finish(true, Step(s, e));
    } else {
      k.queues := k.queues[fid := q.(messages := q.messages + [m])];
      ThenEnds(k.State(), false, 0, [Sent(fid, m), Accepted(fid, m)]);
      ok := k.Finish(false, Step(s, e));
    }
  }

  lemma ThenGives(t: Sys, again: bool, effects: seq<Effect>, out: int)
    ensures var r := Then(t, again, 0, effects);
            Ends(if r.Ok? then Ok(r.value.(out := out)) else Panic, t, again) && (r.Ok? ==> r.value.ret == 0)
  {
    hide Schedule;
  }

  method PReceive(k: Kernel, fid: int) returns (ok: bool, ret: int, out: int)
    requires k.Valid()
    modifies k
    ensures k.Valid() && k.Stepped(old(k.State()), Event.PReceive(fid), ok, ret, out)
  {
    hide Step, Then, Ends, Schedule, ScheduleNested, InsertNode, Hand, Awake, Park;
    ghost var s, e := k.State(), Event.PReceive(fid);
    StepIs(s, e);
    if fid !in k.queues { return true, -1, 0; }
    ret, out := 0, 0;
    if k.running !in k.procs { return false, 0, 0; }
    var q := k.queues[fid];
    if |q.messages| == q.size && q.locked != [] {
      if q.messages == [] { return false, 0, 0; }
      out := q.messages[0];
      k.queues := k.queues[fid := q.(messages := q.messages[1..] + [q.locked[0].message], locked := q.locked[1..])];
      var above;
      ok, above := AwakeProcess(k, q.locked[0].pid);
      if !ok { return; }
      ThenGives(k.State(), above, [Delivered(fid, out), Accepted(fid, q.locked[0].message)], out);
      ok := k.Finish(above, Step(s, e));
    } else if q.messages == [] {
      ParkRunning(k, fid, 0, InReceive(fid));
      ThenEnds(k.State(), true, 0, []);
      ok := k.Finish(true, Step(s, e));
    } else {
      out := q.messages[0];
      k.queues := k.queues[fid := q.(messages := q.messages[1..])];
      ok := true;
    }
  }
}
