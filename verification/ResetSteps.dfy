/** Creating, resetting and deleting message queues keeps the invariant. */
module ResetSteps {
  import opened Lists
  import opened KernelState
  import opened Scheduler
  import opened Syscalls
  import opened Invariant
  import opened FrameLemmas
  import opened ScheduleLemmas
  import opened PanicLemmas
  import opened WakeLemmas
  import opened MessageLemmas
  import opened QueueSteps

  /** The queue table as it was before the processes of `l` were taken off queue `f`. */
  ghost function Before(queues: map<int, Queue>, f: int, q: Queue, l: seq<Node>): map<int, Queue> {
    queues[f := q.(locked := l)]
  }

  lemma FamilyTwice(procs: Table, procs1: Table, procs2: Table)
    requires SameFamily(procs, procs1) && SameFamily(procs1, procs2)
    ensures SameFamily(procs, procs2)
  {}

  /** Same priorities, so the same processes are above the running one. */
  ghost predicate SamePrios(s: Sys, t: Sys) {
    t.running == s.running && forall p :: Prio(t.procs, p) == Prio(s.procs, p)
  }

  lemma {:induction false} ReleaseAllOk(s: Sys, f: int, q: Queue, l: seq<Node>)
    requires Frame(s) && SleepOk(s.procs, s.sleepers) && QueuesOk(s.procs, Before(s.queues, f, q, l))
    requires s.running in s.procs && s.procs[s.running].state == Running
    ensures ReleaseAll(s, l).Ok?
    ensures var t := ReleaseAll(s, l).value;
            && Frame(t) && SleepOk(t.procs, t.sleepers) && QueuesOk(t.procs, Before(s.queues, f, q, []))
            && SameFamily(s.procs, t.procs) && SamePrios(s, t)
            && t == s.(procs := t.procs, ready := t.ready, released := t.released)
            && t.running in t.procs && t.procs[t.running].state == Running
            && (Fair(s) && !AnyAbove(s, l) ==> Fair(t))
    decreases |l|
  {
    hide Frame, SleepOk, QueuesOk, NoInversion, SameFamily, Awake, Hand, Prio, Before;
    if l == [] {
      SelfFamily(s.procs);
    } else {
      var p := l[0].pid;
      ReleaseOne(s, f, q, l);
      var s1 := Awake(Hand(s, l[0], -1), p).value;
      var s2 := s1.(released := s1.released + {p});
      FrameOverReleased(s1, s2);
      ReleaseAllOk(s2, f, q, l[1..]);
      var t := ReleaseAll(s2, l[1..]).value;
      FamilyTwice(s.procs, s1.procs, t.procs);
      if Fair(s) && !AnyAbove(s, l) {
        assert l[0] in l && !Above(s, p);
        assert !Above(s1, p);
        WokenBelow(s, s1, p);
        NotAbove(s, s2, l);
      }
    }
  }

  lemma NotAbove(s: Sys, t: Sys, l: seq<Node>)
    requires l != [] && SamePrios(s, t) && !AnyAbove(s, l)
    ensures !AnyAbove(t, l[1..])
  {
    forall n | n in l[1..] ensures !Above(t, n.pid) {
      assert n in l;
    }
  }

  lemma FrameOverReleased(s: Sys, t: Sys)
    requires Frame(s) && t == s.(released := t.released)
    ensures Frame(t)
  {}

  lemma ReleaseOne(s: Sys, f: int, q: Queue, l: seq<Node>)
    requires l != []
    requires Frame(s) && SleepOk(s.procs, s.sleepers) && QueuesOk(s.procs, Before(s.queues, f, q, l))
    requires s.running in s.procs && s.procs[s.running].state == Running
    ensures Awake(Hand(s, l[0], -1), l[0].pid).Ok?
    ensures var t := Awake(Hand(s, l[0], -1), l[0].pid).value;
            && Frame(t) && SleepOk(t.procs, t.sleepers) && QueuesOk(t.procs, Before(s.queues, f, q, l[1..]))
            && SameFamily(s.procs, t.procs) && SamePrios(s, t) && Woken(s.procs, t.procs, l[0].pid)
            && t == s.(procs := t.procs, ready := t.ready)
            && t.running in t.procs && t.procs[t.running].state == Running
            && (forall x :: x in t.ready <==> x == l[0].pid || x in s.ready)
  {
    hide Frame, SleepOk, QueuesOk, SameFamily, Awake, Hand;
    var p := l[0].pid;
    var v := Before(s.queues, f, q, l);
    FirstParked(s.procs, v, f);
    HandOk(s, l[0], -1);
    var t := Awake(Hand(s, l[0], -1), p).value;
    ServeQueues(s.procs, t.procs, v, f, q.(locked := l[1..])) by {
      assert SameExtreme(v[f], q.(locked := l[1..])) by { QueueBounds(s.procs, v, f); }
    }
    assert v[f := q.(locked := l[1..])] == Before(s.queues, f, q, l[1..]);
    WakeSleep(s.procs, t.procs, p, s.sleepers);
  }

  lemma QueueBounds(procs: Table, queues: map<int, Queue>, f: int)
    requires QueuesOk(procs, queues) && f in queues
    ensures 1 <= queues[f].size && |queues[f].messages| <= queues[f].size
  {
    assert QueueOk(procs, f, queues[f]);
  }

  /** After a reset the queue is empty and free, and everybody is accounted for. */
  lemma ResetWoke(s: Sys, f: int)
    requires Inv(s) && f in s.queues
    ensures ResetQueue(s, f).Ok?
    ensures var t := ResetQueue(s, f).value;
            && Woke(s, t) && t.queues == s.queues[f := Queue(s.queues[f].size, [], [])]
            && t.freeFids == s.freeFids
            && (!AnyAbove(s, s.queues[f].locked) && Fair(s) ==> Fair(t))
  {
    hide Inv, SleepOk, QueuesOk, FidsOk, SameFamily, Frame, SamePrios, AnyAbove, ReleaseAll;
    InvParts(s);
    var q := s.queues[f];
    var q0 := q.(messages := [], locked := []);
    var s1 := s.(queues := s.queues[f := q0]);
    SameFrame(s, s1);
    assert Before(s1.queues, f, q, q.locked) == s.queues;
    ReleaseAllOk(s1, f, q, q.locked);
    var t := ReleaseAll(s1, q.locked).value;
    var v := Before(s1.queues, f, q, []);
    QueueBounds(t.procs, v, f);
    MessagesQueues(t.procs, v, f, q0);
    assert v[f := q0] == s1.queues;
    KeepsFids(s.queues, f, q0, s.freeFids);
    SameAbove(s, s1, q.locked);
  }

  lemma SameAbove(s: Sys, t: Sys, l: seq<Node>)
    requires t.procs == s.procs && t.running == s.running
    ensures AnyAbove(s, l) <==> AnyAbove(t, l)
  {}

  lemma PResetOk(s: Sys, f: int)
    requires Inv(s)
    ensures var r := PResetCall(s, f); r.Ok? && Inv(r.value.sys) && CodesKept(s, r.value.sys) && FairReply(s, r.value)
    ensures f in s.queues ==> PResetCall(s, f).value.sys.queues == s.queues[f := Queue(s.queues[f].size, [], [])]
  {
    hide Inv, Woke, Schedule, Fair, Chosen, ResetQueue, AnyAbove, ResetEffects;
    if f in s.queues {
      ResetWoke(s, f);
      WokeThen(s, ResetQueue(s, f).value, AnyAbove(s, s.queues[f].locked), 0, ResetEffects(s, f));
    }
  }

  lemma RemoveQueue(procs: Table, queues: map<int, Queue>, f: int)
    requires QueuesOk(procs, queues) && f in queues && queues[f].locked == []
    ensures QueuesOk(procs, queues - {f})
  {
    forall p | p in procs && procs[p].state == BlockedByMessage
      ensures ParkedIn(queues - {f}, p, procs[p].cont.fid)
    {
      var g := procs[p].cont.fid;
      assert ParkedIn(queues, p, g);
      var i :| 0 <= i < |queues[g].locked| && queues[g].locked[i].pid == p;
      assert (queues - {f})[g].locked[i].pid == p;
    }
  }

  lemma FreeFid(queues: map<int, Queue>, freeFids: seq<int>, f: int)
    requires FidsOk(queues, freeFids) && f in queues
    ensures |freeFids| < NB_QUEUES && FidsOk(queues - {f}, freeFids + [f])
  {
    AppendNoDup(freeFids, f);
    DistinctInRange(freeFids + [f], 0, NB_QUEUES);
    assert forall g :: g in freeFids + [f] <==> g in freeFids || g == f;
  }

  lemma DeleteWoke(s: Sys, t: Sys, f: int)
    requires Woke(s, t) && f in t.queues && t.queues[f].locked == []
    ensures |t.freeFids| < NB_QUEUES && Woke(s, t.(queues := t.queues - {f}, freeFids := t.freeFids + [f]))
  {
    hide SameFamily, SleepOk, QueuesOk, FidsOk, Frame;
    FreeFid(t.queues, t.freeFids, f);
    RemoveQueue(t.procs, t.queues, f);
    FrameOverQueues(t, t.(queues := t.queues - {f}, freeFids := t.freeFids + [f]));
  }

  lemma PDeleteOk(s: Sys, f: int)
    requires Inv(s)
    ensures var r := PDeleteCall(s, f); r.Ok? && Inv(r.value.sys) && CodesKept(s, r.value.sys) && FairReply(s, r.value)
    ensures f in s.queues ==> PDeleteCall(s, f).value.sys.queues == s.queues - {f}
  {
    hide Inv, Schedule, NoInversion, Chosen, ResetQueue, AnyAbove, ResetEffects, Woke;
    if f in s.queues {
      assert s.queues[f := Queue(s.queues[f].size, [], [])] - {f} == s.queues - {f};
      ResetWoke(s, f);
      var t := ResetQueue(s, f).value;
      DeleteWoke(s, t, f);
      var u := t.(queues := t.queues - {f}, freeFids := t.freeFids + [f]);
      WokeThen(s, u, AnyAbove(s, s.queues[f].locked), 0, ResetEffects(s, f));
    }
  }

  lemma FrameOverQueues(s: Sys, t: Sys)
    requires Frame(s) && t == s.(queues := t.queues, freeFids := t.freeFids)
    ensures Frame(t)
  {}

  lemma AddQueue(procs: Table, queues: map<int, Queue>, f: int, size: int)
    requires QueuesOk(procs, queues) && f !in queues && 1 <= size <= MAX_BUFFER
    ensures QueuesOk(procs, queues[f := Queue(size, [], [])])
  {
    forall p | p in procs && procs[p].state == BlockedByMessage
      ensures ParkedIn(queues[f := Queue(size, [], [])], p, procs[p].cont.fid)
    {
      assert ParkedIn(queues, p, procs[p].cont.fid);
    }
  }

  lemma TakeFid(queues: map<int, Queue>, freeFids: seq<int>, size: int)
    requires FidsOk(queues, freeFids) && freeFids != []
    ensures freeFids[0] !in queues
    ensures FidsOk(queues[freeFids[0] := Queue(size, [], [])], freeFids[1..])
    ensures FidsOk(queues, freeFids[1..] + [freeFids[0]])
  {
    var f := freeFids[0];
    assert f in freeFids && f !in freeFids[1..];
    assert freeFids == [f] + freeFids[1..];
    assert forall g :: g in freeFids <==> g == f || g in freeFids[1..];
    AppendNoDup(freeFids[1..], f);
    assert forall g :: g in freeFids[1..] + [f] <==> g == f || g in freeFids[1..];
  }

  lemma PCreateOk(s: Sys, count: int, ok: bool)
    requires Inv(s)
    ensures var r := PCreateCall(s, count, ok);
            r.Ok? && Inv(r.value.sys) && CodesKept(s, r.value.sys) && FairReply(s, r.value)
    ensures var r := PCreateCall(s, count, ok).value; r.ret != -1 ==> r.ret !in s.queues && r.ret in r.sys.queues
  {
    if 1 <= count <= MAX_BUFFER && s.freeFids != [] {
      InvParts(s);
      hide Inv, NoInversion, SameFamily, Frame, SleepOk, QueuesOk, FidsOk;
      var f := s.freeFids[0];
      TakeFid(s.queues, s.freeFids, count);
      AddQueue(s.procs, s.queues, f, count);
      var t := PCreateCall(s, count, ok).value.sys;
      FrameOverQueues(s, t);
      SelfFamily(s.procs);
      WokeQuiet(s, t);
    }
  }
}
