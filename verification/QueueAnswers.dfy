/** What the calls on message queues answer, and the continuations of suspended calls; as in `Answers`. */
module QueueAnswers {
  import opened Lists
  import opened Outcomes
  import opened KernelState
  import opened Scheduler
  import opened Syscalls
  import opened Invariant
  import opened WakeLemmas
  import opened MessageLemmas
  import opened QueueSteps
  import opened ResetSteps
  import opened WaitSteps
  import opened CollectLemmas
  import opened Guarantees
  import opened Suspension
  import opened Answers
  import opened WakeOrder

  // ----- pcreate and pcount -----

  /** `pcreate` refuses a size out of range and a full table; else it gives the first free number, unless there
      is no memory for the buffer. */
  lemma PCreateAnswer(s: Sys, count: int, ok: bool)
    requires Inv(s)
    ensures var r := Step(s, PCreate(count, ok));
            if count < 1 || count > 536870911 || forall f :: 0 <= f < 64 ==> f in s.queues then Returns(r, -1, 0, s)
            else s.freeFids != [] && s.freeFids[0] !in s.queues && 0 <= s.freeFids[0] < 64
                 && var f := s.freeFids[0];
                    if ok then Returns(r, f, 0, s.(queues := s.queues[f := Queue(count, [], [])],
                                                   freeFids := s.freeFids[1..]))
                    else Returns(r, -1, 0, s.(freeFids := s.freeFids[1..] + [f]))
  {
    hide Inv, Frame, SleepOk, QueuesOk, Fair;
    InvParts(s);
    FreeNumbers(s.queues, s.freeFids);
  }

  lemma FreeNumbers(queues: map<int, Queue>, freeFids: seq<int>)
    requires FidsOk(queues, freeFids)
    ensures freeFids == [] <==> forall f :: 0 <= f < 64 ==> f in queues
    ensures freeFids != [] ==> freeFids[0] !in queues && 0 <= freeFids[0] < 64
  {
    if freeFids != [] {
      var f := freeFids[0];
      assert f in freeFids;
      assert 0 <= f < 64 && !(f in queues);
    } else {
      forall f | 0 <= f < 64 ensures f in queues { assert f !in freeFids; }
    }
  }

  /** `pcount` writes the number of messages and blocked senders, or minus the number of blocked receivers. */
  lemma PCountAnswer(s: Sys, f: int)
    ensures var r := Step(s, PCount(f));
            if f !in s.queues then Returns(r, -1, 0, s)
            else var q := s.queues[f];
                 Returns(r, 0, if |q.messages| == 0 then 0 - |q.locked| else |q.messages| + |q.locked|, s)
  {}

  // ----- preset and pdelete -----

  /** `p` is parked on queue `f`. */
  predicate ParkedOn(s: Sys, p: int, f: int) {
    p in s.procs && s.procs[p].state == BlockedByMessage
    && (s.procs[p].cont.InSend? || s.procs[p].cont.InReceive?) && s.procs[p].cont.fid == f
  }

  /** Queue `f` has been emptied: who was parked there is ready and marked, and has received -1 if it was to
      receive anything.  They will run in the order in which they were to be served. */
  ghost predicate Emptied(s: Sys, t: Sys, f: int)
    requires f in s.queues
  {
    && t == s.(procs := t.procs, ready := t.ready, released := t.released,
               queues := s.queues[f := Queue(s.queues[f].size, [], [])])
    && t.procs.Keys == s.procs.Keys && ReadyOk(t.procs, t.ready)
    && (forall p :: p in s.procs ==>
                      t.procs[p] == if !ParkedOn(s, p, f) then s.procs[p]
                                    else if s.procs[p].cont.InReceive? then s.procs[p].(state := Waiting, inbox := -1)
                                    else s.procs[p].(state := Waiting))
    && (forall p :: p in t.released <==> p in s.released || ParkedOn(s, p, f))
    && ReleasedInOrder(s, t.ready, s.queues[f].locked)
  }

  lemma ResetOrder(s: Sys, f: int)
    requires Inv(s) && f in s.queues && ResetQueue(s, f).Ok?
    ensures ReleasedInOrder(s, ResetQueue(s, f).value.ready, s.queues[f].locked)
  {
    hide Inv, ReleaseAll;
    var q := s.queues[f];
    InvParts(s);
    assert QueueOk(s.procs, f, q);
    ReleaseOrder(s.(queues := s.queues[f := q.(messages := [], locked := [])]), q.locked);
  }

  lemma ParkedNodes(s: Sys, p: int, f: int)
    requires Inv(s) && f in s.queues
    ensures ParkedOn(s, p, f) <==> exists i :: 0 <= i < |s.queues[f].locked| && s.queues[f].locked[i].pid == p
    ensures forall i :: 0 <= i < |s.queues[f].locked| && s.queues[f].locked[i].pid == p ==>
                          (s.queues[f].locked[i].dest <==> s.procs[p].cont.InReceive?)
    ensures DistinctPids(s.queues[f].locked)
  {
    hide Inv, Frame, SleepOk, FidsOk, Fair;
    InvParts(s);
    var l := s.queues[f].locked;
    assert QueueOk(s.procs, f, s.queues[f]);
    forall i | 0 <= i < |l| && l[i].pid == p ensures ParkedOn(s, p, f) && (l[i].dest <==> s.procs[p].cont.InReceive?) {
      assert NodeOk(s.procs, f, l[i]);
    }
    if ParkedOn(s, p, f) { assert ParkedIn(s.queues, p, f); }
  }

  lemma ResetEmpties(s: Sys, f: int)
    requires Inv(s) && f in s.queues && ResetQueue(s, f).Ok?
    ensures var t := ResetQueue(s, f).value;
            && (forall p :: p in s.procs ==>
                              p in t.procs
                              && t.procs[p] == if !ParkedOn(s, p, f) then s.procs[p]
                                               else if s.procs[p].cont.InReceive?
                                               then s.procs[p].(state := Waiting, inbox := -1)
                                               else s.procs[p].(state := Waiting))
            && (forall p :: p in t.released <==> p in s.released || ParkedOn(s, p, f))
  {
    hide Inv, ReleaseAll, ParkedOn;
    var q := s.queues[f];
    var s1 := s.(queues := s.queues[f := q.(messages := [], locked := [])]);
    var t := ReleaseAll(s1, q.locked).value;
    ReleaseMarks(s1, q.locked);
    forall p ensures p in t.released <==> p in s.released || ParkedOn(s, p, f) {
      ParkedNodes(s, p, f);
    }
    forall p | p in s.procs
      ensures p in t.procs
      ensures t.procs[p] == if !ParkedOn(s, p, f) then s.procs[p]
                            else if s.procs[p].cont.InReceive? then s.procs[p].(state := Waiting, inbox := -1)
                            else s.procs[p].(state := Waiting)
    {
      ParkedNodes(s, p, f);
      ReleasedSlot(s1, q.locked, p);
    }
  }

  lemma ResetIs(s: Sys, f: int)
    requires Inv(s) && f in s.queues
    ensures ResetQueue(s, f).Ok? && Emptied(s, ResetQueue(s, f).value, f)
  {
    hide Inv, SleepOk, QueuesOk, FidsOk, AnyAbove, ReleaseAll, ParkedOn, ResetQueue, Fair, Woke;
    hide ReleasedInOrder;
    ResetWoke(s, f);
    ResetEmpties(s, f);
    WokeTables(s, ResetQueue(s, f).value);
    ResetOnly(s, f);
    ResetOrder(s, f);
  }

  lemma WokeTables(s: Sys, t: Sys)
    requires Woke(s, t)
    ensures t.procs.Keys == s.procs.Keys && ReadyOk(t.procs, t.ready)
  {}

  lemma ResetOnly(s: Sys, f: int)
    requires Inv(s) && f in s.queues
    ensures ResetQueue(s, f).Ok? ==>
              var t := ResetQueue(s, f).value;
              t == s.(procs := t.procs, ready := t.ready, released := t.released,
                      queues := s.queues[f := Queue(s.queues[f].size, [], [])])
  {
    hide Inv;
    var q := s.queues[f];
    ReleaseOnly(s.(queues := s.queues[f := q.(messages := [], locked := [])]), q.locked);
  }

  lemma {:induction false} ReleaseOnly(s: Sys, l: seq<Node>)
    ensures ReleaseAll(s, l).Ok? ==>
              var t := ReleaseAll(s, l).value; t == s.(procs := t.procs, ready := t.ready, released := t.released)
    decreases |l|
  {
    hide InsertReady;
    if l != [] && ReleaseAll(s, l).Ok? {
      var a := Awake(Hand(s, l[0], -1), l[0].pid).value;
      ReleaseOnly(a.(released := a.released + {l[0].pid}), l[1..]);
    }
  }

  lemma AboveParked(s: Sys, f: int)
    requires Inv(s) && f in s.queues && s.running in s.procs
    ensures AnyAbove(s, s.queues[f].locked) <==>
            exists p :: ParkedOn(s, p, f) && s.procs[p].prio > s.procs[s.running].prio
  {
    hide Inv, ParkedOn;
    var l := s.queues[f].locked;
    if n :| n in l && Above(s, n.pid) {
      ParkedNodes(s, n.pid, f);
      var i :| 0 <= i < |l| && l[i] == n;
      ParkedHere(s, n.pid, f);
      assert ParkedOn(s, n.pid, f) && s.procs[n.pid].prio > s.procs[s.running].prio;
    }
    forall p | ParkedOn(s, p, f) ensures p in s.procs { ParkedHere(s, p, f); }
    if p :| p in s.procs && ParkedOn(s, p, f) && s.procs[p].prio > s.procs[s.running].prio {
      ParkedNodes(s, p, f);
      var i :| 0 <= i < |l| && l[i].pid == p;
      assert l[i] in l && Above(s, l[i].pid);
    }
  }

  lemma ParkedHere(s: Sys, p: int, f: int)
    requires ParkedOn(s, p, f)
    ensures p in s.procs
  {}

  /** `preset` schedules exactly when one of the processes it releases is above the running one. */
  lemma PResetAnswer(s: Sys, f: int)
    requires Inv(s)
    ensures var r := Step(s, PReset(f));
            if f !in s.queues then Returns(r, -1, 0, s)
            else s.running in s.procs
                 && exists t :: Emptied(s, t, f)
                                && Ends(r, exists p :: ParkedOn(s, p, f) && s.procs[p].prio > s.procs[s.running].prio,
                                        0, 0, t)
  {
    hide Inv, Schedule, ResetQueue, ResetEffects, AnyAbove, Emptied, Then, Ends, ParkedOn, Frame, SleepOk, FidsOk;
    hide QueuesOk, Fair;
    InvParts(s);
    if f in s.queues {
      ResetIs(s, f);
      AboveParked(s, f);
      ThenEnds(ResetQueue(s, f).value, AnyAbove(s, s.queues[f].locked), 0, ResetEffects(s, f));
    }
  }

  /** `pdelete` does the same, and the number of the queue is the last of the free ones. */
  lemma PDeleteAnswer(s: Sys, f: int)
    requires Inv(s)
    ensures var r := Step(s, PDelete(f));
            if f !in s.queues then Returns(r, -1, 0, s)
            else s.running in s.procs
                 && exists t :: Emptied(s, t, f)
                                && Ends(r, exists p :: ParkedOn(s, p, f) && s.procs[p].prio > s.procs[s.running].prio,
                                        0, 0, t.(queues := s.queues - {f}, freeFids := s.freeFids + [f]))
  {
    hide Inv, Schedule, ResetQueue, ResetEffects, AnyAbove, Then, Ends, ParkedOn, Frame, SleepOk, FidsOk;
    hide QueuesOk, Fair;
    InvParts(s);
    if f in s.queues {
      ResetIs(s, f);
      AboveParked(s, f);
      FreeFid(s.queues, s.freeFids, f);
      var t := ResetQueue(s, f).value;
      var u := t.(queues := s.queues - {f}, freeFids := s.freeFids + [f]);
      assert t.queues - {f} == s.queues - {f};
      hide Emptied;
      ThenEnds(u, AnyAbove(s, s.queues[f].locked), 0, ResetEffects(s, f));
    }
  }

  // ----- psend and preceive -----

  /** The first process parked on `f` is ready, after the lower ones and its earlier equals are passed; it has
      `inbox` in the variable it gave, and the queue is `q`. */
  function Awoken(s: Sys, f: int, q: Queue, inbox: int): Sys
    requires f in s.queues && s.queues[f].locked != [] && s.queues[f].locked[0].pid in s.procs
  {
    var p := s.queues[f].locked[0].pid;
    var procs := s.procs[p := s.procs[p].(state := Waiting, inbox := inbox)];
    s.(procs := procs, ready := InsertReady(procs, s.ready, p), queues := s.queues[f := q])
  }

  /** The running process is parked on `f`. */
  function ParkedMe(s: Sys, f: int, n: Node, c: Continuation): Sys
    requires f in s.queues && s.running in s.procs
  {
    var q := s.queues[f];
    s.(procs := s.procs[s.running := s.procs[s.running].(state := BlockedByMessage, cont := c)],
       queues := s.queues[f := q.(locked := InsertNode(q.locked, n))])
  }

  lemma FirstNode(s: Sys, f: int)
    requires Inv(s) && f in s.queues && s.queues[f].locked != []
    ensures var n := s.queues[f].locked[0];
            && n.pid in s.procs && s.running in s.procs && n.pid != s.running && n.pid !in s.ready
            && (s.queues[f].messages == [] <==> n.dest)
  {
    QueueOf(s, f);
    var n := s.queues[f].locked[0];
    assert NodeOk(s.procs, f, n);
    assert s.procs[n.pid].cont.InSend? ==> |s.queues[f].messages| == s.queues[f].size;
    ParkedElsewhere(s, n.pid);
    hide Inv;
  }

  lemma FirstServed(s: Sys, f: int, q': Queue, v: int)
    requires Inv(s) && f in s.queues && s.queues[f].locked != []
    ensures var n := s.queues[f].locked[0];
            && n.pid in s.procs && s.running in s.procs && n.pid != s.running
            && (s.queues[f].messages == [] <==> n.dest)
            && var s1 := s.(queues := s.queues[f := q']);
               Awake(Hand(s1, n, v), n.pid) == Ok(Awoken(s, f, q', if n.dest then v else s.procs[n.pid].inbox))
               && (!n.dest ==> Hand(s1, n, v) == s1)
  {
    hide Inv, Hand, Awake, Awoken;
    FirstNode(s, f);
    ServedIs(s, f, q', v);
  }

  lemma ServedIs(s: Sys, f: int, q': Queue, v: int)
    requires f in s.queues && s.queues[f].locked != []
    requires var p := s.queues[f].locked[0].pid; p in s.procs && p !in s.ready
    ensures var n := s.queues[f].locked[0];
            && var s1 := s.(queues := s.queues[f := q']);
               Awake(Hand(s1, n, v), n.pid) == Ok(Awoken(s, f, q', if n.dest then v else s.procs[n.pid].inbox))
               && (!n.dest ==> Hand(s1, n, v) == s1)
  {
    hide InsertReady;
    var n, s1 := s.queues[f].locked[0], s.(queues := s.queues[f := q']);
    var given := if n.dest then v else s.procs[n.pid].inbox;
    var h := Hand(s1, n, v);
    assert h == s1.(procs := s.procs[n.pid := s.procs[n.pid].(inbox := given)]) by { SameSlot(s.procs, n.pid); }
    assert h.procs[n.pid := h.procs[n.pid].(state := Waiting)] ==
           s.procs[n.pid := s.procs[n.pid].(state := Waiting, inbox := given)];
  }

  lemma SameSlot(procs: Table, p: int)
    requires p in procs
    ensures procs[p := procs[p].(inbox := procs[p].inbox)] == procs
  {}

  lemma ParkedElsewhere(s: Sys, p: int)
    requires Inv(s) && p in s.procs && s.procs[p].state == BlockedByMessage
    ensures p !in s.ready && p != s.running
  {
    hide FidsOk, SleepOk, QueuesOk, AllRooted, ChildrenLast, NoInversion, Undoomed, WaitsOk, TreeOk, LifeOk, PidsOk;
  }

  /** `psend` on a queue that does not exist, with a parked receiver, full, or with room. */
  lemma PSendAnswer(s: Sys, f: int, m: int)
    requires Inv(s)
    ensures s.running in s.procs
    ensures var r := Step(s, PSend(f, m));
            if f !in s.queues then Returns(r, -1, 0, s)
            else var q := s.queues[f];
                 if |q.messages| == 0 && |q.locked| > 0 then
                   var w := q.locked[0].pid;
                   w in s.procs
                   && Ends(r, s.procs[w].prio > s.procs[s.running].prio, 0, 0,
                           Awoken(s, f, q.(locked := q.locked[1..]), m))
                 else if |q.messages| == q.size then
                   Blocks(r, ParkedMe(s, f, Node(s.running, m, false, s.procs[s.running].prio), InSend(f, m)))
                 else Returns(r, 0, 0, s.(queues := s.queues[f := q.(messages := q.messages + [m])]))
  {
    hide Inv, Schedule, InsertReady, InsertNode, Frame, SleepOk, FidsOk, QueuesOk, Fair;
    InvParts(s);
    if f in s.queues {
      var q := s.queues[f];
      if |q.messages| == 0 && |q.locked| > 0 {
        var q' := q.(locked := q.locked[1..]);
        FirstServed(s, f, q', m);
        hide Hand, Awake;
        var t, w := Awoken(s, f, q', m), q.locked[0].pid;
        ThenEnds(t, Above(t, w), 0, [Sent(f, m), Accepted(f, m), Delivered(f, m)]);
      }
    }
  }

  /** `preceive`: with a blocked sender, on an empty queue, or with a message and nobody waiting. */
  lemma PReceiveAnswer(s: Sys, f: int)
    requires Inv(s)
    ensures s.running in s.procs
    ensures var r := Step(s, PReceive(f));
            if f !in s.queues then Returns(r, -1, 0, s)
            else var q := s.queues[f];
                 if |q.messages| == 0 then
                   Blocks(r, ParkedMe(s, f, Node(s.running, 0, true, s.procs[s.running].prio), InReceive(f)))
                 else if |q.locked| > 0 then
                   var n := q.locked[0];
                   n.pid in s.procs
                   && Ends(r, s.procs[n.pid].prio > s.procs[s.running].prio, 0, q.messages[0],
                           Awoken(s, f, q.(messages := q.messages[1..] + [n.message], locked := q.locked[1..]),
                                  s.procs[n.pid].inbox))
                 else Returns(r, 0, q.messages[0], s.(queues := s.queues[f := q.(messages := q.messages[1..])]))
  {
    hide Inv, Schedule, InsertReady, InsertNode, Frame, SleepOk, FidsOk, QueuesOk, Fair;
    InvParts(s);
    if f in s.queues {
      var q := s.queues[f];
      QueueOf(s, f);
      if |q.messages| > 0 && |q.locked| > 0 {
        FullIfParked(s.procs, f, q);
        hide QueueOk;
        var n := q.locked[0];
        var q' := q.(messages := q.messages[1..] + [n.message], locked := q.locked[1..]);
        FirstServed(s, f, q', 0);
        hide Hand, Awake;
        var t := Awoken(s, f, q', s.procs[n.pid].inbox);
        ThenEnds(t, Above(t, n.pid), 0, [Delivered(f, q.messages[0]), Accepted(f, n.message)]);
      }
    }
  }

  lemma FullIfParked(procs: Table, f: int, q: Queue)
    requires QueueOk(procs, f, q) && q.messages != [] && q.locked != []
    ensures |q.messages| == q.size
  {
    FirstKind(procs, f, q);
  }

  // ----- the rest of a suspended call -----

  /** A woken `waitpid` collects its child; a woken `psend` or `preceive` fails exactly when it is marked. */
  lemma ResumeAnswer(s: Sys)
    requires Inv(s) && s.running in s.procs && s.procs[s.running].cont != Idle
    ensures var r := Step(s, Resume); var me := s.procs[s.running];
            var idle := s.(procs := s.procs[s.running := me.(cont := Idle)]);
            var ret := if s.running in s.released then -1 else 0;
            match me.cont
            case InWait(target) =>
              var c := if target < 0 then me.waitingCode else target;
              c in s.procs && Returns(r, c, s.procs[c].returnCode, Collected(idle, c))
            case InSend(_, _) => Returns(r, ret, 0, idle.(released := s.released - {s.running}))
            case InReceive(_) => Returns(r, ret, me.inbox, idle.(released := s.released - {s.running}))
  {
    hide Inv;
    var me := s.procs[s.running];
    if me.cont.InWait? {
      WokenCanCollect(s);
      var c := if me.cont.target < 0 then me.waitingCode else me.cont.target;
      NotMyself(s, c);
    }
  }

  lemma NotMyself(s: Sys, c: int)
    requires Inv(s) && CanCollect(s, c)
    ensures c != s.running
  {
    hide FidsOk, SleepOk, QueuesOk, AllRooted, ChildrenLast, NoInversion, Undoomed, WaitsOk, TreeOk, LifeOk, PidsOk;
  }
}
