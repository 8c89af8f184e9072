/** In which order parked processes are served: by priority, and among equals the one put in place last
    comes first, over every run. */
module ParkingOrder {
  import opened KernelState
  import opened Syscalls
  import opened Invariant
  import opened QueueLemmas
  import opened QueueSteps
  import opened ChPrioSteps
  import opened Conservation
  import opened Runs

  /** When each process was last put on a list of parked processes. */
  type Moments = map<int, int>

  /** `a` is served before `b`. */
  ghost predicate Ahead(at: Moments, a: Node, b: Node) {
    a.prio > b.prio || (a.prio == b.prio && a.pid in at && b.pid in at && at[a.pid] > at[b.pid])
  }

  ghost predicate InTurn(l: seq<Node>, at: Moments, now: int) {
    && (forall i :: 0 <= i < |l| ==> l[i].pid in at && at[l[i].pid] < now)
    && (forall i, j :: 0 <= i < j < |l| ==> Ahead(at, l[i], l[j]))
  }

  // ----- one list -----

  lemma OrderedSorted(l: seq<Node>, at: Moments, now: int)
    requires InTurn(l, at, now)
    ensures SortedNodes(l)
  {
    forall i, j | 0 <= i < j < |l| ensures l[i].prio >= l[j].prio {
      assert Ahead(at, l[i], l[j]);
    }
  }

  lemma OrderedLater(l: seq<Node>, at: Moments, now: int)
    requires InTurn(l, at, now)
    ensures InTurn(l, at, now + 1)
  {}

  /** A process that is not on the list is put in place. */
  lemma OrderedApart(l: seq<Node>, at: Moments, now: int, p: int)
    requires InTurn(l, at, now) && forall i :: 0 <= i < |l| ==> l[i].pid != p
    ensures InTurn(l, at[p := now], now + 1)
    ensures forall i :: 0 <= i < |l| ==> l[i].pid in at[p := now] && at[p := now][l[i].pid] < now
  {
    forall i, j | 0 <= i < j < |l| ensures Ahead(at[p := now], l[i], l[j]) {
      assert Ahead(at, l[i], l[j]);
    }
  }

  lemma OrderedCut(l: seq<Node>, at: Moments, now: int, k: nat)
    requires InTurn(l, at, now) && k < |l|
    ensures InTurn(l[..k] + l[k + 1..], at, now)
  {
    var r := l[..k] + l[k + 1..];
    forall i, j | 0 <= i < j < |r| ensures Ahead(at, r[i], r[j]) {
      assert Ahead(at, l[if i < k then i else i + 1], l[if j < k then j else j + 1]);
    }
  }

  /** The first node of a process, if there is one, is the one that is removed. */
  lemma OrderedRemoved(l: seq<Node>, at: Moments, now: int, p: int)
    requires InTurn(l, at, now) && DistinctPids(l)
    ensures InTurn(RemovePid(l, p), at, now) && forall i :: 0 <= i < |RemovePid(l, p)| ==> RemovePid(l, p)[i].pid != p
  {
    if k :| 0 <= k < |l| && l[k].pid == p {
      RemovePidSplits(l, p, k);
      OrderedCut(l, at, now, k);
      hide RemovePid;
      var r := RemovePid(l, p);
      assert forall i :: 0 <= i < |r| ==> r[i] == l[if i < k then i else i + 1];
    } else {
      RemovePidAbsent(l, p);
    }
  }

  lemma OrderedInserted(l: seq<Node>, at: Moments, now: int, n: Node)
    requires InTurn(l, at, now) && forall i :: 0 <= i < |l| ==> l[i].pid != n.pid
    ensures InTurn(InsertNode(l, n), at[n.pid := now], now + 1)
  {
    hide InsertNode, InTurn, Ahead;
    OrderedSorted(l, at, now);
    OrderedApart(l, at, now, n.pid);
    var k := InsertNodeSplits(l, n);
    PutBetween(l, at[n.pid := now], now, n, k);
  }

  lemma PutBetween(l: seq<Node>, at: Moments, now: int, n: Node, k: nat)
    requires InTurn(l, at, now + 1) && k <= |l| && n.pid in at && at[n.pid] == now
    requires forall i :: 0 <= i < |l| ==> l[i].pid in at && at[l[i].pid] < now
    requires forall i :: 0 <= i < k ==> l[i].prio > n.prio
    requires forall i :: k <= i < |l| ==> l[i].prio <= n.prio
    ensures InTurn(l[..k] + [n] + l[k..], at, now + 1)
  {
    var r := l[..k] + [n] + l[k..];
    assert forall i :: 0 <= i < |r| && i != k ==> r[i] == l[if i < k then i else i - 1];
    forall i, j | 0 <= i < j < |r| ensures Ahead(at, r[i], r[j]) {
      if i != k && j != k {
        assert Ahead(at, l[if i < k then i else i - 1], l[if j < k then j else j - 1]);
      }
    }
  }

  // ----- one step -----

  ghost predicate AllInTurn(queues: map<int, Queue>, at: Moments, now: int) {
    forall f :: f in queues ==> InTurn(queues[f].locked, at, now)
  }

  /** A call that parks its process puts it in place, and so does a change of the priority of a parked one. */
  ghost function Placed(s: Sys, e: Event, at: Moments, now: int): Moments {
    match e
    case PSend(f, _) => if SendBlocks(s, f) then at[s.running := now] else at
    case PReceive(f) => if ReceiveBlocks(s, f) then at[s.running := now] else at
    case ChPrio(p, prio) =>
      if !ChPrioRejects(s, p, prio) && s.procs[p].state == BlockedByMessage then at[p := now] else at
    case _ => at
  }

  /** Who is on a list is parked on that queue and on no other. */
  lemma ParkedOnce(s: Sys, f: int)
    requires Inv(s) && f in s.queues
    ensures var l := s.queues[f].locked;
            && DistinctPids(l)
            && forall i :: 0 <= i < |l| ==>
                             && l[i].pid != s.running && l[i].pid in s.procs
                             && s.procs[l[i].pid].state == BlockedByMessage
                             && s.procs[l[i].pid].cont in {InReceive(f), InSend(f, l[i].message)}
  {
    hide PidsOk, FidsOk, SleepOk, TreeOk, AllRooted, LifeOk, ChildrenLast, WaitsOk, NoInversion;
    assert QueueOk(s.procs, f, s.queues[f]);
    var l := s.queues[f].locked;
    forall i | 0 <= i < |l|
      ensures l[i].pid != s.running && l[i].pid in s.procs && s.procs[l[i].pid].state == BlockedByMessage
      ensures s.procs[l[i].pid].cont in {InReceive(f), InSend(f, l[i].message)}
    {
      assert NodeOk(s.procs, f, l[i]);
    }
  }

  /** A parked process whose priority changes. */
  lemma ChPrioOrdered(s: Sys, f: int, p: int, prio: int, at: Moments, now: int)
    requires Inv(s) && f in s.queues && InTurn(s.queues[f].locked, at, now)
    ensures InTurn(Reprioritise(s.queues[f].locked, p, prio), at[p := now], now + 1)
  {
    hide Inv, InTurn, InsertNode, RemovePid;
    ParkedOnce(s, f);
    var l := s.queues[f].locked;
    if k :| 0 <= k < |l| && l[k].pid == p {
      ReprioritiseIs(l, p, prio, k);
      OrderedRemoved(l, at, now, p);
      OrderedInserted(RemovePid(l, p), at, now, l[k].(prio := prio));
    } else {
      OrderedApart(l, at, now, p);
    }
  }

  lemma SendOrdered(s: Sys, f: int, m: int, at: Moments, now: int)
    requires Inv(s) && f in s.queues && InTurn(s.queues[f].locked, at, now)
    ensures InTurn(AfterSend(s, f, m).locked, Placed(s, PSend(f, m), at, now), now + 1)
  {
    hide Inv, InTurn, InsertNode;
    ParkedOnce(s, f);
    var l := s.queues[f].locked;
    OrderedLater(l, at, now);
    if SendBlocks(s, f) {
      OrderedInserted(l, at, now, Node(s.running, m, false, Prio(s.procs, s.running)));
    } else if l != [] {
      OrderedCut(l, at, now + 1, 0);
      assert l[..0] + l[1..] == l[1..];
    }
  }

  lemma ReceiveOrdered(s: Sys, f: int, at: Moments, now: int)
    requires Inv(s) && f in s.queues && InTurn(s.queues[f].locked, at, now)
    ensures InTurn(AfterReceive(s, f).locked, Placed(s, PReceive(f), at, now), now + 1)
  {
    hide Inv, InTurn, InsertNode;
    ParkedOnce(s, f);
    QueueOf(s, f);
    var l := s.queues[f].locked;
    OrderedLater(l, at, now);
    if ReceiveBlocks(s, f) {
      OrderedInserted(l, at, now, Node(s.running, 0, true, Prio(s.procs, s.running)));
    } else if l != [] {
      OrderedCut(l, at, now + 1, 0);
      assert l[..0] + l[1..] == l[1..];
    }
  }

  lemma DeathOrdered(s: Sys, f: int, p: int, at: Moments, now: int)
    requires Inv(s) && f in s.queues && InTurn(s.queues[f].locked, at, now)
    ensures InTurn(RemovePid(s.queues[f].locked, p), at, now + 1)
  {
    hide Inv, InTurn, RemovePid;
    ParkedOnce(s, f);
    OrderedRemoved(s.queues[f].locked, at, now, p);
    OrderedLater(RemovePid(s.queues[f].locked, p), at, now);
  }

  /** The queue after the step, if it was there before. */
  lemma QueueOrdered(s: Sys, e: Event, f: int, at: Moments, now: int)
    requires Inv(s) && AllInTurn(s.queues, at, now) && f in NextQueues(s, e)
    ensures InTurn(NextQueues(s, e)[f].locked, Placed(s, e, at, now), now + 1)
  {
    hide Inv, InTurn, AfterSend, AfterReceive, RemovePid, Reprioritise;
    if f in s.queues {
      var l := s.queues[f].locked;
      ParkedOnce(s, f);
      OrderedLater(l, at, now);
      OrderedApart(l, at, now, s.running);
      match e {
        case Exit(_) => DeathOrdered(s, f, s.running, at, now);
        case Kill(p) => DeathOrdered(s, f, p, at, now);
        case ChPrio(p, prio) => ChPrioOrdered(s, f, p, prio, at, now);
        case PSend(g, m) => if g == f { SendOrdered(s, f, m, at, now); }
        case PReceive(g) => if g == f { ReceiveOrdered(s, f, at, now); }
        case _ =>
      }
    }
    NobodyOrdered(at, now + 1);
    NobodyOrdered(Placed(s, e, at, now), now + 1);
  }

  lemma NobodyOrdered(at: Moments, now: int)
    ensures InTurn([], at, now)
  {}

  lemma StepOrdered(s: Sys, e: Event, at: Moments, now: int)
    requires Inv(s) && Enabled(s, e) && Guard(s, e) && AllInTurn(s.queues, at, now)
    ensures Step(s, e).Ok? && AllInTurn(Step(s, e).value.sys.queues, Placed(s, e, at, now), now + 1)
  {
    hide Inv, Enabled, Guard, Step, InTurn, NextQueues, Placed;
    QueuesAfter(s, e);
    forall f | f in NextQueues(s, e) ensures InTurn(NextQueues(s, e)[f].locked, Placed(s, e, at, now), now + 1) {
      QueueOrdered(s, e, f, at, now);
    }
  }

  // ----- runs -----

  /** The moments after a run whose first event happens at `now`. */
  ghost function PlacedOver(s: Sys, run: seq<Event>, at: Moments, now: int): Moments
    decreases |run|
  {
    if run == [] || Step(s, run[0]).Panic? then at
    else PlacedOver(Step(s, run[0]).value.sys, run[1..], Placed(s, run[0], at, now), now + 1)
  }

  lemma {:induction false} RunOrdered(s: Sys, run: seq<Event>, at: Moments, now: int)
    requires Inv(s) && Obeys(s, run) && AllInTurn(s.queues, at, now)
    ensures After(s, run).Ok? && AllInTurn(After(s, run).value.queues, PlacedOver(s, run, at, now), now + |run|)
    decreases |run|
  {
    hide Inv, Enabled, Guard, Step, AllInTurn, Placed;
    if run != [] {
      StepOk(s, run[0]);
      StepOrdered(s, run[0], at, now);
      RunOrdered(Step(s, run[0]).value.sys, run[1..], Placed(s, run[0], at, now), now + 1);
    }
  }

  /** After any run from boot, the processes parked on a queue are served by decreasing priority, and among
      equals the one that was last put in place comes first. */
  lemma NewestFirst(run: seq<Event>, f: int, i: nat, j: nat)
    requires Boot().Ok? ==> Obeys(Boot().value.sys, run)
    ensures Boot().Ok? && After(Boot().value.sys, run).Ok?
    ensures var t := After(Boot().value.sys, run).value;
            f in t.queues && i < j < |t.queues[f].locked| ==>
              var a, b := t.queues[f].locked[i], t.queues[f].locked[j];
              Ahead(PlacedOver(Boot().value.sys, run, map[], 0), a, b)
  {
    hide Inv, Obeys, After, Boot, PlacedOver, Ahead;
    BootOk();
    BootIs();
    assert Boot().value.sys.queues == map[];
    RunOrdered(Boot().value.sys, run, map[], 0);
  }
}
