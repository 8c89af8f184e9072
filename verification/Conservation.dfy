/** No message is lost, duplicated or reordered, over any run. */
module Conservation {
  import opened Lists
  import opened KernelState
  import opened Scheduler
  import opened Syscalls
  import opened Invariant
  import opened QueueLemmas
  import opened WakeLemmas
  import opened QueueSteps
  import opened ResetSteps
  import opened ClockSteps
  import opened WaitSteps
  import opened ChPrioSteps
  import opened StartSteps
  import opened DieSteps
  import opened Runs

  // ----- the ledger of one queue -----

  function Project(es: seq<Effect>, want: Effect -> bool): seq<int> {
    if es == [] then []
    else (if want(es[0]) then [es[0].message] else []) + Project(es[1..], want)
  }

  function SentTo(es: seq<Effect>, f: int): seq<int> { Project(es, (e: Effect) => e.Sent? && e.fid == f) }

  function AcceptedBy(es: seq<Effect>, f: int): seq<int> { Project(es, (e: Effect) => e.Accepted? && e.fid == f) }

  /** What left the ring, in order: handed to a receiver or thrown away by a reset. */
  function RemovedFrom(es: seq<Effect>, f: int): seq<int> {
    Project(es, (e: Effect) => (e.Delivered? || e.Dropped?) && e.fid == f)
  }

  function WithdrawnFrom(es: seq<Effect>, f: int): seq<int> { Project(es, (e: Effect) => e.Withdrawn? && e.fid == f) }

  lemma ProjectFirst(e: Effect, es: seq<Effect>, want: Effect -> bool)
    ensures Project([e] + es, want) == (if want(e) then [e.message] else []) + Project(es, want)
  {
    assert ([e] + es)[1..] == es;
  }

  lemma FirstApart<T>(a: seq<T>, b: seq<T>)
    requires a != []
    ensures a == [a[0]] + a[1..] && a + b == [a[0]] + (a[1..] + b)
  {}

  lemma {:induction false} ProjectConcat(a: seq<Effect>, b: seq<Effect>, want: Effect -> bool)
    ensures Project(a + b, want) == Project(a, want) + Project(b, want)
  {
    if a == [] {
      assert a + b == b;
    } else {
      hide Project;
      var rest := a[1..];
      ProjectConcat(rest, b, want);
      ProjectFirst(a[0], rest, want);
      ProjectFirst(a[0], rest + b, want);
      FirstApart(a, b);
      Associates(if want(a[0]) then [a[0].message] else [], Project(rest, want), Project(b, want));
    }
  }

  lemma {:induction false} ProjectNone(es: seq<Effect>, want: Effect -> bool)
    requires forall e :: e in es ==> !want(e)
    ensures Project(es, want) == []
  {
    if es != [] {
      assert es[0] in es && forall e :: e in es[1..] ==> e in es;
      ProjectNone(es[1..], want);
    }
  }

  lemma {:induction false} ProjectAll(es: seq<Effect>, want: Effect -> bool, ms: seq<int>)
    requires |es| == |ms| && forall i :: 0 <= i < |es| ==> want(es[i]) && es[i].message == ms[i]
    ensures Project(es, want) == ms
  {
    if es != [] {
      ProjectAll(es[1..], want, ms[1..]);
    }
  }

  function NodeMessages(l: seq<Node>): seq<int> {
    if l == [] then [] else [l[0].message] + NodeMessages(l[1..])
  }

  /** A queue that does not exist holds nothing. */
  function At(queues: map<int, Queue>, f: int): Queue {
    if f in queues then queues[f] else Queue(1, [], [])
  }

  /** Messages of the blocked senders: processes parked on a non-empty queue. */
  function ParkedWith(q: Queue): multiset<int> {
    if q.messages == [] then multiset{} else multiset(NodeMessages(q.locked))
  }

  /** Ring order is first in, first out; and what is sent is accepted, withdrawn or still parked. */
  ghost predicate Balanced(q: Queue, q': Queue, es: seq<Effect>, f: int) {
    && q.messages + AcceptedBy(es, f) == RemovedFrom(es, f) + q'.messages
    && ParkedWith(q) + multiset(SentTo(es, f)) == multiset(AcceptedBy(es, f)) + multiset(WithdrawnFrom(es, f)) +
                                                  ParkedWith(q')
  }

  lemma Concats(a: seq<Effect>, b: seq<Effect>, f: int)
    ensures SentTo(a + b, f) == SentTo(a, f) + SentTo(b, f)
    ensures AcceptedBy(a + b, f) == AcceptedBy(a, f) + AcceptedBy(b, f)
    ensures RemovedFrom(a + b, f) == RemovedFrom(a, f) + RemovedFrom(b, f)
    ensures WithdrawnFrom(a + b, f) == WithdrawnFrom(a, f) + WithdrawnFrom(b, f)
  {
    ProjectConcat(a, b, (e: Effect) => e.Sent? && e.fid == f);
    ProjectConcat(a, b, (e: Effect) => e.Accepted? && e.fid == f);
    ProjectConcat(a, b, (e: Effect) => (e.Delivered? || e.Dropped?) && e.fid == f);
    ProjectConcat(a, b, (e: Effect) => e.Withdrawn? && e.fid == f);
  }

  lemma One(x: Effect, f: int)
    ensures SentTo([x], f) == if x.Sent? && x.fid == f then [x.message] else []
    ensures AcceptedBy([x], f) == if x.Accepted? && x.fid == f then [x.message] else []
    ensures RemovedFrom([x], f) == if (x.Delivered? || x.Dropped?) && x.fid == f then [x.message] else []
    ensures WithdrawnFrom([x], f) == if x.Withdrawn? && x.fid == f then [x.message] else []
  {
    ProjectOne(x, (e: Effect) => e.Sent? && e.fid == f);
    ProjectOne(x, (e: Effect) => e.Accepted? && e.fid == f);
    ProjectOne(x, (e: Effect) => (e.Delivered? || e.Dropped?) && e.fid == f);
    ProjectOne(x, (e: Effect) => e.Withdrawn? && e.fid == f);
  }

  lemma ProjectOne(x: Effect, want: Effect -> bool)
    ensures Project([x], want) == if want(x) then [x.message] else []
  {}

  lemma Two(x: Effect, y: Effect, f: int)
    ensures SentTo([x, y], f) == SentTo([x], f) + SentTo([y], f)
    ensures AcceptedBy([x, y], f) == AcceptedBy([x], f) + AcceptedBy([y], f)
    ensures RemovedFrom([x, y], f) == RemovedFrom([x], f) + RemovedFrom([y], f)
    ensures WithdrawnFrom([x, y], f) == WithdrawnFrom([x], f) + WithdrawnFrom([y], f)
  {
    assert [x] + [y] == [x, y];
    Concats([x], [y], f);
  }

  lemma SumTwice(p: multiset<int>, p1: multiset<int>, p2: multiset<int>, s: multiset<int>, s': multiset<int>,
                 a: multiset<int>, a': multiset<int>, w: multiset<int>, w': multiset<int>)
    requires p + s == a + w + p1 && p1 + s' == a' + w' + p2
    ensures p + (s + s') == (a + a') + (w + w') + p2
  {
    calc {
      p + (s + s');
      (p + s) + s';
      (a + w + p1) + s';
      (a + w) + (p1 + s');
      (a + w) + (a' + w' + p2);
      (a + a') + (w + w') + p2;
    }
  }

  lemma BalancedTwice(q: Queue, q1: Queue, q2: Queue, es: seq<Effect>, es': seq<Effect>, f: int)
    requires Balanced(q, q1, es, f) && Balanced(q1, q2, es', f)
    ensures Balanced(q, q2, es + es', f)
  {
    Concats(es, es', f);
    hide SentTo, AcceptedBy, RemovedFrom, WithdrawnFrom, ParkedWith;
    SumTwice(ParkedWith(q), ParkedWith(q1), ParkedWith(q2), multiset(SentTo(es, f)), multiset(SentTo(es', f)),
             multiset(AcceptedBy(es, f)), multiset(AcceptedBy(es', f)),
             multiset(WithdrawnFrom(es, f)), multiset(WithdrawnFrom(es', f)));
    calc {
      q.messages + AcceptedBy(es + es', f);
      q.messages + (AcceptedBy(es, f) + AcceptedBy(es', f));
      (q.messages + AcceptedBy(es, f)) + AcceptedBy(es', f);
      (RemovedFrom(es, f) + q1.messages) + AcceptedBy(es', f);
      RemovedFrom(es, f) + (q1.messages + AcceptedBy(es', f));
      RemovedFrom(es, f) + (RemovedFrom(es', f) + q2.messages);
      RemovedFrom(es + es', f) + q2.messages;
    }
  }

  /** An effect on another queue does not count. */
  lemma Elsewhere(q: Queue, es: seq<Effect>, f: int)
    requires forall e :: e in es ==> e.fid != f
    ensures Balanced(q, q, es, f)
  {
    ProjectNone(es, (e: Effect) => e.Sent? && e.fid == f);
    ProjectNone(es, (e: Effect) => e.Accepted? && e.fid == f);
    ProjectNone(es, (e: Effect) => (e.Delivered? || e.Dropped?) && e.fid == f);
    ProjectNone(es, (e: Effect) => e.Withdrawn? && e.fid == f);
  }

  // ----- parked messages -----

  lemma {:induction false} MessagesConcat(a: seq<Node>, b: seq<Node>)
    ensures NodeMessages(a + b) == NodeMessages(a) + NodeMessages(b)
  {
    if a == [] {
      assert a + b == b;
    } else {
      assert (a + b)[1..] == a[1..] + b;
      MessagesConcat(a[1..], b);
    }
  }

  lemma MiddleMessage(a: seq<Node>, n: Node, b: seq<Node>)
    ensures multiset(NodeMessages(a + [n] + b)) == multiset(NodeMessages(a + b)) + multiset{n.message}
  {
    assert NodeMessages([n]) == [n.message];
    hide NodeMessages;
    MessagesConcat(a, b);
    MessagesConcat(a + [n], b);
    MessagesConcat(a, [n]);
  }

  lemma InsertMessages(l: seq<Node>, n: Node)
    ensures multiset(NodeMessages(InsertNode(l, n))) == multiset(NodeMessages(l)) + multiset{n.message}
  {
    hide InsertNode, NodeMessages;
    var k := InsertNodeSplits(l, n);
    assert l == l[..k] + l[k..];
    MiddleMessage(l[..k], n, l[k..]);
  }

  lemma {:induction false} RemoveMessages(l: seq<Node>, p: int, k: nat)
    requires k < |l| && l[k].pid == p && forall i :: 0 <= i < k ==> l[i].pid != p
    ensures multiset(NodeMessages(RemovePid(l, p))) + multiset{l[k].message} == multiset(NodeMessages(l))
  {
    if k > 0 {
      RemoveMessages(l[1..], p, k - 1);
      assert RemovePid(l, p)[1..] == RemovePid(l[1..], p);
    }
  }

  lemma ReprioritiseMessages(l: seq<Node>, p: int, prio: int)
    ensures multiset(NodeMessages(Reprioritise(l, p, prio))) == multiset(NodeMessages(l))
  {
    if exists i :: 0 <= i < |l| && l[i].pid == p {
      var k := IndexOf(l, p);
      RemoveMessages(l, p, k);
      InsertMessages(RemovePid(l, p), l[k].(prio := prio));
    }
  }

  // ----- one step -----

  /** Straight from a sender to a waiting receiver. */
  lemma HandOff(q: Queue, q': Queue, f: int, m: int)
    requires q.messages == [] && q'.messages == []
    ensures Balanced(q, q', [Sent(f, m), Accepted(f, m), Delivered(f, m)], f)
  {
    hide SentTo, AcceptedBy, RemovedFrom, WithdrawnFrom;
    var a, b, c := Sent(f, m), Accepted(f, m), Delivered(f, m);
    One(a, f);
    One(b, f);
    One(c, f);
    Two(a, b, f);
    assert [a, b] + [c] == [a, b, c];
    Concats([a, b], [c], f);
  }

  lemma ParkSender(q: Queue, n: Node, f: int)
    requires q.messages != []
    ensures Balanced(q, q.(locked := InsertNode(q.locked, n)), [Sent(f, n.message)], f)
  {
    hide SentTo, AcceptedBy, RemovedFrom, WithdrawnFrom, InsertNode, NodeMessages;
    One(Sent(f, n.message), f);
    InsertMessages(q.locked, n);
  }

  lemma Buffer(q: Queue, f: int, m: int)
    requires q.locked == [] || q.messages != []
    ensures Balanced(q, q.(messages := q.messages + [m]), [Sent(f, m), Accepted(f, m)], f)
  {
    hide SentTo, AcceptedBy, RemovedFrom, WithdrawnFrom;
    One(Sent(f, m), f);
    One(Accepted(f, m), f);
    Two(Sent(f, m), Accepted(f, m), f);
    assert ParkedWith(q.(messages := q.messages + [m])) == ParkedWith(q);
  }

  lemma SendEffects(s: Sys, f: int, m: int)
    requires f in s.queues
    ensures var q := s.queues[f]; var r := PSendCall(s, f, m);
                                  r.Ok? ==>
                                    r.value.effects ==
                                    (if q.messages == [] && q.locked != [] then [Sent(f, m), Accepted(f, m),
                                                                                 Delivered(f, m)]
                                     else if |q.messages| == q.size then [Sent(f, m)]
                                     else [Sent(f, m), Accepted(f, m)])
  {
    hide Schedule, Awake, Park;
  }

  lemma SendBalances(s: Sys, f: int, m: int)
    requires Inv(s) && f in s.queues
    ensures var es := PSendCall(s, f, m); es.Ok? ==> Balanced(s.queues[f], AfterSend(s, f, m), es.value.effects, f)
  {
    hide Inv, Schedule, Awake, Park, QueueOk, Balanced, InsertNode, PSendCall;
    QueueOf(s, f);
    SendEffects(s, f, m);
    var q := s.queues[f];
    if q.messages == [] && q.locked != [] {
      HandOff(q, q.(locked := q.locked[1..]), f, m);
    } else if |q.messages| == q.size {
      ParkSender(q, Node(s.running, m, false, Prio(s.procs, s.running)), f);
    } else {
      Buffer(q, f, m);
    }
  }

  /** The oldest message leaves and that of the first blocked sender takes its place at the end. */
  lemma Refill(q: Queue, f: int)
    requires q.messages != [] && q.locked != []
    ensures var m, n := q.messages[0], q.locked[0].message;
            Balanced(q, q.(messages := q.messages[1..] + [n], locked := q.locked[1..]),
                     [Delivered(f, m), Accepted(f, n)], f)
  {
    hide SentTo, AcceptedBy, RemovedFrom, WithdrawnFrom;
    var m, n := q.messages[0], q.locked[0].message;
    assert q.messages == [m] + q.messages[1..];
    One(Delivered(f, m), f);
    One(Accepted(f, n), f);
    Two(Delivered(f, m), Accepted(f, n), f);
    assert NodeMessages(q.locked) == [n] + NodeMessages(q.locked[1..]);
  }

  lemma Take(q: Queue, f: int)
    requires q.messages != [] && q.locked == []
    ensures Balanced(q, q.(messages := q.messages[1..]), [Delivered(f, q.messages[0])], f)
  {
    hide SentTo, AcceptedBy, RemovedFrom, WithdrawnFrom;
    assert q.messages == [q.messages[0]] + q.messages[1..];
    One(Delivered(f, q.messages[0]), f);
  }

  lemma ReceiveEffects(s: Sys, f: int)
    requires f in s.queues && 1 <= s.queues[f].size
    ensures var q := s.queues[f]; var r := PReceiveCall(s, f);
                                  r.Ok? ==> r.value.effects == (if q.messages == [] then []
                                                                else if |q.messages| == q.size && q.locked != [] then
                                                                  [Delivered(f, q.messages[0]),
                                                                   Accepted(f, q.locked[0].message)]
                                                                else [Delivered(f, q.messages[0])])
  {
    hide Schedule, Awake, Park;
  }

  lemma ReceiveBalances(s: Sys, f: int)
    requires Inv(s) && f in s.queues
    ensures var es := PReceiveCall(s, f); es.Ok? ==> Balanced(s.queues[f], AfterReceive(s, f), es.value.effects, f)
  {
    hide Inv, Schedule, Awake, Park, QueueOk, Balanced, InsertNode, PReceiveCall;
    QueueOf(s, f);
    ReceiveEffects(s, f);
    var q := s.queues[f];
    if q.messages == [] {
      NothingMoves(q, AfterReceive(s, f), f);
    } else if |q.messages| == q.size && q.locked != [] {
      Refill(q, f);
    } else {
      if |q.messages| < q.size { Unparked(s.procs, f, q); }
      Take(q, f);
    }
  }

  lemma NothingMoves(q: Queue, q': Queue, f: int)
    requires q.messages == [] && q'.messages == []
    ensures Balanced(q, q', [], f)
  {}

  lemma {:induction false} NodeMessagesAt(l: seq<Node>)
    ensures |NodeMessages(l)| == |l| && forall i :: 0 <= i < |l| ==> NodeMessages(l)[i] == l[i].message
  {
    if l != [] { NodeMessagesAt(l[1..]); }
  }

  lemma DroppedAll(f: int, messages: seq<int>, q: Queue)
    requires q.messages == messages
    ensures var es := DropAll(f, messages);
            && SentTo(es, f) == [] && AcceptedBy(es, f) == [] && WithdrawnFrom(es, f) == []
            && RemovedFrom(es, f) == messages
  {
    var es := DropAll(f, messages);
    ProjectNone(es, (e: Effect) => e.Sent? && e.fid == f);
    ProjectNone(es, (e: Effect) => e.Accepted? && e.fid == f);
    ProjectAll(es, (e: Effect) => (e.Delivered? || e.Dropped?) && e.fid == f, messages);
    ProjectNone(es, (e: Effect) => e.Withdrawn? && e.fid == f);
  }

  lemma WithdrawnAll(f: int, q: Queue)
    requires |q.messages| <= q.size
    ensures var es := WithdrawAll(f, q);
            && SentTo(es, f) == [] && AcceptedBy(es, f) == [] && RemovedFrom(es, f) == []
            && WithdrawnFrom(es, f) == (if |q.messages| < q.size then [] else NodeMessages(q.locked))
  {
    var es := WithdrawAll(f, q);
    ProjectNone(es, (e: Effect) => e.Sent? && e.fid == f);
    ProjectNone(es, (e: Effect) => e.Accepted? && e.fid == f);
    ProjectNone(es, (e: Effect) => (e.Delivered? || e.Dropped?) && e.fid == f);
    NodeMessagesAt(q.locked);
    if |q.messages| == q.size {
      ProjectAll(es, (e: Effect) => e.Withdrawn? && e.fid == f, NodeMessages(q.locked));
    }
  }

  lemma ResetLedger(q: Queue, q': Queue, f: int)
    requires 1 <= q.size && |q.messages| <= q.size && (q.messages != [] && |q.messages| < q.size ==> q.locked == [])
    requires q'.messages == [] && q'.locked == []
    ensures Balanced(q, q', DropAll(f, q.messages) + WithdrawAll(f, q), f)
  {
    hide SentTo, AcceptedBy, RemovedFrom, WithdrawnFrom, DropAll, WithdrawAll;
    DroppedAll(f, q.messages, q);
    WithdrawnAll(f, q);
    var a, b := DropAll(f, q.messages), WithdrawAll(f, q);
    Concats(a, b, f);
    assert ParkedWith(q) == multiset(WithdrawnFrom(b, f));
  }

  lemma ResetBalances(s: Sys, f: int, q': Queue)
    requires Inv(s) && f in s.queues && q'.messages == [] && q'.locked == []
    ensures Balanced(s.queues[f], q', ResetEffects(s, f), f)
  {
    var q := s.queues[f];
    hide Inv, QueueOk, DropAll, WithdrawAll, Balanced;
    QueueOf(s, f);
    if q.messages != [] && |q.messages| < q.size { Unparked(s.procs, f, q); }
    ResetLedger(q, q', f);
  }

  lemma ResetElsewhere(s: Sys, f: int, g: int)
    requires f in s.queues && f != g
    ensures Balanced(At(s.queues, g), At(s.queues, g), ResetEffects(s, f), g)
  {
    Elsewhere(At(s.queues, g), ResetEffects(s, f), g);
  }

  /** A process that is not parked on `f` leaves no trace there. */
  lemma NotParkedOn(s: Sys, p: int, f: int)
    requires Inv(s) && f in s.queues
    requires p in s.procs && (s.procs[p].state != BlockedByMessage
                              || (s.procs[p].cont != InReceive(f)
                                  && !(s.procs[p].cont.InSend? && s.procs[p].cont.fid == f)))
    ensures RemovePid(s.queues[f].locked, p) == s.queues[f].locked
  {
    QueueOf(s, f);
    hide Inv;
    forall i | 0 <= i < |s.queues[f].locked| ensures s.queues[f].locked[i].pid != p {
      assert NodeOk(s.procs, f, s.queues[f].locked[i]);
    }
    RemovePidAbsent(s.queues[f].locked, p);
  }

  lemma ExitBalances(s: Sys, f: int)
    requires Inv(s)
    ensures At(NotifyKilled(s.queues, s.running), f) == At(s.queues, f)
  {
    InvParts(s);
    hide Inv, RemovePid;
    if f in s.queues { NotParkedOn(s, s.running, f); }
  }

  lemma KillBalances(s: Sys, p: int, f: int)
    requires Inv(s) && p in s.procs
    ensures Balanced(At(s.queues, f), At(NotifyKilled(s.queues, p), f), Withdraw(s, p), f)
  {
    hide Inv, RemovePid;
    var c := s.procs[p].cont;
    var q := At(s.queues, f);
    if f !in s.queues {
      if p in s.procs && s.procs[p].state == BlockedByMessage && c.InSend? { HomeOf(s, p); }
      Elsewhere(q, Withdraw(s, p), f);
    } else if s.procs[p].state == BlockedByMessage && c.InSend? && c.fid == f {
      KillSender(s, p, f);
    } else {
      if s.procs[p].state == BlockedByMessage && c == InReceive(f) {
        ReceiverHome(s, p, f);
      } else {
        NotParkedOn(s, p, f);
      }
      Elsewhere(q, Withdraw(s, p), f);
    }
  }

  lemma ReceiverHome(s: Sys, p: int, f: int)
    requires Inv(s) && f in s.queues && p in s.procs && s.procs[p].state == BlockedByMessage
    requires s.procs[p].cont == InReceive(f)
    ensures s.queues[f].messages == []
  {
    HomeOf(s, p);
    QueueOf(s, f);
    hide Inv;
    var i :| 0 <= i < |s.queues[f].locked| && s.queues[f].locked[i].pid == p;
  }

  lemma HomeOf(s: Sys, p: int)
    requires Inv(s) && p in s.procs && s.procs[p].state == BlockedByMessage
    ensures (s.procs[p].cont.InSend? || s.procs[p].cont.InReceive?) && ParkedIn(s.queues, p, s.procs[p].cont.fid)
  {
    hide PidsOk, ReadyOk, SleepOk, TreeOk, AllRooted, LifeOk, ChildrenLast, FidsOk, WaitsOk, NoInversion, StatesOk;
  }

  lemma KillSender(s: Sys, p: int, f: int)
    requires Inv(s) && f in s.queues && p in s.procs && s.procs[p].state == BlockedByMessage
    requires s.procs[p].cont.InSend? && s.procs[p].cont.fid == f
    ensures Balanced(s.queues[f], s.queues[f].(locked := RemovePid(s.queues[f].locked, p)), Withdraw(s, p), f)
  {
    HomeOf(s, p);
    QueueOf(s, f);
    hide Inv, RemovePid, NodeMessages, Balanced;
    var q := s.queues[f];
    var k :| 0 <= k < |q.locked| && q.locked[k].pid == p;
    assert NodeOk(s.procs, f, q.locked[k]);
    CutSender(q, p, k, f);
  }

  lemma CutSender(q: Queue, p: int, k: nat, f: int)
    requires DistinctPids(q.locked) && k < |q.locked| && q.locked[k].pid == p && q.messages != []
    ensures Balanced(q, q.(locked := RemovePid(q.locked, p)), [Withdrawn(f, q.locked[k].message)], f)
  {
    hide RemovePid, NodeMessages, SentTo, AcceptedBy, RemovedFrom, WithdrawnFrom;
    RemoveMessages(q.locked, p, k);
    One(Withdrawn(f, q.locked[k].message), f);
  }

  lemma ChPrioBalances(s: Sys, p: int, prio: int, f: int)
    requires Inv(s)
    ensures Balanced(At(s.queues, f), At(NotifyPriority(s.queues, p, prio), f), [], f)
  {
    hide Inv, Reprioritise;
    if f in s.queues { ReprioritiseMessages(s.queues[f].locked, p, prio); }
  }

  lemma CreateBalances(s: Sys, n: int, ok: bool, f: int)
    requires Inv(s)
    ensures var r := PCreateCall(s, n, ok);
            r.Ok? && Balanced(At(s.queues, f), At(r.value.sys.queues, f), r.value.effects, f)
  {
    hide Inv, Balanced, Frame, SleepOk, FidsOk, QueuesOk;
    InvParts(s);
    if s.freeFids != [] { TakeFid(s.queues, s.freeFids, n); }
    Elsewhere(At(s.queues, f), [], f);
    NothingMoves(Queue(1, [], []), Queue(n, [], []), f);
  }

  lemma EffectsOf(s: Sys, e: Event)
    requires Step(s, e).Ok?
    ensures e.Preempt? || e.Resume? || e.Tick? || e.Start? || e.Exit? || e.WaitPid? || e.WaitClock? || e.ChPrio?
            || e.PCount?
            ==> Step(s, e).value.effects == []
    ensures e.Kill? ==> Step(s, e).value.effects == if KillRejects(s, e.pid) then [] else Withdraw(s, e.pid)
    ensures e.PReset? || e.PDelete? ==>
              Step(s, e).value.effects == if e.fid in s.queues then ResetEffects(s, e.fid) else []
    ensures e.PSend? || e.PReceive? ==> forall x :: x in Step(s, e).value.effects ==> x.fid == e.fid
    ensures e.PSend? || e.PReceive? ==> e.fid in s.queues || Step(s, e).value.effects == []
  {
    hide Schedule, WakeSleepers, ResetQueue, ResetEffects, FindZombie, CountUnsealed;
    hide RequestDestroy, RequestZombify, Awake, Enqueue, Unlink, Register, AddChild, AnyAbove, Withdraw, Park;
    hide NotifyPriority;
  }

  /** The queue table after an event, whatever is scheduled next. */
  ghost function NextQueues(s: Sys, e: Event): map<int, Queue> {
    match e
    case Exit(_) => NotifyKilled(s.queues, s.running)
    case Kill(p) => if KillRejects(s, p) then s.queues else NotifyKilled(s.queues, p)
    case ChPrio(p, prio) =>
      if !ChPrioRejects(s, p, prio) && s.procs[p].state == BlockedByMessage then NotifyPriority(s.queues, p, prio)
      else s.queues
    case PCreate(n, ok) =>
      if n < 1 || s.freeFids == [] || n > MAX_BUFFER || !ok then s.queues
      else s.queues[s.freeFids[0] := Queue(n, [], [])]
    case PReset(f) => if f in s.queues then s.queues[f := Queue(s.queues[f].size, [], [])] else s.queues
    case PDelete(f) => s.queues - {f}
    case PSend(f, m) => if f in s.queues then s.queues[f := AfterSend(s, f, m)] else s.queues
    case PReceive(f) => if f in s.queues then s.queues[f := AfterReceive(s, f)] else s.queues
    case _ => s.queues
  }

  lemma QueuesAfter(s: Sys, e: Event)
    requires Inv(s) && Enabled(s, e) && Guard(s, e)
    ensures Step(s, e).Ok? && Step(s, e).value.sys.queues == NextQueues(s, e)
  {
    hide Inv, FamilyAllows, StartCall, ExitCall, WaitPidCall, WaitClockCall, ChPrioCall, TickCall, Then;
    hide PSendCall, PReceiveCall, ResumeCall, ResetQueue, ResetEffects, AfterSend, AfterReceive, NotifyKilled;
    hide NotifyPriority;
    StepOk(s, e);
    match e {
      case Preempt => PreemptOk(s);
      case Tick(now) => TickOk(s, now);
      case Start(stackSize, prio, k, u) => StartOk(s, stackSize, prio, k, u);
      case Exit(code) => ExitOk(s, code);
      case Kill(p) => KillOk(s, p);
      case WaitPid(p) => WaitPidOk(s, p);
      case WaitClock(c) => WaitClockOk(s, c);
      case ChPrio(p, prio) => ChPrioOk(s, p, prio);
      case PReset(f) => PResetOk(s, f);
      case PDelete(f) =>
        PDeleteOk(s, f);
        if f !in s.queues { assert s.queues - {f} == s.queues; }
      case PSend(f, m) => PSendOk(s, f, m); SendRejected(s, f, m);
      case PReceive(f) => PReceiveOk(s, f); SendRejected(s, f, 0);
      case Resume => ResumeOk(s);
      case _ =>
    }
  }

  lemma SendRejected(s: Sys, f: int, m: int)
    ensures f !in s.queues ==> PSendCall(s, f, m) == Return(s, -1) && PReceiveCall(s, f) == Return(s, -1)
  {}

  /** Each step of the kernel balances the ledger of each queue. */
  lemma StepBalances(s: Sys, e: Event, f: int)
    requires Inv(s) && Enabled(s, e) && Guard(s, e)
    ensures Step(s, e).Ok? && Balanced(At(s.queues, f), At(Step(s, e).value.sys.queues, f), Step(s, e).value.effects, f)
  {
    hide Inv, Guard, Step, Balanced, Withdraw, ResetEffects, NotifyKilled, NotifyPriority, PSendCall;
    hide PReceiveCall, PCreateCall, AfterSend, AfterReceive, KillRejects;
    QueuesAfter(s, e);
    EffectsOf(s, e);
    StepIs(s, e);
    var q, r := At(s.queues, f), Step(s, e).value;
    Elsewhere(q, [], f);
    match e {
      case Exit(_) => ExitBalances(s, f);
      case Kill(p) => if !KillRejects(s, p) { KillKnown(s, p); KillBalances(s, p, f); }
      case ChPrio(p, prio) => ChPrioBalances(s, p, prio, f);
      case PCreate(n, ok) => CreateBalances(s, n, ok, f);
      case PReset(g) =>
        if g in s.queues {
          if g == f { ResetBalances(s, f, At(r.sys.queues, f)); } else { ResetElsewhere(s, g, f); }
        }
      case PDelete(g) =>
        if g in s.queues {
          if g == f { ResetBalances(s, f, At(r.sys.queues, f)); } else { ResetElsewhere(s, g, f); }
        }
      case PSend(g, m) => if g == f && f in s.queues { SendBalances(s, f, m); } else { Elsewhere(q, r.effects, f); }
      case PReceive(g) => if g == f && f in s.queues { ReceiveBalances(s, f); } else { Elsewhere(q, r.effects, f); }
      case _ =>
    }
  }

  lemma KillKnown(s: Sys, p: int)
    requires !KillRejects(s, p)
    ensures p in s.procs
  {}

  // ----- runs -----

  /** The effects of a whole run, in order. */
  ghost function Effects(s: Sys, run: seq<Event>): seq<Effect>
    decreases |run|
  {
    if run == [] || Step(s, run[0]).Panic? then []
    else Step(s, run[0]).value.effects + Effects(Step(s, run[0]).value.sys, run[1..])
  }

  lemma {:induction false} RunBalances(s: Sys, run: seq<Event>, f: int)
    requires Inv(s) && Obeys(s, run)
    ensures After(s, run).Ok? && Balanced(At(s.queues, f), At(After(s, run).value.queues, f), Effects(s, run), f)
    decreases |run|
  {
    hide Inv, Guard, Enabled, Step, Balanced, At;
    if run == [] {
      Elsewhere(At(s.queues, f), [], f);
    } else {
      StepOk(s, run[0]);
      StepBalances(s, run[0], f);
      var t := Step(s, run[0]).value;
      RunBalances(t.sys, run[1..], f);
      var u := After(t.sys, run[1..]).value;
      BalancedTwice(At(s.queues, f), At(t.sys.queues, f), At(u.queues, f), t.effects, Effects(t.sys, run[1..]), f);
    }
  }

  /** From boot: accepted messages are the removed ones followed by the ring, in order; and every sent
      message is removed, buffered, withdrawn, or held by a blocked sender, exactly once. */
  lemma MessagesConserved(run: seq<Event>, f: int)
    requires Boot().Ok? ==> Obeys(Boot().value.sys, run)
    ensures Boot().Ok? && After(Boot().value.sys, run).Ok?
    ensures var es := Effects(Boot().value.sys, run);
            var q := At(After(Boot().value.sys, run).value.queues, f);
            && AcceptedBy(es, f) == RemovedFrom(es, f) + q.messages
            && multiset(SentTo(es, f)) == multiset(RemovedFrom(es, f)) + multiset(q.messages)
                                          + multiset(WithdrawnFrom(es, f)) + ParkedWith(q)
  {
    hide Inv, Guard, Enabled, Step, Boot, Project, Obeys, After, Effects;
    BootIs();
    BootOk();
    var s := Boot().value.sys;
    RunBalances(s, run, f);
    FromEmpty(At(After(s, run).value.queues, f), Effects(s, run), f);
  }

  lemma FromEmpty(q: Queue, es: seq<Effect>, f: int)
    requires Balanced(Queue(1, [], []), q, es, f)
    ensures AcceptedBy(es, f) == RemovedFrom(es, f) + q.messages
    ensures multiset(SentTo(es, f)) == multiset(RemovedFrom(es, f)) + multiset(q.messages) +
                                       multiset(WithdrawnFrom(es, f)) + ParkedWith(q)
  {
    hide SentTo, AcceptedBy, RemovedFrom, WithdrawnFrom;
    assert [] + AcceptedBy(es, f) == AcceptedBy(es, f);
  }
}
