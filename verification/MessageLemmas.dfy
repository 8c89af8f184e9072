/** Processes are parked on and released from message queues without losing one. */
module MessageLemmas {
  import opened KernelState
  import opened Invariant
  import opened QueueLemmas
  import opened LeaveLemmas
  import opened WakeLemmas

  // ----- releasing the first parked process -----

  /** The parked processes of a queue stay right when the number of messages keeps its extreme. */
  ghost predicate SameExtreme(q: Queue, q': Queue) {
    q'.size == q.size && |q'.messages| <= q'.size
    && (|q.messages| == q.size ==> |q'.messages| == q'.size) && (q.messages == [] ==> q'.messages == [])
  }

  lemma ServeQueue(procs: Table, procs': Table, f: int, q: Queue, q': Queue)
    requires QueueOk(procs, f, q) && q.locked != [] && q'.locked == q.locked[1..] && SameExtreme(q, q')
    requires Woken(procs, procs', q.locked[0].pid)
    ensures QueueOk(procs', f, q')
  {
    assert DistinctPids(q'.locked) && SortedNodes(q'.locked);
    forall i | 0 <= i < |q'.locked|
      ensures NodeOk(procs', f, q'.locked[i])
      ensures procs'[q'.locked[i].pid].cont.InSend? ==> |q'.messages| == q'.size
      ensures procs'[q'.locked[i].pid].cont.InReceive? ==> q'.messages == []
    {
      assert q'.locked[i] == q.locked[i + 1];
      assert NodeOk(procs, f, q.locked[i + 1]);
    }
  }

  lemma ServeOther(procs: Table, procs': Table, f: int, q: Queue, g: int, p: int)
    requires QueueOk(procs, g, q) && Woken(procs, procs', p) && g != f
    requires procs[p].cont.InSend? || procs[p].cont.InReceive?
    requires procs[p].cont.fid == f
    ensures QueueOk(procs', g, q)
  {
    forall i | 0 <= i < |q.locked| ensures NodeOk(procs', g, q.locked[i]) {
      assert NodeOk(procs, g, q.locked[i]);
    }
  }

  lemma StillParked(queues: map<int, Queue>, queues': map<int, Queue>, f: int, p: int, g: int)
    requires f in queues && queues[f].locked != [] && ParkedIn(queues, p, g) && p != queues[f].locked[0].pid
    requires queues'.Keys == queues.Keys && queues'[f].locked == queues[f].locked[1..]
    requires forall h :: h in queues && h != f ==> queues'[h] == queues[h]
    ensures ParkedIn(queues', p, g)
  {
    var i :| 0 <= i < |queues[g].locked| && queues[g].locked[i].pid == p;
    if g == f {
      assert queues'[f].locked[i - 1].pid == p;
    } else {
      assert queues'[g].locked[i].pid == p;
    }
  }

  lemma ServeQueues(procs: Table, procs': Table, queues: map<int, Queue>, f: int, q': Queue)
    requires QueuesOk(procs, queues) && f in queues && queues[f].locked != []
    requires q'.locked == queues[f].locked[1..] && SameExtreme(queues[f], q')
    requires Woken(procs, procs', queues[f].locked[0].pid)
    ensures QueuesOk(procs', queues[f := q'])
  {
    var queues' := queues[f := q'];
    var n := queues[f].locked[0];
    assert QueueOk(procs, f, queues[f]) && NodeOk(procs, f, n);
    forall g | g in queues' ensures QueueOk(procs', g, queues'[g]) {
      assert QueueOk(procs, g, queues[g]);
      if g == f {
        ServeQueue(procs, procs', f, queues[f], q');
      } else {
        ServeOther(procs, procs', f, queues[g], g, n.pid);
      }
    }
    hide QueueOk, NodeOk;
    forall p | p in procs' && procs'[p].state == BlockedByMessage
      ensures (procs'[p].cont.InSend? || procs'[p].cont.InReceive?) && ParkedIn(queues', p, procs'[p].cont.fid)
    {
      StillParked(queues, queues', f, p, procs[p].cont.fid);
    }
  }

  lemma FirstParked(procs: Table, queues: map<int, Queue>, f: int)
    requires QueuesOk(procs, queues) && f in queues && queues[f].locked != []
    ensures var p := queues[f].locked[0].pid;
            && p in procs && procs[p].state == BlockedByMessage && !procs[p].cont.InWait?
  {
    assert QueueOk(procs, f, queues[f]) && NodeOk(procs, f, queues[f].locked[0]);
  }

  // ----- parking -----

  lemma ParkQueue(procs: Table, procs': Table, me: int, f: int, q: Queue, n: Node)
    requires QueueOk(procs, f, q) && OnlyMe(procs, procs', me) && n.pid == me && n.prio == procs[me].prio
    requires procs'[me].state == BlockedByMessage
    requires (procs'[me].cont == InSend(f, n.message) && !n.dest && |q.messages| == q.size)
             || (procs'[me].cont == InReceive(f) && n.dest && q.messages == [])
    ensures QueueOk(procs', f, q.(locked := InsertNode(q.locked, n)))
  {
    forall i | 0 <= i < |q.locked| ensures q.locked[i].pid != me && NodeOk(procs', f, q.locked[i]) {
      assert NodeOk(procs, f, q.locked[i]);
    }
    assert NodeOk(procs', f, n);
    var k := InsertShape(q.locked, n);
    var l := InsertNode(q.locked, n);
    hide InsertNode, NodeOk, OnlyMe;
    forall i | 0 <= i < |l|
      ensures NodeOk(procs', f, l[i])
      ensures procs'[l[i].pid].cont.InSend? ==> |q.messages| == q.size
      ensures procs'[l[i].pid].cont.InReceive? ==> q.messages == []
    {
      if i != k {
        var j := if i < k then i else i - 1;
        assert l[i] == q.locked[j];
        ParkedKind(procs, procs', me, f, q, j);
      }
    }
  }

  lemma ParkedKind(procs: Table, procs': Table, me: int, f: int, q: Queue, j: nat)
    requires QueueOk(procs, f, q) && OnlyMe(procs, procs', me) && j < |q.locked| && q.locked[j].pid != me
    ensures NodeOk(procs', f, q.locked[j])
    ensures procs'[q.locked[j].pid].cont.InSend? ==> |q.messages| == q.size
    ensures procs'[q.locked[j].pid].cont.InReceive? ==> q.messages == []
  {
    assert NodeOk(procs, f, q.locked[j]);
  }

  lemma InsertedStays(l: seq<Node>, n: Node, i: nat) returns (j: nat)
    requires SortedNodes(l) && i < |l|
    ensures j < |InsertNode(l, n)| && InsertNode(l, n)[j] == l[i]
  {
    var k := InsertNodeSplits(l, n);
    j := if i < k then i else i + 1;
  }

  lemma ParkQueues(procs: Table, procs': Table, me: int, queues: map<int, Queue>, f: int, n: Node)
    requires QueuesOk(procs, queues) && f in queues && OnlyMe(procs, procs', me) && n.pid == me
    requires n.prio == procs[me].prio
    requires procs'[me].state == BlockedByMessage
    requires (procs'[me].cont == InSend(f, n.message) && !n.dest && |queues[f].messages| == queues[f].size)
             || (procs'[me].cont == InReceive(f) && n.dest && queues[f].messages == [])
    ensures QueuesOk(procs', queues[f := queues[f].(locked := InsertNode(queues[f].locked, n))])
  {
    var l := queues[f].locked;
    var queues' := queues[f := queues[f].(locked := InsertNode(l, n))];
    assert QueueOk(procs, f, queues[f]);
    forall g | g in queues' ensures QueueOk(procs', g, queues'[g]) {
      assert QueueOk(procs, g, queues[g]);
      if g == f {
        ParkQueue(procs, procs', me, f, queues[f], n);
      } else {
        MeQueue(procs, procs', me, g, queues[g]);
      }
    }
    var k := InsertNodeSplits(l, n);
    assert queues'[f].locked[k].pid == me;
    forall p | p in procs' && procs'[p].state == BlockedByMessage
      ensures (procs'[p].cont.InSend? || procs'[p].cont.InReceive?) && ParkedIn(queues', p, procs'[p].cont.fid)
    {
      if p != me {
        var g := procs[p].cont.fid;
        assert ParkedIn(queues, p, g);
        var i :| 0 <= i < |queues[g].locked| && queues[g].locked[i].pid == p;
        if g == f {
          var j := InsertedStays(l, n, i);
          assert queues'[g].locked[j].pid == p;
        } else {
          assert queues'[g].locked[i].pid == p;
        }
      }
    }
  }

  lemma MeQueue(procs: Table, procs': Table, me: int, g: int, q: Queue)
    requires QueueOk(procs, g, q) && OnlyMe(procs, procs', me)
    ensures QueueOk(procs', g, q)
  {
    forall i | 0 <= i < |q.locked| ensures NodeOk(procs', g, q.locked[i]) {
      assert NodeOk(procs, g, q.locked[i]);
    }
  }

  // ----- a change of the messages only -----

  lemma MessagesQueues(procs: Table, queues: map<int, Queue>, f: int, q': Queue)
    requires QueuesOk(procs, queues) && f in queues
    requires q'.locked == queues[f].locked && q'.size == queues[f].size && |q'.messages| <= q'.size
    requires queues[f].locked == []
    ensures QueuesOk(procs, queues[f := q'])
  {
    assert QueueOk(procs, f, queues[f]);
    forall p | p in procs && procs[p].state == BlockedByMessage
      ensures ParkedIn(queues[f := q'], p, procs[p].cont.fid)
    {
      assert ParkedIn(queues, p, procs[p].cont.fid);
    }
  }
}
