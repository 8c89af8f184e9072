/** The list of processes parked on a message queue, walked as the C code walks its links. */
module WaitingList {
  import opened KernelState
  import opened QueueLemmas

  /** `process_queue_add_on_priority`: backwards from the last node, up to the first one strictly above. */
  method AddOnPriority(l: seq<Node>, n: Node) returns (r: seq<Node>, i: nat)
    ensures i <= |l| && r == l[..i] + [n] + l[i..]
    ensures (i > 0 ==> l[i - 1].prio > n.prio) && forall j :: i <= j < |l| ==> l[j].prio <= n.prio
    ensures r == InsertNode(l, n)
  {
    i := |l|;
    assert l[..i] == l && l[i..] == [];
    while i > 0 && l[i - 1].prio <= n.prio
      invariant 0 <= i <= |l|
      invariant forall j :: i <= j < |l| ==> l[j].prio <= n.prio
      invariant InsertNode(l, n) == InsertNode(l[..i], n) + l[i..]
      decreases i
    {
      InsertBefore(l, n, i);
      i := i - 1;
    }
    r := l[..i] + [n] + l[i..];
  }

  lemma InsertBefore(l: seq<Node>, n: Node, i: nat)
    requires 0 < i <= |l| && l[i - 1].prio <= n.prio
    ensures InsertNode(l[..i], n) + l[i..] == InsertNode(l[..i - 1], n) + l[i - 1..]
  {
    assert l[..i][..i - 1] == l[..i - 1];
    assert InsertNode(l[..i], n) == InsertNode(l[..i - 1], n) + [l[i - 1]];
    hide InsertNode;
    assert [l[i - 1]] + l[i..] == l[i - 1..];
  }

  /** `process_queue_remove_first_with_pid`: forwards from the first node. */
  method RemoveFirstWithPid(l: seq<Node>, p: int) returns (r: seq<Node>, found: bool, removed: Node)
    ensures r == RemovePid(l, p)
    ensures found <==> exists i :: 0 <= i < |l| && l[i].pid == p
    ensures found ==> removed == l[IndexOf(l, p)]
  {
    var i := 0;
    while i < |l|
      invariant 0 <= i <= |l| && forall j :: 0 <= j < i ==> l[j].pid != p
    {
      if l[i].pid == p {
        RemovePidAt(l, p, i);
        return l[..i] + l[i + 1..], true, l[i];
      }
      i := i + 1;
    }
    RemovePidAbsent(l, p);
    return l, false, Node(p, 0, false, 0);
  }

  /** A node of the process is taken out and put back with the new priority. */
  method Requeue(l: seq<Node>, p: int, prio: int) returns (r: seq<Node>)
    ensures r == Reprioritise(l, p, prio)
  {
    hide InsertNode, RemovePid, IndexOf;
    var rest, found, n := RemoveFirstWithPid(l, p);
    r := l;
    if found {
      var place;
      r, place := AddOnPriority(rest, n.(prio := prio));
    }
  }
}
