/** The process table and the message-queue table of the kernel, as one value. */
module KernelState {
  import opened Lists
  import opened Outcomes

  const MAX_PROCS: int := 512
  const MIN_PRIO: int := 1
  const MAX_PRIO: int := 256
  const NB_QUEUES: int := 64
  const MAX_BUFFER: int := 536870911
  const INIT: int := 1
  const NOT_FOUND: int := -1

  /** `Unset` is the state field of a slot that no `start` has completed. */
  datatype PState = Unset | Running | Waiting | BlockedByMessage | BlockedByChild | Sleeping | Zombie

  /** Where a process suspended inside a system call continues. */
  datatype Continuation =
    | Idle
    | InWait(target: int)
    | InSend(fid: int, message: int)
    | InReceive(fid: int)

  /** A slot of the process table; `inbox` stands for the variable a parked `preceive` has passed. */
  datatype Proc = Proc(
    father: int,
    children: seq<int>,
    state: PState,
    prio: int,
    returnCode: int,
    waitingCode: int,
    deallocated: bool,
    sleepTime: int,
    sealed: bool,
    cont: Continuation,
    inbox: int)

  /** A process parked on a message queue; `dest` says that it has given an address to write a message to. */
  datatype Node = Node(pid: int, message: int, dest: bool, prio: int)

  /** `messages` is the ring's content, oldest first; `locked` the parked processes, first to be served first. */
  datatype Queue = Queue(size: int, messages: seq<int>, locked: seq<Node>)

  /** `running` is 0 before the first process runs. `procs` holds the slots whose pid field is set;
      `free` the pid ring, next pid to hand out first. `ready` runs from the head link forward. */
  datatype Sys = Sys(
    procs: map<int, Proc>,
    running: int,
    ready: seq<int>,
    toZombify: seq<int>,
    toDestroy: seq<int>,
    sleepers: seq<int>,
    free: seq<int>,
    queues: map<int, Queue>,
    freeFids: seq<int>,
    released: set<int>)

  function Prio(procs: map<int, Proc>, p: int): int {
    if p in procs then procs[p].prio else 0
  }

  function Size(s: Sys): int {
    MAX_PROCS - |s.free|
  }

  // ----- the ready queue -----

  /** Position chosen by `queue_add`: before the first element that is not below `p`. */
  function InsertReady(procs: map<int, Proc>, q: seq<int>, p: int): seq<int> {
    if q == [] || Prio(procs, q[0]) >= Prio(procs, p) then [p] + q
    else [q[0]] + InsertReady(procs, q[1..], p)
  }

  /** `queue_add`: the links of the element must be null. */
  function Enqueue(s: Sys, p: int): Outcome<Sys> {
    if p in s.ready then Panic
    else Ok(s.(ready := InsertReady(s.procs, s.ready, p)))
  }

  /** `queue_del`: the links of the element must not be null. */
  function Unlink(s: Sys, p: int): Outcome<Sys> {
    if p !in s.ready then Panic
    else Ok(s.(ready := Remove(s.ready, p)))
  }

  // ----- processes parked on a message queue -----

  /** `process_queue_add_on_priority`: from the back, up to the first node strictly above. */
  function InsertNode(l: seq<Node>, n: Node): seq<Node> {
    var k := |l| - 1;
    if l == [] || l[k].prio > n.prio then l + [n]
    else InsertNode(l[..k], n) + [l[k]]
  }

  /** `process_queue_remove_first_with_pid`. */
  function RemovePid(l: seq<Node>, p: int): seq<Node> {
    if l == [] then []
    else if l[0].pid == p then l[1..]
    else [l[0]] + RemovePid(l[1..], p)
  }

  /** `message_queues_notify_processus_killed`. */
  function NotifyKilled(queues: map<int, Queue>, p: int): map<int, Queue> {
    map f | f in queues :: queues[f].(locked := RemovePid(queues[f].locked, p))
  }

  /** `message_queues_notify_priority_changed`: a node of the process is taken out and put back with
      the new priority. */
  function Reprioritise(l: seq<Node>, p: int, prio: int): seq<Node> {
    if exists i :: 0 <= i < |l| && l[i].pid == p then
      var i := IndexOf(l, p);
      InsertNode(RemovePid(l, p), l[i].(prio := prio))
    else l
  }

  function IndexOf(l: seq<Node>, p: int): (i: nat)
    requires exists i :: 0 <= i < |l| && l[i].pid == p
    ensures i < |l| && l[i].pid == p
    ensures forall j :: 0 <= j < i ==> l[j].pid != p
  {
    if l[0].pid == p then 0
    else
      assert exists i :: 0 <= i < |l[1..]| && l[1..][i].pid == p by {
        var i :| 0 <= i < |l| && l[i].pid == p;
        assert l[1..][i - 1].pid == p;
      }
      1 + IndexOf(l[1..], p)
  }

  function NotifyPriority(queues: map<int, Queue>, p: int, prio: int): map<int, Queue> {
    map f | f in queues :: queues[f].(locked := Reprioritise(queues[f].locked, p, prio))
  }
}
