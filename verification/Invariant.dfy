/** What holds of the kernel between two steps, and inside `schedule`. */
module Invariant {
  import opened Lists
  import opened KernelState

  type Table = map<int, Proc>

  // ----- pids and fids -----

  /** Pids in use and free pids are disjoint and together all pids. */
  ghost predicate PidsOk(procs: Table, free: seq<int>) {
    && (forall p :: p in procs ==> 1 <= p <= MAX_PROCS)
    && (forall p :: p in free ==> 1 <= p <= MAX_PROCS && p !in procs)
    && (forall p :: 1 <= p <= MAX_PROCS && p !in procs ==> p in free)
    && NoDup(free)
  }

  ghost predicate FidsOk(queues: map<int, Queue>, freeFids: seq<int>) {
    && (forall f :: f in queues ==> 0 <= f < NB_QUEUES)
    && (forall f :: f in freeFids ==> 0 <= f < NB_QUEUES && f !in queues)
    && (forall f :: 0 <= f < NB_QUEUES && f !in queues ==> f in freeFids)
    && NoDup(freeFids)
  }

  // ----- each process is where its state says -----

  ghost predicate SortedReady(procs: Table, q: seq<int>) {
    forall i, j :: 0 <= i < j < |q| ==> Prio(procs, q[i]) <= Prio(procs, q[j])
  }

  ghost predicate ReadyOk(procs: Table, ready: seq<int>) {
    && NoDup(ready)
    && (forall p :: p in ready ==> p in procs && procs[p].state == Waiting)
    && (forall p :: p in procs && procs[p].state == Waiting ==> p in ready)
    && SortedReady(procs, ready)
  }

  ghost predicate SleepOk(procs: Table, sleepers: seq<int>) {
    && NoDup(sleepers)
    && (forall p :: p in sleepers ==> p in procs && procs[p].state == Sleeping)
    && (forall p :: p in procs && procs[p].state == Sleeping ==> p in sleepers)
  }

  ghost predicate StatesOk(procs: Table, running: int) {
    && running in procs
    && INIT in procs
    && procs[INIT].state in {Running, Waiting}
    && procs[INIT].cont == Idle && procs[INIT].father == NOT_FOUND
    && (forall p :: p in procs ==> procs[p].state != Unset && MIN_PRIO <= procs[p].prio <= MAX_PRIO)
    && (forall p :: p in procs && procs[p].state == Running ==> p == running)
  }

  // ----- message queues -----

  ghost predicate DistinctPids(l: seq<Node>) {
    forall i, j :: 0 <= i < j < |l| ==> l[i].pid != l[j].pid
  }

  ghost predicate SortedNodes(l: seq<Node>) {
    forall i, j :: 0 <= i < j < |l| ==> l[i].prio >= l[j].prio
  }

  /** A parked node stands for a process blocked on this queue, at its current priority. */
  ghost predicate NodeOk(procs: Table, f: int, n: Node) {
    && n.pid in procs
    && procs[n.pid].state == BlockedByMessage
    && procs[n.pid].prio == n.prio
    && procs[n.pid].cont == if n.dest then InReceive(f) else InSend(f, n.message)
  }

  /** Only receivers on an empty queue, only senders on a full one, nobody otherwise. */
  ghost predicate QueueOk(procs: Table, f: int, q: Queue) {
    && 1 <= q.size <= MAX_BUFFER && |q.messages| <= q.size
    && DistinctPids(q.locked) && SortedNodes(q.locked)
    && (forall i :: 0 <= i < |q.locked| ==>
                      && NodeOk(procs, f, q.locked[i])
                      && (procs[q.locked[i].pid].cont.InSend? ==> |q.messages| == q.size)
                      && (procs[q.locked[i].pid].cont.InReceive? ==> q.messages == []))
  }

  ghost predicate ParkedIn(queues: map<int, Queue>, p: int, f: int) {
    f in queues && exists i :: 0 <= i < |queues[f].locked| && queues[f].locked[i].pid == p
  }

  ghost predicate QueuesOk(procs: Table, queues: map<int, Queue>) {
    && (forall f :: f in queues ==> QueueOk(procs, f, queues[f]))
    && (forall p :: p in procs && procs[p].state == BlockedByMessage ==>
                      (procs[p].cont.InSend? || procs[p].cont.InReceive?) && ParkedIn(queues, p, procs[p].cont.fid))
  }

  // ----- the process tree -----

  ghost predicate DistinctChildren(procs: Table) {
    forall p :: p in procs ==> NoDup(procs[p].children)
  }

  ghost predicate ChildLinks(procs: Table) {
    forall p, c :: p in procs && c in procs[p].children ==> c in procs && procs[c].father == p && c != INIT
  }

  ghost predicate FatherLinks(procs: Table) {
    forall c {:trigger procs[c].father} :: c in procs && c != INIT ==>
                                             procs[c].father in procs && c in procs[procs[c].father].children
  }

  /** `c` is in the child list of `f`, once, exactly when its father is `f`. */
  ghost predicate TreeOk(procs: Table) {
    DistinctChildren(procs) && ChildLinks(procs) && FatherLinks(procs)
  }

  /** Pid 1 is at depth 0. */
  function Depth(depth: map<int, nat>, p: int): nat {
    if p != INIT && p in depth then depth[p] else 0
  }

  /** A father is less deep than its child. */
  ghost predicate Ranked(procs: Table, depth: map<int, nat>) {
    forall p {:trigger procs[p].father} :: p in procs && p != INIT ==> Depth(depth, procs[p].father) < Depth(depth, p)
  }

  /** Following `father` cannot go in circles, so with `FatherLinks` it leads to pid 1. */
  ghost predicate AllRooted(procs: Table) {
    exists depth: map<int, nat> :: Ranked(procs, depth)
  }

  // ----- termination -----

  /** The processes awaiting `zombify` are the undeallocated zombies. */
  ghost predicate PendingOk(procs: Table, toZombify: seq<int>) {
    && NoDup(toZombify)
    && (forall p :: p in toZombify ==> p in procs && procs[p].state == Zombie && !procs[p].deallocated)
    && (forall p :: p in procs && procs[p].state == Zombie && !procs[p].deallocated ==> p in toZombify)
  }

  /** The processes awaiting `destroy` are the sealed ones. */
  ghost predicate SealedOk(procs: Table, toDestroy: seq<int>) {
    && NoDup(toDestroy)
    && (forall p :: p in toDestroy ==> p in procs && procs[p].sealed)
    && (forall p :: p in procs && procs[p].sealed ==> p in toDestroy)
  }

  /** A deallocated zombie nobody has sealed is left for a live father other than pid 1, and the
      children that are still linked to a deallocated process are sealed. */
  ghost predicate UncollectedOk(procs: Table) {
    && (forall p :: p in procs && (procs[p].deallocated || procs[p].sealed) ==> procs[p].state == Zombie)
    && (forall p {:trigger procs[p].father} :: p in procs && procs[p].deallocated && !procs[p].sealed ==>
                                                 procs[p].father != INIT && procs[p].father in procs
                                                 && !procs[procs[p].father].deallocated)
    && (forall p, c :: p in procs && procs[p].deallocated && c in procs[p].children && c in procs ==> procs[c].sealed)
  }

  ghost predicate LifeOk(procs: Table, toZombify: seq<int>, toDestroy: seq<int>) {
    PendingOk(procs, toZombify) && SealedOk(procs, toDestroy) && UncollectedOk(procs)
  }

  /** `destroy` takes the list from its end, so a child must come after its father. */
  ghost predicate ChildrenLast(procs: Table, toDestroy: seq<int>) {
    forall i, j :: 0 <= i < j < |toDestroy| && toDestroy[i] in procs ==> procs[toDestroy[i]].father != toDestroy[j]
  }

  // ----- waitpid -----

  /** A blocked father still has what it waits for; a woken one has a zombie to collect. */
  ghost predicate WaitOk(procs: Table, f: int)
    requires f in procs
  {
    var pf := procs[f];
    && (pf.state == BlockedByChild ==>
          && pf.cont.InWait? && f != INIT
          && (pf.cont.target >= 0 ==> pf.waitingCode == pf.cont.target && Awaited(procs, f, pf.cont.target))
          && (pf.cont.target < 0 ==>
                && pf.waitingCode == -1
                && (exists c :: Awaited(procs, f, c))
                && (forall c :: c in pf.children && c in procs && !procs[c].sealed ==> !procs[c].deallocated)))
    && (pf.state in {Waiting, Running} && pf.cont.InWait? ==>
          && Collectable(procs, f, pf.waitingCode)
          && (pf.cont.target >= 0 ==> pf.waitingCode == pf.cont.target))
    && (pf.state == Sleeping ==> pf.cont == Idle)
  }

  ghost predicate Awaited(procs: Table, f: int, c: int) {
    f in procs && c in procs && c in procs[f].children && !procs[c].sealed && !procs[c].deallocated
  }

  ghost predicate Collectable(procs: Table, f: int, c: int) {
    f in procs && c in procs && c in procs[f].children && !procs[c].sealed && procs[c].deallocated
  }

  ghost predicate WaitsOk(procs: Table) {
    forall f :: f in procs ==> WaitOk(procs, f)
  }

  // ----- the whole -----

  /** Holds inside `schedule` as well, where the running process may already have left the running state. */
  ghost predicate Core(s: Sys) {
    && PidsOk(s.procs, s.free)
    && FidsOk(s.queues, s.freeFids)
    && ReadyOk(s.procs, s.ready)
    && SleepOk(s.procs, s.sleepers)
    && StatesOk(s.procs, s.running)
    && QueuesOk(s.procs, s.queues)
    && TreeOk(s.procs)
    && AllRooted(s.procs)
    && LifeOk(s.procs, s.toZombify, s.toDestroy)
    && ChildrenLast(s.procs, s.toDestroy)
    && WaitsOk(s.procs)
  }

  /** `p` has a dead child that nobody has collected. */
  ghost predicate HasCorpse(procs: Table, p: int) {
    p in procs && exists c :: c in procs[p].children && c in procs && procs[c].deallocated && !procs[c].sealed
  }

  /** A process about to be zombified under pid 1 must leave no uncollected zombie behind. */
  ghost predicate Undoomed(procs: Table, toZombify: seq<int>) {
    forall p :: p in toZombify && p in procs && !procs[p].sealed && procs[p].father == INIT ==> !HasCorpse(procs, p)
  }

  ghost predicate NoInversion(procs: Table, ready: seq<int>, running: int) {
    forall p :: p in ready ==> Prio(procs, p) <= Prio(procs, running)
  }

  /** Nobody ready is above the running process. */
  ghost predicate Fair(s: Sys) {
    NoInversion(s.procs, s.ready, s.running)
  }

  /** Between two steps. */
  ghost predicate Inv(s: Sys) {
    && Core(s)
    && s.procs[s.running].state == Running
    && |s.toZombify| <= 1
    && Undoomed(s.procs, s.toZombify)
    && (forall c :: c in s.toDestroy ==> s.procs[c].father == s.running)
    && (Size(s) < MAX_PROCS ==> Fair(s))
  }
}
