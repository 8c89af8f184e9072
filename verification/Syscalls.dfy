/** The system calls of `process.c` and `message_queue.c`, the clock interrupt, and the code that runs
    when a process suspended inside a call is scheduled again. */
module Syscalls {
  import opened Outcomes
  import opened KernelState
  import opened Scheduler

  /** What a step does to message queue `fid`. */
  datatype Effect =
    | Sent(fid: int, message: int)        // a valid `psend` was called
    | Accepted(fid: int, message: int)    // the queue took the message
    | Delivered(fid: int, message: int)   // a receiver got it
    | Dropped(fid: int, message: int)     // a reset threw it out of the ring
    | Withdrawn(fid: int, message: int)   // its blocked sender was reset or killed

  /** Whether a step called `schedule`, and in which state. */
  datatype Entry = NotScheduled | Scheduled(from: Sys)

  /** New state, return value, value written through the pointer argument, effects on the queues. */
  datatype Reply = Reply(sys: Sys, ret: int, out: int, effects: seq<Effect>, entry: Entry)

  datatype Event =
    | Preempt
    | Tick(now: int)
    | Start(stackSize: int, prio: int, kernelStackOk: bool, userStackOk: bool)
    | Exit(code: int)
    | Kill(pid: int)
    | WaitPid(pid: int)
    | WaitClock(clock: int)
    | ChPrio(pid: int, prio: int)
    | PCreate(count: int, bufferOk: bool)
    | PCount(fid: int)
    | PReset(fid: int)
    | PDelete(fid: int)
    | PSend(fid: int, message: int)
    | PReceive(fid: int)
    | Resume

  /** `schedule()` as the last action of a call that returns `ret`. */
  function Then(s: Sys, reschedule: bool, ret: int, effects: seq<Effect>): Outcome<Reply> {
    var s1 :- if reschedule then Schedule(s) else Ok(s);
    Ok(Reply(s1, ret, 0, effects, if reschedule then Scheduled(s) else NotScheduled))
  }

  function Return(s: Sys, ret: int): Outcome<Reply> {
    Ok(Reply(s, ret, 0, [], NotScheduled))
  }

  predicate ValidPid(p: int) { 1 <= p <= MAX_PROCS }

  predicate ValidPrio(n: int) { MIN_PRIO <= n <= MAX_PRIO }

  // ----- start -----

  /** Guard at the entry of `start`; the stack size is a 32-bit word. */
  predicate StartRejects(s: Sys, stackSize: int, prio: int) {
    !ValidPrio(prio) || Size(s) >= MAX_PROCS || (stackSize + 8) % 0x1_0000_0000 <= stackSize
  }

  function NewProc(father: int, prio: int): Proc {
    Proc(father, [], Unset, prio, 0, 0, false, 0, false, Idle, 0)
  }

  /** `process_table_register` and the filling of the slot, up to the allocations. */
  function Register(s: Sys, prio: int): Outcome<Sys> {
    if s.free == [] then Panic
    else
      var p := s.free[0];
      var f := if s.running == 0 then NOT_FOUND else s.running;
      Ok(s.(free := s.free[1..], procs := s.procs[p := NewProc(f, prio)]))
  }

  function StartCall(s: Sys, stackSize: int, prio: int, kernelStackOk: bool, userStackOk: bool): Outcome<Reply> {
    if StartRejects(s, stackSize, prio) then Return(s, -1)
    else
      var s1 :- Register(s, prio);
      var p := s.free[0];
      var f := s1.procs[p].father;
      if !kernelStackOk || (f != NOT_FOUND && !userStackOk) then
        Return(s1.(free := s1.free + [p]), -1)
      else if (f == NOT_FOUND) != (p == INIT) then Panic
      else
        var s2 := if f in s1.procs then AddChild(s1, f, p) else s1;
        var s3 :- Enqueue(s2.(procs := s2.procs[p := s2.procs[p].(state := Waiting)]), p);
        Then(s3, s.running == 0 || prio > Prio(s3.procs, s.running), p, [])
  }

  function AddChild(s: Sys, f: int, p: int): Sys
    requires f in s.procs
  {
    s.(procs := s.procs[f := s.procs[f].(children := [p] + s.procs[f].children)])
  }

  // ----- exit and kill -----

  /** The message a process blocked in `psend` takes with it. */
  function Withdraw(s: Sys, p: int): seq<Effect> {
    if p in s.procs && s.procs[p].state == BlockedByMessage && s.procs[p].cont.InSend? then
      [Withdrawn(s.procs[p].cont.fid, s.procs[p].cont.message)]
    else []
  }

  function ExitCall(s: Sys, code: int): Outcome<Reply> {
    if s.running !in s.procs then Panic
    else
      var s1 := s.(procs := s.procs[s.running := s.procs[s.running].(returnCode := code)]);
      var s2 :- RequestZombify(s1, s.running);
      Then(s2, true, 0, [])
  }

  /** A sleeping victim makes `kill` drop the last entry of the sleeper array, whoever that is. */
  function KillCall(s: Sys, p: int): Outcome<Reply> {
    if !ValidPid(p) || p !in s.procs || s.procs[p].state == Zombie then Return(s, -1)
    else if s.procs[p].state == Sleeping && s.sleepers == [] then Panic
    else
      var s1 := if s.procs[p].state == Sleeping then s.(sleepers := s.sleepers[..|s.sleepers| - 1]) else s;
      var s2 := s1.(procs := s1.procs[p := s1.procs[p].(returnCode := 0)]);
      var s3 :- RequestZombify(s2, p);
      Then(s3, true, 0, Withdraw(s, p))
  }

  // ----- waitpid -----

  /** First child in the list that is a zombie nobody has collected. */
  function FindZombie(procs: map<int, Proc>, cs: seq<int>): int {
    if cs == [] then NOT_FOUND
    else if cs[0] in procs && !procs[cs[0]].sealed && procs[cs[0]].state == Zombie then cs[0]
    else FindZombie(procs, cs[1..])
  }

  function CountUnsealed(procs: map<int, Proc>, cs: seq<int>): nat {
    if cs == [] then 0
    else (if cs[0] in procs && !procs[cs[0]].sealed then 1 else 0) + CountUnsealed(procs, cs[1..])
  }

  function Collect(s: Sys, p: int): Outcome<Reply> {
    if p !in s.procs then Panic
    else
      var s1 :- RequestDestroy(s, p);
      Ok(Reply(s1, p, s.procs[p].returnCode, [], NotScheduled))
  }

  function BlockOnChild(s: Sys, target: int, code: int): Outcome<Reply>
    requires s.running in s.procs
  {
    var me := s.procs[s.running];
    Then(s.(procs := s.procs[s.running := me.(state := BlockedByChild, waitingCode := code, cont := InWait(target))]),
         true, 0, [])
  }

  function WaitPidCall(s: Sys, p: int): Outcome<Reply> {
    if s.running !in s.procs then Panic
    else if p < 0 then
      var cs := s.procs[s.running].children;
      var z := FindZombie(s.procs, cs);
      if z != NOT_FOUND then Collect(s, z)
      else if CountUnsealed(s.procs, cs) > 0 then BlockOnChild(s, p, -1)
      else Return(s, -1)
    else if !ValidPid(p) || p !in s.procs || s.procs[p].sealed || s.procs[p].father != s.running then Return(s, -1)
    else if s.procs[p].state == Zombie then Collect(s, p)
    else BlockOnChild(s, p, p)
  }

  // ----- clock -----

  function WaitClockCall(s: Sys, clock: int): Outcome<Reply> {
    if clock <= 0 then Return(s, 0)
    else if s.running !in s.procs then Panic
    else
      var me := s.procs[s.running];
      Then(s.(procs := s.procs[s.running := me.(state := Sleeping, sleepTime := clock)],
           sleepers := s.sleepers + [s.running]),
           true, 0, [])
  }

  /** Loop of `clock_tick` from index `i`: an expired entry is overwritten by the last one, and the
      same index is looked at again. */
  function WakeSleepers(s: Sys, i: nat, now: int): Outcome<Sys>
    decreases |s.sleepers| - i
  {
    if i >= |s.sleepers| then Ok(s)
    else
      var p := s.sleepers[i];
      if p !in s.procs then Panic
      else if s.procs[p].sleepTime <= now then
        var n := |s.sleepers| - 1;
        var s1 := s.(procs := s.procs[p := s.procs[p].(state := Waiting)],
                  sleepers := s.sleepers[i := s.sleepers[n]][..n]);
        var s2 :- Enqueue(s1, p);
        WakeSleepers(s2, i, now)
      else WakeSleepers(s, i + 1, now)
  }

  function TickCall(s: Sys, now: int): Outcome<Reply> {
    var s1 :- WakeSleepers(s, 0, now);
    Then(s1, |s1.sleepers| < |s.sleepers|, 0, [])
  }

  // ----- chprio -----

  function ChPrioCall(s: Sys, p: int, prio: int): Outcome<Reply> {
    if !ValidPid(p) || !ValidPrio(prio) || p !in s.procs || s.procs[p].state == Zombie then Return(s, -1)
    else if s.running !in s.procs then Panic
    else
      var st := s.procs[p].state;
      var s1 := s.(procs := s.procs[p := s.procs[p].(prio := prio)]);
      var s2 := if st == BlockedByMessage then s1.(queues := NotifyPriority(s1.queues, p, prio)) else s1;
      var s3 :- if s.running != p && st !in {BlockedByMessage, BlockedByChild} then
                  (var u :- Unlink(s2, p); Enqueue(u, p))
                else Ok(s2);
      var above := prio > s3.procs[s.running].prio;
      if !above && s.running == p && s3.ready == [] then Panic
      else
        var below := s.running == p && Prio(s3.procs, s3.ready[|s3.ready| - 1]) > prio;
        Then(s3, above || below, s.procs[p].prio, [])
  }

  // ----- message queues -----

  predicate Exists(s: Sys, fid: int) { fid in s.queues }

  function PCreateCall(s: Sys, count: int, bufferOk: bool): Outcome<Reply> {
    if count < 1 || s.freeFids == [] || count > MAX_BUFFER then Return(s, -1)
    else
      var fid := s.freeFids[0];
      if !bufferOk then Return(s.(freeFids := s.freeFids[1..] + [fid]), -1)
      else Return(s.(freeFids := s.freeFids[1..], queues := s.queues[fid := Queue(count, [], [])]), fid)
  }

  function PCountCall(s: Sys, fid: int): Outcome<Reply> {
    if !Exists(s, fid) then Return(s, -1)
    else
      var q := s.queues[fid];
      Ok(Reply(s, 0, if q.messages == [] then -|q.locked| else |q.messages| + |q.locked|, [], NotScheduled))
  }

  /** `awake`: back to the ready queue. */
  function Awake(s: Sys, p: int): Outcome<Sys> {
    if p !in s.procs then Panic
    else Enqueue(s.(procs := s.procs[p := s.procs[p].(state := Waiting)]), p)
  }

  /** The value a parked process is given, if it has said where. */
  function Hand(s: Sys, n: Node, v: int): Sys {
    if n.dest && n.pid in s.procs then s.(procs := s.procs[n.pid := s.procs[n.pid].(inbox := v)]) else s
  }

  predicate Above(s: Sys, p: int) {
    Prio(s.procs, p) > Prio(s.procs, s.running)
  }

  /** First loop of `message_queue_reset`: release the parked processes, first to last; the receivers
      among them are given -1. */
  function ReleaseAll(s: Sys, l: seq<Node>): Outcome<Sys>
    decreases |l|
  {
    if l == [] then Ok(s)
    else
      var s1 :- Awake(Hand(s, l[0], -1), l[0].pid);
      ReleaseAll(s1.(released := s1.released + {l[0].pid}), l[1..])
  }

  predicate AnyAbove(s: Sys, l: seq<Node>) {
    exists n :: n in l && Above(s, n.pid)
  }

  function DropAll(fid: int, messages: seq<int>): (r: seq<Effect>)
    ensures |r| == |messages|
  {
    seq(|messages|, i requires 0 <= i < |messages| => Dropped(fid, messages[i]))
  }

  /** Messages of the senders parked on a full queue. */
  function WithdrawAll(fid: int, q: Queue): (r: seq<Effect>)
  {
    if |q.messages| < q.size then []
    else seq(|q.locked|, i requires 0 <= i < |q.locked| => Withdrawn(fid, q.locked[i].message))
  }

  function ResetQueue(s: Sys, fid: int): Outcome<Sys>
    requires Exists(s, fid)
  {
    var q := s.queues[fid];
    ReleaseAll(s.(queues := s.queues[fid := q.(messages := [], locked := [])]), q.locked)
  }

  function ResetEffects(s: Sys, fid: int): seq<Effect>
    requires Exists(s, fid)
  {
    DropAll(fid, s.queues[fid].messages) + WithdrawAll(fid, s.queues[fid])
  }

  function PResetCall(s: Sys, fid: int): Outcome<Reply> {
    if !Exists(s, fid) then Return(s, -1)
    else
      var s1 :- ResetQueue(s, fid);
      Then(s1, AnyAbove(s, s.queues[fid].locked), 0, ResetEffects(s, fid))
  }

  function PDeleteCall(s: Sys, fid: int): Outcome<Reply> {
    if !Exists(s, fid) then Return(s, -1)
    else
      var s1 :- ResetQueue(s, fid);
      if |s1.freeFids| >= NB_QUEUES then Panic
      else
        Then(s1.(queues := s1.queues - {fid}, freeFids := s1.freeFids + [fid]),
             AnyAbove(s, s.queues[fid].locked), 0, ResetEffects(s, fid))
  }

  /** `process_queue_add_on_priority` and `block_by_message` for the running process. */
  function Park(s: Sys, fid: int, message: int, c: Continuation): Sys
    requires Exists(s, fid) && s.running in s.procs
  {
    var q := s.queues[fid];
    var me := s.procs[s.running];
    s.(queues := s.queues[fid := q.(locked := InsertNode(q.locked, Node(s.running, message, c.InReceive?, me.prio)))],
    procs := s.procs[s.running := me.(state := BlockedByMessage, cont := c)])
  }

  function PSendCall(s: Sys, fid: int, m: int): Outcome<Reply> {
    if !Exists(s, fid) then Return(s, -1)
    else if s.running !in s.procs then Panic
    else
      var q := s.queues[fid];
      if q.messages == [] && q.locked != [] then
        var n := q.locked[0];
        var s1 := s.(queues := s.queues[fid := q.(locked := q.locked[1..])]);
        var s2 :- Awake(Hand(s1, n, m), n.pid);
        Then(s2, Above(s2, n.pid), 0, [Sent(fid, m), Accepted(fid, m), Delivered(fid, m)])
      else if |q.messages| == q.size then
        Then(Park(s, fid, m, InSend(fid, m)), true, 0, [Sent(fid, m)])
      else
        Then(s.(queues := s.queues[fid := q.(messages := q.messages + [m])]), false, 0,
             [Sent(fid, m), Accepted(fid, m)])
  }

  function PReceiveCall(s: Sys, fid: int): Outcome<Reply> {
    if !Exists(s, fid) then Return(s, -1)
    else if s.running !in s.procs then Panic
    else
      var q := s.queues[fid];
      if |q.messages| == q.size && q.locked != [] then
        if q.messages == [] then Panic
        else
          var n := q.locked[0];
          var q1 := q.(messages := q.messages[1..] + [n.message], locked := q.locked[1..]);
          var s2 :- Awake(s.(queues := s.queues[fid := q1]), n.pid);
          var r :- Then(s2, Above(s2, n.pid), 0, [Delivered(fid, q.messages[0]), Accepted(fid, n.message)]);
          Ok(r.(out := q.messages[0]))
      else if q.messages == [] then
        Then(Park(s, fid, 0, InReceive(fid)), true, 0, [])
      else
        Ok(Reply(s.(queues := s.queues[fid := q.(messages := q.messages[1..])]), 0, q.messages[0],
                 [Delivered(fid, q.messages[0])], NotScheduled))
  }

  // ----- resumption -----

  /** The rest of a call, once the process is running again. */
  function ResumeCall(s: Sys): Outcome<Reply> {
    if s.running !in s.procs then Panic
    else
      var me := s.procs[s.running];
      var s1 := s.(procs := s.procs[s.running := me.(cont := Idle)]);
      match me.cont
      case Idle => Return(s, 0)
      case InWait(t) =>
        var c := if t < 0 then me.waitingCode else t;
        if !ValidPid(c) then Panic else Collect(s1, c)
      case InSend(_, _) => Return(Unflag(s1), Flag(s))
      case InReceive(_) => Ok(Reply(Unflag(s1), Flag(s), me.inbox, [], NotScheduled))
  }

  /** The return value that `reset_releases` stands for. */
  function Flag(s: Sys): int {
    if s.running in s.released then -1 else 0
  }

  function Unflag(s: Sys): Sys {
    s.(released := s.released - {s.running})
  }

  function Step(s: Sys, e: Event): Outcome<Reply> {
    match e
    case Preempt => Then(s, true, 0, [])
    case Tick(now) => TickCall(s, now)
    case Start(stackSize, prio, k, u) => StartCall(s, stackSize, prio, k, u)
    case Exit(code) => ExitCall(s, code)
    case Kill(p) => KillCall(s, p)
    case WaitPid(p) => WaitPidCall(s, p)
    case WaitClock(c) => WaitClockCall(s, c)
    case ChPrio(p, prio) => ChPrioCall(s, p, prio)
    case PCreate(n, ok) => PCreateCall(s, n, ok)
    case PCount(f) => PCountCall(s, f)
    case PReset(f) => PResetCall(s, f)
    case PDelete(f) => PDeleteCall(s, f)
    case PSend(f, m) => PSendCall(s, f, m)
    case PReceive(f) => PReceiveCall(s, f)
    case Resume => ResumeCall(s)
  }

  /** The clock may interrupt, or an outer frame of `schedule` may run again, at any time; a process
      inside a call can otherwise only continue it. */
  predicate Enabled(s: Sys, e: Event) {
    s.running in s.procs &&
    (match e
     case Preempt => true
     case Tick(_) => true
     case Resume => s.procs[s.running].cont != Idle
     case _ => s.procs[s.running].cont == Idle)
  }

  /** `process_table_init` and `message_queues_init`. */
  function Blank(): Sys {
    Sys(map[], 0, [], [], [], [],
        seq(MAX_PROCS, i => i + 1), map[], seq(NB_QUEUES, i => i), {})
  }

  /** State once `kernel_start` has started pid 1. */
  function Boot(): Outcome<Reply> {
    StartCall(Blank(), 8192, 1, true, true)
  }
}
