/** What the invariant means for the users of the kernel. */
module Guarantees {
  import opened Lists
  import opened Outcomes
  import opened KernelState
  import opened Scheduler
  import opened Syscalls
  import opened Invariant
  import opened ScheduleLemmas
  import opened WakeLemmas
  import opened QueueSteps
  import opened ClockSteps
  import opened ChPrioSteps
  import opened DieSteps
  import opened PickLemmas
  import opened PanicLemmas
  import opened Runs

  // ----- one place for each process -----

  lemma {:induction false} CountNoDup<T>(l: seq<T>, x: T)
    requires NoDup(l)
    ensures multiset(l)[x] == if x in l then 1 else 0
  {
    if l != [] {
      assert l == [l[0]] + l[1..];
      CountNoDup(l[1..], x);
      assert l[0] !in l[1..];
    }
  }

  /** The node of `p` is number `i` of queue `f`. */
  ghost predicate NodeAt(queues: map<int, Queue>, p: int, f: int, i: int) {
    f in queues && 0 <= i < |queues[f].locked| && queues[f].locked[i].pid == p
  }

  lemma NodeMeans(s: Sys, p: int, f: int, i: int)
    requires Inv(s) && NodeAt(s.queues, p, f, i)
    ensures p in s.procs && s.procs[p].state == BlockedByMessage && DistinctPids(s.queues[f].locked)
    ensures (s.procs[p].cont.InSend? || s.procs[p].cont.InReceive?) && s.procs[p].cont.fid == f
  {
    QueueOf(s, f);
    hide Inv;
    assert NodeOk(s.procs, f, s.queues[f].locked[i]);
  }

  lemma ListsMean(s: Sys, p: int)
    requires Inv(s) && p in s.procs
    ensures NoDup(s.ready) && NoDup(s.sleepers) && (s.procs[p].state == Running <==> p == s.running)
    ensures p in s.ready <==> s.procs[p].state == Waiting
    ensures p in s.sleepers <==> s.procs[p].state == Sleeping
    ensures s.procs[p].state == BlockedByMessage ==> exists f, i :: NodeAt(s.queues, p, f, i)
  {
    hide NoInversion, Undoomed, PidsOk, TreeOk, AllRooted, LifeOk, WaitsOk, ChildrenLast, QueueOk, FidsOk;
    if s.procs[p].state == BlockedByMessage {
      var f := s.procs[p].cont.fid;
      assert ParkedIn(s.queues, p, f);
      var i :| 0 <= i < |s.queues[f].locked| && s.queues[f].locked[i].pid == p;
      assert NodeAt(s.queues, p, f, i);
    }
  }

  /** Each process is in the place its state says, once, and nowhere else. */
  lemma Partition(s: Sys, p: int)
    requires Inv(s) && p in s.procs
    ensures var st := s.procs[p].state;
            && (st == Running <==> p == s.running)
            && multiset(s.ready)[p] == (if st == Waiting then 1 else 0)
            && multiset(s.sleepers)[p] == (if st == Sleeping then 1 else 0)
            && (st == BlockedByMessage <==> exists f, i :: NodeAt(s.queues, p, f, i))
            && (forall f, i, g, j :: NodeAt(s.queues, p, f, i) && NodeAt(s.queues, p, g, j) ==> f == g && i == j)
  {
    hide Inv;
    ListsMean(s, p);
    CountNoDup(s.ready, p);
    CountNoDup(s.sleepers, p);
    forall f, i | NodeAt(s.queues, p, f, i) ensures s.procs[p].state == BlockedByMessage {
      NodeMeans(s, p, f, i);
    }
    forall f, i, g, j | NodeAt(s.queues, p, f, i) && NodeAt(s.queues, p, g, j) ensures f == g && i == j {
      NodeMeans(s, p, f, i);
      NodeMeans(s, p, g, j);
    }
  }

  // ----- the tree -----

  /** `p` reaches pid 1 in `n` steps from child to father. */
  ghost predicate Reaches(procs: Table, p: int, n: nat)
    decreases n
  {
    p in procs && (if n == 0 then p == INIT else p != INIT && Reaches(procs, procs[p].father, n - 1))
  }

  lemma {:induction false} ReachesFrom(procs: Table, depth: map<int, nat>, p: int) returns (n: nat)
    requires FatherLinks(procs) && Ranked(procs, depth) && p in procs
    ensures Reaches(procs, p, n)
    decreases Depth(depth, p)
  {
    if p == INIT {
      n := 0;
    } else {
      var f := procs[p].father;
      var k := ReachesFrom(procs, depth, f);
      n := k + 1;
    }
  }

  /** The father relation is a tree under pid 1, and the child lists say the same. */
  lemma TreeUnderInit(s: Sys, p: int)
    requires Inv(s) && p in s.procs
    ensures exists n: nat :: Reaches(s.procs, p, n)
    ensures forall c :: c in s.procs && c != INIT ==>
                          multiset(s.procs[p].children)[c] == if s.procs[c].father == p then 1 else 0
  {
    hide NoInversion, Undoomed, PidsOk, FidsOk, ReadyOk, SleepOk, QueuesOk, LifeOk, WaitsOk, ChildrenLast;
    var depth: map<int, nat> :| Ranked(s.procs, depth);
    var n := ReachesFrom(s.procs, depth, p);
    forall c | c in s.procs && c != INIT
      ensures multiset(s.procs[p].children)[c] == if s.procs[c].father == p then 1 else 0
    {
      CountNoDup(s.procs[p].children, c);
      var a := s.procs[c].father;
    }
  }

  // ----- pcount -----

  predicate IsSender(procs: Table, n: Node) { n.pid in procs && procs[n.pid].cont.InSend? }

  predicate IsReceiver(procs: Table, n: Node) { n.pid in procs && procs[n.pid].cont.InReceive? }

  /** Processes parked on a queue: only receivers on an empty one or only senders on a full one, each once,
      by decreasing current priority. */
  lemma ParkedDiscipline(s: Sys, f: int)
    requires Inv(s) && f in s.queues
    ensures var q := s.queues[f];
            && (q.locked == []
                || (q.messages == [] && forall i :: 0 <= i < |q.locked| ==> IsReceiver(s.procs, q.locked[i]))
                || (|q.messages| == q.size && forall i :: 0 <= i < |q.locked| ==> IsSender(s.procs, q.locked[i])))
            && (forall i, j :: 0 <= i < j < |q.locked| ==>
                                 q.locked[i].pid != q.locked[j].pid
                                 && Prio(s.procs, q.locked[i].pid) >= Prio(s.procs, q.locked[j].pid))
  {
    QueueOf(s, f);
    hide Inv;
    var q := s.queues[f];
    if q.locked != [] { FirstKind(s.procs, f, q); }
    forall i | 0 <= i < |q.locked|
      ensures if q.messages == [] then IsReceiver(s.procs, q.locked[i]) else IsSender(s.procs, q.locked[i])
      ensures Prio(s.procs, q.locked[i].pid) == q.locked[i].prio
    {
      assert NodeOk(s.procs, f, q.locked[i]);
    }
  }

  /** `pcount` tells how many messages there are and how many senders or receivers are blocked. */
  lemma PCountDecodes(s: Sys, f: int)
    requires Inv(s) && f in s.queues
    ensures PCountCall(s, f).Ok?
    ensures var q := s.queues[f]; var n := PCountCall(s, f).value.out;
                                  && (n < 0 ==>
                                        q.messages == [] && |q.locked| == -n
                                        && forall i :: 0 <= i < |q.locked| ==> IsReceiver(s.procs, q.locked[i]))
                                  && (0 <= n <= q.size ==> |q.messages| == n && q.locked == [])
                                  && (n > q.size ==> |q.messages| == q.size && |q.locked| == n - q.size
                                                     && forall i :: 0 <= i < |q.locked| ==>
                                                                      IsSender(s.procs, q.locked[i]))
  {
    QueueOf(s, f);
    hide Inv;
    var q := s.queues[f];
    forall i | 0 <= i < |q.locked|
      ensures q.messages == [] ==> IsReceiver(s.procs, q.locked[i])
      ensures q.messages != [] ==> IsSender(s.procs, q.locked[i]) && |q.messages| == q.size
    {
      assert NodeOk(s.procs, f, q.locked[i]);
    }
    if q.locked != [] { FirstKind(s.procs, f, q); }
  }

  // ----- priorities -----

  /** A step that schedules leaves somebody ready above the running process exactly through the branch for
      a full table; a step that does not schedule never brings that about. */
  lemma StepInversion(s: Sys, e: Event)
    requires Inv(s) && Enabled(s, e) && Guard(s, e)
    ensures Step(s, e).Ok?
    ensures var r := Step(s, e).value;
            match r.entry
            case Scheduled(from) => Clean(from).Ok? && (Fair(r.sys) <==> !Inverts(Clean(from).value))
            case NotScheduled => Fair(s) ==> Fair(r.sys)
  {
    hide Inv, Guard, Enabled, Step, Fair, Inverts;
    StepOk(s, e);
  }

  /** The last step of the run that scheduled took that branch; `b` if none did. */
  ghost predicate Blamed(s: Sys, run: seq<Event>, b: bool)
    decreases |run|
  {
    if run == [] || Step(s, run[0]).Panic? then b
    else
      var r := Step(s, run[0]).value;
      Blamed(r.sys, run[1..],
             if r.entry.Scheduled? then Clean(r.entry.from).Ok? && Inverts(Clean(r.entry.from).value) else b)
  }

  lemma {:induction false} InversionBlamed(s: Sys, run: seq<Event>, b: bool)
    requires Inv(s) && Obeys(s, run) && (!Fair(s) ==> b)
    ensures After(s, run).Ok? && (!Fair(After(s, run).value) ==> Blamed(s, run, b))
    decreases |run|
  {
    hide Inv, Guard, Enabled, Step, Fair, Inverts, Clean;
    if run != [] {
      StepOk(s, run[0]);
      StepInversion(s, run[0]);
      var r := Step(s, run[0]).value;
      var b' := if r.entry.Scheduled? then Clean(r.entry.from).Ok? && Inverts(Clean(r.entry.from).value) else b;
      InversionBlamed(r.sys, run[1..], b');
    }
  }

  /** After any run from boot: with the table not full nobody ready is above the running process; and with a
      full one, only if the last step that scheduled took the branch for a full table. */
  lemma NoInversionOnRuns(run: seq<Event>, p: int)
    requires Boot().Ok? ==> Obeys(Boot().value.sys, run)
    ensures Boot().Ok? && After(Boot().value.sys, run).Ok?
    ensures var t := After(Boot().value.sys, run).value;
            && (Size(t) < MAX_PROCS && p in t.procs && t.procs[p].state == Waiting ==>
                  Prio(t.procs, p) <= Prio(t.procs, t.running))
            && (!Fair(t) ==> Blamed(Boot().value.sys, run, false))
  {
    hide Inv, Obeys, After, Boot, Blamed;
    BootRunOk(run);
    BestRuns(After(Boot().value.sys, run).value, p);
    BootOk();
    BootIs();
    InversionBlamed(Boot().value.sys, run, false);
  }

  lemma BestRuns(t: Sys, p: int)
    requires Inv(t)
    ensures Size(t) < MAX_PROCS && p in t.procs && t.procs[p].state == Waiting ==>
              Prio(t.procs, p) <= Prio(t.procs, t.running)
  {
    hide FidsOk, SleepOk, QueuesOk, ChildrenLast, WaitsOk, Undoomed, PidsOk, TreeOk, AllRooted, LifeOk;
  }

  // ----- return codes -----

  /** `c` is in the table at every point of the run. */
  ghost predicate Present(s: Sys, run: seq<Event>, c: int)
    decreases |run|
  {
    c in s.procs && (run != [] && Step(s, run[0]).Ok? ==> Present(Step(s, run[0]).value.sys, run[1..], c))
  }

  /** What a process exited with stays readable as long as its slot is not freed. */
  lemma {:induction false} ExitCodeSurvives(s: Sys, run: seq<Event>, c: int)
    requires Inv(s) && Obeys(s, run) && Present(s, run, c) && s.procs[c].state == Zombie
    ensures After(s, run).Ok? && c in After(s, run).value.procs
    ensures var t := After(s, run).value; t.procs[c].state == Zombie && t.procs[c].returnCode == s.procs[c].returnCode
    decreases |run|
  {
    hide Inv, Guard, Enabled, Step;
    if run != [] {
      StepOk(s, run[0]);
      ExitCodeSurvives(Step(s, run[0]).value.sys, run[1..], c);
    }
  }

  // ----- what a call leaves behind -----

  /** `exit` leaves a zombie with its code. */
  lemma ExitRecords(s: Sys, code: int)
    requires Inv(s) && FamilyAllows(s, s.running)
    ensures var r := ExitCall(s, code); var p := s.running;
                                        r.Ok?
                                        && (p in r.value.sys.procs ==>
                                              r.value.sys.procs[p].state == Zombie
                                              && r.value.sys.procs[p].returnCode == code)
  {
    InvParts(s);
    hide Inv, FamilyAllows, Schedule, ExitCall, Frame, SleepOk, FidsOk, QueuesOk, Dormant;
    var t := ExitCalc(s, code);
    DeadOutside(s, t, s.running);
    DieOk(s, t, s.running);
    ScheduleDormant(t);
    InertStays(t, Schedule(t).value, s.running);
  }

  /** `kill` leaves a zombie with code 0. */
  lemma KillRecords(s: Sys, p: int)
    requires Inv(s) && !KillRejects(s, p) && FamilyAllows(s, p) && LastSleeper(s, p)
    ensures var r := KillCall(s, p);
            r.Ok?
            && (p in r.value.sys.procs ==> r.value.sys.procs[p].state == Zombie && r.value.sys.procs[p].returnCode == 0)
  {
    hide Inv, FamilyAllows, Schedule, KillCall, Dormant, Withdraw;
    Whereabouts(s, p);
    var t := KillCalc(s, p);
    DeadOutside(s, t, p);
    DieOk(s, t, p);
    ScheduleDormant(t);
    InertStays(t, Schedule(t).value, p);
  }

  lemma DeadOutside(s: Sys, t: Sys, p: int)
    requires Inv(s) && DiedTo(s, t, p)
    ensures Inert(t, p) && t.procs[p].state == Zombie
  {
    hide FidsOk, SleepOk, QueuesOk, ChildrenLast, WaitsOk, NoInversion, Undoomed, PidsOk, TreeOk, AllRooted, LifeOk;
    RemoveNoDup(s.ready, p);
  }

  lemma InertStays(t: Sys, u: Sys, p: int)
    requires Dormant(t, u) && Inert(t, p)
    ensures p in u.procs ==> u.procs[p].state == t.procs[p].state && u.procs[p].returnCode == t.procs[p].returnCode
                             && u.procs[p].sleepTime == t.procs[p].sleepTime
  {}

  /** `wait_clock` leaves its caller asleep until the given time. */
  lemma SleepRecords(s: Sys, clock: int)
    requires Inv(s) && s.running in s.procs && s.procs[s.running].cont == Idle && clock > 0 && s.running != INIT
    ensures var r := WaitClockCall(s, clock); var p := s.running;
                                              && r.Ok? && p in r.value.sys.sleepers && p in r.value.sys.procs
                                              && r.value.sys.procs[p].state == Sleeping
                                              && r.value.sys.procs[p].sleepTime == clock
  {
    var p := s.running;
    Whereabouts(s, p);
    InvParts(s);
    assert p !in s.ready by { RunningOutside(s); }
    hide Inv, Schedule, Frame, SleepOk, FidsOk, QueuesOk, Dormant;
    WaitClockOk(s, clock);
    var t := s.(procs := s.procs[p := s.procs[p].(state := Sleeping, sleepTime := clock)],
    sleepers := s.sleepers + [p]);
    ScheduleDormant(t);
    var u := Schedule(t).value;
    InertStays(t, u, p);
    SleeperKnown(t, u, p);
  }

  lemma RunningOutside(s: Sys)
    requires Inv(s)
    ensures s.running !in s.ready
  {
    hide FidsOk, SleepOk, QueuesOk, ChildrenLast, WaitsOk, NoInversion, Undoomed, PidsOk, TreeOk, AllRooted, LifeOk;
  }

  lemma SleeperKnown(t: Sys, u: Sys, p: int)
    requires Dormant(t, u) && Inv(u) && p in t.sleepers
    ensures p in u.sleepers && p in u.procs
  {
    hide FidsOk, ReadyOk, QueuesOk, ChildrenLast, WaitsOk, NoInversion, Undoomed, PidsOk, TreeOk, AllRooted, LifeOk;
  }

  /** `chprio` returns the previous priority and changes no other. */
  lemma ChPrioRecords(s: Sys, p: int, prio: int)
    requires Inv(s) && s.running in s.procs && ChPrioSafe(s, p, prio) && !ChPrioRejects(s, p, prio)
    ensures var r := ChPrioCall(s, p, prio);
            && r.Ok? && r.value.ret == s.procs[p].prio
            && forall q :: q in r.value.sys.procs ==>
                             q in s.procs && r.value.sys.procs[q].prio == if q == p then prio else s.procs[q].prio
  {
    hide Inv, Schedule, ChPrioCall, Dormant, Woke;
    ChPrioOk(s, p, prio);
    var t := Repositioned(s, p, prio);
    ScheduleDormant(t);
    var u := ChPrioCall(s, p, prio).value.sys;
    assert u == t || u == Schedule(t).value;
    if u != t { PriosKept(t, u); }
  }

  lemma PriosKept(t: Sys, u: Sys)
    requires Dormant(t, u)
    ensures forall q :: q in u.procs ==> q in t.procs && u.procs[q].prio == t.procs[q].prio
  {}

  /** A reset marks exactly the processes it releases. */
  lemma {:induction false} ReleaseMarks(s: Sys, l: seq<Node>)
    ensures var r := ReleaseAll(s, l);
            r.Ok? ==>
              forall p :: p in r.value.released <==> p in s.released || exists i :: 0 <= i < |l| && l[i].pid == p
    decreases |l|
  {
    if l != [] {
      var a := Awake(Hand(s, l[0], -1), l[0].pid);
      if a.Ok? {
        var t := a.value.(released := a.value.released + {l[0].pid});
        ReleaseMarks(t, l[1..]);
        var r := ReleaseAll(s, l);
        if r.Ok? {
          forall p ensures p in r.value.released <==> p in s.released || exists i :: 0 <= i < |l| && l[i].pid == p {
            if i :| 0 <= i < |l| && l[i].pid == p { assert i > 0 ==> l[1..][i - 1].pid == p; }
            if i :| 0 <= i < |l[1..]| && l[1..][i].pid == p { assert l[i + 1].pid == p; }
          }
        }
      }
    }
  }

  // ----- round robin -----

  /** `n` calls of `schedule` with no other event. */
  ghost function Turns(s: Sys, n: nat): Outcome<Sys> {
    if n == 0 then Ok(s) else (var t :- Turns(s, n - 1); Schedule(t))
  }

  /** The ready queue is `low` and then `equal`, the processes of the priority of the running one. */
  ghost predicate Sharing(s: Sys, low: seq<int>, equal: seq<int>) {
    && Inv(s) && s.toZombify == [] && s.toDestroy == [] && Size(s) < MAX_PROCS
    && s.ready == low + equal
    && (forall p :: p in equal ==> Prio(s.procs, p) == Prio(s.procs, s.running))
    && (forall p :: p in low ==> Prio(s.procs, p) < Prio(s.procs, s.running))
  }

  lemma {:induction false} InsertBetween(procs: Table, low: seq<int>, equal: seq<int>, p: int)
    requires forall x :: x in low ==> Prio(procs, x) < Prio(procs, p)
    requires forall x :: x in equal ==> Prio(procs, x) == Prio(procs, p)
    ensures InsertReady(procs, low + equal, p) == low + [p] + equal
  {
    if low == [] {
      assert low + equal == equal && low + [p] + equal == [p] + equal;
      if equal != [] { assert equal[0] in equal; }
    } else {
      assert low[0] in low && (low + equal)[0] == low[0] && (low + equal)[1..] == low[1..] + equal;
      InsertBetween(procs, low[1..], equal, p);
      assert low == [low[0]] + low[1..];
    }
  }

  lemma SharingFacts(s: Sys, low: seq<int>, equal: seq<int>)
    requires Sharing(s, low, equal)
    ensures ReadyOk(s.procs, s.ready) && StatesOk(s.procs, s.running) && s.running in s.procs
    ensures s.procs[s.running].state == Running && s.running != 0
  {
    hide FidsOk, SleepOk, QueuesOk, ChildrenLast, WaitsOk, NoInversion, Undoomed, TreeOk, AllRooted, LifeOk;
    var i := s.running;
    assert i in s.procs;
  }

  lemma SwitchShares(s: Sys, low: seq<int>, equal: seq<int>)
    requires Sharing(s, low, equal) && equal != []
    ensures Schedule(s).Ok?
    ensures var t := Schedule(s).value; var m := |equal| - 1;
                                        && t.running == equal[m] && t.ready == low + [s.running] + equal[..m]
                                        && t == s.(procs := t.procs, ready := t.ready, running := t.running)
                                        && (forall p :: Prio(t.procs, p) == Prio(s.procs, p))
  {
    hide Inv, Pick, Switch, Switched, ReadyOk, StatesOk, InsertReady;
    SharingFacts(s, low, equal);
    var n, m := |s.ready| - 1, |equal| - 1;
    assert s.ready[n] == equal[m] && equal[m] in equal && s.ready[..n] == low + equal[..m];
    assert Clean(s) == Ok(s);
    PickChooses(s);
    SwitchEffect(s);
    var t := Schedule(s).value;
    SwitchPrios(s.procs, t.procs, s.running, equal[m]);
    InsertBetween(t.procs, low, equal[..m], s.running);
  }

  lemma SwitchPrios(procs: Table, procs': Table, cur: int, c: int)
    requires Switched(procs, procs', cur, c)
    ensures forall p :: Prio(procs', p) == Prio(procs, p)
  {}

  /** The ring of sharers turns by one place. */
  lemma RotateOnce(s: Sys, low: seq<int>, equal: seq<int>)
    requires Sharing(s, low, equal) && equal != []
    ensures Schedule(s).Ok?
    ensures var t := Schedule(s).value; var m := |equal| - 1;
                                        t.running == equal[m] && Sharing(t, low, [s.running] + equal[..m])
  {
    hide Inv, Schedule, CodesKept, SameQueues;
    SwitchShares(s, low, equal);
    PreemptOk(s);
    var t, m := Schedule(s).value, |equal| - 1;
    assert equal[m] in equal;
    assert t.ready == low + ([s.running] + equal[..m]);
    assert forall p :: p in equal[..m] ==> p in equal;
  }

  /** Place of the running process among `k` sharers after `n` turns. */
  function Turned(ring: seq<int>, n: nat): seq<int>
    requires n <= |ring|
  {
    ring[|ring| - n..] + ring[..|ring| - n]
  }

  lemma TurnedNext(ring: seq<int>, n: nat)
    requires 0 < n <= |ring|
    ensures var r, k := Turned(ring, n - 1), |ring| - 1; Turned(ring, n) == [r[k]] + r[..k]
  {
    var r, r', k := Turned(ring, n - 1), Turned(ring, n), |ring| - 1;
    assert |r| == |r'| == k + 1;
    forall i | 0 <= i <= k ensures r'[i] == ([r[k]] + r[..k])[i] {
      assert r'[i] == ring[if i < n then |ring| - n + i else i - n];
      if i > 0 { assert r[i - 1] == ring[if i - 1 < n - 1 then |ring| - (n - 1) + (i - 1) else i - n]; }
    }
  }

  lemma {:induction false} RoundRobin(s: Sys, low: seq<int>, equal: seq<int>, n: nat)
    requires Sharing(s, low, equal) && equal != [] && n <= |equal| + 1
    ensures Turns(s, n).Ok?
    ensures var t := Turns(s, n).value; var r := Turned(equal + [s.running], n); var k := |equal|;
                                                                                 t.running == r[k]
                                                                                 && Sharing(t, low, r[..k])
  {
    hide Inv, Schedule, Sharing;
    var ring, k := equal + [s.running], |equal|;
    if n == 0 {
      assert Turned(ring, 0) == ring && ring[..k] == equal;
    } else {
      RoundRobin(s, low, equal, n - 1);
      var t, r := Turns(s, n - 1).value, Turned(ring, n - 1);
      RotateOnce(t, low, r[..k]);
      var r' := Turned(ring, n);
      TurnedNext(ring, n);
      assert r'[k] == r[..k][k - 1];
      assert r'[..k] == [r[k]] + r[..k][..k - 1];
    }
  }

  /** Every one of the sharers runs exactly once in as many turns, then the first runs again. */
  lemma EachRunsOnce(s: Sys, low: seq<int>, equal: seq<int>)
    requires Sharing(s, low, equal) && equal != []
    ensures forall n :: 0 <= n <= |equal| ==> Turns(s, n).Ok?
    ensures Turns(s, 0).value.running == s.running
    ensures forall n :: 1 <= n <= |equal| ==> Turns(s, n).value.running == equal[|equal| - n]
    ensures Turns(s, |equal| + 1).Ok? && Turns(s, |equal| + 1).value.running == s.running
  {
    hide Sharing, Schedule, Turns;
    forall n: nat | n <= |equal| + 1
      ensures Turns(s, n).Ok?
      ensures Turns(s, n).value.running == if n == 0 || n == |equal| + 1 then s.running else equal[|equal| - n]
    {
      RoundRobin(s, low, equal, n);
    }
  }
}
