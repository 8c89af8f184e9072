/** The kernel as the C code runs it: global tables changed in place by nested calls. */
module ProcessTable {
  import opened Lists
  import opened Outcomes
  import opened KernelState
  import opened Scheduler
  import opened Syscalls
  import opened Invariant
  import opened Runs
  import opened NestedSchedule
  import opened WaitingList
  import opened QueueLemmas

  class Kernel {
    var procs: map<int, Proc>
    var running: int
    var ready: seq<int>
    var toZombify: seq<int>
    var toDestroy: seq<int>
    var sleepers: seq<int>
    var free: seq<int>
    var queues: map<int, Queue>
    var freeFids: seq<int>
    var released: set<int>

    function State(): Sys
      reads this
    {
      Sys(procs, running, ready, toZombify, toDestroy, sleepers, free, queues, freeFids, released)
    }

    /** The queue table has `NB_QUEUES` slots, and -1 is nobody's pid. */
    ghost predicate Valid()
      reads this
    {
      && (forall f :: f in queues ==> 0 <= f < NB_QUEUES)
      && (forall f :: f in freeFids ==> 0 <= f < NB_QUEUES)
      && NOT_FOUND !in procs && NOT_FOUND !in free
    }

    /** The call did what `r` says; after a panic the state does not matter. */
    ghost predicate Gave(r: Outcome<Sys>, ok: bool)
      reads this
    {
      r == if ok then Ok(State()) else Panic
    }

    ghost predicate Went(r: Outcome<Left>, ok: bool, switched: bool)
      reads this
    {
      r == if ok then Ok(Left(State(), switched)) else Panic
    }

    // ----- lists -----

    /** `queue_add`. */
    method QueueAdd(p: int) returns (ok: bool)
      modifies this`ready
      ensures Gave(Enqueue(old(State()), p), ok)
    {
      ok := p !in ready;
      if ok {
        var i := 0;
        while i < |ready| && Prio(procs, ready[i]) < Prio(procs, p)
          invariant 0 <= i <= |ready| && forall j :: 0 <= j < i ==> Prio(procs, ready[j]) < Prio(procs, p)
        {
          i := i + 1;
        }
        InsertAt(procs, ready, p, i);
        ready := ready[..i] + [p] + ready[i..];
      }
    }

    /** `queue_del`. */
    method QueueDel(p: int) returns (ok: bool)
      modifies this`ready
      ensures Gave(Unlink(old(State()), p), ok)
    {
      ok := p in ready;
      if ok {
        ready := Remove(ready, p);
      }
    }

    /** `message_queues_notify_processus_killed`. */
    method NotifyProcessKilled(p: int)
      requires Valid()
      modifies this`queues
      ensures Valid() && queues == NotifyKilled(old(queues), p)
    {
      var f := 0;
      hide RemovePid;
      ghost var before := queues;
      while f < NB_QUEUES
        invariant 0 <= f <= NB_QUEUES && queues.Keys == before.Keys
        invariant forall g :: g in before ==>
                                queues[g] == if g < f then before[g].(locked := RemovePid(before[g].locked, p))
                                else before[g]
      {
        if f in queues {
          var l, found, node := RemoveFirstWithPid(queues[f].locked, p);
          queues := queues[f := queues[f].(locked := l)];
        }
        f := f + 1;
      }
    }

    // ----- requests -----

    method RequestZombify(p: int) returns (ok: bool)
      requires Valid()
      modifies this
      ensures Valid() && Gave(Scheduler.RequestZombify(old(State()), p), ok)
    {
      if p !in procs || procs[p].state == Zombie {
        return false;
      }
      ok := true;
      toZombify := toZombify + [p];
      if p != running && procs[p].state in {Waiting, Running, Unset} {
        ok := QueueDel(p);
        if !ok { return; }
      }
      NotifyProcessKilled(p);
      procs := procs[p := procs[p].(state := Zombie)];
    }

    method RequestDestroy(p: int) returns (ok: bool)
      requires Valid()
      modifies this
      ensures Valid() && Gave(Scheduler.RequestDestroy(old(State()), p), ok)
      ensures toZombify == old(toZombify)
    {
      if p !in procs || procs[p].sealed {
        return false;
      }
      ok := true;
      procs := procs[p := procs[p].(sealed := true)];
      toDestroy := toDestroy + [p];
      if procs[p].state != Zombie {
        if p != running {
          ok := QueueDel(p);
          if !ok { return; }
        }
        NotifyProcessKilled(p);
      }
    }

    // ----- zombify, destroy, clean_processes, schedule -----

    /** `zombify` as far as its call of `schedule`. */
    method Bury(p: int) returns (ok: bool)
      requires Valid()
      modifies this
      ensures Valid() && Gave(Scheduler.Zombify(old(State()), p), ok)
    {
      hide ReleaseChildren, WakeFather, SealOrphan;
      if p == INIT || p !in procs {
        return false;
      }
      var father := procs[p].father;
      if procs[p].state != Zombie || running == p || father !in procs || procs[p].deallocated {
        return false;
      }
      procs := procs[p := procs[p].(deallocated := true)];
      ok := ReleaseChildrenOf(p);
      if !ok { return; }
      ok := WakeFatherOf(p, father);
      if !ok { return; }
      ok := SealIfOrphan(p, father);
    }

    method WakeFatherOf(p: int, father: int) returns (ok: bool)
      requires Valid()
      modifies this`procs, this`ready
      ensures Valid() && Gave(WakeFather(old(State()), father, p), ok)
    {
      hide InsertReady;
      if father !in procs || p !in procs { return false; }
      ok := true;
      if procs[father].state == BlockedByChild && !procs[p].sealed
         && (procs[father].waitingCode < 0 || procs[father].waitingCode == p)
      {
        procs := procs[father := procs[father].(waitingCode := p, state := Waiting)];
        ok := QueueAdd(father);
      }
    }

    method SealIfOrphan(p: int, father: int) returns (ok: bool)
      requires Valid()
      modifies this
      ensures Valid() && Gave(SealOrphan(old(State()), father, p), ok)
    {
      hide Scheduler.RequestDestroy;
      if father !in procs || p !in procs { return false; }
      ok := true;
      if !procs[p].sealed && (procs[father].state == Zombie || father == INIT) {
        ok := RequestDestroy(p);
      }
    }

    method ReleaseChildOf(p: int, c: int) returns (ok: bool)
      requires Valid()
      modifies this
      ensures Valid() && Gave(ReleaseChild(old(State()), p, c), ok)
    {
      if c !in procs || INIT !in procs || p !in procs {
        return false;
      }
      ok := true;
      if procs[c].deallocated {
        ok := RequestDestroy(c);
      } else {
        procs := procs[p := procs[p].(children := Remove(procs[p].children, c))];
        procs := procs[c := procs[c].(father := INIT)];
        procs := procs[INIT := procs[INIT].(children := [c] + procs[INIT].children)];
      }
    }

    method ReleaseChildrenOf(p: int) returns (ok: bool)
      requires Valid() && p in procs
      modifies this
      ensures Valid() && Gave(ReleaseChildren(old(State()), p, old(procs[p].children)), ok)
    {
      hide ReleaseChild;
      ghost var start := State();
      var cs, i := procs[p].children, 0;
      ok := true;
      while i < |cs|
        invariant 0 <= i <= |cs| && Valid() && ok
        invariant ReleaseChildren(start, p, cs) == ReleaseChildren(State(), p, cs[i..])
      {
        assert cs[i..][0] == cs[i] && cs[i..][1..] == cs[i + 1..];
        ok := ReleaseChildOf(p, cs[i]);
        if !ok { return; }
        i := i + 1;
      }
    }

    method DropFirstChild(p: int) returns (ok: bool)
      requires Valid() && p in procs && p != INIT && procs[p].children != []
      modifies this
      ensures Valid() && Gave(DropChild(old(State()), p), ok)
      ensures ok ==> p in procs && procs[p].children == old(procs[p].children[1..])
    {
      if INIT !in procs { return false; }
      var c := procs[p].children[0];
      procs := procs[p := procs[p].(children := procs[p].children[1..])];
      if c !in procs { return false; }
      ok := true;
      if procs[c].deallocated {
        ok := RequestDestroy(c);
      } else {
        procs := procs[c := procs[c].(father := INIT)];
        procs := procs[INIT := procs[INIT].(children := [p] + procs[INIT].children)];
      }
    }

    method DropChildrenOf(p: int) returns (ok: bool)
      requires Valid() && p in procs && p != INIT
      modifies this
      ensures Valid() && Gave(DropChildren(old(State()), p, old(|procs[p].children|)), ok)
    {
      hide DropChild;
      ghost var start, count := State(), |procs[p].children|;
      ok := true;
      while procs[p].children != []
        invariant Valid() && ok && p in procs
        invariant DropChildren(start, p, count) == DropChildren(State(), p, |procs[p].children|)
        decreases |procs[p].children|
      {
        ok := DropFirstChild(p);
        if !ok { return; }
      }
    }

    method Destroy(p: int) returns (ok: bool)
      requires Valid()
      modifies this
      ensures Valid() && Gave(Scheduler.Destroy(old(State()), p), ok)
    {
      if p == INIT || p !in procs {
        return false;
      }
      var father := procs[p].father;
      if procs[p].state == Running || running == p || father !in procs {
        return false;
      }
      procs := procs[father := procs[father].(children := Remove(procs[father].children, p))];
      ok := DropChildrenOf(p);
      if !ok { return; }
      if |free| >= MAX_PROCS { return false; }
      free := free + [p];
      procs := procs - {p};
    }

    method Zombify(p: int) returns (ok: bool, switched: bool)
      requires Valid()
      modifies this
      ensures Valid()
      ensures var z := Scheduler.Zombify(old(State()), p);
              Went(if z.Ok? then ScheduleNested(z.value) else Panic, ok, switched)
      decreases |toZombify|, 2
    {
      switched := false;
      ok := Bury(p);
      if ok {
        ok, switched := Schedule();
      }
    }

    /** Top of both loops of `clean_processes`: the entry to treat and the list without it. */
    method TakeNext(pending: seq<int>) returns (stop: bool, pid: int, rest: seq<int>)
      requires pending != []
      ensures stop <==> NothingPending(pending, running)
      ensures !stop ==> (pid, rest) == NextPending(pending, running)
    {
      var n := |pending| - 1;
      rest := pending;
      pid := rest[n];
      if running != 0 && running == pid {
        if n == 0 { return true, pid, rest; }
        rest := rest[n := rest[0]][0 := pid];
        pid := rest[n];
      }
      rest := rest[..n];
      stop := false;
      assert rest == NextPending(pending, running).1;
    }

    method CleanProcesses() returns (ok: bool, switched: bool)
      requires Valid()
      modifies this
      ensures Valid() && Went(CleanNested(old(State())), ok, switched)
      decreases |toZombify|, 0
    {
      hide Scheduler.Zombify, ScheduleNested, DestroyAll, NextPending, NothingPending;
      ghost var start := State();
      switched := false;
      ok := true;
      var stop := false;
      while |toZombify| > 0
        invariant Valid() && ok && !switched
        invariant CleanNested(start) == CleanNested(State())
        invariant |toZombify| <= |start.toZombify|
        decreases |toZombify|
      {
        var pid, rest;
        stop, pid, rest := TakeNext(toZombify);
        if stop { break; }
        toZombify := rest;
        ok, switched := Zombify(pid);
        if !ok || switched { return; }
      }
      assert NothingPending(toZombify, running) by { NothingIsPending(toZombify, running); }
      ok := DestroyPending();
    }

    lemma NothingIsPending(pending: seq<int>, r: int)
      ensures pending == [] ==> NothingPending(pending, r)
    {}

    method DestroyPending() returns (ok: bool)
      requires Valid()
      modifies this
      ensures Valid() && Gave(DestroyAll(old(State())), ok)
    {
      hide Scheduler.Destroy, NextPending, NothingPending;
      ghost var start := State();
      ok := true;
      while |toDestroy| > 0
        invariant Valid() && ok
        invariant DestroyAll(start) == DestroyAll(State())
        decreases |procs|
      {
        var stop, pid, rest := TakeNext(toDestroy);
        if stop { break; }
        toDestroy := rest;
        ok := Destroy(pid);
        if !ok { return; }
      }
      NothingIsPending(toDestroy, running);
    }

    method Schedule() returns (ok: bool, switched: bool)
      requires Valid()
      modifies this
      ensures Valid() && Went(ScheduleNested(old(State())), ok, switched)
      ensures var t := Scheduler.Schedule(old(State())); t.Ok? && Inv(t.value) ==> ok && State() == t.value
      decreases |toZombify|, 1
    {
      ghost var start := State();
      ok, switched := CleanProcesses();
      if ok && !switched {
        ok, switched := Choose();
      }
      if Scheduler.Schedule(start).Ok? && Inv(Scheduler.Schedule(start).value) {
        SoundNeverSelfSwitches(start);
        NestedIsFlat(start);
      }
    }

    /** `queue_out` and the start of the process it returns. */
    method RunTop() returns (ok: bool)
      requires Valid()
      modifies this
      ensures ok <==> old(ready) != [] && old(ready)[|old(ready)| - 1] in old(procs)
      ensures ok ==>
                var s, n := old(State()), |old(ready)| - 1;
                var c := s.ready[n];
                Valid()
                && State() == s.(ready := s.ready[..n], procs := s.procs[c := s.procs[c].(state := Running)],
                              running := c)
      ensures !ok ==> State() == old(State())
    {
      var n := |ready| - 1;
      ok := ready != [] && ready[n] in procs;
      if ok {
        running := ready[n];
        ready := ready[..n];
        procs := procs[running := procs[running].(state := Running)];
      }
    }

    /** `process_switch`: the process that ran goes back to the ready queue, unless it left on its own. */
    method SwitchFrom(last: int) returns (ok: bool)
      requires Valid() && last in procs
      modifies this`procs, this`ready
      ensures Valid()
      ensures var s := old(State());
              Gave(if s.procs[last].state == Running
                   then Enqueue(s.(procs := s.procs[last := s.procs[last].(state := Waiting)]), last)
                   else Ok(s), ok)
    {
      hide InsertReady;
      ok := true;
      if procs[last].state == Running {
        procs := procs[last := procs[last].(state := Waiting)];
        ok := QueueAdd(last);
      }
    }

    /** The end of `schedule`. */
    method Choose() returns (ok: bool, switched: bool)
      requires Valid()
      modifies this
      ensures Valid() && Gave(Pick(old(State())), ok) && (ok ==> (switched <==> running != old(running)))
    {
      hide Enqueue;
      var last := running;
      var n := |ready|;
      switched := false;
      if last == 0 {
        ok := RunTop();
        return ok, running != last;
      }
      if last !in procs { return false, false; }
      var full := last != INIT && MAX_PROCS - |free| >= MAX_PROCS;
      if !full && n == 0 { return true, false; }
      var candidate := if full then INIT else ready[n - 1];
      if last == candidate || (procs[last].state == Running && procs[last].prio > Prio(procs, candidate)) {
        return true, false;
      }
      ok := RunTop();
      if !ok { return; }
      ok := SwitchFrom(last);
      switched := running != last;
    }

    // ----- system calls -----

    /** Control has left the call by the way `r` tells; a call that ends in `schedule` runs its nested form. */
    ghost predicate Leaves(r: Reply, ok: bool)
      reads this
    {
      match r.entry
      case NotScheduled => ok && State() == r.sys
      case Scheduled(from) =>
        var n := ScheduleNested(from);
        ok == n.Ok? && (ok ==> State() == n.value.sys)
    }

    /** From every state the event does what `Step` says, up to the nesting of `schedule`. */
    ghost predicate Stepped(s: Sys, e: Event, ok: bool, ret: int, out: int)
      reads this
    {
      var r := Step(s, e);
      && (r.Panic? ==> !ok)
      && (r.Ok? ==> Leaves(r.value, ok) && (ok ==> ret == r.value.ret && out == r.value.out))
    }

    /** The last action of a call that gives `r`. */
    method Finish(again: bool, ghost r: Outcome<Reply>) returns (ok: bool)
      requires Valid() && Ends(r, State(), again)
      modifies this
      ensures Valid() && (r.Panic? ==> !ok) && (r.Ok? ==> Leaves(r.value, ok))
    {
      hide Scheduler.Schedule, ScheduleNested;
      ok := true;
      PanicsNested(State());
      if again {
        var switched;
        ok, switched := Schedule();
      }
    }

    /** The end of `start`: the new process joins its father's children and the ready queue. */
    method Launch(p: int, father: int) returns (ok: bool)
      requires Valid() && p in procs
      modifies this
      ensures Valid() && running == old(running)
      ensures Gave(Joined(old(State()), p, father), ok)
    {
      if father in procs {
        procs := procs[father := procs[father].(children := [p] + procs[father].children)];
      }
      procs := procs[p := procs[p].(state := Waiting)];
      ok := QueueAdd(p);
    }

    method Start(stackSize: int, prio: int, kernelStackOk: bool, userStackOk: bool) returns (ok: bool, ret: int)
      requires Valid()
      modifies this
      ensures Valid() && Stepped(old(State()), Event.Start(stackSize, prio, kernelStackOk, userStackOk), ok, ret, 0)
    {
      hide Scheduler.Schedule, ScheduleNested, Step, StartRejects, Joined, Then, StartCall, Ends;
      ghost var s, e := State(), Event.Start(stackSize, prio, kernelStackOk, userStackOk);
      StepIs(s, e);
      StartIs(s, stackSize, prio, kernelStackOk, userStackOk);
      if StartRejects(State(), stackSize, prio) {
        return true, -1;
      }
      if free == [] { return false, 0; }
      var p := free[0];
      var father := if running == 0 then NOT_FOUND else running;
      free := free[1..];
      procs := procs[p := NewProc(father, prio)];
      if !kernelStackOk || (father != NOT_FOUND && !userStackOk) {
        free := free + [p];
        return true, -1;
      }
      if (father == NOT_FOUND) != (p == INIT) { return false, 0; }
      ok := Launch(p, father);
      if !ok { return false, 0; }
      ret := p;
      var again := running == 0 || prio > Prio(procs, running);
      ThenEnds(State(), again, p, []);
      ok := Finish(again, Step(s, e));
    }

    method Exit(code: int) returns (ok: bool)
      requires Valid()
      modifies this
      ensures Valid() && Stepped(old(State()), Event.Exit(code), ok, 0, 0)
    {
      hide Step, Then, Ends, Scheduler.Schedule, ScheduleNested, Scheduler.RequestZombify;
      ghost var s, e := State(), Event.Exit(code);
      StepIs(s, e);
      if running !in procs { return false; }
      procs := procs[running := procs[running].(returnCode := code)];
      ok := RequestZombify(running);
      if !ok { return; }
      ThenEnds(State(), true, 0, []);
      ok := Finish(true, Step(s, e));
    }

    method Kill(p: int) returns (ok: bool, ret: int)
      requires Valid()
      modifies this
      ensures Valid() && Stepped(old(State()), Event.Kill(p), ok, ret, 0)
    {
      hide Step, Then, Ends, Scheduler.Schedule, ScheduleNested, Scheduler.RequestZombify, Withdraw;
      ghost var s, e := State(), Event.Kill(p);
      StepIs(s, e);
      if !ValidPid(p) || p !in procs || procs[p].state == Zombie {
        return true, -1;
      }
      if procs[p].state == Sleeping {
        if sleepers == [] { return false, 0; }
        sleepers := sleepers[..|sleepers| - 1];
      }
      procs := procs[p := procs[p].(returnCode := 0)];
      ok := RequestZombify(p);
      ret := 0;
      if !ok { return; }
      ThenEnds(State(), true, 0, Withdraw(s, p));
      ok := Finish(true, Step(s, e));
    }

    method WaitPid(p: int) returns (ok: bool, ret: int, out: int)
      requires Valid()
      modifies this
      ensures Valid() && Stepped(old(State()), Event.WaitPid(p), ok, ret, out)
    {
      hide Step, Then, Ends, Scheduler.Schedule, ScheduleNested, Scheduler.RequestDestroy, FindZombie, CountUnsealed;
      ghost var s, e := State(), Event.WaitPid(p);
      StepIs(s, e);
      if running !in procs { return false, 0, 0; }
      ret, out := 0, 0;
      var child, code := p, p;
      if p < 0 {
        var count;
        child, count := ScanChildren();
        if child == NOT_FOUND && count == 0 { return true, -1, 0; }
        code := -1;
      } else if !ValidPid(p) || p !in procs || procs[p].sealed || procs[p].father != running {
        return true, -1, 0;
      }
      if child in procs && procs[child].state == Zombie {
        ret, out := child, procs[child].returnCode;
        ok := RequestDestroy(child);
      } else {
        procs := procs[running := procs[running].(state := BlockedByChild, waitingCode := code, cont := InWait(p))];
        ThenEnds(State(), true, 0, []);
        ok := Finish(true, Step(s, e));
      }
    }

    /** The walk of `waitpid` over the child list. */
    method ScanChildren() returns (found: int, count: nat)
      requires running in procs && NOT_FOUND !in procs
      ensures found == FindZombie(procs, procs[running].children)
      ensures found == NOT_FOUND ==> count == CountUnsealed(procs, procs[running].children)
      ensures found != NOT_FOUND ==> found in procs && procs[found].state == Zombie
    {
      var cs, i := procs[running].children, 0;
      count := 0;
      while i < |cs|
        invariant 0 <= i <= |cs|
        invariant FindZombie(procs, cs) == FindZombie(procs, cs[i..])
        invariant CountUnsealed(procs, cs) == count + CountUnsealed(procs, cs[i..])
      {
        assert cs[i..][1..] == cs[i + 1..];
        if cs[i] in procs && !procs[cs[i]].sealed {
          if procs[cs[i]].state == Zombie {
            return cs[i], count;
          }
          count := count + 1;
        }
        i := i + 1;
      }
      found := NOT_FOUND;
    }

    method WaitClock(clock: int) returns (ok: bool)
      requires Valid()
      modifies this
      ensures Valid() && Stepped(old(State()), Event.WaitClock(clock), ok, 0, 0)
    {
      hide Step, Then, Ends, Scheduler.Schedule, ScheduleNested;
      ghost var s, e := State(), Event.WaitClock(clock);
      StepIs(s, e);
      if clock <= 0 { return true; }
      if running !in procs { return false; }
      procs := procs[running := procs[running].(state := Sleeping, sleepTime := clock)];
      sleepers := sleepers + [running];
      ThenEnds(State(), true, 0, []);
      ok := Finish(true, Step(s, e));
    }

    /** The loop of `clock_tick`: the entry that replaces a woken one is looked at next. */
    method WakeExpired(now: int) returns (ok: bool)
      requires Valid()
      modifies this
      ensures Valid() && Gave(WakeSleepers(old(State()), 0, now), ok)
    {
      hide Enqueue;
      ghost var start := State();
      var i := 0;
      ok := true;
      while i < |sleepers|
        invariant 0 <= i <= |sleepers| && Valid() && ok
        invariant WakeSleepers(start, 0, now) == WakeSleepers(State(), i, now)
        decreases |sleepers| - i
      {
        var p := sleepers[i];
        if p !in procs { return false; }
        if procs[p].sleepTime <= now {
          var n := |sleepers| - 1;
          procs := procs[p := procs[p].(state := Waiting)];
          sleepers := sleepers[i := sleepers[n]][..n];
          ok := QueueAdd(p);
          if !ok { return; }
        } else {
          i := i + 1;
        }
      }
    }

    method ClockTick(now: int) returns (ok: bool)
      requires Valid()
      modifies this
      ensures Valid() && Stepped(old(State()), Event.Tick(now), ok, 0, 0)
    {
      hide Step, Then, Ends, Scheduler.Schedule, ScheduleNested, WakeSleepers;
      ghost var s, e := State(), Event.Tick(now);
      StepIs(s, e);
      var before := |sleepers|;
      ok := WakeExpired(now);
      if !ok { return; }
      ThenEnds(State(), |sleepers| < before, 0, []);
      ok := Finish(|sleepers| < before, Step(s, e));
    }

    /** `message_queues_notify_priority_changed`. */
    method NotifyPriorityChanged(p: int, prio: int)
      requires Valid()
      modifies this`queues
      ensures Valid() && queues == NotifyPriority(old(queues), p, prio)
    {
      hide Reprioritise;
      var f := 0;
      ghost var before := queues;
      while f < NB_QUEUES
        invariant 0 <= f <= NB_QUEUES && queues.Keys == before.Keys
        invariant forall g :: g in before ==>
                                queues[g] == if g < f then before[g].(locked := Reprioritise(before[g].locked, p, prio))
                                else before[g]
      {
        if f in queues {
          var l := WaitingList.Requeue(queues[f].locked, p, prio);
          queues := queues[f := queues[f].(locked := l)];
        }
        f := f + 1;
      }
    }

    /** `queue_del` and `queue_add`: to the place of the new priority. */
    method Requeue(p: int) returns (ok: bool)
      modifies this`ready
      ensures var u := Unlink(old(State()), p); Gave(if u.Ok? then Enqueue(u.value, p) else Panic, ok)
    {
      ok := QueueDel(p);
      if ok {
        ok := QueueAdd(p);
      }
    }

    /** The new priority, and the place it gives the process in the lists it is on. */
    method Reposition(p: int, prio: int) returns (ok: bool)
      requires Valid() && p in procs
      modifies this
      ensures Valid() && Gave(Moved(old(State()), p, prio), ok) && running == old(running)
      ensures ok ==> procs.Keys == old(procs.Keys) && procs[p].prio == prio
    {
      hide NotifyPriority, Unlink, Enqueue;
      procs := procs[p := procs[p].(prio := prio)];
      if procs[p].state == BlockedByMessage {
        NotifyPriorityChanged(p, prio);
      }
      ok := true;
      if running != p && procs[p].state !in {BlockedByMessage, BlockedByChild} {
        ok := Requeue(p);
      }
    }

    method ChPrio(p: int, prio: int) returns (ok: bool, ret: int)
      requires Valid()
      modifies this
      ensures Valid() && Stepped(old(State()), Event.ChPrio(p, prio), ok, ret, 0)
    {
      hide Step, Then, Ends, Scheduler.Schedule, ScheduleNested, Moved, ChPrioCall;
      ghost var s, e := State(), Event.ChPrio(p, prio);
      StepIs(s, e);
      ChPrioIs(s, p, prio);
      if !ValidPid(p) || !ValidPrio(prio) || p !in procs || procs[p].state == Zombie {
        return true, -1;
      }
      if running !in procs { return false, 0; }
      ret := procs[p].prio;
      ok := Reposition(p, prio);
      if !ok { return; }
      var above := prio > procs[running].prio;
      if !above && running == p && ready == [] { return false, ret; }
      var below := running == p && Prio(procs, ready[|ready| - 1]) > prio;
      ThenEnds(State(), above || below, ret, []);
      ok := Finish(above || below, Step(s, e));
    }

    /** What is left of `waitpid`, `psend` or `preceive` when the process runs again. */
    method Resume() returns (ok: bool, ret: int, out: int)
      requires Valid()
      modifies this
      ensures Valid() && Stepped(old(State()), Event.Resume, ok, ret, out)
    {
      hide Step, Scheduler.RequestDestroy;
      ghost var s, e := State(), Event.Resume;
      StepIs(s, e);
      ret, out := 0, 0;
      if running !in procs { return false, 0, 0; }
      var c := procs[running].cont;
      if c.Idle? { return true, 0, 0; }
      var waited := procs[running].waitingCode;
      procs := procs[running := procs[running].(cont := Idle)];
      if c.InWait? {
        var child := if c.target < 0 then waited else c.target;
        if !ValidPid(child) || child !in procs { return false, 0, 0; }
        ret, out := child, procs[child].returnCode;
        ok := RequestDestroy(child);
      } else {
        ok := true;
        ret := if running in released then -1 else 0;
        out := if c.InReceive? then procs[running].inbox else 0;
        released := released - {running};
      }
    }
  }

  /** How a call that gives `r` leaves the state `t` it has prepared. */
  ghost predicate Ends(r: Outcome<Reply>, t: Sys, again: bool) {
    if again then (r.Panic? <==> Scheduler.Schedule(t).Panic?) && (r.Ok? ==> r.value.entry == Scheduled(t))
    else r.Ok? && r.value.entry == NotScheduled && r.value.sys == t
  }

  lemma ThenEnds(t: Sys, again: bool, ret: int, effects: seq<Effect>)
    ensures var r := Then(t, again, ret, effects);
            Ends(r, t, again) && (r.Ok? ==> r.value.ret == ret && r.value.out == 0)
  {
    hide Scheduler.Schedule;
  }

  /** The flat and the nested form panic in the same states, whether or not the choice is sound. */
  lemma PanicsNested(s: Sys)
    ensures Scheduler.Schedule(s).Panic? ==> ScheduleNested(s).Panic?
  {
    hide Clean, Pick, ScheduleNested;
    if Scheduler.Schedule(s).Panic? {
      NestedIsFlat(s);
    }
  }

  /** In a quiescent state an allowed event leaves the kernel in the state `Step` gives. */
  lemma GuardedLeaves(s: Sys, e: Event)
    requires Inv(s) && Enabled(s, e) && Guard(s, e)
    ensures Step(s, e).Ok?
    ensures var r := Step(s, e).value;
            Inv(r.sys)
            && (r.entry.Scheduled? ==>
                  ScheduleNested(r.entry.from).Ok? && ScheduleNested(r.entry.from).value.sys == r.sys)
  {
    hide Inv, Enabled, Guard, Step, Scheduler.Schedule, ScheduleNested, NoSelfSwitch;
    StepOk(s, e);
    var r := Step(s, e).value;
    if r.entry.Scheduled? {
      ScheduledBy(s, e);
      SoundNeverSelfSwitches(r.entry.from);
      NestedIsFlat(r.entry.from);
    }
  }

  /** `chprio` up to its decision to reschedule. */
  function Moved(s: Sys, p: int, prio: int): Outcome<Sys>
    requires p in s.procs
  {
    var s1 := s.(procs := s.procs[p := s.procs[p].(prio := prio)]);
    var st := s.procs[p].state;
    var s2 := if st == BlockedByMessage then s1.(queues := NotifyPriority(s1.queues, p, prio)) else s1;
    if s.running != p && st !in {BlockedByMessage, BlockedByChild} then
      var u :- Unlink(s2, p);
      Enqueue(u, p)
    else Ok(s2)
  }

  lemma ChPrioIs(s: Sys, p: int, prio: int)
    ensures var r := ChPrioCall(s, p, prio);
            if !ValidPid(p) || !ValidPrio(prio) || p !in s.procs || s.procs[p].state == Zombie then r == Return(s, -1)
            else if s.running !in s.procs || Moved(s, p, prio).Panic? then r.Panic?
            else
              var t := Moved(s, p, prio).value;
              var above := prio > Prio(t.procs, s.running);
              if !above && s.running == p && t.ready == [] then r.Panic?
              else
                var below := s.running == p && Prio(t.procs, t.ready[|t.ready| - 1]) > prio;
                r == Then(t, above || below, s.procs[p].prio, [])
  {
    hide Then, NotifyPriority, InsertReady, Remove;
  }

  /** The child list and the ready queue take a process that `start` has filled in. */
  function Joined(s: Sys, p: int, father: int): Outcome<Sys>
    requires p in s.procs
  {
    var s2 := if father in s.procs then AddChild(s, father, p) else s;
    Enqueue(s2.(procs := s2.procs[p := s2.procs[p].(state := Waiting)]), p)
  }

  /** `start` after its guard, in the three ways it can go on. */
  lemma StartIs(s: Sys, stackSize: int, prio: int, k: bool, u: bool)
    ensures var r := StartCall(s, stackSize, prio, k, u);
            if StartRejects(s, stackSize, prio) then r == Return(s, -1)
            else if s.free == [] then r.Panic?
            else
              var p := s.free[0];
              var father := if s.running == 0 then NOT_FOUND else s.running;
              var s1 := s.(free := s.free[1..], procs := s.procs[p := NewProc(father, prio)]);
              if !k || (father != NOT_FOUND && !u) then r == Return(s1.(free := s1.free + [p]), -1)
              else if (father == NOT_FOUND) != (p == INIT) then r.Panic?
              else
                var j := Joined(s1, p, father);
                if j.Panic? then r.Panic?
                else r == Then(j.value, s.running == 0 || prio > Prio(j.value.procs, s.running), p, [])
  {
    hide Then, StartRejects, Enqueue;
  }
}
