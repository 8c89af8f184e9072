/** `schedule` ends in a quiescent state when what is pending can be reaped. */
module ScheduleLemmas {
  import opened Lists
  import opened Outcomes
  import opened KernelState
  import opened Scheduler
  import opened Invariant
  import opened ZombifyLemmas
  import opened ZombifyInv
  import opened CleanLemmas
  import opened FrameLemmas
  import opened PickLemmas

  /** When the pending zombies can be reaped: none clashes with an uncollected child, a child is not
      taken before its own pending father, and the running process, if it is among them, will not be
      left to pid 1 with an uncollected child. */
  ghost predicate Reapable(s: Sys) {
    var z := s.toZombify;
    && |z| <= 2
    && (forall p :: p in z && p != s.running ==> !Clashes(s.procs, p))
    && (|z| == 2 && z[1] != s.running && z[0] in s.procs && z[1] in s.procs ==>
          && s.procs[z[1]].father != z[0]
          && (s.procs[z[0]].father == z[1] && !s.procs[z[0]].sealed ==> !HasCorpse(s.procs, z[0])))
    && (s.running in z ==>
          && z[|z| - 1] == s.running
          && (s.running in s.procs && (s.procs[s.running].father == INIT || s.procs[s.running].father in z) ==>
                !HasCorpse(s.procs, s.running)))
  }

  /** Between the two loops of `clean_processes`. */
  ghost predicate Swept(s: Sys) {
    && InSchedule(s)
    && NothingPending(s.toZombify, s.running)
    && AllDeallocated(s.procs, s.toDestroy)
    && Undoomed(s.procs, s.toZombify)
  }

  lemma SweptIfNothingPending(s: Sys)
    requires InSchedule(s) && NothingPending(s.toZombify, s.running) && Undoomed(s.procs, s.toZombify)
    ensures Swept(s)
  {
    hide PidsOk, FidsOk, ReadyOk, SleepOk, StatesOk, QueuesOk, TreeOk, AllRooted, ChildrenLast, WaitsOk, Undoomed;
    hide NotAwaitingPending;
    forall p | p in s.toDestroy && p in s.procs ensures s.procs[p].deallocated {
      assert s.procs[p].sealed && s.procs[p].state == Zombie;
      assert p != s.running;
    }
  }

  lemma DoomUnchanged(procs: Table, procs': Table, a: int, r: int)
    requires Zombified(procs, procs', a) && ChildLinks(procs) && r in procs && r != a && r != INIT
    requires procs[r].state == Zombie && a in procs
    requires procs[r].father == INIT || procs[r].father == a ==> !HasCorpse(procs, r)
    requires procs'[r].father == INIT
    ensures !HasCorpse(procs', r)
  {
    forall c | c in procs'[r].children && c in procs' && procs'[c].deallocated ensures procs'[c].sealed {
      assert c in procs[r].children;
      if c == a {
        assert procs[a].father == r;
        assert procs[a].sealed || Seals(procs, a);
      } else {
        assert procs[c].deallocated;
      }
    }
  }

  /** A pending process is a zombie below pid 1, in the table. */
  lemma PendingFacts(s: Sys, p: int)
    requires InSchedule(s) && p in s.toZombify
    ensures p in s.procs && p != INIT && s.procs[p].state == Zombie && !s.procs[p].deallocated
    ensures s.procs[p].father in s.procs && s.procs[p].father != p && ChildLinks(s.procs)
  {
    OutsideFamily(s.procs, p);
  }

  lemma PopFirst(s: Sys, a: int)
    requires s.toZombify == [a] || s.toZombify == [a, s.running]
    requires a != s.running && s.running != 0
    ensures var rest := if |s.toZombify| == 1 then [] else [s.running];
            && !NothingPending(s.toZombify, s.running) && NothingPending(rest, s.running)
            && NextPending(s.toZombify, s.running) == (a, rest) && Popped(s.toZombify, a, rest)
  {
    if |s.toZombify| == 1 {
      assert s.toZombify[..0] == [];
    } else {
      assert s.toZombify[0 := s.running][..1] == [s.running];
    }
  }

  /** One zombie to sweep, whether or not the running process is pending too. */
  lemma SweepOne(s: Sys, a: int)
    requires InSchedule(s) && SealedByRunning(s) && Reapable(s) && a != s.running && s.running != 0
    requires s.toZombify == [a] || s.toZombify == [a, s.running]
    ensures ZombifyAll(s).Ok? && Swept(ZombifyAll(s).value)
    ensures SweptFields(s, ZombifyAll(s).value) && Zombified(s.procs, ZombifyAll(s).value.procs, a)
  {
    hide InSchedule, SealedByRunning, Clashes, Zombify, Zombified, HasCorpse, Popped, NextPending;
    hide NothingPending, ChildLinks, Swept;
    var rest := if |s.toZombify| == 1 then [] else [s.running];
    assert a in s.toZombify;
    PopFirst(s, a);
    PendingFacts(s, a);
    ZombifiableIfNoClash(s, a);
    ZombifyInSchedule(s, a, rest);
    var t := Zombify(s.(toZombify := rest), a).value;
    assert ZombifyAll(t) == Ok(t);
    if rest != [] {
      var r := s.running;
      assert r in s.toZombify;
      PendingFacts(s, r);
      assert s.procs[r].father in s.toZombify <==> s.procs[r].father == a;
      SweptTogether(s, t, a);
    }
    SweptIfNothingPending(t);
  }

  lemma SweptTogether(s: Sys, t: Sys, a: int)
    requires Zombified(s.procs, t.procs, a) && ChildLinks(s.procs) && t.running == s.running
    requires t.toZombify == [s.running]
    requires s.running in s.procs && s.running != a && s.running != INIT && s.procs[s.running].state == Zombie
    requires a in s.procs
    requires s.procs[s.running].father == INIT || s.procs[s.running].father == a ==> !HasCorpse(s.procs, s.running)
    ensures Undoomed(t.procs, t.toZombify)
  {
    hide Zombified, HasCorpse, ChildLinks;
    var r := s.running;
    if r in t.procs && t.procs[r].father == INIT {
      DoomUnchanged(s.procs, t.procs, a, r);
    }
  }

  lemma PopLast(s: Sys, a: int, b: int)
    requires s.toZombify == [a, b] && a != b && b != s.running && a != s.running && s.running != 0
    ensures !NothingPending(s.toZombify, s.running)
    ensures NextPending(s.toZombify, s.running) == (b, [a]) && Popped(s.toZombify, b, [a])
  {
    assert s.toZombify[..1] == [a];
  }

  /** What sweeping `b` leaves of the conditions for sweeping `a`. */
  lemma StillNoClash(procs: Table, procs': Table, a: int, b: int)
    requires Zombified(procs, procs', b) && ChildLinks(procs) && procs[b].state == Zombie
    requires a in procs && a != b && a != INIT && procs[a].father in procs && procs[b].father != a
    requires !Clashes(procs, a)
    requires procs[a].father == b && !procs[a].sealed ==> !HasCorpse(procs, a)
    ensures !Clashes(procs', a)
  {
    assert procs'[a].children == procs[a].children;
    if HasCorpse(procs', a) && !procs'[a].sealed {
      var c :| c in procs'[a].children && c in procs' && procs'[c].deallocated && !procs'[c].sealed;
      assert c in procs[a].children && procs[c].father == a && c != b;
      assert procs[c].deallocated && !procs[c].sealed;
      assert HasCorpse(procs, a);
      assert !procs[a].sealed && procs[a].father != b;
      assert procs'[a].father == procs[a].father;
    }
  }

  lemma StillSealedApart(procs: Table, procs': Table, a: int, b: int, running: int)
    requires Zombified(procs, procs', b) && ChildLinks(procs) && a in procs && a != b && a != INIT && a != running
    requires procs[b].father != a && running in procs && !procs[running].deallocated
    requires forall c :: c in procs && procs[c].sealed ==> procs[c].father == running
    requires forall c :: c in procs && procs[c].deallocated && c != running ==> procs[c].children == []
    ensures forall c :: c in procs'[a].children && c in procs' && procs'[c].deallocated ==>
                          !procs'[c].sealed && procs'[c].children == []
  {
    forall c | c in procs'[a].children && c in procs' && procs'[c].deallocated
      ensures !procs'[c].sealed && procs'[c].children == []
    {
      assert c in procs[a].children && procs[c].father == a && c != b && c != INIT;
      assert procs[c].deallocated;
    }
  }

  lemma SealedFacts(s: Sys)
    requires InSchedule(s) && SealedByRunning(s)
    ensures s.running in s.procs && !s.procs[s.running].deallocated
    ensures forall c :: c in s.procs && s.procs[c].sealed ==> s.procs[c].father == s.running
    ensures forall c :: c in s.procs && s.procs[c].deallocated && c != s.running ==> s.procs[c].children == []
  {
    hide PidsOk, FidsOk, ReadyOk, SleepOk, QueuesOk, AllRooted, ChildrenLast, WaitsOk, FatherLinks, DistinctChildren;
    forall c | c in s.procs && s.procs[c].deallocated && c != s.running ensures s.procs[c].children == [] {
      ChildlessCorpse(s.procs, s.toDestroy, s.running, c);
    }
  }

  /** Two zombies to sweep, the later one first. */
  lemma SweepTwo(s: Sys, a: int, b: int)
    requires InSchedule(s) && SealedByRunning(s) && Reapable(s) && s.running != 0
    requires s.toZombify == [a, b] && a != b && a != s.running && b != s.running
    ensures ZombifyAll(s).Ok? && Swept(ZombifyAll(s).value) && SweptFields(s, ZombifyAll(s).value)
  {
    hide InSchedule, SealedByRunning, Clashes, Zombify, Zombified, HasCorpse, Popped, NextPending;
    hide NothingPending, ChildLinks, Swept;
    assert a in s.toZombify && b in s.toZombify;
    PendingFacts(s, a);
    PendingFacts(s, b);
    SealedFacts(s);
    PopLast(s, a, b);
    ZombifiableIfNoClash(s, b);
    ZombifyInSchedule(s, b, [a]);
    var s1 := Zombify(s.(toZombify := [a]), b).value;
    StillNoClash(s.procs, s1.procs, a, b);
    StillSealedApart(s.procs, s1.procs, a, b, s.running);
    assert a in s1.toZombify;
    PendingFacts(s1, a);
    ZombifiableSecond(s1.procs, a);
    PopFirst(s1, a);
    ZombifyInSchedule(s1, a, []);
    var t := Zombify(s1.(toZombify := []), a).value;
    assert ZombifyAll(s1) == ZombifyAll(t) == Ok(t) by { assert NothingPending(t.toZombify, t.running); }
    assert ZombifyAll(s) == ZombifyAll(s1);
    SweptIfNothingPending(t);
  }

  lemma ZombifiableSecond(procs: Table, a: int)
    requires a in procs && a != INIT && procs[a].father in procs && !Clashes(procs, a)
    requires forall c :: c in procs[a].children && c in procs && procs[c].deallocated ==>
                           !procs[c].sealed && procs[c].children == []
    ensures Zombifiable(procs, a)
  {}

  /** Fields that sweeping leaves alone. */
  ghost predicate SweptFields(s: Sys, t: Sys) {
    t == s.(procs := t.procs, ready := t.ready, toZombify := t.toZombify, toDestroy := t.toDestroy)
  }

  // ----- the choice -----

  /** Pid 1 can always run, so a running process that cannot go on finds a successor. */
  lemma SomeoneReady(s: Sys)
    requires ReadyOk(s.procs, s.ready) && StatesOk(s.procs, s.running)
    ensures s.ready != [] || (s.running == INIT && s.procs[INIT].state == Running)
    ensures s.running != INIT ==> s.procs[INIT].state == Waiting && s.ready != []
  {
    if s.procs[INIT].state == Waiting {
      var i := INIT;
      assert i in s.ready;
    }
  }

  predicate Full(s: Sys) { s.running != INIT && Size(s) >= MAX_PROCS }

  /** The running process keeps the processor: it runs at a higher priority than the candidate. */
  ghost predicate Stays(s: Sys) {
    && s.running in s.procs && s.procs[s.running].state == Running
    && (!Full(s) ==> s.ready == [] || Prio(s.procs, s.running) > Prio(s.procs, s.ready[|s.ready| - 1]))
    && (Full(s) ==> Prio(s.procs, s.running) > Prio(s.procs, INIT))
  }

  lemma PickChooses(s: Sys)
    requires ReadyOk(s.procs, s.ready) && StatesOk(s.procs, s.running)
    requires s.running != 0 && s.procs[s.running].state != Waiting
    ensures Stays(s) ==> Pick(s) == Ok(s)
    ensures !Stays(s) ==> s.ready != [] && Pick(s) == Switch(s, s.ready[|s.ready| - 1])
  {
    SomeoneReady(s);
    if s.ready != [] {
      assert s.ready[|s.ready| - 1] in s.ready;
    }
  }

  lemma StaysQuiet(s: Sys)
    requires InSchedule(s) && s.toDestroy == [] && NothingPending(s.toZombify, s.running) && Stays(s)
    ensures Inv(s)
  {
    hide PidsOk, FidsOk, SleepOk, QueuesOk, TreeOk, AllRooted, ChildrenLast, WaitsOk, NotAwaitingPending;
    assert s.toZombify == [] by {
      assert s.running !in s.toZombify;
    }
    if Size(s) < MAX_PROCS && s.ready != [] {
      TopIsHighest(s.procs, s.ready);
    }
  }

  lemma SwitchQuiet(s: Sys)
    requires InSchedule(s) && s.toDestroy == [] && NothingPending(s.toZombify, s.running)
    requires Undoomed(s.procs, s.toZombify) && !Stays(s) && s.ready != []
    requires s.ready[|s.ready| - 1] in s.procs && s.running in s.procs
    ensures var r := Switch(s, s.ready[|s.ready| - 1]); r.Ok? && Inv(r.value)
  {
    hide Core, InSchedule, NotAwaitingPending, Switch, Undoomed, Switched, ReadyOk, NoInversion, NothingPending;
    var c := s.ready[|s.ready| - 1];
    TopFacts(s);
    SwitchKeepsCore(s);
    var t := Switch(s, c).value;
    SwitchFamily(s.procs, t.procs, s.running, c);
    FamilyUndoomed(s.procs, t.procs, s.toZombify);
    SwitchRuns(s.procs, t.procs, s.running, c);
    if Size(s) < MAX_PROCS {
      SwitchNoInversion(s.procs, t.procs, s.ready, t.ready, s.running);
    }
  }

  lemma TopFacts(s: Sys)
    requires InSchedule(s) && s.ready != []
    ensures Core(s) && ReadyOk(s.procs, s.ready) && s.running in s.procs && s.procs[s.running].state != Waiting
    ensures s.ready[|s.ready| - 1] in s.procs && s.procs[s.ready[|s.ready| - 1]].state == Waiting
    ensures NothingPending(s.toZombify, s.running) ==> |s.toZombify| <= 1
  {
    assert s.ready[|s.ready| - 1] in s.ready;
  }

  lemma SwitchRuns(procs: Table, procs': Table, cur: int, c: int)
    requires Switched(procs, procs', cur, c)
    ensures c in procs' && procs'[c].state == Running
  {}

  lemma PickOk(s: Sys)
    requires InSchedule(s) && s.toDestroy == [] && NothingPending(s.toZombify, s.running)
    requires Undoomed(s.procs, s.toZombify) && s.running != 0
    ensures Pick(s).Ok? && Inv(Pick(s).value)
  {
    RunningFacts(s);
    hide InSchedule, Inv, NothingPending, Undoomed, Pick, Switch, ReadyOk, StatesOk;
    PickChooses(s);
    if Stays(s) {
      StaysQuiet(s);
    } else {
      TopFacts(s);
      SwitchQuiet(s);
    }
  }

  lemma RunningFacts(s: Sys)
    requires InSchedule(s)
    ensures s.running in s.procs && s.running != 0 && s.procs[s.running].state != Waiting
    ensures ReadyOk(s.procs, s.ready) && StatesOk(s.procs, s.running) && NoDup(s.toZombify)
  {
    hide QueuesOk, TreeOk, AllRooted, WaitsOk, ChildrenLast;
    var i := s.running;
    assert i in s.procs;
  }

  // ----- the whole of schedule -----

  lemma ReapedUndoomed(procs: Table, procs': Table, toZombify: seq<int>)
    requires Reaped(procs, procs') && Undoomed(procs, toZombify)
    ensures Undoomed(procs', toZombify)
  {
    forall p | p in toZombify && p in procs' && !procs'[p].sealed && procs'[p].father == INIT
      ensures !HasCorpse(procs', p)
    {
      assert !HasCorpse(procs, p);
    }
  }

  lemma SweptQuiet(s: Sys)
    requires Swept(s) && s.running != 0
    ensures var d := DestroyAll(s); d.Ok? && Pick(d.value).Ok? && Inv(Pick(d.value).value)
    ensures DestroyAll(s).value.queues == s.queues && DestroyAll(s).value.released == s.released
    ensures var d := DestroyAll(s).value; Fair(Pick(d).value) <==> !Inverts(d)
  {
    hide InSchedule, Inv, Pick, Undoomed, DestroyAll, Reaped, NothingPending;
    DestroyAllOk(s);
    var t := DestroyAll(s).value;
    ReapedUndoomed(s.procs, t.procs, s.toZombify);
    PickOk(t);
    RunningFacts(t);
    hide ReadyOk, StatesOk, Inverts;
    PickInversion(t);
  }

  lemma SweepAll(s: Sys)
    requires InSchedule(s) && SealedByRunning(s) && Reapable(s) && s.running != 0
    ensures ZombifyAll(s).Ok? && Swept(ZombifyAll(s).value) && SweptFields(s, ZombifyAll(s).value)
  {
    hide InSchedule, SealedByRunning, Swept, Clashes, HasCorpse, ReadyOk, StatesOk, ZombifyAll;
    var z := s.toZombify;
    RunningFacts(s);
    assert NothingPending(z, s.running) ==> ZombifyAll(s) == Ok(s) by { SweepNothing(s); }
    if z == [] {
      SweptIfNothingPending(s);
    } else if |z| == 1 {
      assert z == [z[0]];
      if z[0] == s.running {
        assert s.running in z;
        assert Undoomed(s.procs, z);
        SweptIfNothingPending(s);
      } else {
        SweepOne(s, z[0]);
      }
    } else {
      assert z == [z[0], z[1]] && z[0] in z && z[1] in z;
      if z[1] == s.running {
        SweepOne(s, z[0]);
      } else {
        assert s.running !in z;
        SweepTwo(s, z[0], z[1]);
      }
    }
  }

  lemma SweepNothing(s: Sys)
    ensures NothingPending(s.toZombify, s.running) ==> ZombifyAll(s) == Ok(s)
  {}

  /** With a reapable pending list `schedule` does not panic and restores the invariant. */
  lemma ScheduleOk(s: Sys)
    requires InSchedule(s) && SealedByRunning(s) && Reapable(s)
    ensures Schedule(s).Ok? && Inv(Schedule(s).value) && SameQueues(s, Schedule(s).value)
    ensures Chosen(s, Schedule(s).value)
  {
    hide InSchedule, SealedByRunning, Reapable, Inv, Swept, Pick, DestroyAll, ZombifyAll, ReadyOk, StatesOk;
    hide NoDup, Inverts, Fair;
    RunningFacts(s);
    SweepAll(s);
    var t := ZombifyAll(s).value;
    SweptQuiet(t);
    PickKeepsQueues(DestroyAll(t).value);
  }

  /** Scheduling does not touch the message queues. */
  ghost predicate SameQueues(s: Sys, t: Sys) {
    t.queues == s.queues && t.released == s.released
  }

  /** The branch that lets the running process stay although somebody ready is above it: the table is
      full, and it is above pid 1. */
  ghost predicate Inverts(s: Sys) {
    && s.running in s.procs && s.procs[s.running].state == Running
    && Full(s) && Prio(s.procs, s.running) > Prio(s.procs, INIT)
    && s.ready != [] && Prio(s.procs, s.ready[|s.ready| - 1]) > Prio(s.procs, s.running)
  }

  /** Choosing leaves an inversion exactly through that branch. */
  lemma PickInversion(s: Sys)
    requires ReadyOk(s.procs, s.ready) && StatesOk(s.procs, s.running)
    requires s.running != 0 && s.procs[s.running].state != Waiting
    ensures Pick(s).Ok? && (Fair(Pick(s).value) <==> !Inverts(s))
  {
    PickChooses(s);
    SomeoneReady(s);
    if s.ready != [] { TopIsHighest(s.procs, s.ready); }
    if !Stays(s) {
      SwitchEffect(s);
      var c := s.ready[|s.ready| - 1];
      var t := Switch(s, c).value;
      if Full(s) { InitReady(s); }
      hide Pick, Switch, StatesOk;
      SwitchNoInversion(s.procs, t.procs, s.ready, t.ready, s.running);
    } else if s.ready != [] {
      var c := s.ready[|s.ready| - 1];
      assert c in s.ready;
    }
  }

  lemma InitReady(s: Sys)
    requires ReadyOk(s.procs, s.ready) && StatesOk(s.procs, s.running) && s.running != INIT
    ensures INIT in s.ready
  {
    SomeoneReady(s);
    var i := INIT;
    assert i in s.procs;
  }

  /** How the choice at the end of `schedule` came out. */
  ghost predicate Chosen(from: Sys, t: Sys) {
    Clean(from).Ok? && (Fair(t) <==> !Inverts(Clean(from).value))
  }

  lemma PickKeepsQueues(s: Sys)
    ensures Pick(s).Ok? ==> SameQueues(s, Pick(s).value)
  {}

  /** With nothing to clean up. */
  lemma ScheduleIsPick(s: Sys)
    requires NothingPending(s.toZombify, s.running) && s.toDestroy == []
    ensures Schedule(s) == Pick(s)
  {}
}
