/** A death the guard forbids: this `schedule` panics or the next one does. */
module DoomLemmas {
  import opened Outcomes
  import opened KernelState
  import opened Scheduler
  import opened Invariant
  import opened ZombifyLemmas
  import opened ZombifyInv
  import opened PickLemmas
  import opened CleanLemmas
  import opened ScheduleLemmas
  import opened PanicLemmas

  // ----- a clash makes the cleaning panic -----

  lemma ClashCurses(s: Sys, p: int, rest: seq<int>)
    requires InSchedule(s) && p in s.toZombify && p != s.running && Clashes(s.procs, p)
    ensures var r := Zombify(s.(toZombify := rest), p);
            r.Ok? ==> exists c, k :: Cursed(r.value, p, c, k)
  {
    var s0 := s.(toZombify := rest);
    var r := Zombify(s0, p);
    if r.Ok? {
      ClashFacts(s, p);
      var c :| c in s.procs[p].children && c in s.procs && s.procs[c].deallocated && !s.procs[c].sealed;
      hide InSchedule, Zombify, Clashes;
      ZombifyBuries(s0, p);
      ZombifySeals(s0, p);
      CurseStarts(s0, r.value, p, c);
      assert Cursed(r.value, p, c, |r.value.toDestroy| - 1);
    }
  }

  lemma ClashFacts(s: Sys, p: int)
    requires InSchedule(s) && p in s.toZombify && p != s.running && Clashes(s.procs, p)
    ensures p in s.procs && !s.procs[p].deallocated && !s.procs[p].sealed && p !in s.procs[p].children
    ensures HasCorpse(s.procs, p) && s.running in s.procs && !s.procs[s.running].deallocated
    ensures s.running !in s.toDestroy
    ensures var f := s.procs[p].father; f == INIT || (Inert(s, f) && s.procs[f].state == Zombie)
  {
    hide FidsOk, SleepOk, QueuesOk, WaitsOk, ChildrenLast, PidsOk, HasCorpse, TreeOk, AllRooted;
    OutsideFamily(s.procs, p);
  }

  lemma CurseStarts(s: Sys, t: Sys, p: int, c: int)
    requires Buried(s, t, p) && t.toDestroy != [] && t.toDestroy[|t.toDestroy| - 1] == p && t.procs[p].sealed
    requires s.running in s.procs && !s.procs[s.running].deallocated && s.running !in s.toDestroy
    requires c in s.procs[p].children && c in s.procs && s.procs[c].deallocated && !s.procs[p].deallocated
    ensures Cursed(t, p, c, |t.toDestroy| - 1)
  {
    forall j | 0 <= j < |t.toDestroy| ensures t.toDestroy[j] != s.running {
      if j < |s.toDestroy| {
        assert t.toDestroy[j] == t.toDestroy[..|s.toDestroy|][j] == s.toDestroy[j];
        assert s.toDestroy[j] in s.toDestroy;
      }
    }
  }

  lemma CurseSurvives(s: Sys, r: int, rest: seq<int>, p: int, c: int, k: int)
    requires Cursed(s, p, c, k) && r != s.running && r != p
    ensures var z := Zombify(s.(toZombify := rest), r); z.Ok? ==> Cursed(z.value, p, c, k)
  {
    var s0 := s.(toZombify := rest);
    if Zombify(s0, r).Ok? {
      ZombifyBuries(s0, r);
      hide Zombify;
      var t := Zombify(s0, r).value;
      var s1 := s0.(procs := s.procs[r := s.procs[r].(deallocated := true)]);
      assert Cursed(s1, p, c, k);
      Inherit(s1, t, r, p, c, k);
    }
  }

  /** The clashing process is taken first, and at most one more that can be swept is pending. */
  lemma ClashPanics(s: Sys, p: int, rest: seq<int>)
    requires InSchedule(s) && p in s.toZombify && p != s.running && Clashes(s.procs, p)
    requires !NothingPending(s.toZombify, s.running) && NextPending(s.toZombify, s.running) == (p, rest)
    requires |rest| <= 1 && p !in rest
    ensures Schedule(s).Panic?
  {
    hide InSchedule, Clashes, Zombify, DestroyAll, ZombifyAll, NextPending, NothingPending, Cursed, Pick;
    ClashCurses(s, p, rest);
    SweepOnce(s, p, rest);
    var z := Zombify(s.(toZombify := rest), p);
    if z.Ok? {
      var c, k :| Cursed(z.value, p, c, k);
      SameQueue(s, p, rest);
      CursedSweep(z.value, p, c, k);
    }
  }

  lemma SweepOnce(s: Sys, p: int, rest: seq<int>)
    requires !NothingPending(s.toZombify, s.running) && NextPending(s.toZombify, s.running) == (p, rest)
    ensures var z := Zombify(s.(toZombify := rest), p); ZombifyAll(s) == if z.Ok? then ZombifyAll(z.value) else Panic
  {
    hide Zombify, NextPending, NothingPending;
  }

  lemma SameQueue(s: Sys, p: int, rest: seq<int>)
    ensures var z := Zombify(s.(toZombify := rest), p);
            z.Ok? ==> z.value.toZombify == rest && z.value.running == s.running
  {}

  lemma CursedSweep(s: Sys, p: int, c: int, k: int)
    requires Cursed(s, p, c, k) && |s.toZombify| <= 1 && p !in s.toZombify
    ensures Clean(s).Panic?
  {
    CursedPanics(s, p, c, k);
    hide Zombify, DestroyAll;
    if !NothingPending(s.toZombify, s.running) {
      var r := s.toZombify[0];
      assert s.toZombify == [r] && r in s.toZombify && s.toZombify[..0] == [];
      if r != s.running {
        assert NextPending(s.toZombify, s.running) == (r, []);
        CurseSurvives(s, r, [], p, c, k);
        SameQueue(s, r, []);
        var z := Zombify(s.(toZombify := []), r);
        if z.Ok? {
          CursedPanics(z.value, p, c, k);
          assert ZombifyAll(s) == ZombifyAll(z.value) == Ok(z.value);
        }
      } else {
        assert s.running == 0;
        assert NextPending(s.toZombify, s.running) == (r, []);
        SelfZombify(s, r);
      }
    }
  }

  lemma SelfZombify(s: Sys, r: int)
    requires r == s.running
    ensures Zombify(s.(toZombify := []), r).Panic?
  {}

  /** Father pending before its child: the child is sealed as an orphan, then again as a dead child. */
  lemma ChildFirstPanics(s: Sys, f: int, p: int)
    requires InSchedule(s) && s.toZombify == [f, p] && f != s.running && p != s.running
    requires p in s.procs && s.procs[p].father == f && !s.procs[p].sealed && f != p
    ensures Schedule(s).Panic?
  {
    hide InSchedule, Zombify, Schedule, ZombifyAll;
    assert p in s.toZombify && f in s.toZombify && s.toZombify[..1] == [f];
    assert NextPending(s.toZombify, s.running) == (p, [f]);
    ChildFirstFacts(s, f, p);
    SweptFirst(s, p, [f]);
    var s0 := s.(toZombify := [f]);
    var z := Zombify(s0, p);
    if z.Ok? {
      ZombifyBuries(s0, p);
      ZombifySeals(s0, p);
      SameQueue(s, p, [f]);
      var t := z.value;
      assert t.toZombify[..0] == [];
      assert NextPending(t.toZombify, t.running) == (f, []);
      ZombifyPanics(t.(toZombify := []), f, p);
      SweptFirst(t, f, []);
    }
  }

  lemma ChildFirstFacts(s: Sys, f: int, p: int)
    requires InSchedule(s) && s.toZombify == [f, p] && f != s.running && p != s.running
    requires p in s.procs && s.procs[p].father == f
    ensures p in s.procs && f in s.procs && p !in s.procs[p].children && p in s.procs[f].children
    ensures Inert(s, f) && s.procs[f].state == Zombie
  {
    hide FidsOk, SleepOk, QueuesOk, WaitsOk, ChildrenLast, PidsOk, AllRooted;
    assert p in s.toZombify && f in s.toZombify;
    OutsideFamily(s.procs, p);
  }

  // ----- a running process left to pid 1 with an uncollected child -----

  /** The running process is pending, fatherless but for pid 1, and leaves an uncollected zombie. */
  ghost predicate Doomed(procs: Table, toZombify: seq<int>, p: int) {
    p in toZombify && p in procs && !procs[p].sealed && procs[p].father == INIT && HasCorpse(procs, p)
  }

  lemma PickFamily(s: Sys)
    ensures var r := Pick(s);
            r.Ok? ==> && r.value.toZombify == s.toZombify && r.value.procs.Keys == s.procs.Keys
                      && forall q :: q in s.procs ==> r.value.procs[q] == s.procs[q].(state := r.value.procs[q].state)
  {
    hide Switch;
    var n := |s.ready| - 1;
    if n >= 0 && s.ready[n] in s.procs && s.running in s.procs { SwitchSameFamily(s, s.ready[n]); }
  }

  lemma SwitchSameFamily(s: Sys, c: int)
    requires s.ready != [] && c == s.ready[|s.ready| - 1] && c in s.procs && s.running in s.procs
    ensures var r := Switch(s, c);
            r.Ok? ==> && r.value.toZombify == s.toZombify && r.value.procs.Keys == s.procs.Keys
                      && forall q :: q in s.procs ==> r.value.procs[q] == s.procs[q].(state := r.value.procs[q].state)
  {
    hide InsertReady;
  }

  lemma PickDoomed(s: Sys, p: int)
    requires Doomed(s.procs, s.toZombify, p)
    ensures var r := Pick(s); r.Ok? ==> Doomed(r.value.procs, r.value.toZombify, p)
  {
    PickFamily(s);
    hide Pick;
    if Pick(s).Ok? {
      var t := Pick(s).value;
      var c :| c in s.procs[p].children && c in s.procs && s.procs[c].deallocated && !s.procs[c].sealed;
      assert c in t.procs[p].children && c in t.procs && t.procs[c].deallocated && !t.procs[c].sealed;
    }
  }

  lemma ReapDoomed(s: Sys, t: Sys, p: int)
    requires Doomed(s.procs, s.toZombify, p) && Reaped(s.procs, t.procs) && t.toZombify == s.toZombify
    requires ChildLinks(s.procs) && FatherLinks(t.procs)
    ensures Doomed(t.procs, t.toZombify, p)
  {
    var c :| c in s.procs[p].children && c in s.procs && s.procs[c].deallocated && !s.procs[c].sealed;
    assert s.procs[c].father == p && c != INIT && c in t.procs;
    assert t.procs[c].father == p;
    assert c in t.procs[p].children;
  }

  lemma LinksIn(s: Sys)
    requires InSchedule(s)
    ensures ChildLinks(s.procs) && FatherLinks(s.procs) && s.running != 0
  {
    hide FidsOk, SleepOk, QueuesOk, WaitsOk, ChildrenLast, LifeOk, AllRooted, ReadyOk, ChildLinks;
    hide FatherLinks, DistinctChildren;
    var i := s.running;
    assert i in s.procs;
  }

  lemma AllDead(s: Sys)
    requires InSchedule(s) && NothingPending(s.toZombify, s.running)
    ensures AllDeallocated(s.procs, s.toDestroy)
  {
    hide PidsOk, FidsOk, ReadyOk, SleepOk, StatesOk, QueuesOk, TreeOk, AllRooted, ChildrenLast, WaitsOk;
    hide NotAwaitingPending;
    forall p | p in s.toDestroy && p in s.procs ensures s.procs[p].deallocated {
      assert s.procs[p].sealed && s.procs[p].state == Zombie;
      assert p != s.running;
    }
  }

  /** The doomed process leaves the processor; the next `schedule` reaches it and panics. */
  lemma DoomedStays(s: Sys)
    requires InSchedule(s) && s.toZombify == [s.running] && Doomed(s.procs, s.toZombify, s.running)
    ensures Schedule(s).Ok? && Schedule(Schedule(s).value).Panic? && !Inv(Schedule(s).value)
  {
    hide InSchedule, DestroyAll, Pick, Doomed, Clashes, ChildLinks, FatherLinks, Reaped, AllDeallocated, Core, Inv;
    LinksIn(s);
    assert NothingPending(s.toZombify, s.running);
    AllDead(s);
    DestroyAllOk(s);
    var d := DestroyAll(s).value;
    LinksIn(d);
    ReapDoomed(s, d, s.running);
    PickDoomed(d, s.running);
    DoomedLeaves(d);
    assert Schedule(s) == Pick(d);
    var u := Pick(d).value;
    DoomedNotInv(u, s.running);
    DoomedClashes(u, s.running);
    PopLone(u, s.running);
    ClashPanics(u, s.running, []);
  }

  lemma PopLone(s: Sys, p: int)
    requires s.toZombify == [p] && s.running != p
    ensures !NothingPending(s.toZombify, s.running) && NextPending(s.toZombify, s.running) == (p, [])
  {
    assert [p][..0] == [];
  }

  lemma DoomedClashes(s: Sys, p: int)
    requires Doomed(s.procs, s.toZombify, p) && INIT in s.procs
    ensures Clashes(s.procs, p)
  {}

  /** A dead process does not keep the processor. */
  lemma DoomedLeaves(s: Sys)
    requires InSchedule(s) && s.toZombify == [s.running] && Doomed(s.procs, s.toZombify, s.running) && s.toDestroy == []
    ensures Pick(s).Ok?
    ensures var u := Pick(s).value;
            InSchedule(u) && u.running != s.running && u.toZombify == s.toZombify && INIT in u.procs
  {
    hide InSchedule, Core, Pick, Switch, ReadyOk, StatesOk, Switched, HasCorpse;
    RunningFacts(s);
    PendingDead(s, s.running);
    PickChooses(s);
    TopFacts(s);
    SwitchKeepsCore(s);
    var c := s.ready[|s.ready| - 1];
    var u := Switch(s, c).value;
    SwitchedIn(s, u, c);
  }

  lemma PendingDead(s: Sys, p: int)
    requires InSchedule(s) && p in s.toZombify
    ensures p in s.procs && s.procs[p].state == Zombie && p != INIT && INIT in s.procs
  {
    hide FidsOk, SleepOk, QueuesOk, WaitsOk, ChildrenLast, PidsOk, TreeOk, AllRooted, ReadyOk;
  }

  lemma SwitchedIn(s: Sys, u: Sys, c: int)
    requires InSchedule(s) && Core(u) && Switched(s.procs, u.procs, s.running, c) && s.procs[c].state == Waiting
    requires s.toDestroy == [] && u.toDestroy == [] && u.running == c && u.toZombify == s.toZombify
    ensures InSchedule(u) && c != s.running && INIT in u.procs
  {
    hide FidsOk, SleepOk, QueuesOk, WaitsOk, ChildrenLast, PidsOk, TreeOk, AllRooted, ReadyOk;
  }

  lemma DoomedNotInv(s: Sys, p: int)
    requires Doomed(s.procs, s.toZombify, p)
    ensures !Inv(s)
  {
    hide Core, HasCorpse;
    assert !Undoomed(s.procs, s.toZombify);
  }

  /** Sweeping another process does not help. */
  lemma DoomComes(procs: Table, procs': Table, r: int, p: int)
    requires Zombified(procs, procs', r) && ChildLinks(procs) && FatherLinks(procs) && p in procs && p != r && p != INIT
    requires !procs[p].deallocated && !procs[r].deallocated && !procs[p].sealed && HasCorpse(procs, p)
    requires procs[p].father == INIT || procs[p].father == r
    ensures p in procs' && !procs'[p].sealed && procs'[p].father == INIT && HasCorpse(procs', p)
  {
    var a, b := procs[p], procs'[p];
    assert b.children == a.children;
    assert b.father == INIT by { assert p in procs[procs[p].father].children; }
    var c :| c in procs[p].children && c in procs && procs[c].deallocated && !procs[c].sealed;
    assert procs[c].father == p && c !in procs[r].children;
    var x, y := procs[c], procs'[c];
    assert y.deallocated && !y.sealed;
    assert c in procs'[p].children;
  }

  lemma DoomedTogether(s: Sys, r: int)
    requires InSchedule(s) && s.running in s.procs && s.toZombify == [r, s.running] && r != s.running
    requires !Clashes(s.procs, r) && SealedByRunning(s)
    requires s.running != INIT && !s.procs[s.running].sealed && HasCorpse(s.procs, s.running)
    requires s.procs[s.running].father == INIT || s.procs[s.running].father == r
    ensures Schedule(s).Ok? && Schedule(Schedule(s).value).Panic? && !Inv(Schedule(s).value)
  {
    hide InSchedule, Zombify, Clashes, Zombified, HasCorpse, ChildLinks, FatherLinks, DestroyAll, Pick, Inv;
    hide SealedByRunning;
    hide NextPending, Popped, Schedule, ZombifyAll, Zombifiable, NothingPending;
    var p := s.running;
    assert r in s.toZombify && p in s.toZombify;
    LinksIn(s);
    PendingFacts(s, r);
    PendingFacts(s, p);
    ZombifiableIfNoClash(s, r);
    PopFirst(s, r);
    ZombifyInSchedule(s, r, [p]);
    var t := Zombify(s.(toZombify := [p]), r).value;
    DoomComes(s.procs, t.procs, r, p);
    assert Doomed(t.procs, t.toZombify, p);
    DoomedStays(t);
    SweptFirst(s, r, [p]);
  }

  lemma SweptFirst(s: Sys, r: int, rest: seq<int>)
    requires !NothingPending(s.toZombify, s.running) && NextPending(s.toZombify, s.running) == (r, rest)
    ensures var z := Zombify(s.(toZombify := rest), r); Schedule(s) == (if z.Ok? then Schedule(z.value) else Panic)
  {
    hide Zombify, DestroyAll, Pick;
  }
}
