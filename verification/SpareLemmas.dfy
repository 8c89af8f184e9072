/** Scheduling frees no slot but those of the dead: from any state, a process that is neither dead nor to
    be destroyed is still there afterwards. */
module SpareLemmas {
  import opened Lists
  import opened KernelState
  import opened Scheduler

  predicate Alive(s: Sys, p: int) {
    p in s.procs && s.procs[p].state != Zombie && !s.procs[p].deallocated && p !in s.toDestroy
  }

  ghost predicate Spares(s: Sys, t: Sys) {
    forall p :: Alive(s, p) ==> Alive(t, p)
  }

  /** ... except perhaps `q`. */
  ghost predicate SparesBut(s: Sys, t: Sys, q: int) {
    forall p :: Alive(s, p) && p != q ==> Alive(t, p)
  }

  lemma RequestSpares(s: Sys, c: int)
    requires !Alive(s, c)
    ensures var r := RequestDestroy(s, c); r.Ok? ==> Spares(s, r.value)
  {}

  lemma ReleaseSpares(s: Sys, p: int, c: int)
    ensures var r := ReleaseChild(s, p, c); r.Ok? ==> Spares(s, r.value)
  {
    if c in s.procs && s.procs[c].deallocated {
      RequestSpares(s, c);
      hide RequestDestroy;
    }
  }

  lemma {:induction false} ReleaseAllSpares(s: Sys, p: int, cs: seq<int>)
    ensures var r := ReleaseChildren(s, p, cs); r.Ok? ==> Spares(s, r.value)
    decreases |cs|
  {
    if cs != [] {
      ReleaseSpares(s, p, cs[0]);
      hide ReleaseChild;
      var r := ReleaseChild(s, p, cs[0]);
      if r.Ok? { ReleaseAllSpares(r.value, p, cs[1..]); }
    }
  }

  lemma WakeSpares(s: Sys, f: int, p: int)
    ensures var r := WakeFather(s, f, p);
            r.Ok? ==> Spares(s, r.value) && (!Alive(s, p) && f != p ==> !Alive(r.value, p))
  {}

  lemma ZombifySpares(s: Sys, p: int)
    ensures var r := Zombify(s, p); r.Ok? ==> Spares(s, r.value)
  {
    if Zombify(s, p).Ok? {
      var f, cs := s.procs[p].father, s.procs[p].children;
      var s1 := s.(procs := s.procs[p := s.procs[p].(deallocated := true)]);
      ReleaseAllSpares(s1, p, cs);
      StaysDead(s1, p, cs, p);
      var s2 := ReleaseChildren(s1, p, cs).value;
      WakeSpares(s2, f, p);
      var s3 := WakeFather(s2, f, p).value;
      assert s3.procs[p].deallocated;
      RequestSpares(s3, p);
      hide RequestDestroy, ReleaseChildren, WakeFather;
    }
  }

  lemma {:induction false} StaysDead(s: Sys, p: int, cs: seq<int>, x: int)
    requires x in s.procs && s.procs[x].deallocated
    ensures var r := ReleaseChildren(s, p, cs); r.Ok? ==> x in r.value.procs && r.value.procs[x].deallocated
    decreases |cs|
  {
    if cs != [] {
      var r := ReleaseChild(s, p, cs[0]);
      if r.Ok? {
        assert r.value.procs[x].deallocated;
        StaysDead(r.value, p, cs[1..], x);
      }
    }
  }

  lemma DropSpares(s: Sys, p: int)
    ensures var r := DropChild(s, p); r.Ok? ==> Spares(s, r.value)
  {
    if DropChild(s, p).Ok? {
      var c := s.procs[p].children[0];
      var s1 := s.(procs := s.procs[p := s.procs[p].(children := s.procs[p].children[1..])]);
      assert Spares(s, s1);
      if s1.procs[c].deallocated {
        RequestSpares(s1, c);
        hide RequestDestroy;
      }
    }
  }

  lemma {:induction false} DropAllSpares(s: Sys, p: int, n: nat)
    ensures var r := DropChildren(s, p, n); r.Ok? ==> Spares(s, r.value)
    decreases n
  {
    if n > 0 {
      DropSpares(s, p);
      hide DropChild;
      var r := DropChild(s, p);
      if r.Ok? { DropAllSpares(r.value, p, n - 1); }
    }
  }

  lemma DestroySpares(s: Sys, p: int)
    ensures var r := Destroy(s, p); r.Ok? ==> SparesBut(s, r.value, p)
  {
    if Destroy(s, p).Ok? {
      var f := s.procs[p].father;
      var s1 := s.(procs := s.procs[f := s.procs[f].(children := Remove(s.procs[f].children, p))]);
      assert Spares(s, s1);
      DropAllSpares(s1, p, |s1.procs[p].children|);
      hide DropChildren;
    }
  }

  lemma NextIsPending(pending: seq<int>, running: int)
    requires pending != []
    ensures NextPending(pending, running).0 in pending
            && forall x :: x in NextPending(pending, running).1 ==> x in pending
  {}

  lemma {:induction false} ZombifyAllSpares(s: Sys)
    ensures var r := ZombifyAll(s); r.Ok? ==> Spares(s, r.value)
    decreases |s.toZombify|
  {
    if !NothingPending(s.toZombify, s.running) {
      var (p, rest) := NextPending(s.toZombify, s.running);
      ZombifySpares(s.(toZombify := rest), p);
      hide Zombify;
      var r := Zombify(s.(toZombify := rest), p);
      if r.Ok? { ZombifyAllSpares(r.value); }
    }
  }

  lemma {:induction false} DestroyAllSpares(s: Sys)
    ensures var r := DestroyAll(s); r.Ok? ==> Spares(s, r.value)
    decreases |s.procs|
  {
    if !NothingPending(s.toDestroy, s.running) {
      var (p, rest) := NextPending(s.toDestroy, s.running);
      NextIsPending(s.toDestroy, s.running);
      DestroySpares(s.(toDestroy := rest), p);
      hide Destroy, NextPending;
      var r := Destroy(s.(toDestroy := rest), p);
      if r.Ok? {
        assert Spares(s, r.value);
        DestroyAllSpares(r.value);
      }
    }
  }

  lemma PickSpares(s: Sys)
    ensures var r := Pick(s); r.Ok? ==> Spares(s, r.value)
  {}

  lemma ScheduleSpares(s: Sys)
    ensures var r := Schedule(s); r.Ok? ==> Spares(s, r.value)
  {
    hide ZombifyAll, DestroyAll, Pick;
    if Schedule(s).Ok? {
      ZombifyAllSpares(s);
      DestroyAllSpares(ZombifyAll(s).value);
      PickSpares(DestroyAll(ZombifyAll(s).value).value);
    }
  }
}
