/** What `schedule` does from states that need not satisfy the invariant: what it cannot repair, and
    when its assertions must fail. */
module PanicLemmas {
  import opened Lists
  import opened Outcomes
  import opened KernelState
  import opened Scheduler
  import opened QueueLemmas

  // ----- what schedule cannot repair -----

  predicate Inert(s: Sys, p: int) {
    p in s.procs && s.procs[p].state in {Zombie, Sleeping, BlockedByMessage} && p !in s.ready
  }

  /** What scheduling never changes in a slot; and it parks nobody. */
  predicate SlotKept(a: Proc, b: Proc) {
    && b.cont == a.cont && b.returnCode == a.returnCode && b.prio == a.prio && b.sleepTime == a.sleepTime
    && b.inbox == a.inbox
    && (b.state == BlockedByMessage ==> a.state == BlockedByMessage)
  }

  /** Sleepers, reset flags, continuations, return codes, received values, priorities and wake-up times are
      kept; a zombie, sleeper or parked process outside the ready queue stays one, and nobody is parked. */
  ghost predicate Dormant(s: Sys, t: Sys) {
    && t.sleepers == s.sleepers && t.released == s.released
    && t.procs.Keys <= s.procs.Keys && (INIT in s.procs ==> INIT in t.procs)
    && (forall p :: p in t.procs ==> SlotKept(s.procs[p], t.procs[p]))
    && (forall p :: p in t.procs && Inert(s, p) ==> Inert(t, p) && t.procs[p].state == s.procs[p].state)
  }

  lemma DormantTwice(s: Sys, t: Sys, u: Sys)
    requires Dormant(s, t) && Dormant(t, u)
    ensures Dormant(s, u)
  {}

  lemma DestroyRequested(s: Sys, p: int)
    ensures var r := RequestDestroy(s, p); r.Ok? ==> Dormant(s, r.value)
  {}

  lemma OrphanReleased(s: Sys, p: int, c: int)
    requires c in s.procs && !s.procs[c].deallocated
    ensures var r := ReleaseChild(s, p, c); r.Ok? ==> Dormant(s, r.value)
  {}

  lemma ChildReleased(s: Sys, p: int, c: int)
    ensures var r := ReleaseChild(s, p, c); r.Ok? ==> Dormant(s, r.value)
  {
    if c in s.procs && !s.procs[c].deallocated {
      OrphanReleased(s, p, c);
    } else {
      DestroyRequested(s, c);
      hide Dormant, RequestDestroy;
    }
  }

  lemma {:induction false} ChildrenReleased(s: Sys, p: int, cs: seq<int>)
    ensures var r := ReleaseChildren(s, p, cs); r.Ok? ==> Dormant(s, r.value)
    decreases |cs|
  {
    if cs != [] {
      ChildReleased(s, p, cs[0]);
      var r := ReleaseChild(s, p, cs[0]);
      hide ReleaseChild, Dormant;
      if r.Ok? {
        ChildrenReleased(r.value, p, cs[1..]);
        var u := ReleaseChildren(r.value, p, cs[1..]);
        if u.Ok? { DormantTwice(s, r.value, u.value); }
      }
    } else {
      assert Dormant(s, s);
    }
  }

  lemma FatherWoken(s: Sys, f: int, p: int)
    ensures var r := WakeFather(s, f, p); r.Ok? ==> Dormant(s, r.value)
  {
    if WakeFather(s, f, p).Ok? {
      var t := WakeFather(s, f, p).value;
      InsertReadyMembers(t.procs, s.ready, f);
    }
  }

  lemma ZombifyDormant(s: Sys, p: int)
    ensures var r := Zombify(s, p); r.Ok? ==> Dormant(s, r.value)
  {
    if Zombify(s, p).Ok? {
      var f := s.procs[p].father;
      var s1 := s.(procs := s.procs[p := s.procs[p].(deallocated := true)]);
      assert Dormant(s, s1);
      ChildrenReleased(s1, p, s1.procs[p].children);
      var s2 := ReleaseChildren(s1, p, s1.procs[p].children).value;
      FatherWoken(s2, f, p);
      var s3 := WakeFather(s2, f, p).value;
      DestroyRequested(s3, p);
      hide Dormant, ReleaseChildren, WakeFather, RequestDestroy;
      assert Dormant(s3, s3) by { DormantSelf(s3); }
      var t := Zombify(s, p).value;
      DormantTwice(s, s1, s2);
      DormantTwice(s, s2, s3);
      DormantTwice(s, s3, t);
    }
  }

  lemma DormantSelf(s: Sys)
    ensures Dormant(s, s)
  {}

  lemma {:induction false} ChildrenDropped(s: Sys, p: int, n: nat)
    ensures var r := DropChildren(s, p, n); r.Ok? ==> Dormant(s, r.value)
    decreases n
  {
    DormantSelf(s);
    if n > 0 {
      ChildDropped(s, p);
      var r := DropChild(s, p);
      hide DropChild, Dormant;
      if r.Ok? {
        ChildrenDropped(r.value, p, n - 1);
        var u := DropChildren(r.value, p, n - 1);
        if u.Ok? { DormantTwice(s, r.value, u.value); }
      }
    }
  }

  lemma ChildDropped(s: Sys, p: int)
    ensures var r := DropChild(s, p); r.Ok? ==> Dormant(s, r.value)
  {
    if DropChild(s, p).Ok? {
      var s1 := s.(procs := s.procs[p := s.procs[p].(children := s.procs[p].children[1..])]);
      DestroyRequested(s1, s.procs[p].children[0]);
    }
  }

  lemma ChildUnlinked(s: Sys, f: int, p: int)
    requires f in s.procs
    ensures Dormant(s, s.(procs := s.procs[f := s.procs[f].(children := Remove(s.procs[f].children, p))]))
  {}

  lemma SlotFreed(s: Sys, p: int)
    requires p != INIT
    ensures Dormant(s, s.(free := s.free + [p], procs := s.procs - {p}))
  {}

  lemma DestroyDormant(s: Sys, p: int)
    ensures var r := Destroy(s, p); r.Ok? ==> Dormant(s, r.value)
  {
    hide Dormant, DropChildren, Remove;
    if Destroy(s, p).Ok? {
      var f := s.procs[p].father;
      var s1 := s.(procs := s.procs[f := s.procs[f].(children := Remove(s.procs[f].children, p))]);
      ChildUnlinked(s, f, p);
      ChildrenDropped(s1, p, |s1.procs[p].children|);
      var s2 := DropChildren(s1, p, |s1.procs[p].children|).value;
      SlotFreed(s2, p);
      DormantTwice(s, s1, s2);
      DormantTwice(s, s2, Destroy(s, p).value);
    }
  }

  lemma {:induction false} ZombifyAllDormant(s: Sys)
    ensures var r := ZombifyAll(s); r.Ok? ==> Dormant(s, r.value)
    decreases |s.toZombify|
  {
    DormantSelf(s);
    if !NothingPending(s.toZombify, s.running) {
      var (p, rest) := NextPending(s.toZombify, s.running);
      var s0 := s.(toZombify := rest);
      assert Dormant(s, s0);
      ZombifyDormant(s0, p);
      hide Dormant, Zombify;
      var r := Zombify(s0, p);
      if r.Ok? {
        ZombifyAllDormant(r.value);
        var u := ZombifyAll(r.value);
        if u.Ok? {
          DormantTwice(s, s0, r.value);
          DormantTwice(s, r.value, u.value);
        }
      }
    }
  }

  lemma {:induction false} DestroyAllDormant(s: Sys)
    ensures var r := DestroyAll(s); r.Ok? ==> Dormant(s, r.value)
    decreases |s.procs|
  {
    DormantSelf(s);
    if !NothingPending(s.toDestroy, s.running) {
      var (p, rest) := NextPending(s.toDestroy, s.running);
      var s0 := s.(toDestroy := rest);
      assert Dormant(s, s0);
      DestroyDormant(s0, p);
      hide Dormant, Destroy;
      var r := Destroy(s0, p);
      if r.Ok? {
        DestroyAllDormant(r.value);
        var u := DestroyAll(r.value);
        if u.Ok? {
          DormantTwice(s, s0, r.value);
          DormantTwice(s, r.value, u.value);
        }
      }
    }
  }

  lemma PickDormant(s: Sys)
    ensures var r := Pick(s); r.Ok? ==> Dormant(s, r.value)
  {
    if Pick(s).Ok? && Pick(s).value != s {
      var n := |s.ready| - 1;
      assert s.ready[n] in s.ready && forall q :: q in s.ready[..n] ==> q in s.ready;
      var t := Pick(s).value;
      InsertReadyMembers(t.procs, s.ready[..n], s.running);
    }
  }

  lemma ScheduleDormant(s: Sys)
    ensures var r := Schedule(s); r.Ok? ==> Dormant(s, r.value)
  {
    hide Dormant, ZombifyAll, DestroyAll, Pick;
    if Schedule(s).Ok? {
      var s1 := ZombifyAll(s).value;
      var s2 := DestroyAll(s1).value;
      var s3 := Pick(s2).value;
      ZombifyAllDormant(s);
      DestroyAllDormant(s1);
      PickDormant(s2);
      DormantTwice(s, s1, s2);
      DormantTwice(s, s2, s3);
    }
  }

  // ----- return codes -----

  /** The part of a call that precedes `schedule` leaves the zombies alone. */
  ghost predicate KeepsZombies(s: Sys, t: Sys) {
    forall c :: c in s.procs && s.procs[c].state == Zombie ==>
                  Inert(t, c) && t.procs[c].state == Zombie && t.procs[c].returnCode == s.procs[c].returnCode
  }

  /** A zombie stays one, with its return code, as long as its slot is not freed. */
  ghost predicate CodesKept(s: Sys, t: Sys) {
    forall c :: c in s.procs && s.procs[c].state == Zombie && c in t.procs ==>
                  t.procs[c].state == Zombie && t.procs[c].returnCode == s.procs[c].returnCode
  }

  lemma ScheduleKeepsCodes(s: Sys, t: Sys)
    requires KeepsZombies(s, t)
    ensures Schedule(t).Ok? ==> CodesKept(s, Schedule(t).value)
  {
    hide Schedule;
    ScheduleDormant(t);
  }

  // ----- what makes an assertion fail -----

  ghost predicate Marked(s: Sys, c: int) {
    c in s.procs && s.procs[c].deallocated && s.procs[c].sealed
  }

  /** Marks only grow, child lists other than that of `q` only grow, and new requests to destroy are for
      unsealed dead processes. */
  ghost predicate Grown(s: Sys, t: Sys, q: int) {
    && t.procs.Keys == s.procs.Keys && t.running == s.running && t.toZombify == s.toZombify
    && (forall x :: x in s.procs ==>
                      && t.procs[x].deallocated == s.procs[x].deallocated && (s.procs[x].sealed ==> t.procs[x].sealed)
                      && (x != q ==> forall c :: c in s.procs[x].children ==> c in t.procs[x].children))
    && |s.toDestroy| <= |t.toDestroy| && t.toDestroy[..|s.toDestroy|] == s.toDestroy
    && (forall j :: |s.toDestroy| <= j < |t.toDestroy| ==>
                      var d := t.toDestroy[j]; d in s.procs && s.procs[d].deallocated && !s.procs[d].sealed)
  }

  lemma GrownTwice(s: Sys, t: Sys, u: Sys, q: int)
    requires Grown(s, t, q) && Grown(t, u, q)
    ensures Grown(s, u, q)
  {
    var n, m := |s.toDestroy|, |t.toDestroy|;
    assert u.toDestroy[..m][..n] == u.toDestroy[..n];
    forall j | n <= j < |u.toDestroy|
      ensures var d := u.toDestroy[j]; d in s.procs && s.procs[d].deallocated && !s.procs[d].sealed
    {
      if j < m { assert u.toDestroy[j] == u.toDestroy[..m][j] == t.toDestroy[j]; }
    }
  }

  lemma GrownSelf(s: Sys, q: int)
    ensures Grown(s, s, q)
  {}

  lemma DropGrows(s: Sys, q: int)
    ensures var r := DropChild(s, q); r.Ok? ==> Grown(s, r.value, q)
  {
    hide Grown, RequestDestroy;
    if DropChild(s, q).Ok? {
      var c := s.procs[q].children[0];
      var s1 := s.(procs := s.procs[q := s.procs[q].(children := s.procs[q].children[1..])]);
      HeadDropped(s, s1, q);
      if s1.procs[c].deallocated { RequestGrows(s1, q, c); } else { AdoptionGrows(s1, q, c); }
      GrownTwice(s, s1, DropChild(s, q).value, q);
    }
  }

  lemma HeadDropped(s: Sys, t: Sys, q: int)
    requires q in s.procs && s.procs[q].children != []
    requires t == s.(procs := s.procs[q := s.procs[q].(children := s.procs[q].children[1..])])
    ensures Grown(s, t, q)
  {}

  lemma AdoptionGrows(s: Sys, q: int, c: int)
    requires c in s.procs && INIT in s.procs
    ensures var procs1 := s.procs[c := s.procs[c].(father := INIT)];
            Grown(s, s.(procs := procs1[INIT := procs1[INIT].(children := [q] + procs1[INIT].children)]), q)
  {}

  lemma MarkGrows(s: Sys, t: Sys, q: int, c: int)
    requires Grown(s, t, q) && Marked(s, c)
    ensures Marked(t, c)
  {}

  lemma {:induction false} DropAllGrows(s: Sys, q: int, n: nat)
    ensures var r := DropChildren(s, q, n); r.Ok? ==> Grown(s, r.value, q)
    decreases n
  {
    GrownSelf(s, q);
    if n > 0 {
      DropGrows(s, q);
      var r := DropChild(s, q);
      hide DropChild, Grown;
      if r.Ok? {
        DropAllGrows(r.value, q, n - 1);
        var u := DropChildren(r.value, q, n - 1);
        if u.Ok? { GrownTwice(s, r.value, u.value, q); }
      }
    }
  }

  lemma DropHead(s: Sys, p: int)
    requires p != INIT
    ensures var r := DropChild(s, p);
            r.Ok? ==>
              p in s.procs && s.procs[p].children != [] && p in r.value.procs
              && r.value.procs[p].children == s.procs[p].children[1..]
              && !Marked(s, s.procs[p].children[0])
  {}

  lemma {:induction false} DropPanics(s: Sys, p: int, n: nat, c: int)
    requires p in s.procs && p != INIT && n == |s.procs[p].children| && c in s.procs[p].children && c != p
    requires Marked(s, c)
    ensures DropChildren(s, p, n).Panic?
    decreases n
  {
    hide DropChild, Grown, Marked;
    DropHead(s, p);
    DropGrows(s, p);
    var r := DropChild(s, p);
    if r.Ok? {
      assert c in s.procs[p].children[1..];
      MarkGrows(s, r.value, p, c);
      DropPanics(r.value, p, n - 1, c);
    }
  }

  /** `destroy` is going to reach `p` while its child `c`, already sealed, is still linked to it. */
  ghost predicate Cursed(s: Sys, p: int, c: int, k: int) {
    && s.running in s.procs && !s.procs[s.running].deallocated && s.running !in s.toDestroy
    && p in s.procs && c in s.procs[p].children && c != p && Marked(s, c)
    && 0 <= k < |s.toDestroy| && s.toDestroy[k] == p
    && (forall j :: k < j < |s.toDestroy| ==> s.toDestroy[j] != c)
  }

  lemma DestroyPanics(s: Sys, p: int, c: int)
    requires p in s.procs && c in s.procs[p].children && c != p && Marked(s, c)
    ensures Destroy(s, p).Panic?
  {
    if p != INIT && s.procs[p].father in s.procs {
      var f := s.procs[p].father;
      var s1 := s.(procs := s.procs[f := s.procs[f].(children := Remove(s.procs[f].children, p))]);
      RemoveKeeps(s.procs[p].children, p, c);
      DropPanics(s1, p, |s1.procs[p].children|, c);
    }
  }

  lemma {:induction false} RemoveKeeps<T>(l: seq<T>, x: T, y: T)
    requires y in l && y != x
    ensures y in Remove(l, x)
  {
    if l[0] != x && l[0] != y {
      RemoveKeeps(l[1..], x, y);
    }
  }

  /** Destroying another process leaves the curse. */
  lemma CurseStays(s: Sys, p: int, c: int, k: int)
    requires Cursed(s, p, c, k) && k < |s.toDestroy| - 1 && s.toDestroy[|s.toDestroy| - 1] != p
    ensures var n := |s.toDestroy| - 1;
            var r := Destroy(s.(toDestroy := s.toDestroy[..n]), s.toDestroy[n]); r.Ok? ==> Cursed(r.value, p, c, k)
  {
    var n := |s.toDestroy| - 1;
    var q := s.toDestroy[n];
    var s0 := s.(toDestroy := s.toDestroy[..n]);
    assert q in s.toDestroy && q != c && q != s.running;
    if Destroy(s0, q).Ok? {
      var f := s.procs[q].father;
      var s1 := s0.(procs := s.procs[f := s.procs[f].(children := Remove(s.procs[f].children, q))]);
      RemoveKeeps(s.procs[p].children, q, c);
      var s2 := DropChildren(s1, q, |s1.procs[q].children|).value;
      DropAllGrows(s1, q, |s1.procs[q].children|);
      var t := Destroy(s0, q).value;
      assert t == s2.(free := s2.free + [q], procs := s2.procs - {q});
      hide DropChildren, Destroy;
      Inherit(s1, s2, q, p, c, k);
    }
  }

  lemma Inherit(s: Sys, t: Sys, q: int, p: int, c: int, k: int)
    requires Cursed(s, p, c, k) && Grown(s, t, q) && p != q
    ensures Cursed(t, p, c, k)
  {
    forall j | 0 <= j < |s.toDestroy| ensures t.toDestroy[j] == s.toDestroy[j] {
      assert t.toDestroy[..|s.toDestroy|][j] == s.toDestroy[j];
    }
  }

  lemma {:induction false} CursedPanics(s: Sys, p: int, c: int, k: int)
    requires Cursed(s, p, c, k)
    ensures DestroyAll(s).Panic?
    decreases |s.procs|
  {
    var n := |s.toDestroy| - 1;
    var q := s.toDestroy[n];
    assert q in s.toDestroy && s.toDestroy[k] in s.toDestroy;
    assert !NothingPending(s.toDestroy, s.running) && NextPending(s.toDestroy, s.running) == (q, s.toDestroy[..n]);
    var s0 := s.(toDestroy := s.toDestroy[..n]);
    if q == p {
      DestroyPanics(s0, p, c);
    } else {
      CurseStays(s, p, c, k);
      hide Cursed, Destroy;
      var r := Destroy(s0, q);
      if r.Ok? { CursedPanics(r.value, p, c, k); }
    }
  }

  // ----- zombify -----

  lemma RequestGrows(s: Sys, p: int, c: int)
    requires c in s.procs && s.procs[c].deallocated
    ensures var r := RequestDestroy(s, c);
            r.Ok? ==>
              Grown(s, r.value, p) && r.value.procs[c].sealed
              && forall x :: x in s.procs ==> r.value.procs[x].children == s.procs[x].children
  {
    var r := RequestDestroy(s, c);
    if r.Ok? {
      assert r.value.toDestroy == s.toDestroy + [c];
    }
  }

  lemma OrphanGrows(s: Sys, p: int, c: int)
    requires c in s.procs && !s.procs[c].deallocated
    ensures var r := ReleaseChild(s, p, c);
            r.Ok? ==>
              Grown(s, r.value, p) && p in s.procs
              && forall d :: d in s.procs[p].children && d != c ==> d in r.value.procs[p].children
  {
    var r := ReleaseChild(s, p, c);
    if r.Ok? {
      assert r.value.toDestroy == s.toDestroy;
      forall d | d in s.procs[p].children && d != c ensures d in r.value.procs[p].children {
        RemoveKeeps(s.procs[p].children, c, d);
      }
    }
  }

  lemma ReleaseGrows(s: Sys, p: int, c: int)
    ensures var r := ReleaseChild(s, p, c);
            r.Ok? ==>
              && Grown(s, r.value, p) && p in s.procs
              && (c in s.procs && s.procs[c].deallocated ==> r.value.procs[c].sealed)
              && forall d :: d in s.procs[p].children && d in s.procs && s.procs[d].deallocated ==>
                               d in r.value.procs[p].children
  {
    if ReleaseChild(s, p, c).Ok? {
      if s.procs[c].deallocated {
        RequestGrows(s, p, c);
        hide Grown, RequestDestroy;
      } else {
        OrphanGrows(s, p, c);
        hide Grown, ReleaseChild;
      }
    }
  }

  /** The dead children are sealed and stay linked. */
  lemma {:induction false} ReleaseAllGrows(s: Sys, p: int, cs: seq<int>)
    ensures var r := ReleaseChildren(s, p, cs); r.Ok? ==> Grown(s, r.value, p)
    ensures var r := ReleaseChildren(s, p, cs);
            r.Ok? && p in s.procs ==>
              && (forall c :: c in cs && c in s.procs && s.procs[c].deallocated ==> r.value.procs[c].sealed)
              && (forall d :: d in s.procs[p].children && d in s.procs && s.procs[d].deallocated ==>
                                d in r.value.procs[p].children)
    decreases |cs|
  {
    GrownSelf(s, p);
    if cs != [] {
      ReleaseGrows(s, p, cs[0]);
      var r := ReleaseChild(s, p, cs[0]);
      hide ReleaseChild;
      if r.Ok? {
        ReleaseAllGrows(r.value, p, cs[1..]);
        var u := ReleaseChildren(r.value, p, cs[1..]);
        if u.Ok? {
          GrownTwice(s, r.value, u.value, p);
          forall c | c in cs && c in s.procs && s.procs[c].deallocated ensures u.value.procs[c].sealed {
            assert c == cs[0] || c in cs[1..];
          }
        }
      }
    }
  }

  lemma {:induction false} ReleasePanics(s: Sys, p: int, cs: seq<int>, c: int)
    requires c in cs && Marked(s, c)
    ensures ReleaseChildren(s, p, cs).Panic?
    decreases |cs|
  {
    ReleaseGrows(s, p, cs[0]);
    var r := ReleaseChild(s, p, cs[0]);
    if cs[0] != c && r.Ok? {
      assert c in cs[1..];
      ReleasePanics(r.value, p, cs[1..], c);
    }
  }

  /** A dead child that is sealed already makes `zombify` fail. */
  lemma ZombifyPanics(s: Sys, p: int, c: int)
    requires p in s.procs && c in s.procs[p].children && Marked(s, c)
    ensures Zombify(s, p).Panic?
  {
    var s1 := s.(procs := s.procs[p := s.procs[p].(deallocated := true)]);
    ReleasePanics(s1, p, s.procs[p].children, c);
  }

  /** What `zombify` of `p` leaves when it does not fail: `p` is dead, its dead children are sealed. */
  ghost predicate Buried(s: Sys, t: Sys, p: int) {
    && p in s.procs && s.procs[p].father in s.procs && s.running != p
    && Grown(s.(procs := s.procs[p := s.procs[p].(deallocated := true)]), t, p)
    && (forall c :: c in s.procs[p].children && c in s.procs && s.procs[c].deallocated ==>
                      t.procs[c].sealed && c in t.procs[p].children)
  }

  lemma WakingGrows(s: Sys, f: int, p: int, q: int)
    ensures var r := WakeFather(s, f, p);
            r.Ok? ==>
              Grown(s, r.value, q) && r.value.toDestroy == s.toDestroy && p in s.procs
              && r.value.procs[p].sealed == s.procs[p].sealed
  {}

  lemma SealingGrows(s: Sys, f: int, p: int, q: int)
    requires p in s.procs && s.procs[p].deallocated
    ensures var r := SealOrphan(s, f, p); r.Ok? ==> Grown(s, r.value, q)
  {
    GrownSelf(s, q);
    RequestGrows(s, q, p);
    hide Grown, RequestDestroy;
  }

  lemma {:induction false} ReleaseOthers(s: Sys, p: int, cs: seq<int>, x: int)
    requires x !in cs && x in s.procs
    ensures var r := ReleaseChildren(s, p, cs); r.Ok? ==> r.value.procs[x].sealed == s.procs[x].sealed
    decreases |cs|
  {
    if cs != [] {
      var r := ReleaseChild(s, p, cs[0]);
      if r.Ok? {
        assert r.value.procs[x].sealed == s.procs[x].sealed;
        ReleaseOthers(r.value, p, cs[1..], x);
      }
    }
  }

  lemma BuriedShape(s: Sys, s1: Sys, s2: Sys, s3: Sys, t: Sys, p: int, f: int)
    requires p in s.procs && s.procs[p].father == f && f in s.procs && s.running != p
    requires s1 == s.(procs := s.procs[p := s.procs[p].(deallocated := true)])
    requires Grown(s1, s2, p)
    requires forall c :: c in s1.procs[p].children && c in s1.procs && s1.procs[c].deallocated ==>
                           s2.procs[c].sealed && c in s2.procs[p].children
    requires WakeFather(s2, f, p) == Ok(s3) && SealOrphan(s3, f, p) == Ok(t)
    ensures Buried(s, t, p)
  {
    hide WakeFather, SealOrphan;
    WakingGrows(s2, f, p, p);
    WakingGrows(s2, f, p, p + 1);
    SealingGrows(s3, f, p, p);
    SealingGrows(s3, f, p, p + 1);
    hide Grown;
    GrownTwice(s2, s3, t, p + 1);
    GrownTwice(s1, s2, s3, p);
    GrownTwice(s1, s3, t, p);
    Linked(s2, t, p);
  }

  lemma Linked(s: Sys, t: Sys, p: int)
    requires Grown(s, t, p + 1) && p in s.procs
    ensures forall c :: c in s.procs[p].children && c in s.procs && s.procs[c].sealed ==>
                          c in t.procs[p].children && t.procs[c].sealed
    ensures t.procs.Keys == s.procs.Keys
  {}

  lemma ZombifyBuries(s: Sys, p: int)
    requires Zombify(s, p).Ok?
    ensures Buried(s, Zombify(s, p).value, p)
  {
    var f := s.procs[p].father;
    var cs := s.procs[p].children;
    var s1 := s.(procs := s.procs[p := s.procs[p].(deallocated := true)]);
    ReleaseAllGrows(s1, p, cs);
    var s2 := ReleaseChildren(s1, p, cs).value;
    var s3 := WakeFather(s2, f, p).value;
    var t := SealOrphan(s3, f, p).value;
    assert Zombify(s, p) == Ok(t);
    hide Zombify, ReleaseChildren, WakeFather, Buried, Grown, SealOrphan;
    BuriedShape(s, s1, s2, s3, t, p, f);
  }

  /** Nobody can wait for `p`: it is the last to be sealed. */
  lemma ZombifySeals(s: Sys, p: int)
    requires Zombify(s, p).Ok? && p !in s.procs[p].children && !s.procs[p].sealed
    requires var f := s.procs[p].father; f == INIT || (Inert(s, f) && s.procs[f].state == Zombie)
    ensures var t := Zombify(s, p).value; t.procs[p].sealed && t.toDestroy != [] && t.toDestroy[|t.toDestroy| - 1] == p
  {
    hide Zombify, ReleaseChildren, WakeFather, SealOrphan, Grown, Dormant, RequestDestroy;
    var s1, s2, s3 := ZombifyParts(s, p);
    var f, cs := s.procs[p].father, s.procs[p].children;
    ReleaseOthers(s1, p, cs, p);
    WakingGrows(s2, f, p, p);
    if f != INIT {
      ChildrenReleased(s1, p, cs);
      FatherWoken(s2, f, p);
      InertKept(s1, s2, f);
      InertKept(s2, s3, f);
    }
    SealsNow(s3, f, p);
  }

  /** The states `zombify` goes through. */
  lemma ZombifyParts(s: Sys, p: int) returns (s1: Sys, s2: Sys, s3: Sys)
    requires Zombify(s, p).Ok?
    ensures p in s.procs && s.procs[p].father in s.procs
    ensures s1 == s.(procs := s.procs[p := s.procs[p].(deallocated := true)])
    ensures ReleaseChildren(s1, p, s.procs[p].children) == Ok(s2) && WakeFather(s2, s.procs[p].father, p) == Ok(s3)
    ensures Zombify(s, p) == SealOrphan(s3, s.procs[p].father, p)
    ensures s.procs[p].father in s2.procs && s.procs[p].father in s3.procs && p in s3.procs
  {
    hide ReleaseChildren, WakeFather, SealOrphan;
    s1 := s.(procs := s.procs[p := s.procs[p].(deallocated := true)]);
    s2 := ReleaseChildren(s1, p, s1.procs[p].children).value;
    s3 := WakeFather(s2, s.procs[p].father, p).value;
  }

  lemma InertKept(s: Sys, t: Sys, p: int)
    requires Dormant(s, t) && Inert(s, p) && p in t.procs
    ensures Inert(t, p) && t.procs[p].state == s.procs[p].state
  {}

  lemma SealsNow(s: Sys, f: int, p: int)
    requires f in s.procs && p in s.procs && !s.procs[p].sealed && (f == INIT || s.procs[f].state == Zombie)
    requires SealOrphan(s, f, p).Ok?
    ensures var t := SealOrphan(s, f, p).value;
            p in t.procs && t.procs[p].sealed && t.toDestroy != [] && t.toDestroy[|t.toDestroy| - 1] == p
  {}
}
