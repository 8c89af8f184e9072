/** `zombify` neither panics nor breaks the invariant when its process leaves no sealed child and, if it
    must be destroyed at once, no uncollected zombie. */
module ZombifyLemmas {
  import opened Lists
  import opened Outcomes
  import opened KernelState
  import opened Scheduler
  import opened Invariant
  import opened QueueLemmas
  import opened ReleaseLemmas

  // ----- the effect of zombify, slot by slot -----

  ghost predicate Wakes(procs: Table, p: int)
    requires p in procs && procs[p].father in procs
  {
    var f := procs[procs[p].father];
    f.state == BlockedByChild && !procs[p].sealed && (f.waitingCode < 0 || f.waitingCode == p)
  }

  ghost predicate Seals(procs: Table, p: int)
    requires p in procs && procs[p].father in procs
  {
    !procs[p].sealed && (procs[procs[p].father].state == Zombie || procs[p].father == INIT)
  }

  ghost predicate Corpse(procs: Table, p: int, q: int)
    requires p in procs && q in procs
  {
    q in procs[p].children && procs[q].deallocated
  }

  ghost predicate Orphan(procs: Table, p: int, q: int)
    requires p in procs && q in procs
  {
    q in procs[p].children && !procs[q].deallocated
  }

  ghost predicate Zombified(procs: Table, procs': Table, p: int) {
    && p in procs && procs[p].father in procs && INIT in procs
    && procs'.Keys == procs.Keys
    && (forall q :: q in procs ==>
                      var a, b := procs[q], procs'[q];
                      var woken := q == procs[p].father && Wakes(procs, p);
                      && b.prio == a.prio && b.cont == a.cont && b.sleepTime == a.sleepTime
                      && b.returnCode == a.returnCode
                      && b.state == (if woken then Waiting else a.state)
                      && b.waitingCode == (if woken then p else a.waitingCode)
                      && b.deallocated == (a.deallocated || q == p)
                      && b.sealed == (a.sealed || Corpse(procs, p, q) || (q == p && Seals(procs, p)))
                      && b.father == (if Orphan(procs, p, q) then INIT else a.father)
                      && (q != p && q != INIT ==> b.children == a.children))
    && NoDup(procs'[p].children) && NoDup(procs'[INIT].children)
    && (forall c :: c in procs'[p].children <==> c in procs[p].children && c in procs && procs[c].deallocated)
    && (forall c :: c in procs'[INIT].children <==>
                    c in procs[INIT].children || (c in procs[p].children && c in procs && !procs[c].deallocated))
  }

  /** What `zombify` of `p` needs of its children. */
  ghost predicate Zombifiable(procs: Table, p: int) {
    && p in procs && p != INIT && procs[p].father in procs
    && (forall c :: c in procs[p].children && c in procs && procs[c].deallocated ==>
                      !procs[c].sealed && procs[c].children == [])
    && (Seals(procs, p) ==> forall c :: c in procs[p].children && c in procs ==> !procs[c].deallocated)
  }

  lemma ZombifyEffect(s: Sys, p: int)
    requires ReadyOk(s.procs, s.ready) && StatesOk(s.procs, s.running)
    requires TreeOk(s.procs) && AllRooted(s.procs) && UncollectedOk(s.procs)
    requires p != s.running && Zombifiable(s.procs, p)
    requires s.procs[p].state == Zombie && !s.procs[p].deallocated
    ensures var r := Zombify(s, p);
            && r.Ok? && Zombified(s.procs, r.value.procs, p)
            && r.value == s.(procs := r.value.procs, ready := r.value.ready, toDestroy := r.value.toDestroy)
            && r.value.ready == (if Wakes(s.procs, p)
                                 then InsertReady(r.value.procs, s.ready, s.procs[p].father) else s.ready)
            && r.value.toDestroy == s.toDestroy + Corpses(s.procs, s.procs[p].children)
                                    + (if Seals(s.procs, p) then [p] else [])
  {
    hide ReadyOk, TreeOk, AllRooted, UncollectedOk, Zombified, ReleasedTo, Zombify, ReleaseChildren;
    hide WakeFather, SealOrphan, InsertReady, Corpses;
    var f := s.procs[p].father;
    OutsideFamily(s.procs, p);
    ChildrenIn(s.procs, p);
    var s1, s2 := ReleaseStep(s, p);
    var s3 := WakeStep(s, s2, p);
    var s4 := SealStep(s, s1, s2, s3, p);
    EffectShape(s.procs, s1.procs, s2.procs, s3.procs, s4.procs, p);
    if Wakes(s.procs, p) {
      SealSamePrios(s3.procs, s4.procs, p);
      InsertReadyFrame(s3.procs, s4.procs, s.ready, f);
    }
  }

  lemma ChildrenIn(procs: Table, p: int)
    requires TreeOk(procs) && Zombifiable(procs, p)
    ensures forall c :: c in procs[p].children ==> c in procs && (procs[c].deallocated ==> !procs[c].sealed)
  {}

  lemma SealSamePrios(procs: Table, procs': Table, p: int)
    requires procs' == procs || (p in procs && procs' == procs[p := procs[p].(sealed := true)])
    ensures forall q :: Prio(procs', q) == Prio(procs, q)
  {}

  /** The last step of `zombify`, and the whole. */
  lemma SealStep(s: Sys, s1: Sys, s2: Sys, s3: Sys, p: int) returns (s4: Sys)
    requires p in s.procs && INIT in s.procs && p != INIT && p != s.running && s.procs[p].father in s.procs
    requires s.procs[p].father != p
    requires s.procs[p].state == Zombie && !s.procs[p].deallocated && p !in s.procs[p].children
    requires s.procs[p].father !in s.procs[p].children
    requires s1 == s.(procs := s.procs[p := s.procs[p].(deallocated := true)])
    requires ReleaseChildren(s1, p, s.procs[p].children) == Ok(s2)
    requires ReleasedTo(s1.procs, s2.procs, p, s.procs[p].children)
    requires WakeFather(s2, s.procs[p].father, p) == Ok(s3)
    requires var f := s.procs[p].father;
             s3.procs == if Wakes(s.procs, p) then s2.procs[f := s2.procs[f].(waitingCode := p, state := Waiting)]
             else s2.procs
    ensures Zombify(s, p) == Ok(s4) && s2.procs.Keys == s.procs.Keys
    ensures s4 == s3.(procs := s4.procs, toDestroy := s3.toDestroy + (if Seals(s.procs, p) then [p] else []))
    ensures p in s3.procs
            && s4.procs == if Seals(s.procs, p) then s3.procs[p := s3.procs[p].(sealed := true)] else s3.procs
  {
    var f := s.procs[p].father;
    SealOthers(s1.procs, s2.procs, p, f, s.procs[p].children);
    hide ReleaseChildren, WakeFather, ReleasedTo;
    assert Zombify(s, p) == SealOrphan(s3, f, p);
    s4 := SealOrphan(s3, f, p).value;
  }

  lemma SealOthers(procs: Table, procs': Table, p: int, f: int, cs: seq<int>)
    requires p in procs && f in procs && INIT in procs && p !in cs && f !in cs && ReleasedTo(procs, procs', p, cs)
    ensures procs'.Keys == procs.Keys && procs'[p].state == procs[p].state && procs'[p].sealed == procs[p].sealed
    ensures procs'[f].state == procs[f].state && procs'[f].waitingCode == procs[f].waitingCode
  {}

  lemma OutsideFamily(procs: Table, p: int)
    requires TreeOk(procs) && AllRooted(procs) && p in procs && p != INIT
    ensures procs[p].father != p && procs[p].father !in procs[p].children
    ensures p !in procs[p].children && INIT !in procs[p].children
  {
    hide DistinctChildren, FatherLinks;
    var depth: map<int, nat> :| Ranked(procs, depth);
    NotInCircles(procs, depth, p);
  }

  lemma NotInCircles(procs: Table, depth: map<int, nat>, p: int)
    requires ChildLinks(procs) && Ranked(procs, depth) && p in procs && p != INIT
    ensures procs[p].father != p && procs[p].father !in procs[p].children
    ensures p !in procs[p].children && INIT !in procs[p].children
  {
    hide Depth;
    assert forall c :: c in procs[p].children ==> c != INIT && procs[c].father == p;
    var f := procs[p].father;
    assert Depth(depth, f) < Depth(depth, p);
  }

  lemma ReleaseStep(s: Sys, p: int) returns (s1: Sys, s2: Sys)
    requires TreeOk(s.procs) && INIT in s.procs && UncollectedOk(s.procs)
    requires Zombifiable(s.procs, p) && p !in s.procs[p].children && INIT !in s.procs[p].children
    ensures s1 == s.(procs := s.procs[p := s.procs[p].(deallocated := true)])
    ensures ReleaseChildren(s1, p, s.procs[p].children) == Ok(s2)
    ensures s2 == s.(procs := s2.procs, toDestroy := s.toDestroy + Corpses(s.procs, s.procs[p].children))
    ensures ReleasedTo(s1.procs, s2.procs, p, s.procs[p].children)
  {
    var cs := s.procs[p].children;
    hide TreeOk, UncollectedOk, Zombifiable, Releasable, ReleasedTo, ReleaseChildren, Corpses, Dead;
    s1 := s.(procs := s.procs[p := s.procs[p].(deallocated := true)]);
    ReleasableNow(s.procs, s1.procs, p);
    ReleaseChildrenOk(s1, p, cs);
    s2 := ReleaseChildren(s1, p, cs).value;
    CorpsesFrame(s.procs, s1.procs, cs);
  }

  lemma ReleasableNow(procs: Table, procs1: Table, p: int)
    requires TreeOk(procs) && INIT in procs && UncollectedOk(procs)
    requires Zombifiable(procs, p) && p !in procs[p].children && INIT !in procs[p].children
    requires procs1 == procs[p := procs[p].(deallocated := true)]
    ensures Releasable(procs1, p, procs[p].children)
    ensures forall c :: c in procs[p].children ==> Dead(procs1, c) == Dead(procs, c)
  {}

  lemma WakeStep(s: Sys, s2: Sys, p: int) returns (s3: Sys)
    requires ReadyOk(s.procs, s.ready) && p in s.procs && INIT in s.procs && p != INIT
    requires s.procs[p].father in s.procs && s.procs[p].father != p && s.procs[p].father !in s.procs[p].children
    requires p !in s.procs[p].children
    requires ReleasedTo(s.procs[p := s.procs[p].(deallocated := true)], s2.procs, p, s.procs[p].children)
    requires s2.ready == s.ready
    ensures WakeFather(s2, s.procs[p].father, p) == Ok(s3)
    ensures var f := s.procs[p].father;
            && s3 == s2.(procs := s3.procs, ready := s3.ready)
            && s3.procs == (if Wakes(s.procs, p)
                            then s2.procs[f := s2.procs[f].(waitingCode := p, state := Waiting)] else s2.procs)
            && s3.ready == (if Wakes(s.procs, p) then InsertReady(s3.procs, s.ready, f) else s.ready)
  {
    var f := s.procs[p].father;
    assert s2.procs[f].state == s.procs[f].state && s2.procs[f].waitingCode == s.procs[f].waitingCode;
    assert s2.procs[p].sealed == s.procs[p].sealed;
    s3 := WakeFather(s2, f, p).value;
  }

  /** Releasing the children leaves every other field of every slot alone. */
  lemma ReleasedFields(procs: Table, procs1: Table, procs2: Table, p: int)
    requires p in procs && p != INIT && INIT in procs && procs1 == procs[p := procs[p].(deallocated := true)]
    requires p !in procs[p].children && INIT !in procs[p].children && ReleasedTo(procs1, procs2, p, procs[p].children)
    requires forall c :: c in procs[p].children ==> c in procs && (procs[c].deallocated ==> !procs[c].sealed)
    ensures procs2.Keys == procs.Keys
    ensures forall q :: q in procs ==>
                          var a, b := procs[q], procs2[q];
                          && b.prio == a.prio && b.cont == a.cont && b.sleepTime == a.sleepTime
                          && b.returnCode == a.returnCode
                          && b.state == a.state && b.waitingCode == a.waitingCode
                          && b.deallocated == (a.deallocated || q == p)
                          && b.sealed == (a.sealed || Corpse(procs, p, q))
                          && b.father == (if Orphan(procs, p, q) then INIT else a.father)
                          && (q != p && q != INIT ==> b.children == a.children)
  {}

  lemma EffectShape(procs: Table, procs1: Table, procs2: Table, procs3: Table, procs4: Table, p: int)
    requires p in procs && p != INIT && INIT in procs && procs[p].father in procs && procs[p].father != p
    requires p !in procs[p].children && INIT !in procs[p].children && procs[p].father !in procs[p].children
    requires procs1 == procs[p := procs[p].(deallocated := true)]
    requires ReleasedTo(procs1, procs2, p, procs[p].children)
    requires procs2.Keys == procs.Keys
    requires procs3 == if Wakes(procs, p)
                       then procs2[procs[p].father := procs2[procs[p].father].(waitingCode := p, state := Waiting)]
                       else procs2
    requires procs4 == if Seals(procs, p) then procs3[p := procs3[p].(sealed := true)] else procs3
    requires forall c :: c in procs[p].children ==> c in procs && (procs[c].deallocated ==> !procs[c].sealed)
    ensures Zombified(procs, procs4, p)
  {
    hide ReleasedTo;
    ReleasedFields(procs, procs1, procs2, p);
    ReleasedLists(procs, procs1, procs2, p);
  }

  lemma ReleasedLists(procs: Table, procs1: Table, procs2: Table, p: int)
    requires p in procs && p != INIT && INIT in procs && procs1 == procs[p := procs[p].(deallocated := true)]
    requires p !in procs[p].children && ReleasedTo(procs1, procs2, p, procs[p].children)
    requires forall c :: c in procs[p].children ==> c in procs
    ensures p in procs2 && INIT in procs2 && NoDup(procs2[p].children) && NoDup(procs2[INIT].children)
    ensures forall c :: c in procs2[p].children <==> c in procs[p].children && c in procs && procs[c].deallocated
    ensures forall c :: c in procs2[INIT].children <==>
                        c in procs[INIT].children || (c in procs[p].children && c in procs && !procs[c].deallocated)
  {}
}
