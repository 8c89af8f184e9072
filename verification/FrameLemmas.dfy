/** Parts of the invariant that a change of states, priorities or continuations leaves alone. */
module FrameLemmas {
  import opened KernelState
  import opened Invariant

  /** Same processes, same family links. */
  ghost predicate SameLinks(procs: Table, procs': Table) {
    && procs'.Keys == procs.Keys
    && (forall q :: q in procs ==>
                      var a, b := procs[q], procs'[q];
                      b.father == a.father && b.children == a.children)
  }

  /** ... and same progress towards destruction. */
  ghost predicate SameFamily(procs: Table, procs': Table) {
    && procs'.Keys == procs.Keys
    && (forall q :: q in procs ==>
                      var a, b := procs[q], procs'[q];
                      && b.father == a.father && b.children == a.children
                      && b.deallocated == a.deallocated && b.sealed == a.sealed && b.returnCode == a.returnCode
                      && (b.state == Zombie <==> a.state == Zombie))
  }

  lemma LinksChildLinks(procs: Table, procs': Table)
    requires ChildLinks(procs) && DistinctChildren(procs) && SameLinks(procs, procs')
    ensures ChildLinks(procs') && DistinctChildren(procs')
  {
    forall q, c | q in procs' && c in procs'[q].children
      ensures c in procs' && procs'[c].father == q && c != INIT
    {
      assert c in procs[q].children;
      var a, b := procs[c], procs'[c];
      assert a.father == b.father;
    }
  }

  lemma LinksFatherLinks(procs: Table, procs': Table)
    requires FatherLinks(procs) && SameLinks(procs, procs')
    ensures FatherLinks(procs')
  {
    forall c | c in procs' && c != INIT
      ensures procs'[c].father in procs' && c in procs'[procs'[c].father].children
    {
      var a, b := procs[c], procs'[c];
      assert a.father == b.father && c in procs[a.father].children;
    }
  }

  lemma LinksTree(procs: Table, procs': Table)
    requires TreeOk(procs) && SameLinks(procs, procs')
    ensures TreeOk(procs')
  {
    hide DistinctChildren, ChildLinks, FatherLinks, SameLinks;
    LinksChildLinks(procs, procs');
    LinksFatherLinks(procs, procs');
  }

  lemma LinksAllRooted(procs: Table, procs': Table)
    requires AllRooted(procs) && SameLinks(procs, procs')
    ensures AllRooted(procs')
  {
    var depth: map<int, nat> :| Ranked(procs, depth);
    forall q | q in procs' && q != INIT ensures Depth(depth, procs'[q].father) < Depth(depth, q) {
      var a, b := procs[q], procs'[q];
      assert a.father == b.father;
    }
    assert Ranked(procs', depth);
  }

  lemma FamilyLinks(procs: Table, procs': Table)
    requires SameFamily(procs, procs')
    ensures SameLinks(procs, procs')
  {}

  lemma FamilyLife(procs: Table, procs': Table, toZombify: seq<int>, toDestroy: seq<int>)
    requires LifeOk(procs, toZombify, toDestroy) && SameFamily(procs, procs')
    ensures LifeOk(procs', toZombify, toDestroy)
  {
    assert PendingOk(procs', toZombify);
    assert SealedOk(procs', toDestroy);
    forall p | p in procs' && procs'[p].deallocated && !procs'[p].sealed
      ensures procs'[p].father != INIT && procs'[p].father in procs' && !procs'[procs'[p].father].deallocated
    {
      var a, b := procs[p], procs'[p];
      assert a.father == b.father;
    }
  }

  lemma LinksChildrenLast(procs: Table, procs': Table, toDestroy: seq<int>)
    requires ChildrenLast(procs, toDestroy) && SameLinks(procs, procs')
    ensures ChildrenLast(procs', toDestroy)
  {
    forall i, j | 0 <= i < j < |toDestroy| && toDestroy[i] in procs'
      ensures procs'[toDestroy[i]].father != toDestroy[j]
    {
      var x := toDestroy[i];
      var a, b := procs[x], procs'[x];
      assert a.father == b.father;
    }
  }

  lemma FamilyCorpse(procs: Table, procs': Table, p: int)
    requires SameFamily(procs, procs')
    ensures HasCorpse(procs, p) <==> HasCorpse(procs', p)
  {
    assert SameMarks(procs, procs');
    hide SameFamily, SameMarks, HasCorpse;
    MarksCorpse(procs, procs', p);
  }

  lemma FamilyUndoomed(procs: Table, procs': Table, toZombify: seq<int>)
    requires Undoomed(procs, toZombify) && SameFamily(procs, procs')
    ensures Undoomed(procs', toZombify)
  {
    forall p | p in toZombify && p in procs' && !procs'[p].sealed && procs'[p].father == INIT
      ensures !HasCorpse(procs', p)
    {
      FamilyCorpse(procs, procs', p);
    }
  }

  /** Same processes, links and marks of death; a state may have become a zombie. */
  ghost predicate SameMarks(procs: Table, procs': Table) {
    && procs'.Keys == procs.Keys
    && (forall q :: q in procs ==>
                      var a, b := procs[q], procs'[q];
                      && b.father == a.father && b.children == a.children
                      && b.deallocated == a.deallocated && b.sealed == a.sealed)
  }

  /** The wait of `f` depends on its own fields and on the marks only. */
  lemma MarksWait(procs: Table, procs': Table, f: int)
    requires SameMarks(procs, procs') && f in procs && WaitOk(procs, f)
    requires procs'[f].cont == procs[f].cont && procs'[f].waitingCode == procs[f].waitingCode
    requires procs'[f].state == procs[f].state ||
             (procs'[f].state in {Waiting, Running} && procs[f].state in {Waiting, Running})
    ensures WaitOk(procs', f)
  {
    var a, b := procs[f], procs'[f];
    if a.state == BlockedByChild {
      if a.cont.target >= 0 {
        assert Awaited(procs, f, a.cont.target);
        assert Awaited(procs', f, a.cont.target);
      } else {
        var c :| Awaited(procs, f, c);
        assert Awaited(procs', f, c);
      }
    } else if a.state in {Waiting, Running} && a.cont.InWait? {
      assert Collectable(procs, f, a.waitingCode);
      assert Collectable(procs', f, a.waitingCode);
    }
  }

  lemma FamilyWait(procs: Table, procs': Table, f: int)
    requires SameFamily(procs, procs') && f in procs && WaitOk(procs, f)
    requires procs'[f].cont == procs[f].cont && procs'[f].waitingCode == procs[f].waitingCode
    requires procs'[f].state == procs[f].state ||
             (procs'[f].state in {Waiting, Running} && procs[f].state in {Waiting, Running})
    ensures WaitOk(procs', f)
  {
    assert SameMarks(procs, procs');
    hide SameFamily, WaitOk, SameMarks;
    MarksWait(procs, procs', f);
  }

  lemma MarksCorpse(procs: Table, procs': Table, p: int)
    requires SameMarks(procs, procs')
    ensures HasCorpse(procs, p) <==> HasCorpse(procs', p)
  {
    if HasCorpse(procs, p) {
      var c :| c in procs[p].children && c in procs && procs[c].deallocated && !procs[c].sealed;
      assert c in procs'[p].children;
    }
    if HasCorpse(procs', p) {
      var c :| c in procs'[p].children && c in procs' && procs'[c].deallocated && !procs'[c].sealed;
      assert c in procs[p].children;
    }
  }

  /** What the family links give: everything in `Core` that is not about queues and states. */
  ghost predicate FamilyCore(s: Sys) {
    && TreeOk(s.procs) && AllRooted(s.procs)
    && LifeOk(s.procs, s.toZombify, s.toDestroy) && ChildrenLast(s.procs, s.toDestroy)
  }

  lemma KeepsFamilyCore(s: Sys, t: Sys)
    requires FamilyCore(s) && SameFamily(s.procs, t.procs)
    requires t.toZombify == s.toZombify && t.toDestroy == s.toDestroy
    ensures FamilyCore(t)
  {
    hide TreeOk, AllRooted, LifeOk, ChildrenLast, SameFamily, SameLinks;
    FamilyLinks(s.procs, t.procs);
    LinksTree(s.procs, t.procs);
    LinksAllRooted(s.procs, t.procs);
    FamilyLife(s.procs, t.procs, s.toZombify, s.toDestroy);
    LinksChildrenLast(s.procs, t.procs, s.toDestroy);
  }
}
