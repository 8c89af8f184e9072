/** What the loop of `zombify` over the children of a dead process does. */
module ReleaseLemmas {
  import opened Lists
  import opened Outcomes
  import opened KernelState
  import opened Scheduler
  import opened Invariant

  predicate Dead(procs: Table, c: int) { c in procs && procs[c].deallocated }

  function One(procs: Table, c: int): seq<int> { if Dead(procs, c) then [c] else [] }

  function Corpses(procs: Table, cs: seq<int>): seq<int> {
    if cs == [] then [] else One(procs, cs[0]) + Corpses(procs, cs[1..])
  }

  lemma {:induction false} CorpsesOk(procs: Table, cs: seq<int>)
    ensures forall c :: c in Corpses(procs, cs) <==> c in cs && Dead(procs, c)
    ensures NoDup(cs) ==> NoDup(Corpses(procs, cs))
  {
    if cs != [] {
      CorpsesOk(procs, cs[1..]);
      assert forall c :: c in cs <==> c == cs[0] || c in cs[1..];
      if NoDup(cs) {
        assert cs[0] !in cs[1..];
      }
    }
  }

  lemma {:induction false} CorpsesFrame(procs: Table, procs': Table, cs: seq<int>)
    requires forall c :: c in cs ==> Dead(procs, c) == Dead(procs', c)
    ensures Corpses(procs, cs) == Corpses(procs', cs)
  {
    if cs != [] {
      assert cs[0] in cs && forall c :: c in cs[1..] ==> c in cs;
      CorpsesFrame(procs, procs', cs[1..]);
    }
  }

  /** The children `cs` of `p` are distinct, in the table, and none of the dead ones is sealed. */
  ghost predicate Releasable(procs: Table, p: int, cs: seq<int>) {
    && p in procs && INIT in procs && p != INIT && NoDup(cs)
    && NoDup(procs[p].children) && NoDup(procs[INIT].children)
    && (forall c :: c in cs ==>
                      && c in procs && c != p && c != INIT && c in procs[p].children && c !in procs[INIT].children
                      && (procs[c].deallocated ==> !procs[c].sealed && procs[c].state == Zombie))
  }

  /** Dead children are sealed, the others go to pid 1. */
  ghost predicate ReleasedTo(procs: Table, procs': Table, p: int, cs: seq<int>)
    requires p in procs && INIT in procs
  {
    && procs'.Keys == procs.Keys
    && (forall q :: q in procs && q !in cs && q != p && q != INIT ==> procs'[q] == procs[q])
    && (forall c :: c in cs && c in procs ==>
                      procs'[c] == if procs[c].deallocated then procs[c].(sealed := true)
                      else procs[c].(father := INIT))
    && procs'[p] == procs[p].(children := procs'[p].children)
    && procs'[INIT] == procs[INIT].(children := procs'[INIT].children)
    && NoDup(procs'[p].children) && NoDup(procs'[INIT].children)
    && (forall c :: c in procs'[p].children <==>
                    c in procs[p].children && !(c in cs && c in procs && !procs[c].deallocated))
    && (forall c :: c in procs'[INIT].children <==>
                    c in procs[INIT].children || (c in cs && c in procs && !procs[c].deallocated))
  }

  lemma ReleaseCorpse(s: Sys, p: int, c: int)
    requires Releasable(s.procs, p, [c]) && s.procs[c].deallocated
    ensures var r := ReleaseChild(s, p, c);
            && r.Ok? && ReleasedTo(s.procs, r.value.procs, p, [c])
            && r.value == s.(procs := r.value.procs, toDestroy := s.toDestroy + [c])
  {
    assert c in [c];
  }

  lemma ReleaseOrphan(s: Sys, p: int, c: int)
    requires Releasable(s.procs, p, [c]) && !s.procs[c].deallocated
    ensures var r := ReleaseChild(s, p, c);
            && r.Ok? && ReleasedTo(s.procs, r.value.procs, p, [c])
            && r.value == s.(procs := r.value.procs)
  {
    assert c in [c];
    RemoveNoDup(s.procs[p].children, c);
    var s1 := ReleaseChild(s, p, c).value;
    assert s1.procs[p].children == Remove(s.procs[p].children, c);
    assert s1.procs[INIT].children == [c] + s.procs[INIT].children;
    assert s1.procs[c] == s.procs[c].(father := INIT);
  }

  lemma ReleaseChildOk(s: Sys, p: int, cs: seq<int>)
    requires cs != [] && Releasable(s.procs, p, cs)
    ensures var r := ReleaseChild(s, p, cs[0]);
            && r.Ok?
            && r.value == s.(procs := r.value.procs, toDestroy := s.toDestroy + One(s.procs, cs[0]))
            && ReleasedTo(s.procs, r.value.procs, p, [cs[0]])
            && Releasable(r.value.procs, p, cs[1..])
    ensures p in s.procs && INIT in s.procs && p != INIT && cs[0] !in cs[1..] && p !in cs && INIT !in cs
  {
    var c := cs[0];
    assert c in cs && c !in cs[1..];
    assert forall x :: x in cs[1..] ==> x in cs;
    if s.procs[c].deallocated {
      ReleaseCorpse(s, p, c);
    } else {
      ReleaseOrphan(s, p, c);
    }
  }

  /** Releasing `[c]` and then `cs` is releasing `[c] + cs`. */
  lemma ReleasedInTwo(procs: Table, procs1: Table, procs2: Table, p: int, c: int, cs: seq<int>)
    requires p in procs && INIT in procs && p != INIT && c != p && c != INIT && c !in cs && p !in cs && INIT !in cs
    requires ReleasedTo(procs, procs1, p, [c]) && ReleasedTo(procs1, procs2, p, cs)
    ensures ReleasedTo(procs, procs2, p, [c] + cs)
  {
    assert forall x :: x in [c] + cs <==> x == c || x in cs;
    assert forall x :: x in cs && x in procs ==> procs1[x] == procs[x];
  }

  lemma CorpsesInTwo(procs: Table, procs1: Table, p: int, cs: seq<int>)
    requires cs != [] && p in procs && INIT in procs && p != INIT
    requires cs[0] !in cs[1..] && p !in cs && INIT !in cs && ReleasedTo(procs, procs1, p, [cs[0]])
    ensures Corpses(procs, cs) == One(procs, cs[0]) + Corpses(procs1, cs[1..])
  {
    var rest := cs[1..];
    forall x | x in rest ensures Dead(procs, x) == Dead(procs1, x) {
      assert x in cs && x !in [cs[0]];
    }
    hide ReleasedTo;
    CorpsesFrame(procs, procs1, rest);
  }

  lemma {:induction false} ReleaseChildrenOk(s: Sys, p: int, cs: seq<int>)
    requires Releasable(s.procs, p, cs)
    ensures var r := ReleaseChildren(s, p, cs);
            && r.Ok?
            && r.value == s.(procs := r.value.procs, toDestroy := s.toDestroy + Corpses(s.procs, cs))
            && ReleasedTo(s.procs, r.value.procs, p, cs)
    decreases |cs|, 1
  {
    if cs == [] {
      assert s.toDestroy == s.toDestroy + Corpses(s.procs, cs);
    } else {
      ReleaseRest(s, p, cs);
    }
  }

  lemma {:induction false} ReleaseRest(s: Sys, p: int, cs: seq<int>)
    requires Releasable(s.procs, p, cs) && cs != []
    ensures var r := ReleaseChildren(s, p, cs);
            && r.Ok?
            && r.value == s.(procs := r.value.procs, toDestroy := s.toDestroy + Corpses(s.procs, cs))
            && p in s.procs && INIT in s.procs && ReleasedTo(s.procs, r.value.procs, p, cs)
    decreases |cs|, 0
  {
    hide Releasable, ReleasedTo, One, Corpses, NoDup, SameTables, ReleaseChild;
    ReleaseChildOk(s, p, cs);
    var s1 := ReleaseChild(s, p, cs[0]).value;
    ReleaseChildrenOk(s1, p, cs[1..]);
    var s2 := ReleaseChildren(s1, p, cs[1..]).value;
    assert ReleaseChildren(s, p, cs) == Ok(s2);
    hide ReleaseChildren;
    assert cs == [cs[0]] + cs[1..];
    ReleasedInTwo(s.procs, s1.procs, s2.procs, p, cs[0], cs[1..]);
    CorpsesInTwo(s.procs, s1.procs, p, cs);
  }
}
