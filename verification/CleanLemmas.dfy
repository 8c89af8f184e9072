/** `clean_processes` empties both work lists, but for the running process. */
module CleanLemmas {
  import opened Lists
  import opened Outcomes
  import opened KernelState
  import opened Scheduler
  import opened Invariant
  import opened ZombifyLemmas
  import opened ZombifyInv
  import D = DestroyLemmas

  /** A running process that has just blocked in `waitpid` does not wait for a pending zombie. */
  ghost predicate NotAwaitingPending(procs: Table, running: int, toZombify: seq<int>) {
    running in procs && procs[running].state == BlockedByChild ==>
      forall p :: p in toZombify && p in procs && procs[p].father == running && !procs[p].sealed ==>
                    procs[running].waitingCode >= 0 && procs[running].waitingCode != p
  }

  /** Inside `schedule`: the running process is neither ready nor dead, and not to be destroyed. */
  ghost predicate InSchedule(s: Sys) {
    && Core(s)
    && s.procs[s.running].state != Waiting
    && !s.procs[s.running].deallocated && s.running !in s.toDestroy
    && NotAwaitingPending(s.procs, s.running, s.toZombify)
  }

  /** `zombify` of `p` would ask for its destruction right after that of an uncollected child. */
  ghost predicate Clashes(procs: Table, p: int) {
    p in procs && procs[p].father in procs && Seals(procs, p) && HasCorpse(procs, p)
  }

  /** Only children of the running process are sealed. */
  ghost predicate SealedByRunning(s: Sys) {
    forall c :: c in s.toDestroy && c in s.procs ==> s.procs[c].father == s.running
  }

  lemma ChildlessCorpse(procs: Table, toDestroy: seq<int>, running: int, c: int)
    requires UncollectedOk(procs) && SealedOk(procs, toDestroy) && ChildLinks(procs)
    requires c in procs && procs[c].deallocated && c != running
    requires forall d :: d in toDestroy && d in procs ==> procs[d].father == running
    ensures procs[c].children == []
  {
    assert forall d :: d in toDestroy ==> d !in procs[c].children;
    assert forall d :: d in procs[c].children ==> d in toDestroy;
    assert forall d :: d !in procs[c].children;
    MemberIfNonEmpty(procs[c].children);
  }

  lemma ZombifiableIfNoClash(s: Sys, p: int)
    requires InSchedule(s) && SealedByRunning(s) && p in s.toZombify && p != s.running && !Clashes(s.procs, p)
    ensures Zombifiable(s.procs, p)
  {
    var procs := s.procs;
    assert procs[p].father in procs;
    forall c | c in procs[p].children && c in procs && procs[c].deallocated
      ensures !procs[c].sealed && procs[c].children == []
    {
      assert procs[c].father == p;
      ChildlessCorpse(procs, s.toDestroy, s.running, c);
    }
  }

  lemma ZombifyInSchedule(s: Sys, p: int, rest: seq<int>)
    requires InSchedule(s) && Popped(s.toZombify, p, rest) && p != s.running && Zombifiable(s.procs, p)
    ensures var r := Zombify(s.(toZombify := rest), p);
            && r.Ok? && InSchedule(r.value) && Zombified(s.procs, r.value.procs, p)
            && r.value == s.(procs := r.value.procs, ready := r.value.ready, toDestroy := r.value.toDestroy,
                          toZombify := rest)
  {
    ZombifyKeepsCore(s, p, rest);
    var t := Zombify(s.(toZombify := rest), p).value;
    var a, b := s.procs[s.running], t.procs[s.running];
    assert !Wakes(s.procs, p) || s.procs[p].father != s.running;
    assert b.state == a.state;
    assert !t.procs[s.running].sealed by {
      assert !Corpse(s.procs, p, s.running);
    }
  }

  ghost predicate AllDeallocated(procs: Table, toDestroy: seq<int>) {
    forall p :: p in toDestroy && p in procs ==> procs[p].deallocated
  }

  lemma {:induction false} DestroyAllOk(s: Sys)
    requires InSchedule(s) && AllDeallocated(s.procs, s.toDestroy)
    ensures var r := DestroyAll(s);
            && r.Ok? && InSchedule(r.value) && r.value.toDestroy == []
            && r.value == s.(procs := r.value.procs, free := r.value.free, toDestroy := [])
            && Reaped(s.procs, r.value.procs)
    decreases |s.toDestroy|
  {
    NothingReaped(s.procs);
    hide InSchedule, Reaped;
    if s.toDestroy != [] {
      var p := s.toDestroy[|s.toDestroy| - 1];
      assert p in s.toDestroy;
      DestroyInSchedule(s);
      var t := Destroy(s.(toDestroy := s.toDestroy[..|s.toDestroy| - 1]), p).value;
      DestroyAllOk(t);
      var u := DestroyAll(t).value;
      ReapedTwice(s.procs, t.procs, u.procs);
      assert DestroyAll(s) == Ok(u);
    }
  }

  lemma DestroyTurn(s: Sys)
    requires InSchedule(s) && s.toDestroy != []
    ensures var n := |s.toDestroy| - 1; var r := Destroy(s.(toDestroy := s.toDestroy[..n]), s.toDestroy[n]);
            r.Ok? ==> DestroyAll(s) == DestroyAll(r.value)
  {
    hide Destroy, Core;
    assert s.toDestroy[|s.toDestroy| - 1] in s.toDestroy;
  }

  /** The pids are freed from the last to the first. */
  lemma {:induction false} DestroyOrder(s: Sys)
    requires InSchedule(s) && AllDeallocated(s.procs, s.toDestroy)
    ensures DestroyAll(s).Ok? && DestroyAll(s).value.free == s.free + Backwards(s.toDestroy)
    decreases |s.toDestroy|
  {
    hide InSchedule, AllDeallocated, Reaped;
    if s.toDestroy != [] {
      var n := |s.toDestroy| - 1;
      DestroyInSchedule(s);
      DestroyTurn(s);
      var t := Destroy(s.(toDestroy := s.toDestroy[..n]), s.toDestroy[n]).value;
      hide Destroy, DestroyAll;
      DestroyOrder(t);
      Associates(s.free, [s.toDestroy[n]], Backwards(t.toDestroy));
    }
  }

  lemma DestroyInSchedule(s: Sys)
    requires InSchedule(s) && AllDeallocated(s.procs, s.toDestroy)
    requires s.toDestroy != []
    ensures var n := |s.toDestroy| - 1;
            var r := Destroy(s.(toDestroy := s.toDestroy[..n]), s.toDestroy[n]);
            && r.Ok? && InSchedule(r.value) && Reaped(s.procs, r.value.procs)
            && AllDeallocated(r.value.procs, r.value.toDestroy)
            && r.value == s.(procs := r.value.procs, free := s.free + [s.toDestroy[n]], toDestroy := s.toDestroy[..n])
  {
    var n := |s.toDestroy| - 1;
    var p := s.toDestroy[n];
    assert p in s.toDestroy;
    D.DestroyKeepsCore(s, p);
    var t := Destroy(s.(toDestroy := s.toDestroy[..n]), p).value;
    assert forall q :: q in t.toDestroy ==> q in s.toDestroy && q in t.procs;
    DestroyedIsReaped(s.procs, t.procs, p);
  }

  lemma DestroyedIsReaped(procs: Table, procs': Table, p: int)
    requires D.Destroyed(procs, procs', p) && procs[p].sealed
    ensures Reaped(procs, procs')
  {}

  lemma NothingReaped(procs: Table)
    ensures Reaped(procs, procs)
  {}

  lemma ReapedTwice(procs: Table, procs1: Table, procs2: Table)
    requires Reaped(procs, procs1) && Reaped(procs1, procs2)
    ensures Reaped(procs, procs2)
  {}

  /** Sealed processes are gone, the others keep everything but their dead children. */
  ghost predicate Reaped(procs: Table, procs': Table) {
    && procs'.Keys <= procs.Keys
    && (forall q :: q in procs ==> q in procs' || procs[q].sealed)
    && (forall q :: q in procs' ==>
                      var a, b := procs[q], procs'[q];
                      && b.father == a.father && b.state == a.state && b.prio == a.prio && b.cont == a.cont
                      && b.returnCode == a.returnCode && b.waitingCode == a.waitingCode && b.sleepTime == a.sleepTime
                      && b.deallocated == a.deallocated && b.sealed == a.sealed)
    && (forall q, c :: q in procs' && c in procs'[q].children ==> c in procs[q].children)
  }

  // ----- the order of the two loops -----

  /** The processes a loop of `clean_processes` treats, first to last. */
  function Treated(pending: seq<int>, running: int): seq<int>
    decreases |pending|
  {
    if NothingPending(pending, running) then []
    else [NextPending(pending, running).0] + Treated(NextPending(pending, running).1, running)
  }

  function Backwards(s: seq<int>): seq<int> {
    if s == [] then [] else [s[|s| - 1]] + Backwards(s[..|s| - 1])
  }

  lemma TreatLast(pending: seq<int>, running: int)
    requires pending != [] && pending[|pending| - 1] != running
    ensures Treated(pending, running) == [pending[|pending| - 1]] + Treated(pending[..|pending| - 1], running)
  {}

  lemma TreatFirst(pending: seq<int>, running: int)
    requires |pending| > 1 && pending[|pending| - 1] == running != 0
    ensures Treated(pending, running) == [pending[0]] + Treated([running] + pending[1..|pending| - 1], running)
  {
    assert pending[0 := running][..|pending| - 1] == [running] + pending[1..|pending| - 1];
  }

  lemma BackwardsFromLast(s: seq<int>)
    requires s != []
    ensures Backwards(s) == [s[|s| - 1]] + Backwards(s[..|s| - 1])
  {}

  lemma WithoutLast(pending: seq<int>, i: nat)
    requires i < |pending| - 1
    ensures var n := |pending| - 1; var rest, behind := pending[..n], pending[i + 1..];
            && behind[..|behind| - 1] == rest[i + 1..] && behind[|behind| - 1] == pending[n] && rest[..i] == pending[..i]
            && (i > 0 ==> rest[1..i] == pending[1..i] && rest[0] == pending[0])
            && pending[n] in behind && forall x :: x in rest[i + 1..] ==> x in behind
  {
    var behind := pending[i + 1..];
    assert behind[|behind| - 1] == pending[|pending| - 1];
  }

  /** From the last to the first, when the running process is not among them. */
  lemma {:induction false} TreatedOthers(pending: seq<int>, running: int)
    requires running !in pending
    ensures Treated(pending, running) == Backwards(pending)
    decreases |pending|
  {
    if pending != [] { TreatedOthers(pending[..|pending| - 1], running); }
  }

  /** The running process is left for later: those behind it are treated from the last on, then the first
      of all, and then those in between, backwards again. */
  lemma {:induction false} TreatedAround(pending: seq<int>, running: int, i: nat)
    requires i < |pending| && pending[i] == running && running != 0
    requires running !in pending[..i] && running !in pending[i + 1..]
    ensures Treated(pending, running) ==
            Backwards(pending[i + 1..]) + if i == 0 then [] else [pending[0]] + Backwards(pending[1..i])
    decreases |pending|, i
  {
    var n := |pending| - 1;
    if i < n {
      WithoutLast(pending, i);
      TreatLast(pending, running);
      BackwardsFromLast(pending[i + 1..]);
      hide Treated, Backwards;
      TreatedAround(pending[..n], running, i);
    } else if n > 0 {
      var rest := [running] + pending[1..n];
      assert pending[..i][1..] == pending[1..n];
      TreatFirst(pending, running);
      hide Treated;
      TreatedAround(rest, running, 0);
      assert rest[1..] == pending[1..n];
    }
  }
}
