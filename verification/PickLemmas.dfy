/** Choosing the next process: the one that runs is one of the highest priority. */
module PickLemmas {
  import opened Lists
  import opened KernelState
  import opened Scheduler
  import opened Invariant
  import opened QueueLemmas
  import opened FrameLemmas

  /** `c` runs, and `cur` waits if it could have gone on. */
  ghost predicate Switched(procs: Table, procs': Table, cur: int, c: int) {
    && c in procs && cur in procs && c != cur
    && procs'.Keys == procs.Keys
    && (forall q :: q in procs ==>
                      var a, b := procs[q], procs'[q];
                      && b == a.(state := b.state)
                      && b.state == (if q == c then Running
                                     else if q == cur && a.state == Running then Waiting else a.state))
  }

  lemma SwitchEffect(s: Sys)
    requires ReadyOk(s.procs, s.ready) && StatesOk(s.procs, s.running)
    requires s.ready != [] && s.procs[s.running].state != Waiting
    ensures var c := s.ready[|s.ready| - 1];
            var r := Switch(s, c);
            && r.Ok? && Switched(s.procs, r.value.procs, s.running, c)
            && r.value == s.(procs := r.value.procs, ready := r.value.ready, running := c)
            && r.value.ready == (if s.procs[s.running].state == Running
                                 then InsertReady(r.value.procs, s.ready[..|s.ready| - 1], s.running)
                                 else s.ready[..|s.ready| - 1])
  {
    var c := s.ready[|s.ready| - 1];
    assert c in s.ready;
    assert s.running !in s.ready;
    assert s.running !in s.ready[..|s.ready| - 1];
    hide SortedReady, NoDup, InsertReady;
    var t := Switch(s, c).value;
    assert t.procs[c] == s.procs[c].(state := Running);
  }

  lemma SwitchReady(procs: Table, procs': Table, ready: seq<int>, ready': seq<int>, cur: int)
    requires ReadyOk(procs, ready) && ready != [] && cur in procs && procs[cur].state != Waiting
    requires Switched(procs, procs', cur, ready[|ready| - 1])
    requires ready' == if procs[cur].state == Running then InsertReady(procs', ready[..|ready| - 1], cur)
                       else ready[..|ready| - 1]
    ensures ReadyOk(procs', ready')
  {
    hide InsertReady, SortedReady, NoDup, Switched;
    var c, rest := ready[|ready| - 1], ready[..|ready| - 1];
    RestReady(procs, ready, rest, c);
    SwitchedFacts(procs, procs', cur, c);
    SameSorted(procs, procs', rest);
    if procs[cur].state == Running {
      InsertReadyOk(procs', rest, cur);
    }
  }

  lemma RestReady(procs: Table, ready: seq<int>, rest: seq<int>, c: int)
    requires NoDup(ready) && SortedReady(procs, ready) && ready != [] && c == ready[|ready| - 1]
    requires rest == ready[..|ready| - 1]
    ensures NoDup(rest) && SortedReady(procs, rest) && c !in rest && forall q :: q in ready <==> q in rest || q == c
  {
    assert ready == rest + [c];
  }

  lemma SwitchedFacts(procs: Table, procs': Table, cur: int, c: int)
    requires Switched(procs, procs', cur, c)
    ensures procs'.Keys == procs.Keys && c in procs && cur in procs && c != cur
            && forall q :: Prio(procs', q) == Prio(procs, q)
    ensures forall q :: q in procs ==>
                          procs'[q].state == if q == c then Running
                          else if q == cur && procs[q].state == Running then Waiting
                          else procs[q].state
  {}

  lemma SameSorted(procs: Table, procs': Table, l: seq<int>)
    requires SortedReady(procs, l) && forall q :: Prio(procs', q) == Prio(procs, q)
    ensures SortedReady(procs', l)
  {}

  lemma SwitchQueues(procs: Table, procs': Table, queues: map<int, Queue>, cur: int, c: int)
    requires QueuesOk(procs, queues) && Switched(procs, procs', cur, c) && procs[c].state == Waiting
    ensures QueuesOk(procs', queues)
  {
    forall f | f in queues ensures QueueOk(procs', f, queues[f]) {
      assert QueueOk(procs, f, queues[f]);
      forall i | 0 <= i < |queues[f].locked| ensures NodeOk(procs', f, queues[f].locked[i]) {
        assert NodeOk(procs, f, queues[f].locked[i]);
      }
    }
  }

  lemma SwitchWaits(procs: Table, procs': Table, cur: int, c: int)
    requires WaitsOk(procs) && Switched(procs, procs', cur, c) && procs[c].state == Waiting
    ensures WaitsOk(procs')
  {
    assert SameFamily(procs, procs');
    forall f | f in procs' ensures WaitOk(procs', f) {
      assert WaitOk(procs, f);
      FamilyWait(procs, procs', f);
    }
  }

  lemma SwitchSleep(procs: Table, procs': Table, sleepers: seq<int>, cur: int, c: int)
    requires SleepOk(procs, sleepers) && Switched(procs, procs', cur, c) && procs[c].state == Waiting
    ensures SleepOk(procs', sleepers)
  {}

  lemma SwitchStates(procs: Table, procs': Table, cur: int, c: int)
    requires StatesOk(procs, cur) && Switched(procs, procs', cur, c) && procs[c].state == Waiting
    ensures StatesOk(procs', c)
  {}

  lemma SwitchFamily(procs: Table, procs': Table, cur: int, c: int)
    requires Switched(procs, procs', cur, c) && procs[c].state == Waiting
    ensures SameFamily(procs, procs')
  {}

  lemma SwitchKeepsCore(s: Sys)
    requires Core(s) && s.ready != [] && s.procs[s.running].state != Waiting
    ensures var c := s.ready[|s.ready| - 1];
            var r := Switch(s, c);
            && r.Ok? && Core(r.value) && Switched(s.procs, r.value.procs, s.running, c)
            && r.value == s.(procs := r.value.procs, ready := r.value.ready, running := c)
            && r.value.ready == (if s.procs[s.running].state == Running
                                 then InsertReady(r.value.procs, s.ready[..|s.ready| - 1], s.running)
                                 else s.ready[..|s.ready| - 1])
  {
    var c := s.ready[|s.ready| - 1];
    assert c in s.ready;
    assert s.procs[c].state == Waiting;
    SwitchEffect(s);
    var t := Switch(s, c).value;
    hide ReadyOk, SleepOk, StatesOk, QueuesOk, TreeOk, AllRooted, LifeOk, ChildrenLast, WaitsOk, Switched;
    hide Switch, FidsOk;
    SwitchReady(s.procs, t.procs, s.ready, t.ready, s.running);
    SwitchQueues(s.procs, t.procs, s.queues, s.running, c);
    SwitchSleep(s.procs, t.procs, s.sleepers, s.running, c);
    SwitchStates(s.procs, t.procs, s.running, c);
    SwitchWaits(s.procs, t.procs, s.running, c);
    SwitchFamily(s.procs, t.procs, s.running, c);
    KeepsFamilyCore(s, t);
    SwitchPids(s.procs, t.procs, s.running, c, s.free);
  }

  lemma SwitchPids(procs: Table, procs': Table, cur: int, c: int, free: seq<int>)
    requires Switched(procs, procs', cur, c) && PidsOk(procs, free)
    ensures PidsOk(procs', free)
  {}

  // ----- the choice -----

  /** The last element of the ready queue has the highest priority. */
  lemma TopIsHighest(procs: Table, ready: seq<int>)
    requires SortedReady(procs, ready) && ready != []
    ensures forall p :: p in ready ==> Prio(procs, p) <= Prio(procs, ready[|ready| - 1])
  {}

  lemma SwitchNoInversion(procs: Table, procs': Table, ready: seq<int>, ready': seq<int>, cur: int)
    requires ReadyOk(procs, ready) && ready != []
    requires Switched(procs, procs', cur, ready[|ready| - 1])
    requires procs[cur].state == Running ==> Prio(procs, cur) <= Prio(procs, ready[|ready| - 1])
    requires ready' == if procs[cur].state == Running then InsertReady(procs', ready[..|ready| - 1], cur)
                       else ready[..|ready| - 1]
    ensures NoInversion(procs', ready', ready[|ready| - 1])
  {
    var rest := ready[..|ready| - 1];
    TopIsHighest(procs, ready);
    InsertReadyMembers(procs', rest, cur);
    assert forall q :: q in rest ==> q in ready;
    assert forall q :: Prio(procs', q) == Prio(procs, q);
  }
}
