/** In which order processes that become ready together will run. */
module WakeOrder {
  import opened KernelState
  import opened Syscalls
  import opened Invariant

  /** `x` is in the queue, and `y` is in it nearer to its end, where the next process to run is taken. */
  ghost predicate Behind(q: seq<int>, x: int, y: int) {
    exists i, j :: 0 <= i < j < |q| && q[i] == x && q[j] == y
  }

  /** An insertion leaves the others in their order, and runs after its equals. */
  lemma {:induction false} InsertBehind(procs: Table, q: seq<int>, p: int)
    ensures forall x, y :: Behind(q, x, y) ==> Behind(InsertReady(procs, q, p), x, y)
    ensures SortedReady(procs, q) ==>
              forall y :: y in q && Prio(procs, y) >= Prio(procs, p) ==> Behind(InsertReady(procs, q, p), p, y)
    ensures p in InsertReady(procs, q, p) && forall y :: y in q ==> y in InsertReady(procs, q, p)
  {
    hide Behind;
    var k := Place(procs, q, p);
    hide InsertReady, Prio;
    Shifted(q, k, p);
    if SortedReady(procs, q) {
      forall y | y in q && Prio(procs, y) >= Prio(procs, p) ensures Behind(InsertReady(procs, q, p), p, y) {
        var j :| 0 <= j < |q| && q[j] == y;
        ShiftedBehind(q, k, p, j);
      }
    }
  }

  lemma Shifted(q: seq<int>, k: nat, p: int)
    requires k <= |q|
    ensures var r := q[..k] + [p] + q[k..];
            p in r && (forall y :: y in q ==> y in r) && forall x, y :: Behind(q, x, y) ==> Behind(r, x, y)
  {
    var r := q[..k] + [p] + q[k..];
    assert r[k] == p && forall j :: 0 <= j < |q| ==> r[if j < k then j else j + 1] == q[j];
    forall x, y | Behind(q, x, y) ensures Behind(r, x, y) {
      var i, j :| 0 <= i < j < |q| && q[i] == x && q[j] == y;
      assert r[if i < k then i else i + 1] == x && r[if j < k then j else j + 1] == y;
    }
  }

  lemma ShiftedBehind(q: seq<int>, k: nat, p: int, j: nat)
    requires k <= j < |q|
    ensures Behind(q[..k] + [p] + q[k..], p, q[j])
  {
    var r := q[..k] + [p] + q[k..];
    assert r[k] == p && r[j + 1] == q[j];
  }

  /** The place of an insertion. */
  lemma {:induction false} Place(procs: Table, q: seq<int>, p: int) returns (k: nat)
    ensures k <= |q| && InsertReady(procs, q, p) == q[..k] + [p] + q[k..]
    ensures forall j :: 0 <= j < k ==> Prio(procs, q[j]) < Prio(procs, p)
    ensures k < |q| ==> Prio(procs, q[k]) >= Prio(procs, p)
  {
    if q == [] || Prio(procs, q[0]) >= Prio(procs, p) {
      k := 0;
    } else {
      var n := Place(procs, q[1..], p);
      k := n + 1;
      forall j | 0 <= j < k ensures Prio(procs, q[j]) < Prio(procs, p) {
        if j > 0 { assert q[1..][j - 1] == q[j]; }
      }
    }
  }

  ghost predicate SameOrder(q: seq<int>, r: seq<int>) {
    forall x, y :: Behind(q, x, y) ==> Behind(r, x, y)
  }

  /** `p` runs after all of `q` that are not below it. */
  ghost predicate BehindEquals(procs: Table, q: seq<int>, r: seq<int>, p: int) {
    forall y :: y in q && Prio(procs, y) >= Prio(procs, p) ==> Behind(r, p, y)
  }

  ghost predicate SamePriorities(procs: Table, procs': Table) {
    forall p :: Prio(procs', p) == Prio(procs, p)
  }

  /** What has become ready in front of `r` stays there. */
  lemma Further(procs: Table, q: seq<int>, u: seq<int>, r: seq<int>, p: int)
    requires SameOrder(u, r) && BehindEquals(procs, q, u, p)
    ensures BehindEquals(procs, q, r, p)
  {}

  // ----- a reset -----

  /** Released processes run after their equals that were ready, and in the order they were to be served. */
  ghost predicate ReleasedInOrder(s: Sys, ready: seq<int>, l: seq<Node>) {
    && SameOrder(s.ready, ready)
    && (forall i :: 0 <= i < |l| ==> BehindEquals(s.procs, s.ready, ready, l[i].pid))
    && (forall i, j :: 0 <= i < j < |l| ==> Behind(ready, l[j].pid, l[i].pid))
  }

  ghost predicate ByPriority(procs: Table, l: seq<Node>) {
    forall i, j :: 0 <= i < j < |l| ==> Prio(procs, l[i].pid) >= Prio(procs, l[j].pid)
  }

  lemma {:induction false} ReleaseOrder(s: Sys, l: seq<Node>)
    requires ReleaseAll(s, l).Ok? && SortedReady(s.procs, s.ready) && ByPriority(s.procs, l)
    ensures ReleasedInOrder(s, ReleaseAll(s, l).value.ready, l)
    decreases |l|
  {
    if l != [] {
      hide InsertReady, Prio, Behind;
      var p := l[0].pid;
      var a := Awake(Hand(s, l[0], -1), p).value;
      var u := a.(released := a.released + {p});
      var t := ReleaseAll(u, l[1..]).value;
      ReleaseFirst(s, l[0]);
      assert ByPriority(u.procs, l[1..]) by { assert forall i :: 0 <= i < |l[1..]| ==> l[1..][i] == l[i + 1]; }
      ReleaseOrder(u, l[1..]);
      Further(s.procs, s.ready, u.ready, t.ready, p);
      forall i | 0 < i < |l|
        ensures BehindEquals(s.procs, s.ready, t.ready, l[i].pid) && Behind(t.ready, l[i].pid, p)
      {
        assert l[1..][i - 1] == l[i];
        assert BehindEquals(u.procs, u.ready, t.ready, l[i].pid);
      }
      forall i, j | 0 <= i < j < |l| ensures Behind(t.ready, l[j].pid, l[i].pid) {
        if i > 0 { assert l[1..][i - 1] == l[i] && l[1..][j - 1] == l[j]; }
      }
    }
  }

  lemma ReleaseFirst(s: Sys, n: Node)
    requires Awake(Hand(s, n, -1), n.pid).Ok? && SortedReady(s.procs, s.ready)
    ensures var u := Awake(Hand(s, n, -1), n.pid).value;
            && SamePriorities(s.procs, u.procs) && SortedReady(u.procs, u.ready) && SameOrder(s.ready, u.ready)
            && BehindEquals(s.procs, s.ready, u.ready, n.pid) && n.pid in u.ready
            && forall y :: y in s.ready ==> y in u.ready
  {
    var h := Hand(s, n, -1);
    Enqueued(h.(procs := h.procs[n.pid := h.procs[n.pid].(state := Waiting)]), n.pid);
  }

  lemma Enqueued(s: Sys, p: int)
    requires Enqueue(s, p).Ok? && SortedReady(s.procs, s.ready)
    ensures var u := Enqueue(s, p).value;
            && SortedReady(u.procs, u.ready) && SameOrder(s.ready, u.ready)
            && BehindEquals(s.procs, s.ready, u.ready, p) && p in u.ready
            && forall y :: y in s.ready ==> y in u.ready
  {
    hide Behind;
    InsertBehind(s.procs, s.ready, p);
    var k := Place(s.procs, s.ready, p);
  }

  // ----- a tick -----

  predicate Late(s: Sys, i: int, now: int) {
    0 <= i < |s.sleepers| && s.sleepers[i] in s.procs && s.procs[s.sleepers[i]].sleepTime <= now
  }

  /** Woken sleepers run after their equals that were ready.  Among equals the first of the sleeper array runs
      first; if all from there on are woken, the rest run from the last to the second. */
  ghost predicate WokenInOrder(s: Sys, ready: seq<int>, from: nat, now: int) {
    && SameOrder(s.ready, ready)
    && (forall j :: from <= j && Late(s, j, now) ==> BehindEquals(s.procs, s.ready, ready, s.sleepers[j]))
    && (forall k, j :: from <= k < j && Late(s, k, now) && Late(s, j, now)
                       && (forall m :: from <= m < k ==> !Late(s, m, now))
                       && Prio(s.procs, s.sleepers[k]) >= Prio(s.procs, s.sleepers[j]) ==>
                         Behind(ready, s.sleepers[j], s.sleepers[k]))
    && ((forall m :: from <= m < |s.sleepers| ==> Late(s, m, now)) ==>
          forall j, k :: from < j < k < |s.sleepers|
                         && Prio(s.procs, s.sleepers[k]) >= Prio(s.procs, s.sleepers[j]) ==>
                           Behind(ready, s.sleepers[j], s.sleepers[k]))
  }

  lemma {:induction false} TickOrder(s: Sys, from: nat, now: int)
    requires WakeSleepers(s, from, now).Ok? && SortedReady(s.procs, s.ready)
    ensures WokenInOrder(s, WakeSleepers(s, from, now).value.ready, from, now)
    decreases |s.sleepers| - from
  {
    if from < |s.sleepers| {
      hide Behind, Prio, InsertReady;
      var t := WakeSleepers(s, from, now).value;
      if Late(s, from, now) {
        var u := WakeFirst(s, from, now);
        TickOrder(u, from, now);
        LaterOnes(s, u, t, from, now);
      } else {
        TickOrder(s, from + 1, now);
      }
    }
  }

  /** One turn of the loop that wakes. */
  lemma WakeFirst(s: Sys, i: nat, now: int) returns (u: Sys)
    requires WakeSleepers(s, i, now).Ok? && SortedReady(s.procs, s.ready) && Late(s, i, now)
    ensures WakeSleepers(u, i, now) == WakeSleepers(s, i, now)
    ensures FirstWoken(s, u, i)
  {
    hide InsertReady, Behind;
    var p, n := s.sleepers[i], |s.sleepers| - 1;
    var a := s.(procs := s.procs[p := s.procs[p].(state := Waiting)],
                sleepers := s.sleepers[i := s.sleepers[n]][..n]);
    Enqueued(a, p);
    u := Enqueue(a, p).value;
  }

  ghost predicate FirstWoken(s: Sys, u: Sys, i: nat) {
    var n := |s.sleepers| - 1;
    && i <= n && s.sleepers[i] in s.procs
    && u.sleepers == s.sleepers[i := s.sleepers[n]][..n]
    && u.procs == s.procs[s.sleepers[i] := s.procs[s.sleepers[i]].(state := Waiting)]
    && SamePriorities(s.procs, u.procs) && SortedReady(u.procs, u.ready) && SameOrder(s.ready, u.ready)
    && BehindEquals(s.procs, s.ready, u.ready, s.sleepers[i]) && s.sleepers[i] in u.ready
    && forall y :: y in s.ready ==> y in u.ready
  }

  /** Where the entry `j` is after the last one has taken the place of entry `i`. */
  function After(s: Sys, i: nat, j: int): int {
    if j == |s.sleepers| - 1 then i else j
  }

  lemma StillLate(s: Sys, u: Sys, i: nat, j: int, now: int)
    requires FirstWoken(s, u, i) && i < j < |s.sleepers|
    ensures After(s, i, j) < |u.sleepers| && u.sleepers[After(s, i, j)] == s.sleepers[j]
    ensures Late(u, After(s, i, j), now) <==> Late(s, j, now)
  {}

  lemma LaterOnes(s: Sys, u: Sys, t: Sys, i: nat, now: int)
    requires FirstWoken(s, u, i) && Late(s, i, now) && WokenInOrder(u, t.ready, i, now)
    ensures WokenInOrder(s, t.ready, i, now)
  {
    hide Behind, Prio;
    var p := s.sleepers[i];
    Further(s.procs, s.ready, u.ready, t.ready, p);
    forall j | i < j && Late(s, j, now)
      ensures BehindEquals(s.procs, s.ready, t.ready, s.sleepers[j])
      ensures Prio(s.procs, p) >= Prio(s.procs, s.sleepers[j]) ==> Behind(t.ready, s.sleepers[j], p)
    {
      StillLate(s, u, i, j, now);
      assert BehindEquals(u.procs, u.ready, t.ready, s.sleepers[j]);
    }
    if forall m :: i <= m < |s.sleepers| ==> Late(s, m, now) {
      forall m | i <= m < |u.sleepers| ensures Late(u, m, now) {
        StillLate(s, u, i, if m == i then |s.sleepers| - 1 else m, now);
      }
      forall j, k | i < j < k < |s.sleepers| && Prio(s.procs, s.sleepers[k]) >= Prio(s.procs, s.sleepers[j])
        ensures Behind(t.ready, s.sleepers[j], s.sleepers[k])
      {
        StillLate(s, u, i, j, now);
        StillLate(s, u, i, k, now);
      }
    }
  }
}
