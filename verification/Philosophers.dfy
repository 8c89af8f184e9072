/** The dining philosophers of the test programs, for any number of them from two on: forks are flags
    under a mutual exclusion semaphore, and each philosopher has a semaphore to wait on. */
module Philosophers {

  /** Where a philosopher is: between the calls, or at a point inside a critical section. */
  datatype Pc =
    | Thinking    // before `xwait(&mutex_philo)` of `prendre_fourchettes`
    | Taking      // in its critical section
    | Took        // about to leave it
    | Waiting     // before `xwait(&s[i])`
    | Eating      // before `xwait(&mutex_philo)` of `poser_fourchettes`
    | Putting     // in its critical section
    | PutLeft     // half way: the left side is done
    | Put         // about to leave it

  datatype Table = Table(
    forks: seq<bool>,
    blocked: seq<bool>,
    tokens: seq<nat>,
    pc: seq<Pc>,
    mutex: nat)

  predicate Sized(t: Table, n: nat) {
    n >= 2 && |t.forks| == n && |t.blocked| == n && |t.tokens| == n && |t.pc| == n
  }

  /** The remainder of a number below `2 * n`. */
  lemma Around(x: nat, n: nat)
    requires x < 2 * n
    ensures x % n == if x < n then x else x - n
  {
    if x < n {
      assert x / n == 0;
    } else {
      assert x / n == 1;
    }
  }

  function Next(i: nat, n: nat): (j: nat)
    requires i < n
    ensures j == if i + 1 == n then 0 else i + 1
  {
    Around(i + 1, n);
    (i + 1) % n
  }

  function Prev(i: nat, n: nat): (j: nat)
    requires i < n
    ensures j == if i == 0 then n - 1 else i - 1
  {
    Around(i + n - 1, n);
    (i + n - 1) % n
  }

  // ----- the steps -----

  predicate InCritical(pc: Pc) {
    pc in {Taking, Took, Putting, PutLeft, Put}
  }

  /** `xwait` needs a token; everything else can always be done. */
  predicate Enabled(t: Table, n: nat, i: nat)
    requires Sized(t, n) && i < n
  {
    match t.pc[i]
    case Thinking => t.mutex > 0
    case Eating => t.mutex > 0
    case Waiting => t.tokens[i] > 0
    case _ => true
  }

  predicate BothFree(forks: seq<bool>, n: nat, i: nat)
    requires |forks| == n && i < n
  {
    !forks[i] && !forks[Next(i, n)]
  }

  /** Critical section of `prendre_fourchettes`. */
  function TakeForks(t: Table, n: nat, i: nat): (r: Table)
    requires Sized(t, n) && i < n
    ensures Sized(r, n)
  {
    if BothFree(t.forks, n, i) then
      t.(forks := t.forks[i := true][Next(i, n) := true], tokens := t.tokens[i := t.tokens[i] + 1])
    else
      t.(blocked := t.blocked[i := true])
  }

  /** First half of `poser_fourchettes`: the left fork goes to a blocked left neighbour that lacks only it. */
  function PutLeftFork(t: Table, n: nat, i: nat): (r: Table)
    requires Sized(t, n) && i < n
    ensures Sized(r, n)
  {
    var j := Prev(i, n);
    if t.blocked[j] && !t.forks[j] then
      t.(forks := t.forks[j := true], blocked := t.blocked[j := false], tokens := t.tokens[j := t.tokens[j] + 1])
    else
      t.(forks := t.forks[i := false])
  }

  /** Second half, for the right fork and the right neighbour. */
  function PutRightFork(t: Table, n: nat, i: nat): (r: Table)
    requires Sized(t, n) && i < n
    ensures Sized(r, n)
  {
    var j := Next(i, n);
    var k := Next(j, n);
    if t.blocked[j] && !t.forks[k] then
      t.(forks := t.forks[k := true], blocked := t.blocked[j := false], tokens := t.tokens[j := t.tokens[j] + 1])
    else
      t.(forks := t.forks[j := false])
  }

  function At(t: Table, i: nat, pc: Pc): (r: Table)
    requires i < |t.pc|
  {
    t.(pc := t.pc[i := pc])
  }

  function Step(t: Table, n: nat, i: nat): (r: Table)
    requires Sized(t, n) && i < n && Enabled(t, n, i)
    ensures Sized(r, n)
  {
    match t.pc[i]
    case Thinking => At(t, i, Taking).(mutex := t.mutex - 1)
    case Taking => At(TakeForks(t, n, i), i, Took)
    case Took => At(t, i, Waiting).(mutex := t.mutex + 1)
    case Waiting => At(t, i, Eating).(tokens := t.tokens[i := t.tokens[i] - 1])
    case Eating => At(t, i, Putting).(mutex := t.mutex - 1)
    case Putting => At(PutLeftFork(t, n, i), i, PutLeft)
    case PutLeft => At(PutRightFork(t, n, i), i, Put)
    case Put => At(t, i, Thinking).(mutex := t.mutex + 1)
  }

  // ----- the invariant -----

  /** The philosopher has been given its forks and has not begun to put them down. */
  predicate Granted(t: Table, i: nat)
    requires i < |t.pc| && i < |t.blocked|
  {
    (t.pc[i] in {Took, Waiting} && !t.blocked[i]) || t.pc[i] in {Eating, Putting}
  }

  predicate HoldsLeft(t: Table, i: nat)
    requires i < |t.pc| && i < |t.blocked|
  {
    Granted(t, i)
  }

  predicate HoldsRight(t: Table, i: nat)
    requires i < |t.pc| && i < |t.blocked|
  {
    Granted(t, i) || t.pc[i] == PutLeft
  }

  /** A fork flag is 1 exactly when one of its two neighbours holds it, and never both. */
  ghost predicate ForkOk(t: Table, n: nat, k: nat)
    requires Sized(t, n) && k < n
  {
    && (t.forks[k] <==> HoldsLeft(t, k) || HoldsRight(t, Prev(k, n)))
    && !(HoldsLeft(t, k) && HoldsRight(t, Prev(k, n)))
  }

  /** The token of a philosopher stands for forks it has been given and not yet noticed; a blocked one
      lacks a fork. */
  ghost predicate SeatOk(t: Table, n: nat, i: nat)
    requires Sized(t, n) && i < n
  {
    && t.tokens[i] == (if t.pc[i] in {Took, Waiting} && !t.blocked[i] then 1 else 0)
    && (t.blocked[i] ==> t.pc[i] in {Took, Waiting} && (t.forks[i] || t.forks[Next(i, n)]))
  }

  ghost predicate Exclusive(t: Table, n: nat)
    requires Sized(t, n)
  {
    && t.mutex <= 1
    && (t.mutex == 1 ==> forall i :: 0 <= i < n ==> !InCritical(t.pc[i]))
    && (t.mutex == 0 ==> exists i :: 0 <= i < n && InCritical(t.pc[i]))
    && (forall i, j :: 0 <= i < j < n ==> !(InCritical(t.pc[i]) && InCritical(t.pc[j])))
  }

  ghost predicate Inv(t: Table, n: nat) {
    && Sized(t, n)
    && (forall k :: 0 <= k < n ==> ForkOk(t, n, k))
    && (forall i :: 0 <= i < n ==> SeatOk(t, n, i))
    && Exclusive(t, n)
  }

  function Start(n: nat): Table {
    Table(seq(n, i => false), seq(n, i => false), seq(n, i => 0), seq(n, i => Thinking), 1)
  }

  lemma StartOk(n: nat)
    requires n >= 2
    ensures Inv(Start(n), n)
  {
    var t := Start(n);
    forall k: nat | k < n ensures ForkOk(t, n, k) && SeatOk(t, n, k) {
      var j := Prev(k, n);
      assert j < n;
    }
  }

  // ----- preservation -----

  lemma ExclusiveStep(t: Table, n: nat, i: nat)
    requires Inv(t, n) && i < n && Enabled(t, n, i)
    ensures Exclusive(Step(t, n, i), n)
  {
    var r := Step(t, n, i);
    assert forall j :: 0 <= j < n && j != i ==> r.pc[j] == t.pc[j];
    if r.mutex == 0 {
      if InCritical(r.pc[i]) {
      } else {
        var j :| 0 <= j < n && InCritical(t.pc[j]);
        assert j != i && InCritical(r.pc[j]);
      }
    }
  }

  lemma TakeForksOk(t: Table, n: nat, i: nat, k: nat)
    requires Inv(t, n) && i < n && t.pc[i] == Taking && k < n
    ensures ForkOk(Step(t, n, i), n, k)
  {
    assert ForkOk(t, n, k) && ForkOk(t, n, i) && ForkOk(t, n, Next(i, n)) && SeatOk(t, n, i);
    assert Step(t, n, i) == At(TakeForks(t, n, i), i, Took);
    hide Inv, Step, Enabled;
  }

  lemma TakeSeatsOk(t: Table, n: nat, i: nat, k: nat)
    requires Inv(t, n) && i < n && t.pc[i] == Taking && k < n
    ensures SeatOk(Step(t, n, i), n, k)
  {
    assert SeatOk(t, n, k) && SeatOk(t, n, i);
  }

  lemma TakeOk(t: Table, n: nat, i: nat)
    requires Inv(t, n) && i < n && t.pc[i] == Taking
    ensures var r := Step(t, n, i); forall k :: 0 <= k < n ==> ForkOk(r, n, k) && SeatOk(r, n, k)
  {
    hide ForkOk, SeatOk;
    var r := Step(t, n, i);
    forall k: nat | k < n ensures ForkOk(r, n, k) && SeatOk(r, n, k) {
      TakeForksOk(t, n, i, k);
      TakeSeatsOk(t, n, i, k);
    }
  }

  lemma PutLeftForks(t: Table, n: nat, i: nat, k: nat)
    requires Inv(t, n) && i < n && t.pc[i] == Putting && k < n
    ensures ForkOk(Step(t, n, i), n, k)
  {
    var j := Prev(i, n);
    assert ForkOk(t, n, k) && ForkOk(t, n, i) && ForkOk(t, n, j) && SeatOk(t, n, j) && SeatOk(t, n, i);
    assert Step(t, n, i) == At(PutLeftFork(t, n, i), i, PutLeft);
    hide Inv, Step, Enabled;
  }

  lemma PutLeftSeats(t: Table, n: nat, i: nat, k: nat)
    requires Inv(t, n) && i < n && t.pc[i] == Putting && k < n
    ensures SeatOk(Step(t, n, i), n, k)
  {
    var j := Prev(i, n);
    assert SeatOk(t, n, k) && SeatOk(t, n, j) && SeatOk(t, n, i) && ForkOk(t, n, Next(i, n));
  }

  lemma PutRightForks(t: Table, n: nat, i: nat, k: nat)
    requires Sized(t, n) && i < n && t.pc[i] == PutLeft && k < n && ForkOk(t, n, k)
    requires ForkOk(t, n, Next(i, n)) && ForkOk(t, n, Next(Next(i, n), n)) && SeatOk(t, n, Next(i, n))
    requires SeatOk(t, n, i)
    ensures ForkOk(Step(t, n, i), n, k)
  {
    var j, q := Next(i, n), Prev(k, n);
    assert Prev(j, n) == i && Prev(Next(j, n), n) == j;
  }

  lemma PutRightSeats(t: Table, n: nat, i: nat, k: nat)
    requires Inv(t, n) && i < n && t.pc[i] == PutLeft && k < n
    ensures SeatOk(Step(t, n, i), n, k)
  {
    var j := Next(i, n);
    assert SeatOk(t, n, k) && SeatOk(t, n, j) && SeatOk(t, n, i);
  }

  lemma PutOk(t: Table, n: nat, i: nat)
    requires Inv(t, n) && i < n && t.pc[i] in {Putting, PutLeft}
    ensures var r := Step(t, n, i); forall k :: 0 <= k < n ==> ForkOk(r, n, k) && SeatOk(r, n, k)
  {
    hide ForkOk, SeatOk;
    var r := Step(t, n, i);
    forall k: nat | k < n ensures ForkOk(r, n, k) && SeatOk(r, n, k) {
      if t.pc[i] == Putting {
        PutLeftForks(t, n, i, k);
        PutLeftSeats(t, n, i, k);
      } else {
        PutRightForks(t, n, i, k) by { assert forall m: nat :: m < n ==> ForkOk(t, n, m) && SeatOk(t, n, m); }
        PutRightSeats(t, n, i, k);
      }
    }
  }

  lemma MoveOk(t: Table, n: nat, i: nat)
    requires Inv(t, n) && i < n && Enabled(t, n, i) && t.pc[i] !in {Taking, Putting, PutLeft}
    ensures var r := Step(t, n, i); forall k :: 0 <= k < n ==> ForkOk(r, n, k) && SeatOk(r, n, k)
  {
    var r := Step(t, n, i);
    forall k: nat | k < n ensures ForkOk(r, n, k) && SeatOk(r, n, k) {
      assert ForkOk(t, n, k) && SeatOk(t, n, k) && SeatOk(t, n, i);
    }
  }

  lemma StepOk(t: Table, n: nat, i: nat)
    requires Inv(t, n) && i < n && Enabled(t, n, i)
    ensures Inv(Step(t, n, i), n)
  {
    ExclusiveStep(t, n, i);
    match t.pc[i] {
      case Taking => TakeOk(t, n, i);
      case Putting => PutOk(t, n, i);
      case PutLeft => PutOk(t, n, i);
      case _ => MoveOk(t, n, i);
    }
  }

  /** Any interleaving, from the start. */
  ghost predicate Reaches(n: nat, run: seq<nat>, t: Table)
    decreases |run|
  {
    if run == [] then t == Start(n)
    else
      var m := |run| - 1;
      exists s ::
        Sized(s, n) && Reaches(n, run[..m], s) && run[m] < n && Enabled(s, n, run[m]) && t == Step(s, n, run[m])
  }

  lemma {:induction false} ReachableOk(n: nat, run: seq<nat>, t: Table)
    requires n >= 2 && Reaches(n, run, t)
    ensures Inv(t, n)
    decreases |run|
  {
    if run == [] {
      StartOk(n);
    } else {
      var m := |run| - 1;
      var s :| Sized(s, n) && Reaches(n, run[..m], s) && run[m] < n && Enabled(s, n, run[m]) && t == Step(s, n, run[m]);
      ReachableOk(n, run[..m], s);
      StepOk(s, n, run[m]);
    }
  }

  // ----- what it is for -----

  /** Two neighbours never eat at the same time. */
  lemma NeighboursExclude(t: Table, n: nat, i: nat)
    requires Inv(t, n) && i < n
    ensures !(Granted(t, i) && Granted(t, Next(i, n)))
    ensures !(t.pc[i] == Eating && t.pc[Next(i, n)] == Eating)
  {
    var j := Next(i, n);
    assert ForkOk(t, n, j) && Prev(j, n) == i;
  }

  /** Somebody holds a fork a blocked philosopher waits for: one of its neighbours. */
  lemma BlockedByNeighbour(t: Table, n: nat, i: nat)
    requires Inv(t, n) && i < n && t.blocked[i]
    ensures HoldsRight(t, Prev(i, n)) || HoldsLeft(t, Next(i, n))
  {
    assert SeatOk(t, n, i) && ForkOk(t, n, i) && ForkOk(t, n, Next(i, n));
  }

  /** The assertion of `xsignal` that a semaphore never counts two holds in every state. */
  lemma SignalsBelowTwo(t: Table, n: nat)
    requires Inv(t, n)
    ensures t.mutex < 2 && forall i :: 0 <= i < n ==> t.tokens[i] < 2
  {
    forall i | 0 <= i < n ensures t.tokens[i] < 2 { assert SeatOk(t, n, i); }
  }

  /** No deadlock: some philosopher can always go on. */
  lemma SomeoneCanStep(t: Table, n: nat)
    requires Inv(t, n)
    ensures exists i :: 0 <= i < n && Enabled(t, n, i)
  {
    if t.mutex == 0 {
      var i :| 0 <= i < n && InCritical(t.pc[i]);
      assert Enabled(t, n, i);
    } else {
      var z: nat := 0;
      assert SeatOk(t, n, z);
      if !Enabled(t, n, z) {
        BlockedByNeighbour(t, n, z);
        var j := if HoldsRight(t, Prev(z, n)) then Prev(z, n) else Next(z, n);
        assert SeatOk(t, n, j) && !InCritical(t.pc[j]);
        assert Enabled(t, n, j);
      }
    }
  }

  // ----- the code on arrays -----

  /** The shared arrays of the test program. */
  class Dinner {
    const n: nat
    const f: array<bool>
    const bloque: array<bool>
    const s: array<nat>

    ghost predicate Valid()
      reads this, f, bloque, s
    {
      n >= 2 && f.Length == n && bloque.Length == n && s.Length == n && f != bloque
    }

    ghost function Seen(pc: seq<Pc>, mutex: nat): Table
      reads this, f, bloque, s
    {
      Table(f[..], bloque[..], s[..], pc, mutex)
    }

    constructor (n: nat)
      requires n >= 2
      ensures Valid() && this.n == n && Seen(Start(n).pc, 1) == Start(n)
    {
      this.n := n;
      f := new bool[n](i => false);
      bloque := new bool[n](i => false);
      s := new nat[n](i => 0);
    }

    /** Critical section of `prendre_fourchettes`. */
    method TakeBoth(i: nat, ghost pc: seq<Pc>, ghost mutex: nat)
      requires Valid() && i < n && |pc| == n
      modifies f, bloque, s
      ensures Valid() && Seen(pc, mutex) == TakeForks(old(Seen(pc, mutex)), n, i)
    {
      if !f[i] && !f[(i + 1) % n] {
        f[i] := true;
        f[(i + 1) % n] := true;
        s[i] := s[i] + 1;
      } else {
        bloque[i] := true;
      }
      assert (i + 1) % n == Next(i, n);
    }

    /** Critical section of `poser_fourchettes`. */
    method PutBoth(i: nat, ghost pc: seq<Pc>, ghost mutex: nat)
      requires Valid() && i < n && |pc| == n
      modifies f, bloque, s
      ensures Valid() && Seen(pc, mutex) == PutRightFork(PutLeftFork(old(Seen(pc, mutex)), n, i), n, i)
    {
      var left, right := (i + n - 1) % n, (i + 1) % n;
      ghost var before := Seen(pc, mutex);
      assert left == Prev(i, n) && right == Next(i, n);
      if bloque[left] && !f[left] {
        f[left] := true;
        bloque[left] := false;
        s[left] := s[left] + 1;
      } else {
        f[i] := false;
      }
      assert Seen(pc, mutex) == PutLeftFork(before, n, i);
      var beyond := (i + 2) % n;
      assert beyond == Next(right, n) by { Beyond(i, n); }
      if bloque[right] && !f[beyond] {
        f[beyond] := true;
        bloque[right] := false;
        s[right] := s[right] + 1;
      } else {
        f[right] := false;
      }
    }
  }

  lemma Beyond(i: nat, n: nat)
    requires i < n && n >= 2
    ensures (i + 2) % n == Next(Next(i, n), n)
  {
    if i + 2 < n {
    } else if i + 2 == n {
      assert (i + 2) % n == 0;
    } else {
      assert (n + 1) % n == 1 % n;
    }
  }
}
