/** The rings of the C code under the fields of the kernel state: free pids and messages. */
module KernelRings {
  import opened Lists
  import opened KernelState
  import opened Invariant
  import opened Syscalls
  import opened Rings

  // ----- pids -----

  /** The pid ring of `process.c` in state `s`. */
  ghost predicate PidRing(ids: Identifiers, s: Sys)
    reads ids, ids.ring, ids.ring.buffer
  {
    ids.Valid() && ids.low == INIT && ids.size == MAX_PROCS && ids.ring.contents == s.free && ids.used == s.procs.Keys
  }

  /** The pids in use and the ring share out all pids between them, as the invariant says. */
  lemma PidRingPartitions(ids: Identifiers, s: Sys)
    requires PidRing(ids, s)
    ensures PidsOk(s.procs, s.free)
  {}

  /** `process_table_register`: the ring gives the pid that `Register` gives. */
  method RegisterPid(ids: Identifiers, prio: int, ghost s: Sys) returns (ok: bool, p: int)
    requires PidRing(ids, s)
    modifies ids, ids.ring, ids.ring.buffer
    ensures ok <==> Register(s, prio).Ok?
    ensures ok ==> p == s.free[0] && PidRing(ids, Register(s, prio).value)
  {
    if s.free == [] {
      assert forall x :: INIT <= x < INIT + MAX_PROCS ==> x in ids.used;
    } else {
      assert s.free[0] in s.free;
    }
    ok, p := ids.Register();
  }

  /** `process_table_unregister`: the pid of a destroyed process goes to the end of the ring. */
  method UnregisterPid(ids: Identifiers, p: int, ghost s: Sys) returns (ok: bool)
    requires PidRing(ids, s) && p in s.procs
    modifies ids, ids.ring, ids.ring.buffer
    ensures ok && |s.free| < MAX_PROCS && PidRing(ids, s.(free := s.free + [p], procs := s.procs - {p}))
  {
    AppendNoDup(s.free, p);
    DistinctInRange(s.free + [p], INIT, INIT + MAX_PROCS);
    ok := ids.Unregister(p);
    assert (s.procs - {p}).Keys == s.procs.Keys - {p};
  }

  // ----- queue numbers -----

  /** The ring of queue numbers of `message_queue.c` in state `s`. */
  ghost predicate FidRing(ids: Identifiers, s: Sys)
    reads ids, ids.ring, ids.ring.buffer
  {
    && ids.Valid() && ids.low == 0 && ids.size == NB_QUEUES && ids.ring.contents == s.freeFids
    && ids.used == s.queues.Keys
  }

  lemma FidRingPartitions(ids: Identifiers, s: Sys)
    requires FidRing(ids, s)
    ensures FidsOk(s.queues, s.freeFids)
  {}

  /** `message_queue_table_register`, as `pcreate` calls it: it gives the number that the new queue gets. */
  method RegisterFid(ids: Identifiers, q: Queue, ghost s: Sys) returns (ok: bool, f: int)
    requires FidRing(ids, s)
    modifies ids, ids.ring, ids.ring.buffer
    ensures ok <==> s.freeFids != []
    ensures ok ==> f == s.freeFids[0] && FidRing(ids, s.(freeFids := s.freeFids[1..], queues := s.queues[f := q]))
  {
    if s.freeFids == [] {
      assert forall x :: 0 <= x < NB_QUEUES ==> x in ids.used;
    } else {
      assert s.freeFids[0] in s.freeFids;
    }
    ok, f := ids.Register();
  }

  /** `message_queue_table_unregister`, as `pdelete` calls it. */
  method UnregisterFid(ids: Identifiers, f: int, ghost s: Sys) returns (ok: bool)
    requires FidRing(ids, s) && f in s.queues
    modifies ids, ids.ring, ids.ring.buffer
    ensures ok && |s.freeFids| < NB_QUEUES
    ensures FidRing(ids, s.(freeFids := s.freeFids + [f], queues := s.queues - {f}))
  {
    AppendNoDup(s.freeFids, f);
    DistinctInRange(s.freeFids + [f], 0, NB_QUEUES);
    ok := ids.Unregister(f);
    assert (s.queues - {f}).Keys == s.queues.Keys - {f};
  }

  /** The failed allocation of `pcreate`: the number goes to the end of the line. */
  method FailedCreate(ids: Identifiers, ghost s: Sys) returns (ok: bool)
    requires FidRing(ids, s)
    modifies ids, ids.ring, ids.ring.buffer
    ensures ok <==> s.freeFids != []
    ensures ok ==> FidRing(ids, s.(freeFids := s.freeFids[1..] + [s.freeFids[0]]))
  {
    var f;
    ok, f := RegisterFid(ids, Queue(1, [], []), s);
    if ok {
      ghost var t := s.(freeFids := s.freeFids[1..], queues := s.queues[f := Queue(1, [], [])]);
      ok := UnregisterFid(ids, f, t);
      assert (t.queues - {f}).Keys == s.queues.Keys;
    }
  }

  // ----- messages -----

  /** The ring of queue `f`. */
  ghost predicate MessageRing(ring: Ring, s: Sys, f: int)
    reads ring, ring.buffer
  {
    f in s.queues && ring.Valid() && ring.buffer.Length == s.queues[f].size && ring.contents == s.queues[f].messages
  }

  /** `message_queue_register`: a message that `psend` may buffer is buffered. */
  method Buffer(ring: Ring, f: int, m: int, ghost s: Sys) returns (ok: bool)
    requires MessageRing(ring, s, f)
    modifies ring, ring.buffer
    ensures ok <==> |s.queues[f].messages| < s.queues[f].size
    ensures ok ==>
              MessageRing(ring, s.(queues := s.queues[f := s.queues[f].(messages := s.queues[f].messages + [m])]), f)
  {
    ok := ring.Put(m);
  }

  /** `message_queue_unregister`: `preceive` takes the oldest message. */
  method Fetch(ring: Ring, f: int, ghost s: Sys) returns (ok: bool, m: int)
    requires MessageRing(ring, s, f) && s.queues[f].messages != []
    modifies ring
    ensures ok && m == s.queues[f].messages[0]
    ensures MessageRing(ring, s.(queues := s.queues[f := s.queues[f].(messages := s.queues[f].messages[1..])]), f)
  {
    ok, m := ring.Take();
  }

  /** On a full queue with a parked sender `preceive` takes the oldest message and puts the sender's. */
  method Exchange(ring: Ring, f: int, m: int, ghost s: Sys) returns (ok: bool, first: int)
    requires MessageRing(ring, s, f) && s.queues[f].messages != []
    modifies ring, ring.buffer
    ensures ok && first == s.queues[f].messages[0]
    ensures MessageRing(ring, s.(queues := s.queues[f := s.queues[f].(messages := s.queues[f].messages[1..] + [m])]), f)
  {
    ok, first := ring.Take();
    ok := ring.Put(m);
  }

  /** The second loop of `message_queue_reset`: the ring is emptied, message by message. */
  method Drain(ring: Ring, f: int, ghost s: Sys) returns (ok: bool)
    requires MessageRing(ring, s, f)
    modifies ring
    ensures ok && MessageRing(ring, s.(queues := s.queues[f := s.queues[f].(messages := [])]), f)
  {
    ok := true;
    while ring.count > 0
      invariant ok && ring.Valid() && ring.buffer.Length == s.queues[f].size
      decreases ring.count
    {
      var m;
      ok, m := ring.Take();
    }
  }
}
