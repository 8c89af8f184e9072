/** Termination of processes and choice of the next one: `request_*`, `zombify`, `destroy`,
    `clean_processes` and `schedule`.  A slot named by a father or child link is expected to be in use;
    where it is not the model panics. */
module Scheduler {
  import opened Lists
  import opened Outcomes
  import opened KernelState

  /** What cleaning never touches, except that `destroy` frees a slot. */
  ghost predicate SameTables(s: Sys, t: Sys) {
    && t.procs.Keys == s.procs.Keys
    && t.running == s.running
    && t.toZombify == s.toZombify
    && t.sleepers == s.sleepers
    && t.free == s.free
    && t.freeFids == s.freeFids
    && t.released == s.released
    && t.queues.Keys == s.queues.Keys
  }

  function RequestZombify(s: Sys, p: int): Outcome<Sys> {
    if p !in s.procs || s.procs[p].state == Zombie then Panic
    else
      var st := s.procs[p].state;
      var s1 := s.(toZombify := s.toZombify + [p]);
      var s2 :- if p != s.running && st in {Waiting, Running, Unset} then Unlink(s1, p) else Ok(s1);
      Ok(s2.(queues := NotifyKilled(s2.queues, p),
         procs := s2.procs[p := s2.procs[p].(state := Zombie)]))
  }

  function RequestDestroy(s: Sys, p: int): (r: Outcome<Sys>)
    ensures r.Ok? ==> SameTables(s, r.value)
  {
    if p !in s.procs || s.procs[p].sealed then Panic
    else
      var s1 := s.(procs := s.procs[p := s.procs[p].(sealed := true)], toDestroy := s.toDestroy + [p]);
      if s.procs[p].state == Zombie then Ok(s1)
      else
        var s2 :- if p != s.running then Unlink(s1, p) else Ok(s1);
        Ok(s2.(queues := NotifyKilled(s2.queues, p)))
  }

  /** One turn of the loop of `zombify` over the children of `p`. */
  function ReleaseChild(s: Sys, p: int, c: int): (r: Outcome<Sys>)
    ensures r.Ok? ==> SameTables(s, r.value)
  {
    if c !in s.procs || INIT !in s.procs || p !in s.procs then Panic
    else if s.procs[c].deallocated then RequestDestroy(s, c)
    else
      var procs1 := s.procs[p := s.procs[p].(children := Remove(s.procs[p].children, c))];
      var procs2 := procs1[c := procs1[c].(father := INIT)];
      Ok(s.(procs := procs2[INIT := procs2[INIT].(children := [c] + procs2[INIT].children)]))
  }

  function ReleaseChildren(s: Sys, p: int, cs: seq<int>): (r: Outcome<Sys>)
    ensures r.Ok? ==> SameTables(s, r.value)
    decreases |cs|
  {
    if cs == [] then Ok(s)
    else
      var s1 :- ReleaseChild(s, p, cs[0]);
      ReleaseChildren(s1, p, cs[1..])
  }

  /** `zombify` wakes a father blocked in `waitpid` on this child. */
  function WakeFather(s: Sys, f: int, p: int): (r: Outcome<Sys>)
    ensures r.Ok? ==> SameTables(s, r.value)
  {
    if f !in s.procs || p !in s.procs then Panic
    else
      var pf := s.procs[f];
      if pf.state == BlockedByChild && !s.procs[p].sealed && (pf.waitingCode < 0 || pf.waitingCode == p) then
        Enqueue(s.(procs := s.procs[f := pf.(waitingCode := p, state := Waiting)]), f)
      else Ok(s)
  }

  /** `zombify` asks for its own process to be destroyed when nobody can wait for it. */
  function SealOrphan(s: Sys, f: int, p: int): (r: Outcome<Sys>)
    ensures r.Ok? ==> SameTables(s, r.value)
  {
    if f !in s.procs || p !in s.procs then Panic
    else if !s.procs[p].sealed && (s.procs[f].state == Zombie || f == INIT) then RequestDestroy(s, p)
    else Ok(s)
  }

  /** `zombify` up to its call of `schedule`. */
  function Zombify(s: Sys, p: int): (r: Outcome<Sys>)
    ensures r.Ok? ==> SameTables(s, r.value)
  {
    if p == INIT || p !in s.procs then Panic
    else
      var f := s.procs[p].father;
      if s.procs[p].state != Zombie || s.running == p || f !in s.procs || s.procs[p].deallocated then Panic
      else
        var s1 := s.(procs := s.procs[p := s.procs[p].(deallocated := true)]);
        var s2 :- ReleaseChildren(s1, p, s1.procs[p].children);
        var s3 :- WakeFather(s2, f, p);
        SealOrphan(s3, f, p)
  }

  /** One turn of the loop of `destroy` over the children of `p`. */
  function DropChild(s: Sys, p: int): (r: Outcome<Sys>)
    ensures r.Ok? ==> SameTables(s, r.value)
  {
    if p !in s.procs || s.procs[p].children == [] || INIT !in s.procs then Panic
    else
      var c := s.procs[p].children[0];
      var s1 := s.(procs := s.procs[p := s.procs[p].(children := s.procs[p].children[1..])]);
      if c !in s1.procs then Panic
      else if s1.procs[c].deallocated then RequestDestroy(s1, c)
      else
        var procs1 := s1.procs[c := s1.procs[c].(father := INIT)];
        Ok(s1.(procs := procs1[INIT := procs1[INIT].(children := [p] + procs1[INIT].children)]))
  }

  function DropChildren(s: Sys, p: int, n: nat): (r: Outcome<Sys>)
    ensures r.Ok? ==> SameTables(s, r.value)
    decreases n
  {
    if n == 0 then Ok(s)
    else
      var s1 :- DropChild(s, p);
      DropChildren(s1, p, n - 1)
  }

  function Destroy(s: Sys, p: int): (r: Outcome<Sys>)
    ensures r.Ok? ==> p in s.procs && r.value.procs.Keys == s.procs.Keys - {p} && |r.value.procs| == |s.procs| - 1
    ensures r.Ok? ==> r.value.toZombify == s.toZombify && r.value.running == s.running
  {
    if p == INIT || p !in s.procs then Panic
    else
      var f := s.procs[p].father;
      if s.procs[p].state == Running || s.running == p || f !in s.procs then Panic
      else
        var s1 := s.(procs := s.procs[f := s.procs[f].(children := Remove(s.procs[f].children, p))]);
        var s2 :- DropChildren(s1, p, |s1.procs[p].children|);
        if |s2.free| >= MAX_PROCS then Panic
        else Ok(s2.(free := s2.free + [p], procs := s2.procs - {p}))
  }

  /** The pending entry that `clean_processes` takes next: the last one, unless that is the running
      process, which is exchanged with the first. */
  function NextPending(pending: seq<int>, running: int): (r: (int, seq<int>))
    requires pending != []
    ensures |r.1| == |pending| - 1
  {
    var n := |pending| - 1;
    if running != 0 && pending[n] == running then (pending[0], pending[0 := pending[n]][..n])
    else (pending[n], pending[..n])
  }

  predicate NothingPending(pending: seq<int>, running: int) {
    pending == [] || (|pending| == 1 && running != 0 && pending[0] == running)
  }

  /** First loop of `clean_processes`, with the nested calls of `schedule` left out. */
  function ZombifyAll(s: Sys): Outcome<Sys>
    decreases |s.toZombify|
  {
    if NothingPending(s.toZombify, s.running) then Ok(s)
    else
      var (p, rest) := NextPending(s.toZombify, s.running);
      var s1 :- Zombify(s.(toZombify := rest), p);
      ZombifyAll(s1)
  }

  /** Second loop of `clean_processes`. */
  function DestroyAll(s: Sys): Outcome<Sys>
    decreases |s.procs|
  {
    if NothingPending(s.toDestroy, s.running) then Ok(s)
    else
      var (p, rest) := NextPending(s.toDestroy, s.running);
      var s1 :- Destroy(s.(toDestroy := rest), p);
      DestroyAll(s1)
  }

  function Clean(s: Sys): Outcome<Sys> {
    var s1 :- ZombifyAll(s);
    DestroyAll(s1)
  }

  /** The part of `schedule` that follows the cleaning. */
  function Pick(s: Sys): Outcome<Sys> {
    var n := |s.ready|;
    var cur := s.running;
    if cur == 0 then
      if n == 0 || s.ready[n - 1] !in s.procs then Panic
      else
        var c := s.ready[n - 1];
        Ok(s.(ready := s.ready[..n - 1], procs := s.procs[c := s.procs[c].(state := Running)], running := c))
    else if cur !in s.procs then Panic
    else
      var full := cur != INIT && Size(s) >= MAX_PROCS;
      if !full && n == 0 then Ok(s)
      else
        var cand := if full then INIT else s.ready[n - 1];
        var po := s.procs[cur];
        if cur == cand || (po.state == Running && po.prio > Prio(s.procs, cand)) then Ok(s)
        else if n == 0 || s.ready[n - 1] !in s.procs then Panic
        else Switch(s, s.ready[n - 1])
  }

  /** `process_switch` to the element `c` that `queue_out` has returned. */
  function Switch(s: Sys, c: int): Outcome<Sys>
    requires s.ready != [] && c == s.ready[|s.ready| - 1] && c in s.procs && s.running in s.procs
  {
    var cur := s.running;
    var s1 := s.(ready := s.ready[..|s.ready| - 1], procs := s.procs[c := s.procs[c].(state := Running)], running := c);
    if s1.procs[cur].state == Running then
      Enqueue(s1.(procs := s1.procs[cur := s1.procs[cur].(state := Waiting)]), cur)
    else Ok(s1)
  }

  /** `schedule`, as "clean everything, then pick". */
  function Schedule(s: Sys): Outcome<Sys> {
    var s1 :- Clean(s);
    Pick(s1)
  }
}
