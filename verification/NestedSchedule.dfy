/** `zombify` ends by calling `schedule`, so `schedule` is recursive through `clean_processes`.  From every
    state the nested calls amount to "clean everything, then pick". */
module NestedSchedule {
  import opened Outcomes
  import opened KernelState
  import opened Scheduler
  import opened Invariant

  /** State when control leaves the call, and whether that was by switching to another process: the
      frames above are then suspended with the process that made the call. */
  datatype Left = Left(sys: Sys, switched: bool)

  /** `clean_processes` with the nested `schedule` at the end of each `zombify`. */
  function CleanNested(s: Sys): (r: Outcome<Left>)
    ensures r.Ok? ==> |r.value.sys.toZombify| <= |s.toZombify|
    decreases |s.toZombify|, 0
  {
    if NothingPending(s.toZombify, s.running) then
      var d :- DestroyAll(s);
      DestroyKeepsPending(s);
      Ok(Left(d, false))
    else
      var (p, rest) := NextPending(s.toZombify, s.running);
      var s1 :- Zombify(s.(toZombify := rest), p);
      var l :- ScheduleNested(s1);
      if l.switched then Ok(l) else CleanNested(l.sys)
  }

  function ScheduleNested(s: Sys): (r: Outcome<Left>)
    ensures r.Ok? ==> |r.value.sys.toZombify| <= |s.toZombify|
    decreases |s.toZombify|, 1
  {
    var l :- CleanNested(s);
    if l.switched then Ok(l)
    else
      var t :- Pick(l.sys);
      Ok(Left(t, t.running != l.sys.running))
  }

  lemma {:induction false} DestroyKeepsPending(s: Sys)
    ensures var d := DestroyAll(s); d.Ok? ==> d.value.toZombify == s.toZombify && d.value.running == s.running
    decreases |s.procs|
  {
    if !NothingPending(s.toDestroy, s.running) {
      var (p, rest) := NextPending(s.toDestroy, s.running);
      var r := Destroy(s.(toDestroy := rest), p);
      if r.Ok? { DestroyKeepsPending(r.value); }
    }
  }

  /** What a cleaned state looks like. */
  lemma {:induction false} DestroyedAll(s: Sys)
    ensures var d := DestroyAll(s); d.Ok? ==> NothingPending(d.value.toDestroy, d.value.running)
    decreases |s.procs|
  {
    if !NothingPending(s.toDestroy, s.running) {
      var (p, rest) := NextPending(s.toDestroy, s.running);
      var r := Destroy(s.(toDestroy := rest), p);
      if r.Ok? { DestroyedAll(r.value); }
    }
  }

  lemma {:induction false} ZombifiedAll(s: Sys)
    ensures var z := ZombifyAll(s); z.Ok? ==> NothingPending(z.value.toZombify, z.value.running)
    decreases |s.toZombify|
  {
    if !NothingPending(s.toZombify, s.running) {
      var (p, rest) := NextPending(s.toZombify, s.running);
      var r := Zombify(s.(toZombify := rest), p);
      if r.Ok? { ZombifiedAll(r.value); }
    }
  }

  /** Choosing the running process again changes nothing: it is not also in the ready queue, or the
      table is not full. */
  ghost predicate NoSelfSwitch(s: Sys) {
    Clean(s).Ok? && Pick(Clean(s).value).Ok? && Pick(Clean(s).value).value.running == Clean(s).value.running ==>
      Pick(Clean(s).value) == Clean(s)
  }

  /** The nested form reaches exactly the state of the flat one; it leaves by a switch exactly when the
      choice is another process. */
  lemma {:induction false} NestedIsFlat(s: Sys)
    requires NoSelfSwitch(s)
    ensures var r := ScheduleNested(s);
            && (r.Panic? <==> Schedule(s).Panic?)
            && (r.Ok? ==> r.value.sys == Schedule(s).value && Clean(s).Ok?
                          && (r.value.switched <==> r.value.sys.running != Clean(s).value.running))
    decreases |s.toZombify|
  {
    hide Zombify, DestroyAll, Pick;
    if !NothingPending(s.toZombify, s.running) {
      var (p, rest) := NextPending(s.toZombify, s.running);
      var z := Zombify(s.(toZombify := rest), p);
      if z.Ok? {
        var s1 := z.value;
        assert Clean(s) == Clean(s1);
        NestedIsFlat(s1);
        var l := ScheduleNested(s1);
        if l.Ok? && !l.value.switched {
          var d := Clean(s1).value;
          ZombifiedAll(s1);
          DestroyKeepsPending(ZombifyAll(s1).value);
          DestroyedAll(ZombifyAll(s1).value);
          CleanedIsClean(d);
          assert CleanNested(s) == CleanNested(d) == Ok(Left(d, false));
        }
      }
    }
  }

  lemma CleanedIsClean(s: Sys)
    requires NothingPending(s.toZombify, s.running) && NothingPending(s.toDestroy, s.running)
    ensures CleanNested(s) == Ok(Left(s, false))
  {}

  /** A self-switch leaves the running process waiting. */
  lemma SelfSwitch(s: Sys)
    ensures var t := Pick(s);
            t.Ok? && t.value.running == s.running && t.value != s ==>
              s.running == 0 || (s.running in t.value.procs && t.value.procs[s.running].state == Waiting)
  {}

  /** The states from which the kernel calls `schedule` meet the condition of `NestedIsFlat`. */
  lemma SoundNeverSelfSwitches(s: Sys)
    requires Schedule(s).Ok? && Inv(Schedule(s).value)
    ensures NoSelfSwitch(s)
  {
    hide Clean, Pick;
    SelfSwitch(Clean(s).value);
    RunningRuns(Schedule(s).value);
    hide Inv;
  }

  lemma RunningRuns(s: Sys)
    requires Inv(s)
    ensures s.running in s.procs && s.procs[s.running].state == Running && s.running != 0
  {
    hide FidsOk, ReadyOk, SleepOk, QueuesOk, ChildrenLast, WaitsOk, NoInversion, Undoomed, TreeOk, AllRooted, LifeOk;
    var i := s.running;
    assert i in s.procs;
  }
}
