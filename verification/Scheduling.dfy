/** Interrupt nesting, the scheduler lock, and the start of multitasking. */
module Scheduling {
  import opened PrioSets
  import opened KernelState
  import opened Primitives

  function IntEnter(s: State): State {
    if s.running && s.nesting < 255 then s.(nesting := s.nesting + 1) else s
  }

  ghost function IntExit(s: State): State
    requires CanSwitch(s)
  {
    if !s.running then s
    else Sched(s.(nesting := if s.nesting > 0 then s.nesting - 1 else 0))
  }

  function SchedLock(s: State): State {
    if s.running && s.nesting == 0 && s.lock < 255 then s.(lock := s.lock + 1) else s
  }

  ghost function SchedUnlock(s: State): State
    requires CanSwitch(s)
  {
    if s.running && s.nesting == 0 && s.lock > 0 then
      var s' := s.(lock := s.lock - 1);
      if s'.lock == 0 then Sched(s') else s'
    else s
  }

  ghost function Start(s: State): State
    requires CanSwitch(s)
  {
    if s.running then s
    else
      var high := Least(s.rdy);
      s.(cur := s.prioTbl[high].t, prioCur := high, running := true)
  }

  lemma IntEnterKeeps(s: State)
    requires Inv(s)
    ensures Inv(IntEnter(s))
    ensures Optimal(s) ==> Optimal(IntEnter(s))
  {
    OnlyCurDiffers(s, IntEnter(s));
  }

  // Leaving the last interrupt closes every gap in the schedule.
  lemma IntExitKeeps(s: State)
    requires Inv(s)
    ensures Inv(IntExit(s)) && Optimal(IntExit(s))
  {
    if s.running {
      var s1 := s.(nesting := if s.nesting > 0 then s.nesting - 1 else 0);
      OnlyCurDiffers(s, s1);
      SchedKeeps(s1);
    }
  }

  // The lock belongs to task code, which is never inside a pend when it locks.
  lemma SchedLockKeeps(s: State)
    requires Inv(s)
    requires s.running && s.nesting == 0 ==> s.tcbs[s.cur].cont == Running
    ensures Inv(SchedLock(s)) && (Optimal(s) ==> Optimal(SchedLock(s)))
  {
    OnlyCurDiffers(s, SchedLock(s));
  }

  lemma SchedUnlockKeeps(s: State)
    requires Inv(s)
    ensures Inv(SchedUnlock(s)) && (Optimal(s) ==> Optimal(SchedUnlock(s)))
  {
    if s.running && s.nesting == 0 && s.lock > 0 {
      var s1 := s.(lock := s.lock - 1);
      OnlyCurDiffers(s, s1);
      if s1.lock == 0 {
        SchedKeeps(s1);
      }
    }
  }

  lemma StartKeeps(s: State)
    requires Inv(s)
    ensures Inv(Start(s)) && (Optimal(s) ==> Optimal(Start(s)))
  {
    if !s.running {
      OnlyCurDiffers(s, Start(s));
      assert Least(s.rdy) in s.rdy && TaskAt(s, Least(s.rdy));
    }
  }
}
