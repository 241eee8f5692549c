/** A change of priority is a pure renaming; and what goes wrong, exactly when, if a caller breaks the rules
    that Runs.Legal takes from the documentation or that the code needs without saying so. */
module Rules {
  import opened PrioSets
  import opened KernelState
  import opened Primitives
  import opened EventServices
  import opened MutexServices
  import opened TaskServices
  import opened Scheduling
  import opened Effects

  // ---------- renaming ----------

  function Image(p: nat, p0: nat, p1: nat): nat {
    if p == p0 then p1 else p
  }

  // Seen through tasks rather than priorities, a change of priority changes nothing but the priority itself.
  ghost predicate SameTasks(s: State, s': State, t: nat, p1: nat) {
    && t < |s.tcbs| && s'.live == s.live && |s'.events| == |s.events|
    && s'.tcbs == s.tcbs[t := s.tcbs[t].(prio := p1)]
    && (forall u :: u in s.live ==> u < |s.tcbs| && (s'.tcbs[u].prio in s'.rdy <==> s.tcbs[u].prio in s.rdy))
    && (forall u, e :: u in s.live && 0 <= e < |s.events| ==>
          && s'.events[e].body == s.events[e].body
          && (s'.tcbs[u].prio in s'.events[e].wait <==> s.tcbs[u].prio in s.events[e].wait))
  }

  // No set of priorities mentions a vacant slot.
  lemma VacantUnused(s: State, p1: nat)
    requires Core(s) && p1 < PRIOS && s.prioTbl[p1] == Vacant
    ensures p1 !in s.rdy && forall e :: 0 <= e < |s.events| ==> p1 !in s.events[e].wait
    ensures forall u :: u in s.live ==> u < |s.tcbs| && s.tcbs[u].prio != p1
  {
    assert !TaskAt(s, p1);
    forall u | u in s.live
      ensures s.tcbs[u].prio != p1
    {
      assert TaskOk(s, u);
    }
  }

  lemma PrioritiesDiffer(s: State, t: nat, u: nat)
    requires Core(s) && t in s.live && u in s.live && u != t
    ensures s.tcbs[u].prio != s.tcbs[t].prio
  {
    assert TaskOk(s, u) && TaskOk(s, t);
  }

  lemma RenameIsRenaming(s: State, t: nat, p1: nat)
    requires Core(s) && t in s.live && s.tcbs[t].owns == None && s.tcbs[t].prio < IDLE_PRIO
    requires p1 < IDLE_PRIO && s.prioTbl[p1] == Vacant
    ensures s.tcbs[t].event.Some? ==> s.tcbs[t].event.value < |s.events|
    ensures SameTasks(s, Rename(s, t, s.tcbs[t].prio, p1), t, p1)
  {
    RenameIsPrioStep(s, t, p1);
    VacantUnused(s, p1);
    forall u | u in s.live && u != t
      ensures s.tcbs[u].prio != s.tcbs[t].prio
    {
      PrioritiesDiffer(s, t, u);
    }
    RenamedMembers(s, Rename(s, t, s.tcbs[t].prio, p1), t, p1);
  }

  lemma RenamedMembers(s: State, s': State, t: nat, p1: nat)
    requires PrioStep(s, s', t, p1) && s'.live == s.live
    requires p1 !in s.rdy && forall e :: 0 <= e < |s.events| ==> p1 !in s.events[e].wait
    requires forall u :: u in s.live ==> u < |s.tcbs| && s.tcbs[u].prio != p1 && (u != t ==> s.tcbs[u].prio != s.tcbs[t].prio)
    ensures SameTasks(s, s', t, p1)
  {
  }

  // The ready set and every wait set are the images of the old ones under p0 -> p1.
  lemma RenameIsImage(s: State, t: nat, p1: nat)
    requires Core(s) && t in s.live && s.tcbs[t].owns == None && s.tcbs[t].prio < IDLE_PRIO
    requires p1 < IDLE_PRIO && s.prioTbl[p1] == Vacant
    ensures s.tcbs[t].event.Some? ==> s.tcbs[t].event.value < |s.events|
    ensures var p0, s' := s.tcbs[t].prio, Rename(s, t, s.tcbs[t].prio, p1);
            && s'.rdy == (set p | p in s.rdy :: Image(p, p0, p1)) && |s'.events| == |s.events|
            && (forall e :: 0 <= e < |s.events| ==>
                  s'.events[e].wait == set p | p in s.events[e].wait :: Image(p, p0, p1))
  {
    RenameIsPrioStep(s, t, p1);
    var p0, s' := s.tcbs[t].prio, Rename(s, t, s.tcbs[t].prio, p1);
    RenamedIsImage(s.rdy, p0, p1);
    forall e | 0 <= e < |s.events|
      ensures s'.events[e].wait == set p | p in s.events[e].wait :: Image(p, p0, p1)
    {
      RenamedIsImage(s.events[e].wait, p0, p1);
    }
  }

  lemma RenamedIsImage(wait: set<nat>, p0: nat, p1: nat)
    ensures Renamed(wait, p0, p1) == set p | p in wait :: Image(p, p0, p1)
  {
    forall q | q in Renamed(wait, p0, p1)
      ensures exists p :: p in wait && q == Image(p, p0, p1)
    {
      assert q == Image(if q == p1 && p0 in wait then p0 else q, p0, p1);
    }
  }

  // The service either renames, or reports why not and changes nothing: the target must be free and a task named.
  lemma ChangePrioIsRenaming(s: State, oldPrio: nat, newPrio: nat)
    requires Inv(s) && MayChange(s, oldPrio, newPrio)
    ensures var p0, r := Named(s, oldPrio), ChangePrio(s, oldPrio, newPrio);
            && (r.err == ErrNone <==> s.prioTbl[newPrio] == Vacant && NamesTask(s, p0))
            && (r.err != ErrNone ==> r.s == s)
            && (r.err == ErrNone ==>
                  && SameTasks(s, r.s, s.prioTbl[p0].t, newPrio)
                  && r.s.prioTbl == s.prioTbl[p0 := Vacant][newPrio := s.prioTbl[p0]])
  {
    ChangePrioEffect(s, oldPrio, newPrio);
    var p0, r := Named(s, oldPrio), ChangePrio(s, oldPrio, newPrio);
    if r.err == ErrNone {
      assert TaskAt(s, IDLE_PRIO);
      ChangedTask(s, s.prioTbl[p0].t, newPrio, r.s);
    }
  }

  lemma ChangedTask(s: State, t: nat, p1: nat, s': State)
    requires Core(s) && t in s.live && s.tcbs[t].owns == None && s.tcbs[t].prio < PRIOS && s.tcbs[t].prio != IDLE_PRIO
    requires p1 < IDLE_PRIO && s.prioTbl[p1] == Vacant
    requires s.tcbs[t].event.Some? ==> s.tcbs[t].event.value < |s.events|
    requires SameData(Rename(s, t, s.tcbs[t].prio, p1), s')
    ensures SameTasks(s, s', t, p1) && s'.prioTbl == s.prioTbl[s.tcbs[t].prio := Vacant][p1 := Task(t)]
  {
    RenameIsRenaming(s, t, p1);
  }

  // Changing a priority and changing it back restores the kernel's data.
  lemma RenameThereAndBack(s: State, t: nat, p1: nat)
    requires Core(s) && t in s.live && s.tcbs[t].owns == None && s.tcbs[t].prio < IDLE_PRIO
    requires p1 < IDLE_PRIO && s.prioTbl[p1] == Vacant
    ensures s.tcbs[t].event.Some? ==> s.tcbs[t].event.value < |s.events|
    ensures Rename(Rename(s, t, s.tcbs[t].prio, p1), t, p1, s.tcbs[t].prio) == s
  {
    assert TaskOk(s, t);
    var p0 := s.tcbs[t].prio;
    var s1 := Rename(s, t, p0, p1);
    var s2 := Rename(s1, t, p1, p0);
    VacantUnused(s, p1);
    assert s2.tcbs == s.tcbs;
    assert s2.prioTbl == s.prioTbl;
    assert s2.rdy == s.rdy;
    WaitThereAndBack(s, t, p1);
  }

  lemma WaitThereAndBack(s: State, t: nat, p1: nat)
    requires t < |s.tcbs| && s.tcbs[t].prio < |s.prioTbl| && p1 < |s.prioTbl|
    requires s.tcbs[t].event.Some? ==>
               && s.tcbs[t].event.value < |s.events|
               && s.tcbs[t].prio in s.events[s.tcbs[t].event.value].wait && p1 !in s.events[s.tcbs[t].event.value].wait
    ensures Rename(Rename(s, t, s.tcbs[t].prio, p1), t, p1, s.tcbs[t].prio).events == s.events
  {
    if s.tcbs[t].event.Some? {
      var wait, p0 := s.events[s.tcbs[t].event.value].wait, s.tcbs[t].prio;
      assert wait - {p0} + {p1} - {p1} + {p0} == wait;
    }
  }

  // ---------- a mutex owner must not wait for anything else ----------

  // Raising an owner that waits for an event keeps wait lists and tasks in agreement if and only if the owner is not
  // ready. A ready one is a task whose wait has just timed out: its old bit then stays behind in the wait list.
  lemma RaiseCarriesWaitBit(s: State, c: nat, pcp: nat)
    requires Shape(s) && WaitersOk(s) && c in s.live && s.tcbs[c].event.Some? && s.tcbs[c].event.value < |s.events|
    requires TaskAt(s, s.tcbs[c].prio) && s.prioTbl[s.tcbs[c].prio] == Task(c)
    requires s.tcbs[c].prio in s.events[s.tcbs[c].event.value].wait && pcp < PRIOS && s.prioTbl[pcp] == Reserved
    ensures Shape(RaiseOwner(s, c, pcp))
    ensures WaitersOk(RaiseOwner(s, c, pcp)) <==> s.tcbs[c].prio !in s.rdy
  {
    var s', p0, f := RaiseOwner(s, c, pcp), s.tcbs[c].prio, s.tcbs[c].event.value;
    if p0 in s.rdy {
      assert p0 in s'.events[f].wait && !TaskAt(s', p0);
    } else {
      forall e, p | 0 <= e < |s'.events| && p in s'.events[e].wait
        ensures TaskAt(s', p) && s'.tcbs[s'.prioTbl[p].t].event == Some(e)
      {
        if p != pcp {
          assert p in s.events[e].wait && TaskAt(s, p);
        } else {
          assert e == f;
        }
      }
    }
  }

  // ---------- the running task's priority may change only when the scheduler can act on it ----------

  // In an interrupt, the running task is moved from p0 to p1 and another ready task into its place. The recorded
  // current priority still is p0, so the exit from the interrupt takes the newcomer for the running task.
  lemma TwoChangesInInterrupt(s: State, u: nat, p1: nat)
    requires Inv(s) && s.running && s.nesting == 1 && s.lock == 0 && s.cur != u && u in s.live
    requires IsLeast(s.rdy, s.prioCur) && s.tcbs[u].prio in s.rdy
    requires s.tcbs[s.cur].owns == None && s.tcbs[u].owns == None
    requires s.prioCur < p1 < IDLE_PRIO && s.tcbs[u].prio < IDLE_PRIO && s.prioTbl[p1] == Vacant
    requires s.tcbs[s.cur].event == None && s.tcbs[u].event == None
    ensures var p0 := s.prioCur;
            var s1 := Rename(s, s.cur, p0, p1);
            var s2 := Rename(s1, u, s.tcbs[u].prio, p0);
            && CanSwitch(s2) && IntExit(s2).cur == s.cur
            && IsLeast(IntExit(s2).rdy, p0) && IntExit(s2).prioTbl[p0] == Task(u)
  {
    assert TaskOk(s, s.cur) && TaskOk(s, u);
    var p0 := s.prioCur;
    var s1 := Rename(s, s.cur, p0, p1);
    var s2 := Rename(s1, u, s.tcbs[u].prio, p0);
    forall p | p in s2.rdy
      ensures TaskAt(s2, p) && p0 <= p
    {
      if p != p0 && p != p1 {
        assert TaskAt(s, p);
      }
    }
    assert p0 in s2.rdy;
    assert IDLE_PRIO in s2.rdy;
    assert Least(s2.rdy) == p0;
  }

  // In general: the switch runs the most urgent ready task unless another task runs under that very priority.
  lemma SwitchIsRightUnlessStale(s: State)
    requires CanSwitch(s)
    ensures s.prioTbl[Least(s.rdy)].Task?
    ensures Switch(s).cur == s.prioTbl[Least(s.rdy)].t
            <==> !(s.prioCur == Least(s.rdy) && s.prioTbl[s.prioCur] != Task(s.cur))
  {
    assert TaskAt(s, Least(s.rdy));
  }

  // ---------- what the running task must not do to itself when the scheduler cannot act on it ----------

  // The running task suspends itself for good if and only if the scheduler is unlocked and, outside interrupts, it is
  // named by its current priority. Otherwise it runs on, suspended and not ready.
  lemma SelfSuspension(s: State, prio: nat)
    requires Inv(s) && CanSuspend(s, prio) && s.prioTbl[Named(s, prio)] == Task(s.cur)
    ensures RunOk(TaskSuspend(s, prio).s)
            <==> s.lock == 0 && (s.nesting > 0 || Named(s, prio) == s.tcbs[s.cur].prio)
  {
    assert TaskOk(s, s.cur);
    if s.lock == 0 {
      ParkKeeps(s, s.cur);
      SchedKeeps(Park(s, s.cur));
    }
  }

  // A change of the running task's priority is noticed by the scheduler if and only if it can act at once. Otherwise the
  // recorded current priority is stale.
  lemma SelfChange(s: State, oldPrio: nat, newPrio: nat)
    requires Inv(s) && s.running && CanChange(s, oldPrio, newPrio) && s.prioTbl[Named(s, oldPrio)] == Task(s.cur)
    requires s.prioTbl[newPrio] == Vacant
    ensures RunOk(ChangePrio(s, oldPrio, newPrio).s) <==> s.nesting == 0 && s.lock == 0
  {
    assert TaskOk(s, s.cur) && SlotOk(s, Named(s, oldPrio));
    if s.nesting == 0 && s.lock == 0 {
      ChangePrioKeeps(s, oldPrio, newPrio);
    }
  }

  // A task that deletes itself stops running if and only if the scheduler is unlocked. Otherwise a dead task runs on.
  lemma SelfDeletion(s: State, prio: nat)
    requires Inv(s) && s.running && s.nesting == 0 && prio != IDLE_PRIO && CanDelete(s, prio)
    requires s.prioTbl[Named(s, prio)] == Task(s.cur)
    ensures RunOk(TaskDel(s, prio).s) <==> s.lock == 0
  {
    assert TaskOk(s, s.cur) && SlotOk(s, Named(s, prio));
    if s.lock == 0 {
      TaskDelKeeps(s, prio);
    }
  }

  // ---------- deletion under a saturated scheduler lock ----------

  // Deleting a task leaves the scheduler lock as it was if and only if the lock is not saturated;
  // a saturated lock is released once.
  lemma DeletionKeepsLock(s: State, prio: nat)
    requires Inv(s) && MayDelete(s, prio) && TaskDel(s, prio).err == ErrNone
    ensures TaskDel(s, prio).s.lock == s.lock <==> s.lock < 255
    ensures s.lock >= 255 ==> TaskDel(s, prio).s.lock == s.lock - 1
  {
    var t := s.prioTbl[Named(s, prio)].t;
    assert SlotOk(s, Named(s, prio));
    DismissKeeps(s, t);
    SchedKeeps(Dismiss(s, t));
  }

  // ---------- a mutex must not be posted by a task that is not ready ----------

  // The post of a raised owner makes its caller ready, and leaves everything about it in agreement if and only if the
  // caller was not raised, or is neither suspended nor delayed. A task that suspended itself under a locked scheduler is.
  lemma PostMakesReady(s: State, e: nat)
    requires Core(s) && OwnedByCurrent(s, e) && s.nesting == 0
    ensures var s', k := MutexPost(s, e).s, s.tcbs[s.cur];
            && Shape(s') && s.cur in s'.live && s.cur < |s'.tcbs|
            && s'.tcbs[s.cur].stat == k.stat && s'.tcbs[s.cur].dly == k.dly
            && (k.prio != s.events[e].body.low ==> s'.tcbs[s.cur].prio in s'.rdy)
            && (TaskOk(s', s.cur) <==> k.prio == s.events[e].body.low || (k.stat == {} && k.dly == 0))
  {
    PostIsDefined(s, e);
    RestoredCaller(s, e);
    var s1 := Unraise(s, e);
    if s.events[e].wait != {} {
      HandOverCanSwitch(s1, e);
      HandOverSparesCaller(s1, e);
      SchedIsQuiet(HandOver(s1, e));
      FreedCaller(s1, MutexPost(s, e).s, s.cur);
    } else {
      FreedCaller(s1, MutexPost(s, e).s, s.cur);
    }
  }

  // A task that has lost its mutex is in agreement if and only if it was before.
  lemma FreedCaller(s: State, s': State, t: nat)
    requires Shape(s) && t in s.live && s'.live == s.live && |s'.tcbs| == |s.tcbs| && s'.prioTbl == s.prioTbl
    requires s'.tcbs[t] == s.tcbs[t].(owns := None) && s.tcbs[t].event == None && OwnOk(s, t, s.tcbs[t])
    requires s.tcbs[t].prio in s'.rdy <==> s.tcbs[t].prio in s.rdy
    ensures Shape(s') && (TaskOk(s', t) <==> TaskOk(s, t))
  {
  }

  lemma RestoredCaller(s: State, e: nat)
    requires Core(s) && OwnedByCurrent(s, e)
    ensures var s1, k := Unraise(s, e), s.tcbs[s.cur];
            && Shape(s1) && s1.live == s.live && |s1.tcbs| == |s.tcbs| && s1.cur == s.cur
            && s1.tcbs[s.cur] == k.(prio := s.events[e].body.low) && k.event == None && k.owns == Some(e)
            && OwnOk(s1, s.cur, s1.tcbs[s.cur])
            && s1.tcbs[s.cur].prio < PRIOS && s1.prioTbl[s1.tcbs[s.cur].prio] == Task(s.cur)
            && (k.prio != s.events[e].body.low ==> s1.tcbs[s.cur].prio in s1.rdy)
            && (TaskOk(s1, s.cur) <==> k.prio == s.events[e].body.low || (k.stat == {} && k.dly == 0))
  {
    assert EventOk(s, e) && TaskOk(s, s.cur);
    assert s.tcbs[s.cur].prio == s.events[e].body.low && s.events[e].body.pcp != CEIL_DIS ==> Unraise(s, e) == s by {
      if s.tcbs[s.cur].prio == s.events[e].body.low && s.events[e].body.pcp != CEIL_DIS {
        assert s.prioTbl[s.events[e].body.pcp := Reserved] == s.prioTbl;
      }
    }
  }

  // The hand-over takes the mutex from its owner and changes nothing else about it.
  lemma HandOverSparesCaller(s: State, e: nat)
    requires CanSwitch(s) && WaitersOk(s) && OwnedByCurrent(s, e) && s.events[e].wait != {}
    requires s.tcbs[s.cur].event == None && s.tcbs[s.cur].owns == Some(e) && s.tcbs[s.cur].prio < PRIOS
    requires s.prioTbl[s.tcbs[s.cur].prio] == Task(s.cur)
    ensures var s', k := HandOver(s, e), s.tcbs[s.cur];
            && s'.live == s.live && |s'.tcbs| == |s.tcbs| && s'.tcbs[s.cur] == k.(owns := None)
            && s'.prioTbl == s.prioTbl && (k.prio in s'.rdy <==> k.prio in s.rdy)
  {
    WaiterExists(s, e);
  }

  // ---------- a post by an owner that nobody waits for ----------

  // After such a post the schedule is optimal if and only if no ready task lies between the ceiling and the
  // owner's own priority; the next interrupt exit, or any scheduler call, repairs it.
  lemma DemotionGapIsExact(s: State, e: nat)
    requires Inv(s) && e < |s.events| && s.running && s.nesting == 0 && s.lock == 0 && Optimal(s) && Demotes(s, e)
    ensures Optimal(MutexPost(s, e).s) <==> forall p :: p in s.rdy && p != s.prioCur ==> s.events[e].body.low <= p
    ensures CanSwitch(MutexPost(s, e).s) && Optimal(IntExit(MutexPost(s, e).s))
  {
    DemotionEffect(s, e);
    MutexPostKeeps(s, e);
    IntExitKeeps(MutexPost(s, e).s);
  }

  lemma DemotionEffect(s: State, e: nat)
    requires Inv(s) && e < |s.events| && s.running && s.nesting == 0 && s.lock == 0 && Demotes(s, e)
    ensures var s', low := MutexPost(s, e).s, s.events[e].body.low;
            && s'.rdy == s.rdy - {s.prioCur} + {low} && s'.prioCur == low
            && s'.running && s'.nesting == 0 && s'.lock == 0
  {
    assert EventOk(s, e) && TaskOk(s, s.cur);
    UnraiseKeeps(s, e);
    MutexPostEffect(s, e);
  }
}
