/** What the scheduler's and the tasks' services do, as their callers see it: the answer, every field that changes, and that
    nothing else does. Nothing here is said in terms of the functions from which the services are built. */
module TaskAnswers {
  import opened PrioSets
  import opened KernelState
  import opened Primitives
  import opened EventServices
  import opened TaskServices
  import opened Scheduling
  import opened ServiceCases
  import opened Rules
  import opened DelayTime

  // ---------- what stays ----------

  // Tasks outside `ts` are what they were.
  ghost predicate OtherTasks(s: State, s': State, ts: set<nat>) {
    |s'.tcbs| == |s.tcbs| && forall t :: 0 <= t < |s.tcbs| && t !in ts ==> s'.tcbs[t] == s.tcbs[t]
  }

  // Events outside `es` are what they were.
  ghost predicate OtherEvents(s: State, s': State, es: set<nat>) {
    |s'.events| == |s.events| && forall e :: 0 <= e < |s.events| && e !in es ==> s'.events[e] == s.events[e]
  }

  // Priorities outside `ps` are in the ready list if and only if they were.
  ghost predicate OtherBits(s: State, s': State, ps: set<nat>) {
    forall p :: p !in ps ==> (p in s'.rdy <==> p in s.rdy)
  }

  ghost predicate SameTables(s: State, s': State) {
    s'.live == s.live && s'.list == s.list && s'.tcbFree == s.tcbFree && s'.prioTbl == s.prioTbl
  }

  ghost predicate SamePool(s: State, s': State) {
    s'.evFree == s.evFree && s'.qFree == s.qFree
  }

  ghost predicate SameMode(s: State, s': State) {
    s'.nesting == s.nesting && s'.lock == s.lock && s'.running == s.running
  }

  ghost predicate SameRunner(s: State, s': State) {
    s'.cur == s.cur && s'.prioCur == s.prioCur
  }

  // The scheduler has been called: the most urgent ready task runs, unless an interrupt or the lock holds the switch off.
  ghost predicate Dispatched(s: State, s': State) {
    s.running ==>
      if s.nesting > 0 || s.lock > 0 then SameRunner(s, s')
      else IsLeast(s'.rdy, s'.prioCur) && s'.prioCur < |s'.prioTbl| && s'.prioTbl[s'.prioCur] == Task(s'.cur)
  }

  // The record of the running task says who runs.
  ghost predicate RunnerKnown(s: State) {
    s.running && s.nesting == 0 && s.lock == 0 && s.prioCur in s.rdy ==>
      s.prioCur < |s.prioTbl| && s.prioTbl[s.prioCur] == Task(s.cur)
  }

  lemma SchedDispatches(s: State)
    requires CanSwitch(s) && RunnerKnown(s)
    ensures Dispatched(s, Sched(s)) && Sched(s) == s.(cur := Sched(s).cur, prioCur := Sched(s).prioCur)
  {
    HighestIsTask(s);
  }

  lemma RunnerIsKnown(s: State)
    requires Inv(s)
    ensures s.running ==> s.prioCur < PRIOS && s.prioTbl[s.prioCur] == Task(s.cur) && s.prioCur == s.tcbs[s.cur].prio
    ensures RunnerKnown(s)
  {
    assert s.running ==> TaskOk(s, s.cur);
  }

  // ---------- interrupts, the lock, the start ----------

  // An exit ends one interrupt, and the last one ends in the scheduler; an entry begins one, up to 255.
  lemma InterruptAnswers(s: State)
    requires Inv(s) && s.running
    ensures IntEnter(s) == if s.nesting < 255 then s.(nesting := s.nesting + 1) else s
    ensures s.nesting > 1 ==> IntExit(s) == s.(nesting := s.nesting - 1)
    ensures var s' := IntExit(s);
            && s' == s.(nesting := s'.nesting, cur := s'.cur, prioCur := s'.prioCur)
            && s'.nesting <= s.nesting <= s'.nesting + 1 && (s.nesting <= 1 ==> Dispatched(s.(nesting := 0), s'))
  {
    RunnerIsKnown(s);
    if s.nesting <= 1 {
      SchedDispatches(s.(nesting := 0));
    }
  }

  // Before the start there are no interrupts to count and nothing to lock.
  lemma AnswersBeforeStart(s: State)
    requires Inv(s) && !s.running
    ensures IntEnter(s) == s && IntExit(s) == s && SchedLock(s) == s && SchedUnlock(s) == s && Tick(s) == s
    ensures var s' := Start(s);
            && s' == s.(cur := s'.cur, prioCur := s'.prioCur, running := true)
            && IsLeast(s.rdy, s'.prioCur) && s'.prioCur < |s.prioTbl| && s.prioTbl[s'.prioCur] == Task(s'.cur)
  {
    HighestIsTask(s);
  }

  // The lock nests up to 255, counts in task code alone, and its last release ends in the scheduler.
  lemma LockAnswers(s: State)
    requires Inv(s) && s.running
    ensures Start(s) == s
    ensures SchedLock(s) == if s.nesting == 0 && s.lock < 255 then s.(lock := s.lock + 1) else s
    ensures s.nesting > 0 || s.lock == 0 ==> SchedUnlock(s) == s
    ensures s.nesting == 0 && s.lock > 1 ==> SchedUnlock(s) == s.(lock := s.lock - 1)
    ensures s.nesting == 0 && s.lock == 1 ==>
              var s' := SchedUnlock(s);
              s' == s.(lock := 0, cur := s'.cur, prioCur := s'.prioCur) && Dispatched(s.(lock := 0), s')
  {
    RunnerIsKnown(s);
    if s.nesting == 0 && s.lock == 1 {
      SchedDispatches(s.(lock := 0));
    }
  }

  // ---------- create and delete ----------

  lemma CreateTaskAnswer(s: State, prio: nat)
    requires Inv(s) && prio < PRIOS
    ensures var r := TaskCreate(s, prio);
            if s.nesting > 0 then r == Reply(s, ErrTaskCreateIsr, 0)
            else if s.prioTbl[prio] != Vacant then r == Reply(s, ErrPrioExist, 0)
            else if s.tcbFree == [] then r == Reply(s, ErrTaskNoMoreTcb, 0)
            else
              var t := s.tcbFree[0];
              && r.err == ErrNone && r.val == t && t !in s.live && t < |r.s.tcbs|
              && r.s.tcbs[t] == Tcb(prio, {}, PendOk, 0, None, 0, Running, None) && prio in r.s.rdy
              && OtherTasks(s, r.s, {t}) && r.s.events == s.events && OtherBits(s, r.s, {prio})
              && r.s.live == s.live + {t} && r.s.list == [t] + s.list && s.tcbFree == [t] + r.s.tcbFree
              && r.s.prioTbl == s.prioTbl[prio := Task(t)] && SamePool(s, r.s) && SameMode(s, r.s)
              && if s.running then Dispatched(s, r.s) else SameRunner(s, r.s)
  {
    TaskCreateCases(s, prio);
    if TaskCreateError(s, prio) == ErrNone {
      RunnerIsKnown(s);
      FreshTcb(s);
      SchedDispatches(Admit(s, prio));
    }
  }

  lemma DeleteTaskAnswer(s: State, prio: nat)
    requires Inv(s) && CanDelete(s, prio)
    ensures var p, r := (if prio == 255 then s.tcbs[s.cur].prio else prio), TaskDel(s, prio);
            && p < |s.prioTbl|
            && if s.nesting > 0 then r == Reply(s, ErrTaskDelIsr, 0)
               else if prio == 63 then r == Reply(s, ErrTaskDelIdle, 0)
               else match s.prioTbl[p]
                    case Vacant => r == Reply(s, ErrTaskNotExist, 0)
                    case Reserved => r == Reply(s, ErrTaskDel, 0)
                    case Task(t) =>
                      && r.err == ErrNone && r.val == 0 && Deleted(s, r.s, t, p)
                      && if s.running then Dispatched(s, r.s) else SameRunner(s, r.s)
  {
    TaskDelCases(s, prio);
    var p := Named(s, prio);
    if s.nesting == 0 && prio != IDLE_PRIO && s.prioTbl[p].Task? {
      RunnerIsKnown(s);
      DismissedIsDeleted(s, s.prioTbl[p].t);
      SchedDispatches(Dismiss(s, s.prioTbl[p].t));
    }
  }

  // Task `t` of priority `p` is gone: from the ready list, every wait list, the priority table and the task list.
  ghost predicate Deleted(s: State, s': State, t: nat, p: nat)
    requires p < |s.prioTbl|
  {
    && t < |s'.tcbs| && OtherTasks(s, s', {t}) && s'.rdy == s.rdy - {p}
    && s'.tcbs[t] == s.tcbs[t].(dly := 0, stat := {}, pend := PendOk, event := None, cont := Running)
    && |s'.events| == |s.events|
    && (forall e :: 0 <= e < |s.events| ==>
          s'.events[e].body == s.events[e].body && s'.events[e].wait == s.events[e].wait - {p})
    && s'.live == s.live - {t} && s'.tcbFree == [t] + s.tcbFree
    && (exists i :: 0 <= i < |s.list| && s.list[i] == t && s'.list == s.list[..i] + s.list[i + 1..])
    && s'.prioTbl == s.prioTbl[p := Vacant] && SamePool(s, s') && s'.nesting == s.nesting && s'.running == s.running
    && s'.lock == if s.lock < 255 then s.lock else s.lock - 1
  }

  lemma DismissedIsDeleted(s: State, t: nat)
    requires Core(s) && t in s.live && t in s.list && s.tcbs[t].prio < |s.prioTbl|
    requires s.tcbs[t].event.Some? ==> s.tcbs[t].event.value < |s.events|
    ensures Deleted(s, Dismiss(s, t), t, s.tcbs[t].prio)
  {
    var i := WithoutSplits(s.list, t);
    assert TaskOk(s, t);
    BitOnlyWhereWaiting(s, t);
  }

  // A task's bit is in no wait list but that of the event it waits for.
  lemma BitOnlyWhereWaiting(s: State, t: nat)
    requires Core(s) && t in s.live
    ensures forall e :: 0 <= e < |s.events| && s.tcbs[t].event != Some(e) ==> s.tcbs[t].prio !in s.events[e].wait
  {
    assert TaskOk(s, t);
    forall e | 0 <= e < |s.events| && s.tcbs[t].prio in s.events[e].wait
      ensures s.tcbs[t].event == Some(e)
    {
      assert TaskAt(s, s.tcbs[t].prio);
    }
  }

  // ---------- suspend and resume ----------

  lemma SuspendAnswer(s: State, prio: nat)
    requires Inv(s) && CanSuspend(s, prio)
    ensures var p, r := (if prio == 255 then s.tcbs[s.cur].prio else prio), TaskSuspend(s, prio);
            && p < |s.prioTbl|
            && match s.prioTbl[p]
               case Vacant => r == Reply(s, ErrTaskSuspendPrio, 0)
               case Reserved => r == Reply(s, ErrTaskNotExist, 0)
               case Task(t) =>
                 && r.err == ErrNone && r.val == 0 && t < |r.s.tcbs|
                 && OtherTasks(s, r.s, {t}) && r.s.tcbs[t] == s.tcbs[t].(stat := s.tcbs[t].stat + {SUSPEND})
                 && OtherBits(s, r.s, {s.tcbs[t].prio}) && s.tcbs[t].prio !in r.s.rdy
                 && r.s.events == s.events && SameTables(s, r.s) && SamePool(s, r.s) && SameMode(s, r.s)
                 && if p == s.tcbs[s.cur].prio then Dispatched(s, r.s) else SameRunner(s, r.s)
  {
    SuspendCases(s, prio);
    var p := Named(s, prio);
    if s.prioTbl[p].Task? {
      RunnerIsKnown(s);
      SchedDispatches(Park(s, s.prioTbl[p].t));
    }
  }

  lemma ResumeAnswer(s: State, prio: nat)
    requires Inv(s) && prio < PRIOS
    ensures var r := TaskResume(s, prio);
            match s.prioTbl[prio]
            case Vacant => r == Reply(s, ErrTaskResumePrio, 0)
            case Reserved => r == Reply(s, ErrTaskNotExist, 0)
            case Task(t) =>
              && t < |s.tcbs|
              && var k := s.tcbs[t];
              if SUSPEND !in k.stat then r == Reply(s, ErrTaskNotSuspended, 0)
              else
                && r.err == ErrNone && r.val == 0 && t < |r.s.tcbs|
                && OtherTasks(s, r.s, {t}) && r.s.tcbs[t] == k.(stat := k.stat - {SUSPEND})
                && OtherBits(s, r.s, {k.prio}) && (k.prio in r.s.rdy <==> k.stat == {SUSPEND} && k.dly == 0)
                && r.s.events == s.events && SameTables(s, r.s) && SamePool(s, r.s) && SameMode(s, r.s)
                && if s.running && k.prio in r.s.rdy then Dispatched(s, r.s) else SameRunner(s, r.s)
  {
    ResumeCases(s, prio);
    if s.prioTbl[prio].Task? && SUSPEND in s.tcbs[s.prioTbl[prio].t].stat {
      RunnerIsKnown(s);
      assert TaskOk(s, s.prioTbl[prio].t);
      SchedDispatches(Unpark(s, s.prioTbl[prio].t));
    }
  }

  // ---------- change of priority ----------

  lemma ChangeAnswer(s: State, oldPrio: nat, newPrio: nat)
    requires Inv(s) && CanChange(s, oldPrio, newPrio)
    ensures var p, r := (if oldPrio == 255 then s.tcbs[s.cur].prio else oldPrio), ChangePrio(s, oldPrio, newPrio);
            && p < |s.prioTbl|
            && if s.prioTbl[newPrio] != Vacant then r == Reply(s, ErrPrioExist, 0)
               else match s.prioTbl[p]
                    case Vacant => r == Reply(s, ErrPrio, 0)
                    case Reserved => r == Reply(s, ErrTaskNotExist, 0)
                    case Task(t) =>
                      && r.err == ErrNone && r.val == 0 && Moved(s, r.s, t, p, newPrio)
                      && if s.running then Dispatched(s, r.s) else SameRunner(s, r.s)
  {
    ChangeCases(s, oldPrio, newPrio);
    var p := Named(s, oldPrio);
    if s.prioTbl[newPrio] == Vacant && s.prioTbl[p].Task? {
      RunnerIsKnown(s);
      RenamedIsMoved(s, s.prioTbl[p].t, newPrio);
      SchedDispatches(Rename(s, s.prioTbl[p].t, p, newPrio));
    }
  }

  // Task `t` has moved from priority `p` to `p1`: in its record, the priority table, the ready list and every wait list.
  ghost predicate Moved(s: State, s': State, t: nat, p: nat, p1: nat)
    requires p < |s.prioTbl| && p1 < |s.prioTbl|
  {
    && t < |s'.tcbs| && OtherTasks(s, s', {t}) && s'.tcbs[t] == s.tcbs[t].(prio := p1)
    && s'.prioTbl == s.prioTbl[p := Vacant][p1 := Task(t)]
    && (forall q :: q in s'.rdy <==> if q == p1 then p in s.rdy else q != p && q in s.rdy)
    && |s'.events| == |s.events|
    && (forall e :: 0 <= e < |s.events| ==> s'.events[e].body == s.events[e].body)
    && (forall e, q :: 0 <= e < |s.events| ==>
          (q in s'.events[e].wait <==> if q == p1 then p in s.events[e].wait else q != p && q in s.events[e].wait))
    && s'.live == s.live && s'.list == s.list && s'.tcbFree == s.tcbFree && SamePool(s, s') && SameMode(s, s')
  }

  lemma RenamedIsMoved(s: State, t: nat, p1: nat)
    requires Core(s) && t in s.live && p1 < PRIOS && s.prioTbl[p1] == Vacant && s.tcbs[t].prio < PRIOS
    requires s.tcbs[t].event.Some? ==> s.tcbs[t].event.value < |s.events|
    ensures Moved(s, Rename(s, t, s.tcbs[t].prio, p1), t, s.tcbs[t].prio, p1)
  {
    VacantUnused(s, p1);
    assert TaskOk(s, t);
    BitOnlyWhereWaiting(s, t);
  }

  // ---------- delay and tick ----------

  lemma DelayAnswer(s: State, ticks: nat)
    requires Inv(s) && MaySleep(s)
    ensures var s', k := TimeDly(s, ticks), s.tcbs[s.cur];
            if s.nesting > 0 || s.lock > 0 || ticks == 0 then s' == s
            else
              && OtherTasks(s, s', {s.cur}) && s'.tcbs[s.cur] == k.(dly := ticks)
              && OtherBits(s, s', {k.prio}) && k.prio !in s'.rdy
              && s'.events == s.events && SameTables(s, s') && SamePool(s, s') && SameMode(s, s') && Dispatched(s, s')
  {
    SleepCases(s, ticks);
    if s.nesting == 0 && s.lock == 0 && ticks > 0 {
      RunnerIsKnown(s);
      SchedDispatches(Sleep(s, ticks));
    }
  }

  // The delay in hours, minutes, seconds and milliseconds: the caller has the requested time to wait, to the nearest tick.
  lemma DelayTimeAnswer(s: State, hours: nat, minutes: nat, seconds: nat, ms: nat)
    requires Inv(s) && MaySleep(s) && s.nesting == 0 && s.lock == 0
    requires hours < 256 && minutes < 256 && seconds < 256 && ms < 65536
    ensures var s' := TimeDly(s, DelayTicks(TICKS_PER_SEC, hours, minutes, seconds, ms));
            s.cur < |s'.tcbs| && NearestTick(s'.tcbs[s.cur].dly, Milliseconds(hours, minutes, seconds, ms))
  {
    ConfiguredDelay(hours, minutes, seconds, ms);
    DelayAnswer(s, DelayTicks(TICKS_PER_SEC, hours, minutes, seconds, ms));
    assert TaskOk(s, s.cur);
  }

  // A tick counts for every live task but the idle one. The last tick of a wait takes the wait bits away and records a
  // timeout; the last tick of any count makes the task ready unless it is suspended.
  lemma TickAnswer(s: State, t: nat)
    requires Inv(s) && t in s.live && s.running
    ensures var s', k := Tick(s), s.tcbs[t];
            && |s'.tcbs| == |s.tcbs|
            && (k.dly == 0 || k.prio == 63 ==> s'.tcbs[t] == k)
            && (k.dly > 1 && k.prio != 63 ==> s'.tcbs[t] == k.(dly := k.dly - 1))
            && (k.dly == 1 && k.prio != 63 && k.event.Some? ==>
                  s'.tcbs[t] == k.(dly := 0, pend := PendTimeout, stat := if SUSPEND in k.stat then {SUSPEND} else {}))
            && (k.dly == 1 && k.prio != 63 && k.event == None ==> s'.tcbs[t] == k.(dly := 0))
            && (k.prio in s'.rdy <==> k.prio in s.rdy || (k.dly == 1 && SUSPEND !in k.stat))
  {
    assert TaskOk(s, t);
    TickedTask(s, t);
    IdleIsReady(s, t);
    OnlySuspendLeft(s.tcbs[t].stat);
    TickedReady(s.tcbs[t]);
  }

  // And a tick changes nothing else.
  lemma TickFrame(s: State)
    ensures var s' := Tick(s);
            && OtherTasks(s, s', s.live) && s'.events == s.events && SameTables(s, s') && SamePool(s, s')
            && SameMode(s, s') && SameRunner(s, s')
  {
  }
}
