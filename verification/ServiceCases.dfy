/** The services by cases, as the imperative kernel meets them: what each branch does to the state. */
module ServiceCases {
  import opened PrioSets
  import opened KernelState
  import opened Primitives
  import opened EventServices
  import opened MutexServices
  import opened TaskServices
  import opened KernelRep
  import opened Runs

  lemma HighestIsTask(s: State)
    requires CanSwitch(s)
    ensures s.rdy != {} && Least(s.rdy) < |s.prioTbl| && s.prioTbl[Least(s.rdy)].Task?
  {
    assert Least(s.rdy) in s.rdy && TaskAt(s, Least(s.rdy));
  }

  // Task `t` is told the outcome of its wait, is made ready, and leaves the wait list of event `e`.
  function WokenFrom(s: State, t: nat, e: nat, msg: nat, kind: StatBit, pend: PendStat): State
    requires t < |s.tcbs| && e < |s.events|
  {
    var k := s.tcbs[t].(dly := 0, msg := msg, stat := s.tcbs[t].stat - {kind}, pend := pend);
    var s1 := SetTcb(s, t, k);
    Removed(if SUSPEND !in k.stat then s1.(rdy := s1.rdy + {k.prio}) else s1, t, e)
  }

  lemma WakeTakesWaiter(s: State, e: nat, msg: nat, kind: StatBit, pend: PendStat)
    requires HasWaiter(s, e)
    ensures var p := Least(s.events[e].wait);
            && p < |s.prioTbl| && s.prioTbl[p].Task? && s.prioTbl[p].t in s.live && s.prioTbl[p].t < |s.tcbs|
            && Wake(s, e, msg, kind, pend) == WokenFrom(s, s.prioTbl[p].t, e, msg, kind, pend)
  {
    var t := s.prioTbl[Least(s.events[e].wait)].t;
    assert Wake(s, e, msg, kind, pend).tcbs == WokenFrom(s, t, e, msg, kind, pend).tcbs;
  }

  lemma NotFree(s: State, e: nat)
    requires PoolOk(s) && e < |s.events| && !s.events[e].body.Unused?
    ensures e !in s.evFree
  {
  }

  lemma OneFewer(s: State, e: nat, msg: nat, kind: StatBit, pend: PendStat)
    requires Core(s) && e < |s.events| && s.events[e].wait != {} && IsKind(s.events[e].body, kind) && pend != PendTimeout
    ensures HasWaiter(s, e)
    ensures var s' := Wake(s, e, msg, kind, pend);
            && Core(s') && |s'.events| == |s.events| && s'.events[e].body == s.events[e].body
            && |s'.events[e].wait| == |s.events[e].wait| - 1
            && WakeAll(s', e, msg, kind, pend) == WakeAll(s, e, msg, kind, pend)
  {
    WakeKeeps(s, e, msg, kind, pend);
    assert Least(s.events[e].wait) in s.events[e].wait;
  }

  lemma PostCases(s: State, kind: StatBit, e: nat, msg: nat, opt: PostOpt)
    requires Inv(s) && e < |s.events| && MayPost(kind, msg, opt)
    ensures var b, r := s.events[e].body, Post(s, kind, e, msg, opt);
            if !IsKind(b, kind) then r == Reply(s, ErrEventType, 0)
            else if s.events[e].wait != {} then
              && HasWaiter(s, e)
              && var s1 := WakeSome(s, kind, e, msg, PendOk, opt.broadcast);
              && CanSwitch(s1) && r == Reply(if opt.noSched then s1 else Sched(s1), ErrNone, 0)
            else if Full(b) then r == Reply(s, FullError(kind), 0)
            else r == Reply(SetBody(s, e, AfterPut(b, msg, opt.front)), ErrNone, 0)
  {
    if IsKind(s.events[e].body, kind) && s.events[e].wait != {} {
      WakeKeeps(s, e, msg, kind, PendOk);
      WakeSomeKeeps(s, kind, e, msg, PendOk, opt.broadcast);
    }
  }

  lemma PendCases(s: State, kind: StatBit, e: nat, timeout: nat)
    requires Inv(s) && MayBlock(s) && e < |s.events| && kind != MUTEX
    ensures var b, r := s.events[e].body, Pend(s, kind, e, timeout);
            if !IsKind(b, kind) then r == Reply(s, ErrEventType, 0)
            else if s.nesting > 0 then r == Reply(s, ErrPendIsr, 0)
            else if s.lock > 0 then r == Reply(s, ErrPendLocked, 0)
            else if Available(b) then r == Reply(SetBody(s, e, AfterTake(b)), ErrNone, Taken(b))
            else
              && CanSwitch(Block(s, e, kind, timeout))
              && r == Reply(Sched(Block(s, e, kind, timeout)), ErrBlocked, 0)
  {
    if Pend(s, kind, e, timeout).err == ErrBlocked {
      BlockKeeps(s, e, kind, timeout);
    }
  }

  // Task `t` is taken off the wait list of event `e`.
  function Removed(s: State, t: nat, e: nat): State
    requires t < |s.tcbs| && e < |s.events|
  {
    SetTcb(SetWait(s, e, s.events[e].wait - {s.tcbs[t].prio}), t, s.tcbs[t].(event := None))
  }

  function Left(s: State, kind: StatBit): State
    requires s.cur < |s.tcbs|
  {
    var k := s.tcbs[s.cur];
    SetTcb(s, s.cur, k.(stat := {}, pend := PendOk, event := None, cont := Running,
                        msg := if CarriesMessage(kind) then 0 else k.msg))
  }

  // What a task leaving a pend does to its event and to itself, step by step.
  function Unblock(s: State): State
    requires s.cur < |s.tcbs| && s.tcbs[s.cur].cont.Pending?
    requires s.tcbs[s.cur].pend == PendTimeout ==> s.tcbs[s.cur].cont.e < |s.events|
  {
    var k := s.tcbs[s.cur];
    Left(if k.pend == PendTimeout then Removed(s, s.cur, k.cont.e) else s, k.cont.kind)
  }

  lemma FinishCases(s: State)
    requires Inv(s) && InPend(s)
    ensures s.cur in s.live && (s.tcbs[s.cur].pend == PendTimeout ==> s.tcbs[s.cur].cont.e < |s.events|)
    ensures PendFinish(s).s == Unblock(s)
  {
    assert TaskOk(s, s.cur);
    assert PendFinish(s).s.tcbs == Unblock(s).tcbs;
  }

  lemma AbortCases(s: State, kind: StatBit, e: nat, all: bool)
    requires Inv(s) && e < |s.events| && kind != MUTEX
    ensures var b, r := s.events[e].body, Abort(s, kind, e, all);
            if !IsKind(b, kind) then r == Reply(s, ErrEventType, 0)
            else if s.events[e].wait == {} then r == Reply(s, ErrNone, 0)
            else
              && HasWaiter(s, e)
              && var s1 := WakeSome(s, kind, e, 0, PendAbort, all);
              && CanSwitch(s1) && r == Reply(Sched(s1), ErrPendAbort, if all then |s.events[e].wait| else 1)
  {
    if IsKind(s.events[e].body, kind) && s.events[e].wait != {} {
      WakeKeeps(s, e, 0, kind, PendAbort);
      WakeSomeKeeps(s, kind, e, 0, PendAbort, all);
    }
  }

  lemma DeleteCases(s: State, kind: StatBit, e: nat, opt: DelOpt)
    requires Inv(s) && e < |s.events| && kind != MUTEX
    ensures var b, r := s.events[e].body, Delete(s, kind, e, opt);
            if !IsKind(b, kind) then r == Reply(s, ErrEventType, e)
            else if s.nesting > 0 then r == Reply(s, ErrDelIsr, e)
            else if opt == OtherOpt then r == Reply(s, ErrInvalidOpt, e)
            else if opt == NoPend then
              if s.events[e].wait == {} then r == Reply(Release(s, e), ErrNone, 0) else r == Reply(s, ErrTaskWaiting, e)
            else
              var s1 := Dissolve(s, kind, e);
              && CanSwitch(s1) && r == Reply(if s.events[e].wait != {} then Sched(s1) else s1, ErrNone, 0)
  {
    if IsKind(s.events[e].body, kind) {
      DissolveKeeps(s, kind, e);
    }
  }

  lemma DissolveCases(s: State, kind: StatBit, e: nat)
    requires Core(s) && e < |s.events| && IsKind(s.events[e].body, kind)
    ensures var s1 := WakeAll(s, e, 0, kind, PendAbort);
            && |s1.events| == |s.events| && e !in s1.evFree && (s1.events[e].body.Queue? <==> kind == Q)
            && Dissolve(s, kind, e) == Release(s1, e)
  {
    WakeAllKeeps(s, e, 0, kind, PendAbort);
  }

  // ---------- tasks and time ----------

  lemma SleepCases(s: State, ticks: nat)
    requires Inv(s) && MaySleep(s)
    ensures if s.nesting > 0 || s.lock > 0 || ticks == 0 then TimeDly(s, ticks) == s
            else CanSwitch(Sleep(s, ticks)) && TimeDly(s, ticks) == Sched(Sleep(s, ticks))
  {
    if s.nesting == 0 && s.lock == 0 && ticks > 0 {
      SleepKeeps(s, ticks);
    }
  }

  // The running task has no delay before it asks for one.
  lemma SleeperCounts(s: State, ticks: nat)
    requires Inv(s) && MaySleep(s)
    ensures s.nesting == 0 && s.lock == 0 ==>
              s.cur < |TimeDly(s, ticks).tcbs| && TimeDly(s, ticks).tcbs[s.cur].dly == ticks
  {
    assert TaskOk(s, s.cur);
    SleepCases(s, ticks);
  }

  lemma SuspendCases(s: State, prio: nat)
    requires Inv(s) && CanSuspend(s, prio)
    ensures var p := Named(s, prio);
            match s.prioTbl[p]
            case Vacant => TaskSuspend(s, prio) == Reply(s, ErrTaskSuspendPrio, 0)
            case Reserved => TaskSuspend(s, prio) == Reply(s, ErrTaskNotExist, 0)
            case Task(t) =>
              && t in s.live && t < |s.tcbs| && CanSwitch(Park(s, t))
              && TaskSuspend(s, prio)
                 == Reply(if p == s.tcbs[s.cur].prio then Sched(Park(s, t)) else Park(s, t), ErrNone, 0)
  {
    var p := Named(s, prio);
    assert SlotOk(s, p);
    if s.prioTbl[p].Task? {
      ParkCore(s, s.prioTbl[p].t);
    }
  }

  lemma ResumeCases(s: State, prio: nat)
    requires Inv(s) && prio < PRIOS
    ensures match s.prioTbl[prio]
            case Vacant => TaskResume(s, prio) == Reply(s, ErrTaskResumePrio, 0)
            case Reserved => TaskResume(s, prio) == Reply(s, ErrTaskNotExist, 0)
            case Task(t) =>
              && t in s.live && t < |s.tcbs|
              && if SUSPEND !in s.tcbs[t].stat then TaskResume(s, prio) == Reply(s, ErrTaskNotSuspended, 0)
                 else
                   var s1 := Unpark(s, t);
                   && CanSwitch(s1) && s1.tcbs[t].stat <= PEND_ANY
                   && TaskResume(s, prio)
                      == Reply(if s1.tcbs[t].stat == {} && s1.tcbs[t].dly == 0 && s.running then Sched(s1) else s1, ErrNone, 0)
  {
    assert SlotOk(s, prio);
    if s.prioTbl[prio].Task? && SUSPEND in s.tcbs[s.prioTbl[prio].t].stat {
      UnparkKeeps(s, s.prioTbl[prio].t);
      PendBits(s.tcbs[s.prioTbl[prio].t].stat);
    }
  }

  lemma PendBits(stat: set<StatBit>)
    ensures stat - {SUSPEND} <= PEND_ANY
  {
    forall b | b in stat
      ensures b in PEND_ANY || b == SUSPEND
    {
    }
  }

  lemma ChangeCases(s: State, oldPrio: nat, newPrio: nat)
    requires Inv(s) && CanChange(s, oldPrio, newPrio)
    ensures var p := Named(s, oldPrio);
            if s.prioTbl[newPrio] != Vacant then ChangePrio(s, oldPrio, newPrio) == Reply(s, ErrPrioExist, 0)
            else
              match s.prioTbl[p]
              case Vacant => ChangePrio(s, oldPrio, newPrio) == Reply(s, ErrPrio, 0)
              case Reserved => ChangePrio(s, oldPrio, newPrio) == Reply(s, ErrTaskNotExist, 0)
              case Task(t) =>
                && t in s.live && t < |s.tcbs| && s.tcbs[t].prio == p && p < PRIOS && newPrio < PRIOS
                && (s.tcbs[t].event.Some? ==> s.tcbs[t].event.value < |s.events|)
                && var s1 := Rename(s, t, p, newPrio);
                && CanSwitch(s1)
                && ChangePrio(s, oldPrio, newPrio) == Reply(if s.running then Sched(s1) else s1, ErrNone, 0)
  {
    var p := Named(s, oldPrio);
    if s.prioTbl[newPrio] == Vacant && s.prioTbl[p].Task? {
      assert SlotOk(s, p);
      RenameCore(s, s.prioTbl[p].t, newPrio);
    }
  }

  lemma TaskCreateCases(s: State, prio: nat)
    requires Inv(s) && prio < PRIOS
    ensures TaskCreateError(s, prio) == ErrNone ==>
              && s.tcbFree != [] && s.tcbFree[0] < |s.tcbs| && CanSwitch(Admit(s, prio))
              && TaskCreate(s, prio)
                 == Reply(if s.running then Sched(Admit(s, prio)) else Admit(s, prio), ErrNone, s.tcbFree[0])
  {
    if TaskCreateError(s, prio) == ErrNone {
      AdmitKeeps(s, prio);
    }
  }

  lemma TaskDelCases(s: State, prio: nat)
    requires Inv(s) && CanDelete(s, prio)
    ensures var p := Named(s, prio);
            if s.nesting > 0 then TaskDel(s, prio) == Reply(s, ErrTaskDelIsr, 0)
            else if prio == IDLE_PRIO then TaskDel(s, prio) == Reply(s, ErrTaskDelIdle, 0)
            else
              match s.prioTbl[p]
              case Vacant => TaskDel(s, prio) == Reply(s, ErrTaskNotExist, 0)
              case Reserved => TaskDel(s, prio) == Reply(s, ErrTaskDel, 0)
              case Task(t) =>
                && t in s.live && t < |s.tcbs| && s.tcbs[t].prio == p && p < PRIOS
                && (s.tcbs[t].event.Some? ==> s.tcbs[t].event.value < |s.events|)
                && CanSwitch(Dismiss(s, t)) && t in s.list && s.list[|s.list| - 1] != t && NoDup(s.list + s.tcbFree)
                && TaskDel(s, prio) == Reply(if s.running then Sched(Dismiss(s, t)) else Dismiss(s, t), ErrNone, 0)
  {
    var p := Named(s, prio);
    if s.nesting == 0 && prio != IDLE_PRIO && s.prioTbl[p].Task? {
      assert SlotOk(s, p);
      DismissCore(s, s.prioTbl[p].t);
    }
  }

  // A slot that is reserved while the task is being created ends up the same.
  lemma ReserveFirst(s: State, prio: nat)
    requires prio < |s.prioTbl| && s.prioTbl[prio] == Vacant
    ensures var s1 := s.(prioTbl := s.prioTbl[prio := Reserved]);
            && s1.(prioTbl := s1.prioTbl[prio := Vacant]) == s
            && (s.tcbFree != [] && s.tcbFree[0] < |s.tcbs| ==> Admit(s1, prio) == Admit(s, prio))
  {
    assert s.prioTbl[prio := Reserved][prio := Vacant] == s.prioTbl;
    forall t
      ensures s.prioTbl[prio := Reserved][prio := Task(t)] == s.prioTbl[prio := Task(t)]
    {
    }
  }

  // Deletion up to the lists, step by step.
  function Stopped(s: State, t: nat): State
    requires t < |s.tcbs| && s.tcbs[t].prio < |s.prioTbl|
    requires s.tcbs[t].event.Some? ==> s.tcbs[t].event.value < |s.events|
  {
    var k := s.tcbs[t];
    var s1 := s.(rdy := s.rdy - {k.prio});
    var s2 := if k.event.Some? then Removed(s1, t, k.event.value) else s1;
    SetTcb(s2, t, s2.tcbs[t].(dly := 0, stat := {}, pend := PendOk, event := None, cont := Running))
  }

  lemma DismissSteps(s: State, t: nat)
    requires t < |s.tcbs| && s.tcbs[t].prio < |s.prioTbl|
    requires s.tcbs[t].event.Some? ==> s.tcbs[t].event.value < |s.events|
    ensures Dismiss(s, t) == Stopped(s, t).(
                               prioTbl := s.prioTbl[s.tcbs[t].prio := Vacant], live := s.live - {t},
                               list := Without(s.list, t), tcbFree := [t] + s.tcbFree, lock := LockAfterDelete(s.lock))
  {
    assert Dismiss(s, t).tcbs == Stopped(s, t).tcbs;
  }

  // ---------- mutexes ----------

  lemma MutexPendCases(s: State, e: nat, timeout: nat)
    requires Inv(s) && MayBlock(s) && e < |s.events|
    ensures var b, r := s.events[e].body, MutexPend(s, e, timeout);
            if !b.Mutex? then r == Reply(s, ErrEventType, 0)
            else if s.nesting > 0 then r == Reply(s, ErrPendIsr, 0)
            else if s.lock > 0 then r == Reply(s, ErrPendLocked, 0)
            else if b.low == AVAILABLE then r == Reply(Acquire(s, e), AcquireError(s, e), 0)
            else
              && b.owner.Some? && AtTaskLevel(s) && s.tcbs[s.cur].owns == None
              && var s1 := MaybeRaise(s, e);
              && s1.cur == s.cur && s1.cur in s1.live && s1.cur < |s1.tcbs| && e < |s1.events|
              && CanSwitch(Block(s1, e, MUTEX, timeout))
              && r == Reply(Sched(Block(s1, e, MUTEX, timeout)), ErrBlocked, 0)
  {
    assert EventOk(s, e);
    if MutexPend(s, e, timeout).err == ErrBlocked {
      MaybeRaiseKeeps(s, e);
      BlockKeeps(MaybeRaise(s, e), e, MUTEX, timeout);
    }
  }

  lemma RaiseCases(s: State, e: nat)
    requires Inv(s) && e < |s.events| && s.events[e].body.Mutex? && s.events[e].body.owner.Some? && s.cur < |s.tcbs|
    ensures var b := s.events[e].body;
            && b.owner.value in s.live && b.owner.value < |s.tcbs| && (b.pcp == CEIL_DIS || b.pcp < PRIOS) && b.low < PRIOS
            && |s.prioTbl| == PRIOS
            && (NeedsRaise(s, e) <==>
                  b.pcp != CEIL_DIS && s.tcbs[b.owner.value].prio > b.pcp && b.low > s.tcbs[s.cur].prio)
            && if NeedsRaise(s, e) then
                 s.tcbs[b.owner.value].event == None && MaybeRaise(s, e) == RaiseOwner(s, b.owner.value, b.pcp)
               else MaybeRaise(s, e) == s
  {
    assert EventOk(s, e);
    if NeedsRaise(s, e) {
      RaiseKeeps(s, e);
    }
  }

  lemma MutexAcceptCases(s: State, e: nat)
    requires Inv(s) && MayBlock(s) && e < |s.events|
    ensures var b, r := s.events[e].body, MutexAccept(s, e);
            if !b.Mutex? then r == Reply(s, ErrEventType, 0)
            else if s.nesting > 0 then r == Reply(s, ErrPendIsr, 0)
            else if b.low == AVAILABLE then r == Reply(Acquire(s, e), AcquireError(s, e), 1)
            else r == Reply(s, ErrNone, 0)
  {
  }

  lemma MutexPostCases(s: State, e: nat)
    requires Inv(s) && e < |s.events| && s.running
    ensures var b, r := s.events[e].body, MutexPost(s, e);
            if s.nesting > 0 then r == Reply(s, ErrPostIsr, 0)
            else if !b.Mutex? then r == Reply(s, ErrEventType, 0)
            else if b.owner != Some(s.cur) then r == Reply(s, ErrNotMutexOwner, 0)
            else
              && OwnedByCurrent(s, e)
              && var s1 := Unraise(s, e);
              && Inv(s1) && s1.events == s.events && OwnedByCurrent(s1, e) && s1.tcbs[s1.cur].prio == b.low
              && if s.events[e].wait == {} then r == Reply(Transfer(s1, e, |s1.tcbs|), ErrNone, 0)
                 else
                   && CanSwitch(HandOver(s1, e))
                   && r == Reply(Sched(HandOver(s1, e)),
                                 if b.pcp != CEIL_DIS && Least(s.events[e].wait) <= b.pcp then ErrPcpLower else ErrNone, 0)
  {
    if s.nesting == 0 && OwnedByCurrent(s, e) {
      UnraiseKeeps(s, e);
      if s.events[e].wait != {} {
        HandOverKeeps(Unraise(s, e), e);
      }
    }
  }

  lemma UnraiseCases(s: State, e: nat)
    requires Inv(s) && OwnedByCurrent(s, e)
    ensures var b := s.events[e].body;
            && b.low < PRIOS && |s.prioTbl| == PRIOS && (b.pcp == CEIL_DIS || b.pcp < PRIOS)
            && Unraise(s, e) == if b.pcp == CEIL_DIS then s
                                else if s.tcbs[s.cur].prio == b.pcp then Restore(s, b.pcp, b.low)
                                else s.(prioTbl := s.prioTbl[b.pcp := Reserved])
  {
    assert EventOk(s, e);
  }

  lemma HandOverCases(s: State, e: nat)
    requires Core(s) && e < |s.events| && s.events[e].body.Mutex? && s.events[e].wait != {}
    ensures HasWaiter(s, e)
    ensures var s1, t := Wake(s, e, 0, MUTEX, PendOk), Waiter(s, e);
            && s1.live == s.live && |s1.tcbs| == |s.tcbs| && t in s1.live && t < |s1.tcbs| && s1.prioTbl == s.prioTbl
            && s1.tcbs[t].prio == Least(s.events[e].wait) && Least(s.events[e].wait) < PRIOS
            && s1.prioTbl[Least(s.events[e].wait)] == Task(t)
            && |s1.events| == |s.events| && s1.events[e].body == s.events[e].body && e !in s1.evFree
            && HandOver(s, e) == Transfer(s1, e, t)
  {
    WakeKeeps(s, e, 0, MUTEX, PendOk);
  }

  // The number after the last task names no task.
  lemma NobodyHas(s: State)
    requires Shape(s)
    ensures |s.tcbs| !in s.live
  {
  }

  lemma UnownedMutex(s: State, e: nat)
    requires Inv(s) && e < |s.events| && s.events[e].body.Mutex? && s.events[e].body.owner == None
    ensures s.events[e].wait == {} && e !in s.evFree && |s.prioTbl| == PRIOS
  {
    assert EventOk(s, e);
  }

  // ---------- the clock tick ----------

  function TickTask(s: State, t: nat): State
    requires t < |s.tcbs|
  {
    var k := s.tcbs[t];
    SetTcb(s, t, Ticked(k)).(rdy := if WakesUp(k) then s.rdy + {k.prio} else s.rdy)
  }

  // The first `i` tasks of the list have been visited.
  function TickSome(s: State, i: nat): (s': State)
    requires i <= |s.list| && forall j :: 0 <= j < |s.list| ==> s.list[j] < |s.tcbs|
    ensures |s'.tcbs| == |s.tcbs|
  {
    if i == 0 then s else TickTask(TickSome(s, i - 1), s.list[i - 1])
  }

  lemma {:induction false} TickSomeFrame(s: State, i: nat)
    requires i <= |s.list| && forall j :: 0 <= j < |s.list| ==> s.list[j] < |s.tcbs|
    ensures var s' := TickSome(s, i);
            s' == s.(tcbs := s'.tcbs, rdy := s'.rdy) && forall u :: 0 <= u < |s.tcbs| ==> s'.tcbs[u].prio == s.tcbs[u].prio
  {
    if i > 0 {
      TickSomeFrame(s, i - 1);
    }
  }

  lemma {:induction false} TickSomeTcbs(s: State, i: nat)
    requires i <= |s.list| && NoDup(s.list) && forall j :: 0 <= j < |s.list| ==> s.list[j] < |s.tcbs|
    ensures forall t :: 0 <= t < |s.tcbs| ==>
              TickSome(s, i).tcbs[t] == if t in s.list[..i] then Ticked(s.tcbs[t]) else s.tcbs[t]
  {
    if i > 0 {
      TickSomeTcbs(s, i - 1);
      assert s.list[..i] == s.list[..i - 1] + [s.list[i - 1]];
    }
  }

  lemma TickSomeNext(s: State, i: nat, s': State)
    requires i < |s.list| && forall j :: 0 <= j < |s.list| ==> s.list[j] < |s.tcbs|
    requires s' == TickTask(TickSome(s, i), s.list[i])
    ensures s' == TickSome(s, i + 1) && s'.list == s.list && s'.live == s.live && |s'.tcbs| == |s.tcbs|
    ensures i + 1 < |s.list| ==> s'.tcbs[s.list[i + 1]].prio == s.tcbs[s.list[i + 1]].prio
  {
    TickSomeFrame(s, i + 1);
  }

  // One of the first `i` tasks of the list has priority `p`, and the tick makes it ready.
  ghost predicate WokenByTick(s: State, i: nat, p: nat)
    requires i <= |s.list| && forall j :: 0 <= j < |s.list| ==> s.list[j] < |s.tcbs|
  {
    exists j :: 0 <= j < i && WakesUp(s.tcbs[s.list[j]]) && s.tcbs[s.list[j]].prio == p
  }

  lemma {:induction false} TickSomeReady(s: State, i: nat, p: nat)
    requires i <= |s.list| && NoDup(s.list) && forall j :: 0 <= j < |s.list| ==> s.list[j] < |s.tcbs|
    ensures p in TickSome(s, i).rdy <==> p in s.rdy || WokenByTick(s, i, p)
  {
    if i > 0 {
      TickSomeReady(s, i - 1, p);
      var t := s.list[i - 1];
      assert TickSome(s, i - 1).tcbs[t] == s.tcbs[t] by {
        TickSomeTcbs(s, i - 1);
      }
      OneMoreWoken(s, i, p);
    }
  }

  lemma OneMoreWoken(s: State, i: nat, p: nat)
    requires 0 < i <= |s.list| && forall j :: 0 <= j < |s.list| ==> s.list[j] < |s.tcbs|
    ensures var k := s.tcbs[s.list[i - 1]];
            WokenByTick(s, i, p) <==> WokenByTick(s, i - 1, p) || (WakesUp(k) && k.prio == p)
  {
  }

  // The list holds live tasks, and only the last of them is the idle task.
  ghost predicate IdleLast(s: State) {
    && s.list != [] && (forall j :: 0 <= j < |s.list| ==> s.list[j] in s.live && s.list[j] < |s.tcbs|)
    && (forall j :: 0 <= j < |s.list| ==> (s.tcbs[s.list[j]].prio == IDLE_PRIO <==> j == |s.list| - 1))
  }

  lemma ListFacts(s: State)
    requires Core(s)
    ensures NoDup(s.list) && IdleLast(s)
  {
    var all := s.list + s.tcbFree;
    forall i, j | 0 <= i < j < |s.list|
      ensures s.list[i] != s.list[j]
    {
      assert all[i] == s.list[i] && all[j] == s.list[j];
    }
    forall j | 0 <= j < |s.list|
      ensures s.list[j] in s.live && s.list[j] < |s.tcbs|
    {
      assert s.list[j] in s.list;
    }
    var n := |s.list| - 1;
    forall j | 0 <= j < |s.list|
      ensures s.tcbs[s.list[j]].prio == IDLE_PRIO <==> j == n
    {
      assert TaskOk(s, s.list[j]) && TaskOk(s, s.list[n]);
    }
  }

  // Visiting every task before the idle one is the tick.
  lemma TickSomeIsTick(s: State, i: nat)
    requires Core(s) && s.running && i < |s.list| && s.list[i] < |s.tcbs| && s.tcbs[s.list[i]].prio == IDLE_PRIO
    ensures forall j :: 0 <= j < |s.list| ==> s.list[j] < |s.tcbs|
    ensures TickSome(s, i) == Tick(s)
  {
    ListFacts(s);
    TickSomeFrame(s, i);
    VisitedTcbs(s, i);
    VisitedReady(s, i);
  }

  lemma VisitedTcbs(s: State, i: nat)
    requires Core(s) && s.running && i < |s.list| && s.list[i] < |s.tcbs| && s.tcbs[s.list[i]].prio == IDLE_PRIO
    requires forall j :: 0 <= j < |s.list| ==> s.list[j] < |s.tcbs|
    ensures TickSome(s, i).tcbs == Tick(s).tcbs
  {
    ListFacts(s);
    TickSomeTcbs(s, i);
    Visited(s, i);
  }

  lemma VisitedReady(s: State, i: nat)
    requires Core(s) && s.running && i < |s.list| && s.list[i] < |s.tcbs| && s.tcbs[s.list[i]].prio == IDLE_PRIO
    requires forall j :: 0 <= j < |s.list| ==> s.list[j] < |s.tcbs|
    ensures TickSome(s, i).rdy == Tick(s).rdy
  {
    ListFacts(s);
    forall p: nat
      ensures p in TickSome(s, i).rdy <==> p in Tick(s).rdy
    {
      TickSomeReady(s, i, p);
      WokenIsTicked(s, i, p);
    }
  }

  lemma WokenIsTicked(s: State, i: nat, p: nat)
    requires Core(s) && s.running && i < |s.list| && s.list[i] < |s.tcbs| && s.tcbs[s.list[i]].prio == IDLE_PRIO
    requires forall j :: 0 <= j < |s.list| ==> s.list[j] < |s.tcbs|
    ensures p in Tick(s).rdy <==> p in s.rdy || WokenByTick(s, i, p)
  {
    Visited(s, i);
    if WokenByTick(s, i, p) {
      var j :| 0 <= j < i && WakesUp(s.tcbs[s.list[j]]) && s.tcbs[s.list[j]].prio == p;
      assert s.list[..i][j] == s.list[j];
      assert Ticks(s, s.list[j]);
    }
    if p in Tick(s).rdy && p !in s.rdy {
      var t :| t in s.live && Ticks(s, t) && WakesUp(s.tcbs[t]) && s.tcbs[t].prio == p;
      var j :| 0 <= j < i && s.list[..i][j] == t;
      assert s.list[j] == t;
    }
  }

  lemma Visited(s: State, i: nat)
    requires Core(s) && i < |s.list| && s.list[i] < |s.tcbs| && s.tcbs[s.list[i]].prio == IDLE_PRIO
    ensures forall t: nat :: Ticks(s, t) <==> t in s.list[..i]
  {
    ListFacts(s);
    forall t: nat
      ensures Ticks(s, t) <==> t in s.list[..i]
    {
      if t in s.live {
        var j :| 0 <= j < |s.list| && s.list[j] == t;
        if j < i {
          assert s.list[..i][j] == t;
        }
      }
    }
  }

  // ---------- initialisation ----------

  lemma IdleAlone(tasks: nat, maxEvents: nat, queues: nat)
    requires tasks > 0
    ensures InitState(Admit(Blank(tasks, maxEvents, queues), IDLE_PRIO))
  {
    var s := Admit(Blank(tasks, maxEvents, queues), IDLE_PRIO);
    assert s.tcbFree == seq(|s.tcbs| - 1, (i: nat) => i + 1);
    assert s.prioTbl == seq(PRIOS, (p: nat) => if p == IDLE_PRIO then Task(0) else Vacant);
    assert s.evFree == seq(|s.events|, (i: nat) => i);
  }
}
