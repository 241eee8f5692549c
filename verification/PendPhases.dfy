/** The life of one pend, from blocking to its return value, against every other step of the kernel.
    A tick may find that the wait is over before a post does; until the task runs again, a post still reaches it. */
module PendPhases {
  import opened KernelState
  import opened Primitives
  import opened EventServices
  import opened MutexServices
  import opened TaskServices
  import opened Runs
  import opened Effects
  import opened Ceiling

  datatype Phase =
    | Outside               // not inside a pend
    | Waiting(e: nat)       // on the wait list, not ready
    | Expired(e: nat)       // the time is up but the task has not run: ready, and still on the wait list
    | Granted(msg: nat)     // a poster chose the task
    | Aborted               // the wait was aborted, or the event deleted

  function PhaseOf(k: Tcb): Phase {
    if k.cont == Running then Outside
    else match k.event
         case Some(e) => if k.pend == PendTimeout then Expired(e) else Waiting(e)
         case None => if k.pend == PendAbort then Aborted else Granted(k.msg)
  }

  // ---------- steps that do not touch any pend ----------

  ghost predicate PhaseFrame(s: State, s': State) {
    forall t :: t in s.live && t in s'.live ==>
      t < |s.tcbs| && t < |s'.tcbs| && PhaseOf(s'.tcbs[t]) == PhaseOf(s.tcbs[t]) && s'.tcbs[t].cont == s.tcbs[t].cont
  }

  lemma PhasesOfSame(s: State, s1: State, s2: State)
    requires PhaseFrame(s, s1) && SameData(s1, s2)
    ensures PhaseFrame(s, s2)
  {
  }

  lemma AdmitPhases(s: State, prio: nat)
    requires Shape(s) && s.tcbFree != [] && s.tcbFree[0] < |s.tcbs| && s.tcbFree[0] !in s.live && prio < PRIOS
    ensures PhaseFrame(s, Admit(s, prio))
  {
  }

  lemma DismissPhases(s: State, t: nat)
    requires Shape(s) && t < |s.tcbs| && s.tcbs[t].prio < PRIOS
    requires s.tcbs[t].event.Some? ==> s.tcbs[t].event.value < |s.events|
    ensures PhaseFrame(s, Dismiss(s, t))
  {
  }

  lemma OneTaskPhases(s: State, t: nat)
    requires Shape(s) && t in s.live
    ensures PhaseFrame(s, Park(s, t)) && PhaseFrame(s, Unpark(s, t))
  {
  }

  lemma SleepPhases(s: State, ticks: nat)
    requires Shape(s) && s.cur < |s.tcbs|
    ensures PhaseFrame(s, Sleep(s, ticks))
  {
  }

  lemma RenamePhases(s: State, t: nat, p0: nat, p1: nat)
    requires Shape(s) && t < |s.tcbs| && p0 < PRIOS && p1 < PRIOS
    requires s.tcbs[t].event.Some? ==> s.tcbs[t].event.value < |s.events|
    ensures PhaseFrame(s, Rename(s, t, p0, p1))
  {
  }

  lemma TaskStepPhases(s: State, op: TaskCall)
    requires Inv(s) && LegalTask(s, op)
    ensures PhaseFrame(s, TaskStepOf(s, op).s)
  {
    match op
    case CreateTask(prio) =>
      TaskCreateEffect(s, prio);
      if TaskCreateError(s, prio) == ErrNone {
        AdmitPhases(s, prio);
        PhasesOfSame(s, Admit(s, prio), TaskCreate(s, prio).s);
      }
    case DeleteTask(prio) =>
      TaskDelEffect(s, prio);
      if TaskDel(s, prio).err == ErrNone {
        DismissPhases(s, s.prioTbl[Named(s, prio)].t);
        PhasesOfSame(s, Dismiss(s, s.prioTbl[Named(s, prio)].t), TaskDel(s, prio).s);
      }
    case Suspend(prio) =>
      TaskSuspendEffect(s, prio);
      if TaskSuspend(s, prio).err == ErrNone {
        OneTaskPhases(s, s.prioTbl[Named(s, prio)].t);
      }
    case Resume(prio) =>
      TaskResumeEffect(s, prio);
      if TaskResume(s, prio).err == ErrNone {
        OneTaskPhases(s, s.prioTbl[prio].t);
      }
    case Change(oldPrio, newPrio) =>
      ChangePrioEffect(s, oldPrio, newPrio);
      if ChangePrio(s, oldPrio, newPrio).err == ErrNone {
        RenamePhases(s, s.prioTbl[Named(s, oldPrio)].t, Named(s, oldPrio), newPrio);
      }
    case Delay(ticks) =>
      TimeDlyEffect(s, ticks);
      SleepPhases(s, ticks);
  }

  // ---------- one step of one pend ----------

  // A post to event `e` that delivers `msg`.
  predicate PostsTo(op: Op, e: nat, msg: nat) {
    match op
    case OfEvent(PostTo(_, f, m, _)) => f == e && m == msg
    case OfMutex(UnlockMutex(f)) => f == e && msg == 0
    case _ => false
  }

  predicate AbortsOn(op: Op, e: nat) {
    match op
    case OfEvent(AbortAll(_, f, _)) => f == e
    case OfEvent(DeleteEvent(_, f, del)) => f == e && del == Always
    case _ => false
  }

  predicate PendsOn(op: Op, e: nat) {
    match op
    case OfEvent(PendOn(_, f, _)) => f == e
    case OfMutex(LockMutex(f, _)) => f == e
    case _ => false
  }

  // What a pend that ends in phase `ph` returns.
  function ReturnOf(ph: Phase): Err {
    match ph
    case Expired(_) => ErrTimeout
    case Aborted => ErrPendAbort
    case _ => ErrNone
  }

  predicate Unserved(ph: Phase) {
    ph.Waiting? || ph.Expired?
  }

  ghost predicate PhaseMoves(s: State, op: Op, r: Reply, t: nat, ph: Phase, ph': Phase) {
    || ph' == ph
    || (ph == Outside && ph'.Waiting? && t == s.cur && PendsOn(op, ph'.e) && r.err == ErrBlocked)
    || (ph.Waiting? && ph' == Expired(ph.e) && op == OfSched(TickCall) && t < |s.tcbs| && s.tcbs[t].dly == 1)
    || (Unserved(ph) && ph'.Granted? && PostsTo(op, ph.e, ph'.msg))
    || (Unserved(ph) && ph' == Aborted && AbortsOn(op, ph.e))
    || (!ph.Waiting? && ph != Outside && ph' == Outside && t == s.cur && op == OfEvent(FinishPend)
        && r.err == ReturnOf(ph)
        && (ph.Granted? && t < |s.tcbs| && s.tcbs[t].cont.Pending? && CarriesMessage(s.tcbs[t].cont.kind) ==> r.val == ph.msg))
  }

  lemma TickPhases(s: State, t: nat)
    requires Inv(s) && t in s.live
    ensures PhaseMoves(s, OfSched(TickCall), Reply(Tick(s), ErrNone, 0), t, PhaseOf(s.tcbs[t]), PhaseOf(Tick(s).tcbs[t]))
  {
    assert TaskOk(s, t);
    OnlySuspendLeft(s.tcbs[t].stat);
  }

  lemma SchedStepPhases(s: State, op: SchedCall, t: nat)
    requires Inv(s) && t in s.live
    ensures t < |SchedStep(s, op).tcbs|
    ensures PhaseMoves(s, OfSched(op), Reply(SchedStep(s, op), ErrNone, 0), t, PhaseOf(s.tcbs[t]), PhaseOf(SchedStep(s, op).tcbs[t]))
  {
    if op == TickCall {
      TickPhases(s, t);
    }
  }

  // The task was waiting for event `e` and has been served.
  predicate Served(k: Tcb, k': Tcb, e: nat, msg: nat, pend: PendStat) {
    && (PhaseOf(k) == Waiting(e) || PhaseOf(k) == Expired(e))
    && k.cont.Pending? && k.cont.e == e
    && PhaseOf(k') == if pend == PendAbort then Aborted else Granted(msg)
  }

  // A wake moves the tasks it wakes, and no other.
  ghost predicate WakesTo(s: State, s': State, e: nat, msg: nat, pend: PendStat) {
    && |s'.tcbs| == |s.tcbs| && s'.live == s.live
    && forall t :: t in s.live && t < |s.tcbs| ==>
         && s'.tcbs[t].cont == s.tcbs[t].cont
         && (PhaseOf(s'.tcbs[t]) == PhaseOf(s.tcbs[t]) || Served(s.tcbs[t], s'.tcbs[t], e, msg, pend))
  }

  lemma WakePhases(s: State, e: nat, msg: nat, kind: StatBit, pend: PendStat)
    requires Core(s) && e < |s.events| && s.events[e].wait != {} && HasWaiter(s, e) && pend != PendTimeout
    ensures WakesTo(s, Wake(s, e, msg, kind, pend), e, msg, pend)
  {
    WaiterExists(s, e);
    assert TaskOk(s, Waiter(s, e));
  }

  lemma WakeAllPhases(s: State, e: nat, msg: nat, kind: StatBit, pend: PendStat)
    requires Core(s) && e < |s.events| && IsKind(s.events[e].body, kind) && pend != PendTimeout
    ensures WakesTo(s, WakeAll(s, e, msg, kind, pend), e, msg, pend)
    ensures forall t: nat :: WaitsFor(s, t, e) ==>
              t < |WakeAll(s, e, msg, kind, pend).tcbs|
              && PhaseOf(WakeAll(s, e, msg, kind, pend).tcbs[t]) == if pend == PendAbort then Aborted else Granted(msg)
  {
    WakeAllIsSimultaneous(s, e, msg, kind, pend);
    var s' := AllWoken(s, e, msg, kind, pend);
    forall t: nat | WaitsFor(s, t, e)
      ensures Served(s.tcbs[t], s'.tcbs[t], e, msg, pend)
    {
      assert TaskOk(s, t);
    }
  }

  lemma WakeSomePhases(s: State, kind: StatBit, e: nat, msg: nat, pend: PendStat, all: bool)
    requires Core(s) && e < |s.events| && s.events[e].wait != {} && IsKind(s.events[e].body, kind) && pend != PendTimeout
    ensures WakesTo(s, WakeSome(s, kind, e, msg, pend, all), e, msg, pend)
  {
    WakeKeeps(s, e, msg, kind, pend);
    if all {
      WakeAllPhases(s, e, msg, kind, pend);
    } else {
      WakePhases(s, e, msg, kind, pend);
    }
  }

  lemma MovesByWake(s: State, s1: State, op: Op, r: Reply, t: nat, e: nat, msg: nat, pend: PendStat)
    requires t in s.live && t < |s.tcbs| && WakesTo(s, s1, e, msg, pend) && SameData(s1, r.s)
    requires if pend == PendAbort then AbortsOn(op, e) else PostsTo(op, e, msg)
    ensures t < |r.s.tcbs| && PhaseMoves(s, op, r, t, PhaseOf(s.tcbs[t]), PhaseOf(r.s.tcbs[t]))
  {
  }

  lemma PostPhases(s: State, kind: StatBit, e: nat, msg: nat, opt: PostOpt, t: nat)
    requires Inv(s) && e < |s.events| && MayPost(kind, msg, opt) && t in s.live
    ensures var r := Post(s, kind, e, msg, opt);
            t < |r.s.tcbs| && PhaseMoves(s, OfEvent(PostTo(kind, e, msg, opt)), r, t, PhaseOf(s.tcbs[t]), PhaseOf(r.s.tcbs[t]))
  {
    PostEffect(s, kind, e, msg, opt);
    if IsKind(s.events[e].body, kind) && s.events[e].wait != {} {
      WakeSomePhases(s, kind, e, msg, PendOk, opt.broadcast);
      MovesByWake(s, WakeSome(s, kind, e, msg, PendOk, opt.broadcast), OfEvent(PostTo(kind, e, msg, opt)),
                  Post(s, kind, e, msg, opt), t, e, msg, PendOk);
    }
  }

  lemma AbortPhases(s: State, kind: StatBit, e: nat, all: bool, t: nat)
    requires Inv(s) && e < |s.events| && kind != MUTEX && t in s.live
    ensures var r := Abort(s, kind, e, all);
            t < |r.s.tcbs| && PhaseMoves(s, OfEvent(AbortAll(kind, e, all)), r, t, PhaseOf(s.tcbs[t]), PhaseOf(r.s.tcbs[t]))
  {
    AbortEffect(s, kind, e, all);
    if IsKind(s.events[e].body, kind) && s.events[e].wait != {} {
      WakeSomePhases(s, kind, e, 0, PendAbort, all);
      MovesByWake(s, WakeSome(s, kind, e, 0, PendAbort, all), OfEvent(AbortAll(kind, e, all)),
                  Abort(s, kind, e, all), t, e, 0, PendAbort);
    }
  }

  lemma DissolvePhases(s: State, kind: StatBit, e: nat)
    requires Core(s) && e < |s.events| && IsKind(s.events[e].body, kind)
    ensures WakesTo(s, Dissolve(s, kind, e), e, 0, PendAbort)
  {
    WakeAllKeeps(s, e, 0, kind, PendAbort);
    WakeAllPhases(s, e, 0, kind, PendAbort);
  }

  lemma DeletePhases(s: State, kind: StatBit, e: nat, del: DelOpt, t: nat)
    requires Inv(s) && e < |s.events| && kind != MUTEX && t in s.live
    ensures var r := Delete(s, kind, e, del);
            t < |r.s.tcbs| && PhaseMoves(s, OfEvent(DeleteEvent(kind, e, del)), r, t, PhaseOf(s.tcbs[t]), PhaseOf(r.s.tcbs[t]))
  {
    DeleteEffect(s, kind, e, del);
    if Delete(s, kind, e, del).err == ErrNone && del == Always {
      DissolvePhases(s, kind, e);
      MovesByWake(s, Dissolve(s, kind, e), OfEvent(DeleteEvent(kind, e, del)), Delete(s, kind, e, del), t, e, 0, PendAbort);
    }
  }

  lemma PendPhase(s: State, kind: StatBit, e: nat, timeout: nat, t: nat)
    requires Inv(s) && MayBlock(s) && e < |s.events| && kind != MUTEX && t in s.live
    ensures var r := Pend(s, kind, e, timeout);
            t < |r.s.tcbs| && PhaseMoves(s, OfEvent(PendOn(kind, e, timeout)), r, t, PhaseOf(s.tcbs[t]), PhaseOf(r.s.tcbs[t]))
  {
    PendEffect(s, kind, e, timeout);
  }

  lemma PendFinishPhase(s: State, t: nat)
    requires Inv(s) && InPend(s) && t in s.live
    ensures var r := PendFinish(s);
            t < |r.s.tcbs| && PhaseMoves(s, OfEvent(FinishPend), r, t, PhaseOf(s.tcbs[t]), PhaseOf(r.s.tcbs[t]))
  {
    assert TaskOk(s, s.cur);
  }

  lemma EventStepPhases(s: State, op: EventCall, t: nat)
    requires Inv(s) && LegalEvent(s, op) && t in s.live
    ensures var r := EventStepOf(s, op);
            t < |r.s.tcbs| && PhaseMoves(s, OfEvent(op), r, t, PhaseOf(s.tcbs[t]), PhaseOf(r.s.tcbs[t]))
  {
    match op
    case CreateEvent(b) => CreateKeeps(s, b);
    case DeleteEvent(kind, e, del) => DeletePhases(s, kind, e, del, t);
    case PendOn(kind, e, timeout) => PendPhase(s, kind, e, timeout, t);
    case FinishPend => PendFinishPhase(s, t);
    case PostTo(kind, e, msg, opt) => PostPhases(s, kind, e, msg, opt, t);
    case AcceptFrom(kind, e) =>
    case AbortAll(kind, e, all) => AbortPhases(s, kind, e, all, t);
    case SetSem(e, cnt) =>
    case FlushQ(e) =>
  }

  lemma BlockPhases(s: State, s1: State, e: nat, kind: StatBit, timeout: nat)
    requires s1.cur == s.cur && s.cur < |s.tcbs| && |s1.tcbs| == |s.tcbs| && e < |s1.events|
    requires forall t :: 0 <= t < |s.tcbs| ==> PhaseOf(s1.tcbs[t]) == PhaseOf(s.tcbs[t])
    ensures var s' := Block(s1, e, kind, timeout);
            |s'.tcbs| == |s.tcbs|
            && forall t: nat :: t < |s.tcbs| ==> PhaseOf(s'.tcbs[t]) == if t == s.cur then Waiting(e) else PhaseOf(s.tcbs[t])
  {
  }

  lemma LockPhases(s: State, e: nat, timeout: nat, t: nat)
    requires Inv(s) && MayBlock(s) && e < |s.events| && t in s.live
    ensures var r := MutexPend(s, e, timeout);
            t < |r.s.tcbs| && PhaseMoves(s, OfMutex(LockMutex(e, timeout)), r, t, PhaseOf(s.tcbs[t]), PhaseOf(r.s.tcbs[t]))
  {
    LockedPhase(s, e, timeout, t);
  }

  // A mutex pend that blocks is the start of a wait, and one that does not leaves every task where it was.
  lemma LockedPhase(s: State, e: nat, timeout: nat, t: nat)
    requires Inv(s) && MayBlock(s) && e < |s.events| && t in s.live
    ensures var r := MutexPend(s, e, timeout);
            && t < |s.tcbs| && t < |r.s.tcbs|
            && if r.err == ErrBlocked && t == s.cur then
                 PhaseOf(s.tcbs[t]) == Outside && PhaseOf(r.s.tcbs[t]) == Waiting(e)
               else PhaseOf(r.s.tcbs[t]) == PhaseOf(s.tcbs[t])
  {
    MutexPendEffect(s, e, timeout);
    if MutexPend(s, e, timeout).err == ErrBlocked {
      RaisePhases(s, e);
      BlockPhases(s, MaybeRaise(s, e), e, MUTEX, timeout);
    }
  }

  lemma RaisePhases(s: State, e: nat)
    requires Core(s)
    ensures |MaybeRaise(s, e).tcbs| == |s.tcbs|
    ensures forall t :: 0 <= t < |s.tcbs| ==> PhaseOf(MaybeRaise(s, e).tcbs[t]) == PhaseOf(s.tcbs[t])
  {
    if NeedsRaise(s, e) {
      RaiseKeeps(s, e);
    }
  }

  lemma UnraisePhases(s: State, e: nat)
    requires Inv(s) && OwnedByCurrent(s, e) && s.nesting == 0
    ensures Inv(Unraise(s, e)) && |Unraise(s, e).tcbs| == |s.tcbs| && Unraise(s, e).live == s.live
    ensures forall t :: 0 <= t < |s.tcbs| ==>
              PhaseOf(Unraise(s, e).tcbs[t]) == PhaseOf(s.tcbs[t]) && Unraise(s, e).tcbs[t].cont == s.tcbs[t].cont
  {
    UnraiseKeeps(s, e);
  }

  lemma HandOverPhases(s: State, e: nat)
    requires Core(s) && e < |s.events| && s.events[e].body.Mutex? && s.events[e].wait != {}
    ensures WakesTo(s, HandOver(s, e), e, 0, PendOk)
  {
    WakeKeeps(s, e, 0, MUTEX, PendOk);
    WakePhases(s, e, 0, MUTEX, PendOk);
  }

  lemma WakesThrough(s: State, s1: State, s2: State, s3: State, e: nat, msg: nat, pend: PendStat)
    requires |s1.tcbs| == |s.tcbs| && s1.live == s.live
    requires forall t :: 0 <= t < |s.tcbs| ==> PhaseOf(s1.tcbs[t]) == PhaseOf(s.tcbs[t]) && s1.tcbs[t].cont == s.tcbs[t].cont
    requires WakesTo(s1, s2, e, msg, pend) && SameData(s2, s3)
    ensures WakesTo(s, s3, e, msg, pend)
  {
  }

  lemma UnlockWakes(s: State, e: nat)
    requires Inv(s) && OwnedByCurrent(s, e) && s.nesting == 0
    ensures WakesTo(s, MutexPost(s, e).s, e, 0, PendOk)
  {
    MutexPostEffect(s, e);
    UnraisePhases(s, e);
    var s1 := Unraise(s, e);
    if s.events[e].wait != {} {
      HandOverPhases(s1, e);
      WakesThrough(s, s1, HandOver(s1, e), MutexPost(s, e).s, e, 0, PendOk);
    } else {
      TransferPhases(s1, e, |s1.tcbs|);
      WakesThrough(s, s1, Transfer(s1, e, |s1.tcbs|), MutexPost(s, e).s, e, 0, PendOk);
    }
  }

  lemma TransferPhases(s: State, e: nat, d: nat)
    requires e < |s.events| && s.events[e].body.Mutex? && (d in s.live ==> d < |s.tcbs|)
    ensures WakesTo(s, Transfer(s, e, d), e, 0, PendOk)
  {
  }

  lemma UnlockPhases(s: State, e: nat, t: nat)
    requires Inv(s) && e < |s.events| && s.running && t in s.live
    ensures var r := MutexPost(s, e);
            t < |r.s.tcbs| && PhaseMoves(s, OfMutex(UnlockMutex(e)), r, t, PhaseOf(s.tcbs[t]), PhaseOf(r.s.tcbs[t]))
  {
    MutexPostEffect(s, e);
    if s.nesting == 0 && OwnedByCurrent(s, e) {
      UnlockWakes(s, e);
      MovesByWake(s, MutexPost(s, e).s, OfMutex(UnlockMutex(e)), MutexPost(s, e), t, e, 0, PendOk);
    }
  }

  lemma MutexStepPhases(s: State, op: MutexCall, t: nat)
    requires Inv(s) && LegalMutex(s, op) && t in s.live
    ensures var r := MutexStepOf(s, op);
            t < |r.s.tcbs| && PhaseMoves(s, OfMutex(op), r, t, PhaseOf(s.tcbs[t]), PhaseOf(r.s.tcbs[t]))
  {
    match op
    case CreateMutex(pcp) => MutexCreateKeeps(s, pcp);
    case DeleteMutex(e, del) =>
    case LockMutex(e, timeout) => LockPhases(s, e, timeout, t);
    case UnlockMutex(e) => UnlockPhases(s, e, t);
    case TryMutex(e) =>
  }

  // Every step moves every surviving task along the arrows of PhaseMoves, and along no other.
  lemma StepPhases(s: State, op: Op, t: nat)
    requires Legal(s, op) && t in s.live && t in Step(s, op).s.live
    ensures t < |Step(s, op).s.tcbs|
    ensures PhaseMoves(s, op, Step(s, op), t, PhaseOf(s.tcbs[t]), PhaseOf(Step(s, op).s.tcbs[t]))
  {
    match op
    case OfSched(c) => SchedStepPhases(s, c, t);
    case OfTask(c) => TaskStepPhases(s, c);
    case OfEvent(c) => EventStepPhases(s, c, t);
    case OfMutex(c) => MutexStepPhases(s, c, t);
  }

  // ---------- whom a step serves ----------

  ghost predicate UnservedOn(s: State, t: nat, e: nat) {
    t < |s.tcbs| && (PhaseOf(s.tcbs[t]) == Waiting(e) || PhaseOf(s.tcbs[t]) == Expired(e))
  }

  // The call is a post with message `msg` to event `e`, and task `t` is the most urgent waiter, or all are served.
  ghost predicate Chooses(s: State, op: Op, t: nat, e: nat, msg: nat) {
    match op
    case OfEvent(PostTo(kind, f, m, opt)) => f == e && m == msg && Reaches(s, kind, e, opt.broadcast, t)
    case OfMutex(UnlockMutex(f)) =>
      f == e && msg == 0 && s.nesting == 0 && OwnedByCurrent(s, e) && Reaches(s, MUTEX, e, false, t)
    case _ => false
  }

  ghost predicate CutsOff(s: State, op: Op, t: nat, e: nat) {
    match op
    case OfEvent(AbortAll(kind, f, all)) => f == e && Reaches(s, kind, e, all, t)
    case OfEvent(DeleteEvent(kind, f, del)) => f == e && del == Always && s.nesting == 0 && Reaches(s, kind, e, true, t)
    case _ => false
  }

  lemma UnservedWaits(s: State, t: nat, e: nat)
    requires Inv(s) && t in s.live
    ensures UnservedOn(s, t, e) <==> WaitsFor(s, t, e)
    ensures WaitsFor(s, t, e) ==> e < |s.events| && s.events[e].wait != {} && HasWaiter(s, e)
  {
    assert TaskOk(s, t);
    if WaitsFor(s, t, e) {
      WaiterExists(s, e);
    }
  }

  // Task `t` moves to phase `ph` if it is reached, and stays where it is otherwise.
  ghost predicate Turns(s: State, s': State, t: nat, reached: bool, ph: Phase) {
    t < |s.tcbs| && t < |s'.tcbs| && PhaseOf(s'.tcbs[t]) == if reached then ph else PhaseOf(s.tcbs[t])
  }

  // What a wake makes of a task that waits for event `f`.
  lemma WakeReaches(s: State, kind: StatBit, e: nat, msg: nat, pend: PendStat, all: bool, t: nat, f: nat)
    requires Core(s) && e < |s.events| && s.events[e].wait != {} && IsKind(s.events[e].body, kind) && pend != PendTimeout
    requires WaitsFor(s, t, f) && UnservedOn(s, t, f)
    ensures Turns(s, WakeSome(s, kind, e, msg, pend, all), t, f == e && Reaches(s, kind, e, all, t),
                  if pend == PendAbort then Aborted else Granted(msg))
  {
    WakeKeeps(s, e, msg, kind, pend);
    if all {
      WakeAllIsSimultaneous(s, e, msg, kind, pend);
    }
  }

  // A step grants or aborts a pend if and only if it chooses the task or cuts it off, also when the time was up before.
  ghost predicate ServesExactly(s: State, op: Op, s': State, t: nat, e: nat) {
    && t < |s'.tcbs|
    && (forall msg :: PhaseOf(s'.tcbs[t]) == Granted(msg) <==> Chooses(s, op, t, e, msg))
    && (PhaseOf(s'.tcbs[t]) == Aborted <==> CutsOff(s, op, t, e))
  }

  lemma PostServes(s: State, kind: StatBit, f: nat, msg: nat, opt: PostOpt, t: nat, e: nat)
    requires Inv(s) && f < |s.events| && MayPost(kind, msg, opt) && t in s.live && UnservedOn(s, t, e)
    ensures Turns(s, Post(s, kind, f, msg, opt).s, t, f == e && Reaches(s, kind, e, opt.broadcast, t), Granted(msg))
  {
    UnservedWaits(s, t, e);
    PostEffect(s, kind, f, msg, opt);
    if IsKind(s.events[f].body, kind) && s.events[f].wait != {} {
      WakeReaches(s, kind, f, msg, PendOk, opt.broadcast, t, e);
    }
  }

  lemma AbortServes(s: State, kind: StatBit, f: nat, all: bool, t: nat, e: nat)
    requires Inv(s) && f < |s.events| && kind != MUTEX && t in s.live && UnservedOn(s, t, e)
    ensures Turns(s, Abort(s, kind, f, all).s, t, f == e && Reaches(s, kind, e, all, t), Aborted)
  {
    UnservedWaits(s, t, e);
    AbortEffect(s, kind, f, all);
    if IsKind(s.events[f].body, kind) && s.events[f].wait != {} {
      WakeReaches(s, kind, f, 0, PendAbort, all, t, e);
    }
  }

  lemma DeleteServes(s: State, kind: StatBit, f: nat, del: DelOpt, t: nat, e: nat)
    requires Inv(s) && f < |s.events| && kind != MUTEX && t in s.live && UnservedOn(s, t, e)
    ensures Turns(s, Delete(s, kind, f, del).s, t,
                  f == e && del == Always && s.nesting == 0 && Reaches(s, kind, e, true, t), Aborted)
  {
    UnservedWaits(s, t, e);
    DeleteEffect(s, kind, f, del);
    if Delete(s, kind, f, del).err == ErrNone && del == Always {
      DissolveServes(s, kind, f, t, e);
    }
  }

  lemma DissolveServes(s: State, kind: StatBit, f: nat, t: nat, e: nat)
    requires Core(s) && f < |s.events| && IsKind(s.events[f].body, kind) && WaitsFor(s, t, e) && UnservedOn(s, t, e)
    requires e < |s.events| && s.events[e].wait != {}
    ensures Turns(s, Dissolve(s, kind, f), t, f == e && Reaches(s, kind, e, true, t), Aborted)
  {
    WakeAllKeeps(s, f, 0, kind, PendAbort);
    if s.events[f].wait != {} {
      WakeReaches(s, kind, f, 0, PendAbort, true, t, e);
    }
  }

  lemma HandOverServes(s: State, f: nat, t: nat, e: nat)
    requires Core(s) && f < |s.events| && s.events[f].body.Mutex? && s.events[f].wait != {}
    requires WaitsFor(s, t, e) && UnservedOn(s, t, e)
    ensures Turns(s, HandOver(s, f), t, f == e && Reaches(s, MUTEX, e, false, t), Granted(0))
  {
    WakeKeeps(s, f, 0, MUTEX, PendOk);
    WakeReaches(s, MUTEX, f, 0, PendOk, false, t, e);
  }

  lemma PostedServes(s: State, s': State, f: nat, t: nat, e: nat)
    requires Inv(s) && OwnedByCurrent(s, f) && s.nesting == 0 && WaitsFor(s, t, e) && UnservedOn(s, t, e)
    requires s.events[f].wait != {} && e < |s.events| && s.events[e].wait != {}
    requires Inv(Unraise(s, f)) && SameData(HandOver(Unraise(s, f), f), s')
    ensures Turns(s, s', t, f == e && Reaches(s, MUTEX, e, false, t), Granted(0))
  {
    UnraisePhases(s, f);
    UnservedWaits(Unraise(s, f), t, e);
    HandOverServes(Unraise(s, f), f, t, e);
    ReachesStill(s, f, t, e);
  }

  lemma UnlockServes(s: State, f: nat, t: nat, e: nat)
    requires Inv(s) && f < |s.events| && s.running && t in s.live && UnservedOn(s, t, e)
    ensures Turns(s, MutexPost(s, f).s, t,
                  f == e && s.nesting == 0 && OwnedByCurrent(s, e) && Reaches(s, MUTEX, e, false, t), Granted(0))
  {
    UnservedWaits(s, t, e);
    MutexPostEffect(s, f);
    if s.nesting == 0 && OwnedByCurrent(s, f) {
      if s.events[f].wait != {} {
        PostedServes(s, MutexPost(s, f).s, f, t, e);
      } else {
        AbandonedServes(s, f, t);
      }
    }
  }

  lemma AbandonedServes(s: State, f: nat, t: nat)
    requires Inv(s) && OwnedByCurrent(s, f) && s.nesting == 0 && t in s.live
    ensures |Unraise(s, f).tcbs| == |s.tcbs| && Unraise(s, f).events == s.events && Inv(Unraise(s, f))
    ensures Turns(s, Transfer(Unraise(s, f), f, |s.tcbs|), t, false, Outside)
  {
    UnraisePhases(s, f);
    UnraiseKeeps(s, f);
  }

  // Restoring the owner changes nobody's turn.
  lemma ReachesStill(s: State, f: nat, t: nat, e: nat)
    requires Inv(s) && OwnedByCurrent(s, f) && s.nesting == 0 && s.events[f].wait != {}
    requires Inv(Unraise(s, f)) && WaitsFor(s, t, e) && WaitsFor(Unraise(s, f), t, e)
    ensures f == e ==> (Reaches(Unraise(s, f), MUTEX, e, false, t) <==> Reaches(s, MUTEX, e, false, t))
  {
    UnraiseKeeps(s, f);
    WaiterExists(s, f);
    WaiterExists(Unraise(s, f), f);
    SameWaiter(s, f);
  }

  // A call that neither posts, aborts nor deletes serves nobody.
  lemma OthersServeNobody(s: State, op: Op, r: Reply, t: nat, e: nat)
    requires UnservedOn(s, t, e) && t < |r.s.tcbs| && PhaseMoves(s, op, r, t, PhaseOf(s.tcbs[t]), PhaseOf(r.s.tcbs[t]))
    requires !(op.OfEvent? && (op.event.PostTo? || op.event.AbortAll? || op.event.DeleteEvent?))
    requires !(op.OfMutex? && op.mutex.UnlockMutex?)
    ensures ServesExactly(s, op, r.s, t, e)
  {
  }

  lemma TurnServes(s: State, op: Op, s': State, t: nat, e: nat, reached: bool, ph: Phase)
    requires UnservedOn(s, t, e) && Turns(s, s', t, reached, ph) && (ph.Granted? || ph == Aborted)
    requires forall msg :: Chooses(s, op, t, e, msg) <==> reached && ph == Granted(msg)
    requires CutsOff(s, op, t, e) <==> reached && ph == Aborted
    ensures ServesExactly(s, op, s', t, e)
  {
  }

  lemma EventServes(s: State, op: EventCall, t: nat, e: nat)
    requires Inv(s) && LegalEvent(s, op) && t in s.live && UnservedOn(s, t, e)
    ensures ServesExactly(s, OfEvent(op), EventStepOf(s, op).s, t, e)
  {
    match op
    case PostTo(kind, f, msg, opt) =>
      PostServes(s, kind, f, msg, opt, t, e);
      TurnServes(s, OfEvent(op), Post(s, kind, f, msg, opt).s, t, e, f == e && Reaches(s, kind, e, opt.broadcast, t), Granted(msg));
    case AbortAll(kind, f, all) =>
      AbortServes(s, kind, f, all, t, e);
      TurnServes(s, OfEvent(op), Abort(s, kind, f, all).s, t, e, f == e && Reaches(s, kind, e, all, t), Aborted);
    case DeleteEvent(kind, f, del) =>
      DeleteServes(s, kind, f, del, t, e);
      TurnServes(s, OfEvent(op), Delete(s, kind, f, del).s, t, e,
                 f == e && del == Always && s.nesting == 0 && Reaches(s, kind, e, true, t), Aborted);
    case _ =>
      EventStepPhases(s, op, t);
      OthersServeNobody(s, OfEvent(op), EventStepOf(s, op), t, e);
  }

  lemma MutexServes(s: State, op: MutexCall, t: nat, e: nat)
    requires Inv(s) && LegalMutex(s, op) && t in s.live && UnservedOn(s, t, e)
    ensures ServesExactly(s, OfMutex(op), MutexStepOf(s, op).s, t, e)
  {
    match op
    case UnlockMutex(f) => UnlockServes(s, f, t, e);
    case _ =>
      MutexStepPhases(s, op, t);
      OthersServeNobody(s, OfMutex(op), MutexStepOf(s, op), t, e);
  }

  lemma StepServes(s: State, op: Op, t: nat, e: nat)
    requires Legal(s, op) && t in s.live && t in Step(s, op).s.live && UnservedOn(s, t, e)
    ensures ServesExactly(s, op, Step(s, op).s, t, e)
  {
    match op
    case OfSched(c) => SchedStepPhases(s, c, t);
    case OfTask(c) => TaskStepPhases(s, c);
    case OfEvent(c) => EventServes(s, c, t, e);
    case OfMutex(c) => MutexServes(s, c, t, e);
  }

  // ---------- the outcome of a pend ----------

  // Task `t` survives the run and does not finish its pend in it.
  ghost predicate StaysInPend(s: State, ops: seq<Op>, t: nat)
    requires LegalRun(s, ops)
    decreases |ops|
  {
    t in s.live && (ops != [] ==> !(ops[0] == OfEvent(FinishPend) && s.cur == t) && StaysInPend(Step(s, ops[0]).s, ops[1..], t))
  }

  // Some call in the run is a post to event `e` with message `msg` that chooses task `t`.
  ghost predicate Chosen(s: State, ops: seq<Op>, t: nat, e: nat, msg: nat)
    requires LegalRun(s, ops)
    decreases |ops|
  {
    ops != [] && (Chooses(s, ops[0], t, e, msg) || Chosen(Step(s, ops[0]).s, ops[1..], t, e, msg))
  }

  // Some call in the run aborts the wait of task `t` for event `e`, or deletes the event.
  ghost predicate CutOff(s: State, ops: seq<Op>, t: nat, e: nat)
    requires LegalRun(s, ops)
    decreases |ops|
  {
    ops != [] && (CutsOff(s, ops[0], t, e) || CutOff(Step(s, ops[0]).s, ops[1..], t, e))
  }

  lemma ServedIsOutOfReach(s: State, op: Op, t: nat)
    requires t < |s.tcbs| && (PhaseOf(s.tcbs[t]).Granted? || PhaseOf(s.tcbs[t]) == Aborted)
    ensures forall e, msg :: !Chooses(s, op, t, e, msg)
    ensures forall e :: !CutsOff(s, op, t, e)
  {
  }

  // Once served, a pend stays as it is, whatever happens, until the task runs.
  lemma {:induction false} ServedStays(s: State, ops: seq<Op>, t: nat)
    requires LegalRun(s, ops) && StaysInPend(s, ops, t)
    requires t < |s.tcbs| && (PhaseOf(s.tcbs[t]).Granted? || PhaseOf(s.tcbs[t]) == Aborted)
    ensures t < |Final(s, ops).tcbs| && PhaseOf(Final(s, ops).tcbs[t]) == PhaseOf(s.tcbs[t])
    ensures forall e, msg :: !Chosen(s, ops, t, e, msg)
    ensures forall e :: !CutOff(s, ops, t, e)
    decreases |ops|
  {
    if ops != [] {
      StepPhases(s, ops[0], t);
      ServedIsOutOfReach(s, ops[0], t);
      ServedStays(Step(s, ops[0]).s, ops[1..], t);
    }
  }

  // A pend that waits on event `e` is, any number of steps later, in exactly one of these positions: still unserved,
  // and then nobody chose it; granted message `msg`, if and only if a poster to `e` chose it with `msg`;
  // or aborted, if and only if the wait was cut off.
  lemma {:induction false} PendOutcome(s: State, ops: seq<Op>, t: nat, e: nat)
    requires LegalRun(s, ops) && StaysInPend(s, ops, t) && UnservedOn(s, t, e)
    ensures t < |Final(s, ops).tcbs|
    ensures var ph := PhaseOf(Final(s, ops).tcbs[t]);
            && (UnservedOn(Final(s, ops), t, e) || ph.Granted? || ph == Aborted)
            && (forall msg :: ph == Granted(msg) <==> Chosen(s, ops, t, e, msg))
            && (ph == Aborted <==> CutOff(s, ops, t, e))
    decreases |ops|
  {
    if ops != [] {
      StepPhases(s, ops[0], t);
      StepServes(s, ops[0], t, e);
      var s1 := Step(s, ops[0]).s;
      if UnservedOn(s1, t, e) {
        PendOutcome(s1, ops[1..], t, e);
      } else {
        ServedStays(s1, ops[1..], t);
      }
    }
  }

  // ---------- what the call returns ----------

  // A task that runs inside its pend returns what its phase says.
  lemma FinishReturns(s: State)
    requires Inv(s) && InPend(s)
    ensures var ph, r := PhaseOf(s.tcbs[s.cur]), PendFinish(s);
            && (ph.Expired? || ph.Granted? || ph == Aborted) && r.err == ReturnOf(ph)
            && (ph.Granted? && CarriesMessage(s.tcbs[s.cur].cont.kind) ==> r.val == ph.msg)
  {
    assert TaskOk(s, s.cur);
  }

  // A call that blocks puts its caller on the wait list.
  lemma BlockedWaits(s: State, op: Op, e: nat)
    requires Legal(s, op) && PendsOn(op, e) && Step(s, op).err == ErrBlocked
    ensures s.cur in Step(s, op).s.live && UnservedOn(Step(s, op).s, s.cur, e)
  {
    match op
    case OfEvent(PendOn(kind, f, timeout)) => PendEffect(s, kind, f, timeout);
    case OfMutex(LockMutex(f, timeout)) =>
      LockedPhase(s, f, timeout, s.cur);
      MutexPendEffect(s, f, timeout);
      RaiseThenBlock(s, f, timeout);
  }

  // A pend that blocks, then any run in which the task does not finish it, up to the point where the task runs again.
  // The call returns ErrNone if and only if a poster chose the task, with the message of that post; ErrPendAbort if and
  // only if the wait was cut off; and ErrTimeout otherwise. These exclude each other.
  lemma PendReturns(s: State, op: Op, e: nat, ops: seq<Op>)
    requires Legal(s, op) && PendsOn(op, e) && Step(s, op).err == ErrBlocked
    requires LegalRun(Step(s, op).s, ops) && StaysInPend(Step(s, op).s, ops, s.cur)
    requires InPend(Final(Step(s, op).s, ops)) && Final(Step(s, op).s, ops).cur == s.cur
    ensures Inv(Final(Step(s, op).s, ops))
    ensures Returns(Step(s, op).s, ops, s.cur, e)
  {
    BlockedWaits(s, op, e);
    WaitReturns(Step(s, op).s, ops, s.cur, e);
  }

  // How the second half of the pend of task `t` ends after the run, if it runs then.
  ghost predicate Returns(s: State, ops: seq<Op>, t: nat, e: nat)
    requires LegalRun(s, ops) && Inv(Final(s, ops)) && InPend(Final(s, ops))
  {
    var r := PendFinish(Final(s, ops));
    && (r.err == ErrNone <==> exists msg :: Chosen(s, ops, t, e, msg))
    && (r.err == ErrPendAbort <==> CutOff(s, ops, t, e))
    && (r.err == ErrNone || r.err == ErrPendAbort || r.err == ErrTimeout)
    && (CarriesMessage(Final(s, ops).tcbs[Final(s, ops).cur].cont.kind) ==>
          forall msg :: Chosen(s, ops, t, e, msg) ==> r.val == msg)
  }

  lemma WaitReturns(s: State, ops: seq<Op>, t: nat, e: nat)
    requires LegalRun(s, ops) && StaysInPend(s, ops, t) && UnservedOn(s, t, e)
    requires InPend(Final(s, ops)) && Final(s, ops).cur == t
    ensures Inv(Final(s, ops)) && Returns(s, ops, t, e)
  {
    PendOutcome(s, ops, t, e);
    ReachableKeeps(s, ops);
    FinishReturns(Final(s, ops));
    var ph := PhaseOf(Final(s, ops).tcbs[t]);
    if ph.Granted? {
      assert Chosen(s, ops, t, e, ph.msg);
    }
  }
}
