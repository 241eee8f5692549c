/** The kernel as a state machine: its steps, its runs, and what holds in every state a run reaches. */
module Runs {
  import opened PrioSets
  import opened KernelState
  import opened Primitives
  import opened EventServices
  import opened MutexServices
  import opened TaskServices
  import opened Scheduling

  datatype SchedCall = IntEnterCall | IntExitCall | LockCall | UnlockCall | StartCall | TickCall

  datatype TaskCall =
    | CreateTask(prio: nat) | DeleteTask(prio: nat) | Suspend(prio: nat) | Resume(prio: nat)
    | Change(oldPrio: nat, newPrio: nat) | Delay(ticks: nat)

  // Each names its event by number; `kind` is the service called.
  datatype EventCall =
    | CreateEvent(body: Body) | DeleteEvent(kind: StatBit, e: nat, del: DelOpt)
    | PendOn(kind: StatBit, e: nat, timeout: nat) | FinishPend
    | PostTo(kind: StatBit, e: nat, msg: nat, opt: PostOpt)
    | AcceptFrom(kind: StatBit, e: nat) | AbortAll(kind: StatBit, e: nat, all: bool)
    | SetSem(e: nat, cnt: nat) | FlushQ(e: nat)

  datatype MutexCall =
    | CreateMutex(pcp: nat) | DeleteMutex(e: nat, del: DelOpt)
    | LockMutex(e: nat, timeout: nat) | UnlockMutex(e: nat) | TryMutex(e: nat)

  datatype Op = OfSched(sched: SchedCall) | OfTask(task: TaskCall) | OfEvent(event: EventCall) | OfMutex(mutex: MutexCall)

  // ---------- what a caller must respect ----------

  ghost predicate LegalTask(s: State, op: TaskCall) {
    match op
    case CreateTask(prio) => prio < PRIOS
    case DeleteTask(prio) => MayDelete(s, prio)
    case Suspend(prio) => MaySuspend(s, prio)
    case Resume(prio) => prio < PRIOS
    case Change(oldPrio, newPrio) => MayChange(s, oldPrio, newPrio)
    case Delay(_) => MaySleep(s)
  }

  ghost predicate LegalEvent(s: State, op: EventCall) {
    match op
    case CreateEvent(b) => NewBody(b)
    case DeleteEvent(kind, e, _) => e < |s.events| && kind != MUTEX
    case PendOn(kind, e, _) => e < |s.events| && kind != MUTEX && MayBlock(s)
    case FinishPend => InPend(s)
    case PostTo(kind, e, msg, opt) => e < |s.events| && MayPost(kind, msg, opt)
    case AcceptFrom(kind, e) => e < |s.events| && kind != MUTEX
    case AbortAll(kind, e, _) => e < |s.events| && kind != MUTEX
    case SetSem(e, cnt) => e < |s.events| && cnt <= SEM_MAX
    case FlushQ(e) => e < |s.events| && s.events[e].body.Queue?
  }

  ghost predicate LegalMutex(s: State, op: MutexCall) {
    match op
    case CreateMutex(pcp) => pcp == CEIL_DIS || pcp < PRIOS
    case DeleteMutex(e, _) => e < |s.events| && (s.events[e].body.Mutex? ==> s.events[e].body.owner == None)
    case LockMutex(e, _) => e < |s.events| && MayBlock(s)
    case UnlockMutex(e) => e < |s.events| && s.running
    case TryMutex(e) => e < |s.events| && MayBlock(s)
  }

  // Task code makes calls only outside a pend, and a task inside a pend does nothing but finish it.
  ghost predicate InTurn(s: State, op: Op) {
    s.running && s.nesting == 0 && op != OfSched(IntEnterCall) ==>
      s.cur < |s.tcbs| && (s.tcbs[s.cur].cont.Pending? <==> op == OfEvent(FinishPend))
  }

  ghost predicate Legal(s: State, op: Op) {
    && Inv(s) && InTurn(s, op)
    && match op
       case OfSched(c) => c == IntExitCall ==> s.nesting > 0
       case OfTask(c) => LegalTask(s, c)
       case OfEvent(c) => LegalEvent(s, c)
       case OfMutex(c) => LegalMutex(s, c)
  }

  // ---------- steps ----------

  ghost function SchedStep(s: State, op: SchedCall): State
    requires Inv(s)
  {
    match op
    case IntEnterCall => IntEnter(s)
    case IntExitCall => IntExit(s)
    case LockCall => SchedLock(s)
    case UnlockCall => SchedUnlock(s)
    case StartCall => Start(s)
    case TickCall => Tick(s)
  }

  ghost function TaskStepOf(s: State, op: TaskCall): Reply
    requires Inv(s) && LegalTask(s, op)
  {
    match op
    case CreateTask(prio) => TaskCreate(s, prio)
    case DeleteTask(prio) => TaskDel(s, prio)
    case Suspend(prio) => TaskSuspend(s, prio)
    case Resume(prio) => TaskResume(s, prio)
    case Change(oldPrio, newPrio) => ChangePrio(s, oldPrio, newPrio)
    case Delay(ticks) => Reply(TimeDly(s, ticks), ErrNone, 0)
  }

  ghost function EventStepOf(s: State, op: EventCall): Reply
    requires Inv(s) && LegalEvent(s, op)
  {
    match op
    case CreateEvent(b) => CreateKeeps(s, b); Create(s, b)
    case DeleteEvent(kind, e, del) => Delete(s, kind, e, del)
    case PendOn(kind, e, timeout) => Pend(s, kind, e, timeout)
    case FinishPend => PendFinish(s)
    case PostTo(kind, e, msg, opt) => Post(s, kind, e, msg, opt)
    case AcceptFrom(kind, e) => Accept(s, kind, e)
    case AbortAll(kind, e, all) => Abort(s, kind, e, all)
    case SetSem(e, cnt) => SemSet(s, e, cnt)
    case FlushQ(e) => QFlush(s, e)
  }

  ghost function MutexStepOf(s: State, op: MutexCall): Reply
    requires Inv(s) && LegalMutex(s, op)
  {
    match op
    case CreateMutex(pcp) => MutexCreateKeeps(s, pcp); MutexCreate(s, pcp)
    case DeleteMutex(e, del) => MutexDeleteKeeps(s, e, del); MutexDelete(s, e, del)
    case LockMutex(e, timeout) => MutexPend(s, e, timeout)
    case UnlockMutex(e) => MutexPost(s, e)
    case TryMutex(e) => MutexAccept(s, e)
  }

  ghost function Step(s: State, op: Op): Reply
    requires Legal(s, op)
  {
    match op
    case OfSched(c) => Reply(SchedStep(s, c), ErrNone, 0)
    case OfTask(c) => TaskStepOf(s, c)
    case OfEvent(c) => EventStepOf(s, c)
    case OfMutex(c) => MutexStepOf(s, c)
  }

  // No scheduler call may switch tasks now.
  ghost predicate Busy(s: State) {
    !s.running || s.nesting > 0 || s.lock > 0
  }

  // The steps that may leave a quiescent processor with a task that is no longer the most urgent one: a post that asks
  // for no scheduling, a tick counted by a task, and a mutex post that demotes its caller with nobody waiting.
  // In an interrupt, or under the scheduler lock, they open no gap: the scheduler is still to come.
  ghost predicate MayLeaveGap(s: State, op: Op)
    requires Legal(s, op)
  {
    && !Busy(s)
    && match op
       case OfSched(TickCall) => true
       case OfEvent(PostTo(_, e, _, opt)) => opt.noSched && s.events[e].wait != {}
       case OfMutex(UnlockMutex(e)) => Demotes(s, e)
       case _ => false
  }

  lemma SchedStepKeeps(s: State, op: SchedCall)
    requires Inv(s) && InTurn(s, OfSched(op))
    ensures Inv(SchedStep(s, op))
    ensures Optimal(s) && !(op == TickCall && s.running && s.nesting == 0) ==> Optimal(SchedStep(s, op))
    ensures op == IntExitCall ==> Optimal(SchedStep(s, op))
  {
    match op
    case IntEnterCall => IntEnterKeeps(s);
    case IntExitCall => IntExitKeeps(s);
    case LockCall => SchedLockKeeps(s);
    case UnlockCall => SchedUnlockKeeps(s);
    case StartCall => StartKeeps(s);
    case TickCall => TickKeeps(s);
  }

  lemma TaskStepOfKeeps(s: State, op: TaskCall)
    requires Inv(s) && LegalTask(s, op)
    ensures Inv(TaskStepOf(s, op).s)
    ensures Optimal(s) ==> Optimal(TaskStepOf(s, op).s)
  {
    match op
    case CreateTask(prio) => TaskCreateKeeps(s, prio);
    case DeleteTask(prio) => TaskDelKeeps(s, prio);
    case Suspend(prio) => TaskSuspendKeeps(s, prio);
    case Resume(prio) => TaskResumeKeeps(s, prio);
    case Change(oldPrio, newPrio) => ChangePrioKeeps(s, oldPrio, newPrio);
    case Delay(ticks) => TimeDlyKeeps(s, ticks);
  }

  lemma EventStepOfKeeps(s: State, op: EventCall)
    requires Inv(s) && LegalEvent(s, op)
    ensures Inv(EventStepOf(s, op).s)
    ensures Optimal(s) && !(op.PostTo? && op.opt.noSched && s.events[op.e].wait != {}) ==> Optimal(EventStepOf(s, op).s)
  {
    match op
    case CreateEvent(b) => CreateKeeps(s, b);
    case DeleteEvent(kind, e, del) => DeleteKeeps(s, kind, e, del);
    case PendOn(kind, e, timeout) => PendKeeps(s, kind, e, timeout);
    case FinishPend => PendFinishKeeps(s);
    case PostTo(kind, e, msg, opt) => PostKeeps(s, kind, e, msg, opt);
    case AcceptFrom(kind, e) => AcceptKeeps(s, kind, e);
    case AbortAll(kind, e, all) => AbortKeeps(s, kind, e, all);
    case SetSem(e, cnt) => SemSetKeeps(s, e, cnt);
    case FlushQ(e) => QFlushKeeps(s, e);
  }

  lemma MutexStepOfKeeps(s: State, op: MutexCall)
    requires Inv(s) && LegalMutex(s, op)
    ensures Inv(MutexStepOf(s, op).s)
    ensures Optimal(s) && !(op.UnlockMutex? && Demotes(s, op.e)) ==> Optimal(MutexStepOf(s, op).s)
  {
    match op
    case CreateMutex(pcp) => MutexCreateKeeps(s, pcp);
    case DeleteMutex(e, del) => MutexDeleteKeeps(s, e, del);
    case LockMutex(e, timeout) => MutexPendKeeps(s, e, timeout);
    case UnlockMutex(e) => MutexPostKeeps(s, e);
    case TryMutex(e) => MutexAcceptKeeps(s, e);
  }

  // What would open a gap on a quiescent processor opens none on a busy one.
  lemma BusyPost(s: State, kind: StatBit, e: nat, msg: nat, opt: PostOpt)
    requires Inv(s) && e < |s.events| && MayPost(kind, msg, opt) && Busy(s)
    ensures Busy(Post(s, kind, e, msg, opt).s)
  {
    if IsKind(s.events[e].body, kind) && s.events[e].wait != {} {
      BusyWake(s, kind, e, msg, opt.broadcast);
    }
  }

  lemma BusyWake(s: State, kind: StatBit, e: nat, msg: nat, all: bool)
    requires Core(s) && e < |s.events| && s.events[e].wait != {} && IsKind(s.events[e].body, kind) && Busy(s)
    ensures Busy(WakeSome(s, kind, e, msg, PendOk, all))
  {
    if all {
      WakeAllKeeps(s, e, msg, kind, PendOk);
    }
  }

  lemma BusyUnlock(s: State, e: nat)
    requires Inv(s) && e < |s.events| && s.running && Busy(s)
    ensures Busy(MutexPost(s, e).s)
  {
    if s.nesting == 0 && OwnedByCurrent(s, e) {
      UnraiseKeeps(s, e);
      if s.events[e].wait != {} {
        HandOverKeeps(Unraise(s, e), e);
      }
    }
  }

  // Every step keeps the invariant, and every step outside the list above keeps the schedule optimal.
  lemma StepKeeps(s: State, op: Op)
    requires Legal(s, op)
    ensures Inv(Step(s, op).s)
    ensures Optimal(s) && !MayLeaveGap(s, op) ==> Optimal(Step(s, op).s)
    ensures op == OfSched(IntExitCall) ==> Optimal(Step(s, op).s)
  {
    if Busy(s) {
      if op.OfEvent? && op.event.PostTo? {
        BusyPost(s, op.event.kind, op.event.e, op.event.msg, op.event.opt);
      } else if op.OfMutex? && op.mutex.UnlockMutex? {
        BusyUnlock(s, op.mutex.e);
      }
    }
    match op
    case OfSched(c) => SchedStepKeeps(s, c);
    case OfTask(c) => TaskStepOfKeeps(s, c);
    case OfEvent(c) => EventStepOfKeeps(s, c);
    case OfMutex(c) => MutexStepOfKeeps(s, c);
  }

  // ---------- runs ----------

  ghost predicate LegalRun(s: State, ops: seq<Op>)
    decreases |ops|
  {
    Inv(s) && (ops != [] ==> Legal(s, ops[0]) && LegalRun(Step(s, ops[0]).s, ops[1..]))
  }

  ghost function Final(s: State, ops: seq<Op>): State
    requires LegalRun(s, ops)
    decreases |ops|
  {
    if ops == [] then s else Final(Step(s, ops[0]).s, ops[1..])
  }

  // The state after initialisation: the idle task alone.
  ghost predicate InitState(s: State) {
    && |s.tcbs| > 0 && s.tcbs[0] == NewTcb(IDLE_PRIO)
    && s.live == {0} && s.list == [0] && s.tcbFree == seq(|s.tcbs| - 1, (i: nat) => i + 1)
    && s.prioTbl == seq(PRIOS, (p: nat) => if p == IDLE_PRIO then Task(0) else Vacant)
    && s.rdy == {IDLE_PRIO}
    && s.evFree == seq(|s.events|, (i: nat) => i)
    && (forall e :: 0 <= e < |s.events| ==> s.events[e] == Event(Unused, {}))
    && !s.running && s.nesting == 0 && s.lock == 0
  }

  lemma InitKeeps(s: State)
    requires InitState(s)
    ensures Inv(s) && Optimal(s)
  {
    assert TaskOk(s, 0);
    assert NoDup(s.list + s.tcbFree) by {
      assert forall i :: 0 <= i < |s.list + s.tcbFree| ==> (s.list + s.tcbFree)[i] == i;
    }
    forall e | 0 <= e < |s.events|
      ensures EventOk(s, e) && e in s.evFree
    {
      assert s.evFree[e] == e;
    }
  }

  // A legal run can be extended by any legal step, and every state it reaches is sound.
  lemma {:induction false} ReachableKeeps(s: State, ops: seq<Op>)
    requires LegalRun(s, ops)
    ensures Inv(Final(s, ops))
    decreases |ops|
  {
    if ops != [] {
      ReachableKeeps(Step(s, ops[0]).s, ops[1..]);
    }
  }

  lemma {:induction false} RunsExtend(s: State, ops: seq<Op>, op: Op)
    requires LegalRun(s, ops) && Legal(Final(s, ops), op)
    ensures LegalRun(s, ops + [op]) && Final(s, ops + [op]) == Step(Final(s, ops), op).s
    decreases |ops|
  {
    if ops == [] {
      StepKeeps(s, op);
      assert ops + [op] == [op] && LegalRun(Step(s, op).s, []);
    } else {
      RunsExtend(Step(s, ops[0]).s, ops[1..], op);
      assert (ops + [op])[1..] == ops[1..] + [op];
    }
  }
}
