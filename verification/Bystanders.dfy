/** A call leaves alone every queue that it does not name. */
module Bystanders {
  import opened KernelState
  import opened Primitives
  import opened EventServices
  import opened MutexServices
  import opened TaskServices
  import opened Runs
  import opened Effects

  // Queues are what they were, except the event numbered `f`.
  ghost predicate QueuesKept(s: State, s': State, f: int) {
    && |s'.events| == |s.events| && (f == -1 ==> s'.qFree == s.qFree)
    && forall e :: 0 <= e < |s.events| && e != f && (s.events[e].body.Queue? || s'.events[e].body.Queue?) ==>
         s'.events[e].body == s.events[e].body
  }

  // The queue a call names, or -1.
  function NamedQueue(s: State, op: Op): int {
    match op
    case OfEvent(CreateEvent(b)) => if b.Queue? && s.evFree != [] then s.evFree[0] else -1
    case OfEvent(DeleteEvent(kind, e, _)) => if kind == Q then e else -1
    case OfEvent(PendOn(kind, e, _)) => if kind == Q then e else -1
    case OfEvent(PostTo(kind, e, _, _)) => if kind == Q then e else -1
    case OfEvent(AcceptFrom(kind, e)) => if kind == Q then e else -1
    case OfEvent(AbortAll(kind, e, _)) => if kind == Q then e else -1
    case OfEvent(FlushQ(e)) => e
    case _ => -1
  }

  lemma WakeSomeQueues(s: State, kind: StatBit, e: nat, msg: nat, pend: PendStat, all: bool)
    requires Core(s) && e < |s.events| && s.events[e].wait != {} && IsKind(s.events[e].body, kind) && pend != PendTimeout
    ensures QueuesKept(s, WakeSome(s, kind, e, msg, pend, all), -1)
  {
    if all {
      WakeAllIsSimultaneous(s, e, msg, kind, pend);
    } else {
      WakeKeeps(s, e, msg, kind, pend);
    }
  }

  lemma DissolveQueues(s: State, kind: StatBit, e: nat)
    requires Core(s) && e < |s.events| && IsKind(s.events[e].body, kind)
    ensures QueuesKept(s, Dissolve(s, kind, e), if kind == Q then e else -1)
  {
    WakeAllKeeps(s, e, 0, kind, PendAbort);
    WakeAllIsSimultaneous(s, e, 0, kind, PendAbort);
  }

  lemma PostQueues(s: State, kind: StatBit, e: nat, msg: nat, opt: PostOpt)
    requires Inv(s) && e < |s.events| && MayPost(kind, msg, opt)
    ensures QueuesKept(s, Post(s, kind, e, msg, opt).s, if kind == Q && s.events[e].wait == {} then e else -1)
  {
    PostEffect(s, kind, e, msg, opt);
    if IsKind(s.events[e].body, kind) && s.events[e].wait != {} {
      WakeSomeQueues(s, kind, e, msg, PendOk, opt.broadcast);
    }
  }

  lemma AbortQueues(s: State, kind: StatBit, e: nat, all: bool)
    requires Inv(s) && e < |s.events| && kind != MUTEX
    ensures QueuesKept(s, Abort(s, kind, e, all).s, -1)
  {
    AbortEffect(s, kind, e, all);
    if IsKind(s.events[e].body, kind) && s.events[e].wait != {} {
      WakeSomeQueues(s, kind, e, 0, PendAbort, all);
    }
  }

  lemma DeleteQueues(s: State, kind: StatBit, e: nat, del: DelOpt)
    requires Inv(s) && e < |s.events| && kind != MUTEX
    ensures QueuesKept(s, Delete(s, kind, e, del).s, if kind == Q then e else -1)
  {
    DeleteEffect(s, kind, e, del);
    if Delete(s, kind, e, del).err == ErrNone && del == Always {
      DissolveQueues(s, kind, e);
    }
  }

  // An event that was a queue is one unchanged, or none.
  lemma DeleteBody(s: State, e: nat, del: DelOpt)
    requires Inv(s) && e < |s.events|
    ensures var s' := Delete(s, Q, e, del).s;
            |s'.events| == |s.events| && (s'.events[e].body.Queue? ==> s'.events[e].body == s.events[e].body)
  {
    DeleteEffect(s, Q, e, del);
    if Delete(s, Q, e, del).err == ErrNone && del == Always {
      WakeAllKeeps(s, e, 0, Q, PendAbort);
    }
  }

  lemma PendQueues(s: State, kind: StatBit, e: nat, timeout: nat)
    requires Inv(s) && MayBlock(s) && e < |s.events| && kind != MUTEX
    ensures QueuesKept(s, Pend(s, kind, e, timeout).s, if kind == Q && Pend(s, Q, e, timeout).err == ErrNone then e else -1)
  {
    PendEffect(s, kind, e, timeout);
  }

  lemma FinishQueues(s: State)
    requires Inv(s) && InPend(s)
    ensures QueuesKept(s, PendFinish(s).s, -1)
  {
    assert TaskOk(s, s.cur);
  }

  lemma CreateQueues(s: State, b: Body)
    requires Inv(s) && NewBody(b)
    ensures s.evFree != [] ==> s.evFree[0] < |s.events|
    ensures QueuesKept(s, Create(s, b).s, NamedQueue(s, OfEvent(CreateEvent(b))))
  {
    CreateKeeps(s, b);
  }

  lemma EventStepQueues(s: State, op: EventCall)
    requires Inv(s) && LegalEvent(s, op)
    ensures QueuesKept(s, EventStepOf(s, op).s, NamedQueue(s, OfEvent(op)))
  {
    match op
    case CreateEvent(b) => CreateQueues(s, b);
    case DeleteEvent(kind, e, del) => DeleteQueues(s, kind, e, del);
    case PendOn(kind, e, timeout) => PendQueues(s, kind, e, timeout);
    case FinishPend => FinishQueues(s);
    case PostTo(kind, e, msg, opt) => PostQueues(s, kind, e, msg, opt);
    case AcceptFrom(kind, e) =>
    case AbortAll(kind, e, all) => AbortQueues(s, kind, e, all);
    case SetSem(e, cnt) =>
    case FlushQ(e) =>
  }

  lemma RaiseQueues(s: State, e: nat)
    requires Core(s) && s.cur < |s.tcbs|
    ensures QueuesKept(s, MaybeRaise(s, e), -1)
  {
    if NeedsRaise(s, e) {
      RaiseKeeps(s, e);
    }
  }

  lemma LockQueues(s: State, e: nat, timeout: nat)
    requires Inv(s) && MayBlock(s) && e < |s.events|
    ensures QueuesKept(s, MutexPend(s, e, timeout).s, -1)
  {
    MutexPendEffect(s, e, timeout);
    if MutexPend(s, e, timeout).err == ErrBlocked {
      RaiseQueues(s, e);
    }
  }

  lemma HandOverQueues(s: State, e: nat)
    requires Core(s) && e < |s.events| && s.events[e].body.Mutex? && s.events[e].wait != {}
    ensures QueuesKept(s, HandOver(s, e), -1)
  {
    WakeKeeps(s, e, 0, MUTEX, PendOk);
  }

  lemma UnlockQueues(s: State, e: nat)
    requires Inv(s) && e < |s.events| && s.running
    ensures QueuesKept(s, MutexPost(s, e).s, -1)
  {
    MutexPostEffect(s, e);
    if s.nesting == 0 && OwnedByCurrent(s, e) && s.events[e].wait != {} {
      HandOverQueues(Unraise(s, e), e);
    }
  }

  lemma MutexStepQueues(s: State, op: MutexCall)
    requires Inv(s) && LegalMutex(s, op)
    ensures QueuesKept(s, MutexStepOf(s, op).s, -1)
  {
    match op
    case CreateMutex(pcp) => MutexCreateKeeps(s, pcp);
    case DeleteMutex(e, del) => MutexDeleteKeeps(s, e, del);
    case LockMutex(e, timeout) => LockQueues(s, e, timeout);
    case UnlockMutex(e) => UnlockQueues(s, e);
    case TryMutex(e) => assert EventOk(s, e);
  }

  lemma TaskCreateQueues(s: State, prio: nat)
    requires Inv(s) && prio < PRIOS
    ensures QueuesKept(s, TaskCreate(s, prio).s, -1)
  {
    TaskCreateEffect(s, prio);
  }

  lemma TaskDelQueues(s: State, prio: nat)
    requires Inv(s) && MayDelete(s, prio)
    ensures QueuesKept(s, TaskDel(s, prio).s, -1)
  {
    TaskDelEffect(s, prio);
  }

  lemma ChangePrioQueues(s: State, oldPrio: nat, newPrio: nat)
    requires Inv(s) && MayChange(s, oldPrio, newPrio)
    ensures QueuesKept(s, ChangePrio(s, oldPrio, newPrio).s, -1)
  {
    ChangePrioEffect(s, oldPrio, newPrio);
  }

  lemma TaskStepQueues(s: State, op: TaskCall)
    requires Inv(s) && LegalTask(s, op)
    ensures QueuesKept(s, TaskStepOf(s, op).s, -1)
  {
    match op
    case CreateTask(prio) => TaskCreateQueues(s, prio);
    case DeleteTask(prio) => TaskDelQueues(s, prio);
    case Suspend(prio) => TaskSuspendEffect(s, prio);
    case Resume(prio) => TaskResumeEffect(s, prio);
    case Change(oldPrio, newPrio) => ChangePrioQueues(s, oldPrio, newPrio);
    case Delay(ticks) => TimeDlyEffect(s, ticks);
  }

  lemma SchedStepQueues(s: State, op: SchedCall)
    requires Inv(s)
    ensures QueuesKept(s, SchedStep(s, op), -1)
  {
    match op
    case TickCall =>
    case _ => assert SchedStep(s, op).events == s.events;
  }

  // No call changes a queue, or makes an event a queue, unless it is a queue call that names it.
  lemma StepKeepsQueues(s: State, op: Op)
    requires Legal(s, op)
    ensures QueuesKept(s, Step(s, op).s, NamedQueue(s, op))
  {
    match op
    case OfSched(c) => SchedStepQueues(s, c);
    case OfTask(c) => TaskStepQueues(s, c);
    case OfEvent(c) => EventStepQueues(s, c);
    case OfMutex(c) => MutexStepQueues(s, c);
  }
}
