/** What holds in every state that a legal run reaches from the initial state, stated one property at a time. */
module Reachable {
  import opened PrioSets
  import opened KernelState
  import opened Primitives
  import opened EventServices
  import opened MutexServices
  import opened TaskServices
  import opened Runs
  import opened ServiceCases
  import opened Chains

  // A state reached from initialisation by `ops`.
  ghost predicate Reached(s0: State, ops: seq<Op>, s: State) {
    InitState(s0) && LegalRun(s0, ops) && s == Final(s0, ops)
  }

  // A live task is ready exactly when no status bit is set and no delay runs.
  lemma ReadyIffRunnable(s0: State, ops: seq<Op>, s: State, t: nat)
    requires Reached(s0, ops, s) && t in s.live
    ensures t < |s.tcbs| && (s.tcbs[t].prio in s.rdy <==> s.tcbs[t].stat == {} && s.tcbs[t].dly == 0)
  {
    ReachableKeeps(s0, ops);
    assert TaskOk(s, t);
  }

  // A task's bit is in an event's wait list exactly when its event pointer is that event; then it is either still
  // pending, with the bit of the event's kind and not ready, or timed out and not yet resumed, with no pend bit left.
  lemma WaitBitIffPointer(s0: State, ops: seq<Op>, s: State, t: nat, e: nat)
    requires Reached(s0, ops, s) && t in s.live && e < |s.events|
    ensures t < |s.tcbs|
    ensures s.tcbs[t].prio in s.events[e].wait <==> s.tcbs[t].event == Some(e)
    ensures s.tcbs[t].event == Some(e) ==>
              var k := s.tcbs[t];
              k.cont.Pending? && k.cont.e == e && IsKind(s.events[e].body, k.cont.kind)
              && if k.pend == PendTimeout then k.stat <= {SUSPEND} && k.dly == 0
                 else k.pend == PendOk && k.stat - {SUSPEND} == {k.cont.kind} && k.prio !in s.rdy
  {
    ReachableKeeps(s0, ops);
    assert TaskOk(s, t);
    if s.tcbs[t].prio in s.events[e].wait {
      assert TaskAt(s, s.tcbs[t].prio);
    }
  }

  // No live task refers to a free event control block, and no task waits on one.
  lemma NoDanglingWaits(s0: State, ops: seq<Op>, s: State, e: nat, t: nat)
    requires Reached(s0, ops, s) && e in s.evFree && t in s.live
    ensures e < |s.events| && s.events[e] == Event(Unused, {})
    ensures t < |s.tcbs| && s.tcbs[t].event != Some(e) && s.tcbs[t].owns != Some(e)
  {
    ReachableKeeps(s0, ops);
    assert TaskOk(s, t) && EventOk(s, e);
  }

  // Something to take means nobody waits, and a count or a queue never exceeds its bound.
  lemma NobodyWaitsForAvailable(s0: State, ops: seq<Op>, s: State, e: nat)
    requires Reached(s0, ops, s) && e < |s.events|
    ensures Available(s.events[e].body) ==> s.events[e].wait == {}
    ensures s.events[e].body.Sem? ==> s.events[e].body.cnt <= SEM_MAX
    ensures s.events[e].body.Queue? ==> |s.events[e].body.data| <= s.events[e].body.size
  {
    ReachableKeeps(s0, ops);
    assert EventOk(s, e);
  }

  // The lower byte says whether a mutex has an owner; without one nobody waits and the ceiling is reserved.
  // The owner knows its mutex, its own priority is in the lower byte, and it runs there or at the ceiling.
  lemma MutexStates(s0: State, ops: seq<Op>, s: State, e: nat)
    requires Reached(s0, ops, s) && e < |s.events| && s.events[e].body.Mutex?
    ensures var b := s.events[e].body;
            && (b.low == AVAILABLE <==> b.owner == None)
            && (b.owner == None ==> s.events[e].wait == {} && (b.pcp != CEIL_DIS ==> b.pcp < |s.prioTbl| && s.prioTbl[b.pcp] == Reserved))
            && (b.owner.Some? ==>
                  && b.owner.value in s.live && b.owner.value < |s.tcbs| && s.tcbs[b.owner.value].owns == Some(e)
                  && b.low < |s.prioTbl| && s.prioTbl[b.low] == Task(b.owner.value)
                  && (s.tcbs[b.owner.value].prio == b.low || (b.pcp != CEIL_DIS && s.tcbs[b.owner.value].prio == b.pcp)))
  {
    ReachableKeeps(s0, ops);
    assert EventOk(s, e);
  }

  // A slot of the priority table is empty, reserved, its own task's, or the original slot of one raised mutex owner.
  lemma SlotStates(s0: State, ops: seq<Op>, s: State, p: nat)
    requires Reached(s0, ops, s) && p < PRIOS
    ensures |s.prioTbl| == PRIOS
    ensures match s.prioTbl[p]
            case Vacant => true
            case Reserved => true
            case Task(t) =>
              && t in s.live && t < |s.tcbs|
              && (s.tcbs[t].prio == p
                  || (s.tcbs[t].owns.Some? && s.tcbs[t].owns.value < |s.events|
                      && s.events[s.tcbs[t].owns.value].body == Mutex(s.tcbs[t].prio, p, Some(t))
                      && forall q :: 0 <= q < PRIOS && s.prioTbl[q] == Task(t) ==> q == p || q == s.tcbs[t].prio))
  {
    ReachableKeeps(s0, ops);
    assert SlotOk(s, p);
    if s.prioTbl[p].Task? && s.tcbs[s.prioTbl[p].t].prio != p {
      var t := s.prioTbl[p].t;
      forall q | 0 <= q < PRIOS && s.prioTbl[q] == Task(t)
        ensures q == p || q == s.tcbs[t].prio
      {
        assert SlotOk(s, q);
      }
    }
  }

  // ---------- the task control blocks ----------

  // Where a step leaves the lists of task control blocks.
  ghost predicate ListsMove(s: State, s': State) {
    && |s'.tcbs| == |s.tcbs|
    && |s'.list| + |s'.tcbFree| == |s.list| + |s.tcbFree|
  }

  lemma SchedMovesNothing(s: State)
    requires CanSwitch(s)
    ensures ListsMove(s, Sched(s))
  {
  }

  lemma TaskCallLists(s: State, c: TaskCall)
    requires Inv(s) && LegalTask(s, c)
    ensures ListsMove(s, TaskStepOf(s, c).s)
  {
    match c
    case CreateTask(prio) =>
      if TaskCreateError(s, prio) == ErrNone {
        AdmitKeeps(s, prio);
        SchedMovesNothing(Admit(s, prio));
      }
    case DeleteTask(prio) => DeleteLists(s, prio);
    case Suspend(prio) => SuspendLists(s, prio);
    case Resume(prio) => ResumeLists(s, prio);
    case Change(oldPrio, newPrio) => ChangeLists(s, oldPrio, newPrio);
    case Delay(ticks) =>
  }

  lemma SuspendLists(s: State, prio: nat)
    requires Inv(s) && MaySuspend(s, prio)
    ensures ListsMove(s, TaskSuspend(s, prio).s)
  {
    SuspendCases(s, prio);
  }

  lemma ResumeLists(s: State, prio: nat)
    requires Inv(s) && prio < PRIOS
    ensures ListsMove(s, TaskResume(s, prio).s)
  {
    ResumeCases(s, prio);
  }

  lemma DeleteLists(s: State, prio: nat)
    requires Inv(s) && MayDelete(s, prio)
    ensures ListsMove(s, TaskDel(s, prio).s)
  {
    TaskDelCases(s, prio);
    var p := Named(s, prio);
    if s.nesting == 0 && prio != IDLE_PRIO && s.prioTbl[p].Task? {
      DismissedLists(s, s.prioTbl[p].t);
      SchedMovesNothing(Dismiss(s, s.prioTbl[p].t));
    }
  }

  lemma DismissedLists(s: State, t: nat)
    requires t < |s.tcbs| && s.tcbs[t].prio < |s.prioTbl| && t in s.list
    requires s.tcbs[t].event.Some? ==> s.tcbs[t].event.value < |s.events|
    ensures ListsMove(s, Dismiss(s, t))
  {
    var _ := WithoutSplits(s.list, t);
  }

  lemma ChangeLists(s: State, oldPrio: nat, newPrio: nat)
    requires Inv(s) && MayChange(s, oldPrio, newPrio)
    ensures ListsMove(s, ChangePrio(s, oldPrio, newPrio).s)
  {
    ChangeCases(s, oldPrio, newPrio);
    var p := Named(s, oldPrio);
    if s.prioTbl[newPrio] == Vacant && s.prioTbl[p].Task? {
      SchedMovesNothing(Rename(s, s.prioTbl[p].t, p, newPrio));
    }
  }

  lemma WakeSomeLists(s: State, kind: StatBit, e: nat, msg: nat, pend: PendStat, all: bool)
    requires Core(s) && e < |s.events| && s.events[e].wait != {} && IsKind(s.events[e].body, kind) && pend != PendTimeout
    ensures HasWaiter(s, e) && ListsMove(s, WakeSome(s, kind, e, msg, pend, all))
  {
    WakeKeeps(s, e, msg, kind, pend);
    if all {
      WakeAllKeeps(s, e, msg, kind, pend);
      WakeAllIsSimultaneous(s, e, msg, kind, pend);
    }
  }

  lemma EventCallLists(s: State, c: EventCall)
    requires Inv(s) && LegalEvent(s, c)
    ensures ListsMove(s, EventStepOf(s, c).s)
  {
    match c
    case CreateEvent(b) => CreateKeeps(s, b);
    case DeleteEvent(kind, e, del) => DeleteEventLists(s, kind, e, del);
    case PendOn(kind, e, timeout) => PendCases(s, kind, e, timeout);
    case FinishPend => FinishLists(s);
    case PostTo(kind, e, msg, opt) => PostLists(s, kind, e, msg, opt);
    case AcceptFrom(kind, e) =>
    case AbortAll(kind, e, all) => AbortLists(s, kind, e, all);
    case SetSem(e, cnt) =>
    case FlushQ(e) =>
  }

  lemma FinishLists(s: State)
    requires Inv(s) && InPend(s)
    ensures ListsMove(s, PendFinish(s).s)
  {
    FinishCases(s);
  }

  lemma DeleteEventLists(s: State, kind: StatBit, e: nat, del: DelOpt)
    requires Inv(s) && e < |s.events| && kind != MUTEX
    ensures ListsMove(s, Delete(s, kind, e, del).s)
  {
    DeleteCases(s, kind, e, del);
    if IsKind(s.events[e].body, kind) {
      WakeAllKeeps(s, e, 0, kind, PendAbort);
      WakeAllIsSimultaneous(s, e, 0, kind, PendAbort);
      assert ListsMove(s, Dissolve(s, kind, e));
    }
  }

  lemma PostLists(s: State, kind: StatBit, e: nat, msg: nat, opt: PostOpt)
    requires Inv(s) && e < |s.events| && MayPost(kind, msg, opt)
    ensures ListsMove(s, Post(s, kind, e, msg, opt).s)
  {
    PostCases(s, kind, e, msg, opt);
    if IsKind(s.events[e].body, kind) && s.events[e].wait != {} {
      WakeSomeLists(s, kind, e, msg, PendOk, opt.broadcast);
    }
  }

  lemma AbortLists(s: State, kind: StatBit, e: nat, all: bool)
    requires Inv(s) && e < |s.events| && kind != MUTEX
    ensures ListsMove(s, Abort(s, kind, e, all).s)
  {
    AbortCases(s, kind, e, all);
    if IsKind(s.events[e].body, kind) && s.events[e].wait != {} {
      WakeSomeLists(s, kind, e, 0, PendAbort, all);
    }
  }

  lemma MutexCallLists(s: State, c: MutexCall)
    requires Inv(s) && LegalMutex(s, c)
    ensures ListsMove(s, MutexStepOf(s, c).s)
  {
    match c
    case CreateMutex(pcp) => MutexCreateKeeps(s, pcp);
    case DeleteMutex(e, del) => MutexDeleteKeeps(s, e, del);
    case LockMutex(e, timeout) => LockLists(s, e, timeout);
    case UnlockMutex(e) => UnlockLists(s, e);
    case TryMutex(e) =>
  }

  lemma LockLists(s: State, e: nat, timeout: nat)
    requires Inv(s) && MayBlock(s) && e < |s.events|
    ensures ListsMove(s, MutexPend(s, e, timeout).s)
  {
    MutexPendCases(s, e, timeout);
    if MutexPend(s, e, timeout).err == ErrBlocked {
      RaiseCases(s, e);
    }
  }

  lemma UnlockLists(s: State, e: nat)
    requires Inv(s) && e < |s.events| && s.running
    ensures ListsMove(s, MutexPost(s, e).s)
  {
    if s.nesting == 0 && OwnedByCurrent(s, e) {
      UnraiseKeeps(s, e);
      assert EventOk(s, e);
      var s1 := Unraise(s, e);
      assert ListsMove(s, s1);
      if s.events[e].wait != {} {
        HandOverKeeps(s1, e);
        WakeKeeps(s1, e, 0, MUTEX, PendOk);
        SchedMovesNothing(HandOver(s1, e));
      }
    }
  }

  lemma StepLists(s: State, op: Op)
    requires Legal(s, op)
    ensures ListsMove(s, Step(s, op).s)
  {
    match op
    case OfSched(c) =>
    case OfTask(c) => TaskCallLists(s, c);
    case OfEvent(c) => EventCallLists(s, c);
    case OfMutex(c) => MutexCallLists(s, c);
  }

  lemma {:induction false} ListsAddUp(s: State, ops: seq<Op>)
    requires LegalRun(s, ops)
    ensures ListsMove(s, Final(s, ops))
    decreases |ops|
  {
    if ops != [] {
      StepLists(s, ops[0]);
      ListsAddUp(Step(s, ops[0]).s, ops[1..]);
    }
  }

  // A list of n distinct numbers below n leaves none out.
  lemma FullList(q: seq<nat>, n: nat, t: nat)
    requires NoDup(q) && |q| == n && t < n && forall i :: 0 <= i < |q| ==> q[i] < n
    ensures t in q
  {
    if t !in q {
      var r := [t] + q;
      assert forall i :: 0 < i < |r| ==> r[i] == q[i - 1];
      DistinctBelow(r, n);
    }
  }

  // The task list and the free list partition the table of task control blocks, and the idle task is last.
  lemma ListsPartition(s0: State, ops: seq<Op>, s: State, t: nat)
    requires Reached(s0, ops, s)
    ensures NoDup(s.list + s.tcbFree)
    ensures t < |s.tcbs| <==> t in s.list || t in s.tcbFree
    ensures t in s.live <==> t in s.list
    ensures s.list != [] && s.list[|s.list| - 1] < |s.tcbs| && s.tcbs[s.list[|s.list| - 1]].prio == IDLE_PRIO
  {
    ReachableKeeps(s0, ops);
    ListsAddUp(s0, ops);
    var q := s.list + s.tcbFree;
    forall i | 0 <= i < |q|
      ensures q[i] < |s.tcbs|
    {
      assert i < |s.list| ==> q[i] in s.list;
      assert i >= |s.list| ==> q[i] in s.tcbFree;
    }
    if t < |s.tcbs| {
      FullList(q, |s.tcbs|, t);
    }
  }
}
