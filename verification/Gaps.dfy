/** The running task is the most urgent ready one, over whole runs: which steps open a gap in the schedule,
    and which steps close it. */
module Gaps {
  import opened KernelState
  import opened Primitives
  import opened EventServices
  import opened MutexServices
  import opened TaskServices
  import opened Runs
  import opened ServiceCases
  import opened Rules

  // A scheduler call that may switch leaves the most urgent ready task running.
  lemma SchedIsOptimal(s: State)
    requires CanSwitch(s)
    ensures Optimal(Sched(s))
  {
    assert IDLE_PRIO in s.rdy;
  }

  // ---------- the steps that call the scheduler ----------

  ghost predicate TaskCallSchedules(s: State, op: TaskCall)
    requires Inv(s) && LegalTask(s, op)
  {
    match op
    case CreateTask(prio) => s.running && TaskCreateError(s, prio) == ErrNone
    case DeleteTask(prio) => TaskDel(s, prio).err == ErrNone
    case Suspend(prio) => TaskSuspend(s, prio).err == ErrNone && Named(s, prio) == s.tcbs[s.cur].prio
    case Resume(prio) => s.running && TaskResume(s, prio).err == ErrNone && Runnable(s, prio)
    case Change(oldPrio, newPrio) => ChangePrio(s, oldPrio, newPrio).err == ErrNone
    case Delay(ticks) => s.nesting == 0 && s.lock == 0 && ticks > 0
  }

  // The task of priority `prio` is held up by nothing but its suspension.
  ghost predicate Runnable(s: State, prio: nat)
    requires prio < |s.prioTbl|
  {
    s.prioTbl[prio].Task? && s.prioTbl[prio].t < |s.tcbs|
    && s.tcbs[s.prioTbl[prio].t].stat - {SUSPEND} == {} && s.tcbs[s.prioTbl[prio].t].dly == 0
  }

  ghost predicate EventCallSchedules(s: State, op: EventCall)
    requires Inv(s) && LegalEvent(s, op)
  {
    match op
    case DeleteEvent(kind, e, del) => s.nesting == 0 && IsKind(s.events[e].body, kind) && del == Always && s.events[e].wait != {}
    case PendOn(kind, e, timeout) => Pend(s, kind, e, timeout).err == ErrBlocked
    case PostTo(kind, e, msg, opt) => IsKind(s.events[e].body, kind) && s.events[e].wait != {} && !opt.noSched
    case AbortAll(kind, e, all) => IsKind(s.events[e].body, kind) && s.events[e].wait != {}
    case _ => false
  }

  ghost predicate MutexCallSchedules(s: State, op: MutexCall)
    requires Inv(s) && LegalMutex(s, op)
  {
    match op
    case LockMutex(e, timeout) => MutexPend(s, e, timeout).err == ErrBlocked
    case UnlockMutex(e) => s.nesting == 0 && OwnedByCurrent(s, e) && s.events[e].wait != {}
    case _ => false
  }

  ghost predicate ClosesGap(s: State, op: Op)
    requires Legal(s, op)
  {
    match op
    case OfSched(c) => c == IntExitCall || (c == UnlockCall && s.running && s.nesting == 0 && s.lock == 1)
    case OfTask(c) => TaskCallSchedules(s, c)
    case OfEvent(c) => EventCallSchedules(s, c)
    case OfMutex(c) => MutexCallSchedules(s, c)
  }

  lemma TaskCallCloses(s: State, op: TaskCall)
    requires Inv(s) && LegalTask(s, op) && TaskCallSchedules(s, op)
    ensures Optimal(TaskStepOf(s, op).s)
  {
    match op
    case CreateTask(prio) =>
      TaskCreateCases(s, prio);
      SchedIsOptimal(Admit(s, prio));
    case DeleteTask(prio) =>
      TaskDelCases(s, prio);
      SchedIsOptimal(Dismiss(s, s.prioTbl[Named(s, prio)].t));
    case Suspend(prio) =>
      SuspendCases(s, prio);
      SchedIsOptimal(Park(s, s.prioTbl[Named(s, prio)].t));
    case Resume(prio) =>
      ResumeCases(s, prio);
      SchedIsOptimal(Unpark(s, s.prioTbl[prio].t));
    case Change(oldPrio, newPrio) =>
      ChangeCases(s, oldPrio, newPrio);
      var p := Named(s, oldPrio);
      SchedIsOptimal(Rename(s, s.prioTbl[p].t, p, newPrio));
    case Delay(ticks) =>
      SleepCases(s, ticks);
      SchedIsOptimal(Sleep(s, ticks));
  }

  lemma EventCallCloses(s: State, op: EventCall)
    requires Inv(s) && LegalEvent(s, op) && EventCallSchedules(s, op)
    ensures Optimal(EventStepOf(s, op).s)
  {
    match op
    case DeleteEvent(kind, e, del) =>
      DeleteCases(s, kind, e, del);
      SchedIsOptimal(Dissolve(s, kind, e));
    case PendOn(kind, e, timeout) =>
      PendCases(s, kind, e, timeout);
      SchedIsOptimal(Block(s, e, kind, timeout));
    case PostTo(kind, e, msg, opt) =>
      PostCases(s, kind, e, msg, opt);
      SchedIsOptimal(WakeSome(s, kind, e, msg, PendOk, opt.broadcast));
    case AbortAll(kind, e, all) =>
      AbortCases(s, kind, e, all);
      SchedIsOptimal(WakeSome(s, kind, e, 0, PendAbort, all));
  }

  lemma MutexCallCloses(s: State, op: MutexCall)
    requires Inv(s) && LegalMutex(s, op) && MutexCallSchedules(s, op)
    ensures Optimal(MutexStepOf(s, op).s)
  {
    match op
    case LockMutex(e, timeout) =>
      MutexPendCases(s, e, timeout);
      SchedIsOptimal(Block(MaybeRaise(s, e), e, MUTEX, timeout));
    case UnlockMutex(e) =>
      MutexPostCases(s, e);
      SchedIsOptimal(HandOver(Unraise(s, e), e));
  }

  lemma StepCloses(s: State, op: Op)
    requires Legal(s, op) && ClosesGap(s, op)
    ensures Optimal(Step(s, op).s)
  {
    match op
    case OfSched(c) =>
      if c == UnlockCall {
        SchedIsOptimal(s.(lock := 0));
      } else {
        StepKeeps(s, op);
      }
    case OfTask(c) => TaskCallCloses(s, c);
    case OfEvent(c) => EventCallCloses(s, c);
    case OfMutex(c) => MutexCallCloses(s, c);
  }

  // ---------- the steps that open a gap ----------

  // The tick makes task `t` ready.
  ghost predicate TickWakes(s: State, t: nat) {
    Ticks(s, t) && WakesUp(s.tcbs[t])
  }

  // The post makes task `t` ready.
  ghost predicate PostWakes(s: State, kind: StatBit, e: nat, all: bool, t: nat) {
    Reaches(s, kind, e, all, t) && SUSPEND !in s.tcbs[t].stat
  }

  // The step makes a task ready that is more urgent than the running one, or the running one less urgent than a ready
  // task, and calls no scheduler: a tick counted by a task, a post that asks for no scheduling, and a mutex post that
  // demotes its caller with nobody waiting. On a processor that serves an interrupt, or with the scheduler locked, the
  // scheduler is still to come.
  ghost predicate LeavesGap(s: State, op: Op)
    requires Legal(s, op)
  {
    && !Busy(s)
    && match op
       case OfSched(TickCall) => exists t: nat :: TickWakes(s, t) && s.tcbs[t].prio < s.prioCur
       case OfEvent(PostTo(kind, e, _, opt)) =>
         opt.noSched && exists t: nat :: PostWakes(s, kind, e, opt.broadcast, t) && s.tcbs[t].prio < s.prioCur
       case OfMutex(UnlockMutex(e)) => Demotes(s, e) && exists p :: p in s.rdy && p != s.prioCur && p < s.events[e].body.low
       case _ => false
  }

  lemma TickGap(s: State)
    requires Inv(s) && !Busy(s) && Optimal(s)
    ensures Optimal(Tick(s)) <==> !exists t: nat :: TickWakes(s, t) && s.tcbs[t].prio < s.prioCur
  {
    var s' := Tick(s);
    if t: nat :| TickWakes(s, t) && s.tcbs[t].prio < s.prioCur {
      assert s.tcbs[t].prio in s'.rdy;
    }
  }

  lemma PostGap(s: State, kind: StatBit, e: nat, msg: nat, opt: PostOpt)
    requires Inv(s) && !Busy(s) && Optimal(s) && e < |s.events| && MayPost(kind, msg, opt) && opt.noSched
    ensures Optimal(Post(s, kind, e, msg, opt).s) <==>
            !exists t: nat :: PostWakes(s, kind, e, opt.broadcast, t) && s.tcbs[t].prio < s.prioCur
  {
    if IsKind(s.events[e].body, kind) {
      if s.events[e].wait != {} {
        PostCases(s, kind, e, msg, opt);
        WokenReady(s, kind, e, msg, opt.broadcast);
      } else {
        NobodyWaits(s, e);
      }
    }
  }

  // Who is ready after a wake, and that nothing else about the schedule changes.
  lemma WokenReady(s: State, kind: StatBit, e: nat, msg: nat, all: bool)
    requires Core(s) && e < |s.events| && s.events[e].wait != {} && IsKind(s.events[e].body, kind)
    ensures var s' := WakeSome(s, kind, e, msg, PendOk, all);
            && s'.running == s.running && s'.nesting == s.nesting && s'.lock == s.lock && s'.prioCur == s.prioCur
            && (forall p :: p in s.rdy ==> p in s'.rdy)
            && (forall t: nat :: PostWakes(s, kind, e, all, t) ==> s.tcbs[t].prio in s'.rdy)
            && (forall p :: p in s'.rdy && p !in s.rdy ==>
                  exists t: nat :: PostWakes(s, kind, e, all, t) && s.tcbs[t].prio == p)
  {
    WakeKeeps(s, e, msg, kind, PendOk);
    WaiterExists(s, e);
    if all {
      WakeAllIsSimultaneous(s, e, msg, kind, PendOk);
    } else {
      assert Reaches(s, kind, e, all, Waiter(s, e));
    }
  }

  // From an optimal schedule these steps, and no others, lead to one that is not.
  lemma GapIsExact(s: State, op: Op)
    requires Legal(s, op) && Optimal(s)
    ensures Optimal(Step(s, op).s) <==> !LeavesGap(s, op)
  {
    StepKeeps(s, op);
    if !Busy(s) {
      match op
      case OfSched(c) =>
        if c == TickCall {
          TickGap(s);
        }
      case OfEvent(c) =>
        if c.PostTo? && c.opt.noSched {
          PostGap(s, c.kind, c.e, c.msg, c.opt);
        }
      case OfMutex(c) =>
        if c.UnlockMutex? && Demotes(s, c.e) {
          DemotionGapIsExact(s, c.e);
        }
      case OfTask(c) =>
    }
  }

  // ---------- runs ----------

  // After the run a gap is open, if one was open before it when `open` holds.
  ghost predicate GapOpen(s: State, ops: seq<Op>, open: bool)
    requires LegalRun(s, ops)
    decreases |ops|
  {
    if ops == [] then open
    else GapOpen(Step(s, ops[0]).s, ops[1..], LeavesGap(s, ops[0]) || (open && !ClosesGap(s, ops[0])))
  }

  // In every legal run, wherever no gap is open, the running task is the most urgent ready one at every quiescent
  // point: only the steps above open a gap, and every interrupt exit and every scheduler call closes it.
  lemma {:induction false} ScheduleIsOptimal(s: State, ops: seq<Op>, open: bool)
    requires LegalRun(s, ops) && (open || Optimal(s))
    ensures GapOpen(s, ops, open) || Optimal(Final(s, ops))
    decreases |ops|
  {
    if ops != [] {
      if Optimal(s) {
        GapIsExact(s, ops[0]);
      }
      if ClosesGap(s, ops[0]) {
        StepCloses(s, ops[0]);
      }
      ScheduleIsOptimal(Step(s, ops[0]).s, ops[1..], LeavesGap(s, ops[0]) || (open && !ClosesGap(s, ops[0])));
    }
  }

  // From initialisation on.
  lemma ReachableScheduleIsOptimal(s: State, ops: seq<Op>)
    requires InitState(s) && LegalRun(s, ops)
    ensures GapOpen(s, ops, false) || Optimal(Final(s, ops))
  {
    InitKeeps(s);
    ScheduleIsOptimal(s, ops, false);
  }
}
