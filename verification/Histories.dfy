/** What a run adds up to: how deep interrupts and the scheduler lock are nested and who runs meanwhile, who is alive,
    who is suspended, and which priority a task has of its own. */
module Histories {
  import opened PrioSets
  import opened KernelState
  import opened EventServices
  import opened MutexServices
  import opened TaskServices
  import opened Runs
  import opened TaskAnswers
  import opened EventAnswers
  import opened MutexAnswers
  import opened Delays
  import opened Ceiling

  // ---------- interrupt nesting and the scheduler lock ----------

  function NestingAfter(nesting: nat, op: Op): nat
    requires op == OfSched(IntExitCall) ==> nesting > 0
  {
    match op
    case OfSched(IntEnterCall) => if nesting < 255 then nesting + 1 else nesting
    case OfSched(IntExitCall) => nesting - 1
    case _ => nesting
  }

  ghost function LockAfter(s: State, op: Op): nat
    requires Legal(s, op)
  {
    match op
    case OfSched(LockCall) => if s.nesting == 0 && s.lock < 255 then s.lock + 1 else s.lock
    case OfSched(UnlockCall) => if s.nesting == 0 && s.lock > 0 then s.lock - 1 else s.lock
    case OfTask(DeleteTask(prio)) => if s.lock >= 255 && TaskDel(s, prio).err == ErrNone then s.lock - 1 else s.lock
    case _ => s.lock
  }

  // Entries and exits alone move the nesting, by one; locks and unlocks in task code alone move the lock, by one, and a
  // deletion under a saturated lock. A step that ends in an interrupt or under the lock does not change who runs.
  ghost predicate ModeMoves(s: State, op: Op, s': State)
    requires Legal(s, op)
  {
    && s'.running && s'.nesting == NestingAfter(s.nesting, op) && s'.lock == LockAfter(s, op)
    && (s'.nesting > 0 || s'.lock > 0 ==> s'.cur == s.cur)
    && (s'.nesting > 0 ==> s'.prioCur == s.prioCur)
  }

  lemma SchedCallMode(s: State, c: SchedCall)
    requires Legal(s, OfSched(c)) && s.running
    ensures ModeMoves(s, OfSched(c), SchedStep(s, c))
  {
    InterruptAnswers(s);
    LockAnswers(s);
    TickFrame(s);
  }

  // What most calls keep.
  ghost predicate Steady(s: State, s': State) {
    && SameMode(s, s') && s'.live == s.live
    && (s.running && (s.nesting > 0 || s.lock > 0) ==> s'.cur == s.cur)
    && (s.running && s.nesting > 0 ==> s'.prioCur == s.prioCur)
  }

  lemma CreateTaskMode(s: State, prio: nat)
    requires Legal(s, OfTask(CreateTask(prio))) && s.running
    ensures ModeMoves(s, OfTask(CreateTask(prio)), TaskCreate(s, prio).s)
  {
    CreateTaskAnswer(s, prio);
  }

  lemma DeleteTaskMode(s: State, prio: nat)
    requires Legal(s, OfTask(DeleteTask(prio))) && s.running
    ensures ModeMoves(s, OfTask(DeleteTask(prio)), TaskDel(s, prio).s)
  {
    DeleteTaskAnswer(s, prio);
  }

  lemma SuspendMode(s: State, prio: nat)
    requires Inv(s) && CanSuspend(s, prio)
    ensures Steady(s, TaskSuspend(s, prio).s)
  {
    SuspendAnswer(s, prio);
  }

  lemma ResumeMode(s: State, prio: nat)
    requires Inv(s) && prio < PRIOS
    ensures Steady(s, TaskResume(s, prio).s)
  {
    ResumeAnswer(s, prio);
  }

  lemma ChangeMode(s: State, oldPrio: nat, newPrio: nat)
    requires Inv(s) && CanChange(s, oldPrio, newPrio)
    ensures Steady(s, ChangePrio(s, oldPrio, newPrio).s)
  {
    ChangeAnswer(s, oldPrio, newPrio);
  }

  lemma TaskCallMode(s: State, c: TaskCall)
    requires Legal(s, OfTask(c)) && s.running
    ensures ModeMoves(s, OfTask(c), TaskStepOf(s, c).s)
  {
    match c
    case CreateTask(prio) => CreateTaskMode(s, prio);
    case DeleteTask(prio) => DeleteTaskMode(s, prio);
    case Suspend(prio) => SuspendMode(s, prio);
    case Resume(prio) => ResumeMode(s, prio);
    case Change(oldPrio, newPrio) => ChangeMode(s, oldPrio, newPrio);
    case Delay(ticks) => DelayAnswer(s, ticks);
  }

  lemma PendMode(s: State, kind: StatBit, e: nat, timeout: nat)
    requires Inv(s) && MayBlock(s) && e < |s.events| && kind != MUTEX
    ensures Steady(s, Pend(s, kind, e, timeout).s)
  {
    PendAnswer(s, kind, e, timeout);
  }

  lemma PostMode(s: State, kind: StatBit, e: nat, msg: nat, opt: PostOpt)
    requires Inv(s) && e < |s.events| && MayPost(kind, msg, opt)
    ensures Steady(s, Post(s, kind, e, msg, opt).s)
  {
    PostAnswer(s, kind, e, msg, opt);
  }

  lemma AbortMode(s: State, kind: StatBit, e: nat, all: bool)
    requires Inv(s) && e < |s.events| && kind != MUTEX
    ensures Steady(s, Abort(s, kind, e, all).s)
  {
    AbortAnswer(s, kind, e, all);
  }

  lemma DeleteMode(s: State, kind: StatBit, e: nat, opt: DelOpt)
    requires Inv(s) && e < |s.events| && kind != MUTEX
    ensures Steady(s, Delete(s, kind, e, opt).s)
  {
    DeleteAnswer(s, kind, e, opt);
  }

  lemma EventCallMode(s: State, c: EventCall)
    requires Inv(s) && LegalEvent(s, c)
    ensures Steady(s, EventStepOf(s, c).s)
  {
    match c
    case CreateEvent(b) => CreateAnswer(s, b);
    case DeleteEvent(kind, e, del) => DeleteMode(s, kind, e, del);
    case PendOn(kind, e, timeout) => PendMode(s, kind, e, timeout);
    case FinishPend => FinishAnswer(s);
    case PostTo(kind, e, msg, opt) => PostMode(s, kind, e, msg, opt);
    case AcceptFrom(kind, e) => AcceptAnswer(s, kind, e);
    case AbortAll(kind, e, all) => AbortMode(s, kind, e, all);
    case SetSem(e, cnt) => SetAnswer(s, e, cnt);
    case FlushQ(e) => FlushAnswer(s, e);
  }

  lemma MutexCallMode(s: State, c: MutexCall)
    requires Inv(s) && LegalMutex(s, c)
    ensures Steady(s, MutexStepOf(s, c).s)
  {
    match c
    case CreateMutex(pcp) => CreateMutexAnswer(s, pcp);
    case DeleteMutex(e, del) => DeleteMutexAnswer(s, e, del);
    case LockMutex(e, timeout) => LockAnswer(s, e, timeout);
    case UnlockMutex(e) => UnlockAnswer(s, e);
    case TryMutex(e) => TryAnswer(s, e);
  }

  lemma StepMode(s: State, op: Op)
    requires Legal(s, op) && s.running
    ensures ModeMoves(s, op, Step(s, op).s)
  {
    match op
    case OfSched(c) => SchedCallMode(s, c);
    case OfTask(c) => TaskCallMode(s, c);
    case OfEvent(c) => EventCallMode(s, c);
    case OfMutex(c) => MutexCallMode(s, c);
  }

  function Calls(ops: seq<Op>, op: Op): nat {
    if ops == [] then 0 else (if ops[0] == op then 1 else 0) + Calls(ops[1..], op)
  }

  // Interrupts nest: after any run the nesting is what it was, plus the entries, less the exits.
  lemma {:induction false} NestingCounts(s: State, ops: seq<Op>)
    requires LegalRun(s, ops) && s.running && s.nesting + Calls(ops, OfSched(IntEnterCall)) <= 255
    ensures Final(s, ops).running
    ensures Final(s, ops).nesting + Calls(ops, OfSched(IntExitCall)) == s.nesting + Calls(ops, OfSched(IntEnterCall))
    decreases |ops|
  {
    if ops != [] {
      StepMode(s, ops[0]);
      NestingCounts(Step(s, ops[0]).s, ops[1..]);
    }
  }

  // The locks, or the unlocks, that count: those that a task calls, and of the unlocks those with something to unlock.
  ghost function Counted(s: State, ops: seq<Op>, c: SchedCall): nat
    requires LegalRun(s, ops)
    decreases |ops|
  {
    if ops == [] then 0
    else (if ops[0] == OfSched(c) && s.nesting == 0 && (c == UnlockCall ==> s.lock > 0) then 1 else 0)
         + Counted(Step(s, ops[0]).s, ops[1..], c)
  }

  // The scheduler lock nests: after any run it is what it was, plus the locks, less the unlocks.
  lemma {:induction false} LockCounts(s: State, ops: seq<Op>)
    requires LegalRun(s, ops) && s.running && s.lock + Counted(s, ops, LockCall) < 255
    ensures Final(s, ops).lock + Counted(s, ops, UnlockCall) == s.lock + Counted(s, ops, LockCall)
    decreases |ops|
  {
    if ops != [] {
      StepMode(s, ops[0]);
      LockCounts(Step(s, ops[0]).s, ops[1..]);
    }
  }

  // Every step of the run ends in an interrupt, or under the scheduler lock.
  ghost predicate HeldOff(s: State, ops: seq<Op>, inInterrupt: bool)
    requires LegalRun(s, ops)
    decreases |ops|
  {
    ops != [] ==>
      var s1 := Step(s, ops[0]).s;
      (s1.nesting > 0 || (s1.lock > 0 && !inInterrupt)) && HeldOff(s1, ops[1..], inInterrupt)
  }

  // From the entry of an interrupt to the exit that matches it, whatever the routines in between do and however deep they
  // nest, and from a lock to the unlock that matches it, the running task stays the same.
  lemma {:induction false} RunnerStays(s: State, ops: seq<Op>, inInterrupt: bool)
    requires LegalRun(s, ops) && s.running && HeldOff(s, ops, inInterrupt)
    ensures Final(s, ops).running && Final(s, ops).cur == s.cur
    ensures inInterrupt ==> Final(s, ops).prioCur == s.prioCur
    decreases |ops|
  {
    if ops != [] {
      StepMode(s, ops[0]);
      RunnerStays(Step(s, ops[0]).s, ops[1..], inInterrupt);
    }
  }

  // ---------- who is alive ----------

  // The call creates task `t`, or deletes it, by its reply.
  ghost predicate CreatesTask(op: Op, r: Reply, t: nat) {
    op.OfTask? && op.task.CreateTask? && r.err == ErrNone && r.val == t
  }

  ghost predicate DeletesTask(s: State, op: Op, r: Reply, t: nat)
    requires Legal(s, op)
  {
    match op
    case OfTask(DeleteTask(prio)) =>
      r.err == ErrNone && s.prioTbl[if prio == 255 then s.tcbs[s.cur].prio else prio] == Task(t)
    case _ => false
  }

  ghost predicate LivesMove(s: State, op: Op, r: Reply)
    requires Legal(s, op)
  {
    forall t :: t in r.s.live <==> CreatesTask(op, r, t) || (t in s.live && !DeletesTask(s, op, r, t))
  }

  lemma CreateTaskLives(s: State, prio: nat)
    requires Legal(s, OfTask(CreateTask(prio)))
    ensures LivesMove(s, OfTask(CreateTask(prio)), TaskCreate(s, prio))
  {
    CreateTaskAnswer(s, prio);
  }

  lemma DeleteTaskLives(s: State, prio: nat)
    requires Legal(s, OfTask(DeleteTask(prio)))
    ensures LivesMove(s, OfTask(DeleteTask(prio)), TaskDel(s, prio))
  {
    DeleteTaskAnswer(s, prio);
  }

  lemma OtherTaskCallLives(s: State, c: TaskCall)
    requires Inv(s) && LegalTask(s, c) && !c.CreateTask? && !c.DeleteTask?
    ensures TaskStepOf(s, c).s.live == s.live
  {
    match c
    case Suspend(prio) => SuspendMode(s, prio);
    case Resume(prio) => ResumeMode(s, prio);
    case Change(oldPrio, newPrio) => ChangeMode(s, oldPrio, newPrio);
    case Delay(ticks) => DelayAnswer(s, ticks);
  }

  lemma SchedCallLives(s: State, c: SchedCall)
    requires Inv(s)
    ensures SchedStep(s, c).live == s.live
  {
    TickFrame(s);
    if s.running {
      InterruptAnswers(s);
      LockAnswers(s);
    } else {
      AnswersBeforeStart(s);
    }
  }

  lemma StepLives(s: State, op: Op)
    requires Legal(s, op)
    ensures LivesMove(s, op, Step(s, op))
  {
    match op
    case OfSched(c) => SchedCallLives(s, c);
    case OfTask(c) =>
      match c {
        case CreateTask(prio) => CreateTaskLives(s, prio);
        case DeleteTask(prio) => DeleteTaskLives(s, prio);
        case _ => OtherTaskCallLives(s, c);
      }
    case OfEvent(c) => EventCallMode(s, c);
    case OfMutex(c) => MutexCallMode(s, c);
  }

  // Of the creations and deletions of task `t` in the run, the last one was a creation; or there was none, and the task
  // was alive before.
  ghost predicate LastCreated(s: State, ops: seq<Op>, t: nat, before: bool)
    requires LegalRun(s, ops)
    decreases |ops|
  {
    if ops == [] then before
    else
      var r := Step(s, ops[0]);
      LastCreated(r.s, ops[1..], t, CreatesTask(ops[0], r, t) || (before && !DeletesTask(s, ops[0], r, t)))
  }

  // A control block is a task's if and only if the last call that created or deleted its task created it.
  lemma {:induction false} LifeHistory(s: State, ops: seq<Op>, t: nat)
    requires LegalRun(s, ops)
    ensures t in Final(s, ops).live <==> LastCreated(s, ops, t, t in s.live)
    decreases |ops|
  {
    if ops != [] {
      StepLives(s, ops[0]);
      LifeHistory(Step(s, ops[0]).s, ops[1..], t);
    }
  }

  // ---------- suspension ----------

  // The call is a suspension, or a resumption, that names task `t` by its priority or as the running task.
  ghost predicate SuspendsTask(s: State, op: Op, t: nat)
    requires Legal(s, op)
  {
    match op
    case OfTask(Suspend(prio)) => s.prioTbl[if prio == 255 then s.tcbs[s.cur].prio else prio] == Task(t)
    case _ => false
  }

  ghost predicate ResumesTask(s: State, op: Op, t: nat)
    requires Legal(s, op)
  {
    match op
    case OfTask(Resume(prio)) => s.prioTbl[prio] == Task(t)
    case _ => false
  }

  ghost predicate Suspended(s: State, t: nat) {
    t in s.live && t < |s.tcbs| && SUSPEND in s.tcbs[t].stat
  }

  // A call that leaves every suspension as it is, of the tasks that survive it.
  ghost predicate Unsuspending(s: State, s': State) {
    forall t :: t in s.live && t in s'.live ==> t < |s.tcbs| && t < |s'.tcbs| && (Suspended(s', t) <==> Suspended(s, t))
  }

  lemma SchedCallSuspends(s: State, c: SchedCall)
    requires Inv(s) && InTurn(s, OfSched(c))
    ensures Unsuspending(s, SchedStep(s, c))
  {
    if s.running {
      InterruptAnswers(s);
      LockAnswers(s);
      forall t | t in s.live && c == TickCall
        ensures Suspended(SchedStep(s, c), t) <==> Suspended(s, t)
      {
        TickAnswer(s, t);
        TickFrame(s);
      }
    } else {
      AnswersBeforeStart(s);
    }
  }

  lemma SuspendSuspends(s: State, prio: nat, t: nat)
    requires Legal(s, OfTask(Suspend(prio))) && t in s.live
    ensures var s' := TaskSuspend(s, prio).s;
            s'.live == s.live && (Suspended(s', t) <==> Suspended(s, t) || SuspendsTask(s, OfTask(Suspend(prio)), t))
  {
    SuspendAnswer(s, prio);
  }

  lemma ResumeResumes(s: State, prio: nat, t: nat)
    requires Legal(s, OfTask(Resume(prio))) && t in s.live
    ensures var s' := TaskResume(s, prio).s;
            s'.live == s.live && (Suspended(s', t) <==> Suspended(s, t) && !ResumesTask(s, OfTask(Resume(prio)), t))
  {
    ResumeAnswer(s, prio);
  }

  lemma CreateTaskSuspends(s: State, prio: nat)
    requires Inv(s) && prio < PRIOS
    ensures Unsuspending(s, TaskCreate(s, prio).s)
  {
    CreateTaskAnswer(s, prio);
  }

  lemma DeleteTaskSuspends(s: State, prio: nat)
    requires Inv(s) && CanDelete(s, prio)
    ensures Unsuspending(s, TaskDel(s, prio).s)
  {
    DeleteTaskAnswer(s, prio);
  }

  lemma MoveSuspends(s: State, s': State, t: nat, p: nat, p1: nat)
    requires Shape(s) && p < |s.prioTbl| && p1 < |s.prioTbl| && t < |s.tcbs| && Moved(s, s', t, p, p1)
    ensures Unsuspending(s, s')
  {
  }

  lemma ChangeSuspends(s: State, oldPrio: nat, newPrio: nat)
    requires Inv(s) && CanChange(s, oldPrio, newPrio)
    ensures Unsuspending(s, ChangePrio(s, oldPrio, newPrio).s)
  {
    ChangeAnswer(s, oldPrio, newPrio);
    var p, r := Named(s, oldPrio), ChangePrio(s, oldPrio, newPrio);
    if r.err == ErrNone {
      MoveSuspends(s, r.s, s.prioTbl[p].t, p, newPrio);
    }
  }

  lemma OtherTaskCallSuspends(s: State, c: TaskCall)
    requires Inv(s) && LegalTask(s, c) && !c.Suspend? && !c.Resume?
    ensures Unsuspending(s, TaskStepOf(s, c).s)
  {
    match c
    case CreateTask(prio) => CreateTaskSuspends(s, prio);
    case DeleteTask(prio) => DeleteTaskSuspends(s, prio);
    case Change(oldPrio, newPrio) => ChangeSuspends(s, oldPrio, newPrio);
    case Delay(ticks) => DelayAnswer(s, ticks);
  }

  lemma WakesSuspends(s: State, s': State, kind: StatBit, e: nat, msg: nat, pend: PendStat, all: bool)
    requires Shape(s) && e < |s.events| && kind != SUSPEND && Wakes(s, s', kind, e, msg, pend, all)
    ensures Unsuspending(s, s')
  {
  }

  lemma WaitSuspends(s: State, s': State, e: nat, kind: StatBit, timeout: nat)
    requires Shape(s) && s.cur < |s.tcbs| && e < |s.events| && kind != SUSPEND && Waits(s, s', e, kind, timeout)
    ensures Unsuspending(s, s')
  {
  }

  lemma PendSuspends(s: State, kind: StatBit, e: nat, timeout: nat)
    requires Inv(s) && MayBlock(s) && e < |s.events| && kind != MUTEX
    ensures Unsuspending(s, Pend(s, kind, e, timeout).s)
  {
    PendAnswer(s, kind, e, timeout);
    var r := Pend(s, kind, e, timeout);
    if r.err == ErrBlocked {
      WaitSuspends(s, r.s, e, kind, timeout);
    }
  }

  // A task that finishes a pend runs, so it is not suspended.
  lemma FinishSuspends(s: State)
    requires Inv(s) && InPend(s)
    ensures Unsuspending(s, PendFinish(s).s)
  {
    FinishAnswer(s);
    assert TaskOk(s, s.cur);
  }

  lemma PostSuspends(s: State, kind: StatBit, e: nat, msg: nat, opt: PostOpt)
    requires Inv(s) && e < |s.events| && MayPost(kind, msg, opt)
    ensures Unsuspending(s, Post(s, kind, e, msg, opt).s)
  {
    PostAnswer(s, kind, e, msg, opt);
    if IsKind(s.events[e].body, kind) && s.events[e].wait != {} {
      WakesSuspends(s, Post(s, kind, e, msg, opt).s, kind, e, msg, PendOk, opt.broadcast);
    }
  }

  lemma AbortSuspends(s: State, kind: StatBit, e: nat, all: bool)
    requires Inv(s) && e < |s.events| && kind != MUTEX
    ensures Unsuspending(s, Abort(s, kind, e, all).s)
  {
    AbortAnswer(s, kind, e, all);
    if IsKind(s.events[e].body, kind) && s.events[e].wait != {} {
      WakesSuspends(s, Abort(s, kind, e, all).s, kind, e, 0, PendAbort, all);
    }
  }

  lemma DeleteSuspends(s: State, kind: StatBit, e: nat, opt: DelOpt)
    requires Inv(s) && e < |s.events| && kind != MUTEX
    ensures Unsuspending(s, Delete(s, kind, e, opt).s)
  {
    DeleteAnswer(s, kind, e, opt);
    if Delete(s, kind, e, opt).err == ErrNone && s.events[e].wait != {} {
      WakesSuspends(s, Delete(s, kind, e, opt).s, kind, e, 0, PendAbort, true);
    }
  }

  lemma EventCallSuspends(s: State, c: EventCall)
    requires Inv(s) && LegalEvent(s, c)
    ensures Unsuspending(s, EventStepOf(s, c).s)
  {
    match c
    case CreateEvent(b) => CreateAnswer(s, b);
    case DeleteEvent(kind, e, del) => DeleteSuspends(s, kind, e, del);
    case PendOn(kind, e, timeout) => PendSuspends(s, kind, e, timeout);
    case FinishPend => FinishSuspends(s);
    case PostTo(kind, e, msg, opt) => PostSuspends(s, kind, e, msg, opt);
    case AcceptFrom(kind, e) => AcceptAnswer(s, kind, e);
    case AbortAll(kind, e, all) => AbortSuspends(s, kind, e, all);
    case SetSem(e, cnt) => SetAnswer(s, e, cnt);
    case FlushQ(e) => FlushAnswer(s, e);
  }

  lemma OwnerWaitSuspends(s: State, s': State, e: nat, timeout: nat)
    requires Shape(s) && s.cur < |s.tcbs| && e < |s.events| && s.events[e].body.Mutex? && s.events[e].body.owner.Some?
    requires s.events[e].body.owner.value < |s.tcbs| && WaitsForOwner(s, s', e, timeout)
    ensures Unsuspending(s, s')
  {
  }

  lemma LockSuspends(s: State, e: nat, timeout: nat)
    requires Inv(s) && MayBlock(s) && e < |s.events|
    ensures Unsuspending(s, MutexPend(s, e, timeout).s)
  {
    LockAnswer(s, e, timeout);
    var r := MutexPend(s, e, timeout);
    if r.err == ErrBlocked {
      OwnerWaitSuspends(s, r.s, e, timeout);
    }
  }

  lemma PassSuspends(s: State, s': State, e: nat, w: Option<nat>)
    requires Shape(s) && s.cur < |s.tcbs| && e < |s.events| && s.events[e].body.Mutex? && Passes(s, s', e, w)
    ensures Unsuspending(s, s')
  {
  }

  lemma UnlockSuspends(s: State, e: nat)
    requires Inv(s) && e < |s.events| && s.running
    ensures Unsuspending(s, MutexPost(s, e).s)
  {
    UnlockAnswer(s, e);
    var s' := MutexPost(s, e).s;
    if s.nesting == 0 && OwnedByCurrent(s, e) {
      if s.events[e].wait == {} {
        PassSuspends(s, s', e, None);
      } else {
        var t: nat :| Picks(s, e, false, t) && Passes(s, s', e, Some(t));
        PassSuspends(s, s', e, Some(t));
      }
    }
  }

  lemma MutexCallSuspends(s: State, c: MutexCall)
    requires Inv(s) && LegalMutex(s, c)
    ensures Unsuspending(s, MutexStepOf(s, c).s)
  {
    match c
    case CreateMutex(pcp) => CreateMutexAnswer(s, pcp);
    case DeleteMutex(e, del) => DeleteMutexAnswer(s, e, del);
    case LockMutex(e, timeout) => LockSuspends(s, e, timeout);
    case UnlockMutex(e) => UnlockSuspends(s, e);
    case TryMutex(e) => TryAnswer(s, e);
  }

  // A suspension of the task sets the bit, a resumption clears it, and no other call touches it.
  lemma StepSuspension(s: State, op: Op, t: nat)
    requires Legal(s, op) && t in s.live && t in Step(s, op).s.live
    ensures Suspended(Step(s, op).s, t) <==> SuspendsTask(s, op, t) || (Suspended(s, t) && !ResumesTask(s, op, t))
  {
    match op
    case OfSched(c) => SchedCallSuspends(s, c);
    case OfTask(c) =>
      match c {
        case Suspend(prio) => SuspendSuspends(s, prio, t);
        case Resume(prio) => ResumeResumes(s, prio, t);
        case _ => OtherTaskCallSuspends(s, c);
      }
    case OfEvent(c) => EventCallSuspends(s, c);
    case OfMutex(c) => MutexCallSuspends(s, c);
  }

  // Of the suspensions and resumptions of task `t` in the run, the last one was a suspension; or there was none, and the
  // task was suspended before.
  ghost predicate LastSuspended(s: State, ops: seq<Op>, t: nat, before: bool)
    requires LegalRun(s, ops)
    decreases |ops|
  {
    if ops == [] then before
    else LastSuspended(Step(s, ops[0]).s, ops[1..], t, SuspendsTask(s, ops[0], t) || (before && !ResumesTask(s, ops[0], t)))
  }

  // A task is suspended if and only if the last call that suspended or resumed it was a suspension; and then it is not
  // ready, whatever else has been done to it.
  lemma {:induction false} SuspensionHistory(s: State, ops: seq<Op>, t: nat)
    requires LegalRun(s, ops) && StaysAlive(s, ops, t)
    ensures Suspended(Final(s, ops), t) <==> LastSuspended(s, ops, t, Suspended(s, t))
    ensures Suspended(Final(s, ops), t) ==> Final(s, ops).tcbs[t].prio !in Final(s, ops).rdy
    decreases |ops|
  {
    if ops == [] {
      assert t in s.live && TaskOk(s, t);
    } else {
      StepSuspension(s, ops[0], t);
      SuspensionHistory(Step(s, ops[0]).s, ops[1..], t);
    }
  }

  // No call of the run resumes task `t`.
  ghost predicate NotResumed(s: State, ops: seq<Op>, t: nat)
    requires LegalRun(s, ops)
    decreases |ops|
  {
    ops != [] ==> !ResumesTask(s, ops[0], t) && NotResumed(Step(s, ops[0]).s, ops[1..], t)
  }

  // A task that is suspended, by itself or by another, stays suspended and not ready until it is resumed or deleted.
  lemma SuspendedUntilResumed(s: State, prio: nat, t: nat, ops: seq<Op>)
    requires Legal(s, OfTask(Suspend(prio))) && SuspendsTask(s, OfTask(Suspend(prio)), t)
    requires var s1 := Step(s, OfTask(Suspend(prio))).s;
             LegalRun(s1, ops) && StaysAlive(s1, ops, t) && NotResumed(s1, ops, t)
    ensures var s1 := Step(s, OfTask(Suspend(prio))).s;
            && Step(s, OfTask(Suspend(prio))).err == ErrNone
            && Suspended(Final(s1, ops), t) && Final(s1, ops).tcbs[t].prio !in Final(s1, ops).rdy
  {
    SuspendAnswer(s, prio);
    assert SlotOk(s, if prio == PRIO_SELF then s.tcbs[s.cur].prio else prio);
    var s1 := Step(s, OfTask(Suspend(prio))).s;
    SuspensionHistory(s1, ops, t);
    StaysLastSuspended(s1, ops, t);
  }

  lemma {:induction false} StaysLastSuspended(s: State, ops: seq<Op>, t: nat)
    requires LegalRun(s, ops) && NotResumed(s, ops, t)
    ensures LastSuspended(s, ops, t, true)
    decreases |ops|
  {
    if ops != [] {
      StaysLastSuspended(Step(s, ops[0]).s, ops[1..], t);
    }
  }

  // ---------- a task's own priority ----------

  // While a task owns a mutex, the mutex remembers the task's own priority; otherwise the task runs at it.
  ghost function OwnPrio(s: State, t: nat): nat
    requires t < |s.tcbs|
  {
    match s.tcbs[t].owns
    case None => s.tcbs[t].prio
    case Some(e) => if e < |s.events| && s.events[e].body.Mutex? then s.events[e].body.low else s.tcbs[t].prio
  }

  ghost predicate OwnPrioKept(s: State, s': State, t: nat) {
    t < |s.tcbs| && t < |s'.tcbs| && OwnPrio(s', t) == OwnPrio(s, t)
  }

  lemma FrameKeepsOwnPrio(s: State, s': State, t: nat)
    requires Inv(s) && Inv(s') && MutexFrame(s, s') && t in s.live && t in s'.live
    ensures OwnPrioKept(s, s', t)
  {
    assert TaskOk(s, t) && TaskOk(s', t);
    if s'.tcbs[t].owns.Some? {
      assert EventOk(s, s'.tcbs[t].owns.value);
    }
    if s.tcbs[t].owns.Some? {
      assert EventOk(s', s.tcbs[t].owns.value);
    }
  }

  // The call changes the priority of task `t` to the one it names.
  ghost predicate ChangesPrio(s: State, op: Op, r: Reply, t: nat)
    requires Legal(s, op)
  {
    match op
    case OfTask(Change(oldPrio, _)) =>
      r.err == ErrNone && s.prioTbl[if oldPrio == 255 then s.tcbs[s.cur].prio else oldPrio] == Task(t)
    case _ => false
  }

  ghost function OwnPrioAfter(s: State, op: Op, r: Reply, t: nat): nat
    requires Legal(s, op) && t < |s.tcbs|
  {
    if ChangesPrio(s, op, r, t) then op.task.newPrio else OwnPrio(s, t)
  }

  lemma MovedOwnPrio(s: State, s': State, c: nat, p: nat, p1: nat, t: nat)
    requires p < |s.prioTbl| && p1 < |s.prioTbl| && c < |s.tcbs| && t < |s.tcbs| && Moved(s, s', c, p, p1)
    requires s.tcbs[c].owns == None
    ensures t < |s'.tcbs| && OwnPrio(s', t) == if t == c then p1 else OwnPrio(s, t)
  {
  }

  lemma ChangeOwnPrio(s: State, oldPrio: nat, newPrio: nat, t: nat)
    requires Legal(s, OfTask(Change(oldPrio, newPrio))) && t in s.live
    ensures var r := ChangePrio(s, oldPrio, newPrio);
            t < |s.tcbs| && t < |r.s.tcbs| && OwnPrio(r.s, t) == OwnPrioAfter(s, OfTask(Change(oldPrio, newPrio)), r, t)
  {
    ChangeAnswer(s, oldPrio, newPrio);
    var p, r := Named(s, oldPrio), ChangePrio(s, oldPrio, newPrio);
    if r.err == ErrNone {
      MovedOwnPrio(s, r.s, s.prioTbl[p].t, p, newPrio, t);
    }
  }

  lemma AcquiredOwnPrio(s: State, s': State, e: nat, t: nat)
    requires Inv(s) && s.cur in s.live && e < |s.events| && s.events[e].body.Mutex? && s.events[e].body.owner == None
    requires s.tcbs[s.cur].owns == None && Acquires(s, s', e) && t in s.live
    ensures OwnPrioKept(s, s', t)
  {
    assert TaskOk(s, t);
  }

  lemma WaitingOwnPrio(s: State, s': State, e: nat, timeout: nat, t: nat)
    requires Inv(s) && s.cur < |s.tcbs| && e < |s.events| && s.events[e].body.Mutex? && s.events[e].body.owner.Some?
    requires s.events[e].body.owner.value < |s.tcbs| && WaitsForOwner(s, s', e, timeout) && t in s.live
    ensures OwnPrioKept(s, s', t)
  {
    assert EventOk(s, e);
  }

  lemma PassedOwnPrio(s: State, s': State, e: nat, w: Option<nat>, t: nat)
    requires Inv(s) && OwnedByCurrent(s, e) && Passes(s, s', e, w) && t in s.live
    requires w.Some? ==> w.value in s.live && s.tcbs[w.value].owns == None
    ensures OwnPrioKept(s, s', t)
  {
    assert EventOk(s, e) && TaskOk(s, t);
  }

  lemma LockOwnPrio(s: State, e: nat, timeout: nat, t: nat)
    requires Legal(s, OfMutex(LockMutex(e, timeout))) && t in s.live
    ensures OwnPrioKept(s, MutexPend(s, e, timeout).s, t)
  {
    LockAnswer(s, e, timeout);
    var r := MutexPend(s, e, timeout);
    if r.err == ErrBlocked {
      WaitingOwnPrio(s, r.s, e, timeout, t);
    } else if r.s != s {
      AcquiredOwnPrio(s, r.s, e, t);
    }
  }

  lemma TryOwnPrio(s: State, e: nat, t: nat)
    requires Legal(s, OfMutex(TryMutex(e))) && t in s.live
    ensures OwnPrioKept(s, MutexAccept(s, e).s, t)
  {
    TryAnswer(s, e);
    var r := MutexAccept(s, e);
    if r.s != s {
      AcquiredOwnPrio(s, r.s, e, t);
    }
  }

  lemma UnlockOwnPrio(s: State, e: nat, t: nat)
    requires Legal(s, OfMutex(UnlockMutex(e))) && t in s.live
    ensures OwnPrioKept(s, MutexPost(s, e).s, t)
  {
    UnlockAnswer(s, e);
    var s' := MutexPost(s, e).s;
    if s.nesting == 0 && OwnedByCurrent(s, e) {
      if s.events[e].wait == {} {
        PassedOwnPrio(s, s', e, None, t);
      } else {
        var w: nat :| Picks(s, e, false, w) && Passes(s, s', e, Some(w));
        assert TaskOk(s, w);
        PassedOwnPrio(s, s', e, Some(w), t);
      }
    }
  }

  lemma MutexCallOwnPrio(s: State, c: MutexCall, t: nat)
    requires Legal(s, OfMutex(c)) && t in s.live
    ensures OwnPrioKept(s, MutexStepOf(s, c).s, t)
  {
    match c
    case CreateMutex(pcp) => CreateMutexOwnPrio(s, pcp, t);
    case DeleteMutex(e, del) => DeleteMutexOwnPrio(s, e, del, t);
    case LockMutex(e, timeout) => LockOwnPrio(s, e, timeout, t);
    case UnlockMutex(e) => UnlockOwnPrio(s, e, t);
    case TryMutex(e) => TryOwnPrio(s, e, t);
  }

  lemma CreateMutexOwnPrio(s: State, pcp: nat, t: nat)
    requires Inv(s) && (pcp == CEIL_DIS || pcp < PRIOS) && t in s.live
    ensures s.evFree != [] ==> s.evFree[0] < |s.events|
    ensures OwnPrioKept(s, MutexCreate(s, pcp).s, t)
  {
    CreateMutexAnswer(s, pcp);
    assert TaskOk(s, t);
    assert s.evFree != [] ==> s.evFree[0] in s.evFree;
  }

  lemma DeleteMutexOwnPrio(s: State, e: nat, del: DelOpt, t: nat)
    requires Inv(s) && LegalMutex(s, DeleteMutex(e, del)) && t in s.live
    ensures s.events[e].body.Mutex? && s.events[e].body.pcp != CEIL_DIS ==> s.events[e].body.pcp < |s.prioTbl|
    ensures OwnPrioKept(s, MutexDelete(s, e, del).s, t)
  {
    DeleteMutexAnswer(s, e, del);
    assert TaskOk(s, t);
  }

  // A task's own priority changes with a change of priority that names it, and with nothing else.
  lemma StepOwnPrio(s: State, op: Op, t: nat)
    requires Legal(s, op) && t in s.live && t in Step(s, op).s.live
    ensures t < |s.tcbs| && t < |Step(s, op).s.tcbs| && OwnPrio(Step(s, op).s, t) == OwnPrioAfter(s, op, Step(s, op), t)
  {
    var s' := Step(s, op).s;
    StepKeeps(s, op);
    match op
    case OfSched(c) =>
      SchedStepFrame(s, c);
      FrameKeepsOwnPrio(s, s', t);
    case OfTask(c) =>
      if c.Change? {
        ChangeOwnPrio(s, c.oldPrio, c.newPrio, t);
      } else {
        TaskStepFrame(s, c);
        FrameKeepsOwnPrio(s, s', t);
      }
    case OfEvent(c) =>
      EventStepFrame(s, c);
      FrameKeepsOwnPrio(s, s', t);
    case OfMutex(c) => MutexCallOwnPrio(s, c, t);
  }

  // The priority that the last change of priority in the run gave to task `t`, or the one before if there was none.
  ghost function LastPrio(s: State, ops: seq<Op>, t: nat, before: nat): nat
    requires LegalRun(s, ops)
    decreases |ops|
  {
    if ops == [] then before
    else
      var r := Step(s, ops[0]);
      LastPrio(r.s, ops[1..], t, if ChangesPrio(s, ops[0], r, t) then ops[0].task.newPrio else before)
  }

  // Whatever mutexes a task takes, is raised by and posts in a run, its own priority is the one it was last given; and
  // whenever it owns no mutex it runs at that priority.
  lemma {:induction false} OwnPriorityHistory(s: State, ops: seq<Op>, t: nat)
    requires LegalRun(s, ops) && StaysAlive(s, ops, t)
    ensures t < |s.tcbs| && t < |Final(s, ops).tcbs|
    ensures OwnPrio(Final(s, ops), t) == LastPrio(s, ops, t, OwnPrio(s, t))
    ensures Final(s, ops).tcbs[t].owns == None ==> Final(s, ops).tcbs[t].prio == LastPrio(s, ops, t, OwnPrio(s, t))
    decreases |ops|
  {
    assert t in s.live;
    if ops != [] {
      StepOwnPrio(s, ops[0], t);
      OwnPriorityHistory(Step(s, ops[0]).s, ops[1..], t);
    }
  }
}
