/** A delay of n ticks, or a pend with a timeout of n ticks that nobody serves, ends on the n-th tick: no sooner, and no
    later unless the task is suspended at that moment. */
module Delays {
  import opened PrioSets
  import opened KernelState
  import opened Primitives
  import opened EventServices
  import opened MutexServices
  import opened TaskServices
  import opened Runs
  import opened Effects
  import opened Ceiling
  import opened PendPhases
  import opened EventAnswers
  import opened MutexAnswers
  import opened DelayTime

  // Task `t` has `d` ticks left, of a delay or of the timeout of a pend.
  ghost predicate Counting(s: State, t: nat, d: nat) {
    s.running && t in s.live && t < |s.tcbs| && d > 0 && s.tcbs[t].dly == d
  }

  // Task `t` has called the delay service.
  ghost predicate Asleep(s: State, t: nat, d: nat) {
    Counting(s, t, d) && s.tcbs[t].event == None && s.tcbs[t].cont == Running
  }

  // The step ends the wait of task `t`.
  ghost predicate Serves(s: State, op: Op, t: nat) {
    match op
    case OfEvent(PostTo(kind, e, _, opt)) => Reaches(s, kind, e, opt.broadcast, t)
    case OfEvent(AbortAll(kind, e, all)) => Reaches(s, kind, e, all, t)
    case OfEvent(DeleteEvent(kind, e, del)) => del == Always && s.nesting == 0 && Reaches(s, kind, e, true, t)
    case OfMutex(UnlockMutex(e)) => s.nesting == 0 && OwnedByCurrent(s, e) && Reaches(s, MUTEX, e, false, t)
    case _ => false
  }

  // A step does not touch the delay of task `t`.
  ghost predicate DelayFrame(s: State, s': State, t: nat) {
    && s'.running == s.running && t < |s.tcbs| && t < |s'.tcbs|
    && s'.tcbs[t].dly == s.tcbs[t].dly && s'.tcbs[t].event == s.tcbs[t].event && s'.tcbs[t].cont == s.tcbs[t].cont
  }

  lemma SleeperDoesNotRun(s: State, t: nat, d: nat)
    requires Inv(s) && Counting(s, t, d)
    ensures s.tcbs[t].prio !in s.rdy && (s.nesting == 0 ==> s.cur != t)
  {
    assert TaskOk(s, t);
  }

  lemma SchedStepDelay(s: State, op: SchedCall, t: nat, d: nat)
    requires Inv(s) && Counting(s, t, d) && op != TickCall
    ensures DelayFrame(s, SchedStep(s, op), t)
  {
  }

  // ---------- task calls ----------

  lemma TaskStepDelay(s: State, op: TaskCall, t: nat, d: nat)
    requires Inv(s) && LegalTask(s, op) && Counting(s, t, d)
    requires t in TaskStepOf(s, op).s.live
    ensures DelayFrame(s, TaskStepOf(s, op).s, t)
  {
    SleeperDoesNotRun(s, t, d);
    match op
    case CreateTask(prio) => CreateDelay(s, prio, t);
    case DeleteTask(prio) => DeleteDelay(s, prio, t);
    case Suspend(prio) => SuspendDelay(s, prio, t);
    case Resume(prio) => ResumeDelay(s, prio, t);
    case Change(oldPrio, newPrio) => ChangeDelay(s, oldPrio, newPrio, t);
    case Delay(ticks) => TimeDlyEffect(s, ticks);
  }

  lemma SuspendDelay(s: State, prio: nat, t: nat)
    requires Inv(s) && MaySuspend(s, prio) && t in s.live
    ensures DelayFrame(s, TaskSuspend(s, prio).s, t)
  {
    TaskSuspendEffect(s, prio);
  }

  lemma ResumeDelay(s: State, prio: nat, t: nat)
    requires Inv(s) && prio < PRIOS && t in s.live
    ensures DelayFrame(s, TaskResume(s, prio).s, t)
  {
    TaskResumeEffect(s, prio);
  }

  lemma CreateDelay(s: State, prio: nat, t: nat)
    requires Inv(s) && prio < PRIOS && t in s.live
    ensures DelayFrame(s, TaskCreate(s, prio).s, t)
  {
    TaskCreateEffect(s, prio);
  }

  lemma DeleteDelay(s: State, prio: nat, t: nat)
    requires Inv(s) && MayDelete(s, prio) && t in s.live && t in TaskDel(s, prio).s.live
    ensures DelayFrame(s, TaskDel(s, prio).s, t)
  {
    TaskDelEffect(s, prio);
  }

  lemma ChangeDelay(s: State, oldPrio: nat, newPrio: nat, t: nat)
    requires Inv(s) && MayChange(s, oldPrio, newPrio) && t in s.live
    ensures DelayFrame(s, ChangePrio(s, oldPrio, newPrio).s, t)
  {
    ChangePrioEffect(s, oldPrio, newPrio);
  }

  // ---------- event calls ----------

  lemma WakeDelay(s: State, kind: StatBit, e: nat, msg: nat, pend: PendStat, all: bool, t: nat)
    requires Core(s) && e < |s.events| && s.events[e].wait != {} && IsKind(s.events[e].body, kind) && pend != PendTimeout
    requires t in s.live && !Reaches(s, kind, e, all, t)
    ensures DelayFrame(s, WakeSome(s, kind, e, msg, pend, all), t)
  {
    WakeKeeps(s, e, msg, kind, pend);
    WaiterExists(s, e);
    if all {
      WakeAllKeeps(s, e, msg, kind, pend);
      WakeAllIsSimultaneous(s, e, msg, kind, pend);
    }
  }

  lemma DissolveDelay(s: State, kind: StatBit, e: nat, t: nat)
    requires Core(s) && e < |s.events| && IsKind(s.events[e].body, kind) && t in s.live && !WaitsFor(s, t, e)
    ensures DelayFrame(s, Dissolve(s, kind, e), t)
  {
    WakeAllKeeps(s, e, 0, kind, PendAbort);
    WakeAllIsSimultaneous(s, e, 0, kind, PendAbort);
  }

  lemma PostDelay(s: State, kind: StatBit, e: nat, msg: nat, opt: PostOpt, t: nat)
    requires Inv(s) && e < |s.events| && MayPost(kind, msg, opt) && t in s.live
    requires !Reaches(s, kind, e, opt.broadcast, t)
    ensures DelayFrame(s, Post(s, kind, e, msg, opt).s, t)
  {
    PostEffect(s, kind, e, msg, opt);
    if IsKind(s.events[e].body, kind) && s.events[e].wait != {} {
      WakeDelay(s, kind, e, msg, PendOk, opt.broadcast, t);
    }
  }

  lemma AbortDelay(s: State, kind: StatBit, e: nat, all: bool, t: nat)
    requires Inv(s) && e < |s.events| && kind != MUTEX && t in s.live && !Reaches(s, kind, e, all, t)
    ensures DelayFrame(s, Abort(s, kind, e, all).s, t)
  {
    AbortEffect(s, kind, e, all);
    if IsKind(s.events[e].body, kind) && s.events[e].wait != {} {
      WakeDelay(s, kind, e, 0, PendAbort, all, t);
    }
  }

  lemma DeleteEventDelay(s: State, kind: StatBit, e: nat, del: DelOpt, t: nat)
    requires Inv(s) && e < |s.events| && kind != MUTEX && t in s.live
    requires !(del == Always && s.nesting == 0 && Reaches(s, kind, e, true, t))
    ensures DelayFrame(s, Delete(s, kind, e, del).s, t)
  {
    DeleteEffect(s, kind, e, del);
    if Delete(s, kind, e, del).err == ErrNone && del == Always {
      DissolveDelay(s, kind, e, t);
    }
  }

  lemma PendDelay(s: State, kind: StatBit, e: nat, timeout: nat, t: nat)
    requires Inv(s) && MayBlock(s) && e < |s.events| && kind != MUTEX && t in s.live && (s.nesting == 0 ==> s.cur != t)
    ensures DelayFrame(s, Pend(s, kind, e, timeout).s, t)
  {
    PendEffect(s, kind, e, timeout);
  }

  lemma EventStepDelay(s: State, op: EventCall, t: nat, d: nat)
    requires Inv(s) && LegalEvent(s, op) && Counting(s, t, d) && !Serves(s, OfEvent(op), t)
    ensures DelayFrame(s, EventStepOf(s, op).s, t)
  {
    SleeperDoesNotRun(s, t, d);
    match op
    case CreateEvent(b) => CreateKeeps(s, b);
    case DeleteEvent(kind, e, del) => DeleteEventDelay(s, kind, e, del, t);
    case PendOn(kind, e, timeout) => PendDelay(s, kind, e, timeout, t);
    case FinishPend =>
    case PostTo(kind, e, msg, opt) => PostDelay(s, kind, e, msg, opt, t);
    case AcceptFrom(kind, e) =>
    case AbortAll(kind, e, all) => AbortDelay(s, kind, e, all, t);
    case SetSem(e, cnt) =>
    case FlushQ(e) =>
  }

  // ---------- mutex calls ----------

  lemma RaiseDelay(s: State, e: nat, t: nat)
    requires Core(s) && t in s.live
    ensures DelayFrame(s, MaybeRaise(s, e), t)
  {
    if NeedsRaise(s, e) {
      RaiseKeeps(s, e);
    }
  }

  lemma LockDelay(s: State, e: nat, timeout: nat, t: nat)
    requires Inv(s) && MayBlock(s) && e < |s.events| && t in s.live && (s.nesting == 0 ==> s.cur != t)
    ensures DelayFrame(s, MutexPend(s, e, timeout).s, t)
  {
    MutexPendEffect(s, e, timeout);
    RaiseDelay(s, e, t);
  }

  lemma HandOverDelay(s: State, e: nat, t: nat)
    requires Core(s) && e < |s.events| && s.events[e].body.Mutex? && s.events[e].wait != {}
    requires t in s.live && !Reaches(s, MUTEX, e, false, t)
    ensures DelayFrame(s, HandOver(s, e), t)
  {
    WakeKeeps(s, e, 0, MUTEX, PendOk);
    WaiterExists(s, e);
  }

  lemma UnlockDelay(s: State, e: nat, t: nat)
    requires Inv(s) && e < |s.events| && s.running && t in s.live
    requires !(s.nesting == 0 && OwnedByCurrent(s, e) && Reaches(s, MUTEX, e, false, t))
    ensures DelayFrame(s, MutexPost(s, e).s, t)
  {
    MutexPostEffect(s, e);
    if s.nesting == 0 && OwnedByCurrent(s, e) {
      UnraiseKeeps(s, e);
      if s.events[e].wait != {} {
        StillOutOfReach(s, e, t);
        HandOverDelay(Unraise(s, e), e, t);
      }
    }
  }

  lemma StillOutOfReach(s: State, e: nat, t: nat)
    requires Inv(s) && OwnedByCurrent(s, e) && s.nesting == 0 && s.events[e].wait != {} && t in s.live
    requires !Reaches(s, MUTEX, e, false, t)
    ensures Inv(Unraise(s, e)) && t in Unraise(s, e).live && !Reaches(Unraise(s, e), MUTEX, e, false, t)
    ensures DelayFrame(s, Unraise(s, e), t)
  {
    UnraiseKeeps(s, e);
    WaiterExists(s, e);
    WaiterExists(Unraise(s, e), e);
    SameWaiter(s, e);
  }

  lemma MutexStepDelay(s: State, op: MutexCall, t: nat, d: nat)
    requires Inv(s) && LegalMutex(s, op) && Counting(s, t, d) && !Serves(s, OfMutex(op), t)
    ensures DelayFrame(s, MutexStepOf(s, op).s, t)
  {
    SleeperDoesNotRun(s, t, d);
    match op
    case CreateMutex(pcp) => MutexCreateKeeps(s, pcp);
    case DeleteMutex(e, del) =>
    case LockMutex(e, timeout) => LockDelay(s, e, timeout, t);
    case UnlockMutex(e) => UnlockDelay(s, e, t);
    case TryMutex(e) =>
  }

  // ---------- the law ----------

  // The last tick is over: a delay leaves nothing behind, and a pend has timed out.
  ghost predicate TimeIsUp(k: Tcb, k': Tcb) {
    && k'.dly == 0 && k'.event == k.event
    && match k.event
       case None => k'.cont == k.cont
       case Some(e) => PhaseOf(k') == Expired(e)
  }

  // Only the tick counts down, and it counts by one.
  lemma StepDelay(s: State, op: Op, t: nat, d: nat)
    requires Legal(s, op) && Counting(s, t, d) && !Serves(s, op, t) && t in Step(s, op).s.live
    ensures t < |Step(s, op).s.tcbs|
    ensures var s' := Step(s, op).s;
            if op != OfSched(TickCall) then Counting(s', t, d) && DelayFrame(s, s', t)
            else if d > 1 then
              Counting(s', t, d - 1) && s'.tcbs[t].event == s.tcbs[t].event && s'.tcbs[t].cont == s.tcbs[t].cont
            else
              TimeIsUp(s.tcbs[t], s'.tcbs[t]) && (s'.tcbs[t].prio in s'.rdy <==> SUSPEND !in s.tcbs[t].stat)
  {
    match op
    case OfSched(c) =>
      if c == TickCall {
        TickDelay(s, t, d);
      } else {
        SchedStepDelay(s, c, t, d);
      }
    case OfTask(c) => TaskStepDelay(s, c, t, d);
    case OfEvent(c) => EventStepDelay(s, c, t, d);
    case OfMutex(c) => MutexStepDelay(s, c, t, d);
  }

  lemma TickDelay(s: State, t: nat, d: nat)
    requires Inv(s) && Counting(s, t, d)
    ensures t < |Tick(s).tcbs|
    ensures var s' := Tick(s);
            if d > 1 then
              Counting(s', t, d - 1) && s'.tcbs[t].event == s.tcbs[t].event && s'.tcbs[t].cont == s.tcbs[t].cont
            else
              TimeIsUp(s.tcbs[t], s'.tcbs[t]) && (s'.tcbs[t].prio in s'.rdy <==> SUSPEND !in s.tcbs[t].stat)
  {
    IdleIsReady(s, t);
    TickedTask(s, t);
    assert TaskOk(s, t);
    OnlySuspendLeft(s.tcbs[t].stat);
  }

  function TickCount(ops: seq<Op>): nat {
    if ops == [] then 0 else (if ops[0] == OfSched(TickCall) then 1 else 0) + TickCount(ops[1..])
  }

  // Task `t` survives the run, and nobody ends its wait in it.
  ghost predicate LeftAlone(s: State, ops: seq<Op>, t: nat)
    requires LegalRun(s, ops)
    decreases |ops|
  {
    t in s.live && (ops != [] ==> !Serves(s, ops[0], t) && LeftAlone(Step(s, ops[0]).s, ops[1..], t))
  }

  // Before the n-th tick the count goes on, whatever else happens; and the task is not ready.
  lemma {:induction false} CountsUntilThen(s: State, ops: seq<Op>, t: nat, n: nat)
    requires LegalRun(s, ops) && LeftAlone(s, ops, t) && Counting(s, t, n) && TickCount(ops) < n
    ensures Counting(Final(s, ops), t, n - TickCount(ops)) && Final(s, ops).tcbs[t].event == s.tcbs[t].event
    ensures Final(s, ops).tcbs[t].prio !in Final(s, ops).rdy
    decreases |ops|
  {
    if ops == [] {
      SleeperDoesNotRun(s, t, n);
    } else {
      StepDelay(s, ops[0], t, n);
      CountsUntilThen(Step(s, ops[0]).s, ops[1..], t, if ops[0] == OfSched(TickCall) then n - 1 else n);
    }
  }

  // The tick after n - 1 ticks ends it: the task is ready, unless it is suspended at that moment.
  lemma CountIsExact(s: State, ops: seq<Op>, t: nat, n: nat)
    requires LegalRun(s, ops) && LeftAlone(s, ops, t) && Counting(s, t, n) && TickCount(ops) < n
    ensures var s2 := Final(s, ops);
            && Counting(s2, t, n - TickCount(ops)) && s2.tcbs[t].event == s.tcbs[t].event && s2.tcbs[t].prio !in s2.rdy
            && t < |Tick(s2).tcbs|
            && (TickCount(ops) == n - 1 ==>
                  && TimeIsUp(s2.tcbs[t], Tick(s2).tcbs[t])
                  && (Tick(s2).tcbs[t].prio in Tick(s2).rdy <==> SUSPEND !in s2.tcbs[t].stat))
  {
    CountsUntilThen(s, ops, t, n);
    ReachableKeeps(s, ops);
    TickDelay(Final(s, ops), t, n - TickCount(ops));
  }

  // ---------- the delay service ----------

  ghost predicate StaysAlive(s: State, ops: seq<Op>, t: nat)
    requires LegalRun(s, ops)
    decreases |ops|
  {
    t in s.live && (ops != [] ==> StaysAlive(Step(s, ops[0]).s, ops[1..], t))
  }

  // Nobody can end a delay.
  lemma {:induction false} SleeperIsLeftAlone(s: State, ops: seq<Op>, t: nat, n: nat)
    requires LegalRun(s, ops) && StaysAlive(s, ops, t) && Asleep(s, t, n) && TickCount(ops) < n
    ensures LeftAlone(s, ops, t)
    decreases |ops|
  {
    if ops != [] {
      StepDelay(s, ops[0], t, n);
      SleeperIsLeftAlone(Step(s, ops[0]).s, ops[1..], t, if ops[0] == OfSched(TickCall) then n - 1 else n);
    }
  }

  // The caller of the delay service, then any run with fewer than n ticks: not ready. One more tick after n - 1:
  // ready, unless suspended at that moment.
  lemma DelayIsExact(s: State, ticks: nat, ops: seq<Op>)
    requires Legal(s, OfTask(Delay(ticks))) && ticks > 0 && s.nesting == 0 && s.lock == 0
    requires var s1 := Step(s, OfTask(Delay(ticks))).s;
             LegalRun(s1, ops) && StaysAlive(s1, ops, s.cur) && TickCount(ops) < ticks
    ensures var t, s2 := s.cur, Final(Step(s, OfTask(Delay(ticks))).s, ops);
            && Counting(s2, t, ticks - TickCount(ops)) && s2.tcbs[t].prio !in s2.rdy
            && (TickCount(ops) == ticks - 1 ==>
                  && t < |Tick(s2).tcbs|
                  && (Tick(s2).tcbs[t].prio in Tick(s2).rdy <==> SUSPEND !in s2.tcbs[t].stat))
  {
    var s1 := Step(s, OfTask(Delay(ticks))).s;
    DelayStarts(s, ticks);
    SleeperIsLeftAlone(s1, ops, s.cur, ticks);
    CountIsExact(s1, ops, s.cur, ticks);
  }

  // The delay in hours, minutes, seconds and milliseconds, at the configured rate of a tick every five milliseconds: as long
  // as the ticks that have come are more than two milliseconds short of the requested time, its caller is not ready; and
  // the tick that makes it ready, unless it is suspended then, comes within two milliseconds of that time.
  lemma RequestedTimeIsKept(s: State, hours: nat, minutes: nat, seconds: nat, ms: nat, ops: seq<Op>)
    requires hours < 256 && minutes < 256 && seconds < 256 && ms < 65536 && s.nesting == 0 && s.lock == 0
    requires var delay := OfTask(Delay(DelayTicks(TICKS_PER_SEC, hours, minutes, seconds, ms)));
             Legal(s, delay) && LegalRun(Step(s, delay).s, ops) && StaysAlive(Step(s, delay).s, ops, s.cur)
    ensures var time, n := Milliseconds(hours, minutes, seconds, ms), DelayTicks(TICKS_PER_SEC, hours, minutes, seconds, ms);
            var t, s2 := s.cur, Final(Step(s, OfTask(Delay(n))).s, ops);
            && (5 * TickCount(ops) + 2 < time ==> t < |s2.tcbs| && s2.tcbs[t].prio !in s2.rdy && TickCount(ops) < n)
            && (TickCount(ops) + 1 == n ==>
                  && NearestTick(TickCount(ops) + 1, time)
                  && t < |Tick(s2).tcbs| && (Tick(s2).tcbs[t].prio in Tick(s2).rdy <==> SUSPEND !in s2.tcbs[t].stat))
  {
    var n := DelayTicks(TICKS_PER_SEC, hours, minutes, seconds, ms);
    ConfiguredDelay(hours, minutes, seconds, ms);
    if TickCount(ops) < n {
      DelayIsExact(s, n, ops);
    }
  }

  lemma DelayStarts(s: State, ticks: nat)
    requires Inv(s) && MaySleep(s) && ticks > 0 && s.nesting == 0 && s.lock == 0
    ensures Asleep(TimeDly(s, ticks), s.cur, ticks)
  {
    assert TaskOk(s, s.cur);
    TimeDlyEffect(s, ticks);
  }

  // ---------- the timeout of a pend ----------

  function TimeoutOf(op: Op): nat {
    match op
    case OfEvent(PendOn(_, _, timeout)) => timeout
    case OfMutex(LockMutex(_, timeout)) => timeout
    case _ => 0
  }

  lemma EventPendStarts(s: State, kind: StatBit, e: nat, timeout: nat)
    requires Inv(s) && MayBlock(s) && e < |s.events| && kind != MUTEX && Pend(s, kind, e, timeout).err == ErrBlocked
    ensures var s1 := Pend(s, kind, e, timeout).s;
            s1.running && s.cur in s1.live && s.cur < |s1.tcbs| && s1.tcbs[s.cur].dly == timeout && s1.tcbs[s.cur].event == Some(e)
  {
    PendAnswer(s, kind, e, timeout);
  }

  lemma MutexPendStarts(s: State, e: nat, timeout: nat)
    requires Inv(s) && MayBlock(s) && e < |s.events| && MutexPend(s, e, timeout).err == ErrBlocked
    ensures var s1 := MutexPend(s, e, timeout).s;
            s1.running && s.cur in s1.live && s.cur < |s1.tcbs| && s1.tcbs[s.cur].dly == timeout && s1.tcbs[s.cur].event == Some(e)
  {
    LockAnswer(s, e, timeout);
  }

  lemma PendStarts(s: State, op: Op, e: nat)
    requires Legal(s, op) && PendsOn(op, e) && Step(s, op).err == ErrBlocked && TimeoutOf(op) > 0
    ensures var s1 := Step(s, op).s; Counting(s1, s.cur, TimeoutOf(op)) && s1.tcbs[s.cur].event == Some(e)
  {
    match op
    case OfEvent(PendOn(kind, f, timeout)) => EventPendStarts(s, kind, f, timeout);
    case OfMutex(LockMutex(f, timeout)) => MutexPendStarts(s, f, timeout);
  }

  // A pend that blocks with timeout n, then any run with fewer than n ticks in which nobody serves it: still waiting.
  // One more tick after n - 1: timed out, and ready unless suspended at that moment.
  lemma TimeoutIsExact(s: State, op: Op, e: nat, ops: seq<Op>)
    requires Legal(s, op) && PendsOn(op, e) && Step(s, op).err == ErrBlocked && TimeoutOf(op) > 0
    requires LegalRun(Step(s, op).s, ops) && LeftAlone(Step(s, op).s, ops, s.cur) && TickCount(ops) < TimeoutOf(op)
    ensures var t, s2 := s.cur, Final(Step(s, op).s, ops);
            && t < |s2.tcbs| && PhaseOf(s2.tcbs[t]) == Waiting(e) && s2.tcbs[t].prio !in s2.rdy
            && (TickCount(ops) == TimeoutOf(op) - 1 ==>
                  && t < |Tick(s2).tcbs| && PhaseOf(Tick(s2).tcbs[t]) == Expired(e)
                  && (Tick(s2).tcbs[t].prio in Tick(s2).rdy <==> SUSPEND !in s2.tcbs[t].stat))
  {
    PendStarts(s, op, e);
    CountIsExact(Step(s, op).s, ops, s.cur, TimeoutOf(op));
    CountingWaits(Step(s, op).s, ops, s.cur, e);
  }

  lemma CountingWaits(s: State, ops: seq<Op>, t: nat, e: nat)
    requires LegalRun(s, ops) && t in Final(s, ops).live && t < |Final(s, ops).tcbs|
    requires Final(s, ops).tcbs[t].event == Some(e) && Final(s, ops).tcbs[t].dly > 0
    ensures PhaseOf(Final(s, ops).tcbs[t]) == Waiting(e)
  {
    ReachableKeeps(s, ops);
    assert TaskOk(Final(s, ops), t);
  }
}
