/** What the priority ceiling buys: who may own a mutex when, and how far priority inversion can go. */
module Ceiling {
  import opened PrioSets
  import opened KernelState
  import opened Primitives
  import opened EventServices
  import opened MutexServices
  import opened TaskServices
  import opened Runs
  import opened Effects

  // ---------- steps that leave mutexes and priorities alone ----------

  // Mutexes keep owner, count and ceiling, their wait lists only shrink, and live tasks keep their priorities.
  ghost predicate MutexFrame(s: State, s': State) {
    && |s'.events| == |s.events|
    && (forall e :: 0 <= e < |s.events| && s.events[e].body.Mutex? ==>
          s'.events[e].body == s.events[e].body && s'.events[e].wait <= s.events[e].wait)
    && (forall e :: 0 <= e < |s.events| && s'.events[e].body.Mutex? ==> s.events[e].body.Mutex?)
    && (forall t :: t in s.live ==> t < |s.tcbs| && t < |s'.tcbs| && s'.tcbs[t].prio == s.tcbs[t].prio)
  }

  lemma FrameOfSame(s: State, s1: State, s2: State)
    requires MutexFrame(s, s1) && SameData(s1, s2)
    ensures MutexFrame(s, s2)
  {
  }

  lemma SchedStepFrame(s: State, op: SchedCall)
    requires Inv(s)
    ensures MutexFrame(s, SchedStep(s, op))
  {
  }

  lemma AdmitFrame(s: State, prio: nat)
    requires Shape(s) && s.tcbFree != [] && s.tcbFree[0] < |s.tcbs| && s.tcbFree[0] !in s.live && prio < PRIOS
    ensures MutexFrame(s, Admit(s, prio))
  {
  }

  lemma DismissFrame(s: State, t: nat)
    requires Shape(s) && t < |s.tcbs| && s.tcbs[t].prio < PRIOS
    requires s.tcbs[t].event.Some? ==> s.tcbs[t].event.value < |s.events|
    ensures MutexFrame(s, Dismiss(s, t))
  {
  }

  lemma OneTaskFrame(s: State, t: nat)
    requires Shape(s) && t in s.live
    ensures MutexFrame(s, Park(s, t)) && MutexFrame(s, Unpark(s, t))
  {
  }

  lemma SleepFrame(s: State, ticks: nat)
    requires Shape(s) && s.cur < |s.tcbs|
    ensures MutexFrame(s, Sleep(s, ticks))
  {
  }

  lemma TaskStepFrame(s: State, op: TaskCall)
    requires Inv(s) && LegalTask(s, op) && !op.Change?
    ensures MutexFrame(s, TaskStepOf(s, op).s)
  {
    match op
    case CreateTask(prio) =>
      TaskCreateEffect(s, prio);
      if TaskCreateError(s, prio) == ErrNone {
        AdmitFrame(s, prio);
        FrameOfSame(s, Admit(s, prio), TaskCreate(s, prio).s);
      }
    case DeleteTask(prio) =>
      TaskDelEffect(s, prio);
      if TaskDel(s, prio).err == ErrNone {
        DismissFrame(s, s.prioTbl[Named(s, prio)].t);
        FrameOfSame(s, Dismiss(s, s.prioTbl[Named(s, prio)].t), TaskDel(s, prio).s);
      }
    case Suspend(prio) =>
      TaskSuspendEffect(s, prio);
      if TaskSuspend(s, prio).err == ErrNone {
        OneTaskFrame(s, s.prioTbl[Named(s, prio)].t);
      }
    case Resume(prio) =>
      TaskResumeEffect(s, prio);
      if TaskResume(s, prio).err == ErrNone {
        OneTaskFrame(s, s.prioTbl[prio].t);
      }
    case Delay(ticks) =>
      TimeDlyEffect(s, ticks);
      SleepFrame(s, ticks);
  }

  lemma WakeFrame(s: State, e: nat, msg: nat, kind: StatBit, pend: PendStat)
    requires HasWaiter(s, e)
    ensures MutexFrame(s, Wake(s, e, msg, kind, pend))
  {
  }

  lemma AllWokenFrame(s: State, e: nat, msg: nat, kind: StatBit, pend: PendStat)
    requires Shape(s) && e < |s.events|
    ensures MutexFrame(s, AllWoken(s, e, msg, kind, pend))
  {
  }

  lemma WakeSomeFrame(s: State, kind: StatBit, e: nat, msg: nat, pend: PendStat, all: bool)
    requires Core(s) && e < |s.events| && s.events[e].wait != {} && IsKind(s.events[e].body, kind) && pend != PendTimeout
    ensures MutexFrame(s, WakeSome(s, kind, e, msg, pend, all))
  {
    WakeKeeps(s, e, msg, kind, pend);
    if all {
      WakeAllIsSimultaneous(s, e, msg, kind, pend);
      AllWokenFrame(s, e, msg, kind, pend);
    } else {
      WakeFrame(s, e, msg, kind, pend);
    }
  }

  lemma DissolveFrame(s: State, kind: StatBit, e: nat)
    requires Core(s) && e < |s.events| && IsKind(s.events[e].body, kind) && kind != MUTEX
    ensures MutexFrame(s, Dissolve(s, kind, e))
  {
    WakeAllKeeps(s, e, 0, kind, PendAbort);
    WakeAllIsSimultaneous(s, e, 0, kind, PendAbort);
    AllWokenFrame(s, e, 0, kind, PendAbort);
  }

  lemma CreateFrame(s: State, b: Body)
    requires Inv(s) && NewBody(b)
    ensures s.evFree != [] ==> s.evFree[0] < |s.events|
    ensures MutexFrame(s, Create(s, b).s)
  {
    if s.evFree != [] {
      assert s.evFree[0] in s.evFree;
    }
  }

  lemma ReleaseFrame(s: State, e: nat)
    requires Shape(s) && e < |s.events| && !s.events[e].body.Mutex?
    ensures MutexFrame(s, Release(s, e))
  {
  }

  lemma DeleteFrame(s: State, kind: StatBit, e: nat, opt: DelOpt)
    requires Inv(s) && e < |s.events| && kind != MUTEX
    ensures MutexFrame(s, Delete(s, kind, e, opt).s)
  {
    DeleteEffect(s, kind, e, opt);
    if Delete(s, kind, e, opt).err == ErrNone {
      if opt == Always {
        DissolveFrame(s, kind, e);
        FrameOfSame(s, Dissolve(s, kind, e), Delete(s, kind, e, opt).s);
      } else {
        ReleaseFrame(s, e);
      }
    }
  }

  lemma BlockFrame(s: State, e: nat, kind: StatBit, timeout: nat)
    requires Shape(s) && s.cur < |s.tcbs| && e < |s.events| && !s.events[e].body.Mutex?
    ensures MutexFrame(s, Block(s, e, kind, timeout))
  {
  }

  lemma PendFrame(s: State, kind: StatBit, e: nat, timeout: nat)
    requires Inv(s) && MayBlock(s) && e < |s.events| && kind != MUTEX
    ensures MutexFrame(s, Pend(s, kind, e, timeout).s)
  {
    PendEffect(s, kind, e, timeout);
    if Pend(s, kind, e, timeout).err == ErrBlocked {
      BlockFrame(s, e, kind, timeout);
      FrameOfSame(s, Block(s, e, kind, timeout), Pend(s, kind, e, timeout).s);
    }
  }

  lemma PendFinishFrame(s: State)
    requires Inv(s) && InPend(s)
    ensures MutexFrame(s, PendFinish(s).s)
  {
    assert TaskOk(s, s.cur);
  }

  lemma PostFrame(s: State, kind: StatBit, e: nat, msg: nat, opt: PostOpt)
    requires Inv(s) && e < |s.events| && MayPost(kind, msg, opt)
    ensures MutexFrame(s, Post(s, kind, e, msg, opt).s)
  {
    PostEffect(s, kind, e, msg, opt);
    if IsKind(s.events[e].body, kind) && s.events[e].wait != {} {
      WakeSomeFrame(s, kind, e, msg, PendOk, opt.broadcast);
      FrameOfSame(s, WakeSome(s, kind, e, msg, PendOk, opt.broadcast), Post(s, kind, e, msg, opt).s);
    }
  }

  lemma AbortFrame(s: State, kind: StatBit, e: nat, all: bool)
    requires Inv(s) && e < |s.events| && kind != MUTEX
    ensures MutexFrame(s, Abort(s, kind, e, all).s)
  {
    AbortEffect(s, kind, e, all);
    if IsKind(s.events[e].body, kind) && s.events[e].wait != {} {
      WakeSomeFrame(s, kind, e, 0, PendAbort, all);
      FrameOfSame(s, WakeSome(s, kind, e, 0, PendAbort, all), Abort(s, kind, e, all).s);
    }
  }

  lemma EventStepFrame(s: State, op: EventCall)
    requires Inv(s) && LegalEvent(s, op)
    ensures MutexFrame(s, EventStepOf(s, op).s)
  {
    match op
    case CreateEvent(b) => CreateFrame(s, b);
    case DeleteEvent(kind, e, del) => DeleteFrame(s, kind, e, del);
    case PendOn(kind, e, timeout) => PendFrame(s, kind, e, timeout);
    case FinishPend => PendFinishFrame(s);
    case PostTo(kind, e, msg, opt) => PostFrame(s, kind, e, msg, opt);
    case AcceptFrom(kind, e) =>
    case AbortAll(kind, e, all) => AbortFrame(s, kind, e, all);
    case SetSem(e, cnt) =>
    case FlushQ(e) =>
  }

  // ---------- bounded priority inversion ----------

  // The owner of a mutex with a ceiling runs at least as urgently as every task that waits for it.
  ghost predicate Bounded(s: State) {
    forall e, p :: 0 <= e < |s.events| && HasCeiling(s, e) && p in s.events[e].wait ==>
      && s.events[e].body.owner.Some? && s.events[e].body.owner.value < |s.tcbs|
      && s.events[e].body.pcp < p && s.tcbs[s.events[e].body.owner.value].prio <= p
  }

  // The documented rules that the kernel does not check: the ceiling is more urgent than every task that
  // competes for the mutex, and a task that waits for a mutex keeps its priority meanwhile.
  ghost predicate Disciplined(s: State, op: Op)
    requires Legal(s, op)
  {
    match op
    case OfMutex(LockMutex(e, _)) => HasCeiling(s, e) ==> s.events[e].body.pcp < s.tcbs[s.cur].prio
    case OfTask(Change(oldPrio, _)) =>
      NamesTask(s, Named(s, oldPrio)) ==>
        var k := s.tcbs[s.prioTbl[Named(s, oldPrio)].t];
        k.event.Some? && k.event.value < |s.events| ==> !s.events[k.event.value].body.Mutex?
    case _ => true
  }

  lemma FrameKeepsBound(s: State, s': State)
    requires Inv(s) && Bounded(s) && MutexFrame(s, s')
    ensures Bounded(s')
  {
    forall e, p | 0 <= e < |s'.events| && HasCeiling(s', e) && p in s'.events[e].wait
      ensures && s'.events[e].body.owner.Some? && s'.events[e].body.owner.value < |s'.tcbs|
              && s'.events[e].body.pcp < p && s'.tcbs[s'.events[e].body.owner.value].prio <= p
    {
      assert HasCeiling(s, e) && p in s.events[e].wait;
      assert EventOk(s, e);
    }
  }

  // Two tasks do not own one mutex, and one task does not own two.
  lemma OwnersDiffer(s: State, e: nat, f: nat)
    requires Core(s) && e < |s.events| && f < |s.events| && e != f
    requires s.events[e].body.Mutex? && s.events[f].body.Mutex? && s.events[e].body.owner.Some?
    ensures s.events[e].body.owner != s.events[f].body.owner
  {
    assert EventOk(s, e) && EventOk(s, f);
  }

  // Raising can only help, and it lifts the owner above every waiter.
  lemma RaiseKeepsBound(s: State, e: nat)
    requires Inv(s) && Bounded(s) && AtTaskLevel(s) && s.tcbs[s.cur].owns == None && e < |s.events|
    requires s.events[e].body.Mutex? && s.events[e].body.owner.Some?
    ensures Inv(MaybeRaise(s, e)) && Bounded(MaybeRaise(s, e))
    ensures MaybeRaise(s, e).events == s.events && |MaybeRaise(s, e).tcbs| == |s.tcbs|
    ensures HasCeiling(s, e) && s.events[e].body.pcp < s.tcbs[s.cur].prio ==>
              s.events[e].body.owner.value < |s.tcbs|
              && MaybeRaise(s, e).tcbs[s.events[e].body.owner.value].prio <= s.tcbs[s.cur].prio
  {
    MaybeRaiseKeeps(s, e);
    assert EventOk(s, e);
    var s' := MaybeRaise(s, e);
    if NeedsRaise(s, e) {
      RaiseKeeps(s, e);
      var c, pcp := s.events[e].body.owner.value, s.events[e].body.pcp;
      assert s'.events == s.events && s'.tcbs == s.tcbs[c := s.tcbs[c].(prio := pcp)];
      forall f, p | 0 <= f < |s'.events| && HasCeiling(s', f) && p in s'.events[f].wait
        ensures && s'.events[f].body.owner.Some? && s'.events[f].body.owner.value < |s'.tcbs|
                && s'.events[f].body.pcp < p && s'.tcbs[s'.events[f].body.owner.value].prio <= p
      {
        assert HasCeiling(s, f) && p in s.events[f].wait;
      }
    }
  }

  lemma BlockKeepsBound(s: State, e: nat, timeout: nat)
    requires Inv(s) && Bounded(s) && s.cur < |s.tcbs| && e < |s.events|
    requires HasCeiling(s, e) ==>
               && s.events[e].body.owner.Some? && s.events[e].body.owner.value < |s.tcbs|
               && s.events[e].body.pcp < s.tcbs[s.cur].prio
               && s.tcbs[s.events[e].body.owner.value].prio <= s.tcbs[s.cur].prio
    ensures Bounded(Block(s, e, MUTEX, timeout))
  {
    var s' := Block(s, e, MUTEX, timeout);
    forall f, p | 0 <= f < |s'.events| && HasCeiling(s', f) && p in s'.events[f].wait
      ensures && s'.events[f].body.owner.Some? && s'.events[f].body.owner.value < |s'.tcbs|
              && s'.events[f].body.pcp < p && s'.tcbs[s'.events[f].body.owner.value].prio <= p
    {
      assert HasCeiling(s, f);
      if !(f == e && p == s.tcbs[s.cur].prio) {
        assert p in s.events[f].wait;
      }
    }
  }

  lemma OnlyCurKeepsBound(s: State, s': State)
    requires Bounded(s) && s'.tcbs == s.tcbs && s'.events == s.events
    ensures Bounded(s')
  {
    forall f, p | 0 <= f < |s'.events| && HasCeiling(s', f) && p in s'.events[f].wait
      ensures && s'.events[f].body.owner.Some? && s'.events[f].body.owner.value < |s'.tcbs|
              && s'.events[f].body.pcp < p && s'.tcbs[s'.events[f].body.owner.value].prio <= p
    {
      assert HasCeiling(s, f);
    }
  }

  lemma LockKeepsBound(s: State, e: nat, timeout: nat)
    requires Inv(s) && Bounded(s) && MayBlock(s) && e < |s.events|
    requires HasCeiling(s, e) ==> s.events[e].body.pcp < s.tcbs[s.cur].prio
    ensures Bounded(MutexPend(s, e, timeout).s)
  {
    var r := MutexPend(s, e, timeout);
    assert EventOk(s, e);
    if r.err == ErrBlocked {
      MutexPendEffect(s, e, timeout);
      RaiseKeepsBound(s, e);
      var s1 := MaybeRaise(s, e);
      BlockKeepsBound(s1, e, timeout);
      OnlyCurKeepsBound(Block(s1, e, MUTEX, timeout), r.s);
    } else if r.s != s {
      AcquireKeepsBound(s, e);
    }
  }

  lemma AcquireKeepsBound(s: State, e: nat)
    requires Inv(s) && Bounded(s) && s.cur < |s.tcbs| && e < |s.events|
    requires s.events[e].body.Mutex? && s.events[e].body.low == AVAILABLE
    ensures Bounded(Acquire(s, e))
  {
    var s' := Acquire(s, e);
    assert EventOk(s, e);
    forall f, p | 0 <= f < |s'.events| && HasCeiling(s', f) && p in s'.events[f].wait
      ensures && s'.events[f].body.owner.Some? && s'.events[f].body.owner.value < |s'.tcbs|
              && s'.events[f].body.pcp < p && s'.tcbs[s'.events[f].body.owner.value].prio <= p
    {
      assert HasCeiling(s, f) && p in s.events[f].wait;
    }
  }

  // The bound for every mutex but `e`, whose waiters are still less urgent than its ceiling.
  ghost predicate BoundedElsewhere(s: State, e: nat) {
    && (forall f, p :: 0 <= f < |s.events| && HasCeiling(s, f) && p in s.events[f].wait ==>
          && s.events[f].body.pcp < p
          && (f != e ==>
                && s.events[f].body.owner.Some? && s.events[f].body.owner.value < |s.tcbs|
                && s.tcbs[s.events[f].body.owner.value].prio <= p))
  }

  // After a post, the new owner is the most urgent of the old waiters, so the bound holds at once.
  lemma HandOverKeepsBound(s: State, e: nat)
    requires Inv(s) && BoundedElsewhere(s, e) && e < |s.events| && s.events[e].body.Mutex? && s.events[e].wait != {}
    ensures Bounded(HandOver(s, e))
  {
    WakeKeeps(s, e, 0, MUTEX, PendOk);
    WaiterExists(s, e);
    var s' := HandOver(s, e);
    forall f, p | 0 <= f < |s'.events| && HasCeiling(s', f) && p in s'.events[f].wait
      ensures && s'.events[f].body.owner.Some? && s'.events[f].body.owner.value < |s'.tcbs|
              && s'.events[f].body.pcp < p && s'.tcbs[s'.events[f].body.owner.value].prio <= p
    {
      assert HasCeiling(s, f) && p in s.events[f].wait;
    }
  }

  lemma UnraiseKeepsBound(s: State, e: nat)
    requires Inv(s) && Bounded(s) && OwnedByCurrent(s, e) && s.nesting == 0
    ensures Inv(Unraise(s, e)) && BoundedElsewhere(Unraise(s, e), e)
  {
    UnraiseKeeps(s, e);
    var s' := Unraise(s, e);
    forall f, p | 0 <= f < |s'.events| && HasCeiling(s', f) && p in s'.events[f].wait
      ensures && s'.events[f].body.pcp < p
              && (f != e ==>
                    && s'.events[f].body.owner.Some? && s'.events[f].body.owner.value < |s'.tcbs|
                    && s'.tcbs[s'.events[f].body.owner.value].prio <= p)
    {
      assert HasCeiling(s, f) && p in s.events[f].wait;
      if f != e {
        OwnersDiffer(s, e, f);
      }
    }
  }

  lemma AbandonKeepsBound(s: State, e: nat)
    requires Inv(s) && BoundedElsewhere(s, e) && e < |s.events| && s.events[e].body.Mutex? && s.events[e].wait == {}
    ensures Bounded(Transfer(s, e, |s.tcbs|))
  {
    var s' := Transfer(s, e, |s.tcbs|);
    forall f, p | 0 <= f < |s'.events| && HasCeiling(s', f) && p in s'.events[f].wait
      ensures && s'.events[f].body.owner.Some? && s'.events[f].body.owner.value < |s'.tcbs|
              && s'.events[f].body.pcp < p && s'.tcbs[s'.events[f].body.owner.value].prio <= p
    {
      assert HasCeiling(s, f) && p in s.events[f].wait;
    }
  }

  lemma UnlockKeepsBound(s: State, e: nat)
    requires Inv(s) && Bounded(s) && e < |s.events| && s.running
    ensures Bounded(MutexPost(s, e).s)
  {
    if s.nesting == 0 && OwnedByCurrent(s, e) {
      MutexPostEffect(s, e);
      UnraiseKeepsBound(s, e);
      var s1 := Unraise(s, e);
      if s.events[e].wait != {} {
        HandOverKeepsBound(s1, e);
        OnlyCurKeepsBound(HandOver(s1, e), MutexPost(s, e).s);
      } else {
        AbandonKeepsBound(s1, e);
      }
    }
  }

  lemma TryKeepsBound(s: State, e: nat)
    requires Inv(s) && Bounded(s) && MayBlock(s) && e < |s.events|
    ensures Bounded(MutexAccept(s, e).s)
  {
    if MutexAccept(s, e).s != s {
      AcquireKeepsBound(s, e);
    }
  }

  lemma MutexPoolKeepsBound(s: State, s': State, e: nat)
    requires Inv(s) && Bounded(s) && MutexPoolStep(s, s', e)
    ensures Bounded(s')
  {
    forall f, p | 0 <= f < |s'.events| && HasCeiling(s', f) && p in s'.events[f].wait
      ensures && s'.events[f].body.owner.Some? && s'.events[f].body.owner.value < |s'.tcbs|
              && s'.events[f].body.pcp < p && s'.tcbs[s'.events[f].body.owner.value].prio <= p
    {
      assert HasCeiling(s, f) && p in s.events[f].wait;
    }
  }

  lemma MutexStepKeepsBound(s: State, op: MutexCall)
    requires Legal(s, OfMutex(op)) && Disciplined(s, OfMutex(op)) && Bounded(s)
    ensures Bounded(MutexStepOf(s, op).s)
  {
    match op
    case CreateMutex(pcp) =>
      MutexCreateKeeps(s, pcp);
      if s.evFree != [] {
        assert s.evFree[0] in s.evFree && EventOk(s, s.evFree[0]);
        if MutexCreate(s, pcp).err == ErrNone {
          MutexPoolKeepsBound(s, MutexCreate(s, pcp).s, s.evFree[0]);
        }
      }
    case DeleteMutex(e, del) =>
      assert EventOk(s, e);
      if s.events[e].body.Mutex? && MutexDelete(s, e, del).err == ErrNone {
        MutexPoolKeepsBound(s, MutexDelete(s, e, del).s, e);
      }
    case LockMutex(e, timeout) => LockKeepsBound(s, e, timeout);
    case UnlockMutex(e) => UnlockKeepsBound(s, e);
    case TryMutex(e) => TryKeepsBound(s, e);
  }

  lemma ChangeKeepsBound(s: State, oldPrio: nat, newPrio: nat)
    requires Legal(s, OfTask(Change(oldPrio, newPrio))) && Disciplined(s, OfTask(Change(oldPrio, newPrio))) && Bounded(s)
    ensures Bounded(ChangePrio(s, oldPrio, newPrio).s)
  {
    ChangePrioEffect(s, oldPrio, newPrio);
    if ChangePrio(s, oldPrio, newPrio).err == ErrNone {
      var p0 := Named(s, oldPrio);
      RenameKeepsBound(s, s.prioTbl[p0].t, newPrio);
      OnlyCurKeepsBound(Rename(s, s.prioTbl[p0].t, p0, newPrio), ChangePrio(s, oldPrio, newPrio).s);
    }
  }

  lemma RenameKeepsBound(s: State, t: nat, p1: nat)
    requires Inv(s) && Bounded(s) && t in s.live && p1 < PRIOS && s.tcbs[t].owns == None && s.tcbs[t].prio < PRIOS
    requires s.tcbs[t].event.Some? ==> s.tcbs[t].event.value < |s.events| && !s.events[s.tcbs[t].event.value].body.Mutex?
    ensures Bounded(Rename(s, t, s.tcbs[t].prio, p1))
  {
    var s' := Rename(s, t, s.tcbs[t].prio, p1);
    forall f, p | 0 <= f < |s'.events| && HasCeiling(s', f) && p in s'.events[f].wait
      ensures && s'.events[f].body.owner.Some? && s'.events[f].body.owner.value < |s'.tcbs|
              && s'.events[f].body.pcp < p && s'.tcbs[s'.events[f].body.owner.value].prio <= p
    {
      assert HasCeiling(s, f) && p in s.events[f].wait;
      assert EventOk(s, f);
    }
  }

  lemma StepKeepsBound(s: State, op: Op)
    requires Legal(s, op) && Disciplined(s, op) && Bounded(s)
    ensures Bounded(Step(s, op).s)
  {
    match op
    case OfSched(c) =>
      SchedStepFrame(s, c);
      FrameKeepsBound(s, SchedStep(s, c));
    case OfTask(c) =>
      if c.Change? {
        ChangeKeepsBound(s, c.oldPrio, c.newPrio);
      } else {
        TaskStepFrame(s, c);
        FrameKeepsBound(s, TaskStepOf(s, c).s);
      }
    case OfEvent(c) =>
      EventStepFrame(s, c);
      FrameKeepsBound(s, EventStepOf(s, c).s);
    case OfMutex(c) => MutexStepKeepsBound(s, c);
  }

  ghost predicate DisciplinedRun(s: State, ops: seq<Op>)
    requires LegalRun(s, ops)
    decreases |ops|
  {
    ops != [] ==> Disciplined(s, ops[0]) && DisciplinedRun(Step(s, ops[0]).s, ops[1..])
  }

  // In every state of a disciplined run: a task that waits for a mutex with a ceiling is never more urgent
  // than the mutex's owner, through raise, timeout, abort, hand-over and changes of other tasks' priorities.
  lemma {:induction false} InversionIsBounded(s: State, ops: seq<Op>, e: nat, w: nat)
    requires LegalRun(s, ops) && DisciplinedRun(s, ops) && Bounded(s)
    ensures Bounded(Final(s, ops))
    ensures var s' := Final(s, ops);
            HasCeiling(s', e) && WaitsFor(s', w, e) ==>
              && s'.events[e].body.owner.Some? && s'.events[e].body.owner.value in s'.live
              && s'.events[e].body.owner.value < |s'.tcbs|
              && s'.tcbs[s'.events[e].body.owner.value].prio <= s'.tcbs[w].prio
    decreases |ops|
  {
    if ops == [] {
      if HasCeiling(s, e) && WaitsFor(s, w, e) {
        assert TaskOk(s, w) && EventOk(s, e);
      }
    } else {
      StepKeepsBound(s, ops[0]);
      InversionIsBounded(Step(s, ops[0]).s, ops[1..], e, w);
    }
  }

  // From initialisation on.
  lemma ReachableInversionIsBounded(s: State, ops: seq<Op>, e: nat, w: nat)
    requires InitState(s) && LegalRun(s, ops) && DisciplinedRun(s, ops)
    ensures var s' := Final(s, ops);
            HasCeiling(s', e) && WaitsFor(s', w, e) ==>
              && s'.events[e].body.owner.Some? && s'.events[e].body.owner.value in s'.live
              && s'.events[e].body.owner.value < |s'.tcbs|
              && s'.tcbs[s'.events[e].body.owner.value].prio <= s'.tcbs[w].prio
  {
    assert Bounded(s);
    InversionIsBounded(s, ops, e, w);
  }

  // Exactly when a pend that blocks leaves its caller no more urgent than the owner it waits for: the owner already ran
  // at least as urgently, or the ceiling is at least as urgent as the caller.
  lemma LockBoundIsExact(s: State, e: nat, timeout: nat)
    requires Inv(s) && MayBlock(s) && HasCeiling(s, e) && MutexPend(s, e, timeout).err == ErrBlocked
    ensures s.events[e].body.owner.Some? && s.events[e].body.owner.value < |s.tcbs|
    ensures var c, s' := s.events[e].body.owner.value, MutexPend(s, e, timeout).s;
            && |s'.events| == |s.events| && |s'.tcbs| == |s.tcbs|
            && s'.events[e].body == s.events[e].body && WaitsFor(s', s.cur, e)
            && (s'.tcbs[c].prio <= s'.tcbs[s.cur].prio
                <==> s.tcbs[c].prio <= s.tcbs[s.cur].prio || s.events[e].body.pcp <= s.tcbs[s.cur].prio)
  {
    MutexPendEffect(s, e, timeout);
    RaisedPriorities(s, e);
  }

  lemma RaisedPriorities(s: State, e: nat)
    requires Inv(s) && AtTaskLevel(s) && HasCeiling(s, e) && s.events[e].body.owner.Some? && s.tcbs[s.cur].owns == None
    ensures var c, s' := s.events[e].body.owner.value, MaybeRaise(s, e);
            && c < |s.tcbs| && c != s.cur && |s'.tcbs| == |s.tcbs| && |s'.events| == |s.events| && s'.live == s.live
            && s'.events[e].body == s.events[e].body && s'.tcbs[s.cur] == s.tcbs[s.cur]
            && (s'.tcbs[c].prio <= s.tcbs[s.cur].prio
                <==> s.tcbs[c].prio <= s.tcbs[s.cur].prio || s.events[e].body.pcp <= s.tcbs[s.cur].prio)
  {
    assert EventOk(s, e);
    if NeedsRaise(s, e) {
      RaiseKeeps(s, e);
    }
  }

  // ---------- who owns a mutex ----------

  // Raising a ready owner and restoring it later undoes every change: ready list, priority table and priority.
  lemma RaiseThenRestore(s: State, e: nat)
    requires Core(s) && OwnerBelowCeiling(s, e)
    requires s.tcbs[s.events[e].body.owner.value].prio in s.rdy
    ensures var c, pcp, low := s.events[e].body.owner.value, s.events[e].body.pcp, s.events[e].body.low;
            && c in s.live && s.tcbs[c].event == None && pcp < PRIOS && low < PRIOS
            && Restore(RaiseOwner(s, c, pcp).(cur := c, prioCur := pcp), pcp, low) == s.(cur := c, prioCur := low)
  {
    var c, pcp, low := s.events[e].body.owner.value, s.events[e].body.pcp, s.events[e].body.low;
    assert EventOk(s, e);
    RaiseKeeps(s, e);
    assert !TaskAt(s, pcp);
    var s1 := RaiseOwner(s, c, pcp).(cur := c, prioCur := pcp);
    var s2 := Restore(s1, pcp, low);
    assert s2.rdy == s.rdy;
    assert s2.prioTbl == s.prioTbl;
    assert s2.tcbs == s.tcbs;
  }

  // The count of a mutex after a step that is not its deletion.
  ghost predicate OwnerMoves(s: State, s': State, op: Op, e: nat)
    requires e < |s.events| && e < |s'.events| && s.events[e].body.Mutex?
  {
    var b, b' := s.events[e].body, s'.events[e].body;
    && b'.Mutex? && b'.pcp == b.pcp
    && (b' == b
        || (b.owner == None && s.cur < |s.tcbs| && b' == Mutex(b.pcp, s.tcbs[s.cur].prio, Some(s.cur))
            && op.OfMutex? && (op.mutex == TryMutex(e) || (op.mutex.LockMutex? && op.mutex.e == e)))
        || (b.owner == Some(s.cur) && op == OfMutex(UnlockMutex(e)) && s.nesting == 0
            && if s.events[e].wait == {} then b' == Mutex(b.pcp, AVAILABLE, None)
               else HasWaiter(s, e) && b' == Mutex(b.pcp, Least(s.events[e].wait), Some(Waiter(s, e)))))
  }

  lemma FrameKeepsOwner(s: State, s': State, op: Op, e: nat)
    requires MutexFrame(s, s') && e < |s.events| && s.events[e].body.Mutex?
    ensures OwnerMoves(s, s', op, e)
  {
  }

  lemma UnraiseTable(s: State, e: nat)
    requires Inv(s) && OwnedByCurrent(s, e) && s.nesting == 0
    ensures var b, s' := s.events[e].body, Unraise(s, e);
            && b.low < PRIOS && |s'.prioTbl| == PRIOS && s'.prioTbl[b.low] == Task(s.cur)
            && (b.pcp != CEIL_DIS ==> b.pcp < PRIOS && s'.prioTbl[b.pcp] == Reserved)
  {
    assert EventOk(s, e) && TaskOk(s, s.cur);
  }

  lemma HandOverEffect(s: State, e: nat)
    requires Inv(s) && e < |s.events| && s.events[e].body.Mutex? && s.events[e].wait != {}
    ensures var s' := HandOver(s, e);
            && HasWaiter(s, e) && |s'.events| == |s.events|
            && s'.events[e].body == Mutex(s.events[e].body.pcp, Least(s.events[e].wait), Some(Waiter(s, e)))
            && (forall f :: 0 <= f < |s.events| && f != e ==> s'.events[f] == s.events[f])
            && s'.prioTbl == s.prioTbl && |s'.tcbs| == |s.tcbs|
            && (forall t :: 0 <= t < |s.tcbs| ==> s'.tcbs[t].prio == s.tcbs[t].prio)
  {
    WakeKeeps(s, e, 0, MUTEX, PendOk);
    WaiterExists(s, e);
  }

  // The post's caller gets back its own priority, the slot of that priority and the reservation of the ceiling,
  // and the mutex goes to the most urgent waiter.
  lemma UnlockMovesOwner(s: State, e: nat)
    requires Inv(s) && OwnedByCurrent(s, e) && s.nesting == 0
    ensures |MutexPost(s, e).s.events| == |s.events|
    ensures OwnerMoves(s, MutexPost(s, e).s, OfMutex(UnlockMutex(e)), e)
    ensures forall f :: 0 <= f < |s.events| && f != e ==> MutexPost(s, e).s.events[f] == s.events[f]
    ensures var b, s' := s.events[e].body, MutexPost(s, e).s;
            && b.low < PRIOS && s.cur < |s'.tcbs| && s'.tcbs[s.cur].prio == b.low && |s'.prioTbl| == PRIOS
            && s'.prioTbl[b.low] == Task(s.cur) && (b.pcp != CEIL_DIS ==> b.pcp < PRIOS && s'.prioTbl[b.pcp] == Reserved)
  {
    var s1 := Unraise(s, e);
    UnraiseKeeps(s, e);
    UnraiseTable(s, e);
    MutexPostEffect(s, e);
    if s.events[e].wait != {} {
      HandOverEffect(s1, e);
      WaiterExists(s, e);
      SameWaiter(s, e);
    }
  }

  lemma SameWaiter(s: State, e: nat)
    requires Inv(s) && OwnedByCurrent(s, e) && s.nesting == 0 && s.events[e].wait != {}
    requires HasWaiter(s, e) && HasWaiter(Unraise(s, e), e)
    ensures Waiter(Unraise(s, e), e) == Waiter(s, e) && Unraise(s, e).events == s.events
  {
    UnraiseKeeps(s, e);
    assert EventOk(s, e) && TaskOk(s, s.cur);
    assert TaskAt(s, Least(s.events[e].wait));
    assert TaskOk(s, Waiter(s, e));
  }

  lemma LockMovesOwner(s: State, e: nat, timeout: nat, f: nat)
    requires Inv(s) && MayBlock(s) && e < |s.events| && f < |s.events| && s.events[f].body.Mutex?
    ensures |MutexPend(s, e, timeout).s.events| == |s.events|
    ensures OwnerMoves(s, MutexPend(s, e, timeout).s, OfMutex(LockMutex(e, timeout)), f)
  {
    MutexPendEffect(s, e, timeout);
    if MutexPend(s, e, timeout).err == ErrBlocked {
      RaiseChangesNoBody(s, e);
    }
  }

  lemma RaiseChangesNoBody(s: State, e: nat)
    requires Inv(s) && AtTaskLevel(s) && s.tcbs[s.cur].owns == None && e < |s.events|
    ensures |MaybeRaise(s, e).events| == |s.events|
    ensures forall f :: 0 <= f < |s.events| ==> MaybeRaise(s, e).events[f].body == s.events[f].body
  {
    if NeedsRaise(s, e) {
      RaiseKeeps(s, e);
    }
  }

  // Mutual exclusion, as a history: between its creation and its deletion a mutex keeps its ceiling, gains an owner
  // only when it has none, and loses it only when that owner posts; then it goes to the most urgent waiter, or to
  // nobody if nobody waits.
  lemma OwnershipHistory(s: State, op: Op, e: nat)
    requires Legal(s, op) && e < |s.events| && s.events[e].body.Mutex?
    requires !(op.OfMutex? && op.mutex.DeleteMutex? && op.mutex.e == e && Step(s, op).err == ErrNone)
    ensures e < |Step(s, op).s.events| && OwnerMoves(s, Step(s, op).s, op, e)
  {
    var s' := Step(s, op).s;
    match op
    case OfSched(c) =>
      SchedStepFrame(s, c);
      FrameKeepsOwner(s, s', op, e);
    case OfTask(c) =>
      if c.Change? {
        ChangeMovesNoOwner(s, c.oldPrio, c.newPrio, e);
      } else {
        TaskStepFrame(s, c);
        FrameKeepsOwner(s, s', op, e);
      }
    case OfEvent(c) =>
      EventStepFrame(s, c);
      FrameKeepsOwner(s, s', op, e);
    case OfMutex(c) => MutexCallHistory(s, c, e);
  }

  lemma RenameKeepsBodies(s: State, t: nat, p0: nat, p1: nat)
    requires t < |s.tcbs| && p0 < |s.prioTbl| && p1 < |s.prioTbl|
    requires s.tcbs[t].event.Some? ==> s.tcbs[t].event.value < |s.events|
    ensures |Rename(s, t, p0, p1).events| == |s.events|
    ensures forall f :: 0 <= f < |s.events| ==> Rename(s, t, p0, p1).events[f].body == s.events[f].body
  {
  }

  lemma ChangeMovesNoOwner(s: State, oldPrio: nat, newPrio: nat, e: nat)
    requires Inv(s) && MayChange(s, oldPrio, newPrio) && e < |s.events| && s.events[e].body.Mutex?
    ensures var s' := ChangePrio(s, oldPrio, newPrio).s;
            e < |s'.events| && s'.events[e].body == s.events[e].body
  {
    ChangePrioEffect(s, oldPrio, newPrio);
    if ChangePrio(s, oldPrio, newPrio).err == ErrNone {
      RenameKeepsBodies(s, s.prioTbl[Named(s, oldPrio)].t, Named(s, oldPrio), newPrio);
    }
  }

  lemma MutexCallHistory(s: State, c: MutexCall, e: nat)
    requires Legal(s, OfMutex(c)) && e < |s.events| && s.events[e].body.Mutex?
    requires !(c.DeleteMutex? && c.e == e && MutexStepOf(s, c).err == ErrNone)
    ensures e < |MutexStepOf(s, c).s.events| && OwnerMoves(s, MutexStepOf(s, c).s, OfMutex(c), e)
  {
    match c
    case CreateMutex(pcp) =>
      if s.evFree != [] {
        assert s.evFree[0] in s.evFree;
      }
    case DeleteMutex(f, del) =>
    case LockMutex(f, timeout) => LockMovesOwner(s, f, timeout, e);
    case UnlockMutex(f) =>
      if s.nesting == 0 && OwnedByCurrent(s, f) {
        UnlockMovesOwner(s, f);
      }
    case TryMutex(f) => assert EventOk(s, f);
  }

  // ---------- from lock to unlock ----------

  // The owner `t` does not post mutex `e` in the run.
  ghost predicate KeepsLock(s: State, ops: seq<Op>, t: nat, e: nat)
    requires LegalRun(s, ops)
    decreases |ops|
  {
    ops != [] ==>
      && !(ops[0] == OfMutex(UnlockMutex(e)) && s.cur == t && s.nesting == 0)
      && KeepsLock(Step(s, ops[0]).s, ops[1..], t, e)
  }

  // Until its owner posts it, a mutex keeps its owner, its ceiling and the owner's original priority, whatever happens.
  lemma {:induction false} OwnerKeepsMutex(s: State, ops: seq<Op>, t: nat, e: nat)
    requires LegalRun(s, ops) && KeepsLock(s, ops, t, e)
    requires e < |s.events| && s.events[e].body.Mutex? && s.events[e].body.owner == Some(t)
    ensures e < |Final(s, ops).events| && Final(s, ops).events[e].body == s.events[e].body
    decreases |ops|
  {
    if ops != [] {
      OwnershipHistory(s, ops[0], e);
      OwnerKeepsMutex(Step(s, ops[0]).s, ops[1..], t, e);
    }
  }

  predicate Locks(op: MutexCall, e: nat) {
    (op.LockMutex? || op.TryMutex?) && op.e == e
  }

  // A task that takes a mutex, by a pend or by an accept, may be raised any number of times while it owns it, and posts
  // it, is back at the priority at which it took it: in its record, in the priority table, and with the ceiling reserved.
  lemma LockThenUnlock(s: State, op: MutexCall, e: nat, ops: seq<Op>)
    requires Legal(s, OfMutex(op)) && Locks(op, e) && s.events[e].body.Mutex? && s.events[e].body.owner == None
    requires s.nesting == 0 && (s.lock == 0 || op.TryMutex?)
    requires var s1 := Step(s, OfMutex(op)).s;
             && LegalRun(s1, ops) && KeepsLock(s1, ops, s.cur, e)
             && Final(s1, ops).cur == s.cur && Final(s1, ops).nesting == 0 && Final(s1, ops).running
    ensures s.cur < |s.tcbs| && s.tcbs[s.cur].prio < PRIOS
    ensures var f := Final(Step(s, OfMutex(op)).s, ops);
            && Inv(f) && f.cur in f.live && e < |f.events|
            && Restored(MutexPost(f, e).s, s.cur, s.tcbs[s.cur].prio, s.events[e].body.pcp)
  {
    var s1 := Step(s, OfMutex(op)).s;
    assert EventOk(s, e);
    OwnershipHistory(s, OfMutex(op), e);
    assert s1 == Acquire(s, e);
    OwnerKeepsMutex(s1, ops, s.cur, e);
    ReachableKeeps(s1, ops);
    UnlockMovesOwner(Final(s1, ops), e);
  }

  // Task `t` runs at its own priority `p`, and the ceiling is reserved.
  ghost predicate Restored(s: State, t: nat, p: nat, pcp: nat) {
    && t < |s.tcbs| && s.tcbs[t].prio == p && |s.prioTbl| == PRIOS && p < PRIOS && s.prioTbl[p] == Task(t)
    && (pcp != CEIL_DIS ==> pcp < PRIOS && s.prioTbl[pcp] == Reserved)
  }
}
