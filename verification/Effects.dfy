/** Services that end in a scheduler call, without it: the call changes who runs, and nothing else. */
module Effects {
  import opened PrioSets
  import opened KernelState
  import opened Primitives
  import opened EventServices
  import opened MutexServices
  import opened TaskServices

  predicate SameData(s: State, s': State) {
    && s'.tcbs == s.tcbs && s'.live == s.live && s'.prioTbl == s.prioTbl && s'.rdy == s.rdy && s'.events == s.events
    && s'.qFree == s.qFree
  }

  lemma SchedIsQuiet(s: State)
    requires CanSwitch(s)
    ensures SameData(s, Sched(s))
  {
  }

  lemma TaskCreateEffect(s: State, prio: nat)
    requires Inv(s) && prio < PRIOS
    ensures var s' := TaskCreate(s, prio).s;
            if TaskCreateError(s, prio) == ErrNone then
              s.tcbFree != [] && s.tcbFree[0] < |s.tcbs| && s.tcbFree[0] !in s.live && SameData(Admit(s, prio), s')
            else s' == s
  {
    if TaskCreateError(s, prio) == ErrNone {
      FreshTcb(s);
      AdmitKeeps(s, prio);
      SchedIsQuiet(Admit(s, prio));
    }
  }

  lemma TaskDelEffect(s: State, prio: nat)
    requires Inv(s) && MayDelete(s, prio)
    ensures var p, r := Named(s, prio), TaskDel(s, prio);
            if r.err == ErrNone then
              && NamesTask(s, p) && s.prioTbl[p].t in s.live && s.tcbs[s.prioTbl[p].t].prio == p
              && (s.tcbs[s.prioTbl[p].t].event.Some? ==> s.tcbs[s.prioTbl[p].t].event.value < |s.events|)
              && SameData(Dismiss(s, s.prioTbl[p].t), r.s)
            else r.s == s
  {
    var p := Named(s, prio);
    if TaskDel(s, prio).err == ErrNone {
      assert SlotOk(s, p);
      DismissKeeps(s, s.prioTbl[p].t);
      SchedIsQuiet(Dismiss(s, s.prioTbl[p].t));
    }
  }

  lemma TaskSuspendEffect(s: State, prio: nat)
    requires Inv(s) && MaySuspend(s, prio)
    ensures var p, r := Named(s, prio), TaskSuspend(s, prio);
            if r.err == ErrNone then
              NamesTask(s, p) && s.prioTbl[p].t in s.live && SameData(Park(s, s.prioTbl[p].t), r.s)
            else r.s == s
  {
    var p := Named(s, prio);
    if s.prioTbl[p].Task? {
      assert SlotOk(s, p);
      ParkKeeps(s, s.prioTbl[p].t);
      SchedIsQuiet(Park(s, s.prioTbl[p].t));
    }
  }

  lemma TaskResumeEffect(s: State, prio: nat)
    requires Inv(s) && prio < PRIOS
    ensures var r := TaskResume(s, prio);
            if r.err == ErrNone then
              NamesTask(s, prio) && s.prioTbl[prio].t in s.live && SameData(Unpark(s, s.prioTbl[prio].t), r.s)
            else r.s == s
  {
    if s.prioTbl[prio].Task? {
      assert SlotOk(s, prio);
      UnparkKeeps(s, s.prioTbl[prio].t);
      SchedIsQuiet(Unpark(s, s.prioTbl[prio].t));
    }
  }

  lemma ChangePrioEffect(s: State, oldPrio: nat, newPrio: nat)
    requires Inv(s) && MayChange(s, oldPrio, newPrio)
    ensures var p, r := Named(s, oldPrio), ChangePrio(s, oldPrio, newPrio);
            if r.err == ErrNone then
              && NamesTask(s, p) && s.prioTbl[newPrio] == Vacant
              && s.prioTbl[p].t in s.live && s.tcbs[s.prioTbl[p].t].prio == p
              && (s.tcbs[s.prioTbl[p].t].event.Some? ==> s.tcbs[s.prioTbl[p].t].event.value < |s.events|)
              && SameData(Rename(s, s.prioTbl[p].t, p, newPrio), r.s)
            else r.s == s
  {
    var p := Named(s, oldPrio);
    if s.prioTbl[newPrio] == Vacant && s.prioTbl[p].Task? {
      assert SlotOk(s, p);
      RenameKeeps(s, s.prioTbl[p].t, newPrio);
      SchedIsQuiet(Rename(s, s.prioTbl[p].t, p, newPrio));
    }
  }

  lemma TimeDlyEffect(s: State, ticks: nat)
    requires Inv(s) && MaySleep(s)
    ensures if s.nesting == 0 && s.lock == 0 && ticks > 0 then SameData(Sleep(s, ticks), TimeDly(s, ticks))
            else TimeDly(s, ticks) == s
  {
    if s.nesting == 0 && s.lock == 0 && ticks > 0 {
      SleepKeeps(s, ticks);
      SchedIsQuiet(Sleep(s, ticks));
    }
  }

  lemma PendEffect(s: State, kind: StatBit, e: nat, timeout: nat)
    requires Inv(s) && MayBlock(s) && e < |s.events| && kind != MUTEX
    ensures var r := Pend(s, kind, e, timeout);
            && (r.err == ErrBlocked ==>
                  && s.nesting == 0 && s.lock == 0 && IsKind(s.events[e].body, kind) && !Available(s.events[e].body)
                  && SameData(Block(s, e, kind, timeout), r.s))
            && (r.err == ErrNone ==>
                  && IsKind(s.events[e].body, kind) && Available(s.events[e].body)
                  && r == Reply(SetBody(s, e, AfterTake(s.events[e].body)), ErrNone, Taken(s.events[e].body)))
            && (r.err != ErrBlocked && r.err != ErrNone ==> r.s == s)
  {
    if Pend(s, kind, e, timeout).err == ErrBlocked {
      BlockKeeps(s, e, kind, timeout);
      SchedIsQuiet(Block(s, e, kind, timeout));
    }
  }

  lemma PostEffect(s: State, kind: StatBit, e: nat, msg: nat, opt: PostOpt)
    requires Inv(s) && e < |s.events| && MayPost(kind, msg, opt)
    ensures var b, r := s.events[e].body, Post(s, kind, e, msg, opt);
            if !IsKind(b, kind) then r == Reply(s, ErrEventType, 0)
            else if s.events[e].wait != {} then
              r.err == ErrNone && SameData(WakeSome(s, kind, e, msg, PendOk, opt.broadcast), r.s)
            else if Full(b) then r == Reply(s, FullError(kind), 0)
            else r == Reply(SetBody(s, e, AfterPut(b, msg, opt.front)), ErrNone, 0)
  {
    if IsKind(s.events[e].body, kind) && s.events[e].wait != {} {
      WakeSomeKeeps(s, kind, e, msg, PendOk, opt.broadcast);
      SchedIsQuiet(WakeSome(s, kind, e, msg, PendOk, opt.broadcast));
    }
  }

  lemma AbortEffect(s: State, kind: StatBit, e: nat, all: bool)
    requires Inv(s) && e < |s.events| && kind != MUTEX
    ensures var r := Abort(s, kind, e, all);
            if IsKind(s.events[e].body, kind) && s.events[e].wait != {} then
              && r.err == ErrPendAbort && r.val == (if all then |s.events[e].wait| else 1)
              && SameData(WakeSome(s, kind, e, 0, PendAbort, all), r.s)
            else r.s == s
  {
    if IsKind(s.events[e].body, kind) && s.events[e].wait != {} {
      WakeSomeKeeps(s, kind, e, 0, PendAbort, all);
      SchedIsQuiet(WakeSome(s, kind, e, 0, PendAbort, all));
    }
  }

  lemma DeleteEffect(s: State, kind: StatBit, e: nat, opt: DelOpt)
    requires Inv(s) && e < |s.events| && kind != MUTEX
    ensures var r := Delete(s, kind, e, opt);
            if r.err != ErrNone then r.s == s
            else
              && IsKind(s.events[e].body, kind)
              && (opt == Always ==> SameData(Dissolve(s, kind, e), r.s))
              && (opt != Always ==> s.events[e].wait == {} && r.s == Release(s, e))
  {
    if IsKind(s.events[e].body, kind) && opt == Always {
      DissolveKeeps(s, kind, e);
      SchedIsQuiet(Dissolve(s, kind, e));
    }
  }

  lemma MutexPendEffect(s: State, e: nat, timeout: nat)
    requires Inv(s) && MayBlock(s) && e < |s.events|
    ensures var r := MutexPend(s, e, timeout);
            if r.err == ErrBlocked then
              && AtTaskLevel(s) && s.tcbs[s.cur].owns == None && s.events[e].body.Mutex? && s.events[e].body.owner.Some?
              && Inv(MaybeRaise(s, e)) && MaybeRaise(s, e).cur == s.cur && |MaybeRaise(s, e).events| == |s.events|
              && |MaybeRaise(s, e).tcbs| == |s.tcbs|
              && SameData(Block(MaybeRaise(s, e), e, MUTEX, timeout), r.s)
            else r.s == s || (s.events[e].body.Mutex? && s.events[e].body.owner == None && r.s == Acquire(s, e))
  {
    assert EventOk(s, e);
    var r := MutexPend(s, e, timeout);
    if r.err == ErrBlocked {
      RaiseThenBlock(s, e, timeout);
      assert r.s == Sched(Block(MaybeRaise(s, e), e, MUTEX, timeout));
    }
  }

  lemma RaiseThenBlock(s: State, e: nat, timeout: nat)
    requires Inv(s) && AtTaskLevel(s) && s.tcbs[s.cur].owns == None && s.prioCur != IDLE_PRIO
    requires e < |s.events| && s.events[e].body.Mutex? && s.events[e].body.owner.Some?
    ensures var s1 := MaybeRaise(s, e);
            && Inv(s1) && s1.cur == s.cur && s.cur < |s1.tcbs| && |s1.events| == |s.events| && |s1.tcbs| == |s.tcbs|
            && CanSwitch(Block(s1, e, MUTEX, timeout))
            && SameData(Block(s1, e, MUTEX, timeout), Sched(Block(s1, e, MUTEX, timeout)))
  {
    MaybeRaiseKeeps(s, e);
    BlockKeeps(MaybeRaise(s, e), e, MUTEX, timeout);
    SchedIsQuiet(Block(MaybeRaise(s, e), e, MUTEX, timeout));
  }

  lemma MutexPostEffect(s: State, e: nat)
    requires Inv(s) && e < |s.events| && s.running
    ensures var s' := MutexPost(s, e).s;
            if s.nesting == 0 && OwnedByCurrent(s, e) then
              && Inv(Unraise(s, e)) && Unraise(s, e).events == s.events && |Unraise(s, e).tcbs| == |s.tcbs|
              && if s.events[e].wait == {} then s' == Transfer(Unraise(s, e), e, |s.tcbs|)
                 else Inv(HandOver(Unraise(s, e), e)) && SameData(HandOver(Unraise(s, e), e), s')
            else s' == s
  {
    if s.nesting == 0 && OwnedByCurrent(s, e) {
      UnraiseKeeps(s, e);
      if s.events[e].wait != {} {
        HandOverKeeps(Unraise(s, e), e);
        SchedIsQuiet(HandOver(Unraise(s, e), e));
      }
    }
  }
}
