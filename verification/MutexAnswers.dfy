/** What the services of mutexes do, as their callers see it: the answer, every field that changes, and that nothing else
    does. Nothing here is said in terms of the functions from which the services are built. */
module MutexAnswers {
  import opened PrioSets
  import opened KernelState
  import opened Primitives
  import opened EventServices
  import opened MutexServices
  import opened ServiceCases
  import opened TaskAnswers
  import opened EventAnswers
  import Ceiling

  // ---------- pend and accept ----------

  // The running task owns mutex `e`, which remembers the task's priority.
  ghost predicate Acquires(s: State, s': State, e: nat)
    requires s.cur < |s.tcbs| && e < |s.events| && s.events[e].body.Mutex?
  {
    var k := s.tcbs[s.cur];
    s' == s.(tcbs := s.tcbs[s.cur := k.(owns := Some(e))],
             events := s.events[e := Event(Mutex(s.events[e].body.pcp, k.prio, Some(s.cur)), s.events[e].wait)])
  }

  // What a task is told that takes a mutex: its ceiling, if it has one, should be more urgent than the task.
  function TakenErr(s: State, e: nat): Err
    requires s.cur < |s.tcbs| && e < |s.events| && s.events[e].body.Mutex?
  {
    var pcp := s.events[e].body.pcp;
    if pcp != 255 && s.tcbs[s.cur].prio <= pcp then ErrPcpLower else ErrNone
  }

  // An unowned mutex is taken, and an owned one is left alone; the answer says which.
  lemma TryAnswer(s: State, e: nat)
    requires Inv(s) && MayBlock(s) && e < |s.events|
    ensures var b, r := s.events[e].body, MutexAccept(s, e);
            if !b.Mutex? then r == Reply(s, ErrEventType, 0)
            else if s.nesting > 0 then r == Reply(s, ErrPendIsr, 0)
            else if b.owner.Some? then r == Reply(s, ErrNone, 0)
            else r.val == 1 && r.err == TakenErr(s, e) && Acquires(s, r.s, e)
  {
    assert EventOk(s, e);
    TakenState(s, e);
  }

  lemma TakenState(s: State, e: nat)
    requires s.cur < |s.tcbs| && e < |s.events|
    ensures s.events[e].body.Mutex? ==> Acquires(s, Acquire(s, e), e)
  {
  }

  // A pend by the running task raises the owner: there is a ceiling more urgent than the owner, and the task is more
  // urgent than the owner is by itself.
  ghost predicate Raises(s: State, e: nat)
    requires s.cur < |s.tcbs| && e < |s.events| && s.events[e].body.Mutex? && s.events[e].body.owner.Some?
    requires s.events[e].body.owner.value < |s.tcbs|
  {
    var b := s.events[e].body;
    b.pcp != 255 && b.pcp < s.tcbs[b.owner.value].prio && s.tcbs[s.cur].prio < b.low
  }

  // The running task waits for mutex `e`, whose owner runs at the ceiling if it was raised: with its ready bit and, beside
  // its own, the slot of the ceiling.
  ghost predicate WaitsForOwner(s: State, s': State, e: nat, timeout: nat)
    requires s.cur < |s.tcbs| && e < |s.events| && s.events[e].body.Mutex? && s.events[e].body.owner.Some?
    requires s.events[e].body.owner.value < |s.tcbs|
  {
    var k, b := s.tcbs[s.cur], s.events[e].body;
    var c := b.owner.value;
    var raises, p := Raises(s, e), s.tcbs[c].prio;
    && OtherTasks(s, s', {s.cur, c}) && c != s.cur
    && s'.tcbs[s.cur]
       == k.(stat := k.stat + {MUTEX}, pend := PendOk, dly := timeout, event := Some(e), cont := Pending(e, MUTEX))
    && s'.tcbs[c] == s.tcbs[c].(prio := if raises then b.pcp else p)
    && s'.rdy == (if raises && p in s.rdy then s.rdy - {p} + {b.pcp} else s.rdy) - {k.prio}
    && s'.events == s.events[e := Event(b, s.events[e].wait + {k.prio})]
    && |s'.prioTbl| == |s.prioTbl|
    && (forall q :: 0 <= q < |s.prioTbl| ==> s'.prioTbl[q] == if raises && q == b.pcp then Task(c) else s.prioTbl[q])
    && s'.live == s.live && s'.list == s.list && s'.tcbFree == s.tcbFree && SamePool(s, s') && SameMode(s, s')
  }

  lemma LockAnswer(s: State, e: nat, timeout: nat)
    requires Inv(s) && MayBlock(s) && e < |s.events|
    ensures var b, r := s.events[e].body, MutexPend(s, e, timeout);
            if !b.Mutex? then r == Reply(s, ErrEventType, 0)
            else if s.nesting > 0 then r == Reply(s, ErrPendIsr, 0)
            else if s.lock > 0 then r == Reply(s, ErrPendLocked, 0)
            else if b.owner == None then r.val == 0 && r.err == TakenErr(s, e) && Acquires(s, r.s, e)
            else
              && r.err == ErrBlocked && r.val == 0 && b.owner.value < |s.tcbs|
              && WaitsForOwner(s, r.s, e, timeout) && Dispatched(s, r.s)
  {
    assert EventOk(s, e);
    TakenState(s, e);
    MutexPendCases(s, e, timeout);
    if MutexPend(s, e, timeout).err == ErrBlocked {
      RaisedAndBlocked(s, e, timeout);
    }
  }

  lemma RaisedAndBlocked(s: State, e: nat, timeout: nat)
    requires Inv(s) && AtTaskLevel(s) && s.tcbs[s.cur].owns == None && e < |s.events|
    requires s.events[e].body.Mutex? && s.events[e].body.owner.Some?
    requires MaybeRaise(s, e).cur == s.cur && s.cur < |MaybeRaise(s, e).tcbs| && e < |MaybeRaise(s, e).events|
    requires CanSwitch(Block(MaybeRaise(s, e), e, MUTEX, timeout))
    ensures s.events[e].body.owner.value < |s.tcbs|
    ensures var s' := Sched(Block(MaybeRaise(s, e), e, MUTEX, timeout));
            WaitsForOwner(s, s', e, timeout) && Dispatched(s, s')
  {
    var s1 := Block(MaybeRaise(s, e), e, MUTEX, timeout);
    RaisedThenWaits(s, e, timeout);
    SchedDispatches(s1);
    WaitsForAnyRunner(s, s1, Sched(s1), e, timeout);
  }

  lemma RaisedThenWaits(s: State, e: nat, timeout: nat)
    requires Inv(s) && AtTaskLevel(s) && s.tcbs[s.cur].owns == None && e < |s.events|
    requires s.events[e].body.Mutex? && s.events[e].body.owner.Some?
    requires MaybeRaise(s, e).cur == s.cur && s.cur < |MaybeRaise(s, e).tcbs| && e < |MaybeRaise(s, e).events|
    ensures s.events[e].body.owner.value < |s.tcbs|
    ensures var s' := Block(MaybeRaise(s, e), e, MUTEX, timeout);
            WaitsForOwner(s, s', e, timeout) && SameRunner(s, s') && s.prioCur !in s'.rdy
  {
    RaiseCases(s, e);
    assert EventOk(s, e);
    MaybeRaiseKeeps(s, e);
  }

  lemma WaitsForAnyRunner(s: State, s1: State, s2: State, e: nat, timeout: nat)
    requires s.cur < |s.tcbs| && e < |s.events| && s.events[e].body.Mutex? && s.events[e].body.owner.Some?
    requires s.events[e].body.owner.value < |s.tcbs|
    requires WaitsForOwner(s, s1, e, timeout) && s2 == s1.(cur := s2.cur, prioCur := s2.prioCur)
    ensures WaitsForOwner(s, s2, e, timeout)
  {
  }

  // ---------- post ----------

  // The running task is back at the priority that the mutex remembers, in its record, the priority table and, if it was
  // raised, the ready list, and the ceiling is reserved again. Task `w`, if any, is the next owner.
  ghost predicate Passes(s: State, s': State, e: nat, w: Option<nat>)
    requires s.cur < |s.tcbs| && e < |s.events| && s.events[e].body.Mutex?
  {
    var k, b := s.tcbs[s.cur], s.events[e].body;
    && OtherTasks(s, s', if w.Some? then {s.cur, w.value} else {s.cur})
    && s'.tcbs[s.cur] == k.(prio := b.low, owns := None)
    && |s'.prioTbl| == |s.prioTbl|
    && (forall q :: 0 <= q < |s.prioTbl| ==>
          s'.prioTbl[q] == if b.pcp != 255 && q == b.pcp then Reserved else if q == b.low then Task(s.cur) else s.prioTbl[q])
    && s'.live == s.live && s'.list == s.list && s'.tcbFree == s.tcbFree && SamePool(s, s') && SameMode(s, s')
    && var rdy := if k.prio == b.low then s.rdy else s.rdy - {k.prio} + {b.low};
    match w
    case None => s'.rdy == rdy && s'.events == s.events[e := Event(Mutex(b.pcp, 255, None), {})]
    case Some(t) =>
      && t < |s.tcbs| && t != s.cur
      && var x := s.tcbs[t];
      && s'.tcbs[t] == x.(dly := 0, msg := 0, stat := x.stat - {MUTEX}, pend := PendOk, event := None, owns := Some(e))
      && s'.rdy == (if SUSPEND in x.stat then rdy else rdy + {x.prio})
      && s'.events == s.events[e := Event(Mutex(b.pcp, x.prio, Some(t)), s.events[e].wait - {x.prio})]
  }

  // With nobody waiting the caller runs on; otherwise the most urgent waiter is the next owner, and the scheduler is called.
  lemma UnlockAnswer(s: State, e: nat)
    requires Inv(s) && e < |s.events| && s.running
    ensures var b, r := s.events[e].body, MutexPost(s, e);
            && r.val == 0
            && if s.nesting > 0 then r.err == ErrPostIsr && r.s == s
               else if !b.Mutex? then r.err == ErrEventType && r.s == s
               else if b.owner != Some(s.cur) then r.err == ErrNotMutexOwner && r.s == s
               else if s.events[e].wait == {} then
                 r.err == ErrNone && Passes(s, r.s, e, None) && r.s.cur == s.cur && r.s.prioCur == b.low
               else exists t: nat ::
                 && Picks(s, e, false, t) && Passes(s, r.s, e, Some(t)) && Dispatched(s.(prioCur := b.low), r.s)
                 && r.err == if b.pcp != 255 && s.tcbs[t].prio <= b.pcp then ErrPcpLower else ErrNone
  {
    MutexPostCases(s, e);
    if s.nesting == 0 && OwnedByCurrent(s, e) {
      UnraisedPasses(s, e);
      if s.events[e].wait != {} {
        HandedPasses(s, e);
      } else {
        AbandonedPasses(s, e);
      }
    }
  }

  // The state between restoring the caller and passing the mutex on.
  ghost predicate Restored(s: State, s1: State, e: nat)
    requires s.cur < |s.tcbs| && e < |s.events| && s.events[e].body.Mutex?
  {
    var k, b := s.tcbs[s.cur], s.events[e].body;
    && s1 == s.(tcbs := s.tcbs[s.cur := k.(prio := b.low)], rdy := s1.rdy, prioTbl := s1.prioTbl, prioCur := b.low)
    && s1.rdy == (if k.prio == b.low then s.rdy else s.rdy - {k.prio} + {b.low})
    && |s1.prioTbl| == |s.prioTbl|
    && (forall q :: 0 <= q < |s.prioTbl| ==>
          s1.prioTbl[q] == if b.pcp != 255 && q == b.pcp then Reserved else if q == b.low then Task(s.cur) else s.prioTbl[q])
  }

  lemma UnraisedPasses(s: State, e: nat)
    requires Inv(s) && OwnedByCurrent(s, e) && s.nesting == 0
    ensures Inv(Unraise(s, e)) && Restored(s, Unraise(s, e), e)
  {
    assert EventOk(s, e) && TaskOk(s, s.cur);
    UnraiseKeeps(s, e);
    UnraiseCases(s, e);
  }

  lemma AbandonedPasses(s: State, e: nat)
    requires Inv(s) && OwnedByCurrent(s, e) && Restored(s, Unraise(s, e), e) && Inv(Unraise(s, e)) && s.events[e].wait == {}
    ensures var s1 := Unraise(s, e); s1.events == s.events && |s1.tcbs| == |s.tcbs| && |s1.tcbs| !in s1.live
    ensures Passes(s, Transfer(Unraise(s, e), e, |s.tcbs|), e, None)
  {
    NobodyHas(Unraise(s, e));
    OnlyOwner(s, e);
  }

  // No task but the owner thinks that it owns the mutex.
  lemma OnlyOwner(s: State, e: nat)
    requires Inv(s) && OwnedByCurrent(s, e)
    ensures s.tcbs[s.cur].owns == Some(e)
  {
    assert EventOk(s, e);
  }

  // The mutex of the running task has gone to task `t`.
  ghost predicate HandedTo(s: State, s': State, e: nat, t: nat)
    requires s.cur < |s.tcbs| && e < |s.events| && s.events[e].body.Mutex?
  {
    && t < |s.tcbs| && t != s.cur && OtherTasks(s, s', {s.cur, t})
    && var x := s.tcbs[t];
    && s' == s.(tcbs := s'.tcbs, rdy := if SUSPEND in x.stat then s.rdy else s.rdy + {x.prio},
                events := s.events[e := Event(Mutex(s.events[e].body.pcp, x.prio, Some(t)), s.events[e].wait - {x.prio})])
    && s'.tcbs[s.cur] == s.tcbs[s.cur].(owns := None)
    && s'.tcbs[t] == x.(dly := 0, msg := 0, stat := x.stat - {MUTEX}, pend := PendOk, event := None, owns := Some(e))
  }

  lemma HandOverHands(s: State, e: nat)
    requires Inv(s) && OwnedByCurrent(s, e) && s.tcbs[s.cur].prio == s.events[e].body.low && s.events[e].wait != {}
    ensures HasWaiter(s, e) && HandedTo(s, HandOver(s, e), e, Waiter(s, e)) && Inv(HandOver(s, e))
  {
    OnlyOwner(s, e);
    HandOverKeeps(s, e);
    HandOverCases(s, e);
    WaiterExists(s, e);
    assert TaskOk(s, s.cur) && TaskOk(s, Waiter(s, e)) && EventOk(s, e);
  }

  lemma HandedPasses(s: State, e: nat)
    requires Inv(s) && OwnedByCurrent(s, e) && Restored(s, Unraise(s, e), e) && Inv(Unraise(s, e)) && s.events[e].wait != {}
    requires s.nesting == 0
    ensures Unraise(s, e).events == s.events && CanSwitch(HandOver(Unraise(s, e), e))
    ensures exists t: nat ::
              && Picks(s, e, false, t) && s.tcbs[t].prio == Least(s.events[e].wait)
              && Passes(s, Sched(HandOver(Unraise(s, e), e)), e, Some(t))
              && Dispatched(s.(prioCur := s.events[e].body.low), Sched(HandOver(Unraise(s, e), e)))
  {
    var s1 := Unraise(s, e);
    HandOverHands(s1, e);
    var s2 := HandOver(s1, e);
    RunnerIsKnown(s2);
    SchedDispatches(s2);
    StillPicked(s, e);
    PassedBy(s, s1, s2, Sched(s2), e, Waiter(s, e));
  }

  // Restoring the owner does not change who is next.
  lemma StillPicked(s: State, e: nat)
    requires Inv(s) && OwnedByCurrent(s, e) && s.nesting == 0 && s.events[e].wait != {} && HasWaiter(Unraise(s, e), e)
    ensures HasWaiter(s, e) && Waiter(Unraise(s, e), e) == Waiter(s, e) && Waiter(s, e) < |s.tcbs|
    ensures Picks(s, e, false, Waiter(s, e)) && s.tcbs[Waiter(s, e)].prio == Least(s.events[e].wait)
  {
    WaiterExists(s, e);
    Ceiling.SameWaiter(s, e);
    OnePicked(s, e, Waiter(s, e));
  }

  lemma PassedBy(s: State, s1: State, s2: State, s3: State, e: nat, t: nat)
    requires s.cur < |s.tcbs| && e < |s.events| && s.events[e].body.Mutex? && t < |s.tcbs|
    requires Restored(s, s1, e) && HandedTo(s1, s2, e, t) && s3 == s2.(cur := s3.cur, prioCur := s3.prioCur)
    ensures Passes(s, s3, e, Some(t))
  {
  }

  // ---------- create and delete ----------

  // A new mutex is the first free block, owned by nobody; the slot of its ceiling must be free and is reserved.
  lemma CreateMutexAnswer(s: State, pcp: nat)
    requires Inv(s) && (pcp == 255 || pcp < PRIOS)
    ensures s.evFree != [] ==> s.evFree[0] < |s.events|
    ensures var r := MutexCreate(s, pcp);
            if s.nesting > 0 then r == Reply(s, ErrCreateIsr, 0)
            else if pcp != 255 && s.prioTbl[pcp] != Vacant then r == Reply(s, ErrPrioExist, 0)
            else if s.evFree == [] then r == Reply(s, ErrNoEvent, 0)
            else
              var e := s.evFree[0];
              && r.err == ErrNone && r.val == e && s.evFree == [e] + r.s.evFree
              && r.s == s.(events := s.events[e := Event(Mutex(pcp, 255, None), {})], evFree := r.s.evFree,
                           prioTbl := if pcp == 255 then s.prioTbl else s.prioTbl[pcp := Reserved])
  {
    MutexCreateKeeps(s, pcp);
  }

  // The block of a deleted mutex is the first free one, and the slot of its ceiling is free.
  lemma DeleteMutexAnswer(s: State, e: nat, opt: DelOpt)
    requires Inv(s) && e < |s.events| && (s.events[e].body.Mutex? ==> s.events[e].body.owner == None)
    ensures s.events[e].body.Mutex? && s.events[e].body.pcp != CEIL_DIS ==> s.events[e].body.pcp < |s.prioTbl|
    ensures var b, r := s.events[e].body, MutexDelete(s, e, opt);
            if !b.Mutex? then r == Reply(s, ErrEventType, e)
            else if s.nesting > 0 then r == Reply(s, ErrDelIsr, e)
            else if opt == OtherOpt then r == Reply(s, ErrInvalidOpt, e)
            else
              && r.err == ErrNone && r.val == 0
              && r.s == s.(events := s.events[e := Event(Unused, {})], evFree := [e] + s.evFree,
                           prioTbl := if b.pcp == 255 then s.prioTbl else s.prioTbl[b.pcp := Vacant])
  {
    MutexDeleteKeeps(s, e, opt);
    if s.events[e].body.Mutex? {
      UnownedMutex(s, e);
    }
  }
}
