/** Mutexes with a priority ceiling: the owner is raised to the ceiling when a more urgent task pends,
    and a post restores it and hands the mutex to the most urgent waiter. */
module MutexServices {
  import opened PrioSets
  import opened KernelState
  import opened Primitives
  import opened EventServices

  // ---------- a task changes priority ----------

  function Renamed(wait: set<nat>, p0: nat, p1: nat): set<nat> {
    if p0 in wait then wait - {p0} + {p1} else wait
  }

  // Task `c` moves from priority `p0` to `p1` in the ready set and in the wait set of the event it waits for.
  ghost predicate PrioStep(s: State, s': State, c: nat, p1: nat) {
    && Shape(s) && |s'.prioTbl| == PRIOS && c in s.live
    && p1 < IDLE_PRIO && s.tcbs[c].prio != IDLE_PRIO && p1 != s.tcbs[c].prio
    && s' == s.(tcbs := s'.tcbs, rdy := s'.rdy, events := s'.events, prioTbl := s'.prioTbl, prioCur := s'.prioCur)
    && s'.tcbs == s.tcbs[c := s.tcbs[c].(prio := p1)]
    && (s.prioTbl[p1].Task? ==> s.prioTbl[p1].t == c)
    && s'.prioTbl[p1] == Task(c)
    && (forall p :: 0 <= p < PRIOS && p != p1 && p != s.tcbs[c].prio ==> s.prioTbl[p].Task? ==> s'.prioTbl[p] == s.prioTbl[p])
    && s'.rdy == Renamed(s.rdy, s.tcbs[c].prio, p1)
    && |s'.events| == |s.events|
    && (forall f :: 0 <= f < |s.events| ==>
          && s'.events[f].body == s.events[f].body
          && s'.events[f].wait == Renamed(s.events[f].wait, s.tcbs[c].prio, p1))
  }

  lemma OthersKeepPrio(s: State, s': State, c: nat, p1: nat, p: nat)
    requires Core(s) && PrioStep(s, s', c, p1)
    requires TaskAt(s, p) && p != s.tcbs[c].prio
    ensures p != p1 && TaskAt(s', p) && s'.prioTbl[p] == s.prioTbl[p] && s.prioTbl[p].t != c
  {
  }

  lemma PrioStepTasks(s: State, s': State, c: nat, p1: nat)
    requires Core(s) && PrioStep(s, s', c, p1)
    ensures TasksOk(s')
  {
    assert TaskOk(s, c);
    forall t | t in s'.live
      ensures TaskOk(s', t)
    {
      assert TaskOk(s, t);
    }
  }

  lemma PrioStepSets(s: State, s': State, c: nat, p1: nat)
    requires Core(s) && PrioStep(s, s', c, p1)
    ensures ReadyOk(s') && WaitersOk(s') && ListOk(s') && PoolOk(s') && CeilingsDistinct(s')
  {
    assert TaskOk(s, c);
    var p0 := s.tcbs[c].prio;
    forall p | p in s'.rdy
      ensures TaskAt(s', p)
    {
      if p != p1 {
        assert TaskAt(s, p);
        OthersKeepPrio(s, s', c, p1, p);
      }
    }
    forall f, p | 0 <= f < |s'.events| && p in s'.events[f].wait
      ensures TaskAt(s', p) && s'.tcbs[s'.prioTbl[p].t].event == Some(f)
    {
      if p0 in s.events[f].wait && p == p1 {
        assert TaskAt(s, p0);
      } else {
        assert p in s.events[f].wait && TaskAt(s, p);
        OthersKeepPrio(s, s', c, p1, p);
      }
    }
    forall f | 0 <= f < |s'.events|
      ensures f in s'.evFree <==> s'.events[f].body.Unused?
    {
      assert s'.events[f].body == s.events[f].body;
    }
    forall f: nat, g: nat | HasCeiling(s', f) && HasCeiling(s', g) && f != g
      ensures s'.events[f].body.pcp != s'.events[g].body.pcp
    {
      assert HasCeiling(s, f) && HasCeiling(s, g);
    }
  }

  // ---------- raising the owner to the ceiling ----------

  // Mutex `e` has a ceiling and an owner that still runs below it.
  ghost predicate OwnerBelowCeiling(s: State, e: nat) {
    && Shape(s) && HasCeiling(s, e)
    && s.events[e].body.owner.Some? && s.events[e].body.owner.value < |s.tcbs|
    && s.tcbs[s.events[e].body.owner.value].prio > s.events[e].body.pcp
  }

  // The owner moves to the ceiling: in the ready list if it is ready, and otherwise in the
  // wait list of the event it waits for, if any.
  function RaiseOwner(s: State, c: nat, pcp: nat): State
    requires c < |s.tcbs| && pcp < |s.prioTbl|
    requires s.tcbs[c].event.Some? ==> s.tcbs[c].event.value < |s.events|
  {
    var k := s.tcbs[c];
    var s1 :=
      if k.prio in s.rdy then s.(rdy := s.rdy - {k.prio} + {pcp})
      else if k.event.Some? then SetWait(s, k.event.value, s.events[k.event.value].wait - {k.prio} + {pcp})
      else s;
    SetTcb(s1, c, k.(prio := pcp)).(prioTbl := s.prioTbl[pcp := Task(c)])
  }

  lemma RaiseKeeps(s: State, e: nat)
    requires Core(s) && OwnerBelowCeiling(s, e)
    ensures var c := s.events[e].body.owner.value;
            && c in s.live && s.tcbs[c].event == None
            && Core(RaiseOwner(s, c, s.events[e].body.pcp))
            && (RunOk(s) && s.cur != c ==> RunOk(RaiseOwner(s, c, s.events[e].body.pcp)))
  {
    var c, pcp := s.events[e].body.owner.value, s.events[e].body.pcp;
    assert EventOk(s, e);
    assert TaskOk(s, c);
    var s' := RaiseOwner(s, c, pcp);
    NoWaitNoBit(s, c);
    PrioStepTasks(s, s', c, pcp);
    PrioStepSets(s, s', c, pcp);
    RaiseSlots(s, e);
    RaiseEvents(s, e);
  }

  // A task that waits for nothing has its bit in no wait list.
  lemma NoWaitNoBit(s: State, c: nat)
    requires Core(s) && c in s.live && s.tcbs[c].event == None
    ensures forall f :: 0 <= f < |s.events| ==> s.tcbs[c].prio !in s.events[f].wait
  {
    assert TaskOk(s, c);
    assert s.prioTbl[s.tcbs[c].prio] == Task(c);
  }

  lemma RaiseSlots(s: State, e: nat)
    requires Core(s) && OwnerBelowCeiling(s, e)
    requires s.events[e].body.owner.value in s.live && s.tcbs[s.events[e].body.owner.value].event == None
    ensures SlotsOk(RaiseOwner(s, s.events[e].body.owner.value, s.events[e].body.pcp))
  {
    var c, pcp := s.events[e].body.owner.value, s.events[e].body.pcp;
    var s' := RaiseOwner(s, c, pcp);
    assert EventOk(s, e) && TaskOk(s, c);
    forall p | 0 <= p < PRIOS
      ensures SlotOk(s', p)
    {
      assert SlotOk(s, p);
    }
  }

  lemma RaiseEvents(s: State, e: nat)
    requires Core(s) && OwnerBelowCeiling(s, e)
    requires s.events[e].body.owner.value in s.live && s.tcbs[s.events[e].body.owner.value].event == None
    ensures EventsOk(RaiseOwner(s, s.events[e].body.owner.value, s.events[e].body.pcp))
  {
    forall f | 0 <= f < |s.events|
      ensures EventOk(RaiseOwner(s, s.events[e].body.owner.value, s.events[e].body.pcp), f)
    {
      RaiseEvent(s, e, f);
    }
  }

  lemma RaiseEvent(s: State, e: nat, f: nat)
    requires Core(s) && OwnerBelowCeiling(s, e) && f < |s.events|
    requires s.events[e].body.owner.value in s.live && s.tcbs[s.events[e].body.owner.value].event == None
    ensures EventOk(RaiseOwner(s, s.events[e].body.owner.value, s.events[e].body.pcp), f)
  {
    if f == e {
      RaisedMutex(s, e);
    } else {
      UnraisedEvent(s, e, f);
    }
  }

  lemma RaisedMutex(s: State, e: nat)
    requires Core(s) && OwnerBelowCeiling(s, e)
    requires s.events[e].body.owner.value in s.live && s.tcbs[s.events[e].body.owner.value].event == None
    ensures EventOk(RaiseOwner(s, s.events[e].body.owner.value, s.events[e].body.pcp), e)
  {
    assert EventOk(s, e) && TaskOk(s, s.events[e].body.owner.value);
  }

  lemma UnraisedEvent(s: State, e: nat, f: nat)
    requires Core(s) && OwnerBelowCeiling(s, e) && f < |s.events| && f != e
    requires s.events[e].body.owner.value in s.live && s.tcbs[s.events[e].body.owner.value].event == None
    ensures EventOk(RaiseOwner(s, s.events[e].body.owner.value, s.events[e].body.pcp), f)
  {
    assert EventOk(s, f);
    if s.events[f].body.Mutex? {
      UnraisedMutex(s, e, f);
    }
  }

  lemma UnraisedMutex(s: State, e: nat, f: nat)
    requires Core(s) && OwnerBelowCeiling(s, e) && f < |s.events| && f != e && s.events[f].body.Mutex?
    requires s.events[e].body.owner.value in s.live && s.tcbs[s.events[e].body.owner.value].event == None
    ensures var s', b := RaiseOwner(s, s.events[e].body.owner.value, s.events[e].body.pcp), s.events[f].body;
            Shape(s') && MutexOk(s', f, b.pcp, b.low, b.owner, s.events[f].wait)
  {
    var c, pcp := s.events[e].body.owner.value, s.events[e].body.pcp;
    assert EventOk(s, e) && EventOk(s, f);
    assert s.prioTbl[pcp] == Reserved && s.tcbs[c].owns == Some(e);
    if HasCeiling(s, f) {
      assert HasCeiling(s, e) && s.events[f].body.pcp != pcp;
    }
  }

  // ---------- pend ----------

  function Acquire(s: State, e: nat): State
    requires s.cur < |s.tcbs| && e < |s.events| && s.events[e].body.Mutex?
  {
    var k := s.tcbs[s.cur];
    SetTcb(SetBody(s, e, Mutex(s.events[e].body.pcp, k.prio, Some(s.cur))), s.cur, k.(owns := Some(e)))
  }

  function AcquireError(s: State, e: nat): Err
    requires s.cur < |s.tcbs| && e < |s.events| && s.events[e].body.Mutex?
  {
    var pcp := s.events[e].body.pcp;
    if pcp != CEIL_DIS && s.tcbs[s.cur].prio <= pcp then ErrPcpLower else ErrNone
  }

  lemma AcquireKeeps(s: State, e: nat)
    requires Inv(s) && e < |s.events| && s.events[e].body.Mutex? && s.events[e].body.owner == None
    requires s.running && s.tcbs[s.cur].owns == None && s.tcbs[s.cur].event == None && s.prioCur != IDLE_PRIO
    ensures Inv(Acquire(s, e))
  {
    OwnershipKeeps(s, Acquire(s, e), e, s.cur);
  }

  // Who owns mutex `e` next: task `d`, or nobody when `d` is not a live task.
  function NewOwner(s: State, e: nat, d: nat): Body
    requires e < |s.events| && s.events[e].body.Mutex? && (d in s.live ==> d < |s.tcbs|)
  {
    if d in s.live then Mutex(s.events[e].body.pcp, s.tcbs[d].prio, Some(d))
    else Mutex(s.events[e].body.pcp, AVAILABLE, None)
  }

  function OwnsAfter(s: State, e: nat, d: nat, t: nat): Option<nat>
    requires e < |s.events| && s.events[e].body.Mutex? && t < |s.tcbs|
  {
    if d in s.live && t == d then Some(e)
    else if s.events[e].body.owner == Some(t) then None
    else s.tcbs[t].owns
  }

  // The owner of mutex `e`, which runs at its own priority, gives way to task `d` or to nobody.
  ghost predicate OwnershipStep(s: State, s': State, e: nat, d: nat) {
    && Shape(s) && e < |s.events| && s.events[e].body.Mutex?
    && s' == s.(tcbs := s'.tcbs, events := s'.events)
    && |s'.tcbs| == |s.tcbs|
    && (forall t :: 0 <= t < |s.tcbs| ==> s'.tcbs[t] == s.tcbs[t].(owns := OwnsAfter(s, e, d, t)))
    && s'.events == s.events[e := Event(NewOwner(s, e, d), s.events[e].wait)]
    && (d in s.live ==> s.tcbs[d].owns == None && s.tcbs[d].event == None && s.tcbs[d].prio < IDLE_PRIO)
    && (d !in s.live ==> s.events[e].wait == {})
    && (s.events[e].body.owner.Some? ==>
          && s.events[e].body.owner.value in s.live
          && s.tcbs[s.events[e].body.owner.value].prio == s.events[e].body.low)
  }

  lemma OwnershipTask(s: State, s': State, e: nat, d: nat, t: nat)
    requires Core(s) && OwnershipStep(s, s', e, d) && t in s.live
    ensures TaskOk(s', t)
  {
    assert EventOk(s, e);
    assert TaskOk(s, t);
  }

  lemma OwnershipTasks(s: State, s': State, e: nat, d: nat)
    requires Core(s) && OwnershipStep(s, s', e, d)
    ensures TasksOk(s') && ReadyOk(s') && WaitersOk(s') && ListOk(s')
  {
    forall t | t in s'.live
      ensures TaskOk(s', t)
    {
      OwnershipTask(s, s', e, d, t);
    }
    forall p | p in s'.rdy
      ensures TaskAt(s', p)
    {
      assert TaskAt(s, p);
    }
    forall f, p | 0 <= f < |s'.events| && p in s'.events[f].wait
      ensures TaskAt(s', p) && s'.tcbs[s'.prioTbl[p].t].event == Some(f)
    {
      assert p in s.events[f].wait && TaskAt(s, p);
    }
  }

  lemma OwnershipSlot(s: State, s': State, e: nat, d: nat, p: nat)
    requires Core(s) && OwnershipStep(s, s', e, d) && p < PRIOS
    ensures SlotOk(s', p)
  {
    assert EventOk(s, e);
    assert SlotOk(s, p);
  }

  lemma OwnershipEvent(s: State, s': State, e: nat, d: nat, f: nat)
    requires Core(s) && OwnershipStep(s, s', e, d) && f < |s.events|
    ensures EventOk(s', f)
  {
    assert EventOk(s, e) && EventOk(s, f);
    if d in s.live {
      assert TaskOk(s, d);
    }
  }

  lemma OwnershipEvents(s: State, s': State, e: nat, d: nat)
    requires Core(s) && OwnershipStep(s, s', e, d)
    ensures SlotsOk(s') && EventsOk(s') && CeilingsDistinct(s') && PoolOk(s')
  {
    forall p | 0 <= p < PRIOS
      ensures SlotOk(s', p)
    {
      OwnershipSlot(s, s', e, d, p);
    }
    forall f | 0 <= f < |s'.events|
      ensures EventOk(s', f)
    {
      OwnershipEvent(s, s', e, d, f);
    }
    forall f: nat, g: nat | HasCeiling(s', f) && HasCeiling(s', g) && f != g
      ensures s'.events[f].body.pcp != s'.events[g].body.pcp
    {
      assert HasCeiling(s, f) && HasCeiling(s, g);
    }
    forall f | 0 <= f < |s'.events|
      ensures f in s'.evFree <==> s'.events[f].body.Unused?
    {
    }
  }

  lemma OwnershipKeeps(s: State, s': State, e: nat, d: nat)
    requires Core(s) && OwnershipStep(s, s', e, d)
    ensures Core(s') && (RunOk(s) ==> RunOk(s'))
  {
    OwnershipTasks(s, s', e, d);
    OwnershipEvents(s, s', e, d);
  }

  ghost predicate NeedsRaise(s: State, e: nat) {
    OwnerBelowCeiling(s, e) && s.cur < |s.tcbs| && s.events[e].body.low > s.tcbs[s.cur].prio
  }

  ghost function MaybeRaise(s: State, e: nat): State
    requires Core(s)
  {
    if NeedsRaise(s, e) then
      RaiseKeeps(s, e);
      RaiseOwner(s, s.events[e].body.owner.value, s.events[e].body.pcp)
    else s
  }

  lemma MaybeRaiseKeeps(s: State, e: nat)
    requires Inv(s) && AtTaskLevel(s) && s.tcbs[s.cur].owns == None && e < |s.events|
    ensures Inv(MaybeRaise(s, e)) && AtTaskLevel(MaybeRaise(s, e))
    ensures MaybeRaise(s, e).tcbs[s.cur] == s.tcbs[s.cur] && MaybeRaise(s, e).cur == s.cur
    ensures MaybeRaise(s, e).prioCur == s.prioCur
    ensures |MaybeRaise(s, e).events| == |s.events| && MaybeRaise(s, e).events[e].body == s.events[e].body
  {
    if NeedsRaise(s, e) {
      assert EventOk(s, e);
      RaiseKeeps(s, e);
    }
  }

  ghost function MutexPend(s: State, e: nat, timeout: nat): Reply
    requires Inv(s) && MayBlock(s) && e < |s.events|
  {
    var b := s.events[e].body;
    if !b.Mutex? then Reply(s, ErrEventType, 0)
    else if s.nesting > 0 then Reply(s, ErrPendIsr, 0)
    else if s.lock > 0 then Reply(s, ErrPendLocked, 0)
    else if b.low == AVAILABLE then Reply(Acquire(s, e), AcquireError(s, e), 0)
    else
      assert EventOk(s, e);
      MaybeRaiseKeeps(s, e);
      BlockKeeps(MaybeRaise(s, e), e, MUTEX, timeout);
      Reply(Sched(Block(MaybeRaise(s, e), e, MUTEX, timeout)), ErrBlocked, 0)
  }

  lemma MutexPendKeeps(s: State, e: nat, timeout: nat)
    requires Inv(s) && MayBlock(s) && e < |s.events|
    ensures Inv(MutexPend(s, e, timeout).s)
    ensures Optimal(s) ==> Optimal(MutexPend(s, e, timeout).s)
  {
    var r := MutexPend(s, e, timeout);
    assert EventOk(s, e) && TaskOk(s, s.cur);
    if r.err == ErrBlocked {
      MaybeRaiseKeeps(s, e);
      BlockKeeps(MaybeRaise(s, e), e, MUTEX, timeout);
      SchedKeeps(Block(MaybeRaise(s, e), e, MUTEX, timeout));
    } else if s.nesting == 0 && s.lock == 0 && s.events[e].body.Mutex? {
      AcquireKeeps(s, e);
    }
  }

  ghost function MutexAccept(s: State, e: nat): Reply
    requires Inv(s) && MayBlock(s) && e < |s.events|
  {
    var b := s.events[e].body;
    if !b.Mutex? then Reply(s, ErrEventType, 0)
    else if s.nesting > 0 then Reply(s, ErrPendIsr, 0)
    else if b.low == AVAILABLE then Reply(Acquire(s, e), AcquireError(s, e), 1)
    else Reply(s, ErrNone, 0)
  }

  lemma MutexAcceptKeeps(s: State, e: nat)
    requires Inv(s) && MayBlock(s) && e < |s.events|
    ensures Inv(MutexAccept(s, e).s)
    ensures Optimal(s) ==> Optimal(MutexAccept(s, e).s)
  {
    assert EventOk(s, e) && TaskOk(s, s.cur);
    if s.nesting == 0 && s.events[e].body.Mutex? && s.events[e].body.low == AVAILABLE {
      AcquireKeeps(s, e);
    }
  }

  // ---------- post ----------

  ghost predicate OwnedByCurrent(s: State, e: nat) {
    && s.running && s.cur in s.live && s.cur < |s.tcbs| && e < |s.events|
    && s.events[e].body.Mutex? && s.events[e].body.owner == Some(s.cur)
  }

  // The running task returns to its own priority, and the ceiling is reserved again.
  function Restore(s: State, pcp: nat, low: nat): State
    requires s.cur < |s.tcbs| && pcp < |s.prioTbl| && low < |s.prioTbl|
  {
    var k := s.tcbs[s.cur];
    SetTcb(s, s.cur, k.(prio := low)).(
      rdy := s.rdy - {k.prio} + {low}, prioCur := low, prioTbl := s.prioTbl[low := Task(s.cur)][pcp := Reserved])
  }

  ghost function Unraise(s: State, e: nat): State
    requires Core(s) && OwnedByCurrent(s, e)
  {
    var b := s.events[e].body;
    assert EventOk(s, e);
    if b.pcp == CEIL_DIS then s
    else if s.tcbs[s.cur].prio == b.pcp then Restore(s, b.pcp, b.low)
    else s.(prioTbl := s.prioTbl[b.pcp := Reserved])
  }

  lemma UnraiseKeeps(s: State, e: nat)
    requires Inv(s) && OwnedByCurrent(s, e) && s.nesting == 0
    ensures var s' := Unraise(s, e);
            && Inv(s') && OwnedByCurrent(s', e) && s'.events == s.events && s'.nesting == s.nesting
            && s'.tcbs[s.cur].prio == s.events[e].body.low && s'.cur == s.cur && s'.lock == s.lock
            && s'.tcbs == s.tcbs[s.cur := s.tcbs[s.cur].(prio := s.events[e].body.low)]
    ensures s.tcbs[s.cur].prio == s.events[e].body.low ==> Unraise(s, e) == s
  {
    var b := s.events[e].body;
    assert EventOk(s, e);
    if s.tcbs[s.cur].prio != b.low {
      RestoreKeeps(s, e);
    } else if b.pcp != CEIL_DIS {
      assert s.prioTbl[b.pcp := Reserved] == s.prioTbl;
    }
  }

  lemma RestoreKeeps(s: State, e: nat)
    requires Inv(s) && Raised(s, e) && s.nesting == 0 && s.events[e].body.pcp < s.events[e].body.low
    ensures var b := s.events[e].body;
            && b.pcp < IDLE_PRIO && |s.prioTbl| == PRIOS
            && Inv(Restore(s, b.pcp, b.low)) && s.prioTbl[b.low] == Task(s.cur)
  {
    var b := s.events[e].body;
    assert EventOk(s, e);
    assert TaskOk(s, s.cur);
    var s' := Restore(s, b.pcp, b.low);
    NoWaitNoBit(s, s.cur);
    RestoreIsPrioStep(s, e);
    PrioStepTasks(s, s', s.cur, b.low);
    PrioStepSets(s, s', s.cur, b.low);
    RestoreSlots(s, e);
    RestoreEvents(s, e);
  }

  lemma RestoreIsPrioStep(s: State, e: nat)
    requires Inv(s) && Raised(s, e) && s.events[e].body.pcp < s.events[e].body.low
    requires s.tcbs[s.cur].event == None && s.events[e].body.pcp < IDLE_PRIO && s.prioTbl[s.events[e].body.low] == Task(s.cur)
    requires forall f :: 0 <= f < |s.events| ==> s.tcbs[s.cur].prio !in s.events[f].wait
    requires s.tcbs[s.cur].prio in s.rdy
    ensures PrioStep(s, Restore(s, s.events[e].body.pcp, s.events[e].body.low), s.cur, s.events[e].body.low)
  {
  }

  ghost predicate Raised(s: State, e: nat) {
    && OwnedByCurrent(s, e) && HasCeiling(s, e)
    && s.tcbs[s.cur].prio == s.events[e].body.pcp && s.events[e].body.low < IDLE_PRIO
  }

  lemma RestoreSlots(s: State, e: nat)
    requires Inv(s) && Raised(s, e) && s.events[e].body.pcp < IDLE_PRIO
    ensures SlotsOk(Restore(s, s.events[e].body.pcp, s.events[e].body.low))
  {
    var s' := Restore(s, s.events[e].body.pcp, s.events[e].body.low);
    assert EventOk(s, e) && TaskOk(s, s.cur);
    forall p | 0 <= p < PRIOS
      ensures SlotOk(s', p)
    {
      assert SlotOk(s, p);
    }
  }

  lemma RestoreEvents(s: State, e: nat)
    requires Inv(s) && Raised(s, e) && s.events[e].body.pcp < IDLE_PRIO
    ensures EventsOk(Restore(s, s.events[e].body.pcp, s.events[e].body.low))
  {
    var s' := Restore(s, s.events[e].body.pcp, s.events[e].body.low);
    assert EventOk(s, e) && TaskOk(s, s.cur);
    forall f | 0 <= f < |s'.events|
      ensures EventOk(s', f)
    {
      assert EventOk(s, f);
      if f != e && HasCeiling(s, f) {
        assert HasCeiling(s, e) && s.events[f].body.pcp != s.events[e].body.pcp;
      }
    }
  }

  // Ownership as recorded in the mutex and in the tasks.
  function Transfer(s: State, e: nat, d: nat): State
    requires e < |s.events| && s.events[e].body.Mutex? && (d in s.live ==> d < |s.tcbs|)
  {
    SetBody(s, e, NewOwner(s, e, d)).(
      tcbs := seq(|s.tcbs|, (t: nat) requires t < |s.tcbs| => s.tcbs[t].(owns := OwnsAfter(s, e, d, t))))
  }

  // The most urgent waiter becomes the owner.
  ghost function HandOver(s: State, e: nat): State
    requires Shape(s) && WaitersOk(s) && e < |s.events| && s.events[e].body.Mutex? && s.events[e].wait != {}
  {
    WaiterExists(s, e);
    Transfer(Wake(s, e, 0, MUTEX, PendOk), e, Waiter(s, e))
  }

  lemma HandOverKeeps(s: State, e: nat)
    requires Inv(s) && OwnedByCurrent(s, e) && s.tcbs[s.cur].prio == s.events[e].body.low && s.events[e].wait != {}
    ensures Inv(HandOver(s, e))
  {
    WakeKeeps(s, e, 0, MUTEX, PendOk);
    var s1 := Wake(s, e, 0, MUTEX, PendOk);
    var t := Waiter(s, e);
    WaiterExists(s, e);
    assert TaskOk(s, t);
    assert t != s.cur by {
      assert TaskOk(s, s.cur) && EventOk(s, e);
    }
    OwnershipKeeps(s1, Transfer(s1, e, t), e, t);
  }

  lemma AbandonKeeps(s: State, e: nat)
    requires Inv(s) && OwnedByCurrent(s, e) && s.tcbs[s.cur].prio == s.events[e].body.low && s.events[e].wait == {}
    ensures Inv(Transfer(s, e, |s.tcbs|))
  {
    OwnershipKeeps(s, Transfer(s, e, |s.tcbs|), e, |s.tcbs|);
  }

  // A post makes sense even if its caller is not ready.
  lemma PostIsDefined(s: State, e: nat)
    requires Core(s) && OwnedByCurrent(s, e)
    ensures var s1 := Unraise(s, e);
            && CanSwitch(s1) && WaitersOk(s1) && s1.events == s.events && s1.live == s.live && |s1.tcbs| == |s.tcbs|
  {
    assert EventOk(s, e) && TaskOk(s, s.cur);
    var s1 := Unraise(s, e);
    forall p | p in s1.rdy
      ensures TaskAt(s1, p)
    {
      assert p in s.rdy ==> TaskAt(s, p);
    }
    forall f, p | 0 <= f < |s1.events| && p in s1.events[f].wait
      ensures TaskAt(s1, p) && s1.tcbs[s1.prioTbl[p].t].event == Some(f)
    {
      assert p in s.events[f].wait && TaskAt(s, p);
    }
  }

  lemma HandOverCanSwitch(s: State, e: nat)
    requires CanSwitch(s) && WaitersOk(s) && e < |s.events| && s.events[e].body.Mutex? && s.events[e].wait != {}
    ensures CanSwitch(HandOver(s, e))
  {
    WaiterExists(s, e);
    var s' := HandOver(s, e);
    forall p | p in s'.rdy
      ensures TaskAt(s', p)
    {
      assert p in s.rdy ==> TaskAt(s, p);
    }
  }

  ghost function MutexPost(s: State, e: nat): Reply
    requires Core(s) && e < |s.events| && s.running && s.cur in s.live
  {
    var b := s.events[e].body;
    if s.nesting > 0 then Reply(s, ErrPostIsr, 0)
    else if !b.Mutex? then Reply(s, ErrEventType, 0)
    else if b.owner != Some(s.cur) then Reply(s, ErrNotMutexOwner, 0)
    else
      PostIsDefined(s, e);
      var s1 := Unraise(s, e);
      if s.events[e].wait != {} then
        HandOverCanSwitch(s1, e);
        Reply(Sched(HandOver(s1, e)),
              if b.pcp != CEIL_DIS && Least(s.events[e].wait) <= b.pcp then ErrPcpLower else ErrNone, 0)
      else Reply(Transfer(s1, e, |s1.tcbs|), ErrNone, 0)
  }

  // The post returns a raised caller to its own priority and wakes nobody.
  ghost predicate Demotes(s: State, e: nat) {
    OwnedByCurrent(s, e) && s.events[e].wait == {} && s.tcbs[s.cur].prio != s.events[e].body.low
  }

  lemma MutexPostKeeps(s: State, e: nat)
    requires Inv(s) && e < |s.events| && s.running
    ensures Inv(MutexPost(s, e).s)
    ensures Optimal(s) && !Demotes(s, e) ==> Optimal(MutexPost(s, e).s)
  {
    if s.nesting == 0 && OwnedByCurrent(s, e) {
      UnraiseKeeps(s, e);
      var s1 := Unraise(s, e);
      if s.events[e].wait != {} {
        HandOverKeeps(s1, e);
        SchedKeeps(HandOver(s1, e));
      } else {
        AbandonKeeps(s1, e);
      }
    }
  }

  // ---------- create and delete ----------

  function MutexCreate(s: State, pcp: nat): Reply
    requires s.evFree != [] ==> s.evFree[0] < |s.events|
    requires pcp == CEIL_DIS || pcp < |s.prioTbl|
  {
    if s.nesting > 0 then Reply(s, ErrCreateIsr, 0)
    else if pcp != CEIL_DIS && s.prioTbl[pcp] != Vacant then Reply(s, ErrPrioExist, 0)
    else if s.evFree == [] then Reply(s, ErrNoEvent, 0)
    else
      Reply(Allocate(s, Mutex(pcp, AVAILABLE, None)).(
              prioTbl := if pcp != CEIL_DIS then s.prioTbl[pcp := Reserved] else s.prioTbl),
            ErrNone, s.evFree[0])
  }

  // Event `e`, which nobody waits for, becomes or stops being an unowned mutex; the slot of its ceiling follows.
  ghost predicate MutexPoolStep(s: State, s': State, e: nat) {
    && Shape(s) && e < |s.events| && s.events[e].wait == {}
    && s' == s.(events := s'.events, evFree := s'.evFree, prioTbl := s'.prioTbl)
    && |s'.events| == |s.events| && s'.events == s.events[e := s'.events[e]] && s'.events[e].wait == {}
    && |s'.prioTbl| == PRIOS
    && (s.events[e].body.Unused? || (s.events[e].body.Mutex? && s.events[e].body.owner == None))
    && match s'.events[e].body {
         case Unused =>
           s'.prioTbl == if HasCeiling(s, e) && s.events[e].body.pcp < PRIOS then s.prioTbl[s.events[e].body.pcp := Vacant] else s.prioTbl
         case Mutex(pcp, low, owner) =>
           && s.events[e].body.Unused?
           && low == AVAILABLE && owner == None
           && (pcp == CEIL_DIS || (pcp < PRIOS && s.prioTbl[pcp] == Vacant))
           && s'.prioTbl == if pcp == CEIL_DIS then s.prioTbl else s.prioTbl[pcp := Reserved]
         case _ => false
       }
  }

  // The only slot that changes was not, and does not become, a task's.
  lemma MutexPoolSlots(s: State, s': State, e: nat)
    requires Core(s) && MutexPoolStep(s, s', e)
    ensures forall p :: 0 <= p < PRIOS ==> (s'.prioTbl[p] == s.prioTbl[p] || (!s.prioTbl[p].Task? && !s'.prioTbl[p].Task?))
    ensures forall f :: 0 <= f < |s.events| && f != e && HasCeiling(s, f) && s.events[f].body.pcp < PRIOS ==>
              s'.prioTbl[s.events[f].body.pcp] == s.prioTbl[s.events[f].body.pcp]
  {
    assert EventOk(s, e);
    forall f: nat | f < |s.events| && f != e && HasCeiling(s, f) && s.events[f].body.pcp < PRIOS
      ensures s'.prioTbl[s.events[f].body.pcp] == s.prioTbl[s.events[f].body.pcp]
    {
      assert EventOk(s, f);
    }
  }

  lemma MutexPoolTasks(s: State, s': State, e: nat)
    requires Core(s) && MutexPoolStep(s, s', e)
    ensures TasksOk(s') && ReadyOk(s') && WaitersOk(s') && SlotsOk(s')
  {
    MutexPoolSlots(s, s', e);
    forall t | t in s'.live
      ensures TaskOk(s', t)
    {
      assert TaskOk(s, t);
    }
    forall p | p in s'.rdy
      ensures TaskAt(s', p)
    {
      assert TaskAt(s, p);
    }
    forall f, p | 0 <= f < |s'.events| && p in s'.events[f].wait
      ensures TaskAt(s', p) && s'.tcbs[s'.prioTbl[p].t].event == Some(f)
    {
      assert p in s.events[f].wait && TaskAt(s, p);
    }
    forall p | 0 <= p < PRIOS
      ensures SlotOk(s', p)
    {
      assert SlotOk(s, p);
    }
  }

  lemma MutexPoolEvents(s: State, s': State, e: nat)
    requires Core(s) && MutexPoolStep(s, s', e)
    ensures EventsOk(s') && CeilingsDistinct(s')
  {
    MutexPoolSlots(s, s', e);
    forall f | 0 <= f < |s'.events|
      ensures EventOk(s', f)
    {
      assert EventOk(s, f);
    }
    forall f: nat, g: nat | HasCeiling(s', f) && HasCeiling(s', g) && f != g
      ensures s'.events[f].body.pcp != s'.events[g].body.pcp
    {
      CeilingSlotTaken(s, f);
      CeilingSlotTaken(s, g);
    }
  }

  lemma CeilingSlotTaken(s: State, f: nat)
    requires Core(s) && f < |s.events|
    ensures HasCeiling(s, f) ==> s.events[f].body.pcp < PRIOS && s.prioTbl[s.events[f].body.pcp] != Vacant
  {
    assert EventOk(s, f);
    if HasCeiling(s, f) && s.events[f].body.owner.Some? {
      assert TaskOk(s, s.events[f].body.owner.value);
    }
  }

  lemma MutexCreateKeeps(s: State, pcp: nat)
    requires Inv(s) && (pcp == CEIL_DIS || pcp < PRIOS)
    ensures s.evFree != [] ==> s.evFree[0] < |s.events|
    ensures Inv(MutexCreate(s, pcp).s)
    ensures Optimal(s) ==> Optimal(MutexCreate(s, pcp).s)
  {
    if s.evFree != [] {
      var e := s.evFree[0];
      assert e in s.evFree && EventOk(s, e);
      assert s.prioTbl[IDLE_PRIO] != Vacant by {
        assert TaskAt(s, IDLE_PRIO);
      }
      if MutexCreate(s, pcp).err == ErrNone {
        var s' := MutexCreate(s, pcp).s;
        AllocatePool(s, Mutex(pcp, AVAILABLE, None));
        MutexPoolTasks(s, s', e);
        MutexPoolEvents(s, s', e);
      }
    }
  }

  // Deletion of an unowned mutex. With an owner, deletion would leave a raised owner without its slot.
  function MutexDelete(s: State, e: nat, opt: DelOpt): Reply
    requires e < |s.events|
    requires s.events[e].body.Mutex? && s.events[e].body.pcp != CEIL_DIS ==> s.events[e].body.pcp < |s.prioTbl|
  {
    var b := s.events[e].body;
    if !b.Mutex? then Reply(s, ErrEventType, e)
    else if s.nesting > 0 then Reply(s, ErrDelIsr, e)
    else if opt == OtherOpt then Reply(s, ErrInvalidOpt, e)
    else
      Reply(Free(s, e).(prioTbl := if b.pcp != CEIL_DIS then s.prioTbl[b.pcp := Vacant] else s.prioTbl), ErrNone, 0)
  }

  lemma MutexDeleteKeeps(s: State, e: nat, opt: DelOpt)
    requires Inv(s) && e < |s.events|
    requires s.events[e].body.Mutex? ==> s.events[e].body.owner == None
    ensures s.events[e].body.Mutex? && s.events[e].body.pcp != CEIL_DIS ==> s.events[e].body.pcp < |s.prioTbl|
    ensures Inv(MutexDelete(s, e, opt).s)
    ensures Optimal(s) ==> Optimal(MutexDelete(s, e, opt).s)
  {
    assert EventOk(s, e);
    if MutexDelete(s, e, opt).err == ErrNone {
      var s' := MutexDelete(s, e, opt).s;
      FreePool(s, e);
      MutexPoolTasks(s, s', e);
      MutexPoolEvents(s, s', e);
    }
  }
}
