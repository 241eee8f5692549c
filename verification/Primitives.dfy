/** The steps from which the services are built: the scheduler, blocking and waking, and changes of priority.
    Each is followed by the lemma saying what it keeps. */
module Primitives {
  import opened PrioSets
  import opened KernelState

  // ---------- updates of one entry ----------

  function SetWait(s: State, e: nat, wait: set<nat>): State
    requires e < |s.events|
  {
    s.(events := s.events[e := s.events[e].(wait := wait)])
  }

  function SetBody(s: State, e: nat, b: Body): State
    requires e < |s.events|
  {
    s.(events := s.events[e := s.events[e].(body := b)])
  }

  function SetTcb(s: State, t: nat, k: Tcb): State
    requires t < |s.tcbs|
  {
    s.(tcbs := s.tcbs[t := k])
  }

  // ---------- the scheduler ----------

  ghost predicate CanSwitch(s: State) {
    Shape(s) && ReadyOk(s)
  }

  ghost function Switch(s: State): State
    requires CanSwitch(s)
  {
    var high := Least(s.rdy);
    if high != s.prioCur then s.(cur := s.prioTbl[high].t, prioCur := high) else s
  }

  ghost function Sched(s: State): State
    requires CanSwitch(s)
  {
    if s.nesting == 0 && s.lock == 0 then Switch(s) else s
  }

  // The running task may have left the ready list, but then its priority is no longer there,
  // and either the scheduler is about to run or an interrupt is being served.
  ghost predicate SchedOk(s: State) {
    s.running && (s.prioCur in s.rdy || s.nesting > 0 || s.lock > 0) ==> RunOk(s)
  }

  lemma SchedKeeps(s: State)
    requires Core(s) && SchedOk(s)
    ensures Inv(Sched(s)) && Optimal(Sched(s))
    ensures Sched(s) == s.(cur := Sched(s).cur, prioCur := Sched(s).prioCur)
  {
    var s' := Sched(s);
    assert TasksOk(s') && ReadyOk(s') && WaitersOk(s') && SlotsOk(s') && EventsOk(s') by {
      OnlyCurDiffers(s, s');
    }
    assert TaskAt(s, Least(s.rdy));
  }

  // The invariant's part about tasks and events does not look at who is running.
  lemma OnlyCurDiffers(s: State, s': State)
    requires Core(s)
    requires s' == s.(cur := s'.cur, prioCur := s'.prioCur, nesting := s'.nesting, lock := s'.lock, running := s'.running)
    requires !s'.running ==> s'.nesting == 0 && s'.lock == 0
    ensures Core(s')
  {
    forall t | t in s'.live
      ensures TaskOk(s', t)
    {
      assert TaskOk(s, t);
    }
    forall p | p in s'.rdy
      ensures TaskAt(s', p)
    {
      assert TaskAt(s, p);
    }
    forall e, p | 0 <= e < |s'.events| && p in s'.events[e].wait
      ensures TaskAt(s', p) && s'.tcbs[s'.prioTbl[p].t].event == Some(e)
    {
      assert TaskAt(s, p);
    }
    forall p | 0 <= p < PRIOS
      ensures SlotOk(s', p)
    {
      assert SlotOk(s, p);
    }
    forall e | 0 <= e < |s'.events|
      ensures EventOk(s', e)
    {
      assert EventOk(s, e);
    }
    forall e: nat, f: nat | HasCeiling(s', e) && HasCeiling(s', f) && e != f
      ensures s'.events[e].body.pcp != s'.events[f].body.pcp
    {
      assert HasCeiling(s, e) && HasCeiling(s, f);
    }
  }

  // ---------- steps about one task ----------

  // From `s` to `s'`, only task `c`, its ready bit, and its bit in the wait list of event `e` may change.
  ghost predicate TaskStep(s: State, s': State, c: nat, e: nat) {
    && Shape(s) && c in s.live
    && s' == s.(tcbs := s'.tcbs, rdy := s'.rdy, events := s'.events)
    && |s'.tcbs| == |s.tcbs| && (forall t :: 0 <= t < |s.tcbs| && t != c ==> s'.tcbs[t] == s.tcbs[t])
    && s'.tcbs[c].prio == s.tcbs[c].prio && s'.tcbs[c].owns == s.tcbs[c].owns
    && |s'.events| == |s.events| && (forall f :: 0 <= f < |s.events| && f != e ==> s'.events[f] == s.events[f])
    && (forall p :: p != s.tcbs[c].prio ==> (p in s'.rdy <==> p in s.rdy))
    && (e < |s.events| ==>
          && s'.events[e].body == s.events[e].body
          && (forall p :: p != s.tcbs[c].prio ==> (p in s'.events[e].wait <==> p in s.events[e].wait)))
    && (s.tcbs[c].event.Some? ==> s.tcbs[c].event.value == e)
    && (s'.tcbs[c].event.Some? ==> s'.tcbs[c].event.value == e)
  }

  lemma TaskStepTasks(s: State, s': State, c: nat, e: nat)
    requires Core(s) && TaskStep(s, s', c, e)
    requires TaskOk(s', c)
    ensures TasksOk(s')
  {
    assert TaskOk(s, c);
    forall t | t in s'.live
      ensures TaskOk(s', t)
    {
      assert TaskOk(s, t);
    }
  }

  lemma TaskStepWaiters(s: State, s': State, c: nat, e: nat)
    requires Core(s) && TaskStep(s, s', c, e)
    requires e < |s.events| && s.tcbs[c].prio in s'.events[e].wait ==> s'.tcbs[c].event == Some(e)
    ensures WaitersOk(s')
  {
    assert TaskOk(s, c);
    forall f | 0 <= f < |s.events| && s.tcbs[c].event != Some(f)
      ensures s.tcbs[c].prio !in s.events[f].wait
    {
    }
    forall f, p | 0 <= f < |s'.events| && p in s'.events[f].wait
      ensures TaskAt(s', p) && s'.tcbs[s'.prioTbl[p].t].event == Some(f)
    {
      if p != s.tcbs[c].prio {
        assert p in s.events[f].wait && TaskAt(s, p);
        assert s.prioTbl[p].t != c;
      }
    }
  }

  lemma TaskStepSlots(s: State, s': State, c: nat, e: nat)
    requires Core(s) && TaskStep(s, s', c, e)
    ensures SlotsOk(s')
  {
    forall p | 0 <= p < PRIOS
      ensures SlotOk(s', p)
    {
      assert SlotOk(s, p);
    }
  }

  lemma TaskStepEvents(s: State, s': State, c: nat, e: nat)
    requires Core(s) && TaskStep(s, s', c, e)
    requires e < |s.events| ==> EventOk(s', e)
    ensures EventsOk(s') && CeilingsDistinct(s') && PoolOk(s')
  {
    forall f | 0 <= f < |s'.events|
      ensures EventOk(s', f)
    {
      assert EventOk(s, f);
    }
    forall f: nat, g: nat | HasCeiling(s', f) && HasCeiling(s', g) && f != g
      ensures s'.events[f].body.pcp != s'.events[g].body.pcp
    {
      assert HasCeiling(s, f) && HasCeiling(s, g);
    }
    forall f | 0 <= f < |s'.events|
      ensures f in s'.evFree <==> s'.events[f].body.Unused?
    {
      assert s'.events[f].body == s.events[f].body;
    }
  }

  lemma TaskStepKeeps(s: State, s': State, c: nat, e: nat)
    requires Core(s) && TaskStep(s, s', c, e)
    requires TaskOk(s', c) && IDLE_PRIO in s'.rdy
    requires e < |s.events| ==> EventOk(s', e)
    requires e < |s.events| && s.tcbs[c].prio in s'.events[e].wait ==> s'.tcbs[c].event == Some(e)
    ensures Core(s')
  {
    TaskStepTasks(s, s', c, e);
    TaskStepWaiters(s, s', c, e);
    TaskStepSlots(s, s', c, e);
    TaskStepEvents(s, s', c, e);
    TaskStepReady(s, s', c, e);
  }

  lemma TaskStepReady(s: State, s': State, c: nat, e: nat)
    requires Core(s) && TaskStep(s, s', c, e)
    requires TaskOk(s', c) && IDLE_PRIO in s'.rdy
    ensures ReadyOk(s') && ListOk(s')
  {
    forall p | p in s'.rdy
      ensures TaskAt(s', p)
    {
      if p != s.tcbs[c].prio {
        assert TaskAt(s, p);
      }
    }
  }

  // ---------- blocking and waking ----------

  // The running task starts to wait for event `e`.
  function Block(s: State, e: nat, kind: StatBit, timeout: nat): State
    requires s.cur < |s.tcbs| && e < |s.events|
  {
    var k := s.tcbs[s.cur];
    SetWait(SetTcb(s, s.cur, k.(stat := k.stat + {kind}, pend := PendOk, dly := timeout, event := Some(e), cont := Pending(e, kind))),
            e, s.events[e].wait + {k.prio}).(rdy := s.rdy - {k.prio})
  }

  // Nothing can be taken from the event without waiting.
  predicate MustWait(b: Body) {
    match b
    case Sem(cnt) => cnt == 0
    case Mbox(msg) => msg == 0
    case Queue(data, _) => data == []
    case Mutex(_, _, owner) => owner.Some?
    case Unused => false
  }

  ghost predicate AtTaskLevel(s: State) {
    s.running && s.nesting == 0 && s.lock == 0 && s.cur in s.live && s.cur < |s.tcbs| && s.tcbs[s.cur].cont == Running
  }

  lemma BlockKeeps(s: State, e: nat, kind: StatBit, timeout: nat)
    requires Inv(s) && AtTaskLevel(s) && e < |s.events|
    requires IsKind(s.events[e].body, kind) && MustWait(s.events[e].body)
    requires s.tcbs[s.cur].owns == None && s.prioCur != IDLE_PRIO
    ensures Core(Block(s, e, kind, timeout)) && SchedOk(Block(s, e, kind, timeout))
  {
    var s' := Block(s, e, kind, timeout);
    assert TaskOk(s, s.cur);
    assert EventOk(s, e);
    assert s.tcbs[s.cur].stat == {};
    TaskStepKeeps(s, s', s.cur, e);
  }

  // The most urgent task waiting for event `e`.
  ghost predicate HasWaiter(s: State, e: nat) {
    && Shape(s) && e < |s.events| && s.events[e].wait != {}
    && TaskAt(s, Least(s.events[e].wait))
  }

  ghost function Waiter(s: State, e: nat): nat
    requires HasWaiter(s, e)
  {
    s.prioTbl[Least(s.events[e].wait)].t
  }

  // That task leaves the wait list, with a message and the outcome of its pend.
  ghost function Wake(s: State, e: nat, msg: nat, kind: StatBit, pend: PendStat): State
    requires HasWaiter(s, e)
  {
    var t := Waiter(s, e);
    var k := s.tcbs[t];
    var stat := k.stat - {kind};
    SetWait(SetTcb(s, t, k.(dly := 0, msg := msg, stat := stat, pend := pend, event := None)),
            e, s.events[e].wait - {k.prio}).(rdy := if SUSPEND !in stat then s.rdy + {k.prio} else s.rdy)
  }

  lemma WaiterExists(s: State, e: nat)
    requires Shape(s) && WaitersOk(s) && e < |s.events| && s.events[e].wait != {}
    ensures HasWaiter(s, e) && s.tcbs[Waiter(s, e)].event == Some(e)
  {
    assert Least(s.events[e].wait) in s.events[e].wait;
  }

  lemma WakeKeeps(s: State, e: nat, msg: nat, kind: StatBit, pend: PendStat)
    requires Core(s) && e < |s.events| && s.events[e].wait != {}
    requires IsKind(s.events[e].body, kind) && pend != PendTimeout
    ensures HasWaiter(s, e) && Core(Wake(s, e, msg, kind, pend))
    ensures RunOk(s) ==> RunOk(Wake(s, e, msg, kind, pend))
  {
    WaiterExists(s, e);
    var s' := Wake(s, e, msg, kind, pend);
    var t := Waiter(s, e);
    assert TaskOk(s, t);
    assert EventOk(s, e);
    TaskStepKeeps(s, s', t, e);
  }

  // Every waiter leaves, most urgent first.
  ghost function WakeAll(s: State, e: nat, msg: nat, kind: StatBit, pend: PendStat): State
    requires Core(s) && e < |s.events| && IsKind(s.events[e].body, kind) && pend != PendTimeout
    decreases |s.events[e].wait|
  {
    if s.events[e].wait == {} then s
    else
      WakeKeeps(s, e, msg, kind, pend);
      assert Least(s.events[e].wait) in s.events[e].wait;
      WakeAll(Wake(s, e, msg, kind, pend), e, msg, kind, pend)
  }

  lemma {:induction false} WakeAllKeeps(s: State, e: nat, msg: nat, kind: StatBit, pend: PendStat)
    requires Core(s) && e < |s.events| && IsKind(s.events[e].body, kind) && pend != PendTimeout
    ensures Core(WakeAll(s, e, msg, kind, pend))
    ensures RunOk(s) ==> RunOk(WakeAll(s, e, msg, kind, pend))
    ensures var s' := WakeAll(s, e, msg, kind, pend);
            && s' == s.(tcbs := s'.tcbs, rdy := s'.rdy, events := s'.events)
            && |s'.events| == |s.events| && s'.events[e] == Event(s.events[e].body, {})
            && (s.events[e].wait == {} ==> s' == s)
    decreases |s.events[e].wait|
  {
    if s.events[e].wait != {} {
      WakeKeeps(s, e, msg, kind, pend);
      assert Least(s.events[e].wait) in s.events[e].wait;
      WakeAllKeeps(Wake(s, e, msg, kind, pend), e, msg, kind, pend);
    }
  }

  function Woken(k: Tcb, msg: nat, kind: StatBit, pend: PendStat): Tcb {
    k.(dly := 0, msg := msg, stat := k.stat - {kind}, pend := pend, event := None)
  }

  ghost predicate WaitsFor(s: State, t: nat, e: nat) {
    t in s.live && t < |s.tcbs| && s.tcbs[t].event == Some(e)
  }

  // A service of this kind that wakes one waiter of event `e`, or all, wakes task `t`.
  ghost predicate Reaches(s: State, kind: StatBit, e: nat, all: bool, t: nat) {
    && e < |s.events| && IsKind(s.events[e].body, kind) && WaitsFor(s, t, e)
    && (all || (HasWaiter(s, e) && t == Waiter(s, e)))
  }

  // All waiters leave at once.
  ghost function AllWoken(s: State, e: nat, msg: nat, kind: StatBit, pend: PendStat): State
    requires Shape(s) && e < |s.events|
  {
    SetWait(s, e, {}).(
      tcbs := seq(|s.tcbs|, (t: nat) requires t < |s.tcbs| =>
                if WaitsFor(s, t, e) then Woken(s.tcbs[t], msg, kind, pend) else s.tcbs[t]),
      rdy := s.rdy + set t: nat | t in s.live && WaitsFor(s, t, e) && SUSPEND !in s.tcbs[t].stat - {kind} :: s.tcbs[t].prio)
  }

  // Broadcasting one by one amounts to waking all at once: nobody is missed and nobody else is touched.
  lemma {:induction false} WakeAllIsSimultaneous(s: State, e: nat, msg: nat, kind: StatBit, pend: PendStat)
    requires Core(s) && e < |s.events| && IsKind(s.events[e].body, kind) && pend != PendTimeout
    ensures WakeAll(s, e, msg, kind, pend) == AllWoken(s, e, msg, kind, pend)
    decreases |s.events[e].wait|
  {
    if s.events[e].wait == {} {
      NobodyWoken(s, e, msg, kind, pend);
    } else {
      WakeKeeps(s, e, msg, kind, pend);
      assert Least(s.events[e].wait) in s.events[e].wait;
      var s1 := Wake(s, e, msg, kind, pend);
      WakeAllIsSimultaneous(s1, e, msg, kind, pend);
      OneFewerWaits(s, e, msg, kind, pend);
    }
  }

  lemma NobodyWaits(s: State, e: nat)
    requires Core(s) && e < |s.events| && s.events[e].wait == {}
    ensures forall t: nat :: t in s.live ==> !WaitsFor(s, t, e)
  {
    forall t | t in s.live
      ensures !WaitsFor(s, t, e)
    {
      assert TaskOk(s, t);
    }
  }

  lemma NobodyWoken(s: State, e: nat, msg: nat, kind: StatBit, pend: PendStat)
    requires Core(s) && e < |s.events| && s.events[e].wait == {}
    ensures AllWoken(s, e, msg, kind, pend) == s
  {
    NobodyWaits(s, e);
    var a := AllWoken(s, e, msg, kind, pend);
    assert a.tcbs == s.tcbs;
    assert a.events == s.events;
    assert a.rdy == s.rdy;
  }

  lemma OneFewerWaits(s: State, e: nat, msg: nat, kind: StatBit, pend: PendStat)
    requires Core(s) && e < |s.events| && s.events[e].wait != {} && HasWaiter(s, e)
    ensures AllWoken(Wake(s, e, msg, kind, pend), e, msg, kind, pend) == AllWoken(s, e, msg, kind, pend)
  {
    WaiterExists(s, e);
    var t0 := Waiter(s, e);
    var s1 := Wake(s, e, msg, kind, pend);
    var a, a1 := AllWoken(s, e, msg, kind, pend), AllWoken(s1, e, msg, kind, pend);
    forall t: nat | t in s.live
      ensures WaitsFor(s1, t, e) <==> WaitsFor(s, t, e) && t != t0
    {
    }
    assert a1.tcbs == a.tcbs;
    assert a1.rdy == a.rdy;
    assert a1.events == a.events;
  }

  // The wait set and the tasks waiting are in one-to-one correspondence.
  lemma WaitersMatch(s: State, e: nat)
    requires Core(s) && e < |s.events|
    ensures forall p :: p in s.events[e].wait <==> exists t: nat :: WaitsFor(s, t, e) && s.tcbs[t].prio == p
  {
    forall p | p in s.events[e].wait
      ensures exists t: nat :: WaitsFor(s, t, e) && s.tcbs[t].prio == p
    {
      assert TaskAt(s, p);
      assert WaitsFor(s, s.prioTbl[p].t, e);
    }
    forall t: nat | WaitsFor(s, t, e)
      ensures s.tcbs[t].prio in s.events[e].wait
    {
      assert TaskOk(s, t);
    }
  }

  // ---------- changing what an event holds ----------

  // Only event `e` changes, its wait list stays, and tasks that wait for it still wait for something of the same kind.
  ghost predicate EventStep(s: State, s': State, e: nat) {
    && e < |s.events|
    && s' == s.(events := s'.events, evFree := s'.evFree, qFree := s'.qFree)
    && |s'.events| == |s.events| && s'.events == s.events[e := s'.events[e]]
    && s'.events[e].wait == s.events[e].wait
    && !s.events[e].body.Mutex? && !s'.events[e].body.Mutex?
    && (s.events[e].wait == {} || forall kind :: IsKind(s.events[e].body, kind) ==> IsKind(s'.events[e].body, kind))
  }

  lemma EventStepTasks(s: State, s': State, e: nat)
    requires Core(s) && EventStep(s, s', e)
    ensures TasksOk(s') && ReadyOk(s') && SlotsOk(s')
  {
    forall t | t in s'.live
      ensures TaskOk(s', t)
    {
      assert TaskOk(s, t);
    }
    forall p | p in s'.rdy
      ensures TaskAt(s', p)
    {
      assert TaskAt(s, p);
    }
    forall p | 0 <= p < PRIOS
      ensures SlotOk(s', p)
    {
      assert SlotOk(s, p);
    }
  }

  lemma EventStepKeeps(s: State, s': State, e: nat)
    requires Core(s) && EventStep(s, s', e)
    requires EventOk(s', e) && PoolOk(s')
    ensures Core(s') && (RunOk(s) ==> RunOk(s'))
  {
    EventStepTasks(s, s', e);
    forall f, p | 0 <= f < |s'.events| && p in s'.events[f].wait
      ensures TaskAt(s', p) && s'.tcbs[s'.prioTbl[p].t].event == Some(f)
    {
      assert p in s.events[f].wait;
      assert TaskAt(s, p);
    }
    forall f | 0 <= f < |s'.events|
      ensures EventOk(s', f)
    {
      assert EventOk(s, f);
    }
    forall f: nat, g: nat | HasCeiling(s', f) && HasCeiling(s', g) && f != g
      ensures s'.events[f].body.pcp != s'.events[g].body.pcp
    {
      assert HasCeiling(s, f) && HasCeiling(s, g);
    }
  }

  // A semaphore, mailbox or queue holds something else.
  lemma SetBodyKeeps(s: State, e: nat, b: Body, kind: StatBit)
    requires Core(s) && e < |s.events|
    requires kind != MUTEX && IsKind(s.events[e].body, kind) && IsKind(b, kind)
    requires EventOk(SetBody(s, e, b), e)
    ensures Core(SetBody(s, e, b)) && (RunOk(s) ==> RunOk(SetBody(s, e, b)))
  {
    var s' := SetBody(s, e, b);
    forall f | 0 <= f < |s'.events|
      ensures s'.events[f].body.Unused? <==> s.events[f].body.Unused?
    {
    }
    EventStepKeeps(s, s', e);
  }

  // ---------- the pool of event control blocks ----------

  // Takes the first free block and makes it an event without waiters.
  function Allocate(s: State, b: Body): State
    requires s.evFree != [] && s.evFree[0] < |s.events|
  {
    s.(events := s.events[s.evFree[0] := Event(b, {})], evFree := s.evFree[1..])
  }

  // Puts a block on the free list.
  function Free(s: State, e: nat): State
    requires e < |s.events|
  {
    SetBody(s, e, Unused).(evFree := [e] + s.evFree)
  }

  lemma AllocatePool(s: State, b: Body)
    requires PoolOk(s) && s.evFree != [] && !b.Unused?
    ensures s.evFree[0] < |s.events| && PoolOk(Allocate(s, b))
  {
    var e := s.evFree[0];
    assert e in s.evFree;
    var s' := Allocate(s, b);
    forall f | 0 <= f < |s'.events|
      ensures f in s'.evFree <==> s'.events[f].body.Unused?
    {
      assert s.evFree == [e] + s'.evFree;
    }
    forall f | f in s'.evFree
      ensures f < |s'.events|
    {
      assert f in s.evFree;
    }
  }

  lemma FreePool(s: State, e: nat)
    requires PoolOk(s) && e < |s.events| && !s.events[e].body.Unused?
    ensures PoolOk(Free(s, e))
  {
    var s' := Free(s, e);
    assert e !in s.evFree;
    forall f | 0 <= f < |s'.events|
      ensures f in s'.evFree <==> s'.events[f].body.Unused?
    {
    }
  }

  // A new semaphore, mailbox or queue.
  predicate NewBody(b: Body) {
    match b
    case Sem(cnt) => cnt <= SEM_MAX
    case Mbox(_) => true
    case Queue(data, _) => data == []
    case _ => false
  }

  lemma AllocateKeeps(s: State, b: Body, qFree: nat)
    requires Core(s) && s.evFree != [] && NewBody(b)
    ensures s.evFree[0] < |s.events|
    ensures var s' := Allocate(s, b).(qFree := qFree);
            Core(s') && (RunOk(s) ==> RunOk(s'))
  {
    AllocatePool(s, b);
    var e := s.evFree[0];
    assert e in s.evFree && EventOk(s, e);
    EventStepKeeps(s, Allocate(s, b).(qFree := qFree), e);
  }

  lemma FreeKeeps(s: State, e: nat, qFree: nat)
    requires Core(s) && e < |s.events| && s.events[e].wait == {}
    requires !s.events[e].body.Mutex? && !s.events[e].body.Unused?
    ensures var s' := Free(s, e).(qFree := qFree);
            Core(s') && (RunOk(s) ==> RunOk(s'))
  {
    FreePool(s, e);
    EventStepKeeps(s, Free(s, e).(qFree := qFree), e);
  }
}
