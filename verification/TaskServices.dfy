/** The life cycle of a task: create, delete, suspend, resume, change of priority, delay, and the clock tick. */
module TaskServices {
  import opened PrioSets
  import opened KernelState
  import opened Primitives
  import opened EventServices
  import opened MutexServices

  // ---------- create ----------

  function NewTcb(prio: nat): Tcb {
    Tcb(prio, {}, PendOk, 0, None, 0, Running, None)
  }

  function Admit(s: State, prio: nat): State
    requires s.tcbFree != [] && s.tcbFree[0] < |s.tcbs| && prio < |s.prioTbl|
  {
    var t := s.tcbFree[0];
    SetTcb(s, t, NewTcb(prio)).(
      live := s.live + {t}, list := [t] + s.list, tcbFree := s.tcbFree[1..],
      prioTbl := s.prioTbl[prio := Task(t)], rdy := s.rdy + {prio})
  }

  lemma AdmitKeeps(s: State, prio: nat)
    requires Core(s) && s.tcbFree != [] && prio < PRIOS && s.prioTbl[prio] == Vacant
    ensures s.tcbFree[0] < |s.tcbs| && Core(Admit(s, prio))
    ensures RunOk(s) ==> RunOk(Admit(s, prio))
  {
    var t := s.tcbFree[0];
    assert t in s.tcbFree;
    FreshTcb(s);
    AdmitTasks(s, prio);
    AdmitEvents(s, prio);
    AdmitList(s, prio);
  }

  lemma FreshTcb(s: State)
    requires ListOk(s) && s.tcbFree != []
    ensures s.tcbFree[0] !in s.live && s.tcbFree[0] < |s.tcbs| && s.tcbFree[0] !in s.tcbFree[1..]
  {
    var t := s.tcbFree[0];
    assert t in s.tcbFree;
    var all := s.list + s.tcbFree;
    assert all[|s.list|] == t;
    forall i | 0 <= i < |s.list|
      ensures s.list[i] != t
    {
      assert all[i] != all[|s.list|];
    }
    forall i | 0 <= i < |s.tcbFree| - 1
      ensures s.tcbFree[1..][i] != t
    {
      assert all[|s.list| + 1 + i] != all[|s.list|];
    }
  }

  lemma AdmitTasks(s: State, prio: nat)
    requires Core(s) && s.tcbFree != [] && s.tcbFree[0] < |s.tcbs| && s.tcbFree[0] !in s.live
    requires prio < PRIOS && s.prioTbl[prio] == Vacant
    ensures var s' := Admit(s, prio); Shape(s') && TasksOk(s') && ReadyOk(s') && WaitersOk(s')
  {
    var s' := Admit(s, prio);
    forall t | t in s'.live
      ensures TaskOk(s', t)
    {
      if t in s.live {
        assert TaskOk(s, t);
      }
    }
    forall p | p in s'.rdy
      ensures TaskAt(s', p)
    {
      if p != prio {
        assert TaskAt(s, p);
      }
    }
    forall f, p | 0 <= f < |s'.events| && p in s'.events[f].wait
      ensures TaskAt(s', p) && s'.tcbs[s'.prioTbl[p].t].event == Some(f)
    {
      assert p in s.events[f].wait && TaskAt(s, p);
    }
  }

  lemma AdmitEvents(s: State, prio: nat)
    requires Core(s) && s.tcbFree != [] && s.tcbFree[0] < |s.tcbs| && s.tcbFree[0] !in s.live
    requires prio < PRIOS && s.prioTbl[prio] == Vacant
    ensures var s' := Admit(s, prio); Shape(s') && SlotsOk(s') && EventsOk(s') && CeilingsDistinct(s') && PoolOk(s')
  {
    var s' := Admit(s, prio);
    forall p | 0 <= p < PRIOS
      ensures SlotOk(s', p)
    {
      assert SlotOk(s, p);
    }
    forall f | 0 <= f < |s'.events|
      ensures EventOk(s', f)
    {
      assert EventOk(s, f);
    }
    forall f: nat, g: nat | HasCeiling(s', f) && HasCeiling(s', g) && f != g
      ensures s'.events[f].body.pcp != s'.events[g].body.pcp
    {
      assert HasCeiling(s, f) && HasCeiling(s, g);
    }
  }

  lemma AdmitList(s: State, prio: nat)
    requires ListOk(s) && s.tcbFree != [] && s.tcbFree[0] < |s.tcbs| && prio < |s.prioTbl|
    ensures ListOk(Admit(s, prio))
  {
    var t := s.tcbFree[0];
    var s' := Admit(s, prio);
    FreshTcb(s);
    var all, all' := s.list + s.tcbFree, s'.list + s'.tcbFree;
    assert NoDup(all') by {
      forall i, j | 0 <= i < j < |all'|
        ensures all'[i] != all'[j]
      {
        assert all'[i] == all[if i == 0 then |s.list| else if i <= |s.list| then i - 1 else i];
        assert all'[j] == all[if j == 0 then |s.list| else if j <= |s.list| then j - 1 else j];
      }
    }
    forall u | u in s'.tcbFree
      ensures u < |s'.tcbs|
    {
      assert u in s.tcbFree;
    }
    forall u
      ensures u in s'.live <==> u in s'.list
    {
    }
    assert s.list[|s.list| - 1] in s.list;
  }

  function TaskCreateError(s: State, prio: nat): Err
    requires prio < |s.prioTbl|
  {
    if s.nesting > 0 then ErrTaskCreateIsr
    else if s.prioTbl[prio] != Vacant then ErrPrioExist
    else if s.tcbFree == [] then ErrTaskNoMoreTcb
    else ErrNone
  }

  ghost function TaskCreate(s: State, prio: nat): Reply
    requires Inv(s) && prio < PRIOS
  {
    if TaskCreateError(s, prio) != ErrNone then Reply(s, TaskCreateError(s, prio), 0)
    else
      AdmitKeeps(s, prio);
      var s1 := Admit(s, prio);
      Reply(if s.running then Sched(s1) else s1, ErrNone, s.tcbFree[0])
  }

  lemma TaskCreateKeeps(s: State, prio: nat)
    requires Inv(s) && prio < PRIOS
    ensures Inv(TaskCreate(s, prio).s)
    ensures Optimal(s) ==> Optimal(TaskCreate(s, prio).s)
  {
    if TaskCreateError(s, prio) == ErrNone {
      AdmitKeeps(s, prio);
      SchedKeeps(Admit(s, prio));
    }
  }

  // ---------- the task that a caller names by priority ----------

  // A caller may name itself by a reserved number.
  function Named(s: State, prio: nat): nat
    requires s.cur < |s.tcbs|
  {
    if prio == PRIO_SELF then s.tcbs[s.cur].prio else prio
  }

  predicate NamesTask(s: State, prio: nat)
    requires |s.prioTbl| == PRIOS
  {
    prio < PRIOS && s.prioTbl[prio].Task?
  }

  // ---------- suspend and resume ----------

  function Park(s: State, t: nat): State
    requires t < |s.tcbs|
  {
    SetTcb(s, t, s.tcbs[t].(stat := s.tcbs[t].stat + {SUSPEND})).(rdy := s.rdy - {s.tcbs[t].prio})
  }

  // Any task but the idle task may be suspended.
  ghost predicate CanSuspend(s: State, prio: nat) {
    && s.running && s.cur in s.live && s.cur < |s.tcbs| && |s.prioTbl| == PRIOS && Named(s, prio) < PRIOS
    && (NamesTask(s, Named(s, prio)) ==>
          s.prioTbl[Named(s, prio)].t < |s.tcbs| && s.tcbs[s.prioTbl[Named(s, prio)].t].prio != IDLE_PRIO)
  }

  // The running task suspends itself only with the scheduler unlocked, and a task raised by a mutex does not
  // name itself by its original priority.
  ghost predicate MaySuspend(s: State, prio: nat) {
    && CanSuspend(s, prio)
    && (NamesTask(s, Named(s, prio)) && s.prioTbl[Named(s, prio)].t == s.cur ==>
          s.lock == 0 && (s.nesting > 0 || Named(s, prio) == s.tcbs[s.cur].prio))
  }

  lemma ParkCore(s: State, t: nat)
    requires Core(s) && t in s.live && s.tcbs[t].prio != IDLE_PRIO
    ensures Core(Park(s, t))
  {
    assert TaskOk(s, t);
    var e := if s.tcbs[t].event.Some? then s.tcbs[t].event.value else |s.events|;
    assert e < |s.events| ==> EventOk(s, e);
    TaskStepKeeps(s, Park(s, t), t, e);
  }

  lemma ParkKeeps(s: State, t: nat)
    requires Inv(s) && t in s.live && s.tcbs[t].prio != IDLE_PRIO
    requires t == s.cur ==> s.lock == 0
    ensures Core(Park(s, t)) && SchedOk(Park(s, t))
    ensures t != s.cur || s.nesting > 0 ==> RunOk(Park(s, t))
  {
    ParkCore(s, t);
    assert TaskOk(s, t);
    if s.running {
      assert TaskOk(s, s.cur);
    }
  }

  ghost function TaskSuspend(s: State, prio: nat): Reply
    requires Inv(s) && CanSuspend(s, prio)
  {
    var p := Named(s, prio);
    match s.prioTbl[p]
    case Vacant => Reply(s, ErrTaskSuspendPrio, 0)
    case Reserved => Reply(s, ErrTaskNotExist, 0)
    case Task(t) =>
      assert SlotOk(s, p);
      ParkCore(s, t);
      Reply(if p == s.tcbs[s.cur].prio then Sched(Park(s, t)) else Park(s, t), ErrNone, 0)
  }

  lemma TaskSuspendKeeps(s: State, prio: nat)
    requires Inv(s) && MaySuspend(s, prio)
    ensures Inv(TaskSuspend(s, prio).s)
    ensures Optimal(s) ==> Optimal(TaskSuspend(s, prio).s)
  {
    var p := Named(s, prio);
    assert SlotOk(s, p) && TaskOk(s, s.cur);
    if s.prioTbl[p].Task? {
      var t := s.prioTbl[p].t;
      ParkKeeps(s, t);
      SchedKeeps(Park(s, t));
      assert TaskOk(s, t);
    }
  }

  function Unpark(s: State, t: nat): State
    requires t < |s.tcbs|
  {
    var k := s.tcbs[t].(stat := s.tcbs[t].stat - {SUSPEND});
    SetTcb(s, t, k).(rdy := if k.stat == {} && k.dly == 0 then s.rdy + {k.prio} else s.rdy)
  }

  lemma UnparkKeeps(s: State, t: nat)
    requires Inv(s) && t in s.live
    ensures Inv(Unpark(s, t))
  {
    UnparkCore(s, t);
    assert RunOk(Unpark(s, t));
  }

  lemma UnparkCore(s: State, t: nat)
    requires Core(s) && t in s.live
    ensures Core(Unpark(s, t))
  {
    assert TaskOk(s, t);
    var e := if s.tcbs[t].event.Some? then s.tcbs[t].event.value else |s.events|;
    assert e < |s.events| ==> EventOk(s, e);
    TaskStepKeeps(s, Unpark(s, t), t, e);
  }

  ghost function TaskResume(s: State, prio: nat): Reply
    requires Inv(s) && prio < PRIOS
  {
    match s.prioTbl[prio]
    case Vacant => Reply(s, ErrTaskResumePrio, 0)
    case Reserved => Reply(s, ErrTaskNotExist, 0)
    case Task(t) =>
      assert SlotOk(s, prio);
      if SUSPEND !in s.tcbs[t].stat then Reply(s, ErrTaskNotSuspended, 0)
      else
        UnparkKeeps(s, t);
        var s1 := Unpark(s, t);
        Reply(if s1.tcbs[t].stat == {} && s1.tcbs[t].dly == 0 && s.running then Sched(s1) else s1, ErrNone, 0)
  }

  lemma TaskResumeKeeps(s: State, prio: nat)
    requires Inv(s) && prio < PRIOS
    ensures Inv(TaskResume(s, prio).s)
    ensures Optimal(s) ==> Optimal(TaskResume(s, prio).s)
  {
    assert SlotOk(s, prio);
    if s.prioTbl[prio].Task? && SUSPEND in s.tcbs[s.prioTbl[prio].t].stat {
      var s1 := Unpark(s, s.prioTbl[prio].t);
      UnparkKeeps(s, s.prioTbl[prio].t);
      SchedKeeps(s1);
      assert TaskResume(s, prio).s == s1 || TaskResume(s, prio).s == Sched(s1);
    }
  }

  // A resumption succeeds exactly for a suspended task, which becomes ready exactly when nothing else holds it up.
  lemma TaskResumeReadies(s: State, prio: nat)
    requires Inv(s) && prio < PRIOS
    ensures s.prioTbl[prio].Task? ==> s.prioTbl[prio].t < |s.tcbs|
    ensures var r := TaskResume(s, prio);
            && (r.err == ErrNone <==> s.prioTbl[prio].Task? && SUSPEND in s.tcbs[s.prioTbl[prio].t].stat)
            && (r.err != ErrNone ==> r.s == s)
            && (r.err == ErrNone ==>
                  var k := s.tcbs[s.prioTbl[prio].t];
                  k.prio in r.s.rdy <==> k.stat == {SUSPEND} && k.dly == 0)
  {
    assert SlotOk(s, prio);
    if s.prioTbl[prio].Task? && SUSPEND in s.tcbs[s.prioTbl[prio].t].stat {
      assert TaskOk(s, s.prioTbl[prio].t);
      UnparkKeeps(s, s.prioTbl[prio].t);
      SchedKeeps(Unpark(s, s.prioTbl[prio].t));
    }
  }

  // ---------- delay and tick ----------

  function Sleep(s: State, ticks: nat): State
    requires s.cur < |s.tcbs|
  {
    SetTcb(s, s.cur, s.tcbs[s.cur].(dly := ticks)).(rdy := s.rdy - {s.tcbs[s.cur].prio})
  }

  ghost predicate MaySleep(s: State) {
    && s.running && s.cur in s.live && s.cur < |s.tcbs|
    && (s.nesting == 0 ==> s.tcbs[s.cur].cont == Running && s.prioCur != IDLE_PRIO)
  }

  lemma SleepKeeps(s: State, ticks: nat)
    requires Inv(s) && MaySleep(s) && s.nesting == 0 && s.lock == 0 && ticks > 0
    ensures Core(Sleep(s, ticks)) && SchedOk(Sleep(s, ticks))
  {
    assert TaskOk(s, s.cur);
    TaskStepKeeps(s, Sleep(s, ticks), s.cur, |s.events|);
  }

  ghost function TimeDly(s: State, ticks: nat): State
    requires Inv(s) && MaySleep(s)
  {
    if s.nesting > 0 || s.lock > 0 || ticks == 0 then s
    else
      SleepKeeps(s, ticks);
      Sched(Sleep(s, ticks))
  }

  lemma TimeDlyKeeps(s: State, ticks: nat)
    requires Inv(s) && MaySleep(s)
    ensures Inv(TimeDly(s, ticks))
    ensures Optimal(s) ==> Optimal(TimeDly(s, ticks))
  {
    if s.nesting == 0 && s.lock == 0 && ticks > 0 {
      SleepKeeps(s, ticks);
      SchedKeeps(Sleep(s, ticks));
    }
  }

  // One tick for one task.
  function Ticked(k: Tcb): Tcb {
    if k.dly == 0 then k
    else if k.dly > 1 then k.(dly := k.dly - 1)
    else if k.stat * PEND_ANY != {} then k.(dly := 0, stat := k.stat - PEND_ANY, pend := PendTimeout)
    else k.(dly := 0, pend := PendOk)
  }

  predicate WakesUp(k: Tcb) {
    k.dly == 1 && SUSPEND !in k.stat
  }

  // One tick for every live task but the idle one.
  predicate Ticks(s: State, t: nat) {
    t in s.live && t < |s.tcbs| && s.tcbs[t].prio != IDLE_PRIO
  }

  function Tick(s: State): State {
    if !s.running then s
    else
      s.(tcbs := seq(|s.tcbs|, (t: nat) requires t < |s.tcbs| => if Ticks(s, t) then Ticked(s.tcbs[t]) else s.tcbs[t]),
         rdy := s.rdy + set t | t in s.live && Ticks(s, t) && WakesUp(s.tcbs[t]) :: s.tcbs[t].prio)
  }

  lemma TickTasks(s: State)
    requires Core(s)
    ensures var s' := Tick(s); Shape(s') && TasksOk(s') && ReadyOk(s') && WaitersOk(s')
  {
    var s' := Tick(s);
    forall t | t in s'.live
      ensures TaskOk(s', t)
    {
      assert TaskOk(s, t);
      TickedTask(s, t);
    }
    forall p | p in s'.rdy
      ensures TaskAt(s', p)
    {
      if p in s.rdy {
        assert TaskAt(s, p);
      } else {
        var t :| t in s.live && Ticks(s, t) && WakesUp(s.tcbs[t]) && s.tcbs[t].prio == p;
        assert TaskOk(s, t);
      }
    }
    forall f, p | 0 <= f < |s'.events| && p in s'.events[f].wait
      ensures TaskAt(s', p) && s'.tcbs[s'.prioTbl[p].t].event == Some(f)
    {
      assert p in s.events[f].wait && TaskAt(s, p);
    }
  }

  lemma TickedTask(s: State, t: nat)
    requires Core(s) && t in s.live
    ensures TaskOk(Tick(s), t)
  {
    var s' := Tick(s);
    var k, k' := s.tcbs[t], s'.tcbs[t];
    assert TaskOk(s, t);
    if s.running {
      assert k.prio in s'.rdy <==> k.prio in s.rdy || (Ticks(s, t) && WakesUp(k)) by {
        if k.prio in s'.rdy && k.prio !in s.rdy {
          var u :| u in s.live && Ticks(s, u) && WakesUp(s.tcbs[u]) && s.tcbs[u].prio == k.prio;
          assert TaskOk(s, u);
          assert u == t;
        }
      }
      IdleIsReady(s, t);
      TickedReady(k);
      OnlySuspendLeft(k.stat);
    }
  }

  lemma TickedReady(k: Tcb)
    ensures Ticked(k).stat == {} && Ticked(k).dly == 0 <==> (k.stat == {} && k.dly == 0) || WakesUp(k)
  {
    OnlySuspendLeft(k.stat);
  }

  lemma OnlySuspendLeft(stat: set<StatBit>)
    ensures stat - PEND_ANY == (if SUSPEND in stat then {SUSPEND} else {})
    ensures stat * PEND_ANY == {} ==> stat <= {SUSPEND}
  {
    forall b | b in stat
      ensures b in PEND_ANY || b == SUSPEND
    {
    }
    if stat * PEND_ANY == {} {
      forall b | b in stat
        ensures b == SUSPEND
      {
        assert b !in stat * PEND_ANY;
      }
    }
  }

  lemma IdleIsReady(s: State, t: nat)
    requires Core(s) && t in s.live
    ensures s.tcbs[t].prio == IDLE_PRIO ==> s.tcbs[t].dly == 0 && s.tcbs[t].stat == {}
  {
    assert TaskOk(s, t) && TaskAt(s, IDLE_PRIO);
  }

  lemma TickSlots(s: State)
    requires Core(s)
    ensures SlotsOk(Tick(s)) && EventsOk(Tick(s))
  {
    var s' := Tick(s);
    forall p | 0 <= p < PRIOS
      ensures SlotOk(s', p)
    {
      assert SlotOk(s, p);
    }
    forall f | 0 <= f < |s'.events|
      ensures EventOk(s', f)
    {
      assert EventOk(s, f);
    }
  }

  lemma TickKeeps(s: State)
    requires Inv(s)
    ensures Inv(Tick(s))
  {
    var s' := Tick(s);
    TickTasks(s);
    TickSlots(s);
    forall f: nat, g: nat | HasCeiling(s', f) && HasCeiling(s', g) && f != g
      ensures s'.events[f].body.pcp != s'.events[g].body.pcp
    {
      assert HasCeiling(s, f) && HasCeiling(s, g);
    }
  }

  // ---------- change of priority ----------

  // The priority of a mutex owner is not changed, nor that of the idle task.
  ghost predicate CanChange(s: State, oldPrio: nat, newPrio: nat) {
    && s.cur < |s.tcbs| && |s.prioTbl| == PRIOS && newPrio < PRIOS
    && (oldPrio == PRIO_SELF ==> s.running)
    && Named(s, oldPrio) < PRIOS
    && (NamesTask(s, Named(s, oldPrio)) ==>
          var t := s.prioTbl[Named(s, oldPrio)].t;
          t < |s.tcbs| && s.tcbs[t].owns == None && s.tcbs[t].prio != IDLE_PRIO)
  }

  // That of the running task is changed only when the scheduler can act on it.
  ghost predicate MayChange(s: State, oldPrio: nat, newPrio: nat) {
    && CanChange(s, oldPrio, newPrio)
    && (s.running && s.prioTbl[Named(s, oldPrio)] == Task(s.cur) ==> s.nesting == 0 && s.lock == 0)
  }

  // Every set of priorities has `p0` renamed to `p1`.
  function Rename(s: State, t: nat, p0: nat, p1: nat): State
    requires t < |s.tcbs| && p0 < |s.prioTbl| && p1 < |s.prioTbl|
    requires s.tcbs[t].event.Some? ==> s.tcbs[t].event.value < |s.events|
  {
    var k := s.tcbs[t];
    var s1 := if k.event.Some? then SetWait(s, k.event.value, s.events[k.event.value].wait - {p0} + {p1}) else s;
    SetTcb(s1, t, k.(prio := p1)).(
      rdy := Renamed(s.rdy, p0, p1),
      prioTbl := s.prioTbl[p0 := Vacant][p1 := Task(t)])
  }

  lemma RenameKeeps(s: State, t: nat, p1: nat)
    requires Inv(s) && t in s.live && p1 < PRIOS && s.prioTbl[p1] == Vacant
    requires s.tcbs[t].owns == None && s.tcbs[t].prio != IDLE_PRIO
    requires s.running && t == s.cur ==> s.nesting == 0 && s.lock == 0
    ensures s.tcbs[t].event.Some? ==> s.tcbs[t].event.value < |s.events|
    ensures Core(Rename(s, t, s.tcbs[t].prio, p1)) && SchedOk(Rename(s, t, s.tcbs[t].prio, p1))
    ensures !s.running ==> RunOk(Rename(s, t, s.tcbs[t].prio, p1))
  {
    assert TaskOk(s, t);
    RenameCore(s, t, p1);
  }

  lemma RenameCore(s: State, t: nat, p1: nat)
    requires Core(s) && t in s.live && p1 < PRIOS && s.prioTbl[p1] == Vacant
    requires s.tcbs[t].owns == None && s.tcbs[t].prio != IDLE_PRIO
    ensures s.tcbs[t].event.Some? ==> s.tcbs[t].event.value < |s.events|
    ensures Core(Rename(s, t, s.tcbs[t].prio, p1))
  {
    var p0 := s.tcbs[t].prio;
    assert TaskOk(s, t);
    assert TaskAt(s, IDLE_PRIO);
    var s' := Rename(s, t, p0, p1);
    RenameIsPrioStep(s, t, p1);
    PrioStepTasks(s, s', t, p1);
    PrioStepSets(s, s', t, p1);
    RenameSlots(s, t, p1);
    RenameEvents(s, t, p1);
  }

  lemma RenameIsPrioStep(s: State, t: nat, p1: nat)
    requires Core(s) && t in s.live && p1 < IDLE_PRIO && s.prioTbl[p1] == Vacant
    requires s.tcbs[t].owns == None && s.tcbs[t].prio < IDLE_PRIO
    ensures s.tcbs[t].event.Some? ==> s.tcbs[t].event.value < |s.events|
    ensures PrioStep(s, Rename(s, t, s.tcbs[t].prio, p1), t, p1)
  {
    assert TaskOk(s, t);
    assert s.prioTbl[s.tcbs[t].prio] == Task(t);
    forall f | 0 <= f < |s.events| && s.tcbs[t].event != Some(f)
      ensures s.tcbs[t].prio !in s.events[f].wait
    {
    }
  }

  lemma RenameSlots(s: State, t: nat, p1: nat)
    requires Core(s) && t in s.live && p1 < IDLE_PRIO && s.prioTbl[p1] == Vacant
    requires s.tcbs[t].owns == None && s.tcbs[t].prio < IDLE_PRIO
    requires s.tcbs[t].event.Some? ==> s.tcbs[t].event.value < |s.events|
    ensures SlotsOk(Rename(s, t, s.tcbs[t].prio, p1))
  {
    var s' := Rename(s, t, s.tcbs[t].prio, p1);
    assert TaskOk(s, t);
    forall p | 0 <= p < PRIOS
      ensures SlotOk(s', p)
    {
      assert SlotOk(s, p);
    }
  }

  lemma RenameEvents(s: State, t: nat, p1: nat)
    requires Core(s) && t in s.live && p1 < IDLE_PRIO && s.prioTbl[p1] == Vacant
    requires s.tcbs[t].owns == None && s.tcbs[t].prio < IDLE_PRIO
    requires s.tcbs[t].event.Some? ==> s.tcbs[t].event.value < |s.events|
    ensures EventsOk(Rename(s, t, s.tcbs[t].prio, p1))
  {
    var s' := Rename(s, t, s.tcbs[t].prio, p1);
    assert TaskOk(s, t);
    forall f | 0 <= f < |s'.events|
      ensures EventOk(s', f)
    {
      assert EventOk(s, f);
      CeilingSlotTaken(s, f);
    }
  }

  ghost function ChangePrio(s: State, oldPrio: nat, newPrio: nat): Reply
    requires Inv(s) && CanChange(s, oldPrio, newPrio)
  {
    var p := Named(s, oldPrio);
    if s.prioTbl[newPrio] != Vacant then Reply(s, ErrPrioExist, 0)
    else
      match s.prioTbl[p]
      case Vacant => Reply(s, ErrPrio, 0)
      case Reserved => Reply(s, ErrTaskNotExist, 0)
      case Task(t) =>
        assert SlotOk(s, p);
        RenameCore(s, t, newPrio);
        var s1 := Rename(s, t, p, newPrio);
        Reply(if s.running then Sched(s1) else s1, ErrNone, 0)
  }

  lemma ChangePrioKeeps(s: State, oldPrio: nat, newPrio: nat)
    requires Inv(s) && MayChange(s, oldPrio, newPrio)
    ensures Inv(ChangePrio(s, oldPrio, newPrio).s)
    ensures Optimal(s) ==> Optimal(ChangePrio(s, oldPrio, newPrio).s)
  {
    var p := Named(s, oldPrio);
    if s.prioTbl[newPrio] == Vacant && s.prioTbl[p].Task? {
      assert SlotOk(s, p);
      RenamedKeeps(s, s.prioTbl[p].t, newPrio);
    }
  }

  lemma RenamedKeeps(s: State, t: nat, p1: nat)
    requires Inv(s) && t in s.live && p1 < PRIOS && s.prioTbl[p1] == Vacant
    requires s.tcbs[t].owns == None && s.tcbs[t].prio != IDLE_PRIO
    requires s.running && t == s.cur ==> s.nesting == 0 && s.lock == 0
    ensures s.tcbs[t].prio < PRIOS && (s.tcbs[t].event.Some? ==> s.tcbs[t].event.value < |s.events|)
    ensures var s1 := Rename(s, t, s.tcbs[t].prio, p1);
            && CanSwitch(s1) && Inv(if s.running then Sched(s1) else s1) && Optimal(if s.running then Sched(s1) else s1)
  {
    assert TaskOk(s, t);
    RenameKeeps(s, t, p1);
    SchedKeeps(Rename(s, t, s.tcbs[t].prio, p1));
  }

  // ---------- delete ----------

  function Without(q: seq<nat>, t: nat): seq<nat> {
    if q == [] then [] else if q[0] == t then q[1..] else [q[0]] + Without(q[1..], t)
  }

  lemma {:induction false} WithoutSplits(q: seq<nat>, t: nat) returns (i: nat)
    requires t in q
    ensures i < |q| && q[i] == t && Without(q, t) == q[..i] + q[i + 1..]
  {
    if q[0] == t {
      i := 0;
    } else {
      var j := WithoutSplits(q[1..], t);
      i := j + 1;
      assert q[..i] == [q[0]] + q[1..][..j];
    }
  }

  // Deletion opens a window for interrupts under the scheduler lock. The lock is not counted up from 255,
  // but it is counted down all the same.
  function LockAfterDelete(lock: nat): nat {
    if lock < 255 then lock else lock - 1
  }

  function Dismiss(s: State, t: nat): State
    requires t < |s.tcbs| && s.tcbs[t].prio < |s.prioTbl|
    requires s.tcbs[t].event.Some? ==> s.tcbs[t].event.value < |s.events|
  {
    var k := s.tcbs[t];
    var s1 := if k.event.Some? then SetWait(s, k.event.value, s.events[k.event.value].wait - {k.prio}) else s;
    SetTcb(s1, t, k.(dly := 0, stat := {}, pend := PendOk, event := None, cont := Running)).(
      rdy := s.rdy - {k.prio}, prioTbl := s.prioTbl[k.prio := Vacant],
      live := s.live - {t}, list := Without(s.list, t), tcbFree := [t] + s.tcbFree, lock := LockAfterDelete(s.lock))
  }

  // An element moves from a list to the front of the free list.
  lemma MoveToFree(q: seq<nat>, free: seq<nat>, t: nat)
    requires NoDup(q + free) && t in q && q[|q| - 1] != t
    ensures var q' := Without(q, t);
            && NoDup(q' + ([t] + free)) && (forall u :: u in q' <==> u in q && u != t)
            && q' != [] && q'[|q'| - 1] == q[|q| - 1]
    ensures exists i :: 0 <= i < |q| && q[i] == t && Without(q, t) == q[..i] + q[i + 1..]
  {
    var i := WithoutSplits(q, t);
    MovedNoDup(q, free, i);
    WithoutMembers(q, free, t, i);
  }

  lemma MovedNoDup(q: seq<nat>, free: seq<nat>, i: nat)
    requires NoDup(q + free) && i < |q|
    ensures NoDup((q[..i] + q[i + 1..]) + ([q[i]] + free))
  {
    var n := |q| - 1;
    var all, all' := q + free, (q[..i] + q[i + 1..]) + ([q[i]] + free);
    forall a, b | 0 <= a < b < |all'|
      ensures all'[a] != all'[b]
    {
      assert all'[a] == all[if a < i then a else if a < n then a + 1 else if a == n then i else a];
      assert all'[b] == all[if b < i then b else if b < n then b + 1 else if b == n then i else b];
    }
  }

  lemma WithoutMembers(q: seq<nat>, free: seq<nat>, t: nat, i: nat)
    requires NoDup(q + free) && i < |q| && q[i] == t && Without(q, t) == q[..i] + q[i + 1..]
    ensures forall u :: u in Without(q, t) <==> u in q && u != t
  {
    var q', all := Without(q, t), q + free;
    forall a | 0 <= a < |q'|
      ensures q'[a] in q && q'[a] != t
    {
      var b := if a < i then a else a + 1;
      assert q'[a] == q[b] && all[b] == q[b] && all[i] == t;
    }
    forall b | 0 <= b < |q| && q[b] != t
      ensures q[b] in q'
    {
      assert q[b] == q'[if b < i then b else b - 1];
    }
  }

  lemma DismissList(s: State, t: nat)
    requires Core(s) && t in s.live && s.tcbs[t].prio != IDLE_PRIO
    requires s.tcbs[t].event.Some? ==> s.tcbs[t].event.value < |s.events|
    ensures s.tcbs[t].prio < PRIOS && ListOk(Dismiss(s, t))
  {
    assert TaskOk(s, t);
    MoveToFree(s.list, s.tcbFree, t);
  }

  lemma DismissTasks(s: State, t: nat)
    requires Core(s) && t in s.live && s.tcbs[t].prio != IDLE_PRIO && s.tcbs[t].owns == None
    requires s.tcbs[t].event.Some? ==> s.tcbs[t].event.value < |s.events|
    ensures s.tcbs[t].prio < PRIOS
    ensures var s' := Dismiss(s, t); Shape(s') && TasksOk(s') && ReadyOk(s') && WaitersOk(s')
  {
    assert TaskOk(s, t);
    var s' := Dismiss(s, t);
    var p0 := s.tcbs[t].prio;
    forall u | u in s'.live
      ensures TaskOk(s', u)
    {
      assert TaskOk(s, u);
    }
    forall p | p in s'.rdy
      ensures TaskAt(s', p)
    {
      assert TaskAt(s, p);
    }
    forall f, p | 0 <= f < |s'.events| && p in s'.events[f].wait
      ensures TaskAt(s', p) && s'.tcbs[s'.prioTbl[p].t].event == Some(f)
    {
      assert p in s.events[f].wait && TaskAt(s, p);
      assert p != p0;
    }
  }

  lemma DismissSlots(s: State, t: nat)
    requires Core(s) && t in s.live && s.tcbs[t].prio < IDLE_PRIO && s.tcbs[t].owns == None
    requires s.tcbs[t].event.Some? ==> s.tcbs[t].event.value < |s.events|
    ensures SlotsOk(Dismiss(s, t)) && EventsOk(Dismiss(s, t))
  {
    assert TaskOk(s, t);
    var s' := Dismiss(s, t);
    forall p | 0 <= p < PRIOS
      ensures SlotOk(s', p)
    {
      assert SlotOk(s, p);
    }
    forall f | 0 <= f < |s'.events|
      ensures EventOk(s', f)
    {
      assert EventOk(s, f);
    }
  }

  lemma DismissKeeps(s: State, t: nat)
    requires Inv(s) && t in s.live && s.tcbs[t].prio != IDLE_PRIO && s.tcbs[t].owns == None
    requires s.running && t == s.cur ==> s.nesting == 0 && s.lock == 0
    ensures s.tcbs[t].prio < PRIOS && (s.tcbs[t].event.Some? ==> s.tcbs[t].event.value < |s.events|)
    ensures Core(Dismiss(s, t)) && SchedOk(Dismiss(s, t))
    ensures !s.running ==> RunOk(Dismiss(s, t))
  {
    DismissCore(s, t);
    assert TaskOk(s, t);
    if s.running {
      assert TaskOk(s, s.cur);
    }
  }

  lemma DismissCore(s: State, t: nat)
    requires Core(s) && t in s.live && s.tcbs[t].prio != IDLE_PRIO && s.tcbs[t].owns == None
    ensures s.tcbs[t].prio < PRIOS && (s.tcbs[t].event.Some? ==> s.tcbs[t].event.value < |s.events|)
    ensures Core(Dismiss(s, t))
  {
    assert TaskOk(s, t);
    var s' := Dismiss(s, t);
    DismissList(s, t);
    DismissTasks(s, t);
    DismissSlots(s, t);
    forall f | 0 <= f < |s'.events|
      ensures f in s'.evFree <==> s'.events[f].body.Unused?
    {
      assert s'.events[f].body == s.events[f].body;
    }
    forall f: nat, g: nat | HasCeiling(s', f) && HasCeiling(s', g) && f != g
      ensures s'.events[f].body.pcp != s'.events[g].body.pcp
    {
      assert HasCeiling(s, f) && HasCeiling(s, g);
    }
  }

  // A mutex owner is not deleted.
  ghost predicate CanDelete(s: State, prio: nat) {
    && s.cur < |s.tcbs| && |s.prioTbl| == PRIOS
    && (prio == PRIO_SELF ==> s.running && s.tcbs[s.cur].prio != IDLE_PRIO)
    && Named(s, prio) < PRIOS
    && (NamesTask(s, Named(s, prio)) ==>
          var t := s.prioTbl[Named(s, prio)].t; t < |s.tcbs| && s.tcbs[t].owns == None)
  }

  // The running task deletes itself only with the scheduler unlocked.
  ghost predicate MayDelete(s: State, prio: nat) {
    && CanDelete(s, prio)
    && (s.running && s.prioTbl[Named(s, prio)] == Task(s.cur) ==> s.lock == 0)
  }

  ghost function TaskDel(s: State, prio: nat): Reply
    requires Inv(s) && CanDelete(s, prio)
  {
    var p := Named(s, prio);
    if s.nesting > 0 then Reply(s, ErrTaskDelIsr, 0)
    else if prio == IDLE_PRIO then Reply(s, ErrTaskDelIdle, 0)
    else
      match s.prioTbl[p]
      case Vacant => Reply(s, ErrTaskNotExist, 0)
      case Reserved => Reply(s, ErrTaskDel, 0)
      case Task(t) =>
        assert SlotOk(s, p);
        DismissCore(s, t);
        var s1 := Dismiss(s, t);
        Reply(if s.running then Sched(s1) else s1, ErrNone, 0)
  }

  lemma TaskDelKeeps(s: State, prio: nat)
    requires Inv(s) && MayDelete(s, prio)
    ensures Inv(TaskDel(s, prio).s)
    ensures Optimal(s) ==> Optimal(TaskDel(s, prio).s)
  {
    var p := Named(s, prio);
    if s.nesting == 0 && prio != IDLE_PRIO && s.prioTbl[p].Task? {
      assert SlotOk(s, p);
      var s1 := Dismiss(s, s.prioTbl[p].t);
      DismissKeeps(s, s.prioTbl[p].t);
      SchedKeeps(s1);
      assert TaskDel(s, prio).s == if s.running then Sched(s1) else s1;
    }
  }
}
