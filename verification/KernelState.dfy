/** The kernel's data as one value, and the invariant that every service keeps.
    Priority bitmaps appear here as sets of priorities; PrioBitmap and Kernel tie them to the bytes. */
module KernelState {
  import opened PrioSets

  const PRIOS := 64
  const IDLE_PRIO := 63
  const PRIO_SELF := 255
  // No ceiling in the upper byte, or no owner in the lower byte, of a mutex count.
  const CEIL_DIS := 255
  const AVAILABLE := 255
  const SEM_MAX := 65535
  // Delays and timer signals are counted in 32-bit words.
  const WORD := 0x1_0000_0000

  // The bits of a task's status byte; SEM..MUTEX are the "pending on" bits and also name the event kinds.
  datatype StatBit = SEM | MBOX | Q | MUTEX | SUSPEND

  const PEND_ANY := {SEM, MBOX, Q, MUTEX}

  datatype PendStat = PendOk | PendTimeout | PendAbort

  // Where a task stands in its own code: outside the blocking services, or inside
  // a pend on event `e` of kind `kind`, before the code that follows the scheduler call.
  datatype Cont = Running | Pending(e: nat, kind: StatBit)

  // `owns` names the mutex a task owns; it repeats the owner field of the mutex, seen from the task.
  datatype Tcb = Tcb(prio: nat, stat: set<StatBit>, pend: PendStat, dly: nat,
                     event: Option<nat>, msg: nat, cont: Cont, owns: Option<nat>)

  datatype Slot = Vacant | Reserved | Task(t: nat)

  // What the type, count and pointer of an event control block mean together. Message 0 is the null pointer.
  // For a mutex, `pcp` and `low` are the two bytes of the count.
  datatype Body =
    | Unused
    | Sem(cnt: nat)
    | Mbox(msg: nat)
    | Queue(data: seq<nat>, size: nat)
    | Mutex(pcp: nat, low: nat, owner: Option<nat>)

  datatype Event = Event(body: Body, wait: set<nat>)

  datatype State = State(
    tcbs: seq<Tcb>, live: set<nat>, list: seq<nat>, tcbFree: seq<nat>,
    prioTbl: seq<Slot>, rdy: set<nat>,
    events: seq<Event>, evFree: seq<nat>, qFree: nat,
    cur: nat, prioCur: nat, nesting: nat, lock: nat, running: bool)

  predicate IsKind(b: Body, kind: StatBit) {
    match kind
    case SEM => b.Sem?
    case MBOX => b.Mbox?
    case Q => b.Queue?
    case MUTEX => b.Mutex?
    case SUSPEND => false
  }

  ghost predicate NoDup(q: seq<nat>) {
    forall i, j :: 0 <= i < j < |q| ==> q[i] != q[j]
  }

  // ---------- the invariant ----------

  ghost predicate Shape(s: State) {
    && |s.prioTbl| == PRIOS
    && (forall t :: t in s.live ==> t < |s.tcbs|)
  }

  // A task's event pointer, status bits and pend status agree: it waits for nothing; or it is still pending;
  // or its wait timed out and it has not run since, in which case it is still on the wait list.
  ghost predicate WaitOk(s: State, k: Tcb) {
    match k.event
    case None =>
      && k.stat <= {SUSPEND}
      && (k.cont == Running ==> k.pend == PendOk)
      && (k.cont.Pending? ==> k.pend != PendTimeout && k.dly == 0)
    case Some(e) =>
      && e < |s.events|
      && k.cont.Pending? && k.cont.e == e
      && IsKind(s.events[e].body, k.cont.kind)
      && k.prio in s.events[e].wait
      && k.owns == None && k.prio < IDLE_PRIO
      && if k.pend == PendTimeout then k.stat <= {SUSPEND} && k.dly == 0
         else k.pend == PendOk && k.stat - {SUSPEND} == {k.cont.kind}
  }

  ghost predicate OwnOk(s: State, t: nat, k: Tcb) {
    k.owns.Some? ==>
      && k.owns.value < |s.events|
      && s.events[k.owns.value].body.Mutex?
      && s.events[k.owns.value].body.owner == Some(t)
  }

  ghost predicate TaskOk(s: State, t: nat)
    requires Shape(s) && t in s.live
  {
    var k := s.tcbs[t];
    && k.prio < PRIOS
    && s.prioTbl[k.prio] == Task(t)
    && (k.prio in s.rdy <==> k.stat == {} && k.dly == 0)
    && WaitOk(s, k)
    && OwnOk(s, t, k)
  }

  // `p` is the current priority of a live task.
  ghost predicate TaskAt(s: State, p: nat)
    requires Shape(s)
  {
    && p < PRIOS && s.prioTbl[p].Task?
    && s.prioTbl[p].t in s.live
    && s.tcbs[s.prioTbl[p].t].prio == p
  }

  // `p` is the original priority of task `t`, which runs at the ceiling of the mutex it owns.
  ghost predicate BaseSlot(s: State, t: nat, p: nat)
    requires Shape(s) && t in s.live
  {
    var k := s.tcbs[t];
    && k.owns.Some? && k.owns.value < |s.events|
    && s.events[k.owns.value].body == Mutex(k.prio, p, Some(t))
  }

  ghost predicate SlotOk(s: State, p: nat)
    requires Shape(s) && p < PRIOS
  {
    s.prioTbl[p].Task? ==>
      && s.prioTbl[p].t in s.live
      && (s.tcbs[s.prioTbl[p].t].prio == p || BaseSlot(s, s.prioTbl[p].t, p))
  }

  ghost predicate MutexOk(s: State, e: nat, pcp: nat, low: nat, owner: Option<nat>, wait: set<nat>)
    requires Shape(s)
  {
    && (pcp == CEIL_DIS || pcp < IDLE_PRIO)
    && match owner
       case None =>
         low == AVAILABLE && wait == {} && (pcp != CEIL_DIS ==> s.prioTbl[pcp] == Reserved)
       case Some(t) =>
         && t in s.live && s.tcbs[t].owns == Some(e)
         && low < IDLE_PRIO && low != pcp && s.prioTbl[low] == Task(t)
         && if s.tcbs[t].prio == low then pcp != CEIL_DIS ==> s.prioTbl[pcp] == Reserved
            else pcp != CEIL_DIS && s.tcbs[t].prio == pcp && pcp < low
  }

  ghost predicate EventOk(s: State, e: nat)
    requires Shape(s) && e < |s.events|
  {
    var wait := s.events[e].wait;
    match s.events[e].body
    case Unused => wait == {}
    case Sem(cnt) => cnt <= SEM_MAX && (cnt > 0 ==> wait == {})
    case Mbox(msg) => msg != 0 ==> wait == {}
    case Queue(data, size) => |data| <= size && (data != [] ==> wait == {})
    case Mutex(pcp, low, owner) => MutexOk(s, e, pcp, low, owner, wait)
  }

  ghost predicate TasksOk(s: State)
    requires Shape(s)
  {
    forall t :: t in s.live ==> TaskOk(s, t)
  }

  ghost predicate ReadyOk(s: State)
    requires Shape(s)
  {
    IDLE_PRIO in s.rdy && forall p :: p in s.rdy ==> TaskAt(s, p)
  }

  ghost predicate WaitersOk(s: State)
    requires Shape(s)
  {
    forall e, p :: 0 <= e < |s.events| && p in s.events[e].wait ==>
      TaskAt(s, p) && s.tcbs[s.prioTbl[p].t].event == Some(e)
  }

  ghost predicate SlotsOk(s: State)
    requires Shape(s)
  {
    forall p :: 0 <= p < PRIOS ==> SlotOk(s, p)
  }

  ghost predicate EventsOk(s: State)
    requires Shape(s)
  {
    forall e :: 0 <= e < |s.events| ==> EventOk(s, e)
  }

  ghost predicate HasCeiling(s: State, e: nat) {
    e < |s.events| && s.events[e].body.Mutex? && s.events[e].body.pcp != CEIL_DIS
  }

  ghost predicate CeilingsDistinct(s: State) {
    forall e: nat, f: nat :: HasCeiling(s, e) && HasCeiling(s, f) && e != f ==>
      s.events[e].body.pcp != s.events[f].body.pcp
  }

  // The task lists partition the task table, and the idle task is last.
  ghost predicate ListOk(s: State) {
    && NoDup(s.list + s.tcbFree)
    && (forall t :: t in s.live <==> t in s.list)
    && (forall t :: t in s.tcbFree ==> t < |s.tcbs|)
    && s.list != [] && s.list[|s.list| - 1] < |s.tcbs|
    && s.tcbs[s.list[|s.list| - 1]].prio == IDLE_PRIO
  }

  // The free list holds exactly the unused event control blocks.
  ghost predicate PoolOk(s: State) {
    && NoDup(s.evFree)
    && (forall e :: e in s.evFree ==> e < |s.events|)
    && (forall e :: 0 <= e < |s.events| ==> (e in s.evFree <==> s.events[e].body.Unused?))
  }

  // Everything but the identity of the running task.
  ghost predicate Core(s: State) {
    && Shape(s) && TasksOk(s) && ReadyOk(s) && WaitersOk(s) && SlotsOk(s)
    && EventsOk(s) && CeilingsDistinct(s) && ListOk(s) && PoolOk(s)
    && (!s.running ==> s.nesting == 0 && s.lock == 0)
  }

  // The running task is live and known by its current priority; it is ready, except that
  // an interrupt service routine may just have made it unready.
  ghost predicate RunOk(s: State) {
    s.running ==>
      && s.cur in s.live && s.cur < |s.tcbs|
      && s.prioCur == s.tcbs[s.cur].prio
      && (s.nesting == 0 || s.lock > 0 ==> s.prioCur in s.rdy)
      && (s.lock > 0 ==> s.tcbs[s.cur].cont == Running)
  }

  ghost predicate Inv(s: State) {
    Core(s) && RunOk(s)
  }

  // A scheduler call at task level with the scheduler unlocked leaves the most urgent ready task running.
  ghost predicate Optimal(s: State) {
    s.running && s.nesting == 0 && s.lock == 0 ==> IsLeast(s.rdy, s.prioCur)
  }
}
