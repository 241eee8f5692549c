/** The data in memory simulate the state machine: every legal call, made on the data, is its step. */
module Simulation {
  import opened PrioSets
  import opened KernelState
  import opened KernelRep
  import opened Primitives
  import opened EventServices
  import opened Runs
  import opened Bystanders
  import Kernel
  import RingQueue
  import QueueServices

  // The calls that use a ring.
  predicate UsesRing(c: EventCall) {
    match c
    case CreateEvent(b) => b.Queue?
    case DeleteEvent(kind, _, _) => kind == Q
    case PendOn(kind, _, _) => kind == Q
    case FinishPend => false
    case PostTo(kind, _, _, _) => kind == Q
    case AcceptFrom(kind, _) => kind == Q
    case AbortAll(kind, _, _) => kind == Q
    case SetSem(_, _) => false
    case FlushQ(_) => true
  }

  method PerformSched(k: Kernel.Kernel, c: SchedCall)
    requires k.Valid() && Inv(k.s)
    modifies k, k.rdyTbl, k.tcbTbl
    ensures k.Valid() && k.s == SchedStep(old(k.s), c)
  {
    match c {
      case IntEnterCall => k.IntEnter();
      case IntExitCall => k.IntExit();
      case LockCall => k.SchedLock();
      case UnlockCall => k.SchedUnlock();
      case StartCall => k.Start();
      case TickCall => k.TimeTick();
    }
  }

  method PerformTask(k: Kernel.Kernel, c: TaskCall)
    requires k.Valid() && Inv(k.s) && LegalTask(k.s, c)
    modifies k, k.rdyTbl, k.tcbTbl, k.prioTbl, k.eventTbl
    ensures k.Valid() && k.s == TaskStepOf(old(k.s), c).s
  {
    var err: Err;
    match c {
      case CreateTask(prio) => err := k.TaskCreate(prio);
      case DeleteTask(prio) => err := k.TaskDel(prio);
      case Suspend(prio) => err := k.TaskSuspend(prio);
      case Resume(prio) => err := k.TaskResume(prio);
      case Change(oldPrio, newPrio) => err := k.TaskChangePrio(oldPrio, newPrio);
      case Delay(ticks) => k.TimeDly(ticks);
    }
  }

  method PerformMutex(k: Kernel.Kernel, c: MutexCall)
    requires k.Valid() && Inv(k.s) && LegalMutex(k.s, c)
    modifies k, k.rdyTbl, k.tcbTbl, k.prioTbl, k.eventTbl
    ensures k.Valid() && k.s == MutexStepOf(old(k.s), c).s
  {
    match c {
      case CreateMutex(pcp) =>
        var _, _ := k.MutexCreate(pcp);
      case DeleteMutex(e, del) =>
        var _, _ := k.MutexDel(e, del);
      case LockMutex(e, timeout) =>
        var _ := k.MutexPend(e, timeout);
      case UnlockMutex(e) =>
        var _ := k.MutexPost(e);
      case TryMutex(e) =>
        var _, _ := k.MutexAccept(e);
    }
  }

  method PerformPend(k: Kernel.Kernel, kind: StatBit, e: nat, timeout: nat)
    requires k.Valid() && Inv(k.s) && MayBlock(k.s) && e < |k.s.events| && kind != MUTEX && kind != Q
    modifies k, k.rdyTbl, k.tcbTbl, k.eventTbl
    ensures k.Valid() && k.s == Pend(old(k.s), kind, e, timeout).s
  {
    if kind == SEM {
      var _ := k.SemPend(e, timeout);
    } else if kind == MBOX {
      var _, _ := k.MboxPend(e, timeout);
    }
  }

  method PerformPost(k: Kernel.Kernel, kind: StatBit, e: nat, msg: nat, opt: PostOpt)
    requires k.Valid() && Inv(k.s) && e < |k.s.events| && MayPost(kind, msg, opt) && kind != Q
    modifies k, k.rdyTbl, k.tcbTbl, k.eventTbl
    ensures k.Valid() && k.s == Post(old(k.s), kind, e, msg, opt).s
  {
    if kind == SEM {
      var _ := k.SemPost(e);
    } else {
      var _ := k.MboxPostOpt(e, msg, opt);
    }
  }

  method PerformCreate(k: Kernel.Kernel, b: Body)
    requires k.Valid() && Inv(k.s) && NewBody(b) && !b.Queue?
    modifies k, k.eventTbl
    ensures k.Valid() && (old(k.s).evFree != [] ==> old(k.s).evFree[0] < |old(k.s).events|)
    ensures k.s == Create(old(k.s), b).s
  {
    if b.Sem? {
      var _ := k.SemCreate(b.cnt);
    } else {
      var _ := k.MboxCreate(b.msg);
    }
  }

  // Semaphore and mailbox calls, and the second half of every pend.
  method PerformEvent(k: Kernel.Kernel, c: EventCall, at: Cont)
    requires k.Valid() && Inv(k.s) && LegalEvent(k.s, c) && !UsesRing(c)
    requires c == FinishPend ==> k.s.tcbs[k.s.cur].cont == at
    modifies k, k.rdyTbl, k.tcbTbl, k.eventTbl
    ensures k.Valid() && k.s == EventStepOf(old(k.s), c).s
  {
    match c {
      case CreateEvent(b) =>
        PerformCreate(k, b);
      case DeleteEvent(kind, e, del) =>
        if kind != SUSPEND {
          var _, _ := k.Del(kind, e, del);
        }
      case PendOn(kind, e, timeout) =>
        PerformPend(k, kind, e, timeout);
      case FinishPend =>
        var _, _ := k.PendResume(at.e, at.kind);
      case PostTo(kind, e, msg, opt) =>
        PerformPost(k, kind, e, msg, opt);
      case AcceptFrom(kind, e) =>
        if kind == SEM {
          var _ := k.SemAccept(e);
        } else if kind == MBOX {
          var _ := k.MboxAccept(e);
        }
      case AbortAll(kind, e, all) =>
        if kind != SUSPEND {
          var _, _ := k.PendAbort(kind, e, all);
        }
      case SetSem(e, cnt) =>
        var _ := k.SemSet(e, cnt);
    }
  }

  method PerformQueue(k: Kernel.Kernel, c: EventCall, q: RingQueue.Queue)
    requires k.Valid() && Inv(k.s) && LegalEvent(k.s, c) && UsesRing(c) && !c.CreateEvent?
    requires QueueServices.RingOf(k, c.e, q)
    modifies k, k.rdyTbl, k.tcbTbl, k.eventTbl, q, q.start
    ensures k.Valid() && k.s == EventStepOf(old(k.s), c).s && QueueServices.RingOf(k, c.e, q)
  {
    match c {
      case DeleteEvent(kind, e, del) =>
        var _, _ := QueueServices.QDel(k, e, q, del);
      case PendOn(kind, e, timeout) =>
        var _, _ := QueueServices.QPend(k, e, q, timeout);
      case PostTo(kind, e, msg, opt) =>
        var _ := QueueServices.QPostOpt(k, e, q, msg, opt);
      case AcceptFrom(kind, e) =>
        var _, _ := QueueServices.QAccept(k, e, q);
      case AbortAll(kind, e, all) =>
        var _, _ := QueueServices.QPendAbort(k, e, q, all);
      case FlushQ(e) =>
        QueueServices.QFlush(k, e, q);
    }
  }

  // ---------- all rings ----------

  ghost function Memory(rings: map<nat, RingQueue.Queue>): set<object> {
    (set e | e in rings :: rings[e] as object) + (set e | e in rings :: rings[e].start as object)
  }

  // No two rings share memory with each other or with the kernel.
  ghost predicate Separate(k: Kernel.Kernel, rings: map<nat, RingQueue.Queue>) {
    && (forall e :: e in rings ==> QueueServices.Beside(k, rings[e]))
    && (forall e, f :: e in rings && f in rings ==>
          && rings[e] as object != rings[f].start as object
          && (e != f ==> rings[e] != rings[f] && rings[e].start != rings[f].start))
  }

  // Every live queue has a ring, which holds what the queue holds.
  ghost predicate RingsHold(rings: map<nat, RingQueue.Queue>, events: seq<Event>)
    reads Memory(rings)
  {
    && (forall e :: e in rings ==> e < |events| && rings[e].Valid() && rings[e].Contents() == events[e].body)
    && (forall e :: 0 <= e < |events| && events[e].body.Queue? ==> e in rings)
  }

  ghost predicate AllRings(k: Kernel.Kernel, rings: map<nat, RingQueue.Queue>)
    reads k, Memory(rings)
  {
    Separate(k, rings) && RingsHold(rings, k.s.events)
  }

  lemma RingsStillHold(rings: map<nat, RingQueue.Queue>, s: State, s': State)
    requires RingsHold(rings, s.events) && QueuesKept(s, s', -1)
    ensures RingsHold(rings, s'.events)
  {
  }

  method AdvanceSched(k: Kernel.Kernel, rings: map<nat, RingQueue.Queue>, c: SchedCall)
    requires k.Valid() && Inv(k.s) && AllRings(k, rings)
    modifies k, k.rdyTbl, k.tcbTbl
    ensures k.Valid() && k.s == SchedStep(old(k.s), c) && AllRings(k, rings)
  {
    SchedStepQueues(k.s, c);
    PerformSched(k, c);
    RingsStillHold(rings, old(k.s), k.s);
  }

  method AdvanceTask(k: Kernel.Kernel, rings: map<nat, RingQueue.Queue>, c: TaskCall)
    requires k.Valid() && Inv(k.s) && LegalTask(k.s, c) && AllRings(k, rings)
    modifies k, k.rdyTbl, k.tcbTbl, k.prioTbl, k.eventTbl
    ensures k.Valid() && k.s == TaskStepOf(old(k.s), c).s && AllRings(k, rings)
  {
    TaskStepQueues(k.s, c);
    PerformTask(k, c);
    RingsStillHold(rings, old(k.s), k.s);
  }

  method AdvanceMutex(k: Kernel.Kernel, rings: map<nat, RingQueue.Queue>, c: MutexCall)
    requires k.Valid() && Inv(k.s) && LegalMutex(k.s, c) && AllRings(k, rings)
    modifies k, k.rdyTbl, k.tcbTbl, k.prioTbl, k.eventTbl
    ensures k.Valid() && k.s == MutexStepOf(old(k.s), c).s && AllRings(k, rings)
  {
    MutexStepQueues(k.s, c);
    PerformMutex(k, c);
    RingsStillHold(rings, old(k.s), k.s);
  }

  method AdvanceEvent(k: Kernel.Kernel, rings: map<nat, RingQueue.Queue>, c: EventCall, at: Cont)
    requires k.Valid() && Inv(k.s) && LegalEvent(k.s, c) && !UsesRing(c) && AllRings(k, rings)
    requires c == FinishPend ==> k.s.tcbs[k.s.cur].cont == at
    modifies k, k.rdyTbl, k.tcbTbl, k.eventTbl
    ensures k.Valid() && k.s == EventStepOf(old(k.s), c).s && AllRings(k, rings)
  {
    EventStepQueues(k.s, c);
    PerformEvent(k, c, at);
    RingsStillHold(rings, old(k.s), k.s);
  }

  // The ring of event `e` may have changed, the others have not.
  lemma OneRingMoved(rings: map<nat, RingQueue.Queue>, s: State, s': State, e: nat)
    requires e in rings && e < |s.events| && QueuesKept(s, s', e) && |s'.events| == |s.events|
    requires forall f :: f in rings ==> f < |s.events|
    requires forall f :: 0 <= f < |s.events| && s.events[f].body.Queue? ==> f in rings
    requires forall f :: f in rings && f != e ==> rings[f].Valid() && rings[f].Contents() == s.events[f].body
    requires rings[e].Valid() && (s'.events[e].body.Queue? ==> s'.events[e].body == rings[e].Contents())
    ensures RingsHold(if s'.events[e].body.Queue? then rings else rings - {e}, s'.events)
  {
  }

  lemma FewerRings(k: Kernel.Kernel, rings: map<nat, RingQueue.Queue>, e: nat)
    requires Separate(k, rings)
    ensures Separate(k, rings - {e}) && Memory(rings - {e}) <= Memory(rings)
  {
  }

  // A call on a queue; a deleted one no longer has a ring.
  method AdvanceQueue(k: Kernel.Kernel, rings: map<nat, RingQueue.Queue>, c: EventCall) returns (rings': map<nat, RingQueue.Queue>)
    requires k.Valid() && Inv(k.s) && LegalEvent(k.s, c) && UsesRing(c) && !c.CreateEvent? && AllRings(k, rings)
    requires c.e in rings
    modifies k, k.rdyTbl, k.tcbTbl, k.eventTbl, Memory(rings)
    ensures k.Valid() && k.s == EventStepOf(old(k.s), c).s && AllRings(k, rings') && Memory(rings') <= Memory(rings)
  {
    FewerRings(k, rings, c.e);
    EventStepQueues(k.s, c);
    var still := OnRing(k, rings, c);
    rings' := if still then rings else rings - {c.e};
  }

  method OnRing(k: Kernel.Kernel, rings: map<nat, RingQueue.Queue>, c: EventCall) returns (still: bool)
    requires k.Valid() && Inv(k.s) && LegalEvent(k.s, c) && UsesRing(c) && !c.CreateEvent? && AllRings(k, rings)
    requires c.e in rings && QueuesKept(k.s, EventStepOf(k.s, c).s, c.e)
    modifies k, k.rdyTbl, k.tcbTbl, k.eventTbl, rings[c.e], rings[c.e].start
    ensures k.Valid() && k.s == EventStepOf(old(k.s), c).s
    ensures RingsHold(if still then rings else rings - {c.e}, k.s.events)
  {
    PerformQueue(k, c, rings[c.e]);
    OneRingMoved(rings, old(k.s), k.s, c.e);
    assert EventRep(k.eventTbl[c.e], k.s.events[c.e]);
    still := k.eventTbl[c.e].kind == TypeQ;
  }

  // The event is no queue: the service finds that out before it looks at a ring, and returns.
  lemma WrongTypeChangesNothing(s: State, c: EventCall)
    requires Inv(s) && LegalEvent(s, c) && UsesRing(c) && !c.CreateEvent? && !s.events[c.e].body.Queue?
    ensures EventStepOf(s, c).s == s
  {
  }

  lemma MoreRings(k: Kernel.Kernel, rings: map<nat, RingQueue.Queue>, e: nat, q: RingQueue.Queue)
    requires Separate(k, rings) && QueueServices.Beside(k, q) && q as object != q.start as object
    requires forall f :: f in rings ==> rings[f] != q && rings[f].start != q.start
                                        && rings[f] as object != q.start as object && rings[f].start as object != q as object
    ensures Separate(k, rings[e := q]) && Memory(rings[e := q]) <= Memory(rings) + {q, q.start}
  {
  }

  lemma RingAdded(rings: map<nat, RingQueue.Queue>, s: State, s': State, e: nat, q: RingQueue.Queue)
    requires RingsHold(rings, s.events) && QueuesKept(s, s', e) && e < |s'.events|
    requires q.Valid() && s'.events[e].body == q.Contents()
    ensures RingsHold(rings[e := q], s'.events)
  {
  }

  // Storage that neither the kernel nor a ring uses.
  ghost predicate Spare(k: Kernel.Kernel, rings: map<nat, RingQueue.Queue>, cells: array<nat>) {
    && cells as object != k && cells as object != k.rdyTbl && cells as object != k.tcbTbl
    && cells as object != k.prioTbl && cells as object != k.eventTbl
    && forall f :: f in rings ==> rings[f].start != cells && rings[f] as object != cells as object
  }

  method CreateRing(k: Kernel.Kernel, rings: map<nat, RingQueue.Queue>, cells: array<nat>)
      returns (e: Option<nat>, q: RingQueue.Queue)
    requires k.Valid() && Inv(k.s) && AllRings(k, rings) && Spare(k, rings, cells)
    modifies k, k.eventTbl
    ensures k.Valid() && (old(k.s).evFree != [] ==> old(k.s).evFree[0] < |old(k.s).events|)
    ensures k.s == Create(old(k.s), Queue([], cells.Length)).s && fresh(q) && q.start == cells
    ensures RingsHold(if e.Some? then rings[e.value := q] else rings, k.s.events)
  {
    CreateQueues(k.s, Queue([], cells.Length));
    e, q := QueueServices.QCreate(k, cells);
    if e.Some? {
      RingAdded(rings, old(k.s), k.s, e.value, q);
    } else {
      RingsStillHold(rings, old(k.s), k.s);
    }
  }

  method AddRing(k: Kernel.Kernel, rings: map<nat, RingQueue.Queue>, cells: array<nat>)
      returns (rings': map<nat, RingQueue.Queue>, q: RingQueue.Queue)
    requires k.Valid() && Inv(k.s) && AllRings(k, rings) && Spare(k, rings, cells)
    modifies k, k.eventTbl
    ensures k.Valid() && (old(k.s).evFree != [] ==> old(k.s).evFree[0] < |old(k.s).events|)
    ensures k.s == Create(old(k.s), Queue([], cells.Length)).s && AllRings(k, rings')
    ensures fresh(q) && Memory(rings') <= Memory(rings) + {q, cells}
  {
    var e;
    e, q := CreateRing(k, rings, cells);
    rings' := rings;
    if e.Some? {
      MoreRings(k, rings, e.value, q);
      rings' := rings[e.value := q];
    }
  }

  method NewCells(k: Kernel.Kernel, rings: map<nat, RingQueue.Queue>, size: nat) returns (cells: array<nat>)
    ensures fresh(cells) && cells.Length == size && Spare(k, rings, cells)
  {
    cells := new nat[size];
  }

  method AdvanceCreate(k: Kernel.Kernel, rings: map<nat, RingQueue.Queue>, size: nat)
      returns (rings': map<nat, RingQueue.Queue>, ghost added: set<object>)
    requires k.Valid() && Inv(k.s) && AllRings(k, rings)
    modifies k, k.eventTbl
    ensures k.Valid() && (old(k.s).evFree != [] ==> old(k.s).evFree[0] < |old(k.s).events|)
    ensures k.s == Create(old(k.s), Queue([], size)).s && AllRings(k, rings')
    ensures fresh(added) && Memory(rings') <= Memory(rings) + added
  {
    var cells := NewCells(k, rings, size);
    var q;
    rings', q := AddRing(k, rings, cells);
    added := {q, cells};
  }

  // Queue calls: a creation brings new storage, and a call on an event that is no queue returns at once.
  method AdvanceRings(k: Kernel.Kernel, rings: map<nat, RingQueue.Queue>, c: EventCall)
      returns (rings': map<nat, RingQueue.Queue>, ghost added: set<object>)
    requires k.Valid() && Inv(k.s) && LegalEvent(k.s, c) && UsesRing(c) && AllRings(k, rings)
    modifies k, k.rdyTbl, k.tcbTbl, k.eventTbl, Memory(rings)
    ensures k.Valid() && k.s == EventStepOf(old(k.s), c).s && AllRings(k, rings')
    ensures fresh(added) && Memory(rings') <= Memory(rings) + added
  {
    if c.CreateEvent? {
      rings', added := AdvanceCreate(k, rings, c.body.size);
    } else if c.e in rings {
      rings' := AdvanceQueue(k, rings, c);
      added := {};
    } else {
      WrongTypeChangesNothing(k.s, c);
      rings', added := rings, {};
    }
  }

  // Every legal call on the data is the step of the state machine, and leaves every live queue with its ring.
  method Advance(k: Kernel.Kernel, rings: map<nat, RingQueue.Queue>, op: Op, at: Cont)
      returns (rings': map<nat, RingQueue.Queue>, ghost added: set<object>)
    requires k.Valid() && Legal(k.s, op) && AllRings(k, rings)
    requires InPend(k.s) ==> k.s.tcbs[k.s.cur].cont == at
    modifies k, k.rdyTbl, k.tcbTbl, k.prioTbl, k.eventTbl, Memory(rings)
    ensures k.Valid() && k.s == Step(old(k.s), op).s && AllRings(k, rings')
    ensures fresh(added) && Memory(rings') <= Memory(rings) + added
  {
    rings', added := rings, {};
    match op {
      case OfSched(c) => AdvanceSched(k, rings, c);
      case OfTask(c) => AdvanceTask(k, rings, c);
      case OfMutex(c) => AdvanceMutex(k, rings, c);
      case OfEvent(c) =>
        if UsesRing(c) {
          rings', added := AdvanceRings(k, rings, c);
        } else {
          AdvanceEvent(k, rings, c, at);
        }
    }
  }

  // Along the run, `ats` says where the running task stands in its own code.
  ghost predicate Known(s: State, ops: seq<Op>, ats: seq<Cont>)
    requires LegalRun(s, ops)
    decreases |ops|
  {
    && |ats| == |ops|
    && (ops != [] ==>
          && (InPend(s) ==> s.tcbs[s.cur].cont == ats[0])
          && Known(Step(s, ops[0]).s, ops[1..], ats[1..]))
  }

  // Every legal run of calls, made on bitmaps, tables, linked lists and rings, ends in data that stand for the state
  // the run ends in, so that all that is proved about runs holds of the data.
  method PerformRun(k: Kernel.Kernel, rings: map<nat, RingQueue.Queue>, ops: seq<Op>, ats: seq<Cont>)
      returns (rings': map<nat, RingQueue.Queue>)
    requires k.Valid() && LegalRun(k.s, ops) && Known(k.s, ops, ats) && AllRings(k, rings)
    modifies k, k.rdyTbl, k.tcbTbl, k.prioTbl, k.eventTbl, Memory(rings)
    ensures k.Valid() && LegalRun(old(k.s), ops) && k.s == Final(old(k.s), ops) && AllRings(k, rings')
    decreases |ops|
  {
    rings' := rings;
    if ops != [] {
      ghost var added;
      rings', added := Advance(k, rings, ops[0], ats[0]);
      rings' := PerformRun(k, rings', ops[1..], ats[1..]);
    }
  }
}
