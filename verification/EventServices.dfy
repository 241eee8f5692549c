/** Semaphores, mailboxes and queues. The three services share their text up to what the event holds,
    so one function models each operation, with the kind of event as a parameter. */
module EventServices {
  import opened PrioSets
  import opened KernelState
  import opened Primitives

  datatype Err =
    | ErrNone | ErrBlocked
    | ErrEventType | ErrPendIsr | ErrPendLocked | ErrTimeout | ErrPendAbort
    | ErrSemOvf | ErrMboxFull | ErrQFull | ErrQEmpty
    | ErrPcpLower | ErrNotMutexOwner | ErrPostIsr
    | ErrTaskWaiting | ErrInvalidOpt | ErrDelIsr | ErrCreateIsr | ErrNoEvent
    | ErrPrioExist | ErrPrio | ErrTaskNotExist | ErrTaskNoMoreTcb | ErrTaskCreateIsr
    | ErrTaskDel | ErrTaskDelIdle | ErrTaskDelIsr
    | ErrTaskResumePrio | ErrTaskNotSuspended | ErrTaskSuspendPrio
    | ErrTimeDlyIsr | ErrSchedLocked

  // The new state, the error code and the value returned (a message, a count or an event number).
  // ErrBlocked says that the call has not returned yet.
  datatype Reply = Reply(s: State, err: Err, val: nat)

  // ---------- what an event holds ----------

  // What a pend or an accept can take without waiting.
  predicate Available(b: Body) {
    match b
    case Sem(cnt) => cnt > 0
    case Mbox(msg) => msg != 0
    case Queue(data, _) => data != []
    case _ => false
  }

  function Taken(b: Body): nat
    requires Available(b)
  {
    match b
    case Sem(cnt) => cnt
    case Mbox(msg) => msg
    case Queue(data, _) => data[0]
  }

  function AfterTake(b: Body): Body
    requires Available(b)
  {
    match b
    case Sem(cnt) => Sem(cnt - 1)
    case Mbox(_) => Mbox(0)
    case Queue(data, size) => Queue(data[1..], size)
  }

  predicate Full(b: Body) {
    match b
    case Sem(cnt) => cnt >= SEM_MAX
    case Mbox(msg) => msg != 0
    case Queue(data, size) => |data| >= size
    case _ => true
  }

  function AfterPut(b: Body, msg: nat, front: bool): Body
    requires !Full(b)
  {
    match b
    case Sem(cnt) => Sem(cnt + 1)
    case Mbox(_) => Mbox(msg)
    case Queue(data, size) => Queue(if front then [msg] + data else data + [msg], size)
  }

  function FullError(kind: StatBit): Err {
    match kind
    case SEM => ErrSemOvf
    case MBOX => ErrMboxFull
    case _ => ErrQFull
  }

  // ---------- pend ----------

  // The documented rules for a caller that may block: it runs as a task, is not the idle task, and owns no mutex.
  ghost predicate MayBlock(s: State) {
    && s.running && s.cur in s.live && s.cur < |s.tcbs|
    && (s.nesting == 0 ==> s.tcbs[s.cur].cont == Running && s.prioCur != IDLE_PRIO && s.tcbs[s.cur].owns == None)
  }

  // The first half of a pend, up to and including the scheduler call.
  ghost function Pend(s: State, kind: StatBit, e: nat, timeout: nat): Reply
    requires Inv(s) && MayBlock(s) && e < |s.events| && kind != MUTEX
  {
    var b := s.events[e].body;
    if !IsKind(b, kind) then Reply(s, ErrEventType, 0)
    else if s.nesting > 0 then Reply(s, ErrPendIsr, 0)
    else if s.lock > 0 then Reply(s, ErrPendLocked, 0)
    else if Available(b) then Reply(SetBody(s, e, AfterTake(b)), ErrNone, Taken(b))
    else
      BlockKeeps(s, e, kind, timeout);
      Reply(Sched(Block(s, e, kind, timeout)), ErrBlocked, 0)
  }

  lemma PendKeeps(s: State, kind: StatBit, e: nat, timeout: nat)
    requires Inv(s) && MayBlock(s) && e < |s.events| && kind != MUTEX
    ensures Inv(Pend(s, kind, e, timeout).s)
    ensures Optimal(s) ==> Optimal(Pend(s, kind, e, timeout).s)
    ensures Pend(s, kind, e, timeout).err == ErrBlocked ==> Optimal(Pend(s, kind, e, timeout).s)
  {
    var r := Pend(s, kind, e, timeout);
    if r.err == ErrNone {
      assert EventOk(s, e);
      SetBodyKeeps(s, e, AfterTake(s.events[e].body), kind);
    } else if r.err == ErrBlocked {
      BlockKeeps(s, e, kind, timeout);
      SchedKeeps(Block(s, e, kind, timeout));
    }
  }

  // The second half of a pend: the task runs again and finds out why it stopped waiting.
  predicate InPend(s: State) {
    s.running && s.nesting == 0 && s.cur < |s.tcbs| && s.tcbs[s.cur].cont.Pending?
  }

  function Outcome(pend: PendStat): Err {
    match pend
    case PendOk => ErrNone
    case PendAbort => ErrPendAbort
    case PendTimeout => ErrTimeout
  }

  predicate CarriesMessage(kind: StatBit) {
    kind == MBOX || kind == Q
  }

  ghost function PendFinish(s: State): Reply
    requires Inv(s) && InPend(s)
  {
    var k := s.tcbs[s.cur];
    assert TaskOk(s, s.cur);
    var s1 := if k.pend == PendTimeout then SetWait(s, k.cont.e, s.events[k.cont.e].wait - {k.prio}) else s;
    Reply(SetTcb(s1, s.cur, k.(stat := {}, pend := PendOk, event := None, cont := Running,
                               msg := if CarriesMessage(k.cont.kind) then 0 else k.msg)),
          Outcome(k.pend),
          if CarriesMessage(k.cont.kind) && k.pend == PendOk then k.msg else 0)
  }

  lemma PendFinishKeeps(s: State)
    requires Inv(s) && InPend(s)
    ensures Inv(PendFinish(s).s)
    ensures Optimal(s) ==> Optimal(PendFinish(s).s)
  {
    var k := s.tcbs[s.cur];
    var e := k.cont.e;
    assert TaskOk(s, s.cur);
    assert e < |s.events| ==> EventOk(s, e);
    TaskStepKeeps(s, PendFinish(s).s, s.cur, e);
  }

  // ---------- post ----------

  datatype PostOpt = PostOpt(broadcast: bool, front: bool, noSched: bool)

  // A semaphore post has no message and no options. A null message cannot be told from an empty mailbox,
  // and the documentation forbids it.
  predicate MayPost(kind: StatBit, msg: nat, opt: PostOpt) {
    (kind == SEM && msg == 0 && opt == PostOpt(false, false, false)) || kind == Q || (kind == MBOX && msg != 0)
  }

  ghost function WakeSome(s: State, kind: StatBit, e: nat, msg: nat, pend: PendStat, all: bool): State
    requires Core(s) && e < |s.events| && s.events[e].wait != {} && IsKind(s.events[e].body, kind) && pend != PendTimeout
  {
    WakeKeeps(s, e, msg, kind, pend);
    if all then WakeAll(s, e, msg, kind, pend) else Wake(s, e, msg, kind, pend)
  }

  lemma WakeSomeKeeps(s: State, kind: StatBit, e: nat, msg: nat, pend: PendStat, all: bool)
    requires Inv(s) && e < |s.events| && s.events[e].wait != {} && IsKind(s.events[e].body, kind) && pend != PendTimeout
    ensures Inv(WakeSome(s, kind, e, msg, pend, all))
  {
    if all {
      WakeAllKeeps(s, e, msg, kind, pend);
    } else {
      WakeKeeps(s, e, msg, kind, pend);
    }
  }

  ghost function Post(s: State, kind: StatBit, e: nat, msg: nat, opt: PostOpt): Reply
    requires Inv(s) && e < |s.events| && MayPost(kind, msg, opt)
  {
    var b := s.events[e].body;
    if !IsKind(b, kind) then Reply(s, ErrEventType, 0)
    else if s.events[e].wait != {} then
      WakeSomeKeeps(s, kind, e, msg, PendOk, opt.broadcast);
      var s1 := WakeSome(s, kind, e, msg, PendOk, opt.broadcast);
      Reply(if opt.noSched then s1 else Sched(s1), ErrNone, 0)
    else if Full(b) then Reply(s, FullError(kind), 0)
    else Reply(SetBody(s, e, AfterPut(b, msg, opt.front)), ErrNone, 0)
  }

  lemma PostKeeps(s: State, kind: StatBit, e: nat, msg: nat, opt: PostOpt)
    requires Inv(s) && e < |s.events| && MayPost(kind, msg, opt)
    ensures Inv(Post(s, kind, e, msg, opt).s)
    ensures Optimal(s) && !(opt.noSched && s.events[e].wait != {}) ==> Optimal(Post(s, kind, e, msg, opt).s)
  {
    var b := s.events[e].body;
    if IsKind(b, kind) {
      if s.events[e].wait != {} {
        WakeSomeKeeps(s, kind, e, msg, PendOk, opt.broadcast);
        SchedKeeps(WakeSome(s, kind, e, msg, PendOk, opt.broadcast));
      } else if !Full(b) {
        assert EventOk(s, e);
        SetBodyKeeps(s, e, AfterPut(b, msg, opt.front), kind);
      }
    }
  }

  // ---------- accept, abort, set, flush ----------

  // Returns the semaphore's count before the call, or the message, or 0.
  function Accept(s: State, kind: StatBit, e: nat): Reply
    requires e < |s.events|
  {
    var b := s.events[e].body;
    if !IsKind(b, kind) then Reply(s, ErrEventType, 0)
    else if Available(b) then Reply(SetBody(s, e, AfterTake(b)), ErrNone, Taken(b))
    else Reply(s, if kind == Q then ErrQEmpty else ErrNone, 0)
  }

  lemma AcceptKeeps(s: State, kind: StatBit, e: nat)
    requires Inv(s) && e < |s.events| && kind != MUTEX
    ensures Inv(Accept(s, kind, e).s)
    ensures Optimal(s) ==> Optimal(Accept(s, kind, e).s)
  {
    if IsKind(s.events[e].body, kind) && Available(s.events[e].body) {
      assert EventOk(s, e);
      SetBodyKeeps(s, e, AfterTake(s.events[e].body), kind);
    }
  }

  // Returns the number of tasks whose wait was aborted.
  ghost function Abort(s: State, kind: StatBit, e: nat, all: bool): Reply
    requires Inv(s) && e < |s.events| && kind != MUTEX
  {
    if !IsKind(s.events[e].body, kind) then Reply(s, ErrEventType, 0)
    else if s.events[e].wait != {} then
      WakeSomeKeeps(s, kind, e, 0, PendAbort, all);
      Reply(Sched(WakeSome(s, kind, e, 0, PendAbort, all)), ErrPendAbort, if all then |s.events[e].wait| else 1)
    else Reply(s, ErrNone, 0)
  }

  lemma AbortKeeps(s: State, kind: StatBit, e: nat, all: bool)
    requires Inv(s) && e < |s.events| && kind != MUTEX
    ensures Inv(Abort(s, kind, e, all).s)
    ensures Optimal(s) ==> Optimal(Abort(s, kind, e, all).s)
  {
    if IsKind(s.events[e].body, kind) && s.events[e].wait != {} {
      WakeSomeKeeps(s, kind, e, 0, PendAbort, all);
      SchedKeeps(WakeSome(s, kind, e, 0, PendAbort, all));
    }
  }

  function SemSet(s: State, e: nat, cnt: nat): Reply
    requires e < |s.events|
  {
    var b := s.events[e].body;
    if !b.Sem? then Reply(s, ErrEventType, 0)
    else if b.cnt > 0 || s.events[e].wait == {} then Reply(SetBody(s, e, Sem(cnt)), ErrNone, 0)
    else Reply(s, ErrTaskWaiting, 0)
  }

  lemma SemSetKeeps(s: State, e: nat, cnt: nat)
    requires Inv(s) && e < |s.events| && cnt <= SEM_MAX
    ensures Inv(SemSet(s, e, cnt).s)
    ensures Optimal(s) ==> Optimal(SemSet(s, e, cnt).s)
  {
    if SemSet(s, e, cnt).s != s {
      assert EventOk(s, e);
      SetBodyKeeps(s, e, Sem(cnt), SEM);
    }
  }

  // With argument checks compiled out, flushing anything but a queue is up to the caller to avoid.
  function QFlush(s: State, e: nat): Reply
    requires e < |s.events| && s.events[e].body.Queue?
  {
    Reply(SetBody(s, e, Queue([], s.events[e].body.size)), ErrNone, 0)
  }

  lemma QFlushKeeps(s: State, e: nat)
    requires Inv(s) && e < |s.events| && s.events[e].body.Queue?
    ensures Inv(QFlush(s, e).s)
    ensures Optimal(s) ==> Optimal(QFlush(s, e).s)
  {
    assert EventOk(s, e);
    SetBodyKeeps(s, e, Queue([], s.events[e].body.size), Q);
  }

  // ---------- create and delete ----------

  // A queue also needs a free queue control block; without one the event block goes back.
  function Create(s: State, b: Body): Reply
    requires s.evFree != [] ==> s.evFree[0] < |s.events|
  {
    if s.nesting > 0 || s.evFree == [] || (b.Queue? && s.qFree == 0) then Reply(s, ErrNoEvent, 0)
    else
      Reply(Allocate(s, b).(qFree := if b.Queue? then s.qFree - 1 else s.qFree), ErrNone, s.evFree[0])
  }

  lemma CreateKeeps(s: State, b: Body)
    requires Inv(s) && NewBody(b)
    ensures s.evFree != [] ==> s.evFree[0] < |s.events|
    ensures Inv(Create(s, b).s)
    ensures Optimal(s) ==> Optimal(Create(s, b).s)
  {
    if s.evFree != [] {
      assert s.evFree[0] in s.evFree;
      AllocateKeeps(s, b, if b.Queue? && s.qFree > 0 then s.qFree - 1 else s.qFree);
    }
  }

  datatype DelOpt = NoPend | Always | OtherOpt

  function Release(s: State, e: nat): State
    requires e < |s.events|
  {
    Free(s, e).(qFree := if s.events[e].body.Queue? then s.qFree + 1 else s.qFree)
  }

  // All waiters leave with an abort, and the block goes back to the free list.
  ghost function Dissolve(s: State, kind: StatBit, e: nat): State
    requires Core(s) && e < |s.events| && IsKind(s.events[e].body, kind)
  {
    WakeAllKeeps(s, e, 0, kind, PendAbort);
    Release(WakeAll(s, e, 0, kind, PendAbort), e)
  }

  lemma DissolveKeeps(s: State, kind: StatBit, e: nat)
    requires Inv(s) && e < |s.events| && IsKind(s.events[e].body, kind) && kind != MUTEX
    ensures Inv(Dissolve(s, kind, e))
    ensures s.events[e].wait == {} && Optimal(s) ==> Optimal(Dissolve(s, kind, e))
  {
    WakeAllKeeps(s, e, 0, kind, PendAbort);
    var s1 := WakeAll(s, e, 0, kind, PendAbort);
    FreeKeeps(s1, e, if s1.events[e].body.Queue? then s1.qFree + 1 else s1.qFree);
  }

  ghost function Delete(s: State, kind: StatBit, e: nat, opt: DelOpt): Reply
    requires Inv(s) && e < |s.events| && kind != MUTEX
  {
    if !IsKind(s.events[e].body, kind) then Reply(s, ErrEventType, e)
    else if s.nesting > 0 then Reply(s, ErrDelIsr, e)
    else
      match opt
      case NoPend =>
        if s.events[e].wait == {} then Reply(Release(s, e), ErrNone, 0) else Reply(s, ErrTaskWaiting, e)
      case Always =>
        DissolveKeeps(s, kind, e);
        var s1 := Dissolve(s, kind, e);
        Reply(if s.events[e].wait != {} then Sched(s1) else s1, ErrNone, 0)
      case OtherOpt => Reply(s, ErrInvalidOpt, e)
  }

  lemma DeleteKeeps(s: State, kind: StatBit, e: nat, opt: DelOpt)
    requires Inv(s) && e < |s.events| && kind != MUTEX
    ensures Inv(Delete(s, kind, e, opt).s)
    ensures Optimal(s) ==> Optimal(Delete(s, kind, e, opt).s)
  {
    if IsKind(s.events[e].body, kind) && s.nesting == 0 {
      if opt == NoPend && s.events[e].wait == {} {
        FreeKeeps(s, e, if s.events[e].body.Queue? then s.qFree + 1 else s.qFree);
      } else if opt == Always {
        DissolveKeeps(s, kind, e);
        SchedKeeps(Dissolve(s, kind, e));
      }
    }
  }
}
