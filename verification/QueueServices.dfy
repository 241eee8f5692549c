/** Message queues in place: an event control block in the kernel, and the ring that its pointer leads to. */
module QueueServices {
  import opened PrioSets
  import opened KernelState
  import opened KernelRep
  import opened Primitives
  import opened EventServices
  import opened ServiceCases
  import opened Bystanders
  import Kernel
  import RingQueue

  // The ring's memory is not the kernel's.
  ghost predicate Beside(k: Kernel.Kernel, q: RingQueue.Queue) {
    && q as object != k && q as object != k.rdyTbl && q as object != k.tcbTbl && q as object != k.prioTbl
    && q as object != k.eventTbl
    && q.start as object != k && q.start as object != k.rdyTbl && q.start as object != k.tcbTbl
    && q.start as object != k.prioTbl && q.start as object != k.eventTbl
  }

  // What event `e` holds, if it is a queue, is what the ring holds.
  ghost predicate RingOf(k: Kernel.Kernel, e: nat, q: RingQueue.Queue)
    reads k, q, q.start
  {
    && Beside(k, q) && q.Valid() && e < |k.s.events|
    && (k.s.events[e].body.Queue? ==> k.s.events[e].body == q.Contents())
  }

  ghost predicate Valid(k: Kernel.Kernel, e: nat, q: RingQueue.Queue)
    reads k, k.rdyTbl, k.tcbTbl, k.prioTbl, k.eventTbl, q, q.start
  {
    k.Valid() && RingOf(k, e, q)
  }

  // The first free event block and a free queue block become a queue without messages.
  method QCreate(k: Kernel.Kernel, cells: array<nat>) returns (e: Option<nat>, q: RingQueue.Queue)
    requires k.Valid() && Inv(k.s)
    requires cells as object != k && cells as object != k.rdyTbl && cells as object != k.tcbTbl
    requires cells as object != k.prioTbl && cells as object != k.eventTbl
    modifies k, k.eventTbl
    ensures k.Valid() && (old(k.s).evFree != [] ==> old(k.s).evFree[0] < |old(k.s).events|)
    ensures var r := Create(old(k.s), Queue([], cells.Length));
            k.s == r.s && e == if r.err == ErrNone then Some(r.val) else None
    ensures fresh(q) && q.start == cells && (e.Some? ==> Valid(k, e.value, q))
  {
    e := k.QCreate(cells.Length);
    q := new RingQueue.Queue(cells);
  }

  // The ring has changed, and with it what the event holds.
  ghost method Sync(k: Kernel.Kernel, e: nat, q: RingQueue.Queue)
    requires k.Valid() && Beside(k, q) && q.Valid() && e < |k.s.events| && k.s.events[e].body.Queue?
    modifies k`s
    ensures Valid(k, e, q) && k.s == SetBody(old(k.s), e, q.Contents())
  {
    k.PutQueue(e, q.Contents());
  }

  // Nobody waits: the message goes into the ring, if there is room, and the event holds what the ring holds.
  ghost predicate Stored(s: State, s': State, e: nat, msg: nat, front: bool, full: bool)
    requires e < |s.events|
  {
    var b := s.events[e].body;
    full == Full(b) && s' == if full then s else SetBody(s, e, AfterPut(b, msg, front))
  }

  method StoreBack(k: Kernel.Kernel, e: nat, q: RingQueue.Queue, msg: nat) returns (full: bool)
    requires Valid(k, e, q) && k.s.events[e].body.Queue?
    modifies k`s, q, q.start
    ensures Valid(k, e, q) && Stored(old(k.s), k.s, e, msg, false, full)
  {
    full := q.Append(msg);
    Sync(k, e, q);
  }

  method StoreFront(k: Kernel.Kernel, e: nat, q: RingQueue.Queue, msg: nat) returns (full: bool)
    requires Valid(k, e, q) && k.s.events[e].body.Queue?
    modifies k`s, q, q.start
    ensures Valid(k, e, q) && Stored(old(k.s), k.s, e, msg, true, full)
  {
    full := q.Prepend(msg);
    Sync(k, e, q);
  }

  method Store(k: Kernel.Kernel, e: nat, q: RingQueue.Queue, msg: nat, front: bool) returns (full: bool)
    requires Valid(k, e, q) && k.s.events[e].body.Queue?
    modifies k`s, q, q.start
    ensures Valid(k, e, q) && Stored(old(k.s), k.s, e, msg, front, full)
  {
    full := q.Put(msg, front);
    Sync(k, e, q);
  }

  // ---------- posts ----------

  method QPost(k: Kernel.Kernel, e: nat, q: RingQueue.Queue, msg: nat) returns (err: Err)
    requires Valid(k, e, q) && Inv(k.s)
    modifies k, k.rdyTbl, k.tcbTbl, k.eventTbl, q, q.start
    ensures Valid(k, e, q) && Post(old(k.s), Q, e, msg, PostOpt(false, false, false)) == Reply(k.s, err, 0)
  {
    PostCases(k.s, Q, e, msg, PostOpt(false, false, false));
    var v := k.eventTbl[e];
    GroupShows(v, k.s.events[e]);
    if v.kind != TypeQ {
      err := ErrEventType;
    } else if v.grp != 0 {
      HandToWaiters(k, e, q, msg, PostOpt(false, false, false));
      err := ErrNone;
    } else {
      var full := StoreBack(k, e, q, msg);
      err := if full then ErrQFull else ErrNone;
    }
  }

  // Waiting tasks get the message directly.
  method HandToWaiters(k: Kernel.Kernel, e: nat, q: RingQueue.Queue, msg: nat, opt: PostOpt)
    requires Valid(k, e, q) && Inv(k.s) && k.s.events[e].body.Queue? && k.eventTbl[e].grp != 0
    modifies k, k.rdyTbl, k.tcbTbl, k.eventTbl
    ensures Valid(k, e, q) && k.s == Post(old(k.s), Q, e, msg, opt).s
  {
    GroupShows(k.eventTbl[e], k.s.events[e]);
    PostQueues(k.s, Q, e, msg, opt);
    k.PostToWaiters(Q, e, msg, opt);
  }

  method QPostFront(k: Kernel.Kernel, e: nat, q: RingQueue.Queue, msg: nat) returns (err: Err)
    requires Valid(k, e, q) && Inv(k.s)
    modifies k, k.rdyTbl, k.tcbTbl, k.eventTbl, q, q.start
    ensures Valid(k, e, q) && Post(old(k.s), Q, e, msg, PostOpt(false, true, false)) == Reply(k.s, err, 0)
  {
    PostCases(k.s, Q, e, msg, PostOpt(false, true, false));
    var v := k.eventTbl[e];
    GroupShows(v, k.s.events[e]);
    if v.kind != TypeQ {
      err := ErrEventType;
    } else if v.grp != 0 {
      HandToWaiters(k, e, q, msg, PostOpt(false, true, false));
      err := ErrNone;
    } else {
      var full := StoreFront(k, e, q, msg);
      err := if full then ErrQFull else ErrNone;
    }
  }

  method QPostOpt(k: Kernel.Kernel, e: nat, q: RingQueue.Queue, msg: nat, opt: PostOpt) returns (err: Err)
    requires Valid(k, e, q) && Inv(k.s)
    modifies k, k.rdyTbl, k.tcbTbl, k.eventTbl, q, q.start
    ensures Valid(k, e, q) && Post(old(k.s), Q, e, msg, opt) == Reply(k.s, err, 0)
  {
    PostCases(k.s, Q, e, msg, opt);
    var v := k.eventTbl[e];
    GroupShows(v, k.s.events[e]);
    if v.kind != TypeQ {
      err := ErrEventType;
    } else if v.grp != 0 {
      HandToWaiters(k, e, q, msg, opt);
      err := ErrNone;
    } else {
      var full := Store(k, e, q, msg, opt.front);
      err := if full then ErrQFull else ErrNone;
    }
  }

  // ---------- pends, accepts, flush ----------

  // The first half of a pend.
  method QPend(k: Kernel.Kernel, e: nat, q: RingQueue.Queue, timeout: nat) returns (err: Err, msg: nat)
    requires Valid(k, e, q) && Inv(k.s) && MayBlock(k.s)
    modifies k, k.rdyTbl, k.tcbTbl, k.eventTbl, q
    ensures Valid(k, e, q) && Pend(old(k.s), Q, e, timeout) == Reply(k.s, err, msg)
  {
    PendCases(k.s, Q, e, timeout);
    var v := k.eventTbl[e];
    assert EventRep(v, k.s.events[e]);
    err, msg := ErrNone, 0;
    if v.kind != TypeQ {
      err := ErrEventType;
    } else if k.intNesting > 0 {
      err := ErrPendIsr;
    } else if k.lockNesting > 0 {
      err := ErrPendLocked;
    } else {
      if q.entries > 0 {
        var any;
        msg, any := q.Take();
        Sync(k, e, q);
      } else {
        WaitForMessage(k, e, q, timeout);
        err := ErrBlocked;
      }
    }
  }

  // Nothing is there: the running task waits.
  method WaitForMessage(k: Kernel.Kernel, e: nat, q: RingQueue.Queue, timeout: nat)
    requires Valid(k, e, q) && Inv(k.s) && MayBlock(k.s) && Pend(k.s, Q, e, timeout).err == ErrBlocked
    modifies k, k.rdyTbl, k.tcbTbl, k.eventTbl
    ensures Valid(k, e, q) && k.s == Pend(old(k.s), Q, e, timeout).s
  {
    PendQueues(k.s, Q, e, timeout);
    k.PendAndSwitch(Q, e, timeout);
  }

  method QAccept(k: Kernel.Kernel, e: nat, q: RingQueue.Queue) returns (err: Err, msg: nat)
    requires Valid(k, e, q)
    modifies k`s, q
    ensures Valid(k, e, q) && Accept(old(k.s), Q, e) == Reply(k.s, err, msg)
  {
    var v := k.eventTbl[e];
    assert EventRep(v, k.s.events[e]);
    if v.kind != TypeQ {
      return ErrEventType, 0;
    }
    var any;
    msg, any := q.Take();
    Sync(k, e, q);
    return if any then ErrNone else ErrQEmpty, msg;
  }

  method QFlush(k: Kernel.Kernel, e: nat, q: RingQueue.Queue)
    requires Valid(k, e, q) && k.s.events[e].body.Queue?
    modifies k`s, q
    ensures Valid(k, e, q) && k.s == EventServices.QFlush(old(k.s), e).s
  {
    q.Flush();
    Sync(k, e, q);
  }

  // ---------- abort and delete ----------

  method QPendAbort(k: Kernel.Kernel, e: nat, q: RingQueue.Queue, all: bool) returns (err: Err, count: nat)
    requires Valid(k, e, q) && Inv(k.s)
    modifies k, k.rdyTbl, k.tcbTbl, k.eventTbl
    ensures Valid(k, e, q) && Abort(old(k.s), Q, e, all) == Reply(k.s, err, count)
  {
    AbortQueues(k.s, Q, e, all);
    err, count := k.PendAbort(Q, e, all);
  }

  // A deleted queue leaves its ring as it is.
  method QDel(k: Kernel.Kernel, e: nat, q: RingQueue.Queue, opt: DelOpt) returns (err: Err, left: Option<nat>)
    requires Valid(k, e, q) && Inv(k.s)
    modifies k, k.rdyTbl, k.tcbTbl, k.eventTbl
    ensures Valid(k, e, q) && k.s == Delete(old(k.s), Q, e, opt).s && err == Delete(old(k.s), Q, e, opt).err
    ensures left == if err == ErrNone then None else Some(e)
  {
    DeleteBody(k.s, e, opt);
    err, left := k.Del(Q, e, opt);
  }
}
