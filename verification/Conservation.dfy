/** Nothing is lost and nothing is delivered twice: what an event holds, plus what is on its way to tasks that have
    been chosen but have not run yet, changes only by accepted posts and by successful pends and accepts.
    For a semaphore the items are tokens, all equal to 0; for mailboxes and queues they are the messages. */
module Conservation {
  import opened PrioSets
  import opened KernelState
  import opened Primitives
  import opened EventServices
  import opened MutexServices
  import opened TaskServices
  import opened Runs
  import opened Effects
  import opened PendPhases

  // ---------- the ledger ----------

  // What the event holds.
  function Stock(b: Body): multiset<nat> {
    match b
    case Sem(cnt) => multiset{}[0 := cnt]
    case Mbox(msg) => if msg == 0 then multiset{} else multiset{msg}
    case Queue(data, _) => multiset(data)
    case _ => multiset{}
  }

  // What is on its way from event `e` to task `t`: a message, or a token.
  ghost function Carried(s: State, e: nat, t: nat): multiset<nat> {
    if t in s.live && t < |s.tcbs| && s.tcbs[t].cont.Pending? && s.tcbs[t].cont.e == e && PhaseOf(s.tcbs[t]).Granted?
    then Received(s.tcbs[t].cont.kind, s.tcbs[t].msg)
    else multiset{}
  }

  // What a successful pend or accept of this kind receives that returns `val`: the message, or for a semaphore a token.
  function Received(kind: StatBit, val: nat): multiset<nat> {
    if kind == MBOX || kind == Q then multiset{val} else multiset{0}
  }

  ghost function Total(q: seq<multiset<nat>>): multiset<nat> {
    if q == [] then multiset{} else Total(q[..|q| - 1]) + q[|q| - 1]
  }

  ghost function Loads(s: State, e: nat, n: nat): seq<multiset<nat>> {
    seq(n, (t: nat) => Carried(s, e, t))
  }

  // What is on its way from event `e` to the first `n` tasks of the table.
  ghost function Flight(s: State, e: nat, n: nat): multiset<nat> {
    Total(Loads(s, e, n))
  }

  ghost function Balance(s: State, e: nat): multiset<nat>
    requires e < |s.events|
  {
    Stock(s.events[e].body) + Flight(s, e, |s.tcbs|)
  }

  // The item that a successful take removes.
  function Item(b: Body): multiset<nat>
    requires Available(b)
  {
    match b
    case Sem(_) => multiset{0}
    case _ => multiset{Taken(b)}
  }

  function Copies(msg: nat, n: nat): multiset<nat> {
    multiset{}[msg := n]
  }

  // What a step with reply `r` puts in: one item for each post that was accepted, one for each waiter of a broadcast.
  ghost function Sent(s: State, op: Op, r: Reply, e: nat): multiset<nat>
    requires e < |s.events|
  {
    match op
    case OfEvent(PostTo(_, f, msg, opt)) =>
      if f == e && r.err == ErrNone then
        Copies(msg, if opt.broadcast && s.events[e].wait != {} then |s.events[e].wait| else 1)
      else multiset{}
    case _ => multiset{}
  }

  // What the caller of a pend or an accept receives, read off the error code and the value that the call returns. An
  // accept reports in the value whether there was a token or a mailbox message, and for a queue in the error code.
  ghost function Got(s: State, op: Op, r: Reply, e: nat): multiset<nat>
    requires e < |s.events|
  {
    match op
    case OfEvent(PendOn(kind, f, _)) => if f == e && r.err == ErrNone then Received(kind, r.val) else multiset{}
    case OfEvent(AcceptFrom(kind, f)) =>
      if f == e && r.err == ErrNone && (kind == Q || r.val != 0) then Received(kind, r.val) else multiset{}
    case OfEvent(FinishPend) =>
      if r.err == ErrNone && s.cur < |s.tcbs| && s.tcbs[s.cur].cont.Pending? && s.tcbs[s.cur].cont.e == e
      then Received(s.tcbs[s.cur].cont.kind, r.val) else multiset{}
    case _ => multiset{}
  }

  ghost predicate InUse(s: State, e: nat) {
    e < |s.events| && (s.events[e].body.Sem? || s.events[e].body.Mbox? || s.events[e].body.Queue?)
  }

  // The event is still in use, and a semaphore is still one.
  ghost predicate KeepsKind(s: State, s': State, e: nat) {
    InUse(s, e) && InUse(s', e) && (s'.events[e].body.Sem? <==> s.events[e].body.Sem?)
  }

  // The event is in use and is neither reset, flushed nor deleted, and no task is deleted with an item on its way.
  ghost predicate Spares(s: State, op: Op, e: nat) {
    && InUse(s, e)
    && match op
       case OfEvent(SetSem(f, _)) => f != e
       case OfEvent(FlushQ(f)) => f != e
       case OfEvent(DeleteEvent(_, f, _)) => f != e
       case OfTask(DeleteTask(prio)) =>
         s.cur < |s.tcbs| && |s.prioTbl| == PRIOS
         && (NamesTask(s, Named(s, prio)) ==> Carried(s, e, s.prioTbl[Named(s, prio)].t) == multiset{})
       case _ => true
  }

  // Balance after, plus what was given out, is balance before, plus what was put in.
  ghost predicate Balanced(s: State, op: Op, r: Reply, e: nat) {
    && e < |s.events| && e < |r.s.events|
    && Balance(r.s, e) + Got(s, op, r, e) == Balance(s, e) + Sent(s, op, r, e)
  }

  // ---------- sums ----------

  lemma FlightSame(s: State, s': State, e: nat, n: nat)
    requires forall t: nat :: t < n ==> Carried(s', e, t) == Carried(s, e, t)
    ensures Flight(s', e, n) == Flight(s, e, n)
  {
    assert Loads(s', e, n) == Loads(s, e, n);
  }

  lemma {:induction false} TotalUpdate(q: seq<multiset<nat>>, c: nat, x: multiset<nat>)
    requires c < |q|
    ensures Total(q[c := x]) + q[c] == Total(q) + x
  {
    var n, q' := |q| - 1, q[c := x];
    if c == n {
      assert q'[..n] == q[..n];
      Exchange(Total(q[..n]), q[c], x);
    } else {
      TotalUpdate(q[..n], c, x);
      assert q'[..n] == q[..n][c := x];
      AddBoth(Total(q'[..n]), q[c], Total(q[..n]), x, q[n]);
    }
  }

  lemma FlightOne(s: State, s': State, e: nat, n: nat, c: nat)
    requires c < n && forall t: nat :: t < n && t != c ==> Carried(s', e, t) == Carried(s, e, t)
    ensures Flight(s', e, n) + Carried(s, e, c) == Flight(s, e, n) + Carried(s', e, c)
  {
    assert Loads(s', e, n) == Loads(s, e, n)[c := Carried(s', e, c)];
    TotalUpdate(Loads(s, e, n), c, Carried(s', e, c));
  }

  lemma Exchange(a: multiset<nat>, x: multiset<nat>, y: multiset<nat>)
    ensures (a + x) + y == (a + y) + x
  {
  }

  lemma AddBoth(a: multiset<nat>, b: multiset<nat>, c: multiset<nat>, d: multiset<nat>, x: multiset<nat>)
    requires a + b == c + d
    ensures (a + x) + b == (c + x) + d
  {
    Exchange(a, x, b);
    Exchange(c, x, d);
  }

  lemma AddUp(a: multiset<nat>, x: multiset<nat>, b: multiset<nat>, y: multiset<nat>,
              c: multiset<nat>, u: multiset<nat>, d: multiset<nat>, v: multiset<nat>)
    requires a + x == b + y && c + u == d + v
    ensures (a + c) + (x + u) == (b + d) + (y + v)
  {
    assert (a + c) + (x + u) == (a + x) + (c + u);
    assert (b + d) + (y + v) == (b + y) + (d + v);
  }

  // The books balance when the stock and the flight do.
  lemma Settle(s: State, op: Op, r: Reply, e: nat,
               gotStock: multiset<nat>, gotFlight: multiset<nat>, sentStock: multiset<nat>, sentFlight: multiset<nat>)
    requires e < |s.events| && e < |r.s.events| && |r.s.tcbs| == |s.tcbs|
    requires Stock(r.s.events[e].body) + gotStock == Stock(s.events[e].body) + sentStock
    requires Flight(r.s, e, |s.tcbs|) + gotFlight == Flight(s, e, |s.tcbs|) + sentFlight
    requires Got(s, op, r, e) == gotStock + gotFlight && Sent(s, op, r, e) == sentStock + sentFlight
    ensures Balanced(s, op, r, e)
  {
    AddUp(Stock(r.s.events[e].body), gotStock, Stock(s.events[e].body), sentStock,
          Flight(r.s, e, |s.tcbs|), gotFlight, Flight(s, e, |s.tcbs|), sentFlight);
  }

  lemma SettleQuiet(s: State, op: Op, r: Reply, e: nat)
    requires e < |s.events| && e < |r.s.events| && |r.s.tcbs| == |s.tcbs|
    requires r.s.events[e].body == s.events[e].body && Flight(r.s, e, |s.tcbs|) == Flight(s, e, |s.tcbs|)
    requires Got(s, op, r, e) == multiset{} && Sent(s, op, r, e) == multiset{}
    ensures Balanced(s, op, r, e)
  {
    Settle(s, op, r, e, multiset{}, multiset{}, multiset{}, multiset{});
  }

  // ---------- waking ----------

  // The service has a message to hand over, or hands over a token.
  predicate Hands(kind: StatBit, msg: nat) {
    kind == MBOX || kind == Q || msg == 0
  }

  lemma WakeCarries(s: State, e: nat, msg: nat, kind: StatBit, pend: PendStat)
    requires Core(s) && e < |s.events| && s.events[e].wait != {} && HasWaiter(s, e) && pend != PendTimeout
    requires IsKind(s.events[e].body, kind) && Hands(kind, msg)
    ensures Flight(Wake(s, e, msg, kind, pend), e, |s.tcbs|)
            == Flight(s, e, |s.tcbs|) + (if pend == PendOk then multiset{msg} else multiset{})
  {
    WokenCarries(s, e, msg, kind, pend);
    FlightOne(s, Wake(s, e, msg, kind, pend), e, |s.tcbs|, Waiter(s, e));
  }

  // Only the waiter that is woken carries anything it did not carry before.
  lemma WokenCarries(s: State, e: nat, msg: nat, kind: StatBit, pend: PendStat)
    requires Core(s) && e < |s.events| && s.events[e].wait != {} && HasWaiter(s, e) && pend != PendTimeout
    requires IsKind(s.events[e].body, kind) && Hands(kind, msg)
    ensures var s', c := Wake(s, e, msg, kind, pend), Waiter(s, e);
            && c < |s.tcbs| && Carried(s, e, c) == multiset{}
            && Carried(s', e, c) == (if pend == PendOk then multiset{msg} else multiset{})
            && forall t: nat :: t < |s.tcbs| && t != c ==> Carried(s', e, t) == Carried(s, e, t)
  {
    WaiterExists(s, e);
    assert TaskOk(s, Waiter(s, e));
  }

  lemma {:induction false} WakeAllCarries(s: State, e: nat, msg: nat, kind: StatBit)
    requires Core(s) && e < |s.events| && IsKind(s.events[e].body, kind) && Hands(kind, msg)
    ensures Flight(WakeAll(s, e, msg, kind, PendOk), e, |s.tcbs|)
            == Flight(s, e, |s.tcbs|) + Copies(msg, |s.events[e].wait|)
    decreases |s.events[e].wait|
  {
    if s.events[e].wait != {} {
      WakeKeeps(s, e, msg, kind, PendOk);
      WaiterExists(s, e);
      assert Least(s.events[e].wait) in s.events[e].wait;
      var s1 := Wake(s, e, msg, kind, PendOk);
      WakeCarries(s, e, msg, kind, PendOk);
      WakeAllCarries(s1, e, msg, kind);
      assert |s1.events[e].wait| == |s.events[e].wait| - 1;
    }
  }

  // A wake on another event, or an abort, puts nothing on its way from event `e`.
  lemma CarriedElsewhere(s: State, s': State, e: nat, f: nat, msg: nat, pend: PendStat, t: nat)
    requires t in s.live && t < |s.tcbs| && |s'.tcbs| == |s.tcbs| && s'.live == s.live && (f != e || pend == PendAbort)
    requires s'.tcbs[t].cont == s.tcbs[t].cont
    requires PhaseOf(s'.tcbs[t]) == PhaseOf(s.tcbs[t]) || Served(s.tcbs[t], s'.tcbs[t], f, msg, pend)
    ensures Carried(s', e, t) == Carried(s, e, t)
  {
  }

  lemma WakesElsewhere(s: State, s': State, e: nat, f: nat, msg: nat, pend: PendStat)
    requires WakesTo(s, s', f, msg, pend) && (f != e || pend == PendAbort)
    requires forall t :: t in s.live ==> t < |s.tcbs|
    ensures Flight(s', e, |s.tcbs|) == Flight(s, e, |s.tcbs|)
  {
    forall t: nat | t < |s.tcbs|
      ensures Carried(s', e, t) == Carried(s, e, t)
    {
      if t in s.live {
        CarriedElsewhere(s, s', e, f, msg, pend, t);
      }
    }
    FlightSame(s, s', e, |s.tcbs|);
  }

  // ---------- calls that leave the ledger alone ----------

  ghost predicate BodyFrame(s: State, s': State) {
    |s'.events| == |s.events| && forall f :: 0 <= f < |s.events| ==> s'.events[f].body == s.events[f].body
  }

  lemma FrameBalance(s: State, s': State, e: nat)
    requires PhaseFrame(s, s') && |s'.tcbs| == |s.tcbs| && e < |s.events| && |s'.events| == |s.events|
    requires Stock(s'.events[e].body) == Stock(s.events[e].body)
    requires forall t :: t in s.live && t !in s'.live ==> Carried(s, e, t) == multiset{}
    requires forall t :: t in s'.live && t !in s.live ==> Carried(s', e, t) == multiset{}
    ensures Balance(s', e) == Balance(s, e)
  {
    forall t: nat | t < |s.tcbs|
      ensures Carried(s', e, t) == Carried(s, e, t)
    {
    }
    FlightSame(s, s', e, |s.tcbs|);
  }

  // How a task call changes who is alive.
  ghost predicate LivesFrame(s: State, s': State, op: TaskCall) {
    && |s'.tcbs| == |s.tcbs| && BodyFrame(s, s')
    && (forall t :: t in s'.live && t !in s.live ==> t < |s'.tcbs| && s'.tcbs[t].cont == Running)
    && (forall t :: t in s.live && t !in s'.live ==>
          && op.DeleteTask? && s.cur < |s.tcbs| && |s.prioTbl| == PRIOS
          && NamesTask(s, Named(s, op.prio)) && t == s.prioTbl[Named(s, op.prio)].t)
  }

  lemma DeleteLives(s: State, prio: nat)
    requires Inv(s) && MayDelete(s, prio)
    ensures LivesFrame(s, TaskDel(s, prio).s, DeleteTask(prio))
  {
    TaskDelEffect(s, prio);
  }

  lemma ChangeLives(s: State, oldPrio: nat, newPrio: nat)
    requires Inv(s) && MayChange(s, oldPrio, newPrio)
    ensures LivesFrame(s, ChangePrio(s, oldPrio, newPrio).s, Change(oldPrio, newPrio))
  {
    ChangePrioEffect(s, oldPrio, newPrio);
  }

  lemma CreateLives(s: State, prio: nat)
    requires Inv(s) && prio < PRIOS
    ensures LivesFrame(s, TaskCreate(s, prio).s, CreateTask(prio))
  {
    TaskCreateEffect(s, prio);
  }

  lemma TaskStepLives(s: State, op: TaskCall)
    requires Inv(s) && LegalTask(s, op)
    ensures LivesFrame(s, TaskStepOf(s, op).s, op)
  {
    match op
    case CreateTask(prio) => CreateLives(s, prio);
    case DeleteTask(prio) => DeleteLives(s, prio);
    case Suspend(prio) => TaskSuspendEffect(s, prio);
    case Resume(prio) => TaskResumeEffect(s, prio);
    case Change(oldPrio, newPrio) => ChangeLives(s, oldPrio, newPrio);
    case Delay(ticks) => TimeDlyEffect(s, ticks);
  }

  lemma TaskStepBalance(s: State, op: TaskCall, e: nat)
    requires Inv(s) && LegalTask(s, op) && Spares(s, OfTask(op), e)
    ensures Balanced(s, OfTask(op), TaskStepOf(s, op), e)
  {
    TaskStepPhases(s, op);
    TaskStepLives(s, op);
    FrameBalance(s, TaskStepOf(s, op).s, e);
  }

  lemma SchedStepCarries(s: State, op: SchedCall, e: nat)
    requires Inv(s)
    ensures |SchedStep(s, op).tcbs| == |s.tcbs|
    ensures forall t: nat :: t < |s.tcbs| ==> Carried(SchedStep(s, op), e, t) == Carried(s, e, t)
  {
    var s' := SchedStep(s, op);
    forall t: nat | t < |s.tcbs|
      ensures Carried(s', e, t) == Carried(s, e, t)
    {
      if t in s.live {
        assert TaskOk(s, t);
      }
    }
  }

  lemma SchedStepBalance(s: State, op: SchedCall, e: nat)
    requires Inv(s) && e < |s.events|
    ensures Balanced(s, OfSched(op), Reply(SchedStep(s, op), ErrNone, 0), e)
  {
    SchedStepCarries(s, op, e);
    FlightSame(s, SchedStep(s, op), e, |s.tcbs|);
    SettleQuiet(s, OfSched(op), Reply(SchedStep(s, op), ErrNone, 0), e);
  }

  // ---------- the services ----------

  lemma SameTcbsFlight(s: State, s': State, e: nat)
    requires s'.tcbs == s.tcbs && s'.live == s.live
    ensures Flight(s', e, |s.tcbs|) == Flight(s, e, |s.tcbs|)
  {
    FlightSame(s, s', e, |s.tcbs|);
  }

  lemma TakeStock(b: Body)
    requires Available(b)
    ensures Stock(AfterTake(b)) + Item(b) == Stock(b)
  {
    if b.Queue? {
      assert b.data == [b.data[0]] + b.data[1..];
    }
  }

  lemma PutStock(b: Body, msg: nat, front: bool)
    requires !Full(b) && (b.Sem? ==> msg == 0) && (b.Mbox? ==> msg != 0)
    ensures Stock(AfterPut(b, msg, front)) == Stock(b) + Copies(msg, 1)
  {
  }

  // A take from event `f` that changes no task.
  lemma TakeBalance(s: State, op: Op, r: Reply, f: nat, e: nat)
    requires e < |s.events| && f < |s.events| && Available(s.events[f].body)
    requires r.s == SetBody(s, f, AfterTake(s.events[f].body)) && r.err == ErrNone
    requires Sent(s, op, r, e) == multiset{}
    requires Got(s, op, r, e) == if f == e then Item(s.events[e].body) else multiset{}
    ensures Balanced(s, op, r, e)
  {
    SameTcbsFlight(s, r.s, e);
    if f == e {
      TakeStock(s.events[e].body);
      Settle(s, op, r, e, Item(s.events[e].body), multiset{}, multiset{}, multiset{});
    } else {
      SettleQuiet(s, op, r, e);
    }
  }

  lemma BlockCarries(s: State, s': State, f: nat, kind: StatBit, timeout: nat, e: nat)
    requires s.cur < |s.tcbs| && f < |s.events| && s.tcbs[s.cur].cont == Running && SameData(Block(s, f, kind, timeout), s')
    ensures |s'.tcbs| == |s.tcbs| && Flight(s', e, |s.tcbs|) == Flight(s, e, |s.tcbs|)
  {
    forall t: nat | t < |s.tcbs|
      ensures Carried(s', e, t) == Carried(s, e, t)
    {
    }
    FlightSame(s, s', e, |s.tcbs|);
  }

  lemma PendBalance(s: State, kind: StatBit, f: nat, timeout: nat, e: nat)
    requires Inv(s) && LegalEvent(s, PendOn(kind, f, timeout)) && InUse(s, e)
    ensures Balanced(s, OfEvent(PendOn(kind, f, timeout)), Pend(s, kind, f, timeout), e)
  {
    PendEffect(s, kind, f, timeout);
    var op, r := OfEvent(PendOn(kind, f, timeout)), Pend(s, kind, f, timeout);
    if r.err == ErrBlocked {
      BlockCarries(s, r.s, f, kind, timeout, e);
      SettleQuiet(s, op, r, e);
    } else if r.err == ErrNone {
      TakeBalance(s, op, r, f, e);
    } else {
      SettleQuiet(s, op, r, e);
    }
  }

  lemma AcceptBalance(s: State, kind: StatBit, f: nat, e: nat)
    requires Inv(s) && LegalEvent(s, AcceptFrom(kind, f)) && InUse(s, e)
    ensures Balanced(s, OfEvent(AcceptFrom(kind, f)), Accept(s, kind, f), e)
  {
    var op, r := OfEvent(AcceptFrom(kind, f)), Accept(s, kind, f);
    if IsKind(s.events[f].body, kind) && Available(s.events[f].body) {
      TakeBalance(s, op, r, f, e);
    } else {
      SettleQuiet(s, op, r, e);
    }
  }

  lemma FinishCarries(s: State, e: nat)
    requires Inv(s) && InPend(s) && e < |s.events|
    ensures var r := PendFinish(s);
            && |r.s.tcbs| == |s.tcbs| && |r.s.events| == |s.events| && BodyFrame(s, r.s)
            && (forall t: nat :: t < |s.tcbs| && t != s.cur ==> Carried(r.s, e, t) == Carried(s, e, t))
            && Carried(r.s, e, s.cur) == multiset{}
            && Carried(s, e, s.cur) == Got(s, OfEvent(FinishPend), r, e)
  {
    assert TaskOk(s, s.cur);
  }

  lemma FinishBalance(s: State, e: nat)
    requires Inv(s) && LegalEvent(s, FinishPend) && InUse(s, e)
    ensures Balanced(s, OfEvent(FinishPend), PendFinish(s), e)
  {
    var r := PendFinish(s);
    FinishCarries(s, e);
    FlightOne(s, r.s, e, |s.tcbs|, s.cur);
    Settle(s, OfEvent(FinishPend), r, e, multiset{}, Carried(s, e, s.cur), multiset{}, multiset{});
  }

  lemma WakeSomeFlight(s: State, kind: StatBit, e: nat, msg: nat, all: bool)
    requires Core(s) && e < |s.events| && s.events[e].wait != {} && IsKind(s.events[e].body, kind) && Hands(kind, msg)
    ensures var s' := WakeSome(s, kind, e, msg, PendOk, all);
            && |s'.events| == |s.events| && s'.events[e].body == s.events[e].body && |s'.tcbs| == |s.tcbs|
            && Flight(s', e, |s.tcbs|) == Flight(s, e, |s.tcbs|) + Copies(msg, if all then |s.events[e].wait| else 1)
  {
    WakeKeeps(s, e, msg, kind, PendOk);
    if all {
      WakeAllCarries(s, e, msg, kind);
      WakeAllIsSimultaneous(s, e, msg, kind, PendOk);
    } else {
      WakeCarries(s, e, msg, kind, PendOk);
    }
  }

  // Waking on event `f` leaves the other events alone.
  lemma WakeSomeBodies(s: State, kind: StatBit, f: nat, msg: nat, pend: PendStat, all: bool)
    requires Core(s) && f < |s.events| && s.events[f].wait != {} && IsKind(s.events[f].body, kind) && pend != PendTimeout
    ensures BodyFrame(s, WakeSome(s, kind, f, msg, pend, all))
  {
    WakeKeeps(s, f, msg, kind, pend);
    if all {
      WakeAllIsSimultaneous(s, f, msg, kind, pend);
    }
  }

  lemma PostWakeBalance(s: State, kind: StatBit, e: nat, msg: nat, opt: PostOpt, r: Reply)
    requires Core(s) && InUse(s, e) && s.events[e].wait != {} && IsKind(s.events[e].body, kind) && Hands(kind, msg)
    requires SameData(WakeSome(s, kind, e, msg, PendOk, opt.broadcast), r.s) && r.err == ErrNone
    ensures Balanced(s, OfEvent(PostTo(kind, e, msg, opt)), r, e)
  {
    var s1 := WakeSome(s, kind, e, msg, PendOk, opt.broadcast);
    WakeSomeFlight(s, kind, e, msg, opt.broadcast);
    SameTcbsFlight(s1, r.s, e);
    SettleWake(s, kind, e, msg, opt, r);
  }

  lemma SettleWake(s: State, kind: StatBit, e: nat, msg: nat, opt: PostOpt, r: Reply)
    requires InUse(s, e) && s.events[e].wait != {} && IsKind(s.events[e].body, kind) && r.err == ErrNone
    requires |r.s.tcbs| == |s.tcbs| && |r.s.events| == |s.events| && r.s.events[e].body == s.events[e].body
    requires Flight(r.s, e, |s.tcbs|) == Flight(s, e, |s.tcbs|) + Copies(msg, if opt.broadcast then |s.events[e].wait| else 1)
    ensures Balanced(s, OfEvent(PostTo(kind, e, msg, opt)), r, e)
  {
    var op, sent := OfEvent(PostTo(kind, e, msg, opt)), Copies(msg, if opt.broadcast then |s.events[e].wait| else 1);
    assert Got(s, op, r, e) == multiset{};
    assert Sent(s, op, r, e) == sent;
    Settle(s, op, r, e, multiset{}, multiset{}, multiset{}, sent);
  }

  lemma WakeElsewhereBalance(s: State, kind: StatBit, f: nat, msg: nat, pend: PendStat, all: bool, op: Op, r: Reply, e: nat)
    requires Core(s) && f < |s.events| && InUse(s, e) && s.events[f].wait != {} && IsKind(s.events[f].body, kind)
    requires pend != PendTimeout && (f != e || pend == PendAbort)
    requires SameData(WakeSome(s, kind, f, msg, pend, all), r.s)
    requires Got(s, op, r, e) == multiset{} && Sent(s, op, r, e) == multiset{}
    ensures Balanced(s, op, r, e)
  {
    WakeSomeBodies(s, kind, f, msg, pend, all);
    WakeSomePhases(s, kind, f, msg, pend, all);
    WakesElsewhere(s, WakeSome(s, kind, f, msg, pend, all), e, f, msg, pend);
    SameTcbsFlight(WakeSome(s, kind, f, msg, pend, all), r.s, e);
    SettleQuiet(s, op, r, e);
  }

  lemma PutBalance(s: State, kind: StatBit, f: nat, msg: nat, opt: PostOpt, r: Reply, e: nat)
    requires f < |s.events| && InUse(s, e) && s.events[f].wait == {} && IsKind(s.events[f].body, kind) && !Full(s.events[f].body)
    requires r == Reply(SetBody(s, f, AfterPut(s.events[f].body, msg, opt.front)), ErrNone, 0) && MayPost(kind, msg, opt)
    ensures Balanced(s, OfEvent(PostTo(kind, f, msg, opt)), r, e)
  {
    var op := OfEvent(PostTo(kind, f, msg, opt));
    SameTcbsFlight(s, r.s, e);
    if f == e {
      PutStock(s.events[e].body, msg, opt.front);
      Settle(s, op, r, e, multiset{}, multiset{}, Copies(msg, 1), multiset{});
    } else {
      SettleQuiet(s, op, r, e);
    }
  }

  lemma PostBalance(s: State, kind: StatBit, f: nat, msg: nat, opt: PostOpt, e: nat)
    requires Inv(s) && LegalEvent(s, PostTo(kind, f, msg, opt)) && InUse(s, e)
    ensures Balanced(s, OfEvent(PostTo(kind, f, msg, opt)), Post(s, kind, f, msg, opt), e)
  {
    PostEffect(s, kind, f, msg, opt);
    var r := Post(s, kind, f, msg, opt);
    if IsKind(s.events[f].body, kind) && s.events[f].wait != {} {
      if f == e {
        PostWakeBalance(s, kind, f, msg, opt, r);
      } else {
        WakeElsewhereBalance(s, kind, f, msg, PendOk, opt.broadcast, OfEvent(PostTo(kind, f, msg, opt)), r, e);
      }
    } else if IsKind(s.events[f].body, kind) && !Full(s.events[f].body) {
      PutBalance(s, kind, f, msg, opt, r, e);
    } else {
      SettleQuiet(s, OfEvent(PostTo(kind, f, msg, opt)), r, e);
    }
  }

  lemma AbortBalance(s: State, kind: StatBit, f: nat, all: bool, e: nat)
    requires Inv(s) && LegalEvent(s, AbortAll(kind, f, all)) && InUse(s, e)
    ensures Balanced(s, OfEvent(AbortAll(kind, f, all)), Abort(s, kind, f, all), e)
  {
    AbortEffect(s, kind, f, all);
    var r := Abort(s, kind, f, all);
    if IsKind(s.events[f].body, kind) && s.events[f].wait != {} {
      WakeElsewhereBalance(s, kind, f, 0, PendAbort, all, OfEvent(AbortAll(kind, f, all)), r, e);
    } else {
      SettleQuiet(s, OfEvent(AbortAll(kind, f, all)), r, e);
    }
  }

  lemma DissolveElsewhere(s: State, kind: StatBit, f: nat, e: nat)
    requires Core(s) && f < |s.events| && IsKind(s.events[f].body, kind) && f != e && e < |s.events|
    ensures var s' := Dissolve(s, kind, f);
            && |s'.events| == |s.events| && |s'.tcbs| == |s.tcbs| && s'.events[e].body == s.events[e].body
  {
    WakeAllKeeps(s, f, 0, kind, PendAbort);
    WakeAllIsSimultaneous(s, f, 0, kind, PendAbort);
  }

  lemma DeleteBalance(s: State, kind: StatBit, f: nat, del: DelOpt, e: nat)
    requires Inv(s) && LegalEvent(s, DeleteEvent(kind, f, del)) && InUse(s, e) && f != e
    ensures Balanced(s, OfEvent(DeleteEvent(kind, f, del)), Delete(s, kind, f, del), e)
  {
    DeleteEffect(s, kind, f, del);
    var r := Delete(s, kind, f, del);
    if r.err == ErrNone && del == Always {
      DissolvePhases(s, kind, f);
      DissolveElsewhere(s, kind, f, e);
      WakesElsewhere(s, Dissolve(s, kind, f), e, f, 0, PendAbort);
      SameTcbsFlight(Dissolve(s, kind, f), r.s, e);
    } else {
      SameTcbsFlight(s, r.s, e);
    }
    SettleQuiet(s, OfEvent(DeleteEvent(kind, f, del)), r, e);
  }

  lemma CreateBalance(s: State, b: Body, e: nat)
    requires Inv(s) && NewBody(b) && InUse(s, e)
    ensures s.evFree != [] ==> s.evFree[0] < |s.events|
    ensures Balanced(s, OfEvent(CreateEvent(b)), Create(s, b), e)
  {
    if s.evFree != [] {
      assert s.evFree[0] in s.evFree;
    }
    SameTcbsFlight(s, Create(s, b).s, e);
    SettleQuiet(s, OfEvent(CreateEvent(b)), Create(s, b), e);
  }

  lemma SetBalance(s: State, op: Op, r: Reply, f: nat, b: Body, e: nat)
    requires f < |s.events| && e < |s.events| && f != e && (r.s == s || r.s == SetBody(s, f, b))
    requires Got(s, op, r, e) == multiset{} && Sent(s, op, r, e) == multiset{}
    ensures Balanced(s, op, r, e)
  {
    SameTcbsFlight(s, r.s, e);
    SettleQuiet(s, op, r, e);
  }

  lemma EventStepBalance(s: State, op: EventCall, e: nat)
    requires Inv(s) && LegalEvent(s, op) && Spares(s, OfEvent(op), e)
    ensures Balanced(s, OfEvent(op), EventStepOf(s, op), e)
  {
    match op
    case CreateEvent(b) => CreateBalance(s, b, e);
    case DeleteEvent(kind, f, del) => DeleteBalance(s, kind, f, del, e);
    case PendOn(kind, f, timeout) => PendBalance(s, kind, f, timeout, e);
    case FinishPend => FinishBalance(s, e);
    case PostTo(kind, f, msg, opt) => PostBalance(s, kind, f, msg, opt, e);
    case AcceptFrom(kind, f) => AcceptBalance(s, kind, f, e);
    case AbortAll(kind, f, all) => AbortBalance(s, kind, f, all, e);
    case SetSem(f, cnt) => SetBalance(s, OfEvent(op), SemSet(s, f, cnt), f, Sem(cnt), e);
    case FlushQ(f) => SetBalance(s, OfEvent(op), QFlush(s, f), f, Queue([], s.events[f].body.size), e);
  }

  // ---------- mutex calls ----------

  lemma MutexStepQuiet(s: State, op: MutexCall, e: nat)
    requires Inv(s) && LegalMutex(s, op) && InUse(s, e)
    ensures var s' := MutexStepOf(s, op).s;
            && |s'.tcbs| == |s.tcbs| && |s'.events| == |s.events| && s'.events[e].body == s.events[e].body
            && Flight(s', e, |s.tcbs|) == Flight(s, e, |s.tcbs|)
  {
    match op
    case CreateMutex(pcp) => CreateMutexQuiet(s, pcp, e);
    case DeleteMutex(f, del) =>
      MutexDeleteKeeps(s, f, del);
      DeleteMutexQuiet(s, f, del, e);
    case LockMutex(f, timeout) => LockQuiet(s, f, timeout, e);
    case UnlockMutex(f) => UnlockQuiet(s, f, e);
    case TryMutex(f) => TryQuiet(s, f, e);
  }

  lemma CreateMutexQuiet(s: State, pcp: nat, e: nat)
    requires Inv(s) && (pcp == CEIL_DIS || pcp < PRIOS) && InUse(s, e)
    ensures s.evFree != [] ==> s.evFree[0] < |s.events|
    ensures var s' := MutexCreate(s, pcp).s;
            && |s'.tcbs| == |s.tcbs| && |s'.events| == |s.events| && s'.events[e].body == s.events[e].body
            && Flight(s', e, |s.tcbs|) == Flight(s, e, |s.tcbs|)
  {
    if s.evFree != [] {
      assert s.evFree[0] in s.evFree;
    }
    SameTcbsFlight(s, MutexCreate(s, pcp).s, e);
  }

  lemma DeleteMutexQuiet(s: State, f: nat, del: DelOpt, e: nat)
    requires f < |s.events| && InUse(s, e)
    requires s.events[f].body.Mutex? && s.events[f].body.pcp != CEIL_DIS ==> s.events[f].body.pcp < |s.prioTbl|
    ensures var s' := MutexDelete(s, f, del).s;
            && |s'.tcbs| == |s.tcbs| && |s'.events| == |s.events| && s'.events[e].body == s.events[e].body
            && Flight(s', e, |s.tcbs|) == Flight(s, e, |s.tcbs|)
  {
    SameTcbsFlight(s, MutexDelete(s, f, del).s, e);
  }

  lemma TryQuiet(s: State, f: nat, e: nat)
    requires Inv(s) && MayBlock(s) && f < |s.events| && InUse(s, e)
    ensures var s' := MutexAccept(s, f).s;
            && |s'.tcbs| == |s.tcbs| && |s'.events| == |s.events| && s'.events[e].body == s.events[e].body
            && Flight(s', e, |s.tcbs|) == Flight(s, e, |s.tcbs|)
  {
    if s.nesting == 0 && s.events[f].body.Mutex? && s.events[f].body.low == AVAILABLE {
      AcquireQuiet(s, f, e);
    }
  }

  lemma AcquireQuiet(s: State, f: nat, e: nat)
    requires s.cur < |s.tcbs| && f < |s.events| && s.events[f].body.Mutex? && InUse(s, e)
    ensures var s' := Acquire(s, f);
            && |s'.tcbs| == |s.tcbs| && |s'.events| == |s.events| && s'.events[e].body == s.events[e].body
            && Flight(s', e, |s.tcbs|) == Flight(s, e, |s.tcbs|)
  {
    FlightSame(s, Acquire(s, f), e, |s.tcbs|);
  }

  lemma LockQuiet(s: State, f: nat, timeout: nat, e: nat)
    requires Inv(s) && MayBlock(s) && f < |s.events| && InUse(s, e)
    ensures var s' := MutexPend(s, f, timeout).s;
            && |s'.tcbs| == |s.tcbs| && |s'.events| == |s.events| && s'.events[e].body == s.events[e].body
            && Flight(s', e, |s.tcbs|) == Flight(s, e, |s.tcbs|)
  {
    MutexPendEffect(s, f, timeout);
    var r := MutexPend(s, f, timeout);
    if r.err == ErrBlocked {
      var s1 := MaybeRaise(s, f);
      RaiseQuiet(s, f, e);
      MaybeRaiseKeeps(s, f);
      BlockCarries(s1, r.s, f, MUTEX, timeout, e);
    } else if r.s != s {
      AcquireQuiet(s, f, e);
    }
  }

  lemma RaiseQuiet(s: State, f: nat, e: nat)
    requires Core(s) && e < |s.events|
    ensures var s' := MaybeRaise(s, f);
            && |s'.tcbs| == |s.tcbs| && |s'.events| == |s.events| && s'.events[e].body == s.events[e].body
            && Flight(s', e, |s.tcbs|) == Flight(s, e, |s.tcbs|)
  {
    if NeedsRaise(s, f) {
      RaiseKeeps(s, f);
      RaiseOwnerQuiet(s, s.events[f].body.owner.value, s.events[f].body.pcp, e);
    }
  }

  lemma RaiseOwnerQuiet(s: State, c: nat, pcp: nat, e: nat)
    requires c < |s.tcbs| && pcp < |s.prioTbl| && s.tcbs[c].event == None && e < |s.events|
    ensures var s' := RaiseOwner(s, c, pcp);
            && |s'.tcbs| == |s.tcbs| && |s'.events| == |s.events| && s'.events[e].body == s.events[e].body
            && Flight(s', e, |s.tcbs|) == Flight(s, e, |s.tcbs|)
  {
    FlightSame(s, RaiseOwner(s, c, pcp), e, |s.tcbs|);
  }

  lemma HandOverQuiet(s: State, f: nat, e: nat)
    requires Core(s) && f < |s.events| && s.events[f].body.Mutex? && s.events[f].wait != {} && InUse(s, e)
    ensures var s' := HandOver(s, f);
            |s'.tcbs| == |s.tcbs| && |s'.events| == |s.events| && s'.events[e].body == s.events[e].body
  {
    WakeKeeps(s, f, 0, MUTEX, PendOk);
  }

  lemma UnlockQuiet(s: State, f: nat, e: nat)
    requires Inv(s) && f < |s.events| && s.running && InUse(s, e)
    ensures var s' := MutexPost(s, f).s;
            && |s'.tcbs| == |s.tcbs| && |s'.events| == |s.events| && s'.events[e].body == s.events[e].body
            && Flight(s', e, |s.tcbs|) == Flight(s, e, |s.tcbs|)
  {
    MutexPostEffect(s, f);
    if s.nesting == 0 && OwnedByCurrent(s, f) {
      UnlockWakes(s, f);
      WakesElsewhere(s, MutexPost(s, f).s, e, f, 0, PendOk);
      if s.events[f].wait != {} {
        HandOverQuiet(Unraise(s, f), f, e);
      }
    }
  }

  // ---------- the law ----------

  lemma StepBalance(s: State, op: Op, e: nat)
    requires Legal(s, op) && Spares(s, op, e)
    ensures Balanced(s, op, Step(s, op), e)
    ensures KeepsKind(s, Step(s, op).s, e)
  {
    match op
    case OfSched(c) => SchedCallBalance(s, c, e);
    case OfTask(c) => TaskCallBalance(s, c, e);
    case OfEvent(c) => EventCallBalance(s, c, e);
    case OfMutex(c) => MutexCallBalance(s, c, e);
  }

  lemma EventCallBalance(s: State, c: EventCall, e: nat)
    requires Inv(s) && LegalEvent(s, c) && Spares(s, OfEvent(c), e)
    ensures Balanced(s, OfEvent(c), EventStepOf(s, c), e) && KeepsKind(s, EventStepOf(s, c).s, e)
  {
    EventStepBalance(s, c, e);
    StaysInUse(s, c, e);
  }

  lemma SchedCallBalance(s: State, c: SchedCall, e: nat)
    requires Inv(s) && InUse(s, e)
    ensures Balanced(s, OfSched(c), Reply(SchedStep(s, c), ErrNone, 0), e) && KeepsKind(s, SchedStep(s, c), e)
  {
    SchedStepBalance(s, c, e);
  }

  lemma TaskCallBalance(s: State, c: TaskCall, e: nat)
    requires Inv(s) && LegalTask(s, c) && Spares(s, OfTask(c), e)
    ensures Balanced(s, OfTask(c), TaskStepOf(s, c), e) && KeepsKind(s, TaskStepOf(s, c).s, e)
  {
    TaskStepBalance(s, c, e);
    TaskStepLives(s, c);
  }

  lemma MutexCallBalance(s: State, c: MutexCall, e: nat)
    requires Inv(s) && LegalMutex(s, c) && InUse(s, e)
    ensures Balanced(s, OfMutex(c), MutexStepOf(s, c), e) && KeepsKind(s, MutexStepOf(s, c).s, e)
  {
    MutexStepQuiet(s, c, e);
    SettleQuiet(s, OfMutex(c), MutexStepOf(s, c), e);
  }

  lemma StaysInUse(s: State, op: EventCall, e: nat)
    requires Inv(s) && LegalEvent(s, op) && Spares(s, OfEvent(op), e)
    ensures KeepsKind(s, EventStepOf(s, op).s, e)
  {
    match op
    case CreateEvent(b) => CreateStaysInUse(s, b, e);
    case DeleteEvent(kind, f, del) => DeleteStaysInUse(s, kind, f, del, e);
    case PendOn(kind, f, timeout) => PendEffect(s, kind, f, timeout);
    case FinishPend => assert TaskOk(s, s.cur);
    case PostTo(kind, f, msg, opt) => PostStaysInUse(s, kind, f, msg, opt, e);
    case AcceptFrom(kind, f) =>
    case AbortAll(kind, f, all) => AbortStaysInUse(s, kind, f, all, e);
    case SetSem(f, cnt) =>
    case FlushQ(f) =>
  }

  lemma CreateStaysInUse(s: State, b: Body, e: nat)
    requires Inv(s) && NewBody(b) && InUse(s, e)
    ensures s.evFree != [] ==> s.evFree[0] < |s.events|
    ensures KeepsKind(s, Create(s, b).s, e)
  {
    if s.evFree != [] {
      assert s.evFree[0] in s.evFree;
    }
  }

  lemma DeleteStaysInUse(s: State, kind: StatBit, f: nat, del: DelOpt, e: nat)
    requires Inv(s) && f < |s.events| && kind != MUTEX && f != e && InUse(s, e)
    ensures KeepsKind(s, Delete(s, kind, f, del).s, e)
  {
    DeleteEffect(s, kind, f, del);
    if Delete(s, kind, f, del).err == ErrNone && del == Always {
      DissolveElsewhere(s, kind, f, e);
    }
  }

  lemma PostStaysInUse(s: State, kind: StatBit, f: nat, msg: nat, opt: PostOpt, e: nat)
    requires Inv(s) && f < |s.events| && MayPost(kind, msg, opt) && InUse(s, e)
    ensures KeepsKind(s, Post(s, kind, f, msg, opt).s, e)
  {
    PostEffect(s, kind, f, msg, opt);
    if IsKind(s.events[f].body, kind) && s.events[f].wait != {} {
      WakeSomeBodies(s, kind, f, msg, PendOk, opt.broadcast);
    }
  }

  lemma AbortStaysInUse(s: State, kind: StatBit, f: nat, all: bool, e: nat)
    requires Inv(s) && f < |s.events| && kind != MUTEX && InUse(s, e)
    ensures KeepsKind(s, Abort(s, kind, f, all).s, e)
  {
    AbortEffect(s, kind, f, all);
    if IsKind(s.events[f].body, kind) && s.events[f].wait != {} {
      WakeSomeBodies(s, kind, f, 0, PendAbort, all);
    }
  }

  ghost predicate SparesRun(s: State, ops: seq<Op>, e: nat)
    requires LegalRun(s, ops)
    decreases |ops|
  {
    InUse(s, e) && (ops != [] ==> Spares(s, ops[0], e) && SparesRun(Step(s, ops[0]).s, ops[1..], e))
  }

  ghost function TotalSent(s: State, ops: seq<Op>, e: nat): multiset<nat>
    requires LegalRun(s, ops) && SparesRun(s, ops, e)
    decreases |ops|
  {
    if ops == [] then multiset{}
    else Sent(s, ops[0], Step(s, ops[0]), e) + TotalSent(Step(s, ops[0]).s, ops[1..], e)
  }

  ghost function TotalGot(s: State, ops: seq<Op>, e: nat): multiset<nat>
    requires LegalRun(s, ops) && SparesRun(s, ops, e)
    decreases |ops|
  {
    if ops == [] then multiset{}
    else Got(s, ops[0], Step(s, ops[0]), e) + TotalGot(Step(s, ops[0]).s, ops[1..], e)
  }

  // Over any run that spares the event: everything received, still held or still on its way is, counting multiplicity,
  // exactly what was there at the start and what was accepted since.
  lemma {:induction false} ItemsAreConserved(s: State, ops: seq<Op>, e: nat)
    requires LegalRun(s, ops) && SparesRun(s, ops, e)
    ensures KeepsKind(s, Final(s, ops), e)
    ensures Balance(Final(s, ops), e) + TotalGot(s, ops, e) == Balance(s, e) + TotalSent(s, ops, e)
    decreases |ops|
  {
    if ops != [] {
      var r := Step(s, ops[0]);
      StepBalance(s, ops[0], e);
      ItemsAreConserved(r.s, ops[1..], e);
      Chain(Balance(Final(s, ops), e), TotalGot(r.s, ops[1..], e), Balance(r.s, e), TotalSent(r.s, ops[1..], e),
            Got(s, ops[0], r, e), Balance(s, e), Sent(s, ops[0], r, e));
    }
  }

  lemma Chain(z: multiset<nat>, g2: multiset<nat>, y: multiset<nat>, s2: multiset<nat>,
              g1: multiset<nat>, x: multiset<nat>, s1: multiset<nat>)
    requires z + g2 == y + s2 && y + g1 == x + s1
    ensures z + (g1 + g2) == x + (s1 + s2)
  {
    assert z + (g1 + g2) == (z + g2) + g1;
    assert x + (s1 + s2) == (x + s1) + s2;
    assert (y + s2) + g1 == (y + g1) + s2;
  }

  // For a semaphore: count, tokens on their way and tokens granted add up to the initial count and the accepted posts.
  lemma TokensAreConserved(s: State, ops: seq<Op>, e: nat)
    requires LegalRun(s, ops) && SparesRun(s, ops, e)
    requires s.events[e].body.Sem?
    ensures e < |Final(s, ops).events| && Final(s, ops).events[e].body.Sem?
    ensures Final(s, ops).events[e].body.cnt + Flight(Final(s, ops), e, |Final(s, ops).tcbs|)[0] + TotalGot(s, ops, e)[0]
            == s.events[e].body.cnt + Flight(s, e, |s.tcbs|)[0] + TotalSent(s, ops, e)[0]
  {
    ItemsAreConserved(s, ops, e);
    SemBalance(Final(s, ops), e);
    SemBalance(s, e);
    CountZeros(Balance(Final(s, ops), e), TotalGot(s, ops, e), Balance(s, e), TotalSent(s, ops, e));
  }

  // The tokens of a semaphore are null messages.
  lemma SemBalance(s: State, e: nat)
    requires e < |s.events| && s.events[e].body.Sem?
    ensures Balance(s, e)[0] == s.events[e].body.cnt + Flight(s, e, |s.tcbs|)[0]
  {
  }

  lemma CountZeros(a: multiset<nat>, b: multiset<nat>, c: multiset<nat>, d: multiset<nat>)
    requires a + b == c + d
    ensures a[0] + b[0] == c[0] + d[0]
  {
    assert (a + b)[0] == (c + d)[0];
  }
}
