/** What the services of semaphores, mailboxes and queues do, as their callers see it: the answer, every field that changes,
    and that nothing else does. Nothing here is said in terms of the functions from which the services are built. */
module EventAnswers {
  import opened PrioSets
  import opened KernelState
  import opened Primitives
  import opened EventServices
  import opened ServiceCases
  import opened TaskAnswers

  // Event `e` holds `b`, and nothing else has changed.
  ghost predicate NowHolds(s: State, s': State, e: nat, b: Body)
    requires e < |s.events|
  {
    s' == s.(events := s.events[e := Event(b, s.events[e].wait)])
  }

  predicate NothingIn(b: Body) {
    b == Sem(0) || b == Mbox(0) || (b.Queue? && b.data == [])
  }

  // The call returns what the event held, a semaphore's count, a mailbox's message or a queue's first one, and takes it.
  ghost predicate Takes(s: State, e: nat, r: Reply)
    requires e < |s.events|
  {
    && r.err == ErrNone
    && match s.events[e].body
       case Sem(cnt) => cnt > 0 && r.val == cnt && NowHolds(s, r.s, e, Sem(cnt - 1))
       case Mbox(msg) => msg != 0 && r.val == msg && NowHolds(s, r.s, e, Mbox(0))
       case Queue(data, size) => data != [] && [r.val] + data[1..] == data && NowHolds(s, r.s, e, Queue(data[1..], size))
       case _ => false
  }

  lemma AcceptAnswer(s: State, kind: StatBit, e: nat)
    requires e < |s.events| && kind != MUTEX
    ensures var b, r := s.events[e].body, Accept(s, kind, e);
            if !IsKind(b, kind) then r == Reply(s, ErrEventType, 0)
            else if NothingIn(b) then r == Reply(s, if kind == Q then ErrQEmpty else ErrNone, 0)
            else Takes(s, e, r)
  {
    var b := s.events[e].body;
    assert b.Queue? && b.data != [] ==> [b.data[0]] + b.data[1..] == b.data;
  }

  lemma PendAnswer(s: State, kind: StatBit, e: nat, timeout: nat)
    requires Inv(s) && MayBlock(s) && e < |s.events| && kind != MUTEX
    ensures var b, r := s.events[e].body, Pend(s, kind, e, timeout);
            if !IsKind(b, kind) then r == Reply(s, ErrEventType, 0)
            else if s.nesting > 0 then r == Reply(s, ErrPendIsr, 0)
            else if s.lock > 0 then r == Reply(s, ErrPendLocked, 0)
            else if !NothingIn(b) then Takes(s, e, r)
            else r.err == ErrBlocked && r.val == 0 && Waits(s, r.s, e, kind, timeout) && Dispatched(s, r.s)
  {
    var b := s.events[e].body;
    assert b.Queue? && b.data != [] ==> [b.data[0]] + b.data[1..] == b.data;
    PendCases(s, kind, e, timeout);
    if Pend(s, kind, e, timeout).err == ErrBlocked {
      RunnerIsKnown(s);
      SchedDispatches(Block(s, e, kind, timeout));
    }
  }

  // The running task waits for event `e`: in its record, the ready list and the wait list.
  ghost predicate Waits(s: State, s': State, e: nat, kind: StatBit, timeout: nat)
    requires s.cur < |s.tcbs| && e < |s.events|
  {
    var k := s.tcbs[s.cur];
    && OtherTasks(s, s', {s.cur})
    && s'.tcbs[s.cur]
       == k.(stat := k.stat + {kind}, pend := PendOk, dly := timeout, event := Some(e), cont := Pending(e, kind))
    && s'.rdy == s.rdy - {k.prio}
    && s'.events == s.events[e := Event(s.events[e].body, s.events[e].wait + {k.prio})]
    && SameTables(s, s') && SamePool(s, s') && SameMode(s, s')
  }

  // The second half of a pend returns what became of the wait; only a timeout leaves a bit to be cleared.
  lemma FinishAnswer(s: State)
    requires Inv(s) && InPend(s)
    ensures var k, r := s.tcbs[s.cur], PendFinish(s);
            var carries := k.cont.kind == MBOX || k.cont.kind == Q;
            && (k.pend == PendTimeout ==> k.cont.e < |s.events|)
            && r.err == (match k.pend case PendOk => ErrNone case PendAbort => ErrPendAbort case PendTimeout => ErrTimeout)
            && r.val == (if carries && k.pend == PendOk then k.msg else 0)
            && OtherTasks(s, r.s, {s.cur})
            && r.s.tcbs[s.cur]
               == k.(stat := {}, pend := PendOk, event := None, cont := Running, msg := if carries then 0 else k.msg)
            && r.s.events == (if k.pend == PendTimeout
                              then s.events[k.cont.e := Event(s.events[k.cont.e].body, s.events[k.cont.e].wait - {k.prio})]
                              else s.events)
            && r.s.rdy == s.rdy && SameTables(s, r.s) && SamePool(s, r.s) && SameMode(s, r.s) && SameRunner(s, r.s)
  {
    assert TaskOk(s, s.cur);
  }

  // ---------- waking ----------

  // A service that wakes one waiter of event `e`, or all, picks task `t`: every waiter, or the most urgent one.
  ghost predicate Picks(s: State, e: nat, all: bool, t: nat)
    requires e < |s.events|
  {
    WaitsFor(s, t, e) && (all || IsLeast(s.events[e].wait, s.tcbs[t].prio))
  }

  // The tasks that are picked leave the wait list with message `msg` and outcome `pend`, and are ready unless they are
  // suspended. Every other task stays as it is.
  ghost predicate Wakes(s: State, s': State, kind: StatBit, e: nat, msg: nat, pend: PendStat, all: bool)
    requires e < |s.events|
  {
    && |s'.tcbs| == |s.tcbs| && |s'.events| == |s.events|
    && (forall t: nat :: t < |s.tcbs| ==>
          s'.tcbs[t] == if Picks(s, e, all, t)
                        then s.tcbs[t].(dly := 0, msg := msg, stat := s.tcbs[t].stat - {kind}, pend := pend, event := None)
                        else s.tcbs[t])
    && (forall t: nat :: t in s.live && t < |s.tcbs| ==>
          && (s.tcbs[t].prio in s'.rdy <==>
                if Picks(s, e, all, t) then SUSPEND !in s.tcbs[t].stat else s.tcbs[t].prio in s.rdy)
          && (s.tcbs[t].prio in s'.events[e].wait <==> s.tcbs[t].prio in s.events[e].wait && !Picks(s, e, all, t)))
    && OtherEvents(s, s', {e}) && SameTables(s, s') && SameMode(s, s')
  }

  lemma OnePicked(s: State, e: nat, t: nat)
    requires Core(s) && HasWaiter(s, e) && t < |s.tcbs|
    ensures Picks(s, e, false, t) <==> t == Waiter(s, e)
  {
    WaiterExists(s, e);
    if WaitsFor(s, t, e) {
      assert TaskOk(s, t);
    }
  }

  lemma WakeOneWakes(s: State, kind: StatBit, e: nat, msg: nat, pend: PendStat)
    requires Core(s) && e < |s.events| && s.events[e].wait != {} && IsKind(s.events[e].body, kind) && pend != PendTimeout
    ensures HasWaiter(s, e) && Wakes(s, Wake(s, e, msg, kind, pend), kind, e, msg, pend, false)
  {
    WakeKeeps(s, e, msg, kind, pend);
    forall t: nat | t < |s.tcbs|
      ensures Picks(s, e, false, t) <==> t == Waiter(s, e)
    {
      OnePicked(s, e, t);
    }
    PrioritiesApart(s, Waiter(s, e));
    assert TaskOk(s, Waiter(s, e));
  }

  lemma PrioritiesApart(s: State, t: nat)
    requires Core(s) && t in s.live
    ensures forall u :: u in s.live && u != t ==> u < |s.tcbs| && s.tcbs[u].prio != s.tcbs[t].prio
  {
    forall u | u in s.live && u != t
      ensures s.tcbs[u].prio != s.tcbs[t].prio
    {
      assert TaskOk(s, t) && TaskOk(s, u);
    }
  }

  lemma WakeAllWakes(s: State, kind: StatBit, e: nat, msg: nat, pend: PendStat)
    requires Core(s) && e < |s.events| && IsKind(s.events[e].body, kind) && pend != PendTimeout
    ensures Wakes(s, WakeAll(s, e, msg, kind, pend), kind, e, msg, pend, true)
  {
    WakeAllKeeps(s, e, msg, kind, pend);
    WakeAllIsSimultaneous(s, e, msg, kind, pend);
    var s' := AllWoken(s, e, msg, kind, pend);
    forall t: nat | t in s.live
      ensures s.tcbs[t].prio in s'.rdy <==>
              if Picks(s, e, true, t) then SUSPEND !in s.tcbs[t].stat else s.tcbs[t].prio in s.rdy
      ensures s.tcbs[t].prio in s.events[e].wait ==> Picks(s, e, true, t)
    {
      PrioritiesApart(s, t);
      assert TaskOk(s, t);
      assert s.tcbs[t].prio in s.events[e].wait ==> TaskAt(s, s.tcbs[t].prio);
    }
  }

  lemma WakeSomeWakes(s: State, kind: StatBit, e: nat, msg: nat, pend: PendStat, all: bool)
    requires Inv(s) && e < |s.events| && s.events[e].wait != {} && IsKind(s.events[e].body, kind) && pend != PendTimeout
    ensures var s' := WakeSome(s, kind, e, msg, pend, all);
            && Wakes(s, s', kind, e, msg, pend, all) && s'.events[e].body == s.events[e].body && SamePool(s, s')
            && SameRunner(s, s') && CanSwitch(s') && RunnerKnown(s')
  {
    WakeSomeKeeps(s, kind, e, msg, pend, all);
    RunnerIsKnown(WakeSome(s, kind, e, msg, pend, all));
    if all {
      WakeAllWakes(s, kind, e, msg, pend);
      WakeAllKeeps(s, e, msg, kind, pend);
    } else {
      WakeOneWakes(s, kind, e, msg, pend);
    }
  }

  // Who runs does not matter to what a wake has done.
  lemma WakesForAnyRunner(s: State, s1: State, s2: State, kind: StatBit, e: nat, msg: nat, pend: PendStat, all: bool)
    requires e < |s.events| && Wakes(s, s1, kind, e, msg, pend, all) && s2 == s1.(cur := s2.cur, prioCur := s2.prioCur)
    ensures Wakes(s, s2, kind, e, msg, pend, all)
  {
  }

  lemma WakeThenSched(s: State, kind: StatBit, e: nat, msg: nat, pend: PendStat, all: bool)
    requires Inv(s) && e < |s.events| && s.events[e].wait != {} && IsKind(s.events[e].body, kind) && pend != PendTimeout
    ensures CanSwitch(WakeSome(s, kind, e, msg, pend, all))
    ensures var s' := Sched(WakeSome(s, kind, e, msg, pend, all));
            && Wakes(s, s', kind, e, msg, pend, all) && s'.events[e].body == s.events[e].body && SamePool(s, s')
            && Dispatched(s, s')
  {
    var s1 := WakeSome(s, kind, e, msg, pend, all);
    WakeSomeWakes(s, kind, e, msg, pend, all);
    SchedDispatches(s1);
    WakesForAnyRunner(s, s1, Sched(s1), kind, e, msg, pend, all);
  }

  // ---------- post ----------

  // Nobody waits: the event holds what is put in, or is full and stays as it is.
  ghost predicate Puts(s: State, e: nat, msg: nat, front: bool, r: Reply)
    requires e < |s.events|
  {
    && r.val == 0
    && match s.events[e].body
       case Sem(cnt) =>
         if cnt == 65535 then r.err == ErrSemOvf && r.s == s else r.err == ErrNone && NowHolds(s, r.s, e, Sem(cnt + 1))
       case Mbox(held) =>
         if held != 0 then r.err == ErrMboxFull && r.s == s else r.err == ErrNone && NowHolds(s, r.s, e, Mbox(msg))
       case Queue(data, size) =>
         if |data| == size then r.err == ErrQFull && r.s == s
         else if front then r.err == ErrNone && NowHolds(s, r.s, e, Queue([msg] + data, size))
         else r.err == ErrNone && NowHolds(s, r.s, e, Queue(data + [msg], size))
       case _ => false
  }

  lemma PostAnswer(s: State, kind: StatBit, e: nat, msg: nat, opt: PostOpt)
    requires Inv(s) && e < |s.events| && MayPost(kind, msg, opt)
    ensures var r := Post(s, kind, e, msg, opt);
            if !IsKind(s.events[e].body, kind) then r == Reply(s, ErrEventType, 0)
            else if s.events[e].wait == {} then Puts(s, e, msg, opt.front, r)
            else
              && r.err == ErrNone && r.val == 0 && Wakes(s, r.s, kind, e, msg, PendOk, opt.broadcast)
              && r.s.events[e].body == s.events[e].body && SamePool(s, r.s)
              && if opt.noSched then SameRunner(s, r.s) else Dispatched(s, r.s)
  {
    PostCases(s, kind, e, msg, opt);
    assert EventOk(s, e);
    if IsKind(s.events[e].body, kind) && s.events[e].wait != {} {
      WakeSomeWakes(s, kind, e, msg, PendOk, opt.broadcast);
      WakeThenSched(s, kind, e, msg, PendOk, opt.broadcast);
    }
  }

  // ---------- abort, set, flush ----------

  lemma AbortAnswer(s: State, kind: StatBit, e: nat, all: bool)
    requires Inv(s) && e < |s.events| && kind != MUTEX
    ensures var r := Abort(s, kind, e, all);
            if !IsKind(s.events[e].body, kind) then r == Reply(s, ErrEventType, 0)
            else if s.events[e].wait == {} then r == Reply(s, ErrNone, 0)
            else
              && r.err == ErrPendAbort && r.val == (if all then |s.events[e].wait| else 1)
              && Wakes(s, r.s, kind, e, 0, PendAbort, all)
              && r.s.events[e].body == s.events[e].body && SamePool(s, r.s) && Dispatched(s, r.s)
  {
    AbortCases(s, kind, e, all);
    if IsKind(s.events[e].body, kind) && s.events[e].wait != {} {
      WakeThenSched(s, kind, e, 0, PendAbort, all);
    }
  }

  // A count is set unless somebody waits for it to become positive.
  lemma SetAnswer(s: State, e: nat, cnt: nat)
    requires Inv(s) && e < |s.events|
    ensures var r := SemSet(s, e, cnt);
            && r.val == 0
            && if !s.events[e].body.Sem? then r.err == ErrEventType && r.s == s
               else if s.events[e].wait != {} then r.err == ErrTaskWaiting && r.s == s
               else r.err == ErrNone && NowHolds(s, r.s, e, Sem(cnt))
  {
    assert EventOk(s, e);
  }

  lemma FlushAnswer(s: State, e: nat)
    requires e < |s.events| && s.events[e].body.Queue?
    ensures var r := QFlush(s, e);
            r.err == ErrNone && r.val == 0 && NowHolds(s, r.s, e, Queue([], s.events[e].body.size))
  {
  }

  // ---------- create and delete ----------

  // A new event is the first free block, holds what its creator says, and has no waiters.
  lemma CreateAnswer(s: State, b: Body)
    requires Inv(s) && NewBody(b)
    ensures s.evFree != [] ==> s.evFree[0] < |s.events|
    ensures var r := Create(s, b);
            if s.nesting > 0 || s.evFree == [] || (b.Queue? && s.qFree == 0) then r == Reply(s, ErrNoEvent, 0)
            else
              var e := s.evFree[0];
              && r.err == ErrNone && r.val == e && s.events[e] == Event(Unused, {})
              && r.s == s.(events := s.events[e := Event(b, {})], evFree := r.s.evFree, qFree := r.s.qFree)
              && s.evFree == [e] + r.s.evFree && s.qFree == r.s.qFree + if b.Queue? then 1 else 0
  {
    CreateKeeps(s, b);
    if s.evFree != [] {
      assert s.evFree[0] in s.evFree && EventOk(s, s.evFree[0]);
    }
  }

  // Event `e` is gone: its block is the first free one, and so is its queue block.
  ghost predicate Returned(s: State, s': State, e: nat)
    requires e < |s.events|
  {
    && |s'.events| == |s.events| && s'.events[e] == Event(Unused, {}) && s'.evFree == [e] + s.evFree
    && s'.qFree == s.qFree + if s.events[e].body.Queue? then 1 else 0
  }

  // The error code and the block that the caller keeps, or nothing, when the block is returned. A deletion with waiters
  // aborts all their waits.
  lemma DeleteAnswer(s: State, kind: StatBit, e: nat, opt: DelOpt)
    requires Inv(s) && e < |s.events| && kind != MUTEX
    ensures var r := Delete(s, kind, e, opt);
            if !IsKind(s.events[e].body, kind) then r == Reply(s, ErrEventType, e)
            else if s.nesting > 0 then r == Reply(s, ErrDelIsr, e)
            else if opt == OtherOpt then r == Reply(s, ErrInvalidOpt, e)
            else if opt == NoPend && s.events[e].wait != {} then r == Reply(s, ErrTaskWaiting, e)
            else
              && r.err == ErrNone && r.val == 0 && Returned(s, r.s, e)
              && if s.events[e].wait == {} then r.s == s.(events := r.s.events, evFree := r.s.evFree, qFree := r.s.qFree)
                                                && OtherEvents(s, r.s, {e})
                 else Wakes(s, r.s, kind, e, 0, PendAbort, true) && Dispatched(s, r.s)
  {
    DeleteCases(s, kind, e, opt);
    if IsKind(s.events[e].body, kind) && s.nesting == 0 && opt == Always {
      DissolveWakes(s, kind, e);
      if s.events[e].wait != {} {
        DissolveThenSched(s, kind, e);
      }
    }
  }

  lemma DissolveWakes(s: State, kind: StatBit, e: nat)
    requires Core(s) && e < |s.events| && IsKind(s.events[e].body, kind)
    ensures var s' := Dissolve(s, kind, e);
            && Wakes(s, s', kind, e, 0, PendAbort, true) && Returned(s, s', e) && SameRunner(s, s')
            && (s.events[e].wait == {} ==>
                  s' == s.(events := s'.events, evFree := s'.evFree, qFree := s'.qFree) && OtherEvents(s, s', {e}))
  {
    WakeAllWakes(s, kind, e, 0, PendAbort);
    WakeAllKeeps(s, e, 0, kind, PendAbort);
  }

  lemma DissolveThenSched(s: State, kind: StatBit, e: nat)
    requires Inv(s) && e < |s.events| && IsKind(s.events[e].body, kind) && kind != MUTEX
    ensures CanSwitch(Dissolve(s, kind, e))
    ensures var s' := Sched(Dissolve(s, kind, e));
            Wakes(s, s', kind, e, 0, PendAbort, true) && Returned(s, s', e) && Dispatched(s, s')
  {
    var s1 := Dissolve(s, kind, e);
    DissolveKeeps(s, kind, e);
    DissolveWakes(s, kind, e);
    RunnerIsKnown(s1);
    SchedDispatches(s1);
    WakesForAnyRunner(s, s1, Sched(s1), kind, e, 0, PendAbort, true);
  }
}
