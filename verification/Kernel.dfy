/** The kernel as it is written: bitmaps, cached bit positions, linked lists and counters, changed in place.
    The ghost field `s` is the value that these data stand for, and every method says which function of the
    model it computes. */
module Kernel {
  import opened PrioSets
  import opened PrioBitmap
  import opened KernelState
  import opened Chains
  import opened KernelRep
  import opened Primitives
  import opened EventServices
  import opened MutexServices
  import opened TaskServices
  import opened Runs
  import opened ServiceCases
  import opened DelayTime

  class Kernel {
    var rdyGrp: bv8
    const rdyTbl: array<bv8>
    const tcbTbl: array<OsTcb>
    const prioTbl: array<Slot>
    const eventTbl: array<OsEvent>
    var tcbList: Option<nat>
    var tcbFreeList: Option<nat>
    var eventFreeList: Option<nat>
    var taskCtr: nat
    var tcbCur: nat
    var prioCur: nat
    var prioHighRdy: nat
    var tcbHighRdy: nat
    var intNesting: nat
    var lockNesting: nat
    var osRunning: bool
    // The free queue control blocks.
    var queuesFree: nat
    ghost var s: State

    ghost predicate Lists()
      reads this, tcbTbl, eventTbl
    {
      && tcbList == At(s.list, 0) && Linked(tcbTbl[..], s.list) && taskCtr == |s.list|
      && tcbFreeList == At(s.tcbFree, 0) && FreeLinked(tcbTbl[..], s.tcbFree)
      && eventFreeList == At(s.evFree, 0) && PoolLinked(eventTbl[..], s.evFree)
    }

    // Arrays of different types are different arrays.
    ghost predicate Apart() {
      && rdyTbl as object != tcbTbl as object && rdyTbl as object != prioTbl as object
      && rdyTbl as object != eventTbl as object && tcbTbl as object != prioTbl as object
      && tcbTbl as object != eventTbl as object && prioTbl as object != eventTbl as object
    }

    ghost predicate Valid()
      reads this, rdyTbl, tcbTbl, prioTbl, eventTbl
    {
      && Apart()
      && SetRep(rdyGrp, rdyTbl[..], s.rdy)
      && prioTbl.Length == PRIOS && prioTbl[..] == s.prioTbl
      && TcbsRep(tcbTbl[..], s.tcbs, s.live)
      && EventsRep(eventTbl[..], s.events)
      && Lists()
      && tcbCur == s.cur && prioCur == s.prioCur && intNesting == s.nesting && lockNesting == s.lock && osRunning == s.running
      && queuesFree == s.qFree
    }

    // The data in memory have become those of `s1`.
    ghost method Adopt(s1: State)
      requires Apart() && SetRep(rdyGrp, rdyTbl[..], s1.rdy) && prioTbl.Length == PRIOS && prioTbl[..] == s1.prioTbl
      requires TcbsRep(tcbTbl[..], s1.tcbs, s1.live) && Linked(tcbTbl[..], s1.list) && FreeLinked(tcbTbl[..], s1.tcbFree)
      requires EventsRep(eventTbl[..], s1.events) && PoolLinked(eventTbl[..], s1.evFree)
      requires tcbList == At(s1.list, 0) && tcbFreeList == At(s1.tcbFree, 0) && taskCtr == |s1.list|
      requires eventFreeList == At(s1.evFree, 0)
      requires tcbCur == s1.cur && prioCur == s1.prioCur
      requires intNesting == s1.nesting && lockNesting == s1.lock && osRunning == s1.running
      requires queuesFree == s1.qFree
      modifies this`s
      ensures Valid() && s == s1
    {
      s := s1;
    }

    // ---------- stores into the tables ----------

    method PutTcb(t: nat, c: OsTcb, ghost k: Tcb)
      requires Valid() && t < |s.tcbs| && TcbRep(c, k) && (t in s.live ==> Cached(c))
      requires c.next == tcbTbl[t].next && c.prev == tcbTbl[t].prev
      modifies this`s, tcbTbl
      ensures Valid() && s == SetTcb(old(s), t, k) && tcbTbl[..] == old(tcbTbl[..])[t := c]
    {
      TcbUpdate(tcbTbl[..], s.tcbs, s.live, t, c, k);
      LinksKept(tcbTbl[..], s.list, s.tcbFree, t, c);
      tcbTbl[t] := c;
      s := SetTcb(s, t, k);
      assert tcbTbl[..] == old(tcbTbl[..])[t := c];
      assert rdyTbl[..] == old(rdyTbl[..]) && prioTbl[..] == old(prioTbl[..]) && eventTbl[..] == old(eventTbl[..]);
    }

    method PutEvent(e: nat, v: OsEvent, ghost w: Event)
      requires Valid() && e < |s.events| && EventRep(v, w)
      requires e in s.evFree ==> v.ptr == eventTbl[e].ptr
      modifies this`s, eventTbl
      ensures Valid() && s == old(s).(events := old(s).events[e := w])
      ensures eventTbl[..] == old(eventTbl[..])[e := v]
    {
      EventUpdate(eventTbl[..], s.events, s.evFree, e, v, w);
      eventTbl[e] := v;
      s := s.(events := s.events[e := w]);
      assert eventTbl[..] == old(eventTbl[..])[e := v];
      assert rdyTbl[..] == old(rdyTbl[..]) && prioTbl[..] == old(prioTbl[..]) && tcbTbl[..] == old(tcbTbl[..]);
    }

    // ---------- the ready list ----------

    method PutReady(grp: bv8, y: nat, row: bv8, ghost rdy: set<nat>)
      requires Valid() && y < 8 && SetRep(grp, rdyTbl[..][y := row], rdy)
      modifies this`rdyGrp, this`s, rdyTbl
      ensures Valid() && s == old(s).(rdy := rdy)
    {
      rdyGrp := grp;
      rdyTbl[y] := row;
      s := s.(rdy := rdy);
      assert rdyTbl[..] == old(rdyTbl[..])[y := row];
      assert eventTbl[..] == old(eventTbl[..]) && prioTbl[..] == old(prioTbl[..]) && tcbTbl[..] == old(tcbTbl[..]);
    }

    method MakeReady(c: OsTcb)
      requires Valid() && Cached(c)
      modifies this`rdyGrp, this`s, rdyTbl
      ensures Valid() && s == old(s).(rdy := old(s).rdy + {c.prio})
    {
      SetInsert(rdyGrp, rdyTbl[..], s.rdy, c);
      PutReady(rdyGrp | c.bitY, c.y, rdyTbl[c.y] | c.bitX, s.rdy + {c.prio});
    }

    method MakeUnready(c: OsTcb)
      requires Valid() && Cached(c)
      modifies this`rdyGrp, this`s, rdyTbl
      ensures Valid() && s == old(s).(rdy := old(s).rdy - {c.prio})
    {
      var row, grp := rdyTbl[c.y] & !c.bitX, rdyGrp;
      SetRemove(rdyGrp, rdyTbl[..], s.rdy, c, row);
      if row == 0 {
        grp := grp & !c.bitY;
      }
      PutReady(grp, c.y, row, s.rdy - {c.prio});
    }

    // ---------- wait lists ----------

    method InsertWaiter(e: nat, c: OsTcb)
      requires Valid() && e < |s.events| && Cached(c)
      modifies this`s, eventTbl
      ensures Valid() && s == SetWait(old(s), e, old(s).events[e].wait + {c.prio})
    {
      var v := eventTbl[e];
      SetInsert(v.grp, v.tbl, s.events[e].wait, c);
      PutEvent(e, v.(tbl := v.tbl[c.y := v.tbl[c.y] | c.bitX], grp := v.grp | c.bitY),
               Event(s.events[e].body, s.events[e].wait + {c.prio}));
    }

    method RemoveWaiter(e: nat, c: OsTcb)
      requires Valid() && e < |s.events| && Cached(c)
      modifies this`s, eventTbl
      ensures Valid() && s == SetWait(old(s), e, old(s).events[e].wait - {c.prio})
    {
      var v := eventTbl[e];
      var row := v.tbl[c.y] & !c.bitX;
      SetRemove(v.grp, v.tbl, s.events[e].wait, c, row);
      var grp := v.grp;
      if row == 0 {
        grp := grp & !c.bitY;
      }
      PutEvent(e, v.(tbl := v.tbl[c.y := row], grp := grp), Event(s.events[e].body, s.events[e].wait - {c.prio}));
    }

    // ---------- the scheduler ----------

    method SchedNew()
      requires Valid() && s.rdy != {}
      modifies this`prioHighRdy
      ensures prioHighRdy == Least(s.rdy)
    {
      LookupIsLeast(rdyGrp, rdyTbl[..], s.rdy);
      var y := UnMap(rdyGrp);
      prioHighRdy := 8 * y + UnMap(rdyTbl[y]);
    }

    // The context switch.
    method SwitchTo(t: nat, p: nat)
      requires Valid()
      modifies this`tcbCur, this`prioCur, this`s
      ensures Valid() && s == old(s).(cur := t, prioCur := p)
    {
      tcbCur := t;
      prioCur := p;
      s := s.(cur := t, prioCur := p);
    }

    method Reschedule()
      requires Valid() && CanSwitch(s)
      modifies this`prioHighRdy, this`tcbHighRdy, this`tcbCur, this`prioCur, this`s
      ensures Valid() && s == Switch(old(s))
    {
      HighestIsTask(s);
      SchedNew();
      tcbHighRdy := prioTbl[prioHighRdy].t;
      if prioHighRdy != prioCur {
        SwitchTo(tcbHighRdy, prioHighRdy);
      }
    }

    method Sched()
      requires Valid() && CanSwitch(s)
      modifies this`prioHighRdy, this`tcbHighRdy, this`tcbCur, this`prioCur, this`s
      ensures Valid() && s == Primitives.Sched(old(s))
    {
      if intNesting == 0 {
        if lockNesting == 0 {
          Reschedule();
        }
      }
    }

    // ---------- nesting counters ----------

    method PutNesting(nesting: nat, lock: nat)
      requires Valid()
      modifies this`intNesting, this`lockNesting, this`s
      ensures Valid() && s == old(s).(nesting := nesting, lock := lock)
    {
      intNesting := nesting;
      lockNesting := lock;
      s := s.(nesting := nesting, lock := lock);
    }

    method IntEnter()
      requires Valid()
      modifies this`intNesting, this`lockNesting, this`s
      ensures Valid() && s == Scheduling.IntEnter(old(s))
    {
      if osRunning {
        if intNesting < 255 {
          PutNesting(intNesting + 1, lockNesting);
        }
      }
    }

    method IntExit()
      requires Valid() && CanSwitch(s)
      modifies this`intNesting, this`lockNesting, this`prioHighRdy, this`tcbHighRdy, this`tcbCur, this`prioCur, this`s
      ensures Valid() && s == Scheduling.IntExit(old(s))
    {
      if osRunning {
        if intNesting > 0 {
          PutNesting(intNesting - 1, lockNesting);
        }
        if intNesting == 0 {
          if lockNesting == 0 {
            Reschedule();
          }
        }
      }
    }

    method SchedLock()
      requires Valid()
      modifies this`intNesting, this`lockNesting, this`s
      ensures Valid() && s == Scheduling.SchedLock(old(s))
    {
      if osRunning {
        if intNesting == 0 {
          if lockNesting < 255 {
            PutNesting(intNesting, lockNesting + 1);
          }
        }
      }
    }

    method SchedUnlock()
      requires Valid() && CanSwitch(s)
      modifies this`intNesting, this`lockNesting, this`prioHighRdy, this`tcbHighRdy, this`tcbCur, this`prioCur, this`s
      ensures Valid() && s == Scheduling.SchedUnlock(old(s))
    {
      if osRunning {
        if intNesting == 0 {
          if lockNesting > 0 {
            PutNesting(intNesting, lockNesting - 1);
            if lockNesting == 0 {
              Sched();
            }
          }
        }
      }
    }

    method SetRunning()
      requires Valid()
      modifies this`osRunning, this`s
      ensures Valid() && s == old(s).(running := true)
    {
      osRunning := true;
      s := s.(running := true);
    }

    method Start()
      requires Valid() && CanSwitch(s)
      modifies this`osRunning, this`prioHighRdy, this`tcbHighRdy, this`tcbCur, this`prioCur, this`s
      ensures Valid() && s == Scheduling.Start(old(s))
    {
      if !osRunning {
        HighestIsTask(s);
        SchedNew();
        tcbHighRdy := prioTbl[prioHighRdy].t;
        SwitchTo(tcbHighRdy, prioHighRdy);
        SetRunning();
      }
    }

    // ---------- waking and blocking ----------

    method EventTaskRemove(t: nat, e: nat)
      requires Valid() && t in s.live && t < |s.tcbs| && e < |s.events|
      modifies this`s, tcbTbl, eventTbl
      ensures Valid()
      ensures s == Removed(old(s), t, e)
    {
      RemoveWaiter(e, tcbTbl[t]);
      PutTcb(t, tcbTbl[t].(event := None), s.tcbs[t].(event := None));
    }

    // The most urgent priority on a wait list.
    method HighestWaiter(e: nat) returns (prio: nat)
      requires Valid() && e < |s.events| && s.events[e].wait != {}
      ensures prio == Least(s.events[e].wait)
    {
      var v := eventTbl[e];
      LookupIsLeast(v.grp, v.tbl, s.events[e].wait);
      var y := UnMap(v.grp);
      prio := 8 * y + UnMap(v.tbl[y]);
    }

    method ReadyWaiter(t: nat, e: nat, msg: nat, kind: StatBit, pend: PendStat)
      requires Valid() && t in s.live && t < |s.tcbs| && e < |s.events|
      modifies this`rdyGrp, this`s, rdyTbl, tcbTbl, eventTbl
      ensures Valid() && s == WokenFrom(old(s), t, e, msg, kind, pend)
    {
      var c := tcbTbl[t].(dly := 0, msg := msg, stat := tcbTbl[t].stat - {kind}, pend := pend);
      PutTcb(t, c, s.tcbs[t].(dly := 0, msg := msg, stat := c.stat, pend := pend));
      if SUSPEND !in c.stat {
        MakeReady(c);
      }
      EventTaskRemove(t, e);
    }

    method EventTaskRdy(e: nat, msg: nat, kind: StatBit, pend: PendStat) returns (prio: nat)
      requires Valid() && HasWaiter(s, e)
      modifies this`rdyGrp, this`s, rdyTbl, tcbTbl, eventTbl
      ensures Valid() && s == Wake(old(s), e, msg, kind, pend)
      ensures prio == Least(old(s).events[e].wait)
    {
      WakeTakesWaiter(s, e, msg, kind, pend);
      prio := HighestWaiter(e);
      ReadyWaiter(prioTbl[prio].t, e, msg, kind, pend);
    }

    method EventTaskWait(e: nat)
      requires Valid() && s.cur in s.live && s.cur < |s.tcbs| && e < |s.events|
      modifies this`rdyGrp, this`s, rdyTbl, tcbTbl, eventTbl
      ensures Valid()
      ensures var k := old(s).tcbs[old(s).cur];
              s == SetWait(SetTcb(old(s), old(s).cur, k.(event := Some(e))), e, old(s).events[e].wait + {k.prio}).(
                     rdy := old(s).rdy - {k.prio})
    {
      PutTcb(tcbCur, tcbTbl[tcbCur].(event := Some(e)), s.tcbs[tcbCur].(event := Some(e)));
      InsertWaiter(e, tcbTbl[tcbCur]);
      MakeUnready(tcbTbl[tcbCur]);
    }

    // The running task starts to wait.
    method BlockCurrent(e: nat, kind: StatBit, timeout: nat)
      requires Valid() && s.cur in s.live && s.cur < |s.tcbs| && e < |s.events|
      modifies this`rdyGrp, this`s, rdyTbl, tcbTbl, eventTbl
      ensures Valid() && s == Block(old(s), e, kind, timeout)
    {
      var c := tcbTbl[tcbCur];
      PutTcb(tcbCur, c.(stat := c.stat + {kind}, pend := PendOk, dly := timeout),
             s.tcbs[tcbCur].(stat := c.stat + {kind}, pend := PendOk, dly := timeout, cont := Pending(e, kind)));
      EventTaskWait(e);
      assert s.tcbs == Block(old(s), e, kind, timeout).tcbs;
    }

    // One waiter or all of them leave; returns how many did.
    method EventWake(e: nat, msg: nat, kind: StatBit, pend: PendStat, all: bool) returns (count: nat)
      requires Valid() && Core(s) && e < |s.events| && IsKind(s.events[e].body, kind) && HasWaiter(s, e)
      requires pend != PendTimeout
      modifies this`rdyGrp, this`s, rdyTbl, tcbTbl, eventTbl
      ensures Valid() && s == WakeSome(old(s), kind, e, msg, pend, all)
      ensures count == if all then |old(s).events[e].wait| else 1
    {
      if all {
        count := EventWakeAll(e, msg, kind, pend);
      } else {
        var _ := EventTaskRdy(e, msg, kind, pend);
        count := 1;
      }
    }

    method EventWakeAll(e: nat, msg: nat, kind: StatBit, pend: PendStat) returns (count: nat)
      requires Valid() && Core(s) && e < |s.events| && IsKind(s.events[e].body, kind)
      requires pend != PendTimeout
      modifies this`rdyGrp, this`s, rdyTbl, tcbTbl, eventTbl
      ensures Valid() && s == WakeAll(old(s), e, msg, kind, pend) && count == |old(s).events[e].wait|
    {
      ghost var s0 := s;
      count := 0;
      GroupShows(eventTbl[e], s.events[e]);
      while eventTbl[e].grp != 0
        invariant Valid() && Core(s) && e < |s.events| && IsKind(s.events[e].body, kind)
        invariant WakeAll(s, e, msg, kind, pend) == WakeAll(s0, e, msg, kind, pend)
        invariant count + |s.events[e].wait| == |s0.events[e].wait|
        invariant eventTbl[e].grp == 0 <==> s.events[e].wait == {}
        decreases |s.events[e].wait|
      {
        OneFewer(s, e, msg, kind, pend);
        var _ := EventTaskRdy(e, msg, kind, pend);
        count := count + 1;
        GroupShows(eventTbl[e], s.events[e]);
      }
    }

    // ---------- event control blocks ----------

    static method WaitListInit(v: OsEvent) returns (w: OsEvent)
      requires |v.tbl| == 8
      ensures w == v.(grp := w.grp, tbl := w.tbl) && SetRep(w.grp, w.tbl, {})
    {
      w := v.(grp := 0);
      var i := 0;
      while i < 8
        invariant 0 <= i <= 8 && |w.tbl| == 8
        invariant w == v.(grp := 0, tbl := w.tbl)
        invariant forall j :: 0 <= j < i ==> w.tbl[j] == 0
      {
        w := w.(tbl := w.tbl[i := 0]);
        i := i + 1;
      }
      NobodyThere(w.tbl);
    }

    // The first free block becomes an event without waiters.
    method TakeEvent(kind: EventType, cnt: nat, ptr: Ptr, ghost b: Body) returns (e: nat)
      requires Valid() && PoolOk(s) && s.evFree != []
      requires forall v: OsEvent :: v.kind == kind && v.cnt == cnt && v.ptr == ptr ==> BodyRep(v, b)
      modifies this`eventFreeList, this`s, eventTbl
      ensures Valid() && old(s).evFree[0] < |old(s).events| && e == old(s).evFree[0] && s == Allocate(old(s), b)
    {
      assert PoolAt(eventTbl[..], s.evFree, 0);
      e := eventFreeList.value;
      assert EventRep(eventTbl[e], s.events[e]);
      var v := WaitListInit(eventTbl[e].(kind := kind, cnt := cnt, ptr := ptr));
      PoolTake(eventTbl[..], s.events, s.evFree, v, Event(b, {}));
      eventFreeList := NextFree(eventTbl[e]);
      eventTbl[e] := v;
      s := Allocate(s, b);
      assert eventTbl[..] == old(eventTbl[..])[e := v];
      assert rdyTbl[..] == old(rdyTbl[..]) && prioTbl[..] == old(prioTbl[..]) && tcbTbl[..] == old(tcbTbl[..]);
    }

    // The first free block is taken, and given back untouched.
    method TakeAndReturn()
      requires Valid() && PoolOk(s) && s.evFree != []
      modifies this`eventFreeList, eventTbl
      ensures Valid()
    {
      assert PoolAt(eventTbl[..], s.evFree, 0);
      var e := eventFreeList.value;
      eventFreeList := NextFree(eventTbl[e]);
      eventTbl[e] := eventTbl[e].(ptr := PtrTo(eventFreeList));
      eventFreeList := Some(e);
      assert eventTbl[..] == old(eventTbl[..]);
    }

    // What a queue holds is not in its event control block.
    ghost method PutQueue(e: nat, b: Body)
      requires Valid() && e < |s.events| && s.events[e].body.Queue? && b.Queue?
      modifies this`s
      ensures Valid() && s == SetBody(old(s), e, b)
    {
      assert EventRep(eventTbl[e], s.events[e]);
      EventUpdate(eventTbl[..], s.events, s.evFree, e, eventTbl[e], Event(b, s.events[e].wait));
      assert eventTbl[..][e := eventTbl[e]] == eventTbl[..];
      s := SetBody(s, e, b);
    }

    // The block goes to the front of the free list.
    method GiveEvent(e: nat)
      requires Valid() && e < |s.events| && e !in s.evFree
      modifies this`eventFreeList, this`s, eventTbl
      ensures Valid() && s == Free(old(s), e)
    {
      var v := eventTbl[e].(kind := TypeUnused, cnt := 0, ptr := PtrTo(eventFreeList));
      assert EventRep(eventTbl[e], s.events[e]);
      PoolGive(eventTbl[..], s.events, s.evFree, e, v, Event(Unused, s.events[e].wait));
      eventTbl[e] := v;
      eventFreeList := Some(e);
      s := Free(s, e);
      assert eventTbl[..] == old(eventTbl[..])[e := v];
      assert rdyTbl[..] == old(rdyTbl[..]) && prioTbl[..] == old(prioTbl[..]) && tcbTbl[..] == old(tcbTbl[..]);
    }

    // ---------- semaphores ----------

    method SemPend(e: nat, timeout: nat) returns (err: Err)
      requires Valid() && Inv(s) && MayBlock(s) && e < |s.events|
      modifies this, rdyTbl, tcbTbl, eventTbl
      ensures Valid()
      ensures s == Pend(old(s), SEM, e, timeout).s && err == Pend(old(s), SEM, e, timeout).err
    {
      var v := eventTbl[e];
      assert EventRep(v, s.events[e]);
      PendCases(s, SEM, e, timeout);
      if v.kind != TypeSem {
        return ErrEventType;
      }
      if intNesting > 0 {
        return ErrPendIsr;
      }
      if lockNesting > 0 {
        return ErrPendLocked;
      }
      if v.cnt > 0 {
        NotFree(s, e);
        PutEvent(e, v.(cnt := v.cnt - 1), s.events[e].(body := Sem(v.cnt - 1)));
        return ErrNone;
      }
      BlockCurrent(e, SEM, timeout);
      Sched();
      return ErrBlocked;
    }

    method SemPost(e: nat) returns (err: Err)
      requires Valid() && Inv(s) && e < |s.events|
      modifies this, rdyTbl, tcbTbl, eventTbl
      ensures Valid()
      ensures Post(old(s), SEM, e, 0, PostOpt(false, false, false)) == Reply(s, err, 0)
    {
      var v := eventTbl[e];
      assert EventRep(v, s.events[e]);
      PostCases(s, SEM, e, 0, PostOpt(false, false, false));
      if v.kind != TypeSem {
        return ErrEventType;
      }
      GroupShows(v, s.events[e]);
      if v.grp != 0 {
        var _ := EventWake(e, 0, SEM, PendOk, false);
        Sched();
        return ErrNone;
      }
      if v.cnt < 65535 {
        NotFree(s, e);
        PutEvent(e, v.(cnt := v.cnt + 1), s.events[e].(body := Sem(v.cnt + 1)));
        return ErrNone;
      }
      return ErrSemOvf;
    }

    method SemCreate(cnt: nat) returns (e: Option<nat>)
      requires Valid() && Inv(s) && cnt <= SEM_MAX
      modifies this, eventTbl
      ensures Valid() && (old(s).evFree != [] ==> old(s).evFree[0] < |old(s).events|)
      ensures var r := Create(old(s), Sem(cnt)); s == r.s && e == if r.err == ErrNone then Some(r.val) else None
    {
      CreateKeeps(s, Sem(cnt));
      if intNesting > 0 {
        return None;
      }
      if eventFreeList == None {
        return None;
      }
      var n := TakeEvent(TypeSem, cnt, Null, Sem(cnt));
      return Some(n);
    }

    method SemAccept(e: nat) returns (cnt: nat)
      requires Valid() && Inv(s) && e < |s.events|
      modifies this`s, eventTbl
      ensures Valid() && s == Accept(old(s), SEM, e).s && cnt == Accept(old(s), SEM, e).val
    {
      var v := eventTbl[e];
      assert EventRep(v, s.events[e]);
      if v.kind != TypeSem {
        return 0;
      }
      cnt := v.cnt;
      if cnt > 0 {
        NotFree(s, e);
        PutEvent(e, v.(cnt := v.cnt - 1), s.events[e].(body := Sem(v.cnt - 1)));
      }
    }

    method SemSet(e: nat, cnt: nat) returns (err: Err)
      requires Valid() && Inv(s) && e < |s.events|
      modifies this`s, eventTbl
      ensures Valid() && EventServices.SemSet(old(s), e, cnt) == Reply(s, err, 0)
    {
      var v := eventTbl[e];
      assert EventRep(v, s.events[e]);
      GroupShows(v, s.events[e]);
      if v.kind != TypeSem {
        return ErrEventType;
      }
      err := ErrNone;
      NotFree(s, e);
      if v.cnt > 0 {
        PutEvent(e, v.(cnt := cnt), s.events[e].(body := Sem(cnt)));
      } else {
        if v.grp == 0 {
          PutEvent(e, v.(cnt := cnt), s.events[e].(body := Sem(cnt)));
        } else {
          err := ErrTaskWaiting;
        }
      }
    }

    // ---------- mailboxes ----------

    method MboxCreate(msg: nat) returns (e: Option<nat>)
      requires Valid() && Inv(s)
      modifies this, eventTbl
      ensures Valid() && (old(s).evFree != [] ==> old(s).evFree[0] < |old(s).events|)
      ensures var r := Create(old(s), Mbox(msg)); s == r.s && e == if r.err == ErrNone then Some(r.val) else None
    {
      CreateKeeps(s, Mbox(msg));
      if intNesting > 0 {
        return None;
      }
      if eventFreeList == None {
        return None;
      }
      var n := TakeEvent(TypeMbox, 0, if msg == 0 then Null else MsgPtr(msg), Mbox(msg));
      return Some(n);
    }

    method MboxAccept(e: nat) returns (msg: nat)
      requires Valid() && Inv(s) && e < |s.events|
      modifies this`s, eventTbl
      ensures Valid() && s == Accept(old(s), MBOX, e).s && msg == Accept(old(s), MBOX, e).val
    {
      var v := eventTbl[e];
      assert EventRep(v, s.events[e]);
      if v.kind != TypeMbox {
        return 0;
      }
      msg := if v.ptr == Null then 0 else v.ptr.msg;
      NotFree(s, e);
      PutEvent(e, v.(ptr := Null), s.events[e].(body := Mbox(0)));
      assert s.events == Accept(old(s), MBOX, e).s.events;
    }

    method MboxPend(e: nat, timeout: nat) returns (err: Err, msg: nat)
      requires Valid() && Inv(s) && MayBlock(s) && e < |s.events|
      modifies this, rdyTbl, tcbTbl, eventTbl
      ensures Valid() && Pend(old(s), MBOX, e, timeout) == Reply(s, err, msg)
    {
      var v := eventTbl[e];
      assert EventRep(v, s.events[e]);
      PendCases(s, MBOX, e, timeout);
      if v.kind != TypeMbox {
        return ErrEventType, 0;
      }
      if intNesting > 0 {
        return ErrPendIsr, 0;
      }
      if lockNesting > 0 {
        return ErrPendLocked, 0;
      }
      if v.ptr != Null {
        NotFree(s, e);
        PutEvent(e, v.(ptr := Null), s.events[e].(body := Mbox(0)));
        return ErrNone, v.ptr.msg;
      }
      BlockCurrent(e, MBOX, timeout);
      Sched();
      return ErrBlocked, 0;
    }

    // A plain post is one without options.
    method MboxPostOpt(e: nat, msg: nat, opt: PostOpt) returns (err: Err)
      requires Valid() && Inv(s) && e < |s.events| && msg != 0
      modifies this, rdyTbl, tcbTbl, eventTbl
      ensures Valid() && Post(old(s), MBOX, e, msg, opt) == Reply(s, err, 0)
    {
      var v := eventTbl[e];
      assert EventRep(v, s.events[e]);
      PostCases(s, MBOX, e, msg, opt);
      if v.kind != TypeMbox {
        return ErrEventType;
      }
      GroupShows(v, s.events[e]);
      if v.grp != 0 {
        var _ := EventWake(e, msg, MBOX, PendOk, opt.broadcast);
        if !opt.noSched {
          Sched();
        }
        return ErrNone;
      }
      if v.ptr != Null {
        return ErrMboxFull;
      }
      NotFree(s, e);
      PutEvent(e, v.(ptr := MsgPtr(msg)), s.events[e].(body := Mbox(msg)));
      return ErrNone;
    }

    // ---------- queues ----------

    // The event control block and the count of queue control blocks; without the latter the former goes back.
    method QCreate(size: nat) returns (e: Option<nat>)
      requires Valid() && Inv(s)
      modifies this, eventTbl
      ensures Valid() && (old(s).evFree != [] ==> old(s).evFree[0] < |old(s).events|)
      ensures var r := Create(old(s), Queue([], size)); s == r.s && e == if r.err == ErrNone then Some(r.val) else None
    {
      CreateKeeps(s, Queue([], size));
      if intNesting > 0 {
        return None;
      }
      if eventFreeList == None {
        return None;
      }
      if queuesFree == 0 {
        TakeAndReturn();
        return None;
      }
      PutQueuesFree(queuesFree - 1);
      var n := TakeEvent(TypeQ, 0, QPtr, Queue([], size));
      return Some(n);
    }

    // ---------- what semaphores, mailboxes and queues share ----------

    // A post finds tasks waiting.
    method PostToWaiters(kind: StatBit, e: nat, msg: nat, opt: PostOpt)
      requires Valid() && Inv(s) && e < |s.events| && IsKind(s.events[e].body, kind) && eventTbl[e].grp != 0
      requires MayPost(kind, msg, opt)
      modifies this, rdyTbl, tcbTbl, eventTbl
      ensures Valid() && s == Post(old(s), kind, e, msg, opt).s
    {
      GroupShows(eventTbl[e], s.events[e]);
      PostCases(s, kind, e, msg, opt);
      var _ := EventWake(e, msg, kind, PendOk, opt.broadcast);
      if !opt.noSched {
        Sched();
      }
    }

    // A pend finds nothing to take.
    method PendAndSwitch(kind: StatBit, e: nat, timeout: nat)
      requires Valid() && Inv(s) && MayBlock(s) && e < |s.events| && kind != MUTEX
      requires Pend(s, kind, e, timeout).err == ErrBlocked
      modifies this, rdyTbl, tcbTbl, eventTbl
      ensures Valid() && s == Pend(old(s), kind, e, timeout).s
    {
      PendCases(s, kind, e, timeout);
      BlockCurrent(e, kind, timeout);
      Sched();
    }

    // The running task is no longer pending.
    method LeavePend(kind: StatBit)
      requires Valid() && s.cur in s.live && s.cur < |s.tcbs|
      modifies this`s, tcbTbl
      ensures Valid()
      ensures s == Left(old(s), kind)
    {
      var c := tcbTbl[tcbCur].(stat := {}, pend := PendOk, event := None);
      if CarriesMessage(kind) {
        c := c.(msg := 0);
      }
      PutTcb(tcbCur, c, s.tcbs[tcbCur].(stat := {}, pend := PendOk, event := None, cont := Running, msg := c.msg));
    }

    // The code after the scheduler call of a pend: the task runs again and finds out why it stopped waiting.
    method PendResume(e: nat, kind: StatBit) returns (err: Err, msg: nat)
      requires Valid() && Inv(s) && InPend(s) && s.tcbs[s.cur].cont == Pending(e, kind)
      modifies this`s, tcbTbl, eventTbl
      ensures Valid() && PendFinish(old(s)) == Reply(s, err, msg)
    {
      FinishCases(s);
      var c := tcbTbl[tcbCur];
      msg := 0;
      match c.pend {
        case PendOk =>
          err := ErrNone;
          if CarriesMessage(kind) {
            msg := c.msg;
          }
        case PendAbort =>
          err := ErrPendAbort;
        case PendTimeout =>
          EventTaskRemove(tcbCur, e);
          err := ErrTimeout;
      }
      LeavePend(kind);
    }

    method PendAbort(kind: StatBit, e: nat, all: bool) returns (err: Err, count: nat)
      requires Valid() && Inv(s) && e < |s.events| && kind != MUTEX && kind != SUSPEND
      modifies this, rdyTbl, tcbTbl, eventTbl
      ensures Valid() && Abort(old(s), kind, e, all) == Reply(s, err, count)
    {
      var v := eventTbl[e];
      assert EventRep(v, s.events[e]);
      AbortCases(s, kind, e, all);
      if v.kind != TypeOf(kind) {
        return ErrEventType, 0;
      }
      GroupShows(v, s.events[e]);
      if v.grp != 0 {
        count := EventWake(e, 0, kind, PendStat.PendAbort, all);
        Sched();
        return ErrPendAbort, count;
      }
      return ErrNone, 0;
    }

    method Dissolve(kind: StatBit, e: nat)
      requires Valid() && Core(s) && e < |s.events| && IsKind(s.events[e].body, kind)
      modifies this`rdyGrp, this`eventFreeList, this`queuesFree, this`s, rdyTbl, tcbTbl, eventTbl
      ensures Valid() && s == EventServices.Dissolve(old(s), kind, e)
    {
      DissolveCases(s, kind, e);
      var _ := EventWakeAll(e, 0, kind, PendStat.PendAbort);
      ReleaseEvent(kind, e);
    }

    method PutQueuesFree(n: nat)
      requires Valid()
      modifies this`queuesFree, this`s
      ensures Valid() && s == old(s).(qFree := n)
    {
      queuesFree := n;
      s := s.(qFree := n);
    }

    // A deleted queue gives back its queue control block too.
    method ReleaseEvent(kind: StatBit, e: nat)
      requires Valid() && e < |s.events| && e !in s.evFree && (s.events[e].body.Queue? <==> kind == Q)
      modifies this`eventFreeList, this`queuesFree, this`s, eventTbl
      ensures Valid() && s == Release(old(s), e)
    {
      if kind == Q {
        PutQueuesFree(queuesFree + 1);
      }
      GiveEvent(e);
    }

    // Returns the event that still exists.
    method Del(kind: StatBit, e: nat, opt: DelOpt) returns (err: Err, left: Option<nat>)
      requires Valid() && Inv(s) && e < |s.events| && kind != MUTEX && kind != SUSPEND
      modifies this, rdyTbl, tcbTbl, eventTbl
      ensures Valid() && s == Delete(old(s), kind, e, opt).s && err == Delete(old(s), kind, e, opt).err
      ensures left == if err == ErrNone then None else Some(e)
    {
      var v := eventTbl[e];
      assert EventRep(v, s.events[e]);
      DeleteCases(s, kind, e, opt);
      if v.kind != TypeOf(kind) {
        return ErrEventType, Some(e);
      }
      if intNesting > 0 {
        return ErrDelIsr, Some(e);
      }
      GroupShows(v, s.events[e]);
      var waiting := v.grp != 0;
      match opt {
        case NoPend =>
          if !waiting {
            NotFree(s, e);
            ReleaseEvent(kind, e);
            return ErrNone, None;
          } else {
            return ErrTaskWaiting, Some(e);
          }
        case Always =>
          Dissolve(kind, e);
          if waiting {
            Sched();
          }
          return ErrNone, None;
        case OtherOpt =>
          return ErrInvalidOpt, Some(e);
      }
    }

    // ---------- tasks ----------

    method PutSlot(p: nat, slot: Slot)
      requires Valid() && p < PRIOS
      modifies this`s, prioTbl
      ensures Valid() && |old(s).prioTbl| == PRIOS && s == old(s).(prioTbl := old(s).prioTbl[p := slot])
    {
      prioTbl[p] := slot;
      s := s.(prioTbl := s.prioTbl[p := slot]);
      assert prioTbl[..] == old(prioTbl[..])[p := slot];
      assert rdyTbl[..] == old(rdyTbl[..]) && eventTbl[..] == old(eventTbl[..]) && tcbTbl[..] == old(tcbTbl[..]);
    }

    method TimeDly(ticks: nat)
      requires Valid() && Inv(s) && MaySleep(s)
      modifies this, rdyTbl, tcbTbl
      ensures Valid() && s == TaskServices.TimeDly(old(s), ticks)
      ensures old(intNesting) == 0 && old(lockNesting) == 0 ==>
                old(tcbCur) < tcbTbl.Length && tcbTbl[old(tcbCur)].dly == ticks
    {
      SleepCases(s, ticks);
      SleeperCounts(s, ticks);
      if intNesting > 0 {
        return;
      }
      if lockNesting > 0 {
        return;
      }
      if ticks > 0 {
        MakeUnready(tcbTbl[tcbCur]);
        PutTcb(tcbCur, tcbTbl[tcbCur].(dly := ticks), s.tcbs[tcbCur].(dly := ticks));
        Sched();
      }
    }

    method TimeDlyHMSM(hours: nat, minutes: nat, seconds: nat, ms: nat) returns (err: Err)
      requires Valid() && Inv(s) && MaySleep(s)
      modifies this, rdyTbl, tcbTbl
      ensures Valid() && s == TaskServices.TimeDly(old(s), DelayTicks(TICKS_PER_SEC, hours, minutes, seconds, ms))
      ensures err == if old(s).nesting > 0 then ErrTimeDlyIsr else if old(s).lock > 0 then ErrSchedLocked else ErrNone
      ensures err == ErrNone && hours < 256 && minutes < 256 && seconds < 256 && ms < 65536 ==>
                && old(tcbCur) < tcbTbl.Length
                && NearestTick(tcbTbl[old(tcbCur)].dly, Milliseconds(hours, minutes, seconds, ms))
    {
      if intNesting > 0 {
        return ErrTimeDlyIsr;
      }
      if lockNesting > 0 {
        return ErrSchedLocked;
      }
      var ticks := TicksOf(hours, minutes, seconds, ms);
      TimeDly(ticks);
      return ErrNone;
    }

    method TaskSuspend(prio: nat) returns (err: Err)
      requires Valid() && Inv(s) && CanSuspend(s, prio)
      modifies this, rdyTbl, tcbTbl
      ensures Valid() && TaskServices.TaskSuspend(old(s), prio) == Reply(s, err, 0)
    {
      SuspendCases(s, prio);
      var p, self := prio, false;
      if prio == PRIO_SELF {
        p, self := tcbTbl[tcbCur].prio, true;
      } else if prio == tcbTbl[tcbCur].prio {
        self := true;
      }
      match prioTbl[p] {
        case Vacant =>
          return ErrTaskSuspendPrio;
        case Reserved =>
          return ErrTaskNotExist;
        case Task(t) =>
          MakeUnready(tcbTbl[t]);
          PutTcb(t, tcbTbl[t].(stat := tcbTbl[t].stat + {SUSPEND}), s.tcbs[t].(stat := s.tcbs[t].stat + {SUSPEND}));
          if self {
            Sched();
          }
          return ErrNone;
      }
    }

    method TaskResume(prio: nat) returns (err: Err)
      requires Valid() && Inv(s) && prio < PRIOS
      modifies this, rdyTbl, tcbTbl
      ensures Valid() && TaskServices.TaskResume(old(s), prio) == Reply(s, err, 0)
    {
      ResumeCases(s, prio);
      match prioTbl[prio] {
        case Vacant =>
          return ErrTaskResumePrio;
        case Reserved =>
          return ErrTaskNotExist;
        case Task(t) =>
          if SUSPEND in tcbTbl[t].stat {
            PutTcb(t, tcbTbl[t].(stat := tcbTbl[t].stat - {SUSPEND}), s.tcbs[t].(stat := s.tcbs[t].stat - {SUSPEND}));
            if tcbTbl[t].stat * PEND_ANY == {} {
              if tcbTbl[t].dly == 0 {
                MakeReady(tcbTbl[t]);
                if osRunning {
                  Sched();
                }
              }
            }
            return ErrNone;
          }
          return ErrTaskNotSuspended;
      }
    }

    // A task's ready bit follows it to another priority.
    method MoveReady(c: OsTcb, c': OsTcb)
      requires Valid() && Cached(c) && Cached(c')
      modifies this`rdyGrp, this`s, rdyTbl
      ensures Valid() && s == old(s).(rdy := Renamed(old(s).rdy, c.prio, c'.prio))
    {
      SetHas(rdyGrp, rdyTbl[..], s.rdy, c);
      if rdyTbl[c.y] & c.bitX != 0 {
        MakeUnready(c);
        MakeReady(c');
      }
    }

    method MoveWaiter(e: nat, c: OsTcb, c': OsTcb)
      requires Valid() && e < |s.events| && Cached(c) && Cached(c')
      modifies this`s, eventTbl
      ensures Valid() && s == SetWait(old(s), e, old(s).events[e].wait - {c.prio} + {c'.prio})
    {
      RemoveWaiter(e, c);
      InsertWaiter(e, c');
      assert s.events == SetWait(old(s), e, old(s).events[e].wait - {c.prio} + {c'.prio}).events;
    }

    method TaskChangePrio(oldPrio: nat, newPrio: nat) returns (err: Err)
      requires Valid() && Inv(s) && CanChange(s, oldPrio, newPrio)
      modifies this, rdyTbl, tcbTbl, prioTbl, eventTbl
      ensures Valid() && ChangePrio(old(s), oldPrio, newPrio) == Reply(s, err, 0)
    {
      ChangeCases(s, oldPrio, newPrio);
      if prioTbl[newPrio] != Vacant {
        return ErrPrioExist;
      }
      var p := if oldPrio == PRIO_SELF then tcbTbl[tcbCur].prio else oldPrio;
      match prioTbl[p] {
        case Vacant =>
          return ErrPrio;
        case Reserved =>
          return ErrTaskNotExist;
        case Task(t) =>
          ChangeTo(t, p, newPrio);
          if osRunning {
            Sched();
          }
          return ErrNone;
      }
    }

    method ChangeTo(t: nat, p0: nat, p1: nat)
      requires Valid() && t in s.live && t < |s.tcbs| && s.tcbs[t].prio == p0 && p0 < PRIOS && p1 < PRIOS
      requires s.tcbs[t].event.Some? ==> s.tcbs[t].event.value < |s.events|
      modifies this`rdyGrp, this`s, rdyTbl, tcbTbl, prioTbl, eventTbl
      ensures Valid() && |old(s).prioTbl| == PRIOS && s == Rename(old(s), t, p0, p1)
    {
      var c := tcbTbl[t];
      var c' := WithPrio(c, p1);
      PutSlot(p0, Vacant);
      PutSlot(p1, Task(t));
      MoveReady(c, c');
      if c.event.Some? {
        MoveWaiter(c.event.value, c, c');
      }
      PutTcb(t, c', s.tcbs[t].(prio := p1));
    }

    // ---------- creation and deletion of tasks ----------

    // A free control block is filled in and linked at the front of the list.
    method TcbInit(prio: nat) returns (err: Err)
      requires Valid() && prio < PRIOS && NoDup(s.list + s.tcbFree)
      modifies this`tcbFreeList, this`tcbList, this`taskCtr, this`rdyGrp, this`s, tcbTbl, prioTbl, rdyTbl
      ensures Valid()
      ensures if old(s).tcbFree == [] then err == ErrTaskNoMoreTcb && s == old(s)
              else old(s).tcbFree[0] < |old(s).tcbs| && |old(s).prioTbl| == PRIOS
                   && err == ErrNone && s == Admit(old(s), prio)
    {
      if tcbFreeList == None {
        return ErrTaskNoMoreTcb;
      }
      var t := tcbFreeList.value;
      assert FreeAt(tcbTbl[..], s.tcbFree, 0);
      var c := WithPrio(OsTcb(0, 0, 0, 0, 0, {}, PendOk, 0, None, 0, None, None), prio);
      PutSlot(prio, Task(t));
      LinkTcb(t, c);
      MakeReady(tcbTbl[t]);
      return ErrNone;
    }

    method LinkTcb(t: nat, c: OsTcb)
      requires Valid() && NoDup(s.list + s.tcbFree) && s.tcbFree != [] && t == s.tcbFree[0] && t < |s.tcbs|
      requires Cached(c) && TcbRep(c, NewTcb(c.prio))
      modifies this`tcbFreeList, this`tcbList, this`taskCtr, this`s, tcbTbl
      ensures Valid() && t < tcbTbl.Length && tcbTbl[t].(next := c.next, prev := c.prev) == c
      ensures s == SetTcb(old(s), t, NewTcb(c.prio)).(
                     live := old(s).live + {t}, list := [t] + old(s).list, tcbFree := old(s).tcbFree[1..])
    {
      LinkIn(tcbTbl[..], s.list, s.tcbFree, c);
      LinkInRep(tcbTbl[..], s.tcbs, s.live, t, c, NewTcb(c.prio), tcbList);
      StoreLinks(t, c);
      taskCtr := taskCtr + 1;
      Adopt(SetTcb(s, t, NewTcb(c.prio)).(live := s.live + {t}, list := [t] + s.list, tcbFree := s.tcbFree[1..]));
    }

    method StoreLinks(t: nat, c: OsTcb)
      requires t < tcbTbl.Length && (tcbList.Some? ==> tcbList.value < tcbTbl.Length && tcbList.value != t)
      requires Apart()
      modifies this`tcbFreeList, this`tcbList, tcbTbl
      ensures rdyTbl[..] == old(rdyTbl[..]) && eventTbl[..] == old(eventTbl[..]) && prioTbl[..] == old(prioTbl[..])
      ensures tcbTbl[..] == LinkedIn(old(tcbTbl[..]), t, c, old(tcbList))
      ensures tcbFreeList == old(tcbTbl[t]).next && tcbList == Some(t)
    {
      tcbFreeList := tcbTbl[t].next;
      tcbTbl[t] := c.(next := tcbList, prev := None);
      if tcbList.Some? {
        tcbTbl[tcbList.value] := tcbTbl[tcbList.value].(prev := Some(t));
      }
      tcbList := Some(t);
    }

    method TaskCreate(prio: nat) returns (err: Err)
      requires Valid() && Inv(s) && prio < PRIOS
      modifies this, rdyTbl, tcbTbl, prioTbl
      ensures Valid() && s == TaskServices.TaskCreate(old(s), prio).s && err == TaskServices.TaskCreate(old(s), prio).err
    {
      TaskCreateCases(s, prio);
      ghost var s0 := s;
      if intNesting > 0 {
        return ErrTaskCreateIsr;
      }
      if prioTbl[prio] == Vacant {
        ReserveFirst(s0, prio);
        PutSlot(prio, Reserved);
        err := TcbInit(prio);
        if err == ErrNone {
          if osRunning {
            Sched();
          }
        } else {
          PutSlot(prio, Vacant);
        }
        return err;
      }
      return ErrPrioExist;
    }

    method UnlinkTcb(t: nat)
      requires Valid() && NoDup(s.list + s.tcbFree) && t in s.list && s.list[|s.list| - 1] != t
      modifies this`tcbFreeList, this`tcbList, this`taskCtr, this`s, tcbTbl
      ensures Valid()
      ensures s == old(s).(live := old(s).live - {t}, list := Without(old(s).list, t), tcbFree := [t] + old(s).tcbFree)
    {
      ghost var i := WithoutSplits(s.list, t);
      UnlinkLists(tcbTbl[..], s.list, s.tcbFree, i);
      UnlinkRep(tcbTbl[..], s.tcbs, s.live, t, tcbFreeList);
      taskCtr := taskCtr - 1;
      DropLinks(t);
      Adopt(s.(live := s.live - {t}, list := Without(s.list, t), tcbFree := [t] + s.tcbFree));
    }

    // The next pointer of a live task other than the idle task is never null.
    method DropLinks(t: nat)
      requires t < tcbTbl.Length && tcbTbl[t].next.Some? && tcbTbl[t].next.value < tcbTbl.Length
      requires tcbTbl[t].prev.Some? ==> tcbTbl[t].prev.value < tcbTbl.Length
      requires tcbTbl[t].next != Some(t) && tcbTbl[t].prev != Some(t) && Apart()
      modifies this`tcbFreeList, this`tcbList, tcbTbl
      ensures rdyTbl[..] == old(rdyTbl[..]) && eventTbl[..] == old(eventTbl[..]) && prioTbl[..] == old(prioTbl[..])
      ensures tcbTbl[..] == Unlinked(old(tcbTbl[..]), t, old(tcbFreeList)) && tcbFreeList == Some(t)
      ensures tcbList == if old(tcbTbl[t]).prev == None then old(tcbTbl[t]).next else old(tcbList)
    {
      var next := tcbTbl[t].next.value;
      if tcbTbl[t].prev == None {
        tcbTbl[next] := tcbTbl[next].(prev := None);
        tcbList := tcbTbl[t].next;
      } else {
        var prev := tcbTbl[t].prev.value;
        tcbTbl[prev] := tcbTbl[prev].(next := tcbTbl[t].next);
        tcbTbl[next] := tcbTbl[next].(prev := tcbTbl[t].prev);
      }
      tcbTbl[t] := tcbTbl[t].(next := tcbFreeList);
      tcbFreeList := Some(t);
    }

    method TaskDel(prio: nat) returns (err: Err)
      requires Valid() && Inv(s) && CanDelete(s, prio)
      modifies this, rdyTbl, tcbTbl, prioTbl, eventTbl
      ensures Valid() && TaskServices.TaskDel(old(s), prio) == Reply(s, err, 0)
    {
      TaskDelCases(s, prio);
      if intNesting > 0 {
        return ErrTaskDelIsr;
      }
      if prio == IDLE_PRIO {
        return ErrTaskDelIdle;
      }
      var p := if prio == PRIO_SELF then tcbTbl[tcbCur].prio else prio;
      match prioTbl[p] {
        case Vacant =>
          return ErrTaskNotExist;
        case Reserved =>
          return ErrTaskDel;
        case Task(t) =>
          DeleteTcb(t, p);
          if osRunning {
            Sched();
          }
          return ErrNone;
      }
    }

    method DeleteTcb(t: nat, p: nat)
      requires Valid() && t in s.live && t < |s.tcbs| && s.tcbs[t].prio == p && p < PRIOS
      requires s.tcbs[t].event.Some? ==> s.tcbs[t].event.value < |s.events|
      requires NoDup(s.list + s.tcbFree) && t in s.list && s.list[|s.list| - 1] != t
      modifies this, rdyTbl, tcbTbl, prioTbl, eventTbl
      ensures Valid() && |old(s).prioTbl| == PRIOS && s == Dismiss(old(s), t)
    {
      DismissSteps(s, t);
      StopTcb(t);
      if lockNesting < 255 {
        PutNesting(intNesting, lockNesting + 1);
      }
      if lockNesting > 0 {
        PutNesting(intNesting, lockNesting - 1);
      }
      PutSlot(p, Vacant);
      UnlinkTcb(t);
    }

    // The task is neither ready nor waiting for anything.
    method StopTcb(t: nat)
      requires Valid() && t in s.live && t < |s.tcbs| && s.tcbs[t].prio < PRIOS
      requires s.tcbs[t].event.Some? ==> s.tcbs[t].event.value < |s.events|
      modifies this`rdyGrp, this`s, rdyTbl, tcbTbl, eventTbl
      ensures Valid() && |old(s).prioTbl| == PRIOS && s == Stopped(old(s), t)
    {
      MakeUnready(tcbTbl[t]);
      if tcbTbl[t].event.Some? {
        EventTaskRemove(t, tcbTbl[t].event.value);
      }
      PutTcb(t, tcbTbl[t].(dly := 0, stat := {}, pend := PendOk),
             s.tcbs[t].(dly := 0, stat := {}, pend := PendOk, event := None, cont := Running));
    }

    // ---------- mutexes ----------

    // Ownership is recorded in the mutex alone; the copy in the tasks exists only in the model.
    ghost method PutOwns(tcbs: seq<Tcb>)
      requires Valid() && |tcbs| == |s.tcbs|
      requires forall t :: 0 <= t < |tcbs| ==> tcbs[t] == s.tcbs[t].(owns := tcbs[t].owns)
      modifies this`s
      ensures Valid() && s == old(s).(tcbs := tcbs)
    {
      s := s.(tcbs := tcbs);
    }

    // The mutex passes to task `d`, or to nobody.
    method PutOwner(e: nat, cnt: nat, ptr: Ptr, ghost d: nat)
      requires Valid() && e < |s.events| && s.events[e].body.Mutex? && e !in s.evFree
      requires BodyRep(eventTbl[e].(cnt := cnt, ptr := ptr), NewOwner(s, e, d))
      modifies this`s, eventTbl
      ensures Valid() && (forall t :: t in old(s).live ==> t < |old(s).tcbs|) && s == Transfer(old(s), e, d)
    {
      assert EventRep(eventTbl[e], s.events[e]);
      ghost var s0 := s;
      PutEvent(e, eventTbl[e].(cnt := cnt, ptr := ptr), Event(NewOwner(s, e, d), s.events[e].wait));
      PutOwns(Transfer(s0, e, d).tcbs);
    }

    // The two bytes of the count.
    method Bytes(e: nat) returns (pcp: nat, low: nat)
      requires Valid() && e < |s.events| && s.events[e].body.Mutex?
      ensures pcp == s.events[e].body.pcp && low == s.events[e].body.low && pcp < 256 && low < 256
    {
      var v := eventTbl[e];
      assert EventRep(v, s.events[e]);
      pcp, low := UpperByte(v.cnt), LowerByte(v.cnt);
    }

    // The type field, and the task at the pointer.
    method IsMutex(e: nat) returns (yes: bool)
      requires Valid() && e < |s.events|
      ensures yes <==> s.events[e].body.Mutex?
    {
      assert EventRep(eventTbl[e], s.events[e]);
      yes := eventTbl[e].kind == TypeMutex;
    }

    method Owner(e: nat) returns (owner: Option<nat>)
      requires Valid() && e < |s.events| && s.events[e].body.Mutex?
      ensures owner == s.events[e].body.owner
    {
      assert EventRep(eventTbl[e], s.events[e]);
      owner := if eventTbl[e].ptr == Null then None else Some(eventTbl[e].ptr.t);
    }

    method AnyWaiter(e: nat) returns (yes: bool)
      requires Valid() && e < |s.events|
      ensures yes <==> s.events[e].wait != {}
    {
      GroupShows(eventTbl[e], s.events[e]);
      yes := eventTbl[e].grp != 0;
    }

    method MutexCreate(pcp: nat) returns (err: Err, e: Option<nat>)
      requires Valid() && Inv(s) && (pcp == CEIL_DIS || pcp < PRIOS)
      modifies this, prioTbl, eventTbl
      ensures Valid() && (old(s).evFree != [] ==> old(s).evFree[0] < |old(s).events|) && |old(s).prioTbl| == PRIOS
      ensures var r := MutexServices.MutexCreate(old(s), pcp);
              s == r.s && err == r.err && e == if err == ErrNone then Some(r.val) else None
    {
      MutexCreateKeeps(s, pcp);
      if intNesting > 0 {
        return ErrCreateIsr, None;
      }
      if pcp != CEIL_DIS {
        if prioTbl[pcp] != Vacant {
          return ErrPrioExist, None;
        }
        ReserveFirst(s, pcp);
        PutSlot(pcp, Reserved);
      }
      if eventFreeList == None {
        if pcp != CEIL_DIS {
          PutSlot(pcp, Vacant);
        }
        return ErrNoEvent, None;
      }
      var n := TakeMutex(pcp);
      return ErrNone, Some(n);
    }

    method TakeMutex(pcp: nat) returns (e: nat)
      requires Valid() && PoolOk(s) && s.evFree != [] && pcp < 256
      modifies this`eventFreeList, this`s, eventTbl
      ensures Valid() && old(s).evFree[0] < |old(s).events| && e == old(s).evFree[0]
      ensures s == Allocate(old(s), Mutex(pcp, AVAILABLE, None))
    {
      e := TakeEvent(TypeMutex, Pack(pcp, AVAILABLE), Null, Mutex(pcp, AVAILABLE, None));
    }

    method AcquireMutex(e: nat) returns (err: Err)
      requires Valid() && e < |s.events| && s.events[e].body.Mutex? && e !in s.evFree && s.cur in s.live && s.cur < |s.tcbs|
      modifies this`s, eventTbl
      ensures Valid() && s == Acquire(old(s), e) && err == AcquireError(old(s), e)
    {
      var v := eventTbl[e];
      assert EventRep(v, s.events[e]);
      ghost var s0 := s;
      var pcp, _ := Bytes(e);
      var prio := tcbTbl[tcbCur].prio;
      PutEvent(e, v.(cnt := Pack(pcp, prio), ptr := TcbPtr(tcbCur)), Event(Mutex(pcp, prio, Some(tcbCur)), s.events[e].wait));
      PutOwns(Acquire(s0, e).tcbs);
      if pcp != CEIL_DIS && prio <= pcp {
        return ErrPcpLower;
      }
      return ErrNone;
    }

    method MutexAccept(e: nat) returns (err: Err, got: bool)
      requires Valid() && Inv(s) && MayBlock(s) && e < |s.events|
      modifies this`s, eventTbl
      ensures Valid() && MutexServices.MutexAccept(old(s), e) == Reply(s, err, if got then 1 else 0)
    {
      MutexAcceptCases(s, e);
      var isMutex := IsMutex(e);
      if !isMutex {
        return ErrEventType, false;
      }
      if intNesting > 0 {
        return ErrPendIsr, false;
      }
      var _, low := Bytes(e);
      if low == AVAILABLE {
        NotFree(s, e);
        err := AcquireMutex(e);
        return err, true;
      }
      return ErrNone, false;
    }

    // The owner moves to the ceiling, in the ready list or in the wait list it is on.
    method RaiseInPlace(t: nat, pcp: nat)
      requires Valid() && t in s.live && t < |s.tcbs| && pcp < PRIOS
      requires s.tcbs[t].event.Some? ==> s.tcbs[t].event.value < |s.events|
      modifies this`rdyGrp, this`s, rdyTbl, tcbTbl, prioTbl, eventTbl
      ensures Valid() && |old(s).prioTbl| == PRIOS && s == RaiseOwner(old(s), t, pcp)
    {
      var c := tcbTbl[t];
      var c' := WithPrio(c, pcp);
      SetHas(rdyGrp, rdyTbl[..], s.rdy, c);
      var rdy := rdyTbl[c.y] & c.bitX != 0;
      if rdy {
        MakeUnready(c);
        MakeReady(c');
      } else if c.event.Some? {
        MoveWaiter(c.event.value, c, c');
      }
      PutTcb(t, c', s.tcbs[t].(prio := pcp));
      PutSlot(pcp, Task(t));
    }

    method RaiseIfNeeded(e: nat)
      requires Valid() && Inv(s) && e < |s.events| && s.events[e].body.Mutex? && s.events[e].body.owner.Some?
      requires s.cur in s.live && s.cur < |s.tcbs|
      modifies this`rdyGrp, this`s, rdyTbl, tcbTbl, prioTbl, eventTbl
      ensures Valid() && s == MaybeRaise(old(s), e)
    {
      RaiseCases(s, e);
      var pcp, mprio := Bytes(e);
      if pcp != CEIL_DIS {
        var owner := Owner(e);
        var t := owner.value;
        if tcbTbl[t].prio > pcp {
          if mprio > tcbTbl[tcbCur].prio {
            RaiseInPlace(t, pcp);
          }
        }
      }
    }

    method MutexPend(e: nat, timeout: nat) returns (err: Err)
      requires Valid() && Inv(s) && MayBlock(s) && e < |s.events|
      modifies this, rdyTbl, tcbTbl, prioTbl, eventTbl
      ensures Valid() && MutexServices.MutexPend(old(s), e, timeout) == Reply(s, err, 0)
    {
      MutexPendCases(s, e, timeout);
      var isMutex := IsMutex(e);
      if !isMutex {
        return ErrEventType;
      }
      if intNesting > 0 {
        return ErrPendIsr;
      }
      if lockNesting > 0 {
        return ErrPendLocked;
      }
      var _, low := Bytes(e);
      if low == AVAILABLE {
        NotFree(s, e);
        err := AcquireMutex(e);
        return err;
      }
      RaiseIfNeeded(e);
      BlockCurrent(e, MUTEX, timeout);
      Sched();
      return ErrBlocked;
    }

    // The running task returns to priority `prio`.
    method RdyAtPrio(prio: nat, ghost pcp: nat)
      requires Valid() && s.cur in s.live && s.cur < |s.tcbs| && prio < PRIOS
      modifies this`rdyGrp, this`prioCur, this`tcbCur, this`s, rdyTbl, tcbTbl, prioTbl
      ensures Valid() && |old(s).prioTbl| == PRIOS
      ensures var k := old(s).tcbs[old(s).cur];
              s == SetTcb(old(s), old(s).cur, k.(prio := prio)).(
                     rdy := old(s).rdy - {k.prio} + {prio}, prioCur := prio, prioTbl := old(s).prioTbl[prio := Task(old(s).cur)])
    {
      var c := tcbTbl[tcbCur];
      var c' := WithPrio(c, prio);
      MakeUnready(c);
      PutTcb(tcbCur, c', s.tcbs[tcbCur].(prio := prio));
      SwitchTo(tcbCur, prio);
      MakeReady(c');
      PutSlot(prio, Task(tcbCur));
    }

    method UnraiseInPlace(e: nat)
      requires Valid() && Inv(s) && OwnedByCurrent(s, e)
      modifies this`rdyGrp, this`prioCur, this`tcbCur, this`s, rdyTbl, tcbTbl, prioTbl
      ensures Valid() && s == Unraise(old(s), e)
    {
      UnraiseCases(s, e);
      var pcp, prio := Bytes(e);
      if pcp != CEIL_DIS {
        if tcbTbl[tcbCur].prio == pcp {
          RdyAtPrio(prio, pcp);
        }
        PutSlot(pcp, Reserved);
      }
    }

    method HandOverInPlace(e: nat) returns (prio: nat)
      requires Valid() && Core(s) && e < |s.events| && s.events[e].body.Mutex? && s.events[e].wait != {}
      modifies this`rdyGrp, this`s, rdyTbl, tcbTbl, eventTbl
      ensures Valid() && s == HandOver(old(s), e) && prio == Least(old(s).events[e].wait)
    {
      HandOverCases(s, e);
      ghost var t := Waiter(s, e);
      prio := EventTaskRdy(e, 0, MUTEX, PendOk);
      var pcp, _ := Bytes(e);
      assert EventRep(eventTbl[e], s.events[e]);
      PutOwner(e, Pack(pcp, prio), TcbPtr(prioTbl[prio].t), t);
    }

    method MutexPost(e: nat) returns (err: Err)
      requires Valid() && Inv(s) && e < |s.events| && s.running
      modifies this, rdyTbl, tcbTbl, prioTbl, eventTbl
      ensures Valid() && MutexServices.MutexPost(old(s), e) == Reply(s, err, 0)
    {
      MutexPostCases(s, e);
      if intNesting > 0 {
        return ErrPostIsr;
      }
      var isMutex := IsMutex(e);
      if !isMutex {
        return ErrEventType;
      }
      var owner := Owner(e);
      if owner != Some(tcbCur) {
        return ErrNotMutexOwner;
      }
      var pcp, _ := Bytes(e);
      UnraiseInPlace(e);
      var waiting := AnyWaiter(e);
      if waiting {
        var prio := HandOverInPlace(e);
        Sched();
        if pcp != CEIL_DIS && prio <= pcp {
          return ErrPcpLower;
        }
        return ErrNone;
      }
      Abandon(e);
      return ErrNone;
    }

    method Abandon(e: nat)
      requires Valid() && Core(s) && e < |s.events| && s.events[e].body.Mutex?
      modifies this`s, eventTbl
      ensures Valid() && (forall t :: t in old(s).live ==> t < |old(s).tcbs|)
      ensures s == Transfer(old(s), e, |old(s).tcbs|)
    {
      NotFree(s, e);
      NobodyHas(s);
      var pcp, _ := Bytes(e);
      assert EventRep(eventTbl[e], s.events[e]);
      PutOwner(e, Pack(pcp, AVAILABLE), Null, |s.tcbs|);
    }

    // With an owner, deletion would leave a raised owner without its slot.
    method MutexDel(e: nat, opt: DelOpt) returns (err: Err, left: Option<nat>)
      requires Valid() && Inv(s) && e < |s.events| && (s.events[e].body.Mutex? ==> s.events[e].body.owner == None)
      modifies this, prioTbl, eventTbl
      ensures Valid()
      ensures old(s).events[e].body.Mutex? && old(s).events[e].body.pcp != CEIL_DIS ==>
                old(s).events[e].body.pcp < |old(s).prioTbl|
      ensures s == MutexDelete(old(s), e, opt).s && err == MutexDelete(old(s), e, opt).err
      ensures left == if err == ErrNone then None else Some(e)
    {
      MutexDeleteKeeps(s, e, opt);
      var isMutex := IsMutex(e);
      if !isMutex {
        return ErrEventType, Some(e);
      }
      if intNesting > 0 {
        return ErrDelIsr, Some(e);
      }
      UnownedMutex(s, e);
      var waiting := AnyWaiter(e);
      if opt == OtherOpt {
        return ErrInvalidOpt, Some(e);
      }
      if opt == NoPend && waiting {
        return ErrTaskWaiting, Some(e);
      }
      var pcp, _ := Bytes(e);
      if pcp != CEIL_DIS {
        PutSlot(pcp, Vacant);
      }
      GiveEvent(e);
      return ErrNone, None;
    }

    // ---------- the clock tick ----------

    method TickTcb(t: nat)
      requires Valid() && t in s.live && t < |s.tcbs|
      modifies this`rdyGrp, this`s, rdyTbl, tcbTbl
      ensures Valid() && s == TickTask(old(s), t)
    {
      var c := tcbTbl[t];
      if c.dly != 0 {
        c := c.(dly := c.dly - 1);
        if c.dly == 0 {
          if c.stat * PEND_ANY != {} {
            c := c.(stat := c.stat - PEND_ANY, pend := PendTimeout);
          } else {
            c := c.(pend := PendOk);
          }
          if SUSPEND !in c.stat {
            MakeReady(c);
          }
        }
      }
      PutTcb(t, c, Ticked(s.tcbs[t]));
    }

    // The tick has visited the first `i` tasks of the list and stands at task `t`.
    ghost predicate TickedUpTo(s0: State, i: nat, t: nat)
      reads this, tcbTbl
    {
      && IdleLast(s0) && i < |s0.list| && t == s0.list[i] && t < tcbTbl.Length && tcbTbl[t].prio == s0.tcbs[t].prio
      && s == TickSome(s0, i) && s.list == s0.list && s.live == s0.live && |s.tcbs| == |s0.tcbs|
    }

    method VisitTcb(t: nat, ghost s0: State, ghost i: nat) returns (next: nat)
      requires Valid() && TickedUpTo(s0, i, t) && i < |s0.list| - 1
      modifies this`rdyGrp, this`s, rdyTbl, tcbTbl
      ensures Valid() && TickedUpTo(s0, i + 1, next)
    {
      TickTcb(t);
      TickSomeNext(s0, i, s);
      next := NextTcb(t, i);
    }

    // Every task before the idle task is visited once.
    method TickList() returns (ghost i: nat)
      requires Valid() && IdleLast(s)
      modifies this`rdyGrp, this`s, rdyTbl, tcbTbl
      ensures Valid() && i == |old(s).list| - 1 && s == TickSome(old(s), i)
    {
      ghost var s0 := s;
      i := 0;
      var t := tcbList.value;
      while tcbTbl[t].prio != IDLE_PRIO
        invariant Valid() && TickedUpTo(s0, i, t)
        decreases |s0.list| - i
      {
        t := VisitTcb(t, s0, i);
        i := i + 1;
      }
    }

    method TimeTick()
      requires Valid() && Inv(s)
      modifies this`rdyGrp, this`s, rdyTbl, tcbTbl
      ensures Valid() && s == Tick(old(s))
    {
      if osRunning {
        ListFacts(s);
        ghost var i := TickList();
        TickSomeIsTick(old(s), i);
      }
    }

    method NextTcb(t: nat, ghost i: nat) returns (next: nat)
      requires Valid() && i < |s.list| - 1 && t == s.list[i]
      ensures next == s.list[i + 1] && next < tcbTbl.Length && next < |s.tcbs| && tcbTbl[next].prio == s.tcbs[next].prio
    {
      assert LinkedAt(tcbTbl[..], s.list, i) && LinkedAt(tcbTbl[..], s.list, i + 1);
      next := tcbTbl[t].next.value;
    }

    // ---------- initialisation ----------

    // All control blocks are cleared and chained into the free list.
    method InitTcbList()
      requires tcbTbl.Length > 0 && Apart()
      modifies this`tcbList, this`tcbFreeList, tcbTbl
      ensures tcbList == None && tcbFreeList == Some(0)
      ensures TcbsRep(tcbTbl[..], Blank(tcbTbl.Length, 0, 0).tcbs, {})
      ensures FreeLinked(tcbTbl[..], UpTo(tcbTbl.Length))
      ensures rdyTbl[..] == old(rdyTbl[..]) && prioTbl[..] == old(prioTbl[..]) && eventTbl[..] == old(eventTbl[..])
    {
      var ix := 0;
      while ix < tcbTbl.Length - 1
        invariant 0 <= ix < tcbTbl.Length
        invariant forall t :: 0 <= t < ix ==> tcbTbl[t] == FreeTcb(Some(t + 1))
      {
        tcbTbl[ix] := FreeTcb(Some(ix + 1));
        ix := ix + 1;
      }
      tcbTbl[ix] := FreeTcb(None);
      tcbList := None;
      tcbFreeList := Some(0);
      forall i | 0 <= i < tcbTbl.Length
        ensures FreeAt(tcbTbl[..], UpTo(tcbTbl.Length), i)
      {
        assert tcbTbl[..][i] == FreeTcb(if i < tcbTbl.Length - 1 then Some(i + 1) else None);
      }
    }

    method InitEventList()
      requires eventTbl.Length > 0 && Apart()
      modifies this`eventFreeList, eventTbl
      ensures eventFreeList == Some(0)
      ensures EventsRep(eventTbl[..], Blank(0, eventTbl.Length, 0).events)
      ensures PoolLinked(eventTbl[..], UpTo(eventTbl.Length))
      ensures rdyTbl[..] == old(rdyTbl[..]) && prioTbl[..] == old(prioTbl[..]) && tcbTbl[..] == old(tcbTbl[..])
    {
      var ix := 0;
      while ix < eventTbl.Length - 1
        invariant 0 <= ix < eventTbl.Length
        invariant forall e :: 0 <= e < ix ==> eventTbl[e] == FreeEvent(EcbPtr(e + 1))
      {
        eventTbl[ix] := FreeEvent(EcbPtr(ix + 1));
        ix := ix + 1;
      }
      eventTbl[ix] := FreeEvent(Null);
      eventFreeList := Some(0);
      forall i | 0 <= i < eventTbl.Length
        ensures PoolAt(eventTbl[..], UpTo(eventTbl.Length), i)
      {
        assert eventTbl[..][i] == FreeEvent(if i < eventTbl.Length - 1 then EcbPtr(i + 1) else Null);
      }
      forall e | 0 <= e < eventTbl.Length
        ensures EventRep(eventTbl[..][e], Event(Unused, {}))
      {
        NobodyThere(eventTbl[e].tbl);
      }
    }

    method InitRdyList()
      requires rdyTbl.Length == 8 && Apart()
      modifies this`rdyGrp, this`prioCur, this`prioHighRdy, this`tcbHighRdy, this`tcbCur, rdyTbl
      ensures SetRep(rdyGrp, rdyTbl[..], {}) && prioCur == 0 && tcbCur == 0
      ensures eventTbl[..] == old(eventTbl[..]) && prioTbl[..] == old(prioTbl[..]) && tcbTbl[..] == old(tcbTbl[..])
    {
      rdyGrp := 0;
      var i := 0;
      while i < 8
        invariant 0 <= i <= 8 && rdyGrp == 0
        invariant forall j :: 0 <= j < i ==> rdyTbl[j] == 0
      {
        rdyTbl[i] := 0;
        i := i + 1;
      }
      NobodyThere(rdyTbl[..]);
      prioCur, prioHighRdy, tcbHighRdy, tcbCur := 0, 0, 0, 0;
    }

    // The tables are cleared, the free lists are made, and the idle task is created.
    constructor (tasks: nat, maxEvents: nat, queues: nat)
      requires tasks > 0 && maxEvents > 0
      ensures Valid() && InitState(s) && |s.tcbs| == tasks && |s.events| == maxEvents && s.qFree == queues
      ensures fresh(rdyTbl) && fresh(tcbTbl) && fresh(prioTbl) && fresh(eventTbl)
    {
      rdyTbl := new bv8[8];
      tcbTbl := new OsTcb[tasks](_ => FreeTcb(None));
      prioTbl := new Slot[PRIOS](_ => Vacant);
      eventTbl := new OsEvent[maxEvents](_ => FreeEvent(Null));
      new;
      Init(queues);
    }

    method Init(queues: nat)
      requires rdyTbl.Length == 8 && prioTbl.Length == PRIOS && tcbTbl.Length > 0 && eventTbl.Length > 0 && Apart()
      requires forall p :: 0 <= p < PRIOS ==> prioTbl[p] == Vacant
      modifies this, rdyTbl, tcbTbl, prioTbl, eventTbl
      ensures Valid() && InitState(s) && |s.tcbs| == tcbTbl.Length && |s.events| == eventTbl.Length && s.qFree == queues
    {
      InitTables(queues);
      var _ := TcbInit(IDLE_PRIO);
      IdleAlone(tcbTbl.Length, eventTbl.Length, queues);
    }

    method InitTables(queues: nat)
      requires rdyTbl.Length == 8 && prioTbl.Length == PRIOS && tcbTbl.Length > 0 && eventTbl.Length > 0 && Apart()
      requires forall p :: 0 <= p < PRIOS ==> prioTbl[p] == Vacant
      modifies this, rdyTbl, tcbTbl, eventTbl
      ensures Valid() && s == Blank(tcbTbl.Length, eventTbl.Length, queues) && NoDup(s.list + s.tcbFree)
    {
      InitLists();
      taskCtr, intNesting, lockNesting, osRunning, queuesFree := 0, 0, 0, false, queues;
      ghost var s1 := Blank(tcbTbl.Length, eventTbl.Length, queues);
      assert prioTbl[..] == s1.prioTbl;
      Adopt(s1);
    }

    method InitLists()
      requires rdyTbl.Length == 8 && tcbTbl.Length > 0 && eventTbl.Length > 0 && Apart()
      modifies this`rdyGrp, this`prioCur, this`prioHighRdy, this`tcbHighRdy, this`tcbCur, this`tcbList, this`tcbFreeList,
               this`eventFreeList, rdyTbl, tcbTbl, eventTbl
      ensures SetRep(rdyGrp, rdyTbl[..], {}) && prioCur == 0 && tcbCur == 0
      ensures tcbList == None && tcbFreeList == Some(0) && eventFreeList == Some(0)
      ensures TcbsRep(tcbTbl[..], Blank(tcbTbl.Length, 0, 0).tcbs, {}) && FreeLinked(tcbTbl[..], UpTo(tcbTbl.Length))
      ensures EventsRep(eventTbl[..], Blank(0, eventTbl.Length, 0).events) && PoolLinked(eventTbl[..], UpTo(eventTbl.Length))
      ensures prioTbl[..] == old(prioTbl[..])
    {
      InitRdyList();
      InitTcbList();
      InitEventList();
    }
  }
}
