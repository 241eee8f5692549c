/** What the rules and the gap lemmas warn of does happen: for each, a legal run from initialisation into a state
    where it does. Any kernel with room for two tasks and one event serves. */
module Witnesses {
  import opened PrioSets
  import opened KernelState
  import opened Primitives
  import opened EventServices
  import opened MutexServices
  import opened TaskServices
  import opened Scheduling
  import opened Runs
  import opened ServiceCases
  import opened Rules

  ghost predicate Room(s: State) {
    InitState(s) && |s.tcbs| >= 3 && |s.events| >= 1
  }

  ghost predicate Reached(s0: State, s: State) {
    exists ops :: LegalRun(s0, ops) && Final(s0, ops) == s
  }

  lemma Reaches(s0: State, s: State, op: Op)
    requires Reached(s0, s) && Legal(s, op)
    ensures Reached(s0, Step(s, op).s) && Inv(Step(s, op).s)
  {
    var ops :| LegalRun(s0, ops) && Final(s0, ops) == s;
    RunsExtend(s0, ops, op);
    StepKeeps(s, op);
    assert LegalRun(s0, ops + [op]);
  }

  lemma Sound(s0: State, s: State)
    requires Reached(s0, s)
    ensures Inv(s)
  {
    var ops :| LegalRun(s0, ops) && Final(s0, ops) == s;
    ReachableKeeps(s0, ops);
  }

  function IdleSlots(): seq<Slot> {
    seq(PRIOS, (p: nat) => if p == IDLE_PRIO then Task(0) else Vacant)
  }

  // The parts of a state that the runs below go through.
  ghost predicate Scene(s: State, live: set<nat>, slots: seq<Slot>, rdy: set<nat>, ev: Event, cur: nat, prioCur: nat) {
    && |s.tcbs| >= 3 && |s.events| >= 1 && s.live == live && s.prioTbl == slots && s.rdy == rdy && s.events[0] == ev
    && s.running && s.nesting == 0 && s.lock == 0 && s.cur == cur && s.prioCur == prioCur
  }

  lemma LeastIs(rdy: set<nat>, p: nat)
    requires IsLeast(rdy, p)
    ensures rdy != {} && Least(rdy) == p
  {
  }

  // Task 2 is created at priority `prio`; `p` is the most urgent priority then.
  lemma Second(s: State, prio: nat, p: nat)
    requires Inv(s) && s.running && s.nesting == 0 && s.lock == 0 && s.tcbs[s.cur].cont == Running
    requires prio < PRIOS && s.prioTbl[prio] == Vacant && s.tcbFree != [] && s.tcbFree[0] == 2 && |s.tcbs| >= 3
    requires IsLeast(s.rdy + {prio}, p) && (p == s.prioCur || p == prio)
    ensures Legal(s, OfTask(CreateTask(prio)))
    ensures var s' := Step(s, OfTask(CreateTask(prio))).s;
            && s'.tcbs == s.tcbs[2 := NewTcb(prio)] && s'.live == s.live + {2} && s'.prioTbl == s.prioTbl[prio := Task(2)]
            && s'.rdy == s.rdy + {prio} && s'.events == s.events && s'.running && s'.nesting == 0 && s'.lock == 0
            && s'.prioCur == p && s'.cur == if p == s.prioCur then s.cur else 2
  {
    TaskCreateCases(s, prio);
    LeastIs(s.rdy + {prio}, p);
  }

  // ---------- a task that owns a mutex ----------

  // Task 1 is created at priority 20.
  lemma OneTask(s0: State) returns (s: State)
    requires Room(s0)
    ensures Reached(s0, s) && Inv(s) && !s.running && s.nesting == 0 && s.lock == 0
    ensures |s.tcbs| == |s0.tcbs| && s.tcbs[0] == NewTcb(IDLE_PRIO) && s.tcbs[1] == NewTcb(20)
    ensures s.live == {0, 1} && s.tcbFree != [] && s.tcbFree[0] == 2
    ensures s.prioTbl == IdleSlots()[20 := Task(1)] && s.rdy == {20, IDLE_PRIO}
    ensures s.events == s0.events && s.evFree == s0.evFree
  {
    InitKeeps(s0);
    assert LegalRun(s0, []) && Final(s0, []) == s0;
    Reaches(s0, s0, OfTask(CreateTask(20)));
    s := Step(s0, OfTask(CreateTask(20))).s;
  }

  // It runs, creates mutex 0 with ceiling `pcp`, and takes it.
  lemma Started(s0: State) returns (s: State)
    requires Room(s0)
    ensures Reached(s0, s) && Scene(s, {0, 1}, IdleSlots()[20 := Task(1)], {20, IDLE_PRIO}, Event(Unused, {}), 1, 20)
    ensures s.tcbs[1] == NewTcb(20) && s.tcbFree != [] && s.tcbFree[0] == 2 && s.evFree == s0.evFree && s.events == s0.events
  {
    var s1 := OneTask(s0);
    Sound(s0, s1);
    LeastIs(s1.rdy, 20);
    Reaches(s0, s1, OfSched(StartCall));
    s := Step(s1, OfSched(StartCall)).s;
  }

  ghost predicate Ceil(pcp: nat) {
    pcp == 5 || pcp == 15
  }

  lemma Created(s0: State, pcp: nat) returns (s: State)
    requires Room(s0) && Ceil(pcp)
    ensures Reached(s0, s)
    ensures Scene(s, {0, 1}, IdleSlots()[20 := Task(1)][pcp := Reserved], {20, IDLE_PRIO}, Event(Mutex(pcp, AVAILABLE, None), {}), 1, 20)
    ensures s.tcbs[1] == NewTcb(20) && s.tcbFree != [] && s.tcbFree[0] == 2 && s.evFree == s0.evFree[1..]
    ensures |s.events| == |s0.events|
  {
    var s1 := Started(s0);
    Sound(s0, s1);
    Reaches(s0, s1, OfMutex(CreateMutex(pcp)));
    s := Step(s1, OfMutex(CreateMutex(pcp))).s;
  }

  lemma Owned(s0: State, pcp: nat) returns (s: State)
    requires Room(s0) && Ceil(pcp)
    ensures Reached(s0, s)
    ensures Scene(s, {0, 1}, IdleSlots()[20 := Task(1)][pcp := Reserved], {20, IDLE_PRIO}, Event(Mutex(pcp, 20, Some(1)), {}), 1, 20)
    ensures s.tcbs[1] == NewTcb(20).(owns := Some(0)) && s.tcbFree != [] && s.tcbFree[0] == 2
    ensures s.evFree == s0.evFree[1..] && |s.events| == |s0.events|
  {
    var s1 := Created(s0, pcp);
    Sound(s0, s1);
    Reaches(s0, s1, OfMutex(LockMutex(0, 0)));
    s := Step(s1, OfMutex(LockMutex(0, 0))).s;
  }

  // ---------- a more urgent task wants the mutex ----------

  lemma Preemption(s: State, pcp: nat)
    requires Ceil(pcp)
    requires Scene(s, {0, 1}, IdleSlots()[20 := Task(1)][pcp := Reserved], {20, IDLE_PRIO}, Event(Mutex(pcp, 20, Some(1)), {}), 1, 20)
    requires Inv(s) && s.tcbFree != [] && s.tcbFree[0] == 2 && s.tcbs[1].cont == Running
    ensures Legal(s, OfTask(CreateTask(10)))
    ensures var s' := Step(s, OfTask(CreateTask(10))).s;
            && Scene(s', {0, 1, 2}, IdleSlots()[20 := Task(1)][pcp := Reserved][10 := Task(2)], {10, 20, IDLE_PRIO},
                     Event(Mutex(pcp, 20, Some(1)), {}), 2, 10)
            && s'.tcbs == s.tcbs[2 := NewTcb(10)]
  {
    assert s.rdy + {10} == {10, 20, IDLE_PRIO} && s.live + {2} == {0, 1, 2};
    Second(s, 10, 10);
  }

  // Task 2 is created at priority 10 and runs.
  lemma Preempted(s0: State, pcp: nat) returns (s: State)
    requires Room(s0) && Ceil(pcp)
    ensures Reached(s0, s)
    ensures Scene(s, {0, 1, 2}, IdleSlots()[20 := Task(1)][pcp := Reserved][10 := Task(2)], {10, 20, IDLE_PRIO},
                  Event(Mutex(pcp, 20, Some(1)), {}), 2, 10)
    ensures s.tcbs[1] == NewTcb(20).(owns := Some(0)) && s.tcbs[2] == NewTcb(10)
  {
    var s1 := Owned(s0, pcp);
    Sound(s0, s1);
    Preemption(s1, pcp);
    Reaches(s0, s1, OfTask(CreateTask(10)));
    s := Step(s1, OfTask(CreateTask(10))).s;
  }

  lemma Contention(s: State, pcp: nat)
    requires Ceil(pcp) && Inv(s)
    requires Scene(s, {0, 1, 2}, IdleSlots()[20 := Task(1)][pcp := Reserved][10 := Task(2)], {10, 20, IDLE_PRIO},
                   Event(Mutex(pcp, 20, Some(1)), {}), 2, 10)
    requires s.tcbs[1] == NewTcb(20).(owns := Some(0)) && s.tcbs[2] == NewTcb(10)
    ensures Legal(s, OfMutex(LockMutex(0, 0)))
    ensures var s' := Step(s, OfMutex(LockMutex(0, 0))).s;
            && s'.tcbs == s.tcbs[1 := NewTcb(20).(owns := Some(0), prio := pcp)]
                                [2 := NewTcb(10).(stat := {MUTEX}, event := Some(0), cont := Pending(0, MUTEX))]
            && s'.live == s.live && s'.prioTbl == s.prioTbl[pcp := Task(1)] && s'.rdy == {pcp, IDLE_PRIO}
            && s'.events == s.events[0 := Event(Mutex(pcp, 20, Some(1)), {10})]
            && s'.running && s'.nesting == 0 && s'.lock == 0 && s'.cur == 1 && s'.prioCur == pcp
  {
    PendRaises(s, pcp);
    RaisedAndBlocked(s, pcp);
  }

  lemma PendRaises(s: State, pcp: nat)
    requires Ceil(pcp) && Inv(s) && AtTaskLevel(s) && s.cur == 2 && s.prioCur == 10 && |s.tcbs| >= 3 && |s.events| >= 1
    requires s.events[0] == Event(Mutex(pcp, 20, Some(1)), {})
    requires s.tcbs[1] == NewTcb(20).(owns := Some(0)) && s.tcbs[2] == NewTcb(10)
    ensures Legal(s, OfMutex(LockMutex(0, 0))) && |s.prioTbl| == PRIOS
    ensures var s1 := Block(RaiseOwner(s, 1, pcp), 0, MUTEX, 0);
            CanSwitch(s1) && Step(s, OfMutex(LockMutex(0, 0))).s == Sched(s1)
  {
    MutexPendCases(s, 0, 0);
    RaiseCases(s, 0);
  }

  // What raising task 1 and blocking task 2 make of the state.
  lemma RaisedAndBlocked(s: State, pcp: nat)
    requires Ceil(pcp) && |s.tcbs| >= 3 && |s.events| >= 1 && |s.prioTbl| == PRIOS && s.cur == 2
    requires s.rdy == {10, 20, IDLE_PRIO} && s.events[0] == Event(Mutex(pcp, 20, Some(1)), {})
    requires s.tcbs[1] == NewTcb(20).(owns := Some(0)) && s.tcbs[2] == NewTcb(10)
    ensures var s' := Block(RaiseOwner(s, 1, pcp), 0, MUTEX, 0);
            && s'.tcbs == s.tcbs[1 := NewTcb(20).(owns := Some(0), prio := pcp)]
                                [2 := NewTcb(10).(stat := {MUTEX}, event := Some(0), cont := Pending(0, MUTEX))]
            && s'.rdy == {pcp, IDLE_PRIO} && Least(s'.rdy) == pcp && s'.prioTbl == s.prioTbl[pcp := Task(1)]
            && s'.events == s.events[0 := Event(Mutex(pcp, 20, Some(1)), {10})]
  {
    var s' := Block(RaiseOwner(s, 1, pcp), 0, MUTEX, 0);
    assert s'.tcbs[2].stat == {MUTEX};
    assert s'.rdy == {pcp, IDLE_PRIO};
    LeastIs(s'.rdy, pcp);
    assert s'.events[0].wait == {10};
  }

  // It pends on the mutex: the owner is raised to the ceiling.
  lemma Contended(s0: State, pcp: nat) returns (s: State)
    requires Room(s0) && Ceil(pcp)
    ensures Reached(s0, s)
    ensures Scene(s, {0, 1, 2}, IdleSlots()[20 := Task(1)][pcp := Reserved][10 := Task(2)][pcp := Task(1)], {pcp, IDLE_PRIO},
                  Event(Mutex(pcp, 20, Some(1)), {10}), 1, pcp)
    ensures s.tcbs[1] == NewTcb(20).(owns := Some(0), prio := pcp)
    ensures s.tcbs[2] == NewTcb(10).(stat := {MUTEX}, event := Some(0), cont := Pending(0, MUTEX))
  {
    var s1 := Preempted(s0, pcp);
    Sound(s0, s1);
    Contention(s1, pcp);
    Reaches(s0, s1, OfMutex(LockMutex(0, 0)));
    s := Step(s1, OfMutex(LockMutex(0, 0))).s;
  }

  // A ceiling that is less urgent than a competitor does not bound the inversion.
  lemma LowCeilingInverts(s0: State) returns (s: State)
    requires Room(s0)
    ensures Reached(s0, s) && Inv(s) && HasCeiling(s, 0) && WaitsFor(s, 2, 0) && s.events[0].body.owner == Some(1)
    ensures |s.tcbs| >= 3 && s.tcbs[2].prio < s.tcbs[1].prio
  {
    s := Contended(s0, 15);
    Sound(s0, s);
  }

  // ---------- a raised owner that nobody waits for ----------

  // The owner deletes the waiter and creates a new task at its priority: ready, and less urgent than the ceiling.
  lemma Abandoned(s0: State) returns (s: State)
    requires Room(s0)
    ensures Reached(s0, s)
    ensures Scene(s, {0, 1}, IdleSlots()[20 := Task(1)][5 := Reserved][10 := Task(2)][5 := Task(1)][10 := Vacant], {5, IDLE_PRIO},
                  Event(Mutex(5, 20, Some(1)), {}), 1, 5)
    ensures s.tcbs[1] == NewTcb(20).(owns := Some(0), prio := 5) && s.tcbFree != [] && s.tcbFree[0] == 2
  {
    var s1 := Contended(s0, 5);
    Sound(s0, s1);
    Removal(s1);
    Reaches(s0, s1, OfTask(DeleteTask(10)));
    s := Step(s1, OfTask(DeleteTask(10))).s;
  }

  lemma Removal(s: State)
    requires Inv(s) && Scene(s, {0, 1, 2}, s.prioTbl, {5, IDLE_PRIO}, Event(Mutex(5, 20, Some(1)), {10}), 1, 5)
    requires s.prioTbl[10] == Task(2) && s.tcbs[1].cont == Running && s.tcbs[2].event == Some(0)
    requires s.tcbs[2].prio == 10 && s.tcbs[2].owns == None
    ensures Legal(s, OfTask(DeleteTask(10)))
    ensures var s' := Step(s, OfTask(DeleteTask(10))).s;
            && |s'.tcbs| == |s.tcbs| && s'.tcbs[1] == s.tcbs[1] && s'.live == {0, 1} && s'.prioTbl == s.prioTbl[10 := Vacant]
            && s'.rdy == {5, IDLE_PRIO} && |s'.events| == |s.events| && s'.events[0] == Event(Mutex(5, 20, Some(1)), {})
            && s'.tcbFree == [2] + s.tcbFree && s'.running && s'.nesting == 0 && s'.lock == 0 && s'.cur == 1 && s'.prioCur == 5
  {
    TaskDelCases(s, 10);
    LeastIs({5, IDLE_PRIO}, 5);
    assert Dismiss(s, 2).rdy == {5, IDLE_PRIO};
  }

  lemma RaisedAlone(s0: State) returns (s: State)
    requires Room(s0)
    ensures Reached(s0, s)
    ensures Scene(s, {0, 1, 2}, IdleSlots()[20 := Task(1)][5 := Reserved][10 := Task(2)][5 := Task(1)][10 := Vacant][10 := Task(2)],
                  {5, 10, IDLE_PRIO}, Event(Mutex(5, 20, Some(1)), {}), 1, 5)
    ensures s.tcbs[1] == NewTcb(20).(owns := Some(0), prio := 5) && s.tcbs[2] == NewTcb(10)
  {
    var s1 := Abandoned(s0);
    Sound(s0, s1);
    Second(s1, 10, 5);
    Reaches(s0, s1, OfTask(CreateTask(10)));
    s := Step(s1, OfTask(CreateTask(10))).s;
  }

  // Its post leaves a less urgent task running.
  lemma DemotionGapHappens(s0: State) returns (s: State)
    requires Room(s0)
    ensures Reached(s0, s) && Legal(s, OfMutex(UnlockMutex(0))) && Optimal(s)
    ensures !Optimal(Step(s, OfMutex(UnlockMutex(0))).s)
  {
    s := RaisedAlone(s0);
    Sound(s0, s);
    DemotionGapIsExact(s, 0);
  }

  // By naming its original priority it suspends itself, and runs on.
  lemma SelfSuspensionHappens(s0: State) returns (s: State)
    requires Room(s0)
    ensures Reached(s0, s) && Inv(s) && AtTaskLevel(s) && CanSuspend(s, 20)
    ensures var s' := TaskSuspend(s, 20).s;
            s'.cur == s.cur && s.cur < |s'.tcbs| && SUSPEND in s'.tcbs[s'.cur].stat && s'.prioCur !in s'.rdy
  {
    s := RaisedAlone(s0);
    Sound(s0, s);
  }

  // ---------- two tasks, an interrupt and the scheduler lock ----------

  // Task 1 at priority 20 runs; task 2 at priority 30 is ready.
  lemma TwoReady(s0: State) returns (s: State)
    requires Room(s0)
    ensures Reached(s0, s)
    ensures Scene(s, {0, 1, 2}, IdleSlots()[20 := Task(1)][30 := Task(2)], {20, 30, IDLE_PRIO}, Event(Unused, {}), 1, 20)
    ensures s.tcbs[1] == NewTcb(20) && s.tcbs[2] == NewTcb(30)
  {
    var s1 := Started(s0);
    Sound(s0, s1);
    Second(s1, 30, 20);
    Reaches(s0, s1, OfTask(CreateTask(30)));
    s := Step(s1, OfTask(CreateTask(30))).s;
  }

  // An interrupt service routine moves task 1 to 40 and task 2 to 20, and returns to task 1.
  lemma TwoChangesHappen(s0: State) returns (s: State)
    requires Room(s0)
    ensures Reached(s0, s) && Inv(s) && s.running && s.nesting == 1 && s.lock == 0 && s.cur == 1
    ensures |s.tcbs| >= 3 && s.tcbs[1] == NewTcb(20) && s.tcbs[2] == NewTcb(30) && |s.prioTbl| == PRIOS
    ensures var s2 := Rename(Rename(s, 1, 20, 40), 2, 30, 20);
            CanSwitch(s2) && IntExit(s2).cur == 1 && IsLeast(IntExit(s2).rdy, 20) && IntExit(s2).prioTbl[20] == Task(2)
  {
    var s1 := TwoReady(s0);
    Sound(s0, s1);
    Reaches(s0, s1, OfSched(IntEnterCall));
    s := Step(s1, OfSched(IntEnterCall)).s;
    TwoChangesInInterrupt(s, 2, 40);
  }

  // Task 1 locks the scheduler `n` times.
  lemma {:induction false} Locked(s0: State, n: nat) returns (s: State)
    requires Room(s0) && n <= 255
    ensures Reached(s0, s) && Inv(s) && s.running && s.nesting == 0 && s.lock == n && s.cur == 1
    ensures |s.tcbs| >= 3 && s.tcbs[1] == NewTcb(20) && s.tcbs[2] == NewTcb(30) && |s.prioTbl| == PRIOS && s.prioTbl[30] == Task(2)
    ensures s.prioTbl == IdleSlots()[20 := Task(1)][30 := Task(2)]
  {
    if n == 0 {
      s := TwoReady(s0);
      Sound(s0, s);
    } else {
      var s1 := Locked(s0, n - 1);
      Sound(s0, s1);
      Reaches(s0, s1, OfSched(LockCall));
      s := Step(s1, OfSched(LockCall)).s;
    }
  }

  // With the lock at 255 it deletes task 2, and the lock is 254.
  lemma SaturatedLockIsReleased(s0: State) returns (s: State)
    requires Room(s0)
    ensures Reached(s0, s) && s.lock == 255 && Legal(s, OfTask(DeleteTask(30)))
    ensures Step(s, OfTask(DeleteTask(30))).err == ErrNone && Step(s, OfTask(DeleteTask(30))).s.lock == 254
  {
    s := Locked(s0, 255);
    Sound(s0, s);
    DeletionKeepsLock(s, 30);
  }

  // ---------- suspended by itself under the scheduler lock ----------

  // A task that suspends itself with the scheduler locked runs on, suspended and not ready, although it names itself.
  lemma SuspensionUnderLock(s0: State) returns (s: State)
    requires Room(s0)
    ensures Reached(s0, s) && Inv(s) && s.lock == 1 && CanSuspend(s, PRIO_SELF) && Named(s, PRIO_SELF) == s.tcbs[s.cur].prio
    ensures var s' := TaskSuspend(s, PRIO_SELF).s; !RunOk(s') && s'.cur == s.cur && s'.prioCur !in s'.rdy
  {
    s := Locked(s0, 1);
    Sound(s0, s);
  }

  // The same task changing its priority is no longer known by its priority, and deleting itself it runs on, dead.
  lemma ChangeUnderLock(s0: State) returns (s: State)
    requires Room(s0)
    ensures Reached(s0, s) && Inv(s) && s.running && s.lock == 1 && CanChange(s, PRIO_SELF, 40)
    ensures var r := ChangePrio(s, PRIO_SELF, 40);
            r.err == ErrNone && r.s.cur == s.cur && s.cur < |r.s.tcbs| && r.s.prioCur != r.s.tcbs[s.cur].prio && !RunOk(r.s)
  {
    s := Locked(s0, 1);
    Sound(s0, s);
    ChangeCases(s, PRIO_SELF, 40);
    SelfChange(s, PRIO_SELF, 40);
  }

  lemma DeletionUnderLock(s0: State) returns (s: State)
    requires Room(s0)
    ensures Reached(s0, s) && Inv(s) && s.running && s.lock == 1 && CanDelete(s, PRIO_SELF)
    ensures var r := TaskDel(s, PRIO_SELF); r.err == ErrNone && r.s.cur == s.cur && r.s.cur !in r.s.live && !RunOk(r.s)
  {
    s := Locked(s0, 1);
    Sound(s0, s);
    TaskDelCases(s, PRIO_SELF);
  }

  lemma RaisedAndLocked(s0: State) returns (s: State)
    requires Room(s0)
    ensures Reached(s0, s) && Inv(s) && s.running && s.nesting == 0 && s.lock == 1 && s.cur == 1 && |s.events| >= 1
    ensures s.events[0] == Event(Mutex(5, 20, Some(1)), {}) && |s.tcbs| >= 3
    ensures s.tcbs[1] == NewTcb(20).(owns := Some(0), prio := 5) && |s.prioTbl| == PRIOS && s.prioTbl[5] == Task(1)
  {
    var s1 := RaisedAlone(s0);
    Sound(s0, s1);
    Reaches(s0, s1, OfSched(LockCall));
    s := Step(s1, OfSched(LockCall)).s;
  }

  // If it is a raised mutex owner and posts the mutex then, it becomes ready though it is suspended.
  lemma PostOfSuspended(s0: State) returns (s: State)
    requires Room(s0)
    ensures Reached(s0, s) && Inv(s) && s.cur == 1 && CanSuspend(s, PRIO_SELF)
    ensures var s1 := TaskSuspend(s, PRIO_SELF).s;
            && Core(s1) && OwnedByCurrent(s1, 0) && s1.nesting == 0 && s1.cur == s.cur
            && var s2 := MutexPost(s1, 0).s;
            && Shape(s2) && s.cur in s2.live && s.cur < |s2.tcbs| && !TaskOk(s2, s.cur)
            && SUSPEND in s2.tcbs[s.cur].stat && s2.tcbs[s.cur].prio in s2.rdy
  {
    s := RaisedAndLocked(s0);
    ParkCore(s, 1);
    PostMakesReady(TaskSuspend(s, PRIO_SELF).s, 0);
  }

  // ---------- an owner that waits for something else ----------

  // Task 1 owns mutex 0 and has created semaphore 1.
  lemma OwnerWithSemaphore(s0: State) returns (s: State)
    requires Room(s0) && |s0.events| >= 2
    ensures Reached(s0, s) && |s.events| >= 2 && s.events[1] == Event(Sem(0), {})
    ensures Scene(s, {0, 1}, IdleSlots()[20 := Task(1)][5 := Reserved], {20, IDLE_PRIO}, Event(Mutex(5, 20, Some(1)), {}), 1, 20)
    ensures s.tcbs[1] == NewTcb(20).(owns := Some(0))
  {
    var s1 := Owned(s0, 5);
    Sound(s0, s1);
    assert s1.evFree[0] == 1;
    Reaches(s0, s1, OfEvent(CreateEvent(Sem(0))));
    s := Step(s1, OfEvent(CreateEvent(Sem(0)))).s;
  }

  // If it pends on the semaphore with a timeout of one tick, it is ready after the tick but still on the wait list. Raised
  // then, it leaves its old bit behind.
  lemma StaleBit(s0: State) returns (s: State)
    requires Room(s0) && |s0.events| >= 2
    ensures Reached(s0, s) && s.cur < |s.tcbs| && |s.events| >= 2
    ensures var s1 := Tick(Block(s, 1, SEM, 1));
            && Shape(s1) && WaitersOk(s1) && 1 in s1.live && s1.tcbs[1].owns == Some(0) && s1.tcbs[1].pend == PendTimeout
            && s1.tcbs[1].event == Some(1) && 20 in s1.rdy
            && var s2 := RaiseOwner(s1, 1, 5);
            && Shape(s2) && !WaitersOk(s2) && 20 in s2.events[1].wait && s2.tcbs[1].prio == 5
  {
    s := OwnerWithSemaphore(s0);
    Sound(s0, s);
    TimedOutOwner(s);
    RaiseCarriesWaitBit(Tick(Block(s, 1, SEM, 1)), 1, 5);
  }

  lemma TimedOutOwner(s: State)
    requires Inv(s) && |s.events| >= 2 && s.events[1] == Event(Sem(0), {})
    requires Scene(s, {0, 1}, IdleSlots()[20 := Task(1)][5 := Reserved], {20, IDLE_PRIO}, Event(Mutex(5, 20, Some(1)), {}), 1, 20)
    requires s.tcbs[1] == NewTcb(20).(owns := Some(0))
    ensures var s1 := Tick(Block(s, 1, SEM, 1));
            && Shape(s1) && WaitersOk(s1) && s1.live == {0, 1} && |s1.tcbs| == |s.tcbs| && s1.prioTbl == s.prioTbl
            && s1.tcbs[1] == s.tcbs[1].(pend := PendTimeout, event := Some(1), cont := Pending(1, SEM))
            && 20 in s1.rdy && |s1.events| == |s.events| && s1.events[1].wait == {20}
  {
    var s1 := Tick(Block(s, 1, SEM, 1));
    assert Ticks(Block(s, 1, SEM, 1), 1) && WakesUp(Block(s, 1, SEM, 1).tcbs[1]);
    assert ({} + {SEM}) - PEND_ANY == {};
    forall e, p | 0 <= e < |s1.events| && p in s1.events[e].wait
      ensures TaskAt(s1, p) && s1.tcbs[s1.prioTbl[p].t].event == Some(e)
    {
      assert p == 20 || (p in s.events[e].wait && TaskAt(s, p));
    }
  }
}
