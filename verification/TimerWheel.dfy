/** Software timers on a hashed wheel: a running timer hangs on the spoke given by its match time modulo the
    wheel size, so that a signal looks at one spoke only. The specification looks at every timer instead,
    and counts the signals that remain. */
module TimerWheel {
  import opened PrioSets
  import opened KernelState
  import opened Chains

  const WHEEL_SIZE := 7

  datatype TmrState = TmrUnused | TmrStopped | TmrCompleted | TmrRunning

  datatype Tmr = Tmr(state: TmrState, dly: nat, period: nat, periodic: bool, matchTime: nat)

  // How a timer is stopped, and what the caller is told.
  datatype StopOpt = StopSilently | WithOwnArg | WithGivenArg | BadStopOpt
  datatype TmrErr = TmrErrNone | TmrErrNoCallback | TmrErrInvalidOpt | TmrErrStopped | TmrErrInactive

  const CLEARED_TMR := Tmr(TmrUnused, 0, 0, false, 0)

  // ---------- the specification: every timer is looked at ----------

  function Later(time: nat, d: nat): (t: nat)
    ensures t < WORD
  {
    (time + d) % WORD
  }

  predicate Fires(t: Tmr, now: nat) {
    t.state == TmrRunning && t.matchTime == now
  }

  // The match time of a timer that is started, or restarted by its own expiry.
  function MatchOf(t: Tmr, now: nat, again: bool): nat {
    Later(now, if again || t.dly == 0 then t.period else t.dly)
  }

  function Started(t: Tmr, now: nat, again: bool): Tmr {
    t.(state := TmrRunning, matchTime := MatchOf(t, now, again))
  }

  function AfterSignal(t: Tmr, now: nat): Tmr {
    if !Fires(t, now) then t
    else if t.periodic then Started(t, now, true)
    else t.(state := TmrCompleted)
  }

  function FullScan(tmrs: seq<Tmr>, now: nat): seq<Tmr> {
    seq(|tmrs|, (t: nat) requires t < |tmrs| => AfterSignal(tmrs[t], now))
  }

  // ---------- the signals that remain ----------

  // How many signals until the timer fires: between 1 and a full turn of the counter.
  function Remaining(t: Tmr, now: nat): (r: nat)
    requires t.matchTime < WORD && now < WORD
  {
    if t.matchTime > now then t.matchTime - now else t.matchTime + WORD - now
  }

  // A signal takes one from what remains, and the timer fires when one signal remained.
  lemma SignalCountsDown(t: Tmr, now: nat)
    requires t.state == TmrRunning && t.matchTime < WORD && now < WORD
    ensures Fires(t, Later(now, 1)) <==> Remaining(t, now) == 1
    ensures var t' := AfterSignal(t, Later(now, 1));
            if Remaining(t, now) > 1 then t' == t && Remaining(t', Later(now, 1)) == Remaining(t, now) - 1
            else if t.periodic then
              t'.state == TmrRunning
              && (0 < t.period < WORD ==> Remaining(t', Later(now, 1)) == t.period)
              && (t.period == 0 ==> Remaining(t', Later(now, 1)) == WORD)
            else t'.state == TmrCompleted
  {
    var now' := Later(now, 1);
    assert now' == if now == WORD - 1 then 0 else now + 1;
    if t.period < WORD {
      assert Later(now', t.period) == if now' + t.period < WORD then now' + t.period else now' + t.period - WORD;
    }
  }

  // A timer that is started has its delay to go, or its period if it has no delay.
  lemma StartSetsRemaining(t: Tmr, now: nat)
    requires now < WORD && t.dly < WORD && t.period < WORD
    ensures var d := if t.dly == 0 then t.period else t.dly;
            Remaining(Started(t, now, false), now) == if d == 0 then WORD else d
  {
    var d := if t.dly == 0 then t.period else t.dly;
    assert Later(now, d) == if now + d < WORD then now + d else now + d - WORD;
  }

  // ---------- runs of the specification ----------

  datatype Timers = Timers(tmrs: seq<Tmr>, time: nat)

  datatype TmrOp =
    | Signal | Start(t: nat) | Stop(t: nat) | Delete(t: nat)
    | Create(t: nat, dly: nat, period: nat, periodic: bool)

  function Freed(t: Tmr): Tmr {
    t.(state := TmrUnused, period := 0, periodic := false, matchTime := 0)
  }

  function StepTimers(ts: Timers, op: TmrOp): Timers {
    match op
    case Signal => Timers(FullScan(ts.tmrs, Later(ts.time, 1)), Later(ts.time, 1))
    case Start(t) =>
      if t < |ts.tmrs| && !ts.tmrs[t].state.TmrUnused? then ts.(tmrs := ts.tmrs[t := Started(ts.tmrs[t], ts.time, false)]) else ts
    case Stop(t) =>
      if t < |ts.tmrs| && ts.tmrs[t].state.TmrRunning? then ts.(tmrs := ts.tmrs[t := ts.tmrs[t].(state := TmrStopped)]) else ts
    case Delete(t) =>
      if t < |ts.tmrs| && !ts.tmrs[t].state.TmrUnused? then ts.(tmrs := ts.tmrs[t := Freed(ts.tmrs[t])]) else ts
    case Create(t, dly, period, periodic) =>
      if t < |ts.tmrs| && ts.tmrs[t].state.TmrUnused? then
        ts.(tmrs := ts.tmrs[t := Tmr(TmrStopped, dly, period, periodic, ts.tmrs[t].matchTime)])
      else ts
  }

  function RunTimers(ts: Timers, ops: seq<TmrOp>): Timers
    decreases |ops|
  {
    if ops == [] then ts else RunTimers(StepTimers(ts, ops[0]), ops[1..])
  }

  function Signals(ops: seq<TmrOp>): nat {
    if ops == [] then 0 else (if ops[0] == Signal then 1 else 0) + Signals(ops[1..])
  }

  // No call names timer `t`.
  predicate Spares(ops: seq<TmrOp>, t: nat) {
    forall i :: 0 <= i < |ops| ==> ops[i] == Signal || ops[i].t != t
  }

  predicate Armed(ts: Timers, t: nat, d: nat) {
    && t < |ts.tmrs| && ts.time < WORD && ts.tmrs[t].matchTime < WORD && ts.tmrs[t].state == TmrRunning
    && Remaining(ts.tmrs[t], ts.time) == d
  }

  // Whatever is done to the other timers, a running timer with `d` signals to go does not change during
  // the next d - 1 signals, and fires on the d-th.
  lemma {:induction false} CountsDown(ts: Timers, ops: seq<TmrOp>, t: nat, d: nat)
    requires Armed(ts, t, d) && Spares(ops, t) && Signals(ops) < d
    ensures var ts' := RunTimers(ts, ops);
            && Armed(ts', t, d - Signals(ops)) && ts'.tmrs[t] == ts.tmrs[t]
            && (Fires(ts'.tmrs[t], Later(ts'.time, 1)) <==> Signals(ops) == d - 1)
    decreases |ops|
  {
    SignalCountsDown(ts.tmrs[t], ts.time);
    if ops != [] {
      CountsDown(StepTimers(ts, ops[0]), ops[1..], t, if ops[0] == Signal then d - 1 else d);
    }
  }

  // A periodic timer that fires has a full period to go again; a one-shot timer is done.
  lemma RearmsOrCompletes(ts: Timers, t: nat)
    requires Armed(ts, t, 1) && ts.tmrs[t].period < WORD
    ensures var ts' := StepTimers(ts, Signal);
            if ts.tmrs[t].periodic then Armed(ts', t, if ts.tmrs[t].period == 0 then WORD else ts.tmrs[t].period)
            else t < |ts'.tmrs| && ts'.tmrs[t].state == TmrCompleted
  {
    SignalCountsDown(ts.tmrs[t], ts.time);
  }

  // A timer started with delay d >= 1 fires on exactly the d-th signal after the start.
  lemma DelayIsExact(ts: Timers, t: nat, ops: seq<TmrOp>)
    requires t < |ts.tmrs| && ts.time < WORD && !ts.tmrs[t].state.TmrUnused?
    requires 0 < ts.tmrs[t].dly < WORD && ts.tmrs[t].period < WORD
    requires Spares(ops, t) && Signals(ops) < ts.tmrs[t].dly
    ensures var ts' := RunTimers(StepTimers(ts, Start(t)), ops);
            && Armed(ts', t, ts.tmrs[t].dly - Signals(ops))
            && ts'.tmrs[t].period == ts.tmrs[t].period && ts'.tmrs[t].periodic == ts.tmrs[t].periodic
            && (Fires(ts'.tmrs[t], Later(ts'.time, 1)) <==> Signals(ops) == ts.tmrs[t].dly - 1)
  {
    StartSetsRemaining(ts.tmrs[t], ts.time);
    CountsDown(StepTimers(ts, Start(t)), ops, t, ts.tmrs[t].dly);
  }

  // The same from its creation on, with the delay and the period that the creator gave.
  lemma CreatedDelayIsExact(ts: Timers, t: nat, dly: nat, period: nat, periodic: bool, ops: seq<TmrOp>)
    requires t < |ts.tmrs| && ts.time < WORD && ts.tmrs[t].state.TmrUnused? && 0 < dly < WORD && period < WORD
    requires Spares(ops, t) && Signals(ops) < dly
    ensures var ts' := RunTimers(StepTimers(StepTimers(ts, Create(t, dly, period, periodic)), Start(t)), ops);
            && Armed(ts', t, dly - Signals(ops)) && ts'.tmrs[t].period == period && ts'.tmrs[t].periodic == periodic
            && (Fires(ts'.tmrs[t], Later(ts'.time, 1)) <==> Signals(ops) == dly - 1)
  {
    var ts1 := StepTimers(ts, Create(t, dly, period, periodic));
    assert ts1.tmrs[t] == Tmr(TmrStopped, dly, period, periodic, ts.tmrs[t].matchTime);
    DelayIsExact(ts1, t, ops);
  }

  // A timer that does not run stays as it is, whatever is done to the others.
  lemma {:induction false} QuietStays(ts: Timers, ops: seq<TmrOp>, t: nat)
    requires t < |ts.tmrs| && !ts.tmrs[t].state.TmrRunning? && Spares(ops, t)
    ensures t < |RunTimers(ts, ops).tmrs| && RunTimers(ts, ops).tmrs[t] == ts.tmrs[t]
    decreases |ops|
  {
    if ops != [] {
      QuietStays(StepTimers(ts, ops[0]), ops[1..], t);
    }
  }

  // A timer that has been stopped or deleted does not fire again until it is started.
  lemma StoppedIsQuiet(ts: Timers, t: nat, op: TmrOp, ops: seq<TmrOp>, now: nat)
    requires t < |ts.tmrs| && (op == Stop(t) || op == Delete(t)) && Spares(ops, t)
    ensures var ts' := RunTimers(StepTimers(ts, op), ops);
            && t < |ts'.tmrs| && !Fires(ts'.tmrs[t], now)
            && (op == Stop(t) ==>
                  ts'.tmrs[t] == if ts.tmrs[t].state == TmrRunning then ts.tmrs[t].(state := TmrStopped) else ts.tmrs[t])
            && (op == Delete(t) ==> ts'.tmrs[t].state == TmrUnused)
  {
    QuietStays(StepTimers(ts, op), ops, t);
  }

  // How often timer `t` fires in the run.
  function Firings(ts: Timers, ops: seq<TmrOp>, t: nat): nat
    decreases |ops|
  {
    if ops == [] then 0
    else
      (if ops[0] == Signal && t < |ts.tmrs| && Fires(ts.tmrs[t], Later(ts.time, 1)) then 1 else 0)
      + Firings(StepTimers(ts, ops[0]), ops[1..], t)
  }

  // A periodic timer fires when its delay is over and then once a period; a one-shot timer fires once.
  lemma {:induction false} FiresPeriodically(ts: Timers, ops: seq<TmrOp>, t: nat, d: nat)
    requires Armed(ts, t, d) && Spares(ops, t) && 0 < ts.tmrs[t].period < WORD
    ensures Firings(ts, ops, t) ==
            if Signals(ops) < d then 0 else if ts.tmrs[t].periodic then 1 + (Signals(ops) - d) / ts.tmrs[t].period else 1
    decreases |ops|
  {
    if ops != [] {
      var ts1, p := StepTimers(ts, ops[0]), ts.tmrs[t].period;
      SignalCountsDown(ts.tmrs[t], ts.time);
      if ops[0] != Signal {
        FiresPeriodically(ts1, ops[1..], t, d);
      } else if d > 1 {
        FiresPeriodically(ts1, ops[1..], t, d - 1);
      } else if ts.tmrs[t].periodic {
        FiresPeriodically(ts1, ops[1..], t, p);
        OnePeriodLess(Signals(ops) - 1, p);
      } else {
        QuietNeverFires(ts1, ops[1..], t);
      }
    }
  }

  lemma OnePeriodLess(k: nat, p: nat)
    requires p > 0
    ensures k / p == if k < p then 0 else 1 + (k - p) / p
  {
    if k < p {
      Quotient(k, p, 0, k);
    } else {
      var q, r := (k - p) / p, (k - p) % p;
      assert k - p == q * p + r;
      Quotient(k, p, q + 1, r);
    }
  }

  lemma Quotient(n: nat, p: nat, q: nat, r: nat)
    requires p > 0 && r < p && n == q * p + r
    ensures n / p == q
  {
    var d := n / p - q;
    assert n == n / p * p + n % p;
    assert d * p == r - n % p;
    Multiple(d, p);
  }

  lemma Multiple(d: int, p: int)
    requires p > 0
    ensures (d > 0 ==> d * p >= p) && (d < 0 ==> d * p <= -p)
  {
  }

  lemma {:induction false} QuietNeverFires(ts: Timers, ops: seq<TmrOp>, t: nat)
    requires t < |ts.tmrs| && !ts.tmrs[t].state.TmrRunning? && Spares(ops, t)
    ensures Firings(ts, ops, t) == 0
    decreases |ops|
  {
    if ops != [] {
      QuietNeverFires(StepTimers(ts, ops[0]), ops[1..], t);
    }
  }

  // ---------- the wheel ----------

  function Spoke(m: nat): (k: nat)
    ensures k < WHEEL_SIZE
  {
    m % WHEEL_SIZE
  }

  // Timer `t` belongs on spoke `k`.
  predicate Rides(tmrs: seq<Tmr>, t: nat, k: nat) {
    t < |tmrs| && tmrs[t].state == TmrRunning && Spoke(tmrs[t].matchTime) == k
  }

  // The lists of the spokes hold each running timer once, on the spoke of its match time.
  ghost predicate OnWheel(tmrs: seq<Tmr>, spokes: seq<seq<nat>>) {
    && |spokes| == WHEEL_SIZE
    && (forall k :: 0 <= k < WHEEL_SIZE ==> NoDup(spokes[k]))
    && (forall k: nat, t: nat :: k < WHEEL_SIZE ==> (t in spokes[k] <==> Rides(tmrs, t, k)))
  }

  ghost predicate FreeChain(l: seq<Link>, q: seq<nat>) {
    NoDup(q) && forall i :: 0 <= i < |q| ==> FreeAt(l, q, i)
  }

  predicate FreeAt(l: seq<Link>, q: seq<nat>, i: nat)
    requires i < |q|
  {
    q[i] < |l| && l[q[i]].next == At(q, i + 1)
  }

  ghost predicate InPool(tmrs: seq<Tmr>, q: seq<nat>) {
    && (forall t :: t in q ==> t < |tmrs| && tmrs[t].state == TmrUnused)
    && (forall t :: 0 <= t < |tmrs| && tmrs[t].state == TmrUnused ==> t in q)
  }

  ghost predicate InRange(tmrs: seq<Tmr>) {
    forall t :: 0 <= t < |tmrs| ==> tmrs[t].matchTime < WORD && tmrs[t].dly < WORD && tmrs[t].period < WORD
  }

  ghost predicate SpokesLinked(l: seq<Link>, spokes: seq<seq<nat>>) {
    forall k :: 0 <= k < |spokes| ==> Chain(l, spokes[k])
  }

  // Timer `t`, which is not on the wheel, is started and put at the front of its spoke.
  lemma JoinWheel(tmrs: seq<Tmr>, spokes: seq<seq<nat>>, t: nat, x: Tmr)
    requires OnWheel(tmrs, spokes) && t < |tmrs| && tmrs[t].state != TmrRunning && x.state == TmrRunning
    ensures var k := Spoke(x.matchTime);
            t !in spokes[k] && OnWheel(tmrs[t := x], spokes[k := [t] + spokes[k]])
  {
    var k := Spoke(x.matchTime);
    var tmrs', spokes' := tmrs[t := x], spokes[k := [t] + spokes[k]];
    assert !Rides(tmrs, t, k);
    forall j: nat, u: nat | j < WHEEL_SIZE
      ensures u in spokes'[j] <==> Rides(tmrs', u, j)
    {
      assert u in spokes[j] <==> Rides(tmrs, u, j);
    }
  }

  lemma LeaveWheel(tmrs: seq<Tmr>, spokes: seq<seq<nat>>, k: nat, i: nat, x: Tmr)
    requires OnWheel(tmrs, spokes) && k < WHEEL_SIZE && i < |spokes[k]| && x.state != TmrRunning
    ensures spokes[k][i] < |tmrs| && OnWheel(tmrs[spokes[k][i] := x], spokes[k := Drop(spokes[k], i)])
  {
    var t := spokes[k][i];
    assert t in spokes[k] && Rides(tmrs, t, k);
    DropMembers(spokes[k], i);
    DropDistinct(spokes[k], i);
    var tmrs', spokes' := tmrs[t := x], spokes[k := Drop(spokes[k], i)];
    forall j: nat, u: nat | j < WHEEL_SIZE
      ensures u in spokes'[j] <==> Rides(tmrs', u, j)
    {
      assert u in spokes[j] <==> Rides(tmrs, u, j);
    }
  }

  // ---------- the links ----------

  // The lists of two spokes, or of a spoke and the pool, have nothing in common.
  lemma ListsApart(tmrs: seq<Tmr>, spokes: seq<seq<nat>>, pool: seq<nat>, t: nat)
    requires OnWheel(tmrs, spokes) && InPool(tmrs, pool)
    ensures forall j, k :: 0 <= j < WHEEL_SIZE && 0 <= k < WHEEL_SIZE && t in spokes[j] && t in spokes[k] ==> j == k
    ensures forall j :: 0 <= j < WHEEL_SIZE && t in spokes[j] ==> t !in pool
  {
    forall j: nat | j < WHEEL_SIZE && t in spokes[j]
      ensures Rides(tmrs, t, j)
    {
    }
  }

  lemma FreeFrame(l: seq<Link>, l': seq<Link>, q: seq<nat>)
    requires FreeChain(l, q) && |l'| == |l| && forall i :: 0 <= i < |q| && q[i] < |l| ==> l'[q[i]] == l[q[i]]
    ensures FreeChain(l', q)
  {
    forall i | 0 <= i < |q|
      ensures FreeAt(l', q, i)
    {
      assert FreeAt(l, q, i);
    }
  }

  lemma OtherSpoke(l: seq<Link>, l': seq<Link>, spokes: seq<seq<nat>>, j: nat)
    requires j < |spokes| && SpokesLinked(l, spokes) && |l'| == |l|
    requires forall u :: u in spokes[j] && u < |l| ==> l'[u] == l[u]
    ensures Chain(l', spokes[j])
  {
    ChainBounds(l, spokes[j]);
    ChainFrame(l, l', spokes[j]);
  }

  lemma LinksAfterPush(l: seq<Link>, tmrs: seq<Tmr>, spokes: seq<seq<nat>>, pool: seq<nat>, t: nat, k: nat)
    requires |l| == |tmrs| && OnWheel(tmrs, spokes) && InPool(tmrs, pool) && SpokesLinked(l, spokes) && FreeChain(l, pool)
    requires t < |tmrs| && tmrs[t].state != TmrRunning && tmrs[t].state != TmrUnused && k < WHEEL_SIZE
    ensures spokes[k] != [] ==> spokes[k][0] < |l| && spokes[k][0] != t
    ensures var l' := Pushed(l, t, At(spokes[k], 0));
            |l'| == |l| && SpokesLinked(l', spokes[k := [t] + spokes[k]]) && FreeChain(l', pool)
  {
    assert !Rides(tmrs, t, k);
    PushChain(l, spokes[k], t);
    var l', spokes' := Pushed(l, t, At(spokes[k], 0)), spokes[k := [t] + spokes[k]];
    forall j | 0 <= j < |spokes'|
      ensures Chain(l', spokes'[j])
    {
      if j != k {
        assert !Rides(tmrs, t, j);
        if spokes[k] != [] {
          assert spokes[k][0] in spokes[k];
          ListsApart(tmrs, spokes, pool, spokes[k][0]);
        }
        OtherSpoke(l, l', spokes, j);
      }
    }
    if spokes[k] != [] {
      assert spokes[k][0] in spokes[k];
      ListsApart(tmrs, spokes, pool, spokes[k][0]);
    }
    FreeFrame(l, l', pool);
  }

  // The timer leaves its spoke and its own links are cleared.
  function Removed(l: seq<Link>, t: nat): seq<Link>
    requires t < |l| && (l[t].next.Some? ==> l[t].next.value < |l|) && (l[t].prev.Some? ==> l[t].prev.value < |l|)
  {
    Cut(l, t)[t := Link(None, None)]
  }

  lemma LinksAfterCut(l: seq<Link>, tmrs: seq<Tmr>, spokes: seq<seq<nat>>, pool: seq<nat>, k: nat, i: nat)
    requires |l| == |tmrs| && OnWheel(tmrs, spokes) && InPool(tmrs, pool) && SpokesLinked(l, spokes) && FreeChain(l, pool)
    requires k < WHEEL_SIZE && i < |spokes[k]|
    ensures var t := spokes[k][i];
            && t < |l| && l[t] == Link(At(spokes[k], i + 1), At(spokes[k], i - 1))
            && (i > 0 ==> spokes[k][i - 1] < |l| && spokes[k][i - 1] != t)
            && (i + 1 < |spokes[k]| ==> spokes[k][i + 1] < |l| && spokes[k][i + 1] != t)
            && |Removed(l, t)| == |l| && FreeChain(Removed(l, t), pool)
            && SpokesLinked(Removed(l, t), spokes[k := Drop(spokes[k], i)])
  {
    var q, t := spokes[k], spokes[k][i];
    CutChain(l, q, i);
    DropMembers(q, i);
    var l', spokes' := Removed(l, t), spokes[k := Drop(q, i)];
    assert t !in Drop(q, i);
    ChainBounds(Cut(l, t), Drop(q, i));
    ChainFrame(Cut(l, t), l', Drop(q, i));
    Untouched(l, tmrs, spokes, pool, k, i);
    forall j | 0 <= j < |spokes'|
      ensures Chain(l', spokes'[j])
    {
      if j != k {
        OtherSpoke(l, l', spokes, j);
      }
    }
    FreeFrame(l, l', pool);
  }

  lemma Untouched(l: seq<Link>, tmrs: seq<Tmr>, spokes: seq<seq<nat>>, pool: seq<nat>, k: nat, i: nat)
    requires |l| == |tmrs| && OnWheel(tmrs, spokes) && InPool(tmrs, pool) && k < WHEEL_SIZE && i < |spokes[k]|
    requires spokes[k][i] < |l| && l[spokes[k][i]] == Link(At(spokes[k], i + 1), At(spokes[k], i - 1))
    requires (i > 0 ==> spokes[k][i - 1] < |l|) && (i + 1 < |spokes[k]| ==> spokes[k][i + 1] < |l|)
    ensures var l' := Removed(l, spokes[k][i]);
            && |l'| == |l|
            && (forall j, u :: 0 <= j < WHEEL_SIZE && j != k && u in spokes[j] && u < |l| ==> l'[u] == l[u])
            && (forall u :: u in pool && u < |l| ==> l'[u] == l[u])
  {
    var q := spokes[k];
    forall u: nat | u < |l| && u !in q
      ensures Removed(l, q[i])[u] == l[u]
    {
      CutAt(l, q[i], u);
    }
    forall j, u | 0 <= j < WHEEL_SIZE && j != k && u in spokes[j]
      ensures u !in q
    {
      ListsApart(tmrs, spokes, pool, u);
    }
    forall u | u in pool
      ensures u !in q
    {
      ListsApart(tmrs, spokes, pool, u);
    }
  }

  // The head of a list without one element.
  lemma FirstOnly(q: seq<nat>, i: nat)
    requires NoDup(q) && i < |q|
    ensures q[0] == q[i] <==> i == 0
    ensures At(Drop(q, i), 0) == if i == 0 then At(q, 1) else At(q, 0)
  {
  }

  // ---------- the pass over one spoke ----------

  // The list of a spoke: exactly the timers that belong there.
  ghost predicate OnSpoke(tmrs: seq<Tmr>, q: seq<nat>, k: nat) {
    forall t: nat :: t in q <==> Rides(tmrs, t, k)
  }

  // The timers in `done` have been handled.
  function Scanned(tmrs: seq<Tmr>, done: seq<nat>, now: nat): (r: seq<Tmr>)
    ensures |r| == |tmrs| && forall t :: 0 <= t < |tmrs| ==> r[t] == if t in done then AfterSignal(tmrs[t], now) else tmrs[t]
  {
    seq(|tmrs|, (t: nat) requires t < |tmrs| => if t in done then AfterSignal(tmrs[t], now) else tmrs[t])
  }

  function FiredOf(tmrs: seq<Tmr>, q: seq<nat>, now: nat): seq<nat>
    decreases |q|
  {
    if q == [] then [] else
      var rest := FiredOf(tmrs, q[..|q| - 1], now);
      var t := q[|q| - 1];
      if t < |tmrs| && Fires(tmrs[t], now) then rest + [t] else rest
  }

  lemma StartWalk(tmrs: seq<Tmr>, spokes: seq<seq<nat>>, k: nat, now: nat)
    requires OnWheel(tmrs, spokes) && k < WHEEL_SIZE
    ensures OnSpoke(tmrs, spokes[k], k) && NoDup(spokes[k])
    ensures FiredOf(tmrs, spokes[k][..0], now) == []
    ensures Spoke(now) == k ==> InPass(tmrs, spokes, now, tmrs, spokes[k], 0, [])
  {
  }

  lemma NotDone(q: seq<nat>, i: nat)
    requires NoDup(q) && i < |q|
    ensures q[i] !in q[..i] && q[..i + 1] == q[..i] + [q[i]]
  {
  }

  lemma ScannedOneMore(tmrs: seq<Tmr>, q: seq<nat>, i: nat, now: nat)
    requires NoDup(q) && i < |q| && q[i] < |tmrs|
    ensures Scanned(tmrs, q[..i + 1], now) == Scanned(tmrs, q[..i], now)[q[i] := AfterSignal(tmrs[q[i]], now)]
  {
    NotDone(q, i);
  }

  lemma FiredOneMore(tmrs: seq<Tmr>, q: seq<nat>, i: nat, now: nat)
    requires NoDup(q) && i < |q| && q[i] < |tmrs|
    ensures FiredOf(tmrs, q[..i + 1], now) ==
            if Fires(tmrs[q[i]], now) then FiredOf(tmrs, q[..i], now) + [q[i]] else FiredOf(tmrs, q[..i], now)
  {
    assert q[..i + 1][..|q[..i + 1]| - 1] == q[..i];
  }

  // The next timer to look at is known before the current one may leave the spoke.
  lemma NextOnSpoke(l: seq<Link>, tmrs: seq<Tmr>, spokes: seq<seq<nat>>, t0: seq<Tmr>, q: seq<nat>, i: nat, pre: seq<nat>, now: nat)
    requires |l| == |tmrs| && OnWheel(tmrs, spokes) && SpokesLinked(l, spokes) && NoDup(q) && i < |q|
    requires OnSpoke(t0, q, Spoke(now)) && spokes[Spoke(now)] == pre + q[i..] && tmrs == Scanned(t0, q[..i], now)
    ensures q[i] < |l| && l[q[i]].next == At(q, i + 1)
    ensures tmrs[q[i]] == t0[q[i]] && tmrs[q[i]].state == TmrRunning
  {
    var r := spokes[Spoke(now)];
    assert Chain(l, r) && ChainAt(l, r, |pre|);
    assert r[|pre|] == q[i];
    assert At(r, |pre| + 1) == At(q, i + 1);
    assert q[i] in q && Rides(t0, q[i], Spoke(now));
    NotDone(q, i);
  }

  lemma LeavesFromMiddle(pre: seq<nat>, q: seq<nat>, i: nat, j: nat)
    requires i < |q| && j < |pre + q[i..]| && (pre + q[i..])[j] == q[i] && NoDup(pre + q[i..])
    ensures Drop(pre + q[i..], j) == pre + q[i + 1..]
  {
    assert (pre + q[i..])[|pre|] == q[i];
    assert j == |pre|;
  }

  // A timer that does not fire stays where it is.
  lemma StaysInMiddle(tmrs: seq<Tmr>, t0: seq<Tmr>, q: seq<nat>, i: nat, pre: seq<nat>, now: nat)
    requires NoDup(q) && i < |q| && q[i] < |t0| && tmrs == Scanned(t0, q[..i], now) && !Fires(t0[q[i]], now)
    ensures tmrs == Scanned(t0, q[..i + 1], now) && pre + q[i..] == (pre + [q[i]]) + q[i + 1..]
  {
    ScannedOneMore(t0, q, i, now);
    NotDone(q, i);
  }

  ghost predicate InPass(tmrs: seq<Tmr>, spokes: seq<seq<nat>>, now: nat, t0: seq<Tmr>, q: seq<nat>, i: nat, pre: seq<nat>) {
    && i <= |q| && NoDup(q) && OnSpoke(t0, q, Spoke(now)) && |spokes| == WHEEL_SIZE
    && spokes[Spoke(now)] == pre + q[i..]
    && tmrs == Scanned(t0, q[..i], now)
  }

  lemma PassEnds(tmrs: seq<Tmr>, spokes: seq<seq<nat>>, now: nat, t0: seq<Tmr>, q: seq<nat>, i: nat, pre: seq<nat>, fired: seq<nat>)
    requires InPass(tmrs, spokes, now, t0, q, i, pre) && At(q, i) == None && fired == FiredOf(t0, q[..i], now)
    ensures tmrs == Scanned(t0, q, now) && fired == FiredOf(t0, q, now)
  {
    assert q[..i] == q;
  }

  lemma StaysOff(tmrs: seq<Tmr>, spokes: seq<seq<nat>>, pool: seq<nat>, t: nat, x: Tmr)
    requires OnWheel(tmrs, spokes) && InPool(tmrs, pool) && t < |tmrs|
    requires tmrs[t].state != TmrRunning && tmrs[t].state != TmrUnused && x.state != TmrRunning && x.state != TmrUnused
    ensures OnWheel(tmrs[t := x], spokes) && InPool(tmrs[t := x], pool)
  {
    forall k: nat, u: nat | k < WHEEL_SIZE
      ensures u in spokes[k] <==> Rides(tmrs[t := x], u, k)
    {
      assert u in spokes[k] <==> Rides(tmrs, u, k);
    }
  }

  // Looking at one spoke is looking at every timer.
  lemma ScanIsFull(tmrs: seq<Tmr>, q: seq<nat>, now: nat)
    requires OnSpoke(tmrs, q, Spoke(now))
    ensures Scanned(tmrs, q, now) == FullScan(tmrs, now)
  {
    forall t | 0 <= t < |tmrs| && t !in q
      ensures !Fires(tmrs[t], now)
    {
      assert !Rides(tmrs, t, Spoke(now));
    }
  }

  lemma {:induction false} FiredIn(tmrs: seq<Tmr>, q: seq<nat>, now: nat)
    requires NoDup(q)
    ensures NoDup(FiredOf(tmrs, q, now))
    ensures forall t :: t in FiredOf(tmrs, q, now) <==> t in q && t < |tmrs| && Fires(tmrs[t], now)
    decreases |q|
  {
    if q != [] {
      var q' := q[..|q| - 1];
      FiredIn(tmrs, q', now);
      assert q == q' + [q[|q| - 1]];
    }
  }

  lemma FiredMembers(tmrs: seq<Tmr>, q: seq<nat>, now: nat)
    requires NoDup(q) && OnSpoke(tmrs, q, Spoke(now))
    ensures NoDup(FiredOf(tmrs, q, now))
    ensures forall t: nat :: t in FiredOf(tmrs, q, now) <==> t < |tmrs| && Fires(tmrs[t], now)
  {
    FiredIn(tmrs, q, now);
    forall t: nat | t < |tmrs| && Fires(tmrs[t], now)
      ensures t in q
    {
      assert Rides(tmrs, t, Spoke(now));
    }
  }

  // ---------- the pool ----------

  lemma PoolTake(l: seq<Link>, tmrs: seq<Tmr>, spokes: seq<seq<nat>>, pool: seq<nat>, x: Tmr)
    requires |l| == |tmrs| && OnWheel(tmrs, spokes) && InPool(tmrs, pool) && SpokesLinked(l, spokes) && FreeChain(l, pool)
    requires pool != [] && x.state == TmrStopped
    ensures var t := pool[0];
            && t < |tmrs| && tmrs[t].state == TmrUnused && l[t].next == At(pool[1..], 0)
            && OnWheel(tmrs[t := x], spokes) && InPool(tmrs[t := x], pool[1..])
            && SpokesLinked(l[t := Link(None, None)], spokes) && FreeChain(l[t := Link(None, None)], pool[1..])
  {
    assert FreeAt(l, pool, 0) && pool[0] in pool;
    var t, l', pool' := pool[0], l[pool[0] := Link(None, None)], pool[1..];
    assert pool' == Drop(pool, 0);
    DropMembers(pool, 0);
    assert FreeChain(l, pool);
    forall k: nat, u: nat | k < WHEEL_SIZE
      ensures u in spokes[k] <==> Rides(tmrs[t := x], u, k)
    {
      assert u in spokes[k] <==> Rides(tmrs, u, k);
    }
    OffSpokes(l, l', tmrs, spokes, t);
    forall i | 0 <= i < |pool'|
      ensures FreeAt(l', pool', i)
    {
      assert FreeAt(l, pool, i + 1);
    }
  }

  lemma PoolGive(l: seq<Link>, tmrs: seq<Tmr>, spokes: seq<seq<nat>>, pool: seq<nat>, t: nat, x: Tmr)
    requires |l| == |tmrs| && OnWheel(tmrs, spokes) && InPool(tmrs, pool) && SpokesLinked(l, spokes) && FreeChain(l, pool)
    requires t < |tmrs| && tmrs[t].state != TmrRunning && tmrs[t].state != TmrUnused && x.state == TmrUnused
    ensures OnWheel(tmrs[t := x], spokes) && InPool(tmrs[t := x], [t] + pool)
    ensures SpokesLinked(l[t := Link(At(pool, 0), None)], spokes) && FreeChain(l[t := Link(At(pool, 0), None)], [t] + pool)
  {
    var l', pool' := l[t := Link(At(pool, 0), None)], [t] + pool;
    assert t !in pool;
    forall k: nat, u: nat | k < WHEEL_SIZE
      ensures u in spokes[k] <==> Rides(tmrs[t := x], u, k)
    {
      assert u in spokes[k] <==> Rides(tmrs, u, k);
    }
    OffSpokes(l, l', tmrs, spokes, t);
    forall i | 0 <= i < |pool'|
      ensures FreeAt(l', pool', i)
    {
      if i > 0 {
        assert FreeAt(l, pool, i - 1);
      }
    }
  }

  // The links of a timer that is not running are on no spoke.
  lemma OffSpokes(l: seq<Link>, l': seq<Link>, tmrs: seq<Tmr>, spokes: seq<seq<nat>>, t: nat)
    requires |l| == |tmrs| && OnWheel(tmrs, spokes) && SpokesLinked(l, spokes)
    requires t < |tmrs| && tmrs[t].state != TmrRunning && |l'| == |l| && l' == l[t := l'[t]]
    ensures SpokesLinked(l', spokes)
  {
    forall j | 0 <= j < |spokes|
      ensures Chain(l', spokes[j])
    {
      assert !Rides(tmrs, t, j);
      OtherSpoke(l, l', spokes, j);
    }
  }

  // There is room for one more in the pool.
  lemma PoolSmall(n: nat, q: seq<nat>, t: nat)
    requires NoDup(q) && t < n && t !in q && forall u :: u in q ==> u < n
    ensures |q| < n
  {
    var r := [t] + q;
    forall i | 0 <= i < |r|
      ensures r[i] < n
    {
      assert i > 0 ==> q[i - 1] in q;
    }
    DistinctBelow(r, n);
  }

  lemma FreshWheel(tmrs: seq<Tmr>, l: seq<Link>, spokes: seq<seq<nat>>, pool: seq<nat>)
    requires |spokes| == WHEEL_SIZE && |l| == |tmrs| && |pool| == |tmrs|
    requires forall t :: 0 <= t < |tmrs| ==> tmrs[t] == CLEARED_TMR && pool[t] == t
    requires forall t :: 0 <= t < |tmrs| ==> l[t].next == if t + 1 < |tmrs| then Some(t + 1) else None
    requires forall k :: 0 <= k < WHEEL_SIZE ==> spokes[k] == []
    ensures InRange(tmrs) && OnWheel(tmrs, spokes) && SpokesLinked(l, spokes) && InPool(tmrs, pool) && FreeChain(l, pool)
  {
    forall t | 0 <= t < |tmrs|
      ensures t in pool
    {
      assert pool[t] == t;
    }
    forall i | 0 <= i < |pool|
      ensures FreeAt(l, pool, i)
    {
    }
  }

  class Wheel {
    const links: array<Link>
    const tmrs: array<Tmr>
    const first: array<Option<nat>>
    const entries: array<nat>
    var freeList: Option<nat>
    var time: nat
    var used: nat
    var free: nat
    ghost var spokes: seq<seq<nat>>
    ghost var pool: seq<nat>

    ghost predicate Apart() {
      && links as object != tmrs as object && links as object != first as object && links as object != entries as object
      && tmrs as object != first as object && tmrs as object != entries as object && first as object != entries as object
    }

    ghost predicate Heads()
      reads this, first, entries
    {
      && |spokes| == WHEEL_SIZE && first.Length == WHEEL_SIZE && entries.Length == WHEEL_SIZE
      && (forall k :: 0 <= k < WHEEL_SIZE ==> first[k] == At(spokes[k], 0) && entries[k] == |spokes[k]|)
    }

    ghost predicate Valid()
      reads this, links, tmrs, first, entries
    {
      && Apart() && links.Length == tmrs.Length && time < WORD && Heads()
      && InRange(tmrs[..]) && OnWheel(tmrs[..], spokes) && SpokesLinked(links[..], spokes)
      && InPool(tmrs[..], pool) && FreeChain(links[..], pool)
      && freeList == At(pool, 0) && free == |pool| && used + free == tmrs.Length
    }

    // What the specification sees.
    ghost function View(): Timers
      reads this, tmrs
    {
      Timers(tmrs[..], time)
    }

    // ---------- link and unlink ----------

    // Starts timer `t` and puts it at the front of its spoke.
    method Join(t: nat, again: bool)
      requires Valid() && t < tmrs.Length && (tmrs[t].state == TmrStopped || tmrs[t].state == TmrCompleted)
      modifies this`spokes, links, tmrs, first, entries
      ensures Valid() && tmrs[..] == old(tmrs[..])[t := Started(old(tmrs[t]), time, again)]
      ensures var k := Spoke(tmrs[t].matchTime); k < |old(spokes)| && spokes == old(spokes)[k := [t] + old(spokes)[k]]
    {
      var m := MatchOf(tmrs[t], time, again);
      var k := Spoke(m);
      var x := Started(tmrs[t], time, again);
      JoinWheel(tmrs[..], spokes, t, x);
      LinksAfterPush(links[..], tmrs[..], spokes, pool, t, k);
      tmrs[t] := x;
      PushFront(links, t, first[k]);
      entries[k] := if first[k] == None then 1 else entries[k] + 1;
      first[k] := Some(t);
      spokes := spokes[k := [t] + spokes[k]];
      assert tmrs[..] == old(tmrs[..])[t := x];
    }

    // Takes running timer `t` off its spoke.
    method Leave(t: nat) returns (ghost i: nat)
      requires Valid() && t < tmrs.Length && tmrs[t].state == TmrRunning
      modifies this`spokes, links, tmrs, first, entries
      ensures Valid() && tmrs[..] == old(tmrs[..])[t := old(tmrs[t]).(state := TmrStopped)]
      ensures var k := Spoke(old(tmrs[t]).matchTime);
              && k < |old(spokes)| && i < |old(spokes)[k]| && old(spokes)[k][i] == t
              && spokes == old(spokes)[k := Drop(old(spokes)[k], i)]
    {
      var k := Spoke(tmrs[t].matchTime);
      assert Rides(tmrs[..], t, k);
      i :| 0 <= i < |spokes[k]| && spokes[k][i] == t;
      LeaveWheel(tmrs[..], spokes, k, i, tmrs[t].(state := TmrStopped));
      LinksAfterCut(links[..], tmrs[..], spokes, pool, k, i);
      FirstOnly(spokes[k], i);
      StoreLeave(t, k);
      spokes := spokes[k := Drop(spokes[k], i)];
    }

    method StoreLeave(t: nat, k: nat)
      requires Apart() && t < tmrs.Length && t < links.Length && k < first.Length && k < entries.Length && entries[k] > 0
      requires links[t].next.Some? ==> links[t].next.value < links.Length && links[t].next.value != t
      requires links[t].prev.Some? ==> links[t].prev.value < links.Length && links[t].prev.value != t
      modifies links, tmrs, first, entries
      ensures tmrs[..] == old(tmrs[..])[t := old(tmrs[t]).(state := TmrStopped)]
      ensures links[..] == Removed(old(links[..]), t)
      ensures entries[..] == old(entries[..])[k := old(entries[k]) - 1]
      ensures first[..] == if old(first[k]) == Some(t) then old(first[..])[k := old(links[t]).next] else old(first[..])
    {
      if first[k] == Some(t) {
        first[k] := links[t].next;
      }
      Unlink(links, t);
      links[t] := Link(None, None);
      tmrs[t] := tmrs[t].(state := TmrStopped);
      entries[k] := entries[k] - 1;
    }

    // ---------- one pass of the timer task ----------

    // The pass has handled the first `i` timers of the list `q` it started from; the rest of that list
    // still closes the spoke.
    ghost predicate Walking(t0: seq<Tmr>, q: seq<nat>, i: nat, pre: seq<nat>)
      reads this, tmrs
    {
      InPass(tmrs[..], spokes, time, t0, q, i, pre)
    }

    method Complete(t: nat)
      requires Valid() && t < tmrs.Length && tmrs[t].state == TmrStopped
      modifies tmrs
      ensures Valid() && tmrs[..] == old(tmrs[..])[t := old(tmrs[t]).(state := TmrCompleted)]
    {
      StaysOff(tmrs[..], spokes, pool, t, tmrs[t].(state := TmrCompleted));
      tmrs[t] := tmrs[t].(state := TmrCompleted);
      assert tmrs[..] == old(tmrs[..])[t := old(tmrs[t]).(state := TmrCompleted)];
    }

    method Expire(t: nat, ghost t0: seq<Tmr>, ghost q: seq<nat>, ghost i: nat, ghost pre: seq<nat>) returns (ghost pre': seq<nat>)
      requires Valid() && Walking(t0, q, i, pre) && i < |q| && t == q[i]
      requires t < tmrs.Length && tmrs[t] == t0[t] && Fires(tmrs[t], time)
      modifies this`spokes, links, tmrs, first, entries
      ensures Valid() && Walking(t0, q, i + 1, pre')
    {
      ghost var j := Leave(t);
      LeavesFromMiddle(pre, q, i, j);
      pre' := pre;
      if tmrs[t].periodic {
        Join(t, true);
        if Spoke(tmrs[t].matchTime) == Spoke(time) {
          pre' := [t] + pre;
          assert spokes[Spoke(time)] == pre' + q[i + 1..];
        }
      } else {
        Complete(t);
      }
      ScannedOneMore(t0, q, i, time);
    }

    // The loop stands at `p`, and `fired` are the timers that have fired so far.
    ghost predicate Standing(t0: seq<Tmr>, q: seq<nat>, i: nat, pre: seq<nat>, p: Option<nat>, fired: seq<nat>)
      requires i <= |q|
      reads this, tmrs
    {
      Walking(t0, q, i, pre) && p == At(q, i) && fired == FiredOf(t0, q[..i], time)
    }

    // One turn of the loop: the next timer is read before the current one may leave the spoke.
    method Look(t: nat, fired: seq<nat>, ghost t0: seq<Tmr>, ghost q: seq<nat>, ghost i: nat, ghost pre: seq<nat>)
      returns (next: Option<nat>, fired': seq<nat>, ghost pre': seq<nat>)
      requires Valid() && i <= |q| && Standing(t0, q, i, pre, Some(t), fired)
      modifies this`spokes, links, tmrs, first, entries
      ensures Valid() && i + 1 <= |q| && Standing(t0, q, i + 1, pre', next, fired')
    {
      NextOnSpoke(links[..], tmrs[..], spokes, t0, q, i, pre, time);
      next := links[t].next;
      fired' := fired;
      FiredOneMore(t0, q, i, time);
      if time == tmrs[t].matchTime {
        pre' := Expire(t, t0, q, i, pre);
        fired' := fired + [t];
      } else {
        StaysInMiddle(tmrs[..], t0, q, i, pre, time);
        pre' := pre + [t];
      }
    }

    method WalkSpoke(ghost q: seq<nat>) returns (fired: seq<nat>)
      requires Valid() && |spokes| == WHEEL_SIZE && q == spokes[Spoke(time)]
      modifies this`spokes, links, tmrs, first, entries
      ensures Valid() && tmrs[..] == Scanned(old(tmrs[..]), q, time) && fired == FiredOf(old(tmrs[..]), q, time)
    {
      ghost var t0, i, pre := tmrs[..], 0, [];
      var p := first[Spoke(time)];
      fired := [];
      StartWalk(t0, spokes, Spoke(time), time);
      while p.Some?
        invariant Valid() && i <= |q| && Standing(t0, q, i, pre, p, fired)
        decreases |q| - i
      {
        p, fired, pre := Look(p.value, fired, t0, q, i, pre);
        i := i + 1;
      }
      PassEnds(tmrs[..], spokes, time, t0, q, i, pre, fired);
    }

    method Pass() returns (fired: seq<nat>)
      requires Valid()
      modifies this`time, this`spokes, links, tmrs, first, entries
      ensures Valid() && View() == StepTimers(old(View()), Signal)
      ensures NoDup(fired) && forall t: nat :: t in fired <==> t < tmrs.Length && Fires(old(tmrs[..])[t], time)
    {
      time := Later(time, 1);
      ghost var q, t0 := spokes[Spoke(time)], tmrs[..];
      StartWalk(t0, spokes, Spoke(time), time);
      fired := WalkSpoke(q);
      ScanIsFull(t0, q, time);
      FiredMembers(t0, q, time);
    }

    // ---------- the services ----------

    // The table is cleared, and every timer is chained into the free list.
    constructor (max: nat)
      requires max > 0
      ensures Valid() && View() == Timers(seq(max, (t: nat) => CLEARED_TMR), 0)
      ensures fresh(links) && fresh(tmrs) && fresh(first) && fresh(entries)
    {
      links := new Link[max](_ => Link(None, None));
      tmrs := new Tmr[max](_ => CLEARED_TMR);
      first := new Option<nat>[WHEEL_SIZE](_ => None);
      entries := new nat[WHEEL_SIZE](_ => 0);
      time, used, free, freeList := 0, 0, max, Some(0);
      spokes := seq(WHEEL_SIZE, (k: nat) => []);
      pool := seq(max, (t: nat) => t);
      new;
      var ix := 0;
      while ix < max - 1
        invariant 0 <= ix < max
        invariant forall t :: 0 <= t < ix ==> links[t] == Link(Some(t + 1), None)
        invariant forall t :: ix <= t < max ==> links[t] == Link(None, None)
        modifies links
      {
        links[ix] := Link(Some(ix + 1), None);
        ix := ix + 1;
      }
      assert tmrs[..] == seq(max, (t: nat) => CLEARED_TMR);
      FreshWheel(tmrs[..], links[..], spokes, pool);
    }

    method CreateTmr(dly: nat, period: nat, periodic: bool) returns (t: Option<nat>)
      requires Valid() && dly < WORD && period < WORD
      modifies this`freeList, this`used, this`free, this`pool, links, tmrs
      ensures Valid()
      ensures match t
              case None => View() == old(View()) && forall u :: 0 <= u < tmrs.Length ==> tmrs[u].state != TmrUnused
              case Some(n) => n < tmrs.Length && old(tmrs[n]).state == TmrUnused
                              && View() == StepTimers(old(View()), Create(n, dly, period, periodic))
    {
      if freeList == None {
        return None;
      }
      var n := freeList.value;
      ghost var x := Tmr(TmrStopped, dly, period, periodic, if n < tmrs.Length then tmrs[n].matchTime else 0);
      PoolTake(links[..], tmrs[..], spokes, pool, x);
      freeList := links[n].next;
      links[n] := Link(None, None);
      used := used + 1;
      free := free - 1;
      tmrs[n] := Tmr(TmrStopped, dly, period, periodic, tmrs[n].matchTime);
      pool := pool[1..];
      assert tmrs[..] == old(tmrs[..])[n := x] && links[..] == old(links[..])[n := Link(None, None)];
      return Some(n);
    }

    // Returns a stopped or completed timer to the pool.
    method Release(t: nat)
      requires Valid() && t < tmrs.Length && (tmrs[t].state == TmrStopped || tmrs[t].state == TmrCompleted)
      modifies this`freeList, this`used, this`free, this`pool, links, tmrs
      ensures Valid() && tmrs[..] == old(tmrs[..])[t := Freed(old(tmrs[t]))]
    {
      PoolGive(links[..], tmrs[..], spokes, pool, t, Freed(tmrs[t]));
      tmrs[t] := Freed(tmrs[t]);
      links[t] := Link(freeList, None);
      freeList := Some(t);
      PoolSmall(tmrs.Length, old(pool), t);
      used := used - 1;
      free := free + 1;
      pool := [t] + pool;
      assert tmrs[..] == old(tmrs[..])[t := Freed(old(tmrs[t]))] && links[..] == old(links[..])[t := Link(old(freeList), None)];
    }

    method DelTmr(t: nat) returns (ok: bool)
      requires Valid() && t < tmrs.Length
      modifies this`freeList, this`used, this`free, this`pool, this`spokes, links, tmrs, first, entries
      ensures Valid() && View() == StepTimers(old(View()), Delete(t)) && ok == (old(tmrs[t]).state != TmrUnused)
    {
      match tmrs[t].state {
        case TmrRunning =>
          ghost var _ := Leave(t);
          Release(t);
          return true;
        case TmrStopped =>
          Release(t);
          return true;
        case TmrCompleted =>
          Release(t);
          return true;
        case TmrUnused =>
          return false;
      }
    }

    method StartTmr(t: nat) returns (ok: bool)
      requires Valid() && t < tmrs.Length
      modifies this`spokes, links, tmrs, first, entries
      ensures Valid() && View() == StepTimers(old(View()), Start(t)) && ok == (old(tmrs[t]).state != TmrUnused)
    {
      match tmrs[t].state {
        case TmrRunning =>
          ghost var _ := Leave(t);
          Join(t, false);
          return true;
        case TmrStopped =>
          Join(t, false);
          return true;
        case TmrCompleted =>
          Join(t, false);
          return true;
        case TmrUnused =>
          return false;
      }
    }

    // A callback is called, with the timer's own argument or the one given, only when a running timer was stopped, the
    // option asks for it and the timer has a callback.
    method StopTmr(t: nat, opt: StopOpt, hasCallback: bool, ownArg: nat, givenArg: nat)
        returns (ok: bool, err: TmrErr, called: Option<nat>)
      requires Valid() && t < tmrs.Length
      modifies this`spokes, links, tmrs, first, entries
      ensures Valid() && View() == StepTimers(old(View()), Stop(t))
      ensures ok <==> old(tmrs[t]).state != TmrUnused
      ensures err == TmrErrInactive <==> !ok
      ensures err == TmrErrStopped <==> old(tmrs[t]).state == TmrStopped || old(tmrs[t]).state == TmrCompleted
      ensures err == TmrErrInvalidOpt <==> old(tmrs[t]).state == TmrRunning && opt == BadStopOpt
      ensures err == TmrErrNoCallback <==>
                old(tmrs[t]).state == TmrRunning && !hasCallback && (opt == WithOwnArg || opt == WithGivenArg)
      ensures called.Some? <==> err == TmrErrNone && opt != StopSilently
      ensures called.Some? ==> called.value == if opt == WithOwnArg then ownArg else givenArg
    {
      called := None;
      match tmrs[t].state {
        case TmrRunning =>
          ghost var _ := Leave(t);
          ok, err := true, TmrErrNone;
          match opt {
            case WithOwnArg =>
              if hasCallback {
                called := Some(ownArg);
              } else {
                err := TmrErrNoCallback;
              }
            case WithGivenArg =>
              if hasCallback {
                called := Some(givenArg);
              } else {
                err := TmrErrNoCallback;
              }
            case StopSilently =>
            case BadStopOpt =>
              err := TmrErrInvalidOpt;
          }
        case TmrCompleted =>
          ok, err := true, TmrErrStopped;
        case TmrStopped =>
          ok, err := true, TmrErrStopped;
        case TmrUnused =>
          ok, err := false, TmrErrInactive;
      }
    }

    // The difference is taken in 32-bit arithmetic.
    method RemainGet(t: nat) returns (remain: nat)
      requires Valid() && t < tmrs.Length
      ensures match tmrs[t].state
              case TmrRunning => remain == if Remaining(tmrs[t], time) == WORD then 0 else Remaining(tmrs[t], time)
              case TmrStopped => remain == if tmrs[t].periodic && tmrs[t].dly == 0 then tmrs[t].period else tmrs[t].dly
              case TmrCompleted => remain == 0
              case TmrUnused => remain == 0
    {
      match tmrs[t].state {
        case TmrRunning =>
          remain := (tmrs[t].matchTime + WORD - time) % WORD;
        case TmrStopped =>
          if tmrs[t].periodic && tmrs[t].dly == 0 {
            remain := tmrs[t].period;
          } else {
            remain := tmrs[t].dly;
          }
        case TmrCompleted =>
          remain := 0;
        case TmrUnused =>
          remain := 0;
      }
    }
  }
}
