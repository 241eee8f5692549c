/** Event flags: tasks wait in a doubly linked list for a combination of flags to be set or to be clear,
    and a post wakes exactly the tasks whose combination has come about.
    A word of flags appears as the set of the bits that are set, whatever its width. */
module FlagGroup {
  import opened PrioSets
  import opened KernelState
  import opened Chains

  datatype WaitType = SetAll | SetAny | ClrAll | ClrAny

  // What a waiting task has asked for.
  datatype Node = Node(flags: set<nat>, kind: WaitType)

  // The part of a task control block that flags use. `pending` and `suspended` are the two status bits.
  datatype FlagTcb = FlagTcb(pending: bool, suspended: bool, pend: PendStat, dly: nat, flagsRdy: set<nat>)

  // ---------- the specification ----------

  // The flags asked for that are in the wanted state.
  function Ready(n: Node, flags: set<nat>): set<nat> {
    match n.kind
    case SetAll => flags * n.flags
    case SetAny => flags * n.flags
    case ClrAll => n.flags - flags
    case ClrAny => n.flags - flags
  }

  predicate Satisfied(n: Node, flags: set<nat>) {
    match n.kind
    case SetAll => Ready(n, flags) == n.flags
    case SetAny => Ready(n, flags) != {}
    case ClrAll => Ready(n, flags) == n.flags
    case ClrAny => Ready(n, flags) != {}
  }

  function Consumed(kind: WaitType, flags: set<nat>, rdy: set<nat>): set<nat> {
    match kind
    case SetAll => flags - rdy
    case SetAny => flags - rdy
    case ClrAll => flags + rdy
    case ClrAny => flags + rdy
  }

  function Posted(flags: set<nat>, mask: set<nat>, setting: bool): set<nat> {
    if setting then flags + mask else flags - mask
  }

  // The nodes that are still waiting, in their old order.
  function Unsatisfied(nodes: seq<Node>, q: seq<nat>, flags: set<nat>): seq<nat> {
    if q == [] then []
    else if q[0] < |nodes| && Satisfied(nodes[q[0]], flags) then Unsatisfied(nodes, q[1..], flags)
    else [q[0]] + Unsatisfied(nodes, q[1..], flags)
  }

  function WokenTcb(c: FlagTcb, n: Node, flags: set<nat>): FlagTcb {
    c.(pending := false, pend := PendOk, dly := 0, flagsRdy := Ready(n, flags))
  }

  // The tasks of `q` that the flags satisfy are woken; all others are left alone.
  function Woken(tcbs: seq<FlagTcb>, nodes: seq<Node>, q: seq<nat>, flags: set<nat>): (r: seq<FlagTcb>)
    requires |nodes| == |tcbs|
    ensures |r| == |tcbs|
    ensures forall t :: 0 <= t < |tcbs| ==>
              r[t] == if t in q && Satisfied(nodes[t], flags) then WokenTcb(tcbs[t], nodes[t], flags) else tcbs[t]
  {
    seq(|tcbs|, (t: nat) requires t < |tcbs| =>
          if t in q && Satisfied(nodes[t], flags) then WokenTcb(tcbs[t], nodes[t], flags) else tcbs[t])
  }

  // ---------- bit by bit ----------

  // The combination has come about: all the flags asked for are set, or one of them is, or all of them are clear, or one is.
  ghost predicate CameAbout(n: Node, flags: set<nat>) {
    match n.kind
    case SetAll => forall b :: b in n.flags ==> b in flags
    case SetAny => exists b :: b in n.flags && b in flags
    case ClrAll => forall b :: b in n.flags ==> b !in flags
    case ClrAny => exists b :: b in n.flags && b !in flags
  }

  // The flags that woke a task: those it asked for that are set if it waits for set flags, and clear if for clear ones.
  function Bits(n: Node, flags: set<nat>): set<nat> {
    set b | b in n.flags && (b in flags <==> n.kind == SetAll || n.kind == SetAny)
  }

  lemma SatisfiedBits(n: Node, flags: set<nat>)
    ensures Satisfied(n, flags) <==> CameAbout(n, flags)
    ensures Ready(n, flags) == Bits(n, flags)
  {
    match n.kind
    case SetAll => assert flags * n.flags == n.flags <==> n.flags <= flags;
    case SetAny =>
      if b :| b in n.flags && b in flags {
        assert b in Ready(n, flags);
      }
    case ClrAll => assert n.flags - flags == n.flags <==> forall b :: b in n.flags ==> b !in flags;
    case ClrAny =>
      if b :| b in n.flags && b !in flags {
        assert b in Ready(n, flags);
      }
  }

  // A task that consumes its flags undoes what it waited for, and no other flag changes.
  lemma ConsumedBits(n: Node, flags: set<nat>, b: nat)
    ensures b in Consumed(n.kind, flags, Ready(n, flags)) <==>
            if b in n.flags then n.kind == ClrAll || n.kind == ClrAny else b in flags
  {
  }

  // What a post makes of a task, which is in the list or is not.
  ghost function PostedTo(c: FlagTcb, n: Node, listed: bool, flags: set<nat>): FlagTcb {
    if listed && CameAbout(n, flags) then c.(pending := false, pend := PendOk, dly := 0, flagsRdy := Bits(n, flags)) else c
  }

  lemma WokenBits(tcbs: seq<FlagTcb>, nodes: seq<Node>, q: seq<nat>, flags: set<nat>, t: nat)
    requires |nodes| == |tcbs| && t < |tcbs| && forall i :: 0 <= i < |q| ==> q[i] < |nodes|
    ensures Woken(tcbs, nodes, q, flags)[t] == PostedTo(tcbs[t], nodes[t], t in q, flags)
    ensures t in Unsatisfied(nodes, q, flags) <==> t in q && !CameAbout(nodes[t], flags)
  {
    SatisfiedBits(nodes[t], flags);
    UnsatisfiedIsFilter(nodes, q, flags);
  }

  // ---------- what the list of waiting tasks keeps ----------

  predicate ForSet(n: Node) {
    n.kind == SetAll || n.kind == SetAny
  }

  // Nobody is left waiting for what has already come about.
  ghost predicate NobodyMissed(nodes: seq<Node>, q: seq<nat>, flags: set<nat>) {
    forall i :: 0 <= i < |q| ==> q[i] < |nodes| && !Satisfied(nodes[q[i]], flags)
  }

  ghost predicate AllForSet(nodes: seq<Node>, q: seq<nat>) {
    forall i :: 0 <= i < |q| ==> q[i] < |nodes| && ForSet(nodes[q[i]])
  }

  lemma {:induction false} UnsatisfiedIsFilter(nodes: seq<Node>, q: seq<nat>, flags: set<nat>)
    requires forall i :: 0 <= i < |q| ==> q[i] < |nodes|
    ensures forall t: nat :: t in Unsatisfied(nodes, q, flags) <==> t in q && !Satisfied(nodes[t], flags)
    ensures NoDup(q) ==> NoDup(Unsatisfied(nodes, q, flags))
    ensures NobodyMissed(nodes, Unsatisfied(nodes, q, flags), flags)
  {
    if q != [] {
      UnsatisfiedIsFilter(nodes, q[1..], flags);
      assert q == [q[0]] + q[1..];
    }
  }

  lemma StillForSet(nodes: seq<Node>, q: seq<nat>, flags: set<nat>)
    requires forall i :: 0 <= i < |q| ==> q[i] < |nodes|
    ensures AllForSet(nodes, q) ==> AllForSet(nodes, Unsatisfied(nodes, q, flags))
  {
    UnsatisfiedIsFilter(nodes, q, flags);
    var r := Unsatisfied(nodes, q, flags);
    if AllForSet(nodes, q) {
      forall i | 0 <= i < |r|
        ensures r[i] < |nodes| && ForSet(nodes[r[i]])
      {
        assert r[i] in r;
      }
    }
  }

  lemma {:induction false} UnsatisfiedFrom(nodes: seq<Node>, q: seq<nat>, flags: set<nat>, j: nat) returns (b: nat)
    requires j < |Unsatisfied(nodes, q, flags)|
    ensures b < |q| && q[b] == Unsatisfied(nodes, q, flags)[j]
  {
    if q[0] < |nodes| && Satisfied(nodes[q[0]], flags) {
      b := UnsatisfiedFrom(nodes, q[1..], flags, j);
      b := b + 1;
    } else if j == 0 {
      b := 0;
    } else {
      b := UnsatisfiedFrom(nodes, q[1..], flags, j - 1);
      b := b + 1;
    }
  }

  // Two tasks that stay keep their order.
  lemma {:induction false} UnsatisfiedInOrder(nodes: seq<Node>, q: seq<nat>, flags: set<nat>, i: nat, j: nat) returns (a: nat, b: nat)
    requires i < j < |Unsatisfied(nodes, q, flags)|
    ensures a < b < |q| && q[a] == Unsatisfied(nodes, q, flags)[i] && q[b] == Unsatisfied(nodes, q, flags)[j]
  {
    if q[0] < |nodes| && Satisfied(nodes[q[0]], flags) {
      a, b := UnsatisfiedInOrder(nodes, q[1..], flags, i, j);
      a, b := a + 1, b + 1;
    } else if i == 0 {
      b := UnsatisfiedFrom(nodes, q[1..], flags, j - 1);
      a, b := 0, b + 1;
    } else {
      a, b := UnsatisfiedInOrder(nodes, q[1..], flags, i - 1, j - 1);
      a, b := a + 1, b + 1;
    }
  }

  // Fewer flags satisfy fewer tasks that wait for flags to be set.
  lemma FewerFlags(n: Node, flags: set<nat>, gone: set<nat>)
    requires ForSet(n) && !Satisfied(n, flags)
    ensures !Satisfied(n, flags - gone)
  {
    assert (flags - gone) * n.flags <= flags * n.flags <= n.flags;
  }

  // When all wait for flags to be set, a task that consumes its flags leaves nobody behind who should go.
  lemma ConsumingMissesNobody(nodes: seq<Node>, q: seq<nat>, flags: set<nat>, kind: WaitType, rdy: set<nat>)
    requires NobodyMissed(nodes, q, flags) && AllForSet(nodes, q) && (kind == SetAll || kind == SetAny)
    ensures NobodyMissed(nodes, q, Consumed(kind, flags, rdy))
  {
    forall i | 0 <= i < |q|
      ensures !Satisfied(nodes[q[i]], Consumed(kind, flags, rdy))
    {
      FewerFlags(nodes[q[i]], flags, rdy);
    }
  }

  // With both kinds of waiting in one group this fails: here the consumed flag is what another task waits to see clear.
  lemma MixedGroupMisses()
    ensures var waiter, taker := Node({0}, ClrAll), Node({0}, SetAll);
            && NobodyMissed([waiter], [0], {0}) && Satisfied(taker, {0})
            && !NobodyMissed([waiter], [0], Consumed(SetAll, {0}, Ready(taker, {0})))
  {
    var waiter := Node({0}, ClrAll);
    assert [waiter][[0][0]] == waiter;
    assert {0} - {0} == {} && {0} * {0} == {0};
    assert 0 in Ready(waiter, {}) && Ready(waiter, {0}) == {};
  }

  // A task that waits for flags to be clear is missed when flags are consumed if and only if the consumed flags are
  // what it waited for: all that were still set of those it asked for, or any of them.
  lemma ConsumingMisses(n: Node, flags: set<nat>, rdy: set<nat>)
    requires !Satisfied(n, flags) && !ForSet(n)
    ensures Satisfied(n, flags - rdy) <==>
            if n.kind == ClrAll then flags * n.flags <= rdy else flags * n.flags * rdy != {}
  {
    if n.kind == ClrAny {
      if flags * n.flags * rdy != {} {
        var b :| b in flags * n.flags * rdy;
        assert b in Ready(n, flags - rdy);
      }
      if Ready(n, flags - rdy) != {} {
        var b :| b in Ready(n, flags - rdy);
        assert b !in Ready(n, flags);
        assert b in flags * n.flags * rdy;
      }
    }
  }

  // ---------- walking the list while nodes leave it ----------

  // The first `i` nodes of `q0` have been looked at; those still waiting precede the rest.
  function Walked(nodes: seq<Node>, q0: seq<nat>, i: nat, flags: set<nat>): seq<nat>
    requires i <= |q0|
  {
    Unsatisfied(nodes, q0[..i], flags) + q0[i..]
  }

  lemma {:induction false} UnsatisfiedSnoc(nodes: seq<Node>, q: seq<nat>, t: nat, flags: set<nat>)
    requires t < |nodes|
    ensures Unsatisfied(nodes, q + [t], flags) ==
            if Satisfied(nodes[t], flags) then Unsatisfied(nodes, q, flags) else Unsatisfied(nodes, q, flags) + [t]
  {
    if q == [] {
      assert [] + [t] == [t];
    } else {
      UnsatisfiedSnoc(nodes, q[1..], t, flags);
      assert (q + [t])[1..] == q[1..] + [t];
    }
  }

  // The node under consideration leaves or stays.
  lemma WalkOn(nodes: seq<Node>, q0: seq<nat>, i: nat, flags: set<nat>)
    requires i < |q0| && q0[i] < |nodes|
    ensures var q, k := Walked(nodes, q0, i, flags), |Unsatisfied(nodes, q0[..i], flags)|;
            && k < |q| && q[k] == q0[i] && At(q, k + 1) == At(q0, i + 1)
            && Walked(nodes, q0, i + 1, flags) == if Satisfied(nodes[q0[i]], flags) then Drop(q, k) else q
  {
    assert q0[..i + 1] == q0[..i] + [q0[i]];
    UnsatisfiedSnoc(nodes, q0[..i], q0[i], flags);
    Middle(Unsatisfied(nodes, q0[..i], flags), q0, i);
  }

  lemma Middle(u: seq<nat>, q0: seq<nat>, i: nat)
    requires i < |q0|
    ensures var q := u + q0[i..];
            && q[|u|] == q0[i] && At(q, |u| + 1) == At(q0, i + 1)
            && Drop(q, |u|) == u + q0[i + 1..] && (u + [q0[i]]) + q0[i + 1..] == q
  {
  }

  lemma WokenOneMore(tcbs: seq<FlagTcb>, nodes: seq<Node>, q0: seq<nat>, i: nat, flags: set<nat>)
    requires |nodes| == |tcbs| && NoDup(q0) && i < |q0| && q0[i] < |tcbs|
    ensures Woken(tcbs, nodes, q0[..i], flags)[q0[i]] == tcbs[q0[i]]
    ensures Woken(tcbs, nodes, q0[..i + 1], flags) ==
            if Satisfied(nodes[q0[i]], flags) then
              Woken(tcbs, nodes, q0[..i], flags)[q0[i] := WokenTcb(tcbs[q0[i]], nodes[q0[i]], flags)]
            else Woken(tcbs, nodes, q0[..i], flags)
  {
    assert q0[i] !in q0[..i];
    assert q0[..i + 1] == q0[..i] + [q0[i]];
  }

  // Some task of `q` that the flags satisfy can run at once.
  ghost predicate Wakes(tcbs: seq<FlagTcb>, nodes: seq<Node>, q: seq<nat>, flags: set<nat>)
    requires |nodes| == |tcbs|
  {
    exists i :: 0 <= i < |q| && q[i] < |tcbs| && Satisfied(nodes[q[i]], flags) && !tcbs[q[i]].suspended
  }

  lemma WakesOneMore(tcbs: seq<FlagTcb>, nodes: seq<Node>, q0: seq<nat>, i: nat, flags: set<nat>)
    requires |nodes| == |tcbs| && i < |q0| && q0[i] < |tcbs|
    ensures Wakes(tcbs, nodes, q0[..i + 1], flags) <==>
            Wakes(tcbs, nodes, q0[..i], flags) || (Satisfied(nodes[q0[i]], flags) && !tcbs[q0[i]].suspended)
  {
    var r, r' := q0[..i], q0[..i + 1];
    assert r' == r + [q0[i]];
    assert r'[i] == q0[i];
    assert forall j :: 0 <= j < i ==> r'[j] == r[j];
  }

  function Numbers(n: nat): (r: set<nat>)
    ensures forall t: nat :: t in r <==> t < n
  {
    if n == 0 then {} else Numbers(n - 1) + {n - 1}
  }

  // The first `i` tasks of the list `q0` have been looked at: they are woken or still there.
  ghost predicate WalkState(tcbs: seq<FlagTcb>, nodes: seq<Node>, q: seq<nat>, flags: set<nat>, sched: bool,
                            t0: seq<FlagTcb>, q0: seq<nat>, i: nat)
  {
    && |t0| == |nodes| == |tcbs| && NoDup(q0) && (forall j :: 0 <= j < |q0| ==> q0[j] < |t0|) && i <= |q0|
    && q == Walked(nodes, q0, i, flags) && tcbs == Woken(t0, nodes, q0[..i], flags)
    && (sched <==> Wakes(t0, nodes, q0[..i], flags))
  }

  lemma WalkStarts(tcbs: seq<FlagTcb>, nodes: seq<Node>, q: seq<nat>, flags: set<nat>)
    requires |nodes| == |tcbs| && NoDup(q) && forall j :: 0 <= j < |q| ==> q[j] < |tcbs|
    ensures WalkState(tcbs, nodes, q, flags, false, tcbs, q, 0)
  {
    assert q[..0] == [] && q[0..] == q;
    assert Woken(tcbs, nodes, [], flags) == tcbs;
  }

  lemma WalkEnds(tcbs: seq<FlagTcb>, nodes: seq<Node>, q: seq<nat>, flags: set<nat>, sched: bool,
                 t0: seq<FlagTcb>, q0: seq<nat>, i: nat)
    requires WalkState(tcbs, nodes, q, flags, sched, t0, q0, i) && At(q0, i) == None
    ensures i == |q0| && q == Unsatisfied(nodes, q0, flags)
    ensures tcbs == Woken(t0, nodes, q0, flags) && (sched <==> Wakes(t0, nodes, q0, flags))
  {
    assert q0[..|q0|] == q0 && q0[|q0|..] == [];
    assert Unsatisfied(nodes, q0, flags) + [] == Unsatisfied(nodes, q0, flags);
  }

  lemma WalkStep(tcbs: seq<FlagTcb>, nodes: seq<Node>, q: seq<nat>, flags: set<nat>, sched: bool,
                 t0: seq<FlagTcb>, q0: seq<nat>, i: nat)
    requires WalkState(tcbs, nodes, q, flags, sched, t0, q0, i) && i < |q0|
    ensures var t, k := q0[i], |Unsatisfied(nodes, q0[..i], flags)|;
            && k < |q| && q[k] == t && At(q, k + 1) == At(q0, i + 1) && t < |tcbs|
            && if Satisfied(nodes[t], flags) then
                 WalkState(tcbs[t := WokenTcb(tcbs[t], nodes[t], flags)], nodes, Drop(q, k), flags,
                           sched || !tcbs[t].suspended, t0, q0, i + 1)
               else WalkState(tcbs, nodes, q, flags, sched, t0, q0, i + 1)
  {
    WalkOn(nodes, q0, i, flags);
    WokenOneMore(t0, nodes, q0, i, flags);
    WakesOneMore(t0, nodes, q0, i, flags);
  }

  // A task is ready when it neither waits for flags, nor is suspended, nor sleeps.
  predicate IsReady(c: FlagTcb) {
    !c.pending && !c.suspended && c.dly == 0
  }

  // The list holds the tasks that wait, and those whose wait has just timed out.
  ghost predicate Waits(tcbs: seq<FlagTcb>, q: seq<nat>) {
    && (forall i :: 0 <= i < |q| ==> q[i] < |tcbs|)
    && (forall t :: 0 <= t < |tcbs| && t in q ==>
          if tcbs[t].pending then tcbs[t].pend == PendOk else tcbs[t].pend == PendTimeout && tcbs[t].dly == 0)
    && (forall t :: 0 <= t < |tcbs| && t !in q ==> !tcbs[t].pending && tcbs[t].pend == PendOk)
  }

  ghost predicate ReadyMatches(tcbs: seq<FlagTcb>, rdy: set<nat>) {
    forall t: nat :: t in rdy <==> t < |tcbs| && IsReady(tcbs[t])
  }

  class Group {
    // The node and the control block of task `t` are at index `t`.
    const links: array<Link>
    const nodes: array<Node>
    const tcbs: array<FlagTcb>
    var flags: set<nat>
    var waitList: Option<nat>
    var rdy: set<nat>
    ghost var q: seq<nat>

    ghost predicate Valid()
      reads this, links, nodes, tcbs
    {
      && links as object != nodes as object && links as object != tcbs as object && nodes as object != tcbs as object
      && links.Length == tcbs.Length && nodes.Length == tcbs.Length
      && NoDup(q) && Chain(links[..], q) && waitList == At(q, 0)
      && Waits(tcbs[..], q) && ReadyMatches(tcbs[..], rdy)
    }

    // A new group, and `n` tasks that can all run.
    constructor (n: nat, initial: set<nat>)
      ensures Valid() && q == [] && flags == initial && tcbs.Length == n && SetOnly()
      ensures fresh(links) && fresh(nodes) && fresh(tcbs)
    {
      links := new Link[n](_ => Link(None, None));
      nodes := new Node[n](_ => Node({}, SetAll));
      tcbs := new FlagTcb[n](_ => FlagTcb(false, false, PendOk, 0, {}));
      flags, waitList, q := initial, None, [];
      rdy := Numbers(n);
    }

    // All wait for flags to be set, and nobody is left who should go.
    ghost predicate SetOnly()
      reads this, nodes
    {
      AllForSet(nodes[..], q) && NobodyMissed(nodes[..], q, flags)
    }

    method Remove(t: nat, ghost k: nat)
      requires Valid() && k < |q| && q[k] == t
      modifies this`waitList, this`q, links
      ensures q == Drop(old(q), k) && NoDup(q) && Chain(links[..], q) && waitList == At(q, 0)
      ensures t < links.Length && links[t] == old(links[t])
      ensures nodes[..] == old(nodes[..]) && tcbs[..] == old(tcbs[..])
    {
      CutChain(links[..], q, k);
      assert At(Drop(q, k), 0) == if k == 0 then At(q, 1) else At(q, 0);
      if links[t].prev == None {
        waitList := links[t].next;
      }
      Unlink(links, t);
      q := Drop(q, k);
    }

    // Task `t` is told which flags it got, is made ready unless it is suspended, and leaves the list.
    method TaskRdy(t: nat, flagsRdy: set<nat>, ghost k: nat) returns (sched: bool)
      requires Valid() && k < |q| && q[k] == t
      modifies this`waitList, this`rdy, this`q, links, tcbs
      ensures Valid() && q == Drop(old(q), k) && t < tcbs.Length && links[t] == old(links[t])
      ensures tcbs[..] == old(tcbs[..])[t := old(tcbs[t]).(pending := false, pend := PendOk, dly := 0, flagsRdy := flagsRdy)]
      ensures sched == !old(tcbs[t]).suspended && rdy == if sched then old(rdy) + {t} else old(rdy)
      ensures nodes[..] == old(nodes[..])
    {
      var c := tcbs[t].(dly := 0, flagsRdy := flagsRdy, pending := false, pend := PendOk);
      sched := !c.suspended;
      DropMembers(q, k);
      Remove(t, k);
      tcbs[t] := c;
      if sched {
        rdy := rdy + {t};
      }
      assert tcbs[..] == old(tcbs[..])[t := c];
    }

    // The loop has looked at the first `i` tasks of the list `q0` and stands at `p`.
    ghost predicate Walking(t0: seq<FlagTcb>, q0: seq<nat>, i: nat, p: Option<nat>, sched: bool)
      reads this, nodes, tcbs
    {
      WalkState(tcbs[..], nodes[..], q, flags, sched, t0, q0, i) && p == At(q0, i)
    }

    // The next task is read from the node after the node may have left the list.
    method Look(t: nat, sched: bool, ghost t0: seq<FlagTcb>, ghost q0: seq<nat>, ghost i: nat)
      returns (next: Option<nat>, sched': bool)
      requires Valid() && Walking(t0, q0, i, Some(t), sched)
      modifies this`waitList, this`rdy, this`q, links, tcbs
      ensures Valid() && Walking(t0, q0, i + 1, next, sched') && nodes[..] == old(nodes[..])
    {
      WalkStep(tcbs[..], nodes[..], q, flags, sched, t0, q0, i);
      ghost var k := |Unsatisfied(nodes[..], q0[..i], flags)|;
      assert ChainAt(links[..], q, k);
      sched' := sched;
      if Satisfied(nodes[t], flags) {
        var rdy := TaskRdy(t, Ready(nodes[t], flags), k);
        if rdy {
          sched' := true;
        }
      }
      next := links[t].next;
    }

    // The new flags and the walk. The scheduler is called if and only if a task became ready; what the service returns is
    // read after that, in a step of its own.
    method Post(mask: set<nat>, setting: bool) returns (sched: bool)
      requires Valid()
      modifies this`flags, this`waitList, this`rdy, this`q, links, tcbs
      ensures Valid() && flags == Posted(old(flags), mask, setting) && nodes[..] == old(nodes[..])
      ensures q == Unsatisfied(nodes[..], old(q), flags) && NobodyMissed(nodes[..], q, flags)
      ensures tcbs[..] == Woken(old(tcbs[..]), nodes[..], old(q), flags)
      ensures sched <==> Wakes(old(tcbs[..]), nodes[..], old(q), flags)
      ensures old(SetOnly()) ==> SetOnly()
      ensures forall b :: b in flags <==> if b in mask then setting else b in old(flags)
      ensures forall t: nat :: t < tcbs.Length ==>
                && tcbs[..][t] == PostedTo(old(tcbs[..])[t], nodes[..][t], t in old(q), flags)
                && (t in q <==> t in old(q) && !CameAbout(nodes[..][t], flags))
    {
      flags := Posted(flags, mask, setting);
      UnsatisfiedIsFilter(nodes[..], q, flags);
      StillForSet(nodes[..], q, flags);
      forall t: nat | t < tcbs.Length
        ensures Woken(tcbs[..], nodes[..], q, flags)[t] == PostedTo(tcbs[..][t], nodes[..][t], t in q, flags)
        ensures t in Unsatisfied(nodes[..], q, flags) <==> t in q && !CameAbout(nodes[..][t], flags)
      {
        WokenBits(tcbs[..], nodes[..], q, flags, t);
      }
      sched := Walk();
    }

    // Other tasks may have run in between: the flags of this moment.
    method ReadFlags() returns (now: set<nat>)
      requires Valid()
      ensures now == flags
    {
      now := flags;
    }

    method Walk() returns (sched: bool)
      requires Valid()
      modifies this`waitList, this`rdy, this`q, links, tcbs
      ensures Valid() && nodes[..] == old(nodes[..]) && q == Unsatisfied(nodes[..], old(q), flags)
      ensures tcbs[..] == Woken(old(tcbs[..]), nodes[..], old(q), flags)
      ensures sched <==> Wakes(old(tcbs[..]), nodes[..], old(q), flags)
    {
      ghost var q0, t0, i := q, tcbs[..], 0;
      sched := false;
      var p := waitList;
      WalkStarts(tcbs[..], nodes[..], q, flags);
      while p.Some?
        invariant Valid() && i <= |q0| && Walking(t0, q0, i, p, sched) && nodes[..] == old(nodes[..])
        decreases |q0| - i
      {
        p, sched := Look(p.value, sched, t0, q0, i);
        i := i + 1;
      }
      WalkEnds(tcbs[..], nodes[..], q, flags, sched, t0, q0, i);
    }

    // The calling task takes what is there, or waits at the front of the list.
    method Pend(t: nat, mask: set<nat>, kind: WaitType, consume: bool, timeout: nat) returns (blocked: bool, got: set<nat>)
      requires Valid() && t in rdy && t !in q
      modifies this`flags, this`waitList, this`rdy, this`q, links, nodes, tcbs
      ensures Valid() && t < tcbs.Length
      ensures var n := Node(mask, kind);
              && blocked == !Satisfied(n, old(flags))
              && q == (if blocked then [t] + old(q) else old(q))
              && rdy == (if blocked then old(rdy) - {t} else old(rdy))
              && nodes[..] == (if blocked then old(nodes[..])[t := n] else old(nodes[..]))
              && flags == (if !blocked && consume then Consumed(kind, old(flags), Ready(n, old(flags))) else old(flags))
              && tcbs[..] == old(tcbs[..])[t := if blocked then old(tcbs[t]).(pending := true, pend := PendOk, dly := timeout)
                                                else old(tcbs[t]).(flagsRdy := Ready(n, old(flags)))]
              && got == if blocked then {} else Ready(n, old(flags))
      ensures old(SetOnly()) && ForSet(Node(mask, kind)) ==> SetOnly()
      ensures blocked <==> !CameAbout(Node(mask, kind), old(flags))
      ensures got == if blocked then {} else Bits(Node(mask, kind), old(flags))
      ensures forall b :: b in flags <==>
                if b in mask && consume && !blocked then kind == ClrAll || kind == ClrAny else b in old(flags)
    {
      var n := Node(mask, kind);
      SatisfiedBits(n, flags);
      var r := Ready(n, flags);
      blocked, got := false, {};
      if old(SetOnly()) && ForSet(n) {
        ConsumingMissesNobody(nodes[..], q, flags, kind, r);
      }
      if Satisfied(n, flags) {
        if consume {
          flags := Consumed(kind, flags, r);
        }
        tcbs[t] := tcbs[t].(flagsRdy := r);
        got := r;
        assert tcbs[..] == old(tcbs[..])[t := old(tcbs[t]).(flagsRdy := r)];
      } else {
        Enlist(t, n, timeout);
        blocked := true;
      }
    }

    // The node of the calling task goes to the front of the list, and the task is no longer ready.
    method Enlist(t: nat, n: Node, timeout: nat)
      requires Valid() && t in rdy && t !in q
      modifies this`waitList, this`rdy, this`q, links, nodes, tcbs
      ensures Valid() && t < tcbs.Length && q == [t] + old(q) && rdy == old(rdy) - {t}
      ensures nodes[..] == old(nodes[..])[t := n]
      ensures tcbs[..] == old(tcbs[..])[t := old(tcbs[t]).(pending := true, pend := PendOk, dly := timeout)]
    {
      PushChain(links[..], q, t);
      tcbs[t] := tcbs[t].(pending := true, pend := PendOk, dly := timeout);
      nodes[t] := n;
      PushFront(links, t, waitList);
      waitList := Some(t);
      rdy := rdy - {t};
      q := [t] + q;
      assert tcbs[..] == old(tcbs[..])[t := old(tcbs[t]).(pending := true, pend := PendOk, dly := timeout)];
      assert nodes[..] == old(nodes[..])[t := n];
    }

    // The clock counts the last tick of a waiting task.
    method Expire(t: nat)
      requires Valid() && t < tcbs.Length && tcbs[t].pending && tcbs[t].dly == 1
      modifies this`rdy, tcbs
      ensures Valid() && tcbs[..] == old(tcbs[..])[t := old(tcbs[t]).(pending := false, pend := PendTimeout, dly := 0)]
      ensures rdy == if old(tcbs[t]).suspended then old(rdy) else old(rdy) + {t}
      ensures old(SetOnly()) ==> SetOnly()
    {
      tcbs[t] := tcbs[t].(dly := 0, pending := false, pend := PendTimeout);
      if !tcbs[t].suspended {
        rdy := rdy + {t};
      }
      assert tcbs[..] == old(tcbs[..])[t := old(tcbs[t]).(pending := false, pend := PendTimeout, dly := 0)];
    }

    // The clock counts an earlier tick of a waiting task.
    method CountDown(t: nat)
      requires Valid() && t < tcbs.Length && tcbs[t].pending && tcbs[t].dly > 1
      modifies tcbs
      ensures Valid() && tcbs[..] == old(tcbs[..])[t := old(tcbs[t]).(dly := old(tcbs[t]).dly - 1)]
      ensures old(SetOnly()) ==> SetOnly()
    {
      tcbs[t] := tcbs[t].(dly := tcbs[t].dly - 1);
      assert tcbs[..] == old(tcbs[..])[t := old(tcbs[t]).(dly := old(tcbs[t]).dly - 1)];
    }

    // Another task suspends task `t`, whatever it is doing.
    method Suspend(t: nat)
      requires Valid() && t < tcbs.Length
      modifies this`rdy, tcbs
      ensures Valid() && tcbs[..] == old(tcbs[..])[t := old(tcbs[t]).(suspended := true)] && rdy == old(rdy) - {t}
      ensures old(SetOnly()) ==> SetOnly()
    {
      rdy := rdy - {t};
      tcbs[t] := tcbs[t].(suspended := true);
      assert tcbs[..] == old(tcbs[..])[t := old(tcbs[t]).(suspended := true)];
    }

    // The end of a suspension makes a task ready unless it still waits or sleeps.
    method EndSuspension(t: nat)
      requires Valid() && t < tcbs.Length && tcbs[t].suspended
      modifies this`rdy, tcbs
      ensures Valid() && tcbs[..] == old(tcbs[..])[t := old(tcbs[t]).(suspended := false)]
      ensures rdy == if !old(tcbs[t]).pending && old(tcbs[t]).dly == 0 then old(rdy) + {t} else old(rdy)
      ensures old(SetOnly()) ==> SetOnly()
    {
      tcbs[t] := tcbs[t].(suspended := false);
      if !tcbs[t].pending {
        if tcbs[t].dly == 0 {
          rdy := rdy + {t};
        }
      }
      assert tcbs[..] == old(tcbs[..])[t := old(tcbs[t]).(suspended := false)];
    }

    // The code after the scheduler call of a pend.
    method Resume(t: nat, kind: WaitType, consume: bool) returns (timeout: bool, got: set<nat>)
      requires Valid() && t in rdy
      modifies this`flags, this`waitList, this`q, links, tcbs
      ensures Valid() && t < tcbs.Length && nodes[..] == old(nodes[..])
      ensures timeout == (old(tcbs[t]).pend == PendTimeout) && t !in q && (forall u :: u in q <==> u in old(q) && u != t)
      ensures got == if timeout then {} else old(tcbs[t]).flagsRdy
      ensures flags == if !timeout && consume then Consumed(kind, old(flags), got) else old(flags)
      ensures tcbs[..] == old(tcbs[..])[t := old(tcbs[t]).(pend := PendOk)]
      ensures old(SetOnly()) && (kind == SetAll || kind == SetAny) ==> SetOnly()
      ensures forall b :: b in flags <==>
                if b in got && consume && !timeout then kind == ClrAll || kind == ClrAny else b in old(flags)
    {
      timeout := tcbs[t].pend != PendOk;
      got := {};
      if timeout {
        assert t in q;
        ghost var k :| 0 <= k < |q| && q[k] == t;
        DropMembers(q, k);
        Remove(t, k);
        tcbs[t] := tcbs[t].(pend := PendOk);
        assert tcbs[..] == old(tcbs[..])[t := old(tcbs[t]).(pend := PendOk)];
        FewerWait(nodes[..], old(q), k, flags);
      } else {
        got := tcbs[t].flagsRdy;
        if old(SetOnly()) && (kind == SetAll || kind == SetAny) {
          ConsumingMissesNobody(nodes[..], q, flags, kind, got);
        }
        if consume {
          flags := Consumed(kind, flags, got);
        }
        assert tcbs[..] == old(tcbs[..])[t := old(tcbs[t]).(pend := PendOk)];
      }
    }

    // ---------- runs ----------

    // A call by a task, or a tick, that can come now; one that cannot is passed over.
    method Make(c: Call)
      requires Valid() && SetOnly() && OnlyForSet(c)
      modifies this`flags, this`waitList, this`rdy, this`q, links, nodes, tcbs
      ensures Valid() && SetOnly()
    {
      match c {
        case PostCall(mask, setting) =>
          var _ := Post(mask, setting);
        case PendCall(t, mask, kind, consume, timeout) =>
          if t in rdy && t < tcbs.Length && tcbs[t].pend == PendOk {
            var _, _ := Pend(t, mask, kind, consume, timeout);
          }
        case TickCall(t) =>
          if t < tcbs.Length && tcbs[t].pending && tcbs[t].dly > 0 {
            if tcbs[t].dly == 1 {
              Expire(t);
            } else {
              CountDown(t);
            }
          }
        case ResumeCall(t, kind, consume) =>
          if t in rdy {
            var _, _ := Resume(t, kind, consume);
          }
        case SuspendCall(t) =>
          if t < tcbs.Length {
            Suspend(t);
          }
        case EndSuspensionCall(t) =>
          if t < tcbs.Length && tcbs[t].suspended {
            EndSuspension(t);
          }
      }
    }

    // However posts, pends, timeouts, resumed pends and suspensions of tasks that wait for flags to be set follow each
    // other, nobody is ever left waiting for what has already come about.
    method Run(calls: seq<Call>)
      requires Valid() && SetOnly() && forall i :: 0 <= i < |calls| ==> OnlyForSet(calls[i])
      modifies this`flags, this`waitList, this`rdy, this`q, links, nodes, tcbs
      ensures Valid() && SetOnly()
    {
      for i := 0 to |calls|
        invariant Valid() && SetOnly()
      {
        Make(calls[i]);
      }
    }
  }

  // What can happen to a group.
  datatype Call =
    | PostCall(mask: set<nat>, setting: bool)
    | PendCall(t: nat, mask: set<nat>, kind: WaitType, consume: bool, timeout: nat)
    | TickCall(t: nat)
    | ResumeCall(t: nat, kind: WaitType, consume: bool)
    | SuspendCall(t: nat)
    | EndSuspensionCall(t: nat)

  predicate OnlyForSet(c: Call) {
    match c
    case PendCall(_, _, kind, _, _) => kind == SetAll || kind == SetAny
    case ResumeCall(_, kind, _) => kind == SetAll || kind == SetAny
    case _ => true
  }

  lemma FewerWait(nodes: seq<Node>, q: seq<nat>, k: nat, flags: set<nat>)
    requires k < |q|
    ensures AllForSet(nodes, q) ==> AllForSet(nodes, Drop(q, k))
    ensures NobodyMissed(nodes, q, flags) ==> NobodyMissed(nodes, Drop(q, k), flags)
  {
    var q' := Drop(q, k);
    assert forall i :: 0 <= i < |q'| ==> q'[i] == q[if i < k then i else i + 1];
  }
}
