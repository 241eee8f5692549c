/** The kernel's records as they are laid out in memory, and what they stand for.
    A pointer into a table is an index, and a table is here the sequence of its records. */
module KernelRep {
  import opened PrioSets
  import opened PrioBitmap
  import opened KernelState
  import opened Chains

  // A task control block. `y`, `x`, `bitY` and `bitX` are computed from the priority in advance.
  datatype OsTcb = OsTcb(prio: nat, y: nat, x: nat, bitY: bv8, bitX: bv8,
                         stat: set<StatBit>, pend: PendStat, dly: nat, event: Option<nat>, msg: nat,
                         next: Option<nat>, prev: Option<nat>)

  datatype EventType = TypeUnused | TypeMbox | TypeQ | TypeSem | TypeMutex

  function TypeOf(kind: StatBit): EventType
    requires kind != SUSPEND
  {
    match kind
    case SEM => TypeSem
    case MBOX => TypeMbox
    case Q => TypeQ
    case MUTEX => TypeMutex
  }

  // The pointer of an event control block means a message, a queue, a mutex owner or the next free block.
  datatype Ptr = Null | MsgPtr(msg: nat) | QPtr | TcbPtr(t: nat) | EcbPtr(e: nat)

  datatype OsEvent = OsEvent(kind: EventType, cnt: nat, ptr: Ptr, grp: bv8, tbl: seq<bv8>)

  // The mutex count packs the ceiling and the owner's priority into two bytes.
  function Pack(pcp: nat, low: nat): nat {
    256 * pcp + low
  }

  function UpperByte(cnt: nat): nat {
    cnt / 256
  }

  function LowerByte(cnt: nat): nat {
    cnt % 256
  }

  // ---------- what the records stand for ----------

  predicate Cached(c: OsTcb) {
    c.prio < 64 && c.y == c.prio / 8 && c.x == c.prio % 8 && c.bitY == Bit(c.y) && c.bitX == Bit(c.x)
  }

  predicate TcbRep(c: OsTcb, k: Tcb) {
    c.prio == k.prio && c.stat == k.stat && c.pend == k.pend && c.dly == k.dly && c.event == k.event && c.msg == k.msg
  }

  predicate BodyRep(v: OsEvent, b: Body) {
    match b
    case Unused => v.kind == TypeUnused
    case Sem(cnt) => v.kind == TypeSem && v.cnt == cnt
    case Mbox(msg) => v.kind == TypeMbox && v.ptr == if msg == 0 then Null else MsgPtr(msg)
    case Queue(_, _) => v.kind == TypeQ && v.ptr == QPtr
    case Mutex(pcp, low, owner) =>
      && v.kind == TypeMutex && pcp < 256 && low < 256 && v.cnt == Pack(pcp, low)
      && v.ptr == if owner.Some? then TcbPtr(owner.value) else Null
  }

  ghost predicate SetRep(grp: bv8, tbl: seq<bv8>, s: set<nat>) {
    |tbl| == 8 && Represents(grp, tbl, s)
  }

  ghost predicate EventRep(v: OsEvent, w: Event) {
    BodyRep(v, w.body) && SetRep(v.grp, v.tbl, w.wait)
  }

  ghost predicate TcbsRep(tbl: seq<OsTcb>, tcbs: seq<Tcb>, live: set<nat>) {
    && |tbl| == |tcbs|
    && (forall t :: 0 <= t < |tbl| ==> TcbRep(tbl[t], tcbs[t]))
    && (forall t :: t in live ==> t < |tbl| && Cached(tbl[t]))
  }

  ghost predicate EventsRep(tbl: seq<OsEvent>, events: seq<Event>) {
    && |tbl| == |events|
    && (forall e :: 0 <= e < |tbl| ==> EventRep(tbl[e], events[e]))
  }

  // The doubly linked list of live tasks.
  predicate LinkedAt(tbl: seq<OsTcb>, q: seq<nat>, i: nat)
    requires i < |q|
  {
    q[i] < |tbl| && tbl[q[i]].next == At(q, i + 1) && tbl[q[i]].prev == At(q, i - 1)
  }

  ghost predicate Linked(tbl: seq<OsTcb>, q: seq<nat>) {
    forall i :: 0 <= i < |q| ==> LinkedAt(tbl, q, i)
  }

  // The singly linked list of free task control blocks.
  predicate FreeAt(tbl: seq<OsTcb>, q: seq<nat>, i: nat)
    requires i < |q|
  {
    q[i] < |tbl| && tbl[q[i]].next == At(q, i + 1)
  }

  ghost predicate FreeLinked(tbl: seq<OsTcb>, q: seq<nat>) {
    forall i :: 0 <= i < |q| ==> FreeAt(tbl, q, i)
  }

  function PtrTo(next: Option<nat>): Ptr {
    if next.Some? then EcbPtr(next.value) else Null
  }

  // The free list of event control blocks, threaded through their pointers.
  predicate PoolAt(tbl: seq<OsEvent>, q: seq<nat>, i: nat)
    requires i < |q|
  {
    q[i] < |tbl| && tbl[q[i]].ptr == PtrTo(At(q, i + 1))
  }

  ghost predicate PoolLinked(tbl: seq<OsEvent>, q: seq<nat>) {
    forall i :: 0 <= i < |q| ==> PoolAt(tbl, q, i)
  }

  lemma GroupShows(v: OsEvent, w: Event)
    requires EventRep(v, w)
    ensures v.grp == 0 <==> w.wait == {}
  {
    EmptyGroup(v.grp, v.tbl, w.wait);
  }

  // ---------- one entry changes ----------

  lemma SetInsert(grp: bv8, tbl: seq<bv8>, s: set<nat>, c: OsTcb)
    requires SetRep(grp, tbl, s) && Cached(c)
    ensures SetRep(grp | c.bitY, tbl[c.y := tbl[c.y] | c.bitX], s + {c.prio})
  {
    InsertAt(grp, tbl, s, c.y, c.x);
  }

  lemma SetRemove(grp: bv8, tbl: seq<bv8>, s: set<nat>, c: OsTcb, row: bv8)
    requires SetRep(grp, tbl, s) && Cached(c) && row == tbl[c.y] & !c.bitX
    ensures SetRep(if row == 0 then grp & !c.bitY else grp, tbl[c.y := row], s - {c.prio})
  {
    RemoveAt(grp, tbl, s, c.y, c.x, row, if row == 0 then grp & !c.bitY else grp);
  }

  lemma TcbUpdate(tbl: seq<OsTcb>, tcbs: seq<Tcb>, live: set<nat>, t: nat, c: OsTcb, k: Tcb)
    requires TcbsRep(tbl, tcbs, live) && t < |tbl| && TcbRep(c, k) && (t in live ==> Cached(c))
    ensures TcbsRep(tbl[t := c], tcbs[t := k], live)
  {
  }

  lemma LinksKept(tbl: seq<OsTcb>, q: seq<nat>, free: seq<nat>, t: nat, c: OsTcb)
    requires Linked(tbl, q) && FreeLinked(tbl, free) && t < |tbl| && c.next == tbl[t].next && c.prev == tbl[t].prev
    ensures Linked(tbl[t := c], q) && FreeLinked(tbl[t := c], free)
  {
    var tbl' := tbl[t := c];
    forall i | 0 <= i < |q|
      ensures LinkedAt(tbl', q, i)
    {
      assert LinkedAt(tbl, q, i);
    }
    forall i | 0 <= i < |free|
      ensures FreeAt(tbl', free, i)
    {
      assert FreeAt(tbl, free, i);
    }
  }

  lemma EventUpdate(tbl: seq<OsEvent>, events: seq<Event>, q: seq<nat>, e: nat, v: OsEvent, w: Event)
    requires EventsRep(tbl, events) && PoolLinked(tbl, q) && e < |tbl|
    requires EventRep(v, w) && (e in q ==> v.ptr == tbl[e].ptr)
    ensures EventsRep(tbl[e := v], events[e := w]) && PoolLinked(tbl[e := v], q)
  {
    var tbl' := tbl[e := v];
    forall i | 0 <= i < |q|
      ensures PoolAt(tbl', q, i)
    {
      assert PoolAt(tbl, q, i);
    }
  }

  // ---------- the pool of event control blocks ----------

  function NextFree(v: OsEvent): Option<nat> {
    if v.ptr.EcbPtr? then Some(v.ptr.e) else None
  }

  lemma PoolTake(tbl: seq<OsEvent>, events: seq<Event>, q: seq<nat>, v: OsEvent, w: Event)
    requires EventsRep(tbl, events) && PoolLinked(tbl, q) && NoDup(q) && q != [] && EventRep(v, w)
    ensures q[0] < |tbl| && NextFree(tbl[q[0]]) == At(q[1..], 0)
    ensures EventsRep(tbl[q[0] := v], events[q[0] := w]) && PoolLinked(tbl[q[0] := v], q[1..])
  {
    assert PoolAt(tbl, q, 0);
    var tbl', q' := tbl[q[0] := v], q[1..];
    forall i | 0 <= i < |q'|
      ensures PoolAt(tbl', q', i)
    {
      assert PoolAt(tbl, q, i + 1);
    }
  }

  lemma PoolGive(tbl: seq<OsEvent>, events: seq<Event>, q: seq<nat>, e: nat, v: OsEvent, w: Event)
    requires EventsRep(tbl, events) && PoolLinked(tbl, q) && e < |tbl| && e !in q
    requires EventRep(v, w) && v.ptr == PtrTo(At(q, 0))
    ensures EventsRep(tbl[e := v], events[e := w]) && PoolLinked(tbl[e := v], [e] + q)
  {
    var tbl', q' := tbl[e := v], [e] + q;
    forall i | 0 <= i < |q'|
      ensures PoolAt(tbl', q', i)
    {
      if i > 0 {
        assert PoolAt(tbl, q, i - 1);
      }
    }
  }

  lemma NobodyThere(tbl: seq<bv8>)
    requires |tbl| == 8 && forall i :: 0 <= i < 8 ==> tbl[i] == 0
    ensures SetRep(0, tbl, {})
  {
    BitsOfZero(0);
    assert forall y :: 0 <= y < 8 ==> RowBits(tbl)[y] == {};
  }

  // ---------- the lists of task control blocks ----------

  // The record of a task at another priority.
  function WithPrio(c: OsTcb, p: nat): (r: OsTcb)
    requires p < PRIOS
    ensures Cached(r)
  {
    c.(prio := p, y := p / 8, x := p % 8, bitY := Bit(p / 8), bitX := Bit(p % 8))
  }

  lemma SetHas(grp: bv8, tbl: seq<bv8>, s: set<nat>, c: OsTcb)
    requires SetRep(grp, tbl, s) && Cached(c)
    ensures tbl[c.y] & c.bitX != 0 <==> c.prio in s
  {
    assert c.x in RowBits(tbl)[c.y] <==> Has(tbl[c.y], c.x);
  }

  // A record taken from the free list goes to the front of the list of live tasks.
  function LinkedIn(tbl: seq<OsTcb>, t: nat, c: OsTcb, head: Option<nat>): seq<OsTcb>
    requires t < |tbl| && (head.Some? ==> head.value < |tbl| && head.value != t)
  {
    var tbl1 := tbl[t := c.(next := head, prev := None)];
    if head.Some? then tbl1[head.value := tbl1[head.value].(prev := Some(t))] else tbl1
  }

  // A record leaves the list of live tasks for the front of the free list.
  function Unlinked(tbl: seq<OsTcb>, t: nat, free: Option<nat>): seq<OsTcb>
    requires t < |tbl| && tbl[t].next.Some? && tbl[t].next.value < |tbl|
    requires tbl[t].prev.Some? ==> tbl[t].prev.value < |tbl|
  {
    var c := tbl[t];
    var tbl1 := if c.prev.Some? then tbl[c.prev.value := tbl[c.prev.value].(next := c.next)] else tbl;
    var tbl2 := tbl1[c.next.value := tbl1[c.next.value].(prev := c.prev)];
    tbl2[t := tbl2[t].(next := free)]
  }

  lemma Disjoint(q: seq<nat>, free: seq<nat>)
    requires NoDup(q + free)
    ensures NoDup(q) && NoDup(free)
    ensures forall i, j :: 0 <= i < |q| && 0 <= j < |free| ==> q[i] != free[j]
  {
    var all := q + free;
    forall i, j | 0 <= i < |q| && 0 <= j < |free|
      ensures q[i] != free[j]
    {
      assert all[i] == q[i] && all[|q| + j] == free[j];
    }
    forall i, j | 0 <= i < j < |free|
      ensures free[i] != free[j]
    {
      assert all[|q| + i] == free[i] && all[|q| + j] == free[j];
    }
    forall i, j | 0 <= i < j < |q|
      ensures q[i] != q[j]
    {
      assert all[i] == q[i] && all[j] == q[j];
    }
  }

  lemma LinkIn(tbl: seq<OsTcb>, q: seq<nat>, free: seq<nat>, c: OsTcb)
    requires Linked(tbl, q) && FreeLinked(tbl, free) && NoDup(q + free) && free != []
    ensures free[0] < |tbl| && (q != [] ==> q[0] < |tbl| && q[0] != free[0])
    ensures tbl[free[0]].next == At(free[1..], 0)
    ensures var tbl' := LinkedIn(tbl, free[0], c, At(q, 0));
            Linked(tbl', [free[0]] + q) && FreeLinked(tbl', free[1..])
  {
    Disjoint(q, free);
    assert FreeAt(tbl, free, 0);
    assert q != [] ==> LinkedAt(tbl, q, 0);
    var tbl', q', free' := LinkedIn(tbl, free[0], c, At(q, 0)), [free[0]] + q, free[1..];
    forall i | 0 <= i < |q'|
      ensures LinkedAt(tbl', q', i)
    {
      if i > 0 {
        assert LinkedAt(tbl, q, i - 1);
      }
    }
    forall i | 0 <= i < |free'|
      ensures FreeAt(tbl', free', i)
    {
      assert FreeAt(tbl, free, i + 1);
    }
  }

  // Where a record points after one has left.
  lemma UnlinkedAt(tbl: seq<OsTcb>, t: nat, free: Option<nat>, k: nat)
    requires t < |tbl| && k < |tbl| && tbl[t].next.Some? && tbl[t].next.value < |tbl|
    requires tbl[t].prev.Some? ==> tbl[t].prev.value < |tbl|
    ensures var tbl' := Unlinked(tbl, t, free);
            && |tbl'| == |tbl|
            && tbl'[k].next == (if k == t then free else if tbl[t].prev == Some(k) then tbl[t].next else tbl[k].next)
            && tbl'[k].prev == (if tbl[t].next == Some(k) then tbl[t].prev else tbl[k].prev)
  {
  }

  lemma UnlinkLive(tbl: seq<OsTcb>, q: seq<nat>, i: nat, free: Option<nat>, j: nat)
    requires Linked(tbl, q) && NoDup(q) && i < |q| - 1 && j < |q| - 1
    requires q[i] < |tbl| && tbl[q[i]].next == At(q, i + 1) && q[i + 1] < |tbl|
    requires tbl[q[i]].prev == At(q, i - 1) && (i > 0 ==> q[i - 1] < |tbl|)
    ensures LinkedAt(Unlinked(tbl, q[i], free), q[..i] + q[i + 1..], j)
  {
    var q' := q[..i] + q[i + 1..];
    var j' := if j < i then j else j + 1;
    assert q'[j] == q[j'];
    assert LinkedAt(tbl, q, j');
    UnlinkedAt(tbl, q[i], free, q[j']);
    assert At(q', j + 1) == At(q, if j + 1 < i then j + 1 else j + 2);
    assert At(q', j - 1) == At(q, if j - 1 < i then j - 1 else j);
  }

  lemma UnlinkFree(tbl: seq<OsTcb>, q: seq<nat>, free: seq<nat>, i: nat, j: nat)
    requires FreeLinked(tbl, free) && i < |q| - 1 && j <= |free|
    requires q[i] < |tbl| && tbl[q[i]].next == At(q, i + 1) && q[i + 1] < |tbl|
    requires tbl[q[i]].prev == At(q, i - 1) && (i > 0 ==> q[i - 1] < |tbl|)
    requires forall a, b :: 0 <= a < |q| && 0 <= b < |free| ==> q[a] != free[b]
    ensures FreeAt(Unlinked(tbl, q[i], At(free, 0)), [q[i]] + free, j)
  {
    if j > 0 {
      assert FreeAt(tbl, free, j - 1);
      UnlinkedAt(tbl, q[i], At(free, 0), free[j - 1]);
    } else {
      UnlinkedAt(tbl, q[i], At(free, 0), q[i]);
    }
  }

  lemma UnlinkLists(tbl: seq<OsTcb>, q: seq<nat>, free: seq<nat>, i: nat)
    requires Linked(tbl, q) && FreeLinked(tbl, free) && NoDup(q + free) && i < |q| - 1
    ensures q[i] < |tbl| && tbl[q[i]].next == Some(q[i + 1]) && q[i + 1] < |tbl|
    ensures tbl[q[i]].prev == At(q, i - 1) && (i > 0 ==> q[i - 1] < |tbl|)
    ensures tbl[q[i]].next != Some(q[i]) && tbl[q[i]].prev != Some(q[i])
    ensures At(q[..i] + q[i + 1..], 0) == if tbl[q[i]].prev == None then tbl[q[i]].next else At(q, 0)
    ensures var tbl' := Unlinked(tbl, q[i], At(free, 0));
            Linked(tbl', q[..i] + q[i + 1..]) && FreeLinked(tbl', [q[i]] + free)
  {
    Disjoint(q, free);
    assert LinkedAt(tbl, q, i) && LinkedAt(tbl, q, i + 1) && (i > 0 ==> LinkedAt(tbl, q, i - 1));
    var tbl', q', free' := Unlinked(tbl, q[i], At(free, 0)), q[..i] + q[i + 1..], [q[i]] + free;
    forall j | 0 <= j < |q'|
      ensures LinkedAt(tbl', q', j)
    {
      UnlinkLive(tbl, q, i, At(free, 0), j);
    }
    forall j | 0 <= j < |free'|
      ensures FreeAt(tbl', free', j)
    {
      UnlinkFree(tbl, q, free, i, j);
    }
  }

  lemma LinkInRep(tbl: seq<OsTcb>, tcbs: seq<Tcb>, live: set<nat>, t: nat, c: OsTcb, k: Tcb, head: Option<nat>)
    requires TcbsRep(tbl, tcbs, live) && t < |tbl| && (head.Some? ==> head.value < |tbl| && head.value != t)
    requires Cached(c) && TcbRep(c, k)
    ensures TcbsRep(LinkedIn(tbl, t, c, head), tcbs[t := k], live + {t})
  {
  }

  lemma UnlinkRep(tbl: seq<OsTcb>, tcbs: seq<Tcb>, live: set<nat>, t: nat, free: Option<nat>)
    requires TcbsRep(tbl, tcbs, live) && t < |tbl| && tbl[t].next.Some? && tbl[t].next.value < |tbl|
    requires tbl[t].prev.Some? ==> tbl[t].prev.value < |tbl|
    ensures TcbsRep(Unlinked(tbl, t, free), tcbs, live - {t})
  {
  }

  // ---------- cleared records ----------

  const CLEARED := Tcb(0, {}, PendOk, 0, None, 0, Running, None)

  function FreeTcb(next: Option<nat>): OsTcb {
    OsTcb(0, 0, 0, 0, 0, {}, PendOk, 0, None, 0, next, None)
  }

  function FreeEvent(ptr: Ptr): OsEvent {
    OsEvent(TypeUnused, 0, ptr, 0, [0, 0, 0, 0, 0, 0, 0, 0])
  }

  function UpTo(n: nat): seq<nat> {
    seq(n, (i: nat) => i)
  }

  // The state before the idle task exists.
  function Blank(tasks: nat, maxEvents: nat, queues: nat): State {
    State(seq(tasks, (t: nat) => CLEARED), {}, [], UpTo(tasks), seq(PRIOS, (p: nat) => Vacant), {},
          seq(maxEvents, (e: nat) => Event(Unused, {})), UpTo(maxEvents), queues, 0, 0, 0, 0, false)
  }
}
