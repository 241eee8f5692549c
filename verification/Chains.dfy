/** Doubly linked lists threaded through a table: the pair of link fields that timers and flag nodes carry.
    A pointer is an index into the table. */
module Chains {
  import opened PrioSets
  import opened KernelState

  datatype Link = Link(next: Option<nat>, prev: Option<nat>)

  function At(q: seq<nat>, i: int): Option<nat> {
    if 0 <= i < |q| then Some(q[i]) else None
  }

  predicate ChainAt(l: seq<Link>, q: seq<nat>, i: nat)
    requires i < |q|
  {
    q[i] < |l| && l[q[i]] == Link(At(q, i + 1), At(q, i - 1))
  }

  // The links spell out the list `q` in both directions.
  ghost predicate Chain(l: seq<Link>, q: seq<nat>) {
    forall i :: 0 <= i < |q| ==> ChainAt(l, q, i)
  }

  ghost predicate SameOn(l: seq<Link>, l': seq<Link>, q: seq<nat>) {
    |l'| == |l| && forall i :: 0 <= i < |q| ==> q[i] < |l| && l'[q[i]] == l[q[i]]
  }

  lemma ChainFrame(l: seq<Link>, l': seq<Link>, q: seq<nat>)
    requires Chain(l, q) && SameOn(l, l', q)
    ensures Chain(l', q)
  {
    forall i | 0 <= i < |q|
      ensures ChainAt(l', q, i)
    {
      assert ChainAt(l, q, i);
    }
  }

  lemma ChainBounds(l: seq<Link>, q: seq<nat>)
    requires Chain(l, q)
    ensures forall i :: 0 <= i < |q| ==> q[i] < |l|
  {
    forall i | 0 <= i < |q|
      ensures q[i] < |l|
    {
      assert ChainAt(l, q, i);
    }
  }

  // ---------- insertion at the front ----------

  function Pushed(l: seq<Link>, n: nat, head: Option<nat>): seq<Link>
    requires n < |l| && (head.Some? ==> head.value < |l| && head.value != n)
  {
    var l1 := l[n := Link(head, None)];
    if head.Some? then l1[head.value := l1[head.value].(prev := Some(n))] else l1
  }

  lemma PushChain(l: seq<Link>, q: seq<nat>, n: nat)
    requires Chain(l, q) && NoDup(q) && n < |l| && n !in q
    ensures q != [] ==> q[0] < |l| && q[0] != n
    ensures Chain(Pushed(l, n, At(q, 0)), [n] + q) && NoDup([n] + q)
  {
    ChainBounds(l, q);
    var l', q' := Pushed(l, n, At(q, 0)), [n] + q;
    forall i | 0 <= i < |q'|
      ensures ChainAt(l', q', i)
    {
      if i > 0 {
        assert ChainAt(l, q, i - 1);
      }
    }
  }

  method PushFront(l: array<Link>, n: nat, head: Option<nat>)
    requires n < l.Length && (head.Some? ==> head.value < l.Length && head.value != n)
    modifies l
    ensures l[..] == Pushed(old(l[..]), n, head)
  {
    l[n] := Link(head, None);
    if head.Some? {
      l[head.value] := l[head.value].(prev := Some(n));
    }
  }

  // ---------- removal ----------

  // The neighbours of `n` are linked around it; its own links stay.
  function Cut(l: seq<Link>, n: nat): seq<Link>
    requires n < |l| && (l[n].next.Some? ==> l[n].next.value < |l|) && (l[n].prev.Some? ==> l[n].prev.value < |l|)
  {
    var c := l[n];
    var l1 := if c.prev.Some? then l[c.prev.value := l[c.prev.value].(next := c.next)] else l;
    if c.next.Some? then l1[c.next.value := l1[c.next.value].(prev := c.prev)] else l1
  }

  function Drop(q: seq<nat>, i: nat): seq<nat>
    requires i < |q|
  {
    q[..i] + q[i + 1..]
  }

  lemma CutAt(l: seq<Link>, n: nat, k: nat)
    requires n < |l| && (l[n].next.Some? ==> l[n].next.value < |l|) && (l[n].prev.Some? ==> l[n].prev.value < |l|)
    requires k < |l|
    ensures var l' := Cut(l, n);
            && |l'| == |l|
            && l'[k].next == (if l[n].prev == Some(k) then l[n].next else l[k].next)
            && l'[k].prev == (if l[n].next == Some(k) then l[n].prev else l[k].prev)
  {
  }

  lemma CutLink(l: seq<Link>, q: seq<nat>, i: nat, j: nat)
    requires Chain(l, q) && NoDup(q) && i < |q| && j < |q| - 1
    requires q[i] < |l| && l[q[i]] == Link(At(q, i + 1), At(q, i - 1))
    requires (i > 0 ==> q[i - 1] < |l|) && (i + 1 < |q| ==> q[i + 1] < |l|)
    ensures ChainAt(Cut(l, q[i]), Drop(q, i), j)
  {
    var q' := Drop(q, i);
    var j' := if j < i then j else j + 1;
    assert q'[j] == q[j'];
    assert ChainAt(l, q, j');
    CutAt(l, q[i], q[j']);
    assert At(q', j + 1) == At(q, if j + 1 < i then j + 1 else j + 2);
    assert At(q', j - 1) == At(q, if j - 1 < i then j - 1 else j);
  }

  lemma CutChain(l: seq<Link>, q: seq<nat>, i: nat)
    requires Chain(l, q) && NoDup(q) && i < |q|
    ensures q[i] < |l| && l[q[i]] == Link(At(q, i + 1), At(q, i - 1))
    ensures (i > 0 ==> q[i - 1] < |l|) && (i + 1 < |q| ==> q[i + 1] < |l|)
    ensures Chain(Cut(l, q[i]), Drop(q, i)) && NoDup(Drop(q, i)) && |Cut(l, q[i])| == |l|
    ensures Cut(l, q[i])[q[i]] == l[q[i]]
  {
    ChainBounds(l, q);
    assert ChainAt(l, q, i);
    var l', q' := Cut(l, q[i]), Drop(q, i);
    forall j | 0 <= j < |q'|
      ensures ChainAt(l', q', j)
    {
      CutLink(l, q, i, j);
    }
    CutAt(l, q[i], q[i]);
    DropDistinct(q, i);
  }

  lemma DropDistinct(q: seq<nat>, i: nat)
    requires NoDup(q) && i < |q|
    ensures NoDup(Drop(q, i))
  {
    var q' := Drop(q, i);
    forall a, b | 0 <= a < b < |q'|
      ensures q'[a] != q'[b]
    {
      assert q'[a] == q[if a < i then a else a + 1] && q'[b] == q[if b < i then b else b + 1];
    }
  }

  // Dropping one element keeps the others.
  lemma DropMembers(q: seq<nat>, i: nat)
    requires NoDup(q) && i < |q|
    ensures forall x :: x in Drop(q, i) <==> x in q && x != q[i]
  {
    var q' := Drop(q, i);
    forall a | 0 <= a < |q'|
      ensures q'[a] in q && q'[a] != q[i]
    {
      assert q'[a] == q[if a < i then a else a + 1];
    }
    forall b | 0 <= b < |q| && q[b] != q[i]
      ensures q[b] in q'
    {
      assert q[b] == q'[if b < i then b else b - 1];
    }
  }

  method Unlink(l: array<Link>, n: nat)
    requires n < l.Length && (l[n].next.Some? ==> l[n].next.value < l.Length && l[n].next.value != n)
    requires l[n].prev.Some? ==> l[n].prev.value < l.Length && l[n].prev.value != n
    modifies l
    ensures l[..] == Cut(old(l[..]), n)
  {
    var next, prev := l[n].next, l[n].prev;
    if prev == None {
      if next != None {
        l[next.value] := l[next.value].(prev := None);
      }
    } else {
      l[prev.value] := l[prev.value].(next := next);
      if next != None {
        l[next.value] := l[next.value].(prev := prev);
      }
    }
  }

  // Distinct indices are no more than there are.
  lemma {:induction false} DistinctBelow(q: seq<nat>, n: nat)
    requires NoDup(q) && forall i :: 0 <= i < |q| ==> q[i] < n
    ensures |q| <= n
    decreases n
  {
    if q != [] {
      assert q[0] < n;
      var m: nat := n - 1;
      if m in q {
        var i :| 0 <= i < |q| && q[i] == m;
        DropDistinct(q, i);
        DropMembers(q, i);
        DistinctBelow(Drop(q, i), m);
      } else {
        DistinctBelow(q, m);
      }
    }
  }
}
