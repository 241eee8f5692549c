/** The storage of a message queue: a ring of cells with an input and an output position.
    Its contents are the list that the queue services put into and take from. */
module RingQueue {
  import opened KernelState
  import opened EventServices

  // The position after the last cell is the first one.
  function Wrap(i: nat, size: nat): nat {
    if i < size then i else i - size
  }

  // The cells from `out` on, `n` of them.
  function Ring(cells: seq<nat>, out: nat, n: nat): (r: seq<nat>)
    requires n <= |cells| && (n > 0 ==> out < |cells|)
    ensures |r| == n && forall i :: 0 <= i < n ==> r[i] == cells[Wrap(out + i, |cells|)]
  {
    seq(n, (i: nat) requires i < n => cells[Wrap(out + i, |cells|)])
  }

  lemma RingAppend(cells: seq<nat>, out: nat, n: nat, msg: nat)
    requires n < |cells| && out < |cells|
    ensures Ring(cells[Wrap(out + n, |cells|) := msg], out, n + 1) == Ring(cells, out, n) + [msg]
  {
    var r, r' := Ring(cells, out, n) + [msg], Ring(cells[Wrap(out + n, |cells|) := msg], out, n + 1);
    assert forall i :: 0 <= i < |r| ==> r'[i] == r[i];
  }

  lemma RingPrepend(cells: seq<nat>, out: nat, n: nat, msg: nat)
    requires n < |cells| && out < |cells|
    ensures var out' := if out == 0 then |cells| - 1 else out - 1;
            Ring(cells[out' := msg], out', n + 1) == [msg] + Ring(cells, out, n)
  {
    var out' := if out == 0 then |cells| - 1 else out - 1;
    var r, r' := [msg] + Ring(cells, out, n), Ring(cells[out' := msg], out', n + 1);
    assert forall i :: 0 <= i < |r| ==> r'[i] == r[i];
  }

  lemma RingTail(cells: seq<nat>, out: nat, n: nat)
    requires 0 < n <= |cells| && out < |cells|
    ensures Ring(cells, Wrap(out + 1, |cells|), n - 1) == Ring(cells, out, n)[1..] && Ring(cells, out, n)[0] == cells[out]
  {
    var r, r' := Ring(cells, out, n)[1..], Ring(cells, Wrap(out + 1, |cells|), n - 1);
    assert forall i :: 0 <= i < |r| ==> r'[i] == r[i];
  }

  class Queue {
    const start: array<nat>
    var inPos: nat
    var outPos: nat
    var size: nat
    var entries: nat

    ghost predicate Valid()
      reads this
    {
      && size == start.Length && entries <= size
      && (size > 0 ==> outPos < size && inPos == Wrap(outPos + entries, size))
      && (size == 0 ==> outPos == 0 && inPos == 0)
    }

    // The messages, oldest first.
    ghost function Messages(): seq<nat>
      reads this, start
      requires Valid()
    {
      Ring(start[..], outPos, entries)
    }

    // What the queue holds, as the services see it.
    ghost function Contents(): Body
      reads this, start
      requires Valid()
    {
      Body.Queue(Messages(), size)
    }

    constructor (cells: array<nat>)
      ensures Valid() && start == cells && Contents() == Body.Queue([], cells.Length)
    {
      start := cells;
      inPos, outPos, size, entries := 0, 0, cells.Length, 0;
    }

    // A post at the back.
    method Append(msg: nat) returns (full: bool)
      requires Valid()
      modifies this`inPos, this`entries, start
      ensures Valid() && full == Full(old(Contents()))
      ensures full <==> |old(Messages())| == size
      ensures Messages() == if full then old(Messages()) else old(Messages()) + [msg]
      ensures Contents() == if full then old(Contents()) else AfterPut(old(Contents()), msg, false)
    {
      if entries >= size {
        return true;
      }
      RingAppend(start[..], outPos, entries, msg);
      start[inPos] := msg;
      assert start[..] == old(start[..])[inPos := msg];
      inPos := inPos + 1;
      entries := entries + 1;
      if inPos == size {
        inPos := 0;
      }
      return false;
    }

    // A post at the front.
    method Prepend(msg: nat) returns (full: bool)
      requires Valid()
      modifies this`outPos, this`entries, start
      ensures Valid() && full == Full(old(Contents()))
      ensures full <==> |old(Messages())| == size
      ensures Messages() == if full then old(Messages()) else [msg] + old(Messages())
      ensures Contents() == if full then old(Contents()) else AfterPut(old(Contents()), msg, true)
    {
      if entries >= size {
        return true;
      }
      RingPrepend(start[..], outPos, entries, msg);
      if outPos == 0 {
        outPos := size;
      }
      outPos := outPos - 1;
      start[outPos] := msg;
      assert start[..] == old(start[..])[outPos := msg];
      entries := entries + 1;
      return false;
    }

    // A post with options.
    method Put(msg: nat, front: bool) returns (full: bool)
      requires Valid()
      modifies this`inPos, this`outPos, this`entries, start
      ensures Valid() && full == Full(old(Contents()))
      ensures full <==> |old(Messages())| == size
      ensures Messages() == if full then old(Messages()) else if front then [msg] + old(Messages()) else old(Messages()) + [msg]
      ensures Contents() == if full then old(Contents()) else AfterPut(old(Contents()), msg, front)
    {
      if entries >= size {
        return true;
      }
      RingAppend(start[..], outPos, entries, msg);
      RingPrepend(start[..], outPos, entries, msg);
      if front {
        if outPos == 0 {
          outPos := size;
        }
        outPos := outPos - 1;
        start[outPos] := msg;
        assert start[..] == old(start[..])[outPos := msg];
      } else {
        start[inPos] := msg;
        assert start[..] == old(start[..])[inPos := msg];
        inPos := inPos + 1;
        if inPos == size {
          inPos := 0;
        }
      }
      entries := entries + 1;
      return false;
    }

    // What a pend or an accept takes: the oldest message, if there is one.
    method Take() returns (msg: nat, any: bool)
      requires Valid()
      modifies this`outPos, this`entries
      ensures Valid() && any == Available(old(Contents()))
      ensures old(Messages()) == if any then [msg] + Messages() else []
      ensures if any then msg == Taken(old(Contents())) && Contents() == AfterTake(old(Contents()))
              else msg == 0 && Contents() == old(Contents())
    {
      if entries > 0 {
        RingTail(start[..], outPos, entries);
        msg := start[outPos];
        outPos := outPos + 1;
        entries := entries - 1;
        if outPos == size {
          outPos := 0;
        }
        return msg, true;
      }
      return 0, false;
    }

    method Flush()
      requires Valid()
      modifies this`inPos, this`outPos, this`entries
      ensures Valid() && Messages() == [] && Contents() == Body.Queue([], size) && size == old(size)
    {
      inPos, outPos, entries := 0, 0, 0;
    }
  }
}
