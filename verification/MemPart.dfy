/** Fixed-size memory blocks. The list of free blocks is threaded through the blocks themselves:
    the first word of a free block holds the address of the next one. */
module MemPart {
  import opened PrioSets
  import opened KernelState
  import opened Chains

  // A word of memory is a pointer or anything else that a client may have left there.
  datatype Word = NullPtr | Addr(a: nat) | Data(v: int)

  // The address of block `k`.
  function BlockAt(addr: nat, size: nat, k: nat): nat {
    addr + k * size
  }

  function PtrTo(addr: nat, size: nat, k: Option<nat>): Word {
    if k.Some? then Addr(BlockAt(addr, size, k.value)) else NullPtr
  }

  predicate LinkAt(mem: seq<Word>, addr: nat, size: nat, q: seq<nat>, i: nat)
    requires i < |q|
  {
    BlockAt(addr, size, q[i]) < |mem| && mem[BlockAt(addr, size, q[i])] == PtrTo(addr, size, At(q, i + 1))
  }

  // The blocks numbered by `q` form a list in memory.
  ghost predicate FreeLinked(mem: seq<Word>, addr: nat, size: nat, q: seq<nat>) {
    forall i :: 0 <= i < |q| ==> LinkAt(mem, addr, size, q, i)
  }

  // The word at address `a` lies in block `k`.
  predicate InBlock(addr: nat, size: nat, k: nat, a: nat) {
    BlockAt(addr, size, k) <= a < BlockAt(addr, size, k) + size
  }

  lemma BlocksApart(addr: nat, size: nat, j: nat, k: nat, a: nat)
    requires InBlock(addr, size, j, a) && InBlock(addr, size, k, a)
    ensures j == k
  {
    if j < k {
      Spread(size, j, k);
    } else if k < j {
      Spread(size, k, j);
    }
  }

  lemma Spread(size: nat, j: nat, k: nat)
    requires j < k
    ensures j * size + size <= k * size
  {
    assert (k - j - 1) * size >= 0;
  }

  lemma BlockFits(addr: nat, size: nat, n: nat, k: nat)
    requires k < n && size > 0
    ensures BlockAt(addr, size, k) + size <= addr + n * size
    ensures InBlock(addr, size, k, BlockAt(addr, size, k))
  {
    Spread(size, k, n);
  }

  // ---------- the blocks in use ----------

  function Out(q: seq<nat>, n: nat): set<nat> {
    set k: nat | k < n && k !in q
  }

  lemma {:induction false} BelowHasSize(n: nat)
    ensures |Out([], n)| == n
  {
    if n > 0 {
      BelowHasSize(n - 1);
      assert Out([], n) == Out([], n - 1) + {n - 1};
    }
  }

  // Free and outstanding blocks add up.
  lemma {:induction false} OutHasSize(q: seq<nat>, n: nat)
    requires NoDup(q) && forall i :: 0 <= i < |q| ==> q[i] < n
    ensures |Out(q, n)| + |q| == n
  {
    if q == [] {
      BelowHasSize(n);
    } else {
      var r := q[1..];
      OutHasSize(r, n);
      assert q == [q[0]] + r;
      assert q[0] in Out(r, n);
      assert Out(q, n) == Out(r, n) - {q[0]};
    }
  }

  // A write outside the free blocks leaves their list alone.
  lemma WriteElsewhere(mem: seq<Word>, addr: nat, size: nat, q: seq<nat>, a: nat, w: Word)
    requires FreeLinked(mem, addr, size, q) && a < |mem|
    requires forall i :: 0 <= i < |q| ==> BlockAt(addr, size, q[i]) != a
    ensures FreeLinked(mem[a := w], addr, size, q)
  {
    var mem' := mem[a := w];
    forall i | 0 <= i < |q|
      ensures LinkAt(mem', addr, size, q, i)
    {
      assert LinkAt(mem, addr, size, q, i);
    }
  }

  class Partition {
    const mem: array<Word>
    const addr: nat
    const blkSize: nat
    const nBlks: nat
    var freeList: Word
    var nFree: nat
    // The numbers of the free blocks, in the order of the list.
    ghost var blocks: seq<nat>

    ghost predicate Valid()
      reads this, mem
    {
      && blkSize > 0 && addr + nBlks * blkSize <= mem.Length
      && NoDup(blocks) && (forall i :: 0 <= i < |blocks| ==> blocks[i] < nBlks)
      && FreeLinked(mem[..], addr, blkSize, blocks)
      && freeList == PtrTo(addr, blkSize, At(blocks, 0)) && nFree == |blocks|
    }

    ghost function Outstanding(): set<nat>
      reads this
    {
      Out(blocks, nBlks)
    }

    lemma Counted()
      requires Valid()
      ensures |Outstanding()| + nFree == nBlks
    {
      OutHasSize(blocks, nBlks);
    }

    // All blocks are linked in order.
    constructor (m: array<Word>, start: nat, n: nat, size: nat)
      requires size > 0 && n > 0 && start + n * size <= m.Length
      modifies m
      ensures Valid() && mem == m && addr == start && nBlks == n && blkSize == size && Outstanding() == {}
      ensures forall a :: 0 <= a < m.Length && !(start <= a < start + n * size) ==> m[a] == old(m[a])
    {
      mem, addr, nBlks, blkSize := m, start, n, size;
      freeList, nFree := Addr(start), n;
      blocks := seq(n, (k: nat) => k);
      new;
      var i, link, blk := 0, addr, addr;
      while i < n - 1
        invariant 0 <= i < n && link == blk == BlockAt(addr, size, i) && link < mem.Length
        invariant forall k :: 0 <= k < i ==> BlockAt(addr, size, k) < mem.Length && mem[BlockAt(addr, size, k)] == Addr(BlockAt(addr, size, k + 1))
        invariant forall a :: 0 <= a < m.Length && !(start <= a < start + n * size) ==> m[a] == old(m[a])
        modifies mem
      {
        Spread(size, i, n);
        Spread(size, i + 1, n);
        Earlier(addr, size, i);
        blk := blk + size;
        mem[link] := Addr(blk);
        link := blk;
        i := i + 1;
      }
      Spread(size, i, n);
      Earlier(addr, size, i);
      mem[link] := NullPtr;
      forall k | 0 <= k < |blocks|
        ensures LinkAt(mem[..], addr, size, blocks, k)
      {
        assert At(blocks, k + 1) == if k < n - 1 then Some(k + 1) else None;
      }
      assert Outstanding() == {} by {
        forall k | 0 <= k < n
          ensures k in blocks
        {
          assert blocks[k] == k;
        }
      }
    }

    method Get() returns (blk: Option<nat>)
      requires Valid()
      modifies this`freeList, this`nFree, this`blocks
      ensures Valid()
      ensures match blk
              case None => old(nFree) == 0 && blocks == old(blocks)
              case Some(a) =>
                old(blocks) != [] && blocks == old(blocks)[1..] && a == BlockAt(addr, blkSize, old(blocks)[0])
                && old(blocks)[0] !in old(Outstanding()) && Outstanding() == old(Outstanding()) + {old(blocks)[0]}
    {
      if nFree > 0 {
        assert LinkAt(mem[..], addr, blkSize, blocks, 0);
        var a := freeList.a;
        freeList := mem[a];
        nFree := nFree - 1;
        PopLinked(mem[..], addr, blkSize, blocks);
        assert blocks == [blocks[0]] + blocks[1..];
        blocks := blocks[1..];
        return Some(a);
      }
      return None;
    }

    // The caller must return a block that is outstanding, which is not checked.
    method Put(a: nat, ghost k: nat) returns (full: bool)
      requires Valid() && (nFree < nBlks ==> k in Outstanding() && a == BlockAt(addr, blkSize, k))
      modifies this`freeList, this`nFree, this`blocks, mem
      ensures Valid() && full == (old(nFree) >= nBlks)
      ensures blocks == if full then old(blocks) else [k] + old(blocks)
      ensures Outstanding() == if full then old(Outstanding()) else old(Outstanding()) - {k}
      ensures forall x :: 0 <= x < mem.Length && (full || x != a) ==> mem[x] == old(mem[x])
    {
      if nFree >= nBlks {
        return true;
      }
      BlockFits(addr, blkSize, nBlks, k);
      OthersElsewhere(addr, blkSize, blocks, k, a);
      WriteElsewhere(mem[..], addr, blkSize, blocks, a, freeList);
      mem[a] := freeList;
      assert mem[..] == old(mem[..])[a := freeList];
      freeList := Addr(a);
      nFree := nFree + 1;
      PushLinked(mem[..], addr, blkSize, blocks, k);
      blocks := [k] + blocks;
      return false;
    }

    // What a client writes into a block it owns does no harm to the list.
    method ClientWrite(a: nat, w: Word, ghost k: nat)
      requires Valid() && k in Outstanding() && InBlock(addr, blkSize, k, a)
      modifies mem
      ensures Valid() && a < mem.Length && mem[..] == old(mem[..])[a := w]
    {
      BlockFits(addr, blkSize, nBlks, k);
      OthersElsewhere(addr, blkSize, blocks, k, a);
      WriteElsewhere(mem[..], addr, blkSize, blocks, a, w);
      mem[a] := w;
      assert mem[..] == old(mem[..])[a := w];
    }
  }

  lemma Earlier(addr: nat, size: nat, i: nat)
    requires size > 0
    ensures forall k :: 0 <= k < i ==> BlockAt(addr, size, k) < BlockAt(addr, size, i)
    ensures BlockAt(addr, size, i + 1) == BlockAt(addr, size, i) + size
  {
    forall k | 0 <= k < i
      ensures BlockAt(addr, size, k) < BlockAt(addr, size, i)
    {
      Spread(size, k, i);
    }
  }

  lemma OthersElsewhere(addr: nat, size: nat, q: seq<nat>, k: nat, a: nat)
    requires k !in q && InBlock(addr, size, k, a) && size > 0
    ensures forall i :: 0 <= i < |q| ==> BlockAt(addr, size, q[i]) != a
  {
    forall i | 0 <= i < |q|
      ensures BlockAt(addr, size, q[i]) != a
    {
      if BlockAt(addr, size, q[i]) == a {
        BlocksApart(addr, size, q[i], k, a);
      }
    }
  }

  lemma PopLinked(mem: seq<Word>, addr: nat, size: nat, q: seq<nat>)
    requires FreeLinked(mem, addr, size, q) && NoDup(q) && q != []
    ensures FreeLinked(mem, addr, size, q[1..]) && NoDup(q[1..])
  {
    var q' := q[1..];
    forall i | 0 <= i < |q'|
      ensures LinkAt(mem, addr, size, q', i)
    {
      assert LinkAt(mem, addr, size, q, i + 1);
    }
  }

  lemma PushLinked(mem: seq<Word>, addr: nat, size: nat, q: seq<nat>, k: nat)
    requires FreeLinked(mem, addr, size, q) && NoDup(q) && k !in q
    requires BlockAt(addr, size, k) < |mem| && mem[BlockAt(addr, size, k)] == PtrTo(addr, size, At(q, 0))
    ensures FreeLinked(mem, addr, size, [k] + q) && NoDup([k] + q)
  {
    var q' := [k] + q;
    forall i | 0 <= i < |q'|
      ensures LinkAt(mem, addr, size, q', i)
    {
      if i > 0 {
        assert LinkAt(mem, addr, size, q, i - 1);
      }
    }
  }
}
