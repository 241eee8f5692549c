/** Two-level priority bitmaps: the form shared by the ready list and by every event's wait list.
    Row `y` of the table holds priorities 8*y .. 8*y+7, and bit `y` of the group byte says that row `y` is not empty.
    The last part of the module is the variant compiled when there are more than 64 priorities. */
module PrioBitmap {
  import opened PrioSets

  // ---------- bits of one byte ----------

  function Bit(i: nat): bv8
    requires i < 8
  {
    (1 as bv8) << i
  }

  predicate Has(b: bv8, i: nat)
    requires i < 8
  {
    b & Bit(i) != 0
  }

  lemma BitValue(i: nat)
    requires i < 8
    ensures Bit(i) == if i == 0 then 1 else if i == 1 then 2 else if i == 2 then 4 else if i == 3 then 8
                      else if i == 4 then 16 else if i == 5 then 32 else if i == 6 then 64 else 128
  {
  }

  lemma DistinctBits(i: nat, j: nat)
    requires i < 8 && j < 8
    ensures Bit(i) & Bit(j) != 0 <==> i == j
  {
    BitValue(i);
    BitValue(j);
  }

  lemma OrBit(b: bv8, i: nat, j: nat)
    requires i < 8 && j < 8
    ensures Has(b | Bit(i), j) <==> Has(b, j) || i == j
  {
    DistinctBits(i, j);
    OrThenAnd(b, Bit(i), Bit(j));
  }

  lemma OrThenAnd(b: bv8, x: bv8, y: bv8)
    ensures (b | x) & y != 0 <==> b & y != 0 || x & y != 0
  {
  }

  lemma AndNotBit(b: bv8, i: nat, j: nat)
    requires i < 8 && j < 8
    ensures Has(b & !Bit(i), j) <==> Has(b, j) && i != j
  {
    BitValue(i);
    BitValue(j);
  }

  lemma ZeroByte(b: bv8)
    ensures b == 0 <==> forall j :: 0 <= j < 8 ==> !Has(b, j)
  {
    assert b != 0 ==> Has(b, 0) || Has(b, 1) || Has(b, 2) || Has(b, 3) || Has(b, 4) || Has(b, 5) || Has(b, 6) || Has(b, 7);
  }

  // ---------- the table-driven search for the lowest set bit ----------

  // The constant table, in the rows of sixteen entries in which it is written.
  const UNMAP: seq<seq<nat>> := [
    [0, 0, 1, 0, 2, 0, 1, 0, 3, 0, 1, 0, 2, 0, 1, 0],
    [4, 0, 1, 0, 2, 0, 1, 0, 3, 0, 1, 0, 2, 0, 1, 0],
    [5, 0, 1, 0, 2, 0, 1, 0, 3, 0, 1, 0, 2, 0, 1, 0],
    [4, 0, 1, 0, 2, 0, 1, 0, 3, 0, 1, 0, 2, 0, 1, 0],
    [6, 0, 1, 0, 2, 0, 1, 0, 3, 0, 1, 0, 2, 0, 1, 0],
    [4, 0, 1, 0, 2, 0, 1, 0, 3, 0, 1, 0, 2, 0, 1, 0],
    [5, 0, 1, 0, 2, 0, 1, 0, 3, 0, 1, 0, 2, 0, 1, 0],
    [4, 0, 1, 0, 2, 0, 1, 0, 3, 0, 1, 0, 2, 0, 1, 0],
    [7, 0, 1, 0, 2, 0, 1, 0, 3, 0, 1, 0, 2, 0, 1, 0],
    [4, 0, 1, 0, 2, 0, 1, 0, 3, 0, 1, 0, 2, 0, 1, 0],
    [5, 0, 1, 0, 2, 0, 1, 0, 3, 0, 1, 0, 2, 0, 1, 0],
    [4, 0, 1, 0, 2, 0, 1, 0, 3, 0, 1, 0, 2, 0, 1, 0],
    [6, 0, 1, 0, 2, 0, 1, 0, 3, 0, 1, 0, 2, 0, 1, 0],
    [4, 0, 1, 0, 2, 0, 1, 0, 3, 0, 1, 0, 2, 0, 1, 0],
    [5, 0, 1, 0, 2, 0, 1, 0, 3, 0, 1, 0, 2, 0, 1, 0],
    [4, 0, 1, 0, 2, 0, 1, 0, 3, 0, 1, 0, 2, 0, 1, 0]
  ]

  lemma RowLength(r: nat)
    requires r < 16
    ensures |UNMAP[r]| == 16
  {
  }

  function Hi(b: bv8): (n: nat)
    ensures n < 16
  {
    (b >> 4) as nat
  }

  function Lo(b: bv8): (n: nat)
    ensures n < 16
  {
    (b & 0xF) as nat
  }

  // The entry at index `b` of the 256-entry table.
  function UnMap(b: bv8): nat {
    RowLength(Hi(b));
    UNMAP[Hi(b)][Lo(b)]
  }

  predicate IsLowestBit(b: bv8, x: nat) {
    x < 8 && Has(b, x) && forall j :: 0 <= j < x ==> !Has(b, j)
  }

  function LowestOfNibble(c: nat): nat {
    if c % 2 == 1 then 0 else if c % 4 == 2 then 1 else if c % 8 == 4 then 2 else 3
  }

  lemma TableEntry(r: nat, c: nat)
    requires r < 16 && c < 16
    ensures |UNMAP[r]| == 16
    ensures c != 0 ==> UNMAP[r][c] == LowestOfNibble(c)
  {
    RowLength(r);
  }

  lemma TableEntryColumn0(r: nat)
    requires r < 16
    ensures |UNMAP[r]| == 16
    ensures r != 0 ==> UNMAP[r][0] == 4 + LowestOfNibble(r)
  {
    RowLength(r);
  }

  lemma NibbleBits(b: bv8)
    ensures Lo(b) % 2 == 1 <==> Has(b, 0)
    ensures Lo(b) % 4 == 2 <==> Has(b, 1) && !Has(b, 0)
    ensures Lo(b) % 8 == 4 <==> Has(b, 2) && !Has(b, 1) && !Has(b, 0)
    ensures Lo(b) == 8 <==> Has(b, 3) && !Has(b, 2) && !Has(b, 1) && !Has(b, 0)
    ensures Lo(b) == 0 <==> !Has(b, 3) && !Has(b, 2) && !Has(b, 1) && !Has(b, 0)
  {
  }

  lemma HighNibbleBits(b: bv8, i: nat)
    requires i < 4
    ensures Hi(b) == Lo(b >> 4)
    ensures Has(b >> 4, i) <==> Has(b, i + 4)
  {
    BitValue(i);
    BitValue(i + 4);
  }

  lemma UnMapIsLowest(b: bv8)
    requires b != 0
    ensures IsLowestBit(b, UnMap(b))
  {
    NibbleBits(b);
    if Lo(b) != 0 {
      TableEntry(Hi(b), Lo(b));
    } else {
      HighNibbleBits(b, 0);
      HighNibbleBits(b, 1);
      HighNibbleBits(b, 2);
      HighNibbleBits(b, 3);
      NibbleBits(b >> 4);
      TableEntryColumn0(Hi(b));
      ZeroByte(b);
    }
  }

  // ---------- two-level tables ----------

  ghost function Bits(b: bv8): set<nat> {
    set i: nat | i < 8 && Has(b, i)
  }

  ghost function RowBits(tbl: seq<bv8>): seq<set<nat>> {
    seq(|tbl|, y requires 0 <= y < |tbl| => Bits(tbl[y]))
  }

  // The same structure over sets of bit numbers.
  ghost predicate TwoLevel(grp: set<nat>, rows: seq<set<nat>>, s: set<nat>) {
    && |rows| == 8
    && (forall y :: y in grp ==> y < 8)
    && (forall p :: p in s ==> p < 64)
    && (forall y: nat, x: nat :: y < 8 ==> (x in rows[y] <==> x < 8 && 8 * y + x in s))
    && (forall y :: 0 <= y < 8 ==> (y in grp <==> rows[y] != {}))
  }

  ghost predicate Represents(grp: bv8, tbl: seq<bv8>, s: set<nat>) {
    TwoLevel(Bits(grp), RowBits(tbl), s)
  }

  lemma BitsOfZero(b: bv8)
    ensures b == 0 <==> Bits(b) == {}
  {
    ZeroByte(b);
    if b != 0 {
      var i :| 0 <= i < 8 && Has(b, i);
      assert i in Bits(b);
    }
  }

  lemma BitsAfterOr(b: bv8, i: nat)
    requires i < 8
    ensures Bits(b | Bit(i)) == Bits(b) + {i}
  {
    forall j: nat | j < 8
      ensures Has(b | Bit(i), j) <==> Has(b, j) || i == j
    {
      OrBit(b, i, j);
    }
  }

  lemma BitsAfterAndNot(b: bv8, i: nat)
    requires i < 8
    ensures Bits(b & !Bit(i)) == Bits(b) - {i}
  {
    forall j: nat | j < 8
      ensures Has(b & !Bit(i), j) <==> Has(b, j) && i != j
    {
      AndNotBit(b, i, j);
    }
  }

  lemma RowUpdate(tbl: seq<bv8>, r: nat, row: bv8)
    requires r < |tbl|
    ensures RowBits(tbl[r := row]) == RowBits(tbl)[r := Bits(row)]
  {
  }

  lemma TwoLevelInsert(grp: set<nat>, rows: seq<set<nat>>, s: set<nat>, r: nat, c: nat)
    requires TwoLevel(grp, rows, s) && r < 8 && c < 8
    ensures TwoLevel(grp + {r}, rows[r := rows[r] + {c}], s + {8 * r + c})
  {
    var rows' := rows[r := rows[r] + {c}];
    forall y: nat, x: nat | y < 8
      ensures x in rows'[y] <==> x < 8 && 8 * y + x in s + {8 * r + c}
    {
      assert x in rows[y] <==> x < 8 && 8 * y + x in s;
    }
    assert c in rows'[r];
  }

  lemma TwoLevelRemove(grp: set<nat>, rows: seq<set<nat>>, s: set<nat>, r: nat, c: nat)
    requires TwoLevel(grp, rows, s) && r < 8 && c < 8
    ensures var row := rows[r] - {c};
            TwoLevel(if row == {} then grp - {r} else grp, rows[r := row], s - {8 * r + c})
  {
  }

  // Insertion of priority 8*r+c: grp |= BitY, tbl[Y] |= BitX.
  lemma InsertAt(grp: bv8, tbl: seq<bv8>, s: set<nat>, r: nat, c: nat)
    requires |tbl| == 8 && Represents(grp, tbl, s) && r < 8 && c < 8
    ensures Represents(grp | Bit(r), tbl[r := tbl[r] | Bit(c)], s + {8 * r + c})
  {
    BitsAfterOr(grp, r);
    BitsAfterOr(tbl[r], c);
    RowUpdate(tbl, r, tbl[r] | Bit(c));
    TwoLevelInsert(Bits(grp), RowBits(tbl), s, r, c);
  }

  // Removal of priority 8*r+c: tbl[Y] &= ~BitX, and the group bit is cleared when the row became empty.
  lemma RemoveAt(grp: bv8, tbl: seq<bv8>, s: set<nat>, r: nat, c: nat, row: bv8, grp': bv8)
    requires |tbl| == 8 && Represents(grp, tbl, s) && r < 8 && c < 8
    requires row == tbl[r] & !Bit(c)
    requires grp' == if row == 0 then grp & !Bit(r) else grp
    ensures Represents(grp', tbl[r := row], s - {8 * r + c})
  {
    BitsAfterAndNot(grp, r);
    BitsAfterAndNot(tbl[r], c);
    BitsOfZero(row);
    RowUpdate(tbl, r, row);
    TwoLevelRemove(Bits(grp), RowBits(tbl), s, r, c);
  }

  lemma EmptyGroup(grp: bv8, tbl: seq<bv8>, s: set<nat>)
    requires Represents(grp, tbl, s)
    ensures grp == 0 <==> s == {}
  {
    BitsOfZero(grp);
    TwoLevelEmpty(Bits(grp), RowBits(tbl), s);
  }

  lemma TwoLevelEmpty(grp: set<nat>, rows: seq<set<nat>>, s: set<nat>)
    requires TwoLevel(grp, rows, s)
    ensures grp == {} <==> s == {}
  {
    if s != {} {
      var p :| p in s;
      assert p % 8 in rows[p / 8];
    }
    if grp != {} {
      var y :| y in grp;
      var x :| x in rows[y];
      assert 8 * y + x in s;
    }
  }

  // The kernel's lookup: y := UnMap[grp], then (y << 3) + UnMap[tbl[y]].
  function Lookup(grp: bv8, tbl: seq<bv8>): nat
    requires |tbl| == 8 && UnMap(grp) < 8
  {
    8 * UnMap(grp) + UnMap(tbl[UnMap(grp)])
  }

  lemma LowestBitIsLeast(b: bv8)
    requires b != 0
    ensures IsLeast(Bits(b), UnMap(b)) && UnMap(b) < 8
  {
    UnMapIsLowest(b);
  }

  lemma TwoLevelLeast(grp: set<nat>, rows: seq<set<nat>>, s: set<nat>, y: nat, x: nat)
    requires TwoLevel(grp, rows, s) && IsLeast(grp, y) && IsLeast(rows[y], x)
    ensures IsLeast(s, 8 * y + x)
  {
    forall p | p in s
      ensures 8 * y + x <= p
    {
      assert p % 8 in rows[p / 8];
    }
  }

  lemma LookupIsLeast(grp: bv8, tbl: seq<bv8>, s: set<nat>)
    requires |tbl| == 8 && Represents(grp, tbl, s) && s != {}
    ensures UnMap(grp) < 8
    ensures IsLeast(s, Lookup(grp, tbl)) && Lookup(grp, tbl) == Least(s)
    ensures Lookup(grp, tbl) / 8 == UnMap(grp)
  {
    EmptyGroup(grp, tbl, s);
    LowestBitIsLeast(grp);
    var y := UnMap(grp);
    BitsOfZero(tbl[y]);
    assert RowBits(tbl)[y] != {};
    LowestBitIsLeast(tbl[y]);
    TwoLevelLeast(Bits(grp), RowBits(tbl), s, y, UnMap(tbl[y]));
  }

  // Priority <-> (row, column): the cached coordinates determine the priority and conversely.
  lemma CoordinatesAreABijection(p: nat, q: nat)
    requires p < 64 && q < 64
    ensures Bit(p / 8) == Bit(q / 8) && Bit(p % 8) == Bit(q % 8) <==> p == q
  {
    DistinctBits(p / 8, q / 8);
    DistinctBits(p % 8, q % 8);
    DistinctBits(p / 8, p / 8);
    DistinctBits(p % 8, p % 8);
  }

  // ---------- more than 64 priorities: sixteen rows of sixteen bits ----------

  function Bit16(i: nat): bv16
    requires i < 16
  {
    (1 as bv16) << i
  }

  predicate Has16(b: bv16, i: nat)
    requires i < 16
  {
    b & Bit16(i) != 0
  }

  function LowByte(b: bv16): bv8 {
    (b & 0xFF) as bv8
  }

  function HighByte(b: bv16): bv8 {
    ((b >> 8) & 0xFF) as bv8
  }

  // Lowest set bit of a 16-bit word with the 256-entry table: low byte first, then high byte plus eight.
  function UnMap16(b: bv16): nat {
    if b & 0xFF != 0 then UnMap(LowByte(b)) else UnMap(HighByte(b)) + 8
  }

  lemma LowByteBits(b: bv16, i: nat)
    requires i < 8
    ensures Has16(b, i) <==> Has(LowByte(b), i)
  {
    BitValue(i);
    assert Bit16(i) == if i == 0 then 1 else if i == 1 then 2 else if i == 2 then 4 else if i == 3 then 8
                       else if i == 4 then 16 else if i == 5 then 32 else if i == 6 then 64 else 128;
  }

  lemma HighByteBits(b: bv16, i: nat)
    requires i < 8
    ensures Has16(b, i + 8) <==> Has(HighByte(b), i)
  {
    BitValue(i);
    assert Bit16(i + 8) == if i == 0 then 0x100 else if i == 1 then 0x200 else if i == 2 then 0x400 else if i == 3 then 0x800
                           else if i == 4 then 0x1000 else if i == 5 then 0x2000 else if i == 6 then 0x4000 else 0x8000;
  }

  lemma ZeroWord(b: bv16)
    ensures b == 0 <==> LowByte(b) == 0 && HighByte(b) == 0
    ensures b & 0xFF == 0 <==> LowByte(b) == 0
  {
  }

  lemma UnMap16IsLowest(b: bv16)
    requires b != 0
    ensures UnMap16(b) < 16 && Has16(b, UnMap16(b)) && forall j :: 0 <= j < UnMap16(b) ==> !Has16(b, j)
  {
    ZeroWord(b);
    forall j | 0 <= j < 8
      ensures (Has16(b, j) <==> Has(LowByte(b), j)) && (Has16(b, j + 8) <==> Has(HighByte(b), j))
    {
      LowByteBits(b, j);
      HighByteBits(b, j);
    }
    if b & 0xFF != 0 {
      UnMapIsLowest(LowByte(b));
    } else {
      UnMapIsLowest(HighByte(b));
      ZeroByte(LowByte(b));
      forall j | 0 <= j < UnMap16(b)
        ensures !Has16(b, j)
      {
        if j >= 8 {
          HighByteBits(b, j - 8);
        }
      }
    }
  }

  ghost function Bits16(b: bv16): set<nat> {
    set i: nat | i < 16 && Has16(b, i)
  }

  ghost function RowBits16(tbl: seq<bv16>): seq<set<nat>> {
    seq(|tbl|, y requires 0 <= y < |tbl| => Bits16(tbl[y]))
  }

  ghost predicate TwoLevel16(grp: set<nat>, rows: seq<set<nat>>, s: set<nat>) {
    && |rows| == 16
    && (forall y :: y in grp ==> y < 16)
    && (forall p :: p in s ==> p < 256)
    && (forall y: nat, x: nat :: y < 16 ==> (x in rows[y] <==> x < 16 && 16 * y + x in s))
    && (forall y :: 0 <= y < 16 ==> (y in grp <==> rows[y] != {}))
  }

  ghost predicate Represents16(grp: bv16, tbl: seq<bv16>, s: set<nat>) {
    TwoLevel16(Bits16(grp), RowBits16(tbl), s)
  }

  lemma LowestBit16IsLeast(b: bv16)
    requires Bits16(b) != {}
    ensures IsLeast(Bits16(b), UnMap16(b)) && UnMap16(b) < 16
  {
    var i :| i in Bits16(b);
    NonzeroWord(b, i);
    UnMap16IsLowest(b);
  }

  lemma NonzeroWord(b: bv16, j: nat)
    requires j < 16 && Has16(b, j)
    ensures b != 0
  {
  }

  lemma TwoLevelLeast16(grp: set<nat>, rows: seq<set<nat>>, s: set<nat>, y: nat, x: nat)
    requires TwoLevel16(grp, rows, s) && IsLeast(grp, y) && IsLeast(rows[y], x)
    ensures IsLeast(s, 16 * y + x)
  {
    forall p | p in s
      ensures 16 * y + x <= p
    {
      assert p % 16 in rows[p / 16];
    }
  }

  lemma NonemptyGroup16(grp: set<nat>, rows: seq<set<nat>>, s: set<nat>)
    requires TwoLevel16(grp, rows, s) && s != {}
    ensures grp != {}
  {
    var p :| p in s;
    assert p % 16 in rows[p / 16];
  }

  lemma Lookup16IsLeast(grp: bv16, tbl: seq<bv16>, s: set<nat>)
    requires |tbl| == 16 && Represents16(grp, tbl, s) && s != {}
    ensures UnMap16(grp) < 16 && IsLeast(s, 16 * UnMap16(grp) + UnMap16(tbl[UnMap16(grp)]))
  {
    NonemptyGroup16(Bits16(grp), RowBits16(tbl), s);
    LowestBit16IsLeast(grp);
    var y := UnMap16(grp);
    assert RowBits16(tbl)[y] != {};
    LowestBit16IsLeast(tbl[y]);
    TwoLevelLeast16(Bits16(grp), RowBits16(tbl), s, y, UnMap16(tbl[y]));
  }
}
