// The append-only variable table in flash (FLASH/flashstore.c), within one block: entries of a size
// byte, an identifier byte and two data bytes, then erased memory. A new value is appended; the order
// in which its bytes are programmed makes the update atomic under a power failure at any byte.

module FlashTable {
  newtype Byte = b: int | 0 <= b < 256

  const ERASED: Byte := 0xff
  const RETIRED: Byte := 0
  const SIZE: nat := 2             // ELEMENT_SIZE_CONST
  const WIDTH: nat := 4            // an entry: size, identifier and data
  const BLOCK_SIZE: nat := 2048    // BLOCK_SIZE_CONST, with the status byte

  /** Offsets count from the first byte after the status byte, as block_base does. */
  const TABLE_END: nat := BLOCK_SIZE - 1    // the first offset outside the block
  /** Where next_block_top points to: one further after a restart, which counts from block_base when that
      is past the status byte; not after a compaction, which counts before it is. */
  predicate IsTop(top: nat) {
    top == TABLE_END + 1 || top == TABLE_END
  }

  /** flash_table_full: no entry may be started at this offset. */
  predicate Full(ptr: nat, top: nat) {
    ptr + (SIZE + 2) >= top
  }

  /** The block has room for another entry behind the first k. */
  predicate Fits(k: nat) {
    WIDTH * (k + 1) <= TABLE_END
  }

  /** Identifiers are stored plus one; 0 marks a retired and 0xff an unfinished entry, so that the
      identifiers 0 to 253 can be used. */
  type Id = i: nat | i < 254

  function IdByte(id: Id): (b: Byte)
    ensures b != RETIRED && b != ERASED
  {
    (id + 1) as Byte
  }

  /** The memory holds k entries and is erased from there on. */
  ghost predicate Table(mem: seq<Byte>, k: nat) {
    && |mem| == TABLE_END && WIDTH * k + 2 <= TABLE_END
    && (forall i | 0 <= i < k :: mem[WIDTH * i] == SIZE as Byte)
    && (forall a | WIDTH * k <= a < |mem| :: mem[a] == ERASED)
  }

  /** The last of the first k entries with identifier byte b, or -1. */
  function LastMatch(mem: seq<Byte>, k: nat, b: Byte): (i: int)
    requires WIDTH * k <= |mem|
    ensures -1 <= i < k
    ensures i >= 0 ==> mem[WIDTH * i + 1] == b
    ensures forall j | i < j < k :: mem[WIDTH * j + 1] != b
  {
    if k == 0 then -1
    else if mem[WIDTH * (k - 1) + 1] == b then k - 1
    else LastMatch(mem, k - 1, b)
  }

  datatype Value = Absent | Stored(hi: Byte, lo: Byte)

  /** What the table says about a variable: the data of its last entry. */
  function Lookup(mem: seq<Byte>, k: nat, id: Id): Value
    requires WIDTH * k <= |mem|
  {
    var i := LastMatch(mem, k, IdByte(id));
    if i < 0 then Absent else Stored(mem[WIDTH * i + 2], mem[WIDTH * i + 3])
  }

  ghost predicate SameValues(mem: seq<Byte>, k: nat, mem1: seq<Byte>, k1: nat)
    requires WIDTH * k <= |mem| && WIDTH * k1 <= |mem1|
  {
    forall id: Id :: Lookup(mem1, k1, id) == Lookup(mem, k, id)
  }

  ghost predicate SameOthers(mem: seq<Byte>, k: nat, mem1: seq<Byte>, k1: nat, id: Id)
    requires WIDTH * k <= |mem| && WIDTH * k1 <= |mem1|
  {
    forall x: Id | x != id :: Lookup(mem1, k1, x) == Lookup(mem, k, x)
  }

  // ----- one programmed byte -----------------------------------------------------------------------

  /** The match is determined by the identifier bytes. */
  lemma LastMatchIs(mem: seq<Byte>, k: nat, b: Byte, i: int)
    requires WIDTH * k <= |mem| && -1 <= i < k
    requires i >= 0 ==> mem[WIDTH * i + 1] == b
    requires forall j | i < j < k :: mem[WIDTH * j + 1] != b
    ensures LastMatch(mem, k, b) == i
  {}

  /** The size byte makes an entry that is still nobody's. */
  lemma ProgramSize(mem: seq<Byte>, k: nat)
    requires Table(mem, k) && Fits(k)
    ensures var mem1 := mem[WIDTH * k := SIZE as Byte];
            Table(mem1, k + 1) && SameValues(mem, k, mem1, k + 1)
  {
    var mem1 := mem[WIDTH * k := SIZE as Byte];
    var n := k + 1;
    forall id: Id
      ensures Lookup(mem1, n, id) == Lookup(mem, k, id)
    {
      LastMatchIs(mem1, n, IdByte(id), LastMatch(mem, k, IdByte(id)));
    }
  }

  /** Data bytes of an unfinished entry are nobody's either. */
  lemma ProgramData(mem: seq<Byte>, k: nat, a: nat, v: Byte)
    requires Table(mem, k + 1) && mem[WIDTH * k + 1] == ERASED && a in {WIDTH * k + 2, WIDTH * k + 3}
    ensures var mem1 := mem[a := v];
            Table(mem1, k + 1) && SameValues(mem, k + 1, mem1, k + 1)
  {
    var mem1 := mem[a := v];
    var n := k + 1;
    forall id: Id
      ensures Lookup(mem1, n, id) == Lookup(mem, n, id)
    {
      LastMatchIs(mem1, n, IdByte(id), LastMatch(mem, n, IdByte(id)));
    }
  }

  /** The identifier byte makes the new value count, in one go. */
  lemma ProgramId(mem: seq<Byte>, k: nat, id: Id)
    requires Table(mem, k + 1) && mem[WIDTH * k + 1] == ERASED
    ensures var mem1 := mem[WIDTH * k + 1 := IdByte(id)];
            && Table(mem1, k + 1)
            && Lookup(mem1, k + 1, id) == Stored(mem[WIDTH * k + 2], mem[WIDTH * k + 3])
            && SameOthers(mem, k + 1, mem1, k + 1, id)
  {
    var mem1 := mem[WIDTH * k + 1 := IdByte(id)];
    var n := k + 1;
    LastMatchIs(mem1, n, IdByte(id), k);
    forall x: Id | x != id
      ensures Lookup(mem1, n, x) == Lookup(mem, n, x)
    {
      LastMatchIs(mem1, n, IdByte(x), LastMatch(mem, n, IdByte(x)));
    }
  }

  /** Retiring an entry that is not the last of its identifier changes no value. */
  lemma Retire(mem: seq<Byte>, k: nat, i: nat)
    requires Table(mem, k) && i < k && i != LastMatch(mem, k, mem[WIDTH * i + 1])
    ensures var mem1 := mem[WIDTH * i + 1 := RETIRED];
            Table(mem1, k) && SameValues(mem, k, mem1, k)
  {
    var mem1 := mem[WIDTH * i + 1 := RETIRED];
    forall id: Id
      ensures Lookup(mem1, k, id) == Lookup(mem, k, id)
    {
      LastMatchIs(mem1, k, IdByte(id), LastMatch(mem, k, IdByte(id)));
    }
  }

  /** The test of flash_table_full is exactly that an entry still fits into the block, behind any number of
      entries and whichever way the bound was computed; the test that flash_write_no_recovery makes itself
      lets offsets through at which an entry would end one byte outside, or two after a restart. */
  lemma FullExactly(k: nat, ptr: nat, top: nat)
    requires IsTop(top)
    ensures !Full(WIDTH * k, top) <==> Fits(k)
    ensures top == TABLE_END + 1 ==> (!Full(ptr, top) <==> ptr + WIDTH <= TABLE_END)
    ensures ptr <= top - (SIZE + 1) && Full(ptr, top) <==> ptr in {top - 4, top - 3}
  {}

  /** The table with a new entry behind the first k, as it is before the old one is retired. */
  function Appended(mem: seq<Byte>, k: nat, id: Id, hi: Byte, lo: Byte): (r: seq<Byte>)
    requires WIDTH * (k + 1) <= |mem|
  {
    mem[WIDTH * k := SIZE as Byte][WIDTH * k + 2 := hi][WIDTH * k + 3 := lo][WIDTH * k + 1 := IdByte(id)]
  }

  // ----- compaction --------------------------------------------------------------------------------

  predicate InUse(b: Byte) {
    b != RETIRED && b != ERASED
  }

  /** How many of the first k entries are in use. */
  function Live(mem: seq<Byte>, k: nat): (n: nat)
    requires WIDTH * k <= |mem|
    ensures n <= k
  {
    if k == 0 then 0 else Live(mem, k - 1) + if InUse(mem[WIDTH * (k - 1) + 1]) then 1 else 0
  }

  lemma SkipEntry(src: seq<Byte>, i: nat)
    requires WIDTH * (i + 1) <= |src| && !InUse(src[WIDTH * i + 1])
    ensures SameValues(src, i, src, i + 1) && Live(src, i + 1) == Live(src, i)
  {}

  /** An entry in use that is copied has the same effect on both tables. */
  lemma CopyEntry(src: seq<Byte>, i: nat, dst: seq<Byte>, d: nat, dst1: seq<Byte>)
    requires WIDTH * (i + 1) <= |src| && InUse(src[WIDTH * i + 1]) && src[WIDTH * i] == SIZE as Byte
    requires Table(dst, d) && WIDTH * (d + 1) + 2 <= TABLE_END && SameValues(src, i, dst, d)
    requires dst1 == dst[..WIDTH * d] + src[WIDTH * i..WIDTH * i + WIDTH] + dst[WIDTH * d + WIDTH..]
    ensures Table(dst1, d + 1) && SameValues(src, i + 1, dst1, d + 1)
  {
    CopiedBytes(src, i, dst, d, dst1);
    var n, m := d + 1, i + 1;
    hide Table;
    forall id: Id
      ensures Lookup(dst1, n, id) == Lookup(src, m, id)
    {
      var b := IdByte(id);
      assert Lookup(dst, d, id) == Lookup(src, i, id);
      LastMatchIs(dst1, n, b, if src[WIDTH * i + 1] == b then d else LastMatch(dst, d, b));
    }
  }

  lemma CopiedBytes(src: seq<Byte>, i: nat, dst: seq<Byte>, d: nat, dst1: seq<Byte>)
    requires WIDTH * (i + 1) <= |src| && src[WIDTH * i] == SIZE as Byte
    requires Table(dst, d) && WIDTH * (d + 1) + 2 <= TABLE_END
    requires dst1 == dst[..WIDTH * d] + src[WIDTH * i..WIDTH * i + WIDTH] + dst[WIDTH * d + WIDTH..]
    ensures Table(dst1, d + 1) && forall a | 0 <= a < WIDTH * d :: dst1[a] == dst[a]
    ensures dst1[WIDTH * d + 1] == src[WIDTH * i + 1]
    ensures dst1[WIDTH * d + 2] == src[WIDTH * i + 2] && dst1[WIDTH * d + 3] == src[WIDTH * i + 3]
  {
    assert dst1[WIDTH * d] == src[WIDTH * i];
  }

  // ----- the table in memory -------------------------------------------------------------------------

  /** What a power failure may leave of a write: a table in which the variable has its old or its new
      value and all others are as they were. */
  ghost predicate OldOrNew(mem: seq<Byte>, k: nat, mem1: seq<Byte>, id: Id, value: Value) {
    && Table(mem, k) && Table(mem1, k + 1)
    && SameOthers(mem, k, mem1, k + 1, id)
    && (Lookup(mem1, k + 1, id) == Lookup(mem, k, id) || Lookup(mem1, k + 1, id) == value)
  }

  /** The states that were added to the trail read as mem does. */
  ghost predicate Harmless(earlier: seq<seq<Byte>>, trail: seq<seq<Byte>>, mem: seq<Byte>, k: nat) {
    && |trail| >= |earlier| && trail[..|earlier|] == earlier
    && forall i | |earlier| <= i < |trail| :: Table(mem, k) && Table(trail[i], k) && SameValues(mem, k, trail[i], k)
  }

  class Store {
    var mem: array<Byte>            // the block in use, from block_base on
    var spare: array<Byte>          // the other block
    var ptr: nat                    // flash_ptr
    var top: nat                    // next_block_top
    ghost var entries: nat
    ghost var trail: seq<seq<Byte>> // the block after each programmed byte

    ghost predicate Valid()
      reads this, mem
    {
      Table(mem[..], entries) && ptr == WIDTH * entries && IsTop(top)
    }

    /** The variables, as they would be read. */
    ghost function Get(id: Id): Value
      requires Valid()
      reads this, mem
    {
      Lookup(mem[..], entries, id)
    }

    /** The end of flash_set_block: after a restart the table is scanned for its end. */
    method Mount(ghost k: nat)
      requires Table(mem[..], k)
      modifies this`ptr, this`top, this`entries
      ensures Valid() && entries == k && top == BLOCK_SIZE
    {
      top := BLOCK_SIZE;
      ptr := 0;
      entries := 0;
      while mem[ptr] != ERASED
        invariant entries <= k && ptr == WIDTH * entries && top == BLOCK_SIZE
        decreases k - entries
      {
        ptr := ptr + mem[ptr] as nat + 2;
        entries := entries + 1;
      }
      entries := k;
    }

    /** iap_program_data_byte on a byte that is erased or that is cleared altogether. */
    method Program(a: nat, v: Byte)
      requires a < mem.Length && (mem[a] == ERASED || v == 0)
      modifies mem, this`trail
      ensures mem[..] == old(mem[..])[a := v]
      ensures trail == old(trail) + [mem[..]]
    {
      mem[a] := v;
      trail := trail + [mem[..]];
    }

    /** The scan of flash_write_no_recovery: where the identifier byte of the first entry of the
        variable is, or -1. */
    method FindOldEntry(b: Byte) returns (oldEntryId: int)
      requires Valid() && b != ERASED
      ensures -1 <= oldEntryId < WIDTH * entries
      ensures oldEntryId >= 0 ==> oldEntryId % WIDTH == 1 && mem[oldEntryId] == b
      ensures oldEntryId < 0 ==> LastMatch(mem[..], entries, b) == -1
    {
      var scan := 0;
      ghost var i := 0;
      while mem[scan + 1] != b && mem[scan] != ERASED
        invariant i <= entries && scan == WIDTH * i
        invariant forall j | 0 <= j < i :: mem[WIDTH * j + 1] != b
        decreases entries - i
      {
        scan := scan + mem[scan] as nat + 2;
        i := i + 1;
      }
      oldEntryId := -1;
      if mem[scan + 1] == b {
        oldEntryId := scan + 1;
      }
    }

    /** The part of flash_write_no_recovery that appends: size, data, and the identifier last. */
    method ProgramNewEntry(id: Id, hi: Byte, lo: Byte)
      requires Valid() && !Full(ptr, top)
      modifies this`ptr, this`entries, this`trail, mem
      ensures Valid() && entries == old(entries) + 1
      ensures mem[..] == Appended(old(mem[..]), old(entries), id, hi, lo)
      ensures Get(id) == Stored(hi, lo) && SameOthers(old(mem[..]), old(entries), mem[..], entries, id)
      ensures mem[..WIDTH * old(entries)] == old(mem[..WIDTH * entries]) && mem[WIDTH * old(entries) + 1] == IdByte(id)
      ensures |trail| == |old(trail)| + 4 && trail[..|old(trail)|] == old(trail) && trail[|trail| - 1] == mem[..]
      ensures forall i | |old(trail)| <= i < |trail| ::
                OldOrNew(old(mem[..]), old(entries), trail[i], id, Stored(hi, lo))
    {
      hide SameValues, SameOthers, OldOrNew, Lookup, LastMatch;
      ghost var k := entries;
      ghost var m0 := mem[..];
      ProgramSize(m0, k);
      Program(ptr, SIZE as Byte);
      ghost var m1 := mem[..];
      entries := entries + 1;
      ptr := ptr + 2;
      ProgramData(m1, k, WIDTH * k + 2, hi);
      Program(ptr, hi);
      ghost var m2 := mem[..];
      ProgramData(m2, k, WIDTH * k + 3, lo);
      Program(ptr + 1, lo);
      ghost var m3 := mem[..];
      ptr := ptr + SIZE;
      ProgramId(m3, k, id);
      Program(ptr - (SIZE + 1), IdByte(id));
      Unchanged(m1, k + 1);
      Unfinished(m0, k, m1, m1, id, Stored(hi, lo));
      Unfinished(m0, k, m1, m2, id, Stored(hi, lo));
      Unfinished(m0, k, m2, m3, id, Stored(hi, lo));
      Finished(m0, k, m3, mem[..], id, Stored(hi, lo));
      assert trail == old(trail) + [m1, m2, m3, mem[..]];
    }

    /** flash_write_no_recovery. */
    method WriteNoRecovery(id: Id, hi: Byte, lo: Byte) returns (ok: bool)
      requires Valid() && !Full(ptr, top)
      modifies this`ptr, this`entries, this`trail, mem
      ensures ok && Valid() && entries == old(entries) + 1
      ensures Get(id) == Stored(hi, lo)
      ensures SameOthers(old(mem[..]), old(entries), mem[..], entries, id)
      ensures |trail| > |old(trail)| && trail[..|old(trail)|] == old(trail) && trail[|trail| - 1] == mem[..]
      ensures forall i | |old(trail)| <= i < |trail| ::
                OldOrNew(old(mem[..]), old(entries), trail[i], id, Stored(hi, lo))
      ensures Fits(old(entries)) && |trail| >= |old(trail)| + 4
              && trail[|old(trail)| + 3] == Appended(old(mem[..]), old(entries), id, hi, lo)
      ensures old(Unique(mem[..], entries)) ==> Unique(mem[..], entries)
    {
      hide SameValues, SameOthers, OldOrNew, Lookup, Table, Unique, LastMatch, Appended;
      if ptr > top - (SIZE + 1) {
        return false;
      }
      TableFits(mem[..], entries);
      var oldEntryId := FindOldEntry(IdByte(id));
      ProgramNewEntry(id, hi, lo);
      ghost var before, written := mem[..], trail;
      assert written[|old(trail)| + 3] == before;
      if oldEntryId >= 0 {
        RetireOld(old(mem[..]), old(entries), mem[..], oldEntryId, id, Stored(hi, lo));
        Program(oldEntryId, RETIRED);
      }
      if old(Unique(mem[..], entries)) {
        TableFits(mem[..], entries);
        ghost var f := if oldEntryId < 0 then -1 else (oldEntryId - 1) / WIDTH;
        forall i | 0 <= i < old(entries)
          ensures mem[..][WIDTH * i + 1] == if i == f then RETIRED else old(mem[..])[WIDTH * i + 1]
        {
          assert before[WIDTH * i + 1] == before[..WIDTH * old(entries)][WIDTH * i + 1];
        }
        UniqueKept(old(mem[..]), old(entries), mem[..], IdByte(id), f);
      }
      ok := true;
    }

    /** flash_read_int: the value of the last entry; entries it finds before that one are retired. */
    method ReadInt(id: Id) returns (found: bool, value: nat)
      requires Valid()
      modifies mem, this`trail
      ensures Valid() && entries == old(entries)
      ensures SameValues(old(mem[..]), entries, mem[..], entries)
      ensures found == old(Get(id)).Stored?
      ensures found ==> value == Word(old(Get(id)))
      ensures Harmless(old(trail), trail, old(mem[..]), entries)
      ensures forall j | 0 <= j < entries && mem[WIDTH * j + 1] == IdByte(id) ::
                j == LastMatch(mem[..], entries, IdByte(id))
    {
      var b := IdByte(id);
      var scan := 0;
      var p := -1;
      ghost var i := 0;
      ghost var last := -1;
      ghost var m0 := mem[..];
      Unchanged(m0, entries);
      hide SameValues, Lookup, LastMatch;
      while mem[scan] != ERASED && scan < top
        invariant i <= entries && scan == WIDTH * i && Valid() && entries == old(entries)
        invariant SameValues(m0, entries, mem[..], entries)
        invariant forall a | scan <= a < mem.Length :: mem[a] == m0[a]
        invariant -1 <= last < i && if last < 0 then p == -1 else p == WIDTH * last && mem[p + 1] == b
        invariant forall j | 0 <= j < i && j != last :: mem[WIDTH * j + 1] != b
        invariant Harmless(old(trail), trail, m0, entries)
        decreases entries - i
      {
        if mem[scan + 1] == b {
          if p >= 0 {
            RetireFound(m0, last, i, b, p, old(trail));
          }
          p := scan;
          last := i;
        }
        scan := scan + mem[scan] as nat + 2;
        i := i + 1;
      }
      LastMatchIs(mem[..], entries, b, last);
      SameLookup(m0, mem[..], entries, id, last);
      found := p >= 0;
      value := 0;
      if found {
        value := mem[p + 2] as nat;
        value := value * 256;
        value := value + mem[p + 3] as nat;
      }
    }

    /** The entry found before is retired, now that a later one is found. */
    method RetireFound(ghost m0: seq<Byte>, ghost last: nat, ghost i: nat, ghost b: Byte, p: nat,
                       ghost earlier: seq<seq<Byte>>)
      requires Valid() && Table(m0, entries) && SameValues(m0, entries, mem[..], entries)
      requires last < i < entries && mem[WIDTH * last + 1] == mem[WIDTH * i + 1] == b && p == WIDTH * last
      requires Harmless(earlier, trail, m0, entries)
      modifies mem, this`trail
      ensures Valid() && SameValues(m0, entries, mem[..], entries)
      ensures mem[..] == old(mem[..])[p + 1 := RETIRED] && Harmless(earlier, trail, m0, entries)
    {
      RetireEarlier(m0, mem[..], entries, last, i, b);
      Program(p + 1, RETIRED);
    }

    /** The copy loop of flash_garbage_collector into the erased spare block. */
    method CopyLive() returns (next: nat)
      requires Valid() && spare != mem && spare.Length == TABLE_END
      requires forall a | 0 <= a < spare.Length :: spare[a] == ERASED
      modifies spare
      ensures mem[..] == old(mem[..])
      ensures next == WIDTH * Live(mem[..], entries)
      ensures Table(spare[..], Live(mem[..], entries))
      ensures SameValues(mem[..], entries, spare[..], Live(mem[..], entries))
    {
      var scan := 0;
      next := 0;
      ghost var i := 0;
      ghost var m := mem[..];
      while mem[scan] != ERASED && scan < BLOCK_SIZE - 1
        invariant i <= entries && scan == WIDTH * i && next == WIDTH * Live(m, i) && mem[..] == m
        invariant Table(spare[..], Live(m, i)) && SameValues(m, i, spare[..], Live(m, i))
        decreases entries - i
      {
        if mem[scan + 1] != RETIRED && mem[scan + 1] != ERASED {
          next := CopyOne(scan, next, i, Live(m, i));
          scan := scan + WIDTH;
        } else {
          SkipEntry(m, i);
          SkipSame(m, i, spare[..], Live(m, i));
          scan := scan + mem[scan] as nat + 2;
        }
        i := i + 1;
      }
    }

    /** The copying of one entry, byte by byte. */
    method CopyOne(scan: nat, to: nat, ghost i: nat, ghost d: nat) returns (next: nat)
      requires Valid() && spare != mem && i < entries && scan == WIDTH * i && to == WIDTH * d && d <= i
      requires Table(spare[..], d) && SameValues(mem[..], i, spare[..], d) && InUse(mem[scan + 1])
      modifies spare
      ensures mem[..] == old(mem[..]) && next == WIDTH * (d + 1)
      ensures Table(spare[..], d + 1) && SameValues(mem[..], i + 1, spare[..], d + 1)
    {
      ghost var before := spare[..];
      var n := mem[scan] as nat;
      spare[to] := mem[scan];
      spare[to + 1] := mem[scan + 1];
      var b := 0;
      while b < n
        invariant b <= n && n == SIZE && mem[..] == old(mem[..])
        invariant spare[..] == before[..to] + mem[scan..scan + 2 + b] + before[to + 2 + b..]
      {
        spare[to + 2 + b] := mem[scan + 2 + b];
        b := b + 1;
      }
      next := to + 2 + n;
      CopyEntry(mem[..], i, before, d, spare[..]);
    }

    /** flash_write_int; a full table is compacted first, the spare block being erased by then. When
        the compacted table is full as well, flash_write_no_recovery would program past the end of the
        block; the model stops there, with the variables as they were. The new entry goes behind the k
        entries of the table `base`: the one before the call, or what compaction made of it. */
    method WriteInt(id: Id, value: nat) returns (ok: bool, overrun: bool, ghost base: seq<Byte>, ghost k: nat)
      requires Valid() && spare != mem && spare.Length == TABLE_END
      requires Full(ptr, top) ==> forall a | 0 <= a < spare.Length :: spare[a] == ERASED
      modifies this, mem, spare
      ensures Valid() && mem in {old(mem), old(spare)}
      ensures top == if old(Full(ptr, top)) then BLOCK_SIZE - 1 else old(top)
      ensures overrun <==> old(Full(ptr, top)) && !Fits(Live(old(mem[..]), old(entries)))
      ensures Table(base, k) && SameValues(old(mem[..]), old(entries), base, k)
      ensures if old(Full(ptr, top)) then k == Live(old(mem[..]), old(entries))
              else base == old(mem[..]) && k == old(entries)
      ensures |trail| >= |old(trail)| && trail[..|old(trail)|] == old(trail)
      ensures !overrun ==> |trail| > |old(trail)| && trail[|trail| - 1] == mem[..]
      ensures forall i | |old(trail)| <= i < |trail| :: OldOrNew(base, k, trail[i], id, ValueOf(value))
      ensures overrun ==> !ok && SameValues(old(mem[..]), old(entries), mem[..], entries)
      ensures !overrun ==> ok && Get(id).Stored? && Word(Get(id)) == value % 0x1_0000
      ensures !overrun ==> SameOthers(old(mem[..]), old(entries), mem[..], entries, id)
    {
      hide SameValues, SameOthers, OldOrNew, Table, Unique, LastMatch, Fits;
      var lower := (value % 256) as Byte;
      var upper := (value / 256 % 256) as Byte;
      ghost var m0 := mem[..];
      TableFits(m0, entries);
      Unchanged(m0, entries);
      if Full(ptr, top) {
        ptr := CopyLive();
        entries := Live(m0, entries);
        mem, spare, top := spare, mem, BLOCK_SIZE - 1;
        FullExactly(entries, ptr, top);
      }
      base, k := mem[..], entries;
      ok, overrun := false, Full(ptr, top);
      if !overrun {
        ok := WriteNoRecovery(id, upper, lower);
        TableFits(mem[..], entries);
        OthersAfter(m0, old(entries), base, k, mem[..], entries, id);
        SplitWord(value);
      }
    }

    /** A power failure during a write, a restart and a read: whichever of the states that the write
        goes through is left in flash, the variable written reads as its old or its new value, and any
        other reads as before. */
    method RestartAndRead(ghost before: seq<Byte>, ghost k: nat, ghost written: Id, ghost value: Value,
                          ghost states: seq<seq<Byte>>, x: Id)
      returns (found: bool, word: nat)
      requires forall m | m in states :: OldOrNew(before, k, m, written, value)
      requires mem[..] in states
      modifies this`ptr, this`top, this`entries, this`trail, mem
      ensures Valid() && entries == k + 1 && WIDTH * k <= |before|
      ensures x != written ==> Reads(found, word, Lookup(before, k, x))
      ensures x == written ==> Reads(found, word, Lookup(before, k, x)) || Reads(found, word, value)
      ensures forall y: Id | y != written :: Get(y) == Lookup(before, k, y)
    {
      hide Lookup, LastMatch, Table;
      TableFits(before, k);
      Mount(k + 1);
      found, word := ReadInt(x);
    }
  }

  /** What flash_read_int reports of a value. */
  ghost predicate Reads(found: bool, word: nat, v: Value) {
    found == v.Stored? && (v.Stored? ==> word == Word(v))
  }

  lemma SplitWord(value: nat)
    ensures value / 256 % 256 * 256 + value % 256 == value % 0x1_0000
  {}

  lemma OthersAfter(m0: seq<Byte>, k0: nat, m1: seq<Byte>, k1: nat, m2: seq<Byte>, k2: nat, id: Id)
    requires WIDTH * k0 <= |m0| && WIDTH * k1 <= |m1| && WIDTH * k2 <= |m2|
    requires SameValues(m0, k0, m1, k1) && SameOthers(m1, k1, m2, k2, id)
    ensures SameOthers(m0, k0, m2, k2, id)
  {}

  // ----- without power failures the collector always makes room -------------------------------------

  /** No two entries in use have the same identifier. */
  ghost predicate Unique(mem: seq<Byte>, k: nat)
    requires WIDTH * k <= |mem|
  {
    forall i | 0 <= i < k && InUse(mem[WIDTH * i + 1]) :: LastMatch(mem, k, mem[WIDTH * i + 1]) == i
  }

  /** A write that runs to its end, having retired the only entry f of its identifier if there was
      one, keeps identifiers unique. */
  lemma UniqueKept(m0: seq<Byte>, k: nat, m1: seq<Byte>, b: Byte, f: int)
    requires WIDTH * (k + 1) <= |m0| == |m1| && -1 <= f < k && InUse(b)
    requires if f < 0 then LastMatch(m0, k, b) == -1 else m0[WIDTH * f + 1] == b
    requires forall i | 0 <= i < k :: m1[WIDTH * i + 1] == if i == f then RETIRED else m0[WIDTH * i + 1]
    requires m1[WIDTH * k + 1] == b && Unique(m0, k)
    ensures Unique(m1, k + 1)
  {
    var n := k + 1;
    assert f >= 0 ==> LastMatch(m0, k, m0[WIDTH * f + 1]) == f;
    hide LastMatch;
    forall i | 0 <= i < n && InUse(m1[WIDTH * i + 1])
      ensures LastMatch(m1, n, m1[WIDTH * i + 1]) == i
    {
      var c := m1[WIDTH * i + 1];
      forall j | i < j < n
        ensures m1[WIDTH * j + 1] != c
      {
        NoLaterEntry(m0, k, m1, b, f, i, j);
      }
      LastMatchIs(m1, n, c, i);
    }
  }

  lemma NoLaterEntry(m0: seq<Byte>, k: nat, m1: seq<Byte>, b: Byte, f: int, i: nat, j: nat)
    requires WIDTH * (k + 1) <= |m0| == |m1| && -1 <= f < k && i < j <= k && InUse(m1[WIDTH * i + 1])
    requires if f < 0 then LastMatch(m0, k, b) == -1 else LastMatch(m0, k, b) == f
    requires forall i | 0 <= i < k :: m1[WIDTH * i + 1] == if i == f then RETIRED else m0[WIDTH * i + 1]
    requires m1[WIDTH * k + 1] == b && Unique(m0, k)
    ensures m1[WIDTH * j + 1] != m1[WIDTH * i + 1]
  {
    hide LastMatch;
    assert LastMatch(m0, k, m0[WIDTH * i + 1]) == i;
  }

  /** The identifier bytes in use among the first k entries. */
  function Used(mem: seq<Byte>, k: nat): set<Byte>
    requires WIDTH * k <= |mem|
  {
    if k == 0 then {}
    else Used(mem, k - 1) + if InUse(mem[WIDTH * (k - 1) + 1]) then {mem[WIDTH * (k - 1) + 1]} else {}
  }

  lemma {:induction false} UsedCounts(mem: seq<Byte>, k: nat, n: nat)
    requires WIDTH * n <= |mem| && k <= n && Unique(mem, n)
    ensures |Used(mem, k)| == Live(mem, k)
    ensures forall b | b in Used(mem, k) :: InUse(b) && LastMatch(mem, n, b) < k
    decreases k
  {
    hide LastMatch;
    if k > 0 {
      UsedCounts(mem, k - 1, n);
      var b := mem[WIDTH * (k - 1) + 1];
      if InUse(b) {
        assert LastMatch(mem, n, b) == k - 1;
        assert b !in Used(mem, k - 1);
      }
    }
  }

  /** With unique identifiers the entries in use are at most 254: after a collection the table is not full. */
  lemma CollectionMakesRoom(mem: seq<Byte>, k: nat)
    requires WIDTH * k <= |mem| && Unique(mem, k)
    ensures Live(mem, k) <= 254 && Fits(Live(mem, k))
  {
    UsedCounts(mem, k, k);
    BytesBelow(Used(mem, k), 254);
  }

  lemma {:induction false} UsedBelow(mem: seq<Byte>, k: nat)
    requires WIDTH * k <= |mem|
    ensures forall b | b in Used(mem, k) :: InUse(b)
  {
    if k > 0 {
      UsedBelow(mem, k - 1);
    }
  }

  /** A table can be full after a collection only if all its 511 entries are in use, so that at least
      257 of them are duplicates: entries that power failures kept from being retired. */
  lemma OverrunExactly(mem: seq<Byte>, k: nat)
    requires Table(mem, k)
    ensures !Fits(Live(mem, k)) <==> Live(mem, k) == 511
    ensures !Fits(Live(mem, k)) ==> Live(mem, k) - |Used(mem, k)| >= 257
  {
    UsedBelow(mem, k);
    BytesBelow(Used(mem, k), 254);
  }

  /** A write that loses power just before it retires the old entry adds a live entry, of an identifier that
      may be in use already. */
  lemma AppendedAddsLive(mem: seq<Byte>, k: nat, id: Id, hi: Byte, lo: Byte)
    requires Table(mem, k) && Fits(k)
    ensures var mem1 := Appended(mem, k, id, hi, lo);
            && Table(mem1, k + 1) && Live(mem1, k + 1) == Live(mem, k) + 1
            && Used(mem1, k + 1) == Used(mem, k) + {IdByte(id)}
  {
    var mem1 := Appended(mem, k, id, hi, lo);
    SameEntries(mem, mem1, k);
  }

  lemma {:induction false} SameEntries(mem: seq<Byte>, mem1: seq<Byte>, k: nat)
    requires WIDTH * k <= |mem| == |mem1| && forall a | 0 <= a < WIDTH * k :: mem1[a] == mem[a]
    ensures Live(mem1, k) == Live(mem, k) && Used(mem1, k) == Used(mem, k)
  {
    if k > 0 {
      SameEntries(mem, mem1, k - 1);
    }
  }

  /** An erased block after n writes of one variable that all lost power there. */
  function Interrupted(n: nat, id: Id, hi: Byte, lo: Byte): (mem: seq<Byte>)
    requires WIDTH * n <= TABLE_END
    ensures |mem| == TABLE_END
  {
    if n == 0 then seq(TABLE_END, a => ERASED) else Appended(Interrupted(n - 1, id, hi, lo), n - 1, id, hi, lo)
  }

  /** After 511 of them the table is full, and compaction copies all of it: the overrun can happen. */
  lemma {:induction false} InterruptedFills(n: nat, id: Id, hi: Byte, lo: Byte)
    requires n <= 511
    ensures var mem := Interrupted(n, id, hi, lo);
            && Table(mem, n) && Live(mem, n) == n && Used(mem, n) <= {IdByte(id)}
            && (Fits(n) <==> n < 511)
  {
    if n > 0 {
      InterruptedFills(n - 1, id, hi, lo);
      AppendedAddsLive(Interrupted(n - 1, id, hi, lo), n - 1, id, hi, lo);
    }
  }

  lemma {:induction false} BytesBelow(s: set<Byte>, n: nat)
    requires n < 256 && forall b | b in s :: 0 < b as int <= n
    ensures |s| <= n
  {
    if s != {} {
      BytesBelow(s - {n as Byte}, n - 1);
      assert n as Byte !in s ==> s - {n as Byte} == s;
    }
  }

  /** Entry p, if there is one, is what a lookup finds. */
  lemma SameLookup(m0: seq<Byte>, mem: seq<Byte>, k: nat, id: Id, p: int)
    requires Table(m0, k) && Table(mem, k) && SameValues(m0, k, mem, k)
    requires LastMatch(mem, k, IdByte(id)) == p
    ensures Lookup(m0, k, id) == if p < 0 then Absent else Stored(mem[WIDTH * p + 2], mem[WIDTH * p + 3])
  {
    assert Lookup(mem, k, id) == Lookup(m0, k, id);
  }

  /** How a number is stored. */
  function ValueOf(value: nat): Value {
    Stored((value / 256 % 256) as Byte, (value % 256) as Byte)
  }

  function Word(v: Value): nat
    requires v.Stored?
  {
    v.hi as nat * 256 + v.lo as nat
  }

  lemma RetireEarlier(m0: seq<Byte>, mem: seq<Byte>, k: nat, p: nat, i: nat, b: Byte)
    requires Table(m0, k) && Table(mem, k) && SameValues(m0, k, mem, k)
    requires p < i < k && mem[WIDTH * p + 1] == mem[WIDTH * i + 1] == b
    ensures var mem1 := mem[WIDTH * p + 1 := RETIRED];
            Table(mem1, k) && SameValues(m0, k, mem1, k)
  {
    Retire(mem, k, p);
    assert SameValues(mem, k, mem[WIDTH * p + 1 := RETIRED], k);
  }

  lemma SkipSame(src: seq<Byte>, i: nat, dst: seq<Byte>, d: nat)
    requires WIDTH * (i + 1) <= |src| && WIDTH * d <= |dst|
    requires SameValues(src, i, src, i + 1) && SameValues(src, i, dst, d)
    ensures SameValues(src, i + 1, dst, d)
  {}

  /** While the identifier byte is missing, what was read before is still read. */
  lemma Unfinished(mem: seq<Byte>, k: nat, mem1: seq<Byte>, mem2: seq<Byte>, id: Id, value: Value)
    requires Table(mem, k) && Table(mem1, k + 1) && Table(mem2, k + 1)
    requires SameValues(mem, k, mem1, k + 1) && SameValues(mem1, k + 1, mem2, k + 1)
    ensures OldOrNew(mem, k, mem2, id, value) && SameValues(mem, k, mem2, k + 1)
  {}

  lemma Unchanged(mem: seq<Byte>, k: nat)
    requires WIDTH * k <= |mem|
    ensures SameValues(mem, k, mem, k)
  {}

  lemma Finished(mem: seq<Byte>, k: nat, mem1: seq<Byte>, mem2: seq<Byte>, id: Id, value: Value)
    requires Table(mem, k) && Table(mem1, k + 1) && Table(mem2, k + 1)
    requires SameValues(mem, k, mem1, k + 1) && SameOthers(mem1, k + 1, mem2, k + 1, id)
             && Lookup(mem2, k + 1, id) == value
    ensures OldOrNew(mem, k, mem2, id, value) && SameOthers(mem, k, mem2, k + 1, id)
  {}

  /** Once the new entry counts, retiring the old one changes no value. */
  lemma RetireOld(mem: seq<Byte>, k: nat, mem1: seq<Byte>, oldEntryId: nat, id: Id, value: Value)
    requires Table(mem, k) && Table(mem1, k + 1) && SameOthers(mem, k, mem1, k + 1, id)
             && Lookup(mem1, k + 1, id) == value
    requires oldEntryId < WIDTH * k && oldEntryId % WIDTH == 1 && mem1[..WIDTH * k] == mem[..WIDTH * k]
    requires mem[oldEntryId] == mem1[WIDTH * k + 1] == IdByte(id)
    ensures var mem2 := mem1[oldEntryId := RETIRED];
            && Table(mem2, k + 1) && Lookup(mem2, k + 1, id) == value
            && SameOthers(mem, k, mem2, k + 1, id) && OldOrNew(mem, k, mem2, id, value)
  {
    hide Lookup;
    var f := (oldEntryId - 1) / WIDTH;
    assert mem1[oldEntryId] == mem1[..WIDTH * k][oldEntryId];
    LastMatchIs(mem1, k + 1, IdByte(id), k);
    Retire(mem1, k + 1, f);
    AfterRetiring(mem, k, mem1, mem1[oldEntryId := RETIRED], id);
  }

  lemma AfterRetiring(mem: seq<Byte>, k: nat, mem1: seq<Byte>, mem2: seq<Byte>, id: Id)
    requires Table(mem, k) && Table(mem1, k + 1) && Table(mem2, k + 1)
    requires SameOthers(mem, k, mem1, k + 1, id) && SameValues(mem1, k + 1, mem2, k + 1)
    ensures SameOthers(mem, k, mem2, k + 1, id) && Lookup(mem2, k + 1, id) == Lookup(mem1, k + 1, id)
  {}

  lemma TableFits(mem: seq<Byte>, k: nat)
    requires Table(mem, k)
    ensures |mem| == TABLE_END && WIDTH * k + 2 <= TABLE_END
  {}
}
