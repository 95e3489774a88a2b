// Sets of identifiers 0 to 255 as 32 bytes of bits, the way co2/scan.c keeps db_online and db_occupy.

module Bitmaps {
  type Id = i: nat | i < 256

  type Bitmap = s: seq<bv8> | |s| == 32 witness seq(32, _ => 0)

  function Mask(id: Id): bv8 {
    (1 as bv8) << (id % 8)
  }

  predicate Test(b: Bitmap, id: Id) {
    b[id / 8] & Mask(id) != 0
  }

  function SetBit(b: Bitmap, id: Id): Bitmap {
    b[id / 8 := b[id / 8] | Mask(id)]
  }

  function ClearBit(b: Bitmap, id: Id): Bitmap {
    b[id / 8 := b[id / 8] & !Mask(id)]
  }

  /** The identifiers that a bitmap holds. */
  ghost function Members(b: Bitmap): set<Id> {
    set id: Id | Test(b, id)
  }

  const EMPTY: Bitmap := seq(32, _ => 0)

  /** The masks of different bits of one byte have nothing in common. */
  lemma MaskAlone(x: bv8, i: Id, j: Id)
    requires i / 8 == j / 8
    ensures (x | Mask(i)) & Mask(j) != 0 <==> i == j || x & Mask(j) != 0
    ensures (x & !Mask(i)) & Mask(j) != 0 <==> i != j && x & Mask(j) != 0
  {
    MaskValue(i);
    MaskValue(j);
  }

  lemma MaskValue(i: Id)
    ensures Mask(i) == match i % 8
                       case 0 => 1
                       case 1 => 2
                       case 2 => 4
                       case 3 => 8
                       case 4 => 16
                       case 5 => 32
                       case 6 => 64
                       case _ => 128
  {}

  /** Setting and clearing one bit add and remove one identifier. */
  lemma SetBitAdds(b: Bitmap, id: Id)
    ensures Members(SetBit(b, id)) == Members(b) + {id}
  {
    forall j: Id
      ensures Test(SetBit(b, id), j) <==> j == id || Test(b, j)
    {
      if j / 8 == id / 8 {
        MaskAlone(b[id / 8], id, j);
      }
    }
  }

  lemma ClearBitRemoves(b: Bitmap, id: Id)
    ensures Members(ClearBit(b, id)) == Members(b) - {id}
  {
    forall j: Id
      ensures Test(ClearBit(b, id), j) <==> j != id && Test(b, j)
    {
      if j / 8 == id / 8 {
        MaskAlone(b[id / 8], id, j);
      }
    }
  }

  lemma EmptyHoldsNothing()
    ensures Members(EMPTY) == {}
  {
    forall id: Id
      ensures !Test(EMPTY, id)
    {
      assert 0 as bv8 & Mask(id) == 0;
    }
  }
}
