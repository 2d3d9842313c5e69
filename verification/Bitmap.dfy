/** One bit per block. */
module Bitmap {
  import opened Basics
  import opened StoreFormat

  function Bit(k: nat): (r: nat)
    ensures r > 0
  {
    if k == 0 then 1 else 2 * Bit(k - 1)
  }

  lemma {:induction false} RoomFor(v: nat, k: nat, n: nat)
    requires k < n && v < Bit(n) && !BitOf(v, k)
    ensures v + Bit(k) < Bit(n)
  {
    if k > 0 {
      RoomFor(v / 2, k - 1, n - 1);
    }
  }

  lemma {:induction false} FlipIs(v: nat, k: nat, j: nat)
    requires !BitOf(v, k)
    ensures BitOf(v + Bit(k), j) <==> j == k || BitOf(v, j)
  {
    if k == 0 {
      assert (v + 1) / 2 == v / 2;
    } else {
      assert (v + Bit(k)) / 2 == v / 2 + Bit(k - 1);
      if j > 0 {
        FlipIs(v / 2, k - 1, j - 1);
      }
    }
  }

  /** `b | 1 << k`. */
  function WithBit(b: byte, k: nat): byte
    requires k < 8
  {
    if IsSet(b, k) then b
    else
      OneByte();
      RoomFor(b as int, k, 8);
      (b as int + Bit(k)) as char
  }

  lemma WithBitIs(b: byte, k: nat, j: nat)
    requires k < 8
    ensures IsSet(WithBit(b, k), j) <==> j == k || IsSet(b, j)
  {
    if !IsSet(b, k) {
      OneByte();
      RoomFor(b as int, k, 8);
      assert WithBit(b, k) as int == b as int + Bit(k);
      FlipIs(b as int, k, j);
    }
  }

  /** Marking one block leaves every other mark as it was. */
  lemma MarkIs(bitmap: Bytes, block: nat, b: nat)
    requires block / 8 < |bitmap|
    ensures var after := bitmap[block / 8 := WithBit(bitmap[block / 8], block % 8)];
            Marks(after, b) <==> b == block || Marks(bitmap, b)
  {
    hide IsSet, WithBit;
    WithBitIs(bitmap[block / 8], block % 8, b % 8);
  }

  lemma OneByte()
    ensures Bit(8) == 256
  {
    assert Bit(4) == 16;
  }

  lemma {:induction false} NoBits(k: nat)
    ensures !BitOf(0, k)
  {
    if k > 0 {
      NoBits(k - 1);
    }
  }
}
