/** Little-endian fields in byte strings. */
module Fields {
  import opened Basics

  type u16 = x: int | 0 <= x < 0x1_0000
  type u32 = x: int | 0 <= x < 0x1_0000_0000

  function Pow256(n: nat): (r: nat)
    ensures r > 0
  {
    if n == 0 then 1 else 256 * Pow256(n - 1)
  }

  lemma Widths()
    ensures Pow256(2) == 0x1_0000 && Pow256(4) == 0x1_0000_0000 && Pow256(8) == 0x1_0000_0000_0000_0000
  {
    assert Pow256(4) == 256 * (256 * Pow256(2));
    assert Pow256(8) == 256 * (256 * (256 * (256 * Pow256(4))));
  }

  function Le(v: nat, n: nat): (r: Bytes)
    ensures |r| == n
  {
    if n == 0 then [] else [(v % 256) as char] + Le(v / 256, n - 1)
  }

  function Num(b: Bytes): nat {
    if b == [] then 0 else b[0] as int + 256 * Num(b[1..])
  }

  lemma {:induction false} NumLe(v: nat, n: nat)
    requires v < Pow256(n)
    ensures Num(Le(v, n)) == v
  {
    if n > 0 {
      var b := Le(v, n);
      assert b[1..] == Le(v / 256, n - 1);
      NumLe(v / 256, n - 1);
    }
  }

  lemma {:induction false} NumBound(b: Bytes)
    ensures Num(b) < Pow256(|b|)
  {
    if b != [] {
      NumBound(b[1..]);
    }
  }

  /** The `n`-byte number at `offset`. */
  function U(data: Bytes, offset: nat, n: nat): nat
    requires offset + n <= |data|
  {
    Num(data[offset..offset + n])
  }

  function U16(data: Bytes, offset: nat): (r: u16)
    requires offset + 2 <= |data|
  {
    NumBound(data[offset..offset + 2]);
    Widths();
    U(data, offset, 2)
  }

  function U32(data: Bytes, offset: nat): (r: u32)
    requires offset + 4 <= |data|
  {
    NumBound(data[offset..offset + 4]);
    Widths();
    U(data, offset, 4)
  }

  function U64(data: Bytes, offset: nat): (r: u64)
    requires offset + 8 <= |data|
  {
    NumBound(data[offset..offset + 8]);
    Widths();
    U(data, offset, 8)
  }

  predicate AllZero(data: Bytes) {
    forall i :: 0 <= i < |data| ==> data[i] == 0 as char
  }

  function Zeros(n: nat): (r: Bytes)
    ensures |r| == n && AllZero(r)
  {
    seq(n, i => 0 as char)
  }

  // ---------------------------------------------------------------- reading what was written

  lemma Read16(data: Bytes, offset: nat, v: u16)
    requires offset + 2 <= |data| && data[offset..offset + 2] == Le(v, 2)
    ensures U16(data, offset) == v
  {
    Widths();
    NumLe(v, 2);
  }

  lemma Read32(data: Bytes, offset: nat, v: u32)
    requires offset + 4 <= |data| && data[offset..offset + 4] == Le(v, 4)
    ensures U32(data, offset) == v
  {
    Widths();
    NumLe(v, 4);
  }

  lemma Read64(data: Bytes, offset: nat, v: u64)
    requires offset + 8 <= |data| && data[offset..offset + 8] == Le(v, 8)
    ensures U64(data, offset) == v
  {
    Widths();
    NumLe(v, 8);
  }

  lemma {:induction false} NumZero(data: Bytes)
    requires AllZero(data)
    ensures Num(data) == 0
  {
    if data != [] {
      NumZero(data[1..]);
    }
  }
}
