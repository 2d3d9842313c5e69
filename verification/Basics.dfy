/** Small vocabulary shared by every component. */
module Basics {

  /** One octet, written as the character with that code. */
  type byte = c: char | c as int < 256 witness 'a'

  /** A Rust `Vec<u8>` or `String`, a Python `bytes`, a C buffer. */
  type Bytes = seq<byte>

  type u64 = x: int | 0 <= x < 0x1_0000_0000_0000_0000

  datatype Option<+T> = None | Some(value: T)

  function Min(a: int, b: int): int {
    if a < b then a else b
  }

  function Max(a: int, b: int): int {
    if a < b then b else a
  }

  /** Two prefixes of one sequence are comparable. */
  lemma PrefixesCompare<T>(a: seq<T>, b: seq<T>, c: seq<T>)
    requires a <= c && b <= c && |a| <= |b|
    ensures a <= b
  {
  }

  lemma SliceOfSlice<T>(s: seq<T>, i: nat, j: nat, a: nat, b: nat)
    requires i <= j <= |s| && a <= b <= j - i
    ensures s[i..j][a..b] == s[i + a..i + b]
  {
    var t := s[i..j];
    assert forall k :: 0 <= k < b - a ==> t[a..b][k] == t[a + k] == s[i + a + k];
  }

  lemma SubsetSize<T>(a: set<T>, b: set<T>)
    requires a <= b
    ensures |a| <= |b|
  {
    assert b == a + (b - a);
  }
}
