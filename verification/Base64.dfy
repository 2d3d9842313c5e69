/** Unpadded base64, `snapshot_codec.rs` lines 22-71. */
module Base64 {
  import opened Basics

  /** The six-bit value of an alphabet character. */
  function Digit(c: byte): (r: Option<nat>)
    ensures r.Some? ==> r.value < 64
  {
    if 'A' <= c <= 'Z' then Some(c as int - 'A' as int)
    else if 'a' <= c <= 'z' then Some(c as int - 'a' as int + 26)
    else if '0' <= c <= '9' then Some(c as int - '0' as int + 52)
    else if c == '+' then Some(62)
    else if c == '/' then Some(63)
    else None
  }

  /** The alphabet of RFC 4648 section 4: A-Z, a-z, 0-9, plus and slash. */
  function Letter(v: nat): byte
    requires v < 64
  {
    if v < 26 then ('A' as int + v) as char
    else if v < 52 then ('a' as int + v - 26) as char
    else if v < 62 then ('0' as int + v - 52) as char
    else if v == 62 then '+'
    else '/'
  }

  lemma DigitOfLetter(v: nat)
    requires v < 64
    ensures Digit(Letter(v)) == Some(v)
  {
  }

  /** Up to three octets as a 24-bit number, missing ones being zero. */
  function Triple(chunk: Bytes): nat
    requires 1 <= |chunk| <= 3
  {
    chunk[0] as int * 65536
    + (if |chunk| > 1 then chunk[1] as int * 256 else 0)
    + (if |chunk| > 2 then chunk[2] as int else 0)
  }

  function EncodeChunk(chunk: Bytes): Bytes
    requires 1 <= |chunk| <= 3
  {
    var t := Triple(chunk);
    [Letter(t / 262144), Letter(t / 4096 % 64)]
    + (if |chunk| > 1 then [Letter(t / 64 % 64)] else [])
    + (if |chunk| > 2 then [Letter(t % 64)] else [])
  }

  function Encode(data: Bytes): Bytes {
    if data == [] then []
    else if |data| <= 3 then EncodeChunk(data)
    else EncodeChunk(data[..3]) + Encode(data[3..])
  }

  function Octet(v: nat): byte {
    (v % 256) as char
  }

  /** A third or fourth character outside the alphabet ends its chunk without an error. */
  function DecodeChunk(chunk: Bytes): Option<Bytes>
    requires 1 <= |chunk| <= 4
  {
    if |chunk| < 2 then None
    else
      var v0, v1 := Digit(chunk[0]), Digit(chunk[1]);
      if v0 == None || v1 == None then None
      else
        var first := Octet(v0.value * 4 + v1.value / 16);
        var v2 := if |chunk| > 2 then Digit(chunk[2]) else None;
        if v2 == None then Some([first])
        else
          var second := Octet(v1.value * 16 + v2.value / 4);
          var v3 := if |chunk| > 3 then Digit(chunk[3]) else None;
          if v3 == None then Some([first, second])
          else Some([first, second, Octet(v2.value * 64 + v3.value)])
  }

  function Prepend(head: Bytes, rest: Option<Bytes>): Option<Bytes> {
    if rest == None then None else Some(head + rest.value)
  }

  lemma PrependTwice(a: Bytes, b: Bytes, rest: Option<Bytes>)
    ensures Prepend(a, Prepend(b, rest)) == Prepend(a + b, rest)
  {
    if rest.Some? {
      assert a + (b + rest.value) == a + b + rest.value;
    }
  }

  function Decode(text: Bytes): Option<Bytes> {
    if text == [] then Some([])
    else
      var n := Min(4, |text|);
      var head := DecodeChunk(text[..n]);
      if head == None then None else Prepend(head.value, Decode(text[n..]))
  }

  lemma Quotient(t: nat, k: nat, q: nat, r: nat)
    requires k > 0 && r < k && t == k * q + r
    ensures t / k == q && t % k == r
  {
    var d := t / k - q;
    assert t == k * (t / k) + t % k;
    assert k * d == r - t % k;
    Multiple(k, d);
  }

  lemma Multiple(k: nat, d: int)
    ensures d >= 1 ==> k * d >= k
    ensures d <= -1 ==> k * d <= 0 - k
  {
  }

  /** The four six-bit groups of three octets. */
  lemma Groups(b0: nat, b1: nat, b2: nat, t: nat)
    requires b0 < 256 && b1 < 256 && b2 < 256 && t == b0 * 65536 + b1 * 256 + b2
    ensures t / 262144 == b0 / 4
    ensures t / 4096 % 64 == b0 % 4 * 16 + b1 / 16
    ensures t / 64 % 64 == b1 % 16 * 4 + b2 / 64
    ensures t % 64 == b2 % 64
  {
    var x1, x2, x3 := b0 % 4 * 16 + b1 / 16, b1 % 16 * 4 + b2 / 64, b2 % 64;
    Quotient(t, 262144, b0 / 4, 4096 * x1 + 64 * x2 + x3);
    Quotient(t, 4096, 64 * (b0 / 4) + x1, 64 * x2 + x3);
    Quotient(64 * (b0 / 4) + x1, 64, b0 / 4, x1);
    Quotient(t, 64, 4096 * (b0 / 4) + 64 * x1 + x2, x3);
    Quotient(4096 * (b0 / 4) + 64 * x1 + x2, 64, 64 * (b0 / 4) + x1, x2);
  }

  lemma OctetsBack(b0: nat, b1: nat, b2: nat)
    requires b0 < 256 && b1 < 256 && b2 < 256
    ensures b0 / 4 * 4 + (b0 % 4 * 16 + b1 / 16) / 16 == b0
    ensures ((b0 % 4 * 16 + b1 / 16) * 16 + (b1 % 16 * 4 + b2 / 64) / 4) % 256 == b1
    ensures ((b1 % 16 * 4 + b2 / 64) * 64 + b2 % 64) % 256 == b2
  {
    Quotient(b0 % 4 * 16 + b1 / 16, 16, b0 % 4, b1 / 16);
    Quotient(b1 % 16 * 4 + b2 / 64, 4, b1 % 16, b2 / 64);
    Quotient((b0 % 4 * 16 + b1 / 16) * 16 + b1 % 16, 256, b0 % 4, b1);
    Quotient((b1 % 16 * 4 + b2 / 64) * 64 + b2 % 64, 256, b1 % 16, b2);
  }

  lemma DecodeLetters(v0: nat, v1: nat, v2: nat, v3: nat)
    requires v0 < 64 && v1 < 64 && v2 < 64 && v3 < 64
    ensures DecodeChunk([Letter(v0), Letter(v1)]) == Some([Octet(v0 * 4 + v1 / 16)])
    ensures DecodeChunk([Letter(v0), Letter(v1), Letter(v2)])
         == Some([Octet(v0 * 4 + v1 / 16), Octet(v1 * 16 + v2 / 4)])
    ensures DecodeChunk([Letter(v0), Letter(v1), Letter(v2), Letter(v3)])
         == Some([Octet(v0 * 4 + v1 / 16), Octet(v1 * 16 + v2 / 4), Octet(v2 * 64 + v3)])
  {
    DigitOfLetter(v0);
    DigitOfLetter(v1);
    DigitOfLetter(v2);
    DigitOfLetter(v3);
  }

  lemma OctetOf(b: byte, v: nat)
    requires v % 256 == b as int
    ensures Octet(v) == b
  {
  }

  lemma ChunkRoundTrip(chunk: Bytes)
    requires 1 <= |chunk| <= 3
    ensures |EncodeChunk(chunk)| == |chunk| + 1
    ensures DecodeChunk(EncodeChunk(chunk)) == Some(chunk)
  {
    var t := Triple(chunk);
    var b0: nat := chunk[0] as int;
    var b1: nat := if |chunk| > 1 then chunk[1] as int else 0;
    var b2: nat := if |chunk| > 2 then chunk[2] as int else 0;
    Groups(b0, b1, b2, t);
    var v0, v1, v2, v3 := t / 262144, t / 4096 % 64, t / 64 % 64, t % 64;
    DecodeLetters(v0, v1, v2, v3);
    ChunkOctets(chunk, b0, b1, b2, v0, v1, v2, v3);
    if |chunk| == 1 {
      assert EncodeChunk(chunk) == [Letter(v0), Letter(v1)];
      assert chunk == [chunk[0]];
    } else if |chunk| == 2 {
      assert EncodeChunk(chunk) == [Letter(v0), Letter(v1), Letter(v2)];
      assert chunk == [chunk[0], chunk[1]];
    } else {
      assert EncodeChunk(chunk) == [Letter(v0), Letter(v1), Letter(v2), Letter(v3)];
      assert chunk == [chunk[0], chunk[1], chunk[2]];
    }
  }

  lemma ChunkOctets(chunk: Bytes, b0: nat, b1: nat, b2: nat, v0: nat, v1: nat, v2: nat, v3: nat)
    requires 1 <= |chunk| <= 3 && b0 == chunk[0] as int && b1 < 256 && b2 < 256
    requires |chunk| > 1 ==> b1 == chunk[1] as int
    requires |chunk| > 2 ==> b2 == chunk[2] as int
    requires v0 == b0 / 4 && v1 == b0 % 4 * 16 + b1 / 16 && v2 == b1 % 16 * 4 + b2 / 64 && v3 == b2 % 64
    ensures Octet(v0 * 4 + v1 / 16) == chunk[0]
    ensures |chunk| > 1 ==> Octet(v1 * 16 + v2 / 4) == chunk[1]
    ensures |chunk| > 2 ==> Octet(v2 * 64 + v3) == chunk[2]
  {
    OctetsBack(b0, b1, b2);
    OctetOf(chunk[0], v0 * 4 + v1 / 16);
    if |chunk| > 1 {
      OctetOf(chunk[1], v1 * 16 + v2 / 4);
    }
    if |chunk| > 2 {
      OctetOf(chunk[2], v2 * 64 + v3);
    }
  }

  lemma {:induction false} RoundTrip(data: Bytes)
    ensures Decode(Encode(data)) == Some(data)
  {
    if data == [] {
    } else if |data| <= 3 {
      ChunkRoundTrip(data);
      var text := Encode(data);
      assert text[..|text|] == text;
      assert Decode(text[|text|..]) == Some([]);
      assert data + [] == data;
    } else {
      ChunkRoundTrip(data[..3]);
      RoundTrip(data[3..]);
      var text := Encode(data);
      assert text[..4] == EncodeChunk(data[..3]);
      assert text[4..] == Encode(data[3..]);
      assert data[..3] + data[3..] == data;
    }
  }

  /** Encoded text needs no quoting. */
  lemma {:induction false} EncodeIsAlphabetic(data: Bytes)
    ensures forall c :: c in Encode(data) ==> Digit(c).Some?
  {
    if data != [] {
      var n := Min(3, |data|);
      var t := Triple(data[..n]);
      assert |data| <= 3 ==> data[..n] == data;
      DigitOfLetter(t / 262144);
      DigitOfLetter(t / 4096 % 64);
      DigitOfLetter(t / 64 % 64);
      DigitOfLetter(t % 64);
      if |data| > 3 {
        EncodeIsAlphabetic(data[3..]);
      }
    }
  }

  method EncodeLoop(data: Bytes) returns (out: Bytes)
    ensures out == Encode(data)
  {
    out := [];
    var i := 0;
    while i < |data|
      invariant 0 <= i <= |data|
      invariant out + Encode(data[i..]) == Encode(data)
    {
      var n := Min(3, |data| - i);
      assert data[i..][..n] == data[i..i + n];
      assert data[i..][n..] == data[i + n..];
      if n < 3 || i + 3 == |data| {
        assert data[i..] == data[i..i + n];
        assert Encode(data[i + n..]) == [];
      }
      out := out + EncodeChunk(data[i..i + n]);
      i := i + n;
    }
  }

  method DecodeLoop(text: Bytes) returns (out: Option<Bytes>)
    ensures out == Decode(text)
  {
    var bytes: Bytes := [];
    var i := 0;
    assert text[0..] == text;
    assert Decode(text).Some? ==> [] + Decode(text).value == Decode(text).value;
    while i < |text|
      invariant 0 <= i <= |text|
      invariant Decode(text) == Prepend(bytes, Decode(text[i..]))
    {
      var n := Min(4, |text| - i);
      assert text[i..][..n] == text[i..i + n];
      assert text[i..][n..] == text[i + n..];
      var head := DecodeChunk(text[i..i + n]);
      if head == None {
        return None;
      }
      PrependTwice(bytes, head.value, Decode(text[i + n..]));
      bytes := bytes + head.value;
      i := i + n;
    }
    assert bytes + [] == bytes;
    return Some(bytes);
  }
}
