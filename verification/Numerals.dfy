/** Decimal and hexadecimal text, as Rust's formatter prints and its parsers read. */
module Numerals {
  import opened Basics

  predicate IsDigit(c: byte) {
    '0' <= c <= '9'
  }

  function Decimal(n: nat): Bytes {
    var last: byte := ('0' as int + n % 10) as char;
    if n < 10 then [last] else Decimal(n / 10) + [last]
  }

  function DigitValue(c: byte): nat {
    if IsDigit(c) then c as int - '0' as int else 0
  }

  function DecimalValue(text: Bytes): nat {
    if text == [] then 0 else DecimalValue(text[..|text| - 1]) * 10 + DigitValue(text[|text| - 1])
  }

  /** How many digits a text starts with. */
  function DigitRun(text: Bytes): (n: nat)
    ensures n <= |text|
    ensures forall i :: 0 <= i < n ==> IsDigit(text[i])
  {
    if text == [] || !IsDigit(text[0]) then 0 else 1 + DigitRun(text[1..])
  }

  lemma {:induction false} DecimalReadsBack(n: nat)
    ensures Decimal(n) != [] && (forall c :: c in Decimal(n) ==> IsDigit(c))
    ensures DecimalValue(Decimal(n)) == n
  {
    var text := Decimal(n);
    if n >= 10 {
      DecimalReadsBack(n / 10);
      assert text[..|text| - 1] == Decimal(n / 10);
    } else {
      assert text[..|text| - 1] == [];
    }
  }

  lemma {:induction false} RunOfDigits(a: Bytes, b: Bytes)
    requires forall c :: c in a ==> IsDigit(c)
    requires b != [] && !IsDigit(b[0])
    ensures DigitRun(a + b) == |a|
  {
    if a == [] {
      assert a + b == b;
    } else {
      assert a[0] in a;
      forall c | c in a[1..] ensures IsDigit(c) {
        assert c in a;
      }
      assert (a + b)[1..] == a[1..] + b;
      RunOfDigits(a[1..], b);
    }
  }

  function HexLetter(v: nat): byte
    requires v < 16
  {
    if v < 10 then ('0' as int + v) as char else ('a' as int + v - 10) as char
  }

  function HexDigit(c: byte): (r: Option<nat>)
    ensures r.Some? ==> r.value < 16
  {
    if IsDigit(c) then Some(c as int - '0' as int)
    else if 'a' <= c <= 'f' then Some(c as int - 'a' as int + 10)
    else if 'A' <= c <= 'F' then Some(c as int - 'A' as int + 10)
    else None
  }

  /** Lower-case hexadecimal, padded with zeros to `width`. */
  function Hex(n: nat, width: nat): Bytes {
    if width == 0 then [] else Hex(n / 16, width - 1) + [HexLetter(n % 16)]
  }

  function HexValue(text: Bytes): Option<nat> {
    if text == [] then Some(0)
    else
      var head := HexValue(text[..|text| - 1]);
      var last := HexDigit(text[|text| - 1]);
      if head == None || last == None then None else Some(head.value * 16 + last.value)
  }

  function Power16(k: nat): nat {
    if k == 0 then 1 else 16 * Power16(k - 1)
  }

  /** `u64::from_str_radix(text, 16)`: one leading plus sign is allowed, overflow is not. */
  function FromHex(text: Bytes): Option<u64> {
    var digits := if |text| > 1 && text[0] == '+' then text[1..] else text;
    if digits == [] then None
    else
      var v := HexValue(digits);
      if v == None || v.value >= 0x1_0000_0000_0000_0000 then None else Some(v.value)
  }

  lemma {:induction false} HexReadsBack(n: nat, width: nat)
    requires n < Power16(width)
    ensures |Hex(n, width)| == width && HexValue(Hex(n, width)) == Some(n)
    ensures forall c :: c in Hex(n, width) ==> HexDigit(c).Some?
  {
    if width > 0 {
      var text := Hex(n, width);
      HexReadsBack(n / 16, width - 1);
      assert text[..|text| - 1] == Hex(n / 16, width - 1);
      assert HexDigit(HexLetter(n % 16)) == Some(n % 16);
    }
  }

  lemma Power16Of16()
    ensures Power16(16) == 0x1_0000_0000_0000_0000
  {
    assert Power16(4) == 0x1_0000;
    assert Power16(8) == 0x1_0000_0000;
    assert Power16(12) == 0x1_0000_0000_0000;
  }

  lemma ServiceReadsBack(n: u64)
    ensures FromHex(Hex(n, 16)) == Some(n)
    ensures forall c :: c in Hex(n, 16) ==> HexDigit(c).Some?
  {
    Power16Of16();
    HexReadsBack(n, 16);
    assert Hex(n, 16)[0] in Hex(n, 16);
  }
}
