/** The JSON fragments that `snapshot_codec.rs` prints and searches. */
module Json {
  import opened Basics

  // ---------------------------------------------------------------- searching

  predicate At(text: Bytes, i: int, pattern: Bytes) {
    0 <= i && i + |pattern| <= |text| && text[i..i + |pattern|] == pattern
  }

  /** The first occurrence at or after `from`, as `str::find` on a slice. */
  function FindFrom(text: Bytes, pattern: Bytes, from: nat): (r: Option<nat>)
    requires from <= |text|
    ensures r.Some? ==> from <= r.value && At(text, r.value, pattern)
    ensures forall j :: from <= j < (if r.Some? then r.value else |text| + 1) ==> !At(text, j, pattern)
    decreases |text| - from
  {
    if from + |pattern| > |text| then None
    else if At(text, from, pattern) then Some(from)
    else if from == |text| then None
    else FindFrom(text, pattern, from + 1)
  }

  function Find(text: Bytes, pattern: Bytes): Option<nat> {
    FindFrom(text, pattern, 0)
  }

  lemma FindIs(text: Bytes, pattern: Bytes, from: nat, i: nat)
    requires from <= i <= |text| && At(text, i, pattern)
    requires forall j :: from <= j < i ==> !At(text, j, pattern)
    ensures FindFrom(text, pattern, from) == Some(i)
  {
    var r := FindFrom(text, pattern, from);
    assert r.Some?;
  }

  lemma FindNone(text: Bytes, pattern: Bytes, from: nat)
    requires from <= |text| && forall j :: from <= j <= |text| ==> !At(text, j, pattern)
    ensures FindFrom(text, pattern, from) == None
  {
  }

  /** The last occurrence of one character, as `str::rfind`. */
  function RFind(text: Bytes, c: byte): (r: Option<nat>)
    ensures r.Some? ==> r.value < |text| && text[r.value] == c
    ensures forall j :: (if r.Some? then r.value + 1 else 0) <= j < |text| ==> text[j] != c
  {
    if text == [] then None
    else if text[|text| - 1] == c then Some(|text| - 1)
    else RFind(text[..|text| - 1], c)
  }

  // ---------------------------------------------------------------- quoting

  function Replace(text: Bytes, c: byte, with: Bytes): Bytes {
    if text == [] then []
    else (if text[0] == c then with else [text[0]]) + Replace(text[1..], c, with)
  }

  /** Five passes over the text, in the order the source makes them. */
  function QuoteJson(value: Bytes): Bytes {
    var a := Replace(value, '\\', "\\\\");
    var b := Replace(a, '"', "\\\"");
    var c := Replace(b, '\n', "\\n");
    var d := Replace(c, '\r', "\\r");
    var e := Replace(d, '\t', "\\t");
    "\"" + e + "\""
  }

  function EscapeByte(c: byte): Bytes {
    if c == '\\' then "\\\\"
    else if c == '"' then "\\\""
    else if c == '\n' then "\\n"
    else if c == '\r' then "\\r"
    else if c == '\t' then "\\t"
    else [c]
  }

  function Escape(value: Bytes): Bytes {
    if value == [] then [] else EscapeByte(value[0]) + Escape(value[1..])
  }

  lemma {:induction false} ReplaceConcat(a: Bytes, b: Bytes, c: byte, with: Bytes)
    ensures Replace(a + b, c, with) == Replace(a, c, with) + Replace(b, c, with)
  {
    if a == [] {
      assert a + b == b;
    } else {
      assert (a + b)[1..] == a[1..] + b;
      ReplaceConcat(a[1..], b, c, with);
    }
  }

  lemma ReplaceTwo(x: byte, y: byte, c: byte, with: Bytes)
    requires x != c && y != c
    ensures Replace([x, y], c, with) == [x, y]
  {
    assert [x, y][1..] == [y];
    ReplaceOne(y, c, with);
    assert [x] + [y] == [x, y];
  }

  lemma ReplaceOne(x: byte, c: byte, with: Bytes)
    ensures Replace([x], c, with) == if x == c then with else [x]
  {
    assert [x][1..] == [];
  }

  /** The body of a quoted value before the quotation marks are added. */
  function Passes(value: Bytes): Bytes {
    Replace(Replace(Replace(Replace(Replace(value, '\\', "\\\\"), '"', "\\\""), '\n', "\\n"), '\r', "\\r"),
            '\t', "\\t")
  }

  lemma PassesOne(c: byte)
    ensures Passes([c]) == EscapeByte(c)
  {
    ReplaceOne(c, '\\', "\\\\");
    ReplaceOne(c, '"', "\\\"");
    ReplaceOne(c, '\n', "\\n");
    ReplaceOne(c, '\r', "\\r");
    ReplaceOne(c, '\t', "\\t");
    ReplaceTwo('\\', '\\', '"', "\\\"");
    ReplaceTwo('\\', '\\', '\n', "\\n");
    ReplaceTwo('\\', '\\', '\r', "\\r");
    ReplaceTwo('\\', '\\', '\t', "\\t");
    ReplaceTwo('\\', '"', '\n', "\\n");
    ReplaceTwo('\\', '"', '\r', "\\r");
    ReplaceTwo('\\', '"', '\t', "\\t");
    ReplaceTwo('\\', 'n', '\r', "\\r");
    ReplaceTwo('\\', 'n', '\t', "\\t");
    ReplaceTwo('\\', 'r', '\t', "\\t");
  }

  lemma PassesConcat(a: Bytes, b: Bytes)
    ensures Passes(a + b) == Passes(a) + Passes(b)
  {
    ReplaceConcat(a, b, '\\', "\\\\");
    var a1, b1 := Replace(a, '\\', "\\\\"), Replace(b, '\\', "\\\\");
    ReplaceConcat(a1, b1, '"', "\\\"");
    var a2, b2 := Replace(a1, '"', "\\\""), Replace(b1, '"', "\\\"");
    ReplaceConcat(a2, b2, '\n', "\\n");
    var a3, b3 := Replace(a2, '\n', "\\n"), Replace(b2, '\n', "\\n");
    ReplaceConcat(a3, b3, '\r', "\\r");
    var a4, b4 := Replace(a3, '\r', "\\r"), Replace(b3, '\r', "\\r");
    ReplaceConcat(a4, b4, '\t', "\\t");
  }

  /** The five passes never touch what an earlier pass wrote. */
  lemma {:induction false} PassesAreEscape(value: Bytes)
    ensures Passes(value) == Escape(value)
  {
    if value != [] {
      PassesOne(value[0]);
      PassesConcat([value[0]], value[1..]);
      assert value == [value[0]] + value[1..];
      PassesAreEscape(value[1..]);
    }
  }

  lemma QuoteIsEscape(value: Bytes)
    ensures QuoteJson(value) == "\"" + Escape(value) + "\""
  {
    PassesAreEscape(value);
  }

  predicate Special(c: byte) {
    c == '\\' || c == '"' || c == '\n' || c == '\r' || c == '\t'
  }

  predicate Plain(value: Bytes) {
    forall c :: c in value ==> !Special(c)
  }

  lemma {:induction false} EscapePlain(value: Bytes)
    requires Plain(value)
    ensures Escape(value) == value
  {
    if value != [] {
      assert value[0] in value;
      forall c | c in value[1..] ensures !Special(c) {
        assert c in value;
      }
      EscapePlain(value[1..]);
    }
  }

  /** A quotation mark inside an escaped value follows a backslash. */
  lemma {:induction false} EscapedQuotes(value: Bytes, i: nat)
    requires i < |Escape(value)| && Escape(value)[i] == '"'
    ensures i > 0 && Escape(value)[i - 1] == '\\'
  {
    var head := EscapeByte(value[0]);
    if i >= |head| {
      EscapedQuotes(value[1..], i - |head|);
    }
  }

  lemma {:induction false} EscapeAvoids(value: Bytes, c: byte)
    requires c !in value && c != '\\' && c != '"' && c != 'n' && c != 'r' && c != 't'
    ensures c !in Escape(value)
  {
    if value != [] {
      assert value[0] in value;
      EscapeAvoids(value[1..], c);
    }
  }

  // ---------------------------------------------------------------- parsing a string

  predicate IsControl(c: byte) {
    c as int < 32 || c as int == 127
  }

  predicate IsAscii(c: byte) {
    c as int < 128
  }

  /** What the parser can read back inside quotation marks. */
  predicate Readable(c: byte) {
    (IsAscii(c) && !IsControl(c)) || c == '\n' || c == '\r' || c == '\t'
  }

  function Unescape(c: byte): Option<byte> {
    if c == '"' then Some('"')
    else if c == '\\' then Some('\\')
    else if c == 'n' then Some('\n')
    else if c == 'r' then Some('\r')
    else if c == 't' then Some('\t')
    else None
  }

  /** The characters after the opening mark; the length includes the closing mark. */
  function ScanString(text: Bytes, escaped: bool): (r: Option<(Bytes, nat)>)
    ensures r.Some? ==> 1 <= r.value.1 <= |text|
  {
    if text == [] then None
    else
      var c := text[0];
      if escaped then
        var u := Unescape(c);
        if u == None then None else Push(u.value, ScanString(text[1..], false))
      else if c == '\\' then Skip(ScanString(text[1..], true))
      else if c == '"' then Some(([], 1))
      else if IsControl(c) || !IsAscii(c) then None
      else Push(c, ScanString(text[1..], false))
  }

  function Skip(r: Option<(Bytes, nat)>): Option<(Bytes, nat)> {
    if r == None then None else Some((r.value.0, r.value.1 + 1))
  }

  function Push(c: byte, r: Option<(Bytes, nat)>): Option<(Bytes, nat)> {
    if r == None then None else Some(([c] + r.value.0, r.value.1 + 1))
  }

  function ParseJsonString(text: Bytes): (r: Option<(Bytes, nat)>)
    ensures r.Some? ==> 2 <= r.value.1 <= |text|
  {
    if text == [] || text[0] != '"' then None else Skip(ScanString(text[1..], false))
  }

  lemma ScanEscapedByte(c: byte, rest: Bytes)
    requires Readable(c)
    ensures ScanString(EscapeByte(c) + rest, false) ==
            (var r := ScanString(rest, false);
             if r == None then None else Some(([c] + r.value.0, r.value.1 + |EscapeByte(c)|)))
  {
    var text := EscapeByte(c) + rest;
    if Special(c) {
      assert text[1..][1..] == rest;
    } else {
      assert text[1..] == rest;
    }
  }

  lemma Regroup(head: Bytes, body: Bytes, rest: Bytes)
    ensures (head + body) + "\"" + rest == head + (body + "\"" + rest)
  {
  }

  lemma {:induction false} ScanReadsBack(value: Bytes, rest: Bytes)
    requires forall c :: c in value ==> Readable(c)
    ensures ScanString(Escape(value) + "\"" + rest, false) == Some((value, |Escape(value)| + 1))
  {
    if value == [] {
      assert Escape(value) + "\"" + rest == "\"" + rest;
    } else {
      assert value[0] in value;
      forall c | c in value[1..] ensures Readable(c) {
        assert c in value;
      }
      ScanReadsBack(value[1..], rest);
      var head, body := EscapeByte(value[0]), Escape(value[1..]);
      Regroup(head, body, rest);
      ScanEscapedByte(value[0], body + "\"" + rest);
      assert [value[0]] + value[1..] == value;
    }
  }

  lemma QuotedParses(value: Bytes, rest: Bytes)
    requires forall c :: c in value ==> Readable(c)
    ensures ParseJsonString(QuoteJson(value) + rest) == Some((value, |QuoteJson(value)|))
  {
    QuoteIsEscape(value);
    ScanReadsBack(value, rest);
    assert (QuoteJson(value) + rest)[1..] == Escape(value) + "\"" + rest;
  }

  /** Anything else inside the marks stops the parser. */
  lemma {:induction false} ScanRefuses(value: Bytes, i: nat, rest: Bytes)
    requires i < |value| && !Readable(value[i])
    ensures ScanString(Escape(value) + rest, false) == None
  {
    var tail := Escape(value[1..]) + rest;
    assert Escape(value) + rest == EscapeByte(value[0]) + tail;
    if Readable(value[0]) {
      ScanRefuses(value[1..], i - 1, rest);
      ScanEscapedByte(value[0], tail);
    } else {
      assert EscapeByte(value[0]) == [value[0]];
    }
  }

  // ---------------------------------------------------------------- texts in pieces

  /** A quoted string and the unquoted stretch after it. */
  datatype Piece = Piece(value: Bytes, raw: Bytes)

  function Spell(p: Piece): Bytes {
    QuoteJson(p.value) + p.raw
  }

  function Text(pieces: seq<Piece>): Bytes {
    if pieces == [] then [] else Spell(pieces[0]) + Text(pieces[1..])
  }

  lemma {:induction false} TextConcat(a: seq<Piece>, b: seq<Piece>)
    ensures Text(a + b) == Text(a) + Text(b)
  {
    if a == [] {
      assert a + b == b;
    } else {
      assert (a + b)[1..] == a[1..] + b;
      TextConcat(a[1..], b);
    }
  }

  predicate IsLetter(c: byte) {
    'a' <= c <= 'z' || 'A' <= c <= 'Z'
  }

  predicate IsName(name: Bytes) {
    name != [] && forall c :: c in name ==> IsLetter(c)
  }

  function Key(name: Bytes): Bytes {
    "\"" + name + "\":"
  }

  /** No key `name` begins inside `a` when `b` follows it. */
  predicate Clear(a: Bytes, b: Bytes, name: Bytes) {
    forall j :: 0 <= j < |a| ==> !At(a + b, j, Key(name))
  }

  lemma ClearConcat(a1: Bytes, a2: Bytes, b: Bytes, name: Bytes)
    requires Clear(a1, a2 + b, name) && Clear(a2, b, name)
    ensures Clear(a1 + a2, b, name)
  {
    var text := a1 + a2 + b;
    assert text == a1 + (a2 + b);
    forall j | 0 <= j < |a1 + a2| ensures !At(text, j, Key(name)) {
      if j >= |a1| && At(text, j, Key(name)) {
        assert At(a2 + b, j - |a1|, Key(name));
      }
    }
  }

  lemma ClearRaw(a: Bytes, b: Bytes, name: Bytes)
    requires '"' !in a
    ensures Clear(a, b, name)
  {
    forall j | 0 <= j < |a| ensures !At(a + b, j, Key(name)) {
      assert (a + b)[j] == a[j] && a[j] in a;
      if At(a + b, j, Key(name)) {
        KeyParts(a + b, j, name);
        assert false;
      }
    }
  }

  lemma KeyParts(text: Bytes, j: nat, name: Bytes)
    requires At(text, j, Key(name))
    ensures j + |name| + 3 <= |text|
    ensures text[j] == '"' && text[j + 1..j + 1 + |name|] == name
    ensures text[j + 1 + |name|] == '"' && text[j + 2 + |name|] == ':'
  {
    var k := Key(name);
    assert text[j..j + |k|] == k;
    var here := text[j..j + |k|];
    assert here[0] == text[j] && k[0] == '"';
    SliceOfSlice(text, j, j + |k|, 1, 1 + |name|);
    assert k[1..1 + |name|] == name;
    assert here[1 + |name|] == text[j + 1 + |name|] && k[1 + |name|] == '"';
    assert here[2 + |name|] == text[j + 2 + |name|] && k[2 + |name|] == ':';
  }

  lemma ClearStr(v: Bytes, b: Bytes, name: Bytes)
    requires IsName(name) && b != [] && !IsLetter(b[0])
    requires b[0] == ':' ==> Plain(v) && v != name
    ensures Clear(QuoteJson(v), b, name)
  {
    forall j | 0 <= j < |QuoteJson(v)| ensures !At(QuoteJson(v) + b, j, Key(name)) {
      if At(QuoteJson(v) + b, j, Key(name)) {
        StrHidesNoKey(v, b, name, j);
      }
    }
  }

  lemma StrHidesNoKey(v: Bytes, b: Bytes, name: Bytes, j: nat)
    requires IsName(name) && b != [] && !IsLetter(b[0]) && j < |QuoteJson(v)|
    requires At(QuoteJson(v) + b, j, Key(name))
    ensures b[0] == ':' && (Plain(v) ==> v == name)
  {
    QuoteIsEscape(v);
    var text := QuoteJson(v) + b;
    var close := |Escape(v)| + 1;
    KeyParts(text, j, name);
    var q := j + 1 + |name|;
    forall i | j < i < q ensures IsLetter(text[i]) {
      assert text[i] == text[j + 1..q][i - j - 1];
      assert text[i] in name;
    }
    assert text[j + 1] == name[0];
    assert text[close + 1] == b[0];
    if q < close {
      MarkInside(v, b, q);
      assert false;
    }
    assert text[close] == '"';
    assert q == close;
    if Plain(v) {
      EscapePlain(v);
      if j > 0 {
        MarkInside(v, b, j);
        PlainHasNoMark(v, j - 1);
        assert false;
      }
      assert text[1..1 + |name|] == Escape(v);
    }
  }

  lemma MarkInside(v: Bytes, b: Bytes, q: nat)
    requires 0 < q < |QuoteJson(v)| - 1 && (QuoteJson(v) + b)[q] == '"'
    ensures q <= |Escape(v)| && Escape(v)[q - 1] == '"' && q > 1 && (QuoteJson(v) + b)[q - 1] == '\\'
  {
    QuoteIsEscape(v);
    EscapedQuotes(v, q - 1);
  }

  lemma PlainHasNoMark(v: Bytes, i: nat)
    requires Plain(v) && i < |v|
    ensures v[i] != '"'
  {
    assert v[i] in v;
  }

  /** A piece in which a search for `name` finds nothing: only a string before a colon is a key. */
  predicate Opaque(p: Piece, name: Bytes) {
    && p.raw != [] && '"' !in p.raw && !IsLetter(p.raw[0])
    && (p.raw[0] == ':' ==> Plain(p.value) && p.value != name)
  }

  lemma {:induction false} PiecesAreClear(pieces: seq<Piece>, b: Bytes, name: Bytes)
    requires IsName(name) && forall p :: p in pieces ==> Opaque(p, name)
    ensures Clear(Text(pieces), b, name)
  {
    if pieces != [] {
      var p := pieces[0];
      assert p in pieces;
      forall x | x in pieces[1..] ensures Opaque(x, name) {
        assert x in pieces;
      }
      var rest := Text(pieces[1..]) + b;
      PiecesAreClear(pieces[1..], b, name);
      ClearRaw(p.raw, rest, name);
      ClearStr(p.value, p.raw + rest, name);
      ClearConcat(QuoteJson(p.value), p.raw, rest, name);
      ClearConcat(Spell(p), Text(pieces[1..]), b, name);
    }
  }

  // ---------------------------------------------------------------- the end of an array

  /** The offset of the first closing bracket outside a string. */
  function ArrayEnd(text: Bytes, inString: bool, escaped: bool): (r: Option<nat>)
    ensures r.Some? ==> r.value < |text|
  {
    if text == [] then None
    else
      var c := text[0];
      if inString then
        (if escaped then Shift(1, ArrayEnd(text[1..], true, false))
         else if c == '\\' then Shift(1, ArrayEnd(text[1..], true, true))
         else Shift(1, ArrayEnd(text[1..], c != '"', false)))
      else if c == '"' then Shift(1, ArrayEnd(text[1..], true, false))
      else if c == ']' then Some(0)
      else Shift(1, ArrayEnd(text[1..], false, false))
  }

  function Shift(n: nat, r: Option<nat>): Option<nat> {
    if r == None then None else Some(n + r.value)
  }

  lemma {:induction false} EndSkipsRaw(a: Bytes, b: Bytes)
    requires '"' !in a && ']' !in a
    ensures ArrayEnd(a + b, false, false) == Shift(|a|, ArrayEnd(b, false, false))
  {
    if a == [] {
      assert a + b == b;
    } else {
      assert a[0] in a;
      assert (a + b)[1..] == a[1..] + b;
      EndSkipsRaw(a[1..], b);
    }
  }

  lemma EndSkipsEscaped(c: byte, b: Bytes)
    ensures ArrayEnd(EscapeByte(c) + b, true, false) == Shift(|EscapeByte(c)|, ArrayEnd(b, true, false))
  {
    var text := EscapeByte(c) + b;
    if Special(c) {
      assert text[1..][1..] == b;
    } else {
      assert text[1..] == b;
    }
  }

  lemma {:induction false} EndSkipsBody(v: Bytes, b: Bytes)
    ensures ArrayEnd(Escape(v) + b, true, false) == Shift(|Escape(v)|, ArrayEnd(b, true, false))
  {
    if v == [] {
      assert Escape(v) + b == b;
    } else {
      var tail := Escape(v[1..]) + b;
      assert Escape(v) + b == EscapeByte(v[0]) + tail;
      EndSkipsEscaped(v[0], tail);
      EndSkipsBody(v[1..], b);
    }
  }

  lemma EndSkipsStr(v: Bytes, b: Bytes)
    ensures ArrayEnd(QuoteJson(v) + b, false, false) == Shift(|QuoteJson(v)|, ArrayEnd(b, false, false))
  {
    QuoteIsEscape(v);
    var text := QuoteJson(v) + b;
    assert text[1..] == Escape(v) + ("\"" + b);
    EndSkipsBody(v, "\"" + b);
    assert ("\"" + b)[1..] == b;
  }

  lemma {:induction false} EndSkipsPieces(pieces: seq<Piece>, b: Bytes)
    requires forall p :: p in pieces ==> '"' !in p.raw && ']' !in p.raw
    ensures ArrayEnd(Text(pieces) + b, false, false) == Shift(|Text(pieces)|, ArrayEnd(b, false, false))
  {
    if pieces == [] {
      assert Text(pieces) + b == b;
    } else {
      var p := pieces[0];
      var rest := Text(pieces[1..]) + b;
      assert Text(pieces) + b == QuoteJson(p.value) + (p.raw + rest);
      assert p in pieces;
      forall x | x in pieces[1..] ensures '"' !in x.raw && ']' !in x.raw {
        assert x in pieces;
      }
      EndSkipsPieces(pieces[1..], b);
      EndSkipsRaw(p.raw, rest);
      EndSkipsStr(p.value, p.raw + rest);
    }
  }
}
