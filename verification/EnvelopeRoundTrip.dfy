/** What the envelope parser reads back from what the envelope printer wrote. */
module EnvelopeRoundTrip {
  import opened Basics
  import opened RaftTypes
  import opened Json
  import opened Numerals
  import opened SnapshotCodec
  import Base64

  // ---------------------------------------------------------------- finding one key

  lemma PlainName(name: Bytes)
    requires IsName(name)
    ensures Plain(name)
  {
    forall c | c in name ensures !Special(c) {
      assert IsLetter(c);
    }
  }

  lemma NamedPiece(name: Bytes, raw: Bytes)
    requires IsName(name) && raw != [] && raw[0] == ':'
    ensures Spell(Piece(name, raw)) == Key(name) + raw[1..]
  {
    PlainName(name);
    QuoteIsEscape(name);
    EscapePlain(name);
    assert raw == ":" + raw[1..];
  }

  /** `open` and the pieces `a` hide no key; the key spelled by `b` comes right after them. */
  lemma KeyFound(open: Bytes, a: seq<Piece>, b: seq<Piece>, name: Bytes, ext: Bytes)
    requires '"' !in open && IsName(name) && (forall p :: p in a ==> Opaque(p, name))
    requires b != [] && b[0].value == name && b[0].raw != [] && b[0].raw[0] == ':' && ext <= b[0].raw[1..]
    ensures var text := open + Text(a + b);
            var at := |open| + |Text(a)|;
            && at + |Key(name) + ext| <= |text|
            && Find(text, Key(name) + ext) == Some(at)
            && text[at + |Key(name)|..] == b[0].raw[1..] + Text(b[1..])
  {
    hide QuoteJson, Text, FindFrom;
    var text := open + Text(a + b);
    var at := |open| + |Text(a)|;
    TextConcat(a, b);
    NamedPiece(name, b[0].raw);
    var tail := b[0].raw[1..] + Text(b[1..]);
    TextHead(b);
    Regroup3(Key(name), b[0].raw[1..], Text(b[1..]));
    Regroup3(open, Text(a), Text(b));
    Regroup3(open + Text(a), Key(name), tail);
    assert text == (open + Text(a)) + Text(b);
    assert text == (open + Text(a) + Key(name)) + tail;
    PiecesAreClear(a, Text(b), name);
    ClearRaw(open, Text(a) + Text(b), name);
    ClearConcat(open, Text(a), Text(b), name);
    forall j | 0 <= j < at ensures !At(text, j, Key(name) + ext) {
      AtShorter(text, j, Key(name), ext);
    }
    AtHere(open + Text(a), Key(name), ext, tail);
    FindIs(text, Key(name) + ext, 0, at);
  }

  lemma TextHead(b: seq<Piece>)
    requires b != []
    ensures Text(b) == Spell(b[0]) + Text(b[1..])
  {
  }

  lemma Regroup3(a: Bytes, b: Bytes, c: Bytes)
    ensures a + b + c == a + (b + c)
  {
  }

  lemma AtShorter(text: Bytes, j: nat, p: Bytes, ext: Bytes)
    ensures At(text, j, p + ext) ==> At(text, j, p)
  {
    if At(text, j, p + ext) {
      SliceOfSlice(text, j, j + |p + ext|, 0, |p|);
      assert (p + ext)[..|p|] == p;
    }
  }

  lemma AtHere(a: Bytes, p: Bytes, ext: Bytes, tail: Bytes)
    requires ext <= tail
    ensures At(a + p + tail, |a|, p + ext)
  {
    var text := a + p + tail;
    assert text[|a|..|a| + |p + ext|] == p + ext;
  }

  // ---------------------------------------------------------------- one member

  lemma HostIsPlain(p: Peer)
    ensures Plain(Host(p)) && Plain(RoleName(p.suffrage))
    ensures forall c :: c in Host(p) ==> Readable(c) && c != '}'
    ensures forall c :: c in RoleName(p.suffrage) ==> Readable(c) && c != '}'
  {
    ServiceReadsBack(p.service);
    forall c | c in Host(p) ensures !Special(c) && Readable(c) && c != '}' {
      if c in Hex(p.service, 16) {
        assert HexDigit(c).Some?;
      } else {
        assert c in "charlotte:";
      }
    }
  }

  /** Reading a plain field gives its text. */
  lemma FieldReads(open: Bytes, a: seq<Piece>, name: Bytes, v: Bytes, raw: Bytes, rest: seq<Piece>)
    requires '"' !in open && IsName(name) && (forall p :: p in a ==> Opaque(p, name))
    requires Plain(v) && (forall c :: c in v ==> Readable(c))
    ensures StringField(open + Text(a + ([Piece(name, ":"), Piece(v, raw)] + rest)), name) == Some(v)
  {
    hide QuoteJson, StringField, Find;
    var b := [Piece(name, ":"), Piece(v, raw)] + rest;
    KeyFound(open, a, b, name, []);
    assert Key(name) + [] == Key(name);
    TailOfField(name, v, raw, rest);
    FieldAt(open + Text(a + b), name, |open| + |Text(a)|, v, raw + Text(rest));
  }

  lemma TailOfField(name: Bytes, v: Bytes, raw: Bytes, rest: seq<Piece>)
    ensures var b := [Piece(name, ":"), Piece(v, raw)] + rest;
            b[0].raw[1..] + Text(b[1..]) == QuoteJson(v) + (raw + Text(rest))
  {
    var b := [Piece(name, ":"), Piece(v, raw)] + rest;
    assert b[1..] == [Piece(v, raw)] + rest;
    assert b[1..][1..] == rest;
    assert b[0].raw[1..] == [];
    Regroup3(QuoteJson(v), raw, Text(rest));
    assert [] + Text(b[1..]) == Text(b[1..]);
  }

  lemma FieldAt(text: Bytes, name: Bytes, at: nat, v: Bytes, after: Bytes)
    requires Find(text, Key(name)) == Some(at) && at + |Key(name)| <= |text|
    requires text[at + |Key(name)|..] == QuoteJson(v) + after
    requires Plain(v) && (forall c :: c in v ==> Readable(c))
    ensures StringField(text, name) == Some(v)
  {
    QuotedParses(v, after);
    QuoteIsEscape(v);
    EscapePlain(v);
    assert (QuoteJson(v) + after)[1..|QuoteJson(v)| - 1] == v;
  }

  function Five(p: Peer): seq<Piece> {
    [Piece("role", ":"), Piece(RoleName(p.suffrage), ","), Piece("address", ":{"),
     Piece("host", ":"), Piece(Host(p), ",")]
  }

  /** The part of a member's text that the parser calls the object. */
  function Object(p: Peer): Bytes {
    "{" + Text([Piece("id", ":"), Piece(p.id, ",")] + (Five(p) + [Piece("port", ":0}")]))
  }

  lemma ObjectReads(p: Peer)
    ensures ReadPeer(p.id, Object(p)) == p
  {
    RoleReads(p);
    HostReads(p);
    assert Host(p)[..10] == "charlotte:";
    assert Host(p)[0..10] == "charlotte:";
    assert Host(p)[10..] == Hex(p.service, 16);
    ServiceReadsBack(p.service);
  }

  lemma RoleReads(p: Peer)
    ensures StringField(Object(p), "role") == Some(RoleName(p.suffrage))
  {
    hide QuoteJson, Text, StringField, Object;
    HostIsPlain(p);
    ObjectPieces(p);
    var head := [Piece("id", ":"), Piece(p.id, ",")];
    var rest := [Piece("address", ":{"), Piece("host", ":"), Piece(Host(p), ","), Piece("port", ":0}")];
    IdIsOpaque("role");
    FieldReads("{", head, "role", RoleName(p.suffrage), ",", rest);
  }

  lemma HostReads(p: Peer)
    ensures StringField(Object(p), "host") == Some(Host(p))
  {
    hide QuoteJson, Text, StringField, Object;
    HostIsPlain(p);
    ObjectPieces(p);
    BeforeHost(p);
    FieldReads("{", UpToHost(p), "host", Host(p), ",", [Piece("port", ":0}")]);
  }

  function UpToHost(p: Peer): seq<Piece> {
    [Piece("id", ":"), Piece(p.id, ","), Piece("role", ":"), Piece(RoleName(p.suffrage), ","), Piece("address", ":{")]
  }

  lemma BeforeHost(p: Peer)
    ensures forall x :: x in UpToHost(p) ==> Opaque(x, "host")
  {
    IdIsOpaque("host");
  }

  /** Field names the parser looks for are not each other. */
  lemma IdIsOpaque(name: Bytes)
    requires IsName(name) && name != "id"
    ensures Opaque(Piece("id", ":"), name)
    ensures name != "role" ==> Opaque(Piece("role", ":"), name)
    ensures name != "address" ==> Opaque(Piece("address", ":{"), name)
    ensures name != "host" ==> Opaque(Piece("host", ":"), name)
  {
    PlainName("id");
    PlainName("role");
    PlainName("address");
    PlainName("host");
  }

  lemma ObjectPieces(p: Peer)
    ensures var role := [Piece("role", ":"), Piece(RoleName(p.suffrage), ",")];
            var rest := [Piece("address", ":{"), Piece("host", ":"), Piece(Host(p), ","), Piece("port", ":0}")];
            Object(p) == "{" + Text([Piece("id", ":"), Piece(p.id, ",")] + (role + rest))
    ensures Object(p) == "{" + Text(UpToHost(p) + ([Piece("host", ":"), Piece(Host(p), ",")] + [Piece("port", ":0}")]))
  {
    var role := [Piece("role", ":"), Piece(RoleName(p.suffrage), ",")];
    var rest := [Piece("address", ":{"), Piece("host", ":"), Piece(Host(p), ","), Piece("port", ":0}")];
    assert role + rest == Five(p) + [Piece("port", ":0}")];
    assert UpToHost(p) + ([Piece("host", ":"), Piece(Host(p), ",")] + [Piece("port", ":0}")])
        == [Piece("id", ":"), Piece(p.id, ",")] + (Five(p) + [Piece("port", ":0}")]);
  }

  // ---------------------------------------------------------------- a list of members

  /** A member's text after its id and comma, up to its closing braces. */
  function Middle(p: Peer): Bytes {
    Text(Five(p) + [Piece("port", ":0")])
  }

  lemma LastRaw(pieces: seq<Piece>, v: Bytes, raw: Bytes, extra: Bytes)
    ensures Text(pieces + [Piece(v, raw + extra)]) == Text(pieces + [Piece(v, raw)]) + extra
  {
    hide QuoteJson;
    TextConcat(pieces, [Piece(v, raw + extra)]);
    TextConcat(pieces, [Piece(v, raw)]);
    TextOne(Piece(v, raw + extra));
    TextOne(Piece(v, raw));
    Regroup3(QuoteJson(v), raw, extra);
    Regroup3(Text(pieces), QuoteJson(v) + raw, extra);
  }

  lemma TextOne(a: Piece)
    ensures Text([a]) == Spell(a)
  {
    assert [a][1..] == [];
  }

  lemma RestText(p: Peer, tail: Bytes)
    ensures Text(RestPieces(p, tail)) == Middle(p) + ("}}" + tail)
  {
    assert ":0}}" + tail == ":0" + ("}}" + tail);
    assert RestPieces(p, tail) == Five(p) + [Piece("port", ":0" + ("}}" + tail))];
    LastRaw(Five(p), "port", ":0", "}}" + tail);
  }

  lemma IdText(id: Bytes, rest: seq<Piece>)
    ensures Text([Piece("id", ":"), Piece(id, ",")] + rest) == Key("id") + (QuoteJson(id) + ("," + Text(rest)))
  {
    hide QuoteJson;
    var a := [Piece("id", ":"), Piece(id, ",")];
    TextConcat(a, rest);
    assert a[1..] == [Piece(id, ",")];
    TextOne(Piece(id, ","));
    NamedPiece("id", ":");
    assert Key("id") + ":"[1..] == Key("id");
    Regroup3(Key("id"), QuoteJson(id) + ",", Text(rest));
    Regroup3(QuoteJson(id), ",", Text(rest));
  }

  lemma ObjectText(p: Peer)
    ensures Object(p) == "{" + (Key("id") + (QuoteJson(p.id) + ("," + (Middle(p) + "}"))))
  {
    hide QuoteJson, Text, Five;
    LastRaw(Five(p), "port", ":0", "}");
    assert ":0" + "}" == ":0}";
    IdText(p.id, Five(p) + [Piece("port", ":0}")]);
  }

  lemma {:induction false} TextAvoids(pieces: seq<Piece>, c: byte)
    requires c != '\\' && c != '"' && c != 'n' && c != 'r' && c != 't'
    requires forall p :: p in pieces ==> c !in p.value && c !in p.raw
    ensures c !in Text(pieces)
  {
    if pieces != [] {
      assert pieces[0] in pieces;
      forall p | p in pieces[1..] ensures c !in p.value && c !in p.raw {
        assert p in pieces;
      }
      TextAvoids(pieces[1..], c);
      QuoteAvoids(pieces[0].value, c);
    }
  }

  lemma QuoteAvoids(v: Bytes, c: byte)
    requires c !in v && c != '\\' && c != '"' && c != 'n' && c != 'r' && c != 't'
    ensures c !in QuoteJson(v)
  {
    QuoteIsEscape(v);
    EscapeAvoids(v, c);
  }

  lemma MiddleHasNoBrace(p: Peer)
    ensures '}' !in Middle(p)
  {
    hide QuoteJson, Text;
    HostIsPlain(p);
    var pieces := Five(p) + [Piece("port", ":0")];
    forall x | x in pieces ensures '}' !in x.value && '}' !in x.raw {
    }
    TextAvoids(pieces, '}');
  }

  /** What follows a known stretch of text. */
  lemma Peel(text: Bytes, i: nat, a: Bytes, b: Bytes)
    requires i <= |text| && text[i..] == a + b
    ensures i + |a| <= |text| && text[i..i + |a|] == a && text[i + |a|..] == b
  {
    assert |text| - i == |a| + |b|;
    assert text[i..][..|a|] == a;
    assert text[i..][|a|..] == b;
    assert text[i..][|a|..] == text[i + |a|..];
    assert text[i..][..|a|] == text[i..i + |a|];
  }

  lemma FirstBrace(text: Bytes, i: nat, x: Bytes, y: Bytes)
    requires i <= |text| && text[i..] == x + y && '}' !in x && y != [] && y[0] == '}'
    ensures FindFrom(text, "}", i) == Some(i + |x|)
  {
    Peel(text, i, x, y);
    forall j | i <= j < i + |x| ensures !At(text, j, "}") {
      assert text[j] == text[i..i + |x|][j - i] && text[j] in x;
      assert text[j..j + 1] == [text[j]];
    }
    var k := i + |x|;
    assert text[k] == text[k..][0];
    assert text[k..k + 1] == "}";
    FindIs(text, "}", i, k);
  }

  lemma LastOpen(text: Bytes, i: nat, k: Bytes)
    requires '{' !in k && i + 1 + |k| <= |text| && text[i] == '{' && text[i + 1..i + 1 + |k|] == k
    ensures RFind(text[..i + 1 + |k|], '{') == Some(i)
  {
    var t := text[..i + 1 + |k|];
    var r := RFind(t, '{');
    assert t[i] == '{';
    forall j | i < j < |t| ensures t[j] != '{' {
      assert t[j] == text[i + 1..i + 1 + |k|][j - i - 1];
      assert t[j] in k;
    }
    assert r.Some? && r.value == i;
  }

  /** The text of one member, with `z` after it. */
  function MemberText(p: Peer, z: Bytes): Bytes {
    "{" + (Key("id") + AfterKey(p, z))
  }

  function AfterKey(p: Peer, z: Bytes): Bytes {
    QuoteJson(p.id) + AfterId(p, z)
  }

  function AfterId(p: Peer, z: Bytes): Bytes {
    hide Middle;
    "," + (Middle(p) + ("}}" + z))
  }

  predicate ReadableId(p: Peer) {
    forall c :: c in p.id ==> Readable(c)
  }

  /**
   * What the parser makes of a member with a readable id. It takes the first closing brace for
   * the end of the object; a brace inside the id hides the role and the service name.
   */
  function Seen(p: Peer): Peer {
    if '}' in p.id then Peer(p.id, 0, Voter) else p
  }

  function Prepend(p: Peer, rest: Option<seq<Peer>>): Option<seq<Peer>> {
    if rest == None then None else Some([p] + rest.value)
  }

  /** One unreadable id loses the whole envelope. */
  function SeenAll(members: seq<Peer>): Option<seq<Peer>> {
    if members == [] then Some([])
    else if !ReadableId(members[0]) then None
    else Prepend(Seen(members[0]), SeenAll(members[1..]))
  }

  lemma MemberIsObject(p: Peer, z: Bytes)
    ensures MemberText(p, z) == Object(p) + ("}" + z)
  {
    hide QuoteJson, Middle, Object, Key;
    ObjectText(p);
    ObjectGroups(Key("id"), QuoteJson(p.id), Middle(p), z);
  }

  lemma ObjectGroups(k: Bytes, q: Bytes, m: Bytes, z: Bytes)
    ensures "{" + (k + (q + ("," + (m + ("}}" + z)))))
         == ("{" + (k + (q + ("," + (m + "}"))))) + ("}" + z)
  {
    var zz := "}" + z;
    assert "}}" + z == "}" + zz;
    Regroup3(m, "}", zz);
    Regroup3(",", m + "}", zz);
    Regroup3(q, "," + (m + "}"), zz);
    Regroup3(k, q + ("," + (m + "}")), zz);
    Regroup3("{", k + (q + ("," + (m + "}"))), zz);
  }

  lemma AfterKeyGroups(q: Bytes, m: Bytes, z: Bytes)
    ensures q + ("," + (m + ("}}" + z))) == (q + ("," + m)) + ("}}" + z)
  {
    Regroup3(",", m, "}}" + z);
    Regroup3(q, "," + m, "}}" + z);
  }

  ghost predicate MemberHere(text: Bytes, i: nat, p: Peer, z: Bytes) {
    i <= |text| && text[i..] == MemberText(p, z)
  }

  /** Where the key ends, and where the id ends. */
  lemma MemberOffsets(text: Bytes, i: nat, p: Peer, z: Bytes)
    requires MemberHere(text, i, p, z)
    ensures var c := i + 1 + |Key("id")|;
            && c + |QuoteJson(p.id)| <= |text| && text[i] == '{' && text[i + 1..c] == Key("id")
            && text[c..] == AfterKey(p, z) && text[c + |QuoteJson(p.id)|..] == AfterId(p, z)
  {
    hide QuoteJson, Middle, AfterId, Key;
    Peel(text, i, "{", Key("id") + AfterKey(p, z));
    assert text[i] == text[i..i + 1][0];
    Peel(text, i + 1, Key("id"), AfterKey(p, z));
    Peel(text, i + 1 + |Key("id")|, QuoteJson(p.id), AfterId(p, z));
  }

  lemma KeyNext(text: Bytes, i: nat, name: Bytes, cursor: nat)
    requires i < |text| && text[i] != '"' && At(text, i + 1, Key(name))
    requires cursor <= i && forall j :: cursor <= j < i ==> !At(text, j, Key(name))
    ensures FindFrom(text, Key(name), cursor) == Some(i + 1)
  {
    if At(text, i, Key(name)) {
      KeyParts(text, i, name);
      assert false;
    }
    FindIs(text, Key(name), cursor, i + 1);
  }

  lemma CloseOfMember(text: Bytes, c: nat, p: Peer, z: Bytes)
    requires c <= |text| && text[c..] == AfterKey(p, z) && '}' !in p.id
    ensures FindFrom(text, "}", c) == Some(c + |QuoteJson(p.id)| + 1 + |Middle(p)|)
  {
    hide QuoteJson, Middle;
    MiddleHasNoBrace(p);
    QuoteAvoids(p.id, '}');
    AfterKeyGroups(QuoteJson(p.id), Middle(p), z);
    FirstBrace(text, c, QuoteJson(p.id) + ("," + Middle(p)), "}}" + z);
  }

  lemma ObjectSlice(text: Bytes, i: nat, p: Peer, z: Bytes)
    requires MemberHere(text, i, p, z)
    ensures var end := i + 1 + |Key("id")| + |QuoteJson(p.id)| + 1 + |Middle(p)| + 1;
            end <= |text| && text[i..end] == Object(p)
  {
    hide QuoteJson, Middle, Key, Object;
    MemberIsObject(p, z);
    Peel(text, i, Object(p), "}" + z);
    ObjectText(p);
  }

  /** A brace in the id is the first one the search meets. */
  lemma BraceInId(text: Bytes, c: nat, p: Peer, z: Bytes)
    requires c <= |text| && text[c..] == AfterKey(p, z) && '}' in p.id
    ensures var close := FindFrom(text, "}", c);
            close.Some? && c <= close.value < c + |QuoteJson(p.id)| && c + |QuoteJson(p.id)| <= |text|
  {
    hide QuoteJson, AfterId, FindFrom;
    var q := QuoteJson(p.id);
    Peel(text, c, q, AfterId(p, z));
    var k := BracePosition(p.id);
    assert text[c + k] == text[c..c + |q|][k];
    assert text[c + k..c + k + 1] == "}";
    assert At(text, c + k, "}");
    var close := FindFrom(text, "}", c);
    assert close.Some? && close.value <= c + k;
  }

  lemma {:induction false} BraceInEscape(id: Bytes) returns (k: nat)
    requires '}' in id
    ensures k < |Escape(id)| && Escape(id)[k] == '}'
  {
    if id[0] == '}' {
      k := 0;
    } else {
      var j := BraceInEscape(id[1..]);
      k := |EscapeByte(id[0])| + j;
    }
  }

  lemma BracePosition(id: Bytes) returns (k: nat)
    requires '}' in id
    ensures k < |QuoteJson(id)| && QuoteJson(id)[k] == '}'
  {
    QuoteIsEscape(id);
    var j := BraceInEscape(id);
    k := j + 1;
  }

  /** Cut short inside its id, an object shows no field. */
  lemma CutObjectReads(text: Bytes, i: nat, p: Peer, z: Bytes, end: nat)
    requires MemberHere(text, i, p, z) && i < end <= i + 1 + |Key("id")| + |QuoteJson(p.id)| && end <= |text|
    ensures ReadPeer(p.id, text[i..end]) == Peer(p.id, 0, Voter)
  {
    hide QuoteJson, MemberText, Find, Key;
    NoFieldInCut(text, i, p, z, end, "role");
    NoFieldInCut(text, i, p, z, end, "host");
  }

  lemma NoFieldInCut(text: Bytes, i: nat, p: Peer, z: Bytes, end: nat, name: Bytes)
    requires MemberHere(text, i, p, z) && i < end <= i + 1 + |Key("id")| + |QuoteJson(p.id)| && end <= |text|
    requires IsName(name) && name != "id"
    ensures Find(text[i..end], Key(name)) == None
  {
    hide QuoteJson, MemberText, AfterId, Text, Middle, FindFrom;
    var head := [Piece("id", ":"), Piece(p.id, ",")];
    var y := Middle(p) + ("}}" + z);
    IdThenRest(p, z);
    IdIsOpaque(name);
    PiecesAreClear(head, y, name);
    ClearRaw("{", Text(head) + y, name);
    ClearConcat("{", Text(head), y, name);
    Regroup3("{", Text(head), y);
    assert text[i..] == "{" + Text(head) + y;
    forall j | 0 <= j <= end - i ensures !At(text[i..end], j, Key(name)) {
      AtWithin(text, i, end, j, Key(name));
    }
    FindNone(text[i..end], Key(name), 0);
  }

  lemma AtWithin(text: Bytes, i: nat, end: nat, j: nat, k: Bytes)
    requires i <= end <= |text| && k != []
    ensures At(text[i..end], j, k) ==> j < end - i && At(text[i..], j, k)
  {
    if At(text[i..end], j, k) {
      SliceOfSlice(text, i, end, j, j + |k|);
      assert text[i..][j..j + |k|] == text[i + j..i + j + |k|];
    }
  }

  lemma IdThenRest(p: Peer, z: Bytes)
    ensures var head := [Piece("id", ":"), Piece(p.id, ",")];
            && MemberText(p, z) == "{" + (Text(head) + (Middle(p) + ("}}" + z)))
            && |Text(head)| == |Key("id")| + |QuoteJson(p.id)| + 1
  {
    hide QuoteJson, Text, Middle, Key;
    var head := [Piece("id", ":"), Piece(p.id, ",")];
    var y := Middle(p) + ("}}" + z);
    IdText(p.id, []);
    assert head + [] == head;
    assert Text([]) == [] by { TextEmpty(); }
    assert "," + [] == ",";
    Regroup3(QuoteJson(p.id), ",", y);
    Regroup3(Key("id"), QuoteJson(p.id) + ",", y);
  }

  lemma TextEmpty()
    ensures Text([]) == []
  {
  }

  /** One turn of the member loop, from what its searches find. */
  lemma Turn(text: Bytes, cursor: nat, i: nat, close: nat, p: Peer, n: nat)
    requires cursor <= |text| && FindFrom(text, Key("id"), cursor) == Some(i + 1)
    requires i + 1 + |Key("id")| <= |text|
    requires RFind(text[..i + 1 + |Key("id")|], '{') == Some(i)
    requires FindFrom(text, "}", i + 1 + |Key("id")|) == Some(close) && i <= close < |text|
    requires ParseJsonString(text[i + 1 + |Key("id")|..]) == Some((p.id, n))
    requires ReadPeer(p.id, text[i..close + 1]) == Seen(p)
    ensures i + 1 + |Key("id")| + n <= |text|
    ensures MembersFrom(text, cursor) == Prepend(Seen(p), MembersFrom(text, i + 1 + |Key("id")| + n))
  {
    hide ReadPeer, ParseJsonString, RFind, FindFrom, Key;
  }

  lemma FailedTurn(text: Bytes, cursor: nat, i: nat)
    requires cursor <= |text| && FindFrom(text, Key("id"), cursor) == Some(i + 1)
    requires i + 1 + |Key("id")| <= |text| && ParseJsonString(text[i + 1 + |Key("id")|..]) == None
    ensures MembersFrom(text, cursor) == None
  {
    hide ReadPeer, ParseJsonString, RFind, FindFrom, Key;
  }

  /** Where the object ends, and what is read from it. */
  lemma MemberObject(text: Bytes, i: nat, p: Peer, z: Bytes)
    requires MemberHere(text, i, p, z) && i + 1 + |Key("id")| <= |text|
    requires text[i + 1 + |Key("id")|..] == AfterKey(p, z)
    ensures var close := FindFrom(text, "}", i + 1 + |Key("id")|);
            close.Some? && i <= close.value < |text| && ReadPeer(p.id, text[i..close.value + 1]) == Seen(p)
  {
    hide QuoteJson, Middle, AfterKey, MemberText, Object, ReadPeer, FindFrom, Key;
    var c := i + 1 + |Key("id")|;
    if '}' in p.id {
      BraceInId(text, c, p, z);
      var close := FindFrom(text, "}", c);
      CutObjectReads(text, i, p, z, close.value + 1);
    } else {
      CloseOfMember(text, c, p, z);
      ObjectSlice(text, i, p, z);
      ObjectReads(p);
    }
  }

  lemma MemberStep(text: Bytes, i: nat, p: Peer, z: Bytes, cursor: nat)
    requires MemberHere(text, i, p, z)
    requires cursor <= i && forall j :: cursor <= j < i ==> !At(text, j, Key("id"))
    ensures var c := i + 1 + |Key("id")| + |QuoteJson(p.id)|;
            && c <= |text| && text[c..] == AfterId(p, z)
            && MembersFrom(text, cursor) ==
               if ReadableId(p) then Prepend(Seen(p), MembersFrom(text, c)) else None
  {
    hide QuoteJson, Middle, AfterId, MembersFrom, Object, ReadPeer, ParseJsonString, RFind, FindFrom, Seen;
    MemberOffsets(text, i, p, z);
    KeyNext(text, i, "id", cursor);
    if ReadableId(p) {
      LastOpen(text, i, Key("id"));
      MemberObject(text, i, p, z);
      QuotedParses(p.id, AfterId(p, z));
      Turn(text, cursor, i, FindFrom(text, "}", i + 1 + |Key("id")|).value, p, |QuoteJson(p.id)|);
    } else {
      UnreadableId(p, AfterId(p, z));
      FailedTurn(text, cursor, i);
    }
  }

  lemma UnreadableId(p: Peer, rest: Bytes)
    requires !ReadableId(p)
    ensures ParseJsonString(QuoteJson(p.id) + rest) == None
  {
    QuoteIsEscape(p.id);
    var k :| 0 <= k < |p.id| && !Readable(p.id[k]);
    ScanRefuses(p.id, k, "\"" + rest);
    assert (QuoteJson(p.id) + rest)[1..] == Escape(p.id) + ("\"" + rest);
  }

  /** After an id no key called `id` begins before the next member. */
  lemma NoIdInRest(text: Bytes, c: nat, p: Peer, sep: Bytes, y: Bytes)
    requires c <= |text| && text[c..] == AfterId(p, sep + y) && '"' !in sep
    ensures var i := c + 3 + |Middle(p)| + |sep|;
            i <= |text| && text[i..] == y && forall j :: c <= j < i ==> !At(text, j, Key("id"))
  {
    hide QuoteJson, Text, Middle, AfterId;
    var a := "," + Text(RestPieces(p, sep));
    AfterIdPieces(p, sep, y);
    Peel(text, c, a, y);
    RestText(p, sep);
    RestIsClear(p, sep, y);
    var i := c + |a|;
    forall j | c <= j < i ensures !At(text, j, Key("id")) {
      AtShift(text, c, j, Key("id"));
    }
  }

  lemma AtShift(text: Bytes, c: nat, j: nat, k: Bytes)
    requires c <= j <= |text|
    ensures At(text, j, k) ==> At(text[c..], j - c, k)
  {
    if At(text, j, k) {
      assert text[c..][j - c..j - c + |k|] == text[j..j + |k|];
    }
  }

  lemma AfterIdPieces(p: Peer, sep: Bytes, y: Bytes)
    ensures AfterId(p, sep + y) == ("," + Text(RestPieces(p, sep))) + y
  {
    hide QuoteJson, Text, Middle;
    RestText(p, sep);
    Regroup3("}}", sep, y);
    Regroup3(Middle(p), "}}" + sep, y);
    Regroup3(",", Middle(p) + ("}}" + sep), y);
  }

  lemma RestIsClear(p: Peer, sep: Bytes, y: Bytes)
    requires '"' !in sep
    ensures Clear("," + Text(RestPieces(p, sep)), y, "id")
  {
    hide QuoteJson, Text, Clear;
    RestIsOpaque(p, sep);
    PiecesAreClear(RestPieces(p, sep), y, "id");
    ClearRaw(",", Text(RestPieces(p, sep)) + y, "id");
    ClearConcat(",", Text(RestPieces(p, sep)), y, "id");
  }

  lemma RestIsOpaque(p: Peer, sep: Bytes)
    requires '"' !in sep
    ensures forall x :: x in RestPieces(p, sep) ==> Opaque(x, "id")
  {
    PlainName("role");
    PlainName("address");
    PlainName("host");
    PlainName("port");
    assert (":0}}" + sep)[0] == ':';
  }

  lemma MemberPiecesText(p: Peer, tail: Bytes, y: Bytes)
    ensures "{" + (Text(MemberPieces(p, tail)) + y) == MemberText(p, tail + y)
  {
    hide QuoteJson, Text, Middle, Key;
    IdText(p.id, RestPieces(p, tail));
    RestText(p, tail);
    var q := QuoteJson(p.id);
    Regroup3("}}", tail, y);
    Regroup3(Middle(p), "}}" + tail, y);
    Regroup3(",", Middle(p) + ("}}" + tail), y);
    Regroup3(q, "," + (Middle(p) + ("}}" + tail)), y);
    Regroup3(Key("id"), q + ("," + (Middle(p) + ("}}" + tail))), y);
  }

  lemma {:induction false} ListReads(text: Bytes, i: nat, members: seq<Peer>, cursor: nat)
    requires members != []
    requires i <= |text| && text[i..] == "{" + Text(ListPieces(members, []))
    requires cursor <= i && forall j :: cursor <= j < i ==> !At(text, j, Key("id"))
    ensures MembersFrom(text, cursor) == SeenAll(members)
    decreases |members|
  {
    hide QuoteJson, Text, Middle, MembersFrom, MemberText, AfterId, MemberPieces, Key, Seen, ReadableId;
    var p := members[0];
    var none: Bytes := [];
    var c := i + 1 + |Key("id")| + |QuoteJson(p.id)|;
    if |members| == 1 {
      MemberPiecesText(p, [], []);
      assert Text(MemberPieces(p, [])) + [] == Text(MemberPieces(p, []));
      assert none + none == none;
      MemberStep(text, i, p, [], cursor);
      ListEnds(text, c, p);
      assert members[1..] == [];
    } else {
      var rest := members[1..];
      var y := Text(ListPieces(rest, []));
      TextConcat(MemberPieces(p, ",{"), ListPieces(rest, []));
      MemberPiecesText(p, ",{", y);
      assert ",{" + y == "," + ("{" + y);
      MemberStep(text, i, p, "," + ("{" + y), cursor);
      NoIdInRest(text, c, p, ",", "{" + y);
      ListReads(text, c + 3 + |Middle(p)| + 1, rest, c);
    }
  }

  lemma ListEnds(text: Bytes, c: nat, p: Peer)
    requires c <= |text| && text[c..] == AfterId(p, [])
    ensures MembersFrom(text, c) == Some([])
  {
    hide QuoteJson, Text, Middle, AfterId;
    var none: Bytes := [];
    assert none + none == none;
    NoIdInRest(text, c, p, [], []);
    assert c + 3 + |Middle(p)| == |text|;
    FindNone(text, Key("id"), c);
  }

  // ---------------------------------------------------------------- sections

  lemma {:induction false} ListTail(members: seq<Peer>, tail: Bytes)
    requires members != []
    ensures Text(ListPieces(members, tail)) == Text(ListPieces(members, [])) + tail
  {
    hide QuoteJson, Text, MemberPieces;
    var p := members[0];
    if |members| == 1 {
      MemberTail(p, tail);
    } else {
      ListTail(members[1..], tail);
      TextConcat(MemberPieces(p, ",{"), ListPieces(members[1..], tail));
      TextConcat(MemberPieces(p, ",{"), ListPieces(members[1..], []));
      Regroup3(Text(MemberPieces(p, ",{")), Text(ListPieces(members[1..], [])), tail);
    }
  }

  lemma MemberTail(p: Peer, tail: Bytes)
    ensures Text(MemberPieces(p, tail)) == Text(MemberPieces(p, [])) + tail
  {
    hide QuoteJson, Text, Five;
    var head := [Piece("id", ":"), Piece(p.id, ",")] + Five(p);
    LastRaw(head, "port", ":0}}", tail);
    PortLast(p, tail);
    PortLast(p, []);
    assert ":0}}" + [] == ":0}}";
  }

  lemma PortLast(p: Peer, tail: Bytes)
    ensures MemberPieces(p, tail) == [Piece("id", ":"), Piece(p.id, ",")] + Five(p) + [Piece("port", ":0}}" + tail)]
  {
    hide QuoteJson;
  }

  lemma {:induction false} ListRaws(members: seq<Peer>)
    requires members != []
    ensures forall x :: x in ListPieces(members, []) ==> '"' !in x.raw && ']' !in x.raw
  {
    hide QuoteJson, RoleName, Host;
    MemberRaws(members[0], []);
    MemberRaws(members[0], ",{");
    if |members| > 1 {
      ListRaws(members[1..]);
    }
  }

  lemma MemberRaws(p: Peer, tail: Bytes)
    requires '"' !in tail && ']' !in tail
    ensures forall x :: x in MemberPieces(p, tail) ==> '"' !in x.raw && ']' !in x.raw
  {
  }

  /** Names outside a member's own five are never found in a list of members. */
  predicate Outside(name: Bytes) {
    IsName(name) && name != "id" && name != "role" && name != "address" && name != "host" && name != "port"
  }

  lemma {:induction false} ListIsOpaque(members: seq<Peer>, tail: Bytes, name: Bytes)
    requires members != [] && Outside(name) && '"' !in tail
    ensures forall x :: x in ListPieces(members, tail) ==> Opaque(x, name)
  {
    MemberIsOpaque(members[0], tail, name);
    MemberIsOpaque(members[0], ",{", name);
    if |members| > 1 {
      ListIsOpaque(members[1..], tail, name);
    }
  }

  lemma MemberIsOpaque(p: Peer, tail: Bytes, name: Bytes)
    requires Outside(name) && '"' !in tail
    ensures forall x :: x in MemberPieces(p, tail) ==> Opaque(x, name)
  {
    IdIsOpaque(name);
    PlainName("port");
    assert (":0}}" + tail)[0] == ':';
  }

  lemma SectionIsOpaque(key: Bytes, members: seq<Peer>, name: Bytes)
    requires Outside(name) && IsName(key) && key != name
    ensures forall x :: x in Section(key, members) ==> Opaque(x, name)
  {
    PlainName(key);
    if members != [] {
      ListIsOpaque(members, "],", name);
    }
  }

  /** The array of a section ends where its members end. */
  lemma SectionEnds(rest: Bytes, list: Bytes, members: seq<Peer>, y: Bytes)
    requires rest == list + ("]" + y)
    requires list == if members == [] then [] else "{" + Text(ListPieces(members, []))
    ensures ArrayEnd(rest, false, false) == Some(|list|)
  {
    hide QuoteJson, Text, ListPieces;
    if members != [] {
      var l := Text(ListPieces(members, []));
      ListRaws(members);
      EndSkipsPieces(ListPieces(members, []), "]" + y);
      Regroup3("{", l, "]" + y);
      EndSkipsRaw("{", l + ("]" + y));
    } else {
      assert rest == "]" + y;
    }
  }

  lemma SectionReads(a: seq<Piece>, name: Bytes, members: seq<Peer>, b: seq<Piece>)
    requires IsName(name) && (forall p :: p in a ==> Opaque(p, name))
    ensures MemberIds("{" + Text(a + (Section(name, members) + b)), name) == SeenAll(members)
  {
    hide QuoteJson, Text, ListPieces, ArrayEnd, MembersFrom, MemberIds, Find, Key, Opaque, SeenAll;
    var s := Section(name, members) + b;
    KeyFound("{", a, s, name, "[");
    var list := if members == [] then [] else "{" + Text(ListPieces(members, []));
    var y := "," + Text(b);
    SectionRest(name, members, b, list, y);
    SectionEnds(list + ("]" + y), list, members, y);
    SectionList(list, members);
    IdsAt("{" + Text(a + s), name, 1 + |Text(a)|, list, "]" + y);
  }

  lemma IdsAt(text: Bytes, name: Bytes, at: nat, list: Bytes, tail: Bytes)
    requires Find(text, Key(name) + "[") == Some(at)
    requires at + |Key(name)| <= |text| && text[at + |Key(name)|..] == "[" + (list + tail)
    requires ArrayEnd(list + tail, false, false) == Some(|list|)
    ensures MemberIds(text, name) == MembersFrom(list, 0)
  {
    hide ArrayEnd, MembersFrom, Find, Key;
    Peel(text, at + |Key(name)|, "[", list + tail);
    assert |Key(name) + "["| == |Key(name)| + 1;
    assert (list + tail)[..|list|] == list;
  }

  lemma SectionRest(name: Bytes, members: seq<Peer>, b: seq<Piece>, list: Bytes, y: Bytes)
    requires list == if members == [] then [] else "{" + Text(ListPieces(members, []))
    requires y == "," + Text(b)
    ensures var s := Section(name, members) + b;
            s[0].raw[1..] + Text(s[1..]) == "[" + (list + ("]" + y))
  {
    hide QuoteJson, Text, ListPieces;
    var s := Section(name, members) + b;
    if members == [] {
      assert s[1..] == b;
      assert s[0].raw[1..] == "[],";
      assert "[]," + Text(b) == "[" + ("]" + ("," + Text(b)));
      assert list + ("]" + y) == "]" + y;
    } else {
      var l := Text(ListPieces(members, []));
      assert s[1..] == ListPieces(members, "],") + b;
      TextConcat(ListPieces(members, "],"), b);
      ListTail(members, "],");
      assert s[0].raw[1..] == "[{";
      assert "]," + Text(b) == "]" + y;
      Regroup3(l, "],", Text(b));
      Regroup3("{", l, "]" + y);
      Regroup3("[", "{", l + ("]" + y));
      assert "[" + "{" == "[{";
    }
  }

  lemma SectionList(list: Bytes, members: seq<Peer>)
    requires list == if members == [] then [] else "{" + Text(ListPieces(members, []))
    ensures MembersFrom(list, 0) == SeenAll(members)
  {
    hide QuoteJson, Text, ListPieces;
    if members == [] {
      FindNone(list, Key("id"), 0);
    } else {
      assert list[0..] == list;
      ListReads(list, 0, members, 0);
    }
  }

  // ---------------------------------------------------------------- the envelope

  function KnownEpoch(epoch: nat): nat {
    if epoch < 0x1_0000_0000_0000_0000 then epoch else 0
  }

  lemma EnvelopeNames()
    ensures IsName(EPOCH) && Outside(CURRENT) && Outside(NEXT) && Outside(STATE)
    ensures CURRENT != "version" && NEXT != "version" && STATE != "version" && EPOCH != "version"
    ensures EPOCH != CURRENT && EPOCH != NEXT && EPOCH != STATE
    ensures CURRENT != NEXT && CURRENT != STATE && NEXT != STATE
  {
    NamesDiffer(EPOCH, CURRENT);
    NamesDiffer(EPOCH, NEXT);
    NamesDiffer(CURRENT, NEXT);
  }

  lemma NamesDiffer(a: Bytes, b: Bytes)
    requires a != [] && b != [] && a[0] != b[0]
    ensures a != b
  {
  }

  lemma PreambleIsOpaque(epoch: nat, name: Bytes)
    requires IsName(name) && name != "version" && name != EPOCH
    ensures forall x :: x in Preamble(epoch) ==> Opaque(x, name)
  {
    PlainName("version");
    PlainName(EPOCH);
    DecimalReadsBack(epoch);
    var raw := ":" + Decimal(epoch) + ",";
    assert raw[0] == ':';
    forall c | c in raw ensures c != '"' {
      assert c == ':' || c in Decimal(epoch) || c == ',';
      assert c in Decimal(epoch) ==> IsDigit(c);
    }
  }

  /** The epoch that a reader takes from a text. */
  function EpochOf(text: Bytes): nat {
    var r := UnsignedField(text, EPOCH);
    if r == None then 0 else r.value
  }

  lemma EpochReads(epoch: nat, b: seq<Piece>)
    ensures EpochOf("{" + Text(Preamble(epoch) + b)) == KnownEpoch(epoch)
  {
    hide QuoteJson, Text, Find, Key, Decimal, UnsignedField, IsName, Outside;
    EnvelopeNames();
    VersionIsOpaque();
    var a := [Piece("version", ":1,")];
    var rest := Preamble(epoch)[1..] + b;
    assert Preamble(epoch) + b == a + rest;
    assert rest[1..] == b;
    KeyFound("{", a, rest, EPOCH, []);
    assert Key(EPOCH) + [] == Key(EPOCH);
    var d := Decimal(epoch);
    assert (":" + d + ",")[1..] == d + ",";
    Regroup3(d, ",", Text(b));
    UnsignedAt("{" + Text(a + rest), EPOCH, 1 + |Text(a)|, epoch, "," + Text(b));
  }

  lemma VersionIsOpaque()
    ensures Opaque(Piece("version", ":1,"), EPOCH)
  {
    EnvelopeNames();
    PlainName("version");
  }

  lemma UnsignedAt(text: Bytes, name: Bytes, at: nat, n: nat, after: Bytes)
    requires Find(text, Key(name)) == Some(at) && at + |Key(name)| <= |text|
    requires text[at + |Key(name)|..] == Decimal(n) + after && after != [] && !IsDigit(after[0])
    ensures UnsignedField(text, name) == if n < 0x1_0000_0000_0000_0000 then Some(n) else None
  {
    hide Find, Key, Decimal, DecimalValue, DigitRun;
    DecimalReadsBack(n);
    RunOfDigits(Decimal(n), after);
    assert (Decimal(n) + after)[..|Decimal(n)|] == Decimal(n);
  }

  lemma StateReads(a: seq<Piece>, state: Bytes)
    requires forall x :: x in a ==> Opaque(x, STATE)
    ensures StringField("{" + Text(a + StatePieces(state)), STATE) == Some(Base64.Encode(state))
  {
    hide QuoteJson, Text, StringField, Opaque, IsName;
    EnvelopeNames();
    Base64.EncodeIsAlphabetic(state);
    var v := Base64.Encode(state);
    forall c | c in v ensures !Special(c) && Readable(c) {
      assert Base64.Digit(c).Some?;
    }
    FieldReads("{", a, STATE, v, "}", []);
    assert [Piece(STATE, ":"), Piece(v, "}")] + [] == StatePieces(state);
  }

  /** The envelope with one of its three searched parts set apart. */
  lemma WrapSplits(current: seq<Peer>, next: seq<Peer>, epoch: nat, state: Bytes)
    ensures var c, n := Section(CURRENT, current), Section(NEXT, next);
            var e, t := Preamble(epoch), StatePieces(state);
            && Wrap(current, next, epoch, state) == "{" + Text(e + (c + (n + t)))
            && Wrap(current, next, epoch, state) == "{" + Text((e + c) + (n + t))
            && Wrap(current, next, epoch, state) == "{" + Text((e + c + n) + t)
  {
    hide Text, Section, Preamble, StatePieces;
    var c, n := Section(CURRENT, current), Section(NEXT, next);
    var e, t := Preamble(epoch), StatePieces(state);
    assert e + (c + (n + t)) == e + c + n + t;
    assert (e + c) + (n + t) == e + c + n + t;
  }

  lemma WrapOpaque(current: seq<Peer>, next: seq<Peer>, epoch: nat)
    ensures var c, n := Section(CURRENT, current), Section(NEXT, next);
            && (forall x :: x in Preamble(epoch) ==> Opaque(x, CURRENT))
            && (forall x :: x in Preamble(epoch) + c ==> Opaque(x, NEXT))
            && (forall x :: x in Preamble(epoch) + c + n ==> Opaque(x, STATE))
  {
    hide Section, Preamble, Opaque, IsName;
    EnvelopeNames();
    PreambleIsOpaque(epoch, CURRENT);
    PreambleIsOpaque(epoch, NEXT);
    PreambleIsOpaque(epoch, STATE);
    SectionIsOpaque(CURRENT, current, NEXT);
    SectionIsOpaque(CURRENT, current, STATE);
    SectionIsOpaque(NEXT, next, STATE);
  }

  lemma EpochOfWrap(current: seq<Peer>, next: seq<Peer>, epoch: nat, state: Bytes)
    ensures EpochOf(Wrap(current, next, epoch, state)) == KnownEpoch(epoch)
  {
    hide Text, Section, Preamble, StatePieces, EpochOf, Wrap, KnownEpoch;
    WrapSplits(current, next, epoch, state);
    EpochReads(epoch, Section(CURRENT, current) + (Section(NEXT, next) + StatePieces(state)));
  }

  lemma MembersOfWrap(current: seq<Peer>, next: seq<Peer>, epoch: nat, state: Bytes)
    ensures MemberIds(Wrap(current, next, epoch, state), CURRENT) == SeenAll(current)
    ensures MemberIds(Wrap(current, next, epoch, state), NEXT) == SeenAll(next)
  {
    hide Text, Section, Preamble, StatePieces, MemberIds, SeenAll, Opaque, Wrap, IsName;
    EnvelopeNames();
    var c, n := Section(CURRENT, current), Section(NEXT, next);
    var e, t := Preamble(epoch), StatePieces(state);
    WrapSplits(current, next, epoch, state);
    WrapOpaque(current, next, epoch);
    SectionReads(e, CURRENT, current, n + t);
    SectionReads(e + c, NEXT, next, t);
  }

  lemma StateOfWrap(current: seq<Peer>, next: seq<Peer>, epoch: nat, state: Bytes)
    ensures StringField(Wrap(current, next, epoch, state), STATE) == Some(Base64.Encode(state))
  {
    hide Text, Section, Preamble, StatePieces, StringField, Opaque, Wrap;
    WrapSplits(current, next, epoch, state);
    WrapOpaque(current, next, epoch);
    StateReads(Preamble(epoch) + Section(CURRENT, current) + Section(NEXT, next), state);
  }

  lemma {:induction false} AsciiIsUtf8(text: Bytes)
    requires forall c :: c in text ==> IsAscii(c)
    ensures ValidUtf8(text)
  {
    if text != [] {
      assert text[0] in text;
      forall c | c in text[1..] ensures IsAscii(c) {
        assert c in text;
      }
      AsciiIsUtf8(text[1..]);
    }
  }

  lemma {:induction false} TextIsAscii(pieces: seq<Piece>)
    requires forall p :: p in pieces ==> AsciiPiece(p)
    ensures forall c :: c in Text(pieces) ==> IsAscii(c)
  {
    if pieces != [] {
      assert pieces[0] in pieces;
      QuoteIsAscii(pieces[0].value);
      forall p | p in pieces[1..] ensures AsciiPiece(p) {
        assert p in pieces;
      }
      TextIsAscii(pieces[1..]);
    }
  }

  predicate AsciiPiece(p: Piece) {
    (forall c :: c in p.value ==> IsAscii(c)) && (forall c :: c in p.raw ==> IsAscii(c))
  }

  lemma QuoteIsAscii(v: Bytes)
    requires forall c :: c in v ==> IsAscii(c)
    ensures forall c :: c in QuoteJson(v) ==> IsAscii(c)
  {
    QuoteIsEscape(v);
    EscapeIsAscii(v);
  }

  lemma {:induction false} EscapeIsAscii(v: Bytes)
    requires forall c :: c in v ==> IsAscii(c)
    ensures forall c :: c in Escape(v) ==> IsAscii(c)
  {
    if v != [] {
      assert v[0] in v;
      forall c | c in v[1..] ensures IsAscii(c) {
        assert c in v;
      }
      EscapeIsAscii(v[1..]);
    }
  }

  lemma MemberIsAscii(p: Peer, tail: Bytes)
    requires ReadableId(p) && forall c :: c in tail ==> IsAscii(c)
    ensures forall x :: x in MemberPieces(p, tail) ==> AsciiPiece(x)
  {
    hide Host, RoleName;
    HostIsPlain(p);
    NamesAreAscii(tail);
  }

  lemma NamesAreAscii(tail: Bytes)
    requires forall c :: c in tail ==> IsAscii(c)
    ensures AsciiPiece(Piece("id", ":")) && AsciiPiece(Piece("role", ":")) && AsciiPiece(Piece("address", ":{"))
    ensures AsciiPiece(Piece("host", ":")) && AsciiPiece(Piece("port", ":0}}" + tail))
  {
  }

  lemma {:induction false} ListIsAscii(members: seq<Peer>, tail: Bytes)
    requires members != [] && SeenAll(members).Some? && forall c :: c in tail ==> IsAscii(c)
    ensures forall x :: x in ListPieces(members, tail) ==> AsciiPiece(x)
  {
    hide MemberPieces, AsciiPiece;
    MemberIsAscii(members[0], tail);
    MemberIsAscii(members[0], ",{");
    if |members| > 1 {
      ListIsAscii(members[1..], tail);
    }
  }

  lemma SectionIsAscii(name: Bytes, members: seq<Peer>)
    requires SeenAll(members).Some? && IsName(name)
    ensures forall x :: x in Section(name, members) ==> AsciiPiece(x)
  {
    if members != [] {
      ListIsAscii(members, "],");
    }
  }

  lemma WrapIsUtf8(current: seq<Peer>, next: seq<Peer>, epoch: nat, state: Bytes)
    requires SeenAll(current).Some? && SeenAll(next).Some?
    ensures ValidUtf8(Wrap(current, next, epoch, state))
  {
    hide Text, Section, AsciiPiece, ValidUtf8, SeenAll, Preamble, StatePieces, IsName;
    EnvelopeNames();
    SectionIsAscii(CURRENT, current);
    SectionIsAscii(NEXT, next);
    EndsAreAscii(epoch, state);
    var all := Preamble(epoch) + Section(CURRENT, current) + Section(NEXT, next)
               + StatePieces(state);
    TextIsAscii(all);
    AsciiIsUtf8("{" + Text(all));
  }

  lemma EndsAreAscii(epoch: nat, state: Bytes)
    ensures forall x :: x in Preamble(epoch) ==> AsciiPiece(x)
    ensures forall x :: x in StatePieces(state) ==> AsciiPiece(x)
  {
    hide Decimal, IsName, IsLetter, IsAscii;
    EnvelopeNames();
    DecimalIsAscii(epoch);
    StateIsAscii(state);
    NameIsAscii(EPOCH);
    NameIsAscii(STATE);
    assert AsciiPiece(Piece("version", ":1,")) by { VersionIsAscii(); }
    ColonIsAscii();
  }

  lemma VersionIsAscii()
    ensures AsciiPiece(Piece("version", ":1,"))
  {
  }

  lemma ColonIsAscii()
    ensures IsAscii(':') && IsAscii('}')
  {
  }

  lemma NameIsAscii(name: Bytes)
    requires IsName(name)
    ensures forall c :: c in name ==> IsAscii(c)
  {
  }

  lemma DecimalIsAscii(n: nat)
    ensures forall c :: c in ":" + Decimal(n) + "," ==> IsAscii(c)
  {
    DecimalReadsBack(n);
    forall c | c in ":" + Decimal(n) + "," ensures IsAscii(c) {
      assert c == ':' || c in Decimal(n) || c == ',';
      assert c in Decimal(n) ==> IsDigit(c);
    }
  }

  lemma StateIsAscii(state: Bytes)
    ensures forall c :: c in Base64.Encode(state) ==> IsAscii(c)
  {
    Base64.EncodeIsAlphabetic(state);
    forall c | c in Base64.Encode(state) ensures IsAscii(c) {
      assert Base64.Digit(c).Some?;
    }
  }

  /** Decoding a printed envelope, for every epoch, every member and every state. */
  lemma DecodeOfWrap(current: seq<Peer>, next: seq<Peer>, epoch: nat, state: Bytes)
    ensures Decode(Wrap(current, next, epoch, state)) ==
            if SeenAll(current) == None || SeenAll(next) == None then None
            else Some(Envelope(KnownEpoch(epoch), SeenAll(current).value, SeenAll(next).value, state))
  {
    hide Wrap, UnsignedField, MemberIds, StringField, SeenAll, ValidUtf8, KnownEpoch;
    EpochOfWrap(current, next, epoch, state);
    MembersOfWrap(current, next, epoch, state);
    StateOfWrap(current, next, epoch, state);
    Base64.RoundTrip(state);
    if SeenAll(current) != None && SeenAll(next) != None {
      WrapIsUtf8(current, next, epoch, state);
    }
  }

  /** A member that survives: readable characters, and nothing for a brace in the id to hide. */
  predicate Faithful(p: Peer) {
    ReadableId(p) && ('}' in p.id ==> p.service == 0 && p.suffrage == Voter)
  }

  lemma {:induction false} SeenAllFaithful(members: seq<Peer>)
    ensures SeenAll(members) == Some(members) <==> forall p :: p in members ==> Faithful(p)
  {
    if members != [] {
      var rest := members[1..];
      SeenAllFaithful(rest);
      assert members == [members[0]] + rest;
      if SeenAll(members) == Some(members) {
        assert SeenAll(rest).value == members[1..];
        assert Seen(members[0]) == members[0];
        assert Faithful(members[0]);
        forall p | p in members ensures Faithful(p) {
          assert p == members[0] || p in rest;
        }
      }
      if forall p :: p in members ==> Faithful(p) {
        assert members[0] in members;
        forall p | p in rest ensures Faithful(p) {
          assert p in members;
        }
      }
    }
  }

  /** The round trip holds for exactly the envelopes whose epoch and members are faithful. */
  lemma RoundTrip(current: seq<Peer>, next: seq<Peer>, epoch: nat, state: Bytes)
    ensures Decode(Wrap(current, next, epoch, state)) == Some(Envelope(epoch, current, next, state))
       <==> && epoch < 0x1_0000_0000_0000_0000
            && (forall p :: p in current ==> Faithful(p)) && (forall p :: p in next ==> Faithful(p))
  {
    hide Wrap, Decode, Faithful, SeenAll;
    DecodeOfWrap(current, next, epoch, state);
    SeenAllFaithful(current);
    SeenAllFaithful(next);
  }

  /** A learner whose id holds a closing brace comes back as a voter without a service name. */
  lemma BraceLosesRole(service: u64, state: Bytes)
    ensures Decode(Wrap([Peer("}", service, Learner)], [], 1, state))
            == Some(Envelope(1, [Peer("}", 0, Voter)], [], state))
  {
    hide Wrap, Decode;
    var p := Peer("}", service, Learner);
    DecodeOfWrap([p], [], 1, state);
    assert '}' in p.id && ReadableId(p);
    assert [p][1..] == [];
    assert SeenAll([p]) == Prepend(Seen(p), SeenAll([]));
    assert [Seen(p)] + [] == [Peer("}", 0, Voter)];
  }

  /** One id with a byte outside ASCII loses the whole envelope, application state included. */
  lemma ForeignIdLosesEnvelope(id: Bytes, service: u64, s: Suffrage, state: Bytes)
    requires exists i :: 0 <= i < |id| && !Readable(id[i])
    ensures Decode(Wrap([Peer(id, service, s)], [], 1, state)) == None
  {
    hide Wrap, Decode;
    var p := Peer(id, service, s);
    DecodeOfWrap([p], [], 1, state);
    var i :| 0 <= i < |id| && !Readable(id[i]);
    assert id[i] in p.id;
    assert !ReadableId(p);
  }
}
