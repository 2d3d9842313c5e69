/** The membership snapshot envelope of `snapshot_codec.rs`. */
module SnapshotCodec {
  import opened Basics
  import opened RaftTypes
  import opened Json
  import opened Numerals
  import Base64

  datatype Envelope = Envelope(epoch: nat, current: seq<Peer>, next: seq<Peer>, state: Bytes)

  const EPOCH: Bytes := "membershipEpoch"
  const CURRENT: Bytes := "currentMembers"
  const NEXT: Bytes := "nextMembers"
  const STATE: Bytes := "stateMachineSnapshot"

  // ---------------------------------------------------------------- printing

  function RoleName(s: Suffrage): Bytes {
    if s == Voter then "VOTER" else "LEARNER"
  }

  function Host(p: Peer): Bytes {
    "charlotte:" + Hex(p.service, 16)
  }

  /** `{"id":…,"role":…,"address":{"host":…,"port":0}}` without its first brace, then `tail`. */
  function MemberPieces(p: Peer, tail: Bytes): seq<Piece> {
    [Piece("id", ":"), Piece(p.id, ",")] + RestPieces(p, tail)
  }

  function RestPieces(p: Peer, tail: Bytes): seq<Piece> {
    [Piece("role", ":"), Piece(RoleName(p.suffrage), ","), Piece("address", ":{"),
     Piece("host", ":"), Piece(Host(p), ","), Piece("port", ":0}}" + tail)]
  }

  /** Members separated by commas, without the first brace. */
  function ListPieces(members: seq<Peer>, tail: Bytes): seq<Piece>
    requires members != []
  {
    if |members| == 1 then MemberPieces(members[0], tail)
    else MemberPieces(members[0], ",{") + ListPieces(members[1..], tail)
  }

  function Section(name: Bytes, members: seq<Peer>): seq<Piece> {
    if members == [] then [Piece(name, ":[],")]
    else [Piece(name, ":[{")] + ListPieces(members, "],")
  }

  function Preamble(epoch: nat): seq<Piece> {
    [Piece("version", ":1,"), Piece(EPOCH, ":" + Decimal(epoch) + ",")]
  }

  function StatePieces(state: Bytes): seq<Piece> {
    [Piece(STATE, ":"), Piece(Base64.Encode(state), "}")]
  }

  /** The printed envelope: each piece is a quoted string followed by its unquoted text. */
  function Wrap(current: seq<Peer>, next: seq<Peer>, epoch: nat, state: Bytes): Bytes {
    "{" + Text(Preamble(epoch) + Section(CURRENT, current) + Section(NEXT, next)
               + StatePieces(state))
  }

  // ---------------------------------------------------------------- reading

  /** The well-formed byte sequences of UTF-8. */
  predicate ValidUtf8(text: Bytes) {
    if text == [] then true
    else
      var b := text[0] as int;
      if b < 0x80 then ValidUtf8(text[1..])
      else if 0xC2 <= b <= 0xDF then |text| > 1 && Tail(text[1]) && ValidUtf8(text[2..])
      else if 0xE0 <= b <= 0xEF then
        && |text| > 2 && Tail(text[1]) && Tail(text[2])
        && (b == 0xE0 ==> text[1] as int >= 0xA0) && (b == 0xED ==> text[1] as int < 0xA0)
        && ValidUtf8(text[3..])
      else if 0xF0 <= b <= 0xF4 then
        && |text| > 3 && Tail(text[1]) && Tail(text[2]) && Tail(text[3])
        && (b == 0xF0 ==> text[1] as int >= 0x90) && (b == 0xF4 ==> text[1] as int < 0x90)
        && ValidUtf8(text[4..])
      else false
  }

  predicate Tail(c: byte) {
    0x80 <= c as int < 0xC0
  }

  function UnsignedField(value: Bytes, field: Bytes): Option<nat> {
    var at := Find(value, Key(field));
    if at == None then None
    else
      var rest := value[at.value + |Key(field)|..];
      var digits := DigitRun(rest);
      var n := DecimalValue(rest[..digits]);
      if digits == 0 || n >= 0x1_0000_0000_0000_0000 then None else Some(n)
  }

  /** The raw text between the quotation marks, escapes included. */
  function StringField(value: Bytes, field: Bytes): Option<Bytes> {
    var at := Find(value, Key(field));
    if at == None then None
    else
      var rest := value[at.value + |Key(field)|..];
      var parsed := ParseJsonString(rest);
      if parsed == None then None else Some(rest[1..parsed.value.1 - 1])
  }

  function Lower(c: byte): byte {
    if 'A' <= c <= 'Z' then (c as int + 32) as char else c
  }

  predicate EqIgnoreCase(a: Bytes, b: Bytes) {
    |a| == |b| && forall i :: 0 <= i < |a| ==> Lower(a[i]) == Lower(b[i])
  }

  /** Role and service name as found in the object's text; anything unreadable takes the default. */
  function ReadPeer(id: Bytes, obj: Bytes): Peer {
    var role := StringField(obj, "role");
    var host := StringField(obj, "host");
    var service :=
      if host == None || !At(host.value, 0, "charlotte:") then None else FromHex(host.value[10..]);
    Peer(id,
         if service == None then 0 else service.value,
         if role != None && EqIgnoreCase(role.value, "LEARNER") then Learner else Voter)
  }

  function MembersFrom(list: Bytes, cursor: nat): Option<seq<Peer>>
    requires cursor <= |list|
    decreases |list| - cursor
  {
    var at := FindFrom(list, Key("id"), cursor);
    if at == None then Some([])
    else
      var c := at.value + |Key("id")|;
      var open := RFind(list[..c], '{');
      var close := FindFrom(list, "}", c);
      if open == None || close == None then None
      else
        var obj := list[open.value..close.value + 1];
        var parsed := ParseJsonString(list[c..]);
        if parsed == None then None
        else
          var rest := MembersFrom(list, c + parsed.value.1);
          if rest == None then None
          else Some([ReadPeer(parsed.value.0, obj)] + rest.value)
  }

  function MemberIds(value: Bytes, field: Bytes): Option<seq<Peer>> {
    var at := Find(value, Key(field) + "[");
    if at == None then None
    else
      var rest := value[at.value + |Key(field)| + 1..];
      var end := ArrayEnd(rest, false, false);
      if end == None then None else MembersFrom(rest[..end.value], 0)
  }

  function Decode(payload: Bytes): Option<Envelope> {
    if !ValidUtf8(payload) then None
    else
      var epoch := UnsignedField(payload, EPOCH);
      var current := MemberIds(payload, CURRENT);
      var next := MemberIds(payload, NEXT);
      var text := StringField(payload, STATE);
      if current == None || next == None || text == None then None
      else
        var state := Base64.Decode(text.value);
        if state == None then None
        else Some(Envelope(if epoch == None then 0 else epoch.value, current.value, next.value, state.value))
  }
}
