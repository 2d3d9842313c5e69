/** `snapshot_codec.rs`: the cursor loops of the parser, each against the function it computes. */
module CodecLoops {
  import opened Basics
  import opened RaftTypes
  import opened Json
  import opened SnapshotCodec

  /** A scan resumed after `n` bytes that spelled `out`. */
  ghost function Resumed(out: Bytes, n: nat, r: Option<(Bytes, nat)>): Option<(Bytes, nat)> {
    if r == None then None else Some((out + r.value.0, n + r.value.1))
  }

  lemma ResumedPush(out: Bytes, n: nat, c: byte, r: Option<(Bytes, nat)>)
    ensures Resumed(out, n, Push(c, r)) == Resumed(out + [c], n + 1, r)
  {
    if r.Some? {
      assert out + ([c] + r.value.0) == out + [c] + r.value.0;
    }
  }

  lemma ResumedSkip(out: Bytes, n: nat, r: Option<(Bytes, nat)>)
    ensures Resumed(out, n, Skip(r)) == Resumed(out, n + 1, r)
  {
  }

  method ParseString(text: Bytes) returns (r: Option<(Bytes, nat)>)
    ensures r == ParseJsonString(text)
  {
    if text == [] || text[0] != '"' {
      return None;
    }
    var out: Bytes, escaped, offset := [], false, 1;
    ResumedSkip([], 0, ScanString(text[1..], false));
    ResumedNothing(ParseJsonString(text));
    while offset < |text|
      invariant 1 <= offset <= |text|
      invariant ParseJsonString(text) == Resumed(out, offset, ScanString(text[offset..], escaped))
    {
      hide ParseJsonString, Resumed, Push, Skip;
      var c := text[offset];
      assert text[offset..][1..] == text[offset + 1..];
      if escaped {
        var u := Unescape(c);
        if u == None {
          ResumedNone(out, offset);
          return None;
        }
        ResumedPush(out, offset, u.value, ScanString(text[offset + 1..], false));
        out, escaped := out + [u.value], false;
      } else if c == '\\' {
        ResumedSkip(out, offset, ScanString(text[offset + 1..], true));
        escaped := true;
      } else if c == '"' {
        ResumedEnd(out, offset);
        return Some((out, offset + 1));
      } else if IsControl(c) || !IsAscii(c) {
        ResumedNone(out, offset);
        return None;
      } else {
        ResumedPush(out, offset, c, ScanString(text[offset + 1..], false));
        out := out + [c];
      }
      offset := offset + 1;
    }
    return None;
  }

  lemma ResumedNothing(r: Option<(Bytes, nat)>)
    ensures Resumed([], 0, r) == r
  {
    if r.Some? {
      assert [] + r.value.0 == r.value.0;
    }
  }

  lemma ResumedNone(out: Bytes, n: nat)
    ensures Resumed(out, n, None) == None
  {
  }

  lemma ResumedEnd(out: Bytes, n: nat)
    ensures Resumed(out, n, Some(([], 1))) == Some((out, n + 1))
  {
    assert out + [] == out;
  }

  method MatchingArrayEnd(text: Bytes) returns (r: Option<nat>)
    ensures r == ArrayEnd(text, false, false)
  {
    var inString, escaped := false, false;
    assert text[0..] == text;
    for offset := 0 to |text|
      invariant ArrayEnd(text, false, false) == Shift(offset, ArrayEnd(text[offset..], inString, escaped))
      invariant escaped ==> inString
    {
      var c := text[offset];
      assert text[offset..][1..] == text[offset + 1..];
      if inString {
        if escaped {
          escaped := false;
        } else if c == '\\' {
          escaped := true;
        } else if c == '"' {
          inString := false;
        }
      } else if c == '"' {
        inString := true;
      } else if c == ']' {
        return Some(offset);
      }
    }
    return None;
  }

  ghost function After(members: seq<Peer>, rest: Option<seq<Peer>>): Option<seq<Peer>> {
    if rest == None then None else Some(members + rest.value)
  }

  /** The members of an array, by searching for the next id key until there is none. */
  method CollectMembers(list: Bytes) returns (r: Option<seq<Peer>>)
    ensures r == MembersFrom(list, 0)
  {
    hide ReadPeer, ParseJsonString, RFind, FindFrom, Key, MembersFrom, After;
    var members: seq<Peer> := [];
    var cursor: nat := 0;
    AfterNothing(MembersFrom(list, 0));
    var at := FindFrom(list, Key("id"), cursor);
    while at.Some?
      invariant cursor <= |list| && at == FindFrom(list, Key("id"), cursor)
      invariant MembersFrom(list, 0) == After(members, MembersFrom(list, cursor))
      decreases |list| - cursor
    {
      var c := at.value + |Key("id")|;
      MembersUnfold(list, cursor);
      AfterNone(members);
      var open := RFind(list[..c], '{');
      if open == None {
        return None;
      }
      var close := FindFrom(list, "}", c);
      if close == None {
        return None;
      }
      var parsed := ParseString(list[c..]);
      if parsed == None {
        return None;
      }
      var p := ReadPeer(parsed.value.0, list[open.value..close.value + 1]);
      AfterMore(members, p, MembersFrom(list, c + parsed.value.1));
      members, cursor := members + [p], c + parsed.value.1;
      at := FindFrom(list, Key("id"), cursor);
    }
    MembersUnfold(list, cursor);
    AfterEnd(members);
    return Some(members);
  }

  lemma MembersUnfold(list: Bytes, cursor: nat)
    requires cursor <= |list|
    ensures var at := FindFrom(list, Key("id"), cursor);
            if at == None then MembersFrom(list, cursor) == Some([])
            else
              var c := at.value + |Key("id")|;
              && c <= |list|
              && var open, close, parsed := RFind(list[..c], '{'), FindFrom(list, "}", c), ParseJsonString(list[c..]);
                 && (open == None || close == None || parsed == None ==> MembersFrom(list, cursor) == None)
                 && (open != None && close != None && parsed != None ==>
                       && open.value <= close.value + 1 <= |list| && c + parsed.value.1 <= |list|
                       && var rest := MembersFrom(list, c + parsed.value.1);
                          MembersFrom(list, cursor) ==
                            if rest == None then None
                            else Some([ReadPeer(parsed.value.0, list[open.value..close.value + 1])] + rest.value))
  {
    hide ReadPeer, ParseJsonString, Key, FindFrom, RFind;
  }

  lemma AfterNone(members: seq<Peer>)
    ensures After(members, None) == None
  {
  }

  lemma AfterEnd(members: seq<Peer>)
    ensures After(members, Some([])) == Some(members)
  {
    assert members + [] == members;
  }

  lemma AfterNothing(rest: Option<seq<Peer>>)
    ensures After([], rest) == rest
  {
    if rest.Some? {
      assert [] + rest.value == rest.value;
    }
  }

  lemma AfterMore(members: seq<Peer>, p: Peer, rest: Option<seq<Peer>>)
    ensures After(members, if rest == None then None else Some([p] + rest.value)) == After(members + [p], rest)
  {
    if rest.Some? {
      assert members + ([p] + rest.value) == members + [p] + rest.value;
    }
  }
}
