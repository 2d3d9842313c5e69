/** `log_store.rs`: a log whose prefix a snapshot may have replaced. */
module LogStore {
  import opened Basics
  import opened RaftTypes

  /** `entries` follow the snapshot boundary `base`; `image` is the snapshot itself. */
  datatype Log = Log(base: nat, baseTerm: nat, image: Bytes, entries: seq<Entry>)

  const EMPTY := Log(0, 0, [], [])

  function LastIndex(l: Log): nat {
    l.base + |l.entries|
  }

  function LastTermIn(l: Log): nat {
    if l.entries == [] then l.baseTerm else l.entries[|l.entries| - 1].term
  }

  function TermAt(l: Log, index: nat): nat {
    if index == 0 then 0
    else if index == l.base then l.baseTerm
    else if l.base < index <= LastIndex(l) then l.entries[index - l.base - 1].term
    else 0
  }

  function EntryAt(l: Log, index: nat): Option<Entry> {
    if l.base < index <= LastIndex(l) then Some(l.entries[index - l.base - 1]) else None
  }

  function AppendAll(l: Log, es: seq<Entry>): Log {
    l.(entries := l.entries + es)
  }

  function TruncateFrom(l: Log, index: nat): Log {
    if l.base < index <= LastIndex(l) then l.(entries := l.entries[..index - l.base - 1]) else l
  }

  function EntriesFrom(l: Log, index: nat): seq<Entry> {
    if index > LastIndex(l) then []
    else if index <= l.base then l.entries
    else l.entries[index - l.base - 1..]
  }

  /** What stays of the entries when a snapshot ending at `index` in `term` is installed. */
  function Retained(l: Log, index: nat, term: nat): seq<Entry> {
    if index == l.base && term == l.baseTerm then l.entries
    else if l.base < index <= LastIndex(l) && l.entries[index - l.base - 1].term == term then
      l.entries[index - l.base..]
    else []
  }

  function InstallSnapshot(l: Log, index: nat, term: nat, image: Bytes): Log {
    Log(index, term, image, Retained(l, index, term))
  }

  // ---------------------------------------------------------------- the whole log behind a store

  /** The store holds `h` from its base on. */
  ghost predicate Represents(l: Log, h: seq<Entry>) {
    l.base <= |h| && l.baseTerm == TermOf(h, l.base) && l.entries == h[l.base..]
  }

  lemma QueriesAgree(l: Log, h: seq<Entry>)
    requires Represents(l, h)
    ensures LastIndex(l) == |h| && LastTermIn(l) == LastTerm(h)
    ensures forall i: nat :: l.base <= i <= |h| ==> TermAt(l, i) == TermOf(h, i)
    ensures forall i: nat :: l.base < i <= |h| ==> EntryAt(l, i) == Some(h[i - 1])
    ensures forall i: nat :: l.base < i <= |h| + 1 ==> EntriesFrom(l, i) == h[i - 1..]
  {
  }

  lemma AppendRepresents(l: Log, h: seq<Entry>, es: seq<Entry>)
    requires Represents(l, h)
    ensures Represents(AppendAll(l, es), h + es)
  {
    assert (h + es)[l.base..] == h[l.base..] + es;
  }

  lemma TruncateRepresents(l: Log, h: seq<Entry>, index: nat)
    requires Represents(l, h) && l.base < index <= |h|
    ensures Represents(TruncateFrom(l, index), h[..index - 1])
  {
    assert h[..index - 1][l.base..] == h[l.base..][..index - l.base - 1];
  }

  /** A snapshot of the log's own prefix hides that prefix and changes nothing else. */
  lemma CompactRepresents(l: Log, h: seq<Entry>, index: nat, image: Bytes)
    requires Represents(l, h) && l.base <= index <= |h|
    ensures Represents(InstallSnapshot(l, index, TermOf(h, index), image), h)
  {
    if l.base < index {
      assert l.entries[index - l.base - 1] == h[index - 1];
      assert h[l.base..][index - l.base..] == h[index..];
    }
  }

  /** A snapshot whose boundary the log does not hold replaces everything. */
  lemma ReplaceRepresents(l: Log, h: seq<Entry>, p: seq<Entry>, image: Bytes)
    requires Represents(l, h) && l.base < |p|
    requires |p| <= |h| ==> TermOf(h, |p|) != TermOf(p, |p|)
    ensures Represents(InstallSnapshot(l, |p|, TermOf(p, |p|), image), p)
  {
    if |p| <= |h| {
      assert l.entries[|p| - l.base - 1] == h[|p| - 1];
    }
  }

  // ---------------------------------------------------------------- the store itself

  class InMemoryLogStore {
    var entries: seq<Entry>
    var snapshotIndex: nat
    var snapshotTerm: nat
    var snapshotBytes: Bytes

    ghost function Contents(): Log
      reads this
    {
      Log(snapshotIndex, snapshotTerm, snapshotBytes, entries)
    }

    constructor ()
      ensures Contents() == EMPTY
    {
      entries, snapshotIndex, snapshotTerm, snapshotBytes := [], 0, 0, [];
    }

    /** A store reopened on what an earlier one had written. */
    constructor Reopen(l: Log)
      ensures Contents() == l
    {
      entries, snapshotIndex, snapshotTerm, snapshotBytes := l.entries, l.base, l.baseTerm, l.image;
    }

    method Reset()
      modifies this
      ensures Contents() == EMPTY
    {
      entries := [];
      snapshotIndex := 0;
      snapshotTerm := 0;
      snapshotBytes := [];
    }

    method GetLastIndex() returns (r: nat)
      ensures r == LastIndex(Contents())
    {
      if entries == [] {
        r := snapshotIndex;
      } else {
        r := snapshotIndex + |entries|;
      }
    }

    method GetLastTerm() returns (r: nat)
      ensures r == LastTermIn(Contents())
    {
      if entries == [] {
        r := snapshotTerm;
      } else {
        r := entries[|entries| - 1].term;
      }
    }

    method GetTermAt(index: nat) returns (r: nat)
      ensures r == TermAt(Contents(), index)
    {
      if index == 0 {
        return 0;
      }
      if index == snapshotIndex {
        return snapshotTerm;
      }
      if index > snapshotIndex {
        var offset := index - snapshotIndex - 1;
        if offset < |entries| {
          return entries[offset].term;
        }
      }
      return 0;
    }

    method GetEntryAt(index: nat) returns (r: Option<Entry>)
      ensures r == EntryAt(Contents(), index)
    {
      if index <= snapshotIndex {
        return None;
      }
      var offset := index - snapshotIndex - 1;
      r := if offset < |entries| then Some(entries[offset]) else None;
    }

    method Append(es: seq<Entry>)
      modifies this
      ensures Contents() == AppendAll(old(Contents()), es)
    {
      entries := entries + es;
    }

    method Truncate(index: nat)
      modifies this
      ensures Contents() == TruncateFrom(old(Contents()), index)
    {
      if index <= snapshotIndex {
        return;
      }
      var offset := index - snapshotIndex - 1;
      if offset < |entries| {
        entries := entries[..offset];
      }
    }

    method GetEntriesFrom(index: nat) returns (r: seq<Entry>)
      ensures r == EntriesFrom(Contents(), index)
    {
      var last := GetLastIndex();
      if index > last {
        return [];
      }
      var offset := if index <= snapshotIndex then 0 else index - snapshotIndex - 1;
      r := entries[offset..];
    }

    method Install(index: nat, term: nat, image: Bytes)
      modifies this
      ensures Contents() == InstallSnapshot(old(Contents()), index, term, image)
    {
      var retainFrom: Option<nat> := None;
      if index == snapshotIndex && term == snapshotTerm {
        retainFrom := Some(0);
      } else if index > snapshotIndex {
        var offset := index - snapshotIndex - 1;
        if offset < |entries| && entries[offset].term == term {
          retainFrom := Some(offset + 1);
        }
      }
      if retainFrom.Some? {
        entries := entries[retainFrom.value..];
      } else {
        entries := [];
      }
      snapshotIndex := index;
      snapshotTerm := term;
      snapshotBytes := image;
    }
  }
}
