/** Writes to a flat byte string, and how saved bytes undo them. */
module Patches {
  import opened Basics

  /** What was at `loc` before a write of the same length. */
  datatype Record = Record(loc: nat, data: Bytes)

  predicate Fits(s: Bytes, loc: nat, data: Bytes) {
    data == [] || loc + |data| <= |s|
  }

  function Patched(s: Bytes, loc: nat, data: Bytes): (r: Bytes)
    requires Fits(s, loc, data)
    ensures |r| == |s|
  {
    if data == [] then s else s[..loc] + data + s[loc + |data|..]
  }

  /** The bytes that a write of length `n` replaces. */
  function Under(s: Bytes, loc: nat, n: nat): (r: Bytes)
    requires n == 0 || loc + n <= |s|
    ensures |r| == n
  {
    if n == 0 then [] else s[loc..loc + n]
  }

  lemma PatchedAt(s: Bytes, loc: nat, data: Bytes, i: nat)
    requires Fits(s, loc, data) && i < |s|
    ensures Patched(s, loc, data)[i] == if loc <= i < loc + |data| then data[i - loc] else s[i]
  {
  }

  /** Two adjacent writes are one. */
  lemma PatchedTwice(s: Bytes, loc: nat, a: Bytes, b: Bytes)
    requires Fits(s, loc, a + b)
    ensures Patched(Patched(s, loc, a), loc + |a|, b) == Patched(s, loc, a + b)
  {
    var l, r := Patched(Patched(s, loc, a), loc + |a|, b), Patched(s, loc, a + b);
    forall i | 0 <= i < |s| ensures l[i] == r[i] {
      PatchedAt(Patched(s, loc, a), loc + |a|, b, i);
      PatchedAt(s, loc, a, i);
      PatchedAt(s, loc, a + b, i);
    }
  }

  // ---------------------------------------------------------------- undo records

  ghost predicate AllFit(s: Bytes, recs: seq<Record>) {
    forall i :: 0 <= i < |recs| ==> Fits(s, recs[i].loc, recs[i].data)
  }

  /** Write the records one after the other. */
  function Replay(s: Bytes, recs: seq<Record>): (r: Bytes)
    requires AllFit(s, recs)
    ensures |r| == |s|
  {
    if recs == [] then s
    else
      var last := recs[|recs| - 1];
      Patched(Replay(s, recs[..|recs| - 1]), last.loc, last.data)
  }

  /** The first records, and then one more. */
  lemma ReplayNext(s: Bytes, recs: seq<Record>, i: nat)
    requires AllFit(s, recs) && i < |recs|
    ensures AllFit(s, recs[..i]) && AllFit(s, recs[..i + 1])
    ensures Fits(Replay(s, recs[..i]), recs[i].loc, recs[i].data)
    ensures Replay(s, recs[..i + 1]) == Patched(Replay(s, recs[..i]), recs[i].loc, recs[i].data)
  {
    hide Patched;
    assert recs[..i + 1][..i] == recs[..i];
  }

  function Reversed(recs: seq<Record>): (r: seq<Record>)
    ensures |r| == |recs| && forall i :: 0 <= i < |recs| ==> r[i] == recs[|recs| - 1 - i]
  {
    if recs == [] then [] else Reversed(recs[1..]) + [recs[0]]
  }

  predicate Covers(r: Record, i: nat) {
    r.loc <= i < r.loc + |r.data|
  }

  /** The byte that the oldest record covering position `i` saved. */
  function Saved(recs: seq<Record>, i: nat): Option<byte> {
    if recs == [] then None
    else if Covers(recs[0], i) then Some(recs[0].data[i - recs[0].loc])
    else Saved(recs[1..], i)
  }

  lemma AllFitReversed(s: Bytes, recs: seq<Record>)
    requires AllFit(s, recs)
    ensures AllFit(s, Reversed(recs))
  {
  }

  /** Replaying backwards leaves, at each position, the oldest saved byte. */
  lemma {:induction false} ReplayReversed(s: Bytes, recs: seq<Record>, i: nat)
    requires AllFit(s, recs) && AllFit(s, Reversed(recs)) && i < |s|
    ensures Replay(s, Reversed(recs))[i] == match Saved(recs, i) case None => s[i] case Some(b) => b
  {
    if recs != [] {
      var r := Reversed(recs);
      assert r[..|r| - 1] == Reversed(recs[1..]);
      assert AllFit(s, recs[1..]) && AllFit(s, Reversed(recs[1..]));
      ReplayReversed(s, recs[1..], i);
      PatchedAt(Replay(s, r[..|r| - 1]), recs[0].loc, recs[0].data, i);
    }
  }

  lemma {:induction false} SavedAppend(recs: seq<Record>, r: Record, i: nat)
    ensures Saved(recs + [r], i) ==
            if Saved(recs, i).Some? then Saved(recs, i) else if Covers(r, i) then Some(r.data[i - r.loc]) else None
  {
    if recs == [] {
      assert [] + [r] == [r];
      assert [r][1..] == [];
    } else {
      assert (recs + [r])[1..] == recs[1..] + [r];
      SavedAppend(recs[1..], r, i);
    }
  }

  // ---------------------------------------------------------------- recorded writes

  /** Uncovered bytes are as they were; of every covered byte the original is saved. */
  ghost predicate Holds(original: Bytes, s: Bytes, recs: seq<Record>, i: nat)
    requires |original| == |s| && i < |s|
  {
    match Saved(recs, i)
    case None => s[i] == original[i]
    case Some(b) => b == original[i]
  }

  ghost predicate Undoable(original: Bytes, s: Bytes, recs: seq<Record>) {
    && |original| == |s| && AllFit(s, recs)
    && forall i :: 0 <= i < |s| ==> Holds(original, s, recs, i)
  }

  /** Replaying the records backwards restores the original, overlapping or not. */
  lemma UndoIsExact(original: Bytes, s: Bytes, recs: seq<Record>)
    requires Undoable(original, s, recs)
    ensures AllFit(s, Reversed(recs)) && Replay(s, Reversed(recs)) == original
  {
    AllFitReversed(s, recs);
    forall i | 0 <= i < |s| ensures Replay(s, Reversed(recs))[i] == original[i] {
      assert Holds(original, s, recs, i);
      ReplayReversed(s, recs, i);
    }
  }

  /** A write whose old bytes are recorded keeps the original recoverable. */
  lemma RecordedWrite(original: Bytes, s: Bytes, recs: seq<Record>, loc: nat, data: Bytes)
    requires Undoable(original, s, recs) && Fits(s, loc, data)
    ensures Undoable(original, Patched(s, loc, data), recs + [Record(loc, Under(s, loc, |data|))])
  {
    var r := Record(loc, Under(s, loc, |data|));
    var s' := Patched(s, loc, data);
    forall i | 0 <= i < |s| ensures Holds(original, s', recs + [r], i) {
      assert Holds(original, s, recs, i);
      SavedAppend(recs, r, i);
      PatchedAt(s, loc, data, i);
    }
  }

  /** The bytes under a new record are originals wherever nothing older covers them. */
  lemma SavesOriginals(original: Bytes, s: Bytes, recs: seq<Record>, loc: nat, n: nat)
    requires Undoable(original, s, recs) && (n == 0 || loc + n <= |s|)
    ensures forall i :: loc <= i < loc + n && Saved(recs, i) == None ==> Under(s, loc, n)[i - loc] == original[i]
  {
    forall i | loc <= i < loc + n && Saved(recs, i) == None ensures Under(s, loc, n)[i - loc] == original[i] {
      assert Holds(original, s, recs, i);
    }
  }

  /** Byte by byte one of two states, except where `r` covers it. */
  ghost predicate Mixed(s: Bytes, a: Bytes, b: Bytes, r: Record) {
    && |s| == |a| == |b|
    && forall i :: 0 <= i < |s| && !Covers(r, i) ==> s[i] == a[i] || s[i] == b[i]
  }

  /** A device on which some blocks are older than others is just as recoverable. */
  lemma MixedIsUndoable(original: Bytes, s: Bytes, a: Bytes, b: Bytes, recs: seq<Record>, r: Record)
    requires Undoable(original, a, recs) && Undoable(original, b, recs) && Mixed(s, a, b, r) && Fits(s, r.loc, r.data)
    requires forall i :: r.loc <= i < r.loc + |r.data| && Saved(recs, i) == None ==> r.data[i - r.loc] == original[i]
    ensures Undoable(original, s, recs + [r])
  {
    forall i | 0 <= i < |s| ensures Holds(original, s, recs + [r], i) {
      assert Holds(original, a, recs, i) && Holds(original, b, recs, i);
      SavedAppend(recs, r, i);
    }
  }

  lemma StaleIsUndoable(original: Bytes, s: Bytes, a: Bytes, b: Bytes, recs: seq<Record>)
    requires Undoable(original, a, recs) && Undoable(original, b, recs) && Mixed(s, a, b, Record(0, []))
    ensures Undoable(original, s, recs)
  {
    forall i | 0 <= i < |s| ensures Holds(original, s, recs, i) {
      assert Holds(original, a, recs, i) && Holds(original, b, recs, i);
      assert !Covers(Record(0, []), i);
    }
  }
}
