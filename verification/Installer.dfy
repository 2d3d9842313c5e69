/** `limine.c`: a one-block write-back cache over a device, and the undo log above it. */
module Installer {
  import opened Basics
  import opened Patches

  const UNINSTALL_DATA_MAX := 256

  // ---------------------------------------------------------------- blocks

  lemma Split(pos: nat, size: nat)
    requires size > 0
    ensures pos == pos / size * size + pos % size && pos % size < size
  {
  }

  lemma SameBlock(block: nat, size: nat, x: nat)
    requires x < size
    ensures (block * size + x) / size == block
  {
    var p := block * size + x;
    Split(p, size);
    var q, m := p / size, p % size;
    if q < block {
      BlockOrder(q + 1, block, size);
      assert false;
    } else if q > block {
      BlockOrder(block + 1, q, size);
      assert false;
    }
  }

  lemma BlockOrder(a: nat, b: nat, size: nat)
    requires a <= b
    ensures a * size <= b * size && (a + 1) * size == a * size + size
  {
  }

  lemma LaterBlock(a: nat, b: nat, size: nat)
    requires a <= b && size > 0
    ensures a / size <= b / size && (a / size + 1) * size <= (b / size + 1) * size
  {
    Split(a, size);
    Split(b, size);
    var x, y := a / size, b / size;
    if y < x {
      BlockOrder(y + 1, x, size);
      assert false;
    }
    BlockOrder(x + 1, y + 1, size);
  }

  /** Every block that a transfer touches lies inside a device of `len` bytes. */
  ghost predicate Reach(len: nat, loc: nat, count: nat, size: nat)
    requires size > 0
  {
    count == 0 || ((loc + count - 1) / size + 1) * size <= len
  }

  /** Where the block that holds a position starts. */
  function BlockStart(pos: nat, size: nat): nat
    requires size > 0
  {
    pos / size * size
  }

  /** How much of a transfer the block at its current position takes. */
  function Chunk(pos: nat, left: nat, size: nat): (r: nat)
    requires size > 0 && left > 0
    ensures 0 < r <= left && pos % size + r <= size
  {
    Min(left, size - pos % size)
  }

  /** The turn of a transfer loop at `pos` moves `chunk` bytes. */
  ghost predicate Takes(pos: nat, left: nat, size: nat, chunk: nat) {
    size > 0 && left > 0 && chunk == Chunk(pos, left, size)
  }

  lemma ChunkReaches(len: nat, loc: nat, progress: nat, count: nat, size: nat)
    requires progress < count && size > 0 && Reach(len, loc, count, size)
    ensures BlockStart(loc + progress, size) + size <= len
  {
    var pos := loc + progress;
    LaterBlock(pos, loc + count - 1, size);
    BlockOrder(pos / size, pos / size, size);
  }

  lemma TakenReaches(len: nat, loc: nat, progress: nat, count: nat, size: nat, chunk: nat)
    requires progress < count && Takes(loc + progress, count - progress, size, chunk)
    requires BlockStart(loc + progress, size) + size <= len
    ensures Reach(len, loc, progress + chunk, size) && 0 < chunk <= count - progress && loc + progress + chunk <= len
  {
    var pos := loc + progress;
    var block := pos / size;
    Split(pos, size);
    BlockOrder(block, block, size);
    SameBlock(block, size, pos % size + chunk - 1);
  }

  /** Where the last whole block of a device ends. */
  function WholeEnd(len: nat, size: nat): nat
    requires size > 0
  {
    len / size * size
  }

  /** How much of a transfer the whole blocks of a device hold, from its start on. */
  function Held(len: nat, loc: nat, count: nat, size: nat): (r: nat)
    requires size > 0
    ensures r <= count
  {
    var end := WholeEnd(len, size);
    if loc >= end then 0 else Min(count, end - loc)
  }

  lemma WholeBlocks(len: nat, pos: nat, size: nat)
    requires size > 0
    ensures WholeEnd(len, size) <= len && (BlockStart(pos, size) + size <= len <==> pos < WholeEnd(len, size))
  {
    Split(len, size);
    Split(pos, size);
    var a, b := pos / size, len / size;
    BlockOrder(a, a, size);
    BlockOrder(b, b, size);
    if a < b {
      BlockOrder(a + 1, b, size);
    } else {
      BlockOrder(b, a, size);
    }
  }

  /** A transfer reaches exactly if whole blocks hold all of it. */
  lemma ReachIsHeld(len: nat, loc: nat, count: nat, size: nat)
    requires size > 0
    ensures Reach(len, loc, count, size) <==> Held(len, loc, count, size) == count
    ensures Held(len, loc, count, size) > 0 ==> loc + Held(len, loc, count, size) <= len
  {
    hide WholeEnd;
    WholeBlocks(len, loc, size);
    if count > 0 {
      var last := loc + count - 1;
      WholeBlocks(len, last, size);
      BlockOrder(last / size, last / size, size);
    }
  }

  /** Where a transfer stops for want of a block. */
  lemma StopsAtHeld(len: nat, loc: nat, count: nat, size: nat, progress: nat)
    requires size > 0 && progress < count && Reach(len, loc, progress, size)
    requires BlockStart(loc + progress, size) + size > len
    ensures progress == Held(len, loc, count, size) && !Reach(len, loc, count, size)
  {
    hide WholeEnd, Reach;
    WholeBlocks(len, loc + progress, size);
    ReachIsHeld(len, loc, progress, size);
    ReachIsHeld(len, loc, count, size);
  }

  function HeldPart(len: nat, size: nat, r: Record): Record
    requires size > 0
  {
    Record(r.loc, r.data[..Held(len, r.loc, |r.data|, size)])
  }

  function HeldParts(len: nat, size: nat, recs: seq<Record>): (parts: seq<Record>)
    requires size > 0
    ensures |parts| == |recs| && forall i :: 0 <= i < |recs| ==> parts[i] == HeldPart(len, size, recs[i])
  {
    hide HeldPart;
    seq(|recs|, i requires 0 <= i < |recs| => HeldPart(len, size, recs[i]))
  }

  lemma ReplayNone(s: Bytes, recs: seq<Record>)
    ensures AllFit(s, recs[..0]) && Replay(s, recs[..0]) == s
  {
  }

  lemma PartFits(s: Bytes, size: nat, r: Record)
    requires size > 0
    ensures var p := HeldPart(|s|, size, r); Fits(s, p.loc, p.data)
    ensures Reach(|s|, r.loc, |r.data|, size) ==> HeldPart(|s|, size, r) == r
  {
    hide Held, Reach;
    ReachIsHeld(|s|, r.loc, |r.data|, size);
  }

  lemma PartsFit(s: Bytes, size: nat, recs: seq<Record>)
    requires size > 0
    ensures AllFit(s, HeldParts(|s|, size, recs))
    ensures (forall i :: 0 <= i < |recs| ==> Reach(|s|, recs[i].loc, |recs[i].data|, size)) ==>
              HeldParts(|s|, size, recs) == recs
  {
    hide HeldPart, Reach;
    forall i | 0 <= i < |recs| {
      PartFits(s, size, recs[i]);
    }
  }

  /** A write into the cached block is a write at its place on the device. */
  lemma WriteThrough(dev: Bytes, at: nat, block: Bytes, offset: nat, data: Bytes)
    requires Fits(dev, at, block) && Fits(block, offset, data)
    ensures Patched(dev, at, Patched(block, offset, data)) == Patched(Patched(dev, at, block), at + offset, data)
  {
    var l, r := Patched(dev, at, Patched(block, offset, data)), Patched(Patched(dev, at, block), at + offset, data);
    forall i | 0 <= i < |dev| ensures l[i] == r[i] {
      PatchedAt(dev, at, Patched(block, offset, data), i);
      PatchedAt(dev, at, block, i);
      PatchedAt(Patched(dev, at, block), at + offset, data, i);
      if at <= i < at + |block| {
        PatchedAt(block, offset, data, i - at);
      }
    }
  }

  lemma PatchedOwn(dev: Bytes, at: nat, n: nat)
    requires at + n <= |dev|
    ensures Patched(dev, at, dev[at..at + n]) == dev
  {
    assert dev[..at] + dev[at..at + n] + dev[at + n..] == dev;
  }

  // ---------------------------------------------------------------- the installer

  class Installer {
    const blockSize: nat
    const device: array<byte>
    const cache: array<byte>
    const undo: array<Record>
    const undoRev: array<Record>
    /** Minus one when the cache holds no block. */
    var cachedBlock: int
    var dirty: bool
    var uninstalling: bool
    var undoCount: nat
    ghost const original: Bytes

    ghost predicate Ready()
      reads this, device, cache
    {
      && blockSize > 0 && cache.Length == blockSize
      && device.Length == |original|
      && undo.Length == UNINSTALL_DATA_MAX && undoRev.Length == UNINSTALL_DATA_MAX && undoCount <= UNINSTALL_DATA_MAX
      && undo != undoRev && cache != device
      && cachedBlock >= -1 && (dirty ==> cachedBlock >= 0)
      && (cachedBlock >= 0 ==> cachedBlock * blockSize + blockSize <= device.Length)
      && (cachedBlock >= 0 && !dirty ==>
            cache[..] == device[cachedBlock * blockSize..cachedBlock * blockSize + blockSize])
    }

    /** The flat byte array that the cache and the device stand for. */
    ghost function Flat(): (r: Bytes)
      requires Ready()
      reads this, device, cache
      ensures |r| == device.Length
    {
      if cachedBlock < 0 then device[..] else Patched(device[..], cachedBlock * blockSize, cache[..])
    }

    ghost function Undo(): seq<Record>
      requires Ready()
      reads this, device, cache, undo
    {
      undo[..undoCount]
    }

    /** The original bytes can be recovered from the device alone. */
    ghost predicate Valid()
      reads this, device, cache, undo
    {
      && Ready() && AllReach(Undo())
      && Undoable(original, device[..], Undo()) && Undoable(original, Flat(), Undo())
    }

    ghost predicate Reaches(loc: nat, count: nat)
      requires blockSize > 0
    {
      Reach(device.Length, loc, count, blockSize)
    }

    ghost predicate AllReach(recs: seq<Record>)
      requires blockSize > 0
    {
      forall i :: 0 <= i < |recs| ==> Reaches(recs[i].loc, |recs[i].data|)
    }

    constructor (dev: array<byte>, size: nat)
      requires 0 < size <= dev.Length
      ensures Valid() && Flat() == original == dev[..] && device == dev && blockSize == size
      ensures undoCount == 0 && !uninstalling && fresh(cache) && fresh(undo) && fresh(undoRev)
    {
      blockSize, device := size, dev;
      cache := new byte[size](i => 'a');
      undo := new Record[UNINSTALL_DATA_MAX](i => Record(0, []));
      undoRev := new Record[UNINSTALL_DATA_MAX](i => Record(0, []));
      cachedBlock, dirty, uninstalling, undoCount := 0, false, false, 0;
      original := dev[..];
      new;
      hide Undoable, Patched, Reach;
      FillCache(0);
      PatchedOwn(device[..], 0, blockSize);
      assert Undo() == [];
      UntouchedIsUndoable(original);
    }

    method FlushCache() returns (ok: bool)
      requires Ready()
      modifies this, device
      ensures Ready() && Flat() == old(Flat()) && unchanged(this`cachedBlock, this`uninstalling, this`undoCount)
      ensures ok && !dirty && device[..] == old(Flat())
      ensures old(Valid()) ==> Valid()
    {
      hide Undoable, Patched, Reach;
      ghost var recs := Undo();
      if dirty {
        StoreCache(cachedBlock * blockSize);
        dirty := false;
      }
      if cachedBlock >= 0 {
        PatchedOwn(device[..], cachedBlock * blockSize, blockSize);
      }
      assert Undo() == recs;
      return true;
    }

    method StoreCache(at: nat)
      requires 0 < cache.Length && at + cache.Length <= device.Length && cache != device
      modifies device
      ensures device[..] == Patched(old(device[..]), at, cache[..]) && device[at..at + cache.Length] == cache[..]
    {
      hide Patched;
      forall i | 0 <= i < cache.Length {
        device[at + i] := cache[i];
      }
      forall i | 0 <= i < device.Length ensures device[i] == Patched(old(device[..]), at, cache[..])[i] {
        PatchedAt(old(device[..]), at, cache[..], i);
      }
    }

    /** As much of a block as the device holds. */
    method FillCache(at: nat)
      requires cache != device
      modifies cache
      ensures at + cache.Length <= device.Length ==> cache[..] == device[at..at + cache.Length]
    {
      forall i | 0 <= i < cache.Length && at + i < device.Length {
        cache[i] := device[at + i];
      }
    }

    method CacheBlock(block: nat) returns (ok: bool)
      requires Ready()
      modifies this, device, cache
      ensures Ready() && Flat() == old(Flat()) && unchanged(this`uninstalling, this`undoCount)
      ensures ok <==> block * blockSize + blockSize <= device.Length
      ensures ok ==> cachedBlock == block
      ensures Mixed(device[..], old(device[..]), old(Flat()), Record(0, []))
    {
      hide Mixed, Patched;
      MixedSelf(device[..], Flat());
      if cachedBlock == block {
        return true;
      }
      if dirty {
        var _ := FlushCache();
      } else if cachedBlock >= 0 {
        PatchedOwn(device[..], cachedBlock * blockSize, blockSize);
      }
      MixedEither(device[..], old(device[..]), old(Flat()));
      cachedBlock := -1;
      ok := LoadBlock(block);
    }

    method LoadBlock(block: nat) returns (ok: bool)
      requires Ready() && cachedBlock == -1 && !dirty
      modifies this`cachedBlock, cache
      ensures Ready() && Flat() == old(Flat())
      ensures ok <==> block * blockSize + blockSize <= device.Length
      ensures ok ==> cachedBlock == block
    {
      var at := block * blockSize;
      ok := at + blockSize <= device.Length;
      FillCache(at);
      if ok {
        cachedBlock := block;
        PatchedOwn(device[..], at, blockSize);
      }
    }

    method ReadRaw(buffer: array<byte>, loc: nat, count: nat) returns (ok: bool)
      requires Ready() && count <= buffer.Length && buffer != device && buffer != cache
      modifies this, device, cache, buffer
      ensures Ready() && Flat() == old(Flat()) && unchanged(this`uninstalling, this`undoCount)
      ensures ok <==> Reaches(loc, count)
      ensures ok ==> (count == 0 || loc + count <= |Flat()|) && buffer[..count] == Under(Flat(), loc, count)
      ensures Mixed(device[..], old(device[..]), old(Flat()), Record(0, []))
      ensures old(Valid()) ==> Valid()
    {
      hide Mixed, Reach, Undoable, Flat, Under;
      ok := ReadBlocks(buffer, loc, count);
      StaleKept(original, device[..], old(device[..]), Flat(), Undo());
    }

    method ReadBlocks(buffer: array<byte>, loc: nat, count: nat) returns (ok: bool)
      requires Ready() && count <= buffer.Length && buffer != device && buffer != cache
      modifies this, device, cache, buffer
      ensures Ready() && Flat() == old(Flat()) && unchanged(this`uninstalling, this`undoCount)
      ensures ok <==> Reaches(loc, count)
      ensures ok ==> (count == 0 || loc + count <= |Flat()|) && buffer[..count] == Under(Flat(), loc, count)
      ensures Mixed(device[..], old(device[..]), old(Flat()), Record(0, []))
    {
      assert blockSize > 0;
      hide Mixed, Reach, Takes, Ready, Flat, BlockStart;
      MixedSelf(device[..], Flat());
      NothingReaches(device.Length, loc, blockSize);
      var progress := 0;
      while progress < count
        invariant Ready() && Flat() == old(Flat()) && unchanged(this`uninstalling, this`undoCount)
        invariant 0 <= progress <= count && Reaches(loc, progress)
        invariant progress > 0 ==> loc + progress <= |Flat()| && buffer[..progress] == Flat()[loc..loc + progress]
        invariant Mixed(device[..], old(device[..]), old(Flat()), Record(0, []))
      {
        var pos := loc + progress;
        if Reaches(loc, count) {
          ChunkReaches(device.Length, loc, progress, count, blockSize);
        }
        ghost var before := device[..];
        var more, chunk := ReadChunk(buffer, pos, progress, count - progress);
        MixedStep(device[..], before, old(device[..]), old(Flat()));
        if !more {
          return false;
        }
        TakenReaches(device.Length, loc, progress, count, blockSize, chunk);
        assert Flat()[loc..pos] + Flat()[pos..pos + chunk] == Flat()[loc..pos + chunk];
        progress := progress + chunk;
      }
      return true;
    }

    /** One turn of the read loop: what one block holds of the transfer. */
    method ReadChunk(buffer: array<byte>, pos: nat, start: nat, left: nat) returns (ok: bool, chunk: nat)
      requires Ready() && 0 < left && start + left <= buffer.Length && buffer != device && buffer != cache
      modifies this, device, cache, buffer
      ensures Ready() && Flat() == old(Flat()) && unchanged(this`uninstalling, this`undoCount)
      ensures Mixed(device[..], old(device[..]), old(Flat()), Record(0, []))
      ensures ok <==> BlockStart(pos, blockSize) + blockSize <= device.Length
      ensures ok ==> Takes(pos, left, blockSize, chunk) && chunk <= left && pos + chunk <= device.Length
      ensures ok ==> buffer[..start + chunk] == old(buffer[..start]) + Flat()[pos..pos + chunk]
    {
      hide Mixed, Patched, Chunk;
      Split(pos, blockSize);
      chunk := 0;
      ok := CacheBlock(pos / blockSize);
      if ok {
        chunk := Chunk(pos, left, blockSize);
        CachedBytes(device[..], cachedBlock * blockSize, cache[..], pos % blockSize, chunk);
        CopyOut(buffer, start, pos % blockSize, chunk);
      }
    }

    /** One turn of the write loop: what one block takes of the transfer. */
    method WriteChunk(data: Bytes, pos: nat, start: nat) returns (ok: bool, chunk: nat)
      requires Ready() && start < |data|
      modifies this, device, cache
      ensures Ready() && unchanged(this`uninstalling, this`undoCount)
      ensures Mixed(device[..], old(device[..]), old(Flat()), Record(0, []))
      ensures ok <==> BlockStart(pos, blockSize) + blockSize <= device.Length
      ensures !ok ==> Flat() == old(Flat())
      ensures ok ==> Takes(pos, |data| - start, blockSize, chunk) && chunk <= |data| - start && pos + chunk <= device.Length
      ensures ok ==> Flat() == Patched(old(Flat()), pos, data[start..start + chunk])
    {
      hide Mixed, Patched, Chunk;
      Split(pos, blockSize);
      chunk := 0;
      ok := CacheBlock(pos / blockSize);
      if ok {
        chunk := Chunk(pos, |data| - start, blockSize);
        var piece := data[start..start + chunk];
        WriteThrough(device[..], cachedBlock * blockSize, cache[..], pos % blockSize, piece);
        CopyIn(piece, pos % blockSize);
        dirty := true;
      }
    }

    method CopyIn(piece: Bytes, offset: nat)
      requires piece != [] && offset + |piece| <= cache.Length
      modifies cache
      ensures cache[..] == Patched(old(cache[..]), offset, piece)
    {
      forall i | 0 <= i < |piece| {
        cache[offset + i] := piece[i];
      }
      assert cache[offset..offset + |piece|] == piece;
      assert cache[..] == cache[..offset] + cache[offset..offset + |piece|] + cache[offset + |piece|..];
    }

    /** The transfer itself, without a record: what whole blocks hold of it is written. */
    method WriteBlocks(data: Bytes, loc: nat) returns (ok: bool)
      requires Ready()
      modifies this, device, cache
      ensures Ready() && unchanged(this`uninstalling, this`undoCount)
      ensures Mixed(device[..], old(device[..]), old(Flat()), Record(loc, data))
      ensures ok <==> Reaches(loc, |data|)
      ensures Wrote(old(Flat()), Flat(), loc, data, Held(device.Length, loc, |data|, blockSize))
      ensures ok ==> Fits(old(Flat()), loc, data) && Flat() == Patched(old(Flat()), loc, data)
    {
      hide Mixed, Reach, Flat, Patched, Wrote, BlockStart, Held;
      var progress := WriteWhile(data, loc);
      ok := progress == |data|;
      if ok {
        ReachIsHeld(device.Length, loc, |data|, blockSize);
        WroteAll(old(Flat()), Flat(), loc, data);
      } else {
        StopsAtHeld(device.Length, loc, |data|, blockSize, progress);
      }
    }

    /** Chunk by chunk, until the transfer is over or a block is missing. */
    method WriteWhile(data: Bytes, loc: nat) returns (progress: nat)
      requires Ready()
      modifies this, device, cache
      ensures Ready() && unchanged(this`uninstalling, this`undoCount)
      ensures Mixed(device[..], old(device[..]), old(Flat()), Record(loc, data))
      ensures Wrote(old(Flat()), Flat(), loc, data, progress) && progress <= |data| && Reaches(loc, progress)
      ensures progress < |data| ==> BlockStart(loc + progress, blockSize) + blockSize > device.Length
    {
      assert blockSize > 0;
      hide Mixed, Reach, Ready, Flat, Wrote, BlockStart;
      ghost var dev, flat := device[..], Flat();
      MixedSelf(dev, flat);
      MixedWider(dev, dev, flat, Record(loc, data));
      NothingReaches(device.Length, loc, blockSize);
      WroteNothing(flat, loc, data);
      progress := 0;
      while progress < |data|
        invariant Ready() && unchanged(this`uninstalling, this`undoCount)
        invariant 0 <= progress <= |data| && Reaches(loc, progress)
        invariant Wrote(flat, Flat(), loc, data, progress) && Mixed(device[..], dev, flat, Record(loc, data))
      {
        var more, chunk := WriteTurn(data, loc, progress, dev, flat);
        if !more {
          break;
        }
        progress := progress + chunk;
      }
    }

    method WriteTurn(data: Bytes, loc: nat, progress: nat, ghost dev: Bytes, ghost flat: Bytes)
      returns (ok: bool, chunk: nat)
      requires Ready() && progress < |data|
      requires Wrote(flat, Flat(), loc, data, progress) && Mixed(device[..], dev, flat, Record(loc, data))
      modifies this, device, cache
      ensures Ready() && unchanged(this`uninstalling, this`undoCount)
      ensures Mixed(device[..], dev, flat, Record(loc, data))
      ensures ok <==> BlockStart(loc + progress, blockSize) + blockSize <= device.Length
      ensures !ok ==> Wrote(flat, Flat(), loc, data, progress)
      ensures ok ==> 0 < chunk <= |data| - progress && Reaches(loc, progress + chunk)
      ensures ok ==> Wrote(flat, Flat(), loc, data, progress + chunk)
    {
      hide Mixed, Reach, Takes, Flat, Patched, Wrote, BlockStart;
      ghost var dev', flat' := device[..], Flat();
      ok, chunk := WriteChunk(data, loc + progress, progress);
      MixedWrite(device[..], dev', flat', dev, flat, loc, data, progress);
      if ok {
        TakenReaches(device.Length, loc, progress, |data|, blockSize, chunk);
        SameLength(flat, flat', loc, data, progress);
        WroteMore(flat, flat', Flat(), loc, data, progress, chunk);
      }
    }

    /** Save what is there, then write; a write that cannot be saved is not made. */
    method WriteRaw(data: Bytes, loc: nat) returns (ok: bool)
      requires Ready()
      modifies this, device, cache, undo
      ensures Ready() && uninstalling == old(uninstalling)
      ensures ok <==> Reaches(loc, |data|) && (uninstalling || old(undoCount) < UNINSTALL_DATA_MAX)
      ensures ok ==> Fits(old(Flat()), loc, data) && Flat() == Patched(old(Flat()), loc, data)
      ensures !ok && !uninstalling ==> Flat() == old(Flat())
      ensures uninstalling ==> Wrote(old(Flat()), Flat(), loc, data, Held(device.Length, loc, |data|, blockSize))
      ensures Undo() == if ok && !uninstalling then old(Undo()) + [Record(loc, Under(old(Flat()), loc, |data|))]
                        else old(Undo())
      ensures old(Valid()) && !uninstalling ==> Valid()
    {
      hide Mixed, Reach, Patched, Under, Undoable, Flat, Held, Wrote;
      if uninstalling {
        ok := WriteBlocks(data, loc);
      } else if undoCount >= UNINSTALL_DATA_MAX {
        ok := false;
      } else {
        ok := SavedWrite(data, loc);
        if ok {
          WrittenKept(original, old(Flat()), old(device[..]), device[..], old(Undo()), loc, data);
        } else {
          StaleKept(original, device[..], old(device[..]), Flat(), Undo());
        }
      }
    }

    method SavedWrite(data: Bytes, loc: nat) returns (ok: bool)
      requires Ready() && undoCount < UNINSTALL_DATA_MAX
      modifies this, device, cache, undo
      ensures Ready() && uninstalling == old(uninstalling)
      ensures ok <==> Reaches(loc, |data|)
      ensures ok ==> Fits(old(Flat()), loc, data) && Flat() == Patched(old(Flat()), loc, data)
      ensures !ok ==> Flat() == old(Flat()) && Undo() == old(Undo())
      ensures ok ==> Undo() == old(Undo()) + [Record(loc, Under(old(Flat()), loc, |data|))]
      ensures Mixed(device[..], old(device[..]), old(Flat()), if ok then Record(loc, data) else Record(0, []))
    {
      hide Mixed, Reach, Patched, Under;
      var saved := new byte[|data|](i => 'a');
      ghost var recs := Undo();
      ok := ReadRaw(saved, loc, |data|);
      if !ok {
        return;
      }
      ghost var before := device[..];
      undo[undoCount] := Record(loc, saved[..]);
      assert undo[..undoCount] == recs && saved[..] == Under(Flat(), loc, |data|);
      ok := WriteBlocks(data, loc);
      MixedOver(device[..], before, old(device[..]), old(Flat()), Record(loc, data));
      undoCount := undoCount + 1;
      assert undo[..undoCount] == recs + [undo[undoCount - 1]];
    }

    /** The saved records, newest first. */
    method ReverseUndo()
      requires Ready()
      modifies undo, undoRev
      ensures Ready() && Undo() == Reversed(old(Undo()))
    {
      ghost var recs := Undo();
      var j := undoCount - 1;
      for i := 0 to undoCount
        invariant j == undoCount - 1 - i && undo[..undoCount] == recs
        invariant forall k :: 0 <= k < i ==> undoRev[undoCount - 1 - k] == recs[k]
      {
        undoRev[j] := undo[i];
        j := j - 1;
      }
      assert forall k :: 0 <= k < undoCount ==> undoRev[k] == recs[undoCount - 1 - k];
      forall k | 0 <= k < undoCount {
        undo[k] := undoRev[k];
      }
      assert undo[..undoCount] == Reversed(recs);
    }

    /**
     * Forget whatever the cache holds and write every record back, in order; a record that does not
     * reach is tried again and then given up, with what whole blocks hold of it written.
     */
    method Uninstall() returns (ok: bool)
      requires Ready()
      modifies this, device, cache, undo
      ensures Ready() && (ok <==> AllReach(old(Undo())))
      ensures AllFit(old(device[..]), HeldParts(device.Length, blockSize, old(Undo())))
      ensures device[..] == Replay(old(device[..]), HeldParts(device.Length, blockSize, old(Undo())))
    {
      hide Reach, Patched, Undoable, HeldPart, Flat, Fits, AllFit, Replay;
      ghost var recs, dev := Undo(), device[..];
      ghost var parts := HeldParts(device.Length, blockSize, recs);
      PartsFit(dev, blockSize, recs);
      ReplayNone(dev, parts);
      DropCache();
      ok := true;
      var i := 0;
      while i < undoCount
        invariant Ready() && uninstalling && i <= undoCount && Undo() == recs
        invariant AllFit(dev, parts[..i]) && Flat() == Replay(dev, parts[..i])
        invariant ok <==> forall k :: 0 <= k < i ==> Reaches(recs[k].loc, |recs[k].data|)
      {
        ReplayNext(dev, parts, i);
        var written := RestoreRecord(i);
        ok := ok && written;
        i := i + 1;
      }
      assert parts[..undoCount] == parts;
      var _ := FlushCache();
    }

    method DropCache()
      requires Ready()
      modifies this
      ensures Ready() && uninstalling && undoCount == old(undoCount) && Undo() == old(Undo()) && Flat() == device[..]
    {
      uninstalling := true;
      dirty := false;
      cachedBlock := -1;
    }

    /** One record, with one retry over an empty cache. */
    method RestoreRecord(i: nat) returns (ok: bool)
      requires Ready() && uninstalling && i < undoCount
      modifies this, device, cache, undo
      ensures Ready() && uninstalling && undoCount == old(undoCount) && Undo() == old(Undo())
      ensures var r, p := old(Undo()[i]), HeldPart(device.Length, blockSize, old(Undo()[i]));
              && (ok <==> Reaches(r.loc, |r.data|))
              && Fits(old(Flat()), p.loc, p.data) && Flat() == Patched(old(Flat()), p.loc, p.data)
    {
      hide Reach, Patched, Held, Wrote, Flat, Undoable;
      ghost var flat, recs := Flat(), Undo();
      var r := undo[i];
      ghost var held := Held(device.Length, r.loc, |r.data|, blockSize);
      ok := WriteRaw(r.data, r.loc);
      WroteHeld(flat, Flat(), r.loc, r.data, held);
      if !ok {
        ghost var once := Flat();
        var _ := FlushCache();
        EmptyCache();
        assert undo[i] == r;
        ok := WriteRaw(r.data, r.loc);
        WroteAgain(flat, once, Flat(), r.loc, r.data, held);
        WroteHeld(flat, Flat(), r.loc, r.data, held);
      }
    }

    method EmptyCache()
      requires Ready() && !dirty && device[..] == Flat()
      modifies this`cachedBlock
      ensures Ready() && Flat() == old(Flat()) && cachedBlock == -1
    {
      cachedBlock := -1;
    }

    /**
     * What a failed install does: after any recorded writes, flushed or not, the device is again
     * what it was before the first of them.
     */
    method Rollback() returns (ok: bool)
      requires Valid() && !uninstalling
      modifies this, device, cache, undo, undoRev
      ensures Ready() && ok && device[..] == original
    {
      hide Mixed, Reach, Patched, Under, Flat;
      UndoIsExact(original, device[..], Undo());
      PartsFit(device[..], blockSize, Reversed(Undo()));
      ReverseUndo();
      ok := Uninstall();
    }

    method CopyOut(buffer: array<byte>, start: nat, offset: nat, n: nat)
      requires start + n <= buffer.Length && offset + n <= cache.Length && buffer != cache
      modifies buffer
      ensures buffer[..start + n] == old(buffer[..start]) + cache[offset..offset + n]
    {
      forall i | 0 <= i < n {
        buffer[start + i] := cache[offset + i];
      }
      assert buffer[start..start + n] == cache[offset..offset + n];
      assert buffer[..start] == old(buffer[..start]);
      assert buffer[..start + n] == buffer[..start] + buffer[start..start + n];
    }
  }

  /** Reading moves blocks between cache and device, and nothing is lost by it. */
  lemma StaleKept(original: Bytes, dev': Bytes, dev: Bytes, flat: Bytes, recs: seq<Record>)
    requires Mixed(dev', dev, flat, Record(0, []))
    ensures Undoable(original, dev, recs) && Undoable(original, flat, recs) ==> Undoable(original, dev', recs)
  {
    hide Undoable, Mixed;
    if Undoable(original, dev, recs) && Undoable(original, flat, recs) {
      StaleIsUndoable(original, dev', dev, flat, recs);
    }
  }

  /** A saved write leaves both the flat bytes and the device recoverable. */
  lemma WrittenKept(original: Bytes, flat: Bytes, dev: Bytes, dev': Bytes, recs: seq<Record>, loc: nat, data: Bytes)
    requires Fits(flat, loc, data) && Mixed(dev', dev, flat, Record(loc, data))
    ensures var recs' := recs + [Record(loc, Under(flat, loc, |data|))];
            Undoable(original, flat, recs) && Undoable(original, dev, recs) ==>
              Undoable(original, Patched(flat, loc, data), recs') && Undoable(original, dev', recs')
  {
    if Undoable(original, flat, recs) && Undoable(original, dev, recs) {
      var r := Record(loc, Under(flat, loc, |data|));
      RecordedWrite(original, flat, recs, loc, data);
      SavesOriginals(original, flat, recs, loc, |data|);
      assert forall i: nat :: Covers(Record(loc, data), i) == Covers(r, i);
      assert Mixed(dev', dev, flat, r);
      MixedIsUndoable(original, dev', dev, flat, recs, r);
    }
  }

  lemma MixedWider(s: Bytes, a: Bytes, b: Bytes, r: Record)
    requires Mixed(s, a, b, Record(0, []))
    ensures Mixed(s, a, b, r)
  {
    forall i | 0 <= i < |s| ensures s[i] == a[i] || s[i] == b[i] {
      assert !Covers(Record(0, []), i);
    }
  }

  /** The first `progress` bytes of a transfer have arrived. */
  ghost predicate Wrote(s: Bytes, s': Bytes, loc: nat, data: Bytes, progress: nat) {
    progress <= |data| && Fits(s, loc, data[..progress]) && s' == Patched(s, loc, data[..progress])
  }

  lemma WroteNothing(s: Bytes, loc: nat, data: Bytes)
    ensures Wrote(s, s, loc, data, 0)
  {
  }

  lemma WroteMore(s: Bytes, m: Bytes, s': Bytes, loc: nat, data: Bytes, progress: nat, chunk: nat)
    requires Wrote(s, m, loc, data, progress) && progress + chunk <= |data| && loc + progress + chunk <= |s|
    requires s' == Patched(m, loc + progress, data[progress..progress + chunk])
    ensures Wrote(s, s', loc, data, progress + chunk)
  {
    hide Patched;
    assert data[..progress] + data[progress..progress + chunk] == data[..progress + chunk];
    PatchedTwice(s, loc, data[..progress], data[progress..progress + chunk]);
  }

  lemma WroteAll(s: Bytes, s': Bytes, loc: nat, data: Bytes)
    requires Wrote(s, s', loc, data, |data|)
    ensures Fits(s, loc, data) && s' == Patched(s, loc, data)
  {
    hide Patched;
    assert data[..|data|] == data;
  }

  lemma SameLength(s: Bytes, s': Bytes, loc: nat, data: Bytes, n: nat)
    requires Wrote(s, s', loc, data, n)
    ensures |s'| == |s|
  {
  }

  lemma WroteHeld(s: Bytes, s': Bytes, loc: nat, data: Bytes, n: nat)
    requires Wrote(s, s', loc, data, n)
    ensures n <= |data| && Fits(s, loc, data[..n]) && s' == Patched(s, loc, data[..n])
  {
  }

  /** Writing the same bytes once more changes nothing. */
  lemma WroteAgain(s: Bytes, m: Bytes, s': Bytes, loc: nat, data: Bytes, n: nat)
    requires Wrote(s, m, loc, data, n) && Wrote(m, s', loc, data, n)
    ensures Wrote(s, s', loc, data, n)
  {
    hide Patched;
    forall i | 0 <= i < |s| ensures s'[i] == m[i] {
      PatchedAt(s, loc, data[..n], i);
      PatchedAt(m, loc, data[..n], i);
    }
  }

  /** Outside a transfer, what its blocks flush is what was there before it. */
  lemma MixedWrite(s: Bytes, m: Bytes, flat: Bytes, a: Bytes, b: Bytes, loc: nat, data: Bytes, progress: nat)
    requires Wrote(b, flat, loc, data, progress)
    requires Mixed(m, a, b, Record(loc, data)) && Mixed(s, m, flat, Record(0, []))
    ensures Mixed(s, a, b, Record(loc, data))
  {
    hide Patched;
    forall i | 0 <= i < |s| && !Covers(Record(loc, data), i) ensures s[i] == a[i] || s[i] == b[i] {
      assert !Covers(Record(0, []), i);
      PatchedAt(b, loc, data[..progress], i);
    }
  }

  lemma MixedOver(s: Bytes, m: Bytes, a: Bytes, b: Bytes, r: Record)
    requires Mixed(m, a, b, Record(0, [])) && Mixed(s, m, b, r)
    ensures Mixed(s, a, b, r)
  {
    forall i | 0 <= i < |s| && !Covers(r, i) ensures s[i] == a[i] || s[i] == b[i] {
      assert !Covers(Record(0, []), i);
    }
  }

  lemma UntouchedIsUndoable(s: Bytes)
    ensures Undoable(s, s, [])
  {
  }

  lemma MixedEither(s: Bytes, a: Bytes, b: Bytes)
    requires |a| == |b| && (s == a || s == b)
    ensures Mixed(s, a, b, Record(0, []))
  {
  }

  lemma MixedSelf(dev: Bytes, flat: Bytes)
    requires |flat| == |dev|
    ensures Mixed(dev, dev, flat, Record(0, []))
  {
  }

  lemma MixedStep(s: Bytes, m: Bytes, a: Bytes, b: Bytes)
    requires Mixed(m, a, b, Record(0, [])) && Mixed(s, m, b, Record(0, []))
    ensures Mixed(s, a, b, Record(0, []))
  {
    forall i | 0 <= i < |s| ensures s[i] == a[i] || s[i] == b[i] {
      assert !Covers(Record(0, []), i);
    }
  }

  lemma NothingReaches(len: nat, loc: nat, size: nat)
    requires size > 0
    ensures Reach(len, loc, 0, size)
  {
  }

  lemma CachedBytes(dev: Bytes, at: nat, block: Bytes, offset: nat, n: nat)
    requires block != [] && Fits(dev, at, block) && offset + n <= |block|
    ensures Patched(dev, at, block)[at + offset..at + offset + n] == block[offset..offset + n]
  {
  }
}
