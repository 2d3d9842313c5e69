/** `fs-inspect.py`: the parser as it runs, filling its fields in loops. */
module ObjectStore {
  import opened Basics
  import opened Fields
  import opened StoreFormat
  import StoreSoundness

  class ObjectStore {
    const h: Hashes
    const data: Bytes
    var superblock: Option<Superblock>
    var objects: map<u64, ObjectRecord>
    var errors: seq<Error>
    var omitted: set<nat>

    ghost function View(): Parsed
      reads this
    {
      Parsed(superblock, objects, errors, omitted)
    }

    constructor (hashes: Hashes, image: Bytes)
      ensures h == hashes && data == image && View() == Parsed(None, map[], [], {})
    {
      h, data := hashes, image;
      superblock, objects, errors, omitted := None, map[], [], {};
    }

    /** Both slots at every block size, then the choice among what was found. */
    method Parse() returns (raised: bool)
      requires View() == Parsed(None, map[], [], {})
      modifies this
      ensures if raised then ParseImage(h, data) == Raised else View() == ParseImage(h, data)
    {
      hide AnyUnsupported, ParseDirectory;
      raised := false;
      var found := FindCandidates();
      var unsupported := FindUnsupported();
      if unsupported {
        errors := [UnsupportedFormat];
        return;
      }
      if found == [] {
        if !AllZero(Slice(data, 0, 2 * 4096)) {
          errors := [NoSuperblock];
        }
        return;
      }
      var sb := PickNewest(found);
      StoreSoundness.CandidateSize(h, data, sb);
      if sb.totalBlocks * sb.blockSize > |data| {
        errors := [DeviceExceedsImage];
        return;
      }
      var expected := ForDevice(sb.blockSize, sb.totalBlocks);
      if expected == None {
        errors := [TooSmall];
        return;
      }
      if sb.layout != expected.value {
        errors := [LayoutMismatch];
        return;
      }
      superblock := Some(sb);
      raised := FillDirectory(sb);
    }

    method FindCandidates() returns (found: seq<Superblock>)
      ensures found == Candidates(h, data)
    {
      hide DecodeSuperblock;
      var sizes := [512, 1024, 2048, 4096];
      found := [];
      ghost var parts := [CandidatesOf(h, data, 512), CandidatesOf(h, data, 1024), CandidatesOf(h, data, 2048),
                          CandidatesOf(h, data, 4096)];
      for i := 0 to 4
        invariant found == Flat(parts[..i])
      {
        for slot := 0 to SB_SLOTS
          invariant found == Flat(parts[..i]) + if slot == 0 then []
                             else if slot == 1 then Candidate(h, data, 0, sizes[i]) else CandidatesOf(h, data, sizes[i])
        {
          var sb := DecodeSuperblock(h, data, slot, sizes[i]);
          if sb.Some? && sb.value.blockSize == sizes[i] {
            found := found + [sb.value];
          }
        }
        assert parts[..i + 1][..i] == parts[..i];
      }
      assert parts[..4] == parts;
      FlatOfFour(parts[0], parts[1], parts[2], parts[3]);
    }

    method FindUnsupported() returns (found: bool)
      ensures found == AnyUnsupported(data)
    {
      hide Unsupported;
      var sizes := [512, 1024, 2048, 4096];
      for i := 0 to 4
        invariant forall j :: 0 <= j < i ==> !Unsupported(data, 0, sizes[j]) && !Unsupported(data, 1, sizes[j])
      {
        for slot := 0 to SB_SLOTS
          invariant forall k :: 0 <= k < slot ==> !Unsupported(data, k, sizes[i])
        {
          if Unsupported(data, slot, sizes[i]) {
            assert sizes[i] in {512, 1024, 2048, 4096} && slot in {0, 1};
            return true;
          }
        }
      }
      assert !Unsupported(data, 0, sizes[0]) && !Unsupported(data, 0, sizes[1]) && !Unsupported(data, 0, sizes[2])
             && !Unsupported(data, 0, sizes[3]);
      return false;
    }

    method PickNewest(found: seq<Superblock>) returns (best: Superblock)
      requires found != []
      ensures best == Newer(found)
    {
      best := found[0];
      assert found[..1] == [found[0]];
      for i := 1 to |found|
        invariant best == Newer(found[..i])
      {
        assert found[..i + 1][..i] == found[..i];
        if found[i].generation > best.generation {
          best := found[i];
        }
      }
      assert found[..|found|] == found;
    }

    /** The directory, slot by slot, and then the bitmap over every block that was reached. */
    method FillDirectory(sb: Superblock) returns (raised: bool)
      requires sb.blockSize >= 512 && View() == Parsed(Some(sb), map[], [], {})
      modifies this
      ensures if raised then ParseDirectory(h, data, sb) == Raised else View() == ParseDirectory(h, data, sb)
    {
      hide ScanTo, ScanEntry, SlotEntry, EntryCount, Marks, BlockSlice;
      var l := sb.layout;
      var first := BlockSlice(data, sb.blockSize, l.directoryLba, l.directoryBlocks);
      var second := BlockSlice(data, sb.blockSize, l.directoryLba + l.directoryBlocks, l.directoryBlocks);
      var bitmap := BlockSlice(data, sb.blockSize, l.bitmapLba, l.bitmapBlocks);
      if first == None || second == None || bitmap == None {
        return true;
      }
      var n := EntryCount(l, sb.blockSize);
      StoreSoundness.EntriesFit(l, sb.blockSize);
      var used := ScanSlots(sb, first.value, second.value, n);
      raised := CheckBitmap(bitmap.value, used);
    }

    method ScanSlots(sb: Superblock, first: Bytes, second: Bytes, n: nat) returns (used: set<nat>)
      requires sb.blockSize >= 512 && n * DIR_ENTRY_SIZE <= |first| && |first| == |second|
      requires objects == map[] && errors == []
      modifies this`objects, this`errors
      ensures Scan(objects, used, errors) == ScanTo(h, data, sb, first, second, n)
    {
      hide ParseHeader, SlotEntry, Claimed, Run;
      used := Run(0, sb.layout.dataLba);
      for index := 0 to n
        invariant Scan(objects, used, errors) == ScanTo(h, data, sb, first, second, index)
      {
        var entry := SlotEntry(h, first, second, index);
        if entry == None {
          errors := errors + [BadSlot(index)];
          continue;
        }
        var e := entry.value;
        if e.id == 0 {
          continue;
        }
        if e.flags % 2 == 0 {
          errors := errors + [NotAllocated(index)];
          continue;
        }
        var parsed := ReadHeader(sb, e);
        if parsed.Err? {
          errors := errors + [BadHeader(e.id, parsed.error)];
          continue;
        }
        if e.id in objects {
          errors := errors + [DuplicateId(e.id)];
          continue;
        }
        var ranges := Ranges(parsed.value);
        var claimed := Claimed(ranges);
        if |claimed| != BlocksIn(ranges) || claimed * used != {} {
          errors := errors + [Overlapping(e.id)];
          continue;
        }
        used := used + claimed;
        objects := objects[e.id := parsed.value];
      }
    }

    /** An index past the bitmap raises. */
    method CheckBitmap(bitmap: Bytes, used: set<nat>) returns (raised: bool)
      requires omitted == {}
      modifies this`omitted
      ensures raised <==> exists b :: b in used && b / 8 >= |bitmap|
      ensures !raised ==> omitted == set b | b in used && !Marks(bitmap, b)
    {
      hide IsSet;
      var rest := used;
      ghost var seen := {};
      while rest != {}
        invariant seen + rest == used && seen !! rest && omitted == set b | b in seen && !Marks(bitmap, b)
        invariant forall b :: b in seen ==> b / 8 < |bitmap|
        decreases |rest|
      {
        var b :| b in rest;
        if b / 8 >= |bitmap| {
          return true;
        }
        if !IsSet(bitmap[b / 8], b % 8) {
          omitted := omitted + {b};
        }
        rest, seen := rest - {b}, seen + {b};
      }
      assert seen == used;
      return false;
    }

    method ReadHeader(sb: Superblock, entry: DirectoryEntry) returns (r: Result<ObjectRecord, HeaderError>)
      requires sb.blockSize >= 512
      ensures r == ParseHeader(h, data, sb, entry)
    {
      hide HeaderShape, Unsealed, U16, U32, U64, ExtentAt, ExtentOk, BlocksIn;
      if entry.headerLba < sb.layout.dataLba || entry.headerBlocks != 1 {
        return Err(InvalidLocation);
      }
      var slice := BlockSlice(data, sb.blockSize, entry.headerLba, 1);
      if slice == None {
        return Err(BeyondImage);
      }
      var block := slice.value;
      if !HeaderShape(block) {
        return Err(Malformed);
      }
      if U32(block, HEADER_CHECKSUM_OFFSET) != h.crc(Unsealed(block)) {
        return Err(ChecksumMismatch);
      }
      if U64(block, 16) != entry.id || U64(block, 24) % 0x1_0000_0000 != entry.generation {
        return Err(IdentityMismatch);
      }
      if U32(block, 60) != entry.headerBlocks || U64(block, 48) != sb.blockSize {
        return Err(BlockCountMismatch);
      }
      var count := U16(block, 56);
      if count > MAX_EXTENTS {
        return Err(TooManyExtents);
      }
      var extents := [];
      for index := 0 to count
        invariant extents == Extents(block, index)
        invariant forall i :: 0 <= i < index ==> ExtentOk(sb, block, i)
      {
        if !ExtentOk(sb, block, index) {
          return Err(InvalidExtent);
        }
        extents := extents + [ExtentAt(block, index)];
      }
      if !AllZero(block[EXTENTS_OFFSET + count * EXTENT_SIZE..HEADER_LEN]) {
        return Err(UnusedExtents);
      }
      var dataLen, total := U64(block, 32), U64(block, 40);
      if dataLen > total || total != BlocksIn(extents) * sb.blockSize {
        return Err(InconsistentLengths);
      }
      return Ok(ObjectRecord(entry, dataLen, total, U64(block, 80), extents));
    }

    method Read(id: u64, verify: bool) returns (c: Content)
      requires objects != map[] ==> superblock.Some?
      ensures c == ReadObject(h, data, View(), id, verify)
    {
      if id !in objects {
        return Absent;
      }
      var r := objects[id];
      var size := superblock.value.blockSize;
      var remaining: nat, result: Bytes := r.dataLen, [];
      for i := 0 to |r.extents|
        invariant Gather(data, size, r.extents[..i], r.dataLen) == Gathered(result, remaining)
      {
        assert r.extents[..i + 1][..i] == r.extents[..i];
        var chunk := BlockSlice(data, size, r.extents[i].lba, r.extents[i].blocks);
        if chunk == None {
          GatherBeyond(data, size, r.extents, r.dataLen, i);
          return Unreadable;
        }
        var used := Min(remaining, |chunk.value|);
        result, remaining := result + chunk.value[..used], remaining - used;
      }
      assert r.extents[..|r.extents|] == r.extents;
      if remaining != 0 {
        return Unreadable;
      }
      if verify && h.fnv(result) != r.hash {
        return Unreadable;
      }
      return Content.Content(result);
    }
  }

  ghost function Flat(parts: seq<seq<Superblock>>): seq<Superblock> {
    if parts == [] then [] else Flat(parts[..|parts| - 1]) + parts[|parts| - 1]
  }

  lemma FlatOfFour(a: seq<Superblock>, b: seq<Superblock>, c: seq<Superblock>, d: seq<Superblock>)
    ensures Flat([a, b, c, d]) == a + b + c + d
  {
    assert [a, b, c, d][..3] == [a, b, c];
    assert [a, b, c][..2] == [a, b];
    assert [a, b][..1] == [a];
    assert [a][..0] == [];
    assert Flat([a]) == a && Flat([a, b]) == a + b && Flat([a, b, c]) == a + b + c;
  }

  lemma {:induction false} GatherBeyond(img: Bytes, size: nat, es: seq<Extent>, dataLen: nat, i: nat)
    requires i < |es| && BlockSlice(img, size, es[i].lba, es[i].blocks) == None
    ensures Gather(img, size, es, dataLen) == Beyond
  {
    if i < |es| - 1 {
      GatherBeyond(img, size, es[..|es| - 1], dataLen, i);
    }
  }
}
