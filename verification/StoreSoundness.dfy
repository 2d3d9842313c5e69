/** Whatever the image, what the parser accepts is consistent. */
module StoreSoundness {
  import opened Basics
  import opened Fields
  import opened StoreFormat

  // ---------------------------------------------------------------- sets of blocks

  lemma {:induction false} ClaimedIs(es: seq<Extent>, b: nat)
    ensures b in Claimed(es) <==> exists i :: 0 <= i < |es| && Covers(es[i], b)
  {
    if es != [] {
      ClaimedIs(es[..|es| - 1], b);
      if b in Claimed(es) {
        if b !in Claimed(es[..|es| - 1]) {
          assert Covers(es[|es| - 1], b);
        } else {
          var i :| 0 <= i < |es| - 1 && Covers(es[..|es| - 1][i], b);
          assert Covers(es[i], b);
        }
      }
      if i :| 0 <= i < |es| && Covers(es[i], b) {
        if i < |es| - 1 {
          assert Covers(es[..|es| - 1][i], b);
        }
      }
    }
  }

  predicate Covers(e: Extent, b: nat) {
    e.lba <= b < e.lba + e.blocks
  }

  lemma UnionSize(a: set<nat>, b: set<nat>)
    ensures |a + b| <= |a| + |b|
    ensures |a + b| == |a| + |b| ==> a * b == {}
  {
    var c := b - a;
    assert a + b == a + c && a * c == {};
    assert b == c + a * b && c * (a * b) == {};
  }

  lemma {:induction false} ClaimedSize(es: seq<Extent>)
    ensures |Claimed(es)| <= BlocksIn(es)
  {
    if es != [] {
      var last := es[|es| - 1];
      ClaimedSize(es[..|es| - 1]);
      UnionSize(Claimed(es[..|es| - 1]), Run(last.lba, last.blocks));
    }
  }

  /** As many blocks as the ranges promise: no range runs into another. */
  lemma {:induction false} ExactMeansApart(es: seq<Extent>, i: nat, j: nat, b: nat)
    requires |Claimed(es)| == BlocksIn(es) && i < j < |es| && Covers(es[j], b)
    ensures !Covers(es[i], b)
    decreases |es|
  {
    var rest := es[..|es| - 1];
    var last := es[|es| - 1];
    ClaimedSize(rest);
    UnionSize(Claimed(rest), Run(last.lba, last.blocks));
    if j < |es| - 1 {
      ExactMeansApart(rest, i, j, b);
    } else {
      assert rest[i] == es[i];
      ClaimedIs(rest, b);
      assert b !in Claimed(rest) * Run(last.lba, last.blocks);
    }
  }

  // ---------------------------------------------------------------- accepted records

  ghost predicate ExtentInside(sb: Superblock, e: Extent) {
    sb.layout.dataLba <= e.lba && 0 < e.blocks && e.lba + e.blocks <= sb.totalBlocks
  }

  /** What an accepted header guarantees. */
  ghost predicate RecordOk(sb: Superblock, img: Bytes, id: u64, r: ObjectRecord) {
    && r.entry.id == id && id != 0
    && sb.layout.dataLba <= r.entry.headerLba && r.entry.headerBlocks == 1
    && (r.entry.headerLba + 1) * sb.blockSize <= |img|
    && (forall i :: 0 <= i < |r.extents| ==> ExtentInside(sb, r.extents[i]))
    && r.dataLen <= r.allocatedLen == BlocksIn(r.extents) * sb.blockSize
  }

  lemma HeaderGuarantees(h: Hashes, img: Bytes, sb: Superblock, entry: DirectoryEntry)
    requires sb.blockSize >= 512 && ParseHeader(h, img, sb, entry).Ok? && entry.id != 0
    ensures RecordOk(sb, img, entry.id, ParseHeader(h, img, sb, entry).value)
    ensures ParseHeader(h, img, sb, entry).value.entry == entry
  {
    hide HeaderShape, Unsealed, AllZero, U16, U32, U64;
    var r := ParseHeader(h, img, sb, entry).value;
    var data := BlockSlice(img, sb.blockSize, entry.headerLba, 1).value;
    OneMore(entry.headerLba, sb.blockSize);
    forall i | 0 <= i < |r.extents| ensures ExtentInside(sb, r.extents[i]) {
      assert ExtentOk(sb, data, i);
      assert r.extents[i] == ExtentAt(data, i);
    }
  }

  lemma OneMore(a: nat, size: nat)
    ensures (a + 1) * size == a * size + 1 * size
  {
  }

  // ---------------------------------------------------------------- the scan

  ghost predicate Apart(s: Scan, a: u64, b: u64)
    requires a in s.objects && b in s.objects
  {
    a != b ==> Claimed(Ranges(s.objects[a])) * Claimed(Ranges(s.objects[b])) == {}
  }

  ghost predicate Accepted(sb: Superblock, img: Bytes, s: Scan, id: u64)
    requires id in s.objects
  {
    var r := s.objects[id];
    && RecordOk(sb, img, id, r)
    && |Claimed(Ranges(r))| == BlocksIn(Ranges(r))
    && Claimed(Ranges(r)) <= s.used && Claimed(Ranges(r)) * Run(0, sb.layout.dataLba) == {}
  }

  ghost predicate ScanOk(sb: Superblock, img: Bytes, s: Scan) {
    && Run(0, sb.layout.dataLba) <= s.used
    && (forall id :: id in s.objects ==> Accepted(sb, img, s, id))
    && (forall a, b :: a in s.objects && b in s.objects ==> Apart(s, a, b))
  }

  lemma EntryKeepsScan(h: Hashes, img: Bytes, sb: Superblock, s: Scan, index: nat, entry: Option<DirectoryEntry>)
    requires sb.blockSize >= 512 && ScanOk(sb, img, s)
    ensures ScanOk(sb, img, ScanEntry(h, img, sb, s, index, entry))
  {
    hide ParseHeader, RecordOk, Claimed, BlocksIn, Run;
    var s' := ScanEntry(h, img, sb, s, index, entry);
    if s'.objects == s.objects {
      assert s'.used == s.used;
      forall id | id in s'.objects ensures Accepted(sb, img, s', id) {
        assert Accepted(sb, img, s, id);
      }
      forall a, b | a in s'.objects && b in s'.objects ensures Apart(s', a, b) {
        assert Apart(s, a, b);
      }
    } else {
      var e := entry.value;
      var r := ParseHeader(h, img, sb, e).value;
      HeaderGuarantees(h, img, sb, e);
      forall id | id in s'.objects ensures Accepted(sb, img, s', id) {
        assert id != e.id ==> Accepted(sb, img, s, id);
      }
      forall a, b | a in s'.objects && b in s'.objects ensures Apart(s', a, b) {
        assert a != e.id ==> Accepted(sb, img, s, a);
        assert b != e.id ==> Accepted(sb, img, s, b);
        assert a != e.id && b != e.id ==> Apart(s, a, b);
      }
    }
  }

  lemma {:induction false} ScanIsOk(h: Hashes, img: Bytes, sb: Superblock, first: Bytes, second: Bytes, n: nat)
    requires sb.blockSize >= 512 && n * DIR_ENTRY_SIZE <= |first| && |first| == |second|
    ensures ScanOk(sb, img, ScanTo(h, img, sb, first, second, n))
  {
    hide ScanEntry, SlotEntry, Run;
    if n > 0 {
      ScanIsOk(h, img, sb, first, second, n - 1);
      EntryKeepsScan(h, img, sb, ScanTo(h, img, sb, first, second, n - 1), n - 1, SlotEntry(h, first, second, n - 1));
    }
  }

  // ---------------------------------------------------------------- reading

  lemma Scaled(a: nat, b: nat, size: nat)
    requires a <= b
    ensures a * size <= b * size
  {
  }

  lemma Distributes(a: nat, b: nat, size: nat)
    ensures (a + b) * size == a * size + b * size
  {
  }

  /** Extents inside the device give exactly the bytes asked for, as long as they last. */
  lemma {:induction false} GatherFills(img: Bytes, size: nat, es: seq<Extent>, dataLen: nat, total: nat)
    requires total * size <= |img| && forall i :: 0 <= i < |es| ==> es[i].lba + es[i].blocks <= total
    ensures var g := Gather(img, size, es, dataLen);
            g.Gathered? && |g.bytes| == Min(dataLen, BlocksIn(es) * size) && g.remaining == dataLen - |g.bytes|
  {
    if es != [] {
      var last := es[|es| - 1];
      var rest := es[..|es| - 1];
      GatherFills(img, size, rest, dataLen, total);
      Scaled(last.lba + last.blocks, total, size);
      Distributes(last.lba, last.blocks, size);
      Distributes(BlocksIn(rest), last.blocks, size);
    }
  }

  // ---------------------------------------------------------------- any image

  lemma CandidateSize(h: Hashes, img: Bytes, sb: Superblock)
    requires sb in Candidates(h, img)
    ensures sb.blockSize in {512, 1024, 2048, 4096}
  {
    hide DecodeSuperblock;
  }

  lemma ChosenIsBounded(h: Hashes, img: Bytes)
    requires ChooseSuperblock(h, img).Ok? && ChooseSuperblock(h, img).value.Some?
    ensures var sb := ChooseSuperblock(h, img).value.value;
            && sb.blockSize in {512, 1024, 2048, 4096} && sb.totalBlocks * sb.blockSize <= |img|
            && ForDevice(sb.blockSize, sb.totalBlocks) == Some(sb.layout)
  {
    hide Candidates, AnyUnsupported, Newer, ForDevice;
    CandidateSize(h, img, Newer(Candidates(h, img)));
  }

  /** The header's block has a bit in the bitmap, whose last block may reach past the device. */
  ghost predicate Mapped(sb: Superblock, r: ObjectRecord) {
    r.entry.headerLba / 8 < sb.layout.bitmapBlocks * sb.blockSize
  }

  lemma HeaderIsClaimed(r: ObjectRecord)
    requires r.entry.headerBlocks == 1
    ensures r.entry.headerLba in Claimed(Ranges(r))
  {
    assert Covers(Ranges(r)[0], r.entry.headerLba);
    ClaimedIs(Ranges(r), r.entry.headerLba);
  }

  /**
   * Whenever parsing completes: the extents of accepted objects lie in the data area and inside the
   * device, their headers in the data area, the image and the bitmap; no two objects share a block,
   * and no object shares a block with itself.
   */
  lemma ParserIsSound(h: Hashes, img: Bytes)
    requires ParseImage(h, img).Parsed? && ParseImage(h, img).superblock.Some?
    ensures var p := ParseImage(h, img);
            var sb := p.superblock.value;
            && (forall id :: id in p.objects ==> RecordOk(sb, img, id, p.objects[id]))
            && (forall id :: id in p.objects ==> Mapped(sb, p.objects[id]))
            && (forall id :: id in p.objects ==> |Claimed(Ranges(p.objects[id]))| == BlocksIn(Ranges(p.objects[id])))
            && (forall a, b :: a in p.objects && b in p.objects && a != b ==>
                  Claimed(Ranges(p.objects[a])) * Claimed(Ranges(p.objects[b])) == {})
            && (forall id :: id in p.objects ==> Claimed(Ranges(p.objects[id])) * Run(0, sb.layout.dataLba) == {})
            && sb.totalBlocks * sb.blockSize <= |img|
  {
    hide ChooseSuperblock, ParseDirectory, RecordOk, Claimed, Ranges, BlocksIn, Run;
    ChosenIsBounded(h, img);
    var p := ParseImage(h, img);
    var s := DirectoryIsOk(h, img, ChooseSuperblock(h, img).value.value);
    var sb := p.superblock.value;
    forall id | id in p.objects ensures Accepted(sb, img, s, id) && Mapped(sb, p.objects[id]) {
      assert Accepted(sb, img, s, id);
      HeaderIsMapped(sb, img, s, id);
    }
    forall a, b | a in p.objects && b in p.objects ensures Apart(s, a, b) {
    }
  }

  lemma HeaderIsMapped(sb: Superblock, img: Bytes, s: Scan, id: u64)
    requires id in s.objects && Accepted(sb, img, s, id)
    requires forall b :: b in s.used ==> b / 8 < sb.layout.bitmapBlocks * sb.blockSize
    ensures Mapped(sb, s.objects[id])
  {
    hide Claimed, Ranges, BlocksIn, Run;
    HeaderIsClaimed(s.objects[id]);
  }

  lemma DirectoryIsOk(h: Hashes, img: Bytes, sb: Superblock) returns (s: Scan)
    requires sb.blockSize >= 512 && ParseDirectory(h, img, sb).Parsed?
    ensures ScanOk(sb, img, s) && s.objects == ParseDirectory(h, img, sb).objects
    ensures ParseDirectory(h, img, sb).superblock == Some(sb)
    ensures forall b :: b in s.used ==> b / 8 < sb.layout.bitmapBlocks * sb.blockSize
  {
    hide ScanTo, ScanOk, EntryCount, Marks, BlockSlice;
    var l := sb.layout;
    var first := BlockSlice(img, sb.blockSize, l.directoryLba, l.directoryBlocks).value;
    var second := BlockSlice(img, sb.blockSize, l.directoryLba + l.directoryBlocks, l.directoryBlocks).value;
    var n := EntryCount(l, sb.blockSize);
    EntriesFit(l, sb.blockSize);
    ScanIsOk(h, img, sb, first, second, n);
    s := ScanTo(h, img, sb, first, second, n);
  }

  lemma EntriesFit(l: Layout, size: nat)
    ensures EntryCount(l, size) * DIR_ENTRY_SIZE <= l.directoryBlocks * size
  {
  }

  /** Reading an accepted object never runs out of extents or of image. */
  lemma ReadsExactly(h: Hashes, img: Bytes, id: u64)
    requires ParseImage(h, img).Parsed? && ParseImage(h, img).superblock.Some? && id in ParseImage(h, img).objects
    ensures var p := ParseImage(h, img);
            var c := ReadObject(h, img, p, id, false);
            c.Content? && |c.bytes| == p.objects[id].dataLen
  {
    hide ParseImage, BlocksIn, Gather, Claimed;
    ParserIsSound(h, img);
    var p := ParseImage(h, img);
    var sb, r := p.superblock.value, p.objects[id];
    assert RecordOk(sb, img, id, r);
    forall i | 0 <= i < |r.extents| ensures r.extents[i].lba + r.extents[i].blocks <= sb.totalBlocks {
      assert ExtentInside(sb, r.extents[i]);
    }
    GatherFills(img, sb.blockSize, r.extents, r.dataLen, sb.totalBlocks);
  }
}
