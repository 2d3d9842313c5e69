/**
 * Where `fs-inspect.py` lets an object's header lie. A header is checked against the data area and
 * the image file, and its block must have a bit in the bitmap; the device size is never consulted.
 * So a header may lie past the device exactly when the bitmap and the file both reach past it.
 */
module HeaderBounds {
  import opened Basics
  import opened Fields
  import opened StoreFormat
  import opened StoreSoundness
  import opened StoreImage
  import ImageRoundTrip

  ghost predicate BlockSizeOk(size: nat) {
    size == 512 || size == 1024 || size == 2048 || size == 4096
  }

  /** The bitmap ends with the device, or the file does. */
  ghost predicate Confined(size: nat, total: nat, length: nat)
    requires size > 0
  {
    total % (8 * size) == 0 || length < (total + 1) * size
  }

  ghost predicate Describes(h: Hashes, img: Bytes, size: nat, total: nat) {
    var p := ParseImage(h, img);
    p.Parsed? && p.superblock.Some? && p.superblock.value.blockSize == size && p.superblock.value.totalBlocks == total
  }

  ghost predicate HeadersBelow(objects: map<u64, ObjectRecord>, total: nat) {
    forall id :: id in objects ==> objects[id].entry.headerLba < total
  }

  // ---------------------------------------------------------------- the condition suffices

  lemma BitmapEnds(size: nat, total: nat, block: nat)
    requires BlockSizeOk(size) && ForDevice(size, total).Some? && total % (8 * size) == 0
    requires block / 8 < ForDevice(size, total).value.bitmapBlocks * size
    ensures block < total
  {
    if size == 512 {
    } else if size == 1024 {
    } else if size == 2048 {
    } else {
    }
  }

  lemma FileEnds(size: nat, total: nat, length: nat, block: nat)
    requires length < (total + 1) * size && (block + 1) * size <= length
    ensures block < total
  {
    if block >= total {
      Scaled(total + 1, block + 1, size);
    }
  }

  lemma HeaderInside(sb: Superblock, img: Bytes, id: u64, r: ObjectRecord)
    requires BlockSizeOk(sb.blockSize) && ForDevice(sb.blockSize, sb.totalBlocks) == Some(sb.layout)
    requires RecordOk(sb, img, id, r) && Mapped(sb, r) && Confined(sb.blockSize, sb.totalBlocks, |img|)
    ensures r.entry.headerLba < sb.totalBlocks
  {
    hide ForDevice, BlocksIn;
    if sb.totalBlocks % (8 * sb.blockSize) == 0 {
      BitmapEnds(sb.blockSize, sb.totalBlocks, r.entry.headerLba);
    } else {
      FileEnds(sb.blockSize, sb.totalBlocks, |img|, r.entry.headerLba);
    }
  }

  /** Where the bitmap or the file ends with the device, no accepted header lies past it. */
  lemma HeadersInside(h: Hashes, img: Bytes)
    requires ParseImage(h, img).Parsed? && ParseImage(h, img).superblock.Some?
    requires var sb := ParseImage(h, img).superblock.value;
             sb.blockSize > 0 && Confined(sb.blockSize, sb.totalBlocks, |img|)
    ensures var p := ParseImage(h, img); HeadersBelow(p.objects, p.superblock.value.totalBlocks)
  {
    hide ParseImage, ForDevice, RecordOk, Mapped, Confined, Claimed, Ranges, BlocksIn, Run;
    ParserIsSound(h, img);
    ParsedChosen(h, img);
    ChosenIsBounded(h, img);
    var p := ParseImage(h, img);
    forall id | id in p.objects ensures p.objects[id].entry.headerLba < p.superblock.value.totalBlocks {
      HeaderInside(p.superblock.value, img, id, p.objects[id]);
    }
  }

  lemma ParsedChosen(h: Hashes, img: Bytes)
    requires ParseImage(h, img).Parsed? && ParseImage(h, img).superblock.Some?
    ensures ChooseSuperblock(h, img) == Ok(ParseImage(h, img).superblock)
  {
    hide ChooseSuperblock, ScanTo, BlockSlice, EntryCount, Marks;
  }

  // ---------------------------------------------------------------- the header of an empty object

  function EmptyHeaderByte(crc: u32, size: nat, i: nat): byte {
    if i < 8 then Le(HEADER_MAGIC, 8)[i]
    else if i < 10 then Le(HEADER_VERSION, 2)[i - 8]
    else if i < 12 then Le(HEADER_LEN, 2)[i - 10]
    else if i < 16 then Le(FLAG_ALLOCATED, 4)[i - 12]
    else if i < 24 then Le(1, 8)[i - 16]
    else if i < 32 then Le(1, 8)[i - 24]
    else if i < 48 then NUL
    else if i < 56 then Le(size, 8)[i - 48]
    else if i < 58 then NUL
    else if i < 60 then Le(HASH_FNV1A64, 2)[i - 58]
    else if i < 64 then Le(1, 4)[i - 60]
    else if i < 72 then Le(1, 8)[i - 64]
    else if i < 112 then NUL
    else if i < 116 then Le(crc, 4)[i - 112]
    else NUL
  }

  function EmptyHeaderWith(crc: u32, size: nat): (r: Bytes)
    ensures |r| == size && forall i :: 0 <= i < |r| ==> r[i] == EmptyHeaderByte(crc, size, i)
  {
    hide EmptyHeaderByte;
    seq(size, i requires 0 <= i => EmptyHeaderByte(crc, size, i))
  }

  /** The block that holds it. */
  function EmptyHeader(h: Hashes, size: nat): (r: Bytes)
    requires size >= 512
    ensures |r| == size
  {
    EmptyHeaderWith(h.crc(EmptyHeaderWith(0, size)[..HEADER_LEN]), size)
  }

  lemma EmptyPieces(crc: u32, size: nat)
    requires size >= 512
    ensures var s := EmptyHeaderWith(crc, size);
            && s[0..8] == Le(HEADER_MAGIC, 8) && s[8..10] == Le(HEADER_VERSION, 2) && s[10..12] == Le(HEADER_LEN, 2)
            && s[12..16] == Le(FLAG_ALLOCATED, 4) && s[16..24] == Le(1, 8) && s[24..32] == Le(1, 8)
            && s[48..56] == Le(size, 8)
  {
    hide Le;
  }

  lemma EmptyRest(crc: u32, size: nat)
    requires size >= 512
    ensures var s := EmptyHeaderWith(crc, size);
            && s[58..60] == Le(HASH_FNV1A64, 2) && s[60..64] == Le(1, 4) && s[64..72] == Le(1, 8)
            && s[112..116] == Le(crc, 4)
  {
    hide Le;
  }

  lemma EmptyZeros(crc: u32, size: nat)
    requires size >= 512
    ensures var s := EmptyHeaderWith(crc, size);
            AllZero(s[32..48]) && AllZero(s[56..58]) && AllZero(s[72..112]) && AllZero(s[116..])
  {
    hide Le;
  }

  lemma EmptyUnsealed(crc: u32, size: nat)
    requires size >= 512
    ensures Unsealed(EmptyHeaderWith(crc, size)) == EmptyHeaderWith(0, size)[..HEADER_LEN]
  {
    hide Le;
    ZeroField(4);
    var s, z := EmptyHeaderWith(crc, size), EmptyHeaderWith(0, size);
    assert s[..112] == z[..112] && s[116..384] == z[116..384];
    EmptyRest(0, size);
    assert z[..384] == z[..112] + z[112..116] + z[116..384];
  }

  lemma EmptyFields(crc: u32, size: nat)
    requires 512 <= size < U64_END
    ensures var s := EmptyHeaderWith(crc, size);
            && U64(s, 0) == HEADER_MAGIC && U16(s, 8) == HEADER_VERSION && U16(s, 10) == HEADER_LEN
            && U32(s, 12) == FLAG_ALLOCATED && U64(s, 16) == 1 && U64(s, 24) == 1 && U64(s, 48) == size
            && U16(s, 58) == HASH_FNV1A64 && U32(s, 60) == 1 && U64(s, 64) == 1 && U32(s, 112) == crc
  {
    hide Le, U16, U32, U64, EmptyHeaderWith;
    var s := EmptyHeaderWith(crc, size);
    EmptyPieces(crc, size);
    EmptyRest(crc, size);
    Read64(s, 0, HEADER_MAGIC);
    Read16(s, 8, HEADER_VERSION);
    Read16(s, 10, HEADER_LEN);
    Read32(s, 12, FLAG_ALLOCATED);
    Read64(s, 16, 1);
    Read64(s, 24, 1);
    Read64(s, 48, size);
    Read16(s, 58, HASH_FNV1A64);
    Read32(s, 60, 1);
    Read64(s, 64, 1);
    Read32(s, 112, crc);
  }

  lemma EmptyLengths(crc: u32, size: nat)
    requires size >= 512
    ensures var s := EmptyHeaderWith(crc, size);
            U64(s, 32) == 0 && U64(s, 40) == 0 && U16(s, 56) == 0 && U32(s, 88) == 0
  {
    hide Le, Num, EmptyHeaderWith;
    var s := EmptyHeaderWith(crc, size);
    EmptyZeros(crc, size);
    assert s[32..40] == s[32..48][..8] && s[40..48] == s[32..48][8..] && s[88..92] == s[72..112][16..20];
    NumZero(s[32..40]);
    NumZero(s[40..48]);
    NumZero(s[56..58]);
    NumZero(s[88..92]);
  }

  // ---------------------------------------------------------------- an image that overhangs

  /** One empty object with its header at `block`. */
  function EntryAt(block: u64): DirectoryEntry {
    DirectoryEntry(1, FLAG_ALLOCATED, 1, block, 1)
  }

  function Sole(block: u64): Item {
    Item(1, 1, [], block, 0, 0)
  }

  /** Byte offsets of the parts of the image. */
  datatype Places = Places(bitmap: nat, first: nat, second: nat, data: nat, header: nat)

  ghost function PlacesOf(sb: Superblock, block: nat): Places {
    var l, size := sb.layout, sb.blockSize;
    Places(l.bitmapLba * size, l.directoryLba * size, (l.directoryLba + l.directoryBlocks) * size, l.dataLba * size,
           block * size)
  }

  ghost predicate Ordered(p: Places, size: nat, length: nat) {
    && 512 <= size && p.bitmap == 2 * size && p.bitmap + size <= p.first && p.first + size <= p.second
    && p.second + size <= p.data <= p.header && p.header + size <= length
  }

  ghost predicate Aligned(p: Places) {
    p.first % 512 == 0 && p.second % 512 == 0 && p.header % 512 == 0
  }

  const FULL: byte := 255 as char

  function OverhangByte(h: Hashes, sb: Superblock, block: u64, p: Places, i: nat): byte
    requires sb.blockSize >= 512
  {
    if i < 512 then SealSuperblock(h, sb)[i]
    else if p.bitmap <= i < p.first then FULL
    else if p.first <= i < p.first + 32 then EncodeEntry(h, Sole(block))[i - p.first]
    else if p.second <= i < p.second + 32 then EncodeEntry(h, Sole(block))[i - p.second]
    else if p.header <= i < p.header + sb.blockSize then EmptyHeader(h, sb.blockSize)[i - p.header]
    else NUL
  }

  function Overhang(h: Hashes, sb: Superblock, block: u64, p: Places, length: nat): (r: Bytes)
    requires sb.blockSize >= 512
    ensures |r| == length && forall i :: 0 <= i < length ==> r[i] == OverhangByte(h, sb, block, p, i)
  {
    hide OverhangByte;
    seq(length, i requires 0 <= i => OverhangByte(h, sb, block, p, i))
  }

  /** The parts of the image, where the parser looks for them. */
  ghost predicate Laid(h: Hashes, img: Bytes, sb: Superblock, block: u64, p: Places) {
    && Ordered(p, sb.blockSize, |img|)
    && img[..512] == SealSuperblock(h, sb) && AllZero(img[512..2 * sb.blockSize])
    && (forall i :: p.bitmap <= i < p.first ==> img[i] == FULL)
    && img[p.first..p.first + 32] == EncodeEntry(h, Sole(block)) && AllZero(img[p.first + 32..p.second])
    && img[p.second..p.second + 32] == EncodeEntry(h, Sole(block)) && AllZero(img[p.second + 32..p.data])
    && img[p.header..p.header + sb.blockSize] == EmptyHeader(h, sb.blockSize)
  }

  lemma OverhangIsLaid(h: Hashes, sb: Superblock, block: u64, p: Places, length: nat)
    requires Ordered(p, sb.blockSize, length)
    ensures Laid(h, Overhang(h, sb, block, p, length), sb, block, p)
  {
    hide SealSuperblock, EncodeEntry, EmptyHeader, Overhang;
  }

  lemma Starts(i: nat, at: nat)
    requires i % 512 == 0 && at % 512 == 0
    ensures at <= i < at + 512 ==> i == at
  {
  }

  lemma NoTagInside(h: Hashes, sb: Superblock, block: u64, p: Places, length: nat, i: nat)
    requires Ordered(p, sb.blockSize, length) && Aligned(p) && 512 <= i && i % 512 == 0 && i + 80 <= length
    ensures var img := Overhang(h, sb, block, p, length); img[i] != 'C' || img[i + 1] != 'O'
  {
    hide SealSuperblock, Overhang, EncodeEntry, EmptyHeader;
    var img := Overhang(h, sb, block, p, length);
    assert img[i] == OverhangByte(h, sb, block, p, i) && img[i + 1] == OverhangByte(h, sb, block, p, i + 1);
    Starts(i, p.first);
    Starts(i, p.second);
    Starts(i, p.header);
    EntryStarts(h, block);
    HeaderStarts(h, sb.blockSize);
  }

  lemma EntryStarts(h: Hashes, block: u64)
    ensures EncodeEntry(h, Sole(block))[0] != 'C'
  {
    hide EntryWith, Salted, Le;
    var crc := Salted(h.crc(EntryWith(0, Sole(block))[..28]));
    assert EntryWith(crc, Sole(block))[0] == EntryByte(crc, Sole(block), 0);
    FirstBytes(1, 8);
  }

  lemma HeaderStarts(h: Hashes, size: nat)
    requires size >= 512
    ensures EmptyHeader(h, size)[1] != 'O' && forall j :: 116 <= j < size ==> EmptyHeader(h, size)[j] == NUL
  {
    hide EmptyHeaderWith, Le;
    var crc := h.crc(EmptyHeaderWith(0, size)[..HEADER_LEN]);
    assert EmptyHeaderWith(crc, size)[1] == EmptyHeaderByte(crc, size, 1);
    FirstBytes(HEADER_MAGIC, 8);
  }

  lemma FirstBytes(v: nat, n: nat)
    requires n >= 2
    ensures Le(v, n)[0] == (v % 256) as char && Le(v, n)[1] == (v / 256 % 256) as char
  {
  }

  /** An empty header parses wherever the file holds it. */
  lemma EmptyParses(h: Hashes, img: Bytes, sb: Superblock, block: u64)
    requires 512 <= sb.blockSize <= 4096 && sb.layout.dataLba <= block
    requires BlockSlice(img, sb.blockSize, block, 1) == Some(EmptyHeader(h, sb.blockSize))
    ensures var r := ParseHeader(h, img, sb, EntryAt(block));
            r.Ok? && r.value.entry == EntryAt(block) && r.value.extents == []
  {
    hide U16, U32, U64, EmptyHeaderWith, Unsealed, BlockSlice, ExtentOk;
    var size := sb.blockSize;
    var crc := h.crc(EmptyHeaderWith(0, size)[..HEADER_LEN]);
    var s := EmptyHeaderWith(crc, size);
    EmptyFields(crc, size);
    EmptyLengths(crc, size);
    EmptyZeros(crc, size);
    EmptyUnsealed(crc, size);
    assert s[72..80] == s[72..112][..8] && s[92..112] == s[72..112][20..];
    assert s[116..128] == s[116..][..12] && s[384..] == s[116..][268..] && s[128..384] == s[116..][12..268];
  }

  // ---------------------------------------------------------------- how it parses

  ghost predicate Geometry(size: nat, total: nat, length: nat) {
    BlockSizeOk(size) && total < 0x1_0000_0000 && total * size <= length && ForDevice(size, total).Some?
  }

  /** A block of the data area with a bit in the bitmap and a place in the file. */
  ghost predicate Admissible(size: nat, total: nat, length: nat, block: nat)
    requires Geometry(size, total, length)
  {
    var l := ForDevice(size, total).value;
    l.dataLba <= block && block / 8 < l.bitmapBlocks * size && (block + 1) * size <= length
  }

  ghost function DeviceOf(size: nat, total: nat): Superblock
    requires BlockSizeOk(size) && ForDevice(size, total).Some?
  {
    Superblock(0, 1, size, total, 2, ForDevice(size, total).value)
  }

  lemma LayoutShape(size: nat, total: nat)
    requires BlockSizeOk(size) && ForDevice(size, total).Some?
    ensures var l := ForDevice(size, total).value;
            && l.bitmapLba == 2 && 1 <= l.bitmapBlocks && l.directoryLba == 2 + l.bitmapBlocks
            && 1 <= l.directoryBlocks && l.dataLba == l.directoryLba + 2 * l.directoryBlocks && l.dataLba + 2 <= total
  {
    if size == 512 {
    } else if size == 1024 {
    } else if size == 2048 {
    } else {
    }
  }

  lemma BitmapReach(size: nat, total: nat)
    requires BlockSizeOk(size) && ForDevice(size, total).Some?
    ensures var reach := ForDevice(size, total).value.bitmapBlocks * size;
            total <= 8 * reach <= total + 8 * size + 7
    ensures total % (8 * size) != 0 ==> total / 8 < ForDevice(size, total).value.bitmapBlocks * size
  {
    if size == 512 {
    } else if size == 1024 {
    } else if size == 2048 {
    } else {
    }
  }

  lemma Multiple(k: nat, size: nat)
    requires BlockSizeOk(size)
    ensures k * size % 512 == 0
  {
    if size == 512 {
    } else if size == 1024 {
    } else if size == 2048 {
    } else {
    }
  }

  lemma Fits(size: nat, total: nat, length: nat, block: nat)
    requires Geometry(size, total, length) && Admissible(size, total, length, block)
    ensures Encodable(DeviceOf(size, total)) && 0 < block < U64_END
    ensures var p := PlacesOf(DeviceOf(size, total), block); Ordered(p, size, length) && Aligned(p)
  {
    hide ForDevice;
    var l := ForDevice(size, total).value;
    LayoutShape(size, total);
    BitmapReach(size, total);
    Multiple(l.directoryLba, size);
    Multiple(l.directoryLba + l.directoryBlocks, size);
    Multiple(block, size);
    InOrder(l, size, block);
  }

  lemma InOrder(l: Layout, size: nat, block: nat)
    requires 1 <= l.bitmapBlocks && l.directoryLba == 2 + l.bitmapBlocks && 1 <= l.directoryBlocks
    requires l.dataLba == l.directoryLba + 2 * l.directoryBlocks <= block
    ensures 2 * size + size <= l.directoryLba * size
    ensures l.directoryLba * size + size <= (l.directoryLba + l.directoryBlocks) * size
    ensures (l.directoryLba + l.directoryBlocks) * size + size <= l.dataLba * size <= block * size
    ensures block * size + size == (block + 1) * size
  {
    Scaled(3, l.directoryLba, size);
    Scaled(l.directoryLba + 1, l.directoryLba + l.directoryBlocks, size);
    Scaled(l.directoryLba + l.directoryBlocks + 1, l.dataLba, size);
    Scaled(l.dataLba, block, size);
  }

  lemma FoundAt(h: Hashes, sb: Superblock, block: u64, p: Places, length: nat, size: nat)
    requires BlockSizeOk(size) && BlockSizeOk(sb.blockSize) && Encodable(sb)
    requires sb.slot == 0 && sb.generation != 0 && sb.nextId != 0
    requires Ordered(p, sb.blockSize, length) && Aligned(p)
    ensures var img := Overhang(h, sb, block, p, length);
            && CandidatesOf(h, img, size) == (if size == sb.blockSize then [sb] else [])
            && !Unsupported(img, 0, size) && !Unsupported(img, 1, size)
  {
    hide Overhang, DecodeSuperblock, Unsupported, SealSuperblock, Candidate;
    var img := Overhang(h, sb, block, p, length);
    OverhangIsLaid(h, sb, block, p, length);
    if size + 80 <= length {
      NoTagInside(h, sb, block, p, length, size);
    }
    ImageRoundTrip.NothingAt(h, img, 1, size);
    if size == sb.blockSize {
      Foremost(h, img, sb, block, p);
    } else {
      ImageRoundTrip.NotAtOther(h, img, sb, size);
    }
  }

  lemma Foremost(h: Hashes, img: Bytes, sb: Superblock, block: u64, p: Places)
    requires BlockSizeOk(sb.blockSize) && Encodable(sb) && sb.slot == 0 && sb.generation != 0 && sb.nextId != 0
    requires Laid(h, img, sb, block, p)
    ensures Candidate(h, img, 0, sb.blockSize) == [sb] && !Unsupported(img, 0, sb.blockSize)
  {
    hide DecodeSuperblock, Unsupported, SealSuperblock, EncodeEntry, EmptyHeader;
    assert img[0..512] == img[..512];
    assert img[512..sb.blockSize] == img[512..2 * sb.blockSize][..sb.blockSize - 512];
    SuperblockReadsBack(h, img, sb);
  }

  lemma OverhangChosen(h: Hashes, size: nat, total: nat, length: nat, block: u64)
    requires Geometry(size, total, length) && Admissible(size, total, length, block)
    ensures var sb := DeviceOf(size, total);
            ChooseSuperblock(h, Overhang(h, sb, block, PlacesOf(sb, block), length)) == Ok(Some(sb))
  {
    hide Overhang, CandidatesOf, Unsupported, ForDevice, PlacesOf;
    var sb := DeviceOf(size, total);
    var p := PlacesOf(sb, block);
    Fits(size, total, length, block);
    FoundAt(h, sb, block, p, length, 512);
    FoundAt(h, sb, block, p, length, 1024);
    FoundAt(h, sb, block, p, length, 2048);
    FoundAt(h, sb, block, p, length, 4096);
    assert Candidates(h, Overhang(h, sb, block, p, length)) == [sb];
  }

  ghost predicate Bank(h: Hashes, bank: Bytes, block: u64) {
    |bank| >= 32 && bank[..32] == EncodeEntry(h, Sole(block)) && AllZero(bank[32..])
  }

  lemma SlotIs(h: Hashes, first: Bytes, second: Bytes, block: u64, k: nat)
    requires block != 0 && Bank(h, first, block) && Bank(h, second, block) && |first| == |second|
    requires (k + 1) * DIR_ENTRY_SIZE <= |first|
    ensures SlotEntry(h, first, second, k) == Some(if k == 0 then EntryAt(block) else VACANT)
  {
    hide DecodeDirectory, EncodeEntry;
    var o := k * DIR_ENTRY_SIZE;
    if k == 0 {
      EntryReadsBack(h, Sole(block));
      assert first[0..32] == first[..32] && second[0..32] == second[..32];
    } else {
      assert first[o..o + 32] == first[32..][o - 32..o] && second[o..o + 32] == second[32..][o - 32..o];
      VacantDecodes(h, first[o..o + 32]);
      VacantDecodes(h, second[o..o + 32]);
    }
  }

  lemma VacantDecodes(h: Hashes, data: Bytes)
    requires |data| == DIR_ENTRY_SIZE && AllZero(data)
    ensures DecodeDirectory(h, data) == Some(VACANT)
  {
  }

  lemma SoleClaim(r: ObjectRecord, block: u64)
    requires r.entry == EntryAt(block) && r.extents == []
    ensures Claimed(Ranges(r)) == {block} && BlocksIn(Ranges(r)) == 1
  {
    var rs := Ranges(r);
    assert rs == [Extent(block, 1)] && rs[..0] == [];
    assert Run(block, 1) == {block};
  }

  lemma EntryFound(h: Hashes, img: Bytes, sb: Superblock, block: u64, r: ObjectRecord)
    requires sb.blockSize >= 512 && sb.layout.dataLba <= block
    requires ParseHeader(h, img, sb, EntryAt(block)) == Ok(r) && r.entry == EntryAt(block) && r.extents == []
    ensures ScanEntry(h, img, sb, Scan(map[], Run(0, sb.layout.dataLba), []), 0, Some(EntryAt(block)))
            == Scan(map[1 := r], Run(0, sb.layout.dataLba) + {block}, [])
  {
    hide ParseHeader, Claimed, Ranges, BlocksIn, Run;
    SoleClaim(r, block);
  }

  lemma {:induction false} ScanFindsOne(
      h: Hashes, img: Bytes, sb: Superblock, first: Bytes, second: Bytes, block: u64, r: ObjectRecord, n: nat)
    requires sb.blockSize >= 512 && 1 <= n && n * DIR_ENTRY_SIZE <= |first| && |first| == |second|
    requires block != 0 && sb.layout.dataLba <= block && Bank(h, first, block) && Bank(h, second, block)
    requires ParseHeader(h, img, sb, EntryAt(block)) == Ok(r) && r.entry == EntryAt(block) && r.extents == []
    ensures ScanTo(h, img, sb, first, second, n) == Scan(map[1 := r], Run(0, sb.layout.dataLba) + {block}, [])
  {
    hide ParseHeader, SlotEntry, Bank, ScanEntry, Run;
    SlotIs(h, first, second, block, n - 1);
    if n == 1 {
      EntryFound(h, img, sb, block, r);
      assert ScanTo(h, img, sb, first, second, 0) == Scan(map[], Run(0, sb.layout.dataLba), []);
    } else {
      ScanFindsOne(h, img, sb, first, second, block, r, n - 1);
      VacantSkipped(h, img, sb, ScanTo(h, img, sb, first, second, n - 1), n - 1);
    }
  }

  lemma VacantSkipped(h: Hashes, img: Bytes, sb: Superblock, s: Scan, index: nat)
    requires sb.blockSize >= 512
    ensures ScanEntry(h, img, sb, s, index, Some(VACANT)) == s
  {
    hide ParseHeader;
  }

  lemma {:induction false} OnesSet(bits: nat, k: nat)
    requires k < bits <= 8
    ensures BitOf(Ones(bits), k)
  {
    if k > 0 {
      OnesSet(bits - 1, k - 1);
    }
  }

  function Ones(bits: nat): nat {
    if bits == 0 then 0 else 2 * Ones(bits - 1) + 1
  }

  lemma FullIsSet(k: nat)
    requires k < 8
    ensures IsSet(FULL, k)
  {
    assert Ones(8) == 2 * (2 * (2 * (2 * (2 * (2 * (2 * (2 * Ones(0) + 1) + 1) + 1) + 1) + 1) + 1) + 1) + 1;
    OnesSet(8, k);
  }

  lemma BankRead(h: Hashes, img: Bytes, size: nat, lba: nat, blocks: nat, end: nat, block: u64)
    requires lba * size + 32 <= end <= |img| && blocks * size == end - lba * size
    requires img[lba * size..lba * size + 32] == EncodeEntry(h, Sole(block)) && AllZero(img[lba * size + 32..end])
    ensures var b := BlockSlice(img, size, lba, blocks);
            b.Some? && Bank(h, b.value, block) && |b.value| == blocks * size
  {
    hide EncodeEntry;
    var at := lba * size;
    var b := BlockSlice(img, size, lba, blocks).value;
    assert b == img[at..end];
    assert b[..32] == img[at..at + 32] && b[32..] == img[at + 32..end];
  }

  ghost predicate Shaped(l: Layout) {
    && l.bitmapLba == 2 && 1 <= l.bitmapBlocks && l.directoryLba == 2 + l.bitmapBlocks
    && 1 <= l.directoryBlocks && l.dataLba == l.directoryLba + 2 * l.directoryBlocks
  }

  lemma BanksRead(h: Hashes, img: Bytes, sb: Superblock, block: u64)
    requires Shaped(sb.layout) && Laid(h, img, sb, block, PlacesOf(sb, block))
    ensures var l := sb.layout;
            var first := BlockSlice(img, sb.blockSize, l.directoryLba, l.directoryBlocks);
            var second := BlockSlice(img, sb.blockSize, l.directoryLba + l.directoryBlocks, l.directoryBlocks);
            && first.Some? && second.Some? && |first.value| == |second.value|
            && Bank(h, first.value, block) && Bank(h, second.value, block)
  {
    hide BlockSlice, Bank, EncodeEntry, EmptyHeader, SealSuperblock;
    var l, size, p := sb.layout, sb.blockSize, PlacesOf(sb, block);
    Distributes(l.directoryLba, l.directoryBlocks, size);
    Distributes(l.directoryLba + l.directoryBlocks, l.directoryBlocks, size);
    BankRead(h, img, size, l.directoryLba, l.directoryBlocks, p.second, block);
    BankRead(h, img, size, l.directoryLba + l.directoryBlocks, l.directoryBlocks, p.data, block);
  }

  lemma HeaderRead(h: Hashes, img: Bytes, sb: Superblock, block: u64)
    requires Laid(h, img, sb, block, PlacesOf(sb, block))
    ensures BlockSlice(img, sb.blockSize, block, 1) == Some(EmptyHeader(h, sb.blockSize))
  {
    hide EncodeEntry, EmptyHeader, SealSuperblock;
  }

  lemma BitmapRead(h: Hashes, img: Bytes, sb: Superblock, block: u64)
    requires Shaped(sb.layout) && Laid(h, img, sb, block, PlacesOf(sb, block))
    ensures var b := BlockSlice(img, sb.blockSize, sb.layout.bitmapLba, sb.layout.bitmapBlocks);
            && b.Some? && |b.value| == sb.layout.bitmapBlocks * sb.blockSize
            && forall i :: 0 <= i < |b.value| ==> b.value[i] == FULL
  {
    hide EncodeEntry, EmptyHeader, SealSuperblock;
    Distributes(sb.layout.bitmapLba, sb.layout.bitmapBlocks, sb.blockSize);
  }

  lemma EveryBlockMarked(bitmap: Bytes, b: nat)
    requires (forall i :: 0 <= i < |bitmap| ==> bitmap[i] == FULL) && b / 8 < |bitmap|
    ensures Marks(bitmap, b)
  {
    hide IsSet;
    FullIsSet(b % 8);
  }

  /** The image parses without a complaint, with the header where it was put. */
  lemma OverhangParses(h: Hashes, size: nat, total: nat, length: nat, block: u64) returns (img: Bytes)
    requires Geometry(size, total, length) && Admissible(size, total, length, block)
    ensures |img| == length && Describes(h, img, size, total)
    ensures var p := ParseImage(h, img);
            && p.errors == [] && p.omitted == {}
            && p.objects.Keys == {1} && p.objects[1].entry.headerLba == block
  {
    hide Overhang, ChooseSuperblock, ForDevice, ParseHeader, ScanTo, BlockSlice, PlacesOf, Laid, Bank, Marks, Run,
      EncodeEntry, EmptyHeader;
    var sb := DeviceOf(size, total);
    var l := sb.layout;
    img := Overhang(h, sb, block, PlacesOf(sb, block), length);
    Fits(size, total, length, block);
    LayoutShape(size, total);
    BitmapReach(size, total);
    OverhangChosen(h, size, total, length, block);
    OverhangIsLaid(h, sb, block, PlacesOf(sb, block), length);
    BanksRead(h, img, sb, block);
    HeaderRead(h, img, sb, block);
    EmptyParses(h, img, sb, block);
    BitmapRead(h, img, sb, block);
    var first := BlockSlice(img, size, l.directoryLba, l.directoryBlocks).value;
    var second := BlockSlice(img, size, l.directoryLba + l.directoryBlocks, l.directoryBlocks).value;
    var r := ParseHeader(h, img, sb, EntryAt(block)).value;
    EntriesFit(l, size);
    SomeEntry(l, size);
    ScanFindsOne(h, img, sb, first, second, block, r, EntryCount(l, size));
    var bitmap := BlockSlice(img, size, l.bitmapLba, l.bitmapBlocks).value;
    forall b | b in Run(0, l.dataLba) + {block} ensures b / 8 < |bitmap| && Marks(bitmap, b) {
      EveryBlockMarked(bitmap, b);
    }
  }

  lemma SomeEntry(l: Layout, size: nat)
    requires 1 <= l.directoryBlocks && 512 <= size
    ensures 1 <= EntryCount(l, size)
  {
    Scaled(1, l.directoryBlocks, size);
  }

  // ---------------------------------------------------------------- the exact condition

  /**
   * For every checksum pair and every geometry: all images of that length keep their headers inside
   * the device if and only if the bitmap or the file ends with it.
   */
  lemma HeadersInsideExactly(h: Hashes, size: nat, total: nat, length: nat)
    requires Geometry(size, total, length)
    ensures (forall img :: |img| == length && Describes(h, img, size, total) ==> HeadersBelow(ParseImage(h, img).objects, total))
            <==> Confined(size, total, length)
  {
    hide ParseImage, ForDevice;
    if Confined(size, total, length) {
      forall img | |img| == length && Describes(h, img, size, total)
        ensures HeadersBelow(ParseImage(h, img).objects, total)
      {
        HeadersInside(h, img);
      }
    } else {
      LayoutShape(size, total);
      BitmapReach(size, total);
      var img := OverhangParses(h, size, total, length, total);
      assert !HeadersBelow(ParseImage(h, img).objects, total) by {
        assert 1 in ParseImage(h, img).objects;
      }
    }
  }

  /** A device of 1024 blocks of 512 bytes in a file of 2049 blocks, with a header at block 2000. */
  lemma HeaderPastDevice(h: Hashes) returns (img: Bytes)
    ensures |img| == 2049 * 512 && Describes(h, img, 512, 1024)
    ensures var p := ParseImage(h, img);
            && p.errors == [] && p.omitted == {}
            && p.objects.Keys == {1} && p.objects[1].entry.headerLba == 2000
  {
    hide ParseImage;
    assert ForDevice(512, 1024) == Some(Layout(2, 1, 3, 1, 5));
    img := OverhangParses(h, 512, 1024, 2049 * 512, 2000);
  }
}
