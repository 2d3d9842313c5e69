/** `make-nvme-image.py`: what the writer encodes, and that the parser reads it back. */
module StoreImage {
  import opened Basics
  import opened Fields
  import opened StoreFormat

  const BLOCK_SIZE := 512
  const IMAGE_BLOCKS := 32768
  const IMAGE_BYTES := BLOCK_SIZE * IMAGE_BLOCKS

  const BITMAP_LBA := 2
  const BITMAP_BLOCKS := 8
  const DIRECTORY_LBA := 10
  const DIRECTORY_BLOCKS := 16
  const DATA_LBA := 42
  const DIRECTORY_SLOTS := 256

  const LAYOUT := Layout(BITMAP_LBA, BITMAP_BLOCKS, DIRECTORY_LBA, DIRECTORY_BLOCKS, DATA_LBA)

  lemma StandardLayout()
    ensures ForDevice(BLOCK_SIZE, IMAGE_BLOCKS) == Some(LAYOUT) && EntryCount(LAYOUT, BLOCK_SIZE) == DIRECTORY_SLOTS
  {
  }

  /** One stored object and where it went. */
  datatype Item = Item(id: u64, generation: u32, data: Bytes, header: nat, extent: nat, slot: nat)

  function BlocksFor(n: nat): nat {
    (n + BLOCK_SIZE - 1) / BLOCK_SIZE
  }

  const NUL: byte := 0 as char

  // ---------------------------------------------------------------- superblock

  /** A superblock whose numbers fit their fields. */
  ghost predicate Encodable(sb: Superblock) {
    && sb.blockSize < 0x1_0000_0000 && sb.totalBlocks < 0x1_0000_0000
    && sb.layout.bitmapBlocks < 0x1_0000_0000 && sb.layout.directoryBlocks < 0x1_0000_0000
    && sb.layout.bitmapLba < U64_END && sb.layout.directoryLba < U64_END && sb.layout.dataLba < U64_END
  }

  const U64_END := 0x1_0000_0000_0000_0000

  function SuperblockByte(crc: u32, sb: Superblock, i: nat): byte {
    if i < 8 then Le(SB_MAGIC, 8)[i]
    else if i < 12 then Le(SB_VERSION, 4)[i - 8]
    else if i < 16 then Le(SB_LEN, 4)[i - 12]
    else if i < 24 then Le(sb.generation, 8)[i - 16]
    else if i < 28 then Le(sb.blockSize, 4)[i - 24]
    else if i < 32 then Le(sb.totalBlocks, 4)[i - 28]
    else if i < 40 then Le(sb.nextId, 8)[i - 32]
    else if i < 48 then Le(sb.layout.bitmapLba, 8)[i - 40]
    else if i < 52 then Le(sb.layout.bitmapBlocks, 4)[i - 48]
    else if i < 56 then Le(sb.layout.directoryBlocks, 4)[i - 52]
    else if i < 64 then Le(sb.layout.directoryLba, 8)[i - 56]
    else if i < 72 then Le(sb.layout.dataLba, 8)[i - 64]
    else if i < 76 then Le(0, 4)[i - 72]
    else if i < 80 then Le(crc, 4)[i - 76]
    else NUL
  }

  function SuperblockWith(crc: u32, sb: Superblock): (r: Bytes)
    ensures |r| == BLOCK_SIZE && forall i :: 0 <= i < |r| ==> r[i] == SuperblockByte(crc, sb, i)
  {
    hide SuperblockByte;
    seq(BLOCK_SIZE, i requires 0 <= i => SuperblockByte(crc, sb, i))
  }

  function SealSuperblock(h: Hashes, sb: Superblock): (r: Bytes)
    ensures |r| == BLOCK_SIZE
  {
    SuperblockWith(h.crc(SuperblockWith(0, sb)[..SB_CHECKSUM_OFFSET]), sb)
  }

  /** What the writer puts into either slot. */
  function Standard(slot: nat, nextId: u64): Superblock {
    Superblock(slot, 1, BLOCK_SIZE, IMAGE_BLOCKS, nextId, LAYOUT)
  }

  function EncodeSuperblock(h: Hashes, nextId: u64): (r: Bytes)
    ensures |r| == BLOCK_SIZE
  {
    SealSuperblock(h, Standard(0, nextId))
  }

  lemma SuperblockPieces(crc: u32, sb: Superblock)
    ensures var s := SuperblockWith(crc, sb);
            && s[0..8] == Le(SB_MAGIC, 8) && s[8..12] == Le(SB_VERSION, 4) && s[12..16] == Le(SB_LEN, 4)
            && s[16..24] == Le(sb.generation, 8) && s[24..28] == Le(sb.blockSize, 4)
            && s[28..32] == Le(sb.totalBlocks, 4) && s[32..40] == Le(sb.nextId, 8)
            && s[40..48] == Le(sb.layout.bitmapLba, 8) && s[48..52] == Le(sb.layout.bitmapBlocks, 4)
  {
    hide Le;
  }

  lemma SuperblockTail(crc: u32, sb: Superblock)
    ensures var s := SuperblockWith(crc, sb);
            && s[52..56] == Le(sb.layout.directoryBlocks, 4) && s[56..64] == Le(sb.layout.directoryLba, 8)
            && s[64..72] == Le(sb.layout.dataLba, 8)
  {
    hide Le;
    var s := SuperblockWith(crc, sb);
    assert forall i :: 0 <= i < 8 ==> s[64..72][i] == SuperblockByte(crc, sb, 64 + i);
  }

  lemma SuperblockSeal(crc: u32, sb: Superblock)
    ensures var s := SuperblockWith(crc, sb);
            s[72..76] == Le(0, 4) && s[76..80] == Le(crc, 4)
  {
    hide Le;
    var s := SuperblockWith(crc, sb);
    assert forall i :: 0 <= i < 4 ==> s[72..76][i] == SuperblockByte(crc, sb, 72 + i);
    assert forall i :: 0 <= i < 4 ==> s[76..80][i] == SuperblockByte(crc, sb, 76 + i);
  }

  /** The sealed bytes come before the seal, and nothing follows it. */
  lemma SuperblockEnds(crc: u32, sb: Superblock)
    ensures var s := SuperblockWith(crc, sb);
            AllZero(s[80..]) && s[..76] == SuperblockWith(0, sb)[..76]
  {
    hide Le;
  }

  lemma SuperblockFields(crc: u32, sb: Superblock)
    requires Encodable(sb)
    ensures var s := SuperblockWith(crc, sb);
            && U64(s, 0) == SB_MAGIC && U32(s, 8) == SB_VERSION && U32(s, 12) == SB_LEN && U64(s, 16) == sb.generation
            && U32(s, 24) == sb.blockSize && U32(s, 28) == sb.totalBlocks && U64(s, 32) == sb.nextId
            && U64(s, 40) == sb.layout.bitmapLba && U32(s, 48) == sb.layout.bitmapBlocks
            && U32(s, 52) == sb.layout.directoryBlocks && U64(s, 56) == sb.layout.directoryLba
            && U64(s, 64) == sb.layout.dataLba && U32(s, 72) == 0 && U32(s, 76) == crc
  {
    hide Le, U32, U64, SuperblockWith;
    var s := SuperblockWith(crc, sb);
    SuperblockPieces(crc, sb);
    SuperblockTail(crc, sb);
    SuperblockSeal(crc, sb);
    Read64(s, 0, SB_MAGIC);
    Read32(s, 8, SB_VERSION);
    Read32(s, 12, SB_LEN);
    Read64(s, 16, sb.generation);
    Read32(s, 24, sb.blockSize);
    Read32(s, 28, sb.totalBlocks);
    Read64(s, 32, sb.nextId);
    Read64(s, 40, sb.layout.bitmapLba);
    Read32(s, 48, sb.layout.bitmapBlocks);
    Read32(s, 52, sb.layout.directoryBlocks);
    Read64(s, 56, sb.layout.directoryLba);
    Read64(s, 64, sb.layout.dataLba);
    Read32(s, 72, 0);
    Read32(s, 76, crc);
  }

  /** A sealed superblock, followed by zeros to the end of its block, reads back as itself. */
  lemma SuperblockReadsBack(h: Hashes, img: Bytes, sb: Superblock)
    requires Encodable(sb) && sb.generation != 0 && sb.nextId != 0 && 512 <= sb.blockSize <= 4096
    requires SlotStart(sb.slot, sb.blockSize) + sb.blockSize <= |img|
    requires var start := SlotStart(sb.slot, sb.blockSize);
             img[start..start + 512] == SealSuperblock(h, sb) && AllZero(img[start + 512..start + sb.blockSize])
    ensures DecodeSuperblock(h, img, sb.slot, sb.blockSize) == Some(sb)
    ensures !Unsupported(img, sb.slot, sb.blockSize)
  {
    hide U32, U64, SuperblockWith, Le, SlotStart;
    var crc := h.crc(SuperblockWith(0, sb)[..SB_CHECKSUM_OFFSET]);
    var s := SuperblockWith(crc, sb);
    SuperblockFields(crc, sb);
    SuperblockEnds(crc, sb);
    var start := SlotStart(sb.slot, sb.blockSize);
    assert Slice(img, start, start + 512) == s;
    PaddingIsZero(img, s, start, sb.blockSize);
    var wide := Slice(img, start, start + sb.blockSize);
    SameFields(wide, s);
  }

  lemma PaddingIsZero(img: Bytes, s: Bytes, start: nat, size: nat)
    requires |s| == 512 <= size && start + size <= |img|
    requires img[start..start + 512] == s && AllZero(s[80..]) && AllZero(img[start + 512..start + size])
    ensures AllZero(Slice(img, start + SB_LEN, start + size))
  {
    var rest := Slice(img, start + SB_LEN, start + size);
    assert rest[..432] == img[start..start + 512][80..] == s[80..];
    assert rest[432..] == img[start + 512..start + size];
    assert rest == s[80..] + rest[432..];
  }

  lemma SameFields(wide: Bytes, s: Bytes)
    requires |s| == 512 && |wide| >= 512 && wide[..512] == s
    ensures U64(wide, 0) == U64(s, 0) && U32(wide, 8) == U32(s, 8)
  {
    assert wide[0..8] == s[0..8];
    assert wide[8..12] == s[8..12];
  }

  // ---------------------------------------------------------------- directory entry

  function EntryByte(crc: u32, it: Item, i: nat): byte
    requires it.header < U64_END
  {
    if i < 8 then Le(it.id, 8)[i]
    else if i < 12 then Le(FLAG_ALLOCATED, 4)[i - 8]
    else if i < 16 then Le(it.generation, 4)[i - 12]
    else if i < 24 then Le(it.header, 8)[i - 16]
    else if i < 28 then Le(1, 4)[i - 24]
    else if i < 32 then Le(crc, 4)[i - 28]
    else NUL
  }

  function EntryWith(crc: u32, it: Item): (r: Bytes)
    requires it.header < U64_END
    ensures |r| == DIR_ENTRY_SIZE && forall i :: 0 <= i < |r| ==> r[i] == EntryByte(crc, it, i)
  {
    hide EntryByte;
    seq(DIR_ENTRY_SIZE, i requires 0 <= i => EntryByte(crc, it, i))
  }

  function EncodeEntry(h: Hashes, it: Item): (r: Bytes)
    requires it.header < U64_END
    ensures |r| == DIR_ENTRY_SIZE
  {
    EntryWith(Salted(h.crc(EntryWith(0, it)[..28])), it)
  }

  lemma EntryPieces(crc: u32, it: Item)
    requires it.header < U64_END
    ensures var s := EntryWith(crc, it);
            && s[0..8] == Le(it.id, 8) && s[8..12] == Le(FLAG_ALLOCATED, 4) && s[12..16] == Le(it.generation, 4)
            && s[16..24] == Le(it.header, 8) && s[24..28] == Le(1, 4) && s[28..32] == Le(crc, 4)
            && s[..28] == EntryWith(0, it)[..28]
  {
    hide Le;
  }

  /** A directory entry reads back as itself. */
  lemma EntryReadsBack(h: Hashes, it: Item)
    requires it.id != 0 && it.generation != 0 && 0 < it.header < U64_END
    ensures DecodeDirectory(h, EncodeEntry(h, it))
            == Some(DirectoryEntry(it.id, FLAG_ALLOCATED, it.generation, it.header, 1))
  {
    hide Le, U32, U64, EntryWith, Salted;
    var crc := Salted(h.crc(EntryWith(0, it)[..28]));
    var s := EntryWith(crc, it);
    EntryPieces(crc, it);
    Read64(s, 0, it.id);
    Read32(s, 8, FLAG_ALLOCATED);
    Read32(s, 12, it.generation);
    Read64(s, 16, it.header);
    Read32(s, 24, 1);
    Read32(s, 28, crc);
    NonZero(s, it.id);
  }

  lemma NonZero(s: Bytes, v: u64)
    requires |s| >= 8 && U64(s, 0) == v && v != 0
    ensures !AllZero(s)
  {
    if AllZero(s) {
      NumZero(s[0..8]);
      assert false;
    }
  }

  // ---------------------------------------------------------------- object header

  function HeaderByte(crc: u32, hash: u64, it: Item, i: nat): byte
    requires |it.data| <= IMAGE_BYTES && it.extent < IMAGE_BLOCKS
  {
    if i < 8 then Le(HEADER_MAGIC, 8)[i]
    else if i < 10 then Le(HEADER_VERSION, 2)[i - 8]
    else if i < 12 then Le(HEADER_LEN, 2)[i - 10]
    else if i < 16 then Le(FLAG_ALLOCATED, 4)[i - 12]
    else if i < 24 then Le(it.id, 8)[i - 16]
    else if i < 32 then Le(it.generation, 8)[i - 24]
    else if i < 40 then Le(|it.data|, 8)[i - 32]
    else if i < 48 then Le(BlocksFor(|it.data|) * BLOCK_SIZE, 8)[i - 40]
    else if i < 56 then Le(BLOCK_SIZE, 8)[i - 48]
    else if i < 58 then Le(1, 2)[i - 56]
    else if i < 60 then Le(HASH_FNV1A64, 2)[i - 58]
    else if i < 64 then Le(1, 4)[i - 60]
    else if i < 72 then Le(1, 8)[i - 64]
    else if i < 80 then NUL
    else if i < 88 then Le(hash, 8)[i - 80]
    else if i < 112 then NUL
    else if i < 116 then Le(crc, 4)[i - 112]
    else if i < 128 then NUL
    else if i < 136 then Le(it.extent, 8)[i - 128]
    else if i < 140 then Le(BlocksFor(|it.data|), 4)[i - 136]
    else NUL
  }

  function HeaderWith(crc: u32, hash: u64, it: Item): (r: Bytes)
    requires |it.data| <= IMAGE_BYTES && it.extent < IMAGE_BLOCKS
    ensures |r| == HEADER_LEN && forall i :: 0 <= i < |r| ==> r[i] == HeaderByte(crc, hash, it, i)
  {
    hide HeaderByte;
    seq(HEADER_LEN, i requires 0 <= i => HeaderByte(crc, hash, it, i))
  }

  function EncodeHeader(h: Hashes, it: Item): (r: Bytes)
    requires |it.data| <= IMAGE_BYTES && it.extent < IMAGE_BLOCKS
    ensures |r| == HEADER_LEN
  {
    var hash := h.fnv(it.data);
    HeaderWith(h.crc(HeaderWith(0, hash, it)), hash, it)
  }

  /** The header in its block. */
  function HeaderBlock(h: Hashes, it: Item): (r: Bytes)
    requires |it.data| <= IMAGE_BYTES && it.extent < IMAGE_BLOCKS
    ensures |r| == BLOCK_SIZE
  {
    EncodeHeader(h, it) + Zeros(BLOCK_SIZE - HEADER_LEN)
  }

  lemma HeaderPieces(crc: u32, hash: u64, it: Item)
    requires |it.data| <= IMAGE_BYTES && it.extent < IMAGE_BLOCKS
    ensures var s := HeaderWith(crc, hash, it);
            && s[0..8] == Le(HEADER_MAGIC, 8) && s[8..10] == Le(HEADER_VERSION, 2) && s[10..12] == Le(HEADER_LEN, 2)
            && s[12..16] == Le(FLAG_ALLOCATED, 4) && s[16..24] == Le(it.id, 8) && s[24..32] == Le(it.generation, 8)
            && s[32..40] == Le(|it.data|, 8) && s[40..48] == Le(BlocksFor(|it.data|) * BLOCK_SIZE, 8)
            && s[48..56] == Le(BLOCK_SIZE, 8)
  {
    hide Le, BlocksFor;
  }

  lemma HeaderMiddle(crc: u32, hash: u64, it: Item)
    requires |it.data| <= IMAGE_BYTES && it.extent < IMAGE_BLOCKS
    ensures var s := HeaderWith(crc, hash, it);
            && s[56..58] == Le(1, 2) && s[58..60] == Le(HASH_FNV1A64, 2) && s[60..64] == Le(1, 4) && s[64..72] == Le(1, 8)
            && AllZero(s[72..80]) && s[80..88] == Le(hash, 8) && AllZero(s[88..112]) && s[112..116] == Le(crc, 4)
  {
    hide Le, BlocksFor;
  }

  lemma HeaderTail(crc: u32, hash: u64, it: Item)
    requires |it.data| <= IMAGE_BYTES && it.extent < IMAGE_BLOCKS
    ensures var s := HeaderWith(crc, hash, it);
            && AllZero(s[116..128]) && s[128..136] == Le(it.extent, 8) && s[136..140] == Le(BlocksFor(|it.data|), 4)
            && AllZero(s[140..384])
            && s[..112] == HeaderWith(0, hash, it)[..112] && s[116..] == HeaderWith(0, hash, it)[116..]
  {
    hide Le, BlocksFor;
  }

  lemma ZeroField(n: nat)
    ensures Le(0, n) == Zeros(n)
  {
    if n > 0 {
      ZeroField(n - 1);
    }
  }

  lemma InBlock(s: Bytes, n: nat)
    ensures forall i, j :: 0 <= i <= j <= |s| ==> (s + Zeros(n))[i..j] == s[i..j]
    ensures AllZero((s + Zeros(n))[|s|..])
  {
    var t := s + Zeros(n);
    forall i, j | 0 <= i <= j <= |s| ensures t[i..j] == s[i..j] {
    }
  }

  /** The fields of a header, read from its block. */
  lemma HeaderFields(h: Hashes, it: Item)
    requires |it.data| <= IMAGE_BYTES && it.extent < IMAGE_BLOCKS
    ensures var b := HeaderBlock(h, it);
            && U64(b, 0) == HEADER_MAGIC && U16(b, 8) == HEADER_VERSION && U16(b, 10) == HEADER_LEN
            && U32(b, 12) == FLAG_ALLOCATED && U64(b, 16) == it.id && U64(b, 24) == it.generation
            && U64(b, 32) == |it.data| && U64(b, 40) == BlocksFor(|it.data|) * BLOCK_SIZE && U64(b, 48) == BLOCK_SIZE
            && U16(b, 56) == 1 && U16(b, 58) == HASH_FNV1A64 && U32(b, 60) == 1 && U64(b, 64) == 1
  {
    hide Le, U16, U32, U64, HeaderWith, Zeros;
    var hash := h.fnv(it.data);
    var crc := h.crc(HeaderWith(0, hash, it));
    var s, b := HeaderWith(crc, hash, it), HeaderBlock(h, it);
    InBlock(s, BLOCK_SIZE - HEADER_LEN);
    HeaderPieces(crc, hash, it);
    HeaderMiddle(crc, hash, it);
    Read64(b, 0, HEADER_MAGIC);
    Read16(b, 8, HEADER_VERSION);
    Read16(b, 10, HEADER_LEN);
    Read32(b, 12, FLAG_ALLOCATED);
    Read64(b, 16, it.id);
    Read64(b, 24, it.generation);
    Read64(b, 32, |it.data|);
    Read64(b, 40, BlocksFor(|it.data|) * BLOCK_SIZE);
    Read64(b, 48, BLOCK_SIZE);
    Read16(b, 56, 1);
    Read16(b, 58, HASH_FNV1A64);
    Read32(b, 60, 1);
    Read64(b, 64, 1);
  }

  lemma HeaderRest(h: Hashes, it: Item)
    requires |it.data| <= IMAGE_BYTES && it.extent < IMAGE_BLOCKS
    ensures var b := HeaderBlock(h, it);
            && AllZero(b[72..80]) && U64(b, 80) == h.fnv(it.data) && U32(b, 88) == 0 && AllZero(b[92..112])
            && U32(b, 112) == h.crc(Unsealed(b)) && AllZero(b[116..128])
            && U64(b, 128) == it.extent && U32(b, 136) == BlocksFor(|it.data|) && U32(b, 140) == 0
            && AllZero(b[144..384]) && AllZero(b[384..])
  {
    hide Le, U16, U32, U64, HeaderWith, Zeros;
    var hash := h.fnv(it.data);
    var crc := h.crc(HeaderWith(0, hash, it));
    var s, b := HeaderWith(crc, hash, it), HeaderBlock(h, it);
    InBlock(s, BLOCK_SIZE - HEADER_LEN);
    HeaderMiddle(crc, hash, it);
    HeaderTail(crc, hash, it);
    Read64(b, 80, hash);
    assert b[88..112][..4] == b[88..92] && b[88..112][4..] == b[92..112];
    ZeroField(4);
    Read32(b, 88, 0);
    Read32(b, 112, crc);
    Read64(b, 128, it.extent);
    Read32(b, 136, BlocksFor(|it.data|));
    assert b[140..384][..4] == b[140..144] && b[140..384][4..] == b[144..384];
    Read32(b, 140, 0);
    HeaderMiddle(0, hash, it);
    UnsealedIs(s, b, HeaderWith(0, hash, it));
  }

  lemma UnsealedIs(s: Bytes, b: Bytes, z: Bytes)
    requires |s| == HEADER_LEN && |b| == BLOCK_SIZE && |z| == HEADER_LEN && b[..384] == s
    requires s[..112] == z[..112] && s[116..] == z[116..] && z[112..116] == Le(0, 4)
    ensures Unsealed(b) == z
  {
    hide Le;
    ZeroField(4);
    assert b[..112] == s[..112];
    assert b[116..384] == s[116..];
    assert z == z[..112] + z[112..116] + z[116..];
  }

  function EntryOf(it: Item): DirectoryEntry
    requires it.header < U64_END
  {
    DirectoryEntry(it.id, FLAG_ALLOCATED, it.generation, it.header, 1)
  }

  function RecordOf(h: Hashes, it: Item): ObjectRecord
    requires it.header < IMAGE_BLOCKS
  {
    ObjectRecord(EntryOf(it), |it.data|, BlocksFor(|it.data|) * BLOCK_SIZE, h.fnv(it.data),
                 [Extent(it.extent, BlocksFor(|it.data|))])
  }

  /** An item that the writer may have placed. */
  ghost predicate ItemOk(it: Item) {
    && it.id != 0 && it.generation != 0 && it.data != []
    && DATA_LBA <= it.header && it.extent == it.header + 1
    && it.extent + BlocksFor(|it.data|) <= IMAGE_BLOCKS && it.slot < DIRECTORY_SLOTS
  }

  lemma ItemBounds(it: Item)
    requires ItemOk(it)
    ensures |it.data| <= BlocksFor(|it.data|) * BLOCK_SIZE <= IMAGE_BYTES && BlocksFor(|it.data|) > 0
    ensures it.header < IMAGE_BLOCKS && it.extent < IMAGE_BLOCKS
  {
  }

  /** A header reads back as the record of its item. */
  lemma HeaderReadsBack(h: Hashes, img: Bytes, sb: Superblock, it: Item)
    requires ItemOk(it) && |it.data| <= IMAGE_BYTES && it.header < IMAGE_BLOCKS && it.extent < IMAGE_BLOCKS
    requires sb.blockSize == BLOCK_SIZE && sb.totalBlocks == IMAGE_BLOCKS && sb.layout == LAYOUT
    requires BlockSlice(img, BLOCK_SIZE, it.header, 1) == Some(HeaderBlock(h, it))
    ensures ParseHeader(h, img, sb, EntryOf(it)) == Ok(RecordOf(h, it))
  {
    hide BlockSlice, HeaderBlock, U16, U32, U64, AllZero, Unsealed;
    var b := HeaderBlock(h, it);
    ItemBounds(it);
    HeaderFields(h, it);
    HeaderRest(h, it);
    assert ExtentAt(b, 0) == Extent(it.extent, BlocksFor(|it.data|));
    assert ExtentOk(sb, b, 0);
    OneExtent(b, it.extent, BlocksFor(|it.data|));
  }

  lemma OneExtent(b: Bytes, lba: nat, blocks: nat)
    requires |b| >= HEADER_LEN && ExtentAt(b, 0) == Extent(lba, blocks)
    ensures Extents(b, 1) == [Extent(lba, blocks)] && BlocksIn(Extents(b, 1)) == blocks
  {
    hide ExtentAt;
    var es := Extents(b, 1);
    assert es[..0] == [];
    assert BlocksIn(es) == BlocksIn(es[..0]) + es[0].blocks;
  }
}
