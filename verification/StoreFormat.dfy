/** `fs-inspect.py`: the strict reading of an object-store image, as functions of its bytes. */
module StoreFormat {
  import opened Basics
  import opened Fields

  const SB_MAGIC: u64 := 0x3452_5453_4A42_4F43
  const SB_VERSION: u32 := 4
  const SB_SLOTS := 2
  const SB_LEN := 80
  const SB_CHECKSUM_OFFSET := 76

  const DIR_ENTRY_SIZE := 32
  const MAX_DIRECTORY_BLOCKS := 4096
  const FLAG_ALLOCATED: u32 := 1

  const HEADER_MAGIC: u64 := 0x3444_484A_424F_4343
  const HEADER_VERSION: u16 := 4
  const HEADER_LEN := 384
  const HEADER_CHECKSUM_OFFSET := 112
  const EXTENTS_OFFSET := 128
  const EXTENT_SIZE := 16
  const MAX_EXTENTS := 16
  const HASH_FNV1A64: u16 := 2

  /** The checksums: any deterministic functions. */
  datatype Hashes = Hashes(crc: Bytes -> u32, fnv: Bytes -> u64)

  /** Directory checksums are salted. */
  function Salted(crc: u32): u32 {
    ((crc as bv32) ^ 0x3444_4952) as int
  }

  datatype Layout = Layout(bitmapLba: nat, bitmapBlocks: nat, directoryLba: nat, directoryBlocks: nat, dataLba: nat)

  datatype Superblock = Superblock(
    slot: nat, generation: u64, blockSize: nat, totalBlocks: nat, nextId: u64, layout: Layout)

  datatype DirectoryEntry = DirectoryEntry(id: u64, flags: u32, generation: u32, headerLba: u64, headerBlocks: u32)

  const VACANT := DirectoryEntry(0, 0, 0, 0, 0)

  datatype Extent = Extent(lba: nat, blocks: nat)

  datatype ObjectRecord = ObjectRecord(
    entry: DirectoryEntry, dataLen: nat, allocatedLen: nat, hash: u64, extents: seq<Extent>)

  datatype HeaderError =
    | InvalidLocation | BeyondImage | Malformed | ChecksumMismatch | IdentityMismatch | BlockCountMismatch
    | TooManyExtents | InvalidExtent | UnusedExtents | InconsistentLengths

  datatype Error =
    | UnsupportedFormat | NoSuperblock | DeviceExceedsImage | TooSmall | LayoutMismatch
    | BadSlot(index: nat)
    | NotAllocated(index: nat)
    | BadHeader(id: u64, why: HeaderError)
    | DuplicateId(id: u64)
    | Overlapping(id: u64)

  datatype Result<+T, +E> = Ok(value: T) | Err(error: E)

  // ---------------------------------------------------------------- layout and superblock

  function ForDevice(blockSize: nat, totalBlocks: nat): Option<Layout>
    requires blockSize > 0
  {
    var bitmapBlocks := ((totalBlocks + 7) / 8 + blockSize - 1) / blockSize;
    var directoryBlocks := Min(Max(totalBlocks / 2048, 1), MAX_DIRECTORY_BLOCKS);
    var directoryLba := SB_SLOTS + bitmapBlocks;
    var dataLba := directoryLba + 2 * directoryBlocks;
    if dataLba + 2 > totalBlocks then None
    else Some(Layout(SB_SLOTS, bitmapBlocks, directoryLba, directoryBlocks, dataLba))
  }

  function EntryCount(l: Layout, blockSize: nat): nat {
    l.directoryBlocks * blockSize / DIR_ENTRY_SIZE
  }

  /** Python slicing: bounds past the end are the end. */
  function Slice(data: Bytes, lo: nat, hi: nat): Bytes {
    data[Min(lo, |data|)..Max(Min(lo, |data|), Min(hi, |data|))]
  }

  function SlotStart(slot: nat, size: nat): nat {
    slot * size
  }

  predicate SuperblockOk(h: Hashes, img: Bytes, start: nat, size: nat)
    requires start + SB_LEN <= |img|
  {
    var data := Slice(img, start, start + 512);
    && U64(data, 0) == SB_MAGIC && U32(data, 8) == SB_VERSION && U32(data, 12) == SB_LEN
    && U64(data, 16) != 0 && U64(data, 32) != 0 && U32(data, 72) == 0
    && AllZero(Slice(img, start + SB_LEN, start + size))
    && U32(data, SB_CHECKSUM_OFFSET) == h.crc(data[..SB_CHECKSUM_OFFSET])
    && 512 <= U32(data, 24) <= 4096
  }

  function DecodeSuperblock(h: Hashes, img: Bytes, slot: nat, size: nat): Option<Superblock> {
    hide SlotStart;
    var start := SlotStart(slot, size);
    if start + SB_LEN > |img| || !SuperblockOk(h, img, start, size) then None
    else
      var data := Slice(img, start, start + 512);
      Some(Superblock(slot, U64(data, 16), U32(data, 24), U32(data, 28), U64(data, 32),
                      Layout(U64(data, 40), U32(data, 48), U64(data, 56), U32(data, 52), U64(data, 64))))
  }

  /** A superblock found at the place that its own block size gives it. */
  function Candidate(h: Hashes, img: Bytes, slot: nat, size: nat): seq<Superblock> {
    var sb := DecodeSuperblock(h, img, slot, size);
    if sb.Some? && sb.value.blockSize == size then [sb.value] else []
  }

  function CandidatesOf(h: Hashes, img: Bytes, size: nat): seq<Superblock> {
    Candidate(h, img, 0, size) + Candidate(h, img, 1, size)
  }

  function Candidates(h: Hashes, img: Bytes): seq<Superblock> {
    CandidatesOf(h, img, 512) + CandidatesOf(h, img, 1024) + CandidatesOf(h, img, 2048) + CandidatesOf(h, img, 4096)
  }

  /** Another version's tag where a superblock could be. */
  predicate Unsupported(img: Bytes, slot: nat, size: nat) {
    var data := Slice(img, SlotStart(slot, size), SlotStart(slot, size) + size);
    && |data| >= SB_LEN && (data[..7] == "COBJSTR" || data[..7] == "COJBSTR")
    && (U64(data, 0) != SB_MAGIC || U32(data, 8) != SB_VERSION)
  }

  predicate AnyUnsupported(img: Bytes) {
    || Unsupported(img, 0, 512) || Unsupported(img, 1, 512)
    || Unsupported(img, 0, 1024) || Unsupported(img, 1, 1024)
    || Unsupported(img, 0, 2048) || Unsupported(img, 1, 2048)
    || Unsupported(img, 0, 4096) || Unsupported(img, 1, 4096)
  }

  /** The first candidate of the greatest generation. */
  function Newer(sbs: seq<Superblock>): (r: Superblock)
    requires sbs != []
    ensures r in sbs
  {
    if |sbs| == 1 then sbs[0]
    else
      var best := Newer(sbs[..|sbs| - 1]);
      if sbs[|sbs| - 1].generation > best.generation then sbs[|sbs| - 1] else best
  }

  /** The superblock that describes the image, or why there is none; a blank image has neither. */
  function ChooseSuperblock(h: Hashes, img: Bytes): Result<Option<Superblock>, Error> {
    var found := Candidates(h, img);
    if AnyUnsupported(img) then Err(UnsupportedFormat)
    else if found == [] then
      if AllZero(Slice(img, 0, 2 * 4096)) then Ok(None) else Err(NoSuperblock)
    else
      var sb := Newer(found);
      if sb.totalBlocks * sb.blockSize > |img| then Err(DeviceExceedsImage)
      else if sb.blockSize == 0 then Err(TooSmall)
      else
        var expected := ForDevice(sb.blockSize, sb.totalBlocks);
        if expected == None then Err(TooSmall)
        else if sb.layout != expected.value then Err(LayoutMismatch)
        else Ok(Some(sb))
  }

  // ---------------------------------------------------------------- directory entries

  function DecodeDirectory(h: Hashes, data: Bytes): Option<DirectoryEntry>
    requires |data| == DIR_ENTRY_SIZE
  {
    if AllZero(data) then Some(VACANT)
    else if U32(data, 28) != Salted(h.crc(data[..28])) then None
    else
      var e := DirectoryEntry(U64(data, 0), U32(data, 8), U32(data, 12), U64(data, 16), U32(data, 24));
      if e.generation == 0 then None
      else if e.id == 0 && (e.flags != 0 || e.headerLba != 0 || e.headerBlocks != 0) then None
      else if e.id != 0 && (e.flags != FLAG_ALLOCATED || e.headerLba == 0 || e.headerBlocks != 1) then None
      else Some(e)
  }

  function Newest(first: Option<DirectoryEntry>, second: Option<DirectoryEntry>): Option<DirectoryEntry> {
    if first == None then second
    else if second == None then first
    else if first.value.generation >= second.value.generation then first else second
  }

  // ---------------------------------------------------------------- object headers

  function BlockSlice(img: Bytes, size: nat, lba: nat, blocks: nat): (r: Option<Bytes>)
    ensures r.Some? <==> lba * size + blocks * size <= |img|
    ensures r.Some? ==> |r.value| == blocks * size
  {
    var start := lba * size;
    if start + blocks * size > |img| then None else Some(img[start..start + blocks * size])
  }

  predicate HeaderShape(data: Bytes)
    requires |data| >= HEADER_LEN
  {
    && U64(data, 0) == HEADER_MAGIC && U16(data, 8) == HEADER_VERSION && U16(data, 10) == HEADER_LEN
    && U32(data, 12) == FLAG_ALLOCATED && U64(data, 16) != 0 && U64(data, 24) != 0 && U64(data, 64) != 0
    && U32(data, 88) <= 1
    && AllZero(data[72..80]) && AllZero(data[92..112]) && AllZero(data[116..128]) && AllZero(data[HEADER_LEN..])
    && U16(data, 58) == HASH_FNV1A64
  }

  /** The header with its checksum field cleared. */
  function Unsealed(data: Bytes): Bytes
    requires |data| >= HEADER_LEN
  {
    data[..HEADER_CHECKSUM_OFFSET] + Zeros(4) + data[HEADER_CHECKSUM_OFFSET + 4..HEADER_LEN]
  }

  function ExtentAt(data: Bytes, index: nat): Extent
    requires index < MAX_EXTENTS && |data| >= HEADER_LEN
  {
    var offset := EXTENTS_OFFSET + index * EXTENT_SIZE;
    Extent(U64(data, offset), U32(data, offset + 8))
  }

  predicate ExtentOk(sb: Superblock, data: Bytes, index: nat)
    requires index < MAX_EXTENTS && |data| >= HEADER_LEN
  {
    var e := ExtentAt(data, index);
    e.blocks != 0 && e.lba >= sb.layout.dataLba && e.lba + e.blocks <= sb.totalBlocks
    && U32(data, EXTENTS_OFFSET + index * EXTENT_SIZE + 12) == 0
  }

  function Extents(data: Bytes, count: nat): seq<Extent>
    requires count <= MAX_EXTENTS && |data| >= HEADER_LEN
  {
    seq(count, i requires 0 <= i < count => ExtentAt(data, i))
  }

  function BlocksIn(es: seq<Extent>): nat {
    if es == [] then 0 else BlocksIn(es[..|es| - 1]) + es[|es| - 1].blocks
  }

  function ParseHeader(h: Hashes, img: Bytes, sb: Superblock, entry: DirectoryEntry): Result<ObjectRecord, HeaderError>
    requires sb.blockSize >= 512
  {
    if entry.headerLba < sb.layout.dataLba || entry.headerBlocks != 1 then Err(InvalidLocation)
    else
      var block := BlockSlice(img, sb.blockSize, entry.headerLba, 1);
      if block == None then Err(BeyondImage)
      else
        var data := block.value;
        if !HeaderShape(data) then Err(Malformed)
        else if U32(data, HEADER_CHECKSUM_OFFSET) != h.crc(Unsealed(data)) then Err(ChecksumMismatch)
        else if U64(data, 16) != entry.id || U64(data, 24) % 0x1_0000_0000 != entry.generation then Err(IdentityMismatch)
        else if U32(data, 60) != entry.headerBlocks || U64(data, 48) != sb.blockSize then Err(BlockCountMismatch)
        else
          var count := U16(data, 56);
          if count > MAX_EXTENTS then Err(TooManyExtents)
          else if exists i :: 0 <= i < count && !ExtentOk(sb, data, i) then Err(InvalidExtent)
          else if !AllZero(data[EXTENTS_OFFSET + count * EXTENT_SIZE..HEADER_LEN]) then Err(UnusedExtents)
          else
            var extents := Extents(data, count);
            var dataLen, total := U64(data, 32), U64(data, 40);
            if dataLen > total || total != BlocksIn(extents) * sb.blockSize then Err(InconsistentLengths)
            else Ok(ObjectRecord(entry, dataLen, total, U64(data, 80), extents))
  }

  // ---------------------------------------------------------------- the directory

  /** What the directory scan has gathered. */
  datatype Scan = Scan(objects: map<u64, ObjectRecord>, used: set<nat>, errors: seq<Error>)

  function Run(lba: nat, blocks: nat): (r: set<nat>)
    ensures |r| == blocks && forall b :: b in r <==> lba <= b < lba + blocks
  {
    if blocks == 0 then {} else Run(lba, blocks - 1) + {lba + blocks - 1}
  }

  function Ranges(r: ObjectRecord): seq<Extent> {
    [Extent(r.entry.headerLba, r.entry.headerBlocks)] + r.extents
  }

  function Claimed(es: seq<Extent>): set<nat> {
    if es == [] then {} else Claimed(es[..|es| - 1]) + Run(es[|es| - 1].lba, es[|es| - 1].blocks)
  }

  function Fail(s: Scan, e: Error): Scan {
    s.(errors := s.errors + [e])
  }

  /** One slot of the mirrored directory. */
  function ScanEntry(h: Hashes, img: Bytes, sb: Superblock, s: Scan, index: nat, entry: Option<DirectoryEntry>): Scan
    requires sb.blockSize >= 512
  {
    if entry == None then Fail(s, BadSlot(index))
    else if entry.value.id == 0 then s
    else if entry.value.flags % 2 == 0 then Fail(s, NotAllocated(index))
    else
      var parsed := ParseHeader(h, img, sb, entry.value);
      if parsed.Err? then Fail(s, BadHeader(entry.value.id, parsed.error))
      else if entry.value.id in s.objects then Fail(s, DuplicateId(entry.value.id))
      else
        var ranges := Ranges(parsed.value);
        var claimed := Claimed(ranges);
        if |claimed| != BlocksIn(ranges) || claimed * s.used != {} then Fail(s, Overlapping(entry.value.id))
        else Scan(s.objects[entry.value.id := parsed.value], s.used + claimed, s.errors)
  }

  function SlotEntry(h: Hashes, first: Bytes, second: Bytes, index: nat): Option<DirectoryEntry>
    requires (index + 1) * DIR_ENTRY_SIZE <= |first| && |first| == |second|
  {
    var o := index * DIR_ENTRY_SIZE;
    Newest(DecodeDirectory(h, first[o..o + DIR_ENTRY_SIZE]), DecodeDirectory(h, second[o..o + DIR_ENTRY_SIZE]))
  }

  function ScanTo(h: Hashes, img: Bytes, sb: Superblock, first: Bytes, second: Bytes, n: nat): Scan
    requires sb.blockSize >= 512 && n * DIR_ENTRY_SIZE <= |first| && |first| == |second|
  {
    if n == 0 then Scan(map[], Run(0, sb.layout.dataLba), [])
    else ScanEntry(h, img, sb, ScanTo(h, img, sb, first, second, n - 1), n - 1, SlotEntry(h, first, second, n - 1))
  }

  // ---------------------------------------------------------------- the allocation bitmap

  /** Bit `k` of a number. */
  predicate BitOf(v: nat, k: nat) {
    if k == 0 then v % 2 == 1 else BitOf(v / 2, k - 1)
  }

  predicate IsSet(b: byte, k: nat) {
    BitOf(b as int, k)
  }

  predicate Marks(bitmap: Bytes, block: nat) {
    block / 8 < |bitmap| && IsSet(bitmap[block / 8], block % 8)
  }

  // ---------------------------------------------------------------- the whole image

  /** `omitted` are the reachable blocks that the bitmap does not mark; reading may also raise. */
  datatype Parsed =
    | Parsed(superblock: Option<Superblock>, objects: map<u64, ObjectRecord>, errors: seq<Error>, omitted: set<nat>)
    | Raised

  function ParseDirectory(h: Hashes, img: Bytes, sb: Superblock): Parsed
    requires sb.blockSize >= 512
  {
    var l := sb.layout;
    var first := BlockSlice(img, sb.blockSize, l.directoryLba, l.directoryBlocks);
    var second := BlockSlice(img, sb.blockSize, l.directoryLba + l.directoryBlocks, l.directoryBlocks);
    var bitmap := BlockSlice(img, sb.blockSize, l.bitmapLba, l.bitmapBlocks);
    if first == None || second == None || bitmap == None then Raised
    else
      var s := ScanTo(h, img, sb, first.value, second.value, EntryCount(l, sb.blockSize));
      if exists b :: b in s.used && b / 8 >= |bitmap.value| then Raised
      else Parsed(Some(sb), s.objects, s.errors, set b | b in s.used && !Marks(bitmap.value, b))
  }

  function ParseImage(h: Hashes, img: Bytes): Parsed {
    match ChooseSuperblock(h, img)
    case Err(e) => Parsed(None, map[], [e], {})
    case Ok(None) => Parsed(None, map[], [], {})
    case Ok(Some(sb)) => if sb.blockSize >= 512 then ParseDirectory(h, img, sb) else Raised
  }

  // ---------------------------------------------------------------- reading an object

  datatype Gathered = Gathered(bytes: Bytes, remaining: nat) | Beyond

  /** The content of an object, extent by extent. */
  function Gather(img: Bytes, size: nat, extents: seq<Extent>, dataLen: nat): Gathered {
    if extents == [] then Gathered([], dataLen)
    else
      var before := Gather(img, size, extents[..|extents| - 1], dataLen);
      var last := extents[|extents| - 1];
      var chunk := BlockSlice(img, size, last.lba, last.blocks);
      if before == Beyond || chunk == None then Beyond
      else
        var used := Min(before.remaining, |chunk.value|);
        Gathered(before.bytes + chunk.value[..used], before.remaining - used)
  }

  datatype Content = Absent | Content(bytes: Bytes) | Unreadable

  function ReadObject(h: Hashes, img: Bytes, p: Parsed, id: u64, verify: bool): Content
    requires p.Parsed? && (p.objects != map[] ==> p.superblock.Some?)
  {
    if id !in p.objects then Absent
    else
      var r := p.objects[id];
      var g := Gather(img, p.superblock.value.blockSize, r.extents, r.dataLen);
      if g == Beyond || g.remaining != 0 then Unreadable
      else if verify && h.fnv(g.bytes) != r.hash then Unreadable
      else Content(g.bytes)
  }
}
