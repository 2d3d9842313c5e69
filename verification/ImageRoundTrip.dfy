/** What the image writer leaves behind, the parser accepts without a complaint and reads back. */
module ImageRoundTrip {
  import opened Basics
  import opened Fields
  import opened StoreFormat
  import opened StoreImage
  import StoreSoundness

  // ---------------------------------------------------------------- a written image

  const BANK_BYTES := DIRECTORY_BLOCKS * BLOCK_SIZE

  /** Where the entry of a slot starts, in either bank. */
  function EntryStart(bank: nat, slot: nat): nat {
    DIRECTORY_LBA * BLOCK_SIZE + bank * BANK_BYTES + slot * DIR_ENTRY_SIZE
  }

  function EntryBytes(img: Bytes, bank: nat, slot: nat): Bytes
    requires |img| == IMAGE_BYTES && bank < 2 && slot < DIRECTORY_SLOTS
  {
    img[EntryStart(bank, slot)..EntryStart(bank, slot) + DIR_ENTRY_SIZE]
  }

  function Padded(data: Bytes): (r: Bytes)
    ensures |r| == BlocksFor(|data|) * BLOCK_SIZE && data <= r
  {
    data + Zeros(BlocksFor(|data|) * BLOCK_SIZE - |data|)
  }

  function EndOf(it: Item): nat {
    it.extent + BlocksFor(|it.data|)
  }

  /** First-fit without frees: every object follows the one before. */
  function End(items: seq<Item>): nat {
    if items == [] then DATA_LBA else EndOf(items[|items| - 1])
  }

  ghost predicate Placed(items: seq<Item>) {
    forall k :: 0 <= k < |items| ==> ItemOk(items[k]) && items[k].header == End(items[..k])
  }

  ghost predicate ItemAt(h: Hashes, img: Bytes, it: Item)
    requires |img| == IMAGE_BYTES && ItemOk(it)
  {
    ItemBounds(it);
    && img[it.header * BLOCK_SIZE..it.header * BLOCK_SIZE + BLOCK_SIZE] == HeaderBlock(h, it)
    && img[it.extent * BLOCK_SIZE..EndOf(it) * BLOCK_SIZE] == Padded(it.data)
    && EntryBytes(img, 0, it.slot) == EncodeEntry(h, it) && EntryBytes(img, 1, it.slot) == EncodeEntry(h, it)
  }

  predicate Taken(items: seq<Item>, slot: nat) {
    exists k :: 0 <= k < |items| && items[k].slot == slot
  }

  /** Every item is where it should be, and the rest of both directory banks is blank. */
  ghost predicate Stored(h: Hashes, img: Bytes, items: seq<Item>) {
    && |img| == IMAGE_BYTES && Placed(items)
    && (forall k :: 0 <= k < |items| ==> ItemAt(h, img, items[k]))
    && AllDistinct(items)
    && (forall s :: 0 <= s < DIRECTORY_SLOTS && !Taken(items, s) ==>
          AllZero(EntryBytes(img, 0, s)) && AllZero(EntryBytes(img, 1, s)))
  }

  /** The bitmap marks exactly the blocks below `end`. */
  ghost predicate Filled(bitmap: Bytes, end: nat) {
    forall b: nat :: b / 8 < |bitmap| ==> (Marks(bitmap, b) <==> b < end)
  }

  ghost predicate Formatted(h: Hashes, img: Bytes, items: seq<Item>, nextId: u64) {
    && Stored(h, img, items)
    && img[..BLOCK_SIZE] == EncodeSuperblock(h, nextId) && img[BLOCK_SIZE..2 * BLOCK_SIZE] == EncodeSuperblock(h, nextId)
    && Filled(img[BITMAP_LBA * BLOCK_SIZE..DIRECTORY_LBA * BLOCK_SIZE], End(items))
  }

  // ---------------------------------------------------------------- superblocks

  /** A bitmap that fills from below never begins like a magic number. */
  lemma NoMagicInBitmap(b: byte)
    requires forall k :: 1 <= k < 8 && IsSet(b, k) ==> IsSet(b, k - 1)
    ensures b != 'C'
  {
    var v := 'C' as int;
    assert v == 67 && v / 2 == 33 && v / 2 / 2 == 16;
    assert BitOf(16, 4) && !BitOf(16, 3) by {
      assert 16 / 2 == 8 && 8 / 2 == 4 && 4 / 2 == 2 && 2 / 2 == 1;
    }
    assert IsSet('C', 6) && !IsSet('C', 5);
  }

  lemma FilledByte(bitmap: Bytes, end: nat, i: nat)
    requires Filled(bitmap, end) && i < |bitmap|
    ensures bitmap[i] != 'C'
  {
    hide IsSet;
    forall k | 1 <= k < 8 && IsSet(bitmap[i], k) ensures IsSet(bitmap[i], k - 1) {
      var b := 8 * i + k;
      assert b / 8 == i && b % 8 == k && (b - 1) / 8 == i && (b - 1) % 8 == k - 1;
      assert Marks(bitmap, b);
      assert Marks(bitmap, b - 1);
    }
    NoMagicInBitmap(bitmap[i]);
  }

  /** No superblock and no foreign tag where the bytes do not begin with one. */
  lemma NothingAt(h: Hashes, img: Bytes, slot: nat, size: nat)
    requires var start := SlotStart(slot, size);
             start + 80 <= |img| ==> img[start] != 'C' || img[start + 1] != 'O'
    ensures Candidate(h, img, slot, size) == [] && !Unsupported(img, slot, size)
  {
    hide U32, U64, SlotStart, AllZero;
    var start := SlotStart(slot, size);
    if start + 80 <= |img| {
      var data := Slice(img, start, start + 512);
      assert data[0] == img[start] && data[1] == img[start + 1];
      NoMagic(data);
      var wide := Slice(img, start, start + size);
      if |wide| >= 80 {
        assert wide[0] == img[start] && wide[1] == img[start + 1];
        NoTag(wide);
      }
    }
  }

  lemma NoMagic(data: Bytes)
    requires |data| >= 8 && (data[0] != 'C' || data[1] != 'O')
    ensures U64(data, 0) != SB_MAGIC
  {
    var b := data[0..8];
    assert b[1..][0] == data[1];
    assert Num(b) == data[0] as int + 256 * (data[1] as int + 256 * Num(b[1..][1..]));
    assert SB_MAGIC == 0x43 + 256 * (0x4F + 256 * 0x3452_5453_4A42);
  }

  lemma NoTag(data: Bytes)
    requires |data| >= 7 && (data[0] != 'C' || data[1] != 'O')
    ensures data[..7] != "COBJSTR" && data[..7] != "COJBSTR"
  {
    assert data[..7][0] == data[0] && data[..7][1] == data[1];
  }

  /** At a larger block size, slot zero names its own. */
  lemma NotAtOther(h: Hashes, img: Bytes, sb: Superblock, size: nat)
    requires Encodable(sb) && sb.blockSize != size && 512 <= size && 512 <= |img|
    requires img[..512] == SealSuperblock(h, sb)
    ensures Candidate(h, img, 0, size) == [] && !Unsupported(img, 0, size)
  {
    hide U32, U64, SuperblockWith, Le, AllZero;
    var crc := h.crc(SuperblockWith(0, sb)[..SB_CHECKSUM_OFFSET]);
    var s := SuperblockWith(crc, sb);
    SuperblockFields(crc, sb);
    assert Slice(img, 0, 512) == s;
    var wide := Slice(img, 0, size);
    SameFields(wide, s);
  }

  lemma ChoosesStandard(h: Hashes, img: Bytes, items: seq<Item>, nextId: u64)
    requires Formatted(h, img, items, nextId) && nextId != 0
    ensures ChooseSuperblock(h, img) == Ok(Some(Standard(0, nextId)))
  {
    hide Stored, Filled, DecodeSuperblock, Unsupported, SealSuperblock, ForDevice;
    StoredSize(h, img, items);
    SameSeal(h, nextId);
    SuperblockReadsBack(h, img, Standard(0, nextId));
    SuperblockReadsBack(h, img, Standard(1, nextId));
    NotAtOther(h, img, Standard(0, nextId), 1024);
    NotAtOther(h, img, Standard(0, nextId), 2048);
    NotAtOther(h, img, Standard(0, nextId), 4096);
    var bitmap := img[BITMAP_LBA * BLOCK_SIZE..DIRECTORY_LBA * BLOCK_SIZE];
    FilledByte(bitmap, End(items), 0);
    FilledByte(bitmap, End(items), 1024);
    FilledByte(bitmap, End(items), 3072);
    NothingAt(h, img, 1, 1024);
    NothingAt(h, img, 1, 2048);
    NothingAt(h, img, 1, 4096);
    StandardLayout();
    assert Candidates(h, img) == [Standard(0, nextId), Standard(1, nextId)];
    FirstOfTwo(Standard(0, nextId), Standard(1, nextId));
  }

  /** A superblock does not say which slot it is in. */
  lemma SameSeal(h: Hashes, nextId: u64)
    ensures SealSuperblock(h, Standard(1, nextId)) == EncodeSuperblock(h, nextId)
  {
    hide Le;
    assert forall crc: u32 :: SuperblockWith(crc, Standard(1, nextId)) == SuperblockWith(crc, Standard(0, nextId));
  }

  lemma FirstOfTwo(a: Superblock, b: Superblock)
    requires a.generation >= b.generation
    ensures Newer([a, b]) == a
  {
    assert [a, b][..1] == [a];
  }

  lemma StoredSize(h: Hashes, img: Bytes, items: seq<Item>)
    requires Stored(h, img, items)
    ensures |img| == IMAGE_BYTES && Placed(items)
  {
  }

  // ---------------------------------------------------------------- the directory

  lemma {:induction false} LaterItems(items: seq<Item>, j: nat, k: nat)
    requires Placed(items) && j < k < |items|
    ensures EndOf(items[j]) <= items[k].header
    decreases k
  {
    var before := items[..k];
    assert before[k - 1] == items[k - 1] && items[k].header == End(before);
    if j < k - 1 {
      LaterItems(items, j, k - 1);
    }
  }

  lemma EndsBelow(items: seq<Item>, k: nat)
    requires Placed(items) && k < |items|
    ensures EndOf(items[k]) <= End(items) <= IMAGE_BLOCKS
  {
    var last := |items| - 1;
    assert ItemOk(items[last]);
    if k < last {
      LaterItems(items, k, last);
    }
  }

  /** The blocks of an item, header first. */
  predicate Owns(it: Item, b: nat) {
    it.header <= b < EndOf(it)
  }

  lemma ClaimOf(h: Hashes, it: Item, b: nat)
    requires ItemOk(it) && it.header < IMAGE_BLOCKS
    ensures b in Claimed(Ranges(RecordOf(h, it))) <==> Owns(it, b)
  {
    var es := Ranges(RecordOf(h, it));
    StoreSoundness.ClaimedIs(es, b);
    assert es[0] == Extent(it.header, 1) && es[1] == Extent(it.extent, BlocksFor(|it.data|));
    assert StoreSoundness.Covers(es[0], b) <==> b == it.header;
    assert StoreSoundness.Covers(es[1], b) <==> it.extent <= b < EndOf(it);
  }

  lemma ClaimSize(h: Hashes, it: Item)
    requires ItemOk(it) && it.header < IMAGE_BLOCKS
    ensures |Claimed(Ranges(RecordOf(h, it)))| == BlocksIn(Ranges(RecordOf(h, it)))
  {
    var es := Ranges(RecordOf(h, it));
    var n := BlocksFor(|it.data|);
    assert es[..1] == [Extent(it.header, 1)] && es[..1][..0] == [];
    var a, b := Run(it.header, 1), Run(it.extent, n);
    assert Claimed(es[..1]) == a;
    assert Claimed(es) == a + b;
    assert a * b == {};
    assert |a + b| == |a| + |b|;
    assert BlocksIn(es[..1]) == 1;
  }

  ghost predicate AllFound(h: Hashes, items: seq<Item>, n: nat, s: Scan)
    requires Placed(items)
  {
    forall k :: 0 <= k < |items| && items[k].slot < n ==> Found(h, items[k], s)
  }

  ghost predicate NothingElse(items: seq<Item>, n: nat, s: Scan) {
    forall id :: id in s.objects ==> exists k :: 0 <= k < |items| && items[k].slot < n && items[k].id == id
  }

  ghost predicate UsedByItems(items: seq<Item>, n: nat, s: Scan) {
    forall b :: b in s.used ==> b < DATA_LBA || exists k :: 0 <= k < |items| && items[k].slot < n && Owns(items[k], b)
  }

  /** What the scan of the first `n` slots must have gathered. */
  ghost predicate Seen(h: Hashes, items: seq<Item>, n: nat, s: Scan)
    requires Placed(items)
  {
    s.errors == [] && AllFound(h, items, n, s) && NothingElse(items, n, s) && UsedByItems(items, n, s)
  }

  ghost predicate Found(h: Hashes, it: Item, s: Scan)
    requires ItemOk(it)
  {
    it.id in s.objects && s.objects[it.id] == RecordOf(h, it)
  }

  lemma HeaderThere(h: Hashes, img: Bytes, it: Item)
    requires |img| == IMAGE_BYTES && ItemOk(it) && ItemAt(h, img, it)
    ensures |it.data| <= IMAGE_BYTES && it.header < IMAGE_BLOCKS && it.extent < IMAGE_BLOCKS
    ensures BlockSlice(img, BLOCK_SIZE, it.header, 1) == Some(HeaderBlock(h, it))
  {
    hide HeaderBlock, EncodeEntry, Padded;
    ItemBounds(it);
  }

  lemma BlankSlot(h: Hashes, first: Bytes, second: Bytes, n: nat)
    requires |first| == |second| == BANK_BYTES && n < DIRECTORY_SLOTS
    requires AllZero(first[n * DIR_ENTRY_SIZE..n * DIR_ENTRY_SIZE + DIR_ENTRY_SIZE])
    requires AllZero(second[n * DIR_ENTRY_SIZE..n * DIR_ENTRY_SIZE + DIR_ENTRY_SIZE])
    ensures SlotEntry(h, first, second, n) == Some(VACANT)
  {
  }

  /** The two directory banks of an image. */
  ghost predicate Banks(img: Bytes, first: Bytes, second: Bytes) {
    && |img| == IMAGE_BYTES && |first| == |second| == BANK_BYTES
    && first == img[EntryStart(0, 0)..EntryStart(0, 0) + BANK_BYTES]
    && second == img[EntryStart(1, 0)..EntryStart(1, 0) + BANK_BYTES]
  }

  lemma BankSlots(img: Bytes, first: Bytes, second: Bytes, n: nat)
    requires Banks(img, first, second) && n < DIRECTORY_SLOTS
    ensures first[n * DIR_ENTRY_SIZE..n * DIR_ENTRY_SIZE + DIR_ENTRY_SIZE] == EntryBytes(img, 0, n)
    ensures second[n * DIR_ENTRY_SIZE..n * DIR_ENTRY_SIZE + DIR_ENTRY_SIZE] == EntryBytes(img, 1, n)
  {
    SliceOfSlice(img, EntryStart(0, 0), EntryStart(0, 0) + BANK_BYTES,
                 n * DIR_ENTRY_SIZE, n * DIR_ENTRY_SIZE + DIR_ENTRY_SIZE);
    SliceOfSlice(img, EntryStart(1, 0), EntryStart(1, 0) + BANK_BYTES,
                 n * DIR_ENTRY_SIZE, n * DIR_ENTRY_SIZE + DIR_ENTRY_SIZE);
  }

  /** The slot of an item: its header parses, its id is new, its blocks are free. */
  lemma ItemSlot(h: Hashes, img: Bytes, items: seq<Item>, sb: Superblock, first: Bytes, second: Bytes, k: nat, s: Scan)
    requires Stored(h, img, items) && k < |items| && Banks(img, first, second)
    requires sb.blockSize == BLOCK_SIZE && sb.totalBlocks == IMAGE_BLOCKS && sb.layout == LAYOUT
    requires Seen(h, items, items[k].slot, s)
    ensures var n := items[k].slot;
            var s' := ScanEntry(h, img, sb, s, n, SlotEntry(h, first, second, n));
            items[k].header < IMAGE_BLOCKS
            && s' == Scan(s.objects[items[k].id := RecordOf(h, items[k])],
                          s.used + Claimed(Ranges(RecordOf(h, items[k]))), [])
  {
    hide ParseHeader, DecodeDirectory, Claimed, RecordOf, BlocksIn, HeaderBlock, EncodeEntry, Seen, Placed, ItemAt,
         EntryBytes, Ranges;
    var it := items[k];
    StoredItem(h, img, items, k);
    HeaderThere(h, img, it);
    EntryReadsBack(h, it);
    BankSlots(img, first, second, it.slot);
    HeaderReadsBack(h, img, sb, it);
    ClaimSize(h, it);
    RecordEntry(h, it);
    IdIsNew(h, items, k, s);
    forall b | b in Claimed(Ranges(RecordOf(h, it))) ensures b !in s.used {
      ClaimOf(h, it, b);
      NotUsed(h, items, k, s, b);
    }
  }

  lemma StoredItem(h: Hashes, img: Bytes, items: seq<Item>, k: nat)
    requires Stored(h, img, items) && k < |items|
    ensures ItemOk(items[k]) && ItemAt(h, img, items[k]) && 0 < items[k].header < IMAGE_BLOCKS
    ensures EntryBytes(img, 0, items[k].slot) == EncodeEntry(h, items[k]) == EntryBytes(img, 1, items[k].slot)
  {
    hide EncodeEntry, EntryBytes, HeaderBlock, Padded;
    assert ItemOk(items[k]) && ItemAt(h, img, items[k]);
    ItemBounds(items[k]);
  }

  lemma IdIsNew(h: Hashes, items: seq<Item>, k: nat, s: Scan)
    requires Placed(items) && AllDistinct(items) && k < |items| && Seen(h, items, items[k].slot, s)
    ensures items[k].id !in s.objects && s.errors == []
  {
    hide Placed;
  }

  lemma RecordEntry(h: Hashes, it: Item)
    requires it.header < IMAGE_BLOCKS
    ensures RecordOf(h, it).entry == EntryOf(it)
  {
  }

  lemma NotUsed(h: Hashes, items: seq<Item>, k: nat, s: Scan, b: nat)
    requires Placed(items) && k < |items| && Seen(h, items, items[k].slot, s) && Owns(items[k], b)
    ensures b !in s.used
  {
    assert ItemOk(items[k]);
    if b in s.used {
      var j :| 0 <= j < |items| && items[j].slot < items[k].slot && Owns(items[j], b);
      if j < k {
        LaterItems(items, j, k);
      } else {
        LaterItems(items, k, j);
      }
      assert false;
    }
  }

  ghost predicate AllDistinct(items: seq<Item>) {
    forall j, k :: 0 <= j < k < |items| ==> items[j].id != items[k].id && items[j].slot != items[k].slot
  }

  lemma FoundMore(h: Hashes, items: seq<Item>, k: nat, s: Scan, s': Scan)
    requires Placed(items) && k < |items| && AllFound(h, items, items[k].slot, s) && items[k].header < IMAGE_BLOCKS
    requires AllDistinct(items) && s'.objects == s.objects[items[k].id := RecordOf(h, items[k])]
    ensures AllFound(h, items, items[k].slot + 1, s')
  {
    hide RecordOf;
    var n := items[k].slot;
    assert ItemOk(items[k]);
    forall i | 0 <= i < |items| && items[i].slot < n + 1 ensures Found(h, items[i], s') {
      if i != k {
        assert items[i].slot != n && items[i].id != items[k].id;
        assert Found(h, items[i], s);
      }
    }
  }

  lemma NothingElseMore(items: seq<Item>, k: nat, s: Scan, s': Scan, r: ObjectRecord)
    requires k < |items| && NothingElse(items, items[k].slot, s) && s'.objects == s.objects[items[k].id := r]
    ensures NothingElse(items, items[k].slot + 1, s')
  {
    var n := items[k].slot;
    forall id | id in s'.objects
      ensures exists i :: 0 <= i < |items| && items[i].slot < n + 1 && items[i].id == id
    {
      if id != items[k].id {
        var i :| 0 <= i < |items| && items[i].slot < n && items[i].id == id;
      }
    }
  }

  lemma UsedMore(h: Hashes, items: seq<Item>, k: nat, s: Scan, s': Scan)
    requires k < |items| && ItemOk(items[k]) && items[k].header < IMAGE_BLOCKS
    requires UsedByItems(items, items[k].slot, s) && s'.used == s.used + Claimed(Ranges(RecordOf(h, items[k])))
    ensures UsedByItems(items, items[k].slot + 1, s')
  {
    hide Claimed, RecordOf, Owns, ItemOk;
    var n := items[k].slot;
    forall b | b in s'.used
      ensures b < DATA_LBA || exists i :: 0 <= i < |items| && items[i].slot < n + 1 && Owns(items[i], b)
    {
      if b in s.used {
        if b >= DATA_LBA {
          var i :| 0 <= i < |items| && items[i].slot < n && Owns(items[i], b);
        }
      } else {
        ClaimOf(h, items[k], b);
      }
    }
  }

  lemma SeenMore(h: Hashes, items: seq<Item>, k: nat, s: Scan, s': Scan)
    requires Placed(items) && k < |items| && Seen(h, items, items[k].slot, s) && items[k].header < IMAGE_BLOCKS
    requires AllDistinct(items)
    requires s' == Scan(s.objects[items[k].id := RecordOf(h, items[k])],
                        s.used + Claimed(Ranges(RecordOf(h, items[k]))), [])
    ensures Seen(h, items, items[k].slot + 1, s')
  {
    hide Claimed, RecordOf, AllFound, NothingElse, UsedByItems;
    FoundMore(h, items, k, s, s');
    NothingElseMore(items, k, s, s', RecordOf(h, items[k]));
    UsedMore(h, items, k, s, s');
  }

  lemma SeenSame(h: Hashes, items: seq<Item>, n: nat, s: Scan)
    requires Placed(items) && Seen(h, items, n, s) && !Taken(items, n)
    ensures Seen(h, items, n + 1, s)
  {
    forall i | 0 <= i < |items| && items[i].slot < n + 1 ensures Found(h, items[i], s) {
      assert items[i].slot != n;
    }
  }

  lemma {:induction false} ScanSees(
    h: Hashes, img: Bytes, items: seq<Item>, sb: Superblock, first: Bytes, second: Bytes, n: nat)
    requires Stored(h, img, items) && Banks(img, first, second) && n <= DIRECTORY_SLOTS
    requires sb.blockSize == BLOCK_SIZE && sb.totalBlocks == IMAGE_BLOCKS && sb.layout == LAYOUT
    ensures Seen(h, items, n, ScanTo(h, img, sb, first, second, n))
    decreases n
  {
    hide ScanEntry, SlotEntry, Claimed, RecordOf, EntryBytes, ItemAt, Seen, Placed, AllDistinct;
    if n == 0 {
      SeenNothing(h, items);
    } else {
      ScanSees(h, img, items, sb, first, second, n - 1);
      var s := ScanTo(h, img, sb, first, second, n - 1);
      if Taken(items, n - 1) {
        var k :| 0 <= k < |items| && items[k].slot == n - 1;
        ItemSlot(h, img, items, sb, first, second, k, s);
        SeenMore(h, items, k, s, ScanTo(h, img, sb, first, second, n));
      } else {
        BankSlots(img, first, second, n - 1);
        BlankSlot(h, first, second, n - 1);
        VacantSlot(h, img, sb, s, n - 1);
        SeenSame(h, items, n - 1, s);
      }
    }
  }

  lemma SeenNothing(h: Hashes, items: seq<Item>)
    requires Placed(items)
    ensures Seen(h, items, 0, Scan(map[], Run(0, DATA_LBA), []))
  {
  }

  lemma VacantSlot(h: Hashes, img: Bytes, sb: Superblock, s: Scan, n: nat)
    requires sb.blockSize >= 512
    ensures ScanEntry(h, img, sb, s, n, Some(VACANT)) == s
  {
  }

  // ---------------------------------------------------------------- the whole image

  lemma UsedIsMarked(h: Hashes, items: seq<Item>, s: Scan, bitmap: Bytes, b: nat)
    requires Placed(items) && Seen(h, items, DIRECTORY_SLOTS, s) && b in s.used
    requires |bitmap| == BITMAP_BLOCKS * BLOCK_SIZE && Filled(bitmap, End(items))
    ensures b / 8 < |bitmap| && Marks(bitmap, b)
  {
    hide IsSet, Found;
    EndIsHigh(items);
    if b >= DATA_LBA {
      var k :| 0 <= k < |items| && items[k].slot < DIRECTORY_SLOTS && Owns(items[k], b);
      EndsBelow(items, k);
    }
    assert b < End(items) <= IMAGE_BLOCKS;
  }

  lemma EndIsHigh(items: seq<Item>)
    requires Placed(items)
    ensures DATA_LBA <= End(items) <= IMAGE_BLOCKS
  {
    if items != [] {
      assert ItemOk(items[|items| - 1]);
    }
  }

  /** The content of an item, gathered from its one extent. */
  lemma GathersItem(h: Hashes, img: Bytes, it: Item)
    requires |img| == IMAGE_BYTES && ItemOk(it) && ItemAt(h, img, it) && it.header < IMAGE_BLOCKS
    ensures Gather(img, BLOCK_SIZE, RecordOf(h, it).extents, |it.data|) == Gathered(it.data, 0)
  {
    hide HeaderBlock, EncodeEntry, EntryBytes;
    var n := BlocksFor(|it.data|);
    var es := [Extent(it.extent, n)];
    assert es[..0] == [];
    ItemBounds(it);
    var chunk := BlockSlice(img, BLOCK_SIZE, it.extent, n);
    assert chunk == Some(Padded(it.data));
    assert Padded(it.data)[..|it.data|] == it.data;
    assert Gather(img, BLOCK_SIZE, es[..0], |it.data|) == Gathered([], |it.data|);
    assert [] + it.data == it.data;
  }

  lemma DirectoryParses(h: Hashes, img: Bytes, items: seq<Item>, nextId: u64)
    requires Formatted(h, img, items, nextId)
    ensures var p := ParseDirectory(h, img, Standard(0, nextId));
            && p.Parsed? && p.superblock == Some(Standard(0, nextId)) && p.errors == [] && p.omitted == {}
            && (forall k :: 0 <= k < |items| ==> Present(h, items[k], p))
            && (forall id :: id in p.objects ==> exists k :: 0 <= k < |items| && items[k].id == id)
  {
    hide ScanTo, Stored, Filled, Marks, EncodeSuperblock, RecordOf;
    StoredSize(h, img, items);
    StandardLayout();
    var sb := Standard(0, nextId);
    var first := BlockSlice(img, BLOCK_SIZE, DIRECTORY_LBA, DIRECTORY_BLOCKS).value;
    var second := BlockSlice(img, BLOCK_SIZE, DIRECTORY_LBA + DIRECTORY_BLOCKS, DIRECTORY_BLOCKS).value;
    var bitmap := BlockSlice(img, BLOCK_SIZE, BITMAP_LBA, BITMAP_BLOCKS).value;
    assert Banks(img, first, second);
    ScanSees(h, img, items, sb, first, second, DIRECTORY_SLOTS);
    var s := ScanTo(h, img, sb, first, second, DIRECTORY_SLOTS);
    forall b | b in s.used ensures b / 8 < |bitmap| && Marks(bitmap, b) {
      UsedIsMarked(h, items, s, bitmap, b);
    }
    var p := ParseDirectory(h, img, sb);
    forall k | 0 <= k < |items| ensures Present(h, items[k], p) {
      assert ItemOk(items[k]);
      assert Found(h, items[k], s);
    }
  }

  ghost predicate Present(h: Hashes, it: Item, p: Parsed) {
    p.Parsed? && it.header < IMAGE_BLOCKS && it.id in p.objects && p.objects[it.id] == RecordOf(h, it)
  }

  /**
   * An image that the writer finished parses without errors, holds exactly the objects that were put
   * into it, and gives back the bytes of each, hash and all.
   */
  lemma ImageReadsBack(h: Hashes, img: Bytes, items: seq<Item>, nextId: u64)
    requires Formatted(h, img, items, nextId) && nextId != 0
    ensures var p := ParseImage(h, img);
            && p.Parsed? && p.superblock == Some(Standard(0, nextId)) && p.errors == [] && p.omitted == {}
            && (forall id :: id in p.objects ==> exists k :: 0 <= k < |items| && items[k].id == id)
            && (forall k :: 0 <= k < |items| ==> ReadObject(h, img, p, items[k].id, true) == Content(items[k].data))
  {
    hide Stored, Filled, ParseDirectory, ChooseSuperblock, Gather, RecordOf, EncodeSuperblock;
    ChoosesStandard(h, img, items, nextId);
    DirectoryParses(h, img, items, nextId);
    StoredSize(h, img, items);
    var p := ParseImage(h, img);
    forall k | 0 <= k < |items| ensures ReadObject(h, img, p, items[k].id, true) == Content(items[k].data) {
      assert Present(h, items[k], p);
      StoredItem(h, img, items, k);
      GathersItem(h, img, items[k]);
      RecordLengths(h, items[k]);
    }
  }

  lemma RecordLengths(h: Hashes, it: Item)
    requires it.header < IMAGE_BLOCKS
    ensures RecordOf(h, it).dataLen == |it.data| && RecordOf(h, it).hash == h.fnv(it.data)
  {
  }
}
