/** `make-nvme-image.py`: the writer as it runs, on its image, bitmap and directory slots. */
module ImageWriting {
  import opened Basics
  import opened Fields
  import opened Patches
  import opened StoreFormat
  import opened StoreImage
  import opened ImageRoundTrip
  import opened Bitmap

  // ---------------------------------------------------------------- writes and slices

  lemma SliceElsewhere(s: Bytes, loc: nat, data: Bytes, lo: nat, hi: nat)
    requires Fits(s, loc, data) && lo <= hi <= |s| && (hi <= loc || loc + |data| <= lo)
    ensures Patched(s, loc, data)[lo..hi] == s[lo..hi]
  {
    hide Patched;
    forall i | lo <= i < hi ensures Patched(s, loc, data)[i] == s[i] {
      PatchedAt(s, loc, data, i);
    }
  }

  lemma SliceThere(s: Bytes, loc: nat, data: Bytes)
    requires loc + |data| <= |s|
    ensures Patched(s, loc, data)[loc..loc + |data|] == data
  {
    hide Patched;
    forall i | loc <= i < loc + |data| ensures Patched(s, loc, data)[i] == data[i - loc] {
      PatchedAt(s, loc, data, i);
    }
  }

  /** Reading a block, changing part of it and writing it back changes that part. */
  lemma PatchInBlock(s: Bytes, at: nat, n: nat, offset: nat, data: Bytes)
    requires at + n <= |s| && 0 < n && offset + |data| <= n
    ensures Patched(s, at, Patched(s[at..at + n], offset, data)) == Patched(s, at + offset, data)
  {
    hide Patched;
    var block := s[at..at + n];
    forall i | 0 <= i < |s|
      ensures Patched(s, at, Patched(block, offset, data))[i] == Patched(s, at + offset, data)[i]
    {
      PatchedAt(s, at, Patched(block, offset, data), i);
      PatchedAt(s, at + offset, data, i);
      if at <= i < at + n {
        PatchedAt(block, offset, data, i - at);
      }
    }
  }

  // ---------------------------------------------------------------- storing one more object

  lemma ZeroSlice(s: Bytes, lo: nat, hi: nat, end: nat)
    requires end <= lo <= hi <= |s| && AllZero(s[end..])
    ensures s[lo..hi] == Zeros(hi - lo)
  {
    forall i | lo <= i < hi ensures s[i] == NUL {
      assert s[end..][i - end] == s[i];
    }
  }

  /** The four writes of one object. */
  function WithItem(h: Hashes, img: Bytes, it: Item): (r: Bytes)
    requires |img| == IMAGE_BYTES && ItemOk(it)
    ensures |r| == |img|
  {
    hide Patched, EncodeHeader, EncodeEntry, Padded;
    ItemBounds(it);
    var a := Patched(img, it.header * BLOCK_SIZE, EncodeHeader(h, it));
    var b := Patched(a, it.extent * BLOCK_SIZE, Padded(it.data));
    var c := Patched(b, EntryStart(0, it.slot), EncodeEntry(h, it));
    Patched(c, EntryStart(1, it.slot), EncodeEntry(h, it))
  }

  lemma WithItemElsewhere(h: Hashes, img: Bytes, it: Item, lo: nat, hi: nat)
    requires |img| == IMAGE_BYTES && ItemOk(it) && lo <= hi <= |img|
    requires hi <= it.header * BLOCK_SIZE || EndOf(it) * BLOCK_SIZE <= lo
    requires forall bank :: 0 <= bank < 2 ==>
               hi <= EntryStart(bank, it.slot) || EntryStart(bank, it.slot) + DIR_ENTRY_SIZE <= lo
    ensures WithItem(h, img, it)[lo..hi] == img[lo..hi]
  {
    hide Patched, EncodeHeader, EncodeEntry, Padded, EntryStart;
    ItemBounds(it);
    EntriesInside(it.slot);
    var a := Patched(img, it.header * BLOCK_SIZE, EncodeHeader(h, it));
    SliceElsewhere(img, it.header * BLOCK_SIZE, EncodeHeader(h, it), lo, hi);
    var b := Patched(a, it.extent * BLOCK_SIZE, Padded(it.data));
    SliceElsewhere(a, it.extent * BLOCK_SIZE, Padded(it.data), lo, hi);
    var c := Patched(b, EntryStart(0, it.slot), EncodeEntry(h, it));
    SliceElsewhere(b, EntryStart(0, it.slot), EncodeEntry(h, it), lo, hi);
    SliceElsewhere(c, EntryStart(1, it.slot), EncodeEntry(h, it), lo, hi);
  }

  lemma EntriesInside(slot: nat)
    requires slot < DIRECTORY_SLOTS
    ensures EntryStart(0, slot) + DIR_ENTRY_SIZE <= EntryStart(1, 0) <= EntryStart(1, slot)
    ensures EntryStart(1, slot) + DIR_ENTRY_SIZE <= DATA_LBA * BLOCK_SIZE
    ensures DIRECTORY_LBA * BLOCK_SIZE <= EntryStart(0, slot)
  {
  }

  lemma EntriesApart(a: nat, b: nat)
    requires a != b && a < DIRECTORY_SLOTS && b < DIRECTORY_SLOTS
    ensures forall i, j :: 0 <= i < 2 && 0 <= j < 2 ==>
              EntryStart(i, a) + DIR_ENTRY_SIZE <= EntryStart(j, b) || EntryStart(j, b) + DIR_ENTRY_SIZE <= EntryStart(i, a)
  {
  }

  /** The new object is where it should be. */
  lemma WithItemThere(h: Hashes, img: Bytes, it: Item)
    requires |img| == IMAGE_BYTES && ItemOk(it) && AllZero(img[it.header * BLOCK_SIZE..])
    ensures ItemAt(h, WithItem(h, img, it), it)
  {
    hide Patched, EncodeHeader, EncodeEntry, Padded, AllZero, Zeros;
    ItemBounds(it);
    EntriesInside(it.slot);
    var hs, xs := it.header * BLOCK_SIZE, it.extent * BLOCK_SIZE;
    var header, entry := EncodeHeader(h, it), EncodeEntry(h, it);
    var a := Patched(img, hs, header);
    var b := Patched(a, xs, Padded(it.data));
    var c := Patched(b, EntryStart(0, it.slot), entry);
    var d := Patched(c, EntryStart(1, it.slot), entry);
    SliceThere(img, hs, header);
    SliceElsewhere(img, hs, header, hs + HEADER_LEN, xs);
    ZeroSlice(img, hs + HEADER_LEN, xs, hs);
    assert a[hs..xs] == a[hs..hs + HEADER_LEN] + a[hs + HEADER_LEN..xs];
    SliceElsewhere(a, xs, Padded(it.data), hs, xs);
    SliceThere(a, xs, Padded(it.data));
    SliceElsewhere(b, EntryStart(0, it.slot), entry, hs, xs);
    SliceElsewhere(b, EntryStart(0, it.slot), entry, xs, EndOf(it) * BLOCK_SIZE);
    SliceThere(b, EntryStart(0, it.slot), entry);
    SliceElsewhere(c, EntryStart(1, it.slot), entry, hs, xs);
    SliceElsewhere(c, EntryStart(1, it.slot), entry, xs, EndOf(it) * BLOCK_SIZE);
    SliceElsewhere(c, EntryStart(1, it.slot), entry, EntryStart(0, it.slot), EntryStart(0, it.slot) + DIR_ENTRY_SIZE);
    SliceThere(c, EntryStart(1, it.slot), entry);
  }

  /** An earlier object is not disturbed. */
  lemma WithItemKeeps(h: Hashes, img: Bytes, it: Item, other: Item)
    requires |img| == IMAGE_BYTES && ItemOk(it) && ItemOk(other) && ItemAt(h, img, other)
    requires EndOf(other) <= it.header && other.slot != it.slot
    ensures ItemAt(h, WithItem(h, img, it), other)
  {
    hide WithItem, HeaderBlock, EncodeEntry, Padded;
    ItemBounds(other);
    EntriesInside(it.slot);
    EntriesInside(other.slot);
    EntriesApart(it.slot, other.slot);
    WithItemElsewhere(h, img, it, other.header * BLOCK_SIZE, other.header * BLOCK_SIZE + BLOCK_SIZE);
    WithItemElsewhere(h, img, it, other.extent * BLOCK_SIZE, EndOf(other) * BLOCK_SIZE);
    WithItemElsewhere(h, img, it, EntryStart(0, other.slot), EntryStart(0, other.slot) + DIR_ENTRY_SIZE);
    WithItemElsewhere(h, img, it, EntryStart(1, other.slot), EntryStart(1, other.slot) + DIR_ENTRY_SIZE);
  }

  lemma BlankKept(h: Hashes, img: Bytes, it: Item, slot: nat)
    requires |img| == IMAGE_BYTES && ItemOk(it) && slot < DIRECTORY_SLOTS && slot != it.slot
    ensures EntryBytes(WithItem(h, img, it), 0, slot) == EntryBytes(img, 0, slot)
    ensures EntryBytes(WithItem(h, img, it), 1, slot) == EntryBytes(img, 1, slot)
  {
    hide WithItem;
    EntriesInside(slot);
    EntriesApart(it.slot, slot);
    WithItemElsewhere(h, img, it, EntryStart(0, slot), EntryStart(0, slot) + DIR_ENTRY_SIZE);
    WithItemElsewhere(h, img, it, EntryStart(1, slot), EntryStart(1, slot) + DIR_ENTRY_SIZE);
  }

  lemma PlacedMore(items: seq<Item>, it: Item)
    requires Placed(items) && ItemOk(it) && it.header == End(items)
    ensures Placed(items + [it]) && End(items + [it]) == EndOf(it)
  {
    var more := items + [it];
    forall k | 0 <= k < |more| ensures ItemOk(more[k]) && more[k].header == End(more[..k]) {
      if k < |items| {
        assert more[..k] == items[..k];
      } else {
        assert more[..k] == items;
      }
    }
  }

  /** The image with one more object stores it and everything before. */
  lemma StoresMore(h: Hashes, img: Bytes, items: seq<Item>, it: Item)
    requires Stored(h, img, items) && ItemOk(it) && it.header == End(items) && AllZero(img[End(items) * BLOCK_SIZE..])
    requires !Taken(items, it.slot) && forall k :: 0 <= k < |items| ==> items[k].id != it.id
    ensures Stored(h, WithItem(h, img, it), items + [it])
    ensures AllZero(WithItem(h, img, it)[EndOf(it) * BLOCK_SIZE..])
  {
    hide WithItem, ItemAt, EntryBytes, AllZero, ItemOk;
    var more, img' := items + [it], WithItem(h, img, it);
    PlacedMore(items, it);
    WithItemThere(h, img, it);
    forall k | 0 <= k < |more| ensures ItemOk(more[k]) && ItemAt(h, img', more[k]) {
      if k < |items| {
        EndsBelow(items, k);
        assert items[k].slot != it.slot;
        WithItemKeeps(h, img, it, items[k]);
      }
    }
    forall s | 0 <= s < DIRECTORY_SLOTS && !Taken(more, s)
      ensures AllZero(EntryBytes(img', 0, s)) && AllZero(EntryBytes(img', 1, s))
    {
      NotTaken(items, it, s);
      BlankKept(h, img, it, s);
    }
    TailKept(h, img, it, End(items));
  }

  lemma NotTaken(items: seq<Item>, it: Item, s: nat)
    requires !Taken(items + [it], s)
    ensures !Taken(items, s) && s != it.slot
  {
    var more := items + [it];
    assert more[|items|] == it;
    forall k | 0 <= k < |items| ensures items[k].slot != s {
      assert more[k] == items[k];
    }
  }

  lemma TailKept(h: Hashes, img: Bytes, it: Item, end: nat)
    requires |img| == IMAGE_BYTES && ItemOk(it) && it.header == end && AllZero(img[end * BLOCK_SIZE..])
    ensures AllZero(WithItem(h, img, it)[EndOf(it) * BLOCK_SIZE..])
  {
    hide WithItem;
    EntriesInside(it.slot);
    var lo := EndOf(it) * BLOCK_SIZE;
    WithItemElsewhere(h, img, it, lo, |img|);
    ZeroSlice(img, lo, |img|, end * BLOCK_SIZE);
    assert img[lo..|img|] == img[lo..];
  }

  /** The slots in the order in which an id tries them. */
  function Probe(start: nat, k: nat): nat {
    (start + k) % DIRECTORY_SLOTS
  }

  // ---------------------------------------------------------------- the writer

  class ImageWriter {
    const h: Hashes
    const data: array<byte>
    const bitmap: array<byte>
    var slots: set<nat>
    ghost var items: seq<Item>

    ghost predicate Valid()
      reads this, data, bitmap
    {
      && data.Length == IMAGE_BYTES && bitmap.Length == BITMAP_BLOCKS * BLOCK_SIZE && bitmap != data
      && Stored(h, data[..], items) && AllZero(data[End(items) * BLOCK_SIZE..])
      && Filled(bitmap[..], End(items))
      && (forall s :: 0 <= s < DIRECTORY_SLOTS ==> (s in slots <==> Taken(items, s)))
    }

    constructor (hashes: Hashes)
      ensures Valid() && items == [] && h == hashes && fresh(data) && fresh(bitmap)
    {
      h := hashes;
      data := new byte[IMAGE_BYTES](i => NUL);
      bitmap := new byte[BITMAP_BLOCKS * BLOCK_SIZE](i => NUL);
      slots, items := {}, [];
      new;
      assert AllZero(data[..]) && forall i :: 0 <= i < |bitmap[..]| ==> bitmap[..][i] == NUL;
      BlankBitmap(bitmap[..]);
      hide Filled, AllZero, Stored;
      for block := 0 to DATA_LBA
        invariant Filled(bitmap[..], block) && AllZero(data[..]) && slots == {} && items == []
      {
        SetBit(block);
      }
      NothingStored(h, data[..]);
      assert data[..][DATA_LBA * BLOCK_SIZE..] == data[DATA_LBA * BLOCK_SIZE..];
    }

    method SetBit(block: nat)
      requires block / 8 < bitmap.Length && Filled(bitmap[..], block)
      modifies bitmap
      ensures Filled(bitmap[..], block + 1)
    {
      ghost var before := bitmap[..];
      bitmap[block / 8] := WithBit(bitmap[block / 8], block % 8);
      assert bitmap[..] == before[block / 8 := WithBit(before[block / 8], block % 8)];
      FilledMore(before, bitmap[..], block);
    }

    /** First fit. Without frees the first fit is the end of what is used. */
    method Alloc(blocks: nat, ghost end: nat) returns (start: Option<nat>)
      requires bitmap.Length == BITMAP_BLOCKS * BLOCK_SIZE && Filled(bitmap[..], end)
      requires 0 < blocks && DATA_LBA <= end <= IMAGE_BLOCKS
      modifies bitmap
      ensures start == if end + blocks <= IMAGE_BLOCKS then Some(end) else None
      ensures start.Some? ==> Filled(bitmap[..], end + blocks)
    {
      hide Filled, IsSet;
      start := None;
      var count := 0;
      for block := DATA_LBA to IMAGE_BLOCKS
        invariant Filled(bitmap[..], end) && count < blocks
        invariant if block <= end then start == None && count == 0 else start == Some(end) && count == block - end
      {
        FilledAt(bitmap[..], end, block);
        if !IsSet(bitmap[block / 8], block % 8) {
          if start == None {
            start := Some(block);
          }
          count := count + 1;
          if count == blocks {
            for b := start.value to start.value + blocks
              invariant Filled(bitmap[..], b)
            {
              SetBit(b);
            }
            return;
          }
        } else {
          start, count := None, 0;
        }
      }
      start := None;
    }

    method WriteBlocks(lba: nat, bytes: Bytes) returns (ok: bool)
      modifies data
      ensures ok <==> lba * BLOCK_SIZE + |bytes| <= data.Length
      ensures ok ==> data[..] == Patched(old(data[..]), lba * BLOCK_SIZE, bytes)
      ensures !ok ==> data[..] == old(data[..])
    {
      var start := lba * BLOCK_SIZE;
      if start + |bytes| > data.Length {
        return false;
      }
      forall i | 0 <= i < |bytes| {
        data[start + i] := bytes[i];
      }
      ghost var end := start + |bytes|;
      assert data[..] == data[..start] + data[start..end] + data[end..];
      assert data[start..end] == bytes;
      assert data[..start] == old(data[..start]) && data[end..] == old(data[end..]);
      return true;
    }

    /** Hash placement with linear probing; fails only when every slot is taken. */
    method DirectoryIndex(id: u64) returns (index: Option<nat>)
      modifies this`slots
      ensures index.Some? ==>
                index.value < DIRECTORY_SLOTS && index.value !in old(slots) && slots == old(slots) + {index.value}
      ensures index == None <==> forall s :: 0 <= s < DIRECTORY_SLOTS ==> s in old(slots)
      ensures index == None ==> slots == old(slots)
    {
      var start := (id / 256) % DIRECTORY_SLOTS;
      for offset := 0 to DIRECTORY_SLOTS
        invariant slots == old(slots)
        invariant forall k :: 0 <= k < offset ==> Probe(start, k) in slots
      {
        var i := Probe(start, offset);
        if i !in slots {
          slots := slots + {i};
          return Some(i);
        }
      }
      forall s | 0 <= s < DIRECTORY_SLOTS ensures s in slots {
        var k := if s >= start then s - start else s + DIRECTORY_SLOTS - start;
        assert Probe(start, k) == s;
      }
      return None;
    }

    /** Read a directory block, replace one entry and write the block back. */
    method WriteEntry(bank: nat, slot: nat, entry: Bytes)
      requires data.Length == IMAGE_BYTES && bank < 2 && slot < DIRECTORY_SLOTS && |entry| == DIR_ENTRY_SIZE
      modifies data
      ensures data[..] == Patched(old(data[..]), EntryStart(bank, slot), entry)
    {
      hide Patched;
      var bankLba := DIRECTORY_LBA + bank * DIRECTORY_BLOCKS;
      var byteOffset := slot * DIR_ENTRY_SIZE;
      var lba := bankLba + byteOffset / BLOCK_SIZE;
      var offset := byteOffset % BLOCK_SIZE;
      assert lba * BLOCK_SIZE + offset == EntryStart(bank, slot);
      assert offset + DIR_ENTRY_SIZE <= BLOCK_SIZE;
      var block := data[lba * BLOCK_SIZE..lba * BLOCK_SIZE + BLOCK_SIZE];
      PatchInBlock(data[..], lba * BLOCK_SIZE, BLOCK_SIZE, offset, entry);
      assert data[..][lba * BLOCK_SIZE..lba * BLOCK_SIZE + BLOCK_SIZE] == block;
      var _ := WriteBlocks(lba, Patched(block, offset, entry));
    }

    /** Room for a header, for the content and for a directory entry. */
    ghost predicate HasRoom(n: nat)
      reads this
    {
      End(items) + 1 + BlocksFor(n) <= IMAGE_BLOCKS && exists s :: 0 <= s < DIRECTORY_SLOTS && s !in slots
    }

    lemma RoomIs(n: nat)
      requires Valid()
      ensures HasRoom(n) <==> End(items) + 1 + BlocksFor(n) <= IMAGE_BLOCKS && |items| < DIRECTORY_SLOTS
    {
      hide Filled, Stored, AllZero, Taken, BlocksFor;
      SlotFree(h, data[..], items);
    }

    lemma EndIs(before: seq<Item>)
      requires Valid() && |items| == |before| + 1 && items[..|before|] == before
      ensures End(items) == End(before) + 1 + BlocksFor(|items[|before|].data|)
    {
      hide Filled, Stored, AllZero, Taken, BlocksFor, End;
      EndGrows(h, data[..], before, items);
    }

    /** An object is stored whole or the writer gives up; empty content is no object. */
    method PutObject(id: u64, bytes: Bytes, generation: u32) returns (ok: bool)
      requires Valid() && id != 0 && generation != 0 && forall k :: 0 <= k < |items| ==> items[k].id != id
      modifies this, data, bitmap
      ensures ok <==> bytes == [] || old(HasRoom(|bytes|))
      ensures ok ==> Valid()
      ensures bytes == [] ==> items == old(items)
      ensures ok && bytes != [] ==>
                |items| == |old(items)| + 1 && items[..|old(items)|] == old(items)
                && items[|old(items)|].id == id && items[|old(items)|].data == bytes
    {
      hide Patched, Filled, Stored, AllZero, EncodeHeader, EncodeEntry, WithItem, Padded;
      if bytes == [] {
        return true;
      }
      ghost var end, img := End(items), data[..];
      StoredEnd(h, data[..], items);
      var blocks := BlocksFor(|bytes|);
      var header := Alloc(1, end);
      if header == None {
        return false;
      }
      var extent := Alloc(blocks, end + 1);
      if extent == None {
        return false;
      }
      var it := Item(id, generation, bytes, header.value, extent.value, 0);
      assert ItemOk(it);
      ItemBounds(it);
      var written := WriteBlocks(header.value, EncodeHeader(h, it));
      written := WriteBlocks(extent.value, Padded(bytes));
      var index := DirectoryIndex(id);
      if index == None {
        return false;
      }
      SlotUnseen(h, it, index.value);
      it := it.(slot := index.value);
      WriteEntry(0, index.value, EncodeEntry(h, it));
      WriteEntry(1, index.value, EncodeEntry(h, it));
      Assembled(h, img, it);
      assert data[..] == WithItem(h, img, it);
      StoresMore(h, img, items, it) by { assert img[end * BLOCK_SIZE..] == old(data[end * BLOCK_SIZE..]); }
      TakenMore(items, it);
      items := items + [it];
      assert data[..][End(items) * BLOCK_SIZE..] == data[End(items) * BLOCK_SIZE..];
      return true;
    }

    /** Both superblocks and the bitmap: the image is complete. */
    method Write(nextId: u64)
      requires Valid()
      modifies data
      ensures Formatted(h, data[..], items, nextId)
    {
      hide Patched, Filled, Stored, AllZero, EncodeSuperblock, Formatted;
      FinishFormats(h, data[..], items, bitmap[..], nextId);
      var written := WriteBlocks(0, EncodeSuperblock(h, nextId));
      written := WriteBlocks(1, EncodeSuperblock(h, nextId));
      written := WriteBlocks(BITMAP_LBA, bitmap[..]);
    }
  }

  lemma Assembled(h: Hashes, img: Bytes, it: Item)
    requires |img| == IMAGE_BYTES && ItemOk(it) && |it.data| <= IMAGE_BYTES
    requires it.header < IMAGE_BLOCKS && it.extent < IMAGE_BLOCKS
    ensures var a := Patched(img, it.header * BLOCK_SIZE, EncodeHeader(h, it));
            Fits(a, it.extent * BLOCK_SIZE, Padded(it.data))
    ensures var a := Patched(img, it.header * BLOCK_SIZE, EncodeHeader(h, it));
            var b := Patched(a, it.extent * BLOCK_SIZE, Padded(it.data));
            var c := Patched(b, EntryStart(0, it.slot), EncodeEntry(h, it));
            WithItem(h, img, it) == Patched(c, EntryStart(1, it.slot), EncodeEntry(h, it))
  {
    hide Patched, EncodeHeader, EncodeEntry, Padded;
  }

  lemma StoredEnd(h: Hashes, img: Bytes, items: seq<Item>)
    requires Stored(h, img, items)
    ensures DATA_LBA <= End(items) <= IMAGE_BLOCKS && |img| == IMAGE_BYTES
  {
    hide ItemAt, AllZero, EntryBytes;
    EndIsHigh(items);
  }

  lemma TakenMore(items: seq<Item>, it: Item)
    ensures forall s :: Taken(items + [it], s) <==> s == it.slot || Taken(items, s)
  {
    var more := items + [it];
    forall s ensures Taken(more, s) <==> s == it.slot || Taken(items, s) {
      if Taken(more, s) {
        var k :| 0 <= k < |more| && more[k].slot == s;
        assert k < |items| ==> items[k].slot == s;
      }
      if Taken(items, s) {
        var k :| 0 <= k < |items| && items[k].slot == s;
        assert more[k].slot == s;
      }
      assert more[|items|] == it;
    }
  }

  // ---------------------------------------------------------------- metadata

  /** Writes below the directory leave every object where it is. */
  lemma MetadataKeeps(h: Hashes, img: Bytes, items: seq<Item>, loc: nat, bytes: Bytes)
    requires Stored(h, img, items) && loc + |bytes| <= DIRECTORY_LBA * BLOCK_SIZE
    ensures Stored(h, Patched(img, loc, bytes), items)
  {
    hide Patched, AllZero, Placed;
    var img' := Patched(img, loc, bytes);
    forall k | 0 <= k < |items| ensures ItemOk(items[k]) && ItemAt(h, img', items[k]) {
      StoredItem(h, img, items, k);
      MetadataKeepsItem(h, img, items[k], loc, bytes);
    }
    forall s | 0 <= s < DIRECTORY_SLOTS && !Taken(items, s)
      ensures AllZero(EntryBytes(img', 0, s)) && AllZero(EntryBytes(img', 1, s))
    {
      EntriesInside(s);
      SliceElsewhere(img, loc, bytes, EntryStart(0, s), EntryStart(0, s) + DIR_ENTRY_SIZE);
      SliceElsewhere(img, loc, bytes, EntryStart(1, s), EntryStart(1, s) + DIR_ENTRY_SIZE);
    }
  }

  lemma MetadataKeepsItem(h: Hashes, img: Bytes, it: Item, loc: nat, bytes: Bytes)
    requires |img| == IMAGE_BYTES && ItemOk(it) && ItemAt(h, img, it) && loc + |bytes| <= DIRECTORY_LBA * BLOCK_SIZE
    ensures ItemAt(h, Patched(img, loc, bytes), it)
  {
    hide Patched, HeaderBlock, EncodeEntry, Padded;
    ItemBounds(it);
    EntriesInside(it.slot);
    SliceElsewhere(img, loc, bytes, it.header * BLOCK_SIZE, it.header * BLOCK_SIZE + BLOCK_SIZE);
    SliceElsewhere(img, loc, bytes, it.extent * BLOCK_SIZE, EndOf(it) * BLOCK_SIZE);
    SliceElsewhere(img, loc, bytes, EntryStart(0, it.slot), EntryStart(0, it.slot) + DIR_ENTRY_SIZE);
    SliceElsewhere(img, loc, bytes, EntryStart(1, it.slot), EntryStart(1, it.slot) + DIR_ENTRY_SIZE);
  }

  /** Both superblocks and the bitmap, written over a stored image, finish it. */
  lemma FinishFormats(h: Hashes, img: Bytes, items: seq<Item>, bitmap: Bytes, nextId: u64)
    requires Stored(h, img, items) && |bitmap| == BITMAP_BLOCKS * BLOCK_SIZE && Filled(bitmap, End(items))
    ensures var sb := EncodeSuperblock(h, nextId);
            |img| == IMAGE_BYTES
            && Formatted(h, Patched(Patched(Patched(img, 0, sb), BLOCK_SIZE, sb), BITMAP_LBA * BLOCK_SIZE, bitmap),
                         items, nextId)
  {
    hide Patched, EncodeSuperblock, Stored, Filled;
    StoredSize(h, img, items);
    var sb := EncodeSuperblock(h, nextId);
    var a := Patched(img, 0, sb);
    var b := Patched(a, BLOCK_SIZE, sb);
    var c := Patched(b, BITMAP_LBA * BLOCK_SIZE, bitmap);
    MetadataKeeps(h, img, items, 0, sb);
    MetadataKeeps(h, a, items, BLOCK_SIZE, sb);
    MetadataKeeps(h, b, items, BITMAP_LBA * BLOCK_SIZE, bitmap);
    SliceThere(img, 0, sb);
    SliceElsewhere(a, BLOCK_SIZE, sb, 0, BLOCK_SIZE);
    SliceElsewhere(b, BITMAP_LBA * BLOCK_SIZE, bitmap, 0, BLOCK_SIZE);
    SliceThere(a, BLOCK_SIZE, sb);
    SliceElsewhere(b, BITMAP_LBA * BLOCK_SIZE, bitmap, BLOCK_SIZE, 2 * BLOCK_SIZE);
    SliceThere(b, BITMAP_LBA * BLOCK_SIZE, bitmap);
  }

  /** Neither the header nor the entry says which slot was taken. */
  lemma SlotUnseen(h: Hashes, it: Item, slot: nat)
    requires |it.data| <= IMAGE_BYTES && it.extent < IMAGE_BLOCKS && it.header < IMAGE_BLOCKS
    ensures EncodeHeader(h, it) == EncodeHeader(h, it.(slot := slot))
  {
    hide Le;
    var other := it.(slot := slot);
    assert forall crc: u32, hash: u64 :: HeaderWith(crc, hash, it) == HeaderWith(crc, hash, other);
  }

  // ---------------------------------------------------------------- bitmap and blank image

  lemma BlankBitmap(bitmap: Bytes)
    requires forall i :: 0 <= i < |bitmap| ==> bitmap[i] == NUL
    ensures Filled(bitmap, 0)
  {
    forall b: nat | b / 8 < |bitmap| ensures !Marks(bitmap, b) {
      NoBits(b % 8);
    }
  }

  lemma FilledMore(before: Bytes, after: Bytes, block: nat)
    requires Filled(before, block) && block / 8 < |before|
    requires after == before[block / 8 := WithBit(before[block / 8], block % 8)]
    ensures Filled(after, block + 1)
  {
    hide Marks, WithBit;
    forall b: nat | b / 8 < |after| ensures Marks(after, b) <==> b < block + 1 {
      MarkIs(before, block, b);
    }
  }

  lemma FilledAt(bitmap: Bytes, end: nat, block: nat)
    requires Filled(bitmap, end) && block / 8 < |bitmap|
    ensures IsSet(bitmap[block / 8], block % 8) <==> block < end
  {
    hide IsSet;
    assert Marks(bitmap, block) <==> block < end;
  }

  lemma NothingStored(h: Hashes, img: Bytes)
    requires |img| == IMAGE_BYTES && AllZero(img)
    ensures Stored(h, img, []) && AllZero(img[DATA_LBA * BLOCK_SIZE..])
  {
  }

  // ---------------------------------------------------------------- staging a bundle

  datatype Artifact = Artifact(id: u64, data: Bytes)

  ghost predicate Among(items: seq<Item>, a: Artifact) {
    exists k :: 0 <= k < |items| && Holds(items[k], a)
  }

  ghost predicate From(objects: seq<Artifact>, n: nat, it: Item)
    requires n <= |objects|
  {
    exists i :: 0 <= i < n && Holds(it, objects[i])
  }

  /** Every object with content is among the items, and nothing else is. */
  ghost predicate Staged(objects: seq<Artifact>, n: nat, items: seq<Item>)
    requires n <= |objects|
  {
    && (forall i :: 0 <= i < n && objects[i].data != [] ==> Among(items, objects[i]))
    && (forall k :: 0 <= k < |items| ==> From(objects, n, items[k]))
  }

  predicate Holds(it: Item, a: Artifact) {
    it.id == a.id && it.data == a.data
  }

  /** `img` parses cleanly and gives back the content of every object, and of nothing else. */
  ghost predicate GivesBack(h: Hashes, img: Bytes, objects: seq<Artifact>) {
    var p := ParseImage(h, img);
    && p.Parsed? && p.superblock.Some? && p.errors == [] && p.omitted == {}
    && (forall i :: 0 <= i < |objects| && objects[i].data != [] ==>
          ReadObject(h, img, p, objects[i].id, true) == Content(objects[i].data))
    && (forall id :: id in p.objects ==> exists i :: 0 <= i < |objects| && objects[i].id == id)
  }

  lemma StagedGivesBack(h: Hashes, img: Bytes, objects: seq<Artifact>, items: seq<Item>, nextId: u64)
    requires Formatted(h, img, items, nextId) && nextId != 0 && Staged(objects, |objects|, items)
    ensures GivesBack(h, img, objects)
  {
    hide Formatted, ParseImage, ReadObject;
    ImageReadsBack(h, img, items, nextId);
    var p := ParseImage(h, img);
    forall i | 0 <= i < |objects| && objects[i].data != []
      ensures ReadObject(h, img, p, objects[i].id, true) == Content(objects[i].data)
    {
      assert Among(items, objects[i]);
      var k :| 0 <= k < |items| && Holds(items[k], objects[i]);
      assert ReadObject(h, img, p, items[k].id, true) == Content(items[k].data);
    }
    forall id | id in p.objects ensures exists i :: 0 <= i < |objects| && objects[i].id == id {
      var k :| 0 <= k < |items| && items[k].id == id;
      assert From(objects, |objects|, items[k]);
      var i :| 0 <= i < |objects| && Holds(items[k], objects[i]);
      assert objects[i].id == id;
    }
  }

  lemma StagedMore(objects: seq<Artifact>, n: nat, items: seq<Item>, items': seq<Item>)
    requires n < |objects| && Staged(objects, n, items) && items <= items'
    requires if objects[n].data == [] then items' == items else |items'| == |items| + 1 && Holds(items'[|items|], objects[n])
    ensures Staged(objects, n + 1, items')
  {
    hide Among, From, Holds;
    forall i | 0 <= i < n + 1 && objects[i].data != [] ensures Among(items', objects[i]) {
      if i < n {
        AmongMore(items, items', objects[i]);
      } else {
        AmongNow(items', |items|, objects[i]);
      }
    }
    forall k | 0 <= k < |items'| ensures From(objects, n + 1, items'[k]) {
      if k < |items| {
        assert items'[k] == items[k];
        FromMore(objects, n, items[k]);
      } else {
        FromNow(objects, n, items'[k]);
      }
    }
  }

  lemma AmongMore(items: seq<Item>, items': seq<Item>, a: Artifact)
    requires Among(items, a) && items <= items'
    ensures Among(items', a)
  {
    var k :| 0 <= k < |items| && Holds(items[k], a);
    assert items'[k] == items[k];
  }

  lemma AmongNow(items: seq<Item>, k: nat, a: Artifact)
    requires k < |items| && Holds(items[k], a)
    ensures Among(items, a)
  {
  }

  lemma FromMore(objects: seq<Artifact>, n: nat, it: Item)
    requires n < |objects| && From(objects, n, it)
    ensures From(objects, n + 1, it)
  {
  }

  lemma FromNow(objects: seq<Artifact>, n: nat, it: Item)
    requires n < |objects| && Holds(it, objects[n])
    ensures From(objects, n + 1, it)
  {
  }

  lemma NewId(objects: seq<Artifact>, n: nat, items: seq<Item>, seen: set<u64>)
    requires n < |objects| && Staged(objects, n, items) && objects[n].id !in seen && SeenIds(objects, n, seen)
    ensures forall k :: 0 <= k < |items| ==> items[k].id != objects[n].id
  {
    forall k | 0 <= k < |items| ensures items[k].id != objects[n].id {
      assert From(objects, n, items[k]);
      var i :| 0 <= i < n && Holds(items[k], objects[i]);
    }
  }

  // ---------------------------------------------------------------- what fits

  /** Blocks that an object takes: a header and its content. */
  function BlocksOf(a: Artifact): nat {
    if a.data == [] then 0 else 1 + BlocksFor(|a.data|)
  }

  function Demand(objects: seq<Artifact>): nat {
    if objects == [] then 0 else Demand(objects[..|objects| - 1]) + BlocksOf(objects[|objects| - 1])
  }

  /** Directory entries that the objects take. */
  function Entries(objects: seq<Artifact>): nat {
    if objects == [] then 0
    else Entries(objects[..|objects| - 1]) + if objects[|objects| - 1].data == [] then 0 else 1
  }

  predicate DistinctIds(objects: seq<Artifact>) {
    forall i, j :: 0 <= i < j < |objects| ==> objects[i].id != objects[j].id
  }

  /** Distinct ids, enough blocks and enough directory entries. */
  predicate Storable(objects: seq<Artifact>) {
    DistinctIds(objects) && DATA_LBA + Demand(objects) <= IMAGE_BLOCKS && Entries(objects) <= DIRECTORY_SLOTS
  }

  lemma {:induction false} PrefixDemands(objects: seq<Artifact>, n: nat)
    requires n <= |objects|
    ensures Demand(objects[..n]) <= Demand(objects) && Entries(objects[..n]) <= Entries(objects)
    decreases |objects|
  {
    if n < |objects| {
      PrefixDemands(objects[..|objects| - 1], n);
      assert objects[..|objects| - 1][..n] == objects[..n];
    } else {
      assert objects[..n] == objects;
    }
  }

  lemma DemandStep(objects: seq<Artifact>, n: nat)
    requires n < |objects|
    ensures Demand(objects[..n + 1]) == Demand(objects[..n]) + BlocksOf(objects[n])
    ensures Entries(objects[..n + 1]) == Entries(objects[..n]) + if objects[n].data == [] then 0 else 1
  {
    assert objects[..n + 1][..n] == objects[..n];
  }

  lemma EndGrows(h: Hashes, img: Bytes, items: seq<Item>, after: seq<Item>)
    requires Stored(h, img, after) && |after| == |items| + 1 && after[..|items|] == items
    ensures End(after) == End(items) + 1 + BlocksFor(|after[|items|].data|)
  {
    hide ItemAt, AllDistinct, Taken;
    assert ItemOk(after[|items|]);
  }

  function SlotsOf(items: seq<Item>): set<nat> {
    set k | 0 <= k < |items| :: items[k].slot
  }

  lemma {:induction false} SlotsCount(items: seq<Item>)
    requires AllDistinct(items)
    ensures |SlotsOf(items)| == |items|
  {
    if items != [] {
      var last := |items| - 1;
      assert SlotsOf(items) == SlotsOf(items[..last]) + {items[last].slot};
      assert items[last].slot !in SlotsOf(items[..last]);
      SlotsCount(items[..last]);
    } else {
      assert SlotsOf(items) == {};
    }
  }

  lemma FreeAmong(items: seq<Item>, n: nat)
    requires AllDistinct(items) && forall k :: 0 <= k < |items| ==> items[k].slot < n
    ensures |items| <= n && ((exists s :: 0 <= s < n && !Taken(items, s)) <==> |items| < n)
  {
    hide Run, AllDistinct;
    var all := Run(0, n);
    SlotsCount(items);
    Within(SlotsOf(items), all);
    if s :| 0 <= s < n && !Taken(items, s) {
      assert s in all && s !in SlotsOf(items);
    }
    if |items| < n {
      var s :| s in all && s !in SlotsOf(items);
      assert !Taken(items, s);
    }
  }

  /** A directory entry is free exactly while there are fewer objects than entries. */
  lemma SlotFree(h: Hashes, img: Bytes, items: seq<Item>)
    requires Stored(h, img, items)
    ensures (exists s :: 0 <= s < DIRECTORY_SLOTS && !Taken(items, s)) <==> |items| < DIRECTORY_SLOTS
  {
    hide ItemAt, AllDistinct, Taken;
    forall k | 0 <= k < |items| ensures items[k].slot < DIRECTORY_SLOTS {
      assert ItemOk(items[k]);
    }
    FreeAmong(items, DIRECTORY_SLOTS);
  }

  lemma Within(a: set<nat>, b: set<nat>)
    requires a <= b
    ensures |a| <= |b| && (|a| == |b| <==> a == b)
  {
    var rest := b - a;
    assert b == a + rest && a * rest == {};
  }

  ghost predicate SeenIds(objects: seq<Artifact>, n: nat, seen: set<u64>)
    requires n <= |objects|
  {
    && (forall i :: 0 <= i < n ==> objects[i].id in seen)
    && (forall id :: id in seen ==> exists i :: 0 <= i < n && objects[i].id == id)
  }

  lemma SeenMore(objects: seq<Artifact>, n: nat, seen: set<u64>)
    requires n < |objects| && SeenIds(objects, n, seen)
    ensures SeenIds(objects, n + 1, seen + {objects[n].id})
    ensures objects[n].id in seen ==> !DistinctIds(objects)
    ensures DistinctIds(objects[..n]) && objects[n].id !in seen ==> DistinctIds(objects[..n + 1])
  {
    assert objects[n].id == objects[n].id;
  }

  /** Content is stored exactly if there is room for it; `n` objects are stored already. */
  lemma NoRoom(objects: seq<Artifact>, n: nat)
    requires n < |objects|
    requires DATA_LBA + Demand(objects[..n + 1]) > IMAGE_BLOCKS || Entries(objects[..n + 1]) > DIRECTORY_SLOTS
    ensures !Storable(objects)
  {
    hide Demand, Entries;
    PrefixDemands(objects, n + 1);
  }

  /** The whole tool: an image that reads back, exactly if ids differ and there is room for everything. */
  method Stage(h: Hashes, objects: seq<Artifact>) returns (image: Option<array<byte>>)
    requires |objects| < 0xFFFF_FFFF_FFFF_FFFF && forall i :: 0 <= i < |objects| ==> objects[i].id != 0
    ensures image.Some? <==> Storable(objects)
    ensures image.Some? ==> GivesBack(h, image.value[..], objects)
  {
    hide GivesBack, Formatted, Staged, Holds, SeenIds, Demand, Entries, DistinctIds, BlocksFor, ImageWriter.Valid,
      ImageWriter.HasRoom;
    var writer := new ImageWriter(h);
    var seen := {};
    StagedNone(objects);
    for i := 0 to |objects|
      invariant writer.Valid() && writer.h == h && fresh(writer) && fresh(writer.data) && fresh(writer.bitmap)
      invariant Staged(objects, i, writer.items) && SeenIds(objects, i, seen) && Storable(objects[..i])
      invariant End(writer.items) == DATA_LBA + Demand(objects[..i]) && |writer.items| == Entries(objects[..i])
    {
      SeenMore(objects, i, seen);
      if objects[i].id in seen {
        return None;
      }
      NewId(objects, i, writer.items, seen);
      seen := seen + {objects[i].id};
      DemandStep(objects, i);
      writer.RoomIs(|objects[i].data|);
      ghost var before := writer.items;
      var ok := writer.PutObject(objects[i].id, objects[i].data, 1);
      if !ok {
        NoRoom(objects, i);
        return None;
      }
      if objects[i].data != [] {
        writer.EndIs(before);
      }
      HoldsNew(before, writer.items, objects[i]);
      StagedMore(objects, i, before, writer.items);
    }
    assert objects[..|objects|] == objects;
    writer.Write(|objects| + 1);
    StagedGivesBack(h, writer.data[..], objects, writer.items, |objects| + 1);
    return Some(writer.data);
  }

  lemma StagedNone(objects: seq<Artifact>)
    ensures Staged(objects, 0, []) && SeenIds(objects, 0, {}) && Storable(objects[..0])
    ensures Demand(objects[..0]) == 0 && Entries(objects[..0]) == 0 && End([]) == DATA_LBA
  {
  }

  lemma HoldsNew(before: seq<Item>, after: seq<Item>, a: Artifact)
    requires a.data == [] ==> after == before
    requires a.data != [] ==> |after| == |before| + 1 && after[..|before|] == before
                                 && after[|before|].id == a.id && after[|before|].data == a.data
    ensures before <= after && (a.data != [] ==> Holds(after[|before|], a))
  {
  }
}
