/**
 * The packed camera metadata block of icamera_metadata_base.cpp as a class.
 *
 * The header fields that placement fixes (size, capacities, start offsets)
 * are constants; the fields the mutators update in place (flags, the entry
 * list, data_count, the bytes of the data area) are variables. The entry
 * array is the sequence `entries` of live entries (its length is the
 * header's entry_count); the data area is the byte array `data` (its length
 * is the header's data_capacity).
 *
 * Every mutator keeps Valid(), which implies what the structural validator
 * checks (the asserts at the end of each mutator), and states its effect on
 * Values(): the (tag, type, count, payload bytes) the block stores, in order.
 */
module MetadataBase {
  import opened Common
  import opened MetadataLayout

  /** Whether a header's flags word carries FLAG_SORTED. */
  predicate SortedFlag(flags: bv32)
  {
    flags & FLAG_SORTED != 0
  }

  /** flags & ~FLAG_SORTED: the sorted bit cleared, every other bit kept. */
  function ClearSorted(flags: bv32): (r: bv32)
    ensures !SortedFlag(r) && r | FLAG_SORTED == flags | FLAG_SORTED
  {
    flags & !FLAG_SORTED
  }

  /** flags | FLAG_SORTED: the sorted bit set, every other bit kept. */
  function SetSorted(flags: bv32): (r: bv32)
    ensures SortedFlag(r) && r & !FLAG_SORTED == flags & !FLAG_SORTED
  {
    flags | FLAG_SORTED
  }
  /** (flags & ~FLAG_SORTED) | (from & FLAG_SORTED): the sorted bit taken from another flags word. */
  function TakeSorted(flags: bv32, from: bv32): (r: bv32)
    ensures SortedFlag(r) == SortedFlag(from) && r & !FLAG_SORTED == flags & !FLAG_SORTED
  {
    (flags & !FLAG_SORTED) | (from & FLAG_SORTED)
  }

  /**
   * The flags append_icamera_metadata leaves, as coded: onto an empty
   * destination the source's sorted bit is OR-ed in, so a sorted bit the
   * empty destination already had survives whatever the source holds.
   */
  function AppendFlagsAsWritten(dstFlags: bv32, dstCount: nat, srcFlags: bv32, srcCount: nat): (r: bv32)
    ensures dstCount == 0 && SortedFlag(dstFlags) ==> SortedFlag(r)
  {
    if dstCount == 0 then dstFlags | (srcFlags & FLAG_SORTED)
    else if srcCount != 0 then dstFlags & !FLAG_SORTED
    else dstFlags
  }

  /**
   * A block sorted while empty, then appended as coded an unsorted source
   * holding tags 5 and 3, stays flagged sorted; the bisection find then uses
   * misses tag 5 although the first entry has it. AppendFlags clears the flag.
   */
  lemma SortedEmptyAppendMisleadsFind()
    ensures var es := [Entry(5, 0, 0, TYPE_BYTE), Entry(3, 0, 0, TYPE_BYTE)];
            && SortedFlag(AppendFlagsAsWritten(SetSorted(0), 0, 0, |es|))
            && !SortedByTag(es)
            && es[0].tag == 5 && BinarySearch(es, 5, 0, |es|).None?
            && !SortedFlag(AppendFlags(SetSorted(0), 0, 0, |es|))
  {
    var es := [Entry(5, 0, 0, TYPE_BYTE), Entry(3, 0, 0, TYPE_BYTE)];
    assert BinarySearch(es, 5, 0, 2) == BinarySearch(es, 5, 2, 2);
    assert !SortedByTag(es) by {
      assert es[0].tag > es[1].tag;
    }
  }

  /**
   * The flags append should leave: the result is flagged sorted exactly when
   * the entries it ends up holding are known sorted, that is when it holds
   * only the source's (sorted) entries or only the destination's (sorted)
   * entries; every other bit of the destination flags is kept.
   */
  function AppendFlags(dstFlags: bv32, dstCount: nat, srcFlags: bv32, srcCount: nat): (r: bv32)
    ensures SortedFlag(r) <==> if dstCount == 0 then SortedFlag(srcFlags) else srcCount == 0 && SortedFlag(dstFlags)
  {
    if dstCount == 0 then TakeSorted(dstFlags, srcFlags)
    else if srcCount != 0 then ClearSorted(dstFlags)
    else dstFlags
  }


  class Metadata {
    /** The generated tag table the block is interpreted with. */
    const tags: TagTable
    const size: nat
    const version: nat
    const entryCapacity: nat
    const entriesStart: nat
    const dataStart: nat
    /** The data area; its length is data_capacity. */
    const data: array<Byte>
    var flags: bv32
    /** The live entries; their number is entry_count. */
    var entries: seq<Entry>
    var dataCount: nat

    /** The header fields are 32-bit. */
    predicate Fits32()
    {
      size < WORD_RANGE && entryCapacity < WORD_RANGE && entriesStart < WORD_RANGE
      && dataStart < WORD_RANGE && data.Length < WORD_RANGE
    }

    /** The layout place_icamera_metadata establishes for the given capacities. */
    predicate Placed()
    {
      && version == CURRENT_METADATA_VERSION
      && entriesStart == Align(HEADER_SIZE, ENTRY_ALIGNMENT)
      && dataStart == Align(entriesStart + ENTRY_SIZE * entryCapacity, DATA_ALIGNMENT)
      && size == CalculateSize(entryCapacity, data.Length)
    }

    ghost predicate Valid()
      reads this, data
    {
      && tags.Valid()
      && Fits32()
      && Placed()
      && HeaderOk(size, |entries|, entryCapacity, entriesStart, data.Length, dataStart, None)
      && BlockOk(tags, entries, dataCount, data.Length, entriesStart, dataStart)
      && (SortedFlag(flags) ==> SortedByTag(entries))
    }

    /** What the block stores: one value per entry, in entry order. */
    ghost function Values(): seq<EntryValue>
      reads this, data
      requires Valid()
    {
      ValuesOf(entries, data[..], dataCount)
    }

    /** The checks of validate_icamera_metadata_structure, with or without an expected size. */
    ghost predicate StructureOk(expectedSize: Option<nat>)
      reads this
      requires tags.Valid()
    {
      && HeaderOk(size, |entries|, entryCapacity, entriesStart, data.Length, dataStart, expectedSize)
      && EntriesOk(tags, entries, entriesStart, dataStart, data.Length)
    }

    /** The invariant the mutators keep passes the validator (their closing asserts). */
    lemma ValidPassesValidator()
      requires Valid()
      ensures StructureOk(None)
    {
      BlockEntriesOk(tags, entries, dataCount, data.Length, entriesStart, dataStart);
    }

    constructor Init(tags: TagTable, entryCapacity: nat, dataCapacity: nat)
      requires tags.Valid() && CalculateSize(entryCapacity, dataCapacity) < WORD_RANGE
      ensures Valid() && fresh(data)
      ensures this.tags == tags && this.entryCapacity == entryCapacity && data.Length == dataCapacity
      ensures flags == 0 && entries == [] && dataCount == 0
    {
      this.tags := tags;
      version := CURRENT_METADATA_VERSION;
      flags := 0;
      entries := [];
      this.entryCapacity := entryCapacity;
      var es := Align(HEADER_SIZE, ENTRY_ALIGNMENT);
      entriesStart := es;
      dataCount := 0;
      data := new Byte[dataCapacity];
      size := CalculateSize(entryCapacity, dataCapacity);
      dataStart := Align(es + ENTRY_SIZE * entryCapacity, DATA_ALIGNMENT);
    }

    /**
     * place_icamera_metadata: null without a buffer or when the buffer is
     * smaller than calculate_icamera_metadata_size; otherwise an empty block
     * with exactly the requested capacities.
     */
    static method Place(tags: TagTable, dstSize: Option<nat>, entryCapacity: nat, dataCapacity: nat)
      returns (m: Metadata?)
      requires tags.Valid() && CalculateSize(entryCapacity, dataCapacity) < WORD_RANGE
      ensures m == null <==> dstSize.None? || CalculateSize(entryCapacity, dataCapacity) > dstSize.value
      ensures m != null ==> fresh(m) && fresh(m.data) && m.Valid() && m.tags == tags
      ensures m != null ==> m.entries == [] && m.Values() == [] && m.dataCount == 0 && m.flags == 0
      ensures m != null ==> m.entryCapacity == entryCapacity && m.data.Length == dataCapacity
      ensures m != null ==> m.size == CalculateSize(entryCapacity, dataCapacity)
    {
      if dstSize.None? {
        return null;
      }
      var needed := CalculateSize(entryCapacity, dataCapacity);
      if needed > dstSize.value {
        return null;
      }
      m := new Metadata.Init(tags, entryCapacity, dataCapacity);
    }

    /** allocate_icamera_metadata: a buffer of exactly the needed size, then placement. */
    static method Allocate(tags: TagTable, entryCapacity: nat, dataCapacity: nat) returns (m: Metadata)
      requires tags.Valid() && CalculateSize(entryCapacity, dataCapacity) < WORD_RANGE
      ensures fresh(m) && fresh(m.data) && m.Valid() && m.tags == tags
      ensures m.entries == [] && m.Values() == [] && m.dataCount == 0 && m.flags == 0
      ensures m.entryCapacity == entryCapacity && m.data.Length == dataCapacity
      ensures m.size == CalculateSize(entryCapacity, dataCapacity)
    {
      var p := Place(tags, Some(CalculateSize(entryCapacity, dataCapacity)), entryCapacity, dataCapacity);
      m := p;
    }

    /** get_icamera_metadata_compact_size: what the live entries and data need; never above size. */
    function CompactSize(): (r: nat)
      reads this, data
      requires Valid()
      ensures r <= size
      ensures HEADER_SIZE + ENTRY_SIZE * |entries| + dataCount <= r
    {
      CalculateSizeMonotone(|entries|, dataCount, entryCapacity, data.Length);
      CalculateSize(|entries|, dataCount)
    }

    /**
     * validate_icamera_metadata_structure: the header checks, then each entry's
     * alignment, type, tag type and data bounds. OK exactly when StructureOk.
     */
    method Validate(expectedSize: Option<nat>) returns (r: int)
      requires tags.Valid() && Fits32()
      ensures r == META_OK || r == META_ERROR
      ensures r == META_OK <==> StructureOk(expectedSize)
    {
      if expectedSize.Some? && size > expectedSize.value {
        return META_ERROR;
      }
      if |entries| > entryCapacity {
        return META_ERROR;
      }
      if entriesStart + entryCapacity > dataStart {
        return META_ERROR;
      }
      if dataStart + data.Length > size {
        return META_ERROR;
      }
      var i := 0;
      while i < |entries|
        invariant i <= |entries|
        invariant forall j :: 0 <= j < i ==> EntryOk(tags, entries[j], j, entriesStart, dataStart, data.Length)
      {
        var e := entries[i];
        if (entriesStart + ENTRY_SIZE * i) % ENTRY_ALIGNMENT != 0 {
          return META_ERROR;
        }
        if e.typ >= NUM_TYPES {
          return META_ERROR;
        }
        if TagType(tags, e.tag) != e.typ as int {
          return META_ERROR;
        }
        var ds := EntryDataSize(e.typ, e.count);
        if ds != 0 {
          if (dataStart + e.word) % DATA_ALIGNMENT != 0 {
            return META_ERROR;
          }
          if e.word + ds > data.Length {
            return META_ERROR;
          }
        } else if e.count == 0 {
          if e.word != 0 {
            return META_ERROR;
          }
        }
        i := i + 1;
      }
      return META_OK;
    }

    /**
     * get_icamera_metadata_entry: ERROR past the last entry; otherwise the
     * entry's tag, type, count and payload, read from the data area when the
     * payload is longer than four bytes and from the union otherwise.
     */
    function Get(index: nat): (r: Option<EntryValue>)
      reads this, data
      requires Valid()
      ensures r.None? <==> index >= |entries|
      ensures r.Some? ==> r.value == Values()[index]
    {
      if index >= |entries| then None
      else
        var e := entries[index];
        var p := e.count * TypeSize(e.typ);
        assert Contained(e, dataCount);
        Some(EntryValue(e.tag, e.typ, e.count,
                        if p > 4 then data[e.word..e.word + p] else BytesOf(e.word)[..p]))
    }

    /** memcpy(data + at, payload, |payload|). */
    method CopyIn(at: nat, payload: seq<Byte>)
      requires at + |payload| <= data.Length
      modifies data
      ensures Overwritten(old(data[..]), data[..], at, payload)
    {
      var k := 0;
      while k < |payload|
        invariant k <= |payload|
        invariant forall j :: 0 <= j < data.Length && (j < at || at + k <= j) ==> data[j] == old(data[j])
        invariant forall j :: 0 <= j < k ==> data[at + j] == payload[j]
      {
        data[at + k] := payload[k];
        k := k + 1;
      }
      assert data[at..at + |payload|] == payload;
    }

    /**
     * add_icamera_metadata_entry: ERROR, with nothing changed, for an unknown
     * tag, a full entry array, a null payload or a data area that would
     * overflow; otherwise the new entry is appended (see Put).
     */
    method Add(tag: nat, payload: Option<seq<Byte>>, count: nat) returns (r: int)
      requires Valid()
      requires count < WORD_RANGE
      requires payload.Some? && tags.Known(tag) ==> |payload.value| == count * TypeSize(TagType(tags, tag) as nat)
      modifies this, data
      ensures Valid()
      ensures r == META_OK || r == META_ERROR
      ensures r == META_ERROR <==>
                || !tags.Known(tag) || old(|entries|) == entryCapacity || payload.None?
                || old(dataCount) + EntryDataSize(TagType(tags, tag) as nat, count) > data.Length
      ensures r == META_ERROR ==>
                entries == old(entries) && dataCount == old(dataCount) && flags == old(flags) && data[..] == old(data[..])
      ensures r == META_OK ==>
                && Values() == old(Values()) + [EntryValue(tag, TagType(tags, tag) as nat, count, payload.value)]
                && dataCount == old(dataCount) + EntryDataSize(TagType(tags, tag) as nat, count)
                && flags == ClearSorted(old(flags))
    {
      var t := TagType(tags, tag);
      if t == -1 || |entries| == entryCapacity || payload.None?
         || EntryDataSize(t as nat, count) + dataCount > data.Length {
        return META_ERROR;
      }
      Put(tag, t as nat, count, payload.value);
      return META_OK;
    }

    /**
     * The successful part of add_icamera_metadata_entry: the payload goes
     * into the entry itself when it fits in four bytes and at data_count
     * otherwise; the entry is appended and the sorted flag cleared.
     */
    method Put(tag: nat, t: nat, count: nat, bytes: seq<Byte>)
      requires Valid()
      requires t < NUM_TYPES && TagType(tags, tag) == t as int && count < WORD_RANGE
      requires |bytes| == count * TypeSize(t) && |entries| < entryCapacity
      requires dataCount + EntryDataSize(t, count) <= data.Length
      modifies this, data
      ensures Valid()
      ensures Values() == old(Values()) + [EntryValue(tag, t, count, bytes)]
      ensures dataCount == old(dataCount) + EntryDataSize(t, count)
      ensures entries == old(entries) + [entries[|entries| - 1]]
      ensures flags == ClearSorted(old(flags))
    {
      ghost var area := data[..];
      var e;
      if EntryDataSize(t, count) == 0 {
        InlineWordReads(bytes);
        e := Entry(tag, count, InlineWord(bytes), t);
      } else {
        e := Entry(tag, count, dataCount, t);
        CopyIn(dataCount, bytes);
        CopiedValue(e, area, data[..], bytes);
      }
      assert data[..dataCount] == area[..dataCount];
      assert ValueOf(e, data[..]) == EntryValue(tag, t, count, bytes);
      AddEntryKeeps(tags, entries, area, data[..], dataCount, data.Length, entriesStart, dataStart, e);
      var es' := entries + [e];
      var dc' := dataCount + DataSize(e);
      assert BlockOk(tags, es', dc', data.Length, entriesStart, dataStart);
      entries := es';
      dataCount := dc';
      flags := ClearSorted(flags);
    }

    /**
     * sort_icamera_metadata: nothing to do when already flagged sorted;
     * otherwise the entries are put in tag order and the flag is set. The
     * entries, and so the stored values, are only permuted.
     */
    method Sort() returns (r: int)
      requires Valid()
      modifies this
      ensures Valid() && r == META_OK
      ensures SortedFlag(flags) && SortedByTag(entries)
      ensures old(SortedFlag(flags)) ==> entries == old(entries) && flags == old(flags)
      ensures multiset(entries) == multiset(old(entries))
      ensures multiset(Values()) == multiset(old(Values()))
      ensures dataCount == old(dataCount)
    {
      if SortedFlag(flags) {
        return META_OK;
      }
      var sorted := SortByTag(entries);
      SortByTagCorrect(entries);
      PermutationKeepsBlock(tags, entries, sorted, dataCount, data.Length, entriesStart, dataStart);
      PermutedValues(entries, sorted, data[..], dataCount);
      entries := sorted;
      flags := SetSorted(flags);
      return META_OK;
    }

    /**
     * find_icamera_metadata_entry: bisection over the entries when flagged
     * sorted, the first match of a linear scan otherwise; NOT_FOUND exactly
     * when no entry has the tag.
     */
    method Find(tag: nat) returns (r: int, index: nat)
      requires Valid()
      ensures r == META_OK || r == META_NOT_FOUND
      ensures r == META_NOT_FOUND <==> forall i :: 0 <= i < |entries| ==> entries[i].tag != tag
      ensures r == META_OK ==> index < |entries| && entries[index].tag == tag && Get(index) == Some(Values()[index])
      ensures r == META_OK && !SortedFlag(flags) ==> forall j :: 0 <= j < index ==> entries[j].tag != tag
      ensures SortedFlag(flags) ==> (r == META_OK <==> BinarySearch(entries, tag, 0, |entries|) == Some(index))
    {
      var found: Option<nat>;
      if SortedFlag(flags) {
        found := Bisect(entries, tag);
      } else {
        found := Scan(entries, tag);
      }
      if found.None? {
        return META_NOT_FOUND, 0;
      }
      return META_OK, found.value;
    }

    /**
     * The "remove old data" step of delete and update: the entry's bytes are
     * squeezed out of the data area with a memmove, every offset above them
     * moves down by their size, and the entry is left with no items.
     */
    method StripData(index: nat)
      requires Valid() && index < |entries| && OutOfLine(entries[index])
      modifies this, data
      ensures Valid()
      ensures entries == ShiftAll(old(entries), old(entries[index].word), old(DataSize(entries[index])))
                           [index := Stub(old(entries[index]))]
      ensures dataCount == old(dataCount) - old(DataSize(entries[index]))
      ensures flags == old(flags)
      ensures forall j :: 0 <= j < |entries| && j != index ==> Values()[j] == old(Values()[j])
    {
      var d := entries[index];
      var ds := DataSize(d);
      assert Contained(d, dataCount);
      ghost var area := data[..];
      MoveDown(data, d.word, ds, dataCount);
      StrippedBlock(tags, entries, area, data[..], dataCount, entriesStart, dataStart, index, SortedFlag(flags));
      var rs := FixOffsets(entries, d.word, ds);
      entries := rs[index := Stub(d)];
      dataCount := dataCount - ds;
    }

    /**
     * delete_icamera_metadata_entry: ERROR, with nothing changed, for an index
     * past the entries; otherwise the entry's data is squeezed out (when it
     * has any) and the entry removed. The flags are left as they were.
     */
    method Delete(index: nat) returns (r: int)
      requires Valid()
      modifies this, data
      ensures Valid()
      ensures r == META_OK || r == META_ERROR
      ensures r == META_ERROR <==> index >= old(|entries|)
      ensures r == META_ERROR ==>
                entries == old(entries) && dataCount == old(dataCount) && flags == old(flags) && data[..] == old(data[..])
      ensures r == META_OK ==>
                && Values() == old(Values())[..index] + old(Values())[index + 1..]
                && dataCount == old(dataCount) - old(DataSize(entries[index]))
                && flags == old(flags)
    {
      if index >= |entries| {
        return META_ERROR;
      }
      ghost var vs := Values();
      if OutOfLine(entries[index]) {
        StripData(index);
      }
      RemoveKeeps(tags, entries, data[..], dataCount, data.Length, entriesStart, dataStart, index);
      DropAgree(Values(), vs, index);
      if SortedFlag(flags) {
        SortedKeepsSorted(entries, index);
      }
      entries := entries[..index] + entries[index + 1..];
      return META_OK;
    }

    /** The inline branch of update: the payload becomes the entry's union, zero-filled. */
    method SetInline(index: nat, count: nat, payload: seq<Byte>)
      requires Valid() && index < |entries| && !OutOfLine(entries[index])
      requires count < WORD_RANGE && EntryDataSize(entries[index].typ, count) == 0
      requires |payload| == count * TypeSize(entries[index].typ)
      modifies this
      ensures Valid()
      ensures entries == old(entries)[index := old(entries[index]).(count := count, word := InlineWord(payload))]
      ensures dataCount == old(dataCount) && flags == old(flags)
      ensures Values() == old(Values())[index := EntryValue(entries[index].tag, entries[index].typ, count, payload)]
    {
      var e := entries[index];
      var f := e.(count := count, word := InlineWord(payload));
      InlineWordReads(payload);
      ReplaceInline(tags, entries, data[..], data[..], dataCount, data.Length, entriesStart, dataStart, index, f);
      if SortedFlag(flags) {
        SameTagsSorted(entries, entries[index := f]);
      }
      entries := entries[index := f];
    }

    /** The "append new data" branch of update: the payload goes in at data_count. */
    method PlaceData(index: nat, count: nat, payload: seq<Byte>)
      requires Valid() && index < |entries| && !OutOfLine(entries[index])
      requires count < WORD_RANGE && EntryDataSize(entries[index].typ, count) > 0
      requires |payload| == count * TypeSize(entries[index].typ)
      requires dataCount + EntryDataSize(entries[index].typ, count) <= data.Length
      modifies this, data
      ensures Valid()
      ensures entries == old(entries)[index := old(entries[index]).(count := count, word := old(dataCount))]
      ensures dataCount == old(dataCount) + EntryDataSize(entries[index].typ, count) && flags == old(flags)
      ensures Values() == old(Values())[index := EntryValue(entries[index].tag, entries[index].typ, count, payload)]
    {
      var e := entries[index];
      var f := e.(count := count, word := dataCount);
      ghost var area := data[..];
      CopyIn(dataCount, payload);
      assert data[..dataCount] == area[..dataCount];
      CopiedValue(f, area, data[..], payload);
      ReplaceInline(tags, entries, area, data[..], dataCount, data.Length, entriesStart, dataStart, index, f);
      var dc := dataCount + DataSize(f);
      if SortedFlag(flags) {
        SameTagsSorted(entries, entries[index := f]);
      }
      entries := entries[index := f];
      dataCount := dc;
    }

    /** The "reuse same data location" branch of update: same data size, bytes rewritten in place. */
    method RewriteData(index: nat, count: nat, payload: seq<Byte>)
      requires Valid() && index < |entries| && OutOfLine(entries[index])
      requires EntryDataSize(entries[index].typ, count) == DataSize(entries[index])
      requires |payload| == count * TypeSize(entries[index].typ)
      modifies this, data
      ensures Valid()
      ensures entries == old(entries)[index := old(entries[index]).(count := count)]
      ensures dataCount == old(dataCount) && flags == old(flags)
      ensures Values() == old(Values())[index := EntryValue(entries[index].tag, entries[index].typ, count, payload)]
    {
      var e := entries[index];
      var f := e.(count := count);
      ghost var area := data[..];
      assert Contained(e, dataCount);
      PayloadFits(f);
      CopyIn(e.word, payload);
      RewriteInPlace(tags, entries, area, data[..], dataCount, data.Length, entriesStart, dataStart, index, count, payload);
      assert BlockOk(tags, entries[index := f], dataCount, data.Length, entriesStart, dataStart);
      if SortedFlag(flags) {
        SameTagsSorted(entries, entries[index := f]);
      }
      entries := entries[index := f];
    }

    /**
     * update_icamera_metadata_entry, with the union cleared when the new
     * payload fits in the entry (see InlineUpdateAsWritten for the code as
     * written). ERROR, with nothing changed, for an index past the entries or
     * a data area too small for the new size; otherwise the entry holds the
     * new payload, data_count moves by the change in data size, and every
     * other entry reads as before. The refreshed entry is handed back when
     * asked for.
     */
    method Update(index: nat, payload: seq<Byte>, count: nat, wantUpdated: bool)
      returns (r: int, updated: Option<EntryValue>)
      requires Valid()
      requires count < WORD_RANGE
      requires index < |entries| ==> |payload| == count * TypeSize(entries[index].typ)
      modifies this, data
      ensures Valid()
      ensures r == META_OK || r == META_ERROR
      ensures r == META_ERROR <==>
                || index >= old(|entries|)
                || old(dataCount) + EntryDataSize(old(entries[index].typ), count) - old(DataSize(entries[index]))
                   > data.Length
      ensures r == META_ERROR ==>
                && entries == old(entries) && dataCount == old(dataCount) && data[..] == old(data[..])
                && updated.None?
      ensures flags == old(flags)
      ensures r == META_OK ==>
                && Values() == old(Values())[index := EntryValue(old(entries[index].tag), old(entries[index].typ),
                                                                 count, payload)]
                && dataCount == old(dataCount) + EntryDataSize(old(entries[index].typ), count)
                                - old(DataSize(entries[index]))
                && updated == (if wantUpdated then Get(index) else None)
    {
      if index >= |entries| {
        return META_ERROR, None;
      }
      var e := entries[index];
      var newSize := EntryDataSize(e.typ, count);
      var oldSize := DataSize(e);
      ghost var vs := Values();
      ghost var v := EntryValue(e.tag, e.typ, count, payload);
      if newSize != oldSize {
        if data.Length < dataCount + newSize - oldSize {
          return META_ERROR, None;
        }
        if oldSize != 0 {
          StripData(index);
        }
        ghost var mid := Values();
        if newSize != 0 {
          PlaceData(index, count, payload);
        } else {
          SetInline(index, count, payload);
        }
        ReplaceAgree(mid, vs, index, v);
      } else if newSize != 0 {
        RewriteData(index, count, payload);
      } else {
        SetInline(index, count, payload);
      }
      updated := if wantUpdated then Get(index) else None;
      return META_OK, updated;
    }

    /**
     * append_icamera_metadata, with the sorted flag as AppendFlags gives it.
     * ERROR, with nothing changed, for a null source or capacities too small
     * for both blocks; otherwise the source's entries follow the destination's,
     * its data is copied after data_count and its offsets rebased by it. The
     * source is read before anything is written, so appending a block to
     * itself behaves as the byte copies of the code do.
     */
    method Append(src: Metadata?) returns (r: int)
      requires Valid()
      requires src != null ==> src.Valid() && src.tags == tags
      modifies this, data
      ensures Valid()
      ensures r == META_OK || r == META_ERROR
      ensures r == META_ERROR <==>
                || src == null
                || entryCapacity < old(|src.entries|) + old(|entries|)
                || data.Length < old(src.dataCount) + old(dataCount)
      ensures r == META_ERROR ==>
                entries == old(entries) && dataCount == old(dataCount) && flags == old(flags) && data[..] == old(data[..])
      ensures r == META_OK ==>
                && Values() == old(Values()) + old(src.Values())
                && dataCount == old(dataCount) + old(src.dataCount)
                && flags == AppendFlags(old(flags), old(|entries|), old(src.flags), old(|src.entries|))
    {
      if src == null {
        return META_ERROR;
      }
      if entryCapacity < |src.entries| + |entries| {
        return META_ERROR;
      }
      if data.Length < src.dataCount + dataCount {
        return META_ERROR;
      }
      var ses := src.entries;
      var sdc := src.dataCount;
      var bytes := src.data[..sdc];
      assert BlockOk(tags, ses, sdc, src.data.Length, src.entriesStart, src.dataStart);
      ValuesFrame(ses, src.data[..], bytes, sdc);
      Splice(ses, bytes, src.flags, src.data.Length, src.entriesStart, src.dataStart);
      return META_OK;
    }

    /**
     * The successful part of append_icamera_metadata, given the source's
     * entries, data bytes and flags: the bytes go in at data_count, the
     * entries follow the destination's with their offsets rebased by it.
     */
    method Splice(ses: seq<Entry>, bytes: seq<Byte>, sflags: bv32, ghost sCap: nat, ghost sEntriesStart: nat,
                  ghost sDataStart: nat)
      requires Valid()
      requires BlockOk(tags, ses, |bytes|, sCap, sEntriesStart, sDataStart)
      requires SortedFlag(sflags) ==> SortedByTag(ses)
      requires |ses| + |entries| <= entryCapacity && |bytes| + dataCount <= data.Length
      modifies this, data
      ensures Valid()
      ensures Values() == old(Values()) + ValuesOf(ses, bytes, |bytes|)
      ensures dataCount == old(dataCount) + |bytes|
      ensures flags == AppendFlags(old(flags), old(|entries|), sflags, |ses|)
    {
      var sdc := |bytes|;
      ghost var area := data[..];
      CopyIn(dataCount, bytes);
      var moved := ses;
      if dataCount != 0 {
        moved := RebaseOffsets(ses, dataCount);
      } else {
        assert ShiftUpAll(ses, 0) == ses;
      }
      assert moved == ShiftUpAll(ses, dataCount);
      assert bytes[..sdc] == bytes;
      AppendBlocks(tags, entries, area, dataCount, ses, bytes, sdc, data[..], data.Length, entriesStart, dataStart,
                   sCap, sEntriesStart, sDataStart);
      var fl := AppendFlags(flags, |entries|, sflags, |ses|);
      SplicedSorted(entries, flags, ses, sflags, dataCount);
      var es := entries + moved;
      var dc := dataCount + sdc;
      assert BlockOk(tags, es, dc, data.Length, entriesStart, dataStart);
      flags := fl;
      entries := es;
      dataCount := dc;
    }

    /**
     * copy_icamera_metadata: null without a buffer or when the buffer is
     * smaller than the source's compact size; otherwise a block placed with
     * capacities equal to the source's counts, holding the source's flags,
     * entries and data (and so the same values).
     */
    static method Copy(dstSize: Option<nat>, src: Metadata) returns (m: Metadata?)
      requires src.Valid()
      ensures m == null <==> dstSize.None? || dstSize.value < src.CompactSize()
      ensures m != null ==>
                && fresh(m) && fresh(m.data) && m.Valid() && m.tags == src.tags
                && m.Values() == src.Values() && m.entries == src.entries
                && m.dataCount == src.dataCount && m.flags == src.flags
                && m.entryCapacity == |src.entries| && m.data.Length == src.dataCount
                && m.size == src.CompactSize()
    {
      var needed := src.CompactSize();
      if dstSize.None? || dstSize.value < needed {
        return null;
      }
      CalculateSizeMonotone(|src.entries|, src.dataCount, src.entryCapacity, src.data.Length);
      m := Place(src.tags, dstSize, |src.entries|, src.dataCount);
      var bytes := src.data[..src.dataCount];
      m.CopyIn(0, bytes);
      assert m.data[..] == bytes;
      assert BlockOk(src.tags, src.entries, src.dataCount, m.data.Length, m.entriesStart, m.dataStart);
      ValuesFrame(src.entries, src.data[..], m.data[..], src.dataCount);
      m.flags := src.flags;
      m.entries := src.entries;
      m.dataCount := src.dataCount;
    }

    /**
     * clone_icamera_metadata: null for a null source; otherwise a block
     * allocated with capacities equal to the source's counts, the source
     * appended to it. The append cannot fail, so the clone holds the source's
     * values and is flagged sorted exactly when the source is.
     */
    static method Clone(src: Metadata?) returns (m: Metadata?)
      requires src != null ==> src.Valid()
      ensures m == null <==> src == null
      ensures m != null ==>
                && fresh(m) && fresh(m.data) && m.Valid() && m.tags == src.tags
                && m.Values() == src.Values() && m.dataCount == src.dataCount
                && m.entryCapacity == |src.entries| && m.data.Length == src.dataCount
                && SortedFlag(m.flags) == SortedFlag(src.flags)
    {
      if src == null {
        return null;
      }
      CalculateSizeMonotone(|src.entries|, src.dataCount, src.entryCapacity, src.data.Length);
      var clone := Allocate(src.tags, |src.entries|, src.dataCount);
      var r := clone.Append(src);
      return clone;
    }

    /** A block with src's capacities, header and contents: what copying its bytes yields. */
    static method Duplicate(src: Metadata) returns (m: Metadata)
      requires src.Valid()
      ensures fresh(m) && fresh(m.data) && m.Valid() && m.tags == src.tags
      ensures m.size == src.size && m.entryCapacity == src.entryCapacity && m.data.Length == src.data.Length
      ensures m.entries == src.entries && m.dataCount == src.dataCount && m.flags == src.flags
      ensures m.data[..] == src.data[..] && m.Values() == src.Values()
    {
      m := new Metadata.Init(src.tags, src.entryCapacity, src.data.Length);
      m.CopyIn(0, src.data[..]);
      assert m.data[..] == src.data[..];
      m.flags := src.flags;
      m.entries := src.entries;
      m.dataCount := src.dataCount;
    }

    /**
     * allocate_copy_icamera_metadata_checked: null for a null source;
     * otherwise the first srcSize bytes are copied and the copy is validated
     * against srcSize, so a source block larger than srcSize is refused and
     * any other yields an exact copy.
     */
    static method AllocateCopyChecked(src: Metadata?, srcSize: nat) returns (m: Metadata?)
      requires src != null ==> src.Valid()
      ensures m == null <==> src == null || src.size > srcSize
      ensures m != null ==>
                && fresh(m) && m.Valid() && m.tags == src.tags
                && m.Values() == src.Values() && m.flags == src.flags
                && m.entryCapacity == src.entryCapacity && m.data.Length == src.data.Length
    {
      if src == null {
        return null;
      }
      var copy := Duplicate(src);
      copy.ValidPassesValidator();
      var r := copy.Validate(Some(srcSize));
      if r != META_OK {
        return null;
      }
      return copy;
    }
  }

  /** The flags AppendFlags gives claim sorted entries only when the joined entries are sorted. */
  lemma SplicedSorted(es: seq<Entry>, dstFlags: bv32, ses: seq<Entry>, srcFlags: bv32, delta: nat)
    requires SortedFlag(dstFlags) ==> SortedByTag(es)
    requires SortedFlag(srcFlags) ==> SortedByTag(ses)
    ensures SortedFlag(AppendFlags(dstFlags, |es|, srcFlags, |ses|)) ==> SortedByTag(es + ShiftUpAll(ses, delta))
  {
    var moved := ShiftUpAll(ses, delta);
    if SortedFlag(AppendFlags(dstFlags, |es|, srcFlags, |ses|)) {
      if |es| == 0 {
        SameTagsSorted(ses, moved);
        assert es + moved == moved;
      } else {
        assert es + moved == es;
      }
    }
  }

  /** The bisection of the glibc bsearch the sorted lookup relies on. */
  method Bisect(es: seq<Entry>, tag: nat) returns (found: Option<nat>)
    requires SortedByTag(es)
    ensures found == BinarySearch(es, tag, 0, |es|)
    ensures found.None? <==> forall i :: 0 <= i < |es| ==> es[i].tag != tag
    ensures found.Some? ==> found.value < |es| && es[found.value].tag == tag
  {
    BinarySearchCorrect(es, tag, 0, |es|);
    var lo, hi := 0, |es|;
    while lo < hi
      invariant 0 <= lo <= hi <= |es|
      invariant BinarySearch(es, tag, lo, hi) == BinarySearch(es, tag, 0, |es|)
      decreases hi - lo
    {
      var mid := (lo + hi) / 2;
      if tag < es[mid].tag {
        hi := mid;
      } else if tag > es[mid].tag {
        lo := mid + 1;
      } else {
        return Some(mid);
      }
    }
    return None;
  }

  /** The linear scan of an unsorted block: the first entry with the tag. */
  method Scan(es: seq<Entry>, tag: nat) returns (found: Option<nat>)
    ensures found.None? <==> forall i :: 0 <= i < |es| ==> es[i].tag != tag
    ensures found.Some? ==> found.value < |es| && es[found.value].tag == tag
                            && forall j :: 0 <= j < found.value ==> es[j].tag != tag
  {
    var i := 0;
    while i < |es|
      invariant i <= |es|
      invariant forall j :: 0 <= j < i ==> es[j].tag != tag
    {
      if es[i].tag == tag {
        return Some(i);
      }
      i := i + 1;
    }
    return None;
  }

  /** memmove(a + start, a + start + ds, dataCount - start - ds), copying upwards. */
  method MoveDown(a: array<Byte>, start: nat, ds: nat, dataCount: nat)
    requires start + ds <= dataCount <= a.Length
    modifies a
    ensures MovedDown(old(a[..]), a[..], start, ds, dataCount)
    ensures forall k :: dataCount - ds <= k < a.Length ==> a[k] == old(a[k])
  {
    var k := start;
    while k < dataCount - ds
      invariant start <= k <= dataCount - ds
      invariant forall j :: 0 <= j < start ==> a[j] == old(a[j])
      invariant forall j :: start <= j < k ==> a[j] == old(a[j + ds])
      invariant forall j :: k <= j < a.Length ==> a[j] == old(a[j])
    {
      a[k] := a[k + ds];
      k := k + 1;
    }
  }

  /**
   * The offset fix-up loop of delete and update: every out-of-line entry
   * whose offset lies above start moves down by ds. (The extra test
   * word >= ds always holds in a consistent block; it keeps the subtraction
   * within the naturals.)
   */
  /** The block after an out-of-line entry's bytes were squeezed out: still well formed, still sorted, other values kept. */
  lemma StrippedBlock(tags: TagTable, es: seq<Entry>, area: seq<Byte>, area': seq<Byte>,
                      dataCount: nat, entriesStart: nat, dataStart: nat, index: nat, sorted: bool)
    requires tags.Valid() && BlockOk(tags, es, dataCount, |area|, entriesStart, dataStart)
    requires index < |es| && OutOfLine(es[index]) && |area'| == |area|
    requires MovedDown(area, area', es[index].word, DataSize(es[index]), dataCount)
    requires sorted ==> SortedByTag(es)
    ensures DataSize(es[index]) <= dataCount
    ensures var ss := ShiftAll(es, es[index].word, DataSize(es[index]))[index := Stub(es[index])];
            var dc := dataCount - DataSize(es[index]);
            && BlockOk(tags, ss, dc, |area'|, entriesStart, dataStart)
            && (sorted ==> SortedByTag(ss))
            && forall j :: 0 <= j < |es| && j != index ==> ValuesOf(ss, area', dc)[j] == ValuesOf(es, area, dataCount)[j]
  {
    var d := es[index];
    var rs := ShiftAll(es, d.word, DataSize(d));
    var ss := rs[index := Stub(d)];
    StripOutOfLine(tags, es, area, area', dataCount, |area|, entriesStart, dataStart, index);
    if sorted {
      SameTagsSorted(es, ss);
    }
  }

  method FixOffsets(es: seq<Entry>, start: nat, ds: nat) returns (rs: seq<Entry>)
    ensures rs == ShiftAll(es, start, ds)
  {
    rs := es;
    var i := 0;
    while i < |rs|
      invariant i <= |rs| == |es|
      invariant forall k :: 0 <= k < i ==> rs[k] == Shifted(es[k], start, ds)
      invariant forall k :: i <= k < |rs| ==> rs[k] == es[k]
    {
      var e := rs[i];
      if DataSize(e) > 0 && e.word > start && e.word >= ds {
        rs := rs[i := e.(word := e.word - ds)];
      }
      i := i + 1;
    }
  }

  /** The offset rebasing loop of append: every out-of-line entry moves up by delta. */
  method RebaseOffsets(es: seq<Entry>, delta: nat) returns (rs: seq<Entry>)
    ensures rs == ShiftUpAll(es, delta)
  {
    rs := es;
    var i := 0;
    while i < |rs|
      invariant i <= |rs| == |es|
      invariant forall k :: 0 <= k < i ==> rs[k] == ShiftUp(es[k], delta)
      invariant forall k :: i <= k < |rs| ==> rs[k] == es[k]
    {
      var e := rs[i];
      if DataSize(e) > 0 {
        rs := rs[i := e.(word := e.word + delta)];
      }
      i := i + 1;
    }
  }
}
