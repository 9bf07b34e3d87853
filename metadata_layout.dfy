/**
 * The layout of the packed camera metadata block (icamera_metadata_base.cpp),
 * on plain values: sizes and alignment, the tag table, entries and the data
 * area they point into, the consistency the mutators keep (BlockOk), what
 * each entry reads (ValueOf), and the lemmas the Metadata class uses to show
 * that add, delete, update, sort and append keep that consistency.
 *
 * Entries whose payload fits in four bytes keep it inline in the entry's
 * 4-byte union; larger payloads live in the data area at the offset that the
 * same union holds. The union is modelled as the 32-bit number `word`; its
 * inline bytes are BytesOf(word), least significant first.
 */
module MetadataLayout {
  import opened Common

  type Byte = x: int | 0 <= x < 256

  /** The entry union: four bytes, read as a little-endian offset when out of line. */
  type Word = w: seq<Byte> | |w| == 4 witness [0, 0, 0, 0]

  const META_OK: int := 0
  const META_ERROR: int := 1
  const META_NOT_FOUND: int := -2  // -ENOENT

  const TYPE_BYTE: nat := 0
  const TYPE_INT32: nat := 1
  const TYPE_FLOAT: nat := 2
  const TYPE_INT64: nat := 3
  const TYPE_DOUBLE: nat := 4
  const TYPE_RATIONAL: nat := 5
  const NUM_TYPES: nat := 6

  /** sizeof(icamera_metadata_t): nine 32-bit header fields. */
  const HEADER_SIZE: nat := 36
  /** sizeof(camera_metadata_buffer_entry_t): tag, count, union, type, 3 reserved bytes. */
  const ENTRY_SIZE: nat := 16
  const ENTRY_ALIGNMENT: nat := 4
  const DATA_ALIGNMENT: nat := 8
  const FLAG_SORTED: bv32 := 1
  const CURRENT_METADATA_VERSION: nat := 1
  /** Tags are (section << 16) | index. */
  const SECTION_SPAN: nat := 0x10000
  const WORD_RANGE: nat := 0x1_0000_0000

  function TypeSize(t: nat): (r: nat)
    requires t < NUM_TYPES
    ensures 1 <= r <= 8
  {
    [1, 4, 4, 8, 8, 8][t]
  }

  // ---------------------------------------------------------------------
  // The entry union as four little-endian bytes

  /** The four bytes of the union, least significant first (the inline value). */
  function BytesOf(w: nat): (r: Word)
  {
    [w % 256, w / 256 % 256, w / 65536 % 256, w / 16777216 % 256]
  }

  /** The union read back as a 32-bit number from four inline bytes. */
  function WordFrom(b: Word): (r: nat)
    ensures r < WORD_RANGE
  {
    (b[0] as int) + 256 * (b[1] as int) + 65536 * (b[2] as int) + 16777216 * (b[3] as int)
  }

  function Zeros(n: nat): (r: seq<Byte>)
    ensures |r| == n && forall k :: 0 <= k < n ==> r[k] == 0
  {
    seq(n, _ => 0)
  }

  /** The union after memset(0) and memcpy of an inline payload of at most four bytes. */
  function InlineWord(payload: seq<Byte>): nat
    requires |payload| <= 4
  {
    WordFrom(payload + Zeros(4 - |payload|))
  }

  /** The inline payload reads back from its union; an empty one leaves the union zero. */
  lemma InlineWordReads(payload: seq<Byte>)
    requires |payload| <= 4
    ensures BytesOf(InlineWord(payload))[..|payload|] == payload
    ensures payload == [] ==> InlineWord(payload) == 0
  {
    BytesRoundTrip(payload + Zeros(4 - |payload|));
  }

  lemma BytesRoundTrip(b: Word)
    ensures BytesOf(WordFrom(b)) == b
  {
    var w := WordFrom(b);
    var b0, b1, b2, b3 := b[0] as int, b[1] as int, b[2] as int, b[3] as int;
    var q1 := b2 + 256 * b3;
    var q0 := b1 + 256 * q1;
    assert w == b0 + 256 * q0;
    SplitAt256(b0, q0);
    SplitAt256(b1, q1);
    SplitAt256(b2, b3);
    SplitAt256(b3, 0);
    assert w == (b0 + 256 * b1) + 65536 * q1;
    SplitAt65536(b0 + 256 * b1, q1);
    assert w == (b0 + 256 * b1 + 65536 * b2) + 16777216 * b3;
    SplitAt16777216(b0 + 256 * b1 + 65536 * b2, b3);
  }

  lemma SplitAt256(lo: nat, hi: nat)
    requires lo < 256
    ensures (lo + 256 * hi) / 256 == hi && (lo + 256 * hi) % 256 == lo
  {
  }

  lemma SplitAt65536(lo: nat, hi: nat)
    requires lo < 65536
    ensures (lo + 65536 * hi) / 65536 == hi
  {
  }

  lemma SplitAt16777216(lo: nat, hi: nat)
    requires lo < 16777216
    ensures (lo + 16777216 * hi) / 16777216 == hi
  {
  }

  // ---------------------------------------------------------------------
  // Sizes

  /** calculate_icamera_metadata_size: header, entry array aligned to 4, data area aligned to 8. */
  function CalculateSize(entryCount: nat, dataCount: nat): (r: nat)
    ensures (r - dataCount) % DATA_ALIGNMENT == 0
    ensures HEADER_SIZE + ENTRY_SIZE * entryCount + dataCount <= r
    ensures r < HEADER_SIZE + ENTRY_SIZE * entryCount + dataCount + DATA_ALIGNMENT
  {
    Align(Align(HEADER_SIZE, ENTRY_ALIGNMENT) + ENTRY_SIZE * entryCount, DATA_ALIGNMENT) + dataCount
  }

  lemma CalculateSizeMonotone(e1: nat, d1: nat, e2: nat, d2: nat)
    requires e1 <= e2 && d1 <= d2
    ensures CalculateSize(e1, d1) <= CalculateSize(e2, d2)
  {
    var a1 := Align(HEADER_SIZE, ENTRY_ALIGNMENT) + ENTRY_SIZE * e1;
    var a2 := Align(HEADER_SIZE, ENTRY_ALIGNMENT) + ENTRY_SIZE * e2;
    AlignMonotone(a1, a2, DATA_ALIGNMENT);
  }

  /** calculate_icamera_metadata_entry_data_size: bytes an entry takes in the data area. */
  function EntryDataSize(t: nat, count: nat): (r: nat)
    ensures t >= NUM_TYPES ==> r == 0
    ensures t < NUM_TYPES && count * TypeSize(t) <= 4 ==> r == 0
    ensures t < NUM_TYPES && count * TypeSize(t) > 4 ==>
              r % DATA_ALIGNMENT == 0 && count * TypeSize(t) <= r < count * TypeSize(t) + DATA_ALIGNMENT
  {
    if t >= NUM_TYPES then 0
    else
      var bytes := count * TypeSize(t);
      if bytes <= 4 then 0 else Align(bytes, DATA_ALIGNMENT)
  }

  // ---------------------------------------------------------------------
  // Tag table (the generated icamera_metadata_tag_info tables)

  datatype Section = Section(name: string, end: nat, tagNames: seq<string>, tagTypes: seq<nat>)

  datatype TagTable = TagTable(sections: seq<Section>) {
    ghost predicate Valid() {
      forall s :: 0 <= s < |sections| ==>
        && sections[s].end <= s * SECTION_SPAN + |sections[s].tagTypes|
        && |sections[s].tagNames| == |sections[s].tagTypes|
        && (forall k :: 0 <= k < |sections[s].tagTypes| ==> sections[s].tagTypes[k] < NUM_TYPES)
    }

    predicate Known(tag: nat) {
      tag / SECTION_SPAN < |sections| && tag < sections[tag / SECTION_SPAN].end
    }
  }

  /** get_icamera_metadata_tag_type: -1 for a tag outside every section's bounds. */
  function TagType(tags: TagTable, tag: nat): (r: int)
    requires tags.Valid()
    ensures r == -1 <==> !tags.Known(tag)
    ensures r != -1 ==> 0 <= r < NUM_TYPES
  {
    var s := tag / SECTION_SPAN;
    if s >= |tags.sections| || tag >= tags.sections[s].end then -1
    else tags.sections[s].tagTypes[tag % SECTION_SPAN]
  }

  /** get_icamera_metadata_tag_name: None stands for the null pointer. */
  function TagName(tags: TagTable, tag: nat): (r: Option<string>)
    requires tags.Valid()
    ensures r.None? <==> !tags.Known(tag)
    ensures r.Some? ==> r.value == tags.sections[tag / SECTION_SPAN].tagNames[tag - tag / SECTION_SPAN * SECTION_SPAN]
  {
    var s := tag / SECTION_SPAN;
    if s >= |tags.sections| || tag >= tags.sections[s].end then None
    else Some(tags.sections[s].tagNames[tag % SECTION_SPAN])
  }

  /** get_icamera_metadata_section_name. */
  function SectionName(tags: TagTable, tag: nat): (r: Option<string>)
    ensures r.None? <==> tag / SECTION_SPAN >= |tags.sections|
    ensures r.Some? ==> r.value == tags.sections[tag / SECTION_SPAN].name
  {
    var s := tag / SECTION_SPAN;
    if s >= |tags.sections| then None else Some(tags.sections[s].name)
  }

  // ---------------------------------------------------------------------
  // Entries and their values

  datatype Entry = Entry(tag: nat, count: nat, word: nat, typ: nat)

  /** The abstract content of one entry: what find/get hand back to a caller. */
  datatype EntryValue = EntryValue(tag: nat, typ: nat, count: nat, bytes: seq<Byte>)

  function DataSize(e: Entry): nat { EntryDataSize(e.typ, e.count) }

  predicate OutOfLine(e: Entry) { DataSize(e) > 0 }

  function PayloadSize(e: Entry): nat
    requires e.typ < NUM_TYPES
  {
    e.count * TypeSize(e.typ)
  }

  /** The region [Offset, Offset + DataSize) of an out-of-line entry lies below dataCount. */
  ghost predicate Contained(e: Entry, dataCount: nat)
  {
    OutOfLine(e) ==> e.word + DataSize(e) <= dataCount
  }

  ghost predicate Apart(e: Entry, f: Entry)
  {
    OutOfLine(e) && OutOfLine(f) ==>
      e.word + DataSize(e) <= f.word || f.word + DataSize(f) <= e.word
  }

  /** Every entry has a valid type and its out-of-line region lies below dataCount. */
  ghost predicate Readable(es: seq<Entry>, dataCount: nat)
  {
    forall i :: 0 <= i < |es| ==> es[i].typ < NUM_TYPES && Contained(es[i], dataCount)
  }

  /**
   * The layout every mutator keeps (stronger than the validator): entry types
   * are valid, out-of-line regions are 8-aligned, lie within dataCount and do
   * not overlap.
   */
  ghost predicate Layout(es: seq<Entry>, dataCount: nat)
  {
    && Readable(es, dataCount)
    && (forall i :: 0 <= i < |es| && OutOfLine(es[i]) ==> es[i].word % DATA_ALIGNMENT == 0)
    && (forall i, j :: 0 <= i < |es| && 0 <= j < |es| && i != j ==> Apart(es[i], es[j]))
  }

  function ValueOf(e: Entry, area: seq<Byte>): EntryValue
    requires e.typ < NUM_TYPES
    requires OutOfLine(e) ==> e.word + DataSize(e) <= |area|
  {
    var p := PayloadSize(e);
    EntryValue(e.tag, e.typ, e.count,
               if OutOfLine(e) then area[e.word..e.word + p] else BytesOf(e.word)[..p])
  }

  ghost function ValuesOf(es: seq<Entry>, area: seq<Byte>, dataCount: nat): (vs: seq<EntryValue>)
    requires Readable(es, dataCount) && dataCount <= |area|
    ensures |vs| == |es|
  {
    seq(|es|, i requires 0 <= i < |es| => ValueOf(es[i], area))
  }

  predicate SortedByTag(es: seq<Entry>)
  {
    forall i, j :: 0 <= i < j < |es| ==> es[i].tag <= es[j].tag
  }

  /** The per-entry checks of validate_icamera_metadata_structure. */
  predicate EntryOk(tags: TagTable, e: Entry, i: nat, entriesStart: nat, dataStart: nat, dataCapacity: nat)
    requires tags.Valid()
  {
    && (entriesStart + ENTRY_SIZE * i) % ENTRY_ALIGNMENT == 0
    && e.typ < NUM_TYPES
    && TagType(tags, e.tag) == e.typ as int
    && (var ds := EntryDataSize(e.typ, e.count);
        if ds != 0 then
          (dataStart + e.word) % DATA_ALIGNMENT == 0 && e.word + ds <= dataCapacity
        else
          e.count == 0 ==> e.word == 0)
  }

  /** The header checks of validate_icamera_metadata_structure, as coded (capacity counted in entries). */
  predicate HeaderOk(size: nat, entryCount: nat, entryCapacity: nat, entriesStart: nat,
                     dataCapacity: nat, dataStart: nat, expectedSize: Option<nat>)
  {
    && (expectedSize.Some? ==> size <= expectedSize.value)
    && entryCount <= entryCapacity
    && entriesStart + entryCapacity <= dataStart
    && dataStart + dataCapacity <= size
  }

  // ---------------------------------------------------------------------
  // Sorting by tag (the qsort in sort_icamera_metadata)

  function InsertByTag(e: Entry, es: seq<Entry>): (r: seq<Entry>)
  {
    if es == [] || e.tag <= es[0].tag then [e] + es else [es[0]] + InsertByTag(e, es[1..])
  }

  function SortByTag(es: seq<Entry>): (r: seq<Entry>)
  {
    if es == [] then [] else InsertByTag(es[0], SortByTag(es[1..]))
  }

  lemma {:induction false} InsertLowerBound(e: Entry, es: seq<Entry>, b: nat)
    requires e.tag >= b && forall k :: 0 <= k < |es| ==> es[k].tag >= b
    ensures |InsertByTag(e, es)| == |es| + 1
    ensures forall k :: 0 <= k < |InsertByTag(e, es)| ==> InsertByTag(e, es)[k].tag >= b
  {
    if es != [] && e.tag > es[0].tag {
      InsertLowerBound(e, es[1..], b);
    }
  }

  lemma {:induction false} InsertByTagCorrect(e: Entry, es: seq<Entry>)
    requires SortedByTag(es)
    ensures SortedByTag(InsertByTag(e, es))
    ensures multiset(InsertByTag(e, es)) == multiset{e} + multiset(es)
    ensures |InsertByTag(e, es)| == |es| + 1
  {
    InsertByTagSorted(e, es);
    InsertByTagPermutes(e, es);
    InsertLowerBound(e, es, 0);
  }

  lemma {:induction false} InsertByTagSorted(e: Entry, es: seq<Entry>)
    requires SortedByTag(es)
    ensures SortedByTag(InsertByTag(e, es))
  {
    if es != [] && e.tag > es[0].tag {
      var tail := es[1..];
      assert SortedByTag(tail);
      InsertByTagSorted(e, tail);
      InsertLowerBound(e, tail, es[0].tag);
      var rest := InsertByTag(e, tail);
      var r := [es[0]] + rest;
      assert InsertByTag(e, es) == r;
      forall i, j | 0 <= i < j < |r| ensures r[i].tag <= r[j].tag {
        assert r[j] == rest[j - 1];
        if i > 0 {
          assert r[i] == rest[i - 1];
        }
      }
    }
  }

  lemma {:induction false} InsertByTagPermutes(e: Entry, es: seq<Entry>)
    ensures multiset(InsertByTag(e, es)) == multiset{e} + multiset(es)
  {
    if es != [] && e.tag > es[0].tag {
      InsertByTagPermutes(e, es[1..]);
      assert es == [es[0]] + es[1..];
    }
  }

  /** qsort by tag yields a permutation ordered by tag. */
  lemma {:induction false} SortByTagCorrect(es: seq<Entry>)
    ensures SortedByTag(SortByTag(es))
    ensures multiset(SortByTag(es)) == multiset(es)
    ensures |SortByTag(es)| == |es|
  {
    if es != [] {
      SortByTagCorrect(es[1..]);
      InsertByTagCorrect(es[0], SortByTag(es[1..]));
      assert es == [es[0]] + es[1..];
    }
  }

  lemma SortedKeepsSorted(es: seq<Entry>, i: nat)
    requires SortedByTag(es) && i < |es|
    ensures SortedByTag(es[..i] + es[i + 1..])
  {
    var r := es[..i] + es[i + 1..];
    forall a, b | 0 <= a < b < |r| ensures r[a].tag <= r[b].tag {
      var a' := if a < i then a else a + 1;
      var b' := if b < i then b else b + 1;
      assert r[a] == es[a'] && r[b] == es[b'];
    }
  }

  /** Rewriting entries without touching their tags keeps them in tag order. */
  lemma SameTagsSorted(es: seq<Entry>, fs: seq<Entry>)
    requires SortedByTag(es) && |fs| == |es|
    requires forall i :: 0 <= i < |es| ==> fs[i].tag == es[i].tag
    ensures SortedByTag(fs)
  {
  }

  // ---------------------------------------------------------------------
  // The block invariant on plain values

  ghost predicate TagsMatch(tags: TagTable, es: seq<Entry>)
    requires tags.Valid()
  {
    forall i :: 0 <= i < |es| ==> TagType(tags, es[i].tag) == es[i].typ as int
  }

  /** An entry with no items keeps a zero union (what add's memset establishes). */
  ghost predicate EmptyCleared(es: seq<Entry>)
  {
    forall i :: 0 <= i < |es| && !OutOfLine(es[i]) && es[i].count == 0 ==> es[i].word == 0
  }

  ghost predicate EntriesOk(tags: TagTable, es: seq<Entry>, entriesStart: nat, dataStart: nat, dataCapacity: nat)
    requires tags.Valid()
  {
    forall i :: 0 <= i < |es| ==> EntryOk(tags, es[i], i, entriesStart, dataStart, dataCapacity)
  }

  ghost predicate BlockOk(tags: TagTable, es: seq<Entry>, dataCount: nat, dataCapacity: nat,
                          entriesStart: nat, dataStart: nat)
    requires tags.Valid()
  {
    && Layout(es, dataCount)
    && TagsMatch(tags, es)
    && EmptyCleared(es)
    && dataCount <= dataCapacity < WORD_RANGE
    && dataCount % DATA_ALIGNMENT == 0
    && dataStart % DATA_ALIGNMENT == 0
    && entriesStart % ENTRY_ALIGNMENT == 0
  }

  lemma EntryPosAligned(s: nat, i: nat)
    requires s % ENTRY_ALIGNMENT == 0
    ensures (s + ENTRY_SIZE * i) % ENTRY_ALIGNMENT == 0
  {
    var a := s / 4;
    assert s == 4 * a;
    assert s + ENTRY_SIZE * i == (a + 4 * i) * 4;
    MulMod(a + 4 * i, 4);
  }

  /** The invariant the mutators keep implies the validator's per-entry checks. */
  lemma BlockEntriesOk(tags: TagTable, es: seq<Entry>, dataCount: nat, dataCapacity: nat,
                       entriesStart: nat, dataStart: nat)
    requires tags.Valid() && BlockOk(tags, es, dataCount, dataCapacity, entriesStart, dataStart)
    ensures EntriesOk(tags, es, entriesStart, dataStart, dataCapacity)
  {
    forall i | 0 <= i < |es| ensures EntryOk(tags, es[i], i, entriesStart, dataStart, dataCapacity) {
      var e := es[i];
      assert e.typ < NUM_TYPES && Contained(e, dataCount) && TagType(tags, e.tag) == e.typ as int;
      assert OutOfLine(e) ==> e.word % DATA_ALIGNMENT == 0;
      assert !OutOfLine(e) && e.count == 0 ==> e.word == 0;
      EntryOkOf(tags, e, i, dataCount, dataCapacity, entriesStart, dataStart);
    }
  }

  /** One entry of a block that keeps the invariant passes the validator's per-entry checks. */
  lemma EntryOkOf(tags: TagTable, e: Entry, i: nat, dataCount: nat, dataCapacity: nat,
                  entriesStart: nat, dataStart: nat)
    requires tags.Valid() && e.typ < NUM_TYPES && TagType(tags, e.tag) == e.typ as int
    requires Contained(e, dataCount) && dataCount <= dataCapacity
    requires OutOfLine(e) ==> e.word % DATA_ALIGNMENT == 0
    requires !OutOfLine(e) && e.count == 0 ==> e.word == 0
    requires dataStart % DATA_ALIGNMENT == 0 && entriesStart % ENTRY_ALIGNMENT == 0
    ensures EntryOk(tags, e, i, entriesStart, dataStart, dataCapacity)
  {
    EntryPosAligned(entriesStart, i);
    if OutOfLine(e) { Aligned(dataStart, e.word); }
  }

  lemma ValueFrame(e: Entry, area: seq<Byte>, area': seq<Byte>, dataCount: nat)
    requires e.typ < NUM_TYPES && Contained(e, dataCount)
    requires dataCount <= |area| && dataCount <= |area'|
    requires area[..dataCount] == area'[..dataCount]
    ensures ValueOf(e, area) == ValueOf(e, area')
  {
    if OutOfLine(e) {
      var o := e.word;
      var p := PayloadSize(e);
      assert o + p <= dataCount;
      assert area[o..o + p] == area[..dataCount][o..o + p];
      assert area'[o..o + p] == area'[..dataCount][o..o + p];
    }
  }

  /** Values read from an area depend only on its first dataCount bytes. */
  lemma ValuesFrame(es: seq<Entry>, area: seq<Byte>, area': seq<Byte>, dataCount: nat)
    requires Readable(es, dataCount) && dataCount <= |area| && dataCount <= |area'|
    requires area[..dataCount] == area'[..dataCount]
    ensures ValuesOf(es, area, dataCount) == ValuesOf(es, area', dataCount)
  {
    forall i | 0 <= i < |es| ensures ValueOf(es[i], area) == ValueOf(es[i], area') {
      ValueFrame(es[i], area, area', dataCount);
    }
  }

  /** The values of a concatenation of entry lists are the concatenated values. */
  lemma ValuesConcat(es: seq<Entry>, fs: seq<Entry>, area: seq<Byte>, dc1: nat, dc2: nat, dc: nat)
    requires Readable(es, dc1) && Readable(fs, dc2) && Readable(es + fs, dc)
    requires dc1 <= |area| && dc2 <= |area| && dc <= |area|
    ensures ValuesOf(es + fs, area, dc) == ValuesOf(es, area, dc1) + ValuesOf(fs, area, dc2)
  {
    var l := ValuesOf(es + fs, area, dc);
    var r := ValuesOf(es, area, dc1) + ValuesOf(fs, area, dc2);
    forall i | 0 <= i < |l| ensures l[i] == r[i] {
      if i < |es| { assert (es + fs)[i] == es[i]; } else { assert (es + fs)[i] == fs[i - |es|]; }
    }
  }

  // ---------------------------------------------------------------------
  // Appending one entry (add)

  /** Appending an entry whose region starts at dataCount keeps the layout. */
  lemma AddEntryLayout(es: seq<Entry>, dataCount: nat, e: Entry)
    requires Layout(es, dataCount)
    requires e.typ < NUM_TYPES
    requires OutOfLine(e) ==> e.word == dataCount && e.word % DATA_ALIGNMENT == 0
    ensures Layout(es + [e], dataCount + DataSize(e))
  {
    var es' := es + [e];
    var dc' := dataCount + DataSize(e);
    forall i | 0 <= i < |es'| ensures Contained(es'[i], dc') {
      if i < |es| { assert es'[i] == es[i] && Contained(es[i], dataCount); }
    }
    forall i, j | 0 <= i < |es'| && 0 <= j < |es'| && i != j ensures Apart(es'[i], es'[j]) {
      if i < |es| && j < |es| {
        assert es'[i] == es[i] && es'[j] == es[j] && Apart(es[i], es[j]);
      } else if i < |es| {
        assert es'[i] == es[i] && Contained(es[i], dataCount);
      } else {
        assert es'[j] == es[j] && Contained(es[j], dataCount);
      }
    }
    forall i | 0 <= i < |es'| && OutOfLine(es'[i]) ensures es'[i].word % DATA_ALIGNMENT == 0 {
      if i < |es| { assert es'[i] == es[i]; }
    }
  }

  lemma AddEntryKeeps(tags: TagTable, es: seq<Entry>, area: seq<Byte>, area': seq<Byte>,
                      dataCount: nat, dataCapacity: nat, entriesStart: nat, dataStart: nat, e: Entry)
    requires tags.Valid() && BlockOk(tags, es, dataCount, dataCapacity, entriesStart, dataStart)
    requires |area| == |area'| == dataCapacity
    requires area[..dataCount] == area'[..dataCount]
    requires e.typ < NUM_TYPES && TagType(tags, e.tag) == e.typ as int
    requires OutOfLine(e) ==> e.word == dataCount && dataCount + DataSize(e) <= dataCapacity
    requires !OutOfLine(e) && e.count == 0 ==> e.word == 0
    ensures BlockOk(tags, es + [e], dataCount + DataSize(e), dataCapacity, entriesStart, dataStart)
    ensures ValuesOf(es + [e], area', dataCount + DataSize(e)) == ValuesOf(es, area, dataCount) + [ValueOf(e, area')]
  {
    AddEntryBlockOk(tags, es, dataCount, dataCapacity, entriesStart, dataStart, e);
    AddEntryValues(es, area, area', dataCount, e);
  }

  /** The block stays consistent when an entry is added at the end, its payload at the old data end. */
  lemma AddEntryBlockOk(tags: TagTable, es: seq<Entry>, dataCount: nat, dataCapacity: nat,
                        entriesStart: nat, dataStart: nat, e: Entry)
    requires tags.Valid() && BlockOk(tags, es, dataCount, dataCapacity, entriesStart, dataStart)
    requires e.typ < NUM_TYPES && TagType(tags, e.tag) == e.typ as int
    requires OutOfLine(e) ==> e.word == dataCount && dataCount + DataSize(e) <= dataCapacity
    requires !OutOfLine(e) && e.count == 0 ==> e.word == 0
    ensures BlockOk(tags, es + [e], dataCount + DataSize(e), dataCapacity, entriesStart, dataStart)
  {
    var es' := es + [e];
    if OutOfLine(e) { PayloadFits(e); }
    AddEntryLayout(es, dataCount, e);
    assert TagsMatch(tags, es') by {
      forall i | 0 <= i < |es'| ensures TagType(tags, es'[i].tag) == es'[i].typ as int {
        if i < |es| { assert es'[i] == es[i]; }
      }
    }
    assert EmptyCleared(es') by {
      forall i | 0 <= i < |es'| && !OutOfLine(es'[i]) && es'[i].count == 0 ensures es'[i].word == 0 {
        if i < |es| { assert es'[i] == es[i]; }
      }
    }
    if OutOfLine(e) { Aligned(dataCount, DataSize(e)); }
  }

  /** The values of the entries with one added: the old values, then the new entry's. */
  lemma AddEntryValues(es: seq<Entry>, area: seq<Byte>, area': seq<Byte>, dataCount: nat, e: Entry)
    requires Layout(es, dataCount) && dataCount % DATA_ALIGNMENT == 0 && dataCount <= |area| == |area'|
    requires area[..dataCount] == area'[..dataCount]
    requires e.typ < NUM_TYPES
    requires OutOfLine(e) ==> e.word == dataCount && dataCount + DataSize(e) <= |area'|
    ensures ValuesOf(es + [e], area', dataCount + DataSize(e)) == ValuesOf(es, area, dataCount) + [ValueOf(e, area')]
  {
    var es' := es + [e];
    var dc' := dataCount + DataSize(e);
    AddEntryLayout(es, dataCount, e);
    ValuesFrame(es, area, area', dataCount);
    assert Layout([e], dc') by { assert Contained(es'[|es|], dc'); }
    ValuesConcat(es, [e], area', dataCount, dc', dc');
    assert ValuesOf([e], area', dc') == [ValueOf(e, area')];
  }

  // ---------------------------------------------------------------------
  // Removing one entry's data (delete, update): memmove and offset fix-up

  /** The data area after memmove(start, start + ds, dataCount - start - ds). */
  ghost predicate MovedDown(area: seq<Byte>, area': seq<Byte>, start: nat, ds: nat, dataCount: nat)
  {
    && |area'| == |area|
    && start + ds <= dataCount <= |area|
    && (forall k :: 0 <= k < start ==> area'[k] == area[k])
    && (forall k :: start <= k < dataCount - ds ==> area'[k] == area[k + ds])
  }

  /** The offset fix-up applied to every entry: regions above start move down by ds. */
  function Shifted(f: Entry, start: nat, ds: nat): Entry
  {
    if OutOfLine(f) && f.word > start && f.word >= ds
    then f.(word := f.word - ds)
    else f
  }

  function ShiftAll(es: seq<Entry>, start: nat, ds: nat): (r: seq<Entry>)
    ensures |r| == |es|
    ensures forall k :: 0 <= k < |es| ==> r[k] == Shifted(es[k], start, ds)
  {
    seq(|es|, k requires 0 <= k < |es| => Shifted(es[k], start, ds))
  }

  /** Differences and sums of multiples of the data alignment stay aligned. */
  lemma Aligned(a: nat, b: nat)
    requires a % DATA_ALIGNMENT == 0 && b % DATA_ALIGNMENT == 0
    ensures b <= a ==> (a - b) % DATA_ALIGNMENT == 0
    ensures (a + b) % DATA_ALIGNMENT == 0
  {
    var q, r := a / DATA_ALIGNMENT, b / DATA_ALIGNMENT;
    assert a == DATA_ALIGNMENT * q && b == DATA_ALIGNMENT * r;
    assert a + b == DATA_ALIGNMENT * (q + r);
    if b <= a { assert a - b == DATA_ALIGNMENT * (q - r); }
  }

  /** An out-of-line entry's payload fits in its 8-aligned data size. */
  lemma PayloadFits(e: Entry)
    requires e.typ < NUM_TYPES && OutOfLine(e)
    ensures PayloadSize(e) <= DataSize(e) && DataSize(e) % DATA_ALIGNMENT == 0
  {
  }

  lemma ValueOfOutOfLine(e: Entry, area: seq<Byte>)
    requires e.typ < NUM_TYPES && OutOfLine(e) && e.word + DataSize(e) <= |area|
    ensures PayloadSize(e) <= DataSize(e)
    ensures ValueOf(e, area) == EntryValue(e.tag, e.typ, e.count, area[e.word..e.word + PayloadSize(e)])
  {
  }

  /** The bytes of a region above the removed one are found ds lower after the memmove. */
  lemma MovedSlice(area: seq<Byte>, area': seq<Byte>, start: nat, ds: nat, dataCount: nat, o: nat, p: nat)
    requires MovedDown(area, area', start, ds, dataCount)
    requires start + ds <= o && o + p <= dataCount
    ensures area'[o - ds..o - ds + p] == area[o..o + p]
  {
    forall k | o - ds <= k < o - ds + p ensures area'[k] == area[k + ds] {
      assert start <= k < dataCount - ds;
    }
  }

  /** An out-of-line entry above the removed region `d` moves down by its size and reads the same. */
  lemma ShiftedAbove(f: Entry, d: Entry, area: seq<Byte>, area': seq<Byte>, dataCount: nat)
    requires f.typ < NUM_TYPES && d.typ < NUM_TYPES && OutOfLine(d) && OutOfLine(f) && f.word > d.word
    requires Contained(f, dataCount) && Apart(f, d)
    requires MovedDown(area, area', d.word, DataSize(d), dataCount)
    ensures Shifted(f, d.word, DataSize(d)) == f.(word := f.word - DataSize(d))
    ensures f.word - DataSize(d) >= d.word
    ensures ValueOf(f.(word := f.word - DataSize(d)), area') == ValueOf(f, area)
  {
    var ds := DataSize(d);
    assert d.word + ds <= f.word;
    var g := Entry(f.tag, f.count, f.word - ds, f.typ);
    assert DataSize(g) == DataSize(f) && PayloadSize(g) == PayloadSize(f);
    PayloadFits(f);
    MovedSlice(area, area', d.word, ds, dataCount, f.word, PayloadSize(f));
    ValueOfOutOfLine(f, area);
    ValueOfOutOfLine(g, area');
  }

  /** An out-of-line entry below the removed region `d` keeps its offset and reads the same. */
  lemma ShiftedBelow(f: Entry, d: Entry, area: seq<Byte>, area': seq<Byte>, dataCount: nat)
    requires f.typ < NUM_TYPES && d.typ < NUM_TYPES && OutOfLine(d) && OutOfLine(f) && f.word <= d.word
    requires Contained(f, dataCount) && Apart(f, d)
    requires MovedDown(area, area', d.word, DataSize(d), dataCount)
    ensures Shifted(f, d.word, DataSize(d)) == f
    ensures f.word + DataSize(f) <= d.word
    ensures ValueOf(f, area') == ValueOf(f, area)
  {
    var o, p := f.word, PayloadSize(f);
    PayloadFits(f);
    assert area'[o..o + p] == area[o..o + p];
  }

  /** One entry other than the removed one `d`, before and after the fix-up. */
  lemma ShiftedKeeps(f: Entry, d: Entry, area: seq<Byte>, area': seq<Byte>, dataCount: nat)
    requires f.typ < NUM_TYPES && d.typ < NUM_TYPES && OutOfLine(d)
    requires Contained(f, dataCount) && Contained(d, dataCount) && Apart(f, d)
    requires OutOfLine(f) ==> f.word % DATA_ALIGNMENT == 0
    requires MovedDown(area, area', d.word, DataSize(d), dataCount)
    ensures var f' := Shifted(f, d.word, DataSize(d));
            && f'.tag == f.tag && f'.typ == f.typ && f'.count == f.count
            && Contained(f', dataCount - DataSize(d))
            && (OutOfLine(f') ==> f'.word % DATA_ALIGNMENT == 0)
            && (!OutOfLine(f) ==> f' == f)
            && (OutOfLine(f) && f.word > d.word ==>
                  f'.word == f.word - DataSize(d) >= d.word)
            && (OutOfLine(f) && f.word <= d.word ==>
                  f' == f && f.word + DataSize(f) <= d.word)
            && ValueOf(f', area') == ValueOf(f, area)
  {
    if OutOfLine(f) {
      PayloadFits(d);
      if f.word > d.word {
        ShiftedAbove(f, d, area, area', dataCount);
        Aligned(f.word, DataSize(d));
      } else {
        ShiftedBelow(f, d, area, area', dataCount);
      }
    }
  }

  /**
   * After the data of entry `index` is squeezed out of the area, every other
   * entry, with its offset fixed up, still reads the same value and the other
   * regions still lie within the shrunk data count without overlapping.
   */
  lemma RemoveRegion(tags: TagTable, es: seq<Entry>, area: seq<Byte>, area': seq<Byte>,
                     dataCount: nat, dataCapacity: nat, entriesStart: nat, dataStart: nat, index: nat)
    requires tags.Valid() && BlockOk(tags, es, dataCount, dataCapacity, entriesStart, dataStart)
    requires index < |es| && OutOfLine(es[index])
    requires MovedDown(area, area', es[index].word, DataSize(es[index]), dataCount)
    ensures var es' := ShiftAll(es, es[index].word, DataSize(es[index]));
            && es'[index] == es[index]
            && (forall j :: 0 <= j < |es| ==> es'[j].tag == es[j].tag && es'[j].typ == es[j].typ && es'[j].count == es[j].count)
            && (forall j :: 0 <= j < |es| && j != index ==>
                  && Contained(es'[j], dataCount - DataSize(es[index]))
                  && (OutOfLine(es'[j]) ==> es'[j].word % DATA_ALIGNMENT == 0)
                  && (!OutOfLine(es'[j]) && es'[j].count == 0 ==> es'[j].word == 0)
                  && ValueOf(es'[j], area') == ValueOf(es[j], area))
            && (forall i, j :: 0 <= i < |es| && 0 <= j < |es| && i != j && i != index && j != index ==>
                  Apart(es'[i], es'[j]))
  {
    var d := es[index];
    var start := d.word;
    var ds := DataSize(d);
    var es' := ShiftAll(es, start, ds);
    assert Contained(d, dataCount);
    forall j | 0 <= j < |es| && j != index
      ensures Contained(es'[j], dataCount - ds)
      ensures OutOfLine(es'[j]) ==> es'[j].word % DATA_ALIGNMENT == 0
      ensures !OutOfLine(es'[j]) && es'[j].count == 0 ==> es'[j].word == 0
      ensures ValueOf(es'[j], area') == ValueOf(es[j], area)
    {
      assert Apart(es[j], d) && Contained(es[j], dataCount);
      ShiftedKeeps(es[j], d, area, area', dataCount);
    }
    forall i, j | 0 <= i < |es| && 0 <= j < |es| && i != j && i != index && j != index
      ensures Apart(es'[i], es'[j])
    {
      assert Apart(es[i], es[j]) && Apart(es[i], d) && Apart(es[j], d);
      assert Contained(es[i], dataCount) && Contained(es[j], dataCount);
      ShiftedKeeps(es[i], d, area, area', dataCount);
      ShiftedKeeps(es[j], d, area, area', dataCount);
    }
  }

  // ---------------------------------------------------------------------
  // Appending a whole block (append)

  function ShiftUp(f: Entry, delta: nat): Entry
  {
    if OutOfLine(f) then f.(word := f.word + delta) else f
  }

  function ShiftUpAll(es: seq<Entry>, delta: nat): (r: seq<Entry>)
    ensures |r| == |es|
    ensures forall k :: 0 <= k < |es| ==> r[k] == ShiftUp(es[k], delta)
  {
    seq(|es|, k requires 0 <= k < |es| => ShiftUp(es[k], delta))
  }

  lemma ShiftUpKeeps(f: Entry, sarea: seq<Byte>, sdataCount: nat, area': seq<Byte>, dataCount: nat)
    requires f.typ < NUM_TYPES && Contained(f, sdataCount) && sdataCount <= |sarea|
    requires dataCount + sdataCount < WORD_RANGE && dataCount + sdataCount <= |area'|
    requires area'[dataCount..dataCount + sdataCount] == sarea[..sdataCount]
    ensures var g := ShiftUp(f, dataCount);
            && g.tag == f.tag && g.typ == f.typ && g.count == f.count
            && OutOfLine(g) == OutOfLine(f)
            && (OutOfLine(f) ==> g.word == f.word + dataCount)
            && (!OutOfLine(f) ==> g == f)
            && ValueOf(g, area') == ValueOf(f, sarea)
  {
    if OutOfLine(f) {
      var g := ShiftUp(f, dataCount);
      var p := PayloadSize(f);
      assert g.word == f.word + dataCount && PayloadSize(g) == p;
      SliceMoved(sarea, sdataCount, area', dataCount, f.word, p);
      assert area'[g.word..g.word + p] == sarea[f.word..f.word + p];
    }
  }

  /** A slice of a block copied to offset d reads the same at its new place. */
  lemma SliceMoved(src: seq<Byte>, n: nat, dst: seq<Byte>, d: nat, o: nat, p: nat)
    requires n <= |src| && d + n <= |dst| && o + p <= n
    requires dst[d..d + n] == src[..n]
    ensures dst[o + d..o + d + p] == src[o..o + p]
  {
    forall k | o + d <= k < o + d + p ensures dst[k] == src[k - d] {
      assert dst[d..d + n][k - d] == src[..n][k - d];
    }
  }

  /** Source entries moved up by dataCount lie in [dataCount, dataCount + sdataCount), apart and aligned. */
  lemma ShiftUpLayout(ses: seq<Entry>, sdataCount: nat, dataCount: nat)
    requires Layout(ses, sdataCount) && dataCount % DATA_ALIGNMENT == 0
    ensures var moved := ShiftUpAll(ses, dataCount);
            && Layout(moved, dataCount + sdataCount)
            && forall k :: 0 <= k < |moved| && OutOfLine(moved[k]) ==> moved[k].word >= dataCount
  {
    var moved := ShiftUpAll(ses, dataCount);
    forall k | 0 <= k < |moved|
      ensures moved[k].typ == ses[k].typ && moved[k].count == ses[k].count
      ensures OutOfLine(moved[k]) == OutOfLine(ses[k])
      ensures OutOfLine(ses[k]) ==> moved[k].word == ses[k].word + dataCount
    {
      assert moved[k] == ShiftUp(ses[k], dataCount);
    }
    forall k | 0 <= k < |moved| ensures Contained(moved[k], dataCount + sdataCount) {
      assert Contained(ses[k], sdataCount);
    }
    forall i, j | 0 <= i < |moved| && 0 <= j < |moved| && i != j ensures Apart(moved[i], moved[j]) {
      assert Apart(ses[i], ses[j]);
    }
    forall k | 0 <= k < |moved| && OutOfLine(moved[k]) ensures moved[k].word % DATA_ALIGNMENT == 0 {
      Aligned(ses[k].word, dataCount);
    }
  }

  /** Two layouts over disjoint ranges [0, dataCount) and [dataCount, dc') combine. */
  lemma JoinLayout(es: seq<Entry>, dataCount: nat, moved: seq<Entry>, dc': nat)
    requires Layout(es, dataCount) && Layout(moved, dc') && dataCount <= dc'
    requires forall k :: 0 <= k < |moved| && OutOfLine(moved[k]) ==> moved[k].word >= dataCount
    ensures Layout(es + moved, dc')
  {
    var es' := es + moved;
    forall i | 0 <= i < |es'| ensures Contained(es'[i], dc') {
      if i < |es| { assert es'[i] == es[i] && Contained(es[i], dataCount); }
      else { assert es'[i] == moved[i - |es|]; }
    }
    forall i, j | 0 <= i < |es'| && 0 <= j < |es'| && i != j ensures Apart(es'[i], es'[j]) {
      if i < |es| && j < |es| {
        assert es'[i] == es[i] && es'[j] == es[j] && Apart(es[i], es[j]);
      } else if i >= |es| && j >= |es| {
        assert es'[i] == moved[i - |es|] && es'[j] == moved[j - |es|];
        assert Apart(moved[i - |es|], moved[j - |es|]);
      } else if i < |es| {
        assert es'[i] == es[i] && Contained(es[i], dataCount) && es'[j] == moved[j - |es|];
      } else {
        assert es'[j] == es[j] && Contained(es[j], dataCount) && es'[i] == moved[i - |es|];
      }
    }
    forall i | 0 <= i < |es'| && OutOfLine(es'[i]) ensures es'[i].word % DATA_ALIGNMENT == 0 {
      if i < |es| { assert es'[i] == es[i]; } else { assert es'[i] == moved[i - |es|]; }
    }
  }

  /** The moved source entries read, from the destination area, the values they read at the source. */
  lemma ShiftUpValues(ses: seq<Entry>, sarea: seq<Byte>, sdataCount: nat, area': seq<Byte>, dataCount: nat)
    requires Layout(ses, sdataCount) && sdataCount <= |sarea|
    requires Layout(ShiftUpAll(ses, dataCount), dataCount + sdataCount)
    requires dataCount + sdataCount < WORD_RANGE && dataCount + sdataCount <= |area'|
    requires area'[dataCount..dataCount + sdataCount] == sarea[..sdataCount]
    ensures ValuesOf(ShiftUpAll(ses, dataCount), area', dataCount + sdataCount) == ValuesOf(ses, sarea, sdataCount)
  {
    var moved := ShiftUpAll(ses, dataCount);
    forall k | 0 <= k < |ses| ensures ValueOf(moved[k], area') == ValueOf(ses[k], sarea) {
      assert Contained(ses[k], sdataCount);
      ShiftUpKeeps(ses[k], sarea, sdataCount, area', dataCount);
    }
  }

  /** Appending a source block's entries and data after the destination's keeps the invariant. */
  lemma AppendBlocks(tags: TagTable, es: seq<Entry>, area: seq<Byte>, dataCount: nat,
                     ses: seq<Entry>, sarea: seq<Byte>, sdataCount: nat, area': seq<Byte>,
                     dataCapacity: nat, entriesStart: nat, dataStart: nat, sCap: nat, sEntriesStart: nat, sDataStart: nat)
    requires tags.Valid() && BlockOk(tags, es, dataCount, dataCapacity, entriesStart, dataStart)
    requires BlockOk(tags, ses, sdataCount, sCap, sEntriesStart, sDataStart)
    requires |area| == |area'| == dataCapacity && sdataCount <= |sarea|
    requires dataCount + sdataCount <= dataCapacity
    requires area'[..dataCount] == area[..dataCount]
    requires area'[dataCount..dataCount + sdataCount] == sarea[..sdataCount]
    ensures BlockOk(tags, es + ShiftUpAll(ses, dataCount), dataCount + sdataCount, dataCapacity, entriesStart, dataStart)
    ensures ValuesOf(es + ShiftUpAll(ses, dataCount), area', dataCount + sdataCount)
            == ValuesOf(es, area, dataCount) + ValuesOf(ses, sarea, sdataCount)
  {
    var moved := ShiftUpAll(ses, dataCount);
    var es' := es + moved;
    var dc' := dataCount + sdataCount;
    ShiftUpLayout(ses, sdataCount, dataCount);
    JoinLayout(es, dataCount, moved, dc');
    assert TagsMatch(tags, es') by {
      forall i | 0 <= i < |es'| ensures TagType(tags, es'[i].tag) == es'[i].typ as int {
        if i < |es| { assert es'[i] == es[i]; }
        else { assert es'[i] == ShiftUp(ses[i - |es|], dataCount); }
      }
    }
    assert EmptyCleared(es') by {
      forall i | 0 <= i < |es'| && !OutOfLine(es'[i]) && es'[i].count == 0 ensures es'[i].word == 0 {
        if i < |es| { assert es'[i] == es[i]; }
        else { assert es'[i] == ShiftUp(ses[i - |es|], dataCount); }
      }
    }
    Aligned(dataCount, sdataCount);
    ValuesFrame(es, area, area', dataCount);
    ShiftUpValues(ses, sarea, sdataCount, area', dataCount);
    ValuesConcat(es, moved, area', dataCount, dc', dc');
  }

  // ---------------------------------------------------------------------
  // Permutations (sort) keep the layout

  lemma TwoIndices<T>(s: seq<T>, i: nat, j: nat)
    requires i < j < |s| && s[i] == s[j]
    ensures multiset(s)[s[i]] >= 2
  {
    assert s == s[..j] + [s[j]] + s[j + 1..];
    assert s[i] in s[..j];
  }

  lemma FindTwo<T>(s: seq<T>, x: T) returns (a: nat, b: nat)
    requires multiset(s)[x] >= 2
    ensures a < |s| && b < |s| && a != b && s[a] == x && s[b] == x
  {
    assert x in multiset(s);
    a :| 0 <= a < |s| && s[a] == x;
    var rest := s[..a] + s[a + 1..];
    assert s == s[..a] + [s[a]] + s[a + 1..];
    assert multiset(rest)[x] >= 1;
    assert x in rest;
    var c :| 0 <= c < |rest| && rest[c] == x;
    b := if c < a then c else c + 1;
  }

  lemma PermutationKeepsBlock(tags: TagTable, es: seq<Entry>, ps: seq<Entry>, dataCount: nat,
                              dataCapacity: nat, entriesStart: nat, dataStart: nat)
    requires tags.Valid() && BlockOk(tags, es, dataCount, dataCapacity, entriesStart, dataStart)
    requires multiset(es) == multiset(ps)
    ensures BlockOk(tags, ps, dataCount, dataCapacity, entriesStart, dataStart)
  {
    forall i | 0 <= i < |ps| ensures exists k :: 0 <= k < |es| && es[k] == ps[i] {
      assert ps[i] in multiset(ps);
      assert ps[i] in es;
    }
    forall i, j | 0 <= i < |ps| && 0 <= j < |ps| && i != j ensures Apart(ps[i], ps[j]) {
      if ps[i] != ps[j] {
        var a :| 0 <= a < |es| && es[a] == ps[i];
        var b :| 0 <= b < |es| && es[b] == ps[j];
        assert Apart(es[a], es[b]);
      } else if OutOfLine(ps[i]) {
        if i < j { TwoIndices(ps, i, j); } else { TwoIndices(ps, j, i); }
        var a, b := FindTwo(es, ps[i]);
        assert false;
      }
    }
  }

  /** Taking the first element out of one side of a permutation, and its match out of the other. */
  lemma PermutationTail<T>(es: seq<T>, ps: seq<T>, k: nat)
    requires |es| > 0 && k < |ps| && ps[k] == es[0] && multiset(es) == multiset(ps)
    ensures multiset(es[1..]) == multiset(ps[..k] + ps[k + 1..])
  {
    assert es == [es[0]] + es[1..];
    assert multiset(es) == multiset{es[0]} + multiset(es[1..]);
    assert ps == ps[..k] + [ps[k]] + ps[k + 1..];
    assert multiset(ps) == multiset(ps[..k]) + multiset{ps[k]} + multiset(ps[k + 1..]);
    assert multiset(ps[..k] + ps[k + 1..]) == multiset(ps[..k]) + multiset(ps[k + 1..]);
    calc {
      multiset(es[1..]);
      multiset(es) - multiset{es[0]};
      multiset(ps) - multiset{ps[k]};
      multiset(ps[..k]) + multiset(ps[k + 1..]);
    }
  }

  /** Moving one element into the middle of a sequence keeps its multiset. */
  lemma MultisetInsert<T>(x: T, tail: seq<T>, front: seq<T>, back: seq<T>)
    requires multiset(tail) == multiset(front + back)
    ensures multiset([x] + tail) == multiset(front + [x] + back)
  {
    assert multiset(front + [x] + back) == multiset(front) + multiset{x} + multiset(back);
    assert multiset(front + back) == multiset(front) + multiset(back);
  }

  lemma ReadableSlice(es: seq<Entry>, dataCount: nat, lo: nat, hi: nat)
    requires Readable(es, dataCount) && lo <= hi <= |es|
    ensures Readable(es[lo..hi], dataCount)
  {
    assert forall i :: 0 <= i < hi - lo ==> es[lo..hi][i] == es[lo + i];
  }

  lemma ReadableJoin(es: seq<Entry>, fs: seq<Entry>, dataCount: nat)
    requires Readable(es, dataCount) && Readable(fs, dataCount)
    ensures Readable(es + fs, dataCount)
  {
    forall i | 0 <= i < |es + fs| ensures (es + fs)[i].typ < NUM_TYPES && Contained((es + fs)[i], dataCount) {
      if i < |es| { assert (es + fs)[i] == es[i]; } else { assert (es + fs)[i] == fs[i - |es|]; }
    }
  }

  /** The values split around one entry. */
  lemma ValuesSplit(es: seq<Entry>, area: seq<Byte>, dataCount: nat, k: nat)
    requires Readable(es, dataCount) && dataCount <= |area| && k < |es|
    ensures Readable(es[..k], dataCount) && Readable(es[k + 1..], dataCount)
    ensures Readable(es[..k] + es[k + 1..], dataCount)
    ensures ValuesOf(es, area, dataCount)
            == ValuesOf(es[..k], area, dataCount) + [ValueOf(es[k], area)] + ValuesOf(es[k + 1..], area, dataCount)
    ensures ValuesOf(es[..k] + es[k + 1..], area, dataCount)
            == ValuesOf(es[..k], area, dataCount) + ValuesOf(es[k + 1..], area, dataCount)
  {
    ReadableSlice(es, dataCount, 0, k);
    ReadableSlice(es, dataCount, k + 1, |es|);
    assert es[0..k] == es[..k] && es[k + 1..|es|] == es[k + 1..];
    ReadableJoin(es[..k], es[k + 1..], dataCount);
    ValuesConcat(es[..k], es[k + 1..], area, dataCount, dataCount, dataCount);
    var l := ValuesOf(es, area, dataCount);
    var r := ValuesOf(es[..k], area, dataCount) + [ValueOf(es[k], area)] + ValuesOf(es[k + 1..], area, dataCount);
    assert |l| == |r|;
    forall i | 0 <= i < |l| ensures l[i] == r[i] {
      if i < k { assert es[..k][i] == es[i]; }
      else if i > k { assert es[k + 1..][i - k - 1] == es[i]; }
    }
  }

  /** A permutation of the entries reads a permutation of the values. */
  lemma {:induction false} PermutedValues(es: seq<Entry>, ps: seq<Entry>, area: seq<Byte>, dataCount: nat)
    requires Readable(es, dataCount) && Readable(ps, dataCount) && dataCount <= |area|
    requires multiset(es) == multiset(ps)
    ensures multiset(ValuesOf(es, area, dataCount)) == multiset(ValuesOf(ps, area, dataCount))
    decreases |es|
  {
    if es == [] {
      assert |ps| == |multiset(ps)| == 0;
    } else {
      var x := es[0];
      assert x in multiset(ps);
      var k :| 0 <= k < |ps| && ps[k] == x;
      PermutationTail(es, ps, k);
      ValuesSplit(es, area, dataCount, 0);
      ValuesSplit(ps, area, dataCount, k);
      assert es[..0] == [] && es[1..] == es[..0] + es[0 + 1..];
      PermutedValues(es[1..], ps[..k] + ps[k + 1..], area, dataCount);
      assert ValuesOf([], area, dataCount) == [];
      MultisetInsert(ValueOf(x, area), ValuesOf(es[1..], area, dataCount),
                     ValuesOf(ps[..k], area, dataCount), ValuesOf(ps[k + 1..], area, dataCount));
    }
  }

  // ---------------------------------------------------------------------
  // Removing an entry from the list (delete) and clearing it (update)

  /** An entry with no items and a cleared union: what is left while update replaces an entry. */
  function Stub(e: Entry): Entry
  {
    e.(count := 0, word := 0)
  }

  /** Dropping one entry from a consistent list keeps it consistent and drops its value. */
  lemma RemoveKeeps(tags: TagTable, es: seq<Entry>, area: seq<Byte>, dataCount: nat, dataCapacity: nat,
                    entriesStart: nat, dataStart: nat, index: nat)
    requires tags.Valid() && BlockOk(tags, es, dataCount, dataCapacity, entriesStart, dataStart)
    requires index < |es| && dataCount <= |area|
    ensures BlockOk(tags, es[..index] + es[index + 1..], dataCount, dataCapacity, entriesStart, dataStart)
    ensures ValuesOf(es[..index] + es[index + 1..], area, dataCount)
            == ValuesOf(es, area, dataCount)[..index] + ValuesOf(es, area, dataCount)[index + 1..]
  {
    var rs := es[..index] + es[index + 1..];
    forall i | 0 <= i < |rs| ensures rs[i] == es[if i < index then i else i + 1] {
    }
    assert Readable(rs, dataCount);
    forall i, j | 0 <= i < |rs| && 0 <= j < |rs| && i != j ensures Apart(rs[i], rs[j]) {
      var i', j' := if i < index then i else i + 1, if j < index then j else j + 1;
      assert Apart(es[i'], es[j']);
    }
    assert Layout(rs, dataCount);
    var vs, ws := ValuesOf(es, area, dataCount), ValuesOf(rs, area, dataCount);
    assert ws == vs[..index] + vs[index + 1..];
  }

  /** The layout part of StripOutOfLine. */
  lemma StripLayout(es: seq<Entry>, rs: seq<Entry>, dataCount: nat, index: nat)
    requires index < |es| == |rs| && OutOfLine(es[index])
    requires forall j :: 0 <= j < |es| && j != index ==>
               && rs[j].typ < NUM_TYPES
               && Contained(rs[j], dataCount)
               && (OutOfLine(rs[j]) ==> rs[j].word % DATA_ALIGNMENT == 0)
    requires forall i, j :: 0 <= i < |es| && 0 <= j < |es| && i != j && i != index && j != index ==>
               Apart(rs[i], rs[j])
    requires es[index].typ < NUM_TYPES
    ensures Layout(rs[index := Stub(es[index])], dataCount)
  {
    var ss := rs[index := Stub(es[index])];
    assert Readable(ss, dataCount) by {
      forall j | 0 <= j < |ss| ensures ss[j].typ < NUM_TYPES && Contained(ss[j], dataCount) {
        if j != index { assert ss[j] == rs[j]; }
      }
    }
    forall i, j | 0 <= i < |ss| && 0 <= j < |ss| && i != j ensures Apart(ss[i], ss[j]) {
      if i != index && j != index { assert ss[i] == rs[i] && ss[j] == rs[j]; }
    }
    forall j | 0 <= j < |ss| && OutOfLine(ss[j]) ensures ss[j].word % DATA_ALIGNMENT == 0 {
      assert j != index;
    }
  }

  /**
   * Squeezing an out-of-line entry's data out of the area and clearing the
   * entry keeps the invariant over the shrunk data count; every other entry,
   * offsets fixed up, reads what it read before.
   */
  lemma StripOutOfLine(tags: TagTable, es: seq<Entry>, area: seq<Byte>, area': seq<Byte>,
                       dataCount: nat, dataCapacity: nat, entriesStart: nat, dataStart: nat, index: nat)
    requires tags.Valid() && BlockOk(tags, es, dataCount, dataCapacity, entriesStart, dataStart)
    requires index < |es| && OutOfLine(es[index]) && |area'| == dataCapacity
    requires MovedDown(area, area', es[index].word, DataSize(es[index]), dataCount)
    ensures var rs := ShiftAll(es, es[index].word, DataSize(es[index]));
            && rs[index] == es[index]
            && DataSize(es[index]) <= dataCount
            && BlockOk(tags, rs[index := Stub(es[index])], dataCount - DataSize(es[index]),
                       dataCapacity, entriesStart, dataStart)
            && (forall j :: 0 <= j < |es| && j != index ==> ValueOf(rs[j], area') == ValueOf(es[j], area))
  {
    var d := es[index];
    var ds := DataSize(d);
    var rs := ShiftAll(es, d.word, ds);
    assert Contained(d, dataCount);
    RemoveRegion(tags, es, area, area', dataCount, dataCapacity, entriesStart, dataStart, index);
    var ss := rs[index := Stub(d)];
    StripLayout(es, rs, dataCount - ds, index);
    assert TagsMatch(tags, ss) by {
      forall j | 0 <= j < |ss| ensures TagType(tags, ss[j].tag) == ss[j].typ as int {
        assert TagType(tags, es[j].tag) == es[j].typ as int;
      }
    }
    PayloadFits(d);
    Aligned(dataCount, ds);
  }

  /** Clearing an inline entry keeps the invariant and the other values. */
  lemma StripInline(tags: TagTable, es: seq<Entry>, dataCount: nat, dataCapacity: nat,
                    entriesStart: nat, dataStart: nat, index: nat)
    requires tags.Valid() && BlockOk(tags, es, dataCount, dataCapacity, entriesStart, dataStart)
    requires index < |es| && !OutOfLine(es[index])
    ensures BlockOk(tags, es[index := Stub(es[index])], dataCount, dataCapacity, entriesStart, dataStart)
  {
    var ss := es[index := Stub(es[index])];
    forall i, j | 0 <= i < |ss| && 0 <= j < |ss| && i != j ensures Apart(ss[i], ss[j]) {
      if i != index && j != index { assert Apart(es[i], es[j]); }
    }
    assert TagsMatch(tags, ss) by {
      forall j | 0 <= j < |ss| ensures TagType(tags, ss[j].tag) == ss[j].typ as int {
        assert TagType(tags, es[j].tag) == es[j].typ as int;
      }
    }
  }

  /**
   * Filling a cleared slot with an entry that is inline, or whose region is
   * appended at dataCount, keeps the invariant; the other entries read the
   * same from an area whose first dataCount bytes are unchanged.
   */
  lemma PlaceAt(tags: TagTable, es: seq<Entry>, area: seq<Byte>, area': seq<Byte>,
                dataCount: nat, dataCapacity: nat, entriesStart: nat, dataStart: nat, index: nat, f: Entry)
    requires tags.Valid() && BlockOk(tags, es, dataCount, dataCapacity, entriesStart, dataStart)
    requires index < |es| && !OutOfLine(es[index])
    requires f.typ < NUM_TYPES && TagType(tags, f.tag) == f.typ as int
    requires OutOfLine(f) ==> f.word == dataCount && dataCount + DataSize(f) <= dataCapacity
    requires !OutOfLine(f) && f.count == 0 ==> f.word == 0
    requires |area| == |area'| == dataCapacity && area'[..dataCount] == area[..dataCount]
    ensures BlockOk(tags, es[index := f], dataCount + DataSize(f), dataCapacity, entriesStart, dataStart)
    ensures forall j :: 0 <= j < |es| && j != index ==> ValueOf(es[j], area') == ValueOf(es[j], area)
  {
    var ss := es[index := f];
    var dc' := dataCount + DataSize(f);
    if OutOfLine(f) { PayloadFits(f); Aligned(dataCount, DataSize(f)); }
    assert Readable(ss, dc') by {
      forall j | 0 <= j < |ss| ensures ss[j].typ < NUM_TYPES && Contained(ss[j], dc') {
        if j != index { assert Contained(es[j], dataCount); }
      }
    }
    forall i, j | 0 <= i < |ss| && 0 <= j < |ss| && i != j ensures Apart(ss[i], ss[j]) {
      if i != index && j != index {
        assert Apart(es[i], es[j]);
      } else if i != index {
        assert Contained(es[i], dataCount);
      } else {
        assert Contained(es[j], dataCount);
      }
    }
    assert TagsMatch(tags, ss) by {
      forall j | 0 <= j < |ss| ensures TagType(tags, ss[j].tag) == ss[j].typ as int {
        if j != index { assert TagType(tags, es[j].tag) == es[j].typ as int; }
      }
    }
    forall j | 0 <= j < |es| && j != index ensures ValueOf(es[j], area') == ValueOf(es[j], area) {
      assert Contained(es[j], dataCount);
      ValueFrame(es[j], area, area', dataCount);
    }
  }

  /** Replacing one entry, the others reading as before, replaces one value. */
  lemma ValuesReplace(es: seq<Entry>, fs: seq<Entry>, area: seq<Byte>, area': seq<Byte>,
                      dataCount: nat, dataCount': nat, index: nat)
    requires Readable(es, dataCount) && dataCount <= |area|
    requires Readable(fs, dataCount') && dataCount' <= |area'|
    requires |fs| == |es| && index < |es|
    requires forall j :: 0 <= j < |es| && j != index ==> ValueOf(fs[j], area') == ValueOf(es[j], area)
    ensures ValuesOf(fs, area', dataCount') == ValuesOf(es, area, dataCount)[index := ValueOf(fs[index], area')]
  {
  }

  /** The area after memcpy(area + at, payload, |payload|). */
  ghost predicate Overwritten(area: seq<Byte>, area': seq<Byte>, at: nat, payload: seq<Byte>)
  {
    && |area'| == |area| && at + |payload| <= |area|
    && (forall k :: 0 <= k < |area| && (k < at || at + |payload| <= k) ==> area'[k] == area[k])
    && area'[at..at + |payload|] == payload
  }

  /** An out-of-line entry whose payload was just copied to its offset reads that payload. */
  lemma CopiedValue(f: Entry, area: seq<Byte>, area': seq<Byte>, payload: seq<Byte>)
    requires f.typ < NUM_TYPES && OutOfLine(f) && f.word + DataSize(f) <= |area'|
    requires |payload| == f.count * TypeSize(f.typ)
    requires Overwritten(area, area', f.word, payload)
    ensures ValueOf(f, area') == EntryValue(f.tag, f.typ, f.count, payload)
  {
    ValueOfOutOfLine(f, area');
  }

  /**
   * Putting an entry that is inline, or whose region is appended at
   * dataCount, in the place of an inline one: the invariant holds over the
   * grown data count and exactly that entry's value changes.
   */
  lemma ReplaceInline(tags: TagTable, es: seq<Entry>, area: seq<Byte>, area': seq<Byte>,
                      dataCount: nat, dataCapacity: nat, entriesStart: nat, dataStart: nat, index: nat, f: Entry)
    requires tags.Valid() && BlockOk(tags, es, dataCount, dataCapacity, entriesStart, dataStart)
    requires index < |es| && !OutOfLine(es[index])
    requires f.typ < NUM_TYPES && TagType(tags, f.tag) == f.typ as int
    requires OutOfLine(f) ==> f.word == dataCount && dataCount + DataSize(f) <= dataCapacity
    requires !OutOfLine(f) && f.count == 0 ==> f.word == 0
    requires |area| == |area'| == dataCapacity && area'[..dataCount] == area[..dataCount]
    ensures BlockOk(tags, es[index := f], dataCount + DataSize(f), dataCapacity, entriesStart, dataStart)
    ensures ValuesOf(es[index := f], area', dataCount + DataSize(f))
            == ValuesOf(es, area, dataCount)[index := ValueOf(f, area')]
  {
    StripInline(tags, es, dataCount, dataCapacity, entriesStart, dataStart, index);
    var ss := es[index := Stub(es[index])];
    PlaceAt(tags, ss, area, area', dataCount, dataCapacity, entriesStart, dataStart, index, f);
    assert ss[index := f] == es[index := f];
    ValuesReplace(es, es[index := f], area, area', dataCount, dataCount + DataSize(f), index);
  }

  /** Overwriting bytes outside an out-of-line entry's region leaves its value alone. */
  lemma ValueOutside(e: Entry, area: seq<Byte>, area': seq<Byte>, at: nat, payload: seq<Byte>)
    requires e.typ < NUM_TYPES && OutOfLine(e) && e.word + DataSize(e) <= |area|
    requires Overwritten(area, area', at, payload)
    requires e.word + DataSize(e) <= at || at + |payload| <= e.word
    ensures ValueOf(e, area') == ValueOf(e, area)
  {
    PayloadFits(e);
    var o, p := e.word, PayloadSize(e);
    forall k | o <= k < o + p ensures area'[k] == area[k] { }
    assert area'[o..o + p] == area[o..o + p];
  }

  /** Rewriting an out-of-line entry's payload in place, with an unchanged data size. */
  lemma RewriteInPlace(tags: TagTable, es: seq<Entry>, area: seq<Byte>, area': seq<Byte>,
                       dataCount: nat, dataCapacity: nat, entriesStart: nat, dataStart: nat,
                       index: nat, count: nat, payload: seq<Byte>)
    requires tags.Valid() && BlockOk(tags, es, dataCount, dataCapacity, entriesStart, dataStart)
    requires index < |es| && OutOfLine(es[index]) && dataCount <= |area|
    requires EntryDataSize(es[index].typ, count) == DataSize(es[index])
    requires |payload| == count * TypeSize(es[index].typ)
    requires Overwritten(area, area', es[index].word, payload)
    ensures BlockOk(tags, es[index := es[index].(count := count)], dataCount, dataCapacity, entriesStart, dataStart)
    ensures forall j :: 0 <= j < |es| && j != index ==> ValueOf(es[j], area') == ValueOf(es[j], area)
    ensures ValueOf(es[index].(count := count), area') == EntryValue(es[index].tag, es[index].typ, count, payload)
  {
    var e := es[index];
    var f := e.(count := count);
    var ss := es[index := f];
    assert DataSize(f) == DataSize(e);
    assert Contained(e, dataCount);
    PayloadFits(f);
    assert Readable(ss, dataCount) by {
      forall j | 0 <= j < |ss| ensures ss[j].typ < NUM_TYPES && Contained(ss[j], dataCount) {
        if j != index { assert ss[j] == es[j]; }
      }
    }
    forall i, j | 0 <= i < |ss| && 0 <= j < |ss| && i != j ensures Apart(ss[i], ss[j]) {
      assert Apart(es[i], es[j]);
    }
    assert TagsMatch(tags, ss) by {
      forall j | 0 <= j < |ss| ensures TagType(tags, ss[j].tag) == ss[j].typ as int {
        assert TagType(tags, es[j].tag) == es[j].typ as int;
      }
    }
    forall j | 0 <= j < |es| && j != index ensures ValueOf(es[j], area') == ValueOf(es[j], area) {
      assert Contained(es[j], dataCount) && Apart(es[j], e);
      if OutOfLine(es[j]) { ValueOutside(es[j], area, area', e.word, payload); }
    }
    ValueOfOutOfLine(f, area');
  }

  /**
   * The inline branch of update_icamera_metadata_entry as coded: the payload
   * is copied over the first bytes of the union and the remaining bytes keep
   * what the union held (an inline value, or the offset of data just removed).
   */
  function InlineUpdateAsWritten(e: Entry, count: nat, payload: seq<Byte>): (f: Entry)
    requires |payload| <= 4
    ensures f.tag == e.tag && f.typ == e.typ && f.count == count
    ensures BytesOf(f.word)[..|payload|] == payload
    ensures BytesOf(f.word)[|payload|..] == BytesOf(e.word)[|payload|..]
  {
    var b: Word := payload + BytesOf(e.word)[|payload|..];
    BytesRoundTrip(b);
    e.(count := count, word := WordFrom(b))
  }

  /**
   * An INT32 entry holding 5, updated as coded to hold no items, keeps 5 in
   * its union: the block no longer has the zero union the validator demands
   * of an entry with no items.
   */
  lemma EmptyUpdateKeepsStaleUnion(tags: TagTable, tag: nat, entriesStart: nat, dataStart: nat, dataCapacity: nat)
    requires tags.Valid()
    ensures var f := InlineUpdateAsWritten(Entry(tag, 1, 5, TYPE_INT32), 0, []);
            && f.count == 0 && !OutOfLine(f) && f.word == 5
            && !EmptyCleared([f])
            && !EntryOk(tags, f, 0, entriesStart, dataStart, dataCapacity)
  {
    var f := InlineUpdateAsWritten(Entry(tag, 1, 5, TYPE_INT32), 0, []);
    assert BytesOf(5) == [5, 0, 0, 0];
    assert f.word == WordFrom([5, 0, 0, 0]);
    assert !EmptyCleared([f]) by {
      assert [f][0] == f;
    }
  }

  // ---------------------------------------------------------------------
  // Searching by tag (find_icamera_metadata_entry)

  /**
   * The bisection bsearch performs over entries [lo, hi): compare the key with
   * the middle entry, continue in the lower or upper half, stop on equality.
   */
  function BinarySearch(es: seq<Entry>, tag: nat, lo: nat, hi: nat): (r: Option<nat>)
    requires lo <= hi <= |es|
    decreases hi - lo
  {
    if lo >= hi then None
    else
      var mid := (lo + hi) / 2;
      if tag < es[mid].tag then BinarySearch(es, tag, lo, mid)
      else if tag > es[mid].tag then BinarySearch(es, tag, mid + 1, hi)
      else Some(mid)
  }

  /** On entries sorted by tag, bisection finds an entry with the tag exactly when one exists. */
  lemma {:induction false} BinarySearchCorrect(es: seq<Entry>, tag: nat, lo: nat, hi: nat)
    requires lo <= hi <= |es|
    ensures var r := BinarySearch(es, tag, lo, hi);
            r.Some? ==> lo <= r.value < hi && es[r.value].tag == tag
    ensures SortedByTag(es) ==>
              (BinarySearch(es, tag, lo, hi).None? <==> forall i :: lo <= i < hi ==> es[i].tag != tag)
    decreases hi - lo
  {
    if lo < hi {
      var mid := (lo + hi) / 2;
      if tag < es[mid].tag {
        BinarySearchCorrect(es, tag, lo, mid);
        if SortedByTag(es) {
          assert forall i :: mid <= i < hi ==> es[mid].tag <= es[i].tag;
        }
      } else if tag > es[mid].tag {
        BinarySearchCorrect(es, tag, mid + 1, hi);
        if SortedByTag(es) {
          assert forall i :: lo <= i <= mid ==> es[i].tag <= es[mid].tag;
        }
      }
    }
  }

  // ---------------------------------------------------------------------
  // Sequences that agree outside one position

  /** Two equally long sequences that agree everywhere but at index agree once it is replaced. */
  lemma ReplaceAgree<T>(vs: seq<T>, ws: seq<T>, index: nat, v: T)
    requires |vs| == |ws| && index < |vs|
    requires forall j :: 0 <= j < |vs| && j != index ==> vs[j] == ws[j]
    ensures vs[index := v] == ws[index := v]
  {
  }

  /** ... and once it is removed. */
  lemma DropAgree<T>(vs: seq<T>, ws: seq<T>, index: nat)
    requires |vs| == |ws| && index < |vs|
    requires forall j :: 0 <= j < |vs| && j != index ==> vs[j] == ws[j]
    ensures vs[..index] + vs[index + 1..] == ws[..index] + ws[index + 1..]
  {
    assert vs[..index] == ws[..index];
    assert vs[index + 1..] == ws[index + 1..];
  }
}
