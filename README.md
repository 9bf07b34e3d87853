# libcamhal core in Dafny

A model of the bookkeeping core of an Intel IPU camera HAL (libcamhal) and of its two Android
front ends, with the properties its code promises proved about the model. The imaging libraries
the HAL drives (ia_aiq, ia_isp, ia_p2p, ia_css, ia_cipf/CIPR, ia_dvs, ia_ltm, GCSS), the kernel
drivers and the Android framework are outside the model. Their answers are parameters of the
operations that consult them, and what the HAL writes to a device is a recorded log.

One Dafny module per source file:

- `MetadataLayout`, `MetadataBase` (`icamera_metadata_base.cpp`): the packed metadata block.
  It holds a header, an entry table and an 8-aligned data area. Entries of at most four bytes
  are stored inline. The block supports add, find (binary search once sorted), sort, delete,
  update, append and copy. A `Valid()` predicate holds the block's validator, and every mutator
  preserves it.
- `Parameters`, `MetadataConvert`: the typed parameter store over metadata tags, and the
  Android/HAL conversion tables with their round trips.
- `CameraProfiles`, `PlatformData`, `Utils`, `GraphConfig`: the configuration string parsers
  (`strtol` prefixes, `WxH`, comma lists), the XML element state machine, the static-config
  queries, and the format, stride and frame-size arithmetic.
- `CameraDevice`, `DeviceBase`, `PipeExecutor`, `PSysProcessor`, `PSysPipe`, `IspParamAdaptor`:
  - the device state machine and stream ranking;
  - the buffer queues;
  - terminal/port assignment, edge and stage bookkeeping;
  - the ring of per-sequence ISP parameter slots.
- `PgRequirements`, `PGParamAdapt`, `PSysP2pLite`, `PSysPipeBase`, `PSysScale`: program-group
  terminal planning:
  - kernel bitmaps, the run-length kernel order, payload sizes and encode;
  - buffer registration caching;
  - the scaling pipeline's frame and kernel configuration.
- `SensorHwCtrl`, `AiqUtils`, `Intel3AParameter`, `IntelDvs`, `Ltm`, `Custom3A`: the sensor
  control writes, the 3A unit conversions and parameter updates, DVS zoom and LTM state, and
  the sample custom 3A.
- `ExifMaker`, `Camera3Hwi`, `SocCameraHw`:
  - EXIF fields;
  - the camera3 HAL state machine and its HAL buffer pool;
  - the HAL1 front end's format tables, buffer sizes and message masks.
- `Common`, `HalTypes`, `CString`: shared helpers. These are status codes, `Option`, alignment,
  and C-string views of `seq<char>`.

Conventions of the model:
- C integers are mathematical integers. Where the width matters, the wrap-around or truncation
  is written out: `uint8_t` counters, `uint32` masks, and C's truncating division (`HalTypes.TruncDiv`).
- Floating-point quantities are `real`, or are left out where only a float rounding is involved.
- Headers that are not part of this model give constants whose values are unknown, such as the
  error codes and `MAX_STREAM_NUMBER`. Status codes are a datatype, and unknown limits are
  parameters.
- Where the code reads out of bounds or falls off a function, the model keeps the as-written
  behaviour as a separate function or lemma. The operations use the corrected behaviour. Both
  halves are listed under "## Findings".

## Model

| member | source | states |
|---|---|---|
| MetadataLayout.TypeSize | src/metadata/icamera_metadata_base.cpp:522-528 | every metadata type has a size between 1 and 8 bytes |
| MetadataLayout.InlineWordReads | src/metadata/icamera_metadata_base.cpp:556-557 | a payload of at most 4 bytes stored in the entry union reads back from its first bytes |
| MetadataLayout.BytesRoundTrip | src/metadata/icamera_metadata_base.cpp:556-560 | reading the union as a little-endian offset and writing it back gives the same four bytes |
| MetadataLayout.CalculateSize | src/metadata/icamera_metadata_base.cpp:238-248 | header plus entries padded so the data area is 8-aligned, plus the data: at least the raw sum, less than the sum plus 8 |
| MetadataLayout.CalculateSizeMonotone | src/metadata/icamera_metadata_base.cpp:238-248 | more entries or more data never need a smaller block |
| MetadataLayout.EntryDataSize | src/metadata/icamera_metadata_base.cpp:522-528 | 0 for an invalid type or a payload of at most 4 bytes; otherwise the payload rounded up to a multiple of 8 |
| MetadataLayout.TagType | src/metadata/icamera_metadata_base.cpp:810-818 | -1 exactly for tags outside the known sections and their bounds; otherwise a valid type |
| MetadataLayout.TagName | src/metadata/icamera_metadata_base.cpp:800-808 | null exactly for unknown tags; otherwise the table entry at (section, index) |
| MetadataLayout.SectionName | src/metadata/icamera_metadata_base.cpp:792-798 | null exactly when the section is past the section count; otherwise that section's name |
| MetadataLayout.ValuesOf | src/metadata/icamera_metadata_base.cpp:608-627 | one value per entry (what get_icamera_metadata_entry reads) |
| MetadataLayout.InsertByTagCorrect | src/metadata/icamera_metadata_base.cpp:587-606 | inserting by tag keeps the entries sorted and is a permutation with the new entry |
| MetadataLayout.SortByTagCorrect | src/metadata/icamera_metadata_base.cpp:595-606 | sorting by tag yields a sorted permutation of the entries |
| MetadataLayout.SortedKeepsSorted | src/metadata/icamera_metadata_base.cpp:677-714 | removing an entry from a sorted list keeps it sorted |
| MetadataLayout.SameTagsSorted | src/metadata/icamera_metadata_base.cpp:716-790 | entries with unchanged tags stay sorted |
| MetadataLayout.BlockEntriesOk | src/metadata/icamera_metadata_base.cpp:306-459 | the mutators' consistency implies every per-entry check of the validator |
| MetadataLayout.EntryOkOf | src/metadata/icamera_metadata_base.cpp:390-456 | an entry with a known type, contained data, 8-aligned offset and a cleared empty union passes the validator's entry checks |
| MetadataLayout.ValuesFrame | src/metadata/icamera_metadata_base.cpp:608-627 | entry values depend only on the used part of the data area |
| MetadataLayout.AddEntryLayout | src/metadata/icamera_metadata_base.cpp:530-567 | an entry placed at data_count (when out of line) extends the layout by its data size |
| MetadataLayout.AddEntryKeeps | src/metadata/icamera_metadata_base.cpp:530-567 | adding an entry keeps the block consistent and appends its value to the values |
| MetadataLayout.ShiftAll | src/metadata/icamera_metadata_base.cpp:693-703 | the delete fix-up loop applied to every entry |
| MetadataLayout.ShiftedKeeps | src/metadata/icamera_metadata_base.cpp:686-705 | after compaction an entry above the removed data moves down by its size, one below stays, inline entries are untouched, and every value reads the same |
| MetadataLayout.RemoveRegion | src/metadata/icamera_metadata_base.cpp:677-714 | compaction keeps tags, types and counts, keeps other entries contained, aligned and apart, and keeps their values |
| MetadataLayout.ShiftUpAll | src/metadata/icamera_metadata_base.cpp:480-489 | the append fix-up loop applied to every appended entry |
| MetadataLayout.ShiftUpKeeps | src/metadata/icamera_metadata_base.cpp:480-489 | an appended out-of-line entry's offset grows by the old data_count; inline entries are unchanged; values read the same |
| MetadataLayout.ShiftUpLayout | src/metadata/icamera_metadata_base.cpp:461-504 | shifted source entries form a layout above the destination's data |
| MetadataLayout.ShiftUpValues | src/metadata/icamera_metadata_base.cpp:461-504 | the appended entries read the same values as in the source |
| MetadataLayout.AppendBlocks | src/metadata/icamera_metadata_base.cpp:461-504 | appending keeps the destination consistent and its values are the old values followed by the source's |
| MetadataLayout.PermutationKeepsBlock | src/metadata/icamera_metadata_base.cpp:595-606 | any reordering of the entries keeps the block consistent |
| MetadataLayout.PermutedValues | src/metadata/icamera_metadata_base.cpp:595-606 | reordering the entries permutes their values |
| MetadataLayout.RemoveKeeps | src/metadata/icamera_metadata_base.cpp:706-710 | dropping an entry keeps the block consistent and drops exactly its value |
| MetadataLayout.StripOutOfLine | src/metadata/icamera_metadata_base.cpp:742-761 | freeing an entry's out-of-line data keeps the block consistent and every other value |
| MetadataLayout.StripInline | src/metadata/icamera_metadata_base.cpp:736-761 | an inline entry needs no compaction |
| MetadataLayout.PlaceAt | src/metadata/icamera_metadata_base.cpp:763-769 | placing new out-of-line data at data_count keeps the block consistent and the other values |
| MetadataLayout.ValuesReplace | src/metadata/icamera_metadata_base.cpp:716-790 | changing one entry changes exactly that value |
| MetadataLayout.CopiedValue | src/metadata/icamera_metadata_base.cpp:767-772 | copied payload bytes are what the entry then reads |
| MetadataLayout.ReplaceInline | src/metadata/icamera_metadata_base.cpp:763-780 | replacing an inline entry keeps the block consistent and replaces exactly its value |
| MetadataLayout.ValueOutside | src/metadata/icamera_metadata_base.cpp:770-773 | writing bytes outside an entry's data leaves its value unchanged |
| MetadataLayout.RewriteInPlace | src/metadata/icamera_metadata_base.cpp:770-780 | when the data size is unchanged the payload is rewritten in place, the block stays consistent and only that value changes |
| MetadataLayout.InlineUpdateAsWritten | src/metadata/icamera_metadata_base.cpp:775-780 | as written, an inline update copies only the new payload bytes and keeps the old union bytes after them |
| MetadataLayout.EmptyUpdateKeepsStaleUnion | src/metadata/icamera_metadata_base.cpp:775-780 | an update to zero elements of an inline entry leaves a non-zero union, which the validator's zero-count check rejects |
| MetadataLayout.BinarySearchCorrect | src/metadata/icamera_metadata_base.cpp:642-653 | the bsearch result has the tag; on sorted entries it fails exactly when no entry has the tag |
| MetadataBase.ClearSorted | src/metadata/icamera_metadata_base.cpp:564 | clears FLAG_SORTED and keeps every other flag bit |
| MetadataBase.SetSorted | src/metadata/icamera_metadata_base.cpp:602 | sets FLAG_SORTED and keeps every other flag bit |
| MetadataBase.TakeSorted | src/metadata/icamera_metadata_base.cpp:490-492 | the sorted bit is taken from the source flags, every other bit kept |
| MetadataBase.AppendFlagsAsWritten | src/metadata/icamera_metadata_base.cpp:490-498 | as written, appending onto an empty destination only ORs the source's sorted bit in, so a stale destination sorted bit survives |
| MetadataBase.SortedEmptyAppendMisleadsFind | src/metadata/icamera_metadata_base.cpp:490-498 | an emptied but still-flagged destination plus an unsorted source keeps the sorted flag, and the binary search then misses a present tag; the corrected flags do not |
| MetadataBase.AppendFlags | src/metadata/icamera_metadata_base.cpp:490-498 | after append the result is flagged sorted exactly when the destination was empty and the source sorted, or the source was empty and the destination sorted |
| MetadataBase.Metadata.ValidPassesValidator | src/metadata/icamera_metadata_base.cpp:306-459 | every block the mutators keep passes the structural validator |
| MetadataBase.Metadata.Init | src/metadata/icamera_metadata_base.cpp:207-233 | a placed block is empty with exactly the requested capacities and no flags |
| MetadataBase.Metadata.Place | src/metadata/icamera_metadata_base.cpp:207-233 | null exactly when the destination is null or smaller than calculate_icamera_metadata_size; otherwise an empty valid block with the requested capacities and that size |
| MetadataBase.Metadata.Allocate | src/metadata/icamera_metadata_base.cpp:196-205 | an empty valid block with the requested capacities |
| MetadataBase.Metadata.CompactSize | src/metadata/icamera_metadata_base.cpp:256-261 | the compact size never exceeds the block size and covers header, live entries and used data |
| MetadataBase.Metadata.Validate | src/metadata/icamera_metadata_base.cpp:306-459 | OK exactly when the validator's checks hold (counts within capacities, entries before data, data within size, out-of-line entries within data capacity, empty entries with offset 0), else ERROR |
| MetadataBase.Metadata.Get | src/metadata/icamera_metadata_base.cpp:608-627 | ERROR (None) exactly for an index past the count; otherwise that entry's value |
| MetadataBase.Metadata.Add | src/metadata/icamera_metadata_base.cpp:530-585 | ERROR with nothing changed exactly for an unknown tag, full entries, null data or data over capacity; on success one value is appended, data_count grows by the entry data size and the sorted flag is cleared |
| MetadataBase.Metadata.Put | src/metadata/icamera_metadata_base.cpp:548-566 | the raw add appends one value, grows data_count by its data size and clears the sorted flag |
| MetadataBase.Metadata.Sort | src/metadata/icamera_metadata_base.cpp:595-606 | entries become sorted by tag and flagged sorted; a permutation of entries and values; a no-op when already flagged |
| MetadataBase.Metadata.Find | src/metadata/icamera_metadata_base.cpp:636-667 | NOT_FOUND exactly when no entry has the tag; otherwise an entry with the tag, the first one when unsorted and the binary-search hit when sorted |
| MetadataBase.Metadata.StripData | src/metadata/icamera_metadata_base.cpp:742-761 | removes an entry's out-of-line data, shifting higher offsets down by its size, and keeps every other value |
| MetadataBase.Metadata.Delete | src/metadata/icamera_metadata_base.cpp:677-714 | ERROR with nothing changed exactly when index >= count; otherwise that value is removed, the others keep order and value, and data_count drops by its data size |
| MetadataBase.Metadata.SetInline | src/metadata/icamera_metadata_base.cpp:775-780 | an inline payload is stored in the entry union (zero-filled, the corrected behaviour) and becomes that entry's value |
| MetadataBase.Metadata.PlaceData | src/metadata/icamera_metadata_base.cpp:763-769 | a new out-of-line payload is appended at data_count and becomes that entry's value |
| MetadataBase.Metadata.RewriteData | src/metadata/icamera_metadata_base.cpp:770-773 | a payload of unchanged data size is rewritten in place |
| MetadataBase.Metadata.Update | src/metadata/icamera_metadata_base.cpp:716-790 | ERROR with nothing changed for an index past the count or data overflow; otherwise entry_count is kept, exactly that value changes, and data_count changes by new size minus old size |
| MetadataBase.Metadata.Append | src/metadata/icamera_metadata_base.cpp:461-504 | ERROR with the destination untouched exactly for a null source or too little entry or data capacity; otherwise the values concatenate, data_count is the sum, and the sorted flag follows AppendFlags |
| MetadataBase.Metadata.Splice | src/metadata/icamera_metadata_base.cpp:471-500 | copies the source entries and data after the destination's and rebases the out-of-line offsets |
| MetadataBase.Metadata.Copy | src/metadata/icamera_metadata_base.cpp:279-304 | null exactly when the destination is null or smaller than the compact size; otherwise a compact copy with the same entries, values and flags |
| MetadataBase.Metadata.Clone | src/metadata/icamera_metadata_base.cpp:506-520 | null exactly for a null source; otherwise a compact block with the same values and sorted state |
| MetadataBase.Metadata.Duplicate | src/metadata/icamera_metadata_base.cpp:176-194 | a byte-for-byte copy with the same capacities |
| MetadataBase.Metadata.AllocateCopyChecked | src/metadata/icamera_metadata_base.cpp:176-194 | null for a null source or one larger than the given size; otherwise a copy with the same values, flags and capacities |
| MetadataBase.SplicedSorted | src/metadata/icamera_metadata_base.cpp:490-498 | whenever the append leaves the flag set, the concatenated entries really are sorted |
| MetadataBase.Bisect | src/metadata/icamera_metadata_base.cpp:642-653 | the binary-search loop finds the bsearch result: none exactly when no entry has the tag |
| MetadataBase.Scan | src/metadata/icamera_metadata_base.cpp:654-663 | the linear search finds the first entry with the tag, or none when no entry has it |
| MetadataBase.MoveDown | src/metadata/icamera_metadata_base.cpp:686-691 | memmove moves the data after the removed region down by its size and leaves the tail bytes |
| MetadataBase.StrippedBlock | src/metadata/icamera_metadata_base.cpp:686-705 | after compaction the block stays consistent, sorted entries stay sorted, and other values are kept |
| MetadataBase.FixOffsets | src/metadata/icamera_metadata_base.cpp:693-703 | the offset fix-up loop lowers exactly the out-of-line offsets above the removed one |
| MetadataBase.RebaseOffsets | src/metadata/icamera_metadata_base.cpp:480-489 | the append fix-up loop raises every out-of-line offset by the old destination data_count |
| MetadataBase.Metadata.CopyIn | src/metadata/icamera_metadata_base.cpp:716-790 | the payload overwrites the data area at the given offset and every other byte is unchanged |
| Parameters.WindowInts | src/metadata/Parameters.cpp:97-104 | a window is stored as exactly five ints: left, top, right, bottom, weight |
| Parameters.Flatten | src/metadata/Parameters.cpp:97-106 | the flattened list holds five ints per window |
| Parameters.Unflatten | src/metadata/Parameters.cpp:119-127 | a list whose length is a multiple of five reads back as one window per five ints |
| Parameters.UnflattenFlatten | src/metadata/Parameters.cpp:91-130 | reading back what setRegions stored yields the same windows |
| Parameters.FlattenUnflatten | src/metadata/Parameters.cpp:111-130 | storing the windows getRegions read yields the same ints |
| Parameters.EncodeWindows | src/metadata/Parameters.cpp:97-106 | the setRegions loop produces Flatten of the regions |
| Parameters.DecodeWindows | src/metadata/Parameters.cpp:119-127 | the getRegions loop produces Unflatten of the entry |
| Parameters.Pairs | src/metadata/Parameters.cpp:801-806 | consecutive entries become (min, max) ranges, one per two values |
| Parameters.DecodePairs | src/metadata/Parameters.cpp:801-806 | the getSupportedFpsRange loop produces Pairs of the entry |
| Parameters.ToInt32 | src/metadata/Parameters.cpp:1210-1214 | storing a uint32 control id into an int32 keeps its value modulo 2^32 within the int32 range |
| Parameters.ToUint32 | src/metadata/Parameters.cpp:1227-1229 | the cast back to uint32 lands in [0, 2^32) |
| Parameters.Uint32RoundTrip | src/metadata/Parameters.cpp:1202-1232 | an id cast to int32 and back to uint32 is unchanged |
| Parameters.Int32s | src/metadata/Parameters.cpp:1210-1214 | the id array holds each id cast to int32, in order |
| Parameters.Uint32Set | src/metadata/Parameters.cpp:1221-1232 | the set read back holds exactly the casts of the stored ints |
| Parameters.EnabledControlsRoundTrip | src/metadata/Parameters.cpp:1202-1232 | storing a set of ids and reading it back gives the same set |
| Parameters.LeastElement | src/metadata/Parameters.cpp:1211 | a non-empty id set has a least element (the first in std::set order) |
| Parameters.AscendingElements | src/metadata/Parameters.cpp:1210-1214 | iterating the std::set visits every id once, strictly ascending |
| Parameters.Lookup | src/metadata/Parameters.cpp:62-71 | a scalar getter finds a value exactly when the tag is stored with exactly the requested count |
| Parameters.SetThenLookup | src/metadata/Parameters.cpp:55-71 | after a set, the getter of that tag returns the stored values and other tags are unaffected |
| Parameters.EraseThenLookup | src/metadata/Parameters.cpp:343-373 | after an erase-on-null setter, the matching getter finds nothing |
| Parameters.RegionsRoundTrip | src/metadata/Parameters.cpp:91-142 | after setAeRegions of a non-empty list, getAeRegions passes its count check and returns the same windows |
| Parameters.U8 | src/metadata/Parameters.cpp:55-60 | the uint8_t narrowing of a mode lies in 0..255 and keeps values already in range |
| Parameters.Parameters.constructor | src/metadata/Parameters.cpp:32 | a new parameter set is empty |
| Parameters.Parameters.Copy | src/metadata/Parameters.cpp:34-35 | copy construction takes an independent copy of the other's entries |
| Parameters.Parameters.Assign | src/metadata/Parameters.cpp:37-42 | assignment deep-copies the other's entries |
| Parameters.Parameters.Set | src/metadata/Parameters.cpp:55-60 | on OK the tag maps to the given values and nothing else changes; on failure the store is unchanged |
| Parameters.Parameters.Get | src/metadata/Parameters.cpp:62-71 | OK exactly when the tag is stored with the requested count, else NAME_NOT_FOUND, and on OK the values are the stored ones |
| Parameters.Parameters.GetList | src/metadata/Parameters.cpp:732-742 | a supported-list getter returns OK with the stored list, empty when the tag is absent |
| Parameters.Parameters.SetRegions | src/metadata/Parameters.cpp:91-109 | INVALID_OPERATION for an empty list; otherwise the status of storing Flatten of the windows |
| Parameters.Parameters.GetRegions | src/metadata/Parameters.cpp:111-130 | NAME_NOT_FOUND with an empty list exactly when the stored count is zero or not a multiple of five; otherwise windows that flatten to the stored ints |
| Parameters.Parameters.GetSupportedFpsRange | src/metadata/Parameters.cpp:792-809 | NAME_NOT_FOUND with no ranges exactly for a zero or odd count; otherwise consecutive (min, max) pairs |
| Parameters.Parameters.Erase | src/metadata/Parameters.cpp:350-351 | on OK the tag is removed and nothing else changes |
| Parameters.Parameters.SetBlob | src/metadata/Parameters.cpp:343-353 | null data erases the tag; otherwise the fixed-size blob is stored; a failing status leaves the store unchanged |
| Parameters.Parameters.GetAwbResult | src/metadata/Parameters.cpp:355-373 | BAD_VALUE exactly without a destination; OK exactly when the blob is stored with the exact size; otherwise NAME_NOT_FOUND |
| Parameters.Parameters.GetBlob | src/metadata/Parameters.cpp:1246-1262 | OK exactly when the blob has the exact size; the copy is made only when a destination is given |
| Parameters.Parameters.SetVariableBlob | src/metadata/Parameters.cpp:1101-1131 | BAD_VALUE for null data (and, for the makernote, for size 0); otherwise the bytes are stored |
| Parameters.Parameters.GetVariableBlob | src/metadata/Parameters.cpp:1109-1147 | BAD_VALUE exactly without a destination; OK exactly when the entry is non-empty, and then the destination gets the first min(destination size, count) stored bytes and the size reports the full count; otherwise NAME_NOT_FOUND with nothing copied and the size unchanged |
| Parameters.Parameters.SetIspControl | src/metadata/Parameters.cpp:1169-1180 | BAD_VALUE for a control id of size 0; null data erases the control's tag; otherwise its bytes are stored |
| Parameters.Parameters.GetIspControl | src/metadata/Parameters.cpp:1182-1200 | BAD_VALUE exactly for a size-0 id; OK exactly when the tag is stored with the control's size; data is copied only to a given destination |
| Parameters.Parameters.SetEnabledIspControls | src/metadata/Parameters.cpp:1202-1219 | an empty set erases the tag; otherwise one int per id is stored and reads back as the same set |
| Parameters.Parameters.GetEnabledIspControls | src/metadata/Parameters.cpp:1221-1232 | always OK, with the set of stored ids cast back to uint32 |
| MetadataConvert.FirstHal | aal/MetadataConvert.cpp:92-102 | the index of the first table row whose HAL value matches, or the table length when none does |
| MetadataConvert.FirstAndroid | aal/MetadataConvert.cpp:104-114 | the index of the first table row whose Android value matches, or the table length when none does |
| MetadataConvert.GetAndroidValue | aal/MetadataConvert.cpp:92-102 | OK exactly when some row has the HAL value, giving the first match's Android value; otherwise BAD_VALUE with the output untouched |
| MetadataConvert.GetHalValue | aal/MetadataConvert.cpp:104-114 | OK exactly when some row has the Android value, giving the first match's HAL value; otherwise BAD_VALUE with the output untouched |
| MetadataConvert.HalAndroidHal | aal/MetadataConvert.cpp:92-114 | for a table whose Android column is distinct, HAL to Android to HAL is the identity on listed HAL values |
| MetadataConvert.AndroidHalAndroid | aal/MetadataConvert.cpp:92-114 | for a table whose HAL column is distinct, Android to HAL to Android is the identity on listed Android values |
| MetadataConvert.TablesRoundTrip | aal/MetadataConvert.cpp:44-90 | both round trips hold for the antibanding, AE, AWB, AF, AF-trigger, stabilization and effect tables |
| MetadataConvert.ConvertToMetadataRegion | aal/MetadataConvert.cpp:1614-1630 | 0 and nothing written when the data pointer is null or the count is below five per window; otherwise five ints per window and the count 5 x windows |
| MetadataConvert.ConvertToHalWindowAsWritten | aal/MetadataConvert.cpp:1595-1612 | as written: BAD_VALUE with an empty list for null data or a count not a multiple of five; otherwise only the first ceil(count/25) windows are read |
| MetadataConvert.HalWindowAsWrittenSingle | aal/MetadataConvert.cpp:1595-1612 | the as-written loop still inverts convertToMetadataRegion for zero or one window |
| MetadataConvert.HalWindowAsWrittenDropsSecond | aal/MetadataConvert.cpp:1603-1609 | with two windows the as-written loop returns only the first |
| MetadataConvert.UnflattenAt | aal/MetadataConvert.cpp:1603-1609 | the j-th window read back is the five ints starting at 5j |
| MetadataConvert.ConvertToHalWindow | aal/MetadataConvert.cpp:1595-1612 | corrected: BAD_VALUE with an empty list for null data or a bad count; otherwise every window, one per five ints |
| MetadataConvert.RegionRoundTrip | aal/MetadataConvert.cpp:1595-1630 | converting windows to metadata and back with the corrected reader yields the same windows |
| MetadataConvert.ListsMode | aal/MetadataConvert.cpp:333-343 | the AF support scan finds the mode exactly when it is in the available-modes entry |
| MetadataConvert.UpdateDefaultRequestSettings | aal/MetadataConvert.cpp:298-354 | sets the capture intent of the template; MANUAL turns control, AE, AWB and AF off, other templates use AUTO/ON/AUTO; AF is the template's preferred mode when available, else OFF; every other tag is kept |
| MetadataConvert.CaptureIntentMatchesTemplate | aal/MetadataConvert.cpp:300-307 | each of the six known templates maps to the intent of the same number; any other template maps to CUSTOM |
| MetadataConvert.ReportedModesRoundTrip | aal/MetadataConvert.cpp:776-790 | corrected: the reported stabilization and effect modes map back to the HAL setting that produced them |
| MetadataConvert.ReportedModesIgnoreSetting | aal/MetadataConvert.cpp:776-790 | as written the stabilization and effect results are looked up with the AWB mode, so they do not depend on the actual setting (ON reported as OFF, MONO as OFF) |
| MetadataConvert.MappedModes | aal/MetadataConvert.cpp:1001-1008 | the mapped list is no longer than the mode list |
| MetadataConvert.MappedModesMembers | aal/MetadataConvert.cpp:1001-1008 | a value is in the mapped list exactly when some listed HAL mode maps to it |
| MetadataConvert.ConvertModes | aal/MetadataConvert.cpp:1001-1008 | the mapping loop keeps only successfully mapped values, in order |
| MetadataConvert.FillModeList | aal/MetadataConvert.cpp:996-1013 | the list is written only when at least one mode maps; otherwise settings are unchanged |
| MetadataConvert.FlattenRanges | aal/MetadataConvert.cpp:1270-1278 | each range becomes (min, max) at positions 2i and 2i+1 |
| MetadataConvert.EntryPut | aal/MetadataConvert.cpp:1010 | updating one tag changes only that tag's entry |
| MetadataConvert.EntryPutNonEmpty | aal/MetadataConvert.cpp:1009-1011 | a guarded update changes only that tag, and only for a non-empty list |
| MetadataConvert.AeStaticUpdatesEntries | aal/MetadataConvert.cpp:984-1069 | the AE part of fillControlStaticMetadata, up to the compensation step, sets exactly the AE static tags to their entries |
| MetadataConvert.AfAwbStaticUpdatesEntries | aal/MetadataConvert.cpp:1071-1138 | the AF/AWB part sets exactly the remaining static control tags |
| MetadataConvert.StaticUpdatesEntries | aal/MetadataConvert.cpp:984-1138 | both parts together give every tag its static control entry |
| MetadataConvert.FillControlStaticMetadata | aal/MetadataConvert.cpp:984-1138 | every tag ends up with the entry the static control rules prescribe: the mode lists when non-empty after translation, the lock flags, effect and scene mode always, the fps ranges, compensation range and compensation step (numerator, denominator) when their getters succeed, every other tag unchanged |
| MetadataConvert.FirstOtherYuv | aal/MetadataConvert.cpp:1170-1180 | the first config with one of the listed non-NV12 YUV formats, or the list length |
| MetadataConvert.SelectImplementationDefined | aal/MetadataConvert.cpp:1163-1181 | NV12 when any config has it, else the first listed YUV format, else -1 |
| MetadataConvert.MatchesThumbnail | aal/MetadataConvert.cpp:1202-1210 | a size is skipped exactly when it equals one of the thumbnail sizes |
| MetadataConvert.AllEntries | aal/MetadataConvert.cpp:1195-1259 | configuration and stall lists are made of four-int records, one duration per configuration int |
| MetadataConvert.AllEntriesSnoc | aal/MetadataConvert.cpp:1195-1259 | processing one more config appends exactly that config's records |
| MetadataConvert.AppendConfigEntries | aal/MetadataConvert.cpp:1214-1258 | one config appends its implementation-defined, BLOB and YCbCr records and durations |
| MetadataConvert.FixedScalerEntries | aal/MetadataConvert.cpp:1147-1152 | the maximum digital zoom is 1.0 and the cropping type CENTER_ONLY; no other tag changes |
| MetadataConvert.ScalerLists | aal/MetadataConvert.cpp:1260-1262 | the three stream-configuration tags hold the lists built; zoom and cropping type keep their entries |
| MetadataConvert.FillScalerStaticMetadata | aal/MetadataConvert.cpp:1140-1262 | the maximum digital zoom (1.0) and the CENTER_ONLY cropping type are always written; with no configs nothing else changes; otherwise the three scaler tags also hold the records of every config of the chosen format |
| MetadataConvert.ConfigEntriesSound | aal/MetadataConvert.cpp:1214-1258 | every record a config adds is advertised by that config under the size rules |
| MetadataConvert.QuadKinds | aal/MetadataConvert.cpp:1216-1258 | each record carries the config's width and height and OUTPUT; an implementation-defined record needs size <= MAX_VIDEO_RES, BLOB or YCbCr needs size >= MIN_STILL_RES |
| MetadataConvert.QuadInPrefix | aal/MetadataConvert.cpp:1217-1221 | a record inside the earlier part is unchanged by appending |
| MetadataConvert.QuadInSuffix | aal/MetadataConvert.cpp:1217-1221 | a record past the earlier part is a record of the appended part |
| MetadataConvert.AdvertisedConfigsSound | aal/MetadataConvert.cpp:1195-1262 | every advertised record comes from a supported config of the chosen format that is not a thumbnail size |
| MetadataConvert.QuadOf | aal/MetadataConvert.cpp:1216-1258 | a format allowed by the size rules has its record among the config's records |
| MetadataConvert.QuadAfter | aal/MetadataConvert.cpp:1217-1221 | a record of the appended part sits at its offset after the earlier part |
| MetadataConvert.AdvertisedConfigsComplete | aal/MetadataConvert.cpp:1195-1262 | every non-thumbnail config of the chosen format is advertised in each format its size allows |
| MetadataConvert.ConfigEntriesQuad | aal/MetadataConvert.cpp:1214-1258 | a config of the chosen format gets a record for each format its size allows |
| MetadataConvert.ExposureFromRequest | aal/MetadataConvert.cpp:855-868 | an exposure is passed on only when AE is OFF and one value is present, converted ns to us by C++ division (truncation toward zero) |
| MetadataConvert.ExposureToResult | aal/MetadataConvert.cpp:887-894 | a reported exposure is converted us to ns by multiplying by 1000; no exposure leaves the result unchanged |
| MetadataConvert.ExposureRoundTrip | aal/MetadataConvert.cpp:855-894 | with AE OFF, reporting an exposure and reading it back as a request gives the same microseconds |
| CString.StrtolOf | src/platformdata/CameraProfiles.cpp:1474-1482 | strtol in base 10: the consumed prefix stays within the text, a value in long range, nothing consumed gives 0, and the reading stops before a digit |
| CString.StrtolIntStr | src/platformdata/CameraProfiles.cpp:1474-1482 | strtol reads a written long back in full, stopping at the first non-digit after it |
| CameraProfiles.SkipWhiteSpace | src/platformdata/CameraProfiles.cpp:2225-2231 | the loop stops exactly at the end of the prefix made of \n \t space \v \r \f |
| CameraProfiles.SkipBlanks | src/platformdata/CameraProfiles.cpp:2225-2231 | what is left after the blank prefix starts with no blank |
| CameraProfiles.ParsePair | src/platformdata/CameraProfiles.cpp:1470-1492 | a pair is returned only with a positive end position within the text; otherwise -1 (None) |
| CameraProfiles.ParsePairOf | src/platformdata/CameraProfiles.cpp:1470-1492 | when the delimiter directly follows the first integer, both integers and the position past the second are returned |
| CameraProfiles.ParsePairConcat | src/platformdata/CameraProfiles.cpp:1470-1492 | two numerals around the delimiter give both values and the combined length |
| CameraProfiles.ParsePairRoundTrip | src/platformdata/CameraProfiles.cpp:1470-1492 | writing two ints around a delimiter and parsing them back gives them again |
| CameraProfiles.Kept | src/platformdata/CameraProfiles.cpp:1530-1531 | a parsed pair contributes a size only when both sides are positive |
| CameraProfiles.SizesFromPositive | src/platformdata/CameraProfiles.cpp:1513-1537 | every size the list parser keeps has positive width and height |
| CameraProfiles.SizesFromStep | src/platformdata/CameraProfiles.cpp:1513-1537 | a comma after a pair continues the list after it |
| CameraProfiles.SizesFromLast | src/platformdata/CameraProfiles.cpp:1513-1537 | a pair at the end of the text ends the list |
| CameraProfiles.ParseSizesList | src/platformdata/CameraProfiles.cpp:1513-1537 | a null string adds nothing; otherwise exactly the kept sizes of the text are appended, in order |
| CameraProfiles.SizesFromAt | src/platformdata/CameraProfiles.cpp:1513-1537 | a pair followed by the end or by a comma and more items |
| CameraProfiles.SizesFromItem | src/platformdata/CameraProfiles.cpp:1513-1537 | a written positive size is read back as itself |
| CameraProfiles.SizesCons | src/platformdata/CameraProfiles.cpp:1513-1537 | a good size in front of a comma adds itself in front of what the rest yields |
| CameraProfiles.SizesKeepEarlier | src/platformdata/CameraProfiles.cpp:1513-1537 | sizes before a malformed tail are kept, followed by whatever the tail yields |
| CameraProfiles.SizesRoundTrip | src/platformdata/CameraProfiles.cpp:1513-1537 | positive sizes written as "WxH,WxH,..." parse back to the same list |
| CameraProfiles.NextElement | src/platformdata/CameraProfiles.cpp:719-731 | the element taken before the next comma holds no comma; the remaining text is shorter and starts with no blank |
| CameraProfiles.ElementsOfJoin | src/platformdata/CameraProfiles.cpp:719-792 | comma-free items joined with commas split back into the same items |
| CameraProfiles.ParseConfigAt | src/platformdata/CameraProfiles.cpp:733-741 | the format step either fails or consumes text (the walk makes progress) |
| CameraProfiles.ParseGeometry | src/platformdata/CameraProfiles.cpp:742-766 | the WxH, field and mcId steps either fail (missing x, end of text, negative id) or consume text |
| CameraProfiles.ParseFps | src/platformdata/CameraProfiles.cpp:767-786 | the optional "(video/capture)" element keeps the id and only consumes text; absent it the rates stay 30/30 |
| CameraProfiles.StreamConfigsStep | src/platformdata/CameraProfiles.cpp:697-816 | after one finished configuration the list is that configuration followed by the rest |
| CameraProfiles.ConfigCount | src/platformdata/CameraProfiles.cpp:733-815 | the returned count is 7 per configuration (1+2+1+1+2), 0 after an error |
| CameraProfiles.Store | src/platformdata/CameraProfiles.cpp:667-676 | the configuration is appended to its id's list, which starts empty; other ids keep theirs |
| CameraProfiles.AtoiIntStr | src/platformdata/CameraProfiles.cpp:902 | atoi reads a written int back |
| CameraProfiles.FpsTextItem | src/platformdata/CameraProfiles.cpp:767-786 | a written "(v/c)" element parses back to both rates |
| CameraProfiles.ParseConfigRendered | src/platformdata/CameraProfiles.cpp:697-816 | one written configuration parses back to itself and the list goes on after it |
| CameraProfiles.StreamConfigsCons | src/platformdata/CameraProfiles.cpp:697-816 | one more written configuration in front of a list that parses back |
| CameraProfiles.StreamConfigsRoundTrip | src/platformdata/CameraProfiles.cpp:697-816 | written configurations parse back in full, with a count of 7 per configuration |
| CameraProfiles.TuningModeByStr | src/platformdata/CameraProfiles.cpp:340-366 | the result is VIDEO or the mode whose name is the string |
| CameraProfiles.TuningModeNameRoundTrip | src/platformdata/CameraProfiles.cpp:340-366 | each of the ten names selects its own mode, so the names are distinct |
| CameraProfiles.FeaturesOf | src/platformdata/CameraProfiles.cpp:818-858 | at most one feature per name; unknown names add nothing |
| CameraProfiles.ParseSupportedFeatures | src/platformdata/CameraProfiles.cpp:818-858 | the recognised features of the comma list are appended in order |
| CameraProfiles.FeatureNameRoundTrip | src/platformdata/CameraProfiles.cpp:826-853 | each feature's name selects that feature |
| CameraProfiles.FeaturesOfNames | src/platformdata/CameraProfiles.cpp:818-858 | the names of features map back to the same features |
| CameraProfiles.FeaturesRoundTrip | src/platformdata/CameraProfiles.cpp:818-858 | a feature list written as comma-separated names parses back to itself |
| CameraProfiles.Strtok | src/platformdata/CameraProfiles.cpp:512-520 | strtok_r gives a non-empty comma-free token and a shorter remainder |
| CameraProfiles.StrtokTokens | src/platformdata/CameraProfiles.cpp:512-520 | the tokens the strtok_r loops visit are non-empty and comma-free |
| CameraProfiles.StrtokJoin | src/platformdata/CameraProfiles.cpp:512-520 | non-empty comma-free names joined by commas are exactly the visited tokens |
| CameraProfiles.ParseConfigMode | src/platformdata/CameraProfiles.cpp:501-523 | one config mode per token is appended, in order (END for unknown names) |
| CameraProfiles.IntRangeOf | src/platformdata/CameraProfiles.cpp:889-909 | one atoi value per token |
| CameraProfiles.ParseSupportedIntRange | src/platformdata/CameraProfiles.cpp:889-909 | exactly the atoi values of the tokens are appended |
| CameraProfiles.IntRangeRoundTrip | src/platformdata/CameraProfiles.cpp:889-909 | an int list written with commas parses back to itself |
| CameraProfiles.CarryModes | src/platformdata/CameraProfiles.cpp:962-988 | one mode per token: the named mode, or for an unknown name the previous mode (the initial one first) |
| CameraProfiles.AeModeByName | src/platformdata/CameraProfiles.cpp:962-988 | a recognised AE name gives an AE mode |
| CameraProfiles.AfModeByName | src/platformdata/CameraProfiles.cpp:990-1022 | a recognised AF name gives an AF mode |
| CameraProfiles.AntibandingModeByName | src/platformdata/CameraProfiles.cpp:1072-1102 | a recognised antibanding name gives an antibanding mode |
| CameraProfiles.StabilizationModeByName | src/platformdata/CameraProfiles.cpp:933-960 | a recognised stabilisation name gives a stabilisation mode |
| CameraProfiles.CarryModesWithin | src/platformdata/CameraProfiles.cpp:962-988 | every mode produced is the initial mode or one the lookup yields |
| CameraProfiles.ParseModeList | src/platformdata/CameraProfiles.cpp:962-988 | the shared loop appends exactly one carried mode per token |
| CameraProfiles.SupportedAeModes | src/platformdata/CameraProfiles.cpp:962-988 | one AE mode per token, all valid AE modes |
| CameraProfiles.SupportedAfModes | src/platformdata/CameraProfiles.cpp:990-1022 | one AF mode per token, all valid AF modes |
| CameraProfiles.SupportedAntibandingModes | src/platformdata/CameraProfiles.cpp:1072-1102 | one antibanding mode per token, all valid |
| CameraProfiles.SupportedStabilizationModes | src/platformdata/CameraProfiles.cpp:933-960 | one stabilisation mode per token, all valid |
| CameraProfiles.AeUnknownNameRepeats | src/platformdata/CameraProfiles.cpp:962-988 | an unknown AE name repeats the mode before it, or AUTO when it comes first; it is not an error |
| CameraProfiles.TuningConfigsOf | src/platformdata/CameraProfiles.cpp:431-460 | status 0 exactly when the tokens form whole triples, -1 otherwise; one configuration per whole triple, with its AIQB name |
| CameraProfiles.TuningConfigsAt | src/platformdata/CameraProfiles.cpp:431-460 | the status is 0 or -1 |
| CameraProfiles.ParseSupportedTuningConfig | src/platformdata/CameraProfiles.cpp:431-460 | the parsed configurations are appended and the status returned, earlier ones kept on error |
| CameraProfiles.TuningConfigsJoin | src/platformdata/CameraProfiles.cpp:431-460 | on blank-free names the parser reads whole triples of the token list |
| CameraProfiles.TuningConfigsAtStep | src/platformdata/CameraProfiles.cpp:442-458 | three tokens make one configuration, then blanks are skipped before the next |
| CameraProfiles.TuningModeBlankKept | src/platformdata/CameraProfiles.cpp:442-458 | a blank after the comma before a tuning mode stays in its token, so the mode falls back to VIDEO |
| CameraProfiles.GenericInts | src/platformdata/CameraProfiles.cpp:1995-2023 | between one and max(maxIndex,1) values; the first is always read |
| CameraProfiles.GenericIntsStep | src/platformdata/CameraProfiles.cpp:2017-2023 | an 'x' or ',' after a value continues the loop after it |
| CameraProfiles.GenericIntsLast | src/platformdata/CameraProfiles.cpp:2017-2023 | any other character, or a full buffer, ends the loop |
| CameraProfiles.ParseGenericInts | src/platformdata/CameraProfiles.cpp:1995-2023 | the do-while loop reads exactly the specified values |
| CameraProfiles.GenericUpdate | src/platformdata/CameraProfiles.cpp:2025-2053 | the stored count is the values read (half of them for rationals); bytes keep 8 bits, int32 keeps 32 bits |
| CameraProfiles.GenericIntsRoundTrip | src/platformdata/CameraProfiles.cpp:1995-2023 | integers written with commas are read back in full when the cache holds them |
| CameraProfiles.GenericUpdateRoundTrip | src/platformdata/CameraProfiles.cpp:1947-2054 | an int32 tag written as ints stores those ints; a rational tag stores half as many pairs |
| CameraProfiles.GenericUpdateByte | src/platformdata/CameraProfiles.cpp:2000-2003 | a byte tag keeps only the low eight bits of each value |
| CameraProfiles.ProfileParser.constructor | src/platformdata/CameraProfiles.cpp:39-60 | the parser starts outside any field with no sensor, no camera record and both flags clear |
| CameraProfiles.ProfileParser.CheckField | src/platformdata/CameraProfiles.cpp:77-122 | "Sensor" counts a sensor and, within MAX_CAMERA_NUMBER, opens a camera record and enters FIELD_SENSOR; "Common" enters FIELD_COMMON; "CameraSettings" resets; anything else changes nothing |
| CameraProfiles.ProfileParser.StartElement | src/platformdata/CameraProfiles.cpp:2064-2100 | outside a field the element goes to checkField; in a sensor MediaCtlConfig/StaticMetadata raise their flags, which route the handler (media control first); in Common the common handler runs |
| CameraProfiles.ProfileParser.EndElement | src/platformdata/CameraProfiles.cpp:2110-2146 | a matching end tag resets its own state; "Sensor" files the open camera record at currentSensor |
| CameraProfiles.ProfileParser.ParseStreamConfig | src/platformdata/CameraProfiles.cpp:697-816 | every configuration parsed before the end or an error is appended to configs and filed under its mcId; the count is 7 per configuration or 0 after an error |
| CameraProfiles.ConfigsOfAppend | src/platformdata/CameraProfiles.cpp:697-816 | the configurations of two runs of the loop concatenate |
| CameraProfiles.StoreAllAppend | src/platformdata/CameraProfiles.cpp:667-676 | filing a list in two parts files it as a whole |
| CameraProfiles.StoreInts | src/platformdata/CameraProfiles.cpp:2025-2053 | one stored value per value read, each converted to the tag's type |
| CameraProfiles.StoreInts32 | src/platformdata/CameraProfiles.cpp:2025-2053 | 32-bit values stored in an int32 or rational tag are stored unchanged |
| Utils.GetFourccFmt | src/iutils/Utils.cpp:53-54 | the four bytes packed most-significant first give a 32-bit code |
| Utils.FirstWithCode | src/iutils/Utils.cpp:174-185 | the first table row with the pixel code, or none exactly when no row has it |
| Utils.FirstWithName | src/iutils/Utils.cpp:187-200 | the first table row with the full name, or none exactly when no row has it |
| Utils.PixelCodeToString | src/iutils/Utils.cpp:174-185 | the full name of the first row with the code, or "INVALID FORMAT" |
| Utils.StringToPixelCode | src/iutils/Utils.cpp:187-200 | -1 for a null or unknown name; otherwise the pixel code of the first row with that name |
| Utils.PixelCodeRoundTrip | src/iutils/Utils.cpp:174-200 | with distinct names, string2PixelCode(pixelCode2String(c)) == c for every code in the table |
| Utils.GetBpp | src/iutils/Utils.cpp:265-276 | the bpp of the first row with the code, or -1 for an unlisted code |
| Utils.RawClassification | src/iutils/Utils.cpp:240-263 | isRaw holds exactly when the first row with the code is RAW or RAW_VEC, and isVectorRaw implies isRaw |
| Utils.Align64Int | src/iutils/Utils.cpp:282-289 | ALIGN_64 gives the least multiple of 64 not below its argument |
| Utils.GetStride | src/iutils/Utils.cpp:282-289 | the stride is a multiple of 64, within 64 above the width for planar formats and above width x bpp / 8 (C division) otherwise |
| Utils.GetFrameSize | src/iutils/Utils.cpp:308-333 | stride x buffer height without extra size (height aligned to 64 when asked, scaled by bpp/8 for planar formats); with extra size at least 1024 more, and at least one stride more for non-planar formats |
| Utils.UpToNul | src/iutils/Utils.cpp:202-210 | the string read back stops at the first NUL byte |
| Utils.ByteChar | src/iutils/Utils.cpp:205-206 | each printed character is the byte value modulo 256 |
| Utils.FourccToString | src/iutils/Utils.cpp:202-210 | the result is at most four characters long |
| Utils.FourccRoundTrip | src/iutils/Utils.cpp:53-54 | fourcc2String inverts GET_FOURCC_FMT for four non-NUL bytes |
| Utils.FormatToString | src/iutils/Utils.cpp:212-223 | the short name of the first row with the code, else the fourcc string |
| Utils.FormatToStringAsWritten | src/iutils/Utils.cpp:212-223 | a pointer into the table exactly for listed codes, naming the same short name; for every other code a pointer to the destroyed temporary |
| Utils.FormatToStringAsWrittenDangles | src/iutils/Utils.cpp:222 | with NV12 the only listed format, the code 'ABCD' gets the destroyed temporary as written, and "ABCD" as corrected |
| Utils.GetInterlaceHeight | src/iutils/Utils.cpp:390-396 | a single-field format halves the height (rounding down); any other field keeps it |
| Utils.PsysPipeClassesDisjoint | src/iutils/Utils.cpp:398-409 | HDR pipes are exactly VIDEO_HDR, VIDEO_HDR2 and VIDEO_HLC, ULL pipes exactly VIDEO_ULL and VIDEO_CUSTOM_AIC, and no mode is both |
| Utils.ConfigModeNamesRecognised | src/iutils/Utils.cpp:411-445 | each of the ten names maps to its own distinct mode, never END |
| Utils.ConfigModeUnknownNames | src/iutils/Utils.cpp:411-445 | null, "NONE" and any unlisted name give CONFIG_MODE_END |
| Utils.IndexOf | src/iutils/Utils.cpp:455-456 | the position of the first delimiter, or the length when there is none |
| Utils.Fields | src/iutils/Utils.cpp:453-464 | splitting at every delimiter gives at least one field |
| Utils.FieldsJoin | src/iutils/Utils.cpp:453-464 | joining the fields with the delimiter gives the input back, and no field contains the delimiter |
| Utils.IndexOfSnoc | src/iutils/Utils.cpp:657-661 | adding one character leaves an earlier delimiter position, or finds the new one |
| Utils.FieldsSnocDelim | src/iutils/Utils.cpp:657-661 | a trailing delimiter starts one new empty field |
| Utils.FieldsSnocOther | src/iutils/Utils.cpp:657-661 | another character extends the last field |
| Utils.SplitStep | src/iutils/Utils.cpp:657-661 | one step of the character loop keeps the token list equal to the fields read so far |
| Utils.SplitString | src/iutils/Utils.cpp:653-664 | the tokens are the delimiter-separated fields in order, without the empty field after a trailing delimiter (getline stops at end of input) |
| Utils.ModesOf | src/iutils/Utils.cpp:456-462 | one mode per name, in order, each from getConfigModeByName |
| Utils.GetConfigModeFromString | src/iutils/Utils.cpp:447-465 | appends one mode per comma-separated token, in order |
| PlatformData.GetMcConfByMcId | src/platformdata/PlatformData.cpp:488-501 | null for id -1 or when no config has the id; otherwise the first config with that id |
| PlatformData.GetMcConfByConfigMode | src/platformdata/PlatformData.cpp:529-550 | the first config listing the mode whose output size is 0x0 or equals the stream size, else null |
| PlatformData.FindStreamConfig | src/platformdata/PlatformData.cpp:510-517 | the stream-to-mc scan finds a config exactly when one matches the stream's format, field and size |
| PlatformData.GetMcConfByStream | src/platformdata/PlatformData.cpp:506-524 | the config whose id the stream-to-mc map gives the matching stream, via getMcConfByMcId |
| PlatformData.SelectionJustified | src/platformdata/PlatformData.cpp:465-483 | selectMcConf picks by mcId, then by config mode, then by stream; the choice satisfies one of those rules, and none is chosen exactly when all three lookups fail |
| PlatformData.SelectionPrefersId | src/platformdata/PlatformData.cpp:468-472 | when a config has the given mcId (not -1), it is chosen, the first such |
| PlatformData.Publish | src/platformdata/PlatformData.cpp:939-946 | each published selection adds the current offsets to the crop offsets |
| PlatformData.RunFailSticky | src/platformdata/PlatformData.cpp:907-916 | once the scan has failed with BAD_VALUE, further formats do not revive it |
| PlatformData.RunSnoc | src/platformdata/PlatformData.cpp:873-947 | the scan over one more format is one more step of the loop |
| PlatformData.ComposeScaling | src/platformdata/PlatformData.cpp:917-928 | a compose target sets the scaling numerators to floor(size x 10 / compose size) over the denominator 10 |
| PlatformData.DivBounds | src/platformdata/PlatformData.cpp:922-926 | integer division brackets the quotient |
| PlatformData.ComposeNeedsSizes | src/platformdata/PlatformData.cpp:907-916 | a compose target fails exactly when no pixel-array size is known yet or the compose width or height is 0 |
| PlatformData.CropOffsetsAccumulate | src/platformdata/PlatformData.cpp:894-899 | a crop target adds left and top times the binning to the crop offsets and sets the cropped width to width times binning |
| PlatformData.NonSelectionKeepsParams | src/platformdata/PlatformData.cpp:890-892 | once the pixel array is found, a non-selection format leaves the parameters unchanged |
| PlatformData.MatchingModes | src/platformdata/PlatformData.cpp:995-1000 | one copy of the mode per tuning config with that mode; empty exactly when none has it |
| PlatformData.AppendMatching | src/platformdata/PlatformData.cpp:995-1000 | the loop appends exactly the matching modes |
| PlatformData.MatchingTables | src/platformdata/PlatformData.cpp:307-325 | the indexes, ascending, of exactly the weight-grid tables of the given size |
| PlatformData.MatchingTablesGrow | src/platformdata/PlatformData.cpp:311-322 | matches in a prefix of the tables stay matches of the whole list |
| PlatformData.MatchingTablesPrefix | src/platformdata/PlatformData.cpp:311-322 | one more table adds its index exactly when its size matches |
| PlatformData.ScanFormats | src/platformdata/PlatformData.cpp:873-949 | OK exactly when the scan succeeds, with the parameters the scan computes; otherwise BAD_VALUE |
| PlatformData.StaticCameraInfo.constructor | src/platformdata/PlatformData.cpp:60-72 | a camera entry starts with the given configs and formats, no current config and empty tables |
| PlatformData.StaticCameraInfo.CurrentMc | src/platformdata/PlatformData.cpp:360-363 | the current media-control config, if one was selected |
| PlatformData.StaticCameraInfo.GetExposureNum | src/platformdata/PlatformData.cpp:216-230 | the HDR exposure count when HDR is on; otherwise 1 plus one for each enabled DOL short and medium node |
| PlatformData.StaticCameraInfo.VbpPredicates | src/platformdata/PlatformData.cpp:660-707 | outside HDR mode both VBP predicates are false; a fixed VBP >= 0 makes needSetVbp true and needHandleVbpInMetaData false; otherwise both hold exactly when dynamic offsets exist |
| PlatformData.StaticCameraInfo.GetStreamIdByConfigMode | src/platformdata/PlatformData.cpp:1061-1065 | -1 when the mode has no stream id, else its id |
| PlatformData.StaticCameraInfo.SelectMcConf | src/platformdata/PlatformData.cpp:465-483 | the current config becomes the selection result; nothing else changes |
| PlatformData.StaticCameraInfo.SelectISysFormat | src/platformdata/PlatformData.cpp:443-456 | the current config's format when set and not -1, else the requested format when supported, else the first supported format; the unguarded read of an empty supported list is reported as undefined, exactly in that case, and leaves the ISYS format alone |
| PlatformData.StaticCameraInfo.GetWeightGrid | src/platformdata/PlatformData.cpp:307-325 | the index-th (1-based) table of the given size, or null |
| PlatformData.StaticCameraInfo.GetConfigModesByOperationMode | src/platformdata/PlatformData.cpp:981-1007 | INVALID_OPERATION with no tuning configs; AUTO gives the auto list or the first tuning config's mode; other modes append the matching ones; OK exactly when the list is non-empty |
| PlatformData.StaticCameraInfo.CalculateFrameParams | src/platformdata/PlatformData.cpp:845-951 | scans the current config's formats (the first config when none is current): OK with the scan's frame parameters, or BAD_VALUE when a compose step fails |
| PlatformData.FrameStep | src/platformdata/PlatformData.cpp:873-937 | only a compose selection can end the scan with BAD_VALUE |
| CameraDevice.InsertOrdered | src/core/CameraDevice.cpp:619-630 | inserting a stream before the first smaller-area one keeps the ids in non-increasing area order, ties in arrival order |
| CameraDevice.InsertKeepsIds | src/core/CameraDevice.cpp:619-630 | after the insertion the list holds exactly the ids seen so far |
| CameraDevice.InsertionPoint | src/core/CameraDevice.cpp:621-628 | the insertion position is just before the first stream of strictly smaller area, or the end |
| CameraDevice.SortStreams | src/core/CameraDevice.cpp:602-631 | BAD_VALUE exactly when cropping is off and some stream is unsupported; on OK the ids list every stream once, by descending area |
| CameraDevice.PortOfRankAsWritten | src/core/CameraDevice.cpp:633-636 | as written the rank indexes a four-entry port table; ranks past it have no port |
| CameraDevice.FifthStreamReadsPastPorts | src/core/CameraDevice.cpp:285-287 | when MAX_STREAM_NUMBER exceeds four, a fifth stream passes the count check and its rank reads past the port table |
| CameraDevice.PortsByRank | src/core/CameraDevice.cpp:633-636 | the i-th largest stream gets the i-th port and only sorted ids get ports |
| CameraDevice.IsStillDuringVideo | src/core/CameraDevice.cpp:550-569 | true exactly when some stream has a video usage and some stream is still capture |
| CameraDevice.IsProcessorNeeded | src/core/CameraDevice.cpp:512-545 | true exactly when dewarping is on or some stream needs processing (crop on, or a size/format different from the producer for a non-alternate producer, or weaving for a non-ANY field) |
| CameraDevice.FindBuffer | src/core/CameraDevice.cpp:778-790 | the first user buffer of the stream from position j, failing on a rejected stream id met before it |
| CameraDevice.QueueOne | src/core/CameraDevice.cpp:784-786 | a stream's qbuf answer is the status; the buffer joins that stream's queue exactly when the answer is OK |
| CameraDevice.QueueFrom | src/core/CameraDevice.cpp:772-798 | queuing keeps one queue per stream |
| CameraDevice.QueueBuffers | src/core/CameraDevice.cpp:772-800 | the nested loop computes QueueFrom from stream 0 |
| CameraDevice.BufferFor | src/core/CameraDevice.cpp:778-790 | the first user buffer with the stream id, or none exactly when no buffer has it |
| CameraDevice.FindBufferFirst | src/core/CameraDevice.cpp:778-790 | when every id is accepted the search never fails and returns the first matching buffer, or none |
| CameraDevice.QueueAllValid | src/core/CameraDevice.cpp:772-800 | with all ids accepted, streams are queued in order, each its first user buffer or an empty one, up to the first stream whose qbuf fails: the status is that stream's answer, or OK when none fails, and the queues from that stream on are unchanged |
| CameraDevice.RejectedFirstBuffer | src/core/CameraDevice.cpp:781-782 | a first buffer with a bad stream id fails with BAD_VALUE before anything is queued, whatever the streams' qbuf would answer |
| CameraDevice.LateRejectedIdIgnored | src/core/CameraDevice.cpp:778-790 | a bad id after the match is never examined: queuing still succeeds when the stream accepts the buffer |
| CameraDevice.Device.constructor | src/core/CameraDevice.cpp:38-81 | a new device is UNINIT with no streams or port map |
| CameraDevice.Device.Init | src/core/CameraDevice.cpp:116-143 | on success the state becomes INIT; a failing unit leaves it |
| CameraDevice.Device.Deinit | src/core/CameraDevice.cpp:145-180 | a no-op in UNINIT; otherwise the state returns to UNINIT with no streams |
| CameraDevice.Device.Configure | src/core/CameraDevice.cpp:279-384 | BAD_VALUE for no streams or a count outside 1..MAX_STREAM_NUMBER (and above four ports), INVALID_OPERATION outside STOP/INIT; on OK the state is CONFIGURE with the streams sorted by area, ports by rank and empty queues |
| CameraDevice.Device.AnalyzeStream | src/core/CameraDevice.cpp:598-644 | BAD_VALUE with an empty port map exactly when cropping is off and a stream is unsupported; otherwise streams sorted by descending area and ports given by rank |
| CameraDevice.Device.Qbuf | src/core/CameraDevice.cpp:830-856 | in CONFIGURE or STOP a 3A start failure gives BAD_VALUE; otherwise the state becomes BUFFER_READY and the request status is returned |
| CameraDevice.Device.Start | src/core/CameraDevice.cpp:670-691 | BAD_VALUE unless BUFFER_READY with streams; OK and START exactly when the units start; otherwise INVALID_OPERATION and the state kept |
| CameraDevice.Device.Stop | src/core/CameraDevice.cpp:693-709 | always OK, the state becomes STOP |
| CameraDevice.Device.HandleQueueBuffer | src/core/CameraDevice.cpp:766-801 | BAD_VALUE before CONFIGURE; otherwise the queues follow QueueFrom; with valid ids, each stream gets its buffer or an empty one and the status is OK when every qbuf succeeds, and otherwise the first failing stream's answer is returned, with the earlier streams queued and the rest unchanged |
| DeviceBase.QueueBackRulesAgree | src/core/DeviceBase.cpp:364-387 | the main-device rule (skip count, error flag, failed sync check) ignores the port; with a port and no sync drop the DOL and ISA-raw rules (lines 438-456, 544-562) agree with it; with no port they always queue back |
| DeviceBase.NeedQueueBackCauses | src/core/DeviceBase.cpp:438-456 | a DOL or ISA-raw buffer goes back to the driver exactly when the device has no consumer port, the frame had an error and skipping on error is enabled, or frames are still being skipped |
| DeviceBase.Device.constructor | src/core/DeviceBase.cpp:32-47 | a new device has no port, sequence -1, the configured initial skip count and no buffers |
| DeviceBase.Device.CloseDevice | src/core/DeviceBase.cpp:66-78 | every buffer list is emptied |
| DeviceBase.Device.ResetBuffers | src/core/DeviceBase.cpp:175-185 | all allocated buffers become pending and none is in the device |
| DeviceBase.Device.Configure | src/core/DeviceBase.cpp:80-92 | the port is recorded; a failing pool gives NO_MEMORY; otherwise the pool is allocated and pending and nothing is in the device |
| DeviceBase.Device.StreamOn | src/core/DeviceBase.cpp:94-101 | the skip count is reset to the initial skip frames |
| DeviceBase.Device.AddPendingBuffer | src/core/DeviceBase.cpp:194-199 | the buffer is appended to the pending list |
| DeviceBase.Device.QueueBuffer | src/core/DeviceBase.cpp:110-132 | OK and nothing changes with no pending buffer; a prepare or driver failure returns that status with the lists kept; otherwise the head of the pending list moves to the device list and the predicted sequence grows by one; buffers are never lost or duplicated |
| DeviceBase.Device.PopBufferFromDevice | src/core/DeviceBase.cpp:231-245 | the head of the device list is removed, the latest sequence becomes its sequence, and it returns to pending when it must be queued back |
| DeviceBase.Device.DequeueBuffer | src/core/DeviceBase.cpp:134-166 | UNKNOWN_ERROR with an empty device list, BAD_VALUE for a failed dequeue; otherwise the head buffer takes the frame's sequence and error flag, is popped, goes back to pending when needQueueBack says so, and the skip count drops; OK exactly when the driver's index matches |
| DeviceBase.PredictionAdvances | src/core/DeviceBase.cpp:201-206 | queuing a pending buffer advances the predicted sequence by one |
| PipeExecutor.InputPairs | src/core/psysprocessor/PipeExecutor.cpp:760-779 | at most one input pair per connection |
| PipeExecutor.OutputPairs | src/core/psysprocessor/PipeExecutor.cpp:780-791 | at most one output pair per connection |
| PipeExecutor.InputPairsSound | src/core/psysprocessor/PipeExecutor.cpp:766-778 | every input pair is (sink terminal, source terminal) of an enabled connection whose sink stage is the first stage |
| PipeExecutor.InputPairsComplete | src/core/psysprocessor/PipeExecutor.cpp:766-778 | every enabled connection into the first stage contributes its input pair |
| PipeExecutor.ScanConnections | src/core/psysprocessor/PipeExecutor.cpp:760-792 | the connection loop collects the input and output pairs and raises the edge flags for edge connections |
| PipeExecutor.IsPortUsed | src/core/psysprocessor/PipeExecutor.cpp:817-838 | a port is used exactly when some terminal is mapped to it |
| PipeExecutor.FirstFreePort | src/core/psysprocessor/PipeExecutor.cpp:847-855 | the first of MAIN, SECOND, THIRD not yet used, or none when all three are used |
| PipeExecutor.Assign | src/core/psysprocessor/PipeExecutor.cpp:844-867 | port assignment ends OK or INVALID_OPERATION |
| PipeExecutor.PutFreeDistinct | src/core/psysprocessor/PipeExecutor.cpp:858 | mapping a terminal to an unused port keeps the ports distinct |
| PipeExecutor.AssignDistinct | src/core/psysprocessor/PipeExecutor.cpp:844-867 | assignment never maps two terminals to one port |
| PipeExecutor.AssignCovers | src/core/psysprocessor/PipeExecutor.cpp:844-867 | on OK every terminal of the pairs has a port and earlier mappings stay |
| PipeExecutor.FreePortWhenFew | src/core/psysprocessor/PipeExecutor.cpp:847-855 | with fewer than three mappings a free port exists |
| PipeExecutor.AssignSucceeds | src/core/psysprocessor/PipeExecutor.cpp:844-867 | assignment succeeds whenever existing mappings plus pairs number at most three |
| PipeExecutor.AssignPorts | src/core/psysprocessor/PipeExecutor.cpp:844-898 | the assignment loops compute Assign (input and output alike) |
| PipeExecutor.RebuildStepTraced | src/core/psysprocessor/PipeExecutor.cpp:238-246 | one producer entry adds only mappings traced to a pair whose peer is that producer terminal |
| PipeExecutor.RebuildInputPortsSound | src/core/psysprocessor/PipeExecutor.cpp:235-247 | every rebuilt input mapping takes the producer's port of the terminal's peer |
| PipeExecutor.RebuildInputs | src/core/psysprocessor/PipeExecutor.cpp:237-246 | the overwrite loop computes RebuildInputPorts from an empty map |
| PipeExecutor.FindPeer | src/core/psysprocessor/PipeExecutor.cpp:239-244 | the inner search finds the first pair whose peer is the producer terminal |
| PipeExecutor.TerminalStream | src/core/psysprocessor/PipeExecutor.cpp:256-286 | a terminal has a stream description exactly when some connection has it as its source (output) or sink (input) terminal |
| PipeExecutor.Streams | src/core/psysprocessor/PipeExecutor.cpp:256-286 | one stream lookup per mapped terminal, in order |
| PipeExecutor.DescribedCount | src/core/psysprocessor/PipeExecutor.cpp:270-271 | the count of described terminals never exceeds the terminals seen |
| PipeExecutor.DescribedCountBelow | src/core/psysprocessor/PipeExecutor.cpp:270-288 | a terminal without a stream makes the count fall short |
| PipeExecutor.DescribedCountAll | src/core/psysprocessor/PipeExecutor.cpp:270-288 | with every terminal described the count is full |
| PipeExecutor.FrameInfoStepKeys | src/core/psysprocessor/PipeExecutor.cpp:265 | recording a stream keeps the ports seen so far as keys |
| PipeExecutor.FrameInfoStepTrace | src/core/psysprocessor/PipeExecutor.cpp:265 | each recorded entry stays traced to a terminal with that stream |
| PipeExecutor.FrameInfoStepFresh | src/core/psysprocessor/PipeExecutor.cpp:265 | with distinct ports each port is recorded once |
| PipeExecutor.FrameInfoStepKeeps | src/core/psysprocessor/PipeExecutor.cpp:256-269 | one loop step keeps the frame-info invariant |
| PipeExecutor.FrameInfoDone | src/core/psysprocessor/PipeExecutor.cpp:256-269 | after the loop the frame info covers every mapped port |
| PipeExecutor.FewerKeysThanPorts | src/core/psysprocessor/PipeExecutor.cpp:270-271 | two terminals on one port leave fewer entries than mappings, so the size check fails |
| PipeExecutor.FrameInfo | src/core/psysprocessor/PipeExecutor.cpp:256-286 | the frame info maps each port to the stream of its terminal |
| PipeExecutor.StreamByUsage | src/core/psysprocessor/PipeExecutor.cpp:353-368 | STILL_STREAM_ID exactly for still capture, VIDEO_STREAM_ID otherwise |
| PipeExecutor.SameStreamConfigMeaning | src/core/psysprocessor/PipeExecutor.cpp:370-420 | same configuration implies the usage maps to the executor's stream and, for non-raw internal formats, equal format and width with the internal height at most 32 lines above |
| PipeExecutor.SameStreamConfigReflexive | src/core/psysprocessor/PipeExecutor.cpp:370-420 | a stream has the same configuration as itself when the usage matches |
| PipeExecutor.HasValidBuffers | src/core/psysprocessor/PipeExecutor.cpp:427-434 | true exactly when some port has a buffer |
| PipeExecutor.SkipWithoutOutput | src/core/psysprocessor/PipeExecutor.cpp:465-480 | processing goes on exactly when an output buffer exists; otherwise inputs are returned, or none for an input edge |
| PipeExecutor.CollectPgIds | src/core/psysprocessor/PipeExecutor.cpp:742-747 | the ids are collected up to the first PG without an id |
| PipeExecutor.Executor.constructor | src/core/psysprocessor/PipeExecutor.cpp:34-54 | a new executor has the connections and no ids, pairs, maps or frame info |
| PipeExecutor.Executor.AnalyzeConnections | src/core/psysprocessor/PipeExecutor.cpp:736-812 | INVALID_OPERATION without PGs; BAD_VALUE at the first PG without id, the earlier ids kept; otherwise pairs are rebuilt from the first and last stage, maps cleared, edge flags raised, and OK exactly when both pair lists are non-empty and within the port count |
| PipeExecutor.Executor.AssignInputPortsForTerminals | src/core/psysprocessor/PipeExecutor.cpp:844-867 | the input map becomes the Assign result, nothing else changes |
| PipeExecutor.Executor.AssignOutputPortsForTerminals | src/core/psysprocessor/PipeExecutor.cpp:873-898 | the output map becomes the Assign result, nothing else changes |
| PipeExecutor.Executor.SetInputTerminals | src/core/psysprocessor/PipeExecutor.cpp:233-292 | a non-edge executor rebuilds its input map from the producer; OK exactly when the map covers every pair and every mapped terminal (input and output) has a stream on distinct ports, and then every port has frame info |
| PSysProcessor.DecideFrame | src/core/PSysProcessor.cpp:663-690 | the pipe runs exactly when there is no setting sequence or the input has caught up; the input is held exactly when it is ahead of the setting; inputs go back to the producer exactly when the pipe does not run and the input is not held (the input is behind); outputs are popped exactly when the pipe runs and the frame is not skipped |
| PSysProcessor.MatchingInputIsConsumed | src/core/PSysProcessor.cpp:467-491 | an input whose sequence equals the setting sequence runs the pipe and is consumed, never held or returned |
| PSysProcessor.SettingSequenceOf | src/core/PSysProcessor.cpp:429-439 | -1 when no output has a buffer, otherwise the setting sequence of the first output with a buffer |
| PSysProcessor.GetSettingSequence | src/core/PSysProcessor.cpp:429-439 | the loop returns SettingSequenceOf |
| PSysProcessor.RecordSize | src/core/PSysProcessor.cpp:317 | a record takes header plus control size rounded up to a multiple of 8 |
| PSysProcessor.RequiredPalBufferSize | src/core/PSysProcessor.cpp:311-321 | the total is the sum of the record sizes of all supported controls |
| PSysProcessor.RecordsSizeSnoc | src/core/PSysProcessor.cpp:316-318 | one more control adds its record size |
| PSysProcessor.RecordsSizeRemove | src/core/PSysProcessor.cpp:316-318 | the total is any one record plus the total of the others |
| PSysProcessor.SubsetFits | src/core/PSysProcessor.cpp:348-371 | the records of distinct supported controls never exceed the required buffer size |
| PSysProcessor.FillStepKeeps | src/core/PSysProcessor.cpp:348-371 | each loop step keeps the written records within the buffer and distinct |
| PSysProcessor.FillFromKeeps | src/core/PSysProcessor.cpp:348-371 | the whole loop keeps that invariant |
| PSysProcessor.PalFillFits | src/core/PSysProcessor.cpp:326-384 | for distinct enabled ids the fill never hits its BAD_VALUE size check, ends within the required size, and writes each control once |
| PSysProcessor.FillFromWritesSetControls | src/core/PSysProcessor.cpp:348-371 | only supported controls the application has set are written |
| PSysProcessor.FillRecords | src/core/PSysProcessor.cpp:348-377 | the loop computes PalFill, including the default ACM record after a CCM without ACM |
| PSysProcessor.Processor.constructor | src/core/PSysProcessor.cpp:38-53 | a new processor has no updated or used PAL buffer and nothing in flight |
| PSysProcessor.Processor.AllocPalControlBuffers | src/core/PSysProcessor.cpp:413-424 | every PAL buffer gets the required size and no records |
| PSysProcessor.Processor.FillPalOverrideData | src/core/PSysProcessor.cpp:326-384 | the buffer after the used one (modulo the ring) is chosen when the updated one is in use; it receives the records, and its size becomes the written length, or stays the required size on BAD_VALUE |
| PSysProcessor.Processor.SelectPalOverride | src/core/PSysProcessor.cpp:750-755 | the used index follows the updated one when set; an override is passed exactly when the used buffer has data |
| PSysProcessor.Processor.NeedSwitchPipe | src/core/PSysProcessor.cpp:496-522 | no switch without a result or with an unchanged tuning mode; otherwise a switch exactly when some config mode has the new tuning mode, which becomes current with the first such config mode |
| PSysProcessor.Processor.PushInflight | src/core/PSysProcessor.cpp:731 | the dispatched sequence joins the back of the in-flight queue |
| PSysProcessor.Processor.OnFrameDone | src/core/PSysProcessor.cpp:845-857 | the oldest sequence leaves the queue, in order exactly when it matches the finished frame, and the drain signal fires exactly when the queue empties |
| PSysPipe.ExternalSourcesBefore | src/core/psysprocessor/PSysPipe.cpp:164-167 | the external source id handed to a connection never exceeds its position |
| PSysPipe.ExternalSinksBefore | src/core/psysprocessor/PSysPipe.cpp:187-190 | the external sink id handed to a connection never exceeds its position |
| PSysPipe.AssignExternalIds | src/core/psysprocessor/PSysPipe.cpp:160-190 | each connection from (to) stage 0 gets the next external source (sink) stage and terminal uid; others are unchanged |
| PSysPipe.ExternalSourcesIncrease | src/core/psysprocessor/PSysPipe.cpp:164-167 | later external sources get strictly larger local ids |
| PSysPipe.ExternalSinksIncrease | src/core/psysprocessor/PSysPipe.cpp:187-190 | later external sinks get strictly larger local ids |
| PSysPipe.ExternalIdsDistinct | src/core/psysprocessor/PSysPipe.cpp:160-190 | no two external sources, and no two external sinks, share an id |
| PSysPipe.AmendEdgeConnectionInfo | src/core/psysprocessor/PSysPipe.cpp:379-394 | a push connection loses its source stage and terminal, a pull connection its sink; others are unchanged; type and iterations are kept |
| PSysPipe.AmendIdempotent | src/core/psysprocessor/PSysPipe.cpp:379-394 | amending twice is the same as amending once |
| PSysPipe.PayloadSize | src/core/psysprocessor/PSysPipe.cpp:759-801 | a parameter buffer's size is its payload size; a frame whose format cannot be read gives 0; a raw frame gives height x bpl |
| PSysPipe.PayloadSizeYuv | src/core/psysprocessor/PSysPipe.cpp:780-796 | a vectorized YUV frame takes half the lines (at most height x bpl / 2), any other YUV frame height x bpl x 1.5 truncated |
| PSysPipe.MulMono | src/core/psysprocessor/PSysPipe.cpp:793-794 | multiplication by a natural number keeps order |
| PSysPipe.BuildFeedbackPairs | src/core/psysprocessor/PSysPipe.cpp:282-285 | one (stage uid, value) pair per PG, in order |
| PSysPipe.Contains | src/core/psysprocessor/PSysPipe.cpp:716-722 | the PG search finds the id exactly when it is in the pipe |
| PSysPipe.StageRecorded | src/core/psysprocessor/PSysPipe.cpp:731-738 | the stage search finds the uid exactly when some kernel already records it |
| PSysPipe.DecodeStageKeepsDistinct | src/core/psysprocessor/PSysPipe.cpp:700-743 | adding a decode stage keeps at most one non-SIS kernel per stage |
| PSysPipe.DecodeStageLookup | src/core/psysprocessor/PSysPipe.cpp:740-742 | a kernel of a PG in the pipe is recorded with that PG's stage when the stage is new or the kernel is SIS |
| PSysPipe.Pipe.constructor | src/core/psysprocessor/PSysPipe.cpp:41-54 | a new pipe has its PG ids and empty maps |
| PSysPipe.Pipe.SetTerminalConfig | src/core/psysprocessor/PSysPipe.cpp:351-371 | a disabled port changes nothing; otherwise the terminal's frame format is set from the port settings |
| PSysPipe.Pipe.SetCyclicFeedbackRoutineMaps | src/core/psysprocessor/PSysPipe.cpp:271-288 | OK and no change for an empty list; BAD_VALUE and no change when its length differs from the PG count; otherwise one (stage, routine) pair per PG |
| PSysPipe.Pipe.SetCyclicFeedbackDelayMaps | src/core/psysprocessor/PSysPipe.cpp:293-310 | OK and no change for an empty list; BAD_VALUE and no change on a length mismatch; otherwise one (stage, delay) pair per PG |
| PSysPipe.Pipe.Stop | src/core/psysprocessor/PSysPipe.cpp:131-137 | both feedback pair lists are cleared |
| PSysPipe.Pipe.AddDecodeStage | src/core/psysprocessor/PSysPipe.cpp:700-743 | the stats map becomes DecodeStageAdded: unchanged unless the kernel's PG is in the pipe and its stage is new or the kernel is SIS |
| PgRequirements.LowestFromIsLeast | src/core/pgprocessor/PGParamAdapt.cpp:546-555 | scanning upward from bit n stops at the least set bit at or above n |
| PgRequirements.Lowest | src/core/pgprocessor/PGParamAdapt.cpp:546-555 | the least kernel id set in a non-empty bitmap |
| PgRequirements.LowestExists | src/core/pgprocessor/PGParamAdapt.cpp:546-555 | the scan from bit 0 of a non-empty bitmap reaches a set bit, the least one |
| PgRequirements.LowestSetBit | src/core/pgprocessor/PGParamAdapt.cpp:546-555 | getKernelIdByBitmap's loop returns the least set kernel id |
| PgRequirements.Ascending | src/core/pgprocessor/PGParamAdapt.cpp:123-229 | the kernel ids visited by the prepare loop, one per set bit |
| PgRequirements.AscendingStep | src/core/pgprocessor/PGParamAdapt.cpp:123-229 | each iteration takes the least id and unsets it |
| PgRequirements.AscendingMembers | src/core/pgprocessor/PGParamAdapt.cpp:123-229 | the loop visits exactly the set kernel ids |
| PgRequirements.AscendingIncreasing | src/core/pgprocessor/PGParamAdapt.cpp:123-229 | the kernel ids are visited in strictly ascending order |
| PgRequirements.RunsPrefixShorter | src/core/pgprocessor/PGParamAdapt.cpp:655-682 | a prefix of the sections never produces more runs than the whole |
| PgRequirements.RunSlotsAsWritten | src/core/pgprocessor/PGParamAdapt.cpp:677-681 | as written the i-th run is stored at kernelOrder[i mod 256] (uint8_t counter) with no bound against the array |
| PgRequirements.StaircaseRuns | src/core/pgprocessor/PGParamAdapt.cpp:672-681 | sections of kernels 0, 1, ... each start a run of their own |
| PgRequirements.KernelOrderOverrun | src/core/pgprocessor/PGParamAdapt.cpp:655-682 | a manifest of n+1 sections of distinct consecutive kernels makes the builder store run n at slot n, past an n-entry order array |
| PgRequirements.RunsExpand | src/core/pgprocessor/PGParamAdapt.cpp:655-682 | expanding each run into its section count gives back the sections' kernel ids: consecutive sections of one kernel are merged |
| PgRequirements.ExpandSnoc | src/core/pgprocessor/PGParamAdapt.cpp:672-681 | expansion distributes over appending a run |
| PgRequirements.RepeatSnoc | src/core/pgprocessor/PGParamAdapt.cpp:673 | one more section repeats the id once more |
| PgRequirements.RunsTotalSize | src/core/pgprocessor/PGParamAdapt.cpp:674-679 | the run sizes add up to the sum of the sections' max memory sizes |
| PgRequirements.RunsAreWellFormed | src/core/pgprocessor/PGParamAdapt.cpp:672-681 | adjacent runs have different kernel ids and each has at least one section; the last run is the last section's kernel |
| PgRequirements.MergeWellFormed | src/core/pgprocessor/PGParamAdapt.cpp:672-681 | adding one section keeps the runs well formed |
| PgRequirements.RunIdsOfRuns | src/core/pgprocessor/PGParamAdapt.cpp:677 | the ids-only builder gives the same ids as the full runs |
| PgRequirements.CountOfType | src/core/pgprocessor/PGParamAdapt.cpp:732-739 | the number of terminals of the type before position i is at most i |
| PgRequirements.CountOfTypeGrows | src/core/pgprocessor/PGParamAdapt.cpp:732-739 | the count never decreases along the terminals |
| PgRequirements.TerminalEnumerateByType | src/core/pgprocessor/PGParamAdapt.cpp:727-742 | the index of the (num+1)-th terminal of the type, or -1 exactly when there are at most num of them |
| PgRequirements.EnumerateFirst | src/core/pgprocessor/PGParamAdapt.cpp:727-742 | for num 0 the result is the first terminal of the type |
| PgRequirements.TerminalEnumerateByBitmap | src/core/pgprocessor/PGParamAdapt.cpp:744-757 | the first terminal of the type with exactly the bitmap, or -1 exactly when there is none |
| PgRequirements.IsKernelIdInKernelOrder | src/core/pgprocessor/PGParamAdapt.cpp:759-777 | true when the terminal has no order; otherwise true exactly when some entry has the kernel id, with the first such index |
| PgRequirements.Occurrences | src/core/pgprocessor/PGParamAdapt.cpp:787-792 | the count is at most the order length |
| PgRequirements.OccurrencesPositive | src/core/pgprocessor/PGParamAdapt.cpp:787-792 | the count is positive exactly when the kernel occurs |
| PgRequirements.GetKernelCountFromKernelOrder | src/core/pgprocessor/PGParamAdapt.cpp:779-795 | 1 without an order, otherwise the number of entries with the kernel id; positive exactly when the kernel is in the order |
| PgRequirements.KernelCountPositive | src/core/pgprocessor/PGParamAdapt.cpp:759-795 | isKernelIdInKernelOrder agrees with a positive count |
| PgRequirements.WithKernelRequirements | src/core/pgprocessor/PGParamAdapt.cpp:797-831 | the kernel joins the bitmap and section count and payload size grow by count x the per-kernel amount for the terminal type |
| PgRequirements.OneMore | src/core/pgprocessor/PGParamAdapt.cpp:823-824 | one more loop iteration adds one more amount |
| PgRequirements.ProcessTerminalKernelRequirements | src/core/pgprocessor/PGParamAdapt.cpp:797-831 | the loop computes WithKernelRequirements, and the last payload size recorded is the new payload size when the kernel occurs at all |
| PGParamAdapt.GetKernelIdByBitmap | src/core/pgprocessor/PGParamAdapt.cpp:546-555 | BAD_VALUE exactly for the empty bitmap; otherwise OK with the least set kernel id |
| PGParamAdapt.BuildKernelOrder | src/core/pgprocessor/PGParamAdapt.cpp:646-725 | the order array is untouched and the type's error returned when there are no sections; otherwise it holds the runs of the sections followed by the untouched tail |
| PGParamAdapt.MergeSection | src/core/pgprocessor/PGParamAdapt.cpp:672-681 | one section either extends the last run or appends a run, and the count of runs follows |
| PGParamAdapt.RunsStep | src/core/pgprocessor/PGParamAdapt.cpp:655-682 | the runs of one more section are the merge of that section into the earlier runs |
| PGParamAdapt.KernelsOfIds | src/core/pgprocessor/PGParamAdapt.cpp:557-596 | a kernel is in a terminal's section bitmap exactly when some section names it |
| PGParamAdapt.SectionKernelBitmap | src/core/pgprocessor/PGParamAdapt.cpp:557-596 | the bitmap holds exactly the kernel ids of the sections |
| PGParamAdapt.PreparedTerminal | src/core/pgprocessor/PGParamAdapt.cpp:73-113 | the terminal takes its manifest type, gets an order list exactly for cached-in and program terminals, and keeps its counters |
| PGParamAdapt.NewKernelOrder | src/core/pgprocessor/PGParamAdapt.cpp:81-96 | a fresh order list is the runs followed by unused (0xFF) entries; the error only for a manifest without sections |
| PGParamAdapt.PrepareTerminal | src/core/pgprocessor/PGParamAdapt.cpp:73-113 | one terminal's requirements are set from its manifest; the order builder's error is returned for an ordered terminal without sections |
| PGParamAdapt.PreparedCount | src/core/pgprocessor/PGParamAdapt.cpp:73-113 | the terminal loop covers every terminal exactly when no ordered terminal lacks sections |
| PGParamAdapt.PreparedTerminals | src/core/pgprocessor/PGParamAdapt.cpp:73-113 | terminals up to the first failure are prepared, the others keep their previous requirements |
| PGParamAdapt.PrepareTerminals | src/core/pgprocessor/PGParamAdapt.cpp:73-113 | PG_OK when no ordered terminal lacks sections, otherwise the first such terminal's error; the requirements become PreparedTerminals |
| PGParamAdapt.CachedStep | src/core/pgprocessor/PGParamAdapt.cpp:140-198 | one cached-in, cached-out or program step keeps the shape of the per-kernel tables |
| PGParamAdapt.CachedBlock | src/core/pgprocessor/PGParamAdapt.cpp:140-198 | a failed state stays failed and a success keeps the tables' shape |
| PGParamAdapt.SpatialBlock | src/core/pgprocessor/PGParamAdapt.cpp:200-227 | the spatial blocks never fail and never change the per-kernel tables |
| PGParamAdapt.KernelStep | src/core/pgprocessor/PGParamAdapt.cpp:123-229 | one kernel iteration keeps the state well shaped |
| PGParamAdapt.Reconcile | src/core/pgprocessor/PGParamAdapt.cpp:146-160 | when the manifest's section count differs, the kernel's table takes it, the payload the larger size, and the order entry is marked for zeroing |
| PGParamAdapt.RunAddKernel | src/core/pgprocessor/PGParamAdapt.cpp:797-831 | adds the kernel's requirements to the terminal |
| PGParamAdapt.RunCachedBlock | src/core/pgprocessor/PGParamAdapt.cpp:140-198 | the cached block of the loop body computes CachedBlock |
| PGParamAdapt.RunSpatialBlock | src/core/pgprocessor/PGParamAdapt.cpp:200-227 | the spatial block of the loop body computes SpatialBlock |
| PGParamAdapt.ProcessKernel | src/core/pgprocessor/PGParamAdapt.cpp:124-228 | the loop body computes KernelStep |
| PGParamAdapt.KernelsStuck | src/core/pgprocessor/PGParamAdapt.cpp:123-229 | after a failure the remaining kernels change nothing |
| PGParamAdapt.KernelLoop | src/core/pgprocessor/PGParamAdapt.cpp:123-229 | the while loop visits the kernels in ascending order, one bit cleared per iteration, and computes Kernels over them |
| PGParamAdapt.SameLayoutRefl | src/core/pgprocessor/PGParamAdapt.cpp:123-229 | terminal types, orders' presence and lengths equal themselves |
| PGParamAdapt.SameLayoutTrans | src/core/pgprocessor/PGParamAdapt.cpp:123-229 | the layout relation chains across iterations |
| PGParamAdapt.ReconciledKeeps | src/core/pgprocessor/PGParamAdapt.cpp:146-160 | reconciling touches only the one order entry and the kernel's tables, no counter and no other terminal |
| PGParamAdapt.ReconciledAgrees | src/core/pgprocessor/PGParamAdapt.cpp:146-160 | afterwards the kernel's section count equals the manifest's; nothing changes when they agreed; otherwise the payload is the maximum and the entry is marked |
| PGParamAdapt.AddKernelEffect | src/core/pgprocessor/PGParamAdapt.cpp:797-831 | only terminal i changes: its bitmap gains k and its counters grow by count x the kernel's amounts |
| PGParamAdapt.CachedStepEffect | src/core/pgprocessor/PGParamAdapt.cpp:140-198 | the step fails with ia_err_internal exactly when no terminal has the type; on success only the first terminal of the type changes and, when the kernel is in its order, grows as processTerminalKernelRequirements says |
| PGParamAdapt.SpatialStepEffect | src/core/pgprocessor/PGParamAdapt.cpp:200-227 | nothing changes without a spatial terminal for the kernel; otherwise that terminal alone adds the kernel's sections and payload and gets the single-kernel bitmap |
| PGParamAdapt.FirstOfTypeSame | src/core/pgprocessor/PGParamAdapt.cpp:727-742 | enumeration by type gives the same answer on requirements with the same layout |
| PGParamAdapt.CountersGrowTrans | src/core/pgprocessor/PGParamAdapt.cpp:123-229 | section counts and payload sizes never decrease across iterations |
| PGParamAdapt.CachedBlockEffect | src/core/pgprocessor/PGParamAdapt.cpp:140-198 | a block fails exactly when the kernel has sections of the type and no terminal has it; otherwise counters only grow and the kernel's other section counts are kept |
| PGParamAdapt.SpatialBlockEffect | src/core/pgprocessor/PGParamAdapt.cpp:200-227 | the spatial block succeeds, keeps the layout and only grows counters |
| PGParamAdapt.KernelStepEffect | src/core/pgprocessor/PGParamAdapt.cpp:123-229 | an iteration succeeds exactly when every cached type the kernel needs has a terminal; a failure is ia_err_internal |
| PGParamAdapt.CachedBlocksEffect | src/core/pgprocessor/PGParamAdapt.cpp:140-198 | the three cached blocks succeed exactly when each needed terminal type exists |
| PGParamAdapt.SpatialBlocksEffect | src/core/pgprocessor/PGParamAdapt.cpp:200-227 | the two spatial blocks always succeed and only grow counters |
| PGParamAdapt.StepOkSame | src/core/pgprocessor/PGParamAdapt.cpp:123-229 | whether an iteration can succeed depends only on the layout |
| PGParamAdapt.KernelsEffect | src/core/pgprocessor/PGParamAdapt.cpp:123-229 | the loop succeeds exactly when every visited kernel's step can succeed; layout kept, counters only grow |
| PGParamAdapt.ZeroSizedMembers | src/core/pgprocessor/PGParamAdapt.cpp:604-635 | a kernel is disabled exactly when it belongs to a terminal whose payload size is zero |
| PGParamAdapt.DisableZeroSizedTerminals | src/core/pgprocessor/PGParamAdapt.cpp:598-644 | removes the kernels of zero-sized terminals; UNKNOWN_ERROR, bitmap unchanged, when a terminal index is out of range |
| PGParamAdapt.DisabledDataMembers | src/core/pgprocessor/PGParamAdapt.cpp:241-250 | a kernel is removed exactly when a listed disabled data terminal names it |
| PGParamAdapt.RemoveDisabledData | src/core/pgprocessor/PGParamAdapt.cpp:241-250 | the bitmap loses exactly the kernels of the disabled data terminals |
| PGParamAdapt.FinalBitmapMembers | src/core/pgprocessor/PGParamAdapt.cpp:232-256 | a kernel is in the final bitmap exactly when the manifest has it, p2p does not disable it, no disabled data terminal names it and no zero-sized terminal holds it |
| PGParamAdapt.PayloadSectionSizeSanityTest | src/core/pgprocessor/PGParamAdapt.cpp:833-937 | css_err_argument exactly for a type neither parameter nor frame; the size used is the larger of current and init for parameter types and 0 for frames; css_err_nomemory exactly when offset plus that size exceeds the buffer |
| PGParamAdapt.OrderItems | src/core/pgprocessor/PGParamAdapt.cpp:320-336 | the kernels encoded from an order list stop at the first unused id, so every id is below the kernel limit |
| PGParamAdapt.OrderItemsAgree | src/core/pgprocessor/PGParamAdapt.cpp:320-336 | when an unused entry ends the list the as-written scan and the bounded one agree |
| PGParamAdapt.FullOrderOverrun | src/core/pgprocessor/PGParamAdapt.cpp:322-327 | with every slot of the order list used, the as-written scan reads past its end |
| PGParamAdapt.EncodeItems | src/core/pgprocessor/PGParamAdapt.cpp:320-339 | the kernels encoded for a terminal, from its order list or its bitmap, all lie below the kernel limit |
| PGParamAdapt.AscendingAt | src/core/pgprocessor/PGParamAdapt.cpp:338 | every kernel visited in bitmap order is set in the bitmap |
| PGParamAdapt.BitmapItems | src/core/pgprocessor/PGParamAdapt.cpp:338-339 | bitmap-ordered kernels are encoded one each, with nothing to zero |
| PGParamAdapt.ZeroBeforeCheckOverrun | src/core/pgprocessor/PGParamAdapt.cpp:330-348 | as written the payload is zeroed for 16 bytes in a 1-byte buffer before the size check fails |
| PGParamAdapt.EncodeStep | src/core/pgprocessor/PGParamAdapt.cpp:328-447 | the offset and every zeroed range stay inside the buffer; a success follows a success |
| PGParamAdapt.EncodeStuck | src/core/pgprocessor/PGParamAdapt.cpp:348 | after an error no further kernel is encoded |
| PGParamAdapt.EncodeWithinBuffer | src/core/pgprocessor/PGParamAdapt.cpp:320-448 | encoding never moves the offset backwards or past the buffer, and on success zeroes one range per marked entry |
| PGParamAdapt.EncodeKernel | src/core/pgprocessor/PGParamAdapt.cpp:328-447 | one loop iteration computes EncodeStep |
| PGParamAdapt.EncodeKernels | src/core/pgprocessor/PGParamAdapt.cpp:303-448 | the encode loop computes EncodeFrom over the terminal's kernels |
| PGParamAdapt.EncodeOrder | src/core/pgprocessor/PGParamAdapt.cpp:320-336 | with an order list the loop encodes OrderItems |
| PGParamAdapt.EncodeBitmap | src/core/pgprocessor/PGParamAdapt.cpp:320-447 | without an order list the loop encodes the set kernels in ascending order |
| PGParamAdapt.EncodeBitmapAdvance | src/core/pgprocessor/PGParamAdapt.cpp:338-447 | encoding the bitmap is one step on the least kernel, then the bitmap without it |
| PGParamAdapt.EncodeBitmapStep | src/core/pgprocessor/PGParamAdapt.cpp:320-448 | encoding a list of kernels is a step on its head then the rest |
| PGParamAdapt.CachedBlockFits | src/core/pgprocessor/PGParamAdapt.cpp:140-198 | a cached block keeps every bitmap within the kernel limit |
| PGParamAdapt.SpatialBlockFits | src/core/pgprocessor/PGParamAdapt.cpp:200-227 | a spatial block keeps every bitmap within the kernel limit |
| PGParamAdapt.KernelStepFits | src/core/pgprocessor/PGParamAdapt.cpp:123-229 | an iteration keeps every bitmap within the kernel limit |
| PGParamAdapt.KernelsFit | src/core/pgprocessor/PGParamAdapt.cpp:123-229 | the whole loop keeps every bitmap within the kernel limit |
| PGParamAdapt.PreparedTerminalsFit | src/core/pgprocessor/PGParamAdapt.cpp:73-113 | the terminal loop keeps every bitmap within the kernel limit |
| PGParamAdapt.PrepareSpec | src/core/pgprocessor/PGParamAdapt.cpp:62-260 | a bitmap is produced exactly on PG_OK and is a subset of the manifest's kernels; nothing changes when the PAL data does not parse |
| PGParamAdapt.PrepareSpecOutcome | src/core/pgprocessor/PGParamAdapt.cpp:62-260 | prepare succeeds exactly when the PAL parses, no ordered terminal lacks sections and every enabled kernel finds its cached terminals; failures are the listed codes; on success a kernel is enabled exactly as the final-bitmap rule says |
| PGParamAdapt.PrepareParsed | src/core/pgprocessor/PGParamAdapt.cpp:73-256 | the body after a successful parse computes PrepareSpec |
| PGParamAdapt.FindTerminal | src/core/pgprocessor/PGParamAdapt.cpp:292-301 | the first process-group terminal with the index, or the terminal count when none has it |
| PGParamAdapt.ParamAdapter.constructor | src/core/pgprocessor/PGParamAdapt.cpp:25-34 | no configuration, cleared terminal requirements and per-kernel tables |
| PGParamAdapt.ParamAdapter.Init | src/core/pgprocessor/PGParamAdapt.cpp:43-60 | UNKNOWN_ERROR and no change when p2p cannot start; otherwise OK with the configuration stored |
| PGParamAdapt.ParamAdapter.Prepare | src/core/pgprocessor/PGParamAdapt.cpp:62-260 | the status, bitmap and new requirements are PrepareSpec of the old state; terminals beyond the count untouched |
| PGParamAdapt.ParamAdapter.Boundary | src/core/pgprocessor/PGParamAdapt.cpp:272 | the index bound is at most the terminal count and at most IPU_MAX_TERMINAL_COUNT |
| PGParamAdapt.ParamAdapter.GetPayloadSize | src/core/pgprocessor/PGParamAdapt.cpp:270-280 | OK with the terminal's payload size exactly for indices in [0, boundary), else UNKNOWN_ERROR |
| PGParamAdapt.ParamAdapter.Encode | src/core/pgprocessor/PGParamAdapt.cpp:282-451 | UNKNOWN_ERROR unless the index is in range and in the process group; otherwise the terminal's kernels encoded in order |
| PSysP2pLite.GetKernelIdByBitmap | src/core/psyslite/PSysP2pLite.cpp:56-64 | -1 exactly for the empty bitmap, otherwise the least set kernel id |
| PSysP2pLite.IdsOrder | src/core/psyslite/PSysP2pLite.cpp:436-440 | the order list keeps its length; the first entries take the run ids and keep their other fields, the rest are untouched |
| PSysP2pLite.IdsOrderSnoc | src/core/psyslite/PSysP2pLite.cpp:439-440 | recording one more run writes only the id of the next slot |
| PSysP2pLite.RunIdsNext | src/core/psyslite/PSysP2pLite.cpp:436-440 | a section repeating the previous kernel adds no entry, any other section appends its kernel id |
| PSysP2pLite.RunIdsPrefixShorter | src/core/psyslite/PSysP2pLite.cpp:422-441 | a prefix of the sections never records more ids than the whole |
| PSysP2pLite.RunIdsShape | src/core/psyslite/PSysP2pLite.cpp:422-441 | adjacent recorded ids differ and the ids are exactly the sections' kernels |
| PSysP2pLite.BuildKernelIds | src/core/psyslite/PSysP2pLite.cpp:413-474 | the type's error and an untouched array without sections; otherwise PG_OK with the run ids written over the array's ids |
| PSysP2pLite.LiteTerminal | src/core/psyslite/PSysP2pLite.cpp:139-166 | a cleared terminal of the manifest's type, with a full-length order list exactly for cached-in and program terminals, and the spatial kernel's bit for a spatial-in terminal |
| PSysP2pLite.PrepareLiteTerminal | src/core/psyslite/PSysP2pLite.cpp:139-166 | the order builder's error exactly for an ordered terminal without sections; the terminal becomes LiteTerminal |
| PSysP2pLite.LiteWritten | src/core/psyslite/PSysP2pLite.cpp:125-167 | the terminal loop writes at most the terminal count and at most IPU_MAX_TERMINAL_COUNT terminals, all of them when it succeeds |
| PSysP2pLite.LiteTerminals | src/core/psyslite/PSysP2pLite.cpp:124-167 | after the clear, written terminals are LiteTerminal and all others stay cleared |
| PSysP2pLite.PrepareLiteTerminals | src/core/psyslite/PSysP2pLite.cpp:124-167 | the terminal loop returns BAD_INDEX past IPU_MAX_TERMINAL_COUNT or the first order error, and leaves LiteTerminals |
| PSysP2pLite.LiteTerminalsFit | src/core/psyslite/PSysP2pLite.cpp:124-167 | every bitmap written stays within the kernel limit |
| PSysP2pLite.LiteKernelStep | src/core/psyslite/PSysP2pLite.cpp:178-240 | one kernel iteration keeps the state well shaped |
| PSysP2pLite.ProcessLiteKernel | src/core/psyslite/PSysP2pLite.cpp:178-240 | the loop body computes LiteKernelStep |
| PSysP2pLite.LiteKernelsStuck | src/core/psyslite/PSysP2pLite.cpp:177-241 | after a failure the remaining kernels change nothing |
| PSysP2pLite.LiteKernelLoop | src/core/psyslite/PSysP2pLite.cpp:177-241 | the loop visits the kernels in ascending order, clearing one bit per iteration |
| PSysP2pLite.LiteKernelStepEffect | src/core/psyslite/PSysP2pLite.cpp:178-240 | an iteration succeeds exactly when the cached-in and program terminals it needs exist; failures are ia_err_internal; counters only grow |
| PSysP2pLite.LiteStepOkSame | src/core/psyslite/PSysP2pLite.cpp:197-216 | whether an iteration can succeed depends only on the terminal layout |
| PSysP2pLite.LiteKernelsEffect | src/core/psyslite/PSysP2pLite.cpp:177-241 | the loop succeeds exactly when every visited kernel's iteration can |
| PSysP2pLite.LiteKernelStepFits | src/core/psyslite/PSysP2pLite.cpp:178-240 | an iteration keeps every bitmap within the kernel limit |
| PSysP2pLite.LiteKernelsFit | src/core/psyslite/PSysP2pLite.cpp:177-241 | the loop keeps every bitmap within the kernel limit |
| PSysP2pLite.LitePrepareSpec | src/core/psyslite/PSysP2pLite.cpp:117-244 | prepareRequirements leaves IPU_MAX_TERMINAL_COUNT terminals with bitmaps within the kernel limit |
| PSysP2pLite.LiteHasType | src/core/psyslite/PSysP2pLite.cpp:139-166 | the prepared terminals have a type exactly when the manifest does |
| PSysP2pLite.LiteStepReady | src/core/psyslite/PSysP2pLite.cpp:197-216 | an iteration over the prepared terminals can succeed exactly when the manifest has the terminals the kernel needs |
| PSysP2pLite.AllReady | src/core/psyslite/PSysP2pLite.cpp:177-241 | every visited kernel can succeed exactly when every kernel in the bitmap is ready (both directions) |
| PSysP2pLite.LiteKernelsKeepTypes | src/core/psyslite/PSysP2pLite.cpp:169-241 | after the terminal loop the kernel loop succeeds exactly when every enabled kernel is ready, and keeps the terminal types |
| PSysP2pLite.LitePrepareOutcome | src/core/psyslite/PSysP2pLite.cpp:117-244 | OK exactly when the terminals fit, none lacks sections and every enabled kernel is ready; failures are the listed codes; on success the terminals carry the manifest types and the rest are cleared |
| PSysP2pLite.OrderIds | src/core/psyslite/PSysP2pLite.cpp:321-328 | the kernels encoded from an order list are its leading ids below the kernel limit |
| PSysP2pLite.OrderIdsAsWritten | src/core/psyslite/PSysP2pLite.cpp:321-328 | the scan without an end bound agrees with OrderIds whenever it stays inside the list |
| PSysP2pLite.FullLiteOrderOverrun | src/core/psyslite/PSysP2pLite.cpp:321-328 | with every order slot used, the as-written scan reads past the list |
| PSysP2pLite.OrderIdsOfIds | src/core/psyslite/PSysP2pLite.cpp:321-328 | reading an order list built from ids gives those ids back |
| PSysP2pLite.LiteOrderRoundTrip | src/core/psyslite/PSysP2pLite.cpp:139-159 | encode visits exactly the run ids the prepare step recorded |
| PSysP2pLite.EncodeWalkMeaning | src/core/psyslite/PSysP2pLite.cpp:321-389 | the walk encodes a prefix of the kernels; ia_err_general exactly when a kernel fails, stopping at the first failing one |
| PSysP2pLite.EncodeLiteOrder | src/core/psyslite/PSysP2pLite.cpp:321-389 | with an order list the loop reads ids until one is not a kernel; it returns the walk over OrderIds (ia_err_argument with no call for a type the encoder does not handle, ia_err_general at the first rejected kernel) and makes exactly the encoder calls CallsOf names, each at the running section and offset |
| PSysP2pLite.WalkGoesOn | src/core/psyslite/PSysP2pLite.cpp:385-388 | a kernel that encodes moves the walk on |
| PSysP2pLite.WalkFails | src/core/psyslite/PSysP2pLite.cpp:385-388 | a failing kernel stops the walk with ia_err_general |
| PSysP2pLite.WalkEnds | src/core/psyslite/PSysP2pLite.cpp:321-389 | an exhausted walk is PG_OK |
| PSysP2pLite.EncodeLiteBitmap | src/core/psyslite/PSysP2pLite.cpp:321-389 | without an order list the loop takes the lowest set kernel and clears its bit; it returns the walk over the kernels in ascending order and makes exactly the encoder calls CallsOf names |
| PSysP2pLite.PrepareLite | src/core/psyslite/PSysP2pLite.cpp:117-244 | the method computes LitePrepareSpec |
| PSysP2pLite.P2pLite.constructor | src/core/psyslite/PSysP2pLite.cpp:26-39 | cleared requirements, no manifest and no kernel group |
| PSysP2pLite.P2pLite.SetManifest | src/core/psyslite/PSysPipeBase.cpp:579-580 | stores the manifest and changes nothing else |
| PSysP2pLite.P2pLite.SetKernelConfig | src/core/psyslite/PSysP2pLite.cpp:66-79 | copies the kernels; the array is reused only when present with the same count, otherwise freshly allocated |
| PSysP2pLite.P2pLite.PrepareRequirements | src/core/psyslite/PSysP2pLite.cpp:117-244 | status and new requirements are LitePrepareSpec of the old state |
| PSysP2pLite.P2pLite.GetPayloadSize | src/core/psyslite/PSysP2pLite.cpp:246-256 | OK with the payload size exactly for indices in [0, IPU_MAX_TERMINAL_COUNT), else BAD_INDEX |
| PSysP2pLite.P2pLite.Encode | src/core/psyslite/PSysP2pLite.cpp:279-411 | UNKNOWN_ERROR when the process group has no such terminal, then BAD_INDEX out of range, then the program-terminal init error; otherwise the terminal's kernels are handed to the encoder in visiting order, each at the section and payload offset where the kernels before it end, and the payload buffer is reset exactly when the status is OK |
| PSysP2pLite.ReadyFromVisited | src/core/psyslite/PSysP2pLite.cpp:177-241 | every visited kernel proceeding makes every kernel of the bitmap ready |
| PSysP2pLite.VisitedFromReady | src/core/psyslite/PSysP2pLite.cpp:177-241 | every kernel of the bitmap ready makes every visited kernel proceed |
| PSysP2pLite.Placements | src/core/psyslite/PSysP2pLite.cpp:336-380 | encode calls the encoder once per kernel visited |
| PSysP2pLite.PlacementAt | src/core/psyslite/PSysP2pLite.cpp:308-380 | the call for the kernel at position i starts at the sections and payload of the kernels before it added up |
| PSysP2pLite.PlacementsBackToBack | src/core/psyslite/PSysP2pLite.cpp:308-380 | the calls name the kernels in turn; the first starts at section and offset 0 and each next one where the previous kernel's section count and payload size end, per terminal type |
| PSysP2pLite.PlacementsSnoc | src/core/psyslite/PSysP2pLite.cpp:336-380 | one more kernel adds one call at the running totals and moves both totals by its amounts |
| PSysP2pLite.PlacedStep | src/core/psyslite/PSysP2pLite.cpp:336-380 | calling the encoder and moving curSection and curOffset past the kernel keeps the calls and counters in step with the kernels handed over |
| PSysP2pLite.WalkingStarts | src/core/psyslite/PSysP2pLite.cpp:308-309 | before the loop nothing is handed over, no call is made and both counters are 0 |
| PSysP2pLite.WalkingStep | src/core/psyslite/PSysP2pLite.cpp:335-388 | an accepted kernel joins those handed over and the counters move past it |
| PSysP2pLite.WalkingRejects | src/core/psyslite/PSysP2pLite.cpp:385-388 | a rejected kernel ends encode with ia_err_general, its call included |
| PSysP2pLite.WalkingEnds | src/core/psyslite/PSysP2pLite.cpp:321-389 | when no kernel is left encode returns PG_OK with every call made |
| PSysP2pLite.EncodeKernel | src/core/psyslite/PSysP2pLite.cpp:335-388 | one pass of the loop body: one call at the current section and offset, both counters advanced by the kernel's amounts for the type; accepted exactly when the encoder does not reject the kernel |
| PSysP2pLite.UnencodableType | src/core/psyslite/PSysP2pLite.cpp:381-383 | a terminal type other than cached-in, program or spatial-in gives ia_err_argument before any encoder call |
| PSysP2pLite.OrderIdsScan | src/core/psyslite/PSysP2pLite.cpp:321-328 | OrderIds is the order list read entry by entry until its end or the first id that is not a kernel |
| PSysP2pLite.ScanStep | src/core/psyslite/PSysP2pLite.cpp:323-328 | an entry naming a kernel is read and the scan goes on after it |
| PSysP2pLite.ScanEnd | src/core/psyslite/PSysP2pLite.cpp:321-328 | nothing is left to read exactly when the list has ended or its next entry is not a kernel |
| PSysP2pLite.LiteVisit | src/core/psyslite/PSysP2pLite.cpp:321-333 | with an order list the visited kernels are all below the kernel limit; without one they are exactly the bitmap's kernels, in strictly ascending order |
| PSysP2pLite.LiteEncodeSpec | src/core/psyslite/PSysP2pLite.cpp:321-409 | ia_err_argument exactly for a terminal type the encoder does not handle; PG_OK exactly when the type is handled and no kernel is rejected; the kernels handed over are a prefix of those visited |
| PSysPipeBase.GetCssFmt | src/core/psyslite/PSysPipeBase.cpp:46-56 | the loop returns the table's CSS format for the V4L2 format, IA_CSS_N_FRAME_FORMAT_TYPES when the table lacks it |
| PSysPipeBase.FormatMappingDistinct | src/core/psyslite/PSysPipeBase.cpp:34-44 | the format table maps each V4L2 format once and no two to the same CSS format |
| PSysPipeBase.CssFmtTable | src/core/psyslite/PSysPipeBase.cpp:46-56 | a format is supported exactly when it is in the table, and then maps to its table entry |
| PSysPipeBase.CssFmtInjective | src/core/psyslite/PSysPipeBase.cpp:34-56 | two V4L2 formats with the same supported CSS format are equal |
| PSysPipeBase.StrnEqualPrefix | src/core/psyslite/PSysPipeBase.cpp:189-192 | strncmp with the length of the literal compares equal exactly when the literal is a prefix of the model string |
| PSysPipeBase.PlatformChoice | src/core/psyslite/PSysPipeBase.cpp:188-206 | "ipu4p" models give CNL B0; BXT B0 exactly for other "ipu4" models with 'B' at position 13; every other model is rejected |
| PSysPipeBase.SearchManifestMeaning | src/core/psyslite/PSysPipeBase.cpp:213-262 | the search stops at the first fetched non-empty manifest of the program group after passing over the others; BAD_VALUE exactly when every slot is passed over; otherwise UNKNOWN_ERROR |
| PSysPipeBase.RegisterEffect | src/core/psyslite/PSysPipeBase.cpp:373-435 | a registered key maps to the returned buffer, nothing changes when creation fails for a new key, other keys keep their mapping |
| PSysPipeBase.CachedAppend | src/core/psyslite/PSysPipeBase.cpp:386-389 | appending a mapping only affects a key not yet cached |
| PSysPipeBase.FirstFromAppend | src/core/psyslite/PSysPipeBase.cpp:377-381 | the first match in the extended list is the old first match, or the new entry when there was none |
| PSysPipeBase.RegisterTwice | src/core/psyslite/PSysPipeBase.cpp:373-435 | registering a key a second time returns the cached buffer and changes nothing |
| PSysPipeBase.LookupMapping | src/core/psyslite/PSysPipeBase.cpp:377-381 | the loop finds the first cached mapping of the key |
| PSysPipeBase.PipeBase.constructor | src/core/psyslite/PSysPipeBase.cpp:107-122 | no buffers, no program groups, no platform or manifest, no terminals and an empty kernel bitmap |
| PSysPipeBase.PipeBase.GetCapability | src/core/psyslite/PSysPipeBase.cpp:175-207 | UNKNOWN_ERROR without capabilities; otherwise the program group count is stored, and OK with the platform exactly when the model string is known, else BAD_VALUE |
| PSysPipeBase.PipeBase.GetManifest | src/core/psyslite/PSysPipeBase.cpp:209-265 | on a found manifest its terminal count and kernel bitmap are stored with OK; otherwise the search's error and nothing changes |
| PSysPipeBase.PipeBase.RegisterKey | src/core/psyslite/PSysPipeBase.cpp:377-391 | the cache and result follow Register |
| PSysPipeBase.PipeBase.RegisterUserPtr | src/core/psyslite/PSysPipeBase.cpp:373-392 | null on a non-positive size or null pointer, else the pointer is looked up or registered |
| PSysPipeBase.PipeBase.RegisterUserFd | src/core/psyslite/PSysPipeBase.cpp:394-413 | null on a non-positive size or negative fd, else the fd is looked up or registered |
| PSysPipeBase.PipeBase.RegisterRegion | src/core/psyslite/PSysPipeBase.cpp:415-435 | null on a non-positive size, null base or negative offset, else the base buffer is looked up or registered |
| PSysPipeBase.PipeBase.RegisterCameraBuffer | src/core/psyslite/PSysPipeBase.cpp:437-450 | DMA buffers register by fd, others by address, each only when valid |
| PSysScale.RunKernelsPsysScale | src/core/psyslite/ScalePipeline.cpp:34-111 | the kernel table as initialised is wired to the two records and its three croppers all use the 720p record |
| PSysScale.RunKernelsOwnRecords | src/core/psyslite/ScalePipeline.cpp:45-111 | a table with a record per cropper and output scaler is wired and has no shared record |
| PSysScale.OutputPorts | src/core/psyslite/ScalePipeline.cpp:248-261 | the first n output ports in the order the port map is visited |
| PSysScale.OutputCount | src/core/psyslite/ScalePipeline.cpp:432 | one to three outputs, exactly on the first ports |
| PSysScale.OutputCountIsSize | src/core/psyslite/ScalePipeline.cpp:432 | the number of outputs is the size of the output map |
| PSysScale.DmaRecord | src/core/psyslite/ScalePipeline.cpp:249-260 | a port's cropper record is one of the records |
| PSysScale.OwnRecordsApart | src/core/psyslite/ScalePipeline.cpp:249-260 | with records of their own, different ports and a port's scaler and cropper never share a record |
| PSysScale.AlignEven | src/core/psyslite/ScalePipeline.cpp:313-314 | ALIGN(x, 2) is the least even number not below x |
| PSysScale.CentreCrop | src/core/psyslite/ScalePipeline.cpp:312-317 | the four margins and the output add up to the input in each direction, left and top are even, and for a smaller output the crop is centred within two pixels |
| PSysScale.PortStep | src/core/psyslite/ScalePipeline.cpp:263-317 | configuring one port keeps the number of records |
| PSysScale.CropFold | src/core/psyslite/ScalePipeline.cpp:248-339 | configuring the ports in order keeps the number of records |
| PSysScale.OwnRecordsConfigured | src/core/psyslite/ScalePipeline.cpp:248-403 | with records of their own, every port ends with its scaler set from the source and its cropper set from that scaler output, or the source, to its frame |
| PSysScale.SharedCropperRecord | src/core/psyslite/ScalePipeline.cpp:73-93 | in the table as written every port's cropper is the one 720p record |
| PSysScale.SharedCropperOverwritten | src/core/psyslite/ScalePipeline.cpp:248-339 | as written, a 1280x720 main output and a 640x480 second output leave the main output's cropper configured for 640 pixels |
| PSysScale.Identity | src/core/psyslite/ScalePipeline.cpp:428-430 | every output port maps to itself and the other entries are kept |
| PSysScale.RoutesEvery | src/core/psyslite/ScalePipeline.cpp:426-450 | a map routes the outputs exactly when every output is mapped to an output |
| PSysScale.Routed | src/core/psyslite/ScalePipeline.cpp:244-260 | each output port's path produces the frame of the output the scale map sends it to |
| PSysScale.Swapped | src/core/psyslite/ScalePipeline.cpp:432-448 | the output exchanged with SECOND_PORT has the source size and is not SECOND_PORT, and SECOND_PORT has an output |
| PSysScale.ScaleMapPermutes | src/core/psyslite/ScalePipeline.cpp:426-450 | the scale map is a permutation of the outputs that exchanges only the chosen full-size output with SECOND_PORT |
| PSysScale.ScaleMapRoutes | src/core/psyslite/ScalePipeline.cpp:426-450 | the scale map routes every output to an output |
| PSysScale.ExchangePermutes | src/core/psyslite/ScalePipeline.cpp:444-445 | exchanging one member with SECOND_PORT in an identity map gives a permutation |
| PSysScale.SwappedIsFirst | src/core/psyslite/ScalePipeline.cpp:432-448 | the exchanged output is the first full-size one other than SECOND_PORT; none is exchanged exactly with one output or no such output |
| PSysScale.KernelsWithFormat | src/core/psyslite/ScalePipeline.cpp:406-421 | the format loop keeps the number of kernels |
| PSysScale.KernelsWithFormatKeeps | src/core/psyslite/ScalePipeline.cpp:406-421 | only the second metadata word changes, to the format's code when the format is I420, NV12 or NV21; uuids and records stay |
| PSysScale.PreparedFormats | src/core/psyslite/ScalePipeline.cpp:460-478 | prepare keeps the length of the format list |
| PSysScale.PreparedFormatsMatchBuffers | src/core/psyslite/ScalePipeline.cpp:460-478 | each of the four terminals gets the CSS format of the frame whose buffer is registered for it, other entries kept |
| PSysScale.KernelMaskBits | src/core/psyslite/ScalePipeline.cpp:468-478 | kernels 0-7 always, kernel 8 from two outputs and kernel 9 from three |
| PSysScale.ParamFor | src/core/psyslite/ScalePipeline.cpp:153-162 | a terminal is described with the frame's size as whole fragment, its bpp and stride, offset 0 and origin index |
| PSysScale.TerminalFrameMismatch | src/core/psyslite/ScalePipeline.cpp:144-151 | as written, with three different outputs _PUT_MAIN is described with the display frame while its buffer is the second output's |
| PSysScale.TerminalFrame | src/core/psyslite/ScalePipeline.cpp:142-151 | the frame of each terminal is the one whose buffer is registered: the source before _PUT_DISPLAY, the routed outputs after |
| PSysScale.TerminalFrameAsWrittenAgrees | src/core/psyslite/ScalePipeline.cpp:142-151 | the as-written and corrected descriptions differ only for _PUT_MAIN with three outputs |
| PSysScale.PayloadsUpTo | src/core/psyslite/ScalePipeline.cpp:178-201 | the payload loop keeps the number of payloads and never moves the allocator back |
| PSysScale.PayloadsStuck | src/core/psyslite/ScalePipeline.cpp:181-199 | after a failure the loop changes nothing more |
| PSysScale.PayloadsReallocOnResize | src/core/psyslite/ScalePipeline.cpp:186-195 | a payload's buffer changes only when it had none or the reported size differs; its size is the last reported one |
| PSysScale.PayloadsUntouchedAhead | src/core/psyslite/ScalePipeline.cpp:178-201 | payloads of terminals not reached are untouched |
| PSysScale.PayloadsRegistered | src/core/psyslite/ScalePipeline.cpp:178-201 | the cache stays valid, errors are BAD_INDEX or NO_MEMORY, and on success every non-empty payload has a CIPR buffer |
| PSysScale.RegisterFrames | src/core/psyslite/ScalePipeline.cpp:203-229 | frame registration leaves the payloads and allocator alone |
| PSysScale.RegisterFramesValid | src/core/psyslite/ScalePipeline.cpp:203-229 | the cache stays valid and on success every registered terminal has a buffer |
| PSysScale.RegisterFramesStatus | src/core/psyslite/ScalePipeline.cpp:203-229 | frame registration fails only with NO_MEMORY |
| PSysScale.RegisterFramesKeeps | src/core/psyslite/ScalePipeline.cpp:203-229 | a terminal with a buffer keeps one |
| PSysScale.FrameRegs | src/core/psyslite/ScalePipeline.cpp:203-229 | one registration for the source and one per destination buffer |
| PSysScale.IdentityLoop | src/core/psyslite/ScalePipeline.cpp:428-430 | the loop computes Identity |
| PSysScale.ScaleMapLoop | src/core/psyslite/ScalePipeline.cpp:426-450 | the two loops compute ScaleMapOf |
| PSysScale.ConfigureCrop | src/core/psyslite/ScalePipeline.cpp:248-403 | the port loop leaves the records CropFold gives |
| PSysScale.ConfigurePort | src/core/psyslite/ScalePipeline.cpp:249-317 | one port's records become PortStep |
| PSysScale.WriteOutputFormat | src/core/psyslite/ScalePipeline.cpp:406-421 | the format loop leaves KernelsWithFormat |
| PSysScale.CropAndFormat | src/core/psyslite/ScalePipeline.cpp:239-424 | the records follow CropFold, the kernels KernelsWithFormat, and the wiring stays |
| PSysScale.PrepareFormats | src/core/psyslite/ScalePipeline.cpp:460-478 | the method computes PreparedFormats |
| PSysScale.ScaleKernelMask | src/core/psyslite/ScalePipeline.cpp:468-478 | the method computes KernelMask |
| PSysScale.PayloadSizes | src/core/psyslite/ScalePipeline.cpp:180 | the P2P's reported size per terminal, none outside its table |
| PSysScale.PreparePayload | src/core/psyslite/ScalePipeline.cpp:185-200 | one terminal's payload step on the base pipe's cache |
| PSysScale.PreparedBuffersStatus | src/core/psyslite/ScalePipeline.cpp:168-231 | UNKNOWN_ERROR exactly for a wrong buffer count, otherwise OK, BAD_INDEX or NO_MEMORY; the cache stays valid |
| PSysScale.PreparedBuffersRegistered | src/core/psyslite/ScalePipeline.cpp:168-231 | on success every non-empty payload, the input, the display output and the _PUT_MAIN/_PUT_PP outputs in use have buffers |
| PSysScale.PayloadLoop | src/core/psyslite/ScalePipeline.cpp:178-201 | the loop computes PayloadsUpTo on the P2P's sizes |
| PSysScale.RegisterFrame | src/core/psyslite/ScalePipeline.cpp:203-229 | one frame registration, the rest continuing from it |
| PSysScale.RegisterFramesAppend | src/core/psyslite/ScalePipeline.cpp:203-229 | registering a list is registering its parts in turn |
| PSysScale.RegisterTerminalFrames | src/core/psyslite/ScalePipeline.cpp:203-229 | the registrations compute RegisterFrames |
| PSysScale.PrepareBuffers | src/core/psyslite/ScalePipeline.cpp:173-229 | the method computes PreparedBuffers on the P2P's sizes |
| PSysScale.ScalePipeline.constructor | src/core/psyslite/ScalePipeline.cpp:113-121 | every terminal format unknown, payloads and crop cleared, no frames and no routing |
| PSysScale.ScalePipeline.SetInputInfo | src/core/psyslite/PSysPipeBase.cpp:540-543 | the source frames are replaced, nothing else changes |
| PSysScale.ScalePipeline.SetOutputInfo | src/core/psyslite/PSysPipeBase.cpp:545-548 | the destination frames are replaced, nothing else changes |
| PSysScale.ScalePipeline.SetParameters | src/core/psyslite/ScalePipeline.cpp:233-237 | the crop region is taken, nothing else changes |
| PSysScale.ScalePipeline.SetScaleMapInfo | src/core/psyslite/ScalePipeline.cpp:426-450 | the scale map becomes ScaleMapOf and routes every output |
| PSysScale.ScalePipeline.SetCropAndFormatInfo | src/core/psyslite/ScalePipeline.cpp:239-424 | the records follow CropFold and the kernels get the last port's format code |
| PSysScale.ScalePipeline.ConfigureKernels | src/core/psyslite/ScalePipeline.cpp:454-458 | the scale map, records and metadata are set and the P2P holds a copy of the kernel table |
| PSysScale.ScalePipeline.ConfigureKernelTable | src/core/psyslite/ScalePipeline.cpp:457-458 | the records get the crop fold of the routed frames, the kernel metadata the format of the last output, and the P2P holds a copy of the kernel table |
| PSysScale.ScalePipeline.FinishPrepare | src/core/psyslite/ScalePipeline.cpp:460-480 | the four terminal formats are set and the kernel bitmap is cut to the mask of the outputs in use |
| PSysScale.ScalePipeline.Prepare | src/core/psyslite/ScalePipeline.cpp:452-483 | both halves of prepare, in order |
| PSysScale.ScalePipeline.PrepareTerminalBuffers | src/core/psyslite/ScalePipeline.cpp:168-231 | the status and buffers are PreparedBuffers of the old state |
| PSysScale.ScalePipeline.SetTerminalParams | src/core/psyslite/ScalePipeline.cpp:132-166 | every terminal of the pipe is described with its format and its frame; -1 exactly when the parameters hold too few terminals |
| IspParamAdaptor.PaddedSum | src/core/IspParamAdaptor.cpp:487-502 | the input and output totals are sums of page-aligned sizes, so page multiples |
| IspParamAdaptor.AddAligned | src/core/IspParamAdaptor.cpp:494-497 | adding two page multiples gives a page multiple |
| IspParamAdaptor.PayloadOf | src/core/IspParamAdaptor.cpp:488-498 | a terminal keeps its size, is padded to the next page boundary by less than a page, and starts on a page boundary |
| IspParamAdaptor.PaddedSumGrows | src/core/IspParamAdaptor.cpp:487-502 | the running totals never decrease |
| IspParamAdaptor.PaddedSumStep | src/core/IspParamAdaptor.cpp:492-498 | a terminal advances the total of its own direction by its padded size and leaves the other total alone |
| IspParamAdaptor.PayloadsDisjoint | src/core/IspParamAdaptor.cpp:487-502 | payloads of the same direction do not overlap and all lie within that direction's total |
| IspParamAdaptor.PushHistory | src/core/IspParamAdaptor.cpp:1157-1160 | the new sequence is appended after dropping the oldest when the list is full; the list never exceeds MAX_BUFFER_COUNT |
| IspParamAdaptor.LtmSequenceFromHistory | src/core/IspParamAdaptor.cpp:1271-1284 | the LTM sequence is the frame's own, or the history entry lag places before the frame's first occurrence at index lag or later; its own when the lag is 0 or the frame is not in the history |
| IspParamAdaptor.LtmSequence | src/core/IspParamAdaptor.cpp:1271-1284 | the history loop computes LtmSequenceOf |
| IspParamAdaptor.IpuParameterOf | src/core/IspParamAdaptor.cpp:1182-1210 | a slot result is a slot with the sequence and the stream; the current parameter exactly for (-1, -1) or when no slot matches |
| IspParamAdaptor.Adaptor.constructor | src/core/IspParamAdaptor.cpp:40-62 | not initialised, no current slot, empty history and no terminals |
| IspParamAdaptor.Adaptor.Init | src/core/IspParamAdaptor.cpp:69-77 | the state becomes ISP_ADAPTOR_INIT and nothing else changes |
| IspParamAdaptor.Adaptor.ReleaseParamBuffers | src/core/IspParamAdaptor.cpp:1237-1246 | every slot gets sequence -1 and no stream data |
| IspParamAdaptor.Adaptor.AllocateParamBuffers | src/core/IspParamAdaptor.cpp:1217-1235 | every slot gets sequence -1 and data for every stream |
| IspParamAdaptor.Adaptor.Deinit | src/core/IspParamAdaptor.cpp:79-104 | the slots are released and the state returns to ISP_ADAPTOR_NOT_INIT |
| IspParamAdaptor.Adaptor.QueryMemoryReqs | src/core/IspParamAdaptor.cpp:473-505 | NO_INIT exactly without terminals, state unchanged; otherwise each terminal's payload is PayloadOf and the totals PaddedSum |
| IspParamAdaptor.Adaptor.PostConfigure | src/core/IspParamAdaptor.cpp:267-299 | OK and configured exactly for a PSYS ISA adaptor or a wrapper with terminals; otherwise NO_INIT and the state kept |
| IspParamAdaptor.Adaptor.FindSlot | src/core/IspParamAdaptor.cpp:1142-1147 | the first slot holding the sequence |
| IspParamAdaptor.Adaptor.RunIspAdapt | src/core/IspParamAdaptor.cpp:1131-1180 | INVALID_OPERATION unless configured; a known sequence reuses its slot, a new one takes the next slot of the ring and joins the history; afterwards the sequence's first slot is the one written |
| IspParamAdaptor.Adaptor.GetIpuParameter | src/core/IspParamAdaptor.cpp:1182-1210 | the loop computes IpuParameterOf |
| IspParamAdaptor.Adaptor.EncodeIsaParams | src/core/IspParamAdaptor.cpp:1016-1081 | INVALID_OPERATION unless a configured ISYS adaptor; OK exactly when every step and every selected terminal encodes; the terminals encoded are exactly the non-empty ones of the requested direction, in order |
| IspParamAdaptor.StampedSlotFirst | src/core/IspParamAdaptor.cpp:1139-1167 | after runIspAdapt the sequence is found first in the slot it wrote |
| IspParamAdaptor.StampedSequenceFound | src/core/IspParamAdaptor.cpp:1182-1210 | after runIspAdapt getIpuParameter returns that slot's data for any of its streams |
| IspParamAdaptor.EndWithinTotal | src/core/IspParamAdaptor.cpp:487-502 | every payload ends within the padded total of its direction |
| GraphConfig.DistinctIdsSpec | src/platformdata/gc/GraphConfig.cpp:1255-1295 | the collected stream ids are pairwise distinct, are exactly the ids readable from some program group, and keep first-seen order (the ids of a prefix of the graph are a prefix of the ids of the whole graph) |
| GraphConfig.NoIdsIffNoneRead | src/platformdata/gc/GraphConfig.cpp:1270-1290 | no id is collected exactly when no program group has a readable stream id |
| GraphConfig.Contains | src/platformdata/gc/GraphConfig.cpp:1274-1280 | the inner search reports true exactly when the id is already among those collected |
| GraphConfig.GraphGetStreamIds | src/platformdata/gc/GraphConfig.cpp:1255-1295 | returns the distinct ids in first-seen order; UNKNOWN_ERROR exactly when no program group has a readable stream id, OK exactly when the list is non-empty |
| GraphConfig.GdcOf | src/platformdata/gc/GraphConfig.cpp:593-612 | a stream has no GDC kernel exactly when none of gdc3_1, gdc3, gdc3_1_1 and gdc5 is in it; a chosen kernel is in the stream, and gdc3 is chosen only when gdc3_1 is absent |
| GraphConfig.GdcChoiceFromSpec | src/platformdata/gc/GraphConfig.cpp:586-615 | the scan keeps the default gdc3 on the video stream when no stream has a GDC kernel, stops at the video stream when it has one, and otherwise ends on the last stream that has one |
| GraphConfig.GetGdcKernelSetting | src/platformdata/gc/GraphConfig.cpp:577-631 | OK exactly when stream ids exist and the chosen kernel and stream have resolution information, and then returns that kernel and its input resolution; UNKNOWN_ERROR otherwise, in particular when no stream id is readable |
| GraphConfig.PortFullName | src/platformdata/gc/GraphConfig.cpp:1651-1682 | a name exists exactly when the ancestor's name and the port's name do, and its length is the two lengths plus one for the colon |
| GraphConfig.FullNameSplits | src/platformdata/gc/GraphConfig.cpp:1651-1682 | when the ancestor's name has no colon, the full name splits back at its first colon into the ancestor's name and the port's name |
| GraphConfig.PipeEdgeRule | src/platformdata/gc/GraphConfig.cpp:1750-1817 | a port is a pipe edge exactly when its peer is disabled, or its own stream id is readable and the peer is virtual, or the peer's program group has stream id 0 or -1, or the port is an input whose peer is a hardware node |
| GraphConfig.Config.constructor | src/platformdata/gc/GraphConfig.cpp:50-64 | a new configuration has no source, an empty source port name and the given stream-to-tuning-mode table |
| GraphConfig.Config.GetTuningMode | src/platformdata/gc/GraphConfig.cpp:239-247 | the stored tuning mode of a known stream, 0 for an unknown one |
| GraphConfig.Config.AnalyzeSourceType | src/platformdata/gc/GraphConfig.cpp:253-284 | OK exactly when exactly one of a sensor node and a TPG node exists, selecting that source and its port name; otherwise UNKNOWN_ERROR with the source reset; the tuning table is untouched |
| GraphConfig.DistinctIds | src/platformdata/gc/GraphConfig.cpp:1255-1295 | never more ids than program groups |
| GraphConfig.IsPipeEdgePort | src/platformdata/gc/GraphConfig.cpp:1750-1817 | a disabled peer always makes an edge; otherwise a failed peer lookup or an unreadable stream id of the port never does |
| GraphConfig.LastGdcFrom | src/platformdata/gc/GraphConfig.cpp:586-615 | the last stream from a position on that has a GDC kernel, or none when no later stream has one |
| GraphConfig.GdcChoiceOrigin | src/platformdata/gc/GraphConfig.cpp:586-615 | the chosen kernel and stream are the default or a stream met in the scan with its kernel; with no kernel found the default stays |
| GraphConfig.GdcChoiceVideoWins | src/platformdata/gc/GraphConfig.cpp:586-615 | a video stream with a GDC kernel ends the scan with that kernel on the video stream |
| GraphConfig.GdcChoiceLastFound | src/platformdata/gc/GraphConfig.cpp:586-615 | without a video stream the scan ends on the last stream that has a kernel, or keeps the default when none has |
| SensorHwCtrl.WritesOf | src/core/SensorHwCtrl.cpp:166-195 | a step sequence holds no more register writes than steps |
| SensorHwCtrl.RunIssuesPrefix | src/core/SensorHwCtrl.cpp:166-195 | a sequence of checked control writes issues a prefix of its writes; it is OK exactly when every check holds and every write succeeds, and then all writes were issued; a failing write is the last one issued and its status is returned |
| SensorHwCtrl.RunWritesFromSteps | src/core/SensorHwCtrl.cpp:166-195 | every write a run issues is one of the sequence's own writes |
| SensorHwCtrl.OrStatus | src/core/SensorHwCtrl.cpp:326-336 | OR-ing two statuses gives OK exactly when both are OK, and the one failure when only one call fails |
| SensorHwCtrl.OrStatusBits | src/core/SensorHwCtrl.cpp:326-336 | with OK numbered 0, the status returned has the bit pattern of the code's OR-assignment whenever at most one call fails |
| SensorHwCtrl.MultiExposureSteps | src/core/SensorHwCtrl.cpp:166-195 | with three exposures SHS2 takes the first, SHS1 the second and EXPOSURE the third; with two, SHS1 takes the first and EXPOSURE the second |
| SensorHwCtrl.DualExposureSteps | src/core/SensorHwCtrl.cpp:198-218 | only controls EXPOSURE and SHS1 are written; EXPOSURE last, with the last of at most three exposures; SHS1 with the first exposure exactly when there are more than two |
| SensorHwCtrl.StepFloor | src/core/SensorHwCtrl.cpp:220-315 | x minus its truncating remainder is x rounded toward zero to a multiple of the step: within one step below a non-negative x, between x and 0 for a negative one |
| SensorHwCtrl.DolWritesInRange | src/core/SensorHwCtrl.cpp:220-315 | every value the DOL timing sequence writes lies in its register range (SHS2 within the range widened to the frame length); RHS2 is a multiple of its step; SHS3 is written only for three exposures and RHS1 only without a fixed VBP |
| SensorHwCtrl.DolGuardsPassed | src/core/SensorHwCtrl.cpp:220-315 | SHS3 and RHS2 are written only for three exposures and only after their range checks passed |
| SensorHwCtrl.NoGuardedWritesInTail | src/core/SensorHwCtrl.cpp:220-315 | after the SHS3 and RHS2 steps, no later step writes SHS3 or RHS2 |
| SensorHwCtrl.ShutterAndReadoutTiming | src/core/SensorHwCtrl.cpp:220-315 | NO_INIT without the sensor-output sub-device; the pad-format status when reading the output size fails; NO_INIT when no range matches the output size, with no write in any of these cases |
| SensorHwCtrl.BitOr | src/core/SensorHwCtrl.cpp:411-428 | the OR of two 32-bit register values is a 32-bit value |
| SensorHwCtrl.ConversionValueAsWritten | src/core/SensorHwCtrl.cpp:411-428 | the value as written reads the third gain whatever the number of gains, so it is undefined exactly when there are fewer than three |
| SensorHwCtrl.ConversionValue | src/core/SensorHwCtrl.cpp:411-428 | the corrected value agrees with the as-written one whenever three gains exist and is a 32-bit value |
| SensorHwCtrl.ConversionGainReadsPastEnd | src/core/SensorHwCtrl.cpp:411-428 | with two gains the as-written value reads past the end, while the corrected one is the OR of the two |
| SensorHwCtrl.ConversionGain | src/core/SensorHwCtrl.cpp:411-428 | BAD_VALUE with no write exactly when fewer than two gains are given; otherwise one ANALOGUE_GAIN write of the combined value, returning the driver's status |
| SensorHwCtrl.MultiDigitalGain | src/core/SensorHwCtrl.cpp:357-380 | three gains go to DIGITAL_GAIN_VS, DIGITAL_GAIN_S and GAIN; two gains to DIGITAL_GAIN_S and GAIN; fewer than two give BAD_VALUE with no write |
| SensorHwCtrl.MultiDigitalGainAsWritten | src/core/SensorHwCtrl.cpp:357-380 | the as-written routine is undefined exactly when a single digital gain is given, and otherwise agrees with the corrected one |
| SensorHwCtrl.MultiDigitalGainReadsPastEnd | src/core/SensorHwCtrl.cpp:318-380 | a call with one digital gain, which setGains lets through, makes the as-written routine read past the end; the corrected routine answers BAD_VALUE |
| SensorHwCtrl.MultiAnalogGain | src/core/SensorHwCtrl.cpp:382-409 | three gains go to ANALOG_GAIN_VS, ANALOG_GAIN_S and ANALOGUE_GAIN; two gains to ANALOG_GAIN_S and ANALOGUE_GAIN |
| SensorHwCtrl.LinkFreqMode | src/core/SensorHwCtrl.cpp:636-651 | the default value when the control has a single value; otherwise the maximum exactly when the rate is above 30 fps, and the mode below it exactly when it is not |
| SensorHwCtrl.LinkFreqModeMonotone | src/core/SensorHwCtrl.cpp:636-651 | raising the frame rate never lowers the link-frequency mode |
| SensorHwCtrl.SensorCtrl.constructor | src/core/SensorHwCtrl.cpp:34-62 | blanks, crop, WDR mode and frame length start at 0; the frame duration is calculated from blanks exactly when the pixel array exists and its line length cannot be read |
| SensorHwCtrl.SensorCtrl.SetExposure | src/core/SensorHwCtrl.cpp:142-163 | NO_INIT without the pixel array; BAD_VALUE without coarse or fine exposures; several exposures go to the routine of the configured HDR exposure type; one exposure is one EXPOSURE write |
| SensorHwCtrl.SensorCtrl.SetGains | src/core/SensorHwCtrl.cpp:318-354 | NO_INIT without the pixel array; BAD_VALUE without gains; the multi-gain path issues the digital then the analog writes and is OK exactly when both are; otherwise ANALOGUE_GAIN is written last with the first analog gain, and GAIN with the first digital gain exactly when sensor digital gain is used and not skipped for WDR |
| SensorHwCtrl.SensorCtrl.Configure | src/core/SensorHwCtrl.cpp:105-114 | nothing is written exactly when no fixed VBP is configured; otherwise the fixed VBP is written to RHS1 once |
| SensorHwCtrl.SensorCtrl.SetLineLengthPixels | src/core/SensorHwCtrl.cpp:431-452 | when calculating, the horizontal blank is written only when it changes, and recorded only on success; otherwise the line length is written; nothing else changes |
| SensorHwCtrl.SensorCtrl.SetFrameLengthLines | src/core/SensorHwCtrl.cpp:454-477 | when calculating, the vertical blank is written only when it changes and recorded only on success; otherwise the frame length is written; the current frame length is recorded in every case |
| SensorHwCtrl.SensorCtrl.LineLengthOutcome | src/core/SensorHwCtrl.cpp:431-452 | no write exactly when calculating and the horizontal blank is unchanged (then OK); otherwise one HBLANK (calculating) or LINE_LENGTH_PIXELS write, returning the driver's status |
| SensorHwCtrl.SensorCtrl.FrameLengthOutcome | src/core/SensorHwCtrl.cpp:454-477 | no write exactly when calculating and the vertical blank is unchanged (then OK); otherwise one VBLANK (calculating) or FRAME_LENGTH_LINES write, returning the driver's status |
| SensorHwCtrl.SensorCtrl.SetFrameDuration | src/core/SensorHwCtrl.cpp:479-497 | NO_INIT without the pixel array; otherwise the line-length writes only for a nonzero llp, then the frame-length writes only for a nonzero fll; OK exactly when every set that ran succeeded, with the statuses OR-ed |
| SensorHwCtrl.SensorCtrl.GetLineLengthPixels | src/core/SensorHwCtrl.cpp:499-524 | returns the driver's status; on success the line length is the blank plus the crop width when calculating, the register otherwise, and the blank is recorded |
| SensorHwCtrl.SensorCtrl.LineLengthRoundTrip | src/core/SensorHwCtrl.cpp:431-524 | a line length that was set successfully is read back unchanged |
| SensorHwCtrl.SensorCtrl.GetVBlank | src/core/SensorHwCtrl.cpp:566-573 | returns the recorded vertical blank |
| SensorHwCtrl.SensorCtrl.SetWdrMode | src/core/SensorHwCtrl.cpp:605-621 | NO_INIT without the sensor-output sub-device; otherwise the mode is recorded and written, except on a relative multi-exposure (DOL) sensor, which answers OK without a write |
| SensorHwCtrl.SensorCtrl.SetFrameRate | src/core/SensorHwCtrl.cpp:623-655 | NO_INIT without the sensor-output sub-device; the query's status when the link-frequency query fails; otherwise one LINK_FREQ write of the chosen mode |
| SensorHwCtrl.RunWritesPrefix | src/core/SensorHwCtrl.cpp:166-195 | a run issues a prefix of the sequence's writes, and all of them when it is OK |
| SensorHwCtrl.RunOkExactly | src/core/SensorHwCtrl.cpp:166-195 | a run is OK exactly when every check holds and the driver accepts every write |
| SensorHwCtrl.RunFailsLast | src/core/SensorHwCtrl.cpp:166-195 | a run that fails on a write ends with that write, and its status is the driver's answer to it |
| AiqUtils.ConvertAxis | src/3a/AiqUtils.cpp:354-368 | one axis in C integer arithmetic: the low end of the source span maps to the low end of the destination, the high end to the high end |
| AiqUtils.ConvertAxisInside | src/3a/AiqUtils.cpp:354-368 | a value inside the source span lands inside the destination span |
| AiqUtils.ConvertAxisMonotone | src/3a/AiqUtils.cpp:354-368 | the axis mapping keeps the order of two values |
| AiqUtils.ConvertCoordinateSystem | src/3a/AiqUtils.cpp:354-368 | each of the four source corners maps to the matching destination corner |
| AiqUtils.ConvertCoordinateInside | src/3a/AiqUtils.cpp:354-368 | a point of the source rectangle maps into the destination rectangle |
| AiqUtils.WindowCornersFacts | src/3a/AiqUtils.cpp:379-398 | both window corners keep their order and stay inside after conversion |
| AiqUtils.ConvertToIaWindow | src/3a/AiqUtils.cpp:379-398 | the weight is kept, a well-ordered window stays well ordered, corners inside the source land inside the AIQ system |
| AiqUtils.ConvertError | src/3a/AiqUtils.cpp:318-337 | total; OK exactly for ia_err_none; BAD_VALUE exactly for data and argument errors |
| AiqUtils.SpeedModeToTime | src/3a/AiqUtils.cpp:417-437 | -1 exactly for the normal speed, a positive time otherwise |
| AiqUtils.SpeedModeToTimeForHdr | src/3a/AiqUtils.cpp:439-459 | -1 exactly for the normal speed, a positive time otherwise |
| AiqUtils.HdrTimesAreFifth | src/3a/AiqUtils.cpp:417-459 | the HDR time is a fifth of the normal-table time; LOW converges slower than MID in both tables |
| AiqUtils.LargestPowerBelowUnique | src/3a/AiqUtils.cpp:476-480 | at most one register value k satisfies 2^k <= gain < 2^(k+1) |
| AiqUtils.SensorDigitalGain | src/3a/AiqUtils.cpp:470-488 | type 2_X gives the largest k with 2^k <= gain, clipped to [0, maxSensorDg]; other types give 0 |
| AiqUtils.ConvertFrameUsage | src/3a/AiqUtils.cpp:516-527 | preview exactly for usages other than video, still and continuous |
| AiqUtils.FrameUsageRoundTrip | src/3a/AiqUtils.cpp:516-527 | every AIQ frame use is reached from its own HAL usage |
| AiqUtils.GridProduct | src/3a/AiqUtils.cpp:70-71 | width*height as an unsigned 32-bit product |
| AiqUtils.DeepCopyWeightGrid | src/3a/AiqUtils.cpp:39-43 | BAD_VALUE with the destination untouched when a grid is missing; otherwise the dimensions and exactly CLIP(w*h, MAX_AE_GRID_SIZE, 1) weights are copied and the rest of the destination kept |
| Intel3AParameter.FocusRectOf | src/3a/intel3a/Intel3AParameter.cpp:603-620 | a focus rectangle exists exactly when there is a region and the last one is well formed, and it is then ordered (left not past right, top not past bottom) |
| Intel3AParameter.AfUpdate | src/3a/intel3a/Intel3AParameter.cpp:567-626 | mode and trigger follow the request; a mode change resets the lens position, lock, scan flag and trigger history and picks auto focus for continuous modes; a new START begins a scan (locking only in continuous video) and requests a new search exactly in auto and macro; a new CANCEL ends scan and lock; with neither, the earlier lock, scan and focus mode stay and the frame use follows the request |
| Intel3AParameter.LockAfterResult | src/3a/intel3a/Intel3AParameter.cpp:669-689 | nothing changes without a held lock and a result; in continuous-picture, auto and macro modes the lock then stays exactly when the algorithm is not searching; other modes keep the lock |
| Intel3AParameter.AfLockOnlyInContinuousVideo | src/3a/intel3a/Intel3AParameter.cpp:567-667 | every AF update keeps the invariant that the lock is held only in continuous-video mode |
| Intel3AParameter.AfResultKeepsLock | src/3a/intel3a/Intel3AParameter.cpp:669-689 | under that invariant, filling in the AF result never changes the lock |
| Intel3AParameter.AfStartIsEdgeTriggered | src/3a/intel3a/Intel3AParameter.cpp:593-600 | a START held over two frames starts one scan: the second frame requests no new search and leaves lock and scan flag alone |
| Intel3AParameter.PerTicks | src/3a/intel3a/Intel3AParameter.cpp:385-411 | the algorithm runs at least every frame count of 1; every frame under AIQ pacing; under HAL pacing every frame exactly at normal speed |
| Intel3AParameter.ConvergenceTime | src/3a/intel3a/Intel3AParameter.cpp:385-395 | the manual convergence time is -1 exactly under HAL pacing or at normal speed |
| Intel3AParameter.SlowerSpeedFewerRuns | src/3a/intel3a/Intel3AParameter.cpp:396-411 | under HAL pacing low speed waits twice as many frames as mid speed, and normal speed fewer than mid |
| Intel3AParameter.PacingIsExclusive | src/3a/intel3a/Intel3AParameter.cpp:385-411 | HAL pacing and AIQ convergence time never both slow the algorithm: one of them is neutral, and a positive convergence time means every-frame runs |
| Intel3AParameter.AwbTicksFollowAeSpeed | src/3a/intel3a/Intel3AParameter.cpp:540-563 | the frame count as written follows the AE speed, so a low AWB speed with a normal AE speed runs AWB every frame, where the AWB speed alone would give 60 frames |
| Intel3AParameter.WindowCentre | src/3a/intel3a/Intel3AParameter.cpp:419-423 | the centre of a well-formed window lies inside it (left and top inclusive, right and bottom exclusive) |
| Intel3AParameter.CentreMapsInside | src/3a/intel3a/Intel3AParameter.cpp:419-428 | a window inside the frame has its centre mapped inside the AIQ coordinate system |
| Intel3AParameter.ExposureCoordinateOf | src/3a/intel3a/Intel3AParameter.cpp:414-435 | a metering point exists exactly when BLC area mode is on and the last region is well formed; for a region inside the frame the point is inside the AIQ coordinate system |
| Intel3AParameter.AwbSceneModeOf | src/3a/intel3a/Intel3AParameter.cpp:479-530 | auto exactly for modes outside the named ones (manual gain included); manual CCT range and manual white point exactly for those modes |
| Intel3AParameter.CctRangeOf | src/3a/intel3a/Intel3AParameter.cpp:510-515 | the manual CCT range holds the two request bounds in increasing order |
| Intel3AParameter.Parameter3A.constructor | src/3a/intel3a/Intel3AParameter.cpp:31-64 | AF starts off and idle without lock or scan; both algorithms run every frame; the manual exposure array has one slot per exposure |
| Intel3AParameter.Parameter3A.Init | src/3a/intel3a/Intel3AParameter.cpp:71-155 | returns OK with AF in auto mode and idle, default AE and AWB parameters, every-frame pacing, no manual gains and a -1 convergence time |
| Intel3AParameter.Parameter3A.UpdateAfParameter | src/3a/intel3a/Intel3AParameter.cpp:567-626 | the AF state becomes AfUpdate of the old one, keeps the lock invariant, and nothing outside AF changes |
| Intel3AParameter.Parameter3A.AfModeStep | src/3a/intel3a/Intel3AParameter.cpp:567-591 | the mode-change half of the update, leaving everything outside AF alone |
| Intel3AParameter.Parameter3A.TriggerStartStep | src/3a/intel3a/Intel3AParameter.cpp:628-651 | the START handling, leaving everything outside AF alone |
| Intel3AParameter.Parameter3A.TriggerCancelStep | src/3a/intel3a/Intel3AParameter.cpp:653-667 | the CANCEL handling, leaving everything outside AF alone |
| Intel3AParameter.Parameter3A.FillAfTriggerResult | src/3a/intel3a/Intel3AParameter.cpp:669-689 | only the lock changes, as LockAfterResult says, and the lock invariant is kept |
| Intel3AParameter.Parameter3A.WriteManualExposure | src/3a/intel3a/Intel3AParameter.cpp:306-310 | every exposure before the last is -1, the last gets the manual time, later slots keep their values |
| Intel3AParameter.Parameter3A.UpdateAeParameter | src/3a/intel3a/Intel3AParameter.cpp:335-436 | frame use and exposure count follow the request; a manual exposure is written, clipped to the supported range, exactly for a positive time outside ISO priority; the metering point is ExposureCoordinateOf; pacing follows the AE speed; AF and AWB are untouched |
| Intel3AParameter.Parameter3A.UpdateAwbParameter | src/3a/intel3a/Intel3AParameter.cpp:475-564 | scene mode from AwbSceneModeOf; the CCT range, white point and manual gains change only in their own modes; manual gains are used exactly in manual-gain mode; the gain shift follows the request; pacing follows the AWB speed; AF and AE are untouched |
| Intel3AParameter.Pacing | src/3a/intel3a/Intel3AParameter.cpp:385-411 | the frame count and convergence time set by the speed switch are PerTicks and ConvergenceTime of the mode, speed and HDR flag |
| Intel3AParameter.ManualWhitePoint | src/3a/intel3a/Intel3AParameter.cpp:516-525 | in manual-white-point mode the request's point converted from the frame to the 3A coordinate system, which lands inside that system when the point is inside the frame; otherwise the current point is kept |
| IntelDvs.Envelope | src/3a/IntelDvs.cpp:249-259 | the envelope is at least its default, and grows beyond it only as far as needed for the rest of the source to fit the output's limit |
| IntelDvs.DvsConfiguration | src/3a/IntelDvs.cpp:193-278 | six-axis exactly when stabilisation is on; the source is half the input and the output half the destination when it is set (else the source); block sizes depend on the GDC 3.1 kernel and on LDC; with LDC the crop is half the destination and the envelope zero, without LDC no crop and an envelope at least the default that fits the output limit |
| IntelDvs.ZoomRatio | src/3a/IntelDvs.cpp:326-327 | the real ratio of the input to what is left inside the envelope is defined exactly when the as-written one is, and is at least 1 for a non-negative envelope |
| IntelDvs.ZoomRatioTruncated | src/3a/IntelDvs.cpp:326-327 | for a 1920-wide input and the default envelope, the integer division gives 1 where the ratio is 1.25 |
| IntelDvs.FractionalZoomLost | src/3a/IntelDvs.cpp:545-582 | a 1.5x request is stored through an int as 1x, and the same request is then applied again on the next frame |
| IntelDvs.ZoomStep | src/3a/IntelDvs.cpp:574-579 | a zoom is applied exactly when the request is positive and differs from the stored ratio, and then the stored and applied ratio is the request; otherwise the stored ratio stays |
| IntelDvs.ZoomRequestAppliedOnce | src/3a/IntelDvs.cpp:574-579 | repeating a zoom request does not apply it a second time |
| IntelDvs.Dvs.constructor | src/3a/IntelDvs.cpp:79-99 | stabilisation, LDC and RSC off, zoom 1, 30 fps, normal mode and video-HDR tuning, no kernel, no resolutions, no handle and no configuration |
| IntelDvs.Dvs.Deinit | src/3a/IntelDvs.cpp:143-149 | returns OK and releases the handle, keeping the configuration and resolution |
| IntelDvs.Dvs.Reconfigure | src/3a/IntelDvs.cpp:280-343 | without a kernel or source size the graph config supplies them, and without them the call succeeds and changes nothing; otherwise the handle is re-created, a handle failure is returned unchanged, and with a handle the configuration becomes DvsConfiguration of the current state; OK exactly when the library accepts it and the table is built, else UNKNOWN_ERROR; the switches, rate and zoom stay |
| IntelDvs.Dvs.Configure | src/3a/IntelDvs.cpp:151-191 | an empty mode list, or a first mode without a tuning mode, is UNKNOWN_ERROR and leaves the configuration and kernel alone; otherwise the first mode and its tuning mode, the kernel and the destination are stored, and the configuration follows the new source when the handle is created |
| IntelDvs.Dvs.UpdateParameter | src/3a/IntelDvs.cpp:545-582 | a change of rate (above 0.01), tuning mode or any switch is stored and reconfigures without a zoom: the status, handle, source size and configuration are then those of reconfigure on the new switches (DvsConfiguration with the requested stabilisation and LDC when the handle is created, OK exactly when the library accepts it); otherwise the result is OK and only the zoom follows ZoomStep; afterwards no reconfiguration is pending for the same request |
| IntelDvs.ZoomRatioAsWritten | src/3a/IntelDvs.cpp:326-327 | defined exactly when something is left inside the envelope; for a non-negative input the ratio is then the input size over what is left, rounded down to an integer |
| IntelDvs.ZoomStepAsWritten | src/3a/IntelDvs.cpp:574-579 | a zoom is applied exactly when the request is positive and differs from the stored ratio; the stored and applied ratio is then the request rounded down to an integer; otherwise the stored ratio stays |
| Ltm.LtmTuningOf | src/3a/Ltm.cpp:175-196 | no tuning mode exactly when no configuration mode maps to one; otherwise the mode of the first configuration mode that has one |
| Ltm.LtmSequence | src/3a/Ltm.cpp:267-271 | a positive sequence is moved later by the gain lag; other sequences are kept |
| Ltm.FeedbackSequence | src/3a/Ltm.cpp:265-282 | the stored result of the lagged sequence is used exactly when that sequence is stored; otherwise the latest result stands in |
| Ltm.LtmAlgo.constructor | src/3a/Ltm.cpp:36-49 | not initialised, no tuning mode, no handle, input index -1, and one parameter slot per ring entry |
| Ltm.LtmAlgo.Init | src/3a/Ltm.cpp:58-95 | returns OK; with HDR every slot gets the default parameters and the state becomes initialised; without HDR nothing changes |
| Ltm.LtmAlgo.Deinit | src/3a/Ltm.cpp:97-129 | returns OK; with HDR the handle is released and the state returns to not initialised; without HDR nothing changes |
| Ltm.LtmAlgo.Configure | src/3a/Ltm.cpp:168-214 | without HDR, without a usable mode, or already configured with the same tuning mode, OK and nothing changes; otherwise the handle is re-created, its failure returned with state and tuning mode kept, and on success the state is configured with the new tuning mode |
| Ltm.LtmAlgo.AdvanceIndex | src/3a/Ltm.cpp:292-293 | the input index moves to the next slot and wraps to 0 after the last, staying within the ring |
| Ltm.LtmAlgo.UpdateParameter | src/3a/Ltm.cpp:522-573 | the current slot takes the EV shift, strength, frame size, convergence time (AIQ pacing only), manual gain (when non-negative) and timestamp, and no other slot changes; INVALID_OPERATION exactly when a gain-map tuning override asks a handle in another algorithm mode to switch, else OK |
| Ltm.LtmAlgo.HandleLtm | src/3a/Ltm.cpp:284-322 | without HDR OK with the index and slots kept; with HDR the index moves to the next slot of the ring, which receives the grid flag and, as updateParameter writes it, the EV shift, strength, frame size, convergence time, manual gain and timestamp of the feeding AIQ parameters; its sequence and every other slot stay |
| Ltm.LtmAlgo.HandleSisLtm | src/3a/Ltm.cpp:324-392 | without HDR OK with the index kept; with HDR the index advances first, then an empty SIS frame or missing data is BAD_VALUE |
| Ltm.LtmAlgo.RunLtm | src/3a/Ltm.cpp:434-489 | the library runs exactly with HDR once configured, and its error is converted; otherwise OK without a run |
| ExifMaker.KeptLength | src/jpeg/EXIFMaker.cpp:380-388 | a field of n bytes keeps all of a shorter text, and n - 1 characters of a longer one, leaving a byte for the NUL |
| ExifMaker.Field | src/jpeg/EXIFMaker.cpp:380-388 | a text field keeps its declared size whatever is copied into it |
| ExifMaker.FieldReadsBack | src/jpeg/EXIFMaker.cpp:380-388 | a field reads back as the kept prefix of the text copied into it, and as the whole text when it fits |
| ExifMaker.OrientationOf | src/jpeg/EXIFMaker.cpp:97-106 | the tag is one of the four orientations, and UP for any rotation other than 0, 90, 180 and 270 |
| ExifMaker.OrientationRoundTrip | src/jpeg/EXIFMaker.cpp:97-106 | the tag gives the rotation back exactly for the four right-angle rotations |
| ExifMaker.ExifSize | src/jpeg/EXIFMaker.cpp:478-490 | a non-zero size means an output buffer was given and the encoder succeeded, and then it is the encoded size |
| ExifMaker.Exif.constructor | src/jpeg/EXIFMaker.cpp:31-38 | not initialised, with no makernote and text fields of their declared sizes |
| ExifMaker.Exif.CopyAttribute | src/jpeg/EXIFMaker.cpp:380-388 | the kept characters are copied and followed by a NUL; the rest of the field keeps what it held |
| ExifMaker.Exif.CopyOverZeros | src/jpeg/EXIFMaker.cpp:380-453 | copying over a zeroed field leaves exactly the expected truncated, NUL-padded field |
| ExifMaker.Exif.ZeroFill | src/jpeg/EXIFMaker.cpp:390-453 | every byte of the field is zero |
| ExifMaker.Exif.ResetField | src/jpeg/EXIFMaker.cpp:390-453 | clearing a field and copying its default leaves the truncated, NUL-padded default |
| ExifMaker.Exif.SetField | src/jpeg/EXIFMaker.cpp:492-514 | the field holds the text truncated to leave room for a NUL and padded with NULs |
| ExifMaker.Exif.SetMaker | src/jpeg/EXIFMaker.cpp:492-498 | the maker field holds the truncated, NUL-padded text and reads back as its kept prefix |
| ExifMaker.Exif.SetModel | src/jpeg/EXIFMaker.cpp:500-506 | the model field holds the truncated, NUL-padded text and reads back as its kept prefix |
| ExifMaker.Exif.SetSoftware | src/jpeg/EXIFMaker.cpp:508-514 | the software field holds the truncated, NUL-padded text and reads back as its kept prefix |
| ExifMaker.Exif.Clear | src/jpeg/EXIFMaker.cpp:390-453 | every attribute returns to zero, the text fields to their defaults, no thumbnail, an empty makernote and not initialised |
| ExifMaker.Exif.Initialize | src/jpeg/EXIFMaker.cpp:128-211 | after a clear, the picture size, orientation UP and the default ISO are set and the maker is initialised |
| ExifMaker.Exif.PictureTaken | src/jpeg/EXIFMaker.cpp:56-120 | the orientation follows OrientationOf, the zoom is recorded in hundredths, ISO is the default and the HDR rendering flag follows the request; size, thumbnail and makernote stay |
| ExifMaker.Exif.SetThumbnail | src/jpeg/EXIFMaker.cpp:462-471 | the thumbnail is enabled with the given size; the main picture attributes stay |
| ExifMaker.Exif.SaveMakernote | src/jpeg/EXIFMaker.cpp:516-523 | the makernote size changes only when parameters are given and the store's read succeeds, and then becomes the size read |
| ExifMaker.CStrLen | src/jpeg/EXIFMaker.cpp:380-388 | the length strlen reads: no NUL before it, and a NUL at it unless the buffer ends there |
| Camera3Hwi.HalToV4l2 | halv3/Camera3HWI.cpp:405-432 | every HAL format maps to one of the five mapped V4L2 formats, and an unmapped HAL format to NV12 |
| Camera3Hwi.V4l2ToHal | halv3/Camera3HWI.cpp:434-462 | every V4L2 format maps to one of the mapped HAL formats; UYVY joins YUYV as 422 interleaved; an unknown format is implementation-defined |
| Camera3Hwi.FormatMapsRoundTrip | halv3/Camera3HWI.cpp:405-462 | the two maps are inverse on the mapped formats of each side, and an unmapped HAL format comes back as implementation-defined |
| Camera3Hwi.CheckStreams | halv3/Camera3HWI.cpp:1047-1072 | NO_ERROR exactly for a present list that has streams and between one and the maximum number of them, BAD_VALUE otherwise |
| Camera3Hwi.JpegScanIsLargest | halv3/Camera3HWI.cpp:1421-1457 | the scan keeps a BLOB output of largest area among those seen, or 0x0 when there is none |
| Camera3Hwi.MaxJpegResolution | halv3/Camera3HWI.cpp:1421-1457 | 0x0 for an empty list or one that is not whole groups of four; otherwise the largest BLOB output the scan finds |
| Camera3Hwi.FirstFree | halv3/Camera3HWI.cpp:680-688 | the slot found holds a buffer not in use and is the first such slot; none is found exactly when no slot in range qualifies |
| Camera3Hwi.PoolTake | halv3/Camera3HWI.cpp:657-700 | a buffer handed out is a present slot of the pool and is marked busy; the pool grows by at most one slot and no flag except the taken slot or the new slot changes |
| Camera3Hwi.PoolTakeAsWritten | halv3/Camera3HWI.cpp:657-700 | the code as written keeps the same frame: a returned slot is present and marked busy, and only the returned or last slot changes; whether the slot was free is not promised |
| Camera3Hwi.ExhaustedPoolReturnsBusyBuffer | halv3/Camera3HWI.cpp:657-700 | with the only buffer already in use, the code as written hands the same buffer out again, where the corrected pool hands out none |
| Camera3Hwi.PoolTakeReturnsFreeBuffer | halv3/Camera3HWI.cpp:657-700 | the corrected pool hands out only a present buffer that was free, marks it busy, keeps the pool invariant and leaves the other flags alone |
| Camera3Hwi.ReleaseUndoesTake | halv3/Camera3HWI.cpp:1794-1805 | returning a buffer just taken restores the pool's flags |
| Camera3Hwi.IsSameStream | halv3/Camera3HWI.cpp:731-743 | true exactly when both are the same stream object; the field comparisons never change the answer, so two distinct streams with equal fields are not the same |
| Camera3Hwi.FindByHandle | halv3/Camera3HWI.cpp:1765-1786 | the request found is the first pending one holding the result's buffer handle; the end of the list means no pending request holds it |
| Camera3Hwi.EraseAt | halv3/Camera3HWI.cpp:202-213 | erasing a pending request drops exactly that entry and keeps the others in order |
| Camera3Hwi.FirstSelfBlock | halv3/Camera3HWI.cpp:2289-2316 | the position reported is a lock taken while the thread already holds the mutex, and it is the first such lock |
| Camera3Hwi.SectionsNeverSelfBlock | halv3/Camera3HWI.cpp:2150-2180 | a thread that starts without the mutex and runs only whole lock sections, as the scoped locks of flush and handleCameraDeviceError do, never blocks on itself |
| Camera3Hwi.DeviceErrorSelfBlocks | halv3/Camera3HWI.cpp:2289-2316 | entered while the caller holds mLock, the error handling blocks at its first lock; entered with the lock released, it never blocks |
| Camera3Hwi.Camera3Hal.constructor | halv3/Camera3HWI.cpp:100-154 | the HAL starts CLOSED, first configuration pending, not flushing, with no request id, no pending request and no main stream |
| Camera3Hwi.Camera3Hal.OpenCamera | halv3/Camera3HWI.cpp:260-328 | outside CLOSED, PERMISSION_DENIED with the state kept; from CLOSED the device's answer is returned and success leaves the HAL OPENED |
| Camera3Hwi.Camera3Hal.CloseCamera | halv3/Camera3HWI.cpp:341-354 | returns NO_ERROR and leaves the HAL CLOSED |
| Camera3Hwi.Camera3Hal.Flush | halv3/Camera3HWI.cpp:2150-2180 | returns 0 with no pending request, no request in flight, the flush flag cleared and the next request restarting the device; the state is kept |
| Camera3Hwi.Camera3Hal.HandleCameraDeviceError | halv3/Camera3HWI.cpp:2289-2316 | outside ERROR nothing changes; from ERROR the internal flush empties the pending list and the in-flight count, and the HAL is DEINIT |
| Camera3Hwi.Camera3Hal.Initialize | halv3/Camera3HWI.cpp:367-402 | succeeds exactly from OPENED and then leaves the HAL INITIALIZED; from ERROR the device error is handled (pending requests dropped, HAL DEINIT) and -ENODEV returned; from any other state -ENODEV with the state kept |
| Camera3Hwi.Camera3Hal.ConstructMainStream | halv3/Camera3HWI.cpp:930-950 | every slot holds the buffer whose allocation succeeded, none in use, and the buffer count is 0 |
| Camera3Hwi.Camera3Hal.ConfigureStreams | halv3/Camera3HWI.cpp:1166-1245 | a null list is -1, a refused list its CheckStreams code; in ERROR the device error is handled and -ENODEV returned with the HAL DEINIT; another wrong state is -ENODEV; otherwise the stream construction or info error, or NO_ERROR with a main stream and the HAL CONFIGURED (pending requests cleared) or still STARTED; any other failure keeps state and pending requests |
| Camera3Hwi.Camera3Hal.ValidateCaptureRequest | halv3/Camera3HWI.cpp:1258-1337 | NO_ERROR exactly for an acceptable request, BAD_VALUE otherwise |
| Camera3Hwi.Camera3Hal.GetMainHalBuf | halv3/Camera3HWI.cpp:657-700 | without a main stream nothing is handed out; otherwise the pool changes as the corrected PoolTake says, so only a free buffer is handed out and marked busy; the rest of the HAL is untouched |
| Camera3Hwi.Camera3Hal.ReleaseMainHalBuf | halv3/Camera3HWI.cpp:1794-1805 | an internal buffer among the counted slots is marked free and no other flag changes; anything else leaves the flags alone |
| Camera3Hwi.Camera3Hal.ProcessCaptureResult | halv3/Camera3HWI.cpp:1741-1931 | nothing changes in ERROR or DEINIT; a buffer no pending request holds puts the HAL in ERROR with nothing else changed; otherwise one request fewer is in flight, an internal buffer goes back to the pool, and either the metadata fails (ERROR, the request stays pending) or exactly that request is erased with the state kept |
| Camera3Hwi.Camera3Hal.ProcessCaptureRequest | halv3/Camera3HWI.cpp:1961-2102 | from ERROR the device error is handled (HAL DEINIT, pending requests dropped) and -ENODEV returned; -ENODEV in the other states outside CONFIGURED and STARTED; BAD_VALUE for a request that does not validate; NAME_NOT_FOUND without a request id to use; INVALID_OPERATION for an input buffer; otherwise the frame becomes pending with the handle of the main buffer the pool hands out and, unless flushing, the channels start on the first request (a start failure is returned with the state kept) and the HAL is STARTED |
| Camera3Hwi.Camera3Hal.SubmitRequest | halv3/Camera3HWI.cpp:1995-2085 | a validated request: without a request id (in CONFIGURED or with none stored) NAME_NOT_FOUND and nothing pending; with an input buffer INVALID_OPERATION; otherwise the request is enqueued as EnqueueRequest states, the live count restarting at 1 in CONFIGURED |
| Camera3Hwi.Camera3Hal.EnqueueRequest | halv3/Camera3HWI.cpp:2037-2085 | the request becomes pending with the main buffer taken from the pool; during a flush OK with the state kept; a first request whose channel start fails returns that code; otherwise the live count grows by one and the HAL is STARTED |
| SocCameraHw.AnyInsteadOfAll | halv1/SocCameraHWInterface.cpp:472-475 | asking for preview and video frames with only preview enabled answers yes as written, although not all of them are enabled |
| SocCameraHw.SingleMessageAgrees | halv1/SocCameraHWInterface.cpp:472-475 | for a single message the written test and the all-enabled test agree |
| SocCameraHw.SingleBitMask | halv1/SocCameraHWInterface.cpp:472-475 | a single message that shares a bit with the mask is wholly enabled |
| SocCameraHw.MaskUpdates | halv1/SocCameraHWInterface.cpp:455-470 | enabling makes all the given messages enabled and disabling makes none of them enabled, and every other bit keeps its value |
| SocCameraHw.BitsPerPixel | halv1/SocCameraHWInterface.cpp:749-767 | 12 exactly for the 4:2:0 formats, 16 exactly for RGB565 and the 4:2:2 formats, -1 otherwise |
| SocCameraHw.Align16 | halv1/SocCameraHWInterface.cpp:769-791 | the aligned value is the least multiple of 16 not below the input |
| SocCameraHw.BufferSize | halv1/SocCameraHWInterface.cpp:769-791 | an unsupported format gives 0; a supported non-YV12 format is packed at its bits per pixel, with C's truncating division |
| SocCameraHw.YV12CoversPacked | halv1/SocCameraHWInterface.cpp:769-791 | a YV12 buffer with aligned strides is never smaller than the packed 12-bit picture |
| SocCameraHw.ScaledBelow | halv1/SocCameraHWInterface.cpp:769-791 | aligned luma and chroma planes of a picture hold at least its packed 12-bit size |
| SocCameraHw.CalDiffIsFlooredMillis | halv1/SocCameraHWInterface.cpp:795-806 | for normalised times the difference is the elapsed time in whole milliseconds, rounded down |
| SocCameraHw.DivShift | halv1/SocCameraHWInterface.cpp:795-806 | whole seconds pass through the millisecond division unchanged |
| SocCameraHw.HalToV4l2 | halv1/SocCameraHWInterface.cpp:2099-2131 | RGBA8888 maps to RGB32 and NV21 to NV21; any format outside the mapped ones maps to NV12 |
| SocCameraHw.V4l2ToHal | halv1/SocCameraHWInterface.cpp:2027-2053 | every V4L2 format maps to one of the five shared HAL formats |
| SocCameraHw.FormatMapsRoundTrip | halv1/SocCameraHWInterface.cpp:2027-2131 | a HAL format survives the round trip exactly when it is one of the five shared ones; RGBA8888 and NV21 come back implementation-defined |
| SocCameraHw.PreviewFormatToHal | halv1/SocCameraHWInterface.cpp:2055-2077 | no name gives -1 |
| SocCameraHw.ImageFormatToHal | halv1/SocCameraHWInterface.cpp:2079-2097 | no name gives -1 |
| SocCameraHw.ImageFormatNamesRoundTrip | halv1/SocCameraHWInterface.cpp:2079-2097 | every named picture format reads back from its name, and a name is recognised exactly when it is the name of what it gives |
| SocCameraHw.PreviewFormatNamesRoundTrip | halv1/SocCameraHWInterface.cpp:2055-2077 | every named preview format reads back from its name; an unknown name gives implementation-defined, which has no name |
| SocCameraHw.InsertByArea | halv1/SocCameraHWInterface.cpp:240-243 | inserting keeps the sizes (as a multiset) and keeps a list sorted by area sorted |
| SocCameraHw.SortByArea | halv1/SocCameraHWInterface.cpp:292-293 | the result is sorted ascending by area and is a permutation of the input |
| SocCameraHw.CountConcat | halv1/SocCameraHWInterface.cpp:294-299 | commas in a concatenation add up |
| SocCameraHw.NoCommaCount | halv1/SocCameraHWInterface.cpp:294-299 | a text without commas counts none |
| SocCameraHw.SizeTextHasNoComma | halv1/SocCameraHWInterface.cpp:294-299 | a "WxH" size text has no comma and ends in a digit |
| SocCameraHw.IntStrDigits | halv1/SocCameraHWInterface.cpp:294-299 | a decimal number is made of digits and a minus sign, and ends in a digit |
| SocCameraHw.JoinSizesShape | halv1/SocCameraHWInterface.cpp:294-299 | the joined list of n sizes has n - 1 commas and ends in a digit, so no trailing comma is left |
| SocCameraHw.CameraHardwareSoc.constructor | halv1/SocCameraHWInterface.cpp:63-224 | no message is enabled, the device id is the camera id and no sizes are listed |
| SocCameraHw.CameraHardwareSoc.EnableMsgType | halv1/SocCameraHWInterface.cpp:455-462 | the given messages are added to the mask; the rest of the state is untouched |
| SocCameraHw.CameraHardwareSoc.DisableMsgType | halv1/SocCameraHWInterface.cpp:464-470 | the given messages are removed from the mask; the rest of the state is untouched |
| SocCameraHw.CameraHardwareSoc.SetDeviceId | halv1/SocCameraHWInterface.cpp:226-233 | the id is taken exactly when it is below both MAX_CAMERAS and the number of cameras; otherwise the old id stays |
| SocCameraHw.CameraHardwareSoc.InitDefaultSizes | halv1/SocCameraHWInterface.cpp:261-299 | with no configuration nothing is set; otherwise the supported sizes are the distinct configured sizes, sorted by area and joined, and the field follows the last configuration in the preview format |
| SocCameraHw.CollectSizes | halv1/SocCameraHWInterface.cpp:266-291 | the collected sizes are distinct and are exactly the configured ones, and the field follows the last configuration in the preview format |
| SocCameraHw.JoinWithTrailingComma | halv1/SocCameraHWInterface.cpp:294-299 | appending "WxH," per size and removing the last comma gives the comma-joined list |
| SocCameraHw.MsgTypeEnabledAsWritten | halv1/SocCameraHWInterface.cpp:472-475 | the code's any-bit test answers yes whenever every queried message is enabled, and never for an empty query or an empty mask |
| SocCameraHw.CameraHardwareSoc.MsgTypeEnabled | halv1/SocCameraHWInterface.cpp:472-475 | every queried message enabled; for a non-empty query this implies the code's answer, and the empty query is always enabled |
| Custom3A.ToShort | tools/simple_custom_3a/Customized3A.cpp:223-241 | a C short: the value lies in 16-bit two's-complement range, equals the input when that fits, and differs from it by a multiple of 65536 |
| Custom3A.RoundRshiftNearest | tools/simple_custom_3a/Customized3A.cpp:47-47 | the rounded shift lands on the nearest multiple of the step: the input lies within half a step of it |
| Custom3A.DivUnique | tools/simple_custom_3a/Customized3A.cpp:47-47 | the quotient is the one value that brackets the input between two consecutive multiples |
| Custom3A.RoundRshiftExact | tools/simple_custom_3a/Customized3A.cpp:47-47 | an exact multiple of the step is shifted without rounding |
| Custom3A.Log2Bounds | tools/simple_custom_3a/Customized3A.cpp:230-231 | the position of the highest set bit brackets the input between two powers of two |
| Custom3A.Segment | tools/simple_custom_3a/Customized3A.cpp:229-231 | the tone-curve segment of a 16-bit input is below 16 and brackets the input (1 for input 0) between consecutive powers of two |
| Custom3A.Log2Below16 | tools/simple_custom_3a/Customized3A.cpp:229-231 | a 16-bit input has its highest set bit below position 16, so the segment index stays inside the tables |
| Custom3A.Pow2Of16 | tools/simple_custom_3a/Customized3A.cpp:229-231 | two to the sixteenth is 65536, the bound of an unsigned short |
| Custom3A.SegmentOf | tools/simple_custom_3a/Customized3A.cpp:229-231 | the shifting loop stops at the segment of the input |
| Custom3A.CalcGtm | tools/simple_custom_3a/Customized3A.cpp:223-241 | the computed gain is the tone-curve value of the input |
| Custom3A.BypassIsUnitGain | tools/simple_custom_3a/Customized3A.cpp:225-227 | a bypassed curve gives every input the same gain, the unit of the fraction format |
| Custom3A.CurveMeetsOffsetAtKnot | tools/simple_custom_3a/Customized3A.cpp:229-238 | at the first input of a segment the curve is that segment's offset |
| Custom3A.InitHdrRgbsGridResultAsWritten | tools/simple_custom_3a/Customized3A.cpp:124-149 | without a grid the result is -1 |
| Custom3A.SuccessfulCopyHasNoResult | tools/simple_custom_3a/Customized3A.cpp:124-149 | a successful copy falls off the end of the function, so its result is indeterminate |
| Custom3A.IspStatistics.constructor | tools/simple_custom_3a/Customized3A.cpp:159-161 | a new statistics store holds no block buffer and a 0x0 grid |
| Custom3A.IspStatistics.InitHdrRgbsGrid | tools/simple_custom_3a/Customized3A.cpp:124-149 | -1 without a grid, changing nothing; otherwise 0, with the dimensions, bit depth and shading taken over, the block buffer kept when the dimensions are unchanged and reallocated otherwise, and the first width times height blocks copied |
| Custom3A.RunBeforeStatisticsReadsRowMinusOne | tools/simple_custom_3a/Customized3A.cpp:485-592 | a run right after init, before any statistics, computes table row -1 |
| Custom3A.TableRow | tools/simple_custom_3a/Customized3A.cpp:489-489 | the corrected row is always inside the table and agrees with the written one from the first statistics on |
| Custom3A.TableRowCycles | tools/simple_custom_3a/Customized3A.cpp:489-489 | the rows repeat with period 30, moving to the next row, or back to row 0 after the last, as the counter advances |
| Custom3A.SensorExposureRow | tools/simple_custom_3a/Customized3A.cpp:448-484 | every row has no fine integration time, unit digital gain, a 2200-pixel line and 1135-line frame |
| Custom3A.SensorExposureSteps | tools/simple_custom_3a/Customized3A.cpp:448-484 | integration time and analog gain code both rise from one ten-frame block to a later one |
| Custom3A.AwbRow | tools/simple_custom_3a/Customized3A.cpp:538-573 | accurate and final ratios agree, blue ratio 0.514764, CCT 4808 and converged |
| Custom3A.Custom3ALib.constructor | tools/simple_custom_3a/Customized3A.cpp:49-50 | no statistics store, no GBCE store, and the frame counter (declared at line 120) at -1 |
| Custom3A.Custom3ALib.Init | tools/simple_custom_3a/Customized3A.cpp:151-164 | returns 0 with the counter at -1, a new empty statistics store and empty GBCE tables |
| Custom3A.Custom3ALib.Deinit | tools/simple_custom_3a/Customized3A.cpp:166-178 | returns 0 with the counter at -1 and both stores released |
| Custom3A.Custom3ALib.SetStatistics | tools/simple_custom_3a/Customized3A.cpp:331-367 | the counter advances first; -1 exactly without a store or usable statistics; otherwise the HDR grid is copied into the store |
| Custom3A.Custom3ALib.SetGbceResults | tools/simple_custom_3a/Customized3A.cpp:369-401 | -1 without a store; otherwise 0 with all four tables replaced by the given ones |
| Custom3A.Custom3ALib.RunAe | tools/simple_custom_3a/Customized3A.cpp:485-529 | -1 exactly when the results are incomplete; otherwise the exposure rows of the counter's table row, converged, one exposure, no flash, and an open aperture exactly when the caller has an aperture record |
| Custom3A.Custom3ALib.RunAwb | tools/simple_custom_3a/Customized3A.cpp:574-592 | -1 exactly without results; otherwise the AWB row of the counter's table row |
| Custom3A.GtmCurve | tools/simple_custom_3a/Customized3A.cpp:223-241 | the tone-curve value is stored in a short, so it lies in [-32768, 32767] |

## Left out

- I/O is not modelled: file reads, V4L2 ioctls, sub-device writes (a recorded log of control/value pairs stands for them), gralloc and JPEG encoding.
- Threads, locks, condition variables and the worker threads of the pipeline, LTM, the request handling and the HAL1 preview/picture loops are not modelled. Each operation is modelled as one atomic step.
- The vendor imaging libraries (ia_aiq, ia_isp_bxt, ia_p2p, ia_css, ia_cipf/CIPR, ia_dvs, ia_ltm, GCSS) and PAL are parameters: their answers enter as arguments, and the model leaves them unconstrained.
- Memory allocation failure is not modelled. Neither is the metadata block's pointer alignment: the block is a value whose data area always exists.
- Floating-point arithmetic is `real`, or is left out where only a float rounding is involved: the OFS scaler sizing of ScalePipeline (src/core/psyslite/ScalePipeline.cpp:263-296) enters as the `scaled` parameter, and the EXIF GPS and lens fields are not modelled.
- PGParamAdapt.ParamAdapter.Encode: the decode direction (src/core/pgprocessor/PGParamAdapt.cpp:453-526) is not modelled. updatePAL and the p2p handle of init are parameters. The internal-error path of the payload descriptor query (line 848) is not modelled.
- PSysP2pLite.P2pLite.PrepareRequirements: prepareP2p and updatePAL are not modelled. The lite constructor leaves the kernel tables uninitialised; the model starts them at NO_COUNTS.
- PSysP2pLite.P2pLite.Encode: the P2P library's encoders and ia_p2p_program_terminal_init are calls into code that is not part of this model. Their answers come in as parameters (`failing`, the kernels whose encoder call fails, and `programInit`); the bytes they write into the terminal and the payload are not modelled, only the calls and their section and offset arguments.
- PSysP2pLite.EncodeLiteOrder and PSysP2pLite.EncodeLiteBitmap test the terminal type once, before the loop. The code tests it in every pass (src/core/psyslite/PSysP2pLite.cpp:381-383) and again after the loop (406-408). Each of those tests returns ia_err_argument before any encoder call, so the result and the calls are the same.
- PSysP2pLite.EncodeLiteOrder uses the bounded order scan; the unbounded scan as written is kept under "## Findings".
- PGParamAdapt.BuildKernelOrder requires the run count to fit the order array. The code writes without a bound, which is the KernelOrderOverrun finding.
- PSysP2pLite.BuildKernelIds requires the run count to fit the order array, for the same reason as the PGParamAdapt builder.
- PGParamAdapt.PreparedTerminal, PGParamAdapt.NewKernelOrder, PGParamAdapt.PrepareTerminal, PGParamAdapt.PreparedTerminals, PGParamAdapt.PrepareTerminals, PGParamAdapt.PrepareSpec, PGParamAdapt.PrepareParsed, PGParamAdapt.ParamAdapter.Init, PSysP2pLite.LiteTerminal, PSysP2pLite.PrepareLiteTerminal, PSysP2pLite.LiteTerminals, PSysP2pLite.PrepareLiteTerminals, PSysP2pLite.LitePrepareSpec, PSysP2pLite.PrepareLite, PSysP2pLite.P2pLite.SetManifest: these require the manifest's kernel runs to fit the order array, as the two builders do. A manifest with more runs makes the code write past the array (the KernelOrderOverrun finding), which the model does not follow.
- PSysPipeBase.GetManifest: the NO_MEMORY path of the buffer creation (src/core/psyslite/PSysPipeBase.cpp:230) is not modelled.
- IspParamAdaptor: the statistics conversion and the internals of runIspAdaptL belong to the ISP library and are not modelled. Only the slot ring and the terminal layout are.
- Parameters: merging two parameter sets goes through ParameterHelper, which is not part of this model. Frame rates are integer ranges.
- Utils.FormatToString returns the name as a value. For a listed code the code returns a pointer into the static table, which the value stands for. For any other code the code returns a pointer into a destroyed temporary; the model returns the fourcc text that was evidently meant (see the Utils.cpp:222 row under "## Findings").
- PlatformData.StaticCameraInfo.CalculateFrameParams requires at least one media-control configuration when none is current. The code indexes the first configuration unguarded.
- PlatformData.StaticCameraInfo.SelectISysFormat: the code reads the first entry of an empty supported ISYS list without a check. The model reports that read as `defined == false` and leaves the ISYS format unchanged; it does not model the value the read would return.
- PSysProcessor.Processor.OnFrameDone requires a frame in flight. The code reads the front of the queue unguarded.
- CameraDevice.Device.HandleQueueBuffer: each stream's qbuf enters as its answer, the QbufOutcome parameter. The stream's BufferQueue and the sequence number passed to it are not modelled.
- CameraDevice.Device.AnalyzeStream requires at most four streams. Its only caller, Configure, guarantees this with the corrected bound (see "## Findings").
- PSysPipe.PayloadSize accepts every height and bpl and computes with unbounded integers: height x bpl (raw), (height / 2) x bpl (vectorized YUV) and x + x / 2 for x = height x bpl (other YUV). The code (src/core/psysprocessor/PSysPipe.cpp:770-796) forms every product in uint32. For YUV it then converts the product to float, multiplies by 1.0 or 1.5 and truncates back to uint32. The YUV sizes agree only while the float values are exact: 3 x height x bpl < 2^24 for the other YUV formats, and (height / 2) x bpl < 2^24 for the vectorized one. Above those bounds float rounding can change the result in its low bits. Above 2^32 the uint32 product wraps, for raw frames too, and a float result of 2^32 or more makes the conversion undefined. The model follows neither.
- Ltm.LtmAlgo.UpdateParameter keeps the manual gain in dB: the code converts it with pow(10, g/20), which is not modelled. The LTM worker thread and its queue are left out.
- IntelDvs: the configure overload that takes a tuning mode (src/3a/IntelDvs.cpp:177-191) is not modelled, nor are the DVS library calls it makes. Zoom ratios are rationals.
- Custom3A: the post-gamma histogram (tools/simple_custom_3a/Customized3A.cpp:243-329) is floating-point statistics and is not modelled.
- ExifMaker: the EXIF encoder, the maker note, the clock and the GPS and lens values are not modelled. Only the field bookkeeping is.
- Camera3Hwi: gralloc, the JPEG encoder, the request channel and the wait for in-flight requests are not modelled. Neither are the framework notifications: the shutter and result callbacks, the per-request errors of flush and the device error of handleCameraDeviceError.
- Camera3Hwi.Camera3Hal.ProcessCaptureResult: the frame-number mismatch only logs in the code and is not modelled; the NULL-buffer check comes after the buffer was already dereferenced and is not modelled either.
- Camera3Hwi.Camera3Hal.HandleCameraDeviceError is modelled as the corrected behaviour, entered with mLock released. Initialize, ConfigureStreams and ProcessCaptureRequest call it from ERROR; the self-block the code has there is the DeviceErrorSelfBlocks finding.
- SocCameraHw: the preview and picture threads and their buffers are not modelled.
- SensorHwCtrl.OrStatus: when both calls fail the model returns the first failure, where the code's `status |=` gives the bitwise OR of two negative error codes, which is no named status. The numeric codes are in iutils/Errors.h, which is not part of this model; OrStatusBits states the bit pattern for the cases with at most one failure.
- SensorHwCtrl.ShutterAndReadoutTiming: its ensures covers the error paths. The values of the DOL register writes are stated by the separate lemmas DolWritesInRange and DolGuardsPassed.
- Constants from headers that are not part of this model, such as error code values, MAX_STREAM_NUMBER and MAX_CAMERAS, are parameters or named constants. Only their relations are used.

## Findings

| source | as written | input that shows it | evidently intended | confidence | as-written member | corrected member |
|---|---|---|---|---|---|---|
| src/metadata/icamera_metadata_base.cpp:775-780 | an inline update copies only the new payload bytes into the union and keeps the old bytes after them | an INT32 entry holding 5, updated to hold no items, keeps 5 in its union, which the validator refuses for an entry with no items | the unused bytes of the union are cleared | medium, not executed | MetadataLayout.EmptyUpdateKeepsStaleUnion | MetadataBase.Metadata.Update |
| src/metadata/icamera_metadata_base.cpp:490-498 | appending onto an empty destination only ORs the source's sorted flag in | a block sorted while empty, then appended an unsorted source with tags 5 and 3: it stays flagged sorted and the bisecting find misses tag 5 | the result is sorted exactly when the source was | medium, not executed | MetadataBase.SortedEmptyAppendMisleadsFind | MetadataBase.AppendFlags |
| aal/MetadataConvert.cpp:1595-1612 | the window loop runs `i < count/5` with `i += 5` | two windows (count 10): the loop stops after the first | one window per five integers | high, not executed | MetadataConvert.HalWindowAsWrittenDropsSecond | MetadataConvert.RegionRoundTrip |
| aal/MetadataConvert.cpp:776-790 | the stabilization and effect modes are looked up with the AWB mode | AWB AUTO with stabilization ON reports OFF | each mode is looked up in its own table | high, not executed | MetadataConvert.ReportedModesIgnoreSetting | MetadataConvert.ReportedModesRoundTrip |
| src/core/pgprocessor/PGParamAdapt.cpp:330-348 | the kernel's payload range is zeroed before the size check | a 1-byte payload buffer and a 16-byte kernel range: 16 bytes are cleared before BAD_VALUE | the size check comes first | high, not executed | PGParamAdapt.ZeroBeforeCheckOverrun | PGParamAdapt.EncodeStep |
| src/core/pgprocessor/PGParamAdapt.cpp:322-327 | the kernel-order scan stops only at an id that is not a kernel | an order list whose every slot holds a kernel id: the scan reads past its end | the scan also stops at the end of the list | medium, not executed | PGParamAdapt.FullOrderOverrun | PGParamAdapt.OrderItems |
| src/core/pgprocessor/PGParamAdapt.cpp:655-682 | the run counter is a uint8_t and runs are stored without a bound | n+1 sections of distinct consecutive kernels with an n-entry order: run n is stored past the array | runs beyond the array are refused | medium, not executed | PgRequirements.KernelOrderOverrun | PGParamAdapt.BuildKernelOrder |
| src/core/psyslite/PSysP2pLite.cpp:321-328 | the lite order scan stops only at an id that is not a kernel | an order list whose every slot holds a kernel id | the scan also stops at the end of the list | medium, not executed | PSysP2pLite.FullLiteOrderOverrun | PSysP2pLite.LiteOrderRoundTrip |
| src/core/psyslite/ScalePipeline.cpp:144-151 | the _PUT_MAIN terminal gets the second frame only when there are exactly two outputs | three outputs of different sizes: _PUT_MAIN is described with the display frame while its buffer is the second output's | the second frame from two outputs on | high, not executed | PSysScale.TerminalFrameMismatch | PSysScale.TerminalFrame |
| src/core/psyslite/ScalePipeline.cpp:248-339 | the main and second output paths configure one shared cropper record | a 1280x720 main output and a 640x480 second output: the main cropper ends configured for 640x480 | each output path has its own cropper record | low, not executed | PSysScale.SharedCropperOverwritten | PSysScale.OwnRecordsConfigured |
| src/core/CameraDevice.cpp:633-636 | the stream count is bounded only by MAX_STREAM_NUMBER, and the rank indexes a four-entry port table | MAX_STREAM_NUMBER above four and five streams: the fifth rank reads past the table | more streams than ports are refused | medium, not executed | CameraDevice.FifthStreamReadsPastPorts | CameraDevice.Device.Configure |
| src/core/SensorHwCtrl.cpp:411-428 | the conversion-gain value reads the third analog gain | two gains, which the count check lets through: gains[2] is read past the end | the third gain is read only when there are three | high, not executed | SensorHwCtrl.ConversionGainReadsPastEnd | SensorHwCtrl.ConversionGain |
| src/core/SensorHwCtrl.cpp:357-380 | `digitalGains[1]` is read at line 360, before any check of the number of gains | one digital gain with two analog gains, which setGains lets through: digitalGains[1] is read past the end | fewer than two digital gains are refused with the BAD_VALUE the status starts with, and nothing is written | high, not executed | SensorHwCtrl.MultiDigitalGainReadsPastEnd | SensorHwCtrl.MultiDigitalGain |
| src/3a/intel3a/Intel3AParameter.cpp:540-563 | the AWB convergence frame count is chosen from the AE converge speed | a slow AWB speed with a normal AE speed leaves AWB running every frame | the AWB converge speed decides | medium, not executed | Intel3AParameter.AwbTicksFollowAeSpeed | Intel3AParameter.Parameter3A.UpdateAwbParameter |
| src/3a/IntelDvs.cpp:326-327 | the zoom ratio is an integer division | a 1920-wide input with a 192-pixel envelope gives 1 where the ratio is 1.25 | a fractional ratio | medium, not executed | IntelDvs.ZoomRatioTruncated | IntelDvs.ZoomRatio |
| src/3a/IntelDvs.cpp:545-582 | the requested zoom is stored through an int | a 1.5x request is stored as 1, so the same request is applied again on the next frame | the stored ratio is the requested one | medium, not executed | IntelDvs.FractionalZoomLost | IntelDvs.ZoomStep |
| halv3/Camera3HWI.cpp:657-700 | a full pool whose every buffer is busy still marks and returns its last slot | a full pool whose every buffer is in use (one buffer, MAX_BUFFERS 1): the busy buffer is handed out a second time | no buffer when none is free | medium, not executed | Camera3Hwi.ExhaustedPoolReturnsBusyBuffer | Camera3Hwi.PoolTakeReturnsFreeBuffer |
| halv3/Camera3HWI.cpp:2289-2316 | initialize, configureStreams and processCaptureRequest call handleCameraDeviceError from ERROR while their AutoMutex holds mLock, and handleCameraDeviceError locks mLock again at line 2294 | any entry point called in ERROR: with a non-recursive mutex the thread blocks on the lock it holds | the error handling runs with the lock released, flushes the pending requests and leaves the HAL DEINIT | medium, not executed (the mutex type is declared in a header that is not part of this model) | Camera3Hwi.DeviceErrorSelfBlocks | Camera3Hwi.Camera3Hal.HandleCameraDeviceError |
| halv1/SocCameraHWInterface.cpp:472-475 | msgTypeEnabled answers yes when any queried message is enabled | query preview and video frames (0x30) with only preview (0x10) enabled: yes | yes only when all queried messages are enabled | low, not executed | SocCameraHw.AnyInsteadOfAll | SocCameraHw.MaskUpdates |
| tools/simple_custom_3a/Customized3A.cpp:124-149 | the successful path of the grid copy has no return statement | any call with a grid: the result is indeterminate | 0 on success | high, not executed | Custom3A.SuccessfulCopyHasNoResult | Custom3A.IspStatistics.InitHdrRgbsGrid |
| tools/simple_custom_3a/Customized3A.cpp:485-592 | the table row is derived from a statistics counter that is -1 until the first statistics | a run right after init, before any statistics: row -1 is read | row 0 before the first statistics | medium, not executed | Custom3A.RunBeforeStatisticsReadsRowMinusOne | Custom3A.TableRow |
| src/iutils/Utils.cpp:222 | format2string returns `fourcc2String(format).c_str()`, a pointer into the temporary string fourcc2String returns by value (Utils.cpp:202-210), which is destroyed when the return statement ends | a table with only NV12 and the code 'ABCD': the caller gets a dangling pointer instead of "ABCD" | the fourcc text of the code, held in storage that outlives the call | high, not executed | Utils.FormatToStringAsWrittenDangles | Utils.FormatToString |
