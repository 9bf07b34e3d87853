/**
 * The typed parameter store of the HAL (Parameters.cpp).  Every setter
 * writes one tag of a metadata store and every getter reads it back,
 * checking that the stored element count is exactly the count the value
 * needs.  The store is modelled by what a getter can observe: a map from
 * tag to the stored elements (integers; a float is represented by its
 * encoding, which the store never interprets).
 */
module Parameters {
  import opened Common

  // ---------------------------------------------------------------------
  // Windows: camera_window_t is five ints, stored flat, five per window.
  // ---------------------------------------------------------------------

  datatype Window = Window(left: int, top: int, right: int, bottom: int, weight: int)

  /** sizeof(camera_window_t) / sizeof(int) */
  const WINDOW_ELEMS: nat := 5

  function WindowInts(w: Window): (r: seq<int>)
    ensures |r| == WINDOW_ELEMS
    ensures r[0] == w.left && r[1] == w.top && r[2] == w.right && r[3] == w.bottom && r[4] == w.weight
  {
    [w.left, w.top, w.right, w.bottom, w.weight]
  }

  /** The flat layout written by setRegions: the windows' five ints, in order. */
  function Flatten(ws: seq<Window>): (vs: seq<int>)
    ensures |vs| == WINDOW_ELEMS * |ws|
  {
    if ws == [] then [] else Flatten(ws[..|ws| - 1]) + WindowInts(ws[|ws| - 1])
  }

  function WindowAt(vs: seq<int>, i: nat): Window
    requires i + WINDOW_ELEMS <= |vs|
  {
    Window(vs[i], vs[i + 1], vs[i + 2], vs[i + 3], vs[i + 4])
  }

  /** The windows getRegions reads back from a flat list whose length is a multiple of five. */
  function Unflatten(vs: seq<int>): (ws: seq<Window>)
    requires |vs| % WINDOW_ELEMS == 0
    ensures WINDOW_ELEMS * |ws| == |vs|
  {
    if vs == [] then [] else Unflatten(vs[..|vs| - WINDOW_ELEMS]) + [WindowAt(vs, |vs| - WINDOW_ELEMS)]
  }

  lemma {:induction false} UnflattenFlatten(ws: seq<Window>)
    ensures Unflatten(Flatten(ws)) == ws
  {
    if ws != [] {
      var init, last := ws[..|ws| - 1], ws[|ws| - 1];
      var vs := Flatten(ws);
      assert vs == Flatten(init) + WindowInts(last);
      assert vs[..|vs| - WINDOW_ELEMS] == Flatten(init);
      UnflattenFlatten(init);
      assert WindowAt(vs, |vs| - WINDOW_ELEMS) == last;
      assert ws == init + [last];
    }
  }

  lemma {:induction false} FlattenUnflatten(vs: seq<int>)
    requires |vs| % WINDOW_ELEMS == 0
    ensures Flatten(Unflatten(vs)) == vs
  {
    if vs != [] {
      var n := |vs| - WINDOW_ELEMS;
      var ws := Unflatten(vs);
      assert ws == Unflatten(vs[..n]) + [WindowAt(vs, n)];
      assert ws[..|ws| - 1] == Unflatten(vs[..n]);
      FlattenUnflatten(vs[..n]);
      assert vs == vs[..n] + WindowInts(WindowAt(vs, n));
    }
  }

  /** The packing loop of setRegions. */
  method EncodeWindows(regions: seq<Window>) returns (values: seq<int>)
    ensures values == Flatten(regions)
  {
    values := [];
    var i := 0;
    while i < |regions|
      invariant 0 <= i <= |regions|
      invariant values == Flatten(regions[..i])
    {
      assert regions[..i + 1][..i] == regions[..i];
      values := values + WindowInts(regions[i]);
      i := i + 1;
    }
    assert regions[..|regions|] == regions;
  }

  /** The unpacking loop of getRegions, stepping five ints at a time. */
  method DecodeWindows(vs: seq<int>) returns (ws: seq<Window>)
    requires |vs| % WINDOW_ELEMS == 0
    ensures ws == Unflatten(vs)
  {
    ws := [];
    var i := 0;
    while i < |vs|
      invariant 0 <= i <= |vs| && i % WINDOW_ELEMS == 0
      invariant ws == Unflatten(vs[..i])
    {
      assert vs[..i + WINDOW_ELEMS][..i] == vs[..i];
      assert WindowAt(vs[..i + WINDOW_ELEMS], i) == WindowAt(vs, i);
      ws := ws + [WindowAt(vs, i)];
      i := i + WINDOW_ELEMS;
    }
    assert vs[..|vs|] == vs;
  }

  // ---------------------------------------------------------------------
  // Ranges: consecutive (min, max) pairs.
  // ---------------------------------------------------------------------

  datatype Range = Range(min: int, max: int)

  /** The ranges getSupportedFpsRange reads from a list of even length. */
  function Pairs(vs: seq<int>): (rs: seq<Range>)
    requires |vs| % 2 == 0
    ensures 2 * |rs| == |vs|
    ensures forall k :: 0 <= k < |rs| ==> rs[k] == Range(vs[2 * k], vs[2 * k + 1])
  {
    if vs == [] then [] else Pairs(vs[..|vs| - 2]) + [Range(vs[|vs| - 2], vs[|vs| - 1])]
  }

  method DecodePairs(vs: seq<int>) returns (rs: seq<Range>)
    requires |vs| % 2 == 0
    ensures rs == Pairs(vs)
  {
    rs := [];
    var i := 0;
    while i < |vs|
      invariant 0 <= i <= |vs| && i % 2 == 0
      invariant rs == Pairs(vs[..i])
    {
      assert vs[..i + 2][..i] == vs[..i];
      rs := rs + [Range(vs[i], vs[i + 1])];
      i := i + 2;
    }
    assert vs[..|vs|] == vs;
  }

  // ---------------------------------------------------------------------
  // 32-bit control ids stored as int32 and read back as uint32.
  // ---------------------------------------------------------------------

  const TWO_32: int := 0x1_0000_0000
  const TWO_31: int := 0x8000_0000

  /** The (int32_t) conversion of a uint32_t control id. */
  function ToInt32(x: nat): (v: int)
    requires x < TWO_32
    ensures -TWO_31 <= v < TWO_31
    ensures v % TWO_32 == x
  {
    if x < TWO_31 then x else x - TWO_32
  }

  /** The (uint32_t) conversion of a stored int32. */
  function ToUint32(v: int): (x: nat)
    ensures x < TWO_32
  {
    v % TWO_32
  }

  lemma Uint32RoundTrip(x: nat)
    requires x < TWO_32
    ensures ToUint32(ToInt32(x)) == x
  {
  }

  predicate StrictlyIncreasing(xs: seq<nat>)
  {
    forall i, j :: 0 <= i < j < |xs| ==> xs[i] < xs[j]
  }

  function Int32s(xs: seq<nat>): (vs: seq<int>)
    requires forall i :: 0 <= i < |xs| ==> xs[i] < TWO_32
    ensures |vs| == |xs| && forall i :: 0 <= i < |xs| ==> vs[i] == ToInt32(xs[i])
  {
    if xs == [] then [] else Int32s(xs[..|xs| - 1]) + [ToInt32(xs[|xs| - 1])]
  }

  /** The set a getter builds by inserting every stored element as a uint32. */
  function Uint32Set(vs: seq<int>): (s: set<nat>)
    ensures forall x :: x in s <==> exists i :: 0 <= i < |vs| && ToUint32(vs[i]) == x
  {
    if vs == [] then {} else Uint32Set(vs[..|vs| - 1]) + {ToUint32(vs[|vs| - 1])}
  }

  /** Writing the ids in any order and reading them back as uint32 yields the same set. */
  lemma {:induction false} EnabledControlsRoundTrip(ids: set<nat>, xs: seq<nat>)
    requires forall i :: 0 <= i < |xs| ==> xs[i] < TWO_32
    requires forall x :: x in ids <==> x in xs
    ensures Uint32Set(Int32s(xs)) == ids
  {
    var vs := Int32s(xs);
    forall x | x in ids ensures x in Uint32Set(vs) {
      var i :| 0 <= i < |xs| && xs[i] == x;
      Uint32RoundTrip(xs[i]);
      assert ToUint32(vs[i]) == x;
    }
    forall x | x in Uint32Set(vs) ensures x in ids {
      var i :| 0 <= i < |vs| && ToUint32(vs[i]) == x;
      Uint32RoundTrip(xs[i]);
    }
  }

  /** A finite non-empty set of naturals has a least element (what std::set visits first). */
  lemma {:induction false} LeastElement(s: set<nat>) returns (m: nat)
    requires s != {}
    ensures m in s && forall y :: y in s ==> m <= y
  {
    var x :| x in s;
    if s == {x} {
      m := x;
    } else {
      var m' := LeastElement(s - {x});
      m := if x < m' then x else m';
      forall y | y in s ensures m <= y {
        if y != x {
          assert y in s - {x};
        }
      }
    }
  }

  /** The traversal of a std::set: every element once, in increasing order. */
  method AscendingElements(ids: set<nat>) returns (xs: seq<nat>)
    ensures StrictlyIncreasing(xs)
    ensures forall x :: x in ids <==> x in xs
    ensures |xs| == |ids|
  {
    xs := [];
    var rest := ids;
    while rest != {}
      invariant rest <= ids
      invariant StrictlyIncreasing(xs)
      invariant forall x :: x in ids <==> x in xs || x in rest
      invariant forall i, y :: 0 <= i < |xs| && y in rest ==> xs[i] < y
      invariant forall i :: 0 <= i < |xs| ==> xs[i] !in rest
      invariant |xs| + |rest| == |ids|
      decreases |rest|
    {
      ghost var least := LeastElement(rest);
      var m :| m in rest && forall y :: y in rest ==> m <= y;
      xs := xs + [m];
      rest := rest - {m};
    }
  }

  // ---------------------------------------------------------------------
  // The store.
  // ---------------------------------------------------------------------

  /** What IspControlUtils reports for a control id: its payload size and its tag. */
  datatype ControlInfo = ControlInfo(size: nat, tag: nat)

  /** getSizeById: 0 for an id the control table does not list. */
  function ControlSize(controls: map<nat, ControlInfo>, id: nat): nat
  {
    if id in controls then controls[id].size else 0
  }

  /** LTM tuning data size fixed in the setter and the getter. */
  const LTM_TUNING_DATA_SIZE: nat := 264

  /** The elements a getter sees for a tag: none when the tag is absent. */
  function EntryOf(store: map<nat, seq<int>>, tag: nat): seq<int>
  {
    if tag in store then store[tag] else []
  }

  /** The value an exact-count getter reads, or None when it returns NAME_NOT_FOUND. */
  function Lookup(store: map<nat, seq<int>>, tag: nat, count: nat): (r: Option<seq<int>>)
    ensures r.Some? <==> tag in store && |store[tag]| == count
    ensures r.Some? ==> r.value == store[tag] && |r.value| == count
  {
    if tag in store && |store[tag]| == count then Some(store[tag]) else None
  }

  lemma SetThenLookup(store: map<nat, seq<int>>, tag: nat, values: seq<int>, other: nat)
    ensures Lookup(store[tag := values], tag, |values|) == Some(values)
    ensures other != tag ==> forall n :: Lookup(store[tag := values], other, n) == Lookup(store, other, n)
  {
  }

  lemma EraseThenLookup(store: map<nat, seq<int>>, tag: nat, n: nat)
    ensures Lookup(store - {tag}, tag, n) == None
  {
  }

  class Parameters {
    var store: map<nat, seq<int>>

    /** A fresh Parameters holds no tag. */
    constructor ()
      ensures store == map[]
    {
      store := map[];
    }

    /**
     * The copy constructor.  The store is a value, so the copy is deep: a
     * later change to `other` (which modifies only `other`) cannot reach it.
     */
    constructor Copy(other: Parameters)
      ensures store == other.store
    {
      store := other.store;
    }

    /** operator=: a deep copy of `other`'s store. */
    method Assign(other: Parameters)
      modifies this
      ensures store == old(other.store)
    {
      store := other.store;
    }

    /**
     * A scalar or fixed-size setter: metadata update of the tag with the
     * value's elements, whose status is returned.  A one-byte field keeps
     * only the low 8 bits, which callers express by passing U8(v).
     * updateStatus is what CameraMetadata::update reports (a locked buffer,
     * a type mismatch, a failed resize); on failure the store is unchanged.
     */
    method Set(tag: nat, values: seq<int>, updateStatus: Status) returns (r: Status)
      modifies this
      ensures r == updateStatus
      ensures r == OK ==> store == old(store)[tag := values]
      ensures r != OK ==> store == old(store)
    {
      if updateStatus == OK {
        store := store[tag := values];
      }
      r := updateStatus;
    }

    /** A scalar or fixed-size getter: NAME_NOT_FOUND unless exactly `count` elements are stored. */
    method Get(tag: nat, count: nat) returns (r: Status, values: seq<int>)
      ensures r == OK || r == NAME_NOT_FOUND
      ensures r == OK <==> Lookup(store, tag, count).Some?
      ensures r == OK ==> values == store[tag]
    {
      if tag in store && |store[tag]| == count {
        values := store[tag];
        r := OK;
      } else {
        values := [];
        r := NAME_NOT_FOUND;
      }
    }

    /** A list getter (supported modes, features, control ids): every stored element, in order. */
    method GetList(tag: nat) returns (r: Status, values: seq<int>)
      ensures r == OK && values == EntryOf(store, tag)
    {
      var entry := EntryOf(store, tag);
      values := [];
      var i := 0;
      while i < |entry|
        invariant 0 <= i <= |entry| && values == entry[..i]
      {
        values := values + [entry[i]];
        i := i + 1;
      }
      assert entry[..|entry|] == entry;
      r := OK;
    }

    /** setAeRegions / setAwbRegions / setAfRegions: INVALID_OPERATION for no windows, else the update's status. */
    method SetRegions(tag: nat, regions: seq<Window>, updateStatus: Status) returns (r: Status)
      modifies this
      ensures regions == [] ==> r == INVALID_OPERATION
      ensures regions != [] ==> r == updateStatus
      ensures r == OK ==> store == old(store)[tag := Flatten(regions)]
      ensures r != OK ==> store == old(store)
    {
      if regions == [] {
        return INVALID_OPERATION;
      }
      var values := EncodeWindows(regions);
      r := Set(tag, values, updateStatus);
    }

    /** getAeRegions / getAwbRegions / getAfRegions: the output is cleared first. */
    method GetRegions(tag: nat) returns (r: Status, regions: seq<Window>)
      ensures r == OK || r == NAME_NOT_FOUND
      ensures r == NAME_NOT_FOUND <==> |EntryOf(store, tag)| == 0 || |EntryOf(store, tag)| % WINDOW_ELEMS != 0
      ensures r == NAME_NOT_FOUND ==> regions == []
      ensures r == OK ==> Flatten(regions) == store[tag]
    {
      var entry := EntryOf(store, tag);
      if |entry| == 0 || |entry| % WINDOW_ELEMS != 0 {
        return NAME_NOT_FOUND, [];
      }
      regions := DecodeWindows(entry);
      FlattenUnflatten(entry);
      r := OK;
    }

    /** getSupportedFpsRange: NAME_NOT_FOUND for no or an odd number of elements. */
    method GetSupportedFpsRange(tag: nat) returns (r: Status, ranges: seq<Range>)
      ensures r == OK || r == NAME_NOT_FOUND
      ensures r == NAME_NOT_FOUND <==> |EntryOf(store, tag)| == 0 || |EntryOf(store, tag)| % 2 != 0
      ensures r == NAME_NOT_FOUND ==> ranges == []
      ensures r == OK ==> 2 * |ranges| == |store[tag]|
      ensures r == OK ==> forall k :: 0 <= k < |ranges| ==>
        ranges[k].min == store[tag][2 * k] && ranges[k].max == store[tag][2 * k + 1]
    {
      var entry := EntryOf(store, tag);
      if |entry| == 0 || |entry| % 2 != 0 {
        return NAME_NOT_FOUND, [];
      }
      ranges := DecodePairs(entry);
      r := OK;
    }

    /**
     * metadata erase: removing an absent tag is OK too.  eraseStatus is what
     * CameraMetadata::erase reports (a locked buffer); on failure the store
     * is unchanged.
     */
    method Erase(tag: nat, eraseStatus: Status) returns (r: Status)
      modifies this
      ensures r == eraseStatus
      ensures r == OK ==> store == old(store) - {tag}
      ensures r != OK ==> store == old(store)
    {
      if eraseStatus == OK {
        store := store - {tag};
      }
      r := eraseStatus;
    }

    /**
     * setAwbResult / setLtmTuningData: a null pointer erases the tag,
     * otherwise `size` bytes are stored.
     */
    method SetBlob(tag: nat, data: Option<seq<int>>, size: nat, metaStatus: Status) returns (r: Status)
      requires data.Some? ==> |data.value| >= size
      modifies this
      ensures r == metaStatus
      ensures r != OK ==> store == old(store)
      ensures r == OK && data.None? ==> store == old(store) - {tag}
      ensures r == OK && data.Some? ==> store == old(store)[tag := data.value[..size]]
    {
      if data.None? {
        r := Erase(tag, metaStatus);
      } else {
        r := Set(tag, data.value[..size], metaStatus);
      }
    }

    /**
     * getAwbResult: BAD_VALUE for a null destination, NAME_NOT_FOUND unless
     * exactly `size` bytes are stored.
     */
    method GetAwbResult(tag: nat, size: nat, hasDest: bool) returns (r: Status, data: seq<int>)
      ensures r == BAD_VALUE <==> !hasDest
      ensures r == OK <==> hasDest && Lookup(store, tag, size).Some?
      ensures r == OK ==> data == store[tag]
      ensures r != OK && r != BAD_VALUE ==> r == NAME_NOT_FOUND
    {
      data := [];
      if !hasDest {
        return BAD_VALUE, data;
      }
      r, data := Get(tag, size);
    }

    /**
     * getLtmTuningData / the lookup half of getIspControl: a null
     * destination skips only the copy.
     */
    method GetBlob(tag: nat, size: nat, hasDest: bool) returns (r: Status, data: Option<seq<int>>)
      ensures r == OK || r == NAME_NOT_FOUND
      ensures r == OK <==> Lookup(store, tag, size).Some?
      ensures data.Some? <==> r == OK && hasDest
      ensures data.Some? ==> data.value == store[tag]
    {
      var values;
      r, values := Get(tag, size);
      data := if r == OK && hasDest then Some(values) else None;
    }

    /**
     * setMakernoteData / setCustomAicParam: BAD_VALUE for a null pointer
     * (and, for the makernote, a zero size); otherwise the bytes are stored.
     */
    method SetVariableBlob(tag: nat, data: Option<seq<int>>, rejectEmpty: bool, updateStatus: Status) returns (r: Status)
      modifies this
      ensures data.None? || (rejectEmpty && |data.value| == 0) ==> r == BAD_VALUE
      ensures !(data.None? || (rejectEmpty && |data.value| == 0)) ==> r == updateStatus
      ensures r != OK ==> store == old(store)
      ensures r == OK ==> store == old(store)[tag := data.value]
    {
      if data.None? || (rejectEmpty && |data.value| == 0) {
        return BAD_VALUE;
      }
      r := Set(tag, data.value, updateStatus);
    }

    /**
     * getMakernoteData / getCustomAicParam: BAD_VALUE without a destination;
     * a positive count copies min(destination size, count) bytes, as
     * MEMCPY_S does, and reports the full count in the size; an empty entry
     * is NAME_NOT_FOUND. `copied` is what lands in the destination and
     * `size` the size argument after the call.
     */
    method GetVariableBlob(tag: nat, hasDest: bool, destSize: nat) returns (r: Status, copied: seq<int>, size: nat)
      ensures r == BAD_VALUE <==> !hasDest
      ensures r == OK <==> hasDest && |EntryOf(store, tag)| > 0
      ensures r == OK ==> size == |store[tag]| && |copied| == Min(destSize, size) && copied == store[tag][..|copied|]
      ensures r != OK ==> copied == [] && size == destSize
      ensures r != OK && r != BAD_VALUE ==> r == NAME_NOT_FOUND
    {
      copied, size := [], destSize;
      if !hasDest {
        return BAD_VALUE, copied, size;
      }
      var entry := EntryOf(store, tag);
      if |entry| > 0 {
        copied := entry[..Min(destSize, |entry|)];
        size := |entry|;
        r := OK;
      } else {
        r := NAME_NOT_FOUND;
      }
    }

    /** setIspControl: BAD_VALUE for an id of size 0; null data erases the control's tag. */
    method SetIspControl(controls: map<nat, ControlInfo>, id: nat, data: Option<seq<int>>, metaStatus: Status) returns (r: Status)
      requires data.Some? ==> |data.value| >= ControlSize(controls, id)
      modifies this
      ensures ControlSize(controls, id) == 0 ==> r == BAD_VALUE
      ensures ControlSize(controls, id) > 0 ==> r == metaStatus
      ensures r != OK ==> store == old(store)
      ensures r == OK && data.None? ==> store == old(store) - {controls[id].tag}
      ensures r == OK && data.Some? ==> store == old(store)[controls[id].tag := data.value[..controls[id].size]]
    {
      var size := ControlSize(controls, id);
      if size == 0 {
        return BAD_VALUE;
      }
      r := SetBlob(controls[id].tag, data, size, metaStatus);
    }

    /** getIspControl: BAD_VALUE for an id of size 0; NAME_NOT_FOUND unless exactly `size` bytes are stored. */
    method GetIspControl(controls: map<nat, ControlInfo>, id: nat, hasDest: bool) returns (r: Status, data: Option<seq<int>>)
      ensures r == BAD_VALUE <==> ControlSize(controls, id) == 0
      ensures r == OK <==> ControlSize(controls, id) > 0 && Lookup(store, controls[id].tag, controls[id].size).Some?
      ensures r != OK && r != BAD_VALUE ==> r == NAME_NOT_FOUND
      ensures data.Some? <==> r == OK && hasDest
      ensures data.Some? ==> data.value == store[controls[id].tag]
    {
      var size := ControlSize(controls, id);
      if size == 0 {
        return BAD_VALUE, None;
      }
      r, data := GetBlob(controls[id].tag, size, hasDest);
    }

    /**
     * setEnabledIspControls: an empty set erases the tag; otherwise the ids
     * are stored as int32, in the set's ascending order.
     */
    method SetEnabledIspControls(tag: nat, ids: set<nat>, metaStatus: Status) returns (r: Status)
      requires forall x :: x in ids ==> x < TWO_32
      modifies this
      ensures r == metaStatus
      ensures r != OK ==> store == old(store)
      ensures r == OK && ids == {} ==> store == old(store) - {tag}
      ensures r == OK && ids != {} ==> tag in store && store == old(store)[tag := store[tag]]
      ensures r == OK && ids != {} ==> |store[tag]| == |ids| && Uint32Set(store[tag]) == ids
    {
      if |ids| == 0 {
        r := Erase(tag, metaStatus);
        return;
      }
      var xs := AscendingElements(ids);
      assert forall i :: 0 <= i < |xs| ==> xs[i] in ids;
      var values := Int32s(xs);
      EnabledControlsRoundTrip(ids, xs);
      r := Set(tag, values, metaStatus);
    }

    /** getEnabledIspControls: the output set is cleared, then every stored id is inserted. */
    method GetEnabledIspControls(tag: nat) returns (r: Status, ids: set<nat>)
      ensures r == OK && ids == Uint32Set(EntryOf(store, tag))
    {
      var entry := EntryOf(store, tag);
      ids := {};
      var i := 0;
      while i < |entry|
        invariant 0 <= i <= |entry| && ids == Uint32Set(entry[..i])
      {
        assert entry[..i + 1][..i] == entry[..i];
        ids := ids + {ToUint32(entry[i])};
        i := i + 1;
      }
      assert entry[..|entry|] == entry;
      r := OK;
    }
  }

  /** The uint8_t narrowing of the one-byte setters (modes, locks, qualities). */
  function U8(v: int): (b: int)
    ensures 0 <= b < 256
    ensures 0 <= v < 256 ==> b == v
  {
    v % 256
  }

  /** Set-then-get of a window list returns the windows; get-before-set of a tag fails. */
  lemma RegionsRoundTrip(store: map<nat, seq<int>>, tag: nat, regions: seq<Window>)
    requires regions != []
    ensures var s := store[tag := Flatten(regions)];
      |EntryOf(s, tag)| > 0 && |EntryOf(s, tag)| % WINDOW_ELEMS == 0 && Unflatten(EntryOf(s, tag)) == regions
  {
    UnflattenFlatten(regions);
  }
}
