/**
 * The common part of the light-weight PSYS pipes
 * (src/core/psyslite/PSysPipeBase.cpp): the V4L2 to CSS frame format
 * table, the choice of P2P platform from the PSYS device model, the
 * search for the program group manifest, and the cache that maps user
 * buffers to CIPR buffers.
 *
 * The CIPR driver calls are not part of this model: what the driver
 * answers (capabilities, manifests, whether creating a buffer fails) is a
 * parameter, and a created CIPR buffer is a fresh handle number.
 */
module PSysPipeBase {
  import opened Common
  import opened HalTypes
  import opened PgRequirements
  import CString

  // ---------------------------------------------------------------------
  // getCssFmt (34-56).
  // ---------------------------------------------------------------------

  /** ia_css_frame_format_type, the values the table uses and the "none" value. */
  datatype CssFrameFormat =
    | CSS_YUYV | CSS_UYVY | CSS_YUV420 | CSS_NV12 | CSS_NV16
    | CSS_RGB565 | CSS_RGB888 | CSS_RGBA888
    | IA_CSS_N_FRAME_FORMAT_TYPES

  datatype FormatMap = FormatMap(v4l2Fmt: int, cssFmt: CssFrameFormat)

  /** sFormatMapping. */
  const FORMAT_MAPPING: seq<FormatMap> := [
    FormatMap(V4L2_PIX_FMT_YUYV, CSS_YUYV),
    FormatMap(V4L2_PIX_FMT_UYVY, CSS_UYVY),
    FormatMap(V4L2_PIX_FMT_YUV420, CSS_YUV420),
    FormatMap(V4L2_PIX_FMT_NV12, CSS_NV12),
    FormatMap(V4L2_PIX_FMT_NV16, CSS_NV16),
    FormatMap(V4L2_PIX_FMT_RGB565, CSS_RGB565),
    FormatMap(V4L2_PIX_FMT_RGB24, CSS_RGB888),
    FormatMap(V4L2_PIX_FMT_RGB32, CSS_RGBA888)]

  function V4l2Is(v4l2Fmt: int): FormatMap -> bool
  {
    (m: FormatMap) => m.v4l2Fmt == v4l2Fmt
  }

  /** The CSS format of the first table entry for a V4L2 format, or the "none" value. */
  function CssFmtOf(v4l2Fmt: int): CssFrameFormat
  {
    match FirstFrom(FORMAT_MAPPING, V4l2Is(v4l2Fmt), 0)
    case Some(i) => FORMAT_MAPPING[i].cssFmt
    case None => IA_CSS_N_FRAME_FORMAT_TYPES
  }

  /** getCssFmt: the table is searched in order. */
  method GetCssFmt(v4l2Fmt: int) returns (f: CssFrameFormat)
    ensures f == CssFmtOf(v4l2Fmt)
  {
    var i := 0;
    while i < |FORMAT_MAPPING|
      invariant i <= |FORMAT_MAPPING|
      invariant FirstFrom(FORMAT_MAPPING, V4l2Is(v4l2Fmt), i) == FirstFrom(FORMAT_MAPPING, V4l2Is(v4l2Fmt), 0)
    {
      if FORMAT_MAPPING[i].v4l2Fmt == v4l2Fmt {
        return FORMAT_MAPPING[i].cssFmt;
      }
      i := i + 1;
    }
    f := IA_CSS_N_FRAME_FORMAT_TYPES;
  }

  /** The table's V4L2 formats are distinct, and so are its CSS formats. */
  lemma FormatMappingDistinct()
    ensures forall i, j :: 0 <= i < j < |FORMAT_MAPPING| ==> FORMAT_MAPPING[i].v4l2Fmt != FORMAT_MAPPING[j].v4l2Fmt
    ensures forall i, j :: 0 <= i < j < |FORMAT_MAPPING| ==> FORMAT_MAPPING[i].cssFmt != FORMAT_MAPPING[j].cssFmt
  {
  }

  /**
   * getCssFmt answers the table's own pairing for each of its formats and
   * the "none" value for any other; so it is one-to-one on the formats it
   * knows.
   */
  lemma CssFmtTable(v4l2Fmt: int)
    ensures CssFmtOf(v4l2Fmt) != IA_CSS_N_FRAME_FORMAT_TYPES <==> exists i :: 0 <= i < |FORMAT_MAPPING| && FORMAT_MAPPING[i].v4l2Fmt == v4l2Fmt
    ensures forall i :: 0 <= i < |FORMAT_MAPPING| && FORMAT_MAPPING[i].v4l2Fmt == v4l2Fmt ==> CssFmtOf(v4l2Fmt) == FORMAT_MAPPING[i].cssFmt
  {
    FormatMappingDistinct();
    match FirstFrom(FORMAT_MAPPING, V4l2Is(v4l2Fmt), 0)
    case Some(k) =>
    case None =>
      forall i | 0 <= i < |FORMAT_MAPPING|
        ensures FORMAT_MAPPING[i].v4l2Fmt != v4l2Fmt
      {
        assert !V4l2Is(v4l2Fmt)(FORMAT_MAPPING[i]);
      }
  }

  /** Two V4L2 formats with the same known CSS format are the same format. */
  lemma CssFmtInjective(a: int, b: int)
    requires CssFmtOf(a) == CssFmtOf(b) != IA_CSS_N_FRAME_FORMAT_TYPES
    ensures a == b
  {
    CssFmtTable(a);
    CssFmtTable(b);
    FormatMappingDistinct();
    var i :| 0 <= i < |FORMAT_MAPPING| && FORMAT_MAPPING[i].v4l2Fmt == a;
    var j :| 0 <= j < |FORMAT_MAPPING| && FORMAT_MAPPING[j].v4l2Fmt == b;
    assert FORMAT_MAPPING[i].cssFmt == FORMAT_MAPPING[j].cssFmt;
  }

  // ---------------------------------------------------------------------
  // getCapability (174-206).
  // ---------------------------------------------------------------------

  datatype P2pPlatform = IA_P2P_PLATFORM_BXT_B0 | IA_P2P_PLATFORM_CNL_B0

  /** What ia_cipr_psys_get_capabilities reports, with the device model as the characters before its terminator. */
  datatype Capability = Capability(devModel: string, programGroupCount: nat)

  /**
   * strncmp(a, b, n) == 0 from position k on: the strings agree on each
   * character up to n, stopping after a terminator both share.
   */
  function StrnEqual(a: string, b: string, n: nat, k: nat): bool
    decreases n - k
  {
    if k >= n then true
    else if CString.At(a, k) != CString.At(b, k) then false
    else if CString.At(a, k) == CString.NUL then true
    else StrnEqual(a, b, n, k + 1)
  }

  /** For terminator-free strings, comparing a model against a literal's full length is a prefix test. */
  lemma {:induction false} StrnEqualPrefix(s: string, p: string, k: nat)
    requires CString.NUL !in s && CString.NUL !in p && k <= |p| && k <= |s|
    ensures StrnEqual(s, p, |p|, k) <==> |p| <= |s| && s[k..|p|] == p[k..]
    decreases |p| - k
  {
    if k < |p| {
      assert p[k] != CString.NUL by { assert p[k] in p; }
      if k < |s| {
        assert s[k] != CString.NUL by { assert s[k] in s; }
        StrnEqualPrefix(s, p, k + 1);
        if |p| <= |s| {
          assert s[k..|p|] == [s[k]] + s[k + 1..|p|];
          assert p[k..] == [p[k]] + p[k + 1..];
        }
      }
    }
  }

  /**
   * The platform a device model selects: "ipu4p..." is CNL B0; otherwise
   * "ipu4..." with 'B' as its fourteenth character is BXT B0; anything else
   * is unsupported.
   */
  function PlatformOf(devModel: string): Option<P2pPlatform>
  {
    if "ipu4p" <= devModel then Some(IA_P2P_PLATFORM_CNL_B0)
    else if "ipu4" <= devModel && CString.At(devModel, 13) == 'B' then Some(IA_P2P_PLATFORM_BXT_B0)
    else None
  }

  /** The selection depends only on the prefix and the fourteenth character: every "ipu4p" model is CNL B0. */
  lemma PlatformChoice(devModel: string)
    ensures "ipu4p" <= devModel ==> PlatformOf(devModel) == Some(IA_P2P_PLATFORM_CNL_B0)
    ensures PlatformOf(devModel) == Some(IA_P2P_PLATFORM_BXT_B0) <==>
      "ipu4" <= devModel && !("ipu4p" <= devModel) && CString.At(devModel, 13) == 'B'
    ensures PlatformOf(devModel).Some? ==> "ipu4" <= devModel
  {
  }

  // ---------------------------------------------------------------------
  // getManifest (209-265).
  // ---------------------------------------------------------------------

  /** What a program group manifest says about itself. */
  datatype ManifestInfo = ManifestInfo(
    programCount: nat,
    terminalCount: nat,
    programGroupId: int,
    manifestSize: nat,
    kernelBitmap: KernelBitmap)

  /**
   * What the driver answers for one program group index: no manifest (the
   * size query fails), or a manifest of a size, whether fetching it
   * succeeds, and what it says.
   */
  datatype ManifestSlot = NoManifest | Manifest(size: nat, fetched: bool, info: ManifestInfo)

  datatype ManifestSearch = Found(index: nat, info: ManifestInfo) | SearchFailed(status: Status)

  /**
   * The search from index i: indices without a manifest are skipped; a
   * manifest of size 0 or one that cannot be fetched is UNKNOWN_ERROR; the
   * first manifest of the program group is found; no such manifest is
   * BAD_VALUE.
   */
  function SearchManifest(slots: seq<ManifestSlot>, pgId: int, i: nat): ManifestSearch
    requires i <= |slots|
    decreases |slots| - i
  {
    if i == |slots| then SearchFailed(BAD_VALUE)
    else match slots[i]
      case NoManifest => SearchManifest(slots, pgId, i + 1)
      case Manifest(size, fetched, info) =>
        if size == 0 || !fetched then SearchFailed(UNKNOWN_ERROR)
        else if info.programGroupId == pgId then Found(i, info)
        else SearchManifest(slots, pgId, i + 1)
  }

  /** A slot the search passes over: no manifest, or a good manifest of another group. */
  predicate PassedOver(s: ManifestSlot, pgId: int)
  {
    s.NoManifest? || (s.size != 0 && s.fetched && s.info.programGroupId != pgId)
  }

  /**
   * The search finds the first manifest of the group when every index
   * before it is passed over; it is BAD_VALUE exactly when every index is
   * passed over; otherwise it stops with UNKNOWN_ERROR at a bad manifest
   * that every index before it was passed over to reach.
   */
  lemma {:induction false} SearchManifestMeaning(slots: seq<ManifestSlot>, pgId: int, i: nat)
    requires i <= |slots|
    ensures var r := SearchManifest(slots, pgId, i);
      && (r.Found? ==>
            && i <= r.index < |slots| && slots[r.index].Manifest? && slots[r.index].size != 0
            && slots[r.index].fetched && slots[r.index].info == r.info && r.info.programGroupId == pgId
            && forall j :: i <= j < r.index ==> PassedOver(slots[j], pgId))
      && (r == SearchFailed(BAD_VALUE) <==> forall j :: i <= j < |slots| ==> PassedOver(slots[j], pgId))
      && (r.SearchFailed? ==> r.status == BAD_VALUE || r.status == UNKNOWN_ERROR)
    decreases |slots| - i
  {
    if i < |slots| {
      SearchManifestMeaning(slots, pgId, i + 1);
    }
  }

  // ---------------------------------------------------------------------
  // registerUserBuffer (373-450).
  // ---------------------------------------------------------------------

  /**
   * What a CiprBufferMapping is keyed by: the user pointer, the DMA-buf
   * fd, or the base CIPR buffer of a region.  Pointers and buffers are
   * handle numbers, 0 standing for nullptr.
   */
  datatype BufferKey = UserPtr(ptr: nat) | UserFd(fd: int) | Region(base: nat)

  datatype Mapping = Mapping(key: BufferKey, ciprBuf: nat)

  function KeyIs(key: BufferKey): Mapping -> bool
  {
    (m: Mapping) => m.key == key
  }

  /** The cached CIPR buffer of a key: that of its first mapping, if any. */
  function Cached(buffers: seq<Mapping>, key: BufferKey): Option<nat>
  {
    match FirstFrom(buffers, KeyIs(key), 0)
    case Some(i) => Some(buffers[i].ciprBuf)
    case None => None
  }

  /** A cache in which no key and no CIPR buffer appears twice and every buffer is a handle already handed out. */
  predicate CacheValid(buffers: seq<Mapping>, nextHandle: nat)
  {
    && (forall i, j :: 0 <= i < j < |buffers| ==> buffers[i].key != buffers[j].key)
    && (forall i, j :: 0 <= i < j < |buffers| ==> buffers[i].ciprBuf != buffers[j].ciprBuf)
    && (forall i :: 0 <= i < |buffers| ==> 0 < buffers[i].ciprBuf < nextHandle)
  }

  /** What registering a valid key does to the cache: the cached buffer, or a new mapping to a fresh buffer. */
  datatype CacheState = CacheState(buffers: seq<Mapping>, nextHandle: nat)

  function Register(c: CacheState, key: BufferKey, createFails: bool): (r: (CacheState, Option<nat>))
  {
    match Cached(c.buffers, key)
    case Some(b) => (c, Some(b))
    case None =>
      if createFails then (c, None)
      else (CacheState(c.buffers + [Mapping(key, c.nextHandle)], c.nextHandle + 1), Some(c.nextHandle))
  }

  /**
   * Registering keeps the cache valid; the buffer returned, if any, is the
   * key's cached buffer afterwards; other keys keep their buffers.
   */
  lemma RegisterEffect(c: CacheState, key: BufferKey, createFails: bool, other: BufferKey)
    requires 0 < c.nextHandle && CacheValid(c.buffers, c.nextHandle)
    ensures var (c', b) := Register(c, key, createFails);
      && CacheValid(c'.buffers, c'.nextHandle) && 0 < c'.nextHandle
      && (b.Some? ==> Cached(c'.buffers, key) == b)
      && (b.None? <==> Cached(c.buffers, key).None? && createFails)
      && (b.None? ==> c' == c)
      && (other != key ==> Cached(c'.buffers, other) == Cached(c.buffers, other))
  {
    var (c', b) := Register(c, key, createFails);
    if Cached(c.buffers, key).None? && !createFails {
      CachedAppend(c.buffers, Mapping(key, c.nextHandle), key);
      CachedAppend(c.buffers, Mapping(key, c.nextHandle), other);
      forall i | 0 <= i < |c.buffers|
        ensures c.buffers[i].key != key
      {
        assert !KeyIs(key)(c.buffers[i]);
      }
    }
  }

  /** Appending a mapping changes only what its own key, if new, is cached as. */
  lemma CachedAppend(buffers: seq<Mapping>, m: Mapping, key: BufferKey)
    ensures Cached(buffers + [m], key) == if Cached(buffers, key).None? && m.key == key then Some(m.ciprBuf) else Cached(buffers, key)
  {
    FirstFromAppend(buffers, m, KeyIs(key), 0);
  }

  lemma {:induction false} FirstFromAppend(xs: seq<Mapping>, x: Mapping, p: Mapping -> bool, k: nat)
    requires k <= |xs|
    ensures FirstFrom(xs + [x], p, k) == if FirstFrom(xs, p, k).None? && p(x) then Some(|xs|) else FirstFrom(xs, p, k)
    decreases |xs| - k
  {
    if k < |xs| {
      assert (xs + [x])[k] == xs[k];
      FirstFromAppend(xs, x, p, k + 1);
    }
  }

  /** Registering the same key again returns the same buffer and changes nothing. */
  lemma RegisterTwice(c: CacheState, key: BufferKey, createFails: bool, createFailsAgain: bool)
    requires 0 < c.nextHandle && CacheValid(c.buffers, c.nextHandle)
    requires Register(c, key, createFails).1.Some?
    ensures var (c', b) := Register(c, key, createFails);
      Register(c', key, createFailsAgain) == (c', b)
  {
    RegisterEffect(c, key, createFails, key);
  }

  /** The search loop of registerUserBuffer over the cache. */
  method LookupMapping(buffers: seq<Mapping>, key: BufferKey) returns (found: Option<nat>)
    ensures found == Cached(buffers, key)
  {
    var i := 0;
    while i < |buffers|
      invariant i <= |buffers|
      invariant FirstFrom(buffers, KeyIs(key), i) == FirstFrom(buffers, KeyIs(key), 0)
    {
      if buffers[i].key == key {
        return Some(buffers[i].ciprBuf);
      }
      i := i + 1;
    }
    found := None;
  }

  /** The camera buffer registerUserBuffer(buf, size) reads: a DMA-buf fd or a user pointer (0 for nullptr). */
  datatype CameraBufferRef = DmaBuf(fd: int) | UserMemory(addr: nat)

  /** The key registerUserBuffer(buf, size) caches a camera buffer under, or none when it answers nullptr at once. */
  function CameraBufferKey(buf: CameraBufferRef, size: int): Option<BufferKey>
  {
    match buf
    case DmaBuf(fd) => if size > 0 && fd >= 0 then Some(UserFd(fd)) else None
    case UserMemory(addr) => if size > 0 && addr != 0 then Some(UserPtr(addr)) else None
  }

  /** registerUserBuffer(buf, size) on the cache. */
  function RegisterCamera(c: CacheState, buf: CameraBufferRef, size: int, createFails: bool): (CacheState, Option<nat>)
  {
    match CameraBufferKey(buf, size)
    case None => (c, None)
    case Some(key) => Register(c, key, createFails)
  }

  /**
   * The state PSysPipeBase's core operations change: the program group
   * count and platform from the capabilities, what getManifest records
   * of the found manifest, and the buffer cache (mBuffers) with the next
   * fresh CIPR buffer handle.
   */
  class PipeBase {
    var pgCount: nat
    var platform: Option<P2pPlatform>
    var manifestIndex: Option<nat>
    var manifestInfo: Option<ManifestInfo>
    var terminalCount: nat
    var kernelBitmap: KernelBitmap
    var buffers: seq<Mapping>
    var nextHandle: nat

    ghost predicate Valid()
      reads this
    {
      0 < nextHandle && CacheValid(buffers, nextHandle)
    }

    function Cache(): CacheState
      reads this
    {
      CacheState(buffers, nextHandle)
    }

    constructor()
      ensures Valid() && buffers == [] && pgCount == 0 && platform.None? && manifestIndex.None? && manifestInfo.None?
      ensures terminalCount == 0 && kernelBitmap == {}
    {
      terminalCount := 0;
      kernelBitmap := {};
      pgCount := 0;
      platform := None;
      manifestIndex := None;
      manifestInfo := None;
      buffers := [];
      nextHandle := 1;
    }

    /**
     * getCapability: a failing driver query is UNKNOWN_ERROR; otherwise the
     * program group count is taken and the platform chosen from the device
     * model, an unsupported model being BAD_VALUE with the platform kept.
     */
    method GetCapability(cap: Option<Capability>) returns (status: Status)
      requires Valid()
      requires cap.Some? ==> CString.NUL !in cap.value.devModel
      modifies this
      ensures Valid() && buffers == old(buffers) && nextHandle == old(nextHandle)
      ensures manifestIndex == old(manifestIndex) && manifestInfo == old(manifestInfo)
      ensures terminalCount == old(terminalCount) && kernelBitmap == old(kernelBitmap)
      ensures cap.None? ==> status == UNKNOWN_ERROR && pgCount == old(pgCount) && platform == old(platform)
      ensures cap.Some? ==> pgCount == cap.value.programGroupCount
      ensures cap.Some? ==> (status == OK <==> PlatformOf(cap.value.devModel).Some?)
      ensures cap.Some? && status == OK ==> platform == PlatformOf(cap.value.devModel)
      ensures cap.Some? && status != OK ==> status == BAD_VALUE && platform == old(platform)
    {
      if cap.None? {
        return UNKNOWN_ERROR;
      }
      var model := cap.value.devModel;
      pgCount := cap.value.programGroupCount;
      status := OK;
      StrnEqualPrefix(model, "ipu4p", 0);
      StrnEqualPrefix(model, "ipu4", 0);
      if StrnEqual(model, "ipu4p", 5, 0) {
        platform := Some(IA_P2P_PLATFORM_CNL_B0);
      } else if StrnEqual(model, "ipu4", 4, 0) {
        if CString.At(model, 13) == 'B' {
          platform := Some(IA_P2P_PLATFORM_BXT_B0);
        } else {
          status := BAD_VALUE;
        }
      } else {
        status := BAD_VALUE;
      }
    }

    /**
     * getManifest: the program group indices are searched in order for the
     * manifest of pgId, whose counts, size and kernel bitmap are recorded.
     */
    method GetManifest(pgId: int, slots: seq<ManifestSlot>) returns (status: Status)
      requires Valid() && |slots| == pgCount
      modifies this
      ensures Valid() && buffers == old(buffers) && nextHandle == old(nextHandle)
      ensures pgCount == old(pgCount) && platform == old(platform)
      ensures SearchManifest(slots, pgId, 0).Found? ==>
        && status == OK
        && manifestIndex == Some(SearchManifest(slots, pgId, 0).index)
        && manifestInfo == Some(SearchManifest(slots, pgId, 0).info)
        && terminalCount == SearchManifest(slots, pgId, 0).info.terminalCount
        && kernelBitmap == SearchManifest(slots, pgId, 0).info.kernelBitmap
      ensures SearchManifest(slots, pgId, 0).SearchFailed? ==>
        && status == SearchManifest(slots, pgId, 0).status
        && manifestIndex == old(manifestIndex) && manifestInfo == old(manifestInfo)
        && terminalCount == old(terminalCount) && kernelBitmap == old(kernelBitmap)
    {
      var i := 0;
      while i < |slots|
        invariant i <= |slots|
        invariant SearchManifest(slots, pgId, i) == SearchManifest(slots, pgId, 0)
      {
        match slots[i] {
          case NoManifest =>
          case Manifest(size, fetched, info) =>
            if size == 0 || !fetched {
              return UNKNOWN_ERROR;
            }
            if pgId == info.programGroupId {
              manifestIndex := Some(i);
              manifestInfo := Some(info);
              terminalCount := info.terminalCount;
              kernelBitmap := info.kernelBitmap;
              return OK;
            }
        }
        i := i + 1;
      }
      status := BAD_VALUE;
    }

    /** The cache step shared by the registerUserBuffer overloads once their arguments are valid. */
    method RegisterKey(key: BufferKey, createFails: bool) returns (ciprBuf: Option<nat>)
      requires Valid()
      modifies this
      ensures Valid() && (Cache(), ciprBuf) == Register(old(Cache()), key, createFails)
      ensures pgCount == old(pgCount) && platform == old(platform)
      ensures manifestIndex == old(manifestIndex) && manifestInfo == old(manifestInfo)
      ensures terminalCount == old(terminalCount) && kernelBitmap == old(kernelBitmap)
    {
      RegisterEffect(Cache(), key, createFails, key);
      ciprBuf := LookupMapping(buffers, key);
      if ciprBuf.Some? {
        return;
      }
      if createFails {
        return None;
      }
      ciprBuf := Some(nextHandle);
      buffers := buffers + [Mapping(key, nextHandle)];
      nextHandle := nextHandle + 1;
    }

    /** registerUserBuffer(size, ptr): nullptr for a non-positive size or a null pointer. */
    method RegisterUserPtr(size: int, ptr: nat, createFails: bool) returns (ciprBuf: Option<nat>)
      requires Valid()
      modifies this
      ensures Valid() && pgCount == old(pgCount) && platform == old(platform)
      ensures manifestIndex == old(manifestIndex) && manifestInfo == old(manifestInfo)
      ensures terminalCount == old(terminalCount) && kernelBitmap == old(kernelBitmap)
      ensures size <= 0 || ptr == 0 ==> ciprBuf.None? && Cache() == old(Cache())
      ensures size > 0 && ptr != 0 ==> (Cache(), ciprBuf) == Register(old(Cache()), UserPtr(ptr), createFails)
    {
      if size <= 0 || ptr == 0 {
        return None;
      }
      ciprBuf := RegisterKey(UserPtr(ptr), createFails);
    }

    /** registerUserBuffer(size, fd): nullptr for a non-positive size or a negative fd. */
    method RegisterUserFd(size: int, fd: int, createFails: bool) returns (ciprBuf: Option<nat>)
      requires Valid()
      modifies this
      ensures Valid() && pgCount == old(pgCount) && platform == old(platform)
      ensures manifestIndex == old(manifestIndex) && manifestInfo == old(manifestInfo)
      ensures terminalCount == old(terminalCount) && kernelBitmap == old(kernelBitmap)
      ensures size <= 0 || fd < 0 ==> ciprBuf.None? && Cache() == old(Cache())
      ensures size > 0 && fd >= 0 ==> (Cache(), ciprBuf) == Register(old(Cache()), UserFd(fd), createFails)
    {
      if size <= 0 || fd < 0 {
        return None;
      }
      ciprBuf := RegisterKey(UserFd(fd), createFails);
    }

    /**
     * registerUserBuffer(size, offset, baseCiprBuf): nullptr for a
     * non-positive size, a null base or a negative offset; a region is
     * cached by its base buffer alone.
     */
    method RegisterRegion(size: int, offset: int, base: nat, createFails: bool) returns (ciprBuf: Option<nat>)
      requires Valid()
      modifies this
      ensures Valid() && pgCount == old(pgCount) && platform == old(platform)
      ensures manifestIndex == old(manifestIndex) && manifestInfo == old(manifestInfo)
      ensures terminalCount == old(terminalCount) && kernelBitmap == old(kernelBitmap)
      ensures size <= 0 || base == 0 || offset < 0 ==> ciprBuf.None? && Cache() == old(Cache())
      ensures size > 0 && base != 0 && offset >= 0 ==> (Cache(), ciprBuf) == Register(old(Cache()), Region(base), createFails)
    {
      if size <= 0 || base == 0 || offset < 0 {
        return None;
      }
      ciprBuf := RegisterKey(Region(base), createFails);
    }

    /** registerUserBuffer(buf, size): by fd for a DMA-buf buffer, by address otherwise. */
    method RegisterCameraBuffer(buf: CameraBufferRef, size: int, createFails: bool) returns (ciprBuf: Option<nat>)
      requires Valid()
      modifies this
      ensures Valid() && pgCount == old(pgCount) && platform == old(platform)
      ensures manifestIndex == old(manifestIndex) && manifestInfo == old(manifestInfo)
      ensures terminalCount == old(terminalCount) && kernelBitmap == old(kernelBitmap)
      ensures buf.DmaBuf? && size > 0 && buf.fd >= 0 ==> (Cache(), ciprBuf) == Register(old(Cache()), UserFd(buf.fd), createFails)
      ensures buf.UserMemory? && size > 0 && buf.addr != 0 ==> (Cache(), ciprBuf) == Register(old(Cache()), UserPtr(buf.addr), createFails)
      ensures (buf.DmaBuf? && (size <= 0 || buf.fd < 0)) || (buf.UserMemory? && (size <= 0 || buf.addr == 0)) ==>
        ciprBuf.None? && Cache() == old(Cache())
      ensures (Cache(), ciprBuf) == RegisterCamera(old(Cache()), buf, size, createFails)
    {
      match buf {
        case DmaBuf(fd) =>
          ciprBuf := None;
          if fd >= 0 {
            ciprBuf := RegisterUserFd(size, fd, createFails);
          }
        case UserMemory(addr) =>
          ciprBuf := None;
          if addr != 0 {
            ciprBuf := RegisterUserPtr(size, addr, createFails);
          }
      }
    }
  }
}
