/**
 * The camera1 HAL adaptor (CameraHardwareSoc): the callback message mask,
 * bits per pixel and data-callback buffer sizes, the millisecond time
 * difference, the pixel-format maps and format-name lookups, the default
 * preview/picture size list, and the device id guard.  Preview, picture and
 * autofocus threads, gralloc, JPEG encoding and the CameraParameters store
 * are not part of this model.
 */
module SocCameraHw {
  import opened Common
  import opened HalTypes
  import CString

  /* ---------------------------- message mask ---------------------------- */

  /** Whether every message in `query` is enabled in `mask` (the contract camera.h documents). */
  predicate AllEnabled(mask: bv32, query: bv32)
  {
    mask & query == query
  }

  /** msgTypeEnabled as written: true when any queried message is enabled. */
  predicate MsgTypeEnabledAsWritten(mask: bv32, query: bv32): (r: bool)
    ensures query != 0 && AllEnabled(mask, query) ==> r
    ensures r ==> query != 0 && mask != 0
  {
    mask & query != 0
  }

  /** Querying preview and video frames with only preview enabled: as written it answers yes. */
  lemma AnyInsteadOfAll()
    ensures MsgTypeEnabledAsWritten(0x10, 0x30) && !AllEnabled(0x10, 0x30)
  {
  }

  /** For a single message the two readings agree, which is how the HAL itself queries the mask. */
  lemma SingleMessageAgrees(mask: bv32, query: bv32)
    requires query != 0 && query & (query - 1) == 0
    ensures MsgTypeEnabledAsWritten(mask, query) <==> AllEnabled(mask, query)
  {
    if mask & query != 0 {
      assert mask & query == query by {
        SingleBitMask(mask, query);
      }
    }
  }

  lemma SingleBitMask(mask: bv32, query: bv32)
    requires query != 0 && query & (query - 1) == 0 && mask & query != 0
    ensures mask & query == query
  {
    var b := mask & query;
    assert b & query == b;
    assert b & (query - 1) == 0;
  }

  /**
   * What enableMsgType and disableMsgType do to the mask: the given messages
   * become all enabled, respectively none enabled, and every other bit is
   * left as it was.
   */
  lemma MaskUpdates(mask: bv32, m: bv32)
    ensures AllEnabled(mask | m, m) && (mask | m) & !m == mask & !m
    ensures (mask & !m) & m == 0 && (mask & !m) & !m == mask & !m
  {
  }

  /* ---------------------------- buffer sizes ---------------------------- */

  /** getBitsPerPixel: 12 for the 4:2:0 formats, 16 for RGB565 and the 4:2:2 formats, -1 otherwise. */
  function BitsPerPixel(format: int): (bpp: int)
    ensures bpp == 12 <==> format in {HAL_PIXEL_FORMAT_IMPLEMENTATION_DEFINED, HAL_PIXEL_FORMAT_YV12}
    ensures bpp == 16 <==>
      format in {HAL_PIXEL_FORMAT_RGB_565, HAL_PIXEL_FORMAT_YCbCr_422_I, HAL_PIXEL_FORMAT_YCbCr_422_SP}
    ensures bpp in {12, 16, -1}
  {
    if format == HAL_PIXEL_FORMAT_IMPLEMENTATION_DEFINED || format == HAL_PIXEL_FORMAT_YV12 then 12
    else if format == HAL_PIXEL_FORMAT_RGB_565 || format == HAL_PIXEL_FORMAT_YCbCr_422_I ||
            format == HAL_PIXEL_FORMAT_YCbCr_422_SP then 16
    else -1
  }

  /** The ALIGN macro with 16: round up to a multiple of 16 (for negative values too, as the mask does). */
  function Align16(x: int): (r: int)
    ensures r % 16 == 0 && x <= r < x + 16
  {
    ((x + 15) / 16) * 16
  }

  /**
   * calculateBufferSize: YV12 has 16-aligned luma and chroma strides (the
   * Android YV12 layout); any other supported format is packed at its bits
   * per pixel; an unsupported format gives 0.
   */
  function BufferSize(width: int, height: int, format: int): (size: int)
    ensures format != HAL_PIXEL_FORMAT_YV12 && BitsPerPixel(format) < 0 ==> size == 0
    ensures format != HAL_PIXEL_FORMAT_YV12 && BitsPerPixel(format) > 0 ==>
      size == TruncDiv(width * height * BitsPerPixel(format), 8)
  {
    if format == HAL_PIXEL_FORMAT_YV12 then
      var stride := Align16(width);
      var ySize := stride * height;
      var cStride := Align16(TruncDiv(stride, 2));
      var cSize := TruncDiv(cStride * height, 2);
      ySize + cSize * 2
    else
      var bpp := BitsPerPixel(format);
      if bpp > 0 then TruncDiv(width * height * bpp, 8) else 0
  }

  /** A YV12 buffer is never smaller than the packed 12-bit picture of the same size. */
  lemma YV12CoversPacked(width: nat, height: nat)
    ensures BufferSize(width, height, HAL_PIXEL_FORMAT_YV12) >= TruncDiv(width * height * 12, 8)
  {
    var stride := Align16(width);
    var k := stride / 16;
    assert stride == 16 * k && k >= 0;
    assert TruncDiv(stride, 2) == 8 * k;
    var cStride := Align16(8 * k);
    var j := cStride / 16;
    assert cStride == 16 * j && 16 * j >= 8 * k;
    assert cStride * height == 2 * (8 * j * height) by {
      assert cStride * height == 16 * j * height;
    }
    assert TruncDiv(cStride * height, 2) == 8 * j * height;
    var size := BufferSize(width, height, HAL_PIXEL_FORMAT_YV12);
    assert size == 16 * k * height + 16 * j * height;
    ScaledBelow(width, stride, height, j, k, size);
  }

  lemma ScaledBelow(w: nat, stride: int, h: nat, j: int, k: int, size: int)
    requires stride == 16 * k && w <= stride && 16 * j >= 8 * k && k >= 0
    requires size == 16 * k * h + 16 * j * h
    ensures size >= TruncDiv(w * h * 12, 8)
  {
    assert 16 * j * h >= 8 * k * h by {
      assert (16 * j - 8 * k) * h >= 0;
    }
    assert w * h <= stride * h by {
      assert (stride - w) * h >= 0;
    }
    assert size >= 24 * k * h;
    assert w * h * 12 <= 24 * k * h * 8;
    assert TruncDiv(w * h * 12, 8) * 8 <= w * h * 12;
  }

  /* ------------------------------- timing ------------------------------- */

  datatype TimeVal = TimeVal(sec: int, usec: int)

  predicate Normalized(t: TimeVal)
  {
    0 <= t.usec < 1000000
  }

  /** cal_diff: t2 - t1 in milliseconds, borrowing a second when the microseconds go negative. */
  function CalDiff(t1: TimeVal, t2: TimeVal): int
  {
    var sdiff := t2.sec - t1.sec;
    var udiff := t2.usec - t1.usec;
    if t2.usec < t1.usec then (sdiff - 1) * 1000 + TruncDiv(t2.usec + 1000000 - t1.usec, 1000)
    else sdiff * 1000 + TruncDiv(udiff, 1000)
  }

  function Micros(t: TimeVal): int
  {
    t.sec * 1000000 + t.usec
  }

  /** On normalized times cal_diff is the elapsed time in whole milliseconds, rounded down. */
  lemma CalDiffIsFlooredMillis(t1: TimeVal, t2: TimeVal)
    requires Normalized(t1) && Normalized(t2)
    ensures CalDiff(t1, t2) == (Micros(t2) - Micros(t1)) / 1000
  {
    var d := Micros(t2) - Micros(t1);
    if t2.usec < t1.usec {
      var u := t2.usec + 1000000 - t1.usec;
      var s := t2.sec - t1.sec - 1;
      assert d == (s * 1000) * 1000 + u;
      DivShift(s * 1000, u);
    } else {
      var u := t2.usec - t1.usec;
      var s := t2.sec - t1.sec;
      assert d == (s * 1000) * 1000 + u;
      DivShift(s * 1000, u);
    }
  }

  lemma DivShift(k: int, u: nat)
    ensures (k * 1000 + u) / 1000 == k + u / 1000
  {
  }

  /* ---------------------------- format maps ---------------------------- */

  predicate SharedHalFormat(f: int)
  {
    f in {HAL_PIXEL_FORMAT_IMPLEMENTATION_DEFINED, HAL_PIXEL_FORMAT_RGB_565, HAL_PIXEL_FORMAT_YV12,
          HAL_PIXEL_FORMAT_YCbCr_422_I, HAL_PIXEL_FORMAT_YCbCr_422_SP}
  }

  /** HalFormat2V4L2Format: seven gralloc formats have a V4L2 counterpart; any other gives NV12. */
  function HalToV4l2(f: int): (v: int)
    ensures f == HAL_PIXEL_FORMAT_RGBA_8888 ==> v == V4L2_PIX_FMT_RGB32
    ensures f == HAL_PIXEL_FORMAT_YCrCb_420_SP ==> v == V4L2_PIX_FMT_NV21
    ensures !SharedHalFormat(f) && f != HAL_PIXEL_FORMAT_RGBA_8888 && f != HAL_PIXEL_FORMAT_YCrCb_420_SP ==>
      v == V4L2_PIX_FMT_NV12
  {
    if f == HAL_PIXEL_FORMAT_RGB_565 then V4L2_PIX_FMT_RGB565
    else if f == HAL_PIXEL_FORMAT_RGBA_8888 then V4L2_PIX_FMT_RGB32
    else if f == HAL_PIXEL_FORMAT_YCrCb_420_SP then V4L2_PIX_FMT_NV21
    else if f == HAL_PIXEL_FORMAT_YV12 then V4L2_PIX_FMT_YVU420
    else if f == HAL_PIXEL_FORMAT_YCbCr_422_I then V4L2_PIX_FMT_YUYV
    else if f == HAL_PIXEL_FORMAT_YCbCr_422_SP then V4L2_PIX_FMT_NV16
    else V4L2_PIX_FMT_NV12
  }

  /** V4L2Format2HalFormat: five V4L2 formats map back; any other is IMPLEMENTATION_DEFINED. */
  function V4l2ToHal(v: int): (f: int)
    ensures SharedHalFormat(f)
  {
    if v == V4L2_PIX_FMT_RGB565 then HAL_PIXEL_FORMAT_RGB_565
    else if v == V4L2_PIX_FMT_YVU420 then HAL_PIXEL_FORMAT_YV12
    else if v == V4L2_PIX_FMT_YUYV then HAL_PIXEL_FORMAT_YCbCr_422_I
    else if v == V4L2_PIX_FMT_NV16 then HAL_PIXEL_FORMAT_YCbCr_422_SP
    else HAL_PIXEL_FORMAT_IMPLEMENTATION_DEFINED
  }

  /** The five shared formats survive the round trip; RGBA8888 and NV21 come back as IMPLEMENTATION_DEFINED. */
  lemma FormatMapsRoundTrip(f: int)
    ensures SharedHalFormat(f) <==> V4l2ToHal(HalToV4l2(f)) == f
    ensures f in {HAL_PIXEL_FORMAT_RGBA_8888, HAL_PIXEL_FORMAT_YCrCb_420_SP} ==>
      V4l2ToHal(HalToV4l2(f)) == HAL_PIXEL_FORMAT_IMPLEMENTATION_DEFINED
  {
  }

  /** previewFormat2HalEnum: the CameraParameters pixel-format names; -1 without a name, IMPLEMENTATION_DEFINED for an unknown one. */
  function PreviewFormatToHal(name: Option<string>): (f: int)
    ensures name.None? ==> f == -1
  {
    if name.None? then -1
    else if name.value == "yuv420sp" then HAL_PIXEL_FORMAT_YCrCb_420_SP
    else if name.value == "yuv420p" then HAL_PIXEL_FORMAT_YV12
    else if name.value == "rgb565" then HAL_PIXEL_FORMAT_RGB_565
    else if name.value == "yuv422sp" then HAL_PIXEL_FORMAT_YCbCr_422_SP
    else if name.value == "yuv422i-yuyv" then HAL_PIXEL_FORMAT_YCbCr_422_I
    else if name.value == "rgba8888" then HAL_PIXEL_FORMAT_RGBA_8888
    else if name.value == "bayer-rggb" then HAL_PIXEL_FORMAT_RAW16
    else HAL_PIXEL_FORMAT_IMPLEMENTATION_DEFINED
  }

  /** The CameraParameters name of a HAL format, where it has one. */
  function PreviewFormatName(f: int): Option<string>
  {
    if f == HAL_PIXEL_FORMAT_YCrCb_420_SP then Some("yuv420sp")
    else if f == HAL_PIXEL_FORMAT_YV12 then Some("yuv420p")
    else if f == HAL_PIXEL_FORMAT_RGB_565 then Some("rgb565")
    else if f == HAL_PIXEL_FORMAT_YCbCr_422_SP then Some("yuv422sp")
    else if f == HAL_PIXEL_FORMAT_YCbCr_422_I then Some("yuv422i-yuyv")
    else if f == HAL_PIXEL_FORMAT_RGBA_8888 then Some("rgba8888")
    else if f == HAL_PIXEL_FORMAT_RAW16 then Some("bayer-rggb")
    else None
  }

  /** imageFormat2HalEnum: the picture-format names; -1 without a name or for an unknown one. */
  function ImageFormatToHal(name: Option<string>): (f: int)
    ensures name.None? ==> f == -1
  {
    if name.None? then -1
    else if name.value == "NV21" then HAL_PIXEL_FORMAT_YCrCb_420_SP
    else if name.value == "YV12" then HAL_PIXEL_FORMAT_YV12
    else if name.value == "RGB_565" then HAL_PIXEL_FORMAT_RGB_565
    else if name.value == "NV16" then HAL_PIXEL_FORMAT_YCbCr_422_SP
    else if name.value == "YUY2" then HAL_PIXEL_FORMAT_YCbCr_422_I
    else -1
  }

  /** The picture-format name of a HAL format, where it has one. */
  function ImageFormatName(f: int): Option<string>
  {
    if f == HAL_PIXEL_FORMAT_YCrCb_420_SP then Some("NV21")
    else if f == HAL_PIXEL_FORMAT_YV12 then Some("YV12")
    else if f == HAL_PIXEL_FORMAT_RGB_565 then Some("RGB_565")
    else if f == HAL_PIXEL_FORMAT_YCbCr_422_SP then Some("NV16")
    else if f == HAL_PIXEL_FORMAT_YCbCr_422_I then Some("YUY2")
    else None
  }

  /** Every named picture format reads back, and a name that is recognised is the name of what it gives. */
  lemma ImageFormatNamesRoundTrip(name: string, f: int)
    ensures ImageFormatName(f).Some? ==> ImageFormatToHal(ImageFormatName(f)) == f
    ensures ImageFormatToHal(Some(name)) != -1 <==> ImageFormatName(ImageFormatToHal(Some(name))) == Some(name)
  {
  }

  /** Every named preview format reads back; an unknown name gives IMPLEMENTATION_DEFINED, which has no name. */
  lemma PreviewFormatNamesRoundTrip(name: string, f: int)
    ensures PreviewFormatName(f).Some? ==> PreviewFormatToHal(PreviewFormatName(f)) == f
    ensures PreviewFormatName(PreviewFormatToHal(Some(name))).Some? <==>
      PreviewFormatName(PreviewFormatToHal(Some(name))) == Some(name)
    ensures PreviewFormatName(PreviewFormatToHal(Some(name))).None? ==>
      PreviewFormatToHal(Some(name)) == HAL_PIXEL_FORMAT_IMPLEMENTATION_DEFINED
  {
  }

  /* ---------------------------- size list ---------------------------- */

  /** A supported stream configuration from the camera's capability. */
  datatype StreamConfig = StreamConfig(width: int, height: int, format: int, field: int)

  function SizeOf(c: StreamConfig): Size
  {
    Size(c.width, c.height)
  }

  predicate Distinct(res: seq<Size>)
  {
    forall i, j :: 0 <= i < j < |res| ==> res[i] != res[j]
  }

  /** The field of the last configuration in the given V4L2 format, else `field`. */
  function LastField(configs: seq<StreamConfig>, v4l2Format: int, field: int): int
  {
    if |configs| == 0 then field
    else if configs[|configs| - 1].format == v4l2Format then configs[|configs| - 1].field
    else LastField(configs[..|configs| - 1], v4l2Format, field)
  }

  predicate SortedByArea(res: seq<Size>)
  {
    forall i, j :: 0 <= i < j < |res| ==> Area(res[i]) <= Area(res[j])
  }

  /** Insertion of one size before the first larger area. */
  function InsertByArea(sorted: seq<Size>, x: Size): (r: seq<Size>)
    ensures multiset(r) == multiset(sorted) + multiset{x}
    ensures SortedByArea(sorted) ==> SortedByArea(r)
  {
    if |sorted| == 0 then [x]
    else if Area(x) < Area(sorted[0]) then [x] + sorted
    else
      var rest := InsertByArea(sorted[1..], x);
      assert sorted == [sorted[0]] + sorted[1..];
      if SortedByArea(sorted) then
        LowestStaysFirst(sorted[0], sorted[1..], x, rest);
        [sorted[0]] + rest
      else
        [sorted[0]] + rest
  }

  /** A size no larger than x and than every size of tail can go before any arrangement of them that is sorted. */
  lemma LowestStaysFirst(a: Size, tail: seq<Size>, x: Size, rest: seq<Size>)
    requires SortedByArea([a] + tail) && Area(a) <= Area(x)
    requires multiset(rest) == multiset(tail) + multiset{x} && SortedByArea(rest)
    ensures SortedByArea([a] + rest)
  {
    forall j | 0 <= j < |tail|
      ensures Area(a) <= Area(tail[j])
    {
      assert ([a] + tail)[0] == a && ([a] + tail)[j + 1] == tail[j];
      assert Area(([a] + tail)[0]) <= Area(([a] + tail)[j + 1]);
    }
    forall k | 0 <= k < |rest|
      ensures Area(a) <= Area(rest[k])
    {
      assert rest[k] in multiset(rest);
      if rest[k] != x {
        assert rest[k] in multiset(tail);
        assert rest[k] in tail;
      }
    }
    forall i, j | 0 <= i < j < |[a] + rest|
      ensures Area(([a] + rest)[i]) <= Area(([a] + rest)[j])
    {
      if i > 0 {
        assert ([a] + rest)[i] == rest[i - 1] && ([a] + rest)[j] == rest[j - 1];
      }
    }
  }

  /** std::sort with the area comparison: sorted ascending by area, the same sizes. */
  function SortByArea(res: seq<Size>): (r: seq<Size>)
    ensures SortedByArea(r) && multiset(r) == multiset(res)
  {
    if |res| == 0 then []
    else
      assert res == res[..|res| - 1] + [res[|res| - 1]];
      InsertByArea(SortByArea(res[..|res| - 1]), res[|res| - 1])
  }

  /** "WxH" with std::to_string. */
  function SizeText(s: Size): string
  {
    CString.IntStr(s.width) + "x" + CString.IntStr(s.height)
  }

  /** The sizes joined with commas and no trailing comma. */
  function JoinSizes(res: seq<Size>): string
  {
    if |res| == 0 then ""
    else if |res| == 1 then SizeText(res[0])
    else JoinSizes(res[..|res| - 1]) + "," + SizeText(res[|res| - 1])
  }

  function Count(s: string, c: char): nat
  {
    if |s| == 0 then 0 else Count(s[..|s| - 1], c) + (if s[|s| - 1] == c then 1 else 0)
  }

  lemma {:induction false} CountConcat(a: string, b: string, c: char)
    ensures Count(a + b, c) == Count(a, c) + Count(b, c)
    decreases |b|
  {
    if |b| > 0 {
      assert (a + b)[..|a + b| - 1] == a + b[..|b| - 1];
      CountConcat(a, b[..|b| - 1], c);
    } else {
      assert a + b == a;
    }
  }

  lemma {:induction false} NoCommaCount(s: string)
    requires forall i :: 0 <= i < |s| ==> s[i] != ','
    ensures Count(s, ',') == 0
  {
    if |s| > 0 {
      NoCommaCount(s[..|s| - 1]);
    }
  }

  lemma SizeTextHasNoComma(s: Size)
    ensures Count(SizeText(s), ',') == 0
    ensures |SizeText(s)| > 0 && CString.IsDigit(SizeText(s)[|SizeText(s)| - 1])
  {
    IntStrDigits(s.width);
    IntStrDigits(s.height);
    NoCommaCount(SizeText(s));
  }

  lemma IntStrDigits(v: int)
    ensures forall i :: 0 <= i < |CString.IntStr(v)| ==> CString.IsDigit(CString.IntStr(v)[i]) || CString.IntStr(v)[i] == '-'
    ensures CString.IsDigit(CString.IntStr(v)[|CString.IntStr(v)| - 1])
  {
    if v < 0 {
      CString.DecDigits(-v);
    } else {
      CString.DecDigits(v);
    }
  }

  /** The joined list has one comma fewer than it has sizes and ends in a digit. */
  lemma {:induction false} JoinSizesShape(res: seq<Size>)
    requires |res| > 0
    ensures Count(JoinSizes(res), ',') == |res| - 1
    ensures |JoinSizes(res)| > 0 && CString.IsDigit(JoinSizes(res)[|JoinSizes(res)| - 1])
  {
    var last := res[|res| - 1];
    SizeTextHasNoComma(last);
    if |res| > 1 {
      JoinSizesShape(res[..|res| - 1]);
      CountConcat(JoinSizes(res[..|res| - 1]), ",", ',');
      CountConcat(JoinSizes(res[..|res| - 1]) + ",", SizeText(last), ',');
    }
  }

  class CameraHardwareSoc {
    /** MAX_CAMERAS, from the HAL header. */
    const maxCameras: int
    var msgEnabled: bv32
    var deviceId: int
    /** mField: the V4L2 field of the configuration in the preview format. */
    var field: int
    /** The KEY_SUPPORTED_PREVIEW_SIZES / KEY_SUPPORTED_PICTURE_SIZES value. */
    var supportedSizes: string

    constructor (maxCams: int, cameraId: int, field0: int)
      ensures maxCameras == maxCams && msgEnabled == 0 && deviceId == cameraId && field == field0
      ensures supportedSizes == ""
    {
      maxCameras := maxCams;
      msgEnabled := 0;
      deviceId := cameraId;
      field := field0;
      supportedSizes := "";
    }

    /** enableMsgType: the given messages are added; the others are untouched. */
    method EnableMsgType(msgType: bv32)
      modifies this
      ensures msgEnabled == old(msgEnabled) | msgType
      ensures deviceId == old(deviceId) && field == old(field) && supportedSizes == old(supportedSizes)
    {
      msgEnabled := msgEnabled | msgType;
    }

    /** disableMsgType: the given messages are removed; the others are untouched. */
    method DisableMsgType(msgType: bv32)
      modifies this
      ensures msgEnabled == old(msgEnabled) & !msgType
      ensures deviceId == old(deviceId) && field == old(field) && supportedSizes == old(supportedSizes)
    {
      msgEnabled := msgEnabled & !msgType;
    }

    /** msgTypeEnabled, corrected to the documented meaning: every queried message is enabled. */
    predicate MsgTypeEnabled(msgType: bv32): (r: bool)
      reads this
      ensures r && msgType != 0 ==> MsgTypeEnabledAsWritten(msgEnabled, msgType)
      ensures msgType == 0 ==> r
    {
      AllEnabled(msgEnabled, msgType)
    }

    /** setDeviceId: an id at or beyond MAX_CAMERAS or the number of cameras is refused. */
    method SetDeviceId(cameraId: int, numberOfCameras: int)
      modifies this
      ensures cameraId < maxCameras && cameraId < numberOfCameras ==> deviceId == cameraId
      ensures !(cameraId < maxCameras && cameraId < numberOfCameras) ==> deviceId == old(deviceId)
      ensures msgEnabled == old(msgEnabled) && field == old(field) && supportedSizes == old(supportedSizes)
    {
      if cameraId >= maxCameras || cameraId >= numberOfCameras {
        return;
      }
      deviceId := cameraId;
    }

    /**
     * initDefaultParameters, the size part: with no configuration nothing
     * is set; otherwise the distinct sizes, sorted by area and joined, become
     * the supported sizes, and mField follows the preview format.
     */
    method InitDefaultSizes(configs: seq<StreamConfig>, v4l2Format: int)
      modifies this
      ensures |configs| == 0 ==> supportedSizes == old(supportedSizes) && field == old(field)
      ensures |configs| > 0 ==> (field == LastField(configs, v4l2Format, old(field)) &&
        exists res :: Distinct(res) && (forall c :: c in configs ==> SizeOf(c) in res) &&
          (forall s :: s in res ==> exists c :: c in configs && SizeOf(c) == s) &&
          supportedSizes == JoinSizes(SortByArea(res)))
      ensures msgEnabled == old(msgEnabled) && deviceId == old(deviceId)
    {
      if |configs| == 0 {
        return;
      }
      var res, f := CollectSizes(configs, v4l2Format, field);
      var sorted := SortByArea(res);
      supportedSizes := JoinWithTrailingComma(sorted);
      field := f;
    }
  }

  /** The loop over the configurations: each new size is appended once; mField follows the preview format. */
  method CollectSizes(configs: seq<StreamConfig>, v4l2Format: int, field0: int) returns (res: seq<Size>, field: int)
    ensures Distinct(res)
    ensures forall c :: c in configs ==> SizeOf(c) in res
    ensures forall s :: s in res ==> exists c :: c in configs && SizeOf(c) == s
    ensures field == LastField(configs, v4l2Format, field0)
  {
    res := [];
    field := field0;
    var i := 0;
    while i < |configs|
      invariant 0 <= i <= |configs|
      invariant Distinct(res)
      invariant forall k :: 0 <= k < i ==> SizeOf(configs[k]) in res
      invariant forall s :: s in res ==> exists k :: 0 <= k < i && SizeOf(configs[k]) == s
      invariant field == LastField(configs[..i], v4l2Format, field0)
    {
      var config := configs[i];
      var j := 0;
      while j < |res| && res[j] != SizeOf(config)
        invariant 0 <= j <= |res|
        invariant forall k :: 0 <= k < j ==> res[k] != SizeOf(config)
      {
        j := j + 1;
      }
      if j == |res| {
        res := res + [SizeOf(config)];
      }
      if config.format == v4l2Format {
        field := config.field;
      }
      assert configs[..i + 1][..i] == configs[..i];
      i := i + 1;
    }
    assert configs[..i] == configs;
  }

  /** The string loop: "WxH," per size, then the last comma removed. */
  method JoinWithTrailingComma(res: seq<Size>) returns (s: string)
    ensures s == JoinSizes(res)
  {
    var built := "";
    var i := 0;
    while i < |res|
      invariant 0 <= i <= |res|
      invariant i == 0 ==> built == ""
      invariant i > 0 ==> built == JoinSizes(res[..i]) + ","
    {
      assert res[..i + 1][..i] == res[..i];
      built := built + SizeText(res[i]) + ",";
      i := i + 1;
    }
    assert res[..i] == res;
    if |built| > 0 {
      s := built[..|built| - 1];
    } else {
      s := built;
    }
  }
}
