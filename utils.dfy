/**
 * Format arithmetic and name tables of the HAL utilities (iutils/Utils.cpp):
 * the pixel-format table and its lookups, line stride and frame size, fourcc
 * printing, configuration-mode names, interlaced heights, and the two string
 * splitters.
 */
module Utils {
  import opened Common
  import opened HalTypes

  // ---------------------------------------------------------------------
  // The pixel-format table gFormatMapping.
  // ---------------------------------------------------------------------

  datatype FormatType =
    | FORMAT_RAW
    | FORMAT_RAW_VEC
    | FORMAT_YUV
    | FORMAT_YUV_VEC
    | FORMAT_RGB
    | FORMAT_MBUS
    | FORMAT_JPEG
    | FORMAT_FOURCC

  datatype FormatInfo = FormatInfo(pixelCode: int, fullName: string, shortName: string, bpp: int, typ: FormatType)

  /** GET_FOURCC_FMT(a, b, c, d): the first character is the most significant byte. */
  function GetFourccFmt(a: char, b: char, c: char, d: char): (f: int)
    requires a < 256 as char && b < 256 as char && c < 256 as char && d < 256 as char
    ensures 0 <= f < 0x1_0000_0000
  {
    d as int + c as int * 0x100 + b as int * 0x1_0000 + a as int * 0x100_0000
  }

  // Codes defined by media-bus-format.h and the IPU4 driver headers; their
  // numeric values are not part of this model, so they are left unconstrained.
  const V4L2_PIX_FMT_SBGGR8V32: int
  const V4L2_PIX_FMT_SGBRG8V32: int
  const V4L2_PIX_FMT_SGRBG8V32: int
  const V4L2_PIX_FMT_SRGGB8V32: int
  const V4L2_PIX_FMT_SBGGR10V32: int
  const V4L2_PIX_FMT_SGBRG10V32: int
  const V4L2_PIX_FMT_SGRBG10V32: int
  const V4L2_PIX_FMT_SRGGB10V32: int
  const V4L2_PIX_FMT_SBGGR12V32: int
  const V4L2_PIX_FMT_SGBRG12V32: int
  const V4L2_PIX_FMT_SRGGB12V32: int
  const V4L2_PIX_FMT_SGRBG12V32: int
  const V4L2_PIX_FMT_YUYV420_V32: int
  const V4L2_PIX_FMT_P010_BE: int
  const V4L2_PIX_FMT_P010_LE: int
  const V4L2_MBUS_FMT_SBGGR12_1X12: int
  const V4L2_MBUS_FMT_SGBRG12_1X12: int
  const V4L2_MBUS_FMT_SGRBG12_1X12: int
  const V4L2_MBUS_FMT_SRGGB12_1X12: int
  const V4L2_MBUS_FMT_SBGGR10_1X10: int
  const V4L2_MBUS_FMT_SGBRG10_1X10: int
  const V4L2_MBUS_FMT_SGRBG10_1X10: int
  const V4L2_MBUS_FMT_SRGGB10_1X10: int
  const V4L2_MBUS_FMT_SBGGR8_1X8: int
  const V4L2_MBUS_FMT_SGBRG8_1X8: int
  const V4L2_MBUS_FMT_SGRBG8_1X8: int
  const V4L2_MBUS_FMT_SRGGB8_1X8: int
  const V4L2_MBUS_FMT_UYVY8_1X16: int
  const V4L2_MBUS_FMT_YUYV8_1X16: int
  const V4L2_MBUS_FMT_UYVY8_2X8: int
  const MEDIA_BUS_FMT_RGB888_1X24: int
  const MEDIA_BUS_FMT_RGB565_1X16: int
  const MEDIA_BUS_FMT_YUYV12_1X24: int
  const MEDIA_BUS_FMT_SGRBG10_1X10: int
  const MEDIA_BUS_FMT_RGB888_1X32_PADHI: int
  const V4L2_FMT_INTEL_IPU4_ISYS_META: int

  const FORMAT_TABLE: seq<FormatInfo> := [
      FormatInfo(V4L2_PIX_FMT_SBGGR8, "V4L2_PIX_FMT_SBGGR8", "BGGR8", 8, FORMAT_RAW),
      FormatInfo(V4L2_PIX_FMT_SGBRG8, "V4L2_PIX_FMT_SGBRG8", "GBRG8", 8, FORMAT_RAW),
      FormatInfo(V4L2_PIX_FMT_SGRBG8, "V4L2_PIX_FMT_SGRBG8", "GRBG8", 8, FORMAT_RAW),
      FormatInfo(V4L2_PIX_FMT_SRGGB8, "V4L2_PIX_FMT_SRGGB8", "RGGB8", 8, FORMAT_RAW),
      FormatInfo(V4L2_PIX_FMT_SBGGR10, "V4L2_PIX_FMT_SBGGR10", "BGGR10", 16, FORMAT_RAW),
      FormatInfo(V4L2_PIX_FMT_SGBRG10, "V4L2_PIX_FMT_SGBRG10", "GBRG10", 16, FORMAT_RAW),
      FormatInfo(V4L2_PIX_FMT_SGRBG10, "V4L2_PIX_FMT_SGRBG10", "GRBG10", 16, FORMAT_RAW),
      FormatInfo(V4L2_PIX_FMT_SRGGB10, "V4L2_PIX_FMT_SRGGB10", "RGGB10", 16, FORMAT_RAW),
      FormatInfo(V4L2_PIX_FMT_SBGGR12, "V4L2_PIX_FMT_SBGGR12", "BGGR12", 16, FORMAT_RAW),
      FormatInfo(V4L2_PIX_FMT_SGBRG12, "V4L2_PIX_FMT_SGBRG12", "GBRG12", 16, FORMAT_RAW),
      FormatInfo(V4L2_PIX_FMT_SGRBG12, "V4L2_PIX_FMT_SGRBG12", "GRBG12", 16, FORMAT_RAW),
      FormatInfo(V4L2_PIX_FMT_SRGGB12, "V4L2_PIX_FMT_SRGGB12", "RGGB12", 16, FORMAT_RAW),
      FormatInfo(V4L2_PIX_FMT_SBGGR10P, "V4L2_PIX_FMT_SBGGR10P", "BGGR10P", 10, FORMAT_RAW),
      FormatInfo(V4L2_PIX_FMT_SGBRG10P, "V4L2_PIX_FMT_SGBRG10P", "GBRG10P", 10, FORMAT_RAW),
      FormatInfo(V4L2_PIX_FMT_SGRBG10P, "V4L2_PIX_FMT_SGRBG10P", "GRBG10P", 10, FORMAT_RAW),
      FormatInfo(V4L2_PIX_FMT_SRGGB10P, "V4L2_PIX_FMT_SRGGB10P", "RGGB10P", 10, FORMAT_RAW),
      FormatInfo(V4L2_PIX_FMT_SBGGR8V32, "V4L2_PIX_FMT_SBGGR8V32", "BGGR8V32", 16, FORMAT_RAW_VEC),
      FormatInfo(V4L2_PIX_FMT_SGBRG8V32, "V4L2_PIX_FMT_SGBRG8V32", "GBRG8V32", 16, FORMAT_RAW_VEC),
      FormatInfo(V4L2_PIX_FMT_SGRBG8V32, "V4L2_PIX_FMT_SGRBG8V32", "GRBG8V32", 16, FORMAT_RAW_VEC),
      FormatInfo(V4L2_PIX_FMT_SRGGB8V32, "V4L2_PIX_FMT_SRGGB8V32", "RGGB8V32", 16, FORMAT_RAW_VEC),
      FormatInfo(V4L2_PIX_FMT_SBGGR10V32, "V4L2_PIX_FMT_SBGGR10V32", "BGGR10V32", 16, FORMAT_RAW_VEC),
      FormatInfo(V4L2_PIX_FMT_SGBRG10V32, "V4L2_PIX_FMT_SGBRG10V32", "GBRG10V32", 16, FORMAT_RAW_VEC),
      FormatInfo(V4L2_PIX_FMT_SGRBG10V32, "V4L2_PIX_FMT_SGRBG10V32", "GRBG10V32", 16, FORMAT_RAW_VEC),
      FormatInfo(V4L2_PIX_FMT_SRGGB10V32, "V4L2_PIX_FMT_SRGGB10V32", "RGGB10V32", 16, FORMAT_RAW_VEC),
      FormatInfo(V4L2_PIX_FMT_SBGGR12V32, "V4L2_PIX_FMT_SBGGR12V32", "BGGR12V32", 16, FORMAT_RAW_VEC),
      FormatInfo(V4L2_PIX_FMT_SGBRG12V32, "V4L2_PIX_FMT_SGBRG12V32", "GBRG12V32", 16, FORMAT_RAW_VEC),
      FormatInfo(V4L2_PIX_FMT_SRGGB12V32, "V4L2_PIX_FMT_SRGGB12V32", "RGGB12V32", 16, FORMAT_RAW_VEC),
      FormatInfo(V4L2_PIX_FMT_SGRBG12V32, "V4L2_PIX_FMT_SGRBG12V32", "GRBG12V32", 16, FORMAT_RAW_VEC),
      FormatInfo(V4L2_PIX_FMT_NV12, "V4L2_PIX_FMT_NV12", "NV12", 12, FORMAT_YUV),
      FormatInfo(V4L2_PIX_FMT_NV21, "V4L2_PIX_FMT_NV21", "NV21", 12, FORMAT_YUV),
      FormatInfo(V4L2_PIX_FMT_NV16, "V4L2_PIX_FMT_NV16", "NV16", 16, FORMAT_YUV),
      FormatInfo(V4L2_PIX_FMT_YUYV, "V4L2_PIX_FMT_YUYV", "YUYV", 16, FORMAT_YUV),
      FormatInfo(V4L2_PIX_FMT_UYVY, "V4L2_PIX_FMT_UYVY", "UYVY", 16, FORMAT_YUV),
      FormatInfo(V4L2_PIX_FMT_YUV420, "V4L2_PIX_FMT_YUV420", "YUV420", 12, FORMAT_YUV),
      FormatInfo(V4L2_PIX_FMT_YVU420, "V4L2_PIX_FMT_YVU420", "YVU420", 12, FORMAT_YUV),
      FormatInfo(V4L2_PIX_FMT_YUV422P, "V4L2_PIX_FMT_YUV422P", "YUV422P", 16, FORMAT_YUV),
      FormatInfo(V4L2_PIX_FMT_YUYV420_V32, "V4L2_PIX_FMT_YUYV420_V32", "YUYV420V32", 24, FORMAT_YUV_VEC),
      FormatInfo(V4L2_PIX_FMT_P010_BE, "V4L2_PIX_FMT_P010_BE", "P010", 24, FORMAT_YUV),
      FormatInfo(V4L2_PIX_FMT_P010_LE, "V4L2_PIX_FMT_P010_LE", "P01L", 24, FORMAT_YUV),
      FormatInfo(V4L2_PIX_FMT_BGR24, "V4L2_PIX_FMT_BGR24", "BGR24", 24, FORMAT_RGB),
      FormatInfo(V4L2_PIX_FMT_BGR32, "V4L2_PIX_FMT_BGR32", "BGR32", 32, FORMAT_RGB),
      FormatInfo(V4L2_PIX_FMT_RGB24, "V4L2_PIX_FMT_RGB24", "RGB24", 24, FORMAT_RGB),
      FormatInfo(V4L2_PIX_FMT_RGB32, "V4L2_PIX_FMT_RGB32", "RGB32", 32, FORMAT_RGB),
      FormatInfo(V4L2_PIX_FMT_XBGR32, "V4L2_PIX_FMT_XBGR32", "XBGR32", 32, FORMAT_RGB),
      FormatInfo(V4L2_PIX_FMT_XRGB32, "V4L2_PIX_FMT_XRGB32", "XRGB32", 32, FORMAT_RGB),
      FormatInfo(V4L2_PIX_FMT_RGB565, "V4L2_PIX_FMT_RGB565", "RGB565", 16, FORMAT_RGB),
      FormatInfo(V4L2_PIX_FMT_JPEG, "V4L2_PIX_FMT_JPEG", "JPG", 0, FORMAT_JPEG),
      FormatInfo(V4L2_MBUS_FMT_SBGGR12_1X12, "V4L2_MBUS_FMT_SBGGR12_1X12", "SBGGR12_1X12", 12, FORMAT_MBUS),
      FormatInfo(V4L2_MBUS_FMT_SGBRG12_1X12, "V4L2_MBUS_FMT_SGBRG12_1X12", "SGBRG12_1X12", 12, FORMAT_MBUS),
      FormatInfo(V4L2_MBUS_FMT_SGRBG12_1X12, "V4L2_MBUS_FMT_SGRBG12_1X12", "SGRBG12_1X12", 12, FORMAT_MBUS),
      FormatInfo(V4L2_MBUS_FMT_SRGGB12_1X12, "V4L2_MBUS_FMT_SRGGB12_1X12", "SRGGB12_1X12", 12, FORMAT_MBUS),
      FormatInfo(V4L2_MBUS_FMT_SBGGR10_1X10, "V4L2_MBUS_FMT_SBGGR10_1X10", "SBGGR10_1X10", 10, FORMAT_MBUS),
      FormatInfo(V4L2_MBUS_FMT_SGBRG10_1X10, "V4L2_MBUS_FMT_SGBRG10_1X10", "SGBRG10_1X10", 10, FORMAT_MBUS),
      FormatInfo(V4L2_MBUS_FMT_SGRBG10_1X10, "V4L2_MBUS_FMT_SGRBG10_1X10", "SGRBG10_1X10", 10, FORMAT_MBUS),
      FormatInfo(V4L2_MBUS_FMT_SRGGB10_1X10, "V4L2_MBUS_FMT_SRGGB10_1X10", "SRGGB10_1X10", 10, FORMAT_MBUS),
      FormatInfo(V4L2_MBUS_FMT_SBGGR8_1X8, "V4L2_MBUS_FMT_SBGGR8_1X8", "SBGGR8_1X8", 8, FORMAT_MBUS),
      FormatInfo(V4L2_MBUS_FMT_SGBRG8_1X8, "V4L2_MBUS_FMT_SGBRG8_1X8", "SGBRG8_1X8", 8, FORMAT_MBUS),
      FormatInfo(V4L2_MBUS_FMT_SGRBG8_1X8, "V4L2_MBUS_FMT_SGRBG8_1X8", "SGRBG8_1X8", 8, FORMAT_MBUS),
      FormatInfo(V4L2_MBUS_FMT_SRGGB8_1X8, "V4L2_MBUS_FMT_SRGGB8_1X8", "SRGGB8_1X8", 8, FORMAT_MBUS),
      FormatInfo(V4L2_MBUS_FMT_UYVY8_1X16, "V4L2_MBUS_FMT_UYVY8_1X16", "UYVY8_1X16", 16, FORMAT_MBUS),
      FormatInfo(V4L2_MBUS_FMT_YUYV8_1X16, "V4L2_MBUS_FMT_YUYV8_1X16", "YUYV8_1X16", 16, FORMAT_MBUS),
      FormatInfo(V4L2_MBUS_FMT_UYVY8_2X8, "V4L2_MBUS_FMT_UYVY8_2X8", "UYVY8_2X8", 8, FORMAT_MBUS),
      FormatInfo(MEDIA_BUS_FMT_RGB888_1X24, "MEDIA_BUS_FMT_RGB888_1X24", "RGB888_1X24", 0, FORMAT_MBUS),
      FormatInfo(MEDIA_BUS_FMT_RGB565_1X16, "MEDIA_BUS_FMT_RGB565_1X16", "RGB565_1X16", 0, FORMAT_MBUS),
      FormatInfo(MEDIA_BUS_FMT_YUYV12_1X24, "MEDIA_BUS_FMT_YUYV12_1X24", "YUYV12_1X24", 0, FORMAT_MBUS),
      FormatInfo(MEDIA_BUS_FMT_SGRBG10_1X10, "MEDIA_BUS_FMT_SGRBG10_1X10", "SGRBG10_1X10", 0, FORMAT_MBUS),
      FormatInfo(MEDIA_BUS_FMT_RGB888_1X32_PADHI, "MEDIA_BUS_FMT_RGB888_1X32_PADHI", "RGB888_1X32_PADHI", 0, FORMAT_MBUS),
      FormatInfo(V4L2_FMT_INTEL_IPU4_ISYS_META, "V4L2_FMT_INTEL_IPU4_ISYS_META", "META_DATA", 0, FORMAT_MBUS),
      FormatInfo(GetFourccFmt('y', '0', '3', '2'), "y032", "y032", 24, FORMAT_FOURCC),
      FormatInfo(GetFourccFmt('N', 'V', '1', '2'), "NV12", "NV12", 12, FORMAT_FOURCC),
      FormatInfo(GetFourccFmt('b', 'V', '0', 'K'), "bV0K", "bV0K", 16, FORMAT_FOURCC),
      FormatInfo(GetFourccFmt('b', 'V', '0', 'G'), "bV0G", "bV0G", 16, FORMAT_FOURCC),
      FormatInfo(GetFourccFmt('V', '4', '2', '0'), "V420", "V420", 24, FORMAT_FOURCC),
      FormatInfo(GetFourccFmt('B', 'A', '1', '0'), "BA10", "BA10", 16, FORMAT_FOURCC),
      FormatInfo(GetFourccFmt('B', 'A', '1', '2'), "BA12", "BA12", 16, FORMAT_FOURCC),
      FormatInfo(GetFourccFmt('G', 'R', '1', '0'), "GR10", "GR10", 16, FORMAT_FOURCC)
    ]

  /** The index of the first entry with this pixel code: the entry every lookup by code reads. */
  function FirstWithCode(t: seq<FormatInfo>, code: int): (r: Option<nat>)
    ensures r.None? <==> forall i :: 0 <= i < |t| ==> t[i].pixelCode != code
    ensures r.Some? ==> (r.value < |t| && t[r.value].pixelCode == code
                         && forall i :: 0 <= i < r.value ==> t[i].pixelCode != code)
  {
    if t == [] then None
    else if t[0].pixelCode == code then Some(0)
    else match FirstWithCode(t[1..], code)
      case None => None
      case Some(k) => Some(k + 1)
  }

  /** The index of the first entry with this full name. */
  function FirstWithName(t: seq<FormatInfo>, name: string): (r: Option<nat>)
    ensures r.None? <==> forall i :: 0 <= i < |t| ==> t[i].fullName != name
    ensures r.Some? ==> (r.value < |t| && t[r.value].fullName == name
                         && forall i :: 0 <= i < r.value ==> t[i].fullName != name)
  {
    if t == [] then None
    else if t[0].fullName == name then Some(0)
    else match FirstWithName(t[1..], name)
      case None => None
      case Some(k) => Some(k + 1)
  }

  const INVALID_FORMAT_NAME: string := "INVALID FORMAT"

  /** pixelCode2String: the full name of the first entry with the code. */
  function PixelCodeToString(t: seq<FormatInfo>, code: int): (name: string)
    ensures FirstWithCode(t, code).None? ==> name == INVALID_FORMAT_NAME
    ensures FirstWithCode(t, code).Some? ==> name == t[FirstWithCode(t, code).value].fullName
  {
    match FirstWithCode(t, code)
      case None => INVALID_FORMAT_NAME
      case Some(i) => t[i].fullName
  }

  /** string2PixelCode: -1 for a null or unknown name. */
  function StringToPixelCode(t: seq<FormatInfo>, name: Option<string>): (code: int)
    ensures name.None? ==> code == -1
    ensures name.Some? && FirstWithName(t, name.value).None? ==> code == -1
    ensures name.Some? && FirstWithName(t, name.value).Some? ==> code == t[FirstWithName(t, name.value).value].pixelCode
  {
    if name.None? then -1
    else match FirstWithName(t, name.value)
      case None => -1
      case Some(i) => t[i].pixelCode
  }

  predicate DistinctNames(t: seq<FormatInfo>)
  {
    forall i, j :: 0 <= i < j < |t| ==> t[i].fullName != t[j].fullName
  }

  /** Printing a listed code and parsing the name back gives the code. */
  lemma PixelCodeRoundTrip(t: seq<FormatInfo>, code: int)
    requires DistinctNames(t)
    requires exists i :: 0 <= i < |t| && t[i].pixelCode == code
    ensures StringToPixelCode(t, Some(PixelCodeToString(t, code))) == code
  {
    var i := FirstWithCode(t, code).value;
    var j := FirstWithName(t, t[i].fullName).value;
    assert j == i;
  }

  /** getBpp: the bits per pixel of the first entry with the code, -1 for an unlisted code. */
  function GetBpp(t: seq<FormatInfo>, format: int): (bpp: int)
    ensures FirstWithCode(t, format).None? ==> bpp == -1
    ensures FirstWithCode(t, format).Some? ==> bpp == t[FirstWithCode(t, format).value].bpp
  {
    match FirstWithCode(t, format)
      case None => -1
      case Some(i) => t[i].bpp
  }

  /** isRaw: the first entry with the code is plain or vector raw. */
  predicate IsRaw(t: seq<FormatInfo>, format: int)
  {
    match FirstWithCode(t, format)
      case None => false
      case Some(i) => t[i].typ == FORMAT_RAW_VEC || t[i].typ == FORMAT_RAW
  }

  /** isVectorRaw: the first entry with the code is vector raw. */
  predicate IsVectorRaw(t: seq<FormatInfo>, format: int)
  {
    match FirstWithCode(t, format)
      case None => false
      case Some(i) => t[i].typ == FORMAT_RAW_VEC
  }

  lemma RawClassification(t: seq<FormatInfo>, format: int)
    ensures IsVectorRaw(t, format) ==> IsRaw(t, format)
    ensures IsRaw(t, format) <==>
      exists i :: 0 <= i < |t| && t[i].pixelCode == format && (forall k :: 0 <= k < i ==> t[k].pixelCode != format)
        && (t[i].typ == FORMAT_RAW || t[i].typ == FORMAT_RAW_VEC)
  {
    if IsRaw(t, format) {
      var i := FirstWithCode(t, format).value;
      assert t[i].pixelCode == format;
    }
  }

  /** ALIGN_64 on a C int: (x + 63) & ~63, which rounds up to a multiple of 64 also below zero. */
  function Align64Int(x: int): (r: int)
    ensures r % 64 == 0 && x <= r < x + 64
  {
    ((x + 63) / 64) * 64
  }

  /** getStride: ALIGN_64 of the bytes per line, or of the width for a planar format. */
  function GetStride(t: seq<FormatInfo>, format: int, width: int): (stride: int)
    ensures stride % 64 == 0
    ensures IsPlanarFormat(format) ==> width <= stride < width + 64
    ensures !IsPlanarFormat(format) ==>
      TruncDiv(width * GetBpp(t, format), 8) <= stride < TruncDiv(width * GetBpp(t, format), 8) + 64
  {
    var bpl := if IsPlanarFormat(format) then width else TruncDiv(width * GetBpp(t, format), 8);
    Align64Int(bpl)
  }

  /** The minimum extra size added after a frame for the DMA and allocation units. */
  const MIN_EXTRA_SIZE: int := 1024

  /**
   * getFrameSize: stride times buffer height (height first aligned to 64 on
   * request; scaled by bpp/8 for planar formats), plus, when asked, an extra
   * size of at least one line and at least 1024 bytes.
   */
  function GetFrameSize(t: seq<FormatInfo>, format: int, width: int, height: int,
                        needAlignedHeight: bool, needExtraSize: bool): (size: int)
    ensures var stride := GetStride(t, format, width);
      var h := if needAlignedHeight then Align64Int(height) else height;
      var bufferHeight := if IsPlanarFormat(format) then TruncDiv(h * GetBpp(t, format), 8) else h;
      (!needExtraSize ==> size == stride * bufferHeight)
      && (needExtraSize ==> size >= stride * bufferHeight + MIN_EXTRA_SIZE)
      && (needExtraSize && !IsPlanarFormat(format) ==> size >= stride * bufferHeight + stride)
  {
    var stride := GetStride(t, format, width);
    var h := if needAlignedHeight then Align64Int(height) else height;
    var bufferHeight := if IsPlanarFormat(format) then TruncDiv(h * GetBpp(t, format), 8) else h;
    if !needExtraSize then stride * bufferHeight
    else
      var extra := if IsPlanarFormat(format) then TruncDiv(stride * GetBpp(t, format), 8) else stride;
      stride * bufferHeight + Max(extra, MIN_EXTRA_SIZE)
  }

  // ---------------------------------------------------------------------
  // fourcc2String
  // ---------------------------------------------------------------------

  /** The printable prefix of a C string: characters up to the first NUL. */
  function UpToNul(s: string): (r: string)
    ensures |r| <= |s| && r == s[..|r|]
    ensures forall k :: 0 <= k < |r| ==> r[k] != 0 as char
    ensures |r| < |s| ==> s[|r|] == 0 as char
  {
    if s == [] || s[0] == 0 as char then [] else [s[0]] + UpToNul(s[1..])
  }

  function ByteChar(v: int): (c: char)
    ensures c as int == v % 256
  {
    (v % 256) as char
  }

  /**
   * fourcc2String: the four bytes of the code, most significant first, as
   * formatted by snprintf("%c%c%c%c"); the std::string stops at a zero byte.
   */
  function FourccToString(format4cc: int): (s: string)
    requires 0 <= format4cc < 0x1_0000_0000
    ensures |s| <= 4
  {
    UpToNul([ByteChar(format4cc / 0x100_0000), ByteChar(format4cc / 0x1_0000),
             ByteChar(format4cc / 0x100), ByteChar(format4cc)])
  }

  /** fourcc2String inverts GET_FOURCC_FMT for four non-zero byte characters. */
  lemma FourccRoundTrip(a: char, b: char, c: char, d: char)
    requires 0 < a as int < 256 && 0 < b as int < 256 && 0 < c as int < 256 && 0 < d as int < 256
    ensures FourccToString(GetFourccFmt(a, b, c, d)) == [a, b, c, d]
  {
    var f := GetFourccFmt(a, b, c, d);
    assert f / 0x100_0000 == a as int;
    assert f / 0x1_0000 == a as int * 0x100 + b as int;
    assert f / 0x100 == a as int * 0x1_0000 + b as int * 0x100 + c as int;
    var bytes := [ByteChar(f / 0x100_0000), ByteChar(f / 0x1_0000), ByteChar(f / 0x100), ByteChar(f)];
    assert bytes == [a, b, c, d];
    assert UpToNul(bytes[3..]) == [d];
    assert UpToNul(bytes[2..]) == [c, d];
    assert UpToNul(bytes[1..]) == [b, c, d];
  }

  /** format2string: the short name of a listed code, its fourcc text otherwise. */
  function FormatToString(t: seq<FormatInfo>, format: int): (s: string)
    requires 0 <= format < 0x1_0000_0000
    ensures FirstWithCode(t, format).Some? ==> s == t[FirstWithCode(t, format).value].shortName
    ensures FirstWithCode(t, format).None? ==> s == FourccToString(format)
  {
    match FirstWithCode(t, format)
      case None => FourccToString(format)
      case Some(i) => t[i].shortName
  }

  /**
   * What format2string hands its caller as written: a pointer into the static
   * format table, or the c_str() of the temporary string fourcc2String
   * returned, which is destroyed when the return statement ends.
   */
  datatype NamePointer = TableName(name: string) | DestroyedTemporary

  /** format2string as written: every code outside the table gets a pointer to freed storage. */
  function FormatToStringAsWritten(t: seq<FormatInfo>, format: int): (p: NamePointer)
    requires 0 <= format < 0x1_0000_0000
    ensures p.TableName? <==> FirstWithCode(t, format).Some?
    ensures p.TableName? ==> p.name == FormatToString(t, format)
  {
    match FirstWithCode(t, format)
      case None => DestroyedTemporary
      case Some(i) => TableName(t[i].shortName)
  }

  /**
   * With NV12 the only listed format, the code 'ABCD' gets the destroyed
   * temporary as written, where its fourcc text "ABCD" is meant.
   */
  lemma FormatToStringAsWrittenDangles()
    ensures var t := [FormatInfo(GetFourccFmt('N', 'V', '1', '2'), "NV12", "NV12", 12, FORMAT_FOURCC)];
      var f := GetFourccFmt('A', 'B', 'C', 'D');
      FormatToStringAsWritten(t, f) == DestroyedTemporary && FormatToString(t, f) == "ABCD"
  {
    FourccRoundTrip('A', 'B', 'C', 'D');
  }

  // ---------------------------------------------------------------------
  // Interlacing and pipe classification.
  // ---------------------------------------------------------------------

  /** getInterlaceHeight: half the height (C division) for a single field, else the height. */
  function GetInterlaceHeight(field: int, height: int): (h: int)
    ensures SingleField(field) && height >= 0 ==> h == height / 2 && h + h <= height <= h + h + 1
    ensures !SingleField(field) ==> h == height
  {
    if SingleField(field) then TruncDiv(height, 2) else height
  }

  predicate IsHdrPsysPipe(m: TuningMode)
  {
    m == TUNING_VIDEO_HDR || m == TUNING_VIDEO_HDR2 || m == TUNING_VIDEO_HLC
  }

  predicate IsUllPsysPipe(m: TuningMode)
  {
    m == TUNING_VIDEO_ULL || m == TUNING_VIDEO_CUSTOM_AIC
  }

  lemma PsysPipeClassesDisjoint(m: TuningMode)
    ensures !(IsHdrPsysPipe(m) && IsUllPsysPipe(m))
    ensures IsHdrPsysPipe(m) <==> m in {TUNING_VIDEO_HDR, TUNING_VIDEO_HDR2, TUNING_VIDEO_HLC}
    ensures IsUllPsysPipe(m) <==> m in {TUNING_VIDEO_ULL, TUNING_VIDEO_CUSTOM_AIC}
  {
  }

  // ---------------------------------------------------------------------
  // Configuration-mode names.
  // ---------------------------------------------------------------------

  /** The ten names getConfigModeByName recognises, each with its mode. */
  const CONFIG_MODE_NAMES: seq<(string, ConfigMode)> := [
    ("AUTO", CONFIG_AUTO), ("HDR", CONFIG_HDR), ("ULL", CONFIG_ULL), ("HLC", CONFIG_HLC),
    ("NORMAL", CONFIG_NORMAL), ("HIGH_SPEED", CONFIG_HIGH_SPEED), ("CUSTOM_AIC", CONFIG_CUSTOM_AIC),
    ("VIDEO_LL", CONFIG_VIDEO_LL), ("STILL_CAPTURE", CONFIG_STILL_CAPTURE), ("HDR2", CONFIG_HDR2)]

  /** getConfigModeByName: END for null, "NONE" and every unrecognised name. */
  function GetConfigModeByName(name: Option<string>): ConfigMode
  {
    if name.None? then CONFIG_END
    else
      var s := name.value;
      if s == "AUTO" then CONFIG_AUTO
      else if s == "HDR" then CONFIG_HDR
      else if s == "ULL" then CONFIG_ULL
      else if s == "HLC" then CONFIG_HLC
      else if s == "NORMAL" then CONFIG_NORMAL
      else if s == "HIGH_SPEED" then CONFIG_HIGH_SPEED
      else if s == "CUSTOM_AIC" then CONFIG_CUSTOM_AIC
      else if s == "VIDEO_LL" then CONFIG_VIDEO_LL
      else if s == "STILL_CAPTURE" then CONFIG_STILL_CAPTURE
      else if s == "HDR2" then CONFIG_HDR2
      else CONFIG_END
  }

  /** Each of the ten names yields its own mode, and no two names share one. */
  lemma ConfigModeNamesRecognised()
    ensures forall k :: 0 <= k < |CONFIG_MODE_NAMES| ==>
      GetConfigModeByName(Some(CONFIG_MODE_NAMES[k].0)) == CONFIG_MODE_NAMES[k].1 != CONFIG_END
    ensures forall k, l :: 0 <= k < l < |CONFIG_MODE_NAMES| ==> CONFIG_MODE_NAMES[k].1 != CONFIG_MODE_NAMES[l].1
  {
  }

  /** Null, "NONE" and every other name yield END. */
  lemma ConfigModeUnknownNames(s: string)
    requires forall k :: 0 <= k < |CONFIG_MODE_NAMES| ==> s != CONFIG_MODE_NAMES[k].0
    ensures GetConfigModeByName(Some(s)) == CONFIG_END
    ensures GetConfigModeByName(None) == CONFIG_END
    ensures GetConfigModeByName(Some("NONE")) == CONFIG_END
  {
    assert s != CONFIG_MODE_NAMES[0].0 && s != CONFIG_MODE_NAMES[1].0 && s != CONFIG_MODE_NAMES[2].0;
    assert s != CONFIG_MODE_NAMES[3].0 && s != CONFIG_MODE_NAMES[4].0 && s != CONFIG_MODE_NAMES[5].0;
    assert s != CONFIG_MODE_NAMES[6].0 && s != CONFIG_MODE_NAMES[7].0 && s != CONFIG_MODE_NAMES[8].0;
    assert s != CONFIG_MODE_NAMES[9].0;
  }

  // ---------------------------------------------------------------------
  // Splitting strings at a delimiter.
  // ---------------------------------------------------------------------

  /** The position of the first delimiter, or |s| when there is none. */
  function IndexOf(s: string, d: char): (k: nat)
    ensures k <= |s| && (k < |s| ==> s[k] == d)
    ensures forall i :: 0 <= i < k ==> s[i] != d
  {
    if s == [] || s[0] == d then 0 else 1 + IndexOf(s[1..], d)
  }

  /** Every field between delimiters, the empty ones included: one more than the delimiters. */
  function Fields(s: string, d: char): (fs: seq<string>)
    ensures |fs| >= 1
    decreases |s|
  {
    var k := IndexOf(s, d);
    if k == |s| then [s] else [s[..k]] + Fields(s[k + 1..], d)
  }

  /** Joining the fields with the delimiter. */
  function Join(fs: seq<string>, d: char): string
    requires |fs| >= 1
  {
    if |fs| == 1 then fs[0] else fs[0] + [d] + Join(fs[1..], d)
  }

  /** Splitting is inverted by joining, and no field holds the delimiter. */
  lemma {:induction false} FieldsJoin(s: string, d: char)
    ensures Join(Fields(s, d), d) == s
    ensures forall i, j :: 0 <= i < |Fields(s, d)| && 0 <= j < |Fields(s, d)[i]| ==> Fields(s, d)[i][j] != d
    decreases |s|
  {
    var k := IndexOf(s, d);
    if k < |s| {
      FieldsJoin(s[k + 1..], d);
      assert s == s[..k] + [d] + s[k + 1..];
      var fs := Fields(s, d);
      assert fs == [s[..k]] + Fields(s[k + 1..], d);
      assert fs[1..] == Fields(s[k + 1..], d);
      forall i, j | 0 <= i < |fs| && 0 <= j < |fs[i]| ensures fs[i][j] != d {
        if i > 0 {
          assert fs[i] == Fields(s[k + 1..], d)[i - 1];
        }
      }
    }
  }

  lemma {:induction false} IndexOfSnoc(s: string, c: char, d: char)
    ensures IndexOf(s + [c], d) == if IndexOf(s, d) < |s| then IndexOf(s, d) else if c == d then |s| else |s| + 1
  {
    if s != [] && s[0] != d {
      assert (s + [c])[1..] == s[1..] + [c];
      IndexOfSnoc(s[1..], c, d);
    }
  }

  function Init<T>(xs: seq<T>): seq<T>
    requires |xs| >= 1
  {
    xs[..|xs| - 1]
  }

  function Last<T>(xs: seq<T>): T
    requires |xs| >= 1
  {
    xs[|xs| - 1]
  }

  /** Appending the delimiter opens an empty field. */
  lemma {:induction false} FieldsSnocDelim(s: string, d: char)
    ensures Fields(s + [d], d) == Fields(s, d) + [[]]
    decreases |s|
  {
    var k := IndexOf(s, d);
    IndexOfSnoc(s, d, d);
    var t := s + [d];
    if k == |s| {
      assert t[k + 1..] == [];
      assert t[..k] == s;
      assert Fields(t, d) == [s] + Fields([], d);
    } else {
      FieldsSnocHead(s, d, d);
      assert Fields(s, d) == [s[..k]] + Fields(s[k + 1..], d);
      FieldsSnocDelim(s[k + 1..], d);
      SeqAssoc([s[..k]], Fields(s[k + 1..], d), [[]]);
    }
  }

  /** Past the first delimiter, appending a character changes only the fields after the first. */
  lemma FieldsSnocHead(s: string, c: char, d: char)
    requires IndexOf(s, d) < |s|
    ensures Fields(s + [c], d) == [s[..IndexOf(s, d)]] + Fields(s[IndexOf(s, d) + 1..] + [c], d)
  {
    var k := IndexOf(s, d);
    var t := s + [c];
    IndexOfSnoc(s, c, d);
    assert t[..k] == s[..k] && t[k + 1..] == s[k + 1..] + [c] by {
      assert t[..k] == s[..k];
      assert t[k + 1..] == s[k + 1..] + [c];
    }
  }

  /** A first field before fields whose last one grew by c: the last field of the whole grew by c. */
  lemma InitLastCons<T>(head: seq<T>, rest: seq<seq<T>>, c: T)
    requires |rest| >= 1
    ensures [head] + (Init(rest) + [Last(rest) + [c]]) == Init([head] + rest) + [Last([head] + rest) + [c]]
  {
    assert Init([head] + rest) == [head] + Init(rest);
  }

  /** Appending any other character extends the last field. */
  lemma {:induction false} FieldsSnocOther(s: string, c: char, d: char)
    requires c != d
    ensures Fields(s + [c], d) == Init(Fields(s, d)) + [Last(Fields(s, d)) + [c]]
    decreases |s|
  {
    var k := IndexOf(s, d);
    IndexOfSnoc(s, c, d);
    if k < |s| {
      FieldsSnocHead(s, c, d);
      assert Fields(s, d) == [s[..k]] + Fields(s[k + 1..], d);
      FieldsSnocOther(s[k + 1..], c, d);
      InitLastCons(s[..k], Fields(s[k + 1..], d), c);
    }
  }

  /** getline-based splitString: the fields, except that a final empty field is not produced. */
  function Tokens(s: string, d: char): (ts: seq<string>)
  {
    var fs := Fields(s, d);
    if fs[|fs| - 1] == [] then fs[..|fs| - 1] else fs
  }

  lemma SplitStep(tokens: seq<string>, item: string, s: string, c: char, d: char)
    requires tokens + [item] == Fields(s, d)
    ensures c == d ==> tokens + [item] + [[]] == Fields(s + [c], d)
    ensures c != d ==> tokens + [item + [c]] == Fields(s + [c], d)
  {
    if c == d {
      FieldsSnocDelim(s, d);
    } else {
      FieldsSnocOther(s, c, d);
    }
    assert Init(tokens + [item]) == tokens && Last(tokens + [item]) == item;
  }

  /** splitString: the std::getline loop, one character at a time. */
  method SplitString(src: string, delim: char) returns (tokens: seq<string>)
    ensures tokens == Tokens(src, delim)
  {
    tokens := [];
    var item: string := [];
    var i := 0;
    while i < |src|
      invariant 0 <= i <= |src|
      invariant tokens + [item] == Fields(src[..i], delim)
    {
      SplitStep(tokens, item, src[..i], src[i], delim);
      assert src[..i + 1] == src[..i] + [src[i]];
      if src[i] == delim {
        tokens := tokens + [item];
        item := [];
      } else {
        item := item + [src[i]];
      }
      i := i + 1;
    }
    assert src[..|src|] == src;
    if item != [] {
      tokens := tokens + [item];
    } else {
      assert tokens == Fields(src, delim)[..|Fields(src, delim)| - 1];
    }
  }

  /** The modes of the comma-separated names, in order. */
  function ModesOf(names: seq<string>): (ms: seq<ConfigMode>)
    ensures |ms| == |names|
    ensures forall k :: 0 <= k < |names| ==> ms[k] == GetConfigModeByName(Some(names[k]))
  {
    if names == [] then [] else [GetConfigModeByName(Some(names[0]))] + ModesOf(names[1..])
  }

  /**
   * getConfigModeFromString: one mode per comma-separated field, appended to
   * the caller's vector; an empty field yields END.
   */
  method GetConfigModeFromString(str: string, cfgModes: seq<ConfigMode>) returns (modes: seq<ConfigMode>)
    ensures modes == cfgModes + ModesOf(Fields(str, ','))
  {
    modes := cfgModes;
    var modeStr := str;
    var split := true;
    while split
      invariant split ==> modes + ModesOf(Fields(modeStr, ',')) == cfgModes + ModesOf(Fields(str, ','))
      invariant !split ==> modes == cfgModes + ModesOf(Fields(str, ','))
      decreases |modeStr|, split
    {
      var pos := IndexOf(modeStr, ',');
      var mode;
      var fs := Fields(modeStr, ',');
      if pos == |modeStr| {
        mode := GetConfigModeByName(Some(modeStr));
        split := false;
        assert fs == [modeStr];
        modes := modes + [mode];
      } else {
        var resultStr := modeStr[..pos];
        assert fs == [resultStr] + Fields(modeStr[pos + 1..], ',');
        assert ModesOf(fs) == [GetConfigModeByName(Some(resultStr))] + ModesOf(Fields(modeStr[pos + 1..], ','));
        modeStr := modeStr[pos + 1..];
        mode := GetConfigModeByName(Some(resultStr));
        modes := modes + [mode];
      }
    }
  }
}
