/**
 * Types shared by several parts of the HAL: stream configuration modes,
 * tuning modes, the V4L2 field and fourcc vocabulary, and plain integer
 * geometry.  Enumerations whose numeric values live in headers that are not
 * part of this model are datatypes; only their identity matters.
 */
module HalTypes {

  /** ConfigMode (CAMERA_STREAM_CONFIGURATION_MODE_*). */
  datatype ConfigMode =
    | CONFIG_AUTO
    | CONFIG_HDR
    | CONFIG_ULL
    | CONFIG_HLC
    | CONFIG_NORMAL
    | CONFIG_HIGH_SPEED
    | CONFIG_CUSTOM_AIC
    | CONFIG_VIDEO_LL
    | CONFIG_STILL_CAPTURE
    | CONFIG_HDR2
    | CONFIG_END

  /** TuningMode (TUNING_MODE_*). */
  datatype TuningMode =
    | TUNING_VIDEO
    | TUNING_VIDEO_ULL
    | TUNING_VIDEO_HDR
    | TUNING_VIDEO_HDR2
    | TUNING_VIDEO_HLC
    | TUNING_VIDEO_CUSTOM_AIC
    | TUNING_VIDEO_LL
    | TUNING_VIDEO_REAR_VIEW
    | TUNING_VIDEO_HITCH_VIEW
    | TUNING_STILL_CAPTURE

  /** A (width, height) pair, camera_resolution_t. */
  datatype Size = Size(width: int, height: int)

  function Area(s: Size): int
  {
    s.width * s.height
  }

  /** v4l2_fourcc(a, b, c, d) of videodev2.h: the first character is the least significant byte. */
  function V4l2Fourcc(a: char, b: char, c: char, d: char): int
    requires a < 256 as char && b < 256 as char && c < 256 as char && d < 256 as char
  {
    a as int + b as int * 0x100 + c as int * 0x1_0000 + d as int * 0x100_0000
  }

  // Pixel formats of videodev2.h used by the HAL's own decisions.
  const V4L2_PIX_FMT_SBGGR8: int := V4l2Fourcc('B', 'A', '8', '1')
  const V4L2_PIX_FMT_SGBRG8: int := V4l2Fourcc('G', 'B', 'R', 'G')
  const V4L2_PIX_FMT_SGRBG8: int := V4l2Fourcc('G', 'R', 'B', 'G')
  const V4L2_PIX_FMT_SRGGB8: int := V4l2Fourcc('R', 'G', 'G', 'B')
  const V4L2_PIX_FMT_SBGGR10: int := V4l2Fourcc('B', 'G', '1', '0')
  const V4L2_PIX_FMT_SGBRG10: int := V4l2Fourcc('G', 'B', '1', '0')
  const V4L2_PIX_FMT_SGRBG10: int := V4l2Fourcc('B', 'A', '1', '0')
  const V4L2_PIX_FMT_SRGGB10: int := V4l2Fourcc('R', 'G', '1', '0')
  const V4L2_PIX_FMT_SBGGR12: int := V4l2Fourcc('B', 'G', '1', '2')
  const V4L2_PIX_FMT_SGBRG12: int := V4l2Fourcc('G', 'B', '1', '2')
  const V4L2_PIX_FMT_SGRBG12: int := V4l2Fourcc('B', 'A', '1', '2')
  const V4L2_PIX_FMT_SRGGB12: int := V4l2Fourcc('R', 'G', '1', '2')
  const V4L2_PIX_FMT_SBGGR10P: int := V4l2Fourcc('p', 'B', 'A', 'A')
  const V4L2_PIX_FMT_SGBRG10P: int := V4l2Fourcc('p', 'G', 'A', 'A')
  const V4L2_PIX_FMT_SGRBG10P: int := V4l2Fourcc('p', 'g', 'A', 'A')
  const V4L2_PIX_FMT_SRGGB10P: int := V4l2Fourcc('p', 'R', 'A', 'A')
  const V4L2_PIX_FMT_NV12: int := V4l2Fourcc('N', 'V', '1', '2')
  const V4L2_PIX_FMT_NV21: int := V4l2Fourcc('N', 'V', '2', '1')
  const V4L2_PIX_FMT_NV16: int := V4l2Fourcc('N', 'V', '1', '6')
  const V4L2_PIX_FMT_YUYV: int := V4l2Fourcc('Y', 'U', 'Y', 'V')
  const V4L2_PIX_FMT_UYVY: int := V4l2Fourcc('U', 'Y', 'V', 'Y')
  const V4L2_PIX_FMT_YUV420: int := V4l2Fourcc('Y', 'U', '1', '2')
  const V4L2_PIX_FMT_YVU420: int := V4l2Fourcc('Y', 'V', '1', '2')
  const V4L2_PIX_FMT_YUV422P: int := V4l2Fourcc('4', '2', '2', 'P')
  const V4L2_PIX_FMT_BGR24: int := V4l2Fourcc('B', 'G', 'R', '3')
  const V4L2_PIX_FMT_BGR32: int := V4l2Fourcc('B', 'G', 'R', '4')
  const V4L2_PIX_FMT_RGB24: int := V4l2Fourcc('R', 'G', 'B', '3')
  const V4L2_PIX_FMT_RGB32: int := V4l2Fourcc('R', 'G', 'B', '4')
  const V4L2_PIX_FMT_XBGR32: int := V4l2Fourcc('X', 'R', '2', '4')
  const V4L2_PIX_FMT_XRGB32: int := V4l2Fourcc('B', 'X', '2', '4')
  const V4L2_PIX_FMT_RGB565: int := V4l2Fourcc('R', 'G', 'B', 'P')
  const V4L2_PIX_FMT_JPEG: int := V4l2Fourcc('J', 'P', 'E', 'G')

  // Gralloc pixel formats of Android's system/graphics.h used by the camera HALs.
  const HAL_PIXEL_FORMAT_RGBA_8888: int := 1
  const HAL_PIXEL_FORMAT_RGB_565: int := 4
  const HAL_PIXEL_FORMAT_YCbCr_422_SP: int := 0x10
  const HAL_PIXEL_FORMAT_YCrCb_420_SP: int := 0x11
  const HAL_PIXEL_FORMAT_YCbCr_422_I: int := 0x14
  const HAL_PIXEL_FORMAT_RAW16: int := 0x20
  const HAL_PIXEL_FORMAT_BLOB: int := 0x21
  const HAL_PIXEL_FORMAT_IMPLEMENTATION_DEFINED: int := 0x22
  const HAL_PIXEL_FORMAT_YV12: int := 0x32315659

  /** The formats isPlanarFormat lists; they are pairwise distinct. */
  predicate IsPlanarFormat(format: int)
  {
    format == V4L2_PIX_FMT_NV12 || format == V4L2_PIX_FMT_NV21
    || format == V4L2_PIX_FMT_YUV420 || format == V4L2_PIX_FMT_YVU420
    || format == V4L2_PIX_FMT_YUV422P || format == V4L2_PIX_FMT_NV16
  }

  /** enum v4l2_field of videodev2.h. */
  const V4L2_FIELD_ANY: int := 0
  const V4L2_FIELD_NONE: int := 1
  const V4L2_FIELD_TOP: int := 2
  const V4L2_FIELD_BOTTOM: int := 3
  const V4L2_FIELD_INTERLACED: int := 4
  const V4L2_FIELD_ALTERNATE: int := 7

  /** SINGLE_FIELD: a field value carrying only one of the two interlaced fields. */
  predicate SingleField(field: int)
  {
    field == V4L2_FIELD_TOP || field == V4L2_FIELD_BOTTOM || field == V4L2_FIELD_ALTERNATE
  }

  // HAL enumerations (ICamera.h declaration order).
  const ANTIBANDING_MODE_AUTO: int := 0
  const ANTIBANDING_MODE_50HZ: int := 1
  const ANTIBANDING_MODE_60HZ: int := 2
  const ANTIBANDING_MODE_OFF: int := 3
  const AE_MODE_AUTO: int := 0
  const AE_MODE_MANUAL: int := 1
  const AWB_MODE_AUTO: int := 0
  const AWB_MODE_INCANDESCENT: int := 1
  const AWB_MODE_FLUORESCENT: int := 2
  const AWB_MODE_DAYLIGHT: int := 3
  const AWB_MODE_FULL_OVERCAST: int := 4
  const AWB_MODE_PARTLY_OVERCAST: int := 5
  const AWB_MODE_SUNSET: int := 6
  const AWB_MODE_VIDEO_CONFERENCE: int := 7
  const AWB_MODE_MANUAL_CCT_RANGE: int := 8
  const AWB_MODE_MANUAL_WHITE_POINT: int := 9
  const AWB_MODE_MANUAL_GAIN: int := 10
  const AWB_MODE_MANUAL_COLOR_TRANSFORM: int := 11
  const AF_MODE_OFF: int := 0
  const AF_MODE_AUTO: int := 1
  const AF_MODE_MACRO: int := 2
  const AF_MODE_CONTINUOUS_VIDEO: int := 3
  const AF_MODE_CONTINUOUS_PICTURE: int := 4
  const AF_TRIGGER_IDLE: int := 0
  const AF_TRIGGER_START: int := 1
  const AF_TRIGGER_CANCEL: int := 2
  const VIDEO_STABILIZATION_MODE_OFF: int := 0
  const VIDEO_STABILIZATION_MODE_ON: int := 1
  const CAM_EFFECT_NONE: int := 0
  const CAM_EFFECT_MONO: int := 1
  const CAM_EFFECT_SEPIA: int := 2
  const CAM_EFFECT_NEGATIVE: int := 3

  /** C's `/` on int by a positive divisor: truncation toward zero (Dafny's `/` is Euclidean). */
  function TruncDiv(a: int, b: int): (q: int)
    requires b > 0
    ensures a >= 0 ==> q == a / b && q * b <= a < q * b + b
    ensures a < 0 ==> q * b - b < a <= q * b && q <= 0
  {
    if a >= 0 then a / b else -((-a) / b)
  }

  /** Port: the output ports of a producer or processor; INVALID_PORT also counts the real ones. */
  datatype Port = MAIN_PORT | SECOND_PORT | THIRD_PORT | FORTH_PORT | INVALID_PORT

  /** camera_stream_usage_t. */
  datatype StreamUsage =
    | CAMERA_STREAM_PREVIEW
    | CAMERA_STREAM_VIDEO_CAPTURE
    | CAMERA_STREAM_STILL_CAPTURE
    | CAMERA_STREAM_APP
    | CAMERA_STREAM_OPAQUE_RAW

  /** stream_t: the fields the HAL core reads. */
  datatype StreamT = StreamT(format: int, width: int, height: int, field: int, usage: StreamUsage, id: int)
}
