/**
 * Conversions shared by the 3A layer (AiqUtils): mapping a point between two
 * rectangular coordinate systems in C integer arithmetic, the AIQ error
 * codes, the convergence-speed tables, the sensor part of a digital gain,
 * the frame-usage enumeration and the AE weight-grid copy bound.
 * Floating-point values are modelled as reals.
 */
module AiqUtils {
  import opened Common
  import opened HalTypes

  // ---------------------------------------------------------------------
  // Coordinate systems
  // ---------------------------------------------------------------------

  /** camera_coordinate_system_t. */
  datatype CoordSystem = CoordSystem(left: int, top: int, right: int, bottom: int)

  /** camera_coordinate_t. */
  datatype Coordinate = Coordinate(x: int, y: int)

  /** camera_window_t. */
  datatype Window = Window(left: int, top: int, right: int, bottom: int, weight: int)

  /** A system the conversion can divide by: both spans positive. */
  predicate NonDegenerate(s: CoordSystem)
  {
    s.right > s.left && s.bottom > s.top
  }

  predicate Inside(s: CoordSystem, c: Coordinate)
  {
    s.left <= c.x <= s.right && s.top <= c.y <= s.bottom
  }

  /** (a * d) / a in C arithmetic gives d back. */
  lemma TruncDivCancel(a: int, d: int)
    requires a > 0
    ensures TruncDiv(a * d, a) == d
  {
    if d >= 0 {
      assert a * d == d * a;
      MulCancelNat(d, a);
    } else {
      assert -(a * d) == (-d) * a;
      MulCancelNat(-d, a);
    }
  }

  lemma MulCancelNat(d: nat, a: int)
    requires a > 0
    ensures (d * a) / a == d
  {
    MulMod(d, a);
    var q := (d * a) / a;
    assert q * a == d * a;
    assert (q - d) * a == 0;
  }

  /** Division of a non-negative product stays between 0 and the factor. */
  lemma ScaledBetween(u: int, a: int, d: int)
    requires a > 0 && 0 <= u <= a && d >= 0
    ensures 0 <= TruncDiv(u * d, a) <= d
  {
    var p := u * d;
    var m := a * d;
    ProductBelow(u, a, d);
    TruncDivCancel(a, d);
    TruncDivMonotoneNonNeg(0, p, a);
    TruncDivMonotoneNonNeg(p, m, a);
    assert TruncDiv(0, a) == 0;
  }

  lemma ProductBelow(u: int, a: int, d: int)
    requires 0 <= u <= a && d >= 0
    ensures 0 <= u * d <= a * d
  {
    NonNegProduct(u, d);
    NonNegProduct(a - u, d);
    assert a * d - u * d == (a - u) * d;
  }

  /** C division by a positive divisor is monotone in the dividend. */
  lemma TruncDivMonotone(x: int, y: int, a: int)
    requires a > 0 && x <= y
    ensures TruncDiv(x, a) <= TruncDiv(y, a)
  {
    if x >= 0 {
      TruncDivMonotoneNonNeg(x, y, a);
    } else if y < 0 {
      TruncDivMonotoneNeg(x, y, a);
    } else {
      TruncDivSigns(x, y, a);
    }
  }

  lemma TruncDivSigns(x: int, y: int, a: int)
    requires a > 0 && x < 0 <= y
    ensures TruncDiv(x, a) <= 0 <= TruncDiv(y, a)
  {
    var nx: nat := -x;
    var py: nat := y;
    DivMonotone(0, nx, a);
    DivMonotone(0, py, a);
    assert TruncDiv(x, a) == -(nx / a);
    assert TruncDiv(y, a) == py / a;
  }

  lemma TruncDivMonotoneNonNeg(x: int, y: int, a: int)
    requires a > 0 && 0 <= x <= y
    ensures TruncDiv(x, a) <= TruncDiv(y, a)
  {
    assert TruncDiv(x, a) == x / a;
    assert TruncDiv(y, a) == y / a;
    DivMonotone(x, y, a);
  }

  lemma TruncDivMonotoneNeg(x: int, y: int, a: int)
    requires a > 0 && x <= y < 0
    ensures TruncDiv(x, a) <= TruncDiv(y, a)
  {
    DivMonotone(-y, -x, a);
  }

  /**
   * One axis of convertCoordinateSystem: (v - srcLo) * dstSpan / srcSpan + dstLo
   * with C's truncating division.  The ends of the source span land on the
   * ends of the destination span.
   */
  function ConvertAxis(v: int, srcLo: int, srcHi: int, dstLo: int, dstHi: int): (r: int)
    requires srcHi > srcLo
    ensures v == srcLo ==> r == dstLo
    ensures v == srcHi ==> r == dstHi
  {
    var r := TruncDiv((v - srcLo) * (dstHi - dstLo), srcHi - srcLo) + dstLo;
    assert v == srcLo ==> (v - srcLo) * (dstHi - dstLo) == 0;
    TruncDivCancel(srcHi - srcLo, dstHi - dstLo);
    r
  }

  /** A point inside the source span lands inside the destination span. */
  lemma ConvertAxisInside(v: int, srcLo: int, srcHi: int, dstLo: int, dstHi: int)
    requires srcHi > srcLo && dstHi >= dstLo && srcLo <= v <= srcHi
    ensures dstLo <= ConvertAxis(v, srcLo, srcHi, dstLo, dstHi) <= dstHi
  {
    ScaledBetween(v - srcLo, srcHi - srcLo, dstHi - dstLo);
  }

  /** The axis mapping keeps the order of points when the destination is not flipped. */
  lemma ConvertAxisMonotone(v: int, w: int, srcLo: int, srcHi: int, dstLo: int, dstHi: int)
    requires srcHi > srcLo && dstHi >= dstLo && v <= w
    ensures ConvertAxis(v, srcLo, srcHi, dstLo, dstHi) <= ConvertAxis(w, srcLo, srcHi, dstLo, dstHi)
  {
    var d := dstHi - dstLo;
    assert (w - srcLo) * d - (v - srcLo) * d == (w - v) * d;
    NonNegProduct(w - v, d);
    TruncDivMonotone((v - srcLo) * d, (w - srcLo) * d, srcHi - srcLo);
  }

  /** convertCoordinateSystem: each axis mapped independently. */
  function ConvertCoordinateSystem(src: CoordSystem, dst: CoordSystem, c: Coordinate): (r: Coordinate)
    requires NonDegenerate(src)
    ensures c == Coordinate(src.left, src.top) ==> r == Coordinate(dst.left, dst.top)
    ensures c == Coordinate(src.right, src.bottom) ==> r == Coordinate(dst.right, dst.bottom)
    ensures c == Coordinate(src.right, src.top) ==> r == Coordinate(dst.right, dst.top)
    ensures c == Coordinate(src.left, src.bottom) ==> r == Coordinate(dst.left, dst.bottom)
  {
    Coordinate(ConvertAxis(c.x, src.left, src.right, dst.left, dst.right),
               ConvertAxis(c.y, src.top, src.bottom, dst.top, dst.bottom))
  }

  /** A point of the source rectangle maps into the destination rectangle. */
  lemma ConvertCoordinateInside(src: CoordSystem, dst: CoordSystem, c: Coordinate)
    requires NonDegenerate(src) && dst.right >= dst.left && dst.bottom >= dst.top
    requires Inside(src, c)
    ensures Inside(dst, ConvertCoordinateSystem(src, dst, c))
  {
    ConvertAxisInside(c.x, src.left, src.right, dst.left, dst.right);
    ConvertAxisInside(c.y, src.top, src.bottom, dst.top, dst.bottom);
  }

  lemma WindowCornersFacts(src: CoordSystem, ia: CoordSystem, w: Window)
    requires NonDegenerate(src) && NonDegenerate(ia)
    ensures w.left <= w.right ==>
      ConvertAxis(w.left, src.left, src.right, ia.left, ia.right) <= ConvertAxis(w.right, src.left, src.right, ia.left, ia.right)
    ensures w.top <= w.bottom ==>
      ConvertAxis(w.top, src.top, src.bottom, ia.top, ia.bottom) <= ConvertAxis(w.bottom, src.top, src.bottom, ia.top, ia.bottom)
    ensures Inside(src, Coordinate(w.left, w.top)) ==> Inside(ia, ConvertCoordinateSystem(src, ia, Coordinate(w.left, w.top)))
    ensures Inside(src, Coordinate(w.right, w.bottom)) ==> Inside(ia, ConvertCoordinateSystem(src, ia, Coordinate(w.right, w.bottom)))
  {
    if w.left <= w.right {
      ConvertAxisMonotone(w.left, w.right, src.left, src.right, ia.left, ia.right);
    }
    if w.top <= w.bottom {
      ConvertAxisMonotone(w.top, w.bottom, src.top, src.bottom, ia.top, ia.bottom);
    }
    if Inside(src, Coordinate(w.left, w.top)) {
      ConvertCoordinateInside(src, ia, Coordinate(w.left, w.top));
    }
    if Inside(src, Coordinate(w.right, w.bottom)) {
      ConvertCoordinateInside(src, ia, Coordinate(w.right, w.bottom));
    }
  }

  /**
   * convertToIaWindow: both corners go through the coordinate mapping into
   * the AIQ system `ia` (IA_COORDINATE_* from the AIQ headers, which are not
   * part of this model), the weight is kept, and a well-ordered window stays
   * well ordered.
   */
  function ConvertToIaWindow(src: CoordSystem, ia: CoordSystem, w: Window): (r: Window)
    requires NonDegenerate(src) && NonDegenerate(ia)
    ensures r.weight == w.weight
    ensures w.left <= w.right ==> r.left <= r.right
    ensures w.top <= w.bottom ==> r.top <= r.bottom
    ensures Inside(src, Coordinate(w.left, w.top)) ==> Inside(ia, Coordinate(r.left, r.top))
    ensures Inside(src, Coordinate(w.right, w.bottom)) ==> Inside(ia, Coordinate(r.right, r.bottom))
  {
    var lt := ConvertCoordinateSystem(src, ia, Coordinate(w.left, w.top));
    var rb := ConvertCoordinateSystem(src, ia, Coordinate(w.right, w.bottom));
    WindowCornersFacts(src, ia, w);
    Window(lt.x, lt.y, rb.x, rb.y, w.weight)
  }

  // ---------------------------------------------------------------------
  // Error codes
  // ---------------------------------------------------------------------

  /** ia_err; IaErrOther stands for any value outside the named ones. */
  datatype IaErr =
    | IaErrNone
    | IaErrGeneral
    | IaErrNoMemory
    | IaErrData
    | IaErrInternal
    | IaErrArgument
    | IaErrOther(code: int)

  /** convertError: total, and only ia_err_none is success. */
  function ConvertError(e: IaErr): (s: Status)
    ensures s == OK <==> e == IaErrNone
    ensures s in {OK, UNKNOWN_ERROR, NO_MEMORY, BAD_VALUE, INVALID_OPERATION}
    ensures s == BAD_VALUE <==> e == IaErrData || e == IaErrArgument
  {
    match e
    case IaErrNone => OK
    case IaErrGeneral => UNKNOWN_ERROR
    case IaErrNoMemory => NO_MEMORY
    case IaErrData => BAD_VALUE
    case IaErrInternal => INVALID_OPERATION
    case IaErrArgument => BAD_VALUE
    case IaErrOther(_) => UNKNOWN_ERROR
  }

  // ---------------------------------------------------------------------
  // Convergence speed
  // ---------------------------------------------------------------------

  /** camera_converge_speed_t. */
  datatype ConvergeSpeed = CONVERGE_NORMAL | CONVERGE_MID | CONVERGE_LOW

  /** convertSpeedModeToTime: seconds, -1 meaning "let the algorithm decide". */
  function SpeedModeToTime(m: ConvergeSpeed): (t: real)
    ensures t == -1.0 <==> m == CONVERGE_NORMAL
    ensures m != CONVERGE_NORMAL ==> t > 0.0
  {
    match m
    case CONVERGE_MID => 3.0
    case CONVERGE_LOW => 5.0
    case CONVERGE_NORMAL => -1.0
  }

  /** convertSpeedModeToTimeForHDR: the HDR table. */
  function SpeedModeToTimeForHdr(m: ConvergeSpeed): (t: real)
    ensures t == -1.0 <==> m == CONVERGE_NORMAL
    ensures m != CONVERGE_NORMAL ==> t > 0.0
  {
    match m
    case CONVERGE_MID => 0.6
    case CONVERGE_LOW => 1.0
    case CONVERGE_NORMAL => -1.0
  }

  /** The HDR table converges five times faster, and slower speeds take longer in both. */
  lemma HdrTimesAreFifth(m: ConvergeSpeed)
    ensures m != CONVERGE_NORMAL ==> SpeedModeToTimeForHdr(m) * 5.0 == SpeedModeToTime(m)
    ensures SpeedModeToTime(CONVERGE_MID) < SpeedModeToTime(CONVERGE_LOW)
    ensures SpeedModeToTimeForHdr(CONVERGE_MID) < SpeedModeToTimeForHdr(CONVERGE_LOW)
  {
  }

  // ---------------------------------------------------------------------
  // Sensor digital gain
  // ---------------------------------------------------------------------

  /** The sensor's digital-gain register formula; only 2^x is supported. */
  datatype SensorDgType = SENSOR_DG_TYPE_NONE | SENSOR_DG_TYPE_2_X

  function Pow2(k: nat): (p: nat)
    ensures p >= 1
  {
    if k == 0 then 1 else 2 * Pow2(k - 1)
  }

  /** k is the register value 2^x gives for `gain`: the last power of two not above it (0 below 1). */
  predicate LargestPowerBelow(k: nat, gain: real)
  {
    (k == 0 || Pow2(k) as real <= gain) && gain < Pow2(k + 1) as real
  }

  lemma Pow2Grows(j: nat, k: nat)
    requires j <= k
    ensures Pow2(j) <= Pow2(k)
    decreases k - j
  {
    if j < k {
      Pow2Grows(j + 1, k);
    }
  }

  /** At most one register value fits a gain. */
  lemma LargestPowerBelowUnique(j: nat, k: nat, gain: real)
    requires LargestPowerBelow(j, gain) && LargestPowerBelow(k, gain)
    ensures j == k
  {
    if j < k {
      Pow2Grows(j + 1, k);
    } else if k < j {
      Pow2Grows(k + 1, j);
    }
  }

  /**
   * getSensorDigitalGain: for type 2_X, the largest index whose power of two
   * does not exceed the gain, clipped to [0, maxSensorDg]; other types give 0.
   */
  method SensorDigitalGain(dgType: SensorDgType, gain: real, maxSensorDg: int) returns (sensorDg: int)
    ensures dgType != SENSOR_DG_TYPE_2_X ==> sensorDg == 0
    ensures dgType == SENSOR_DG_TYPE_2_X ==>
      exists k: nat :: LargestPowerBelow(k, gain) && sensorDg == Clip(k, maxSensorDg, 0)
  {
    sensorDg := 0;
    if dgType == SENSOR_DG_TYPE_2_X {
      var index: nat := 0;
      while Pow2(index) as real <= gain
        invariant sensorDg == (if index == 0 then 0 else index - 1)
        invariant index > 0 ==> Pow2(index - 1) as real <= gain
        decreases gain.Floor + 1 - Pow2(index)
      {
        sensorDg := index;
        index := index + 1;
      }
      var k: nat := sensorDg;
      assert index == 0 || index == k + 1;
      assert LargestPowerBelow(k, gain);
      sensorDg := Clip(sensorDg, maxSensorDg, 0);
    }
  }

  // ---------------------------------------------------------------------
  // Frame usage
  // ---------------------------------------------------------------------

  const FRAME_USAGE_PREVIEW: int := 0
  const FRAME_USAGE_VIDEO: int := 1
  const FRAME_USAGE_STILL: int := 2
  const FRAME_USAGE_CONTINUOUS: int := 3

  /** ia_aiq_frame_use. */
  datatype IaFrameUse = IaFrameUsePreview | IaFrameUseStill | IaFrameUseContinuous | IaFrameUseVideo

  /** convertFrameUsageToIaFrameUsage: unknown usages fall back to preview. */
  function ConvertFrameUsage(usage: int): (f: IaFrameUse)
    ensures f == IaFrameUsePreview <==>
      usage != FRAME_USAGE_VIDEO && usage != FRAME_USAGE_STILL && usage != FRAME_USAGE_CONTINUOUS
  {
    if usage == FRAME_USAGE_VIDEO then IaFrameUseVideo
    else if usage == FRAME_USAGE_STILL then IaFrameUseStill
    else if usage == FRAME_USAGE_CONTINUOUS then IaFrameUseContinuous
    else IaFrameUsePreview
  }

  /** The HAL frame usage naming each AIQ frame use. */
  function UsageOf(f: IaFrameUse): int
  {
    match f
    case IaFrameUsePreview => FRAME_USAGE_PREVIEW
    case IaFrameUseStill => FRAME_USAGE_STILL
    case IaFrameUseContinuous => FRAME_USAGE_CONTINUOUS
    case IaFrameUseVideo => FRAME_USAGE_VIDEO
  }

  /** Every AIQ frame use is reached, by its own HAL usage. */
  lemma FrameUsageRoundTrip(f: IaFrameUse)
    ensures ConvertFrameUsage(UsageOf(f)) == f
  {
  }

  // ---------------------------------------------------------------------
  // AE weight grid copy
  // ---------------------------------------------------------------------

  /** ia_aiq_hist_weight_grid: dimensions and the weight bytes behind them. */
  datatype WeightGrid = WeightGrid(width: nat, height: nat, weights: seq<int>)

  /** width * height in unsigned 32-bit arithmetic. */
  function GridProduct(width: nat, height: nat): (n: nat)
    ensures n < 0x1_0000_0000
  {
    (width * height) % 0x1_0000_0000
  }

  /**
   * The part of deepCopyAeResults that copies the weight grid: BAD_VALUE when
   * the destination or the source grid is missing; otherwise the dimensions
   * are copied and CLIP(width * height, MAX_AE_GRID_SIZE, 1) weights, the
   * rest of the destination keeping its old bytes.  MAX_AE_GRID_SIZE comes
   * from the AIQ headers and is a parameter; both weight buffers have that
   * size.
   */
  function DeepCopyWeightGrid(src: Option<WeightGrid>, dst: Option<WeightGrid>, maxGrid: nat): (r: (Status, Option<WeightGrid>))
    requires maxGrid >= 1
    requires src.Some? ==> |src.value.weights| == maxGrid
    requires dst.Some? ==> |dst.value.weights| == maxGrid
    ensures r.0 == OK <==> src.Some? && dst.Some?
    ensures r.0 != OK ==> r.1 == dst
    ensures r.0 == OK ==> r.1.Some? && |r.1.value.weights| == maxGrid
    ensures r.0 == OK ==>
      var n := Clip(GridProduct(src.value.width, src.value.height), maxGrid, 1);
      1 <= n <= maxGrid &&
      r.1.value.width == src.value.width && r.1.value.height == src.value.height &&
      r.1.value.weights[..n] == src.value.weights[..n] &&
      r.1.value.weights[n..] == dst.value.weights[n..]
  {
    if dst.None? || src.None? then (BAD_VALUE, dst)
    else
      var n := Clip(GridProduct(src.value.width, src.value.height), maxGrid, 1);
      (OK, Some(WeightGrid(src.value.width, src.value.height,
                           src.value.weights[..n] + dst.value.weights[n..])))
  }
}
