/**
 * The per-frame parameters handed to the AIQ 3A algorithms
 * (Intel3AParameter): the AF trigger state machine, the AE and AWB
 * convergence pacing, manual exposure, manual white balance and the metering
 * regions, each converted into the AIQ coordinate system.
 *
 * A consequence of the AF rules: the force lock is only ever set by a START
 * edge in continuous-video mode, and every mode change clears it, so
 * `afForceLock ==> afMode == AF_MODE_CONTINUOUS_VIDEO` holds in every reachable
 * state; the lock release of fillAfTriggerResult, which looks only at the
 * other focus modes, therefore never fires (AfLockOnlyInContinuousVideo,
 * AfResultKeepsLock).
 */
module Intel3AParameter {
  import opened Common
  import opened HalTypes
  import opened AiqUtils

  // ---------------------------------------------------------------------
  // AF
  // ---------------------------------------------------------------------

  /** ia_aiq_af_operation_mode: the two modes this class selects. */
  datatype AfOperation = AfOpInfinity | AfOpAuto

  /** ia_aiq_af_status. */
  datatype AfStatus = AfStatusIdle | AfStatusLocalSearch | AfStatusExtendedSearch | AfStatusSuccess | AfStatusFail

  /** ia_rectangle. */
  datatype Rect = Rect(left: int, top: int, right: int, bottom: int)

  /** The fields of ia_aiq_af_input_params this class writes. */
  datatype AfParams = AfParams(
    frameUse: IaFrameUse,
    lensPosition: int,
    timestamp: int,
    focusMode: AfOperation,
    triggerNewSearch: bool,
    focusRect: Option<Rect>)

  /** initAfParameter. */
  function InitialAfParams(): AfParams
  {
    AfParams(IaFrameUseVideo, 0, 0, AfOpInfinity, false, Some(Rect(0, 0, 0, 0)))
  }

  /** mAfMode, mAfTrigger, mAfForceLock, mDuringAfTriggerScan and mAfParams together. */
  datatype AfState = AfState(mode: int, trigger: int, forceLock: bool, duringScan: bool, params: AfParams)

  /** The AF fields of aiq_parameter_t. */
  datatype AfRequest = AfRequest(
    afMode: int,
    afTrigger: int,
    lensPosition: int,
    timestamp: int,
    frameUsage: int,
    afRegions: seq<Window>,
    resolution: Size)

  predicate ContinuousMode(mode: int)
  {
    mode == AF_MODE_CONTINUOUS_PICTURE || mode == AF_MODE_CONTINUOUS_VIDEO
  }

  predicate UserScanMode(mode: int)
  {
    mode == AF_MODE_AUTO || mode == AF_MODE_MACRO
  }

  /** The frame the HAL regions are expressed in: {0, 0, width, height}. */
  function FrameOf(res: Size): CoordSystem
  {
    CoordSystem(0, 0, res.width, res.height)
  }

  /** Regions can be converted only against a frame of positive size. */
  predicate RegionsConvertible(regions: seq<Window>, res: Size)
  {
    |regions| > 0 ==> res.width > 0 && res.height > 0
  }

  predicate ValidWindow(w: Window)
  {
    w.right > w.left && w.bottom > w.top
  }

  /** The AF focus rectangle: the last region, if well formed, in AIQ coordinates. */
  function FocusRectOf(regions: seq<Window>, res: Size, ia: CoordSystem): (r: Option<Rect>)
    requires RegionsConvertible(regions, res) && NonDegenerate(ia)
    ensures r.Some? <==> |regions| > 0 && ValidWindow(regions[|regions| - 1])
    ensures r.Some? ==> r.value.left <= r.value.right && r.value.top <= r.value.bottom
  {
    if |regions| == 0 then None
    else
      var w := regions[|regions| - 1];
      if ValidWindow(w) then
        var c := ConvertToIaWindow(FrameOf(res), ia, w);
        Some(Rect(c.left, c.top, c.right, c.bottom))
      else None
  }

  /** updateAfParameterForAfTriggerStart. */
  function TriggerStart(s: AfState): AfState
  {
    var p := if UserScanMode(s.mode)
      then s.params.(frameUse := IaFrameUseStill, focusMode := AfOpAuto, triggerNewSearch := true)
      else s.params;
    s.(duringScan := true, forceLock := s.mode == AF_MODE_CONTINUOUS_VIDEO, params := p)
  }

  /** updateAfParameterForAfTriggerCancel. */
  function TriggerCancel(s: AfState): AfState
  {
    var p := if UserScanMode(s.mode) then s.params.(focusMode := AfOpInfinity) else s.params;
    s.(duringScan := false, forceLock := false, params := p)
  }

  /**
   * updateAfParameter.  A mode change resets the AF parameters (including the
   * lens position just taken from the request), clears the trigger, the lock
   * and the scan flag, and selects auto focus for continuous modes.  The
   * trigger is edge-triggered: START acts only when the stored trigger is not
   * START, CANCEL likewise, and the stored trigger always becomes the
   * requested one.
   */
  function AfUpdate(s: AfState, req: AfRequest, ia: CoordSystem): (r: AfState)
    requires RegionsConvertible(req.afRegions, req.resolution) && NonDegenerate(ia)
    ensures r.mode == req.afMode && r.trigger == req.afTrigger
    ensures r.params.lensPosition == (if s.mode != req.afMode then 0 else req.lensPosition)
    ensures r.params.focusRect == FocusRectOf(req.afRegions, req.resolution, ia)
    ensures
      var changed := s.mode != req.afMode;
      var prev := if changed then AF_TRIGGER_IDLE else s.trigger;
      var lock0 := if changed then false else s.forceLock;
      var scan0 := if changed then false else s.duringScan;
      var focus0 := if changed then (if ContinuousMode(req.afMode) then AfOpAuto else AfOpInfinity)
                    else s.params.focusMode;
      var start := prev != AF_TRIGGER_START && req.afTrigger == AF_TRIGGER_START;
      var cancel := prev != AF_TRIGGER_CANCEL && req.afTrigger == AF_TRIGGER_CANCEL;
      (start ==> r.duringScan && r.forceLock == (req.afMode == AF_MODE_CONTINUOUS_VIDEO)) &&
      (start && UserScanMode(req.afMode) ==>
         r.params.focusMode == AfOpAuto && r.params.frameUse == IaFrameUseStill) &&
      (r.params.triggerNewSearch <==> start && UserScanMode(req.afMode)) &&
      (cancel ==> !r.duringScan && !r.forceLock) &&
      (cancel && UserScanMode(req.afMode) ==> r.params.focusMode == AfOpInfinity) &&
      (!start && !cancel ==>
         r.forceLock == lock0 && r.duringScan == scan0 && r.params.focusMode == focus0 &&
         r.params.frameUse == ConvertFrameUsage(req.frameUsage))
  {
    var s3 := AfTriggerStage(AfModeStage(s, req), req);
    s3.(trigger := req.afTrigger, params := s3.params.(focusRect := FocusRectOf(req.afRegions, req.resolution, ia)))
  }

  /** The first half of updateAfParameter: request lens data, mode change, frame use. */
  function AfModeStage(s: AfState, req: AfRequest): AfState
  {
    var p0 := s.params.(lensPosition := req.lensPosition, timestamp := req.timestamp);
    var s1 := if s.mode != req.afMode then
        AfState(req.afMode, AF_TRIGGER_IDLE, false, false,
                InitialAfParams().(focusMode := if ContinuousMode(req.afMode) then AfOpAuto else AfOpInfinity))
      else s.(params := p0);
    s1.(params := s1.params.(frameUse := ConvertFrameUsage(req.frameUsage), triggerNewSearch := false))
  }

  /** The trigger edge of updateAfParameter, before the stored trigger is replaced. */
  function AfTriggerStage(s: AfState, req: AfRequest): AfState
  {
    if s.trigger != AF_TRIGGER_START && req.afTrigger == AF_TRIGGER_START then TriggerStart(s)
    else if s.trigger != AF_TRIGGER_CANCEL && req.afTrigger == AF_TRIGGER_CANCEL then TriggerCancel(s)
    else s
  }

  /**
   * fillAfTriggerResult: nothing happens unless the lock is held and a result
   * is given; in continuous-picture, auto and macro modes the lock then stays
   * exactly when the algorithm is no longer searching.
   */
  function LockAfterResult(lock: bool, mode: int, status: Option<AfStatus>): (r: bool)
    ensures !lock || status.None? ==> r == lock
    ensures lock && status.Some? && (mode == AF_MODE_CONTINUOUS_PICTURE || UserScanMode(mode)) ==>
      (r <==> status.value != AfStatusLocalSearch && status.value != AfStatusExtendedSearch)
    ensures !(mode == AF_MODE_CONTINUOUS_PICTURE || UserScanMode(mode)) ==> r == lock
  {
    if status.None? || !lock then lock
    else if mode == AF_MODE_CONTINUOUS_PICTURE || UserScanMode(mode) then
      status.value != AfStatusLocalSearch && status.value != AfStatusExtendedSearch
    else lock
  }

  /** The lock is held only in continuous-video mode. */
  predicate LockInvariant(s: AfState)
  {
    s.forceLock ==> s.mode == AF_MODE_CONTINUOUS_VIDEO
  }

  /** Every AF update keeps the lock confined to continuous-video mode. */
  lemma AfLockOnlyInContinuousVideo(s: AfState, req: AfRequest, ia: CoordSystem)
    requires RegionsConvertible(req.afRegions, req.resolution) && NonDegenerate(ia)
    requires LockInvariant(s)
    ensures LockInvariant(AfUpdate(s, req, ia))
  {
  }

  /** Under that invariant fillAfTriggerResult never changes the lock. */
  lemma AfResultKeepsLock(s: AfState, status: Option<AfStatus>)
    requires LockInvariant(s)
    ensures LockAfterResult(s.forceLock, s.mode, status) == s.forceLock
  {
  }

  /** A START held over several frames starts only one scan. */
  lemma AfStartIsEdgeTriggered(s: AfState, req: AfRequest, ia: CoordSystem)
    requires RegionsConvertible(req.afRegions, req.resolution) && NonDegenerate(ia)
    requires req.afTrigger == AF_TRIGGER_START
    ensures var r := AfUpdate(s, req, ia);
      var again := AfUpdate(r, req, ia);
      !again.params.triggerNewSearch && again.forceLock == r.forceLock && again.duringScan == r.duringScan
  {
  }

  // ---------------------------------------------------------------------
  // AE and AWB convergence
  // ---------------------------------------------------------------------

  /** camera_converge_speed_mode_t: who paces convergence. */
  datatype ConvergeSpeedMode = CONVERGE_SPEED_MODE_AIQ | CONVERGE_SPEED_MODE_HAL

  /**
   * mAePerTicks / mAwbPerTicks: the number of frames between algorithm runs.
   * Under AIQ pacing the algorithm runs every frame; under HAL pacing the
   * slower speeds run it every 30 or 60 frames.
   */
  function PerTicks(mode: ConvergeSpeedMode, speed: ConvergeSpeed): (t: int)
    ensures t >= 1
    ensures mode == CONVERGE_SPEED_MODE_AIQ ==> t == 1
    ensures mode == CONVERGE_SPEED_MODE_HAL ==> (t == 1 <==> speed == CONVERGE_NORMAL)
  {
    if mode == CONVERGE_SPEED_MODE_AIQ then 1
    else match speed
      case CONVERGE_MID => 30
      case CONVERGE_LOW => 60
      case CONVERGE_NORMAL => 1
  }

  /** manual_convergence_time: the speed table under AIQ pacing, -1 under HAL pacing. */
  function ConvergenceTime(mode: ConvergeSpeedMode, speed: ConvergeSpeed, hdr: bool): (t: real)
    ensures mode == CONVERGE_SPEED_MODE_HAL ==> t == -1.0
    ensures (t == -1.0) <==> (mode == CONVERGE_SPEED_MODE_HAL || speed == CONVERGE_NORMAL)
  {
    if mode == CONVERGE_SPEED_MODE_HAL then -1.0
    else if hdr then SpeedModeToTimeForHdr(speed)
    else SpeedModeToTime(speed)
  }

  /**
   * The convergence pacing shared by updateAeParameter and
   * updateAwbParameter: under AIQ pacing the algorithm runs every frame with
   * the speed's convergence time (the HDR table for an HDR pipe); under HAL
   * pacing the speed sets how many frames apart it runs.
   */
  method Pacing(mode: ConvergeSpeedMode, speed: ConvergeSpeed, hdr: bool) returns (ticks: int, time: real)
    ensures ticks == PerTicks(mode, speed) && time == ConvergenceTime(mode, speed, hdr)
  {
    ticks := 1;
    time := -1.0;
    if mode == CONVERGE_SPEED_MODE_AIQ {
      time := if hdr then SpeedModeToTimeForHdr(speed) else SpeedModeToTime(speed);
    } else {
      match speed {
        case CONVERGE_MID => ticks := 30;
        case CONVERGE_LOW => ticks := 60;
        case CONVERGE_NORMAL => ticks := 1;
      }
    }
  }

  /**
   * The manual white point of updateAwbParameter: for AWB_MODE_MANUAL_WHITE_POINT
   * the requested point converted from the frame to the 3A coordinate system,
   * otherwise the current one.
   */
  method ManualWhitePoint(req: AwbRequest, ia: CoordSystem, current: Coordinate) returns (c: Coordinate)
    requires req.awbMode == AWB_MODE_MANUAL_WHITE_POINT ==> req.resolution.width > 0 && req.resolution.height > 0
    requires NonDegenerate(ia)
    ensures req.awbMode == AWB_MODE_MANUAL_WHITE_POINT ==>
      c == ConvertCoordinateSystem(FrameOf(req.resolution), ia, req.whitePoint)
    ensures req.awbMode == AWB_MODE_MANUAL_WHITE_POINT ==>
      Inside(FrameOf(req.resolution), req.whitePoint) ==> Inside(ia, c)
    ensures req.awbMode != AWB_MODE_MANUAL_WHITE_POINT ==> c == current
  {
    c := current;
    if req.awbMode == AWB_MODE_MANUAL_WHITE_POINT {
      var frame := FrameOf(req.resolution);
      c := ConvertCoordinateSystem(frame, ia, req.whitePoint);
      if Inside(frame, req.whitePoint) {
        ConvertCoordinateInside(frame, ia, req.whitePoint);
      }
    }
  }

  /** Slower speeds run the algorithm less often under HAL pacing. */
  lemma SlowerSpeedFewerRuns()
    ensures PerTicks(CONVERGE_SPEED_MODE_HAL, CONVERGE_LOW) == 2 * PerTicks(CONVERGE_SPEED_MODE_HAL, CONVERGE_MID)
    ensures PerTicks(CONVERGE_SPEED_MODE_HAL, CONVERGE_NORMAL) < PerTicks(CONVERGE_SPEED_MODE_HAL, CONVERGE_MID)
  {
  }

  /** HAL pacing and AIQ pacing never both slow the algorithm down. */
  lemma PacingIsExclusive(mode: ConvergeSpeedMode, speed: ConvergeSpeed, hdr: bool)
    ensures PerTicks(mode, speed) == 1 || ConvergenceTime(mode, speed, hdr) == -1.0
    ensures ConvergenceTime(mode, speed, hdr) > 0.0 ==> PerTicks(mode, speed) == 1
  {
  }

  /**
   * The AWB frame count as the code picks it: under HAL pacing it reads the
   * AE convergence speed, not the AWB one.
   */
  function AwbPerTicksAsWritten(mode: ConvergeSpeedMode, aeSpeed: ConvergeSpeed, awbSpeed: ConvergeSpeed): int
  {
    PerTicks(mode, aeSpeed)
  }

  /** A slow AWB speed with a normal AE speed leaves AWB running every frame. */
  lemma AwbTicksFollowAeSpeed()
    ensures AwbPerTicksAsWritten(CONVERGE_SPEED_MODE_HAL, CONVERGE_NORMAL, CONVERGE_LOW) == 1
    ensures PerTicks(CONVERGE_SPEED_MODE_HAL, CONVERGE_LOW) == 60
  {
  }

  // ---------------------------------------------------------------------
  // AE and AWB parameters
  // ---------------------------------------------------------------------

  /** camera_ae_distribution_priority_t. */
  datatype DistributionPriority = DISTRIBUTION_AUTO | DISTRIBUTION_SHUTTER | DISTRIBUTION_ISO | DISTRIBUTION_APERTURE

  /** camera_range_t. */
  datatype Range = Range(min: int, max: int)

  /** The fields of ia_aiq_ae_input_params this class writes. */
  datatype AeParams = AeParams(
    frameUse: IaFrameUse,
    numExposures: nat,
    manualExposure: bool,
    exposureCoordinate: Option<Coordinate>,
    convergenceTime: real)

  /** The AE fields of aiq_parameter_t. */
  datatype AeRequest = AeRequest(
    frameUsage: int,
    aeMode: int,
    manualExpTimeUs: int,
    priority: DistributionPriority,
    speedMode: ConvergeSpeedMode,
    speed: ConvergeSpeed,
    hdrPipe: bool,
    blcAreaOn: bool,
    aeRegions: seq<Window>,
    resolution: Size)

  /** setManualExposure applies only to a positive time outside ISO priority. */
  predicate ManualExposureApplies(req: AeRequest)
  {
    req.aeMode == AE_MODE_MANUAL && req.manualExpTimeUs > 0 && req.priority != DISTRIBUTION_ISO
  }

  /** The exposure time written: clipped to the scene's supported range when there is one. */
  function ManualExposureTime(t: int, etRange: Option<Range>): int
  {
    if etRange.Some? then Clip(t, etRange.value.max, etRange.value.min) else t
  }

  /** The centre of a window, with C's division of a positive span. */
  function WindowCentre(w: Window): (c: Coordinate)
    requires ValidWindow(w)
    ensures w.left <= c.x < w.right && w.top <= c.y < w.bottom
  {
    Coordinate(w.left + (w.right - w.left) / 2, w.top + (w.bottom - w.top) / 2)
  }

  lemma CentreMapsInside(frame: CoordSystem, ia: CoordSystem, w: Window)
    requires NonDegenerate(frame) && NonDegenerate(ia) && ValidWindow(w)
    ensures Inside(frame, Coordinate(w.left, w.top)) && Inside(frame, Coordinate(w.right, w.bottom)) ==>
      Inside(ia, ConvertCoordinateSystem(frame, ia, WindowCentre(w)))
  {
    if Inside(frame, Coordinate(w.left, w.top)) && Inside(frame, Coordinate(w.right, w.bottom)) {
      ConvertCoordinateInside(frame, ia, WindowCentre(w));
    }
  }

  /** The AE metering point: the centre of the last region in AIQ coordinates, with BLC on. */
  function ExposureCoordinateOf(req: AeRequest, ia: CoordSystem): (r: Option<Coordinate>)
    requires RegionsConvertible(req.aeRegions, req.resolution) && NonDegenerate(ia)
    ensures r.Some? <==> req.blcAreaOn && |req.aeRegions| > 0 && ValidWindow(req.aeRegions[|req.aeRegions| - 1])
    ensures r.Some? ==>
      var w := req.aeRegions[|req.aeRegions| - 1];
      Inside(FrameOf(req.resolution), Coordinate(w.left, w.top)) &&
      Inside(FrameOf(req.resolution), Coordinate(w.right, w.bottom)) ==>
      Inside(ia, r.value)
  {
    if req.blcAreaOn && |req.aeRegions| > 0 && ValidWindow(req.aeRegions[|req.aeRegions| - 1]) then
      var w := req.aeRegions[|req.aeRegions| - 1];
      var c := WindowCentre(w);
      var frame := FrameOf(req.resolution);
      CentreMapsInside(frame, ia, w);
      Some(ConvertCoordinateSystem(frame, ia, c))
    else None
  }

  /** ia_aiq_awb_operation_mode. */
  datatype AwbSceneMode =
    | AwbAuto
    | AwbIncandescent
    | AwbFluorescent
    | AwbDaylight
    | AwbFullyOvercast
    | AwbPartlyOvercast
    | AwbSunset
    | AwbVideoConference
    | AwbManualCctRange
    | AwbManualWhite

  /** The AWB scene mode a HAL AWB mode selects; manual gain and unknown modes run auto. */
  function AwbSceneModeOf(awbMode: int): (m: AwbSceneMode)
    ensures m == AwbAuto <==>
      !(AWB_MODE_INCANDESCENT <= awbMode <= AWB_MODE_MANUAL_WHITE_POINT)
    ensures m == AwbManualCctRange <==> awbMode == AWB_MODE_MANUAL_CCT_RANGE
    ensures m == AwbManualWhite <==> awbMode == AWB_MODE_MANUAL_WHITE_POINT
  {
    if awbMode == AWB_MODE_INCANDESCENT then AwbIncandescent
    else if awbMode == AWB_MODE_FLUORESCENT then AwbFluorescent
    else if awbMode == AWB_MODE_DAYLIGHT then AwbDaylight
    else if awbMode == AWB_MODE_FULL_OVERCAST then AwbFullyOvercast
    else if awbMode == AWB_MODE_PARTLY_OVERCAST then AwbPartlyOvercast
    else if awbMode == AWB_MODE_SUNSET then AwbSunset
    else if awbMode == AWB_MODE_VIDEO_CONFERENCE then AwbVideoConference
    else if awbMode == AWB_MODE_MANUAL_CCT_RANGE then AwbManualCctRange
    else if awbMode == AWB_MODE_MANUAL_WHITE_POINT then AwbManualWhite
    else AwbAuto
  }

  /** ia_aiq_awb_manual_cct_range. */
  datatype CctRange = CctRange(minCct: int, maxCct: int)

  /** The manual CCT range: the two request bounds in increasing order. */
  function CctRangeOf(a: int, b: int): (r: CctRange)
    ensures r.minCct <= r.maxCct
    ensures (r.minCct == a && r.maxCct == b) || (r.minCct == b && r.maxCct == a)
  {
    CctRange(Min(a, b), Max(a, b))
  }

  /** camera_awb_gains_t. */
  datatype AwbGains = AwbGains(rGain: int, gGain: int, bGain: int)

  /** The fields of ia_aiq_awb_input_params this class writes. */
  datatype AwbParams = AwbParams(frameUse: IaFrameUse, sceneMode: AwbSceneMode, convergenceTime: real)

  /** The AWB fields of aiq_parameter_t. */
  datatype AwbRequest = AwbRequest(
    frameUsage: int,
    awbMode: int,
    cctRange: Range,
    whitePoint: Coordinate,
    resolution: Size,
    manualGains: AwbGains,
    gainShift: AwbGains,
    speedMode: ConvergeSpeedMode,
    speed: ConvergeSpeed)

  // ---------------------------------------------------------------------
  // The parameter object
  // ---------------------------------------------------------------------

  class Parameter3A {
    var afMode: int
    var afTrigger: int
    var afForceLock: bool
    var duringAfTriggerScan: bool
    var afParams: AfParams

    var aeParams: AeParams
    var aePerTicks: int
    /** mManualExposureTimeUs, one entry per exposure of the sensor. */
    const manualExposureTimeUs: array<int>

    var awbParams: AwbParams
    var awbPerTicks: int
    var manualCctRange: CctRange
    var manualWhiteCoordinate: Coordinate
    var useManualAwbGain: bool
    var manualGains: AwbGains
    var awbGainShift: AwbGains

    function Af(): AfState
      reads this
    {
      AfState(afMode, afTrigger, afForceLock, duringAfTriggerScan, afParams)
    }

    /** Everything outside the AF state. */
    function Others(): (AeParams, int, AwbParams, int, CctRange, Coordinate, bool, AwbGains, AwbGains)
      reads this
    {
      (aeParams, aePerTicks, awbParams, awbPerTicks, manualCctRange, manualWhiteCoordinate,
       useManualAwbGain, manualGains, awbGainShift)
    }

    /** The constructor: AF off and idle, both algorithms run every frame. */
    constructor (maxExposures: nat)
      ensures afMode == AF_MODE_OFF && afTrigger == AF_TRIGGER_IDLE
      ensures !afForceLock && !duringAfTriggerScan
      ensures aePerTicks == 1 && awbPerTicks == 1 && !useManualAwbGain
      ensures manualExposureTimeUs.Length == maxExposures && fresh(manualExposureTimeUs)
      ensures LockInvariant(Af())
    {
      afMode := AF_MODE_OFF;
      afTrigger := AF_TRIGGER_IDLE;
      afForceLock := false;
      duringAfTriggerScan := false;
      afParams := AfParams(IaFrameUsePreview, 0, 0, AfOpInfinity, false, None);
      aeParams := AeParams(IaFrameUsePreview, 0, false, None, 0.0);
      aePerTicks := 1;
      manualExposureTimeUs := new int[maxExposures](_ => 0);
      awbParams := AwbParams(IaFrameUsePreview, AwbAuto, 0.0);
      awbPerTicks := 1;
      manualCctRange := CctRange(0, 0);
      manualWhiteCoordinate := Coordinate(0, 0);
      useManualAwbGain := false;
      manualGains := AwbGains(0, 0, 0);
      awbGainShift := AwbGains(0, 0, 0);
    }

    /** init: default AE, AF and AWB parameters, AF in auto mode and idle. */
    method Init() returns (status: Status)
      modifies this
      ensures status == OK
      ensures Af() == AfState(AF_MODE_AUTO, AF_TRIGGER_IDLE, false, false, InitialAfParams())
      ensures aeParams == AeParams(IaFrameUseVideo, 1, false, None, -1.0)
      ensures awbParams == AwbParams(IaFrameUseVideo, AwbAuto, -1.0)
      ensures aePerTicks == 1 && awbPerTicks == 1
      ensures !useManualAwbGain && manualGains == AwbGains(0, 0, 0) && awbGainShift == AwbGains(0, 0, 0)
      ensures manualCctRange == old(manualCctRange) && manualWhiteCoordinate == old(manualWhiteCoordinate)
      ensures LockInvariant(Af())
    {
      aeParams := AeParams(IaFrameUseVideo, 1, false, None, -1.0);
      afParams := InitialAfParams();
      awbParams := AwbParams(IaFrameUseVideo, AwbAuto, -1.0);
      useManualAwbGain := false;
      manualGains := AwbGains(0, 0, 0);
      awbGainShift := AwbGains(0, 0, 0);
      aePerTicks := 1;
      awbPerTicks := 1;
      afMode := AF_MODE_AUTO;
      afForceLock := false;
      afTrigger := AF_TRIGGER_IDLE;
      duringAfTriggerScan := false;
      status := OK;
    }

    /** updateAfParameter: the AF state follows AfUpdate; nothing else changes. */
    method UpdateAfParameter(req: AfRequest, ia: CoordSystem)
      requires RegionsConvertible(req.afRegions, req.resolution) && NonDegenerate(ia)
      modifies this
      ensures Af() == AfUpdate(old(Af()), req, ia)
      ensures Others() == old(Others())
      ensures LockInvariant(old(Af())) ==> LockInvariant(Af())
    {
      AfModeStep(req);
      ghost var s2 := Af();
      if afTrigger != AF_TRIGGER_START && req.afTrigger == AF_TRIGGER_START {
        TriggerStartStep();
      } else if afTrigger != AF_TRIGGER_CANCEL && req.afTrigger == AF_TRIGGER_CANCEL {
        TriggerCancelStep();
      }
      assert Af() == AfTriggerStage(s2, req);
      afTrigger := req.afTrigger;
      afParams := afParams.(focusRect := FocusRectOf(req.afRegions, req.resolution, ia));
      if LockInvariant(old(Af())) {
        AfLockOnlyInContinuousVideo(old(Af()), req, ia);
      }
    }

    /** The mode-change half of updateAfParameter. */
    method AfModeStep(req: AfRequest)
      modifies this
      ensures Af() == AfModeStage(old(Af()), req)
      ensures Others() == old(Others())
    {
      afParams := afParams.(lensPosition := req.lensPosition, timestamp := req.timestamp);
      if afMode != req.afMode {
        afParams := InitialAfParams();
        afMode := req.afMode;
        if afMode == AF_MODE_CONTINUOUS_PICTURE || afMode == AF_MODE_CONTINUOUS_VIDEO {
          afParams := afParams.(focusMode := AfOpAuto);
        }
        afTrigger := AF_TRIGGER_IDLE;
        afForceLock := false;
        duringAfTriggerScan := false;
      }
      afParams := afParams.(frameUse := ConvertFrameUsage(req.frameUsage));
      afParams := afParams.(triggerNewSearch := false);
    }

    /** updateAfParameterForAfTriggerStart. */
    method TriggerStartStep()
      modifies this
      ensures Af() == TriggerStart(old(Af()))
      ensures Others() == old(Others())
    {
      duringAfTriggerScan := true;
      afForceLock := false;
      if afMode == AF_MODE_AUTO || afMode == AF_MODE_MACRO {
        afParams := afParams.(frameUse := IaFrameUseStill, focusMode := AfOpAuto, triggerNewSearch := true);
      } else if afMode == AF_MODE_CONTINUOUS_VIDEO {
        afForceLock := true;
      }
    }

    /** updateAfParameterForAfTriggerCancel. */
    method TriggerCancelStep()
      modifies this
      ensures Af() == TriggerCancel(old(Af()))
      ensures Others() == old(Others())
    {
      duringAfTriggerScan := false;
      afForceLock := false;
      if afMode == AF_MODE_AUTO || afMode == AF_MODE_MACRO {
        afParams := afParams.(focusMode := AfOpInfinity);
      }
    }

    /** fillAfTriggerResult: only the lock may change, as LockAfterResult says. */
    method FillAfTriggerResult(status: Option<AfStatus>)
      modifies this
      ensures afForceLock == LockAfterResult(old(afForceLock), afMode, status)
      ensures afMode == old(afMode) && afTrigger == old(afTrigger)
      ensures duringAfTriggerScan == old(duringAfTriggerScan) && afParams == old(afParams)
      ensures Others() == old(Others())
      ensures LockInvariant(old(Af())) ==> LockInvariant(Af())
    {
      if status.None? || !afForceLock {
        return;
      }
      if afMode == AF_MODE_CONTINUOUS_PICTURE || afMode == AF_MODE_AUTO || afMode == AF_MODE_MACRO {
        afForceLock := status.value != AfStatusLocalSearch && status.value != AfStatusExtendedSearch;
      }
    }

    /**
     * setManualExposure's array update: every exposure but the last is -1
     * ("let AE choose"), the last gets the manual time; entries beyond the
     * sensor's exposure count keep their values.
     */
    method WriteManualExposure(numExposures: nat, t: int)
      requires 1 <= numExposures <= manualExposureTimeUs.Length
      modifies manualExposureTimeUs
      ensures forall i :: 0 <= i < numExposures - 1 ==> manualExposureTimeUs[i] == -1
      ensures manualExposureTimeUs[numExposures - 1] == t
      ensures manualExposureTimeUs[numExposures..] == old(manualExposureTimeUs[numExposures..])
    {
      var i := 0;
      while i < numExposures - 1
        invariant 0 <= i <= numExposures - 1
        invariant forall j :: 0 <= j < i ==> manualExposureTimeUs[j] == -1
        invariant manualExposureTimeUs[numExposures - 1..] == old(manualExposureTimeUs[numExposures - 1..])
      {
        manualExposureTimeUs[i] := -1;
        i := i + 1;
      }
      manualExposureTimeUs[numExposures - 1] := t;
      assert manualExposureTimeUs[numExposures..] == old(manualExposureTimeUs[numExposures - 1..])[1..];
    }

    /**
     * updateAeParameter, for the parts this model keeps: frame use, exposure
     * count (from PlatformData), manual exposure, metering point and
     * convergence pacing.
     */
    method UpdateAeParameter(req: AeRequest, numExposures: nat, etRange: Option<Range>, ia: CoordSystem)
      requires RegionsConvertible(req.aeRegions, req.resolution) && NonDegenerate(ia)
      requires ManualExposureApplies(req) ==> 1 <= numExposures <= manualExposureTimeUs.Length
      modifies this, manualExposureTimeUs
      ensures aeParams.frameUse == ConvertFrameUsage(req.frameUsage)
      ensures aeParams.numExposures == numExposures
      ensures aeParams.manualExposure <==> ManualExposureApplies(req)
      ensures ManualExposureApplies(req) ==>
        (forall i :: 0 <= i < numExposures - 1 ==> manualExposureTimeUs[i] == -1) &&
        manualExposureTimeUs[numExposures - 1] == ManualExposureTime(req.manualExpTimeUs, etRange) &&
        manualExposureTimeUs[numExposures..] == old(manualExposureTimeUs[numExposures..])
      ensures !ManualExposureApplies(req) ==> manualExposureTimeUs[..] == old(manualExposureTimeUs[..])
      ensures aeParams.exposureCoordinate == ExposureCoordinateOf(req, ia)
      ensures aePerTicks == PerTicks(req.speedMode, req.speed)
      ensures aeParams.convergenceTime == ConvergenceTime(req.speedMode, req.speed, req.hdrPipe)
      ensures Af() == old(Af())
      ensures awbParams == old(awbParams) && awbPerTicks == old(awbPerTicks)
    {
      var manual := false;
      if ManualExposureApplies(req) {
        WriteManualExposure(numExposures, ManualExposureTime(req.manualExpTimeUs, etRange));
        manual := true;
      }
      var ticks, time := Pacing(req.speedMode, req.speed, req.hdrPipe);
      aePerTicks := ticks;
      aeParams := AeParams(ConvertFrameUsage(req.frameUsage), numExposures, manual,
                           ExposureCoordinateOf(req, ia), time);
    }

    /**
     * updateAwbParameter: scene mode, the manual CCT range, white point and
     * gains, the gain shift and the convergence pacing.  The pacing here reads
     * the AWB speed (see AwbPerTicksAsWritten for the code's choice).
     */
    method UpdateAwbParameter(req: AwbRequest, ia: CoordSystem)
      requires req.awbMode == AWB_MODE_MANUAL_WHITE_POINT ==> req.resolution.width > 0 && req.resolution.height > 0
      requires NonDegenerate(ia)
      modifies this
      ensures awbParams.frameUse == ConvertFrameUsage(req.frameUsage)
      ensures awbParams.sceneMode == AwbSceneModeOf(req.awbMode)
      ensures manualCctRange ==
        (if req.awbMode == AWB_MODE_MANUAL_CCT_RANGE then CctRangeOf(req.cctRange.min, req.cctRange.max)
         else old(manualCctRange))
      ensures req.awbMode == AWB_MODE_MANUAL_WHITE_POINT ==>
        Inside(FrameOf(req.resolution), req.whitePoint) ==> Inside(ia, manualWhiteCoordinate)
      ensures req.awbMode != AWB_MODE_MANUAL_WHITE_POINT ==> manualWhiteCoordinate == old(manualWhiteCoordinate)
      ensures useManualAwbGain <==> req.awbMode == AWB_MODE_MANUAL_GAIN
      ensures manualGains == (if req.awbMode == AWB_MODE_MANUAL_GAIN then req.manualGains else old(manualGains))
      ensures awbGainShift == req.gainShift
      ensures awbPerTicks == PerTicks(req.speedMode, req.speed)
      ensures awbParams.convergenceTime == ConvergenceTime(req.speedMode, req.speed, false)
      ensures Af() == old(Af())
      ensures aeParams == old(aeParams) && aePerTicks == old(aePerTicks)
    {
      var scene := AwbSceneModeOf(req.awbMode);
      manualWhiteCoordinate := ManualWhitePoint(req, ia, manualWhiteCoordinate);
      if req.awbMode == AWB_MODE_MANUAL_CCT_RANGE {
        manualCctRange := CctRange(Min(req.cctRange.min, req.cctRange.max), Max(req.cctRange.min, req.cctRange.max));
      }
      if req.awbMode == AWB_MODE_MANUAL_GAIN {
        manualGains := req.manualGains;
      }
      useManualAwbGain := req.awbMode == AWB_MODE_MANUAL_GAIN;
      awbGainShift := req.gainShift;
      var ticks, time := Pacing(req.speedMode, req.speed, false);
      awbPerTicks := ticks;
      awbParams := AwbParams(ConvertFrameUsage(req.frameUsage), scene, time);
    }
  }
}
