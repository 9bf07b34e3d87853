/**
 * Local tone mapping (Ltm): the algorithm state, the tuning mode chosen
 * from the stream configuration, the ring of per-frame input parameter
 * slots and the AIQ feedback lookup.  Every entry point does nothing when
 * the camera has HDR disabled.  The LTM library, the CPF store and the
 * result storage are parameters; the worker thread and its queue are not
 * part of this model.
 */
module Ltm {
  import opened Common
  import opened HalTypes
  import opened AiqUtils

  datatype LtmState = LTM_NOT_INIT | LTM_INIT | LTM_CONFIGURED

  /** ltm_algo_mode, as far as this class distinguishes it. */
  datatype AlgoMode = AlgoOptibrightGainMap | AlgoTme | AlgoOther(code: int)

  /** One slot of mLtmParams: the LTM and GTM inputs this class fills. */
  datatype LtmInputParams = LtmInputParams(
    evShift: real,
    strength: int,
    frameWidth: int,
    frameHeight: int,
    hasYvGrid: bool,
    convergenceTime: real,
    /** the manual gain in dB; the library receives 10^(dB/20), or -1 when None */
    manualGainDb: Option<real>,
    timestamp: int,
    sequence: int)

  /** initLtmParams, for one slot. */
  function DefaultLtmParams(): LtmInputParams
  {
    LtmInputParams(0.0, 100, 0, 0, false, -1.0, None, 0, 0)
  }

  /** The fields of aiq_parameter_t the LTM reads. */
  datatype LtmParam = LtmParam(
    evShift: real,
    hdrLevel: int,
    resolution: Size,
    speedMode: int,
    speed: ConvergeSpeed,
    manualGain: real,
    tuningEnabled: bool,
    tuningAlgoMode: AlgoMode)

  const CONVERGE_SPEED_MODE_AIQ: int := 0

  /**
   * What updateParameter writes into a slot: the EV shift, the HDR level
   * as strength, the frame size, the HDR convergence time (only under AIQ
   * pacing, else -1), the manual gain when non-negative, and the timestamp.
   */
  predicate TakesParam(s: LtmInputParams, p: LtmParam, timestamp: int)
  {
    s.evShift == p.evShift && s.strength == p.hdrLevel &&
    s.frameWidth == p.resolution.width && s.frameHeight == p.resolution.height &&
    s.convergenceTime == (if p.speedMode == CONVERGE_SPEED_MODE_AIQ then SpeedModeToTimeForHdr(p.speed) else -1.0) &&
    s.manualGainDb == (if p.manualGain >= 0.0 then Some(p.manualGain) else None) &&
    s.timestamp == timestamp
  }

  /** The tuning mode one configuration mode selects, if any. */
  function LtmTuningOfMode(m: ConfigMode): Option<TuningMode>
  {
    match m
    case CONFIG_HLC => Some(TUNING_VIDEO_HLC)
    case CONFIG_HDR => Some(TUNING_VIDEO_HDR)
    case CONFIG_HDR2 => Some(TUNING_VIDEO_HDR2)
    case CONFIG_NORMAL => Some(TUNING_VIDEO)
    case _ => None
  }

  /** configure's scan: the tuning mode of the first mode that has one. */
  function LtmTuningOf(modes: seq<ConfigMode>): (r: Option<TuningMode>)
    ensures r.None? <==> forall i :: 0 <= i < |modes| ==> LtmTuningOfMode(modes[i]).None?
    ensures r.Some? ==> (exists i :: 0 <= i < |modes| && LtmTuningOfMode(modes[i]) == r &&
                                     (forall j :: 0 <= j < i ==> LtmTuningOfMode(modes[j]).None?))
  {
    if |modes| == 0 then None
    else if LtmTuningOfMode(modes[0]).Some? then LtmTuningOfMode(modes[0])
    else
      var r := LtmTuningOf(modes[1..]);
      assert forall i :: 1 <= i < |modes| ==> modes[i] == modes[1..][i - 1];
      if r.Some? then
        var i :| 0 <= i < |modes[1..]| && LtmTuningOfMode(modes[1..][i]) == r &&
          forall j :: 0 <= j < i ==> LtmTuningOfMode(modes[1..][j]).None?;
        assert LtmTuningOfMode(modes[i + 1]) == r;
        r
      else r
  }

  /** The sequence whose AIQ result feeds an LTM run: later by the gain lag for positive sequences. */
  function LtmSequence(sequence: int, gainLag: int): (s: int)
    ensures sequence > 0 ==> s == sequence + gainLag
    ensures sequence <= 0 ==> s == sequence
  {
    if sequence > 0 then sequence + gainLag else sequence
  }

  /**
   * getAiqResult: the stored result of the lagged sequence, or (None) the
   * latest result when that sequence has none.
   */
  function FeedbackSequence(sequence: int, gainLag: int, stored: set<int>): (r: Option<int>)
    ensures r.Some? <==> LtmSequence(sequence, gainLag) in stored
    ensures r.Some? ==> r.value == LtmSequence(sequence, gainLag) && r.value in stored
  {
    var s := LtmSequence(sequence, gainLag);
    if s in stored then Some(s) else None
  }

  class LtmAlgo {
    const hdrEnabled: bool
    /** kMaxLtmParamsNum, from the class header. */
    const maxParams: nat
    var state: LtmState
    /** mTuningMode; None stands for TUNING_MODE_MAX. */
    var tuningMode: Option<TuningMode>
    /** Whether the library handle mLtm exists. */
    var hasHandle: bool
    /** The algo_mode of the tuning data inside the library handle. */
    var handleAlgoMode: AlgoMode
    /** mInputParamIndex: -1 before the first input, then the slot last written. */
    var inputParamIndex: int
    const ltmParams: array<LtmInputParams>

    predicate Valid()
      reads this
    {
      ltmParams.Length == maxParams && maxParams > 0 && -1 <= inputParamIndex < maxParams
    }

    constructor (hdr: bool, maxNum: nat, algo: AlgoMode)
      requires maxNum > 0
      ensures Valid() && fresh(ltmParams)
      ensures hdrEnabled == hdr && maxParams == maxNum && handleAlgoMode == algo
      ensures state == LTM_NOT_INIT && tuningMode.None? && !hasHandle && inputParamIndex == -1
    {
      hdrEnabled := hdr;
      maxParams := maxNum;
      state := LTM_NOT_INIT;
      tuningMode := None;
      hasHandle := false;
      handleAlgoMode := algo;
      inputParamIndex := -1;
      ltmParams := new LtmInputParams[maxNum](_ => DefaultLtmParams());
    }

    /** init: with HDR every slot gets the default parameters and the state becomes LTM_INIT. */
    method Init() returns (status: Status)
      requires Valid()
      modifies this, ltmParams
      ensures Valid() && status == OK
      ensures !hdrEnabled ==> state == old(state) && ltmParams[..] == old(ltmParams[..])
      ensures hdrEnabled ==> (state == LTM_INIT &&
                              forall i :: 0 <= i < ltmParams.Length ==> ltmParams[i] == DefaultLtmParams())
      ensures tuningMode == old(tuningMode) && hasHandle == old(hasHandle)
      ensures inputParamIndex == old(inputParamIndex) && handleAlgoMode == old(handleAlgoMode)
    {
      if !hdrEnabled {
        return OK;
      }
      var i := 0;
      while i < maxParams
        invariant 0 <= i <= maxParams
        invariant forall j :: 0 <= j < i ==> ltmParams[j] == DefaultLtmParams()
        invariant state == old(state) && tuningMode == old(tuningMode) && hasHandle == old(hasHandle)
        invariant inputParamIndex == old(inputParamIndex) && handleAlgoMode == old(handleAlgoMode)
      {
        ltmParams[i] := DefaultLtmParams();
        i := i + 1;
      }
      state := LTM_INIT;
      status := OK;
    }

    /** deinit: with HDR the handle is released and the state returns to LTM_NOT_INIT. */
    method Deinit() returns (status: Status)
      requires Valid()
      modifies this
      ensures Valid() && status == OK
      ensures !hdrEnabled ==> state == old(state) && hasHandle == old(hasHandle)
      ensures hdrEnabled ==> state == LTM_NOT_INIT && !hasHandle
      ensures tuningMode == old(tuningMode) && inputParamIndex == old(inputParamIndex)
      ensures handleAlgoMode == old(handleAlgoMode)
    {
      if !hdrEnabled {
        return OK;
      }
      hasHandle := false;
      state := LTM_NOT_INIT;
      status := OK;
    }

    /**
     * configure.  Without a usable mode, or when already configured with the
     * same tuning mode, nothing changes.  Otherwise the handle is re-created
     * (`initStatus` is initIaLtmHandle's answer): on failure that status is
     * returned with no handle; on success the tuning mode is stored and the
     * state becomes LTM_CONFIGURED.
     */
    method Configure(configModes: seq<ConfigMode>, initStatus: Status, algo: AlgoMode) returns (status: Status)
      requires Valid()
      modifies this
      ensures Valid()
      ensures var t := LtmTuningOf(configModes);
        (!hdrEnabled || t.None? || (old(state) == LTM_CONFIGURED && old(tuningMode) == t) ==>
           status == OK && state == old(state) && tuningMode == old(tuningMode) &&
           hasHandle == old(hasHandle) && handleAlgoMode == old(handleAlgoMode)) &&
        (hdrEnabled && t.Some? && !(old(state) == LTM_CONFIGURED && old(tuningMode) == t) ==>
           status == initStatus && hasHandle == (initStatus == OK) &&
           (initStatus != OK ==> state == old(state) && tuningMode == old(tuningMode)) &&
           (initStatus == OK ==> state == LTM_CONFIGURED && tuningMode == t && handleAlgoMode == algo))
      ensures inputParamIndex == old(inputParamIndex)
    {
      if !hdrEnabled {
        return OK;
      }
      var t := LtmTuningOf(configModes);
      if t.None? {
        return OK;
      }
      if state == LTM_CONFIGURED && tuningMode == t {
        return OK;
      }
      hasHandle := false;
      if initStatus != OK {
        return initStatus;
      }
      hasHandle := true;
      handleAlgoMode := algo;
      tuningMode := t;
      state := LTM_CONFIGURED;
      status := OK;
    }

    /** The input ring: each new input moves to the next slot, wrapping at kMaxLtmParamsNum. */
    method AdvanceIndex()
      requires Valid()
      modifies this
      ensures Valid() && 0 <= inputParamIndex < maxParams
      ensures inputParamIndex == (old(inputParamIndex) + 1) % maxParams
      ensures old(inputParamIndex) + 1 < maxParams ==> inputParamIndex == old(inputParamIndex) + 1
      ensures old(inputParamIndex) == maxParams - 1 ==> inputParamIndex == 0
      ensures state == old(state) && tuningMode == old(tuningMode) && hasHandle == old(hasHandle)
      ensures handleAlgoMode == old(handleAlgoMode)
    {
      inputParamIndex := inputParamIndex + 1;
      inputParamIndex := inputParamIndex % maxParams;
    }

    /**
     * updateParameter on the current slot.  A tuning override is taken only
     * for the optibright gain-map mode; asking to switch the handle's algo
     * mode on the fly is INVALID_OPERATION, after the slot has been written.
     */
    method UpdateParameter(p: LtmParam, timestamp: int) returns (status: Status)
      requires Valid() && 0 <= inputParamIndex < maxParams
      modifies ltmParams
      ensures var s := ltmParams[inputParamIndex];
        TakesParam(s, p, timestamp) &&
        s.hasYvGrid == old(ltmParams[inputParamIndex]).hasYvGrid &&
        s.sequence == old(ltmParams[inputParamIndex]).sequence
      ensures forall i :: 0 <= i < ltmParams.Length && i != inputParamIndex ==> ltmParams[i] == old(ltmParams[i])
      ensures status == INVALID_OPERATION <==>
        hasHandle && p.tuningEnabled && p.tuningAlgoMode == AlgoOptibrightGainMap &&
        handleAlgoMode != AlgoOptibrightGainMap
      ensures status != INVALID_OPERATION ==> status == OK
    {
      var s := ltmParams[inputParamIndex];
      ltmParams[inputParamIndex] := s.(
        evShift := p.evShift,
        strength := p.hdrLevel,
        frameWidth := p.resolution.width,
        frameHeight := p.resolution.height,
        convergenceTime := if p.speedMode == CONVERGE_SPEED_MODE_AIQ then SpeedModeToTimeForHdr(p.speed) else -1.0,
        manualGainDb := if p.manualGain >= 0.0 then Some(p.manualGain) else None,
        timestamp := timestamp);
      status := OK;
      if hasHandle && p.tuningEnabled && p.tuningAlgoMode == AlgoOptibrightGainMap {
        if handleAlgoMode != p.tuningAlgoMode {
          status := INVALID_OPERATION;
        }
      }
    }

    /**
     * handleLtm, up to the run: with HDR the next slot receives the YV grid
     * (or none) and, through updateParameter, the parameters of the AIQ
     * result that feeds it; its sequence and every other slot stay.
     */
    method HandleLtm(hasGrid: bool, p: LtmParam, timestamp: int) returns (status: Status)
      requires Valid()
      modifies this, ltmParams
      ensures Valid()
      ensures !hdrEnabled ==> (status == OK && inputParamIndex == old(inputParamIndex) &&
                               ltmParams[..] == old(ltmParams[..]))
      ensures hdrEnabled ==> (inputParamIndex == (old(inputParamIndex) + 1) % maxParams &&
                              ltmParams[inputParamIndex].hasYvGrid == hasGrid &&
                              TakesParam(ltmParams[inputParamIndex], p, timestamp) &&
                              ltmParams[inputParamIndex].sequence == old(ltmParams[(inputParamIndex + 1) % maxParams]).sequence &&
                              forall i :: 0 <= i < ltmParams.Length && i != inputParamIndex ==> ltmParams[i] == old(ltmParams[i]))
      ensures state == old(state) && tuningMode == old(tuningMode) && hasHandle == old(hasHandle)
    {
      if !hdrEnabled {
        return OK;
      }
      AdvanceIndex();
      ltmParams[inputParamIndex] := ltmParams[inputParamIndex].(hasYvGrid := hasGrid);
      var ignored := UpdateParameter(p, timestamp);
      status := OK;
    }

    /**
     * handleSisLtm's checks: the slot index advances first, then an empty
     * SIS frame or a missing data pointer is BAD_VALUE.
     */
    method HandleSisLtm(size: int, hasData: bool) returns (status: Status)
      requires Valid()
      modifies this
      ensures Valid()
      ensures !hdrEnabled ==> status == OK && inputParamIndex == old(inputParamIndex)
      ensures hdrEnabled ==> (inputParamIndex == (old(inputParamIndex) + 1) % maxParams &&
                              (status == BAD_VALUE <==> size <= 0 || !hasData))
      ensures state == old(state) && tuningMode == old(tuningMode) && hasHandle == old(hasHandle)
    {
      if !hdrEnabled {
        return OK;
      }
      AdvanceIndex();
      if size <= 0 || !hasData {
        return BAD_VALUE;
      }
      status := OK;
    }

    /** runLtm runs the library only with HDR and once configured; otherwise it reports OK and does nothing. */
    method RunLtm(runErr: IaErr) returns (status: Status, ran: bool)
      requires Valid()
      ensures ran <==> hdrEnabled && state == LTM_CONFIGURED
      ensures !ran ==> status == OK
      ensures ran ==> status == ConvertError(runErr)
    {
      if !hdrEnabled || state != LTM_CONFIGURED {
        return OK, false;
      }
      status := ConvertError(runErr);
      ran := true;
    }
  }
}
