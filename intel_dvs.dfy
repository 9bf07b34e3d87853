/**
 * Digital video stabilisation (IntelDvs): the GDC configuration handed to
 * the DVS library, its (re)configuration when the stream or the
 * stabilisation settings change, and the digital-zoom update.  The DVS
 * library, the CPF tuning store and the graph-config query are parameters:
 * the model receives their answers.
 */
module IntelDvs {
  import opened Common
  import opened HalTypes

  const ENVELOPE_BQ_WIDTH: int := 192
  const ENVELOPE_BQ_HEIGHT: int := 96
  const DVS_OXDIM_Y: int := 128
  const DVS_OYDIM_Y: int := 32
  const DVS_OXDIM_UV: int := 64
  const DVS_OXDIM_UV_LDC: int := 32
  const DVS_OYDIM_UV: int := 16

  /** A width/height pair in Bayer quads. */
  datatype Bq = Bq(width: int, height: int)

  /** ia_dvs_crop_params. */
  datatype Crop = Crop(hOffset: int, vOffset: int, width: int, height: int)

  /** gdc_buffer_config. */
  datatype GdcBuffer = GdcBuffer(xOffset: int, yOffset: int, width: int, height: int)

  /** ia_dvs_configuration: the fields setDVSConfiguration writes. */
  datatype DvsConfig = DvsConfig(
    sixAxis: bool,
    sourceBq: Bq,
    outputBq: Bq,
    ispfilterBq: Bq,
    oxdimY: int,
    oydimY: int,
    oxdimUv: int,
    oydimUv: int,
    gdcBuffer: GdcBuffer,
    frameRate: real,
    zoomEnabled: bool,
    crop: Crop,
    envelopeBq: Bq,
    useLensDistortionCorrection: bool)

  function Half(x: int): int
  {
    TruncDiv(x, 2)
  }

  /** int(MAX_DVS2_YUVDS_RATIO * x): the widest input the down-scaler accepts for output x. */
  function BqMax(x: int): int
  {
    TruncDiv(13 * x, 10)
  }

  /** The envelope grows beyond its default until the rest of the source fits BqMax(output). */
  function Envelope(source: int, output: int, default: int): (e: int)
    ensures e >= default
    ensures source - e <= BqMax(output)
    ensures e == default || source - e == BqMax(output)
  {
    if source - default > BqMax(output) then source - BqMax(output) else default
  }

  /**
   * setDVSConfiguration.  The source is half the input resolution, the
   * output half the destination when that is set (else half the source),
   * and the GDC buffer covers the source; the GDC 3.1 kernel gets twice the
   * output block width.  With LDC the crop is half the destination, the
   * envelope is zero and the UV block width narrows to 32.
   */
  function DvsConfiguration(isGdc3_1: bool, dvsEnabled: bool, ldcEnabled: bool, src: Size, dst: Size, fps: real): (c: DvsConfig)
    ensures c.sixAxis <==> dvsEnabled
    ensures c.sourceBq == Bq(Half(src.width), Half(src.height))
    ensures c.outputBq ==
      (if dst.width != 0 && dst.height != 0 then Bq(Half(dst.width), Half(dst.height)) else c.sourceBq)
    ensures c.gdcBuffer == GdcBuffer(0, 0, c.sourceBq.width, c.sourceBq.height)
    ensures c.oxdimY == (if isGdc3_1 then 128 else 64) && c.oydimY == 32 && c.oydimUv == 16
    ensures c.oxdimUv == (if ldcEnabled then 32 else 64)
    ensures c.frameRate == fps && !c.zoomEnabled
    ensures ldcEnabled ==>
      c.crop == Crop(0, 0, Half(dst.width), Half(dst.height)) && c.envelopeBq == Bq(0, 0) &&
      c.useLensDistortionCorrection
    ensures !ldcEnabled ==>
      c.crop == Crop(0, 0, 0, 0) && !c.useLensDistortionCorrection &&
      c.envelopeBq.width >= ENVELOPE_BQ_WIDTH && c.envelopeBq.height >= ENVELOPE_BQ_HEIGHT &&
      c.sourceBq.width - c.envelopeBq.width <= BqMax(c.outputBq.width) &&
      c.sourceBq.height - c.envelopeBq.height <= BqMax(c.outputBq.height)
  {
    var source := Bq(Half(src.width), Half(src.height));
    var output := if dst.width != 0 && dst.height != 0 then Bq(Half(dst.width), Half(dst.height)) else source;
    var envelope := Bq(Envelope(source.width, output.width, ENVELOPE_BQ_WIDTH),
                       Envelope(source.height, output.height, ENVELOPE_BQ_HEIGHT));
    var c := DvsConfig(
      dvsEnabled, source, output, Bq(0, 0),
      if isGdc3_1 then DVS_OXDIM_Y else DVS_OXDIM_Y / 2, DVS_OYDIM_Y, DVS_OXDIM_UV, DVS_OYDIM_UV,
      GdcBuffer(0, 0, source.width, source.height), fps, false, Crop(0, 0, 0, 0), envelope, false);
    if ldcEnabled then
      c.(crop := Crop(0, 0, Half(dst.width), Half(dst.height)), envelopeBq := Bq(0, 0),
         useLensDistortionCorrection := true, zoomEnabled := false, oxdimUv := DVS_OXDIM_UV_LDC)
    else c
  }

  /**
   * The zoom ratio reconfigure passes to the library, as written: the input
   * size over the size left inside the envelope (envelope in Bayer quads,
   * so doubled), divided in integers before the float conversion.
   */
  function ZoomRatioAsWritten(src: int, envelopeBq: int): (r: Option<int>)
    ensures r.Some? <==> src - envelopeBq * 2 > 0
    ensures r.Some? && src >= 0 ==>
      r.value * (src - envelopeBq * 2) <= src < (r.value + 1) * (src - envelopeBq * 2)
  {
    if src - envelopeBq * 2 > 0 then Some(TruncDiv(src, src - envelopeBq * 2)) else None
  }

  /** The same ratio as a real quotient. */
  function ZoomRatio(src: int, envelopeBq: int): (r: Option<real>)
    ensures r.Some? ==> r.value >= 1.0 || envelopeBq < 0
    ensures r.Some? <==> ZoomRatioAsWritten(src, envelopeBq).Some?
  {
    if src - envelopeBq * 2 > 0 then Some(src as real / (src - envelopeBq * 2) as real) else None
  }

  /** A 1080p input with the default 192-quad envelope needs 1.25x, but the integer ratio is 1. */
  lemma ZoomRatioTruncated()
    ensures ZoomRatioAsWritten(1920, ENVELOPE_BQ_WIDTH) == Some(1)
    ensures ZoomRatio(1920, ENVELOPE_BQ_WIDTH) == Some(1.25)
  {
    assert TruncDiv(1920, 1536) == 1;
  }

  /** What the DVS library, the CPF store and the graph config answer during reconfigure. */
  datatype ReconfigureEnv = ReconfigureEnv(
    gcSetting: Option<(nat, Size)>,
    handleStatus: Status,
    configOk: bool,
    tableStatus: Status)

  /** The fields of aiq_parameter_t the DVS reads. */
  datatype DvsParam = DvsParam(
    fps: real,
    tuningMode: TuningMode,
    videoStabilization: bool,
    ldc: bool,
    rsc: bool,
    digitalZoomRatio: real)

  /** The integer part of a non-negative ratio: the `int` local updateParameter stores. */
  function Truncate(x: real): int
  {
    if x >= 0.0 then x.Floor else -((-x).Floor)
  }

  /**
   * The zoom step of updateParameter as written: the request is compared as
   * a float but stored through an int, so a fractional ratio is truncated
   * and, never matching the stored value, applied again on every frame.
   */
  function ZoomStepAsWritten(stored: real, requested: real): (r: (real, Option<real>))
    ensures r.1.Some? <==> requested > 0.0 && requested != stored
    ensures r.1.Some? ==> r.0 == r.1.value && r.0 <= requested < r.0 + 1.0
    ensures r.1.None? ==> r.0 == stored
  {
    if requested > 0.0 && requested != stored then
      (Truncate(requested) as real, Some(Truncate(requested) as real))
    else (stored, None)
  }

  /** A request of 1.5x zooms to 1x, and the next identical request fires again. */
  lemma FractionalZoomLost()
    ensures ZoomStepAsWritten(1.0, 1.5) == (1.0, Some(1.0))
    ensures ZoomStepAsWritten(ZoomStepAsWritten(1.0, 1.5).0, 1.5).1.Some?
  {
    assert (1.5).Floor == 1;
  }

  /** The zoom step with the ratio kept as given: applying a request twice sets it once. */
  function ZoomStep(stored: real, requested: real): (r: (real, Option<real>))
    ensures r.1.Some? <==> requested > 0.0 && requested != stored
    ensures r.1.Some? ==> r.0 == requested && r.1.value == requested
    ensures r.1.None? ==> r.0 == stored
  {
    if requested > 0.0 && requested != stored then (requested, Some(requested)) else (stored, None)
  }

  /** Repeating a zoom request does not apply it again. */
  lemma ZoomRequestAppliedOnce(stored: real, requested: real)
    ensures ZoomStep(ZoomStep(stored, requested).0, requested).1.None?
  {
  }

  class Dvs {
    var hasHandle: bool
    var dvsEnabled: bool
    var ldcEnabled: bool
    var rscEnabled: bool
    var digitalZoomRatio: real
    var fps: real
    var configMode: ConfigMode
    var tuningMode: TuningMode
    var kernelId: nat
    var srcResolution: Size
    var dstResolution: Size
    /** The configuration last handed to the library. */
    var config: Option<DvsConfig>
    /** ia_pal_uuid_isp_gdc3_1, from the PAL headers. */
    const gdc3_1Uuid: nat

    /** The constructor: stabilisation off, 30 fps, normal mode, no handle. */
    constructor (gdc3_1: nat)
      ensures !hasHandle && !dvsEnabled && !ldcEnabled && !rscEnabled
      ensures digitalZoomRatio == 1.0 && fps == 30.0
      ensures configMode == CONFIG_NORMAL && tuningMode == TUNING_VIDEO_HDR
      ensures kernelId == 0 && srcResolution == Size(0, 0) && dstResolution == Size(0, 0)
      ensures config.None? && gdc3_1Uuid == gdc3_1
    {
      hasHandle := false;
      dvsEnabled := false;
      ldcEnabled := false;
      rscEnabled := false;
      digitalZoomRatio := 1.0;
      fps := 30.0;
      configMode := CONFIG_NORMAL;
      tuningMode := TUNING_VIDEO_HDR;
      kernelId := 0;
      srcResolution := Size(0, 0);
      dstResolution := Size(0, 0);
      config := None;
      gdc3_1Uuid := gdc3_1;
    }

    /** deinit: the morph table and the handle are released. */
    method Deinit() returns (status: Status)
      modifies this
      ensures status == OK && !hasHandle
      ensures config == old(config) && srcResolution == old(srcResolution)
    {
      hasHandle := false;
      status := OK;
    }

    /**
     * reconfigure.  Without a kernel id or a source size the graph config is
     * asked for them (the source size is kept, the kernel id only used);
     * when it has none, DVS stays unconfigured and the call still succeeds.
     * Otherwise the handle is re-created, and only with a handle is the
     * configuration built and handed over.
     */
    method Reconfigure(env: ReconfigureEnv) returns (status: Status)
      modifies this
      ensures var needGc := old(kernelId) == 0 || old(srcResolution).width == 0 || old(srcResolution).height == 0;
        (needGc && env.gcSetting.None? ==>
           status == OK && config == old(config) && hasHandle == old(hasHandle) &&
           srcResolution == old(srcResolution)) &&
        (!(needGc && env.gcSetting.None?) ==>
           var kernel := if needGc then env.gcSetting.value.0 else old(kernelId);
           srcResolution == (if needGc then env.gcSetting.value.1 else old(srcResolution)) &&
           hasHandle == (env.handleStatus == OK) &&
           (env.handleStatus != OK ==> status == env.handleStatus && config == old(config)) &&
           (env.handleStatus == OK ==>
              config == Some(DvsConfiguration(kernel == gdc3_1Uuid, dvsEnabled, ldcEnabled,
                                              srcResolution, dstResolution, fps)) &&
              (status == OK <==> env.configOk && env.tableStatus == OK) &&
              (status != OK ==> status == UNKNOWN_ERROR)))
      ensures kernelId == old(kernelId) && dstResolution == old(dstResolution)
      ensures dvsEnabled == old(dvsEnabled) && ldcEnabled == old(ldcEnabled) && rscEnabled == old(rscEnabled)
      ensures fps == old(fps) && tuningMode == old(tuningMode) && configMode == old(configMode)
      ensures digitalZoomRatio == old(digitalZoomRatio)
    {
      var kernel := kernelId;
      if kernelId == 0 || srcResolution.width == 0 || srcResolution.height == 0 {
        if env.gcSetting.None? {
          return OK;
        }
        kernel := env.gcSetting.value.0;
        srcResolution := env.gcSetting.value.1;
      }
      hasHandle := env.handleStatus == OK;
      status := env.handleStatus;
      if !hasHandle {
        return;
      }
      config := Some(DvsConfiguration(kernel == gdc3_1Uuid, dvsEnabled, ldcEnabled, srcResolution, dstResolution, fps));
      if !env.configOk {
        return UNKNOWN_ERROR;
      }
      if env.tableStatus != OK {
        return UNKNOWN_ERROR;
      }
      status := OK;
    }

    /**
     * configure(configModes, ...): the first mode decides the tuning mode
     * (through PlatformData, here `tuningOf`); an empty list or a mode
     * without tuning is UNKNOWN_ERROR and changes nothing.
     */
    method Configure(configModes: seq<ConfigMode>, tuningOf: ConfigMode -> Option<TuningMode>,
                     kernel: nat, src: Size, dst: Size, env: ReconfigureEnv) returns (status: Status)
      modifies this
      ensures configModes == [] ==> status == UNKNOWN_ERROR && config == old(config) && kernelId == old(kernelId)
      ensures configModes != [] && tuningOf(configModes[0]).None? ==>
        status == UNKNOWN_ERROR && config == old(config) && kernelId == old(kernelId) &&
        configMode == configModes[0]
      ensures configModes != [] && tuningOf(configModes[0]).Some? ==>
        configMode == configModes[0] && tuningMode == tuningOf(configModes[0]).value &&
        kernelId == kernel && dstResolution == dst &&
        (kernel != 0 && src.width != 0 && src.height != 0 ==> srcResolution == src) &&
        (env.handleStatus == OK && kernel != 0 && src.width != 0 && src.height != 0 ==>
           config == Some(DvsConfiguration(kernel == gdc3_1Uuid, dvsEnabled, ldcEnabled, src, dst, fps)))
    {
      if configModes == [] {
        return UNKNOWN_ERROR;
      }
      configMode := configModes[0];
      var t := tuningOf(configMode);
      if t.None? {
        return UNKNOWN_ERROR;
      }
      tuningMode := t.value;
      kernelId := kernel;
      srcResolution := src;
      dstResolution := dst;
      status := Reconfigure(env);
    }

    /** Whether a parameter update changes anything the configuration depends on. */
    predicate NeedsReconfigure(p: DvsParam)
      reads this
    {
      (p.fps > 0.01 && p.fps != fps) || p.tuningMode != tuningMode ||
      p.videoStabilization != dvsEnabled || p.ldc != ldcEnabled || p.rsc != rscEnabled
    }

    /**
     * updateParameter: any change of frame rate (above 0.01), tuning mode or
     * the stabilisation, LDC or RSC switches is stored and reconfigures;
     * otherwise only a changed positive zoom ratio is applied (`zoomSet`).
     * The ratio is kept as given (see ZoomStepAsWritten for the code's
     * integer truncation).
     */
    method UpdateParameter(p: DvsParam, env: ReconfigureEnv) returns (status: Status, zoomSet: Option<real>)
      modifies this
      ensures old(NeedsReconfigure(p)) ==>
        fps == (if p.fps > 0.01 then p.fps else old(fps)) && tuningMode == p.tuningMode &&
        dvsEnabled == p.videoStabilization && ldcEnabled == p.ldc && rscEnabled == p.rsc &&
        zoomSet.None? && digitalZoomRatio == old(digitalZoomRatio)
      ensures old(NeedsReconfigure(p)) ==>
        var needGc := old(kernelId) == 0 || old(srcResolution).width == 0 || old(srcResolution).height == 0;
        (needGc && env.gcSetting.None? ==>
           status == OK && config == old(config) && hasHandle == old(hasHandle) &&
           srcResolution == old(srcResolution)) &&
        (!(needGc && env.gcSetting.None?) ==>
           var kernel := if needGc then env.gcSetting.value.0 else old(kernelId);
           srcResolution == (if needGc then env.gcSetting.value.1 else old(srcResolution)) &&
           hasHandle == (env.handleStatus == OK) &&
           (env.handleStatus != OK ==> status == env.handleStatus && config == old(config)) &&
           (env.handleStatus == OK ==>
              config == Some(DvsConfiguration(kernel == gdc3_1Uuid, p.videoStabilization, p.ldc,
                                              srcResolution, dstResolution, fps)) &&
              (status == OK <==> env.configOk && env.tableStatus == OK) &&
              (status != OK ==> status == UNKNOWN_ERROR)))
      ensures kernelId == old(kernelId) && dstResolution == old(dstResolution) && configMode == old(configMode)
      ensures !old(NeedsReconfigure(p)) ==>
        status == OK && (digitalZoomRatio, zoomSet) == ZoomStep(old(digitalZoomRatio), p.digitalZoomRatio) &&
        config == old(config) && hasHandle == old(hasHandle) &&
        fps == old(fps) && tuningMode == old(tuningMode) && dvsEnabled == old(dvsEnabled) &&
        ldcEnabled == old(ldcEnabled) && rscEnabled == old(rscEnabled)
      ensures !NeedsReconfigure(p)
    {
      zoomSet := None;
      if NeedsReconfigure(p) {
        fps := if p.fps > 0.01 then p.fps else fps;
        tuningMode := p.tuningMode;
        dvsEnabled := p.videoStabilization;
        ldcEnabled := p.ldc;
        rscEnabled := p.rsc;
        status := Reconfigure(env);
        return;
      }
      if p.digitalZoomRatio > 0.0 && p.digitalZoomRatio != digitalZoomRatio {
        digitalZoomRatio := p.digitalZoomRatio;
        zoomSet := Some(digitalZoomRatio);
      }
      status := OK;
    }
  }
}
