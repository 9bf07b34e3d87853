/**
 * The per-camera static configuration queries of platformdata/PlatformData.cpp:
 * choosing the media-control configuration and the ISYS output format,
 * the exposure count, the VBP (vertical blanking) predicates, the sensor
 * frame parameters derived from the media-control selections, the
 * weight-grid lookup and the configuration-mode lookups.  The singleton's
 * per-camera record is the class StaticCameraInfo; the fields the
 * selectors write (the current media-control configuration and the ISYS
 * format) are its mutable state.
 */
module PlatformData {
  import opened Common
  import opened HalTypes
  import opened CameraProfiles

  datatype VideoNodeType =
    | VIDEO_GENERIC
    | VIDEO_GENERIC_MEDIUM_EXPO
    | VIDEO_GENERIC_SHORT_EXPO
    | VIDEO_CSI_META
    | VIDEO_PIXEL_ARRAY
    | VIDEO_PIXEL_BINNER
    | VIDEO_PIXEL_SCALER
    | VIDEO_ISYS_RECEIVER
    | VIDEO_ISYS_RECEIVER_BACKEND
    | VIDEO_ISA_CONFIG
    | VIDEO_ISA_SCALE
    | VIDEO_AA_STATS

  datatype McFormatType = FC_FORMAT | FC_SELECTION

  datatype SelectionTarget = V4L2_SEL_TGT_CROP | V4L2_SEL_TGT_COMPOSE | SEL_TGT_OTHER

  /** One entry of a media-control configuration's format list (McFormat). */
  datatype McFormat = McFormat(formatType: McFormatType, selCmd: SelectionTarget,
                               width: nat, height: nat, left: nat, top: nat)

  /** MediaCtlConf: the fields the queries read. */
  datatype MediaCtlConf = MediaCtlConf(
    mcId: int,
    configModes: seq<ConfigMode>,
    outputWidth: int,
    outputHeight: int,
    format: int,
    vbp: int,
    videoNodes: seq<VideoNodeType>,
    formats: seq<McFormat>)

  /** The stream_t fields the selection compares. */
  datatype Stream = Stream(format: int, width: int, height: int, field: int)

  /** One entry of mStreamToMcMap: a media-control id and the stream configurations it serves. */
  datatype McMapEntry = McMapEntry(mcId: int, configs: seq<StreamConfig>)

  datatype WeightGridTable = WeightGridTable(width: int, height: int, table: seq<int>)

  // ---------------------------------------------------------------------
  // getMcConfByMcId, getMcConfByConfigMode, getMcConfByStream (488-550).
  // A returned pointer into mMediaCtlConfs is modelled by its index.
  // ---------------------------------------------------------------------

  function HasMcId(mcId: int): MediaCtlConf -> bool
  {
    (mc: MediaCtlConf) => mc.mcId == mcId
  }

  /** The configuration getMcConfByMcId returns: none for id -1, else the first with that id. */
  function McConfByMcId(confs: seq<MediaCtlConf>, mcId: int): Option<nat>
  {
    if mcId == -1 then None else FirstFrom(confs, HasMcId(mcId), 0)
  }

  method GetMcConfByMcId(confs: seq<MediaCtlConf>, mcId: int) returns (r: Option<nat>)
    ensures r == McConfByMcId(confs, mcId)
    ensures r.Some? ==> r.value < |confs| && confs[r.value].mcId == mcId && mcId != -1
    ensures r.Some? ==> forall j :: 0 <= j < r.value ==> confs[j].mcId != mcId
    ensures r.None? <==> mcId == -1 || forall j :: 0 <= j < |confs| ==> confs[j].mcId != mcId
  {
    if mcId == -1 {
      return None;
    }
    var i := 0;
    while i < |confs|
      invariant i <= |confs|
      invariant FirstFrom(confs, HasMcId(mcId), 0) == FirstFrom(confs, HasMcId(mcId), i)
    {
      if confs[i].mcId == mcId {
        return Some(i);
      }
      i := i + 1;
    }
    return None;
  }

  /**
   * A configuration serves the mode and the stream when it lists the mode and
   * its output size is dynamic (0x0) or equals the stream's size.
   */
  function ServesMode(stream: Stream, mode: ConfigMode): MediaCtlConf -> bool
  {
    (mc: MediaCtlConf) => mode in mc.configModes
      && ((mc.outputWidth == 0 && mc.outputHeight == 0)
          || (stream.width == mc.outputWidth && stream.height == mc.outputHeight))
  }

  function McConfByConfigMode(confs: seq<MediaCtlConf>, stream: Stream, mode: ConfigMode): Option<nat>
  {
    FirstFrom(confs, ServesMode(stream, mode), 0)
  }

  method GetMcConfByConfigMode(confs: seq<MediaCtlConf>, stream: Stream, mode: ConfigMode) returns (r: Option<nat>)
    ensures r == McConfByConfigMode(confs, stream, mode)
    ensures r.Some? ==> r.value < |confs| && mode in confs[r.value].configModes
    ensures r.Some? ==> var mc := confs[r.value];
      (mc.outputWidth == 0 && mc.outputHeight == 0) || (mc.outputWidth == stream.width && mc.outputHeight == stream.height)
  {
    var i := 0;
    while i < |confs|
      invariant i <= |confs|
      invariant FirstFrom(confs, ServesMode(stream, mode), 0) == FirstFrom(confs, ServesMode(stream, mode), i)
    {
      var mc := confs[i];
      var j := 0;
      while j < |mc.configModes|
        invariant j <= |mc.configModes|
        invariant ServesMode(stream, mode)(mc) ==> mode !in mc.configModes[..j]
      {
        if mc.configModes[j] == mode {
          if (mc.outputWidth == 0 && mc.outputHeight == 0)
            || (stream.width == mc.outputWidth && stream.height == mc.outputHeight)
          {
            return Some(i);
          }
        }
        assert mc.configModes[..j + 1] == mc.configModes[..j] + [mc.configModes[j]];
        j := j + 1;
      }
      assert mc.configModes[..j] == mc.configModes;
      i := i + 1;
    }
    return None;
  }

  predicate StreamMatches(c: StreamConfig, stream: Stream)
  {
    c.format == stream.format && c.field == stream.field
      && c.width == stream.width && c.height == stream.height
  }

  /**
   * The map entries whose match ends the search: a matching entry keyed -1
   * sets the id to -1, which does not stop the outer loop.
   */
  function StopsSearch(stream: Stream): McMapEntry -> bool
  {
    (e: McMapEntry) => e.mcId != -1 && exists c ::  c in e.configs && StreamMatches(c, stream)
  }

  /** The id getMcConfByStream looks up: the first entry, other than one keyed -1, holding a matching configuration. */
  function StreamToMcId(table: seq<McMapEntry>, stream: Stream): int
  {
    match FirstFrom(table, StopsSearch(stream), 0)
    case None => -1
    case Some(k) => table[k].mcId
  }

  /** The inner loop: the index of the first matching configuration of one entry. */
  method FindStreamConfig(configs: seq<StreamConfig>, stream: Stream) returns (found: bool)
    ensures found <==> exists c :: c in configs && StreamMatches(c, stream)
  {
    var j := 0;
    while j < |configs|
      invariant j <= |configs|
      invariant forall k :: 0 <= k < j ==> !StreamMatches(configs[k], stream)
    {
      if StreamMatches(configs[j], stream) {
        return true;
      }
      j := j + 1;
    }
    return false;
  }

  /**
   * getMcConfByStream: the id from the stream-to-mc map (its entries in the
   * map's ascending key order), then the configuration with that id.
   */
  method GetMcConfByStream(confs: seq<MediaCtlConf>, table: seq<McMapEntry>, stream: Stream) returns (r: Option<nat>)
    ensures r == McConfByMcId(confs, StreamToMcId(table, stream))
  {
    var mcId := -1;
    var i := 0;
    while i < |table|
      invariant i <= |table|
      invariant mcId == -1
      invariant FirstFrom(table, StopsSearch(stream), 0) == FirstFrom(table, StopsSearch(stream), i)
    {
      var found := FindStreamConfig(table[i].configs, stream);
      if found {
        mcId := table[i].mcId;
      }
      if mcId != -1 {
        break;
      }
      i := i + 1;
    }
    r := GetMcConfByMcId(confs, mcId);
  }

  /** The three criteria of selectMcConf, in order of preference. */
  function McConfSelection(confs: seq<MediaCtlConf>, table: seq<McMapEntry>, stream: Stream, mode: ConfigMode, mcId: int): Option<nat>
  {
    var byId := McConfByMcId(confs, mcId);
    if byId.Some? then byId
    else
      var byMode := McConfByConfigMode(confs, stream, mode);
      if byMode.Some? then byMode
      else McConfByMcId(confs, StreamToMcId(table, stream))
  }

  /**
   * The selected configuration has the requested id, or serves the mode
   * and stream, or carries the id the stream maps to; nothing is selected
   * exactly when all three searches fail.
   */
  lemma SelectionJustified(confs: seq<MediaCtlConf>, table: seq<McMapEntry>, stream: Stream, mode: ConfigMode, mcId: int)
    ensures var r := McConfSelection(confs, table, stream, mode, mcId);
      r.Some? ==> (r.value < |confs|
        && ((mcId != -1 && confs[r.value].mcId == mcId)
            || ServesMode(stream, mode)(confs[r.value])
            || confs[r.value].mcId == StreamToMcId(table, stream) != -1))
    ensures var r := McConfSelection(confs, table, stream, mode, mcId);
      r.None? <==> ((mcId == -1 || forall j :: 0 <= j < |confs| ==> confs[j].mcId != mcId)
        && (forall j :: 0 <= j < |confs| ==> !ServesMode(stream, mode)(confs[j]))
        && (StreamToMcId(table, stream) == -1 || forall j :: 0 <= j < |confs| ==> confs[j].mcId != StreamToMcId(table, stream)))
  {
  }

  /** A requested id that exists wins over the mode and stream criteria. */
  lemma SelectionPrefersId(confs: seq<MediaCtlConf>, table: seq<McMapEntry>, stream: Stream, mode: ConfigMode, mcId: int, k: nat)
    requires k < |confs| && confs[k].mcId == mcId && mcId != -1
    ensures var r := McConfSelection(confs, table, stream, mode, mcId);
      r.Some? && confs[r.value].mcId == mcId && r.value <= k
  {
  }

  // ---------------------------------------------------------------------
  // calculateFrameParams (845-951).
  // ---------------------------------------------------------------------

  /** SensorFrameParams: the fields calculateFrameParams writes. */
  datatype SensorFrameParams = SensorFrameParams(
    horizontalCropOffset: int,
    verticalCropOffset: int,
    croppedImageWidth: int,
    croppedImageHeight: int,
    horizontalScalingNumerator: int,
    horizontalScalingDenominator: int,
    verticalScalingNumerator: int,
    verticalScalingDenominator: int)

  /** CLEAR(sensorFrameParams). */
  const CLEARED_PARAMS := SensorFrameParams(0, 0, 0, 0, 0, 0, 0, 0)

  const SCALE_FACTOR_COEF: nat := 10

  /** The locals of calculateFrameParams and the parameters written so far. */
  datatype FrameScan = FrameScan(
    width: nat, height: nat,
    horizontalOffset: nat, verticalOffset: nat,
    horizontalBinNum: nat, horizontalBinDenom: nat, horizontalBin: nat,
    verticalBinNum: nat, verticalBinDenom: nat, verticalBin: nat,
    pixArraySizeFound: bool,
    params: SensorFrameParams)

  const INITIAL_SCAN := FrameScan(0, 0, 0, 0, 1, 1, 1, 1, 1, 1, false, CLEARED_PARAMS)

  /** The eight assignments that end each handled entry: the crop offsets accumulate, the rest are overwritten. */
  function Publish(s: FrameScan): (p: SensorFrameParams)
    ensures p.horizontalCropOffset == s.params.horizontalCropOffset + s.horizontalOffset
    ensures p.verticalCropOffset == s.params.verticalCropOffset + s.verticalOffset
  {
    SensorFrameParams(
      s.params.horizontalCropOffset + s.horizontalOffset,
      s.params.verticalCropOffset + s.verticalOffset,
      s.width, s.height,
      s.horizontalBinNum, s.horizontalBinDenom,
      s.verticalBinNum, s.verticalBinDenom)
  }

  /** The first entry with a non-zero size gives the pixel array size and publishes the initial parameters. */
  function PixelArrayStep(s: FrameScan, f: McFormat): FrameScan
  {
    if !s.pixArraySizeFound && f.width > 0 && f.height > 0 then
      var t := s.(width := f.width, height := f.height, pixArraySizeFound := true);
      t.(params := Publish(t))
    else s
  }

  /**
   * One loop iteration; None is the BAD_VALUE return of a compose selection
   * met without a pixel array size or with a zero compose size.
   */
  function FrameStep(s: FrameScan, f: McFormat): (r: Option<FrameScan>)
    ensures r.None? ==> f.formatType == FC_SELECTION && f.selCmd == V4L2_SEL_TGT_COMPOSE
  {
    var s1 := PixelArrayStep(s, f);
    if f.formatType != FC_SELECTION then Some(s1)
    else if f.selCmd == V4L2_SEL_TGT_CROP then
      var t := s1.(width := f.width * s1.horizontalBin, horizontalOffset := f.left * s1.horizontalBin,
                   height := f.height * s1.verticalBin, verticalOffset := f.top * s1.verticalBin);
      Some(t.(params := Publish(t)))
    else if f.selCmd == V4L2_SEL_TGT_COMPOSE then
      if s1.width == 0 || s1.height == 0 then None
      else if f.width == 0 || f.height == 0 then None
      else
        var t := s1.(horizontalBin := s1.width / f.width,
                     horizontalBinNum := s1.width * SCALE_FACTOR_COEF / f.width,
                     horizontalBinDenom := SCALE_FACTOR_COEF,
                     verticalBin := s1.height / f.height,
                     verticalBinNum := s1.height * SCALE_FACTOR_COEF / f.height,
                     verticalBinDenom := SCALE_FACTOR_COEF);
        Some(t.(params := Publish(t)))
    else Some(s1)
  }

  /** One iteration on a scan that may already have failed. */
  function Next(o: Option<FrameScan>, f: McFormat): Option<FrameScan>
  {
    if o.None? then None else FrameStep(o.value, f)
  }

  /** The scan after the given entries, left to right; None once an entry fails. */
  function Run(o: Option<FrameScan>, formats: seq<McFormat>): Option<FrameScan>
    decreases |formats|
  {
    if formats == [] then o else Run(Next(o, formats[0]), formats[1..])
  }

  function FrameScanOf(formats: seq<McFormat>): Option<FrameScan>
  {
    Run(Some(INITIAL_SCAN), formats)
  }

  /** A failure is final: no later entry recovers from BAD_VALUE. */
  lemma {:induction false} RunFailSticky(formats: seq<McFormat>)
    ensures Run(None, formats) == None
    decreases |formats|
  {
    if formats != [] {
      RunFailSticky(formats[1..]);
    }
  }

  /** Running over one more entry is one more iteration. */
  lemma {:induction false} RunSnoc(o: Option<FrameScan>, formats: seq<McFormat>, f: McFormat)
    ensures Run(o, formats + [f]) == Next(Run(o, formats), f)
    decreases |formats|
  {
    if formats == [] {
      assert [f][1..] == [];
    } else {
      RunSnoc(Next(o, formats[0]), formats[1..], f);
      assert (formats + [f])[1..] == formats[1..] + [f];
    }
  }

  /**
   * A compose selection sets the scaling to (size * 10 / compose) / 10, the
   * quotient of the current size by the compose size in tenths.
   */
  lemma ComposeScaling(s: FrameScan, f: McFormat)
    requires f.formatType == FC_SELECTION && f.selCmd == V4L2_SEL_TGT_COMPOSE
    requires FrameStep(s, f).Some?
    ensures var w := PixelArrayStep(s, f).width;
      var p := FrameStep(s, f).value.params;
      f.width > 0 && w > 0
        && p.horizontalScalingDenominator == SCALE_FACTOR_COEF
        && p.horizontalScalingNumerator * f.width <= w * SCALE_FACTOR_COEF < (p.horizontalScalingNumerator + 1) * f.width
    ensures var h := PixelArrayStep(s, f).height;
      var p := FrameStep(s, f).value.params;
      f.height > 0 && h > 0
        && p.verticalScalingDenominator == SCALE_FACTOR_COEF
        && p.verticalScalingNumerator * f.height <= h * SCALE_FACTOR_COEF < (p.verticalScalingNumerator + 1) * f.height
  {
    var s1 := PixelArrayStep(s, f);
    DivBounds(s1.width * SCALE_FACTOR_COEF, f.width);
    DivBounds(s1.height * SCALE_FACTOR_COEF, f.height);
  }

  lemma DivBounds(x: nat, d: nat)
    requires d > 0
    ensures (x / d) * d <= x < (x / d + 1) * d
  {
  }

  /** A compose selection without a pixel array size, or with a zero size, fails. */
  lemma ComposeNeedsSizes(s: FrameScan, f: McFormat)
    requires f.formatType == FC_SELECTION && f.selCmd == V4L2_SEL_TGT_COMPOSE
    ensures FrameStep(s, f).None? <==>
      PixelArrayStep(s, f).width == 0 || PixelArrayStep(s, f).height == 0 || f.width == 0 || f.height == 0
  {
  }

  /** Every crop selection adds its binned offsets to the crop offsets already written. */
  lemma CropOffsetsAccumulate(formats: seq<McFormat>, f: McFormat)
    requires FrameScanOf(formats).Some?
    requires f.formatType == FC_SELECTION && f.selCmd == V4L2_SEL_TGT_CROP
    ensures FrameScanOf(formats + [f]).Some?
    ensures var s := PixelArrayStep(FrameScanOf(formats).value, f);
      var p := FrameScanOf(formats + [f]).value.params;
      p.horizontalCropOffset == s.params.horizontalCropOffset + f.left * s.horizontalBin
        && p.verticalCropOffset == s.params.verticalCropOffset + f.top * s.verticalBin
        && p.croppedImageWidth == f.width * s.horizontalBin
  {
    RunSnoc(Some(INITIAL_SCAN), formats, f);
  }

  /** Entries that are not selections, met after the pixel array size, change nothing. */
  lemma NonSelectionKeepsParams(formats: seq<McFormat>, f: McFormat)
    requires FrameScanOf(formats).Some? && FrameScanOf(formats).value.pixArraySizeFound
    requires f.formatType == FC_FORMAT
    ensures FrameScanOf(formats + [f]) == FrameScanOf(formats)
  {
    RunSnoc(Some(INITIAL_SCAN), formats, f);
  }

  // ---------------------------------------------------------------------
  // The per-camera record.
  // ---------------------------------------------------------------------

  /** getConfigModesByOperationMode's two outcomes. */
  datatype ConfigModes = ConfigModes(status: Status, modes: seq<ConfigMode>)

  /** The configurations of the given mode, in order. */
  function MatchingModes(configs: seq<TuningConfig>, mode: ConfigMode): (r: seq<ConfigMode>)
    ensures |r| <= |configs|
    ensures forall i :: 0 <= i < |r| ==> r[i] == mode
    ensures r == [] <==> forall i :: 0 <= i < |configs| ==> configs[i].configMode != mode
  {
    if configs == [] then []
    else
      var last := if configs[|configs| - 1].configMode == mode then [mode] else [];
      MatchingModes(configs[..|configs| - 1], mode) + last
  }

  /** The loop pushing every configuration of the given mode. */
  method AppendMatching(configs: seq<TuningConfig>, mode: ConfigMode, modes: seq<ConfigMode>) returns (out: seq<ConfigMode>)
    ensures out == modes + MatchingModes(configs, mode)
  {
    out := modes;
    var i := 0;
    while i < |configs|
      invariant i <= |configs|
      invariant out == modes + MatchingModes(configs[..i], mode)
    {
      assert configs[..i + 1][..i] == configs[..i];
      if configs[i].configMode == mode {
        SeqAssoc(modes, MatchingModes(configs[..i], mode), [mode]);
        out := out + [configs[i].configMode];
      } else {
        assert MatchingModes(configs[..i + 1], mode) == MatchingModes(configs[..i], mode) + [];
      }
      i := i + 1;
    }
    assert configs[..i] == configs;
  }

  /** The indices of the weight-grid tables of the given size, in order. */
  function MatchingTables(tables: seq<WeightGridTable>, width: int, height: int): (r: seq<nat>)
    ensures forall i :: 0 <= i < |r| ==> r[i] < |tables| && tables[r[i]].width == width && tables[r[i]].height == height
    ensures forall i, j :: 0 <= i < j < |r| ==> r[i] < r[j]
    ensures forall k :: 0 <= k < |tables| && tables[k].width == width && tables[k].height == height ==> k in r
  {
    if tables == [] then []
    else
      var n := |tables| - 1;
      MatchingTables(tables[..n], width, height)
        + (if tables[n].width == width && tables[n].height == height then [n] else [])
  }

  class StaticCameraInfo {
    var mediaCtlConfs: seq<MediaCtlConf>
    var streamToMcMap: seq<McMapEntry>
    var currentMcConf: Option<nat>
    var supportedISysFormat: seq<int>
    var iSysFourcc: int
    var hdrExposureNum: int
    var dolVbpOffset: seq<int>
    var supportedTuningConfig: seq<TuningConfig>
    var configModesForAuto: seq<ConfigMode>
    var configModeToStreamId: map<ConfigMode, int>
    var wgTable: seq<WeightGridTable>

    /** The current configuration, when set, is one of the camera's configurations. */
    predicate Valid()
      reads this
    {
      currentMcConf.Some? ==> currentMcConf.value < |mediaCtlConfs|
    }

    constructor (confs: seq<MediaCtlConf>, table: seq<McMapEntry>, isysFormats: seq<int>)
      ensures Valid()
      ensures mediaCtlConfs == confs && streamToMcMap == table && supportedISysFormat == isysFormats
      ensures currentMcConf.None? && dolVbpOffset == [] && supportedTuningConfig == []
      ensures configModesForAuto == [] && configModeToStreamId == map[] && wgTable == []
    {
      mediaCtlConfs := confs;
      streamToMcMap := table;
      currentMcConf := None;
      supportedISysFormat := isysFormats;
      iSysFourcc := 0;
      hdrExposureNum := 0;
      dolVbpOffset := [];
      supportedTuningConfig := [];
      configModesForAuto := [];
      configModeToStreamId := map[];
      wgTable := [];
    }

    /** getMediaCtlConf. */
    function CurrentMc(): (r: Option<MediaCtlConf>)
      reads this
      requires Valid()
      ensures r.Some? <==> currentMcConf.Some?
      ensures r.Some? ==> r.value == mediaCtlConfs[currentMcConf.value]
    {
      if currentMcConf.None? then None else Some(mediaCtlConfs[currentMcConf.value])
    }

    /** isVideoNodeEnabled: false without a current configuration. */
    predicate IsVideoNodeEnabled(t: VideoNodeType)
      reads this
      requires Valid()
    {
      CurrentMc().Some? && t in CurrentMc().value.videoNodes
    }

    /** getExposureNum: the HDR count when HDR is on, else one plus the enabled DOL short and medium nodes. */
    function GetExposureNum(hdrEnabled: bool): (n: int)
      reads this
      requires Valid()
      ensures hdrEnabled ==> n == hdrExposureNum
      ensures !hdrEnabled ==> 1 <= n <= 3
      ensures !hdrEnabled ==> (n == 1 <==> !IsVideoNodeEnabled(VIDEO_GENERIC_SHORT_EXPO) && !IsVideoNodeEnabled(VIDEO_GENERIC_MEDIUM_EXPO))
      ensures !hdrEnabled ==> (n == 3 <==> IsVideoNodeEnabled(VIDEO_GENERIC_SHORT_EXPO) && IsVideoNodeEnabled(VIDEO_GENERIC_MEDIUM_EXPO))
    {
      if hdrEnabled then hdrExposureNum
      else
        1 + (if IsVideoNodeEnabled(VIDEO_GENERIC_SHORT_EXPO) then 1 else 0)
          + (if IsVideoNodeEnabled(VIDEO_GENERIC_MEDIUM_EXPO) then 1 else 0)
    }

    /** getFixedVbp: -1 without a current configuration. */
    function GetFixedVbp(): int
      reads this
      requires Valid()
    {
      if CurrentMc().None? then -1 else CurrentMc().value.vbp
    }

    predicate NeedHandleVbpInMetaData(mode: ConfigMode)
      reads this
      requires Valid()
    {
      if mode != CONFIG_HDR then false
      else if GetFixedVbp() >= 0 then false
      else |dolVbpOffset| > 0
    }

    predicate NeedSetVbp(mode: ConfigMode)
      reads this
      requires Valid()
    {
      if mode != CONFIG_HDR then false
      else if GetFixedVbp() >= 0 then true
      else |dolVbpOffset| > 0
    }

    /**
     * Outside HDR neither predicate holds; a fixed VBP needs setting but no
     * metadata handling; otherwise both follow the dynamic offsets.  So
     * handling VBP in metadata always implies setting it.
     */
    lemma VbpPredicates(mode: ConfigMode)
      requires Valid()
      ensures mode != CONFIG_HDR ==> !NeedSetVbp(mode) && !NeedHandleVbpInMetaData(mode)
      ensures mode == CONFIG_HDR && GetFixedVbp() >= 0 ==> NeedSetVbp(mode) && !NeedHandleVbpInMetaData(mode)
      ensures mode == CONFIG_HDR && GetFixedVbp() < 0 ==>
        (NeedSetVbp(mode) <==> |dolVbpOffset| > 0) && (NeedHandleVbpInMetaData(mode) <==> |dolVbpOffset| > 0)
      ensures NeedHandleVbpInMetaData(mode) ==> NeedSetVbp(mode)
    {
    }

    /** getStreamIdByConfigMode: -1 for a mode the map does not hold. */
    function GetStreamIdByConfigMode(mode: ConfigMode): (id: int)
      reads this
      ensures mode !in configModeToStreamId ==> id == -1
      ensures mode in configModeToStreamId ==> id == configModeToStreamId[mode]
    {
      if mode in configModeToStreamId then configModeToStreamId[mode] else -1
    }

    /** selectMcConf: the first of the three searches that succeeds becomes the current configuration. */
    method SelectMcConf(stream: Stream, mode: ConfigMode, mcId: int)
      requires Valid()
      modifies this
      ensures Valid()
      ensures currentMcConf == McConfSelection(mediaCtlConfs, streamToMcMap, stream, mode, mcId)
      ensures mediaCtlConfs == old(mediaCtlConfs) && streamToMcMap == old(streamToMcMap)
      ensures supportedISysFormat == old(supportedISysFormat) && iSysFourcc == old(iSysFourcc)
      ensures hdrExposureNum == old(hdrExposureNum) && dolVbpOffset == old(dolVbpOffset)
      ensures supportedTuningConfig == old(supportedTuningConfig) && configModesForAuto == old(configModesForAuto)
      ensures configModeToStreamId == old(configModeToStreamId) && wgTable == old(wgTable)
    {
      var mc := GetMcConfByMcId(mediaCtlConfs, mcId);
      if mc.None? {
        mc := GetMcConfByConfigMode(mediaCtlConfs, stream, mode);
      }
      if mc.None? {
        mc := GetMcConfByStream(mediaCtlConfs, streamToMcMap, stream);
      }
      currentMcConf := mc;
    }

    /**
     * selectISysFormat: the current configuration's format unless absent or
     * -1, else the requested format when supported, else the first supported
     * one.  The code indexes the supported list without checking that it is
     * non-empty: that read past the end is reported as `defined == false`,
     * and the ISYS format is then left as it was.
     */
    method SelectISysFormat(format: int) returns (defined: bool)
      requires Valid()
      modifies this
      ensures !defined <==> (old(CurrentMc()).None? || old(CurrentMc()).value.format == -1)
                            && format !in supportedISysFormat && |supportedISysFormat| == 0
      ensures !defined ==> iSysFourcc == old(iSysFourcc)
      ensures Valid()
      ensures mediaCtlConfs == old(mediaCtlConfs) && streamToMcMap == old(streamToMcMap) && currentMcConf == old(currentMcConf)
      ensures supportedISysFormat == old(supportedISysFormat)
      ensures old(CurrentMc()).Some? && old(CurrentMc()).value.format != -1 ==> iSysFourcc == old(CurrentMc()).value.format
      ensures (old(CurrentMc()).None? || old(CurrentMc()).value.format == -1) && format in supportedISysFormat
        ==> iSysFourcc == format
      ensures (old(CurrentMc()).None? || old(CurrentMc()).value.format == -1) && format !in supportedISysFormat
              && |supportedISysFormat| > 0
        ==> iSysFourcc == supportedISysFormat[0]
      ensures defined ==> iSysFourcc in supportedISysFormat || (old(CurrentMc()).Some? && iSysFourcc == old(CurrentMc()).value.format)
      ensures hdrExposureNum == old(hdrExposureNum) && dolVbpOffset == old(dolVbpOffset)
      ensures supportedTuningConfig == old(supportedTuningConfig) && configModesForAuto == old(configModesForAuto)
      ensures configModeToStreamId == old(configModeToStreamId) && wgTable == old(wgTable)
    {
      var mc := CurrentMc();
      defined := true;
      if mc.Some? && mc.value.format != -1 {
        iSysFourcc := mc.value.format;
      } else if format in supportedISysFormat {
        iSysFourcc := format;
      } else if |supportedISysFormat| > 0 {
        iSysFourcc := supportedISysFormat[0];
      } else {
        defined := false;
      }
    }

    /**
     * getWeightGrild: the index-th (counting from 1) table of the given size,
     * or none when fewer tables have that size.
     */
    method GetWeightGrid(width: int, height: int, index: int) returns (r: Option<nat>)
      ensures var ms := MatchingTables(wgTable, width, height);
        r == if 1 <= index <= |ms| then Some(ms[index - 1]) else None
    {
      var matchingCount := 0;
      var i := 0;
      while i < |wgTable|
        invariant i <= |wgTable|
        invariant matchingCount == |MatchingTables(wgTable[..i], width, height)|
        invariant matchingCount < index || index < 1
      {
        MatchingTablesPrefix(wgTable, i, width, height);
        if wgTable[i].width == width && wgTable[i].height == height {
          matchingCount := matchingCount + 1;
          if matchingCount == index {
            MatchingTablesGrow(wgTable, i + 1, width, height);
            return Some(i);
          }
        }
        i := i + 1;
      }
      assert wgTable[..i] == wgTable;
      return None;
    }

    /**
     * getConfigModesByOperationMode: INVALID_OPERATION without tuning
     * configurations; for AUTO the auto list replaces the vector, or the
     * first tuning configuration's mode is appended when that list is empty;
     * for any other mode every configuration of that mode is appended.  The
     * status is OK exactly when the vector ends non-empty.
     */
    method GetConfigModesByOperationMode(operationMode: ConfigMode, configModes: seq<ConfigMode>) returns (r: ConfigModes)
      ensures supportedTuningConfig == [] ==> r == ConfigModes(INVALID_OPERATION, configModes)
      ensures supportedTuningConfig != [] && operationMode == CONFIG_AUTO && configModesForAuto == []
        ==> r.modes == configModes + [supportedTuningConfig[0].configMode]
      ensures supportedTuningConfig != [] && operationMode == CONFIG_AUTO && configModesForAuto != []
        ==> r.modes == configModesForAuto
      ensures supportedTuningConfig != [] && operationMode != CONFIG_AUTO
        ==> r.modes == configModes + MatchingModes(supportedTuningConfig, operationMode)
      ensures supportedTuningConfig != [] ==> (r.status == OK <==> |r.modes| > 0)
      ensures r.status == OK || r.status == INVALID_OPERATION
    {
      if supportedTuningConfig == [] {
        return ConfigModes(INVALID_OPERATION, configModes);
      }
      var modes := configModes;
      if operationMode == CONFIG_AUTO {
        if configModesForAuto == [] {
          modes := modes + [supportedTuningConfig[0].configMode];
        } else {
          modes := configModesForAuto;
        }
      } else {
        modes := AppendMatching(supportedTuningConfig, operationMode, modes);
      }
      if |modes| > 0 {
        return ConfigModes(OK, modes);
      }
      return ConfigModes(INVALID_OPERATION, modes);
    }

    /**
     * calculateFrameParams over the current configuration, or the first one
     * when none is current (the source indexes it unchecked).
     */
    method CalculateFrameParams() returns (status: Status, params: SensorFrameParams)
      requires Valid()
      requires currentMcConf.None? ==> |mediaCtlConfs| > 0
      ensures var formats := if currentMcConf.Some? then mediaCtlConfs[currentMcConf.value].formats else mediaCtlConfs[0].formats;
        var scan := FrameScanOf(formats);
        (status == OK <==> scan.Some?) && (status != OK ==> status == BAD_VALUE)
          && (scan.Some? ==> params == scan.value.params)
    {
      var mc := CurrentMc();
      var formats := if mc.Some? then mc.value.formats else mediaCtlConfs[0].formats;
      status, params := ScanFormats(formats);
    }
  }

  /** The loop of calculateFrameParams over one configuration's format list. */
  method ScanFormats(formats: seq<McFormat>) returns (status: Status, params: SensorFrameParams)
    ensures var scan := FrameScanOf(formats);
      (status == OK <==> scan.Some?) && (status != OK ==> status == BAD_VALUE)
        && (scan.Some? ==> params == scan.value.params)
  {
    var s := INITIAL_SCAN;
    params := CLEARED_PARAMS;
    var i := 0;
    while i < |formats|
      invariant i <= |formats|
      invariant FrameScanOf(formats) == Run(Some(s), formats[i..])
      invariant params == s.params
    {
      assert formats[i..][1..] == formats[i + 1..];
      var current := formats[i];
      if !s.pixArraySizeFound && current.width > 0 && current.height > 0 {
        s := s.(width := current.width, height := current.height, pixArraySizeFound := true);
        params := Publish(s);
        s := s.(params := params);
      }
      if current.formatType != FC_SELECTION {
        i := i + 1;
        continue;
      }
      if current.selCmd == V4L2_SEL_TGT_CROP {
        s := s.(width := current.width * s.horizontalBin, horizontalOffset := current.left * s.horizontalBin,
                height := current.height * s.verticalBin, verticalOffset := current.top * s.verticalBin);
      } else if current.selCmd == V4L2_SEL_TGT_COMPOSE {
        if s.width == 0 || s.height == 0 {
          RunFailSticky(formats[i + 1..]);
          return BAD_VALUE, params;
        }
        if current.width == 0 || current.height == 0 {
          RunFailSticky(formats[i + 1..]);
          return BAD_VALUE, params;
        }
        s := s.(horizontalBin := s.width / current.width,
                horizontalBinNum := s.width * SCALE_FACTOR_COEF / current.width,
                horizontalBinDenom := SCALE_FACTOR_COEF,
                verticalBin := s.height / current.height,
                verticalBinNum := s.height * SCALE_FACTOR_COEF / current.height,
                verticalBinDenom := SCALE_FACTOR_COEF);
      } else {
        i := i + 1;
        continue;
      }
      params := Publish(s);
      s := s.(params := params);
      i := i + 1;
    }
    return OK, params;
  }

  lemma {:induction false} MatchingTablesGrow(tables: seq<WeightGridTable>, i: nat, width: int, height: int)
    requires i <= |tables|
    ensures MatchingTables(tables[..i], width, height) <= MatchingTables(tables, width, height)
    decreases |tables|
  {
    if i < |tables| {
      var n := |tables| - 1;
      MatchingTablesGrow(tables[..n], i, width, height);
      assert tables[..n][..i] == tables[..i];
    } else {
      assert tables[..i] == tables;
    }
  }

  lemma MatchingTablesPrefix(tables: seq<WeightGridTable>, i: nat, width: int, height: int)
    requires i < |tables|
    ensures MatchingTables(tables[..i + 1], width, height)
      == MatchingTables(tables[..i], width, height)
        + (if tables[i].width == width && tables[i].height == height then [i] else [])
  {
    assert tables[..i + 1][..i] == tables[..i];
  }
}
