/**
 * The sample customized 3A library: the fixed-point global tone curve of
 * the LTM DRC parameters, the rounding right shift it uses, the library's
 * global state (frame counter, HDR RGBS statistics copy, GBCE tables) and
 * the table-cycling AE and AWB results.  The post-gamma histogram is float
 * arithmetic written to dump files and is not part of this model.
 */
module Custom3A {
  import opened Common
  import opened AiqUtils

  /* ------------------------- fixed-point helpers ------------------------- */

  /** A C `short`: an int truncated to 16 bits, two's complement. */
  function ToShort(v: int): (s: int)
    ensures -32768 <= s < 32768
    ensures -32768 <= v < 32768 ==> s == v
    ensures (s - v) % 65536 == 0
  {
    (v + 32768) % 65536 - 32768
  }

  /** ROUND_RSHIFT: a right shift by `s` rounding to the nearest integer (halves upward); no shift when s is 0. */
  function RoundRshift(x: int, s: nat): int
  {
    if s == 0 then x else (x + Pow2(s - 1)) / Pow2(s)
  }

  /** The rounded shift is the nearest multiple: |x - r * 2^s| stays within half a step. */
  lemma RoundRshiftNearest(x: int, s: nat)
    requires s > 0
    ensures RoundRshift(x, s) * Pow2(s) - Pow2(s - 1) <= x < RoundRshift(x, s) * Pow2(s) + Pow2(s - 1)
  {
    var h := Pow2(s - 1);
    var d := Pow2(s);
    assert d == 2 * h;
    var q := (x + h) / d;
    var m := (x + h) % d;
    assert x + h == q * d + m && 0 <= m < d;
  }

  /** The quotient is the q that brackets x. */
  lemma DivUnique(x: int, d: int, q: int)
    requires d > 0 && q * d <= x < q * d + d
    ensures x / d == q
  {
    var q' := x / d;
    assert q' * d <= x < q' * d + d;
    if q' > q {
      NonNegProduct(q' - q - 1, d);
    } else if q' < q {
      NonNegProduct(q - q' - 1, d);
    }
  }

  /** An exact multiple of 2^s is shifted without rounding. */
  lemma RoundRshiftExact(k: int, s: nat)
    ensures RoundRshift(k * Pow2(s), s) == k
  {
    if s > 0 {
      var h := Pow2(s - 1);
      assert Pow2(s) == 2 * h;
      DivUnique(k * Pow2(s) + h, Pow2(s), k);
    }
  }

  /** floor(log2(a)) for a positive a. */
  function Log2(a: nat): nat
    requires a >= 1
  {
    if a < 2 then 0 else 1 + Log2(a / 2)
  }

  lemma {:induction false} Log2Bounds(a: nat)
    requires a >= 1
    ensures Pow2(Log2(a)) <= a < Pow2(Log2(a) + 1)
  {
    if a >= 2 {
      Log2Bounds(a / 2);
    }
  }

  /** The tone-curve segment of an input: the position of its highest set bit (of 1 for input 0). */
  function Segment(x: nat): (idx: nat)
    requires x < 65536
    ensures Pow2(idx) <= Max(x, 1) < Pow2(idx + 1)
    ensures idx < 16
  {
    Log2Bounds(Max(x, 1));
    Log2Below16(Max(x, 1));
    Log2(Max(x, 1))
  }

  lemma Log2Below16(a: nat)
    requires 1 <= a < 65536
    ensures Log2(a) < 16
  {
    Log2Bounds(a);
    if Log2(a) >= 16 {
      Pow2Grows(16, Log2(a));
      Pow2Of16();
    }
  }

  lemma Pow2Of16()
    ensures Pow2(16) == 65536
  {
    assert Pow2(4) == 16;
    assert Pow2(8) == 256 by {
      assert Pow2(8) == 16 * Pow2(4);
    }
    assert Pow2(12) == 4096 by {
      assert Pow2(12) == 16 * Pow2(8);
    }
    assert Pow2(16) == 16 * Pow2(12);
  }

  /* ------------------------------ tone curve ------------------------------ */

  /** The global tone map of the DRC parameters: a piecewise-linear curve over power-of-two segments. */
  datatype Gtm = Gtm(bypass: bool, gainFracBit: nat, slopeResolution: nat,
                     offsets: seq<int>, slopes: seq<int>, xCords: seq<int>)

  /** The shifts are defined in C and the tables cover the sixteen segments of a 16-bit input. */
  predicate GtmUsable(g: Gtm)
  {
    g.gainFracBit <= 30 && g.slopeResolution <= 31 &&
    |g.offsets| >= 16 && |g.slopes| >= 16 && |g.xCords| >= 16
  }

  /**
   * calcGtm: the gain 1 << frac when bypassed; otherwise the segment's
   * slope times the distance from the segment start, round-shifted by the
   * slope resolution and stored in a short, shifted down by the segment's
   * excess over frac + 1, plus the segment offset, stored in a short.
   */
  function GtmCurve(x: nat, g: Gtm): (y: int)
    requires x < 65536 && GtmUsable(g)
    ensures -32768 <= y < 32768
  {
    if g.bypass then ToShort(Pow2(g.gainFracBit))
    else
      var idx := Segment(x);
      var y := ToShort(RoundRshift(g.slopes[idx] * (x - g.xCords[idx]), g.slopeResolution));
      ToShort(y / Pow2(Max(idx - g.gainFracBit - 1, 0)) + g.offsets[idx])
  }

  /** The loop of calcGtm that finds the segment: shift until nothing is left. */
  method SegmentOf(x: nat) returns (idx: int)
    requires x < 65536
    ensures idx == Segment(x)
  {
    var a := Max(x, 1);
    idx := -1;
    while a != 0
      invariant a >= 0
      invariant a > 0 ==> idx + 1 + Log2(a) == Log2(Max(x, 1))
      invariant a == 0 ==> idx == Log2(Max(x, 1))
      decreases a
    {
      a := a / 2;
      idx := idx + 1;
    }
  }

  /** calcGtm. */
  method CalcGtm(x: nat, g: Gtm) returns (y: int)
    requires x < 65536 && GtmUsable(g)
    ensures y == GtmCurve(x, g)
  {
    y := ToShort(Pow2(g.gainFracBit));
    if !g.bypass {
      var idx := SegmentOf(x);
      var offset := g.offsets[idx];
      var slope := g.slopes[idx];
      var xPrev := g.xCords[idx];
      y := ToShort(RoundRshift(slope * (x - xPrev), g.slopeResolution));
      y := y / Pow2(Max(idx - g.gainFracBit - 1, 0));
      y := ToShort(y + offset);
    }
  }

  /** Bypassed, every input gets the unit gain of the fraction format. */
  lemma BypassIsUnitGain(x: nat, x': nat, g: Gtm)
    requires x < 65536 && x' < 65536 && GtmUsable(g) && g.bypass
    ensures GtmCurve(x, g) == GtmCurve(x', g)
    ensures g.gainFracBit < 15 ==> GtmCurve(x, g) == Pow2(g.gainFracBit)
  {
    if g.gainFracBit < 15 {
      Pow2Grows(g.gainFracBit, 14);
      assert Pow2(14) == 16384;
    }
  }

  /** At the start of a segment the curve is that segment's offset. */
  lemma CurveMeetsOffsetAtKnot(x: nat, g: Gtm)
    requires x < 65536 && GtmUsable(g) && !g.bypass
    requires x == g.xCords[Segment(x)] && 0 <= g.offsets[Segment(x)] < 32768
    ensures GtmCurve(x, g) == g.offsets[Segment(x)]
  {
    var idx := Segment(x);
    assert g.slopes[idx] * (x - g.xCords[idx]) == 0 * Pow2(g.slopeResolution);
    RoundRshiftExact(0, g.slopeResolution);
    var y := ToShort(RoundRshift(0, g.slopeResolution));
    assert y == 0;
    assert y / Pow2(Max(idx - g.gainFracBit - 1, 0)) == 0;
  }

  /* ----------------------------- statistics ----------------------------- */

  datatype HdrBlock = HdrBlock(avgR: int, avgGr: int, avgGb: int, avgB: int, sat: int)

  /** An HDR RGBS grid handed in with the statistics. */
  datatype HdrGrid = HdrGrid(width: nat, height: nat, bitDepth: int, shading: int, blocks: seq<HdrBlock>)

  /** initHdrRgbsGrid as written: a successful copy falls off the end of the function with no value. */
  function InitHdrRgbsGridResultAsWritten(src: Option<HdrGrid>): (rc: Option<int>)
    ensures src.None? ==> rc == Some(-1)
  {
    if src.None? then Some(-1) else None
  }

  /** A caller testing the result of a successful copy reads an indeterminate value. */
  lemma SuccessfulCopyHasNoResult(g: HdrGrid)
    ensures InitHdrRgbsGridResultAsWritten(Some(g)).None?
  {
  }

  /** The library's copy of the HDR RGBS statistics grid. */
  class IspStatistics {
    var gridWidth: int
    var gridHeight: int
    var bitDepth: int
    var shading: int
    /** blocks_ptr; `hasBlocks` is false where the source holds a null pointer. */
    var blocks: array<HdrBlock>
    var hasBlocks: bool

    predicate Valid()
      reads this
    {
      hasBlocks ==> blocks.Length == gridWidth * gridHeight
    }

    constructor ()
      ensures Valid() && !hasBlocks && gridWidth == 0 && gridHeight == 0
    {
      gridWidth, gridHeight, bitDepth, shading := 0, 0, 0, 0;
      blocks := new HdrBlock[0];
      hasBlocks := false;
    }

    /**
     * initHdrRgbsGrid, with the corrected return value 0 on success: -1
     * without a grid; otherwise the dimensions are taken over, the block
     * buffer is reallocated only when the dimensions changed (or none was
     * held), and width * height blocks are copied.
     */
    method InitHdrRgbsGrid(src: Option<HdrGrid>) returns (rc: int)
      requires Valid()
      requires src.Some? ==> |src.value.blocks| >= src.value.width * src.value.height
      modifies this, blocks
      ensures Valid()
      ensures src.None? ==> (rc == -1 && blocks == old(blocks) && hasBlocks == old(hasBlocks) &&
        blocks[..] == old(blocks[..]) && gridWidth == old(gridWidth) && gridHeight == old(gridHeight) &&
        bitDepth == old(bitDepth) && shading == old(shading))
      ensures src.Some? ==> (rc == 0 && hasBlocks &&
        gridWidth == src.value.width && gridHeight == src.value.height &&
        bitDepth == src.value.bitDepth && shading == src.value.shading &&
        blocks[..] == src.value.blocks[..src.value.width * src.value.height])
      ensures src.Some? ==>
        (if old(hasBlocks) && old(gridWidth) == src.value.width && old(gridHeight) == src.value.height
         then blocks == old(blocks) else fresh(blocks))
    {
      if src.None? {
        return -1;
      }
      var g := src.value;
      if gridWidth != g.width || gridHeight != g.height {
        hasBlocks := false;
      }
      gridWidth := g.width;
      gridHeight := g.height;
      bitDepth := g.bitDepth;
      shading := g.shading;
      if !hasBlocks {
        blocks := new HdrBlock[gridWidth * gridHeight];
        hasBlocks := true;
      }
      var n := gridHeight * gridWidth;
      var i := 0;
      while i < n
        invariant 0 <= i <= n == blocks.Length
        invariant blocks[..i] == g.blocks[..i]
        invariant gridWidth == g.width && gridHeight == g.height && hasBlocks
        invariant bitDepth == g.bitDepth && shading == g.shading
        invariant blocks == old(blocks) || fresh(blocks)
        invariant (old(hasBlocks) && old(gridWidth) == g.width && old(gridHeight) == g.height) ==>
          blocks == old(blocks)
        invariant !(old(hasBlocks) && old(gridWidth) == g.width && old(gridHeight) == g.height) ==>
          fresh(blocks)
      {
        blocks[i] := g.blocks[i];
        i := i + 1;
      }
      assert blocks[..] == blocks[..n];
      rc := 0;
    }
  }

  /* ------------------------------ AE and AWB ------------------------------ */

  const MAX_AE_LOOP_NUM: int := 30
  const MAX_AWB_LOOP_NUM: int := 30

  /** The table row runAe and runAwb read, as written: the counter modulo 30 with C's remainder. */
  function TableRowAsWritten(index: int): int
  {
    if index >= 0 then index % MAX_AE_LOOP_NUM else -((-index) % MAX_AE_LOOP_NUM)
  }

  /** runAe or runAwb right after init, before any statistics, reads the row before the table. */
  lemma RunBeforeStatisticsReadsRowMinusOne()
    ensures TableRowAsWritten(-1) == -1
  {
  }

  /** The table row, corrected: the tables cycle from row 0, which also serves the runs before any statistics. */
  function TableRow(index: int): (row: int)
    ensures 0 <= row < MAX_AE_LOOP_NUM
    ensures index >= 0 ==> row == TableRowAsWritten(index)
  {
    if index < 0 then 0 else index % MAX_AE_LOOP_NUM
  }

  /** The rows repeat with period 30 as the counter advances. */
  lemma TableRowCycles(index: int)
    requires index >= 0
    ensures TableRow(index + MAX_AE_LOOP_NUM) == TableRow(index)
    ensures TableRow(index + 1) == (if TableRow(index) == MAX_AE_LOOP_NUM - 1 then 0 else TableRow(index) + 1)
  {
  }

  /** One row of exposure_parameters: the same for all thirty rows. */
  datatype Exposure = Exposure(exposureTimeUs: int, analogGain: real, digitalGain: real, apertureFn: real,
                               totalTargetExposure: int, ndFilterEnabled: bool, iso: int)

  /** One row of sensor_exposure_parameters. */
  datatype SensorExposure = SensorExposure(fineIntegrationTime: int, coarseIntegrationTime: int,
                                           analogGainCodeGlobal: int, digitalGainGlobal: int,
                                           lineLengthPixels: int, frameLengthLines: int)

  function ExposureRow(row: int): Exposure
    requires 0 <= row < MAX_AE_LOOP_NUM
  {
    Exposure(1877, 3.7, 1.0, 1.4, 6974, false, 167)
  }

  /** The sensor table steps through three exposures, ten frames each. */
  function SensorExposureRow(row: int): (e: SensorExposure)
    requires 0 <= row < MAX_AE_LOOP_NUM
    ensures e.fineIntegrationTime == 0 && e.digitalGainGlobal == 256
    ensures e.lineLengthPixels == 2200 && e.frameLengthLines == 1135
  {
    if row < 10 then SensorExposure(0, 10, 10, 256, 2200, 1135)
    else if row < 20 then SensorExposure(0, 30, 20, 256, 2200, 1135)
    else SensorExposure(0, 50, 30, 256, 2200, 1135)
  }

  /** Every ten frames the integration time and the analog gain code step up, then the cycle restarts. */
  lemma SensorExposureSteps(i: int, j: int)
    requires 0 <= i < j < MAX_AE_LOOP_NUM && i / 10 < j / 10
    ensures SensorExposureRow(i).coarseIntegrationTime < SensorExposureRow(j).coarseIntegrationTime
    ensures SensorExposureRow(i).analogGainCodeGlobal < SensorExposureRow(j).analogGainCodeGlobal
  {
  }

  datatype ApertureControl = ApertureControl(apertureFn: int, dcIrisOpen: bool, code: int)

  /** What runAe writes into the caller's results. */
  datatype AeResults = AeResults(exposure: Exposure, sensorExposure: SensorExposure, exposureIndex: int,
                                 distanceFromConvergence: int, converged: bool, numExposurePlan: int,
                                 apertureControl: Option<ApertureControl>, numExposures: int,
                                 numFlashes: int, bracketNone: bool, flicker50Hz: bool)

  /** One row of awb_result. */
  datatype AwbResults = AwbResults(accurateRPerG: real, accurateBPerG: real, finalRPerG: real,
                                   finalBPerG: real, cctEstimate: int, distanceFromConvergence: real)

  /** The AWB table: the red ratio steps up every ten frames; the rest stays. */
  function AwbRow(row: int): (r: AwbResults)
    requires 0 <= row < MAX_AWB_LOOP_NUM
    ensures r.accurateRPerG == r.finalRPerG && r.accurateBPerG == r.finalBPerG == 0.514764
    ensures r.cctEstimate == 4808 && r.distanceFromConvergence == 0.0
  {
    var rg := if row < 10 then 0.116666 else if row < 20 then 0.216666 else 0.416666;
    AwbResults(rg, 0.514764, rg, 0.514764, 4808, 0.0)
  }

  /** GBCE results: the three gamma tables and the tone map table. */
  datatype GbceLuts = GbceLuts(rGamma: seq<real>, gGamma: seq<real>, bGamma: seq<real>, toneMap: seq<real>)

  /** What a frame's statistics bring: the RGBS grids and the HDR grid. */
  datatype StatsInput = StatsInput(numRgbsGrids: int, hasRgbsGrids: bool, hdrGrid: Option<HdrGrid>)

  predicate StatsUsable(input: Option<StatsInput>)
  {
    input.Some? && input.value.numRgbsGrids != 0 && input.value.hasRgbsGrids
  }

  /** The library's globals: the frame counter and the two result stores. */
  class Custom3ALib {
    /** g_custom_3a_index */
    var index: int
    /** gIspStatistics */
    var statistics: IspStatistics?
    /** gGbceResults */
    var gbce: Option<GbceLuts>

    constructor ()
      ensures index == -1 && statistics == null && gbce.None?
    {
      index := -1;
      statistics := null;
      gbce := None;
    }

    /** custom3AInit: the counter restarts and empty stores are allocated. */
    method Init() returns (rc: int)
      modifies this
      ensures rc == 0 && index == -1
      ensures statistics != null && fresh(statistics) && statistics.Valid() && !statistics.hasBlocks
      ensures gbce == Some(GbceLuts([], [], [], []))
    {
      index := -1;
      gbce := Some(GbceLuts([], [], [], []));
      statistics := new IspStatistics();
      rc := 0;
    }

    /** custom3ADeinit: the counter restarts and both stores are released. */
    method Deinit() returns (rc: int)
      modifies this
      ensures rc == 0 && index == -1 && statistics == null && gbce.None?
    {
      index := -1;
      gbce := None;
      statistics := null;
      rc := 0;
    }

    /**
     * custom3ASetStatistics: the counter advances before the input is looked
     * at; -1 without statistics, without a store, or without RGBS grids;
     * otherwise the HDR grid is copied (its own failure is ignored).
     */
    method SetStatistics(input: Option<StatsInput>) returns (rc: int)
      requires statistics != null ==> statistics.Valid()
      requires input.Some? && input.value.hdrGrid.Some? ==>
        |input.value.hdrGrid.value.blocks| >= input.value.hdrGrid.value.width * input.value.hdrGrid.value.height
      modifies this, if statistics == null then {} else {statistics, statistics.blocks}
      ensures index == old(index) + 1 && statistics == old(statistics) && gbce == old(gbce)
      ensures rc == -1 <==> statistics == null || !StatsUsable(input)
      ensures rc == 0 ==> statistics.Valid()
      ensures rc == 0 && input.value.hdrGrid.Some? ==>
        (statistics.hasBlocks && statistics.gridWidth == input.value.hdrGrid.value.width &&
         statistics.gridHeight == input.value.hdrGrid.value.height &&
         statistics.blocks[..] == input.value.hdrGrid.value.blocks[..statistics.gridWidth * statistics.gridHeight])
    {
      index := index + 1;
      if statistics == null || !StatsUsable(input) {
        return -1;
      }
      var _ := statistics.InitHdrRgbsGrid(input.value.hdrGrid);
      rc := 0;
    }

    /** custom3ASetGbceResults: -1 without a store; otherwise all four tables are replaced by the given ones. */
    method SetGbceResults(src: GbceLuts) returns (rc: int)
      modifies this
      ensures old(gbce).None? ==> rc == -1 && gbce.None?
      ensures old(gbce).Some? ==> rc == 0 && gbce == Some(src)
      ensures index == old(index) && statistics == old(statistics)
    {
      if gbce.None? {
        return -1;
      }
      gbce := Some(src);
      rc := 0;
    }

    /**
     * custom3ARunAe: -1 when the results or their exposure records are
     * missing; otherwise the table row of the counter, converged, one
     * exposure and no flash, with the aperture fully open when the caller
     * has an aperture record.
     */
    method RunAe(complete: bool, hasApertureControl: bool) returns (rc: int, r: Option<AeResults>)
      ensures rc == -1 <==> !complete
      ensures rc == -1 ==> r.None?
      ensures rc == 0 ==> (r.Some? &&
        r.value.exposure == ExposureRow(TableRow(index)) &&
        r.value.sensorExposure == SensorExposureRow(TableRow(index)) &&
        r.value.exposureIndex == index && r.value.converged && r.value.distanceFromConvergence == 0 &&
        r.value.numExposurePlan == 1 && r.value.numExposures == 1 && r.value.numFlashes == 0 &&
        r.value.bracketNone && r.value.flicker50Hz &&
        (r.value.apertureControl.Some? <==> hasApertureControl) &&
        (hasApertureControl ==> r.value.apertureControl.value == ApertureControl(-1, true, 1000)))
    {
      var row := TableRow(index);
      if !complete {
        return -1, None;
      }
      var aperture := if hasApertureControl then Some(ApertureControl(-1, true, 1000)) else None;
      r := Some(AeResults(ExposureRow(row), SensorExposureRow(row), index, 0, true, 1, aperture, 1, 0, true, true));
      rc := 0;
    }

    /** custom3ARunAwb: -1 without results; otherwise the AWB table row of the counter. */
    method RunAwb(present: bool) returns (rc: int, r: Option<AwbResults>)
      ensures rc == -1 <==> !present
      ensures rc == -1 ==> r.None?
      ensures rc == 0 ==> r == Some(AwbRow(TableRow(index)))
    {
      var row := TableRow(index);
      if !present {
        return -1, None;
      }
      r := Some(AwbRow(row));
      rc := 0;
    }
  }
}
