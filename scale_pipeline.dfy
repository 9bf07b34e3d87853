/**
 * The light-weight scaling pipe (src/core/psyslite/ScalePipeline.cpp): one
 * source frame is scaled and cropped into one to three output frames by
 * the output scalers (OFS) and DMA croppers of a PSYS program group.
 *
 * The pipe configures its kernels by writing into a kernel table and
 * resolution records that are globals of the source file, shared by every
 * pipe; here they are two arrays the pipe is given.  A kernel refers to its
 * resolution record by the record's index, so two kernels that share a
 * record in the source share an index here.
 */
module PSysScale {
  import opened Common
  import opened HalTypes
  import PgRequirements
  import Lite = PSysP2pLite
  import Base = PSysPipeBase

  /** FrameInfo: the fields of a frame the pipe reads. */
  datatype FrameInfo = FrameInfo(width: int, height: int, format: int, bpp: int, stride: int)

  /** ia_isp_bxt_crop_t. */
  datatype Crop = Crop(left: int, top: int, right: int, bottom: int)

  const NO_CROP: Crop := Crop(0, 0, 0, 0)

  /** ia_isp_bxt_resolution_info_t. */
  datatype ResolutionInfo = ResolutionInfo(
    inputWidth: int, inputHeight: int, inputCrop: Crop,
    outputWidth: int, outputHeight: int, outputCrop: Crop)

  /** osc_res_info and osc_720p_res_info as initialised. */
  const OSC_RES_INFO: ResolutionInfo := ResolutionInfo(640, 480, NO_CROP, 1920, 1080, NO_CROP)
  const OSC_720P_RES_INFO: ResolutionInfo := ResolutionInfo(1920, 1080, NO_CROP, 1280, 720, NO_CROP)

  /** The two records, at these indices. */
  const OSC_RES: nat := 0
  const OSC_720P_RES: nat := 1
  const RES_INFOS: seq<ResolutionInfo> := [OSC_RES_INFO, OSC_720P_RES_INFO]

  /** Positions in run_kernels_psys_scale, named after the kernel each holds. */
  const ISP_BXT_OFA_MP: nat := 0
  const ISP_BXT_OFA_DP: nat := 1
  const ISP_BXT_OFA_PPP: nat := 2
  const ISP_DMA_CROPPER_MP: nat := 3
  const ISP_DMA_CROPPER_DP: nat := 4
  const ISP_DMA_CROPPER_PPP: nat := 5
  const ISP_SC_OUTPUTSCALER_DP: nat := 6
  const ISP_SC_OUTPUTSCALER_PPP: nat := 7
  const RUN_KERNEL_COUNT: nat := 8

  const SCALE_STREAM_ID: nat := 60000

  /** An enabled kernel of the scale stream with cleared metadata. */
  function ScaleKernel(uuid: nat, resolution: Option<nat>): Lite.RunKernel
  {
    Lite.RunKernel(SCALE_STREAM_ID, uuid, true, resolution, [0, 0, 0, 0])
  }

  /**
   * run_kernels_psys_scale, for the kernels' PAL uuids in table order: the
   * three croppers share osc_720p_res_info and the two output scalers
   * share osc_res_info.
   */
  function RunKernelsPsysScale(uuids: seq<nat>): (t: seq<Lite.RunKernel>)
    requires |uuids| == RUN_KERNEL_COUNT
    ensures Wired(t, |RES_INFOS|)
    ensures forall i :: ISP_DMA_CROPPER_MP <= i <= ISP_DMA_CROPPER_PPP ==> t[i].resolution == Some(OSC_720P_RES)
  {
    [ScaleKernel(uuids[0], None), ScaleKernel(uuids[1], None), ScaleKernel(uuids[2], None),
     ScaleKernel(uuids[3], Some(OSC_720P_RES)), ScaleKernel(uuids[4], Some(OSC_720P_RES)),
     ScaleKernel(uuids[5], Some(OSC_720P_RES)),
     ScaleKernel(uuids[6], Some(OSC_RES)), ScaleKernel(uuids[7], Some(OSC_RES))]
  }

  /** Records for a table in which every cropper and output scaler has its own. */
  const OWN_RES_INFOS: seq<ResolutionInfo> :=
    [OSC_RES_INFO, OSC_720P_RES_INFO, OSC_RES_INFO, OSC_720P_RES_INFO, OSC_720P_RES_INFO]

  /** The table with a record of its own per cropper and output scaler, the DP pair keeping the original two. */
  function RunKernelsOwnRecords(uuids: seq<nat>): (t: seq<Lite.RunKernel>)
    requires |uuids| == RUN_KERNEL_COUNT
    ensures Wired(t, |OWN_RES_INFOS|) && OwnRecords(t)
  {
    [ScaleKernel(uuids[0], None), ScaleKernel(uuids[1], None), ScaleKernel(uuids[2], None),
     ScaleKernel(uuids[3], Some(3)), ScaleKernel(uuids[4], Some(OSC_720P_RES)), ScaleKernel(uuids[5], Some(4)),
     ScaleKernel(uuids[6], Some(OSC_RES)), ScaleKernel(uuids[7], Some(2))]
  }

  /**
   * A kernel table the pipe can configure: eight kernels with four metadata
   * words, every record reference within the records, and a record for
   * each cropper and output scaler.
   */
  predicate Wired(kernels: seq<Lite.RunKernel>, recordCount: nat)
  {
    && |kernels| == RUN_KERNEL_COUNT
    && (forall i :: 0 <= i < |kernels| ==> |kernels[i].metadata| == 4)
    && (forall i :: 0 <= i < |kernels| && kernels[i].resolution.Some? ==> kernels[i].resolution.value < recordCount)
    && (forall i :: ISP_DMA_CROPPER_MP <= i < RUN_KERNEL_COUNT ==> kernels[i].resolution.Some?)
  }

  /** No two croppers or output scalers share a record. */
  predicate OwnRecords(kernels: seq<Lite.RunKernel>)
    requires |kernels| == RUN_KERNEL_COUNT
  {
    forall i, j :: ISP_DMA_CROPPER_MP <= i < j < RUN_KERNEL_COUNT ==> kernels[i].resolution != kernels[j].resolution
  }

  // ---------------------------------------------------------------------
  // Output ports.
  // ---------------------------------------------------------------------

  const OUTPUT_PORTS: seq<Port> := [MAIN_PORT, SECOND_PORT, THIRD_PORT]

  predicate IsOutputPort(p: Port)
  {
    p == MAIN_PORT || p == SECOND_PORT || p == THIRD_PORT
  }

  /** The output ports of n outputs, in the order a std::map visits them. */
  function OutputPorts(n: nat): (ps: seq<Port>)
    requires n <= 3
    ensures |ps| == n && forall i :: 0 <= i < n ==> ps[i] == OUTPUT_PORTS[i]
  {
    if n == 0 then [] else if n == 1 then [MAIN_PORT] else if n == 2 then [MAIN_PORT, SECOND_PORT] else OUTPUT_PORTS
  }

  /** The destination frames a pipe is given: one to three outputs, on the first ports. */
  predicate OutputsValid(dst: map<Port, FrameInfo>)
  {
    && MAIN_PORT in dst
    && (THIRD_PORT in dst ==> SECOND_PORT in dst)
    && (forall p :: p in dst ==> IsOutputPort(p))
  }

  /** How many outputs there are, read off the ports. */
  function OutputCount(dst: map<Port, FrameInfo>): (n: nat)
    requires OutputsValid(dst)
    ensures 1 <= n <= 3 && forall p :: p in dst <==> p in OutputPorts(n)
    ensures forall p :: p in dst ==> PortIndex(p) < n
  {
    if THIRD_PORT in dst then 3 else if SECOND_PORT in dst then 2 else 1
  }

  /** The number of outputs is the size of the map. */
  lemma OutputCountIsSize(dst: map<Port, FrameInfo>)
    requires OutputsValid(dst)
    ensures |dst| == OutputCount(dst)
  {
    var n := OutputCount(dst);
    if n == 1 {
      assert dst.Keys == {MAIN_PORT};
    } else if n == 2 {
      assert dst.Keys == {MAIN_PORT, SECOND_PORT};
    } else {
      assert dst.Keys == {MAIN_PORT, SECOND_PORT, THIRD_PORT};
    }
  }

  /** The output scaler a port's frame goes through; SECOND_PORT has none. */
  function OfsKernel(p: Port): Option<nat>
  {
    match p
    case MAIN_PORT => Some(ISP_SC_OUTPUTSCALER_DP)
    case THIRD_PORT => Some(ISP_SC_OUTPUTSCALER_PPP)
    case _ => None
  }

  /** The cropper a port's frame goes through. */
  function DmaKernel(p: Port): nat
  {
    match p
    case SECOND_PORT => ISP_DMA_CROPPER_MP
    case THIRD_PORT => ISP_DMA_CROPPER_PPP
    case _ => ISP_DMA_CROPPER_DP
  }

  function OfsRecord(kernels: seq<Lite.RunKernel>, p: Port): Option<nat>
    requires |kernels| == RUN_KERNEL_COUNT
  {
    if OfsKernel(p).Some? then kernels[OfsKernel(p).value].resolution else None
  }

  function DmaRecord(kernels: seq<Lite.RunKernel>, recordCount: nat, p: Port): (r: nat)
    requires Wired(kernels, recordCount)
    ensures r < recordCount
  {
    kernels[DmaKernel(p)].resolution.value
  }

  /** With records of their own, two output ports touch no common record and a port's scaler and cropper differ. */
  lemma OwnRecordsApart(kernels: seq<Lite.RunKernel>, recordCount: nat, p: Port, q: Port)
    requires Wired(kernels, recordCount) && OwnRecords(kernels) && IsOutputPort(p) && IsOutputPort(q)
    ensures OfsRecord(kernels, p).Some? ==> OfsRecord(kernels, p).value != DmaRecord(kernels, recordCount, q)
    ensures p != q ==> DmaRecord(kernels, recordCount, p) != DmaRecord(kernels, recordCount, q)
    ensures p != q && OfsRecord(kernels, p).Some? && OfsRecord(kernels, q).Some? ==>
      OfsRecord(kernels, p).value != OfsRecord(kernels, q).value
  {
    assert OfsKernel(p).Some? ==> ISP_DMA_CROPPER_MP <= OfsKernel(p).value < RUN_KERNEL_COUNT && OfsKernel(p).value != DmaKernel(q);
    assert ISP_DMA_CROPPER_MP <= DmaKernel(p) < RUN_KERNEL_COUNT;
    assert p != q ==> DmaKernel(p) != DmaKernel(q);
    assert OfsKernel(p).Some? ==> kernels[OfsKernel(p).value].resolution != kernels[DmaKernel(q)].resolution;
  }

  // ---------------------------------------------------------------------
  // Crop geometry (setCropAndFormatInfo, 239-404).
  // ---------------------------------------------------------------------

  /** ALIGN(x, 2) on a signed value: the least even number not below x. */
  function AlignEven(x: int): (r: int)
    ensures r % 2 == 0 && x <= r <= x + 1
  {
    ((x + 1) / 2) * 2
  }

  /**
   * The centre crop from an input to an output size: the left and top
   * margins are half the excess rounded up to even, the right and bottom
   * margins the rest.
   */
  function CentreCrop(inWidth: int, inHeight: int, outWidth: int, outHeight: int): (c: Crop)
    ensures c.left + c.right + outWidth == inWidth && c.top + c.bottom + outHeight == inHeight
    ensures c.left % 2 == 0 && c.top % 2 == 0
    ensures outWidth <= inWidth ==> 0 <= c.right <= c.left + 1 && c.left <= c.right + 2
    ensures outHeight <= inHeight ==> 0 <= c.bottom <= c.top + 1 && c.top <= c.bottom + 2
  {
    var left := AlignEven(TruncDiv(inWidth - outWidth, 2));
    var top := AlignEven(TruncDiv(inHeight - outHeight, 2));
    Crop(left, top, inWidth - outWidth - left, inHeight - outHeight - top)
  }

  /** mCropRegion: a crop flag and the crop origin in half pixels. */
  datatype CropRegion = CropRegion(flag: int, x: int, y: int)

  /**
   * What an output scaler produces: with the crop flag clear, the size its
   * floating-point ratio logic picks (given); with the flag set, the source
   * size.
   */
  function ScalerOutput(src: FrameInfo, crop: CropRegion, scaled: Size): Size
  {
    if crop.flag == 0 then scaled else Size(src.width, src.height)
  }

  /** A cropper's input: its port's scaler output, or the source for SECOND_PORT. */
  function CropperInput(kernels: seq<Lite.RunKernel>, p: Port, src: FrameInfo, crop: CropRegion, scaled: Size): Size
    requires |kernels| == RUN_KERNEL_COUNT
  {
    if OfsRecord(kernels, p).Some? then ScalerOutput(src, crop, scaled) else Size(src.width, src.height)
  }

  /** A cropper's crop: centred with the flag clear, else the crop origin doubled and nothing on the far sides. */
  function CropperCrop(input: Size, f: FrameInfo, crop: CropRegion): Crop
  {
    if crop.flag == 0 then CentreCrop(input.width, input.height, f.width, f.height)
    else Crop(2 * crop.x, 2 * crop.y, 0, 0)
  }

  /** A record that configures a scaler from the source to a size. */
  predicate ScalerSet(r: ResolutionInfo, src: FrameInfo, out: Size)
  {
    r.inputWidth == src.width && r.inputHeight == src.height && r.outputWidth == out.width && r.outputHeight == out.height
  }

  /** A record that configures a cropper from an input to a frame. */
  predicate CropperSet(r: ResolutionInfo, input: Size, f: FrameInfo, crop: CropRegion)
  {
    && r.inputWidth == input.width && r.inputHeight == input.height
    && r.outputWidth == f.width && r.outputHeight == f.height
    && r.inputCrop == CropperCrop(input, f, crop)
  }

  /** The records after one output port's scaler, if any, and then its cropper are written. */
  function PortStep(recs: seq<ResolutionInfo>, kernels: seq<Lite.RunKernel>, p: Port, src: FrameInfo,
                    f: FrameInfo, crop: CropRegion, scaled: Size): (r: seq<ResolutionInfo>)
    requires Wired(kernels, |recs|)
    ensures |r| == |recs|
  {
    var ofs := OfsRecord(kernels, p);
    var out := ScalerOutput(src, crop, scaled);
    var recs1 :=
      if ofs.Some? then
        recs[ofs.value := recs[ofs.value].(inputWidth := src.width, inputHeight := src.height,
                                           outputWidth := out.width, outputHeight := out.height)]
      else recs;
    var d := DmaRecord(kernels, |recs|, p);
    var input := CropperInput(kernels, p, src, crop, scaled);
    recs1[d := recs1[d].(inputWidth := input.width, inputHeight := input.height,
                         outputWidth := f.width, outputHeight := f.height,
                         inputCrop := CropperCrop(input, f, crop))]
  }

  /** Every port of ps has a routed frame and a scaler size. */
  predicate Covered(ps: seq<Port>, routed: map<Port, FrameInfo>, scaled: map<Port, Size>)
  {
    forall q :: q in ps ==> q in routed && q in scaled
  }

  /** The records after the ports of ps are configured in order. */
  function CropFold(recs: seq<ResolutionInfo>, kernels: seq<Lite.RunKernel>, ps: seq<Port>, src: FrameInfo,
                    routed: map<Port, FrameInfo>, crop: CropRegion, scaled: map<Port, Size>): (r: seq<ResolutionInfo>)
    requires Wired(kernels, |recs|) && Covered(ps, routed, scaled)
    ensures |r| == |recs|
    decreases |ps|
  {
    if ps == [] then recs
    else
      var last := ps[|ps| - 1];
      assert last in ps;
      PortStep(CropFold(recs, kernels, ps[..|ps| - 1], src, routed, crop, scaled), kernels, last, src, routed[last], crop, scaled[last])
  }

  /**
   * With records of their own, every configured port ends with its scaler
   * set from the source to its scaler size and its cropper set from that
   * (or, for SECOND_PORT, from the source) to its frame.
   */
  lemma {:induction false} OwnRecordsConfigured(recs: seq<ResolutionInfo>, kernels: seq<Lite.RunKernel>, ps: seq<Port>,
                                                src: FrameInfo, routed: map<Port, FrameInfo>, crop: CropRegion,
                                                scaled: map<Port, Size>, p: Port)
    requires Wired(kernels, |recs|) && OwnRecords(kernels) && Covered(ps, routed, scaled)
    requires forall q :: q in ps ==> IsOutputPort(q)
    requires forall i, j :: 0 <= i < j < |ps| ==> ps[i] != ps[j]
    requires p in ps
    ensures var r := CropFold(recs, kernels, ps, src, routed, crop, scaled);
      && CropperSet(r[DmaRecord(kernels, |recs|, p)], CropperInput(kernels, p, src, crop, scaled[p]), routed[p], crop)
      && (OfsRecord(kernels, p).Some? ==> ScalerSet(r[OfsRecord(kernels, p).value], src, ScalerOutput(src, crop, scaled[p])))
    decreases |ps|
  {
    var last := ps[|ps| - 1];
    var init := ps[..|ps| - 1];
    assert last in ps;
    OwnRecordsApart(kernels, |recs|, p, last);
    OwnRecordsApart(kernels, |recs|, last, p);
    if p != last {
      assert p in init by {
        var k :| 0 <= k < |ps| && ps[k] == p;
        assert k < |ps| - 1;
        assert init[k] == p;
      }
      assert forall q :: q in init ==> q in ps;
      OwnRecordsConfigured(recs, kernels, init, src, routed, crop, scaled, p);
    }
  }

  /** The ports the cropper records of the shared table are written for: all three croppers write one record. */
  lemma SharedCropperRecord(uuids: seq<nat>, p: Port, q: Port)
    requires |uuids| == RUN_KERNEL_COUNT
    ensures DmaRecord(RunKernelsPsysScale(uuids), |RES_INFOS|, p) == DmaRecord(RunKernelsPsysScale(uuids), |RES_INFOS|, q) == OSC_720P_RES
  {
  }

  /**
   * As written, with two outputs of different sizes the main (display)
   * output's cropper ends up configured for the second output: a
   * 1920x1080 NV12 source scaled to 1280x720 on MAIN_PORT and 640x480 on
   * SECOND_PORT leaves the one cropper record with a 640x480 output.
   */
  lemma SharedCropperOverwritten(uuids: seq<nat>)
    requires |uuids| == RUN_KERNEL_COUNT
    ensures var kernels := RunKernelsPsysScale(uuids);
      var src := FrameInfo(1920, 1080, V4L2_PIX_FMT_NV12, 12, 1920);
      var main := FrameInfo(1280, 720, V4L2_PIX_FMT_NV12, 12, 1280);
      var second := FrameInfo(640, 480, V4L2_PIX_FMT_NV12, 12, 640);
      var routed := map[MAIN_PORT := main, SECOND_PORT := second];
      var scaled := map[MAIN_PORT := Size(1280, 720), SECOND_PORT := Size(640, 480)];
      var crop := CropRegion(0, 0, 0);
      var r := CropFold(RES_INFOS, kernels, [MAIN_PORT, SECOND_PORT], src, routed, crop, scaled);
      && r[DmaRecord(kernels, |RES_INFOS|, MAIN_PORT)].outputWidth == 640
      && !CropperSet(r[DmaRecord(kernels, |RES_INFOS|, MAIN_PORT)], CropperInput(kernels, MAIN_PORT, src, crop, scaled[MAIN_PORT]), main, crop)
  {
    var kernels := RunKernelsPsysScale(uuids);
    var ps := [MAIN_PORT, SECOND_PORT];
    assert ps[..1] == [MAIN_PORT];
    assert [MAIN_PORT][..0] == [];
  }

  // ---------------------------------------------------------------------
  // setScaleMapInfo (426-450).
  // ---------------------------------------------------------------------

  /** An output other than SECOND_PORT whose frame has the source size. */
  predicate FullSizeOther(outputs: map<Port, FrameInfo>, src: FrameInfo, p: Port)
  {
    p in outputs && p != SECOND_PORT && outputs[p].width == src.width && outputs[p].height == src.height
  }

  /** FullSizeOther as a test on ports. */
  function FullSizeTest(outputs: map<Port, FrameInfo>, src: FrameInfo): Port -> bool
  {
    (p: Port) => FullSizeOther(outputs, src, p)
  }

  /** The position, in port order, of the first full-size output other than SECOND_PORT. */
  function SwapCandidate(outputs: map<Port, FrameInfo>, src: FrameInfo): Option<nat>
    requires OutputsValid(outputs)
  {
    FirstFrom(OutputPorts(OutputCount(outputs)), FullSizeTest(outputs, src), 0)
  }

  /** Each output routed to itself, over what the map held. */
  function Identity(m0: map<Port, Port>, outputs: map<Port, FrameInfo>): (m: map<Port, Port>)
    requires OutputsValid(outputs)
    ensures forall p :: p in outputs ==> p in m
    ensures forall p {:trigger m[p]} :: p in outputs ==> m[p] == p
    ensures forall p :: p !in outputs ==> (p in m <==> p in m0) && (p in m0 ==> m[p] == m0[p])
  {
    var m1 := m0[MAIN_PORT := MAIN_PORT];
    var m2 := if SECOND_PORT in outputs then m1[SECOND_PORT := SECOND_PORT] else m1;
    if THIRD_PORT in outputs then m2[THIRD_PORT := THIRD_PORT] else m2
  }

  /**
   * The scale map setScaleMapInfo leaves: each output routed to itself;
   * then, with two or more outputs, the first full-size output other than
   * SECOND_PORT is exchanged with SECOND_PORT, the port without an output
   * scaler.
   */
  function ScaleMapOf(m0: map<Port, Port>, outputs: map<Port, FrameInfo>, src: FrameInfo): map<Port, Port>
    requires OutputsValid(outputs)
  {
    Exchange(Identity(m0, outputs), Swapped(outputs, src))
  }

  /** A map with the entries of c, if any, and SECOND_PORT exchanged. */
  function Exchange(id: map<Port, Port>, c: Option<Port>): map<Port, Port>
  {
    match c
    case None => id
    case Some(p) => id[p := SECOND_PORT][SECOND_PORT := p]
  }

  /** Output port p, if there is one, is routed to an output. */
  predicate RoutesPort(m: map<Port, Port>, outputs: map<Port, FrameInfo>, p: Port)
  {
    p in outputs ==> p in m && m[p] in outputs
  }

  /** Every output is routed to an output (outputs being on the three output ports). */
  predicate Routes(m: map<Port, Port>, outputs: map<Port, FrameInfo>)
  {
    RoutesPort(m, outputs, MAIN_PORT) && RoutesPort(m, outputs, SECOND_PORT) && RoutesPort(m, outputs, THIRD_PORT)
  }

  /** For valid outputs, Routes says that every output port is routed to an output. */
  lemma RoutesEvery(m: map<Port, Port>, outputs: map<Port, FrameInfo>)
    requires OutputsValid(outputs)
    ensures Routes(m, outputs) <==> forall p :: p in outputs ==> p in m && m[p] in outputs
  {
  }

  /** The frame each output port's path produces. */
  function Routed(m: map<Port, Port>, outputs: map<Port, FrameInfo>): (r: map<Port, FrameInfo>)
    requires OutputsValid(outputs) && Routes(m, outputs)
    ensures forall p :: p in r <==> p in outputs
    ensures forall p {:trigger r[p]} :: p in outputs ==> r[p] == outputs[m[p]]
  {
    var r1 := map[MAIN_PORT := outputs[m[MAIN_PORT]]];
    var r2 := if SECOND_PORT in outputs then r1[SECOND_PORT := outputs[m[SECOND_PORT]]] else r1;
    if THIRD_PORT in outputs then r2[THIRD_PORT := outputs[m[THIRD_PORT]]] else r2
  }

  /** The full-size output the scale map moves to SECOND_PORT, if any. */
  function Swapped(outputs: map<Port, FrameInfo>, src: FrameInfo): (c: Option<Port>)
    requires OutputsValid(outputs)
    ensures c.Some? ==> FullSizeOther(outputs, src, c.value) && SECOND_PORT in outputs
  {
    if OutputCount(outputs) >= 2 && SwapCandidate(outputs, src).Some? then
      Some(OutputPorts(OutputCount(outputs))[SwapCandidate(outputs, src).value])
    else None
  }

  /**
   * The scale map is a permutation of the outputs: the full-size output
   * it moves is produced on SECOND_PORT's unscaled path and its own path
   * produces SECOND_PORT's frame; every other output keeps its path.
   */
  lemma ScaleMapPermutes(m0: map<Port, Port>, outputs: map<Port, FrameInfo>, src: FrameInfo, m: map<Port, Port>)
    requires OutputsValid(outputs) && m == ScaleMapOf(m0, outputs, src)
    ensures forall p :: p in outputs ==> p in m
    ensures forall p {:trigger m[p]} :: p in outputs && p in m ==> m[p] in outputs
    ensures forall p, q :: p in outputs && q in outputs && p != q ==> m[p] != m[q]
    ensures forall p {:trigger m[p]} :: p in outputs ==> m[p] == Exchanged(Swapped(outputs, src), p)
  {
    ExchangePermutes(Identity(m0, outputs), outputs.Keys, Swapped(outputs, src), m);
  }

  /** The scale map routes every output to an output. */
  lemma ScaleMapRoutes(m0: map<Port, Port>, outputs: map<Port, FrameInfo>, src: FrameInfo)
    requires OutputsValid(outputs)
    ensures Routes(ScaleMapOf(m0, outputs, src), outputs)
  {
    ScaleMapPermutes(m0, outputs, src, ScaleMapOf(m0, outputs, src));
  }

  /** Where the scale map sends a port when c, if any, is exchanged with SECOND_PORT. */
  function Exchanged(c: Option<Port>, p: Port): Port
  {
    if c.None? then p
    else if p == c.value then SECOND_PORT
    else if p == SECOND_PORT then c.value
    else p
  }

  /** Exchanging the entry of a member c, if any, with SECOND_PORT's in a map that is the identity on a set permutes the set. */
  lemma ExchangePermutes(id: map<Port, Port>, ports: set<Port>, c: Option<Port>, m: map<Port, Port>)
    requires forall p :: p in ports ==> p in id && id[p] == p
    requires c.Some? ==> c.value in ports && SECOND_PORT in ports
    requires m == Exchange(id, c)
    ensures forall p :: p in ports ==> p in m
    ensures forall p {:trigger m[p]} :: p in ports && p in m ==> m[p] in ports
    ensures forall p {:trigger m[p]} :: p in ports ==> m[p] == Exchanged(c, p)
    ensures forall p, q :: p in ports && q in ports && p != q ==> m[p] != m[q]
  {
  }

  /**
   * The output moved is the first full-size one other than SECOND_PORT in
   * port order; none is moved only when there is a single output or no
   * other output has the source size.
   */
  lemma SwappedIsFirst(outputs: map<Port, FrameInfo>, src: FrameInfo)
    requires OutputsValid(outputs)
    ensures Swapped(outputs, src).Some? ==>
      forall j :: 0 <= j < 3 && OUTPUT_PORTS[j] == Swapped(outputs, src).value ==>
        forall k :: 0 <= k < j ==> !FullSizeOther(outputs, src, OUTPUT_PORTS[k])
    ensures Swapped(outputs, src).None? <==>
      OutputCount(outputs) == 1 || forall p :: p in outputs ==> !FullSizeOther(outputs, src, p)
  {
    var n := OutputCount(outputs);
    var ps := OutputPorts(n);
    var f := (q: Port) => FullSizeOther(outputs, src, q);
    match SwapCandidate(outputs, src)
    case Some(i) =>
      forall j | 0 <= j < 3 && OUTPUT_PORTS[j] == ps[i]
        ensures forall k :: 0 <= k < j ==> !FullSizeOther(outputs, src, OUTPUT_PORTS[k])
      {
        assert j == i;
        forall k | 0 <= k < j
          ensures !FullSizeOther(outputs, src, OUTPUT_PORTS[k])
        {
          assert !f(ps[k]);
        }
      }
    case None =>
      forall p | p in outputs
        ensures !FullSizeOther(outputs, src, p)
      {
        var k :| 0 <= k < |ps| && ps[k] == p;
        assert !f(ps[k]);
      }
  }

  // ---------------------------------------------------------------------
  // The output format written into the kernels' metadata (406-421).
  // ---------------------------------------------------------------------

  /** OF_FORMAT_I420, OF_FORMAT_NV12 and OF_FORMAT_NV21, whose values a header defines. */
  datatype OfFormatCodes = OfFormatCodes(i420: int, nv12: int, nv21: int)

  /** The output format code of a V4L2 format; the scale program group knows only these three. */
  function OfFormatOf(format: int, codes: OfFormatCodes): Option<int>
  {
    if format == V4L2_PIX_FMT_YUV420 then Some(codes.i420)
    else if format == V4L2_PIX_FMT_NV12 then Some(codes.nv12)
    else if format == V4L2_PIX_FMT_NV21 then Some(codes.nv21)
    else None
  }

  /** A kernel with its second metadata word set to the output format code, if there is one. */
  function WithOutputFormat(k: Lite.RunKernel, code: Option<int>): Lite.RunKernel
    requires |k.metadata| == 4
  {
    if code.Some? then k.(metadata := k.metadata[1 := code.value]) else k
  }

  function KernelsWithFormat(ks: seq<Lite.RunKernel>, code: Option<int>): (r: seq<Lite.RunKernel>)
    requires forall i :: 0 <= i < |ks| ==> |ks[i].metadata| == 4
    ensures |r| == |ks|
  {
    seq(|ks|, i requires 0 <= i < |ks| => WithOutputFormat(ks[i], code))
  }

  /**
   * Setting the format changes only the second metadata word of every
   * kernel, and only for a known format; the record references, and so
   * the wiring, stay.
   */
  lemma KernelsWithFormatKeeps(ks: seq<Lite.RunKernel>, code: Option<int>, recordCount: nat)
    requires Wired(ks, recordCount)
    ensures var r := KernelsWithFormat(ks, code);
      && Wired(r, recordCount)
      && (forall i :: 0 <= i < |ks| ==> r[i].resolution == ks[i].resolution && r[i].kernelUuid == ks[i].kernelUuid)
      && (forall i :: 0 <= i < |ks| ==> r[i].metadata[1] == (if code.Some? then code.value else ks[i].metadata[1]))
      && (forall i, j :: 0 <= i < |ks| && 0 <= j < 4 && j != 1 ==> r[i].metadata[j] == ks[i].metadata[j])
  {
  }

  /** The port visited last, whose frame's format all kernels get. */
  function LastPort(outputs: map<Port, FrameInfo>): Port
    requires OutputsValid(outputs)
  {
    OUTPUT_PORTS[OutputCount(outputs) - 1]
  }

  // ---------------------------------------------------------------------
  // The terminals (prepare 452-483, setTerminalParams 132-166).
  // ---------------------------------------------------------------------

  /**
   * YUYV_SCALE_TERMINAL_ID_GET_YUYV, _PUT_DISPLAY, _PUT_MAIN and _PUT_PP,
   * whose values a header defines: the input terminal comes first and
   * _PUT_PP last.
   */
  datatype TerminalIds = TerminalIds(getYuyv: nat, putDisplay: nat, putMain: nat, putPp: nat)

  predicate IdsOrdered(ids: TerminalIds)
  {
    ids.getYuyv < ids.putDisplay < ids.putMain < ids.putPp
  }

  /**
   * The frame whose format prepare gives terminal t and whose buffer
   * prepareTerminalBuffers registers for it: the source for the input,
   * the second and third outputs' frames for _PUT_MAIN and _PUT_PP when
   * there are that many outputs, the display frame otherwise.
   */
  function BufferFrame(ids: TerminalIds, t: nat, src: FrameInfo, routed: map<Port, FrameInfo>, n: nat): FrameInfo
    requires OutputsValid(routed) && n == OutputCount(routed)
  {
    if t == ids.getYuyv then src
    else if t == ids.putMain && n >= 2 then routed[SECOND_PORT]
    else if t == ids.putPp && n >= 3 then routed[THIRD_PORT]
    else routed[MAIN_PORT]
  }

  /** The formats prepare leaves for the four terminals, other entries kept. */
  function PreparedFormats(fs: seq<Base.CssFrameFormat>, ids: TerminalIds, src: FrameInfo, routed: map<Port, FrameInfo>): (r: seq<Base.CssFrameFormat>)
    requires IdsOrdered(ids) && |fs| == ids.putPp + 1 && OutputsValid(routed)
    ensures |r| == |fs|
  {
    var n := OutputCount(routed);
    fs[ids.getYuyv := Base.CssFmtOf(src.format)]
      [ids.putDisplay := Base.CssFmtOf(routed[MAIN_PORT].format)]
      [ids.putMain := Base.CssFmtOf((if n >= 2 then routed[SECOND_PORT] else routed[MAIN_PORT]).format)]
      [ids.putPp := Base.CssFmtOf((if n >= 3 then routed[THIRD_PORT] else routed[MAIN_PORT]).format)]
  }

  /**
   * Each of the four terminals gets the format of the frame whose buffer
   * is registered for it; every other entry of the list is kept.
   */
  lemma PreparedFormatsMatchBuffers(fs: seq<Base.CssFrameFormat>, ids: TerminalIds, src: FrameInfo, routed: map<Port, FrameInfo>)
    requires IdsOrdered(ids) && |fs| == ids.putPp + 1 && OutputsValid(routed)
    ensures forall t :: t in {ids.getYuyv, ids.putDisplay, ids.putMain, ids.putPp} ==>
      PreparedFormats(fs, ids, src, routed)[t] == Base.CssFmtOf(BufferFrame(ids, t, src, routed, OutputCount(routed)).format)
    ensures forall t :: 0 <= t < |fs| && t !in {ids.getYuyv, ids.putDisplay, ids.putMain, ids.putPp} ==>
      PreparedFormats(fs, ids, src, routed)[t] == fs[t]
  {
  }

  /**
   * The kernels prepare leaves enabled for n outputs: kernels 0 to 7
   * always, kernel 8 (the _PUT_MAIN terminal's) from two outputs on and
   * kernel 9 (the _PUT_PP terminal's) from three.
   */
  function KernelMask(n: nat): PgRequirements.KernelBitmap
  {
    {0, 1, 2, 3, 4, 5, 6, 7} + (if n >= 2 then {8} else {}) + (if n >= 3 then {9} else {})
  }

  /** Kernel k is enabled exactly when its terminal is in use. */
  lemma KernelMaskBits(n: nat)
    ensures forall k: nat :: k in KernelMask(n) <==> k < 8 || (k == 8 && n >= 2) || (k == 9 && n >= 3)
  {
  }

  /** What setTerminalParams writes into a terminal's parameters. */
  datatype TerminalParam = TerminalParam(
    frameFormat: Base.CssFrameFormat,
    width: int, height: int, bpp: int,
    fragmentWidth: int, fragmentHeight: int,
    stride: int, offset: int, indexCol: int, indexRow: int)

  /** A terminal's parameters for a frame: whole-frame fragment, no offset, origin index. */
  function ParamFor(format: Base.CssFrameFormat, f: FrameInfo): (tp: TerminalParam)
    ensures tp.width == tp.fragmentWidth == f.width && tp.height == tp.fragmentHeight == f.height
    ensures tp.frameFormat == format && tp.bpp == f.bpp && tp.stride == f.stride
    ensures tp.offset == 0 && tp.indexCol == 0 && tp.indexRow == 0
  {
    TerminalParam(format, f.width, f.height, f.bpp, f.width, f.height, f.stride, 0, 0, 0)
  }

  /**
   * The frame setTerminalParams describes terminal i with, as written: the
   * source before _PUT_DISPLAY, the display frame from it on, the second
   * frame for _PUT_MAIN only when there are exactly two outputs, the third
   * for _PUT_PP when there are three.
   */
  function TerminalFrameAsWritten(ids: TerminalIds, i: nat, src: FrameInfo, routed: map<Port, FrameInfo>, n: nat): FrameInfo
    requires OutputsValid(routed) && n == OutputCount(routed)
  {
    var config := if i >= ids.putDisplay then routed[MAIN_PORT] else src;
    var config := if n == 2 && i == ids.putMain then routed[SECOND_PORT] else config;
    if n == 3 && i == ids.putPp then routed[THIRD_PORT] else config
  }

  /**
   * As written, with three outputs of different sizes the _PUT_MAIN
   * terminal is described with the display frame while its format and its
   * buffer are the second output's.
   */
  lemma TerminalFrameMismatch(ids: TerminalIds, src: FrameInfo, routed: map<Port, FrameInfo>)
    requires IdsOrdered(ids) && OutputsValid(routed) && OutputCount(routed) == 3
    requires routed[MAIN_PORT] != routed[SECOND_PORT]
    ensures TerminalFrameAsWritten(ids, ids.putMain, src, routed, 3) == routed[MAIN_PORT]
    ensures TerminalFrameAsWritten(ids, ids.putMain, src, routed, 3) != BufferFrame(ids, ids.putMain, src, routed, 3)
  {
  }

  /** The frame of terminal i with the _PUT_MAIN case taken from two outputs on, as the formats and buffers are. */
  function TerminalFrame(ids: TerminalIds, i: nat, src: FrameInfo, routed: map<Port, FrameInfo>, n: nat): (f: FrameInfo)
    requires IdsOrdered(ids) && OutputsValid(routed) && n == OutputCount(routed)
    ensures i in {ids.getYuyv, ids.putDisplay, ids.putMain, ids.putPp} ==> f == BufferFrame(ids, i, src, routed, n)
    ensures i < ids.putDisplay ==> f == src
    ensures i >= ids.putDisplay && i != ids.putMain && i != ids.putPp ==> f == routed[MAIN_PORT]
  {
    var config := if i >= ids.putDisplay then routed[MAIN_PORT] else src;
    var config := if n >= 2 && i == ids.putMain then routed[SECOND_PORT] else config;
    if n == 3 && i == ids.putPp then routed[THIRD_PORT] else config
  }

  /** The two descriptions differ only for _PUT_MAIN with three outputs. */
  lemma TerminalFrameAsWrittenAgrees(ids: TerminalIds, i: nat, src: FrameInfo, routed: map<Port, FrameInfo>, n: nat)
    requires IdsOrdered(ids) && OutputsValid(routed) && n == OutputCount(routed)
    requires !(n == 3 && i == ids.putMain)
    ensures TerminalFrameAsWritten(ids, i, src, routed, n) == TerminalFrame(ids, i, src, routed, n)
  {
  }

  // ---------------------------------------------------------------------
  // prepareTerminalBuffers (168-231).
  // ---------------------------------------------------------------------

  /** A parameter payload: its buffer (0 for nullptr) and size. */
  datatype Payload = Payload(data: nat, size: nat)

  /**
   * What prepareTerminalBuffers works on: the status so far, the payloads,
   * the buffer cache, the next address an allocation returns, and the CIPR
   * buffer of each terminal.
   */
  datatype BufferRun = BufferRun(
    status: Status,
    payloads: seq<Payload>,
    cache: Base.CacheState,
    nextAddress: nat,
    terminalBuffers: map<nat, nat>)

  /**
   * One terminal of the payload loop, given the size the P2P reports for it
   * (none when it reports an error): nothing for size 0; BAD_INDEX past the
   * payloads; otherwise the payload is kept if it has a buffer of that
   * size, else freed and allocated afresh, and registered.
   */
  function PayloadStep(r: BufferRun, i: nat, size: Option<nat>, allocFails: bool, createFails: bool): BufferRun
  {
    if size.None? then r.(status := BAD_INDEX)
    else if size.value == 0 then r
    else if i >= |r.payloads| then r.(status := BAD_INDEX)
    else
      var p := r.payloads[i];
      var keep := p.data != 0 && p.size == size.value;
      var data := if keep then p.data else if allocFails then 0 else r.nextAddress;
      var next := if keep || allocFails then r.nextAddress else r.nextAddress + 1;
      var payloads := r.payloads[i := Payload(data, size.value)];
      if data == 0 then BufferRun(NO_MEMORY, payloads, r.cache, next, r.terminalBuffers)
      else
        var (cache, buf) := Base.Register(r.cache, Base.UserPtr(data), createFails);
        if buf.None? then BufferRun(NO_MEMORY, payloads, cache, next, r.terminalBuffers)
        else BufferRun(OK, payloads, cache, next, r.terminalBuffers[i := buf.value])
  }

  /** The payload loop over the first n terminals, stopping at the first error. */
  function PayloadsUpTo(r0: BufferRun, sizes: seq<Option<nat>>, n: nat, allocFails: bool, createFails: bool): (r: BufferRun)
    requires n <= |sizes|
    ensures |r.payloads| == |r0.payloads| && r.nextAddress >= r0.nextAddress
  {
    if n == 0 then r0
    else
      var r := PayloadsUpTo(r0, sizes, n - 1, allocFails, createFails);
      if r.status != OK then r else PayloadStep(r, n - 1, sizes[n - 1], allocFails, createFails)
  }

  /** Once the loop has failed it changes nothing more. */
  lemma {:induction false} PayloadsStuck(r0: BufferRun, sizes: seq<Option<nat>>, i: nat, n: nat, allocFails: bool, createFails: bool)
    requires i <= n <= |sizes| && PayloadsUpTo(r0, sizes, i, allocFails, createFails).status != OK
    ensures PayloadsUpTo(r0, sizes, n, allocFails, createFails) == PayloadsUpTo(r0, sizes, i, allocFails, createFails)
    decreases n
  {
    if n > i {
      PayloadsStuck(r0, sizes, i, n - 1, allocFails, createFails);
    }
  }

  /**
   * A payload's buffer is replaced only when the reported size differs
   * from its size, or it had none; every payload's size is the last size
   * reported for it, or what it was.
   */
  lemma {:induction false} PayloadsReallocOnResize(r0: BufferRun, sizes: seq<Option<nat>>, n: nat, allocFails: bool, createFails: bool, j: nat)
    requires n <= |sizes| && j < |r0.payloads| && r0.status == OK
    ensures var r := PayloadsUpTo(r0, sizes, n, allocFails, createFails);
      && (r.payloads[j].data != r0.payloads[j].data ==>
            j < n && sizes[j].Some? && (r0.payloads[j].data == 0 || sizes[j].value != r0.payloads[j].size))
      && (r.payloads[j].size == r0.payloads[j].size || (j < n && sizes[j] == Some(r.payloads[j].size)))
    decreases n
  {
    if n > 0 {
      PayloadsReallocOnResize(r0, sizes, n - 1, allocFails, createFails, j);
      var r := PayloadsUpTo(r0, sizes, n - 1, allocFails, createFails);
      if r.status == OK && j == n - 1 {
        PayloadsUntouchedAhead(r0, sizes, n - 1, allocFails, createFails, j);
      }
    }
  }

  /** The loop has not touched the payloads of terminals it has not reached. */
  lemma {:induction false} PayloadsUntouchedAhead(r0: BufferRun, sizes: seq<Option<nat>>, n: nat, allocFails: bool, createFails: bool, j: nat)
    requires n <= |sizes| && n <= j < |r0.payloads|
    ensures PayloadsUpTo(r0, sizes, n, allocFails, createFails).payloads[j] == r0.payloads[j]
    decreases n
  {
    if n > 0 {
      PayloadsUntouchedAhead(r0, sizes, n - 1, allocFails, createFails, j);
    }
  }

  /**
   * The payload loop keeps the buffer cache valid, fails only with
   * BAD_INDEX or NO_MEMORY, and when it succeeds every terminal it reached
   * with a non-empty payload has a CIPR buffer.
   */
  lemma {:induction false} PayloadsRegistered(r0: BufferRun, sizes: seq<Option<nat>>, n: nat, allocFails: bool, createFails: bool)
    requires n <= |sizes| && r0.status == OK && 0 < r0.cache.nextHandle && Base.CacheValid(r0.cache.buffers, r0.cache.nextHandle)
    ensures var r := PayloadsUpTo(r0, sizes, n, allocFails, createFails);
      && 0 < r.cache.nextHandle && Base.CacheValid(r.cache.buffers, r.cache.nextHandle)
      && r.status in {OK, BAD_INDEX, NO_MEMORY}
      && (r.status == OK ==> forall j :: 0 <= j < n && sizes[j].Some? && sizes[j].value > 0 ==> j in r.terminalBuffers)
    decreases n
  {
    if n > 0 {
      PayloadsRegistered(r0, sizes, n - 1, allocFails, createFails);
      var r := PayloadsUpTo(r0, sizes, n - 1, allocFails, createFails);
      var i := n - 1;
      if r.status == OK && sizes[i].Some? && sizes[i].value > 0 && i < |r.payloads| {
        var p := r.payloads[i];
        var keep := p.data != 0 && p.size == sizes[i].value;
        var data := if keep then p.data else if allocFails then 0 else r.nextAddress;
        if data != 0 {
          Base.RegisterEffect(r.cache, Base.UserPtr(data), createFails, Base.UserPtr(data));
        }
      }
    }
  }

  /** A camera buffer to register for a terminal, with its frame size. */
  datatype FrameReg = FrameReg(terminal: nat, buf: Base.CameraBufferRef, size: int)

  /** The frame registrations in order, stopping with NO_MEMORY at the first that fails. */
  function RegisterFrames(r: BufferRun, regs: seq<FrameReg>, createFails: bool): (r': BufferRun)
    ensures r'.payloads == r.payloads && r'.nextAddress == r.nextAddress
    decreases |regs|
  {
    if regs == [] || r.status != OK then r
    else
      var (cache, buf) := Base.RegisterCamera(r.cache, regs[0].buf, regs[0].size, createFails);
      if buf.None? then r.(status := NO_MEMORY, cache := cache)
      else RegisterFrames(r.(cache := cache, terminalBuffers := r.terminalBuffers[regs[0].terminal := buf.value]), regs[1..], createFails)
  }

  /** Registering keeps the buffer cache valid. */
  lemma {:induction false} RegisterFramesValid(r: BufferRun, regs: seq<FrameReg>, createFails: bool)
    requires 0 < r.cache.nextHandle && Base.CacheValid(r.cache.buffers, r.cache.nextHandle)
    ensures var r' := RegisterFrames(r, regs, createFails);
      0 < r'.cache.nextHandle && Base.CacheValid(r'.cache.buffers, r'.cache.nextHandle)
    ensures RegisterFrames(r, regs, createFails).status == OK ==>
      forall k :: 0 <= k < |regs| ==> regs[k].terminal in RegisterFrames(r, regs, createFails).terminalBuffers
    decreases |regs|
  {
    if regs != [] && r.status == OK {
      var key := Base.CameraBufferKey(regs[0].buf, regs[0].size);
      if key.Some? {
        Base.RegisterEffect(r.cache, key.value, createFails, key.value);
      }
      var (cache, buf) := Base.RegisterCamera(r.cache, regs[0].buf, regs[0].size, createFails);
      if buf.Some? {
        var r1 := r.(cache := cache, terminalBuffers := r.terminalBuffers[regs[0].terminal := buf.value]);
        RegisterFramesValid(r1, regs[1..], createFails);
        RegisterFramesKeeps(r1, regs[1..], createFails, regs[0].terminal);
        forall k | 1 <= k < |regs|
          ensures regs[k] == regs[1..][k - 1]
        {
        }
      }
    }
  }

  /** The frame registrations fail only with NO_MEMORY. */
  lemma {:induction false} RegisterFramesStatus(r: BufferRun, regs: seq<FrameReg>, createFails: bool)
    ensures var r' := RegisterFrames(r, regs, createFails);
      r'.status == r.status || (r.status == OK && r'.status == NO_MEMORY)
    decreases |regs|
  {
    if regs != [] && r.status == OK {
      var (cache, buf) := Base.RegisterCamera(r.cache, regs[0].buf, regs[0].size, createFails);
      if buf.Some? {
        RegisterFramesStatus(r.(cache := cache, terminalBuffers := r.terminalBuffers[regs[0].terminal := buf.value]), regs[1..], createFails);
      }
    }
  }

  /** A terminal that has a buffer keeps one. */
  lemma {:induction false} RegisterFramesKeeps(r: BufferRun, regs: seq<FrameReg>, createFails: bool, t: nat)
    requires t in r.terminalBuffers
    ensures t in RegisterFrames(r, regs, createFails).terminalBuffers
    decreases |regs|
  {
    if regs != [] && r.status == OK {
      var (cache, buf) := Base.RegisterCamera(r.cache, regs[0].buf, regs[0].size, createFails);
      if buf.Some? {
        RegisterFramesKeeps(r.(cache := cache, terminalBuffers := r.terminalBuffers[regs[0].terminal := buf.value]), regs[1..], createFails, t);
      }
    }
  }

  /** The index of a port in a vector of buffers indexed by port. */
  function PortIndex(p: Port): nat
  {
    match p
    case MAIN_PORT => 0
    case SECOND_PORT => 1
    case THIRD_PORT => 2
    case FORTH_PORT => 3
    case INVALID_PORT => 4
  }

  /**
   * The frames prepareTerminalBuffers registers after the payloads: the
   * source, then the display output, then the second and third outputs
   * when there are that many destination buffers; each destination buffer
   * is the one of the port the scale map routes to the terminal.
   */
  function FrameRegs(ids: TerminalIds, srcBuf: Base.CameraBufferRef, dstBufs: seq<Base.CameraBufferRef>,
                     src: FrameInfo, dst: map<Port, FrameInfo>, m: map<Port, Port>,
                     frameSize: (int, int, int) -> int): (regs: seq<FrameReg>)
    requires OutputsValid(dst) && Routes(m, dst) && |dstBufs| == OutputCount(dst)
    ensures |regs| == |dstBufs| + 1
  {
    var n := |dstBufs|;
    var f := (p: Port) requires p in dst => dst[m[p]];
    var reg := (t: nat, p: Port) requires p in dst => FrameReg(t, dstBufs[PortIndex(m[p])], frameSize(f(p).format, f(p).width, f(p).height));
    [FrameReg(ids.getYuyv, srcBuf, frameSize(src.format, src.width, src.height)), reg(ids.putDisplay, MAIN_PORT)]
      + (if n > 1 then [reg(ids.putMain, SECOND_PORT)] else [])
      + (if n > 2 then [reg(ids.putPp, THIRD_PORT)] else [])
  }

  /** The first loop of setScaleMapInfo: every output routed to itself. */
  method IdentityLoop(m0: map<Port, Port>, outputs: map<Port, FrameInfo>) returns (m: map<Port, Port>)
    requires OutputsValid(outputs)
    ensures m == Identity(m0, outputs)
  {
    m := m0;
    var ps := OutputPorts(OutputCount(outputs));
    var i := 0;
    while i < |ps|
      invariant 0 <= i <= |ps|
      invariant forall q :: q in ps[..i] ==> q in m && m[q] == q
      invariant forall q :: q !in ps[..i] ==> (q in m <==> q in m0) && (q in m ==> m[q] == m0[q])
    {
      assert ps[..i + 1] == ps[..i] + [ps[i]];
      m := m[ps[i] := ps[i]];
      i := i + 1;
    }
    assert ps[..i] == ps;
    assert forall q :: q in m <==> q in Identity(m0, outputs);
  }

  /** setScaleMapInfo on the map it updates: the identity loop, then the search for an output to exchange. */
  method ScaleMapLoop(m0: map<Port, Port>, outputs: map<Port, FrameInfo>, src: FrameInfo) returns (m: map<Port, Port>)
    requires OutputsValid(outputs)
    ensures m == ScaleMapOf(m0, outputs, src)
  {
    m := IdentityLoop(m0, outputs);
    var n := OutputCount(outputs);
    if n >= 2 {
      var ps := OutputPorts(n);
      ghost var full := FullSizeTest(outputs, src);
      var j := 0;
      while j < |ps|
        invariant 0 <= j <= |ps|
        invariant FirstFrom(ps, full, j) == SwapCandidate(outputs, src)
      {
        var port := ps[j];
        var frame := outputs[port];
        if frame.width == src.width && frame.height == src.height && port != SECOND_PORT {
          assert full(ps[j]);
          m := m[port := SECOND_PORT][SECOND_PORT := port];
          return;
        }
        assert !full(ps[j]);
        j := j + 1;
      }
    }
  }

  /**
   * The port loop of setCropAndFormatInfo on the records: for each output
   * port in order, its output scaler, if it has one, is set from the
   * source to its scaled size, then its cropper from that output (or the
   * source) to the port's routed frame, with a centre crop when the crop
   * flag is clear and the crop origin doubled otherwise.
   */
  method ConfigureCrop(recs: array<ResolutionInfo>, kernels: array<Lite.RunKernel>, ps: seq<Port>, src: FrameInfo,
                       routed: map<Port, FrameInfo>, crop: CropRegion, scaled: map<Port, Size>)
    requires Wired(kernels[..], recs.Length) && Covered(ps, routed, scaled)
    modifies recs
    ensures recs[..] == CropFold(old(recs[..]), kernels[..], ps, src, routed, crop, scaled)
  {
    var i := 0;
    while i < |ps|
      invariant 0 <= i <= |ps|
      invariant recs[..] == CropFold(old(recs[..]), kernels[..], ps[..i], src, routed, crop, scaled)
    {
      var p := ps[i];
      assert p in ps;
      ConfigurePort(recs, kernels, p, src, routed[p], crop, scaled[p]);
      assert ps[..i + 1][..i] == ps[..i] && ps[..i + 1][i] == p;
      i := i + 1;
    }
    assert ps[..i] == ps;
  }

  /** One port of the loop: its scaler's record, then its cropper's. */
  method ConfigurePort(recs: array<ResolutionInfo>, kernels: array<Lite.RunKernel>, p: Port, src: FrameInfo,
                       f: FrameInfo, crop: CropRegion, scaled: Size)
    requires Wired(kernels[..], recs.Length)
    modifies recs
    ensures recs[..] == PortStep(old(recs[..]), kernels[..], p, src, f, crop, scaled)
  {
    ghost var ks := kernels[..];
    var ofs := if p == MAIN_PORT then kernels[ISP_SC_OUTPUTSCALER_DP].resolution
               else if p == THIRD_PORT then kernels[ISP_SC_OUTPUTSCALER_PPP].resolution
               else None;
    assert ofs == OfsRecord(ks, p);
    var dma := kernels[if p == SECOND_PORT then ISP_DMA_CROPPER_MP else if p == THIRD_PORT then ISP_DMA_CROPPER_PPP
                       else ISP_DMA_CROPPER_DP].resolution.value;
    assert dma == DmaRecord(ks, recs.Length, p);
    if ofs.Some? {
      var out := if crop.flag == 0 then scaled else Size(src.width, src.height);
      recs[ofs.value] := recs[ofs.value].(inputWidth := src.width, inputHeight := src.height,
                                          outputWidth := out.width, outputHeight := out.height);
    }
    ghost var recs1 := recs[..];
    var input := if ofs.Some? then Size(recs[ofs.value].outputWidth, recs[ofs.value].outputHeight)
                 else Size(src.width, src.height);
    assert input == CropperInput(ks, p, src, crop, scaled);
    var c: Crop;
    if crop.flag == 0 {
      var left := AlignEven(TruncDiv(input.width - f.width, 2));
      var top := AlignEven(TruncDiv(input.height - f.height, 2));
      c := Crop(left, top, input.width - f.width - left, input.height - f.height - top);
    } else {
      c := Crop(2 * crop.x, 2 * crop.y, 0, 0);
    }
    assert c == CropperCrop(input, f, crop);
    recs[dma] := recs[dma].(inputWidth := input.width, inputHeight := input.height,
                            outputWidth := f.width, outputHeight := f.height, inputCrop := c);
    assert recs[..] == recs1[dma := recs1[dma].(inputWidth := input.width, inputHeight := input.height,
                                                 outputWidth := f.width, outputHeight := f.height, inputCrop := c)];
  }

  /** The format loop of setCropAndFormatInfo: every kernel gets the output format code of a known format. */
  method WriteOutputFormat(kernels: array<Lite.RunKernel>, format: int, codes: OfFormatCodes)
    requires forall i :: 0 <= i < kernels.Length ==> |kernels[i].metadata| == 4
    modifies kernels
    ensures kernels[..] == KernelsWithFormat(old(kernels[..]), OfFormatOf(format, codes))
  {
    var i := 0;
    while i < kernels.Length
      invariant 0 <= i <= kernels.Length
      invariant forall j :: 0 <= j < i ==> kernels[j] == WithOutputFormat(old(kernels[j]), OfFormatOf(format, codes))
      invariant forall j :: i <= j < kernels.Length ==> kernels[j] == old(kernels[j])
    {
      var k := kernels[i];
      if format == V4L2_PIX_FMT_YUV420 {
        kernels[i] := k.(metadata := k.metadata[1 := codes.i420]);
      } else if format == V4L2_PIX_FMT_NV12 {
        kernels[i] := k.(metadata := k.metadata[1 := codes.nv12]);
      } else if format == V4L2_PIX_FMT_NV21 {
        kernels[i] := k.(metadata := k.metadata[1 := codes.nv21]);
      }
      i := i + 1;
    }
  }

  /** setCropAndFormatInfo on the records and the kernel table: the port loop, then the format loop. */
  method CropAndFormat(recs: array<ResolutionInfo>, kernels: array<Lite.RunKernel>, ps: seq<Port>, src: FrameInfo,
                       routed: map<Port, FrameInfo>, crop: CropRegion, scaled: map<Port, Size>, format: int, codes: OfFormatCodes)
    requires Wired(kernels[..], recs.Length) && Covered(ps, routed, scaled)
    modifies recs, kernels
    ensures recs[..] == CropFold(old(recs[..]), old(kernels[..]), ps, src, routed, crop, scaled)
    ensures kernels[..] == KernelsWithFormat(old(kernels[..]), OfFormatOf(format, codes))
    ensures Wired(kernels[..], recs.Length)
  {
    ConfigureCrop(recs, kernels, ps, src, routed, crop, scaled);
    KernelsWithFormatKeeps(kernels[..], OfFormatOf(format, codes), recs.Length);
    WriteOutputFormat(kernels, format, codes);
  }

  /**
   * The terminal formats of prepare: the source's for the input, the
   * display frame's for the three outputs, then the second and third
   * frames' for _PUT_MAIN and _PUT_PP when there are that many outputs.
   */
  method PrepareFormats(fs: seq<Base.CssFrameFormat>, ids: TerminalIds, src: FrameInfo, routed: map<Port, FrameInfo>)
    returns (r: seq<Base.CssFrameFormat>)
    requires IdsOrdered(ids) && |fs| == ids.putPp + 1 && OutputsValid(routed)
    ensures r == PreparedFormats(fs, ids, src, routed)
  {
    var input := Base.GetCssFmt(src.format);
    var display := Base.GetCssFmt(routed[MAIN_PORT].format);
    r := fs[ids.getYuyv := input][ids.putDisplay := display][ids.putMain := display][ids.putPp := display];
    OutputCountIsSize(routed);
    if |routed| >= 2 {
      var second := Base.GetCssFmt(routed[SECOND_PORT].format);
      r := r[ids.putMain := second];
    }
    if |routed| >= 3 {
      var third := Base.GetCssFmt(routed[THIRD_PORT].format);
      r := r[ids.putPp := third];
    }
  }

  /**
   * The kernel mask of prepare for a number of outputs: 0xff, widened to
   * 0x1ff from two outputs and to 0x3ff from three.
   */
  method ScaleKernelMask(count: nat) returns (mask: PgRequirements.KernelBitmap)
    ensures mask == KernelMask(count)
  {
    mask := {0, 1, 2, 3, 4, 5, 6, 7};
    if count >= 2 {
      mask := {0, 1, 2, 3, 4, 5, 6, 7, 8};
    }
    if count >= 3 {
      mask := {0, 1, 2, 3, 4, 5, 6, 7, 8, 9};
    }
  }

  /** The payload size the P2P reports for each of the first n terminals, none for one outside its table. */
  function PayloadSizes(reqs: seq<PgRequirements.TerminalReq>, n: nat): (sizes: seq<Option<nat>>)
    ensures |sizes| == n
    ensures forall i :: 0 <= i < n ==> sizes[i] == if i < |reqs| then Some(reqs[i].payloadSize) else None
  {
    seq(n, i requires 0 <= i < n => if i < |reqs| then Some(reqs[i].payloadSize) else None)
  }

  /**
   * prepareTerminalBuffers as a whole: UNKNOWN_ERROR for anything but one
   * source buffer and one to three destination buffers; otherwise the
   * payload of every terminal, then the frame buffers, stopping at the
   * first failure.
   */
  function PreparedBuffers(r0: BufferRun, ids: TerminalIds, sizes: seq<Option<nat>>,
                           srcBufs: seq<Base.CameraBufferRef>, dstBufs: seq<Base.CameraBufferRef>,
                           src: FrameInfo, dst: map<Port, FrameInfo>, m: map<Port, Port>,
                           frameSize: (int, int, int) -> int, allocFails: bool, createFails: bool): BufferRun
    requires OutputsValid(dst) && Routes(m, dst)
    requires |srcBufs| == 1 && 1 <= |dstBufs| <= 3 ==> |dstBufs| == OutputCount(dst)
  {
    if |srcBufs| != 1 || |dstBufs| == 0 || |dstBufs| > 3 then r0.(status := UNKNOWN_ERROR)
    else
      var r := PayloadsUpTo(r0, sizes, |sizes|, allocFails, createFails);
      RegisterFrames(r, FrameRegs(ids, srcBufs[0], dstBufs, src, dst, m, frameSize), createFails)
  }

  /**
   * One terminal of the payload loop, of reported size `size`: the buffer
   * freed if its size differs, allocated if there is none, and registered.
   */
  method PreparePayload(base: Base.PipeBase, r0: BufferRun, i: nat, size: nat, allocFails: bool, createFails: bool)
    returns (r: BufferRun)
    requires base.Valid() && r0.cache == base.Cache()
    modifies base
    ensures base.Valid() && r.cache == base.Cache()
    ensures base.terminalCount == old(base.terminalCount) && base.kernelBitmap == old(base.kernelBitmap)
    ensures r == PayloadStep(r0, i, Some(size), allocFails, createFails)
  {
    r := r0;
    if size == 0 {
      return;
    }
    if i >= |r.payloads| {
      return r.(status := BAD_INDEX);
    }
    var p := r.payloads[i];
    if p.data != 0 && p.size != size {
      p := p.(data := 0);
    }
    p := p.(size := size);
    var next := r.nextAddress;
    if p.data == 0 && !allocFails {
      p := p.(data := next);
      next := next + 1;
    }
    r := r.(payloads := r.payloads[i := p], nextAddress := next);
    if p.data == 0 {
      return r.(status := NO_MEMORY);
    }
    var buf := base.RegisterUserPtr(size, p.data, createFails);
    r := r.(cache := base.Cache());
    if buf.None? {
      return r.(status := NO_MEMORY);
    }
    r := r.(status := OK, terminalBuffers := r.terminalBuffers[i := buf.value]);
  }

  /**
   * What prepareTerminalBuffers leaves: a valid buffer cache, and
   * UNKNOWN_ERROR exactly for the wrong buffer counts, otherwise OK,
   * BAD_INDEX or NO_MEMORY.
   */
  lemma PreparedBuffersStatus(r0: BufferRun, ids: TerminalIds, sizes: seq<Option<nat>>,
                             srcBufs: seq<Base.CameraBufferRef>, dstBufs: seq<Base.CameraBufferRef>,
                             src: FrameInfo, dst: map<Port, FrameInfo>, m: map<Port, Port>,
                             frameSize: (int, int, int) -> int, allocFails: bool, createFails: bool)
    requires OutputsValid(dst) && Routes(m, dst)
    requires |srcBufs| == 1 && 1 <= |dstBufs| <= 3 ==> |dstBufs| == OutputCount(dst)
    requires r0.status == OK && 0 < r0.cache.nextHandle && Base.CacheValid(r0.cache.buffers, r0.cache.nextHandle)
    ensures var r := PreparedBuffers(r0, ids, sizes, srcBufs, dstBufs, src, dst, m, frameSize, allocFails, createFails);
      && 0 < r.cache.nextHandle && Base.CacheValid(r.cache.buffers, r.cache.nextHandle)
      && (r.status == UNKNOWN_ERROR <==> |srcBufs| != 1 || |dstBufs| == 0 || |dstBufs| > 3)
      && r.status in {OK, UNKNOWN_ERROR, BAD_INDEX, NO_MEMORY}
  {
    if |srcBufs| == 1 && 1 <= |dstBufs| <= 3 {
      PayloadsRegistered(r0, sizes, |sizes|, allocFails, createFails);
      var r := PayloadsUpTo(r0, sizes, |sizes|, allocFails, createFails);
      var regs := FrameRegs(ids, srcBufs[0], dstBufs, src, dst, m, frameSize);
      RegisterFramesValid(r, regs, createFails);
      RegisterFramesStatus(r, regs, createFails);
    }
  }

  /**
   * A successful prepareTerminalBuffers leaves a CIPR buffer for every
   * terminal with a non-empty payload, for the input and display
   * terminals, and for _PUT_MAIN and _PUT_PP when there are two and three
   * destination buffers.
   */
  lemma PreparedBuffersRegistered(r0: BufferRun, ids: TerminalIds, sizes: seq<Option<nat>>,
                             srcBufs: seq<Base.CameraBufferRef>, dstBufs: seq<Base.CameraBufferRef>,
                             src: FrameInfo, dst: map<Port, FrameInfo>, m: map<Port, Port>,
                             frameSize: (int, int, int) -> int, allocFails: bool, createFails: bool)
    requires OutputsValid(dst) && Routes(m, dst)
    requires |srcBufs| == 1 && 1 <= |dstBufs| <= 3 ==> |dstBufs| == OutputCount(dst)
    requires r0.status == OK && 0 < r0.cache.nextHandle && Base.CacheValid(r0.cache.buffers, r0.cache.nextHandle)
    ensures var r := PreparedBuffers(r0, ids, sizes, srcBufs, dstBufs, src, dst, m, frameSize, allocFails, createFails);
      r.status == OK ==>
        && (forall j :: 0 <= j < |sizes| && sizes[j].Some? && sizes[j].value > 0 ==> j in r.terminalBuffers)
        && ids.getYuyv in r.terminalBuffers && ids.putDisplay in r.terminalBuffers
        && (|dstBufs| > 1 ==> ids.putMain in r.terminalBuffers)
        && (|dstBufs| > 2 ==> ids.putPp in r.terminalBuffers)
  {
    if |srcBufs| == 1 && 1 <= |dstBufs| <= 3 {
      PayloadsRegistered(r0, sizes, |sizes|, allocFails, createFails);
      var r := PayloadsUpTo(r0, sizes, |sizes|, allocFails, createFails);
      var regs := FrameRegs(ids, srcBufs[0], dstBufs, src, dst, m, frameSize);
      RegisterFramesValid(r, regs, createFails);
      RegisterFramesStatus(r, regs, createFails);
      var r' := RegisterFrames(r, regs, createFails);
      if r'.status == OK {
        forall j | 0 <= j < |sizes| && sizes[j].Some? && sizes[j].value > 0
          ensures j in r'.terminalBuffers
        {
          RegisterFramesKeeps(r, regs, createFails, j);
        }
        assert regs[0].terminal == ids.getYuyv && regs[1].terminal == ids.putDisplay;
        assert |dstBufs| > 1 ==> regs[2].terminal == ids.putMain;
        assert |dstBufs| > 2 ==> regs[3].terminal == ids.putPp;
      }
    }
  }

  /**
   * The payload loop of prepareTerminalBuffers over the first n terminals,
   * with the P2P's reported sizes and the base pipe's buffer cache.
   */
  method PayloadLoop(p2p: Lite.P2pLite, base: Base.PipeBase, r0: BufferRun, n: nat, allocFails: bool, createFails: bool)
    returns (r: BufferRun)
    requires |p2p.reqs| == p2p.maxTerminals && base.Valid() && r0.status == OK && r0.cache == base.Cache()
    modifies base
    ensures base.Valid() && r.cache == base.Cache()
    ensures base.terminalCount == old(base.terminalCount) && base.kernelBitmap == old(base.kernelBitmap)
    ensures r == PayloadsUpTo(r0, PayloadSizes(p2p.reqs, n), n, allocFails, createFails)
  {
    ghost var sizes := PayloadSizes(p2p.reqs, n);
    r := r0;
    var i := 0;
    while i < n
      invariant i <= n && base.Valid() && r.cache == base.Cache() && r.status == OK
      invariant base.terminalCount == old(base.terminalCount) && base.kernelBitmap == old(base.kernelBitmap)
      invariant r == PayloadsUpTo(r0, sizes, i, allocFails, createFails)
    {
      var st, size := p2p.GetPayloadSize(i);
      if st != OK {
        r := r.(status := st);
      } else {
        r := PreparePayload(base, r, i, size, allocFails, createFails);
      }
      if r.status != OK {
        PayloadsStuck(r0, sizes, i + 1, n, allocFails, createFails);
        return;
      }
      i := i + 1;
    }
  }

  /**
   * The k-th frame registration of prepareTerminalBuffers, on the base
   * pipe's buffer cache: the registrations still to come start from its
   * result.
   */
  method RegisterFrame(base: Base.PipeBase, r0: BufferRun, regs: seq<FrameReg>, k: nat, createFails: bool) returns (r: BufferRun)
    requires base.Valid() && r0.status == OK && r0.cache == base.Cache() && k < |regs|
    modifies base
    ensures base.Valid() && r.cache == base.Cache()
    ensures base.terminalCount == old(base.terminalCount) && base.kernelBitmap == old(base.kernelBitmap)
    ensures r == RegisterFrames(r0, [regs[k]], createFails)
    ensures RegisterFrames(r, regs[k + 1..], createFails) == RegisterFrames(r0, regs[k..], createFails)
  {
    var buf := base.RegisterCameraBuffer(regs[k].buf, regs[k].size, createFails);
    if buf.None? {
      r := r0.(status := NO_MEMORY, cache := base.Cache());
    } else {
      r := r0.(cache := base.Cache(), terminalBuffers := r0.terminalBuffers[regs[k].terminal := buf.value]);
    }
    RegisterFramesAppend(r0, [regs[k]], regs[k + 1..], createFails);
    assert [regs[k]] + regs[k + 1..] == regs[k..];
  }

  /** Registering a list of frames is registering its first part, then the rest. */
  lemma {:induction false} RegisterFramesAppend(r: BufferRun, a: seq<FrameReg>, b: seq<FrameReg>, createFails: bool)
    ensures RegisterFrames(r, a + b, createFails) == RegisterFrames(RegisterFrames(r, a, createFails), b, createFails)
    decreases |a|
  {
    if a != [] && r.status == OK {
      assert (a + b)[0] == a[0] && (a + b)[1..] == a[1..] + b;
      var (cache, buf) := Base.RegisterCamera(r.cache, a[0].buf, a[0].size, createFails);
      if buf.Some? {
        RegisterFramesAppend(r.(cache := cache, terminalBuffers := r.terminalBuffers[a[0].terminal := buf.value]), a[1..], b, createFails);
      }
    } else if a == [] {
      assert a + b == b;
    }
  }

  /**
   * The frame registrations of prepareTerminalBuffers: the source, the
   * display output, then the second and third outputs when there are that
   * many destination buffers; NO_MEMORY at the first that fails.
   */
  method RegisterTerminalFrames(base: Base.PipeBase, r0: BufferRun, regs: seq<FrameReg>, createFails: bool) returns (r: BufferRun)
    requires base.Valid() && r0.status == OK && r0.cache == base.Cache() && 2 <= |regs| <= 4
    modifies base
    ensures base.Valid() && r.cache == base.Cache()
    ensures base.terminalCount == old(base.terminalCount) && base.kernelBitmap == old(base.kernelBitmap)
    ensures r == RegisterFrames(r0, regs, createFails)
  {
    assert regs[0..] == regs;
    r := RegisterFrame(base, r0, regs, 0, createFails);
    if r.status != OK {
      return;
    }
    r := RegisterFrame(base, r, regs, 1, createFails);
    if r.status != OK || |regs| == 2 {
      assert |regs| == 2 ==> regs[2..] == [];
      return;
    }
    r := RegisterFrame(base, r, regs, 2, createFails);
    if r.status != OK || |regs| == 3 {
      assert |regs| == 3 ==> regs[3..] == [];
      return;
    }
    r := RegisterFrame(base, r, regs, 3, createFails);
    assert regs[4..] == [];
  }

  /** prepareTerminalBuffers on the P2P's sizes and the base pipe's buffer cache. */
  method PrepareBuffers(p2p: Lite.P2pLite, base: Base.PipeBase, r0: BufferRun, ids: TerminalIds,
                        srcBufs: seq<Base.CameraBufferRef>, dstBufs: seq<Base.CameraBufferRef>,
                        src: FrameInfo, dst: map<Port, FrameInfo>, m: map<Port, Port>,
                        frameSize: (int, int, int) -> int, allocFails: bool, createFails: bool)
    returns (r: BufferRun)
    requires |p2p.reqs| == p2p.maxTerminals && base.Valid() && r0.status == OK && r0.cache == base.Cache()
    requires OutputsValid(dst) && Routes(m, dst)
    requires |srcBufs| == 1 && 1 <= |dstBufs| <= 3 ==> |dstBufs| == OutputCount(dst)
    modifies base
    ensures base.Valid() && r.cache == base.Cache()
    ensures base.terminalCount == old(base.terminalCount) && base.kernelBitmap == old(base.kernelBitmap)
    ensures r == PreparedBuffers(r0, ids, PayloadSizes(p2p.reqs, base.terminalCount), srcBufs, dstBufs, src, dst, m,
                                 frameSize, allocFails, createFails)
  {
    if |srcBufs| != 1 || |dstBufs| == 0 || |dstBufs| > 3 {
      return r0.(status := UNKNOWN_ERROR);
    }
    r := PayloadLoop(p2p, base, r0, base.terminalCount, allocFails, createFails);
    if r.status == OK {
      var regs := FrameRegs(ids, srcBufs[0], dstBufs, src, dst, m, frameSize);
      r := RegisterTerminalFrames(base, r, regs, createFails);
    }
  }

  /**
   * ScalePipeline: the pipe state that prepare and the buffer preparation
   * update.  The kernel table and resolution records are shared arrays, the
   * P2P and the base pipe state the objects it drives.
   */
  class ScalePipeline {
    const ids: TerminalIds
    const paramNum: nat
    const codes: OfFormatCodes
    const resInfos: array<ResolutionInfo>
    const runKernels: array<Lite.RunKernel>
    const p2p: Lite.P2pLite
    const base: Base.PipeBase

    var srcFrames: map<Port, FrameInfo>
    var dstFrames: map<Port, FrameInfo>
    var scaleMap: map<Port, Port>
    var cropRegion: CropRegion
    var frameFormats: seq<Base.CssFrameFormat>
    var payloads: seq<Payload>
    var nextAddress: nat
    var terminalBuffers: map<nat, nat>

    /**
     * The terminal ids are in order, the format list has an entry up to
     * _PUT_PP, there are kParamNum payloads, the kernel table is wired to
     * the records and the P2P keeps its own copy of it.  The base pipe and
     * the P2P keep their own invariants, which the methods that use them
     * demand and keep.
     */
    ghost predicate Valid()
      reads this, p2p, runKernels
    {
      && IdsOrdered(ids)
      && |frameFormats| == ids.putPp + 1
      && |payloads| == paramNum
      && 0 < nextAddress
      && Wired(runKernels[..], resInfos.Length)
      && p2p.runKernels != runKernels
    }

    /** What prepareTerminalBuffers works on. */
    function Run(): BufferRun
      reads this, base
    {
      BufferRun(OK, payloads, base.Cache(), nextAddress, terminalBuffers)
    }

    /** The frames are routed: a source frame, valid outputs, and a scale map that routes every output. */
    predicate Routing()
      reads this
    {
      MAIN_PORT in srcFrames && OutputsValid(dstFrames) && Routes(scaleMap, dstFrames)
    }

    /** The frame each output port's path produces under the scale map. */
    function RoutedFrames(): map<Port, FrameInfo>
      reads this
      requires Routing()
    {
      Routed(scaleMap, dstFrames)
    }

    /** The output ports, in the order a std::map visits them. */
    function Ports(): seq<Port>
      reads this
      requires OutputsValid(dstFrames)
    {
      OutputPorts(OutputCount(dstFrames))
    }

    /** The format of the frame the last output port produces, which the kernels' metadata get. */
    function LastFormat(): int
      reads this
      requires Routing()
    {
      Routed(scaleMap, dstFrames)[LastPort(dstFrames)].format
    }

    /** The source frame, MAIN_PORT's input. */
    function Src(): FrameInfo
      reads this
      requires MAIN_PORT in srcFrames
    {
      srcFrames[MAIN_PORT]
    }

    /** The constructor: every format of the list unknown, payloads and crop cleared. */
    constructor(ids: TerminalIds, paramNum: nat, codes: OfFormatCodes, resInfos: array<ResolutionInfo>,
                runKernels: array<Lite.RunKernel>, p2p: Lite.P2pLite, base: Base.PipeBase)
      requires IdsOrdered(ids)
      requires Wired(runKernels[..], resInfos.Length) && p2p.runKernels != runKernels
      ensures Valid()
      ensures this.ids == ids && this.paramNum == paramNum && this.codes == codes && this.resInfos == resInfos
      ensures this.runKernels == runKernels && this.p2p == p2p && this.base == base
      ensures frameFormats == seq(ids.putPp + 1, _ => Base.IA_CSS_N_FRAME_FORMAT_TYPES)
      ensures payloads == seq(paramNum, _ => Payload(0, 0)) && cropRegion == CropRegion(0, 0, 0)
      ensures srcFrames == map[] && dstFrames == map[] && scaleMap == map[] && terminalBuffers == map[]
    {
      this.ids := ids;
      this.paramNum := paramNum;
      this.codes := codes;
      this.resInfos := resInfos;
      this.runKernels := runKernels;
      this.p2p := p2p;
      this.base := base;
      var fs: seq<Base.CssFrameFormat> := [];
      var i := 0;
      while i < ids.putPp + 1
        invariant i <= ids.putPp + 1
        invariant fs == seq(i, _ => Base.IA_CSS_N_FRAME_FORMAT_TYPES)
      {
        fs := fs + [Base.IA_CSS_N_FRAME_FORMAT_TYPES];
        i := i + 1;
      }
      frameFormats := fs;
      payloads := seq(paramNum, _ => Payload(0, 0));
      cropRegion := CropRegion(0, 0, 0);
      srcFrames := map[];
      dstFrames := map[];
      scaleMap := map[];
      nextAddress := 1;
      terminalBuffers := map[];
    }

    /** setInputInfo: the source frames are replaced. */
    method SetInputInfo(inputs: map<Port, FrameInfo>)
      requires Valid()
      modifies this
      ensures Valid() && srcFrames == inputs
      ensures dstFrames == old(dstFrames) && scaleMap == old(scaleMap) && cropRegion == old(cropRegion)
      ensures frameFormats == old(frameFormats) && Run() == old(Run())
    {
      srcFrames := inputs;
    }

    /** setOutputInfo: the destination frames are replaced. */
    method SetOutputInfo(outputs: map<Port, FrameInfo>)
      requires Valid()
      modifies this
      ensures Valid() && dstFrames == outputs
      ensures srcFrames == old(srcFrames) && scaleMap == old(scaleMap) && cropRegion == old(cropRegion)
      ensures frameFormats == old(frameFormats) && Run() == old(Run())
    {
      dstFrames := outputs;
    }

    /** setParameters: the crop region is taken from the parameters. */
    method SetParameters(crop: CropRegion)
      requires Valid()
      modifies this
      ensures Valid() && cropRegion == crop
      ensures srcFrames == old(srcFrames) && dstFrames == old(dstFrames) && scaleMap == old(scaleMap)
      ensures frameFormats == old(frameFormats) && Run() == old(Run())
    {
      cropRegion := crop;
    }

    /**
     * setScaleMapInfo: every output is routed to itself, then, with two or
     * more outputs, the first full-size one other than SECOND_PORT is
     * exchanged with SECOND_PORT.
     */
    method SetScaleMapInfo(outputs: map<Port, FrameInfo>)
      requires Valid() && OutputsValid(outputs) && MAIN_PORT in srcFrames
      modifies this
      ensures srcFrames == old(srcFrames) && dstFrames == old(dstFrames) && cropRegion == old(cropRegion)
      ensures frameFormats == old(frameFormats) && Run() == old(Run())
      ensures Valid() && scaleMap == ScaleMapOf(old(scaleMap), outputs, Src())
      ensures Routes(scaleMap, outputs)
    {
      ScaleMapRoutes(scaleMap, outputs, srcFrames[MAIN_PORT]);
      scaleMap := ScaleMapLoop(scaleMap, outputs, srcFrames[MAIN_PORT]);
    }

    /**
     * setCropAndFormatInfo: the records of every output port's scaler and
     * cropper, then the output format of the last port's routed frame in
     * every kernel's metadata.
     */
    method SetCropAndFormatInfo(scaled: map<Port, Size>)
      requires Valid() && Routing() && forall p :: p in dstFrames ==> p in scaled
      modifies resInfos, runKernels
      ensures Valid()
      ensures resInfos[..] == CropFold(old(resInfos[..]), old(runKernels[..]), Ports(), Src(), RoutedFrames(), cropRegion, scaled)
      ensures runKernels[..] == KernelsWithFormat(old(runKernels[..]), OfFormatOf(LastFormat(), codes))
    {
      var routed := Routed(scaleMap, dstFrames);
      var ps := OutputPorts(OutputCount(dstFrames));
      var last := routed[ps[|ps| - 1]];
      assert last.format == LastFormat();
      assert Covered(ps, routed, scaled);
      CropAndFormat(resInfos, runKernels, ps, srcFrames[MAIN_PORT], routed, cropRegion, scaled, last.format, codes);
    }

    /**
     * The first half of prepare: the scale map, the records and kernel
     * metadata, and the kernel table handed to the P2P.
     */
    method ConfigureKernels(scaled: map<Port, Size>)
      requires Valid() && p2p.Valid() && MAIN_PORT in srcFrames && OutputsValid(dstFrames)
      requires forall p :: p in dstFrames ==> p in scaled
      modifies this, p2p, p2p.runKernels, resInfos, runKernels
      ensures srcFrames == old(srcFrames) && dstFrames == old(dstFrames) && cropRegion == old(cropRegion)
      ensures frameFormats == old(frameFormats) && Run() == old(Run())
      ensures Valid() && p2p.Valid() && Routing()
      ensures scaleMap == ScaleMapOf(old(scaleMap), dstFrames, Src())
      ensures resInfos[..] == CropFold(old(resInfos[..]), old(runKernels[..]), Ports(), Src(), RoutedFrames(), cropRegion, scaled)
      ensures runKernels[..] == KernelsWithFormat(old(runKernels[..]), OfFormatOf(LastFormat(), codes))
      ensures p2p.runKernels != null && p2p.runKernels[..] == runKernels[..]
    {
      SetScaleMapInfo(dstFrames);
      ConfigureKernelTable(scaled);
    }

    /** The records and kernel metadata for the routed frames, and the kernel table handed to the P2P. */
    method ConfigureKernelTable(scaled: map<Port, Size>)
      requires Valid() && p2p.Valid() && Routing() && forall p :: p in dstFrames ==> p in scaled
      modifies p2p, p2p.runKernels, resInfos, runKernels
      ensures Valid() && p2p.Valid()
      ensures resInfos[..] == CropFold(old(resInfos[..]), old(runKernels[..]), Ports(), Src(), RoutedFrames(), cropRegion, scaled)
      ensures runKernels[..] == KernelsWithFormat(old(runKernels[..]), OfFormatOf(LastFormat(), codes))
      ensures p2p.runKernels != null && p2p.runKernels[..] == runKernels[..]
    {
      SetCropAndFormatInfo(scaled);
      ghost var ks := runKernels[..];
      var _ := p2p.SetKernelConfig(RUN_KERNEL_COUNT, runKernels[..]);
      assert runKernels[..] == ks && ks[..RUN_KERNEL_COUNT] == ks;
    }

    /**
     * The second half of prepare: the formats of the four terminals, and the
     * kernel bitmap cut down to the kernels of the terminals in use.
     */
    method FinishPrepare()
      requires Valid() && Routing()
      modifies this, base
      ensures srcFrames == old(srcFrames) && dstFrames == old(dstFrames) && cropRegion == old(cropRegion)
      ensures scaleMap == old(scaleMap) && Run() == old(Run()) && Valid()
      ensures frameFormats == PreparedFormats(old(frameFormats), ids, Src(), RoutedFrames())
      ensures base.kernelBitmap == old(base.kernelBitmap) * KernelMask(OutputCount(dstFrames))
      ensures base.terminalCount == old(base.terminalCount)
    {
      var fs := PrepareFormats(frameFormats, ids, srcFrames[MAIN_PORT], Routed(scaleMap, dstFrames));
      var mask := ScaleKernelMask(OutputCount(dstFrames));
      frameFormats := fs;
      base.kernelBitmap := base.kernelBitmap * mask;
    }

    /**
     * prepare, up to the base pipe's own preparation: the two halves above
     * in turn.
     */
    method Prepare(scaled: map<Port, Size>)
      requires Valid() && p2p.Valid() && MAIN_PORT in srcFrames && OutputsValid(dstFrames)
      requires forall p :: p in dstFrames ==> p in scaled
      modifies this, base, p2p, p2p.runKernels, resInfos, runKernels
      ensures srcFrames == old(srcFrames) && dstFrames == old(dstFrames) && cropRegion == old(cropRegion)
      ensures Valid() && p2p.Valid() && Run() == old(Run()) && Routing()
      ensures scaleMap == ScaleMapOf(old(scaleMap), dstFrames, Src())
      ensures resInfos[..] == CropFold(old(resInfos[..]), old(runKernels[..]), Ports(), Src(), RoutedFrames(), cropRegion, scaled)
      ensures runKernels[..] == KernelsWithFormat(old(runKernels[..]), OfFormatOf(LastFormat(), codes))
      ensures p2p.runKernels != null && p2p.runKernels[..] == runKernels[..]
      ensures frameFormats == PreparedFormats(old(frameFormats), ids, Src(), RoutedFrames())
      ensures base.kernelBitmap == old(base.kernelBitmap) * KernelMask(OutputCount(dstFrames))
      ensures base.terminalCount == old(base.terminalCount)
    {
      ConfigureKernels(scaled);
      FinishPrepare();
    }

    /**
     * prepareTerminalBuffers: UNKNOWN_ERROR unless there is one source
     * buffer and one to three destination buffers; then every terminal's
     * parameter payload is (re)allocated and registered, and the source
     * and destination frames are registered for their terminals, the
     * first failure ending the preparation with its status.
     */
    method PrepareTerminalBuffers(srcBufs: seq<Base.CameraBufferRef>, dstBufs: seq<Base.CameraBufferRef>,
                                  frameSize: (int, int, int) -> int, allocFails: bool, createFails: bool)
      returns (status: Status)
      requires Valid() && base.Valid() && |p2p.reqs| == p2p.maxTerminals && Routing()
      requires |srcBufs| == 1 && 1 <= |dstBufs| <= 3 ==> |dstBufs| == OutputCount(dstFrames)
      modifies this, base
      ensures srcFrames == old(srcFrames) && dstFrames == old(dstFrames) && scaleMap == old(scaleMap)
      ensures cropRegion == old(cropRegion) && frameFormats == old(frameFormats)
      ensures Valid() && base.Valid()
      ensures base.terminalCount == old(base.terminalCount) && base.kernelBitmap == old(base.kernelBitmap)
      ensures Run().(status := status) == PreparedBuffers(old(Run()), ids, PayloadSizes(p2p.reqs, base.terminalCount),
        srcBufs, dstBufs, Src(), dstFrames, scaleMap, frameSize, allocFails, createFails)
    {
      var r := PrepareBuffers(p2p, base, Run(), ids, srcBufs, dstBufs, srcFrames[MAIN_PORT], dstFrames, scaleMap,
                              frameSize, allocFails, createFails);
      payloads, nextAddress, terminalBuffers := r.payloads, r.nextAddress, r.terminalBuffers;
      status := r.status;
    }

    /**
     * setTerminalParams on the program group's terminal parameters: each of
     * the pipe's terminals is described with its format from the list and
     * its frame; a terminal the parameters do not hold fails the call with
     * -1, the terminals before it written.
     */
    method SetTerminalParams(frameFormatTypes: seq<Base.CssFrameFormat>, params0: seq<TerminalParam>)
      returns (status: Status, params: seq<TerminalParam>)
      requires Valid() && base.terminalCount <= |frameFormatTypes|
      requires MAIN_PORT in srcFrames && OutputsValid(dstFrames) && Routes(scaleMap, dstFrames)
      ensures |params| == |params0|
      ensures status == OK <==> base.terminalCount <= |params0|
      ensures status != OK ==> status == PERMISSION_DENIED
      ensures forall i :: 0 <= i < |params0| ==>
        params[i] == if i < base.terminalCount
                     then ParamFor(frameFormatTypes[i], TerminalFrame(ids, i, Src(), Routed(scaleMap, dstFrames), OutputCount(dstFrames)))
                     else params0[i]
    {
      var routed := Routed(scaleMap, dstFrames);
      OutputCountIsSize(dstFrames);
      var count := |dstFrames|;
      params := params0;
      var i := 0;
      while i < base.terminalCount
        invariant 0 <= i <= base.terminalCount && |params| == |params0|
        invariant i <= |params0|
        invariant forall j :: 0 <= j < |params0| ==>
          params[j] == if j < i then ParamFor(frameFormatTypes[j], TerminalFrame(ids, j, Src(), routed, count)) else params0[j]
      {
        if i >= |params| {
          return PERMISSION_DENIED, params;
        }
        var config := srcFrames[MAIN_PORT];
        if i >= ids.putDisplay {
          config := routed[MAIN_PORT];
        }
        if count >= 2 && i == ids.putMain {
          config := routed[SECOND_PORT];
        }
        if count == 3 && i == ids.putPp {
          config := routed[THIRD_PORT];
        }
        params := params[i := TerminalParam(frameFormatTypes[i], config.width, config.height, config.bpp,
                                            config.width, config.height, config.stride, 0, 0, 0)];
        i := i + 1;
      }
      status := OK;
    }
  }
}
