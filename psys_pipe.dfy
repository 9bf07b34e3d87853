/**
 * The bookkeeping of a CIPF processing pipe (core/psysprocessor/PSysPipe.cpp):
 * the external source and sink ids given to edge connections when the pipe
 * is built, the per-terminal frame formats, the stage-to-feedback pairs,
 * the stages that produce statistics, the edge amendment of a connection
 * and the payload size of a buffer.  The CIPF library itself (stage
 * creation, terminals, connections, properties, buffers) is not part of
 * this model: the uids it derives are parameters.
 */
module PSysPipe {
  import opened Common

  datatype ConnectionType = CONNECTION_PUSH | CONNECTION_PULL | CONNECTION_OTHER(code: int)

  /** GraphConfig::ConnectionConfig as the pipe uses it. */
  datatype PipeConnection = PipeConnection(
    sourceStage: int, sourceTerminal: int, sourceIteration: int,
    sinkStage: int, sinkTerminal: int, sinkIteration: int,
    connectionType: ConnectionType)

  // ---------------------------------------------------------------------
  // build: external source and sink ids (159-190).
  // ---------------------------------------------------------------------

  /** How many connections before position i have an external (stage 0) source. */
  function ExternalSourcesBefore(cs: seq<PipeConnection>, i: nat): (n: nat)
    requires i <= |cs|
    ensures n <= i
  {
    if i == 0 then 0 else ExternalSourcesBefore(cs, i - 1) + (if cs[i - 1].sourceStage == 0 then 1 else 0)
  }

  /** How many connections before position i have an external (stage 0) sink. */
  function ExternalSinksBefore(cs: seq<PipeConnection>, i: nat): (n: nat)
    requires i <= |cs|
    ensures n <= i
  {
    if i == 0 then 0 else ExternalSinksBefore(cs, i - 1) + (if cs[i - 1].sinkStage == 0 then 1 else 0)
  }

  /**
   * The connection as build leaves it: an external source takes the
   * external source uid and terminal of its running number among the
   * external sources, and likewise an external sink.
   */
  function WithExternalIds(cs: seq<PipeConnection>, i: nat,
                           srcUid: int -> int, srcTerm: int -> int, sinkUid: int -> int, sinkTerm: int -> int): PipeConnection
    requires i < |cs|
  {
    var c := cs[i];
    var c1 := if c.sourceStage == 0
      then c.(sourceStage := srcUid(ExternalSourcesBefore(cs, i)), sourceTerminal := srcTerm(ExternalSourcesBefore(cs, i)))
      else c;
    if c.sinkStage == 0
      then c1.(sinkStage := sinkUid(ExternalSinksBefore(cs, i)), sinkTerminal := sinkTerm(ExternalSinksBefore(cs, i)))
      else c1
  }

  /**
   * The id assignment of build.  srcUid, srcTerm, sinkUid and sinkTerm are
   * ia_cipf_external_source_uid, ia_cipf_external_source_terminal_uid,
   * ia_cipf_external_sink_uid and ia_cipf_external_sink_terminal_uid.
   */
  method AssignExternalIds(cs: seq<PipeConnection>,
                           srcUid: int -> int, srcTerm: int -> int, sinkUid: int -> int, sinkTerm: int -> int)
    returns (out: seq<PipeConnection>)
    ensures |out| == |cs|
    ensures forall i :: 0 <= i < |cs| ==> out[i] == WithExternalIds(cs, i, srcUid, srcTerm, sinkUid, sinkTerm)
  {
    out := [];
    var localSourceId, localSinkId := 0, 0;
    var i := 0;
    while i < |cs|
      invariant i <= |cs| && |out| == i
      invariant localSourceId == ExternalSourcesBefore(cs, i) && localSinkId == ExternalSinksBefore(cs, i)
      invariant forall k :: 0 <= k < i ==> out[k] == WithExternalIds(cs, k, srcUid, srcTerm, sinkUid, sinkTerm)
    {
      var c := cs[i];
      if c.sourceStage == 0 {
        c := c.(sourceStage := srcUid(localSourceId), sourceTerminal := srcTerm(localSourceId));
        localSourceId := localSourceId + 1;
      }
      if c.sinkStage == 0 {
        c := c.(sinkStage := sinkUid(localSinkId), sinkTerminal := sinkTerm(localSinkId));
        localSinkId := localSinkId + 1;
      }
      out := out + [c];
      i := i + 1;
    }
  }

  /** A later external source has a larger running number. */
  lemma {:induction false} ExternalSourcesIncrease(cs: seq<PipeConnection>, i: nat, j: nat)
    requires i < j < |cs| && cs[i].sourceStage == 0
    ensures ExternalSourcesBefore(cs, i) < ExternalSourcesBefore(cs, j)
    decreases j - i
  {
    if j > i + 1 {
      ExternalSourcesIncrease(cs, i, j - 1);
    }
  }

  /** A later external sink has a larger running number. */
  lemma {:induction false} ExternalSinksIncrease(cs: seq<PipeConnection>, i: nat, j: nat)
    requires i < j < |cs| && cs[i].sinkStage == 0
    ensures ExternalSinksBefore(cs, i) < ExternalSinksBefore(cs, j)
    decreases j - i
  {
    if j > i + 1 {
      ExternalSinksIncrease(cs, i, j - 1);
    }
  }

  /** Sequential ids: two external sources get different running numbers, and so do two external sinks. */
  lemma ExternalIdsDistinct(cs: seq<PipeConnection>, i: nat, j: nat)
    requires i < j < |cs|
    ensures cs[i].sourceStage == 0 && cs[j].sourceStage == 0 ==> ExternalSourcesBefore(cs, i) != ExternalSourcesBefore(cs, j)
    ensures cs[i].sinkStage == 0 && cs[j].sinkStage == 0 ==> ExternalSinksBefore(cs, i) != ExternalSinksBefore(cs, j)
  {
    if cs[i].sourceStage == 0 {
      ExternalSourcesIncrease(cs, i, j);
    }
    if cs[i].sinkStage == 0 {
      ExternalSinksIncrease(cs, i, j);
    }
  }

  // ---------------------------------------------------------------------
  // amendEdgeConnectionInfo (379-394).
  // ---------------------------------------------------------------------

  /** amendEdgeConnectionInfo: the side of an edge connection outside the pipe is nullified. */
  function AmendEdgeConnectionInfo(ci: PipeConnection): (r: PipeConnection)
    ensures ci.connectionType == CONNECTION_PUSH ==>
      r == ci.(sourceStage := 0, sourceTerminal := 0)
    ensures ci.connectionType == CONNECTION_PULL ==>
      r == ci.(sinkStage := 0, sinkTerminal := 0)
    ensures ci.connectionType.CONNECTION_OTHER? ==> r == ci
    ensures r.connectionType == ci.connectionType
      && r.sourceIteration == ci.sourceIteration && r.sinkIteration == ci.sinkIteration
  {
    match ci.connectionType
    case CONNECTION_PUSH => ci.(sourceStage := 0, sourceTerminal := 0)
    case CONNECTION_PULL => ci.(sinkStage := 0, sinkTerminal := 0)
    case CONNECTION_OTHER(_) => ci
  }

  /** Amending twice is amending once. */
  lemma AmendIdempotent(ci: PipeConnection)
    ensures AmendEdgeConnectionInfo(AmendEdgeConnectionInfo(ci)) == AmendEdgeConnectionInfo(ci)
  {
  }

  // ---------------------------------------------------------------------
  // getPayloadSize (759-801).
  // ---------------------------------------------------------------------

  /** The CIPF frame fourccs getPayloadSize distinguishes. */
  datatype CipfFourcc =
    | CSS_FOURCC_RAW | FOURCC_BA10 | FOURCC_GR10 | FOURCC_GRBG | FOURCC_RGGB
    | FOURCC_BGGR | FOURCC_GBRG | CSS_FOURCC_RAW_INTERLEAVED | FOURCC_BA12
    | CSS_FOURCC_YYUV420_V32
    | OTHER_FOURCC(code: int)

  predicate IsRawFourcc(f: CipfFourcc)
  {
    !f.OTHER_FOURCC? && f != CSS_FOURCC_YYUV420_V32
  }

  /**
   * What a CIPF buffer tells about itself: a frame buffer with the frame
   * format the library reports (None when the query fails), or a
   * parameter buffer with its payload size.
   */
  datatype CipfBuffer =
    | FrameBuffer(format: Option<(CipfFourcc, nat, nat)>)
    | ParamBuffer(payloadSize: nat)

  /**
   * getPayloadSize: raw Bayer formats take height lines of bpl bytes; the
   * vectorised YUV format interleaves two lines in one; other YUV formats
   * add half again for chroma (1.5 times, truncated); a failing format
   * query gives 0; a parameter buffer already knows its size.
   */
  function PayloadSize(b: CipfBuffer): (r: nat)
    ensures b.ParamBuffer? ==> r == b.payloadSize
    ensures b.FrameBuffer? && b.format.None? ==> r == 0
    ensures b.FrameBuffer? && b.format.Some? && IsRawFourcc(b.format.value.0) ==>
      r == b.format.value.1 * b.format.value.2
  {
    match b
    case ParamBuffer(size) => size
    case FrameBuffer(None) => 0
    case FrameBuffer(Some((fourcc, height, bpl))) =>
      if IsRawFourcc(fourcc) then height * bpl
      else if fourcc == CSS_FOURCC_YYUV420_V32 then (height / 2) * bpl
      else
        var x := height * bpl;
        x + x / 2
  }

  /**
   * The YUV formats: the vectorised one never needs more than the raw
   * size, and the others need 1.5 times the raw size, rounded down.
   */
  lemma PayloadSizeYuv(fourcc: CipfFourcc, height: nat, bpl: nat)
    requires !IsRawFourcc(fourcc)
    ensures var r := PayloadSize(FrameBuffer(Some((fourcc, height, bpl))));
      && (fourcc == CSS_FOURCC_YYUV420_V32 ==> 2 * r <= height * bpl)
      && (fourcc.OTHER_FOURCC? ==> 2 * r <= 3 * (height * bpl) < 2 * r + 2)
  {
    var r := PayloadSize(FrameBuffer(Some((fourcc, height, bpl))));
    if fourcc == CSS_FOURCC_YYUV420_V32 {
      var h2 := height / 2;
      assert 2 * h2 <= height;
      assert r == h2 * bpl;
      assert 2 * r == (2 * h2) * bpl;
      MulMono(2 * h2, height, bpl);
    } else {
      var x := height * bpl;
      assert r == x + x / 2;
    }
  }

  lemma MulMono(a: nat, b: nat, c: nat)
    requires a <= b
    ensures a * c <= b * c
  {
  }

  // ---------------------------------------------------------------------
  // The pipe's tables.
  // ---------------------------------------------------------------------

  /** GraphConfig::PortFormatSettings. */
  datatype PortFormatSettings = PortFormatSettings(enabled: int, terminalId: int, width: int, height: int, fourcc: int, bpl: int, bpp: int)

  /** ia_cipf_frame_format_t as stored per terminal. */
  datatype FrameFormat = FrameFormat(width: int, height: int, fourcc: int, bpl: int, bpp: int)

  /** A (stage uid, value) pair of the cyclic feedback tables. */
  datatype StagePair = StagePair(stage: int, value: int)

  /** The feedback pairs: PG i's stage uid with configuration value i. */
  method BuildFeedbackPairs(pgIds: seq<int>, values: seq<int>, stageUid: int -> int) returns (pairs: seq<StagePair>)
    requires |pgIds| == |values|
    ensures |pairs| == |pgIds|
    ensures forall i :: 0 <= i < |pgIds| ==> pairs[i] == StagePair(stageUid(pgIds[i]), values[i])
  {
    pairs := [];
    var i := 0;
    while i < |pgIds|
      invariant i <= |pgIds| && |pairs| == i
      invariant forall k :: 0 <= k < i ==> pairs[k] == StagePair(stageUid(pgIds[k]), values[k])
    {
      pairs := pairs + [StagePair(stageUid(pgIds[i]), values[i])];
      i := i + 1;
    }
  }

  /** Membership by a scan, as the loops over mPGIds do. */
  method Contains(xs: seq<int>, x: int) returns (found: bool)
    ensures found <==> x in xs
  {
    var i := 0;
    while i < |xs|
      invariant i <= |xs| && x !in xs[..i]
    {
      if xs[i] == x {
        return true;
      }
      assert xs[..i + 1] == xs[..i] + [xs[i]];
      i := i + 1;
    }
    assert xs[..i] == xs;
    return false;
  }

  /** A stage uid already recorded for some kernel. */
  predicate RecordsStage(m: seq<Binding<int, int>>, stage: int)
  {
    exists i :: 0 <= i < |m| && m[i].value == stage
  }

  /** The scan of addDecodeStage over the recorded stages. */
  method StageRecorded(m: seq<Binding<int, int>>, stage: int) returns (found: bool)
    ensures found <==> RecordsStage(m, stage)
  {
    var i := 0;
    while i < |m|
      invariant i <= |m|
      invariant forall k :: 0 <= k < i ==> m[k].value != stage
    {
      if m[i].value == stage {
        return true;
      }
      i := i + 1;
    }
    return false;
  }

  /** No stage is recorded for two kernels. */
  predicate DistinctStages(m: seq<Binding<int, int>>)
  {
    forall i, j :: 0 <= i < j < |m| ==> m[i].value != m[j].value
  }

  /**
   * What addDecodeStage does to the kernel-to-stage table: with the kernel
   * found in a PG of this pipe, the kernel records that PG's stage unless
   * the stage is already recorded; the SIS kernel always records it.
   */
  function DecodeStageAdded(m: seq<Binding<int, int>>, pgIds: seq<int>, pgOfKernel: Option<int>,
                            kernelId: int, sisKernelId: int, stageUid: int -> int): seq<Binding<int, int>>
  {
    if pgOfKernel.None? || pgIds == [] || pgOfKernel.value !in pgIds then m
    else
      var stage := stageUid(pgOfKernel.value);
      if !RecordsStage(m, stage) || kernelId == sisKernelId then Put(m, kernelId, stage) else m
  }

  /** Kernels other than SIS never make two kernels share a stage. */
  lemma DecodeStageKeepsDistinct(m: seq<Binding<int, int>>, pgIds: seq<int>, pgOfKernel: Option<int>,
                                 kernelId: int, sisKernelId: int, stageUid: int -> int)
    requires DistinctStages(m) && kernelId != sisKernelId
    ensures DistinctStages(DecodeStageAdded(m, pgIds, pgOfKernel, kernelId, sisKernelId, stageUid))
  {
    var r := DecodeStageAdded(m, pgIds, pgOfKernel, kernelId, sisKernelId, stageUid);
    if r != m {
      var stage := stageUid(pgOfKernel.value);
      assert r == Put(m, kernelId, stage) && !RecordsStage(m, stage);
      forall i, j | 0 <= i < j < |r| ensures r[i].value != r[j].value {
        if r[i] == Binding(kernelId, stage) {
          if r[j] != Binding(kernelId, stage) {
            assert r[j] == m[j];
          }
        } else {
          assert r[i] == m[i];
          if r[j] != Binding(kernelId, stage) {
            assert r[j] == m[j];
          }
        }
      }
    }
  }

  /** A kernel found in the pipe can always be looked up afterwards, with its PG's stage unless that was taken. */
  lemma DecodeStageLookup(m: seq<Binding<int, int>>, pgIds: seq<int>, pg: int,
                          kernelId: int, sisKernelId: int, stageUid: int -> int)
    requires pg in pgIds
    requires !RecordsStage(m, stageUid(pg)) || kernelId == sisKernelId
    ensures Get(DecodeStageAdded(m, pgIds, Some(pg), kernelId, sisKernelId, stageUid), kernelId) == Some(stageUid(pg))
  {
    GetPutSame(m, kernelId, stageUid(pg));
  }

  class Pipe {
    var pgIds: seq<int>
    /** mTermConfigMap: terminal id to frame format. */
    var termConfigMap: seq<Binding<int, FrameFormat>>
    /** mStageUidsWithStats: statistics kernel id to the stage uid of its PG. */
    var stageUidsWithStats: seq<Binding<int, int>>
    var cyclicFeedbackRoutinePairs: seq<StagePair>
    var cyclicFeedbackDelayPairs: seq<StagePair>

    constructor (ids: seq<int>)
      ensures pgIds == ids && termConfigMap == [] && stageUidsWithStats == []
      ensures cyclicFeedbackRoutinePairs == [] && cyclicFeedbackDelayPairs == []
    {
      pgIds := ids;
      termConfigMap := [];
      stageUidsWithStats := [];
      cyclicFeedbackRoutinePairs := [];
      cyclicFeedbackDelayPairs := [];
    }

    /** setTerminalConfig: an enabled port's format is stored under its terminal, replacing any earlier one. */
    method SetTerminalConfig(format: PortFormatSettings)
      modifies this
      ensures format.enabled == 0 ==> termConfigMap == old(termConfigMap)
      ensures format.enabled != 0 ==> termConfigMap == Put(old(termConfigMap), format.terminalId,
        FrameFormat(format.width, format.height, format.fourcc, format.bpl, format.bpp))
      ensures pgIds == old(pgIds) && stageUidsWithStats == old(stageUidsWithStats)
      ensures cyclicFeedbackRoutinePairs == old(cyclicFeedbackRoutinePairs)
      ensures cyclicFeedbackDelayPairs == old(cyclicFeedbackDelayPairs)
    {
      if format.enabled == 0 {
        return;
      }
      var ff := FrameFormat(format.width, format.height, format.fourcc, format.bpl, format.bpp);
      termConfigMap := Put(termConfigMap, format.terminalId, ff);
    }

    /** setCyclicFeedbackRoutineMaps. */
    method SetCyclicFeedbackRoutineMaps(routine: seq<int>, stageUid: int -> int) returns (status: Status)
      modifies this
      ensures routine == [] ==> status == OK && cyclicFeedbackRoutinePairs == old(cyclicFeedbackRoutinePairs)
      ensures routine != [] && |pgIds| != |routine| ==>
        status == BAD_VALUE && cyclicFeedbackRoutinePairs == old(cyclicFeedbackRoutinePairs)
      ensures routine != [] && |pgIds| == |routine| ==>
        (status == OK && |cyclicFeedbackRoutinePairs| == |pgIds|
         && forall i :: 0 <= i < |pgIds| ==> cyclicFeedbackRoutinePairs[i] == StagePair(stageUid(pgIds[i]), routine[i]))
      ensures pgIds == old(pgIds) && termConfigMap == old(termConfigMap) && stageUidsWithStats == old(stageUidsWithStats)
      ensures cyclicFeedbackDelayPairs == old(cyclicFeedbackDelayPairs)
    {
      if routine == [] {
        return OK;
      }
      if |pgIds| != |routine| {
        return BAD_VALUE;
      }
      cyclicFeedbackRoutinePairs := BuildFeedbackPairs(pgIds, routine, stageUid);
      return OK;
    }

    /** setCyclicFeedbackDelayMaps. */
    method SetCyclicFeedbackDelayMaps(delay: seq<int>, stageUid: int -> int) returns (status: Status)
      modifies this
      ensures delay == [] ==> status == OK && cyclicFeedbackDelayPairs == old(cyclicFeedbackDelayPairs)
      ensures delay != [] && |pgIds| != |delay| ==>
        status == BAD_VALUE && cyclicFeedbackDelayPairs == old(cyclicFeedbackDelayPairs)
      ensures delay != [] && |pgIds| == |delay| ==>
        (status == OK && |cyclicFeedbackDelayPairs| == |pgIds|
         && forall i :: 0 <= i < |pgIds| ==> cyclicFeedbackDelayPairs[i] == StagePair(stageUid(pgIds[i]), delay[i]))
      ensures pgIds == old(pgIds) && termConfigMap == old(termConfigMap) && stageUidsWithStats == old(stageUidsWithStats)
      ensures cyclicFeedbackRoutinePairs == old(cyclicFeedbackRoutinePairs)
    {
      if delay == [] {
        return OK;
      }
      if |pgIds| != |delay| {
        return BAD_VALUE;
      }
      cyclicFeedbackDelayPairs := BuildFeedbackPairs(pgIds, delay, stageUid);
      return OK;
    }

    /** stop: the feedback tables are cleared (the buffer bookkeeping is not part of this model). */
    method Stop()
      modifies this
      ensures cyclicFeedbackRoutinePairs == [] && cyclicFeedbackDelayPairs == []
      ensures pgIds == old(pgIds) && termConfigMap == old(termConfigMap) && stageUidsWithStats == old(stageUidsWithStats)
    {
      cyclicFeedbackRoutinePairs := [];
      cyclicFeedbackDelayPairs := [];
    }

    /**
     * addDecodeStage.  pgOfKernel is getPgIdForKernel's answer for the
     * pipe's stream (None when the kernel is not found), sisKernelId is
     * ia_pal_uuid_isp_sis_1_0_a and stageUid is psys_2600_pg_uid.
     */
    method AddDecodeStage(pgOfKernel: Option<int>, kernelId: int, sisKernelId: int, stageUid: int -> int)
      modifies this
      ensures stageUidsWithStats == DecodeStageAdded(old(stageUidsWithStats), pgIds, pgOfKernel, kernelId, sisKernelId, stageUid)
      ensures pgIds == old(pgIds) && termConfigMap == old(termConfigMap)
      ensures cyclicFeedbackRoutinePairs == old(cyclicFeedbackRoutinePairs)
      ensures cyclicFeedbackDelayPairs == old(cyclicFeedbackDelayPairs)
    {
      if pgOfKernel.None? {
        return;
      }
      var pgId := pgOfKernel.value;
      if pgIds == [] {
        return;
      }
      var pgIdInPipe := Contains(pgIds, pgId);
      if !pgIdInPipe {
        return;
      }
      var stageIdExists := StageRecorded(stageUidsWithStats, stageUid(pgId));
      if !stageIdExists || kernelId == sisKernelId {
        stageUidsWithStats := Put(stageUidsWithStats, kernelId, stageUid(pgId));
      }
    }
  }
}
