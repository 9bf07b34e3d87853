/**
 * Decision rules and container fills of the graph configuration
 * (platformdata/gc/GraphConfig.cpp): the source-type analysis, the tuning
 * mode of a stream, the distinct program-group stream ids, the GDC kernel
 * choice, the full name of a port and the pipe-edge test.  The GCSS graph
 * queries are not part of this model: their answers are parameters
 * (a node found or not, a stream id read or not, the kernels a stream
 * runs).  SENSOR_PORT_NAME and TPG_PORT_NAME come from a header that is not
 * part of this model and are fields of the configuration.
 */
module GraphConfig {
  import opened Common
  import opened HalTypes
  import PipeExecutor

  datatype SourceType = SRC_NONE | SRC_SENSOR | SRC_TPG

  /** The GDC kernels getGdcKernelSetting looks for. */
  datatype GdcKernel = GDC3 | GDC3_1 | GDC3_1_1 | GDC5

  // -------------------------------------------------------------------
  // graphGetStreamIds
  // -------------------------------------------------------------------

  /**
   * The stream ids of the program groups in graph order, each seen once:
   * a program group whose stream id cannot be read (None) is skipped.
   */
  function DistinctIds(groups: seq<Option<int>>): (ids: seq<int>)
    ensures |ids| <= |groups|
  {
    if |groups| == 0 then []
    else
      var prev := DistinctIds(groups[..|groups| - 1]);
      var g := groups[|groups| - 1];
      if g.Some? && g.value !in prev then prev + [g.value] else prev
  }

  /** The stream ids read from the program groups. */
  predicate ReadId(groups: seq<Option<int>>, x: int)
  {
    exists i :: 0 <= i < |groups| && groups[i] == Some(x)
  }

  /**
   * The ids are exactly those read from the groups, none twice, and in
   * first-seen order: the ids of every prefix of the graph are a prefix of
   * the ids of the whole graph.
   */
  lemma {:induction false} DistinctIdsSpec(groups: seq<Option<int>>, k: nat)
    requires k <= |groups|
    ensures var ids := DistinctIds(groups);
      && (forall a, b :: 0 <= a < b < |ids| ==> ids[a] != ids[b])
      && (forall x :: x in ids <==> ReadId(groups, x))
      && DistinctIds(groups[..k]) <= ids
    decreases |groups|
  {
    if |groups| > 0 {
      var n := |groups| - 1;
      var init := groups[..n];
      if k <= n {
        DistinctIdsSpec(init, k);
        assert init[..k] == groups[..k];
      } else {
        assert groups[..k] == groups;
        DistinctIdsSpec(init, 0);
      }
      forall x
        ensures ReadId(groups, x) <==> ReadId(init, x) || groups[n] == Some(x)
      {
        if ReadId(groups, x) {
          var i :| 0 <= i < |groups| && groups[i] == Some(x);
          if i < n {
            assert init[i] == Some(x);
          }
        }
        if ReadId(init, x) {
          var i :| 0 <= i < |init| && init[i] == Some(x);
          assert groups[i] == Some(x);
        }
      }
    }
  }

  /** No id is collected exactly when no program group has a readable stream id. */
  lemma NoIdsIffNoneRead(groups: seq<Option<int>>)
    ensures DistinctIds(groups) == [] <==> forall i :: 0 <= i < |groups| ==> groups[i].None?
  {
    DistinctIdsSpec(groups, 0);
    var ids := DistinctIds(groups);
    if ids != [] {
      assert ids[0] in ids;
      assert ReadId(groups, ids[0]);
      var i :| 0 <= i < |groups| && groups[i] == Some(ids[0]);
      assert groups[i].Some?;
    } else {
      forall i | 0 <= i < |groups|
        ensures groups[i].None?
      {
        if groups[i].Some? {
          assert ReadId(groups, groups[i].value);
        }
      }
    }
  }

  /** Whether x is among the ids collected so far: the inner search of graphGetStreamIds. */
  method Contains(ids: seq<int>, x: int) returns (found: bool)
    ensures found <==> x in ids
  {
    found := false;
    var i := 0;
    while i < |ids|
      invariant 0 <= i <= |ids|
      invariant forall j :: 0 <= j < i ==> ids[j] != x
    {
      if ids[i] == x {
        return true;
      }
      i := i + 1;
    }
  }

  /**
   * graphGetStreamIds: the distinct stream ids in first-seen order, and
   * UNKNOWN_ERROR when no program group has a readable stream id.
   */
  method GraphGetStreamIds(groups: seq<Option<int>>) returns (status: Status, ids: seq<int>)
    ensures ids == DistinctIds(groups)
    ensures status == UNKNOWN_ERROR <==> forall i :: 0 <= i < |groups| ==> groups[i].None?
    ensures status != UNKNOWN_ERROR ==> status == OK
    ensures status == OK <==> ids != []
  {
    ids := [];
    var k := 0;
    while k < |groups|
      invariant 0 <= k <= |groups|
      invariant ids == DistinctIds(groups[..k])
    {
      assert groups[..k + 1][..k] == groups[..k];
      if groups[k].Some? {
        var found := Contains(ids, groups[k].value);
        if !found {
          ids := ids + [groups[k].value];
        }
      }
      k := k + 1;
    }
    assert groups[..k] == groups;
    NoIdsIffNoneRead(groups);
    if ids == [] {
      return UNKNOWN_ERROR, ids;
    }
    status := OK;
  }

  // -------------------------------------------------------------------
  // getGdcKernelSetting
  // -------------------------------------------------------------------

  /** The GDC kernel of one stream, in the order gdc3_1, gdc3, gdc3_1_1, gdc5. */
  function GdcOf(inStream: (int, GdcKernel) -> bool, streamId: int): (r: Option<GdcKernel>)
    ensures r.None? <==> (!inStream(streamId, GDC3_1) && !inStream(streamId, GDC3)
      && !inStream(streamId, GDC3_1_1) && !inStream(streamId, GDC5))
    ensures r.Some? ==> inStream(streamId, r.value)
    ensures r == Some(GDC3) ==> !inStream(streamId, GDC3_1)
  {
    if inStream(streamId, GDC3_1) then Some(GDC3_1)
    else if inStream(streamId, GDC3) then Some(GDC3)
    else if inStream(streamId, GDC3_1_1) then Some(GDC3_1_1)
    else if inStream(streamId, GDC5) then Some(GDC5)
    else None
  }

  /** The (kernel, stream) choice after scanning the streams from i on, starting from cur. */
  function GdcChoiceFrom(ids: seq<int>, inStream: (int, GdcKernel) -> bool, i: nat, cur: (GdcKernel, int)): (GdcKernel, int)
    requires i <= |ids|
    decreases |ids| - i
  {
    if i == |ids| then cur
    else
      var g := GdcOf(inStream, ids[i]);
      var next := if g.Some? then (g.value, ids[i]) else cur;
      if g.Some? && ids[i] == PipeExecutor.VIDEO_STREAM_ID then next
      else GdcChoiceFrom(ids, inStream, i + 1, next)
  }

  /** The choice of getGdcKernelSetting: gdc3 on the video stream unless the scan finds a GDC kernel. */
  function GdcChoice(ids: seq<int>, inStream: (int, GdcKernel) -> bool): (GdcKernel, int)
  {
    GdcChoiceFrom(ids, inStream, 0, (GDC3, PipeExecutor.VIDEO_STREAM_ID))
  }

  /**
   * What the scan picks: the video stream's kernel when the video stream
   * has one; otherwise the kernel of the last stream that has one, or gdc3
   * on the video stream when none has.
   */
  lemma {:induction false} GdcChoiceFromSpec(ids: seq<int>, inStream: (int, GdcKernel) -> bool, i: nat, cur: (GdcKernel, int))
    requires i <= |ids|
    ensures var r := GdcChoiceFrom(ids, inStream, i, cur);
      && (r == cur || exists j :: i <= j < |ids| && GdcOf(inStream, ids[j]) == Some(r.0) && ids[j] == r.1)
      && ((forall j :: i <= j < |ids| ==> GdcOf(inStream, ids[j]).None?) ==> r == cur)
      && (forall j :: i <= j < |ids| && ids[j] == PipeExecutor.VIDEO_STREAM_ID && GdcOf(inStream, ids[j]).Some? ==>
            r == (GdcOf(inStream, ids[j]).value, PipeExecutor.VIDEO_STREAM_ID))
      && ((forall j :: i <= j < |ids| ==> ids[j] != PipeExecutor.VIDEO_STREAM_ID) ==>
            var last := LastGdcFrom(ids, inStream, i);
            r == if last.None? then cur else (GdcOf(inStream, ids[last.value]).value, ids[last.value]))
  {
    GdcChoiceOrigin(ids, inStream, i, cur);
    GdcChoiceVideoWins(ids, inStream, i, cur);
    if forall j :: i <= j < |ids| ==> ids[j] != PipeExecutor.VIDEO_STREAM_ID {
      GdcChoiceLastFound(ids, inStream, i, cur);
    }
  }

  /** The choice is the starting one, or a stream's kernel met in the scan; with no kernel found it is the starting one. */
  lemma {:induction false} GdcChoiceOrigin(ids: seq<int>, inStream: (int, GdcKernel) -> bool, i: nat, cur: (GdcKernel, int))
    requires i <= |ids|
    ensures var r := GdcChoiceFrom(ids, inStream, i, cur);
      && (r == cur || exists j :: i <= j < |ids| && GdcOf(inStream, ids[j]) == Some(r.0) && ids[j] == r.1)
      && ((forall j :: i <= j < |ids| ==> GdcOf(inStream, ids[j]).None?) ==> r == cur)
    decreases |ids| - i
  {
    if i < |ids| {
      var g := GdcOf(inStream, ids[i]);
      var next := if g.Some? then (g.value, ids[i]) else cur;
      if !(g.Some? && ids[i] == PipeExecutor.VIDEO_STREAM_ID) {
        GdcChoiceOrigin(ids, inStream, i + 1, next);
      }
    }
  }

  /** A video stream with a kernel ends the scan with that kernel. */
  lemma {:induction false} GdcChoiceVideoWins(ids: seq<int>, inStream: (int, GdcKernel) -> bool, i: nat, cur: (GdcKernel, int))
    requires i <= |ids|
    ensures var r := GdcChoiceFrom(ids, inStream, i, cur);
      forall j :: i <= j < |ids| && ids[j] == PipeExecutor.VIDEO_STREAM_ID && GdcOf(inStream, ids[j]).Some? ==>
        r == (GdcOf(inStream, ids[j]).value, PipeExecutor.VIDEO_STREAM_ID)
    decreases |ids| - i
  {
    if i < |ids| {
      var g := GdcOf(inStream, ids[i]);
      var next := if g.Some? then (g.value, ids[i]) else cur;
      if !(g.Some? && ids[i] == PipeExecutor.VIDEO_STREAM_ID) {
        GdcChoiceVideoWins(ids, inStream, i + 1, next);
      }
    }
  }

  /** The index of the last stream from i on that has a GDC kernel, if any. */
  function LastGdcFrom(ids: seq<int>, inStream: (int, GdcKernel) -> bool, i: nat): (m: Option<nat>)
    requires i <= |ids|
    ensures m.Some? ==> (i <= m.value < |ids| && GdcOf(inStream, ids[m.value]).Some?
      && forall n :: m.value < n < |ids| ==> GdcOf(inStream, ids[n]).None?)
    ensures m.None? ==> forall n :: i <= n < |ids| ==> GdcOf(inStream, ids[n]).None?
    decreases |ids| - i
  {
    if i == |ids| then None
    else
      var later := LastGdcFrom(ids, inStream, i + 1);
      if later.Some? then later
      else if GdcOf(inStream, ids[i]).Some? then Some(i)
      else None
  }

  /** Without a video stream, the scan ends on the last stream that has a kernel, or keeps the start when none has. */
  lemma {:induction false} GdcChoiceLastFound(ids: seq<int>, inStream: (int, GdcKernel) -> bool, i: nat, cur: (GdcKernel, int))
    requires i <= |ids|
    requires forall j :: i <= j < |ids| ==> ids[j] != PipeExecutor.VIDEO_STREAM_ID
    ensures var last := LastGdcFrom(ids, inStream, i);
      GdcChoiceFrom(ids, inStream, i, cur) ==
        if last.None? then cur else (GdcOf(inStream, ids[last.value]).value, ids[last.value])
    decreases |ids| - i
  {
    if i < |ids| {
      var g := GdcOf(inStream, ids[i]);
      var next := if g.Some? then (g.value, ids[i]) else cur;
      GdcChoiceLastFound(ids, inStream, i + 1, next);
      if LastGdcFrom(ids, inStream, i + 1).None? {
        GdcChoiceOrigin(ids, inStream, i + 1, next);
      }
    }
  }

  /**
   * getGdcKernelSetting: UNKNOWN_ERROR without stream ids or without
   * resolution information for the chosen kernel and stream; otherwise the
   * chosen kernel and that kernel's input resolution.
   */
  method GetGdcKernelSetting(groups: seq<Option<int>>, inStream: (int, GdcKernel) -> bool,
                             resolutionOf: (int, GdcKernel) -> Option<Size>)
    returns (status: Status, kernelId: GdcKernel, resolution: Size)
    ensures (forall i :: 0 <= i < |groups| ==> groups[i].None?) ==> status == UNKNOWN_ERROR
    ensures status == OK <==> (DistinctIds(groups) != []
      && resolutionOf(GdcChoice(DistinctIds(groups), inStream).1, GdcChoice(DistinctIds(groups), inStream).0).Some?)
    ensures status != OK ==> status == UNKNOWN_ERROR
    ensures status == OK ==>
      var c := GdcChoice(DistinctIds(groups), inStream);
      kernelId == c.0 && resolution == resolutionOf(c.1, c.0).value
  {
    var ret, streamIds := GraphGetStreamIds(groups);
    resolution := Size(0, 0);
    kernelId := GDC3;
    if ret != OK || streamIds == [] {
      return UNKNOWN_ERROR, kernelId, resolution;
    }
    var gdcStreamId := PipeExecutor.VIDEO_STREAM_ID;
    var i := 0;
    while i < |streamIds|
      invariant 0 <= i <= |streamIds|
      invariant GdcChoiceFrom(streamIds, inStream, i, (kernelId, gdcStreamId)) == GdcChoice(streamIds, inStream)
    {
      var streamId := streamIds[i];
      var hasVideoGdc := false;
      if inStream(streamId, GDC3_1) {
        gdcStreamId, kernelId := streamId, GDC3_1;
        if streamId == PipeExecutor.VIDEO_STREAM_ID { hasVideoGdc := true; }
      } else if inStream(streamId, GDC3) {
        gdcStreamId, kernelId := streamId, GDC3;
        if streamId == PipeExecutor.VIDEO_STREAM_ID { hasVideoGdc := true; }
      } else if inStream(streamId, GDC3_1_1) {
        gdcStreamId, kernelId := streamId, GDC3_1_1;
        if streamId == PipeExecutor.VIDEO_STREAM_ID { hasVideoGdc := true; }
      } else if inStream(streamId, GDC5) {
        gdcStreamId, kernelId := streamId, GDC5;
        if streamId == PipeExecutor.VIDEO_STREAM_ID { hasVideoGdc := true; }
      }
      if hasVideoGdc {
        break;
      }
      i := i + 1;
    }
    var r := resolutionOf(gdcStreamId, kernelId);
    if r.None? {
      return UNKNOWN_ERROR, kernelId, resolution;
    }
    resolution := r.value;
    status := OK;
  }

  // -------------------------------------------------------------------
  // Ports
  // -------------------------------------------------------------------

  /**
   * portGetFullName: BAD_VALUE when the port, its ancestor or either name
   * is missing; otherwise "ancestor:port".
   */
  function PortFullName(ancestorName: Option<string>, portName: Option<string>): (r: Option<string>)
    ensures r.Some? <==> ancestorName.Some? && portName.Some?
    ensures r.Some? ==> |r.value| == |ancestorName.value| + 1 + |portName.value|
  {
    if ancestorName.None? || portName.None? then None
    else Some(ancestorName.value + ":" + portName.value)
  }

  /** The full name splits back at its first colon when the ancestor's name has none. */
  lemma FullNameSplits(ancestorName: string, portName: string)
    requires ':' !in ancestorName
    ensures var full := PortFullName(Some(ancestorName), Some(portName)).value;
      && full[|ancestorName|] == ':'
      && (forall i :: 0 <= i < |ancestorName| ==> full[i] != ':')
      && full[..|ancestorName|] == ancestorName
      && full[|ancestorName| + 1..] == portName
  {
    var full := ancestorName + ":" + portName;
    assert full[..|ancestorName|] == ancestorName;
    assert full[|ancestorName| + 1..] == portName;
  }

  /** What the graph answers about the peer of a port. */
  datatype PeerLookup =
    | PeerDisabled
    | PeerFailed
    | VirtualPeer
    /** A non-virtual peer: its ancestor's stream id (None when unreadable or no ancestor) and type. */
    | PeerNode(streamId: Option<int>, typ: string)

  /**
   * isPipeEdgePort over the queried attributes: a disabled peer makes an
   * edge; a failed lookup, an unreadable stream id of the port or of the
   * peer's program group does not.
   */
  function IsPipeEdgePort(isInput: bool, streamId: int, peer: PeerLookup): (edge: bool)
    ensures peer.PeerDisabled? ==> edge
    ensures !peer.PeerDisabled? && (streamId < 0 || peer.PeerFailed?) ==> !edge
  {
    match peer
    case PeerDisabled => true
    case PeerFailed => false
    case VirtualPeer =>
      if streamId < 0 then false
      else
        var peerStreamId := -1;
        if isInput then peerStreamId == 0 || peerStreamId == -1
        else true
    case PeerNode(sid, typ) =>
      if streamId < 0 then false
      else if sid.None? then false
      else if isInput then typ == "hw" || sid.value == 0 || sid.value == -1
      else sid.value == 0 || sid.value == -1
  }

  /**
   * The edge rule in both directions: a port is an edge exactly when its
   * peer is disabled, or its own stream id is readable and the peer is
   * virtual, or the peer's program group has stream id 0 or -1, or (for an
   * input port) the peer's ancestor is a hw block.
   */
  lemma PipeEdgeRule(isInput: bool, streamId: int, peer: PeerLookup)
    ensures IsPipeEdgePort(isInput, streamId, peer) <==>
      peer.PeerDisabled?
      || (streamId >= 0 && peer.VirtualPeer?)
      || (streamId >= 0 && peer.PeerNode? && peer.streamId.Some?
          && (peer.streamId.value == 0 || peer.streamId.value == -1 || (isInput && peer.typ == "hw")))
  {
  }

  class Config {
    var sourceType: SourceType
    var sourcePortName: string
    /** mStream2TuningMap: the tuning mode of each stream. */
    var stream2Tuning: map<int, int>
    const sensorPortName: string
    const tpgPortName: string

    constructor (sensorPort: string, tpgPort: string, tuning: map<int, int>)
      ensures sourceType == SRC_NONE && sourcePortName == "" && stream2Tuning == tuning
      ensures sensorPortName == sensorPort && tpgPortName == tpgPort
    {
      sourceType := SRC_NONE;
      sourcePortName := "";
      stream2Tuning := tuning;
      sensorPortName := sensorPort;
      tpgPortName := tpgPort;
    }

    /** getTuningMode: the stored mode of the stream, 0 for an unknown stream. */
    function GetTuningMode(streamId: int): (mode: int)
      reads this
      ensures streamId in stream2Tuning ==> mode == stream2Tuning[streamId]
      ensures streamId !in stream2Tuning ==> mode == 0
    {
      if streamId in stream2Tuning then stream2Tuning[streamId] else 0
    }

    /**
     * analyzeSourceType: exactly one of a sensor node and a TPG node must
     * exist; otherwise the source is reset and the result is UNKNOWN_ERROR.
     */
    method AnalyzeSourceType(hasSensorNode: bool, hasTpgNode: bool) returns (status: Status)
      modifies this
      ensures status == OK <==> hasSensorNode != hasTpgNode
      ensures status != OK ==> status == UNKNOWN_ERROR && sourceType == SRC_NONE && sourcePortName == ""
      ensures status == OK && hasSensorNode ==> sourceType == SRC_SENSOR && sourcePortName == sensorPortName
      ensures status == OK && hasTpgNode ==> sourceType == SRC_TPG && sourcePortName == tpgPortName
      ensures stream2Tuning == old(stream2Tuning)
    {
      var hasSensor, hasTpg := false, false;
      if hasSensorNode {
        sourceType := SRC_SENSOR;
        sourcePortName := sensorPortName;
        hasSensor := true;
      }
      if hasTpgNode {
        sourceType := SRC_TPG;
        sourcePortName := tpgPortName;
        hasTpg := true;
      }
      if hasTpg == hasSensor {
        sourceType := SRC_NONE;
        sourcePortName := "";
        return UNKNOWN_ERROR;
      }
      status := OK;
    }
  }
}
