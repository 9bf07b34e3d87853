/**
 * The camera device of core/CameraDevice.cpp: its life-cycle state, the
 * ordering of the configured streams by size and their ports, the
 * decision whether a post processor is needed, and the queueing of one
 * buffer per configured stream for each request.  The units the device
 * drives (capture unit, 3A, sensor, processors, request thread) are not
 * part of this model: where their result decides a branch it is a
 * parameter.
 */
module CameraDevice {
  import opened Common
  import opened HalTypes

  datatype DeviceState =
    | DEVICE_UNINIT
    | DEVICE_INIT
    | DEVICE_CONFIGURE
    | DEVICE_STOP
    | DEVICE_START
    | DEVICE_BUFFER_READY

  /** The states the source tests with `mState < DEVICE_CONFIGURE`. */
  predicate BeforeConfigure(s: DeviceState)
  {
    s == DEVICE_UNINIT || s == DEVICE_INIT
  }

  // ---------------------------------------------------------------------
  // analyzeStream (598-644): stream ids by decreasing area.
  // ---------------------------------------------------------------------

  function AreaOf(s: StreamT): int
  {
    s.width * s.height
  }

  /** Stream x is placed before stream y: a larger area, or an equal area and an earlier index. */
  predicate Precedes(streams: seq<StreamT>, x: nat, y: nat)
    requires x < |streams| && y < |streams|
  {
    AreaOf(streams[x]) > AreaOf(streams[y]) || (AreaOf(streams[x]) == AreaOf(streams[y]) && x < y)
  }

  /** Ids of the given streams, strictly ordered by Precedes (hence also distinct). */
  predicate Ordered(streams: seq<StreamT>, ids: seq<nat>)
  {
    (forall a :: 0 <= a < |ids| ==> ids[a] < |streams|)
      && (forall a, b :: 0 <= a < b < |ids| ==> Precedes(streams, ids[a], ids[b]))
  }

  /** The ids 0..n-1, each once, in Precedes order. */
  predicate SortedIds(streams: seq<StreamT>, ids: seq<nat>, n: nat)
  {
    n <= |streams| && |ids| == n && Ordered(streams, ids)
      && (forall a :: 0 <= a < |ids| ==> ids[a] < n)
      && (forall k :: 0 <= k < n ==> k in ids)
  }

  /** Placing stream i before the first smaller stream keeps the order. */
  lemma InsertOrdered(streams: seq<StreamT>, ids: seq<nat>, i: nat, j: nat)
    requires i < |streams| && j <= |ids|
    requires Ordered(streams, ids)
    requires forall a :: 0 <= a < |ids| ==> ids[a] < i
    requires forall a :: 0 <= a < j ==> AreaOf(streams[ids[a]]) >= AreaOf(streams[i])
    requires j < |ids| ==> AreaOf(streams[i]) > AreaOf(streams[ids[j]])
    ensures Ordered(streams, ids[..j] + [i] + ids[j..])
  {
    var r := ids[..j] + [i] + ids[j..];
    assert forall a :: 0 <= a < |r| ==> r[a] == (if a < j then ids[a] else if a == j then i else ids[a - 1]);
    forall a, b | 0 <= a < b < |r|
      ensures Precedes(streams, r[a], r[b])
    {
      if b < j {
      } else if a < j && b == j {
      } else if a < j {
      } else if a == j {
        assert Precedes(streams, ids[j], ids[b - 1]) || b - 1 == j;
      } else {
      }
    }
  }

  /** Inserting i into the ids 0..i-1 gives the ids 0..i, all below i + 1. */
  lemma InsertKeepsIds(ids: seq<nat>, i: nat, j: nat)
    requires j <= |ids|
    requires forall a :: 0 <= a < |ids| ==> ids[a] < i
    requires forall k :: 0 <= k < i ==> k in ids
    ensures forall a :: 0 <= a < |ids| + 1 ==> (ids[..j] + [i] + ids[j..])[a] < i + 1
    ensures forall k :: 0 <= k < i + 1 ==> k in ids[..j] + [i] + ids[j..]
  {
    var next := ids[..j] + [i] + ids[j..];
    assert forall a :: 0 <= a < |next| ==> next[a] == (if a < j then ids[a] else if a == j then i else ids[a - 1]);
    forall k | 0 <= k < i + 1
      ensures k in next
    {
      if k == i {
        assert next[j] == i;
      } else {
        assert k in ids;
        var a :| 0 <= a < |ids| && ids[a] == k;
        if a < j {
          assert next[a] == k;
        } else {
          assert next[a + 1] == k;
        }
      }
    }
  }

  /** The insertion loop of analyzeStream for one stream: the index before which it goes. */
  method InsertionPoint(streams: seq<StreamT>, ids: seq<nat>, i: nat) returns (j: nat)
    requires i < |streams|
    requires forall a :: 0 <= a < |ids| ==> ids[a] < |streams|
    ensures j <= |ids|
    ensures forall a :: 0 <= a < j ==> AreaOf(streams[ids[a]]) >= AreaOf(streams[i])
    ensures j < |ids| ==> AreaOf(streams[i]) > AreaOf(streams[ids[j]])
  {
    j := 0;
    while j < |ids|
      invariant j <= |ids|
      invariant forall a :: 0 <= a < j ==> AreaOf(streams[ids[a]]) >= AreaOf(streams[i])
    {
      if AreaOf(streams[i]) > AreaOf(streams[ids[j]]) {
        return j;
      }
      j := j + 1;
    }
  }

  /**
   * The sorting loop of analyzeStream.  A stream the platform does not
   * support fails with BAD_VALUE unless cropping is enabled; the ids sorted
   * before the failing one stay.
   */
  method SortStreams(streams: seq<StreamT>, supported: seq<bool>, cropEnabled: bool)
    returns (status: Status, ids: seq<nat>)
    requires |supported| == |streams|
    ensures status == OK || status == BAD_VALUE
    ensures status == OK <==> cropEnabled || forall k :: 0 <= k < |streams| ==> supported[k]
    ensures status == OK ==> SortedIds(streams, ids, |streams|)
  {
    ids := [];
    var i := 0;
    while i < |streams|
      invariant i <= |streams|
      invariant SortedIds(streams, ids, i)
      invariant cropEnabled || forall k :: 0 <= k < i ==> supported[k]
    {
      if !cropEnabled && !supported[i] {
        return BAD_VALUE, ids;
      }
      var j := InsertionPoint(streams, ids, i);
      InsertOrdered(streams, ids, i, j);
      var next := ids[..j] + [i] + ids[j..];
      InsertKeepsIds(ids, i, j);
      ids := next;
      i := i + 1;
    }
    return OK, ids;
  }

  /** kPorts: the port of each rank. */
  const PORTS: seq<Port> := [MAIN_PORT, SECOND_PORT, THIRD_PORT, FORTH_PORT]

  /**
   * kPorts[i] as written: the port of rank i, or None where the read falls
   * past the four-entry table (configure only bounds the count by
   * MAX_STREAM_NUMBER).
   */
  function PortOfRankAsWritten(i: nat): (p: Option<Port>)
    ensures p.Some? <==> i < |PORTS|
    ensures p.Some? ==> p.value == PORTS[i]
  {
    if i < |PORTS| then Some(PORTS[i]) else None
  }

  /**
   * With a stream limit above four, a fifth stream passes configure's count
   * check as written and its rank reads past the port table.
   */
  lemma FifthStreamReadsPastPorts(maxStreamNumber: nat)
    requires maxStreamNumber > |PORTS|
    ensures 0 < |PORTS| + 1 <= maxStreamNumber
    ensures PortOfRankAsWritten(|PORTS|).None?
  {
  }

  /** The port map filled from the sorted ids: rank k gets the k-th port. */
  method PortsByRank(ids: seq<nat>) returns (ports: map<nat, Port>)
    requires |ids| <= |PORTS|
    requires forall a, b :: 0 <= a < b < |ids| ==> ids[a] != ids[b]
    ensures forall a :: 0 <= a < |ids| ==> ids[a] in ports && ports[ids[a]] == PORTS[a]
    ensures forall k :: k in ports ==> k in ids
  {
    ports := map[];
    var i := 0;
    while i < |ids|
      invariant i <= |ids|
      invariant forall a :: 0 <= a < i ==> ids[a] in ports && ports[ids[a]] == PORTS[a]
      invariant forall k :: k in ports ==> k in ids[..i]
    {
      ports := ports[ids[i] := PORTS[i]];
      i := i + 1;
    }
  }

  // ---------------------------------------------------------------------
  // isStillDuringVideo (550-569) and isProcessorNeeded (512-545).
  // ---------------------------------------------------------------------

  predicate IsVideoUsage(u: StreamUsage)
  {
    u == CAMERA_STREAM_PREVIEW || u == CAMERA_STREAM_VIDEO_CAPTURE
  }

  /** isStillDuringVideo: both a preview or video stream and a still stream are configured. */
  method IsStillDuringVideo(streams: seq<StreamT>) returns (r: bool)
    ensures r <==> ((exists k :: 0 <= k < |streams| && IsVideoUsage(streams[k].usage))
      && (exists k :: 0 <= k < |streams| && streams[k].usage == CAMERA_STREAM_STILL_CAPTURE))
  {
    var containStill := false;
    var containVideo := false;
    var i := 0;
    while i < |streams|
      invariant i <= |streams|
      invariant containVideo <==> exists k :: 0 <= k < i && IsVideoUsage(streams[k].usage)
      invariant containStill <==> exists k :: 0 <= k < i && streams[k].usage == CAMERA_STREAM_STILL_CAPTURE
    {
      match streams[i].usage {
        case CAMERA_STREAM_PREVIEW => containVideo := true;
        case CAMERA_STREAM_VIDEO_CAPTURE => containVideo := true;
        case CAMERA_STREAM_STILL_CAPTURE => containStill := true;
        case _ =>
      }
      i := i + 1;
    }
    return containStill && containVideo;
  }

  /**
   * A stream needs processing when the producer does not deliver it
   * unchanged: cropping is on or its size or format differ (both ignored for
   * an alternate-field producer), or it is interlaced and weaving is asked
   * for.
   */
  predicate StreamNeedsProcessing(s: StreamT, producer: StreamT, cropEnabled: bool, weaving: bool)
  {
    (producer.field != V4L2_FIELD_ALTERNATE
      && (cropEnabled || producer.width != s.width || producer.height != s.height || producer.format != s.format))
    || (s.field != V4L2_FIELD_ANY && weaving)
  }

  /** isProcessorNeeded: some stream needs processing, or fisheye dewarping is on. */
  method IsProcessorNeeded(streams: seq<StreamT>, producer: StreamT, cropEnabled: bool, weaving: bool, dewarping: bool)
    returns (r: bool)
    ensures r <==> dewarping || exists k :: 0 <= k < |streams| && StreamNeedsProcessing(streams[k], producer, cropEnabled, weaving)
  {
    var i := 0;
    while i < |streams|
      invariant i <= |streams|
      invariant forall k :: 0 <= k < i ==> !StreamNeedsProcessing(streams[k], producer, cropEnabled, weaving)
    {
      if producer.field != V4L2_FIELD_ALTERNATE {
        assert cropEnabled ==> StreamNeedsProcessing(streams[i], producer, cropEnabled, weaving);
        if cropEnabled {
          return true;
        }
        if producer.width != streams[i].width || producer.height != streams[i].height
          || producer.format != streams[i].format
        {
          return true;
        }
      }
      if streams[i].field != V4L2_FIELD_ANY {
        if weaving {
          return true;
        }
      }
      i := i + 1;
    }
    return dewarping;
  }

  // ---------------------------------------------------------------------
  // handleQueueBuffer (766-801).
  // ---------------------------------------------------------------------

  /** A user buffer: the stream it belongs to and an identity. */
  datatype UserBuffer = UserBuffer(streamId: int, handle: int)

  /** The outcome of scanning the user buffers for one stream. */
  datatype Lookup = InvalidId | Found(index: nat) | Absent

  /** The ids the per-buffer check lets through: 0..streamNum inclusive, as written. */
  predicate IdAccepted(id: int, streamNum: nat)
  {
    0 <= id <= streamNum
  }

  /**
   * The inner loop for one stream from buffer j on: the first buffer of that
   * stream, unless a buffer with an id the check rejects comes first.
   */
  function FindBuffer(buffers: seq<UserBuffer>, streamId: nat, streamNum: nat, j: nat): (r: Lookup)
    requires j <= |buffers|
    ensures r.Found? ==> j <= r.index < |buffers| && buffers[r.index].streamId == streamId
    ensures r.Found? || r.Absent? ==> forall k :: j <= k < (if r.Found? then r.index else |buffers|) ==>
      IdAccepted(buffers[k].streamId, streamNum) && buffers[k].streamId != streamId
    decreases |buffers| - j
  {
    if j == |buffers| then Absent
    else if !IdAccepted(buffers[j].streamId, streamNum) then InvalidId
    else if buffers[j].streamId == streamId then Found(j)
    else FindBuffer(buffers, streamId, streamNum, j + 1)
  }

  datatype QueueResult = QueueResult(status: Status, queues: seq<seq<Option<UserBuffer>>>)

  /**
   * The answer of a stream's qbuf for a (stream id, buffer) call, an empty
   * buffer being None; any answer other than OK stands for a negative return.
   * The stream's buffer queue itself is not part of this model.
   */
  type QbufOutcome = (nat, Option<UserBuffer>) -> Status

  /** One stream's qbuf: a failing call leaves its queue as it was. */
  function QueueOne(queues: seq<seq<Option<UserBuffer>>>, s: nat, b: Option<UserBuffer>, qbuf: QbufOutcome): (r: QueueResult)
    requires s < |queues|
    ensures |r.queues| == |queues|
    ensures r.status == qbuf(s, b)
    ensures r.status == OK ==> r.queues == queues[s := queues[s] + [b]]
    ensures r.status != OK ==> r.queues == queues
  {
    if qbuf(s, b) != OK then QueueResult(qbuf(s, b), queues) else QueueResult(OK, queues[s := queues[s] + [b]])
  }

  /** What each stream from s on is queued, and where a rejected id or a failing qbuf stops the loop. */
  function QueueFrom(queues: seq<seq<Option<UserBuffer>>>, buffers: seq<UserBuffer>, qbuf: QbufOutcome, s: nat): (r: QueueResult)
    requires s <= |queues|
    ensures |r.queues| == |queues|
    decreases |queues| - s
  {
    if s == |queues| then QueueResult(OK, queues)
    else
      var b := match FindBuffer(buffers, s, |queues|, 0)
        case Found(k) => Some(buffers[k])
        case _ => None;
      if FindBuffer(buffers, s, |queues|, 0).InvalidId? then QueueResult(BAD_VALUE, queues)
      else
        var one := QueueOne(queues, s, b, qbuf);
        if one.status != OK then one else QueueFrom(one.queues, buffers, qbuf, s + 1)
  }

  /** The loops of handleQueueBuffer over the streams' queues. */
  method QueueBuffers(queues: seq<seq<Option<UserBuffer>>>, buffers: seq<UserBuffer>, qbuf: QbufOutcome) returns (r: QueueResult)
    ensures r == QueueFrom(queues, buffers, qbuf, 0)
  {
    var qs := queues;
    var streamId := 0;
    while streamId < |queues|
      invariant streamId <= |queues| && |qs| == |queues|
      invariant QueueFrom(queues, buffers, qbuf, 0) == QueueFrom(qs, buffers, qbuf, streamId)
    {
      var queued := false;
      var bufferId := 0;
      while bufferId < |buffers|
        invariant bufferId <= |buffers|
        invariant FindBuffer(buffers, streamId, |queues|, 0) == FindBuffer(buffers, streamId, |queues|, bufferId)
      {
        var id := buffers[bufferId].streamId;
        if id < 0 || id > |queues| {
          return QueueResult(BAD_VALUE, qs);
        }
        if id == streamId {
          var ret := qbuf(streamId, Some(buffers[bufferId]));
          if ret != OK {
            return QueueResult(ret, qs);
          }
          qs := qs[streamId := qs[streamId] + [Some(buffers[bufferId])]];
          queued := true;
          break;
        }
        bufferId := bufferId + 1;
      }
      if !queued {
        var ret := qbuf(streamId, None);
        if ret != OK {
          return QueueResult(ret, qs);
        }
        qs := qs[streamId := qs[streamId] + [None]];
      }
      streamId := streamId + 1;
    }
    return QueueResult(OK, qs);
  }

  /** The buffer each stream should receive: the first user buffer of that stream, or an empty one. */
  function BufferFor(buffers: seq<UserBuffer>, streamId: int): (r: Option<UserBuffer>)
    ensures r.Some? ==> r.value in buffers && r.value.streamId == streamId
    ensures r.None? <==> forall k :: 0 <= k < |buffers| ==> buffers[k].streamId != streamId
  {
    if buffers == [] then None
    else if buffers[0].streamId == streamId then Some(buffers[0])
    else
      var r := BufferFor(buffers[1..], streamId);
      assert forall k :: 1 <= k < |buffers| ==> buffers[k] == buffers[1..][k - 1];
      r
  }

  /** With every id accepted, the inner loop finds exactly the stream's first buffer. */
  lemma {:induction false} FindBufferFirst(buffers: seq<UserBuffer>, streamId: nat, streamNum: nat, j: nat)
    requires j <= |buffers|
    requires forall k :: 0 <= k < |buffers| ==> IdAccepted(buffers[k].streamId, streamNum)
    ensures var f := FindBuffer(buffers, streamId, streamNum, j);
      !f.InvalidId?
        && (f.Found? ==> BufferFor(buffers[j..], streamId) == Some(buffers[f.index]))
        && (f.Absent? ==> BufferFor(buffers[j..], streamId) == None)
    decreases |buffers| - j
  {
    if j < |buffers| && buffers[j].streamId != streamId {
      FindBufferFirst(buffers, streamId, streamNum, j + 1);
      assert buffers[j..][1..] == buffers[j + 1..];
    }
  }

  predicate AllIdsAccepted(buffers: seq<UserBuffer>, streamNum: nat)
  {
    forall k :: 0 <= k < |buffers| ==> IdAccepted(buffers[k].streamId, streamNum)
  }

  /** Streams lo..hi-1 all accept the buffer each should receive. */
  predicate QbufAccepts(qbuf: QbufOutcome, buffers: seq<UserBuffer>, lo: nat, hi: nat)
  {
    forall t: nat :: lo <= t < hi ==> qbuf(t, BufferFor(buffers, t)) == OK
  }

  /**
   * With every buffer id accepted, the loop queues streams s, s+1, ... each
   * its first user buffer, else an empty one, until the first stream whose
   * qbuf fails, or the last stream: that stream's answer, or OK, is the
   * status, and no queue from that stream on changes.
   */
  lemma {:induction false} QueueAllValid(queues: seq<seq<Option<UserBuffer>>>, buffers: seq<UserBuffer>, qbuf: QbufOutcome, s: nat, stop: nat)
    requires s <= stop <= |queues|
    requires AllIdsAccepted(buffers, |queues|)
    requires QbufAccepts(qbuf, buffers, s, stop)
    requires stop < |queues| ==> qbuf(stop, BufferFor(buffers, stop)) != OK
    ensures QueueFrom(queues, buffers, qbuf, s).status == if stop < |queues| then qbuf(stop, BufferFor(buffers, stop)) else OK
    ensures forall t :: 0 <= t < |queues| ==>
      QueueFrom(queues, buffers, qbuf, s).queues[t] == if s <= t < stop then queues[t] + [BufferFor(buffers, t)] else queues[t]
    decreases |queues| - s
  {
    if s < |queues| {
      FindBufferFirst(buffers, s, |queues|, 0);
      assert buffers[0..] == buffers;
      if s < stop {
        var next := queues[s := queues[s] + [BufferFor(buffers, s)]];
        QueueAllValid(next, buffers, qbuf, s + 1, stop);
      }
    }
  }

  /** A rejected id at the head of the list fails before any stream is queued. */
  lemma RejectedFirstBuffer(queues: seq<seq<Option<UserBuffer>>>, buffers: seq<UserBuffer>)
    requires |queues| > 0 && |buffers| > 0 && !IdAccepted(buffers[0].streamId, |queues|)
    ensures forall qbuf: QbufOutcome :: QueueFrom(queues, buffers, qbuf, 0) == QueueResult(BAD_VALUE, queues)
  {
  }

  /**
   * The check is lazy: a rejected id after the buffers every stream takes is
   * never inspected, and the request is queued.
   */
  lemma LateRejectedIdIgnored(q: seq<Option<UserBuffer>>, qbuf: QbufOutcome)
    requires qbuf(0, Some(UserBuffer(0, 7))) == OK
    ensures QueueFrom([q], [UserBuffer(0, 7), UserBuffer(-1, 8)], qbuf, 0)
      == QueueResult(OK, [q + [Some(UserBuffer(0, 7))]])
  {
    var buffers := [UserBuffer(0, 7), UserBuffer(-1, 8)];
    assert FindBuffer(buffers, 0, 1, 0) == Found(0);
  }

  // ---------------------------------------------------------------------
  // The device.
  // ---------------------------------------------------------------------

  class Device {
    var state: DeviceState
    /** mStreamNum: the streams created by the last configuration. */
    var streamNum: nat
    /** What each configured stream has been queued, in order. */
    var queues: seq<seq<Option<UserBuffer>>>
    var sortedStreamIds: seq<nat>
    var streamIdToPortMap: map<nat, Port>
    /** MAX_STREAM_NUMBER. */
    const maxStreamNumber: nat

    predicate Valid()
      reads this
    {
      |queues| == streamNum
    }

    constructor (maxStreams: nat)
      ensures Valid() && state == DEVICE_UNINIT && streamNum == 0
      ensures sortedStreamIds == [] && streamIdToPortMap == map[] && maxStreamNumber == maxStreams
    {
      state := DEVICE_UNINIT;
      streamNum := 0;
      queues := [];
      sortedStreamIds := [];
      streamIdToPortMap := map[];
      maxStreamNumber := maxStreams;
    }

    /** init: INIT once every unit initialised (unitsStatus), else that failure and no change. */
    method Init(unitsStatus: Status) returns (status: Status)
      requires Valid()
      modifies this
      ensures Valid() && status == unitsStatus
      ensures status == OK ==> state == DEVICE_INIT
      ensures status != OK ==> state == old(state)
      ensures streamNum == old(streamNum) && queues == old(queues)
      ensures sortedStreamIds == old(sortedStreamIds) && streamIdToPortMap == old(streamIdToPortMap)
    {
      if unitsStatus != OK {
        return unitsStatus;
      }
      state := DEVICE_INIT;
      return OK;
    }

    /** deinit: nothing in UNINIT; otherwise the streams are deleted and the state is UNINIT. */
    method Deinit()
      requires Valid()
      modifies this
      ensures Valid()
      ensures old(state) == DEVICE_UNINIT ==> state == old(state) && streamNum == old(streamNum) && queues == old(queues)
      ensures old(state) != DEVICE_UNINIT ==> state == DEVICE_UNINIT && streamNum == 0
      ensures sortedStreamIds == old(sortedStreamIds) && streamIdToPortMap == old(streamIdToPortMap)
    {
      if state == DEVICE_UNINIT {
        return;
      }
      streamNum := 0;
      queues := [];
      state := DEVICE_UNINIT;
    }

    /**
     * configure: BAD_VALUE for a missing stream list or a count outside
     * [1, MAX_STREAM_NUMBER], and (corrected) for more streams than the
     * port table has ports; INVALID_OPERATION unless stopped or
     * initialised; then analyzeStream, whose failure is returned; then the
     * units are configured (unitsStatus) and on success one stream is
     * created per configuration and the state becomes CONFIGURE.
     */
    method Configure(streamsGiven: bool, streams: seq<StreamT>, supported: seq<bool>, cropEnabled: bool, unitsStatus: Status)
      returns (status: Status)
      requires Valid() && |supported| == |streams|
      modifies this
      ensures Valid()
      ensures !streamsGiven || |streams| == 0 || |streams| > maxStreamNumber || |streams| > |PORTS|
        ==> status == BAD_VALUE && state == old(state)
      ensures streamsGiven && 0 < |streams| <= maxStreamNumber && |streams| <= |PORTS|
        && old(state) != DEVICE_STOP && old(state) != DEVICE_INIT
        ==> status == INVALID_OPERATION && state == old(state)
      ensures status == OK <==> (streamsGiven && 0 < |streams| <= maxStreamNumber && |streams| <= |PORTS|
        && (old(state) == DEVICE_STOP || old(state) == DEVICE_INIT)
        && (cropEnabled || forall k :: 0 <= k < |streams| ==> supported[k])
        && unitsStatus == OK)
      ensures status == OK ==> (state == DEVICE_CONFIGURE && streamNum == |streams|
        && SortedIds(streams, sortedStreamIds, |streams|)
        && (forall a :: 0 <= a < |streams| ==>
              sortedStreamIds[a] in streamIdToPortMap && streamIdToPortMap[sortedStreamIds[a]] == PORTS[a])
        && forall t :: 0 <= t < streamNum ==> queues[t] == [])
      ensures status != OK ==> state == old(state)
    {
      if !streamsGiven {
        return BAD_VALUE;
      }
      if |streams| > maxStreamNumber || |streams| > |PORTS| || |streams| <= 0 {
        return BAD_VALUE;
      }
      if state != DEVICE_STOP && state != DEVICE_INIT {
        return INVALID_OPERATION;
      }
      status := AnalyzeStream(streams, supported, cropEnabled);
      if status != OK {
        return status;
      }
      streamNum := 0;
      queues := [];
      if unitsStatus != OK {
        return unitsStatus;
      }
      streamNum := |streams|;
      queues := seq(|streams|, _ => []);
      state := DEVICE_CONFIGURE;
      return OK;
    }

    /**
     * analyzeStream: the sorted ids and, when every stream passes, the port
     * of each rank; a failing stream leaves the port map empty.
     */
    method AnalyzeStream(streams: seq<StreamT>, supported: seq<bool>, cropEnabled: bool) returns (status: Status)
      requires |supported| == |streams| && |streams| <= |PORTS|
      modifies this
      ensures status == OK || status == BAD_VALUE
      ensures status == OK <==> cropEnabled || forall k :: 0 <= k < |streams| ==> supported[k]
      ensures status == OK ==> (SortedIds(streams, sortedStreamIds, |streams|)
        && (forall a :: 0 <= a < |streams| ==>
              (sortedStreamIds[a] in streamIdToPortMap && streamIdToPortMap[sortedStreamIds[a]] == PORTS[a]))
        && (forall k :: k in streamIdToPortMap ==> k < |streams|))
      ensures status != OK ==> streamIdToPortMap == map[]
      ensures state == old(state) && streamNum == old(streamNum) && queues == old(queues)
    {
      var ids;
      status, ids := SortStreams(streams, supported, cropEnabled);
      sortedStreamIds := ids;
      streamIdToPortMap := map[];
      if status != OK {
        return;
      }
      streamIdToPortMap := PortsByRank(ids);
    }

    /**
     * qbuf: from CONFIGURE or STOP the 3A start (start3A) moves the device
     * to BUFFER_READY; its failure is BAD_VALUE.  Otherwise the request
     * thread's processRequest answer (requestStatus) is returned.
     */
    method Qbuf(start3A: Status, requestStatus: Status) returns (status: Status)
      requires Valid()
      modifies this
      ensures Valid()
      ensures (old(state) == DEVICE_CONFIGURE || old(state) == DEVICE_STOP) && start3A != OK
        ==> status == BAD_VALUE && state == old(state)
      ensures (old(state) == DEVICE_CONFIGURE || old(state) == DEVICE_STOP) && start3A == OK
        ==> status == requestStatus && state == DEVICE_BUFFER_READY
      ensures old(state) != DEVICE_CONFIGURE && old(state) != DEVICE_STOP ==> status == requestStatus && state == old(state)
      ensures streamNum == old(streamNum) && queues == old(queues)
      ensures sortedStreamIds == old(sortedStreamIds) && streamIdToPortMap == old(streamIdToPortMap)
    {
      if state == DEVICE_CONFIGURE || state == DEVICE_STOP {
        if start3A != OK {
          return BAD_VALUE;
        }
        state := DEVICE_BUFFER_READY;
      }
      return requestStatus;
    }

    /**
     * start: BAD_VALUE unless BUFFER_READY with at least one stream; a
     * failing start of the units (unitsStatus) is INVALID_OPERATION.
     */
    method Start(unitsStatus: Status) returns (status: Status)
      requires Valid()
      modifies this
      ensures Valid()
      ensures old(state) != DEVICE_BUFFER_READY || streamNum == 0 ==> status == BAD_VALUE
      ensures status == OK <==> old(state) == DEVICE_BUFFER_READY && streamNum > 0 && unitsStatus == OK
      ensures status != OK ==> status == BAD_VALUE || status == INVALID_OPERATION
      ensures status == OK ==> state == DEVICE_START
      ensures status != OK ==> state == old(state)
      ensures streamNum == old(streamNum) && queues == old(queues)
      ensures sortedStreamIds == old(sortedStreamIds) && streamIdToPortMap == old(streamIdToPortMap)
    {
      if state != DEVICE_BUFFER_READY {
        return BAD_VALUE;
      }
      if streamNum == 0 {
        return BAD_VALUE;
      }
      if unitsStatus != OK {
        return INVALID_OPERATION;
      }
      state := DEVICE_START;
      return OK;
    }

    /** stop: always STOP. */
    method Stop() returns (status: Status)
      requires Valid()
      modifies this
      ensures Valid() && status == OK && state == DEVICE_STOP
      ensures streamNum == old(streamNum) && queues == old(queues)
      ensures sortedStreamIds == old(sortedStreamIds) && streamIdToPortMap == old(streamIdToPortMap)
    {
      state := DEVICE_STOP;
      return OK;
    }

    /**
     * handleQueueBuffer: BAD_VALUE before configuration; otherwise each
     * configured stream in turn is queued its first user buffer or an empty
     * one; a rejected id met while scanning stops with BAD_VALUE, and a
     * failing stream qbuf stops with that stream's answer. `qbuf` gives the
     * streams' answers.
     */
    method HandleQueueBuffer(buffers: seq<UserBuffer>, qbuf: QbufOutcome) returns (status: Status)
      requires Valid()
      modifies this
      ensures Valid()
      ensures BeforeConfigure(old(state)) ==> status == BAD_VALUE && queues == old(queues)
      ensures !BeforeConfigure(old(state)) ==>
        QueueResult(status, queues) == QueueFrom(old(queues), buffers, qbuf, 0)
      ensures !BeforeConfigure(old(state)) && AllIdsAccepted(buffers, streamNum) && QbufAccepts(qbuf, buffers, 0, streamNum)
        ==> status == OK && forall t :: 0 <= t < streamNum ==> queues[t] == old(queues)[t] + [BufferFor(buffers, t)]
      ensures !BeforeConfigure(old(state)) && AllIdsAccepted(buffers, streamNum)
        ==> (forall f: nat :: f < streamNum && QbufAccepts(qbuf, buffers, 0, f) && qbuf(f, BufferFor(buffers, f)) != OK
               ==> (status == qbuf(f, BufferFor(buffers, f))
                    && forall t :: 0 <= t < streamNum ==>
                         queues[t] == if t < f then old(queues)[t] + [BufferFor(buffers, t)] else old(queues)[t]))
      ensures state == old(state) && streamNum == old(streamNum)
      ensures sortedStreamIds == old(sortedStreamIds) && streamIdToPortMap == old(streamIdToPortMap)
    {
      if BeforeConfigure(state) {
        return BAD_VALUE;
      }
      if AllIdsAccepted(buffers, streamNum) {
        if QbufAccepts(qbuf, buffers, 0, streamNum) {
          QueueAllValid(queues, buffers, qbuf, 0, streamNum);
        }
        forall f: nat | f < streamNum && QbufAccepts(qbuf, buffers, 0, f) && qbuf(f, BufferFor(buffers, f)) != OK
          ensures QueueFrom(queues, buffers, qbuf, 0).status == qbuf(f, BufferFor(buffers, f))
          ensures forall t :: 0 <= t < streamNum ==>
            QueueFrom(queues, buffers, qbuf, 0).queues[t] == if t < f then queues[t] + [BufferFor(buffers, t)] else queues[t]
        {
          QueueAllValid(queues, buffers, qbuf, 0, f);
        }
      }
      var r := QueueBuffers(queues, buffers, qbuf);
      queues := r.queues;
      return r.status;
    }
  }

  /** The life cycle of one session: init, configure, qbuf and start reach START; stop then deinit return to UNINIT. */
  method Session(maxStreams: nat, streams: seq<StreamT>) returns (d: Device)
    requires 0 < |streams| <= maxStreams && |streams| <= |PORTS|
    ensures d.state == DEVICE_UNINIT && d.streamNum == 0
  {
    d := new Device(maxStreams);
    var s := d.Init(OK);
    assert d.state == DEVICE_INIT;
    s := d.Configure(true, streams, seq(|streams|, _ => true), false, OK);
    assert s == OK && d.state == DEVICE_CONFIGURE && d.streamNum == |streams|;
    s := d.Qbuf(OK, OK);
    assert d.state == DEVICE_BUFFER_READY;
    s := d.Start(OK);
    assert s == OK && d.state == DEVICE_START;
    s := d.Stop();
    d.Deinit();
  }
}
