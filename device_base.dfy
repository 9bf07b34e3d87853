/**
 * The buffer bookkeeping of a V4L2 capture device (core/DeviceBase.cpp):
 * the allocated buffers, the buffers waiting to be queued (pending) and
 * the buffers the driver holds (in device), the initial-frame skip count
 * and the sequence of the latest dequeued frame.  The queue-back rule is
 * either the one of MainDevice or the one DolCaptureDevice and IsaRawDevice
 * share.  The driver calls (qbuf, grabFrame), the buffer-pool creation and
 * the SyncManager frame-sync check are not part of this model: their
 * outcomes are parameters.
 */
module DeviceBase {
  import opened Common
  import opened HalTypes

  /** A CameraBuffer: its V4L2 index, the frame sequence and the V4L2 error flag the driver set. */
  datatype CameraBuffer = CameraBuffer(index: int, sequence: int, errorFlag: bool)

  /**
   * needQueueBack of DolCaptureDevice and IsaRawDevice: the buffer goes back
   * to the pending list instead of the consumer when no consumer port is
   * set, when the driver flagged an error and such frames are skipped, or
   * while initial frames are being skipped.
   */
  predicate NeedQueueBack(port: Port, b: CameraBuffer, skipOnError: bool, frameSkipNum: nat)
  {
    var needNotifyBufferDone :=
      if b.errorFlag && skipOnError then false
      else if frameSkipNum > 0 then false
      else port != INVALID_PORT;
    !needNotifyBufferDone
  }

  /**
   * needQueueBack of MainDevice: the buffer is re-queued while initial
   * frames are skipped, when the driver flagged an error and such frames
   * are skipped, or when the frame-sync check (enabled per camera) drops
   * the frame (syncDrop); the consumer port plays no part.
   */
  predicate MainNeedQueueBack(b: CameraBuffer, skipOnError: bool, frameSkipNum: nat, syncDrop: bool)
  {
    frameSkipNum > 0 || (b.errorFlag && skipOnError) || syncDrop
  }

  /** Which needQueueBack a device runs. */
  datatype DeviceKind = MainKind | DolOrIsaKind

  function QueueBack(kind: DeviceKind, port: Port, b: CameraBuffer, skipOnError: bool, frameSkipNum: nat, syncDrop: bool): bool
  {
    match kind
    case MainKind => MainNeedQueueBack(b, skipOnError, frameSkipNum, syncDrop)
    case DolOrIsaKind => NeedQueueBack(port, b, skipOnError, frameSkipNum)
  }

  /**
   * The two rules agree except on the port and the frame-sync drop: the
   * main device ignores the port, the others ignore the sync check.
   */
  lemma QueueBackRulesAgree(port: Port, b: CameraBuffer, skipOnError: bool, frameSkipNum: nat, syncDrop: bool)
    ensures port != INVALID_PORT && !syncDrop ==>
      (QueueBack(MainKind, port, b, skipOnError, frameSkipNum, syncDrop)
        == QueueBack(DolOrIsaKind, port, b, skipOnError, frameSkipNum, syncDrop))
    ensures QueueBack(MainKind, INVALID_PORT, b, skipOnError, frameSkipNum, syncDrop)
        == QueueBack(MainKind, port, b, skipOnError, frameSkipNum, syncDrop)
    ensures syncDrop ==> QueueBack(MainKind, port, b, skipOnError, frameSkipNum, syncDrop)
    ensures QueueBack(DolOrIsaKind, INVALID_PORT, b, skipOnError, frameSkipNum, syncDrop)
  {
  }

  /** The queue-back rule as a disjunction of its three causes. */
  lemma NeedQueueBackCauses(port: Port, b: CameraBuffer, skipOnError: bool, frameSkipNum: nat)
    ensures NeedQueueBack(port, b, skipOnError, frameSkipNum)
      <==> port == INVALID_PORT || (b.errorFlag && skipOnError) || frameSkipNum > 0
  {
  }

  class Device {
    var port: Port
    var allocatedBuffers: seq<CameraBuffer>
    var pendingBuffers: seq<CameraBuffer>
    var buffersInDevice: seq<CameraBuffer>
    var latestSequence: int
    var frameSkipNum: nat
    var needSkipFrame: bool
    /** getInitialSkipFrame and isSkipFrameOnSTR2MMIOErr of the camera. */
    const initialSkipFrame: nat
    const skipFrameOnError: bool
    /** The device class, which decides the queue-back rule. */
    const kind: DeviceKind

    constructor (k: DeviceKind, initialSkip: nat, skipOnError: bool)
      ensures port == INVALID_PORT && latestSequence == -1 && !needSkipFrame && kind == k
      ensures frameSkipNum == initialSkip && initialSkipFrame == initialSkip && skipFrameOnError == skipOnError
      ensures allocatedBuffers == [] && pendingBuffers == [] && buffersInDevice == []
    {
      port := INVALID_PORT;
      allocatedBuffers := [];
      pendingBuffers := [];
      buffersInDevice := [];
      latestSequence := -1;
      frameSkipNum := initialSkip;
      needSkipFrame := false;
      initialSkipFrame := initialSkip;
      skipFrameOnError := skipOnError;
      kind := k;
    }

    /** getPredictSequence: the sequence the next queued buffer is expected to carry. */
    function PredictSequence(): int
      reads this
    {
      latestSequence + frameSkipNum + |buffersInDevice|
    }

    /** closeDevice: every list is emptied. */
    method CloseDevice()
      modifies this
      ensures pendingBuffers == [] && buffersInDevice == [] && allocatedBuffers == []
      ensures port == old(port) && latestSequence == old(latestSequence)
      ensures frameSkipNum == old(frameSkipNum) && needSkipFrame == old(needSkipFrame)
    {
      pendingBuffers := [];
      buffersInDevice := [];
      allocatedBuffers := [];
    }

    /** resetBuffers: nothing in the device, and every allocated buffer pending in allocation order. */
    method ResetBuffers()
      modifies this
      ensures buffersInDevice == [] && pendingBuffers == allocatedBuffers
      ensures allocatedBuffers == old(allocatedBuffers) && port == old(port)
      ensures latestSequence == old(latestSequence) && frameSkipNum == old(frameSkipNum) && needSkipFrame == old(needSkipFrame)
    {
      buffersInDevice := [];
      pendingBuffers := [];
      var i := 0;
      while i < |allocatedBuffers|
        invariant i <= |allocatedBuffers|
        invariant pendingBuffers == allocatedBuffers[..i] && buffersInDevice == []
        invariant allocatedBuffers == old(allocatedBuffers) && port == old(port)
        invariant latestSequence == old(latestSequence) && frameSkipNum == old(frameSkipNum) && needSkipFrame == old(needSkipFrame)
      {
        pendingBuffers := pendingBuffers + [allocatedBuffers[i]];
        i := i + 1;
      }
    }

    /**
     * configure: the port is recorded first; a failing pool creation
     * (poolStatus) is NO_MEMORY, otherwise the new pool's buffers are all
     * pending.
     */
    method Configure(p: Port, poolStatus: Status, pool: seq<CameraBuffer>) returns (status: Status)
      modifies this
      ensures port == p
      ensures poolStatus != OK ==>
        (status == NO_MEMORY && pendingBuffers == old(pendingBuffers) && buffersInDevice == old(buffersInDevice))
      ensures poolStatus == OK ==>
        (status == OK && allocatedBuffers == pool && pendingBuffers == pool && buffersInDevice == [])
      ensures latestSequence == old(latestSequence) && frameSkipNum == old(frameSkipNum)
    {
      port := p;
      if poolStatus != OK {
        return NO_MEMORY;
      }
      allocatedBuffers := pool;
      ResetBuffers();
      return OK;
    }

    /** streamOn: the initial skip count is restored. */
    method StreamOn()
      modifies this
      ensures frameSkipNum == initialSkipFrame
      ensures pendingBuffers == old(pendingBuffers) && buffersInDevice == old(buffersInDevice)
      ensures allocatedBuffers == old(allocatedBuffers) && latestSequence == old(latestSequence) && port == old(port)
    {
      frameSkipNum := initialSkipFrame;
    }

    /** addPendingBuffer: a buffer returned by the consumer waits to be queued again. */
    method AddPendingBuffer(b: CameraBuffer)
      modifies this
      ensures pendingBuffers == old(pendingBuffers) + [b]
      ensures buffersInDevice == old(buffersInDevice) && allocatedBuffers == old(allocatedBuffers)
      ensures latestSequence == old(latestSequence) && frameSkipNum == old(frameSkipNum)
    {
      pendingBuffers := pendingBuffers + [b];
    }

    /**
     * queueBuffer: with nothing pending, OK and no change.  Otherwise the
     * front pending buffer is prepared (prepareStatus) and handed to the
     * driver (driverStatus); only when the driver takes it does it move to
     * the back of the in-device list, one more frame the prediction counts.
     */
    method QueueBuffer(prepareStatus: Status, driverStatus: Status) returns (status: Status)
      modifies this
      ensures old(pendingBuffers) == [] ==>
        (status == OK && pendingBuffers == old(pendingBuffers) && buffersInDevice == old(buffersInDevice))
      ensures old(pendingBuffers) != [] && prepareStatus != OK ==>
        (status == prepareStatus && pendingBuffers == old(pendingBuffers) && buffersInDevice == old(buffersInDevice))
      ensures old(pendingBuffers) != [] && prepareStatus == OK && driverStatus == OK ==>
        (status == OK
         && pendingBuffers == old(pendingBuffers)[1..]
         && buffersInDevice == old(buffersInDevice) + [old(pendingBuffers)[0]]
         && PredictSequence() == old(PredictSequence()) + 1)
      ensures old(pendingBuffers) != [] && prepareStatus == OK && driverStatus != OK ==>
        (status == driverStatus && pendingBuffers == old(pendingBuffers) && buffersInDevice == old(buffersInDevice))
      ensures multiset(pendingBuffers + buffersInDevice) == old(multiset(pendingBuffers + buffersInDevice))
      ensures allocatedBuffers == old(allocatedBuffers) && latestSequence == old(latestSequence)
      ensures frameSkipNum == old(frameSkipNum) && port == old(port)
    {
      if pendingBuffers == [] {
        return OK;
      }
      var buffer := pendingBuffers[0];
      if prepareStatus != OK {
        return prepareStatus;
      }
      if driverStatus == OK {
        assert pendingBuffers == [buffer] + pendingBuffers[1..];
        pendingBuffers := pendingBuffers[1..];
        buffersInDevice := buffersInDevice + [buffer];
      }
      return driverStatus;
    }

    /**
     * popBufferFromDevice: the front in-device buffer (as the driver
     * returned it) leaves the device, its sequence becomes the latest, and
     * it goes back to pending exactly when the frame is skipped.
     */
    method PopBufferFromDevice(grabbed: CameraBuffer)
      modifies this
      ensures old(buffersInDevice) == [] ==>
        (buffersInDevice == [] && pendingBuffers == old(pendingBuffers) && latestSequence == old(latestSequence))
      ensures old(buffersInDevice) != [] ==>
        (buffersInDevice == old(buffersInDevice)[1..]
         && latestSequence == grabbed.sequence
         && pendingBuffers == old(pendingBuffers) + (if needSkipFrame then [grabbed] else []))
      ensures allocatedBuffers == old(allocatedBuffers) && frameSkipNum == old(frameSkipNum)
      ensures needSkipFrame == old(needSkipFrame) && port == old(port)
    {
      if buffersInDevice == [] {
        return;
      }
      buffersInDevice := buffersInDevice[1..];
      latestSequence := grabbed.sequence;
      if needSkipFrame {
        pendingBuffers := pendingBuffers + [grabbed];
      }
    }

    /**
     * dequeueBuffer: UNKNOWN_ERROR with nothing in the device; a failed
     * grab (negative index) is BAD_VALUE with nothing popped.  Otherwise
     * the buffer is popped (re-queued when the device's queue-back rule
     * skips it; syncDrop is the frame-sync answer), an index other than
     * the buffer's is BAD_VALUE, and a positive skip count goes down by one.
     */
    method DequeueBuffer(actualIndex: int, frameSequence: int, errorFlag: bool, syncDrop: bool) returns (status: Status)
      modifies this
      ensures old(buffersInDevice) == [] ==> status == UNKNOWN_ERROR
      ensures old(buffersInDevice) != [] && actualIndex < 0 ==> status == BAD_VALUE
      ensures old(buffersInDevice) == [] || actualIndex < 0 ==>
        (buffersInDevice == old(buffersInDevice) && pendingBuffers == old(pendingBuffers)
         && frameSkipNum == old(frameSkipNum) && latestSequence == old(latestSequence))
      ensures old(buffersInDevice) != [] && actualIndex >= 0 ==>
        var b := old(buffersInDevice)[0].(sequence := frameSequence, errorFlag := errorFlag);
        && (status == OK <==> actualIndex == b.index)
        && (status != OK ==> status == BAD_VALUE)
        && needSkipFrame == QueueBack(kind, port, b, skipFrameOnError, old(frameSkipNum), syncDrop)
        && buffersInDevice == old(buffersInDevice)[1..]
        && pendingBuffers == old(pendingBuffers) + (if needSkipFrame then [b] else [])
        && latestSequence == frameSequence
        && frameSkipNum == (if old(frameSkipNum) > 0 then old(frameSkipNum) - 1 else 0)
      ensures allocatedBuffers == old(allocatedBuffers) && port == old(port)
    {
      if buffersInDevice == [] {
        return UNKNOWN_ERROR;
      }
      var camBuffer := buffersInDevice[0].(sequence := frameSequence, errorFlag := errorFlag);
      if actualIndex < 0 {
        return BAD_VALUE;
      }
      status := OK;
      if actualIndex != camBuffer.index {
        status := BAD_VALUE;
      }
      needSkipFrame := QueueBack(kind, port, camBuffer, skipFrameOnError, frameSkipNum, syncDrop);
      PopBufferFromDevice(camBuffer);
      if frameSkipNum > 0 {
        frameSkipNum := frameSkipNum - 1;
      }
    }
  }

  /**
   * The prediction holds through a queue and a dequeue: after the driver
   * takes the pending buffer and returns it with the predicted sequence
   * and no skip pending, the next prediction is one frame later.
   */
  method PredictionAdvances(d: Device, actualIndex: int)
    requires d.pendingBuffers != [] && d.buffersInDevice == [] && d.frameSkipNum == 0
    modifies d
    ensures d.PredictSequence() == old(d.PredictSequence()) + 1
  {
    var s := d.QueueBuffer(OK, OK);
    assert |d.buffersInDevice| == 1;
    var predicted := d.PredictSequence();
    assert predicted == old(d.latestSequence) + 1;
    s := d.DequeueBuffer(actualIndex, predicted, false, false);
  }
}
