/**
 * The camera3 HAL adaptor (Camera3HardwareInterface): the HAL/V4L2 pixel
 * format maps, the stream-list and capture-request checks, the device
 * state machine, the largest JPEG output size, and the pool of internal
 * main-stream buffers handed to the capture channel.  The libcamhal device
 * calls, the channel, gralloc and the framework callbacks are parameters
 * or left out; so is the wait for in-flight requests.
 */
module Camera3Hwi {
  import opened Common
  import opened HalTypes
  import MetadataConvert

  // status_t values of Android's utils/Errors.h and the errno the HAL negates.
  const NO_ERROR: int := 0
  const RC_PERMISSION_DENIED: int := -1
  const RC_NAME_NOT_FOUND: int := -2
  const RC_BAD_VALUE: int := -22
  const RC_INVALID_OPERATION: int := -38
  const ENODEV: int := 19

  const CAMERA3_BUFFER_STATUS_OK: int := 0

  datatype HalState = CLOSED | OPENED | INITIALIZED | CONFIGURED | STARTED | ERROR | DEINIT

  /* ---------------------------- format maps ---------------------------- */

  predicate MappedHalFormat(f: int)
  {
    f in {HAL_PIXEL_FORMAT_IMPLEMENTATION_DEFINED, HAL_PIXEL_FORMAT_RGB_565, HAL_PIXEL_FORMAT_YV12,
          HAL_PIXEL_FORMAT_YCbCr_422_I, HAL_PIXEL_FORMAT_YCbCr_422_SP}
  }

  predicate MappedV4l2Format(f: int)
  {
    f in {V4L2_PIX_FMT_NV12, V4L2_PIX_FMT_RGB565, V4L2_PIX_FMT_YVU420, V4L2_PIX_FMT_YUYV, V4L2_PIX_FMT_NV16}
  }

  /** HalFormat2V4L2Format: five gralloc formats have a V4L2 counterpart; any other gives NV12. */
  function HalToV4l2(f: int): (v: int)
    ensures MappedV4l2Format(v)
    ensures !MappedHalFormat(f) ==> v == V4L2_PIX_FMT_NV12
  {
    if f == HAL_PIXEL_FORMAT_RGB_565 then V4L2_PIX_FMT_RGB565
    else if f == HAL_PIXEL_FORMAT_YV12 then V4L2_PIX_FMT_YVU420
    else if f == HAL_PIXEL_FORMAT_YCbCr_422_I then V4L2_PIX_FMT_YUYV
    else if f == HAL_PIXEL_FORMAT_YCbCr_422_SP then V4L2_PIX_FMT_NV16
    else V4L2_PIX_FMT_NV12
  }

  /** V4L2Format2HalFormat: UYVY joins YUYV as 422 interleaved; any unknown format is IMPLEMENTATION_DEFINED. */
  function V4l2ToHal(v: int): (f: int)
    ensures MappedHalFormat(f)
    ensures v == V4L2_PIX_FMT_UYVY ==> f == HAL_PIXEL_FORMAT_YCbCr_422_I
    ensures !MappedV4l2Format(v) && v != V4L2_PIX_FMT_UYVY ==> f == HAL_PIXEL_FORMAT_IMPLEMENTATION_DEFINED
  {
    if v == V4L2_PIX_FMT_RGB565 then HAL_PIXEL_FORMAT_RGB_565
    else if v == V4L2_PIX_FMT_YVU420 then HAL_PIXEL_FORMAT_YV12
    else if v == V4L2_PIX_FMT_YUYV || v == V4L2_PIX_FMT_UYVY then HAL_PIXEL_FORMAT_YCbCr_422_I
    else if v == V4L2_PIX_FMT_NV16 then HAL_PIXEL_FORMAT_YCbCr_422_SP
    else HAL_PIXEL_FORMAT_IMPLEMENTATION_DEFINED
  }

  /** The two maps are inverse bijections between the five mapped formats on each side. */
  lemma FormatMapsRoundTrip(f: int, v: int)
    ensures MappedHalFormat(f) ==> V4l2ToHal(HalToV4l2(f)) == f
    ensures MappedV4l2Format(v) ==> HalToV4l2(V4l2ToHal(v)) == v
    ensures !MappedHalFormat(f) ==> V4l2ToHal(HalToV4l2(f)) == HAL_PIXEL_FORMAT_IMPLEMENTATION_DEFINED
  {
  }

  /* ------------------------- configuration checks ------------------------- */

  /** camera3_stream_configuration_t, as far as checkStreams looks at it. */
  datatype StreamConfiguration = StreamConfiguration(hasStreams: bool, numStreams: int)

  /** checkStreams: a present list of 1..maxStreams streams, else BAD_VALUE. */
  function CheckStreams(list: Option<StreamConfiguration>, maxStreams: int): (rc: int)
    ensures rc == NO_ERROR || rc == RC_BAD_VALUE
    ensures rc == NO_ERROR <==>
      list.Some? && list.value.hasStreams && 1 <= list.value.numStreams <= maxStreams
  {
    if list.None? then RC_BAD_VALUE
    else if !list.value.hasStreams then RC_BAD_VALUE
    else if list.value.numStreams < 1 then RC_BAD_VALUE
    else if list.value.numStreams > maxStreams then RC_BAD_VALUE
    else NO_ERROR
  }

  /** camera3_stream_buffer_t: status, release fence, and whether the handle and the handle it points to exist. */
  datatype StreamBuffer = StreamBuffer(status: int, releaseFence: int, hasHandle: bool, hasPrivateHandle: bool)

  datatype CaptureRequest = CaptureRequest(
    frameNumber: int,
    hasSettings: bool,
    /** ANDROID_REQUEST_ID in the settings, if present */
    requestId: Option<int>,
    inputBuffer: Option<StreamBuffer>,
    /** the output buffer array; its length is num_output_buffers */
    outputBuffers: Option<seq<StreamBuffer>>)

  function NumOutputBuffers(r: CaptureRequest): nat
  {
    if r.outputBuffers.Some? then |r.outputBuffers.value| else 0
  }

  predicate InputBufferUsable(b: StreamBuffer)
  {
    b.status == CAMERA3_BUFFER_STATUS_OK && b.releaseFence == -1 && b.hasHandle
  }

  predicate OutputBufferUsable(b: StreamBuffer)
  {
    InputBufferUsable(b) && b.hasPrivateHandle
  }

  /** What validateCaptureRequest accepts. */
  predicate RequestAcceptable(req: Option<CaptureRequest>, state: HalState, maxStreams: int)
  {
    req.Some? &&
    (req.value.hasSettings || state != CONFIGURED) &&
    req.value.outputBuffers.Some? &&
    1 <= NumOutputBuffers(req.value) <= maxStreams &&
    (req.value.inputBuffer.Some? ==> InputBufferUsable(req.value.inputBuffer.value)) &&
    forall i :: 0 <= i < |req.value.outputBuffers.value| ==> OutputBufferUsable(req.value.outputBuffers.value[i])
  }

  /* --------------------------- largest JPEG size --------------------------- */

  /** Whether group k of a stream-configuration list (format, width, height, direction) is a BLOB output. */
  predicate IsJpegOutput(configs: seq<int>, k: nat)
    requires 4 * k + 4 <= |configs|
  {
    configs[4 * k + 3] == MetadataConvert.SCALER_CONFIGURATION_OUTPUT && configs[4 * k] == HAL_PIXEL_FORMAT_BLOB
  }

  function GroupSize(configs: seq<int>, k: nat): Size
    requires 4 * k + 4 <= |configs|
  {
    Size(configs[4 * k + 1], configs[4 * k + 2])
  }

  /** The scan of the first n groups: a BLOB output replaces the best only with a strictly larger area. */
  function JpegScan(configs: seq<int>, n: nat): Size
    requires 4 * n <= |configs|
  {
    if n == 0 then Size(0, 0)
    else
      var best := JpegScan(configs, n - 1);
      var s := GroupSize(configs, n - 1);
      if IsJpegOutput(configs, n - 1) && Area(s) > Area(best) then s else best
  }

  /** The scan keeps the largest BLOB output area, and the size it keeps is 0x0 or one of them. */
  lemma {:induction false} JpegScanIsLargest(configs: seq<int>, n: nat)
    requires 4 * n <= |configs|
    ensures forall k :: 0 <= k < n && IsJpegOutput(configs, k) ==> Area(GroupSize(configs, k)) <= Area(JpegScan(configs, n))
    ensures JpegScan(configs, n) == Size(0, 0) ||
      exists k :: 0 <= k < n && IsJpegOutput(configs, k) && JpegScan(configs, n) == GroupSize(configs, k)
    ensures Area(JpegScan(configs, n)) >= 0
  {
    if n > 0 {
      JpegScanIsLargest(configs, n - 1);
    }
  }

  /** getMaxJpegResolution: 0x0 for an empty list or one that is not whole groups of four. */
  method MaxJpegResolution(configs: seq<int>) returns (r: Size)
    ensures |configs| == 0 || |configs| % 4 != 0 ==> r == Size(0, 0)
    ensures |configs| > 0 && |configs| % 4 == 0 ==> r == JpegScan(configs, |configs| / 4)
  {
    if |configs| == 0 || |configs| % 4 != 0 {
      return Size(0, 0);
    }
    var maxW, maxH := 0, 0;
    var i := 0;
    while i < |configs|
      invariant 0 <= i <= |configs| && i % 4 == 0
      invariant Size(maxW, maxH) == JpegScan(configs, i / 4)
      decreases |configs| - i
    {
      var format, width, height, isInput := configs[i], configs[i + 1], configs[i + 2], configs[i + 3];
      if isInput == MetadataConvert.SCALER_CONFIGURATION_OUTPUT && format == HAL_PIXEL_FORMAT_BLOB &&
         width * height > maxW * maxH {
        maxW, maxH := width, height;
      }
      assert (i + 4) / 4 - 1 == i / 4;
      i := i + 4;
    }
    r := Size(maxW, maxH);
  }

  /* --------------------------- main buffer pool --------------------------- */

  /** The main stream's BufferPackage array: busy flags, which slots hold a buffer, and main_hal_bufnum. */
  datatype Pool = Pool(busy: seq<bool>, present: seq<bool>, num: int)

  predicate PoolInv(p: Pool, maxBuffers: nat)
  {
    |p.busy| == maxBuffers && |p.present| == maxBuffers && 0 <= p.num &&
    forall i :: p.num <= i < maxBuffers ==> !p.busy[i]
  }

  /** The first slot in [i, n) that holds a buffer not in use. */
  function FirstFree(busy: seq<bool>, present: seq<bool>, i: nat, n: nat): (r: Option<nat>)
    requires n <= |busy| && n <= |present|
    ensures r.Some? ==> (i <= r.value < n && present[r.value] && !busy[r.value] &&
                         forall j :: i <= j < r.value ==> !(present[j] && !busy[j]))
    ensures r.None? ==> forall j :: i <= j < n ==> !(present[j] && !busy[j])
    decreases n - i
  {
    if i >= n then None
    else if present[i] && !busy[i] then Some(i)
    else FirstFree(busy, present, i + 1, n)
  }

  /**
   * getMainHalBuf, corrected: the first free buffer below main_hal_bufnum,
   * else the pool grows by one slot; a pool that is full and all in use
   * hands nothing out.
   */
  function PoolTake(p: Pool, maxBuffers: nat): (r: (Option<nat>, Pool))
    requires |p.busy| == maxBuffers && |p.present| == maxBuffers && 0 <= p.num
    ensures |r.1.busy| == maxBuffers && r.1.present == p.present && p.num <= r.1.num <= p.num + 1
    ensures r.0.Some? ==> r.0.value < maxBuffers && p.present[r.0.value] && r.1.busy[r.0.value]
    ensures forall j :: 0 <= j < maxBuffers && !(r.0.Some? && j == r.0.value) && j != p.num && j != r.1.num - 1 ==>
      r.1.busy[j] == p.busy[j]
  {
    if p.num > maxBuffers then (None, p)
    else match FirstFree(p.busy, p.present, 0, p.num)
      case Some(i) => (Some(i), p.(busy := p.busy[i := true]))
      case None =>
        if p.num < maxBuffers then
          ((if p.present[p.num] then Some(p.num) else None), p.(busy := p.busy[p.num := true], num := p.num + 1))
        else (None, p)
  }

  /** getMainHalBuf as written: a full pool with every buffer in use marks and returns its last slot. */
  function PoolTakeAsWritten(p: Pool, maxBuffers: nat): (r: (Option<nat>, Pool))
    requires |p.busy| == maxBuffers && |p.present| == maxBuffers && 0 <= p.num
    ensures |r.1.busy| == maxBuffers && r.1.present == p.present && p.num <= r.1.num <= p.num + 1
    ensures r.0.Some? ==> r.0.value < maxBuffers && p.present[r.0.value] && r.1.busy[r.0.value]
    ensures forall j :: 0 <= j < maxBuffers && !(r.0.Some? && j == r.0.value) && j != p.num && j != r.1.num - 1 ==>
      r.1.busy[j] == p.busy[j]
  {
    if p.num > maxBuffers then (None, p)
    else match FirstFree(p.busy, p.present, 0, p.num)
      case Some(i) => (Some(i), p.(busy := p.busy[i := true]))
      case None =>
        var p' := if p.num < maxBuffers then p.(num := p.num + 1) else p;
        if p'.num > 0 then
          ((if p.present[p'.num - 1] then Some(p'.num - 1) else None), p'.(busy := p'.busy[p'.num - 1 := true]))
        else (None, p')
  }

  /** With one slot already in use, the code as written hands the same buffer out a second time. */
  lemma ExhaustedPoolReturnsBusyBuffer()
    ensures var p := Pool([true], [true], 1);
      PoolTakeAsWritten(p, 1).0 == Some(0) && p.busy[0] && PoolTake(p, 1).0.None?
  {
  }

  /** The corrected pool only hands out a buffer that was free, marks it busy and keeps the pool invariant. */
  lemma PoolTakeReturnsFreeBuffer(p: Pool, maxBuffers: nat)
    requires PoolInv(p, maxBuffers)
    ensures PoolInv(PoolTake(p, maxBuffers).1, maxBuffers)
    ensures var (r, p') := PoolTake(p, maxBuffers);
      r.Some? ==> r.value < maxBuffers && p.present[r.value] && !p.busy[r.value] && p'.busy[r.value]
    ensures var (r, p') := PoolTake(p, maxBuffers);
      forall j :: 0 <= j < maxBuffers && !(r.Some? && j == r.value) && !(j == p.num && p'.num == p.num + 1) ==>
        p'.busy[j] == p.busy[j]
  {
    if p.num < maxBuffers && FirstFree(p.busy, p.present, 0, p.num).None? {
      assert !p.busy[p.num];
    }
  }

  /** A capture result for a buffer returns the pool to the flags it had before the buffer was taken. */
  lemma ReleaseUndoesTake(p: Pool, maxBuffers: nat)
    requires PoolInv(p, maxBuffers)
    requires PoolTake(p, maxBuffers).0.Some? && PoolTake(p, maxBuffers).1.num == p.num
    ensures var (r, p') := PoolTake(p, maxBuffers);
      p'.busy[r.value := false] == p.busy
  {
  }

  /* ---------------------------- stream identity ---------------------------- */

  /** camera3_stream_t, as far as isSameStream compares it. */
  class Camera3Stream {
    var format: int
    var width: int
    var height: int
    var streamType: int
    var usage: int

    constructor (format: int, width: int, height: int, streamType: int, usage: int)
      ensures this.format == format && this.width == width && this.height == height
      ensures this.streamType == streamType && this.usage == usage
    {
      this.format := format;
      this.width := width;
      this.height := height;
      this.streamType := streamType;
      this.usage := usage;
    }
  }

  /**
   * isSameStream: the same stream object with the same format, size, type
   * and usage.  Since the object is the same, the field comparisons never
   * decide anything: two distinct streams with equal fields are not the same.
   */
  predicate IsSameStream(src: Camera3Stream, dst: Camera3Stream): (r: bool)
    reads src, dst
    ensures r <==> src == dst
  {
    src == dst && src.format == dst.format && src.height == dst.height && src.width == dst.width &&
    src.streamType == dst.streamType && src.usage == dst.usage
  }

  /* ---------------------------- pending requests ---------------------------- */

  /**
   * An entry of mPendingRequestsList: its frame number and the main buffer
   * handle its output buffers were given (none when getMainHalBuf had none).
   */
  datatype PendingRequest = PendingRequest(frameNumber: int, handle: Option<nat>)

  /** The search of processCaptureResult: the first pending request holding the handle, or |pending|. */
  function FindByHandle(pending: seq<PendingRequest>, handle: nat): (k: nat)
    ensures k <= |pending|
    ensures k < |pending| ==> pending[k].handle == Some(handle)
    ensures forall j :: 0 <= j < k ==> pending[j].handle != Some(handle)
  {
    if |pending| == 0 then 0
    else if pending[0].handle == Some(handle) then 0
    else 1 + FindByHandle(pending[1..], handle)
  }

  /** erasePendingRequest: the list without entry k, the others in order. */
  function EraseAt(pending: seq<PendingRequest>, k: nat): (r: seq<PendingRequest>)
    requires k < |pending|
    ensures |r| == |pending| - 1
    ensures forall j :: 0 <= j < k ==> r[j] == pending[j]
    ensures forall j :: k <= j < |r| ==> r[j] == pending[j + 1]
  {
    pending[..k] + pending[k + 1..]
  }

  /* --------------------------- the device lock --------------------------- */

  /** One operation on mLock by the thread that runs an entry point. */
  datatype LockOp = Lock | Unlock

  /**
   * The first Lock that the thread issues while it already holds the
   * mutex, starting with the mutex `held` or not; a non-recursive mutex
   * blocks there for good.
   */
  function FirstSelfBlock(ops: seq<LockOp>, held: bool): (r: Option<nat>)
    ensures r.Some? ==> r.value < |ops| && ops[r.value] == Lock
    ensures r.Some? ==> (r.value == 0 <==> held && ops[0] == Lock)
    ensures r.None? && |ops| > 0 ==> !(held && ops[0] == Lock)
  {
    if |ops| == 0 then None
    else if ops[0] == Lock && held then Some(0)
    else match FirstSelfBlock(ops[1..], ops[0] == Lock)
      case None => None
      case Some(i) => Some(i + 1)
  }

  /** Whole lock/unlock sections, one after the other: what scoped locking produces. */
  predicate Sections(ops: seq<LockOp>)
  {
    |ops| % 2 == 0 && forall i :: 0 <= i < |ops| ==> ops[i] == (if i % 2 == 0 then Lock else Unlock)
  }

  /** A thread that starts without the mutex and only runs whole sections never blocks on itself. */
  lemma {:induction false} SectionsNeverSelfBlock(ops: seq<LockOp>)
    requires Sections(ops)
    ensures FirstSelfBlock(ops, false).None?
    decreases |ops|
  {
    if |ops| > 0 {
      var rest := ops[2..];
      assert Sections(rest) by {
        forall i | 0 <= i < |rest|
          ensures rest[i] == (if i % 2 == 0 then Lock else Unlock)
        {
          assert rest[i] == ops[i + 2];
        }
      }
      SectionsNeverSelfBlock(rest);
      assert ops[1..][1..] == rest;
    }
  }

  /**
   * The mLock operations of handleCameraDeviceError from ERROR: its own
   * scoped check of the state, flush's update of mFlush, flush's scoped
   * section (stopAllChannels never fails) and the update to DEINIT.
   */
  const DeviceErrorLockOps: seq<LockOp> := [Lock, Unlock, Lock, Unlock, Lock, Unlock, Lock, Unlock]

  /**
   * initialize, configureStreams and processCaptureRequest call
   * handleCameraDeviceError while their AutoMutex holds mLock, and its
   * first lock blocks on the mutex the thread itself holds; entered with
   * the lock released, the same sequence never blocks.
   */
  lemma DeviceErrorSelfBlocks()
    ensures FirstSelfBlock([Lock] + DeviceErrorLockOps, false) == Some(1)
    ensures FirstSelfBlock(DeviceErrorLockOps, false).None?
  {
    SectionsNeverSelfBlock(DeviceErrorLockOps);
  }

  /* ------------------------------- the HAL ------------------------------- */

  class Camera3Hal {
    const maxStreams: nat
    /** MAX_BUFFERS, the size of the main stream's buffer array. */
    const maxBuffers: nat
    var state: HalState
    var firstConfiguration: bool
    var flushing: bool
    var currentRequestId: int
    var pendingLiveRequest: int
    /** mPendingRequestsList, oldest first */
    var pending: seq<PendingRequest>
    var hasMainStream: bool
    var bufNum: int
    const busy: array<bool>
    const present: array<bool>

    predicate Valid()
      reads this
    {
      busy.Length == maxBuffers && present.Length == maxBuffers && busy != present
    }

    function PoolOf(): Pool
      reads this, busy, present
    {
      Pool(busy[..], present[..], bufNum)
    }

    constructor (streams: nat, buffers: nat)
      ensures Valid() && maxStreams == streams && maxBuffers == buffers
      ensures state == CLOSED && firstConfiguration && !flushing
      ensures currentRequestId == -1 && pendingLiveRequest == 0 && pending == [] && !hasMainStream
      ensures PoolInv(PoolOf(), maxBuffers)
    {
      maxStreams := streams;
      maxBuffers := buffers;
      state := CLOSED;
      firstConfiguration := true;
      flushing := false;
      currentRequestId := -1;
      pendingLiveRequest := 0;
      pending := [];
      hasMainStream := false;
      bufNum := 0;
      busy := new bool[buffers](_ => false);
      present := new bool[buffers](_ => false);
    }

    /** openCamera: only from CLOSED; a successful device open leaves the HAL OPENED. */
    method OpenCamera(deviceOpenRc: int) returns (rc: int)
      modifies this
      ensures old(state) != CLOSED ==> rc == RC_PERMISSION_DENIED && state == old(state)
      ensures old(state) == CLOSED ==> (rc == deviceOpenRc &&
                                        (rc == NO_ERROR ==> state == OPENED && firstConfiguration) &&
                                        (rc != NO_ERROR ==> state == CLOSED))
      ensures hasMainStream == old(hasMainStream) && bufNum == old(bufNum) && pending == old(pending)
    {
      if state != CLOSED {
        return RC_PERMISSION_DENIED;
      }
      rc := deviceOpenRc;
      if rc == NO_ERROR {
        firstConfiguration := true;
        state := OPENED;
      }
    }

    /** closeCamera: always CLOSED. */
    method CloseCamera() returns (rc: int)
      modifies this
      ensures rc == NO_ERROR && state == CLOSED
      ensures hasMainStream == old(hasMainStream) && bufNum == old(bufNum) && pending == old(pending)
    {
      state := CLOSED;
      rc := NO_ERROR;
    }

    /**
     * flush, up to its notifications: the channels are stopped (which never
     * fails), the in-flight count is reset, every pending request is
     * dropped and the next request restarts the device.
     */
    method Flush() returns (rc: int)
      modifies this
      ensures rc == NO_ERROR
      ensures pending == [] && pendingLiveRequest == 0 && !flushing && firstConfiguration
      ensures state == old(state) && hasMainStream == old(hasMainStream) && bufNum == old(bufNum)
      ensures currentRequestId == old(currentRequestId)
    {
      flushing := true;
      pendingLiveRequest := 0;
      pending := [];
      flushing := false;
      firstConfiguration := true;
      rc := NO_ERROR;
    }

    /**
     * handleCameraDeviceError, entered with mLock released (see
     * DeviceErrorSelfBlocks): outside ERROR nothing is done; from ERROR the
     * internal flush runs and the HAL is DEINIT.
     */
    method HandleCameraDeviceError() returns (rc: int)
      modifies this
      ensures rc == NO_ERROR
      ensures old(state) != ERROR ==>
        state == old(state) && pending == old(pending) && pendingLiveRequest == old(pendingLiveRequest) &&
        flushing == old(flushing) && firstConfiguration == old(firstConfiguration)
      ensures old(state) == ERROR ==>
        state == DEINIT && pending == [] && pendingLiveRequest == 0 && !flushing && firstConfiguration
      ensures hasMainStream == old(hasMainStream) && bufNum == old(bufNum) && currentRequestId == old(currentRequestId)
    {
      if state != ERROR {
        return NO_ERROR;
      }
      rc := Flush();
      state := DEINIT;
    }

    /** initialize: OPENED becomes INITIALIZED; ERROR is handled and -ENODEV; any other state -ENODEV. */
    method Initialize() returns (rc: int)
      modifies this
      ensures old(state) == OPENED <==> rc == NO_ERROR
      ensures old(state) == OPENED ==> state == INITIALIZED
      ensures old(state) == ERROR ==>
        rc == -ENODEV && state == DEINIT && pending == [] && pendingLiveRequest == 0 && firstConfiguration
      ensures old(state) !in {OPENED, ERROR} ==> rc == -ENODEV && state == old(state) && pending == old(pending)
      ensures hasMainStream == old(hasMainStream) && bufNum == old(bufNum)
    {
      if state == ERROR {
        rc := HandleCameraDeviceError();
        return -ENODEV;
      }
      if state != OPENED {
        return -ENODEV;
      }
      state := INITIALIZED;
      rc := NO_ERROR;
    }

    /**
     * constructMainStream: every slot gets a buffer (`allocation` says which
     * allocations succeeded), none in use, and main_hal_bufnum 0.
     */
    method ConstructMainStream(allocation: seq<bool>)
      requires Valid() && |allocation| == maxBuffers
      modifies this, busy, present
      ensures Valid() && hasMainStream && bufNum == 0
      ensures busy[..] == seq(maxBuffers, _ => false) && present[..] == allocation
      ensures PoolInv(PoolOf(), maxBuffers)
      ensures state == old(state) && pending == old(pending)
    {
      var i := 0;
      while i < maxBuffers
        invariant 0 <= i <= maxBuffers
        invariant forall j :: 0 <= j < i ==> !busy[j] && present[j] == allocation[j]
        invariant state == old(state) && pending == old(pending)
      {
        present[i] := allocation[i];
        busy[i] := false;
        i := i + 1;
      }
      bufNum := 0;
      hasMainStream := true;
    }

    /**
     * configureStreams.  A null list is -1 and a list checkStreams refuses
     * is its code; outside INITIALIZED, CONFIGURED and STARTED it is -ENODEV,
     * after handling the device error in ERROR.
     * Otherwise the hardware streams are built (`constructRc`), the main
     * stream is created once, the stream info is built (`infoRc`), and unless
     * streaming the pending requests are dropped and the HAL is CONFIGURED.
     */
    method ConfigureStreams(list: Option<StreamConfiguration>, constructRc: int, allocation: seq<bool>, infoRc: int)
      returns (rc: int)
      requires Valid() && PoolInv(PoolOf(), maxBuffers) && |allocation| == maxBuffers
      modifies this, busy, present
      ensures Valid() && PoolInv(PoolOf(), maxBuffers)
      ensures list.None? ==> rc == -1 && state == old(state)
      ensures list.Some? && CheckStreams(list, maxStreams) != NO_ERROR ==>
        rc == CheckStreams(list, maxStreams) && state == old(state)
      ensures CheckStreams(list, maxStreams) == NO_ERROR && old(state) == ERROR ==>
        rc == -ENODEV && state == DEINIT && pending == [] && pendingLiveRequest == 0 && firstConfiguration
      ensures CheckStreams(list, maxStreams) == NO_ERROR && old(state) !in {INITIALIZED, CONFIGURED, STARTED, ERROR} ==>
        rc == -ENODEV && state == old(state) && pending == old(pending)
      ensures rc == NO_ERROR ==>
        CheckStreams(list, maxStreams) == NO_ERROR && old(state) in {INITIALIZED, CONFIGURED, STARTED} &&
        constructRc == NO_ERROR && infoRc == NO_ERROR && hasMainStream
      ensures rc == NO_ERROR && old(state) != STARTED ==> state == CONFIGURED && pending == []
      ensures rc == NO_ERROR && old(state) == STARTED ==> state == STARTED && pending == old(pending)
      ensures CheckStreams(list, maxStreams) == NO_ERROR && old(state) in {INITIALIZED, CONFIGURED, STARTED} ==>
        rc == (if constructRc != NO_ERROR then constructRc else infoRc)
      ensures rc != NO_ERROR && !(CheckStreams(list, maxStreams) == NO_ERROR && old(state) == ERROR) ==>
        state == old(state) && pending == old(pending)
    {
      if list.None? {
        return -1;
      }
      rc := CheckStreams(list, maxStreams);
      if rc != NO_ERROR {
        return rc;
      }
      if state == ERROR {
        rc := HandleCameraDeviceError();
        return -ENODEV;
      }
      if state !in {INITIALIZED, CONFIGURED, STARTED} {
        return -ENODEV;
      }
      rc := constructRc;
      if rc != NO_ERROR {
        return rc;
      }
      if !hasMainStream {
        ConstructMainStream(allocation);
      }
      rc := infoRc;
      if rc != NO_ERROR {
        return rc;
      }
      if state != STARTED {
        pending := [];
        state := CONFIGURED;
      }
    }

    /** validateCaptureRequest: NO_ERROR exactly for an acceptable request, else BAD_VALUE. */
    method ValidateCaptureRequest(req: Option<CaptureRequest>) returns (rc: int)
      ensures rc == NO_ERROR <==> RequestAcceptable(req, state, maxStreams)
      ensures rc != NO_ERROR ==> rc == RC_BAD_VALUE
    {
      if req.None? {
        return RC_BAD_VALUE;
      }
      var r := req.value;
      if !r.hasSettings && state == CONFIGURED {
        return RC_BAD_VALUE;
      }
      if NumOutputBuffers(r) < 1 || r.outputBuffers.None? {
        return RC_BAD_VALUE;
      }
      if NumOutputBuffers(r) > maxStreams {
        return RC_BAD_VALUE;
      }
      if r.inputBuffer.Some? {
        var b := r.inputBuffer.value;
        if b.status != CAMERA3_BUFFER_STATUS_OK || b.releaseFence != -1 || !b.hasHandle {
          return RC_BAD_VALUE;
        }
      }
      var bufs := r.outputBuffers.value;
      var idx := 0;
      while idx < |bufs|
        invariant 0 <= idx <= |bufs|
        invariant forall j :: 0 <= j < idx ==> OutputBufferUsable(bufs[j])
      {
        var b := bufs[idx];
        if b.status != CAMERA3_BUFFER_STATUS_OK || b.releaseFence != -1 || !b.hasHandle || !b.hasPrivateHandle {
          return RC_BAD_VALUE;
        }
        idx := idx + 1;
      }
      rc := NO_ERROR;
    }

    /** getMainHalBuf (corrected, see PoolTakeAsWritten): takes a buffer from the pool as PoolTake does. */
    method GetMainHalBuf() returns (r: Option<nat>)
      requires Valid() && PoolInv(PoolOf(), maxBuffers)
      modifies this, busy
      ensures Valid() && PoolInv(PoolOf(), maxBuffers)
      ensures !hasMainStream ==> r.None? && PoolOf() == old(PoolOf())
      ensures hasMainStream ==> (r, PoolOf()) == PoolTake(old(PoolOf()), maxBuffers)
      ensures r.Some? ==> r.value < maxBuffers && present[r.value] && !old(busy[r.value]) && busy[r.value]
      ensures state == old(state) && hasMainStream == old(hasMainStream) && pending == old(pending)
      ensures firstConfiguration == old(firstConfiguration) && flushing == old(flushing)
      ensures currentRequestId == old(currentRequestId) && pendingLiveRequest == old(pendingLiveRequest)
    {
      PoolTakeReturnsFreeBuffer(PoolOf(), maxBuffers);
      if !hasMainStream {
        return None;
      }
      if bufNum > maxBuffers {
        return None;
      }
      var i := 0;
      while i < bufNum
        invariant 0 <= i <= bufNum
        invariant FirstFree(busy[..], present[..], 0, bufNum) == FirstFree(busy[..], present[..], i, bufNum)
      {
        if present[i] && !busy[i] {
          busy[i] := true;
          return Some(i);
        }
        i := i + 1;
      }
      if bufNum < maxBuffers {
        r := if present[bufNum] then Some(bufNum) else None;
        busy[bufNum] := true;
        bufNum := bufNum + 1;
      } else {
        r := None;
      }
    }

    /**
     * The buffer part of a capture result: an internal buffer found among
     * the first main_hal_bufnum slots is marked free again.  Buffers are
     * distinct, so the handle search finds the slot itself.
     */
    method ReleaseMainHalBuf(slot: nat, internal: bool)
      requires Valid() && PoolInv(PoolOf(), maxBuffers)
      modifies busy
      ensures Valid() && PoolInv(PoolOf(), maxBuffers)
      ensures hasMainStream && internal && slot < bufNum && slot < maxBuffers && present[slot] ==>
        busy[..] == old(busy[..])[slot := false]
      ensures !(hasMainStream && internal && slot < bufNum && slot < maxBuffers && present[slot]) ==>
        busy[..] == old(busy[..])
    {
      if hasMainStream && internal && slot < bufNum && slot < maxBuffers && present[slot] {
        busy[slot] := false;
      }
    }

    /**
     * processCaptureResult for the main buffer `handle`: nothing in ERROR or
     * DEINIT.  The request is the first pending one holding the handle;
     * with none the HAL is in ERROR.  Otherwise an internal buffer goes back
     * to the pool and one request fewer is in flight; a result whose
     * metadata cannot be built (`metadataOk` false) puts the HAL in ERROR
     * and keeps the request pending, else the request is erased.
     */
    method ProcessCaptureResult(handle: nat, internal: bool, metadataOk: bool)
      requires Valid() && PoolInv(PoolOf(), maxBuffers)
      modifies this, busy
      ensures Valid() && PoolInv(PoolOf(), maxBuffers)
      ensures old(state) in {ERROR, DEINIT} ==>
        state == old(state) && busy[..] == old(busy[..]) && pending == old(pending) &&
        pendingLiveRequest == old(pendingLiveRequest)
      ensures old(state) !in {ERROR, DEINIT} && FindByHandle(old(pending), handle) == |old(pending)| ==>
        state == ERROR && busy[..] == old(busy[..]) && pending == old(pending) &&
        pendingLiveRequest == old(pendingLiveRequest)
      ensures old(state) !in {ERROR, DEINIT} && FindByHandle(old(pending), handle) < |old(pending)| ==>
        (pendingLiveRequest == old(pendingLiveRequest) - 1 &&
         (hasMainStream && internal && handle < bufNum && handle < maxBuffers && present[handle] ==>
            busy[..] == old(busy[..])[handle := false]) &&
         (!(hasMainStream && internal && handle < bufNum && handle < maxBuffers && present[handle]) ==>
            busy[..] == old(busy[..])) &&
         (!metadataOk ==> state == ERROR && pending == old(pending)) &&
         (metadataOk ==> state == old(state) && pending == EraseAt(old(pending), FindByHandle(old(pending), handle))))
      ensures bufNum == old(bufNum) && hasMainStream == old(hasMainStream)
    {
      if state == ERROR || state == DEINIT {
        return;
      }
      var k := FindByHandle(pending, handle);
      if k == |pending| {
        state := ERROR;
        return;
      }
      ReleaseMainHalBuf(handle, internal);
      pendingLiveRequest := pendingLiveRequest - 1;
      if !metadataOk {
        state := ERROR;
        return;
      }
      pending := EraseAt(pending, k);
    }

    /**
     * processCaptureRequest, up to the wait for in-flight requests.  Only in
     * CONFIGURED or STARTED (ERROR is handled first); the request must validate, carry a request id
     * (or reuse the previous one once streaming) and have no input buffer.
     * It takes a main buffer, becomes pending with that buffer's handle, starts the device and the
     * channel (`channelStartRc`) on the first request, and leaves the HAL
     * STARTED unless a flush is in progress.
     */
    method ProcessCaptureRequest(req: Option<CaptureRequest>, channelStartRc: int) returns (rc: int)
      requires Valid() && PoolInv(PoolOf(), maxBuffers)
      modifies this, busy
      ensures Valid() && PoolInv(PoolOf(), maxBuffers)
      ensures old(state) == ERROR ==>
        rc == -ENODEV && state == DEINIT && pending == [] && pendingLiveRequest == 0 && firstConfiguration
      ensures old(state) !in {CONFIGURED, STARTED, ERROR} ==> rc == -ENODEV && state == old(state) && pending == old(pending)
      ensures old(state) in {CONFIGURED, STARTED} && !RequestAcceptable(req, old(state), maxStreams) ==>
        rc == RC_BAD_VALUE && state == old(state) && pending == old(pending)
      ensures RequestAcceptable(req, old(state), maxStreams) && old(state) in {CONFIGURED, STARTED} ==>
        var r := req.value;
        var idMissing := r.requestId.None? && (old(state) == CONFIGURED || old(currentRequestId) == -1);
        var starts := hasMainStream && (old(firstConfiguration) || old(state) == CONFIGURED);
        var taken := if hasMainStream then PoolTake(old(PoolOf()), maxBuffers).0 else None;
        (idMissing ==> rc == RC_NAME_NOT_FOUND && state == old(state) && pending == old(pending)) &&
        (r.requestId.Some? ==> currentRequestId == r.requestId.value) &&
        (!idMissing && r.inputBuffer.Some? ==>
           rc == RC_INVALID_OPERATION && state == old(state) && pending == old(pending)) &&
        (!idMissing && r.inputBuffer.None? ==>
           pending == old(pending) + [PendingRequest(r.frameNumber, taken)] &&
           (flushing ==> rc == NO_ERROR && state == old(state)) &&
           (!flushing && starts && channelStartRc < 0 ==> rc == channelStartRc && state == old(state)) &&
           (!flushing && !(starts && channelStartRc < 0) ==>
              state == STARTED && !firstConfiguration &&
              rc == (if starts then channelStartRc else NO_ERROR) &&
              pendingLiveRequest == (if old(state) == CONFIGURED then 1 else old(pendingLiveRequest) + 1)))
      ensures old(state) != ERROR ==> flushing == old(flushing)
      ensures hasMainStream == old(hasMainStream)
    {
      if state == ERROR {
        rc := HandleCameraDeviceError();
        return -ENODEV;
      }
      if state != CONFIGURED && state != STARTED {
        return -ENODEV;
      }
      rc := ValidateCaptureRequest(req);
      if rc != NO_ERROR {
        return rc;
      }
      rc := SubmitRequest(req.value, channelStartRc);
    }

    /**
     * processCaptureRequest once the request has validated in CONFIGURED or
     * STARTED: the request id, the input-buffer check, the main buffer, the
     * pending entry and the start on the first request.
     */
    method SubmitRequest(r: CaptureRequest, channelStartRc: int) returns (rc: int)
      requires Valid() && PoolInv(PoolOf(), maxBuffers) && state in {CONFIGURED, STARTED}
      modifies this, busy
      ensures Valid() && PoolInv(PoolOf(), maxBuffers)
      ensures var idMissing := r.requestId.None? && (old(state) == CONFIGURED || old(currentRequestId) == -1);
        var starts := hasMainStream && (old(firstConfiguration) || old(state) == CONFIGURED);
        var taken := if hasMainStream then PoolTake(old(PoolOf()), maxBuffers).0 else None;
        (idMissing ==> rc == RC_NAME_NOT_FOUND && state == old(state) && pending == old(pending)) &&
        (r.requestId.Some? ==> currentRequestId == r.requestId.value) &&
        (!idMissing && r.inputBuffer.Some? ==>
           rc == RC_INVALID_OPERATION && state == old(state) && pending == old(pending)) &&
        (!idMissing && r.inputBuffer.None? ==>
           pending == old(pending) + [PendingRequest(r.frameNumber, taken)] &&
           (flushing ==> rc == NO_ERROR && state == old(state)) &&
           (!flushing && starts && channelStartRc < 0 ==> rc == channelStartRc && state == old(state)) &&
           (!flushing && !(starts && channelStartRc < 0) ==>
              state == STARTED && !firstConfiguration &&
              rc == (if starts then channelStartRc else NO_ERROR) &&
              pendingLiveRequest == (if old(state) == CONFIGURED then 1 else old(pendingLiveRequest) + 1)))
      ensures flushing == old(flushing) && hasMainStream == old(hasMainStream)
    {
      rc := NO_ERROR;
      if state == CONFIGURED {
        pendingLiveRequest := 0;
        firstConfiguration := true;
      }
      if r.requestId.Some? {
        currentRequestId := r.requestId.value;
      } else if state == CONFIGURED || currentRequestId == -1 {
        return RC_NAME_NOT_FOUND;
      }
      if r.inputBuffer.Some? {
        return RC_INVALID_OPERATION;
      }
      rc := EnqueueRequest(r.frameNumber, channelStartRc);
    }

    /**
     * The accepted request takes a main buffer and becomes pending; unless
     * a flush is in progress, the first request starts the channel
     * (`channelStartRc`), and the HAL counts it live and is STARTED.
     */
    method EnqueueRequest(frameNumber: int, channelStartRc: int) returns (rc: int)
      requires Valid() && PoolInv(PoolOf(), maxBuffers) && state in {CONFIGURED, STARTED}
      modifies this, busy
      ensures Valid() && PoolInv(PoolOf(), maxBuffers)
      ensures var starts := hasMainStream && old(firstConfiguration);
        var taken := if hasMainStream then PoolTake(old(PoolOf()), maxBuffers).0 else None;
        && pending == old(pending) + [PendingRequest(frameNumber, taken)]
        && (flushing ==> rc == NO_ERROR && state == old(state))
        && (!flushing && starts && channelStartRc < 0 ==> rc == channelStartRc && state == old(state))
        && (!flushing && !(starts && channelStartRc < 0) ==>
              state == STARTED && !firstConfiguration &&
              rc == (if starts then channelStartRc else NO_ERROR) && pendingLiveRequest == old(pendingLiveRequest) + 1)
      ensures flushing == old(flushing) && hasMainStream == old(hasMainStream) && currentRequestId == old(currentRequestId)
    {
      rc := NO_ERROR;
      var taken := GetMainHalBuf();
      pending := pending + [PendingRequest(frameNumber, taken)];
      if flushing {
        return NO_ERROR;
      }
      if firstConfiguration {
        firstConfiguration := false;
        if hasMainStream {
          rc := channelStartRc;
          if rc < 0 {
            return rc;
          }
        }
      }
      pendingLiveRequest := pendingLiveRequest + 1;
      state := STARTED;
    }
  }
}
