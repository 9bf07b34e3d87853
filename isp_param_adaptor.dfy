/**
 * The ISP parameter adaptor of core/IspParamAdaptor.cpp: its life-cycle
 * state, the ring of ISP parameter slots indexed by frame sequence, the
 * history of setting sequences, the page-aligned terminal payload layout of
 * the ISYS process group, the selection of terminals encoded into an ISA
 * buffer and the choice of the LTM result sequence.  The imaging libraries
 * (ia_isp_bxt, the P2P wrapper, the LTM result storage) are not part of this
 * model: what they report or return is a parameter.  ISP_PARAM_QUEUE_SIZE
 * and MAX_BUFFER_COUNT come from headers that are not part of this model;
 * they are the constructor's queueSize and maxBufferCount.
 */
module IspParamAdaptor {
  import opened Common

  datatype AdaptorState = ISP_ADAPTOR_NOT_INIT | ISP_ADAPTOR_INIT | ISP_ADAPTOR_CONFIGURED

  datatype PgParamType = PG_PARAM_PSYS_ISA | PG_PARAM_ISYS

  datatype EncodeBufferType = ENCODE_ISA_CONFIG | ENCODE_STATS

  /** A terminal of the process group as the P2P wrapper reports it. */
  datatype TerminalInfo = TerminalInfo(size: nat, isInput: bool)

  /** TerminalPayloadDescriptor: the payload size, its page-aligned size and its offset. */
  datatype TerminalPayload = TerminalPayload(size: nat, paddedSize: nat, offset: nat)

  /** One IspParameter slot: its frame sequence and the streams it holds parameters for. */
  datatype Slot = Slot(sequence: int, streams: set<int>)

  /** What getIpuParameter hands back: the current parameters or one slot's stream entry. */
  datatype IpuParamRef = CurrentParam | SlotParam(slot: nat, streamId: int)

  // -------------------------------------------------------------------
  // Terminal payload layout (queryMemoryReqs)
  // -------------------------------------------------------------------

  /** The padded payload bytes of the terminals of one direction in ts. */
  function PaddedSum(ts: seq<TerminalInfo>, input: bool): (r: nat)
    ensures r % PAGE_SIZE == 0
  {
    if |ts| == 0 then 0
    else
      var last := ts[|ts| - 1];
      var before := PaddedSum(ts[..|ts| - 1], input);
      var add := if last.isInput == input then PageAlign(last.size) else 0;
      AddAligned(before, add);
      before + add
  }

  lemma AddAligned(a: nat, b: nat)
    requires a % PAGE_SIZE == 0 && b % PAGE_SIZE == 0
    ensures (a + b) % PAGE_SIZE == 0
  {
  }

  /** The descriptor of terminal k: its offset is the padded size of the earlier terminals of its direction. */
  function PayloadOf(ts: seq<TerminalInfo>, k: nat): (p: TerminalPayload)
    requires k < |ts|
    ensures p.size == ts[k].size && p.size <= p.paddedSize < p.size + PAGE_SIZE
    ensures p.paddedSize % PAGE_SIZE == 0 && p.offset % PAGE_SIZE == 0
  {
    TerminalPayload(ts[k].size, PageAlign(ts[k].size), PaddedSum(ts[..k], ts[k].isInput))
  }

  /** A prefix never holds more padded bytes than a longer prefix. */
  lemma {:induction false} PaddedSumGrows(ts: seq<TerminalInfo>, i: nat, j: nat, input: bool)
    requires i <= j <= |ts|
    ensures PaddedSum(ts[..i], input) <= PaddedSum(ts[..j], input)
    decreases j - i
  {
    if i < j {
      PaddedSumGrows(ts, i, j - 1, input);
      assert ts[..j][..j - 1] == ts[..j - 1];
    }
  }

  /** The padded bytes up to and including terminal k are its offset plus its padded size. */
  lemma PaddedSumStep(ts: seq<TerminalInfo>, k: nat)
    requires k < |ts|
    ensures PaddedSum(ts[..k + 1], ts[k].isInput) == PayloadOf(ts, k).offset + PayloadOf(ts, k).paddedSize
    ensures PaddedSum(ts[..k + 1], !ts[k].isInput) == PaddedSum(ts[..k], !ts[k].isInput)
  {
    assert ts[..k + 1][..k] == ts[..k];
  }

  /**
   * The payloads of the terminals of one direction never overlap: each one
   * ends at or before the start of every later one of the same direction,
   * and every payload lies within the total of its direction.
   */
  lemma PayloadsDisjoint(ts: seq<TerminalInfo>, i: nat, j: nat)
    requires i < j < |ts| && ts[i].isInput == ts[j].isInput
    ensures PayloadOf(ts, i).offset + PayloadOf(ts, i).paddedSize <= PayloadOf(ts, j).offset
    ensures PayloadOf(ts, j).offset + PayloadOf(ts, j).paddedSize <= PaddedSum(ts, ts[j].isInput)
  {
    var d := ts[i].isInput;
    PaddedSumStep(ts, i);
    PaddedSumGrows(ts, i + 1, j, d);
    assert PayloadOf(ts, j).offset == PaddedSum(ts[..j], d);
    EndWithinTotal(ts, j);
  }

  /** Every payload ends within the total of its direction. */
  lemma EndWithinTotal(ts: seq<TerminalInfo>, j: nat)
    requires j < |ts|
    ensures PayloadOf(ts, j).offset + PayloadOf(ts, j).paddedSize <= PaddedSum(ts, ts[j].isInput)
  {
    PaddedSumStep(ts, j);
    PaddedSumGrows(ts, j + 1, |ts|, ts[j].isInput);
    assert ts[..|ts|] == ts;
  }

  // -------------------------------------------------------------------
  // Sequence history and LTM lag
  // -------------------------------------------------------------------

  /** The history after a new sequence: the oldest entry goes first once the history is full. */
  function PushHistory(h: seq<int>, s: int, maxCount: nat): (r: seq<int>)
    requires maxCount > 0
    ensures |h| <= maxCount ==> |r| <= maxCount
    ensures |r| > 0 && r[|r| - 1] == s && r[..|r| - 1] == (if |h| >= maxCount then h[1..] else h)
  {
    if |h| >= maxCount then h[1..] + [s] else h + [s]
  }

  /** ltmSequence of runIspAdaptL: the entry lag places before the first occurrence of s at index lag or later. */
  function LtmSequenceOf(h: seq<int>, s: int, lag: nat): int
  {
    if |h| > lag then
      match FirstFrom(h, (x: int) => x == s, lag)
      case Some(idx) => h[idx - lag]
      case None => s
    else s
  }

  /**
   * The LTM sequence is the setting sequence itself or a history entry that
   * precedes an occurrence of it by exactly lag places, never an entry
   * outside the history; with lag 0 it is always the setting sequence.
   */
  lemma LtmSequenceFromHistory(h: seq<int>, s: int, lag: nat)
    ensures var r := LtmSequenceOf(h, s, lag);
      r == s || exists idx :: lag <= idx < |h| && h[idx] == s && r == h[idx - lag]
    ensures lag == 0 ==> LtmSequenceOf(h, s, lag) == s
    ensures s !in h ==> LtmSequenceOf(h, s, lag) == s
  {
    if |h| > lag {
      var f := FirstFrom(h, (x: int) => x == s, lag);
      if f.Some? {
        assert h[f.value] == s;
      }
    }
  }

  /** The LTM-sequence search of runIspAdaptL. */
  method LtmSequence(h: seq<int>, s: int, lag: nat) returns (ltmSequence: int)
    ensures ltmSequence == LtmSequenceOf(h, s, lag)
  {
    ltmSequence := s;
    if |h| > lag {
      var index := 0;
      while index < |h|
        invariant 0 <= index <= |h|
        invariant forall j :: lag <= j < index ==> h[j] != s
        invariant ltmSequence == s
      {
        if h[index] == s && index >= lag {
          FirstFromIs(h, (x: int) => x == s, lag, index);
          ltmSequence := h[index - lag];
          return;
        }
        index := index + 1;
      }
    }
  }

  // -------------------------------------------------------------------
  // Slot lookups
  // -------------------------------------------------------------------

  /** The first slot holding sequence s. */
  function SlotOf(slots: seq<Slot>, s: int): Option<nat>
  {
    FirstFrom(slots, (x: Slot) => x.sequence == s, 0)
  }

  /** The first slot holding sequence s with an entry for the stream. */
  function SlotOfStream(slots: seq<Slot>, s: int, streamId: int): Option<nat>
  {
    FirstFrom(slots, (x: Slot) => x.sequence == s && streamId in x.streams, 0)
  }

  /** getIpuParameter: the current parameters for (-1, -1) or when no slot matches both keys. */
  function IpuParameterOf(slots: seq<Slot>, s: int, streamId: int): (r: IpuParamRef)
    ensures r.SlotParam? ==> (r.slot < |slots| && slots[r.slot].sequence == s
      && streamId in slots[r.slot].streams && r.streamId == streamId)
    ensures r.CurrentParam? <==>
      (s == -1 && streamId == -1) || forall i :: 0 <= i < |slots| ==> !(slots[i].sequence == s && streamId in slots[i].streams)
  {
    if s == -1 && streamId == -1 then CurrentParam
    else
      match SlotOfStream(slots, s, streamId)
      case Some(i) => SlotParam(i, streamId)
      case None => CurrentParam
  }

  /** The terminals encodeIsaParams passes to the encoder: non-empty, inputs for ISA config, outputs for stats. */
  predicate Encoded(t: TerminalInfo, typ: EncodeBufferType)
  {
    t.size != 0 && (t.isInput <==> typ == ENCODE_ISA_CONFIG)
  }

  class Adaptor {
    var state: AdaptorState
    /** mCurIspParamIndex: the last slot stamped with a new sequence, -1 before the first. */
    var curIndex: int
    /** mIspParameters: the fixed ring of parameter slots. */
    const slots: array<Slot>
    /** mSequenceList: the setting sequences, oldest first. */
    var sequenceList: seq<int>
    /** The terminals the P2P wrapper reported, and the descriptors built from them. */
    var terminals: seq<TerminalInfo>
    var terminalBuffers: seq<TerminalPayload>
    var inputTerminalsSize: nat
    var outputTerminalsSize: nat
    const pgParamType: PgParamType
    const maxBufferCount: nat

    predicate Valid()
      reads this
    {
      slots.Length > 0 && -1 <= curIndex < slots.Length && maxBufferCount > 0
      && |sequenceList| <= maxBufferCount
    }

    constructor (typ: PgParamType, queueSize: nat, maxCount: nat)
      requires queueSize > 0 && maxCount > 0
      ensures Valid() && fresh(slots)
      ensures state == ISP_ADAPTOR_NOT_INIT && curIndex == -1 && sequenceList == []
      ensures pgParamType == typ && maxBufferCount == maxCount && slots.Length == queueSize
      ensures terminals == [] && terminalBuffers == [] && inputTerminalsSize == 0 && outputTerminalsSize == 0
    {
      state := ISP_ADAPTOR_NOT_INIT;
      curIndex := -1;
      slots := new Slot[queueSize](_ => Slot(-1, {}));
      sequenceList := [];
      terminals := [];
      terminalBuffers := [];
      inputTerminalsSize := 0;
      outputTerminalsSize := 0;
      pgParamType := typ;
      maxBufferCount := maxCount;
    }

    method Init()
      requires Valid()
      modifies this
      ensures Valid() && state == ISP_ADAPTOR_INIT
      ensures curIndex == old(curIndex) && sequenceList == old(sequenceList)
      ensures terminals == old(terminals) && terminalBuffers == old(terminalBuffers)
      ensures inputTerminalsSize == old(inputTerminalsSize) && outputTerminalsSize == old(outputTerminalsSize)
    {
      state := ISP_ADAPTOR_INIT;
    }

    /** releaseIspParamBuffers: every slot forgets its sequence and its streams. */
    method ReleaseParamBuffers()
      requires Valid()
      modifies slots
      ensures forall i :: 0 <= i < slots.Length ==> slots[i] == Slot(-1, {})
    {
      var i := 0;
      while i < slots.Length
        invariant 0 <= i <= slots.Length
        invariant forall j :: 0 <= j < i ==> slots[j] == Slot(-1, {})
      {
        slots[i] := Slot(-1, {});
        i := i + 1;
      }
    }

    /** allocateIspParamBuffers: every slot holds an entry per configured stream and no sequence. */
    method AllocateParamBuffers(streamIds: set<int>)
      requires Valid()
      modifies slots
      ensures forall i :: 0 <= i < slots.Length ==> slots[i] == Slot(-1, streamIds)
    {
      ReleaseParamBuffers();
      var i := 0;
      while i < slots.Length
        invariant 0 <= i <= slots.Length
        invariant forall j :: 0 <= j < i ==> slots[j] == Slot(-1, streamIds)
      {
        slots[i] := Slot(-1, streamIds);
        i := i + 1;
      }
    }

    /** deinit: buffers released and the state back to NOT_INIT. */
    method Deinit()
      requires Valid()
      modifies this, slots
      ensures Valid() && state == ISP_ADAPTOR_NOT_INIT
      ensures forall i :: 0 <= i < slots.Length ==> slots[i] == Slot(-1, {})
      ensures curIndex == old(curIndex) && sequenceList == old(sequenceList)
      ensures terminals == old(terminals) && terminalBuffers == old(terminalBuffers)
      ensures inputTerminalsSize == old(inputTerminalsSize) && outputTerminalsSize == old(outputTerminalsSize)
    {
      ReleaseParamBuffers();
      state := ISP_ADAPTOR_NOT_INIT;
    }

    /**
     * queryMemoryReqs: NO_INIT for a process group without terminals;
     * otherwise one descriptor per terminal, each offset the padded size of
     * the earlier terminals of its direction, and the two totals.
     */
    method QueryMemoryReqs(ts: seq<TerminalInfo>) returns (status: Status)
      requires Valid()
      modifies this
      ensures Valid() && state == old(state) && curIndex == old(curIndex) && sequenceList == old(sequenceList)
      ensures |ts| == 0 <==> status == NO_INIT
      ensures status != NO_INIT ==> status == OK
      ensures status == NO_INIT ==> (terminals == old(terminals) && terminalBuffers == old(terminalBuffers)
        && inputTerminalsSize == old(inputTerminalsSize) && outputTerminalsSize == old(outputTerminalsSize))
      ensures status == OK ==> (terminals == ts && |terminalBuffers| == |ts|
        && (forall k :: 0 <= k < |ts| ==> terminalBuffers[k] == PayloadOf(ts, k))
        && inputTerminalsSize == PaddedSum(ts, true) && outputTerminalsSize == PaddedSum(ts, false))
    {
      if |ts| == 0 {
        return NO_INIT;
      }
      terminalBuffers := [];
      inputTerminalsSize := 0;
      outputTerminalsSize := 0;
      var termIdx := 0;
      while termIdx < |ts|
        invariant 0 <= termIdx <= |ts| && |terminalBuffers| == termIdx
        invariant forall k :: 0 <= k < termIdx ==> terminalBuffers[k] == PayloadOf(ts, k)
        invariant inputTerminalsSize == PaddedSum(ts[..termIdx], true)
        invariant outputTerminalsSize == PaddedSum(ts[..termIdx], false)
        invariant Valid() && state == old(state) && curIndex == old(curIndex) && sequenceList == old(sequenceList)
      {
        var padded := PageAlign(ts[termIdx].size);
        PaddedSumStep(ts, termIdx);
        var desc: TerminalPayload;
        if ts[termIdx].isInput {
          desc := TerminalPayload(ts[termIdx].size, padded, inputTerminalsSize);
          inputTerminalsSize := inputTerminalsSize + padded;
        } else {
          desc := TerminalPayload(ts[termIdx].size, padded, outputTerminalsSize);
          outputTerminalsSize := outputTerminalsSize + padded;
        }
        terminalBuffers := terminalBuffers + [desc];
        termIdx := termIdx + 1;
      }
      assert ts[..|ts|] == ts;
      terminals := ts;
      status := OK;
    }

    /**
     * postConfigure: a PSYS adaptor is configured at once; an ISYS one needs
     * the P2P wrapper (wrapperOk) and a terminal layout, else NO_INIT.
     */
    method PostConfigure(wrapperOk: bool, ts: seq<TerminalInfo>) returns (status: Status)
      requires Valid()
      modifies this
      ensures Valid() && curIndex == old(curIndex) && sequenceList == old(sequenceList)
      ensures status == OK <==> pgParamType == PG_PARAM_PSYS_ISA || (wrapperOk && |ts| > 0)
      ensures status != OK ==> status == NO_INIT && state == old(state)
      ensures status == OK ==> state == ISP_ADAPTOR_CONFIGURED
      ensures status == OK && pgParamType == PG_PARAM_ISYS ==> (terminals == ts
        && inputTerminalsSize == PaddedSum(ts, true) && outputTerminalsSize == PaddedSum(ts, false))
    {
      if pgParamType == PG_PARAM_PSYS_ISA {
        state := ISP_ADAPTOR_CONFIGURED;
        return OK;
      }
      if !wrapperOk {
        return NO_INIT;
      }
      status := QueryMemoryReqs(ts);
      if status != OK {
        return NO_INIT;
      }
      state := ISP_ADAPTOR_CONFIGURED;
    }

    /** The slot search of runIspAdapt. */
    method FindSlot(s: int) returns (r: Option<nat>)
      requires Valid()
      ensures r == SlotOf(slots[..], s)
    {
      var i := 0;
      while i < slots.Length
        invariant 0 <= i <= slots.Length
        invariant forall j :: 0 <= j < i ==> slots[..][j].sequence != s
      {
        if slots[i].sequence == s {
          FirstFromIs(slots[..], (x: Slot) => x.sequence == s, 0, i);
          return Some(i);
        }
        i := i + 1;
      }
      return None;
    }

    /**
     * runIspAdapt: INVALID_OPERATION unless configured.  A slot already
     * holding the sequence is reused; otherwise the ring index advances
     * modulo the queue size, that slot is stamped with the sequence and the
     * sequence joins the history.  Either way the sequence then finds that
     * slot first.  The status is the adaptation's (OK with no streams).
     */
    method RunIspAdapt(s: int, adaptStatus: Status) returns (status: Status, updateIndex: int)
      requires Valid()
      modifies this, slots
      ensures Valid() && state == old(state) && terminals == old(terminals)
      ensures old(state) != ISP_ADAPTOR_CONFIGURED ==>
        status == INVALID_OPERATION && curIndex == old(curIndex) && sequenceList == old(sequenceList)
        && slots[..] == old(slots[..])
      ensures old(state) == ISP_ADAPTOR_CONFIGURED ==>
        && 0 <= updateIndex < slots.Length
        && slots[..] == old(slots[..])[updateIndex := old(slots[updateIndex]).(sequence := s)]
        && SlotOf(slots[..], s) == Some(updateIndex)
        && status == (if slots[updateIndex].streams == {} then OK else adaptStatus)
      ensures old(state) == ISP_ADAPTOR_CONFIGURED && SlotOf(old(slots[..]), s).Some? ==>
        updateIndex == SlotOf(old(slots[..]), s).value && curIndex == old(curIndex) && sequenceList == old(sequenceList)
      ensures old(state) == ISP_ADAPTOR_CONFIGURED && SlotOf(old(slots[..]), s).None? ==>
        updateIndex == (old(curIndex) + 1) % slots.Length && curIndex == updateIndex
        && sequenceList == PushHistory(old(sequenceList), s, maxBufferCount)
    {
      updateIndex := -1;
      if state != ISP_ADAPTOR_CONFIGURED {
        return INVALID_OPERATION, updateIndex;
      }
      var found := FindSlot(s);
      if found.Some? {
        updateIndex := found.value;
      } else {
        curIndex := (curIndex + 1) % slots.Length;
        updateIndex := curIndex;
        sequenceList := PushHistory(sequenceList, s, maxBufferCount);
      }
      ghost var before := slots[..];
      slots[updateIndex] := slots[updateIndex].(sequence := s);
      StampedSlotFirst(before, slots[..], s, updateIndex, found);
      status := if slots[updateIndex].streams == {} then OK else adaptStatus;
    }

    /** getIpuParameter: the first slot matching both keys, else the current parameters. */
    method GetIpuParameter(s: int, streamId: int) returns (r: IpuParamRef)
      requires Valid()
      ensures r == IpuParameterOf(slots[..], s, streamId)
    {
      if s == -1 && streamId == -1 {
        return CurrentParam;
      }
      var i := 0;
      while i < slots.Length
        invariant 0 <= i <= slots.Length
        invariant forall j :: 0 <= j < i ==> !(slots[..][j].sequence == s && streamId in slots[..][j].streams)
      {
        if slots[i].sequence == s && streamId in slots[i].streams {
          FirstFromIs(slots[..], (x: Slot) => x.sequence == s && streamId in x.streams, 0, i);
          return SlotParam(i, streamId);
        }
        i := i + 1;
      }
      return CurrentParam;
    }

    /**
     * encodeIsaParams: INVALID_OPERATION unless a configured ISYS adaptor;
     * UNKNOWN_ERROR when the adaptation, the parameter setting or the
     * process-group creation fails.  Then the non-empty input terminals (ISA
     * config) or output terminals (stats) are encoded in order, stopping
     * with UNKNOWN_ERROR at the first one the encoder rejects (failing).
     */
    method EncodeIsaParams(typ: EncodeBufferType, adaptOk: bool, setOk: bool, createOk: bool, failing: set<nat>)
      returns (status: Status, encoded: seq<nat>)
      requires Valid()
      ensures state != ISP_ADAPTOR_CONFIGURED || pgParamType != PG_PARAM_ISYS ==> status == INVALID_OPERATION
      ensures state == ISP_ADAPTOR_CONFIGURED && pgParamType == PG_PARAM_ISYS && !(adaptOk && setOk && createOk) ==>
        status == UNKNOWN_ERROR
      ensures status == OK <==>
        state == ISP_ADAPTOR_CONFIGURED && pgParamType == PG_PARAM_ISYS && adaptOk && setOk && createOk
        && forall k :: 0 <= k < |terminals| && Encoded(terminals[k], typ) ==> k !in failing
      ensures status == OK ==> forall k :: k in encoded <==> 0 <= k < |terminals| && Encoded(terminals[k], typ)
      ensures forall a, b :: 0 <= a < b < |encoded| ==> encoded[a] < encoded[b]
    {
      encoded := [];
      if state != ISP_ADAPTOR_CONFIGURED || pgParamType != PG_PARAM_ISYS {
        return INVALID_OPERATION, encoded;
      }
      if !(adaptOk && setOk && createOk) {
        return UNKNOWN_ERROR, encoded;
      }
      var termIdx := 0;
      while termIdx < |terminals|
        invariant 0 <= termIdx <= |terminals|
        invariant forall k :: k in encoded <==> 0 <= k < termIdx && Encoded(terminals[k], typ)
        invariant forall k :: 0 <= k < termIdx && Encoded(terminals[k], typ) ==> k !in failing
        invariant forall a, b :: 0 <= a < b < |encoded| ==> encoded[a] < encoded[b]
        invariant forall a :: 0 <= a < |encoded| ==> encoded[a] < termIdx
      {
        var t := terminals[termIdx];
        if t.size != 0 && (t.isInput <==> typ == ENCODE_ISA_CONFIG) {
          if termIdx in failing {
            return UNKNOWN_ERROR, encoded;
          }
          encoded := encoded + [termIdx];
        }
        termIdx := termIdx + 1;
      }
      status := OK;
    }
  }

  /** Stamping the slot that runIspAdapt picked makes it the first holder of the sequence. */
  lemma StampedSlotFirst(before: seq<Slot>, after: seq<Slot>, s: int, u: nat, found: Option<nat>)
    requires u < |before| && after == before[u := before[u].(sequence := s)]
    requires found == SlotOf(before, s)
    requires found.Some? ==> u == found.value
    ensures SlotOf(after, s) == Some(u)
  {
    forall j | 0 <= j < u
      ensures after[j].sequence != s
    {
      assert after[j] == before[j];
    }
    FirstFromIs(after, (x: Slot) => x.sequence == s, 0, u);
  }

  /**
   * A sequence stamped by runIspAdapt is found again by getIpuParameter for
   * every stream its slot holds, until another call overwrites the slot.
   */
  lemma StampedSequenceFound(slots: seq<Slot>, s: int, u: nat, streamId: int)
    requires u < |slots| && SlotOf(slots, s) == Some(u) && streamId in slots[u].streams && s != -1
    ensures IpuParameterOf(slots, s, streamId) == SlotParam(u, streamId)
  {
    forall j | 0 <= j < u
      ensures !(slots[j].sequence == s && streamId in slots[j].streams)
    {
      assert slots[j].sequence != s;
    }
    FirstFromIs(slots, (x: Slot) => x.sequence == s && streamId in x.streams, 0, u);
  }
}
