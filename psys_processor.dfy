/**
 * The frame-level decisions of the processing-system processor
 * (core/PSysProcessor.cpp): whether an input frame runs the pipe, is held
 * for a later output or goes back to its producer; the PAL override
 * buffers the ISP control records are written into, with their rotating
 * update index; the tuning-mode driven pipe switch; and the FIFO of
 * sequences in flight.  The process thread, the DAG tasks, the sensor OB
 * and the AIQ result storage are not part of this model: what they answer
 * is a parameter.
 */
module PSysProcessor {
  import opened Common
  import opened HalTypes

  // ---------------------------------------------------------------------
  // needExecutePipe, needHoldOnInputFrame and their use (467-491, 660-691).
  // ---------------------------------------------------------------------

  /** needExecutePipe: no particular input is asked for, or this input is not older than the one asked for. */
  predicate NeedExecutePipe(settingSequence: int, inputSequence: int)
  {
    if settingSequence == -1 || inputSequence >= settingSequence then true else false
  }

  /** needHoldOnInputFrame: the input is newer than the one asked for, so a later output may need it. */
  predicate NeedHoldOnInputFrame(settingSequence: int, inputSequence: int)
  {
    if settingSequence == -1 || inputSequence <= settingSequence then false else true
  }

  /** What processNewFrame does with one input frame and the output buffers waiting for it. */
  datatype FrameDecision = FrameDecision(runPipe: bool, popOutputs: bool, popInputs: bool, returnInputs: bool)

  /**
   * The decision of processNewFrame: run the pipe (and consume the
   * outputs unless the frame is to be skipped), keep the input queued
   * when it is held, and give the input back to its producer when the pipe
   * does not run and it is not held.
   */
  function DecideFrame(settingSequence: int, inputSequence: int, skipOutput: bool): (d: FrameDecision)
    ensures d.runPipe <==> settingSequence == -1 || inputSequence >= settingSequence
    ensures !d.popInputs <==> settingSequence != -1 && inputSequence > settingSequence
    ensures !d.popInputs ==> d.runPipe
    ensures d.returnInputs <==> !d.runPipe && d.popInputs
    ensures d.returnInputs ==> settingSequence != -1 && inputSequence < settingSequence
    ensures d.popOutputs <==> d.runPipe && !skipOutput
  {
    var run := NeedExecutePipe(settingSequence, inputSequence);
    var hold := NeedHoldOnInputFrame(settingSequence, inputSequence);
    FrameDecision(run, run && !skipOutput, !hold, !run && !hold)
  }

  /** An input exactly as old as the one asked for runs the pipe and is consumed. */
  lemma MatchingInputIsConsumed(s: int, skipOutput: bool)
    ensures var d := DecideFrame(s, s, skipOutput);
      d.runPipe && d.popInputs && !d.returnInputs
  {
  }

  // ---------------------------------------------------------------------
  // getSettingSequence (429-439).
  // ---------------------------------------------------------------------

  function IsSet(b: Option<int>): bool
  {
    b.Some?
  }

  /**
   * The setting sequence the outputs ask for: that of the first non-null
   * output buffer in port order, or -1 when every output is null.
   */
  function SettingSequenceOf(outputs: seq<Option<int>>): (r: int)
    ensures (forall i :: 0 <= i < |outputs| ==> outputs[i].None?) ==> r == -1
    ensures forall i :: (0 <= i < |outputs| && outputs[i].Some? && (forall j :: 0 <= j < i ==> outputs[j].None?)
      ==> r == outputs[i].value)
  {
    match FirstFrom(outputs, IsSet, 0)
    case None => -1
    case Some(i) => outputs[i].value
  }

  /** getSettingSequence: outputs lists, in port order, each output's setting sequence, None for a null buffer. */
  method GetSettingSequence(outputs: seq<Option<int>>) returns (settingSequence: int)
    ensures settingSequence == SettingSequenceOf(outputs)
  {
    settingSequence := -1;
    var i := 0;
    while i < |outputs|
      invariant i <= |outputs|
      invariant forall j :: 0 <= j < i ==> outputs[j].None?
      invariant FirstFrom(outputs, IsSet, 0) == FirstFrom(outputs, IsSet, i)
    {
      if outputs[i].Some? {
        settingSequence := outputs[i].value;
        return;
      }
      i := i + 1;
    }
  }

  // ---------------------------------------------------------------------
  // The PAL override buffers (311-384, 416-425, 749-758).
  // ---------------------------------------------------------------------

  /** One ISP control record: an ia_record_header followed by the control's data, padded to 8 bytes. */
  function RecordSize(header: nat, dataSize: nat): (r: nat)
    ensures r % 8 == 0 && header + dataSize <= r
  {
    Align8(header + dataSize)
  }

  /** The bytes the records of the controls ids take, one record each. */
  function RecordsSize(ids: seq<int>, sizeOf: int -> nat, header: nat): nat
  {
    if ids == [] then 0
    else RecordsSize(ids[..|ids| - 1], sizeOf, header) + RecordSize(header, sizeOf(ids[|ids| - 1]))
  }

  /**
   * getRequiredPalBufferSize: one record for each supported control.
   * sizeOf is IspControlUtils::getSizeById and header the size of an
   * ia_record_header.
   */
  method RequiredPalBufferSize(controls: seq<int>, sizeOf: int -> nat, header: nat) returns (total: nat)
    ensures total == RecordsSize(controls, sizeOf, header)
  {
    total := 0;
    var i := 0;
    while i < |controls|
      invariant i <= |controls|
      invariant total == RecordsSize(controls[..i], sizeOf, header)
    {
      assert controls[..i + 1][..i] == controls[..i];
      total := total + RecordSize(header, sizeOf(controls[i]));
      i := i + 1;
    }
    assert controls[..i] == controls;
  }

  lemma RecordsSizeSnoc(ids: seq<int>, x: int, sizeOf: int -> nat, header: nat)
    ensures RecordsSize(ids + [x], sizeOf, header) == RecordsSize(ids, sizeOf, header) + RecordSize(header, sizeOf(x))
  {
    assert (ids + [x])[..|ids|] == ids;
  }

  /** Taking one record out of a list leaves the rest of the bytes. */
  lemma {:induction false} RecordsSizeRemove(ys: seq<int>, i: nat, sizeOf: int -> nat, header: nat)
    requires i < |ys|
    ensures RecordsSize(ys, sizeOf, header)
      == RecordSize(header, sizeOf(ys[i])) + RecordsSize(ys[..i] + ys[i + 1..], sizeOf, header)
    decreases |ys|
  {
    var n := |ys| - 1;
    if i == n {
      assert ys[..i] + ys[i + 1..] == ys[..n];
    } else {
      var init := ys[..n];
      RecordsSizeRemove(init, i, sizeOf, header);
      assert init[i] == ys[i];
      assert ys[..i] + ys[i + 1..] == (init[..i] + init[i + 1..]) + [ys[n]];
      RecordsSizeSnoc(init[..i] + init[i + 1..], ys[n], sizeOf, header);
    }
  }

  predicate Distinct(xs: seq<int>)
  {
    forall i, j :: 0 <= i < j < |xs| ==> xs[i] != xs[j]
  }

  /** Distinct controls, each of them supported, take no more room than the supported controls do. */
  lemma {:induction false} SubsetFits(xs: seq<int>, ys: seq<int>, sizeOf: int -> nat, header: nat)
    requires Distinct(xs)
    requires forall k :: 0 <= k < |xs| ==> xs[k] in ys
    ensures RecordsSize(xs, sizeOf, header) <= RecordsSize(ys, sizeOf, header)
    decreases |xs|
  {
    if xs != [] {
      var n := |xs| - 1;
      var x := xs[n];
      var i :| 0 <= i < |ys| && ys[i] == x;
      var rest := ys[..i] + ys[i + 1..];
      forall k | 0 <= k < n
        ensures xs[..n][k] in rest
      {
        var j :| 0 <= j < |ys| && ys[j] == xs[k];
        assert xs[k] != x;
        if j < i {
          assert rest[j] == ys[j];
        } else {
          assert rest[j - 1] == ys[j];
        }
      }
      SubsetFits(xs[..n], rest, sizeOf, header);
      RecordsSizeRemove(ys, i, sizeOf, header);
      assert xs == xs[..n] + [x];
      RecordsSizeSnoc(xs[..n], x, sizeOf, header);
    }
  }

  /**
   * What fillPalOverrideData works from: the supported controls
   * (PlatformData::getSupportedIspControlFeatures), each control's data
   * size, which controls the application has set (getIspControl returns
   * OK), the header size, and the ids of the CCM and ACM controls.
   */
  datatype PalEnv = PalEnv(supported: seq<int>, sizeOf: int -> nat, isSet: int -> bool, header: nat, ccmId: int, acmId: int)

  function PalBufferSize(env: PalEnv): nat
  {
    RecordsSize(env.supported, env.sizeOf, env.header)
  }

  /** The override buffer while it is being filled: the controls written so far, in order, and the running offset. */
  datatype FillState = FillState(status: Status, written: seq<int>, offset: nat, ccm: bool, acm: bool)

  /**
   * One enabled control: an unsupported control is passed over; a record
   * that would run past the buffer is an error; a control the application
   * has not set leaves the offset where it was; a set one is written.
   */
  function FillStep(env: PalEnv, total: nat, st: FillState, id: int): FillState
  {
    if id !in env.supported then st
    else
      var rs := RecordSize(env.header, env.sizeOf(id));
      if st.offset + rs > total then st.(status := BAD_VALUE)
      else if !env.isSet(id) then st
      else FillState(st.status, st.written + [id], st.offset + rs,
                     st.ccm || id == env.ccmId, st.acm || (id != env.ccmId && id == env.acmId))
  }

  /** The enabled controls in order, stopping at the first error. */
  function FillFrom(env: PalEnv, total: nat, ids: seq<int>, st: FillState): FillState
    decreases |ids|
  {
    if ids == [] || st.status != OK then st
    else FillFrom(env, total, ids[1..], FillStep(env, total, st, ids[0]))
  }

  /** fillDefaultAcmData: an identity ACM record when CCM was written without ACM and ACM is supported. */
  function FillDefaultAcm(env: PalEnv, st: FillState): FillState
  {
    if st.status != OK || !(st.ccm && !st.acm) then st
    else if env.acmId !in env.supported then st
    else st.(written := st.written + [env.acmId], offset := st.offset + RecordSize(env.header, env.sizeOf(env.acmId)))
  }

  /** The whole of fillPalOverrideData on the enabled controls, from an empty buffer. */
  function PalFill(env: PalEnv, enabled: seq<int>): FillState
  {
    FillDefaultAcm(env, FillFrom(env, PalBufferSize(env), enabled, FillState(OK, [], 0, false, false)))
  }

  /** What holds of the buffer after every step: written controls are distinct, supported, not yet to come, and fill the offset. */
  predicate FillInv(env: PalEnv, ids: seq<int>, st: FillState)
  {
    && st.status == OK
    && Distinct(st.written)
    && Distinct(ids)
    && (forall k :: 0 <= k < |st.written| ==> st.written[k] in env.supported)
    && (forall k, j :: 0 <= k < |st.written| && 0 <= j < |ids| ==> st.written[k] != ids[j])
    && st.offset == RecordsSize(st.written, env.sizeOf, env.header)
    && (st.acm <==> env.acmId in st.written && env.acmId != env.ccmId)
    && (st.ccm ==> env.ccmId in st.written)
  }

  lemma FillStepKeeps(env: PalEnv, ids: seq<int>, st: FillState)
    requires ids != [] && FillInv(env, ids, st)
    ensures FillInv(env, ids[1..], FillStep(env, PalBufferSize(env), st, ids[0]))
  {
    var id := ids[0];
    if id in env.supported {
      var w := st.written + [id];
      assert Distinct(w) by {
        forall k | 0 <= k < |st.written| ensures w[k] != id {
          assert st.written[k] != ids[0];
        }
      }
      forall k | 0 <= k < |w| ensures w[k] in env.supported {
        if k < |st.written| {
          assert w[k] == st.written[k];
        }
      }
      SubsetFits(w, env.supported, env.sizeOf, env.header);
      RecordsSizeSnoc(st.written, id, env.sizeOf, env.header);
      forall k, j | 0 <= k < |w| && 0 <= j < |ids| - 1 ensures w[k] != ids[1..][j] {
        assert ids[1..][j] == ids[j + 1];
        if k < |st.written| {
          assert w[k] == st.written[k];
        }
      }
    }
  }

  lemma {:induction false} FillFromKeeps(env: PalEnv, ids: seq<int>, st: FillState)
    requires FillInv(env, ids, st)
    ensures FillInv(env, [], FillFrom(env, PalBufferSize(env), ids, st))
    decreases |ids|
  {
    if ids != [] {
      FillStepKeeps(env, ids, st);
      FillFromKeeps(env, ids[1..], FillStep(env, PalBufferSize(env), st, ids[0]));
    }
  }

  /**
   * The buffer-size check of fillPalOverrideData never fails, and the
   * default ACM record still fits: when the enabled controls are distinct
   * (a std::set), the records written never take more than
   * getRequiredPalBufferSize.
   */
  lemma PalFillFits(env: PalEnv, enabled: seq<int>)
    requires Distinct(enabled) && env.ccmId != env.acmId
    ensures PalFill(env, enabled).status == OK
    ensures PalFill(env, enabled).offset <= PalBufferSize(env)
    ensures Distinct(PalFill(env, enabled).written)
  {
    var st := FillFrom(env, PalBufferSize(env), enabled, FillState(OK, [], 0, false, false));
    FillFromKeeps(env, enabled, FillState(OK, [], 0, false, false));
    var fin := FillDefaultAcm(env, st);
    if fin != st {
      var w := st.written + [env.acmId];
      assert env.acmId !in st.written;
      forall k | 0 <= k < |w| ensures w[k] in env.supported {
        if k < |st.written| {
          assert w[k] == st.written[k];
        }
      }
      RecordsSizeSnoc(st.written, env.acmId, env.sizeOf, env.header);
      SubsetFits(w, env.supported, env.sizeOf, env.header);
    } else {
      SubsetFits(st.written, env.supported, env.sizeOf, env.header);
    }
  }

  /** Only controls that are enabled, supported and set are written, besides the default ACM record. */
  lemma {:induction false} FillFromWritesSetControls(env: PalEnv, total: nat, ids: seq<int>, st: FillState, x: int)
    requires x in FillFrom(env, total, ids, st).written
    ensures x in st.written || (x in ids && x in env.supported && env.isSet(x))
    decreases |ids|
  {
    if ids != [] && st.status == OK {
      var next := FillStep(env, total, st, ids[0]);
      FillFromWritesSetControls(env, total, ids[1..], next, x);
      if x !in st.written && x in next.written {
        assert next.written == st.written + [ids[0]];
      }
    }
  }

  /**
   * The filling loop of fillPalOverrideData and the default ACM record,
   * total being the buffer size getRequiredPalBufferSize gave.
   */
  method FillRecords(env: PalEnv, enabled: seq<int>, total: nat) returns (st: FillState)
    requires total == PalBufferSize(env)
    ensures st == PalFill(env, enabled)
  {
    st := FillState(OK, [], 0, false, false);
    var i := 0;
    while i < |enabled|
      invariant i <= |enabled| && st.status == OK
      invariant FillFrom(env, total, enabled, FillState(OK, [], 0, false, false)) == FillFrom(env, total, enabled[i..], st)
    {
      assert enabled[i..][1..] == enabled[i + 1..];
      var id := enabled[i];
      ghost var next := FillStep(env, total, st, id);
      i := i + 1;
      if id !in env.supported {
        continue;
      }
      var rs := RecordSize(env.header, env.sizeOf(id));
      if st.offset + rs > total {
        st := st.(status := BAD_VALUE);
        assert st == next;
        return;
      }
      if !env.isSet(id) {
        continue;
      }
      st := st.(written := st.written + [id], offset := st.offset + rs);
      if id == env.ccmId {
        st := st.(ccm := true);
      } else if id == env.acmId {
        st := st.(acm := true);
      }
      assert st == next;
    }
    if st.ccm && !st.acm {
      if env.acmId in env.supported {
        st := st.(written := st.written + [env.acmId], offset := st.offset + RecordSize(env.header, env.sizeOf(env.acmId)));
      }
    }
  }

  // ---------------------------------------------------------------------
  // The processor's state.
  // ---------------------------------------------------------------------

  class Processor {
    /** IA_PAL_CONTROL_BUFFER_SIZE. */
    const bufferCount: nat
    var updatedIndex: int
    var usedIndex: int
    /** The size field of each PAL control buffer. */
    var palSizes: seq<nat>
    /** The controls whose records each PAL control buffer holds, in order. */
    var palRecords: seq<seq<int>>
    var tuningMode: TuningMode
    var curConfigMode: ConfigMode
    var sequenceInflight: seq<int>

    /** The update index only ever leaves -1 before the used index does. */
    predicate Valid()
      reads this
    {
      && bufferCount > 0
      && |palSizes| == bufferCount && |palRecords| == bufferCount
      && -1 <= updatedIndex < bufferCount && -1 <= usedIndex < bufferCount
      && (updatedIndex == -1 ==> usedIndex == -1)
    }

    constructor (n: nat, mode: TuningMode, configMode: ConfigMode)
      requires n > 0
      ensures Valid() && bufferCount == n
      ensures updatedIndex == -1 && usedIndex == -1 && sequenceInflight == []
      ensures tuningMode == mode && curConfigMode == configMode
    {
      bufferCount := n;
      updatedIndex := -1;
      usedIndex := -1;
      palSizes := seq(n, i => 0);
      palRecords := seq(n, i => []);
      tuningMode := mode;
      curConfigMode := configMode;
      sequenceInflight := [];
    }

    /** allocPalControlBuffers: every buffer gets the required size and empty (zeroed) contents. */
    method AllocPalControlBuffers(required: nat)
      requires Valid()
      modifies this
      ensures Valid()
      ensures palSizes == seq(bufferCount, i => required) && palRecords == seq(bufferCount, i => [])
      ensures updatedIndex == old(updatedIndex) && usedIndex == old(usedIndex)
      ensures sequenceInflight == old(sequenceInflight)
      ensures tuningMode == old(tuningMode) && curConfigMode == old(curConfigMode)
    {
      var i := 0;
      while i < bufferCount
        invariant i <= bufferCount && Valid()
        invariant forall k :: 0 <= k < i ==> palSizes[k] == required && palRecords[k] == []
        invariant updatedIndex == old(updatedIndex) && usedIndex == old(usedIndex)
        invariant sequenceInflight == old(sequenceInflight)
        invariant tuningMode == old(tuningMode) && curConfigMode == old(curConfigMode)
      {
        palSizes := palSizes[i := required];
        palRecords := palRecords[i := []];
        i := i + 1;
      }
    }

    /** The buffer fillPalOverrideData writes: a new one unless the current one has not been used yet. */
    function NextUpdateIndex(): int
      requires Valid()
      reads this
    {
      if updatedIndex == usedIndex then (updatedIndex + 1) % bufferCount else updatedIndex
    }

    /**
     * fillPalOverrideData: the records of the enabled, supported controls
     * the application has set go into the buffer at NextUpdateIndex, and
     * its size becomes their total; on an error the size stays at the
     * required size.
     */
    method FillPalOverrideData(env: PalEnv, enabled: seq<int>) returns (status: Status)
      requires Valid()
      modifies this
      ensures Valid()
      ensures updatedIndex == old(NextUpdateIndex()) && 0 <= updatedIndex
      ensures var r := PalFill(env, enabled);
        && status == r.status
        && palRecords == old(palRecords)[updatedIndex := r.written]
        && palSizes == old(palSizes)[updatedIndex := if r.status == OK then r.offset else PalBufferSize(env)]
      ensures usedIndex == old(usedIndex) && sequenceInflight == old(sequenceInflight)
      ensures tuningMode == old(tuningMode) && curConfigMode == old(curConfigMode)
    {
      if updatedIndex == usedIndex {
        updatedIndex := updatedIndex + 1;
        updatedIndex := updatedIndex % bufferCount;
      }
      var total := RequiredPalBufferSize(env.supported, env.sizeOf, env.header);
      palSizes := palSizes[updatedIndex := total];
      var st := FillRecords(env, enabled, total);
      palRecords := palRecords[updatedIndex := st.written];
      if st.status != OK {
        return st.status;
      }
      palSizes := palSizes[updatedIndex := st.offset];
      return OK;
    }

    /**
     * The override selection of dispatchTask: the latest filled buffer
     * becomes the used one, and it is handed to the task when it holds
     * any data.
     */
    method SelectPalOverride() returns (palOverride: Option<nat>)
      requires Valid()
      modifies this
      ensures Valid()
      ensures usedIndex == if old(updatedIndex) > -1 then old(updatedIndex) else old(usedIndex)
      ensures palOverride.Some? <==> usedIndex > -1 && palSizes[usedIndex] > 0
      ensures palOverride.Some? ==> palOverride.value == usedIndex
      ensures updatedIndex == old(updatedIndex) && palSizes == old(palSizes) && palRecords == old(palRecords)
      ensures sequenceInflight == old(sequenceInflight)
      ensures tuningMode == old(tuningMode) && curConfigMode == old(curConfigMode)
    {
      if updatedIndex > -1 {
        usedIndex := updatedIndex;
      }
      if usedIndex > -1 && palSizes[usedIndex] > 0 {
        palOverride := Some(usedIndex);
      } else {
        palOverride := None;
      }
    }

    /**
     * needSwitchPipe: the AIQ result's tuning mode (None when no result is
     * stored for the sequence) selects the first configured mode whose
     * tuning mode it is; tuningOf is getTuningModeByConfigMode.
     */
    method NeedSwitchPipe(aiqTuningMode: Option<TuningMode>, configModes: seq<ConfigMode>,
                          tuningOf: ConfigMode -> Option<TuningMode>) returns (switch: bool)
      modifies this
      ensures aiqTuningMode.None? || aiqTuningMode.value == old(tuningMode) ==> !switch
      ensures switch <==> (aiqTuningMode.Some? && aiqTuningMode.value != old(tuningMode)
        && FirstFrom(configModes, TunedTo(tuningOf, aiqTuningMode.value), 0).Some?)
      ensures switch ==> (tuningMode == aiqTuningMode.value
        && curConfigMode == configModes[FirstFrom(configModes, TunedTo(tuningOf, aiqTuningMode.value), 0).value])
      ensures !switch ==> tuningMode == old(tuningMode) && curConfigMode == old(curConfigMode)
      ensures updatedIndex == old(updatedIndex) && usedIndex == old(usedIndex)
      ensures palSizes == old(palSizes) && palRecords == old(palRecords) && sequenceInflight == old(sequenceInflight)
    {
      if aiqTuningMode.None? {
        return false;
      }
      var cur := aiqTuningMode.value;
      if tuningMode == cur {
        return false;
      }
      var i := 0;
      while i < |configModes|
        invariant i <= |configModes|
        invariant FirstFrom(configModes, TunedTo(tuningOf, cur), 0) == FirstFrom(configModes, TunedTo(tuningOf, cur), i)
        invariant tuningMode == old(tuningMode) && curConfigMode == old(curConfigMode)
      {
        var t := tuningOf(configModes[i]);
        if t.Some? && t.value == cur {
          curConfigMode := configModes[i];
          tuningMode := cur;
          return true;
        }
        i := i + 1;
      }
      return false;
    }

    /** dispatchTask: the input's sequence joins the frames in flight. */
    method PushInflight(sequence: int)
      modifies this
      ensures sequenceInflight == old(sequenceInflight) + [sequence]
      ensures updatedIndex == old(updatedIndex) && usedIndex == old(usedIndex)
      ensures palSizes == old(palSizes) && palRecords == old(palRecords)
      ensures tuningMode == old(tuningMode) && curConfigMode == old(curConfigMode)
    {
      sequenceInflight := sequenceInflight + [sequence];
    }

    /**
     * onFrameDone: the oldest frame in flight is retired, whichever frame
     * finished; inOrder says whether it was that one (the source only
     * warns otherwise).  The queue must not be empty: std::queue::front
     * on an empty queue is undefined.
     */
    method OnFrameDone(sequence: int) returns (inOrder: bool, drained: bool)
      requires sequenceInflight != []
      modifies this
      ensures inOrder <==> sequence == old(sequenceInflight)[0]
      ensures sequenceInflight == old(sequenceInflight)[1..]
      ensures drained <==> sequenceInflight == []
      ensures updatedIndex == old(updatedIndex) && usedIndex == old(usedIndex)
      ensures palSizes == old(palSizes) && palRecords == old(palRecords)
      ensures tuningMode == old(tuningMode) && curConfigMode == old(curConfigMode)
    {
      var oldest := sequenceInflight[0];
      inOrder := sequence == oldest;
      sequenceInflight := sequenceInflight[1..];
      drained := sequenceInflight == [];
    }
  }

  function TunedTo(tuningOf: ConfigMode -> Option<TuningMode>, mode: TuningMode): ConfigMode -> bool
  {
    (c: ConfigMode) => tuningOf(c) == Some(mode)
  }
}
