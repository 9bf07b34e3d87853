/**
 * The PG parameter adaptor (core/pgprocessor/PGParamAdapt.cpp): it reads
 * the program-group manifest, builds per-terminal requirements (kernel
 * order, kernel bitmap, section count, payload size) from what the P2P
 * library reports per kernel, computes the final kernel bitmap with the
 * disabled kernels removed, and checks that every kernel's payload fits
 * the terminal's buffer while encoding.  The P2P library and the manifest
 * accessors are not part of this model: what they report is given as
 * values and functions.
 */
module PGParamAdapt {
  import opened Common
  import opened PgRequirements

  /** What a terminal manifest says about its terminal. */
  datatype TerminalManifest = TerminalManifest(
    termType: TerminalType,
    sections: seq<Section>,       // parameter sections of a cached or program terminal
    dataKernels: KernelBitmap,    // kernel bitmap of a data terminal
    spatialKernel: nat)           // kernel of a spatial terminal

  // ---------------------------------------------------------------------
  // getKernelIdByBitmap (546-555).
  // ---------------------------------------------------------------------

  /** getKernelIdByBitmap: BAD_VALUE for an empty bitmap, else the lowest set bit. */
  method GetKernelIdByBitmap(b: KernelBitmap) returns (status: Status, kernelId: nat)
    requires InWidth(b)
    ensures b == {} <==> status == BAD_VALUE
    ensures status == OK || status == BAD_VALUE
    ensures status == OK ==> kernelId in b && forall j :: j in b ==> kernelId <= j
  {
    if b == {} {
      return BAD_VALUE, 0;
    }
    kernelId := LowestSetBit(b);
    status := OK;
  }

  // ---------------------------------------------------------------------
  // getKernelOrderForParamCachedInTerm / getKernelOrderForProgramTerm
  // (646-725).
  // ---------------------------------------------------------------------

  /**
   * The kernel order builders: the manifest's sections are merged into
   * runs written to the front of the order array; the rest of the array
   * keeps its fill.  A terminal without sections is rejected with the
   * builder's own error (css_err_argument for the cached-in terminal,
   * ia_err_internal for the program terminal).
   */
  method BuildKernelOrder(sections: seq<Section>, emptyError: PgStatus, order: array<KernelInfo>) returns (status: PgStatus)
    requires |Runs(sections)| <= order.Length
    modifies order
    ensures sections == [] ==> status == emptyError && order[..] == old(order[..])
    ensures sections != [] ==> status == PG_OK && order[..] == Runs(sections) + old(order[|Runs(sections)|..])
  {
    if |sections| == 0 {
      return emptyError;
    }
    ghost var fill := order[..];
    var kernelCount := 0;
    var section := 0;
    while section < |sections|
      invariant section <= |sections|
      invariant kernelCount == |Runs(sections[..section])| <= order.Length
      invariant order[..] == Runs(sections[..section]) + fill[kernelCount..]
    {
      RunsPrefixShorter(sections, section + 1);
      RunsStep(sections, section);
      kernelCount := MergeSection(order, kernelCount, sections[section], Runs(sections[..section]), fill);
      section := section + 1;
    }
    assert sections[..section] == sections;
    status := PG_OK;
  }

  /**
   * One iteration of the builder loop: a section of the kernel already
   * last in the order extends that entry, any other section is appended.
   */
  method MergeSection(order: array<KernelInfo>, kernelCount: nat, param: Section,
                      ghost runs: seq<KernelInfo>, ghost fill: seq<KernelInfo>) returns (newCount: nat)
    requires |fill| == order.Length && kernelCount == |runs| && |Merge(runs, param)| <= order.Length
    requires order[..] == runs + fill[kernelCount..]
    modifies order
    ensures newCount == |Merge(runs, param)|
    ensures order[..] == Merge(runs, param) + fill[newCount..]
  {
    if kernelCount > 0 && order[kernelCount - 1].id == param.kernelId {
      assert order[kernelCount - 1] == runs[|runs| - 1];
      var last := order[kernelCount - 1];
      order[kernelCount - 1] := last.(sections := last.sections + 1, size := last.size + param.maxMemSize);
      newCount := kernelCount;
    } else {
      order[kernelCount] := KernelInfo(param.kernelId, 1, param.maxMemSize, false);
      newCount := kernelCount + 1;
    }
  }

  /** One more section either extends the last run or starts a new one. */
  lemma RunsStep(s: seq<Section>, i: nat)
    requires i < |s|
    ensures Runs(s[..i + 1]) == Merge(Runs(s[..i]), s[i])
  {
    assert s[..i + 1][..i] == s[..i];
  }

  /** A kernel order array of the given length, filled as by memset to UINT8_MAX. */
  function UnusedOrder(n: nat): seq<KernelInfo>
  {
    seq(n, _ => UNUSED_KERNEL_INFO)
  }

  // ---------------------------------------------------------------------
  // getCachedTerminalKernelBitmap / getProgramTerminalKernelBitmap
  // (557-596).
  // ---------------------------------------------------------------------

  /** The kernels that own a section of the list. */
  function KernelsOf(s: seq<Section>): KernelBitmap
  {
    if s == [] then {} else KernelsOf(s[..|s| - 1]) + {s[|s| - 1].kernelId}
  }

  /** The kernels owning sections are exactly the ids of the sections. */
  lemma {:induction false} KernelsOfIds(s: seq<Section>)
    ensures forall k :: k in KernelsOf(s) <==> k in Ids(s)
    decreases |s|
  {
    if s != [] {
      KernelsOfIds(s[..|s| - 1]);
      assert Ids(s) == Ids(s[..|s| - 1]) + [s[|s| - 1].kernelId];
    }
  }

  /** The bitmap of a cached or program terminal: one bit per section's kernel. */
  method SectionKernelBitmap(s: seq<Section>) returns (b: KernelBitmap)
    ensures b == KernelsOf(s)
  {
    b := {};
    var section := 0;
    while section < |s|
      invariant section <= |s| && b == KernelsOf(s[..section])
    {
      assert s[..section + 1][..section] == s[..section];
      b := b + {s[section].kernelId};
      section := section + 1;
    }
    assert s[..section] == s;
  }

  // ---------------------------------------------------------------------
  // prepare, first part: the terminal requirements from the manifest
  // (73-115).
  // ---------------------------------------------------------------------

  predicate NeedsOrder(t: TerminalType)
  {
    t == PARAM_CACHED_IN || t == PROGRAM
  }

  /** The error a terminal without parameter sections makes its builder return. */
  function EmptyOrderError(t: TerminalType): PgStatus
  {
    if t == PARAM_CACHED_IN then CSS_ERR_ARGUMENT else IA_ERR_INTERNAL
  }

  /** Whether the manifest of a terminal makes the kernel order builder fail. */
  function HasEmptyOrder(m: TerminalManifest): bool
  {
    NeedsOrder(m.termType) && m.sections == []
  }

  /** The order arrays fit every run of the manifest's parameter terminals. */
  predicate OrdersFit(ms: seq<TerminalManifest>, maxKernels: nat)
  {
    forall i :: 0 <= i < |ms| ==> |Runs(ms[i].sections)| <= maxKernels
  }

  /**
   * A terminal's requirements as prepared from its manifest: the type; a
   * kernel order for cached-in and program terminals; the manifest's
   * kernel bitmap for data terminals; the spatial kernel's bit for spatial
   * terminals.  Counters are left as they were.
   */
  function PreparedTerminal(tr: TerminalReq, m: TerminalManifest, maxKernels: nat): (r: TerminalReq)
    requires |Runs(m.sections)| <= maxKernels
    ensures r.termType == m.termType
    ensures NeedsOrder(m.termType) <==> r.kernelOrder.Some?
    ensures r.sectionCount == tr.sectionCount && r.payloadSize == tr.payloadSize
  {
    var base := tr.(termType := m.termType, kernelOrder := None);
    match m.termType
    case PARAM_CACHED_IN =>
      base.(kernelOrder := Some(Runs(m.sections) + UnusedOrder(maxKernels - |Runs(m.sections)|)))
    case PROGRAM =>
      base.(kernelOrder := Some(Runs(m.sections) + UnusedOrder(maxKernels - |Runs(m.sections)|)))
    case DATA_IN => base.(kernelBitmap := m.dataKernels)
    case DATA_OUT => base.(kernelBitmap := m.dataKernels)
    case PARAM_SPATIAL_IN => base.(kernelBitmap := {m.spatialKernel})
    case PARAM_SPATIAL_OUT => base.(kernelBitmap := {m.spatialKernel})
    case _ => base
  }

  /** Cached-in and program terminals, and only they, carry a kernel order. */
  predicate OrdersPresent(reqs: seq<TerminalReq>)
  {
    forall i :: 0 <= i < |reqs| ==> (NeedsOrder(reqs[i].termType) <==> reqs[i].kernelOrder.Some?)
  }

  /**
   * A kernel order array of maxKernels entries, all unused, filled by the
   * builder: the runs of the sections, then unused entries.
   */
  method NewKernelOrder(sections: seq<Section>, emptyError: PgStatus, maxKernels: nat)
    returns (status: PgStatus, order: seq<KernelInfo>)
    requires |Runs(sections)| <= maxKernels
    ensures sections == [] ==> status == emptyError
    ensures sections != [] ==> status == PG_OK
    ensures order == Runs(sections) + UnusedOrder(maxKernels - |Runs(sections)|)
  {
    var a := new KernelInfo[maxKernels](_ => UNUSED_KERNEL_INFO);
    assert a[..] == UnusedOrder(maxKernels);
    status := BuildKernelOrder(sections, emptyError, a);
    assert a[|Runs(sections)|..] == UnusedOrder(maxKernels - |Runs(sections)|);
    order := a[..];
  }

  /** One terminal of the per-terminal loop of prepare. */
  method PrepareTerminal(tr0: TerminalReq, m: TerminalManifest, maxKernels: nat) returns (status: PgStatus, tr: TerminalReq)
    requires |Runs(m.sections)| <= maxKernels
    ensures HasEmptyOrder(m) ==> status == EmptyOrderError(m.termType)
    ensures !HasEmptyOrder(m) ==> status == PG_OK
    ensures tr == PreparedTerminal(tr0, m, maxKernels)
  {
    status := PG_OK;
    tr := tr0.(termType := m.termType, kernelOrder := None);
    match m.termType {
      case PARAM_CACHED_IN =>
        var order;
        status, order := NewKernelOrder(m.sections, CSS_ERR_ARGUMENT, maxKernels);
        tr := tr.(kernelOrder := Some(order));
      case PROGRAM =>
        var order;
        status, order := NewKernelOrder(m.sections, IA_ERR_INTERNAL, maxKernels);
        tr := tr.(kernelOrder := Some(order));
      case DATA_IN =>
        tr := tr.(kernelBitmap := m.dataKernels);
      case DATA_OUT =>
        tr := tr.(kernelBitmap := m.dataKernels);
      case PARAM_SPATIAL_IN =>
        tr := tr.(kernelBitmap := {m.spatialKernel});
      case PARAM_SPATIAL_OUT =>
        tr := tr.(kernelBitmap := {m.spatialKernel});
      case _ =>
    }
  }

  /**
   * How many terminals the per-terminal loop writes: all of them, or those
   * up to and including the first whose builder fails.
   */
  function PreparedCount(ms: seq<TerminalManifest>): (n: nat)
    ensures n <= |ms|
    ensures FirstFrom(ms, HasEmptyOrder, 0).None? <==> n == |ms| && forall i :: 0 <= i < |ms| ==> !HasEmptyOrder(ms[i])
  {
    match FirstFrom(ms, HasEmptyOrder, 0)
    case Some(i) => i + 1
    case None => |ms|
  }

  /**
   * The requirements after the per-terminal loop of prepare: the terminals
   * up to the first whose builder fails are prepared from their
   * manifests (that one with its order left unused), the rest keep their
   * entries.
   */
  function PreparedTerminals(ms: seq<TerminalManifest>, reqs0: seq<TerminalReq>, maxKernels: nat): (reqs: seq<TerminalReq>)
    requires |ms| <= |reqs0| && OrdersFit(ms, maxKernels)
    ensures |reqs| == |reqs0|
    ensures forall i :: 0 <= i < PreparedCount(ms) ==> reqs[i] == PreparedTerminal(reqs0[i], ms[i], maxKernels)
    ensures forall i :: PreparedCount(ms) <= i < |reqs| ==> reqs[i] == reqs0[i]
  {
    var n := PreparedCount(ms);
    seq(|reqs0|, i requires 0 <= i < |reqs0| => if i < n then PreparedTerminal(reqs0[i], ms[i], maxKernels) else reqs0[i])
  }

  /**
   * The per-terminal loop of prepare: the terminals up to the first one
   * whose builder fails are prepared, the rest keep their entries.
   */
  method PrepareTerminals(ms: seq<TerminalManifest>, reqs0: seq<TerminalReq>, maxKernels: nat)
    returns (status: PgStatus, reqs: seq<TerminalReq>)
    requires |ms| <= |reqs0| && OrdersFit(ms, maxKernels)
    ensures FirstFrom(ms, HasEmptyOrder, 0).None? ==> status == PG_OK
    ensures FirstFrom(ms, HasEmptyOrder, 0).Some? ==>
      status == EmptyOrderError(ms[FirstFrom(ms, HasEmptyOrder, 0).value].termType)
    ensures reqs == PreparedTerminals(ms, reqs0, maxKernels)
  {
    reqs := reqs0;
    var termIndex := 0;
    while termIndex < |ms|
      invariant termIndex <= |ms| && |reqs| == |reqs0|
      invariant forall j :: 0 <= j < termIndex ==> !HasEmptyOrder(ms[j])
      invariant forall i :: 0 <= i < termIndex ==> reqs[i] == PreparedTerminal(reqs0[i], ms[i], maxKernels)
      invariant forall i :: termIndex <= i < |reqs| ==> reqs[i] == reqs0[i]
    {
      var tr;
      status, tr := PrepareTerminal(reqs[termIndex], ms[termIndex], maxKernels);
      reqs := reqs[termIndex := tr];
      if status != PG_OK {
        FirstFromIs(ms, HasEmptyOrder, 0, termIndex);
        return;
      }
      termIndex := termIndex + 1;
    }
    status := PG_OK;
  }
  // ---------------------------------------------------------------------
  // prepare, second part: the kernel loop (123-201).
  // ---------------------------------------------------------------------

  /**
   * What the kernel loop works on: the terminal requirements, the per-kernel
   * section counts and payload sizes (mKernel.mSections and mPayloads,
   * indexed by kernel id) and the running payload size mKernel.mPayloadSize.
   */
  datatype PrepState = PrepState(
    reqs: seq<TerminalReq>,
    sections: seq<TermCounts>,
    payloads: seq<TermCounts>,
    payloadSize: nat)

  /** The loop goes on with a state or has stopped with an error. */
  datatype PrepResult = Prepared(st: PrepState) | PrepFailed(status: PgStatus, st: PrepState)

  /** The per-kernel tables hold one entry per possible kernel id. */
  predicate Shaped(st: PrepState, maxKernels: nat)
  {
    |st.sections| == maxKernels && |st.payloads| == maxKernels
  }

  /** A kernel's counts with the one for a cached or program terminal type replaced. */
  function WithCached(c: TermCounts, t: TerminalType, v: nat): TermCounts
  {
    match t
    case PARAM_CACHED_IN => c.(paramIn := v)
    case PARAM_CACHED_OUT => c.(paramOut := v)
    case PROGRAM => c.(program := v)
    case _ => c
  }

  /** Terminal types and kernel ids of the orders: what the kernel loop never changes. */
  predicate SameLayout(a: seq<TerminalReq>, b: seq<TerminalReq>)
  {
    && |a| == |b|
    && (forall i :: 0 <= i < |a| ==> a[i].termType == b[i].termType)
    && (forall i :: 0 <= i < |a| ==> (a[i].kernelOrder.Some? <==> b[i].kernelOrder.Some?))
    && (forall i :: 0 <= i < |a| && a[i].kernelOrder.Some? ==>
          |a[i].kernelOrder.value| == |b[i].kernelOrder.value|
          && forall j :: 0 <= j < |a[i].kernelOrder.value| ==> a[i].kernelOrder.value[j].id == b[i].kernelOrder.value[j].id)
  }

  /** Section counts and payload sizes of the terminals only grow. */
  predicate CountersGrow(a: seq<TerminalReq>, b: seq<TerminalReq>)
    requires |a| == |b|
  {
    forall i :: 0 <= i < |a| ==> a[i].sectionCount <= b[i].sectionCount && a[i].payloadSize <= b[i].payloadSize
  }

  /**
   * The reconciliation of the cached-in and program blocks: when the kernel
   * order entry of kernel k on terminal i holds a section count other than
   * the P2P library's, the manifest's count replaces the library's, the
   * payload size becomes the larger of the two, and the entry is marked to
   * be zero-initialised before encoding.
   */
  function Reconciled(st: PrepState, i: nat, k: nat, t: TerminalType): (r: PrepState)
    requires i < |st.reqs| && k < |st.sections| && k < |st.payloads|
    requires st.reqs[i].kernelOrder.Some? && FirstFrom(st.reqs[i].kernelOrder.value, IdIs(k), 0).Some?
  {
    var order := st.reqs[i].kernelOrder.value;
    var o := FirstFrom(order, IdIs(k), 0).value;
    var e := order[o];
    if e.sections == CachedAmount(st.sections[k], t) then st
    else
      st.(sections := st.sections[k := WithCached(st.sections[k], t, e.sections)],
          payloads := st.payloads[k := WithCached(st.payloads[k], t, Max(CachedAmount(st.payloads[k], t), e.size))],
          reqs := st.reqs[i := st.reqs[i].(kernelOrder := Some(order[o := e.(initialize := true)]))])
  }

  /** processTerminalKernelRequirements applied to terminal i, with mKernel.mPayloadSize following it. */
  function AddKernel(st: PrepState, i: nat, k: nat, t: TerminalType): PrepState
    requires i < |st.reqs| && k < |st.sections| && k < |st.payloads|
  {
    var tr := st.reqs[i];
    var r := WithKernelRequirements(tr, t, k, st.sections[k], st.payloads[k]);
    st.(reqs := st.reqs[i := r], payloadSize := if KernelCount(tr, k) == 0 then st.payloadSize else r.payloadSize)
  }

  /**
   * The cached-in, cached-out or program block of one kernel: the first
   * terminal of the type takes the kernel when it lists the kernel
   * (reconciled first for cached-in and program); no terminal of the type
   * is ia_err_internal.
   */
  function CachedStep(st: PrepState, k: nat, t: TerminalType, reconcile: bool): (r: PrepResult)
    requires k < |st.sections| && k < |st.payloads|
    ensures r.Prepared? ==> |r.st.sections| == |st.sections| && |r.st.payloads| == |st.payloads|
  {
    match FirstFrom(st.reqs, IsOfType(t), 0)
    case None => PrepFailed(IA_ERR_INTERNAL, st)
    case Some(i) =>
      var tr := st.reqs[i];
      if !InKernelOrder(tr, k) then Prepared(st)
      else
        var st1 := if reconcile && tr.kernelOrder.Some? then Reconciled(st, i, k, t) else st;
        Prepared(AddKernel(st1, i, k, t))
  }

  /**
   * The spatial-in or spatial-out block of one kernel: the first terminal of
   * the type whose bitmap is just the kernel's bit takes the kernel's
   * sections and payload, and its bitmap is set to that bit; without such a
   * terminal nothing changes.
   */
  function SpatialStep(st: PrepState, k: nat, t: TerminalType, sections: nat, payload: nat): PrepState
  {
    match FirstFrom(st.reqs, IsOfTypeWithBitmap(t, {k}), 0)
    case None => st
    case Some(i) =>
      var tr := st.reqs[i];
      if !InKernelOrder(tr, k) then st
      else st.(reqs := st.reqs[i := tr.(sectionCount := tr.sectionCount + sections,
                                           payloadSize := tr.payloadSize + payload,
                                           kernelBitmap := {k})])
  }
  /** The spatial count of a kernel for a spatial terminal type; the other types have none here. */
  function SpatialAmount(c: TermCounts, t: TerminalType): nat
  {
    match t
    case PARAM_SPATIAL_IN => c.spatialIn
    case PARAM_SPATIAL_OUT => c.spatialOut
    case _ => 0
  }

  /** A cached or program block, run only when the kernel has sections of the type. */
  function CachedBlock(r: PrepResult, k: nat, t: TerminalType, reconcile: bool): (r': PrepResult)
    requires r.Prepared? ==> k < |r.st.sections| && k < |r.st.payloads|
    ensures r'.Prepared? ==> r.Prepared? && |r'.st.sections| == |r.st.sections| && |r'.st.payloads| == |r.st.payloads|
  {
    if r.PrepFailed? || CachedAmount(r.st.sections[k], t) == 0 then r
    else CachedStep(r.st, k, t, reconcile)
  }

  /** A spatial block, run only when the kernel has sections of the type. */
  function SpatialBlock(r: PrepResult, k: nat, t: TerminalType): (r': PrepResult)
    requires r.Prepared? ==> k < |r.st.sections| && k < |r.st.payloads|
    ensures r'.Prepared? ==> r.Prepared? && r'.st.sections == r.st.sections && r'.st.payloads == r.st.payloads
  {
    if r.PrepFailed? || SpatialAmount(r.st.sections[k], t) == 0 then r
    else Prepared(SpatialStep(r.st, k, t, SpatialAmount(r.st.sections[k], t), SpatialAmount(r.st.payloads[k], t)))
  }

  /**
   * One iteration of the kernel loop for kernel k: an id beyond the kernel
   * tables is ia_err_internal; otherwise the kernel's counts from the P2P
   * library are stored and the five blocks run in order, each only when
   * the kernel has sections of its type.  An error stops the loop.
   */
  function KernelStep(r: PrepResult, k: nat, maxKernels: nat, p2pSections: seq<TermCounts>, p2pPayloads: seq<TermCounts>): (r': PrepResult)
    requires |p2pSections| == maxKernels && |p2pPayloads| == maxKernels
    requires r.Prepared? ==> Shaped(r.st, maxKernels)
    ensures r'.Prepared? ==> Shaped(r'.st, maxKernels)
  {
    if r.PrepFailed? then r
    else if k >= maxKernels then PrepFailed(IA_ERR_INTERNAL, r.st)
    else
      var st := r.st.(sections := r.st.sections[k := p2pSections[k]], payloads := r.st.payloads[k := p2pPayloads[k]]);
      var r1 := CachedBlock(Prepared(st), k, PARAM_CACHED_IN, true);
      var r2 := CachedBlock(r1, k, PARAM_CACHED_OUT, false);
      var r3 := CachedBlock(r2, k, PROGRAM, true);
      SpatialBlock(SpatialBlock(r3, k, PARAM_SPATIAL_IN), k, PARAM_SPATIAL_OUT)
  }

  /** The kernel loop over the kernels in visiting order. */
  function Kernels(r: PrepResult, ks: seq<nat>, maxKernels: nat, p2pSections: seq<TermCounts>, p2pPayloads: seq<TermCounts>): (r': PrepResult)
    requires |p2pSections| == maxKernels && |p2pPayloads| == maxKernels
    requires r.Prepared? ==> Shaped(r.st, maxKernels)
    decreases |ks|
  {
    if ks == [] then r
    else Kernels(KernelStep(r, ks[0], maxKernels, p2pSections, p2pPayloads), ks[1..], maxKernels, p2pSections, p2pPayloads)
  }
  /** The reconciliation of kernel k's order entry on terminal termIndex. */
  method Reconcile(st: PrepState, termIndex: nat, k: nat, t: TerminalType, kernelOrder: nat) returns (s: PrepState)
    requires termIndex < |st.reqs| && k < |st.sections| && k < |st.payloads|
    requires st.reqs[termIndex].kernelOrder.Some? && kernelOrder < |st.reqs[termIndex].kernelOrder.value|
    requires st.reqs[termIndex].kernelOrder.value[kernelOrder].id == k
    requires forall j :: 0 <= j < kernelOrder ==> st.reqs[termIndex].kernelOrder.value[j].id != k
    ensures FirstFrom(st.reqs[termIndex].kernelOrder.value, IdIs(k), 0).Some?
    ensures s == Reconciled(st, termIndex, k, t)
  {
    var tr := st.reqs[termIndex];
    var order := tr.kernelOrder.value;
    FirstFromIs(order, IdIs(k), 0, kernelOrder);
    var e := order[kernelOrder];
    s := st;
    if e.sections != CachedAmount(st.sections[k], t) {
      s := st.(sections := st.sections[k := WithCached(st.sections[k], t, e.sections)],
               payloads := st.payloads[k := WithCached(st.payloads[k], t, Max(CachedAmount(st.payloads[k], t), e.size))],
               reqs := st.reqs[termIndex := tr.(kernelOrder := Some(order[kernelOrder := e.(initialize := true)]))]);
    }
  }

  /** processTerminalKernelRequirements on terminal termIndex, with mKernel.mPayloadSize following it. */
  method RunAddKernel(st: PrepState, termIndex: nat, k: nat, t: TerminalType) returns (s: PrepState)
    requires termIndex < |st.reqs| && k < |st.sections| && k < |st.payloads|
    ensures s == AddKernel(st, termIndex, k, t)
  {
    var updated, lastPayload := ProcessTerminalKernelRequirements(st.reqs[termIndex], t, k, st.sections[k], st.payloads[k]);
    s := st.(reqs := st.reqs[termIndex := updated], payloadSize := if lastPayload.Some? then lastPayload.value else st.payloadSize);
  }

  /** A cached-in, cached-out or program block of the loop body. */
  method RunCachedBlock(r: PrepResult, k: nat, t: TerminalType, reconcile: bool) returns (r': PrepResult)
    requires r.Prepared? ==> k < |r.st.sections| && k < |r.st.payloads|
    ensures r' == CachedBlock(r, k, t, reconcile)
  {
    if r.PrepFailed? || CachedAmount(r.st.sections[k], t) == 0 {
      return r;
    }
    var st := r.st;
    var termIndex := TerminalEnumerateByType(st.reqs, t, 0);
    EnumerateFirst(st.reqs, t, termIndex);
    if termIndex < 0 {
      return PrepFailed(IA_ERR_INTERNAL, st);
    }
    var found, kernelOrder := IsKernelIdInKernelOrder(st.reqs[termIndex], k);
    if !found {
      return r;
    }
    var s := st;
    if reconcile && st.reqs[termIndex].kernelOrder.Some? {
      s := Reconcile(st, termIndex, k, t, kernelOrder);
    }
    s := RunAddKernel(s, termIndex, k, t);
    r' := Prepared(s);
  }

  /** A spatial-in or spatial-out block of the loop body. */
  method RunSpatialBlock(r: PrepResult, k: nat, t: TerminalType) returns (r': PrepResult)
    requires r.Prepared? ==> k < |r.st.sections| && k < |r.st.payloads|
    ensures r' == SpatialBlock(r, k, t)
  {
    if r.PrepFailed? || SpatialAmount(r.st.sections[k], t) == 0 {
      return r;
    }
    var st := r.st;
    var termIndex := TerminalEnumerateByBitmap(st.reqs, t, {k});
    if termIndex < 0 {
      return r;
    }
    var tr := st.reqs[termIndex];
    var found, _ := IsKernelIdInKernelOrder(tr, k);
    if !found {
      return r;
    }
    r' := Prepared(st.(reqs := st.reqs[termIndex := tr.(sectionCount := tr.sectionCount + SpatialAmount(st.sections[k], t),
                                                         payloadSize := tr.payloadSize + SpatialAmount(st.payloads[k], t),
                                                         kernelBitmap := {k})]));
  }

  /** The body of the kernel loop of prepare for kernel k. */
  method ProcessKernel(st: PrepState, k: nat, maxKernels: nat, p2pSections: seq<TermCounts>, p2pPayloads: seq<TermCounts>)
    returns (r: PrepResult)
    requires |p2pSections| == maxKernels && |p2pPayloads| == maxKernels && Shaped(st, maxKernels)
    ensures r == KernelStep(Prepared(st), k, maxKernels, p2pSections, p2pPayloads)
  {
    if k >= maxKernels {
      return PrepFailed(IA_ERR_INTERNAL, st);
    }
    var s := st.(sections := st.sections[k := p2pSections[k]], payloads := st.payloads[k := p2pPayloads[k]]);
    r := RunCachedBlock(Prepared(s), k, PARAM_CACHED_IN, true);
    r := RunCachedBlock(r, k, PARAM_CACHED_OUT, false);
    r := RunCachedBlock(r, k, PROGRAM, true);
    r := RunSpatialBlock(r, k, PARAM_SPATIAL_IN);
    r := RunSpatialBlock(r, k, PARAM_SPATIAL_OUT);
  }

  /** Once the loop has stopped with an error, the remaining kernels change nothing. */
  lemma {:induction false} KernelsStuck(r: PrepResult, ks: seq<nat>, maxKernels: nat, p2pSections: seq<TermCounts>, p2pPayloads: seq<TermCounts>)
    requires |p2pSections| == maxKernels && |p2pPayloads| == maxKernels && r.PrepFailed?
    ensures Kernels(r, ks, maxKernels, p2pSections, p2pPayloads) == r
    decreases |ks|
  {
    if ks != [] {
      KernelsStuck(r, ks[1..], maxKernels, p2pSections, p2pPayloads);
    }
  }

  /**
   * The kernel loop of prepare: while the bitmap has a bit set, the lowest
   * kernel is processed and its bit cleared, so every kernel of the bitmap
   * is visited once, lowest first.
   */
  method KernelLoop(st0: PrepState, b0: KernelBitmap, maxKernels: nat, p2pSections: seq<TermCounts>, p2pPayloads: seq<TermCounts>)
    returns (r: PrepResult)
    requires InWidth(b0)
    requires |p2pSections| == maxKernels && |p2pPayloads| == maxKernels && Shaped(st0, maxKernels)
    ensures r == Kernels(Prepared(st0), Ascending(b0), maxKernels, p2pSections, p2pPayloads)
  {
    var b := b0;
    var st := st0;
    while b != {}
      invariant InWidth(b) && Shaped(st, maxKernels)
      invariant Kernels(Prepared(st), Ascending(b), maxKernels, p2pSections, p2pPayloads)
        == Kernels(Prepared(st0), Ascending(b0), maxKernels, p2pSections, p2pPayloads)
      decreases |b|
    {
      var kernelId := LowestSetBit(b);
      assert Ascending(b) == [kernelId] + Ascending(b - {kernelId});
      var next := ProcessKernel(st, kernelId, maxKernels, p2pSections, p2pPayloads);
      if next.PrepFailed? {
        KernelsStuck(next, Ascending(b - {kernelId}), maxKernels, p2pSections, p2pPayloads);
        return next;
      }
      st := next.st;
      b := b - {kernelId};
    }
    r := Prepared(st);
  }
  // ---------------------------------------------------------------------
  // What the kernel loop keeps and what it establishes.
  // ---------------------------------------------------------------------

  predicate IsCachedType(t: TerminalType)
  {
    t == PARAM_CACHED_IN || t == PARAM_CACHED_OUT || t == PROGRAM
  }

  lemma SameLayoutRefl(a: seq<TerminalReq>)
    ensures SameLayout(a, a)
  {
  }

  lemma SameLayoutTrans(a: seq<TerminalReq>, b: seq<TerminalReq>, c: seq<TerminalReq>)
    requires SameLayout(a, b) && SameLayout(b, c)
    ensures SameLayout(a, c)
  {
  }

  /** Reconciling touches only the kernel's counts and the entry's initialize flag. */
  lemma ReconciledKeeps(st: PrepState, i: nat, k: nat, t: TerminalType)
    requires i < |st.reqs| && k < |st.sections| && k < |st.payloads|
    requires st.reqs[i].kernelOrder.Some? && FirstFrom(st.reqs[i].kernelOrder.value, IdIs(k), 0).Some?
    requires IsCachedType(t)
    ensures var r := Reconciled(st, i, k, t);
      && SameLayout(st.reqs, r.reqs)
      && (forall j :: 0 <= j < |st.reqs| ==>
            r.reqs[j].sectionCount == st.reqs[j].sectionCount && r.reqs[j].payloadSize == st.reqs[j].payloadSize
            && r.reqs[j].kernelBitmap == st.reqs[j].kernelBitmap)
      && (forall j :: 0 <= j < |st.reqs| && j != i ==> r.reqs[j] == st.reqs[j])
      && |r.sections| == |st.sections| && |r.payloads| == |st.payloads|
      && r.payloadSize == st.payloadSize
  {
  }

  /**
   * After reconciliation the kernel's count for the terminal type is the
   * manifest's; when the P2P library's count differed, the payload size is
   * the larger of the two and the entry is marked for initialisation,
   * otherwise nothing changed.
   */
  lemma ReconciledAgrees(st: PrepState, i: nat, k: nat, t: TerminalType)
    requires i < |st.reqs| && k < |st.sections| && k < |st.payloads|
    requires st.reqs[i].kernelOrder.Some? && FirstFrom(st.reqs[i].kernelOrder.value, IdIs(k), 0).Some?
    requires IsCachedType(t)
    ensures var o := FirstFrom(st.reqs[i].kernelOrder.value, IdIs(k), 0).value;
      var e := st.reqs[i].kernelOrder.value[o];
      var r := Reconciled(st, i, k, t);
      && CachedAmount(r.sections[k], t) == e.sections
      && (e.sections == CachedAmount(st.sections[k], t) ==> r == st)
      && (e.sections != CachedAmount(st.sections[k], t) ==>
            CachedAmount(r.payloads[k], t) == Max(CachedAmount(st.payloads[k], t), e.size)
            && r.reqs[i].kernelOrder.value[o].initialize)
  {
  }

  /** Adding the kernel to terminal i: only that terminal changes, its counters grow and it gains the bit. */
  lemma AddKernelEffect(st: PrepState, i: nat, k: nat, t: TerminalType)
    requires i < |st.reqs| && k < |st.sections| && k < |st.payloads|
    ensures var r := AddKernel(st, i, k, t);
      && SameLayout(st.reqs, r.reqs) && CountersGrow(st.reqs, r.reqs)
      && (forall j :: 0 <= j < |st.reqs| && j != i ==> r.reqs[j] == st.reqs[j])
      && k in r.reqs[i].kernelBitmap
      && r.reqs[i].sectionCount == st.reqs[i].sectionCount + KernelCount(r.reqs[i], k) * CachedAmount(r.sections[k], t)
      && r.reqs[i].payloadSize == st.reqs[i].payloadSize + KernelCount(r.reqs[i], k) * CachedAmount(r.payloads[k], t)
      && r.sections == st.sections && r.payloads == st.payloads
  {
  }

  /**
   * A cached-in, cached-out or program block: it fails exactly when there
   * is no terminal of the type; otherwise it changes no terminal type and
   * no kernel order id, only the first terminal of the type, whose
   * counters grow by the kernel's count times its (possibly reconciled)
   * amounts and which gains the kernel's bit.
   */
  lemma CachedStepEffect(st: PrepState, k: nat, t: TerminalType, reconcile: bool)
    requires k < |st.sections| && k < |st.payloads| && IsCachedType(t)
    ensures var r := CachedStep(st, k, t, reconcile);
      var first := FirstFrom(st.reqs, IsOfType(t), 0);
      && (r.PrepFailed? <==> first.None?)
      && (r.PrepFailed? ==> r.status == IA_ERR_INTERNAL)
      && (r.Prepared? ==> SameLayout(st.reqs, r.st.reqs) && CountersGrow(st.reqs, r.st.reqs))
      && (r.Prepared? ==> forall j :: 0 <= j < |st.reqs| && j != first.value ==> r.st.reqs[j] == st.reqs[j])
      && (r.Prepared? && InKernelOrder(st.reqs[first.value], k) ==>
            var i := first.value;
            && k in r.st.reqs[i].kernelBitmap
            && r.st.reqs[i].sectionCount
               == st.reqs[i].sectionCount + KernelCount(r.st.reqs[i], k) * CachedAmount(r.st.sections[k], t)
            && r.st.reqs[i].payloadSize
               == st.reqs[i].payloadSize + KernelCount(r.st.reqs[i], k) * CachedAmount(r.st.payloads[k], t))
  {
    var first := FirstFrom(st.reqs, IsOfType(t), 0);
    if first.Some? {
      var i := first.value;
      var tr := st.reqs[i];
      if InKernelOrder(tr, k) {
        var st1 := if reconcile && tr.kernelOrder.Some? then Reconciled(st, i, k, t) else st;
        if reconcile && tr.kernelOrder.Some? {
          ReconciledKeeps(st, i, k, t);
        } else {
          SameLayoutRefl(st.reqs);
        }
        AddKernelEffect(st1, i, k, t);
        var st2 := AddKernel(st1, i, k, t);
        SameLayoutTrans(st.reqs, st1.reqs, st2.reqs);
        assert CountersGrow(st.reqs, st2.reqs);
      } else {
        SameLayoutRefl(st.reqs);
      }
    }
  }
  /**
   * A spatial block changes no terminal type and no order id; the first
   * terminal of the type holding just the kernel's bit, when it takes the
   * kernel, grows by the kernel's amounts; nothing else changes.
   */
  lemma SpatialStepEffect(st: PrepState, k: nat, t: TerminalType, sections: nat, payload: nat)
    ensures var r := SpatialStep(st, k, t, sections, payload);
      && SameLayout(st.reqs, r.reqs) && CountersGrow(st.reqs, r.reqs)
      && r.sections == st.sections && r.payloads == st.payloads && r.payloadSize == st.payloadSize
      && (FirstFrom(st.reqs, IsOfTypeWithBitmap(t, {k}), 0).None? ==> r == st)
      && (FirstFrom(st.reqs, IsOfTypeWithBitmap(t, {k}), 0).Some? ==>
            var i := FirstFrom(st.reqs, IsOfTypeWithBitmap(t, {k}), 0).value;
            && (forall j :: 0 <= j < |st.reqs| && j != i ==> r.reqs[j] == st.reqs[j])
            && (!InKernelOrder(st.reqs[i], k) ==> r == st)
            && (InKernelOrder(st.reqs[i], k) ==>
            && r.reqs[i].kernelBitmap == {k}
            && r.reqs[i].sectionCount == st.reqs[i].sectionCount + sections
            && r.reqs[i].payloadSize == st.reqs[i].payloadSize + payload))
  {
  }

  /** Whether the terminals include one of type t. */
  predicate HasType(reqs: seq<TerminalReq>, t: TerminalType)
  {
    FirstFrom(reqs, IsOfType(t), 0).Some?
  }

  /** Terminals with the same types have the same first terminal of each type. */
  lemma {:induction false} FirstOfTypeSame(a: seq<TerminalReq>, b: seq<TerminalReq>, t: TerminalType, k: nat)
    requires SameLayout(a, b) && k <= |a|
    ensures FirstFrom(a, IsOfType(t), k) == FirstFrom(b, IsOfType(t), k)
    decreases |a| - k
  {
    if k < |a| {
      FirstOfTypeSame(a, b, t, k + 1);
    }
  }

  /**
   * The loop body for kernel k can proceed: the id is within the kernel
   * tables and, for each cached or program type the kernel has sections
   * of, a terminal of that type exists.
   */
  predicate StepOk(reqs: seq<TerminalReq>, k: nat, maxKernels: nat, p2pSections: seq<TermCounts>)
    requires |p2pSections| == maxKernels
  {
    && k < maxKernels
    && (p2pSections[k].paramIn != 0 ==> HasType(reqs, PARAM_CACHED_IN))
    && (p2pSections[k].paramOut != 0 ==> HasType(reqs, PARAM_CACHED_OUT))
    && (p2pSections[k].program != 0 ==> HasType(reqs, PROGRAM))
  }

  lemma CountersGrowTrans(a: seq<TerminalReq>, b: seq<TerminalReq>, c: seq<TerminalReq>)
    requires |a| == |b| == |c| && CountersGrow(a, b) && CountersGrow(b, c)
    ensures CountersGrow(a, c)
  {
  }

  /**
   * A cached-in, cached-out or program block on a running loop fails
   * exactly when the kernel has sections of the type and no terminal has
   * the type; otherwise the layout stays, counters grow, and of the
   * kernel's counts only the one for the type can change.
   */
  lemma CachedBlockEffect(r: PrepResult, k: nat, t: TerminalType, reconcile: bool)
    requires r.Prepared? && k < |r.st.sections| && k < |r.st.payloads| && IsCachedType(t)
    ensures var r' := CachedBlock(r, k, t, reconcile);
      && (r'.PrepFailed? <==> CachedAmount(r.st.sections[k], t) != 0 && !HasType(r.st.reqs, t))
      && (r'.PrepFailed? ==> r'.status == IA_ERR_INTERNAL)
      && (r'.Prepared? ==>
            && SameLayout(r.st.reqs, r'.st.reqs) && CountersGrow(r.st.reqs, r'.st.reqs)
            && r'.st.sections[k] == WithCached(r.st.sections[k], t, CachedAmount(r'.st.sections[k], t)))
  {
    if CachedAmount(r.st.sections[k], t) != 0 {
      CachedStepEffect(r.st, k, t, reconcile);
      var first := FirstFrom(r.st.reqs, IsOfType(t), 0);
      if first.Some? && InKernelOrder(r.st.reqs[first.value], k) && reconcile && r.st.reqs[first.value].kernelOrder.Some? {
        ReconciledAgrees(r.st, first.value, k, t);
      }
    } else {
      SameLayoutRefl(r.st.reqs);
    }
  }

  /** A spatial block on a running loop never fails, keeps the layout and the kernel tables, and counters grow. */
  lemma SpatialBlockEffect(r: PrepResult, k: nat, t: TerminalType)
    requires r.Prepared? && k < |r.st.sections| && k < |r.st.payloads|
    ensures var r' := SpatialBlock(r, k, t);
      && r'.Prepared? && SameLayout(r.st.reqs, r'.st.reqs) && CountersGrow(r.st.reqs, r'.st.reqs)
      && r'.st.sections == r.st.sections && r'.st.payloads == r.st.payloads
  {
    if SpatialAmount(r.st.sections[k], t) != 0 {
      SpatialStepEffect(r.st, k, t, SpatialAmount(r.st.sections[k], t), SpatialAmount(r.st.payloads[k], t));
    } else {
      SameLayoutRefl(r.st.reqs);
    }
  }

  /**
   * One loop iteration fails exactly when the kernel cannot proceed; when
   * it succeeds no terminal type or order id changes and no counter
   * shrinks.
   */
  lemma KernelStepEffect(st: PrepState, k: nat, maxKernels: nat, p2pSections: seq<TermCounts>, p2pPayloads: seq<TermCounts>)
    requires |p2pSections| == maxKernels && |p2pPayloads| == maxKernels && Shaped(st, maxKernels)
    ensures var r := KernelStep(Prepared(st), k, maxKernels, p2pSections, p2pPayloads);
      && (r.Prepared? <==> StepOk(st.reqs, k, maxKernels, p2pSections))
      && (r.PrepFailed? ==> r.status == IA_ERR_INTERNAL)
      && (r.Prepared? ==> SameLayout(st.reqs, r.st.reqs) && CountersGrow(st.reqs, r.st.reqs))
  {
    if k < maxKernels {
      var s := st.(sections := st.sections[k := p2pSections[k]], payloads := st.payloads[k := p2pPayloads[k]]);
      CachedBlocksEffect(s, k, p2pSections[k]);
      var r3 := CachedBlock(CachedBlock(CachedBlock(Prepared(s), k, PARAM_CACHED_IN, true), k, PARAM_CACHED_OUT, false), k, PROGRAM, true);
      if r3.Prepared? {
        SpatialBlocksEffect(r3, k);
        var r5 := SpatialBlock(SpatialBlock(r3, k, PARAM_SPATIAL_IN), k, PARAM_SPATIAL_OUT);
        SameLayoutTrans(s.reqs, r3.st.reqs, r5.st.reqs);
        CountersGrowTrans(s.reqs, r3.st.reqs, r5.st.reqs);
      }
    }
  }

  /** The three cached and program blocks of one iteration, run on the kernel's counts c. */
  lemma CachedBlocksEffect(s: PrepState, k: nat, c: TermCounts)
    requires k < |s.sections| && k < |s.payloads| && s.sections[k] == c
    ensures var r3 := CachedBlock(CachedBlock(CachedBlock(Prepared(s), k, PARAM_CACHED_IN, true), k, PARAM_CACHED_OUT, false), k, PROGRAM, true);
      && (r3.Prepared? <==>
            && (c.paramIn != 0 ==> HasType(s.reqs, PARAM_CACHED_IN))
            && (c.paramOut != 0 ==> HasType(s.reqs, PARAM_CACHED_OUT))
            && (c.program != 0 ==> HasType(s.reqs, PROGRAM)))
      && (r3.PrepFailed? ==> r3.status == IA_ERR_INTERNAL)
      && (r3.Prepared? ==>
            && SameLayout(s.reqs, r3.st.reqs) && CountersGrow(s.reqs, r3.st.reqs)
            && |r3.st.sections| == |s.sections| && |r3.st.payloads| == |s.payloads|)
  {
    var r1 := CachedBlock(Prepared(s), k, PARAM_CACHED_IN, true);
    CachedBlockEffect(Prepared(s), k, PARAM_CACHED_IN, true);
    if r1.Prepared? {
      var r2 := CachedBlock(r1, k, PARAM_CACHED_OUT, false);
      CachedBlockEffect(r1, k, PARAM_CACHED_OUT, false);
      FirstOfTypeSame(s.reqs, r1.st.reqs, PARAM_CACHED_OUT, 0);
      FirstOfTypeSame(s.reqs, r1.st.reqs, PROGRAM, 0);
      if r2.Prepared? {
        SameLayoutTrans(s.reqs, r1.st.reqs, r2.st.reqs);
        CountersGrowTrans(s.reqs, r1.st.reqs, r2.st.reqs);
        var r3 := CachedBlock(r2, k, PROGRAM, true);
        CachedBlockEffect(r2, k, PROGRAM, true);
        FirstOfTypeSame(s.reqs, r2.st.reqs, PROGRAM, 0);
        if r3.Prepared? {
          SameLayoutTrans(s.reqs, r2.st.reqs, r3.st.reqs);
          CountersGrowTrans(s.reqs, r2.st.reqs, r3.st.reqs);
        }
      }
    }
  }

  /** The two spatial blocks of one iteration never fail, keep the layout, and counters grow. */
  lemma SpatialBlocksEffect(r3: PrepResult, k: nat)
    requires r3.Prepared? && k < |r3.st.sections| && k < |r3.st.payloads|
    ensures var r5 := SpatialBlock(SpatialBlock(r3, k, PARAM_SPATIAL_IN), k, PARAM_SPATIAL_OUT);
      && r5.Prepared? && SameLayout(r3.st.reqs, r5.st.reqs) && CountersGrow(r3.st.reqs, r5.st.reqs)
  {
    var r4 := SpatialBlock(r3, k, PARAM_SPATIAL_IN);
    SpatialBlockEffect(r3, k, PARAM_SPATIAL_IN);
    SpatialBlockEffect(r4, k, PARAM_SPATIAL_OUT);
    var r5 := SpatialBlock(r4, k, PARAM_SPATIAL_OUT);
    SameLayoutTrans(r3.st.reqs, r4.st.reqs, r5.st.reqs);
    CountersGrowTrans(r3.st.reqs, r4.st.reqs, r5.st.reqs);
  }

  /** Whether a kernel can proceed depends only on the terminal types. */
  lemma StepOkSame(a: seq<TerminalReq>, b: seq<TerminalReq>, k: nat, maxKernels: nat, p2pSections: seq<TermCounts>)
    requires SameLayout(a, b) && |p2pSections| == maxKernels
    ensures StepOk(a, k, maxKernels, p2pSections) == StepOk(b, k, maxKernels, p2pSections)
  {
    FirstOfTypeSame(a, b, PARAM_CACHED_IN, 0);
    FirstOfTypeSame(a, b, PARAM_CACHED_OUT, 0);
    FirstOfTypeSame(a, b, PROGRAM, 0);
  }

  /**
   * The whole kernel loop: it stops with ia_err_internal exactly when some
   * visited kernel cannot proceed; otherwise it changes no terminal type
   * and no order id, and no terminal's section count or payload size
   * shrinks.
   */
  lemma {:induction false} KernelsEffect(st: PrepState, ks: seq<nat>, maxKernels: nat, p2pSections: seq<TermCounts>, p2pPayloads: seq<TermCounts>)
    requires |p2pSections| == maxKernels && |p2pPayloads| == maxKernels && Shaped(st, maxKernels)
    ensures var r := Kernels(Prepared(st), ks, maxKernels, p2pSections, p2pPayloads);
      && (r.Prepared? <==> forall j :: 0 <= j < |ks| ==> StepOk(st.reqs, ks[j], maxKernels, p2pSections))
      && (r.PrepFailed? ==> r.status == IA_ERR_INTERNAL)
      && (r.Prepared? ==> SameLayout(st.reqs, r.st.reqs) && CountersGrow(st.reqs, r.st.reqs))
    decreases |ks|
  {
    if ks == [] {
      SameLayoutRefl(st.reqs);
    } else {
      var r1 := KernelStep(Prepared(st), ks[0], maxKernels, p2pSections, p2pPayloads);
      KernelStepEffect(st, ks[0], maxKernels, p2pSections, p2pPayloads);
      if r1.PrepFailed? {
        KernelsStuck(r1, ks[1..], maxKernels, p2pSections, p2pPayloads);
      } else {
        KernelsEffect(r1.st, ks[1..], maxKernels, p2pSections, p2pPayloads);
        var r := Kernels(r1, ks[1..], maxKernels, p2pSections, p2pPayloads);
        forall j | 1 <= j < |ks|
          ensures StepOk(st.reqs, ks[j], maxKernels, p2pSections) == StepOk(r1.st.reqs, ks[1..][j - 1], maxKernels, p2pSections)
        {
          StepOkSame(st.reqs, r1.st.reqs, ks[j], maxKernels, p2pSections);
        }
        if r.Prepared? {
          SameLayoutTrans(st.reqs, r1.st.reqs, r.st.reqs);
          CountersGrowTrans(st.reqs, r1.st.reqs, r.st.reqs);
        }
      }
    }
  }
  // ---------------------------------------------------------------------
  // prepare, third part: the final kernel bitmap (203-236) and
  // disableZeroSizedTerminals (598-644).
  // ---------------------------------------------------------------------

  /** The kernels a terminal's manifest associates it with, as disableZeroSizedTerminals reads them. */
  function TerminalKernels(m: TerminalManifest): KernelBitmap
  {
    match m.termType
    case PARAM_SPATIAL_IN => {m.spatialKernel}
    case PARAM_SPATIAL_OUT => {m.spatialKernel}
    case PARAM_CACHED_IN => KernelsOf(m.sections)
    case PARAM_CACHED_OUT => KernelsOf(m.sections)
    case PROGRAM => KernelsOf(m.sections)
    case _ => {}
  }

  /** The kernels of the first n terminals whose payload size is zero. */
  function ZeroSizedKernels(ms: seq<TerminalManifest>, reqs: seq<TerminalReq>, n: nat): KernelBitmap
    requires n <= |ms| && n <= |reqs|
  {
    if n == 0 then {}
    else ZeroSizedKernels(ms, reqs, n - 1) + (if reqs[n - 1].payloadSize == 0 then TerminalKernels(ms[n - 1]) else {})
  }

  /** A kernel is disabled for a zero-sized terminal exactly when one of the first n terminals has no payload and lists it. */
  lemma {:induction false} ZeroSizedMembers(ms: seq<TerminalManifest>, reqs: seq<TerminalReq>, n: nat, k: nat)
    requires n <= |ms| && n <= |reqs|
    ensures k in ZeroSizedKernels(ms, reqs, n) <==>
      exists i :: 0 <= i < n && reqs[i].payloadSize == 0 && k in TerminalKernels(ms[i])
    decreases n
  {
    if n > 0 {
      ZeroSizedMembers(ms, reqs, n - 1, k);
      if reqs[n - 1].payloadSize == 0 && k in TerminalKernels(ms[n - 1]) {
        assert 0 <= n - 1 < n && reqs[n - 1].payloadSize == 0 && k in TerminalKernels(ms[n - 1]);
      }
    }
  }

  /**
   * disableZeroSizedTerminals: the kernels of every terminal without
   * payload are removed from the bitmap; a terminal index at or beyond the
   * requirement table (getPayloadSize's bound) stops it with
   * UNKNOWN_ERROR, leaving the bitmap as it was.
   */
  method DisableZeroSizedTerminals(ms: seq<TerminalManifest>, reqs: seq<TerminalReq>, b: KernelBitmap)
    returns (status: Status, r: KernelBitmap)
    ensures |ms| <= |reqs| ==> status == OK && r == b - ZeroSizedKernels(ms, reqs, |ms|)
    ensures |ms| > |reqs| ==> status == UNKNOWN_ERROR && r == b
  {
    var disabled: KernelBitmap := {};
    var i := 0;
    while i < |ms|
      invariant i <= |ms| && i <= |reqs| && disabled == ZeroSizedKernels(ms, reqs, i)
    {
      if i >= |reqs| {
        return UNKNOWN_ERROR, b;
      }
      var terminalKernels: KernelBitmap := {};
      if reqs[i].payloadSize == 0 {
        match ms[i].termType {
          case PARAM_SPATIAL_IN => terminalKernels := {ms[i].spatialKernel};
          case PARAM_SPATIAL_OUT => terminalKernels := {ms[i].spatialKernel};
          case PARAM_CACHED_IN => terminalKernels := SectionKernelBitmap(ms[i].sections);
          case PARAM_CACHED_OUT => terminalKernels := SectionKernelBitmap(ms[i].sections);
          case PROGRAM => terminalKernels := SectionKernelBitmap(ms[i].sections);
          case _ =>
        }
      }
      disabled := disabled + terminalKernels;
      i := i + 1;
    }
    return OK, b - disabled;
  }

  /** The data kernels of the terminals the client disabled (mDisableDataTermials). */
  function DisabledDataKernels(ms: seq<TerminalManifest>, items: seq<nat>): KernelBitmap
    requires forall j :: 0 <= j < |items| ==> items[j] < |ms|
  {
    if items == [] then {} else DisabledDataKernels(ms, items[..|items| - 1]) + ms[items[|items| - 1]].dataKernels
  }

  /** The kernels removed for disabled data terminals are those of the listed terminals. */
  lemma {:induction false} DisabledDataMembers(ms: seq<TerminalManifest>, items: seq<nat>, k: nat)
    requires forall j :: 0 <= j < |items| ==> items[j] < |ms|
    ensures k in DisabledDataKernels(ms, items) <==> exists j :: 0 <= j < |items| && k in ms[items[j]].dataKernels
    decreases |items|
  {
    if items != [] {
      var p := items[..|items| - 1];
      DisabledDataMembers(ms, p, k);
      if exists j :: 0 <= j < |p| && k in ms[p[j]].dataKernels {
        var j :| 0 <= j < |p| && k in ms[p[j]].dataKernels;
        assert items[j] == p[j];
      }
      if exists j :: 0 <= j < |items| && k in ms[items[j]].dataKernels {
        var j :| 0 <= j < |items| && k in ms[items[j]].dataKernels;
        if j < |p| {
          assert items[j] == p[j];
        }
      }
    }
  }

  /** The loop over the disabled data terminals. */
  method RemoveDisabledData(ms: seq<TerminalManifest>, items: seq<nat>, b: KernelBitmap) returns (r: KernelBitmap)
    requires forall j :: 0 <= j < |items| ==> items[j] < |ms|
    ensures r == b - DisabledDataKernels(ms, items)
  {
    r := b;
    var n := 0;
    while n < |items|
      invariant n <= |items| && r == b - DisabledDataKernels(ms, items[..n])
    {
      assert items[..n + 1][..n] == items[..n];
      r := r - ms[items[n]].dataKernels;
      n := n + 1;
    }
    assert items[..n] == items;
  }

  /**
   * The bitmap prepare hands back: the manifest's kernels without those
   * the P2P library disables, those of the disabled data terminals and
   * those of the terminals left without payload.
   */
  function FinalBitmap(manifestKernels: KernelBitmap, p2pDisabled: KernelBitmap, ms: seq<TerminalManifest>,
                       items: seq<nat>, reqs: seq<TerminalReq>): KernelBitmap
    requires forall j :: 0 <= j < |items| ==> items[j] < |ms|
    requires |ms| <= |reqs|
  {
    ((manifestKernels - p2pDisabled) - DisabledDataKernels(ms, items)) - ZeroSizedKernels(ms, reqs, |ms|)
  }

  /**
   * A kernel survives into the final bitmap exactly when the manifest has
   * it, the P2P library does not disable it, no disabled data terminal
   * lists it and no terminal without payload lists it.
   */
  lemma FinalBitmapMembers(manifestKernels: KernelBitmap, p2pDisabled: KernelBitmap, ms: seq<TerminalManifest>,
                           items: seq<nat>, reqs: seq<TerminalReq>, k: nat)
    requires forall j :: 0 <= j < |items| ==> items[j] < |ms|
    requires |ms| <= |reqs|
    ensures k in FinalBitmap(manifestKernels, p2pDisabled, ms, items, reqs) <==>
      && k in manifestKernels && k !in p2pDisabled
      && (forall j :: 0 <= j < |items| ==> k !in ms[items[j]].dataKernels)
      && (forall i :: 0 <= i < |ms| && reqs[i].payloadSize == 0 ==> k !in TerminalKernels(ms[i]))
  {
    DisabledDataMembers(ms, items, k);
    ZeroSizedMembers(ms, reqs, |ms|, k);
  }
  // ---------------------------------------------------------------------
  // payloadSectionSizeSanityTest (833-937).
  // ---------------------------------------------------------------------

  predicate IsParamType(t: TerminalType)
  {
    IsCachedType(t) || t == PARAM_SPATIAL_IN || t == PARAM_SPATIAL_OUT
  }

  predicate IsFrameType(t: TerminalType)
  {
    t == DATA_IN || t == DATA_OUT || t == PROGRAM_CONTROL_INIT
  }

  /** The payload size a parameter terminal type takes from a kernel's sizes. */
  function PayloadAmount(c: TermCounts, t: TerminalType): nat
  {
    if IsCachedType(t) then CachedAmount(c, t) else SpatialAmount(c, t)
  }

  datatype SanityResult = SanityResult(status: PgStatus, next: nat)

  /**
   * payloadSectionSizeSanityTest: the size a kernel takes in the terminal's
   * payload is the larger of what the P2P library reports now and what it
   * reported at prepare time; frame terminals take nothing; other types
   * are css_err_argument; a kernel that would end beyond the buffer is
   * css_err_nomemory.
   */
  function PayloadSectionSizeSanityTest(t: TerminalType, current: TermCounts, init: TermCounts, offset: nat, size: nat): (r: SanityResult)
    ensures r.status in {PG_OK, CSS_ERR_ARGUMENT, CSS_ERR_NOMEMORY}
    ensures r.status == CSS_ERR_ARGUMENT <==> !IsParamType(t) && !IsFrameType(t)
    ensures r.status != CSS_ERR_ARGUMENT ==> (r.status == PG_OK <==> offset + r.next <= size)
    ensures IsParamType(t) ==>
      r.next >= PayloadAmount(current, t) && r.next >= PayloadAmount(init, t)
      && (r.next == PayloadAmount(current, t) || r.next == PayloadAmount(init, t))
    ensures !IsParamType(t) ==> r.next == 0
  {
    if IsParamType(t) then
      var next := if PayloadAmount(current, t) > PayloadAmount(init, t) then PayloadAmount(current, t) else PayloadAmount(init, t);
      SanityResult(if offset + next > size then CSS_ERR_NOMEMORY else PG_OK, next)
    else if IsFrameType(t) then
      SanityResult(if offset > size then CSS_ERR_NOMEMORY else PG_OK, 0)
    else
      SanityResult(CSS_ERR_ARGUMENT, 0)
  }

  // ---------------------------------------------------------------------
  // encode: the kernel loop and its payload offsets (282-455).
  // ---------------------------------------------------------------------

  /** A kernel to encode, with the size to zero first when its order entry asks for it. */
  datatype EncodeItem = EncodeItem(id: nat, zeroSize: Option<nat>)

  function ItemOf(e: KernelInfo): EncodeItem
  {
    EncodeItem(e.id, if e.initialize then Some(e.size) else None)
  }

  /**
   * The kernels of a kernel order from entry i on, up to the first entry
   * whose id is not a kernel, or the end of the order.
   */
  function OrderItems(order: seq<KernelInfo>, maxKernels: nat, i: nat): (items: seq<EncodeItem>)
    requires i <= |order|
    ensures forall j :: 0 <= j < |items| ==> items[j].id < maxKernels
    decreases |order| - i
  {
    if i == |order| || order[i].id >= maxKernels then []
    else [ItemOf(order[i])] + OrderItems(order, maxKernels, i + 1)
  }

  /**
   * The scan of the kernel order as encode writes it: it stops only at an
   * entry whose id is not a kernel; with no such entry it reads past the
   * end of the order (None).
   */
  function OrderItemsAsWritten(order: seq<KernelInfo>, maxKernels: nat, i: nat): Option<seq<EncodeItem>>
    requires i <= |order|
    decreases |order| - i
  {
    if i == |order| then None
    else if order[i].id >= maxKernels then Some([])
    else
      match OrderItemsAsWritten(order, maxKernels, i + 1)
      case None => None
      case Some(rest) => Some([ItemOf(order[i])] + rest)
  }

  /** With an entry beyond the kernels left in the order, the unbounded scan is the bounded one. */
  lemma {:induction false} OrderItemsAgree(order: seq<KernelInfo>, maxKernels: nat, i: nat, stop: nat)
    requires i <= stop < |order| && order[stop].id >= maxKernels
    ensures OrderItemsAsWritten(order, maxKernels, i) == Some(OrderItems(order, maxKernels, i))
    decreases stop - i
  {
    if order[i].id < maxKernels {
      OrderItemsAgree(order, maxKernels, i + 1, stop);
    }
  }

  /** A full kernel order, every entry naming a kernel: the unbounded scan runs off its end. */
  lemma FullOrderOverrun()
    ensures var order := Runs([Section(0, 16)]) + UnusedOrder(1 - |Runs([Section(0, 16)])|);
      order == [KernelInfo(0, 1, 16, false)]
      && OrderItemsAsWritten(order, 1, 0).None?
      && OrderItems(order, 1, 0) == [EncodeItem(0, None)]
  {
    assert [Section(0, 16)][..0] == [];
  }

  /** The kernels encode visits: none for an empty bitmap, else the kernel order's or the bitmap's, lowest first. */
  function EncodeItems(tr: TerminalReq, maxKernels: nat): (items: seq<EncodeItem>)
    requires InWidth(tr.kernelBitmap)
    ensures (tr.kernelOrder.None? ==> forall k :: k in tr.kernelBitmap ==> k < maxKernels) ==>
      forall j :: 0 <= j < |items| ==> items[j].id < maxKernels
  {
    AscendingAt(tr.kernelBitmap);
    if tr.kernelBitmap == {} then []
    else if tr.kernelOrder.Some? then OrderItems(tr.kernelOrder.value, maxKernels, 0)
    else BitmapItems(Ascending(tr.kernelBitmap))
  }

  /** Every kernel the visiting order reaches is a kernel of the bitmap. */
  lemma AscendingAt(b: KernelBitmap)
    requires InWidth(b)
    ensures forall j :: 0 <= j < |Ascending(b)| ==> Ascending(b)[j] in b
  {
    AscendingMembers(b);
    forall j | 0 <= j < |Ascending(b)|
      ensures Ascending(b)[j] in b
    {
      assert Ascending(b)[j] in Ascending(b);
    }
  }

  function BitmapItems(ks: seq<nat>): (items: seq<EncodeItem>)
    ensures |items| == |ks| && forall j :: 0 <= j < |ks| ==> items[j] == EncodeItem(ks[j], None)
  {
    if ks == [] then [] else [EncodeItem(ks[0], None)] + BitmapItems(ks[1..])
  }

  /** Where encode stands: its status, the running payload offset, and the payload ranges it zeroed. */
  datatype EncodeState = EncodeState(status: Status, offset: nat, zeroed: seq<(nat, nat)>)

  /**
   * One kernel of encode as written: the entry's range is zeroed before
   * the sanity test looks at the buffer size.
   */
  function EncodeStepAsWritten(es: EncodeState, t: TerminalType, item: EncodeItem, current: TermCounts, init: TermCounts, size: nat): EncodeState
  {
    if es.status != OK then es
    else
      var zeroed := if item.zeroSize.Some? then es.zeroed + [(es.offset, item.zeroSize.value)] else es.zeroed;
      var r := PayloadSectionSizeSanityTest(t, current, init, es.offset, size);
      if r.status != PG_OK then EncodeState(UNKNOWN_ERROR, es.offset, zeroed)
      else EncodeState(OK, es.offset + r.next, zeroed)
  }

  /** A zeroed range that runs past a one-byte payload buffer: the zeroing comes before the size check. */
  lemma ZeroBeforeCheckOverrun()
    ensures var es := EncodeStepAsWritten(EncodeState(OK, 0, []), PARAM_CACHED_IN, EncodeItem(0, Some(16)),
                                           TermCounts(16, 0, 0, 0, 0), TermCounts(16, 0, 0, 0, 0), 1);
      es.status == UNKNOWN_ERROR && es.zeroed == [(0, 16)] && 0 + 16 > 1
  {
  }

  /** Every zeroed range ends within the payload buffer. */
  predicate ZeroedInBuffer(zeroed: seq<(nat, nat)>, size: nat)
  {
    forall j :: 0 <= j < |zeroed| ==> zeroed[j].0 + zeroed[j].1 <= size
  }

  /**
   * One kernel of encode with the order corrected: the sanity test first,
   * then the zeroing, refused with UNKNOWN_ERROR like the sanity test when
   * it would leave the buffer.
   */
  function EncodeStep(es: EncodeState, t: TerminalType, item: EncodeItem, current: TermCounts, init: TermCounts, size: nat): (r: EncodeState)
    requires es.offset <= size && ZeroedInBuffer(es.zeroed, size)
    ensures r.offset <= size && ZeroedInBuffer(r.zeroed, size)
    ensures r.status == OK ==> es.status == OK
  {
    if es.status != OK then es
    else
      var r := PayloadSectionSizeSanityTest(t, current, init, es.offset, size);
      if r.status != PG_OK then EncodeState(UNKNOWN_ERROR, es.offset, es.zeroed)
      else if item.zeroSize.Some? && es.offset + item.zeroSize.value > size then EncodeState(UNKNOWN_ERROR, es.offset, es.zeroed)
      else
        var zeroed := if item.zeroSize.Some? then es.zeroed + [(es.offset, item.zeroSize.value)] else es.zeroed;
        EncodeState(OK, es.offset + r.next, zeroed)
  }

  /** The kernels of encode in turn. */
  function EncodeFrom(es: EncodeState, t: TerminalType, items: seq<EncodeItem>, current: seq<TermCounts>, init: seq<TermCounts>, size: nat): EncodeState
    requires es.offset <= size && ZeroedInBuffer(es.zeroed, size)
    requires forall j :: 0 <= j < |items| ==> items[j].id < |current| && items[j].id < |init|
    decreases |items|
  {
    if items == [] then es
    else
      EncodeFrom(EncodeStep(es, t, items[0], current[items[0].id], init[items[0].id], size), t, items[1..], current, init, size)
  }
  /** Once encode has failed, the remaining kernels change nothing. */
  lemma {:induction false} EncodeStuck(es: EncodeState, t: TerminalType, items: seq<EncodeItem>, current: seq<TermCounts>, init: seq<TermCounts>, size: nat)
    requires es.offset <= size && ZeroedInBuffer(es.zeroed, size) && es.status != OK
    requires forall j :: 0 <= j < |items| ==> items[j].id < |current| && items[j].id < |init|
    ensures EncodeFrom(es, t, items, current, init, size) == es
    decreases |items|
  {
    if items != [] {
      EncodeStuck(es, t, items[1..], current, init, size);
    }
  }

  /**
   * Encoding never leaves the payload buffer: every kernel's payload
   * starts and ends within it, every zeroed range lies in it, and a
   * successful encode visited every kernel with each one's payload
   * following the previous one's.
   */
  lemma {:induction false} EncodeWithinBuffer(es: EncodeState, t: TerminalType, items: seq<EncodeItem>, current: seq<TermCounts>, init: seq<TermCounts>, size: nat)
    requires es.offset <= size && ZeroedInBuffer(es.zeroed, size)
    requires forall j :: 0 <= j < |items| ==> items[j].id < |current| && items[j].id < |init|
    ensures var r := EncodeFrom(es, t, items, current, init, size);
      && r.offset <= size && ZeroedInBuffer(r.zeroed, size)
      && r.offset >= es.offset
      && (r.status == OK ==> es.status == OK && |r.zeroed| == |es.zeroed| + |ZeroSizes(items)|)
    decreases |items|
  {
    if items != [] {
      var es1 := EncodeStep(es, t, items[0], current[items[0].id], init[items[0].id], size);
      EncodeWithinBuffer(es1, t, items[1..], current, init, size);
      assert ZeroSizes(items) == ZeroSizes([items[0]]) + ZeroSizes(items[1..]);
    }
  }

  /** The zeroings a list of kernels asks for. */
  function ZeroSizes(items: seq<EncodeItem>): seq<nat>
  {
    if items == [] then []
    else (if items[0].zeroSize.Some? then [items[0].zeroSize.value] else []) + ZeroSizes(items[1..])
  }

  /** One kernel of encode: sanity test, zeroing and the advance of the offset. */
  method EncodeKernel(es: EncodeState, t: TerminalType, item: EncodeItem, current: TermCounts, init: TermCounts, size: nat)
    returns (r: EncodeState)
    requires es.status == OK && es.offset <= size && ZeroedInBuffer(es.zeroed, size)
    ensures r == EncodeStep(es, t, item, current, init, size)
  {
    var result := PayloadSectionSizeSanityTest(t, current, init, es.offset, size);
    if result.status != PG_OK {
      return es.(status := UNKNOWN_ERROR);
    }
    r := es;
    if item.zeroSize.Some? {
      if es.offset + item.zeroSize.value > size {
        return es.(status := UNKNOWN_ERROR);
      }
      r := r.(zeroed := r.zeroed + [(es.offset, item.zeroSize.value)]);
    }
    r := r.(offset := es.offset + result.next);
  }

  /**
   * The kernel loop of encode: through the kernel order up to its first
   * entry that is not a kernel (and, corrected, no further than its end),
   * or through the bitmap lowest bit first; nothing when the bitmap is
   * empty.
   */
  method EncodeKernels(tr: TerminalReq, maxKernels: nat, current: seq<TermCounts>, init: seq<TermCounts>, size: nat)
    returns (es: EncodeState)
    requires InWidth(tr.kernelBitmap) && |current| == maxKernels && |init| == maxKernels
    requires tr.kernelOrder.None? ==> forall k :: k in tr.kernelBitmap ==> k < maxKernels
    ensures forall j :: 0 <= j < |EncodeItems(tr, maxKernels)| ==> EncodeItems(tr, maxKernels)[j].id < maxKernels
    ensures es == EncodeFrom(EncodeState(OK, 0, []), tr.termType, EncodeItems(tr, maxKernels), current, init, size)
  {
    AscendingMembers(tr.kernelBitmap);
    if tr.kernelBitmap == {} {
      es := EncodeState(OK, 0, []);
    } else if tr.kernelOrder.Some? {
      es := EncodeOrder(tr.termType, tr.kernelOrder.value, maxKernels, current, init, size);
    } else {
      es := EncodeBitmap(tr.termType, tr.kernelBitmap, current, init, size);
    }
  }

  /** The kernel-order branch of the encode loop. */
  method EncodeOrder(t: TerminalType, order: seq<KernelInfo>, maxKernels: nat, current: seq<TermCounts>, init: seq<TermCounts>, size: nat)
    returns (es: EncodeState)
    requires |current| == maxKernels && |init| == maxKernels
    ensures es == EncodeFrom(EncodeState(OK, 0, []), t, OrderItems(order, maxKernels, 0), current, init, size)
  {
    es := EncodeState(OK, 0, []);
    var kernelIndex := 0;
    while kernelIndex < |order| && order[kernelIndex].id < maxKernels
      invariant OrderLoop(es, t, order, maxKernels, kernelIndex, current, init, size)
      decreases |order| - kernelIndex
    {
      var item := ItemOf(order[kernelIndex]);
      OrderLoopStep(es, t, order, maxKernels, kernelIndex, current, init, size);
      es := EncodeKernel(es, t, item, current[item.id], init[item.id], size);
      kernelIndex := kernelIndex + 1;
      if es.status != OK {
        return;
      }
    }
  }

  /** The invariant of the kernel-order loop: encoding the rest of the order completes the whole. */
  ghost predicate OrderLoop(es: EncodeState, t: TerminalType, order: seq<KernelInfo>, maxKernels: nat, i: nat,
                            current: seq<TermCounts>, init: seq<TermCounts>, size: nat)
  {
    i <= |order| && |current| == maxKernels && |init| == maxKernels
    && es.status == OK && es.offset <= size && ZeroedInBuffer(es.zeroed, size)
    && EncodeFrom(es, t, OrderItems(order, maxKernels, i), current, init, size)
       == EncodeFrom(EncodeState(OK, 0, []), t, OrderItems(order, maxKernels, 0), current, init, size)
  }

  /** One turn of the kernel-order loop keeps its invariant, or fails with the outcome of the whole order. */
  lemma OrderLoopStep(es: EncodeState, t: TerminalType, order: seq<KernelInfo>, maxKernels: nat, i: nat,
                      current: seq<TermCounts>, init: seq<TermCounts>, size: nat)
    requires OrderLoop(es, t, order, maxKernels, i, current, init, size) && i < |order| && order[i].id < maxKernels
    ensures var item := ItemOf(order[i]);
      var next := EncodeStep(es, t, item, current[item.id], init[item.id], size);
      (next.status == OK ==> OrderLoop(next, t, order, maxKernels, i + 1, current, init, size))
      && (next.status != OK ==> next == EncodeFrom(EncodeState(OK, 0, []), t, OrderItems(order, maxKernels, 0), current, init, size))
  {
    var item := ItemOf(order[i]);
    var rest := OrderItems(order, maxKernels, i + 1);
    assert OrderItems(order, maxKernels, i) == [item] + rest;
    assert ([item] + rest)[1..] == rest;
    var next := EncodeStep(es, t, item, current[item.id], init[item.id], size);
    if next.status != OK {
      EncodeStuck(next, t, rest, current, init, size);
    }
  }

  /** The bitmap branch of the encode loop: lowest bit first, each bit cleared once encoded. */
  method EncodeBitmap(t: TerminalType, bitmap: KernelBitmap, current: seq<TermCounts>, init: seq<TermCounts>, size: nat)
    returns (es: EncodeState)
    requires InWidth(bitmap) && |current| == |init|
    requires forall k :: k in bitmap ==> k < |current|
    ensures forall j :: 0 <= j < |Ascending(bitmap)| ==> Ascending(bitmap)[j] < |current|
    ensures es == EncodeFrom(EncodeState(OK, 0, []), t, BitmapItems(Ascending(bitmap)), current, init, size)
  {
    AscendingMembers(bitmap);
    ghost var all := Ascending(bitmap);
    forall j | 0 <= j < |all|
      ensures all[j] < |current|
    {
      assert all[j] in Ascending(bitmap);
    }
    es := EncodeState(OK, 0, []);
    var b := bitmap;
    while b != {}
      invariant BitmapLoop(es, t, b, all, current, init, size)
      decreases |b|
    {
      var kernelId := LowestSetBit(b);
      BitmapLoopStep(es, t, b, all, current, init, size);
      es := EncodeKernel(es, t, EncodeItem(kernelId, None), current[kernelId], init[kernelId], size);
      b := b - {kernelId};
      if es.status != OK {
        return;
      }
    }
  }

  /** The bitmap loop's invariant: encoding the kernels left in b from es finishes the whole bitmap. */
  ghost predicate BitmapLoop(es: EncodeState, t: TerminalType, b: KernelBitmap, all: seq<nat>,
                             current: seq<TermCounts>, init: seq<TermCounts>, size: nat)
  {
    InWidth(b) && |current| == |init| && (forall j :: 0 <= j < |Ascending(b)| ==> Ascending(b)[j] < |current|)
    && (forall j :: 0 <= j < |all| ==> all[j] < |current|)
    && es.status == OK && es.offset <= size && ZeroedInBuffer(es.zeroed, size)
    && EncodeFrom(es, t, BitmapItems(Ascending(b)), current, init, size)
       == EncodeFrom(EncodeState(OK, 0, []), t, BitmapItems(all), current, init, size)
  }

  /** One turn of the bitmap loop keeps its invariant, or fails with the outcome of the whole bitmap. */
  lemma BitmapLoopStep(es: EncodeState, t: TerminalType, b: KernelBitmap, all: seq<nat>,
                       current: seq<TermCounts>, init: seq<TermCounts>, size: nat)
    requires BitmapLoop(es, t, b, all, current, init, size) && b != {}
    ensures Lowest(b) < |current|
    ensures var k := Lowest(b);
      var next := EncodeStep(es, t, EncodeItem(k, None), current[k], init[k], size);
      (next.status == OK ==> BitmapLoop(next, t, b - {k}, all, current, init, size))
      && (next.status != OK ==> next == EncodeFrom(EncodeState(OK, 0, []), t, BitmapItems(all), current, init, size))
  {
    var k := Lowest(b);
    EncodeBitmapAdvance(es, t, b, current, init, size);
    var next := EncodeStep(es, t, EncodeItem(k, None), current[k], init[k], size);
    if next.status != OK {
      EncodeStuck(next, t, BitmapItems(Ascending(b - {k})), current, init, size);
    }
  }

  /** One turn of the bitmap loop: encoding the lowest kernel leaves the others to encode. */
  lemma EncodeBitmapAdvance(es: EncodeState, t: TerminalType, b: KernelBitmap, current: seq<TermCounts>, init: seq<TermCounts>, size: nat)
    requires InWidth(b) && b != {} && |current| == |init|
    requires forall j :: 0 <= j < |Ascending(b)| ==> Ascending(b)[j] < |current|
    requires es.offset <= size && ZeroedInBuffer(es.zeroed, size)
    ensures Lowest(b) < |current| && InWidth(b - {Lowest(b)})
    ensures forall j :: 0 <= j < |Ascending(b - {Lowest(b)})| ==> Ascending(b - {Lowest(b)})[j] < |current|
    ensures var k := Lowest(b);
      EncodeFrom(es, t, BitmapItems(Ascending(b)), current, init, size)
      == EncodeFrom(EncodeStep(es, t, EncodeItem(k, None), current[k], init[k], size), t, BitmapItems(Ascending(b - {k})), current, init, size)
  {
    var k := Lowest(b);
    var rest := Ascending(b);
    AscendingStep(b);
    assert rest[0] == k && rest[1..] == Ascending(b - {k});
    forall j | 0 <= j < |rest| - 1 ensures rest[1..][j] < |current| {
      assert rest[1..][j] == rest[j + 1];
    }
    EncodeBitmapStep(es, t, rest, current, init, size);
  }

  /** Encoding a list of bitmap kernels is encoding the first, then the others. */
  lemma EncodeBitmapStep(es: EncodeState, t: TerminalType, ks: seq<nat>, current: seq<TermCounts>, init: seq<TermCounts>, size: nat)
    requires es.offset <= size && ZeroedInBuffer(es.zeroed, size) && ks != [] && |current| == |init|
    requires forall j :: 0 <= j < |ks| ==> ks[j] < |current|
    ensures EncodeFrom(es, t, BitmapItems(ks), current, init, size)
      == EncodeFrom(EncodeStep(es, t, EncodeItem(ks[0], None), current[ks[0]], init[ks[0]], size), t, BitmapItems(ks[1..]), current, init, size)
  {
    assert BitmapItems(ks) == [EncodeItem(ks[0], None)] + BitmapItems(ks[1..]);
  }

  // ---------------------------------------------------------------------
  // Kernel ids stay within the kernel tables and the bitmap width.
  // ---------------------------------------------------------------------

  /** Every terminal bitmap names kernels the kernel tables and a 64-bit bitmap can hold. */
  predicate BitmapsWithin(reqs: seq<TerminalReq>, maxKernels: nat)
  {
    forall i :: 0 <= i < |reqs| ==> forall k :: k in reqs[i].kernelBitmap ==> k < maxKernels && k < KERNEL_BITMAP_BITS
  }

  /** The kernel loop's state fits the adaptor: shaped tables, bitmaps in range. */
  predicate StateFits(st: PrepState, maxKernels: nat)
  {
    Shaped(st, maxKernels) && BitmapsWithin(st.reqs, maxKernels)
  }

  /** A cached block keeps the state fitting when its kernel is in range, failed or not. */
  lemma CachedBlockFits(r: PrepResult, k: nat, t: TerminalType, reconcile: bool, maxKernels: nat)
    requires StateFits(r.st, maxKernels) && k < maxKernels && k < KERNEL_BITMAP_BITS
    ensures StateFits(CachedBlock(r, k, t, reconcile).st, maxKernels)
    ensures |CachedBlock(r, k, t, reconcile).st.reqs| == |r.st.reqs|
  {
    if r.Prepared? && CachedAmount(r.st.sections[k], t) != 0 {
      var st := r.st;
      match FirstFrom(st.reqs, IsOfType(t), 0)
      case None =>
      case Some(i) =>
        if InKernelOrder(st.reqs[i], k) {
          var st1 := if reconcile && st.reqs[i].kernelOrder.Some? then Reconciled(st, i, k, t) else st;
          assert |st1.reqs| == |st.reqs| && StateFits(st1, maxKernels);
          var st2 := AddKernel(st1, i, k, t);
          assert st2.reqs[i].kernelBitmap == st1.reqs[i].kernelBitmap + {k};
          assert StateFits(st2, maxKernels);
        }
    }
  }

  /** A spatial block keeps the state fitting when its kernel is in range. */
  lemma SpatialBlockFits(r: PrepResult, k: nat, t: TerminalType, maxKernels: nat)
    requires StateFits(r.st, maxKernels) && k < maxKernels && k < KERNEL_BITMAP_BITS
    ensures StateFits(SpatialBlock(r, k, t).st, maxKernels)
    ensures |SpatialBlock(r, k, t).st.reqs| == |r.st.reqs|
  {
  }

  /** One kernel step keeps the state fitting, whether it goes on or stops. */
  lemma KernelStepFits(r: PrepResult, k: nat, maxKernels: nat, p2pSections: seq<TermCounts>, p2pPayloads: seq<TermCounts>)
    requires |p2pSections| == maxKernels && |p2pPayloads| == maxKernels
    requires StateFits(r.st, maxKernels) && k < KERNEL_BITMAP_BITS
    ensures StateFits(KernelStep(r, k, maxKernels, p2pSections, p2pPayloads).st, maxKernels)
    ensures |KernelStep(r, k, maxKernels, p2pSections, p2pPayloads).st.reqs| == |r.st.reqs|
  {
    if r.Prepared? && k < maxKernels {
      var st := r.st.(sections := r.st.sections[k := p2pSections[k]], payloads := r.st.payloads[k := p2pPayloads[k]]);
      var r1 := CachedBlock(Prepared(st), k, PARAM_CACHED_IN, true);
      CachedBlockFits(Prepared(st), k, PARAM_CACHED_IN, true, maxKernels);
      var r2 := CachedBlock(r1, k, PARAM_CACHED_OUT, false);
      CachedBlockFits(r1, k, PARAM_CACHED_OUT, false, maxKernels);
      var r3 := CachedBlock(r2, k, PROGRAM, true);
      CachedBlockFits(r2, k, PROGRAM, true, maxKernels);
      SpatialBlockFits(r3, k, PARAM_SPATIAL_IN, maxKernels);
      SpatialBlockFits(SpatialBlock(r3, k, PARAM_SPATIAL_IN), k, PARAM_SPATIAL_OUT, maxKernels);
    }
  }

  /** The kernel loop over bitmap kernels keeps the state fitting, whether it finishes or stops. */
  lemma {:induction false} KernelsFit(r: PrepResult, ks: seq<nat>, maxKernels: nat, p2pSections: seq<TermCounts>, p2pPayloads: seq<TermCounts>)
    requires |p2pSections| == maxKernels && |p2pPayloads| == maxKernels
    requires StateFits(r.st, maxKernels)
    requires forall j :: 0 <= j < |ks| ==> ks[j] < KERNEL_BITMAP_BITS
    ensures StateFits(Kernels(r, ks, maxKernels, p2pSections, p2pPayloads).st, maxKernels)
    ensures |Kernels(r, ks, maxKernels, p2pSections, p2pPayloads).st.reqs| == |r.st.reqs|
    decreases |ks|
  {
    if ks != [] {
      KernelStepFits(r, ks[0], maxKernels, p2pSections, p2pPayloads);
      KernelsFit(KernelStep(r, ks[0], maxKernels, p2pSections, p2pPayloads), ks[1..], maxKernels, p2pSections, p2pPayloads);
    }
  }

  // ---------------------------------------------------------------------
  // The adaptor object: init (44-60), prepare (62-243), getPayloadSize
  // (270-280) and encode (282-455).
  // ---------------------------------------------------------------------

  /** What init takes from the PG configuration: the manifest's terminals and kernels, the disabled data terminals. */
  datatype PgConfiguration = PgConfiguration(
    terminals: seq<TerminalManifest>,
    kernels: KernelBitmap,
    disabledDataTerminals: seq<nat>)

  const NO_CONFIGURATION: PgConfiguration := PgConfiguration([], {}, [])

  /** Every kernel a terminal manifest names as a bitmap fits the kernel tables and the bitmap width. */
  predicate TerminalFits(m: TerminalManifest, maxKernels: nat)
  {
    && (forall k :: k in m.dataKernels ==> k < maxKernels && k < KERNEL_BITMAP_BITS)
    && m.spatialKernel < maxKernels && m.spatialKernel < KERNEL_BITMAP_BITS
  }

  /**
   * A configuration the adaptor's fixed tables can hold: no more terminals
   * than the requirement table, kernel orders that fit their arrays,
   * kernel ids within range, and disabled data terminals that exist.
   */
  predicate ConfigFits(c: PgConfiguration, maxKernels: nat, maxTerminals: nat)
  {
    && |c.terminals| <= maxTerminals
    && OrdersFit(c.terminals, maxKernels)
    && InWidth(c.kernels)
    && (forall i :: 0 <= i < |c.terminals| ==> TerminalFits(c.terminals[i], maxKernels))
    && (forall j :: 0 <= j < |c.disabledDataTerminals| ==> c.disabledDataTerminals[j] < |c.terminals|)
  }

  /** The terminal loop keeps the terminal bitmaps in range. */
  lemma PreparedTerminalsFit(ms: seq<TerminalManifest>, reqs0: seq<TerminalReq>, maxKernels: nat)
    requires |ms| <= |reqs0| && OrdersFit(ms, maxKernels)
    requires forall i :: 0 <= i < |ms| ==> TerminalFits(ms[i], maxKernels)
    requires BitmapsWithin(reqs0, maxKernels)
    ensures BitmapsWithin(PreparedTerminals(ms, reqs0, maxKernels), maxKernels)
  {
    var reqs := PreparedTerminals(ms, reqs0, maxKernels);
    forall i | 0 <= i < |reqs|
      ensures forall k :: k in reqs[i].kernelBitmap ==> k < maxKernels && k < KERNEL_BITMAP_BITS
    {
      if i < PreparedCount(ms) {
        assert TerminalFits(ms[i], maxKernels);
      }
    }
  }

  /** What the P2P library reports once the PAL data is parsed: kernels, disabled kernels, per-kernel counts. */
  datatype P2pReport = P2pReport(
    kernels: KernelBitmap,
    disabled: KernelBitmap,
    sections: seq<TermCounts>,
    payloads: seq<TermCounts>)

  /** The ipuParameters prepare receives: missing, rejected by the PAL parser, or parsed into a report. */
  datatype PalInput = NoParameters | Unparsable | Parsed(report: P2pReport)

  /** A report of the P2P library's own shape: a 64-bit bitmap and one entry per kernel id. */
  predicate ReportFits(rep: P2pReport, maxKernels: nat)
  {
    InWidth(rep.kernels) && |rep.sections| == maxKernels && |rep.payloads| == maxKernels
  }

  /** What prepare returns and leaves behind: its status, the bitmap it hands out (if any) and the new state. */
  datatype PrepareOutcome = PrepareOutcome(status: PgStatus, bitmap: Option<KernelBitmap>, st: PrepState)

  /**
   * prepare, on the requirements of the manifest's terminals (the entries
   * the terminal lookups search): a missing input is BAD_VALUE and unparsable PAL data is
   * UNKNOWN_ERROR, both changing nothing; then the terminal loop, the
   * kernel loop over the kernels both the library and the manifest
   * enable, and the final bitmap.  A failing stage hands out no bitmap and
   * leaves what it had written.
   */
  function PrepareSpec(c: PgConfiguration, st: PrepState, pal: PalInput, maxKernels: nat): (o: PrepareOutcome)
    requires ConfigFits(c, maxKernels, |st.reqs|) && |c.terminals| == |st.reqs| && StateFits(st, maxKernels)
    requires pal.Parsed? ==> ReportFits(pal.report, maxKernels)
    ensures o.bitmap.Some? <==> o.status == PG_OK
    ensures !pal.Parsed? ==> o.st == st
    ensures |o.st.reqs| == |st.reqs| && StateFits(o.st, maxKernels)
    ensures o.status == PG_OK ==> o.bitmap.value <= c.kernels
  {
    match pal
    case NoParameters => PrepareOutcome(HAL_ERROR(BAD_VALUE), None, st)
    case Unparsable => PrepareOutcome(HAL_ERROR(UNKNOWN_ERROR), None, st)
    case Parsed(rep) =>
      var st1 := st.(reqs := PreparedTerminals(c.terminals, st.reqs, maxKernels));
      PreparedTerminalsFit(c.terminals, st.reqs, maxKernels);
      match FirstFrom(c.terminals, HasEmptyOrder, 0)
      case Some(i) => PrepareOutcome(EmptyOrderError(c.terminals[i].termType), None, st1)
      case None =>
        var ks := Ascending(rep.kernels * c.kernels);
        var r := Kernels(Prepared(st1), ks, maxKernels, rep.sections, rep.payloads);
        KernelsEffect(st1, ks, maxKernels, rep.sections, rep.payloads);
        AscendingAt(rep.kernels * c.kernels);
        KernelsFit(Prepared(st1), ks, maxKernels, rep.sections, rep.payloads);
        if r.PrepFailed? then PrepareOutcome(r.status, None, r.st)
        else PrepareOutcome(PG_OK, Some(FinalBitmap(c.kernels, rep.disabled, c.terminals, c.disabledDataTerminals, r.st.reqs)), r.st)
  }

  /**
   * prepare succeeds exactly when the input is parsed, every cached-in and
   * program terminal has sections, and every kernel enabled by both the
   * library and the manifest is in range and finds a terminal for each
   * cached type it has sections of; the bitmap it then hands out holds
   * exactly the manifest's kernels that nothing disables.  Its failures
   * are BAD_VALUE, UNKNOWN_ERROR, the builders' errors or ia_err_internal.
   */
  lemma PrepareSpecOutcome(c: PgConfiguration, st: PrepState, pal: PalInput, maxKernels: nat, k: nat)
    requires ConfigFits(c, maxKernels, |st.reqs|) && |c.terminals| == |st.reqs| && StateFits(st, maxKernels)
    requires pal.Parsed? ==> ReportFits(pal.report, maxKernels)
    ensures var o := PrepareSpec(c, st, pal, maxKernels);
      && (o.status == PG_OK <==>
            && pal.Parsed?
            && (forall i :: 0 <= i < |c.terminals| ==> !HasEmptyOrder(c.terminals[i]))
            && (forall j :: j in pal.report.kernels * c.kernels ==>
                  StepOk(PreparedTerminals(c.terminals, st.reqs, maxKernels), j, maxKernels, pal.report.sections)))
      && (o.status != PG_OK ==>
            o.status in {HAL_ERROR(BAD_VALUE), HAL_ERROR(UNKNOWN_ERROR), CSS_ERR_ARGUMENT, IA_ERR_INTERNAL})
      && (o.status == PG_OK ==>
            (k in o.bitmap.value <==>
               && k in c.kernels && k !in pal.report.disabled
               && (forall j :: 0 <= j < |c.disabledDataTerminals| ==> k !in c.terminals[c.disabledDataTerminals[j]].dataKernels)
               && (forall i :: 0 <= i < |c.terminals| && o.st.reqs[i].payloadSize == 0 ==> k !in TerminalKernels(c.terminals[i]))))
  {
    if pal.Parsed? {
      var rep := pal.report;
      var reqs1 := PreparedTerminals(c.terminals, st.reqs, maxKernels);
      var st1 := st.(reqs := reqs1);
      match FirstFrom(c.terminals, HasEmptyOrder, 0)
      case Some(i) =>
      case None =>
        var b := rep.kernels * c.kernels;
        AscendingMembers(b);
        KernelsEffect(st1, Ascending(b), maxKernels, rep.sections, rep.payloads);
        var r := Kernels(Prepared(st1), Ascending(b), maxKernels, rep.sections, rep.payloads);
        if r.Prepared? {
          forall j | j in b
            ensures StepOk(reqs1, j, maxKernels, rep.sections)
          {
            var n :| 0 <= n < |Ascending(b)| && Ascending(b)[n] == j;
          }
          FinalBitmapMembers(c.kernels, rep.disabled, c.terminals, c.disabledDataTerminals, r.st.reqs, k);
        } else {
          var n :| 0 <= n < |Ascending(b)| && !StepOk(reqs1, Ascending(b)[n], maxKernels, rep.sections);
          assert Ascending(b)[n] in b;
        }
    }
  }

  /** The stages of prepare once the PAL data is parsed: terminal loop, kernel loop, final bitmap. */
  method PrepareParsed(c: PgConfiguration, st: PrepState, rep: P2pReport, maxKernels: nat) returns (o: PrepareOutcome)
    requires ConfigFits(c, maxKernels, |st.reqs|) && |c.terminals| == |st.reqs| && StateFits(st, maxKernels)
    requires ReportFits(rep, maxKernels)
    ensures o == PrepareSpec(c, st, Parsed(rep), maxKernels)
  {
    var status, reqs1 := PrepareTerminals(c.terminals, st.reqs, maxKernels);
    var st1 := st.(reqs := reqs1);
    if status != PG_OK {
      return PrepareOutcome(status, None, st1);
    }
    PreparedTerminalsFit(c.terminals, st.reqs, maxKernels);
    var enabled := rep.kernels * c.kernels;
    var r := KernelLoop(st1, enabled, maxKernels, rep.sections, rep.payloads);
    if r.PrepFailed? {
      return PrepareOutcome(r.status, None, r.st);
    }
    AscendingAt(enabled);
    KernelsEffect(st1, Ascending(enabled), maxKernels, rep.sections, rep.payloads);
    var kernelBitmap := c.kernels - rep.disabled;
    kernelBitmap := RemoveDisabledData(c.terminals, c.disabledDataTerminals, kernelBitmap);
    var ret;
    ret, kernelBitmap := DisableZeroSizedTerminals(c.terminals, r.st.reqs, kernelBitmap);
    o := PrepareOutcome(if ret == OK then PG_OK else HAL_ERROR(ret), if ret == OK then Some(kernelBitmap) else None, r.st);
  }

  /** The position of the process group terminal whose tm_index is the terminal index. */
  function TmIndexIs(terminalIndex: int): int -> bool
  {
    (tmIndex: int) => tmIndex == terminalIndex
  }

  /** The lookup loop of encode over the process group's terminals. */
  method FindTerminal(tmIndices: seq<int>, terminalIndex: int) returns (index: nat)
    ensures index <= |tmIndices|
    ensures index < |tmIndices| <==> terminalIndex in tmIndices
    ensures index < |tmIndices| ==> tmIndices[index] == terminalIndex && terminalIndex !in tmIndices[..index]
  {
    index := 0;
    while index < |tmIndices|
      invariant index <= |tmIndices| && terminalIndex !in tmIndices[..index]
    {
      if tmIndices[index] == terminalIndex {
        return;
      }
      assert tmIndices[..index + 1] == tmIndices[..index] + [tmIndices[index]];
      index := index + 1;
    }
    assert tmIndices[..index] == tmIndices;
  }

  /**
   * PGParamAdapt: the configuration init stores, the terminal requirements
   * (mPgReqs, a table of IPU_MAX_TERMINAL_COUNT entries of which the first
   * terminal-count are live) and the per-kernel tables (mKernel).  The
   * table sizes IPU_MAX_KERNELS_PER_PG and IPU_MAX_TERMINAL_COUNT are
   * parameters.
   */
  class ParamAdapter {
    const maxKernels: nat
    const maxTerminals: nat
    var config: PgConfiguration
    var reqs: seq<TerminalReq>
    var kernelSections: seq<TermCounts>
    var kernelPayloads: seq<TermCounts>
    var kernelPayloadSize: nat

    ghost predicate Valid()
      reads this
    {
      && |reqs| == maxTerminals
      && ConfigFits(config, maxKernels, maxTerminals)
      && |kernelSections| == maxKernels && |kernelPayloads| == maxKernels
      && BitmapsWithin(reqs, maxKernels)
    }

    /** The state prepare works on: the live terminal entries and the kernel tables. */
    function State(): (st: PrepState)
      requires |config.terminals| <= |reqs|
      reads this
      ensures st.reqs == reqs[..|config.terminals|] && st.sections == kernelSections && st.payloads == kernelPayloads
    {
      PrepState(reqs[..|config.terminals|], kernelSections, kernelPayloads, kernelPayloadSize)
    }

    /** A new adaptor: no manifest yet, cleared requirements and kernel tables. */
    constructor (maxKernels: nat, maxTerminals: nat)
      ensures Valid()
      ensures this.maxKernels == maxKernels && this.maxTerminals == maxTerminals
      ensures config == NO_CONFIGURATION && kernelPayloadSize == 0
      ensures reqs == seq(maxTerminals, _ => CLEARED_TERMINAL)
      ensures kernelSections == seq(maxKernels, _ => NO_COUNTS) && kernelPayloads == seq(maxKernels, _ => NO_COUNTS)
    {
      this.maxKernels := maxKernels;
      this.maxTerminals := maxTerminals;
      config := NO_CONFIGURATION;
      reqs := seq(maxTerminals, _ => CLEARED_TERMINAL);
      kernelSections := seq(maxKernels, _ => NO_COUNTS);
      kernelPayloads := seq(maxKernels, _ => NO_COUNTS);
      kernelPayloadSize := 0;
    }

    /**
     * init: when the P2P library could not be set up (its handle or its
     * cache buffer) it is UNKNOWN_ERROR and nothing is stored; otherwise
     * the configuration is stored.
     */
    method Init(p2pReady: bool, c: PgConfiguration) returns (status: Status)
      requires Valid() && ConfigFits(c, maxKernels, maxTerminals)
      modifies this
      ensures Valid()
      ensures !p2pReady ==> status == UNKNOWN_ERROR && config == old(config)
      ensures p2pReady ==> status == OK && config == c
      ensures reqs == old(reqs) && kernelSections == old(kernelSections) && kernelPayloads == old(kernelPayloads)
      ensures kernelPayloadSize == old(kernelPayloadSize)
    {
      if !p2pReady {
        return UNKNOWN_ERROR;
      }
      config := c;
      status := OK;
    }

    /** prepare, as PrepareSpec states it. */
    method Prepare(pal: PalInput) returns (status: PgStatus, bitmap: Option<KernelBitmap>)
      requires Valid() && (pal.Parsed? ==> ReportFits(pal.report, maxKernels))
      modifies this
      ensures Valid() && config == old(config)
      ensures PrepareOutcome(status, bitmap, State()) == PrepareSpec(old(config), old(State()), pal, maxKernels)
      ensures reqs[|config.terminals|..] == old(reqs[|config.terminals|..])
    {
      if pal.NoParameters? {
        return HAL_ERROR(BAD_VALUE), None;
      }
      if pal.Unparsable? {
        return HAL_ERROR(UNKNOWN_ERROR), None;
      }
      var n := |config.terminals|;
      var tail := reqs[n..];
      var o := PrepareParsed(config, State(), pal.report, maxKernels);
      status, bitmap := o.status, o.bitmap;
      reqs, kernelSections, kernelPayloads, kernelPayloadSize := o.st.reqs + tail, o.st.sections, o.st.payloads, o.st.payloadSize;
      assert reqs[..n] == o.st.reqs && reqs[n..] == tail;
    }

    /** The terminal indices getPayloadSize and encode accept: below both the terminal count and the table size. */
    function Boundary(): (n: nat)
      reads this
      ensures n <= |config.terminals| && n <= maxTerminals
    {
      Min(|config.terminals|, maxTerminals)
    }

    /** getPayloadSize: the terminal's payload size, UNKNOWN_ERROR for an index out of range. */
    method GetPayloadSize(terminalIndex: int) returns (status: Status, payloadSize: nat)
      requires Valid()
      ensures status == OK <==> 0 <= terminalIndex < Boundary()
      ensures status != OK ==> status == UNKNOWN_ERROR
      ensures status == OK ==> payloadSize == reqs[terminalIndex].payloadSize
    {
      var boundary := if |config.terminals| <= maxTerminals then |config.terminals| else maxTerminals;
      if terminalIndex < 0 || terminalIndex >= boundary {
        return UNKNOWN_ERROR, 0;
      }
      return OK, reqs[terminalIndex].payloadSize;
    }

    /**
     * encode: an index out of range, or one no process group terminal
     * carries as its tm_index, is UNKNOWN_ERROR; otherwise the terminal's
     * kernels are encoded one after the other into a buffer of the given
     * size, checked against the sizes the library reports now.
     */
    method Encode(terminalIndex: int, tmIndices: seq<int>, current: seq<TermCounts>, size: nat) returns (es: EncodeState)
      requires Valid() && |current| == maxKernels
      ensures !(0 <= terminalIndex < Boundary() && terminalIndex in tmIndices) ==> es == EncodeState(UNKNOWN_ERROR, 0, [])
      ensures 0 <= terminalIndex < Boundary() && terminalIndex in tmIndices ==>
        es == EncodeFrom(EncodeState(OK, 0, []), reqs[terminalIndex].termType, EncodeItems(reqs[terminalIndex], maxKernels),
                         current, kernelPayloads, size)
    {
      var boundary := if |config.terminals| <= maxTerminals then |config.terminals| else maxTerminals;
      if terminalIndex < 0 || terminalIndex >= boundary {
        return EncodeState(UNKNOWN_ERROR, 0, []);
      }
      var index := FindTerminal(tmIndices, terminalIndex);
      if index == |tmIndices| {
        return EncodeState(UNKNOWN_ERROR, 0, []);
      }
      es := EncodeKernels(reqs[terminalIndex], maxKernels, current, kernelPayloads, size);
    }
  }
}
