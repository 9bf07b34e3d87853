/**
 * The light-weight P2P adaptor of the scaling pipeline
 * (src/core/psyslite/PSysP2pLite.cpp): it keeps the ISP kernel group,
 * builds the terminal requirements of one program group from its
 * manifest and the P2P library's per-kernel report, answers payload sizes
 * and encodes parameter terminals kernel by kernel.
 *
 * The per-kernel blocks of its kernel loop are those of PGParamAdapt
 * (cached-in and program without reconciliation, spatial-in), reused from
 * that module.  The ISP and P2P library calls themselves are not part of
 * this model: what they report is a parameter.
 */
module PSysP2pLite {
  import opened Common
  import opened PgRequirements
  import PG = PGParamAdapt

  // ---------------------------------------------------------------------
  // getKernelIdByBitmap (56-64).
  // ---------------------------------------------------------------------

  /** getKernelIdByBitmap: -1 for an empty bitmap, else the lowest set bit. */
  method GetKernelIdByBitmap(b: KernelBitmap) returns (n: int)
    requires InWidth(b)
    ensures b == {} <==> n == -1
    ensures b != {} ==> n == Lowest(b) && n in b && forall j :: j in b ==> n <= j
  {
    if b == {} {
      return -1;
    }
    n := LowestSetBit(b);
  }

  // ---------------------------------------------------------------------
  // The ISP kernel group handed to setKernelConfig (66-79).
  // ---------------------------------------------------------------------

  /**
   * ia_isp_bxt_run_kernels_t: one kernel of the ISP kernel group.  The
   * resolution info is a reference to a resolution record owned by the
   * caller (its index), or none.
   */
  datatype RunKernel = RunKernel(
    streamId: nat,
    kernelUuid: nat,
    enable: bool,
    resolution: Option<nat>,
    metadata: seq<int>)

  // ---------------------------------------------------------------------
  // getKernelOrderForParamCachedInTerm / getKernelOrderForProgramTerm
  // (413-474).
  // ---------------------------------------------------------------------

  /** A kernel order whose first entries carry the given ids, the rest of each entry and of the order kept. */
  function IdsOrder(ids: seq<nat>, fill: seq<KernelInfo>): (order: seq<KernelInfo>)
    requires |ids| <= |fill|
    ensures |order| == |fill|
    ensures forall i :: 0 <= i < |ids| ==> order[i] == fill[i].(id := ids[i])
    ensures forall i :: |ids| <= i < |fill| ==> order[i] == fill[i]
  {
    seq(|fill|, i requires 0 <= i < |fill| => if i < |ids| then fill[i].(id := ids[i]) else fill[i])
  }

  /** Recording one more id into an order: the entry after the recorded ones takes it. */
  lemma IdsOrderSnoc(ids: seq<nat>, x: nat, fill: seq<KernelInfo>)
    requires |ids| < |fill|
    ensures IdsOrder(ids + [x], fill) == IdsOrder(ids, fill)[|ids| := IdsOrder(ids, fill)[|ids|].(id := x)]
  {
  }

  /** One section more: its id is recorded unless the last recorded id is the same. */
  lemma RunIdsNext(sections: seq<Section>, section: nat)
    requires section < |sections|
    ensures var ids := RunIds(sections[..section]);
            var x := sections[section].kernelId;
            RunIds(sections[..section + 1]) == if |ids| > 0 && ids[|ids| - 1] == x then ids else ids + [x]
    ensures |RunIds(sections[..section + 1])| <= |RunIds(sections)|
  {
    assert sections[..section + 1][..section] == sections[..section];
    RunIdsPrefixShorter(sections, section + 1);
  }

  /** A prefix of the sections has no more runs than the whole. */
  lemma RunIdsPrefixShorter(s: seq<Section>, i: nat)
    requires i <= |s|
    ensures |RunIds(s[..i])| <= |RunIds(s)|
  {
    RunIdsOfRuns(s[..i]);
    RunIdsOfRuns(s);
    RunsPrefixShorter(s, i);
  }

  /**
   * The ids the lite builders record hold no two equal neighbours, and an
   * id is recorded exactly when some section belongs to its kernel.
   */
  lemma {:induction false} RunIdsShape(s: seq<Section>)
    ensures forall i :: 0 <= i < |RunIds(s)| - 1 ==> RunIds(s)[i] != RunIds(s)[i + 1]
    ensures forall x :: x in RunIds(s) <==> exists j :: 0 <= j < |s| && s[j].kernelId == x
    decreases |s|
  {
    if s != [] {
      var p := s[..|s| - 1];
      var last := s[|s| - 1].kernelId;
      RunIdsShape(p);
      forall x
        ensures x in RunIds(s) <==> exists j :: 0 <= j < |s| && s[j].kernelId == x
      {
        assert x in RunIds(s) <==> x in RunIds(p) || x == last;
        if exists j :: 0 <= j < |s| && s[j].kernelId == x {
          var j :| 0 <= j < |s| && s[j].kernelId == x;
          if j < |p| {
            assert p[j].kernelId == x;
          }
        }
        if exists j :: 0 <= j < |p| && p[j].kernelId == x {
          var j :| 0 <= j < |p| && p[j].kernelId == x;
          assert s[j].kernelId == x;
        }
      }
    }
  }

  /**
   * The lite kernel order builders: for each section whose kernel differs
   * from the last recorded one, that kernel's id is written into the next
   * entry of the order, whose other fields keep their fill.  A terminal
   * without sections is rejected with the builder's own error
   * (css_err_argument for the cached-in terminal, ia_err_internal for the
   * program terminal).
   */
  method BuildKernelIds(sections: seq<Section>, emptyError: PgStatus, order: array<KernelInfo>) returns (status: PgStatus)
    requires |RunIds(sections)| <= order.Length
    modifies order
    ensures sections == [] ==> status == emptyError && order[..] == old(order[..])
    ensures sections != [] ==> status == PG_OK && order[..] == IdsOrder(RunIds(sections), old(order[..]))
  {
    if |sections| == 0 {
      return emptyError;
    }
    ghost var fill := order[..];
    var kernelCount := 0;
    var section := 0;
    assert sections[..0] == [];
    while section < |sections|
      invariant section <= |sections|
      invariant kernelCount == |RunIds(sections[..section])| <= order.Length
      invariant order[..] == IdsOrder(RunIds(sections[..section]), fill)
    {
      RunIdsNext(sections, section);
      var index := sections[section].kernelId;
      if kernelCount > 0 && order[kernelCount - 1].id == index {
        section := section + 1;
        continue;
      }
      IdsOrderSnoc(RunIds(sections[..section]), index, fill);
      order[kernelCount] := order[kernelCount].(id := index);
      kernelCount := kernelCount + 1;
      section := section + 1;
    }
    assert sections[..section] == sections;
    status := PG_OK;
  }

  // ---------------------------------------------------------------------
  // prepareRequirements, first part: the terminal loop (117-164).
  // ---------------------------------------------------------------------

  /** The lite order arrays fit the ids of every parameter terminal. */
  predicate IdsFit(ms: seq<PG.TerminalManifest>, maxKernels: nat)
  {
    forall i :: 0 <= i < |ms| ==> |RunIds(ms[i].sections)| <= maxKernels
  }

  /**
   * A terminal's entry as the terminal loop writes it into a cleared
   * entry: the type; for cached-in and program terminals an order of
   * unused entries carrying the kernel ids in front; for spatial-in
   * terminals the spatial kernel's bit.  Other terminals get only their
   * type.
   */
  function LiteTerminal(m: PG.TerminalManifest, maxKernels: nat): (tr: TerminalReq)
    requires |RunIds(m.sections)| <= maxKernels
    ensures tr.termType == m.termType && tr.sectionCount == 0 && tr.payloadSize == 0
    ensures PG.NeedsOrder(m.termType) <==> tr.kernelOrder.Some?
    ensures tr.kernelOrder.Some? ==> |tr.kernelOrder.value| == maxKernels
    ensures tr.kernelBitmap == if m.termType == PARAM_SPATIAL_IN then {m.spatialKernel} else {}
  {
    var base := CLEARED_TERMINAL.(termType := m.termType);
    match m.termType
    case PARAM_CACHED_IN => base.(kernelOrder := Some(IdsOrder(RunIds(m.sections), PG.UnusedOrder(maxKernels))))
    case PROGRAM => base.(kernelOrder := Some(IdsOrder(RunIds(m.sections), PG.UnusedOrder(maxKernels))))
    case PARAM_SPATIAL_IN => base.(kernelBitmap := {m.spatialKernel})
    case _ => base
  }

  /** One terminal of the terminal loop, written into its cleared entry. */
  method PrepareLiteTerminal(m: PG.TerminalManifest, maxKernels: nat) returns (status: PgStatus, tr: TerminalReq)
    requires |RunIds(m.sections)| <= maxKernels
    ensures PG.HasEmptyOrder(m) ==> status == PG.EmptyOrderError(m.termType)
    ensures !PG.HasEmptyOrder(m) ==> status == PG_OK
    ensures tr == LiteTerminal(m, maxKernels)
  {
    status := PG_OK;
    tr := CLEARED_TERMINAL.(termType := m.termType);
    match m.termType {
      case PARAM_CACHED_IN =>
        var order := new KernelInfo[maxKernels](_ => UNUSED_KERNEL_INFO);
        assert order[..] == PG.UnusedOrder(maxKernels);
        status := BuildKernelIds(m.sections, CSS_ERR_ARGUMENT, order);
        assert order[..] == IdsOrder(RunIds(m.sections), PG.UnusedOrder(maxKernels));
        tr := tr.(kernelOrder := Some(order[..]));
      case PROGRAM =>
        var order := new KernelInfo[maxKernels](_ => UNUSED_KERNEL_INFO);
        assert order[..] == PG.UnusedOrder(maxKernels);
        status := BuildKernelIds(m.sections, IA_ERR_INTERNAL, order);
        assert order[..] == IdsOrder(RunIds(m.sections), PG.UnusedOrder(maxKernels));
        tr := tr.(kernelOrder := Some(order[..]));
      case PARAM_SPATIAL_IN =>
        tr := tr.(kernelBitmap := {m.spatialKernel});
      case _ =>
    }
  }

  /** The terminals the loop visits: those with an entry in the requirement table. */
  function Visited(ms: seq<PG.TerminalManifest>, maxTerminals: nat): seq<PG.TerminalManifest>
  {
    ms[..Min(|ms|, maxTerminals)]
  }

  /**
   * How the terminal loop ends: with the first visited terminal whose
   * builder fails; else BAD_INDEX when the manifest has more terminals
   * than the table; else success.
   */
  function LiteTerminalStatus(ms: seq<PG.TerminalManifest>, maxTerminals: nat): PgStatus
  {
    match FirstFrom(Visited(ms, maxTerminals), PG.HasEmptyOrder, 0)
    case Some(i) => PG.EmptyOrderError(ms[i].termType)
    case None => if |ms| > maxTerminals then HAL_ERROR(BAD_INDEX) else PG_OK
  }

  /**
   * How many entries the terminal loop writes: every visited terminal, or
   * those up to and including the first whose builder fails.
   */
  function LiteWritten(ms: seq<PG.TerminalManifest>, maxTerminals: nat): (n: nat)
    ensures n <= |ms| && n <= maxTerminals
    ensures LiteTerminalStatus(ms, maxTerminals) == PG_OK ==> n == |ms|
  {
    match FirstFrom(Visited(ms, maxTerminals), PG.HasEmptyOrder, 0)
    case Some(i) => i + 1
    case None => Min(|ms|, maxTerminals)
  }

  /**
   * The requirement table after the terminal loop: the written terminals
   * in their entries (a failing one with its order left unused), every
   * other entry cleared.
   */
  function LiteTerminals(ms: seq<PG.TerminalManifest>, maxTerminals: nat, maxKernels: nat): (reqs: seq<TerminalReq>)
    requires IdsFit(ms, maxKernels)
    ensures |reqs| == maxTerminals
    ensures forall i :: 0 <= i < LiteWritten(ms, maxTerminals) ==> reqs[i] == LiteTerminal(ms[i], maxKernels)
    ensures forall i :: LiteWritten(ms, maxTerminals) <= i < maxTerminals ==> reqs[i] == CLEARED_TERMINAL
  {
    var n := LiteWritten(ms, maxTerminals);
    seq(maxTerminals, i requires 0 <= i < maxTerminals => if i < n then LiteTerminal(ms[i], maxKernels) else CLEARED_TERMINAL)
  }

  /**
   * The terminal loop of prepareRequirements: the table is cleared, then
   * each terminal is written in turn; an index beyond the table is
   * BAD_INDEX, a failing builder returns its error.
   */
  method PrepareLiteTerminals(ms: seq<PG.TerminalManifest>, maxTerminals: nat, maxKernels: nat)
    returns (status: PgStatus, reqs: seq<TerminalReq>)
    requires IdsFit(ms, maxKernels)
    ensures status == LiteTerminalStatus(ms, maxTerminals)
    ensures reqs == LiteTerminals(ms, maxTerminals, maxKernels)
  {
    reqs := seq(maxTerminals, _ => CLEARED_TERMINAL);
    var termIndex := 0;
    while termIndex < |ms|
      invariant termIndex <= |ms| && termIndex <= maxTerminals && |reqs| == maxTerminals
      invariant forall j :: 0 <= j < termIndex ==> !PG.HasEmptyOrder(ms[j])
      invariant forall i :: 0 <= i < termIndex ==> reqs[i] == LiteTerminal(ms[i], maxKernels)
      invariant forall i :: termIndex <= i < maxTerminals ==> reqs[i] == CLEARED_TERMINAL
    {
      if termIndex >= maxTerminals {
        assert FirstFrom(Visited(ms, maxTerminals), PG.HasEmptyOrder, 0).None?;
        return HAL_ERROR(BAD_INDEX), reqs;
      }
      var tr;
      status, tr := PrepareLiteTerminal(ms[termIndex], maxKernels);
      reqs := reqs[termIndex := tr];
      if status != PG_OK {
        FirstFromIs(Visited(ms, maxTerminals), PG.HasEmptyOrder, 0, termIndex);
        return;
      }
      termIndex := termIndex + 1;
    }
    assert FirstFrom(Visited(ms, maxTerminals), PG.HasEmptyOrder, 0).None?;
    status := PG_OK;
  }

  /** The terminal loop leaves only spatial kernels of the manifest in the bitmaps. */
  lemma LiteTerminalsFit(ms: seq<PG.TerminalManifest>, maxTerminals: nat, maxKernels: nat)
    requires IdsFit(ms, maxKernels)
    requires forall i :: 0 <= i < |ms| ==> PG.TerminalFits(ms[i], maxKernels)
    ensures PG.BitmapsWithin(LiteTerminals(ms, maxTerminals, maxKernels), maxKernels)
  {
    var reqs := LiteTerminals(ms, maxTerminals, maxKernels);
    forall i | 0 <= i < |reqs|
      ensures forall k :: k in reqs[i].kernelBitmap ==> k < maxKernels && k < KERNEL_BITMAP_BITS
    {
      if i < LiteWritten(ms, maxTerminals) {
        assert PG.TerminalFits(ms[i], maxKernels);
      }
    }
  }

  // ---------------------------------------------------------------------
  // prepareRequirements, second part: the kernel loop (166-241).
  // ---------------------------------------------------------------------

  /**
   * One iteration of the lite kernel loop for kernel k: an id beyond the
   * kernel tables is ia_err_internal; otherwise the kernel's counts from
   * the P2P library are stored, then the cached-in and program blocks run
   * (without reconciliation) and the spatial-in block.  An error stops the
   * loop.
   */
  function LiteKernelStep(r: PG.PrepResult, k: nat, maxKernels: nat, p2pSections: seq<TermCounts>, p2pPayloads: seq<TermCounts>): (r': PG.PrepResult)
    requires |p2pSections| == maxKernels && |p2pPayloads| == maxKernels
    requires r.Prepared? ==> PG.Shaped(r.st, maxKernels)
    ensures r'.Prepared? ==> PG.Shaped(r'.st, maxKernels)
  {
    if r.PrepFailed? then r
    else if k >= maxKernels then PG.PrepFailed(IA_ERR_INTERNAL, r.st)
    else
      var st := r.st.(sections := r.st.sections[k := p2pSections[k]], payloads := r.st.payloads[k := p2pPayloads[k]]);
      var r1 := PG.CachedBlock(PG.Prepared(st), k, PARAM_CACHED_IN, false);
      var r2 := PG.CachedBlock(r1, k, PROGRAM, false);
      PG.SpatialBlock(r2, k, PARAM_SPATIAL_IN)
  }

  /** The lite kernel loop over the kernels in visiting order. */
  function LiteKernels(r: PG.PrepResult, ks: seq<nat>, maxKernels: nat, p2pSections: seq<TermCounts>, p2pPayloads: seq<TermCounts>): (r': PG.PrepResult)
    requires |p2pSections| == maxKernels && |p2pPayloads| == maxKernels
    requires r.Prepared? ==> PG.Shaped(r.st, maxKernels)
    decreases |ks|
  {
    if ks == [] then r
    else LiteKernels(LiteKernelStep(r, ks[0], maxKernels, p2pSections, p2pPayloads), ks[1..], maxKernels, p2pSections, p2pPayloads)
  }

  /** The body of the lite kernel loop for kernel k. */
  method ProcessLiteKernel(st: PG.PrepState, k: nat, maxKernels: nat, p2pSections: seq<TermCounts>, p2pPayloads: seq<TermCounts>)
    returns (r: PG.PrepResult)
    requires |p2pSections| == maxKernels && |p2pPayloads| == maxKernels && PG.Shaped(st, maxKernels)
    ensures r == LiteKernelStep(PG.Prepared(st), k, maxKernels, p2pSections, p2pPayloads)
  {
    if k >= maxKernels {
      return PG.PrepFailed(IA_ERR_INTERNAL, st);
    }
    var s := st.(sections := st.sections[k := p2pSections[k]], payloads := st.payloads[k := p2pPayloads[k]]);
    r := PG.RunCachedBlock(PG.Prepared(s), k, PARAM_CACHED_IN, false);
    r := PG.RunCachedBlock(r, k, PROGRAM, false);
    r := PG.RunSpatialBlock(r, k, PARAM_SPATIAL_IN);
  }

  /** Once the loop has stopped with an error, the remaining kernels change nothing. */
  lemma {:induction false} LiteKernelsStuck(r: PG.PrepResult, ks: seq<nat>, maxKernels: nat, p2pSections: seq<TermCounts>, p2pPayloads: seq<TermCounts>)
    requires |p2pSections| == maxKernels && |p2pPayloads| == maxKernels && r.PrepFailed?
    ensures LiteKernels(r, ks, maxKernels, p2pSections, p2pPayloads) == r
    decreases |ks|
  {
    if ks != [] {
      LiteKernelsStuck(r, ks[1..], maxKernels, p2pSections, p2pPayloads);
    }
  }

  /**
   * The kernel loop of prepareRequirements: while the bitmap has a bit
   * set, the lowest kernel is processed and its bit cleared.
   */
  method LiteKernelLoop(st0: PG.PrepState, b0: KernelBitmap, maxKernels: nat, p2pSections: seq<TermCounts>, p2pPayloads: seq<TermCounts>)
    returns (r: PG.PrepResult)
    requires InWidth(b0)
    requires |p2pSections| == maxKernels && |p2pPayloads| == maxKernels && PG.Shaped(st0, maxKernels)
    ensures r == LiteKernels(PG.Prepared(st0), Ascending(b0), maxKernels, p2pSections, p2pPayloads)
  {
    var b := b0;
    var st := st0;
    while b != {}
      invariant InWidth(b) && PG.Shaped(st, maxKernels)
      invariant LiteKernels(PG.Prepared(st), Ascending(b), maxKernels, p2pSections, p2pPayloads)
        == LiteKernels(PG.Prepared(st0), Ascending(b0), maxKernels, p2pSections, p2pPayloads)
      decreases |b|
    {
      var kernelId := GetKernelIdByBitmap(b);
      assert Ascending(b) == [kernelId] + Ascending(b - {kernelId});
      var next := ProcessLiteKernel(st, kernelId, maxKernels, p2pSections, p2pPayloads);
      if next.PrepFailed? {
        LiteKernelsStuck(next, Ascending(b - {kernelId}), maxKernels, p2pSections, p2pPayloads);
        return next;
      }
      st := next.st;
      b := b - {kernelId};
    }
    r := PG.Prepared(st);
  }

  /**
   * The lite loop body for kernel k can proceed: the id is within the
   * kernel tables and, for cached-in and program sections of the kernel,
   * a terminal of that type exists.
   */
  predicate LiteStepOk(reqs: seq<TerminalReq>, k: nat, maxKernels: nat, p2pSections: seq<TermCounts>)
    requires |p2pSections| == maxKernels
  {
    && k < maxKernels
    && (p2pSections[k].paramIn != 0 ==> PG.HasType(reqs, PARAM_CACHED_IN))
    && (p2pSections[k].program != 0 ==> PG.HasType(reqs, PROGRAM))
  }

  /**
   * One lite iteration fails exactly when the kernel cannot proceed; when
   * it succeeds no terminal type or order id changes and no counter
   * shrinks.
   */
  lemma LiteKernelStepEffect(st: PG.PrepState, k: nat, maxKernels: nat, p2pSections: seq<TermCounts>, p2pPayloads: seq<TermCounts>)
    requires |p2pSections| == maxKernels && |p2pPayloads| == maxKernels && PG.Shaped(st, maxKernels)
    ensures var r := LiteKernelStep(PG.Prepared(st), k, maxKernels, p2pSections, p2pPayloads);
      && (r.Prepared? <==> LiteStepOk(st.reqs, k, maxKernels, p2pSections))
      && (r.PrepFailed? ==> r.status == IA_ERR_INTERNAL)
      && (r.Prepared? ==> PG.SameLayout(st.reqs, r.st.reqs) && PG.CountersGrow(st.reqs, r.st.reqs))
  {
    if k < maxKernels {
      var s := st.(sections := st.sections[k := p2pSections[k]], payloads := st.payloads[k := p2pPayloads[k]]);
      var r1 := PG.CachedBlock(PG.Prepared(s), k, PARAM_CACHED_IN, false);
      PG.CachedBlockEffect(PG.Prepared(s), k, PARAM_CACHED_IN, false);
      if r1.Prepared? {
        var r2 := PG.CachedBlock(r1, k, PROGRAM, false);
        PG.CachedBlockEffect(r1, k, PROGRAM, false);
        PG.FirstOfTypeSame(s.reqs, r1.st.reqs, PROGRAM, 0);
        if r2.Prepared? {
          PG.SameLayoutTrans(s.reqs, r1.st.reqs, r2.st.reqs);
          PG.CountersGrowTrans(s.reqs, r1.st.reqs, r2.st.reqs);
          var r3 := PG.SpatialBlock(r2, k, PARAM_SPATIAL_IN);
          PG.SpatialBlockEffect(r2, k, PARAM_SPATIAL_IN);
          PG.SameLayoutTrans(s.reqs, r2.st.reqs, r3.st.reqs);
          PG.CountersGrowTrans(s.reqs, r2.st.reqs, r3.st.reqs);
        }
      }
    }
  }

  /** Whether a kernel can proceed depends only on the terminal types. */
  lemma LiteStepOkSame(a: seq<TerminalReq>, b: seq<TerminalReq>, k: nat, maxKernels: nat, p2pSections: seq<TermCounts>)
    requires PG.SameLayout(a, b) && |p2pSections| == maxKernels
    ensures LiteStepOk(a, k, maxKernels, p2pSections) == LiteStepOk(b, k, maxKernels, p2pSections)
  {
    PG.FirstOfTypeSame(a, b, PARAM_CACHED_IN, 0);
    PG.FirstOfTypeSame(a, b, PROGRAM, 0);
  }

  /**
   * The whole lite kernel loop: it stops with ia_err_internal exactly when
   * some visited kernel cannot proceed; otherwise it changes no terminal
   * type and no order id, and no counter shrinks.
   */
  lemma {:induction false} LiteKernelsEffect(st: PG.PrepState, ks: seq<nat>, maxKernels: nat, p2pSections: seq<TermCounts>, p2pPayloads: seq<TermCounts>)
    requires |p2pSections| == maxKernels && |p2pPayloads| == maxKernels && PG.Shaped(st, maxKernels)
    ensures var r := LiteKernels(PG.Prepared(st), ks, maxKernels, p2pSections, p2pPayloads);
      && (r.Prepared? <==> forall j :: 0 <= j < |ks| ==> LiteStepOk(st.reqs, ks[j], maxKernels, p2pSections))
      && (r.PrepFailed? ==> r.status == IA_ERR_INTERNAL)
      && (r.Prepared? ==> PG.SameLayout(st.reqs, r.st.reqs) && PG.CountersGrow(st.reqs, r.st.reqs))
    decreases |ks|
  {
    if ks == [] {
      PG.SameLayoutRefl(st.reqs);
    } else {
      var r1 := LiteKernelStep(PG.Prepared(st), ks[0], maxKernels, p2pSections, p2pPayloads);
      LiteKernelStepEffect(st, ks[0], maxKernels, p2pSections, p2pPayloads);
      if r1.PrepFailed? {
        LiteKernelsStuck(r1, ks[1..], maxKernels, p2pSections, p2pPayloads);
      } else {
        LiteKernelsEffect(r1.st, ks[1..], maxKernels, p2pSections, p2pPayloads);
        var r := LiteKernels(r1, ks[1..], maxKernels, p2pSections, p2pPayloads);
        forall j | 1 <= j < |ks|
          ensures LiteStepOk(st.reqs, ks[j], maxKernels, p2pSections) == LiteStepOk(r1.st.reqs, ks[1..][j - 1], maxKernels, p2pSections)
        {
          LiteStepOkSame(st.reqs, r1.st.reqs, ks[j], maxKernels, p2pSections);
        }
        if r.Prepared? {
          PG.SameLayoutTrans(st.reqs, r1.st.reqs, r.st.reqs);
          PG.CountersGrowTrans(st.reqs, r1.st.reqs, r.st.reqs);
        }
      }
    }
  }

  /** One lite step keeps the state fitting, whether it goes on or stops. */
  lemma LiteKernelStepFits(r: PG.PrepResult, k: nat, maxKernels: nat, p2pSections: seq<TermCounts>, p2pPayloads: seq<TermCounts>)
    requires |p2pSections| == maxKernels && |p2pPayloads| == maxKernels
    requires PG.StateFits(r.st, maxKernels) && k < KERNEL_BITMAP_BITS
    ensures PG.StateFits(LiteKernelStep(r, k, maxKernels, p2pSections, p2pPayloads).st, maxKernels)
    ensures |LiteKernelStep(r, k, maxKernels, p2pSections, p2pPayloads).st.reqs| == |r.st.reqs|
  {
    if r.Prepared? && k < maxKernels {
      var st := r.st.(sections := r.st.sections[k := p2pSections[k]], payloads := r.st.payloads[k := p2pPayloads[k]]);
      var r1 := PG.CachedBlock(PG.Prepared(st), k, PARAM_CACHED_IN, false);
      PG.CachedBlockFits(PG.Prepared(st), k, PARAM_CACHED_IN, false, maxKernels);
      var r2 := PG.CachedBlock(r1, k, PROGRAM, false);
      PG.CachedBlockFits(r1, k, PROGRAM, false, maxKernels);
      PG.SpatialBlockFits(r2, k, PARAM_SPATIAL_IN, maxKernels);
    }
  }

  /** The lite kernel loop over bitmap kernels keeps the state fitting. */
  lemma {:induction false} LiteKernelsFit(r: PG.PrepResult, ks: seq<nat>, maxKernels: nat, p2pSections: seq<TermCounts>, p2pPayloads: seq<TermCounts>)
    requires |p2pSections| == maxKernels && |p2pPayloads| == maxKernels
    requires PG.StateFits(r.st, maxKernels)
    requires forall j :: 0 <= j < |ks| ==> ks[j] < KERNEL_BITMAP_BITS
    ensures PG.StateFits(LiteKernels(r, ks, maxKernels, p2pSections, p2pPayloads).st, maxKernels)
    ensures |LiteKernels(r, ks, maxKernels, p2pSections, p2pPayloads).st.reqs| == |r.st.reqs|
    decreases |ks|
  {
    if ks != [] {
      LiteKernelStepFits(r, ks[0], maxKernels, p2pSections, p2pPayloads);
      LiteKernelsFit(LiteKernelStep(r, ks[0], maxKernels, p2pSections, p2pPayloads), ks[1..], maxKernels, p2pSections, p2pPayloads);
    }
  }

  // ---------------------------------------------------------------------
  // prepareRequirements as a whole (117-244).
  // ---------------------------------------------------------------------

  /**
   * The program group manifest as the pipe hands it to the adaptor
   * (setTerminalCount and setPgManifest): its terminals and its kernel
   * bitmap.
   */
  datatype LiteManifest = LiteManifest(terminals: seq<PG.TerminalManifest>, kernels: KernelBitmap)

  /** A manifest whose kernel ids fit the kernel tables, the bitmap width and the order arrays. */
  predicate ManifestFits(m: LiteManifest, maxKernels: nat)
  {
    && IdsFit(m.terminals, maxKernels)
    && InWidth(m.kernels)
    && (forall i :: 0 <= i < |m.terminals| ==> PG.TerminalFits(m.terminals[i], maxKernels))
  }

  /** What prepareRequirements leaves: its status and the requirement table with the kernel tables. */
  datatype LiteOutcome = LiteOutcome(status: PgStatus, st: PG.PrepState)

  /**
   * prepareRequirements: the terminal loop rebuilds the whole table; when
   * it fails, that is the outcome.  Otherwise the kernels both the P2P
   * library and the manifest enable run through the kernel loop over the
   * manifest's terminals, the remaining entries staying cleared.
   */
  function LitePrepareSpec(m: LiteManifest, st: PG.PrepState, rep: PG.P2pReport, maxTerminals: nat, maxKernels: nat): (o: LiteOutcome)
    requires ManifestFits(m, maxKernels) && PG.Shaped(st, maxKernels) && PG.ReportFits(rep, maxKernels)
    ensures |o.st.reqs| == maxTerminals && PG.StateFits(o.st, maxKernels)
  {
    var reqs1 := LiteTerminals(m.terminals, maxTerminals, maxKernels);
    LiteTerminalsFit(m.terminals, maxTerminals, maxKernels);
    var status1 := LiteTerminalStatus(m.terminals, maxTerminals);
    if status1 != PG_OK then
      LiteOutcome(status1, st.(reqs := reqs1))
    else
      var n := |m.terminals|;
      var ks := Ascending(rep.kernels * m.kernels);
      var r := LiteKernels(PG.Prepared(st.(reqs := reqs1[..n])), ks, maxKernels, rep.sections, rep.payloads);
      PG.AscendingAt(rep.kernels * m.kernels);
      LiteKernelsFit(PG.Prepared(st.(reqs := reqs1[..n])), ks, maxKernels, rep.sections, rep.payloads);
      LiteOutcome(if r.PrepFailed? then r.status else PG_OK, r.st.(reqs := r.st.reqs + reqs1[n..]))
  }

  /** Whether the manifest has a terminal of type t. */
  predicate ManifestHasType(ms: seq<PG.TerminalManifest>, t: TerminalType)
  {
    exists i :: 0 <= i < |ms| && ms[i].termType == t
  }

  /** The written table has a terminal of a type exactly when the manifest has. */
  lemma LiteHasType(ms: seq<PG.TerminalManifest>, maxTerminals: nat, maxKernels: nat, t: TerminalType)
    requires IdsFit(ms, maxKernels) && |ms| <= maxTerminals && LiteWritten(ms, maxTerminals) == |ms|
    ensures PG.HasType(LiteTerminals(ms, maxTerminals, maxKernels)[..|ms|], t) <==> ManifestHasType(ms, t)
  {
    var reqs := LiteTerminals(ms, maxTerminals, maxKernels)[..|ms|];
    if ManifestHasType(ms, t) {
      var i :| 0 <= i < |ms| && ms[i].termType == t;
      assert IsOfType(t)(reqs[i]);
    }
    match FirstFrom(reqs, IsOfType(t), 0)
    case Some(i) =>
      assert ms[i].termType == t;
    case None =>
  }

  /**
   * A kernel the loop visits can proceed: it is within the kernel tables
   * and the manifest has a terminal for each of its cached-in and program
   * sections.
   */
  predicate KernelReady(ms: seq<PG.TerminalManifest>, p2pSections: seq<TermCounts>, k: nat, maxKernels: nat)
    requires |p2pSections| == maxKernels
  {
    && k < maxKernels
    && (p2pSections[k].paramIn != 0 ==> ManifestHasType(ms, PARAM_CACHED_IN))
    && (p2pSections[k].program != 0 ==> ManifestHasType(ms, PROGRAM))
  }

  /** On the written table, a kernel proceeds exactly when it is ready by the manifest. */
  lemma LiteStepReady(ms: seq<PG.TerminalManifest>, maxTerminals: nat, maxKernels: nat, p2pSections: seq<TermCounts>, k: nat)
    requires IdsFit(ms, maxKernels) && |ms| <= maxTerminals && LiteWritten(ms, maxTerminals) == |ms|
    requires |p2pSections| == maxKernels
    ensures LiteStepOk(LiteTerminals(ms, maxTerminals, maxKernels)[..|ms|], k, maxKernels, p2pSections)
      == KernelReady(ms, p2pSections, k, maxKernels)
  {
    LiteHasType(ms, maxTerminals, maxKernels, PARAM_CACHED_IN);
    LiteHasType(ms, maxTerminals, maxKernels, PROGRAM);
  }

  /** Every kernel the loop visits for the bitmap proceeds. */
  predicate VisitedProceed(reqs: seq<TerminalReq>, b: KernelBitmap, maxKernels: nat, p2pSections: seq<TermCounts>)
    requires InWidth(b) && |p2pSections| == maxKernels
  {
    forall j :: 0 <= j < |Ascending(b)| ==> LiteStepOk(reqs, Ascending(b)[j], maxKernels, p2pSections)
  }

  /** Every kernel of the bitmap is ready by the manifest. */
  predicate BitmapReady(ms: seq<PG.TerminalManifest>, b: KernelBitmap, maxKernels: nat, p2pSections: seq<TermCounts>)
    requires |p2pSections| == maxKernels
  {
    forall k :: k in b ==> KernelReady(ms, p2pSections, k, maxKernels)
  }

  /** Every visited kernel proceeds exactly when every kernel of the bitmap is ready. */
  lemma AllReady(ms: seq<PG.TerminalManifest>, reqs: seq<TerminalReq>, b: KernelBitmap, maxKernels: nat, p2pSections: seq<TermCounts>)
    requires InWidth(b) && |p2pSections| == maxKernels
    requires forall k :: LiteStepOk(reqs, k, maxKernels, p2pSections) == KernelReady(ms, p2pSections, k, maxKernels)
    ensures VisitedProceed(reqs, b, maxKernels, p2pSections) <==> BitmapReady(ms, b, maxKernels, p2pSections)
  {
    if VisitedProceed(reqs, b, maxKernels, p2pSections) {
      ReadyFromVisited(ms, reqs, b, maxKernels, p2pSections);
    }
    if BitmapReady(ms, b, maxKernels, p2pSections) {
      VisitedFromReady(ms, reqs, b, maxKernels, p2pSections);
    }
  }

  /** Every visited kernel proceeding makes every kernel of the bitmap ready. */
  lemma ReadyFromVisited(ms: seq<PG.TerminalManifest>, reqs: seq<TerminalReq>, b: KernelBitmap, maxKernels: nat,
                         p2pSections: seq<TermCounts>)
    requires InWidth(b) && |p2pSections| == maxKernels
    requires forall k :: LiteStepOk(reqs, k, maxKernels, p2pSections) == KernelReady(ms, p2pSections, k, maxKernels)
    requires VisitedProceed(reqs, b, maxKernels, p2pSections)
    ensures BitmapReady(ms, b, maxKernels, p2pSections)
  {
    AscendingMembers(b);
    forall k | k in b
      ensures KernelReady(ms, p2pSections, k, maxKernels)
    {
      var j :| 0 <= j < |Ascending(b)| && Ascending(b)[j] == k;
      assert LiteStepOk(reqs, Ascending(b)[j], maxKernels, p2pSections);
    }
  }

  /** Every kernel of the bitmap ready makes every visited kernel proceed. */
  lemma VisitedFromReady(ms: seq<PG.TerminalManifest>, reqs: seq<TerminalReq>, b: KernelBitmap, maxKernels: nat,
                         p2pSections: seq<TermCounts>)
    requires InWidth(b) && |p2pSections| == maxKernels
    requires forall k :: LiteStepOk(reqs, k, maxKernels, p2pSections) == KernelReady(ms, p2pSections, k, maxKernels)
    requires BitmapReady(ms, b, maxKernels, p2pSections)
    ensures VisitedProceed(reqs, b, maxKernels, p2pSections)
  {
    PG.AscendingAt(b);
  }

  /** The kernel loop over the written table, on success, keeps every terminal's type. */
  lemma LiteKernelsKeepTypes(m: LiteManifest, st: PG.PrepState, rep: PG.P2pReport, maxTerminals: nat, maxKernels: nat)
    requires ManifestFits(m, maxKernels) && PG.Shaped(st, maxKernels) && PG.ReportFits(rep, maxKernels)
    requires LiteTerminalStatus(m.terminals, maxTerminals) == PG_OK
    ensures var n := |m.terminals|;
      var reqs1 := LiteTerminals(m.terminals, maxTerminals, maxKernels);
      var ks := Ascending(rep.kernels * m.kernels);
      var r := LiteKernels(PG.Prepared(st.(reqs := reqs1[..n])), ks, maxKernels, rep.sections, rep.payloads);
      && (r.Prepared? <==> forall k :: k in rep.kernels * m.kernels ==> KernelReady(m.terminals, rep.sections, k, maxKernels))
      && (r.PrepFailed? ==> r.status == IA_ERR_INTERNAL)
      && (r.Prepared? ==> |r.st.reqs| == n && forall i :: 0 <= i < n ==> r.st.reqs[i].termType == m.terminals[i].termType)
  {
    var ms := m.terminals;
    var n := |ms|;
    var reqs := LiteTerminals(ms, maxTerminals, maxKernels)[..n];
    var b := rep.kernels * m.kernels;
    LiteKernelsEffect(st.(reqs := reqs), Ascending(b), maxKernels, rep.sections, rep.payloads);
    forall k
      ensures LiteStepOk(reqs, k, maxKernels, rep.sections) == KernelReady(ms, rep.sections, k, maxKernels)
    {
      LiteStepReady(ms, maxTerminals, maxKernels, rep.sections, k);
    }
    AllReady(ms, reqs, b, maxKernels, rep.sections);
  }

  /**
   * What prepareRequirements establishes: it succeeds exactly when the
   * manifest fits the table, every cached-in and program terminal has
   * sections, and every kernel enabled by both the library and the
   * manifest is ready.  It fails only with a builder's error, BAD_INDEX
   * or ia_err_internal.  On success every manifest terminal keeps its
   * type in its entry, and the entries beyond the manifest stay cleared.
   */
  lemma LitePrepareOutcome(m: LiteManifest, st: PG.PrepState, rep: PG.P2pReport, maxTerminals: nat, maxKernels: nat)
    requires ManifestFits(m, maxKernels) && PG.Shaped(st, maxKernels) && PG.ReportFits(rep, maxKernels)
    ensures var o := LitePrepareSpec(m, st, rep, maxTerminals, maxKernels);
      && (o.status == PG_OK <==>
            && |m.terminals| <= maxTerminals
            && (forall i :: 0 <= i < |m.terminals| ==> !PG.HasEmptyOrder(m.terminals[i]))
            && (forall k :: k in rep.kernels && k in m.kernels ==> KernelReady(m.terminals, rep.sections, k, maxKernels)))
      && (o.status == PG_OK || o.status == CSS_ERR_ARGUMENT || o.status == IA_ERR_INTERNAL || o.status == HAL_ERROR(BAD_INDEX))
      && (o.status == PG_OK ==>
            && (forall i :: 0 <= i < |m.terminals| ==> o.st.reqs[i].termType == m.terminals[i].termType)
            && (forall i :: |m.terminals| <= i < maxTerminals ==> o.st.reqs[i] == CLEARED_TERMINAL))
  {
    var ms := m.terminals;
    var v := Visited(ms, maxTerminals);
    match FirstFrom(v, PG.HasEmptyOrder, 0)
    case Some(i) =>
      assert v[i] == ms[i];
    case None =>
      if |ms| <= maxTerminals {
        assert v == ms;
        LiteKernelsKeepTypes(m, st, rep, maxTerminals, maxKernels);
      }
  }

  // ---------------------------------------------------------------------
  // encode (278-410).
  // ---------------------------------------------------------------------

  /**
   * The kernel ids of a kernel order from entry i on, up to the first
   * entry whose id is not a kernel, or the end of the order.
   */
  function OrderIds(order: seq<KernelInfo>, maxKernels: nat, i: nat): (ids: seq<nat>)
    requires i <= |order|
    ensures |ids| <= |order| - i
    decreases |order| - i
  {
    if i == |order| || order[i].id >= maxKernels then []
    else [order[i].id] + OrderIds(order, maxKernels, i + 1)
  }

  /**
   * The scan of the kernel order as encode writes it
   * (kernelOrder[kernelIndex++] until an id that is not a kernel): with no
   * such entry it reads past the end of the order (None).
   */
  function OrderIdsAsWritten(order: seq<KernelInfo>, maxKernels: nat, i: nat): (ids: Option<seq<nat>>)
    requires i <= |order|
    ensures ids.Some? ==> ids.value == OrderIds(order, maxKernels, i)
    decreases |order| - i
  {
    if i == |order| then None
    else if order[i].id >= maxKernels then Some([])
    else
      match OrderIdsAsWritten(order, maxKernels, i + 1)
      case None => None
      case Some(rest) => Some([order[i].id] + rest)
  }

  /** A kernel order whose every entry names a kernel: the scan as written runs off its end, the bounded one stops there. */
  lemma FullLiteOrderOverrun()
    ensures var order := IdsOrder([0], [UNUSED_KERNEL_INFO]);
      && order == [UNUSED_KERNEL_INFO.(id := 0)]
      && OrderIdsAsWritten(order, 1, 0).None?
      && OrderIds(order, 1, 0) == [0]
  {
    var order := IdsOrder([0], [UNUSED_KERNEL_INFO]);
    assert order[0] == UNUSED_KERNEL_INFO.(id := 0);
  }

  /** Reading an order built from ids gives back the ids, when they are kernels and the entry after them is not. */
  lemma {:induction false} OrderIdsOfIds(ids: seq<nat>, fill: seq<KernelInfo>, maxKernels: nat, i: nat)
    requires i <= |ids| <= |fill|
    requires forall j :: 0 <= j < |ids| ==> ids[j] < maxKernels
    requires |ids| < |fill| ==> fill[|ids|].id >= maxKernels
    ensures OrderIds(IdsOrder(ids, fill), maxKernels, i) == ids[i..]
    decreases |ids| - i
  {
    if i < |ids| {
      OrderIdsOfIds(ids, fill, maxKernels, i + 1);
      assert ids[i..] == [ids[i]] + ids[i + 1..];
    }
  }

  /**
   * encode reads back what the builders wrote: the kernel order of a
   * cached-in or program terminal lists the manifest's kernels run by run,
   * provided they are kernels of the table (the unused entries' id,
   * UINT8_MAX, is not).
   */
  lemma LiteOrderRoundTrip(m: PG.TerminalManifest, maxKernels: nat)
    requires PG.NeedsOrder(m.termType) && |RunIds(m.sections)| <= maxKernels <= UINT8_MAX
    requires forall j :: 0 <= j < |m.sections| ==> m.sections[j].kernelId < maxKernels
    ensures OrderIds(LiteTerminal(m, maxKernels).kernelOrder.value, maxKernels, 0) == RunIds(m.sections)
  {
    var ids := RunIds(m.sections);
    RunIdsShape(m.sections);
    forall j | 0 <= j < |ids|
      ensures ids[j] < maxKernels
    {
      assert ids[j] in ids;
    }
    OrderIdsOfIds(ids, PG.UnusedOrder(maxKernels), maxKernels, 0);
    assert ids[0..] == ids;
  }

  /** The kernels encode visits: none for an empty bitmap, else the kernel order's, else the bitmap's lowest first. */
  function LiteVisit(tr: TerminalReq, maxKernels: nat): (ks: seq<nat>)
    requires InWidth(tr.kernelBitmap)
    ensures tr.kernelOrder.None? ==> forall k :: k in ks <==> k in tr.kernelBitmap
    ensures tr.kernelOrder.None? ==> forall i, j :: 0 <= i < j < |ks| ==> ks[i] < ks[j]
    ensures tr.kernelOrder.Some? ==> IdsBelow(ks, maxKernels)
  {
    if tr.kernelBitmap == {} then []
    else if tr.kernelOrder.Some? then
      OrderIdsScan(tr.kernelOrder.value, maxKernels, 0);
      OrderIds(tr.kernelOrder.value, maxKernels, 0)
    else
      AscendingMembers(tr.kernelBitmap);
      AscendingIncreasing(tr.kernelBitmap);
      Ascending(tr.kernelBitmap)
  }

  /** The terminal types the lite encoder handles. */
  predicate Encodable(t: TerminalType)
  {
    t == PARAM_CACHED_IN || t == PROGRAM || t == PARAM_SPATIAL_IN
  }

  /** What encode returns, with the kernels it handed to the P2P encoder, in order. */
  datatype LiteEncodeResult = LiteEncodeResult(status: PgStatus, encoded: seq<nat>)

  /**
   * The kernels are handed to the P2P encoder in turn; the first one it
   * rejects (a kernel of failing) ends encode with ia_err_general.
   */
  function EncodeWalk(ks: seq<nat>, failing: set<nat>): (r: LiteEncodeResult)
    decreases |ks|
  {
    if ks == [] then LiteEncodeResult(PG_OK, [])
    else if ks[0] in failing then LiteEncodeResult(IA_ERR_GENERAL, [])
    else
      var r := EncodeWalk(ks[1..], failing);
      LiteEncodeResult(r.status, [ks[0]] + r.encoded)
  }

  /**
   * The walk succeeds exactly when no kernel is rejected, and then hands
   * every kernel to the encoder in order; otherwise it fails with
   * ia_err_general after handing over exactly the kernels before the
   * first rejected one.
   */
  lemma {:induction false} EncodeWalkMeaning(ks: seq<nat>, failing: set<nat>)
    ensures var r := EncodeWalk(ks, failing);
      && (r.status == PG_OK || r.status == IA_ERR_GENERAL)
      && (r.status == PG_OK <==> forall j :: 0 <= j < |ks| ==> ks[j] !in failing)
      && |r.encoded| <= |ks| && r.encoded == ks[..|r.encoded|]
      && (forall j :: 0 <= j < |r.encoded| ==> r.encoded[j] !in failing)
      && (r.status == PG_OK ==> r.encoded == ks)
      && (r.status != PG_OK ==> |r.encoded| < |ks| && ks[|r.encoded|] in failing)
    decreases |ks|
  {
    if ks != [] && ks[0] !in failing {
      EncodeWalkMeaning(ks[1..], failing);
      var r := EncodeWalk(ks[1..], failing);
      assert ks == [ks[0]] + ks[1..];
      forall j | 1 <= j < |ks|
        ensures ks[j] == ks[1..][j - 1]
      {
      }
    }
  }

  /**
   * encode over the visited kernels: a terminal type the encoder does not
   * handle is ia_err_argument (at the first kernel, or at the closing
   * payload descriptor when there is none); otherwise the walk.
   */
  function LiteEncodeSpec(t: TerminalType, ks: seq<nat>, failing: set<nat>): (r: LiteEncodeResult)
    ensures r.status == IA_ERR_ARGUMENT <==> !Encodable(t)
    ensures r.status == PG_OK <==> Encodable(t) && forall j :: 0 <= j < |ks| ==> ks[j] !in failing
    ensures |r.encoded| <= |ks| && r.encoded == ks[..|r.encoded|]
  {
    if !Encodable(t) then LiteEncodeResult(IA_ERR_ARGUMENT, [])
    else
      EncodeWalkMeaning(ks, failing);
      EncodeWalk(ks, failing)
  }

  /** A walk's result with the kernels already handed over put in front. */
  function AfterEncoded(done: seq<nat>, r: LiteEncodeResult): LiteEncodeResult
  {
    LiteEncodeResult(r.status, done + r.encoded)
  }

  /** One call to the P2P encoder: the kernel, and the section and payload offset it starts at. */
  datatype EncodeCall = EncodeCall(kernel: nat, section: nat, offset: nat)

  /** What a kernel adds to encode's running section or payload offset for the terminal type. */
  function LiteAmount(c: TermCounts, t: TerminalType): nat
  {
    match t
    case PARAM_CACHED_IN => c.paramIn
    case PROGRAM => c.program
    case PARAM_SPATIAL_IN => c.spatialIn
    case _ => 0
  }

  predicate IdsBelow(ks: seq<nat>, n: nat)
  {
    forall j :: 0 <= j < |ks| ==> ks[j] < n
  }

  /** A kernel's amount in a per-kernel table (the ids encode visits are always in range). */
  function Amount(table: seq<TermCounts>, k: nat, t: TerminalType): nat
  {
    if k < |table| then LiteAmount(table[k], t) else 0
  }

  /** The kernels' amounts in a table added up: where the kernel after them starts. */
  function Total(ks: seq<nat>, t: TerminalType, table: seq<TermCounts>): nat
  {
    if ks == [] then 0 else Total(ks[..|ks| - 1], t, table) + Amount(table, ks[|ks| - 1], t)
  }

  /** encode's calls for the kernels in turn, with curSection and curOffset running over the tables. */
  function Placements(ks: seq<nat>, t: TerminalType, sections: seq<TermCounts>, payloads: seq<TermCounts>)
    : (calls: seq<EncodeCall>)
    ensures |calls| == |ks|
  {
    if ks == [] then []
    else
      var init := ks[..|ks| - 1];
      Placements(init, t, sections, payloads) + [EncodeCall(ks[|ks| - 1], Total(init, t, sections), Total(init, t, payloads))]
  }

  /** The call for the kernel at position i starts where the kernels before it end. */
  lemma {:induction false} PlacementAt(ks: seq<nat>, i: nat, t: TerminalType, sections: seq<TermCounts>, payloads: seq<TermCounts>)
    requires i < |ks|
    ensures Placements(ks, t, sections, payloads)[i] == EncodeCall(ks[i], Total(ks[..i], t, sections), Total(ks[..i], t, payloads))
    decreases |ks|
  {
    var init := ks[..|ks| - 1];
    if i < |init| {
      PlacementAt(init, i, t, sections, payloads);
      assert init[..i] == ks[..i];
    }
  }

  /**
   * The calls are for the kernels in turn; the first starts at section and
   * offset 0, and each next one where the previous kernel's sections and
   * payload end, so the kernels' blocks lie back to back in the terminal.
   */
  lemma PlacementsBackToBack(ks: seq<nat>, t: TerminalType, sections: seq<TermCounts>, payloads: seq<TermCounts>)
    requires IdsBelow(ks, |sections|) && IdsBelow(ks, |payloads|)
    ensures var calls := Placements(ks, t, sections, payloads);
      && (forall i :: 0 <= i < |ks| ==> calls[i].kernel == ks[i])
      && (|ks| > 0 ==> calls[0].section == 0 && calls[0].offset == 0)
      && (forall i :: 0 <= i < |ks| - 1 ==>
            calls[i + 1].section == calls[i].section + LiteAmount(sections[ks[i]], t) &&
            calls[i + 1].offset == calls[i].offset + LiteAmount(payloads[ks[i]], t))
  {
    var calls := Placements(ks, t, sections, payloads);
    forall i | 0 <= i < |ks|
      ensures calls[i].kernel == ks[i]
    {
      PlacementAt(ks, i, t, sections, payloads);
    }
    if |ks| > 0 {
      PlacementAt(ks, 0, t, sections, payloads);
    }
    forall i | 0 <= i < |ks| - 1
      ensures calls[i + 1].section == calls[i].section + LiteAmount(sections[ks[i]], t)
      ensures calls[i + 1].offset == calls[i].offset + LiteAmount(payloads[ks[i]], t)
    {
      PlacementAt(ks, i, t, sections, payloads);
      PlacementAt(ks, i + 1, t, sections, payloads);
      assert ks[..i + 1][..i] == ks[..i];
    }
  }

  /** One more kernel: its call starts where the kernels before it end. */
  lemma PlacementsSnoc(ks: seq<nat>, k: nat, t: TerminalType, sections: seq<TermCounts>, payloads: seq<TermCounts>)
    requires k < |sections| && k < |payloads|
    ensures Placements(ks + [k], t, sections, payloads) ==
      Placements(ks, t, sections, payloads) + [EncodeCall(k, Total(ks, t, sections), Total(ks, t, payloads))]
    ensures Total(ks + [k], t, sections) == Total(ks, t, sections) + LiteAmount(sections[k], t)
    ensures Total(ks + [k], t, payloads) == Total(ks, t, payloads) + LiteAmount(payloads[k], t)
  {
    assert (ks + [k])[..|ks|] == ks;
  }

  /** The loop's running state: the calls so far are the placements of the kernels so far, and the counters are their totals. */
  predicate Placed(encoded: seq<nat>, calls: seq<EncodeCall>, curSection: nat, curOffset: nat, t: TerminalType,
                   sections: seq<TermCounts>, payloads: seq<TermCounts>)
  {
    && calls == Placements(encoded, t, sections, payloads)
    && curSection == Total(encoded, t, sections) && curOffset == Total(encoded, t, payloads)
  }

  /** Calling the encoder for one more kernel and moving the counters past it keeps Placed. */
  lemma PlacedStep(encoded: seq<nat>, calls: seq<EncodeCall>, curSection: nat, curOffset: nat, k: nat, t: TerminalType,
                   sections: seq<TermCounts>, payloads: seq<TermCounts>)
    requires Placed(encoded, calls, curSection, curOffset, t, sections, payloads)
    requires k < |sections| && k < |payloads|
    ensures Placed(encoded + [k], calls + [EncodeCall(k, curSection, curOffset)],
                   curSection + LiteAmount(sections[k], t), curOffset + LiteAmount(payloads[k], t), t, sections, payloads)
  {
    PlacementsSnoc(encoded, k, t, sections, payloads);
  }

  /**
   * The calls a walk over ks made: all of them on success, those before the
   * rejected kernel and the rejected one on ia_err_general, and none for a
   * terminal type the encoder does not handle.
   */
  predicate CallsOf(r: LiteEncodeResult, calls: seq<EncodeCall>, ks: seq<nat>, t: TerminalType,
                    sections: seq<TermCounts>, payloads: seq<TermCounts>)
  {
    && (r.status == PG_OK ==> calls == Placements(ks, t, sections, payloads))
    && (r.status == IA_ERR_GENERAL ==>
          |r.encoded| < |ks| && calls == Placements(ks[..|r.encoded| + 1], t, sections, payloads))
    && (r.status == IA_ERR_ARGUMENT ==> calls == [])
  }

  /**
   * The state of encode's loop over ks: the kernels handed over so far and
   * those still to visit make up ks, the walk over ks is the walk over the
   * rest after them, and the calls and counters are Placed.
   */
  predicate Walking(ks: seq<nat>, encoded: seq<nat>, todo: seq<nat>, calls: seq<EncodeCall>, curSection: nat, curOffset: nat,
                    t: TerminalType, failing: set<nat>, sections: seq<TermCounts>, payloads: seq<TermCounts>)
  {
    && ks == encoded + todo
    && EncodeWalk(ks, failing) == AfterEncoded(encoded, EncodeWalk(todo, failing))
    && Encodable(t)
    && Placed(encoded, calls, curSection, curOffset, t, sections, payloads)
  }

  /** Before the loop: nothing handed over, no call made, both counters at 0. */
  lemma WalkingStarts(ks: seq<nat>, t: TerminalType, failing: set<nat>, sections: seq<TermCounts>, payloads: seq<TermCounts>)
    requires Encodable(t)
    ensures Walking(ks, [], ks, [], 0, 0, t, failing, sections, payloads)
  {
    assert [] + ks == ks;
  }

  /** A kernel the encoder accepts: it joins those handed over, and the counters move past it. */
  lemma WalkingStep(ks: seq<nat>, encoded: seq<nat>, k: nat, rest: seq<nat>, calls: seq<EncodeCall>, curSection: nat, curOffset: nat,
                    t: TerminalType, failing: set<nat>, sections: seq<TermCounts>, payloads: seq<TermCounts>)
    requires Walking(ks, encoded, [k] + rest, calls, curSection, curOffset, t, failing, sections, payloads)
    requires k !in failing && k < |sections| && k < |payloads|
    ensures Walking(ks, encoded + [k], rest, calls + [EncodeCall(k, curSection, curOffset)],
                    curSection + LiteAmount(sections[k], t), curOffset + LiteAmount(payloads[k], t), t, failing, sections, payloads)
  {
    WalkGoesOn(encoded, k, rest, failing);
    PlacedStep(encoded, calls, curSection, curOffset, k, t, sections, payloads);
  }

  /** A kernel the encoder rejects: encode fails with the kernels before it, having called it too. */
  lemma WalkingRejects(ks: seq<nat>, encoded: seq<nat>, k: nat, rest: seq<nat>, calls: seq<EncodeCall>, curSection: nat, curOffset: nat,
                       t: TerminalType, failing: set<nat>, sections: seq<TermCounts>, payloads: seq<TermCounts>)
    requires Walking(ks, encoded, [k] + rest, calls, curSection, curOffset, t, failing, sections, payloads)
    requires k in failing && k < |sections| && k < |payloads|
    ensures EncodedAs(LiteEncodeResult(IA_ERR_GENERAL, encoded), calls + [EncodeCall(k, curSection, curOffset)], ks, t, failing,
                      sections, payloads)
  {
    WalkFails(encoded, k, rest, failing);
    assert ks[|encoded|] == k;
    PlacedStep(encoded, calls, curSection, curOffset, k, t, sections, payloads);
    assert ks[..|encoded| + 1] == encoded + [k];
  }

  /** Nothing left to visit: encode returns the walk's result, having called every kernel. */
  lemma WalkingEnds(ks: seq<nat>, encoded: seq<nat>, calls: seq<EncodeCall>, curSection: nat, curOffset: nat,
                    t: TerminalType, failing: set<nat>, sections: seq<TermCounts>, payloads: seq<TermCounts>)
    requires Walking(ks, encoded, [], calls, curSection, curOffset, t, failing, sections, payloads)
    ensures EncodedAs(LiteEncodeResult(PG_OK, encoded), calls, ks, t, failing, sections, payloads)
  {
    WalkEnds(encoded, failing);
    assert ks == encoded;
  }

  /**
   * todo is what the scan of the order reads from entry i on: the ids of the
   * entries in turn, each a kernel, up to the end of the order or the first
   * entry that is not a kernel.
   */
  predicate ScanFrom(order: seq<KernelInfo>, maxKernels: nat, i: nat, todo: seq<nat>)
  {
    && i + |todo| <= |order|
    && (forall j {:trigger todo[j]} :: 0 <= j < |todo| ==> todo[j] == order[i + j].id && todo[j] < maxKernels)
    && (i + |todo| == |order| || order[i + |todo|].id >= maxKernels)
  }

  /** OrderIds is that scan. */
  lemma {:induction false} OrderIdsScan(order: seq<KernelInfo>, maxKernels: nat, i: nat)
    requires i <= |order|
    ensures ScanFrom(order, maxKernels, i, OrderIds(order, maxKernels, i))
    decreases |order| - i
  {
    if i < |order| && order[i].id < maxKernels {
      OrderIdsScan(order, maxKernels, i + 1);
      var ids, rest := OrderIds(order, maxKernels, i), OrderIds(order, maxKernels, i + 1);
      forall j | 1 <= j < |ids|
        ensures ids[j] == order[i + j].id && ids[j] < maxKernels
      {
        assert ids[j] == rest[j - 1];
      }
    }
  }

  /** An entry naming a kernel is read, and the scan goes on after it. */
  lemma ScanStep(order: seq<KernelInfo>, maxKernels: nat, i: nat, todo: seq<nat>)
    requires ScanFrom(order, maxKernels, i, todo) && i < |order| && order[i].id < maxKernels
    ensures todo != [] && todo == [order[i].id] + todo[1..] && ScanFrom(order, maxKernels, i + 1, todo[1..])
  {
    assert todo != [];
    assert todo == [todo[0]] + todo[1..];
    forall j | 0 <= j < |todo[1..]|
      ensures todo[1..][j] == order[i + 1 + j].id
    {
      assert todo[1..][j] == todo[j + 1];
    }
  }

  /** Nothing is left to read exactly when the order has ended or its next entry is not a kernel. */
  lemma ScanEnd(order: seq<KernelInfo>, maxKernels: nat, i: nat, todo: seq<nat>)
    requires ScanFrom(order, maxKernels, i, todo)
    ensures todo == [] <==> i == |order| || order[i].id >= maxKernels
  {
    if todo != [] {
      assert todo[0] == order[i].id;
    }
  }

  /** encode's loop over ks returned r after the calls: the walk's result and the calls it made. */
  predicate EncodedAs(r: LiteEncodeResult, calls: seq<EncodeCall>, ks: seq<nat>, t: TerminalType, failing: set<nat>,
                      sections: seq<TermCounts>, payloads: seq<TermCounts>)
  {
    r == LiteEncodeSpec(t, ks, failing) && CallsOf(r, calls, ks, t, sections, payloads)
  }

  /** A terminal type the encoder does not handle: ia_err_argument before any call. */
  lemma UnencodableType(t: TerminalType, ks: seq<nat>, failing: set<nat>, sections: seq<TermCounts>, payloads: seq<TermCounts>)
    requires !Encodable(t)
    ensures EncodedAs(LiteEncodeResult(IA_ERR_ARGUMENT, []), [], ks, t, failing, sections, payloads)
  {
  }

  /** The kernel-order branch of encode's loop: entries are read in turn until one is not a kernel. */
  method EncodeLiteOrder(t: TerminalType, order: seq<KernelInfo>, maxKernels: nat, failing: set<nat>,
                         sections: seq<TermCounts>, payloads: seq<TermCounts>)
    returns (r: LiteEncodeResult, calls: seq<EncodeCall>)
    requires |sections| == maxKernels && |payloads| == maxKernels
    ensures IdsBelow(OrderIds(order, maxKernels, 0), maxKernels)
    ensures EncodedAs(r, calls, OrderIds(order, maxKernels, 0), t, failing, sections, payloads)
  {
    ghost var ks := OrderIds(order, maxKernels, 0);
    OrderIdsScan(order, maxKernels, 0);
    if !Encodable(t) {
      UnencodableType(t, ks, failing, sections, payloads);
      return LiteEncodeResult(IA_ERR_ARGUMENT, []), [];
    }
    var kernelIndex := 0;
    var curSection: nat, curOffset: nat := 0, 0;
    var encoded: seq<nat> := [];
    ghost var todo := ks;
    calls := [];
    WalkingStarts(ks, t, failing, sections, payloads);
    while kernelIndex < |order| && order[kernelIndex].id < maxKernels
      invariant Walking(ks, encoded, todo, calls, curSection, curOffset, t, failing, sections, payloads)
      invariant ScanFrom(order, maxKernels, kernelIndex, todo)
    {
      var kernelId := order[kernelIndex].id;
      ScanStep(order, maxKernels, kernelIndex, todo);
      ghost var rest := todo[1..];
      kernelIndex := kernelIndex + 1;
      var accepted;
      accepted, calls, curSection, curOffset := EncodeKernel(ks, encoded, todo, kernelId, rest, calls, curSection, curOffset, t, failing, sections, payloads);
      if !accepted {
        return LiteEncodeResult(IA_ERR_GENERAL, encoded), calls;
      }
      encoded, todo := encoded + [kernelId], rest;
    }
    ScanEnd(order, maxKernels, kernelIndex, todo);
    WalkingEnds(ks, encoded, calls, curSection, curOffset, t, failing, sections, payloads);
    r := LiteEncodeResult(PG_OK, encoded);
  }

  /**
   * The body of encode's loop for kernel k, the next of those left to visit,
   * once the terminal type is one the encoder handles: the encoder is called
   * at the running section and payload offset, which then move past the
   * kernel's; accepted is whether the encoder took the kernel.
   */
  method EncodeKernel(ghost ks: seq<nat>, ghost encoded: seq<nat>, ghost todo: seq<nat>, k: nat, ghost rest: seq<nat>,
                      calls: seq<EncodeCall>, curSection: nat, curOffset: nat, t: TerminalType, failing: set<nat>,
                      sections: seq<TermCounts>, payloads: seq<TermCounts>)
    returns (accepted: bool, calls': seq<EncodeCall>, curSection': nat, curOffset': nat)
    requires k < |sections| && k < |payloads|
    requires todo == [k] + rest
    requires Walking(ks, encoded, todo, calls, curSection, curOffset, t, failing, sections, payloads)
    ensures accepted <==> k !in failing
    ensures calls' == calls + [EncodeCall(k, curSection, curOffset)]
    ensures curSection' == curSection + LiteAmount(sections[k], t) && curOffset' == curOffset + LiteAmount(payloads[k], t)
    ensures accepted ==> Walking(ks, encoded + [k], rest, calls', curSection', curOffset', t, failing, sections, payloads)
    ensures !accepted ==> EncodedAs(LiteEncodeResult(IA_ERR_GENERAL, encoded), calls', ks, t, failing, sections, payloads)
  {
    calls' := calls + [EncodeCall(k, curSection, curOffset)];
    curSection' := curSection + LiteAmount(sections[k], t);
    curOffset' := curOffset + LiteAmount(payloads[k], t);
    accepted := k !in failing;
    if accepted {
      WalkingStep(ks, encoded, k, rest, calls, curSection, curOffset, t, failing, sections, payloads);
    } else {
      WalkingRejects(ks, encoded, k, rest, calls, curSection, curOffset, t, failing, sections, payloads);
    }
  }

  /** A kernel that encodes joins those already handed over. */
  lemma WalkGoesOn(done: seq<nat>, k: nat, rest: seq<nat>, failing: set<nat>)
    requires k !in failing
    ensures AfterEncoded(done, EncodeWalk([k] + rest, failing)) == AfterEncoded(done + [k], EncodeWalk(rest, failing))
  {
    assert ([k] + rest)[1..] == rest;
    SeqAssoc(done, [k], EncodeWalk(rest, failing).encoded);
  }

  /** A kernel that fails to encode ends the walk with what was handed over before it. */
  lemma WalkFails(done: seq<nat>, k: nat, rest: seq<nat>, failing: set<nat>)
    requires k in failing
    ensures AfterEncoded(done, EncodeWalk([k] + rest, failing)) == LiteEncodeResult(IA_ERR_GENERAL, done)
  {
    assert done + [] == done;
  }

  /** With no kernel left the walk succeeds with what was handed over. */
  lemma WalkEnds(done: seq<nat>, failing: set<nat>)
    ensures AfterEncoded(done, EncodeWalk([], failing)) == LiteEncodeResult(PG_OK, done)
  {
    assert done + [] == done;
  }

  /** The bitmap branch of encode's loop: the lowest kernel is encoded and its bit cleared. */
  method EncodeLiteBitmap(t: TerminalType, bitmap: KernelBitmap, failing: set<nat>,
                          sections: seq<TermCounts>, payloads: seq<TermCounts>)
    returns (r: LiteEncodeResult, calls: seq<EncodeCall>)
    requires InWidth(bitmap)
    requires forall k :: k in bitmap ==> k < |sections| && k < |payloads|
    ensures IdsBelow(Ascending(bitmap), |sections|) && IdsBelow(Ascending(bitmap), |payloads|)
    ensures EncodedAs(r, calls, Ascending(bitmap), t, failing, sections, payloads)
  {
    ghost var ks := Ascending(bitmap);
    PG.AscendingAt(bitmap);
    var b := bitmap;
    if !Encodable(t) {
      UnencodableType(t, ks, failing, sections, payloads);
      return LiteEncodeResult(IA_ERR_ARGUMENT, []), [];
    }
    var curSection: nat, curOffset: nat := 0, 0;
    var encoded: seq<nat> := [];
    calls := [];
    WalkingStarts(ks, t, failing, sections, payloads);
    while b != {}
      invariant InWidth(b) && b <= bitmap
      invariant Walking(ks, encoded, Ascending(b), calls, curSection, curOffset, t, failing, sections, payloads)
      decreases |b|
    {
      var n := GetKernelIdByBitmap(b);
      var kernelId: nat := n;
      ghost var todo, rest := Ascending(b), Ascending(b - {kernelId});
      assert todo == [kernelId] + rest;
      b := b - {kernelId};
      var accepted;
      accepted, calls, curSection, curOffset := EncodeKernel(ks, encoded, todo, kernelId, rest, calls, curSection, curOffset, t, failing, sections, payloads);
      if !accepted {
        return LiteEncodeResult(IA_ERR_GENERAL, encoded), calls;
      }
      encoded := encoded + [kernelId];
    }
    WalkingEnds(ks, encoded, calls, curSection, curOffset, t, failing, sections, payloads);
    r := LiteEncodeResult(PG_OK, encoded);
  }


  // ---------------------------------------------------------------------
  // The adaptor object.
  // ---------------------------------------------------------------------

  /** prepareRequirements away from the object: the terminal loop, then the kernel loop over the written terminals. */
  method PrepareLite(m: LiteManifest, st: PG.PrepState, rep: PG.P2pReport, maxTerminals: nat, maxKernels: nat)
    returns (o: LiteOutcome)
    requires ManifestFits(m, maxKernels) && PG.Shaped(st, maxKernels) && PG.ReportFits(rep, maxKernels)
    ensures o == LitePrepareSpec(m, st, rep, maxTerminals, maxKernels)
  {
    var status, reqs := PrepareLiteTerminals(m.terminals, maxTerminals, maxKernels);
    if status != PG_OK {
      return LiteOutcome(status, st.(reqs := reqs));
    }
    var n := |m.terminals|;
    var r := LiteKernelLoop(st.(reqs := reqs[..n]), rep.kernels * m.kernels, maxKernels, rep.sections, rep.payloads);
    o := LiteOutcome(if r.PrepFailed? then r.status else PG_OK, r.st.(reqs := r.st.reqs + reqs[n..]));
  }

  /**
   * PSysP2pLite: the ISP kernel group (mKernelGroup), the manifest the
   * pipe sets, the terminal requirements (mPgReqs, a table of
   * IPU_MAX_TERMINAL_COUNT entries) and the per-kernel tables (mKernel).
   * The table sizes IPU_MAX_KERNELS_PER_PG and IPU_MAX_TERMINAL_COUNT are
   * parameters.
   */
  class P2pLite {
    const maxKernels: nat
    const maxTerminals: nat
    var manifest: LiteManifest
    var reqs: seq<TerminalReq>
    var kernelSections: seq<TermCounts>
    var kernelPayloads: seq<TermCounts>
    var kernelPayloadSize: nat
    var runKernels: array?<RunKernel>
    var kernelCount: nat

    /** The tables have their fixed sizes, the kernel group array its count, and every kernel id fits. */
    ghost predicate Valid()
      reads this
    {
      && |reqs| == maxTerminals
      && |kernelSections| == maxKernels && |kernelPayloads| == maxKernels
      && PG.BitmapsWithin(reqs, maxKernels)
      && ManifestFits(manifest, maxKernels)
      && (runKernels != null ==> runKernels.Length == kernelCount)
    }

    /** The requirement table and kernel tables prepareRequirements works on. */
    function State(): PG.PrepState
      reads this
    {
      PG.PrepState(reqs, kernelSections, kernelPayloads, kernelPayloadSize)
    }

    /** The constructor: no manifest, a cleared table, no kernel group. */
    constructor(maxKernels: nat, maxTerminals: nat)
      ensures Valid()
      ensures this.maxKernels == maxKernels && this.maxTerminals == maxTerminals
      ensures manifest == LiteManifest([], {})
      ensures reqs == seq(maxTerminals, _ => CLEARED_TERMINAL)
      ensures runKernels == null && kernelCount == 0
    {
      this.maxKernels := maxKernels;
      this.maxTerminals := maxTerminals;
      manifest := LiteManifest([], {});
      reqs := seq(maxTerminals, _ => CLEARED_TERMINAL);
      kernelSections := seq(maxKernels, _ => NO_COUNTS);
      kernelPayloads := seq(maxKernels, _ => NO_COUNTS);
      kernelPayloadSize := 0;
      runKernels := null;
      kernelCount := 0;
    }

    /** setTerminalCount and setPgManifest: the manifest prepareRequirements reads. */
    method SetManifest(m: LiteManifest)
      requires Valid() && ManifestFits(m, maxKernels)
      modifies this
      ensures Valid() && manifest == m
      ensures State() == old(State()) && runKernels == old(runKernels) && kernelCount == old(kernelCount)
    {
      manifest := m;
    }

    /**
     * setKernelConfig: the kernel group gets the first count kernels.  Its
     * array is reused when there is one of that count, and replaced by a
     * new one otherwise.
     */
    method SetKernelConfig(count: nat, kernels: seq<RunKernel>) returns (status: Status)
      requires Valid() && count <= |kernels|
      modifies this, runKernels
      ensures Valid() && status == OK
      ensures runKernels != null && kernelCount == count && runKernels[..] == kernels[..count]
      ensures old(runKernels) != null && old(kernelCount) == count ==> runKernels == old(runKernels)
      ensures !(old(runKernels) != null && old(kernelCount) == count) ==> fresh(runKernels)
      ensures manifest == old(manifest) && State() == old(State())
    {
      if runKernels == null || kernelCount != count {
        kernelCount := count;
        runKernels := new RunKernel[count];
      }
      var group := runKernels;
      forall i | 0 <= i < count {
        group[i] := kernels[i];
      }
      status := OK;
    }

    /** prepareRequirements with the library's report on the enabled kernels. */
    method PrepareRequirements(rep: PG.P2pReport) returns (status: PgStatus)
      requires Valid() && PG.ReportFits(rep, maxKernels)
      modifies this
      ensures Valid()
      ensures manifest == old(manifest) && runKernels == old(runKernels) && kernelCount == old(kernelCount)
      ensures LiteOutcome(status, State()) == LitePrepareSpec(manifest, old(State()), rep, maxTerminals, maxKernels)
    {
      var o := PrepareLite(manifest, State(), rep, maxTerminals, maxKernels);
      status := o.status;
      reqs := o.st.reqs;
      kernelSections := o.st.sections;
      kernelPayloads := o.st.payloads;
      kernelPayloadSize := o.st.payloadSize;
    }

    /** getPayloadSize: BAD_INDEX outside the table, else the entry's payload size. */
    method GetPayloadSize(terminalIndex: int) returns (status: Status, payloadSize: nat)
      requires |reqs| == maxTerminals
      ensures status == OK <==> 0 <= terminalIndex < maxTerminals
      ensures status != OK ==> status == BAD_INDEX
      ensures status == OK ==> payloadSize == reqs[terminalIndex].payloadSize
    {
      if terminalIndex < 0 || terminalIndex >= maxTerminals {
        return BAD_INDEX, 0;
      }
      status, payloadSize := OK, reqs[terminalIndex].payloadSize;
    }

    /**
     * encode: a terminal index the process group does not have is
     * UNKNOWN_ERROR, checked first; one outside the table is BAD_INDEX; a
     * program terminal whose initialisation the P2P library refuses
     * (`programInit`) returns that error.  Otherwise the entry's kernels are
     * encoded in visiting order, each at the section and payload offset
     * where the kernels before it end (`calls`), and a terminal that
     * encodes has its payload buffer address reset to 0 (`payloadReset`).
     */
    method Encode(terminalIndex: int, tmIndices: seq<int>, programInit: PgStatus, failing: set<nat>)
      returns (r: LiteEncodeResult, calls: seq<EncodeCall>, payloadReset: bool)
      requires Valid()
      ensures terminalIndex !in tmIndices ==> r == LiteEncodeResult(HAL_ERROR(UNKNOWN_ERROR), [])
      ensures terminalIndex in tmIndices && !(0 <= terminalIndex < maxTerminals) ==> r == LiteEncodeResult(HAL_ERROR(BAD_INDEX), [])
      ensures (terminalIndex in tmIndices && 0 <= terminalIndex < maxTerminals &&
               reqs[terminalIndex].termType == PROGRAM && programInit != PG_OK) ==>
        r == LiteEncodeResult(programInit, [])
      ensures !(terminalIndex in tmIndices && 0 <= terminalIndex < maxTerminals) ==> calls == [] && !payloadReset
      ensures (terminalIndex in tmIndices && 0 <= terminalIndex < maxTerminals &&
               !(reqs[terminalIndex].termType == PROGRAM && programInit != PG_OK)) ==>
        var tr := reqs[terminalIndex];
        var ks := LiteVisit(tr, maxKernels);
        && r == LiteEncodeSpec(tr.termType, ks, failing)
        && IdsBelow(ks, maxKernels)
        && CallsOf(r, calls, ks, tr.termType, kernelSections, kernelPayloads)
        && (payloadReset <==> r.status == PG_OK)
      ensures r.status != PG_OK ==> !payloadReset
    {
      calls, payloadReset := [], false;
      var index := PG.FindTerminal(tmIndices, terminalIndex);
      if index == |tmIndices| {
        return LiteEncodeResult(HAL_ERROR(UNKNOWN_ERROR), []), calls, payloadReset;
      }
      if terminalIndex < 0 || terminalIndex >= maxTerminals {
        return LiteEncodeResult(HAL_ERROR(BAD_INDEX), []), calls, payloadReset;
      }
      var tr := reqs[terminalIndex];
      if tr.termType == PROGRAM && programInit != PG_OK {
        return LiteEncodeResult(programInit, []), calls, payloadReset;
      }
      if tr.kernelBitmap == {} {
        r := if Encodable(tr.termType) then LiteEncodeResult(PG_OK, []) else LiteEncodeResult(IA_ERR_ARGUMENT, []);
      } else if tr.kernelOrder.Some? {
        r, calls := EncodeLiteOrder(tr.termType, tr.kernelOrder.value, maxKernels, failing, kernelSections, kernelPayloads);
      } else {
        r, calls := EncodeLiteBitmap(tr.termType, tr.kernelBitmap, failing, kernelSections, kernelPayloads);
      }
      payloadReset := r.status == PG_OK;
    }
  }
}
