/**
 * The program-group requirement bookkeeping shared by the two parameter
 * adaptors (core/pgprocessor/PGParamAdapt.cpp and
 * core/psyslite/PSysP2pLite.cpp): kernel bitmaps, the per-terminal kernel
 * order built from the manifest's parameter sections, the terminal
 * lookups by type and by kernel bitmap, and the accumulation of a
 * kernel's section and payload requirements onto a terminal.
 */
module PgRequirements {
  import opened Common

  /**
   * The adaptors' return codes, where css_err_t, ia_err and the HAL status
   * share one int: their success values are all 0.
   */
  datatype PgStatus =
    | PG_OK
    | CSS_ERR_ARGUMENT | CSS_ERR_INTERNAL | CSS_ERR_NOMEMORY
    | IA_ERR_GENERAL | IA_ERR_INTERNAL | IA_ERR_ARGUMENT
    | HAL_ERROR(status: Status)

  // ---------------------------------------------------------------------
  // Kernel bitmaps.
  // ---------------------------------------------------------------------

  /** Width of ia_css_kernel_bitmap_t: a 64-bit mask. */
  const KERNEL_BITMAP_BITS: nat := 64

  /** A kernel bitmap as the set of kernel ids whose bit is set. */
  type KernelBitmap = set<nat>

  predicate InWidth(b: KernelBitmap)
  {
    forall k :: k in b ==> k < KERNEL_BITMAP_BITS
  }

  /** The lowest set bit at or above n, or KERNEL_BITMAP_BITS when there is none. */
  function LowestFrom(b: KernelBitmap, n: nat): nat
    decreases KERNEL_BITMAP_BITS - n
  {
    if n >= KERNEL_BITMAP_BITS then KERNEL_BITMAP_BITS
    else if n in b then n
    else LowestFrom(b, n + 1)
  }

  /** LowestFrom finds a set bit not above any set bit from n on, or reports that there is none. */
  lemma {:induction false} LowestFromIsLeast(b: KernelBitmap, n: nat)
    ensures LowestFrom(b, n) < KERNEL_BITMAP_BITS ==> LowestFrom(b, n) in b
    ensures forall j :: j in b && n <= j < KERNEL_BITMAP_BITS ==> LowestFrom(b, n) <= j
    decreases KERNEL_BITMAP_BITS - n
  {
    if n < KERNEL_BITMAP_BITS && n !in b {
      LowestFromIsLeast(b, n + 1);
    }
  }

  /** The lowest set bit of a non-empty bitmap. */
  function Lowest(b: KernelBitmap): (k: nat)
    requires b != {} && InWidth(b)
    ensures k in b && forall j :: j in b ==> k <= j
  {
    LowestExists(b);
    LowestFrom(b, 0)
  }

  lemma LowestExists(b: KernelBitmap)
    requires b != {} && InWidth(b)
    ensures LowestFrom(b, 0) in b && forall j :: j in b ==> LowestFrom(b, 0) <= j
  {
    var j :| j in b;
    LowestFromIsLeast(b, 0);
  }

  /**
   * The scan shared by both getKernelIdByBitmap variants: count up from
   * bit 0 until a set bit is found.
   */
  method LowestSetBit(b: KernelBitmap) returns (n: nat)
    requires b != {} && InWidth(b)
    ensures n == Lowest(b)
  {
    ghost var lo := Lowest(b);
    n := 0;
    while n !in b
      invariant n <= lo
      decreases lo - n
    {
      n := n + 1;
    }
  }

  /** The kernel ids of a bitmap in the order the requirement loops visit them: lowest first. */
  function Ascending(b: KernelBitmap): (ks: seq<nat>)
    requires InWidth(b)
    ensures |ks| == |b|
    decreases |b|
  {
    if b == {} then [] else [Lowest(b)] + Ascending(b - {Lowest(b)})
  }

  /** The visiting order starts with the lowest bit and goes on with the others. */
  lemma AscendingStep(b: KernelBitmap)
    requires b != {} && InWidth(b)
    ensures Ascending(b) == [Lowest(b)] + Ascending(b - {Lowest(b)})
    ensures Ascending(b)[0] == Lowest(b) && Ascending(b)[1..] == Ascending(b - {Lowest(b)})
  {
  }

  /** The visiting order lists exactly the set bits. */
  lemma {:induction false} AscendingMembers(b: KernelBitmap)
    requires InWidth(b)
    ensures forall x :: x in Ascending(b) <==> x in b
    decreases |b|
  {
    if b != {} {
      var k := Lowest(b);
      AscendingMembers(b - {k});
      assert Ascending(b) == [k] + Ascending(b - {k});
    }
  }

  /** The visiting order is strictly increasing, so each set bit is visited once. */
  lemma {:induction false} AscendingIncreasing(b: KernelBitmap)
    requires InWidth(b)
    ensures forall i, j :: 0 <= i < j < |Ascending(b)| ==> Ascending(b)[i] < Ascending(b)[j]
    decreases |b|
  {
    if b != {} {
      var k := Lowest(b);
      var rest := b - {k};
      var a := Ascending(b);
      var r := Ascending(rest);
      AscendingIncreasing(rest);
      AscendingMembers(rest);
      assert a == [k] + r;
      forall i, j | 0 <= i < j < |a| ensures a[i] < a[j] {
        assert a[j] == r[j - 1];
        assert a[j] in rest;
        if i > 0 {
          assert a[i] == r[i - 1];
        }
      }
    }
  }

  // ---------------------------------------------------------------------
  // Terminals and the kernel order of a parameter terminal.
  // ---------------------------------------------------------------------

  datatype TerminalType =
    | PARAM_CACHED_IN | PARAM_CACHED_OUT
    | PARAM_SPATIAL_IN | PARAM_SPATIAL_OUT
    | DATA_IN | DATA_OUT
    | PROGRAM | PROGRAM_CONTROL_INIT
    | OTHER_TERMINAL(code: int)

  /** A parameter section of a terminal manifest: the kernel it belongs to and its size. */
  datatype Section = Section(kernelId: nat, maxMemSize: nat)

  /** IpuPgTerminalKernelInfo: one run of sections of the same kernel. */
  datatype KernelInfo = KernelInfo(id: nat, sections: nat, size: nat, initialize: bool)

  const UINT8_MAX: nat := 0xFF

  /** An entry of the kernel order array as memset to UINT8_MAX left it: every byte 0xFF. */
  const UNUSED_KERNEL_INFO: KernelInfo := KernelInfo(UINT8_MAX, UINT8_MAX, 0xFFFF_FFFF, true)

  /**
   * The kernel order of a section list: sections of the same kernel come
   * in a row and are merged into one run counting its sections and their
   * sizes; a new kernel starts a run of one uninitialised section.
   */
  function Runs(s: seq<Section>): seq<KernelInfo>
  {
    if s == [] then [] else Merge(Runs(s[..|s| - 1]), s[|s| - 1])
  }

  /** One section added to a kernel order: it extends the last run when of the same kernel. */
  function Merge(r: seq<KernelInfo>, x: Section): seq<KernelInfo>
  {
    if |r| > 0 && r[|r| - 1].id == x.kernelId then
      r[..|r| - 1] + [r[|r| - 1].(sections := r[|r| - 1].sections + 1, size := r[|r| - 1].size + x.maxMemSize)]
    else
      r + [KernelInfo(x.kernelId, 1, x.maxMemSize, false)]
  }

  /** Adding a section never shortens the kernel order. */
  lemma {:induction false} RunsPrefixShorter(s: seq<Section>, i: nat)
    requires i <= |s|
    ensures |Runs(s[..i])| <= |Runs(s)|
    decreases |s| - i
  {
    if i < |s| {
      RunsPrefixShorter(s, i + 1);
      assert s[..i + 1][..i] == s[..i];
    } else {
      assert s[..i] == s;
    }
  }

  /**
   * The slot each new run is written to by the kernel order builders as
   * written: kernelOrder[kernelCount] with the uint8_t counter, checked
   * against no array length.
   */
  function RunSlotsAsWritten(s: seq<Section>): (slots: seq<nat>)
    ensures |slots| == |Runs(s)|
    ensures forall i :: 0 <= i < |slots| ==> slots[i] == i % 256
  {
    seq(|Runs(s)|, i => i % 256)
  }

  /** Sections of kernels 0, 1, ..., n - 1: every section is a run of its own. */
  function Staircase(n: nat): seq<Section>
  {
    seq(n, (i: nat) => Section(i, 0))
  }

  lemma {:induction false} StaircaseRuns(n: nat, k: nat)
    requires k <= n
    ensures |Runs(Staircase(n)[..k])| == k
    ensures k > 0 ==> Runs(Staircase(n)[..k])[k - 1].id == k - 1
  {
    if k > 0 {
      StaircaseRuns(n, k - 1);
      assert Staircase(n)[..k][..k - 1] == Staircase(n)[..k - 1];
    }
  }

  /**
   * A manifest with one section more than the order array has entries
   * (n < 256 of them), each of another kernel, makes the builders as
   * written store run n at slot n, one past the end of the array.
   */
  lemma KernelOrderOverrun(n: nat) returns (s: seq<Section>)
    requires n < 256
    ensures |RunSlotsAsWritten(s)| == n + 1 && RunSlotsAsWritten(s)[n] == n
  {
    s := Staircase(n + 1);
    StaircaseRuns(n + 1, n + 1);
    assert Staircase(n + 1)[..n + 1] == s;
  }

  /** The kernel ids of a section list, in order. */
  function Ids(s: seq<Section>): seq<nat>
  {
    seq(|s|, i requires 0 <= i < |s| => s[i].kernelId)
  }

  function Repeat(x: nat, n: nat): seq<nat>
  {
    seq(n, _ => x)
  }

  /** The section-by-section kernel ids a kernel order stands for. */
  function Expand(r: seq<KernelInfo>): seq<nat>
  {
    if r == [] then [] else Expand(r[..|r| - 1]) + Repeat(r[|r| - 1].id, r[|r| - 1].sections)
  }

  function TotalSize(r: seq<KernelInfo>): nat
  {
    if r == [] then 0 else TotalSize(r[..|r| - 1]) + r[|r| - 1].size
  }

  function TotalMemSize(s: seq<Section>): nat
  {
    if s == [] then 0 else TotalMemSize(s[..|s| - 1]) + s[|s| - 1].maxMemSize
  }

  /** A well-formed kernel order: runs of at least one uninitialised section, neighbours of different kernels. */
  predicate RunsWellFormed(r: seq<KernelInfo>)
  {
    && (forall i :: 0 <= i < |r| ==> r[i].sections >= 1 && !r[i].initialize)
    && (forall i :: 0 < i < |r| ==> r[i - 1].id != r[i].id)
  }

  /**
   * The kernel order loses nothing: expanding its runs gives back the
   * manifest's kernel id of every section.
   */
  lemma {:induction false} RunsExpand(s: seq<Section>)
    ensures Expand(Runs(s)) == Ids(s)
    decreases |s|
  {
    if s != [] {
      var p := s[..|s| - 1];
      var x := s[|s| - 1];
      RunsExpand(p);
      var r := Runs(p);
      assert Ids(s) == Ids(p) + [x.kernelId];
      if |r| > 0 && r[|r| - 1].id == x.kernelId {
        var l := r[|r| - 1];
        var q := r[..|r| - 1];
        assert r == q + [l];
        ExpandSnoc(q, l);
        ExpandSnoc(q, l.(sections := l.sections + 1, size := l.size + x.maxMemSize));
        RepeatSnoc(l.id, l.sections);
        SeqAssoc(Expand(q), Repeat(l.id, l.sections), [l.id]);
      } else {
        ExpandSnoc(r, KernelInfo(x.kernelId, 1, x.maxMemSize, false));
        assert Repeat(x.kernelId, 1) == [x.kernelId];
      }
    }
  }

  lemma ExpandSnoc(q: seq<KernelInfo>, l: KernelInfo)
    ensures Expand(q + [l]) == Expand(q) + Repeat(l.id, l.sections)
  {
    assert (q + [l])[..|q|] == q;
  }

  lemma RepeatSnoc(x: nat, n: nat)
    ensures Repeat(x, n + 1) == Repeat(x, n) + [x]
  {
  }

  /** The run sizes add up to the sections' sizes. */
  lemma {:induction false} RunsTotalSize(s: seq<Section>)
    ensures TotalSize(Runs(s)) == TotalMemSize(s)
    decreases |s|
  {
    if s != [] {
      var p := s[..|s| - 1];
      var x := s[|s| - 1];
      RunsTotalSize(p);
      var r := Runs(p);
      if |r| > 0 && r[|r| - 1].id == x.kernelId {
        var l := r[|r| - 1];
        var l' := l.(sections := l.sections + 1, size := l.size + x.maxMemSize);
        var q := r[..|r| - 1];
        assert (q + [l'])[..|q|] == q;
        assert TotalSize(r) == TotalSize(q) + l.size;
      } else {
        var n := KernelInfo(x.kernelId, 1, x.maxMemSize, false);
        assert (r + [n])[..|r|] == r;
      }
    }
  }

  /** The runs are well formed and the last one is the last section's kernel. */
  lemma {:induction false} RunsAreWellFormed(s: seq<Section>)
    ensures RunsWellFormed(Runs(s))
    ensures s != [] ==> |Runs(s)| > 0 && Runs(s)[|Runs(s)| - 1].id == s[|s| - 1].kernelId
    decreases |s|
  {
    if s != [] {
      RunsAreWellFormed(s[..|s| - 1]);
      MergeWellFormed(Runs(s[..|s| - 1]), s[|s| - 1]);
    }
  }

  /** Merging a section keeps the runs well formed and ends them with that section's kernel. */
  lemma MergeWellFormed(r: seq<KernelInfo>, x: Section)
    requires RunsWellFormed(r)
    ensures RunsWellFormed(Merge(r, x))
    ensures |Merge(r, x)| > 0 && Merge(r, x)[|Merge(r, x)| - 1].id == x.kernelId
  {
    var m := Merge(r, x);
    if |r| > 0 && r[|r| - 1].id == x.kernelId {
      assert |m| == |r| && m[..|r| - 1] == r[..|r| - 1];
      assert forall i :: 0 <= i < |r| - 1 ==> m[i] == r[i];
    } else {
      assert m[..|r|] == r;
      assert forall i :: 0 <= i < |r| ==> m[i] == r[i];
    }
  }

  /** The kernel ids of the runs alone: what the P2P-lite order builder records. */
  function RunIds(s: seq<Section>): seq<nat>
  {
    if s == [] then []
    else
      var r := RunIds(s[..|s| - 1]);
      if |r| > 0 && r[|r| - 1] == s[|s| - 1].kernelId then r else r + [s[|s| - 1].kernelId]
  }

  /** RunIds lists the ids of Runs, one per run. */
  lemma {:induction false} RunIdsOfRuns(s: seq<Section>)
    ensures |RunIds(s)| == |Runs(s)|
    ensures forall i :: 0 <= i < |Runs(s)| ==> RunIds(s)[i] == Runs(s)[i].id
    decreases |s|
  {
    if s != [] {
      RunIdsOfRuns(s[..|s| - 1]);
    }
  }

  /** A terminal's entry in IpuPgRequirements. */
  datatype TerminalReq = TerminalReq(
    termType: TerminalType,
    kernelOrder: Option<seq<KernelInfo>>,
    kernelBitmap: KernelBitmap,
    sectionCount: nat,
    payloadSize: nat)

  /** A terminal entry as CLEAR(mPgReqs) leaves it. */
  const CLEARED_TERMINAL: TerminalReq := TerminalReq(OTHER_TERMINAL(0), None, {}, 0, 0)

  // ---------------------------------------------------------------------
  // terminalEnumerateByType / terminalEnumerateByBitmap.
  // ---------------------------------------------------------------------

  /** How many of the first i terminals have type t. */
  function CountOfType(ts: seq<TerminalReq>, t: TerminalType, i: nat): (n: nat)
    requires i <= |ts|
    ensures n <= i
  {
    if i == 0 then 0 else CountOfType(ts, t, i - 1) + (if ts[i - 1].termType == t then 1 else 0)
  }

  lemma {:induction false} CountOfTypeGrows(ts: seq<TerminalReq>, t: TerminalType, i: nat, j: nat)
    requires i <= j <= |ts|
    ensures CountOfType(ts, t, i) <= CountOfType(ts, t, j)
    decreases j - i
  {
    if i < j {
      CountOfTypeGrows(ts, t, i, j - 1);
    }
  }

  /**
   * terminalEnumerateByType: the index of the (num+1)-th terminal of type
   * t, or -1 when there are not that many.
   */
  method TerminalEnumerateByType(ts: seq<TerminalReq>, t: TerminalType, num: nat) returns (r: int)
    ensures r == -1 || (0 <= r < |ts| && ts[r].termType == t && CountOfType(ts, t, r) == num)
    ensures r == -1 <==> CountOfType(ts, t, |ts|) <= num
  {
    if |ts| == 0 {
      return -1;
    }
    var left := num;
    var terminal := 0;
    while terminal < |ts|
      invariant terminal <= |ts|
      invariant CountOfType(ts, t, terminal) <= num && left == num - CountOfType(ts, t, terminal)
    {
      if ts[terminal].termType == t {
        if left > 0 {
          left := left - 1;
        } else {
          CountOfTypeGrows(ts, t, terminal + 1, |ts|);
          return terminal;
        }
      }
      terminal := terminal + 1;
    }
    return -1;
  }

  function IsOfType(t: TerminalType): TerminalReq -> bool
  {
    (tr: TerminalReq) => tr.termType == t
  }

  function IsOfTypeWithBitmap(t: TerminalType, b: KernelBitmap): TerminalReq -> bool
  {
    (tr: TerminalReq) => tr.termType == t && tr.kernelBitmap == b
  }

  /** With num = 0, the enumeration finds the first terminal of the type. */
  lemma EnumerateFirst(ts: seq<TerminalReq>, t: TerminalType, r: int)
    requires r == -1 || (0 <= r < |ts| && ts[r].termType == t && CountOfType(ts, t, r) == 0)
    requires r == -1 <==> CountOfType(ts, t, |ts|) <= 0
    ensures r == -1 <==> FirstFrom(ts, IsOfType(t), 0).None?
    ensures r != -1 ==> FirstFrom(ts, IsOfType(t), 0) == Some(r as nat)
  {
    if r == -1 {
      forall j | 0 <= j < |ts| ensures !IsOfType(t)(ts[j]) {
        CountOfTypeGrows(ts, t, j + 1, |ts|);
      }
    } else {
      forall j | 0 <= j < r ensures !IsOfType(t)(ts[j]) {
        CountOfTypeGrows(ts, t, j + 1, r);
      }
      FirstFromIs(ts, IsOfType(t), 0, r);
    }
  }

  /**
   * terminalEnumerateByBitmap: the first terminal of type t whose kernel
   * bitmap equals b, or -1.
   */
  method TerminalEnumerateByBitmap(ts: seq<TerminalReq>, t: TerminalType, b: KernelBitmap) returns (r: int)
    ensures -1 <= r < |ts|
    ensures r == -1 <==> FirstFrom(ts, IsOfTypeWithBitmap(t, b), 0).None?
    ensures r != -1 ==> FirstFrom(ts, IsOfTypeWithBitmap(t, b), 0) == Some(r as nat)
  {
    if |ts| == 0 {
      return -1;
    }
    var terminal := 0;
    while terminal < |ts|
      invariant terminal <= |ts|
      invariant forall j :: 0 <= j < terminal ==> !IsOfTypeWithBitmap(t, b)(ts[j])
    {
      if ts[terminal].termType == t && ts[terminal].kernelBitmap == b {
        FirstFromIs(ts, IsOfTypeWithBitmap(t, b), 0, terminal);
        return terminal;
      }
      terminal := terminal + 1;
    }
    return -1;
  }

  // ---------------------------------------------------------------------
  // isKernelIdInKernelOrder / getKernelCountFromKernelOrder.
  // ---------------------------------------------------------------------

  function IdIs(k: nat): KernelInfo -> bool
  {
    (e: KernelInfo) => e.id == k
  }

  /** Whether a terminal takes kernel k: always without a kernel order, else when the order names it. */
  function InKernelOrder(tr: TerminalReq, k: nat): bool
  {
    tr.kernelOrder.None? || FirstFrom(tr.kernelOrder.value, IdIs(k), 0).Some?
  }

  /**
   * isKernelIdInKernelOrder: true without a kernel order; otherwise true
   * exactly when some entry names the kernel, with the first such entry's
   * position.
   */
  method IsKernelIdInKernelOrder(tr: TerminalReq, k: nat) returns (found: bool, orderedIndex: nat)
    ensures found == InKernelOrder(tr, k)
    ensures tr.kernelOrder.None? ==> found
    ensures tr.kernelOrder.Some? && found ==>
      (orderedIndex < |tr.kernelOrder.value| && tr.kernelOrder.value[orderedIndex].id == k
       && forall j :: 0 <= j < orderedIndex ==> tr.kernelOrder.value[j].id != k)
    ensures tr.kernelOrder.Some? && !found ==> forall j :: 0 <= j < |tr.kernelOrder.value| ==> tr.kernelOrder.value[j].id != k
  {
    orderedIndex := 0;
    if tr.kernelOrder.None? {
      return true, orderedIndex;
    }
    var order := tr.kernelOrder.value;
    var i := 0;
    while i < |order|
      invariant i <= |order|
      invariant forall j :: 0 <= j < i ==> !IdIs(k)(order[j])
    {
      if order[i].id == k {
        FirstFromIs(order, IdIs(k), 0, i);
        return true, i;
      }
      i := i + 1;
    }
    return false, orderedIndex;
  }

  /** How many entries of a kernel order name kernel k. */
  function Occurrences(order: seq<KernelInfo>, k: nat): (n: nat)
    ensures n <= |order|
  {
    if order == [] then 0 else Occurrences(order[..|order| - 1], k) + (if order[|order| - 1].id == k then 1 else 0)
  }

  /** A kernel named by no entry occurs zero times, and one named somewhere occurs at least once. */
  lemma {:induction false} OccurrencesPositive(order: seq<KernelInfo>, k: nat)
    ensures Occurrences(order, k) > 0 <==> exists j :: 0 <= j < |order| && order[j].id == k
    decreases |order|
  {
    if order != [] {
      var p := order[..|order| - 1];
      OccurrencesPositive(p, k);
      if exists j :: 0 <= j < |p| && p[j].id == k {
        var j :| 0 <= j < |p| && p[j].id == k;
        assert order[j].id == k;
      }
      if exists j :: 0 <= j < |order| && order[j].id == k {
        var j :| 0 <= j < |order| && order[j].id == k;
        if j < |p| {
          assert p[j].id == k;
        }
      }
    }
  }

  /** How many times the terminal counts a kernel: once without a kernel order, else its occurrences. */
  function KernelCount(tr: TerminalReq, k: nat): nat
  {
    if tr.kernelOrder.None? then 1 else Occurrences(tr.kernelOrder.value, k)
  }

  /** getKernelCountFromKernelOrder. */
  method GetKernelCountFromKernelOrder(tr: TerminalReq, k: nat) returns (count: nat)
    ensures count == KernelCount(tr, k)
    ensures InKernelOrder(tr, k) <==> count > 0
  {
    if tr.kernelOrder.None? {
      return 1;
    }
    var order := tr.kernelOrder.value;
    count := 0;
    var i := 0;
    while i < |order|
      invariant i <= |order| && count == Occurrences(order[..i], k)
    {
      assert order[..i + 1][..i] == order[..i];
      if order[i].id == k {
        count := count + 1;
      }
      i := i + 1;
    }
    assert order[..i] == order;
    KernelCountPositive(tr, k);
  }

  /** A terminal counts a kernel at least once exactly when it takes the kernel. */
  lemma KernelCountPositive(tr: TerminalReq, k: nat)
    ensures InKernelOrder(tr, k) <==> KernelCount(tr, k) > 0
  {
    if tr.kernelOrder.Some? {
      var order := tr.kernelOrder.value;
      OccurrencesPositive(order, k);
      if KernelCount(tr, k) > 0 {
        var j :| 0 <= j < |order| && order[j].id == k;
        assert IdIs(k)(order[j]);
      }
    }
  }

  // ---------------------------------------------------------------------
  // processTerminalKernelRequirements.
  // ---------------------------------------------------------------------

  /** Per-terminal-type counts of a kernel: its sections, or its payload sizes. */
  datatype TermCounts = TermCounts(paramIn: nat, paramOut: nat, program: nat, spatialIn: nat, spatialOut: nat)

  const NO_COUNTS: TermCounts := TermCounts(0, 0, 0, 0, 0)

  /** The count for a cached or program terminal; the other types have none here. */
  function CachedAmount(c: TermCounts, t: TerminalType): nat
  {
    match t
    case PARAM_CACHED_IN => c.paramIn
    case PARAM_CACHED_OUT => c.paramOut
    case PROGRAM => c.program
    case _ => 0
  }

  /** The terminal after a kernel's requirements were added: count times its sections and payload, and its bit set. */
  function WithKernelRequirements(tr: TerminalReq, t: TerminalType, k: nat, sections: TermCounts, payloads: TermCounts): (r: TerminalReq)
    ensures r.termType == tr.termType && r.kernelOrder == tr.kernelOrder
    ensures r.kernelBitmap == tr.kernelBitmap + {k}
    ensures r.sectionCount == tr.sectionCount + KernelCount(tr, k) * CachedAmount(sections, t)
    ensures r.payloadSize == tr.payloadSize + KernelCount(tr, k) * CachedAmount(payloads, t)
  {
    var n := KernelCount(tr, k);
    tr.(sectionCount := tr.sectionCount + n * CachedAmount(sections, t),
        payloadSize := tr.payloadSize + n * CachedAmount(payloads, t),
        kernelBitmap := tr.kernelBitmap + {k})
  }

  /** One more addition of n adds n to the product. */
  lemma OneMore(i: nat, n: nat)
    ensures (i + 1) * n == i * n + n
  {
  }

  /**
   * processTerminalKernelRequirements: once per occurrence of the kernel,
   * the kernel's section count and payload size for the terminal type are
   * added to the terminal; the kernel's bit is set.  lastPayload is what
   * the adaptor's running payload size becomes: the terminal's payload
   * size after the last addition, or unchanged (None) when there was none.
   */
  method ProcessTerminalKernelRequirements(tr: TerminalReq, t: TerminalType, k: nat, sections: TermCounts, payloads: TermCounts)
    returns (r: TerminalReq, lastPayload: Option<nat>)
    ensures r == WithKernelRequirements(tr, t, k, sections, payloads)
    ensures lastPayload == (if KernelCount(tr, k) == 0 then None else Some(r.payloadSize))
  {
    var kernelCount := GetKernelCountFromKernelOrder(tr, k);
    var sectionCount: nat, payloadSize: nat := 0, 0;
    ghost var a, b := CachedAmount(sections, t), CachedAmount(payloads, t);
    r := tr;
    lastPayload := None;
    var i := 0;
    while i < kernelCount
      invariant i <= kernelCount
      invariant r.termType == tr.termType && r.kernelOrder == tr.kernelOrder && r.kernelBitmap == tr.kernelBitmap
      invariant r.sectionCount == tr.sectionCount + i * a && r.payloadSize == tr.payloadSize + i * b
      invariant lastPayload == (if i == 0 then None else Some(r.payloadSize))
    {
      // the switch on the terminal type; other types add nothing
      sectionCount, payloadSize := CachedAmount(sections, t), CachedAmount(payloads, t);
      OneMore(i, a);
      OneMore(i, b);
      r := r.(sectionCount := r.sectionCount + sectionCount, payloadSize := r.payloadSize + payloadSize);
      lastPayload := Some(r.payloadSize);
      i := i + 1;
    }
    r := r.(kernelBitmap := r.kernelBitmap + {k});
  }
}
