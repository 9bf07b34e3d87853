/**
 * The terminal bookkeeping of a processing-group executor
 * (core/psysprocessor/PipeExecutor.cpp): which connections of the graph
 * feed the executor's first program group and leave its last one, the
 * ports assigned to those terminals, the stream information each port
 * carries, and the stream-matching rules used when executors are chained.
 * The graph queries (program-group ids, stage uids, ia_fourcc to V4L2
 * conversion) are answers given as parameters.
 */
module PipeExecutor {
  import opened Common
  import opened HalTypes
  import Utils

  /** Stream ids of the graph (GraphConfig.h, not part of this model). */
  const STILL_STREAM_ID: int := 60000
  const VIDEO_STREAM_ID: int := 60001

  /** Port count: the numeric value of INVALID_PORT, the bound analyzeConnections checks. */
  const PORT_COUNT: nat := 4

  datatype ConnectionConfig = ConnectionConfig(sourceStage: int, sourceTerminal: int, sinkStage: int, sinkTerminal: int)
  datatype PortFormatSettings = PortFormatSettings(enabled: bool, width: int, height: int, fourcc: int)
  /** IGraphConfig::PipelineConnection: the connection, its format and whether it is a pipe edge. */
  datatype Connection = Connection(config: ConnectionConfig, format: PortFormatSettings, hasEdgePort: bool)

  /** A terminal pair: the executor's own terminal and the peer terminal on the other side. */
  datatype TerminalPair = TerminalPair(own: int, peer: int)

  // ---------------------------------------------------------------------
  // analyzeConnections (735-812): the terminal pairs of the first and last PG.
  // ---------------------------------------------------------------------

  predicate FeedsFirst(c: Connection, firstStage: int)
  {
    c.format.enabled && c.config.sinkStage == firstStage
  }

  predicate LeavesLast(c: Connection, lastStage: int)
  {
    c.format.enabled && c.config.sourceStage == lastStage
  }

  /** The input pairs (sink terminal, source terminal) of the enabled connections into the first stage. */
  function InputPairs(cs: seq<Connection>, firstStage: int): (r: seq<TerminalPair>)
    ensures |r| <= |cs|
  {
    if cs == [] then []
    else
      var last := cs[|cs| - 1];
      InputPairs(cs[..|cs| - 1], firstStage)
        + (if FeedsFirst(last, firstStage) then [TerminalPair(last.config.sinkTerminal, last.config.sourceTerminal)] else [])
  }

  /** The output pairs (source terminal, sink terminal) of the enabled connections out of the last stage. */
  function OutputPairs(cs: seq<Connection>, lastStage: int): (r: seq<TerminalPair>)
    ensures |r| <= |cs|
  {
    if cs == [] then []
    else
      var last := cs[|cs| - 1];
      OutputPairs(cs[..|cs| - 1], lastStage)
        + (if LeavesLast(last, lastStage) then [TerminalPair(last.config.sourceTerminal, last.config.sinkTerminal)] else [])
  }

  /** Every input pair comes from an enabled connection into the first stage, in order. */
  lemma {:induction false} InputPairsSound(cs: seq<Connection>, firstStage: int, k: nat)
    requires k < |InputPairs(cs, firstStage)|
    ensures exists j :: (0 <= j < |cs| && FeedsFirst(cs[j], firstStage)
      && InputPairs(cs, firstStage)[k] == TerminalPair(cs[j].config.sinkTerminal, cs[j].config.sourceTerminal))
  {
    var prefix := cs[..|cs| - 1];
    if k < |InputPairs(prefix, firstStage)| {
      InputPairsSound(prefix, firstStage, k);
      var j :| 0 <= j < |prefix| && FeedsFirst(prefix[j], firstStage)
        && InputPairs(prefix, firstStage)[k] == TerminalPair(prefix[j].config.sinkTerminal, prefix[j].config.sourceTerminal);
      assert cs[j] == prefix[j];
    } else {
      assert FeedsFirst(cs[|cs| - 1], firstStage);
    }
  }

  /** Every enabled connection into the first stage gives an input pair. */
  lemma {:induction false} InputPairsComplete(cs: seq<Connection>, firstStage: int, j: nat)
    requires j < |cs| && FeedsFirst(cs[j], firstStage)
    ensures TerminalPair(cs[j].config.sinkTerminal, cs[j].config.sourceTerminal) in InputPairs(cs, firstStage)
  {
    var prefix := cs[..|cs| - 1];
    if j < |cs| - 1 {
      assert prefix[j] == cs[j];
      InputPairsComplete(prefix, firstStage, j);
    }
  }

  /** The scan of analyzeConnections: both pair lists and whether an edge connection was seen on each side. */
  /** Some enabled connection feeding the first stage comes from an edge port. */
  predicate InputEdge(cs: seq<Connection>, firstStage: int)
  {
    exists j :: 0 <= j < |cs| && FeedsFirst(cs[j], firstStage) && cs[j].hasEdgePort
  }

  /** Some enabled connection leaving the last stage goes to an edge port. */
  predicate OutputEdge(cs: seq<Connection>, lastStage: int)
  {
    exists j :: 0 <= j < |cs| && LeavesLast(cs[j], lastStage) && cs[j].hasEdgePort
  }

  method ScanConnections(cs: seq<Connection>, firstStage: int, lastStage: int)
    returns (ins: seq<TerminalPair>, outs: seq<TerminalPair>, inEdge: bool, outEdge: bool)
    ensures ins == InputPairs(cs, firstStage) && outs == OutputPairs(cs, lastStage)
    ensures inEdge == InputEdge(cs, firstStage) && outEdge == OutputEdge(cs, lastStage)
  {
    ins, outs, inEdge, outEdge := [], [], false, false;
    var i := 0;
    while i < |cs|
      invariant i <= |cs|
      invariant ins == InputPairs(cs[..i], firstStage) && outs == OutputPairs(cs[..i], lastStage)
      invariant inEdge <==> exists j :: 0 <= j < i && FeedsFirst(cs[j], firstStage) && cs[j].hasEdgePort
      invariant outEdge <==> exists j :: 0 <= j < i && LeavesLast(cs[j], lastStage) && cs[j].hasEdgePort
    {
      var c := cs[i];
      assert cs[..i + 1][..i] == cs[..i];
      if c.format.enabled {
        if c.config.sinkStage == firstStage {
          ins := ins + [TerminalPair(c.config.sinkTerminal, c.config.sourceTerminal)];
          if c.hasEdgePort {
            inEdge := true;
          }
        }
        if c.config.sourceStage == lastStage {
          outs := outs + [TerminalPair(c.config.sourceTerminal, c.config.sinkTerminal)];
          if c.hasEdgePort {
            outEdge := true;
          }
        }
      }
      i := i + 1;
    }
    assert cs[..i] == cs;
  }

  // ---------------------------------------------------------------------
  // assignInputPortsForTerminals / assignOutputPortsForTerminals (814-898).
  // A terminal-to-port std::map is the sequence of its entries.
  // ---------------------------------------------------------------------

  type PortMap = seq<Binding<int, Port>>

  predicate PortUsed(m: PortMap, p: Port)
  {
    exists i :: 0 <= i < |m| && m[i].value == p
  }

  /** isInputPortUsed / isOutputPortUsed. */
  method IsPortUsed(m: PortMap, p: Port) returns (used: bool)
    ensures used == PortUsed(m, p)
  {
    var i := 0;
    while i < |m|
      invariant i <= |m|
      invariant forall j :: 0 <= j < i ==> m[j].value != p
    {
      if m[i].value == p {
        return true;
      }
      i := i + 1;
    }
    return false;
  }

  /** The first of MAIN, SECOND, THIRD no terminal holds yet. */
  function FirstFreePort(m: PortMap): (r: Option<Port>)
    ensures r.Some? ==> !PortUsed(m, r.value) && r.value in {MAIN_PORT, SECOND_PORT, THIRD_PORT}
    ensures r.None? ==> PortUsed(m, MAIN_PORT) && PortUsed(m, SECOND_PORT) && PortUsed(m, THIRD_PORT)
  {
    if !PortUsed(m, MAIN_PORT) then Some(MAIN_PORT)
    else if !PortUsed(m, SECOND_PORT) then Some(SECOND_PORT)
    else if !PortUsed(m, THIRD_PORT) then Some(THIRD_PORT)
    else None
  }

  datatype Assignment = Assignment(status: Status, ports: PortMap)

  /** The terminal-to-port map after giving, in order, each pair's own terminal the first free port. */
  function Assign(pairs: seq<TerminalPair>, m: PortMap): (r: Assignment)
    ensures r.status == OK || r.status == INVALID_OPERATION
    decreases |pairs|
  {
    if pairs == [] then Assignment(OK, m)
    else match FirstFreePort(m)
      case None => Assignment(INVALID_OPERATION, m)
      case Some(p) => Assign(pairs[1..], Put(m, pairs[0].own, p))
  }

  /** No two terminals share a port. */
  predicate DistinctPorts(m: PortMap)
  {
    forall i, j :: 0 <= i < j < |m| ==> m[i].value != m[j].value
  }

  /** Giving a terminal an unused port keeps ports distinct. */
  lemma PutFreeDistinct(m: PortMap, t: int, p: Port)
    requires DistinctPorts(m) && !PortUsed(m, p)
    ensures DistinctPorts(Put(m, t, p))
  {
    var r := Put(m, t, p);
    forall i, j | 0 <= i < j < |r|
      ensures r[i].value != r[j].value
    {
      if r[i] != Binding(t, p) && r[j] != Binding(t, p) {
        assert r[i] == m[i] && r[j] == m[j];
      } else if r[i] == Binding(t, p) && r[j] == Binding(t, p) {
        assert false;
      } else if r[i] == Binding(t, p) {
        assert j < |m| && r[j] == m[j];
      } else {
        assert i < |m| && r[i] == m[i];
      }
    }
  }

  /** Assignment keeps ports pairwise distinct. */
  lemma {:induction false} AssignDistinct(pairs: seq<TerminalPair>, m: PortMap)
    requires DistinctPorts(m)
    ensures DistinctPorts(Assign(pairs, m).ports)
    decreases |pairs|
  {
    if pairs != [] {
      match FirstFreePort(m)
      case None =>
      case Some(p) =>
        PutFreeDistinct(m, pairs[0].own, p);
        AssignDistinct(pairs[1..], Put(m, pairs[0].own, p));
    }
  }

  /** A successful assignment gives every own terminal a port and keeps the terminals already present. */
  lemma {:induction false} AssignCovers(pairs: seq<TerminalPair>, m: PortMap)
    ensures var r := Assign(pairs, m);
      r.status == OK ==>
        (forall k :: 0 <= k < |pairs| ==> HasKey(r.ports, pairs[k].own))
        && (forall t :: HasKey(m, t) ==> HasKey(r.ports, t))
    decreases |pairs|
  {
    if pairs != [] {
      match FirstFreePort(m)
      case None =>
      case Some(p) =>
        var m' := Put(m, pairs[0].own, p);
        AssignCovers(pairs[1..], m');
        var r := Assign(pairs, m);
        if r.status == OK {
          forall t | HasKey(m, t) ensures HasKey(r.ports, t) {
            PutKeepsKey(m, pairs[0].own, p, t);
          }
          forall k | 0 <= k < |pairs| ensures HasKey(r.ports, pairs[k].own) {
            if k > 0 {
              assert pairs[1..][k - 1] == pairs[k];
            }
          }
        }
    }
  }

  /** Fewer than three terminals leave one of the three ports free. */
  lemma FreePortWhenFew(m: PortMap)
    requires |m| < 3
    ensures FirstFreePort(m).Some?
  {
    var taken := seq(|m|, i requires 0 <= i < |m| => m[i].value);
    var p := if MAIN_PORT !in taken then MAIN_PORT else if SECOND_PORT !in taken then SECOND_PORT else THIRD_PORT;
    assert p !in taken;
    forall i | 0 <= i < |m| ensures m[i].value != p {
      assert taken[i] == m[i].value;
    }
  }

  /** Three ports suffice: with at most three terminals in all, assignment succeeds. */
  lemma {:induction false} AssignSucceeds(pairs: seq<TerminalPair>, m: PortMap)
    requires DistinctPorts(m)
    requires |m| + |pairs| <= 3
    ensures Assign(pairs, m).status == OK
    decreases |pairs|
  {
    if pairs != [] {
      FreePortWhenFew(m);
      var p := FirstFreePort(m).value;
      PutFreeDistinct(m, pairs[0].own, p);
      AssignSucceeds(pairs[1..], Put(m, pairs[0].own, p));
    }
  }

  /** The assignment loop shared by the input and the output side. */
  method AssignPorts(pairs: seq<TerminalPair>, m0: PortMap) returns (status: Status, m: PortMap)
    ensures Assignment(status, m) == Assign(pairs, m0)
  {
    m := m0;
    var i := 0;
    while i < |pairs|
      invariant i <= |pairs|
      invariant Assign(pairs, m0) == Assign(pairs[i..], m)
    {
      var available := INVALID_PORT;
      var usedMain := IsPortUsed(m, MAIN_PORT);
      var usedSecond := IsPortUsed(m, SECOND_PORT);
      var usedThird := IsPortUsed(m, THIRD_PORT);
      if !usedMain {
        available := MAIN_PORT;
      } else if !usedSecond {
        available := SECOND_PORT;
      } else if !usedThird {
        available := THIRD_PORT;
      }
      if available == INVALID_PORT {
        return INVALID_OPERATION, m;
      }
      assert pairs[i..][1..] == pairs[i + 1..];
      m := Put(m, pairs[i].own, available);
      i := i + 1;
    }
    return OK, m;
  }

  // ---------------------------------------------------------------------
  // setInputTerminals (233-292).
  // ---------------------------------------------------------------------

  function PeerIs(terminal: int): TerminalPair -> bool
  {
    (p: TerminalPair) => p.peer == terminal
  }

  /**
   * The input ports rebuilt from the producer's output map (entries in
   * its order): each producer terminal gives its port to the first
   * internal pair it feeds.
   */
  function RebuildInputPorts(producer: PortMap, pairs: seq<TerminalPair>, m: PortMap): PortMap
    decreases |producer|
  {
    if producer == [] then m
    else
      RebuildInputPorts(producer[1..], pairs, RebuildStep(producer, pairs, m))
  }

  /** An entry that was already in m, or that joins an own terminal to the port of a producer terminal it is fed by. */
  predicate Traced(e: Binding<int, Port>, m: PortMap, pairs: seq<TerminalPair>, producer: PortMap)
  {
    || (exists k :: 0 <= k < |m| && e == m[k])
    || (exists j, k :: 0 <= j < |pairs| && 0 <= k < |producer|
          && pairs[j].own == e.key && pairs[j].peer == producer[k].key && producer[k].value == e.value)
  }

  /** The map after the producer's first entry, as the rebuild computes it. */
  function RebuildStep(producer: PortMap, pairs: seq<TerminalPair>, m: PortMap): PortMap
    requires producer != []
  {
    match FirstFrom(pairs, PeerIs(producer[0].key), 0)
    case None => m
    case Some(j) => Put(m, pairs[j].own, producer[0].value)
  }

  /** Whatever is traced after the first producer entry is traced before it. */
  lemma RebuildStepTraced(producer: PortMap, pairs: seq<TerminalPair>, m: PortMap, x: Binding<int, Port>)
    requires producer != [] && Traced(x, RebuildStep(producer, pairs, m), pairs, producer[1..])
    ensures Traced(x, m, pairs, producer)
  {
    var next := RebuildStep(producer, pairs, m);
    if exists k :: 0 <= k < |next| && x == next[k] {
      var k :| 0 <= k < |next| && x == next[k];
      match FirstFrom(pairs, PeerIs(producer[0].key), 0)
      case None =>
        assert x == m[k];
      case Some(j) =>
        if next[k] == Binding(pairs[j].own, producer[0].value) {
          assert PeerIs(producer[0].key)(pairs[j]);
        } else {
          assert k < |m| && next[k] == m[k];
        }
    } else {
      var j, k :| 0 <= j < |pairs| && 0 <= k < |producer[1..]|
        && pairs[j].own == x.key && pairs[j].peer == producer[1..][k].key && producer[1..][k].value == x.value;
      assert producer[1..][k] == producer[k + 1];
    }
  }

  /** Every rebuilt entry is traced to the starting map or to a producer entry through a pair. */
  lemma {:induction false} RebuildInputPortsSound(producer: PortMap, pairs: seq<TerminalPair>, m: PortMap)
    ensures forall i :: 0 <= i < |RebuildInputPorts(producer, pairs, m)| ==>
      Traced(RebuildInputPorts(producer, pairs, m)[i], m, pairs, producer)
    decreases |producer|
  {
    var r := RebuildInputPorts(producer, pairs, m);
    if producer == [] {
      assert r == m;
      forall i | 0 <= i < |r|
        ensures Traced(r[i], m, pairs, producer)
      {
        assert r[i] == m[i];
      }
    } else {
      var next := RebuildStep(producer, pairs, m);
      var r' := RebuildInputPorts(producer[1..], pairs, next);
      assert r == r';
      RebuildInputPortsSound(producer[1..], pairs, next);
      forall i | 0 <= i < |r|
        ensures Traced(r[i], m, pairs, producer)
      {
        assert Traced(r'[i], next, pairs, producer[1..]);
        RebuildStepTraced(producer, pairs, m, r[i]);
      }
    }
  }

  /** The rebuild loop of setInputTerminals, from an empty map. */
  method RebuildInputs(producer: PortMap, pairs: seq<TerminalPair>) returns (m: PortMap)
    ensures m == RebuildInputPorts(producer, pairs, [])
  {
    m := [];
    var i := 0;
    while i < |producer|
      invariant i <= |producer|
      invariant RebuildInputPorts(producer, pairs, []) == RebuildInputPorts(producer[i..], pairs, m)
    {
      var external := producer[i];
      var found := FindPeer(pairs, external.key);
      if found.Some? {
        m := Put(m, pairs[found.value].own, external.value);
      }
      assert producer[i..][1..] == producer[i + 1..];
      i := i + 1;
    }
  }

  /** The first internal pair whose peer is the given producer terminal. */
  method FindPeer(pairs: seq<TerminalPair>, terminal: int) returns (r: Option<nat>)
    ensures r == FirstFrom(pairs, PeerIs(terminal), 0)
  {
    var j := 0;
    while j < |pairs|
      invariant j <= |pairs|
      invariant FirstFrom(pairs, PeerIs(terminal), 0) == FirstFrom(pairs, PeerIs(terminal), j)
    {
      if pairs[j].peer == terminal {
        return Some(j);
      }
      j := j + 1;
    }
    return None;
  }

  function AtTerminal(terminal: int, asSource: bool): Connection -> bool
  {
    (c: Connection) => if asSource then c.config.sourceTerminal == terminal else c.config.sinkTerminal == terminal
  }

  /** The stream_t a terminal's first matching connection describes (only format and size are set). */
  function TerminalStream(cs: seq<Connection>, terminal: int, asSource: bool): (r: Option<StreamT>)
    ensures r.Some? <==> exists j :: 0 <= j < |cs| && AtTerminal(terminal, asSource)(cs[j])
  {
    match FirstFrom(cs, AtTerminal(terminal, asSource), 0)
    case None => None
    case Some(j) =>
      var f := cs[j].format;
      Some(StreamT(f.fourcc, f.width, f.height, 0, CAMERA_STREAM_PREVIEW, 0))
  }

  type FrameInfoMap = seq<Binding<Port, StreamT>>

  /** The stream each terminal of m is described by, in the map's order. */
  function Streams(m: PortMap, cs: seq<Connection>, asSource: bool): (ts: seq<Option<StreamT>>)
    ensures |ts| == |m|
    ensures forall i :: 0 <= i < |m| ==> ts[i] == TerminalStream(cs, m[i].key, asSource)
  {
    seq(|m|, i requires 0 <= i < |m| => TerminalStream(cs, m[i].key, asSource))
  }

  /** How many of the first i terminals have a stream. */
  function DescribedCount(ts: seq<Option<StreamT>>, i: nat): (r: nat)
    requires i <= |ts|
    ensures r <= i
  {
    if i == 0 then 0
    else DescribedCount(ts, i - 1) + (if ts[i - 1].Some? then 1 else 0)
  }

  lemma {:induction false} DescribedCountBelow(ts: seq<Option<StreamT>>, i: nat, k: nat)
    requires k < i <= |ts| && ts[k].None?
    ensures DescribedCount(ts, i) < i
  {
    if k < i - 1 {
      DescribedCountBelow(ts, i - 1, k);
    }
  }

  lemma {:induction false} DescribedCountAll(ts: seq<Option<StreamT>>, i: nat)
    requires i <= |ts| && forall k :: 0 <= k < i ==> ts[k].Some?
    ensures DescribedCount(ts, i) == i
  {
    if i > 0 {
      DescribedCountAll(ts, i - 1);
    }
  }

  predicate KeysSoFar(m: PortMap, ts: seq<Option<StreamT>>, i: nat, info: FrameInfoMap)
    requires i <= |m| == |ts|
  {
    forall k :: 0 <= k < i && ts[k].Some? ==> HasKey(info, m[k].value)
  }

  predicate TracedSoFar(m: PortMap, ts: seq<Option<StreamT>>, i: nat, info: FrameInfoMap)
    requires i <= |m| == |ts|
  {
    forall j :: 0 <= j < |info| ==>
      (exists k :: 0 <= k < i && m[k].value == info[j].key && ts[k] == Some(info[j].value))
  }

  /** What the frame-information loop knows after the first i terminals of m. */
  predicate FrameInfoSoFar(m: PortMap, ts: seq<Option<StreamT>>, i: nat, info: FrameInfoMap)
    requires i <= |m| == |ts|
  {
    && UniqueKeys(info)
    && |info| <= DescribedCount(ts, i)
    && (DistinctPorts(m) ==> |info| == DescribedCount(ts, i))
    && KeysSoFar(m, ts, i, info)
    && TracedSoFar(m, ts, i, info)
  }

  /** One terminal of the frame-information loop: a described terminal puts its stream under its port. */
  function FrameInfoStep(m: PortMap, ts: seq<Option<StreamT>>, i: nat, info: FrameInfoMap): FrameInfoMap
    requires i < |m| == |ts|
  {
    match ts[i]
    case None => info
    case Some(s) => Put(info, m[i].value, s)
  }

  lemma FrameInfoStepKeys(m: PortMap, ts: seq<Option<StreamT>>, i: nat, info: FrameInfoMap, s: StreamT)
    requires i < |m| == |ts| && ts[i] == Some(s)
    requires KeysSoFar(m, ts, i, info)
    ensures KeysSoFar(m, ts, i + 1, Put(info, m[i].value, s))
  {
    forall k | 0 <= k < i + 1 && ts[k].Some?
      ensures HasKey(Put(info, m[i].value, s), m[k].value)
    {
      if k < i {
        PutKeepsKey(info, m[i].value, s, m[k].value);
      }
    }
  }

  lemma FrameInfoStepTrace(m: PortMap, ts: seq<Option<StreamT>>, i: nat, info: FrameInfoMap, s: StreamT)
    requires i < |m| == |ts| && ts[i] == Some(s)
    requires TracedSoFar(m, ts, i, info)
    ensures TracedSoFar(m, ts, i + 1, Put(info, m[i].value, s))
  {
    var next := Put(info, m[i].value, s);
    forall j | 0 <= j < |next|
      ensures (exists k :: 0 <= k < i + 1 && m[k].value == next[j].key && ts[k] == Some(next[j].value))
    {
      if next[j] == Binding(m[i].value, s) {
        assert m[i].value == next[j].key;
      } else {
        assert j < |info| && next[j] == info[j];
      }
    }
  }

  lemma FrameInfoStepFresh(m: PortMap, ts: seq<Option<StreamT>>, i: nat, info: FrameInfoMap)
    requires i < |m| == |ts| && DistinctPorts(m)
    requires TracedSoFar(m, ts, i, info)
    ensures !HasKey(info, m[i].value)
  {
  }

  lemma FrameInfoStepKeeps(m: PortMap, ts: seq<Option<StreamT>>, i: nat, info: FrameInfoMap)
    requires i < |m| == |ts| && FrameInfoSoFar(m, ts, i, info)
    ensures FrameInfoSoFar(m, ts, i + 1, FrameInfoStep(m, ts, i, info))
  {
    match ts[i]
    case None =>
      assert KeysSoFar(m, ts, i + 1, info);
    case Some(s) =>
      FrameInfoStepKeys(m, ts, i, info, s);
      FrameInfoStepTrace(m, ts, i, info, s);
      if DistinctPorts(m) {
        FrameInfoStepFresh(m, ts, i, info);
      }
  }

  /** What a frame-information map built from every terminal of m satisfies. */
  predicate FrameInfoOf(m: PortMap, ts: seq<Option<StreamT>>, info: FrameInfoMap)
    requires |m| == |ts|
  {
    && UniqueKeys(info)
    && ((exists i :: 0 <= i < |m| && ts[i].None?) ==> |info| < |m|)
    && (DistinctPorts(m) && (forall i :: 0 <= i < |m| ==> ts[i].Some?) ==> |info| == |m|)
    && (!DistinctPorts(m) ==> |info| < |m|)
    && (forall i :: 0 <= i < |m| && ts[i].Some? ==> HasKey(info, m[i].value))
    && (forall j :: 0 <= j < |info| ==>
          (exists i :: 0 <= i < |m| && m[i].value == info[j].key && ts[i] == Some(info[j].value)))
  }

  lemma FrameInfoDone(m: PortMap, ts: seq<Option<StreamT>>, info: FrameInfoMap)
    requires |m| == |ts| && FrameInfoSoFar(m, ts, |m|, info)
    ensures FrameInfoOf(m, ts, info)
  {
    if exists i :: 0 <= i < |m| && ts[i].None? {
      var k :| 0 <= k < |m| && ts[k].None?;
      DescribedCountBelow(ts, |m|, k);
    }
    if forall i :: 0 <= i < |m| ==> ts[i].Some? {
      DescribedCountAll(ts, |m|);
    }
    if !DistinctPorts(m) {
      var a, b :| 0 <= a < b < |m| && m[a].value == m[b].value;
      FewerKeysThanPorts(m, ts, info, a, b);
    }
  }

  /** Two terminals on one port: the map keyed by port has fewer entries than terminals. */
  lemma FewerKeysThanPorts(m: PortMap, ts: seq<Option<StreamT>>, info: FrameInfoMap, a: nat, b: nat)
    requires |m| == |ts| && UniqueKeys(info)
    requires forall j :: 0 <= j < |info| ==>
               (exists i :: 0 <= i < |m| && m[i].value == info[j].key && ts[i] == Some(info[j].value))
    requires a < b < |m| && m[a].value == m[b].value
    ensures |info| < |m|
  {
    var keys := seq(|info|, j requires 0 <= j < |info| => info[j].key);
    var ports := seq(|m|, i requires 0 <= i < |m| => m[i].value);
    ElementsCard(keys);
    ElementsRepeated(ports, a, b);
    forall x | x in Elements(keys) ensures x in Elements(ports) {
      var j :| 0 <= j < |keys| && keys[j] == x;
      var i :| 0 <= i < |m| && m[i].value == info[j].key && ts[i] == Some(info[j].value);
      assert ports[i] == x;
    }
    SubsetCard(Elements(keys), Elements(ports));
  }

  /**
   * The per-port stream information of a terminal-to-port map: each
   * terminal some connection describes puts its stream under its port.
   * FrameInfoOf states it: unique ports, smaller than the map when a
   * terminal is not described, as large when every terminal is described
   * on a port of its own, and every entry traceable to its terminal.
   */
  method FrameInfo(m: PortMap, cs: seq<Connection>, asSource: bool) returns (info: FrameInfoMap)
    ensures FrameInfoOf(m, Streams(m, cs, asSource), info)
  {
    ghost var ts := Streams(m, cs, asSource);
    info := [];
    var i := 0;
    while i < |m|
      invariant i <= |m|
      invariant FrameInfoSoFar(m, ts, i, info)
    {
      FrameInfoStepKeeps(m, ts, i, info);
      var s := TerminalStream(cs, m[i].key, asSource);
      assert s == ts[i];
      if s.Some? {
        info := Put(info, m[i].value, s.value);
      }
      i := i + 1;
    }
    FrameInfoDone(m, ts, info);
  }

  // ---------------------------------------------------------------------
  // getStreamByUsage, isSameStreamConfig, hasValidBuffers (353-475).
  // ---------------------------------------------------------------------

  /** getStreamByUsage: still capture belongs to the still stream, every other usage to the video stream. */
  function StreamByUsage(usage: StreamUsage): (id: int)
    ensures id == STILL_STREAM_ID <==> usage == CAMERA_STREAM_STILL_CAPTURE
    ensures id == VIDEO_STREAM_ID <==> usage != CAMERA_STREAM_STILL_CAPTURE
  {
    if usage == CAMERA_STREAM_STILL_CAPTURE then STILL_STREAM_ID else VIDEO_STREAM_ID
  }

  /**
   * isSameStreamConfig.  internalFormat is the V4L2 code of the internal
   * (ia_fourcc) format, as graphconfig::utils::getV4L2Format gives it.
   */
  predicate SameStreamConfig(executorStreamId: int, internalFormat: int, internal: StreamT, external: StreamT,
                             configMode: ConfigMode, checkUsage: bool)
  {
    if checkUsage && StreamByUsage(external.usage) != executorStreamId then false
    else if (internalFormat == V4L2_PIX_FMT_SGRBG10 || internalFormat == V4L2_PIX_FMT_SGRBG12)
         && (external.format == V4L2_PIX_FMT_SRGGB10 || external.format == V4L2_PIX_FMT_SRGGB12) then true
    else if (configMode == CONFIG_VIDEO_LL || configMode == CONFIG_ULL)
         && internalFormat == Utils.V4L2_PIX_FMT_SGRBG12V32 && external.format == Utils.V4L2_PIX_FMT_SGRBG10V32 then true
    else
      var sameHeight := internal.height == external.height
        || (external.height >= 0 && internal.height == Align32(external.height));
      internalFormat == external.format && internal.width == external.width && sameHeight
  }

  /** Outside the two workarounds a match means the same format and width and a height at most 31 lines taller. */
  lemma SameStreamConfigMeaning(executorStreamId: int, internalFormat: int, internal: StreamT, external: StreamT,
                                configMode: ConfigMode, checkUsage: bool)
    requires SameStreamConfig(executorStreamId, internalFormat, internal, external, configMode, checkUsage)
    ensures checkUsage ==> StreamByUsage(external.usage) == executorStreamId
    ensures (!(internalFormat == V4L2_PIX_FMT_SGRBG10 || internalFormat == V4L2_PIX_FMT_SGRBG12)
             && internalFormat != Utils.V4L2_PIX_FMT_SGRBG12V32) ==>
        internalFormat == external.format && internal.width == external.width
        && external.height <= internal.height < external.height + 32
  {
  }

  /** A stream always matches itself when its usage belongs to the executor. */
  lemma SameStreamConfigReflexive(executorStreamId: int, s: StreamT, configMode: ConfigMode, checkUsage: bool)
    requires checkUsage ==> StreamByUsage(s.usage) == executorStreamId
    ensures SameStreamConfig(executorStreamId, s.format, s, s, configMode, checkUsage)
  {
  }

  datatype PortBuffer = PortBuffer(port: Port, buffer: Option<int>)

  /** hasValidBuffers: some port holds a buffer. */
  method HasValidBuffers(buffers: seq<PortBuffer>) returns (r: bool)
    ensures r <==> exists i :: 0 <= i < |buffers| && buffers[i].buffer.Some?
  {
    var i := 0;
    while i < |buffers|
      invariant i <= |buffers|
      invariant forall j :: 0 <= j < i ==> buffers[j].buffer.None?
    {
      if buffers[i].buffer.Some? {
        return true;
      }
      i := i + 1;
    }
    return false;
  }

  /**
   * The first decision of processNewFrame: None when some output buffer is
   * given and the pipe runs; otherwise the input buffers handed back to the
   * producer, none for an input-edge executor.
   */
  method SkipWithoutOutput(isInputEdge: bool, inBuffers: seq<PortBuffer>, outBuffers: seq<PortBuffer>)
    returns (returned: Option<seq<PortBuffer>>)
    ensures returned.None? <==> exists i :: 0 <= i < |outBuffers| && outBuffers[i].buffer.Some?
    ensures returned.Some? ==> returned.value == if isInputEdge then [] else inBuffers
  {
    var valid := HasValidBuffers(outBuffers);
    if !valid {
      if !isInputEdge {
        return Some(inBuffers);
      }
      return Some([]);
    }
    return None;
  }

  // ---------------------------------------------------------------------
  // The executor.
  // ---------------------------------------------------------------------

  predicate IsMinusOne(x: int) { x == -1 }

  /** The PG-id loop of analyzeConnections: ids are taken in order until the first -1. */
  method CollectPgIds(pgIdOf: seq<int>) returns (ok: bool, ids: seq<int>)
    ensures ok <==> -1 !in pgIdOf
    ensures ok ==> ids == pgIdOf
    ensures !ok ==> ids == pgIdOf[..FirstFrom(pgIdOf, IsMinusOne, 0).value]
  {
    ids := [];
    var i := 0;
    while i < |pgIdOf|
      invariant i <= |pgIdOf|
      invariant FirstFrom(pgIdOf, IsMinusOne, 0) == FirstFrom(pgIdOf, IsMinusOne, i)
      invariant ids == pgIdOf[..i] && -1 !in ids
    {
      if pgIdOf[i] == -1 {
        return false, ids;
      }
      ids := ids + [pgIdOf[i]];
      i := i + 1;
    }
    assert pgIdOf[..i] == pgIdOf;
    return true, ids;
  }

  class Executor {
    const connections: seq<Connection>
    var pgIds: seq<int>
    var inputPairs: seq<TerminalPair>
    var outputPairs: seq<TerminalPair>
    var inputPortMap: PortMap
    var outputPortMap: PortMap
    var isInputEdge: bool
    var isOutputEdge: bool
    /** The frame information given to the buffer queue (BufferQueue::setFrameInfo). */
    var inputFrameInfo: FrameInfoMap
    var outputFrameInfo: FrameInfoMap

    constructor (cs: seq<Connection>)
      ensures connections == cs && pgIds == [] && inputPairs == [] && outputPairs == []
      ensures inputPortMap == [] && outputPortMap == [] && !isInputEdge && !isOutputEdge
      ensures inputFrameInfo == [] && outputFrameInfo == []
    {
      connections := cs;
      pgIds := [];
      inputPairs := [];
      outputPairs := [];
      inputPortMap := [];
      outputPortMap := [];
      isInputEdge := false;
      isOutputEdge := false;
      inputFrameInfo := [];
      outputFrameInfo := [];
    }

    /**
     * analyzeConnections.  pgIdOf gives getPgIdByPgName's answer for each
     * PG name of the executor, in order; stageUid is psys_2600_pg_uid.
     * The id list is appended to, never cleared, and the edge flags are
     * only ever raised.
     */
    method AnalyzeConnections(pgIdOf: seq<int>, stageUid: int -> int) returns (status: Status)
      modifies this
      ensures pgIdOf == [] ==> status == INVALID_OPERATION && pgIds == old(pgIds)
      ensures pgIdOf != [] && -1 in pgIdOf ==>
        (status == BAD_VALUE && pgIds == old(pgIds) + pgIdOf[..FirstFrom(pgIdOf, IsMinusOne, 0).value])
      ensures pgIdOf == [] || -1 in pgIdOf ==>
        (inputPairs == old(inputPairs) && outputPairs == old(outputPairs)
         && inputPortMap == old(inputPortMap) && outputPortMap == old(outputPortMap)
         && isInputEdge == old(isInputEdge) && isOutputEdge == old(isOutputEdge))
      ensures pgIdOf != [] && -1 !in pgIdOf ==>
        (pgIds == old(pgIds) + pgIdOf
         && inputPairs == InputPairs(connections, stageUid(pgIds[0]))
         && outputPairs == OutputPairs(connections, stageUid(pgIds[|pgIds| - 1]))
         && inputPortMap == [] && outputPortMap == [])
      ensures pgIdOf != [] && -1 !in pgIdOf ==>
        (isInputEdge == (old(isInputEdge) || InputEdge(connections, stageUid(pgIds[0])))
         && isOutputEdge == (old(isOutputEdge) || OutputEdge(connections, stageUid(pgIds[|pgIds| - 1]))))
      ensures pgIdOf != [] && -1 !in pgIdOf ==>
        (status == OK <==>
          (inputPairs != [] && outputPairs != [] && |inputPairs| <= PORT_COUNT && |outputPairs| <= PORT_COUNT))
      ensures status == OK || status == BAD_VALUE || status == INVALID_OPERATION
    {
      if pgIdOf == [] {
        return INVALID_OPERATION;
      }
      var ok, ids := CollectPgIds(pgIdOf);
      pgIds := pgIds + ids;
      if !ok {
        return BAD_VALUE;
      }
      var ins, outs, inEdge, outEdge := ScanConnections(connections, stageUid(pgIds[0]), stageUid(pgIds[|pgIds| - 1]));
      inputPortMap, outputPortMap := [], [];
      inputPairs, outputPairs := ins, outs;
      isInputEdge, isOutputEdge := isInputEdge || inEdge, isOutputEdge || outEdge;
      if ins == [] || outs == [] || |ins| > PORT_COUNT || |outs| > PORT_COUNT {
        return BAD_VALUE;
      }
      return OK;
    }

    /** assignInputPortsForTerminals: a free port for each input pair's own terminal, in order. */
    method AssignInputPortsForTerminals() returns (status: Status)
      modifies this
      ensures Assignment(status, inputPortMap) == Assign(inputPairs, old(inputPortMap))
      ensures outputPortMap == old(outputPortMap) && inputPairs == old(inputPairs) && outputPairs == old(outputPairs)
      ensures isInputEdge == old(isInputEdge)
    {
      status, inputPortMap := AssignPorts(inputPairs, inputPortMap);
    }

    /** assignOutputPortsForTerminals: a free port for each output pair's own terminal, in order. */
    method AssignOutputPortsForTerminals() returns (status: Status)
      modifies this
      ensures Assignment(status, outputPortMap) == Assign(outputPairs, old(outputPortMap))
      ensures inputPortMap == old(inputPortMap) && inputPairs == old(inputPairs) && outputPairs == old(outputPairs)
      ensures isInputEdge == old(isInputEdge)
    {
      status, outputPortMap := AssignPorts(outputPairs, outputPortMap);
    }

    /**
     * setInputTerminals: a non-edge executor takes its input ports from the
     * producer's output map; then there must be one port per input pair,
     * and every terminal must be described by a connection on a port of its
     * own (two terminals on one port shrink the per-port information map,
     * which the size comparison rejects).  OK exactly then, else BAD_VALUE.
     */
    method SetInputTerminals(producer: PortMap) returns (status: Status)
      modifies this
      ensures inputPortMap == if old(isInputEdge) then old(inputPortMap) else RebuildInputPorts(producer, inputPairs, [])
      ensures inputPairs == old(inputPairs) && outputPairs == old(outputPairs) && outputPortMap == old(outputPortMap)
      ensures isInputEdge == old(isInputEdge)
      ensures |inputPortMap| != |inputPairs| ==> status == BAD_VALUE
      ensures (exists i :: 0 <= i < |outputPortMap| && TerminalStream(connections, outputPortMap[i].key, true).None?)
        ==> status == BAD_VALUE
      ensures (exists i :: 0 <= i < |inputPortMap| && TerminalStream(connections, inputPortMap[i].key, false).None?)
        ==> status == BAD_VALUE
      ensures (|inputPortMap| == |inputPairs|
               && DistinctPorts(inputPortMap)
               && (forall i :: 0 <= i < |inputPortMap| ==> TerminalStream(connections, inputPortMap[i].key, false).Some?)
               && DistinctPorts(outputPortMap)
               && (forall i :: 0 <= i < |outputPortMap| ==> TerminalStream(connections, outputPortMap[i].key, true).Some?))
        <==> status == OK
      ensures status == OK ==>
        (forall i :: 0 <= i < |inputPortMap| ==> HasKey(inputFrameInfo, inputPortMap[i].value))
        && (forall i :: 0 <= i < |outputPortMap| ==> HasKey(outputFrameInfo, outputPortMap[i].value))
      ensures status == OK || status == BAD_VALUE
    {
      if !isInputEdge {
        inputPortMap := RebuildInputs(producer, inputPairs);
      }
      if |inputPortMap| != |inputPairs| {
        return BAD_VALUE;
      }
      var outputInfo := FrameInfo(outputPortMap, connections, true);
      if |outputInfo| != |outputPortMap| {
        return BAD_VALUE;
      }
      var inputInfo := FrameInfo(inputPortMap, connections, false);
      if |inputInfo| != |inputPortMap| {
        return BAD_VALUE;
      }
      inputFrameInfo := inputInfo;
      outputFrameInfo := outputInfo;
      return OK;
    }
  }
}
