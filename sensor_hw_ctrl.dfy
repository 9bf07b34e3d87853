/**
 * The sensor control of core/SensorHwCtrl.cpp: the frame timing state
 * (horizontal and vertical blanking, the current frame length, the WDR
 * mode) and the ordered control writes it sends to the pixel-array and
 * sensor-output sub-devices for exposures, gains, frame duration, WDR mode
 * and link frequency.  The sub-devices are not part of this model: a write
 * is recorded as a (control, value) pair and the driver's answer for each
 * control is a parameter.  The platform settings (HDR exposure and gain
 * types, fixed VBP, the multi-exposure ranges, sensor digital gain use) are
 * parameters too.
 */
module SensorHwCtrl {
  import opened Common
  import opened HalTypes

  /** The V4L2 and CRL controls the sensor control writes. */
  datatype Control =
    | EXPOSURE | EXPOSURE_SHS1 | EXPOSURE_SHS2 | EXPOSURE_SHS3 | EXPOSURE_RHS1 | EXPOSURE_RHS2
    | GAIN | ANALOGUE_GAIN | DIGITAL_GAIN_VS | DIGITAL_GAIN_S | ANALOG_GAIN_VS | ANALOG_GAIN_S
    | HBLANK | VBLANK | LINE_LENGTH_PIXELS | FRAME_LENGTH_LINES | WDR_MODE | LINK_FREQ

  datatype Write = Write(ctrl: Control, value: int)

  /** One step of a control sequence: a write, or a range check that ends it with NO_INIT. */
  datatype Step = Set(ctrl: Control, value: int) | Require(holds: bool)

  /** The writes a call issued and the status it returned. */
  datatype Outcome = Outcome(writes: seq<Write>, status: Status)

  datatype HdrExposureType =
    | HDR_EXPOSURE_NONE | HDR_RELATIVE_MULTI_EXPOSURES | HDR_MULTI_EXPOSURES | HDR_DUAL_EXPOSURES_DCG_AND_VS

  datatype HdrGainType =
    | HDR_GAIN_NONE | HDR_MULTI_DG_AND_CONVERTION_AG | HDR_MULTI_DG_AND_DIRECT_AG | HDR_ISP_DG_AND_SENSOR_DIRECT_AG

  /** A register range of a DOL sensor: bounds, the distance to its neighbour and the step. */
  datatype RegRange = RegRange(min: int, max: int, upperBound: int, step: int)

  /** MultiExpRange: the output resolution a set of register ranges applies to. */
  datatype MultiExpRange = MultiExpRange(width: int, height: int,
                                         shs1: RegRange, rhs1: RegRange, shs2: RegRange, rhs2: RegRange, shs3: RegRange)

  /** v4l2_queryctrl: the fields setFrameRate reads. */
  datatype QueryCtrl = QueryCtrl(defaultValue: int, minimum: int, maximum: int)

  /** The writes of a step sequence. */
  function WritesOf(steps: seq<Step>): (ws: seq<Write>)
    ensures |ws| <= |steps|
  {
    if |steps| == 0 then []
    else (if steps[0].Set? then [Write(steps[0].ctrl, steps[0].value)] else []) + WritesOf(steps[1..])
  }

  /**
   * Running a step sequence: the writes are issued in order until a write
   * fails (its status is returned) or a check fails (NO_INIT).
   */
  function Run(steps: seq<Step>, driver: Control -> Status): (r: Outcome)
  {
    if |steps| == 0 then Outcome([], OK)
    else
      match steps[0]
      case Require(holds) => if holds then Run(steps[1..], driver) else Outcome([], NO_INIT)
      case Set(c, v) =>
        if driver(c) != OK then Outcome([Write(c, v)], driver(c))
        else
          var rest := Run(steps[1..], driver);
          Outcome([Write(c, v)] + rest.writes, rest.status)
  }

  /**
   * A run issues a prefix of the sequence's writes: all of them when every
   * step passes, and a failing write is the last one issued.
   */
  lemma {:induction false} RunIssuesPrefix(steps: seq<Step>, driver: Control -> Status)
    ensures Run(steps, driver).writes <= WritesOf(steps)
    ensures Run(steps, driver).status == OK <==>
      forall i :: 0 <= i < |steps| ==> (steps[i].Require? ==> steps[i].holds) && (steps[i].Set? ==> driver(steps[i].ctrl) == OK)
    ensures Run(steps, driver).status == OK ==> Run(steps, driver).writes == WritesOf(steps)
    ensures var r := Run(steps, driver);
      r.status != OK && r.status != NO_INIT ==> r.writes != [] && driver(r.writes[|r.writes| - 1].ctrl) == r.status
  {
    RunWritesPrefix(steps, driver);
    RunOkExactly(steps, driver);
    RunFailsLast(steps, driver);
  }

  lemma {:induction false} RunWritesPrefix(steps: seq<Step>, driver: Control -> Status)
    ensures Run(steps, driver).writes <= WritesOf(steps)
    ensures Run(steps, driver).status == OK ==> Run(steps, driver).writes == WritesOf(steps)
  {
    if |steps| > 0 {
      RunWritesPrefix(steps[1..], driver);
    }
  }

  lemma {:induction false} RunOkExactly(steps: seq<Step>, driver: Control -> Status)
    ensures Run(steps, driver).status == OK <==>
      forall i :: 0 <= i < |steps| ==> (steps[i].Require? ==> steps[i].holds) && (steps[i].Set? ==> driver(steps[i].ctrl) == OK)
  {
    if |steps| > 0 {
      RunOkExactly(steps[1..], driver);
      forall i | 0 < i < |steps|
        ensures steps[i] == steps[1..][i - 1]
      {
      }
    }
  }

  lemma {:induction false} RunFailsLast(steps: seq<Step>, driver: Control -> Status)
    ensures var r := Run(steps, driver);
      r.status != OK && r.status != NO_INIT ==> r.writes != [] && driver(r.writes[|r.writes| - 1].ctrl) == r.status
  {
    if |steps| > 0 {
      RunFailsLast(steps[1..], driver);
    }
  }

  /** The writes a run issues are writes of the sequence. */
  lemma {:induction false} RunWritesFromSteps(steps: seq<Step>, driver: Control -> Status, w: Write)
    requires w in Run(steps, driver).writes
    ensures exists i :: 0 <= i < |steps| && steps[i] == Set(w.ctrl, w.value)
  {
    if |steps| > 0 && !(steps[0].Set? && w == Write(steps[0].ctrl, steps[0].value)) {
      RunWritesFromSteps(steps[1..], driver, w);
      var i :| 0 <= i < |steps[1..]| && steps[1..][i] == Set(w.ctrl, w.value);
      assert steps[i + 1] == steps[1..][i];
    }
  }

  /**
   * OR-ing two status codes (status |= ...): OK exactly when both are, and
   * the one failure when only one call fails.  Two failures give the first;
   * the code's bit pattern of two error codes is stated by OrStatusBits.
   */
  function OrStatus(a: Status, b: Status): (r: Status)
    ensures r == OK <==> a == OK && b == OK
    ensures a == OK ==> r == b
    ensures b == OK ==> r == a
  {
    if a != OK then a else b
  }

  /**
   * Under any 32-bit numbering of the status codes that gives OK the value
   * 0 (the values are in iutils/Errors.h), the status OrStatus returns has
   * the bit pattern of `status |= ...` whenever at most one call fails.
   */
  lemma OrStatusBits(code: Status -> bv32, a: Status, b: Status)
    requires code(OK) == 0
    requires a == OK || b == OK
    ensures code(OrStatus(a, b)) == code(a) | code(b)
  {
  }

  // -------------------------------------------------------------------
  // Exposures
  // -------------------------------------------------------------------

  /** setMultiExposures: with three exposures SHS2 = e0, SHS1 = e1, EXPOSURE = e2; otherwise SHS1 = e0, EXPOSURE = e1. */
  function MultiExposureSteps(coarse: seq<int>): (steps: seq<Step>)
    requires |coarse| >= 2
    ensures var n := Min(|coarse|, 3);
      && |steps| == n && steps[n - 1] == Set(EXPOSURE, coarse[n - 1]) && steps[n - 2] == Set(EXPOSURE_SHS1, coarse[n - 2])
      && (n == 3 ==> steps[0] == Set(EXPOSURE_SHS2, coarse[0]))
  {
    if |coarse| > 2 then [Set(EXPOSURE_SHS2, coarse[0]), Set(EXPOSURE_SHS1, coarse[1]), Set(EXPOSURE, coarse[2])]
    else [Set(EXPOSURE_SHS1, coarse[0]), Set(EXPOSURE, coarse[1])]
  }

  /** setDualExposuresDCGAndVS: with three exposures SHS1 = e0 and EXPOSURE = e2; otherwise EXPOSURE = e1. */
  function DualExposureSteps(coarse: seq<int>): (steps: seq<Step>)
    requires |coarse| >= 2
    ensures |steps| > 0 && steps[|steps| - 1] == Set(EXPOSURE, coarse[Min(|coarse|, 3) - 1])
    ensures |coarse| > 2 <==> Set(EXPOSURE_SHS1, coarse[0]) in steps
    ensures forall i :: 0 <= i < |steps| ==> steps[i].Set? && steps[i].ctrl in {EXPOSURE, EXPOSURE_SHS1}
  {
    if |coarse| > 2 then [Set(EXPOSURE_SHS1, coarse[0]), Set(EXPOSURE, coarse[2])]
    else [Set(EXPOSURE, coarse[1])]
  }

  /** x - (x % step) with C's truncating remainder: x rounded toward zero to a multiple of step. */
  function StepFloor(x: int, step: int): (r: int)
    requires step > 0
    ensures r == TruncDiv(x, step) * step
    ensures x >= 0 ==> 0 <= r <= x < r + step
    ensures x < 0 ==> x <= r <= 0
  {
    var q := TruncDiv(x, step);
    MultipleBounds(x, step, q);
    var rem := x - q * step;
    x - rem
  }

  /** The sign of the multiple StepFloor rounds to, for either sign of x. */
  lemma MultipleBounds(x: int, step: int, q: int)
    requires step > 0 && q == TruncDiv(x, step)
    ensures x >= 0 ==> 0 <= q * step
    ensures x < 0 ==> q * step <= 0
  {
    if x >= 0 {
      NonnegOrFarBelow(q, step);
      MulNonneg(q, step);
    } else {
      MulNonneg(-q, step);
      assert q * step == -((-q) * step);
    }
  }

  lemma NonnegOrFarBelow(q: int, step: nat)
    ensures q >= 0 || q * step + step <= 0
  {
    if q < 0 {
      MulNonneg(-q - 1, step);
      assert q * step + step == -((-q - 1) * step);
    }
  }

  lemma {:induction false} MulNonneg(a: int, b: nat)
    ensures a >= 0 ==> a * b >= 0
    decreases if a >= 0 then a else 0
  {
    if a > 0 {
      MulNonneg(a - 1, b);
      assert a * b == (a - 1) * b + b;
    }
  }

  predicate InRange(v: int, r: RegRange)
  {
    r.min <= v <= r.max
  }

  /** The register ranges setShutterAndReadoutTiming divides by have positive steps. */
  predicate StepsPositive(r: MultiExpRange)
  {
    r.rhs1.step > 0 && r.rhs2.step > 0
  }

  /** The SHS2 value before clipping: from RHS2 with three exposures, else from the frame length. */
  function Shs2Raw(coarse: seq<int>, r: MultiExpRange, curFll: int): int
    requires |coarse| >= 2 && StepsPositive(r)
  {
    if |coarse| > 2 then
      var shs3 := r.shs3.max + r.shs3.upperBound - coarse[2] - 1;
      StepFloor(shs3 - r.rhs2.upperBound, r.rhs2.step) - coarse[1] - 1
    else curFll + r.shs2.upperBound - coarse[1] - 1
  }

  /**
   * setShutterAndReadoutTiming for one matching range: SHS3 and RHS2 for
   * three exposures (each checked against its range), then SHS2 clipped to
   * [SHS2.min, max(SHS2.max, FLL)], RHS1 (clipped unless the VBP is fixed,
   * checked otherwise) and SHS1 clipped to its range.
   */
  function DolSteps(coarse: seq<int>, r: MultiExpRange, curFll: int, fixedVbp: int): (steps: seq<Step>)
    requires |coarse| >= 2 && StepsPositive(r)
  {
    var pre :=
      if |coarse| > 2 then
        var shs3 := r.shs3.max + r.shs3.upperBound - coarse[2] - 1;
        var rhs2 := StepFloor(shs3 - r.rhs2.upperBound, r.rhs2.step);
        [Require(InRange(shs3, r.shs3)), Set(EXPOSURE_SHS3, shs3), Require(InRange(rhs2, r.rhs2)), Set(EXPOSURE_RHS2, rhs2)]
      else [];
    var shs2 := Clip(Shs2Raw(coarse, r, curFll), Max(r.shs2.max, curFll), r.shs2.min);
    var rhs1Raw := StepFloor(shs2 - r.rhs1.upperBound, r.rhs1.step);
    var rhs1 := if fixedVbp < 0 then Clip(rhs1Raw, r.rhs1.max, r.rhs1.min) else fixedVbp;
    var vbp :=
      if fixedVbp < 0 then [Set(EXPOSURE_RHS1, rhs1)]
      else [Require(InRange(rhs1, r.rhs1)), Require(rhs1Raw == shs2 - r.rhs1.upperBound)];
    var shs1 := Clip(rhs1 - coarse[0] - 1, r.shs1.max, r.shs1.min);
    pre + [Set(EXPOSURE_SHS2, shs2)] + vbp + [Set(EXPOSURE_SHS1, shs1)]
  }

  /** The ranges are well formed: each minimum at most its maximum. */
  predicate RangesOrdered(r: MultiExpRange)
  {
    r.shs1.min <= r.shs1.max && r.rhs1.min <= r.rhs1.max && r.shs2.min <= r.shs2.max
  }

  /**
   * Every register value the DOL sequence writes lies in its range (SHS2 in
   * the range widened to the frame length); RHS2 and a computed RHS1 are
   * multiples of their steps' truncation; with a fixed VBP no RHS1 is
   * written.
   */
  lemma DolWritesInRange(coarse: seq<int>, r: MultiExpRange, curFll: int, fixedVbp: int, driver: Control -> Status, w: Write)
    requires |coarse| >= 2 && StepsPositive(r) && RangesOrdered(r)
    requires w in Run(DolSteps(coarse, r, curFll, fixedVbp), driver).writes
    ensures w.ctrl == EXPOSURE_SHS1 ==> InRange(w.value, r.shs1)
    ensures w.ctrl == EXPOSURE_SHS2 ==> r.shs2.min <= w.value <= Max(r.shs2.max, curFll)
    ensures w.ctrl == EXPOSURE_RHS1 ==> InRange(w.value, r.rhs1) && fixedVbp < 0
    ensures w.ctrl == EXPOSURE_SHS3 ==> InRange(w.value, r.shs3) && |coarse| > 2
    ensures w.ctrl == EXPOSURE_RHS2 ==> InRange(w.value, r.rhs2) && w.value % r.rhs2.step == 0
    ensures w.ctrl in {EXPOSURE_SHS1, EXPOSURE_SHS2, EXPOSURE_RHS1, EXPOSURE_SHS3, EXPOSURE_RHS2}
  {
    var steps := DolSteps(coarse, r, curFll, fixedVbp);
    RunWritesFromSteps(steps, driver, w);
    var i :| 0 <= i < |steps| && steps[i] == Set(w.ctrl, w.value);
    if w.ctrl in {EXPOSURE_SHS3, EXPOSURE_RHS2} {
      DolGuardsPassed(coarse, r, curFll, fixedVbp, driver, w);
    }
    if w.ctrl == EXPOSURE_RHS2 {
      var x := r.shs3.max + r.shs3.upperBound - coarse[2] - 1 - r.rhs2.upperBound;
      MulMod(TruncDiv(x, r.rhs2.step), r.rhs2.step);
    }
  }

  /** SHS3 and RHS2 are only written after their range checks passed. */
  lemma DolGuardsPassed(coarse: seq<int>, r: MultiExpRange, curFll: int, fixedVbp: int, driver: Control -> Status, w: Write)
    requires |coarse| >= 2 && StepsPositive(r)
    requires w in Run(DolSteps(coarse, r, curFll, fixedVbp), driver).writes
    requires w.ctrl == EXPOSURE_SHS3 || w.ctrl == EXPOSURE_RHS2
    ensures |coarse| > 2
    ensures w.ctrl == EXPOSURE_SHS3 ==> InRange(w.value, r.shs3)
    ensures w.ctrl == EXPOSURE_RHS2 ==> InRange(w.value, r.rhs2)
  {
    var steps := DolSteps(coarse, r, curFll, fixedVbp);
    RunWritesFromSteps(steps, driver, w);
    if |coarse| <= 2 {
      assert false;
    }
    var shs3 := r.shs3.max + r.shs3.upperBound - coarse[2] - 1;
    var rhs2 := StepFloor(shs3 - r.rhs2.upperBound, r.rhs2.step);
    var a, b := InRange(shs3, r.shs3), InRange(rhs2, r.rhs2);
    var tail := steps[4..];
    assert steps == [Require(a), Set(EXPOSURE_SHS3, shs3), Require(b), Set(EXPOSURE_RHS2, rhs2)] + tail;
    var s1, s2, s3 := steps[1..], steps[2..], steps[3..];
    assert s1[0] == Set(EXPOSURE_SHS3, shs3) && s1[1..] == s2;
    assert s2[0] == Require(b) && s2[1..] == s3;
    assert s3[0] == Set(EXPOSURE_RHS2, rhs2) && s3[1..] == tail;
    var r0 := Run(steps, driver);
    if a {
      assert r0 == Run(s1, driver);
      if driver(EXPOSURE_SHS3) != OK {
        assert r0.writes == [Write(EXPOSURE_SHS3, shs3)];
      } else {
        assert r0.writes == [Write(EXPOSURE_SHS3, shs3)] + Run(s2, driver).writes;
        if !b {
          assert Run(s2, driver).writes == [];
        } else {
          assert Run(s2, driver) == Run(s3, driver);
          NoGuardedWritesInTail(coarse, r, curFll, fixedVbp, driver, w);
          assert Run(s3, driver).writes <= [Write(EXPOSURE_RHS2, rhs2)] + Run(tail, driver).writes;
        }
      }
    }
  }

  /** After the first four steps no SHS3 or RHS2 write follows. */
  lemma NoGuardedWritesInTail(coarse: seq<int>, r: MultiExpRange, curFll: int, fixedVbp: int, driver: Control -> Status, w: Write)
    requires |coarse| > 2 && StepsPositive(r)
    requires w.ctrl == EXPOSURE_SHS3 || w.ctrl == EXPOSURE_RHS2
    ensures w !in Run(DolSteps(coarse, r, curFll, fixedVbp)[4..], driver).writes
  {
    var tail := DolSteps(coarse, r, curFll, fixedVbp)[4..];
    RunWritesAvoid(tail, driver, w.ctrl);
  }

  /** A sequence that never sets control c issues no write of c. */
  lemma {:induction false} RunWritesAvoid(steps: seq<Step>, driver: Control -> Status, c: Control)
    requires forall i :: 0 <= i < |steps| && steps[i].Set? ==> steps[i].ctrl != c
    ensures forall k :: 0 <= k < |Run(steps, driver).writes| ==> Run(steps, driver).writes[k].ctrl != c
  {
    if |steps| > 0 {
      assert forall i :: 0 <= i < |steps[1..]| ==> steps[1..][i] == steps[i + 1];
      RunWritesAvoid(steps[1..], driver, c);
    }
  }

  /**
   * setShutterAndReadoutTiming: NO_INIT without the sensor-output
   * sub-device; the pad-format status when reading the output size fails;
   * NO_INIT when no range matches the output size; otherwise the DOL
   * sequence of the first matching range.
   */
  function ShutterAndReadoutTiming(coarse: seq<int>, hasOutputSubdev: bool, padStatus: Status, width: int, height: int,
                                   ranges: seq<MultiExpRange>, curFll: int, fixedVbp: int, driver: Control -> Status): (o: Outcome)
    requires |coarse| >= 2 && forall i :: 0 <= i < |ranges| ==> StepsPositive(ranges[i])
    ensures !hasOutputSubdev ==> o == Outcome([], NO_INIT)
    ensures hasOutputSubdev && padStatus != OK ==> o == Outcome([], padStatus)
    ensures hasOutputSubdev && padStatus == OK && (forall i :: 0 <= i < |ranges| ==> !(ranges[i].width == width && ranges[i].height == height))
      ==> o == Outcome([], NO_INIT)
  {
    if !hasOutputSubdev then Outcome([], NO_INIT)
    else if padStatus != OK then Outcome([], padStatus)
    else
      match FirstFrom(ranges, (x: MultiExpRange) => x.width == width && x.height == height, 0)
      case None => Outcome([], NO_INIT)
      case Some(i) => Run(DolSteps(coarse, ranges[i], curFll, fixedVbp), driver)
  }

  // -------------------------------------------------------------------
  // Gains
  // -------------------------------------------------------------------

  /** Bitwise OR of two 32-bit register values. */
  function BitOr(a: int, b: int): (r: int)
    requires 0 <= a < 0x1_0000_0000 && 0 <= b < 0x1_0000_0000
    ensures 0 <= r < 0x1_0000_0000
  {
    ((a as bv32) | (b as bv32)) as int
  }

  predicate Register32(gains: seq<int>)
  {
    forall i :: 0 <= i < |gains| ==> 0 <= gains[i] < 0x1_0000_0000
  }

  /**
   * The conversion-gain register value as written: gains[0] | gains[1] |
   * gains[2], whatever the number of gains; None stands for the read past
   * the end of a two-gain vector.
   */
  function ConversionValueAsWritten(gains: seq<int>): (r: Option<int>)
    requires |gains| >= 2 && Register32(gains)
    ensures r.None? <==> |gains| < 3
  {
    if |gains| < 3 then None else Some(BitOr(BitOr(gains[0], gains[1]), gains[2]))
  }

  /** The corrected value: the OR of the gains present (the very-short gain only when there is one). */
  function ConversionValue(gains: seq<int>): (r: int)
    requires |gains| >= 2 && Register32(gains)
    ensures |gains| > 2 ==> Some(r) == ConversionValueAsWritten(gains)
    ensures 0 <= r < 0x1_0000_0000
  {
    if |gains| > 2 then BitOr(BitOr(gains[0], gains[1]), gains[2]) else BitOr(gains[0], gains[1])
  }

  /** A two-exposure configuration makes setConversionGain read one gain past the end. */
  lemma ConversionGainReadsPastEnd(long: int, short: int)
    requires 0 <= long < 0x1_0000_0000 && 0 <= short < 0x1_0000_0000
    ensures ConversionValueAsWritten([long, short]).None?
    ensures ConversionValue([long, short]) == BitOr(long, short)
  {
  }

  /** setConversionGain: BAD_VALUE for fewer than two gains, else one ANALOGUE_GAIN write of the combined value. */
  function ConversionGain(gains: seq<int>, driver: Control -> Status): (o: Outcome)
    requires Register32(gains)
    ensures |gains| < 2 <==> o == Outcome([], BAD_VALUE)
    ensures |gains| >= 2 ==> o.writes == [Write(ANALOGUE_GAIN, ConversionValue(gains))] && o.status == driver(ANALOGUE_GAIN)
  {
    if |gains| < 2 then Outcome([], BAD_VALUE)
    else Outcome([Write(ANALOGUE_GAIN, ConversionValue(gains))], driver(ANALOGUE_GAIN))
  }

  /**
   * setMultiDigitalGain: with three gains DIGITAL_GAIN_VS = g0, then
   * DIGITAL_GAIN_S and GAIN; BAD_VALUE (corrected) when fewer than two
   * digital gains are given.
   */
  function MultiDigitalGain(dg: seq<int>, driver: Control -> Status): (o: Outcome)
    ensures |dg| < 2 ==> o == Outcome([], BAD_VALUE)
    ensures |dg| > 2 ==> o == Run([Set(DIGITAL_GAIN_VS, dg[0]), Set(DIGITAL_GAIN_S, dg[1]), Set(GAIN, dg[2])], driver)
    ensures |dg| == 2 ==> o == Run([Set(DIGITAL_GAIN_S, dg[0]), Set(GAIN, dg[1])], driver)
  {
    if |dg| < 2 then Outcome([], BAD_VALUE)
    else if |dg| > 2 then Run([Set(DIGITAL_GAIN_VS, dg[0]), Set(DIGITAL_GAIN_S, dg[1]), Set(GAIN, dg[2])], driver)
    else Run([Set(DIGITAL_GAIN_S, dg[0]), Set(GAIN, dg[1])], driver)
  }

  /** The as-written multi digital gain reads digitalGains[1]; None stands for that read past a one-gain vector. */
  function MultiDigitalGainAsWritten(dg: seq<int>, driver: Control -> Status): (o: Option<Outcome>)
    requires |dg| >= 1
    ensures o.None? <==> |dg| < 2
    ensures o.Some? ==> o.value == MultiDigitalGain(dg, driver)
  {
    if |dg| < 2 then None else Some(MultiDigitalGain(dg, driver))
  }

  /** setGains accepts two analog gains with one digital gain, and the multi digital-gain path then reads past it. */
  lemma MultiDigitalGainReadsPastEnd(ag0: int, ag1: int, dg0: int, driver: Control -> Status)
    ensures MultiDigitalGainAsWritten([dg0], driver).None?
    ensures MultiDigitalGain([dg0], driver).status == BAD_VALUE
  {
  }

  /** setMultiAnalogGain: with three gains ANALOG_GAIN_VS = g0, then ANALOG_GAIN_S and ANALOGUE_GAIN. */
  function MultiAnalogGain(ag: seq<int>, driver: Control -> Status): (o: Outcome)
    requires |ag| >= 2
    ensures |ag| > 2 ==> o == Run([Set(ANALOG_GAIN_VS, ag[0]), Set(ANALOG_GAIN_S, ag[1]), Set(ANALOGUE_GAIN, ag[2])], driver)
    ensures |ag| == 2 ==> o == Run([Set(ANALOG_GAIN_S, ag[0]), Set(ANALOGUE_GAIN, ag[1])], driver)
  {
    if |ag| > 2 then Run([Set(ANALOG_GAIN_VS, ag[0]), Set(ANALOG_GAIN_S, ag[1]), Set(ANALOGUE_GAIN, ag[2])], driver)
    else Run([Set(ANALOG_GAIN_S, ag[0]), Set(ANALOGUE_GAIN, ag[1])], driver)
  }

  // -------------------------------------------------------------------
  // Link frequency
  // -------------------------------------------------------------------

  /** The link-frequency mode: the default when the control has one value, else the top mode above 30 fps and the one below it otherwise. */
  function LinkFreqMode(fps: real, q: QueryCtrl): (mode: int)
    ensures q.maximum == q.minimum ==> mode == q.defaultValue
    ensures q.maximum != q.minimum ==> (mode == q.maximum <==> fps > 30.0)
    ensures q.maximum != q.minimum ==> (mode == q.maximum - 1 <==> fps <= 30.0)
  {
    if q.maximum == q.minimum then q.defaultValue
    else if fps > 30.0 then q.maximum else q.maximum - 1
  }

  /** Raising the frame rate past 30 fps never lowers the link-frequency mode. */
  lemma LinkFreqModeMonotone(fps1: real, fps2: real, q: QueryCtrl)
    requires fps1 <= fps2 && q.maximum != q.minimum
    ensures LinkFreqMode(fps1, q) <= LinkFreqMode(fps2, q)
  {
  }

  class SensorCtrl {
    var horzBlank: int
    var vertBlank: int
    var cropWidth: int
    var cropHeight: int
    var wdrMode: int
    var curFll: int
    /** Whether the pixel-array and sensor-output sub-devices exist. */
    const hasPixelArray: bool
    const hasSensorOutput: bool
    /** Set when the line length cannot be read directly: blanking is then computed from the crop size. */
    const calculatingFrameDuration: bool

    constructor (pixelArray: bool, sensorOutput: bool, llpReadable: bool)
      ensures horzBlank == 0 && vertBlank == 0 && cropWidth == 0 && cropHeight == 0 && wdrMode == 0 && curFll == 0
      ensures hasPixelArray == pixelArray && hasSensorOutput == sensorOutput
      ensures calculatingFrameDuration == (pixelArray && !llpReadable)
    {
      horzBlank, vertBlank, cropWidth, cropHeight, wdrMode, curFll := 0, 0, 0, 0, 0, 0;
      hasPixelArray := pixelArray;
      hasSensorOutput := sensorOutput;
      calculatingFrameDuration := pixelArray && !llpReadable;
    }

    /**
     * setExposure: NO_INIT without the pixel array, BAD_VALUE without
     * exposures; more than one exposure goes to the routine of the HDR
     * exposure type; otherwise one EXPOSURE write of the first exposure.
     */
    function SetExposure(coarse: seq<int>, fine: seq<int>, hdr: HdrExposureType, padStatus: Status, width: int, height: int,
                         ranges: seq<MultiExpRange>, fixedVbp: int, driver: Control -> Status): (o: Outcome)
      requires forall i :: 0 <= i < |ranges| ==> StepsPositive(ranges[i])
      reads this
      ensures !hasPixelArray ==> o == Outcome([], NO_INIT)
      ensures hasPixelArray && (coarse == [] || fine == []) ==> o == Outcome([], BAD_VALUE)
      ensures hasPixelArray && |coarse| == 1 && fine != [] ==> o == Outcome([Write(EXPOSURE, coarse[0])], driver(EXPOSURE))
      ensures hasPixelArray && |coarse| > 1 && fine != [] && hdr == HDR_MULTI_EXPOSURES ==> o == Run(MultiExposureSteps(coarse), driver)
      ensures hasPixelArray && |coarse| > 1 && fine != [] && hdr == HDR_DUAL_EXPOSURES_DCG_AND_VS ==> o == Run(DualExposureSteps(coarse), driver)
    {
      if !hasPixelArray then Outcome([], NO_INIT)
      else if coarse == [] || fine == [] then Outcome([], BAD_VALUE)
      else if |coarse| > 1 && hdr == HDR_RELATIVE_MULTI_EXPOSURES then
        ShutterAndReadoutTiming(coarse, hasSensorOutput, padStatus, width, height, ranges, curFll, fixedVbp, driver)
      else if |coarse| > 1 && hdr == HDR_MULTI_EXPOSURES then Run(MultiExposureSteps(coarse), driver)
      else if |coarse| > 1 && hdr == HDR_DUAL_EXPOSURES_DCG_AND_VS then Run(DualExposureSteps(coarse), driver)
      else Outcome([Write(EXPOSURE, coarse[0])], driver(EXPOSURE))
    }

    /**
     * setGains: NO_INIT without the pixel array, BAD_VALUE without gains.
     * More than one analog gain with a multi-DG gain type runs the digital
     * gains and then the conversion or direct analog gains, OR-ing the two
     * statuses.  Otherwise the first digital gain is written when the sensor
     * applies digital gain (its failure ignored) unless WDR passes it to the
     * ISP, and the result is that of the ANALOGUE_GAIN write.
     */
    function SetGains(ag: seq<int>, dg: seq<int>, gainType: HdrGainType, usingSensorDg: bool, driver: Control -> Status): (o: Outcome)
      requires Register32(ag)
      reads this
      ensures !hasPixelArray ==> o == Outcome([], NO_INIT)
      ensures hasPixelArray && (ag == [] || dg == []) ==> o == Outcome([], BAD_VALUE)
      ensures hasPixelArray && |ag| > 1 && dg != [] && gainType == HDR_MULTI_DG_AND_CONVERTION_AG ==>
        o.writes == MultiDigitalGain(dg, driver).writes + ConversionGain(ag, driver).writes
        && (o.status == OK <==> MultiDigitalGain(dg, driver).status == OK && ConversionGain(ag, driver).status == OK)
      ensures hasPixelArray && ag != [] && dg != [] && !(|ag| > 1 && gainType in {HDR_MULTI_DG_AND_CONVERTION_AG, HDR_MULTI_DG_AND_DIRECT_AG}) ==>
        o.status == driver(ANALOGUE_GAIN) && |o.writes| > 0 && o.writes[|o.writes| - 1] == Write(ANALOGUE_GAIN, ag[0])
        && (Write(GAIN, dg[0]) in o.writes <==> usingSensorDg && !(wdrMode != 0 && gainType == HDR_ISP_DG_AND_SENSOR_DIRECT_AG))
    {
      if !hasPixelArray then Outcome([], NO_INIT)
      else if ag == [] || dg == [] then Outcome([], BAD_VALUE)
      else if |ag| > 1 && gainType == HDR_MULTI_DG_AND_CONVERTION_AG then
        var d := MultiDigitalGain(dg, driver);
        var c := ConversionGain(ag, driver);
        Outcome(d.writes + c.writes, OrStatus(d.status, c.status))
      else if |ag| > 1 && gainType == HDR_MULTI_DG_AND_DIRECT_AG then
        var d := MultiDigitalGain(dg, driver);
        var a := MultiAnalogGain(ag, driver);
        Outcome(d.writes + a.writes, OrStatus(d.status, a.status))
      else
        var dgWrite := if wdrMode != 0 && gainType == HDR_ISP_DG_AND_SENSOR_DIRECT_AG then []
                       else if usingSensorDg then [Write(GAIN, dg[0])] else [];
        Outcome(dgWrite + [Write(ANALOGUE_GAIN, ag[0])], driver(ANALOGUE_GAIN))
    }

    /** configure: a fixed VBP (non-negative) is written to RHS1 once. */
    function Configure(fixedVbp: int, driver: Control -> Status): (o: Outcome)
      ensures fixedVbp < 0 <==> o == Outcome([], OK)
      ensures fixedVbp >= 0 ==> o == Outcome([Write(EXPOSURE_RHS1, fixedVbp)], driver(EXPOSURE_RHS1))
    {
      if fixedVbp >= 0 then Outcome([Write(EXPOSURE_RHS1, fixedVbp)], driver(EXPOSURE_RHS1)) else Outcome([], OK)
    }

    /**
     * setLineLengthPixels: in calculating mode the horizontal blank
     * llp - cropWidth is written only when it changes; otherwise the line
     * length is written.  The blank is recorded only on success.
     */
    method SetLineLengthPixels(llp: int, driver: Control -> Status) returns (o: Outcome)
      modifies this
      ensures calculatingFrameDuration && old(horzBlank) == llp - cropWidth ==> o == Outcome([], OK)
      ensures calculatingFrameDuration && old(horzBlank) != llp - cropWidth ==>
        o == Outcome([Write(HBLANK, llp - cropWidth)], driver(HBLANK))
      ensures !calculatingFrameDuration ==> o == Outcome([Write(LINE_LENGTH_PIXELS, llp)], driver(LINE_LENGTH_PIXELS))
      ensures o == old(LineLengthOutcome(llp, driver))
      ensures horzBlank == (if o.status == OK then llp - cropWidth else old(horzBlank))
      ensures vertBlank == old(vertBlank) && curFll == old(curFll) && wdrMode == old(wdrMode)
      ensures cropWidth == old(cropWidth) && cropHeight == old(cropHeight)
    {
      var status := OK;
      var writes: seq<Write> := [];
      if calculatingFrameDuration {
        var hb := llp - cropWidth;
        if horzBlank != hb {
          writes := [Write(HBLANK, hb)];
          status := driver(HBLANK);
        }
      } else {
        writes := [Write(LINE_LENGTH_PIXELS, llp)];
        status := driver(LINE_LENGTH_PIXELS);
      }
      if status != OK {
        return Outcome(writes, status);
      }
      horzBlank := llp - cropWidth;
      return Outcome(writes, status);
    }

    /**
     * setFrameLengthLines: as the line length with the vertical blank; the
     * current frame length is recorded even when the write fails.
     */
    method SetFrameLengthLines(fll: int, driver: Control -> Status) returns (o: Outcome)
      modifies this
      ensures calculatingFrameDuration && old(vertBlank) == fll - cropHeight ==> o == Outcome([], OK)
      ensures calculatingFrameDuration && old(vertBlank) != fll - cropHeight ==>
        o == Outcome([Write(VBLANK, fll - cropHeight)], driver(VBLANK))
      ensures !calculatingFrameDuration ==> o == Outcome([Write(FRAME_LENGTH_LINES, fll)], driver(FRAME_LENGTH_LINES))
      ensures o == old(FrameLengthOutcome(fll, driver))
      ensures curFll == fll
      ensures vertBlank == (if o.status == OK then fll - cropHeight else old(vertBlank))
      ensures horzBlank == old(horzBlank) && wdrMode == old(wdrMode)
      ensures cropWidth == old(cropWidth) && cropHeight == old(cropHeight)
    {
      var status := OK;
      var writes: seq<Write> := [];
      if calculatingFrameDuration {
        var vb := fll - cropHeight;
        if vertBlank != vb {
          writes := [Write(VBLANK, vb)];
          status := driver(VBLANK);
        }
      } else {
        writes := [Write(FRAME_LENGTH_LINES, fll)];
        status := driver(FRAME_LENGTH_LINES);
      }
      curFll := fll;
      if status != OK {
        return Outcome(writes, status);
      }
      vertBlank := fll - cropHeight;
      return Outcome(writes, status);
    }

    /** What setLineLengthPixels issues and returns in the current state. */
    function LineLengthOutcome(llp: int, driver: Control -> Status): (o: Outcome)
      reads this
      ensures |o.writes| <= 1
      ensures o.writes == [] <==> calculatingFrameDuration && horzBlank == llp - cropWidth
      ensures o.writes == [] ==> o.status == OK
      ensures o.writes != [] ==> (o.status == driver(o.writes[0].ctrl)
        && o.writes[0] == (if calculatingFrameDuration then Write(HBLANK, llp - cropWidth) else Write(LINE_LENGTH_PIXELS, llp)))
    {
      if !calculatingFrameDuration then Outcome([Write(LINE_LENGTH_PIXELS, llp)], driver(LINE_LENGTH_PIXELS))
      else if horzBlank == llp - cropWidth then Outcome([], OK)
      else Outcome([Write(HBLANK, llp - cropWidth)], driver(HBLANK))
    }

    /** What setFrameLengthLines issues and returns in the current state. */
    function FrameLengthOutcome(fll: int, driver: Control -> Status): (o: Outcome)
      reads this
      ensures |o.writes| <= 1
      ensures o.writes == [] <==> calculatingFrameDuration && vertBlank == fll - cropHeight
      ensures o.writes == [] ==> o.status == OK
      ensures o.writes != [] ==> (o.status == driver(o.writes[0].ctrl)
        && o.writes[0] == (if calculatingFrameDuration then Write(VBLANK, fll - cropHeight) else Write(FRAME_LENGTH_LINES, fll)))
    {
      if !calculatingFrameDuration then Outcome([Write(FRAME_LENGTH_LINES, fll)], driver(FRAME_LENGTH_LINES))
      else if vertBlank == fll - cropHeight then Outcome([], OK)
      else Outcome([Write(VBLANK, fll - cropHeight)], driver(VBLANK))
    }

    /**
     * setFrameDuration: NO_INIT without the pixel array.  Otherwise the line
     * length is set only for a nonzero llp and then the frame length only for
     * a nonzero fll; the writes are theirs in that order and the status is
     * OK exactly when every set that ran succeeded (their statuses OR-ed).
     */
    method SetFrameDuration(llp: int, fll: int, driver: Control -> Status) returns (o: Outcome)
      modifies this
      ensures hasPixelArray ==>
        o.writes == (if llp != 0 then old(LineLengthOutcome(llp, driver)).writes else [])
                    + (if fll != 0 then old(FrameLengthOutcome(fll, driver)).writes else [])
      ensures hasPixelArray ==>
        o.status == OrStatus(if llp != 0 then old(LineLengthOutcome(llp, driver)).status else OK,
                             if fll != 0 then old(FrameLengthOutcome(fll, driver)).status else OK)
      ensures o.status == OK <==> hasPixelArray && (llp != 0 ==> old(LineLengthOutcome(llp, driver)).status == OK)
                                                && (fll != 0 ==> old(FrameLengthOutcome(fll, driver)).status == OK)
      ensures !hasPixelArray ==> o == Outcome([], NO_INIT) && horzBlank == old(horzBlank) && vertBlank == old(vertBlank) && curFll == old(curFll)
      ensures hasPixelArray && llp == 0 && fll == 0 ==> o == Outcome([], OK) && horzBlank == old(horzBlank) && curFll == old(curFll)
      ensures hasPixelArray && llp == 0 ==> horzBlank == old(horzBlank)
      ensures hasPixelArray && fll == 0 ==> vertBlank == old(vertBlank) && curFll == old(curFll)
      ensures hasPixelArray && fll != 0 ==> curFll == fll
      ensures hasPixelArray && o.status == OK ==> (llp != 0 ==> horzBlank == llp - cropWidth) && (fll != 0 ==> vertBlank == fll - cropHeight)
      ensures cropWidth == old(cropWidth) && cropHeight == old(cropHeight) && wdrMode == old(wdrMode)
    {
      if !hasPixelArray {
        return Outcome([], NO_INIT);
      }
      var writes: seq<Write> := [];
      var status := OK;
      if llp != 0 {
        var a := SetLineLengthPixels(llp, driver);
        writes, status := a.writes, a.status;
      }
      if fll != 0 {
        var b := SetFrameLengthLines(fll, driver);
        writes, status := writes + b.writes, OrStatus(status, b.status);
      }
      return Outcome(writes, status);
    }

    /**
     * getLineLengthPixels: in calculating mode the driver's horizontal
     * blank plus the crop width, else the driver's line length; on success
     * the blank is recorded.  readStatus and readValue are the driver's answer.
     */
    method GetLineLengthPixels(readStatus: Status, readValue: int) returns (status: Status, llp: int)
      modifies this
      ensures status == readStatus
      ensures status == OK ==> llp == (if calculatingFrameDuration then readValue + cropWidth else readValue)
      ensures status == OK ==> horzBlank == llp - cropWidth
      ensures status != OK ==> horzBlank == old(horzBlank)
      ensures vertBlank == old(vertBlank) && curFll == old(curFll) && wdrMode == old(wdrMode)
      ensures cropWidth == old(cropWidth) && cropHeight == old(cropHeight)
    {
      status := readStatus;
      llp := 0;
      if status == OK {
        if calculatingFrameDuration {
          horzBlank := readValue;
          llp := readValue + cropWidth;
        } else {
          llp := readValue;
          horzBlank := llp - cropWidth;
        }
      }
    }

    /**
     * The line length round-trips: after a successful set, a get whose
     * driver reads back the register just set (the blank in calculating
     * mode, the line length otherwise) returns the line length that was set.
     */
    method LineLengthRoundTrip(llp: int, driver: Control -> Status) returns (got: int)
      requires driver(HBLANK) == OK && driver(LINE_LENGTH_PIXELS) == OK
      modifies this
      ensures got == llp && horzBlank == llp - cropWidth
    {
      var o := SetLineLengthPixels(llp, driver);
      var register := if calculatingFrameDuration then horzBlank else llp;
      var status;
      status, got := GetLineLengthPixels(OK, register);
    }

    /** getVBlank: the recorded vertical blank. */
    function GetVBlank(): (vblank: int)
      reads this
      ensures vblank == vertBlank
    {
      vertBlank
    }

    /**
     * setWdrMode: NO_INIT without the sensor-output sub-device; otherwise
     * the mode is recorded and written, except on a DOL sensor.
     */
    method SetWdrMode(mode: int, hdr: HdrExposureType, driver: Control -> Status) returns (o: Outcome)
      modifies this
      ensures !hasSensorOutput ==> o == Outcome([], NO_INIT) && wdrMode == old(wdrMode)
      ensures hasSensorOutput ==> wdrMode == mode
      ensures hasSensorOutput && hdr == HDR_RELATIVE_MULTI_EXPOSURES ==> o == Outcome([], OK)
      ensures hasSensorOutput && hdr != HDR_RELATIVE_MULTI_EXPOSURES ==> o == Outcome([Write(WDR_MODE, mode)], driver(WDR_MODE))
      ensures horzBlank == old(horzBlank) && vertBlank == old(vertBlank) && curFll == old(curFll)
      ensures cropWidth == old(cropWidth) && cropHeight == old(cropHeight)
    {
      if !hasSensorOutput {
        return Outcome([], NO_INIT);
      }
      wdrMode := mode;
      if hdr != HDR_RELATIVE_MULTI_EXPOSURES {
        return Outcome([Write(WDR_MODE, mode)], driver(WDR_MODE));
      }
      return Outcome([], OK);
    }

    /**
     * setFrameRate: NO_INIT without the sensor-output sub-device, the query
     * status when the link-frequency query fails, else one LINK_FREQ write
     * of the chosen mode.
     */
    function SetFrameRate(fps: real, queryStatus: Status, q: QueryCtrl, driver: Control -> Status): (o: Outcome)
      reads this
      ensures !hasSensorOutput ==> o == Outcome([], NO_INIT)
      ensures hasSensorOutput && queryStatus != OK ==> o == Outcome([], queryStatus)
      ensures hasSensorOutput && queryStatus == OK ==> o == Outcome([Write(LINK_FREQ, LinkFreqMode(fps, q))], driver(LINK_FREQ))
    {
      if !hasSensorOutput then Outcome([], NO_INIT)
      else if queryStatus != OK then Outcome([], queryStatus)
      else Outcome([Write(LINK_FREQ, LinkFreqMode(fps, q))], driver(LINK_FREQ))
    }
  }
}
