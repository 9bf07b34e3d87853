/**
 * Conversion between Android camera metadata and the HAL's own parameters
 * (aal/MetadataConvert.cpp): the value tables that translate enumerations in
 * both directions, window lists flattened to five ints, the default request
 * template, the static capability lists and the exposure unit conversions.
 *
 * Android settings are a map from tag to the entry's values (every Android
 * enumeration value is a small int); HAL enumerations are the ints of their
 * declaration order in ICamera.h, which is not part of this model.
 */
module MetadataConvert {
  import opened Common
  import opened HalTypes
  import opened Parameters

  // ---------------------------------------------------------------------
  // Tags of the Android metadata touched here.
  // ---------------------------------------------------------------------

  datatype AndroidTag =
    | CONTROL_CAPTURE_INTENT
    | CONTROL_MODE
    | CONTROL_AE_MODE
    | CONTROL_AWB_MODE
    | CONTROL_AF_MODE
    | CONTROL_AF_AVAILABLE_MODES
    | CONTROL_AVAILABLE_MODES
    | CONTROL_AE_AVAILABLE_ANTIBANDING_MODES
    | CONTROL_AE_AVAILABLE_MODES
    | CONTROL_AE_LOCK_AVAILABLE
    | CONTROL_AE_AVAILABLE_TARGET_FPS_RANGES
    | CONTROL_AE_COMPENSATION_RANGE
    | CONTROL_AE_COMPENSATION_STEP
    | CONTROL_AVAILABLE_EFFECTS
    | CONTROL_AVAILABLE_SCENE_MODES
    | CONTROL_AVAILABLE_VIDEO_STABILIZATION_MODES
    | CONTROL_AWB_AVAILABLE_MODES
    | CONTROL_AWB_LOCK_AVAILABLE
    | CONTROL_VIDEO_STABILIZATION_MODE
    | CONTROL_EFFECT_MODE
    | SCALER_AVAILABLE_STREAM_CONFIGURATIONS
    | SCALER_AVAILABLE_MIN_FRAME_DURATIONS
    | SCALER_AVAILABLE_STALL_DURATIONS
    | SCALER_AVAILABLE_MAX_DIGITAL_ZOOM
    | SCALER_CROPPING_TYPE
    | SENSOR_EXPOSURE_TIME

  type Settings = map<AndroidTag, seq<int>>

  function Entry(settings: Settings, tag: AndroidTag): seq<int>
  {
    if tag in settings then settings[tag] else []
  }

  // ---------------------------------------------------------------------
  // Value tables (MetadataConvert.cpp:39-82).
  // ---------------------------------------------------------------------

  datatype ValuePair = ValuePair(hal: int, android: int)

  // Android enumerations (camera_metadata_tags.h).
  const ANDROID_ANTIBANDING_OFF: int := 0
  const ANDROID_ANTIBANDING_50HZ: int := 1
  const ANDROID_ANTIBANDING_60HZ: int := 2
  const ANDROID_ANTIBANDING_AUTO: int := 3
  const ANDROID_AE_MODE_OFF: int := 0
  const ANDROID_AE_MODE_ON: int := 1
  const ANDROID_AWB_MODE_OFF: int := 0
  const ANDROID_AWB_MODE_AUTO: int := 1
  const ANDROID_AWB_MODE_INCANDESCENT: int := 2
  const ANDROID_AWB_MODE_FLUORESCENT: int := 3
  const ANDROID_AWB_MODE_DAYLIGHT: int := 5
  const ANDROID_AWB_MODE_CLOUDY_DAYLIGHT: int := 6
  const ANDROID_AWB_MODE_TWILIGHT: int := 7
  const ANDROID_AF_MODE_OFF: int := 0
  const ANDROID_AF_MODE_AUTO: int := 1
  const ANDROID_AF_MODE_MACRO: int := 2
  const ANDROID_AF_MODE_CONTINUOUS_VIDEO: int := 3
  const ANDROID_AF_MODE_CONTINUOUS_PICTURE: int := 4
  const ANDROID_AF_TRIGGER_IDLE: int := 0
  const ANDROID_AF_TRIGGER_START: int := 1
  const ANDROID_AF_TRIGGER_CANCEL: int := 2
  const ANDROID_VIDEO_STABILIZATION_OFF: int := 0
  const ANDROID_VIDEO_STABILIZATION_ON: int := 1
  const ANDROID_EFFECT_MODE_OFF: int := 0
  const ANDROID_EFFECT_MODE_MONO: int := 1
  const ANDROID_EFFECT_MODE_NEGATIVE: int := 2
  const ANDROID_EFFECT_MODE_SEPIA: int := 4
  const ANDROID_CONTROL_MODE_OFF: int := 0
  const ANDROID_CONTROL_MODE_AUTO: int := 1
  const ANDROID_SCENE_MODE_DISABLED: int := 0
  const ANDROID_LOCK_AVAILABLE_FALSE: int := 0
  const ANDROID_LOCK_AVAILABLE_TRUE: int := 1
  const ANDROID_SCALER_CROPPING_TYPE_CENTER_ONLY: int := 0
  /** The float 1.0 the scaler advertises as its maximum digital zoom, an integer value. */
  const MAX_DIGITAL_ZOOM: int := 1

  const ANTIBANDING_MODES: seq<ValuePair> := [
    ValuePair(ANTIBANDING_MODE_AUTO, ANDROID_ANTIBANDING_AUTO),
    ValuePair(ANTIBANDING_MODE_50HZ, ANDROID_ANTIBANDING_50HZ),
    ValuePair(ANTIBANDING_MODE_60HZ, ANDROID_ANTIBANDING_60HZ),
    ValuePair(ANTIBANDING_MODE_OFF, ANDROID_ANTIBANDING_OFF)]

  const AE_MODES: seq<ValuePair> := [
    ValuePair(AE_MODE_AUTO, ANDROID_AE_MODE_ON),
    ValuePair(AE_MODE_MANUAL, ANDROID_AE_MODE_OFF)]

  const AWB_MODES: seq<ValuePair> := [
    ValuePair(AWB_MODE_AUTO, ANDROID_AWB_MODE_AUTO),
    ValuePair(AWB_MODE_INCANDESCENT, ANDROID_AWB_MODE_INCANDESCENT),
    ValuePair(AWB_MODE_FLUORESCENT, ANDROID_AWB_MODE_FLUORESCENT),
    ValuePair(AWB_MODE_DAYLIGHT, ANDROID_AWB_MODE_DAYLIGHT),
    ValuePair(AWB_MODE_FULL_OVERCAST, ANDROID_AWB_MODE_TWILIGHT),
    ValuePair(AWB_MODE_PARTLY_OVERCAST, ANDROID_AWB_MODE_CLOUDY_DAYLIGHT),
    ValuePair(AWB_MODE_MANUAL_COLOR_TRANSFORM, ANDROID_AWB_MODE_OFF)]

  const AF_MODES: seq<ValuePair> := [
    ValuePair(AF_MODE_OFF, ANDROID_AF_MODE_OFF),
    ValuePair(AF_MODE_AUTO, ANDROID_AF_MODE_AUTO),
    ValuePair(AF_MODE_MACRO, ANDROID_AF_MODE_MACRO),
    ValuePair(AF_MODE_CONTINUOUS_VIDEO, ANDROID_AF_MODE_CONTINUOUS_VIDEO),
    ValuePair(AF_MODE_CONTINUOUS_PICTURE, ANDROID_AF_MODE_CONTINUOUS_PICTURE)]

  const AF_TRIGGERS: seq<ValuePair> := [
    ValuePair(AF_TRIGGER_START, ANDROID_AF_TRIGGER_START),
    ValuePair(AF_TRIGGER_CANCEL, ANDROID_AF_TRIGGER_CANCEL),
    ValuePair(AF_TRIGGER_IDLE, ANDROID_AF_TRIGGER_IDLE)]

  const DVS_MODES: seq<ValuePair> := [
    ValuePair(VIDEO_STABILIZATION_MODE_OFF, ANDROID_VIDEO_STABILIZATION_OFF),
    ValuePair(VIDEO_STABILIZATION_MODE_ON, ANDROID_VIDEO_STABILIZATION_ON)]

  const EFFECT_MODES: seq<ValuePair> := [
    ValuePair(CAM_EFFECT_NONE, ANDROID_EFFECT_MODE_OFF),
    ValuePair(CAM_EFFECT_MONO, ANDROID_EFFECT_MODE_MONO),
    ValuePair(CAM_EFFECT_SEPIA, ANDROID_EFFECT_MODE_SEPIA),
    ValuePair(CAM_EFFECT_NEGATIVE, ANDROID_EFFECT_MODE_NEGATIVE)]

  /** Index of the first row whose HAL value is h, or |table| when there is none. */
  function FirstHal(table: seq<ValuePair>, h: int): (k: nat)
    ensures k <= |table|
    ensures forall j :: 0 <= j < k ==> table[j].hal != h
    ensures k < |table| ==> table[k].hal == h
  {
    if table == [] then 0
    else if table[0].hal == h then 0
    else 1 + FirstHal(table[1..], h)
  }

  /** Index of the first row whose Android value is a, or |table| when there is none. */
  function FirstAndroid(table: seq<ValuePair>, a: int): (k: nat)
    ensures k <= |table|
    ensures forall j :: 0 <= j < k ==> table[j].android != a
    ensures k < |table| ==> table[k].android == a
  {
    if table == [] then 0
    else if table[0].android == a then 0
    else 1 + FirstAndroid(table[1..], a)
  }

  /** What getAndroidValue yields for h: the first match, or nothing. */
  function AndroidOf(table: seq<ValuePair>, h: int): Option<int>
  {
    var k := FirstHal(table, h);
    if k < |table| then Some(table[k].android) else None
  }

  /** What getHalValue yields for a: the first match, or nothing. */
  function HalOf(table: seq<ValuePair>, a: int): Option<int>
  {
    var k := FirstAndroid(table, a);
    if k < |table| then Some(table[k].hal) else None
  }

  /**
   * getAndroidValue: OK with the first row's Android value when h is listed;
   * otherwise BAD_VALUE and the output keeps the value it had.
   */
  method GetAndroidValue(h: int, table: seq<ValuePair>, mode: int) returns (r: Status, out: int)
    ensures r == OK || r == BAD_VALUE
    ensures r == OK <==> exists i :: 0 <= i < |table| && table[i].hal == h
    ensures r == OK ==> AndroidOf(table, h) == Some(out)
    ensures r == BAD_VALUE ==> AndroidOf(table, h) == None && out == mode
  {
    var i := 0;
    while i < |table|
      invariant 0 <= i <= |table|
      invariant forall j :: 0 <= j < i ==> table[j].hal != h
    {
      if table[i].hal == h {
        assert FirstHal(table, h) == i;
        return OK, table[i].android;
      }
      i := i + 1;
    }
    return BAD_VALUE, mode;
  }

  /** getHalValue, the same search on the Android column. */
  method GetHalValue(a: int, table: seq<ValuePair>, mode: int) returns (r: Status, out: int)
    ensures r == OK || r == BAD_VALUE
    ensures r == OK <==> exists i :: 0 <= i < |table| && table[i].android == a
    ensures r == OK ==> HalOf(table, a) == Some(out)
    ensures r == BAD_VALUE ==> HalOf(table, a) == None && out == mode
  {
    var i := 0;
    while i < |table|
      invariant 0 <= i <= |table|
      invariant forall j :: 0 <= j < i ==> table[j].android != a
    {
      if table[i].android == a {
        assert FirstAndroid(table, a) == i;
        return OK, table[i].hal;
      }
      i := i + 1;
    }
    return BAD_VALUE, mode;
  }

  predicate AndroidColumnDistinct(table: seq<ValuePair>)
  {
    forall i, j :: 0 <= i < j < |table| ==> table[i].android != table[j].android
  }

  predicate HalColumnDistinct(table: seq<ValuePair>)
  {
    forall i, j :: 0 <= i < j < |table| ==> table[i].hal != table[j].hal
  }

  /** With distinct Android values, HAL -> Android -> HAL is the identity on listed HAL values. */
  lemma HalAndroidHal(table: seq<ValuePair>, h: int)
    requires AndroidColumnDistinct(table)
    requires exists i :: 0 <= i < |table| && table[i].hal == h
    ensures AndroidOf(table, h).Some?
    ensures HalOf(table, AndroidOf(table, h).value) == Some(h)
  {
    var k := FirstHal(table, h);
    var m := FirstAndroid(table, table[k].android);
  }

  /** With distinct HAL values, Android -> HAL -> Android is the identity on listed Android values. */
  lemma AndroidHalAndroid(table: seq<ValuePair>, a: int)
    requires HalColumnDistinct(table)
    requires exists i :: 0 <= i < |table| && table[i].android == a
    ensures HalOf(table, a).Some?
    ensures AndroidOf(table, HalOf(table, a).value) == Some(a)
  {
    var k := FirstAndroid(table, a);
    var m := FirstHal(table, table[k].hal);
  }

  /** Every table of the file is injective in both columns, so each converts both ways losslessly. */
  lemma TablesRoundTrip()
    ensures forall t: seq<ValuePair> :: t in [ANTIBANDING_MODES, AE_MODES, AWB_MODES, AF_MODES, AF_TRIGGERS, DVS_MODES, EFFECT_MODES] ==>
      (forall i :: 0 <= i < |t| ==> HalOf(t, AndroidOf(t, t[i].hal).value) == Some(t[i].hal))
      && (forall i :: 0 <= i < |t| ==> AndroidOf(t, HalOf(t, t[i].android).value) == Some(t[i].android))
  {
    forall t: seq<ValuePair> | t in [ANTIBANDING_MODES, AE_MODES, AWB_MODES, AF_MODES, AF_TRIGGERS, DVS_MODES, EFFECT_MODES]
      ensures forall i :: 0 <= i < |t| ==> HalOf(t, AndroidOf(t, t[i].hal).value) == Some(t[i].hal)
      ensures forall i :: 0 <= i < |t| ==> AndroidOf(t, HalOf(t, t[i].android).value) == Some(t[i].android)
    {
      assert AndroidColumnDistinct(t) && HalColumnDistinct(t);
      forall i | 0 <= i < |t|
        ensures HalOf(t, AndroidOf(t, t[i].hal).value) == Some(t[i].hal)
        ensures AndroidOf(t, HalOf(t, t[i].android).value) == Some(t[i].android)
      {
        HalAndroidHal(t, t[i].hal);
        AndroidHalAndroid(t, t[i].android);
      }
    }
  }

  // ---------------------------------------------------------------------
  // Window lists (MetadataConvert.cpp:1595-1630).
  // ---------------------------------------------------------------------

  /**
   * convertToMetadataRegion: 0 and nothing written for a null destination or
   * when the (unsigned) room is below five ints per window; otherwise the
   * windows flattened and their int count.
   */
  method ConvertToMetadataRegion(windows: seq<Window>, dataCount: int, hasData: bool)
    returns (n: int, data: seq<int>)
    ensures !hasData || ToUint32(dataCount) < 5 * |windows| ==> n == 0 && data == []
    ensures hasData && ToUint32(dataCount) >= 5 * |windows| ==> n == 5 * |windows| && data == Flatten(windows)
  {
    if !hasData || ToUint32(dataCount) < 5 * |windows| {
      return 0, [];
    }
    data := EncodeWindows(windows);
    n := 5 * |windows|;
  }

  /**
   * convertToHalWindow as written: the loop runs while i < dataCount/5 but
   * steps i by 5, so it reads windows 0, 1, ... only up to ceil(windows/5).
   */
  method ConvertToHalWindowAsWritten(data: Option<seq<int>>) returns (r: Status, windows: seq<Window>)
    ensures data.None? || |data.value| % 5 != 0 ==> r == BAD_VALUE && windows == []
    ensures data.Some? && |data.value| % 5 == 0 ==>
      r == OK && windows == Unflatten(data.value)[..(|data.value| / 5 + 4) / 5]
  {
    windows := [];
    if data.None? || |data.value| % 5 != 0 {
      return BAD_VALUE, windows;
    }
    var d := data.value;
    ghost var all := Unflatten(d);
    var i := 0;
    ghost var c := 0;
    while i < |d| / 5
      invariant i == 5 * c && 0 <= c && (c == 0 || 5 * (c - 1) < |d| / 5)
      invariant windows == all[..c]
    {
      UnflattenAt(d, c);
      assert all[..c + 1] == all[..c] + [WindowAt(d, i)];
      windows := windows + [WindowAt(d, i)];
      i := i + 5;
      c := c + 1;
    }
    assert (|d| / 5 + 4) / 5 == c;
    r := OK;
  }

  lemma {:induction false} UnflattenAt(vs: seq<int>, j: nat)
    requires |vs| % WINDOW_ELEMS == 0 && j < |vs| / WINDOW_ELEMS
    ensures |Unflatten(vs)| == |vs| / WINDOW_ELEMS
    ensures 5 * j + WINDOW_ELEMS <= |vs| && Unflatten(vs)[j] == WindowAt(vs, 5 * j)
  {
    var n := |vs| - WINDOW_ELEMS;
    if j < n / WINDOW_ELEMS {
      UnflattenAt(vs[..n], j);
      assert WindowAt(vs[..n], 5 * j) == WindowAt(vs, 5 * j);
    }
  }

  /** The loop as evidently intended: one window per five ints. */
  method ConvertToHalWindow(data: Option<seq<int>>) returns (r: Status, windows: seq<Window>)
    ensures data.None? || |data.value| % 5 != 0 ==> r == BAD_VALUE && windows == []
    ensures data.Some? && |data.value| % 5 == 0 ==> r == OK && windows == Unflatten(data.value)
  {
    windows := [];
    if data.None? || |data.value| % 5 != 0 {
      return BAD_VALUE, windows;
    }
    windows := DecodeWindows(data.value);
    r := OK;
  }
  /** Region lists survive the trip to Android metadata and back through the corrected decoder. */
  lemma RegionRoundTrip(windows: seq<Window>)
    ensures |Flatten(windows)| % 5 == 0 && Unflatten(Flatten(windows)) == windows
  {
    UnflattenFlatten(windows);
  }

  /** As written, the decoder inverts the encoder for at most one window... */
  lemma HalWindowAsWrittenSingle(windows: seq<Window>)
    requires |windows| <= 1
    ensures var d := Flatten(windows); Unflatten(d)[..(|d| / 5 + 4) / 5] == windows
  {
    UnflattenFlatten(windows);
  }

  /** ...and for two windows it returns only the first. */
  lemma HalWindowAsWrittenDropsSecond(w0: Window, w1: Window)
    ensures var d := Flatten([w0, w1]); |d| == 10 && Unflatten(d)[..(|d| / 5 + 4) / 5] == [w0]
  {
    UnflattenFlatten([w0, w1]);
  }

  // ---------------------------------------------------------------------
  // Default request template (MetadataConvert.cpp:298-354).
  // ---------------------------------------------------------------------

  // camera3_request_template_t and ANDROID_CONTROL_CAPTURE_INTENT_*.
  const TEMPLATE_PREVIEW: int := 1
  const TEMPLATE_STILL_CAPTURE: int := 2
  const TEMPLATE_VIDEO_RECORD: int := 3
  const TEMPLATE_VIDEO_SNAPSHOT: int := 4
  const TEMPLATE_ZERO_SHUTTER_LAG: int := 5
  const TEMPLATE_MANUAL: int := 6
  const INTENT_CUSTOM: int := 0
  const INTENT_PREVIEW: int := 1
  const INTENT_STILL_CAPTURE: int := 2
  const INTENT_VIDEO_RECORD: int := 3
  const INTENT_VIDEO_SNAPSHOT: int := 4
  const INTENT_ZERO_SHUTTER_LAG: int := 5
  const INTENT_MANUAL: int := 6

  function CaptureIntent(template: int): int
  {
    if template == TEMPLATE_PREVIEW then INTENT_PREVIEW
    else if template == TEMPLATE_STILL_CAPTURE then INTENT_STILL_CAPTURE
    else if template == TEMPLATE_VIDEO_RECORD then INTENT_VIDEO_RECORD
    else if template == TEMPLATE_VIDEO_SNAPSHOT then INTENT_VIDEO_SNAPSHOT
    else if template == TEMPLATE_ZERO_SHUTTER_LAG then INTENT_ZERO_SHUTTER_LAG
    else if template == TEMPLATE_MANUAL then INTENT_MANUAL
    else INTENT_CUSTOM
  }

  /** The AF mode a template asks for before the availability check. */
  function PreferredAfMode(template: int): int
  {
    if template == TEMPLATE_STILL_CAPTURE || template == TEMPLATE_ZERO_SHUTTER_LAG
      || template == TEMPLATE_PREVIEW then ANDROID_AF_MODE_CONTINUOUS_PICTURE
    else if template == TEMPLATE_VIDEO_RECORD || template == TEMPLATE_VIDEO_SNAPSHOT then
      ANDROID_AF_MODE_CONTINUOUS_VIDEO
    else ANDROID_AF_MODE_OFF
  }

  /** The availability scan: does the AF available-modes entry list `mode`? */
  method ListsMode(entry: seq<int>, mode: int) returns (found: bool)
    ensures found <==> mode in entry
  {
    found := false;
    var i := 0;
    while i < |entry|
      invariant 0 <= i <= |entry|
      invariant found <==> mode in entry[..i]
    {
      assert entry[..i + 1] == entry[..i] + [entry[i]];
      if mode == entry[i] {
        found := true;
      }
      i := i + 1;
    }
    assert entry[..|entry|] == entry;
  }

  /**
   * updateDefaultRequestSettings: the capture intent follows the template
   * (CUSTOM for any other value); MANUAL turns the control, AE, AWB and AF
   * modes off, the other templates keep AUTO / ON / AUTO; the AF mode the
   * template prefers is used only when the AF available-modes entry lists
   * it, else OFF.  Nothing but those five tags changes.
   */
  method UpdateDefaultRequestSettings(template: int, settings: Settings) returns (r: Status, out: Settings)
    ensures r == OK
    ensures out.Keys == settings.Keys + {CONTROL_CAPTURE_INTENT, CONTROL_MODE, CONTROL_AE_MODE, CONTROL_AWB_MODE, CONTROL_AF_MODE}
    ensures forall t :: t in settings && t !in {CONTROL_CAPTURE_INTENT, CONTROL_MODE, CONTROL_AE_MODE, CONTROL_AWB_MODE, CONTROL_AF_MODE} ==> out[t] == settings[t]
    ensures out[CONTROL_CAPTURE_INTENT] == [CaptureIntent(template)]
    ensures template == TEMPLATE_MANUAL ==> (
      out[CONTROL_MODE] == [ANDROID_CONTROL_MODE_OFF] && out[CONTROL_AE_MODE] == [ANDROID_AE_MODE_OFF]
      && out[CONTROL_AWB_MODE] == [ANDROID_AWB_MODE_OFF] && out[CONTROL_AF_MODE] == [ANDROID_AF_MODE_OFF])
    ensures template != TEMPLATE_MANUAL ==> (
      out[CONTROL_MODE] == [ANDROID_CONTROL_MODE_AUTO] && out[CONTROL_AE_MODE] == [ANDROID_AE_MODE_ON]
      && out[CONTROL_AWB_MODE] == [ANDROID_AWB_MODE_AUTO])
    ensures out[CONTROL_AF_MODE] == (if PreferredAfMode(template) in Entry(settings, CONTROL_AF_AVAILABLE_MODES)
      then [PreferredAfMode(template)] else [ANDROID_AF_MODE_OFF])
  {
    var intent := CaptureIntent(template);
    out := settings[CONTROL_CAPTURE_INTENT := [intent]];

    var ctrlMode, aeMode, awbMode, afMode := ANDROID_CONTROL_MODE_AUTO, ANDROID_AE_MODE_ON, ANDROID_AWB_MODE_AUTO, ANDROID_AF_MODE_OFF;
    if template == TEMPLATE_MANUAL {
      ctrlMode, aeMode, awbMode, afMode := ANDROID_CONTROL_MODE_OFF, ANDROID_AE_MODE_OFF, ANDROID_AWB_MODE_OFF, ANDROID_AF_MODE_OFF;
    } else if template == TEMPLATE_STILL_CAPTURE || template == TEMPLATE_ZERO_SHUTTER_LAG || template == TEMPLATE_PREVIEW {
      afMode := ANDROID_AF_MODE_CONTINUOUS_PICTURE;
    } else if template == TEMPLATE_VIDEO_RECORD || template == TEMPLATE_VIDEO_SNAPSHOT {
      afMode := ANDROID_AF_MODE_CONTINUOUS_VIDEO;
    }

    var found := ListsMode(Entry(out, CONTROL_AF_AVAILABLE_MODES), afMode);
    if !found {
      afMode := ANDROID_AF_MODE_OFF;
    }
    out := out[CONTROL_MODE := [ctrlMode]][CONTROL_AE_MODE := [aeMode]][CONTROL_AWB_MODE := [awbMode]][CONTROL_AF_MODE := [afMode]];
    r := OK;
  }

  /** The capture intent carries the template's own value for the six standard templates. */
  lemma CaptureIntentMatchesTemplate(template: int)
    ensures TEMPLATE_PREVIEW <= template <= TEMPLATE_MANUAL ==> CaptureIntent(template) == template
    ensures !(TEMPLATE_PREVIEW <= template <= TEMPLATE_MANUAL) ==> CaptureIntent(template) == INTENT_CUSTOM
  {
  }

  // ---------------------------------------------------------------------
  // Reporting HAL parameters back (convertControlParameter, 681-793):
  // the video stabilization and effect entries.
  // ---------------------------------------------------------------------

  /**
   * As written: both lookups pass the AWB mode (line 778 and 786) where the
   * stabilization and effect modes were read.  The result is the entry written,
   * or None when nothing is written.
   */
  function ReportedStabilizationAsWritten(awbMode: int, dvsMode: Option<int>): Option<int>
  {
    if dvsMode.None? then None else AndroidOf(DVS_MODES, awbMode)
  }

  function ReportedEffectAsWritten(awbMode: int, effectMode: Option<int>): Option<int>
  {
    if effectMode.None? then None else AndroidOf(EFFECT_MODES, awbMode)
  }

  /** Corrected: each mode is looked up in its own table. */
  function ReportedStabilization(dvsMode: Option<int>): Option<int>
  {
    if dvsMode.None? then None else AndroidOf(DVS_MODES, dvsMode.value)
  }

  function ReportedEffect(effectMode: Option<int>): Option<int>
  {
    if effectMode.None? then None else AndroidOf(EFFECT_MODES, effectMode.value)
  }

  /**
   * The corrected report is read back by convertControlMetadata's lookup as
   * the mode that was set, for every listed stabilization and effect mode.
   */
  lemma ReportedModesRoundTrip(dvs: int, effect: int)
    ensures dvs in {VIDEO_STABILIZATION_MODE_OFF, VIDEO_STABILIZATION_MODE_ON} ==>
      ReportedStabilization(Some(dvs)).Some? && HalOf(DVS_MODES, ReportedStabilization(Some(dvs)).value) == Some(dvs)
    ensures effect in {CAM_EFFECT_NONE, CAM_EFFECT_MONO, CAM_EFFECT_SEPIA, CAM_EFFECT_NEGATIVE} ==>
      ReportedEffect(Some(effect)).Some? && HalOf(EFFECT_MODES, ReportedEffect(Some(effect)).value) == Some(effect)
  {
    if dvs in {VIDEO_STABILIZATION_MODE_OFF, VIDEO_STABILIZATION_MODE_ON} {
      assert DVS_MODES[dvs].hal == dvs;
      HalAndroidHal(DVS_MODES, dvs);
    }
    if effect in {CAM_EFFECT_NONE, CAM_EFFECT_MONO, CAM_EFFECT_SEPIA, CAM_EFFECT_NEGATIVE} {
      assert EFFECT_MODES[effect].hal == effect;
      HalAndroidHal(EFFECT_MODES, effect);
    }
  }

  /**
   * The as-written report does not depend on the stabilization or effect mode
   * at all: with AWB AUTO, stabilization ON is reported OFF and a MONO effect
   * is reported OFF, while the corrected lookups report ON and MONO.
   */
  lemma ReportedModesIgnoreSetting()
    ensures forall awb, d1, d2 :: ReportedStabilizationAsWritten(awb, Some(d1)) == ReportedStabilizationAsWritten(awb, Some(d2))
    ensures forall awb, e1, e2 :: ReportedEffectAsWritten(awb, Some(e1)) == ReportedEffectAsWritten(awb, Some(e2))
    ensures ReportedStabilizationAsWritten(AWB_MODE_AUTO, Some(VIDEO_STABILIZATION_MODE_ON)) == Some(ANDROID_VIDEO_STABILIZATION_OFF)
    ensures ReportedStabilization(Some(VIDEO_STABILIZATION_MODE_ON)) == Some(ANDROID_VIDEO_STABILIZATION_ON)
    ensures ReportedEffectAsWritten(AWB_MODE_AUTO, Some(CAM_EFFECT_MONO)) == Some(ANDROID_EFFECT_MODE_OFF)
    ensures ReportedEffect(Some(CAM_EFFECT_MONO)) == Some(ANDROID_EFFECT_MODE_MONO)
  {
    assert DVS_MODES[1].hal == VIDEO_STABILIZATION_MODE_ON;
    assert EFFECT_MODES[1].hal == CAM_EFFECT_MONO;
  }

  // ---------------------------------------------------------------------
  // Static capability lists (fillControlStaticMetadata, 984-1139).
  // ---------------------------------------------------------------------

  /** The supported HAL modes that have an Android value, translated, in order. */
  function MappedModes(modes: seq<int>, table: seq<ValuePair>): (vs: seq<int>)
    ensures |vs| <= |modes|
  {
    if modes == [] then []
    else
      var rest := MappedModes(modes[..|modes| - 1], table);
      match AndroidOf(table, modes[|modes| - 1])
      case Some(a) => rest + [a]
      case None => rest
  }

  /** An Android value is listed exactly when some supported HAL mode translates to it. */
  lemma {:induction false} MappedModesMembers(modes: seq<int>, table: seq<ValuePair>, a: int)
    ensures a in MappedModes(modes, table) <==> exists i :: 0 <= i < |modes| && AndroidOf(table, modes[i]) == Some(a)
  {
    if modes != [] {
      var init := modes[..|modes| - 1];
      MappedModesMembers(init, table, a);
      if a in MappedModes(modes, table) && a !in MappedModes(init, table) {
        assert AndroidOf(table, modes[|modes| - 1]) == Some(a);
      }
      if exists i :: 0 <= i < |modes| && AndroidOf(table, modes[i]) == Some(a) {
        var i :| 0 <= i < |modes| && AndroidOf(table, modes[i]) == Some(a);
        if i < |init| {
          assert init[i] == modes[i];
        }
      }
    }
  }

  /** The per-list loop: translate each supported mode, keep those that succeed. */
  method ConvertModes(modes: seq<int>, table: seq<ValuePair>) returns (data: seq<int>)
    ensures data == MappedModes(modes, table)
  {
    data := [];
    var i := 0;
    while i < |modes|
      invariant 0 <= i <= |modes|
      invariant data == MappedModes(modes[..i], table)
    {
      assert modes[..i + 1][..i] == modes[..i];
      var ret, a := GetAndroidValue(modes[i], table, 0);
      if ret == OK {
        data := data + [a];
      }
      i := i + 1;
    }
    assert modes[..|modes|] == modes;
  }

  /** settings->update(tag, data) guarded by `count > 0`. */
  function PutNonEmpty(settings: Settings, tag: AndroidTag, data: seq<int>): Settings
  {
    if data != [] then settings[tag := data] else settings
  }

  /** A list is written only when at least one of its modes translated. */
  method FillModeList(settings: Settings, tag: AndroidTag, modes: seq<int>, table: seq<ValuePair>) returns (out: Settings)
    ensures out == PutNonEmpty(settings, tag, MappedModes(modes, table))
  {
    out := settings;
    if |modes| > 0 {
      var data := ConvertModes(modes, table);
      if |data| > 0 {
        out := out[tag := data];
      }
    }
  }

  /** A camera_rational_t, stored in the metadata as its numerator and denominator. */
  datatype Rational = Rational(numerator: int, denominator: int)

  /** The HAL's static control capabilities, as the parameter getters return them. */
  datatype ControlCaps = ControlCaps(
    availableModes: seq<int>,
    antibandingModes: seq<int>,
    aeModes: seq<int>,
    aeLockAvailable: bool,
    fpsRanges: Option<seq<Range>>,
    aeCompensationRange: Option<Range>,
    aeCompensationStep: Option<Rational>,
    afModes: seq<int>,
    dvsModes: seq<int>,
    awbModes: seq<int>,
    awbLockAvailable: bool)

  function FlattenRanges(rs: seq<Range>): (vs: seq<int>)
    ensures |vs| == 2 * |rs|
    ensures forall i :: 0 <= i < |rs| ==> vs[2 * i] == rs[i].min && vs[2 * i + 1] == rs[i].max
  {
    if rs == [] then [] else FlattenRanges(rs[..|rs| - 1]) + [rs[|rs| - 1].min, rs[|rs| - 1].max]
  }

  function LockAvailable(b: bool): int
  {
    if b then ANDROID_LOCK_AVAILABLE_TRUE else ANDROID_LOCK_AVAILABLE_FALSE
  }

  /** A list that replaces the old entry when it is non-empty. */
  function NonEmptyOr(data: seq<int>, old_: seq<int>): seq<int>
  {
    if data != [] then data else old_
  }

  /** The five supported-mode lists after translation to Android values. */
  datatype StaticModeLists = StaticModeLists(antibanding: seq<int>, ae: seq<int>, af: seq<int>, dvs: seq<int>, awb: seq<int>)

  function Translated(caps: ControlCaps): StaticModeLists
  {
    StaticModeLists(
      MappedModes(caps.antibandingModes, ANTIBANDING_MODES), MappedModes(caps.aeModes, AE_MODES),
      MappedModes(caps.afModes, AF_MODES), MappedModes(caps.dvsModes, DVS_MODES), MappedModes(caps.awbModes, AWB_MODES))
  }

  /**
   * What fillControlStaticMetadata leaves in each tag, given the translated
   * lists: every supported-mode list, and only when non-empty after
   * translation; the lock flags, the single OFF effect and the DISABLED scene
   * mode always; the ranges and the compensation step when their getter
   * succeeds; every other tag
   * untouched.
   */
  function StaticControlEntry(caps: ControlCaps, lists: StaticModeLists, settings: Settings, t: AndroidTag): seq<int>
  {
    var old_ := Entry(settings, t);
    match t
    case CONTROL_AVAILABLE_MODES => NonEmptyOr(caps.availableModes, old_)
    case CONTROL_AE_AVAILABLE_ANTIBANDING_MODES => NonEmptyOr(lists.antibanding, old_)
    case CONTROL_AE_AVAILABLE_MODES => NonEmptyOr(lists.ae, old_)
    case CONTROL_AF_AVAILABLE_MODES => NonEmptyOr(lists.af, old_)
    case CONTROL_AVAILABLE_VIDEO_STABILIZATION_MODES => NonEmptyOr(lists.dvs, old_)
    case CONTROL_AWB_AVAILABLE_MODES => NonEmptyOr(lists.awb, old_)
    case CONTROL_AE_LOCK_AVAILABLE => [LockAvailable(caps.aeLockAvailable)]
    case CONTROL_AWB_LOCK_AVAILABLE => [LockAvailable(caps.awbLockAvailable)]
    case CONTROL_AVAILABLE_EFFECTS => [ANDROID_EFFECT_MODE_OFF]
    case CONTROL_AVAILABLE_SCENE_MODES => [ANDROID_SCENE_MODE_DISABLED]
    case CONTROL_AE_AVAILABLE_TARGET_FPS_RANGES =>
      if caps.fpsRanges.Some? then FlattenRanges(caps.fpsRanges.value) else old_
    case CONTROL_AE_COMPENSATION_RANGE =>
      if caps.aeCompensationRange.Some? then [caps.aeCompensationRange.value.min, caps.aeCompensationRange.value.max] else old_
    case CONTROL_AE_COMPENSATION_STEP =>
      if caps.aeCompensationStep.Some? then [caps.aeCompensationStep.value.numerator, caps.aeCompensationStep.value.denominator] else old_
    case _ => old_
  }

  lemma EntryPut(m: Settings, k: AndroidTag, v: seq<int>, t: AndroidTag)
    ensures Entry(m[k := v], t) == if t == k then v else Entry(m, t)
  {
  }

  lemma EntryPutNonEmpty(m: Settings, k: AndroidTag, v: seq<int>, t: AndroidTag)
    ensures Entry(PutNonEmpty(m, k, v), t) == if t == k then NonEmptyOr(v, Entry(m, t)) else Entry(m, t)
  {
  }

  /** The updates fillControlStaticMetadata makes up to the AE compensation step, in its order. */
  function AeStaticUpdates(caps: ControlCaps, lists: StaticModeLists, settings: Settings): Settings
  {
    var m1 := PutNonEmpty(settings, CONTROL_AVAILABLE_MODES, caps.availableModes);
    var m2 := PutNonEmpty(m1, CONTROL_AE_AVAILABLE_ANTIBANDING_MODES, lists.antibanding);
    var m3 := PutNonEmpty(m2, CONTROL_AE_AVAILABLE_MODES, lists.ae);
    var m4 := m3[CONTROL_AE_LOCK_AVAILABLE := [LockAvailable(caps.aeLockAvailable)]];
    var m5 := if caps.fpsRanges.Some? then m4[CONTROL_AE_AVAILABLE_TARGET_FPS_RANGES := FlattenRanges(caps.fpsRanges.value)] else m4;
    var m6 := if caps.aeCompensationRange.Some?
      then m5[CONTROL_AE_COMPENSATION_RANGE := [caps.aeCompensationRange.value.min, caps.aeCompensationRange.value.max]]
      else m5;
    if caps.aeCompensationStep.Some?
    then m6[CONTROL_AE_COMPENSATION_STEP := [caps.aeCompensationStep.value.numerator, caps.aeCompensationStep.value.denominator]]
    else m6
  }

  /** The remaining updates, from the AF modes to the AWB lock. */
  function AfAwbStaticUpdates(caps: ControlCaps, lists: StaticModeLists, m6: Settings): Settings
  {
    var m7 := PutNonEmpty(m6, CONTROL_AF_AVAILABLE_MODES, lists.af);
    var m8 := m7[CONTROL_AVAILABLE_EFFECTS := [ANDROID_EFFECT_MODE_OFF]];
    var m9 := m8[CONTROL_AVAILABLE_SCENE_MODES := [ANDROID_SCENE_MODE_DISABLED]];
    var m10 := PutNonEmpty(m9, CONTROL_AVAILABLE_VIDEO_STABILIZATION_MODES, lists.dvs);
    var m11 := PutNonEmpty(m10, CONTROL_AWB_AVAILABLE_MODES, lists.awb);
    m11[CONTROL_AWB_LOCK_AVAILABLE := [LockAvailable(caps.awbLockAvailable)]]
  }

  predicate IsAeStaticTag(t: AndroidTag)
  {
    t in {CONTROL_AVAILABLE_MODES, CONTROL_AE_AVAILABLE_ANTIBANDING_MODES, CONTROL_AE_AVAILABLE_MODES,
          CONTROL_AE_LOCK_AVAILABLE, CONTROL_AE_AVAILABLE_TARGET_FPS_RANGES, CONTROL_AE_COMPENSATION_RANGE,
          CONTROL_AE_COMPENSATION_STEP}
  }

  lemma AeStaticUpdatesEntries(caps: ControlCaps, lists: StaticModeLists, settings: Settings, t: AndroidTag)
    ensures Entry(AeStaticUpdates(caps, lists, settings), t)
      == if IsAeStaticTag(t) then StaticControlEntry(caps, lists, settings, t) else Entry(settings, t)
  {
    var m1 := PutNonEmpty(settings, CONTROL_AVAILABLE_MODES, caps.availableModes);
    var m2 := PutNonEmpty(m1, CONTROL_AE_AVAILABLE_ANTIBANDING_MODES, lists.antibanding);
    var m3 := PutNonEmpty(m2, CONTROL_AE_AVAILABLE_MODES, lists.ae);
    EntryPutNonEmpty(settings, CONTROL_AVAILABLE_MODES, caps.availableModes, t);
    EntryPutNonEmpty(m1, CONTROL_AE_AVAILABLE_ANTIBANDING_MODES, lists.antibanding, t);
    EntryPutNonEmpty(m2, CONTROL_AE_AVAILABLE_MODES, lists.ae, t);
    EntryPut(m3, CONTROL_AE_LOCK_AVAILABLE, [LockAvailable(caps.aeLockAvailable)], t);
  }

  lemma AfAwbStaticUpdatesEntries(caps: ControlCaps, lists: StaticModeLists, m6: Settings, t: AndroidTag)
    ensures Entry(AfAwbStaticUpdates(caps, lists, m6), t)
      == if IsAeStaticTag(t) then Entry(m6, t) else StaticControlEntry(caps, lists, m6, t)
  {
    var m7 := PutNonEmpty(m6, CONTROL_AF_AVAILABLE_MODES, lists.af);
    var m8 := m7[CONTROL_AVAILABLE_EFFECTS := [ANDROID_EFFECT_MODE_OFF]];
    var m9 := m8[CONTROL_AVAILABLE_SCENE_MODES := [ANDROID_SCENE_MODE_DISABLED]];
    var m10 := PutNonEmpty(m9, CONTROL_AVAILABLE_VIDEO_STABILIZATION_MODES, lists.dvs);
    var m11 := PutNonEmpty(m10, CONTROL_AWB_AVAILABLE_MODES, lists.awb);
    EntryPutNonEmpty(m6, CONTROL_AF_AVAILABLE_MODES, lists.af, t);
    EntryPut(m7, CONTROL_AVAILABLE_EFFECTS, [ANDROID_EFFECT_MODE_OFF], t);
    EntryPut(m8, CONTROL_AVAILABLE_SCENE_MODES, [ANDROID_SCENE_MODE_DISABLED], t);
    EntryPutNonEmpty(m9, CONTROL_AVAILABLE_VIDEO_STABILIZATION_MODES, lists.dvs, t);
    EntryPutNonEmpty(m10, CONTROL_AWB_AVAILABLE_MODES, lists.awb, t);
    EntryPut(m11, CONTROL_AWB_LOCK_AVAILABLE, [LockAvailable(caps.awbLockAvailable)], t);
  }

  /** Both halves together: each tag ends as StaticControlEntry describes. */
  lemma StaticUpdatesEntries(caps: ControlCaps, lists: StaticModeLists, settings: Settings, t: AndroidTag)
    ensures Entry(AfAwbStaticUpdates(caps, lists, AeStaticUpdates(caps, lists, settings)), t)
      == StaticControlEntry(caps, lists, settings, t)
  {
    var m6 := AeStaticUpdates(caps, lists, settings);
    AeStaticUpdatesEntries(caps, lists, settings, t);
    AfAwbStaticUpdatesEntries(caps, lists, m6, t);
    if !IsAeStaticTag(t) {
      assert Entry(m6, t) == Entry(settings, t);
    }
  }

  /** fillControlStaticMetadata, tag by tag as StaticControlEntry describes. */
  method FillControlStaticMetadata(caps: ControlCaps, settings: Settings) returns (out: Settings)
    ensures forall t :: Entry(out, t) == StaticControlEntry(caps, Translated(caps), settings, t)
  {
    out := PutNonEmpty(settings, CONTROL_AVAILABLE_MODES, caps.availableModes);
    out := FillModeList(out, CONTROL_AE_AVAILABLE_ANTIBANDING_MODES, caps.antibandingModes, ANTIBANDING_MODES);
    out := FillModeList(out, CONTROL_AE_AVAILABLE_MODES, caps.aeModes, AE_MODES);
    out := out[CONTROL_AE_LOCK_AVAILABLE := [LockAvailable(caps.aeLockAvailable)]];
    if caps.fpsRanges.Some? {
      out := out[CONTROL_AE_AVAILABLE_TARGET_FPS_RANGES := FlattenRanges(caps.fpsRanges.value)];
    }
    if caps.aeCompensationRange.Some? {
      out := out[CONTROL_AE_COMPENSATION_RANGE := [caps.aeCompensationRange.value.min, caps.aeCompensationRange.value.max]];
    }
    if caps.aeCompensationStep.Some? {
      out := out[CONTROL_AE_COMPENSATION_STEP := [caps.aeCompensationStep.value.numerator, caps.aeCompensationStep.value.denominator]];
    }
    ghost var lists := Translated(caps);
    assert out == AeStaticUpdates(caps, lists, settings);
    ghost var m6 := out;
    out := FillModeList(out, CONTROL_AF_AVAILABLE_MODES, caps.afModes, AF_MODES);
    out := out[CONTROL_AVAILABLE_EFFECTS := [ANDROID_EFFECT_MODE_OFF]];
    out := out[CONTROL_AVAILABLE_SCENE_MODES := [ANDROID_SCENE_MODE_DISABLED]];
    out := FillModeList(out, CONTROL_AVAILABLE_VIDEO_STABILIZATION_MODES, caps.dvsModes, DVS_MODES);
    out := FillModeList(out, CONTROL_AWB_AVAILABLE_MODES, caps.awbModes, AWB_MODES);
    out := out[CONTROL_AWB_LOCK_AVAILABLE := [LockAvailable(caps.awbLockAvailable)]];
    assert out == AfAwbStaticUpdates(caps, lists, m6);
    forall t ensures Entry(out, t) == StaticControlEntry(caps, lists, settings, t) {
      StaticUpdatesEntries(caps, lists, settings, t);
    }
  }

  // ---------------------------------------------------------------------
  // Scaler stream configurations (fillScalerStaticMetadata, 1140-1267).
  // ---------------------------------------------------------------------

  datatype StreamConfig = StreamConfig(format: int, width: int, height: int, maxVideoFps: int, maxCaptureFps: int)

  const MAX_VIDEO_RES: int := 1920 * 1080
  const MIN_STILL_RES: int := 320 * 240
  const NSEC_PER_SEC: int := 1_000_000_000
  const SCALER_FORMAT_BLOB: int := 0x21
  const SCALER_FORMAT_IMPLEMENTATION_DEFINED: int := 0x22
  const SCALER_FORMAT_YCbCr_420_888: int := 0x23
  const SCALER_CONFIGURATION_OUTPUT: int := 0

  predicate IsOtherYuv(format: int)
  {
    format == V4L2_PIX_FMT_NV21 || format == V4L2_PIX_FMT_NV16 || format == V4L2_PIX_FMT_YUYV
    || format == V4L2_PIX_FMT_UYVY || format == V4L2_PIX_FMT_YUV420 || format == V4L2_PIX_FMT_YVU420
    || format == V4L2_PIX_FMT_YUV422P
  }

  /** Index of the first config satisfying the YUV test, or |configs|. */
  function FirstOtherYuv(configs: seq<StreamConfig>): (k: nat)
    ensures k <= |configs|
    ensures forall j :: 0 <= j < k ==> !IsOtherYuv(configs[j].format)
    ensures k < |configs| ==> IsOtherYuv(configs[k].format)
  {
    if configs == [] then 0
    else if IsOtherYuv(configs[0].format) then 0
    else 1 + FirstOtherYuv(configs[1..])
  }

  /** The format advertised as implementation-defined: NV12 if any config has it, else the first other YUV format, else -1. */
  function DefaultImplementationDefined(configs: seq<StreamConfig>): int
  {
    if exists c :: c in configs && c.format == V4L2_PIX_FMT_NV12 then V4L2_PIX_FMT_NV12
    else if FirstOtherYuv(configs) < |configs| then configs[FirstOtherYuv(configs)].format
    else -1
  }

  /** The selection loop, with its early break on NV12. */
  method SelectImplementationDefined(configs: seq<StreamConfig>) returns (fmt: int)
    ensures fmt == DefaultImplementationDefined(configs)
  {
    fmt := -1;
    var foundYuv := false;
    var i := 0;
    while i < |configs|
      invariant 0 <= i <= |configs|
      invariant forall j :: 0 <= j < i ==> configs[j].format != V4L2_PIX_FMT_NV12
      invariant foundYuv <==> FirstOtherYuv(configs) < i
      invariant foundYuv ==> fmt == configs[FirstOtherYuv(configs)].format
      invariant !foundYuv ==> fmt == -1
    {
      if configs[i].format == V4L2_PIX_FMT_NV12 {
        fmt := V4L2_PIX_FMT_NV12;
        assert configs[i] in configs;
        return;
      }
      if !foundYuv && IsOtherYuv(configs[i].format) {
        fmt := configs[i].format;
        foundYuv := true;
      }
      i := i + 1;
    }
  }

  /** True when (width, height) is one of the thumbnail pairs. */
  function IsThumbnail(thumbs: seq<int>, width: int, height: int): bool
  {
    exists i :: 0 <= i < |thumbs| && 2 * i + 1 < |thumbs| && thumbs[2 * i] == width && thumbs[2 * i + 1] == height
  }

  /** The thumbnail scan, stepping two ints at a time. */
  method MatchesThumbnail(thumbs: seq<int>, width: int, height: int) returns (skip: bool)
    ensures skip <==> IsThumbnail(thumbs, width, height)
  {
    var i := 0;
    while i < |thumbs|
      invariant 0 <= i && i % 2 == 0
      invariant forall k :: 0 <= k && 2 * k < i && 2 * k + 1 < |thumbs| ==> !(thumbs[2 * k] == width && thumbs[2 * k + 1] == height)
    {
      if i + 1 < |thumbs| && thumbs[i] == width && thumbs[i + 1] == height {
        assert thumbs[2 * (i / 2)] == width;
        return true;
      }
      i := i + 2;
    }
    return false;
  }

  /** The (stream configuration, minimum duration, stall duration) entries one config contributes. */
  datatype ScalerEntries = ScalerEntries(configs: seq<int>, durations: seq<int>, stalls: seq<int>)

  function ConfigEntries(c: StreamConfig, fmt: int, thumbs: seq<int>): ScalerEntries
    requires c.maxVideoFps > 0 && c.maxCaptureFps > 0
  {
    if c.format != fmt || IsThumbnail(thumbs, c.width, c.height) then ScalerEntries([], [], [])
    else
      var res := c.width * c.height;
      var videoNs := TruncDiv(NSEC_PER_SEC, c.maxVideoFps);
      var impl := if res <= MAX_VIDEO_RES
        then ScalerEntries(
          [SCALER_FORMAT_IMPLEMENTATION_DEFINED, c.width, c.height, SCALER_CONFIGURATION_OUTPUT],
          [SCALER_FORMAT_IMPLEMENTATION_DEFINED, c.width, c.height, videoNs], [])
        else ScalerEntries([], [], []);
      var still := if res >= MIN_STILL_RES
        then ScalerEntries(
          [SCALER_FORMAT_BLOB, c.width, c.height, SCALER_CONFIGURATION_OUTPUT,
           SCALER_FORMAT_YCbCr_420_888, c.width, c.height, SCALER_CONFIGURATION_OUTPUT],
          [SCALER_FORMAT_BLOB, c.width, c.height, videoNs,
           SCALER_FORMAT_YCbCr_420_888, c.width, c.height, videoNs],
          [SCALER_FORMAT_BLOB, c.width, c.height, TruncDiv(NSEC_PER_SEC, c.maxCaptureFps)])
        else ScalerEntries([], [], []);
      ScalerEntries(impl.configs + still.configs, impl.durations + still.durations, still.stalls)
  }

  predicate PositiveFps(configs: seq<StreamConfig>)
  {
    forall i :: 0 <= i < |configs| ==> configs[i].maxVideoFps > 0 && configs[i].maxCaptureFps > 0
  }

  function AllEntries(configs: seq<StreamConfig>, fmt: int, thumbs: seq<int>): (e: ScalerEntries)
    requires PositiveFps(configs)
    ensures |e.configs| % 4 == 0 && |e.durations| == |e.configs| && |e.stalls| % 4 == 0
  {
    if configs == [] then ScalerEntries([], [], [])
    else
      var e := AllEntries(configs[..|configs| - 1], fmt, thumbs);
      var c := ConfigEntries(configs[|configs| - 1], fmt, thumbs);
      ScalerEntries(e.configs + c.configs, e.durations + c.durations, e.stalls + c.stalls)
  }

  /** The entries of one more config follow those of the configs before it. */
  lemma AllEntriesSnoc(configs: seq<StreamConfig>, i: nat, fmt: int, thumbs: seq<int>)
    requires PositiveFps(configs) && i < |configs|
    ensures PositiveFps(configs[..i]) && PositiveFps(configs[..i + 1])
    ensures var e, c := AllEntries(configs[..i], fmt, thumbs), ConfigEntries(configs[i], fmt, thumbs);
      AllEntries(configs[..i + 1], fmt, thumbs) == ScalerEntries(e.configs + c.configs, e.durations + c.durations, e.stalls + c.stalls)
  {
    assert configs[..i + 1][..i] == configs[..i];
  }

  /** One turn of the loop below: the entries config c contributes are appended to the three lists. */
  method AppendConfigEntries(c: StreamConfig, fmt: int, thumbs: seq<int>, configData: seq<int>, durationData: seq<int>, stallData: seq<int>)
    returns (configData': seq<int>, durationData': seq<int>, stallData': seq<int>)
    requires c.maxVideoFps > 0 && c.maxCaptureFps > 0
    ensures var e := ConfigEntries(c, fmt, thumbs);
      configData' == configData + e.configs && durationData' == durationData + e.durations && stallData' == stallData + e.stalls
  {
    configData', durationData', stallData' := configData, durationData, stallData;
    var skip := MatchesThumbnail(thumbs, c.width, c.height);
    if c.format == fmt && !skip {
      var res := c.width * c.height;
      if res <= MAX_VIDEO_RES {
        configData' := configData' + [SCALER_FORMAT_IMPLEMENTATION_DEFINED, c.width, c.height, SCALER_CONFIGURATION_OUTPUT];
        durationData' := durationData' + [SCALER_FORMAT_IMPLEMENTATION_DEFINED, c.width, c.height, TruncDiv(NSEC_PER_SEC, c.maxVideoFps)];
      }
      if res >= MIN_STILL_RES {
        configData' := configData' + [SCALER_FORMAT_BLOB, c.width, c.height, SCALER_CONFIGURATION_OUTPUT,
          SCALER_FORMAT_YCbCr_420_888, c.width, c.height, SCALER_CONFIGURATION_OUTPUT];
        durationData' := durationData' + [SCALER_FORMAT_BLOB, c.width, c.height, TruncDiv(NSEC_PER_SEC, c.maxVideoFps),
          SCALER_FORMAT_YCbCr_420_888, c.width, c.height, TruncDiv(NSEC_PER_SEC, c.maxVideoFps)];
        stallData' := stallData' + [SCALER_FORMAT_BLOB, c.width, c.height, TruncDiv(NSEC_PER_SEC, c.maxCaptureFps)];
      }
    }
  }

  /** The two scaler tags fillScalerStaticMetadata writes whatever the configs are. */
  function FixedScalerEntries(settings: Settings): (m: Settings)
    ensures Entry(m, SCALER_AVAILABLE_MAX_DIGITAL_ZOOM) == [MAX_DIGITAL_ZOOM]
    ensures Entry(m, SCALER_CROPPING_TYPE) == [ANDROID_SCALER_CROPPING_TYPE_CENTER_ONLY]
    ensures forall t :: t != SCALER_AVAILABLE_MAX_DIGITAL_ZOOM && t != SCALER_CROPPING_TYPE ==> Entry(m, t) == Entry(settings, t)
  {
    settings[SCALER_AVAILABLE_MAX_DIGITAL_ZOOM := [MAX_DIGITAL_ZOOM]][SCALER_CROPPING_TYPE := [ANDROID_SCALER_CROPPING_TYPE_CENTER_ONLY]]
  }

  /** The three stream-configuration lists written over settings; the fixed scaler tags keep their entries. */
  function ScalerLists(settings: Settings, configData: seq<int>, durationData: seq<int>, stallData: seq<int>): (m: Settings)
    ensures Entry(m, SCALER_AVAILABLE_MAX_DIGITAL_ZOOM) == Entry(settings, SCALER_AVAILABLE_MAX_DIGITAL_ZOOM)
    ensures Entry(m, SCALER_CROPPING_TYPE) == Entry(settings, SCALER_CROPPING_TYPE)
    ensures Entry(m, SCALER_AVAILABLE_STREAM_CONFIGURATIONS) == configData
    ensures Entry(m, SCALER_AVAILABLE_MIN_FRAME_DURATIONS) == durationData
    ensures Entry(m, SCALER_AVAILABLE_STALL_DURATIONS) == stallData
  {
    settings[SCALER_AVAILABLE_STREAM_CONFIGURATIONS := configData]
      [SCALER_AVAILABLE_MIN_FRAME_DURATIONS := durationData][SCALER_AVAILABLE_STALL_DURATIONS := stallData]
  }

  /**
   * fillScalerStaticMetadata: the maximum digital zoom (1.0) and the
   * CENTER_ONLY cropping type are written first, always; with no configs
   * nothing else is; otherwise the three lists are the per-config entries of
   * the configs in the chosen format, thumbnails skipped, in order.
   */
  method FillScalerStaticMetadata(configs: seq<StreamConfig>, thumbs: seq<int>, settings: Settings) returns (out: Settings)
    requires PositiveFps(configs)
    ensures Entry(out, SCALER_AVAILABLE_MAX_DIGITAL_ZOOM) == [MAX_DIGITAL_ZOOM]
    ensures Entry(out, SCALER_CROPPING_TYPE) == [ANDROID_SCALER_CROPPING_TYPE_CENTER_ONLY]
    ensures configs == [] ==> out == FixedScalerEntries(settings)
    ensures configs != [] ==> (
      var e := AllEntries(configs, DefaultImplementationDefined(configs), thumbs);
      out == ScalerLists(FixedScalerEntries(settings), e.configs, e.durations, e.stalls))
  {
    var fixed := FixedScalerEntries(settings);
    if |configs| == 0 {
      return fixed;
    }
    var fmt := SelectImplementationDefined(configs);
    var configData, durationData, stallData := [], [], [];
    var i := 0;
    while i < |configs|
      invariant 0 <= i <= |configs|
      invariant ScalerEntries(configData, durationData, stallData) == AllEntries(configs[..i], fmt, thumbs)
    {
      AllEntriesSnoc(configs, i, fmt, thumbs);
      configData, durationData, stallData := AppendConfigEntries(configs[i], fmt, thumbs, configData, durationData, stallData);
      i := i + 1;
    }
    assert configs[..|configs|] == configs;
    out := ScalerLists(fixed, configData, durationData, stallData);
  }

  /**
   * The four ints q advertise config c: c is in the chosen format and not a
   * thumbnail size, q carries c's size as an output configuration, and its
   * format is one of the three the rules produce: IMPLEMENTATION_DEFINED only
   * up to 1920x1080, BLOB and YCbCr_420_888 only from 320x240.
   */
  predicate AdvertisedBy(q: seq<int>, c: StreamConfig, fmt: int, thumbs: seq<int>)
    requires |q| == 4
  {
    c.format == fmt && !IsThumbnail(thumbs, c.width, c.height)
    && q[1] == c.width && q[2] == c.height && q[3] == SCALER_CONFIGURATION_OUTPUT
    && (q[0] == SCALER_FORMAT_IMPLEMENTATION_DEFINED ==> c.width * c.height <= MAX_VIDEO_RES)
    && (q[0] != SCALER_FORMAT_IMPLEMENTATION_DEFINED ==>
          (c.width * c.height >= MIN_STILL_RES && (q[0] == SCALER_FORMAT_BLOB || q[0] == SCALER_FORMAT_YCbCr_420_888)))
  }

  lemma ConfigEntriesSound(c: StreamConfig, fmt: int, thumbs: seq<int>, j: nat)
    requires c.maxVideoFps > 0 && c.maxCaptureFps > 0
    requires 4 * j + 4 <= |ConfigEntries(c, fmt, thumbs).configs|
    ensures AdvertisedBy(ConfigEntries(c, fmt, thumbs).configs[4 * j .. 4 * j + 4], c, fmt, thumbs)
  {
    var res := c.width * c.height;
    if c.format == fmt && !IsThumbnail(thumbs, c.width, c.height) {
      assert ConfigEntries(c, fmt, thumbs).configs == ConfigQuads(c, res <= MAX_VIDEO_RES, res >= MIN_STILL_RES);
      QuadKinds(c, res <= MAX_VIDEO_RES, res >= MIN_STILL_RES, j);
    }
  }

  /** The stream configurations one config contributes, given which of the two size rules admit it. */
  function ConfigQuads(c: StreamConfig, impl: bool, still: bool): seq<int>
  {
    (if impl then [SCALER_FORMAT_IMPLEMENTATION_DEFINED, c.width, c.height, SCALER_CONFIGURATION_OUTPUT] else [])
    + (if still then [SCALER_FORMAT_BLOB, c.width, c.height, SCALER_CONFIGURATION_OUTPUT,
                      SCALER_FORMAT_YCbCr_420_888, c.width, c.height, SCALER_CONFIGURATION_OUTPUT] else [])
  }

  /** Each quad carries c's size as an output, in a format its rule allows. */
  lemma QuadKinds(c: StreamConfig, impl: bool, still: bool, j: nat)
    requires 4 * j + 4 <= |ConfigQuads(c, impl, still)|
    ensures var q := ConfigQuads(c, impl, still)[4 * j .. 4 * j + 4];
      && q[1] == c.width && q[2] == c.height && q[3] == SCALER_CONFIGURATION_OUTPUT
      && (q[0] == SCALER_FORMAT_IMPLEMENTATION_DEFINED ==> impl)
      && (q[0] != SCALER_FORMAT_IMPLEMENTATION_DEFINED ==> still && (q[0] == SCALER_FORMAT_BLOB || q[0] == SCALER_FORMAT_YCbCr_420_888))
  {
    var e := ConfigQuads(c, impl, still);
    if impl && j == 0 {
      assert e[0..4] == [SCALER_FORMAT_IMPLEMENTATION_DEFINED, c.width, c.height, SCALER_CONFIGURATION_OUTPUT];
    } else {
      var m := if impl then j - 1 else j;
      assert still && m < 2;
      if m == 0 {
        assert e[4 * j .. 4 * j + 4] == [SCALER_FORMAT_BLOB, c.width, c.height, SCALER_CONFIGURATION_OUTPUT];
      } else {
        assert e[4 * j .. 4 * j + 4] == [SCALER_FORMAT_YCbCr_420_888, c.width, c.height, SCALER_CONFIGURATION_OUTPUT];
      }
    }
  }

  /** A quad of a + b that starts inside a, both made of whole quads. */
  lemma QuadInPrefix(a: seq<int>, b: seq<int>, k: nat)
    requires |a| % 4 == 0 && 4 * k < |a|
    ensures 4 * k + 4 <= |a| && (a + b)[4 * k .. 4 * k + 4] == a[4 * k .. 4 * k + 4]
  {
  }

  /** A quad of a + b that starts past a is quad j of b. */
  lemma QuadInSuffix(a: seq<int>, b: seq<int>, k: nat) returns (j: nat)
    requires |a| % 4 == 0 && (|a| + |b|) % 4 == 0 && |a| <= 4 * k < |a| + |b|
    ensures 4 * j + 4 <= |b| && (a + b)[4 * k .. 4 * k + 4] == b[4 * j .. 4 * j + 4]
  {
    j := k - |a| / 4;
  }

  /** Every advertised configuration comes from the config at index i, as AdvertisedBy says. */
  lemma {:induction false} AdvertisedConfigsSound(configs: seq<StreamConfig>, fmt: int, thumbs: seq<int>, k: nat)
    returns (i: nat)
    requires PositiveFps(configs)
    requires 4 * k < |AllEntries(configs, fmt, thumbs).configs|
    ensures i < |configs| && AdvertisedBy(AllEntries(configs, fmt, thumbs).configs[4 * k .. 4 * k + 4], configs[i], fmt, thumbs)
  {
    var init := configs[..|configs| - 1];
    var prev := AllEntries(init, fmt, thumbs).configs;
    var mine := ConfigEntries(configs[|configs| - 1], fmt, thumbs).configs;
    assert AllEntries(configs, fmt, thumbs).configs == prev + mine;
    if 4 * k < |prev| {
      i := AdvertisedConfigsSound(init, fmt, thumbs, k);
      QuadInPrefix(prev, mine, k);
      assert configs[i] == init[i];
    } else {
      var j := QuadInSuffix(prev, mine, k);
      i := |configs| - 1;
      ConfigEntriesSound(configs[i], fmt, thumbs, j);
    }
  }

  /** The quad of format f that a config's rules produce, when its rule admits it. */
  lemma QuadOf(c: StreamConfig, impl: bool, still: bool, f: int) returns (j: nat)
    requires (f == SCALER_FORMAT_IMPLEMENTATION_DEFINED && impl)
          || ((f == SCALER_FORMAT_BLOB || f == SCALER_FORMAT_YCbCr_420_888) && still)
    ensures 4 * j + 4 <= |ConfigQuads(c, impl, still)|
    ensures ConfigQuads(c, impl, still)[4 * j .. 4 * j + 4] == [f, c.width, c.height, SCALER_CONFIGURATION_OUTPUT]
  {
    var e := ConfigQuads(c, impl, still);
    var base := if impl then 1 else 0;
    if f == SCALER_FORMAT_IMPLEMENTATION_DEFINED {
      j := 0;
      assert e[0..4] == [SCALER_FORMAT_IMPLEMENTATION_DEFINED, c.width, c.height, SCALER_CONFIGURATION_OUTPUT];
    } else if f == SCALER_FORMAT_BLOB {
      j := base;
      assert e[4 * j .. 4 * j + 4] == [SCALER_FORMAT_BLOB, c.width, c.height, SCALER_CONFIGURATION_OUTPUT];
    } else {
      j := base + 1;
      assert e[4 * j .. 4 * j + 4] == [SCALER_FORMAT_YCbCr_420_888, c.width, c.height, SCALER_CONFIGURATION_OUTPUT];
    }
  }

  /** Quad j of b is a quad of a + b when a is made of whole quads. */
  lemma QuadAfter(a: seq<int>, b: seq<int>, j: nat)
    requires |a| % 4 == 0 && 4 * j + 4 <= |b|
    ensures (|a| + 4 * j) % 4 == 0 && |a| + 4 * j + 4 <= |a + b|
    ensures (a + b)[|a| + 4 * j .. |a| + 4 * j + 4] == b[4 * j .. 4 * j + 4]
  {
  }

  /**
   * Conversely, every config in the chosen format that is not a thumbnail
   * size is advertised in each format its size admits: as
   * IMPLEMENTATION_DEFINED up to 1920x1080, as BLOB and YCbCr_420_888 from
   * 320x240; the result k is the quad's index.
   */
  lemma {:induction false} AdvertisedConfigsComplete(configs: seq<StreamConfig>, fmt: int, thumbs: seq<int>, i: nat, f: int)
    returns (k: nat)
    requires PositiveFps(configs) && i < |configs|
    requires configs[i].format == fmt && !IsThumbnail(thumbs, configs[i].width, configs[i].height)
    requires (f == SCALER_FORMAT_IMPLEMENTATION_DEFINED && configs[i].width * configs[i].height <= MAX_VIDEO_RES)
          || ((f == SCALER_FORMAT_BLOB || f == SCALER_FORMAT_YCbCr_420_888) && configs[i].width * configs[i].height >= MIN_STILL_RES)
    ensures 4 * k + 4 <= |AllEntries(configs, fmt, thumbs).configs|
    ensures AllEntries(configs, fmt, thumbs).configs[4 * k .. 4 * k + 4]
              == [f, configs[i].width, configs[i].height, SCALER_CONFIGURATION_OUTPUT]
    decreases |configs|
  {
    var init := configs[..|configs| - 1];
    var prev := AllEntries(init, fmt, thumbs).configs;
    var c := configs[|configs| - 1];
    var mine := ConfigEntries(c, fmt, thumbs).configs;
    assert AllEntries(configs, fmt, thumbs).configs == prev + mine;
    if i < |configs| - 1 {
      assert init[i] == configs[i];
      k := AdvertisedConfigsComplete(init, fmt, thumbs, i, f);
      QuadInPrefix(prev, mine, k);
    } else {
      var j := ConfigEntriesQuad(c, fmt, thumbs, f);
      QuadAfter(prev, mine, j);
      k := |prev| / 4 + j;
      assert 4 * k == |prev| + 4 * j;
    }
  }

  /** The quad of format f among the entries of one admitted config. */
  lemma ConfigEntriesQuad(c: StreamConfig, fmt: int, thumbs: seq<int>, f: int) returns (j: nat)
    requires c.maxVideoFps > 0 && c.maxCaptureFps > 0
    requires c.format == fmt && !IsThumbnail(thumbs, c.width, c.height)
    requires (f == SCALER_FORMAT_IMPLEMENTATION_DEFINED && c.width * c.height <= MAX_VIDEO_RES)
          || ((f == SCALER_FORMAT_BLOB || f == SCALER_FORMAT_YCbCr_420_888) && c.width * c.height >= MIN_STILL_RES)
    ensures 4 * j + 4 <= |ConfigEntries(c, fmt, thumbs).configs|
    ensures ConfigEntries(c, fmt, thumbs).configs[4 * j .. 4 * j + 4] == [f, c.width, c.height, SCALER_CONFIGURATION_OUTPUT]
  {
    var res := c.width * c.height;
    assert ConfigEntries(c, fmt, thumbs).configs == ConfigQuads(c, res <= MAX_VIDEO_RES, res >= MIN_STILL_RES);
    j := QuadOf(c, res <= MAX_VIDEO_RES, res >= MIN_STILL_RES, f);
  }

  // ---------------------------------------------------------------------
  // Exposure units (convertSensorMetadata 851-885, convertSensorParameter 887-894).
  // ---------------------------------------------------------------------

  /**
   * The exposure the HAL is given from a request: the 64-bit nanosecond
   * value divided by 1000 (C truncation), and only under manual AE, that is
   * when the AE mode entry is the single value OFF.
   */
  function ExposureFromRequest(settings: Settings): (us: Option<int>)
    ensures us.Some? <==> (Entry(settings, CONTROL_AE_MODE) == [ANDROID_AE_MODE_OFF] && |Entry(settings, SENSOR_EXPOSURE_TIME)| == 1)
    ensures us.Some? ==> var ns := Entry(settings, SENSOR_EXPOSURE_TIME)[0];
      us.value * 1000 <= ns < us.value * 1000 + 1000 || (ns < 0 && us.value * 1000 - 1000 < ns <= us.value * 1000)
  {
    var ae := Entry(settings, CONTROL_AE_MODE);
    var exposure := Entry(settings, SENSOR_EXPOSURE_TIME);
    if |ae| == 1 && ae[0] == ANDROID_AE_MODE_OFF && |exposure| == 1 then Some(TruncDiv(exposure[0], 1000))
    else None
  }

  /** The exposure reported back: microseconds times 1000, when the getter succeeds. */
  function ExposureToResult(settings: Settings, exposureUs: Option<int>): (out: Settings)
    ensures exposureUs.None? ==> out == settings
    ensures exposureUs.Some? ==> out == settings[SENSOR_EXPOSURE_TIME := [exposureUs.value * 1000]]
  {
    if exposureUs.Some? then settings[SENSOR_EXPOSURE_TIME := [exposureUs.value * 1000]] else settings
  }

  /** A manual exposure in whole microseconds survives the request-to-result trip. */
  lemma ExposureRoundTrip(settings: Settings, us: int)
    requires Entry(settings, CONTROL_AE_MODE) == [ANDROID_AE_MODE_OFF]
    ensures ExposureFromRequest(ExposureToResult(settings, Some(us))) == Some(us)
  {
    var out := ExposureToResult(settings, Some(us));
    assert Entry(out, CONTROL_AE_MODE) == [ANDROID_AE_MODE_OFF];
    assert Entry(out, SENSOR_EXPOSURE_TIME) == [us * 1000];
  }
}
