/**
 * The camera profile parser (platformdata/CameraProfiles.cpp): the text
 * parsers for attribute values (integer pairs, size lists, stream
 * configurations, comma lists of names) and the element state that routes
 * each XML element to its handler.  The XML reader itself is not part of
 * this model: elements arrive as calls to StartElement and EndElement.
 */
module CameraProfiles {
  import opened Common
  import opened HalTypes
  import opened Parameters
  import opened CString
  import opened Utils

  // ---------------------------------------------------------------------
  // skipWhiteSpace (2225-2231).
  // ---------------------------------------------------------------------

  /** skipWhiteSpace: the characters it steps over are exactly the blank prefix. */
  method SkipWhiteSpace(src: string) returns (n: nat)
    ensures n == SpaceEnd(src, 0)
  {
    n := 0;
    while At(src, n) == '\n' || At(src, n) == '\t' || At(src, n) == ' '
      || At(src, n) == 11 as char || At(src, n) == '\r' || At(src, n) == 12 as char
      invariant n <= |src|
      invariant forall i :: 0 <= i < n ==> IsSpace(src[i])
      decreases |src| - n
    {
      n := n + 1;
    }
    SpaceEndExact(src, 0, n);
  }

  /** The text after the blank prefix. */
  function SkipBlanks(s: string): (t: string)
    ensures |t| <= |s|
    ensures t == [] || !IsSpace(t[0])
  {
    s[SpaceEnd(s, 0)..]
  }

  // ---------------------------------------------------------------------
  // parsePair (1470-1492).
  // ---------------------------------------------------------------------

  /** The two integers of "<first><delim><second>" and how far the second one reaches. */
  datatype Pair = Pair(first: int, second: int, consumed: nat)

  /**
   * parsePair: -1 (None) unless the delimiter immediately follows the first
   * integer; otherwise both integers, (int)-converted, and the end position
   * just past the second one.
   */
  function ParsePair(s: string, delim: char): (r: Option<Pair>)
    requires delim != NUL
    ensures r.Some? ==> 0 < r.value.consumed <= |s|
  {
    var a := StrtolOf(s);
    if At(s, a.consumed) != delim then None
    else
      var b := StrtolOf(s[a.consumed + 1..]);
      Some(Pair(CInt(a.value), CInt(b.value), a.consumed + 1 + b.consumed))
  }

  predicate IsInt32(v: int)
  {
    -TWO_31 <= v < TWO_31
  }

  /** ParsePair from what strtol reports at each of its two calls; t is the text after the delimiter. */
  lemma ParsePairOf(s: string, delim: char, w: int, n: nat, t: string, h: int, m: nat)
    requires delim != NUL && IsInt32(w) && IsInt32(h)
    requires StrtolOf(s) == Strtol(w, n) && n < |s| && s[n] == delim
    requires t == s[n + 1..] && StrtolOf(t) == Strtol(h, m)
    ensures ParsePair(s, delim) == Some(Pair(w, h, n + 1 + m))
  {
    var a := StrtolOf(s);
    assert a.consumed == n;
    var b := StrtolOf(s[a.consumed + 1..]);
    assert b == Strtol(h, m);
    assert CInt(a.value) == w && CInt(b.value) == h;
  }

  /** ParsePair on two numerals around the delimiter, from what strtol reads in each. */
  lemma ParsePairConcat(a: string, b: string, delim: char, rest: string, w: int, h: int)
    requires delim != NUL && IsInt32(w) && IsInt32(h)
    requires StrtolOf(a + ([delim] + (b + rest))) == Strtol(w, |a|)
    requires StrtolOf(b + rest) == Strtol(h, |b|)
    ensures ParsePair(a + ([delim] + (b + rest)), delim) == Some(Pair(w, h, |a| + 1 + |b|))
  {
    DropDelim(a, delim, b + rest);
    ParsePairOf(a + ([delim] + (b + rest)), delim, w, |a|, b + rest, h, |b|);
  }

  /** strtol reads each of two written ints, the first one stopping at the delimiter. */
  lemma StrtolBothIntStrs(w: int, h: int, delim: char, rest: string)
    requires IsInt32(w) && IsInt32(h)
    requires !IsDigit(delim)
    requires rest == [] || !IsDigit(rest[0])
    ensures StrtolOf(IntStr(w) + ([delim] + (IntStr(h) + rest))) == Strtol(w, |IntStr(w)|)
    ensures StrtolOf(IntStr(h) + rest) == Strtol(h, |IntStr(h)|)
  {
    StrtolIntStr(w, [delim] + (IntStr(h) + rest));
    StrtolIntStr(h, rest);
  }

  /** Writing two ints around the delimiter and parsing them back gives them again. */
  lemma ParsePairRoundTrip(w: int, h: int, delim: char, rest: string)
    requires IsInt32(w) && IsInt32(h)
    requires delim != NUL && !IsDigit(delim)
    requires rest == [] || !IsDigit(rest[0])
    ensures ParsePair(IntStr(w) + ([delim] + (IntStr(h) + rest)), delim)
      == Some(Pair(w, h, |IntStr(w)| + 1 + |IntStr(h)|))
  {
    StrtolBothIntStrs(w, h, delim, rest);
    ParsePairConcat(IntStr(w), IntStr(h), delim, rest, w, h);
  }

  // ---------------------------------------------------------------------
  // parseSizesList (1513-1537).
  // ---------------------------------------------------------------------

  /** The size a parsed pair contributes: itself when both sides are positive, nothing otherwise. */
  function Kept(r: Pair): (z: seq<Size>)
    ensures |z| <= 1 && (z != [] ==> z[0] == Size(r.first, r.second) && r.first > 0 && r.second > 0)
  {
    if r.first > 0 && r.second > 0 then [Size(r.first, r.second)] else []
  }

  /**
   * The sizes parseSizesList appends: "WxH" items separated by commas, only
   * those with positive width and height; it stops, keeping what it has, at
   * the first item that is not a pair or is not followed by ',' or the end.
   */
  function SizesFrom(s: string): (sizes: seq<Size>)
    decreases |s|
  {
    match ParsePair(s, 'x')
    case None => []
    case Some(r) =>
      var c := At(s, r.consumed);
      if c == NUL then Kept(r)
      else if c != ',' then []
      else Kept(r) + SizesFrom(s[r.consumed + 1..])
  }

  /** Every size parseSizesList keeps has a positive width and height. */
  lemma {:induction false} SizesFromPositive(s: string)
    ensures forall i :: 0 <= i < |SizesFrom(s)| ==> SizesFrom(s)[i].width > 0 && SizesFrom(s)[i].height > 0
    decreases |s|
  {
    var pr := ParsePair(s, 'x');
    if pr.Some? && At(s, pr.value.consumed) == ',' {
      SizesFromPositive(s[pr.value.consumed + 1..]);
    }
  }

  /** One comma-terminated item of the list. */
  lemma SizesFromStep(s: string, r: Pair)
    requires ParsePair(s, 'x') == Some(r) && At(s, r.consumed) == ','
    ensures r.consumed < |s|
    ensures SizesFrom(s) == Kept(r) + SizesFrom(s[r.consumed + 1..])
  {
  }

  /** The item that ends the list. */
  lemma SizesFromLast(s: string, r: Pair)
    requires ParsePair(s, 'x') == Some(r) && At(s, r.consumed) == NUL
    ensures SizesFrom(s) == Kept(r)
  {
  }

  /** parseSizesList: a null string adds nothing. */
  method ParseSizesList(sizesStr: Option<string>, sizes: seq<Size>) returns (out: seq<Size>)
    ensures sizesStr.None? ==> out == sizes
    ensures sizesStr.Some? ==> out == sizes + SizesFrom(sizesStr.value)
  {
    out := sizes;
    if sizesStr.None? {
      return;
    }
    var s := sizesStr.value;
    var p := s;
    while true
      invariant out + SizesFrom(p) == sizes + SizesFrom(s)
      decreases |p|
    {
      var pair := ParsePair(p, 'x');
      if pair.None? || (At(p, pair.value.consumed) != ',' && At(p, pair.value.consumed) != NUL) {
        return;
      }
      var r := pair.value;
      ghost var before := out;
      if r.first > 0 && r.second > 0 {
        out := out + [Size(r.first, r.second)];
      }
      assert out == before + Kept(r);
      if At(p, r.consumed) == NUL {
        SizesFromLast(p, r);
        return;
      }
      SizesFromStep(p, r);
      SeqAssoc(before, Kept(r), SizesFrom(p[r.consumed + 1..]));
      p := p[r.consumed + 1..];
    }
  }

  function SizeStr(z: Size): string
  {
    IntStr(z.width) + ("x" + IntStr(z.height))
  }

  /** A list of sizes as the profile writes it: "WxH" items joined by commas. */
  function RenderSizes(sizes: seq<Size>): string
    requires |sizes| >= 1
  {
    if |sizes| == 1 then SizeStr(sizes[0]) else SizeStr(sizes[0]) + ("," + RenderSizes(sizes[1..]))
  }

  predicate GoodSizes(sizes: seq<Size>)
  {
    forall i :: 0 <= i < |sizes| ==> 0 < sizes[i].width < TWO_31 && 0 < sizes[i].height < TWO_31
  }

  /** A pair followed by the end of the list or by a comma and more items. */
  lemma SizesFromAt(s: string, r: Pair, tail: string)
    requires ParsePair(s, 'x') == Some(r) && r.consumed + |tail| == |s| && s[r.consumed..] == tail
    requires tail == [] || tail[0] == ','
    ensures SizesFrom(s) == Kept(r) + (if tail == [] then [] else SizesFrom(tail[1..]))
  {
    if tail == [] {
      SizesFromLast(s, r);
    } else {
      assert s[r.consumed] == tail[0];
      SizesFromStep(s, r);
      assert s[r.consumed + 1..] == tail[1..];
    }
  }

  /** A written size parses back as a pair that ends where the size text ends. */
  lemma SizeStrPair(z: Size, tail: string)
    requires IsInt32(z.width) && IsInt32(z.height)
    requires tail == [] || tail[0] == ','
    ensures ParsePair(SizeStr(z) + tail, 'x') == Some(Pair(z.width, z.height, |SizeStr(z)|))
    ensures (SizeStr(z) + tail)[|SizeStr(z)|..] == tail
  {
    var u := IntStr(z.width) + (['x'] + (IntStr(z.height) + tail));
    assert |SizeStr(z)| == |IntStr(z.width)| + 1 + |IntStr(z.height)|;
    assert SizeStr(z) + tail == u;
    ParsePairRoundTrip(z.width, z.height, 'x', tail);
  }

  lemma SizesFromItem(z: Size, tail: string)
    requires 0 < z.width < TWO_31 && 0 < z.height < TWO_31
    requires tail == [] || tail[0] == ','
    ensures SizesFrom(SizeStr(z) + tail) == [z] + (if tail == [] then [] else SizesFrom(tail[1..]))
  {
    SizeStrPair(z, tail);
    var r := Pair(z.width, z.height, |SizeStr(z)|);
    assert Kept(r) == [z];
    SizesFromAt(SizeStr(z) + tail, r, tail);
  }

  /** A good size in front of a comma and more text adds itself in front of what that text yields. */
  lemma SizesCons(z: Size, rest: string, more: seq<Size>)
    requires 0 < z.width < TWO_31 && 0 < z.height < TWO_31
    requires SizesFrom(rest) == more
    ensures SizesFrom(SizeStr(z) + ("," + rest)) == [z] + more
  {
    SizesFromItem(z, "," + rest);
    assert ("," + rest)[1..] == rest;
  }

  /** Items before a malformed tail are kept: the good sizes come first, then whatever the tail yields. */
  lemma {:induction false} SizesKeepEarlier(good: seq<Size>, tail: string)
    requires |good| >= 1 && GoodSizes(good)
    ensures SizesFrom(RenderSizes(good) + "," + tail) == good + SizesFrom(tail)
    decreases |good|
  {
    if |good| == 1 {
      SizesKeepOne(good, tail);
    } else {
      SizesKeepEarlier(good[1..], tail);
      SizesKeepMore(good, tail);
    }
  }

  lemma SizesKeepOne(good: seq<Size>, tail: string)
    requires |good| == 1 && GoodSizes(good)
    ensures SizesFrom(RenderSizes(good) + "," + tail) == good + SizesFrom(tail)
  {
    var z := good[0];
    assert RenderSizes(good) + "," + tail == SizeStr(z) + ("," + tail);
    SizesCons(z, tail, SizesFrom(tail));
    assert good == [z];
  }

  /** The first size, a comma, and the rest of the list. */
  lemma RenderSizesCons(sizes: seq<Size>, tail: string)
    requires |sizes| > 1
    ensures RenderSizes(sizes) + "," + tail == SizeStr(sizes[0]) + ("," + (RenderSizes(sizes[1..]) + "," + tail))
  {
    CommaRegroup(SizeStr(sizes[0]), RenderSizes(sizes[1..]), tail);
  }

  /** Regrouping a, a comma, b, a comma and t to the right. */
  lemma CommaRegroup(a: string, b: string, t: string)
    ensures a + ("," + b) + "," + t == a + ("," + (b + "," + t))
  {
  }

  lemma SizesKeepMore(good: seq<Size>, tail: string)
    requires |good| > 1 && GoodSizes(good)
    requires SizesFrom(RenderSizes(good[1..]) + "," + tail) == good[1..] + SizesFrom(tail)
    ensures SizesFrom(RenderSizes(good) + "," + tail) == good + SizesFrom(tail)
  {
    var z := good[0];
    var rest := RenderSizes(good[1..]) + "," + tail;
    var more := good[1..] + SizesFrom(tail);
    assert 0 < z.width < TWO_31 && 0 < z.height < TWO_31;
    assert SizesFrom(SizeStr(z) + ("," + rest)) == [z] + more by { SizesCons(z, rest, more); }
    assert [z] + more == good + SizesFrom(tail) by {
      SeqAssoc([z], good[1..], SizesFrom(tail));
      assert good == [z] + good[1..];
    }
    RenderSizesCons(good, tail);
  }

  /** Writing positive sizes out and parsing the text gives them back. */
  lemma {:induction false} SizesRoundTrip(sizes: seq<Size>)
    requires |sizes| >= 1 && GoodSizes(sizes)
    ensures SizesFrom(RenderSizes(sizes)) == sizes
  {
    var z := sizes[0];
    if |sizes| == 1 {
      SizesFromItem(z, []);
      assert SizeStr(z) + [] == SizeStr(z);
    } else {
      var rest := RenderSizes(sizes[1..]);
      SizesRoundTrip(sizes[1..]);
      SizesCons(z, rest, sizes[1..]);
      assert sizes == [z] + sizes[1..];
    }
  }

  // ---------------------------------------------------------------------
  // Comma-separated elements (strchr, then skipWhiteSpace after the comma).
  // ---------------------------------------------------------------------

  /** One element: the text up to the next comma, whether it was the last, and the text after the comma and its blanks. */
  datatype Element = Element(item: string, last: bool, rest: string)

  predicate NoComma(s: string)
  {
    forall i :: 0 <= i < |s| ==> s[i] != ','
  }

  function NextElement(s: string): (e: Element)
    ensures NoComma(e.item)
    ensures e.last ==> e.item == s && e.rest == []
    ensures !e.last ==> |e.rest| < |s| && (e.rest == [] || !IsSpace(e.rest[0]))
    ensures s != [] && s[0] != ',' ==> e.item != [] && e.item[0] == s[0]
  {
    var k := IndexOf(s, ',');
    if k == |s| then Element(s, true, []) else Element(s[..k], false, SkipBlanks(s[k + 1..]))
  }

  /** An element followed by a comma and text that starts with no blank. */
  lemma NextElementOf(a: string, b: string)
    requires NoComma(a)
    requires b == [] || !IsSpace(b[0])
    ensures NextElement(a + ("," + b)) == Element(a, false, b)
  {
    var s := a + ("," + b);
    assert s[|a|] == ',';
    assert IndexOf(s, ',') == |a|;
    assert s[..|a|] == a && s[|a| + 1..] == b;
    SpaceEndExact(b, 0, 0);
  }

  /** The element before a comma, or before the end, is the comma-free text. */
  lemma ItemBefore(a: string, b: string)
    requires NoComma(a)
    requires b == [] || b[0] == ','
    ensures NextElement(a + b).item == a
  {
    var s := a + b;
    assert forall i :: 0 <= i < |a| ==> s[i] == a[i];
    if b == [] {
      assert s == a;
    } else {
      assert s[|a|] == ',';
    }
    assert IndexOf(s, ',') == |a|;
    assert s[..|a|] == a;
  }

  /** The last element of a list. */
  lemma NextElementLast(a: string)
    requires NoComma(a)
    ensures NextElement(a) == Element(a, true, [])
  {
  }

  /** The elements of a list separated by commas, blanks after each comma skipped. */
  function ElementsOf(s: string): (items: seq<string>)
    ensures |items| >= 1
    decreases |s|
  {
    var e := NextElement(s);
    [e.item] + (if e.last then [] else ElementsOf(e.rest))
  }

  predicate Joinable(items: seq<string>)
  {
    forall i :: 0 <= i < |items| ==> NoComma(items[i]) && (items[i] == [] || !IsSpace(items[i][0]))
  }

  /** Join with the first item split off, grouped to the right. */
  lemma JoinCons(items: seq<string>)
    requires |items| > 1
    ensures Join(items, ',') == items[0] + ("," + Join(items[1..], ','))
  {
  }

  /** Joining comma-free items and splitting them again gives them back. */
  lemma {:induction false} ElementsOfJoin(items: seq<string>)
    requires |items| >= 1 && Joinable(items)
    ensures ElementsOf(Join(items, ',')) == items
    decreases |items|
  {
    if |items| == 1 {
      NextElementLast(items[0]);
    } else {
      var tl := items[1..];
      assert Joinable(tl) by {
        forall i | 0 <= i < |tl| ensures NoComma(tl[i]) && (tl[i] == [] || !IsSpace(tl[i][0])) {
          assert tl[i] == items[i + 1];
        }
      }
      var rest := Join(tl, ',');
      assert ElementsOf(items[0] + ("," + rest)) == items by {
        JoinHead(tl);
        ElementsOfJoin(tl);
        ElementsOfCons(items[0], rest, tl);
        assert items == [items[0]] + tl;
      }
      JoinCons(items);
    }
  }

  /** A comma-free element, a comma, and a list that splits into tl. */
  lemma ElementsOfCons(a: string, rest: string, tl: seq<string>)
    requires NoComma(a)
    requires rest == [] || !IsSpace(rest[0])
    requires ElementsOf(rest) == tl
    ensures ElementsOf(a + ("," + rest)) == [a] + tl
  {
    NextElementOf(a, rest);
  }

  lemma JoinHead(items: seq<string>)
    requires |items| >= 1 && Joinable(items)
    ensures Join(items, ',') == [] || !IsSpace(Join(items, ',')[0])
  {
    if |items| > 1 && items[0] == [] {
      assert Join(items, ',')[0] == ',';
    }
  }

  // ---------------------------------------------------------------------
  // parseStreamConfig (667-816).
  // ---------------------------------------------------------------------

  /** supported_stream_config_t. */
  datatype StreamConfig = StreamConfig(format: int, width: int, height: int, field: int, maxVideoFps: int, maxCaptureFps: int)

  const DEFAULT_FPS: int := 30

  /** The outcome of the five parse steps for one configuration. */
  datatype ConfigStep =
    | StepError
    | StepDone(mcId: int, config: StreamConfig, last: bool, rest: string)

  /** A finished configuration has a non-negative id, and the text left is empty after the last one and shorter than s otherwise. */
  predicate Progress(r: ConfigStep, s: string)
  {
    r.StepDone? ==> r.mcId >= 0 && (r.last ==> r.rest == []) && (!r.last ==> |r.rest| < |s|)
  }

  /**
   * The five steps of one configuration.  Step 1: the format name; an
   * unknown name, or a name that ends the text, is an error.
   */
  function ParseConfigAt(ft: seq<FormatInfo>, s: string): (r: ConfigStep)
    ensures Progress(r, s)
  {
    var e1 := NextElement(s);
    var format := StringToPixelCode(ft, Some(e1.item));
    if format == -1 || e1.last then StepError else ParseGeometry(format, e1.rest)
  }

  /**
   * Steps 2 to 4: "WxH" (an error without the 'x', or when it ends the
   * text), the field (an error when it ends the text), and the media
   * configuration id (an error when negative).
   */
  function ParseGeometry(format: int, s: string): (r: ConfigStep)
    ensures Progress(r, s)
  {
    var e2 := NextElement(s);
    var size := ParsePair(e2.item, 'x');
    if size.None? || e2.last then StepError
    else
      var e3 := NextElement(e2.rest);
      if e3.last then StepError
      else
        var e4 := NextElement(e3.rest);
        var mcId := CInt(StrtolOf(e4.item).value);
        if mcId < 0 then StepError
        else
          var field := CInt(StrtolOf(e3.item).value);
          ParseFps(mcId, StreamConfig(format, size.value.first, size.value.second, field, DEFAULT_FPS, DEFAULT_FPS), e4)
  }

  /**
   * Step 5: when more text follows and it starts with '(', the element is
   * "(video/capture)" and a missing '/' is an error; otherwise the fps stay
   * 30/30 and the text after the id is the next configuration.
   */
  function ParseFps(mcId: nat, c: StreamConfig, e4: Element): (r: ConfigStep)
    requires e4.last ==> e4.rest == []
    ensures r.StepDone? ==> r.mcId == mcId && (r.last ==> r.rest == []) && (!r.last ==> |r.rest| <= |e4.rest|)
  {
    if !e4.last && At(e4.rest, 0) == '(' then
      var e5 := NextElement(e4.rest);
      var fps := ParsePair(e5.item[1..], '/');
      if fps.None? then StepError
      else StepDone(mcId, c.(maxVideoFps := fps.value.first, maxCaptureFps := fps.value.second), e5.last, e5.rest)
    else StepDone(mcId, c, e4.last, e4.rest)
  }

  datatype McConfig = McConfig(mcId: int, config: StreamConfig)

  /** Every configuration parseStreamConfig pushes, in order, and whether it ended without error. */
  datatype ParsedConfigs = ParsedConfigs(entries: seq<McConfig>, ok: bool)

  function StreamConfigsOf(ft: seq<FormatInfo>, s: string): (r: ParsedConfigs)
    decreases |s|
  {
    match ParseConfigAt(ft, s)
    case StepError => ParsedConfigs([], false)
    case StepDone(mcId, config, last, rest) =>
      if last then ParsedConfigs([McConfig(mcId, config)], true)
      else
        var more := StreamConfigsOf(ft, rest);
        ParsedConfigs([McConfig(mcId, config)] + more.entries, more.ok)
  }

  /** The list after one finished configuration: that configuration, then the list after it. */
  lemma StreamConfigsStep(ft: seq<FormatInfo>, s: string)
    requires ParseConfigAt(ft, s).StepDone?
    ensures var st := ParseConfigAt(ft, s);
      var e := McConfig(st.mcId, st.config);
      StreamConfigsOf(ft, s) == if st.last then ParsedConfigs([e], true)
        else ParsedConfigs([e] + StreamConfigsOf(ft, st.rest).entries, StreamConfigsOf(ft, st.rest).ok)
  {
  }

  /** The value parseStreamConfig returns: 1 + 2 + 1 + 1 + 2 = 7 ints per configuration, 0 after any error. */
  function ConfigCount(r: ParsedConfigs): (n: nat)
    ensures r.ok ==> n == 7 * |r.entries|
    ensures !r.ok ==> n == 0
  {
    if r.ok then 7 * |r.entries| else 0
  }

  function ConfigsOf(entries: seq<McConfig>): (cs: seq<StreamConfig>)
    ensures |cs| == |entries| && forall i :: 0 <= i < |entries| ==> cs[i] == entries[i].config
  {
    if entries == [] then [] else [entries[0].config] + ConfigsOf(entries[1..])
  }

  /** storeMcMappForConfig: the configuration is appended to its id's list, which starts empty. */
  function Store(m: map<int, seq<StreamConfig>>, e: McConfig): (m': map<int, seq<StreamConfig>>)
    ensures m'.Keys == m.Keys + {e.mcId}
    ensures m'[e.mcId] == (if e.mcId in m then m[e.mcId] else []) + [e.config]
    ensures forall k :: k in m && k != e.mcId ==> m'[k] == m[k]
  {
    m[e.mcId := (if e.mcId in m then m[e.mcId] else []) + [e.config]]
  }

  /** storeMcMappForConfig, applied to every pushed configuration in turn. */
  function StoreAll(m: map<int, seq<StreamConfig>>, entries: seq<McConfig>): map<int, seq<StreamConfig>>
    decreases |entries|
  {
    if entries == [] then m else StoreAll(Store(m, entries[0]), entries[1..])
  }

  /** One configuration as a profile writes it, the fps element optional. */
  datatype ConfigText = ConfigText(name: string, config: StreamConfig, mcId: int, fps: bool)

  function FpsText(c: StreamConfig): string
  {
    "(" + (IntStr(c.maxVideoFps) + ("/" + (IntStr(c.maxCaptureFps) + ")")))
  }

  /** The text after the id: the fps element when written, then the rest of the list. */
  function AfterId(t: ConfigText, tail: string): string
  {
    if t.fps then "," + (FpsText(t.config) + tail) else tail
  }

  /** One configuration written out, followed by tail. */
  function ConfigThen(t: ConfigText, tail: string): string
  {
    var c := t.config;
    t.name + ("," + (SizeStr(Size(c.width, c.height)) + ("," + (IntStr(c.field) + ("," + (IntStr(t.mcId) + AfterId(t, tail)))))))
  }

  /** A list of configurations as a profile writes it, separated by commas. */
  function RenderConfigs(ts: seq<ConfigText>): string
    requires |ts| >= 1
  {
    ConfigThen(ts[0], if |ts| == 1 then [] else "," + RenderConfigs(ts[1..]))
  }

  /** A configuration the text form can carry: a listed format name and int values. */
  predicate Renderable(ft: seq<FormatInfo>, t: ConfigText)
  {
    StringToPixelCode(ft, Some(t.name)) == t.config.format != -1
    && NoComma(t.name) && |t.name| >= 1 && !IsSpace(t.name[0]) && t.name[0] != '('
    && IsInt32(t.config.width) && IsInt32(t.config.height) && IsInt32(t.config.field)
    && 0 <= t.mcId < TWO_31
    && IsInt32(t.config.maxVideoFps) && IsInt32(t.config.maxCaptureFps)
    && (!t.fps ==> t.config.maxVideoFps == DEFAULT_FPS && t.config.maxCaptureFps == DEFAULT_FPS)
  }

  /** What may follow a configuration: the end, or a comma and text with no leading blank or '('. */
  predicate ListTail(tail: string)
  {
    tail == [] || (tail[0] == ',' && (tail[1..] == [] || (!IsSpace(tail[1]) && tail[1] != '(')))
  }

  lemma NoCommaConcat(a: string, b: string)
    requires NoComma(a) && NoComma(b)
    ensures NoComma(a + b)
  {
    assert forall i :: 0 <= i < |a + b| ==> (a + b)[i] == if i < |a| then a[i] else b[i - |a|];
  }

  lemma IntStrNoComma(v: int)
    ensures NoComma(IntStr(v)) && IntStr(v)[0] != '(' && IntStr(v) != []
  {
    if v < 0 {
      DecDigits(-v);
      assert IntStr(v) == "-" + Dec(-v);
    } else {
      DecDigits(v);
    }
  }

  /** atoi reads back a written int. */
  lemma AtoiIntStr(v: int)
    requires IsInt32(v)
    ensures Atoi(IntStr(v)) == v
  {
    StrtolIntStr(v, []);
    assert IntStr(v) + [] == IntStr(v);
  }

  /** A written size is one element that parses back to its pair. */
  lemma SizeStrItem(z: Size)
    requires IsInt32(z.width) && IsInt32(z.height)
    ensures NoComma(SizeStr(z)) && SizeStr(z)[0] != ','
    ensures ParsePair(SizeStr(z), 'x') == Some(Pair(z.width, z.height, |SizeStr(z)|))
  {
    IntStrNoComma(z.width);
    IntStrNoComma(z.height);
    NoCommaConcat(IntStr(z.width), "x");
    NoCommaConcat(IntStr(z.width) + "x", IntStr(z.height));
    SizeStrPair(z, []);
    assert SizeStr(z) + [] == SizeStr(z);
  }

  /** A written fps element is one element whose text after '(' parses back to the two rates. */
  lemma FpsTextItem(c: StreamConfig)
    requires IsInt32(c.maxVideoFps) && IsInt32(c.maxCaptureFps)
    ensures NoComma(FpsText(c)) && FpsText(c)[0] == '('
    ensures ParsePair(FpsText(c)[1..], '/').Some?
    ensures ParsePair(FpsText(c)[1..], '/').value.first == c.maxVideoFps
    ensures ParsePair(FpsText(c)[1..], '/').value.second == c.maxCaptureFps
  {
    var v, w := IntStr(c.maxVideoFps), IntStr(c.maxCaptureFps);
    IntStrNoComma(c.maxVideoFps);
    IntStrNoComma(c.maxCaptureFps);
    NoCommaConcat(w, ")");
    NoCommaConcat("/", w + ")");
    NoCommaConcat(v, "/" + (w + ")"));
    NoCommaConcat("(", v + ("/" + (w + ")")));
    assert FpsText(c)[1..] == v + ("/" + (w + ")"));
    ParsePairRoundTrip(c.maxVideoFps, c.maxCaptureFps, '/', ")");
  }

  /** A list tail that is not empty is a comma and what follows it. */
  lemma CommaTail(tail: string)
    requires ListTail(tail) && tail != []
    ensures tail == "," + tail[1..]
  {
  }

  /** Step 5 on written text: the fps element when present, and the list continues after it. */
  lemma ParseFpsRendered(ft: seq<FormatInfo>, t: ConfigText, tail: string, c: StreamConfig)
    requires Renderable(ft, t) && ListTail(tail)
    requires c == t.config.(maxVideoFps := DEFAULT_FPS, maxCaptureFps := DEFAULT_FPS)
    ensures ParseFps(t.mcId, c, NextElement(IntStr(t.mcId) + AfterId(t, tail)))
      == StepDone(t.mcId, t.config, tail == [], if tail == [] then [] else tail[1..])
  {
    if t.fps {
      ParseFpsWritten(t.mcId, t.config, tail, c);
    } else {
      IntStrNoComma(t.mcId);
      ItemThenTail(IntStr(t.mcId), tail);
    }
  }

  /** Step 5 when the fps element is written: both rates come from it. */
  lemma ParseFpsWritten(mcId: nat, config: StreamConfig, tail: string, c: StreamConfig)
    requires IsInt32(config.maxVideoFps) && IsInt32(config.maxCaptureFps) && ListTail(tail)
    requires c == config.(maxVideoFps := DEFAULT_FPS, maxCaptureFps := DEFAULT_FPS)
    ensures ParseFps(mcId, c, NextElement(IntStr(mcId) + ("," + (FpsText(config) + tail))))
      == StepDone(mcId, config, tail == [], if tail == [] then [] else tail[1..])
  {
    var mc, f := IntStr(mcId), FpsText(config);
    IntStrNoComma(mcId);
    FpsTextItem(config);
    NextElementOf(mc, f + tail);
    ItemThenTail(f, tail);
  }

  /** A comma-free element followed by a list tail: the element, and where the list goes on. */
  lemma ItemThenTail(a: string, tail: string)
    requires NoComma(a) && ListTail(tail)
    ensures NextElement(a + tail) == Element(a, tail == [], if tail == [] then [] else tail[1..])
  {
    if tail == [] {
      assert a + tail == a;
      NextElementLast(a);
    } else {
      CommaTail(tail);
      NextElementOf(a, tail[1..]);
    }
  }

  /** Steps 2 to 5 on written text. */
  lemma ParseGeometryRendered(ft: seq<FormatInfo>, t: ConfigText, tail: string)
    requires Renderable(ft, t) && ListTail(tail)
    ensures var c := t.config;
      ParseGeometry(c.format, SizeStr(Size(c.width, c.height)) + ("," + (IntStr(c.field) + ("," + (IntStr(t.mcId) + AfterId(t, tail))))))
      == StepDone(t.mcId, t.config, tail == [], if tail == [] then [] else tail[1..])
  {
    var c := t.config;
    var sz, fd, mc := SizeStr(Size(c.width, c.height)), IntStr(c.field), IntStr(t.mcId);
    var r4 := mc + AfterId(t, tail);
    SizeStrItem(Size(c.width, c.height));
    IntStrNoComma(c.field);
    IntStrNoComma(t.mcId);
    NextElementOf(sz, fd + ("," + r4));
    NextElementOf(fd, r4);
    ItemBefore(mc, AfterId(t, tail));
    AtoiIntStr(c.field);
    AtoiIntStr(t.mcId);
    ParseFpsRendered(ft, t, tail, c.(maxVideoFps := DEFAULT_FPS, maxCaptureFps := DEFAULT_FPS));
  }

  /** One written configuration parses back to itself, and the list continues after it. */
  lemma ParseConfigRendered(ft: seq<FormatInfo>, t: ConfigText, tail: string)
    requires Renderable(ft, t) && ListTail(tail)
    ensures ParseConfigAt(ft, ConfigThen(t, tail)) == StepDone(t.mcId, t.config, tail == [], if tail == [] then [] else tail[1..])
  {
    var c := t.config;
    var r1 := SizeStr(Size(c.width, c.height)) + ("," + (IntStr(c.field) + ("," + (IntStr(t.mcId) + AfterId(t, tail)))));
    SizeStrItem(Size(c.width, c.height));
    NextElementOf(t.name, r1);
    ParseGeometryRendered(ft, t, tail);
  }

  function EntriesOf(ts: seq<ConfigText>): (es: seq<McConfig>)
    ensures |es| == |ts|
    ensures forall i :: 0 <= i < |ts| ==> es[i] == McConfig(ts[i].mcId, ts[i].config)
  {
    if ts == [] then [] else [McConfig(ts[0].mcId, ts[0].config)] + EntriesOf(ts[1..])
  }

  /** One more written configuration in front of a list that parses back. */
  lemma StreamConfigsCons(ft: seq<FormatInfo>, ts: seq<ConfigText>)
    requires |ts| >= 2 && Renderable(ft, ts[0]) && Renderable(ft, ts[1])
    requires StreamConfigsOf(ft, RenderConfigs(ts[1..])) == ParsedConfigs(EntriesOf(ts[1..]), true)
    ensures StreamConfigsOf(ft, RenderConfigs(ts)) == ParsedConfigs(EntriesOf(ts), true)
  {
    var rest := RenderConfigs(ts[1..]);
    var tail := "," + rest;
    assert ts[1..][0] == ts[1];
    RenderConfigsHead(ft, ts[1..]);
    assert tail[1..] == rest && tail[1] == rest[0];
    assert RenderConfigs(ts) == ConfigThen(ts[0], tail);
    ParseConfigRendered(ft, ts[0], tail);
    StreamConfigsStep(ft, RenderConfigs(ts));
    assert EntriesOf(ts) == [McConfig(ts[0].mcId, ts[0].config)] + EntriesOf(ts[1..]);
  }

  /** Writing configurations out and parsing the text yields them all, and a count of 7 per configuration. */
  lemma {:induction false} StreamConfigsRoundTrip(ft: seq<FormatInfo>, ts: seq<ConfigText>)
    requires |ts| >= 1 && forall i :: 0 <= i < |ts| ==> Renderable(ft, ts[i])
    ensures StreamConfigsOf(ft, RenderConfigs(ts)) == ParsedConfigs(EntriesOf(ts), true)
    ensures ConfigCount(StreamConfigsOf(ft, RenderConfigs(ts))) == 7 * |ts|
    decreases |ts|
  {
    if |ts| == 1 {
      ParseConfigRendered(ft, ts[0], []);
    } else {
      StreamConfigsRoundTrip(ft, ts[1..]);
      StreamConfigsCons(ft, ts);
    }
  }

  lemma RenderConfigsHead(ft: seq<FormatInfo>, ts: seq<ConfigText>)
    requires |ts| >= 1 && Renderable(ft, ts[0])
    ensures RenderConfigs(ts) != [] && !IsSpace(RenderConfigs(ts)[0]) && RenderConfigs(ts)[0] != '('
  {
    var t := ts[0];
    var c := t.config;
    var tail := if |ts| == 1 then [] else "," + RenderConfigs(ts[1..]);
    var r1 := SizeStr(Size(c.width, c.height)) + ("," + (IntStr(c.field) + ("," + (IntStr(t.mcId) + AfterId(t, tail)))));
    assert RenderConfigs(ts) == t.name + ("," + r1);
    assert (t.name + ("," + r1))[0] == t.name[0];
  }

  // ---------------------------------------------------------------------
  // getTuningModeByStr (340-366) and parseSupportedFeatures (818-858).
  // ---------------------------------------------------------------------

  /** The name a tuning mode is written with in a profile. */
  function TuningModeName(m: TuningMode): string
  {
    match m
    case TUNING_VIDEO => "VIDEO"
    case TUNING_VIDEO_ULL => "VIDEO-ULL"
    case TUNING_VIDEO_HDR => "VIDEO-HDR"
    case TUNING_VIDEO_HDR2 => "VIDEO-HDR2"
    case TUNING_VIDEO_HLC => "VIDEO-HLC"
    case TUNING_VIDEO_CUSTOM_AIC => "VIDEO-CUSTOM_AIC"
    case TUNING_VIDEO_LL => "VIDEO-LL"
    case TUNING_VIDEO_REAR_VIEW => "VIDEO-REAR-VIEW"
    case TUNING_VIDEO_HITCH_VIEW => "VIDEO-HITCH-VIEW"
    case TUNING_STILL_CAPTURE => "STILL_CAPTURE"
  }

  /** getTuningModeByStr: VIDEO for every unrecognised name. */
  function TuningModeByStr(s: string): (m: TuningMode)
    ensures m == TUNING_VIDEO || TuningModeName(m) == s
  {
    if s == "VIDEO" then TUNING_VIDEO
    else if s == "VIDEO-ULL" then TUNING_VIDEO_ULL
    else if s == "VIDEO-HDR" then TUNING_VIDEO_HDR
    else if s == "VIDEO-HDR2" then TUNING_VIDEO_HDR2
    else if s == "VIDEO-HLC" then TUNING_VIDEO_HLC
    else if s == "VIDEO-CUSTOM_AIC" then TUNING_VIDEO_CUSTOM_AIC
    else if s == "VIDEO-LL" then TUNING_VIDEO_LL
    else if s == "VIDEO-REAR-VIEW" then TUNING_VIDEO_REAR_VIEW
    else if s == "VIDEO-HITCH-VIEW" then TUNING_VIDEO_HITCH_VIEW
    else if s == "STILL_CAPTURE" then TUNING_STILL_CAPTURE
    else TUNING_VIDEO
  }

  /** Every tuning mode's name selects that mode (so the ten names are distinct). */
  lemma TuningModeNameRoundTrip(m: TuningMode)
    ensures TuningModeByStr(TuningModeName(m)) == m
  {
  }

  /** camera_features, without INVALID_FEATURE (which is never stored). */
  datatype Feature =
    | MANUAL_EXPOSURE
    | MANUAL_WHITE_BALANCE
    | IMAGE_ENHANCEMENT
    | NOISE_REDUCTION
    | SCENE_MODE
    | WEIGHT_GRID_MODE
    | PER_FRAME_CONTROL
    | ISP_CONTROL

  function FeatureName(f: Feature): string
  {
    match f
    case MANUAL_EXPOSURE => "MANUAL_EXPOSURE"
    case MANUAL_WHITE_BALANCE => "MANUAL_WHITE_BALANCE"
    case IMAGE_ENHANCEMENT => "IMAGE_ENHANCEMENT"
    case NOISE_REDUCTION => "NOISE_REDUCTION"
    case SCENE_MODE => "SCENE_MODE"
    case WEIGHT_GRID_MODE => "WEIGHT_GRID_MODE"
    case PER_FRAME_CONTROL => "PER_FRAME_CONTROL"
    case ISP_CONTROL => "ISP_CONTROL"
  }

  /** The feature a name selects, None (INVALID_FEATURE) for any other name. */
  function FeatureByName(s: string): Option<Feature>
  {
    if s == "MANUAL_EXPOSURE" then Some(MANUAL_EXPOSURE)
    else if s == "MANUAL_WHITE_BALANCE" then Some(MANUAL_WHITE_BALANCE)
    else if s == "IMAGE_ENHANCEMENT" then Some(IMAGE_ENHANCEMENT)
    else if s == "NOISE_REDUCTION" then Some(NOISE_REDUCTION)
    else if s == "SCENE_MODE" then Some(SCENE_MODE)
    else if s == "WEIGHT_GRID_MODE" then Some(WEIGHT_GRID_MODE)
    else if s == "PER_FRAME_CONTROL" then Some(PER_FRAME_CONTROL)
    else if s == "ISP_CONTROL" then Some(ISP_CONTROL)
    else None
  }

  /** The recognised features among the names, in order; unknown names are dropped. */
  /** The feature one name adds: none when the name is not a feature's. */
  function FeatureOf(name: string): (fs: seq<Feature>)
    ensures |fs| <= 1
  {
    if FeatureByName(name).Some? then [FeatureByName(name).value] else []
  }

  function FeaturesOf(names: seq<string>): (fs: seq<Feature>)
    ensures |fs| <= |names|
  {
    if names == [] then [] else FeatureOf(names[0]) + FeaturesOf(names[1..])
  }

  lemma FeaturesOfCons(name: string, names: seq<string>)
    ensures FeaturesOf([name] + names) == FeatureOf(name) + FeaturesOf(names)
  {
    assert ([name] + names)[1..] == names;
  }

  /** The elements of a list: its first element, then those of the text after it. */
  lemma ElementsOfStep(s: string)
    ensures var e := NextElement(s);
      ElementsOf(s) == [e.item] + (if e.last then [] else ElementsOf(e.rest))
  {
  }

  /** parseSupportedFeatures: the features of the comma list, appended. */
  method ParseSupportedFeatures(src: string, features: seq<Feature>) returns (out: seq<Feature>)
    ensures out == features + FeaturesOf(ElementsOf(src))
  {
    out := features;
    var p := src;
    while true
      invariant out + FeaturesOf(ElementsOf(p)) == features + FeaturesOf(ElementsOf(src))
      decreases |p|
    {
      var e := NextElement(p);
      ElementsOfStep(p);
      ghost var more := if e.last then [] else ElementsOf(e.rest);
      FeaturesOfCons(e.item, more);
      ghost var before := out;
      var feature := FeatureByName(e.item);
      if feature.Some? {
        out := out + [feature.value];
      }
      assert out == before + FeatureOf(e.item);
      SeqAssoc(before, FeatureOf(e.item), FeaturesOf(more));
      if e.last {
        return;
      }
      p := e.rest;
    }
  }

  function NamesOf(fs: seq<Feature>): (names: seq<string>)
    ensures |names| == |fs| && forall i :: 0 <= i < |fs| ==> names[i] == FeatureName(fs[i])
  {
    if fs == [] then [] else [FeatureName(fs[0])] + NamesOf(fs[1..])
  }

  lemma FeatureNameRoundTrip(f: Feature)
    ensures FeatureByName(FeatureName(f)) == Some(f)
  {
  }

  /** A feature name can stand as an element of a comma list. */
  lemma FeatureNameItem(f: Feature)
    ensures NoComma(FeatureName(f)) && FeatureName(f) != [] && !IsSpace(FeatureName(f)[0])
  {
    match f
    case MANUAL_EXPOSURE => assert NoComma("MANUAL_EXPOSURE");
    case MANUAL_WHITE_BALANCE => assert NoComma("MANUAL_WHITE_BALANCE");
    case IMAGE_ENHANCEMENT => assert NoComma("IMAGE_ENHANCEMENT");
    case NOISE_REDUCTION => assert NoComma("NOISE_REDUCTION");
    case SCENE_MODE => assert NoComma("SCENE_MODE");
    case WEIGHT_GRID_MODE => assert NoComma("WEIGHT_GRID_MODE");
    case PER_FRAME_CONTROL => assert NoComma("PER_FRAME_CONTROL");
    case ISP_CONTROL => assert NoComma("ISP_CONTROL");
  }

  lemma {:induction false} FeaturesOfNames(fs: seq<Feature>)
    ensures FeaturesOf(NamesOf(fs)) == fs
  {
    if fs != [] {
      FeatureNameRoundTrip(fs[0]);
      assert NamesOf(fs)[1..] == NamesOf(fs[1..]);
      FeaturesOfNames(fs[1..]);
    }
  }

  /** A feature list written as comma-separated names parses back to itself. */
  lemma FeaturesRoundTrip(fs: seq<Feature>)
    requires |fs| >= 1
    ensures FeaturesOf(ElementsOf(Join(NamesOf(fs), ','))) == fs
  {
    forall i | 0 <= i < |fs| {
      FeatureNameItem(fs[i]);
    }
    ElementsOfJoin(NamesOf(fs));
    FeaturesOfNames(fs);
  }

  // ---------------------------------------------------------------------
  // strtok_r lists (parseConfigMode, parseConfigModeForAuto, parseSupported*Mode,
  // parseSupportedIntRange, parseSupportedTuningConfig: 409-523, 889-1100).
  // ---------------------------------------------------------------------

  function CommaRun(s: string): (n: nat)
    ensures n <= |s| && forall i :: 0 <= i < n ==> s[i] == ','
    ensures n < |s| ==> s[n] != ','
  {
    if s == [] || s[0] != ',' then 0 else 1 + CommaRun(s[1..])
  }

  /** One strtok_r(…, ",", &save) call: skip commas, take the token, leave save after its comma. */
  datatype Token = NoToken | Token(token: string, save: string)

  function Strtok(s: string): (t: Token)
    ensures t.Token? ==> t.token != [] && NoComma(t.token) && |t.save| < |s|
  {
    var j := CommaRun(s);
    if j == |s| then NoToken
    else
      var k := IndexOf(s[j..], ',');
      if j + k == |s| then Token(s[j..], []) else Token(s[j..j + k], s[j + k + 1..])
  }

  /** The tokens the strtok_r loops visit, the blanks after every comma skipped; empty tokens never appear. */
  function StrtokTokens(s: string): (ts: seq<string>)
    ensures forall i :: 0 <= i < |ts| ==> ts[i] != [] && NoComma(ts[i])
    decreases |s|
  {
    match Strtok(s)
    case NoToken => []
    case Token(tok, save) =>
      var rest := StrtokTokens(SkipBlanks(save));
      TokensCons(tok, rest);
      [tok] + rest
  }

  lemma TokensCons(tok: string, rest: seq<string>)
    requires tok != [] && NoComma(tok)
    requires forall i :: 0 <= i < |rest| ==> rest[i] != [] && NoComma(rest[i])
    ensures forall i :: 0 <= i < |[tok] + rest| ==> ([tok] + rest)[i] != [] && NoComma(([tok] + rest)[i])
  {
    forall i | 0 <= i < |[tok] + rest| ensures ([tok] + rest)[i] != [] && NoComma(([tok] + rest)[i]) {
      if i > 0 { assert ([tok] + rest)[i] == rest[i - 1]; }
    }
  }

  predicate Tokenable(items: seq<string>)
  {
    forall i :: 0 <= i < |items| ==> items[i] != [] && NoComma(items[i]) && !IsSpace(items[i][0])
  }

  /** The first token of a list that starts with a comma-free, non-empty item. */
  lemma StrtokFirst(a: string, tail: string)
    requires a != [] && NoComma(a)
    requires tail == [] || tail[0] == ','
    ensures Strtok(a + tail) == Token(a, if tail == [] then [] else tail[1..])
  {
    var s := a + tail;
    assert s[0] == a[0];
    assert s[0..] == s;
    if tail == [] {
      assert s == a;
    } else {
      assert s[|a|] == ',';
      assert s[..|a|] == a && s[|a| + 1..] == tail[1..];
    }
  }

  /** A single non-empty comma-free name is a single token. */
  lemma StrtokOne(a: string)
    requires a != [] && NoComma(a)
    ensures StrtokTokens(a) == [a]
  {
    StrtokFirst(a, []);
    assert a + [] == a;
    SpaceEndExact([], 0, 0);
  }

  /** A name, a comma and text with no leading blank: the name is the first token, the text gives the rest. */
  lemma StrtokCons(a: string, rest: string)
    requires a != [] && NoComma(a)
    requires rest != [] && !IsSpace(rest[0])
    ensures StrtokTokens(a + ("," + rest)) == [a] + StrtokTokens(rest)
  {
    StrtokFirst(a, "," + rest);
    assert ("," + rest)[1..] == rest;
    SpaceEndExact(rest, 0, 0);
    assert rest[0..] == rest;
  }

  /** Non-empty comma-free names joined by commas are exactly the tokens strtok_r visits. */
  lemma {:induction false} StrtokJoin(items: seq<string>)
    requires |items| >= 1 && Tokenable(items)
    ensures StrtokTokens(Join(items, ',')) == items
    decreases |items|
  {
    if |items| == 1 {
      StrtokOne(items[0]);
    } else {
      var rest := Join(items[1..], ',');
      JoinCons(items);
      assert rest[0] == items[1][0];
      StrtokJoin(items[1..]);
      assert Join(items, ',') == items[0] + ("," + rest);
      assert StrtokTokens(rest) == items[1..];
      TokensOfCons(items, rest, Join(items, ','));
    }
  }

  /** One step of StrtokJoin: the first name, a comma, then text whose tokens are the other names. */
  lemma TokensOfCons(items: seq<string>, rest: string, s: string)
    requires |items| >= 2 && items[0] != [] && NoComma(items[0])
    requires rest != [] && !IsSpace(rest[0])
    requires s == items[0] + ("," + rest) && StrtokTokens(rest) == items[1..]
    ensures StrtokTokens(s) == items
  {
    StrtokCons(items[0], rest);
    assert items == [items[0]] + items[1..];
  }

  /** The tokens of a list: the first strtok_r token, then those after its comma and blanks. */
  lemma StrtokTokensStep(s: string)
    requires Strtok(s).Token?
    ensures StrtokTokens(s) == [Strtok(s).token] + StrtokTokens(SkipBlanks(Strtok(s).save))
  {
  }

  lemma ModesOfCons(name: string, names: seq<string>)
    ensures ModesOf([name] + names) == [GetConfigModeByName(Some(name))] + ModesOf(names)
  {
    assert ([name] + names)[1..] == names;
  }

  /** parseConfigMode and parseConfigModeForAuto: one mode per token, END for unknown names. */
  method ParseConfigMode(str: string, cfgMode: seq<ConfigMode>) returns (out: seq<ConfigMode>)
    ensures out == cfgMode + ModesOf(StrtokTokens(str))
  {
    out := cfgMode;
    var p := str;
    var t := Strtok(p);
    while t.Token?
      invariant t == Strtok(p)
      invariant out + ModesOf(StrtokTokens(p)) == cfgMode + ModesOf(StrtokTokens(str))
      decreases |p|
    {
      var mode := GetConfigModeByName(Some(t.token));
      var n := SkipWhiteSpace(t.save);
      var next := t.save[n..];
      StrtokTokensStep(p);
      ModesOfCons(t.token, StrtokTokens(next));
      SeqAssoc(out, [mode], ModesOf(StrtokTokens(next)));
      out := out + [mode];
      p := next;
      t := Strtok(p);
    }
    assert out + [] == out;
  }

  /** parseSupportedIntRange: atoi of every token. */
  function IntRangeOf(tokens: seq<string>): (vs: seq<int>)
    ensures |vs| == |tokens| && forall i :: 0 <= i < |tokens| ==> vs[i] == Atoi(tokens[i])
  {
    if tokens == [] then [] else [Atoi(tokens[0])] + IntRangeOf(tokens[1..])
  }

  lemma IntRangeOfCons(token: string, tokens: seq<string>)
    ensures IntRangeOf([token] + tokens) == [Atoi(token)] + IntRangeOf(tokens)
  {
    assert ([token] + tokens)[1..] == tokens;
  }

  /** parseSupportedIntRange: one atoi value per token, appended. */
  method ParseSupportedIntRange(str: string, rangeArray: seq<int>) returns (out: seq<int>)
    ensures out == rangeArray + IntRangeOf(StrtokTokens(str))
  {
    out := rangeArray;
    var p := str;
    var t := Strtok(p);
    while t.Token?
      invariant t == Strtok(p)
      invariant out + IntRangeOf(StrtokTokens(p)) == rangeArray + IntRangeOf(StrtokTokens(str))
      decreases |p|
    {
      var v := Atoi(t.token);
      var n := SkipWhiteSpace(t.save);
      var next := t.save[n..];
      StrtokTokensStep(p);
      IntRangeOfCons(t.token, StrtokTokens(next));
      SeqAssoc(out, [v], IntRangeOf(StrtokTokens(next)));
      out := out + [v];
      p := next;
      t := Strtok(p);
    }
    assert out + [] == out;
  }

  /** An int list written with commas (and blanks after them) parses back to itself. */
  lemma IntRangeRoundTrip(vs: seq<int>)
    requires |vs| >= 1 && forall i :: 0 <= i < |vs| ==> IsInt32(vs[i])
    ensures IntRangeOf(StrtokTokens(Join(IntStrs(vs), ','))) == vs
  {
    var ss := IntStrs(vs);
    forall i | 0 <= i < |ss|
      ensures ss[i] != [] && NoComma(ss[i]) && !IsSpace(ss[i][0])
    {
      IntStrNoComma(vs[i]);
    }
    StrtokJoin(ss);
    forall i | 0 <= i < |vs|
      ensures Atoi(ss[i]) == vs[i]
    {
      AtoiIntStr(vs[i]);
    }
    assert IntRangeOf(ss) == vs;
  }

  function IntStrs(vs: seq<int>): (ss: seq<string>)
    ensures |ss| == |vs| && forall i :: 0 <= i < |vs| ==> ss[i] == IntStr(vs[i])
  {
    if vs == [] then [] else [IntStr(vs[0])] + IntStrs(vs[1..])
  }

  /**
   * The mode lists (AE, AF, antibanding, video stabilisation): each token
   * yields the mode it names; a token naming none repeats the mode before
   * it, or the parser's initial mode for the first token.
   */
  function CarryModes(tokens: seq<string>, prev: int, lookup: string -> Option<int>): (ms: seq<int>)
    ensures |ms| == |tokens|
    ensures forall i :: 0 <= i < |tokens| && lookup(tokens[i]).Some? ==> ms[i] == lookup(tokens[i]).value
    ensures forall i :: 0 <= i < |tokens| && lookup(tokens[i]).None? ==> ms[i] == if i == 0 then prev else ms[i - 1]
  {
    if tokens == [] then []
    else
      var m := if lookup(tokens[0]).Some? then lookup(tokens[0]).value else prev;
      [m] + CarryModes(tokens[1..], m, lookup)
  }

  const AE_MODES: set<int> := {AE_MODE_AUTO, AE_MODE_MANUAL}
  const AF_MODES: set<int> := {AF_MODE_OFF, AF_MODE_AUTO, AF_MODE_MACRO, AF_MODE_CONTINUOUS_VIDEO, AF_MODE_CONTINUOUS_PICTURE}
  const ANTIBANDING_MODES: set<int> := {ANTIBANDING_MODE_AUTO, ANTIBANDING_MODE_50HZ, ANTIBANDING_MODE_60HZ, ANTIBANDING_MODE_OFF}
  const STABILIZATION_MODES: set<int> := {VIDEO_STABILIZATION_MODE_OFF, VIDEO_STABILIZATION_MODE_ON}

  function AeModeByName(s: string): (r: Option<int>)
    ensures r.Some? ==> r.value in AE_MODES
  {
    if s == "AUTO" then Some(AE_MODE_AUTO) else if s == "MANUAL" then Some(AE_MODE_MANUAL) else None
  }

  function AfModeByName(s: string): (r: Option<int>)
    ensures r.Some? ==> r.value in AF_MODES
  {
    if s == "AUTO" then Some(AF_MODE_AUTO)
    else if s == "MACRO" then Some(AF_MODE_MACRO)
    else if s == "CONTINUOUS_VIDEO" then Some(AF_MODE_CONTINUOUS_VIDEO)
    else if s == "CONTINUOUS_PICTURE" then Some(AF_MODE_CONTINUOUS_PICTURE)
    else if s == "OFF" then Some(AF_MODE_OFF)
    else None
  }

  function AntibandingModeByName(s: string): (r: Option<int>)
    ensures r.Some? ==> r.value in ANTIBANDING_MODES
  {
    if s == "AUTO" then Some(ANTIBANDING_MODE_AUTO)
    else if s == "50Hz" then Some(ANTIBANDING_MODE_50HZ)
    else if s == "60Hz" then Some(ANTIBANDING_MODE_60HZ)
    else if s == "OFF" then Some(ANTIBANDING_MODE_OFF)
    else None
  }

  function StabilizationModeByName(s: string): (r: Option<int>)
    ensures r.Some? ==> r.value in STABILIZATION_MODES
  {
    if s == "ON" then Some(VIDEO_STABILIZATION_MODE_ON)
    else if s == "OFF" then Some(VIDEO_STABILIZATION_MODE_OFF)
    else None
  }

  lemma CarryModesCons(token: string, tokens: seq<string>, prev: int, lookup: string -> Option<int>)
    ensures var m := if lookup(token).Some? then lookup(token).value else prev;
      CarryModes([token] + tokens, prev, lookup) == [m] + CarryModes(tokens, m, lookup)
  {
    assert ([token] + tokens)[1..] == tokens;
  }

  /** Every mode in a list is the initial mode or one the lookup yields. */
  lemma {:induction false} CarryModesWithin(tokens: seq<string>, prev: int, lookup: string -> Option<int>, modes: set<int>)
    requires prev in modes
    requires forall t :: lookup(t).Some? ==> lookup(t).value in modes
    ensures forall i :: 0 <= i < |tokens| ==> CarryModes(tokens, prev, lookup)[i] in modes
    decreases |tokens|
  {
    if tokens != [] {
      var m := if lookup(tokens[0]).Some? then lookup(tokens[0]).value else prev;
      CarryModesWithin(tokens[1..], m, lookup, modes);
      assert CarryModes(tokens, prev, lookup) == [m] + CarryModes(tokens[1..], m, lookup);
    }
  }

  /**
   * The loop the AE, AF, antibanding and video stabilisation parsers share:
   * the mode starts at the parser's default, a recognised token sets it, and
   * it is pushed once per token.
   */
  method ParseModeList(str: string, initial: int, lookup: string -> Option<int>, supported: seq<int>) returns (out: seq<int>)
    ensures out == supported + CarryModes(StrtokTokens(str), initial, lookup)
  {
    out := supported;
    var mode := initial;
    var p := str;
    var t := Strtok(p);
    while t.Token?
      invariant t == Strtok(p)
      invariant out + CarryModes(StrtokTokens(p), mode, lookup) == supported + CarryModes(StrtokTokens(str), initial, lookup)
      decreases |p|
    {
      var n := SkipWhiteSpace(t.save);
      var next := t.save[n..];
      StrtokTokensStep(p);
      CarryModesCons(t.token, StrtokTokens(next), mode, lookup);
      var found := lookup(t.token);
      if found.Some? {
        mode := found.value;
      }
      SeqAssoc(out, [mode], CarryModes(StrtokTokens(next), mode, lookup));
      out := out + [mode];
      p := next;
      t := Strtok(p);
    }
    assert out + [] == out;
  }

  /** parseSupportedAeMode: one mode per token, AUTO before the first recognised name. */
  function SupportedAeModes(str: string): (ms: seq<int>)
    ensures |ms| == |StrtokTokens(str)|
    ensures forall i :: 0 <= i < |ms| ==> ms[i] in AE_MODES
  {
    CarryModesWithin(StrtokTokens(str), AE_MODE_AUTO, AeModeByName, AE_MODES);
    CarryModes(StrtokTokens(str), AE_MODE_AUTO, AeModeByName)
  }

  /** parseSupportedAfMode: one mode per token, AUTO before the first recognised name. */
  function SupportedAfModes(str: string): (ms: seq<int>)
    ensures |ms| == |StrtokTokens(str)|
    ensures forall i :: 0 <= i < |ms| ==> ms[i] in AF_MODES
  {
    CarryModesWithin(StrtokTokens(str), AF_MODE_AUTO, AfModeByName, AF_MODES);
    CarryModes(StrtokTokens(str), AF_MODE_AUTO, AfModeByName)
  }

  /** parseSupportedAntibandingMode: one mode per token, OFF before the first recognised name. */
  function SupportedAntibandingModes(str: string): (ms: seq<int>)
    ensures |ms| == |StrtokTokens(str)|
    ensures forall i :: 0 <= i < |ms| ==> ms[i] in ANTIBANDING_MODES
  {
    CarryModesWithin(StrtokTokens(str), ANTIBANDING_MODE_OFF, AntibandingModeByName, ANTIBANDING_MODES);
    CarryModes(StrtokTokens(str), ANTIBANDING_MODE_OFF, AntibandingModeByName)
  }

  /** parseSupportedVideoStabilizationMode: one mode per token, OFF before the first recognised name. */
  function SupportedStabilizationModes(str: string): (ms: seq<int>)
    ensures |ms| == |StrtokTokens(str)|
    ensures forall i :: 0 <= i < |ms| ==> ms[i] in STABILIZATION_MODES
  {
    CarryModesWithin(StrtokTokens(str), VIDEO_STABILIZATION_MODE_OFF, StabilizationModeByName, STABILIZATION_MODES);
    CarryModes(StrtokTokens(str), VIDEO_STABILIZATION_MODE_OFF, StabilizationModeByName)
  }

  /** An unrecognised AE name repeats the mode before it (a second MANUAL after MANUAL), or AUTO when it comes first; it is not an error. */
  lemma AeUnknownNameRepeats(known: string, unknown: string)
    requires known != [] && NoComma(known) && AeModeByName(known).Some?
    requires unknown != [] && NoComma(unknown) && !IsSpace(unknown[0]) && AeModeByName(unknown).None?
    ensures SupportedAeModes(known + ("," + unknown)) == [AeModeByName(known).value, AeModeByName(known).value]
    ensures SupportedAeModes(unknown) == [AE_MODE_AUTO]
  {
    StrtokOne(unknown);
    StrtokCons(known, unknown);
  }

  /** TuningConfig: a configuration mode, a tuning mode and an AIQB name. */
  datatype TuningConfig = TuningConfig(configMode: ConfigMode, tuningMode: TuningMode, aiqbName: string)

  /** The configurations parseSupportedTuningConfig pushes, and -1 when the tokens are not whole triples. */
  datatype TuningConfigs = TuningConfigs(configs: seq<TuningConfig>, status: int)

  /** The triples of a token list; an incomplete last triple is an error that keeps the earlier ones. */
  function TuningConfigsOf(tokens: seq<string>): (r: TuningConfigs)
    ensures r.status == 0 <==> |tokens| % 3 == 0
    ensures r.status != 0 ==> r.status == -1
    ensures |r.configs| == |tokens| / 3
    ensures forall i :: 0 <= i < |r.configs| ==> r.configs[i].aiqbName == tokens[3 * i + 2]
  {
    if tokens == [] then TuningConfigs([], 0)
    else if |tokens| < 3 then TuningConfigs([], -1)
    else
      var cfg := TuningConfig(GetConfigModeByName(Some(tokens[0])), TuningModeByStr(tokens[1]), tokens[2]);
      var more := TuningConfigsOf(tokens[3..]);
      TuningConfigs([cfg] + more.configs, more.status)
  }

  /**
   * parseSupportedTuningConfig on its text: three strtok_r calls per
   * configuration, and blanks skipped only before the next configuration
   * mode, not before the tuning mode or the AIQB name.
   */
  function TuningConfigsAt(s: string): (r: TuningConfigs)
    ensures r.status == 0 || r.status == -1
    decreases |s|
  {
    match Strtok(s)
    case NoToken => TuningConfigs([], 0)
    case Token(cfgName, s1) =>
      match Strtok(s1)
      case NoToken => TuningConfigs([], -1)
      case Token(tuningName, s2) =>
        match Strtok(s2)
        case NoToken => TuningConfigs([], -1)
        case Token(aiqb, s3) =>
          var cfg := TuningConfig(GetConfigModeByName(Some(cfgName)), TuningModeByStr(tuningName), aiqb);
          var more := TuningConfigsAt(SkipBlanks(s3));
          TuningConfigs([cfg] + more.configs, more.status)
  }

  /** parseSupportedTuningConfig: the configurations are appended; a missing tuning mode or AIQB name returns -1. */
  method ParseSupportedTuningConfig(str: string, config: seq<TuningConfig>) returns (status: int, out: seq<TuningConfig>)
    ensures out == config + TuningConfigsAt(str).configs
    ensures status == TuningConfigsAt(str).status
  {
    out := config;
    var p := str;
    var cfgName := Strtok(p);
    while cfgName.Token?
      invariant cfgName == Strtok(p)
      invariant out + TuningConfigsAt(p).configs == config + TuningConfigsAt(str).configs
      invariant TuningConfigsAt(p).status == TuningConfigsAt(str).status
      decreases |p|
    {
      var tuningName := Strtok(cfgName.save);
      var aiqb := if tuningName.Token? then Strtok(tuningName.save) else NoToken;
      if tuningName.NoToken? || aiqb.NoToken? {
        assert TuningConfigsAt(p).configs == [];
        assert out + [] == out;
        return -1, out;
      }
      var cfg := TuningConfig(GetConfigModeByName(Some(cfgName.token)), TuningModeByStr(tuningName.token), aiqb.token);
      var n := SkipWhiteSpace(aiqb.save);
      var next := aiqb.save[n..];
      assert TuningConfigsAt(p) == TuningConfigs([cfg] + TuningConfigsAt(next).configs, TuningConfigsAt(next).status);
      SeqAssoc(out, [cfg], TuningConfigsAt(next).configs);
      out := out + [cfg];
      p := next;
      cfgName := Strtok(p);
    }
    assert out + [] == out;
    return 0, out;
  }

  /** The first strtok_r token of joined names is the first name; save is the joined rest. */
  lemma StrtokJoinFirst(items: seq<string>)
    requires |items| >= 1 && Tokenable(items)
    ensures Strtok(Join(items, ',')) == Token(items[0], if |items| == 1 then [] else Join(items[1..], ','))
  {
    if |items| == 1 {
      StrtokFirst(items[0], []);
      assert items[0] + [] == items[0];
    } else {
      var rest := Join(items[1..], ',');
      JoinCons(items);
      StrtokFirst(items[0], "," + rest);
      assert ("," + rest)[1..] == rest;
    }
  }

  /** Joined names with no leading blank start no blank run. */
  lemma JoinNoBlank(items: seq<string>)
    requires |items| >= 1 && Tokenable(items)
    ensures SkipBlanks(Join(items, ',')) == Join(items, ',')
  {
    var s := Join(items, ',');
    if |items| > 1 {
      JoinCons(items);
    }
    assert s[0] == items[0][0];
    SpaceEndExact(s, 0, 0);
    assert s[0..] == s;
  }

  /** Names without blanks or commas joined by commas give the triples of the token list. */
  lemma {:induction false} TuningConfigsJoin(items: seq<string>)
    requires |items| >= 1 && Tokenable(items)
    ensures TuningConfigsAt(Join(items, ',')) == TuningConfigsOf(items)
    decreases |items|, 1
  {
    StrtokJoinFirst(items);
    if |items| == 1 {
      assert Strtok([]) == NoToken;
    } else {
      StrtokJoinFirst(items[1..]);
      assert items[1..][1..] == items[2..];
      if |items| == 2 {
        assert Strtok([]) == NoToken;
      } else {
        StrtokJoinFirst(items[2..]);
        assert items[2..][1..] == items[3..];
        if |items| == 3 {
          TuningConfigsTriple(items);
        } else {
          TuningConfigsJoinMore(items);
        }
      }
    }
  }

  /** More than one triple: the first, then the triples of the rest. */
  lemma {:induction false} TuningConfigsJoinMore(items: seq<string>)
    requires |items| > 3 && Tokenable(items)
    requires Strtok(Join(items, ',')) == Token(items[0], Join(items[1..], ','))
    requires Strtok(Join(items[1..], ',')) == Token(items[1], Join(items[2..], ','))
    requires Strtok(Join(items[2..], ',')) == Token(items[2], Join(items[3..], ','))
    ensures TuningConfigsAt(Join(items, ',')) == TuningConfigsOf(items)
    decreases |items|, 0
  {
    TuningConfigsAtStep(Join(items, ','), items[0], Join(items[1..], ','), items[1], Join(items[2..], ','),
                        items[2], Join(items[3..], ','));
    JoinNoBlank(items[3..]);
    TuningConfigsJoin(items[3..]);
  }

  /** One triple and nothing after it. */
  lemma TuningConfigsTriple(items: seq<string>)
    requires |items| == 3
    requires Strtok(Join(items, ',')) == Token(items[0], Join(items[1..], ','))
    requires Strtok(Join(items[1..], ',')) == Token(items[1], Join(items[2..], ','))
    requires Strtok(Join(items[2..], ',')) == Token(items[2], [])
    ensures TuningConfigsAt(Join(items, ',')) == TuningConfigsOf(items)
  {
    SpaceEndExact([], 0, 0);
    assert TuningConfigsAt([]) == TuningConfigs([], 0);
    assert items[3..] == [];
  }

  /** One step of parseSupportedTuningConfig: three tokens make a configuration, then the rest is parsed. */
  lemma TuningConfigsAtStep(s: string, cfgName: string, s1: string, tuning: string, s2: string, aiqb: string, s3: string)
    requires Strtok(s) == Token(cfgName, s1) && Strtok(s1) == Token(tuning, s2) && Strtok(s2) == Token(aiqb, s3)
    ensures var more := TuningConfigsAt(SkipBlanks(s3));
      TuningConfigsAt(s) == TuningConfigs([TuningConfig(GetConfigModeByName(Some(cfgName)), TuningModeByStr(tuning), aiqb)] + more.configs, more.status)
  {
  }

  /** No tuning mode's name starts with a blank, so such a token selects VIDEO. */
  lemma TuningModeBlank(t: string)
    requires t != [] && t[0] == ' '
    ensures TuningModeByStr(t) == TUNING_VIDEO
  {
  }

  /** A blank after the comma before a tuning mode stays in its token, so the mode falls back to VIDEO. */
  lemma TuningModeBlankKept(cfgName: string, tuning: string, aiqb: string)
    requires cfgName != [] && NoComma(cfgName) && aiqb != [] && NoComma(aiqb)
    requires tuning != [] && tuning[0] == ' ' && NoComma(tuning)
    ensures TuningConfigsAt(cfgName + ("," + (tuning + ("," + aiqb))))
      == TuningConfigs([TuningConfig(GetConfigModeByName(Some(cfgName)), TUNING_VIDEO, aiqb)], 0)
  {
    var rest := tuning + ("," + aiqb);
    assert Strtok(cfgName + ("," + rest)) == Token(cfgName, rest) by {
      StrtokFirst(cfgName, "," + rest);
      assert ("," + rest)[1..] == rest;
    }
    assert Strtok(rest) == Token(tuning, aiqb) by {
      StrtokFirst(tuning, "," + aiqb);
      assert ("," + aiqb)[1..] == aiqb;
    }
    assert Strtok(aiqb) == Token(aiqb, []) by {
      StrtokFirst(aiqb, []);
      assert aiqb + [] == aiqb;
    }
    TuningConfigsAtStep(cfgName + ("," + rest), cfgName, rest, tuning, aiqb, aiqb, []);
    TuningModeBlank(tuning);
    assert TuningConfigsAt(SkipBlanks([])) == TuningConfigs([], 0) by {
      SpaceEndExact([], 0, 0);
    }
  }

  // ---------------------------------------------------------------------
  // handleGenericStaticMetaData value lists (1947-2062), integer types.
  // ---------------------------------------------------------------------

  /**
   * The integers read for a generic static-metadata tag: strtol repeatedly,
   * continuing past an 'x' or ',' right after a number while fewer than
   * maxIndex values are read; the first value is always read.
   */
  function GenericInts(src: string, maxIndex: nat): (vs: seq<int>)
    ensures 1 <= |vs| <= Max(maxIndex, 1)
    ensures vs[0] == StrtolOf(src).value
    decreases maxIndex
  {
    var v := StrtolOf(src);
    var c := At(src, v.consumed);
    if (c == 'x' || c == ',') && maxIndex > 1 then [v.value] + GenericInts(src[v.consumed + 1..], maxIndex - 1)
    else [v.value]
  }

  /** One more value: read it, then the values after its separator. */
  lemma GenericIntsStep(src: string, maxIndex: nat)
    requires maxIndex > 1
    requires At(src, StrtolOf(src).consumed) == 'x' || At(src, StrtolOf(src).consumed) == ','
    ensures GenericInts(src, maxIndex) == [StrtolOf(src).value] + GenericInts(src[StrtolOf(src).consumed + 1..], maxIndex - 1)
  {
  }

  /** The last value: no separator follows it, or no more values are wanted. */
  lemma GenericIntsLast(src: string, maxIndex: nat)
    requires !((At(src, StrtolOf(src).consumed) == 'x' || At(src, StrtolOf(src).consumed) == ',') && maxIndex > 1)
    ensures GenericInts(src, maxIndex) == [StrtolOf(src).value]
  {
  }

  /** One turn of the loop below that goes on: the value read joins those already read. */
  lemma GenericIntsShift(src: string, maxIndex: nat, done: seq<int>, p: string, rem: nat)
    requires rem > 1 && (At(p, StrtolOf(p).consumed) == 'x' || At(p, StrtolOf(p).consumed) == ',')
    requires done + GenericInts(p, rem) == GenericInts(src, maxIndex)
    ensures (done + [StrtolOf(p).value]) + GenericInts(p[StrtolOf(p).consumed + 1..], rem - 1) == GenericInts(src, maxIndex)
  {
    var v := StrtolOf(p);
    GenericIntsStep(p, rem);
    ShiftOne(done, v.value, GenericInts(p[v.consumed + 1..], rem - 1), GenericInts(p, rem), GenericInts(src, maxIndex));
  }

  /** The last turn of the loop below: the value read completes the list. */
  lemma GenericIntsFinish(src: string, maxIndex: nat, done: seq<int>, p: string, rem: nat)
    requires !((At(p, StrtolOf(p).consumed) == 'x' || At(p, StrtolOf(p).consumed) == ',') && rem > 1)
    requires done + GenericInts(p, rem) == GenericInts(src, maxIndex)
    ensures done + [StrtolOf(p).value] == GenericInts(src, maxIndex)
  {
    GenericIntsLast(p, rem);
  }

  /** The do-while loop of handleGenericStaticMetaData for the integer types. */
  method ParseGenericInts(src: string, maxIndex: nat) returns (data: seq<int>)
    ensures data == GenericInts(src, maxIndex)
  {
    data := [];
    var p := src;
    var index := 0;
    while true
      invariant index < Max(maxIndex, 1)
      invariant data + GenericInts(p, maxIndex - index) == GenericInts(src, maxIndex)
      decreases maxIndex - index
    {
      var v := StrtolOf(p);
      ghost var rem := maxIndex - index;
      ghost var before := data;
      data := data + [v.value];
      index := index + 1;
      var c := At(p, v.consumed);
      if (c == 'x' || c == ',') && index < maxIndex {
        GenericIntsShift(src, maxIndex, before, p, rem);
        p := p[v.consumed + 1..];
      } else {
        GenericIntsFinish(src, maxIndex, before, p, rem);
        return;
      }
    }
  }

  /** The metadata types the generic handler reads with strtol; float and double use strtof. */
  datatype IntTagType = TYPE_BYTE | TYPE_INT32 | TYPE_INT64 | TYPE_RATIONAL

  /** What one value becomes in the cache: its low byte, an int32, the long itself, or an int32 half of a rational. */
  function StoreInt(t: IntTagType, v: int): int
  {
    match t
    case TYPE_BYTE => v % 256
    case TYPE_INT64 => v
    case _ => CInt(v)
  }

  /** The values and the count handed to the metadata update for a tag of an integer type. */
  datatype MetadataUpdate = MetadataUpdate(values: seq<int>, count: nat)

  function StoreInts(t: IntTagType, vs: seq<int>): (ws: seq<int>)
    ensures |ws| == |vs| && forall i :: 0 <= i < |vs| ==> ws[i] == StoreInt(t, vs[i])
  {
    if vs == [] then [] else [StoreInt(t, vs[0])] + StoreInts(t, vs[1..])
  }

  /** handleGenericStaticMetaData for an integer tag: a rational stores pairs, so its count is half the values read. */
  function GenericUpdate(t: IntTagType, src: string, maxIndex: nat): (u: MetadataUpdate)
    ensures |u.values| == |GenericInts(src, maxIndex)| >= 1
    ensures u.count == if t == TYPE_RATIONAL then |u.values| / 2 else |u.values|
    ensures t == TYPE_BYTE ==> forall i :: 0 <= i < |u.values| ==> 0 <= u.values[i] < 256
    ensures t == TYPE_INT32 || t == TYPE_RATIONAL ==> forall i :: 0 <= i < |u.values| ==> IsInt32(u.values[i])
    ensures t == TYPE_INT64 ==> u.values == GenericInts(src, maxIndex)
  {
    var vs := GenericInts(src, maxIndex);
    var ws := StoreInts(t, vs);
    MetadataUpdate(ws, if t == TYPE_RATIONAL then |ws| / 2 else |ws|)
  }

  /** Integers written out in decimal, separated by commas. */
  function IntsText(vs: seq<int>): string
    requires |vs| >= 1
  {
    if |vs| == 1 then IntStr(vs[0]) else IntStr(vs[0]) + ("," + IntsText(vs[1..]))
  }

  /** Integers written with commas are read back in full when the cache holds them. */
  lemma {:induction false} GenericIntsRoundTrip(vs: seq<int>, maxIndex: nat)
    requires |vs| >= 1 && |vs| <= maxIndex
    requires forall i :: 0 <= i < |vs| ==> LONG_MIN <= vs[i] <= LONG_MAX
    ensures GenericInts(IntsText(vs), maxIndex) == vs
    decreases |vs|
  {
    if |vs| == 1 {
      GenericIntsOne(vs[0], maxIndex);
    } else {
      var tl := vs[1..];
      assert forall i :: 0 <= i < |tl| ==> LONG_MIN <= tl[i] <= LONG_MAX by {
        forall i | 0 <= i < |tl| ensures LONG_MIN <= tl[i] <= LONG_MAX {
          assert tl[i] == vs[i + 1];
        }
      }
      GenericIntsRoundTrip(tl, maxIndex - 1);
      assert |vs| >= 2 && tl == vs[1..];
      assert LONG_MIN <= vs[0] <= LONG_MAX && maxIndex > 1;
      assert IntsText(vs) == IntStr(vs[0]) + ("," + IntsText(tl));
      assert GenericInts(IntsText(tl), maxIndex - 1) == tl;
      ReadBackCons(vs, tl, IntsText(tl), IntsText(vs), maxIndex);
    }
  }

  /** One step of the round trip: a value written before a comma and text read back as tl. */
  lemma ReadBackCons(vs: seq<int>, tl: seq<int>, text: string, s: string, maxIndex: nat)
    requires |vs| >= 2 && tl == vs[1..] && LONG_MIN <= vs[0] <= LONG_MAX && maxIndex > 1
    requires s == IntStr(vs[0]) + ("," + text) && GenericInts(text, maxIndex - 1) == tl
    ensures GenericInts(s, maxIndex) == vs
  {
    GenericIntsCons(vs[0], text, maxIndex);
    assert vs == [vs[0]] + tl;
  }

  /** A single written integer is read back alone. */
  lemma GenericIntsOne(v: int, maxIndex: nat)
    requires LONG_MIN <= v <= LONG_MAX
    ensures GenericInts(IntStr(v), maxIndex) == [v]
  {
    StrtolIntStr(v, []);
    assert IntStr(v) + [] == IntStr(v);
  }

  lemma GenericIntsCons(v: int, rest: string, maxIndex: nat)
    requires LONG_MIN <= v <= LONG_MAX && maxIndex > 1
    ensures GenericInts(IntStr(v) + ("," + rest), maxIndex) == [v] + GenericInts(rest, maxIndex - 1)
  {
    var s := IntStr(v) + ("," + rest);
    var k := |IntStr(v)|;
    StrtolIntStr(v, "," + rest);
    DropDelim(IntStr(v), ',', rest);
    GenericIntsAfter(s, k, v, rest, maxIndex);
  }

  /** The values read from text whose first number v ends at a comma at k. */
  lemma GenericIntsAfter(s: string, k: nat, v: int, rest: string, maxIndex: nat)
    requires maxIndex > 1 && StrtolOf(s) == Strtol(v, k)
    requires k < |s| && s[k] == ',' && s[k + 1..] == rest
    ensures GenericInts(s, maxIndex) == [v] + GenericInts(rest, maxIndex - 1)
  {
  }

  /** A 32-bit tag written as ints is stored as those ints; a rational tag stores half as many pairs. */
  lemma GenericUpdateRoundTrip(t: IntTagType, vs: seq<int>, maxIndex: nat)
    requires t == TYPE_INT32 || t == TYPE_RATIONAL
    requires |vs| >= 1 && |vs| <= maxIndex
    requires forall i :: 0 <= i < |vs| ==> IsInt32(vs[i])
    ensures GenericUpdate(t, IntsText(vs), maxIndex).values == vs
    ensures GenericUpdate(t, IntsText(vs), maxIndex).count == if t == TYPE_RATIONAL then |vs| / 2 else |vs|
  {
    GenericIntsRoundTrip(vs, maxIndex);
    StoreInts32(t, vs);
  }

  lemma StoreInts32(t: IntTagType, vs: seq<int>)
    requires t == TYPE_INT32 || t == TYPE_RATIONAL
    requires forall i :: 0 <= i < |vs| ==> IsInt32(vs[i])
    ensures StoreInts(t, vs) == vs
  {
    assert forall i :: 0 <= i < |vs| ==> StoreInts(t, vs)[i] == vs[i];
  }

  /** A byte tag keeps only the low eight bits of each value. */
  lemma GenericUpdateByte(vs: seq<int>, maxIndex: nat)
    requires |vs| >= 1 && |vs| <= maxIndex
    requires forall i :: 0 <= i < |vs| ==> LONG_MIN <= vs[i] <= LONG_MAX
    ensures var u := GenericUpdate(TYPE_BYTE, IntsText(vs), maxIndex);
      |u.values| == |vs| && forall i :: 0 <= i < |vs| ==> u.values[i] == vs[i] % 256
  {
    GenericIntsRoundTrip(vs, maxIndex);
  }

  // ---------------------------------------------------------------------
  // Element state: checkField, startElement, endElement (77-122, 2064-2146).
  // ---------------------------------------------------------------------

  datatype DataField = FIELD_INVALID | FIELD_SENSOR | FIELD_COMMON

  /** The handler startElement hands an element to. */
  datatype Handler = CHECK_FIELD | MEDIA_CTL_CFG | STATIC_METADATA | SENSOR | COMMON | NO_HANDLER

  /** The per-sensor record the parser fills (only its stream-to-media-config map is modelled). */
  datatype CameraInfo = CameraInfo(streamToMcMap: map<int, seq<StreamConfig>>)

  /** MAX_CAMERA_NUMBER (a platform constant defined outside this model). */
  const MAX_CAMERA_NUMBER: int

  class ProfileParser {
    var dataField: DataField
    var inMediaCtlCfg: bool
    var inStaticMetadata: bool
    var sensorNum: int
    var currentSensor: int
    var currentCam: Option<CameraInfo>
    var cameras: seq<CameraInfo>
    /** The pixel format table stream configurations are looked up in. */
    const formats: seq<FormatInfo>

    constructor()
      ensures formats == FORMAT_TABLE
      ensures dataField == FIELD_INVALID && !inMediaCtlCfg && !inStaticMetadata
      ensures sensorNum == 0 && currentSensor == 0 && currentCam.None? && cameras == []
    {
      dataField := FIELD_INVALID;
      inMediaCtlCfg := false;
      inStaticMetadata := false;
      sensorNum := 0;
      currentSensor := 0;
      currentCam := None;
      cameras := [];
      formats := FORMAT_TABLE;
    }

    /**
     * checkField: "CameraSettings" resets the field; "Sensor" counts a
     * sensor and, when its index is below MAX_CAMERA_NUMBER, opens a fresh
     * camera record and enters the sensor field; "Common" enters the common
     * field; anything else changes nothing.
     */
    method CheckField(name: string)
      modifies this
      ensures inMediaCtlCfg == old(inMediaCtlCfg) && inStaticMetadata == old(inStaticMetadata) && cameras == old(cameras)
      ensures name == "CameraSettings" ==> dataField == FIELD_INVALID && unchanged(this`sensorNum, this`currentSensor, this`currentCam)
      ensures name == "Sensor" ==> (
        sensorNum == old(sensorNum) + 1 && currentSensor == old(sensorNum)
        && (0 <= currentSensor < MAX_CAMERA_NUMBER ==> dataField == FIELD_SENSOR && currentCam == Some(CameraInfo(map[])))
        && (!(0 <= currentSensor < MAX_CAMERA_NUMBER) ==> dataField == old(dataField) && currentCam == old(currentCam)))
      ensures name == "Common" ==> dataField == FIELD_COMMON && unchanged(this`sensorNum, this`currentSensor, this`currentCam)
      ensures name != "CameraSettings" && name != "Sensor" && name != "Common" ==> unchanged(this)
    {
      if name == "CameraSettings" {
        dataField := FIELD_INVALID;
      } else if name == "Sensor" {
        sensorNum := sensorNum + 1;
        currentSensor := sensorNum - 1;
        if currentSensor >= 0 && currentSensor < MAX_CAMERA_NUMBER {
          currentCam := Some(CameraInfo(map[]));
          dataField := FIELD_SENSOR;
        }
      } else if name == "Common" {
        dataField := FIELD_COMMON;
      }
    }

    /**
     * startElement: outside any field the element selects one; inside a
     * sensor "MediaCtlConfig" and "StaticMetadata" raise their flags, and
     * the media-control flag takes precedence over the static-metadata flag
     * in routing; inside the common field every element goes to the common
     * handler.
     */
    method StartElement(name: string) returns (h: Handler)
      modifies this
      ensures old(dataField) == FIELD_INVALID ==> h == CHECK_FIELD
      ensures old(dataField) == FIELD_SENSOR ==> (
        unchanged(this`dataField, this`sensorNum, this`currentSensor, this`currentCam, this`cameras)
        && inMediaCtlCfg == (old(inMediaCtlCfg) || name == "MediaCtlConfig")
        && inStaticMetadata == (old(inStaticMetadata) || name == "StaticMetadata")
        && h == (if inMediaCtlCfg then MEDIA_CTL_CFG else if inStaticMetadata then STATIC_METADATA else SENSOR))
      ensures old(dataField) == FIELD_COMMON ==> h == COMMON && unchanged(this)
    {
      if dataField == FIELD_INVALID {
        CheckField(name);
        return CHECK_FIELD;
      }
      match dataField
      case FIELD_SENSOR =>
        if name == "MediaCtlConfig" {
          inMediaCtlCfg := true;
        } else if name == "StaticMetadata" {
          inStaticMetadata := true;
        }
        if inMediaCtlCfg {
          h := MEDIA_CTL_CFG;
        } else if inStaticMetadata {
          h := STATIC_METADATA;
        } else {
          h := SENSOR;
        }
      case FIELD_COMMON =>
        h := COMMON;
    }

    /**
     * endElement: "Sensor" leaves the field and files the open camera record
     * at index currentSensor; "MediaCtlConfig", "StaticMetadata" and
     * "Common" reset their own state; nothing else changes.
     */
    method EndElement(name: string)
      modifies this
      ensures sensorNum == old(sensorNum) && currentSensor == old(currentSensor)
      ensures name == "Sensor" ==> dataField == FIELD_INVALID && currentCam.None?
      ensures name == "Sensor" && old(currentCam).Some? && 0 <= currentSensor <= |old(cameras)| ==>
        cameras == old(cameras)[..currentSensor] + [old(currentCam).value] + old(cameras)[currentSensor..]
      ensures name != "Sensor" || old(currentCam).None? ==> cameras == old(cameras)
      ensures name != "Sensor" ==> currentCam == old(currentCam)
      ensures inMediaCtlCfg == (old(inMediaCtlCfg) && name != "MediaCtlConfig")
      ensures inStaticMetadata == (old(inStaticMetadata) && name != "StaticMetadata")
      ensures name == "Common" ==> dataField == FIELD_INVALID
      ensures name != "Sensor" && name != "Common" ==> dataField == old(dataField)
    {
      if name == "Sensor" {
        dataField := FIELD_INVALID;
        if currentCam.Some? {
          if 0 <= currentSensor <= |cameras| {
            cameras := cameras[..currentSensor] + [currentCam.value] + cameras[currentSensor..];
          }
          currentCam := None;
        }
      }
      if name == "MediaCtlConfig" {
        inMediaCtlCfg := false;
      }
      if name == "StaticMetadata" {
        inStaticMetadata := false;
      }
      if name == "Common" {
        dataField := FIELD_INVALID;
      }
    }

    /**
     * parseStreamConfig: every configuration parsed before the end or an
     * error is appended to configs and filed under its media configuration
     * id in the open camera's map; the count is 7 per configuration, or 0
     * after an error.
     */
    method ParseStreamConfig(src: string, configs: seq<StreamConfig>) returns (count: nat, out: seq<StreamConfig>)
      requires currentCam.Some?
      modifies this`currentCam
      ensures count == ConfigCount(StreamConfigsOf(formats, src))
      ensures out == configs + ConfigsOf(StreamConfigsOf(formats, src).entries)
      ensures currentCam == Some(CameraInfo(StoreAll(old(currentCam.value.streamToMcMap), StreamConfigsOf(formats, src).entries)))
    {
      var m0 := currentCam.value.streamToMcMap;
      var all := StreamConfigsOf(formats, src);
      count := 0;
      out := configs;
      var p := src;
      ghost var done: seq<McConfig> := [];
      while true
        invariant currentCam.Some?
        invariant all.entries == done + StreamConfigsOf(formats, p).entries && all.ok == StreamConfigsOf(formats, p).ok
        invariant out == configs + ConfigsOf(done)
        invariant count == 7 * |done|
        invariant currentCam == Some(CameraInfo(StoreAll(m0, done)))
        decreases |p|
      {
        var step := ParseConfigAt(formats, p);
        if step.StepError? {
          assert StreamConfigsOf(formats, p).entries == [];
          assert all.entries == done + [] == done;
          count := 0;
          return;
        }
        var mcId, config := step.mcId, step.config;
        var e := McConfig(mcId, config);
        StreamConfigsStep(formats, p);
        if !step.last {
          SeqAssoc(done, [e], StreamConfigsOf(formats, step.rest).entries);
        }
        ConfigsOfAppend(done, [e]);
        assert ConfigsOf([e]) == [config];
        SeqAssoc(configs, ConfigsOf(done), [config]);
        StoreAllAppend(m0, done, [e]);
        out := out + [config];
        currentCam := Some(CameraInfo(Store(currentCam.value.streamToMcMap, e)));
        count := count + 7;
        done := done + [e];
        if step.last {
          assert all.entries == done;
          return;
        }
        p := step.rest;
      }
    }
  }

  lemma {:induction false} ConfigsOfAppend(a: seq<McConfig>, b: seq<McConfig>)
    ensures ConfigsOf(a + b) == ConfigsOf(a) + ConfigsOf(b)
    decreases |a|
  {
    if a != [] {
      assert (a + b)[1..] == a[1..] + b;
      ConfigsOfAppend(a[1..], b);
    } else {
      assert a + b == b;
    }
  }

  /** Filing a list in two parts files it as a whole. */
  lemma {:induction false} StoreAllAppend(m: map<int, seq<StreamConfig>>, a: seq<McConfig>, b: seq<McConfig>)
    ensures StoreAll(m, a + b) == StoreAll(StoreAll(m, a), b)
    decreases |a|
  {
    if a != [] {
      var e := a[0];
      assert (a + b)[0] == e && (a + b)[1..] == a[1..] + b;
      StoreAllAppend(Store(m, e), a[1..], b);
    } else {
      assert a + b == b;
    }
  }
}
