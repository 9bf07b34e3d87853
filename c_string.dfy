/**
 * The C library's view of text that the HAL's parsers rely on: reading
 * past the end of a string yields its terminating NUL, isspace, and strtol
 * in base 10 together with the (int) conversion of its long result.  A
 * string here is the characters before the terminator.
 */
module CString {
  import opened Common
  import opened Parameters

  const NUL: char := 0 as char

  /** *(s + i): the character at i, or the terminator at and past the end. */
  function At(s: string, i: nat): char
  {
    if i < |s| then s[i] else NUL
  }

  /** The six characters (vertical tab and form feed as codes 11 and 12) both isspace and skipWhiteSpace treat as blank. */
  predicate IsSpace(c: char)
  {
    c == '\n' || c == '\t' || c == ' ' || c == 11 as char || c == '\r' || c == 12 as char
  }

  /** The position just past the run of blanks that starts at i. */
  function SpaceEnd(s: string, i: nat): (e: nat)
    requires i <= |s|
    ensures i <= e <= |s|
    ensures e < |s| ==> !IsSpace(s[e])
    decreases |s| - i
  {
    if i < |s| && IsSpace(s[i]) then SpaceEnd(s, i + 1) else i
  }

  predicate IsDigit(c: char)
  {
    '0' <= c <= '9'
  }

  /** The position just past the run of decimal digits that starts at i. */
  function DigitEnd(s: string, i: nat): (e: nat)
    requires i <= |s|
    ensures i <= e <= |s|
    ensures e < |s| ==> !IsDigit(s[e])
    decreases |s| - i
  {
    if i < |s| && IsDigit(s[i]) then DigitEnd(s, i + 1) else i
  }

  /** The value of a decimal digit character. */
  function DigitOf(c: char): int
  {
    c as int - '0' as int
  }

  /** The value of the digits s[i..j], most significant first. */
  function ValueOf(s: string, i: nat, j: nat): int
    requires i <= j <= |s|
    decreases j - i
  {
    if j == i then 0 else ValueOf(s, i, j - 1) * 10 + DigitOf(s[j - 1])
  }

  /** The decimal rendering of a natural number (as printf's %d writes it). */
  function Dec(n: nat): (s: string)
    ensures |s| >= 1 && IsDigit(s[0])
  {
    if n < 10 then [('0' as int + n) as char] else Dec(n / 10) + [('0' as int + n % 10) as char]
  }

  /** The decimal rendering of an integer, with a leading '-' when negative. */
  function IntStr(v: int): (s: string)
    ensures |s| >= 1 && !IsSpace(s[0]) && s[0] != '+'
  {
    if v < 0 then "-" + Dec(-v) else Dec(v)
  }

  const LONG_MAX: int := 0x7fff_ffff_ffff_ffff
  const LONG_MIN: int := -0x8000_0000_0000_0000

  /** What strtol(s, &end, 10) returns: its long value and how many characters end lies past s. */
  datatype Strtol = Strtol(value: int, consumed: nat)

  /**
   * strtol in base 10: blanks, an optional sign, then digits; without a
   * digit the value is 0 and end is s itself; an out-of-range value
   * saturates at LONG_MAX or LONG_MIN.
   */
  function StrtolOf(s: string): (r: Strtol)
    ensures r.consumed <= |s|
    ensures LONG_MIN <= r.value <= LONG_MAX
    ensures r.consumed == 0 ==> r.value == 0
    ensures r.consumed > 0 ==> !IsDigit(At(s, r.consumed))
  {
    var j := SpaceEnd(s, 0);
    var signed := j < |s| && (s[j] == '-' || s[j] == '+');
    var k := if signed then j + 1 else j;
    var e := DigitEnd(s, k);
    if e == k then Strtol(0, 0)
    else
      var mag := ValueOf(s, k, e);
      Strtol(Clip(if signed && s[j] == '-' then -mag else mag, LONG_MAX, LONG_MIN), e)
  }

  /** The (int) conversion of a long: its low 32 bits as a two's-complement value. */
  function CInt(v: int): (r: int)
    ensures -TWO_31 <= r < TWO_31
    ensures -TWO_31 <= v < TWO_31 ==> r == v
  {
    if -TWO_31 <= v < TWO_31 then v else ToInt32(ToUint32(v))
  }

  /** atoi(s): strtol's value converted to int. */
  function Atoi(s: string): int
  {
    CInt(StrtolOf(s).value)
  }

  /** The blank run is found from where the blanks end. */
  lemma {:induction false} SpaceEndExact(s: string, i: nat, e: nat)
    requires i <= e <= |s|
    requires forall m :: i <= m < e ==> IsSpace(s[m])
    requires e < |s| ==> !IsSpace(s[e])
    ensures SpaceEnd(s, i) == e
    decreases e - i
  {
    if i < e {
      SpaceEndExact(s, i + 1, e);
    }
  }

  /** The digit run is found from where the digits end. */
  lemma {:induction false} DigitEndExact(s: string, i: nat, e: nat)
    requires i <= e <= |s|
    requires forall m :: i <= m < e ==> IsDigit(s[m])
    requires e < |s| ==> !IsDigit(s[e])
    ensures DigitEnd(s, i) == e
    decreases e - i
  {
    if i < e {
      DigitEndExact(s, i + 1, e);
    }
  }

  /** The value of digits depends only on those characters. */
  lemma {:induction false} ValueOfShift(s: string, t: string, d: nat, i: nat, j: nat)
    requires i <= j <= |t| && d + j <= |s|
    requires forall m :: i <= m < j ==> s[d + m] == t[m]
    ensures ValueOf(s, d + i, d + j) == ValueOf(t, i, j)
    decreases j - i
  {
    if i < j {
      ValueOfShift(s, t, d, i, j - 1);
    }
  }

  /** Dec writes only digit characters. */
  lemma {:induction false} DecDigits(n: nat)
    ensures forall m :: 0 <= m < |Dec(n)| ==> IsDigit(Dec(n)[m])
  {
    if n >= 10 {
      DecDigits(n / 10);
    }
  }

  lemma {:induction false} ValueDec(n: nat)
    ensures ValueOf(Dec(n), 0, |Dec(n)|) == n
  {
    if n >= 10 {
      var s := Dec(n);
      var t := Dec(n / 10);
      assert s == t + [('0' as int + n % 10) as char];
      assert ValueOf(s, 0, |s|) == ValueOf(s, 0, |t|) * 10 + n % 10;
      ValueDec(n / 10);
      ValueOfShift(s, t, 0, 0, |t|);
    }
  }

  /** What follows a single character after the first part of a concatenation. */
  lemma DropDelim<T>(a: seq<T>, c: T, u: seq<T>)
    ensures |a| < |a + ([c] + u)| && (a + ([c] + u))[|a|] == c
    ensures (a + ([c] + u))[|a| + 1..] == u
  {
    assert (a + ([c] + u))[|a| + 1..] == ([c] + u)[1..];
  }

  /** strtol on text that starts, after no blanks, with an optional sign and then the digits s[k..e]. */
  lemma StrtolDigits(s: string, k: nat, e: nat, v: int)
    requires k <= 1 && k < e <= |s| && SpaceEnd(s, 0) == 0
    requires k == 1 <==> s[0] == '-'
    requires DigitEnd(s, k) == e
    requires v == (if k == 1 then -ValueOf(s, k, e) else ValueOf(s, k, e))
    requires LONG_MIN <= v <= LONG_MAX
    ensures StrtolOf(s) == Strtol(v, e)
  {
    assert k == 0 ==> IsDigit(s[0]);
  }

  /** strtol reads back what IntStr writes, and stops right after it. */
  lemma StrtolIntStr(v: int, rest: string)
    requires LONG_MIN <= v <= LONG_MAX
    requires rest == [] || !IsDigit(rest[0])
    ensures StrtolOf(IntStr(v) + rest) == Strtol(v, |IntStr(v)|)
  {
    var mag: nat := if v < 0 then -v else v;
    var k := if v < 0 then 1 else 0;
    var ds := Dec(mag);
    var s := IntStr(v) + rest;
    assert IntStr(v) == (if v < 0 then "-" else "") + ds;
    assert |IntStr(v)| == k + |ds|;
    assert forall m :: 0 <= m < |ds| ==> s[k + m] == ds[m];
    SpaceEndExact(s, 0, 0);
    DecDigits(mag);
    DigitEndExact(s, k, k + |ds|);
    ValueDec(mag);
    ValueOfShift(s, ds, k, 0, |ds|);
    StrtolDigits(s, k, k + |ds|, v);
  }
}
