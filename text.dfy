/**
 * The pieces of .NET text handling the modelled code relies on:
 * `String.IsNullOrEmpty`, `Char.IsWhiteSpace`, `String.Trim`, invariant-culture
 * integer formatting and parsing (`Int32.ToString`, `Convert.ToInt32`,
 * `Convert.ToInt64`) and the spelling of booleans used by `XmlWriter.WriteValue`
 * and accepted by `Convert.ToBoolean`.
 */
module Text {
  import opened Wrappers

  /** `String.IsNullOrEmpty` on a nullable string. */
  predicate IsNullOrEmpty(s: Option<string>) {
    s.None? || s.value == ""
  }

  // ---------------------------------------------------------------------------
  // White space and trimming

  /** `Char.IsWhiteSpace`: the Unicode separators (Zs, Zl, Zp), U+0009..U+000D, U+0085 and U+00A0. */
  predicate IsWhiteSpace(c: char) {
    || c == ' ' || ('\t' <= c <= '\r') || c == '\U{0085}' || c == '\U{00A0}' || c == '\U{1680}'
    || ('\U{2000}' <= c <= '\U{200A}') || c == '\U{2028}' || c == '\U{2029}'
    || c == '\U{202F}' || c == '\U{205F}' || c == '\U{3000}'
  }

  /** The blanks integer parsing skips around the number (`NumberStyles.Integer`). */
  predicate IsNumberWhite(c: char) {
    c == ' ' || ('\t' <= c <= '\r')
  }

  /** The blanks `Boolean.Parse` trims: white space and the NUL character. */
  predicate IsWhiteSpaceOrNull(c: char) {
    IsWhiteSpace(c) || c == '\0'
  }

  /** Which characters a trim removes. */
  datatype Blanks = WhiteSpace | NumberWhite | WhiteSpaceOrNull

  predicate IsBlank(blank: Blanks, c: char) {
    match blank
    case WhiteSpace => IsWhiteSpace(c)
    case NumberWhite => IsNumberWhite(c)
    case WhiteSpaceOrNull => IsWhiteSpaceOrNull(c)
  }

  /** `s` without its leading run of `blank` characters. */
  function TrimStartWhere(s: string, blank: Blanks): (r: string)
    ensures |r| <= |s|
    ensures r == [] || !IsBlank(blank, r[0])
  {
    if |s| > 0 && IsBlank(blank, s[0]) then TrimStartWhere(s[1..], blank) else s
  }

  /** `s` without its trailing run of `blank` characters. */
  function TrimEndWhere(s: string, blank: Blanks): (r: string)
    ensures |r| <= |s|
    ensures r == [] || (!IsBlank(blank, r[|r| - 1]) && r[0] == s[0])
  {
    if |s| > 0 && IsBlank(blank, s[|s| - 1]) then TrimEndWhere(s[..|s| - 1], blank) else s
  }

  /** Trimming the start keeps a suffix of the text and removes only blanks. */
  lemma {:induction false} TrimStartKeepsSuffix(s: string, blank: Blanks)
    ensures TrimStartWhere(s, blank) == s[|s| - |TrimStartWhere(s, blank)|..]
    ensures forall i :: 0 <= i < |s| - |TrimStartWhere(s, blank)| ==> IsBlank(blank, s[i])
  {
    if |s| > 0 && IsBlank(blank, s[0]) {
      TrimStartKeepsSuffix(s[1..], blank);
      assert forall i :: 1 <= i < |s| ==> s[i] == s[1..][i - 1];
      assert s[1..][|s| - 1 - |TrimStartWhere(s, blank)|..] == s[|s| - |TrimStartWhere(s, blank)|..];
    }
  }

  /** Trimming the end keeps a prefix of the text and removes only blanks. */
  lemma {:induction false} TrimEndKeepsPrefix(s: string, blank: Blanks)
    ensures TrimEndWhere(s, blank) == s[..|TrimEndWhere(s, blank)|]
    ensures forall i :: |TrimEndWhere(s, blank)| <= i < |s| ==> IsBlank(blank, s[i])
  {
    if |s| > 0 && IsBlank(blank, s[|s| - 1]) {
      TrimEndKeepsPrefix(s[..|s| - 1], blank);
    }
  }

  /** `s` without its leading and trailing runs of `blank` characters. */
  function TrimWhere(s: string, blank: Blanks): (r: string)
    ensures r == [] || (!IsBlank(blank, r[0]) && !IsBlank(blank, r[|r| - 1]))
  {
    TrimEndWhere(TrimStartWhere(s, blank), blank)
  }

  /** Trimming keeps a contiguous piece of the text: everything cut off the two ends is blank. */
  lemma {:induction false} TrimWhereKeepsMiddle(s: string, blank: Blanks)
    ensures var k, r := |s| - |TrimStartWhere(s, blank)|, TrimWhere(s, blank);
      && k + |r| <= |s| && r == s[k..k + |r|]
      && (forall i :: 0 <= i < k ==> IsBlank(blank, s[i]))
      && (forall i :: k + |r| <= i < |s| ==> IsBlank(blank, s[i]))
  {
    var t := TrimStartWhere(s, blank);
    var r := TrimEndWhere(t, blank);
    var k := |s| - |t|;
    TrimStartKeepsSuffix(s, blank);
    TrimEndKeepsPrefix(t, blank);
    assert r == s[k..k + |r|];
    assert forall i :: k + |r| <= i < |s| ==> s[i] == t[i - k];
  }

  /** `String.Trim()`. */
  function Trim(s: string): string {
    TrimWhere(s, WhiteSpace)
  }

  /** Trimming leaves a text alone when neither end is blank. */
  lemma {:induction false} TrimWhereIdentity(s: string, blank: Blanks)
    requires s == [] || (!IsBlank(blank, s[0]) && !IsBlank(blank, s[|s| - 1]))
    ensures TrimWhere(s, blank) == s
  {
    assert TrimStartWhere(s, blank) == s;
    assert TrimEndWhere(s, blank) == s;
  }

  /** Trimming twice trims no more than trimming once. */
  lemma {:induction false} TrimIdempotent(s: string)
    ensures Trim(Trim(s)) == Trim(s)
  {
    TrimWhereIdentity(Trim(s), WhiteSpace);
  }

  // ---------------------------------------------------------------------------
  // Decimal integers

  predicate IsDigit(c: char) {
    '0' <= c <= '9'
  }

  predicate AllDigits(s: string) {
    forall i :: 0 <= i < |s| ==> IsDigit(s[i])
  }

  function DigitValue(c: char): nat
    requires IsDigit(c)
  {
    c as int - '0' as int
  }

  function DigitChar(d: nat): (c: char)
    requires d < 10
    ensures IsDigit(c) && DigitValue(c) == d
  {
    ('0' as int + d) as char
  }

  /** `n.ToString(CultureInfo.InvariantCulture)`: the decimal digits of `n`, without leading zeros. */
  function NatToString(n: nat): (r: string)
    ensures |r| > 0 && AllDigits(r)
  {
    if n < 10 then [DigitChar(n)] else NatToString(n / 10) + [DigitChar(n % 10)]
  }

  /** The value of a run of decimal digits, most significant first. */
  function DigitsValue(s: string): nat
    requires AllDigits(s)
  {
    if s == [] then 0 else 10 * DigitsValue(s[..|s| - 1]) + DigitValue(s[|s| - 1])
  }

  /** Reading back the digits of `n` gives `n`. */
  lemma {:induction false} DigitsValueOfNatToString(n: nat)
    ensures DigitsValue(NatToString(n)) == n
  {
    if n >= 10 {
      var s := NatToString(n);
      assert s[..|s| - 1] == NatToString(n / 10);
      DigitsValueOfNatToString(n / 10);
    }
  }

  /** Distinct numbers have distinct decimal texts. */
  lemma {:induction false} NatToStringInjective(m: nat, n: nat)
    requires NatToString(m) == NatToString(n)
    ensures m == n
  {
    DigitsValueOfNatToString(m);
    DigitsValueOfNatToString(n);
  }

  /** `i.ToString(CultureInfo.InvariantCulture)`: a minus sign for negative numbers, then the digits. */
  function IntToString(i: int): (r: string)
    ensures |r| > 0 && IsDigit(r[|r| - 1])
    ensures r[0] == '-' || IsDigit(r[0])
  {
    if i < 0 then "-" + NatToString(-i) else NatToString(i)
  }

  /**
   * Integer parsing with `NumberStyles.Integer` in the invariant culture:
   * optional blanks, an optional `+` or `-`, one or more decimal digits,
   * optional blanks. `None` is the `FormatException`.
   */
  function ParseInteger(s: string): Option<int> {
    var t := TrimWhere(s, NumberWhite);
    if |t| > 0 && (t[0] == '-' || t[0] == '+') then
      match ParseDigits(t[1..])
      case Some(v) => Some(if t[0] == '-' then -(v as int) else v as int)
      case None => None
    else
      match ParseDigits(t)
      case Some(v) => Some(v as int)
      case None => None
  }

  /** One or more decimal digits and nothing else, read as a number. */
  function ParseDigits(t: string): (r: Option<nat>)
    ensures r.Some? <==> |t| > 0 && AllDigits(t)
  {
    if |t| > 0 && AllDigits(t) then Some(DigitsValue(t)) else None
  }

  /** A run of digits, with or without a leading minus sign, parses to its value. */
  lemma {:induction false} ParseIntegerOfDigits(d: string)
    requires |d| > 0 && AllDigits(d)
    ensures ParseInteger(d) == Some(DigitsValue(d) as int)
    ensures ParseInteger("-" + d) == Some(-(DigitsValue(d) as int))
  {
    ParseIntegerOfUnsigned(d);
    ParseIntegerOfNegative(d);
  }

  lemma {:induction false} ParseIntegerOfUnsigned(d: string)
    requires |d| > 0 && AllDigits(d)
    ensures ParseInteger(d) == Some(DigitsValue(d) as int)
  {
    assert IsDigit(d[0]) && IsDigit(d[|d| - 1]);
    TrimWhereIdentity(d, NumberWhite);
  }

  lemma {:induction false} ParseIntegerOfNegative(d: string)
    requires |d| > 0 && AllDigits(d)
    ensures ParseInteger("-" + d) == Some(-(DigitsValue(d) as int))
  {
    var m := "-" + d;
    assert m[0] == '-' && m[|m| - 1] == d[|d| - 1] && IsDigit(d[|d| - 1]);
    TrimWhereIdentity(m, NumberWhite);
    assert ParseDigits(m[1..]) == Some(DigitsValue(d)) by {
      assert m[1..] == d;
    }
  }

  /** The invariant-culture text of an integer parses back to that integer. */
  lemma {:induction false} ParseIntegerOfIntToString(i: int)
    ensures ParseInteger(IntToString(i)) == Some(i)
  {
    if i < 0 {
      ParseIntegerOfNegativeInt(i);
    } else {
      var d := NatToString(i);
      ParseIntegerOfUnsigned(d);
      DigitsValueOfNatToString(i);
    }
  }

  lemma {:induction false} ParseIntegerOfNegativeInt(i: int)
    requires i < 0
    ensures ParseInteger(IntToString(i)) == Some(i)
  {
    var d := NatToString(-i);
    assert IntToString(i) == "-" + d;
    ParseIntegerOfNegative(d);
    DigitsValueOfNatToString(-i);
  }

  const INT32_MIN: int := -0x8000_0000
  const INT32_MAX: int := 0x7FFF_FFFF
  const INT64_MIN: int := -0x8000_0000_0000_0000
  const INT64_MAX: int := 0x7FFF_FFFF_FFFF_FFFF

  predicate IsInt32(i: int) {
    INT32_MIN <= i <= INT32_MAX
  }

  predicate IsInt64(i: int) {
    INT64_MIN <= i <= INT64_MAX
  }

  /** `Convert.ToInt32(s, CultureInfo.InvariantCulture)`: `None` on a format error or an overflow. */
  function ParseInt32(s: string): (r: Option<int>)
    ensures r.Some? ==> IsInt32(r.value)
    ensures r.Some? <==> ParseInteger(s).Some? && IsInt32(ParseInteger(s).value)
  {
    match ParseInteger(s)
    case Some(v) => if IsInt32(v) then Some(v) else None
    case None => None
  }

  /** `Convert.ToInt64(s, CultureInfo.InvariantCulture)`: `None` on a format error or an overflow. */
  function ParseInt64(s: string): (r: Option<int>)
    ensures r.Some? ==> IsInt64(r.value)
    ensures r.Some? <==> ParseInteger(s).Some? && IsInt64(ParseInteger(s).value)
  {
    match ParseInteger(s)
    case Some(v) => if IsInt64(v) then Some(v) else None
    case None => None
  }

  lemma {:induction false} ParseInt32OfIntToString(i: int)
    requires IsInt32(i)
    ensures ParseInt32(IntToString(i)) == Some(i)
  {
    ParseIntegerOfIntToString(i);
  }

  lemma {:induction false} ParseInt64OfIntToString(i: int)
    requires IsInt64(i)
    ensures ParseInt64(IntToString(i)) == Some(i)
  {
    ParseIntegerOfIntToString(i);
  }

  /** `s` padded on the left with zeros to at least `width` characters (the `{0:00}` format). */
  function PadZeros(s: string, width: nat): (r: string)
    ensures |r| == if |s| < width then width else |s|
    ensures r[|r| - |s|..] == s
    ensures forall i :: 0 <= i < |r| - |s| ==> r[i] == '0'
  {
    if |s| < width then seq(width - |s|, _ => '0') + s else s
  }

  // ---------------------------------------------------------------------------
  // Booleans

  /** `XmlConvert.ToString(b)`: the text `XmlWriter.WriteValue(bool)` writes. */
  function BoolText(b: bool): string {
    if b then "true" else "false"
  }

  function LowerAscii(c: char): char {
    if 'A' <= c <= 'Z' then (c as int + 32) as char else c
  }

  /** Ordinal comparison ignoring the case of ASCII letters. */
  predicate EqualsIgnoreCase(a: string, b: string) {
    |a| == |b| && forall i :: 0 <= i < |a| ==> LowerAscii(a[i]) == LowerAscii(b[i])
  }

  /**
   * `Convert.ToBoolean(s)` (`Boolean.Parse`): "True" or "False" in any letter case,
   * after trimming white space and NUL characters. `None` is the `FormatException`.
   */
  function ParseBool(s: string): Option<bool> {
    var t := TrimWhere(s, WhiteSpaceOrNull);
    if EqualsIgnoreCase(t, "True") then Some(true)
    else if EqualsIgnoreCase(t, "False") then Some(false)
    else None
  }

  /** What `XmlWriter.WriteValue` writes for a boolean, `Convert.ToBoolean` reads back. */
  lemma {:induction false} ParseBoolOfBoolText(b: bool)
    ensures ParseBool(BoolText(b)) == Some(b)
  {
    if b {
      ParseBoolTrue();
    } else {
      ParseBoolFalse();
    }
  }

  lemma {:induction false} ParseBoolTrue()
    ensures ParseBool("true") == Some(true)
  {
    var s := "true";
    assert s[0] == 't' && s[|s| - 1] == 'e';
    TrimWhereIdentity(s, WhiteSpaceOrNull);
    assert forall i :: 0 <= i < 4 ==> LowerAscii(s[i]) == LowerAscii("True"[i]);
  }

  lemma {:induction false} ParseBoolFalse()
    ensures ParseBool("false") == Some(false)
  {
    var s := "false";
    assert s[0] == 'f' && s[|s| - 1] == 'e';
    TrimWhereIdentity(s, WhiteSpaceOrNull);
    assert !EqualsIgnoreCase(s, "True");
    assert forall i :: 0 <= i < 5 ==> LowerAscii(s[i]) == LowerAscii("False"[i]);
  }
}
