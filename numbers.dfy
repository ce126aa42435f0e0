/**
 * The JavaScript number conversions the core applies to query parameters:
 * `Number(x)`, `parseInt(x)`, `n || fallback` and `n.toString()`.
 * A number is modelled as NaN or an integer; the decimal-integer text forms
 * (and, for `parseInt`, the `0x` hexadecimal form) are parsed exactly.
 */
module Numbers {
  import opened Wrappers
  import opened Strings

  /** A JavaScript number, as far as the model follows one: NaN or an integer. */
  datatype JsNum = NaN | Int(value: int)

  predicate IsHexDigit(c: char) {
    IsDigit(c) || 'a' <= c <= 'f' || 'A' <= c <= 'F'
  }

  function HexDigitValue(c: char): (v: nat)
    requires IsHexDigit(c)
    ensures v < 16
  {
    if IsDigit(c) then c as int - '0' as int
    else if 'a' <= c <= 'f' then c as int - 'a' as int + 10
    else c as int - 'A' as int + 10
  }

  /** The longest prefix of `s` whose characters all satisfy the digit test of the radix. */
  function DigitPrefix(s: string, hex: bool): (p: string)
    ensures |p| <= |s| && p == s[..|p|]
    ensures forall i :: 0 <= i < |p| ==> (if hex then IsHexDigit(p[i]) else IsDigit(p[i]))
    ensures |p| < |s| ==> !(if hex then IsHexDigit(s[|p|]) else IsDigit(s[|p|]))
    decreases |s|
  {
    if |s| > 0 && (if hex then IsHexDigit(s[0]) else IsDigit(s[0])) then
      var rest := DigitPrefix(s[1..], hex);
      assert [s[0]] + rest == s[..|rest| + 1];
      [s[0]] + rest
    else ""
  }

  function HexValue(s: string): nat
    requires forall i :: 0 <= i < |s| ==> IsHexDigit(s[i])
    decreases |s|
  {
    if |s| == 0 then 0 else HexValue(s[..|s| - 1]) * 16 + HexDigitValue(s[|s| - 1])
  }

  /** An optional sign followed by at least one decimal digit, read as an integer. */
  function SignedDecimal(s: string): Option<int>
  {
    if |s| > 1 && s[0] == '-' && AllDigits(s[1..]) then Some(-(DigitsValue(s[1..]) as int))
    else if |s| > 1 && s[0] == '+' && AllDigits(s[1..]) then Some(DigitsValue(s[1..]))
    else if |s| > 0 && AllDigits(s) then Some(DigitsValue(s))
    else None
  }

  /**
   * `Number(searchParams.get(name))`. `Number(null)` and `Number` of blank
   * text are 0; signed decimal integer text, surrounded by any whitespace,
   * is its value; every other text is NaN in this model.
   */
  function NumberOf(param: Option<string>): (n: JsNum)
    ensures param.None? || AllSpace(param.value) ==> n == Int(0)
    ensures param.Some? && !AllSpace(param.value) ==> (n.Int? <==> SignedDecimal(Trim(param.value)).Some?)
    ensures param.Some? && !AllSpace(param.value) && n.Int? ==> n.value == SignedDecimal(Trim(param.value)).value
  {
    match param
    case None => Int(0)
    case Some(s) =>
      TrimEmptyIff(s);
      var t := Trim(s);
      if t == "" then Int(0)
      else match SignedDecimal(t)
        case Some(v) => Int(v)
        case None => NaN
  }

  /** `n || fallback`: NaN and 0 are the falsy numbers. */
  function OrDefault(n: JsNum, fallback: int): (r: int)
    ensures n.Int? && n.value != 0 ==> r == n.value
    ensures n.NaN? || n.value == 0 ==> r == fallback
  {
    if n.Int? && n.value != 0 then n.value else fallback
  }

  /** `Number(searchParams.get('maxResults')) || 10`, the count every route defaults this way. */
  function MaxResultsOr10(param: Option<string>): (r: int)
    ensures r != 0
  {
    OrDefault(NumberOf(param), 10)
  }

  /** The defaulting rule: an absent or blank `maxResults` gives 10. */
  lemma MaxResultsAbsent(s: string)
    requires AllSpace(s)
    ensures MaxResultsOr10(None) == 10
    ensures MaxResultsOr10(Some(s)) == 10
  {
    TrimEmptyIff(s);
  }

  /** A zero or non-numeric `maxResults` gives 10 as well. */
  lemma MaxResultsZeroOrText()
    ensures MaxResultsOr10(Some("0")) == 10
    ensures MaxResultsOr10(Some("ten")) == 10
  {
    ZeroIsNumberZero();
    TextIsNaN();
  }

  lemma ZeroIsNumberZero()
    ensures NumberOf(Some("0")) == Int(0)
  {
    NoSpaceAtEndsTrim("0");
    assert DigitsValue("0") == 0 by { assert "0"[..0] == ""; }
    assert SignedDecimal("0") == Some(0);
  }

  lemma TextIsNaN()
    ensures NumberOf(Some("ten")) == NaN
  {
    NoSpaceAtEndsTrim("ten");
    assert !IsDigit("ten"[0]);
    assert SignedDecimal("ten") == None;
  }

  /** The decimal text of a positive count gives that count. */
  lemma MaxResultsOfCount(k: nat)
    requires k > 0
    ensures MaxResultsOr10(Some(NatToString(k))) == k
  {
    var s := NatToString(k);
    DigitNotSpace(s[0]);
    DigitNotSpace(s[|s| - 1]);
    NoSpaceAtEndsTrim(s);
    NatToStringValue(k);
  }

  lemma DigitNotSpace(c: char)
    requires IsDigit(c)
    ensures !IsSpace(c)
  {
  }

  /**
   * `parseInt(s)` with no radix: leading whitespace is skipped, then an
   * optional sign, then a `0x`/`0X` prefix selects hexadecimal; the longest
   * run of digits that follows is the value, and no digits at all is NaN.
   */
  function ParseInt(s: string): (n: JsNum)
    ensures AllSpace(s) ==> n == NaN
    ensures n.Int? && n.value < 0 ==> |TrimStart(s)| > 0 && TrimStart(s)[0] == '-'
  {
    var t := TrimStart(s);
    assert AllSpace(s) ==> t == "";
    if |t| > 0 && t[0] == '-' then Negate(ParseUnsigned(t[1..]))
    else if |t| > 0 && t[0] == '+' then ParseUnsigned(t[1..])
    else ParseUnsigned(t)
  }

  function Negate(n: JsNum): JsNum {
    match n
    case NaN => NaN
    case Int(v) => Int(-v)
  }

  /** The digits after the sign: hexadecimal after `0x`/`0X`, decimal otherwise. */
  function ParseUnsigned(u: string): (n: JsNum)
    ensures n.Int? ==> n.value >= 0
  {
    var hex := StartsWith(u, "0x") || StartsWith(u, "0X");
    var digits := DigitPrefix(if hex then u[2..] else u, hex);
    if digits == "" then NaN
    else if hex then Int(HexValue(digits))
    else Int(DigitsValue(digits))
  }

  /** `n.toString()` for the numbers the model follows. */
  function ToString(n: JsNum): (s: string)
    ensures |s| > 0
  {
    match n
    case NaN => "NaN"
    case Int(v) => if v < 0 then "-" + NatToString(-v) else NatToString(v)
  }

  /** `parseInt` reads back what `toString` writes for every integer. */
  lemma ParseIntToString(v: int)
    ensures ParseInt(ToString(Int(v))) == Int(v)
  {
    var m: nat := if v < 0 then -v else v;
    var d := NatToString(m);
    ParseUnsignedDigits(m);
    var s := ToString(Int(v));
    if v < 0 {
      assert s[0] == '-' && s[1..] == d;
      assert TrimStart(s) == s;
    } else {
      assert s == d;
      DigitNotSpace(s[0]);
      assert TrimStart(s) == s;
    }
  }

  lemma ParseUnsignedDigits(m: nat)
    ensures ParseUnsigned(NatToString(m)) == Int(m)
  {
    var d := NatToString(m);
    NatToStringValue(m);
    DigitsAreTheirPrefix(d);
    assert !StartsWith(d, "0x") && !StartsWith(d, "0X") by {
      if |d| >= 2 { assert IsDigit(d[1]); }
    }
    assert d != "";
  }

  /** `Number` reads back what `toString` writes for every integer. */
  lemma NumberOfToString(v: int)
    ensures NumberOf(Some(ToString(Int(v)))) == Int(v)
  {
    var m: nat := if v < 0 then -v else v;
    var d := NatToString(m);
    NatToStringValue(m);
    var s := ToString(Int(v));
    DigitNotSpace(s[|s| - 1]);
    if v < 0 {
      assert s[0] == '-' && s[1..] == d;
      assert !AllDigits(s) by { assert !IsDigit(s[0]); }
    } else {
      DigitNotSpace(s[0]);
    }
    NoSpaceAtEndsTrim(s);
    assert !AllSpace(s);
    assert SignedDecimal(s) == Some(v);
  }

  lemma {:induction false} DigitsAreTheirPrefix(d: string)
    requires AllDigits(d)
    ensures DigitPrefix(d, false) == d
    decreases |d|
  {
    if |d| > 0 {
      DigitsAreTheirPrefix(d[1..]);
      assert [d[0]] + d[1..] == d;
    }
  }
}
