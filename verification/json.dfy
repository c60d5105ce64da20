/**
 * JavaScript values as they travel through the bridge: decoded JSON fields of
 * profile files and inbound frames, and the numbers the dispatcher computes.
 */
module Json {
  import opened Wrappers

  datatype Value =
    | Undefined
    | Null
    | Bool(b: bool)
    | Num(x: real)
    | Str(s: string)
    | Obj(fields: map<string, Value>)

  /** JavaScript truthiness: what `if (v)` and `v || w` test. */
  predicate Truthy(v: Value) {
    match v
    case Undefined => false
    case Null => false
    case Bool(b) => b
    case Num(x) => x != 0.0
    case Str(s) => s != ""
    case Obj(_) => true
  }

  /** Property access `v.key` on a value that is neither null nor undefined. */
  function Get(v: Value, key: string): (r: Value)
    ensures r != Undefined ==> v.Obj? && key in v.fields
  {
    if v.Obj? && key in v.fields then v.fields[key] else Undefined
  }

  predicate IsDigit(c: char) {
    '0' <= c <= '9'
  }

  function DigitChar(d: nat): (c: char)
    requires d < 10
    ensures IsDigit(c)
  {
    ('0' as int + d) as char
  }

  function DigitValue(c: char): (d: nat)
    requires IsDigit(c)
    ensures d < 10 && DigitChar(d) == c
  {
    c as int - '0' as int
  }

  /** Decimal digits of a natural number, most significant first, no leading zero. */
  function NatText(n: nat): (r: string)
    ensures |r| > 0
    ensures forall i :: 0 <= i < |r| ==> IsDigit(r[i])
    ensures |r| > 1 ==> r[0] != '0'
    decreases n
  {
    if n < 10 then [DigitChar(n)] else NatText(n / 10) + [DigitChar(n % 10)]
  }

  /** The text JavaScript gives an integer-valued number (`${n}`). */
  function IntText(n: int): (r: string)
    ensures |r| > 0
  {
    if n < 0 then "-" + NatText(-n) else NatText(n)
  }

  /** Reads back a string of decimal digits. */
  function ParseNat(s: string): (r: Option<nat>)
    ensures r.Some? ==> s != [] && forall i :: 0 <= i < |s| ==> IsDigit(s[i])
  {
    if s == [] || !IsDigit(s[|s| - 1]) then None
    else if |s| == 1 then Some(DigitValue(s[0]))
    else
      match ParseNat(s[..|s| - 1])
      case None => None
      case Some(k) => Some(10 * k + DigitValue(s[|s| - 1]))
  }

  /** Reads back an optionally negative decimal integer. */
  function ParseInt(s: string): Option<int> {
    if s != [] && s[0] == '-' then
      match ParseNat(s[1..])
      case None => None
      case Some(k) => Some(0 - k as int)
    else
      match ParseNat(s)
      case None => None
      case Some(k) => Some(k as int)
  }

  lemma {:induction false} NatTextRoundTrip(n: nat)
    ensures ParseNat(NatText(n)) == Some(n)
    decreases n
  {
    if n >= 10 {
      var s := NatText(n);
      NatTextRoundTrip(n / 10);
      assert s[..|s| - 1] == NatText(n / 10);
      assert s[|s| - 1] == DigitChar(n % 10);
    }
  }

  /** Integer text is read back exactly, so it never confuses two integers. */
  lemma IntTextRoundTrip(n: int)
    ensures ParseInt(IntText(n)) == Some(n)
  {
    if n < 0 {
      NatTextRoundTrip(-n);
      assert IntText(n)[1..] == NatText(-n);
    } else {
      NatTextRoundTrip(n);
    }
  }

  lemma IntTextInjective(m: int, n: int)
    ensures IntText(m) == IntText(n) <==> m == n
  {
    IntTextRoundTrip(m);
    IntTextRoundTrip(n);
  }

  /** `Number.MAX_SAFE_INTEGER`: up to here every integer is a double and is printed digit by digit. */
  const MaxSafeInteger: int := 0x1F_FFFF_FFFF_FFFF

  /** An integer whose JavaScript text is its full decimal expansion. */
  predicate IsSafeInteger(x: real) {
    x.Floor as real == x && -MaxSafeInteger <= x.Floor <= MaxSafeInteger
  }

  /**
   * The text of a value in a template literal (`${v}`); None for a number
   * that is not a safe integer (a fraction, or an integer that JavaScript
   * prints rounded or in exponent form), whose rendering is not part of this
   * model.
   */
  function ValueText(v: Value): (r: Option<string>)
    ensures v.Str? ==> r == Some(v.s)
    ensures r.None? <==> v.Num? && !IsSafeInteger(v.x)
    ensures v.Num? && r.Some? ==> ParseInt(r.value) == Some(v.x.Floor)
  {
    match v
    case Undefined => Some("undefined")
    case Null => Some("null")
    case Bool(b) => Some(if b then "true" else "false")
    case Num(x) =>
      if IsSafeInteger(x) then IntTextRoundTrip(x.Floor); Some(IntText(x.Floor)) else None
    case Str(s) => Some(s)
    case Obj(_) => Some("[object Object]")
  }

  lemma IntegerValueText(n: int)
    requires -MaxSafeInteger <= n <= MaxSafeInteger
    ensures ValueText(Num(n as real)) == Some(IntText(n))
  {
  }
}
