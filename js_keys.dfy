/**
 * The part of the JavaScript object model that PojoSet relies on: how a
 * property key (a string or a number) becomes the string name an object
 * stores it under, and how `parseInt(k, 10)` decides whether a key name
 * "looks numeric" (section 19.2.5 of ECMA-262, 2022 edition).
 */
module JsKeys {

  datatype Option<T> = None | Some(value: T)

  /**
   * A TypeScript `PropertyKey`, restricted to strings and integral numbers
   * (symbols are not modelled).
   */
  datatype PropertyKey = Str(s: string) | Num(n: int)

  predicate IsDigit(c: char) {
    '0' <= c <= '9'
  }

  predicate IsSign(c: char) {
    c == '+' || c == '-'
  }

  predicate AllDigits(s: string) {
    forall i | 0 <= i < |s| :: IsDigit(s[i])
  }

  function DigitValue(c: char): (d: nat)
    requires IsDigit(c)
    ensures d < 10
  {
    c as int - '0' as int
  }

  function DigitChar(d: nat): (c: char)
    requires d < 10
    ensures IsDigit(c) && DigitValue(c) == d
  {
    ('0' as int + d) as char
  }

  /** The value of a run of decimal digits, most significant digit first. */
  function DigitsValue(s: string): nat
    requires AllDigits(s)
  {
    if s == [] then 0 else 10 * DigitsValue(s[..|s| - 1]) + DigitValue(s[|s| - 1])
  }

  /**
   * The decimal numeral of a non-negative integer, without leading zeros;
   * reading it back gives the integer.
   */
  function NatToDecimal(n: nat): (r: string)
    ensures r != [] && AllDigits(r)
    ensures r[0] == '0' ==> n == 0
    ensures DigitsValue(r) == n
    decreases n
  {
    if n < 10 then [DigitChar(n)]
    else
      var prefix := NatToDecimal(n / 10);
      var r := prefix + [DigitChar(n % 10)];
      assert r[..|r| - 1] == prefix;
      r
  }

  /**
   * Number::toString for an integral number: an optional minus sign and
   * the decimal digits of the magnitude.
   */
  function NumberToString(n: int): (r: string)
    ensures r != []
    ensures n >= 0 ==> r == NatToDecimal(n)
    ensures n < 0 ==> r[0] == '-' && r[1..] == NatToDecimal(-n)
  {
    if n < 0 then "-" + NatToDecimal(-n) else NatToDecimal(n)
  }

  /**
   * The string under which an object stores `key` (ToPropertyKey followed by
   * ToString): a string is its own name, a number its numeral.
   */
  function PropertyName(key: PropertyKey): (r: string)
    ensures key.Str? ==> r == key.s
    ensures key.Num? ==> StartsWithInteger(r)
  {
    match key
    case Str(s) => s
    case Num(n) =>
      ParseIntOfNumberToString(n);
      NumberToString(n)
  }

  /** StrWhiteSpaceChar: a WhiteSpace or LineTerminator code point. */
  predicate IsStrWhiteSpaceChar(c: char) {
    var u := c as int;
    || u == 0x0009 || u == 0x000B || u == 0x000C || u == 0xFEFF
    || u == 0x0020 || u == 0x00A0 || u == 0x1680 || 0x2000 <= u <= 0x200A
    || u == 0x202F || u == 0x205F || u == 0x3000
    || u == 0x000A || u == 0x000D || u == 0x2028 || u == 0x2029
  }

  predicate AllWhiteSpace(s: string) {
    forall i | 0 <= i < |s| :: IsStrWhiteSpaceChar(s[i])
  }

  /** The string with its leading white space removed (TrimString, start). */
  function TrimStart(s: string): (r: string)
    ensures |r| <= |s| && r == s[|s| - |r|..]
    ensures AllWhiteSpace(s[..|s| - |r|])
    ensures r == [] || !IsStrWhiteSpaceChar(r[0])
    decreases |s|
  {
    if s != [] && IsStrWhiteSpaceChar(s[0]) then
      var r := TrimStart(s[1..]);
      assert s[..|s| - |r|] == [s[0]] + s[1..][..|s| - 1 - |r|];
      r
    else s
  }

  /** The longest prefix of `s` made of decimal digits. */
  function DigitRun(s: string): (r: string)
    ensures |r| <= |s| && r == s[..|r|] && AllDigits(r)
    ensures |r| == |s| || !IsDigit(s[|r|])
    decreases |s|
  {
    if s != [] && IsDigit(s[0]) then [s[0]] + DigitRun(s[1..]) else []
  }

  /**
   * `parseInt(s, 10)`, with `None` standing for NaN: skip leading white
   * space, take one optional sign, then the longest run of decimal digits;
   * an empty run gives NaN. The value is the exact integer the digits spell
   * (the rounding to a double is not modelled).
   */
  function ParseInt10(s: string): (r: Option<int>)
    ensures r.Some? ==> StartsWithInteger(s)
    ensures s != [] && !IsStrWhiteSpaceChar(s[0]) && !IsSign(s[0]) && !IsDigit(s[0]) ==> r.None?
  {
    var t := TrimStart(s);
    var negative := t != [] && t[0] == '-';
    var unsigned := if t != [] && IsSign(t[0]) then t[1..] else t;
    var digits := DigitRun(unsigned);
    if digits == [] then None
    else
      var magnitude: int := DigitsValue(digits);
      Some(if negative then -magnitude else magnitude)
  }

  /**
   * The strings for which `isNaN(parseInt(s, 10))` is false: after some
   * white space comes a digit, or a sign followed by a digit.
   */
  ghost predicate StartsWithInteger(s: string) {
    exists i | 0 <= i < |s| ::
      && AllWhiteSpace(s[..i])
      && (IsDigit(s[i]) || (IsSign(s[i]) && i + 1 < |s| && IsDigit(s[i + 1])))
  }

  lemma DigitOrSignIsNotBlank(c: char)
    requires IsDigit(c) || IsSign(c)
    ensures !IsStrWhiteSpaceChar(c)
  {
  }

  /**
   * When the first non-blank character of `s` is at index `i`, trimming
   * removes exactly the first `i` characters.
   */
  lemma {:induction false} TrimStartAt(s: string, i: nat)
    requires i < |s| && AllWhiteSpace(s[..i]) && !IsStrWhiteSpaceChar(s[i])
    ensures TrimStart(s) == s[i..]
    decreases i
  {
    if i > 0 {
      assert IsStrWhiteSpaceChar(s[..i][0]);
      assert s[1..][..i - 1] == s[..i][1..];
      TrimStartAt(s[1..], i - 1);
      assert s[1..][i - 1..] == s[i..];
    }
  }

  /** A string that starts with an integer does not parse to NaN. */
  lemma StartsWithIntegerParses(s: string)
    requires StartsWithInteger(s)
    ensures ParseInt10(s).Some?
  {
    var i :| 0 <= i < |s| && AllWhiteSpace(s[..i])
      && (IsDigit(s[i]) || (IsSign(s[i]) && i + 1 < |s| && IsDigit(s[i + 1])));
    DigitOrSignIsNotBlank(s[i]);
    TrimStartAt(s, i);
    var t := s[i..];
    var unsigned := if IsSign(t[0]) then t[1..] else t;
    assert IsDigit(unsigned[0]);
    assert DigitRun(unsigned) != [];
  }

  /** `isNaN(parseInt(s, 10))` is false exactly when `s` starts with an integer. */
  lemma ParseIntIsNumberIff(s: string)
    ensures ParseInt10(s).Some? <==> StartsWithInteger(s)
  {
    if StartsWithInteger(s) {
      StartsWithIntegerParses(s);
    }
  }

  /** A run of digits is its own longest digit prefix. */
  lemma {:induction false} DigitRunOfDigits(s: string)
    requires AllDigits(s)
    ensures DigitRun(s) == s
    decreases |s|
  {
    if s != [] {
      assert AllDigits(s[1..]);
      DigitRunOfDigits(s[1..]);
    }
  }

  /** Every numeral Number::toString writes for an integer parses back to it. */
  lemma ParseIntOfNumberToString(n: int)
    ensures ParseInt10(NumberToString(n)) == Some(n)
  {
    var r := NumberToString(n);
    var digits := NatToDecimal(if n < 0 then -n else n);
    DigitOrSignIsNotBlank(r[0]);
    assert TrimStart(r) == r;
    var unsigned := if IsSign(r[0]) then r[1..] else r;
    assert unsigned == digits;
    DigitRunOfDigits(digits);
  }
}
