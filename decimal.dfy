/**
 * Numbers as JavaScript writes and reads them: `String(n)` for integers, `padStart`
 * with "0", and the global `parseInt` with no radix argument. Integers are
 * mathematical; doubles, precision loss past 2^53 and exponent notation are not modelled.
 */
module Decimal {
  import opened Wrappers
  import opened JsString

  type Radix = r: nat | r == 10 || r == 16 witness 10

  /** `\d` in a JavaScript regular expression: ASCII 0-9 only. */
  predicate IsDigit(c: char) {
    '0' <= c <= '9'
  }

  predicate IsRadixDigit(c: char, radix: Radix) {
    IsDigit(c) || (radix == 16 && ('a' <= c <= 'f' || 'A' <= c <= 'F'))
  }

  predicate AllDigits(s: string) {
    forall i :: 0 <= i < |s| ==> IsDigit(s[i])
  }

  predicate AllRadixDigits(s: string, radix: Radix) {
    if radix == 10 then AllDigits(s) else forall i :: 0 <= i < |s| ==> IsRadixDigit(s[i], radix)
  }

  function DigitValue(c: char, radix: Radix): (d: nat)
    requires IsRadixDigit(c, radix)
    ensures d < radix
  {
    if IsDigit(c) then c as int - '0' as int
    else if 'a' <= c <= 'f' then c as int - 'a' as int + 10
    else c as int - 'A' as int + 10
  }

  function DigitChar(d: nat): (c: char)
    requires d < 10
    ensures IsDigit(c) && DigitValue(c, 10) == d
  {
    ('0' as int + d) as char
  }

  /** The value of a run of digits, most significant first. */
  function Value(s: string, radix: Radix): nat
    requires AllRadixDigits(s, radix)
  {
    if s == [] then 0 else Value(s[..|s| - 1], radix) * radix + DigitValue(s[|s| - 1], radix)
  }

  /** `String(n)` for a non-negative integer: decimal, no leading zero. */
  function ToDecimal(n: nat): (s: string)
    ensures |s| >= 1 && AllDigits(s)
    ensures s[0] == '0' ==> n == 0
  {
    if n < 10 then [DigitChar(n)] else ToDecimal(n / 10) + [DigitChar(n % 10)]
  }

  function Zeros(k: nat): (z: string)
    ensures |z| == k && forall i :: 0 <= i < k ==> z[i] == '0'
  {
    if k == 0 then [] else Zeros(k - 1) + ['0']
  }

  /** `s.padStart(width, "0")`: a minimum width, never a truncation. */
  function PadStart(s: string, width: nat): (r: string)
    ensures |r| == if |s| >= width then |s| else width
    ensures forall i :: 0 <= i < |r| - |s| ==> r[i] == '0'
  {
    if |s| >= width then s else Zeros(width - |s|) + s
  }

  /** `padStart` keeps the whole of `s` as the tail of its result. */
  lemma PadStartTail(s: string, width: nat)
    ensures var r := PadStart(s, width); r[|r| - |s|..] == s
  {
    if |s| < width {
      var z := Zeros(width - |s|);
      assert (z + s)[|z|..] == s;
    }
  }

  lemma AllDigitsRadix(s: string)
    requires AllDigits(s)
    ensures AllRadixDigits(s, 10)
  {
  }

  /** Reading back what `String(n)` writes gives `n`. */
  lemma {:induction false} ValueOfToDecimal(n: nat)
    ensures AllRadixDigits(ToDecimal(n), 10) && Value(ToDecimal(n), 10) == n
  {
    var s := ToDecimal(n);
    if n >= 10 {
      ValueOfToDecimal(n / 10);
      assert s[..|s| - 1] == ToDecimal(n / 10);
    }
  }

  /** Leading zeros do not change the value of a digit run. */
  lemma {:induction false} ValueAfterZeros(k: nat, s: string)
    requires AllDigits(s)
    ensures AllRadixDigits(Zeros(k) + s, 10) && Value(Zeros(k) + s, 10) == Value(s, 10)
  {
    var t := Zeros(k) + s;
    if s == [] {
      if k > 0 {
        assert t[..|t| - 1] == Zeros(k - 1) + [];
        ValueAfterZeros(k - 1, []);
      }
    } else {
      assert t[..|t| - 1] == Zeros(k) + s[..|s| - 1];
      ValueAfterZeros(k, s[..|s| - 1]);
    }
  }

  /** A digit run that starts with a non-zero digit has a non-zero value. */
  lemma {:induction false} LeadingNonZeroPositive(s: string)
    requires AllDigits(s) && s != [] && s[0] != '0'
    ensures Value(s, 10) > 0
  {
    if |s| > 1 {
      LeadingNonZeroPositive(s[..|s| - 1]);
    }
  }

  /** `String(parseInt(s))` gives `s` back when `s` has no leading zero. */
  lemma {:induction false} ToDecimalOfValue(s: string)
    requires AllDigits(s) && s != [] && (s[0] != '0' || |s| == 1)
    ensures ToDecimal(Value(s, 10)) == s
  {
    if |s| > 1 {
      var e := s[..|s| - 1];
      LeadingNonZeroPositive(e);
      ToDecimalOfValue(e);
      assert s == e + [s[|s| - 1]];
    }
  }

  /** Number of leading '0' characters. */
  function LeadingZeros(s: string): (k: nat)
    ensures k <= |s| && forall i :: 0 <= i < k ==> s[i] == '0'
    ensures k < |s| ==> s[k] != '0'
  {
    if s == [] || s[0] != '0' then 0 else 1 + LeadingZeros(s[1..])
  }

  /**
   * Padding `String(parseInt(d))` back to the width of `d` restores `d` exactly:
   * the leading zeros that `parseInt` drops are the ones `padStart` puts back.
   */
  lemma PadStartRestoresDigits(d: string)
    requires AllDigits(d) && d != []
    ensures PadStart(ToDecimal(Value(d, 10)), |d|) == d
  {
    var k := LeadingZeros(d);
    if k == |d| {
      PadStartRestoresZeros(d);
    } else {
      var rest := d[k..];
      assert d == Zeros(k) + rest;
      ValueAfterZeros(k, rest);
      ToDecimalOfValue(rest);
    }
  }

  lemma PadStartRestoresZeros(d: string)
    requires AllDigits(d) && d != [] && LeadingZeros(d) == |d|
    ensures PadStart(ToDecimal(Value(d, 10)), |d|) == d
  {
    var z := Zeros(|d| - 1);
    assert Value(d, 10) == 0 by {
      assert d == z + "0";
      ValueAfterZeros(|d| - 1, "0");
    }
    assert ToDecimal(0) == "0";
    assert d == z + "0";
  }

  /**
   * The padded decimal form of `n`: all digits, at least `width` long, exactly as long
   * as `String(n)` when that is longer, and it reads back as `n`.
   */
  lemma PaddedDecimal(n: nat, width: nat)
    ensures var p := PadStart(ToDecimal(n), width);
      && AllDigits(p)
      && |p| == (if |ToDecimal(n)| > width then |ToDecimal(n)| else width)
      && Value(p, 10) == n
  {
    var s := ToDecimal(n);
    ValueOfToDecimal(n);
    if |s| < width {
      ValueAfterZeros(width - |s|, s);
    }
  }

  /** Number of leading digits of the given radix. */
  function DigitRun(s: string, radix: Radix): (k: nat)
    ensures k <= |s| && AllRadixDigits(s[..k], radix)
    ensures k < |s| ==> !IsRadixDigit(s[k], radix)
  {
    if s == [] || !IsRadixDigit(s[0], radix) then 0
    else
      var k := 1 + DigitRun(s[1..], radix);
      assert s[..k] == [s[0]] + s[1..][..k - 1];
      k
  }

  /** The digit run of `u` ends exactly where the decimal digits end. */
  lemma {:induction false} DigitRunExact(u: string, n: nat)
    requires n <= |u| && (forall i :: 0 <= i < n ==> IsDigit(u[i]))
    requires n == |u| || !IsDigit(u[n])
    ensures DigitRun(u, 10) == n
  {
    if n > 0 {
      DigitRunExact(u[1..], n - 1);
    }
  }

  /** A JavaScript number as far as the model needs it: an integer or NaN. */
  datatype Number = NaN | Int(value: int)

  predicate HasHexPrefix(u: string) {
    |u| >= 2 && u[0] == '0' && (u[1] == 'x' || u[1] == 'X')
  }

  /**
   * The unsigned part of `parseInt`: a "0x"/"0X" prefix switches to base 16, then the
   * longest run of digits is read; an empty run is no number at all.
   */
  function ParseUnsigned(u: string): (r: Option<nat>)
    ensures !HasHexPrefix(u) ==> (r.None? <==> (u == [] || !IsDigit(u[0])))
  {
    var radix: Radix := if HasHexPrefix(u) then 16 else 10;
    var body := if HasHexPrefix(u) then u[2..] else u;
    var k := DigitRun(body, radix);
    if k == 0 then None else Some(Value(body[..k], radix))
  }

  /**
   * The global `parseInt(v)` without a radix. An absent argument (`undefined`) reads as
   * "undefined" and gives NaN. Otherwise leading white space is skipped and one sign
   * is taken before the unsigned part is read.
   */
  function ParseInt(v: Option<string>): (r: Number)
    ensures v.None? ==> r == NaN
  {
    if v.None? then NaN
    else
      var s := TrimStart(v.value);
      var signed := s != [] && (s[0] == '-' || s[0] == '+');
      var magnitude := ParseUnsigned(if signed then s[1..] else s);
      if magnitude.None? then NaN
      else if signed && s[0] == '-' then Int(0 - magnitude.value)
      else Int(magnitude.value)
  }

  /** `String(n)` for any integer. */
  function IntToString(n: int): (s: string)
    ensures s != []
  {
    if n < 0 then "-" + ToDecimal(-n) else ToDecimal(n)
  }

  /** A character that ends a decimal digit run without turning "0" into a hex prefix. */
  predicate EndsDigitRun(rest: string) {
    rest == [] || (!IsDigit(rest[0]) && rest[0] != 'x' && rest[0] != 'X')
  }

  /** On canonical decimal digits followed by a terminator, the unsigned part reads the digits. */
  lemma ParseUnsignedDigits(d: string, rest: string)
    requires AllDigits(d) && d != [] && (d[0] != '0' || |d| == 1)
    requires EndsDigitRun(rest)
    ensures ParseUnsigned(d + rest) == Some(Value(d, 10))
  {
    var u := d + rest;
    assert !HasHexPrefix(u) by {
      if |u| >= 2 && u[0] == '0' {
        assert |d| == 1;
        assert u[1] == rest[0];
      }
    }
    DigitRunExact(u, |d|);
    assert u[..|d|] == d;
  }

  /** `parseInt` of an unsigned part that starts with a digit. */
  lemma ParseIntUnsigned(u: string, m: nat)
    requires u != [] && IsDigit(u[0]) && ParseUnsigned(u) == Some(m)
    ensures ParseInt(Some(u)) == Int(m)
  {
    assert !IsSpace(u[0]);
    TrimStartNoSpace(u);
  }

  /** `parseInt` of a minus sign followed by an unsigned part that starts with a digit. */
  lemma ParseIntNegative(u: string, m: nat)
    requires u != [] && IsDigit(u[0]) && ParseUnsigned(u) == Some(m)
    ensures ParseInt(Some("-" + u)) == Int(0 - m)
  {
    var s := "-" + u;
    assert !IsSpace(s[0]);
    TrimStartNoSpace(s);
    assert s[1..] == u;
  }

  /**
   * `parseInt` reads back what `String` writes, and stops at the first character
   * that cannot continue the digit run.
   */
  lemma ParseIntOfIntToString(n: int, rest: string)
    requires EndsDigitRun(rest)
    ensures ParseInt(Some(IntToString(n) + rest)) == Int(n)
  {
    var m: nat := if n < 0 then -n else n;
    var d := ToDecimal(m);
    assert ParseUnsigned(d + rest) == Some(m) by {
      ValueOfToDecimal(m);
      ParseUnsignedDigits(d, rest);
    }
    if n < 0 {
      ParseIntNegative(d + rest, m);
      assert IntToString(n) + rest == "-" + (d + rest);
    } else {
      ParseIntUnsigned(d + rest, m);
    }
  }

  /** On a non-empty run of decimal digits, `parseInt` is `Value`, leading zeros included. */
  lemma ParseIntOfDigits(d: string)
    requires AllDigits(d) && d != []
    ensures ParseInt(Some(d)) == Int(Value(d, 10))
  {
    assert ParseUnsigned(d) == Some(Value(d, 10)) by {
      assert !HasHexPrefix(d) by {
        if |d| >= 2 { assert IsDigit(d[1]); }
      }
      DigitRunExact(d, |d|);
      assert d[..|d|] == d;
    }
    ParseIntUnsigned(d, Value(d, 10));
  }
}
