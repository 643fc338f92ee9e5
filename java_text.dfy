/**
 * The text conversions of the Java platform that the core relies on:
 * `Integer.toString`, the `%03d` conversion of `String.format`, and `String.hashCode`.
 */
module JavaText {
  import opened Wrappers
  import opened JavaTypes

  predicate IsDigit(ch: char) {
    '0' <= ch <= '9'
  }

  predicate AllDigits(s: string) {
    forall i :: 0 <= i < |s| ==> IsDigit(s[i])
  }

  function DigitChar(d: nat): (ch: char)
    requires d < 10
    ensures IsDigit(ch)
  {
    ('0' as int + d) as char
  }

  function DigitValue(ch: char): (d: nat)
    requires IsDigit(ch)
    ensures d < 10 && DigitChar(d) == ch
  {
    ch as int - '0' as int
  }

  /** The decimal digits of `n` without leading zeros ("0" for zero). */
  function Digits(n: nat): (s: string)
    ensures |s| >= 1 && AllDigits(s)
    ensures n > 0 ==> s[0] != '0'
    decreases n
  {
    if n < 10 then [DigitChar(n)] else Digits(n / 10) + [DigitChar(n % 10)]
  }

  /** The value of a string of decimal digits, most significant first; "" reads as 0. */
  function ValueOf(s: string): nat
    requires AllDigits(s)
  {
    if s == [] then 0 else ValueOf(s[..|s| - 1]) * 10 + DigitValue(s[|s| - 1])
  }

  /** Reading back the digits of `n` gives `n`. */
  lemma {:induction false} ValueOfDigits(n: nat)
    ensures ValueOf(Digits(n)) == n
    decreases n
  {
    var s := Digits(n);
    if n >= 10 {
      assert s[..|s| - 1] == Digits(n / 10);
      ValueOfDigits(n / 10);
    }
  }

  function Zeros(k: nat): (z: string)
    ensures |z| == k && AllDigits(z)
    ensures forall i :: 0 <= i < k ==> z[i] == '0'
  {
    seq(k, _ => '0')
  }

  /** Leading zeros do not change the value of a digit string. */
  lemma {:induction false} ValueOfLeadingZeros(k: nat, s: string)
    requires AllDigits(s)
    ensures ValueOf(Zeros(k) + s) == ValueOf(s)
    decreases |s|, k
  {
    if s == [] {
      assert Zeros(k) + s == Zeros(k);
      if k > 0 {
        assert Zeros(k)[..k - 1] == Zeros(k - 1);
        ValueOfLeadingZeros(k - 1, s);
        assert Zeros(k - 1) + s == Zeros(k - 1);
      }
    } else {
      var t := Zeros(k) + s;
      assert t[..|t| - 1] == Zeros(k) + s[..|s| - 1];
      ValueOfLeadingZeros(k, s[..|s| - 1]);
    }
  }

  /** `s` padded on the left with '0' to at least `width` characters. */
  function ZeroPad(s: string, width: nat): (r: string)
    ensures |r| == if |s| >= width then |s| else width
    ensures AllDigits(s) ==> AllDigits(r)
  {
    if |s| >= width then s else Zeros(width - |s|) + s
  }

  /**
   * The conversion `%03d` of `String.format` for a non-negative `n`: its decimal
   * digits, zero-padded on the left to at least three characters, never truncated.
   */
  function Format03d(n: nat): (s: string)
    ensures |s| == if n < 1000 then 3 else |Digits(n)|
    ensures AllDigits(s)
  {
    DigitsLength(n);
    ZeroPad(Digits(n), 3)
  }

  /** `Digits(n)` has at most three characters exactly when `n < 1000`. */
  lemma {:induction false} DigitsLength(n: nat)
    ensures n < 10 ==> |Digits(n)| == 1
    ensures 10 <= n < 100 ==> |Digits(n)| == 2
    ensures 100 <= n < 1000 ==> |Digits(n)| == 3
    ensures n >= 1000 ==> |Digits(n)| > 3
    decreases n
  {
    if n >= 10 {
      DigitsLength(n / 10);
    }
  }

  /** A string of one or more decimal digits, read as a number; anything else is `None`. */
  function ParseNat(s: string): (r: Option<nat>)
    ensures r.Some? <==> s != [] && AllDigits(s)
  {
    if s != [] && AllDigits(s) then Some(ValueOf(s)) else None
  }

  /** The `%03d` conversion is undone by `ParseNat`, so no two numbers format alike. */
  lemma Format03dRoundTrip(n: nat)
    ensures ParseNat(Format03d(n)) == Some(n)
  {
    var d := Digits(n);
    ValueOfDigits(n);
    if |d| < 3 {
      ValueOfLeadingZeros(3 - |d|, d);
    }
  }

  /** `Integer.toString(i)`: a '-' sign for negative values, then the digits of the magnitude. */
  function IntToString(i: int): (s: string)
    ensures |s| >= 1
    ensures i >= 0 ==> AllDigits(s)
    ensures i < 0 ==> s[0] == '-' && AllDigits(s[1..])
  {
    if i < 0 then "-" + Digits(-i) else Digits(i)
  }

  /** An optional '-' followed by one or more decimal digits, read as an integer. */
  function ParseInt(s: string): (r: Option<int>)
    ensures s == [] ==> r == None
  {
    if |s| >= 1 && s[0] == '-' then
      match ParseNat(s[1..])
      case Some(n) => Some(-(n as int))
      case None => None
    else
      match ParseNat(s)
      case Some(n) => Some(n as int)
      case None => None
  }

  /** `ParseInt` undoes `IntToString` for every integer, so `IntToString` is injective. */
  lemma IntToStringRoundTrip(i: int)
    ensures ParseInt(IntToString(i)) == Some(i)
  {
    if i < 0 {
      assert IntToString(i)[1..] == Digits(-i);
      ValueOfDigits(-i);
    } else {
      assert IsDigit(IntToString(i)[0]);
      ValueOfDigits(i);
    }
  }

  /** The UTF-16 code units of one character, as a Java `String` stores it. */
  function Utf16Units(ch: char): (units: seq<int>)
    ensures 1 <= |units| <= 2
    ensures forall k :: 0 <= k < |units| ==> 0 <= units[k] < 0x1_0000
  {
    var v := ch as int;
    if v < 0x1_0000 then [v]
    else [0xD800 + (v - 0x1_0000) / 0x400, 0xDC00 + (v - 0x1_0000) % 0x400]
  }

  function Utf16(s: string): seq<int> {
    if s == [] then [] else Utf16(s[..|s| - 1]) + Utf16Units(s[|s| - 1])
  }

  /** `h = 31 * h + unit` over the code units, in `int` arithmetic. */
  function HashOfUnits(units: seq<int>): int32 {
    if units == [] then 0
    else Wrap32(31 * HashOfUnits(units[..|units| - 1]) + units[|units| - 1])
  }

  /** `String.hashCode()`: the polynomial hash with base 31 over the UTF-16 code units. */
  function HashCode(s: string): (h: int32)
    ensures s == [] ==> h == 0
    ensures |s| == 1 && (s[0] as int) < 0x1_0000 ==> h == s[0] as int
  {
    assert |s| == 1 && (s[0] as int) < 0x1_0000 ==> HashOfUnits(Utf16(s)) == s[0] as int by {
      if |s| == 1 && (s[0] as int) < 0x1_0000 {
        assert s == [s[0]];
        HashOfOneChar(s[0]);
      }
    }
    HashOfUnits(Utf16(s))
  }

  lemma HashOfOneChar(c: char)
    requires (c as int) < 0x1_0000
    ensures HashOfUnits(Utf16([c])) == c as int
  {
  }

  /**
   * Appending a character of the Basic Multilingual Plane takes one step of the
   * recurrence `h = 31 * h + c`, wrapped to `int`.
   */
  lemma HashCodeAppend(s: string, c: char)
    requires (c as int) < 0x1_0000
    ensures HashCode(s + [c]) == Wrap32(31 * HashCode(s) + c as int)
  {
  }
}
