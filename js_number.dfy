/** Decimal numbers as JavaScript reads and writes them: `String(n)` for integers,
    `parseInt(s)` in base 10 and `parseFloat(s)` for plain decimal notation. */
module JsNumber {
  import opened Wrappers
  import JsString

  predicate IsDigit(c: char) {
    '0' <= c <= '9'
  }

  predicate AllDigits(s: string) {
    forall i :: 0 <= i < |s| ==> IsDigit(s[i])
  }

  function DigitValue(c: char): (d: nat)
    requires IsDigit(c)
    ensures d < 10
  {
    c as int - '0' as int
  }

  function DigitChar(d: nat): (c: char)
    requires d < 10
    ensures IsDigit(c) && DigitValue(c) == d
  {
    ('0' as int + d) as char
  }

  /** The value of a run of decimal digits, leading zeros allowed. */
  function DigitsValue(s: string): nat
    requires AllDigits(s)
  {
    if s == [] then 0 else 10 * DigitsValue(s[..|s| - 1]) + DigitValue(s[|s| - 1])
  }

  function Pow10(n: nat): (r: nat)
    ensures r >= 1
  {
    if n == 0 then 1 else 10 * Pow10(n - 1)
  }

  /** `String(n)` for a natural number: decimal digits without a leading zero,
      which read back as `n`. */
  function NatToString(n: nat): (r: string)
    ensures |r| >= 1 && AllDigits(r)
    ensures |r| > 1 ==> r[0] != '0'
    ensures DigitsValue(r) == n
    decreases n
  {
    if n < 10 then [DigitChar(n)]
    else
      var r := NatToString(n / 10) + [DigitChar(n % 10)];
      assert r[..|r| - 1] == NatToString(n / 10);
      r
  }

  /** A number below 10^k takes at most k digits. */
  lemma {:induction false} NatToStringLength(n: nat, k: nat)
    requires k >= 1 && n < Pow10(k)
    ensures |NatToString(n)| <= k
    decreases n
  {
    if n >= 10 {
      NatToStringLength(n / 10, k - 1);
    }
  }

  /** `String(n)` for an integer. */
  function IntToString(n: int): string {
    if n < 0 then "-" + NatToString(-n) else NatToString(n)
  }

  /** The longest prefix of `s` made of digits. */
  function DigitPrefix(s: string): (r: string)
    ensures AllDigits(r) && r <= s
    ensures |r| == |s| || !IsDigit(s[|r|])
  {
    if |s| > 0 && IsDigit(s[0]) then [s[0]] + DigitPrefix(s[1..]) else ""
  }

  /** The digit prefix of `d + rest` is `d` when `rest` does not go on with a digit. */
  lemma {:induction false} DigitPrefixOf(d: string, rest: string)
    requires AllDigits(d)
    requires rest == [] || !IsDigit(rest[0])
    ensures DigitPrefix(d + rest) == d
    decreases |d|
  {
    if |d| > 0 {
      assert (d + rest)[1..] == d[1..] + rest;
      DigitPrefixOf(d[1..], rest);
      assert [d[0]] + d[1..] == d;
    }
  }

  /** The sign and the text after it, as `parseInt` and `parseFloat` split them. */
  function SignAndBody(s: string): (bool, string) {
    var t := JsString.TrimStart(s);
    if |t| > 0 && t[0] == '-' then (true, t[1..])
    else if |t| > 0 && t[0] == '+' then (false, t[1..])
    else (false, t)
  }

  /** `parseInt(s)` with the default base 10; None stands for NaN. */
  function ParseInt(s: string): Option<int> {
    var (negative, body) := SignAndBody(s);
    var digits := DigitPrefix(body);
    if digits == [] then None
    else Some(if negative then -(DigitsValue(digits) as int) else DigitsValue(digits))
  }

  /** `parseFloat(s)` for an optional sign, digits and an optional fraction; None stands for NaN. */
  function ParseFloat(s: string): Option<real> {
    var (negative, body) := SignAndBody(s);
    var whole := DigitPrefix(body);
    var rest := body[|whole|..];
    var fraction := if |rest| > 0 && rest[0] == '.' then DigitPrefix(rest[1..]) else "";
    if whole == [] && fraction == [] then None
    else
      var magnitude := DigitsValue(whole) as real + DigitsValue(fraction) as real / Pow10(|fraction|) as real;
      Some(if negative then -magnitude else magnitude)
  }

  lemma DigitOrSignIsNotWhitespace(c: char)
    requires IsDigit(c) || c == '-'
    ensures !JsString.IsWhitespace(c)
  {
  }

  lemma SignAndBodyOfString(n: int)
    ensures SignAndBody(IntToString(n)) == (n < 0, NatToString(if n < 0 then -n else n))
  {
    var s := IntToString(n);
    var d := NatToString(if n < 0 then -n else n);
    DigitOrSignIsNotWhitespace(s[0]);
    assert JsString.TrimStart(s) == s;
    if n < 0 {
      assert s[0] == '-' && s[1..] == d;
    } else {
      assert s == d && s[0] != '-' && s[0] != '+';
    }
  }

  /** `parseInt(String(n)) == n`. */
  lemma ParseIntOfString(n: int)
    ensures ParseInt(IntToString(n)) == Some(n)
  {
    var m := if n < 0 then -n else n;
    SignAndBodyOfString(n);
    DigitPrefixOf(NatToString(m), "");
    assert NatToString(m) + "" == NatToString(m);
  }

  /** `parseFloat(String(n)) == n`. */
  lemma ParseFloatOfString(n: int)
    ensures ParseFloat(IntToString(n)) == Some(n as real)
  {
    var m := if n < 0 then -n else n;
    SignAndBodyOfString(n);
    DigitPrefixOf(NatToString(m), "");
    assert NatToString(m) + "" == NatToString(m);
  }

  /** `parseInt` stops at the decimal point: `parseInt("a.b") == a`. */
  lemma ParseIntTruncates(a: nat, b: nat)
    ensures ParseInt(NatToString(a) + "." + NatToString(b)) == Some(a)
  {
    var d := NatToString(a);
    var rest := "." + NatToString(b);
    var s := d + rest;
    assert s == NatToString(a) + "." + NatToString(b);
    assert s[0] == d[0];
    DigitOrSignIsNotWhitespace(s[0]);
    assert JsString.TrimStart(s) == s;
    assert SignAndBody(s) == (false, s);
    DigitPrefixOf(d, rest);
  }

  function Zeros(k: nat): (r: string)
    ensures |r| == k && AllDigits(r)
  {
    if k == 0 then "" else "0" + Zeros(k - 1)
  }

  lemma {:induction false} ZerosValue(k: nat)
    ensures DigitsValue(Zeros(k)) == 0
  {
    if k > 0 {
      assert Zeros(k)[..k - 1] == Zeros(k - 1) by {
        if k > 1 {
          ZerosShift(k - 1);
        }
      }
      ZerosValue(k - 1);
    }
  }

  lemma {:induction false} ZerosShift(k: nat)
    ensures Zeros(k) + "0" == "0" + Zeros(k)
  {
    if k > 0 {
      ZerosShift(k - 1);
    }
  }

  /** Leading zeros do not change the value of a digit run. */
  lemma {:induction false} LeadingZeros(k: nat, d: string)
    requires AllDigits(d)
    ensures AllDigits(Zeros(k) + d) && DigitsValue(Zeros(k) + d) == DigitsValue(d)
    decreases |d|
  {
    var s := Zeros(k) + d;
    if d == [] {
      assert s == Zeros(k);
      ZerosValue(k);
    } else {
      assert s[..|s| - 1] == Zeros(k) + d[..|d| - 1];
      LeadingZeros(k, d[..|d| - 1]);
    }
  }

  /** `n` written with at least `width` digits, zero-padded on the left
      (`String(n).padStart(width, "0")`). */
  function Pad(n: nat, width: nat): (r: string)
    ensures AllDigits(r) && DigitsValue(r) == n
    ensures |r| == if |NatToString(n)| < width then width else |NatToString(n)|
  {
    var digits := NatToString(n);
    if |digits| >= width then digits
    else
      LeadingZeros(width - |digits|, digits);
      Zeros(width - |digits|) + digits
  }

  /** A number below 10^width is padded to exactly `width` digits. */
  lemma PadWidth(n: nat, width: nat)
    requires width >= 1 && n < Pow10(width)
    ensures |Pad(n, width)| == width
  {
    NatToStringLength(n, width);
  }
}
