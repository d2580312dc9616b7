/**
 * `parseInt(string)` with no radix, as ECMAScript defines it: leading
 * whitespace is skipped, one sign is read, a `0x`/`0X` prefix selects radix 16
 * (radix 10 otherwise), and the longest run of digits that follows is the
 * value; no digit at all gives NaN. NaN is `None`; +0 and -0 are both `Some(0)`.
 */
module JsNumber {
  import opened Wrappers
  import opened JsText

  /** The value of `c` read as a digit of radix up to 36; 36 when `c` is no such digit. */
  function DigitValue(c: char): (d: nat)
    ensures d <= 36
    ensures d < 10 <==> '0' <= c <= '9'
  {
    if '0' <= c <= '9' then c as int - '0' as int
    else if 'a' <= c <= 'z' then c as int - 'a' as int + 10
    else if 'A' <= c <= 'Z' then c as int - 'A' as int + 10
    else 36
  }

  /** The length of the longest prefix of `s` made of digits of `radix`. */
  function DigitRun(s: string, radix: nat): (n: nat)
    ensures n <= |s|
    ensures forall i :: 0 <= i < n ==> DigitValue(s[i]) < radix
    ensures n < |s| ==> DigitValue(s[n]) >= radix
  {
    if s != [] && DigitValue(s[0]) < radix then 1 + DigitRun(s[1..], radix) else 0
  }

  /** The number a digit string denotes in `radix`, most significant digit first. */
  function DigitsValue(ds: string, radix: nat): nat {
    if ds == [] then 0 else DigitsValue(ds[..|ds| - 1], radix) * radix + DigitValue(ds[|ds| - 1])
  }

  /** Whether `u` starts with the `0x` or `0X` prefix that selects radix 16. */
  predicate HasHexPrefix(u: string) {
    |u| >= 2 && u[0] == '0' && (u[1] == 'x' || u[1] == 'X')
  }

  /** The magnitude `parseInt` reads from the text after the sign; `None` when no digit follows. */
  function ParseMagnitude(u: string): Option<nat> {
    var radix := if HasHexPrefix(u) then 16 else 10;
    var digits := if HasHexPrefix(u) then u[2..] else u;
    var n := DigitRun(digits, radix);
    if n == 0 then None else Some(DigitsValue(digits[..n], radix))
  }

  /** `parseInt(s)`. */
  function ParseInt(s: string): (r: Option<int>)
    ensures r.Some? ==> TrimStart(s) != [] && (r.value < 0 ==> TrimStart(s)[0] == '-')
    ensures r.Some? && TrimStart(s)[0] != '-' && TrimStart(s)[0] != '+' ==> DigitValue(TrimStart(s)[0]) < 10
  {
    var t := TrimStart(s);
    var negative := t != [] && t[0] == '-';
    var unsigned := if t != [] && (t[0] == '-' || t[0] == '+') then t[1..] else t;
    match ParseMagnitude(unsigned)
    case None => None
    case Some(m) => Some(if negative then 0 - m as int else m as int)
  }

  /** The decimal digit character for `d`. */
  function DigitChar(d: nat): (c: char)
    requires d < 10
    ensures DigitValue(c) == d
  {
    (d + '0' as int) as char
  }

  /** The decimal numeral of `n`, without sign or leading zeros: what `String(n)` gives. */
  function Decimal(n: nat): (s: string)
    ensures |s| >= 1
    ensures forall i :: 0 <= i < |s| ==> DigitValue(s[i]) < 10
  {
    if n < 10 then [DigitChar(n)] else Decimal(n / 10) + [DigitChar(n % 10)]
  }

  /** Reading back a decimal numeral gives the number. */
  lemma {:induction false} DecimalValue(n: nat)
    ensures DigitsValue(Decimal(n), 10) == n
  {
    if n >= 10 {
      var s := Decimal(n);
      DecimalValue(n / 10);
      assert s[..|s| - 1] == Decimal(n / 10);
    }
  }

  /** A run of digits stops exactly where the digits stop. */
  lemma {:induction false} DigitRunOf(ds: string, rest: string, radix: nat)
    requires forall i :: 0 <= i < |ds| ==> DigitValue(ds[i]) < radix
    requires rest == [] || DigitValue(rest[0]) >= radix
    ensures DigitRun(ds + rest, radix) == |ds|
  {
    if ds != [] {
      DigitRunOf(ds[1..], rest, radix);
      assert (ds + rest)[1..] == ds[1..] + rest;
    }
  }

  /** The magnitude read from a decimal numeral followed by non-digit text is the numeral's value. */
  lemma {:induction false} MagnitudeOfDecimal(n: nat, rest: string)
    requires rest == [] || (DigitValue(rest[0]) >= 10 && rest[0] != 'x' && rest[0] != 'X')
    ensures ParseMagnitude(Decimal(n) + rest) == Some(n)
  {
    var d := Decimal(n);
    var s := d + rest;
    assert !HasHexPrefix(s) by {
      if |s| >= 2 {
        if |d| >= 2 { assert s[1] == d[1]; } else { assert s[1] == rest[0]; }
      }
    }
    DigitRunOf(d, rest, 10);
    DecimalValue(n);
    assert s[..|d|] == d;
  }

  /** Text that starts with a digit is read by `parseInt` without whitespace or sign handling. */
  lemma ParseIntFromDigit(s: string)
    requires s != [] && '0' <= s[0] <= '9'
    ensures ParseInt(s) == ParseMagnitude(s)
  {
    assert !IsJsSpace(s[0]);
    TrimStartKeeps(s);
  }

  /** A leading minus sign negates what `parseInt` reads from the rest. */
  lemma ParseIntMinus(s: string, n: nat)
    requires ParseMagnitude(s) == Some(n)
    ensures ParseInt("-" + s) == Some(0 - n as int)
  {
    var m := "-" + s;
    assert m[0] == '-';
    TrimStartKeeps(m);
    assert m[1..] == s;
  }

  /** `parseInt` reads back a decimal numeral and ignores the non-digit text after it (`parseInt("12abc") == 12`). */
  lemma {:induction false} ParseIntDecimal(n: nat, rest: string)
    requires rest == [] || (DigitValue(rest[0]) >= 10 && rest[0] != 'x' && rest[0] != 'X')
    ensures ParseInt(Decimal(n) + rest) == Some(n)
  {
    var s := Decimal(n) + rest;
    MagnitudeOfDecimal(n, rest);
    assert DigitValue(s[0]) < 10;
    ParseIntFromDigit(s);
  }

  /** `parseInt` reads back a negative decimal numeral the same way. */
  lemma {:induction false} ParseIntNegative(n: nat, rest: string)
    requires rest == [] || (DigitValue(rest[0]) >= 10 && rest[0] != 'x' && rest[0] != 'X')
    ensures ParseInt("-" + (Decimal(n) + rest)) == Some(0 - n as int)
  {
    MagnitudeOfDecimal(n, rest);
    ParseIntMinus(Decimal(n) + rest, n);
  }

  /** Text that does not begin (after whitespace and a sign) with a digit parses to NaN. */
  lemma ParseIntNaN(s: string)
    requires var t := TrimStart(s);
             var u := if t != [] && (t[0] == '-' || t[0] == '+') then t[1..] else t;
             u == [] || DigitValue(u[0]) >= 10
    ensures ParseInt(s) == None
  {
  }
}
