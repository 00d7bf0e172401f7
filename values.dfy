/** The Python values a record field can hold once it leaves the database or a
    DataFrame, and the conversions the cleaners apply to them: truthiness,
    `pd.isna`, `str(...)`, `float(...)` and `int(...)`. */
module PyValues {
  import opened Wrappers
  import opened Text

  /** A calendar date (`datetime.date`). */
  datatype Date = Date(year: int, month: int, day: int)

  predicate IsLeapYear(y: int) {
    y % 4 == 0 && (y % 100 != 0 || y % 400 == 0)
  }

  function DaysInMonth(y: int, m: int): int {
    if m == 2 then (if IsLeapYear(y) then 29 else 28)
    else if m == 4 || m == 6 || m == 9 || m == 11 then 30
    else 31
  }

  /** The range `datetime.date` accepts. */
  predicate ValidDate(d: Date) {
    1 <= d.year <= 9999 && 1 <= d.month <= 12 && 1 <= d.day <= DaysInMonth(d.year, d.month)
  }

  /** A field value: `None`, a float NaN, a `str`, an `int`, a finite `float`
      or a date. A float is the real number it denotes together with the text
      `str()` renders it as (Python's shortest round-trip `repr`, taken as
      given). */
  datatype Value = Null | Nan | Str(s: string) | Int(i: int) | Float(x: real, repr: string) | Day(d: Date)

  /** `pd.isna(v)` */
  predicate IsNa(v: Value) {
    v.Null? || v.Nan?
  }

  /** `not v`: None, the empty string and numeric zero are falsy; NaN is truthy. */
  predicate IsFalsy(v: Value) {
    v == Null || v == Str("") || v == Int(0) || (v.Float? && v.x == 0.0)
  }

  // ---------------------------------------------------------------------------
  // Decimal digits

  predicate IsDigit(c: char) {
    '0' <= c <= '9'
  }

  predicate AllDigits(s: string) {
    forall i :: 0 <= i < |s| ==> IsDigit(s[i])
  }

  function DigitChar(d: nat): (c: char)
    requires d < 10
    ensures IsDigit(c)
  {
    ('0' as int + d) as char
  }

  /** The number a run of decimal digits spells. */
  function DigitsValue(s: string): nat
    requires AllDigits(s)
  {
    if s == [] then 0 else DigitsValue(s[..|s| - 1]) * 10 + (s[|s| - 1] as int - '0' as int)
  }

  /** `str(n)` for a natural number. */
  function NatToDecimal(n: nat): (r: string)
    ensures r != [] && AllDigits(r)
  {
    if n < 10 then [DigitChar(n)] else NatToDecimal(n / 10) + [DigitChar(n % 10)]
  }

  /** `str(i)` for an integer. */
  function IntToDecimal(i: int): string {
    if i < 0 then "-" + NatToDecimal(-i) else NatToDecimal(i)
  }

  /** Zero-padded two- and four-digit fields of `str(date)`. */
  function Pad2(n: nat): (r: string)
    requires n < 100
    ensures |r| == 2 && AllDigits(r)
  {
    [DigitChar(n / 10), DigitChar(n % 10)]
  }

  function Pad4(n: nat): (r: string)
    requires n < 10000
    ensures |r| == 4 && AllDigits(r)
  {
    [DigitChar(n / 1000), DigitChar(n / 100 % 10), DigitChar(n / 10 % 10), DigitChar(n % 10)]
  }

  /** `str(d)` for a date: `YYYY-MM-DD`. */
  function IsoDate(d: Date): (r: string)
    requires ValidDate(d)
    ensures |r| == 10
  {
    Pad4(d.year) + "-" + Pad2(d.month) + "-" + Pad2(d.day)
  }

  /** Reads back a `YYYY-MM-DD` string. */
  function ParseIsoDate(s: string): Option<Date> {
    if |s| == 10 && s[4] == '-' && s[7] == '-' &&
       AllDigits(s[..4]) && AllDigits(s[5..7]) && AllDigits(s[8..])
    then
      var d := Date(DigitsValue(s[..4]), DigitsValue(s[5..7]), DigitsValue(s[8..]));
      if ValidDate(d) then Some(d) else None
    else None
  }

  /** `str(v)` */
  function PyStr(v: Value): string {
    match v
    case Null => "None"
    case Nan => "nan"
    case Str(s) => s
    case Int(i) => IntToDecimal(i)
    case Float(_, r) => r
    case Day(d) => if ValidDate(d) then IsoDate(d) else ""
  }

  // ---------------------------------------------------------------------------
  // float() and int()

  /** `int(x)` for a finite float: truncation toward zero. */
  function Truncate(x: real): (r: int)
    ensures x >= 0.0 ==> 0 <= r && r as real <= x < r as real + 1.0
    ensures x < 0.0 ==> r <= 0 && r as real - 1.0 < x <= r as real
  {
    if x >= 0.0 then x.Floor else -((-x).Floor)
  }

  /** The longest run of digits at the start of `s`. */
  function LeadingDigits(s: string): (r: string)
    ensures |r| <= |s| && r == s[..|r|] && AllDigits(r)
    ensures |r| < |s| ==> !IsDigit(s[|r|])
  {
    if s != [] && IsDigit(s[0]) then [s[0]] + LeadingDigits(s[1..]) else []
  }

  /** `int(float(t))` for unsigned plain decimal notation: digits with an
      optional fractional part, at least one digit in all. The digits after
      the point never change the truncated result. */
  function UnsignedTrunc(t: string): Option<int> {
    var ip := LeadingDigits(t);
    var rest := t[|ip|..];
    if (rest == [] && ip != []) ||
       (rest != [] && rest[0] == '.' && AllDigits(rest[1..]) && (ip != [] || |rest| > 1))
    then Some(DigitsValue(ip))
    else None
  }

  /** `int(float(t))` for an optionally signed number without surrounding space. */
  function SignedTrunc(t: string): Option<int> {
    if |t| > 0 && t[0] == '-' then
      match UnsignedTrunc(t[1..])
      case Some(n) => Some(-n)
      case None => None
    else if |t| > 0 && t[0] == '+' then UnsignedTrunc(t[1..])
    else UnsignedTrunc(t)
  }

  /** `int(float(s))` for a string in plain decimal notation, with surrounding
      whitespace allowed; `None` where `float(s)` raises `ValueError`. */
  function DecimalTrunc(s: string): Option<int> {
    SignedTrunc(Strip(s))
  }

  function Pow10(n: nat): (r: nat)
    ensures r >= 1
  {
    if n == 0 then 1 else 10 * Pow10(n - 1)
  }

  /** The value of the digits after a decimal point. */
  function Fraction(fp: string): (f: real)
    requires AllDigits(fp)
    ensures 0.0 <= f < 1.0
  {
    DigitsValueBound(fp);
    ProperFraction(DigitsValue(fp) as real, Pow10(|fp|) as real);
    DigitsValue(fp) as real / Pow10(|fp|) as real
  }

  lemma ProperFraction(d: real, p: real)
    requires 0.0 <= d < p
    ensures 0.0 <= d / p < 1.0
  {
  }

  /** `float(t)` for unsigned plain decimal notation, as the exact number the
      digits spell; the same grammar as `UnsignedTrunc`. */
  function UnsignedReal(t: string): Option<real> {
    var ip := LeadingDigits(t);
    var rest := t[|ip|..];
    if rest == [] && ip != [] then Some(DigitsValue(ip) as real)
    else if rest != [] && rest[0] == '.' && AllDigits(rest[1..]) && (ip != [] || |rest| > 1) then
      Some(DigitsValue(ip) as real + Fraction(rest[1..]))
    else None
  }

  function SignedReal(t: string): Option<real> {
    if |t| > 0 && t[0] == '-' then
      match UnsignedReal(t[1..])
      case Some(x) => Some(-x)
      case None => None
    else if |t| > 0 && t[0] == '+' then UnsignedReal(t[1..])
    else UnsignedReal(t)
  }

  /** `float(s)` for a string in plain decimal notation, surrounding
      whitespace allowed; `None` where it raises `ValueError`. */
  function DecimalReal(s: string): Option<real> {
    SignedReal(Strip(s))
  }

  // ---------------------------------------------------------------------------
  // Lemmas

  lemma {:induction false} DigitsValueBound(s: string)
    requires AllDigits(s)
    ensures DigitsValue(s) < Pow10(|s|)
  {
    if s != [] {
      DigitsValueBound(s[..|s| - 1]);
    }
  }

  /** A whole number plus a fraction in [0, 1) truncates to the whole number. */
  lemma TruncateWholePlusFraction(n: nat, f: real)
    requires 0.0 <= f < 1.0
    ensures Truncate(n as real + f) == n
    ensures Truncate(-(n as real + f)) == -(n as int)
  {
  }

  lemma UnsignedRealTrunc(t: string)
    ensures UnsignedReal(t).Some? <==> UnsignedTrunc(t).Some?
    ensures UnsignedReal(t).Some? ==>
      UnsignedReal(t).value >= 0.0 && UnsignedTrunc(t).value == Truncate(UnsignedReal(t).value)
    ensures UnsignedReal(t).Some? ==> Truncate(-UnsignedReal(t).value) == -UnsignedTrunc(t).value
  {
    var ip := LeadingDigits(t);
    var rest := t[|ip|..];
    if rest == [] && ip != [] {
      TruncateWholePlusFraction(DigitsValue(ip), 0.0);
    } else if rest != [] && rest[0] == '.' && AllDigits(rest[1..]) && (ip != [] || |rest| > 1) {
      TruncateWholePlusFraction(DigitsValue(ip), Fraction(rest[1..]));
    }
  }

  /** `int(float(s))` is the truncation of `float(s)`, and both reject the same strings. */
  lemma DecimalRealTrunc(s: string)
    ensures DecimalReal(s).Some? <==> DecimalTrunc(s).Some?
    ensures DecimalReal(s).Some? ==> DecimalTrunc(s).value == Truncate(DecimalReal(s).value)
  {
    var t := Strip(s);
    if |t| > 0 && (t[0] == '-' || t[0] == '+') {
      UnsignedRealTrunc(t[1..]);
    } else {
      UnsignedRealTrunc(t);
    }
  }

  lemma {:induction false} DigitsValueAppend(s: string, c: char)
    requires AllDigits(s) && IsDigit(c)
    ensures DigitsValue(s + [c]) == DigitsValue(s) * 10 + (c as int - '0' as int)
  {
    assert (s + [c])[..|s + [c]| - 1] == s;
  }

  /** `str(n)` reads back as `n`. */
  lemma {:induction false} NatToDecimalRoundTrip(n: nat)
    ensures DigitsValue(NatToDecimal(n)) == n
  {
    if n >= 10 {
      NatToDecimalRoundTrip(n / 10);
      DigitsValueAppend(NatToDecimal(n / 10), DigitChar(n % 10));
    }
  }

  lemma {:induction false} LeadingDigitsOfDigits(s: string)
    requires AllDigits(s)
    ensures LeadingDigits(s) == s
  {
    if s != [] {
      LeadingDigitsOfDigits(s[1..]);
      assert s == [s[0]] + s[1..];
    }
  }

  /** A run of digits, with or without a fractional part, reads back as the
      number its integer digits spell. */
  lemma UnsignedTruncOfDigits(ip: string, fp: string)
    requires ip != [] && AllDigits(ip) && AllDigits(fp)
    ensures UnsignedTrunc(ip) == Some(DigitsValue(ip))
    ensures UnsignedTrunc(ip + "." + fp) == Some(DigitsValue(ip))
  {
    LeadingDigitsOfDigits(ip);
    LeadingDigitsPrefix(ip, "." + fp);
    assert ip + "." + fp == ip + ("." + fp);
    assert (ip + ("." + fp))[|ip|..] == "." + fp;
    assert ("." + fp)[1..] == fp;
  }

  lemma DecimalIsStripped(ip: string, fp: string)
    requires ip != [] && AllDigits(ip) && AllDigits(fp)
    ensures IsStripped(ip + "." + fp)
  {
    var body := ip + "." + fp;
    assert body[0] == ip[0];
    if fp == [] {
      assert body[|body| - 1] == '.';
    } else {
      assert body[|body| - 1] == fp[|fp| - 1];
    }
  }

  /** A leading minus sign negates the number; no sign leaves it as it is. */
  lemma DecimalTruncSigned(sign: string, body: string, n: int)
    requires sign == "" || sign == "-"
    requires IsStripped(body) && body != [] && IsDigit(body[0])
    requires UnsignedTrunc(body) == Some(n)
    ensures DecimalTrunc(sign + body) == Some(if sign == "-" then -n else n)
  {
    var s := sign + body;
    assert s[|s| - 1] == body[|body| - 1];
    assert s[0] == if sign == "-" then '-' else body[0];
    StripOfStripped(s);
    if sign == "-" {
      assert s[1..] == body;
    } else {
      assert s == body;
    }
  }

  /** `LeadingDigits` stops at the first character that is not a digit. */
  lemma {:induction false} LeadingDigitsPrefix(ip: string, rest: string)
    requires AllDigits(ip)
    requires rest == [] || !IsDigit(rest[0])
    ensures LeadingDigits(ip + rest) == ip
  {
    if ip != [] {
      assert (ip + rest)[0] == ip[0];
      assert (ip + rest)[1..] == ip[1..] + rest;
      LeadingDigitsPrefix(ip[1..], rest);
      assert ip == [ip[0]] + ip[1..];
    } else {
      assert ip + rest == rest;
    }
  }

  /** `int(float(str(i))) == i`: Python's decimal rendering of an integer reads back. */
  lemma IntToDecimalRoundTrip(i: int)
    ensures DecimalTrunc(IntToDecimal(i)) == Some(i)
  {
    var s := IntToDecimal(i);
    var n: nat := if i < 0 then -i else i;
    var ds := NatToDecimal(n);
    NatToDecimalRoundTrip(n);
    UnsignedTruncOfDigits(ds, "");
    assert IsStripped(s) by {
      assert !IsSpace(s[0]) && !IsSpace(s[|s| - 1]);
    }
    StripOfStripped(s);
    if i < 0 {
      assert s[1..] == ds;
    } else {
      assert s == ds;
    }
  }

  lemma Pad2Value(n: nat)
    requires n < 100
    ensures DigitsValue(Pad2(n)) == n
  {
    var p := Pad2(n);
    assert p[..1] == [] + [p[0]];
    assert p == p[..1] + [p[1]];
    DigitsValueAppend([], p[0]);
    assert DigitsValue(p[..1]) == n / 10;
    DigitsValueAppend(p[..1], p[1]);
  }

  lemma Pad4Value(n: nat)
    requires n < 10000
    ensures DigitsValue(Pad4(n)) == n
  {
    var p := Pad4(n);
    assert p[..1] == [] + [p[0]];
    assert p[..2] == p[..1] + [p[1]];
    assert p[..3] == p[..2] + [p[2]];
    assert p == p[..3] + [p[3]];
    var c := n / 10;
    var b := c / 10;
    var a := b / 10;
    assert n / 100 == b && n / 1000 == a;
    DigitsValueAppend([], p[0]);
    assert DigitsValue(p[..1]) == a;
    DigitsValueAppend(p[..1], p[1]);
    assert DigitsValue(p[..2]) == b;
    DigitsValueAppend(p[..2], p[2]);
    assert DigitsValue(p[..3]) == c;
    DigitsValueAppend(p[..3], p[3]);
  }

  /** The `YYYY-MM-DD` rendering of a date reads back as that date. */
  lemma IsoDateRoundTrip(d: Date)
    requires ValidDate(d)
    ensures ParseIsoDate(IsoDate(d)) == Some(d)
  {
    var s := IsoDate(d);
    assert s[..4] == Pad4(d.year);
    assert s[5..7] == Pad2(d.month);
    assert s[8..] == Pad2(d.day);
    Pad4Value(d.year);
    Pad2Value(d.month);
    Pad2Value(d.day);
  }
}
