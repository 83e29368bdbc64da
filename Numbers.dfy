/**
 * Decimal text as the normalizer reads and writes it: `Long.parseLong` and
 * `String.valueOf(long)` over ASCII digits, and `java.math.BigDecimal` values
 * built from plain decimal strings (`new BigDecimal(String)`) and printed back
 * with `toPlainString()`.
 */
module Numbers {
  import opened JavaLang

  predicate IsDigit(c: char)
  {
    '0' <= c <= '9'
  }

  predicate AllDigits(s: string)
  {
    forall i :: 0 <= i < |s| ==> IsDigit(s[i])
  }

  function DigitValue(c: char): (d: nat)
    requires IsDigit(c)
    ensures d < 10
  {
    (c as int) - ('0' as int)
  }

  function DigitChar(d: nat): (c: char)
    requires d < 10
    ensures IsDigit(c) && DigitValue(c) == d
  {
    ('0' as int + d) as char
  }

  /** The value of a string of decimal digits, most significant first. */
  function DigitsValue(s: string): nat
    requires AllDigits(s)
  {
    if s == [] then 0 else DigitsValue(s[..|s| - 1]) * 10 + DigitValue(s[|s| - 1])
  }

  /** The shortest decimal digits of `n`. */
  function NatToDigits(n: nat): (s: string)
    ensures |s| >= 1 && AllDigits(s)
  {
    if n < 10 then [DigitChar(n)] else NatToDigits(n / 10) + [DigitChar(n % 10)]
  }

  function Zeros(k: nat): (s: string)
    ensures |s| == k && AllDigits(s)
    ensures forall i :: 0 <= i < k ==> s[i] == '0'
  {
    if k == 0 then "" else Zeros(k - 1) + "0"
  }

  lemma {:induction false} DigitsRoundTrip(n: nat)
    ensures DigitsValue(NatToDigits(n)) == n
  {
    if n >= 10 {
      var s := NatToDigits(n);
      assert s[..|s| - 1] == NatToDigits(n / 10);
      DigitsRoundTrip(n / 10);
    }
  }

  lemma {:induction false} ZerosValue(k: nat)
    ensures DigitsValue(Zeros(k)) == 0
  {
    if k > 0 {
      assert Zeros(k)[..k - 1] == Zeros(k - 1);
      ZerosValue(k - 1);
    }
  }

  /** Leading zeros do not change the value of a digit string. */
  lemma {:induction false} LeadingZerosValue(k: nat, s: string)
    requires AllDigits(s)
    ensures AllDigits(Zeros(k) + s)
    ensures DigitsValue(Zeros(k) + s) == DigitsValue(s)
  {
    if s == [] {
      assert Zeros(k) + s == Zeros(k);
      ZerosValue(k);
    } else {
      var t := Zeros(k) + s;
      assert t[..|t| - 1] == Zeros(k) + s[..|s| - 1];
      LeadingZerosValue(k, s[..|s| - 1]);
    }
  }

  /**
   * `Long.parseLong(s)`: an optional `-` or `+`, then one or more digits, with
   * the value inside the range of `long`; anything else throws
   * `NumberFormatException`.
   */
  function ParseLong(s: string): (r: Result<Long, Throwable>)
    ensures r.Err? ==> r.error == NumberFormatException
    ensures r.Ok? ==> |s| >= 1 && (IsDigit(s[0]) || s[0] == '-' || s[0] == '+')
    ensures r.Ok? ==> forall i :: 1 <= i < |s| ==> IsDigit(s[i])
    ensures r.Ok? && IsDigit(s[0]) ==> r.value == DigitsValue(s)
  {
    if s == [] then Err(NumberFormatException)
    else
      var body := if s[0] == '-' || s[0] == '+' then s[1..] else s;
      if body == [] || !AllDigits(body) then Err(NumberFormatException)
      else
        var v: int := if s[0] == '-' then -(DigitsValue(body) as int) else DigitsValue(body);
        if MIN_LONG <= v <= MAX_LONG then Ok(v) else Err(NumberFormatException)
  }

  /** `String.valueOf(long)`. */
  function FormatLong(n: int): string
  {
    if n < 0 then "-" + NatToDigits(-n) else NatToDigits(n)
  }

  lemma SignedParseLong(body: string, v: nat)
    requires |body| >= 1 && AllDigits(body) && DigitsValue(body) == v
    ensures v <= MAX_LONG ==> ParseLong(body) == Ok(v)
    ensures -(v as int) >= MIN_LONG ==> ParseLong("-" + body) == Ok(-(v as int))
  {
    var s := "-" + body;
    assert s[0] == '-' && s[1..] == body;
  }

  /** Printing a `long` and parsing it back gives the same `long`. */
  lemma LongRoundTrip(n: Long)
    ensures ParseLong(FormatLong(n)) == Ok(n)
  {
    var v: nat := if n < 0 then -(n as int) else n;
    DigitsRoundTrip(v);
    SignedParseLong(NatToDigits(v), v);
  }

  /** `BigDecimal`: the value `unscaled × 10^-scale`; `equals` compares both parts. */
  datatype Decimal = Decimal(unscaled: int, scale: nat)

  /** `BigDecimal.hashCode()`: `31 * unscaledValue().hashCode() + scale()`. */
  function DecimalHash(d: Decimal): Int
  {
    Wrap32(31 * BigIntegerHash(d.unscaled) + d.scale)
  }

  function IndexOf(s: string, c: char): (r: Option<nat>)
    ensures r.Some? ==> r.value < |s| && s[r.value] == c
    ensures r.Some? ==> forall i :: 0 <= i < r.value ==> s[i] != c
    ensures r.None? ==> forall i :: 0 <= i < |s| ==> s[i] != c
  {
    if s == [] then None
    else if s[0] == c then Some(0)
    else match IndexOf(s[1..], c)
      case None => None
      case Some(i) => Some(i + 1)
  }

  lemma AllDigitsConcat(a: string, b: string)
    requires AllDigits(a) && AllDigits(b)
    ensures AllDigits(a + b)
  {
    forall i | 0 <= i < |a + b|
      ensures IsDigit((a + b)[i])
    {
      if i >= |a| {
        assert (a + b)[i] == b[i - |a|];
      }
    }
  }

  lemma AllDigitsSplit(s: string, k: nat)
    requires AllDigits(s) && k <= |s|
    ensures AllDigits(s[..k]) && AllDigits(s[k..]) && s[..k] + s[k..] == s
  {
    assert forall i :: 0 <= i < |s| - k ==> s[k..][i] == s[k + i];
  }

  /**
   * The unsigned part of a plain decimal string: integer digits, optionally a
   * `.` and fraction digits, with at least one digit in all. Yields the
   * magnitude of the unscaled value and the scale.
   */
  function ParseUnsigned(body: string): (r: Option<Decimal>)
    ensures r.Some? ==> r.value.unscaled >= 0
  {
    var dot := IndexOf(body, '.');
    var ip := if dot.Some? then body[..dot.value] else body;
    var fp := if dot.Some? then body[dot.value + 1..] else "";
    if AllDigits(ip) && AllDigits(fp) && |ip| + |fp| > 0 then
      AllDigitsConcat(ip, fp);
      Some(Decimal(DigitsValue(ip + fp), |fp|))
    else None
  }

  /**
   * `new BigDecimal(s)` for plain decimal strings: an optional sign, then the
   * unsigned part. The scale is the number of fraction digits.
   */
  function ParseDecimal(s: string): (r: Result<Decimal, Throwable>)
    ensures r.Err? ==> r.error == NumberFormatException
    ensures r.Ok? ==> |s| >= 1
  {
    var signed := |s| > 0 && (s[0] == '-' || s[0] == '+');
    match ParseUnsigned(if signed then s[1..] else s)
    case None => Err(NumberFormatException)
    case Some(d) => Ok(if signed && s[0] == '-' then d.(unscaled := -d.unscaled) else d)
  }

  /** The digits of `m`, padded with leading zeros to more than `scale` digits. */
  function Padded(m: nat, scale: nat): (r: string)
    ensures |r| > scale
  {
    var digits := NatToDigits(m);
    if |digits| <= scale then Zeros(scale + 1 - |digits|) + digits else digits
  }

  /** The digits of `toPlainString()` for magnitude `m` and scale `scale`, without the sign. */
  function PlainUnsigned(m: nat, scale: nat): string
  {
    if scale == 0 then NatToDigits(m)
    else
      var padded := Padded(m, scale);
      padded[..|padded| - scale] + "." + padded[|padded| - scale..]
  }

  /** `BigDecimal.toPlainString()` for a non-negative scale. */
  function ToPlainString(d: Decimal): string
  {
    (if d.unscaled < 0 then "-" else "") + PlainUnsigned(if d.unscaled < 0 then -d.unscaled else d.unscaled, d.scale)
  }

  lemma {:induction false} PlainUnsignedRoundTrip(ip: string, fp: string)
    requires AllDigits(ip) && AllDigits(fp) && |ip| >= 1
    ensures ParseUnsigned(ip + "." + fp) == Some(Decimal(DigitsValue(ip + fp), |fp|))
  {
    var body := ip + "." + fp;
    assert body[|ip|] == '.';
    assert forall i :: 0 <= i < |ip| ==> body[i] == ip[i];
    assert IndexOf(body, '.') == Some(|ip|);
    assert body[..|ip|] == ip && body[|ip| + 1..] == fp;
  }

  /** Padding keeps the value and leaves at least one integer digit. */
  lemma PaddedDigits(m: nat, scale: nat)
    ensures |Padded(m, scale)| > scale && AllDigits(Padded(m, scale))
    ensures DigitsValue(Padded(m, scale)) == m
  {
    var digits := NatToDigits(m);
    DigitsRoundTrip(m);
    if |digits| <= scale {
      var k := scale + 1 - |digits|;
      assert Padded(m, scale) == Zeros(k) + digits;
      LeadingZerosValue(k, digits);
    } else {
      assert Padded(m, scale) == digits;
    }
  }

  lemma UnsignedWholeRoundTrip(m: nat)
    ensures ParseUnsigned(NatToDigits(m)) == Some(Decimal(m, 0))
  {
    var body := NatToDigits(m);
    DigitsRoundTrip(m);
    assert IndexOf(body, '.') == None by {
      assert forall i :: 0 <= i < |body| ==> IsDigit(body[i]);
    }
    assert body + "" == body;
  }

  lemma FractionRoundTrip(m: nat, scale: nat)
    requires scale > 0
    ensures |PlainUnsigned(m, scale)| >= 1 && IsDigit(PlainUnsigned(m, scale)[0])
    ensures ParseUnsigned(PlainUnsigned(m, scale)) == Some(Decimal(m, scale))
  {
    var padded := Padded(m, scale);
    PaddedDigits(m, scale);
    var ip := padded[..|padded| - scale];
    var fp := padded[|padded| - scale..];
    AllDigitsSplit(padded, |padded| - scale);
    PlainUnsignedRoundTrip(ip, fp);
  }

  lemma UnsignedRoundTrip(m: nat, scale: nat)
    ensures |PlainUnsigned(m, scale)| >= 1 && IsDigit(PlainUnsigned(m, scale)[0])
    ensures ParseUnsigned(PlainUnsigned(m, scale)) == Some(Decimal(m, scale))
  {
    if scale == 0 {
      UnsignedWholeRoundTrip(m);
    } else {
      FractionRoundTrip(m, scale);
    }
  }

  lemma SignedParse(body: string, n: int, scale: nat)
    requires |body| >= 1 && IsDigit(body[0]) && ParseUnsigned(body) == Some(Decimal(n, scale))
    ensures ParseDecimal(body) == Ok(Decimal(n, scale))
    ensures ParseDecimal("-" + body) == Ok(Decimal(-n, scale))
  {
    var s := "-" + body;
    assert s[0] == '-' && s[1..] == body;
  }

  lemma NegativeRoundTrip(m: nat, scale: nat)
    ensures ParseDecimal("-" + PlainUnsigned(m, scale)) == Ok(Decimal(-(m as int), scale))
  {
    UnsignedRoundTrip(m, scale);
    SignedParse(PlainUnsigned(m, scale), m, scale);
  }

  lemma NonNegativeRoundTrip(m: nat, scale: nat)
    ensures ParseDecimal(PlainUnsigned(m, scale)) == Ok(Decimal(m, scale))
  {
    UnsignedRoundTrip(m, scale);
    SignedParse(PlainUnsigned(m, scale), m, scale);
  }

  /** Printing a decimal with `toPlainString()` and parsing it back gives an equal `BigDecimal`. */
  lemma DecimalRoundTrip(d: Decimal)
    ensures ParseDecimal(ToPlainString(d)) == Ok(d)
  {
    if d.unscaled < 0 {
      NegativeRoundTrip(-d.unscaled, d.scale);
    } else {
      NonNegativeRoundTrip(d.unscaled, d.scale);
      assert ToPlainString(d) == PlainUnsigned(d.unscaled, d.scale);
    }
  }
}
