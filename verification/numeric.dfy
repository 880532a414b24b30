/** The numeric half of the salary normaliser: removing every character that is
    not a digit or a decimal point (`replace(/[^\d.]/g, '')`), and reading the
    resulting text the way `parseFloat` does. Numbers are exact reals; the
    NaN that `parseFloat` returns when no number starts the text is `None`. */
module Numeric {
  import opened Wrappers
  import opened Chars

  function Pow10(n: nat): (r: nat)
    ensures r >= 1
  {
    if n == 0 then 1 else 10 * Pow10(n - 1)
  }

  predicate AllDigits(s: string) {
    forall k :: 0 <= k < |s| ==> IsDigit(s[k])
  }

  /** The value of a run of decimal digits, most significant first (`parseInt`
      of such a run; leading zeros are allowed and add nothing). */
  function DigitsValue(ds: string): (v: nat)
    requires AllDigits(ds)
    decreases |ds|
  {
    if |ds| == 0 then 0
    else DigitsValue(ds[..|ds| - 1]) * 10 + DigitValue(ds[|ds| - 1])
  }

  /** A run of n digits is worth less than 10^n. */
  lemma {:induction false} DigitsValueBelow(ds: string)
    requires AllDigits(ds)
    ensures DigitsValue(ds) < Pow10(|ds|)
    decreases |ds|
  {
    if |ds| > 0 {
      DigitsValueBelow(ds[..|ds| - 1]);
    }
  }

  /** A quotient of a smaller by a larger non-negative number. */
  lemma QuotientBelowOne(num: real, den: real)
    requires 0.0 <= num < den
    ensures 0.0 <= num / den < 1.0 && num / den * den == num
  {
    var f := num / den;
    assert f * den == num;
    assert f >= 1.0 ==> f * den >= den;
  }

  /** The value of the digits after a decimal point: `0.ds`. */
  function Fraction(ds: string): (f: real)
    requires AllDigits(ds)
    ensures 0.0 <= f < 1.0
    ensures f * Pow10(|ds|) as real == DigitsValue(ds) as real
  {
    var num, den := DigitsValue(ds) as real, Pow10(|ds|) as real;
    DigitsValueBelow(ds);
    QuotientBelowOne(num, den);
    num / den
  }

  predicate IsNumericChar(c: char) {
    IsDigit(c) || c == '.'
  }

  /** `text.replace(/[^\d.]/g, '')`: keeps the digits and points of `s`, in order. */
  function KeepNumeric(s: string): (r: string)
    ensures |r| <= |s|
    ensures forall k :: 0 <= k < |r| ==> IsNumericChar(r[k])
    ensures (forall k :: 0 <= k < |s| ==> IsNumericChar(s[k])) ==> r == s
    ensures (forall k :: 0 <= k < |s| ==> !IsNumericChar(s[k])) ==> r == []
    decreases |s|
  {
    if s == [] then []
    else (if IsNumericChar(s[0]) then [s[0]] else []) + KeepNumeric(s[1..])
  }

  /** Removing characters distributes over concatenation, so the text that
      survives from a prefix is the prefix of what survives from the whole. */
  lemma {:induction false} KeepNumericAppend(a: string, b: string)
    ensures KeepNumeric(a + b) == KeepNumeric(a) + KeepNumeric(b)
    decreases |a|
  {
    if a == [] {
      assert a + b == b;
    } else {
      assert (a + b)[1..] == a[1..] + b;
      KeepNumericAppend(a[1..], b);
    }
  }

  /** Whether `parseFloat` finds a number at the head of a text made of digits
      and points: a digit, or a point followed by a digit. */
  predicate StartsDecimal(s: string) {
    |s| > 0 && (IsDigit(s[0]) || (s[0] == '.' && |s| > 1 && IsDigit(s[1])))
  }

  /** The integer part `parseFloat` reads: the leading run of digits. */
  function IntegerPart(s: string): (ds: string)
    ensures AllDigits(ds) && ds <= s
    ensures |ds| == |s| || !IsDigit(s[|ds|])
  {
    s[..Span(s, 0, IsDigit)]
  }

  /** `parseFloat` restricted to what it reads in a text without signs,
      exponents or white space: the longest prefix of the form
      `digits [ . digits ]` or `. digits`. So "1.2.3" reads 1.2, "5." reads 5,
      and "." or "" read NaN (`None`). */
  function ParseLeadingDecimal(s: string): (r: Option<real>)
    ensures r.None? <==> !StartsDecimal(s)
    ensures r.Some? ==> 0.0 <= r.value && r.value.Floor == DigitsValue(IntegerPart(s))
    ensures r.Some? && (|IntegerPart(s)| == |s| || s[|IntegerPart(s)|] != '.')
        ==> r.value == DigitsValue(IntegerPart(s)) as real
  {
    var a := Span(s, 0, IsDigit);
    if a > 0 then
      var whole := DigitsValue(s[..a]) as real;
      if a < |s| && s[a] == '.' then
        var b := Span(s, a + 1, IsDigit);
        Some(whole + Fraction(s[a + 1..b]))
      else
        Some(whole)
    else if |s| > 0 && s[0] == '.' then
      var b := Span(s, 1, IsDigit);
      if b > 1 then Some(Fraction(s[1..b])) else None
    else
      None
  }

  /** `isNaN(x) ? 0 : x`. */
  function OrZero(r: Option<real>): (x: real)
    ensures r.None? ==> x == 0.0
    ensures r.Some? ==> x == r.value
  {
    if r.Some? then r.value else 0.0
  }

  /** The decimal rendering of a natural number, without leading zeros. */
  function NatDigits(n: nat): (s: string)
    ensures 1 <= |s| && AllDigits(s)
    ensures |s| > 1 ==> s[0] != '0'
  {
    if n < 10 then [DigitChar(n)] else NatDigits(n / 10) + [DigitChar(n % 10)]
  }

  /** Reading a rendered number back gives the number. */
  lemma {:induction false} NatDigitsValue(n: nat)
    ensures DigitsValue(NatDigits(n)) == n
  {
    if n >= 10 {
      NatDigitsValue(n / 10);
      var s := NatDigits(n);
      assert s[..|s| - 1] == NatDigits(n / 10);
    }
  }

  /** `parseFloat` of a rendered natural number, followed by anything that
      cannot continue a number, is that number. */
  lemma ParseNatDigits(n: nat, rest: string)
    requires rest == [] || !IsNumericChar(rest[0])
    ensures ParseLeadingDecimal(NatDigits(n) + rest) == Some(n as real)
  {
    var ds := NatDigits(n);
    var s := ds + rest;
    SpanExact(s, 0, |ds|, IsDigit);
    assert s[..|ds|] == ds;
    NatDigitsValue(n);
  }

  /** Reading a text whose integer digits `ip` end at the point at `a` and
      whose fraction digits `ds` end at `b`. */
  lemma ParsePointAt(s: string, a: nat, b: nat, ip: string, ds: string)
    requires a < b <= |s| && s[a] == '.' && b > 1
    requires s[..a] == ip && s[a + 1..b] == ds && AllDigits(ip) && AllDigits(ds)
    requires b == |s| || !IsDigit(s[b])
    ensures ParseLeadingDecimal(s) == Some(DigitsValue(ip) as real + Fraction(ds))
  {
    assert forall t :: 0 <= t < a ==> ip[t] == s[t];
    assert forall t :: a + 1 <= t < b ==> ds[t - a - 1] == s[t];
    SpanExact(s, 0, a, IsDigit);
    SpanExact(s, a + 1, b, IsDigit);
    if a == 0 {
      assert ip == [];
      assert IsDigit(s[1]);
    }
  }

  /** A number with a point: the integer digits `ip` (possibly none, possibly
      with leading zeros), the point, the fraction digits `ds`, and anything
      that does not continue the fraction, reads as `ip + 0.ds`. */
  lemma ParseDecimalText(ip: string, ds: string, rest: string)
    requires AllDigits(ip) && AllDigits(ds) && |ip| + |ds| > 0
    requires rest == [] || !IsDigit(rest[0])
    ensures ParseLeadingDecimal(ip + "." + ds + rest) == Some(DigitsValue(ip) as real + Fraction(ds))
  {
    DecimalShape(ip + "." + ds + rest, ip, ds, rest);
    ParsePointAt(ip + "." + ds + rest, |ip|, |ip| + 1 + |ds|, ip, ds);
  }

  /** Where the parts of `ip + "." + ds + rest` lie. */
  lemma DecimalShape(s: string, ip: string, ds: string, rest: string)
    requires s == ip + "." + ds + rest
    ensures |ip| + 1 + |ds| <= |s| && s[..|ip|] == ip && s[|ip|] == '.'
    ensures s[|ip| + 1..|ip| + 1 + |ds|] == ds
    ensures rest != [] ==> s[|ip| + 1 + |ds|] == rest[0]
  {
  }

  /** The reading stops at the second point, and a trailing point adds nothing. */
  lemma ParseExamples()
    ensures ParseLeadingDecimal("1.2.3") == Some(1.2)
    ensures ParseLeadingDecimal("5.") == Some(5.0)
  {
    ParseDecimalText("1", "2", ".3");
    assert "1" + "." + "2" + ".3" == "1.2.3";
  }

  /** A leading point starts a number only when a digit follows it; nothing is NaN. */
  lemma ParsePointExamples()
    ensures ParseLeadingDecimal(".5") == Some(0.5)
    ensures ParseLeadingDecimal(".").None? && ParseLeadingDecimal("").None?
  {
  }
}
