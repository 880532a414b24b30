/** `calculateWowprimeSalary`: turns a free-form salary entry into a monthly base
    salary. Three rules are tried in order, and the first that applies decides:
      1. a pay-grade code `<level><separators><grade>` anywhere in the text
         (the regular expression `([234])[-等級\s]+(\d+)`), priced from the
         level table as base + (grade - 1) * increment;
      2. a text holding `+` ("base+attendance bonus"): only the piece before the
         first `+` is read, so the bonus is ignored rather than added;
      3. otherwise the digits and points of the whole text are read as one number.
    Empty text, and text in which no number can be read, give 0. */
module Salary {
  import opened Wrappers
  import opened Chars
  import opened Numeric

  /** A pay-grade code read from the text: level 2, 3 or 4 and a 1-based grade. */
  datatype PayGrade = PayGrade(level: int, grade: nat)

  /** The leftmost place where the pay-grade pattern matches, and what it read. */
  datatype Located = Located(at: nat, code: PayGrade)

  datatype SalaryRate = SalaryRate(base: nat, increment: nat)

  /** The level table of next year's standard (4: 41000 + 1000 per grade,
      3: 37000 + 900, 2: 34000 + 800); any other level keeps the initial 0/0. */
  function RateFor(level: int): (r: SalaryRate)
    ensures 2 <= level <= 4 ==> 0 < r.increment < r.base
    ensures !(2 <= level <= 4) ==> r == SalaryRate(0, 0)
  {
    if level == 4 then SalaryRate(41000, 1000)
    else if level == 3 then SalaryRate(37000, 900)
    else if level == 2 then SalaryRate(34000, 800)
    else SalaryRate(0, 0)
  }

  /** `base + (grade - 1) * increment`. */
  function PayGradeSalary(code: PayGrade): (r: int)
    ensures 2 <= code.level <= 4 ==> r >= RateFor(code.level).base - RateFor(code.level).increment > 0
    ensures code.grade == 1 ==> r == RateFor(code.level).base
  {
    var rate := RateFor(code.level);
    rate.base + (code.grade - 1) * rate.increment
  }

  /** A higher grade never pays less within a level, and each grade adds
      exactly one increment. */
  lemma PayGradeSalaryStep(level: int, grade: nat)
    requires 2 <= level <= 4
    ensures PayGradeSalary(PayGrade(level, grade + 1))
         == PayGradeSalary(PayGrade(level, grade)) + RateFor(level).increment
    ensures PayGradeSalary(PayGrade(level, grade)) < PayGradeSalary(PayGrade(level, grade + 1))
  {
  }

  predicate IsLevelDigit(c: char) {
    c == '2' || c == '3' || c == '4'
  }

  /** The class `[-等級\s]`. */
  predicate IsSeparator(c: char) {
    c == '-' || c == '等' || c == '級' || IsJsWhitespace(c)
  }

  /** Whether the pattern `([234])[-等級\s]+(\d+)` matches starting at `i`, and
      what its two groups read. Separators and digits are disjoint, so the
      greedy separator run must be followed directly by a digit, and the grade
      is the whole run of digits there. */
  function MatchAt(s: string, i: nat): (r: Option<PayGrade>)
    ensures r.Some? ==> 2 <= r.value.level <= 4
    ensures r.Some? ==> i + 2 < |s| && IsLevelDigit(s[i]) && IsSeparator(s[i + 1])
    ensures r.Some? ==> r.value.level == DigitValue(s[i])
  {
    if i < |s| && IsLevelDigit(s[i]) then
      var j := Span(s, i + 1, IsSeparator);
      if i + 1 < j < |s| && IsDigit(s[j]) then
        var k := Span(s, j, IsDigit);
        Some(PayGrade(DigitValue(s[i]), DigitsValue(s[j..k])))
      else
        None
    else
      None
  }

  /** The shape of a code in `s`: a level digit at `i` (checked by the
      caller), separators filling `s[i+1..j]`, and a digit run filling
      `s[j..k]` that stops at a non-digit or the end. */
  predicate CodeSpans(s: string, i: nat, j: nat, k: nat) {
    && i + 1 < j < k <= |s|
    && (forall t :: i + 1 <= t < j ==> IsSeparator(s[t]))
    && AllDigits(s[j..k])
    && (k == |s| || !IsDigit(s[k]))
  }

  /** The other direction of the pattern: a match at `i` is always a level
      digit, a run of separators and a stopped digit run, and the grade read
      is the value of that run. */
  lemma MatchAtOnlyCode(s: string, i: nat)
    requires MatchAt(s, i).Some?
    ensures IsLevelDigit(s[i])
    ensures exists j: nat, k: nat :: CodeSpans(s, i, j, k) && MatchAt(s, i).value.grade == DigitsValue(s[j..k])
  {
    var j := Span(s, i + 1, IsSeparator);
    var k := Span(s, j, IsDigit);
    assert CodeSpans(s, i, j, k);
  }

  /** The leftmost match at or after `from`, as `String.prototype.match`
      finds it for a pattern without the global flag. */
  function LeftmostPayGrade(s: string, from: nat): (r: Option<Located>)
    ensures r.Some? ==> from <= r.value.at < |s| && MatchAt(s, r.value.at) == Some(r.value.code)
    ensures r.Some? ==> forall j :: from <= j < r.value.at ==> MatchAt(s, j).None?
    ensures r.None? ==> forall j :: from <= j ==> MatchAt(s, j).None?
    decreases |s| - from
  {
    if from >= |s| then None
    else
      match MatchAt(s, from)
      case Some(code) => Some(Located(from, code))
      case None => LeftmostPayGrade(s, from + 1)
  }

  /** `s.split('+')[0]`: the text before the first `+`, or all of it. */
  function FirstSegment(s: string): (r: string)
    ensures r <= s && '+' !in r
    ensures r == s || s[|r|] == '+'
    decreases |s|
  {
    if s == [] || s[0] == '+' then [] else [s[0]] + FirstSegment(s[1..])
  }

  /** `calculateWowprimeSalary`: the monthly base salary an entry stands for. */
  function CalculateWowprimeSalary(input: string): (r: real)
    ensures r >= 0.0
    ensures input == [] ==> r == 0.0
    ensures LeftmostPayGrade(input, 0).Some? ==> r >= 33200.0
  {
    if input == [] then 0.0
    else
      match LeftmostPayGrade(input, 0)
      case Some(found) => PayGradeSalary(found.code) as real
      case None =>
        if '+' in input then OrZero(ParseLeadingDecimal(KeepNumeric(FirstSegment(input))))
        else OrZero(ParseLeadingDecimal(KeepNumeric(input)))
  }

  // Rule 1: the pay-grade code wins wherever it stands.

  /** A level digit at `i`, separators filling `s[i+1..j]` and digits filling
      `s[j..k]` up to a non-digit or the end: the pattern matches at `i` and
      reads that level and the value of those digits as the grade. */
  lemma MatchAtSpans(s: string, i: nat, j: nat, k: nat, level: nat, ds: string)
    requires i + 1 < j < k <= |s| && 2 <= level <= 4 && s[i] == DigitChar(level)
    requires forall t :: i + 1 <= t < j ==> IsSeparator(s[t])
    requires s[j..k] == ds && AllDigits(ds)
    requires k == |s| || !IsDigit(s[k])
    ensures MatchAt(s, i) == Some(PayGrade(level, DigitsValue(ds)))
  {
    assert forall t :: j <= t < k ==> ds[t - j] == s[t];
    SpanExact(s, i + 1, j, IsSeparator);
    SpanExact(s, j, k, IsDigit);
  }

  /** The three parts of `sep + ds + rest`, by position. */
  lemma TailParts(tail: string, sep: string, ds: string, rest: string)
    requires tail == sep + ds + rest
    ensures forall t :: 0 <= t < |sep| ==> tail[t] == sep[t]
    ensures |sep| + |ds| <= |tail| && tail[|sep|..|sep| + |ds|] == ds
    ensures |sep| + |ds| < |tail| ==> tail[|sep| + |ds|] == rest[0]
  {
  }

  /** A slice of a suffix is a slice of the whole. */
  lemma SliceOfSuffix(s: string, n: nat, a: nat, b: nat)
    requires n <= |s| && a <= b <= |s| - n
    ensures s[n..][a..b] == s[n + a..n + b]
  {
  }

  /** The pattern matches wherever a level digit is followed by one or more
      separators and a run of digits, and reads exactly that level and the
      value of the whole run (leading zeros included). */
  lemma MatchAtCode(s: string, i: nat, level: nat, sep: string, ds: string, rest: string)
    requires i < |s| && 2 <= level <= 4 && s[i] == DigitChar(level)
    requires s[i + 1..] == sep + ds + rest
    requires |sep| > 0 && forall t :: 0 <= t < |sep| ==> IsSeparator(sep[t])
    requires |ds| > 0 && AllDigits(ds)
    requires rest == [] || !IsDigit(rest[0])
    ensures MatchAt(s, i) == Some(PayGrade(level, DigitsValue(ds)))
  {
    var j := i + 1 + |sep|;
    var k := j + |ds|;
    var tail := s[i + 1..];
    TailParts(tail, sep, ds, rest);
    forall t | i + 1 <= t < j
      ensures IsSeparator(s[t])
    {
      assert s[t] == tail[t - i - 1];
    }
    SliceOfSuffix(s, i + 1, |sep|, |sep| + |ds|);
    if k < |s| {
      assert s[k] == tail[k - i - 1];
    }
    MatchAtSpans(s, i, j, k, level, ds);
  }

  /** A match at `i` with none before it is the one `match` returns. */
  lemma LeftmostIs(s: string, i: nat, code: PayGrade)
    requires MatchAt(s, i) == Some(code)
    requires forall j :: 0 <= j < i ==> MatchAt(s, j).None?
    ensures LeftmostPayGrade(s, 0) == Some(Located(i, code))
  {
  }

  /** Whatever else the entry holds, its leftmost code decides the price. */
  lemma PriceOfLeftmost(s: string, found: Located)
    requires LeftmostPayGrade(s, 0) == Some(found)
    ensures CalculateWowprimeSalary(s) == PayGradeSalary(found.code) as real
  {
  }

  /** A match at `i` with none before it prices the entry. */
  lemma LeftmostPrices(s: string, i: nat, level: nat, grade: nat)
    requires MatchAt(s, i) == Some(PayGrade(level, grade))
    requires forall j :: 0 <= j < i ==> MatchAt(s, j).None?
    ensures CalculateWowprimeSalary(s) == (RateFor(level).base + (grade - 1) * RateFor(level).increment) as real
  {
    LeftmostIs(s, i, PayGrade(level, grade));
    PriceOfLeftmost(s, Located(i, PayGrade(level, grade)));
  }

  /** An entry holding a level digit at `i`, one or more separators and a
      run of grade digits after it, and no code starting before `i` (whatever
      text precedes it), is priced exactly as
      base(level) + (grade - 1) * increment(level), leading zeros of the grade
      included. */
  lemma PayGradeEntry(s: string, i: nat, level: nat, sep: string, ds: string, rest: string)
    requires 2 <= level <= 4 && i < |s| && s[i] == DigitChar(level)
    requires s[i + 1..] == sep + ds + rest
    requires |sep| > 0 && forall t :: 0 <= t < |sep| ==> IsSeparator(sep[t])
    requires |ds| > 0 && AllDigits(ds)
    requires rest == [] || !IsDigit(rest[0])
    requires forall j :: 0 <= j < i ==> MatchAt(s, j).None?
    ensures CalculateWowprimeSalary(s)
         == (RateFor(level).base + (DigitsValue(ds) - 1) * RateFor(level).increment) as real
  {
    MatchAtCode(s, i, level, sep, ds, rest);
    LeftmostPrices(s, i, level, DigitsValue(ds));
  }

  /** The code cut out of such an entry: its level digit, then `sep + ds`. */
  lemma CodeSlice(s: string, i: nat, sep: string, ds: string, rest: string)
    requires i < |s| && s[i + 1..] == sep + ds + rest
    ensures i < |s| - |rest| && s[i..|s| - |rest|][0] == s[i]
    ensures s[i..|s| - |rest|][1..] == sep + ds + []
  {
    var tail := s[i + 1..];
    assert s[i..|s| - |rest|][1..] == tail[..|sep| + |ds|];
    assert tail[..|sep| + |ds|] == sep + ds;
  }

  /** Rule priority: whatever precedes the code (without a code of its own)
      and whatever follows it (a `+`, a bonus, other numbers) leaves the price
      that of the code cut out alone. */
  lemma PayGradeRuleWins(s: string, i: nat, level: nat, sep: string, ds: string, rest: string)
    requires 2 <= level <= 4 && i < |s| && s[i] == DigitChar(level)
    requires s[i + 1..] == sep + ds + rest
    requires |sep| > 0 && forall t :: 0 <= t < |sep| ==> IsSeparator(sep[t])
    requires |ds| > 0 && AllDigits(ds)
    requires rest == [] || !IsDigit(rest[0])
    requires forall j :: 0 <= j < i ==> MatchAt(s, j).None?
    ensures CalculateWowprimeSalary(s) == CalculateWowprimeSalary(s[i..|s| - |rest|])
  {
    PayGradeEntry(s, i, level, sep, ds, rest);
    CodeSlice(s, i, sep, ds, rest);
    PayGradeEntry(s[i..|s| - |rest|], 0, level, sep, ds, []);
  }

  // Rule 2: "base+bonus" keeps the base only.

  /** Text with no separator character cannot hold a pay-grade code. */
  lemma NoSeparatorNoPayGrade(s: string, from: nat)
    requires forall k :: 0 <= k < |s| ==> !IsSeparator(s[k])
    ensures LeftmostPayGrade(s, from).None?
  {
  }

  /** With no pay-grade code present, an entry `a + "+" + rest` is priced by
      the digits and points of `a` alone: nothing after the first `+`, in
      particular no attendance bonus, changes the result. */
  lemma FirstSegmentRule(a: string, rest: string)
    requires '+' !in a
    requires LeftmostPayGrade(a + "+" + rest, 0).None?
    ensures CalculateWowprimeSalary(a + "+" + rest) == OrZero(ParseLeadingDecimal(KeepNumeric(a)))
  {
    var s := a + "+" + rest;
    assert s[|a|] == '+';
    var f := FirstSegment(s);
    assert f == a;
  }

  /** Two entries that differ only after their first `+` are priced alike. */
  lemma LaterSegmentsIgnored(a: string, rest1: string, rest2: string)
    requires '+' !in a
    requires LeftmostPayGrade(a + "+" + rest1, 0).None?
    requires LeftmostPayGrade(a + "+" + rest2, 0).None?
    ensures CalculateWowprimeSalary(a + "+" + rest1) == CalculateWowprimeSalary(a + "+" + rest2)
  {
    FirstSegmentRule(a, rest1);
    FirstSegmentRule(a, rest2);
  }

  /** "base+bonus" written in plain digits is priced at the base. */
  lemma BaseWithBonus(base: nat, bonus: nat)
    ensures CalculateWowprimeSalary(NatDigits(base) + "+" + NatDigits(bonus)) == base as real
  {
    var a, b := NatDigits(base), NatDigits(bonus);
    var s := a + "+" + b;
    assert forall k :: 0 <= k < |s| ==> IsDigit(s[k]) || s[k] == '+';
    NoSeparatorNoPayGrade(s, 0);
    FirstSegmentRule(a, b);
    ParseNatDigits(base, []);
    assert a + [] == a;
  }

  // Rule 3: a plain number is itself.

  /** A salary written as plain digits is read back unchanged. */
  lemma PlainNumber(n: nat)
    ensures CalculateWowprimeSalary(NatDigits(n)) == n as real
  {
    var s := NatDigits(n);
    NoSeparatorNoPayGrade(s, 0);
    ParseNatDigits(n, []);
    assert s + [] == s;
  }

  // The entries the source's comments and notes mention.

  /** The composite entry of the salary note: the attendance bonus is dropped. */
  lemma BaseWithBonusExample()
    ensures CalculateWowprimeSalary("34600+2000") == 34600.0
  {
    assert NatDigits(34600) + "+" + NatDigits(2000) == "34600+2000";
    BaseWithBonus(34600, 2000);
  }

  /** A pay-grade code in front of a `+` takes priority over the `+` rule. */
  lemma PayGradeBeforePlusExample()
    ensures CalculateWowprimeSalary("3-2+500") == 37900.0
  {
    PayGradeEntry("3-2+500", 0, 3, "-", "2", "+500");
  }

  /** The `級` spelling of a code. */
  lemma PayGradeSpellingExamples()
    ensures CalculateWowprimeSalary("4級3") == 43000.0
  {
    PayGradeEntry("4級3", 0, 4, "級", "3", "");
  }

  /** The `等` spelling of a code; grade 1 is the level's base. */
  lemma PayGradeBaseExample()
    ensures CalculateWowprimeSalary("2等1") == 34000.0
  {
    PayGradeEntry("2等1", 0, 2, "等", "1", "");
  }

  /** A code found inside the entry, with a leading zero in its grade. */
  lemma PayGradeInsideExample()
    ensures CalculateWowprimeSalary("L 3-02") == 37900.0
  {
    PayGradeEntry("L 3-02", 2, 3, "-", "02", "");
  }

  /** An entry whose first segment is empty gives 0. */
  lemma EmptyFirstSegmentExample()
    ensures CalculateWowprimeSalary("+2000") == 0.0
  {
  }

  /** An entry that holds no number gives 0. */
  lemma NoNumberExample()
    ensures CalculateWowprimeSalary("abc") == 0.0
  {
  }
}
