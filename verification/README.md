# Points scoring for a foreign-worker application

This project models the scoring engine of a form that helps HR staff score a
foreign worker's visa application against a fixed points rubric
(`utils/logic.ts`). The engine has two parts:

- `calculateWowprimeSalary` reads a free-form salary entry and returns a monthly
  base salary. Three rules are tried in order:
  1. A pay-grade code such as `3-2`, `4級3` or `2 等 1`. It is priced from the level table:
     - 4 → 41000 + 1000 per grade
     - 3 → 37000 + 900 per grade
     - 2 → 34000 + 800 per grade
  2. A `base+bonus` entry. Only the text before the first `+` is read.
  3. Otherwise, every digit and point in the entry is read as one number.
- `calculateScore` maps an applicant record to eight category scores and their
  sum: education, salary, experience, qualification, Chinese, other languages,
  policy and scholarship. The form shows a total of 70 or more as a pass.

The Dafny project is made of pure functions and lemmas, one module per concern:

- `Wrappers` (`chars.dfy`): `Option`, used for a match that fails and for the
  NaN of `parseFloat`.
- `Chars` (`chars.dfy`): digits, JavaScript white space (`\s`), and the maximal
  run of one character class.
- `Numeric` (`numeric.dfy`): the `replace(/[^\d.]/g, '')` filter,
  `parseFloat` on the text it leaves, and decimal rendering of naturals.
- `Salary` (`salary.dfy`): the pay-grade pattern, its leftmost match, the `+`
  split and `calculateWowprimeSalary`.
- `Scoring` (`scoring.dfy`): the record, the eight tables, `calculateScore`,
  the default record and the pass mark (`Passes`, total ≥ 70, App.tsx:182).

Salaries are exact `real` numbers. NaN is `None` and becomes 0 as in the
source. The loosely typed text fields (education level, Chinese level and
scholarship) are closed datatypes. Each has an `Other…` arm for text the
tables do not list, and a `…FromText` function classifies raw text.

### Where the code and its on-screen notes differ

The model follows the code:

- Several notes say that an entry such as `"34600+2000"` has its 2000
  attendance bonus deducted:
  - the salary card's note (App.tsx:197);
  - the hint under the salary input (components/ScoreCard.tsx:84);
  - the comment on the summary cell (components/SummaryTable.tsx:29);
  - the comment on the rule itself (utils/logic.ts:76).
- The code of `calculateWowprimeSalary` does something else (utils/logic.ts:77-81).
  It keeps only the text before the first `+`, so the bonus is neither added
  nor deducted. `"34600+2000"` is read as 34600.
- `calculateScore` scores that value as it is (utils/logic.ts:111). 34600 falls
  in the 31520 tier and scores 10 for salary (`Scoring.CompositeSalaryRecordScore`).
- The salary card also shows a "net" figure (components/ScoreCard.tsx:73). It
  subtracts 2000 from the returned value whenever that value exceeds 2000.
  That figure is for display only and does not reach the score.

## Model

| member | source | states |
|---|---|---|
| `Chars.Span` | utils/logic.ts:52 | a greedy character-class run: every character in it belongs to the class, and the one after it does not (or the text ends) |
| `Chars.SpanExact` | utils/logic.ts:52 | any run that fills `s[i..j]` and is stopped at `j` is exactly the greedy run |
| `Numeric.DigitsValue` | utils/logic.ts:57 | `parseInt` of a digit run, also the integer part `parseFloat` reads; pinned by `NatDigitsValue` (it reads a rendering back) and `DigitsValueBelow` |
| `Numeric.DigitsValueBelow` | utils/logic.ts:56-57 | `parseInt` of a run of n digits is a natural below 10^n |
| `Numeric.Fraction` | utils/logic.ts:84 | the digits after a point are worth at least 0 and less than 1, and exactly their integer value divided by 10^length |
| `Numeric.KeepNumeric` | utils/logic.ts:84 | the filter leaves only digits and points; it changes nothing in a text already made of them and empties a text with none |
| `Numeric.KeepNumericAppend` | utils/logic.ts:79 | the filter of a concatenation is the concatenation of the filters, so a segment keeps its own digits |
| `Numeric.IntegerPart` | utils/logic.ts:84 | the integer part read is the longest digit-only prefix of the text: it is a prefix, all digits, and the character after it (if any) is not a digit |
| `Numeric.ParseLeadingDecimal` | utils/logic.ts:84 | `parseFloat` is NaN exactly when the text starts with neither a digit nor a point followed by a digit; otherwise it gives a non-negative number whose floor is the value of the leading digit run, and exactly that value when no point follows the run |
| `Numeric.OrZero` | utils/logic.ts:85 | NaN becomes 0; any other number is kept |
| `Numeric.NatDigitsValue` | utils/logic.ts:56-57 | reading the decimal rendering of n gives n back |
| `Numeric.ParseNatDigits` | utils/logic.ts:84 | `parseFloat` of a rendered natural, followed by a character that cannot continue a number, is that natural |
| `Numeric.ParsePointAt` | utils/logic.ts:84 | a text whose integer digits end at a point and whose fraction digits end at a non-digit or the end reads as integer part + 0.fraction |
| `Numeric.ParseDecimalText` | utils/logic.ts:84 | `ip + "." + ds + rest`, with digit runs `ip` and `ds` (not both empty, leading zeros allowed) and `rest` not starting with a digit, reads exactly as value(ip) + 0.ds |
| `Numeric.ParseExamples` | utils/logic.ts:84 | "1.2.3" reads 1.2 and "5." reads 5 |
| `Numeric.ParsePointExamples` | utils/logic.ts:84 | ".5" reads 0.5; "." and "" are NaN |
| `Salary.RateFor` | utils/logic.ts:58-70 | levels 2 to 4 have an increment that is positive and below the base; any other level keeps base and increment at 0 |
| `Salary.PayGradeSalary` | utils/logic.ts:72-73 | for levels 2 to 4 the salary is at least base − increment, which is positive; grade 1 pays the base exactly |
| `Salary.PayGradeSalaryStep` | utils/logic.ts:73 | each grade adds exactly one increment, so pay rises strictly with the grade |
| `Salary.MatchAt` | utils/logic.ts:52-57 | a match at i needs a level digit at i and a separator right after it, with room for a grade; the level read is the value of that digit, 2, 3 or 4 |
| `Salary.MatchAtOnlyCode` | utils/logic.ts:52-57 | every match at i is a level digit, one or more separators and a digit run stopped by a non-digit or the end, and the grade read is that run's value (so "3-x" cannot match) |
| `Salary.MatchAtSpans` | utils/logic.ts:52-57 | a level digit at i, separators filling i+1..j and a digit run filling j..k that stops at a non-digit or the end: the pattern matches at i with that level and the value of that run as the grade |
| `Salary.MatchAtCode` | utils/logic.ts:52-57 | the converse of `MatchAt`: a level digit followed by one or more separators and a digit run (leading zeros included) always matches, reading that level and the run's value |
| `Salary.LeftmostPayGrade` | utils/logic.ts:52-55 | the match found is the leftmost one: it matches where it says, no earlier position matches, and None means no position matches |
| `Salary.LeftmostIs` | utils/logic.ts:52-55 | a match at i with no match before it is exactly the one `match` returns |
| `Salary.LeftmostPrices` | utils/logic.ts:55-74 | a match at i with none before it prices the entry at base + (grade − 1)·increment of the level read |
| `Salary.FirstSegment` | utils/logic.ts:79 | `split('+')[0]` is a prefix without `+`, and it ends at the first `+` or at the end of the text |
| `Salary.CalculateWowprimeSalary` | utils/logic.ts:44-86 | the result is never negative (never NaN); empty input gives 0; a pay-grade match gives at least 33200 |
| `Salary.PayGradeRuleWins` | utils/logic.ts:55-81 | for an entry holding text without a code, then a code, then anything not continuing the grade (a `+`, a bonus, other numbers), the price is that of the code cut out alone |
| `Salary.PayGradeEntry` | utils/logic.ts:52-73 | level L at position i with no code before it, one or more separators and a digit run G (leading zeros included) followed by no further digit, give exactly base(L) + (G − 1)·increment(L) |
| `Salary.NoSeparatorNoPayGrade` | utils/logic.ts:52 | text without any separator character never matches the pay-grade pattern |
| `Salary.FirstSegmentRule` | utils/logic.ts:77-80 | with no pay-grade code, `a + "+" + rest` is priced by the digits and points of `a` alone |
| `Salary.LaterSegmentsIgnored` | utils/logic.ts:77-81 | two entries that differ only after their first `+` get the same salary |
| `Salary.BaseWithBonus` | utils/logic.ts:76-80 | "base+bonus" in plain digits gives the base; the bonus is neither added nor deducted |
| `Salary.PlainNumber` | utils/logic.ts:83-85 | a salary written in plain digits is read back unchanged |
| `Salary.BaseWithBonusExample` | utils/logic.ts:76-80 | "34600+2000" gives 34600 |
| `Salary.PayGradeBeforePlusExample` | utils/logic.ts:55-77 | "3-2+500" gives 37900: the code is priced and the `+` rule is not reached |
| `Salary.PayGradeSpellingExamples` | utils/logic.ts:47-73 | "4級3" gives 43000 |
| `Salary.PayGradeBaseExample` | utils/logic.ts:47-73 | "2等1" gives the level-2 base of 34000 |
| `Salary.PayGradeInsideExample` | utils/logic.ts:52-73 | "L 3-02" gives 37900: the code is found after other text, and the grade's leading zero adds nothing |
| `Salary.EmptyFirstSegmentExample` | utils/logic.ts:77-81 | "+2000" (empty first segment) gives 0 |
| `Salary.NoNumberExample` | utils/logic.ts:83-85 | "abc" (no number) gives 0 |
| `Scoring.EducationFromText` | types.ts:30 | exactly the five listed degree names are recognised; every other text is `OtherEducation` |
| `Scoring.ChineseFromText` | types.ts:46 | exactly the five listed levels are recognised, "None" being one of them; every other text is `OtherChinese` |
| `Scoring.ScholarshipFromText` | types.ts:58 | exactly "Gov", "School" and "None" are recognised; every other text is `OtherScholarship` |
| `Scoring.EducationPoints` | utils/logic.ts:100-108 | the score is in {0, 5, 10, 20, 30}, and 0 exactly for high school or an unlisted degree |
| `Scoring.SalaryPoints` | utils/logic.ts:113-116 | each tier as an if-and-only-if on the salary: 40 from 47971, 30 in [40000, 47971), 20 in [35000, 40000), 10 in [31520, 35000), 0 below 31520 |
| `Scoring.ExperiencePoints` | utils/logic.ts:119-120 | the score is in {0, 10, 20}; 20 exactly from two years and 0 exactly below one |
| `Scoring.FlagPoints` | utils/logic.ts:123 | qualification and policy each score in {0, 20}, with 20 exactly when the flag is set |
| `Scoring.ChinesePoints` | utils/logic.ts:125-131 | the score is in {0, 20, 25, 30}, and 0 exactly for Basic, None or an unlisted level |
| `Scoring.LanguagePoints` | utils/logic.ts:133-135 | the score is in {0, 10, 20}; 20 exactly for two or more and 10 exactly for one |
| `Scoring.ScholarshipPoints` | utils/logic.ts:140-142 | the score is in {0, 5, 20}, and 0 exactly for None or an unlisted value |
| `Scoring.CalculateScore` | utils/logic.ts:88-147 | the total is the sum of the eight fields and lies in 0..200; the salary field is the tier of the entry's price, with no deduction |
| `Scoring.SalaryPointsMonotone` | utils/logic.ts:113-116 | a higher salary never scores fewer points |
| `Scoring.SalaryBoundaries` | utils/logic.ts:113-116 | 47971→40, 47970→30, 40000→30, 39999→20, 35000→20, 34999→10, 31520→10, 31519→0 |
| `Scoring.ExperiencePointsMonotone` | utils/logic.ts:119-120 | more years never score fewer points |
| `Scoring.LanguagePointsMonotone` | utils/logic.ts:134-135 | more languages never score fewer points |
| `Scoring.CategoriesIndependent` | utils/logic.ts:100-142 | each category reads only its own field: records that agree on a field agree on that category |
| `Scoring.SalaryEditMovesOnlySalary` | utils/logic.ts:110-116 | editing the salary entry leaves the other seven fields alone and moves the total by the change in salary points |
| `Scoring.InitialApplicantData` | utils/logic.ts:4-42 | the blank record a form starts from; `InitialRecordScore` pins its score |
| `Scoring.Passes` | App.tsx:182-186 | a total of 70 or more passes; `InitialRecordScore` and `CompositeSalaryRecordScore` show a fail and a pass |
| `Scoring.InitialRecordScore` | utils/logic.ts:4-42 | the blank record scores 10 (Bachelor only) and does not pass |
| `Scoring.CompositeSalaryRecordScore` | utils/logic.ts:111-116 | the full example record with "34600+2000" scores 10 for salary and 150 in total, and passes |
| `Scoring.PayGradeRecordSalaryPoints` | utils/logic.ts:111-116 | a record whose salary entry is "3-2+500" scores 20 for salary |

## Left out

- `generateDateLogic` (utils/logic.ts:149-157) is not modelled. It reads the
  system clock and relies on `date-fns` for month and year arithmetic,
  end-of-month clamping and formatting. `date-fns` is not part of this model.
- The AI document extraction (services/geminiService.ts), and the UI in App.tsx
  and components/ (uploads, previews, JSON save/load, printing), are not
  modelled. The one exception is the 70-point pass mark, modelled as `Passes`.
- Identity, contact, job and evidence fields of the applicant record are not
  kept, because the score does not read them.
- JavaScript prototype keys are not modelled. For example,
  `eduMap["constructor"]` finds a function rather than falling back to 0. In the
  model, every unlisted text scores 0.
- IEEE-754 behaviour is not modelled. Numbers are exact. A digit run long enough
  to round (beyond 2^53 as a grade) or to overflow (`parseFloat` giving
  Infinity, over about 309 digits) reads as its exact value here.
- `parseFloat` is modelled only on text of digits and points. That is all it
  is ever given here, because the filter runs first; signs, exponents and
  white space never reach it.
- `experienceYears` is a `real`; a NaN value is not modelled.
  `foreignLanguageCount` is an `int`, because both the form (`parseInt`) and
  the extraction schema (INTEGER) produce integers. A fractional count between
  1 and 2 would score 0 in the source.
- A missing (`undefined`) salary entry is not modelled. The entry is always
  text; the empty text gives 0, as `!input` does.
- Text is a sequence of Unicode scalar values, not UTF-16 code units. Every
  character the pattern and the filter test is in the Basic Multilingual
  Plane, so the results are the same.
