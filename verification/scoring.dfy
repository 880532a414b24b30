/** `calculateScore`: the points rubric for a foreign-worker application. Eight
    independent categories each take one value from a fixed table, and the
    total is their sum. The salary category reads the entry through
    `CalculateWowprimeSalary` and compares it with the tiers directly: no
    attendance bonus is deducted here. */
module Scoring {
  import opened Numeric
  import opened Salary

  // The loosely typed text fields of the record, as closed variants. The
  // `Other…` arm stands for any text the tables do not list.

  datatype Education = Doctoral | Master | Bachelor | Associate | HighSchool | OtherEducation
  datatype ChineseLevel = Fluent | High | Intermediate | Basic | NoChinese | OtherChinese
  datatype Scholarship = Gov | School | NoScholarship | OtherScholarship

  function EducationFromText(t: string): (e: Education)
    ensures e.OtherEducation? <==> t !in {"Doctoral", "Master", "Bachelor", "Associate", "HighSchool"}
    ensures e == Doctoral <==> t == "Doctoral"
    ensures e == Master <==> t == "Master"
    ensures e == Bachelor <==> t == "Bachelor"
    ensures e == Associate <==> t == "Associate"
    ensures e == HighSchool <==> t == "HighSchool"
  {
    match t
    case "Doctoral" => Doctoral
    case "Master" => Master
    case "Bachelor" => Bachelor
    case "Associate" => Associate
    case "HighSchool" => HighSchool
    case _ => OtherEducation
  }

  function ChineseFromText(t: string): (c: ChineseLevel)
    ensures c.OtherChinese? <==> t !in {"Fluent", "High", "Intermediate", "Basic", "None"}
    ensures c == Fluent <==> t == "Fluent"
    ensures c == High <==> t == "High"
    ensures c == Intermediate <==> t == "Intermediate"
    ensures c == Basic <==> t == "Basic"
    ensures c == NoChinese <==> t == "None"
  {
    match t
    case "Fluent" => Fluent
    case "High" => High
    case "Intermediate" => Intermediate
    case "Basic" => Basic
    case "None" => NoChinese
    case _ => OtherChinese
  }

  function ScholarshipFromText(t: string): (s: Scholarship)
    ensures s.OtherScholarship? <==> t !in {"Gov", "School", "None"}
    ensures s == Gov <==> t == "Gov"
    ensures s == School <==> t == "School"
    ensures s == NoScholarship <==> t == "None"
  {
    match t
    case "Gov" => Gov
    case "School" => School
    case "None" => NoScholarship
    case _ => OtherScholarship
  }

  /** The scoring fields of an applicant record; identity, contact, job and
      evidence fields play no part in the score and are not kept. */
  datatype ApplicantData = ApplicantData(
    educationLevel: Education,
    salaryAmount: string,
    experienceYears: real,
    qualificationScore: bool,
    chineseLevel: ChineseLevel,
    foreignLanguageCount: int,
    policyCompliance: bool,
    scholarship: Scholarship)

  /** Points per category. */
  datatype ScoringCriteria = ScoringCriteria(
    education: int,
    salary: int,
    experience: int,
    qualification: int,
    chinese: int,
    languages: int,
    policy: int,
    scholarship: int)
  {
    /** The `reduce` over the eight fields. */
    function Sum(): int {
      education + salary + experience + qualification + chinese + languages + policy + scholarship
    }
  }

  datatype ScoreResult = ScoreResult(total: int, breakdown: ScoringCriteria)

  /** The blank record a new form starts from: only the Bachelor default scores. */
  const InitialApplicantData: ApplicantData :=
    ApplicantData(Bachelor, "0", 0.0, false, NoChinese, 0, false, NoScholarship)

  // One table per category.

  /** Highest degree: Doctoral 30, Master 20, Bachelor 10, Associate 5, else 0. */
  function EducationPoints(e: Education): (p: int)
    ensures p in {0, 5, 10, 20, 30}
    ensures p == 0 <==> e == HighSchool || e == OtherEducation
  {
    match e
    case Doctoral => 30
    case Master => 20
    case Bachelor => 10
    case Associate => 5
    case HighSchool => 0
    case OtherEducation => 0
  }

  /** Monthly base salary tiers: 47971 and above 40, 40000 and above 30,
      35000 and above 20, 31520 and above 10, below that 0. */
  function SalaryPoints(salary: real): (p: int)
    ensures p in {0, 10, 20, 30, 40}
    ensures p == 0 <==> salary < 31520.0
    ensures p == 40 <==> salary >= 47971.0
    ensures p == 30 <==> 40000.0 <= salary < 47971.0
    ensures p == 20 <==> 35000.0 <= salary < 40000.0
    ensures p == 10 <==> 31520.0 <= salary < 35000.0
  {
    if salary >= 47971.0 then 40
    else if salary >= 40000.0 then 30
    else if salary >= 35000.0 then 20
    else if salary >= 31520.0 then 10
    else 0
  }

  /** Years of experience: 2 or more 20, at least 1 10, else 0. */
  function ExperiencePoints(years: real): (p: int)
    ensures p in {0, 10, 20}
    ensures p == 20 <==> years >= 2.0
    ensures p == 0 <==> years < 1.0
  {
    if years >= 2.0 then 20 else if years >= 1.0 then 10 else 0
  }

  /** Qualification and policy compliance each score 20 when met. */
  function FlagPoints(met: bool): (p: int)
    ensures p in {0, 20}
    ensures p == 20 <==> met
  {
    if met then 20 else 0
  }

  /** Chinese proficiency: Fluent 30, High 25, Intermediate 20, else 0. */
  function ChinesePoints(c: ChineseLevel): (p: int)
    ensures p in {0, 20, 25, 30}
    ensures p == 0 <==> c == Basic || c == NoChinese || c == OtherChinese
  {
    match c
    case Fluent => 30
    case High => 25
    case Intermediate => 20
    case _ => 0
  }

  /** Other languages: two or more 20, exactly one 10, else 0. */
  function LanguagePoints(count: int): (p: int)
    ensures p in {0, 10, 20}
    ensures p == 20 <==> count >= 2
    ensures p == 10 <==> count == 1
  {
    if count >= 2 then 20 else if count == 1 then 10 else 0
  }

  /** Scholarship: government 20, school 5, else 0. */
  function ScholarshipPoints(s: Scholarship): (p: int)
    ensures p in {0, 5, 20}
    ensures p == 0 <==> s == NoScholarship || s == OtherScholarship
  {
    match s
    case Gov => 20
    case School => 5
    case _ => 0
  }

  /** `calculateScore`: the breakdown and its sum. */
  function CalculateScore(data: ApplicantData): (r: ScoreResult)
    ensures r.total == r.breakdown.Sum()
    ensures 0 <= r.total <= 200
    ensures r.breakdown.salary == SalaryPoints(CalculateWowprimeSalary(data.salaryAmount))
  {
    var breakdown := ScoringCriteria(
      EducationPoints(data.educationLevel),
      SalaryPoints(CalculateWowprimeSalary(data.salaryAmount)),
      ExperiencePoints(data.experienceYears),
      FlagPoints(data.qualificationScore),
      ChinesePoints(data.chineseLevel),
      LanguagePoints(data.foreignLanguageCount),
      FlagPoints(data.policyCompliance),
      ScholarshipPoints(data.scholarship));
    ScoreResult(breakdown.Sum(), breakdown)
  }

  /** The pass mark shown beside the total: 70 points or more qualifies. */
  predicate Passes(r: ScoreResult) {
    r.total >= 70
  }

  // Properties of the tables.

  /** The salary tiers never fall as the salary rises. */
  lemma SalaryPointsMonotone(x: real, y: real)
    requires x <= y
    ensures SalaryPoints(x) <= SalaryPoints(y)
  {
  }

  /** The tier edges, one unit either side. */
  lemma SalaryBoundaries()
    ensures SalaryPoints(47971.0) == 40 && SalaryPoints(47970.0) == 30
    ensures SalaryPoints(40000.0) == 30 && SalaryPoints(39999.0) == 20
    ensures SalaryPoints(35000.0) == 20 && SalaryPoints(34999.0) == 10
    ensures SalaryPoints(31520.0) == 10 && SalaryPoints(31519.0) == 0
  {
  }

  lemma ExperiencePointsMonotone(x: real, y: real)
    requires x <= y
    ensures ExperiencePoints(x) <= ExperiencePoints(y)
  {
  }

  lemma LanguagePointsMonotone(x: int, y: int)
    requires x <= y
    ensures LanguagePoints(x) <= LanguagePoints(y)
  {
  }

  /** Each category reads only its own field: two records that agree on a
      field agree on that category's points. */
  lemma CategoriesIndependent(d1: ApplicantData, d2: ApplicantData)
    ensures d1.educationLevel == d2.educationLevel
        ==> CalculateScore(d1).breakdown.education == CalculateScore(d2).breakdown.education
    ensures d1.salaryAmount == d2.salaryAmount
        ==> CalculateScore(d1).breakdown.salary == CalculateScore(d2).breakdown.salary
    ensures d1.experienceYears == d2.experienceYears
        ==> CalculateScore(d1).breakdown.experience == CalculateScore(d2).breakdown.experience
    ensures d1.qualificationScore == d2.qualificationScore
        ==> CalculateScore(d1).breakdown.qualification == CalculateScore(d2).breakdown.qualification
    ensures d1.chineseLevel == d2.chineseLevel
        ==> CalculateScore(d1).breakdown.chinese == CalculateScore(d2).breakdown.chinese
    ensures d1.foreignLanguageCount == d2.foreignLanguageCount
        ==> CalculateScore(d1).breakdown.languages == CalculateScore(d2).breakdown.languages
    ensures d1.policyCompliance == d2.policyCompliance
        ==> CalculateScore(d1).breakdown.policy == CalculateScore(d2).breakdown.policy
    ensures d1.scholarship == d2.scholarship
        ==> CalculateScore(d1).breakdown.scholarship == CalculateScore(d2).breakdown.scholarship
  {
  }

  /** Editing the salary entry moves the total by exactly the change in the
      salary category; every other category stays as it was. */
  lemma SalaryEditMovesOnlySalary(d: ApplicantData, entry: string)
    ensures var before, after := CalculateScore(d), CalculateScore(d.(salaryAmount := entry));
      && after.breakdown == before.breakdown.(salary := after.breakdown.salary)
      && after.total - before.total == after.breakdown.salary - before.breakdown.salary
  {
  }

  /** The blank record scores 10 (the Bachelor default) and does not pass. */
  lemma InitialRecordScore()
    ensures CalculateScore(InitialApplicantData).breakdown == ScoringCriteria(10, 0, 0, 0, 0, 0, 0, 0)
    ensures CalculateScore(InitialApplicantData).total == 10
    ensures !Passes(CalculateScore(InitialApplicantData))
  {
  }

  /** A Bachelor with "34600+2000", two years, qualification, fluent Chinese,
      two other languages, policy compliance and a government scholarship:
      the salary is read as 34600 (tier 10, the bonus is neither added nor
      deducted), so the total is 150 and the record passes. */
  lemma CompositeSalaryRecordScore()
    ensures var r := CalculateScore(ApplicantData(Bachelor, "34600+2000", 2.0, true, Fluent, 2, true, Gov));
      && r.breakdown == ScoringCriteria(10, 10, 20, 20, 30, 20, 20, 20)
      && r.total == 150
      && Passes(r)
  {
    BaseWithBonusExample();
  }

  /** A pay-grade code is scored by its price: "3-2+500" is 37900, tier 20. */
  lemma PayGradeRecordSalaryPoints(d: ApplicantData)
    requires d.salaryAmount == "3-2+500"
    ensures CalculateScore(d).breakdown.salary == 20
  {
    PayGradeBeforePlusExample();
  }
}
