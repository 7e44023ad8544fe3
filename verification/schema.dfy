/** The shared input and output shapes of the tax estimator, and the validity
    rules the zod schema places on an input record. */
module Schema {
  import opened Wrappers

  /** The six pay periods an amount may be entered in. */
  datatype TaxPeriod = Annual | Month | SemiMonthly | Weekly | Day | Hour

  /** The string each period is sent as. */
  function PeriodName(p: TaxPeriod): string
  {
    match p
    case Annual => "Annual"
    case Month => "Month"
    case SemiMonthly => "Semi-monthly"
    case Weekly => "Weekly"
    case Day => "Day"
    case Hour => "Hour"
  }

  /** The zod enum check for `period`: accepts exactly the six period names. */
  function ParsePeriod(s: string): (r: Option<TaxPeriod>)
    ensures r.Some? ==> PeriodName(r.value) == s
  {
    if s == "Annual" then Some(Annual)
    else if s == "Month" then Some(Month)
    else if s == "Semi-monthly" then Some(SemiMonthly)
    else if s == "Weekly" then Some(Weekly)
    else if s == "Day" then Some(Day)
    else if s == "Hour" then Some(Hour)
    else None
  }

  /** Every period name is accepted and parses back to its own period. */
  lemma PeriodRoundTrip(p: TaxPeriod)
    ensures ParsePeriod(PeriodName(p)) == Some(p)
  {
  }

  /** A string is accepted as a period iff it is the name of one. */
  lemma PeriodAccepted(s: string)
    ensures ParsePeriod(s).Some? <==> exists p: TaxPeriod :: PeriodName(p) == s
  {
    if exists p: TaxPeriod :: PeriodName(p) == s {
      var p: TaxPeriod :| PeriodName(p) == s;
      PeriodRoundTrip(p);
    }
  }

  /** The five civil statuses. */
  datatype CivilStatus = Single | Married | Separated | Divorced | Widowed

  function CivilStatusName(c: CivilStatus): string
  {
    match c
    case Single => "single"
    case Married => "married"
    case Separated => "separated"
    case Divorced => "divorced"
    case Widowed => "widowed"
  }

  /** The zod enum check for `civilStatus`: accepts exactly the five names. */
  function ParseCivilStatus(s: string): (r: Option<CivilStatus>)
    ensures r.Some? ==> CivilStatusName(r.value) == s
  {
    if s == "single" then Some(Single)
    else if s == "married" then Some(Married)
    else if s == "separated" then Some(Separated)
    else if s == "divorced" then Some(Divorced)
    else if s == "widowed" then Some(Widowed)
    else None
  }

  lemma CivilStatusRoundTrip(c: CivilStatus)
    ensures ParseCivilStatus(CivilStatusName(c)) == Some(c)
  {
  }

  /** A string is accepted as a civil status iff it is the name of one. */
  lemma CivilStatusAccepted(s: string)
    ensures ParseCivilStatus(s).Some? <==> exists c: CivilStatus :: CivilStatusName(c) == s
  {
    if exists c: CivilStatus :: CivilStatusName(c) == s {
      var c: CivilStatus :| CivilStatusName(c) == s;
      CivilStatusRoundTrip(c);
    }
  }

  /** `personalInfoSchema`. Numbers are unconstrained reals (zod's
      `z.number()` admits fractions); the enum field arrives as a string. */
  datatype PersonalInfo = PersonalInfo(
    birthYear: real,
    spouseBirthYear: Option<real>,
    civilStatus: string,
    hasChildren: bool,
    numberOfDependents: real,
    finnmarkDeduction: bool,
    hasRegularEmployment: bool,
    hasBeenOnSickLeave: bool,
    hasOwnHome: bool,
    hasStudentLoans: bool,
    hasCarOrBoat: bool,
    hasSecondHome: bool,
    hasShares: bool)

  /** `workIncomeSchema`: salary is required, every other source optional. */
  datatype WorkIncome = WorkIncome(
    salary: real,
    businessIncome: Option<real>,
    freelanceIncome: Option<real>,
    overtimePay: Option<real>,
    bonuses: Option<real>,
    disabilityBenefits: Option<real>,
    parentalBenefits: Option<real>,
    sickPay: Option<real>)

  /** `bankLoanSchema`. */
  datatype BankLoan = BankLoan(
    savingsInterest: Option<real>,
    bankDeposits: Option<real>,
    loanInterest: Option<real>,
    mortgageInterest: Option<real>)

  /** `propertySchema`. */
  datatype Property = Property(
    primaryResidence: Option<bool>,
    rentalIncome: Option<real>,
    propertyValue: Option<real>,
    propertyExpenses: Option<real>)

  /** `taxCalculationSchema`: one submitted input record. */
  datatype TaxCalculation = TaxCalculation(
    personalInfo: PersonalInfo,
    income: WorkIncome,
    bankAndLoans: BankLoan,
    property: Property,
    period: string,
    location: string)

  /** The `TaxBreakdown` record. The fields the server never fills in are
      optional here; `averageTaxRate` is `None` where the server's division
      yields NaN or Infinity (both serialised as `null`). */
  datatype TaxBreakdown = TaxBreakdown(
    totalIncome: real,
    bracketTax: real,
    insuranceContribution: real,
    commonTax: real,
    standardDeduction: real,
    minimumDeduction: Option<real>,
    mortgageDeduction: real,
    propertyDeduction: Option<real>,
    parentalBenefitDeduction: Option<real>,
    disabilityDeduction: Option<real>,
    totalDeductions: Option<real>,
    totalTax: real,
    netPay: real,
    marginalTaxRate: real,
    averageTaxRate: Option<real>)

  /** Every constrained field of an input record, by its path in the schema. */
  datatype Field =
    | BirthYear | SpouseBirthYear | CivilStatusField | NumberOfDependents
    | Salary | BusinessIncome | FreelanceIncome | OvertimePay | Bonuses
    | DisabilityBenefits | ParentalBenefits | SickPay
    | SavingsInterest | BankDeposits | LoanInterest | MortgageInterest
    | RentalIncome | PropertyValue | PropertyExpenses
    | PeriodField

  const AllFields: seq<Field> := [
    BirthYear, SpouseBirthYear, CivilStatusField, NumberOfDependents,
    Salary, BusinessIncome, FreelanceIncome, OvertimePay, Bonuses,
    DisabilityBenefits, ParentalBenefits, SickPay,
    SavingsInterest, BankDeposits, LoanInterest, MortgageInterest,
    RentalIncome, PropertyValue, PropertyExpenses,
    PeriodField]

  lemma AllFieldsComplete(f: Field)
    ensures f in AllFields
  {
  }

  /** `z.number().min(1900).max(currentYear)`. */
  predicate YearInRange(y: real, currentYear: int)
  {
    1900.0 <= y <= currentYear as real
  }

  /** `z.number().min(0).optional()`: absent, or present and non-negative. */
  predicate OptionalNonNegative(o: Option<real>)
  {
    o.None? || o.value >= 0.0
  }

  /** The rule the schema places on one field. Booleans and strings without
      an enum carry no rule beyond their type. */
  predicate Satisfies(c: TaxCalculation, currentYear: int, f: Field)
  {
    match f
    case BirthYear => YearInRange(c.personalInfo.birthYear, currentYear)
    case SpouseBirthYear =>
      c.personalInfo.spouseBirthYear.None? || YearInRange(c.personalInfo.spouseBirthYear.value, currentYear)
    case CivilStatusField => ParseCivilStatus(c.personalInfo.civilStatus).Some?
    case NumberOfDependents => c.personalInfo.numberOfDependents >= 0.0
    case Salary => c.income.salary >= 0.0
    case BusinessIncome => OptionalNonNegative(c.income.businessIncome)
    case FreelanceIncome => OptionalNonNegative(c.income.freelanceIncome)
    case OvertimePay => OptionalNonNegative(c.income.overtimePay)
    case Bonuses => OptionalNonNegative(c.income.bonuses)
    case DisabilityBenefits => OptionalNonNegative(c.income.disabilityBenefits)
    case ParentalBenefits => OptionalNonNegative(c.income.parentalBenefits)
    case SickPay => OptionalNonNegative(c.income.sickPay)
    case SavingsInterest => OptionalNonNegative(c.bankAndLoans.savingsInterest)
    case BankDeposits => OptionalNonNegative(c.bankAndLoans.bankDeposits)
    case LoanInterest => OptionalNonNegative(c.bankAndLoans.loanInterest)
    case MortgageInterest => OptionalNonNegative(c.bankAndLoans.mortgageInterest)
    case RentalIncome => OptionalNonNegative(c.property.rentalIncome)
    case PropertyValue => OptionalNonNegative(c.property.propertyValue)
    case PropertyExpenses => OptionalNonNegative(c.property.propertyExpenses)
    case PeriodField => ParsePeriod(c.period).Some?
  }

  /** The fields among `fields` whose rule fails, in order. */
  function IssuesAmong(c: TaxCalculation, currentYear: int, fields: seq<Field>): (r: seq<Field>)
    ensures forall f :: f in r <==> f in fields && !Satisfies(c, currentYear, f)
    ensures |r| <= |fields|
  {
    if |fields| == 0 then []
    else
      var rest := IssuesAmong(c, currentYear, fields[1..]);
      if Satisfies(c, currentYear, fields[0]) then rest else [fields[0]] + rest
  }

  /** Parsing against `taxCalculationSchema`: the paths of all failing
      fields, as zod collects every issue rather than stopping at the first.
      `currentYear` stands for `new Date().getFullYear()`. */
  function Validate(c: TaxCalculation, currentYear: int): (issues: seq<Field>)
    ensures forall f :: f in issues <==> !Satisfies(c, currentYear, f)
  {
    forall f: Field ensures f in AllFields { AllFieldsComplete(f); }
    IssuesAmong(c, currentYear, AllFields)
  }

  /** The record parses successfully. */
  predicate Valid(c: TaxCalculation, currentYear: int)
  {
    Validate(c, currentYear) == []
  }

  /** A record parses iff every field rule holds. */
  lemma ValidIffAllRulesHold(c: TaxCalculation, currentYear: int)
    ensures Valid(c, currentYear) <==> forall f :: Satisfies(c, currentYear, f)
  {
    var issues := Validate(c, currentYear);
    if issues != [] {
      assert issues[0] in issues;
    }
  }

  /** `birthYear` is reported iff it lies outside [1900, currentYear]. */
  lemma BirthYearRule(c: TaxCalculation, currentYear: int)
    ensures BirthYear in Validate(c, currentYear)
        <==> !(1900.0 <= c.personalInfo.birthYear <= currentYear as real)
  {
  }

  /** An absent spouse birth year is never reported; a present one obeys the
      same range as `birthYear`. */
  lemma SpouseBirthYearRule(c: TaxCalculation, currentYear: int)
    ensures c.personalInfo.spouseBirthYear.None? ==> SpouseBirthYear !in Validate(c, currentYear)
    ensures c.personalInfo.spouseBirthYear.Some? ==>
      (SpouseBirthYear in Validate(c, currentYear)
       <==> !(1900.0 <= c.personalInfo.spouseBirthYear.value <= currentYear as real))
  {
  }

  /** The civil status is accepted iff it is the name of one of the five
      statuses, and the period iff it is the name of one of the six periods. */
  lemma EnumRules(c: TaxCalculation, currentYear: int)
    ensures CivilStatusField !in Validate(c, currentYear)
        <==> exists s: CivilStatus :: CivilStatusName(s) == c.personalInfo.civilStatus
    ensures PeriodField !in Validate(c, currentYear)
        <==> exists p: TaxPeriod :: PeriodName(p) == c.period
  {
    EnumRulesOn(c, currentYear, Validate(c, currentYear));
  }

  /** `EnumRules` over any list that reports exactly the failing fields. */
  lemma EnumRulesOn(c: TaxCalculation, currentYear: int, issues: seq<Field>)
    requires forall f :: f in issues <==> !Satisfies(c, currentYear, f)
    ensures CivilStatusField !in issues
        <==> exists s: CivilStatus :: CivilStatusName(s) == c.personalInfo.civilStatus
    ensures PeriodField !in issues
        <==> exists p: TaxPeriod :: PeriodName(p) == c.period
  {
    assert CivilStatusField !in issues <==> Satisfies(c, currentYear, CivilStatusField);
    assert PeriodField !in issues <==> Satisfies(c, currentYear, PeriodField);
    CivilStatusAccepted(c.personalInfo.civilStatus);
    PeriodAccepted(c.period);
  }

  /** Salary is required and non-negative; the number of dependents is
      non-negative and may be fractional. */
  lemma RequiredAmountRules(c: TaxCalculation, currentYear: int)
    ensures Salary in Validate(c, currentYear) <==> c.income.salary < 0.0
    ensures NumberOfDependents in Validate(c, currentYear) <==> c.personalInfo.numberOfDependents < 0.0
  {
  }

  /** An optional amount is reported iff it is present and negative. */
  predicate ReportedAmount(o: Option<real>, reported: bool)
  {
    reported <==> (o.Some? && o.value < 0.0)
  }

  /** The optional income sources: absent is never reported, present is
      reported iff negative. */
  lemma OptionalIncomeRules(c: TaxCalculation, currentYear: int)
    ensures ReportedAmount(c.income.businessIncome, BusinessIncome in Validate(c, currentYear))
    ensures ReportedAmount(c.income.freelanceIncome, FreelanceIncome in Validate(c, currentYear))
    ensures ReportedAmount(c.income.overtimePay, OvertimePay in Validate(c, currentYear))
    ensures ReportedAmount(c.income.bonuses, Bonuses in Validate(c, currentYear))
    ensures ReportedAmount(c.income.disabilityBenefits, DisabilityBenefits in Validate(c, currentYear))
    ensures ReportedAmount(c.income.parentalBenefits, ParentalBenefits in Validate(c, currentYear))
    ensures ReportedAmount(c.income.sickPay, SickPay in Validate(c, currentYear))
  {
    OptionalIncomeRulesOn(c, currentYear, Validate(c, currentYear));
  }

  lemma OptionalIncomeRulesOn(c: TaxCalculation, currentYear: int, issues: seq<Field>)
    requires forall f :: f in issues <==> !Satisfies(c, currentYear, f)
    ensures ReportedAmount(c.income.businessIncome, BusinessIncome in issues)
    ensures ReportedAmount(c.income.freelanceIncome, FreelanceIncome in issues)
    ensures ReportedAmount(c.income.overtimePay, OvertimePay in issues)
    ensures ReportedAmount(c.income.bonuses, Bonuses in issues)
    ensures ReportedAmount(c.income.disabilityBenefits, DisabilityBenefits in issues)
    ensures ReportedAmount(c.income.parentalBenefits, ParentalBenefits in issues)
    ensures ReportedAmount(c.income.sickPay, SickPay in issues)
  {
  }

  /** The bank, loan and property amounts follow the same rule. */
  lemma BankAndPropertyRules(c: TaxCalculation, currentYear: int)
    ensures ReportedAmount(c.bankAndLoans.savingsInterest, SavingsInterest in Validate(c, currentYear))
    ensures ReportedAmount(c.bankAndLoans.bankDeposits, BankDeposits in Validate(c, currentYear))
    ensures ReportedAmount(c.bankAndLoans.loanInterest, LoanInterest in Validate(c, currentYear))
    ensures ReportedAmount(c.bankAndLoans.mortgageInterest, MortgageInterest in Validate(c, currentYear))
    ensures ReportedAmount(c.property.rentalIncome, RentalIncome in Validate(c, currentYear))
    ensures ReportedAmount(c.property.propertyValue, PropertyValue in Validate(c, currentYear))
    ensures ReportedAmount(c.property.propertyExpenses, PropertyExpenses in Validate(c, currentYear))
  {
    BankAndPropertyRulesOn(c, currentYear, Validate(c, currentYear));
  }

  lemma BankAndPropertyRulesOn(c: TaxCalculation, currentYear: int, issues: seq<Field>)
    requires forall f :: f in issues <==> !Satisfies(c, currentYear, f)
    ensures ReportedAmount(c.bankAndLoans.savingsInterest, SavingsInterest in issues)
    ensures ReportedAmount(c.bankAndLoans.bankDeposits, BankDeposits in issues)
    ensures ReportedAmount(c.bankAndLoans.loanInterest, LoanInterest in issues)
    ensures ReportedAmount(c.bankAndLoans.mortgageInterest, MortgageInterest in issues)
    ensures ReportedAmount(c.property.rentalIncome, RentalIncome in issues)
    ensures ReportedAmount(c.property.propertyValue, PropertyValue in issues)
    ensures ReportedAmount(c.property.propertyExpenses, PropertyExpenses in issues)
  {
  }

  /** Every income amount is non-negative: salary, and each optional
      source that is present. */
  predicate IncomeNonNegative(w: WorkIncome)
  {
    && w.salary >= 0.0
    && OptionalNonNegative(w.businessIncome) && OptionalNonNegative(w.freelanceIncome)
    && OptionalNonNegative(w.overtimePay) && OptionalNonNegative(w.bonuses)
    && OptionalNonNegative(w.disabilityBenefits) && OptionalNonNegative(w.parentalBenefits)
    && OptionalNonNegative(w.sickPay)
  }

  /** What a valid record guarantees about the amounts the estimator reads:
      non-negative income, non-negative mortgage interest when present, and a
      recognised period. */
  lemma ValidAmountsNonNegative(c: TaxCalculation, currentYear: int)
    requires Valid(c, currentYear)
    ensures IncomeNonNegative(c.income)
    ensures OptionalNonNegative(c.bankAndLoans.mortgageInterest)
    ensures ParsePeriod(c.period).Some?
  {
    ValidIffAllRulesHold(c, currentYear);
    IncomeFromRules(c, currentYear);
    assert Satisfies(c, currentYear, MortgageInterest);
    assert Satisfies(c, currentYear, PeriodField);
  }

  lemma IncomeFromRules(c: TaxCalculation, currentYear: int)
    requires forall f :: Satisfies(c, currentYear, f)
    ensures IncomeNonNegative(c.income)
  {
    assert Satisfies(c, currentYear, Salary);
    assert Satisfies(c, currentYear, BusinessIncome);
    assert Satisfies(c, currentYear, FreelanceIncome);
    assert Satisfies(c, currentYear, OvertimePay);
    assert Satisfies(c, currentYear, Bonuses);
    assert Satisfies(c, currentYear, DisabilityBenefits);
    assert Satisfies(c, currentYear, ParentalBenefits);
    assert Satisfies(c, currentYear, SickPay);
  }
}
