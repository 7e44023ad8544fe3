/** Client helpers: converting an amount entered per period into an annual
    amount, and splitting the total tax into component shares. */
module Utils {
  import opened Wrappers
  import opened Schema

  /** How many of each period make up a year; an hour year is 40 hours a
      week over 48 weeks. */
  function PeriodsPerYear(p: TaxPeriod): (r: real)
    ensures r >= 1.0
  {
    match p
    case Annual => 1.0
    case Month => 12.0
    case SemiMonthly => 24.0
    case Weekly => 52.0
    case Day => 365.0
    case Hour => 40.0 * 48.0
  }

  /** `annualizeAmount`: scales by the number of periods in a year; any
      string that is not one of the five sub-annual period names (including
      "Annual") leaves the amount unchanged. */
  function AnnualizeAmount(amount: real, period: string): (r: real)
    ensures ParsePeriod(period).Some? ==> r == amount * PeriodsPerYear(ParsePeriod(period).value)
    ensures ParsePeriod(period).None? ==> r == amount
  {
    if period == PeriodName(Month) then amount * 12.0
    else if period == PeriodName(SemiMonthly) then amount * 24.0
    else if period == PeriodName(Weekly) then amount * 52.0
    else if period == PeriodName(Day) then amount * 365.0
    else if period == PeriodName(Hour) then amount * 1920.0
    else amount
  }

  /** Annualising never shrinks a non-negative amount, and maps 0 to 0. */
  lemma AnnualizeGrows(amount: real, period: string)
    requires amount >= 0.0
    ensures AnnualizeAmount(amount, period) >= amount
    ensures amount == 0.0 ==> AnnualizeAmount(amount, period) == 0.0
  {
    if ParsePeriod(period).Some? {
      var f := PeriodsPerYear(ParsePeriod(period).value);
      assert amount * f - amount == amount * (f - 1.0);
    }
  }

  /** For a fixed period, annualising is linear in the amount. */
  lemma AnnualizeLinear(a: real, b: real, k: real, period: string)
    ensures AnnualizeAmount(k * a + b, period)
         == k * AnnualizeAmount(a, period) + AnnualizeAmount(b, period)
  {
    if ParsePeriod(period).Some? {
      var f := PeriodsPerYear(ParsePeriod(period).value);
      assert (k * a + b) * f == k * (a * f) + b * f;
    }
  }

  /** Every factor is positive, so the annual amount determines the amount
      that was entered. */
  lemma AnnualizeInjective(a: real, b: real, period: string)
    requires AnnualizeAmount(a, period) == AnnualizeAmount(b, period)
    ensures a == b
  {
    if ParsePeriod(period).Some? {
      var f := PeriodsPerYear(ParsePeriod(period).value);
      assert (a - b) * f == 0.0;
    }
  }

  /** The three component shares of the total tax, in percent. */
  datatype TaxShares = TaxShares(bracketTax: real, insuranceContribution: real, commonTax: real)

  function ShareSum(s: TaxShares): real
  {
    s.bracketTax + s.insuranceContribution + s.commonTax
  }

  /** `calculateTaxPercentages`: every share is 0 when the total tax is 0;
      otherwise each share is its component as a percentage of the total. */
  function CalculateTaxPercentages(b: TaxBreakdown): (r: TaxShares)
    ensures b.totalTax == 0.0 ==> r == TaxShares(0.0, 0.0, 0.0)
    ensures b.totalTax != 0.0 ==>
      && r.bracketTax * b.totalTax == b.bracketTax * 100.0
      && r.insuranceContribution * b.totalTax == b.insuranceContribution * 100.0
      && r.commonTax * b.totalTax == b.commonTax * 100.0
  {
    var total := b.totalTax;
    if total == 0.0 then TaxShares(0.0, 0.0, 0.0)
    else TaxShares(
      b.bracketTax / total * 100.0,
      b.insuranceContribution / total * 100.0,
      b.commonTax / total * 100.0)
  }

  /** With a non-zero total, the shares add up to 100 exactly when the total
      tax is the sum of the three components. */
  lemma SharesSumTo100Iff(b: TaxBreakdown)
    requires b.totalTax != 0.0
    ensures ShareSum(CalculateTaxPercentages(b)) == 100.0
        <==> b.totalTax == b.bracketTax + b.insuranceContribution + b.commonTax
  {
    var r := CalculateTaxPercentages(b);
    var t := b.totalTax;
    var parts := b.bracketTax + b.insuranceContribution + b.commonTax;
    assert ShareSum(r) * t == parts * 100.0;
    if parts == t {
      assert (ShareSum(r) - 100.0) * t == 0.0;
      NonZeroFactor(ShareSum(r) - 100.0, t);
    }
  }

  lemma NonZeroFactor(x: real, y: real)
    requires y != 0.0 && x * y == 0.0
    ensures x == 0.0
  {
  }
}
