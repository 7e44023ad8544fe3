/** The request the calculator page sends to the server estimator, and
    lemmas comparing the server's formulas with the client helpers' formulas
    when both are applied to the same totals. */
module Calculator {
  import opened Wrappers
  import opened Schema
  import Storage
  import Utils
  import Summary

  /** The request body: only the salary is annualised from the entered
      period; every other amount is sent as entered. */
  function PrepareRequest(data: TaxCalculation): (r: TaxCalculation)
    ensures r.income.salary == Utils.AnnualizeAmount(data.income.salary, data.period)
    ensures r.income == data.income.(salary := r.income.salary)
    ensures r.personalInfo == data.personalInfo && r.bankAndLoans == data.bankAndLoans
    ensures r.property == data.property && r.period == data.period && r.location == data.location
  {
    data.(income := data.income.(salary := Utils.AnnualizeAmount(data.income.salary, data.period)))
  }

  /** Preparing the request keeps a valid record valid. */
  lemma PrepareRequestKeepsValid(data: TaxCalculation, currentYear: int)
    requires Valid(data, currentYear)
    ensures Valid(PrepareRequest(data), currentYear)
  {
    var r := PrepareRequest(data);
    ValidIffAllRulesHold(data, currentYear);
    assert Satisfies(data, currentYear, Salary);
    Utils.AnnualizeGrows(data.income.salary, data.period);
    forall f ensures Satisfies(r, currentYear, f) {
      assert Satisfies(data, currentYear, f);
    }
    ValidIffAllRulesHold(r, currentYear);
  }

  /** The server's total income for a prepared request: the annualised
      salary plus the other sources exactly as entered. */
  lemma RequestTotalIncome(data: TaxCalculation)
    ensures Storage.TotalIncome(PrepareRequest(data).income)
         == Utils.AnnualizeAmount(data.income.salary, data.period)
            + (Storage.TotalIncome(data.income) - data.income.salary)
  {
  }

  /** If the component shares were computed from the server's breakdown of
      a valid record, they would never add up to 100: either the total tax is
      0 and all shares are 0, or the deductions make the total differ from
      the sum of the components. */
  lemma ServerSharesNeverSumTo100(data: TaxCalculation, currentYear: int)
    requires Valid(data, currentYear)
    ensures Utils.ShareSum(Utils.CalculateTaxPercentages(Storage.CalculateTax(data))) != 100.0
  {
    ValidAmountsNonNegative(data, currentYear);
    var b := Storage.CalculateTax(data);
    if b.totalTax != 0.0 {
      Utils.SharesSumTo100Iff(b);
    }
  }

  /** The summary's zero-guarded average-rate formula, applied to the
      server's totals, equals the server's rate where that is a number, and
      is 0 where it is not. */
  lemma AverageRatesAgree(data: TaxCalculation)
    ensures var b := Storage.CalculateTax(data);
      Summary.AverageRate(b.totalIncome, b.totalTax) == b.averageTaxRate.GetOr(0.0)
  {
    var b := Storage.CalculateTax(data);
    if b.totalIncome != 0.0 {
      var a := Summary.AverageRate(b.totalIncome, b.totalTax);
      var s := b.averageTaxRate.value;
      assert (a - s) * b.totalIncome == 0.0;
      Utils.NonZeroFactor(a - s, b.totalIncome);
    }
  }

  /** With no mortgage interest and an income strictly between 0 and
      109 950 / 0.422, the server's net pay exceeds total income, and so
      does the summary's net-income formula on the same totals. */
  lemma NetPayAboveIncomeBelowBreakEven(data: TaxCalculation)
    requires data.bankAndLoans.mortgageInterest.GetOr(0.0) == 0.0
    requires 0.0 < Storage.TotalIncome(data.income) < Storage.StandardDeductionCap / Storage.CombinedRate
    ensures var b := Storage.CalculateTax(data);
      b.netPay > b.totalIncome && Summary.NetIncome(b.totalIncome, b.totalTax) > b.totalIncome
  {
    Storage.NegativeTaxBelowBreakEven(data);
  }
}
